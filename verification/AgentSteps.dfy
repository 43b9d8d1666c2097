/** Runs of agents put together step by step, with the requests that brokers send to shards. */
module AgentSteps {
  import opened Basics
  import opened LockTable
  import opened ShardSteps
  import opened BrokerSpec
  import opened ShardLinks
  import opened Systems
  import opened SystemRuns
  import opened Worlds
  import opened WorldRuns
  import opened RunSteps
  import A = AgentSpec

  ghost predicate Runs(dir: Key -> ShardId, run: WorldRun) { run.worlds != [] && Unfolds(dir, map[], run) }

  function Now(run: WorldRun): World
    requires run.worlds != []
  {
    run.worlds[|run.worlds| - 1]
  }

  // ---- Requests to shards ----

  /** What the broker of a ticket sends in an event. */
  function SendsIn(dir: Key -> ShardId, sys: System, e: Event): map<ShardId, Request> {
    var t := e.ticket;
    if IsAsk(e) && t in sys.tickets then StepOn(dir, sys.tickets[t], e).sends
    else if e.AtBroker? && t in sys.tickets && LinkOf(sys, t, e.shard).resps != [] then
      Handle(sys.tickets[t], e.shard, LinkOf(sys, t, e.shard).resps[0]).sends
    else if e.TakeUp? then BrokerSpec.Recover(e.reports).sends
    else map[]
  }

  function SentIn(dir: Key -> ShardId, sys: System, e: Event, t: Ticket, s: ShardId): seq<Request> {
    if e.ticket == t && s in SendsIn(dir, sys, e) then [SendsIn(dir, sys, e)[s]] else []
  }

  /** The requests about `t` to shard `s` along a path, in order. */
  function SentAlong(dir: Key -> ShardId, p: History, n: nat, t: Ticket, s: ShardId): seq<Request>
    requires n <= |p.events| && n <= |p.states|
  {
    if n == 0 then [] else SentAlong(dir, p, n - 1, t, s) + SentIn(dir, p.states[n - 1], p.events[n - 1], t, s)
  }

  function AlongAll(dir: Key -> ShardId, p: History, t: Ticket, s: ShardId): seq<Request> {
    if |p.events| <= |p.states| then SentAlong(dir, p, |p.events|, t, s) else []
  }

  /** The requests about `t` to shard `s` in a whole run, in order. */
  function RequestsOf(dir: Key -> ShardId, paths: seq<History>, t: Ticket, s: ShardId): seq<Request> {
    if paths == [] then []
    else RequestsOf(dir, paths[..|paths| - 1], t, s) + AlongAll(dir, paths[|paths| - 1], t, s)
  }

  function Reqs(dir: Key -> ShardId, run: WorldRun, t: Ticket, s: ShardId): seq<Request> {
    RequestsOf(dir, run.paths, t, s)
  }

  lemma OneSent(dir: Key -> ShardId, p: History, sys: System, e: Event, t: Ticket, s: ShardId)
    requires |p.states| >= 1 && p.states[0] == sys && p.events == [e]
    ensures AlongAll(dir, p, t, s) == SentIn(dir, sys, e, t, s)
  {
    assert SentAlong(dir, p, 0, t, s) == [];
    assert SentAlong(dir, p, 1, t, s) == [] + SentIn(dir, sys, e, t, s);
  }

  // ---- One happening ----

  lemma Extended(dir: Key -> ShardId, run: WorldRun, x: Happening, p: History, r: World) returns (g: WorldRun)
    requires Runs(dir, run) && Moves(dir, Now(run), x, p, r)
    ensures Runs(dir, g) && Now(g) == r && g.paths == run.paths + [p]
    ensures forall t, s :: Reqs(dir, g, t, s) == Reqs(dir, run, t, s) + AlongAll(dir, p, t, s)
  {
    hide Moves, Initial, AlongAll;
    g := WorldRun(run.worlds + [r], run.happenings + [x], run.paths + [p]);
    forall n | 0 <= n < |g.happenings| ensures Moves(dir, g.worlds[n], g.happenings[n], g.paths[n], g.worlds[n + 1]) {
      if n < |run.happenings| {
        assert Moves(dir, run.worlds[n], run.happenings[n], run.paths[n], run.worlds[n + 1]);
      }
    }
    assert g.paths[..|g.paths| - 1] == run.paths;
  }

  lemma NowIsSound(dir: Key -> ShardId, run: WorldRun)
    requires Runs(dir, run)
    ensures WorldInv(dir, map[], Now(run)) && Sound(dir, map[], Now(run).sys)
  {
    hide Moves, Initial, Sound;
    ReachableWorld(dir, map[], run, |run.worlds| - 1);
  }

  /** A message arrives. */
  lemma Delivered(dir: Key -> ShardId, run: WorldRun, e: Event) returns (g: WorldRun)
    requires Runs(dir, run) && Possible(Now(run).sys, e) && (e.AtShard? || e.AtBroker?)
    ensures Runs(dir, g) && Now(g).sys == After(dir, Now(run).sys, e) && Now(g).agents == Now(run).agents
    ensures Now(g).rolledBack == Now(run).rolledBack + RollbackReplies(Now(run).sys, e)
    ensures forall t, s :: Reqs(dir, g, t, s) == Reqs(dir, run, t, s) + SentIn(dir, Now(run).sys, e, t, s)
  {
    hide Unfolds, Possible, After, Replies, CommitReplies, RollbackReplies, Early, AlongAll, SentIn, Follows, Reqs;
    var w := Now(run);
    var p := OnePath(dir, w.sys, e);
    forall t, s ensures AlongAll(dir, p, t, s) == SentIn(dir, w.sys, e, t, s) { OneSent(dir, p, w.sys, e, t, s); }
    hide Path;
    var r := World(After(dir, w.sys, e), Staying(w, e), w.rolledBack + Replies(p),
      w.committed + CommitReplies(w.sys, e));
    assert Staying(w, e) == w.agents;
    g := Extended(dir, run, Inside(e), p, r);
  }

  lemma AsksOne(act: A.Act, t: Ticket, evs: seq<Event>)
    requires Demands(act, t, evs)
    ensures Asks([act], t, evs)
  {
    assert evs[..|evs|] == evs && evs[|evs|..] == [] && [act][1..] == [];
  }

  /** An agent takes a turn in which it asks its broker for one thing. */
  lemma Turn(dir: Key -> ShardId, run: WorldRun, id: nat, t: Ticket, told: A.Event, act: A.Act, e: Event)
    returns (g: WorldRun)
    requires Runs(dir, run) && id in Now(run).agents && Now(run).agents[id].ticket == Some(t)
             && t in Now(run).sys.tickets
    requires A.React(Now(run).agents[id], told, A.LUCKY).Some?
    requires A.React(Now(run).agents[id], told, A.LUCKY).value.acts == [act] && Demands(act, t, [e])
    requires MayTell(Now(run), Now(run).agents[id], told)
    ensures Runs(dir, g) && Possible(Now(run).sys, e) && Now(g).sys == After(dir, Now(run).sys, e)
    ensures Now(g).agents == Now(run).agents[id := A.React(Now(run).agents[id], told, A.LUCKY).value.agent]
    ensures forall t', s :: Reqs(dir, g, t', s) == Reqs(dir, run, t', s) + SentIn(dir, Now(run).sys, e, t', s)
  {
    hide Unfolds, Possible, After, Replies, Early, WorldInv, A.React, Demands, MayTell, AlongAll, SentIn, Follows, Reqs;
    AsksOne(act, t, [e]);
    NowIsSound(dir, run);
    var p, r := TurnGoes(dir, map[], Now(run), id, told, A.LUCKY, [e]);
    OneStep(dir, Now(run).sys, p, r.sys, e);
    forall t', s ensures AlongAll(dir, p, t', s) == SentIn(dir, Now(run).sys, e, t', s) {
      OneSent(dir, p, Now(run).sys, e, t', s);
    }
    hide Path;
    g := Extended(dir, run, Turns(id, told, A.LUCKY, [e]), p, r);
  }

  /** A turn in which nothing is asked. */
  lemma QuietTurn(dir: Key -> ShardId, run: WorldRun, id: nat, told: A.Event, a: A.Agent, act: A.Act)
    returns (g: WorldRun)
    requires Runs(dir, run) && id in Now(run).agents && Now(run).agents[id].ticket.Some?
    requires A.React(Now(run).agents[id], told, A.LUCKY) == Some(A.Reaction(a, [act])) && act.Report?
    requires MayTell(Now(run), Now(run).agents[id], told)
    ensures Runs(dir, g) && Now(g).sys == Now(run).sys && Now(g).agents == Now(run).agents[id := a]
    ensures forall t, s :: Reqs(dir, g, t, s) == Reqs(dir, run, t, s)
  {
    hide Unfolds, Early, A.React, MayTell, Reqs;
    AsksOne(act, Now(run).agents[id].ticket.value, []);
    var p := EmptyPath(dir, Now(run).sys);
    var r := World(Now(run).sys, Now(run).agents[id := a],
      Used(Now(run).rolledBack, Now(run).agents[id], told) + Replies(p),
                   Now(run).committed);
    forall t, s ensures AlongAll(dir, p, t, s) == [] {}
    hide Replies;
    g := Extended(dir, run, Turns(id, told, A.LUCKY, []), p, r);
    forall t, s ensures Reqs(dir, g, t, s) == Reqs(dir, run, t, s) {
      assert Reqs(dir, g, t, s) == Reqs(dir, run, t, s) + AlongAll(dir, p, t, s);
    }
  }

  // ---- A step and its outcome ----

  /** A shard handles the next request. */
  lemma ShardServes(dir: Key -> ShardId, run: WorldRun, t: Ticket, s: ShardId, q: Request, u: Ticket)
    returns (g: WorldRun, more: seq<Response>)
    requires Runs(dir, run) && s < |Now(run).sys.shards| && Heads(LinkOf(Now(run).sys, t, s), q) && u != t
    requires Enabled(Now(run).sys.shards[s], OpOf(t, q, 0, 0))
    requires forall x :: x in Do(Now(run).sys.shards[s], OpOf(t, q, 0, 0)).answers ==> x.ticket != u
    ensures Runs(dir, g) && ServedTo(Now(run).sys, t, s, q, more, Now(g).sys, u)
    ensures Now(g).agents == Now(run).agents && Now(g).rolledBack == Now(run).rolledBack
    ensures forall t', s' :: Reqs(dir, g, t', s') == Reqs(dir, run, t', s')
  {
    hide Unfolds, Do, Possible, After, ServedTo, WorldInv, Sound, Reqs;
    NowIsSound(dir, run);
    var e;
    e, more := ShardStep(dir, map[], Now(run).sys, t, s, q, u);
    g := Delivered(dir, run, e);
    forall t', s' ensures Reqs(dir, g, t', s') == Reqs(dir, run, t', s') {
      assert Reqs(dir, g, t', s') == Reqs(dir, run, t', s') + SentIn(dir, Now(run).sys, e, t', s');
    }
  }

  /** The broker handles the next response of a shard. */
  lemma Hear(dir: Key -> ShardId, run: WorldRun, t: Ticket, s: ShardId, u: Ticket) returns (g: WorldRun)
    requires Runs(dir, run) && t in Now(run).sys.tickets && u != t && s < |Now(run).sys.shards|
    requires LinkOf(Now(run).sys, t, s).resps != []
    ensures Runs(dir, g) && AnsweredTo(Now(run).sys, t, s, Now(g).sys, u) && Now(g).agents == Now(run).agents
    ensures Now(g).rolledBack == Now(run).rolledBack + RollbackReplies(Now(run).sys, AtBroker(t, s))
    ensures Reqs(dir, g, t, s) == Reqs(dir, run, t, s) + SentIn(dir, Now(run).sys, AtBroker(t, s), t, s)
  {
    hide Unfolds, Possible, After, AnsweredTo, RollbackReplies, SentIn, Reqs;
    AnswerStep(dir, Now(run).sys, t, s, u);
    g := Delivered(dir, run, AtBroker(t, s));
  }

  /** An agent asks for one thing. */
  lemma AgentAsks(dir: Key -> ShardId, run: WorldRun, id: nat, told: A.Event, act: A.Act, e: Event, u: Ticket)
    returns (g: WorldRun)
    requires Runs(dir, run) && id in Now(run).agents && Now(run).agents[id].ticket == Some(e.ticket)
    requires e.ticket in Now(run).sys.tickets && IsAsk(e) && u != e.ticket
    requires A.React(Now(run).agents[id], told, A.LUCKY).Some?
    requires A.React(Now(run).agents[id], told, A.LUCKY).value.acts == [act] && Demands(act, e.ticket, [e])
    requires MayTell(Now(run), Now(run).agents[id], told)
    ensures Runs(dir, g) && AskedTo(dir, Now(run).sys, e, Now(g).sys, u)
    ensures Now(g).agents == Now(run).agents[id := A.React(Now(run).agents[id], told, A.LUCKY).value.agent]
    ensures forall s :: Reqs(dir, g, e.ticket, s) == Reqs(dir, run, e.ticket, s) + SentIn(dir, Now(run).sys, e,
            e.ticket, s)
  {
    hide Unfolds, Possible, After, AskedTo, A.React, SentIn, MayTell, Demands, Reqs;
    g := Turn(dir, run, id, e.ticket, told, act, e);
    AskStep(dir, Now(run).sys, e, u);
  }

  // ---- Agents whose function runs ----

  predicate Running(w: World, id: nat, t: Ticket) {
    && id in w.agents && w.agents[id].state.FunctionStarted? && w.agents[id].ticket == Some(t)
    && !w.agents[id].readonly && !w.agents[id].wounded && w.agents[id].direct
  }

  const RUNNER := A.New(EMPTY, true, false, Write)

  ghost predicate OthersSame(w: World, r: World, id: nat) {
    forall i :: i != id ==> (i in r.agents <==> i in w.agents) && (i in w.agents ==> r.agents[i] == w.agents[i])
  }

  /** The runner asks for a lock. */
  lemma Wants(dir: Key -> ShardId, run: WorldRun, id: nat, t: Ticket, k: Key, ty: LockType, u: Ticket)
    returns (g: WorldRun)
    requires Runs(dir, run) && Running(Now(run), id, t) && t in Now(run).sys.tickets && t != u
    ensures Runs(dir, g) && Running(Now(g), id, t) && OthersSame(Now(run), Now(g), id)
    ensures AskedTo(dir, Now(run).sys, AskLock(t, k, ty), Now(g).sys, u)
    ensures k !in Now(run).agents[id].requested ==>
            Now(g).agents[id].requested == Now(run).agents[id].requested[k := ty]
    ensures forall s :: Reqs(dir, g, t, s) == Reqs(dir, run, t, s) + SentIn(dir, Now(run).sys, AskLock(t, k, ty), t, s)
  {
    hide Unfolds, AskedTo, SentIn, Reqs;
    g := AgentAsks(dir, run, id, A.LockWanted(k, ty), A.AskLock(k, ty), AskLock(t, k, ty), u);
  }

  /** The runner ends. */
  lemma Ends(dir: Key -> ShardId, run: WorldRun, id: nat, t: Ticket, writes: map<Key, Value>, u: Ticket)
    returns (g: WorldRun)
    requires Runs(dir, run) && Running(Now(run), id, t) && t in Now(run).sys.tickets && t != u
    ensures Runs(dir, g) && OthersSame(Now(run), Now(g), id) && id in Now(g).agents
    ensures Now(g).agents[id].state.CommitSent? && Now(g).agents[id].ticket == Some(t)
            && Now(g).agents[id].result == Some(A.Updates(writes)) && !Now(g).agents[id].readonly
    ensures AskedTo(dir, Now(run).sys, AskCommit(t, writes), Now(g).sys, u)
    ensures forall s :: Reqs(dir, g, t, s) == Reqs(dir, run, t, s) + SentIn(dir, Now(run).sys, AskCommit(t, writes),
            t, s)
  {
    hide Unfolds, AskedTo, SentIn, Reqs;
    g := AgentAsks(dir, run, id, A.RunDone(writes), A.AskCommit(writes), AskCommit(t, writes), u);
  }

  /** A new agent waits for a ticket number. */
  lemma Arrives(dir: Key -> ShardId, run: WorldRun, id: nat) returns (g: WorldRun)
    requires Runs(dir, run) && id !in Now(run).agents
    ensures Runs(dir, g) && Now(g).sys == Now(run).sys
    ensures Now(g).agents == Now(run).agents[id := RUNNER.(state := A.BeginSent)]
    ensures forall t, s :: Reqs(dir, g, t, s) == Reqs(dir, run, t, s)
  {
    hide Unfolds, Replies, Early, Sound;
    var w := Now(run);
    var p := EmptyPath(dir, w.sys);
    var r := World(w.sys, w.agents[id := RUNNER], w.rolledBack, w.committed);
    g := Extended(dir, run, Enters(id, RUNNER), p, r);
    var p' := EmptyPath(dir, r.sys);
    var r' := World(r.sys, r.agents[id := RUNNER.(state := A.BeginSent)],
      Used(r.rolledBack, RUNNER, A.Exec) + Replies(p'),
                    r.committed);
    g := Extended(dir, g, Turns(id, A.Exec, A.LUCKY, []), p', r');
    assert r'.agents == w.agents[id := RUNNER.(state := A.BeginSent)];
  }

  lemma Starts()
    ensures var a := RUNNER.(state := A.BeginSent);
            forall t :: A.React(a, A.GotTicket(t), A.LUCKY)
              == Some(A.Reaction(a.(state := A.FunctionStarted, ticket := Some(t), attempt := 1), [A.StartRunner]))
  {
  }

  /** A new agent gets a ticket and runs its function. */
  lemma Joins(dir: Key -> ShardId, run: WorldRun, id: nat, t: Ticket, u: Ticket) returns (g: WorldRun)
    requires Runs(dir, run) && id !in Now(run).agents && t !in Now(run).sys.clients && t != u
    ensures Runs(dir, g) && Running(Now(g), id, t) && OthersSame(Now(run), Now(g), id)
    ensures Now(g).agents[id].requested == map[] && Aside(Now(run).sys, Now(g).sys, u)
    ensures Now(g).sys.shards == Now(run).sys.shards && RecordOf(Now(g).sys, t) == Some(NEW_STATE)
    ensures forall s :: LinkOf(Now(g).sys, t, s) == LinkOf(Now(run).sys, t, s)
    ensures forall t', s :: Reqs(dir, g, t', s) == Reqs(dir, run, t', s)
  {
    hide Unfolds, Reqs;
    var m := Arrives(dir, run, id);
    g := AgentBegun(dir, m, id, t, u);
  }

  /** The agent gets its ticket. */
  lemma AgentBegun(dir: Key -> ShardId, run: WorldRun, id: nat, t: Ticket, u: Ticket) returns (g: WorldRun)
    requires Runs(dir, run) && id in Now(run).agents && Now(run).agents[id] == RUNNER.(state := A.BeginSent)
    requires t !in Now(run).sys.clients && t != u
    ensures Runs(dir, g) && Running(Now(g), id, t) && OthersSame(Now(run), Now(g), id)
    ensures Now(g).agents[id].requested == map[] && Aside(Now(run).sys, Now(g).sys, u)
    ensures Now(g).sys.shards == Now(run).sys.shards && RecordOf(Now(g).sys, t) == Some(NEW_STATE)
    ensures forall s :: LinkOf(Now(g).sys, t, s) == LinkOf(Now(run).sys, t, s)
    ensures forall t', s :: Reqs(dir, g, t', s) == Reqs(dir, run, t', s)
  {
    hide Unfolds, Replies, Early, WorldInv, A.React, After, Follows, Sound, AlongAll, Reqs;
    var sys := Now(run).sys;
    Starts();
    AsksOne(A.StartRunner, t, []);
    NowIsSound(dir, run);
    var p, r := BeginGoes(dir, map[], Now(run), id, t, A.LUCKY, []);
    assert [Begin(t)] + [] == [Begin(t)];
    OneStep(dir, sys, p, r.sys, Begin(t));
    BeginStep(dir, sys, t, u);
    g := Extended(dir, run, Begins(id, t, A.LUCKY, []), p, r);
    forall t', s ensures Reqs(dir, g, t', s) == Reqs(dir, run, t', s) {
      OneSent(dir, p, sys, Begin(t), t', s);
      assert Reqs(dir, g, t', s) == Reqs(dir, run, t', s) + AlongAll(dir, p, t', s);
    }
  }
}
