/** Deadlock between agents. An agent never locks late; that it does not commit early is up to the
    runner of its function, which must have an answer to every lock it asked for. */
module AgentWaiting {
  import opened Basics
  import opened BrokerSpec
  import opened Systems
  import opened SystemRuns
  import opened Progress
  import opened Patience
  import opened Worlds
  import opened WorldRuns
  import A = AgentSpec

  // ---- What an agent asks, seen as events ----

  /** What the acts of an agent say of a request. */
  predicate AskedBy(acts: seq<A.Act>, t: Ticket, e: Event) {
    e.ticket == t && (e.AskLock? ==> A.AsksLocks(acts)) && (e.AskCommit? ==> A.AskCommit(e.update) in acts)
  }

  lemma {:induction false} AsksEvents(acts: seq<A.Act>, t: Ticket, evs: seq<Event>)
    requires Asks(acts, t, evs)
    ensures forall e :: e in evs ==> AskedBy(acts, t, e)
    decreases acts
  {
    if acts != [] {
      var n :| 0 <= n <= |evs| && Demands(acts[0], t, evs[..n]) && Asks(acts[1..], t, evs[n..]);
      hide Asks, Demands, AskedBy;
      AsksEvents(acts[1..], t, evs[n..]);
      forall e | e in evs ensures AskedBy(acts, t, e) {
        if e in evs[n..] {
          MoreAsks(acts, t, e);
        } else {
          InFront(evs, n, e);
          FirstAsks(acts, t, evs[..n], e);
        }
      }
    }
  }

  lemma InFront(evs: seq<Event>, n: nat, e: Event)
    requires n <= |evs| && e in evs && e !in evs[n..]
    ensures e in evs[..n]
  {
    assert evs == evs[..n] + evs[n..];
  }

  lemma FirstAsks(acts: seq<A.Act>, t: Ticket, evs: seq<Event>, e: Event)
    requires acts != [] && Demands(acts[0], t, evs) && e in evs
    ensures AskedBy(acts, t, e)
  {
  }

  lemma MoreAsks(acts: seq<A.Act>, t: Ticket, e: Event)
    requires acts != [] && AskedBy(acts[1..], t, e)
    ensures AskedBy(acts, t, e)
  {
    if A.AsksLocks(acts[1..]) {
      var i :| 0 <= i < |acts[1..]| && (acts[1..][i].AskLock? || acts[1..][i].AskLocks?);
      assert acts[i + 1].AskLock? || acts[i + 1].AskLocks?;
    }
  }

  /** A commit is asked for alone. */
  lemma CommitAlone(a: A.Agent, e: A.Event, r: A.Reaction, t: Ticket, evs: seq<Event>, i: nat)
    requires A.Steers(a, e, r) && Asks(r.acts, t, evs) && i < |evs| && evs[i].AskCommit?
    ensures |evs| == 1 && r.agent.state.CommitSent?
  {
    AsksEvents(r.acts, t, evs);
    assert evs[i] in evs;
    var u := evs[i].update;
    assert A.AskCommit(u) in r.acts;
    OneAct(r.acts, t, evs);
  }

  // ---- The history of a run ----

  /** Everything that happens to brokers and shards in the first `n` happenings. */
  ghost function Flat(dir: Key -> ShardId, init: map<Key, Value>, run: WorldRun, n: nat): (h: History)
    requires Unfolds(dir, init, run) && n < |run.worlds|
    ensures h.states != []
  {
    if n == 0 then History([run.worlds[0].sys], [])
    else
      MoveIsPath(dir, run.worlds[n - 1], run.happenings[n - 1], run.paths[n - 1], run.worlds[n]);
      Join(Flat(dir, init, run, n - 1), run.paths[n - 1])
  }

  lemma {:induction false} FlatIsLawful(dir: Key -> ShardId, init: map<Key, Value>, run: WorldRun, n: nat)
    requires Unfolds(dir, init, run) && n < |run.worlds|
    ensures Lawful(dir, init, Flat(dir, init, run, n)) && Last(Flat(dir, init, run, n)) == run.worlds[n].sys
  {
    hide Moves, Initial, Follows;
    if n > 0 {
      FlatIsLawful(dir, init, run, n - 1);
      MoveIsPath(dir, run.worlds[n - 1], run.happenings[n - 1], run.paths[n - 1], run.worlds[n]);
      JoinSteps(dir, Flat(dir, init, run, n - 1), run.paths[n - 1]);
    }
  }

  /** The runner of an agent ends only once every lock it asked for was answered. */
  ghost predicate Attentive(dir: Key -> ShardId, init: map<Key, Value>, run: WorldRun)
    requires Unfolds(dir, init, run)
  {
    forall n :: 0 <= n < |run.happenings| ==> AttentiveAt(dir, init, run, n)
  }

  ghost predicate AttentiveAt(dir: Key -> ShardId, init: map<Key, Value>, run: WorldRun, n: nat)
    requires Unfolds(dir, init, run) && n < |run.happenings|
  {
    var x, w := run.happenings[n], run.worlds[n];
    x.Turns? && x.told.RunDone? && x.id in w.agents && w.agents[x.id].ticket.Some? ==>
      UpToDate(dir, Flat(dir, init, run, n), w.agents[x.id].ticket.value)
  }

  /** No request of the ticket is open. */
  ghost predicate UpToDate(dir: Key -> ShardId, h: History, t: Ticket) {
    WellShaped(h) && NoneOpen(dir, h, |h.events|, t)
  }

  // ---- Counting along a path ----

  lemma StaysUpToDate(dir: Key -> ShardId, h: History, p: History, t: Ticket)
    requires UpToDate(dir, h, t) && WellShaped(p) && forall i :: 0 <= i < |p.events| ==>
             !(p.events[i].AskLock? && p.events[i].ticket == t)
    ensures UpToDate(dir, Join(h, p), t)
  {
    hide Open;
    var g, n := Join(h, p), |h.events|;
    forall i | n <= i < |g.events| ensures g.events[i] == p.events[i - n] {}
    forall k ensures Open(dir, g, |g.events|, t, k) == 0 {
      OpenFalls(dir, g, n, |g.events|, t, k);
      OpenOfPrefix(dir, h, g, n, t, k);
    }
  }

  // ---- What each happening asks ----

  /** Which agent an event of a happening is asked by, and in what state that leaves it. */
  ghost predicate AskedIn(w: World, x: Happening, p: History, r: World, i: nat)
    requires i < |p.events|
  {
    var e := p.events[i];
    && (e.AskLock? ==>
          (x.Turns? || x.Begins?) && x.id in r.agents && r.agents[x.id].ticket == Some(e.ticket)
          && !r.agents[x.id].state.CommitSent?)
    && (e.AskCommit? ==>
          && |p.events| == 1 && x.Turns? && x.id in w.agents && w.agents[x.id].ticket == Some(e.ticket)
          && x.id in r.agents && r.agents[x.id].state.CommitSent?)
  }

  lemma TurnAsked(w: World, x: Happening, p: History, r: World, i: nat)
    requires x.Turns? && x.id in w.agents && A.AgentInv(w.agents[x.id]) && i < |p.events| && p.events == x.evs
    requires !x.told.GotTicket?
    requires var reaction := A.React(w.agents[x.id], x.told, x.luck);
             && reaction.Some? && Requests(w.sys, w.agents[x.id].ticket, reaction.value.acts, x.evs)
             && r.agents == w.agents[x.id := reaction.value.agent]
    ensures AskedIn(w, x, p, r, i)
  {
    hide A.React, A.AgentInv, Asks, A.Remembers;
    var a, r' := w.agents[x.id], A.React(w.agents[x.id], x.told, x.luck).value;
    AgentReacts(a, x.told, x.luck);
    var t := a.ticket.value;
    AsksEvents(r'.acts, t, x.evs);
    assert x.evs[i] in x.evs;
    if x.evs[i].AskCommit? { CommitAlone(a, x.told, r', t, x.evs, i); }
  }

  lemma BeginAsked(w: World, x: Happening, p: History, r: World, i: nat)
    requires x.Begins? && x.id in w.agents && A.AgentInv(w.agents[x.id]) && w.agents[x.id].state.BeginSent?
    requires i < |p.events| && p.events == [Begin(x.ticket)] + x.evs
    requires var reaction := A.React(w.agents[x.id], A.GotTicket(x.ticket), x.luck);
             && reaction.Some? && Asks(reaction.value.acts, x.ticket, x.evs)
             && r.agents == w.agents[x.id := reaction.value.agent]
    ensures AskedIn(w, x, p, r, i) && !r.agents[x.id].state.CommitSent?
  {
    hide A.React, A.AgentInv, Asks, A.Remembers;
    var a, told := w.agents[x.id], A.GotTicket(x.ticket);
    var r' := A.React(a, told, x.luck).value;
    AgentReacts(a, told, x.luck);
    A.AgentBegins(a, x.ticket, x.luck);
    AsksEvents(r'.acts, x.ticket, x.evs);
    if i > 0 {
      assert p.events[i] == x.evs[i - 1] && x.evs[i - 1] in x.evs;
    }
  }

  lemma MoveAsked(dir: Key -> ShardId, init: map<Key, Value>, w: World, x: Happening, p: History, r: World, i: nat)
    requires WorldInv(dir, init, w) && Moves(dir, w, x, p, r) && i < |p.events|
    ensures AskedIn(w, x, p, r, i)
  {
    assert x.Turns? || x.Begins? ==> A.AgentInv(w.agents[x.id]) by {
      if x.Turns? || x.Begins? { assert AgentFits(w, w.agents[x.id]); }
    }
    hide WorldInv, A.React, A.AgentInv, Asks, Requests, Replies, CommitReplies, Steps, Last;
    match x
    case Inside(e) =>
    case Enters(_, _) =>
    case Begins(_, _, _, _) => BeginAsked(w, x, p, r, i);
    case Turns(_, _, _, _) => TurnAsked(w, x, p, r, i);
  }

  // ---- Runs of attentive runners ----

  /** An agent that has asked to commit has no request open. */
  ghost predicate Prompt(dir: Key -> ShardId, h: History, w: World) {
    forall id :: id in w.agents && w.agents[id].state.CommitSent? && w.agents[id].ticket.Some? ==>
      UpToDate(dir, h, w.agents[id].ticket.value)
  }

  /** What becomes of an agent that a happening is not about. */
  lemma OthersStay(dir: Key -> ShardId, w: World, x: Happening, p: History, r: World, id: nat)
    requires Moves(dir, w, x, p, r) && id in r.agents && (x.Turns? || x.Begins? || x.Enters? ==> id != x.id)
    ensures id in w.agents && r.agents[id] == w.agents[id]
  {
    hide A.React, Asks, Requests, Replies, CommitReplies, Path;
  }

  /** An agent commits first when its function has run. */
  lemma OwnCommits(dir: Key -> ShardId, init: map<Key, Value>, w: World, x: Happening, p: History, r: World)
    requires WorldInv(dir, init, w) && Moves(dir, w, x, p, r) && !x.Inside? && x.id in r.agents
    requires r.agents[x.id].state.CommitSent?
    ensures x.Turns? && x.id in w.agents && r.agents[x.id].ticket == w.agents[x.id].ticket
    ensures w.agents[x.id].state.CommitSent? || x.told.RunDone?
  {
    assert !x.Enters? ==> A.AgentInv(w.agents[x.id]) by {
      if !x.Enters? { assert AgentFits(w, w.agents[x.id]); }
    }
    hide WorldInv, A.React, A.AgentInv, A.Remembers, Asks, Requests, Replies, CommitReplies, Path;
    if x.Begins? {
      AgentReacts(w.agents[x.id], A.GotTicket(x.ticket), x.luck);
    } else if x.Turns? {
      AgentReacts(w.agents[x.id], x.told, x.luck);
      A.AgentCommits(w.agents[x.id], x.told, x.luck);
    }
  }

  lemma ReadyStep(dir: Key -> ShardId, init: map<Key, Value>, run: WorldRun, n: nat)
    requires Unfolds(dir, init, run) && n < |run.happenings| && AttentiveAt(dir, init, run, n)
    requires Prompt(dir, Flat(dir, init, run, n), run.worlds[n])
    ensures Prompt(dir, Flat(dir, init, run, n + 1), run.worlds[n + 1])
  {
    hide Moves, Initial, WorldInv, UpToDate, Flat;
    var h, w, x, p, r := Flat(dir, init, run, n), run.worlds[n], run.happenings[n], run.paths[n], run.worlds[n + 1];
    ReachableWorld(dir, init, run, n);
    ReachableWorld(dir, init, run, n + 1);
    FlatNext(dir, init, run, n);
    forall id | id in r.agents && r.agents[id].state.CommitSent? && r.agents[id].ticket.Some?
      ensures UpToDate(dir, Join(h, p), r.agents[id].ticket.value)
    {
      var t := r.agents[id].ticket.value;
      if !x.Inside? && id == x.id {
        OwnCommits(dir, init, w, x, p, r);
      } else {
        OthersStay(dir, w, x, p, r, id);
      }
      assert UpToDate(dir, h, t);
      forall i | 0 <= i < |p.events| ensures !(p.events[i].AskLock? && p.events[i].ticket == t) {
        MoveAsked(dir, init, w, x, p, r, i);
        TicketsApart(dir, init, r, id, t);
      }
      StaysUpToDate(dir, h, p, t);
    }
  }

  lemma TicketsApart(dir: Key -> ShardId, init: map<Key, Value>, w: World, id: nat, t: Ticket)
    requires WorldInv(dir, init, w) && id in w.agents && w.agents[id].ticket == Some(t)
    ensures forall i :: i in w.agents && w.agents[i].ticket == Some(t) ==> i == id
  {
  }

  lemma FlatNext(dir: Key -> ShardId, init: map<Key, Value>, run: WorldRun, n: nat)
    requires Unfolds(dir, init, run) && n < |run.happenings|
    ensures WellShaped(Flat(dir, init, run, n)) && WellShaped(run.paths[n])
    ensures Flat(dir, init, run, n + 1) == Join(Flat(dir, init, run, n), run.paths[n])
    ensures Extends(Flat(dir, init, run, n), Flat(dir, init, run, n + 1))
    ensures Last(Flat(dir, init, run, n)) == run.worlds[n].sys == run.paths[n].states[0]
  {
    hide Moves, Initial, Follows;
    FlatIsLawful(dir, init, run, n);
    MoveIsPath(dir, run.worlds[n], run.happenings[n], run.paths[n], run.worlds[n + 1]);
  }

  lemma KeepsStep(dir: Key -> ShardId, init: map<Key, Value>, run: WorldRun, n: nat, leave: Leave)
    requires Unfolds(dir, init, run) && n < |run.happenings| && Keeps(dir, Flat(dir, init, run, n), leave)
    requires leave.commitEarly
             || (AttentiveAt(dir, init, run, n) && Prompt(dir, Flat(dir, init, run, n), run.worlds[n]))
    ensures Keeps(dir, Flat(dir, init, run, n + 1), leave)
  {
    hide Moves, Initial, WorldInv, Flat, InTime, Open;
    var h, w, x, p, r := Flat(dir, init, run, n), run.worlds[n], run.happenings[n], run.paths[n], run.worlds[n + 1];
    var g, m := Flat(dir, init, run, n + 1), |Flat(dir, init, run, n).events|;
    ReachableWorld(dir, init, run, n);
    FlatNext(dir, init, run, n);
    MoveKeeps(dir, init, w, x, p, r);
    forall i | 0 <= i < |g.events| ensures KeepsAt(dir, g, i, leave) {
      if i < m {
        KeepsPrefix(dir, h, g, i, leave);
      } else {
        assert g.events[i] == p.events[i - m] && g.states[i] == p.states[i - m];
        MoveAsked(dir, init, w, x, p, r, i - m);
        if g.events[i].AskCommit? && !leave.commitEarly {
          OwnCommits(dir, init, w, x, p, r);
          var t := g.events[i].ticket;
          assert UpToDate(dir, h, t);
          forall k ensures Open(dir, g, i, t, k) == 0 { OpenOfPrefix(dir, h, g, i, t, k); }
        }
      }
    }
  }

  /** Agents never lock late. */
  lemma {:induction false} AgentsLockInTime(dir: Key -> ShardId, init: map<Key, Value>, run: WorldRun, n: nat)
    requires Unfolds(dir, init, run) && n < |run.worlds|
    ensures Keeps(dir, Flat(dir, init, run, n), Leave(false, true))
  {
    hide Unfolds, Keeps;
    if n > 0 {
      assert n - 1 < |run.happenings| by { LengthOf(dir, init, run); }
      AgentsLockInTime(dir, init, run, n - 1);
      KeepsStep(dir, init, run, n - 1, Leave(false, true));
    } else {
      FlatStart(dir, init, run, Leave(false, true));
    }
  }

  lemma LengthOf(dir: Key -> ShardId, init: map<Key, Value>, run: WorldRun)
    requires Unfolds(dir, init, run)
    ensures |run.worlds| == |run.happenings| + 1
  {
  }

  lemma FlatStart(dir: Key -> ShardId, init: map<Key, Value>, run: WorldRun, leave: Leave)
    requires Unfolds(dir, init, run)
    ensures Keeps(dir, Flat(dir, init, run, 0), leave) && Prompt(dir, Flat(dir, init, run, 0), run.worlds[0])
  {
  }

  /** Agents with attentive runners keep both demands. */
  lemma {:induction false} AttentiveIsPatient(dir: Key -> ShardId, init: map<Key, Value>, run: WorldRun, n: nat)
    requires Unfolds(dir, init, run) && Attentive(dir, init, run) && n < |run.worlds|
    ensures Keeps(dir, Flat(dir, init, run, n), STRICT) && Prompt(dir, Flat(dir, init, run, n), run.worlds[n])
  {
    hide Unfolds, Keeps, Prompt, AttentiveAt;
    if n > 0 {
      LengthOf(dir, init, run);
      AttentiveIsPatient(dir, init, run, n - 1);
      assert AttentiveAt(dir, init, run, n - 1);
      ReadyStep(dir, init, run, n - 1);
      KeepsStep(dir, init, run, n - 1, STRICT);
    } else {
      FlatStart(dir, init, run, STRICT);
    }
  }

  /** Agents whose runners wait for every answer never wait for each other in a circle. */
  lemma AttentiveNeverDeadlock(dir: Key -> ShardId, init: map<Key, Value>, run: WorldRun, n: nat, p: seq<Ticket>)
    requires Unfolds(dir, init, run) && Attentive(dir, init, run) && n < |run.worlds|
    ensures !Circle(run.worlds[n].sys, p)
  {
    hide Unfolds, Attentive, Keeps, Prompt, Circle, Follows, Initial;
    AttentiveIsPatient(dir, init, run, n);
    FlatIsLawful(dir, init, run, n);
    var h := Flat(dir, init, run, n);
    PatientNeverDeadlock(dir, init, h, |h.states| - 1, p);
  }
}
