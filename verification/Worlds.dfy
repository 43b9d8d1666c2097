/** Agents as the clients of a system: how a ticket and the agent that steers it fit together, and
    that every request an agent makes in a turn meets what `Systems` demands of clients. */
module Worlds {
  import opened Basics
  import opened LockTable
  import opened BrokerSpec
  import opened Links
  import opened BrokerLinks
  import opened Systems
  import opened SystemRuns
  import opened Progress
  import opened Patience
  import A = AgentSpec

  // ---- Replies that an agent relies on ----

  function RollbackReplies(sys: System, e: Event): set<Ticket> {
    var t := e.ticket;
    if t !in sys.tickets then {}
    else
      match e
      case AskRollback(_) => if BrokerSpec.Rollback(sys.tickets[t]).reply.Success? then {t} else {}
      case AtBroker(_, s) =>
        var resps := LinkOf(sys, t, s).resps;
        if resps != [] && resps[0].RollbackDone? && Handle(sys.tickets[t], s, resps[0]).reply.Success? then {t} else {}
      case _ => {}
  }

  function CommitReplies(sys: System, e: Event): set<Ticket> {
    var t := e.ticket;
    if e.AtBroker? && t in sys.tickets then
      var resps := LinkOf(sys, t, e.shard).resps;
      if resps != [] && resps[0].CommitDone? && Handle(sys.tickets[t], e.shard, resps[0]).reply.Success? then {t}
      else {}
    else {}
  }

  /** The rollbacks reported along a path. */
  function Replies(h: History): set<Ticket> {
    set n, t | 0 <= n < |h.events| && n < |h.states| && t in RollbackReplies(h.states[n], h.events[n]) :: t
  }

  // ---- What an agent asks of its broker ----

  ghost predicate Demands(act: A.Act, t: Ticket, evs: seq<Event>) {
    match act
    case AskLock(k, ty) => evs == [AskLock(t, k, ty)]
    case AskLocks(locks) =>
      && |evs| == |locks|
      && (forall i :: 0 <= i < |evs| ==>
            evs[i].AskLock? && evs[i].ticket == t && evs[i].key in locks
            && evs[i].lockType == locks[evs[i].key])
      && forall k :: k in locks ==> AskLock(t, k, locks[k]) in evs
    case AskCommit(u) => evs == [AskCommit(t, u)]
    case AskRollback => evs == [AskRollback(t)]
    case AskFinish => evs == [AskFinish(t)]
    case _ => evs == []
  }

  /** `evs` are the requests of `acts`, in order. */
  ghost predicate Asks(acts: seq<A.Act>, t: Ticket, evs: seq<Event>)
    decreases acts
  {
    if acts == [] then evs == []
    else exists n :: 0 <= n <= |evs| && Demands(acts[0], t, evs[..n]) && Asks(acts[1..], t, evs[n..])
  }

  /** The requests of an agent that reach a record; a ticket the broker has forgotten is refused. */
  ghost predicate Requests(sys: System, ticket: Option<Ticket>, acts: seq<A.Act>, evs: seq<Event>) {
    if ticket.Some? && ticket.value in sys.tickets then Asks(acts, ticket.value, evs) else evs == []
  }

  // ---- The relation between an agent and its ticket ----

  predicate Going(b: Option<TicketState>) { b.Some? && b.value.phase.InProgress? }

  /** No shard was asked to finish. */
  predicate Unfinished(b: TicketState) {
    forall s :: s in b.shards ==> !b.shards[s].phase.Finishing? && !b.shards[s].phase.Finished?
  }

  ghost predicate Fits(b: Option<TicketState>, c: Client, a: A.Agent, rolledBack: bool, committed: bool) {
    && (b.None? ==> A.Finishing(a.state))
    && (Going(b) && !A.Returning(a.state) ==> Calm(b.value))
    && (Going(b) && c.update.Some? ==> A.Returning(a.state) || (a.state.CommitSent? && c.update.value == A.Payload(a)))
    && (A.Finishing(a.state) ==> !Going(b))
    && (b.Some? && b.value.phase.AllCommitted? && !A.Finishing(a.state) ==> Unfinished(b.value))
    && (rolledBack ==> A.Returning(a.state) && b.Some? && b.value.phase.Aborted?)
    && (committed ==> b.None? || b.value.phase.AllCommitted?)
    && (Decided(b) && !A.Returning(a.state) && !A.Finishing(a.state) ==>
          a.state.CommitSent? && c.update == Some(A.Payload(a)))
    && (A.Succeeded(a) ==> c.update == Some(A.Payload(a)) && (b.None? || b.value.phase.AllCommitted?))
  }

  // ---- A response ----

  /** What handling a response makes of a ticket. */
  lemma ResponseFits(b: TicketState, c: Client, c': Client, a: A.Agent, s: ShardId, r: Response, rolledBack: bool,
                     committed: bool)
    requires Fits(Some(b), c, a, rolledBack, committed) && c'.update == c.update
             && (Decided(Handle(b, s, r).state) ==> c.update.Some?)
    ensures var step := Handle(b, s, r);
            Fits(step.state, c', a, rolledBack || (r.RollbackDone? && step.reply.Success?),
              committed || (r.CommitDone? && step.reply.Success?))
  {
    hide A.Finishing, A.Returning, A.Payload;
  }

  // ---- Requests ----

  /** A ticket for which locks may be asked. */
  predicate LocksFit(b: TicketState, c: Client) {
    !Decided(Some(b)) && (b.phase.InProgress? ==> Calm(b) && c.update.None?)
  }

  lemma LockFits(b: TicketState, c: Client, s: ShardId, k: Key, ty: LockType)
    requires LocksFit(b, c)
    ensures var step := BrokerSpec.TryLock(b, s, k, ty);
            step.state.Some? && LocksFit(step.state.value, BrokerLinks.Told(ClientOfLock(b, c), k, step.reply))
  {
  }

  lemma RollbackFits(b: TicketState, c: Client, a: A.Agent, rolledBack: bool, committed: bool)
    requires (b.phase.AllCommitted? ==> Unfinished(b)) && (rolledBack ==> b.phase.Aborted?)
             && (committed ==> b.phase.AllCommitted?)
    requires a.state.RollbackSent? && !A.Succeeded(a)
    ensures var step := BrokerSpec.Rollback(b); Fits(step.state, c, a, rolledBack || step.reply.Success?, committed)
  {
  }

  lemma CommitFits(b: TicketState, c: Client, a: A.Agent, committed: bool)
    requires b.phase.InProgress? ==> Calm(b) && (c.update.None? || c.update.value == A.Payload(a))
    requires (b.phase.AllCommitted? ==> Unfinished(b)) && (committed ==> b.phase.AllCommitted?)
    requires a.state.CommitSent? && !A.Succeeded(a) && (Decided(Some(b)) ==> c.update == Some(A.Payload(a)))
    ensures var u := A.Payload(a);
            MayCommit(b, c, u) && Fits(BrokerSpec.Commit(b, u).state, ClientOfCommit(b, c, u), a, false, committed)
  {
    hide A.Payload, KeysOf, BrokerSpec.Waiting;
  }

  lemma FinishFits(b: TicketState, c: Client, a: A.Agent, committed: bool)
    requires !b.phase.InProgress? && (committed ==> b.phase.AllCommitted?) && a.state.FinishSent?
    requires A.Succeeded(a) ==> c.update == Some(A.Payload(a)) && b.phase.AllCommitted?
    ensures Fits(BrokerSpec.Finish(b).state, c, a, false, committed)
  {
  }

  /** Other tickets than `t` are as before. */
  ghost predicate SameOthers(sys: System, r: System, t: Ticket) {
    && r.lost == sys.lost
    && forall t' :: t' != t ==>
         RecordOf(r, t') == RecordOf(sys, t') && ClientAt(r, t') == ClientAt(sys, t')
         && (t' in r.clients <==> t' in sys.clients)
  }

  predicate IsAsk(e: Event) { e.AskLock? || e.AskCommit? || e.AskRollback? || e.AskFinish? }

  /** The broker's step on a request. */
  function StepOn(dir: Key -> ShardId, b: TicketState, e: Event): Step
    requires IsAsk(e)
  {
    match e
    case AskLock(_, k, ty) => BrokerSpec.TryLock(b, dir(k), k, ty)
    case AskCommit(_, u) => BrokerSpec.Commit(b, u)
    case AskRollback(_) => BrokerSpec.Rollback(b)
    case AskFinish(_) => BrokerSpec.Finish(b)
  }

  function ClientOn(dir: Key -> ShardId, b: TicketState, c: Client, e: Event): Client
    requires IsAsk(e)
  {
    match e
    case AskLock(_, k, ty) => BrokerLinks.Told(ClientOfLock(b, c), k, StepOn(dir, b, e).reply)
    case AskCommit(_, u) => ClientOfCommit(b, c, u)
    case _ => c
  }

  lemma RequestTaken(dir: Key -> ShardId, sys: System, e: Event)
    requires Possible(sys, e) && IsAsk(e)
    ensures var r, t := After(dir, sys, e), e.ticket;
            && RecordOf(r, t) == StepOn(dir, sys.tickets[t], e).state
            && ClientAt(r, t) == ClientOn(dir, sys.tickets[t], ClientAt(sys, t), e)
            && t in r.clients && SameOthers(sys, r, t)
  {
    hide BrokerSpec.TryLock, BrokerSpec.Commit, BrokerSpec.Rollback, BrokerSpec.Finish, Brokered, Calm, MayCommit;
    var t := e.ticket;
    BrokeredFrame(sys, t, StepOn(dir, sys.tickets[t], e), ClientOn(dir, sys.tickets[t], ClientAt(sys, t), e));
  }

  /** `h` leads from `sys` to `r` by exactly the events `evs`. */
  ghost predicate Path(dir: Key -> ShardId, sys: System, h: History, r: System, evs: seq<Event>) {
    Steps(dir, h) && h.states[0] == sys && Last(h) == r && h.events == evs
  }

  /** No lock is asked for after a commit of the same attempt was accepted. */
  ghost predicate Early(h: History) {
    forall i :: 0 <= i < |h.events| && i < |h.states| && h.events[i].AskLock? ==>
      InTime(h.states[i], h.events[i].ticket)
  }

  lemma EmptyPath(dir: Key -> ShardId, sys: System) returns (h: History)
    ensures Path(dir, sys, h, sys, []) && Replies(h) == {} && Early(h)
  {
    h := History([sys], []);
  }

  lemma OnePath(dir: Key -> ShardId, sys: System, e: Event) returns (h: History)
    requires Possible(sys, e)
    ensures Path(dir, sys, h, After(dir, sys, e), [e]) && Replies(h) == RollbackReplies(sys, e)
    ensures Early(h) <==> (e.AskLock? ==> InTime(sys, e.ticket))
  {
    hide Possible, After, RollbackReplies, InTime;
    h := History([sys, After(dir, sys, e)], [e]);
  }

  lemma JoinPaths(dir: Key -> ShardId, sys: System, g: History, m: System, evs: seq<Event>, h: History, r: System,
                  more: seq<Event>)
    returns (j: History)
    requires Path(dir, sys, g, m, evs) && Path(dir, m, h, r, more)
    ensures Path(dir, sys, j, r, evs + more) && Replies(j) == Replies(g) + Replies(h)
    ensures Early(g) && Early(h) ==> Early(j)
  {
    hide Follows, RollbackReplies, InTime;
    JoinSteps(dir, g, h);
    j := Join(g, h);
    var n := |evs|;
    forall i | 0 <= i < |j.events| ensures j.states[i] == if i < n then g.states[i] else h.states[i - n] {}
    hide Steps;
    forall t | t in Replies(j) ensures t in Replies(g) + Replies(h) {
      var i :| 0 <= i < |j.events| && i < |j.states| && t in RollbackReplies(j.states[i], j.events[i]);
      if i >= n { assert t in RollbackReplies(h.states[i - n], h.events[i - n]); }
    }
    forall t | t in Replies(g) + Replies(h) ensures t in Replies(j) {
      if t in Replies(g) {
        var i :| 0 <= i < |g.events| && i < |g.states| && t in RollbackReplies(g.states[i], g.events[i]);
        assert t in RollbackReplies(j.states[i], j.events[i]);
      } else {
        var i :| 0 <= i < |h.events| && i < |h.states| && t in RollbackReplies(h.states[i], h.events[i]);
        assert t in RollbackReplies(j.states[i + n], j.events[i + n]);
      }
    }
  }

  /** Locks can be asked for whenever they fit. */
  lemma {:induction false} LocksPath(dir: Key -> ShardId, init: map<Key, Value>, sys: System, t: Ticket,
                                     evs: seq<Event>)
    returns (h: History, r: System)
    requires Sound(dir, init, sys) && t in sys.tickets && LocksFit(sys.tickets[t], ClientAt(sys, t))
    requires forall i :: 0 <= i < |evs| ==> evs[i].AskLock? && evs[i].ticket == t
    ensures Path(dir, sys, h, r, evs) && Replies(h) == {} && Sound(dir, init, r) && SameOthers(sys, r, t) && Early(h)
    ensures t in r.tickets && LocksFit(r.tickets[t], ClientAt(r, t)) && (t in sys.clients ==> t in r.clients)
    decreases |evs|
  {
    hide Sound, After, Path, Replies, Early;
    if evs == [] {
      h := EmptyPath(dir, sys);
      r := sys;
    } else {
      var e := evs[0];
      LockFits(sys.tickets[t], ClientAt(sys, t), dir(e.key), e.key, e.lockType);
      hide LocksFit, BrokerSpec.TryLock;
      LockPossible(sys, e);
      RequestTaken(dir, sys, e);
      hide Possible;
      EventKeepsSound(dir, init, sys, e);
      var g := OnePath(dir, sys, e);
      var m := After(dir, sys, e);
      h, r := LocksPath(dir, init, m, t, evs[1..]);
      h := JoinPaths(dir, sys, g, m, [e], h, r, evs[1..]);
      assert [e] + evs[1..] == evs;
    }
  }

  lemma LockPossible(sys: System, e: Event)
    requires e.AskLock? && e.ticket in sys.tickets && LocksFit(sys.tickets[e.ticket], ClientAt(sys, e.ticket))
    ensures Possible(sys, e) && RollbackReplies(sys, e) == {} && InTime(sys, e.ticket)
  {
  }

  // ---- A turn of an agent ----

  /** What an agent relies on when it is told of a success. */
  predicate Backed(e: A.Event, rolledBack: bool, committed: bool) {
    (e.RollbackOk? ==> rolledBack) && (e.CommitOk? ==> committed)
  }

  /** A turn in which nothing is asked of the record. */
  lemma QuietFits(b: Option<TicketState>, c: Client, a: A.Agent, e: A.Event, r: A.Reaction, rolledBack: bool,
                  committed: bool)
    requires Fits(b, c, a, rolledBack, committed) && A.Steers(a, e, r) && A.Remembers(a, e, r)
             && Backed(e, rolledBack, committed)
    ensures r.agent.state.CommitSent? && !a.state.CommitSent? && Going(b) ==> c.update.None?
    ensures Fits(b, c, r.agent, rolledBack && !e.RollbackOk?, committed)
  {
    hide A.Payload, Calm, Unfinished;
  }

  lemma OneAct(acts: seq<A.Act>, t: Ticket, evs: seq<Event>)
    requires |acts| == 1 && Asks(acts, t, evs)
    ensures Demands(acts[0], t, evs)
  {
    var n :| 0 <= n <= |evs| && Demands(acts[0], t, evs[..n]) && Asks(acts[1..], t, evs[n..]);
    assert evs[n..] == [] && evs[..n] == evs;
  }

  lemma TwoActs(acts: seq<A.Act>, t: Ticket, evs: seq<Event>) returns (n: nat)
    requires |acts| == 2 && Asks(acts, t, evs)
    ensures n <= |evs| && Demands(acts[0], t, evs[..n]) && Demands(acts[1], t, evs[n..])
  {
    n :| 0 <= n <= |evs| && Demands(acts[0], t, evs[..n]) && Asks(acts[1..], t, evs[n..]);
    OneAct(acts[1..], t, evs[n..]);
  }

  /** One request, and what it makes of its ticket. */
  lemma AskPath(dir: Key -> ShardId, init: map<Key, Value>, sys: System, e: Event) returns (h: History, r: System)
    requires Sound(dir, init, sys) && Possible(sys, e) && IsAsk(e)
    ensures Path(dir, sys, h, r, [e]) && Replies(h) == RollbackReplies(sys, e) && Sound(dir, init, r)
    ensures !e.AskLock? ==> Early(h)
    ensures var t := e.ticket;
            && RecordOf(r, t) == StepOn(dir, sys.tickets[t], e).state
            && ClientAt(r, t) == ClientOn(dir, sys.tickets[t], ClientAt(sys, t), e)
            && t in r.clients && SameOthers(sys, r, t)
  {
    hide Sound, After, Path, Replies, Early;
    RequestTaken(dir, sys, e);
    hide Possible;
    EventKeepsSound(dir, init, sys, e);
    h := OnePath(dir, sys, e);
    r := After(dir, sys, e);
  }

  /** Where a turn of an agent leads. */
  ghost predicate Turned(dir: Key -> ShardId, init: map<Key, Value>, sys: System, h: History, r: System, t: Ticket,
                         evs: seq<Event>,
                        a: A.Agent, rolledBack: bool, committed: bool) {
    && Path(dir, sys, h, r, evs) && Sound(dir, init, r) && SameOthers(sys, r, t) && t in r.clients && Replies(h) <= {t}
    && Early(h) && Fits(RecordOf(r, t), ClientAt(r, t), a, rolledBack || t in Replies(h), committed)
  }

  lemma NothingTurned(dir: Key -> ShardId, init: map<Key, Value>, sys: System, t: Ticket, a: A.Agent,
                      rolledBack: bool, committed: bool)
    returns (h: History, r: System)
    requires Sound(dir, init, sys) && t in sys.clients && Fits(RecordOf(sys, t), ClientAt(sys, t), a, rolledBack,
             committed)
    ensures Turned(dir, init, sys, h, r, t, [], a, rolledBack, committed)
  {
    hide Fits, Sound, Path, Replies, Early;
    h := EmptyPath(dir, sys);
    r := sys;
  }

  lemma RollbackAskedFor(dir: Key -> ShardId, init: map<Key, Value>, sys: System, t: Ticket, a: A.Agent,
                         rolledBack: bool, committed: bool)
    returns (h: History, r: System)
    requires Sound(dir, init, sys) && t in sys.tickets && a.state.RollbackSent? && !A.Succeeded(a)
    requires var b := sys.tickets[t];
             (b.phase.AllCommitted? ==> Unfinished(b)) && (rolledBack ==> b.phase.Aborted?)
               && (committed ==> b.phase.AllCommitted?)
    ensures Turned(dir, init, sys, h, r, t, [AskRollback(t)], a, rolledBack, committed)
  {
    hide Fits, Sound, Path, Replies, Early;
    RollbackFits(sys.tickets[t], ClientAt(sys, t), a, rolledBack, committed);
    h, r := AskPath(dir, init, sys, AskRollback(t));
  }

  lemma LocksAskedFor(dir: Key -> ShardId, init: map<Key, Value>, sys: System, t: Ticket, a: A.Agent, evs: seq<Event>)
    returns (h: History, r: System)
    requires Sound(dir, init, sys) && t in sys.tickets && t in sys.clients && LocksFit(sys.tickets[t], ClientAt(sys, t))
    requires !A.Finishing(a.state) && !A.Succeeded(a) && forall i :: 0 <= i < |evs| ==>
             evs[i].AskLock? && evs[i].ticket == t
    ensures Turned(dir, init, sys, h, r, t, evs, a, false, false)
    ensures t in r.tickets && LocksFit(r.tickets[t], ClientAt(r, t)) && Replies(h) == {}
  {
    hide Sound, Path, Replies, Early;
    h, r := LocksPath(dir, init, sys, t, evs);
  }

  lemma CommitAskedFor(dir: Key -> ShardId, init: map<Key, Value>, sys: System, t: Ticket, a: A.Agent, committed: bool)
    returns (h: History, r: System)
    requires Sound(dir, init, sys) && t in sys.tickets && a.state.CommitSent? && !A.Succeeded(a)
    requires var b, c := sys.tickets[t], ClientAt(sys, t);
             && (b.phase.InProgress? ==> Calm(b) && (c.update.None? || c.update.value == A.Payload(a)))
             && (b.phase.AllCommitted? ==> Unfinished(b)) && (committed ==> b.phase.AllCommitted?)
             && (Decided(Some(b)) ==> c.update == Some(A.Payload(a)))
    ensures Turned(dir, init, sys, h, r, t, [AskCommit(t, A.Payload(a))], a, false, committed)
  {
    hide Fits, Sound, Path, Replies, Early;
    CommitFits(sys.tickets[t], ClientAt(sys, t), a, committed);
    h, r := AskPath(dir, init, sys, AskCommit(t, A.Payload(a)));
  }

  lemma FinishAskedFor(dir: Key -> ShardId, init: map<Key, Value>, sys: System, t: Ticket, a: A.Agent, committed: bool)
    returns (h: History, r: System)
    requires Sound(dir, init, sys) && t in sys.tickets && a.state.FinishSent?
    requires !sys.tickets[t].phase.InProgress? && (committed ==> sys.tickets[t].phase.AllCommitted?)
    requires A.Succeeded(a) ==> ClientAt(sys, t).update == Some(A.Payload(a)) && sys.tickets[t].phase.AllCommitted?
    ensures Turned(dir, init, sys, h, r, t, [AskFinish(t)], a, false, committed)
  {
    hide Fits, Sound, Path, Replies, Early;
    FinishFits(sys.tickets[t], ClientAt(sys, t), a, committed);
    h, r := AskPath(dir, init, sys, AskFinish(t));
  }

  /** What fits an agent lets it ask what it asks. */
  lemma MayAsk(b: TicketState, c: Client, a: A.Agent, e: A.Event, r: A.Reaction, rolledBack: bool, committed: bool,
               act: A.Act)
    requires Fits(Some(b), c, a, rolledBack, committed) && A.Steers(a, e, r) && A.Remembers(a, e, r)
             && Backed(e, rolledBack, committed)
    requires act in r.acts
    ensures act.AskLock? || act.AskLocks? ==>
            LocksFit(b, c) && !rolledBack && !committed
            && !A.Finishing(r.agent.state) && !A.Succeeded(r.agent)
    ensures act.AskRollback? ==> r.agent.state.RollbackSent? && !A.Succeeded(r.agent)
    ensures act.AskCommit? ==>
              && r.agent.state.CommitSent? && !A.Succeeded(r.agent) && act.updates == A.Payload(r.agent) && !rolledBack
              && (b.phase.InProgress? ==> Calm(b) && (c.update.None? || c.update.value == act.updates))
              && (Decided(Some(b)) ==> c.update == Some(act.updates))
    ensures act.AskFinish? ==>
              && r.agent.state.FinishSent? && !b.phase.InProgress?
              && (A.Succeeded(r.agent) ==> c.update == Some(A.Payload(r.agent)) && b.phase.AllCommitted?)
    ensures act.AskRollback? || act.AskCommit? ==> (b.phase.AllCommitted? ==> Unfinished(b))
    ensures (rolledBack ==> b.phase.Aborted?) && (committed ==> b.phase.AllCommitted?)
    ensures act.AskFinish? ==> !rolledBack || e.RollbackOk?
  {
    hide Calm, Unfinished, A.Payload;
  }

  lemma OneTurn(dir: Key -> ShardId, init: map<Key, Value>, sys: System, t: Ticket, a: A.Agent, e: A.Event,
                r: A.Reaction,
                rolledBack: bool, committed: bool, evs: seq<Event>) returns (h: History, m: System)
    requires Sound(dir, init, sys) && t in sys.tickets && t in sys.clients
    requires Fits(RecordOf(sys, t), ClientAt(sys, t), a, rolledBack, committed)
    requires A.Steers(a, e, r) && A.Remembers(a, e, r) && Backed(e, rolledBack, committed) && |r.acts| == 1
             && Demands(r.acts[0], t, evs)
    ensures Turned(dir, init, sys, h, m, t, evs, r.agent, rolledBack && !e.RollbackOk?, committed)
  {
    hide Sound, Turned, Fits, A.Steers, A.Remembers, Calm, Unfinished, A.Payload, A.Finishing, A.Succeeded, LocksFit;
    var b, c := sys.tickets[t], ClientAt(sys, t);
    QuietFits(Some(b), c, a, e, r, rolledBack, committed);
    MayAsk(b, c, a, e, r, rolledBack, committed, r.acts[0]);
    match r.acts[0]
    case AskLock(_, _) => h, m := LocksAskedFor(dir, init, sys, t, r.agent, evs);
    case AskLocks(_) => h, m := LocksAskedFor(dir, init, sys, t, r.agent, evs);
    case AskRollback => h, m := RollbackAskedFor(dir, init, sys, t, r.agent, rolledBack && !e.RollbackOk?, committed);
    case AskCommit(u) => h, m := CommitAskedFor(dir, init, sys, t, r.agent, committed);
    case AskFinish => h, m := FinishAskedFor(dir, init, sys, t, r.agent, committed);
    case _ => h, m := NothingTurned(dir, init, sys, t, r.agent, rolledBack && !e.RollbackOk?, committed);
  }

  lemma SameOthersJoin(sys: System, m: System, r: System, t: Ticket)
    requires SameOthers(sys, m, t) && SameOthers(m, r, t)
    ensures SameOthers(sys, r, t)
  {
  }

  lemma TwoTurn(dir: Key -> ShardId, init: map<Key, Value>, sys: System, t: Ticket, a: A.Agent, e: A.Event,
                r: A.Reaction,
                rolledBack: bool, committed: bool, evs: seq<Event>) returns (h: History, m: System)
    requires Sound(dir, init, sys) && t in sys.tickets && t in sys.clients
    requires Fits(RecordOf(sys, t), ClientAt(sys, t), a, rolledBack, committed)
    requires A.Steers(a, e, r) && A.Remembers(a, e, r) && Backed(e, rolledBack, committed) && |r.acts| == 2
             && Asks(r.acts, t, evs)
    ensures Turned(dir, init, sys, h, m, t, evs, r.agent, rolledBack && !e.RollbackOk?, committed)
  {
    hide Sound, Fits, A.Remembers, Calm, Unfinished, A.Payload, A.Finishing, A.Succeeded, Path, Replies, Early,
      SameOthers;
    assert r.acts[0].AskLocks? && (r.acts[1].AskRollback? || r.acts[1].Report?);
    hide A.Steers;
    var b, c := sys.tickets[t], ClientAt(sys, t);
    MayAsk(b, c, a, e, r, rolledBack, committed, r.acts[0]);
    MayAsk(b, c, a, e, r, rolledBack, committed, r.acts[1]);
    var n := TwoActs(r.acts, t, evs);
    var g, k := LocksAskedFor(dir, init, sys, t, r.agent, evs[..n]);
    if r.acts[1].AskRollback? {
      h, m := RollbackAskedFor(dir, init, k, t, r.agent, false, false);
    } else {
      h, m := NothingTurned(dir, init, k, t, r.agent, false, false);
    }
    assert evs[..n] + evs[n..] == evs;
    SameOthersJoin(sys, k, m, t);
    h := JoinPaths(dir, sys, g, k, evs[..n], h, m, evs[n..]);
  }

  /** Whatever an agent asks in a turn, it may ask, and its ticket fits it again. */
  lemma TurnPath(dir: Key -> ShardId, init: map<Key, Value>, sys: System, t: Ticket, a: A.Agent, e: A.Event,
                 r: A.Reaction,
                 rolledBack: bool, committed: bool, evs: seq<Event>) returns (h: History, m: System)
    requires Sound(dir, init, sys) && t in sys.clients && Fits(RecordOf(sys, t), ClientAt(sys, t), a, rolledBack,
             committed)
    requires A.Steers(a, e, r) && A.Remembers(a, e, r) && Backed(e, rolledBack, committed)
             && Requests(sys, Some(t), r.acts, evs)
    ensures Turned(dir, init, sys, h, m, t, evs, r.agent, rolledBack && !e.RollbackOk?, committed)
  {
    assert A.Shaped(r.acts);
    hide Sound, Turned, Fits, A.Remembers, A.Steers, Backed, Demands;
    if t !in sys.tickets || r.acts == [] {
      QuietFits(RecordOf(sys, t), ClientAt(sys, t), a, e, r, rolledBack, committed);
      h, m := NothingTurned(dir, init, sys, t, r.agent, rolledBack && !e.RollbackOk?, committed);
    } else if |r.acts| == 1 {
      OneAct(r.acts, t, evs);
      h, m := OneTurn(dir, init, sys, t, a, e, r, rolledBack, committed, evs);
    } else {
      h, m := TwoTurn(dir, init, sys, t, a, e, r, rolledBack, committed, evs);
    }
  }
}
