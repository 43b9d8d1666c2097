/** What agents make brokers ask of a shard server. Agents repeat commits and rollbacks, so the
    demands under which a failover loses nothing are not met: for each there is a run of an agent
    whose requests to a shard are, one for one, those of a server run that loses something. */
module AgentFailover {
  import opened Basics
  import opened LockTable
  import opened ShardSpec
  import opened ShardSteps
  import opened BrokerSpec
  import opened Links
  import opened Systems
  import opened SystemRuns
  import opened WorldRuns
  import opened RunSteps
  import opened WaitCycles
  import opened AgentCycles
  import A = AgentSpec
  import F = Failover
  import R = Replication
  import opened AgentSteps

  // ---- What a server is asked ----

  /** The request about `t` that an event of a server brings. */
  function Brings(e: F.Event, t: Ticket): seq<Request> {
    match e
    case Lock(op) => if op.TryLockOp? && op.ticket == t then [TryLockReq(op.key, op.lockType, op.first)] else []
    case AskPrepare(t', _, update) => if t' == t then [PrepareReq(update)] else []
    case AskCommit(t') => if t' == t then [CommitReq] else []
    case AskRollback(t') => if t' == t then [RollbackReq] else []
    case AskFinish(t') => if t' == t then [FinishReq] else []
    case _ => []
  }

  /** The requests about `t` that a server is asked, in order. */
  function Brought(events: seq<F.Event>, t: Ticket): seq<Request> {
    if events == [] then [] else Brings(events[0], t) + Brought(events[1..], t)
  }

  // ---- Finish comes in time ----

  /** A broker asks a shard to finish a ticket only when the shard does not hold it prepared. */
  lemma FinishMeetsNoPrepared(dir: Key -> ShardId, init: map<Key, Value>, h: History, n: nat, t: Ticket, s: ShardId)
    requires Lawful(dir, init, h) && n < |h.states| && s < |h.states[n].shards|
    requires FinishReq in LinkOf(h.states[n], t, s).reqs
    ensures !Has(h.states[n].shards[s], t, Prepared)
  {
    hide Lawful;
    ReachableSystem(dir, init, h, n);
    assert CellOk(dir, h.states[n], t, s);
    hide Sound, RecordOk, LostOk;
    var link := LinkOf(h.states[n], t, s);
    NoFinish(t in h.states[n].shards[s].tickets, link.reqs);
  }

  lemma {:induction false} NoFinish(live: bool, reqs: seq<Request>)
    ensures Forward(live, reqs) || Backward(live, reqs) ==> FinishReq !in reqs
    decreases reqs
  {
    if reqs != [] {
      assert reqs == [reqs[0]] + reqs[1..];
      NoFinish(live, reqs[1..]);
      NoFinish(true, reqs[1..]);
      NoFinish(false, reqs[1..]);
    }
  }

  // ---- One ticket with one key ----

  function Alone(s: ShardId, p: TicketPhase, st: ShardState): TicketState { TicketState(p, map[s := st]) }

  /** An agent has begun and asked for `k`. */
  lemma AsksOneKey(dir: Key -> ShardId, count: nat, t: Ticket, k: Key, u: Ticket) returns (g: WorldRun)
    requires (forall x :: dir(x) < count) && t != u
    ensures Runs(dir, g) && Running(Now(g), 0, t) && Now(g).agents[0].requested == map[k := Write]
    ensures Reqs(dir, g, t, dir(k)) == [TryLockReq(k, Write, true)]
    ensures var sys, s := Now(g).sys, dir(k);
            && sys.shards == Fresh(count).shards && LinkOf(sys, t, s) == Link([TryLockReq(k, Write, true)], [])
            && RecordOf(sys, t) == Some(Alone(s, InProgress, Asked(k, Write)))
  {
    hide Unfolds, BrokerSpec.TryLock, A.React;
    g := Nobody(dir, count);
    assert Reqs(dir, g, t, dir(k)) == [];
    hide Reqs;
    g := Joins(dir, g, 0, t, u);
    AsksFirst(NEW_STATE, dir(k), k, Write);
    g := Wants(dir, g, 0, t, k, Write, u);
  }

  /** It holds `k` and was told so. */
  lemma HoldsOne(dir: Key -> ShardId, count: nat, t: Ticket, k: Key, u: Ticket) returns (g: WorldRun)
    requires (forall x :: dir(x) < count) && t != u
    ensures Runs(dir, g) && Running(Now(g), 0, t) && Now(g).agents[0].requested == map[k := Write]
    ensures Reqs(dir, g, t, dir(k)) == [TryLockReq(k, Write, true)]
    ensures var sys, s := Now(g).sys, dir(k);
            && sys.shards == Fresh(count).shards[s := Locked(k, t)] && LinkOf(sys, t, s) == IDLE
            && RecordOf(sys, t) == Some(Alone(s, InProgress, Got(k, Write, AtBegun)))
  {
    hide Unfolds, Do, A.React, Reqs;
    g := AsksOneKey(dir, count, t, k, u);
    LockFree(t, k, Write);
    var more;
    g, more := ShardServes(dir, g, t, dir(k), TryLockReq(k, Write, true), u);
    OnlyAnswer(t, k, more);
    g := EntersAnswer(dir, g, t, k, u);
  }

  /** The broker enters the answer to the one lock. */
  lemma EntersAnswer(dir: Key -> ShardId, run: WorldRun, t: Ticket, k: Key, u: Ticket) returns (g: WorldRun)
    requires Runs(dir, run) && t != u && dir(k) < |Now(run).sys.shards|
    requires var sys, s := Now(run).sys, dir(k);
             RecordOf(sys, t) == Some(Alone(s, InProgress, Asked(k, Write)))
               && LinkOf(sys, t, s).resps == [LockValue(k, EMPTY)]
    ensures Runs(dir, g) && Now(g).agents == Now(run).agents && Now(g).sys.shards == Now(run).sys.shards
    ensures Reqs(dir, g, t, dir(k)) == Reqs(dir, run, t, dir(k))
    ensures var sys, r, s := Now(run).sys, Now(g).sys, dir(k);
            && LinkOf(r, t, s) == Link(LinkOf(sys, t, s).reqs, [])
            && RecordOf(r, t) == Some(Alone(s, InProgress, Got(k, Write, AtBegun)))
  {
    hide Unfolds, Handle, Reqs;
    var s, b := dir(k), Now(run).sys.tickets[t];
    GotLock(b, s, k, Write);
    QuietValue(b, s, LockValue(k, EMPTY));
    assert b.shards[s := Got(k, Write, AtBegun)] == map[s := Got(k, Write, AtBegun)];
    g := Hear(dir, run, t, s, u);
  }

  // ---- A commit that is repeated ----

  lemma AllGot(s: ShardId, p: TicketPhase, k: Key, q: ShardPhase)
    ensures var b := Alone(s, p, Got(k, Write, q)); !BrokerSpec.Waiting(b) && k in KeysOf(b)
  {
    var b := Alone(s, p, Got(k, Write, q));
    assert s in b.shards && k in b.shards[s].keys;
  }

  lemma CommitsOne(s: ShardId, k: Key, v: Value)
    ensures BrokerSpec.Commit(Alone(s, InProgress, Got(k, Write, AtBegun)), map[k := v])
            == Step(Some(Alone(s, InProgress, Got(k, Write, Preparing))), map[s := PrepareReq(map[k := v])], NoReply)
  {
    AllGot(s, InProgress, k, AtBegun);
    hide BrokerSpec.Waiting, KeysOf;
    var b := Alone(s, InProgress, Got(k, Write, AtBegun));
    assert Part(map[k := v], Got(k, Write, AtBegun)) == map[k := v];
    assert Advance(b, AtPrepared, Preparing).shards == map[s := Got(k, Write, Preparing)];
    assert DoPrepare(b, map[k := v]).sends == map[s := PrepareReq(map[k := v])];
  }

  lemma DecidedAgain(s: ShardId, k: Key, q: ShardPhase)
    requires q != AtCommitted
    ensures BrokerSpec.DoCommit(Alone(s, AllPrepared, Got(k, Write, q)))
            == Step(Some(Alone(s, AllPrepared, Got(k, Write, Committing))), map[s := CommitReq], NoReply)
  {
    var b := Alone(s, AllPrepared, Got(k, Write, q));
    assert Advance(b, AtCommitted, Committing).shards == map[s := Got(k, Write, Committing)];
    assert ToOthers(b, AtCommitted, CommitReq) == map[s := CommitReq];
  }

  lemma CommitsAgain(s: ShardId, k: Key, v: Value)
    ensures BrokerSpec.Commit(Alone(s, AllPrepared, Got(k, Write, Committing)), map[k := v])
            == Step(Some(Alone(s, AllPrepared, Got(k, Write, Committing))), map[s := CommitReq], NoReply)
  {
    AllGot(s, AllPrepared, k, Committing);
    DecidedAgain(s, k, Committing);
    hide BrokerSpec.Waiting, KeysOf, BrokerSpec.DoCommit;
  }

  lemma Decides(s: ShardId, k: Key)
    ensures Handle(Alone(s, InProgress, Got(k, Write, Preparing)), s, PrepareDone(None))
            == Step(Some(Alone(s, AllPrepared, Got(k, Write, Committing))), map[s := CommitReq], NoReply)
  {
    var b := Alone(s, InProgress, Got(k, Write, Preparing));
    assert SetPhase(b, s, ShardAt(b, s).phase).shards == b.shards;
    var c := SetPhase(b, s, AtPrepared);
    assert c.shards == map[s := Got(k, Write, AtPrepared)];
    assert AllIn(c, AtPrepared);
    DecidedAgain(s, k, AtPrepared);
    hide BrokerSpec.DoCommit;
    assert c.(phase := AllPrepared) == Alone(s, AllPrepared, Got(k, Write, AtPrepared));
  }

  lemma PreparesOne(t: Ticket, k: Key, v: Value)
    ensures Do(Locked(k, t), PrepareOp(t, map[k := v])).answers == {}
    ensures PrepareRefusals(Locked(k, t), t, map[k := v]) == {}
  {
    assert QueuedBy(Locked(k, t).elements, t) == {};
  }

  /** The runner ends, and the shard is asked to prepare. */
  lemma EndsOne(dir: Key -> ShardId, run: WorldRun, t: Ticket, k: Key, v: Value, u: Ticket) returns (g: WorldRun)
    requires Runs(dir, run) && Running(Now(run), 0, t) && t != u && LinkOf(Now(run).sys, t, dir(k)).reqs == []
    requires RecordOf(Now(run).sys, t) == Some(Alone(dir(k), InProgress, Got(k, Write, AtBegun)))
    ensures Runs(dir, g) && 0 in Now(g).agents && Now(g).agents[0].ticket == Some(t) && !Now(g).agents[0].readonly
    ensures Now(g).agents[0].state.CommitSent? && Now(g).agents[0].result == Some(A.Updates(map[k := v]))
    ensures Reqs(dir, g, t, dir(k)) == Reqs(dir, run, t, dir(k)) + [PrepareReq(map[k := v])]
    ensures RecordOf(Now(g).sys, t) == Some(Alone(dir(k), InProgress, Got(k, Write, Preparing)))
    ensures Now(g).sys.shards == Now(run).sys.shards
    ensures LinkOf(Now(g).sys, t, dir(k)) == Link([PrepareReq(map[k := v])], LinkOf(Now(run).sys, t, dir(k)).resps)
  {
    hide Unfolds, A.React, Reqs, BrokerSpec.Commit;
    CommitsOne(dir(k), k, v);
    g := Ends(dir, run, 0, t, map[k := v], u);
  }

  /** The shard prepares, and the broker decides. */
  lemma DecidesOne(dir: Key -> ShardId, count: nat, t: Ticket, k: Key, v: Value, u: Ticket) returns (g: WorldRun)
    requires (forall x :: dir(x) < count) && t != u
    ensures Runs(dir, g) && 0 in Now(g).agents && Now(g).agents[0].ticket == Some(t) && !Now(g).agents[0].readonly
    ensures Now(g).agents[0].state.CommitSent? && Now(g).agents[0].result == Some(A.Updates(map[k := v]))
    ensures Reqs(dir, g, t, dir(k)) == [TryLockReq(k, Write, true), PrepareReq(map[k := v]), CommitReq]
    ensures RecordOf(Now(g).sys, t) == Some(Alone(dir(k), AllPrepared, Got(k, Write, Committing)))
  {
    hide Unfolds, Do, A.React, Reqs, Handle, Running;
    var s := dir(k);
    g := HoldsOne(dir, count, t, k, u);
    g := EndsOne(dir, g, t, k, v, u);
    PreparesOne(t, k, v);
    var more;
    g, more := ShardServes(dir, g, t, s, PrepareReq(map[k := v]), u);
    assert more == [PrepareDone(None)];
    Decides(s, k);
    g := Hear(dir, g, t, s, u);
  }

  /** The agent is told to execute again while it waits for its commit: the shard is asked to commit
      twice. */
  lemma CommitsTwice(dir: Key -> ShardId, count: nat, t: Ticket, k: Key, v: Value) returns (g: WorldRun)
    requires forall x :: dir(x) < count
    ensures Runs(dir, g)
    ensures Reqs(dir, g, t, dir(k)) == [TryLockReq(k, Write, true), PrepareReq(map[k := v]), CommitReq, CommitReq]
  {
    hide Unfolds, Reqs, BrokerSpec.Commit;
    g := DecidesOne(dir, count, t, k, v, t + 1);
    CommitsAgain(dir(k), k, v);
    g := AgentAsks(dir, g, 0, A.Exec, A.AskCommit(map[k := v]), AskCommit(t, map[k := v]), t + 1);
  }

  /** A server that is asked just that loses a value that it acknowledged. */
  lemma AgentsWipe(dir: Key -> ShardId, count: nat, t: Ticket, k: Key, v: Value)
    returns (run: WorldRun, server: F.ServerRun)
    requires (forall x :: dir(x) < count) && v != EMPTY
    ensures Runs(dir, run) && F.Serves(server) && Brought(server.events, t) == Reqs(dir, run, t, dir(k))
    ensures Has(F.Last(server).shard, t, Committed) && ValueOf(F.Last(server).shard, k) == v
    ensures forall s :: R.Rebuilt(map[], F.Whole(F.Last(server)), s) ==> ValueOf(s, k) == EMPTY
  {
    hide Unfolds, Reqs, F.Serves, F.Guarded, R.Rebuilt, F.Whole;
    run := CommitsTwice(dir, count, t, k, v);
    server := F.WipedValue(t, k, v);
    BroughtBy(t, k, v);
  }

  lemma BroughtMore(e: F.Event, rest: seq<F.Event>, t: Ticket)
    ensures Brought([e] + rest, t) == Brings(e, t) + Brought(rest, t)
  {
    assert ([e] + rest)[1..] == rest;
  }

  lemma BroughtBy(t: Ticket, k: Key, v: Value)
    ensures Brought([F.Lock(F.LockOp(t, k)), F.AskPrepare(t, 0, map[k := v]), F.AskCommit(t), F.Applied, F.Applied,
            F.CallBack(t),
                     F.AskCommit(t)], t)
            == [TryLockReq(k, Write, true), PrepareReq(map[k := v]), CommitReq, CommitReq]
  {
    hide Brought;
    var none: seq<F.Event> := [];
    assert Brought(none, t) == [] by { BroughtNone(t); }
    var e6 := [F.AskCommit(t)] + none;
    var e5 := [F.CallBack(t)] + e6;
    var e4 := [F.Applied] + e5;
    var e3 := [F.Applied] + e4;
    var e2 := [F.AskCommit(t)] + e3;
    var e1 := [F.AskPrepare(t, 0, map[k := v])] + e2;
    BroughtMore(F.AskCommit(t), none, t);
    BroughtMore(F.CallBack(t), e6, t);
    BroughtMore(F.Applied, e5, t);
    BroughtMore(F.Applied, e4, t);
    BroughtMore(F.AskCommit(t), e3, t);
    BroughtMore(F.AskPrepare(t, 0, map[k := v]), e2, t);
    BroughtMore(F.Lock(F.LockOp(t, k)), e1, t);
    assert [F.Lock(F.LockOp(t, k))] + e1 == [F.Lock(F.LockOp(t, k)), F.AskPrepare(t, 0, map[k := v]), F.AskCommit(t),
      F.Applied,
                                             F.Applied, F.CallBack(t), F.AskCommit(t)];
  }

  lemma BroughtNone(t: Ticket)
    ensures Brought([], t) == []
  {
  }

  // ---- A rollback that is repeated ----

  /** An agent that rolls back, without an error to report. */
  predicate Backing(w: World, t: Ticket, k: Key) {
    && 0 in w.agents && w.agents[0].state.RollbackSent? && w.agents[0].ticket == Some(t) && !w.agents[0].permanentError
    && !w.agents[0].readonly && w.agents[0].direct && w.agents[0].requested == map[k := Write]
  }

  lemma RollsBack(s: ShardId, k: Key, q: ShardPhase)
    requires q != RolledBack
    ensures BrokerSpec.Rollback(Alone(s, InProgress, Got(k, Write, q)))
            == Step(Some(Alone(s, InProgress, Got(k, Write, RollingBack))), map[s := RollbackReq], NoReply)
  {
    var b := Alone(s, InProgress, Got(k, Write, q));
    assert s in b.shards;
    assert Advance(b, RolledBack, RollingBack).shards == map[s := Got(k, Write, RollingBack)];
    assert ToOthers(b, RolledBack, RollbackReq) == map[s := RollbackReq];
  }

  /** It is told to execute, and asks to roll back. */
  lemma BacksOut(dir: Key -> ShardId, run: WorldRun, t: Ticket, k: Key, q: ShardPhase, u: Ticket) returns (g: WorldRun)
    requires Runs(dir, run) && t != u && q != RolledBack
    requires Running(Now(run), 0, t) || Backing(Now(run), t, k)
    requires Now(run).agents[0].requested == map[k := Write]
    requires RecordOf(Now(run).sys, t) == Some(Alone(dir(k), InProgress, Got(k, Write, q)))
    ensures Runs(dir, g) && Backing(Now(g), t, k) && Now(g).sys.shards == Now(run).sys.shards
    ensures RecordOf(Now(g).sys, t) == Some(Alone(dir(k), InProgress, Got(k, Write, RollingBack)))
    ensures var link := LinkOf(Now(run).sys, t, dir(k));
            LinkOf(Now(g).sys, t, dir(k))
            == link.(reqs := link.reqs + [RollbackReq])
    ensures Reqs(dir, g, t, dir(k)) == Reqs(dir, run, t, dir(k)) + [RollbackReq]
  {
    hide Unfolds, Reqs, BrokerSpec.Rollback;
    RollsBack(dir(k), k, q);
    g := AgentAsks(dir, run, 0, A.Exec, A.AskRollback, AskRollback(t), u);
  }

  function Freed(k: Key): Shard { Shard(map[k := Element(EMPTY, FREE)], map[]) }

  lemma RollbackFrees(t: Ticket, k: Key)
    ensures Do(Locked(k, t), RollbackOp(t)) == Outcome(Freed(k), {})
    ensures Do(Freed(k), RollbackOp(t)) == Outcome(Freed(k), {})
  {
    var s := Locked(k, t);
    var l := Release(s.elements[k].lock, {t});
    assert s.elements[k].lock.queue - {t} == map[];
    assert l == FREE;
    assert Relock(s.elements, {t}) == map[k := Element(EMPTY, FREE)];
    assert s.tickets - {t} == map[];
    assert RelockAnswers(s.elements, s.tickets, {t}) == {};
  }

  lemma LockFreed(t: Ticket, k: Key)
    ensures Do(Freed(k), LockOp(t, k, Write, true)) == Outcome(Locked(k, t), {Granted(0, t, k, EMPTY)})
  {
    var s, w := Freed(k), Waiter(Write, 0);
    var e := Queued(s, t, k, w);
    assert e == map[k := Element(EMPTY, RwLock(None, {}, map[t := w]))];
    assert Victims(s, t, k, Write) == {};
    var l := Release(e[k].lock, {});
    assert l == RwLock(None, {}, map[t := w]);
    GrantOnly(l, t, w);
    assert Relock(e, {}) == Taken(k, t);
    var tickets := WoundAll(Register(s, t, 0), {}, t, k);
    assert tickets == map[t := NEW_TICKET];
    assert AnswerTo(e, tickets, {}, k, t) == Granted(0, t, k, EMPTY);
    assert RelockAnswers(e, tickets, {}) == {Granted(0, t, k, EMPTY)};
  }

  /** The agent asks twice to roll back. */
  lemma BacksOutTwice(dir: Key -> ShardId, count: nat, t: Ticket, k: Key, u: Ticket) returns (g: WorldRun)
    requires (forall x :: dir(x) < count) && t != u
    ensures Runs(dir, g) && Backing(Now(g), t, k)
    ensures Now(g).sys.shards == Fresh(count).shards[dir(k) := Locked(k, t)]
    ensures RecordOf(Now(g).sys, t) == Some(Alone(dir(k), InProgress, Got(k, Write, RollingBack)))
    ensures LinkOf(Now(g).sys, t, dir(k)) == Link([RollbackReq, RollbackReq], [])
    ensures Reqs(dir, g, t, dir(k)) == [TryLockReq(k, Write, true), RollbackReq, RollbackReq]
  {
    hide Unfolds, Reqs;
    g := HoldsOne(dir, count, t, k, u);
    g := BacksOut(dir, g, t, k, AtBegun, u);
    g := BacksOut(dir, g, t, k, RollingBack, u);
  }

  lemma Aborts(s: ShardId, k: Key)
    ensures Handle(Alone(s, InProgress, Got(k, Write, RollingBack)), s, RollbackDone(None))
            == Step(Some(Alone(s, Aborted, ShardState(map[], RolledBack))), map[], Success)
  {
    var b := Alone(s, InProgress, Got(k, Write, RollingBack));
    assert SetPhase(b, s, ShardAt(b, s).phase).shards == b.shards;
    var c := b.(shards := b.shards[s := ShardState(map[], RolledBack)]);
    assert c.shards == map[s := ShardState(map[], RolledBack)] && AllIn(c, RolledBack);
  }

  /** The first rollback succeeds, and the agent is told. */
  lemma BackOnce(dir: Key -> ShardId, count: nat, t: Ticket, k: Key, u: Ticket) returns (g: WorldRun)
    requires (forall x :: dir(x) < count) && t != u
    ensures Runs(dir, g) && Backing(Now(g), t, k) && t in Now(g).rolledBack
    ensures Now(g).sys.shards == Fresh(count).shards[dir(k) := Freed(k)]
    ensures RecordOf(Now(g).sys, t) == Some(Alone(dir(k), Aborted, ShardState(map[], RolledBack)))
    ensures LinkOf(Now(g).sys, t, dir(k)) == Link([RollbackReq], [])
    ensures Reqs(dir, g, t, dir(k)) == [TryLockReq(k, Write, true), RollbackReq, RollbackReq]
  {
    hide Unfolds, Reqs, Do, Handle;
    g := BacksOutTwice(dir, count, t, k, u);
    RollbackFrees(t, k);
    var more;
    g, more := ShardServes(dir, g, t, dir(k), RollbackReq, u);
    assert more == [RollbackDone(None)];
    Aborts(dir(k), k);
    g := Hear(dir, g, t, dir(k), u);
  }

  lemma AsksAnew(s: ShardId, k: Key)
    ensures BrokerSpec.TryLock(Alone(s, Aborted, ShardState(map[], RolledBack)), s, k, Write)
            == Step(Some(Alone(s, InProgress, Asked(k, Write))), map[s := TryLockReq(k, Write, true)], NoReply)
  {
    AsksFirst(NEW_STATE, s, k, Write);
  }

  lemma BeginsAnew(a: A.Agent, k: Key)
    requires a.state.RollbackComplete? && a.ticket.Some? && a.direct && a.requested == map[k := Write]
    ensures var r := A.React(a, A.Exec, A.LUCKY);
            && r.Some? && r.value.acts == [A.AskLocks(map[k := Write])]
            && r.value.agent == a.(result := None, wounded := false, state := A.FunctionStarted,
                 attempt := a.attempt + 1,
                                   committed := false)
  {
    assert k in a.requested;
  }

  /** It begins anew while the second rollback is under way. */
  lemma Anew(dir: Key -> ShardId, count: nat, t: Ticket, k: Key, u: Ticket) returns (g: WorldRun)
    requires (forall x :: dir(x) < count) && t != u
    ensures Runs(dir, g) && Running(Now(g), 0, t)
    ensures Now(g).sys.shards == Fresh(count).shards[dir(k) := Freed(k)]
    ensures RecordOf(Now(g).sys, t) == Some(Alone(dir(k), InProgress, Asked(k, Write)))
    ensures LinkOf(Now(g).sys, t, dir(k)) == Link([RollbackReq, TryLockReq(k, Write, true)], [])
    ensures Reqs(dir, g, t, dir(k)) == [TryLockReq(k, Write, true), RollbackReq, RollbackReq,
            TryLockReq(k, Write, true)]
  {
    hide Unfolds, Reqs, BrokerSpec.TryLock;
    g := BackOnce(dir, count, t, k, u);
    var a := Now(g).agents[0].(state := A.RollbackComplete, result := Some(A.Error(A.Retry)));
    g := QuietTurn(dir, g, 0, A.RollbackOk, a, A.Report(A.Error(A.Retry)));
    BeginsAnew(a, k);
    hide A.React;
    AsksAnew(dir(k), k);
    g := AgentAsks(dir, g, 0, A.Exec, A.AskLocks(map[k := Write]), AskLock(t, k, Write), u);
  }

  lemma EchoIgnored(s: ShardId, k: Key)
    ensures Handle(Alone(s, InProgress, Asked(k, Write)), s, RollbackDone(Some(UnknownTicket)))
            == Step(Some(Alone(s, InProgress, Asked(k, Write))), map[], Failed(InvalidShardState))
  {
    var b := Alone(s, InProgress, Asked(k, Write));
    assert SetPhase(b, s, ShardAt(b, s).phase).shards == b.shards;
  }

  /** The second rollback finds nothing, and the lock is granted. */
  lemma GrantedAnew(dir: Key -> ShardId, count: nat, t: Ticket, k: Key, u: Ticket) returns (g: WorldRun)
    requires (forall x :: dir(x) < count) && t != u
    ensures Runs(dir, g) && Running(Now(g), 0, t)
    ensures Now(g).sys.shards == Fresh(count).shards[dir(k) := Locked(k, t)]
    ensures RecordOf(Now(g).sys, t) == Some(Alone(dir(k), InProgress, Asked(k, Write)))
    ensures LinkOf(Now(g).sys, t, dir(k)) == Link([], [LockValue(k, EMPTY)])
    ensures Reqs(dir, g, t, dir(k)) == [TryLockReq(k, Write, true), RollbackReq, RollbackReq,
            TryLockReq(k, Write, true)]
  {
    hide Unfolds, Reqs, Do, Handle;
    g := Anew(dir, count, t, k, u);
    var more;
    RollbackFrees(t, k);
    g, more := ShardServes(dir, g, t, dir(k), RollbackReq, u);
    assert more == [RollbackDone(Some(UnknownTicket))];
    LockFreed(t, k);
    g, more := ShardServes(dir, g, t, dir(k), TryLockReq(k, Write, true), u);
    OnlyAnswer(t, k, more);
    EchoIgnored(dir(k), k);
    g := Hear(dir, g, t, dir(k), u);
  }

  /** Then it ends: the shard is asked to prepare after two rollbacks of which one is a repetition. */
  lemma PreparesAnew(dir: Key -> ShardId, count: nat, t: Ticket, k: Key, v: Value) returns (g: WorldRun)
    requires forall x :: dir(x) < count
    ensures Runs(dir, g)
    ensures Reqs(dir, g, t, dir(k))
            == [TryLockReq(k, Write, true), RollbackReq, RollbackReq, TryLockReq(k, Write, true),
              PrepareReq(map[k := v])]
  {
    hide Unfolds, Reqs;
    g := GrantedAnew(dir, count, t, k, t + 1);
    g := EntersAnswer(dir, g, t, k, t + 1);
    g := EndsOne(dir, g, t, k, v, t + 1);
  }

  /** A server that is asked just that loses a prepare that it acknowledged, and prepares another
      ticket for the same key. */
  lemma AgentsLosePrepare(dir: Key -> ShardId, count: nat, t: Ticket, u: Ticket, k: Key, v: Value)
    returns (run: WorldRun, server: F.ServerRun)
    requires (forall x :: dir(x) < count) && t != u
    ensures Runs(dir, run) && F.Serves(server) && Brought(server.events, t) == Reqs(dir, run, t, dir(k))
    ensures t !in F.Last(server).shard.tickets && Has(F.Last(server).shard, u, Prepared)
    ensures R.IsPrepared(F.Whole(F.Last(server)), t) && !R.Disjoint(F.Whole(F.Last(server)))
  {
    hide Unfolds, Reqs, F.Serves, F.Whole, R.Disjoint, R.IsPrepared;
    run := PreparesAnew(dir, count, t, k, v);
    server := F.LostPrepare(t, u, k, v);
    BroughtAnew(t, u, k, v);
  }

  lemma BroughtAnew(t: Ticket, u: Ticket, k: Key, v: Value)
    requires t != u
    ensures Brought([F.Lock(F.LockOp(t, k)), F.AskRollback(t), F.AskRollback(t), F.Applied, F.Applied, F.CallBack(t),
                     F.Lock(F.LockOp(t, k)), F.AskPrepare(t, 0, map[k := v]), F.Applied, F.CallBack(t),
                     F.Lock(F.LockOp(u, k)), F.AskPrepare(u, 0, map[k := v])], t)
            == [TryLockReq(k, Write, true), RollbackReq, RollbackReq, TryLockReq(k, Write, true),
              PrepareReq(map[k := v])]
  {
    hide Brought;
    var lock, put := F.Lock(F.LockOp(t, k)), F.AskPrepare(t, 0, map[k := v]);
    var lock', put' := F.Lock(F.LockOp(u, k)), F.AskPrepare(u, 0, map[k := v]);
    var none: seq<F.Event> := [];
    BroughtNone(t);
    BroughtMore(put', none, t);
    var a := [put'] + none;
    BroughtMore(lock', a, t);
    var b := [lock'] + a;
    BroughtMore(F.CallBack(t), b, t);
    var c := [F.CallBack(t)] + b;
    BroughtMore(F.Applied, c, t);
    var d := [F.Applied] + c;
    BroughtMore(put, d, t);
    var e := [put] + d;
    BroughtMore(lock, e, t);
    var f := [lock] + e;
    BroughtMore(F.CallBack(t), f, t);
    var g := [F.CallBack(t)] + f;
    BroughtMore(F.Applied, g, t);
    var h := [F.Applied] + g;
    BroughtMore(F.Applied, h, t);
    var i := [F.Applied] + h;
    BroughtMore(F.AskRollback(t), i, t);
    var j := [F.AskRollback(t)] + i;
    BroughtMore(F.AskRollback(t), j, t);
    var l := [F.AskRollback(t)] + j;
    BroughtMore(lock, l, t);
    assert [lock] + l == [lock, F.AskRollback(t), F.AskRollback(t), F.Applied, F.Applied, F.CallBack(t), lock, put,
      F.Applied,
                          F.CallBack(t), lock', put'];
  }
}
