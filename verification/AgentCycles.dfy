/** A run of two agents that ends in a deadlock over two shards: a runner asks for a lock, asks for a
    stronger one on the same key before it has an answer, and ends. The broker takes the answer to the
    first request for one to the second, and accepts the commit. */
module AgentCycles {
  import opened Basics
  import opened LockTable
  import opened ShardSpec
  import opened ShardSteps
  import opened BrokerSpec
  import opened Links
  import opened Systems
  import opened SystemRuns
  import opened SystemWaiting
  import opened Patience
  import opened WorldRuns
  import opened RunSteps
  import opened WaitCycles
  import W = ShardWaiting
  import opened AgentSteps

  // ---- Steps of the run ----

  lemma Nobody(dir: Key -> ShardId, count: nat) returns (g: WorldRun)
    requires forall x :: dir(x) < count
    ensures Runs(dir, g) && Now(g) == World(Fresh(count), map[], {}, {}) && g.paths == []
  {
    FreshIsInitial(dir, count);
    hide Initial;
    g := WorldRun([World(Fresh(count), map[], {}, {})], [], []);
  }

  /** Both agents run, and nothing has happened at the shards. */
  lemma BothRun(dir: Key -> ShardId, count: nat, a: Ticket, b: Ticket) returns (g: WorldRun)
    requires (forall x :: dir(x) < count) && a != b
    ensures Runs(dir, g) && Running(Now(g), 0, a) && Running(Now(g), 1, b)
    ensures var sys := Now(g).sys;
            && sys.shards == Fresh(count).shards && RecordOf(sys, a) == Some(NEW_STATE)
                 && RecordOf(sys, b) == Some(NEW_STATE)
            && forall s :: LinkOf(sys, a, s) == IDLE && LinkOf(sys, b, s) == IDLE
  {
    g := Nobody(dir, count);
    hide Unfolds;
    g := Joins(dir, g, 0, a, b);
    g := Joins(dir, g, 1, b, a);
  }

  /** `t`, of agent `id`, asks for its first lock at a shard, and gets it; `u` is the other ticket. */
  lemma First(dir: Key -> ShardId, run: WorldRun, id: nat, t: Ticket, u: Ticket, k: Key, ty: LockType, was: Shard,
              now: Shard)
    returns (g: WorldRun)
    requires id <= 1 && Runs(dir, run) && Running(Now(run), id, t) && Running(Now(run), 1 - id, u) && t != u
    requires t in Now(run).sys.tickets && Now(run).sys.tickets[t].phase.InProgress?
    requires dir(k) !in Now(run).sys.tickets[t].shards && LinkOf(Now(run).sys, t, dir(k)) == IDLE
    requires dir(k) < |Now(run).sys.shards| && Now(run).sys.shards[dir(k)] == was && t !in was.tickets
    requires Do(was, LockOp(t, k, ty, true)) == Outcome(now, {Granted(0, t, k, EMPTY)})
    ensures Runs(dir, g) && Running(Now(g), id, t) && Running(Now(g), 1 - id, u) && Aside(Now(run).sys, Now(g).sys, u)
    ensures var sys, r, s := Now(run).sys, Now(g).sys, dir(k);
            && r.shards == sys.shards[s := now]
            && RecordOf(r, t) == Some(sys.tickets[t].(shards := sys.tickets[t].shards[s := Asked(k, ty)]))
            && (forall s' :: s' != s ==> LinkOf(r, t, s') == LinkOf(sys, t, s'))
            && LinkOf(r, t, s).reqs == [] && LinkOf(r, t, s).resps != []
                 && LinkOf(r, t, s).resps[0] == LockValue(k, EMPTY)
  {
    hide Unfolds, Do, BrokerSpec.TryLock;
    AsksFirst(Now(run).sys.tickets[t], dir(k), k, ty);
    g := Wants(dir, run, id, t, k, ty, u);
    var more;
    g, more := ShardServes(dir, g, t, dir(k), TryLockReq(k, ty, true), u);
    OnlyAnswer(t, k, more);
  }

  /** The broker of `t` enters the answer to a lock. */
  lemma Heard(dir: Key -> ShardId, run: WorldRun, t: Ticket, u: Ticket, k: Key, ty: LockType) returns (g: WorldRun)
    requires Runs(dir, run) && t in Now(run).sys.tickets && t != u && dir(k) < |Now(run).sys.shards|
    requires var sys, s := Now(run).sys, dir(k);
             && s in sys.tickets[t].shards && sys.tickets[t].shards[s] == Asked(k, ty)
             && LinkOf(sys, t, s).resps != [] && LinkOf(sys, t, s).resps[0] == LockValue(k, EMPTY)
    ensures Runs(dir, g) && Aside(Now(run).sys, Now(g).sys, u) && Now(g).agents == Now(run).agents
    ensures var sys, r, s := Now(run).sys, Now(g).sys, dir(k);
            && r.shards == sys.shards
            && RecordOf(r, t) == Some(sys.tickets[t].(shards := sys.tickets[t].shards[s := Got(k, ty, AtBegun)]))
            && forall s' :: LinkOf(r, t, s').reqs == LinkOf(sys, t, s').reqs
                 && (s' != s ==> LinkOf(r, t, s') == LinkOf(sys, t, s'))
  {
    hide Unfolds, Handle;
    QuietValue(Now(run).sys.tickets[t], dir(k), LockValue(k, EMPTY));
    GotLock(Now(run).sys.tickets[t], dir(k), k, ty);
    g := Hear(dir, run, t, dir(k), u);
  }

  function Reading(k: Key, a: Ticket): Shard { Shard(Shared(k, {a}), map[a := NEW_TICKET]) }

  function BothReading(k: Key, a: Ticket, b: Ticket): Shard {
    Shard(Shared(k, {a, b}), map[a := NEW_TICKET, b := NEW_TICKET])
  }

  /** `a` reads `k`; `b` has `j`, and has been told so. */
  lemma OneEach(dir: Key -> ShardId, count: nat, a: Ticket, b: Ticket, j: Key, k: Key) returns (g: WorldRun)
    requires Spread(dir, count, j, k) && a != b
    ensures Runs(dir, g) && Running(Now(g), 0, a) && Running(Now(g), 1, b)
    ensures var sys := Now(g).sys;
            && sys.shards == Fresh(count).shards[dir(k) := Reading(k, a)][dir(j) := Locked(j, b)]
            && RecordOf(sys, a) == Some(TicketState(InProgress, map[dir(k) := Asked(k, Read)]))
            && RecordOf(sys, b) == Some(TicketState(InProgress, map[dir(j) := Got(j, Write, AtBegun)]))
            && LinkOf(sys, a, dir(j)) == IDLE && LinkOf(sys, b, dir(k)) == IDLE && LinkOf(sys, b, dir(j)).reqs == []
  {
    hide Unfolds, Do;
    g := BothRun(dir, count, a, b);
    LockFree(a, k, Read);
    g := First(dir, g, 0, a, b, k, Read, EMPTY_SHARD, Reading(k, a));
    LockFree(b, j, Write);
    g := First(dir, g, 1, b, a, j, Write, EMPTY_SHARD, Locked(j, b));
    var was := Now(g).sys.tickets[b].shards;
    g := Heard(dir, g, b, a, j, Write);
    assert was[dir(j) := Got(j, Write, AtBegun)] == map[dir(j) := Got(j, Write, AtBegun)];
  }

  /** The record of `b` with both its keys. */
  function Two(s: ShardId, x: ShardState, s': ShardId, y: ShardState): TicketState {
    TicketState(InProgress, map[s := x, s' := y])
  }

  /** `b` reads `k` too, but has not been told. */
  lemma BothRead(dir: Key -> ShardId, count: nat, a: Ticket, b: Ticket, j: Key, k: Key) returns (g: WorldRun)
    requires Spread(dir, count, j, k) && a != b
    ensures Runs(dir, g) && Running(Now(g), 0, a) && Running(Now(g), 1, b)
    ensures var sys := Now(g).sys;
            && sys.shards == Fresh(count).shards[dir(k) := BothReading(k, a, b)][dir(j) := Locked(j, b)]
            && RecordOf(sys, a) == Some(TicketState(InProgress, map[dir(k) := Asked(k, Read)]))
            && RecordOf(sys, b) == Some(Two(dir(j), Got(j, Write, AtBegun), dir(k), Asked(k, Read)))
            && LinkOf(sys, a, dir(j)) == IDLE && LinkOf(sys, b, dir(j)).reqs == [] && LinkOf(sys, b, dir(k)).reqs == []
            && LinkOf(sys, b, dir(k)).resps != [] && LinkOf(sys, b, dir(k)).resps[0] == LockValue(k, EMPTY)
  {
    hide Unfolds, Do;
    g := OneEach(dir, count, a, b, j, k);
    LockShared(a, b, k);
    var was := Now(g).sys.tickets[b];
    g := First(dir, g, 1, b, a, k, Read, Reading(k, a), BothReading(k, a, b));
    assert was.(shards := was.shards[dir(k) := Asked(k, Read)])
      == Two(dir(j), Got(j, Write, AtBegun), dir(k), Asked(k, Read));
  }

  /** `b` asks to write `k` before it is told that it reads it. */
  lemma Again(dir: Key -> ShardId, run: WorldRun, a: Ticket, b: Ticket, k: Key) returns (g: WorldRun)
    requires Runs(dir, run) && Running(Now(run), 0, a) && Running(Now(run), 1, b) && a < b && b in Now(run).sys.tickets
    requires var sys, s := Now(run).sys, dir(k);
             && sys.tickets[b].phase.InProgress? && s in sys.tickets[b].shards
                  && sys.tickets[b].shards[s] == Asked(k, Read)
             && s < |sys.shards| && sys.shards[s] == BothReading(k, a, b) && LinkOf(sys, b, s).reqs == []
    ensures Runs(dir, g) && Running(Now(g), 0, a) && Running(Now(g), 1, b) && Aside(Now(run).sys, Now(g).sys, a)
    ensures var sys, r, s := Now(run).sys, Now(g).sys, dir(k);
            && r.shards == sys.shards[s := Do(BothReading(k, a, b), LockOp(b, k, Write, false)).shard]
            && RecordOf(r, b) == Some(sys.tickets[b].(shards := sys.tickets[b].shards[s := Asked(k, Write)]))
            && (forall s' :: s' != s ==> LinkOf(r, b, s') == LinkOf(sys, b, s'))
            && LinkOf(sys, b, s).resps <= LinkOf(r, b, s).resps
  {
    hide Unfolds, Do, BrokerSpec.TryLock;
    var s := dir(k);
    AsksAgain(Now(run).sys.tickets[b], s, k);
    g := Wants(dir, run, 1, b, k, Write, a);
    LockUpgrade(a, b, k);
    var more;
    g, more := ShardServes(dir, g, b, s, TryLockReq(k, Write, false), a);
  }

  /** Then `b` is told, and its broker takes it that `b` may write `k`; but `b` waits for `a` there. */
  lemma Mistaken(dir: Key -> ShardId, count: nat, a: Ticket, b: Ticket, j: Key, k: Key) returns (g: WorldRun)
    requires Spread(dir, count, j, k) && a < b
    ensures Runs(dir, g) && Running(Now(g), 0, a) && Running(Now(g), 1, b)
    ensures var sys, waiting := Now(g).sys, Do(BothReading(k, a, b), LockOp(b, k, Write, false)).shard;
            && sys.shards == Fresh(count).shards[dir(k) := waiting][dir(j) := Locked(j, b)]
            && RecordOf(sys, a) == Some(TicketState(InProgress, map[dir(k) := Asked(k, Read)]))
            && RecordOf(sys, b) == Some(Two(dir(j), Got(j, Write, AtBegun), dir(k), Got(k, Write, AtBegun)))
            && LinkOf(sys, a, dir(j)) == IDLE && LinkOf(sys, b, dir(j)).reqs == []
  {
    hide Unfolds, Do;
    g := BothRead(dir, count, a, b, j, k);
    var was := Now(g).sys.tickets[b].shards;
    g := Again(dir, g, a, b, k);
    g := Heard(dir, g, b, a, k, Write);
    assert was[dir(k) := Asked(k, Write)][dir(k) := Got(k, Write, AtBegun)]
        == map[dir(j) := Got(j, Write, AtBegun), dir(k) := Got(k, Write, AtBegun)];
  }

  /** The runner of `b` ends with nothing to write, and its shards are asked to prepare. */
  lemma AsksToCommit(dir: Key -> ShardId, run: WorldRun, a: Ticket, b: Ticket, s: ShardId) returns (g: WorldRun)
    requires Runs(dir, run) && Running(Now(run), 0, a) && Running(Now(run), 1, b) && a != b && b in Now(run).sys.tickets
    requires var sys := Now(run).sys;
             && sys.tickets[b].phase.InProgress? && s in sys.tickets[b].shards && LinkOf(sys, b, s).reqs == []
             && forall s' :: s' in sys.tickets[b].shards ==>
                  exists x, ty :: sys.tickets[b].shards[s'] == Got(x, ty, AtBegun)
    ensures Runs(dir, g) && Running(Now(g), 0, a) && Aside(Now(run).sys, Now(g).sys, a)
    ensures Now(g).sys.shards == Now(run).sys.shards && LinkOf(Now(g).sys, b, s).reqs == [PrepareReq(map[])]
  {
    hide Unfolds, BrokerSpec.Commit;
    CommitsEmpty(Now(run).sys.tickets[b]);
    g := Ends(dir, run, 1, b, map[], a);
  }

  /** The runner of `b` ends, and `b` is prepared where it holds `j`. */
  lemma HalfPrepared(dir: Key -> ShardId, count: nat, a: Ticket, b: Ticket, j: Key, k: Key) returns (g: WorldRun)
    requires Spread(dir, count, j, k) && a < b
    ensures Runs(dir, g) && Running(Now(g), 0, a)
    ensures var sys, waiting := Now(g).sys, Do(BothReading(k, a, b), LockOp(b, k, Write, false)).shard;
            && sys.shards == Fresh(count).shards[dir(k) := waiting][dir(j) := Held(j, b)]
            && RecordOf(sys, a) == Some(TicketState(InProgress, map[dir(k) := Asked(k, Read)]))
            && LinkOf(sys, a, dir(j)) == IDLE
  {
    hide Unfolds, Do;
    g := Mistaken(dir, count, a, b, j, k);
    g := AsksToCommit(dir, g, a, b, dir(j));
    PrepareLocked(b, j);
    var more;
    g, more := ShardServes(dir, g, b, dir(j), PrepareReq(map[]), a);
  }

  /** `a` asks for `j` and waits for `b`, which is prepared; and `b` waits for `a`. */
  lemma HastyDeadlock(dir: Key -> ShardId, count: nat, a: Ticket, b: Ticket, j: Key, k: Key) returns (g: WorldRun)
    requires Spread(dir, count, j, k) && a < b
    ensures Runs(dir, g) && Circle(Now(g).sys, [a, b, a]) && Straddles(Now(g).sys, b)
  {
    hide Unfolds, Do, BrokerSpec.TryLock, W.WaitsFor, W.Waiting, WaitsFor, Straddles;
    g := HalfPrepared(dir, count, a, b, j, k);
    AsksFirst(Now(g).sys.tickets[a], dir(j), j, Write);
    g := Wants(dir, g, 0, a, j, Write, b);
    LockTaken(Held(j, b), b, a, j);
    LockUpgrade(a, b, k);
    var more;
    g, more := ShardServes(dir, g, a, dir(j), TryLockReq(j, Write, true), b);
    Crossed(Now(g).sys, dir(j), dir(k), a, b);
  }
}
