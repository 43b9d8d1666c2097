/** A run that ends in a deadlock over two shards: a client locks a further key after it has asked to
    commit. It keeps the other demand of `Patience`. */
module WaitCycles {
  import opened Basics
  import opened LockTable
  import opened ShardSpec
  import opened ShardSteps
  import opened BrokerSpec
  import opened Links
  import opened BrokerLinks
  import opened ShardLinks
  import opened Systems
  import opened SystemRuns
  import opened Progress
  import opened Worlds
  import opened Patience
  import opened RunSteps
  import opened SystemWaiting
  import W = ShardWaiting

  // ---- Runs step by step ----

  ghost function OpenNow(dir: Key -> ShardId, h: History, t: Ticket, k: Key): nat
    requires WellShaped(h)
  {
    Open(dir, h, |h.events|, t, k)
  }

  /** What the demands ask of the next event. */
  ghost predicate MayFollow(dir: Key -> ShardId, h: History, e: Event, leave: Leave)
    requires WellShaped(h)
  {
    && (e.AskLock? && !leave.lockLate ==> InTime(Last(h), e.ticket))
    && (AsksCommit(Last(h), e, e.ticket) && !leave.commitEarly ==> forall k :: OpenNow(dir, h, e.ticket, k) == 0)
  }

  ghost predicate Good(dir: Key -> ShardId, h: History, leave: Leave) { Lawful(dir, map[], h) && Keeps(dir, h, leave) }

  lemma Go(dir: Key -> ShardId, h: History, e: Event, leave: Leave) returns (g: History)
    requires Good(dir, h, leave) && Possible(Last(h), e) && MayFollow(dir, h, e, leave)
    ensures Good(dir, g, leave) && Last(g) == After(dir, Last(h), e)
    ensures forall t, k :: OpenNow(dir, g, t, k) == Count(dir, Last(h), e, t, k, OpenNow(dir, h, t, k))
  {
    hide Possible, After, Initial, Count, InTime;
    g := History(h.states + [After(dir, Last(h), e)], h.events + [e]);
    forall n | 0 <= n < |g.events| ensures Follows(dir, g.states[n], g.events[n], g.states[n + 1]) {
      if n < |h.events| { assert Follows(dir, h.states[n], h.events[n], h.states[n + 1]); }
    }
    forall t, k ensures Open(dir, g, |h.events|, t, k) == OpenNow(dir, h, t, k) {
      OpenOfPrefix(dir, h, g, |h.events|, t, k);
    }
    forall n | 0 <= n < |g.events| ensures KeepsAt(dir, g, n, leave) {
      if n < |h.events| { KeepsPrefix(dir, h, g, n, leave); }
    }
  }

  /** `t` has one open request for each key in `open`, and no other. */
  ghost predicate OpenAre(dir: Key -> ShardId, h: History, t: Ticket, open: set<Key>)
    requires WellShaped(h)
  {
    forall k :: OpenNow(dir, h, t, k) == One(k in open)
  }

  // ---- Beginnings ----

  function Fresh(count: nat): System { System(map[], {}, map[], seq(count, _ => EMPTY_SHARD), map[], []) }

  /** Two keys on different shards. */
  ghost predicate Spread(dir: Key -> ShardId, count: nat, j: Key, k: Key) {
    (forall x :: dir(x) < count) && dir(j) != dir(k)
  }

  lemma FreshIsInitial(dir: Key -> ShardId, count: nat)
    requires forall x :: dir(x) < count
    ensures Initial(dir, map[], Fresh(count))
  {
  }

  const LATE := Leave(true, false)

  lemma Start(dir: Key -> ShardId, count: nat) returns (h: History)
    requires forall x :: dir(x) < count
    ensures Good(dir, h, LATE) && Last(h) == Fresh(count) && forall t :: OpenAre(dir, h, t, {})
  {
    FreshIsInitial(dir, count);
    hide Initial;
    h := History([Fresh(count)], []);
  }

  lemma LastIsSound(dir: Key -> ShardId, h: History)
    requires Lawful(dir, map[], h)
    ensures Sound(dir, map[], Last(h))
  {
    hide Follows, Initial, Sound;
    ReachableSystem(dir, map[], h, |h.states| - 1);
  }

  /** A shard handles the next request. */
  lemma Serve(dir: Key -> ShardId, h: History, t: Ticket, s: ShardId, q: Request, u: Ticket, leave: Leave)
    returns (g: History, more: seq<Response>)
    requires Good(dir, h, leave) && s < |Last(h).shards| && Heads(LinkOf(Last(h), t, s), q) && u != t
    requires Enabled(Last(h).shards[s], OpOf(t, q, 0, 0))
    requires forall x :: x in Do(Last(h).shards[s], OpOf(t, q, 0, 0)).answers ==> x.ticket != u
    ensures Good(dir, g, leave) && ServedTo(Last(h), t, s, q, more, Last(g), u)
    ensures forall t', k :: OpenNow(dir, g, t', k) == OpenNow(dir, h, t', k)
  {
    hide Lawful, KeepsAt, Open, Do, Possible, After, ServedTo;
    LastIsSound(dir, h);
    var e;
    e, more := ShardStep(dir, map[], Last(h), t, s, q, u);
    g := Go(dir, h, e, leave);
  }

  /** A client asks for something. */
  lemma Ask(dir: Key -> ShardId, h: History, e: Event, u: Ticket, leave: Leave) returns (g: History)
    requires Good(dir, h, leave) && IsAsk(e) && Possible(Last(h), e) && MayFollow(dir, h, e, leave)
    requires u != e.ticket && e.ticket in Last(h).tickets
    ensures Good(dir, g, leave) && AskedTo(dir, Last(h), e, Last(g), u)
    ensures forall t, k :: OpenNow(dir, g, t, k) == Count(dir, Last(h), e, t, k, OpenNow(dir, h, t, k))
  {
    hide Lawful, KeepsAt, Open, Possible, After, AskedTo, MayFollow, Count;
    AskStep(dir, Last(h), e, u);
    g := Go(dir, h, e, leave);
  }

  /** A ticket has begun and asked for a key. */
  lemma LockAsked(dir: Key -> ShardId, h: History, t: Ticket, k: Key, u: Ticket) returns (g: History)
    requires Good(dir, h, LATE) && t !in Last(h).clients && t != u && forall s :: LinkOf(Last(h), t, s) == IDLE
    requires OpenAre(dir, h, t, {})
    ensures Good(dir, g, LATE) && Aside(Last(h), Last(g), u) && OpenAre(dir, g, t, {k})
    ensures forall x :: OpenNow(dir, g, u, x) == OpenNow(dir, h, u, x)
    ensures var sys, r, s := Last(h), Last(g), dir(k);
            && r.shards == sys.shards && ClientAt(r, t) == NEW_CLIENT
            && RecordOf(r, t) == Some(TicketState(InProgress, map[s := Asked(k, Write)]))
            && (forall s' :: s' != s ==> LinkOf(r, t, s') == IDLE)
            && LinkOf(r, t, s) == Link([TryLockReq(k, Write, true)], [])
  {
    hide Lawful, KeepsAt, InTime, Open, After, BrokerSpec.TryLock;
    BeginStep(dir, Last(h), t, u);
    g := Go(dir, h, Begin(t), LATE);
    AsksFirst(NEW_STATE, dir(k), k, Write);
    g := Ask(dir, g, AskLock(t, k, Write), u, LATE);
  }

  /** A ticket has begun, asked for a key and got it at its shard. */
  lemma Lock(dir: Key -> ShardId, h: History, t: Ticket, k: Key, u: Ticket) returns (g: History)
    requires Good(dir, h, LATE) && t !in Last(h).clients && t != u && forall s :: LinkOf(Last(h), t, s) == IDLE
    requires dir(k) < |Last(h).shards| && Last(h).shards[dir(k)] == EMPTY_SHARD
    requires OpenAre(dir, h, t, {})
    ensures Good(dir, g, LATE) && Aside(Last(h), Last(g), u) && OpenAre(dir, g, t, {k})
    ensures forall x :: OpenNow(dir, g, u, x) == OpenNow(dir, h, u, x)
    ensures var sys, r, s := Last(h), Last(g), dir(k);
            && r.shards == sys.shards[s := Locked(k, t)] && ClientAt(r, t) == NEW_CLIENT
            && RecordOf(r, t) == Some(TicketState(InProgress, map[s := Asked(k, Write)]))
            && (forall s' :: s' != s ==> LinkOf(r, t, s') == IDLE)
            && LinkOf(r, t, s).reqs == [] && LinkOf(r, t, s).resps != []
            && LinkOf(r, t, s).resps[0] == LockValue(k, EMPTY)
  {
    hide Lawful, KeepsAt, Open, Do;
    g := LockAsked(dir, h, t, k, u);
    LockFree(t, k, Write);
    var more;
    g, more := Serve(dir, g, t, dir(k), TryLockReq(k, Write, true), u, LATE);
    OnlyAnswer(t, k, more);
  }

  /** `a` holds `k`, and `b` holds `j` and has been told so. */
  lemma BothLocked(dir: Key -> ShardId, count: nat, a: Ticket, b: Ticket, j: Key, k: Key) returns (h: History)
    requires Spread(dir, count, j, k) && a != b
    ensures Good(dir, h, LATE) && OpenAre(dir, h, b, {})
    ensures var sys := Last(h);
            && sys.shards == Fresh(count).shards[dir(k) := Locked(k, a)][dir(j) := Locked(j, b)]
            && RecordOf(sys, a) == Some(TicketState(InProgress, map[dir(k) := Asked(k, Write)]))
            && RecordOf(sys, b) == Some(TicketState(InProgress, map[dir(j) := Got(j, Write, AtBegun)]))
            && ClientAt(sys, b).update.None? && LinkOf(sys, a, dir(j)) == IDLE
            && LinkOf(sys, b, dir(k)) == IDLE && LinkOf(sys, b, dir(j)).reqs == []
  {
    hide Lawful, KeepsAt, Open, Possible, After, Handle;
    h := Start(dir, count);
    assert OpenAre(dir, h, a, {}) && OpenAre(dir, h, b, {});
    h := Lock(dir, h, a, k, b);
    assert OpenAre(dir, h, b, {});
    h := Lock(dir, h, b, j, a);
    AnswerStep(dir, Last(h), b, dir(j), a);
    QuietValue(Last(h).tickets[b], dir(j), LockValue(j, EMPTY));
    var shards := Last(h).tickets[b].shards;
    GotLock(Last(h).tickets[b], dir(j), j, Write);
    assert shards[dir(j) := Got(j, Write, AtBegun)] == map[dir(j) := Got(j, Write, AtBegun)];
    h := Go(dir, h, AtBroker(b, dir(j)), LATE);
  }

  /** `b` has asked to commit, and is prepared at its shard. */
  lemma OnePrepared(dir: Key -> ShardId, count: nat, a: Ticket, b: Ticket, j: Key, k: Key) returns (h: History)
    requires Spread(dir, count, j, k) && a != b
    ensures Good(dir, h, LATE)
    ensures var sys := Last(h);
            && sys.shards == Fresh(count).shards[dir(k) := Locked(k, a)][dir(j) := Held(j, b)]
            && RecordOf(sys, a) == Some(TicketState(InProgress, map[dir(k) := Asked(k, Write)]))
            && RecordOf(sys, b) == Some(TicketState(InProgress, map[dir(j) := Got(j, Write, Preparing)]))
            && LinkOf(sys, a, dir(j)) == IDLE && LinkOf(sys, b, dir(k)) == IDLE
  {
    hide Lawful, KeepsAt, Open, Do, BrokerSpec.Commit;
    h := BothLocked(dir, count, a, b, j, k);
    var was := Last(h).tickets[b];
    CommitsEmpty(was);
    assert Advance(was, AtPrepared, Preparing).shards == map[dir(j) := Got(j, Write, Preparing)];
    h := Ask(dir, h, AskCommit(b, map[]), a, LATE);
    hide Possible;
    PrepareLocked(b, j);
    var more;
    h, more := Serve(dir, h, b, dir(j), PrepareReq(map[]), a, LATE);
  }

  /** One more ticket asks for a key that is taken. */
  lemma Waits(dir: Key -> ShardId, h: History, t: Ticket, k: Key, u: Ticket) returns (g: History)
    requires Good(dir, h, LATE) && t != u && t in Last(h).tickets && Last(h).tickets[t].phase.InProgress?
    requires Calm(Last(h).tickets[t]) && dir(k) !in Last(h).tickets[t].shards && LinkOf(Last(h), t, dir(k)) == IDLE
    requires dir(k) < |Last(h).shards| && t !in Last(h).shards[dir(k)].tickets
    requires Do(Last(h).shards[dir(k)], LockOp(t, k, Write, true)).answers == {}
    ensures Good(dir, g, LATE) && Aside(Last(h), Last(g), u)
    ensures Last(g).shards
            == Last(h).shards[dir(k) := Do(Last(h).shards[dir(k)], LockOp(t, k, Write, true)).shard]
  {
    hide Lawful, KeepsAt, Open, Do, BrokerSpec.TryLock;
    AsksFirst(Last(h).tickets[t], dir(k), k, Write);
    g := Ask(dir, h, AskLock(t, k, Write), u, LATE);
    hide Possible;
    var more;
    g, more := Serve(dir, g, t, dir(k), TryLockReq(k, Write, true), u, LATE);
  }

  /** `a` waits for `b`, which is prepared and cannot be wounded. Then the client of `b`, which has
      asked to commit, asks for the key of `a`, and `b` waits for `a`. */
  lemma LateDeadlock(dir: Key -> ShardId, count: nat, a: Ticket, b: Ticket, j: Key, k: Key) returns (h: History)
    requires Spread(dir, count, j, k) && a < b
    ensures Good(dir, h, LATE) && Circle(Last(h), [a, b, a]) && Straddles(Last(h), b)
  {
    hide Lawful, KeepsAt, Do, W.WaitsFor, W.Waiting, WaitsFor, Straddles;
    h := OnePrepared(dir, count, a, b, j, k);
    LockTaken(Held(j, b), b, a, j);
    h := Waits(dir, h, a, j, b);
    LockTaken(Locked(k, a), a, b, k);
    h := Waits(dir, h, b, k, a);
    Crossed(Last(h), dir(j), dir(k), a, b);
  }

  lemma Crossed(sys: System, s: ShardId, s': ShardId, a: Ticket, b: Ticket)
    requires s < |sys.shards| && s' < |sys.shards| && Has(sys.shards[s], b, Prepared)
    requires W.WaitsFor(sys.shards[s], a, b) && W.WaitsFor(sys.shards[s'], b, a)
    ensures WaitsFor(sys, a, b) && WaitsFor(sys, b, a) && Straddles(sys, b)
  {
    hide W.WaitsFor, W.Waiting;
    WaiterIsQueued(sys.shards[s'], b, a);
  }
}
