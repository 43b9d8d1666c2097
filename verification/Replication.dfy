/** The replicated record of prepared and committed tickets
    (src/parsec/runtime_locking_shard/replicated_shard.cpp), as the fold of a log, and the shard
    that `recover` rebuilds from it (src/parsec/runtime_locking_shard/impl.cpp). */
module Replication {
  import opened Basics
  import opened LockTable
  import opened ShardSpec
  import opened ShardRuns

  datatype ReplTicket = ReplTicket(broker: nat, update: map<Key, Value>, committed: bool)

  datatype Replica = Replica(state: map<Key, Value>, tickets: map<Ticket, ReplTicket>)

  datatype Entry =
    | PrepareEntry(ticket: Ticket, broker: nat, update: map<Key, Value>)
    | CommitEntry(ticket: Ticket)
    | FinishEntry(ticket: Ticket)

  const EMPTY_REPLICA := Replica(map[], map[])

  predicate IsPrepared(r: Replica, t: Ticket) { t in r.tickets && !r.tickets[t].committed }

  predicate IsCommitted(r: Replica, t: Ticket) { t in r.tickets && r.tickets[t].committed }

  /** The values of an update after they have been moved out of it. */
  function MovedFrom(update: map<Key, Value>): map<Key, Value> { map k | k in update :: EMPTY }

  /** What the replicas make of one log entry. A ticket that is known is not prepared again;
      a commit moves the values of the update into the state. */
  function Enter(r: Replica, e: Entry): Replica {
    match e
    case PrepareEntry(t, broker, update) =>
      if t in r.tickets then r else r.(tickets := r.tickets[t := ReplTicket(broker, update, false)])
    case CommitEntry(t) =>
      if t !in r.tickets then r
      else
        var x := r.tickets[t];
        Replica(r.state + x.update, r.tickets[t := x.(committed := true, update := MovedFrom(x.update))])
    case FinishEntry(t) => r.(tickets := r.tickets - {t})
  }

  /** The replica after a log. */
  function After(r: Replica, log: seq<Entry>): Replica {
    if log == [] then r else Enter(After(r, log[..|log| - 1]), log[|log| - 1])
  }

  lemma AfterAppend(r: Replica, log: seq<Entry>, e: Entry)
    ensures After(r, log + [e]) == Enter(After(r, log), e)
  {
    assert (log + [e])[..|log|] == log;
  }

  // ---- Committing twice ----

  /** Committing a known ticket a second time leaves the values alone if and only if it wrote
      nothing but empty values. */
  lemma CommitTwice(r: Replica, t: Ticket)
    requires t in r.tickets
    ensures var once := Enter(r, CommitEntry(t));
            Enter(once, CommitEntry(t)).state == once.state <==> forall k :: k in r.tickets[t].update ==>
              r.tickets[t].update[k] == EMPTY
  {
    var once := Enter(r, CommitEntry(t));
    var twice := Enter(once, CommitEntry(t));
    var update := r.tickets[t].update;
    forall k | k in update ensures k in once.state && once.state[k] == update[k] && k in twice.state
      && twice.state[k] == EMPTY {}
    if forall k :: k in update ==> update[k] == EMPTY {
      assert twice.state == once.state;
    } else {
      var k :| k in update && update[k] != EMPTY;
      assert twice.state[k] != once.state[k];
    }
  }

  // ---- Rebuilding a shard ----

  /** No two prepared tickets write the same key. */
  ghost predicate Disjoint(r: Replica) {
    forall t, u, k :: IsPrepared(r, t) && IsPrepared(r, u) && k in r.tickets[t].update && k in r.tickets[u].update ==>
      t == u
  }

  predicate Writes(r: Replica, t: Ticket, k: Key) { IsPrepared(r, t) && k in r.tickets[t].update }

  function Writers(r: Replica, k: Key): set<Ticket> { set t | t in r.tickets && Writes(r, t, k) }

  function InfoOf(x: ReplTicket): TicketInfo {
    TicketInfo(if x.committed then Committed else Prepared, x.update, x.broker, None)
  }

  /** The lock of a key in a rebuilt shard: held for writing by the ticket that will write it. */
  ghost predicate RebuiltLock(r: Replica, k: Key, l: RwLock) {
    && l.readers == {} && l.queue == map[]
    && (l.writer.None? <==> Writers(r, k) == {})
    && (l.writer.Some? ==> l.writer.value in Writers(r, k))
  }

  function InfosOf(r: Replica): map<Ticket, TicketInfo> { map t | t in r.tickets :: InfoOf(r.tickets[t]) }

  /** What recovery makes of one key. */
  ghost predicate RebuiltAt(before: map<Key, Element>, r: Replica, e: map<Key, Element>, k: Key) {
    && (k in e <==> k in before || k in r.state || Writers(r, k) != {})
    && (k in e ==>
          e[k].value == (if k in before then before[k].value else Lookup(r.state, k))
          && RebuiltLock(r, k, e[k].lock))
  }

  /** `s` is what recovery makes of a replica on a shard that held the elements `before`: values
      that are already there stay. */
  ghost predicate Rebuilt(before: map<Key, Element>, r: Replica, s: Shard) {
    s.tickets == InfosOf(r) && forall k :: RebuiltAt(before, r, s.elements, k)
  }

  /** Rebuilding an empty shard gives exactly the replicated values, and every prepared ticket
      holds write locks on exactly the keys of its update; all lock-table invariants hold. */
  lemma RebuiltShard(r: Replica, s: Shard)
    requires Disjoint(r) && Rebuilt(map[], r, s)
    ensures Inv(s)
    ensures forall k :: ValueOf(s, k) == Lookup(r.state, k)
    ensures forall t, k :: Holds(LockOf(s, k), t) <==> Writes(r, t, k)
    ensures forall t, k :: Holds(LockOf(s, k), t) ==> HoldsWrite(LockOf(s, k), t)
    ensures forall t, k :: t !in LockOf(s, k).queue
  {
    hide Rebuilt, Disjoint, LockInv;
    forall t, k ensures RebuiltFacts(r, s, t, k) {
      RebuiltHolds(r, s, t, k);
    }
    hide Writes;
    forall k | k in s.elements ensures LockInv(s, k) {
      RebuiltLockInv(r, s, k);
    }
    forall t, k | Has(s, t, Prepared) && k in s.tickets[t].update ensures k in s.elements
      && HoldsWrite(s.elements[k].lock, t) {
      assert RebuiltFacts(r, s, t, k);
    }
    forall t, k ensures Holds(LockOf(s, k), t) <==> Writes(r, t, k) { assert RebuiltFacts(r, s, t, k); }
    forall t, k ensures Holds(LockOf(s, k), t) ==> HoldsWrite(LockOf(s, k), t) { assert RebuiltFacts(r, s, t, k); }
    forall t, k ensures t !in LockOf(s, k).queue { assert RebuiltFacts(r, s, t, k); }
    forall k ensures ValueOf(s, k) == Lookup(r.state, k) { assert RebuiltFacts(r, s, 0, k); }
  }

  /** What one key of a rebuilt shard means to one ticket. */
  ghost predicate RebuiltFacts(r: Replica, s: Shard, t: Ticket, k: Key) {
    && LockOf(s, k).readers == {} && LockOf(s, k).queue == map[]
    && (HoldsWrite(LockOf(s, k), t) <==> Writes(r, t, k))
    && (Has(s, t, Prepared) && k in s.tickets[t].update <==> Writes(r, t, k))
    && (Writes(r, t, k) ==> k in s.elements)
    && ValueOf(s, k) == Lookup(r.state, k)
  }

  lemma RebuiltHolds(r: Replica, s: Shard, t: Ticket, k: Key)
    requires Disjoint(r) && Rebuilt(map[], r, s)
    ensures RebuiltFacts(r, s, t, k)
  {
    assert RebuiltAt(map[], r, s.elements, k);
    hide Rebuilt;
    if Writes(r, t, k) {
      assert t in Writers(r, k);
    }
    if k in s.elements {
      var l := s.elements[k].lock;
      if l.writer.Some? {
        assert l.writer.value in Writers(r, k);
      }
    }
  }

  lemma RebuiltLockInv(r: Replica, s: Shard, k: Key)
    requires k in s.elements && forall t :: RebuiltFacts(r, s, t, k)
    ensures LockInv(s, k)
  {
    var l := s.elements[k].lock;
    assert RebuiltFacts(r, s, 0, k);
    if l.writer.Some? {
      assert RebuiltFacts(r, s, l.writer.value, k);
    }
  }

  /** Recovery is refused only when both tables hold something. On a shard that holds values but
      no tickets it goes ahead, and is exact if and only if those values are the replicated ones. */
  lemma RebuiltOnto(before: map<Key, Element>, r: Replica, s: Shard)
    requires Rebuilt(before, r, s)
    ensures (forall k :: ValueOf(s, k) == Lookup(r.state, k)) <==> forall k :: k in before ==>
            before[k].value == Lookup(r.state, k)
  {
    forall k ensures ValueOf(s, k) == if k in before then before[k].value else Lookup(r.state, k) {
      assert RebuiltAt(before, r, s.elements, k);
    }
  }
}

/** The replicated shard as an object that its three operations update in place. */
module ReplicatedShards {
  import opened Basics
  import opened Replication

  class ReplicatedShard {
    var state: map<Key, Value>
    var tickets: map<Ticket, ReplTicket>

    ghost function Abs(): Replica
      reads this
    {
      Replica(state, tickets)
    }

    constructor ()
      ensures Abs() == EMPTY_REPLICA
    {
      state, tickets := map[], map[];
    }

    method Prepare(t: Ticket, broker: nat, update: map<Key, Value>)
      modifies this
      ensures Abs() == Enter(old(Abs()), PrepareEntry(t, broker, update))
    {
      if t !in tickets {
        tickets := tickets[t := ReplTicket(broker, update, false)];
      }
    }

    /** Returns whether the ticket was known. */
    method Commit(t: Ticket) returns (known: bool)
      modifies this
      ensures known == (t in old(tickets))
      ensures Abs() == Enter(old(Abs()), CommitEntry(t))
    {
      if t !in tickets {
        return false;
      }
      tickets := tickets[t := tickets[t].(committed := true)];
      var x := tickets[t];
      var moved;
      state, moved := MoveInto(state, x.update);
      tickets := tickets[t := x.(update := moved)];
      known := true;
    }

    method Finish(t: Ticket)
      modifies this
      ensures Abs() == Enter(old(Abs()), FinishEntry(t))
    {
      tickets := tickets - {t};
    }
  }

  /** The state while the values of the keys in `left` have not been moved into it yet. */
  ghost function Merged(state: map<Key, Value>, update: map<Key, Value>, left: set<Key>): map<Key, Value> {
    state + (update - left)
  }

  /** The update while the values of the keys in `left` have not been moved out of it yet. */
  ghost function PartlyMoved(update: map<Key, Value>, left: set<Key>): map<Key, Value> {
    map k | k in update :: if k in left then update[k] else EMPTY
  }

  lemma MoveOne(state: map<Key, Value>, update: map<Key, Value>, left: set<Key>, k: Key)
    requires left <= update.Keys && k in left
    ensures k in PartlyMoved(update, left) && PartlyMoved(update, left)[k] == update[k]
    ensures PartlyMoved(update, left - {k}) == PartlyMoved(update, left)[k := EMPTY]
    ensures Merged(state, update, left - {k}) == Merged(state, update, left)[k := update[k]]
  {
  }

  lemma MoveEnds(state: map<Key, Value>, update: map<Key, Value>)
    ensures Merged(state, update, update.Keys) == state && PartlyMoved(update, update.Keys) == update
    ensures Merged(state, update, {}) == state + update && PartlyMoved(update, {}) == MovedFrom(update)
  {
  }

  /** Moves every value of an update into the state. */
  method MoveInto(state: map<Key, Value>, update: map<Key, Value>) returns (r: map<Key, Value>, moved: map<Key, Value>)
    ensures r == state + update && moved == MovedFrom(update)
  {
    hide Merged, PartlyMoved;
    MoveEnds(state, update);
    r, moved := state, update;
    var left := update.Keys;
    while left != {}
      invariant left <= update.Keys
      invariant r == Merged(state, update, left) && moved == PartlyMoved(update, left)
      decreases |left|
    {
      var k :| k in left;
      MoveOne(state, update, left, k);
      r := r[k := moved[k]];
      moved := moved[k := EMPTY];
      left := left - {k};
    }
  }
}
