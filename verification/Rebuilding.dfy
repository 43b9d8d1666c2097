/** Recovery of a runtime locking shard from the replicated state, as the loops of
    src/parsec/runtime_locking_shard/impl.cpp fill the two tables of the shard object. */
module Rebuilding {
  import opened Basics
  import opened LockTable
  import opened ShardSpec
  import opened ShardSteps
  import opened Replication
  import opened RuntimeLockingShards

  /** A shard that knows a ticket has seen a key: recovery refuses a shard in which both tables
      hold something, which is the same as refusing one that knows a ticket. */
  predicate Populated(s: Shard) { s.tickets != map[] ==> s.elements != map[] }

  lemma StepKeepsPopulated(s: Shard, op: Op)
    requires Inv(s) && Enabled(s, op) && Populated(s)
    ensures Populated(Do(s, op).shard)
  {
    var r := Do(s, op).shard;
    StepIsRelock(s, op);
    if s.elements != map[] {
      var k :| k in s.elements;
      assert k in Staged(s, op) && k in r.elements;
    } else if op.TryLockOp? && r.tickets != map[] {
      assert op.key in r.elements;
    }
  }

  /** The element table after the replicated values were entered; values already there stay. */
  function Filled(before: map<Key, Element>, state: map<Key, Value>): map<Key, Element> {
    map k | k in before.Keys + state.Keys :: if k in before then before[k] else Element(state[k], FREE)
  }

  method FillValues(before: map<Key, Element>, state: map<Key, Value>) returns (e: map<Key, Element>)
    ensures e == Filled(before, state)
  {
    e := before;
    var left := state.Keys;
    while left != {}
      invariant left <= state.Keys
      invariant e == Filled(before, state - left)
      decreases |left|
    {
      var k :| k in left;
      FillOne(before, state, left, k);
      hide Filled;
      if k !in e {
        e := e[k := Element(state[k], FREE)];
      }
      left := left - {k};
    }
    assert state - left == state;
  }

  lemma FillOne(before: map<Key, Element>, state: map<Key, Value>, left: set<Key>, k: Key)
    requires left <= state.Keys && k in left
    ensures var e := Filled(before, state - left);
            Filled(before, state - (left - {k})) == if k in e then e else e[k := Element(state[k], FREE)]
  {
  }

  /** The element table after `t` was made the writer of the keys of its update. */
  function Locked(e: map<Key, Element>, t: Ticket, update: map<Key, Value>): map<Key, Element> {
    map k | k in e.Keys + update.Keys ::
      if k in update then Element(ElementAt(e, k).value, ElementAt(e, k).lock.(writer := Some(t))) else e[k]
  }

  function WriteLocks(update: map<Key, Value>): map<Key, LockType> { map k | k in update :: Write }

  method LockUpdate(e: map<Key, Element>, t: Ticket, update: map<Key, Value>)
    returns (r: map<Key, Element>, held: map<Key, LockType>)
    ensures r == Locked(e, t, update) && held == WriteLocks(update)
  {
    r, held := e, map[];
    var left := update.Keys;
    assert update - left == map[];
    while left != {}
      invariant left <= update.Keys
      invariant r == Locked(e, t, update - left) && held == WriteLocks(update - left)
      decreases |left|
    {
      var k :| k in left;
      LockOne(e, t, update, left, k);
      hide Locked, WriteLocks;
      held := held[k := Write];
      r := r[k := Element(ElementAt(r, k).value, ElementAt(r, k).lock.(writer := Some(t)))];
      left := left - {k};
    }
    assert update - left == update;
  }

  lemma LockOne(e: map<Key, Element>, t: Ticket, update: map<Key, Value>, left: set<Key>, k: Key)
    requires left <= update.Keys && k in left
    ensures var r, held := Locked(e, t, update - left), WriteLocks(update - left);
            && Locked(e, t, update - (left - {k}))
                 == r[k := Element(ElementAt(r, k).value, ElementAt(r, k).lock.(writer := Some(t)))]
            && WriteLocks(update - (left - {k})) == held[k := Write]
  {
  }

  // ---- The loop over the replicated tickets ----

  function RecordFrom(x: ReplTicket): Record {
    Record(InfoOf(x), if x.committed then map[] else WriteLocks(x.update), {})
  }

  function RecordsFrom(r: Replica): map<Ticket, Record> { map t | t in r.tickets :: RecordFrom(r.tickets[t]) }

  /** The two tables rebuilt from a replica. */
  ghost predicate Rebuilds(before: map<Key, Element>, r: Replica, e: map<Key, Element>, tickets: map<Ticket, Record>) {
    tickets == RecordsFrom(r) && forall k :: RebuiltAt(before, r, e, k)
  }

  lemma RebuildsShard(before: map<Key, Element>, r: Replica, e: map<Key, Element>, tickets: map<Ticket, Record>)
    requires Rebuilds(before, r, e, tickets)
    ensures Rebuilt(before, r, Shard(e, Infos(tickets)))
  {
    assert Infos(tickets) == InfosOf(r);
  }

  predicate AllFree(e: map<Key, Element>) { forall k :: k in e ==> e[k].lock == FREE }

  lemma RebuildStarts(before: map<Key, Element>, state: map<Key, Value>)
    requires AllFree(before)
    ensures Rebuilds(before, Replica(state, map[]), Filled(before, state), map[])
  {
  }

  lemma RebuildOne(before: map<Key, Element>, r: Replica, e: map<Key, Element>, tickets: map<Ticket, Record>,
                   t: Ticket, x: ReplTicket)
    requires Rebuilds(before, r, e, tickets) && t !in r.tickets
    ensures Rebuilds(before, r.(tickets := r.tickets[t := x]), if x.committed then e else Locked(e, t, x.update),
            tickets[t := RecordFrom(x)])
  {
    var r' := r.(tickets := r.tickets[t := x]);
    var e' := if x.committed then e else Locked(e, t, x.update);
    assert tickets[t := RecordFrom(x)] == RecordsFrom(r');
    hide RebuiltAt;
    forall k ensures RebuiltAt(before, r', e', k) {
      assert RebuiltAt(before, r, e, k);
      RebuildKey(before, r, e, t, x, k);
    }
  }

  lemma WrittenBy(r: Replica, t: Ticket, x: ReplTicket, k: Key)
    requires t !in r.tickets
    ensures Writers(r.(tickets := r.tickets[t := x]), k)
            == Writers(r, k) + (if !x.committed && k in x.update then {t} else {})
  {
    var r' := r.(tickets := r.tickets[t := x]);
    forall u ensures u in Writers(r', k) <==> u in Writers(r, k) || (u == t && !x.committed && k in x.update) {}
  }

  lemma RebuildKey(before: map<Key, Element>, r: Replica, e: map<Key, Element>, t: Ticket, x: ReplTicket, k: Key)
    requires t !in r.tickets && RebuiltAt(before, r, e, k)
    ensures RebuiltAt(before, r.(tickets := r.tickets[t := x]), if x.committed then e else Locked(e, t, x.update), k)
  {
    WrittenBy(r, t, x, k);
    hide Writers;
    if !x.committed && k in x.update {
      assert t in Writers(r.(tickets := r.tickets[t := x]), k);
    }
  }

  lemma RebuiltTables(before: map<Key, Element>, r: Replica, e: map<Key, Element>, tickets: map<Ticket, Record>)
    requires Rebuilds(before, r, e, tickets) && Disjoint(r)
    ensures Tables(e, tickets) && Inv(Shard(e, Infos(tickets)))
  {
    var s := Shard(e, Infos(tickets));
    RebuildsShard(before, r, e, tickets);
    forall t, k ensures OwnsKey(r, e, t, k) { RebuiltOwner(before, r, s, t, k); }
    hide Rebuilt, Disjoint, RebuiltAt;
    forall t, k | t in tickets ensures Linked(e, tickets[t], t, k) { assert OwnsKey(r, e, t, k); }
    forall k, t | k in e && Mentions(e[k].lock, t) ensures t in tickets { assert OwnsKey(r, e, t, k); }
    hide Rebuilds, Linked;
    forall k | k in e ensures LockInv(s, k) { OwnedLockInv(r, s, k); }
    forall t, k | Has(s, t, Prepared) && k in s.tickets[t].update ensures k in s.elements
      && HoldsWrite(s.elements[k].lock, t) {
      assert OwnsKey(r, e, t, k);
    }
  }

  /** A ticket holds the lock of a key exactly if it is going to write it. */
  ghost predicate OwnsKey(r: Replica, e: map<Key, Element>, t: Ticket, k: Key) {
    && (Writes(r, t, k) ==> k in e)
    && (k in e ==>
          e[k].lock.readers == {} && e[k].lock.queue == map[] && (HoldsWrite(e[k].lock, t)
          <==> Writes(r, t, k)))
  }

  lemma RebuiltOwner(before: map<Key, Element>, r: Replica, s: Shard, t: Ticket, k: Key)
    requires Rebuilt(before, r, s) && Disjoint(r)
    ensures OwnsKey(r, s.elements, t, k)
  {
    assert RebuiltAt(before, r, s.elements, k);
    hide Rebuilt;
    if Writes(r, t, k) {
      assert t in Writers(r, k);
    }
    if k in s.elements {
      var l := s.elements[k].lock;
      if l.writer.Some? { assert l.writer.value in Writers(r, k); }
    }
  }

  lemma OwnedLockInv(r: Replica, s: Shard, k: Key)
    requires k in s.elements && forall t :: OwnsKey(r, s.elements, t, k)
    requires s.tickets == InfosOf(r)
    ensures LockInv(s, k)
  {
    var l := s.elements[k].lock;
    assert OwnsKey(r, s.elements, 0, k);
    if l.writer.Some? { assert OwnsKey(r, s.elements, l.writer.value, k); }
  }

  /** Rebuilds both tables from the replicated state. A shard that already knows tickets is
      left alone. When no two prepared tickets share a key, the tables agree and all
      invariants of the shard hold. */
  method Recover(shard: RuntimeLockingShard, state: map<Key, Value>, replicated: map<Ticket, ReplTicket>)
    returns (ok: bool)
    requires shard.Valid() && Populated(shard.Abs())
    modifies shard
    ensures ok <==> old(shard.tickets) == map[]
    ensures !ok ==> shard.Abs() == old(shard.Abs()) && shard.Valid()
    ensures ok ==> Rebuilds(old(shard.elements), Replica(state, replicated), shard.elements, shard.tickets)
    ensures ok && Disjoint(Replica(state, replicated)) ==> shard.Valid()
  {
    if shard.tickets != map[] && shard.elements != map[] {
      return false;
    }
    KnowsNobody(shard.elements, shard.tickets);
    ghost var before := shard.elements;
    shard.elements, shard.tickets := FillTables(shard.elements, state, replicated);
    if Disjoint(Replica(state, replicated)) {
      RebuiltTables(before, Replica(state, replicated), shard.elements, shard.tickets);
    }
    ok := true;
  }

  method FillTables(before: map<Key, Element>, state: map<Key, Value>, replicated: map<Ticket, ReplTicket>)
    returns (e: map<Key, Element>, tickets: map<Ticket, Record>)
    requires AllFree(before)
    ensures Rebuilds(before, Replica(state, replicated), e, tickets)
  {
    hide Rebuilds, Locked, Filled, AllFree;
    RebuildStarts(before, state);
    e := FillValues(before, state);
    tickets := map[];
    var todo := replicated.Keys;
    assert replicated - todo == map[];
    while todo != {}
      invariant todo <= replicated.Keys
      invariant Rebuilds(before, Replica(state, replicated - todo), e, tickets)
      decreases |todo|
    {
      var t :| t in todo;
      var x := replicated[t];
      RebuildOne(before, Replica(state, replicated - todo), e, tickets, t, x);
      assert (replicated - todo)[t := x] == replicated - (todo - {t});
      var held: map<Key, LockType> := map[];
      if !x.committed {
        e, held := LockUpdate(e, t, x.update);
      }
      tickets := tickets[t := Record(InfoOf(x), held, {})];
      todo := todo - {t};
    }
    assert replicated - todo == replicated;
  }

  /** A shard without tickets has nothing locked. */
  lemma KnowsNobody(e: map<Key, Element>, tickets: map<Ticket, Record>)
    requires Tables(e, tickets) && Populated(Shard(e, Infos(tickets))) && (tickets == map[] || e == map[])
    ensures tickets == map[] && AllFree(e)
  {
    assert Infos(tickets).Keys == tickets.Keys;
    forall k | k in e ensures e[k].lock == FREE {
      var l := e[k].lock;
      assert forall t :: Mentions(e[k].lock, t) ==> t in tickets;
      if l.writer.Some? { assert Mentions(l, l.writer.value); }
      if r :| r in l.readers { assert Mentions(l, r); }
      if q :| q in l.queue { assert Mentions(l, q); }
    }
  }
}
