/** The decided tickets, in the order of their decisions, explain every value in the system:
    what the clients were told and what the shards hold. Every event keeps it so. */
module Serializability {
  import opened Basics
  import opened LockTable
  import opened ShardSpec
  import opened ShardSteps
  import opened ShardRuns
  import opened BrokerSpec
  import opened Links
  import opened BrokerLinks
  import opened ShardLinks
  import opened Systems

  /** A decided write that the shard of the key has not applied yet. */
  predicate Pending(dir: Key -> ShardId, sys: System, t: Ticket, k: Key) {
    && dir(k) < |sys.shards| && InOrder(sys.order, t)
    && Has(sys.shards[dir(k)], t, Prepared) && k in sys.shards[dir(k)].tickets[t].update
  }

  ghost predicate Settled(dir: Key -> ShardId, sys: System, k: Key) { forall t :: !Pending(dir, sys, t, k) }

  /** The value of a key in the serial run of the decided tickets, seen from its shard. */
  ghost predicate ValueOk(dir: Key -> ShardId, init: map<Key, Value>, sys: System, k: Key) {
    dir(k) < |sys.shards| ==>
      var v, sh := Lookup(Replay(init, sys.order), k), sys.shards[dir(k)];
      && (forall t :: Pending(dir, sys, t, k) ==> sh.tickets[t].update[k] == v)
      && (Settled(dir, sys, k) ==> ValueOf(sh, k) == v)
  }

  /** The order lists the decided tickets, each once, with what they were told and wrote. */
  ghost predicate Listed(sys: System) {
    && (forall i :: 0 <= i < |sys.order| ==>
          var x := sys.order[i];
          x.ticket in sys.clients && sys.clients[x.ticket] == Client(x.seen, Some(x.writes)))
    && (forall i, j :: 0 <= i < j < |sys.order| ==> sys.order[i].ticket != sys.order[j].ticket)
    && (forall t :: t in sys.tickets ==> (Decided(RecordOf(sys, t)) <==> InOrder(sys.order, t)))
  }

  ghost predicate Touches(x: Txn, k: Key) { k in x.writes || exists v :: (k, v) in x.seen }

  /** While a decided write waits at its shard, the shard has the value from before the ticket,
      and no ticket decided later has anything to do with the key. */
  ghost predicate Fenced(dir: Key -> ShardId, init: map<Key, Value>, sys: System, i: nat, k: Key) {
    i < |sys.order| && Pending(dir, sys, sys.order[i].ticket, k) ==>
      && ValueOf(sys.shards[dir(k)], k) == Lookup(Replay(init, sys.order[..i]), k)
      && forall j :: i < j < |sys.order| ==> !Touches(sys.order[j], k)
  }

  ghost predicate KeyOk(dir: Key -> ShardId, init: map<Key, Value>, sys: System, k: Key) {
    ValueOk(dir, init, sys, k) && forall i :: Fenced(dir, init, sys, i, k)
  }

  ghost predicate SystemInv(dir: Key -> ShardId, init: map<Key, Value>, sys: System) {
    && Wired(dir, sys) && Listed(sys) && SerialReads(init, sys.order)
    && forall k :: KeyOk(dir, init, sys, k)
  }

  // ---- Steps that decide nothing ----

  /** A step that decides nothing leaves the order and the values alone. */
  lemma Undecided(dir: Key -> ShardId, init: map<Key, Value>, sys: System, r: System)
    requires forall k :: KeyOk(dir, init, sys, k)
    requires r.order == sys.order && r.shards == sys.shards
    ensures forall k :: KeyOk(dir, init, r, k)
  {
    hide Replay, InOrder, Touches;
    forall k ensures KeyOk(dir, init, r, k) {
      assert KeyOk(dir, init, sys, k);
      assert forall t :: Pending(dir, sys, t, k) <==> Pending(dir, r, t, k);
      forall i ensures Fenced(dir, init, r, i, k) { assert Fenced(dir, init, sys, i, k); }
    }
  }

  /** What a broker step does to a ticket's being decided, and to its client's account. */
  ghost predicate FairStep(b: TicketState, c: Client, step: Step, c': Client) {
    && (Decided(Some(b)) ==> c' == c && (step.state.Some? ==> Decided(step.state)))
    && (!Decided(Some(b)) && Decided(step.state) ==> c' == c && c.update.Some?)
  }

  lemma BrokeredListed(sys: System, t: Ticket, step: Step, c: Client)
    requires Listed(sys) && t in sys.tickets && t in sys.clients && FairStep(sys.tickets[t], ClientAt(sys, t), step, c)
    ensures Listed(Brokered(sys, t, step, c))
  {
    var r := Brokered(sys, t, step, c);
    BrokeredFrame(sys, t, step, c);
    if |r.order| == |sys.order| {
      assert r.order == sys.order;
    } else {
      assert forall t' :: InOrder(r.order, t') <==> InOrder(sys.order, t') || t' == t by {
        assert r.order == sys.order + [r.order[|sys.order|]];
        forall t' | InOrder(sys.order, t') ensures InOrder(r.order, t') {
          var i :| 0 <= i < |sys.order| && sys.order[i].ticket == t';
          assert r.order[i].ticket == t';
        }
        assert r.order[|sys.order|].ticket == t;
      }
    }
    forall t' | t' in r.tickets ensures Decided(RecordOf(r, t')) <==> InOrder(r.order, t') {
      if t' != t { assert t' in sys.tickets && RecordOf(r, t') == RecordOf(sys, t'); }
    }
  }

  lemma AskFair(dir: Key -> ShardId, b: TicketState, c: Client, k: Key, ty: LockType, update: map<Key, Value>)
    ensures var step := BrokerSpec.TryLock(b, dir(k), k, ty);
            FairStep(b, c, step, Told(ClientOfLock(b, c), k, step.reply)) && (Decided(step.state) ==> Decided(Some(b)))
    ensures FairStep(b, c, BrokerSpec.Commit(b, update), ClientOfCommit(b, c, update))
            && (Decided(BrokerSpec.Commit(b, update).state) ==> Decided(Some(b)))
    ensures FairStep(b, c, BrokerSpec.Rollback(b), c) && (Decided(BrokerSpec.Rollback(b).state) ==> Decided(Some(b)))
    ensures FairStep(b, c, BrokerSpec.Finish(b), c) && (Decided(BrokerSpec.Finish(b).state) ==> Decided(Some(b)))
  {
    hide ToOthers, KeysOf, BrokerSpec.Waiting, AllIn;
  }

  lemma ReceiveFair(dir: Key -> ShardId, b: TicketState, c: Client, t: Ticket, s: ShardId, sh: Shard, link: Link)
    requires TicketInv(dir, b, c) && LinkInv(dir, Some(b), c, t, s, sh, link) && link.resps != []
    ensures var step := Receive(b, s, link);
            FairStep(b, c, step, ClientOfResponse(c, link.resps[0], step.reply))
  {
    ReceiveTicket(dir, b, c, t, s, sh, link);
    if link.resps[0].LockValue? {
      ValueFromOwnShard(dir, b, c, t, s, sh, link);
    }
    hide LinkInv, Advance, ToOthers, AllIn, SomeIn, Covered;
  }

  // ---- The decision ----

  /** When a broker decides, every shard it lists holds the ticket prepared. */
  lemma DecisionShards(dir: Key -> ShardId, b: TicketState, c: Client, t: Ticket,
                       s0: ShardId, link0: Link, s: ShardId, sh: Shard, link: Link)
    requires TicketInv(dir, b, c) && LinkInv(dir, Some(b), c, t, s, sh, link) && link0.resps != []
    requires !Decided(Some(b)) && Decided(Receive(b, s0, link0).state)
    requires s in b.shards && (s == s0 ==> link == link0)
    ensures Active(dir, c, t, s, sh, link, b.shards[s]) && Has(sh, t, Prepared)
  {
    var r := link0.resps[0];
    assert r in link0.resps;
    assert r == PrepareDone(None) && s0 in b.shards && b.shards[s0].phase.Preparing?;
    SameShardState(b, s0);
    var b' := SetPhase(b, s0, AtPrepared);
    assert AllIn(b', AtPrepared);
    assert s in b'.shards && b'.shards[s].phase.AtPrepared?;
  }

  /** What the decision says about the shard of one key. */
  ghost predicate KeyDecided(sh: Shard, t: Ticket, c: Client, k: Key) {
    && c.update.Some?
    && (k in c.update.value ==>
          Has(sh, t, Prepared) && k in sh.tickets[t].update
          && sh.tickets[t].update[k] == c.update.value[k])
    && (k !in c.update.value && Has(sh, t, Prepared) ==> k !in sh.tickets[t].update)
    && (forall v :: (k, v) in c.told ==> Has(sh, t, Prepared) && Holds(LockOf(sh, k), t) && ValueOf(sh, k) == v)
  }

  lemma DecisionKeys(dir: Key -> ShardId, sys: System, t: Ticket, s0: ShardId, k: Key)
    requires Wired(dir, sys) && t in sys.tickets && s0 < |sys.shards| && LinkOf(sys, t, s0).resps != []
             && dir(k) < |sys.shards|
    requires !Decided(Some(sys.tickets[t])) && Decided(Receive(sys.tickets[t], s0, LinkOf(sys, t, s0)).state)
    ensures KeyDecided(sys.shards[dir(k)], t, ClientAt(sys, t), k)
  {
    var b, c, s, link0 := sys.tickets[t], ClientAt(sys, t), dir(k), LinkOf(sys, t, s0);
    assert CellOk(dir, sys, t, s) && CellOk(dir, sys, t, s0);
    ReceiveFair(dir, b, c, t, s0, sys.shards[s0], link0);
    if s in b.shards {
      DecisionShards(dir, b, c, t, s0, link0, s, sys.shards[s], LinkOf(sys, t, s));
    }
  }

  /** Two tickets that hold a key, one of them prepared to write it, are the same ticket. */
  lemma WriterIsSole(sh: Shard, t: Ticket, t': Ticket, k: Key)
    requires Inv(sh) && Has(sh, t, Prepared) && k in sh.tickets[t].update && Holds(LockOf(sh, k), t')
    ensures t == t'
  {
    assert HoldsWrite(LockOf(sh, k), t);
    assert k in sh.elements && LockInv(sh, k);
  }

  lemma PreparedHolds(sh: Shard, t: Ticket, k: Key)
    requires Inv(sh) && Has(sh, t, Prepared) && k in sh.tickets[t].update
    ensures Holds(LockOf(sh, k), t)
  {
  }

  /** A key that a ticket holds at its decision has no other decided write waiting. */
  lemma HeldIsSettled(dir: Key -> ShardId, sys: System, t: Ticket, k: Key)
    requires dir(k) < |sys.shards| && Inv(sys.shards[dir(k)]) && !InOrder(sys.order, t)
             && Holds(LockOf(sys.shards[dir(k)], k), t)
    ensures Settled(dir, sys, k)
  {
    hide Inv, InOrder;
    forall t' ensures !Pending(dir, sys, t', k) {
      if Pending(dir, sys, t', k) { WriterIsSole(sys.shards[dir(k)], t', t, k); }
    }
  }

  lemma DecidedHolds(sh: Shard, t: Ticket, c: Client, k: Key)
    requires Inv(sh) && KeyDecided(sh, t, c, k) && Touches(Txn(t, c.told, c.update.value), k)
    ensures Holds(LockOf(sh, k), t)
  {
    if k in c.update.value { PreparedHolds(sh, t, k); }
  }

  /** The system with the ticket `t` appended to the order. */
  ghost predicate Decides(dir: Key -> ShardId, sys: System, r: System, t: Ticket, c: Client, k: Key) {
    && r.shards == sys.shards && !InOrder(sys.order, t) && dir(k) < |sys.shards|
    && c.update.Some? && r.order == sys.order + [Txn(t, c.told, c.update.value)]
    && Inv(sys.shards[dir(k)]) && KeyDecided(sys.shards[dir(k)], t, c, k)
  }

  lemma DecisionPending(dir: Key -> ShardId, sys: System, r: System, t: Ticket, c: Client, k: Key, t': Ticket)
    requires Decides(dir, sys, r, t, c, k)
    ensures Pending(dir, r, t', k) <==> (Pending(dir, sys, t', k) || (t' == t && k in c.update.value))
  {
    hide Inv;
    InOrderGrows(sys.order, Txn(t, c.told, c.update.value), t');
  }

  lemma DecisionValue(dir: Key -> ShardId, init: map<Key, Value>, sys: System, r: System, t: Ticket, c: Client, k: Key)
    requires ValueOk(dir, init, sys, k) && Decides(dir, sys, r, t, c, k)
    ensures ValueOk(dir, init, r, k)
  {
    hide Inv, InOrder;
    var x, sh := Txn(t, c.told, c.update.value), sys.shards[dir(k)];
    assert r.order[..|sys.order|] == sys.order;
    assert Replay(init, r.order) == Replay(init, sys.order) + x.writes;
    forall t' ensures Pending(dir, r, t', k) <==> (Pending(dir, sys, t', k) || (t' == t && k in x.writes)) {
      DecisionPending(dir, sys, r, t, c, k, t');
    }
    if k in x.writes {
      DecidedHolds(sh, t, c, k);
      HeldIsSettled(dir, sys, t, k);
      assert Pending(dir, r, t, k);
    }
  }

  lemma DecisionFence(dir: Key -> ShardId, init: map<Key, Value>, sys: System, r: System, t: Ticket, c: Client,
                      k: Key, i: nat)
    requires KeyOk(dir, init, sys, k) && Decides(dir, sys, r, t, c, k)
    ensures Fenced(dir, init, r, i, k)
  {
    hide Inv, InOrder, Replay, Touches;
    if i < |r.order| && Pending(dir, r, r.order[i].ticket, k) {
      var x, sh := Txn(t, c.told, c.update.value), sys.shards[dir(k)];
      assert r.order[..i] == sys.order[..i];
      if Touches(x, k) {
        DecidedHolds(sh, t, c, k);
        HeldIsSettled(dir, sys, t, k);
      }
      DecisionPending(dir, sys, r, t, c, k, r.order[i].ticket);
      if i == |sys.order| {
        assert sys.order[..i] == sys.order;
        assert k in x.writes ==> Touches(x, k) by { WritesTouch(x, k); }
        assert Pending(dir, sys, t, k) ==> InOrder(sys.order, t);
      } else {
        assert Fenced(dir, init, sys, i, k);
        NotLater(sys, r.order[i].ticket, t, i);
      }
    }
  }

  lemma WritesTouch(x: Txn, k: Key)
    requires k in x.writes
    ensures Touches(x, k)
  {
  }

  lemma NotLater(sys: System, u: Ticket, t: Ticket, i: nat)
    requires i < |sys.order| && sys.order[i].ticket == u && !InOrder(sys.order, t)
    ensures u != t
  {
  }

  /** What the ticket was told is what the serial run of the earlier tickets yields. */
  lemma DecisionReads(dir: Key -> ShardId, init: map<Key, Value>, sys: System, t: Ticket, c: Client, k: Key, v: Value)
    requires ValueOk(dir, init, sys, k) && !InOrder(sys.order, t) && dir(k) < |sys.shards| && Inv(sys.shards[dir(k)])
    requires KeyDecided(sys.shards[dir(k)], t, c, k) && (k, v) in c.told
    ensures Lookup(Replay(init, sys.order), k) == v
  {
    hide Inv, Replay;
    HeldIsSettled(dir, sys, t, k);
  }

  lemma DecisionSerial(init: map<Key, Value>, order: seq<Txn>, x: Txn)
    requires SerialReads(init, order)
    requires forall k, v :: (k, v) in x.seen ==> Lookup(Replay(init, order), k) == v
    ensures SerialReads(init, order + [x])
  {
    hide Replay;
    var r := order + [x];
    forall i, k, v | 0 <= i < |r| && (k, v) in r[i].seen ensures Lookup(Replay(init, r[..i]), k) == v {
      assert r[..i] == order[..i];
      if i == |order| {
        assert order[..i] == order && (k, v) in x.seen;
      } else {
        assert (k, v) in order[i].seen;
      }
    }
  }

  /** The broker's step on a response keeps the committed tickets serial. */
  lemma ReceiveSerial(dir: Key -> ShardId, init: map<Key, Value>, sys: System, t: Ticket, s0: ShardId)
    requires SystemInv(dir, init, sys) && Possible(sys, AtBroker(t, s0)) && t in sys.tickets
    requires forall k :: dir(k) < |sys.shards|
    ensures var r := After(dir, sys, AtBroker(t, s0));
            SerialReads(init, r.order) && forall k :: KeyOk(dir, init, r, k)
  {
    var r := After(dir, sys, AtBroker(t, s0));
    var b, c, link := sys.tickets[t], ClientAt(sys, t), LinkOf(sys, t, s0);
    var step := Receive(b, s0, link);
    assert CellOk(dir, sys, t, s0);
    ReceiveFair(dir, b, c, t, s0, sys.shards[s0], link);
    hide Replay, Handle, LinkInv, TicketInv, SerialReads, ValueOk, Inv, InOrder;
    if !Decided(Some(b)) && Decided(step.state) {
      var x := Txn(t, c.told, c.update.value);
      assert r.order == sys.order + [x];
      forall k ensures Inv(sys.shards[dir(k)]) && KeyDecided(sys.shards[dir(k)], t, c, k) {
        assert ShardOk(dir, sys, dir(k));
        DecisionKeys(dir, sys, t, s0, k);
      }
      forall k ensures KeyOk(dir, init, r, k) {
        assert KeyOk(dir, init, sys, k) && Decides(dir, sys, r, t, c, k);
        DecisionValue(dir, init, sys, r, t, c, k);
        forall i ensures Fenced(dir, init, r, i, k) { DecisionFence(dir, init, sys, r, t, c, k, i); }
      }
      forall k, v | (k, v) in x.seen ensures Lookup(Replay(init, sys.order), k) == v {
        assert KeyOk(dir, init, sys, k);
        DecisionReads(dir, init, sys, t, c, k, v);
      }
      DecisionSerial(init, sys.order, x);
    } else {
      Undecided(dir, init, sys, r);
    }
  }

  // ---- Events at a shard ----

  /** Only the broker's own commit request reaches a prepared ticket, and only once it is decided. */
  lemma CommitIsDecided(dir: Key -> ShardId, b: Option<TicketState>, c: Client, t: Ticket, s: ShardId, sh: Shard,
                        link: Link)
    requires LinkInv(dir, b, c, t, s, sh, link) && link.reqs != [] && link.reqs[0].CommitReq? && Has(sh, t, Prepared)
    ensures Decided(b)
  {
    assert link.reqs[0] in link.reqs;
  }

  /** A decided ticket stays prepared with the same update until its commit. */
  lemma DecidedStays(dir: Key -> ShardId, b: Option<TicketState>, c: Client, t: Ticket, s: ShardId, sh: Shard,
                     link: Link, op: Op)
    requires LinkInv(dir, b, c, t, s, sh, link) && Inv(sh) && Enabled(sh, op) && (b.None? || Decided(b))
    requires op.ticket == t ==> IsNext(op, t, link)
    ensures var r := Do(sh, op).shard;
            && (Has(r, t, Prepared) ==> Has(sh, t, Prepared) && r.tickets[t].update == sh.tickets[t].update)
            && (Has(sh, t, Prepared) && !Has(r, t, Prepared) ==> op == CommitOp(t))
  {
    if op.ticket != t {
      OthersRecords(sh, op, t);
    } else {
      assert link.reqs[0] in link.reqs;
    }
  }

  lemma ShardedPending(dir: Key -> ShardId, sys: System, e: Event, t: Ticket, k: Key)
    requires Wired(dir, sys) && Listed(sys) && e.AtShard? && Possible(sys, e) && dir(k) == e.shard
             && InOrder(sys.order, t)
    ensures var r, sh, sh' := Sharded(sys, e), sys.shards[e.shard], Do(sys.shards[e.shard], EventOp(sys, e)).shard;
            && (Pending(dir, r, t, k) ==> Pending(dir, sys, t, k) && sh'.tickets[t].update == sh.tickets[t].update)
            && (Pending(dir, sys, t, k) && !Pending(dir, r, t, k) ==> EventOp(sys, e) == CommitOp(t))
  {
    hide Do, LinkInv, Inv;
    assert CellOk(dir, sys, t, e.shard) && ShardOk(dir, sys, e.shard);
    if t in sys.lost {
      ShardedLost(dir, sys, e, t);
    } else {
      DecidedStays(dir, RecordOf(sys, t), ClientAt(sys, t), t, e.shard, sys.shards[e.shard], LinkOf(sys, t, e.shard),
        EventOp(sys, e));
    }
  }

  lemma ShardedValue(dir: Key -> ShardId, init: map<Key, Value>, sys: System, e: Event, k: Key)
    requires Wired(dir, sys) && Listed(sys) && ValueOk(dir, init, sys, k) && e.AtShard? && Possible(sys, e)
    ensures ValueOk(dir, init, Sharded(sys, e), k)
  {
    hide Do, LinkInv, Inv, Replay, Wired, Listed;
    var r := Sharded(sys, e);
    if dir(k) == e.shard {
      forall t | InOrder(sys.order, t)
        ensures Pending(dir, r, t, k) ==>
                  Pending(dir, sys, t, k)
                    && r.shards[e.shard].tickets[t].update == sys.shards[e.shard].tickets[t].update
        ensures Pending(dir, sys, t, k) && !Pending(dir, r, t, k) ==> EventOp(sys, e) == CommitOp(t)
      {
        ShardedPending(dir, sys, e, t, k);
      }
      if Settled(dir, r, k) {
        SettledValue(dir, init, sys, e, k);
      }
    } else {
      assert forall t :: Pending(dir, r, t, k) <==> Pending(dir, sys, t, k);
    }
  }

  lemma SettledValue(dir: Key -> ShardId, init: map<Key, Value>, sys: System, e: Event, k: Key)
    requires Wired(dir, sys) && Listed(sys) && ValueOk(dir, init, sys, k) && e.AtShard? && Possible(sys, e)
    requires dir(k) == e.shard
    requires forall t :: Pending(dir, sys, t, k) ==> EventOp(sys, e) == CommitOp(t)
    ensures ValueOf(Do(sys.shards[e.shard], EventOp(sys, e)).shard, k) == Lookup(Replay(init, sys.order), k)
  {
    hide Do, LinkInv, Inv, Replay;
    var sh, op := sys.shards[e.shard], EventOp(sys, e);
    assert CellOk(dir, sys, e.ticket, e.shard) && ShardOk(dir, sys, e.shard);
    StepValue(sh, op, k);
    if op.CommitOp? && Has(sh, op.ticket, Prepared) && k in sh.tickets[op.ticket].update {
      CommitIsDecided(dir, RecordOf(sys, e.ticket), ClientAt(sys, e.ticket), e.ticket, e.shard, sh,
        LinkOf(sys, e.ticket, e.shard));
      assert Pending(dir, sys, e.ticket, k);
    } else {
      assert forall t :: Pending(dir, sys, t, k) ==> op == CommitOp(t);
    }
  }

  lemma ShardedFence(dir: Key -> ShardId, init: map<Key, Value>, sys: System, e: Event, k: Key, i: nat)
    requires Wired(dir, sys) && Listed(sys) && Fenced(dir, init, sys, i, k) && e.AtShard? && Possible(sys, e)
    ensures Fenced(dir, init, Sharded(sys, e), i, k)
  {
    hide Do, LinkInv, Inv, Replay, Listed, Touches, InOrder;
    var r := Sharded(sys, e);
    if i < |sys.order| && Pending(dir, r, sys.order[i].ticket, k) && dir(k) == e.shard {
      var t, sh, op := sys.order[i].ticket, sys.shards[e.shard], EventOp(sys, e);
      ShardedPending(dir, sys, e, t, k);
      assert ShardOk(dir, sys, e.shard);
      hide Wired;
      StepValue(sh, op, k);
      if op.CommitOp? && Has(sh, op.ticket, Prepared) && k in sh.tickets[op.ticket].update {
        PreparedHolds(sh, op.ticket, k);
        WriterIsSole(sh, t, op.ticket, k);
        CommitEnds(sh, t);
      }
    }
  }

  lemma CommitEnds(sh: Shard, t: Ticket)
    requires Has(sh, t, Prepared)
    ensures Has(Do(sh, CommitOp(t)).shard, t, Committed)
  {
  }

  lemma ShardedKey(dir: Key -> ShardId, init: map<Key, Value>, sys: System, e: Event, k: Key)
    requires Wired(dir, sys) && Listed(sys) && KeyOk(dir, init, sys, k) && e.AtShard? && Possible(sys, e)
    ensures KeyOk(dir, init, Sharded(sys, e), k)
  {
    hide Wired, Listed, ValueOk, Fenced, AnswersTo, ReportOf, Sharded;
    ShardedValue(dir, init, sys, e, k);
    forall i ensures Fenced(dir, init, Sharded(sys, e), i, k) {
      assert Fenced(dir, init, sys, i, k);
      ShardedFence(dir, init, sys, e, k, i);
    }
  }

  // ---- A crash undoes a decision that no shard has acted on ----

  predicate Distinct(order: seq<Txn>) { forall i, j :: 0 <= i < j < |order| ==> order[i].ticket != order[j].ticket }

  lemma {:induction false} WithoutAbsent(order: seq<Txn>, t: Ticket)
    requires !InOrder(order, t)
    ensures WithoutTicket(order, t) == order
  {
    if order != [] {
      var front, last := order[..|order| - 1], order[|order| - 1];
      assert order == front + [last];
      InOrderGrows(front, last, t);
      WithoutAbsent(front, t);
    }
  }

  lemma {:induction false} WithoutAt(order: seq<Txn>, i: nat)
    requires Distinct(order) && i < |order|
    ensures WithoutTicket(order, order[i].ticket) == order[..i] + order[i + 1..]
  {
    var front, last := order[..|order| - 1], order[|order| - 1];
    if i == |order| - 1 {
      assert !InOrder(front, last.ticket);
      WithoutAbsent(front, last.ticket);
    } else {
      assert front[i] == order[i];
      WithoutAt(front, i);
      assert front[..i] == order[..i] && front[i + 1..] + [last] == order[i + 1..];
    }
  }

  lemma ReplayOne(init: map<Key, Value>, order: seq<Txn>, txn: Txn, k: Key)
    ensures Lookup(Replay(init, order + [txn]), k)
            == if k in txn.writes then txn.writes[k] else Lookup(Replay(init, order), k)
  {
    assert (order + [txn])[..|order|] == order;
  }

  /** Leaving out a ticket changes no key that it does not write. */
  lemma {:induction false} ReplaySkips(init: map<Key, Value>, order: seq<Txn>, i: nat, n: nat, k: Key)
    requires i < n <= |order| && k !in order[i].writes
    ensures Lookup(Replay(init, order[..i] + order[i + 1..n]), k) == Lookup(Replay(init, order[..n]), k)
    decreases n
  {
    hide Replay, Lookup;
    var last := order[n - 1];
    assert order[..n] == order[..n - 1] + [last];
    ReplayOne(init, order[..n - 1], last, k);
    if n == i + 1 {
      assert order[..i] + order[i + 1..n] == order[..i];
    } else {
      var shorter := order[..i] + order[i + 1..n - 1];
      SkipsLast(order, i, n);
      ReplayOne(init, shorter, last, k);
      ReplaySkips(init, order, i, n - 1, k);
    }
  }

  lemma SkipsLast(order: seq<Txn>, i: nat, n: nat)
    requires i + 1 < n <= |order|
    ensures order[..i] + order[i + 1..n] == order[..i] + order[i + 1..n - 1] + [order[n - 1]]
  {
    assert order[i + 1..n] == order[i + 1..n - 1] + [order[n - 1]];
  }

  /** A key that no ticket after the `i`-th writes has the value it had then. */
  lemma {:induction false} ReplayRests(init: map<Key, Value>, order: seq<Txn>, i: nat, k: Key)
    requires i <= |order| && forall j :: i <= j < |order| ==> k !in order[j].writes
    ensures Lookup(Replay(init, order), k) == Lookup(Replay(init, order[..i]), k)
    decreases |order|
  {
    if i == |order| {
      assert order[..i] == order;
    } else {
      var front := order[..|order| - 1];
      assert front[..i] == order[..i];
      ReplayRests(init, front, i, k);
    }
  }

  /** `r` is `sys` without the `i`-th decision, all of whose writes were still waiting. */
  ghost predicate Undoes(dir: Key -> ShardId, sys: System, r: System, i: nat) {
    && i < |sys.order| && Distinct(sys.order) && r.shards == sys.shards
    && r.order == sys.order[..i] + sys.order[i + 1..]
    && forall k :: k in sys.order[i].writes <==> Pending(dir, sys, sys.order[i].ticket, k)
  }

  lemma UndonePending(dir: Key -> ShardId, sys: System, r: System, i: nat, t: Ticket, k: Key)
    requires Undoes(dir, sys, r, i)
    ensures Pending(dir, r, t, k) <==> Pending(dir, sys, t, k) && t != sys.order[i].ticket
  {
    WithoutAt(sys.order, i);
    InOrderWithout(sys.order, sys.order[i].ticket, t);
  }

  lemma UndoneReads(dir: Key -> ShardId, init: map<Key, Value>, sys: System, r: System, i: nat)
    requires Undoes(dir, sys, r, i) && SerialReads(init, sys.order) && forall k :: Fenced(dir, init, sys, i, k)
    ensures SerialReads(init, r.order)
  {
    hide Replay, Pending;
    forall j, k, v | 0 <= j < |r.order| && (k, v) in r.order[j].seen
      ensures Lookup(Replay(init, r.order[..j]), k) == v
    {
      if j < i {
        assert r.order[..j] == sys.order[..j] && (k, v) in sys.order[j].seen;
      } else {
        assert r.order[..j] == sys.order[..i] + sys.order[i + 1..j + 1];
        assert Fenced(dir, init, sys, i, k) && Touches(sys.order[j + 1], k);
        ReplaySkips(init, sys.order, i, j + 1, k);
      }
    }
  }

  lemma UndoneValue(dir: Key -> ShardId, init: map<Key, Value>, sys: System, r: System, i: nat, k: Key)
    requires Undoes(dir, sys, r, i) && KeyOk(dir, init, sys, k)
    requires dir(k) < |sys.shards| ==> Inv(sys.shards[dir(k)])
    ensures ValueOk(dir, init, r, k)
  {
    hide Replay, Inv, InOrder;
    var t := sys.order[i].ticket;
    forall t' ensures Pending(dir, r, t', k)
      <==> Pending(dir, sys, t', k) && t' != t { UndonePending(dir, sys, r, i, t', k); }
    if k in sys.order[i].writes {
      assert Fenced(dir, init, sys, i, k);
      forall t' ensures !Pending(dir, r, t', k) {
        if Pending(dir, sys, t', k) {
          PreparedHolds(sys.shards[dir(k)], t', k);
          WriterIsSole(sys.shards[dir(k)], t, t', k);
        }
      }
      forall j | i <= j < |r.order| ensures k !in r.order[j].writes { assert !Touches(sys.order[j + 1], k); }
      assert r.order[..i] == sys.order[..i];
      ReplayRests(init, r.order, i, k);
    } else {
      assert r.order == sys.order[..i] + sys.order[i + 1..|sys.order|] && sys.order[..|sys.order|] == sys.order;
      ReplaySkips(init, sys.order, i, |sys.order|, k);
    }
  }

  lemma UndoneFence(dir: Key -> ShardId, init: map<Key, Value>, sys: System, r: System, i: nat, j: nat, k: Key)
    requires Undoes(dir, sys, r, i) && KeyOk(dir, init, sys, k)
    requires dir(k) < |sys.shards| ==> Inv(sys.shards[dir(k)])
    ensures Fenced(dir, init, r, j, k)
  {
    hide Replay, Inv, InOrder, Touches;
    if j < |r.order| && Pending(dir, r, r.order[j].ticket, k) {
      var u := if j < i then j else j + 1;
      var t, t' := sys.order[i].ticket, r.order[j].ticket;
      assert t' == sys.order[u].ticket;
      UndonePending(dir, sys, r, i, t', k);
      assert Fenced(dir, init, sys, u, k);
      if j < i {
        assert r.order[..j] == sys.order[..j];
      } else {
        if k in sys.order[i].writes {
          PreparedHolds(sys.shards[dir(k)], t', k);
          WriterIsSole(sys.shards[dir(k)], t, t', k);
        }
        assert r.order[..j] == sys.order[..i] + sys.order[i + 1..u];
        ReplaySkips(init, sys.order, i, u, k);
      }
    }
  }

  /** All writes of a decision that no shard has acted on are still waiting. */
  lemma IdledWrites(dir: Key -> ShardId, sys: System, t: Ticket, k: Key)
    requires Wired(dir, sys) && t in sys.tickets && Idled(sys, t) && InOrder(sys.order, t) && dir(k) < |sys.shards|
    ensures k in Writes(ClientAt(sys, t)) <==> Pending(dir, sys, t, k)
  {
    hide LinkInv, Inv, TracksOwn, InOrder;
    var b, c := sys.tickets[t], ClientAt(sys, t);
    var s0 :| 0 <= s0 < |sys.shards| && Has(sys.shards[s0], t, Prepared);
    assert CellOk(dir, sys, t, s0) && CellOk(dir, sys, t, dir(k));
    CrashLink(dir, b, c, t, s0, sys.shards[s0], LinkOf(sys, t, s0));
    CrashLink(dir, b, c, t, dir(k), sys.shards[dir(k)], LinkOf(sys, t, dir(k)));
    assert sys.shards[dir(k)] in sys.shards;
  }

  lemma CrashSerial(dir: Key -> ShardId, init: map<Key, Value>, sys: System, t: Ticket)
    requires SystemInv(dir, init, sys) && t in sys.tickets && forall k :: dir(k) < |sys.shards|
    ensures var r := Crashed(sys, t); SerialReads(init, r.order) && forall k :: KeyOk(dir, init, r, k)
  {
    var r := Crashed(sys, t);
    hide SerialReads, LinkInv, Inv, Replay, Idled;
    if !InOrder(sys.order, t) {
      WithoutAbsent(sys.order, t);
      Undecided(dir, init, sys, r);
    } else if !Idled(sys, t) {
      Undecided(dir, init, sys, r);
    } else {
      var i :| 0 <= i < |sys.order| && sys.order[i].ticket == t;
      WithoutAt(sys.order, i);
      forall k ensures k in sys.order[i].writes <==> Pending(dir, sys, t, k) { IdledWrites(dir, sys, t, k); }
      assert Undoes(dir, sys, r, i);
      forall k ensures KeyOk(dir, init, sys, k) && ShardOk(dir, sys, dir(k)) {}
      UndoneAll(dir, init, sys, r, i);
    }
  }

  lemma UndoneAll(dir: Key -> ShardId, init: map<Key, Value>, sys: System, r: System, i: nat)
    requires Undoes(dir, sys, r, i) && SerialReads(init, sys.order)
    requires forall k :: KeyOk(dir, init, sys, k) && ShardOk(dir, sys, dir(k))
    ensures SerialReads(init, r.order) && forall k :: KeyOk(dir, init, r, k)
  {
    hide SerialReads, Inv, Replay, Undoes, ValueOk, Fenced;
    forall k ensures Fenced(dir, init, sys, i, k) { assert KeyOk(dir, init, sys, k); }
    UndoneReads(dir, init, sys, r, i);
    forall k ensures KeyOk(dir, init, r, k) {
      assert ShardOk(dir, sys, dir(k));
      UndoneValue(dir, init, sys, r, i, k);
      forall j ensures Fenced(dir, init, r, j, k) { UndoneFence(dir, init, sys, r, i, j, k); }
    }
  }
}
