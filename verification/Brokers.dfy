/** The broker as the object of src/parsec/broker/impl.cpp: a table of tickets that its methods
    and callbacks update in place. Every method is proved to make the step that `BrokerSpec`
    describes, on the one ticket it is about. */
module Brokers {
  import opened Basics
  import opened LockTable
  import opened ShardSpec
  import opened BrokerSpec
  import opened Recovery

  /** `after`, `sends` and `reply` are what `step` makes of the record of `t`. */
  ghost predicate Stepped(before: map<Ticket, TicketState>, t: Ticket, step: Step,
                          after: map<Ticket, TicketState>, sends: map<ShardId, Request>, reply: Reply)
  {
    && after == (if step.state.Some? then before[t := step.state.value] else before - {t})
    && sends == step.sends && reply == step.reply
  }

  /** A request about a ticket the broker does not know changes nothing. */
  ghost predicate Unknown(before: map<Ticket, TicketState>, after: map<Ticket, TicketState>,
                          sends: map<ShardId, Request>, reply: Reply) {
    after == before && sends == map[] && reply == Failed(TicketUnknown)
  }

  // ---- Scans of one ticket's record ----

  /** Looks for a lock at one shard that is still awaited. */
  method AllLocked(st: ShardState) returns (all: bool)
    ensures all <==> forall k :: k in st.keys ==> st.keys[k].locked
  {
    var left := st.keys.Keys;
    while left != {}
      invariant left <= st.keys.Keys
      invariant forall k :: k in st.keys && k !in left ==> st.keys[k].locked
      decreases |left|
    {
      var k :| k in left;
      if !st.keys[k].locked {
        return false;
      }
      left := left - {k};
    }
    all := true;
  }

  /** Looks for a lock that is still awaited, and collects the locked keys on the way. */
  method CollectKeys(b: TicketState) returns (waiting: bool, keys: set<Key>)
    ensures waiting <==> Waiting(b)
    ensures !waiting ==> keys == KeysOf(b)
  {
    keys := {};
    var todo := b.shards.Keys;
    while todo != {}
      invariant todo <= b.shards.Keys
      invariant keys == KeysIn(b, b.shards.Keys - todo)
      invariant forall s, k :: s in b.shards && s !in todo && k in b.shards[s].keys ==> b.shards[s].keys[k].locked
      decreases |todo|
    {
      hide KeysIn;
      var s :| s in todo;
      var locked := AllLocked(b.shards[s]);
      if !locked {
        return true, keys;
      }
      KeysInGrows(b, b.shards.Keys - todo, s);
      keys := keys + b.shards[s].keys.Keys;
      assert b.shards.Keys - todo + {s} == b.shards.Keys - (todo - {s});
      todo := todo - {s};
    }
    assert b.shards.Keys - todo == b.shards.Keys;
    waiting := false;
  }

  function KeysIn(b: TicketState, among: set<ShardId>): set<Key>
    requires among <= b.shards.Keys
  {
    set s, k | s in among && k in b.shards[s].keys :: k
  }

  lemma KeysInGrows(b: TicketState, among: set<ShardId>, s: ShardId)
    requires among <= b.shards.Keys && s in b.shards
    ensures KeysIn(b, among + {s}) == KeysIn(b, among) + b.shards[s].keys.Keys
  {
    forall k | k in b.shards[s].keys ensures k in KeysIn(b, among + {s}) {
      assert s in among + {s};
    }
    forall k | k in KeysIn(b, among) ensures k in KeysIn(b, among + {s}) {
      var s' :| s' in among && k in b.shards[s'].keys;
      assert s' in among + {s};
    }
  }

  /** Every key of the update was locked by the ticket. */
  method CheckKeys(update: map<Key, Value>, keys: set<Key>) returns (ok: bool)
    ensures ok <==> update.Keys <= keys
  {
    var left := update.Keys;
    while left != {}
      invariant left <= update.Keys && update.Keys - left <= keys
      decreases |left|
    {
      var k :| k in left;
      if k !in keys {
        return false;
      }
      left := left - {k};
    }
    ok := true;
  }

  /** The part of an update whose keys are tracked under one shard. */
  method SplitUpdate(update: map<Key, Value>, st: ShardState) returns (part: map<Key, Value>)
    ensures part == Part(update, st)
  {
    part := map[];
    var left := update.Keys;
    while left != {}
      invariant left <= update.Keys
      invariant part == map k | k in update.Keys - left && k in st.keys :: update[k]
      decreases |left|
    {
      var k :| k in left;
      if k in st.keys {
        part := part[k := update[k]];
      }
      left := left - {k};
    }
  }

  method AllAre(b: TicketState, p: ShardPhase) returns (all: bool)
    ensures all <==> AllIn(b, p)
  {
    var todo := b.shards.Keys;
    while todo != {}
      invariant todo <= b.shards.Keys
      invariant forall s :: s in b.shards.Keys - todo ==> b.shards[s].phase == p
      decreases |todo|
    {
      var s :| s in todo;
      if b.shards[s].phase != p {
        return false;
      }
      todo := todo - {s};
    }
    all := true;
  }

  method SomeAre(b: TicketState, p: ShardPhase) returns (some: bool)
    ensures some <==> SomeIn(b, p)
  {
    var todo := b.shards.Keys;
    while todo != {}
      invariant todo <= b.shards.Keys
      invariant forall s :: s in b.shards.Keys - todo ==> b.shards[s].phase != p
      decreases |todo|
    {
      var s :| s in todo;
      if b.shards[s].phase == p {
        return true;
      }
      todo := todo - {s};
    }
    some := false;
  }

  // ---- What the shards report during recovery ----

  /** Enters the reports of one shard. */
  method EnterShard(ghost before: map<Ticket, TicketState>, ghost rec: Reports, s: ShardId,
                    reported: map<Ticket, Phase>,
                    table: map<Ticket, TicketState>) returns (tickets: map<Ticket, TicketState>)
    requires s !in rec && Enters(before, rec, table)
    ensures Enters(before, rec[s := reported], tickets)
  {
    hide Enters;
    tickets := table;
    var left := reported.Keys;
    ghost var done: map<Ticket, Phase> := map[];
    NextShard(before, rec, table, s);
    while left != {}
      invariant left <= reported.Keys
      invariant done == map t | t in reported && t !in left :: reported[t]
      invariant Enters(before, rec[s := done], tickets)
      decreases |left|
    {
      var t :| t in left;
      EnterOne(before, rec[s := done], tickets, s, t, reported[t]);
      assert WithReport(rec[s := done], s, t, reported[t]) == rec[s := done[t := reported[t]]];
      done := done[t := reported[t]];
      var b := RecordIn(tickets, t);
      tickets := tickets[t := b.(shards := b.shards[s := ShardAt(b, s).(phase := PhaseFrom(reported[t]))])];
      left := left - {t};
    }
    assert done == reported;
  }

  /** Enters every report into a table, shard by shard and ticket by ticket. */
  method EnterReports(rec: Reports, before: map<Ticket, TicketState>) returns (tickets: map<Ticket, TicketState>)
    ensures Enters(before, rec, tickets)
  {
    hide Enters;
    tickets := before;
    var todo := rec.Keys;
    ghost var seen: Reports := map[];
    NoReportsYet(before);
    while todo != {}
      invariant todo <= rec.Keys
      invariant seen == map s | s in rec && s !in todo :: rec[s]
      invariant Enters(before, seen, tickets)
      decreases |todo|
    {
      var s :| s in todo;
      tickets := EnterShard(before, seen, s, rec[s], tickets);
      seen := seen[s := rec[s]];
      todo := todo - {s};
    }
    assert seen == rec;
  }

  function CommittedAt(b: TicketState): set<ShardId> { set s | s in b.shards && b.shards[s].phase.AtCommitted? }

  /** Counts the shards that committed, and looks for a phase that recovery cannot handle. */
  method CountCommitted(b: TicketState) returns (sortable: bool, n: nat)
    ensures sortable <==> Sortable(b)
    ensures sortable ==> n == |CommittedAt(b)|
  {
    n := 0;
    var todo := b.shards.Keys;
    ghost var seen := {};
    while todo != {}
      invariant todo <= b.shards.Keys
      invariant forall s :: s in b.shards && s !in todo ==>
                  var p := b.shards[s].phase; p.AtBegun? || p.AtPrepared? || p.AtWounded? || p.AtCommitted?
      invariant seen == set s | s in b.shards && s !in todo && b.shards[s].phase.AtCommitted?
      invariant n == |seen|
      decreases |todo|
    {
      var s :| s in todo;
      match b.shards[s].phase {
        case AtCommitted =>
          n := n + 1;
          seen := seen + {s};
        case AtBegun =>
        case AtPrepared =>
        case AtWounded =>
        case _ => return false, n;
      }
      todo := todo - {s};
    }
    assert seen == CommittedAt(b);
    sortable := true;
  }

  /** The count the choice is made from says whether all, some or no shards committed. */
  lemma CountTells(b: TicketState)
    ensures |CommittedAt(b)| == |b.shards| <==> AllIn(b, AtCommitted)
    ensures |CommittedAt(b)| > 0 <==> SomeIn(b, AtCommitted)
  {
    assert CommittedAt(b) <= b.shards.Keys && |b.shards| == |b.shards.Keys|;
    if |CommittedAt(b)| == |b.shards.Keys| {
      SameSize(CommittedAt(b), b.shards.Keys);
      forall s | s in b.shards ensures b.shards[s].phase == AtCommitted { assert s in CommittedAt(b); }
    }
    if AllIn(b, AtCommitted) {
      assert CommittedAt(b) == b.shards.Keys;
    }
    if SomeIn(b, AtCommitted) {
      var s :| s in b.shards && b.shards[s].phase == AtCommitted;
      assert s in CommittedAt(b);
    } else {
      assert CommittedAt(b) == {};
    }
  }

  /** The record while the shards in `todo` are still to be advanced. */
  ghost function AdvanceBut(b: TicketState, todo: set<ShardId>, skip: ShardPhase, p: ShardPhase): TicketState {
    b.(shards := map s | s in b.shards :: if s in todo || b.shards[s].phase == skip then b.shards[s]
    else b.shards[s].(phase := p))
  }

  lemma AdvanceOne(b: TicketState, todo: set<ShardId>, s: ShardId, skip: ShardPhase, p: ShardPhase)
    requires s in todo && s in b.shards
    ensures var before, after := AdvanceBut(b, todo, skip, p), AdvanceBut(b, todo - {s}, skip, p);
            && before.shards[s] == b.shards[s]
            && after == if b.shards[s].phase == skip then before
                 else before.(shards := before.shards[s := b.shards[s].(phase := p)])
  {
  }

  lemma AdvanceEnds(b: TicketState, skip: ShardPhase, p: ShardPhase)
    ensures AdvanceBut(b, {}, skip, p) == Advance(b, skip, p) && AdvanceBut(b, b.shards.Keys, skip, p) == b
  {
  }

  /** `sends` is the part of `all` that goes to shards outside `todo`. */
  ghost predicate SentBut(sends: map<ShardId, Request>, all: map<ShardId, Request>, todo: set<ShardId>) {
    sends == map s | s in all && s !in todo :: all[s]
  }

  lemma SentOne(sends: map<ShardId, Request>, all: map<ShardId, Request>, todo: set<ShardId>, s: ShardId)
    requires SentBut(sends, all, todo) && s in todo
    ensures SentBut(if s in all then sends[s := all[s]] else sends, all, todo - {s})
  {
  }

  lemma SentAll(all: map<ShardId, Request>, todo: set<ShardId>)
    requires all.Keys <= todo
    ensures SentBut(map[], all, todo) && forall sends :: SentBut(sends, all, {}) ==> sends == all
  {
  }

  /** Puts every shard that is not in phase `skip` into phase `p` and sends it `request`. */
  method AdvanceShards(b: TicketState, skip: ShardPhase, p: ShardPhase, request: Request)
    returns (r: TicketState, sends: map<ShardId, Request>)
    ensures r == Advance(b, skip, p) && sends == ToOthers(b, skip, request)
  {
    ghost var all := ToOthers(b, skip, request);
    var todo := b.shards.Keys;
    r, sends := b, map[];
    AdvanceEnds(b, skip, p);
    SentAll(all, todo);
    while todo != {}
      invariant todo <= b.shards.Keys
      invariant r == AdvanceBut(b, todo, skip, p)
      invariant SentBut(sends, all, todo)
      decreases |todo|
    {
      var s :| s in todo;
      AdvanceOne(b, todo, s, skip, p);
      SentOne(sends, all, todo, s);
      hide AdvanceBut, SentBut;
      if r.shards[s].phase != skip {
        r := r.(shards := r.shards[s := r.shards[s].(phase := p)]);
        sends := sends[s := request];
      }
      todo := todo - {s};
    }
  }

  /** Sends every shard that is not prepared yet its part of the update. */
  method PrepareShards(b: TicketState, update: map<Key, Value>) returns (r: TicketState, sends: map<ShardId, Request>)
    ensures Step(Some(r), sends, NoReply) == BrokerSpec.DoPrepare(b, update)
  {
    ghost var all := BrokerSpec.DoPrepare(b, update).sends;
    var todo := b.shards.Keys;
    r, sends := b, map[];
    AdvanceEnds(b, AtPrepared, Preparing);
    SentAll(all, todo);
    while todo != {}
      invariant todo <= b.shards.Keys
      invariant r == AdvanceBut(b, todo, AtPrepared, Preparing)
      invariant SentBut(sends, all, todo)
      decreases |todo|
    {
      var s :| s in todo;
      AdvanceOne(b, todo, s, AtPrepared, Preparing);
      SentOne(sends, all, todo, s);
      hide AdvanceBut, SentBut;
      if r.shards[s].phase != AtPrepared {
        var part := SplitUpdate(update, r.shards[s]);
        r := r.(shards := r.shards[s := r.shards[s].(phase := Preparing)]);
        sends := sends[s := PrepareReq(part)];
      }
      todo := todo - {s};
    }
  }

  class Broker {
    var tickets: map<Ticket, TicketState>
    var highestTicket: Ticket
    /** What the shards have reported so far during recovery. */
    var recoveryTickets: map<ShardId, map<Ticket, Phase>>
    const shardCount: nat

    constructor (shardCount: nat)
      ensures tickets == map[] && highestTicket == 0 && recoveryTickets == map[] && this.shardCount == shardCount
    {
      tickets, highestTicket, recoveryTickets := map[], 0, map[];
      this.shardCount := shardCount;
    }

    /** The ticket machine has answered. The first number of a range is used; a broker that gets
        none reports an error and keeps its table. */
    method HandleTicketNumber(answer: MachineAnswer) returns (number: Option<Ticket>, reply: Reply)
      modifies this`tickets, this`highestTicket
      ensures answer.Numbers? ==>
                && number == Some(answer.first) && reply == Success && answer.first in tickets
                     && tickets - {answer.first} == old(tickets) - {answer.first}
                && tickets[answer.first] == (if answer.first in old(tickets) then old(tickets)[answer.first]
                     else NEW_STATE)
                && highestTicket >= old(highestTicket) && highestTicket >= answer.last
                     && highestTicket in {old(highestTicket), answer.last}
      ensures !answer.Numbers? ==>
                number == None && reply == Failed(TicketNumberAssignment) && tickets == old(tickets)
                  && highestTicket == old(highestTicket)
    {
      match answer
      case NoAnswer => return None, Failed(TicketNumberAssignment);
      case MachineError => return None, Failed(TicketNumberAssignment);
      case Numbers(first, last) =>
        if highestTicket < last {
          highestTicket := last;
        }
        if first !in tickets {
          tickets := tickets[first := NEW_STATE];
        }
        return Some(first), Success;
    }

    method SendToOthers(t: Ticket, skip: ShardPhase, p: ShardPhase, request: Request)
      returns (sends: map<ShardId, Request>)
      requires t in tickets
      modifies this`tickets
      ensures tickets == old(tickets)[t := Advance(old(tickets)[t], skip, p)]
      ensures sends == ToOthers(old(tickets)[t], skip, request)
    {
      var b;
      b, sends := AdvanceShards(tickets[t], skip, p, request);
      tickets := tickets[t := b];
    }

    method TryLock(t: Ticket, s: ShardId, k: Key, ty: LockType) returns (sends: map<ShardId, Request>, reply: Reply)
      modifies this`tickets
      ensures t !in old(tickets) ==> Unknown(old(tickets), tickets, sends, reply)
      ensures t in old(tickets) ==> Stepped(old(tickets), t, BrokerSpec.TryLock(old(tickets)[t], s, k, ty), tickets,
              sends, reply)
    {
      sends := map[];
      if t !in tickets {
        return map[], Failed(TicketUnknown);
      }
      if tickets[t].phase.AllPrepared? {
        return map[], Failed(TicketPrepared);
      } else if tickets[t].phase.AllCommitted? {
        return map[], Failed(TicketCommitted);
      } else if tickets[t].phase.Aborted? {
        tickets := tickets[t := NEW_STATE];
      }
      var b := tickets[t];
      if s !in b.shards {
        b := b.(shards := b.shards[s := NEW_SHARD_STATE]);
        tickets := tickets[t := b];
      }
      var st := b.shards[s];
      var first := st.keys == map[];
      if k in st.keys && st.keys[k].locked && st.keys[k].lockType.Covers(ty) && st.keys[k].value.Some? {
        assert b.shards[s := st] == b.shards;
        return map[], ValueReply(st.keys[k].value.value);
      }
      var ks := if k in st.keys then st.keys[k] else KeyState(false, ty, None);
      ks := ks.(locked := false, lockType := ty);
      var st' := st.(keys := st.keys[k := ks]);
      assert b.shards[s := st'] == Restarted(old(tickets)[t]).shards[s := st'];
      tickets := tickets[t := b.(shards := b.shards[s := st'])];
      return map[s := TryLockReq(k, ty, first)], NoReply;
    }

    method HandleLock(t: Ticket, s: ShardId, k: Key, v: Value) returns (sends: map<ShardId, Request>, reply: Reply)
      modifies this`tickets
      ensures t !in old(tickets) ==> Unknown(old(tickets), tickets, sends, reply)
      ensures t in old(tickets) ==> Stepped(old(tickets), t, BrokerSpec.HandleLock(old(tickets)[t], s, k, v), tickets,
              sends, reply)
    {
      sends := map[];
      if t !in tickets {
        return map[], Failed(TicketUnknown);
      }
      var b := tickets[t];
      b := b.(shards := b.shards[s := ShardAt(b, s)]);
      tickets := tickets[t := b];
      var st := b.shards[s];
      if k !in st.keys {
        return map[], Failed(InvalidShardState);
      }
      if st.keys[k].locked {
        return map[], Failed(InvalidShardState);
      }
      tickets := tickets[t := b.(shards := b.shards[s := st.(keys := st.keys[k := st.keys[k].(locked := true,
        value := Some(v))])])];
      return map[], ValueReply(v);
    }

    method Commit(t: Ticket, update: map<Key, Value>) returns (sends: map<ShardId, Request>, reply: Reply)
      modifies this`tickets
      ensures t !in old(tickets) ==> Unknown(old(tickets), tickets, sends, reply)
      ensures t in old(tickets) ==> Stepped(old(tickets), t, BrokerSpec.Commit(old(tickets)[t], update), tickets,
              sends, reply)
    {
      sends := map[];
      if t !in tickets {
        return map[], Failed(TicketUnknown);
      }
      if tickets[t].phase.AllCommitted? {
        return map[], Failed(TicketCommitted);
      } else if tickets[t].phase.Aborted? {
        return map[], Failed(TicketAborted);
      }
      var waiting, keys := CollectKeys(tickets[t]);
      if waiting {
        return map[], Failed(WaitingForLocks);
      }
      var known := CheckKeys(update, keys);
      if !known {
        return map[], Failed(CommitHazard);
      }
      if tickets[t].phase.AllPrepared? {
        sends := SendToOthers(t, AtCommitted, Committing, CommitReq);
      } else {
        var b;
        b, sends := PrepareShards(tickets[t], update);
        tickets := tickets[t := b];
      }
      reply := NoReply;
    }

    method HandlePrepare(t: Ticket, s: ShardId, error: Option<ErrorCode>)
      returns (sends: map<ShardId, Request>, reply: Reply)
      modifies this`tickets
      ensures t !in old(tickets) ==> Unknown(old(tickets), tickets, sends, reply)
      ensures t in old(tickets) ==> Stepped(old(tickets), t, BrokerSpec.HandlePrepare(old(tickets)[t], s, error),
              tickets, sends, reply)
    {
      sends := map[];
      if t !in tickets {
        return map[], Failed(TicketUnknown);
      }
      match tickets[t].phase
      case AllPrepared => return map[], Failed(TicketPrepared);
      case AllCommitted => return map[], Failed(TicketCommitted);
      case Aborted => return map[], Failed(TicketAborted);
      case InProgress =>
        var b := SetPhase(tickets[t], s, ShardAt(tickets[t], s).phase);
        tickets := tickets[t := b];
        if !b.shards[s].phase.Preparing? {
          return map[], NoReply;
        }
        if error.Some? {
          if error.value.TicketWounded? {
            var wounded := SomeAre(b, AtWounded);
            if wounded {
              return map[], NoReply;
            }
            tickets := tickets[t := SetPhase(b, s, AtWounded)];
          }
          return map[], ShardFailed(error.value);
        }
        b := SetPhase(b, s, AtPrepared);
        tickets := tickets[t := b];
        var all := AllAre(b, AtPrepared);
        if !all {
          return map[], NoReply;
        }
        tickets := tickets[t := b.(phase := AllPrepared)];
        sends := SendToOthers(t, AtCommitted, Committing, CommitReq);
        reply := NoReply;
    }

    method HandleCommit(t: Ticket, s: ShardId, error: Option<ErrorCode>)
      returns (sends: map<ShardId, Request>, reply: Reply)
      modifies this`tickets
      ensures t !in old(tickets) ==> Unknown(old(tickets), tickets, sends, reply)
      ensures t in old(tickets) ==> Stepped(old(tickets), t, BrokerSpec.HandleCommit(old(tickets)[t], s, error),
              tickets, sends, reply)
    {
      sends := map[];
      if t !in tickets {
        return map[], Failed(TicketUnknown);
      }
      match tickets[t].phase
      case InProgress => return map[], Failed(TicketNotPrepared);
      case AllCommitted => return map[], Failed(TicketCommitted);
      case Aborted => return map[], Failed(TicketAborted);
      case AllPrepared =>
        var b := SetPhase(tickets[t], s, ShardAt(tickets[t], s).phase);
        tickets := tickets[t := b];
        if !b.shards[s].phase.Committing? {
          return map[], Failed(InvalidShardState);
        }
        if error.Some? {
          return map[], Failed(CommitError);
        }
        b := SetPhase(b, s, AtCommitted);
        tickets := tickets[t := b];
        var all := AllAre(b, AtCommitted);
        if !all {
          return map[], NoReply;
        }
        tickets := tickets[t := b.(phase := AllCommitted)];
        reply := Success;
    }

    method Rollback(t: Ticket) returns (sends: map<ShardId, Request>, reply: Reply)
      modifies this`tickets
      ensures t !in old(tickets) ==> Unknown(old(tickets), tickets, sends, reply)
      ensures t in old(tickets) ==> Stepped(old(tickets), t, BrokerSpec.Rollback(old(tickets)[t]), tickets, sends,
              reply)
    {
      sends := map[];
      if t !in tickets {
        return map[], Failed(TicketUnknown);
      }
      match tickets[t].phase
      case AllPrepared => return map[], Failed(TicketPrepared);
      case AllCommitted => return map[], Failed(TicketCommitted);
      case Aborted => return map[], Failed(TicketAborted);
      case InProgress =>
        if tickets[t].shards == map[] {
          tickets := tickets[t := tickets[t].(phase := Aborted)];
          return map[], Success;
        }
        sends := SendToOthers(t, RolledBack, RollingBack, RollbackReq);
        reply := NoReply;
    }

    method HandleRollback(t: Ticket, s: ShardId, error: Option<ErrorCode>)
      returns (sends: map<ShardId, Request>, reply: Reply)
      modifies this`tickets
      ensures t !in old(tickets) ==> Unknown(old(tickets), tickets, sends, reply)
      ensures t in old(tickets) ==> Stepped(old(tickets), t, BrokerSpec.HandleRollback(old(tickets)[t], s, error),
              tickets, sends, reply)
    {
      sends := map[];
      if t !in tickets {
        return map[], Failed(TicketUnknown);
      }
      match tickets[t].phase
      case AllPrepared => return map[], Failed(TicketPrepared);
      case AllCommitted => return map[], Failed(TicketCommitted);
      case Aborted => return map[], Failed(TicketAborted);
      case InProgress =>
        var b := SetPhase(tickets[t], s, ShardAt(tickets[t], s).phase);
        tickets := tickets[t := b];
        if !b.shards[s].phase.RollingBack? {
          return map[], Failed(InvalidShardState);
        }
        if error.Some? {
          return map[], Failed(RollbackError);
        }
        b := b.(shards := b.shards[s := ShardState(map[], RolledBack)]);
        tickets := tickets[t := b];
        var all := AllAre(b, RolledBack);
        if !all {
          return map[], NoReply;
        }
        tickets := tickets[t := b.(phase := Aborted)];
        reply := Success;
    }

    method Finish(t: Ticket) returns (sends: map<ShardId, Request>, reply: Reply)
      modifies this`tickets
      ensures t !in old(tickets) ==> Unknown(old(tickets), tickets, sends, reply)
      ensures t in old(tickets) ==> Stepped(old(tickets), t, BrokerSpec.Finish(old(tickets)[t]), tickets, sends, reply)
    {
      sends := map[];
      if t !in tickets {
        return map[], Failed(TicketUnknown);
      }
      match tickets[t].phase
      case InProgress => return map[], Failed(TicketBegun);
      case AllPrepared => return map[], Failed(TicketPrepared);
      case Aborted =>
        tickets := tickets - {t};
        reply := Success;
      case AllCommitted =>
        sends := SendToOthers(t, Finished, Finishing, FinishReq);
        reply := NoReply;
    }

    method HandleFinish(t: Ticket, s: ShardId, error: Option<ErrorCode>)
      returns (sends: map<ShardId, Request>, reply: Reply)
      modifies this`tickets
      ensures t !in old(tickets) ==> Unknown(old(tickets), tickets, sends, reply)
      ensures t in old(tickets) ==> Stepped(old(tickets), t, BrokerSpec.HandleFinish(old(tickets)[t], s, error),
              tickets, sends, reply)
    {
      sends := map[];
      if t !in tickets {
        return map[], Failed(TicketUnknown);
      }
      match tickets[t].phase
      case InProgress => return map[], Failed(TicketBegun);
      case AllPrepared => return map[], Failed(TicketPrepared);
      case Aborted => return map[], Failed(TicketAborted);
      case AllCommitted =>
        var b := SetPhase(tickets[t], s, ShardAt(tickets[t], s).phase);
        tickets := tickets[t := b];
        if !b.shards[s].phase.Finishing? {
          return map[], Failed(InvalidShardState);
        }
        if error.Some? {
          return map[], Failed(FinishError);
        }
        b := SetPhase(b, s, Finished);
        tickets := tickets[t := b];
        var all := AllAre(b, Finished);
        if !all {
          return map[], NoReply;
        }
        tickets := tickets - {t};
        reply := Success;
    }

    // ---- Recovery ----

    /** Recovery asks the shards for their tickets, one after the other, unless tickets are in
        flight. `reached` tells which shards can be asked; `asked` counts those that were. */
    method Recover(reached: seq<bool>) returns (started: bool, asked: nat)
      requires |reached| == shardCount
      ensures started <==> tickets == map[] && forall i :: 0 <= i < shardCount ==> reached[i]
      ensures asked <= shardCount && (forall i :: 0 <= i < asked ==> reached[i]) && (tickets != map[] ==> asked == 0)
      ensures !started && tickets == map[] ==> asked < shardCount && !reached[asked]
    {
      if tickets != map[] {
        return false, 0;
      }
      asked := 0;
      while asked < shardCount
        invariant asked <= shardCount && forall i :: 0 <= i < asked ==> reached[i]
      {
        if !reached[asked] {
          return false, asked;
        }
        asked := asked + 1;
      }
      started := true;
    }

    /** Finishes, commits or rolls back one ticket, as the number of shards that committed it
        tells, unless one of its shards is in a phase that does not belong here. */
    method RecoverTicket(t: Ticket) returns (fatal: bool, sends: map<ShardId, Request>, reply: Reply)
      requires t in tickets
      modifies this`tickets
      ensures fatal <==> !Sortable(old(tickets)[t])
      ensures !fatal ==> Stepped(old(tickets), t, Sorted(old(tickets)[t]), tickets, sends, reply)
    {
      CountTells(tickets[t]);
      sends, reply := map[], NoReply;
      var sortable, committed := CountCommitted(tickets[t]);
      fatal := !sortable;
      if fatal {
        return;
      }
      var b := tickets[t];
      if committed == |b.shards| {
        tickets := tickets[t := b.(phase := AllCommitted)];
        sends, reply := Finish(t);
      } else if committed > 0 {
        tickets := tickets[t := b.(phase := AllPrepared)];
        sends, reply := Commit(t, map[]);
      } else {
        tickets := tickets[t := b.(phase := InProgress)];
        sends, reply := Rollback(t);
      }
    }

    /** A shard has answered the question for its tickets. Once all have, recovery decides about
        every ticket; it is done at once when there is none. The reports are then kept, and with
        them the answers that a later recovery gets are not entered. */
    method HandleGetTickets(s: ShardId, answer: Option<map<Ticket, Phase>>)
      returns (fatal: bool, sends: map<Ticket, map<ShardId, Request>>, refused: set<Ticket>, reply: Reply)
      modifies this`tickets, this`recoveryTickets
      ensures answer.None? ==>
                && !fatal && tickets == old(tickets) && recoveryTickets == old(recoveryTickets)
                && sends == map[] && refused == {} && reply == Failed(GetTicketsError)
      ensures answer.Some? ==>
                var rec := Taken(old(recoveryTickets), s, answer.value);
                if |rec| != shardCount then
                  !fatal && tickets == old(tickets) && recoveryTickets == rec && sends == map[] && refused == {}
                    && reply == NoReply
                else
                  && (fatal <==> !AllSortable(old(tickets), rec))
                  && (!fatal ==>
                        && RecoversAll(old(tickets), rec, tickets, sends, refused)
                        && reply == (if tickets == map[] then Success else NoReply)
                        && recoveryTickets == if tickets == map[] then rec else map[])
    {
      fatal, sends, refused := false, map[], {};
      if answer.None? {
        return false, map[], {}, Failed(GetTicketsError);
      }
      if s !in recoveryTickets {
        recoveryTickets := recoveryTickets[s := answer.value];
      }
      if |recoveryTickets| != shardCount {
        return false, map[], {}, NoReply;
      }
      ghost var rec := recoveryTickets;
      tickets := EnterReports(recoveryTickets, tickets);
      if tickets == map[] {
        NothingToSort(old(tickets), rec, tickets);
        return false, map[], {}, Success;
      }
      recoveryTickets := map[];
      fatal, sends, refused := DoRecovery(old(tickets), rec);
      reply := NoReply;
    }

    method DoRecovery(ghost before: map<Ticket, TicketState>, ghost rec: Reports)
      returns (fatal: bool, sends: map<Ticket, map<ShardId, Request>>, refused: set<Ticket>)
      requires Enters(before, rec, tickets)
      modifies this`tickets
      ensures fatal <==> !AllSortable(before, rec)
      ensures !fatal ==> RecoversAll(before, rec, tickets, sends, refused) && tickets.Keys == old(tickets.Keys)
    {
      hide Enters, Underway, Sorted, Stepped, AllSortable, RecoversAll, Sortable;
      fatal, sends, refused := false, map[], {};
      var todo := tickets.Keys;
      AllUnderway(before, rec, tickets);
      while todo != {}
        invariant todo <= tickets.Keys == old(tickets.Keys)
        invariant Underway(before, rec, tickets, todo, sends, refused)
        decreases |todo|
      {
        var t :| t in todo;
        ghost var was := tickets;
        var bad, out, reply := RecoverTicket(t);
        if bad {
          UnderwayFails(before, rec, was, todo, sends, refused, t);
          return true, sends, refused;
        }
        SortedOne(was, t, tickets, out, reply);
        UnderwayStep(before, rec, was, todo, sends, refused, t, tickets[t], out, reply.Failed?);
        sends := sends[t := out];
        if reply.Failed? {
          refused := refused + {t};
        }
        todo := todo - {t};
      }
      UnderwayEnds(before, rec, tickets, sends, refused);
    }

    /** The end of recovery is reported once no ticket remains. */
    method HandleRecoveryFinish(result: Reply) returns (reply: Reply)
      ensures reply == RecoveryReply(tickets, result)
    {
      match result
      case NoReply => reply := NoReply;
      case Success => reply := if tickets == map[] then Success else NoReply;
      case _ => reply := Failed(FinishError);
    }

    /** A recovered ticket was committed everywhere: it is finished. */
    method HandleRecoveryCommit(t: Ticket, failed: bool) returns (sends: map<ShardId, Request>, reply: Reply)
      modifies this`tickets
      ensures failed ==> tickets == old(tickets) && sends == map[] && reply == Failed(CommitError)
      ensures !failed ==> FinishesOne(old(tickets), t, tickets, sends, reply)
    {
      if failed {
        return map[], Failed(CommitError);
      }
      var result;
      OnlyOne(tickets, t);
      sends, result := Finish(t);
      reply := HandleRecoveryFinish(result);
    }

    /** A recovered ticket was rolled back: it is finished. */
    method HandleRecoveryRollback(t: Ticket, failed: bool) returns (sends: map<ShardId, Request>, reply: Reply)
      modifies this`tickets
      ensures failed ==> tickets == old(tickets) && sends == map[] && reply == Failed(RollbackError)
      ensures !failed ==> FinishesOne(old(tickets), t, tickets, sends, reply)
    {
      if failed {
        return map[], Failed(RollbackError);
      }
      var result;
      OnlyOne(tickets, t);
      sends, result := Finish(t);
      reply := HandleRecoveryFinish(result);
    }

    /** A shard has answered the request to finish a recovered ticket. Recovery is reported as
        done exactly when this was the last answer about the last ticket. */
    method HandleFinishRecovering(t: Ticket, s: ShardId, error: Option<ErrorCode>)
      returns (sends: map<ShardId, Request>, reply: Reply)
      modifies this`tickets
      ensures sends == map[]
      ensures reply == Success <==> old(tickets).Keys == {t} && error.None? && LastToFinish(old(tickets)[t], s)
      ensures t in old(tickets) && error.None? && LastToFinish(old(tickets)[t], s) ==> tickets == old(tickets) - {t}
      ensures !(t in old(tickets) && error.None? && LastToFinish(old(tickets)[t], s)) ==>
              tickets.Keys == old(tickets.Keys)
    {
      var result;
      OnlyOne(tickets, t);
      if t in tickets {
        LastAnswer(tickets[t], s, error);
      }
      hide BrokerSpec.HandleFinish, LastToFinish;
      sends, result := HandleFinish(t, s, error);
      reply := HandleRecoveryFinish(result);
    }
  }

  datatype MachineAnswer = NoAnswer | MachineError | Numbers(first: Ticket, last: Ticket)

  /** What is reported of a recovery, given what became of finishing a ticket. */
  function RecoveryReply(tickets: map<Ticket, TicketState>, result: Reply): Reply {
    match result
    case NoReply => NoReply
    case Success => if tickets == map[] then Success else NoReply
    case _ => Failed(FinishError)
  }

  /** A rolled-back ticket is dropped, and recovery is done if it was the last one; the shards of a
      committed ticket are asked to finish it. */
  ghost predicate FinishesOne(before: map<Ticket, TicketState>, t: Ticket, after: map<Ticket, TicketState>,
                              sends: map<ShardId, Request>, reply: Reply) {
    && (reply == Success <==> before.Keys == {t} && before[t].phase.Aborted?)
    && (reply.Failed? <==> t !in before || before[t].phase.InProgress? || before[t].phase.AllPrepared?)
    && (reply.Failed? ==> reply == Failed(FinishError) && after == before && sends == map[])
    && (t in before && before[t].phase.Aborted? ==> after == before - {t} && sends == map[])
    && (t in before && before[t].phase.AllCommitted? ==>
          Stepped(before, t, BrokerSpec.Finish(before[t]), after, sends, reply))
  }

  /** Only shard `s` has still to finish. */
  predicate LastToFinish(b: TicketState, s: ShardId) {
    b.phase.AllCommitted? && ShardAt(b, s).phase.Finishing? && forall s' :: s' in b.shards && s' != s ==>
      b.shards[s'].phase.Finished?
  }

  lemma NothingToSort(before: map<Ticket, TicketState>, rec: Reports, tickets: map<Ticket, TicketState>)
    requires Enters(before, rec, tickets) && tickets == map[]
    ensures AllSortable(before, rec) && RecoversAll(before, rec, map[], map[], {})
  {
    assert tickets.Keys == {};
  }

  /** Recovery has still to decide about the tickets in `todo`. */
  ghost predicate Underway(before: map<Ticket, TicketState>, rec: Reports, tickets: map<Ticket, TicketState>,
                           todo: set<Ticket>,
                           sends: map<Ticket, map<ShardId, Request>>, refused: set<Ticket>) {
    && tickets.Keys == before.Keys + ReportedTickets(rec) && todo <= tickets.Keys
    && sends.Keys == tickets.Keys - todo && refused <= sends.Keys
    && (forall t :: t in todo ==> tickets[t] == MergedIn(before, rec, t))
    && (forall t :: t in sends ==> Sortable(MergedIn(before, rec, t)))
    && (forall t :: t in sends ==> IsSorted(MergedIn(before, rec, t), tickets[t], sends[t], t in refused))
  }

  lemma AllUnderway(before: map<Ticket, TicketState>, rec: Reports, tickets: map<Ticket, TicketState>)
    requires Enters(before, rec, tickets)
    ensures Underway(before, rec, tickets, tickets.Keys, map[], {})
  {
  }

  lemma UnderwayStep(before: map<Ticket, TicketState>, rec: Reports, tickets: map<Ticket, TicketState>,
                     todo: set<Ticket>,
                     sends: map<Ticket, map<ShardId, Request>>, refused: set<Ticket>,
                     t: Ticket, b: TicketState, out: map<ShardId, Request>, failed: bool)
    requires Underway(before, rec, tickets, todo, sends, refused) && t in todo
    requires t in tickets && Sortable(tickets[t]) && IsSorted(tickets[t], b, out, failed)
    ensures Underway(before, rec, tickets[t := b], todo - {t}, sends[t := out], if failed then refused + {t}
            else refused)
  {
    hide MergedIn, Sortable, IsSorted, ReportedTickets;
  }

  lemma UnderwayFails(before: map<Ticket, TicketState>, rec: Reports, tickets: map<Ticket, TicketState>,
                      todo: set<Ticket>,
                      sends: map<Ticket, map<ShardId, Request>>, refused: set<Ticket>, t: Ticket)
    requires Underway(before, rec, tickets, todo, sends, refused) && t in todo && t in tickets && !Sortable(tickets[t])
    ensures !AllSortable(before, rec)
  {
    hide MergedIn, Sortable, IsSorted, ReportedTickets;
  }

  lemma UnderwayEnds(before: map<Ticket, TicketState>, rec: Reports, tickets: map<Ticket, TicketState>,
                     sends: map<Ticket, map<ShardId, Request>>, refused: set<Ticket>)
    requires Underway(before, rec, tickets, {}, sends, refused)
    ensures AllSortable(before, rec) && RecoversAll(before, rec, tickets, sends, refused)
  {
    hide MergedIn, Sortable, IsSorted, ReportedTickets;
  }

  lemma SortedOne(before: map<Ticket, TicketState>, t: Ticket, after: map<Ticket, TicketState>,
                  sends: map<ShardId, Request>, reply: Reply)
    requires t in before && Stepped(before, t, Sorted(before[t]), after, sends, reply)
    ensures t in after && after == before[t := after[t]] && IsSorted(before[t], after[t], sends, reply.Failed?)
  {
    SortedStays(before[t]);
    hide Sorted;
  }

  lemma OnlyOne(tickets: map<Ticket, TicketState>, t: Ticket)
    ensures tickets - {t} == map[] && t in tickets <==> tickets.Keys == {t}
    ensures tickets.Keys == {t} ==> t in tickets
  {
    assert (tickets - {t}).Keys == tickets.Keys - {t};
    if tickets.Keys == {t} {
      assert t in tickets.Keys;
      assert (tickets - {t}).Keys == {};
    } else if tickets - {t} == map[] {
      assert tickets.Keys - {t} == {};
    }
  }

  lemma LastAnswer(b: TicketState, s: ShardId, error: Option<ErrorCode>)
    ensures var step := BrokerSpec.HandleFinish(b, s, error);
            && step.sends == map[] && (step.reply == Success <==> step.state.None?)
            && (step.reply == Success <==> error.None? && LastToFinish(b, s))
  {
    if b.phase.AllCommitted? && ShardAt(b, s).phase.Finishing? {
      var r := SetPhase(SetPhase(b, s, ShardAt(b, s).phase), s, Finished);
      assert s in b.shards && r.shards == b.shards[s := b.shards[s].(phase := Finished)];
      if AllIn(r, Finished) {
        forall s' | s' in b.shards && s' != s ensures b.shards[s'].phase.Finished? { assert s' in r.shards; }
      }
    }
  }

  /** Recovery succeeds because no shard has a ticket; shards take up tickets; the next recovery
      reports success at the first report, which names one. */
  method RecoverTwice(shardCount: nat, t: Ticket, p: Phase) returns (first: Reply, second: Reply)
    requires shardCount > 0
    ensures first == Success && second == Success
  {
    var broker := new Broker(shardCount);
    first := NoReply;
    var i := 0;
    var fatal, sends, refused;
    while i < shardCount
      invariant i <= shardCount && broker.tickets == map[] && broker.shardCount == shardCount
      invariant EmptyReports(broker.recoveryTickets, i)
      invariant i == shardCount ==> first == Success
    {
      MoreEmptyReports(broker.recoveryTickets, i);
      fatal, sends, refused, first := broker.HandleGetTickets(i, Some(map[]));
      i := i + 1;
    }
    MoreEmptyReports(broker.recoveryTickets, i);
    fatal, sends, refused, second := broker.HandleGetTickets(0, Some(map[t := p]));
  }

  ghost predicate EmptyReports(rec: Reports, n: nat) {
    (forall s :: s in rec <==> 0 <= s < n) && forall s :: s in rec ==> rec[s] == map[]
  }

  lemma {:induction false} EmptyReportsCount(rec: Reports, n: nat)
    requires EmptyReports(rec, n)
    ensures |rec| == n
    decreases n
  {
    if n == 0 {
      assert rec == map[];
    } else {
      var less: Reports := rec - {n - 1};
      assert rec == less[n - 1 := map[]];
      EmptyReportsCount(less, n - 1);
    }
  }

  lemma NoTicketsEntered(rec: Reports, n: nat)
    requires EmptyReports(rec, n)
    ensures ReportedTickets(rec) == {} && AllSortable(map[], rec)
  {
  }

  lemma MoreEmptyReports(rec: Reports, n: nat)
    requires EmptyReports(rec, n)
    ensures |rec| == n && EmptyReports(rec[n := map[]], n + 1) && |rec[n := map[]]| == n + 1
    ensures ReportedTickets(rec) == {} && ReportedTickets(rec[n := map[]]) == {}
    ensures AllSortable(map[], rec) && AllSortable(map[], rec[n := map[]])
  {
    assert EmptyReports(rec[n := map[]], n + 1);
    EmptyReportsCount(rec, n);
    EmptyReportsCount(rec[n := map[]], n + 1);
    hide EmptyReports;
    NoTicketsEntered(rec, n);
    NoTicketsEntered(rec[n := map[]], n + 1);
  }
}
