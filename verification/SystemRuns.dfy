/** Runs of the whole system, with crashes of brokers: every ticket commits on all of its shards
    or on none, and the committed tickets are equivalent to a serial run. */
module SystemRuns {
  import opened Basics
  import opened LockTable
  import opened ShardSpec
  import opened ShardSteps
  import opened ShardRuns
  import opened BrokerSpec
  import opened Links
  import opened BrokerLinks
  import opened ShardLinks
  import opened Systems
  import opened Serializability

  ghost predicate Initial(dir: Key -> ShardId, init: map<Key, Value>, sys: System) {
    && sys.tickets == map[] && sys.lost == {} && sys.clients == map[] && sys.links == map[] && sys.order == []
    && (forall s :: 0 <= s < |sys.shards| ==>
          Inv(sys.shards[s]) && AtHome(dir, sys.shards[s], s) && sys.shards[s].tickets == map[])
    && (forall k :: dir(k) < |sys.shards| && ValueOf(sys.shards[dir(k)], k) == Lookup(init, k))
  }

  lemma InitialInv(dir: Key -> ShardId, init: map<Key, Value>, sys: System)
    requires Initial(dir, init, sys)
    ensures SystemInv(dir, init, sys)
  {
    hide Inv;
    forall t, s ensures CellOk(dir, sys, t, s) {}
    forall s ensures ShardOk(dir, sys, s) {}
    forall k ensures KeyOk(dir, init, sys, k) {
      assert Replay(init, sys.order) == init;
    }
  }

  // ---- Every event keeps the invariant ----

  lemma AskSerial(dir: Key -> ShardId, init: map<Key, Value>, sys: System, t: Ticket, step: Step, c: Client)
    requires SystemInv(dir, init, sys) && t in sys.tickets
    requires FairStep(sys.tickets[t], ClientAt(sys, t), step, c)
             && (Decided(step.state) ==> Decided(Some(sys.tickets[t])))
    ensures var r := Brokered(sys, t, step, c); Listed(r) && SerialReads(init, r.order) && forall k ::
            KeyOk(dir, init, r, k)
  {
    hide SerialReads, KeyOk, LinkInv, Inv, TicketInv;
    assert CellOk(dir, sys, t, 0);
    BrokeredListed(sys, t, step, c);
    Undecided(dir, init, sys, Brokered(sys, t, step, c));
  }

  lemma SameListed(sys: System, r: System)
    requires Listed(sys) && r.order == sys.order && r.clients == sys.clients && r.tickets == sys.tickets
    ensures Listed(r)
  {
    hide InOrder;
    forall t | t in r.tickets ensures Decided(RecordOf(r, t)) <==> InOrder(r.order, t) {
      assert t in sys.tickets && RecordOf(r, t) == RecordOf(sys, t);
    }
  }

  lemma ReceiveListed(dir: Key -> ShardId, sys: System, t: Ticket, s: ShardId)
    requires Wired(dir, sys) && Listed(sys) && Possible(sys, AtBroker(t, s))
    ensures Listed(After(dir, sys, AtBroker(t, s)))
  {
    var link, r := LinkOf(sys, t, s), Unread(sys, t, s);
    SameListed(sys, r);
    if t in sys.tickets {
      var step := Receive(sys.tickets[t], s, link);
      assert CellOk(dir, sys, t, s);
      ReceiveFair(dir, sys.tickets[t], ClientAt(sys, t), t, s, sys.shards[s], link);
      hide Handle, Listed, Wired, FairStep;
      assert ClientAt(r, t) == ClientAt(sys, t);
      BrokeredListed(r, t, step, ClientOfResponse(ClientAt(sys, t), link.resps[0], step.reply));
    }
  }

  lemma BeginSerial(dir: Key -> ShardId, init: map<Key, Value>, sys: System, t: Ticket)
    requires SystemInv(dir, init, sys) && t !in sys.clients
    ensures var r := After(dir, sys, Begin(t)); Listed(r) && forall k :: KeyOk(dir, init, r, k)
  {
    hide KeyOk, Wired;
    var r := After(dir, sys, Begin(t));
    Undecided(dir, init, sys, r);
    assert !InOrder(sys.order, t);
    forall t' | t' in r.tickets ensures Decided(RecordOf(r, t')) <==> InOrder(r.order, t') {
      if t' != t { assert t' in sys.tickets && RecordOf(r, t') == RecordOf(sys, t'); }
    }
  }

  /** Where an entry of the order without `t` was before. */
  lemma WithoutPlace(order: seq<Txn>, t: Ticket, j: nat) returns (i: nat)
    requires Distinct(order) && j < |WithoutTicket(order, t)|
    ensures i < |order| && WithoutTicket(order, t)[j] == order[i] && order[i].ticket != t
    ensures if exists n :: 0 <= n <= j && n < |order| && order[n].ticket == t then i == j + 1 else i == j
  {
    if InOrder(order, t) {
      var n :| 0 <= n < |order| && order[n].ticket == t;
      WithoutAt(order, n);
      hide WithoutTicket;
      i := if j < n then j else j + 1;
    } else {
      WithoutAbsent(order, t);
      hide WithoutTicket;
      i := j;
    }
  }

  lemma WithoutDistinct(order: seq<Txn>, t: Ticket, j: nat, k: nat)
    requires Distinct(order) && j < k < |WithoutTicket(order, t)|
    ensures WithoutTicket(order, t)[j].ticket != WithoutTicket(order, t)[k].ticket
  {
    var i := WithoutPlace(order, t, j);
    var n := WithoutPlace(order, t, k);
    hide WithoutTicket;
  }

  lemma CrashListed(sys: System, t: Ticket)
    requires Listed(sys) && t in sys.tickets
    ensures Listed(Crashed(sys, t))
  {
    hide Idled, WithoutTicket, InOrder;
    var r := Crashed(sys, t);
    if !(Decided(RecordOf(sys, t)) && !Idled(sys, t)) {
      forall j | 0 <= j < |r.order|
        ensures r.order[j].ticket in r.clients && r.clients[r.order[j].ticket] == Client(r.order[j].seen,
                Some(r.order[j].writes))
      {
        var i := WithoutPlace(sys.order, t, j);
      }
      forall j, k | 0 <= j < k < |r.order| ensures r.order[j].ticket != r.order[k].ticket {
        WithoutDistinct(sys.order, t, j, k);
      }
    }
    forall t' | t' in r.tickets ensures Decided(RecordOf(r, t')) <==> InOrder(r.order, t') {
      InOrderWithout(sys.order, t, t');
      assert t' in sys.tickets && RecordOf(r, t') == RecordOf(sys, t');
    }
  }

  lemma TakeUpListed(dir: Key -> ShardId, sys: System, t: Ticket, reports: map<ShardId, Phase>)
    requires Wired(dir, sys) && Listed(sys) && Possible(sys, TakeUp(t, reports))
    ensures Listed(After(dir, sys, TakeUp(t, reports)))
  {
    hide Wired, InOrder, TicketInv, TracksOwn, Tells, BrokerSpec.Recover, Listed, Reported, Brokered;
    ReportsTell(dir, sys, t, reports);
    TakeUpTicket(dir, reports, ClientAt(sys, t), InOrder(sys.order, t));
    LostAt(dir, sys, t, 0);
    var r := Unlinked(sys, t).(lost := sys.lost - {t});
    SameListed(sys, r);
    TakenListed(r, t, BrokerSpec.Recover(reports), ClientAt(sys, t));
  }

  lemma TakenListed(sys: System, t: Ticket, step: Step, c: Client)
    requires Listed(sys) && t !in sys.tickets && t in sys.clients && c == ClientAt(sys, t)
    requires Decided(step.state) <==> InOrder(sys.order, t)
    ensures Listed(Brokered(sys, t, step, c))
  {
    hide InOrder;
    var r := Brokered(sys, t, step, c);
    BrokeredFrame(sys, t, step, c);
    assert r.order == sys.order && r.clients == sys.clients;
    forall t' | t' in r.tickets ensures Decided(RecordOf(r, t')) <==> InOrder(r.order, t') {
      if t' != t { assert t' in sys.tickets && RecordOf(r, t') == RecordOf(sys, t'); }
    }
  }

  lemma EventKeepsSystem(dir: Key -> ShardId, init: map<Key, Value>, sys: System, e: Event)
    requires SystemInv(dir, init, sys) && Possible(sys, e) && forall k :: dir(k) < |sys.shards|
    ensures SystemInv(dir, init, After(dir, sys, e)) && |After(dir, sys, e).shards| == |sys.shards|
  {
    EventKeepsWired(dir, sys, e);
    hide Wired, SerialReads, KeyOk, Handle, InOrder, BrokerSpec.TryLock, BrokerSpec.Commit, BrokerSpec.Rollback,
      BrokerSpec.Finish, BrokerSpec.Recover;
    match e
    case Begin(t) => BeginSerial(dir, init, sys, t);
    case AskLock(t, k, ty) =>
      var b, step := sys.tickets[t], BrokerSpec.TryLock(sys.tickets[t], dir(k), k, ty);
      AskFair(dir, b, ClientAt(sys, t), k, ty, map[]);
      AskSerial(dir, init, sys, t, step, Told(ClientOfLock(b, ClientAt(sys, t)), k, step.reply));
    case AskCommit(t, update) =>
      AskFair(dir, sys.tickets[t], ClientAt(sys, t), EMPTY, Read, update);
      AskSerial(dir, init, sys, t, BrokerSpec.Commit(sys.tickets[t], update),
        ClientOfCommit(sys.tickets[t], ClientAt(sys, t), update));
    case AskRollback(t) =>
      AskFair(dir, sys.tickets[t], ClientAt(sys, t), EMPTY, Read, map[]);
      AskSerial(dir, init, sys, t, BrokerSpec.Rollback(sys.tickets[t]), ClientAt(sys, t));
    case AskFinish(t) =>
      AskFair(dir, sys.tickets[t], ClientAt(sys, t), EMPTY, Read, map[]);
      AskSerial(dir, init, sys, t, BrokerSpec.Finish(sys.tickets[t]), ClientAt(sys, t));
    case AtShard(_, _, _, _, _, _) =>
      SameListed(sys, Sharded(sys, e));
      forall k ensures KeyOk(dir, init, Sharded(sys, e), k) {
        assert KeyOk(dir, init, sys, k);
        ShardedKey(dir, init, sys, e, k);
      }
    case AtBroker(t, s) =>
      ReceiveListed(dir, sys, t, s);
      if t in sys.tickets {
        ReceiveSerial(dir, init, sys, t, s);
      } else {
        Undecided(dir, init, sys, After(dir, sys, e));
      }
    case Crash(t) =>
      CrashListed(sys, t);
      CrashSerial(dir, init, sys, t);
    case TakeUp(t, reports) =>
      TakeUpListed(dir, sys, t, reports);
      TakeUpOrder(dir, sys, t, reports);
      Undecided(dir, init, sys, After(dir, sys, e));
  }

  lemma TakeUpOrder(dir: Key -> ShardId, sys: System, t: Ticket, reports: map<ShardId, Phase>)
    requires Wired(dir, sys) && Possible(sys, TakeUp(t, reports))
    ensures After(dir, sys, TakeUp(t, reports)).order == sys.order
  {
    assert CellOk(dir, sys, t, 0);
    hide Wired, LinkInv, InOrder, BrokerSpec.Recover;
  }

  // ---- Whole runs ----

  /** A run of the system: any events, in any order, and the states they lead through. */
  datatype History = History(states: seq<System>, events: seq<Event>)

  ghost predicate Follows(dir: Key -> ShardId, sys: System, e: Event, r: System) {
    Possible(sys, e) && r == After(dir, sys, e)
  }

  ghost predicate Lawful(dir: Key -> ShardId, init: map<Key, Value>, h: History) {
    && |h.states| == |h.events| + 1 && Initial(dir, init, h.states[0])
    && forall n :: 0 <= n < |h.events| ==> Follows(dir, h.states[n], h.events[n], h.states[n + 1])
  }

  /** Brokers list shards that there are. */
  ghost predicate Placed(sys: System) {
    forall t, s :: t in sys.tickets && s in sys.tickets[t].shards ==> s < |sys.shards|
  }

  ghost predicate Sound(dir: Key -> ShardId, init: map<Key, Value>, sys: System) {
    SystemInv(dir, init, sys) && Placed(sys) && forall k :: dir(k) < |sys.shards|
  }

  predicate ListsOnly(step: Step, among: set<ShardId>) { step.state.Some? ==> step.state.value.shards.Keys <= among }

  lemma AsksList(b: TicketState, s: ShardId, k: Key, ty: LockType, update: map<Key, Value>,
                 reports: map<ShardId, Phase>)
    ensures var own := b.shards.Keys;
            && ListsOnly(BrokerSpec.TryLock(b, s, k, ty), own + {s}) && ListsOnly(BrokerSpec.Commit(b, update), own)
            && ListsOnly(BrokerSpec.Rollback(b), own) && ListsOnly(BrokerSpec.Finish(b), own)
            && ListsOnly(BrokerSpec.Recover(reports), reports.Keys)
  {
  }

  lemma ResponseLists(b: TicketState, s: ShardId, r: Response)
    ensures ListsOnly(Handle(b, s, r), b.shards.Keys + {s})
  {
  }

  lemma BrokeredPlaced(sys: System, t: Ticket, step: Step, c: Client, among: set<ShardId>)
    requires Placed(sys) && ListsOnly(step, among) && forall s :: s in among ==> s < |sys.shards|
    ensures Placed(Brokered(sys, t, step, c))
  {
    var r := Brokered(sys, t, step, c);
    forall t', s | t' in r.tickets && s in r.tickets[t'].shards ensures s < |r.shards| {
      if t' == t {
        assert s in step.state.value.shards.Keys;
      }
    }
  }

  lemma EventKeepsPlaced(dir: Key -> ShardId, sys: System, e: Event)
    requires Placed(sys) && Possible(sys, e) && forall k :: dir(k) < |sys.shards|
    ensures Placed(After(dir, sys, e))
  {
    hide Handle, BrokerSpec.TryLock, BrokerSpec.Commit, BrokerSpec.Rollback, BrokerSpec.Finish, BrokerSpec.Recover,
      Do, AnswersTo, ReportOf, Calm, MayCommit, ListsOnly, Brokered;
    var t := e.ticket;
    var b := if t in sys.tickets then sys.tickets[t] else NEW_STATE;
    var k := if e.AskLock? then e.key else EMPTY;
    var s := if e.AtBroker? then e.shard else dir(k);
    var r := if e.AtBroker? then LinkOf(sys, t, s).resps[0] else LockError(EMPTY, UnknownTicket);
    var reports := if e.TakeUp? then e.reports else map[];
    AsksList(b, s, k, if e.AskLock? then e.lockType else Read, if e.AskCommit? then e.update else map[], reports);
    ResponseLists(b, s, r);
    match e
    case AskLock(_, _, ty) =>
      var step := BrokerSpec.TryLock(b, s, k, ty);
      BrokeredPlaced(sys, t, step, Told(ClientOfLock(b, ClientAt(sys, t)), k, step.reply), b.shards.Keys + {s});
    case AskCommit(_, update) =>
      BrokeredPlaced(sys, t, BrokerSpec.Commit(b, update), ClientOfCommit(b, ClientAt(sys, t), update), b.shards.Keys);
    case AskRollback(_) => BrokeredPlaced(sys, t, BrokerSpec.Rollback(b), ClientAt(sys, t), b.shards.Keys);
    case AskFinish(_) => BrokeredPlaced(sys, t, BrokerSpec.Finish(b), ClientAt(sys, t), b.shards.Keys);
    case AtBroker(_, _) =>
      if t in sys.tickets {
        var step := Receive(b, s, LinkOf(sys, t, s));
        BrokeredPlaced(Unread(sys, t, s), t, step, ClientOfResponse(ClientAt(sys, t), r, step.reply),
          b.shards.Keys + {s});
      }
    case TakeUp(_, _) =>
      BrokeredPlaced(Unlinked(sys, t).(lost := sys.lost - {t}), t, BrokerSpec.Recover(reports), ClientAt(sys, t),
        reports.Keys);
    case _ =>
  }

  lemma EventKeepsSound(dir: Key -> ShardId, init: map<Key, Value>, sys: System, e: Event)
    requires Sound(dir, init, sys) && Possible(sys, e)
    ensures Sound(dir, init, After(dir, sys, e))
  {
    hide SystemInv, Possible, After, Placed;
    EventKeepsSystem(dir, init, sys, e);
    EventKeepsPlaced(dir, sys, e);
  }

  /** The invariant holds in every reachable state of the system. */
  lemma {:induction false} ReachableSystem(dir: Key -> ShardId, init: map<Key, Value>, h: History, n: nat)
    requires Lawful(dir, init, h) && n < |h.states|
    ensures Sound(dir, init, h.states[n])
  {
    hide Possible, After, SystemInv;
    if n == 0 {
      InitialInv(dir, init, h.states[0]);
    } else {
      hide Sound, Initial;
      ReachableSystem(dir, init, h, n - 1);
      assert Follows(dir, h.states[n - 1], h.events[n - 1], h.states[n]);
      EventKeepsSound(dir, init, h.states[n - 1], h.events[n - 1]);
    }
  }

  /** Global serializability. In every reachable state the decided tickets, run one at a time in
      the order of their decisions, each see what they were told; and the value of a key at its
      shard is the serial one, up to decided writes that the shard has not applied yet. */
  lemma Serializable(dir: Key -> ShardId, init: map<Key, Value>, h: History, n: nat, k: Key)
    requires Lawful(dir, init, h) && n < |h.states|
    ensures SerialReads(init, h.states[n].order)
    ensures dir(k) < |h.states[n].shards| && ValueOk(dir, init, h.states[n], k)
  {
    hide Lawful, SerialReads, ValueOk, Wired;
    ReachableSystem(dir, init, h, n);
    assert KeyOk(dir, init, h.states[n], k);
  }

  /** No decided commit is under way, and no crashed broker has left a ticket behind. */
  ghost predicate Resting(sys: System) {
    && (forall t :: t in sys.tickets ==> !sys.tickets[t].phase.AllPrepared?)
    && (forall t, s :: t in sys.lost && 0 <= s < |sys.shards| ==> t !in sys.shards[s].tickets)
  }

  lemma RestingIsSettled(dir: Key -> ShardId, sys: System, t: Ticket, k: Key)
    requires Wired(dir, sys) && Listed(sys) && Resting(sys)
    ensures !Pending(dir, sys, t, k)
  {
    hide Inv, InOrder;
    if dir(k) < |sys.shards| && Has(sys.shards[dir(k)], t, Prepared) {
      assert CellOk(dir, sys, t, dir(k));
      hide Wired;
      assert t !in sys.lost;
      LinkFate(dir, RecordOf(sys, t), ClientAt(sys, t), t, dir(k), sys.shards[dir(k)], LinkOf(sys, t, dir(k)));
    }
  }

  /** Once no decided commit is under way, the shards together hold exactly the serial result. */
  lemma RestingSystemIsSerial(dir: Key -> ShardId, init: map<Key, Value>, h: History, n: nat, k: Key)
    requires Lawful(dir, init, h) && n < |h.states| && Resting(h.states[n])
    ensures var sys := h.states[n];
            dir(k) < |sys.shards| && ValueOf(sys.shards[dir(k)], k) == Lookup(Replay(init, sys.order), k)
  {
    hide Lawful, Resting, Wired, Listed, Pending, SerialReads, Replay;
    ReachableSystem(dir, init, h, n);
    assert KeyOk(dir, init, h.states[n], k);
    forall t ensures !Pending(dir, h.states[n], t, k) {
      RestingIsSettled(dir, h.states[n], t, k);
    }
  }

  /** No request that a broker sends ever meets the shard's fatal error. */
  lemma NoFatalError(dir: Key -> ShardId, init: map<Key, Value>, h: History, n: nat, e: Event)
    requires Lawful(dir, init, h) && n < |h.states| && e.AtShard? && e.shard < |h.states[n].shards|
    requires LinkOf(h.states[n], e.ticket, e.shard).reqs != []
    ensures Enabled(h.states[n].shards[e.shard], EventOp(h.states[n], e))
  {
    hide Lawful, Sound;
    ReachableSystem(dir, init, h, n);
    RequestIsEnabled(dir, init, h.states[n], e);
  }

  lemma RequestIsEnabled(dir: Key -> ShardId, init: map<Key, Value>, sys: System, e: Event)
    requires Sound(dir, init, sys) && e.AtShard? && e.shard < |sys.shards| && LinkOf(sys, e.ticket, e.shard).reqs != []
    ensures Enabled(sys.shards[e.shard], EventOp(sys, e))
  {
    assert CellOk(dir, sys, e.ticket, e.shard);
    hide Sound, LostOk, RecordOk;
    var link := LinkOf(sys, e.ticket, e.shard);
    assert link.reqs[0] in link.reqs;
  }

  // ---- Atomic commit ----

  /** What a shard holds of a ticket, given what its broker recorded. */
  ghost predicate OneFate(sys: System, t: Ticket, s: ShardId)
    requires s < |sys.shards|
  {
    var sh, link, decided := sys.shards[s], LinkOf(sys, t, s), InOrder(sys.order, t);
    && (Has(sh, t, Committed) ==> decided)
    && (decided ==> !Has(sh, t, Begun) && !Has(sh, t, Wounded))
    && (decided && Has(sh, t, Prepared) ==> t in sys.lost || CommitReq in link.reqs)
    && (decided && t in sys.tickets ==> RollbackDone(None) !in link.resps)
    && (t in sys.tickets && sys.tickets[t].phase.Aborted? ==> t !in sh.tickets && !decided)
    && (t in sys.tickets && sys.tickets[t].phase.AllCommitted? ==> !Has(sh, t, Prepared) && decided)
  }

  lemma LinkFate(dir: Key -> ShardId, b: Option<TicketState>, c: Client, t: Ticket, s: ShardId, sh: Shard, link: Link)
    requires LinkInv(dir, b, c, t, s, sh, link) && (b.Some? ==> TicketInv(dir, b.value, c))
    ensures Has(sh, t, Committed) ==> Decided(b)
    ensures b.None? || Decided(b) ==> !Has(sh, t, Begun) && !Has(sh, t, Wounded)
    ensures (b.None? || Decided(b)) && Has(sh, t, Prepared) ==>
            CommitReq in link.reqs && b.Some?
            && b.value.phase.AllPrepared?
    ensures Decided(b) ==> RollbackDone(None) !in link.resps
    ensures b.Some? && b.value.phase.Aborted? ==> t !in sh.tickets
    ensures Decided(b) && FinishReq in link.reqs && Has(sh, t, Committed) ==> b.value.phase.AllCommitted?
    ensures b.None? ==> t !in sh.tickets
  {
  }

  /** Atomic commit: in every reachable state a shard has committed a ticket only if its broker
      decided to, every shard of a decided ticket has committed it or holds it prepared with the
      commit on its way, and an aborted ticket is unknown to every shard. */
  lemma AllOrNothing(dir: Key -> ShardId, init: map<Key, Value>, h: History, n: nat, t: Ticket, s: ShardId)
    requires Lawful(dir, init, h) && n < |h.states| && s < |h.states[n].shards|
    ensures OneFate(h.states[n], t, s)
  {
    hide Lawful, LinkInv, Inv, TicketInv, TracksOwn, InOrder, SerialReads, KeyOk;
    ReachableSystem(dir, init, h, n);
    var sys := h.states[n];
    assert CellOk(dir, sys, t, s);
    hide Wired;
    if t !in sys.lost {
      LinkFate(dir, RecordOf(sys, t), ClientAt(sys, t), t, s, sys.shards[s], LinkOf(sys, t, s));
    }
  }

  // ---- What became of every write ----

  /** The order grows only when a broker decides on a response. */
  lemma OrderGrows(dir: Key -> ShardId, sys: System, e: Event)
    requires Possible(sys, e) && !e.Crash? && !e.TakeUp?
    ensures sys.order <= After(dir, sys, e).order && |After(dir, sys, e).order| <= |sys.order| + 1
    ensures |After(dir, sys, e).order| > |sys.order| ==>
              && e.AtBroker? && e.ticket in sys.tickets && !Decided(Some(sys.tickets[e.ticket]))
              && Decided(Receive(sys.tickets[e.ticket], e.shard, LinkOf(sys, e.ticket, e.shard)).state)
  {
    hide Handle, BrokerSpec.TryLock, BrokerSpec.Commit, BrokerSpec.Rollback, BrokerSpec.Finish, BrokerSpec.Recover,
      Do, AnswersTo, ReportOf, Calm, MayCommit;
    if e.ticket in sys.tickets {
      var k := if e.AskLock? then e.key else EMPTY;
      AskFair(dir, sys.tickets[e.ticket], ClientAt(sys, e.ticket), k, if e.AskLock? then e.lockType else Read,
        if e.AskCommit? then e.update else map[]);
    }
  }

  /** A ticket newly in the order was just decided. */
  lemma OrderStep(dir: Key -> ShardId, init: map<Key, Value>, sys: System, e: Event, t: Ticket)
    requires Sound(dir, init, sys) && Possible(sys, e)
    ensures InOrder(sys.order, t) && !InOrder(After(dir, sys, e).order, t) ==> e == Crash(t) && Idled(sys, t)
    ensures !InOrder(sys.order, t) && InOrder(After(dir, sys, e).order, t) ==>
              && e.AtBroker? && e.ticket == t && t in sys.tickets && !Decided(Some(sys.tickets[t]))
              && Decided(Receive(sys.tickets[t], e.shard, LinkOf(sys, t, e.shard)).state)
  {
    hide SystemInv, Idled;
    var r := After(dir, sys, e);
    if e.Crash? {
      InOrderWithout(sys.order, e.ticket, t);
      CrashedOrder(dir, init, sys, e.ticket);
    } else if e.TakeUp? {
      SoundIsWired(dir, init, sys);
      TakeUpOrder(dir, sys, e.ticket, e.reports);
    } else {
      OrderGrows(dir, sys, e);
      hide After, Possible;
      if InOrder(sys.order, t) {
        var i :| 0 <= i < |sys.order| && sys.order[i].ticket == t;
        assert r.order[i] == sys.order[i];
      } else if |r.order| > |sys.order| {
        NewTicket(dir, sys, e);
        assert r.order == sys.order + [r.order[|sys.order|]];
        InOrderGrows(sys.order, r.order[|sys.order|], t);
      } else {
        assert r.order == sys.order;
      }
    }
  }

  lemma SoundIsWired(dir: Key -> ShardId, init: map<Key, Value>, sys: System)
    requires Sound(dir, init, sys)
    ensures Wired(dir, sys) && Listed(sys)
  {
  }

  lemma CrashedOrder(dir: Key -> ShardId, init: map<Key, Value>, sys: System, t: Ticket)
    requires Sound(dir, init, sys) && t in sys.tickets
    ensures Crashed(sys, t).order == sys.order || Idled(sys, t)
  {
    hide Wired, Idled;
    if !Decided(RecordOf(sys, t)) { WithoutAbsent(sys.order, t); }
  }

  lemma NewTicket(dir: Key -> ShardId, sys: System, e: Event)
    requires Possible(sys, e) && e.AtBroker? && |After(dir, sys, e).order| > |sys.order|
    ensures After(dir, sys, e).order[|sys.order|].ticket == e.ticket
  {
    hide Handle;
  }

  /** What a client was told and asked for does not change once its ticket is decided. */
  lemma ClientStays(dir: Key -> ShardId, init: map<Key, Value>, sys: System, e: Event, t: Ticket)
    requires Sound(dir, init, sys) && Possible(sys, e) && InOrder(sys.order, t) && !(e == Crash(t) && Idled(sys, t))
    ensures ClientAt(After(dir, sys, e), t) == ClientAt(sys, t)
  {
    hide Handle, LinkInv, TicketInv, Inv, KeyOk, SerialReads, BrokerSpec.TryLock, BrokerSpec.Commit,
      BrokerSpec.Rollback, BrokerSpec.Finish, BrokerSpec.Recover, Do, AnswersTo, ReportOf, Calm, MayCommit, Reported,
      Idled;
    if e.ticket == t && t in sys.tickets {
      var k := if e.AskLock? then e.key else EMPTY;
      AskFair(dir, sys.tickets[t], ClientAt(sys, t), k, if e.AskLock? then e.lockType else Read, if e.AskCommit?
        then e.update else map[]);
      if e.AtBroker? {
        assert CellOk(dir, sys, t, e.shard);
        ReceiveFair(dir, sys.tickets[t], ClientAt(sys, t), t, e.shard, sys.shards[e.shard], LinkOf(sys, t, e.shard));
      }
    }
    hide Wired;
  }

  /** At step `m` the shard of `k` commits `t` and writes its update. */
  ghost predicate Applies(dir: Key -> ShardId, h: History, m: nat, t: Ticket, k: Key) {
    && m < |h.events| && m < |h.states|
    && Applied(dir, h.states[m], h.events[m], t, k)
  }

  ghost predicate Applied(dir: Key -> ShardId, sys: System, e: Event, t: Ticket, k: Key) {
    && e.AtShard? && e.ticket == t && e.shard == dir(k) && LinkOf(sys, t, dir(k)).reqs != []
    && EventOp(sys, e) == CommitOp(t) && Pending(dir, sys, t, k)
  }

  lemma PendingStep(dir: Key -> ShardId, init: map<Key, Value>, sys: System, e: Event, t: Ticket, k: Key)
    requires Sound(dir, init, sys) && Possible(sys, e) && Pending(dir, sys, t, k)
             && InOrder(After(dir, sys, e).order, t)
    ensures Pending(dir, After(dir, sys, e), t, k) || Applied(dir, sys, e, t, k)
  {
    hide Handle, BrokerSpec.TryLock, BrokerSpec.Commit, BrokerSpec.Rollback, BrokerSpec.Finish, BrokerSpec.Recover,
      Do, AnswersTo, ReportOf, Wired, Listed, InOrder, Reported, Calm, MayCommit, Idled;
    if e.AtShard? && e.shard == dir(k) {
      ShardedPending(dir, sys, e, t, k);
    }
  }

  lemma NewlyPending(dir: Key -> ShardId, init: map<Key, Value>, sys: System, e: Event, t: Ticket, k: Key)
    requires Sound(dir, init, sys) && Possible(sys, e) && !InOrder(sys.order, t) && InOrder(After(dir, sys, e).order, t)
    requires k in Writes(ClientAt(After(dir, sys, e), t))
    ensures Pending(dir, After(dir, sys, e), t, k)
  {
    OrderStep(dir, init, sys, e, t);
    SoundIsWired(dir, init, sys);
    DecisionKeys(dir, sys, t, e.shard, k);
    assert CellOk(dir, sys, t, e.shard);
    hide Wired, Sound, InOrder;
    ReceiveFair(dir, sys.tickets[t], ClientAt(sys, t), t, e.shard, sys.shards[e.shard], LinkOf(sys, t, e.shard));
    hide Handle, LinkInv, TicketInv;
  }

  /** Every write of every decided ticket has been applied at the key's shard, or is waiting there. */
  lemma {:induction false} WritesArrive(dir: Key -> ShardId, init: map<Key, Value>, h: History, n: nat, t: Ticket,
                                        k: Key)
    requires Lawful(dir, init, h) && n < |h.states|
    requires InOrder(h.states[n].order, t) && k in Writes(ClientAt(h.states[n], t))
    ensures Pending(dir, h.states[n], t, k) || exists m: nat :: m < n && Applies(dir, h, m, t, k)
    decreases n
  {
    hide Possible, After, Sound, Pending, Applied, Idled;
    if n > 0 {
      var sys, e := h.states[n - 1], h.events[n - 1];
      assert Follows(dir, sys, e, h.states[n]);
      ReachableSystem(dir, init, h, n - 1);
      if InOrder(sys.order, t) {
        OrderStep(dir, init, sys, e, t);
        CrashDrops(dir, init, sys, t);
        ClientStays(dir, init, sys, e, t);
        WritesArrive(dir, init, h, n - 1, t, k);
        if Pending(dir, sys, t, k) {
          PendingStep(dir, init, sys, e, t, k);
          assert Applied(dir, sys, e, t, k) ==> Applies(dir, h, n - 1, t, k);
        }
      } else {
        NewlyPending(dir, init, sys, e, t, k);
      }
    }
  }

  lemma CrashDrops(dir: Key -> ShardId, init: map<Key, Value>, sys: System, t: Ticket)
    requires Sound(dir, init, sys)
    ensures Possible(sys, Crash(t)) && Idled(sys, t) ==> !InOrder(After(dir, sys, Crash(t)).order, t)
  {
    hide Sound;
    InOrderWithout(sys.order, t, t);
  }

  /** Some shard has committed the ticket, or none holds it prepared any more. */
  ghost predicate Irrevocable(sys: System, t: Ticket) {
    && InOrder(sys.order, t)
    && ((exists sh :: sh in sys.shards && Has(sh, t, Committed)) || forall sh :: sh in sys.shards ==>
          !Has(sh, t, Prepared))
  }

  /** A decided ticket stays committed at a shard until it is committed everywhere and finished. */
  lemma CommittedStays(dir: Key -> ShardId, b: Option<TicketState>, c: Client, t: Ticket, s: ShardId, sh: Shard,
                       link: Link, op: Op)
    requires LinkInv(dir, b, c, t, s, sh, link) && Inv(sh) && Enabled(sh, op) && (b.None? || Decided(b))
    requires op.ticket == t ==> IsNext(op, t, link)
    ensures Has(sh, t, Committed) && !Has(Do(sh, op).shard, t, Committed) ==> b.Some? && b.value.phase.AllCommitted?
  {
    if op.ticket != t {
      OthersRecords(sh, op, t);
    } else {
      assert link.reqs[0] in link.reqs;
    }
  }

  /** What one shard step does to a decided ticket. */
  lemma ShardedDecided(dir: Key -> ShardId, sys: System, e: Event, t: Ticket)
    requires Wired(dir, sys) && Listed(sys) && e.AtShard? && Possible(sys, e) && InOrder(sys.order, t)
    ensures var sh, sh' := sys.shards[e.shard], Do(sys.shards[e.shard], EventOp(sys, e)).shard;
            && (Has(sh', t, Prepared) ==> Has(sh, t, Prepared))
            && (Has(sh, t, Committed) && !Has(sh', t, Committed) ==>
                  t in sys.tickets && t !in sys.lost
                  && sys.tickets[t].phase.AllCommitted?)
  {
    hide Do, LinkInv, Inv, AnswersTo, ReportOf;
    assert CellOk(dir, sys, t, e.shard) && ShardOk(dir, sys, e.shard);
    if t in sys.lost {
      ShardedLost(dir, sys, e, t);
    } else {
      var b, c, sh, link, op := RecordOf(sys, t), ClientAt(sys, t), sys.shards[e.shard], LinkOf(sys, t, e.shard),
        EventOp(sys, e);
      DecidedStays(dir, b, c, t, e.shard, sh, link, op);
      CommittedStays(dir, b, c, t, e.shard, sh, link, op);
    }
  }

  lemma NonePrepared(dir: Key -> ShardId, sys: System, t: Ticket)
    requires Wired(dir, sys) && t in sys.tickets && sys.tickets[t].phase.AllCommitted?
    ensures forall sh :: sh in sys.shards ==> !Has(sh, t, Prepared)
  {
    hide LinkInv, Inv, TicketInv, InOrder;
    forall s: ShardId | s < |sys.shards| ensures !Has(sys.shards[s], t, Prepared) {
      assert CellOk(dir, sys, t, s);
      LinkFate(dir, RecordOf(sys, t), ClientAt(sys, t), t, s, sys.shards[s], LinkOf(sys, t, s));
    }
  }

  lemma ShardedIrrevocable(dir: Key -> ShardId, sys: System, e: Event, t: Ticket)
    requires Wired(dir, sys) && Listed(sys) && e.AtShard? && Possible(sys, e) && Irrevocable(sys, t)
    ensures Irrevocable(Sharded(sys, e), t)
  {
    hide Do, AnswersTo, ReportOf, Wired, Listed, InOrder;
    var r := Sharded(sys, e);
    ShardedDecided(dir, sys, e, t);
    if forall sh :: sh in sys.shards ==> !Has(sh, t, Prepared) {
      forall s | 0 <= s < |r.shards| ensures !Has(r.shards[s], t, Prepared) {
        assert sys.shards[s] in sys.shards;
      }
    } else {
      var s :| 0 <= s < |sys.shards| && Has(sys.shards[s], t, Committed);
      if t in sys.tickets && sys.tickets[t].phase.AllCommitted? {
        NonePrepared(dir, sys, t);
      }
      assert r.shards[s] in r.shards && Has(r.shards[s], t, Committed);
    }
  }

  lemma IrrevocableStep(dir: Key -> ShardId, init: map<Key, Value>, sys: System, e: Event, t: Ticket)
    requires Sound(dir, init, sys) && Possible(sys, e) && Irrevocable(sys, t)
    ensures Irrevocable(After(dir, sys, e), t)
  {
    hide Sound, Handle, BrokerSpec.TryLock, BrokerSpec.Commit, BrokerSpec.Rollback, BrokerSpec.Finish,
      BrokerSpec.Recover, Do, AnswersTo, ReportOf, InOrder, Reported, Calm, MayCommit;
    if e.AtShard? {
      SoundIsWired(dir, init, sys);
      ShardedIrrevocable(dir, sys, e, t);
    } else {
      OrderStep(dir, init, sys, e, t);
      assert !Idled(sys, t);
      assert After(dir, sys, e).shards == sys.shards;
    }
  }

  lemma AppliedIsIrrevocable(dir: Key -> ShardId, init: map<Key, Value>, sys: System, e: Event, t: Ticket, k: Key)
    requires Sound(dir, init, sys) && Possible(sys, e) && Applied(dir, sys, e, t, k)
    ensures Irrevocable(After(dir, sys, e), t)
  {
    hide Sound, Do, InOrder, AnswersTo, ReportOf;
    var r := After(dir, sys, e);
    CommitEnds(sys.shards[e.shard], t);
    assert r.shards[e.shard] in r.shards && Has(r.shards[e.shard], t, Committed);
  }

  /** What is irrevocable stays so, whatever crashes and recoveries follow. */
  lemma {:induction false} IrrevocableRun(dir: Key -> ShardId, init: map<Key, Value>, h: History, m: nat, n: nat,
                                          t: Ticket)
    requires Lawful(dir, init, h) && m <= n < |h.states| && Irrevocable(h.states[m], t)
    ensures Irrevocable(h.states[n], t)
    decreases n
  {
    hide Possible, After, Sound, Irrevocable, Initial;
    if m < n {
      IrrevocableRun(dir, init, h, m, n - 1, t);
      ReachableSystem(dir, init, h, n - 1);
      assert Follows(dir, h.states[n - 1], h.events[n - 1], h.states[n]);
      IrrevocableStep(dir, init, h.states[n - 1], h.events[n - 1], t);
    }
  }

  lemma CommittedIsIrrevocable(dir: Key -> ShardId, init: map<Key, Value>, sys: System, t: Ticket)
    requires Sound(dir, init, sys) && t in sys.tickets && sys.tickets[t].phase.AllCommitted?
    ensures Irrevocable(sys, t)
  {
    hide Wired, InOrder, KeyOk, SerialReads;
    NonePrepared(dir, sys, t);
    assert Decided(RecordOf(sys, t));
  }

  /** Once a broker has counted a ticket as committed, which is when it reports the success of the
      commit, the ticket stays in the order for good, whatever crashes and recoveries follow. */
  lemma CommittedIsFinal(dir: Key -> ShardId, init: map<Key, Value>, h: History, m: nat, n: nat, t: Ticket)
    requires Lawful(dir, init, h) && m <= n < |h.states|
    requires t in h.states[m].tickets && h.states[m].tickets[t].phase.AllCommitted?
    ensures InOrder(h.states[n].order, t) && Irrevocable(h.states[n], t)
  {
    hide Lawful, Sound;
    ReachableSystem(dir, init, h, m);
    CommittedIsIrrevocable(dir, init, h.states[m], t);
    IrrevocableRun(dir, init, h, m, n, t);
  }

  /** Once a shard has applied a write of a ticket, the ticket is decided for good. */
  lemma AppliedIsFinal(dir: Key -> ShardId, init: map<Key, Value>, h: History, m: nat, n: nat, t: Ticket, k: Key)
    requires Lawful(dir, init, h) && m < n < |h.states| && Applies(dir, h, m, t, k)
    ensures Irrevocable(h.states[n], t)
  {
    hide Possible, After, Sound, Applied, Irrevocable, Initial;
    ReachableSystem(dir, init, h, m);
    assert Follows(dir, h.states[m], h.events[m], h.states[m + 1]);
    AppliedIsIrrevocable(dir, init, h.states[m], h.events[m], t, k);
    IrrevocableRun(dir, init, h, m + 1, n, t);
  }

  /** No shard and no broker knows the ticket any more. */
  ghost predicate Gone(sys: System, t: Ticket) {
    t !in sys.tickets && forall sh :: sh in sys.shards ==> t !in sh.tickets
  }

  /** Atomic commit over whole runs, whatever crashes and recoveries they contain: a ticket that
      is gone was decided and all its writes were applied, or none of its writes ever was. */
  lemma AtomicOutcome(dir: Key -> ShardId, init: map<Key, Value>, h: History, n: nat, t: Ticket)
    requires Lawful(dir, init, h) && n < |h.states| && Gone(h.states[n], t)
    ensures if InOrder(h.states[n].order, t)
            then forall k :: k in Writes(ClientAt(h.states[n], t)) ==>
              exists m: nat :: m < n && Applies(dir, h, m, t, k)
            else forall m: nat, k :: m < n ==> !Applies(dir, h, m, t, k)
  {
    hide Lawful, Applies, InOrder, Writes;
    if InOrder(h.states[n].order, t) {
      forall k | k in Writes(ClientAt(h.states[n], t)) ensures exists m: nat :: m < n && Applies(dir, h, m, t, k) {
        WritesArrive(dir, init, h, n, t, k);
      }
    } else {
      forall m: nat, k | m < n ensures !Applies(dir, h, m, t, k) {
        if Applies(dir, h, m, t, k) { AppliedIsFinal(dir, init, h, m, n, t, k); }
      }
    }
  }
}
