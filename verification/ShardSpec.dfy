/** The operations of one runtime locking shard as functions on values, and the
    invariant every operation keeps.

    Each operation of src/parsec/runtime_locking_shard/impl.cpp runs under one mutex,
    so it is one step from a `Shard` to a `Shard`, together with the set of answers
    given to waiting lock requests. Which locks a ticket holds or queues for is read off
    the lock table; the class `RuntimeLockingShard` keeps the source's second table too. */
module ShardSpec {
  import opened Basics
  import opened LockTable

  datatype Phase = Begun | Wounded | Prepared | Committed

  datatype WoundDetails = WoundDetails(ticket: Ticket, key: Key)

  datatype ErrorCode =
    | AlreadyPrepared | TicketWounded | LockHeld | LockQueued | UnknownTicket | LockNotHeld
    | UpdateWithReadLock | NotPrepared | AlreadyCommitted | NotCommitted | InternalError

  datatype TicketInfo = TicketInfo(
    phase: Phase, update: map<Key, Value>, broker: nat, wound: Option<WoundDetails>)

  datatype Element = Element(value: Value, lock: RwLock)

  datatype Shard = Shard(elements: map<Key, Element>, tickets: map<Ticket, TicketInfo>)

  /** The answer to one lock request, identified by its callback. */
  datatype Answer =
    | Granted(callback: nat, ticket: Ticket, key: Key, value: Value)
    | Refused(callback: nat, ticket: Ticket, key: Key, code: ErrorCode, details: Option<WoundDetails>)

  datatype Outcome = Outcome(shard: Shard, answers: set<Answer>)

  const NEW_TICKET := TicketInfo(Begun, map[], 0, None)
  const NEW_ELEMENT := Element(EMPTY, FREE)
  const EMPTY_SHARD := Shard(map[], map[])

  function ElementAt(e: map<Key, Element>, k: Key): Element {
    if k in e then e[k] else NEW_ELEMENT
  }

  function LockOf(s: Shard, k: Key): RwLock { ElementAt(s.elements, k).lock }

  function ValueOf(s: Shard, k: Key): Value { ElementAt(s.elements, k).value }

  predicate Has(s: Shard, t: Ticket, p: Phase) { t in s.tickets && s.tickets[t].phase == p }

  /** The locks that `t` holds, as its `m_locks_held` lists them. */
  function HeldBy(e: map<Key, Element>, t: Ticket): (h: map<Key, LockType>) {
    map k | k in e && Holds(e[k].lock, t) :: if HoldsWrite(e[k].lock, t) then Write else Read
  }

  /** The keys that `t` waits for, as its `m_queued_locks` lists them. */
  function QueuedBy(e: map<Key, Element>, t: Ticket): (q: set<Key>) {
    set k | k in e && t in e[k].lock.queue
  }

  function PreparedTickets(s: Shard): set<Ticket> {
    set t | t in s.tickets && s.tickets[t].phase.Prepared?
  }

  // ---- Releasing locks and granting them to the queues ----

  /** Releases everything the victims hold or queue for, then settles every queue. */
  function Relock(e: map<Key, Element>, victims: set<Ticket>): (r: map<Key, Element>)
    ensures r.Keys == e.Keys
  {
    map k | k in e :: Element(e[k].value, Settle(Release(e[k].lock, victims)))
  }

  function AnswerTo(e: map<Key, Element>, tickets: map<Ticket, TicketInfo>, victims: set<Ticket>, k: Key,
                    t: Ticket): Answer
    requires k in e && t in e[k].lock.queue
  {
    var callback := e[k].lock.queue[t].callback;
    if t in victims then
      Refused(callback, t, k, TicketWounded, if t in tickets then tickets[t].wound else None)
    else
      Granted(callback, t, k, e[k].value)
  }

  /** Every request that leaves a queue is answered. */
  function RelockAnswers(e: map<Key, Element>, tickets: map<Ticket, TicketInfo>, victims: set<Ticket>): set<Answer> {
    var r := Relock(e, victims);
    set k, t | k in e && t in e[k].lock.queue && t !in r[k].lock.queue :: AnswerTo(e, tickets, victims, k, t)
  }

  // ---- try_lock ----

  function TryLockRefusal(s: Shard, t: Ticket, k: Key, ty: LockType, first: bool): Option<ErrorCode> {
    if t !in s.tickets then
      if first then None else Some(UnknownTicket)
    else match s.tickets[t].phase
      case Prepared => Some(AlreadyPrepared)
      case Committed => Some(AlreadyCommitted)
      case Wounded => Some(TicketWounded)
      case Begun =>
        if HoldsWrite(LockOf(s, k), t) || (HoldsRead(LockOf(s, k), t) && ty.Read?) then Some(LockHeld)
        else if t in LockOf(s, k).queue then Some(LockQueued)
        else None
  }

  /** The tickets wounded by a request: younger blocking holders that are not prepared. */
  function Victims(s: Shard, t: Ticket, k: Key, ty: LockType): set<Ticket> {
    set b | b in WaitingOn(LockOf(s, k), t, ty) && !Has(s, b, Prepared)
  }

  function WoundAll(tickets: map<Ticket, TicketInfo>, victims: set<Ticket>, winner: Ticket, k: Key): map<Ticket,
                    TicketInfo> {
    map b | b in tickets :: if b in victims then tickets[b].(phase := Wounded, wound := Some(WoundDetails(winner, k)))
    else tickets[b]
  }

  function Register(s: Shard, t: Ticket, broker: nat): map<Ticket, TicketInfo> {
    s.tickets[t := (if t in s.tickets then s.tickets[t] else NEW_TICKET).(broker := broker)]
  }

  /** The element table just after the request has been queued. */
  function Queued(s: Shard, t: Ticket, k: Key, w: Waiter): (e: map<Key, Element>)
    ensures k in e
  {
    s.elements[k := Element(ValueOf(s, k), Enqueue(LockOf(s, k), t, w))]
  }

  /** A first lock on a known ticket is a fatal error of the source. */
  function TryLock(s: Shard, t: Ticket, broker: nat, k: Key, ty: LockType, first: bool, callback: nat): Outcome
    requires first ==> t !in s.tickets
  {
    var refusal := TryLockRefusal(s, t, k, ty, first);
    if refusal.Some? then
      var details := if t in s.tickets && refusal.value.TicketWounded? then s.tickets[t].wound else None;
      Outcome(s, {Refused(callback, t, k, refusal.value, details)})
    else
      var e := Queued(s, t, k, Waiter(ty, callback));
      var victims := Victims(s, t, k, ty);
      var tickets := WoundAll(Register(s, t, broker), victims, t, k);
      Outcome(Shard(Relock(e, victims), tickets), RelockAnswers(e, tickets, victims))
  }

  // ---- prepare ----

  /** The errors prepare may report; which of several is reported depends on the order in
      which the update's keys are visited. */
  function PrepareRefusals(s: Shard, t: Ticket, update: map<Key, Value>): set<ErrorCode> {
    if t !in s.tickets then {UnknownTicket}
    else match s.tickets[t].phase
      case Prepared => {AlreadyPrepared}
      case Committed => {AlreadyCommitted}
      case Wounded => {TicketWounded}
      case Begun =>
        if QueuedBy(s.elements, t) != {} then {LockQueued}
        else
          (if exists k :: k in update && !Holds(LockOf(s, k), t) then {LockNotHeld} else {})
          + (if exists k :: k in update && Holds(LockOf(s, k), t) && !HoldsWrite(LockOf(s, k), t)
            then {UpdateWithReadLock} else {})
  }

  function Prepare(s: Shard, t: Ticket, update: map<Key, Value>): Shard {
    if PrepareRefusals(s, t, update) != {} then s
    else
      assert t in s.tickets;
      s.(tickets := s.tickets[t := s.tickets[t].(phase := Prepared, update := update)])
  }

  // ---- commit, rollback, finish ----

  function CommitRefusal(s: Shard, t: Ticket): Option<ErrorCode> {
    if t !in s.tickets then Some(UnknownTicket)
    else if !s.tickets[t].phase.Prepared? then Some(NotPrepared)
    else None
  }

  /** Writes an update into the element table. */
  function Apply(e: map<Key, Element>, update: map<Key, Value>): (r: map<Key, Element>)
    ensures r.Keys == e.Keys + update.Keys
  {
    map k | k in e.Keys + update.Keys ::
      if k in update then Element(update[k], ElementAt(e, k).lock) else e[k]
  }

  function Commit(s: Shard, t: Ticket): Outcome {
    if CommitRefusal(s, t).Some? then Outcome(s, {})
    else
      assert t in s.tickets;
      var e := Apply(s.elements, s.tickets[t].update);
      Outcome(
        Shard(Relock(e, {t}), s.tickets[t := s.tickets[t].(phase := Committed)]),
        RelockAnswers(e, s.tickets, {t}))
  }

  function Rollback(s: Shard, t: Ticket): Outcome {
    if t !in s.tickets then Outcome(s, {})
    else Outcome(Shard(Relock(s.elements, {t}), s.tickets - {t}), RelockAnswers(s.elements, s.tickets, {t}))
  }

  function FinishRefusal(s: Shard, t: Ticket): Option<ErrorCode> {
    if t !in s.tickets then Some(UnknownTicket)
    else if !s.tickets[t].phase.Committed? then Some(NotCommitted)
    else None
  }

  function Finish(s: Shard, t: Ticket): Shard {
    if FinishRefusal(s, t).Some? then s else s.(tickets := s.tickets - {t})
  }

  // ---- The invariant ----

  ghost predicate LockInv(s: Shard, k: Key)
    requires k in s.elements
  {
    var l := s.elements[k].lock;
    && WellFormed(l)
    && !Grantable(l)
    && Ordered(l, PreparedTickets(s))
    && (forall t :: Holds(l, t) ==> Has(s, t, Begun) || Has(s, t, Prepared))
    && (forall t :: t in l.queue ==> Has(s, t, Begun))
  }

  /** The stored update of a prepared ticket writes only keys that the ticket has locked for writing. */
  ghost predicate UpdatesLocked(s: Shard) {
    forall t, k :: Has(s, t, Prepared) && k in s.tickets[t].update ==>
      k in s.elements && HoldsWrite(s.elements[k].lock, t)
  }

  ghost predicate Inv(s: Shard) {
    && (forall k :: k in s.elements ==> LockInv(s, k))
    && UpdatesLocked(s)
  }

  // ---- Every operation keeps the invariant ----

  /** What releasing and granting does to one lock. */
  lemma RelockFacts(e: map<Key, Element>, victims: set<Ticket>, k: Key, safe: set<Ticket>)
    requires k in e && WellFormed(e[k].lock) && Ordered(e[k].lock, safe)
    ensures var l := Relock(e, victims)[k].lock;
            && WellFormed(l) && !Grantable(l) && Ordered(l, safe - victims)
            && (forall t :: t in victims ==> !Mentions(l, t))
            && (forall t :: Mentions(l, t) ==> Mentions(e[k].lock, t))
            && (forall t :: t in l.queue ==> t in e[k].lock.queue && l.queue[t] == e[k].lock.queue[t])
            && (forall t :: t !in victims && HoldsRead(e[k].lock, t) ==>
                  HoldsRead(l, t) || (HoldsWrite(l, t) && t in e[k].lock.queue))
            && (forall t :: t !in victims && HoldsWrite(e[k].lock, t) ==> HoldsWrite(l, t))
            && (forall t :: t !in victims && t in e[k].lock.queue && t !in l.queue ==> Holds(l, t))
            && (forall t :: Holds(l, t) ==> Holds(e[k].lock, t) || t in e[k].lock.queue)
            && (forall t :: HoldsWrite(l, t) ==> HoldsWrite(e[k].lock, t) || t in e[k].lock.queue)
  {
    var l := Release(e[k].lock, victims);
    ReleaseFacts(e[k].lock, safe, victims);
    SettleFacts(l, safe - victims);
  }

  /** A lock of the table `e` that is ready to be relocked into the shard `r`. */
  ghost predicate LockReady(l: RwLock, victims: set<Ticket>, r: Shard, safe: set<Ticket>) {
    && WellFormed(l)
    && Ordered(l, safe)
    && (forall t :: t !in victims && Holds(l, t) ==> Has(r, t, Begun) || Has(r, t, Prepared))
    && (forall t :: t !in victims && t in l.queue ==> Has(r, t, Begun))
  }

  /** Every prepared ticket of `r` has its update's keys locked for writing in `e`. */
  ghost predicate UpdatesLockedIn(e: map<Key, Element>, r: Shard) {
    forall t, k :: Has(r, t, Prepared) && k in r.tickets[t].update ==> k in e && HoldsWrite(e[k].lock, t)
  }

  lemma RelockKeepsInv(e: map<Key, Element>, victims: set<Ticket>, r: Shard, safe: set<Ticket>)
    requires r.elements == Relock(e, victims)
    requires PreparedTickets(r) == safe - victims
    requires forall k :: k in e ==> LockReady(e[k].lock, victims, r, safe)
    requires UpdatesLockedIn(e, r)
    ensures Inv(r)
  {
    forall k | k in r.elements ensures LockInv(r, k) {
      assert LockReady(e[k].lock, victims, r, safe);
      RelockFacts(e, victims, k, safe);
    }
    forall t, k | Has(r, t, Prepared) && k in r.tickets[t].update
      ensures k in r.elements && HoldsWrite(r.elements[k].lock, t)
    {
      assert t in PreparedTickets(r);
      assert LockReady(e[k].lock, victims, r, safe);
      RelockFacts(e, victims, k, safe);
    }
  }

  lemma QueuedLockReady(s: Shard, t: Ticket, broker: nat, k: Key, w: Waiter, r: Shard, j: Key)
    requires j in s.elements ==> LockInv(s, j)
    requires t in s.tickets ==> s.tickets[t].phase.Begun?
    requires !HoldsWrite(LockOf(s, k), t) && t !in LockOf(s, k).queue
    requires HoldsRead(LockOf(s, k), t) ==> w.lockType.Write?
    requires r.tickets == WoundAll(Register(s, t, broker), Victims(s, t, k, w.lockType), t, k)
    requires j in Queued(s, t, k, w)
    ensures LockReady(Queued(s, t, k, w)[j].lock, Victims(s, t, k, w.lockType), r,
                      PreparedTickets(s) + Victims(s, t, k, w.lockType))
  {
    var l := Queued(s, t, k, w)[j].lock;
    var victims := Victims(s, t, k, w.lockType);
    forall b | b !in victims && Holds(l, b) ensures Has(r, b, Begun) || Has(r, b, Prepared) {
      assert Holds(LockOf(s, j), b);
    }
    forall a, b | a in l.queue && Blocks(l, b, a, l.queue[a].lockType)
      ensures b < a || b in PreparedTickets(s) + victims
    {
      assert Blocks(LockOf(s, j), b, a, l.queue[a].lockType) && Holds(LockOf(s, j), b);
    }
  }

  lemma WoundingKeepsPrepared(s: Shard, t: Ticket, broker: nat, k: Key, ty: LockType, r: Shard)
    requires t in s.tickets ==> s.tickets[t].phase.Begun?
    requires r.tickets == WoundAll(Register(s, t, broker), Victims(s, t, k, ty), t, k)
    ensures PreparedTickets(r) == (PreparedTickets(s) + Victims(s, t, k, ty)) - Victims(s, t, k, ty)
    ensures forall b :: Has(r, b, Prepared) ==> Has(s, b, Prepared) && r.tickets[b] == s.tickets[b]
  {
  }

  lemma QueuedUpdatesLocked(s: Shard, t: Ticket, k: Key, w: Waiter, r: Shard)
    requires UpdatesLocked(s)
    requires forall b :: Has(r, b, Prepared) ==> Has(s, b, Prepared) && r.tickets[b] == s.tickets[b]
    ensures UpdatesLockedIn(Queued(s, t, k, w), r)
  {
    forall b, j | Has(r, b, Prepared) && j in r.tickets[b].update
      ensures j in Queued(s, t, k, w) && HoldsWrite(Queued(s, t, k, w)[j].lock, b)
    {
      assert HoldsWrite(s.elements[j].lock, b);
    }
  }

  /** What an accepted request finds: its ticket is live and neither holds nor queues for what it asks. */
  lemma AcceptedRequest(s: Shard, t: Ticket, k: Key, ty: LockType, first: bool)
    requires Inv(s) && TryLockRefusal(s, t, k, ty, first).None?
    ensures t in s.tickets ==> s.tickets[t].phase.Begun?
    ensures !HoldsWrite(LockOf(s, k), t) && t !in LockOf(s, k).queue
    ensures HoldsRead(LockOf(s, k), t) ==> ty.Write?
  {
    if t !in s.tickets && k in s.elements {
      assert LockInv(s, k);
      assert !Holds(s.elements[k].lock, t);
    }
  }

  lemma TryLockKeepsInv(s: Shard, t: Ticket, broker: nat, k: Key, ty: LockType, first: bool, callback: nat)
    requires Inv(s) && (first ==> t !in s.tickets)
    ensures Inv(TryLock(s, t, broker, k, ty, first, callback).shard)
  {
    if TryLockRefusal(s, t, k, ty, first).None? {
      var w := Waiter(ty, callback);
      var e := Queued(s, t, k, w);
      var victims := Victims(s, t, k, ty);
      var r := TryLock(s, t, broker, k, ty, first, callback).shard;
      AcceptedRequest(s, t, k, ty, first);
      WoundingKeepsPrepared(s, t, broker, k, ty, r);
      forall j | j in e ensures LockReady(e[j].lock, victims, r, PreparedTickets(s) + victims) {
        QueuedLockReady(s, t, broker, k, w, r, j);
      }
      QueuedUpdatesLocked(s, t, k, w, r);
      RelockKeepsInv(e, victims, r, PreparedTickets(s) + victims);
    }
  }

  lemma PrepareKeepsInv(s: Shard, t: Ticket, update: map<Key, Value>)
    requires Inv(s)
    ensures Inv(Prepare(s, t, update))
  {
    if PrepareRefusals(s, t, update) == {} {
      var r := Prepare(s, t, update);
      assert PreparedTickets(r) == PreparedTickets(s) + {t};
      forall j | j in r.elements ensures LockInv(r, j) {
        assert LockInv(s, j);
        assert j !in QueuedBy(s.elements, t);
      }
    }
  }

  /** Writing a prepared ticket's update leaves the key set and every lock as they were. */
  lemma ApplyKeepsLocks(s: Shard, t: Ticket)
    requires UpdatesLocked(s) && Has(s, t, Prepared)
    ensures var e := Apply(s.elements, s.tickets[t].update);
            e.Keys == s.elements.Keys && forall k :: k in e ==> e[k].lock == s.elements[k].lock
  {
  }

  /** Removing one ticket's locks, as commit and rollback do, keeps the invariant. */
  lemma RemovalKeepsInv(s: Shard, t: Ticket, e: map<Key, Element>, r: Shard)
    requires Inv(s)
    requires e.Keys == s.elements.Keys && forall k :: k in e ==> e[k].lock == s.elements[k].lock
    requires r.elements == Relock(e, {t})
    requires r.tickets - {t} == s.tickets - {t} && !Has(r, t, Prepared)
    ensures Inv(r)
  {
    assert SameBut(s, r, t) by {
      assert forall b :: b != t && b in s.tickets ==> s.tickets[b] == (s.tickets - {t})[b];
      assert forall b :: b != t && b in r.tickets ==> r.tickets[b] == (r.tickets - {t})[b];
    }
    assert PreparedTickets(r) == PreparedTickets(s) - {t};
    forall j | j in e ensures LockReady(e[j].lock, {t}, r, PreparedTickets(s)) {
      LockReadyWithout(s, t, r, j);
    }
    UpdatesLockedWithout(s, t, e, r);
    RelockKeepsInv(e, {t}, r, PreparedTickets(s));
  }

  ghost predicate SameBut(s: Shard, r: Shard, t: Ticket) {
    forall b :: b != t ==> (b in s.tickets <==> b in r.tickets) && (b in s.tickets ==> r.tickets[b] == s.tickets[b])
  }

  lemma LockReadyWithout(s: Shard, t: Ticket, r: Shard, j: Key)
    requires j in s.elements && LockInv(s, j) && SameBut(s, r, t)
    ensures LockReady(s.elements[j].lock, {t}, r, PreparedTickets(s))
  {
  }

  lemma UpdatesLockedWithout(s: Shard, t: Ticket, e: map<Key, Element>, r: Shard)
    requires UpdatesLocked(s) && SameBut(s, r, t) && !Has(r, t, Prepared)
    requires e.Keys == s.elements.Keys && forall k :: k in e ==> e[k].lock == s.elements[k].lock
    ensures UpdatesLockedIn(e, r)
  {
    forall b, j | Has(r, b, Prepared) && j in r.tickets[b].update ensures j in e && HoldsWrite(e[j].lock, b) {
      assert Has(s, b, Prepared) && j in s.tickets[b].update;
    }
  }

  lemma CommitKeepsInv(s: Shard, t: Ticket)
    requires Inv(s)
    ensures Inv(Commit(s, t).shard)
  {
    if CommitRefusal(s, t).None? {
      ApplyKeepsLocks(s, t);
      RemovalKeepsInv(s, t, Apply(s.elements, s.tickets[t].update), Commit(s, t).shard);
    }
  }

  lemma RollbackKeepsInv(s: Shard, t: Ticket)
    requires Inv(s)
    ensures Inv(Rollback(s, t).shard)
  {
    if t in s.tickets {
      RemovalKeepsInv(s, t, s.elements, Rollback(s, t).shard);
    }
  }

  lemma FinishKeepsInv(s: Shard, t: Ticket)
    requires Inv(s)
    ensures Inv(Finish(s, t))
  {
    if FinishRefusal(s, t).None? {
      var r := Finish(s, t);
      assert PreparedTickets(r) == PreparedTickets(s);
      forall j | j in r.elements ensures LockInv(r, j) {
        assert LockInv(s, j);
      }
    }
  }
}
