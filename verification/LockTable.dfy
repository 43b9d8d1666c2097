/** One read/write lock with its queue of waiting tickets, as values.

    A queue is ordered by ticket number, so its front is its oldest ticket
    (src/parsec/runtime_locking_shard/impl.hpp, `rw_lock_type`). */
module LockTable {
  import opened Basics

  datatype LockType = Read | Write {
    /** Write locks subsume read locks. */
    predicate Covers(other: LockType) { this.Write? || other.Read? }
  }

  /** A queued request: the type asked for, and the identity of the callback to answer. */
  datatype Waiter = Waiter(lockType: LockType, callback: nat)

  datatype RwLock = RwLock(writer: Option<Ticket>, readers: set<Ticket>, queue: map<Ticket, Waiter>)

  const FREE := RwLock(None, {}, map[])

  predicate HoldsRead(l: RwLock, t: Ticket) { t in l.readers }

  predicate HoldsWrite(l: RwLock, t: Ticket) { l.writer == Some(t) }

  predicate Holds(l: RwLock, t: Ticket) { HoldsRead(l, t) || HoldsWrite(l, t) }

  predicate Mentions(l: RwLock, t: Ticket) { Holds(l, t) || t in l.queue }

  /** `b` holds a lock that is incompatible with a request of type `ty` by `t`. */
  predicate Blocks(l: RwLock, b: Ticket, t: Ticket, ty: LockType) {
    b != t && (HoldsWrite(l, b) || (ty.Write? && HoldsRead(l, b)))
  }

  /** A writer excludes readers; only a read holder that wants to upgrade is also queued. */
  predicate WellFormed(l: RwLock) {
    && (l.writer.Some? ==> l.readers == {} && l.writer.value !in l.queue)
    && (forall t :: t in l.readers && t in l.queue ==> l.queue[t].lockType.Write?)
  }

  /** The oldest queued ticket. */
  function Front(q: map<Ticket, Waiter>): (f: Ticket)
    requires q != map[]
    ensures f in q && forall u :: u in q ==> f <= u
  {
    LeastExists(q.Keys);
    var t :| IsLeast(q.Keys, t);
    t
  }

  predicate Grantable(l: RwLock) {
    && l.queue != map[]
    && l.writer.None?
    && var f := Front(l.queue);
       l.queue[f].lockType.Write? ==> l.readers <= {f}
  }

  function GrantFront(l: RwLock): (r: RwLock)
    requires Grantable(l)
  {
    var f := Front(l.queue);
    match l.queue[f].lockType
    case Read => RwLock(None, l.readers + {f}, l.queue - {f})
    case Write => RwLock(Some(f), {}, l.queue - {f})
  }

  /** Grants from the front of the queue until the front cannot be granted. */
  function Settle(l: RwLock): (r: RwLock)
    decreases |l.queue|
  {
    if Grantable(l) then
      assert l.queue.Keys == (l.queue - {Front(l.queue)}).Keys + {Front(l.queue)};
      Settle(GrantFront(l))
    else l
  }

  /** Drops every mention of the tickets in `ts`. */
  function Release(l: RwLock, ts: set<Ticket>): RwLock {
    RwLock(if l.writer.Some? && l.writer.value in ts then None else l.writer, l.readers - ts, l.queue - ts)
  }

  function Enqueue(l: RwLock, t: Ticket, w: Waiter): RwLock {
    l.(queue := l.queue[t := w])
  }

  /** The younger holders that a request by `t` would wait for. */
  function WaitingOn(l: RwLock, t: Ticket, ty: LockType): (ts: set<Ticket>)
    ensures forall b :: b in ts <==> t < b && Blocks(l, b, t, ty)
  {
    (set b | b in l.readers && ty.Write? && t < b)
    + (if l.writer.Some? && t < l.writer.value then {l.writer.value} else {})
  }

  /** Wound-wait order: a waiting ticket is blocked only by older or by protected holders. */
  ghost predicate Ordered(l: RwLock, safe: set<Ticket>) {
    forall w, b :: w in l.queue && Blocks(l, b, w, l.queue[w].lockType) ==> b < w || b in safe
  }

  // ---- Granting ----

  /** How a lock may change by granting: holders stay or are upgraded, queued tickets become holders. */
  ghost predicate GrantsOnly(l: RwLock, r: RwLock) {
    && (forall t :: t in r.queue ==> t in l.queue && r.queue[t] == l.queue[t])
    && (forall t :: HoldsRead(l, t) ==> HoldsRead(r, t) || (HoldsWrite(r, t) && t in l.queue && t !in r.queue))
    && (forall t :: HoldsWrite(l, t) ==> HoldsWrite(r, t))
    && (forall t :: t in l.queue && t !in r.queue ==>
          match l.queue[t].lockType
          case Read => HoldsRead(r, t)
          case Write => HoldsWrite(r, t))
    && (forall t :: Holds(r, t) ==> Holds(l, t) || (t in l.queue && t !in r.queue))
    && (forall t :: HoldsWrite(r, t) && !HoldsWrite(l, t) ==> t in l.queue && l.queue[t].lockType.Write?)
  }

  lemma GrantFrontFacts(l: RwLock, safe: set<Ticket>)
    requires WellFormed(l) && Ordered(l, safe) && Grantable(l)
    ensures WellFormed(GrantFront(l)) && Ordered(GrantFront(l), safe)
    ensures GrantsOnly(l, GrantFront(l))
  {
  }

  lemma {:induction false} SettleFacts(l: RwLock, safe: set<Ticket>)
    requires WellFormed(l) && Ordered(l, safe)
    ensures WellFormed(Settle(l)) && Ordered(Settle(l), safe)
    ensures !Grantable(Settle(l))
    ensures GrantsOnly(l, Settle(l))
    decreases |l.queue|
  {
    if Grantable(l) {
      var m := GrantFront(l);
      assert l.queue.Keys == m.queue.Keys + {Front(l.queue)};
      GrantFrontFacts(l, safe);
      SettleFacts(m, safe);
    }
  }

  lemma ReleaseFacts(l: RwLock, safe: set<Ticket>, ts: set<Ticket>)
    requires WellFormed(l) && Ordered(l, safe)
    ensures WellFormed(Release(l, ts)) && Ordered(Release(l, ts), safe - ts)
    ensures forall t :: t !in ts ==> (HoldsRead(Release(l, ts), t) <==> HoldsRead(l, t))
    ensures forall t :: t !in ts ==> (HoldsWrite(Release(l, ts), t) <==> HoldsWrite(l, t))
    ensures forall t :: t in ts ==> !Mentions(Release(l, ts), t)
  {
  }

  lemma ReleaseNothing(l: RwLock, ts: set<Ticket>)
    requires forall t :: t in ts ==> !Mentions(l, t)
    ensures Release(l, ts) == l
  {
    assert l.readers - ts == l.readers;
    assert l.queue - ts == l.queue;
  }
}
