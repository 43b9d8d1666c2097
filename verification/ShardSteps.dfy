/** One step of a shard, and what a step may do to the tickets, values and locks it is not about. */
module ShardSteps {
  import opened Basics
  import opened LockTable
  import opened ShardSpec

  datatype Op =
    | TryLockOp(ticket: Ticket, broker: nat, key: Key, lockType: LockType, first: bool, callback: nat)
    | PrepareOp(ticket: Ticket, update: map<Key, Value>)
    | CommitOp(ticket: Ticket)
    | RollbackOp(ticket: Ticket)
    | FinishOp(ticket: Ticket)

  /** A first lock on a known ticket ends the process, so it is not a step. */
  predicate Enabled(s: Shard, op: Op) {
    op.TryLockOp? && op.first ==> op.ticket !in s.tickets
  }

  function Do(s: Shard, op: Op): Outcome
    requires Enabled(s, op)
  {
    match op
    case TryLockOp(t, broker, k, ty, first, callback) => TryLock(s, t, broker, k, ty, first, callback)
    case PrepareOp(t, update) => Outcome(Prepare(s, t, update), {})
    case CommitOp(t) => Commit(s, t)
    case RollbackOp(t) => Rollback(s, t)
    case FinishOp(t) => Outcome(Finish(s, t), {})
  }

  lemma StepKeepsInv(s: Shard, op: Op)
    requires Inv(s) && Enabled(s, op)
    ensures Inv(Do(s, op).shard)
  {
    match op
    case TryLockOp(t, broker, k, ty, first, callback) => TryLockKeepsInv(s, t, broker, k, ty, first, callback);
    case PrepareOp(t, update) => PrepareKeepsInv(s, t, update);
    case CommitOp(t) => CommitKeepsInv(s, t);
    case RollbackOp(t) => RollbackKeepsInv(s, t);
    case FinishOp(t) => FinishKeepsInv(s, t);
  }

  // ---- Shape of a step that releases locks ----

  /** The tickets that lose all their locks in a step. */
  function Losers(s: Shard, op: Op): set<Ticket> {
    match op
    case TryLockOp(t, _, k, ty, first, _) =>
      if TryLockRefusal(s, t, k, ty, first).None? then Victims(s, t, k, ty) else {}
    case CommitOp(t) => if CommitRefusal(s, t).None? then {t} else {}
    case RollbackOp(t) => if t in s.tickets then {t} else {}
    case _ => {}
  }

  /** The element table on which a step releases and grants. */
  function Staged(s: Shard, op: Op): map<Key, Element> {
    match op
    case TryLockOp(t, _, k, ty, first, callback) =>
      if TryLockRefusal(s, t, k, ty, first).None? then Queued(s, t, k, Waiter(ty, callback)) else s.elements
    case CommitOp(t) =>
      if CommitRefusal(s, t).None? then
        assert t in s.tickets;
        Apply(s.elements, s.tickets[t].update)
      else s.elements
    case _ => s.elements
  }

  /** A lock that mentions no loser and whose front cannot be granted is left alone by a relock. */
  lemma RelockIdle(l: RwLock, losers: set<Ticket>)
    requires !Grantable(l) && forall t :: t in losers ==> !Mentions(l, t)
    ensures Settle(Release(l, losers)) == l
  {
    ReleaseNothing(l, losers);
  }

  /** Every step is a relock of its staged table. */
  lemma StepIsRelock(s: Shard, op: Op)
    requires Inv(s) && Enabled(s, op)
    ensures Do(s, op).shard.elements == Relock(Staged(s, op), Losers(s, op))
  {
    var e := s.elements;
    if Staged(s, op) == e && Losers(s, op) == {} {
      forall k | k in e ensures Relock(e, {})[k] == e[k] {
        assert LockInv(s, k);
        RelockIdle(e[k].lock, {});
      }
      assert Relock(e, {}) == e;
    }
  }

  lemma StagedReady(s: Shard, op: Op, k: Key)
    requires Inv(s) && Enabled(s, op) && k in Staged(s, op)
    ensures StagedFrom(LockOf(s, k), Staged(s, op)[k].lock, op.ticket, PreparedTickets(s) + Losers(s, op))
  {
    if k in s.elements {
      assert LockInv(s, k);
    }
    match op
    case TryLockOp(t, broker, j, ty, first, callback) =>
      if TryLockRefusal(s, t, j, ty, first).None? {
        AcceptedRequest(s, t, j, ty, first);
        var w := Waiter(ty, callback);
        var r := Shard(map[], WoundAll(Register(s, t, broker), Victims(s, t, j, ty), t, j));
        QueuedLockReady(s, t, broker, j, w, r, k);
      }
    case CommitOp(t) =>
      if CommitRefusal(s, t).None? {
        ApplyKeepsLocks(s, t);
      }
    case _ =>
  }

  // ---- Frame conditions ----

  /** What a step may do to the lock entries of a ticket that loses nothing. */
  ghost predicate LockKept(l: RwLock, r: RwLock, t: Ticket) {
    && (HoldsRead(l, t) ==> HoldsRead(r, t) || (HoldsWrite(r, t) && t in l.queue))
    && (HoldsWrite(l, t) ==> HoldsWrite(r, t))
    && (Holds(r, t) ==> Holds(l, t) || t in l.queue)
    && (HoldsWrite(r, t) ==> HoldsWrite(l, t) || t in l.queue)
    && (t in l.queue ==> t in r.queue || Holds(r, t))
    && (t in r.queue ==> t in l.queue)
  }

  /** `e` holds the locks of a shard, but for a request of `actor` that may have joined a queue. */
  ghost predicate StagedFrom(l: RwLock, staged: RwLock, actor: Ticket, safe: set<Ticket>) {
    && WellFormed(staged) && Ordered(staged, safe)
    && staged.writer == l.writer && staged.readers == l.readers
    && staged.queue.Keys <= l.queue.Keys + {actor}
    && (forall t :: t in l.queue ==> t in staged.queue && staged.queue[t] == l.queue[t])
  }

  lemma RelockKept(e: map<Key, Element>, losers: set<Ticket>, k: Key, l: RwLock, actor: Ticket, safe: set<Ticket>,
                   t: Ticket)
    requires k in e && StagedFrom(l, e[k].lock, actor, safe) && t != actor
    ensures var r := Relock(e, losers)[k].lock;
            if t in losers then !Mentions(r, t) else LockKept(l, r, t)
  {
    RelockFacts(e, losers, k, safe);
  }

  /** A ticket other than the one a step is about either loses everything, or keeps its
      locks and is at most granted locks it queued for. */
  lemma OthersLocks(s: Shard, op: Op, t: Ticket, k: Key)
    requires Inv(s) && Enabled(s, op) && t != op.ticket
    ensures var r := Do(s, op).shard;
            if t in Losers(s, op) then !Mentions(LockOf(r, k), t) else LockKept(LockOf(s, k), LockOf(r, k), t)
  {
    StepIsRelock(s, op);
    if k in Staged(s, op) {
      StagedReady(s, op, k);
      RelockKept(Staged(s, op), Losers(s, op), k, LockOf(s, k), op.ticket, PreparedTickets(s) + Losers(s, op), t);
    }
  }

  lemma OthersRecords(s: Shard, op: Op, t: Ticket)
    requires Inv(s) && Enabled(s, op) && t != op.ticket
    ensures var r := Do(s, op).shard;
            && (t in r.tickets <==> t in s.tickets)
            && (t in s.tickets && t !in Losers(s, op) ==> r.tickets[t] == s.tickets[t])
            && (t in Losers(s, op) ==>
                  && op.TryLockOp? && op.ticket < t
                  && Has(s, t, Begun) && Has(r, t, Wounded)
                  && r.tickets[t].broker == s.tickets[t].broker
                  && r.tickets[t].wound == Some(WoundDetails(op.ticket, op.key)))
  {
    if op.TryLockOp? && t in Losers(s, op) {
      assert Holds(LockOf(s, op.key), t);
      assert op.key in s.elements && LockInv(s, op.key);
    }
  }

  /** Only the commit of a prepared ticket changes values, and it changes the keys of its update. */
  lemma StepValue(s: Shard, op: Op, k: Key)
    requires Inv(s) && Enabled(s, op)
    ensures ValueOf(Do(s, op).shard, k) ==
            if op.CommitOp? && Has(s, op.ticket, Prepared) && k in s.tickets[op.ticket].update
            then s.tickets[op.ticket].update[k] else ValueOf(s, k)
  {
    StepIsRelock(s, op);
  }

  /** Strict two-phase locking: the value of a key does not change while a ticket holds a lock on it. */
  lemma LockedValueStable(s: Shard, op: Op, t: Ticket, k: Key)
    requires Inv(s) && Enabled(s, op) && Holds(LockOf(s, k), t)
    requires op.CommitOp? ==> op.ticket != t
    ensures ValueOf(Do(s, op).shard, k) == ValueOf(s, k)
  {
    StepValue(s, op, k);
    if k in s.elements {
      assert LockInv(s, k);
    }
  }

  /** The step refuses its own request without changing anything. */
  predicate OwnRefusal(s: Shard, op: Op) {
    op.TryLockOp? && TryLockRefusal(s, op.ticket, op.key, op.lockType, op.first).Some?
  }

  /** The answer goes to a request that leaves its queue when `e` is relocked. */
  ghost predicate QueueAnswer(e: map<Key, Element>, losers: set<Ticket>, a: Answer) {
    && a.key in e && a.ticket in e[a.key].lock.queue && a.ticket !in Relock(e, losers)[a.key].lock.queue
    && a.callback == e[a.key].lock.queue[a.ticket].callback
    && (if a.Granted? then a.ticket !in losers && a.value == e[a.key].value
        else a.ticket in losers && a.code.TicketWounded?)
  }

  lemma RelockAnswerOrigin(e: map<Key, Element>, tickets: map<Ticket, TicketInfo>, losers: set<Ticket>, a: Answer)
    requires a in RelockAnswers(e, tickets, losers)
    ensures QueueAnswer(e, losers, a)
  {
  }

  ghost predicate FromQueue(s: Shard, op: Op, a: Answer) {
    QueueAnswer(Staged(s, op), Losers(s, op), a)
  }

  /** An answer goes to a request that leaves its queue, or refuses the step's own request. */
  lemma AnswerOrigin(s: Shard, op: Op, a: Answer)
    requires Inv(s) && Enabled(s, op) && a in Do(s, op).answers
    ensures if OwnRefusal(s, op) then
              && Do(s, op).shard == s && a.Refused? && a.ticket == op.ticket && a.key == op.key
              && TryLockRefusal(s, a.ticket, a.key, op.lockType, op.first) == Some(a.code)
              && a.callback == op.callback
            else FromQueue(s, op, a)
  {
    if !OwnRefusal(s, op) {
      var tickets := if op.TryLockOp? then Do(s, op).shard.tickets else s.tickets;
      RelockAnswerOrigin(Staged(s, op), tickets, Losers(s, op), a);
    }
  }

  /** A granted request holds its lock, and the value reported is the key's value after the step. */
  lemma GrantedFacts(s: Shard, op: Op, a: Answer)
    requires Inv(s) && Enabled(s, op) && a in Do(s, op).answers && a.Granted?
    ensures var r := Do(s, op).shard;
            && Has(r, a.ticket, Begun) && Holds(LockOf(r, a.key), a.ticket) && a.ticket !in LockOf(r, a.key).queue
            && a.value == ValueOf(r, a.key)
            && (a.ticket in LockOf(s, a.key).queue || (op.TryLockOp? && a.ticket == op.ticket && a.key == op.key))
  {
    AnswerOrigin(s, op, a);
    StepIsRelock(s, op);
    var e, losers := Staged(s, op), Losers(s, op);
    StagedReady(s, op, a.key);
    RelockFacts(e, losers, a.key, PreparedTickets(s) + losers);
    GrantedIsBegun(s, op, a);
  }

  lemma GrantedIsBegun(s: Shard, op: Op, a: Answer)
    requires Inv(s) && Enabled(s, op) && a in Do(s, op).answers && a.Granted?
    requires FromQueue(s, op, a)
    ensures Has(Do(s, op).shard, a.ticket, Begun)
    ensures a.ticket in LockOf(s, a.key).queue || (op.TryLockOp? && a.ticket == op.ticket && a.key == op.key)
  {
    StagedReady(s, op, a.key);
    if a.ticket == op.ticket {
      OwnGrantIsBegun(s, op, a);
    } else {
      assert LockInv(s, a.key);
      OthersRecords(s, op, a.ticket);
    }
  }

  lemma OwnGrantIsBegun(s: Shard, op: Op, a: Answer)
    requires Inv(s) && Enabled(s, op) && a in Do(s, op).answers && a.Granted? && a.ticket == op.ticket
    requires FromQueue(s, op, a)
    ensures op.TryLockOp? && Has(Do(s, op).shard, a.ticket, Begun)
  {
  }

  /** A ticket whose queued request is refused is the ticket rolled back, or was wounded. */
  lemma RefusedFacts(s: Shard, op: Op, a: Answer)
    requires Inv(s) && Enabled(s, op) && a in Do(s, op).answers && a.Refused? && !OwnRefusal(s, op)
    ensures a.code.TicketWounded? && a.ticket in LockOf(s, a.key).queue
    ensures if a.ticket == op.ticket then op.RollbackOp? else op.TryLockOp? && Has(Do(s, op).shard, a.ticket, Wounded)
  {
    hide Relock, RelockAnswers;
    AnswerOrigin(s, op, a);
    if a.key in s.elements {
      assert LockInv(s, a.key);
    }
    if a.ticket != op.ticket {
      OthersRecords(s, op, a.ticket);
    }
  }
}
