/** Whole runs of one shard: the invariant in every reachable state, immunity of prepared
    tickets, equivalence to a serial run, and one answer per request. */
module ShardRuns {
  import opened Basics
  import opened LockTable
  import opened ShardSpec
  import opened ShardSteps
  import opened ShardWaiting

  /** A run: any operations, by any tickets, in any order. */
  datatype Run = Run(start: Shard, ops: seq<Op>)

  /** The state after the first `n` operations. */
  ghost function StateAt(run: Run, n: nat): Shard
    requires n <= |run.ops|
  {
    if n == 0 then run.start
    else
      var s := StateAt(run, n - 1);
      if Enabled(s, run.ops[n - 1]) then Do(s, run.ops[n - 1]).shard else s
  }

  ghost predicate Legal(run: Run) {
    && Inv(run.start)
    && forall n :: 0 <= n < |run.ops| ==> Enabled(StateAt(run, n), run.ops[n])
  }

  lemma {:induction false} ReachableInv(run: Run, n: nat)
    requires Legal(run) && n <= |run.ops|
    ensures Inv(StateAt(run, n))
  {
    hide Do, Enabled, Inv;
    if n > 0 {
      ReachableInv(run, n - 1);
      StepKeepsInv(StateAt(run, n - 1), run.ops[n - 1]);
    }
  }

  /** In no reachable state is there a cycle of waiting tickets. */
  lemma RunsNeverDeadlock(run: Run, n: nat, p: seq<Ticket>)
    requires Legal(run) && n <= |run.ops| && WaitPath(StateAt(run, n), p) && |p| >= 2
    ensures p[0] != p[|p| - 1]
  {
    ReachableInv(run, n);
    NoDeadlock(StateAt(run, n), p);
  }

  // ---- Prepared tickets are immune ----

  /** The operations that end a ticket's prepared phase. */
  predicate Ends(op: Op, t: Ticket) { (op.CommitOp? || op.RollbackOp?) && op.ticket == t }

  /** Two states agree about everything that concerns the ticket `t`. */
  ghost predicate SameFor(s: Shard, r: Shard, t: Ticket) {
    && t in s.tickets && t in r.tickets && r.tickets[t] == s.tickets[t]
    && (forall k :: HoldsRead(LockOf(r, k), t) <==> HoldsRead(LockOf(s, k), t))
    && (forall k :: HoldsWrite(LockOf(r, k), t) <==> HoldsWrite(LockOf(s, k), t))
    && (forall k :: Holds(LockOf(s, k), t) ==> ValueOf(r, k) == ValueOf(s, k))
  }

  lemma PreparedStep(s: Shard, op: Op, t: Ticket)
    requires Inv(s) && Enabled(s, op) && Has(s, t, Prepared) && !Ends(op, t)
    ensures SameFor(s, Do(s, op).shard, t)
  {
    var r := Do(s, op).shard;
    if op.ticket != t {
      OthersRecords(s, op, t);
      forall k ensures HoldsRead(LockOf(r, k), t) <==> HoldsRead(LockOf(s, k), t)
               ensures HoldsWrite(LockOf(r, k), t) <==> HoldsWrite(LockOf(s, k), t)
               ensures Holds(LockOf(s, k), t) ==> ValueOf(r, k) == ValueOf(s, k)
      {
        OthersLocks(s, op, t, k);
        if k in s.elements { assert LockInv(s, k); }
        if Holds(LockOf(s, k), t) { LockedValueStable(s, op, t, k); }
      }
    }
  }

  /** Whatever other operations run, a prepared ticket keeps its record, its locks and the
      values it has locked until its own commit or rollback. */
  lemma {:induction false} PreparedImmune(run: Run, i: nat, j: nat, t: Ticket)
    requires Legal(run) && i <= j <= |run.ops| && Has(StateAt(run, i), t, Prepared)
    requires forall n :: i <= n < j ==> !Ends(run.ops[n], t)
    ensures SameFor(StateAt(run, i), StateAt(run, j), t)
    decreases j - i
  {
    hide Do, Enabled, Inv;
    if i < j {
      ReachableInv(run, j - 1);
      PreparedImmune(run, i, j - 1, t);
      PreparedStep(StateAt(run, j - 1), run.ops[j - 1], t);
    }
  }

  /** Its commit, whenever it comes, succeeds and writes exactly its update. */
  lemma PreparedCommits(run: Run, i: nat, j: nat, t: Ticket, k: Key)
    requires Legal(run) && i <= j < |run.ops| && Has(StateAt(run, i), t, Prepared)
    requires forall n :: i <= n < j ==> !Ends(run.ops[n], t)
    requires run.ops[j] == CommitOp(t)
    ensures CommitRefusal(StateAt(run, j), t).None? && Has(StateAt(run, j + 1), t, Committed)
    ensures var update := StateAt(run, i).tickets[t].update;
            ValueOf(StateAt(run, j + 1), k) == if k in update then update[k] else ValueOf(StateAt(run, j), k)
  {
    PreparedImmune(run, i, j, t);
    ReachableInv(run, j);
    StepValue(StateAt(run, j), run.ops[j], k);
  }

  /** Only a lock request of a strictly older ticket wounds, and only an unprepared ticket. */
  lemma WoundedByOlder(run: Run, n: nat, t: Ticket)
    requires Legal(run) && n < |run.ops|
    requires Has(StateAt(run, n + 1), t, Wounded) && !Has(StateAt(run, n), t, Wounded)
    ensures run.ops[n].TryLockOp? && run.ops[n].ticket < t && Has(StateAt(run, n), t, Begun)
  {
    ReachableInv(run, n);
    if run.ops[n].ticket != t {
      OthersRecords(StateAt(run, n), run.ops[n], t);
    }
  }

  // ---- Equivalence to a serial run ----

  /** A committed ticket: what it was told about keys, and what it wrote. */
  datatype Txn = Txn(ticket: Ticket, seen: set<(Key, Value)>, writes: map<Key, Value>)

  /** The values handed to tickets that are still known, and the committed tickets in commit order. */
  datatype Ledger = Ledger(given: set<(Ticket, Key, Value)>, history: seq<Txn>)

  function SeenBy(given: set<(Ticket, Key, Value)>, t: Ticket): set<(Key, Value)> {
    set g | g in given && g.0 == t :: (g.1, g.2)
  }

  function Without(given: set<(Ticket, Key, Value)>, t: Ticket): set<(Ticket, Key, Value)> {
    set g | g in given && g.0 != t
  }

  function Grants(answers: set<Answer>): set<(Ticket, Key, Value)> {
    set a | a in answers && a.Granted? :: (a.ticket, a.key, a.value)
  }

  function Noted(led: Ledger, s: Shard, op: Op): Ledger
    requires Enabled(s, op)
  {
    var grants := Grants(Do(s, op).answers);
    if op.CommitOp? && Has(s, op.ticket, Prepared) then
      Ledger(Without(led.given, op.ticket) + grants,
             led.history + [Txn(op.ticket, SeenBy(led.given, op.ticket), s.tickets[op.ticket].update)])
    else if op.RollbackOp? then Ledger(Without(led.given, op.ticket) + grants, led.history)
    else Ledger(led.given + grants, led.history)
  }

  ghost function LedgerAt(run: Run, n: nat): Ledger
    requires Legal(run) && n <= |run.ops|
  {
    if n == 0 then Ledger({}, []) else Noted(LedgerAt(run, n - 1), StateAt(run, n - 1), run.ops[n - 1])
  }

  /** The database: the value of every key that was ever written, the empty value elsewhere. */
  function Lookup(db: map<Key, Value>, k: Key): Value { if k in db then db[k] else EMPTY }

  function Database(s: Shard): map<Key, Value> { map k | k in s.elements :: s.elements[k].value }

  /** The committed tickets executed one at a time. */
  function Replay(db: map<Key, Value>, history: seq<Txn>): map<Key, Value> {
    if history == [] then db else Replay(db, history[..|history| - 1]) + history[|history| - 1].writes
  }

  /** Every ticket, run in its place of the serial order, sees the values it was given. */
  ghost predicate SerialReads(db: map<Key, Value>, history: seq<Txn>) {
    forall i, k, v :: 0 <= i < |history| && (k, v) in history[i].seen ==> Lookup(Replay(db, history[..i]), k) == v
  }

  /** A value given to a live ticket is still the value of the key, and the key is still locked. */
  ghost predicate GivenCurrent(s: Shard, given: set<(Ticket, Key, Value)>) {
    forall t, k, v :: (t, k, v) in given ==>
      && t in s.tickets && !Has(s, t, Committed)
      && (!Has(s, t, Wounded) ==> Holds(LockOf(s, k), t) && ValueOf(s, k) == v)
  }

  ghost predicate Serial(s: Shard, led: Ledger, db: map<Key, Value>) {
    && GivenCurrent(s, led.given)
    && SerialReads(db, led.history)
    && forall k :: ValueOf(s, k) == Lookup(Replay(db, led.history), k)
  }

  /** One entry of the ledger stays current over a step that does not end its ticket. */
  lemma GivenStep(s: Shard, op: Op, t: Ticket, k: Key, v: Value)
    requires Inv(s) && Enabled(s, op)
    requires t in s.tickets && !Has(s, t, Committed)
    requires !Has(s, t, Wounded) ==> Holds(LockOf(s, k), t) && ValueOf(s, k) == v
    requires op.ticket == t ==> !op.RollbackOp? && !(op.CommitOp? && Has(s, t, Prepared))
    ensures var r := Do(s, op).shard;
            && t in r.tickets && !Has(r, t, Committed)
            && (!Has(r, t, Wounded) ==> Holds(LockOf(r, k), t) && ValueOf(r, k) == v)
  {
    if op.ticket != t {
      OthersRecords(s, op, t);
      OthersLocks(s, op, t, k);
      if Holds(LockOf(s, k), t) {
        LockedValueStable(s, op, t, k);
      }
    } else {
      OwnLocks(s, op, k);
      StepValue(s, op, k);
    }
  }

  /** A ticket's own lock requests and prepares take nothing from it. */
  lemma OwnLocks(s: Shard, op: Op, k: Key)
    requires Inv(s) && Enabled(s, op) && op.ticket in s.tickets && !Has(s, op.ticket, Committed)
    requires !op.RollbackOp? && !(op.CommitOp? && Has(s, op.ticket, Prepared))
    ensures var r := Do(s, op).shard;
            && op.ticket in r.tickets && !Has(r, op.ticket, Committed)
            && (Has(r, op.ticket, Wounded) <==> Has(s, op.ticket, Wounded))
            && (Holds(LockOf(s, k), op.ticket) ==> Holds(LockOf(r, k), op.ticket))
  {
    if op.TryLockOp? && !OwnRefusal(s, op) && k in Staged(s, op) {
      StagedReady(s, op, k);
      RelockFacts(Staged(s, op), Losers(s, op), k, PreparedTickets(s) + Losers(s, op));
    }
  }

  lemma GrantsCurrent(s: Shard, op: Op)
    requires Inv(s) && Enabled(s, op)
    ensures GivenCurrent(Do(s, op).shard, Grants(Do(s, op).answers))
  {
    var r := Do(s, op);
    forall t, k, v | (t, k, v) in Grants(r.answers)
      ensures Has(r.shard, t, Begun) && Holds(LockOf(r.shard, k), t) && ValueOf(r.shard, k) == v
    {
      var a :| a in r.answers && a.Granted? && (a.ticket, a.key, a.value) == (t, k, v);
      GrantedFacts(s, op, a);
    }
  }

  lemma GivenKept(s: Shard, op: Op, given: set<(Ticket, Key, Value)>)
    requires Inv(s) && Enabled(s, op) && GivenCurrent(s, given)
    requires op.RollbackOp? || (op.CommitOp? && Has(s, op.ticket, Prepared)) ==> given == Without(given, op.ticket)
    ensures GivenCurrent(Do(s, op).shard, given)
  {
    var r := Do(s, op).shard;
    forall t, k, v | (t, k, v) in given
      ensures t in r.tickets && !Has(r, t, Committed)
      ensures !Has(r, t, Wounded) ==> Holds(LockOf(r, k), t) && ValueOf(r, k) == v
    {
      GivenStep(s, op, t, k, v);
    }
  }

  /** The history grows by the committed ticket, whose reads are all current. */
  lemma HistoryStep(s: Shard, led: Ledger, op: Op, db: map<Key, Value>)
    requires Inv(s) && Enabled(s, op) && Serial(s, led, db)
    ensures var h := Noted(led, s, op).history;
            SerialReads(db, h) && forall k :: ValueOf(Do(s, op).shard, k) == Lookup(Replay(db, h), k)
  {
    var h := Noted(led, s, op).history;
    forall k ensures ValueOf(Do(s, op).shard, k) == Lookup(Replay(db, h), k) {
      StepValue(s, op, k);
      if |h| > |led.history| { assert h[..|h| - 1] == led.history; }
    }
    forall i, k, v | 0 <= i < |h| && (k, v) in h[i].seen ensures Lookup(Replay(db, h[..i]), k) == v {
      assert h[..i] == led.history[..i];
      if i == |led.history| {
        assert led.history[..i] == led.history;
        assert (op.ticket, k, v) in led.given;
      } else {
        assert (k, v) in led.history[i].seen;
      }
    }
  }

  lemma SerialStep(s: Shard, led: Ledger, op: Op, db: map<Key, Value>)
    requires Inv(s) && Enabled(s, op) && Serial(s, led, db)
    ensures Serial(Do(s, op).shard, Noted(led, s, op), db)
  {
    hide Do, Enabled, Inv;
    GrantsCurrent(s, op);
    var ends := op.RollbackOp? || (op.CommitOp? && Has(s, op.ticket, Prepared));
    var kept := if ends then Without(led.given, op.ticket) else led.given;
    GivenKept(s, op, kept);
    HistoryStep(s, led, op, db);
    assert Noted(led, s, op).given == kept + Grants(Do(s, op).answers);
  }

  /** Strict two-phase locking makes every run serial: the shard's values are those of the
      committed tickets run one at a time in commit order, and each of them saw what it
      would have seen there. */
  lemma {:induction false} RunsAreSerial(run: Run, n: nat)
    requires Legal(run) && n <= |run.ops|
    ensures Serial(StateAt(run, n), LedgerAt(run, n), Database(run.start))
  {
    hide Do, Enabled, Inv;
    if n > 0 {
      hide Serial, Noted;
      ReachableInv(run, n - 1);
      RunsAreSerial(run, n - 1);
      SerialStep(StateAt(run, n - 1), LedgerAt(run, n - 1), run.ops[n - 1], Database(run.start));
    }
  }

  // ---- Every request is answered once ----

  /** The request of `t` on `k` waits in the table `e`, to be answered at `callback`. */
  predicate Waits(e: map<Key, Element>, k: Key, t: Ticket, callback: nat) {
    k in e && t in e[k].lock.queue && e[k].lock.queue[t].callback == callback
  }

  /** The callbacks still waiting in some queue. */
  function Outstanding(e: map<Key, Element>): (c: set<nat>)
    ensures forall x :: x in c <==> exists k, t :: Waits(e, k, t, x)
  {
    var c := set k, t | k in e && t in e[k].lock.queue :: e[k].lock.queue[t].callback;
    assert forall k, t :: k in e && t in e[k].lock.queue ==> Waits(e, k, t, e[k].lock.queue[t].callback);
    c
  }

  ghost predicate DistinctCallbacks(e: map<Key, Element>) {
    forall j, k, t, u, c :: Waits(e, j, t, c) && Waits(e, k, u, c) ==> j == k && t == u
  }

  function Callbacks(answers: set<Answer>): set<nat> { set a | a in answers :: a.callback }

  function Asked(op: Op): set<nat> { if op.TryLockOp? then {op.callback} else {} }

  ghost predicate OneAnswerEach(answers: set<Answer>) {
    forall a, b :: a in answers && b in answers && a.callback == b.callback ==> a == b
  }

  /** `answers` holds one answer for each request of `e` that no longer waits in `r`. */
  ghost predicate AnswersLeavers(e: map<Key, Element>, r: map<Key, Element>, answers: set<Answer>) {
    && (forall k, t, c :: Waits(r, k, t, c) ==> Waits(e, k, t, c))
    && (forall a :: a in answers ==> Waits(e, a.key, a.ticket, a.callback) && !Waits(r, a.key, a.ticket, a.callback))
    && (forall k, t, c :: Waits(e, k, t, c) && !Waits(r, k, t, c) ==>
          exists a :: a in answers && a.key == k && a.ticket == t)
    && (forall a, b :: a in answers && b in answers && a.key == b.key && a.ticket == b.ticket ==> a == b)
  }

  lemma RelockAnswersLeavers(e: map<Key, Element>, tickets: map<Ticket, TicketInfo>, losers: set<Ticket>,
                             safe: set<Ticket>)
    requires forall k :: k in e ==> WellFormed(e[k].lock) && Ordered(e[k].lock, safe)
    ensures AnswersLeavers(e, Relock(e, losers), RelockAnswers(e, tickets, losers))
  {
    var r, answers := Relock(e, losers), RelockAnswers(e, tickets, losers);
    forall k, t, c | Waits(r, k, t, c) ensures Waits(e, k, t, c) {
      RelockFacts(e, losers, k, safe);
    }
    forall a | a in answers ensures Waits(e, a.key, a.ticket, a.callback) && !Waits(r, a.key, a.ticket, a.callback) {
      RelockAnswerOrigin(e, tickets, losers, a);
    }
    forall k, t, c | Waits(e, k, t, c) && !Waits(r, k, t, c)
      ensures exists a :: a in answers && a.key == k && a.ticket == t
    {
      if t in r[k].lock.queue { RelockFacts(e, losers, k, safe); }
      assert AnswerTo(e, tickets, losers, k, t) in answers;
    }
  }

  /** Of the callbacks queued in `e`, each is answered once or still waits, and not both. */
  lemma LeaversAnsweredOnce(e: map<Key, Element>, r: map<Key, Element>, answers: set<Answer>)
    requires DistinctCallbacks(e) && AnswersLeavers(e, r, answers)
    ensures DistinctCallbacks(r) && OneAnswerEach(answers)
    ensures Callbacks(answers) !! Outstanding(r)
    ensures Callbacks(answers) + Outstanding(r) == Outstanding(e)
  {
    forall a, b | a in answers && b in answers && a.callback == b.callback ensures a == b {
      assert Waits(e, a.key, a.ticket, a.callback) && Waits(e, b.key, b.ticket, b.callback);
    }
    forall a | a in answers ensures a.callback !in Outstanding(r) && a.callback in Outstanding(e) {
      assert Waits(e, a.key, a.ticket, a.callback);
      assert forall k, t :: Waits(r, k, t, a.callback) ==> Waits(e, k, t, a.callback);
    }
    forall c | c in Outstanding(e) ensures c in Callbacks(answers) + Outstanding(r) {
      var k, t :| Waits(e, k, t, c);
      if !Waits(r, k, t, c) {
        var a :| a in answers && a.key == k && a.ticket == t;
        assert Waits(e, a.key, a.ticket, a.callback);
        assert a.callback == c;
      }
    }
  }

  /** One step answers or keeps every request that waited before it, and its own. */
  lemma StepAnswersOnce(s: Shard, op: Op)
    requires Inv(s) && Enabled(s, op) && DistinctCallbacks(s.elements)
    requires Asked(op) !! Outstanding(s.elements)
    ensures var r := Do(s, op);
            && DistinctCallbacks(r.shard.elements) && OneAnswerEach(r.answers)
            && Callbacks(r.answers) !! Outstanding(r.shard.elements)
            && Callbacks(r.answers) + Outstanding(r.shard.elements) == Outstanding(s.elements) + Asked(op)
  {
    hide Inv;
    var e, losers, r := Staged(s, op), Losers(s, op), Do(s, op);
    StepIsRelock(s, op);
    StagedCallbacks(s, op);
    if OwnRefusal(s, op) {
      assert r.answers
        == {Refused(op.callback, op.ticket, op.key, TryLockRefusal(s, op.ticket, op.key, op.lockType, op.first).value,
                                   if op.ticket in s.tickets
                                     && TryLockRefusal(s, op.ticket, op.key, op.lockType,
                                     op.first).value.TicketWounded? then s.tickets[op.ticket].wound else None)};
    } else if op.PrepareOp? || op.FinishOp? {
    } else {
      forall k | k in e ensures WellFormed(e[k].lock) && Ordered(e[k].lock, PreparedTickets(s) + losers) {
        StagedReady(s, op, k);
      }
      var tickets := if op.TryLockOp? then r.shard.tickets else s.tickets;
      RelockAnswersLeavers(e, tickets, losers, PreparedTickets(s) + losers);
      LeaversAnsweredOnce(e, r.shard.elements, r.answers);
    }
  }

  predicate AcceptedLock(s: Shard, op: Op) { op.TryLockOp? && !OwnRefusal(s, op) }

  lemma StagedWaits(s: Shard, op: Op, k: Key, t: Ticket, c: nat)
    requires Inv(s) && Enabled(s, op)
    ensures Waits(Staged(s, op), k, t, c) <==>
            Waits(s.elements, k, t, c) || (AcceptedLock(s, op) && k == op.key && t == op.ticket && c == op.callback)
  {
    if AcceptedLock(s, op) {
      AcceptedRequest(s, op.ticket, op.key, op.lockType, op.first);
    } else if op.CommitOp? && Has(s, op.ticket, Prepared) {
      ApplyKeepsLocks(s, op.ticket);
    }
  }

  /** Staging adds the step's own accepted request to the queues, and nothing else. */
  lemma StagedCallbacks(s: Shard, op: Op)
    requires Inv(s) && Enabled(s, op) && DistinctCallbacks(s.elements) && Asked(op) !! Outstanding(s.elements)
    ensures DistinctCallbacks(Staged(s, op))
    ensures Outstanding(Staged(s, op)) == Outstanding(s.elements) + (if OwnRefusal(s, op) then {} else Asked(op))
  {
    hide Inv, Enabled, Staged, OwnRefusal;
    forall k, t, c
      ensures Waits(Staged(s, op), k, t, c) <==>
              Waits(s.elements, k, t, c) || (AcceptedLock(s, op) && k == op.key && t == op.ticket && c == op.callback)
    {
      StagedWaits(s, op, k, t, c);
    }
    if AcceptedLock(s, op) {
      assert Waits(Staged(s, op), op.key, op.ticket, op.callback);
    }
  }

  // ---- Whole runs ----

  /** The callbacks asked in the first `n` operations. */
  ghost function AskedBy(run: Run, n: nat): set<nat>
    requires n <= |run.ops|
  {
    if n == 0 then {} else AskedBy(run, n - 1) + Asked(run.ops[n - 1])
  }

  function Stamp(i: nat, answers: set<Answer>): (r: set<(nat, Answer)>)
    ensures forall x :: x in r <==> x.0 == i && x.1 in answers
  {
    set a | a in answers :: (var x: (nat, Answer) := (i, a); x)
  }

  /** The answers given in the first `n` operations, each with the operation that gave it. */
  ghost function AnsweredBy(run: Run, n: nat): set<(nat, Answer)>
    requires Legal(run) && n <= |run.ops|
  {
    if n == 0 then {}
    else AnsweredBy(run, n - 1) + Stamp(n - 1, Do(StateAt(run, n - 1), run.ops[n - 1]).answers)
  }

  /** No callback is asked twice, and none waits at the start. */
  ghost predicate FreshCallbacks(run: Run) {
    && Outstanding(run.start.elements) == {}
    && forall n :: 0 <= n < |run.ops| ==> Asked(run.ops[n]) !! AskedBy(run, n)
  }

  function AnsweredCallbacks(answered: set<(nat, Answer)>): set<nat> { set x | x in answered :: x.1.callback }

  /** Of the callbacks in `asked`, each has one answer or is still out, and not both. */
  ghost predicate Accounted(asked: set<nat>, answered: set<(nat, Answer)>, out: set<nat>) {
    && (forall x, y :: x in answered && y in answered && x.1.callback == y.1.callback ==> x == y)
    && AnsweredCallbacks(answered) !! out
    && AnsweredCallbacks(answered) + out == asked
  }

  lemma AccountStep(asked: set<nat>, answered: set<(nat, Answer)>, before: set<nat>,
                    i: nat, answers: set<Answer>, after: set<nat>, new_: set<nat>)
    requires Accounted(asked, answered, before) && OneAnswerEach(answers)
    requires new_ !! asked && Callbacks(answers) !! after && Callbacks(answers) + after == before + new_
    ensures Accounted(asked + new_, answered + Stamp(i, answers), after)
  {
    var all := answered + Stamp(i, answers);
    forall x | x in all ensures x.1.callback in AnsweredCallbacks(answered) + Callbacks(answers) {
    }
    forall x | x in answered ensures x.1.callback !in Callbacks(answers) {
      assert x.1.callback in AnsweredCallbacks(answered);
    }
    forall c | c in AnsweredCallbacks(answered) + Callbacks(answers) ensures c in AnsweredCallbacks(all) {
      if c in AnsweredCallbacks(answered) {
        var x :| x in answered && x.1.callback == c;
        assert x in all;
      } else {
        var a :| a in answers && a.callback == c;
        assert (i, a) in all;
      }
    }
    assert AnsweredCallbacks(all) == AnsweredCallbacks(answered) + Callbacks(answers);
  }

  lemma AccountedOut(asked: set<nat>, answered: set<(nat, Answer)>, out: set<nat>)
    requires Accounted(asked, answered, out)
    ensures out <= asked
  {
  }

  lemma NothingAsked(run: Run)
    requires Legal(run) && FreshCallbacks(run)
    ensures DistinctCallbacks(run.start.elements)
    ensures Accounted({}, {}, Outstanding(run.start.elements))
  {
    assert forall j, t, c :: Waits(run.start.elements, j, t, c) ==> c in Outstanding(run.start.elements);
  }

  /** Over any run every lock request is answered exactly once, or waits in exactly one queue. */
  lemma {:induction false} RequestsAnsweredOnce(run: Run, n: nat)
    requires Legal(run) && FreshCallbacks(run) && n <= |run.ops|
    ensures DistinctCallbacks(StateAt(run, n).elements)
    ensures Accounted(AskedBy(run, n), AnsweredBy(run, n), Outstanding(StateAt(run, n).elements))
  {
    hide Do, Enabled, Inv, Accounted, Outstanding, DistinctCallbacks;
    if n == 0 {
      NothingAsked(run);
    } else {
      RequestsAnsweredOnce(run, n - 1);
      AnsweredOnceStep(run, n - 1);
    }
  }

  lemma AnsweredOnceStep(run: Run, n: nat)
    requires Legal(run) && FreshCallbacks(run) && n < |run.ops| && DistinctCallbacks(StateAt(run, n).elements)
    requires Accounted(AskedBy(run, n), AnsweredBy(run, n), Outstanding(StateAt(run, n).elements))
    ensures DistinctCallbacks(StateAt(run, n + 1).elements)
    ensures Accounted(AskedBy(run, n + 1), AnsweredBy(run, n + 1), Outstanding(StateAt(run, n + 1).elements))
  {
    hide Do, Enabled, Inv, Accounted, Outstanding, DistinctCallbacks, Stamp, Asked;
    var s, op := StateAt(run, n), run.ops[n];
    ReachableInv(run, n);
    AccountedOut(AskedBy(run, n), AnsweredBy(run, n), Outstanding(s.elements));
    StepAnswersOnce(s, op);
    AccountStep(AskedBy(run, n), AnsweredBy(run, n), Outstanding(s.elements),
                n, Do(s, op).answers, Outstanding(Do(s, op).shard.elements), Asked(op));
  }
}
