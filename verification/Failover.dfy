/** A shard server under a replicated log: the order of log step and shard step
    (src/parsec/runtime_locking_shard/server.cpp), over any interleaving of requests, repeated
    ones included, of log progress, callbacks and failovers. */
module Failover {
  import opened Basics
  import opened LockTable
  import opened ShardSpec
  import opened ShardSteps
  import opened ShardRuns
  import opened Replication

  /** What the server still has to do for a ticket once the log entry at `index` is applied. A
      commit of a ticket that is `known` to the replicas is carried out, any other is refused. */
  datatype Call =
    | CommitCall(index: nat, known: bool)
    | RollbackCall(index: nat)
    | FinishCall(index: nat)

  /** `base` is the replica this server started from, `log` what it has submitted since, and
      `applied` how much of that the replicas have applied. `busy` lists the outstanding calls of
      each ticket in order, and `since` tells when the prepare of a ticket was submitted. */
  datatype Server = Server(
    base: Replica, shard: Shard, log: seq<Entry>, applied: nat, busy: map<Ticket, seq<Call>>, since: map<Ticket, nat>)

  datatype Event =
    | Lock(op: Op)
    | AskPrepare(ticket: Ticket, broker: nat, update: map<Key, Value>)
    | AskCommit(ticket: Ticket)
    | AskRollback(ticket: Ticket)
    | AskFinish(ticket: Ticket)
    | Applied
    | CallBack(ticket: Ticket)
    /** Another server takes over, with a replica that has at least what was applied. */
    | TakeOver(kept: nat, shard: Shard)

  function CallsOf(sv: Server, t: Ticket): seq<Call> { if t in sv.busy then sv.busy[t] else [] }

  /** The replica after the first `i` entries of the log. */
  function RepAt(sv: Server, i: nat): Replica
    requires i <= |sv.log|
  {
    After(sv.base, sv.log[..i])
  }

  function Whole(sv: Server): Replica { RepAt(sv, |sv.log|) }

  /** What may happen next: any request about any ticket, at any time. */
  ghost predicate Possible(sv: Server, e: Event) {
    match e
    case Lock(op) => op.TryLockOp? && Enabled(sv.shard, op)
    case Applied => sv.applied < |sv.log|
    case CallBack(t) => CallsOf(sv, t) != [] && CallsOf(sv, t)[0].index < sv.applied
    case TakeOver(kept, shard) => sv.applied <= kept <= |sv.log| && Rebuilt(map[], RepAt(sv, kept), shard)
    case _ => true
  }

  function Submit(sv: Server, e: Entry): Server { sv.(log := sv.log + [e]) }

  function Called(sv: Server, e: Entry, call: Call): Server {
    Submit(sv, e).(busy := sv.busy[e.ticket := CallsOf(sv, e.ticket) + [call]])
  }

  /** What the shard makes of a call. */
  function Carried(s: Shard, t: Ticket, call: Call): Shard {
    match call
    case CommitCall(_, known) => if known then Do(s, CommitOp(t)).shard else s
    case RollbackCall(_) => Do(s, RollbackOp(t)).shard
    case FinishCall(_) => Do(s, FinishOp(t)).shard
  }

  ghost function Next(sv: Server, e: Event): Server
    requires Possible(sv, e)
  {
    match e
    case Lock(op) => sv.(shard := Do(sv.shard, op).shard)
    case AskPrepare(t, broker, update) =>
      // The shard prepares first; only then is the prepare submitted to the log.
      if PrepareRefusals(sv.shard, t, update) != {} then sv
      else
        Submit(sv, PrepareEntry(t, broker, update)).(
          shard := Prepare(sv.shard, t, update), since := sv.since[t := |sv.log| + 1])
    // Commit, rollback and finish go to the log first; the shard follows in the callback.
    case AskCommit(t) => Called(sv, CommitEntry(t), CommitCall(|sv.log|, t in Whole(sv).tickets))
    case AskRollback(t) => Called(sv, FinishEntry(t), RollbackCall(|sv.log|))
    case AskFinish(t) => Called(sv, FinishEntry(t), FinishCall(|sv.log|))
    case Applied => sv.(applied := sv.applied + 1)
    case CallBack(t) =>
      sv.(shard := Carried(sv.shard, t, CallsOf(sv, t)[0]), busy := sv.busy[t := CallsOf(sv, t)[1..]])
    case TakeOver(kept, shard) => Started(RepAt(sv, kept), shard)
  }

  /** A server that starts on a shard rebuilt from its replica. */
  function Started(base: Replica, shard: Shard): Server {
    Server(base, shard, [], 0, map[], map t | t in base.tickets :: 0)
  }

  // ---- What is demanded of requests ----

  predicate RollbackDue(sv: Server, t: Ticket) { exists c :: c in CallsOf(sv, t) && c.RollbackCall? }

  /** A ticket is not prepared while a rollback of it is outstanding, and is not finished while
      it is prepared. */
  predicate Guard(sv: Server, e: Event) {
    match e
    case AskPrepare(t, _, update) => PrepareRefusals(sv.shard, t, update) == {} ==> !RollbackDue(sv, t)
    case AskFinish(t) => !IsPrepared(Whole(sv), t)
    case _ => true
  }

  /** A commit of a ticket that is committed already, when some key that it wrote has a value. */
  predicate Wipes(sv: Server, e: Event) {
    && e.AskCommit? && IsCommitted(Whole(sv), e.ticket)
    && exists k :: k in Whole(sv).tickets[e.ticket].update && Lookup(Whole(sv).state, k) != EMPTY
  }

  // ---- The relation between log and shard ----

  datatype Status = Absent | Prep(update: map<Key, Value>) | Comm

  function StatusIn(r: Replica, t: Ticket): Status {
    if t !in r.tickets then Absent else if r.tickets[t].committed then Comm else Prep(r.tickets[t].update)
  }

  function StatusAt(s: Shard, t: Ticket): Status {
    if Has(s, t, Prepared) then Prep(s.tickets[t].update) else if Has(s, t, Committed) then Comm else Absent
  }

  function Turn(st: Status, call: Call): Status {
    match call
    case CommitCall(_, known) => if known && st.Prep? then Comm else st
    case RollbackCall(_) => Absent
    case FinishCall(_) => if st.Prep? then st else Absent
  }

  /** The status of a ticket once its calls of the first `i` entries are answered. */
  function Fold(st: Status, calls: seq<Call>, i: nat): Status
    decreases calls
  {
    if calls == [] || calls[0].index >= i then st else Fold(Turn(st, calls[0]), calls[1..], i)
  }

  /** Only a commit of a ticket that is there is known. */
  predicate CallsOk(st: Status, calls: seq<Call>)
    decreases calls
  {
    calls == [] || ((calls[0].CommitCall? && calls[0].known ==> !st.Absent?) && CallsOk(Turn(st, calls[0]), calls[1..]))
  }

  predicate AllBelow(calls: seq<Call>, n: nat) { forall c :: c in calls ==> c.index < n }

  /** From which entry of the log on the replicas agree with the shard about a ticket. */
  function Low(sv: Server, t: Ticket): nat {
    if Has(sv.shard, t, Prepared) && t in sv.since && sv.since[t] > sv.applied then sv.since[t] else sv.applied
  }

  /** A call that takes a prepared ticket out of its phase. */
  predicate TakesOut(c: Call) { c.RollbackCall? || (c.CommitCall? && c.known) }

  ghost predicate AgreesAt(sv: Server, t: Ticket, i: nat)
    requires i <= |sv.log|
  {
    StatusIn(RepAt(sv, i), t) == Fold(StatusAt(sv.shard, t), CallsOf(sv, t), i)
  }

  ghost predicate TicketOk(sv: Server, t: Ticket) {
    && AllBelow(CallsOf(sv, t), |sv.log|) && CallsOk(StatusAt(sv.shard, t), CallsOf(sv, t))
    && (Has(sv.shard, t, Prepared) ==>
          && t in sv.since && sv.since[t] <= |sv.log|
          && forall c :: c in CallsOf(sv, t) && TakesOut(c) ==> sv.since[t] <= c.index)
    && forall i :: Low(sv, t) <= i <= |sv.log| ==> AgreesAt(sv, t, i)
  }

  ghost predicate Related(sv: Server) {
    && sv.applied <= |sv.log| && Inv(sv.shard)
    && (forall t :: TicketOk(sv, t))
    && (forall i :: 0 <= i <= |sv.log| ==> Disjoint(RepAt(sv, i)))
  }

  // ---- Statuses and calls ----

  lemma {:induction false} FoldAppend(st: Status, calls: seq<Call>, c: Call, i: nat)
    requires AllBelow(calls, c.index)
    ensures i <= c.index ==> Fold(st, calls + [c], i) == Fold(st, calls, i)
    ensures i > c.index ==> Fold(st, calls + [c], i) == Turn(Fold(st, calls, c.index), c)
    decreases calls
  {
    var all := calls + [c];
    if calls == [] {
      assert all[1..] == [];
    } else {
      assert all[1..] == calls[1..] + [c] && calls[0] in calls;
      FoldAppend(Turn(st, calls[0]), calls[1..], c, i);
    }
  }

  lemma {:induction false} FoldBelow(st: Status, calls: seq<Call>, n: nat, i: nat)
    requires AllBelow(calls, n) && n <= i
    ensures Fold(st, calls, i) == Fold(st, calls, n)
    decreases calls
  {
    if calls != [] {
      assert calls[0] in calls;
      FoldBelow(Turn(st, calls[0]), calls[1..], n, i);
    }
  }

  lemma {:induction false} CallsOkAppend(st: Status, calls: seq<Call>, c: Call)
    requires CallsOk(st, calls) && AllBelow(calls, c.index)
    requires c.CommitCall? && c.known ==> !Fold(st, calls, c.index).Absent?
    ensures CallsOk(st, calls + [c])
    decreases calls
  {
    var all := calls + [c];
    if calls == [] {
      assert all[1..] == [];
    } else {
      assert all[1..] == calls[1..] + [c] && calls[0] in calls;
      CallsOkAppend(Turn(st, calls[0]), calls[1..], c);
    }
  }

  /** Calls on a ticket that is not there know nothing of it. */
  lemma {:induction false} AbsentCalls(calls: seq<Call>)
    requires CallsOk(Absent, calls)
    ensures forall c :: c in calls && c.CommitCall? ==> !c.known
    decreases calls
  {
    if calls != [] {
      AbsentCalls(calls[1..]);
      assert calls == [calls[0]] + calls[1..];
    }
  }

  /** Calls that do not end a prepared ticket leave it as it is. */
  lemma {:induction false} HarmlessCalls(st: Status, calls: seq<Call>, i: nat)
    requires st.Prep? && forall c :: c in calls ==> !TakesOut(c)
    ensures Fold(st, calls, i) == st && CallsOk(st, calls)
    decreases calls
  {
    if calls != [] {
      assert calls[0] in calls;
      HarmlessCalls(st, calls[1..], i);
    }
  }

  lemma {:induction false} PrepFold(st: Status, calls: seq<Call>, i: nat)
    requires Fold(st, calls, i).Prep?
    ensures st == Fold(st, calls, i)
    decreases calls
  {
    if calls != [] && calls[0].index < i {
      PrepFold(Turn(st, calls[0]), calls[1..], i);
    }
  }

  // ---- Submitting an entry ----

  lemma SubmitPrefix(sv: Server, r: Server, e: Entry, i: nat)
    requires r.base == sv.base && r.log == sv.log + [e] && i <= |sv.log| + 1
    ensures RepAt(r, i) == if i <= |sv.log| then RepAt(sv, i) else Enter(Whole(sv), e)
  {
    assert r.log[..i] == if i <= |sv.log| then sv.log[..i] else sv.log + [e];
    assert sv.log[..|sv.log|] == sv.log;
    AfterAppend(sv.base, sv.log, e);
  }

  /** An entry about one ticket leaves the records of all others alone. */
  lemma EnterOthers(r: Replica, e: Entry, t: Ticket)
    requires e.ticket != t
    ensures StatusIn(Enter(r, e), t) == StatusIn(r, t)
  {
  }

  /** Two prepared tickets of the replica are prepared in the shard, whose locks keep them apart. */
  lemma ShardKeepsApart(sh: Shard, r: Replica)
    requires Inv(sh)
    requires forall t :: IsPrepared(r, t) ==> Has(sh, t, Prepared) && r.tickets[t].update == sh.tickets[t].update
    ensures Disjoint(r)
  {
    forall t, u, k | IsPrepared(r, t) && IsPrepared(r, u) && k in r.tickets[t].update
      && k in r.tickets[u].update ensures t == u {
      assert HoldsWrite(LockOf(sh, k), t) && HoldsWrite(LockOf(sh, k), u);
    }
  }

  lemma WhollyPrepared(sv: Server, t: Ticket)
    requires TicketOk(sv, t) && sv.applied <= |sv.log| && IsPrepared(Whole(sv), t)
    ensures Has(sv.shard, t, Prepared) && Whole(sv).tickets[t].update == sv.shard.tickets[t].update
  {
    assert AgreesAt(sv, t, |sv.log|);
    PrepFold(StatusAt(sv.shard, t), CallsOf(sv, t), |sv.log|);
  }

  lemma Grown(sv: Server, r: Server, e: Entry)
    requires r.base == sv.base && r.log == sv.log + [e] && Inv(r.shard) && r.applied <= |r.log|
    requires forall t :: TicketOk(r, t)
    requires forall i :: 0 <= i <= |sv.log| ==> Disjoint(RepAt(sv, i))
    ensures forall i :: 0 <= i <= |r.log| ==> Disjoint(RepAt(r, i))
  {
    forall i | 0 <= i <= |r.log| ensures Disjoint(RepAt(r, i)) {
      SubmitPrefix(sv, r, e, i);
      if i > |sv.log| {
        hide TicketOk, Inv, Disjoint, RepAt;
        forall t | IsPrepared(Whole(r), t)
          ensures Has(r.shard, t, Prepared) && Whole(r).tickets[t].update == r.shard.tickets[t].update
        {
          WhollyPrepared(r, t);
        }
        ShardKeepsApart(r.shard, Whole(r));
      }
    }
  }

  // ---- A ticket that an event is not about ----

  /** The log of `r` is that of `sv`, or longer by an entry about another ticket than `t`. */
  ghost predicate LogFits(sv: Server, r: Server, t: Ticket) {
    r.base == sv.base && (r.log == sv.log || exists e: Entry :: e.ticket != t && r.log == sv.log + [e])
  }

  lemma LogFitsAt(sv: Server, r: Server, t: Ticket, i: nat)
    requires LogFits(sv, r, t) && i <= |r.log|
    ensures StatusIn(RepAt(r, i), t) == StatusIn(RepAt(sv, if i <= |sv.log| then i else |sv.log|), t)
  {
    if r.log != sv.log {
      var e: Entry :| e.ticket != t && r.log == sv.log + [e];
      SubmitPrefix(sv, r, e, i);
      EnterOthers(Whole(sv), e, t);
    }
  }

  lemma TicketKept(sv: Server, r: Server, t: Ticket)
    requires TicketOk(sv, t) && sv.applied <= |sv.log| && LogFits(sv, r, t) && sv.applied <= r.applied
    requires StatusAt(r.shard, t) == StatusAt(sv.shard, t) && CallsOf(r, t) == CallsOf(sv, t)
    requires t in sv.since ==> t in r.since && r.since[t] == sv.since[t]
    ensures TicketOk(r, t)
  {
    forall i | Low(r, t) <= i <= |r.log| ensures AgreesAt(r, t, i) {
      var j := if i <= |sv.log| then i else |sv.log|;
      LogFitsAt(sv, r, t, i);
      assert AgreesAt(sv, t, j);
      hide RepAt, LogFits;
      FoldBelow(StatusAt(sv.shard, t), CallsOf(sv, t), |sv.log|, if i <= |sv.log| then |sv.log| else i);
    }
  }

  lemma StepStatus(s: Shard, op: Op, t: Ticket)
    requires Inv(s) && Enabled(s, op) && (op.ticket == t ==> op.TryLockOp?)
    ensures StatusAt(Do(s, op).shard, t) == StatusAt(s, t)
  {
    if op.ticket != t {
      OthersRecords(s, op, t);
    }
  }

  // ---- Every event ----

  lemma LockKeeps(sv: Server, op: Op)
    requires Related(sv) && Possible(sv, Lock(op))
    ensures Related(Next(sv, Lock(op)))
  {
    hide Do, TicketOk, Inv, Disjoint;
    var r := Next(sv, Lock(op));
    StepKeepsInv(sv.shard, op);
    forall t ensures TicketOk(r, t) {
      StepStatus(sv.shard, op, t);
      TicketKept(sv, r, t);
    }
    forall i | 0 <= i <= |r.log| ensures Disjoint(RepAt(r, i)) { assert RepAt(r, i) == RepAt(sv, i); }
  }

  lemma AppliedKeeps(sv: Server)
    requires Related(sv) && Possible(sv, Applied)
    ensures Related(Next(sv, Applied))
  {
    hide TicketOk, Inv, Disjoint;
    var r := Next(sv, Applied);
    forall t ensures TicketOk(r, t) { TicketKept(sv, r, t); }
    forall i | 0 <= i <= |r.log| ensures Disjoint(RepAt(r, i)) { assert RepAt(r, i) == RepAt(sv, i); }
  }

  /** A ticket that the shard prepares is unknown to the replicas. */
  lemma PrepareTicket(sv: Server, t: Ticket, broker: nat, update: map<Key, Value>)
    requires Related(sv) && PrepareRefusals(sv.shard, t, update) == {} && !RollbackDue(sv, t)
    ensures TicketOk(Next(sv, AskPrepare(t, broker, update)), t)
  {
    hide Inv, Disjoint;
    var r, e := Next(sv, AskPrepare(t, broker, update)), PrepareEntry(t, broker, update);
    assert TicketOk(sv, t) && AgreesAt(sv, t, |sv.log|);
    assert StatusAt(sv.shard, t) == Absent && StatusAt(r.shard, t) == Prep(update);
    hide Related;
    AbsentCalls(CallsOf(sv, t));
    AbsentFold(CallsOf(sv, t), |sv.log|);
    HarmlessCalls(Prep(update), CallsOf(r, t), |r.log|);
    SubmitPrefix(sv, r, e, |r.log|);
    assert AgreesAt(r, t, |r.log|);
  }

  lemma {:induction false} AbsentFold(calls: seq<Call>, i: nat)
    ensures Fold(Absent, calls, i) == Absent
    decreases calls
  {
    if calls != [] { AbsentFold(calls[1..], i); }
  }

  lemma PrepareStatus(s: Shard, t: Ticket, update: map<Key, Value>, t': Ticket)
    requires t' != t
    ensures StatusAt(Prepare(s, t, update), t') == StatusAt(s, t')
  {
  }

  lemma PrepareKeeps(sv: Server, t: Ticket, broker: nat, update: map<Key, Value>)
    requires Related(sv) && Guard(sv, AskPrepare(t, broker, update))
    ensures Related(Next(sv, AskPrepare(t, broker, update)))
  {
    if PrepareRefusals(sv.shard, t, update) == {} {
      var r, e := Next(sv, AskPrepare(t, broker, update)), PrepareEntry(t, broker, update);
      PrepareTicket(sv, t, broker, update);
      PrepareKeepsInv(sv.shard, t, update);
      hide TicketOk, Inv, PrepareRefusals, Disjoint;
      forall t' ensures TicketOk(r, t') {
        if t' != t {
          PrepareStatus(sv.shard, t, update, t');
          TicketKept(sv, r, t');
        }
      }
      Grown(sv, r, e);
    }
  }

  /** What a commit, rollback or finish submits and leaves to be done. */
  ghost predicate Asks(sv: Server, e: Entry, call: Call) {
    && call.index == |sv.log|
    && match call
       case CommitCall(_, known) => e.CommitEntry? && known == (e.ticket in Whole(sv).tickets)
       case RollbackCall(_) => e.FinishEntry?
       case FinishCall(_) => e.FinishEntry? && !IsPrepared(Whole(sv), e.ticket)
  }

  lemma AskedTicket(sv: Server, e: Entry, call: Call)
    requires TicketOk(sv, e.ticket) && sv.applied <= |sv.log| && Asks(sv, e, call)
    ensures TicketOk(Called(sv, e, call), e.ticket)
  {
    var r, t, n := Called(sv, e, call), e.ticket, |sv.log|;
    var st, calls := StatusAt(sv.shard, t), CallsOf(sv, t);
    assert AgreesAt(sv, t, n);
    CallsOkAppend(st, calls, call);
    forall i | Low(r, t) <= i <= |r.log| ensures AgreesAt(r, t, i) {
      SubmitPrefix(sv, r, e, i);
      FoldAppend(st, calls, call, i);
      if i <= n {
        assert AgreesAt(sv, t, i);
      }
    }
  }

  lemma AskKeeps(sv: Server, e: Entry, call: Call)
    requires Related(sv) && Asks(sv, e, call)
    ensures Related(Called(sv, e, call))
  {
    hide TicketOk, Inv, Disjoint;
    var r := Called(sv, e, call);
    AskedTicket(sv, e, call);
    hide Asks;
    forall t ensures TicketOk(r, t) {
      if t != e.ticket {
        TicketKept(sv, r, t);
      }
    }
    Grown(sv, r, e);
  }

  // ---- Callbacks ----

  lemma AnswerStatus(s: Shard, t: Ticket, call: Call)
    ensures StatusAt(Carried(s, t, call), t) == Turn(StatusAt(s, t), call)
  {
    hide Relock, RelockAnswers;
  }

  lemma AnswerOther(s: Shard, t: Ticket, call: Call, t': Ticket)
    requires Inv(s) && t' != t
    ensures StatusAt(Carried(s, t, call), t') == StatusAt(s, t') && Inv(Carried(s, t, call))
  {
    hide Inv;
    var op := if call.CommitCall? then CommitOp(t) else if call.RollbackCall? then RollbackOp(t) else FinishOp(t);
    StepKeepsInv(s, op);
    StepStatus(s, op, t');
  }

  lemma CalledTicket(sv: Server, t: Ticket)
    requires Related(sv) && Possible(sv, CallBack(t))
    ensures TicketOk(Next(sv, CallBack(t)), t)
  {
    var r, calls := Next(sv, CallBack(t)), CallsOf(sv, t);
    assert TicketOk(sv, t);
    hide Related, Carried;
    AnswerStatus(sv.shard, t, calls[0]);
    assert calls[0] in calls;
    forall i | Low(r, t) <= i <= |r.log| ensures AgreesAt(r, t, i) {
      assert RepAt(r, i) == RepAt(sv, i);
      assert AgreesAt(sv, t, i);
    }
  }

  lemma CallBackKeeps(sv: Server, t: Ticket)
    requires Related(sv) && Possible(sv, CallBack(t))
    ensures Related(Next(sv, CallBack(t)))
  {
    hide TicketOk, Inv, Disjoint, Carried;
    var r := Next(sv, CallBack(t));
    AnswerOther(sv.shard, t, CallsOf(sv, t)[0], t + 1);
    forall t' ensures TicketOk(r, t') {
      if t' == t {
        CalledTicket(sv, t);
      } else {
        AnswerOther(sv.shard, t, CallsOf(sv, t)[0], t');
        TicketKept(sv, r, t');
      }
    }
    forall i | 0 <= i <= |r.log| ensures Disjoint(RepAt(r, i)) { assert RepAt(r, i) == RepAt(sv, i); }
  }

  // ---- Failover ----

  lemma StartedRelated(base: Replica, shard: Shard)
    requires Disjoint(base) && Rebuilt(map[], base, shard)
    ensures Related(Started(base, shard))
  {
    var sv := Started(base, shard);
    RebuiltShard(base, shard);
    assert shard.tickets == InfosOf(base);
    hide Inv, Rebuilt, Disjoint;
    assert RepAt(sv, 0) == base;
    forall t ensures TicketOk(sv, t) {
      assert AgreesAt(sv, t, 0);
    }
  }

  lemma PrefixApart(sv: Server, i: nat)
    requires Related(sv) && i <= |sv.log|
    ensures Disjoint(RepAt(sv, i))
  {
  }

  lemma EventKeepsServer(sv: Server, e: Event)
    requires Related(sv) && Possible(sv, e) && Guard(sv, e)
    ensures Related(Next(sv, e))
  {
    hide Related, Do, Rebuilt;
    match e
    case Lock(op) => LockKeeps(sv, op);
    case AskPrepare(t, broker, update) => PrepareKeeps(sv, t, broker, update);
    case AskCommit(t) => AskKeeps(sv, CommitEntry(t), CommitCall(|sv.log|, t in Whole(sv).tickets));
    case AskRollback(t) => AskKeeps(sv, FinishEntry(t), RollbackCall(|sv.log|));
    case AskFinish(t) => AskKeeps(sv, FinishEntry(t), FinishCall(|sv.log|));
    case Applied => AppliedKeeps(sv);
    case CallBack(t) => CallBackKeeps(sv, t);
    case TakeOver(kept, shard) =>
      PrefixApart(sv, kept);
      StartedRelated(RepAt(sv, kept), shard);
  }

  /** The demand is exact: an event against it ends the relation between log and shard. */
  lemma GuardIsNeeded(sv: Server, e: Event)
    requires Related(sv) && Possible(sv, e) && !Guard(sv, e)
    ensures !Related(Next(sv, e))
  {
    var r, t := Next(sv, e), e.ticket;
    assert TicketOk(sv, t);
    if e.AskPrepare? {
      var c :| c in CallsOf(sv, t) && c.RollbackCall?;
      assert c in CallsOf(r, t) && TakesOut(c) && c.index < |sv.log| && Has(r.shard, t, Prepared);
      assert !TicketOk(r, t);
    } else {
      var n := |sv.log|;
      var st, calls, call := StatusAt(sv.shard, t), CallsOf(sv, t), FinishCall(n);
      assert AgreesAt(sv, t, n);
      SubmitPrefix(sv, r, FinishEntry(t), n + 1);
      FoldAppend(st, calls, call, n + 1);
      assert !AgreesAt(r, t, n + 1);
      assert !TicketOk(r, t);
    }
  }

  // ---- Values ----

  /** A write that the first `i` entries of the log have committed and the shard has not. */
  predicate Due(sv: Server, t: Ticket, k: Key, i: nat) {
    && Has(sv.shard, t, Prepared) && k in sv.shard.tickets[t].update
    && exists c :: c in CallsOf(sv, t) && c.CommitCall? && c.known && c.index < i
  }

  /** The value of a key after the first `i` entries is the shard's, up to a write that is due. */
  ghost predicate ValueAt(sv: Server, k: Key, i: nat)
    requires i <= |sv.log|
  {
    var v := Lookup(RepAt(sv, i).state, k);
    && (forall t :: Due(sv, t, k, i) ==> sv.shard.tickets[t].update[k] == v)
    && ((forall t :: !Due(sv, t, k, i)) ==> ValueOf(sv.shard, k) == v)
  }

  ghost predicate Faithful(sv: Server) {
    sv.applied <= |sv.log| && forall k, i :: sv.applied <= i <= |sv.log| ==> ValueAt(sv, k, i)
  }

  /** The writes that are due and the values that the shard has stay the same. */
  ghost predicate SameValue(sv: Server, i: nat, r: Server, j: nat, k: Key) {
    && ValueOf(r.shard, k) == ValueOf(sv.shard, k)
    && forall t :: (Due(r, t, k, j) <==> Due(sv, t, k, i))
                   && (Due(r, t, k, j) ==> r.shard.tickets[t].update == sv.shard.tickets[t].update)
  }

  lemma ValueKept(sv: Server, i: nat, r: Server, j: nat, k: Key)
    requires i <= |sv.log| && j <= |r.log| && SameValue(sv, i, r, j, k)
    requires Lookup(RepAt(r, j).state, k) == Lookup(RepAt(sv, i).state, k)
    ensures ValueAt(r, k, j) <==> ValueAt(sv, k, i)
  {
    hide Due;
  }

  lemma LockValues(sv: Server, op: Op)
    requires Related(sv) && Faithful(sv) && Possible(sv, Lock(op))
    ensures Faithful(Next(sv, Lock(op)))
  {
    hide Do, TicketOk, Disjoint;
    var r := Next(sv, Lock(op));
    forall t ensures StatusAt(r.shard, t) == StatusAt(sv.shard, t) { StepStatus(sv.shard, op, t); }
    forall k, i | r.applied <= i <= |r.log| ensures ValueAt(r, k, i) {
      StepValue(sv.shard, op, k);
      assert ValueAt(sv, k, i) && RepAt(r, i) == RepAt(sv, i);
      hide Inv;
      forall t ensures Due(r, t, k, i) <==> Due(sv, t, k, i)
               ensures Due(r, t, k, i) ==> r.shard.tickets[t].update == sv.shard.tickets[t].update
      {
        assert StatusAt(r.shard, t) == StatusAt(sv.shard, t);
      }
      ValueKept(sv, i, r, i, k);
    }
  }

  lemma AppliedValues(sv: Server)
    requires Faithful(sv) && Possible(sv, Applied)
    ensures Faithful(Next(sv, Applied))
  {
    var r := Next(sv, Applied);
    forall k, i | r.applied <= i <= |r.log| ensures ValueAt(r, k, i) {
      assert ValueAt(sv, k, i) && RepAt(r, i) == RepAt(sv, i);
      assert SameValue(sv, i, r, i, k);
      ValueKept(sv, i, r, i, k);
    }
  }

  /** After an entry was submitted, only the value at the end of the log is to be looked at. */
  lemma SubmittedValues(sv: Server, r: Server, e: Entry)
    requires Faithful(sv) && r.base == sv.base && r.log == sv.log + [e] && r.applied == sv.applied
    requires forall k, i :: 0 <= i <= |sv.log| ==> SameValue(sv, i, r, i, k)
    ensures Faithful(r) <==> forall k :: ValueAt(r, k, |r.log|)
  {
    hide SameValue;
    if forall k :: ValueAt(r, k, |r.log|) {
      forall k, i | r.applied <= i <= |r.log| ensures ValueAt(r, k, i) {
        if i <= |sv.log| {
          SubmitPrefix(sv, r, e, i);
          assert ValueAt(sv, k, i) && SameValue(sv, i, r, i, k);
          ValueKept(sv, i, r, i, k);
        }
      }
    }
  }

  lemma DueAtEnd(sv: Server, t: Ticket, k: Key, i: nat)
    requires AllBelow(CallsOf(sv, t), |sv.log|) && i >= |sv.log|
    ensures Due(sv, t, k, i) <==> Due(sv, t, k, |sv.log|)
  {
  }

  lemma PreparedValue(sv: Server, t: Ticket, broker: nat, update: map<Key, Value>, k: Key, i: nat, j: nat)
    requires Related(sv) && PrepareRefusals(sv.shard, t, update) == {}
    requires i == j || (i == |sv.log| && i <= j)
    ensures SameValue(sv, i, Next(sv, AskPrepare(t, broker, update)), j, k)
  {
    hide Inv, Disjoint;
    var r := Next(sv, AskPrepare(t, broker, update));
    forall t' ensures Due(r, t', k, j) <==> Due(sv, t', k, i) {
      assert TicketOk(sv, t');
      if t' == t {
        AbsentCalls(CallsOf(sv, t));
      } else if i != j {
        DueAtEnd(sv, t', k, j);
      }
    }
  }

  lemma PrepareValues(sv: Server, t: Ticket, broker: nat, update: map<Key, Value>)
    requires Related(sv) && Faithful(sv)
    ensures Faithful(Next(sv, AskPrepare(t, broker, update)))
  {
    if PrepareRefusals(sv.shard, t, update) == {} {
      var r, e := Next(sv, AskPrepare(t, broker, update)), PrepareEntry(t, broker, update);
      hide Related, SameValue, PrepareRefusals;
      forall k, i: nat ensures SameValue(sv, i, r, i, k) { PreparedValue(sv, t, broker, update, k, i, i); }
      SubmittedValues(sv, r, e);
      SubmitPrefix(sv, r, e, |r.log|);
      forall k ensures ValueAt(r, k, |r.log|) {
        PreparedValue(sv, t, broker, update, k, |sv.log|, |r.log|);
        assert ValueAt(sv, k, |sv.log|);
        ValueKept(sv, |sv.log|, r, |r.log|, k);
      }
    }
  }

  /** Which writes are due after a request that goes to the log first. */
  lemma CalledDue(sv: Server, e: Entry, call: Call, t: Ticket, k: Key, i: nat)
    requires Related(sv) && call.index == |sv.log|
    ensures var r := Called(sv, e, call);
            && (i <= |sv.log| ==> (Due(r, t, k, i) <==> Due(sv, t, k, i)))
            && (Due(r, t, k, |r.log|) <==>
                  Due(sv, t, k, |sv.log|)
                  || (t == e.ticket && call.CommitCall? && call.known && Has(sv.shard, t, Prepared)
                        && k in sv.shard.tickets[t].update))
  {
    hide Inv, Disjoint;
    assert TicketOk(sv, t);
    hide Related;
    var r := Called(sv, e, call);
    if t == e.ticket {
      assert forall c :: c in CallsOf(r, t) <==> c in CallsOf(sv, t) || c == call;
    }
  }

  lemma CalledPrefixes(sv: Server, e: Entry, call: Call)
    requires Related(sv) && Faithful(sv) && call.index == |sv.log|
    ensures var r := Called(sv, e, call); Faithful(r) <==> forall k :: ValueAt(r, k, |r.log|)
  {
    hide Related, Due;
    var r := Called(sv, e, call);
    forall k, i: nat | i <= |sv.log| ensures SameValue(sv, i, r, i, k) {
      forall t ensures Due(r, t, k, i) <==> Due(sv, t, k, i) { CalledDue(sv, e, call, t, k, i); }
    }
    SubmittedValues(sv, r, e);
  }

  /** A request that commits nothing anew has the value of a key at the end of the log right
      exactly if its entry leaves that value alone. */
  lemma QuietValue(sv: Server, e: Entry, call: Call, k: Key)
    requires Related(sv) && Faithful(sv) && call.index == |sv.log|
    requires call.CommitCall? && call.known ==> IsCommitted(Whole(sv), e.ticket)
    ensures var r := Called(sv, e, call);
            ValueAt(r, k, |r.log|) <==> Lookup(Enter(Whole(sv), e).state, k) == Lookup(Whole(sv).state, k)
  {
    hide Inv, Disjoint;
    var r := Called(sv, e, call);
    SubmitPrefix(sv, r, e, |r.log|);
    assert ValueAt(sv, k, |sv.log|);
    forall t ensures Due(r, t, k, |r.log|) <==> Due(sv, t, k, |sv.log|) {
      CalledDue(sv, e, call, t, k, 0);
      if t == e.ticket && call.CommitCall? && call.known && Has(sv.shard, t, Prepared) {
        CommittedIsDue(sv, t);
      }
    }
    hide Related, Due, Faithful;
  }

  /** A prepared ticket that the replicas no longer hold prepared has its commit outstanding, if
      the replicas hold it at all. */
  lemma CommittedIsDue(sv: Server, t: Ticket)
    requires Related(sv) && Has(sv.shard, t, Prepared) && t in Whole(sv).tickets && !IsPrepared(Whole(sv), t)
    ensures exists c :: c in CallsOf(sv, t) && c.CommitCall? && c.known && c.index < |sv.log|
  {
    hide Inv, Disjoint;
    assert TicketOk(sv, t) && AgreesAt(sv, t, |sv.log|);
    hide Related;
    if forall c :: c in CallsOf(sv, t) ==> !(c.CommitCall? && c.known) {
      NeverCommitted(StatusAt(sv.shard, t), CallsOf(sv, t), |sv.log|);
    }
  }

  lemma {:induction false} NeverCommitted(st: Status, calls: seq<Call>, i: nat)
    requires !st.Comm? && forall c :: c in calls ==> !(c.CommitCall? && c.known)
    ensures !Fold(st, calls, i).Comm?
    decreases calls
  {
    if calls != [] && calls[0].index < i {
      assert calls[0] in calls;
      NeverCommitted(Turn(st, calls[0]), calls[1..], i);
    }
  }

  /** A first commit: what it writes is due. */
  lemma CommitValue(sv: Server, t: Ticket, k: Key)
    requires Related(sv) && Faithful(sv) && IsPrepared(Whole(sv), t)
    ensures var r := Next(sv, AskCommit(t)); ValueAt(r, k, |r.log|)
  {
    hide Disjoint, Inv;
    var r, e, call := Next(sv, AskCommit(t)), CommitEntry(t), CommitCall(|sv.log|, true);
    SubmitPrefix(sv, r, e, |r.log|);
    assert TicketOk(sv, t) && ValueAt(sv, k, |sv.log|);
    WhollyPrepared(sv, t);
    var update := sv.shard.tickets[t].update;
    forall t' ensures Due(r, t', k, |r.log|) <==> Due(sv, t', k, |sv.log|) || (t' == t && k in update) {
      CalledDue(sv, e, call, t', k, 0);
    }
    if k in update {
      forall t' | Due(r, t', k, |r.log|) ensures t' == t { SoleWriter(sv.shard, t, t', k); }
    }
  }

  lemma SoleWriter(s: Shard, t: Ticket, u: Ticket, k: Key)
    requires Inv(s) && Has(s, t, Prepared) && Has(s, u, Prepared)
    requires k in s.tickets[t].update && k in s.tickets[u].update
    ensures t == u
  {
    assert HoldsWrite(LockOf(s, k), t) && HoldsWrite(LockOf(s, k), u);
  }

  /** A second commit leaves the values alone if and only if the keys it wrote have none. */
  lemma CommitAgain(r: Replica, t: Ticket)
    requires t in r.tickets && r.tickets[t].update == MovedFrom(r.tickets[t].update)
    ensures (forall k :: Lookup(Enter(r, CommitEntry(t)).state, k) == Lookup(r.state, k))
            <==> forall k :: k in r.tickets[t].update ==> Lookup(r.state, k) == EMPTY
  {
    forall k ensures Lookup(Enter(r, CommitEntry(t)).state, k) == if k in r.tickets[t].update then EMPTY
    else Lookup(r.state, k) {}
  }

  /** The updates of committed tickets in a replica have lost their values. */
  ghost predicate AllMoved(r: Replica) {
    forall t :: IsCommitted(r, t) ==> r.tickets[t].update == MovedFrom(r.tickets[t].update)
  }

  lemma {:induction false} AfterMoved(r: Replica, log: seq<Entry>)
    requires AllMoved(r)
    ensures AllMoved(After(r, log))
  {
    if log != [] {
      AfterMoved(r, log[..|log| - 1]);
      EnterMoved(After(r, log[..|log| - 1]), log[|log| - 1]);
    }
  }

  lemma EnterMoved(r: Replica, e: Entry)
    requires AllMoved(r)
    ensures AllMoved(Enter(r, e))
  {
  }

  lemma CommitValues(sv: Server, t: Ticket)
    requires Related(sv) && Faithful(sv) && AllMoved(sv.base)
    ensures Faithful(Next(sv, AskCommit(t))) <==> !Wipes(sv, AskCommit(t))
  {
    var r, e, call := Next(sv, AskCommit(t)), CommitEntry(t), CommitCall(|sv.log|, t in Whole(sv).tickets);
    hide Related;
    CalledPrefixes(sv, e, call);
    if IsPrepared(Whole(sv), t) {
      forall k ensures ValueAt(r, k, |r.log|) { CommitValue(sv, t, k); }
    } else {
      hide Faithful, ValueAt;
      forall k ensures ValueAt(r, k, |r.log|) <==> Lookup(Enter(Whole(sv), e).state, k) == Lookup(Whole(sv).state, k) {
        QuietValue(sv, e, call, k);
      }
      AfterMoved(sv.base, sv.log[..|sv.log|]);
      if t in Whole(sv).tickets {
        CommitAgain(Whole(sv), t);
      }
    }
  }

  lemma FinishValues(sv: Server, t: Ticket, call: Call)
    requires Related(sv) && Faithful(sv) && !call.CommitCall? && call.index == |sv.log|
    ensures Faithful(Called(sv, FinishEntry(t), call))
  {
    hide Related, Faithful, ValueAt;
    CalledPrefixes(sv, FinishEntry(t), call);
    var r := Called(sv, FinishEntry(t), call);
    forall k ensures ValueAt(r, k, |r.log|) {
      QuietValue(sv, FinishEntry(t), call, k);
    }
  }

  // ---- Callbacks and values ----

  /** What a call makes of the value of a key. */
  lemma AnswerValue(s: Shard, t: Ticket, call: Call, k: Key)
    requires Inv(s)
    ensures ValueOf(Carried(s, t, call), k) ==
            if call.CommitCall? && call.known && Has(s, t, Prepared) && k in s.tickets[t].update
              then s.tickets[t].update[k]
            else ValueOf(s, k)
  {
    hide Inv;
    var op := if call.CommitCall? then CommitOp(t) else if call.RollbackCall? then RollbackOp(t) else FinishOp(t);
    StepValue(s, op, k);
  }

  lemma AnsweredDue(sv: Server, t: Ticket, t': Ticket, k: Key, i: nat)
    requires Related(sv) && Possible(sv, CallBack(t)) && sv.applied <= i
    ensures var r, call := Next(sv, CallBack(t)), CallsOf(sv, t)[0];
            && (t' != t ==> (Due(r, t', k, i) <==> Due(sv, t', k, i)))
            && (t' == t && !(call.CommitCall? && call.known) ==> (Due(r, t, k, i) <==> Due(sv, t, k, i)))
            && (t' == t && call.CommitCall? && call.known ==> !Due(r, t, k, i))
            && (Due(r, t', k, i) ==> r.shard.tickets[t'].update == sv.shard.tickets[t'].update)
  {
    hide Disjoint;
    var r, calls := Next(sv, CallBack(t)), CallsOf(sv, t);
    assert TicketOk(sv, t);
    hide Carried;
    if t' != t {
      AnswerOther(sv.shard, t, calls[0], t');
      assert StatusAt(r.shard, t') == StatusAt(sv.shard, t');
    } else {
      AnswerStatus(sv.shard, t, calls[0]);
      assert StatusAt(r.shard, t) == Turn(StatusAt(sv.shard, t), calls[0]);
      hide Related;
      assert calls == [calls[0]] + calls[1..];
      if calls[0].RollbackCall? {
        AbsentCalls(calls[1..]);
      }
    }
  }

  lemma CallBackValues(sv: Server, t: Ticket)
    requires Related(sv) && Faithful(sv) && Possible(sv, CallBack(t))
    ensures Faithful(Next(sv, CallBack(t)))
  {
    hide Disjoint, Carried, TicketOk;
    var r, call := Next(sv, CallBack(t)), CallsOf(sv, t)[0];
    forall k, i | r.applied <= i <= |r.log| ensures ValueAt(r, k, i) {
      assert ValueAt(sv, k, i) && RepAt(r, i) == RepAt(sv, i);
      AnswerValue(sv.shard, t, call, k);
      forall t' ensures Due(r, t', k, i) ==>
        Due(sv, t', k, i) && r.shard.tickets[t'].update == sv.shard.tickets[t'].update
                ensures Due(sv, t', k, i) && !Due(r, t', k, i) ==> t' == t && call.CommitCall? && call.known
      {
        AnsweredDue(sv, t, t', k, i);
      }
      CallBackValue(sv, r, t, k, i);
    }
  }

  lemma CallBackValue(sv: Server, r: Server, t: Ticket, k: Key, i: nat)
    requires Related(sv) && CallsOf(sv, t) != [] && CallsOf(sv, t)[0].index < sv.applied <= i <= |sv.log| == |r.log|
    requires ValueAt(sv, k, i) && RepAt(r, i) == RepAt(sv, i)
    requires forall t' :: Due(r, t', k, i) ==>
             Due(sv, t', k, i) && r.shard.tickets[t'].update == sv.shard.tickets[t'].update
    requires forall t' :: Due(sv, t', k, i) && !Due(r, t', k, i) ==>
             t' == t && CallsOf(sv, t)[0].CommitCall?
             && CallsOf(sv, t)[0].known
    requires ValueOf(r.shard, k) ==
             if CallsOf(sv, t)[0].CommitCall? && CallsOf(sv, t)[0].known && Has(sv.shard, t, Prepared)
               && k in sv.shard.tickets[t].update
             then sv.shard.tickets[t].update[k] else ValueOf(sv.shard, k)
    ensures ValueAt(r, k, i)
  {
    hide Disjoint, TicketOk, RepAt;
    var call := CallsOf(sv, t)[0];
    assert call in CallsOf(sv, t);
    if call.CommitCall? && call.known && Has(sv.shard, t, Prepared) && k in sv.shard.tickets[t].update {
      assert Due(sv, t, k, i);
    } else if forall t' :: !Due(r, t', k, i) {
      assert forall t' :: !Due(sv, t', k, i);
    }
  }

  lemma StartedFaithful(base: Replica, shard: Shard)
    requires Disjoint(base) && Rebuilt(map[], base, shard)
    ensures Faithful(Started(base, shard))
  {
    var sv := Started(base, shard);
    RebuiltShard(base, shard);
    hide Inv, Rebuilt, Disjoint;
    assert RepAt(sv, 0) == base;
  }

  lemma EventKeepsValues(sv: Server, e: Event)
    requires Related(sv) && Faithful(sv) && AllMoved(sv.base) && Possible(sv, e)
    ensures Faithful(Next(sv, e)) <==> !Wipes(sv, e)
  {
    hide Related, Faithful, Do, Rebuilt, AllMoved, Whole;
    match e
    case Lock(op) => LockValues(sv, op);
    case AskPrepare(t, broker, update) => PrepareValues(sv, t, broker, update);
    case AskCommit(t) => CommitValues(sv, t);
    case AskRollback(t) => FinishValues(sv, t, RollbackCall(|sv.log|));
    case AskFinish(t) => FinishValues(sv, t, FinishCall(|sv.log|));
    case Applied => AppliedValues(sv);
    case CallBack(t) => CallBackValues(sv, t);
    case TakeOver(kept, shard) =>
      PrefixApart(sv, kept);
      StartedFaithful(RepAt(sv, kept), shard);
  }

  lemma NextMoved(sv: Server, e: Event)
    requires AllMoved(sv.base) && Possible(sv, e)
    ensures AllMoved(Next(sv, e).base)
  {
    if e.TakeOver? {
      AfterMoved(sv.base, sv.log[..e.kept]);
    }
  }

  // ---- Whole runs, with any number of failovers ----

  datatype ServerRun = ServerRun(states: seq<Server>, events: seq<Event>)

  ghost predicate Follows(sv: Server, e: Event, r: Server) { Possible(sv, e) && r == Next(sv, e) }

  /** A run: any requests in any order. */
  ghost predicate Serves(run: ServerRun) {
    && |run.states| == |run.events| + 1
    && run.states[0] == Started(EMPTY_REPLICA, EMPTY_SHARD)
    && forall n :: 0 <= n < |run.events| ==> Follows(run.states[n], run.events[n], run.states[n + 1])
  }

  ghost predicate Guarded(run: ServerRun)
    requires Serves(run)
  {
    forall n :: 0 <= n < |run.events| ==> Guard(run.states[n], run.events[n])
  }

  /** No commit of the run wipes a value. */
  ghost predicate Unwiped(run: ServerRun)
    requires Serves(run)
  {
    forall n :: 0 <= n < |run.events| ==> !Wipes(run.states[n], run.events[n])
  }

  lemma {:induction false} ReachableServer(run: ServerRun, n: nat)
    requires Serves(run) && Guarded(run) && n < |run.states|
    ensures Related(run.states[n]) && AllMoved(run.states[n].base)
  {
    hide Related, Possible, Next, Guard;
    if n == 0 {
      NothingRebuilt();
      StartedRelated(EMPTY_REPLICA, EMPTY_SHARD);
    } else {
      assert Follows(run.states[n - 1], run.events[n - 1], run.states[n]);
      ReachableServer(run, n - 1);
      EventKeepsServer(run.states[n - 1], run.events[n - 1]);
      NextMoved(run.states[n - 1], run.events[n - 1]);
    }
  }

  lemma {:induction false} ReachableValues(run: ServerRun, n: nat)
    requires Serves(run) && Guarded(run) && Unwiped(run) && n < |run.states|
    ensures Faithful(run.states[n])
  {
    hide Related, Faithful, Possible, Next, Guard, Wipes, AllMoved;
    if n == 0 {
      NothingRebuilt();
      StartedFaithful(EMPTY_REPLICA, EMPTY_SHARD);
    } else {
      assert Follows(run.states[n - 1], run.events[n - 1], run.states[n]);
      ReachableServer(run, n - 1);
      ReachableValues(run, n - 1);
      EventKeepsValues(run.states[n - 1], run.events[n - 1]);
    }
  }

  lemma NothingRebuilt()
    ensures Disjoint(EMPTY_REPLICA) && Rebuilt(map[], EMPTY_REPLICA, EMPTY_SHARD) && AllMoved(EMPTY_REPLICA)
  {
    assert InfosOf(EMPTY_REPLICA) == map[];
  }

  /** Log and shard stay related over a run if and only if no ticket is prepared while a rollback
      of it is outstanding, nor finished while it is prepared. */
  lemma RelatedExactlyWhen(run: ServerRun)
    requires Serves(run)
    ensures (forall n :: 0 <= n < |run.states| ==> Related(run.states[n])) <==> Guarded(run)
  {
    hide Related, Possible, Next, Guard;
    if Guarded(run) {
      forall n | 0 <= n < |run.states| ensures Related(run.states[n]) { ReachableServer(run, n); }
    }
    if forall n :: 0 <= n < |run.states| ==> Related(run.states[n]) {
      forall n | 0 <= n < |run.events| ensures Guard(run.states[n], run.events[n]) {
        assert Follows(run.states[n], run.events[n], run.states[n + 1]);
        if !Guard(run.states[n], run.events[n]) { GuardIsNeeded(run.states[n], run.events[n]); }
      }
    }
  }

  /** The replicated values are the shard's over such a run, up to writes that are due, if and
      only if no commit is repeated when a key that it wrote has a value. */
  lemma ValuesExactlyWhen(run: ServerRun)
    requires Serves(run) && Guarded(run)
    ensures (forall n :: 0 <= n < |run.states| ==> Faithful(run.states[n])) <==> Unwiped(run)
  {
    hide Related, Faithful, Possible, Next, Guard, Wipes, AllMoved;
    if Unwiped(run) {
      forall n | 0 <= n < |run.states| ensures Faithful(run.states[n]) { ReachableValues(run, n); }
    }
    if forall n :: 0 <= n < |run.states| ==> Faithful(run.states[n]) {
      forall n | 0 <= n < |run.events| ensures !Wipes(run.states[n], run.events[n]) {
        assert Follows(run.states[n], run.events[n], run.states[n + 1]);
        ReachableServer(run, n);
        EventKeepsValues(run.states[n], run.events[n]);
      }
    }
  }

  /** Shard failover. In every reachable state, a shard rebuilt from any prefix of the log has
      exactly the replicated values; its prepared tickets hold write locks on exactly the keys
      of their updates, no two of them share a key, and the shard invariant holds. */
  lemma FailoverIsSafe(run: ServerRun, n: nat, i: nat, s: Shard)
    requires Serves(run) && Guarded(run) && n < |run.states|
    requires i <= |run.states[n].log| && Rebuilt(map[], RepAt(run.states[n], i), s)
    ensures var r := RepAt(run.states[n], i);
            && Disjoint(r) && Inv(s)
            && (forall k :: ValueOf(s, k) == Lookup(r.state, k))
            && (forall t, k :: Holds(LockOf(s, k), t) <==> Writes(r, t, k))
            && (forall t, k :: t !in LockOf(s, k).queue)
  {
    hide Serves, Related, Rebuilt, Disjoint, Inv, RepAt, Writes, AllMoved, Guarded;
    ReachableServer(run, n);
    PrefixApart(run.states[n], i);
    RebuiltShard(RepAt(run.states[n], i), s);
  }

  /** A failover that keeps what was applied loses no acknowledged prepare or commit: a ticket
      without outstanding calls is in the rebuilt shard as it was in the old one. */
  lemma AcknowledgedSurvives(run: ServerRun, n: nat, i: nat, s: Shard, t: Ticket)
    requires Serves(run) && Guarded(run) && n < |run.states|
    requires run.states[n].applied <= i <= |run.states[n].log| && Rebuilt(map[], RepAt(run.states[n], i), s)
    requires CallsOf(run.states[n], t) == []
    ensures var sv := run.states[n];
            && (Has(sv.shard, t, Prepared) && t in sv.since && sv.since[t] <= sv.applied ==>
                  Has(s, t, Prepared) && s.tickets[t].update == sv.shard.tickets[t].update)
            && (Has(sv.shard, t, Committed) ==> Has(s, t, Committed))
            && (!Has(sv.shard, t, Prepared) && !Has(sv.shard, t, Committed) ==> t !in s.tickets)
  {
    hide Serves, Guarded, Disjoint, Inv, RebuiltAt, AllMoved;
    ReachableServer(run, n);
    var sv := run.states[n];
    assert TicketOk(sv, t);
    assert s.tickets == InfosOf(RepAt(sv, i));
    hide Related, Rebuilt;
    if Low(sv, t) <= i { assert AgreesAt(sv, t, i); }
  }

  /** Nor does it lose a value: whatever prefix of the log beyond the applied part is kept, the
      rebuilt shard has the old shard's value of every key, or the one that was due. */
  lemma ValuesSurvive(run: ServerRun, n: nat, i: nat, s: Shard, k: Key)
    requires Serves(run) && Guarded(run) && Unwiped(run) && n < |run.states|
    requires run.states[n].applied <= i <= |run.states[n].log| && Rebuilt(map[], RepAt(run.states[n], i), s)
    ensures var sv := run.states[n];
            && (forall t :: Due(sv, t, k, i) ==> ValueOf(s, k) == sv.shard.tickets[t].update[k])
            && ((forall t :: !Due(sv, t, k, i)) ==> ValueOf(s, k) == ValueOf(sv.shard, k))
  {
    hide Serves, Guarded, Unwiped, Disjoint, Inv, Rebuilt, Related, Due, AllMoved;
    ReachableServer(run, n);
    ReachableValues(run, n);
    PrefixApart(run.states[n], i);
    RebuiltShard(RepAt(run.states[n], i), s);
    assert ValueAt(run.states[n], k, i);
  }

  // ---- Runs that show the demands ----

  function Last(run: ServerRun): Server {
    if run.states == [] then Started(EMPTY_REPLICA, EMPTY_SHARD) else run.states[|run.states| - 1]
  }

  lemma Go(run: ServerRun, e: Event) returns (r: ServerRun)
    requires Serves(run) && Possible(Last(run), e)
    ensures Serves(r) && Last(r) == Next(Last(run), e) && r.events == run.events + [e]
    ensures Guarded(run) && Guard(Last(run), e) ==> Guarded(r)
  {
    hide Possible, Next, Guard;
    r := ServerRun(run.states + [Next(Last(run), e)], run.events + [e]);
    forall n | 0 <= n < |r.events| ensures Follows(r.states[n], r.events[n], r.states[n + 1]) {
      if n < |run.events| {
        assert Follows(run.states[n], run.events[n], run.states[n + 1]);
      }
    }
  }

  lemma Begin() returns (run: ServerRun)
    ensures Serves(run) && run.events == [] && run.states == [Started(EMPTY_REPLICA, EMPTY_SHARD)]
  {
    run := ServerRun([Started(EMPTY_REPLICA, EMPTY_SHARD)], []);
  }

  /** A shard in which `t` has locked `k`, and nothing else has happened. */
  predicate OnlyLocked(s: Shard, t: Ticket, k: Key) {
    && s.elements == map[k := Element(EMPTY, RwLock(Some(t), {}, map[]))]
    && s.tickets.Keys == {t} && Has(s, t, Begun)
  }

  /** A shard that knows no ticket, and at most the key `k`. */
  predicate Untouched(s: Shard, k: Key) {
    s.tickets == map[] && (s.elements == map[] || s.elements == map[k := Element(EMPTY, FREE)])
  }

  function LockOp(t: Ticket, k: Key): Op { TryLockOp(t, 0, k, Write, true, 0) }

  lemma LockUntouched(s: Shard, t: Ticket, k: Key)
    requires Untouched(s, k)
    ensures OnlyLocked(Do(s, LockOp(t, k)).shard, t, k)
  {
    var w := Waiter(Write, 0);
    var e := Queued(s, t, k, w);
    assert LockOf(s, k) == FREE && ValueOf(s, k) == EMPTY;
    assert e == map[k := Element(EMPTY, RwLock(None, {}, map[t := w]))];
    assert Victims(s, t, k, Write) == {};
    var l := Release(e[k].lock, {});
    assert t in l.queue && l == RwLock(None, {}, map[t := w]) && Front(l.queue) == t;
    assert GrantFront(l) == RwLock(Some(t), {}, map[]) by { assert l.queue - {t} == map[]; }
    assert Settle(l) == RwLock(Some(t), {}, map[]);
    assert Relock(e, {}) == map[k := Element(EMPTY, RwLock(Some(t), {}, map[]))];
  }

  lemma PrepareLocked(s: Shard, t: Ticket, k: Key, v: Value)
    requires OnlyLocked(s, t, k)
    ensures PrepareRefusals(s, t, map[k := v]) == {}
  {
    assert QueuedBy(s.elements, t) == {};
  }

  lemma RollbackLocked(s: Shard, t: Ticket, k: Key)
    requires s.elements == map[k := Element(EMPTY, RwLock(Some(t), {}, map[]))] && s.tickets.Keys == {t}
    ensures Untouched(Do(s, RollbackOp(t)).shard, k)
  {
    var l := Release(s.elements[k].lock, {t});
    assert s.elements[k].lock.queue - {t} == map[];
    assert l == FREE;
    assert Relock(s.elements, {t}) == map[k := Element(EMPTY, FREE)];
    assert s.tickets - {t} == map[];
  }

  /** A ticket that has locked `k` and prepared the value `v` for it. */
  lemma PreparedExample(t: Ticket, k: Key, v: Value) returns (run: ServerRun)
    ensures Serves(run) && Guarded(run) && run.events == [Lock(LockOp(t, k)), AskPrepare(t, 0, map[k := v])]
    ensures var sv := Last(run);
            && sv.base == EMPTY_REPLICA && sv.log == [PrepareEntry(t, 0, map[k := v])] && sv.applied == 0
                 && sv.busy == map[]
            && Has(sv.shard, t, Prepared) && sv.shard.tickets[t].update == map[k := v] && sv.shard.tickets.Keys == {t}
  {
    hide Do;
    run := Begin();
    LockUntouched(EMPTY_SHARD, t, k);
    run := Go(run, Lock(LockOp(t, k)));
    PrepareLocked(Last(run).shard, t, k, v);
    run := Go(run, AskPrepare(t, 0, map[k := v]));
  }

  lemma WholeOfOne(sv: Server, e: Entry)
    requires sv.log == [e]
    ensures Whole(sv) == Enter(sv.base, e)
  {
    assert sv.log[..1] == [] + [e];
    AfterAppend(sv.base, [], e);
  }

  lemma WholeOfMore(sv: Server, log: seq<Entry>, e: Entry)
    requires sv.log == log + [e]
    ensures Whole(sv) == Enter(After(sv.base, log), e)
  {
    assert sv.log[..|sv.log|] == log + [e];
    AfterAppend(sv.base, log, e);
  }

  lemma AskedExample(t: Ticket, k: Key, v: Value) returns (run: ServerRun)
    ensures Serves(run) && Guarded(run)
    ensures run.events == [Lock(LockOp(t, k)), AskPrepare(t, 0, map[k := v]), AskCommit(t)]
    ensures var sv := Last(run);
            && sv.base == EMPTY_REPLICA && sv.log == [PrepareEntry(t, 0, map[k := v]), CommitEntry(t)]
                 && sv.applied == 0
            && CallsOf(sv, t) == [CommitCall(1, true)] && Has(sv.shard, t, Prepared)
                 && sv.shard.tickets[t].update == map[k := v]
            && sv.shard.tickets.Keys == {t}
            && Whole(sv) == Replica(map[k := v], map[t := ReplTicket(0, map[k := EMPTY], true)])
  {
    hide Serves, Guarded;
    run := PreparedExample(t, k, v);
    var p := Last(run);
    WholeOfOne(p, PrepareEntry(t, 0, map[k := v]));
    run := Go(run, AskCommit(t));
    WholeOfMore(Last(run), p.log, CommitEntry(t));
    assert p.log[..1] == p.log;
    assert MovedFrom(map[k := v]) == map[k := EMPTY];
    assert EMPTY_REPLICA.state + map[k := v] == map[k := v];
  }

  lemma SameWhole(sv: Server, r: Server)
    requires r.base == sv.base && r.log == sv.log
    ensures Whole(r) == Whole(sv)
  {
  }

  lemma CommitKeepsTickets(s: Shard, t: Ticket)
    requires Has(s, t, Prepared) && s.tickets.Keys == {t}
    ensures Carried(s, t, CommitCall(1, true)).tickets.Keys == {t}
  {
  }

  /** Then committed, and acknowledged. */
  lemma CommittedExample(t: Ticket, k: Key, v: Value) returns (run: ServerRun)
    ensures Serves(run) && Guarded(run)
    ensures run.events
            == [Lock(LockOp(t, k)), AskPrepare(t, 0, map[k := v]), AskCommit(t), Applied, Applied, CallBack(t)]
    ensures var sv := Last(run);
            && sv.base == EMPTY_REPLICA && sv.log == [PrepareEntry(t, 0, map[k := v]), CommitEntry(t)]
                 && sv.applied == 2
            && CallsOf(sv, t) == [] && Has(sv.shard, t, Committed) && ValueOf(sv.shard, k) == v
                 && sv.shard.tickets.Keys == {t}
            && Whole(sv) == Replica(map[k := v], map[t := ReplTicket(0, map[k := EMPTY], true)])
  {
    hide Serves, Guarded, Whole, Related, AllMoved, Carried;
    run := AskedExample(t, k, v);
    var p := Last(run);
    run := Go(run, Applied);
    run := Go(run, Applied);
    var sv := Last(run);
    SameWhole(p, sv);
    LastRelated(run);
    AnswerValue(sv.shard, t, CommitCall(1, true), k);
    AnswerStatus(sv.shard, t, CommitCall(1, true));
    CommitKeepsTickets(sv.shard, t);
    run := Go(run, CallBack(t));
    SameWhole(sv, Last(run));
  }

  lemma LastRelated(run: ServerRun)
    requires Serves(run) && Guarded(run)
    ensures Related(Last(run)) && Inv(Last(run).shard)
  {
    ReachableServer(run, |run.states| - 1);
  }

  /** A repeated commit destroys an acknowledged value in the replicas, and a server that takes
      over has lost it. */
  lemma WipedValue(t: Ticket, k: Key, v: Value) returns (run: ServerRun)
    requires v != EMPTY
    ensures Serves(run) && Guarded(run)
    ensures run.events == [Lock(LockOp(t, k)), AskPrepare(t, 0, map[k := v]), AskCommit(t), Applied, Applied,
            CallBack(t),
                           AskCommit(t)]
    ensures Has(Last(run).shard, t, Committed) && ValueOf(Last(run).shard, k) == v
    ensures forall s :: Rebuilt(map[], Whole(Last(run)), s) ==> ValueOf(s, k) == EMPTY
  {
    hide Serves, Guarded, Rebuilt;
    run := CommittedExample(t, k, v);
    var sv := Last(run);
    run := Go(run, AskCommit(t));
    WholeOfMore(Last(run), sv.log, CommitEntry(t));
    assert sv.log[..2] == sv.log;
    forall s | Rebuilt(map[], Whole(Last(run)), s) ensures ValueOf(s, k) == EMPTY {
      RebuiltLast(run, s);
    }
  }

  lemma RebuiltLast(run: ServerRun, s: Shard)
    requires Serves(run) && Guarded(run) && Rebuilt(map[], Whole(Last(run)), s)
    ensures forall k :: ValueOf(s, k) == Lookup(Whole(Last(run)).state, k)
  {
    hide Guarded, Rebuilt;
    FailoverIsSafe(run, |run.states| - 1, |Last(run).log|, s);
  }

  /** A ticket locks `k` and is rolled back twice; the shard has answered the first rollback. */
  lemma RolledBackExample(t: Ticket, k: Key) returns (run: ServerRun)
    ensures Serves(run)
    ensures run.events == [Lock(LockOp(t, k)), AskRollback(t), AskRollback(t), Applied, Applied, CallBack(t)]
    ensures var sv := Last(run);
            && sv.base == EMPTY_REPLICA && sv.log == [FinishEntry(t), FinishEntry(t)] && sv.applied == 2
            && sv.busy == map[t := [RollbackCall(1)]] && Untouched(sv.shard, k)
  {
    hide Do, Serves, Guarded;
    run := Begin();
    LockUntouched(EMPTY_SHARD, t, k);
    run := Go(run, Lock(LockOp(t, k)));
    run := Go(run, AskRollback(t));
    run := Go(run, AskRollback(t));
    run := Go(run, Applied);
    run := Go(run, Applied);
    RollbackLocked(Last(run).shard, t, k);
    run := Go(run, CallBack(t));
  }

  /** It starts again and prepares while the second rollback is outstanding, which then takes it
      from the shard but not from the log. */
  lemma LostPrepareExample(t: Ticket, k: Key, v: Value) returns (run: ServerRun)
    ensures Serves(run)
    ensures run.events == [Lock(LockOp(t, k)), AskRollback(t), AskRollback(t), Applied, Applied, CallBack(t),
                           Lock(LockOp(t, k)), AskPrepare(t, 0, map[k := v]), Applied, CallBack(t)]
    ensures var sv := Last(run);
            && sv.base == EMPTY_REPLICA && sv.log == [FinishEntry(t), FinishEntry(t), PrepareEntry(t, 0, map[k := v])]
            && sv.applied == 3 && CallsOf(sv, t) == [] && Untouched(sv.shard, k)
  {
    hide Do, Serves, Guarded;
    run := RolledBackExample(t, k);
    LockUntouched(Last(run).shard, t, k);
    run := Go(run, Lock(LockOp(t, k)));
    PrepareLocked(Last(run).shard, t, k, v);
    run := Go(run, AskPrepare(t, 0, map[k := v]));
    run := Go(run, Applied);
    RollbackLocked(Last(run).shard, t, k);
    run := Go(run, CallBack(t));
  }

  /** Preparing a ticket while a rollback of it is outstanding loses an acknowledged prepare, and
      lets another ticket prepare the same key: no shard can be rebuilt from the log then. */
  lemma LostPrepare(t: Ticket, u: Ticket, k: Key, v: Value) returns (run: ServerRun)
    requires t != u
    ensures run.events == [Lock(LockOp(t, k)), AskRollback(t), AskRollback(t), Applied, Applied, CallBack(t),
                           Lock(LockOp(t, k)), AskPrepare(t, 0, map[k := v]), Applied, CallBack(t),
                           Lock(LockOp(u, k)), AskPrepare(u, 0, map[k := v])]
    ensures Serves(run) && t !in Last(run).shard.tickets && Has(Last(run).shard, u, Prepared)
    ensures IsPrepared(Whole(Last(run)), t) && IsPrepared(Whole(Last(run)), u) && !Disjoint(Whole(Last(run)))
  {
    hide Do, Serves, Guarded;
    run := LostPrepareExample(t, k, v);
    var p := Last(run);
    LockUntouched(p.shard, u, k);
    run := Go(run, Lock(LockOp(u, k)));
    PrepareLocked(Last(run).shard, u, k, v);
    var q := Last(run);
    run := Go(run, AskPrepare(u, 0, map[k := v]));
    var update := map[k := v];
    LostPrepareLog(Last(run), t, u, update);
    assert k in update;
  }

  lemma LostPrepareLog(sv: Server, t: Ticket, u: Ticket, update: map<Key, Value>)
    requires t != u && sv.base == EMPTY_REPLICA
    requires sv.log == [FinishEntry(t), FinishEntry(t), PrepareEntry(t, 0, update), PrepareEntry(u, 0, update)]
    ensures var r := Whole(sv);
            IsPrepared(r, t) && IsPrepared(r, u) && r.tickets[t].update == update && r.tickets[u].update == update
  {
    var l1 := [FinishEntry(t)];
    var l2 := l1 + [FinishEntry(t)];
    var l3 := l2 + [PrepareEntry(t, 0, update)];
    assert sv.log[..4] == l3 + [PrepareEntry(u, 0, update)];
    AfterAppend(sv.base, [], FinishEntry(t));
    assert [] + [FinishEntry(t)] == l1;
    AfterAppend(sv.base, l1, FinishEntry(t));
    AfterAppend(sv.base, l2, PrepareEntry(t, 0, update));
    AfterAppend(sv.base, l3, PrepareEntry(u, 0, update));
  }

  /** Finishing a ticket while it is prepared loses its prepare. */
  lemma FinishedTooSoon(t: Ticket, k: Key, v: Value) returns (run: ServerRun)
    ensures Serves(run) && Has(Last(run).shard, t, Prepared) && t !in Whole(Last(run)).tickets
  {
    hide Do, Serves, Guarded;
    run := PreparedExample(t, k, v);
    var p := Last(run);
    run := Go(run, AskFinish(t));
    WholeOfMore(Last(run), p.log, FinishEntry(t));
  }

  lemma FinishForgets(s: Shard, t: Ticket, index: nat, k: Key)
    requires Inv(s) && Has(s, t, Committed) && s.tickets.Keys == {t}
    ensures Carried(s, t, FinishCall(index)).tickets == map[]
            && ValueOf(Carried(s, t, FinishCall(index)), k) == ValueOf(s, k)
  {
    assert (s.tickets - {t}).Keys == {};
  }

  /** A shard that has finished its tickets keeps its values. Recovery is not refused on it, and
      leaves the old value of a key that others have written since. The controller never calls it
      so: it makes a fresh shard for each term. */
  lemma StaleValue(t: Ticket, k: Key, v: Value, w: Value) returns (mine: ServerRun, theirs: ServerRun, s: Shard)
    requires v != EMPTY
    ensures Serves(mine) && Guarded(mine) && Last(mine).shard.tickets == map[]
    ensures Serves(theirs) && Guarded(theirs) && Lookup(Whole(Last(theirs)).state, k) == w
    ensures Rebuilt(Last(mine).shard.elements, Whole(Last(theirs)), s) && ValueOf(s, k) == v
  {
    hide Serves, Guarded, Whole, Related, Carried, Inv;
    theirs := CommittedExample(t, k, w);
    mine := CommittedExample(t, k, v);
    LastRelated(mine);
    mine := Go(mine, AskFinish(t));
    mine := Go(mine, Applied);
    FinishForgets(Last(mine).shard, t, 2, k);
    mine := Go(mine, CallBack(t));
    var r := Whole(Last(theirs));
    s := Onto(Last(mine).shard.elements, r);
  }

  lemma Onto(before: map<Key, Element>, r: Replica) returns (s: Shard)
    requires forall t :: t in r.tickets ==> r.tickets[t].committed
    ensures Rebuilt(before, r, s) && forall k :: k in before ==> ValueOf(s, k) == before[k].value
  {
    s := Shard(map k | k in before.Keys + r.state.Keys :: Element(if k in before then before[k].value else r.state[k],
      FREE), InfosOf(r));
    forall k ensures RebuiltAt(before, r, s.elements, k) {
      assert Writers(r, k) == {};
    }
  }
}
