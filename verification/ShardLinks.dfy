/** Every step of a shard keeps the relation between brokers, links and shards. */
module ShardLinks {
  import opened Basics
  import opened ShardSpec
  import opened ShardSteps
  import opened ShardRuns
  import opened BrokerSpec
  import opened Links

  /** The operation a request asks for. Broker and callback identify the sender to the shard
      and play no part in what it does. */
  function OpOf(t: Ticket, r: Request, broker: nat, callback: nat): Op {
    match r
    case TryLockReq(k, ty, first) => TryLockOp(t, broker, k, ty, first, callback)
    case PrepareReq(update) => PrepareOp(t, update)
    case CommitReq => CommitOp(t)
    case RollbackReq => RollbackOp(t)
    case FinishReq => FinishOp(t)
  }

  /** `op` is what the first request on the link of `t` asks for. */
  predicate IsNext(op: Op, t: Ticket, link: Link) {
    && link.reqs != []
    && op == OpOf(t, link.reqs[0], if op.TryLockOp? then op.broker else 0, if op.TryLockOp? then op.callback else 0)
  }

  function ResponseOf(a: Answer): Response {
    match a
    case Granted(_, _, k, v) => LockValue(k, v)
    case Refused(_, _, k, code, _) => LockError(k, code)
  }

  /** The responses to lock requests of `t`, in some order. */
  ghost predicate AnswersTo(answers: set<Answer>, t: Ticket, more: seq<Response>) {
    && (forall r :: r in more ==> exists a :: a in answers && a.ticket == t && ResponseOf(a) == r)
    && (forall a :: a in answers && a.ticket == t ==> ResponseOf(a) in more)
  }

  /** Every callback is called once. */
  predicate NoRepeats(more: seq<Response>) { forall i, j :: 0 <= i < j < |more| ==> more[i] != more[j] }

  /** The response to the operation itself; a lock request is answered among the answers. */
  ghost predicate ReportOf(sh: Shard, op: Op, report: seq<Response>) {
    match op
    case TryLockOp(_, _, _, _, _, _) => report == []
    case PrepareOp(t, update) =>
      && |report| == 1 && report[0].PrepareDone?
      && (report[0].error.None? <==> PrepareRefusals(sh, t, update) == {})
      && (report[0].error.Some? ==> report[0].error.value in PrepareRefusals(sh, t, update))
    case CommitOp(t) => report == [CommitDone(CommitRefusal(sh, t))]
    case RollbackOp(t) => report == [RollbackDone(if t in sh.tickets then None else Some(UnknownTicket))]
    case FinishOp(t) => report == [FinishDone(FinishRefusal(sh, t))]
  }

  /** All keys of the shard, and all keys asked of it, belong to it. */
  ghost predicate AtHome(dir: Key -> ShardId, sh: Shard, s: ShardId) { forall k :: k in sh.elements ==> dir(k) == s }

  ghost predicate HomeReqs(dir: Key -> ShardId, reqs: seq<Request>, s: ShardId) {
    forall r :: r in reqs && r.TryLockReq? ==> dir(r.key) == s
  }

  lemma StepAtHome(dir: Key -> ShardId, sh: Shard, s: ShardId, op: Op)
    requires Inv(sh) && Enabled(sh, op) && AtHome(dir, sh, s) && (op.TryLockOp? ==> dir(op.key) == s)
    ensures AtHome(dir, Do(sh, op).shard, s)
  {
  }

  // ---- Tickets the step is not about ----

  /** Only a ticket with queued requests is answered. */
  lemma AnsweredWasBegun(sh: Shard, op: Op, a: Answer)
    requires Inv(sh) && Enabled(sh, op) && a in Do(sh, op).answers && a.ticket != op.ticket
    ensures Has(sh, a.ticket, Begun) && a.key in sh.elements
    ensures a.Granted? ==>
            Current(Do(sh, op).shard, a.ticket, a.key, a.value)
            && !Has(Do(sh, op).shard, a.ticket, Wounded)
  {
    if a.Granted? {
      GrantedFacts(sh, op, a);
    } else {
      AnswerOrigin(sh, op, a);
      RefusedFacts(sh, op, a);
    }
    assert a.ticket in LockOf(sh, a.key).queue;
    assert LockInv(sh, a.key);
  }

  lemma CurrentKept(sh: Shard, op: Op, t: Ticket, k: Key, v: Value)
    requires Inv(sh) && Enabled(sh, op) && Current(sh, t, k, v) && !Has(sh, t, Committed)
    requires op.ticket == t ==> !op.RollbackOp? && !(op.CommitOp? && Has(sh, t, Prepared))
    ensures Current(Do(sh, op).shard, t, k, v)
  {
    GivenStep(sh, op, t, k, v);
  }

  /** What a step leaves of another ticket. */
  ghost predicate Bystander(sh: Shard, r: Shard, t: Ticket) {
    && (t in r.tickets <==> t in sh.tickets)
    && (t in sh.tickets && !Has(sh, t, Begun) ==> r.tickets[t] == sh.tickets[t])
    && (Has(sh, t, Begun) ==> Has(r, t, Begun) || Has(r, t, Wounded))
  }

  lemma OthersAreBystanders(sh: Shard, op: Op, t: Ticket)
    requires Inv(sh) && Enabled(sh, op) && op.ticket != t
    ensures Bystander(sh, Do(sh, op).shard, t)
  {
    OthersRecords(sh, op, t);
  }

  /** What may be answered to another ticket. */
  ghost predicate FairAnswers(dir: Key -> ShardId, sh: Shard, r: Shard, t: Ticket, s: ShardId, more: seq<Response>) {
    && (more != [] ==> Has(sh, t, Begun))
    && (forall x :: x in more ==> x.LockValue? || x.LockError?)
    && (forall k, v :: LockValue(k, v) in more ==> dir(k) == s && Current(r, t, k, v))
  }

  lemma OthersAnswers(dir: Key -> ShardId, sh: Shard, op: Op, t: Ticket, s: ShardId, more: seq<Response>)
    requires Inv(sh) && Enabled(sh, op) && op.ticket != t && AtHome(dir, sh, s)
    requires AnswersTo(Do(sh, op).answers, t, more)
    ensures FairAnswers(dir, sh, Do(sh, op).shard, t, s, more)
  {
    hide Do;
    if more != [] {
      assert more[0] in more;
      var a :| a in Do(sh, op).answers && a.ticket == t && ResponseOf(a) == more[0];
      AnsweredWasBegun(sh, op, a);
    }
    forall k, v | LockValue(k, v) in more ensures dir(k) == s && Current(Do(sh, op).shard, t, k, v) {
      var a :| a in Do(sh, op).answers && a.ticket == t && ResponseOf(a) == LockValue(k, v);
      AnsweredWasBegun(sh, op, a);
    }
  }

  lemma ActiveBystander(dir: Key -> ShardId, c: Client, t: Ticket, s: ShardId, sh: Shard, link: Link, st: ShardState,
                        r: Shard, more: seq<Response>)
    requires Active(dir, c, t, s, sh, link, st) && Bystander(sh, r, t) && FairAnswers(dir, sh, r, t, s, more)
    requires forall k, v :: Current(sh, t, k, v) ==> Current(r, t, k, v)
    ensures Active(dir, c, t, s, r, link.(resps := link.resps + more), st)
  {
  }

  lemma UndoingBystander(dir: Key -> ShardId, t: Ticket, s: ShardId, sh: Shard, link: Link, r: Shard,
                         more: seq<Response>)
    requires Undoing(dir, t, s, sh, link) && Bystander(sh, r, t) && FairAnswers(dir, sh, r, t, s, more)
    ensures Undoing(dir, t, s, r, link.(resps := link.resps + more))
  {
    var resps := link.resps + more;
    assert forall j :: 0 <= j < |more| ==> more[j] in more;
    forall i | 0 <= i < |resps| && resps[i] == RollbackDone(None)
      ensures t !in r.tickets && AllRollbacks(link.reqs) && forall j :: i < j < |resps| ==> Echo(resps[j])
    {
      assert link.resps[i] == RollbackDone(None);
    }
  }

  lemma BystanderLink(dir: Key -> ShardId, b: Option<TicketState>, c: Client, t: Ticket, s: ShardId, sh: Shard,
                      link: Link, r: Shard, more: seq<Response>)
    requires LinkInv(dir, b, c, t, s, sh, link) && Bystander(sh, r, t) && FairAnswers(dir, sh, r, t, s, more)
    requires !Has(sh, t, Committed) ==> forall k, v :: Current(sh, t, k, v) ==> Current(r, t, k, v)
    ensures LinkInv(dir, b, c, t, s, r, link.(resps := link.resps + more))
  {
    assert more == [] ==> link.resps + more == link.resps;
    if b.Some? && s in b.value.shards && b.value.phase.InProgress? && !b.value.shards[s].phase.RolledBack? {
      if b.value.shards[s].phase.RollingBack? {
        UndoingBystander(dir, t, s, sh, link, r, more);
      } else {
        ActiveBystander(dir, c, t, s, sh, link, b.value.shards[s], r, more);
      }
    }
  }

  /** A step about one ticket keeps the relation on the links of all others. */
  lemma ServeOther(dir: Key -> ShardId, b: Option<TicketState>, c: Client, t: Ticket, s: ShardId, sh: Shard,
                   link: Link, op: Op, more: seq<Response>)
    requires LinkInv(dir, b, c, t, s, sh, link) && Inv(sh) && AtHome(dir, sh, s)
    requires Enabled(sh, op) && op.ticket != t && AnswersTo(Do(sh, op).answers, t, more)
    ensures LinkInv(dir, b, c, t, s, Do(sh, op).shard, link.(resps := link.resps + more))
  {
    hide Do, LinkInv, Inv;
    var r := Do(sh, op).shard;
    OthersAreBystanders(sh, op, t);
    OthersAnswers(dir, sh, op, t, s, more);
    if !Has(sh, t, Committed) {
      forall k, v | Current(sh, t, k, v) ensures Current(r, t, k, v) {
        CurrentKept(sh, op, t, k, v);
      }
    }
    BystanderLink(dir, b, c, t, s, sh, link, r, more);
  }

  // ---- The ticket the step is about ----

  /** The link after the shard handled its first request. */
  function Served(link: Link, more: seq<Response>): Link
    requires link.reqs != []
  {
    Link(link.reqs[1..], link.resps + more)
  }

  lemma ServedRequests(link: Link)
    requires link.reqs != []
    ensures link.reqs[0] in link.reqs
    ensures forall r :: r in link.reqs[1..] ==> r in link.reqs
    ensures forall r :: r in link.reqs ==> r == link.reqs[0] || r in link.reqs[1..]
  {
    assert link.reqs == [link.reqs[0]] + link.reqs[1..];
  }

  /** What a lock request does to its own ticket. */
  lemma OwnLock(sh: Shard, op: Op, more: seq<Response>)
    requires Inv(sh) && Enabled(sh, op) && op.TryLockOp? && AnswersTo(Do(sh, op).answers, op.ticket, more)
    ensures var r := Do(sh, op).shard;
            && (op.ticket in sh.tickets ==>
                  op.ticket in r.tickets && r.tickets[op.ticket].phase == sh.tickets[op.ticket].phase
                                            && r.tickets[op.ticket].update == sh.tickets[op.ticket].update)
            && (op.ticket !in sh.tickets ==> if op.first then Has(r, op.ticket, Begun) else op.ticket !in r.tickets)
            && (forall x :: x in more ==> x.LockValue? || x.LockError?)
            && (!Has(r, op.ticket, Begun) ==> NoGrants(more))
  {
    forall x | x in more ensures x.LockValue? ==> Has(Do(sh, op).shard, op.ticket, Begun) {
      var a :| a in Do(sh, op).answers && a.ticket == op.ticket && ResponseOf(a) == x;
      if a.Granted? { GrantedFacts(sh, op, a); }
    }
  }

  lemma OwnLockValues(dir: Key -> ShardId, sh: Shard, op: Op, s: ShardId, more: seq<Response>)
    requires Inv(sh) && Enabled(sh, op) && op.TryLockOp? && AtHome(dir, sh, s) && dir(op.key) == s
    requires AnswersTo(Do(sh, op).answers, op.ticket, more)
    ensures forall k, v :: LockValue(k, v) in more ==> dir(k) == s && Current(Do(sh, op).shard, op.ticket, k, v)
  {
    hide Do;
    forall k, v | LockValue(k, v) in more ensures dir(k) == s && Current(Do(sh, op).shard, op.ticket, k, v) {
      var a :| a in Do(sh, op).answers && a.ticket == op.ticket && ResponseOf(a) == LockValue(k, v);
      GrantedFacts(sh, op, a);
      assert a.key == op.key || a.key in sh.elements;
    }
  }

  lemma CurrentAfterOwn(sh: Shard, op: Op)
    requires Inv(sh) && Enabled(sh, op) && !Has(sh, op.ticket, Committed) && (op.TryLockOp? || op.PrepareOp?)
    ensures forall k, v :: Current(sh, op.ticket, k, v) ==> Current(Do(sh, op).shard, op.ticket, k, v)
  {
    hide Do;
    forall k, v | Current(sh, op.ticket, k, v) ensures Current(Do(sh, op).shard, op.ticket, k, v) {
      CurrentKept(sh, op, op.ticket, k, v);
    }
  }

  lemma ServedValues(dir: Key -> ShardId, c: Client, t: Ticket, s: ShardId, sh: Shard, r: Shard, link: Link,
                     st: ShardState, more: seq<Response>)
    requires link.reqs != [] && ValuesCurrent(dir, c, t, s, sh, link, st)
    requires forall k, v :: Current(sh, t, k, v) ==> Current(r, t, k, v)
    requires forall k, v :: LockValue(k, v) in more ==> dir(k) == s && Current(r, t, k, v)
    ensures ValuesCurrent(dir, c, t, s, r, Served(link, more), st)
  {
    hide Current;
  }

  lemma ServedPrepares(dir: Key -> ShardId, c: Client, t: Ticket, s: ShardId, sh: Shard, r: Shard, link: Link,
                       more: seq<Response>)
    requires link.reqs != [] && PreparesMatch(dir, c, t, s, sh, link)
    requires Has(r, t, Prepared) ==> Has(sh, t, Prepared) && r.tickets[t].update == sh.tickets[t].update
    ensures PreparesMatch(dir, c, t, s, r, Served(link, more))
  {
    ServedRequests(link);
  }

  lemma ServedGrants(link: Link, more: seq<Response>)
    requires link.reqs != [] && GrantsFirst(link.resps) && PrepareDone(None) !in more
    requires PrepareDone(None) in link.resps ==> NoGrants(more)
    ensures GrantsFirst(Served(link, more).resps)
  {
    assert forall j :: |link.resps| <= j < |link.resps| + |more| ==> (link.resps + more)[j] in more;
  }

  /** An active link after a lock request. */
  lemma ActiveLock(dir: Key -> ShardId, c: Client, t: Ticket, s: ShardId, sh: Shard, link: Link, st: ShardState,
                   op: Op, more: seq<Response>)
    requires Active(dir, c, t, s, sh, link, st) && Inv(sh) && AtHome(dir, sh, s) && HomeReqs(dir, link.reqs, s)
    requires link.reqs != [] && op.TryLockOp? && link.reqs[0] == TryLockReq(op.key, op.lockType, op.first)
             && op.ticket == t
    requires Enabled(sh, op) ==> AnswersTo(Do(sh, op).answers, t, more)
    ensures Enabled(sh, op) && Active(dir, c, t, s, Do(sh, op).shard, Served(link, more), st)
  {
    ServedRequests(link);
    OwnLock(sh, op, more);
    OwnLockValues(dir, sh, op, s, more);
    CurrentAfterOwn(sh, op);
    hide Do, Inv, Current;
    var r := Do(sh, op).shard;
    ServedValues(dir, c, t, s, sh, r, link, st, more);
    ServedPrepares(dir, c, t, s, sh, r, link, more);
    ServedGrants(link, more);
    hide ValuesCurrent, PreparesMatch, GrantsFirst, AnswersTo;
    LiveLink(t, sh, r, link);
  }

  lemma LiveLink(t: Ticket, sh: Shard, r: Shard, link: Link)
    requires link.reqs != [] && link.reqs[0].TryLockReq? && t in r.tickets
    ensures LiveAfter(t in r.tickets, link.reqs[1..]) == LiveAfter(t in sh.tickets, link.reqs)
  {
  }

  lemma ActivePrepare(dir: Key -> ShardId, c: Client, t: Ticket, s: ShardId, sh: Shard, link: Link, st: ShardState,
                      update: map<Key, Value>, report: seq<Response>)
    requires Active(dir, c, t, s, sh, link, st) && Inv(sh)
    requires link.reqs != [] && link.reqs[0] == PrepareReq(update) && ReportOf(sh, PrepareOp(t, update), report)
    ensures Active(dir, c, t, s, Prepare(sh, t, update), Served(link, report), st)
  {
    ServedRequests(link);
    CurrentAfterOwn(sh, PrepareOp(t, update));
  }

  /** A link that is being rolled back, after a request other than the rollback that takes effect. */
  lemma UndoingRequest(dir: Key -> ShardId, t: Ticket, s: ShardId, sh: Shard, link: Link, r: Shard, more: seq<Response>)
    requires Undoing(dir, t, s, sh, link) && link.reqs != [] && (link.reqs[0].TryLockReq? || link.reqs[0].PrepareReq?)
    requires t in r.tickets <==> t in sh.tickets || (link.reqs[0].TryLockReq? && link.reqs[0].first)
    requires !Has(r, t, Committed) && forall x :: x in more ==> x.LockValue? || x.LockError? || x.PrepareDone?
    requires forall k, v :: LockValue(k, v) in more ==> dir(k) == s
    ensures Undoing(dir, t, s, r, Served(link, more))
  {
    ServedRequests(link);
    assert !AllRollbacks(link.reqs);
    assert forall i :: 0 <= i < |link.resps| ==> link.resps[i] != RollbackDone(None);
    assert forall j :: 0 <= j < |more| ==> more[j] in more;
  }

  lemma UndoingRollback(dir: Key -> ShardId, t: Ticket, s: ShardId, sh: Shard, link: Link, r: Shard,
                        more: seq<Response>)
    requires Undoing(dir, t, s, sh, link) && link.reqs != [] && link.reqs[0].RollbackReq? && t !in r.tickets
    requires forall x :: x in more ==> x.LockError? && t in sh.tickets
    ensures Undoing(dir, t, s, r,
            Served(link, more + [RollbackDone(if t in sh.tickets then None else Some(UnknownTicket))]))
  {
    ServedRequests(link);
    var last := RollbackDone(if t in sh.tickets then None else Some(UnknownTicket));
    var resps := link.resps + (more + [last]);
    assert forall j :: 0 <= j < |more| ==> more[j] in more;
    if t in sh.tickets {
      RollbacksBackward(false, link.reqs[1..]);
    }
    forall i | 0 <= i < |resps| && resps[i] == RollbackDone(None)
      ensures AllRollbacks(link.reqs[1..]) && forall j :: i < j < |resps| ==> Echo(resps[j])
    {
      if i < |link.resps| {
        assert link.resps[i] == RollbackDone(None);
      }
    }
  }

  lemma WithdrawnLocks(sh: Shard, t: Ticket, more: seq<Response>)
    requires Inv(sh) && AnswersTo(ShardSpec.Rollback(sh, t).answers, t, more)
    ensures forall x :: x in more ==> x.LockError? && t in sh.tickets
  {
    forall x | x in more ensures x.LockError? && t in sh.tickets {
      var a :| a in ShardSpec.Rollback(sh, t).answers && a.ticket == t && ResponseOf(a) == x;
      if a.Granted? {
        GrantedFacts(sh, RollbackOp(t), a);
      }
    }
  }

  lemma NoOwnAnswers(sh: Shard, op: Op, more: seq<Response>)
    requires Inv(sh) && Enabled(sh, op) && (op.PrepareOp? || op.CommitOp? || op.FinishOp?)
             && AnswersTo(Do(sh, op).answers, op.ticket, more)
    ensures more == []
  {
    if more != [] {
      assert more[0] in more;
      var a :| a in Do(sh, op).answers && a.ticket == op.ticket && ResponseOf(a) == more[0];
      AnswerOrigin(sh, op, a);
      if a.Granted? { GrantedFacts(sh, op, a); } else { RefusedFacts(sh, op, a); }
    }
  }

  /** Requests that reach a shard after the decision change nothing but by the commit. */
  lemma DecidingRequest(dir: Key -> ShardId, c: Client, t: Ticket, s: ShardId, sh: Shard, link: Link, st: ShardState,
                        op: Op, more: seq<Response>, report: seq<Response>)
    requires Deciding(dir, c, t, s, sh, link, st) && Inv(sh) && IsNext(op, t, link)
    requires Enabled(sh, op) ==> AnswersTo(Do(sh, op).answers, t, more) && ReportOf(sh, op, report)
    ensures Enabled(sh, op) && Deciding(dir, c, t, s, Do(sh, op).shard, Served(link, more + report), st)
  {
    ServedRequests(link);
    if op.TryLockOp? {
      OwnLock(sh, op, more);
    } else {
      NoOwnAnswers(sh, op, more);
    }
  }

  lemma LateRequest(t: Ticket, sh: Shard, op: Op, more: seq<Response>)
    requires op.ticket == t && Inv(sh) && !(op.TryLockOp? && op.first) && !op.RollbackOp?
    requires t in sh.tickets ==> Has(sh, t, Committed)
    requires AnswersTo(Do(sh, op).answers, t, more)
    ensures NoGrants(more) && RollbackDone(None) !in more && FinishDone(None) !in more
    ensures if op.FinishOp? then t !in Do(sh, op).shard.tickets else Do(sh, op).shard == sh
  {
    if op.TryLockOp? {
      OwnLock(sh, op, more);
    } else {
      NoOwnAnswers(sh, op, more);
    }
  }

  lemma EndingRequest(t: Ticket, sh: Shard, link: Link, st: ShardState, op: Op, more: seq<Response>,
                      report: seq<Response>)
    requires Ending(t, sh, link, st) && Inv(sh) && IsNext(op, t, link)
    requires Enabled(sh, op) ==> AnswersTo(Do(sh, op).answers, t, more) && ReportOf(sh, op, report)
    ensures Enabled(sh, op) && Ending(t, Do(sh, op).shard, Served(link, more + report), st)
  {
    ServedRequests(link);
    LateRequest(t, sh, op, more);
  }

  lemma OverRequest(t: Ticket, sh: Shard, link: Link, op: Op, more: seq<Response>, report: seq<Response>)
    requires Over(t, sh, link) && Inv(sh) && IsNext(op, t, link)
    ensures Enabled(sh, op) && Over(t, Do(sh, op).shard, Served(link, more + report))
  {
    ServedRequests(link);
  }

  lemma IdleRequest(t: Ticket, sh: Shard, link: Link, op: Op, more: seq<Response>, report: seq<Response>)
    requires Idle(t, sh, link) && Inv(sh) && link.reqs != [] && op.RollbackOp? && op.ticket == t
    requires AnswersTo(Do(sh, op).answers, t, more) && ReportOf(sh, op, report)
    ensures Idle(t, Do(sh, op).shard, Served(link, more + report))
  {
    ServedRequests(link);
    WithdrawnLocks(sh, t, more);
  }

  lemma UndoingServe(dir: Key -> ShardId, t: Ticket, s: ShardId, sh: Shard, link: Link, op: Op, more: seq<Response>,
                     report: seq<Response>)
    requires Undoing(dir, t, s, sh, link) && Inv(sh) && AtHome(dir, sh, s) && HomeReqs(dir, link.reqs, s)
             && IsNext(op, t, link)
    requires Enabled(sh, op) ==> AnswersTo(Do(sh, op).answers, t, more) && ReportOf(sh, op, report)
    ensures Enabled(sh, op) && Undoing(dir, t, s, Do(sh, op).shard, Served(link, more + report))
  {
    ServedRequests(link);
    var r := Do(sh, op).shard;
    if op.TryLockOp? {
      OwnLock(sh, op, more);
      OwnLockValues(dir, sh, op, s, more);
      assert more + report == more;
      UndoingRequest(dir, t, s, sh, link, r, more);
    } else if op.PrepareOp? {
      NoOwnAnswers(sh, op, more);
      assert more + report == report;
      UndoingRequest(dir, t, s, sh, link, r, report);
    } else {
      assert op.RollbackOp?;
      WithdrawnLocks(sh, t, more);
      UndoingRollback(dir, t, s, sh, link, r, more);
    }
  }

  lemma ActiveServe(dir: Key -> ShardId, c: Client, t: Ticket, s: ShardId, sh: Shard, link: Link, st: ShardState,
                    op: Op, more: seq<Response>, report: seq<Response>)
    requires Active(dir, c, t, s, sh, link, st) && Inv(sh) && AtHome(dir, sh, s) && HomeReqs(dir, link.reqs, s)
             && IsNext(op, t, link)
    requires Enabled(sh, op) ==> AnswersTo(Do(sh, op).answers, t, more) && ReportOf(sh, op, report)
    ensures Enabled(sh, op) && Active(dir, c, t, s, Do(sh, op).shard, Served(link, more + report), st)
  {
    if op.TryLockOp? {
      assert Enabled(sh, op) ==> more + report == more;
      ActiveLock(dir, c, t, s, sh, link, st, op, more);
    } else if op.PrepareOp? {
      NoOwnAnswers(sh, op, more);
      assert more + report == report;
      ActivePrepare(dir, c, t, s, sh, link, st, op.update, report);
    } else {
      ActiveEcho(dir, c, t, s, sh, link, st, op, more, report);
    }
  }

  lemma ActiveEcho(dir: Key -> ShardId, c: Client, t: Ticket, s: ShardId, sh: Shard, link: Link, st: ShardState,
                   op: Op, more: seq<Response>, report: seq<Response>)
    requires Active(dir, c, t, s, sh, link, st) && Inv(sh) && link.reqs != []
    requires op == OpOf(t, link.reqs[0], 0, 0) && !op.TryLockOp? && !op.PrepareOp?
    requires AnswersTo(Do(sh, op).answers, t, more) && ReportOf(sh, op, report)
    ensures Active(dir, c, t, s, Do(sh, op).shard, Served(link, more + report), st)
  {
    ServedRequests(link);
    assert op.RollbackOp? && t !in sh.tickets;
    WithdrawnLocks(sh, t, more);
  }

  /** The request at the head of a link never ends the shard's process, and handling it keeps
      the relation on its link. */
  lemma ServeOwn(dir: Key -> ShardId, b: Option<TicketState>, c: Client, t: Ticket, s: ShardId, sh: Shard, link: Link,
                 op: Op, more: seq<Response>, report: seq<Response>)
    requires LinkInv(dir, b, c, t, s, sh, link) && Inv(sh) && AtHome(dir, sh, s) && HomeReqs(dir, link.reqs, s)
             && IsNext(op, t, link)
    requires Enabled(sh, op) ==> AnswersTo(Do(sh, op).answers, t, more) && ReportOf(sh, op, report)
    ensures Enabled(sh, op) && LinkInv(dir, b, c, t, s, Do(sh, op).shard, Served(link, more + report))
  {
    ServedRequests(link);
    if b.None? {
      OverRequest(t, sh, link, op, more, report);
    } else if s !in b.value.shards || b.value.shards[s].phase.RolledBack? {
      IdleRequest(t, sh, link, op, more, report);
    } else {
      hide Idle, Active, Undoing, Deciding, Ending, Do, Enabled, AnswersTo, ReportOf, Inv;
      var st := b.value.shards[s];
      match b.value.phase
      case InProgress =>
        if st.phase.RollingBack? {
          UndoingServe(dir, t, s, sh, link, op, more, report);
        } else {
          ActiveServe(dir, c, t, s, sh, link, st, op, more, report);
        }
      case AllPrepared => DecidingRequest(dir, c, t, s, sh, link, st, op, more, report);
      case AllCommitted => EndingRequest(t, sh, link, st, op, more, report);
    }
  }
}
