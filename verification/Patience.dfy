/** Two demands on clients under which tickets never wait in a circle, over however many shards: ask
    for no lock once a commit was accepted, and do not ask to commit while a lock is unanswered. A
    client can check both: it knows what it asked for and what was answered. */
module Patience {
  import opened Basics
  import opened LockTable
  import opened ShardSpec
  import opened ShardSteps
  import opened BrokerSpec
  import opened Links
  import opened BrokerLinks
  import opened ShardLinks
  import opened Systems
  import opened SystemRuns
  import opened Progress
  import opened SystemWaiting
  import W = ShardWaiting

  // ---- Lock requests that are not answered yet ----

  predicate AsksFor(r: Request, k: Key) { r.TryLockReq? && r.key == k }

  predicate IsAnswer(r: Response, k: Key) { (r.LockValue? || r.LockError?) && r.key == k }

  function One(b: bool): nat { if b then 1 else 0 }

  function Requested(reqs: seq<Request>, k: Key): nat {
    if reqs == [] then 0 else One(AsksFor(reqs[0], k)) + Requested(reqs[1..], k)
  }

  function Answered(resps: seq<Response>, k: Key): nat {
    if resps == [] then 0 else One(IsAnswer(resps[0], k)) + Answered(resps[1..], k)
  }

  predicate QueuedFor(sys: System, t: Ticket, s: ShardId, k: Key) {
    s < |sys.shards| && t in LockOf(sys.shards[s], k).queue
  }

  /** How many requests of `t` for `k` are on their way, in a queue, or answered on the way back. */
  function Load(dir: Key -> ShardId, sys: System, t: Ticket, k: Key): nat {
    var link := LinkOf(sys, t, dir(k));
    Requested(link.reqs, k) + Answered(link.resps, k) + One(QueuedFor(sys, t, dir(k), k))
  }

  lemma {:induction false} RequestedMore(a: seq<Request>, b: seq<Request>, k: Key)
    ensures Requested(a + b, k) == Requested(a, k) + Requested(b, k)
  {
    if a == [] {
      assert a + b == b;
    } else {
      assert (a + b)[1..] == a[1..] + b;
      RequestedMore(a[1..], b, k);
    }
  }

  lemma {:induction false} AnsweredMore(a: seq<Response>, b: seq<Response>, k: Key)
    ensures Answered(a + b, k) == Answered(a, k) + Answered(b, k)
  {
    if a == [] {
      assert a + b == b;
    } else {
      assert (a + b)[1..] == a[1..] + b;
      AnsweredMore(a[1..], b, k);
    }
  }

  lemma {:induction false} NoneRequested(reqs: seq<Request>, k: Key)
    requires forall r :: r in reqs ==> !AsksFor(r, k)
    ensures Requested(reqs, k) == 0
  {
    if reqs != [] { NoneRequested(reqs[1..], k); }
  }

  lemma {:induction false} NoneAnswered(resps: seq<Response>, k: Key)
    requires forall r :: r in resps ==> !IsAnswer(r, k)
    ensures Answered(resps, k) == 0
  {
    if resps != [] { NoneAnswered(resps[1..], k); }
  }

  // ---- A shard answers each request once ----

  /** One step has at most one answer to a ticket about a key. */
  lemma OneAnswer(sh: Shard, op: Op, a: Answer, b: Answer)
    requires Inv(sh) && Enabled(sh, op) && a in Do(sh, op).answers && b in Do(sh, op).answers
    requires a.ticket == b.ticket && a.key == b.key
    ensures a == b
  {
    hide Relock, Inv;
  }

  lemma {:induction false} AtMostOne(answers: set<Answer>, t: Ticket, more: seq<Response>, k: Key)
    requires forall r :: r in more ==> exists a :: a in answers && a.ticket == t && ResponseOf(a) == r
    requires forall a, b :: a in answers && b in answers && a.ticket == b.ticket && a.key == b.key ==> a == b
    requires NoRepeats(more)
    ensures Answered(more, k) <= One(exists a :: a in answers && a.ticket == t && a.key == k)
  {
    if more != [] {
      var rest := more[1..];
      assert forall r :: r in rest ==> r in more;
      AtMostOne(answers, t, rest, k);
      assert more[0] in more;
      var a :| a in answers && a.ticket == t && ResponseOf(a) == more[0];
      if IsAnswer(more[0], k) {
        forall r | r in rest ensures !IsAnswer(r, k) {
          var i :| 0 <= i < |rest| && rest[i] == r;
          assert more[i + 1] == r;
          var b :| b in answers && b.ticket == t && ResponseOf(b) == r;
        }
        NoneAnswered(rest, k);
      }
    }
  }

  /** The answers and the queue after a step: no more than the queue before it and the request it
      brings. */
  lemma ServedLoad(sh: Shard, op: Op, t: Ticket, k: Key, more: seq<Response>)
    requires Inv(sh) && Enabled(sh, op) && AnswersTo(Do(sh, op).answers, t, more) && NoRepeats(more)
    ensures Answered(more, k) + One(t in LockOf(Do(sh, op).shard, k).queue)
            <= One(t in LockOf(sh, k).queue) + One(op.TryLockOp? && op.ticket == t && op.key == k)
  {
    var answers := Do(sh, op).answers;
    forall a, b | a in answers && b in answers && a.ticket == b.ticket && a.key == b.key ensures a == b {
      OneAnswer(sh, op, a, b);
    }
    AtMostOne(answers, t, more, k);
    QueueStep(sh, op, t, k);
    hide Do, Inv;
    if a :| a in answers && a.ticket == t && a.key == k { AnswerLeaves(sh, op, a); }
  }

  lemma AnswerLeaves(sh: Shard, op: Op, a: Answer)
    requires Inv(sh) && Enabled(sh, op) && a in Do(sh, op).answers
    ensures var own := op.TryLockOp? && op.ticket == a.ticket && op.key == a.key;
            || (own && Do(sh, op).shard == sh)
            || (a.ticket !in LockOf(Do(sh, op).shard, a.key).queue && (own || a.ticket in LockOf(sh, a.key).queue))
  {
    AnswerOrigin(sh, op, a);
    StepIsRelock(sh, op);
    hide Relock, RelockAnswers, Inv;
  }

  lemma QueueStep(sh: Shard, op: Op, t: Ticket, k: Key)
    requires Inv(sh) && Enabled(sh, op)
    ensures t in LockOf(Do(sh, op).shard, k).queue ==>
            t in LockOf(sh, k).queue || (op.TryLockOp? && op.ticket == t && op.key == k)
  {
    StepIsRelock(sh, op);
    var e, losers := Staged(sh, op), Losers(sh, op);
    if k in e {
      StagedReady(sh, op, k);
      RelockFacts(e, losers, k, PreparedTickets(sh) + losers);
    }
    hide Relock, RelockAnswers, Inv;
  }

  // ---- What an event does to them ----

  /** `e` opens a request: a shard is asked for `k` on behalf of `t`. */
  predicate Opens(dir: Key -> ShardId, sys: System, e: Event, t: Ticket, k: Key) {
    e.AskLock? && e.ticket == t && e.key == k && t in sys.tickets
    && BrokerSpec.TryLock(sys.tickets[t], dir(k), k, e.lockType).reply.NoReply?
  }

  /** `e` closes one: the client of `t` is told what became of a request for `k`. */
  predicate Closes(sys: System, e: Event, t: Ticket, k: Key) {
    e.AtBroker? && e.ticket == t && t in sys.tickets && LinkOf(sys, t, e.shard).resps != []
    && IsAnswer(LinkOf(sys, t, e.shard).resps[0], k)
  }

  /** A new attempt begins: the ticket was rolled back, and asks for a lock again. */
  predicate Restarts(sys: System, e: Event, t: Ticket) {
    e.AskLock? && e.ticket == t && t in sys.tickets && sys.tickets[t].phase.Aborted?
  }

  lemma SentLoad(link: Link, sends: map<ShardId, Request>, s: ShardId, k: Key)
    ensures Requested(Sent(link, sends, s).reqs, k)
            == Requested(link.reqs, k) + One(s in sends && AsksFor(sends[s], k))
    ensures Sent(link, sends, s).resps == link.resps
  {
    if s in sends { RequestedMore(link.reqs, [sends[s]], k); }
  }

  /** Only a lock request that gets no reply at once goes to a shard. */
  lemma LockSends(b: TicketState, s: ShardId, k: Key, ty: LockType)
    ensures var step := BrokerSpec.TryLock(b, s, k, ty);
            forall s', k' :: s' in step.sends && AsksFor(step.sends[s'], k') ==>
              s' == s && k' == k && step.reply.NoReply?
  {
  }

  ghost predicate AsksNothing(step: Step) { forall s :: s in step.sends ==> !step.sends[s].TryLockReq? }

  lemma OthersAskNothing(b: TicketState, update: map<Key, Value>, reports: map<ShardId, Phase>, s: ShardId, r: Response)
    ensures AsksNothing(BrokerSpec.Commit(b, update)) && AsksNothing(BrokerSpec.Rollback(b))
            && AsksNothing(BrokerSpec.Finish(b))
    ensures AsksNothing(BrokerSpec.Recover(reports)) && AsksNothing(Handle(b, s, r))
  {
    hide BrokerSpec.Waiting, KeysOf;
  }

  /** The step of a broker, and its own link before it. */
  lemma BrokeredLoad(dir: Key -> ShardId, u: System, t: Ticket, step: Step, c: Client, k: Key)
    ensures Load(dir, Brokered(u, t, step, c), t, k)
            == Load(dir, u, t, k) + One(dir(k) in step.sends && AsksFor(step.sends[dir(k)], k))
  {
    hide Brokered;
    BrokeredFrame(u, t, step, c);
    BrokeredLinks(u, t, step, c, t, dir(k));
    SentLoad(LinkOf(u, t, dir(k)), step.sends, dir(k), k);
  }

  lemma UnreadLoad(dir: Key -> ShardId, sys: System, t: Ticket, s: ShardId, k: Key)
    requires LinkOf(sys, t, s).resps != []
    ensures Load(dir, Unread(sys, t, s), t, k)
            + One(s == dir(k) && IsAnswer(LinkOf(sys, t, s).resps[0], k)) == Load(dir, sys, t, k)
  {
  }

  lemma UnlinkedLoad(dir: Key -> ShardId, sys: System, r: System, t: Ticket, k: Key)
    requires r.shards == sys.shards && LinkOf(r, t, dir(k)) == IDLE
    ensures Load(dir, r, t, k) <= Load(dir, sys, t, k)
  {
  }

  // ---- Answers come from the shard of their key ----

  ghost predicate HomeResps(dir: Key -> ShardId, resps: seq<Response>, s: ShardId) {
    forall r :: r in resps && (r.LockValue? || r.LockError?) ==> dir(r.key) == s
  }

  ghost predicate AllHome(dir: Key -> ShardId, sys: System) {
    forall t, s :: HomeResps(dir, LinkOf(sys, t, s).resps, s)
  }

  lemma AnswersHome(dir: Key -> ShardId, sh: Shard, s: ShardId, op: Op, t: Ticket, more: seq<Response>)
    requires Inv(sh) && Enabled(sh, op) && AtHome(dir, sh, s) && (op.TryLockOp? ==> dir(op.key) == s)
    requires AnswersTo(Do(sh, op).answers, t, more)
    ensures HomeResps(dir, more, s)
  {
    StepAtHome(dir, sh, s, op);
    StepIsRelock(sh, op);
    hide Inv, Do, RelockAnswers;
    forall r | r in more && (r.LockValue? || r.LockError?) ensures dir(r.key) == s {
      var a :| a in Do(sh, op).answers && a.ticket == t && ResponseOf(a) == r;
      AnswerOrigin(sh, op, a);
    }
  }

  lemma ReportHome(dir: Key -> ShardId, sh: Shard, op: Op, report: seq<Response>, s: ShardId, k: Key)
    requires ReportOf(sh, op, report)
    ensures HomeResps(dir, report, s) && Answered(report, k) == 0
  {
    NoneAnswered(report, k);
  }

  lemma ServedHome(dir: Key -> ShardId, init: map<Key, Value>, sys: System, e: Event)
    requires Sound(dir, init, sys) && Possible(sys, e) && e.AtShard? && AllHome(dir, sys)
    ensures AllHome(dir, After(dir, sys, e))
  {
    var sh, op := sys.shards[e.shard], EventOp(sys, e);
    assert ShardOk(dir, sys, e.shard) && CellOk(dir, sys, e.ticket, e.shard);
    ServedRequests(LinkOf(sys, e.ticket, e.shard));
    ReportHome(dir, sh, op, e.report, e.shard, EMPTY);
    assert op.TryLockOp? ==> dir(op.key) == e.shard;
    hide Sound, Inv, Do, ReportOf, AnswersTo;
    forall t, s ensures HomeResps(dir, LinkOf(After(dir, sys, e), t, s).resps, s) {
      ShardedLinks(sys, e, t, s);
      assert HomeResps(dir, LinkOf(sys, t, s).resps, s);
      AnswersHome(dir, sh, e.shard, op, t, AnswersFor(e.answers, t));
    }
  }

  lemma RespsShrink(dir: Key -> ShardId, sys: System, e: Event, t: Ticket, s: ShardId)
    requires Possible(sys, e) && !e.AtShard?
    ensures forall r :: r in LinkOf(After(dir, sys, e), t, s).resps ==> r in LinkOf(sys, t, s).resps
  {
    hide Handle, BrokerSpec.TryLock, BrokerSpec.Commit, BrokerSpec.Rollback, BrokerSpec.Finish, BrokerSpec.Recover,
      Reported, Calm, MayCommit, Idled, WithoutTicket;
  }

  lemma EventHome(dir: Key -> ShardId, init: map<Key, Value>, sys: System, e: Event)
    requires Sound(dir, init, sys) && Possible(sys, e) && AllHome(dir, sys)
    ensures AllHome(dir, After(dir, sys, e))
  {
    hide Sound, Possible, After;
    if e.AtShard? {
      ServedHome(dir, init, sys, e);
    } else {
      forall t, s ensures HomeResps(dir, LinkOf(After(dir, sys, e), t, s).resps, s) {
        RespsShrink(dir, sys, e, t, s);
        assert HomeResps(dir, LinkOf(sys, t, s).resps, s);
      }
    }
  }

  /** Requests under way grow only when a lock is asked for, and fall when an answer is told. */
  lemma OwnLoad(dir: Key -> ShardId, sys: System, e: Event, k: Key)
    requires AllHome(dir, sys) && Possible(sys, e) && !e.AtShard?
    ensures var t := e.ticket;
            Load(dir, After(dir, sys, e), t, k) + One(Closes(sys, e, t, k)) <= Load(dir, sys, t,
              k) + One(Opens(dir, sys, e, t, k))
  {
    var t := e.ticket;
    assert Closes(sys, e, t, k) ==> e.shard == dir(k) by {
      if Closes(sys, e, t, k) { assert HomeResps(dir, LinkOf(sys, t, e.shard).resps, e.shard); }
    }
    hide AllHome, Brokered, BrokerSpec.TryLock, BrokerSpec.Commit, BrokerSpec.Rollback, BrokerSpec.Finish,
      BrokerSpec.Recover,
      Handle, Load, AsksFor, Reported, Calm, MayCommit, Idled, WithoutTicket;
    match e
    case AskLock(_, j, ty) =>
      var b, step := sys.tickets[t], BrokerSpec.TryLock(sys.tickets[t], dir(j), j, ty);
      LockSends(b, dir(j), j, ty);
      BrokeredLoad(dir, sys, t, step, Told(ClientOfLock(b, ClientAt(sys, t)), j, step.reply), k);
    case AskCommit(_, update) =>
      OthersAskNothing(sys.tickets[t], update, map[], 0, PrepareDone(None));
      BrokeredLoad(dir, sys, t, BrokerSpec.Commit(sys.tickets[t], update),
        ClientOfCommit(sys.tickets[t], ClientAt(sys, t), update), k);
    case AskRollback(_) =>
      OthersAskNothing(sys.tickets[t], map[], map[], 0, PrepareDone(None));
      BrokeredLoad(dir, sys, t, BrokerSpec.Rollback(sys.tickets[t]), ClientAt(sys, t), k);
    case AskFinish(_) =>
      OthersAskNothing(sys.tickets[t], map[], map[], 0, PrepareDone(None));
      BrokeredLoad(dir, sys, t, BrokerSpec.Finish(sys.tickets[t]), ClientAt(sys, t), k);
    case AtBroker(_, s) =>
      UnreadLoad(dir, sys, t, s, k);
      if t in sys.tickets {
        var r := LinkOf(sys, t, s).resps[0];
        OthersAskNothing(sys.tickets[t], map[], map[], s, r);
        var step := Receive(sys.tickets[t], s, LinkOf(sys, t, s));
        BrokeredLoad(dir, Unread(sys, t, s), t, step, ClientOfResponse(ClientAt(sys, t), r, step.reply), k);
      }
    case TakeUp(_, reports) =>
      var u := Unlinked(sys, t).(lost := sys.lost - {t});
      OthersAskNothing(NEW_STATE, map[], reports, 0, PrepareDone(None));
      UnlinkedLoad(dir, sys, u, t, k);
      BrokeredLoad(dir, u, t, BrokerSpec.Recover(reports), ClientAt(sys, t), k);
    case Crash(_) => UnlinkedLoad(dir, sys, After(dir, sys, e), t, k);
    case Begin(_) => SameLoad(dir, sys, After(dir, sys, e), t, k);
  }

  lemma SameLoad(dir: Key -> ShardId, sys: System, r: System, t: Ticket, k: Key)
    requires r.shards == sys.shards && LinkOf(r, t, dir(k)) == LinkOf(sys, t, dir(k))
    ensures Load(dir, r, t, k) == Load(dir, sys, t, k)
  {
  }

  lemma ServedLinkLoad(link: Link, more: seq<Response>, report: seq<Response>, k: Key)
    ensures Answered(link.resps + more, k) == Answered(link.resps, k) + Answered(more, k)
    ensures link.reqs != [] ==> Requested(link.reqs, k) == One(AsksFor(link.reqs[0], k)) + Requested(link.reqs[1..], k)
    ensures Answered(link.resps + (more + report), k)
            == Answered(link.resps, k) + Answered(more, k) + Answered(report, k)
  {
    AnsweredMore(more, report, k);
    AnsweredMore(link.resps, more + report, k);
    AnsweredMore(link.resps, more, k);
  }

  lemma ShardLoad(dir: Key -> ShardId, init: map<Key, Value>, sys: System, e: Event, t: Ticket, k: Key)
    requires Sound(dir, init, sys) && Possible(sys, e) && e.AtShard?
    ensures Load(dir, After(dir, sys, e), t, k) <= Load(dir, sys, t, k)
  {
    hide Inv, Do, ReportOf, AnswersTo, Sharded, Answered, Requested, NoRepeats;
    var s, sh, op, more := e.shard, sys.shards[e.shard], EventOp(sys, e), AnswersFor(e.answers, t);
    assert ShardOk(dir, sys, s) && AnswersTo(Do(sh, op).answers, t, more);
    hide Sound;
    ShardedLinks(sys, e, t, dir(k));
    ShardedFrame(sys, e);
    ServedLoad(sh, op, t, k, more);
    ReportHome(dir, sh, op, e.report, s, k);
    ServedLinkLoad(LinkOf(sys, t, s), more, e.report, k);
  }

  lemma OthersLoad(dir: Key -> ShardId, sys: System, e: Event, t: Ticket, k: Key)
    requires Possible(sys, e) && !e.AtShard? && t != e.ticket
    ensures Load(dir, After(dir, sys, e), t, k) == Load(dir, sys, t, k)
  {
    hide Brokered, WithoutTicket, Idled, Load;
    if e.Begin? || e.Crash? || (e.AtBroker? && e.ticket !in sys.tickets) {
      SameLoad(dir, sys, After(dir, sys, e), t, k);
    } else {
      hide After, Possible;
      var u, step, c := AsBrokered(dir, sys, e);
      BrokeredFrame(u, e.ticket, step, c);
      BrokeredLinks(u, e.ticket, step, c, t, dir(k));
      SameLoad(dir, sys, After(dir, sys, e), t, k);
    }
  }

  /** Requests under way grow only when a lock is asked for, and fall when an answer is told. */
  lemma LoadStep(dir: Key -> ShardId, init: map<Key, Value>, sys: System, e: Event, t: Ticket, k: Key)
    requires Sound(dir, init, sys) && AllHome(dir, sys) && Possible(sys, e)
    ensures Load(dir, After(dir, sys, e), t, k) + One(Closes(sys, e, t, k))
            <= Load(dir, sys, t, k) + One(Opens(dir, sys, e, t, k))
  {
    hide Sound, AllHome, Possible, After, Load;
    if e.AtShard? {
      ShardLoad(dir, init, sys, e, t, k);
    } else if t != e.ticket {
      OthersLoad(dir, sys, e, t, k);
    } else {
      OwnLoad(dir, sys, e, k);
    }
  }

  // ---- Prepared tickets ----

  /** The shard holds the ticket prepared, or is asked to prepare it. */
  predicate Preparing(sys: System, t: Ticket, s: ShardId) {
    s < |sys.shards| && (Has(sys.shards[s], t, Prepared) || exists r :: r in LinkOf(sys, t, s).reqs && r.PrepareReq?)
  }

  /** `e` is a commit that the broker passes on to shards. */
  predicate AsksCommit(sys: System, e: Event, t: Ticket) {
    e.AskCommit? && e.ticket == t && t in sys.tickets && sys.tickets[t].phase.InProgress?
  }

  ghost predicate PreparesNothing(step: Step) { forall s :: s in step.sends ==> !step.sends[s].PrepareReq? }

  lemma OthersPrepareNothing(b: TicketState, s: ShardId, k: Key, ty: LockType, update: map<Key, Value>,
                             reports: map<ShardId, Phase>, r: Response)
    ensures PreparesNothing(BrokerSpec.TryLock(b, s, k, ty)) && PreparesNothing(BrokerSpec.Rollback(b))
    ensures PreparesNothing(BrokerSpec.Finish(b)) && PreparesNothing(BrokerSpec.Recover(reports))
    ensures PreparesNothing(Handle(b, s, r)) && (!b.phase.InProgress? ==> PreparesNothing(BrokerSpec.Commit(b, update)))
  {
    hide BrokerSpec.Waiting, KeysOf;
  }

  lemma BrokeredPreparing(u: System, t: Ticket, step: Step, c: Client, s: ShardId)
    requires PreparesNothing(step) && Preparing(Brokered(u, t, step, c), t, s)
    ensures Preparing(u, t, s)
  {
    hide Brokered;
    BrokeredFrame(u, t, step, c);
    BrokeredLinks(u, t, step, c, t, s);
  }

  lemma FewerPreparing(sys: System, r: System, t: Ticket, s: ShardId)
    requires r.shards == sys.shards && (LinkOf(r, t, s).reqs == LinkOf(sys, t, s).reqs || LinkOf(r, t, s).reqs == [])
    ensures Preparing(r, t, s) ==> Preparing(sys, t, s)
  {
  }

  lemma OwnPreparing(dir: Key -> ShardId, sys: System, e: Event, s: ShardId)
    requires Possible(sys, e) && !e.AtShard? && Preparing(After(dir, sys, e), e.ticket, s)
    ensures Preparing(sys, e.ticket, s) || AsksCommit(sys, e, e.ticket)
  {
    hide Brokered, BrokerSpec.TryLock, BrokerSpec.Commit, BrokerSpec.Rollback, BrokerSpec.Finish, BrokerSpec.Recover,
      Handle, Preparing, Reported, Calm, MayCommit, Idled, WithoutTicket;
    var t := e.ticket;
    var b := if t in sys.tickets then sys.tickets[t] else NEW_STATE;
    match e
    case AskLock(_, j, ty) =>
      var step := BrokerSpec.TryLock(b, dir(j), j, ty);
      OthersPrepareNothing(b, dir(j), j, ty, map[], map[], PrepareDone(None));
      BrokeredPreparing(sys, t, step, Told(ClientOfLock(b, ClientAt(sys, t)), j, step.reply), s);
    case AskCommit(_, update) =>
      if !b.phase.InProgress? {
        OthersPrepareNothing(b, 0, EMPTY, Read, update, map[], PrepareDone(None));
        BrokeredPreparing(sys, t, BrokerSpec.Commit(b, update), ClientOfCommit(b, ClientAt(sys, t), update), s);
      }
    case AskRollback(_) =>
      OthersPrepareNothing(b, 0, EMPTY, Read, map[], map[], PrepareDone(None));
      BrokeredPreparing(sys, t, BrokerSpec.Rollback(b), ClientAt(sys, t), s);
    case AskFinish(_) =>
      OthersPrepareNothing(b, 0, EMPTY, Read, map[], map[], PrepareDone(None));
      BrokeredPreparing(sys, t, BrokerSpec.Finish(b), ClientAt(sys, t), s);
    case AtBroker(_, s0) =>
      var m := Unread(sys, t, s0);
      FewerPreparing(sys, m, t, s);
      if t in sys.tickets {
        var r := LinkOf(sys, t, s0).resps[0];
        OthersPrepareNothing(b, s0, EMPTY, Read, map[], map[], r);
        var step := Receive(b, s0, LinkOf(sys, t, s0));
        BrokeredPreparing(m, t, step, ClientOfResponse(ClientAt(sys, t), r, step.reply), s);
      }
    case TakeUp(_, reports) =>
      var u := Unlinked(sys, t).(lost := sys.lost - {t});
      FewerPreparing(sys, u, t, s);
      OthersPrepareNothing(b, 0, EMPTY, Read, map[], reports, PrepareDone(None));
      BrokeredPreparing(u, t, BrokerSpec.Recover(reports), ClientAt(sys, t), s);
    case Crash(_) => FewerPreparing(sys, After(dir, sys, e), t, s);
    case Begin(_) => FewerPreparing(sys, After(dir, sys, e), t, s);
  }

  lemma ShardPreparing(dir: Key -> ShardId, init: map<Key, Value>, sys: System, e: Event, t: Ticket, s: ShardId)
    requires Sound(dir, init, sys) && Possible(sys, e) && e.AtShard? && Preparing(After(dir, sys, e), t, s)
    ensures Preparing(sys, t, s)
  {
    hide Inv, Do, ReportOf, AnswersTo, Sharded;
    var sh, op := sys.shards[e.shard], EventOp(sys, e);
    assert ShardOk(dir, sys, e.shard);
    hide Sound;
    ShardedLinks(sys, e, t, s);
    ShardedFrame(sys, e);
    ServedRequests(LinkOf(sys, e.ticket, e.shard));
    if t != e.ticket {
      OthersAreBystanders(sh, op, t);
    } else {
      OwnPrepares(sh, op);
    }
  }

  lemma OwnPrepares(sh: Shard, op: Op)
    requires Enabled(sh, op)
    ensures Has(Do(sh, op).shard, op.ticket, Prepared) ==> Has(sh, op.ticket, Prepared) || op.PrepareOp?
  {
  }

  lemma OthersPreparing(dir: Key -> ShardId, sys: System, e: Event, t: Ticket, s: ShardId)
    requires Possible(sys, e) && !e.AtShard? && t != e.ticket && Preparing(After(dir, sys, e), t, s)
    ensures Preparing(sys, t, s)
  {
    hide Brokered, WithoutTicket, Idled, Preparing;
    if e.Begin? || e.Crash? || (e.AtBroker? && e.ticket !in sys.tickets) {
      FewerPreparing(sys, After(dir, sys, e), t, s);
    } else {
      hide After, Possible;
      var u, step, c := AsBrokered(dir, sys, e);
      BrokeredFrame(u, e.ticket, step, c);
      BrokeredLinks(u, e.ticket, step, c, t, s);
      FewerPreparing(sys, After(dir, sys, e), t, s);
    }
  }

  /** A ticket comes to be prepared only through a commit. */
  lemma PreparingStep(dir: Key -> ShardId, init: map<Key, Value>, sys: System, e: Event, t: Ticket, s: ShardId)
    requires Sound(dir, init, sys) && Possible(sys, e) && Preparing(After(dir, sys, e), t, s)
    ensures Preparing(sys, t, s) || AsksCommit(sys, e, t)
  {
    hide Sound, Possible, After, Preparing;
    if e.AtShard? {
      ShardPreparing(dir, init, sys, e, t, s);
    } else if t != e.ticket {
      OthersPreparing(dir, sys, e, t, s);
    } else {
      OwnPreparing(dir, sys, e, s);
    }
  }

  // ---- A ticket that asks for a lock in time ----

  /** No commit of this attempt was accepted yet. */
  predicate InTime(sys: System, t: Ticket) {
    t in sys.tickets && sys.tickets[t].phase.InProgress? ==> ClientAt(sys, t).update.None?
  }

  lemma InTimeLink(dir: Key -> ShardId, b: TicketState, c: Client, t: Ticket, s: ShardId, sh: Shard, link: Link)
    requires LinkInv(dir, Some(b), c, t, s, sh, link) && (b.phase.Aborted? ==> AllIn(b, RolledBack))
    requires b.phase.Aborted? || (b.phase.InProgress? && Calm(b) && c.update.None?)
    ensures !Has(sh, t, Prepared) && forall r :: r in link.reqs ==> !r.PrepareReq?
  {
  }

  /** It is not prepared anywhere. */
  lemma InTimeIsUnprepared(dir: Key -> ShardId, init: map<Key, Value>, sys: System, e: Event, k: Key, s: ShardId)
    requires Sound(dir, init, sys) && Possible(sys, e) && e.AskLock? && InTime(sys, e.ticket)
    requires Opens(dir, sys, e, e.ticket, k)
    ensures !Preparing(sys, e.ticket, s)
  {
    var t := e.ticket;
    assert CellOk(dir, sys, t, s);
    hide Sound, LinkInv;
    var b := sys.tickets[t];
    if s < |sys.shards| && (b.phase.Aborted? || b.phase.InProgress?) {
      InTimeLink(dir, b, ClientAt(sys, t), t, s, sys.shards[s], LinkOf(sys, t, s));
    }
  }

  /** A ticket that was rolled back has nothing under way but answers to repeated rollbacks. */
  lemma AbortedIsUnloaded(dir: Key -> ShardId, init: map<Key, Value>, sys: System, t: Ticket, k: Key)
    requires Sound(dir, init, sys) && t in sys.tickets && sys.tickets[t].phase.Aborted?
    ensures Load(dir, sys, t, k) == 0
  {
    var s, link := dir(k), LinkOf(sys, t, dir(k));
    assert CellOk(dir, sys, t, s) && ShardOk(dir, sys, s);
    assert Idle(t, sys.shards[s], link);
    assert t !in LockOf(sys.shards[s], k).queue by {
      if k in sys.shards[s].elements { assert LockInv(sys.shards[s], k); }
    }
    hide Sound;
    NoneRequested(link.reqs, k);
    NoneAnswered(link.resps, k);
  }

  // ---- Runs ----

  /** No request for a lock is open for a ticket that is prepared somewhere, or asked to be. */
  ghost predicate Resolved(dir: Key -> ShardId, sys: System) {
    forall t, s, k :: Preparing(sys, t, s) ==> Load(dir, sys, t, k) == 0
  }

  lemma ResolvedStep(dir: Key -> ShardId, init: map<Key, Value>, sys: System, e: Event)
    requires Sound(dir, init, sys) && AllHome(dir, sys) && Possible(sys, e) && Resolved(dir, sys)
    requires e.AskLock? ==> InTime(sys, e.ticket)
    requires AsksCommit(sys, e, e.ticket) ==> forall k :: Load(dir, sys, e.ticket, k) == 0
    ensures Resolved(dir, After(dir, sys, e))
  {
    hide Sound, AllHome, Possible, After, Load, Preparing, InTime;
    forall t, s, k | Preparing(After(dir, sys, e), t, s) ensures Load(dir, After(dir, sys, e), t, k) == 0 {
      LoadStep(dir, init, sys, e, t, k);
      PreparingStep(dir, init, sys, e, t, s);
      if Opens(dir, sys, e, t, k) { InTimeIsUnprepared(dir, init, sys, e, k, s); }
    }
  }

  /** A client's count of its open requests for a key, after one more event. It starts afresh with
      each attempt. */
  function Count(dir: Key -> ShardId, sys: System, e: Event, t: Ticket, k: Key, before: nat): nat {
    var open := if Restarts(sys, e, t) then 0 else before;
    if Opens(dir, sys, e, t, k) then open + 1
    else if Closes(sys, e, t, k) && open > 0 then open - 1
    else open
  }

  ghost predicate WellShaped(h: History) { |h.states| == |h.events| + 1 }

  /** How many requests of `t` for `k` its client has open after the first `n` events. */
  ghost function Open(dir: Key -> ShardId, h: History, n: nat, t: Ticket, k: Key): nat
    requires WellShaped(h) && n <= |h.events|
  {
    if n == 0 then 0 else Count(dir, h.states[n - 1], h.events[n - 1], t, k, Open(dir, h, n - 1, t, k))
  }

  ghost predicate NoneOpen(dir: Key -> ShardId, h: History, n: nat, t: Ticket)
    requires WellShaped(h) && n <= |h.events|
  {
    forall k :: Open(dir, h, n, t, k) == 0
  }

  // ---- Longer histories ----

  ghost predicate Extends(h: History, g: History) {
    WellShaped(h) && WellShaped(g) && h.states <= g.states && h.events <= g.events
  }

  lemma {:induction false} OpenOfPrefix(dir: Key -> ShardId, h: History, g: History, n: nat, t: Ticket, k: Key)
    requires Extends(h, g) && n <= |h.events|
    ensures Open(dir, g, n, t, k) == Open(dir, h, n, t, k)
  {
    hide Count;
    if n > 0 { OpenOfPrefix(dir, h, g, n - 1, t, k); }
  }

  /** Nothing is opened by events that ask for no lock. */
  lemma {:induction false} OpenFalls(dir: Key -> ShardId, g: History, n: nat, m: nat, t: Ticket, k: Key)
    requires WellShaped(g) && n <= m <= |g.events|
    requires forall i :: n <= i < m ==> !(g.events[i].AskLock? && g.events[i].ticket == t)
    ensures Open(dir, g, m, t, k) <= Open(dir, g, n, t, k)
    decreases m
  {
    if n < m {
      OpenFalls(dir, g, n, m - 1, t, k);
      assert !(g.events[m - 1].AskLock? && g.events[m - 1].ticket == t);
    }
  }

  /** Which of the two demands clients need not keep. */
  datatype Leave = Leave(lockLate: bool, commitEarly: bool)

  ghost predicate KeepsAt(dir: Key -> ShardId, h: History, n: nat, leave: Leave)
    requires WellShaped(h) && n < |h.events|
  {
    var sys, e := h.states[n], h.events[n];
    && (e.AskLock? && !leave.lockLate ==> InTime(sys, e.ticket))
    && (AsksCommit(sys, e, e.ticket) && !leave.commitEarly ==> NoneOpen(dir, h, n, e.ticket))
  }

  /** The clients of a run keep the demands. */
  ghost predicate Keeps(dir: Key -> ShardId, h: History, leave: Leave) {
    WellShaped(h) && forall n :: 0 <= n < |h.events| ==> KeepsAt(dir, h, n, leave)
  }

  lemma KeepsPrefix(dir: Key -> ShardId, h: History, g: History, n: nat, leave: Leave)
    requires Extends(h, g) && n < |h.events|
    ensures KeepsAt(dir, g, n, leave) <==> KeepsAt(dir, h, n, leave)
  {
    hide InTime, Open;
    var e := h.events[n];
    forall k ensures Open(dir, g, n, e.ticket, k) == Open(dir, h, n, e.ticket, k) {
      OpenOfPrefix(dir, h, g, n, e.ticket, k);
    }
  }

  lemma CountBounds(dir: Key -> ShardId, init: map<Key, Value>, sys: System, e: Event, t: Ticket, k: Key, before: nat)
    requires Sound(dir, init, sys) && AllHome(dir, sys) && Possible(sys, e) && Load(dir, sys, t, k) <= before
    ensures Load(dir, After(dir, sys, e), t, k) <= Count(dir, sys, e, t, k, before)
  {
    hide Sound, AllHome, Possible, After, Load;
    LoadStep(dir, init, sys, e, t, k);
    if Restarts(sys, e, t) { AbortedIsUnloaded(dir, init, sys, t, k); }
  }

  lemma InitialLoad(dir: Key -> ShardId, init: map<Key, Value>, sys: System, t: Ticket, k: Key)
    requires Initial(dir, init, sys)
    ensures Load(dir, sys, t, k) == 0 && AllHome(dir, sys)
  {
    var sh := sys.shards[dir(k)];
    assert Inv(sh) && sh.tickets == map[];
    assert t !in LockOf(sh, k).queue by {
      if k in sh.elements { assert LockInv(sh, k); }
    }
  }

  /** What is open at the shards is open for the client. */
  lemma {:induction false} OpenBounds(dir: Key -> ShardId, init: map<Key, Value>, h: History, n: nat, t: Ticket, k: Key)
    requires Lawful(dir, init, h) && n < |h.states|
    ensures AllHome(dir, h.states[n]) && Load(dir, h.states[n], t, k) <= Open(dir, h, n, t, k)
  {
    hide Possible, After, Initial, Sound, AllHome, Load;
    if n == 0 {
      InitialLoad(dir, init, h.states[0], t, k);
    } else {
      OpenBounds(dir, init, h, n - 1, t, k);
      ReachableSystem(dir, init, h, n - 1);
      assert Follows(dir, h.states[n - 1], h.events[n - 1], h.states[n]);
      EventHome(dir, init, h.states[n - 1], h.events[n - 1]);
      CountBounds(dir, init, h.states[n - 1], h.events[n - 1], t, k, Open(dir, h, n - 1, t, k));
    }
  }

  lemma InitialResolved(dir: Key -> ShardId, init: map<Key, Value>, sys: System)
    requires Initial(dir, init, sys)
    ensures Resolved(dir, sys)
  {
  }

  const STRICT := Leave(false, false)

  lemma {:induction false} PatientIsResolved(dir: Key -> ShardId, init: map<Key, Value>, h: History, n: nat)
    requires Lawful(dir, init, h) && n < |h.states| && Keeps(dir, h, STRICT)
    ensures Resolved(dir, h.states[n])
  {
    hide Possible, After, Initial, Sound, AllHome, Load, Resolved, InTime;
    if n == 0 {
      InitialResolved(dir, init, h.states[0]);
    } else {
      PatientIsResolved(dir, init, h, n - 1);
      ReachableSystem(dir, init, h, n - 1);
      var sys, e := h.states[n - 1], h.events[n - 1];
      assert Follows(dir, sys, e, h.states[n]) && KeepsAt(dir, h, n - 1, STRICT);
      OpenBounds(dir, init, h, n - 1, e.ticket, EMPTY);
      forall k ensures AsksCommit(sys, e, e.ticket) ==> Load(dir, sys, e.ticket, k) == 0 {
        OpenBounds(dir, init, h, n - 1, e.ticket, k);
      }
      ResolvedStep(dir, init, sys, e);
    }
  }

  /** Tickets that wait in a circle. */
  ghost predicate Circle(sys: System, p: seq<Ticket>) { WaitPath(sys, p) && |p| >= 2 && p[0] == p[|p| - 1] }

  lemma ResolvedIsApart(dir: Key -> ShardId, init: map<Key, Value>, sys: System, t: Ticket)
    requires Sound(dir, init, sys) && Resolved(dir, sys)
    ensures !Straddles(sys, t)
  {
    if Straddles(sys, t) {
      var s, s' :| 0 <= s < |sys.shards| && 0 <= s' < |sys.shards| && Has(sys.shards[s], t, Prepared)
        && W.Waiting(sys.shards[s'], t);
      assert ShardOk(dir, sys, s') && Preparing(sys, t, s);
      var k :| k in sys.shards[s'].elements && t in LockOf(sys.shards[s'], k).queue;
      QueuedIsOpen(dir, sys, t, k);
    }
  }

  lemma QueuedIsOpen(dir: Key -> ShardId, sys: System, t: Ticket, k: Key)
    requires QueuedFor(sys, t, dir(k), k)
    ensures Load(dir, sys, t, k) > 0
  {
  }

  /** Clients that keep both demands never get tickets to wait in a circle. */
  lemma PatientNeverDeadlock(dir: Key -> ShardId, init: map<Key, Value>, h: History, n: nat, p: seq<Ticket>)
    requires Lawful(dir, init, h) && n < |h.states| && Keeps(dir, h, STRICT)
    ensures !Circle(h.states[n], p)
  {
    hide Lawful, Keeps, Sound, Straddles, Resolved, WaitPath;
    if Circle(h.states[n], p) {
      DeadlockNeedsStraddling(dir, init, h, n, p);
      ReachableSystem(dir, init, h, n);
      PatientIsResolved(dir, init, h, n);
      forall t ensures !Straddles(h.states[n], t) { ResolvedIsApart(dir, init, h.states[n], t); }
    }
  }

  /** Nor do any clients when all keys are on one shard. */
  lemma OneShardNeverDeadlocks(dir: Key -> ShardId, init: map<Key, Value>, h: History, n: nat, p: seq<Ticket>)
    requires Lawful(dir, init, h) && n < |h.states| && forall k, k' :: dir(k) == dir(k')
    ensures !Circle(h.states[n], p)
  {
    hide Lawful;
    var sys := h.states[n];
    ReachableSystem(dir, init, h, n);
    if Circle(sys, p) {
      var s := dir(EMPTY);
      assert ShardOk(dir, sys, s);
      forall i | 0 <= i < |p| - 1 ensures W.WaitsFor(sys.shards[s], p[i], p[i + 1]) {
        assert WaitsFor(sys, p[i], p[i + 1]);
        WaitsAtHome(dir, init, sys, p[i], p[i + 1]);
      }
      hide Sound, WaitsFor;
      W.NoDeadlock(sys.shards[s], p);
    }
  }

  lemma WaitsAtHome(dir: Key -> ShardId, init: map<Key, Value>, sys: System, t: Ticket, u: Ticket)
    requires Sound(dir, init, sys) && WaitsFor(sys, t, u) && forall k, k' :: dir(k) == dir(k')
    ensures dir(EMPTY) < |sys.shards| && W.WaitsFor(sys.shards[dir(EMPTY)], t, u)
  {
    var s :| 0 <= s < |sys.shards| && W.WaitsFor(sys.shards[s], t, u);
    assert ShardOk(dir, sys, s);
    var k :| k in sys.shards[s].elements && W.WaitsAt(sys.shards[s], k, t, u);
  }
}
