/** Whatever a broker waits for can still arrive: from every reachable state a ticket can be
    brought to its end. The one exception is a rollback that lists a shard without locks. */
module Progress {
  import opened Basics
  import opened LockTable
  import opened ShardSpec
  import opened ShardSteps
  import opened BrokerSpec
  import opened Links
  import opened BrokerLinks
  import opened ShardLinks
  import opened Systems
  import opened Serializability
  import opened SystemRuns

  // ---- Requests can be served ----

  /** The elements of a set, in some order. */
  ghost function ListOf(s: set<Response>): (l: seq<Response>)
    ensures (forall r :: r in l <==> r in s) && NoRepeats(l)
  {
    if s == {} then [] else var r :| r in s; [r] + ListOf(s - {r})
  }

  ghost function ResponsesTo(answers: set<Answer>, t: Ticket): seq<Response> {
    ListOf(set a | a in answers && a.ticket == t :: ResponseOf(a))
  }

  lemma ResponsesAreAnswers(answers: set<Answer>, t: Ticket)
    ensures AnswersTo(answers, t, ResponsesTo(answers, t))
    ensures (forall a :: a in answers ==> a.ticket != t) ==> ResponsesTo(answers, t) == []
  {
    if forall a :: a in answers ==> a.ticket != t {
      assert (set a | a in answers && a.ticket == t :: ResponseOf(a)) == {};
    }
  }

  ghost function SomeReport(sh: Shard, op: Op): (report: seq<Response>)
    ensures ReportOf(sh, op, report)
  {
    match op
    case TryLockOp(_, _, _, _, _, _) => []
    case PrepareOp(t, update) =>
      var refusals := PrepareRefusals(sh, t, update);
      if refusals == {} then [PrepareDone(None)] else var code :| code in refusals; [PrepareDone(Some(code))]
    case CommitOp(t) => [CommitDone(CommitRefusal(sh, t))]
    case RollbackOp(t) => [RollbackDone(if t in sh.tickets then None else Some(UnknownTicket))]
    case FinishOp(t) => [FinishDone(FinishRefusal(sh, t))]
  }

  /** Every request under way can be served by its shard at once. */
  lemma RequestsAreServed(dir: Key -> ShardId, init: map<Key, Value>, sys: System, t: Ticket, s: ShardId)
    returns (e: Event)
    requires Sound(dir, init, sys) && s < |sys.shards| && LinkOf(sys, t, s).reqs != []
    ensures e.AtShard? && e.ticket == t && e.shard == s && e.broker == 0 && e.callback == 0 && Possible(sys, e)
  {
    hide AnswersTo, ReportOf, Do;
    var sh := sys.shards[s];
    e := AtShard(t, s, 0, 0, map[], []);
    RequestIsEnabled(dir, init, sys, e);
    hide Sound;
    var op := EventOp(sys, e);
    var answers := Do(sh, op).answers;
    e := AtShard(t, s, 0, 0, map a | a in answers :: a.ticket := ResponsesTo(answers, a.ticket), SomeReport(sh, op));
    assert EventOp(sys, e) == op;
    forall t' ensures AnswersTo(answers, t', AnswersFor(e.answers, t')) && NoRepeats(AnswersFor(e.answers, t')) {
      ResponsesAreAnswers(answers, t');
    }
  }

  // ---- What a broker waits for ----

  datatype Aim = Commits | Rollbacks | Finishes

  function Question(q: Aim): Request {
    match q
    case Commits => CommitReq
    case Rollbacks => RollbackReq
    case Finishes => FinishReq
  }

  function Confirmation(q: Aim): Response {
    match q
    case Commits => CommitDone(None)
    case Rollbacks => RollbackDone(None)
    case Finishes => FinishDone(None)
  }

  /** The phase of a ticket and of one of its shards while the broker waits, and once it need not. */
  function During(q: Aim): TicketPhase {
    match q
    case Commits => AllPrepared
    case Rollbacks => InProgress
    case Finishes => AllCommitted
  }

  function WaitPhase(q: Aim): ShardPhase {
    match q
    case Commits => Committing
    case Rollbacks => RollingBack
    case Finishes => Finishing
  }

  function Reached(q: Aim): ShardPhase {
    match q
    case Commits => AtCommitted
    case Rollbacks => RolledBack
    case Finishes => Finished
  }

  predicate Expects(b: TicketState, s: ShardId, q: Aim) {
    b.phase == During(q) && s in b.shards && b.shards[s].phase == WaitPhase(q)
  }

  /** Whether the shard would act on the question if it came next. */
  predicate Ready(sh: Shard, t: Ticket, q: Aim) {
    match q
    case Commits => Has(sh, t, Prepared)
    case Rollbacks => t in sh.tickets
    case Finishes => Has(sh, t, Committed)
  }

  predicate ReadyAfter(ready: bool, r: Request, q: Aim) { ready || (q.Rollbacks? && r.TryLockReq?) }

  /** How many requests are to be handled up to the one that the shard acts on; none if it acts on none. */
  function Ahead(q: Aim, ready: bool, reqs: seq<Request>): nat
    decreases reqs
  {
    if reqs == [] then 0
    else if reqs[0] == Question(q) && ready then 1
    else
      var n := Ahead(q, ReadyAfter(ready, reqs[0], q), reqs[1..]);
      if n == 0 then 0 else n + 1
  }

  function IndexOf(l: seq<Response>, r: Response): nat { if l == [] || l[0] == r then 0 else 1 + IndexOf(l[1..], r) }

  /** What the broker waits for is on its way. */
  predicate Due(q: Aim, t: Ticket, sh: Shard, link: Link) {
    Confirmation(q) in link.resps || Ahead(q, Ready(sh, t, q), link.reqs) > 0
  }

  lemma {:induction false} AheadOfQuestion(q: Aim, reqs: seq<Request>)
    requires Question(q) in reqs
    ensures Ahead(q, true, reqs) > 0
    decreases reqs
  {
    if reqs[0] != Question(q) {
      AheadOfQuestion(q, reqs[1..]);
    }
  }

  /** A decided commit is always on its way to every shard that the broker waits for. */
  lemma CommitIsDue(dir: Key -> ShardId, b: TicketState, c: Client, t: Ticket, s: ShardId, sh: Shard, link: Link)
    requires LinkInv(dir, Some(b), c, t, s, sh, link) && Expects(b, s, Commits)
    ensures Due(Commits, t, sh, link)
  {
    if Has(sh, t, Prepared) {
      AheadOfQuestion(Commits, link.reqs);
    }
  }

  lemma FinishIsDue(dir: Key -> ShardId, b: TicketState, c: Client, t: Ticket, s: ShardId, sh: Shard, link: Link)
    requires LinkInv(dir, Some(b), c, t, s, sh, link) && Expects(b, s, Finishes)
    ensures Due(Finishes, t, sh, link)
  {
    if t in sh.tickets {
      AheadOfQuestion(Finishes, link.reqs);
    }
  }

  // ---- A request is served ----

  lemma ServedReady(dir: Key -> ShardId, b: TicketState, c: Client, t: Ticket, s: ShardId, sh: Shard, link: Link,
                    q: Aim, op: Op)
    requires LinkInv(dir, Some(b), c, t, s, sh, link) && Inv(sh) && Expects(b, s, q)
    requires IsNext(op, t, link) && Enabled(sh, op)
    ensures !(link.reqs[0] == Question(q) && Ready(sh, t, q)) ==>
              Ready(Do(sh, op).shard, t, q) == ReadyAfter(Ready(sh, t, q), link.reqs[0], q)
  {
    hide Relock, RelockAnswers, Inv;
    assert link.reqs[0] in link.reqs;
  }

  lemma ServedConfirms(sh: Shard, t: Ticket, q: Aim, op: Op, report: seq<Response>)
    requires Ready(sh, t, q) && op == OpOf(t, Question(q), 0, 0) && ReportOf(sh, op, report)
    ensures Confirmation(q) in report
  {
  }

  /** What handling a request of `t` at `s` changes. */
  ghost predicate ServedAt(sys: System, r: System, t: Ticket, s: ShardId)
    requires LinkOf(sys, t, s).reqs != []
  {
    && r.tickets == sys.tickets && |r.shards| == |sys.shards| && Elsewhere(sys, r, t, s)
    && LinkOf(r, t, s).reqs == LinkOf(sys, t, s).reqs[1..] && LinkOf(sys, t, s).resps <= LinkOf(r, t, s).resps
  }

  /** The other shards and the links of `t` to them are as before. */
  ghost predicate Elsewhere(sys: System, r: System, t: Ticket, s: ShardId) {
    && |r.shards| == |sys.shards| && r.lost == sys.lost
    && forall s': ShardId :: s' != s ==>
         LinkOf(r, t, s') == LinkOf(sys, t, s')
         && (s' < |sys.shards| ==> r.shards[s'] == sys.shards[s'])
  }

  lemma ServeEffect(dir: Key -> ShardId, sys: System, e: Event)
    requires e.AtShard? && Possible(sys, e)
    ensures ServedAt(sys, After(dir, sys, e), e.ticket, e.shard)
    ensures forall x :: x in e.report ==> x in LinkOf(After(dir, sys, e), e.ticket, e.shard).resps
  {
    hide Do, AnswersTo, ReportOf;
    var t, s, r := e.ticket, e.shard, Sharded(sys, e);
    forall s': ShardId ensures s' != s ==> LinkOf(r, t, s') == LinkOf(sys, t, s') {
      ShardedLinks(sys, e, t, s');
    }
    ShardedLinks(sys, e, t, s);
    hide Sharded;
    assert LinkOf(r, t, s).resps == LinkOf(sys, t, s).resps + (AnswersFor(e.answers, t) + e.report);
  }

  lemma AnswersAreLocks(answers: set<Answer>, t: Ticket, more: seq<Response>)
    requires AnswersTo(answers, t, more)
    ensures forall x :: x in more ==> x.LockValue? || x.LockError?
  {
  }

  lemma UnconfirmedServe(dir: Key -> ShardId, sys: System, e: Event, q: Aim)
    requires e.AtShard? && Possible(sys, e) && Confirmation(q) !in LinkOf(sys, e.ticket, e.shard).resps
    requires !(LinkOf(sys, e.ticket, e.shard).reqs[0] == Question(q) && Ready(sys.shards[e.shard], e.ticket, q))
    ensures Confirmation(q) !in LinkOf(After(dir, sys, e), e.ticket, e.shard).resps
  {
    hide Do, AnswersTo, Sharded;
    var t, s := e.ticket, e.shard;
    ShardedLinks(sys, e, t, s);
    assert AnswersTo(Do(sys.shards[s], EventOp(sys, e)).answers, t, AnswersFor(e.answers, t));
    AnswersAreLocks(Do(sys.shards[s], EventOp(sys, e)).answers, t, AnswersFor(e.answers, t));
  }

  /** Handling a request brings what the broker waits for closer by one, or confirms it. */
  lemma ServeStep(dir: Key -> ShardId, init: map<Key, Value>, sys: System, e: Event, q: Aim)
    requires Sound(dir, init, sys) && e.AtShard? && Possible(sys, e)
    requires e.ticket in sys.tickets && Expects(sys.tickets[e.ticket], e.shard, q)
    ensures var t, s, r := e.ticket, e.shard, After(dir, sys, e);
            var reqs := LinkOf(sys, t, s).reqs;
            if reqs[0] == Question(q) && Ready(sys.shards[s], t, q) then Confirmation(q) in LinkOf(r, t, s).resps
            else Ready(r.shards[s], t, q) == ReadyAfter(Ready(sys.shards[s], t, q), reqs[0], q)
  {
    hide AnswersTo, Expects, Ready, LinkInv, ReadyAfter, Do, ReportOf;
    var t, s := e.ticket, e.shard;
    assert CellOk(dir, sys, t, s) && ShardOk(dir, sys, s);
    hide Wired, Inv;
    ServeEffect(dir, sys, e);
    ShardedFrame(sys, e);
    var link, sh, op := LinkOf(sys, t, s), sys.shards[s], EventOp(sys, e);
    ServedReady(dir, sys.tickets[t], ClientAt(sys, t), t, s, sh, link, q, op);
    if link.reqs[0] == Question(q) && Ready(sh, t, q) {
      ServedConfirms(sh, t, q, op, e.report);
    }
  }

  // ---- A response is handled ----

  /** The two records agree in everything but what they know about keys. */
  predicate SamePhases(b: TicketState, b': TicketState) {
    b'.phase == b.phase && b'.shards.Keys == b.shards.Keys && forall s :: s in b.shards ==>
      b'.shards[s].phase == b.shards[s].phase
  }

  lemma OtherResponse(dir: Key -> ShardId, b: TicketState, c: Client, t: Ticket, s: ShardId, sh: Shard, link: Link,
                      q: Aim)
    requires LinkInv(dir, Some(b), c, t, s, sh, link) && Expects(b, s, q) && link.resps != []
             && link.resps[0] != Confirmation(q)
    ensures var step := Receive(b, s, link);
            step.state.Some? && step.sends == map[] && SamePhases(b, step.state.value)
  {
    assert link.resps[0] in link.resps;
  }

  /** The record after the confirmation of one shard was handled. */
  ghost predicate Moved(b: TicketState, b': TicketState, s: ShardId, q: Aim) {
    && b'.shards.Keys == b.shards.Keys && s in b.shards && b'.shards[s].phase == Reached(q)
    && (forall s' :: s' in b.shards && s' != s ==> b'.shards[s'].phase == b.shards[s'].phase)
    && (if AllIn(b', Reached(q)) then !q.Finishes? && b'.phase == (if q.Commits? then AllCommitted else Aborted)
          else b'.phase == b.phase)
  }

  lemma ConfirmedResponse(b: TicketState, s: ShardId, q: Aim)
    requires Expects(b, s, q)
    ensures var step := Handle(b, s, Confirmation(q));
            && step.sends == map[]
            && if step.state.None? then q.Finishes? && forall s' :: s' in b.shards && s' != s ==>
                 b.shards[s'].phase == Finished
               else Moved(b, step.state.value, s, q)
  {
    SameShardState(b, s);
    var b' := SetPhase(b, s, Finished);
    forall s' | s' in b.shards && s' != s ensures AllIn(b', Finished) ==> b.shards[s'].phase == Finished {
      assert s' in b'.shards;
    }
  }

  /** What handling a response of shard `s` to `t` changes, if it sends nothing. */
  lemma ReceiveEffect(dir: Key -> ShardId, sys: System, t: Ticket, s: ShardId)
    requires Possible(sys, AtBroker(t, s)) && t in sys.tickets
             && Receive(sys.tickets[t], s, LinkOf(sys, t, s)).sends == map[]
    ensures var r, link := After(dir, sys, AtBroker(t, s)), LinkOf(sys, t, s);
            && Elsewhere(sys, r, t, s) && r.shards == sys.shards
            && RecordOf(r, t) == Receive(sys.tickets[t], s, link).state
            && LinkOf(r, t, s) == Link(link.reqs, link.resps[1..])
  {
    hide Handle;
    var link := LinkOf(sys, t, s);
    var step := Receive(sys.tickets[t], s, link);
    var u, c := Unread(sys, t, s), ClientOfResponse(ClientAt(sys, t), link.resps[0], step.reply);
    BrokeredFrame(u, t, step, c);
    forall s': ShardId ensures LinkOf(Brokered(u, t, step, c), t, s') == LinkOf(u, t, s') {
      BrokeredLinks(u, t, step, c, t, s');
    }
  }

  // ---- Continuations ----

  /** A continuation from some state: what follows what. */
  ghost predicate Steps(dir: Key -> ShardId, h: History) {
    |h.states| == |h.events| + 1 && forall n :: 0 <= n < |h.events| ==>
      Follows(dir, h.states[n], h.events[n], h.states[n + 1])
  }

  function Last(h: History): System
    requires h.states != []
  {
    h.states[|h.states| - 1]
  }

  /** `h` leads from `sys` to `r` by deliveries of messages of `t` alone. */
  ghost predicate Leads(dir: Key -> ShardId, sys: System, h: History, r: System, t: Ticket) {
    && Steps(dir, h) && h.states[0] == sys && Last(h) == r
    && forall n :: 0 <= n < |h.events| ==> Delivers(h.events[n], t)
  }

  predicate Delivers(e: Event, t: Ticket) { e.ticket == t && (e.AtShard? || e.AtBroker?) }

  function Join(g: History, h: History): History
    requires h.states != []
  {
    History(g.states + h.states[1..], g.events + h.events)
  }

  lemma JoinSteps(dir: Key -> ShardId, g: History, h: History)
    requires Steps(dir, g) && Steps(dir, h) && Last(g) == h.states[0]
    ensures Steps(dir, Join(g, h)) && Join(g, h).states[0] == g.states[0] && Last(Join(g, h)) == Last(h)
  {
    hide Follows;
    var j, m := Join(g, h), |g.events|;
    forall n | 0 <= n < |j.events| ensures Follows(dir, j.states[n], j.events[n], j.states[n + 1]) {
      if n < m {
        assert j.states[n] == g.states[n] && j.states[n + 1] == g.states[n + 1] && j.events[n] == g.events[n];
      } else {
        assert j.states[n] == h.states[n - m] && j.states[n + 1] == h.states[n - m + 1]
          && j.events[n] == h.events[n - m];
      }
    }
  }

  lemma JoinLeads(dir: Key -> ShardId, sys: System, g: History, m: System, h: History, r: System, t: Ticket)
    returns (j: History)
    requires Leads(dir, sys, g, m, t) && Leads(dir, m, h, r, t)
    ensures Leads(dir, sys, j, r, t)
  {
    hide Follows, Delivers;
    JoinSteps(dir, g, h);
    hide Steps;
    j := Join(g, h);
    forall n | 0 <= n < |j.events| ensures Delivers(j.events[n], t) {
      if n >= |g.events| { assert j.events[n] == h.events[n - |g.events|]; }
    }
  }

  lemma OneLeads(dir: Key -> ShardId, sys: System, e: Event, t: Ticket) returns (h: History)
    requires Possible(sys, e) && Delivers(e, t)
    ensures Leads(dir, sys, h, After(dir, sys, e), t)
  {
    hide Possible, After;
    h := History([sys, After(dir, sys, e)], [e]);
  }

  // ---- One shard confirms ----

  /** The requests behind the one that the shard acts on. */
  function Unserved(q: Aim, t: Ticket, sh: Shard, link: Link): seq<Request> {
    var n := if Confirmation(q) in link.resps then 0 else Ahead(q, Ready(sh, t, q), link.reqs);
    if n <= |link.reqs| then link.reqs[n..] else []
  }

  /** `t` waits at `s`, and what it waits for is on its way. */
  predicate Owed(sys: System, t: Ticket, s: ShardId, q: Aim) {
    t in sys.tickets && s < |sys.shards| && Expects(sys.tickets[t], s, q) && Due(q, t, sys.shards[s], LinkOf(sys, t, s))
  }

  /** What has become of `t` when shard `s` has confirmed. */
  ghost predicate Confirmed(sys: System, r: System, t: Ticket, s: ShardId, q: Aim)
    requires t in sys.tickets
  {
    && Elsewhere(sys, r, t, s)
    && if t in r.tickets then Moved(sys.tickets[t], r.tickets[t], s, q)
       else q.Finishes? && forall s' :: s' in sys.tickets[t].shards && s' != s ==>
         sys.tickets[t].shards[s'].phase == Finished
  }

  /** A request at the head of the link is served: the confirmation comes closer. */
  lemma ServeCloser(dir: Key -> ShardId, init: map<Key, Value>, sys: System, t: Ticket, s: ShardId, q: Aim)
    returns (e: Event)
    requires Sound(dir, init, sys) && Owed(sys, t, s, q) && Confirmation(q) !in LinkOf(sys, t, s).resps
    ensures e.AtShard? && e.ticket == t && e.shard == s && Possible(sys, e)
    ensures var r := After(dir, sys, e);
            && Sound(dir, init, r) && r.tickets == sys.tickets && Elsewhere(sys, r, t, s) && Owed(r, t, s, q)
            && (Confirmation(q) !in LinkOf(r, t, s).resps ==>
                  Ahead(q, Ready(r.shards[s], t, q), LinkOf(r, t, s).reqs) < Ahead(q, Ready(sys.shards[s], t, q),
                    LinkOf(sys, t, s).reqs))
            && Unserved(q, t, r.shards[s], LinkOf(r, t, s)) == Unserved(q, t, sys.shards[s], LinkOf(sys, t, s))
  {
    hide Possible, After, Sound, Expects, Ready;
    e := RequestsAreServed(dir, init, sys, t, s);
    ServeHead(sys, e);
    EventKeepsSound(dir, init, sys, e);
    ServeEffect(dir, sys, e);
    ServeStep(dir, init, sys, e, q);
    var link, link' := LinkOf(sys, t, s), LinkOf(After(dir, sys, e), t, s);
    if !(link.reqs[0] == Question(q) && Ready(sys.shards[s], t, q)) {
      UnconfirmedServe(dir, sys, e, q);
    }
    UnservedServed(q, t, sys.shards[s], link, After(dir, sys, e).shards[s], link');
  }

  lemma UnservedServed(q: Aim, t: Ticket, sh: Shard, link: Link, sh': Shard, link': Link)
    requires Confirmation(q) !in link.resps && link.reqs != [] && link'.reqs == link.reqs[1..]
    requires Ahead(q, Ready(sh, t, q), link.reqs) > 0
    requires if link.reqs[0] == Question(q) && Ready(sh, t, q) then Confirmation(q) in link'.resps
             else Confirmation(q) !in link'.resps && Ready(sh', t, q) == ReadyAfter(Ready(sh, t, q), link.reqs[0], q)
    ensures Unserved(q, t, sh', link') == Unserved(q, t, sh, link)
  {
    hide Ready;
  }

  lemma ServeHead(sys: System, e: Event)
    requires e.AtShard? && Possible(sys, e)
    ensures e.shard < |sys.shards| && LinkOf(sys, e.ticket, e.shard).reqs != []
  {
  }

  /** A response that is not the confirmation is handled: the confirmation moves up. */
  lemma ReceiveCloser(dir: Key -> ShardId, init: map<Key, Value>, sys: System, t: Ticket, s: ShardId, q: Aim)
    requires Sound(dir, init, sys) && Owed(sys, t, s, q)
    requires Confirmation(q) in LinkOf(sys, t, s).resps && LinkOf(sys, t, s).resps[0] != Confirmation(q)
    ensures var e := AtBroker(t, s);
            && Possible(sys, e)
            && var r := After(dir, sys, e);
               && Sound(dir, init, r) && Elsewhere(sys, r, t, s) && Owed(r, t, s, q)
                    && SamePhases(sys.tickets[t], r.tickets[t])
               && Confirmation(q) in LinkOf(r, t, s).resps
               && IndexOf(LinkOf(r, t, s).resps, Confirmation(q)) < IndexOf(LinkOf(sys, t, s).resps, Confirmation(q))
               && Unserved(q, t, r.shards[s], LinkOf(r, t, s)) == Unserved(q, t, sys.shards[s], LinkOf(sys, t, s))
  {
    hide After, Handle, Sound, Ahead, LinkInv, Receive;
    EventKeepsSound(dir, init, sys, AtBroker(t, s));
    ManagedLink(dir, init, sys, t, s);
    OtherResponse(dir, sys.tickets[t], ClientAt(sys, t), t, s, sys.shards[s], LinkOf(sys, t, s), q);
    ReceiveEffect(dir, sys, t, s);
  }

  lemma ManagedLink(dir: Key -> ShardId, init: map<Key, Value>, sys: System, t: Ticket, s: ShardId)
    requires Sound(dir, init, sys) && t in sys.tickets && s < |sys.shards|
    ensures LinkInv(dir, Some(sys.tickets[t]), ClientAt(sys, t), t, s, sys.shards[s], LinkOf(sys, t, s))
  {
    hide LinkInv;
    assert CellOk(dir, sys, t, s);
  }

  /** The confirmation itself is handled. */
  lemma ReceiveConfirmed(dir: Key -> ShardId, init: map<Key, Value>, sys: System, t: Ticket, s: ShardId, q: Aim)
    requires Sound(dir, init, sys) && Owed(sys, t, s, q)
    requires LinkOf(sys, t, s).resps != [] && LinkOf(sys, t, s).resps[0] == Confirmation(q)
    ensures var e := AtBroker(t, s);
            && Possible(sys, e)
            && var r := After(dir, sys, e);
                 Sound(dir, init, r) && Confirmed(sys, r, t, s, q)
                 && LinkOf(r, t, s).reqs == LinkOf(sys, t, s).reqs
  {
    hide After, Handle, SystemInv, Ahead;
    EventKeepsSound(dir, init, sys, AtBroker(t, s));
    ConfirmedResponse(sys.tickets[t], s, q);
    ReceiveEffect(dir, sys, t, s);
  }

  lemma UnservedAll(q: Aim, t: Ticket, sh: Shard, link: Link)
    ensures Confirmation(q) in link.resps ==> Unserved(q, t, sh, link) == link.reqs
  {
  }

  /** What the broker waits for at one shard can arrive, by deliveries of the ticket's own
      messages at that shard. */
  lemma {:induction false} ShardConfirms(dir: Key -> ShardId, init: map<Key, Value>, sys: System, t: Ticket,
                                         s: ShardId, q: Aim)
    returns (h: History, r: System)
    requires Sound(dir, init, sys) && Owed(sys, t, s, q)
    ensures Leads(dir, sys, h, r, t) && Sound(dir, init, r) && Confirmed(sys, r, t, s, q)
    ensures LinkOf(r, t, s).reqs == Unserved(q, t, sys.shards[s], LinkOf(sys, t, s))
    decreases if Confirmation(q) in LinkOf(sys, t, s).resps then 0
              else Ahead(q, Ready(sys.shards[s], t, q), LinkOf(sys, t, s).reqs),
              IndexOf(LinkOf(sys, t, s).resps, Confirmation(q))
  {
    hide Sound, Possible, After, Leads, Moved, Expects, Ready, Unserved;
    UnservedAll(q, t, sys.shards[s], LinkOf(sys, t, s));
    var resps := LinkOf(sys, t, s).resps;
    var e := AtBroker(t, s);
    if Confirmation(q) !in resps {
      e := ServeCloser(dir, init, sys, t, s, q);
    } else if resps[0] != Confirmation(q) {
      ReceiveCloser(dir, init, sys, t, s, q);
    } else {
      ReceiveConfirmed(dir, init, sys, t, s, q);
    }
    h := OneLeads(dir, sys, e, t);
    r := After(dir, sys, e);
    if resps == [] || resps[0] != Confirmation(q) {
      var m := r;
      var g;
      g, r := ShardConfirms(dir, init, m, t, s, q);
      h := JoinLeads(dir, sys, h, m, g, r, t);
      ConfirmedFrom(sys, m, r, t, s, q);
    }
  }

  lemma ConfirmedFrom(sys: System, m: System, r: System, t: Ticket, s: ShardId, q: Aim)
    requires t in sys.tickets && t in m.tickets && SamePhases(sys.tickets[t], m.tickets[t])
    requires Elsewhere(sys, m, t, s) && Confirmed(m, r, t, s, q)
    ensures Confirmed(sys, r, t, s, q)
  {
  }

  // ---- All shards confirm ----

  /** Every shard of `t` has confirmed or can still confirm. */
  ghost predicate AllOwed(sys: System, t: Ticket, q: Aim) {
    && t in sys.tickets && sys.tickets[t].phase == During(q)
    && forall s :: s in sys.tickets[t].shards ==>
         sys.tickets[t].shards[s].phase == Reached(q)
         || Owed(sys, t, s, q)
  }

  function WaitingAt(b: TicketState, q: Aim): set<ShardId> {
    set s | s in b.shards && b.shards[s].phase == WaitPhase(q)
  }

  /** The ticket has got where it was going. */
  predicate Arrived(sys: System, t: Ticket, q: Aim) {
    match q
    case Commits => t in sys.tickets && sys.tickets[t].phase.AllCommitted? && AllIn(sys.tickets[t], AtCommitted)
    case Rollbacks => t in sys.tickets && sys.tickets[t].phase.Aborted?
    case Finishes => t !in sys.tickets
  }

  lemma NextPending(sys: System, r: System, t: Ticket, s: ShardId, q: Aim)
    requires AllOwed(sys, t, q) && Owed(sys, t, s, q) && Confirmed(sys, r, t, s, q)
    ensures r.lost == sys.lost
    ensures Arrived(r, t, q)
            || (AllOwed(r, t, q) && !AllIn(r.tickets[t], Reached(q))
            && WaitingAt(r.tickets[t], q) == WaitingAt(sys.tickets[t], q) - {s})
  {
    hide Due;
    if t in r.tickets && !AllIn(r.tickets[t], Reached(q)) {
      forall s' | s' in r.tickets[t].shards ensures r.tickets[t].shards[s'].phase == Reached(q)
        || Owed(r, t, s', q) {
        if s' != s {
          assert sys.tickets[t].shards[s'].phase == Reached(q) || Owed(sys, t, s', q);
        }
      }
    }
  }

  /** The ticket can get where it is going, by deliveries of its own messages alone. */
  lemma {:induction false} AllConfirm(dir: Key -> ShardId, init: map<Key, Value>, sys: System, t: Ticket, q: Aim)
    returns (h: History, r: System)
    requires Sound(dir, init, sys) && AllOwed(sys, t, q) && !AllIn(sys.tickets[t], Reached(q))
    ensures Leads(dir, sys, h, r, t) && Sound(dir, init, r) && Arrived(r, t, q) && r.lost == sys.lost
    decreases |WaitingAt(sys.tickets[t], q)|
  {
    var s :| s in sys.tickets[t].shards && sys.tickets[t].shards[s].phase != Reached(q);
    hide Sound, Leads, Confirmed, Due;
    h, r := ShardConfirms(dir, init, sys, t, s, q);
    NextPending(sys, r, t, s, q);
    assert r.lost == sys.lost;
    assert s in WaitingAt(sys.tickets[t], q);
    if !Arrived(r, t, q) {
      hide AllOwed;
      var m := r;
      var g;
      g, r := AllConfirm(dir, init, m, t, q);
      h := JoinLeads(dir, sys, h, m, g, r, t);
    }
  }

  // ---- A ticket can be brought to its end ----

  /** `h` leads from `sys` to `r` by events about `t` alone. */
  ghost predicate Reaches(dir: Key -> ShardId, sys: System, h: History, r: System, t: Ticket) {
    Steps(dir, h) && h.states[0] == sys && Last(h) == r && forall n :: 0 <= n < |h.events| ==> h.events[n].ticket == t
  }

  lemma LeadsReaches(dir: Key -> ShardId, sys: System, h: History, r: System, t: Ticket)
    requires Leads(dir, sys, h, r, t)
    ensures Reaches(dir, sys, h, r, t)
  {
    hide Steps;
  }

  lemma JoinReaches(dir: Key -> ShardId, sys: System, g: History, m: System, h: History, r: System, t: Ticket)
    returns (j: History)
    requires Reaches(dir, sys, g, m, t) && Reaches(dir, m, h, r, t)
    ensures Reaches(dir, sys, j, r, t)
  {
    hide Follows;
    JoinSteps(dir, g, h);
    hide Steps;
    j := Join(g, h);
    forall n | 0 <= n < |j.events| ensures j.events[n].ticket == t {
      if n >= |g.events| { assert j.events[n] == h.events[n - |g.events|]; }
    }
  }

  lemma OneReaches(dir: Key -> ShardId, sys: System, e: Event) returns (h: History)
    requires Possible(sys, e)
    ensures Reaches(dir, sys, h, After(dir, sys, e), e.ticket)
  {
    hide Possible, After;
    h := History([sys, After(dir, sys, e)], [e]);
  }

  lemma CommitPending(dir: Key -> ShardId, init: map<Key, Value>, sys: System, t: Ticket)
    requires Sound(dir, init, sys) && t in sys.tickets && sys.tickets[t].phase.AllPrepared?
    ensures AllOwed(sys, t, Commits) && !AllIn(sys.tickets[t], AtCommitted)
  {
    var b := sys.tickets[t];
    assert CellOk(dir, sys, t, 0);
    forall s | s in b.shards ensures b.shards[s].phase == AtCommitted || Owed(sys, t, s, Commits) {
      if b.shards[s].phase.Committing? {
        assert CellOk(dir, sys, t, s);
        hide SystemInv, LinkInv, Due;
        CommitIsDue(dir, b, ClientAt(sys, t), t, s, sys.shards[s], LinkOf(sys, t, s));
      }
    }
  }

  /** A decided commit can always be completed by deliveries of the ticket's own messages. */
  lemma CommitCanComplete(dir: Key -> ShardId, init: map<Key, Value>, sys: System, t: Ticket)
    returns (h: History, r: System)
    requires Sound(dir, init, sys) && t in sys.tickets && sys.tickets[t].phase.AllPrepared?
    ensures Leads(dir, sys, h, r, t) && Sound(dir, init, r) && Arrived(r, t, Commits) && r.lost == sys.lost
  {
    hide Sound, Leads, AllOwed;
    CommitPending(dir, init, sys, t);
    h, r := AllConfirm(dir, init, sys, t, Commits);
  }

  lemma FinishPending(dir: Key -> ShardId, init: map<Key, Value>, sys: System, t: Ticket)
    requires Sound(dir, init, sys) && t in sys.tickets && sys.tickets[t].phase.AllCommitted?
    requires forall s :: s in sys.tickets[t].shards ==> !sys.tickets[t].shards[s].phase.AtCommitted?
    ensures AllOwed(sys, t, Finishes) && !AllIn(sys.tickets[t], Finished)
  {
    var b := sys.tickets[t];
    assert CellOk(dir, sys, t, 0);
    forall s | s in b.shards ensures b.shards[s].phase == Finished || Owed(sys, t, s, Finishes) {
      if b.shards[s].phase.Finishing? {
        assert CellOk(dir, sys, t, s);
        hide SystemInv, LinkInv, Due;
        FinishIsDue(dir, b, ClientAt(sys, t), t, s, sys.shards[s], LinkOf(sys, t, s));
      }
    }
  }

  lemma FinishAsked(dir: Key -> ShardId, sys: System, t: Ticket)
    requires t in sys.tickets
    ensures Possible(sys, AskFinish(t))
            && RecordOf(After(dir, sys, AskFinish(t)), t) == BrokerSpec.Finish(sys.tickets[t]).state
    ensures After(dir, sys, AskFinish(t)).lost == sys.lost
  {
    hide BrokerSpec.Finish;
  }

  /** A ticket that nobody manages and that is not lost is unknown to every shard. */
  lemma ForgottenIsGone(dir: Key -> ShardId, init: map<Key, Value>, sys: System, t: Ticket)
    requires Sound(dir, init, sys) && t !in sys.tickets && t !in sys.lost
    ensures Gone(sys, t)
  {
    forall s: ShardId | s < |sys.shards| ensures t !in sys.shards[s].tickets {
      assert CellOk(dir, sys, t, s);
    }
  }

  /** A ticket that is committed everywhere can be finished. */
  lemma FinishCanComplete(dir: Key -> ShardId, init: map<Key, Value>, sys: System, t: Ticket)
    returns (h: History, r: System)
    requires Sound(dir, init, sys) && t in sys.tickets && t !in sys.lost && sys.tickets[t].phase.AllCommitted?
    ensures Reaches(dir, sys, h, r, t) && Sound(dir, init, r) && Gone(r, t)
  {
    hide Sound, Leads, Reaches, AllOwed, Possible, After;
    FinishAsked(dir, sys, t);
    EventKeepsSound(dir, init, sys, AskFinish(t));
    h := OneReaches(dir, sys, AskFinish(t));
    var m := After(dir, sys, AskFinish(t));
    FinishPending(dir, init, m, t);
    var g;
    g, r := AllConfirm(dir, init, m, t, Finishes);
    LeadsReaches(dir, m, g, r, t);
    h := JoinReaches(dir, sys, h, m, g, r, t);
    ForgottenIsGone(dir, init, r, t);
  }

  lemma ManagedIsNotLost(dir: Key -> ShardId, init: map<Key, Value>, sys: System, t: Ticket)
    requires Sound(dir, init, sys) && t in sys.tickets
    ensures t !in sys.lost
  {
    assert CellOk(dir, sys, t, 0);
  }

  /** A decided or aborted ticket can be brought to its end. */
  lemma DecidedCanEnd(dir: Key -> ShardId, init: map<Key, Value>, sys: System, t: Ticket)
    returns (h: History, r: System)
    requires Sound(dir, init, sys) && t in sys.tickets && !sys.tickets[t].phase.InProgress?
    ensures Reaches(dir, sys, h, r, t) && Sound(dir, init, r) && Gone(r, t)
  {
    hide Sound, Leads, Reaches, Possible, After;
    ManagedIsNotLost(dir, init, sys, t);
    match sys.tickets[t].phase
    case AllPrepared =>
      var m, g;
      h, m := CommitCanComplete(dir, init, sys, t);
      LeadsReaches(dir, sys, h, m, t);
      g, r := FinishCanComplete(dir, init, m, t);
      h := JoinReaches(dir, sys, h, m, g, r, t);
    case AllCommitted =>
      h, r := FinishCanComplete(dir, init, sys, t);
    case Aborted =>
      FinishAsked(dir, sys, t);
      EventKeepsSound(dir, init, sys, AskFinish(t));
      h := OneReaches(dir, sys, AskFinish(t));
      r := After(dir, sys, AskFinish(t));
      ForgottenIsGone(dir, init, r, t);
  }

  // ---- Recovery ----

  function ReportsNow(sys: System, t: Ticket): map<ShardId, Phase> {
    map s | 0 <= s < |sys.shards| && t in sys.shards[s].tickets :: sys.shards[s].tickets[t].phase
  }

  /** What is under way right after a fresh broker took up a ticket. */
  lemma TakenUp(dir: Key -> ShardId, init: map<Key, Value>, sys: System, t: Ticket, s: ShardId)
    requires Sound(dir, init, sys) && t in sys.lost && ReportsNow(sys, t) != map[]
    ensures var reports := ReportsNow(sys, t);
            && Possible(sys, TakeUp(t, reports))
            && var r, step := After(dir, sys, TakeUp(t, reports)), BrokerSpec.Recover(reports);
               RecordOf(r, t) == step.state && r.shards == sys.shards && LinkOf(r, t, s) == Sent(IDLE, step.sends, s)
  {
    hide Sound, BrokerSpec.Recover, Brokered;
    var reports := ReportsNow(sys, t);
    var u := Unlinked(sys, t).(lost := sys.lost - {t});
    BrokeredFrame(u, t, BrokerSpec.Recover(reports), ClientAt(sys, t));
    BrokeredLinks(u, t, BrokerSpec.Recover(reports), ClientAt(sys, t), t, s);
  }

  /** The rollbacks that recovery sends all take effect. */
  lemma TakenUpPending(dir: Key -> ShardId, init: map<Key, Value>, sys: System, t: Ticket)
    requires Sound(dir, init, sys) && t in sys.lost && ReportsNow(sys, t) != map[]
    requires BrokerSpec.Recover(ReportsNow(sys, t)).state.Some?
             && BrokerSpec.Recover(ReportsNow(sys, t)).state.value.phase.InProgress?
    ensures Possible(sys, TakeUp(t, ReportsNow(sys, t)))
    ensures var r := After(dir, sys, TakeUp(t, ReportsNow(sys, t)));
            AllOwed(r, t, Rollbacks) && !AllIn(r.tickets[t], RolledBack)
  {
    hide BrokerSpec.Recover, After, Possible, Sound;
    var reports := ReportsNow(sys, t);
    RecoverShape(reports);
    TakenUp(dir, init, sys, t, 0);
    var r, step := After(dir, sys, TakeUp(t, reports)), BrokerSpec.Recover(reports);
    forall s | s in reports ensures Owed(r, t, s, Rollbacks) {
      TakenUp(dir, init, sys, t, s);
      assert Resumes(reports, step, s);
      assert LinkOf(r, t, s).reqs[0] == RollbackReq;
    }
    var s :| s in reports;
    assert Owed(r, t, s, Rollbacks);
  }

  /** A ticket whose broker crashed can be brought to its end by recovery. */
  lemma RecoveryCanComplete(dir: Key -> ShardId, init: map<Key, Value>, sys: System, t: Ticket)
    returns (h: History, r: System)
    requires Sound(dir, init, sys) && t in sys.lost
    ensures Reaches(dir, sys, h, r, t) && Sound(dir, init, r) && Gone(r, t)
  {
    hide Sound, Reaches, Leads, Possible, After, BrokerSpec.Recover, AllOwed;
    var reports := ReportsNow(sys, t);
    if reports == map[] {
      UnreportedIsGone(dir, init, sys, t);
      h, r := History([sys], []), sys;
      StayReaches(dir, sys, t);
    } else {
      var e := TakeUp(t, reports);
      RecoverShape(reports);
      RecoverUnfinished(reports);
      TakenUp(dir, init, sys, t, 0);
      EventKeepsSound(dir, init, sys, e);
      h := OneReaches(dir, sys, e);
      var m, g := After(dir, sys, e), h;
      if m.tickets[t].phase.InProgress? {
        TakenUpPending(dir, init, sys, t);
        g, r := AllConfirm(dir, init, m, t, Rollbacks);
        LeadsReaches(dir, m, g, r, t);
        h := JoinReaches(dir, sys, h, m, g, r, t);
        m := r;
      }
      g, r := DecidedCanEnd(dir, init, m, t);
      h := JoinReaches(dir, sys, h, m, g, r, t);
    }
  }

  lemma StayReaches(dir: Key -> ShardId, sys: System, t: Ticket)
    ensures Reaches(dir, sys, History([sys], []), sys, t)
  {
  }

  lemma UnreportedIsGone(dir: Key -> ShardId, init: map<Key, Value>, sys: System, t: Ticket)
    requires Sound(dir, init, sys) && t in sys.lost && ReportsNow(sys, t) == map[]
    ensures Gone(sys, t)
  {
    assert CellOk(dir, sys, t, 0);
    forall s: ShardId | s < |sys.shards| ensures t !in sys.shards[s].tickets {
      assert s !in ReportsNow(sys, t);
    }
  }

  /** From every reachable state every ticket can be brought to its end, if need be by a crash of
      its broker and recovery. Then all of its writes were applied, or none ever was. */
  lemma EveryTicketCanEnd(dir: Key -> ShardId, init: map<Key, Value>, h: History, t: Ticket) returns (g: History)
    requires Lawful(dir, init, h)
    ensures Lawful(dir, init, g) && h.states <= g.states && h.events <= g.events && Gone(Last(g), t)
    ensures forall n :: |h.events| <= n < |g.events| ==> g.events[n].ticket == t
    ensures if InOrder(Last(g).order, t)
            then forall k :: k in Writes(ClientAt(Last(g), t)) ==> exists m: nat ::
              m < |g.events|
              && Applies(dir, g, m, t, k)
            else forall m: nat, k :: m < |g.events| ==> !Applies(dir, g, m, t, k)
  {
    var sys := Last(h);
    ReachableSystem(dir, init, h, |h.states| - 1);
    var p, r := CanEnd(dir, init, sys, t);
    hide Follows, Applies, InOrder, Writes, Gone, Initial;
    JoinSteps(dir, h, p);
    g := Join(h, p);
    hide Steps;
    forall n | |h.events| <= n < |g.events| ensures g.events[n].ticket == t {
      assert g.events[n] == p.events[n - |h.events|];
    }
    AtomicOutcome(dir, init, g, |g.states| - 1, t);
  }

  lemma CanEnd(dir: Key -> ShardId, init: map<Key, Value>, sys: System, t: Ticket) returns (h: History, r: System)
    requires Sound(dir, init, sys)
    ensures Reaches(dir, sys, h, r, t) && Sound(dir, init, r) && Gone(r, t)
  {
    hide Sound, Reaches, After;
    if t in sys.lost {
      h, r := RecoveryCanComplete(dir, init, sys, t);
    } else if t !in sys.tickets {
      ForgottenIsGone(dir, init, sys, t);
      h, r := History([sys], []), sys;
      StayReaches(dir, sys, t);
    } else if sys.tickets[t].phase.InProgress? {
      var e := Crash(t);
      EventKeepsSound(dir, init, sys, e);
      h := OneReaches(dir, sys, e);
      var m := After(dir, sys, e);
      assert m.lost == sys.lost + {t} by { CrashLoses(dir, sys, t); }
      var g;
      g, r := RecoveryCanComplete(dir, init, m, t);
      h := JoinReaches(dir, sys, h, m, g, r, t);
    } else {
      h, r := DecidedCanEnd(dir, init, sys, t);
    }
  }

  lemma CrashLoses(dir: Key -> ShardId, sys: System, t: Ticket)
    requires t in sys.tickets
    ensures After(dir, sys, Crash(t)).lost == sys.lost + {t}
  {
  }

  // ---- When a rollback completes ----

  /** Whether the shard knows the ticket once the requests are handled. */
  predicate KnownAfter(known: bool, reqs: seq<Request>)
    decreases reqs
  {
    if reqs == [] then known
    else KnownAfter(!reqs[0].RollbackReq? && (known || reqs[0].TryLockReq?), reqs[1..])
  }

  /** The broker waits for a rollback of which no confirmation will ever come. */
  predicate Stuck(sys: System, t: Ticket, s: ShardId) {
    && t in sys.tickets && s < |sys.shards| && Expects(sys.tickets[t], s, Rollbacks)
    && Hopeless(t in sys.shards[s].tickets, LinkOf(sys, t, s))
  }

  predicate Hopeless(known: bool, link: Link) {
    && RollbackDone(None) !in link.resps && Ahead(Rollbacks, known, link.reqs) == 0
    && !KnownAfter(known, link.reqs)
  }

  lemma {:induction false} ForwardReturns(live: bool, reqs: seq<Request>)
    requires Forward(live, reqs)
    ensures Ahead(Rollbacks, live, reqs + [RollbackReq]) > 0 <==> LiveAfter(live, reqs)
    ensures !KnownAfter(live, reqs + [RollbackReq])
    decreases reqs
  {
    var all := reqs + [RollbackReq];
    if reqs == [] {
      assert all[1..] == [];
    } else {
      assert all[1..] == reqs[1..] + [RollbackReq];
      ForwardReturns(live || reqs[0].TryLockReq?, reqs[1..]);
    }
  }

  lemma {:induction false} HopelessAppend(known: bool, reqs: seq<Request>)
    requires Ahead(Rollbacks, known, reqs) == 0 && !KnownAfter(known, reqs)
    ensures Ahead(Rollbacks, known, reqs + [RollbackReq]) == 0 && !KnownAfter(known, reqs + [RollbackReq])
    decreases reqs
  {
    var all := reqs + [RollbackReq];
    if reqs == [] {
      assert all[1..] == [];
    } else {
      assert all[1..] == reqs[1..] + [RollbackReq];
      HopelessAppend(!reqs[0].RollbackReq? && (known || reqs[0].TryLockReq?), reqs[1..]);
    }
  }

  /** A rollback that is asked for reaches a shard exactly if the ticket has asked it for a lock. */
  lemma RollbackAsked(dir: Key -> ShardId, b: TicketState, c: Client, t: Ticket, s: ShardId, sh: Shard, link: Link)
    requires LinkInv(dir, Some(b), c, t, s, sh, link) && b.phase.InProgress? && Calm(b) && s in b.shards
    ensures var l := link.(reqs := link.reqs + [RollbackReq]);
            if b.shards[s].keys != map[] then Due(Rollbacks, t, sh, l) else Hopeless(t in sh.tickets, l)
  {
    ForwardReturns(t in sh.tickets, link.reqs);
  }

  lemma AfterRollback(dir: Key -> ShardId, sys: System, t: Ticket, s: ShardId)
    requires t in sys.tickets && sys.tickets[t].phase.InProgress? && s in sys.tickets[t].shards
             && !sys.tickets[t].shards[s].phase.RolledBack?
    ensures var r, link := After(dir, sys, AskRollback(t)), LinkOf(sys, t, s);
            && r.shards == sys.shards && t in r.tickets && Expects(r.tickets[t], s, Rollbacks)
            && r.tickets[t] == Advance(sys.tickets[t], RolledBack, RollingBack)
            && LinkOf(r, t, s) == link.(reqs := link.reqs + [RollbackReq])
  {
    BrokeredLinks(sys, t, BrokerSpec.Rollback(sys.tickets[t]), ClientAt(sys, t), t, s);
  }

  // ---- A stuck rollback stays stuck ----

  lemma OtherShardResponse(b: TicketState, s': ShardId, r: Response, s: ShardId)
    requires Expects(b, s, Rollbacks) && s' != s
    ensures var step := Handle(b, s', r);
            step.state.Some? && Expects(step.state.value, s, Rollbacks) && s !in step.sends
  {
    if r.PrepareDone? {
      var b' := SetPhase(SetPhase(b, s', ShardAt(b, s').phase), s', AtPrepared);
      assert b'.shards[s].phase == RollingBack;
    }
    if r.RollbackDone? {
      var b' := SetPhase(b, s', ShardAt(b, s').phase);
      assert b'.(shards := b'.shards[s' := ShardState(map[], RolledBack)]).shards[s].phase == RollingBack;
    }
  }

  /** What an event about another ticket leaves of `t` at `s`. */
  ghost predicate Bystands(sys: System, r: System, t: Ticket, s: ShardId) {
    && RecordOf(r, t) == RecordOf(sys, t) && |r.shards| == |sys.shards|
    && LinkOf(r, t, s).reqs == LinkOf(sys, t, s).reqs
    && (forall x :: x in LinkOf(r, t, s).resps ==> x in LinkOf(sys, t, s).resps || x.LockValue? || x.LockError?)
    && (s < |sys.shards| ==> (t in r.shards[s].tickets <==> t in sys.shards[s].tickets))
  }

  lemma OtherEvent(dir: Key -> ShardId, init: map<Key, Value>, sys: System, e: Event, t: Ticket, s: ShardId)
    requires Sound(dir, init, sys) && Possible(sys, e) && e.ticket != t
    ensures Bystands(sys, After(dir, sys, e), t, s)
  {
    hide Bystands, Brokered, Sharded;
    if e.AtShard? {
      OtherServed(dir, init, sys, e, t, s);
    } else if e.Begin? || e.Crash? || (e.AtBroker? && e.ticket !in sys.tickets) {
      Bystanding(sys, After(dir, sys, e), t, s);
    } else {
      hide Sound, After, Possible;
      var u, step, c := AsBrokered(dir, sys, e);
      BrokeredFrame(u, e.ticket, step, c);
      BrokeredLinks(u, e.ticket, step, c, t, s);
      Bystanding(sys, After(dir, sys, e), t, s);
    }
  }

  lemma Bystanding(sys: System, r: System, t: Ticket, s: ShardId)
    requires RecordOf(r, t) == RecordOf(sys, t) && r.shards == sys.shards && LinkOf(r, t, s) == LinkOf(sys, t, s)
    ensures Bystands(sys, r, t, s)
  {
  }

  /** An event at a broker is a step on the record of its ticket. */
  lemma AsBrokered(dir: Key -> ShardId, sys: System, e: Event) returns (u: System, step: Step, c: Client)
    requires Possible(sys, e) && !e.AtShard? && !e.Begin? && !e.Crash? && (e.AtBroker? ==> e.ticket in sys.tickets)
    ensures After(dir, sys, e) == Brokered(u, e.ticket, step, c) && u.shards == sys.shards && u.order == sys.order
            && u.clients == sys.clients
    ensures forall t :: t != e.ticket ==> RecordOf(u, t) == RecordOf(sys, t) && (t in u.lost <==> t in sys.lost)
    ensures forall t, s :: t != e.ticket ==> LinkOf(u, t, s) == LinkOf(sys, t, s)
  {
    hide Brokered, Handle, BrokerSpec.TryLock, BrokerSpec.Commit, BrokerSpec.Rollback, BrokerSpec.Finish,
      BrokerSpec.Recover, Reported, Calm, MayCommit;
    u := sys;
    var t := e.ticket;
    match e
    case AskLock(_, k, ty) =>
      step := BrokerSpec.TryLock(sys.tickets[t], dir(k), k, ty);
      c := Told(ClientOfLock(sys.tickets[t], ClientAt(sys, t)), k, step.reply);
    case AskCommit(_, update) =>
      step, c := BrokerSpec.Commit(sys.tickets[t], update), ClientOfCommit(sys.tickets[t], ClientAt(sys, t), update);
    case AskRollback(_) => step, c := BrokerSpec.Rollback(sys.tickets[t]), ClientAt(sys, t);
    case AskFinish(_) => step, c := BrokerSpec.Finish(sys.tickets[t]), ClientAt(sys, t);
    case AtBroker(_, s) =>
      u, step := Unread(sys, t, s), Receive(sys.tickets[t], s, LinkOf(sys, t, s));
      c := ClientOfResponse(ClientAt(sys, t), LinkOf(sys, t, s).resps[0], step.reply);
    case TakeUp(_, reports) =>
      u, step, c := Unlinked(sys, t).(lost := sys.lost - {t}), BrokerSpec.Recover(reports), ClientAt(sys, t);
  }

  lemma OtherServed(dir: Key -> ShardId, init: map<Key, Value>, sys: System, e: Event, t: Ticket, s: ShardId)
    requires Sound(dir, init, sys) && e.AtShard? && Possible(sys, e) && e.ticket != t
    ensures Bystands(sys, Sharded(sys, e), t, s)
  {
    hide Sound, Do, ReportOf, Inv, AnswersTo, Sharded;
    var op := EventOp(sys, e);
    SoundShard(dir, init, sys, e.shard);
    ShardedFrame(sys, e);
    OthersAreBystanders(sys.shards[e.shard], op, t);
    ShardedLinks(sys, e, t, s);
    AnswersAreLocks(Do(sys.shards[e.shard], op).answers, t, AnswersFor(e.answers, t));
  }

  lemma SoundShard(dir: Key -> ShardId, init: map<Key, Value>, sys: System, s: ShardId)
    requires Sound(dir, init, sys) && s < |sys.shards|
    ensures Inv(sys.shards[s])
  {
    hide Inv;
    assert ShardOk(dir, sys, s);
  }

  lemma ShardedFrame(sys: System, e: Event)
    requires e.AtShard? && Possible(sys, e)
    ensures Sharded(sys, e).tickets == sys.tickets
    ensures Sharded(sys, e).shards == sys.shards[e.shard := Do(sys.shards[e.shard], EventOp(sys, e)).shard]
  {
    hide Do, ReportOf, AnswersTo;
  }

  /** No event but a crash of its broker frees a stuck ticket. */
  lemma StuckStep(dir: Key -> ShardId, init: map<Key, Value>, sys: System, e: Event, t: Ticket, s: ShardId)
    requires Sound(dir, init, sys) && Possible(sys, e) && Stuck(sys, t, s) && e != Crash(t)
    ensures Stuck(After(dir, sys, e), t, s)
  {
    hide Sound, After, Possible, Expects, Hopeless;
    if e.ticket != t {
      OtherEvent(dir, init, sys, e, t, s);
      StuckBystands(sys, After(dir, sys, e), t, s);
    } else if e.AtShard? {
      StuckServed(dir, init, sys, e, s);
    } else if e.AtBroker? {
      StuckReceives(dir, init, sys, e, t, s);
    } else {
      StuckAsks(dir, init, sys, e, t, s);
    }
  }

  lemma StuckBystands(sys: System, r: System, t: Ticket, s: ShardId)
    requires Stuck(sys, t, s) && Bystands(sys, r, t, s)
    ensures Stuck(r, t, s)
  {
  }

  lemma HopelessServed(known: bool, link: Link, known': bool, link': Link)
    requires Hopeless(known, link) && link.reqs != [] && link'.reqs == link.reqs[1..]
    requires known' == (!link.reqs[0].RollbackReq? && (known || link.reqs[0].TryLockReq?))
    requires RollbackDone(None) !in link'.resps
    ensures Hopeless(known', link')
  {
  }

  lemma StuckServed(dir: Key -> ShardId, init: map<Key, Value>, sys: System, e: Event, s: ShardId)
    requires Sound(dir, init, sys) && Possible(sys, e) && e.AtShard? && Stuck(sys, e.ticket, s)
    ensures Stuck(After(dir, sys, e), e.ticket, s)
  {
    hide Sound, After, Expects, Do, ReportOf, AnswersTo;
    var t, r := e.ticket, After(dir, sys, e);
    ServeEffect(dir, sys, e);
    if e.shard == s {
      ServeStep(dir, init, sys, e, Rollbacks);
      UnconfirmedServe(dir, sys, e, Rollbacks);
      HopelessServed(t in sys.shards[s].tickets, LinkOf(sys, t, s), t in r.shards[s].tickets, LinkOf(r, t, s));
    }
  }

  lemma StuckReceives(dir: Key -> ShardId, init: map<Key, Value>, sys: System, e: Event, t: Ticket, s: ShardId)
    requires Sound(dir, init, sys) && Possible(sys, e) && e.AtBroker? && e.ticket == t && Stuck(sys, t, s)
    ensures Stuck(After(dir, sys, e), t, s)
  {
    hide Sound, Handle, LinkInv;
    var r := After(dir, sys, e);
    if e.shard == s {
      hide After;
      ManagedLink(dir, init, sys, t, s);
      assert LinkOf(sys, t, s).resps[0] in LinkOf(sys, t, s).resps;
      OtherResponse(dir, sys.tickets[t], ClientAt(sys, t), t, s, sys.shards[s], LinkOf(sys, t, s), Rollbacks);
      ReceiveEffect(dir, sys, t, s);
    } else {
      var link := LinkOf(sys, t, e.shard);
      var step := Receive(sys.tickets[t], e.shard, link);
      OtherShardResponse(sys.tickets[t], e.shard, link.resps[0], s);
      var u, c := Unread(sys, t, e.shard), ClientOfResponse(ClientAt(sys, t), link.resps[0], step.reply);
      BrokeredFrame(u, t, step, c);
      BrokeredLinks(u, t, step, c, t, s);
    }
  }

  lemma StuckAsks(dir: Key -> ShardId, init: map<Key, Value>, sys: System, e: Event, t: Ticket, s: ShardId)
    requires Sound(dir, init, sys) && Possible(sys, e) && e.ticket == t && Stuck(sys, t, s)
    requires !e.AtShard? && !e.AtBroker? && !e.Crash?
    ensures Stuck(After(dir, sys, e), t, s)
  {
    assert CellOk(dir, sys, t, s);
    hide SystemInv;
    assert !Calm(sys.tickets[t]);
    if e.AskRollback? {
      HopelessAppend(t in sys.shards[s].tickets, LinkOf(sys, t, s).reqs);
      AfterRollback(dir, sys, t, s);
    } else {
      BrokeredFrame(sys, t, BrokerSpec.Finish(sys.tickets[t]), ClientAt(sys, t));
      BrokeredLinks(sys, t, BrokerSpec.Finish(sys.tickets[t]), ClientAt(sys, t), t, s);
    }
  }

  /** `h` leads from `sys` to `r` by any events but a crash of the broker of `t`. */
  ghost predicate Uncrashed(dir: Key -> ShardId, sys: System, h: History, r: System, t: Ticket) {
    Steps(dir, h) && h.states[0] == sys && Last(h) == r && forall n :: 0 <= n < |h.events| ==> h.events[n] != Crash(t)
  }

  ghost predicate CanAbort(dir: Key -> ShardId, sys: System, t: Ticket) {
    exists h, r :: Uncrashed(dir, sys, h, r, t) && Arrived(r, t, Rollbacks)
  }

  lemma {:induction false} StuckForever(dir: Key -> ShardId, init: map<Key, Value>, sys: System, h: History,
                                        r: System, t: Ticket, s: ShardId, n: nat)
    requires Sound(dir, init, sys) && Stuck(sys, t, s) && Uncrashed(dir, sys, h, r, t) && n < |h.states|
    ensures Sound(dir, init, h.states[n]) && Stuck(h.states[n], t, s)
  {
    hide Sound, Stuck, Possible, After;
    if n > 0 {
      StuckForever(dir, init, sys, h, r, t, s, n - 1);
      assert Follows(dir, h.states[n - 1], h.events[n - 1], h.states[n]);
      EventKeepsSound(dir, init, h.states[n - 1], h.events[n - 1]);
      StuckStep(dir, init, h.states[n - 1], h.events[n - 1], t, s);
    }
  }

  lemma RollbackPending(dir: Key -> ShardId, init: map<Key, Value>, sys: System, t: Ticket, s: ShardId)
    requires Sound(dir, init, sys) && t in sys.tickets && sys.tickets[t].phase.InProgress? && Calm(sys.tickets[t])
             && s in sys.tickets[t].shards
    ensures var r := After(dir, sys, AskRollback(t));
            if sys.tickets[t].shards[s].keys != map[] then Owed(r, t, s, Rollbacks) else Stuck(r, t, s)
  {
    hide After, LinkInv, Expects, Due, Hopeless, SystemInv;
    assert s < |sys.shards|;
    ManagedLink(dir, init, sys, t, s);
    hide Sound;
    RollbackAsked(dir, sys.tickets[t], ClientAt(sys, t), t, s, sys.shards[s], LinkOf(sys, t, s));
    AfterRollback(dir, sys, t, s);
  }

  lemma RollbackAllPending(dir: Key -> ShardId, init: map<Key, Value>, sys: System, t: Ticket)
    requires Sound(dir, init, sys) && t in sys.tickets && sys.tickets[t].phase.InProgress? && Calm(sys.tickets[t])
    requires sys.tickets[t].shards != map[] && forall s :: s in sys.tickets[t].shards ==>
             sys.tickets[t].shards[s].keys != map[]
    ensures var r := After(dir, sys, AskRollback(t));
            AllOwed(r, t, Rollbacks)
            && !AllIn(r.tickets[t], RolledBack)
  {
    hide Sound, After, Due;
    var b, r := sys.tickets[t], After(dir, sys, AskRollback(t));
    var s0 :| s0 in b.shards;
    AfterRollback(dir, sys, t, s0);
    forall s | s in b.shards ensures Owed(r, t, s, Rollbacks) {
      RollbackPending(dir, init, sys, t, s);
    }
    assert Owed(r, t, s0, Rollbacks);
  }

  /** A rollback asked for in any reachable state can complete, without a crash of the broker, if
      and only if the ticket has asked every listed shard for a lock. */
  lemma RollbackCompletesExactlyWhen(dir: Key -> ShardId, init: map<Key, Value>, h: History, t: Ticket)
    requires Lawful(dir, init, h) && t in Last(h).tickets && Last(h).tickets[t].phase.InProgress?
             && Calm(Last(h).tickets[t])
    ensures CanAbort(dir, After(dir, Last(h), AskRollback(t)), t) <==>
            forall s :: s in Last(h).tickets[t].shards ==> Last(h).tickets[t].shards[s].keys != map[]
  {
    var sys := Last(h);
    ReachableSystem(dir, init, h, |h.states| - 1);
    hide Lawful, Sound, Leads, AllOwed, Stuck;
    var b, e := sys.tickets[t], AskRollback(t);
    var m := After(dir, sys, e);
    EventKeepsSound(dir, init, sys, e);
    if s :| s in b.shards && b.shards[s].keys == map[] {
      hide After;
      RollbackPending(dir, init, sys, t, s);
      forall g, r | Uncrashed(dir, m, g, r, t) ensures !Arrived(r, t, Rollbacks) {
        StuckForever(dir, init, m, g, r, t, s, |g.states| - 1);
        StuckIsNotAborted(r, t, s);
      }
    } else if b.shards == map[] {
      assert Uncrashed(dir, m, History([m], []), m, t);
    } else {
      hide After;
      RollbackAllPending(dir, init, sys, t);
      var g, r := AllConfirm(dir, init, m, t, Rollbacks);
      LeadsUncrashed(dir, m, g, r, t);
    }
  }

  lemma StuckIsNotAborted(sys: System, t: Ticket, s: ShardId)
    requires Stuck(sys, t, s)
    ensures !Arrived(sys, t, Rollbacks)
  {
  }

  lemma LeadsUncrashed(dir: Key -> ShardId, sys: System, h: History, r: System, t: Ticket)
    requires Leads(dir, sys, h, r, t)
    ensures Uncrashed(dir, sys, h, r, t)
  {
    hide Steps;
    forall n | 0 <= n < |h.events| ensures h.events[n] != Crash(t) {
      assert Delivers(h.events[n], t);
    }
  }

  // ---- A rollback that hangs ----

  lemma AfterLock(dir: Key -> ShardId, sys: System, t: Ticket, k: Key, ty: LockType, s: ShardId)
    requires Possible(sys, AskLock(t, k, ty)) && !Decided(Some(sys.tickets[t]))
    ensures var r, step := After(dir, sys, AskLock(t, k, ty)), BrokerSpec.TryLock(sys.tickets[t], dir(k), k, ty);
            && r.shards == sys.shards && r.lost == sys.lost && RecordOf(r, t) == step.state
            && LinkOf(r, t, s) == Sent(LinkOf(sys, t, s), step.sends, s)
  {
    hide BrokerSpec.TryLock, Calm;
    var b, step := sys.tickets[t], BrokerSpec.TryLock(sys.tickets[t], dir(k), k, ty);
    var c := Told(ClientOfLock(b, ClientAt(sys, t)), k, step.reply);
    BrokeredFrame(sys, t, step, c);
    BrokeredLinks(sys, t, step, c, t, s);
  }

  /** A listed shard that the ticket has not asked for anything. */
  predicate ListsIdle(sys: System, t: Ticket, s: ShardId) {
    && t in sys.tickets && sys.tickets[t].phase.InProgress? && Calm(sys.tickets[t])
    && s in sys.tickets[t].shards && sys.tickets[t].shards[s].keys == map[]
  }

  /** When an aborted ticket still has a repeated rollback under way to a shard and is started
      again on another one, the late response makes the broker list a shard without locks. */
  lemma LateResponse(dir: Key -> ShardId, init: map<Key, Value>, sys: System, t: Ticket, s: ShardId, k: Key)
    returns (h: History, r: System)
    requires Sound(dir, init, sys) && t in sys.tickets && sys.tickets[t].phase.Aborted?
    requires s < |sys.shards| && LinkOf(sys, t, s).reqs != [] && LinkOf(sys, t, s).reqs[0] == RollbackReq && dir(k) != s
    ensures Reaches(dir, sys, h, r, t) && Sound(dir, init, r) && ListsIdle(r, t, s)
  {
    hide Sound, Reaches, After, Handle, LinkInv, Do, AnswersTo;
    var e := AskLock(t, k, Read);
    var u := After(dir, sys, e);
    AfterLock(dir, sys, t, k, Read, s);
    EventKeepsSound(dir, init, sys, e);
    h := OneReaches(dir, sys, e);

    var e' := RequestsAreServed(dir, init, u, t, s);
    var v := After(dir, u, e');
    ServeEffect(dir, u, e');
    EventKeepsSound(dir, init, u, e');
    var g := OneReaches(dir, u, e');
    h := JoinReaches(dir, sys, h, u, g, v, t);
    assert e'.report[0] in LinkOf(v, t, s).resps;

    ManagedLink(dir, init, v, t, s);
    var link := LinkOf(v, t, s);
    IdleResponse(dir, v.tickets[t], ClientAt(v, t), t, s, v.shards[s], link);
    r := After(dir, v, AtBroker(t, s));
    ReceiveEffect(dir, v, t, s);
    EventKeepsSound(dir, init, v, AtBroker(t, s));
    g := OneReaches(dir, v, AtBroker(t, s));
    h := JoinReaches(dir, sys, h, v, g, r, t);
  }

  /** A response of a shard that a started ticket does not list is a late one, and lists it. */
  lemma IdleResponse(dir: Key -> ShardId, b: TicketState, c: Client, t: Ticket, s: ShardId, sh: Shard, link: Link)
    requires LinkInv(dir, Some(b), c, t, s, sh, link) && b.phase.InProgress? && Calm(b) && s !in b.shards
             && link.resps != []
    ensures var step := Receive(b, s, link);
            && step.sends == map[] && step.state.Some? && step.state.value.phase.InProgress? && Calm(step.state.value)
            && s in step.state.value.shards && step.state.value.shards[s].keys == map[]
  {
    assert link.resps[0] in link.resps;
  }

  /** Two empty shards, one of which has the empty key and the other all others. */
  function TwoShards(k: Key): ShardId { if k == EMPTY then 0 else 1 }

  const START := System(map[], {}, map[], [EMPTY_SHARD, EMPTY_SHARD], map[], [])

  lemma StartIsInitial()
    ensures Initial(TwoShards, map[], START)
  {
  }

  lemma BegunExample(t: Ticket) returns (h: History, r: System)
    ensures Reaches(TwoShards, START, h, r, t) && Sound(TwoShards, map[], r) && r.shards == START.shards
    ensures RecordOf(r, t) == Some(NEW_STATE) && LinkOf(r, t, 0) == IDLE
  {
    StartIsInitial();
    InitialInv(TwoShards, map[], START);
    hide SystemInv, Reaches, Initial;
    h, r := AskedFor(TwoShards, map[], START, t, Begin(t));
  }

  lemma LockExample(t: Ticket) returns (h: History, r: System)
    ensures Reaches(TwoShards, START, h, r, t) && Sound(TwoShards, map[], r) && r.shards == START.shards
            && t in r.tickets
    ensures r.tickets[t]
            == TicketState(InProgress, map[0 := ShardState(map[EMPTY := KeyState(false, Read, None)], AtBegun)])
    ensures LinkOf(r, t, 0) == Link([TryLockReq(EMPTY, Read, true)], [])
  {
    var dir: Key -> ShardId := TwoShards;
    hide Reaches, Sound, After;
    var g, m;
    h, m := BegunExample(t);
    AfterLock(dir, m, t, EMPTY, Read, 0);
    g, r := AskedFor(dir, map[], m, t, AskLock(t, EMPTY, Read));
    h := JoinReaches(dir, START, h, m, g, r, t);
  }

  /** A ticket asks the first shard for a lock and is then rolled back twice. */
  lemma RolledBackTwice(t: Ticket) returns (h: History, r: System)
    ensures Reaches(TwoShards, START, h, r, t) && Sound(TwoShards, map[], r) && r.shards == START.shards
    ensures t in r.tickets && r.tickets[t].phase.InProgress? && r.tickets[t].shards.Keys == {0}
            && Expects(r.tickets[t], 0, Rollbacks)
    ensures LinkOf(r, t, 0) == Link([TryLockReq(EMPTY, Read, true), RollbackReq, RollbackReq], [])
  {
    var dir: Key -> ShardId := TwoShards;
    hide Reaches, Sound, After;
    var g, m, u;
    h, m := LockExample(t);
    AfterRollback(dir, m, t, 0);
    g, u := AskedFor(dir, map[], m, t, AskRollback(t));
    h := JoinReaches(dir, START, h, m, g, u, t);
    AfterRollback(dir, u, t, 0);
    g, r := AskedFor(dir, map[], u, t, AskRollback(t));
    h := JoinReaches(dir, START, h, u, g, r, t);
  }

  lemma AskedFor(dir: Key -> ShardId, init: map<Key, Value>, sys: System, t: Ticket, e: Event)
    returns (h: History, r: System)
    requires Sound(dir, init, sys) && Possible(sys, e) && e.ticket == t
    ensures r == After(dir, sys, e) && Sound(dir, init, r) && Reaches(dir, sys, h, r, t)
  {
    hide Sound, Possible, After;
    EventKeepsSound(dir, init, sys, e);
    h := OneReaches(dir, sys, e);
    r := After(dir, sys, e);
  }

  lemma TwoAhead()
    ensures Ahead(Rollbacks, false, [TryLockReq(EMPTY, Read, true), RollbackReq, RollbackReq]) == 2
    ensures [TryLockReq(EMPTY, Read, true), RollbackReq, RollbackReq][2..] == [RollbackReq]
  {
    var reqs := [TryLockReq(EMPTY, Read, true), RollbackReq, RollbackReq];
    assert reqs[1..] == [RollbackReq, RollbackReq];
    assert Ahead(Rollbacks, true, [RollbackReq, RollbackReq]) == 1;
  }

  /** Such a ticket is reachable: its rollback can never complete without a crash of its broker. */
  lemma HungRollback(t: Ticket) returns (h: History)
    ensures Lawful(TwoShards, map[], h) && t in Last(h).tickets && Last(h).tickets[t].phase.InProgress?
            && Calm(Last(h).tickets[t])
    ensures !CanAbort(TwoShards, After(TwoShards, Last(h), AskRollback(t)), t)
  {
    var dir: Key -> ShardId := TwoShards;
    hide Sound, Reaches, After, Leads;
    var m, r, g;
    h, m := RolledBackTwice(t);
    TwoAhead();
    g, r := ShardConfirms(dir, map[], m, t, 0, Rollbacks);
    LeadsReaches(dir, m, g, r, t);
    h := JoinReaches(dir, START, h, m, g, r, t);
    m := r;
    g, r := LateResponse(dir, map[], m, t, 0, Buffer([1]));
    h := JoinReaches(dir, START, h, m, g, r, t);
    ReachedIsLawful(h, r, t);
    RollbackCompletesExactlyWhen(dir, map[], h, t);
  }

  lemma ReachedIsLawful(h: History, r: System, t: Ticket)
    requires Reaches(TwoShards, START, h, r, t)
    ensures Lawful(TwoShards, map[], h) && Last(h) == r
  {
    StartIsInitial();
    hide Initial, Follows;
  }
}
