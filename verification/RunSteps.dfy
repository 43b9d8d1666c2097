/** Single steps with known outcome, from which runs are put together: what a shard does with a lock
    or a prepare, and what a request, its handling and an answer change in a system. */
module RunSteps {
  import opened Basics
  import opened LockTable
  import opened ShardSpec
  import opened ShardSteps
  import opened BrokerSpec
  import opened Links
  import opened BrokerLinks
  import opened ShardLinks
  import opened Systems
  import opened SystemRuns
  import opened Progress
  import opened Worlds
  import W = ShardWaiting

  // ---- Shards with one key ----

  function Shared(k: Key, readers: set<Ticket>): map<Key, Element> {
    map[k := Element(EMPTY, RwLock(None, readers, map[]))]
  }

  function Taken(k: Key, t: Ticket): map<Key, Element> { map[k := Element(EMPTY, RwLock(Some(t), {}, map[]))] }

  function Locked(k: Key, t: Ticket): Shard { Shard(Taken(k, t), map[t := NEW_TICKET]) }

  function Held(k: Key, t: Ticket): Shard { Shard(Taken(k, t), map[t := NEW_TICKET.(phase := Prepared)]) }

  function LockOp(t: Ticket, k: Key, ty: LockType, first: bool): Op { TryLockOp(t, 0, k, ty, first, 0) }

  /** A key that nobody holds is given to the first who asks. */
  lemma LockFree(t: Ticket, k: Key, ty: LockType)
    ensures Do(EMPTY_SHARD, LockOp(t, k, ty, true))
            == Outcome(Shard(if ty.Write? then Taken(k, t) else Shared(k, {t}), map[t := NEW_TICKET]),
              {Granted(0, t, k, EMPTY)})
  {
    var w := Waiter(ty, 0);
    var e := Queued(EMPTY_SHARD, t, k, w);
    assert LockOf(EMPTY_SHARD, k) == FREE;
    assert e == map[k := Element(EMPTY, RwLock(None, {}, map[t := w]))];
    assert Victims(EMPTY_SHARD, t, k, ty) == {};
    var l := Release(e[k].lock, {});
    assert l == RwLock(None, {}, map[t := w]);
    var r := if ty.Write? then RwLock(Some(t), {}, map[]) else RwLock(None, {t}, map[]);
    GrantOnly(l, t, w);
    assert {} + {t} == {t};
    assert Settle(l) == r;
    assert Relock(e, {}) == map[k := Element(EMPTY, r)];
    var tickets := WoundAll(Register(EMPTY_SHARD, t, 0), {}, t, k);
    assert tickets == map[t := NEW_TICKET];
    assert AnswerTo(e, tickets, {}, k, t) == Granted(0, t, k, EMPTY);
    assert RelockAnswers(e, tickets, {}) == {Granted(0, t, k, EMPTY)};
  }

  /** The only waiter of a lock that nobody writes gets it, unless it wants to write and others read. */
  lemma GrantOnly(l: RwLock, t: Ticket, w: Waiter)
    requires l.writer.None? && l.queue == map[t := w]
    ensures Settle(l) == if w.lockType.Read? then RwLock(None, l.readers + {t}, map[])
                         else if l.readers <= {t} then RwLock(Some(t), {}, map[])
                         else l
  {
    assert t in l.queue && Front(l.queue) == t;
    assert l.queue - {t} == map[];
  }

  lemma PrepareLocked(t: Ticket, k: Key)
    ensures Do(Locked(k, t), PrepareOp(t, map[])) == Outcome(Held(k, t), {})
  {
    assert QueuedBy(Locked(k, t).elements, t) == {};
    assert PrepareRefusals(Locked(k, t), t, map[]) == {};
  }

  /** A ticket that cannot wound the holder waits for it. */
  lemma LockTaken(s: Shard, t: Ticket, u: Ticket, k: Key)
    requires s.elements == Taken(k, t) && t in s.tickets && u !in s.tickets && (t < u || Has(s, t, Prepared))
    ensures Do(s, LockOp(u, k, Write, true)).answers == {} && W.WaitsFor(Do(s, LockOp(u, k, Write, true)).shard, u, t)
    ensures Has(s, t, Prepared) ==> Has(Do(s, LockOp(u, k, Write, true)).shard, t, Prepared)
  {
    var w := Waiter(Write, 0);
    var e := Queued(s, u, k, w);
    var l := RwLock(Some(t), {}, map[u := w]);
    assert e == map[k := Element(EMPTY, l)];
    assert Victims(s, u, k, Write) == {};
    assert Release(l, {}) == l && Settle(l) == l;
    assert Relock(e, {}) == e;
    var r := Do(s, LockOp(u, k, Write, true)).shard;
    assert r.elements == e && LockOf(r, k) == l;
    assert W.WaitsAt(r, k, u, t);
  }

  /** A second reader. */
  lemma LockShared(t: Ticket, u: Ticket, k: Key)
    requires t != u
    ensures Do(Shard(Shared(k, {t}), map[t := NEW_TICKET]), LockOp(u, k, Read, true))
            == Outcome(Shard(Shared(k, {t, u}), map[t := NEW_TICKET, u := NEW_TICKET]), {Granted(0, u, k, EMPTY)})
  {
    var s := Shard(Shared(k, {t}), map[t := NEW_TICKET]);
    var w := Waiter(Read, 0);
    var e := Queued(s, u, k, w);
    var l := RwLock(None, {t}, map[u := w]);
    assert e == map[k := Element(EMPTY, l)];
    assert Victims(s, u, k, Read) == {};
    assert Release(l, {}) == l;
    GrantOnly(l, u, w);
    assert l.readers + {u} == {t, u};
    assert Relock(e, {}) == Shared(k, {t, u});
    var tickets := WoundAll(Register(s, u, 0), {}, u, k);
    assert tickets == map[t := NEW_TICKET, u := NEW_TICKET];
    assert AnswerTo(e, tickets, {}, k, u) == Granted(0, u, k, EMPTY);
    assert RelockAnswers(e, tickets, {}) == {Granted(0, u, k, EMPTY)};
  }

  /** A reader that wants to write waits for an older reader. */
  lemma LockUpgrade(t: Ticket, u: Ticket, k: Key)
    requires t < u
    ensures var r := Do(Shard(Shared(k, {t, u}), map[t := NEW_TICKET, u := NEW_TICKET]), LockOp(u, k, Write, false));
            r.answers == {} && W.WaitsFor(r.shard, u, t)
  {
    var s := Shard(Shared(k, {t, u}), map[t := NEW_TICKET, u := NEW_TICKET]);
    var w := Waiter(Write, 0);
    var e := Queued(s, u, k, w);
    var l := RwLock(None, {t, u}, map[u := w]);
    assert e == map[k := Element(EMPTY, l)];
    assert Victims(s, u, k, Write) == {};
    assert Release(l, {}) == l;
    GrantOnly(l, u, w);
    assert t in l.readers && Settle(l) == l;
    assert Relock(e, {}) == e;
    var r := Do(s, LockOp(u, k, Write, false)).shard;
    assert r.elements == e && LockOf(r, k) == l;
    assert W.WaitsAt(r, k, u, t);
  }

  // ---- Steps of a system ----

  /** Nothing about `t` changes, here and on its links. */
  ghost predicate Aside(sys: System, r: System, t: Ticket) {
    RecordOf(r, t) == RecordOf(sys, t) && ClientAt(r, t) == ClientAt(sys, t) && (t in r.clients <==> t in sys.clients)
    && forall s :: LinkOf(r, t, s) == LinkOf(sys, t, s)
  }

  lemma BeginStep(dir: Key -> ShardId, sys: System, t: Ticket, u: Ticket)
    requires t !in sys.clients && t != u
    ensures Possible(sys, Begin(t))
    ensures var r := After(dir, sys, Begin(t));
            && r.shards == sys.shards && Aside(sys, r, u) && RecordOf(r, t) == Some(NEW_STATE)
            && ClientAt(r, t) == NEW_CLIENT && forall s :: LinkOf(r, t, s) == LinkOf(sys, t, s)
  {
  }

  /** `r` is what a request of the client makes of `sys`. */
  ghost predicate AskedTo(dir: Key -> ShardId, sys: System, e: Event, r: System, u: Ticket) {
    && IsAsk(e) && e.ticket in sys.tickets && r.shards == sys.shards && Aside(sys, r, u)
    && var t, step := e.ticket, StepOn(dir, sys.tickets[e.ticket], e);
       && RecordOf(r, t) == step.state && ClientAt(r, t) == ClientOn(dir, sys.tickets[t], ClientAt(sys, t), e)
       && forall s :: LinkOf(r, t, s) == Sent(LinkOf(sys, t, s), step.sends, s)
  }

  lemma AskStep(dir: Key -> ShardId, sys: System, e: Event, u: Ticket)
    requires IsAsk(e) && Possible(sys, e) && u != e.ticket && e.ticket in sys.tickets
    ensures AskedTo(dir, sys, e, After(dir, sys, e), u)
  {
    hide BrokerSpec.TryLock, BrokerSpec.Commit, BrokerSpec.Rollback, BrokerSpec.Finish, Brokered, Calm, MayCommit;
    var r, t := After(dir, sys, e), e.ticket;
    RequestTaken(dir, sys, e);
    var step, c := StepOn(dir, sys.tickets[t], e), ClientOn(dir, sys.tickets[t], ClientAt(sys, t), e);
    BrokeredFrame(sys, t, step, c);
    forall s ensures LinkOf(r, t, s) == Sent(LinkOf(sys, t, s), step.sends, s) && LinkOf(r, u, s) == LinkOf(sys, u, s) {
      BrokeredLinks(sys, t, step, c, t, s);
      BrokeredLinks(sys, t, step, c, u, s);
    }
  }

  predicate Heads(link: Link, q: Request) { link.reqs != [] && link.reqs[0] == q }

  /** `r` is what the handling of the next request `q` at shard `s` makes of `sys`, with the responses
      `more` to its ticket and none to `u`. */
  ghost predicate ServedTo(sys: System, t: Ticket, s: ShardId, q: Request, more: seq<Response>, r: System, u: Ticket) {
    && s < |sys.shards| && Heads(LinkOf(sys, t, s), q) && Enabled(sys.shards[s], OpOf(t, q, 0, 0))
    && Aside(sys, r, u) && RecordOf(r, t) == RecordOf(sys, t) && ClientAt(r, t) == ClientAt(sys, t)
    && var op := OpOf(t, q, 0, 0);
       && r.shards == sys.shards[s := Do(sys.shards[s], op).shard]
       && LinkOf(r, t, s) == Link(LinkOf(sys, t, s).reqs[1..], LinkOf(sys, t, s).resps + more)
       && (forall s' :: s' != s ==> LinkOf(r, t, s') == LinkOf(sys, t, s'))
       && (op.TryLockOp? ==> AnswersTo(Do(sys.shards[s], op).answers, t, more) && NoRepeats(more))
       && (!op.TryLockOp? && Do(sys.shards[s], op).answers == {} ==> ReportOf(sys.shards[s], op, more))
  }

  lemma ShardStep(dir: Key -> ShardId, init: map<Key, Value>, sys: System, t: Ticket, s: ShardId, q: Request, u: Ticket)
    returns (e: Event, more: seq<Response>)
    requires Sound(dir, init, sys) && s < |sys.shards| && Heads(LinkOf(sys, t, s), q) && u != t
    requires Enabled(sys.shards[s], OpOf(t, q, 0, 0))
    requires forall x :: x in Do(sys.shards[s], OpOf(t, q, 0, 0)).answers ==> x.ticket != u
    ensures Possible(sys, e) && e.AtShard? && e.ticket == t && e.shard == s
    ensures ServedTo(sys, t, s, q, more, After(dir, sys, e), u)
  {
    hide Sound, Do, Possible, After, ServedTo;
    e := RequestsAreServed(dir, init, sys, t, s);
    more := ServedBy(dir, sys, e, q, u);
  }

  lemma ServedBy(dir: Key -> ShardId, sys: System, e: Event, q: Request, u: Ticket) returns (more: seq<Response>)
    requires e.AtShard? && Possible(sys, e) && e.broker == 0 && e.callback == 0
             && Heads(LinkOf(sys, e.ticket, e.shard), q) && u != e.ticket
    requires forall x :: x in Do(sys.shards[e.shard], OpOf(e.ticket, q, 0, 0)).answers ==> x.ticket != u
    ensures ServedTo(sys, e.ticket, e.shard, q, more, After(dir, sys, e), u)
  {
    hide Do, AnswersTo, ReportOf, Sharded, Aside;
    var t := e.ticket;
    more := AnswersFor(e.answers, t) + e.report;
    assert EventOp(sys, e) == OpOf(t, q, 0, 0);
    ServedMore(sys, e, more);
    ServedAside(sys, e, u);
    ShardedFrame(sys, e);
    forall s' ensures s' != e.shard ==> LinkOf(Sharded(sys, e), t, s') == LinkOf(sys, t, s') {
      ShardedLinks(sys, e, t, s');
    }
    ShardedLinks(sys, e, t, e.shard);
  }

  /** What is sent back: answers to a lock request, a report on any other. */
  lemma ServedMore(sys: System, e: Event, more: seq<Response>)
    requires e.AtShard? && Possible(sys, e) && more == AnswersFor(e.answers, e.ticket) + e.report
    ensures var sh, op := sys.shards[e.shard], EventOp(sys, e);
            && (op.TryLockOp? ==> AnswersTo(Do(sh, op).answers, e.ticket, more) && NoRepeats(more))
            && (!op.TryLockOp? && Do(sh, op).answers == {} ==> ReportOf(sh, op, more))
  {
    hide Do, AnswersTo;
    var sh, op, answers := sys.shards[e.shard], EventOp(sys, e), AnswersFor(e.answers, e.ticket);
    NoneFor(Do(sh, op).answers, e.ticket, answers);
    assert e.report == [] ==> more == answers;
    assert answers == [] ==> more == e.report;
  }

  /** Nothing changes for a ticket that is not answered. */
  lemma ServedAside(sys: System, e: Event, u: Ticket)
    requires e.AtShard? && Possible(sys, e) && u != e.ticket
    requires forall x :: x in Do(sys.shards[e.shard], EventOp(sys, e)).answers ==> x.ticket != u
    ensures Aside(sys, Sharded(sys, e), u) && ClientAt(Sharded(sys, e), e.ticket) == ClientAt(sys, e.ticket)
  {
    hide Do, AnswersTo, ReportOf;
    NoneFor(Do(sys.shards[e.shard], EventOp(sys, e)).answers, u, AnswersFor(e.answers, u));
    forall s ensures LinkOf(Sharded(sys, e), u, s) == LinkOf(sys, u, s) { ShardedLinks(sys, e, u, s); }
  }

  lemma NoneFor(answers: set<Answer>, t: Ticket, more: seq<Response>)
    requires AnswersTo(answers, t, more)
    ensures more != [] ==> exists x :: x in answers && x.ticket == t
  {
    if more != [] {
      assert more[0] in more;
      var x :| x in answers && x.ticket == t && ResponseOf(x) == more[0];
    }
  }

  lemma OnlyAnswer(t: Ticket, k: Key, more: seq<Response>)
    requires AnswersTo({Granted(0, t, k, EMPTY)}, t, more) && NoRepeats(more)
    ensures more == [LockValue(k, EMPTY)]
  {
    var x := Granted(0, t, k, EMPTY);
    assert x in {x} && ResponseOf(x) in more;
    forall i | 0 <= i < |more| ensures more[i] == LockValue(k, EMPTY) { assert more[i] in more; }
    if |more| > 1 { NotTwice(more, 0, 1); }
  }

  lemma NotTwice(more: seq<Response>, i: nat, j: nat)
    requires NoRepeats(more) && i < j < |more|
    ensures more[i] != more[j]
  {
  }

  /** `r` is what the handling of the next response of shard `s` makes of `sys`. */
  ghost predicate AnsweredTo(sys: System, t: Ticket, s: ShardId, r: System, u: Ticket) {
    && t in sys.tickets && LinkOf(sys, t, s).resps != [] && r.shards == sys.shards && Aside(sys, r, u)
    && var step := Handle(sys.tickets[t], s, LinkOf(sys, t, s).resps[0]);
       && RecordOf(r, t) == step.state && ClientAt(r, t).update == ClientAt(sys, t).update
       && LinkOf(r, t, s) == Sent(Popped(LinkOf(sys, t, s)), step.sends, s)
       && forall s' :: s' != s ==> LinkOf(r, t, s') == Sent(LinkOf(sys, t, s'), step.sends, s')
  }

  lemma AnswerStep(dir: Key -> ShardId, sys: System, t: Ticket, s: ShardId, u: Ticket)
    requires t in sys.tickets && u != t && s < |sys.shards| && LinkOf(sys, t, s).resps != []
    ensures Possible(sys, AtBroker(t, s)) && AnsweredTo(sys, t, s, After(dir, sys, AtBroker(t, s)), u)
  {
    hide Brokered, Handle;
    var r, link := After(dir, sys, AtBroker(t, s)), LinkOf(sys, t, s);
    var m, step := Unread(sys, t, s), Receive(sys.tickets[t], s, link);
    var c := ClientOfResponse(ClientAt(sys, t), link.resps[0], step.reply);
    BrokeredFrame(m, t, step, c);
    forall s' ensures LinkOf(r, u, s') == LinkOf(sys, u, s')
      && LinkOf(r, t, s') == Sent(if s' == s then Popped(link) else LinkOf(sys, t, s'), step.sends, s') {
      BrokeredLinks(m, t, step, c, u, s');
      BrokeredLinks(m, t, step, c, t, s');
    }
  }

  lemma QuietValue(b: TicketState, s: ShardId, r: Response)
    requires r.LockValue?
    ensures Handle(b, s, r).sends == map[]
  {
  }

  // ---- Records of a ticket ----

  function Asked(k: Key, ty: LockType): ShardState { ShardState(map[k := KeyState(false, ty, None)], AtBegun) }

  function Got(k: Key, ty: LockType, p: ShardPhase): ShardState {
    ShardState(map[k := KeyState(true, ty, Some(EMPTY))], p)
  }

  /** The first lock that a ticket asks for, and the first at a further shard. */
  lemma AsksFirst(b: TicketState, s: ShardId, k: Key, ty: LockType)
    requires b.phase.InProgress? && s !in b.shards
    ensures BrokerSpec.TryLock(b, s, k, ty)
            == Step(Some(b.(shards := b.shards[s := Asked(k, ty)])), map[s := TryLockReq(k, ty, true)], NoReply)
  {
  }

  /** A stronger lock on a key whose first request is not answered yet. */
  lemma AsksAgain(b: TicketState, s: ShardId, k: Key)
    requires b.phase.InProgress? && s in b.shards && b.shards[s] == Asked(k, Read)
    ensures BrokerSpec.TryLock(b, s, k, Write)
            == Step(Some(b.(shards := b.shards[s := Asked(k, Write)])), map[s := TryLockReq(k, Write, false)], NoReply)
  {
    var st := b.shards[s];
    assert st.keys[k := KeyState(false, Write, None)] == Asked(k, Write).keys;
  }

  /** An answer is entered at the one key asked for. */
  lemma GotLock(b: TicketState, s: ShardId, k: Key, ty: LockType)
    requires s in b.shards && b.shards[s] == Asked(k, ty)
    ensures Handle(b, s, LockValue(k, EMPTY)).state == Some(b.(shards := b.shards[s := Got(k, ty, AtBegun)]))
  {
    var st := Asked(k, ty);
    assert st.keys[k := st.keys[k].(locked := true, value := Some(EMPTY))] == Got(k, ty, AtBegun).keys;
    assert b.shards[s := st] == b.shards;
  }

  /** Two shards that have given all locks are asked to prepare. */
  lemma CommitsEmpty(b: TicketState)
    requires b.phase.InProgress? && forall s :: s in b.shards ==> exists k, ty :: b.shards[s] == Got(k, ty, AtBegun)
    ensures var step := BrokerSpec.Commit(b, map[]);
            && step.state == Some(Advance(b, AtPrepared, Preparing)) && step.reply.NoReply?
            && step.sends == map s | s in b.shards :: PrepareReq(map[])
  {
    forall s | s in b.shards ensures Part(map[], b.shards[s]) == map[] && b.shards[s].phase.AtBegun? {}
    assert !BrokerSpec.Waiting(b);
  }
}
