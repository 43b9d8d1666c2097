/** Many clients, brokers and shards together: one ticket's broker record per ticket, a link
    per ticket and shard, and any interleaving of client requests and message deliveries. */
module Systems {
  import opened Basics
  import opened LockTable
  import opened ShardSpec
  import opened ShardSteps
  import opened ShardRuns
  import opened BrokerSpec
  import opened Links
  import opened BrokerLinks
  import opened ShardLinks

  /** `lost` holds the tickets whose broker crashed. `order` lists the tickets in the order in
      which their brokers decided to commit them. */
  datatype System = System(
    tickets: map<Ticket, TicketState>, lost: set<Ticket>, clients: map<Ticket, Client>, shards: seq<Shard>,
    links: map<(Ticket, ShardId), Link>, order: seq<Txn>)

  function RecordOf(sys: System, t: Ticket): Option<TicketState> {
    if t in sys.tickets then Some(sys.tickets[t]) else None
  }

  function ClientAt(sys: System, t: Ticket): Client { if t in sys.clients then sys.clients[t] else NEW_CLIENT }

  function LinkOf(sys: System, t: Ticket, s: ShardId): Link { if (t, s) in sys.links then sys.links[(t, s)] else IDLE }

  predicate InOrder(order: seq<Txn>, t: Ticket) { exists i :: 0 <= i < |order| && order[i].ticket == t }

  datatype Event =
    | Begin(ticket: Ticket)
    | AskLock(ticket: Ticket, key: Key, lockType: LockType)
    | AskCommit(ticket: Ticket, update: map<Key, Value>)
    | AskRollback(ticket: Ticket)
    | AskFinish(ticket: Ticket)
    /** A shard handles the next request of a ticket; `answers` are its responses to lock
        requests of any ticket, `report` the response to the request itself. */
    | AtShard(ticket: Ticket, shard: ShardId, broker: nat, callback: nat, answers: map<Ticket, seq<Response>>,
      report: seq<Response>)
    /** A broker handles the next response of a shard. */
    | AtBroker(ticket: Ticket, shard: ShardId)
    /** The broker of a ticket crashes; whatever is still under way is dropped. */
    | Crash(ticket: Ticket)
    /** A fresh broker takes up a ticket that shards report. */
    | TakeUp(ticket: Ticket, reports: map<ShardId, Phase>)

  function AnswersFor(answers: map<Ticket, seq<Response>>, t: Ticket): seq<Response> {
    if t in answers then answers[t] else []
  }

  /** The operation of a shard event, once there is a request to handle. */
  function EventOp(sys: System, e: Event): Op
    requires e.AtShard? && LinkOf(sys, e.ticket, e.shard).reqs != []
  {
    OpOf(e.ticket, LinkOf(sys, e.ticket, e.shard).reqs[0], e.broker, e.callback)
  }

  /** What may happen next. Ticket numbers are handed out once; a client does not lock or
      commit while its ticket rolls back, and does not change the update it asked to commit. */
  ghost predicate Possible(sys: System, e: Event) {
    match e
    case Begin(t) => t !in sys.clients
    case AskLock(t, _, _) => t in sys.tickets && (sys.tickets[t].phase.InProgress? ==> Calm(sys.tickets[t]))
    case AskCommit(t, update) => t in sys.tickets && MayCommit(sys.tickets[t], ClientAt(sys, t), update)
    case AskRollback(t) => t in sys.tickets
    case AskFinish(t) => t in sys.tickets
    case AtShard(t, s, _, _, answers, report) =>
      && s < |sys.shards| && LinkOf(sys, t, s).reqs != []
      && Enabled(sys.shards[s], EventOp(sys, e))
      && (forall t' :: AnswersTo(Do(sys.shards[s], EventOp(sys, e)).answers, t', AnswersFor(answers, t')))
      && (forall t' :: NoRepeats(AnswersFor(answers, t')))
      && ReportOf(sys.shards[s], EventOp(sys, e), report)
    case AtBroker(t, s) => s < |sys.shards| && LinkOf(sys, t, s).resps != []
    case Crash(t) => t in sys.tickets
    case TakeUp(t, reports) => t in sys.lost && reports != map[] && Reported(sys, t, reports)
  }

  /** The shards that know a ticket report its phase. A shard reports on its own, so that a
      ticket reported as begun may have been wounded since. */
  ghost predicate Reported(sys: System, t: Ticket, reports: map<ShardId, Phase>) {
    && (forall s :: 0 <= s < |sys.shards| && t in sys.shards[s].tickets ==> s in reports)
    && (forall s :: s in reports ==>
          s < |sys.shards|
            && (Has(sys.shards[s], t, reports[s]) || (reports[s].Begun? && Has(sys.shards[s], t, Wounded))))
  }

  /** The broker has decided to commit. */
  predicate Decided(b: Option<TicketState>) { b.Some? && (b.value.phase.AllPrepared? || b.value.phase.AllCommitted?) }

  function Writes(c: Client): map<Key, Value> { if c.update.Some? then c.update.value else map[] }

  /** The system after the broker of `t` made a step. */
  function Brokered(sys: System, t: Ticket, step: Step, c: Client): System {
    System(
      if step.state.Some? then sys.tickets[t := step.state.value] else sys.tickets - {t},
      sys.lost,
      sys.clients[t := c],
      sys.shards,
      sys.links + map s | s in step.sends :: (t, s) := Sent(LinkOf(sys, t, s), step.sends, s),
      if t in sys.tickets && !Decided(RecordOf(sys, t)) && Decided(step.state)
        then sys.order + [Txn(t, c.told, Writes(c))] else sys.order)
  }

  function Unread(sys: System, t: Ticket, s: ShardId): System
    requires LinkOf(sys, t, s).resps != []
  {
    sys.(links := sys.links[(t, s) := Popped(LinkOf(sys, t, s))])
  }

  function Sharded(sys: System, e: Event): System
    requires e.AtShard? && e.shard < |sys.shards| && LinkOf(sys, e.ticket, e.shard).reqs != []
    requires Enabled(sys.shards[e.shard], EventOp(sys, e))
  {
    var s := e.shard;
    var answered := map t | t in e.answers ::
      (t, s) := LinkOf(sys, t, s).(resps := LinkOf(sys, t, s).resps + e.answers[t]);
    var own := Served(LinkOf(sys, e.ticket, s), AnswersFor(e.answers, e.ticket) + e.report);
    sys.(shards := sys.shards[s := Do(sys.shards[s], EventOp(sys, e)).shard],
         links := (sys.links + answered)[(e.ticket, s) := own])
  }

  /** A decision that no shard has acted on yet. */
  predicate Idled(sys: System, t: Ticket) {
    && Decided(RecordOf(sys, t)) && (exists sh :: sh in sys.shards && Has(sh, t, Prepared))
    && forall sh :: sh in sys.shards ==> !Has(sh, t, Committed)
  }

  function WithoutTicket(order: seq<Txn>, t: Ticket): seq<Txn> {
    if order == [] then []
    else
      var front, last := order[..|order| - 1], order[|order| - 1];
      if last.ticket == t then WithoutTicket(front, t) else WithoutTicket(front, t) + [last]
  }

  function Unlinked(sys: System, t: Ticket): System {
    sys.(links := map x | x in sys.links && x.0 != t :: sys.links[x])
  }

  /** The system after the crash of the broker of `t`. A decision that no shard has acted on is lost. */
  function Crashed(sys: System, t: Ticket): System {
    var kept := Decided(RecordOf(sys, t)) && !Idled(sys, t);
    Unlinked(sys, t).(
      tickets := sys.tickets - {t},
      lost := sys.lost + {t},
      clients := if kept then sys.clients else sys.clients[t := NEW_CLIENT],
      order := if kept then sys.order else WithoutTicket(sys.order, t))
  }

  ghost function After(dir: Key -> ShardId, sys: System, e: Event): System
    requires Possible(sys, e)
  {
    match e
    case Begin(t) => sys.(tickets := sys.tickets[t := NEW_STATE], clients := sys.clients[t := NEW_CLIENT])
    case AskLock(t, k, ty) =>
      var b, step := sys.tickets[t], BrokerSpec.TryLock(sys.tickets[t], dir(k), k, ty);
      Brokered(sys, t, step, Told(ClientOfLock(b, ClientAt(sys, t)), k, step.reply))
    case AskCommit(t, update) =>
      Brokered(sys, t, BrokerSpec.Commit(sys.tickets[t], update),
        ClientOfCommit(sys.tickets[t], ClientAt(sys, t), update))
    case AskRollback(t) => Brokered(sys, t, BrokerSpec.Rollback(sys.tickets[t]), ClientAt(sys, t))
    case AskFinish(t) => Brokered(sys, t, BrokerSpec.Finish(sys.tickets[t]), ClientAt(sys, t))
    case AtShard(_, _, _, _, _, _) => Sharded(sys, e)
    case AtBroker(t, s) =>
      if t !in sys.tickets then Unread(sys, t, s)
      else
        var link := LinkOf(sys, t, s);
        var step := Receive(sys.tickets[t], s, link);
        Brokered(Unread(sys, t, s), t, step, ClientOfResponse(ClientAt(sys, t), link.resps[0], step.reply))
    case Crash(t) => Crashed(sys, t)
    case TakeUp(t, reports) =>
      Brokered(Unlinked(sys, t).(lost := sys.lost - {t}), t, BrokerSpec.Recover(reports), ClientAt(sys, t))
  }

  // ---- The invariant ----

  /** The link of a lost ticket. Its requests are dropped, and responses to it are ignored. */
  ghost predicate LostLink(t: Ticket, sh: Shard, link: Link, decided: bool) {
    link.reqs == [] && if decided then !Has(sh, t, Begun) && !Has(sh, t, Wounded) else !Has(sh, t, Committed)
  }

  /** A lost ticket that some shard holds prepared after it was decided: another shard has
      committed it, and every shard it concerns still knows it. */
  ghost predicate Whole(dir: Key -> ShardId, sys: System, t: Ticket) {
    var c := ClientAt(sys, t);
    && c.update.Some?
    && (exists sh :: sh in sys.shards && Has(sh, t, Committed))
    && (forall s :: 0 <= s < |sys.shards| && t in sys.shards[s].tickets ==>
          sys.shards[s].tickets[t].update == Share(dir, c.update.value, s))
    && (forall k, v :: (k, v) in c.told ==> dir(k) < |sys.shards| && t in sys.shards[dir(k)].tickets)
    && (forall k :: k in c.update.value ==> dir(k) < |sys.shards| && t in sys.shards[dir(k)].tickets)
  }

  ghost predicate LostOk(dir: Key -> ShardId, sys: System, t: Ticket) {
    t in sys.lost ==>
      && t !in sys.tickets && t in sys.clients
      && (InOrder(sys.order, t) && (exists sh :: sh in sys.shards && Has(sh, t, Prepared)) ==> Whole(dir, sys, t))
      && (!InOrder(sys.order, t) ==> ClientAt(sys, t) == NEW_CLIENT)
  }

  ghost predicate LinkFits(dir: Key -> ShardId, sys: System, t: Ticket, s: ShardId)
    requires s < |sys.shards|
  {
    if t in sys.lost then LostLink(t, sys.shards[s], LinkOf(sys, t, s), InOrder(sys.order, t))
    else LinkInv(dir, RecordOf(sys, t), ClientAt(sys, t), t, s, sys.shards[s], LinkOf(sys, t, s))
  }

  ghost predicate LinkOk(dir: Key -> ShardId, sys: System, t: Ticket, s: ShardId) {
    && HomeReqs(dir, LinkOf(sys, t, s).reqs, s)
    && (t !in sys.clients ==> LinkOf(sys, t, s) == IDLE)
    && (s < |sys.shards| ==> LinkFits(dir, sys, t, s))
  }

  ghost predicate RecordOk(dir: Key -> ShardId, sys: System, t: Ticket) {
    t in sys.tickets ==>
      t !in sys.lost && t in sys.clients && TracksOwn(dir, sys.tickets[t])
        && TicketInv(dir, sys.tickets[t], sys.clients[t])
  }

  ghost predicate ShardOk(dir: Key -> ShardId, sys: System, s: ShardId) {
    s < |sys.shards| ==> Inv(sys.shards[s]) && AtHome(dir, sys.shards[s], s)
  }

  ghost predicate CellOk(dir: Key -> ShardId, sys: System, t: Ticket, s: ShardId) {
    RecordOk(dir, sys, t) && LostOk(dir, sys, t) && LinkOk(dir, sys, t, s)
  }

  ghost predicate Wired(dir: Key -> ShardId, sys: System) {
    (forall s :: ShardOk(dir, sys, s)) && forall t, s :: CellOk(dir, sys, t, s)
  }

  /** What one broker step must guarantee about its own ticket. */
  ghost predicate GoodStep(dir: Key -> ShardId, sys: System, t: Ticket, step: Step, c: Client) {
    && (step.state.Some? ==> TracksOwn(dir, step.state.value) && TicketInv(dir, step.state.value, c))
    && (forall s :: s in step.sends && step.sends[s].TryLockReq? ==> dir(step.sends[s].key) == s)
    && (forall s: ShardId :: s < |sys.shards| ==>
          LinkInv(dir, step.state, c, t, s, sys.shards[s], Sent(LinkOf(sys, t, s), step.sends, s)))
  }

  lemma BrokeredLinks(sys: System, t: Ticket, step: Step, c: Client, t': Ticket, s: ShardId)
    ensures LinkOf(Brokered(sys, t, step, c), t', s) == if t' == t then Sent(LinkOf(sys, t, s), step.sends, s)
            else LinkOf(sys, t', s)
  {
  }

  /** Everything is in order but for the ticket `t`. */
  ghost predicate WiredBut(dir: Key -> ShardId, sys: System, t: Ticket) {
    && (forall s :: ShardOk(dir, sys, s))
    && (forall t', s :: t' != t ==> CellOk(dir, sys, t', s))
    && forall s :: HomeReqs(dir, LinkOf(sys, t, s).reqs, s)
  }

  /** Another ticket is in order when nothing about it has changed. */
  ghost predicate Untouched(sys: System, r: System, t: Ticket) {
    && RecordOf(r, t) == RecordOf(sys, t) && ClientAt(r, t) == ClientAt(sys, t)
    && (t in r.lost <==> t in sys.lost) && (t in r.clients <==> t in sys.clients)
          && (t in r.tickets <==> t in sys.tickets)
    && (InOrder(r.order, t) <==> InOrder(sys.order, t))
    && forall s :: LinkOf(r, t, s) == LinkOf(sys, t, s)
  }

  lemma OtherKept(dir: Key -> ShardId, sys: System, r: System, t: Ticket, s: ShardId)
    requires r.shards == sys.shards && Untouched(sys, r, t) && CellOk(dir, sys, t, s)
    ensures CellOk(dir, r, t, s)
  {
    hide LinkInv, Inv, TicketInv, TracksOwn, InOrder;
  }

  lemma ShardsKept(dir: Key -> ShardId, sys: System, r: System)
    requires (forall s :: ShardOk(dir, sys, s)) && r.shards == sys.shards
    ensures forall s :: ShardOk(dir, r, s)
  {
    hide Inv;
    forall s ensures ShardOk(dir, r, s) { assert ShardOk(dir, sys, s); }
  }

  lemma InOrderGrows(order: seq<Txn>, x: Txn, t: Ticket)
    ensures InOrder(order + [x], t) <==> InOrder(order, t) || t == x.ticket
  {
    var r := order + [x];
    if InOrder(order, t) {
      var i :| 0 <= i < |order| && order[i].ticket == t;
      assert r[i].ticket == t;
    }
    assert r[|order|] == x;
  }

  lemma BrokeredOther(sys: System, t: Ticket, step: Step, c: Client, t': Ticket)
    requires t' != t
    ensures Untouched(sys, Brokered(sys, t, step, c), t')
  {
    hide InOrder;
    BrokeredFrame(sys, t, step, c);
    InOrderGrows(sys.order, Txn(t, c.told, Writes(c)), t');
    forall s ensures LinkOf(Brokered(sys, t, step, c), t', s)
      == LinkOf(sys, t', s) { BrokeredLinks(sys, t, step, c, t', s); }
  }

  /** A broker step keeps the records and links of all tickets in order when it keeps its own. */
  lemma BrokeredWired(dir: Key -> ShardId, sys: System, t: Ticket, step: Step, c: Client)
    requires WiredBut(dir, sys, t) && t !in sys.lost && GoodStep(dir, sys, t, step, c)
    ensures Wired(dir, Brokered(sys, t, step, c))
  {
    var r := Brokered(sys, t, step, c);
    hide LinkInv, Inv, TicketInv, TracksOwn, Brokered, InOrder;
    BrokeredFrame(sys, t, step, c);
    ShardsKept(dir, sys, r);
    forall t', s ensures CellOk(dir, r, t', s) {
      BrokeredLinks(sys, t, step, c, t', s);
      if t' != t {
        BrokeredOther(sys, t, step, c, t');
        OtherKept(dir, sys, r, t', s);
      } else {
        assert HomeReqs(dir, LinkOf(sys, t, s).reqs, s);
      }
    }
  }

  lemma BrokeredFrame(sys: System, t: Ticket, step: Step, c: Client)
    ensures var r := Brokered(sys, t, step, c);
            && r.shards == sys.shards && r.lost == sys.lost
            && RecordOf(r, t) == step.state && t in r.clients && ClientAt(r, t) == c
            && (forall t' :: t' != t ==>
                  RecordOf(r, t') == RecordOf(sys, t')
                  && (t' in r.tickets <==> t' in sys.tickets)
                                         && ClientAt(r, t') == ClientAt(sys, t')
                                              && (t' in r.clients <==> t' in sys.clients))
  {
  }

  // ---- Events at a broker ----

  lemma AskLockGood(dir: Key -> ShardId, sys: System, t: Ticket, k: Key, ty: LockType)
    requires Wired(dir, sys) && Possible(sys, AskLock(t, k, ty))
    ensures var b, step := sys.tickets[t], BrokerSpec.TryLock(sys.tickets[t], dir(k), k, ty);
            GoodStep(dir, sys, t, step, Told(ClientOfLock(b, ClientAt(sys, t)), k, step.reply))
  {
    var b, c := sys.tickets[t], ClientAt(sys, t);
    var step := BrokerSpec.TryLock(b, dir(k), k, ty);
    assert CellOk(dir, sys, t, 0);
    AskLockTicket(dir, b, c, k, ty);
    forall s: ShardId | s < |sys.shards|
      ensures LinkInv(dir, step.state, Told(ClientOfLock(b, c), k, step.reply), t, s, sys.shards[s],
              Sent(LinkOf(sys, t, s), step.sends, s))
    {
      hide LinkInv, TicketInv, BrokerSpec.TryLock;
      assert CellOk(dir, sys, t, s);
      if s == dir(k) {
        AskLockOwn(dir, b, c, t, sys.shards[s], LinkOf(sys, t, s), k, ty);
      } else {
        AskLockOther(dir, b, c, t, s, sys.shards[s], LinkOf(sys, t, s), k, ty);
      }
    }
  }

  lemma AskCommitGood(dir: Key -> ShardId, sys: System, t: Ticket, update: map<Key, Value>)
    requires Wired(dir, sys) && Possible(sys, AskCommit(t, update))
    ensures GoodStep(dir, sys, t, BrokerSpec.Commit(sys.tickets[t], update),
            ClientOfCommit(sys.tickets[t], ClientAt(sys, t), update))
  {
    var b, c := sys.tickets[t], ClientAt(sys, t);
    var step := BrokerSpec.Commit(b, update);
    assert CellOk(dir, sys, t, 0);
    AskCommitTicket(dir, b, c, update);
    CommitTracks(dir, b, update);
    hide LinkInv, TicketInv, BrokerSpec.Commit, MayCommit, TracksOwn, ClientOfCommit;
    forall s: ShardId | s < |sys.shards|
      ensures LinkInv(dir, step.state, ClientOfCommit(b, c, update), t, s, sys.shards[s],
              Sent(LinkOf(sys, t, s), step.sends, s))
    {
      assert CellOk(dir, sys, t, s);
      AskCommitLink(dir, b, c, t, s, sys.shards[s], LinkOf(sys, t, s), update);
    }
  }

  lemma CommitTracks(dir: Key -> ShardId, b: TicketState, update: map<Key, Value>)
    requires TracksOwn(dir, b)
    ensures var step := BrokerSpec.Commit(b, update);
            && step.state.Some? && TracksOwn(dir, step.state.value)
            && forall s :: s in step.sends ==> !step.sends[s].TryLockReq?
  {
  }

  lemma AskRollbackGood(dir: Key -> ShardId, sys: System, t: Ticket)
    requires Wired(dir, sys) && Possible(sys, AskRollback(t))
    ensures GoodStep(dir, sys, t, BrokerSpec.Rollback(sys.tickets[t]), ClientAt(sys, t))
  {
    var b, c := sys.tickets[t], ClientAt(sys, t);
    var step := BrokerSpec.Rollback(b);
    assert CellOk(dir, sys, t, 0);
    AskRollbackTicket(dir, b, c);
    forall s: ShardId | s < |sys.shards|
      ensures LinkInv(dir, step.state, c, t, s, sys.shards[s], Sent(LinkOf(sys, t, s), step.sends, s))
    {
      hide LinkInv, TicketInv, BrokerSpec.Rollback;
      assert CellOk(dir, sys, t, s);
      AskRollbackLink(dir, b, c, t, s, sys.shards[s], LinkOf(sys, t, s));
    }
  }

  lemma AskFinishGood(dir: Key -> ShardId, sys: System, t: Ticket)
    requires Wired(dir, sys) && Possible(sys, AskFinish(t))
    ensures GoodStep(dir, sys, t, BrokerSpec.Finish(sys.tickets[t]), ClientAt(sys, t))
  {
    var b, c := sys.tickets[t], ClientAt(sys, t);
    var step := BrokerSpec.Finish(b);
    assert CellOk(dir, sys, t, 0);
    AskFinishTicket(dir, b, c);
    forall s: ShardId | s < |sys.shards|
      ensures LinkInv(dir, step.state, c, t, s, sys.shards[s], Sent(LinkOf(sys, t, s), step.sends, s))
    {
      hide LinkInv, TicketInv, BrokerSpec.Finish;
      assert CellOk(dir, sys, t, s);
      AskFinishLink(dir, b, c, t, s, sys.shards[s], LinkOf(sys, t, s));
    }
  }

  lemma HandleTracks(dir: Key -> ShardId, b: TicketState, s: ShardId, r: Response)
    requires TracksOwn(dir, b)
    ensures var step := Handle(b, s, r);
            && (step.state.Some? ==> TracksOwn(dir, step.state.value))
            && forall s' :: s' in step.sends ==> !step.sends[s'].TryLockReq?
  {
  }

  /** The link of another shard is the same before and after the response is taken off. */
  lemma ReceiveGood(dir: Key -> ShardId, sys: System, t: Ticket, s0: ShardId)
    requires Wired(dir, sys) && Possible(sys, AtBroker(t, s0)) && t in sys.tickets
    ensures var link := LinkOf(sys, t, s0);
            var step := Receive(sys.tickets[t], s0, link);
            GoodStep(dir, Unread(sys, t, s0), t, step, ClientOfResponse(ClientAt(sys, t), link.resps[0], step.reply))
  {
    hide LinkInv, TicketInv, TracksOwn, Handle;
    var b, c, link0 := sys.tickets[t], ClientAt(sys, t), LinkOf(sys, t, s0);
    var r := link0.resps[0];
    var step := Receive(b, s0, link0);
    var c' := ClientOfResponse(c, r, step.reply);
    assert CellOk(dir, sys, t, s0);
    ReceiveTicket(dir, b, c, t, s0, sys.shards[s0], link0);
    HandleTracks(dir, b, s0, r);
    forall s: ShardId | s < |sys.shards|
      ensures LinkInv(dir, step.state, c', t, s, sys.shards[s], Sent(LinkOf(Unread(sys, t, s0), t, s), step.sends, s))
    {
      assert CellOk(dir, sys, t, s);
      if s == s0 {
        ReceiveOwn(dir, b, c, t, s, sys.shards[s], link0);
      } else {
        ReceiveOther(dir, b, c, t, s0, sys.shards[s0], link0, s, sys.shards[s], LinkOf(sys, t, s));
      }
    }
  }

  /** Forgotten tickets: whatever still arrives is dropped. */
  lemma UnreadWired(dir: Key -> ShardId, sys: System, t: Ticket, s: ShardId)
    requires Wired(dir, sys) && Possible(sys, AtBroker(t, s)) && t !in sys.tickets
    ensures Wired(dir, Unread(sys, t, s))
  {
    var r := Unread(sys, t, s);
    hide Inv, TicketInv, TracksOwn, InOrder;
    ShardsKept(dir, sys, r);
    forall t', s' ensures CellOk(dir, r, t', s') { assert CellOk(dir, sys, t', s'); }
  }

  // ---- Events at a shard ----

  lemma ShardedLinks(sys: System, e: Event, t: Ticket, s: ShardId)
    requires e.AtShard? && e.shard < |sys.shards| && LinkOf(sys, e.ticket, e.shard).reqs != []
    requires Enabled(sys.shards[e.shard], EventOp(sys, e))
    ensures LinkOf(Sharded(sys, e), t, s) ==
            if s != e.shard then LinkOf(sys, t, s)
            else if t == e.ticket then Served(LinkOf(sys, t, s), AnswersFor(e.answers, t) + e.report)
            else LinkOf(sys, t, s).(resps := LinkOf(sys, t, s).resps + AnswersFor(e.answers, t))
  {
    hide Do;
    assert LinkOf(sys, t, s).resps + [] == LinkOf(sys, t, s).resps;
  }

  /** A ticket without a record is not known to the shards, so nothing is answered to it. */
  lemma UnknownUnanswered(dir: Key -> ShardId, sys: System, e: Event, t: Ticket)
    requires Wired(dir, sys) && e.AtShard? && Possible(sys, e) && t !in sys.clients
    ensures t != e.ticket && AnswersFor(e.answers, t) == []
  {
    hide Do, Inv;
    assert CellOk(dir, sys, t, e.shard) && CellOk(dir, sys, e.ticket, e.shard);
    assert ShardOk(dir, sys, e.shard);
    var more, op := AnswersFor(e.answers, t), EventOp(sys, e);
    if more != [] {
      OthersAnswers(dir, sys.shards[e.shard], op, t, e.shard, more);
    }
  }

  /** What a shard step leaves of a lost ticket. */
  lemma ShardedLost(dir: Key -> ShardId, sys: System, e: Event, t: Ticket)
    requires Wired(dir, sys) && e.AtShard? && Possible(sys, e) && t in sys.lost
    ensures t != e.ticket && Bystander(sys.shards[e.shard], Do(sys.shards[e.shard], EventOp(sys, e)).shard, t)
  {
    hide Inv, AnswersTo, ReportOf, Do, InOrder;
    assert CellOk(dir, sys, t, e.shard) && ShardOk(dir, sys, e.shard);
    OthersAreBystanders(sys.shards[e.shard], EventOp(sys, e), t);
  }

  lemma ShardedLostOk(dir: Key -> ShardId, sys: System, e: Event, t: Ticket)
    requires Wired(dir, sys) && e.AtShard? && Possible(sys, e)
    ensures LostOk(dir, Sharded(sys, e), t)
  {
    hide Inv, AnswersTo, ReportOf, Do, InOrder, Enabled;
    var r := Sharded(sys, e);
    assert CellOk(dir, sys, t, 0);
    if t in sys.lost && InOrder(sys.order, t) {
      ShardedLost(dir, sys, e, t);
      assert CellOk(dir, sys, t, e.shard);
      assert forall s :: 0 <= s < |sys.shards| ==> (t in sys.shards[s].tickets <==> t in r.shards[s].tickets);
      assert forall s :: 0 <= s < |sys.shards| && t in sys.shards[s].tickets ==>
        r.shards[s].tickets[t] == sys.shards[s].tickets[t];
      LostShardsKept(dir, sys, r, t);
    }
  }

  lemma LostShardsKept(dir: Key -> ShardId, sys: System, r: System, t: Ticket)
    requires |r.shards| == |sys.shards| && r.lost == sys.lost && r.tickets == sys.tickets && r.clients == sys.clients
             && r.order == sys.order
    requires forall s :: 0 <= s < |sys.shards| ==> (t in sys.shards[s].tickets <==> t in r.shards[s].tickets)
    requires forall s :: 0 <= s < |sys.shards| && t in sys.shards[s].tickets ==>
             r.shards[s].tickets[t] == sys.shards[s].tickets[t]
    requires LostOk(dir, sys, t)
    ensures LostOk(dir, r, t)
  {
    hide InOrder;
    if exists sh :: sh in r.shards && Has(sh, t, Prepared) {
      var s :| 0 <= s < |r.shards| && Has(r.shards[s], t, Prepared);
      assert sys.shards[s] in sys.shards && Has(sys.shards[s], t, Prepared);
    }
    if exists sh :: sh in sys.shards && Has(sh, t, Committed) {
      var s :| 0 <= s < |sys.shards| && Has(sys.shards[s], t, Committed);
      assert r.shards[s] in r.shards && Has(r.shards[s], t, Committed);
    }
  }

  lemma ShardedWired(dir: Key -> ShardId, sys: System, e: Event)
    requires Wired(dir, sys) && e.AtShard? && Possible(sys, e)
    ensures Wired(dir, Sharded(sys, e))
  {
    var r, s, op := Sharded(sys, e), e.shard, EventOp(sys, e);
    hide LinkInv, Inv, TicketInv, TracksOwn, Do, AnswersTo, ReportOf, Enabled, InOrder, LostOk, LinkOk;
    ShardedShard(dir, sys, e);
    forall s' ensures ShardOk(dir, r, s') { assert ShardOk(dir, sys, s'); }
    forall t, s' ensures CellOk(dir, r, t, s') {
      assert CellOk(dir, sys, t, 0);
      ShardedLostOk(dir, sys, e, t);
      ShardedLinkOk(dir, sys, e, t, s');
    }
  }

  lemma ShardedShard(dir: Key -> ShardId, sys: System, e: Event)
    requires Wired(dir, sys) && e.AtShard? && Possible(sys, e)
    ensures ShardOk(dir, Sharded(sys, e), e.shard)
  {
    hide LinkInv, Inv, Do, AnswersTo, ReportOf, Enabled, InOrder;
    var s, op := e.shard, EventOp(sys, e);
    assert ShardOk(dir, sys, s) && CellOk(dir, sys, e.ticket, s);
    ServedRequests(LinkOf(sys, e.ticket, s));
    StepKeepsInv(sys.shards[s], op);
    StepAtHome(dir, sys.shards[s], s, op);
  }

  lemma ShardedLinkOk(dir: Key -> ShardId, sys: System, e: Event, t: Ticket, s: ShardId)
    requires Wired(dir, sys) && e.AtShard? && Possible(sys, e)
    ensures LinkOk(dir, Sharded(sys, e), t, s)
  {
    hide LinkInv, Inv, TicketInv, TracksOwn, Do, AnswersTo, ReportOf, Enabled, InOrder;
    assert CellOk(dir, sys, t, s);
    ShardedLinks(sys, e, t, s);
    if t !in sys.clients { UnknownUnanswered(dir, sys, e, t); }
    if s == e.shard {
      if t in sys.lost {
        ShardedLost(dir, sys, e, t);
      } else {
        ShardedLink(dir, sys, e, t);
      }
    }
  }

  lemma ShardedLink(dir: Key -> ShardId, sys: System, e: Event, t: Ticket)
    requires Wired(dir, sys) && e.AtShard? && Possible(sys, e) && t !in sys.lost
    ensures LinkInv(dir, RecordOf(sys, t), ClientAt(sys, t), t, e.shard,
            Do(sys.shards[e.shard], EventOp(sys, e)).shard, LinkOf(Sharded(sys, e), t, e.shard))
    ensures HomeReqs(dir, LinkOf(Sharded(sys, e), t, e.shard).reqs, e.shard)
  {
    hide LinkInv, Inv, TicketInv, TracksOwn, Do, ReportOf, Enabled, InOrder;
    var s, op, b, c := e.shard, EventOp(sys, e), RecordOf(sys, t), ClientAt(sys, t);
    var sh, link, more := sys.shards[s], LinkOf(sys, t, s), AnswersFor(e.answers, t);
    assert AnswersTo(Do(sh, op).answers, t, more);
    hide AnswersTo;
    ShardedLinks(sys, e, t, s);
    assert ShardOk(dir, sys, s) && CellOk(dir, sys, t, s);
    if t == e.ticket {
      ServeOwn(dir, b, c, t, s, sh, link, op, more, e.report);
      ServedRequests(link);
    } else {
      ServeOther(dir, b, c, t, s, sh, link, op, more);
    }
  }

  // ---- Crash and recovery of a broker ----

  lemma {:induction false} InOrderWithout(order: seq<Txn>, t: Ticket, t': Ticket)
    ensures InOrder(WithoutTicket(order, t), t') <==> InOrder(order, t') && t' != t
  {
    if order != [] {
      var front, last := order[..|order| - 1], order[|order| - 1];
      InOrderWithout(front, t, t');
      assert order == front + [last];
      InOrderGrows(front, last, t');
      InOrderGrows(WithoutTicket(front, t), last, t');
    }
  }

  lemma UnlinkedLinks(sys: System, t: Ticket, t': Ticket, s: ShardId)
    ensures LinkOf(Unlinked(sys, t), t', s) == if t' == t then IDLE else LinkOf(sys, t', s)
  {
  }

  /** What a crash leaves at one shard. */
  lemma CrashLink(dir: Key -> ShardId, b: TicketState, c: Client, t: Ticket, s: ShardId, sh: Shard, link: Link)
    requires TicketInv(dir, b, c) && LinkInv(dir, Some(b), c, t, s, sh, link)
    ensures if Decided(Some(b)) then !Has(sh, t, Begun) && !Has(sh, t, Wounded) else !Has(sh, t, Committed)
    ensures Decided(Some(b)) && Has(sh, t, Prepared) ==> b.phase.AllPrepared?
    ensures b.phase.AllPrepared? ==> (s in b.shards <==> t in sh.tickets) && c.update.Some?
    ensures b.phase.AllPrepared? && t in sh.tickets ==> sh.tickets[t].update == Share(dir, c.update.value, s)
  {
  }

  lemma CrashWhole(dir: Key -> ShardId, sys: System, t: Ticket)
    requires Wired(dir, sys) && t in sys.tickets && Decided(RecordOf(sys, t)) && !Idled(sys, t)
    requires exists sh :: sh in sys.shards && Has(sh, t, Prepared)
    requires forall k :: dir(k) < |sys.shards|
    ensures Whole(dir, sys, t)
  {
    hide LinkInv, Inv, TracksOwn, InOrder;
    var b, c := sys.tickets[t], ClientAt(sys, t);
    assert CellOk(dir, sys, t, 0);
    forall s: ShardId | s < |sys.shards|
      ensures Has(sys.shards[s], t, Prepared) ==> b.phase.AllPrepared?
      ensures b.phase.AllPrepared? ==> (s in b.shards <==> t in sys.shards[s].tickets) && c.update.Some?
      ensures b.phase.AllPrepared? && t in sys.shards[s].tickets ==>
              sys.shards[s].tickets[t].update == Share(dir, c.update.value, s)
    {
      assert CellOk(dir, sys, t, s);
      CrashLink(dir, b, c, t, s, sys.shards[s], LinkOf(sys, t, s));
    }
    var s0 :| 0 <= s0 < |sys.shards| && Has(sys.shards[s0], t, Prepared);
    assert b.phase.AllPrepared?;
  }

  lemma CrashWired(dir: Key -> ShardId, sys: System, t: Ticket)
    requires Wired(dir, sys) && t in sys.tickets && (Decided(RecordOf(sys, t)) ==> InOrder(sys.order, t))
    requires forall k :: dir(k) < |sys.shards|
    ensures Wired(dir, Crashed(sys, t))
  {
    var r := Crashed(sys, t);
    hide LinkInv, Inv, TicketInv, TracksOwn, InOrder, Idled, WithoutTicket, Whole;
    ShardsKept(dir, sys, r);
    assert CellOk(dir, sys, t, 0);
    forall t', s ensures CellOk(dir, r, t', s) {
      if t' != t {
        assert Untouched(sys, r, t') by {
          InOrderWithout(sys.order, t, t');
          forall s ensures LinkOf(r, t', s) == LinkOf(sys, t', s) { UnlinkedLinks(sys, t, t', s); }
        }
        assert CellOk(dir, sys, t', s);
        OtherKept(dir, sys, r, t', s);
      } else {
        CrashedTicket(dir, sys, t, s);
      }
    }
  }

  lemma CrashedTicket(dir: Key -> ShardId, sys: System, t: Ticket, s: ShardId)
    requires Wired(dir, sys) && t in sys.tickets && (Decided(RecordOf(sys, t)) ==> InOrder(sys.order, t))
    requires forall k :: dir(k) < |sys.shards|
    ensures LostOk(dir, Crashed(sys, t), t) && LinkOk(dir, Crashed(sys, t), t, s)
  {
    CrashedLost(dir, sys, t);
    CrashedLink(dir, sys, t, s);
  }

  lemma CrashedLost(dir: Key -> ShardId, sys: System, t: Ticket)
    requires Wired(dir, sys) && t in sys.tickets && (Decided(RecordOf(sys, t)) ==> InOrder(sys.order, t))
    requires forall k :: dir(k) < |sys.shards|
    ensures LostOk(dir, Crashed(sys, t), t)
  {
    hide LinkInv, Inv, TicketInv, TracksOwn, InOrder, WithoutTicket, LinkOk;
    assert CellOk(dir, sys, t, 0);
    InOrderWithout(sys.order, t, t);
    if Decided(Some(sys.tickets[t])) && !Idled(sys, t) && exists sh :: sh in sys.shards && Has(sh, t, Prepared) {
      CrashWhole(dir, sys, t);
    }
  }

  lemma CrashedLink(dir: Key -> ShardId, sys: System, t: Ticket, s: ShardId)
    requires Wired(dir, sys) && t in sys.tickets && (Decided(RecordOf(sys, t)) ==> InOrder(sys.order, t))
    ensures LinkOk(dir, Crashed(sys, t), t, s)
  {
    hide LinkInv, Inv, TicketInv, TracksOwn, InOrder, WithoutTicket, LostOk;
    assert CellOk(dir, sys, t, s);
    InOrderWithout(sys.order, t, t);
    UnlinkedLinks(sys, t, t, s);
    if s < |sys.shards| {
      CrashLink(dir, sys.tickets[t], ClientAt(sys, t), t, s, sys.shards[s], LinkOf(sys, t, s));
      assert sys.shards[s] in sys.shards;
    }
  }

  // ---- Every event ----

  lemma BeginWired(dir: Key -> ShardId, sys: System, t: Ticket)
    requires Wired(dir, sys) && t !in sys.clients
    ensures Wired(dir, sys.(tickets := sys.tickets[t := NEW_STATE], clients := sys.clients[t := NEW_CLIENT]))
  {
    var r := sys.(tickets := sys.tickets[t := NEW_STATE], clients := sys.clients[t := NEW_CLIENT]);
    hide Inv, InOrder;
    ShardsKept(dir, sys, r);
    assert CellOk(dir, sys, t, 0);
    forall t', s ensures CellOk(dir, r, t', s) { assert CellOk(dir, sys, t', s); }
  }

  lemma WiredIsWiredBut(dir: Key -> ShardId, sys: System, t: Ticket)
    requires Wired(dir, sys)
    ensures WiredBut(dir, sys, t) && (t in sys.tickets ==> t !in sys.lost)
  {
    hide LinkInv, Inv, TicketInv, TracksOwn, InOrder;
    assert CellOk(dir, sys, t, 0);
    forall s ensures HomeReqs(dir, LinkOf(sys, t, s).reqs, s) { assert CellOk(dir, sys, t, s); }
  }

  /** Every event keeps every record, link and shard in order. */
  lemma EventKeepsWired(dir: Key -> ShardId, sys: System, e: Event)
    requires Wired(dir, sys) && Possible(sys, e) && forall k :: dir(k) < |sys.shards|
    requires e.Crash? && Decided(RecordOf(sys, e.ticket)) ==> InOrder(sys.order, e.ticket)
    ensures Wired(dir, After(dir, sys, e))
  {
    hide GoodStep, Brokered, LinkInv, TicketInv, Handle, BrokerSpec.TryLock, BrokerSpec.Commit, BrokerSpec.Rollback,
      BrokerSpec.Finish, InOrder;
    hide Wired, WiredBut;
    WiredIsWiredBut(dir, sys, e.ticket);
    match e
    case Begin(t) => BeginWired(dir, sys, t);
    case AskLock(t, k, ty) =>
      var b, step := sys.tickets[t], BrokerSpec.TryLock(sys.tickets[t], dir(k), k, ty);
      AskLockGood(dir, sys, t, k, ty);
      BrokeredWired(dir, sys, t, step, Told(ClientOfLock(b, ClientAt(sys, t)), k, step.reply));
    case AskCommit(t, update) =>
      AskCommitGood(dir, sys, t, update);
      BrokeredWired(dir, sys, t, BrokerSpec.Commit(sys.tickets[t], update),
        ClientOfCommit(sys.tickets[t], ClientAt(sys, t), update));
    case AskRollback(t) =>
      AskRollbackGood(dir, sys, t);
      BrokeredWired(dir, sys, t, BrokerSpec.Rollback(sys.tickets[t]), ClientAt(sys, t));
    case AskFinish(t) =>
      AskFinishGood(dir, sys, t);
      BrokeredWired(dir, sys, t, BrokerSpec.Finish(sys.tickets[t]), ClientAt(sys, t));
    case AtShard(_, _, _, _, _, _) => ShardedWired(dir, sys, e);
    case AtBroker(t, s) => ReceiveWired(dir, sys, t, s);
    case Crash(t) => CrashWired(dir, sys, t);
    case TakeUp(t, reports) => TakeUpWired(dir, sys, t, reports);
  }

  lemma ReceiveWired(dir: Key -> ShardId, sys: System, t: Ticket, s: ShardId)
    requires Wired(dir, sys) && Possible(sys, AtBroker(t, s))
    ensures Wired(dir, After(dir, sys, AtBroker(t, s)))
  {
    if t !in sys.tickets {
      UnreadWired(dir, sys, t, s);
    } else {
      hide GoodStep, Brokered, LinkInv, TicketInv, TracksOwn, Inv, Handle, InOrder;
      var link, r := LinkOf(sys, t, s), Unread(sys, t, s);
      var step := Receive(sys.tickets[t], s, link);
      ReceiveGood(dir, sys, t, s);
      UnreadBut(dir, sys, t, s);
      BrokeredWired(dir, r, t, step, ClientOfResponse(ClientAt(sys, t), link.resps[0], step.reply));
    }
  }

  lemma UnreadBut(dir: Key -> ShardId, sys: System, t: Ticket, s: ShardId)
    requires Wired(dir, sys) && LinkOf(sys, t, s).resps != []
    ensures WiredBut(dir, Unread(sys, t, s), t) && (t in sys.tickets ==> t !in sys.lost)
  {
    hide LinkInv, TicketInv, TracksOwn, Inv, InOrder;
    var r := Unread(sys, t, s);
    WiredIsWiredBut(dir, sys, t);
    ShardsKept(dir, sys, r);
    forall t', s' | t' != t ensures CellOk(dir, r, t', s') {
      assert CellOk(dir, sys, t', s') && Untouched(sys, r, t');
      OtherKept(dir, sys, r, t', s');
    }
    forall s' ensures HomeReqs(dir, LinkOf(r, t, s').reqs, s') { assert HomeReqs(dir, LinkOf(sys, t, s').reqs, s'); }
  }

  // ---- Taking up a lost ticket ----

  predicate AnyIn(reports: map<ShardId, Phase>, p: Phase) { exists s :: s in reports && reports[s] == p }

  /** What the reports tell of a lost ticket: it was decided exactly if some shard committed it,
      and then every shard that has not committed it holds it prepared. */
  ghost predicate Tells(dir: Key -> ShardId, reports: map<ShardId, Phase>, c: Client, decided: bool) {
    && (decided <==> AnyIn(reports, Committed))
    && (decided ==> forall s :: s in reports ==> reports[s].Committed? || reports[s].Prepared?)
    && (decided && AnyIn(reports, Prepared) ==>
          && c.update.Some?
          && (forall k, v :: (k, v) in c.told ==> dir(k) in reports)
          && (forall k :: k in c.update.value ==> dir(k) in reports))
    && (!decided ==> c == NEW_CLIENT)
  }

  lemma LostAt(dir: Key -> ShardId, sys: System, t: Ticket, s: ShardId)
    requires Wired(dir, sys) && t in sys.lost
    ensures LostOk(dir, sys, t)
            && (s < |sys.shards| ==> LostLink(t, sys.shards[s], LinkOf(sys, t, s), InOrder(sys.order, t)))
  {
    hide LinkInv, TicketInv, TracksOwn, Inv, InOrder, LostLink, LostOk;
    assert CellOk(dir, sys, t, s);
  }

  lemma ReportsTell(dir: Key -> ShardId, sys: System, t: Ticket, reports: map<ShardId, Phase>)
    requires Wired(dir, sys) && t in sys.lost && reports != map[] && Reported(sys, t, reports)
    ensures Tells(dir, reports, ClientAt(sys, t), InOrder(sys.order, t))
  {
    hide Wired, InOrder, LostOk;
    var decided := InOrder(sys.order, t);
    LostAt(dir, sys, t, 0);
    forall s | s in reports ensures if decided then reports[s].Committed? || reports[s].Prepared?
    else !reports[s].Committed? {
      LostAt(dir, sys, t, s);
    }
    var s :| s in reports;
    if AnyIn(reports, Prepared) && decided {
      LostIsWhole(dir, sys, t, reports);
    }
    LostClient(dir, sys, t);
  }

  lemma LostClient(dir: Key -> ShardId, sys: System, t: Ticket)
    requires LostOk(dir, sys, t) && t in sys.lost
    ensures !InOrder(sys.order, t) ==> ClientAt(sys, t) == NEW_CLIENT
  {
  }

  lemma LostIsWhole(dir: Key -> ShardId, sys: System, t: Ticket, reports: map<ShardId, Phase>)
    requires LostOk(dir, sys, t) && t in sys.lost && Reported(sys, t, reports)
    requires InOrder(sys.order, t) && AnyIn(reports, Prepared)
    ensures AnyIn(reports, Committed) && Whole(dir, sys, t)
    ensures var c := ClientAt(sys, t);
            && (forall k, v :: (k, v) in c.told ==> dir(k) in reports)
            && (forall k :: k in c.update.value ==> dir(k) in reports)
  {
    var s0 :| s0 in reports && reports[s0] == Prepared;
    assert sys.shards[s0] in sys.shards && Has(sys.shards[s0], t, Prepared);
    var s :| 0 <= s < |sys.shards| && Has(sys.shards[s], t, Committed);
    assert s in reports;
  }

  /** The record and the requests that recovery makes of the reports. */
  ghost predicate Resumes(reports: map<ShardId, Phase>, step: Step, s: ShardId) {
    && step.state.Some? && s in step.state.value.shards && step.state.value.shards[s].keys == map[]
    && match step.state.value.phase
       case InProgress => step.state.value.shards[s].phase.RollingBack? && s in step.sends
         && step.sends[s] == RollbackReq
       case AllPrepared =>
         if s in reports && reports[s].Committed? then step.state.value.shards[s].phase.AtCommitted? && s !in step.sends
         else step.state.value.shards[s].phase.Committing? && s in step.sends && step.sends[s] == CommitReq
       case AllCommitted => step.state.value.shards[s].phase.Finishing? && s in step.sends && step.sends[s] == FinishReq
       case Aborted => false
  }

  lemma RecoverShape(reports: map<ShardId, Phase>)
    requires reports != map[]
    ensures var step := BrokerSpec.Recover(reports);
            && step.state.Some? && step.state.value.shards.Keys == reports.Keys && step.sends.Keys <= reports.Keys
            && step.state.value.phase == Recovered(reports).phase
            && forall s :: s in reports ==> Resumes(reports, step, s)
  {
    var b := Recovered(reports);
    assert b.shards.Keys == reports.Keys;
    var s0 :| s0 in reports;
    assert s0 in b.shards;
    forall s | s in reports ensures Resumes(reports, BrokerSpec.Recover(reports), s) {
      ResumesAt(reports, s);
    }
  }

  lemma ResumesAt(reports: map<ShardId, Phase>, s: ShardId)
    requires s in reports
    ensures Resumes(reports, BrokerSpec.Recover(reports), s)
  {
    assert s in Recovered(reports).shards;
  }

  lemma TakeUpTicket(dir: Key -> ShardId, reports: map<ShardId, Phase>, c: Client, decided: bool)
    requires reports != map[] && Tells(dir, reports, c, decided)
    ensures var step := BrokerSpec.Recover(reports);
            && step.state.Some? && TracksOwn(dir, step.state.value) && TicketInv(dir, step.state.value, c)
            && (Decided(step.state) <==> decided)
            && forall s :: s in step.sends ==> !step.sends[s].TryLockReq?
  {
    hide BrokerSpec.Recover, AllIn;
    RecoverShape(reports);
    RecoverUnfinished(reports);
    var step := BrokerSpec.Recover(reports);
    assert decided && !step.state.value.phase.AllCommitted? ==> AnyIn(reports, Prepared);
    forall s | s in reports ensures ResumedAt(step, s) {
      assert Resumes(reports, step, s);
    }
    hide Resumes;
    assert forall s :: s in step.state.value.shards ==> ResumedAt(step, s);
  }

  ghost predicate ResumedAt(step: Step, s: ShardId) {
    && step.state.Some? && s in step.state.value.shards && step.state.value.shards[s].keys == map[]
    && (s in step.sends ==> !step.sends[s].TryLockReq?)
    && var p := step.state.value.shards[s].phase;
       match step.state.value.phase
       case InProgress => p.RollingBack?
       case AllPrepared => p.Committing? || p.AtCommitted?
       case AllCommitted => p.Finishing?
       case Aborted => false
  }

  /** What recovery decided to do is not done yet. */
  lemma RecoverUnfinished(reports: map<ShardId, Phase>)
    requires reports != map[]
    ensures var b := BrokerSpec.Recover(reports).state.value;
            && (b.phase.AllPrepared? ==> !AllIn(b, AtCommitted))
            && (b.phase.AllCommitted? ==> !AllIn(b, Finished))
            && !b.phase.Aborted?
  {
    RecoverShape(reports);
    hide BrokerSpec.Recover;
    var step := BrokerSpec.Recover(reports);
    var s :| s in reports;
    if step.state.value.phase.AllPrepared? {
      s :| s in reports && !reports[s].Committed?;
    }
    assert Resumes(reports, step, s);
    assert step.state.value.shards[s].phase != AtCommitted && step.state.value.shards[s].phase != Finished;
  }

  /** What a shard knows of a lost ticket, against the report that was taken of it. */
  ghost predicate LostFits(dir: Key -> ShardId, reports: map<ShardId, Phase>, c: Client, t: Ticket, s: ShardId,
                           sh: Shard) {
    && (s in reports <==> t in sh.tickets)
    && (s in reports ==> Has(sh, t, reports[s]) || (reports[s].Begun? && Has(sh, t, Wounded)))
    && (s in reports && AnyIn(reports, Committed) && AnyIn(reports, Prepared) ==>
          c.update.Some? && sh.tickets[t].update == Share(dir, c.update.value, s))
  }

  lemma TakeUpLink(dir: Key -> ShardId, reports: map<ShardId, Phase>, c: Client, decided: bool, t: Ticket, s: ShardId,
                   sh: Shard)
    requires reports != map[] && Tells(dir, reports, c, decided) && LostFits(dir, reports, c, t, s, sh)
    ensures var step := BrokerSpec.Recover(reports);
            LinkInv(dir, step.state, c, t, s, sh, Sent(IDLE, step.sends, s))
  {
    hide BrokerSpec.Recover, Active, Idle, Undoing, Deciding, Ending;
    RecoverShape(reports);
    var step := BrokerSpec.Recover(reports);
    var link := Sent(IDLE, step.sends, s);
    if s in reports {
      assert Resumes(reports, step, s);
      assert decided && !step.state.value.phase.AllCommitted? ==> AnyIn(reports, Prepared);
      var st := step.state.value.shards[s];
      hide LinkInv;
      match step.state.value.phase
      case InProgress =>
        assert !AnyIn(reports, Committed) ==> !reports[s].Committed?;
        assert link == Link([RollbackReq], []);
        ResumeRollback(dir, t, s, sh);
        UnhideLink(dir, step.state, c, t, s, sh, link);
      case AllPrepared =>
        ResumeCommit(dir, c, t, s, sh, link, st);
        UnhideLink(dir, step.state, c, t, s, sh, link);
      case AllCommitted =>
        assert link == Link([FinishReq], []);
        ResumeFinish(t, sh, st);
        UnhideLink(dir, step.state, c, t, s, sh, link);
    } else {
      ResumeNothing(t, sh);
    }
  }

  lemma ResumeNothing(t: Ticket, sh: Shard)
    requires t !in sh.tickets
    ensures Idle(t, sh, IDLE)
  {
  }

  lemma ResumeRollback(dir: Key -> ShardId, t: Ticket, s: ShardId, sh: Shard)
    requires t in sh.tickets && !Has(sh, t, Committed)
    ensures Undoing(dir, t, s, sh, Link([RollbackReq], []))
  {
    assert [RollbackReq][1..] == [];
  }

  lemma ResumeCommit(dir: Key -> ShardId, c: Client, t: Ticket, s: ShardId, sh: Shard, link: Link, st: ShardState)
    requires c.update.Some? && t in sh.tickets && sh.tickets[t].update == Share(dir, c.update.value, s)
    requires if st.phase.AtCommitted? then Has(sh, t, Committed) && link == IDLE
             else st.phase.Committing? && Has(sh, t, Prepared) && link == Link([CommitReq], [])
    ensures Deciding(dir, c, t, s, sh, link, st)
  {
  }

  lemma ResumeFinish(t: Ticket, sh: Shard, st: ShardState)
    requires Has(sh, t, Committed) && st.phase.Finishing?
    ensures Ending(t, sh, Link([FinishReq], []), st)
  {
  }

  lemma UnhideLink(dir: Key -> ShardId, b: Option<TicketState>, c: Client, t: Ticket, s: ShardId, sh: Shard, link: Link)
    requires b.Some? && s in b.value.shards && !b.value.shards[s].phase.RolledBack?
    requires match b.value.phase
             case InProgress => b.value.shards[s].phase.RollingBack? && Undoing(dir, t, s, sh, link)
             case AllPrepared => Deciding(dir, c, t, s, sh, link, b.value.shards[s])
             case AllCommitted => Ending(t, sh, link, b.value.shards[s])
             case Aborted => false
    ensures LinkInv(dir, b, c, t, s, sh, link)
  {
    hide Idle, Active, Undoing, Deciding, Ending;
  }

  lemma TakeUpGood(dir: Key -> ShardId, sys: System, t: Ticket, reports: map<ShardId, Phase>)
    requires Wired(dir, sys) && Possible(sys, TakeUp(t, reports))
    ensures GoodStep(dir, Unlinked(sys, t).(lost := sys.lost - {t}), t, BrokerSpec.Recover(reports), ClientAt(sys, t))
  {
    var r, step, c := Unlinked(sys, t).(lost := sys.lost - {t}), BrokerSpec.Recover(reports), ClientAt(sys, t);
    hide Wired, BrokerSpec.Recover, LinkInv, TicketInv, TracksOwn, Tells, InOrder;
    ReportsTell(dir, sys, t, reports);
    TakeUpTicket(dir, reports, c, InOrder(sys.order, t));
    forall s: ShardId | s < |r.shards|
      ensures LinkInv(dir, step.state, c, t, s, r.shards[s], Sent(LinkOf(r, t, s), step.sends, s))
    {
      UnlinkedLinks(sys, t, t, s);
      LostReport(dir, sys, t, reports, s);
      TakeUpLink(dir, reports, c, InOrder(sys.order, t), t, s, sys.shards[s]);
    }
  }

  lemma LostReport(dir: Key -> ShardId, sys: System, t: Ticket, reports: map<ShardId, Phase>, s: ShardId)
    requires Wired(dir, sys) && t in sys.lost && reports != map[] && Reported(sys, t, reports) && s < |sys.shards|
    ensures LostFits(dir, reports, ClientAt(sys, t), t, s, sys.shards[s])
  {
    hide Wired, InOrder, LostOk;
    ReportsTell(dir, sys, t, reports);
    LostAt(dir, sys, t, s);
    if AnyIn(reports, Committed) && AnyIn(reports, Prepared) {
      LostIsWhole(dir, sys, t, reports);
    }
  }

  lemma TakeUpWired(dir: Key -> ShardId, sys: System, t: Ticket, reports: map<ShardId, Phase>)
    requires Wired(dir, sys) && Possible(sys, TakeUp(t, reports))
    ensures Wired(dir, After(dir, sys, TakeUp(t, reports)))
  {
    hide LinkInv, TicketInv, TracksOwn, Inv, InOrder, GoodStep, Brokered, Reported, BrokerSpec.Recover, Wired;
    TakeUpGood(dir, sys, t, reports);
    UnlinkedBut(dir, sys, t);
    BrokeredWired(dir, Unlinked(sys, t).(lost := sys.lost - {t}), t, BrokerSpec.Recover(reports), ClientAt(sys, t));
  }

  lemma UnlinkedBut(dir: Key -> ShardId, sys: System, t: Ticket)
    requires Wired(dir, sys)
    ensures WiredBut(dir, Unlinked(sys, t).(lost := sys.lost - {t}), t)
  {
    var r := Unlinked(sys, t).(lost := sys.lost - {t});
    hide LinkInv, TicketInv, TracksOwn, Inv, InOrder;
    ShardsKept(dir, sys, r);
    forall t', s | t' != t ensures CellOk(dir, r, t', s) {
      assert Untouched(sys, r, t') by {
        forall s ensures LinkOf(r, t', s) == LinkOf(sys, t', s) { UnlinkedLinks(sys, t, t', s); }
      }
      assert CellOk(dir, sys, t', s);
      OtherKept(dir, sys, r, t', s);
    }
    forall s ensures HomeReqs(dir, LinkOf(r, t, s).reqs, s) { UnlinkedLinks(sys, t, t, s); }
  }
}
