/** The shard as the object of src/parsec/runtime_locking_shard/impl.cpp: a table of keys with
    their locks and a table of tickets with the locks each one holds and queues for. Every
    operation keeps the two tables in agreement and computes what `ShardSpec` says. */
module RuntimeLockingShards {
  import opened Basics
  import opened LockTable
  import opened ShardSpec
  import opened ShardSteps

  datatype Record = Record(info: TicketInfo, held: map<Key, LockType>, queued: set<Key>)

  datatype ShardError = ShardError(code: ErrorCode, details: Option<WoundDetails>)

  /** The record of `t` lists the key `k` exactly as the lock table does. */
  predicate Linked(e: map<Key, Element>, rec: Record, t: Ticket, k: Key) {
    && (k in rec.held <==> k in e && Holds(e[k].lock, t))
    && (k in rec.held ==> rec.held[k] == if HoldsWrite(e[k].lock, t) then Write else Read)
    && (k in rec.queued <==> k in e && t in e[k].lock.queue)
  }

  /** The lock table and the ticket table agree. */
  ghost predicate Tables(e: map<Key, Element>, tickets: map<Ticket, Record>) {
    && (forall t, k :: t in tickets ==> Linked(e, tickets[t], t, k))
    && (forall k, t :: k in e && Mentions(e[k].lock, t) ==> t in tickets)
    && (forall k :: k in e ==> WellFormed(e[k].lock))
  }

  function Infos(tickets: map<Ticket, Record>): map<Ticket, TicketInfo> {
    map t | t in tickets :: tickets[t].info
  }

  function Unprepared(tickets: map<Ticket, Record>, ts: set<Ticket>): set<Ticket>
    requires ts <= tickets.Keys
  {
    set t | t in ts && !tickets[t].info.phase.Prepared?
  }

  /** A list of answers without repetition that holds exactly the answers of a set. */
  ghost predicate Lists(s: seq<Answer>, answers: set<Answer>) {
    && (forall i, j :: 0 <= i < j < |s| ==> s[i] != s[j])
    && (forall a :: a in s <==> a in answers)
  }

  lemma ListsAppend(s: seq<Answer>, answers: set<Answer>, s': seq<Answer>, answers': set<Answer>)
    requires Lists(s, answers) && Lists(s', answers') && answers !! answers'
    ensures Lists(s + s', answers + answers')
  {
    var c := s + s';
    forall i, j | 0 <= i < j < |c| ensures c[i] != c[j] {
      assert i < |s| ==> c[i] in s;
      assert |s| <= j ==> c[j] in s';
    }
  }

  function ReleaseAll(e: map<Key, Element>, ts: set<Ticket>): (r: map<Key, Element>)
    ensures r.Keys == e.Keys
  {
    map k | k in e :: Element(e[k].value, Release(e[k].lock, ts))
  }

  /** The answers of `t`'s queued requests when they are withdrawn. */
  function Withdrawals(e: map<Key, Element>, t: Ticket, details: Option<WoundDetails>): set<Answer> {
    set k | k in e && t in e[k].lock.queue :: Refused(e[k].lock.queue[t].callback, t, k, TicketWounded, details)
  }

  /** The answers of the requests on `k` that are granted when its lock goes from `l` to `r`. */
  function KeyGrants(k: Key, v: Value, l: RwLock, r: RwLock): set<Answer> {
    set t | t in l.queue && t !in r.queue :: Granted(l.queue[t].callback, t, k, v)
  }

  function SettleAll(e: map<Key, Element>, keys: set<Key>): (r: map<Key, Element>)
    ensures r.Keys == e.Keys
  {
    map k | k in e :: if k in keys then Element(e[k].value, Settle(e[k].lock)) else e[k]
  }

  function SettleGrants(e: map<Key, Element>, keys: set<Key>): set<Answer> {
    set k, t | k in keys && k in e && t in e[k].lock.queue && t !in Settle(e[k].lock).queue ::
      Granted(e[k].lock.queue[t].callback, t, k, e[k].value)
  }

  lemma CardinalityOf(readers: set<Ticket>, t: Ticket)
    ensures readers <= {t} <==> |readers| == 0 || (|readers| == 1 && readers == {t})
  {
    if readers <= {t} && readers != {} {
      assert readers == {t};
    }
  }

  /** Granting the front of one queue keeps the tables in agreement. */
  lemma GrantKeepsTables(e: map<Key, Element>, tickets: map<Ticket, Record>, k: Key)
    requires Tables(e, tickets) && k in e && Grantable(e[k].lock)
    ensures var l := e[k].lock;
            var f := Front(l.queue);
            && f in tickets
            && Tables(e[k := Element(e[k].value, GrantFront(l))],
                      tickets[f := tickets[f].(queued := tickets[f].queued - {k},
                        held := tickets[f].held[k := l.queue[f].lockType])])
  {
    var l := e[k].lock;
    var f := Front(l.queue);
    assert Mentions(l, f);
    var e' := e[k := Element(e[k].value, GrantFront(l))];
    var tickets' := tickets[f := tickets[f].(queued := tickets[f].queued - {k},
      held := tickets[f].held[k := l.queue[f].lockType])];
    forall t, j | t in tickets' ensures Linked(e', tickets'[t], t, j) {
      assert Linked(e, tickets[t], t, j);
    }
  }

  /** The lock `c` is reached from `l` by grants, and `callbacks` lists their answers. */
  ghost predicate GrantedSoFar(k: Key, v: Value, l: RwLock, c: RwLock, callbacks: seq<Answer>) {
    && Settle(c) == Settle(l)
    && (forall t :: t in c.queue ==> t in l.queue && c.queue[t] == l.queue[t])
    && Lists(callbacks, KeyGrants(k, v, l, c))
  }

  lemma GrantOneMore(k: Key, v: Value, l: RwLock, c: RwLock, callbacks: seq<Answer>)
    requires GrantedSoFar(k, v, l, c, callbacks) && Grantable(c)
    ensures var f := Front(c.queue);
            GrantedSoFar(k, v, l, GrantFront(c), callbacks + [Granted(c.queue[f].callback, f, k, v)])
    ensures |GrantFront(c).queue| < |c.queue|
    ensures c.queue[Front(c.queue)].lockType.Write? ==> !Grantable(GrantFront(c))
  {
    var f := Front(c.queue);
    var a := Granted(c.queue[f].callback, f, k, v);
    assert c.queue.Keys == GrantFront(c).queue.Keys + {f};
    ListsAppend(callbacks, KeyGrants(k, v, l, c), [a], {a});
    assert KeyGrants(k, v, l, GrantFront(c)) == KeyGrants(k, v, l, c) + {a};
  }

  lemma GrantingStarts(k: Key, v: Value, l: RwLock)
    ensures GrantedSoFar(k, v, l, l, [])
  {
    assert KeyGrants(k, v, l, l) == {};
  }

  lemma GrantingEnds(k: Key, v: Value, l: RwLock, c: RwLock, callbacks: seq<Answer>)
    requires GrantedSoFar(k, v, l, c, callbacks) && !Grantable(c)
    ensures c == Settle(l) && Lists(callbacks, KeyGrants(k, v, l, Settle(l)))
  {
  }

  lemma SettleGrantsNone(e: map<Key, Element>)
    ensures Lists([], SettleGrants(e, {}))
  {
  }

  lemma SettleOneMore(e: map<Key, Element>, done: set<Key>, k: Key, callbacks: seq<Answer>, granted: seq<Answer>)
    requires k in e && k !in done && Lists(callbacks, SettleGrants(e, done))
    requires Lists(granted, KeyGrants(k, e[k].value, e[k].lock, Settle(e[k].lock)))
    ensures Lists(callbacks + granted, SettleGrants(e, done + {k}))
    ensures SettleAll(e, done)[k := Element(e[k].value, Settle(e[k].lock))] == SettleAll(e, done + {k})
  {
    hide Settle, Lists;
    var grants := KeyGrants(k, e[k].value, e[k].lock, Settle(e[k].lock));
    assert SettleGrants(e, done + {k}) == SettleGrants(e, done) + grants;
    ListsAppend(callbacks, SettleGrants(e, done), granted, grants);
  }

  function Unqueue(l: RwLock, t: Ticket): RwLock { l.(queue := l.queue - {t}) }

  /** The table with `t` out of the queues of `keys`. */
  function UnqueueAll(e: map<Key, Element>, t: Ticket, keys: set<Key>): (r: map<Key, Element>)
    ensures r.Keys == e.Keys
  {
    map k | k in e :: if k in keys then Element(e[k].value, Unqueue(e[k].lock, t)) else e[k]
  }

  /** The table with `t` out of all queues and out of the holders of `keys`. */
  function UnholdAll(e: map<Key, Element>, t: Ticket, keys: set<Key>): (r: map<Key, Element>)
    ensures r.Keys == e.Keys
  {
    map k | k in e :: Element(e[k].value, if k in keys then Release(e[k].lock, {t}) else Unqueue(e[k].lock, t))
  }

  function WithdrawalsOn(e: map<Key, Element>, t: Ticket, details: Option<WoundDetails>, keys: set<Key>): set<Answer> {
    set k | k in keys && k in e && t in e[k].lock.queue ::
      Refused(e[k].lock.queue[t].callback, t, k, TicketWounded, details)
  }

  lemma UnqueueOneMore(e: map<Key, Element>, t: Ticket, done: set<Key>, k: Key, details: Option<WoundDetails>,
                       callbacks: seq<Answer>)
    requires k in e && k !in done && t in e[k].lock.queue && Lists(callbacks, WithdrawalsOn(e, t, details, done))
    ensures UnqueueAll(e, t, done)[k := Element(e[k].value, Unqueue(e[k].lock, t))] == UnqueueAll(e, t, done + {k})
    ensures Lists(callbacks + [Refused(e[k].lock.queue[t].callback, t, k, TicketWounded, details)],
                  WithdrawalsOn(e, t, details, done + {k}))
  {
    hide Lists;
    var a := Refused(e[k].lock.queue[t].callback, t, k, TicketWounded, details);
    assert WithdrawalsOn(e, t, details, done + {k}) == WithdrawalsOn(e, t, details, done) + {a};
    assert Lists([a], {a}) by { ListsOne(a); }
    ListsAppend(callbacks, WithdrawalsOn(e, t, details, done), [a], {a});
  }

  lemma ListsOne(a: Answer)
    ensures Lists([a], {a})
  {
  }

  lemma WithdrawalsNone(e: map<Key, Element>, t: Ticket, details: Option<WoundDetails>)
    ensures Lists([], WithdrawalsOn(e, t, details, {}))
  {
  }

  /** A ticket's record names every key at which the lock table mentions it. */
  lemma RecordIsComplete(e: map<Key, Element>, tickets: map<Ticket, Record>, t: Ticket, details: Option<WoundDetails>)
    requires Tables(e, tickets) && t in tickets
    ensures var rec := tickets[t];
            && rec.queued + rec.held.Keys == (set k | k in e && Mentions(e[k].lock, t))
            && UnqueueAll(e, t, rec.queued) == UnholdAll(e, t, {})
            && UnholdAll(e, t, rec.held.Keys) == ReleaseAll(e, {t})
            && WithdrawalsOn(e, t, details, rec.queued) == Withdrawals(e, t, details)
  {
    var rec := tickets[t];
    forall k | k in e ensures Linked(e, rec, t, k) {
    }
    assert forall k :: k in rec.queued || k in rec.held ==> Linked(e, rec, t, k);
    forall k | k in e && k !in rec.queued ensures Unqueue(e[k].lock, t) == e[k].lock {
      assert Linked(e, rec, t, k);
      assert e[k].lock.queue - {t} == e[k].lock.queue;
    }
    forall k | k in e && k !in rec.held ensures Unqueue(e[k].lock, t) == Release(e[k].lock, {t}) {
      assert Linked(e, rec, t, k);
      assert e[k].lock.readers - {t} == e[k].lock.readers;
    }
  }

  lemma ReleaseKeepsTables(e: map<Key, Element>, tickets: map<Ticket, Record>, t: Ticket)
    requires Tables(e, tickets) && t in tickets
    ensures Tables(ReleaseAll(e, {t}), tickets[t := tickets[t].(held := map[], queued := {})])
  {
    var e', tickets' := ReleaseAll(e, {t}), tickets[t := tickets[t].(held := map[], queued := {})];
    forall u, k | u in tickets' ensures Linked(e', tickets'[u], u, k) {
      assert Linked(e, tickets[u], u, k);
    }
    forall k, u | k in e' && Mentions(e'[k].lock, u) ensures u in tickets' {
      assert Mentions(e[k].lock, u);
    }
  }

  lemma QueuedKey(e: map<Key, Element>, tickets: map<Ticket, Record>, t: Ticket, k: Key)
    requires Tables(e, tickets) && t in tickets && k in tickets[t].queued
    ensures k in e && t in e[k].lock.queue
  {
    assert Linked(e, tickets[t], t, k);
  }

  /** Taking one holder out of a lock, by the type its record lists. */
  lemma UnholdOne(e: map<Key, Element>, tickets: map<Ticket, Record>, t: Ticket, k: Key, done: set<Key>)
    requires Tables(e, tickets) && t in tickets && k in tickets[t].held && k !in done
    ensures k in e
    ensures var lk := Unqueue(e[k].lock, t);
            Release(e[k].lock, {t}) == if tickets[t].held[k].Read? then lk.(readers := lk.readers - {t})
            else lk.(writer := None)
    ensures UnholdAll(e, t, done)[k := Element(e[k].value, Release(e[k].lock, {t}))] == UnholdAll(e, t, done + {k})
  {
    assert Linked(e, tickets[t], t, k);
  }

  // ---- A release followed by grants on the affected keys is a relock ----

  function AffectedKeys(e: map<Key, Element>, ts: set<Ticket>): set<Key> {
    set k | k in e && exists t :: t in ts && Mentions(e[k].lock, t)
  }

  function WithdrawalsAll(e: map<Key, Element>, ts: set<Ticket>, details: Option<WoundDetails>): set<Answer> {
    set k, t | k in e && t in ts && t in e[k].lock.queue ::
      Refused(e[k].lock.queue[t].callback, t, k, TicketWounded, details)
  }

  lemma {:induction false} SettleShrinks(l: RwLock)
    ensures forall t :: t in Settle(l).queue ==> t in l.queue && Settle(l).queue[t] == l.queue[t]
    decreases |l.queue|
  {
    if Grantable(l) {
      assert l.queue.Keys == GrantFront(l).queue.Keys + {Front(l.queue)};
      SettleShrinks(GrantFront(l));
    }
  }

  lemma SettleAllIsRelock(e: map<Key, Element>, ts: set<Ticket>, keys: set<Key>)
    requires keys >= AffectedKeys(e, ts)
    requires forall k :: k in e && k !in keys ==> !Grantable(e[k].lock)
    ensures SettleAll(ReleaseAll(e, ts), keys) == Relock(e, ts)
    ensures forall k :: k in e && k !in keys ==> Relock(e, ts)[k] == e[k]
  {
    hide Settle, Release, Grantable;
    forall k | k in e && k !in keys
      ensures Settle(Release(e[k].lock, ts)) == e[k].lock && Release(e[k].lock, ts) == e[k].lock
    {
      assert forall t :: t in ts ==> !Mentions(e[k].lock, t);
      RelockIdle(e[k].lock, ts);
      ReleaseNothing(e[k].lock, ts);
    }
  }

  lemma SettleAnswersAreRelock(e: map<Key, Element>, tickets: map<Ticket, TicketInfo>, ts: set<Ticket>,
                               keys: set<Key>, details: Option<WoundDetails>)
    requires keys >= AffectedKeys(e, ts)
    requires forall k :: k in e && k !in keys ==> !Grantable(e[k].lock)
    requires forall t :: t in ts ==> t in tickets && tickets[t].wound == details
    ensures RelockAnswers(e, tickets, ts) == WithdrawalsAll(e, ts, details) + SettleGrants(ReleaseAll(e, ts), keys)
    ensures WithdrawalsAll(e, ts, details) !! SettleGrants(ReleaseAll(e, ts), keys)
  {
    hide Settle;
    SettleAllIsRelock(e, ts, keys);
    var r := Relock(e, ts);
    forall k | k in e ensures r[k].lock.queue.Keys <= e[k].lock.queue.Keys - ts {
      SettleShrinks(Release(e[k].lock, ts));
    }
    forall a | a in RelockAnswers(e, tickets, ts)
      ensures a in WithdrawalsAll(e, ts, details) + SettleGrants(ReleaseAll(e, ts), keys)
    {
      RelockAnswerOrigin(e, tickets, ts, a);
    }
    forall a | a in WithdrawalsAll(e, ts, details) + SettleGrants(ReleaseAll(e, ts), keys)
      ensures a in RelockAnswers(e, tickets, ts)
    {
      assert a == AnswerTo(e, tickets, ts, a.key, a.ticket);
    }
  }

  lemma InfoKeepsTables(e: map<Key, Element>, tickets: map<Ticket, Record>, t: Ticket, info: TicketInfo)
    requires Tables(e, tickets) && t in tickets
    ensures Tables(e, tickets[t := tickets[t].(info := info)])
  {
    var tickets' := tickets[t := tickets[t].(info := info)];
    forall u, k | u in tickets' ensures Linked(e, tickets'[u], u, k) {
      assert Linked(e, tickets[u], u, k);
    }
  }

  lemma ReleaseTwice(l: RwLock, ts: set<Ticket>, t: Ticket)
    requires t !in ts
    ensures Release(Release(l, ts), {t}) == Release(l, ts + {t})
    ensures Mentions(Release(l, ts), t) <==> Mentions(l, t)
  {
    assert l.readers - ts - {t} == l.readers - (ts + {t});
    assert l.queue - ts - {t} == l.queue - (ts + {t});
  }

  lemma WithdrawOneMore(e: map<Key, Element>, ts: set<Ticket>, t: Ticket, details: Option<WoundDetails>)
    requires t !in ts
    ensures Withdrawals(ReleaseAll(e, ts), t, details) !! WithdrawalsAll(e, ts, details)
    ensures Withdrawals(ReleaseAll(e, ts), t, details) + WithdrawalsAll(e, ts, details)
            == WithdrawalsAll(e, ts + {t}, details)
  {
  }

  /** Releasing one more ticket. */
  lemma ReleaseOneMore(e: map<Key, Element>, ts: set<Ticket>, t: Ticket)
    requires t !in ts
    ensures ReleaseAll(ReleaseAll(e, ts), {t}) == ReleaseAll(e, ts + {t})
    ensures (set k | k in ReleaseAll(e, ts) && Mentions(ReleaseAll(e, ts)[k].lock, t)) + AffectedKeys(e, ts)
            == AffectedKeys(e, ts + {t})
  {
    hide Release, Mentions;
    forall k | k in e
      ensures Release(Release(e[k].lock, ts), {t}) == Release(e[k].lock, ts + {t})
      ensures Mentions(Release(e[k].lock, ts), t) <==> Mentions(e[k].lock, t)
    {
      ReleaseTwice(e[k].lock, ts, t);
    }
  }

  lemma NothingWounded(e: map<Key, Element>, infos: map<Ticket, TicketInfo>, details: Option<WoundDetails>,
                       blocked: Ticket, k: Key)
    ensures ReleaseAll(e, {}) == e && AffectedKeys(e, {}) == {}
    ensures Lists([], WithdrawalsAll(e, {}, details))
    ensures WoundAll(infos, {}, blocked, k) == infos
  {
    forall j | j in e ensures Release(e[j].lock, {}) == e[j].lock {
      ReleaseNothing(e[j].lock, {});
    }
  }

  /** A ticket not yet wounded still has its original record. */
  lemma InfoUnder(table: map<Ticket, Record>, now: map<Ticket, Record>, wounded: set<Ticket>, blocked: Ticket, k: Key,
                  b: Ticket)
    requires now.Keys == table.Keys && Infos(now) == WoundAll(Infos(table), wounded, blocked, k)
    requires b in table && b !in wounded
    ensures now[b].info == table[b].info
  {
    assert Infos(now)[b] == now[b].info;
  }

  lemma WoundOneMore(table: map<Ticket, Record>, before: map<Ticket, Record>, now: map<Ticket, Record>,
                     wounded: set<Ticket>, blocked: Ticket, k: Key, b: Ticket)
    requires b in before && before.Keys == table.Keys && b !in wounded
    requires Infos(before) == WoundAll(Infos(table), wounded, blocked, k)
    requires now == before[b := Record(table[b].info.(phase := Wounded, wound := Some(WoundDetails(blocked, k))),
             map[], {})]
    ensures Infos(now) == WoundAll(Infos(table), wounded + {b}, blocked, k)
  {
    forall t | t in table ensures Infos(now)[t] == WoundAll(Infos(table), wounded + {b}, blocked, k)[t] {
      assert t != b ==> Infos(before)[t] == WoundAll(Infos(table), wounded, blocked, k)[t];
    }
  }

  lemma RegisterKeepsTables(e: map<Key, Element>, tickets: map<Ticket, Record>, t: Ticket)
    requires Tables(e, tickets) && t !in tickets
    ensures Tables(e, tickets[t := Record(NEW_TICKET, map[], {})])
  {
    var tickets' := tickets[t := Record(NEW_TICKET, map[], {})];
    forall u, k | u in tickets' ensures Linked(e, tickets'[u], u, k) {
      if u != t { assert Linked(e, tickets[u], u, k); }
      if k in e { assert Mentions(e[k].lock, t) ==> t in tickets; }
    }
  }

  /** Joining the queue of `k`, in both tables. */
  lemma EnqueueKeepsTables(e: map<Key, Element>, tickets: map<Ticket, Record>, t: Ticket, k: Key, w: Waiter)
    requires Tables(e, tickets) && t in tickets && k !in tickets[t].queued
    requires k in tickets[t].held ==> tickets[t].held[k].Read? && w.lockType.Write?
    ensures Tables(e[k := Element(ElementAt(e, k).value, Enqueue(ElementAt(e, k).lock, t, w))],
                   tickets[t := tickets[t].(queued := tickets[t].queued + {k})])
  {
    var e' := e[k := Element(ElementAt(e, k).value, Enqueue(ElementAt(e, k).lock, t, w))];
    var tickets' := tickets[t := tickets[t].(queued := tickets[t].queued + {k})];
    assert Linked(e, tickets[t], t, k);
    forall u, j | u in tickets' ensures Linked(e', tickets'[u], u, j) {
      assert Linked(e, tickets[u], u, j);
    }
    forall j, u | j in e' && Mentions(e'[j].lock, u) ensures u in tickets' {
      assert Mentions(ElementAt(e, j).lock, u) || u == t;
    }
  }

  /** The ticket table gives the same verdict on a request as the lock table. */
  lemma RefusalFromRecord(e: map<Key, Element>, tickets: map<Ticket, Record>, t: Ticket, k: Key, ty: LockType,
                          first: bool)
    requires Tables(e, tickets)
    ensures var s := Shard(e, Infos(tickets));
            TryLockRefusal(s, t, k, ty, first) ==
            if t !in tickets then (if first then None else Some(UnknownTicket))
            else if tickets[t].info.phase.Prepared? then Some(AlreadyPrepared)
            else if tickets[t].info.phase.Committed? then Some(AlreadyCommitted)
            else if tickets[t].info.phase.Wounded? then Some(TicketWounded)
            else if k in tickets[t].held && tickets[t].held[k].Covers(ty) then Some(LockHeld)
            else if k in tickets[t].queued then Some(LockQueued)
            else None
  {
    if t in tickets {
      assert Linked(e, tickets[t], t, k);
    }
  }

  lemma HoldersKnown(e: map<Key, Element>, tickets: map<Ticket, Record>, k: Key, t: Ticket, ty: LockType)
    requires Tables(e, tickets) && k in e
    ensures WaitingOn(e[k].lock, t, ty) <= tickets.Keys
  {
    forall b | b in WaitingOn(e[k].lock, t, ty) ensures b in tickets {
      assert Mentions(e[k].lock, b);
    }
  }

  lemma SettledElsewhere(s: Shard, k: Key)
    requires Inv(s)
    ensures forall j :: j in s.elements && j != k ==> !Grantable(s.elements[j].lock)
  {
    forall j | j in s.elements && j != k ensures !Grantable(s.elements[j].lock) {
      assert LockInv(s, j);
    }
  }

  lemma AcceptedRecord(s: Shard, e: map<Key, Element>, tickets: map<Ticket, Record>, t: Ticket, k: Key, ty: LockType,
                       first: bool)
    requires Tables(e, tickets) && s == Shard(e, Infos(tickets)) && TryLockRefusal(s, t, k, ty, first).None?
    ensures t in tickets ==>
      && k !in tickets[t].queued && (k in tickets[t].held ==> tickets[t].held[k].Read? && ty.Write?)
  {
    RefusalFromRecord(e, tickets, t, k, ty, first);
  }

  /** Registering a new ticket beforehand makes no difference to queueing its request. */
  lemma NewTicketSame(s: Shard, t: Ticket, broker: nat, k: Key, ty: LockType, callback: nat)
    requires t !in s.tickets
    ensures var r := s.(tickets := s.tickets[t := NEW_TICKET]);
            && Register(r, t, broker) == Register(s, t, broker)
            && Victims(r, t, k, ty) == Victims(s, t, k, ty)
            && Queued(r, t, k, Waiter(ty, callback)) == Queued(s, t, k, Waiter(ty, callback))
  {
  }

  lemma VictimsFromRecords(s: Shard, tickets: map<Ticket, Record>, t: Ticket, k: Key, ty: LockType, broker: nat,
                           blocking: set<Ticket>)
    requires Infos(tickets) == Register(s, t, broker) && blocking == WaitingOn(LockOf(s, k), t, ty)
             && blocking <= tickets.Keys
    ensures Unprepared(tickets, blocking) == Victims(s, t, k, ty)
  {
    forall b | b in blocking ensures b != t && (Has(s, b, Prepared) <==> tickets[b].info.phase.Prepared?) {
      assert Infos(tickets)[b] == tickets[b].info;
    }
  }

  lemma RefusalKnown(s: Shard, t: Ticket, k: Key, ty: LockType, first: bool)
    requires TryLockRefusal(s, t, k, ty, first) == Some(TicketWounded)
    ensures t in s.tickets
  {
  }

  lemma TryLockOutcome(s: Shard, t: Ticket, broker: nat, k: Key, ty: LockType, first: bool, callback: nat)
    requires first ==> t !in s.tickets
    ensures var refusal := TryLockRefusal(s, t, k, ty, first);
            var out := ShardSpec.TryLock(s, t, broker, k, ty, first, callback);
            if refusal.Some? then
              out.shard == s
              && out.answers
                   == {Refused(callback, t, k, refusal.value, if t in s.tickets && refusal.value.TicketWounded?
                   then s.tickets[t].wound else None)}
            else
              var e, victims := Queued(s, t, k, Waiter(ty, callback)), Victims(s, t, k, ty);
              && out.shard.elements == Relock(e, victims)
              && out.shard.tickets == WoundAll(Register(s, t, broker), victims, t, k)
              && out.answers == RelockAnswers(e, out.shard.tickets, victims)
  {
  }

  lemma RecordLists(e: map<Key, Element>, tickets: map<Ticket, Record>, t: Ticket)
    requires Tables(e, tickets) && t in tickets
    ensures tickets[t].queued == QueuedBy(e, t)
    ensures tickets[t].held == HeldBy(e, t)
  {
    forall k ensures Linked(e, tickets[t], t, k) {
    }
    assert forall k :: k in tickets[t].queued <==> k in QueuedBy(e, t) by {
      forall k ensures k in tickets[t].queued <==> k in QueuedBy(e, t) { assert Linked(e, tickets[t], t, k); }
    }
    forall k
      ensures k in tickets[t].held <==> k in HeldBy(e, t)
      ensures k in tickets[t].held ==> tickets[t].held[k] == HeldBy(e, t)[k]
    {
      assert Linked(e, tickets[t], t, k);
    }
  }

  lemma SettledEverywhere(s: Shard)
    requires Inv(s)
    ensures forall j :: j in s.elements ==> !Grantable(s.elements[j].lock)
  {
    forall j | j in s.elements ensures !Grantable(s.elements[j].lock) {
      assert LockInv(s, j);
    }
  }

  lemma CommittedUnmentioned(s: Shard, t: Ticket)
    requires Inv(s) && Has(s, t, Committed)
    ensures forall k :: k in s.elements ==> !Mentions(s.elements[k].lock, t)
  {
    forall k | k in s.elements ensures !Mentions(s.elements[k].lock, t) {
      assert LockInv(s, k);
    }
  }

  lemma SameLocksKeepTables(e: map<Key, Element>, e': map<Key, Element>, tickets: map<Ticket, Record>)
    requires Tables(e, tickets) && e'.Keys == e.Keys && forall k :: k in e ==> e'[k].lock == e[k].lock
    ensures Tables(e', tickets)
  {
    forall t, k | t in tickets ensures Linked(e', tickets[t], t, k) {
      assert Linked(e, tickets[t], t, k);
    }
  }

  /** A prepared ticket queues for nothing, so its commit withdraws no request. */
  lemma CommitRefusesNobody(s: Shard, t: Ticket)
    requires Inv(s)
    ensures forall a :: a in ShardSpec.Commit(s, t).answers ==> a.Granted?
  {
    forall a | a in ShardSpec.Commit(s, t).answers ensures a.Granted? {
      if a.Refused? {
        RefusedFacts(s, CommitOp(t), a);
      }
    }
  }

  lemma CommitOutcome(s: Shard, t: Ticket)
    requires Has(s, t, Prepared)
    ensures var e, out := Apply(s.elements, s.tickets[t].update), ShardSpec.Commit(s, t);
            && out.shard == Shard(Relock(e, {t}), s.tickets[t := s.tickets[t].(phase := Committed)])
            && out.answers == RelockAnswers(e, s.tickets, {t})
  {
  }

  lemma RollbackOutcome(s: Shard, t: Ticket)
    requires t in s.tickets
    ensures var out := ShardSpec.Rollback(s, t);
            && out.shard == Shard(Relock(s.elements, {t}), s.tickets - {t})
            && out.answers == RelockAnswers(s.elements, s.tickets, {t})
  {
  }

  lemma KnownByInfos(tickets: map<Ticket, Record>, infos: map<Ticket, TicketInfo>, t: Ticket)
    requires Infos(tickets) == infos && t in infos
    ensures t in tickets && tickets[t].info == infos[t]
    ensures Infos(tickets - {t}) == infos - {t}
    ensures forall info :: Infos(tickets[t := tickets[t].(info := info)]) == infos[t := info]
  {
  }

  lemma PreparedKnown(s: Shard, t: Ticket, update: map<Key, Value>)
    requires PrepareRefusals(s, t, update) == {}
    ensures t in s.tickets
  {
  }

  /** The ticket table gives the same verdict on an update as the lock table. */
  lemma PrepareFromRecord(e: map<Key, Element>, tickets: map<Ticket, Record>, t: Ticket, update: map<Key, Value>)
    requires Tables(e, tickets)
    ensures var refusals := PrepareRefusals(Shard(e, Infos(tickets)), t, update);
            && (t !in tickets ==> refusals == {UnknownTicket})
            && (t in tickets ==> match tickets[t].info.phase
                case Prepared => refusals == {AlreadyPrepared}
                case Committed => refusals == {AlreadyCommitted}
                case Wounded => refusals == {TicketWounded}
                case Begun =>
                  if tickets[t].queued != {} then refusals == {LockQueued}
                  else
                    && (forall k :: k in update && k !in tickets[t].held ==> LockNotHeld in refusals)
                    && (forall k :: k in update && k in tickets[t].held && tickets[t].held[k].Read? ==>
                          UpdateWithReadLock in refusals)
                    && ((forall k :: k in update ==> k in tickets[t].held && tickets[t].held[k].Write?) ==>
                          refusals == {}))
  {
    if t in tickets {
      RecordLists(e, tickets, t);
      forall k ensures Linked(e, tickets[t], t, k) {
      }
    }
  }

  lemma ForgetTables(e: map<Key, Element>, tickets: map<Ticket, Record>, t: Ticket)
    requires Tables(e, tickets) && forall k :: k in e ==> !Mentions(e[k].lock, t)
    ensures Tables(e, tickets - {t})
  {
    forall u, k | u in tickets - {t} ensures Linked(e, (tickets - {t})[u], u, k) {
      assert Linked(e, tickets[u], u, k);
    }
  }

  lemma ForgetKeepsTables(e: map<Key, Element>, tickets: map<Ticket, Record>, t: Ticket, before: map<Key, Element>)
    requires Tables(e, tickets) && e == Relock(before, {t})
    ensures Tables(e, tickets - {t})
  {
    forall k | k in e ensures !Mentions(e[k].lock, t) {
      RelockForgets(before[k].lock, t);
    }
    ForgetTables(e, tickets, t);
  }

  lemma {:induction false} SettleAddsNobody(l: RwLock)
    ensures forall t :: Mentions(Settle(l), t) ==> Mentions(l, t)
    decreases |l.queue|
  {
    if Grantable(l) {
      assert l.queue.Keys == GrantFront(l).queue.Keys + {Front(l.queue)};
      SettleAddsNobody(GrantFront(l));
    }
  }

  lemma RelockForgets(l: RwLock, t: Ticket)
    ensures !Mentions(Settle(Release(l, {t})), t)
  {
    SettleAddsNobody(Release(l, {t}));
  }

  class RuntimeLockingShard {
    var elements: map<Key, Element>
    var tickets: map<Ticket, Record>

    ghost function Abs(): Shard
      reads this
    {
      Shard(elements, Infos(tickets))
    }

    ghost predicate Valid()
      reads this
    {
      Tables(elements, tickets) && Inv(Abs())
    }

    constructor ()
      ensures Valid() && Abs() == EMPTY_SHARD
    {
      elements, tickets := map[], map[];
    }

    /** Grants the front of the queue of `k` if it can be granted; tells whether the next
        ticket in the queue may be granted too. */
    method AcquireLock(k: Key) returns (acquireNext: bool, callbacks: seq<Answer>)
      requires Tables(elements, tickets) && k in elements
      modifies this
      ensures Tables(elements, tickets) && Infos(tickets) == old(Infos(tickets))
      ensures var l := old(elements)[k].lock;
              if Grantable(l) then
                var f := Front(l.queue);
                && elements == old(elements)[k := Element(old(elements)[k].value, GrantFront(l))]
                && callbacks == [Granted(l.queue[f].callback, f, k, old(elements)[k].value)]
                && acquireNext == l.queue[f].lockType.Read?
              else elements == old(elements) && callbacks == [] && !acquireNext
    {
      var element := elements[k];
      var lk := element.lock;
      if lk.queue == map[] {
        return false, [];
      }
      acquireNext := true;
      var t := Front(lk.queue);
      var w := lk.queue[t];
      var writer, readers := lk.writer, lk.readers;
      CardinalityOf(readers, t);
      if w.lockType == Read {
        if writer.Some? {
          return false, [];
        }
        readers := readers + {t};
      }
      if w.lockType == Write {
        if |readers| > 1 || writer.Some? {
          return false, [];
        }
        if |readers| == 1 {
          if t !in readers {
            return false, [];
          }
          readers := {};
        }
        writer := Some(t);
        acquireNext := false;
      }
      assert Grantable(lk) && RwLock(writer, readers, lk.queue - {t}) == GrantFront(lk);
      GrantKeepsTables(elements, tickets, k);
      tickets := tickets[t := tickets[t].(queued := tickets[t].queued - {k}, held := tickets[t].held[k := w.lockType])];
      elements := elements[k := Element(element.value, RwLock(writer, readers, lk.queue - {t}))];
      callbacks := [Granted(w.callback, t, k, element.value)];
    }

    /** Grants the queue of `k` from its front until it cannot be granted further. */
    method AcquireKey(k: Key) returns (callbacks: seq<Answer>)
      requires Tables(elements, tickets) && k in elements
      modifies this
      ensures Tables(elements, tickets) && Infos(tickets) == old(Infos(tickets))
      ensures elements == old(elements)[k := Element(old(elements)[k].value, Settle(old(elements)[k].lock))]
      ensures var l := old(elements)[k].lock;
              Lists(callbacks, KeyGrants(k, old(elements)[k].value, l, Settle(l)))
    {
      hide Tables, Infos, GrantFront, GrantedSoFar, Grantable, Settle, Lists, KeyGrants;
      ghost var l, v := elements[k].lock, elements[k].value;
      var more := true;
      callbacks := [];
      GrantingStarts(k, v, l);
      while more
        invariant Tables(elements, tickets) && Infos(tickets) == old(Infos(tickets))
        invariant k in elements && elements[k].value == v && elements == old(elements)[k := elements[k]]
        invariant GrantedSoFar(k, v, l, elements[k].lock, callbacks)
        invariant !more ==> !Grantable(elements[k].lock)
        decreases |elements[k].lock.queue|, more
      {
        if Grantable(elements[k].lock) {
          GrantOneMore(k, v, l, elements[k].lock, callbacks);
        }
        var granted: seq<Answer>;
        more, granted := AcquireLock(k);
        assert callbacks + [] == callbacks;
        callbacks := callbacks + granted;
      }
      GrantingEnds(k, v, l, elements[k].lock, callbacks);
    }

    /** Grants the queues of all `keys`. */
    method AcquireLocks(keys: set<Key>) returns (callbacks: seq<Answer>)
      requires Tables(elements, tickets) && keys <= elements.Keys
      modifies this
      ensures Tables(elements, tickets) && Infos(tickets) == old(Infos(tickets))
      ensures elements == SettleAll(old(elements), keys)
      ensures Lists(callbacks, SettleGrants(old(elements), keys))
    {
      hide Tables, Infos, Settle, Lists;
      ghost var e := elements;
      var todo := keys;
      callbacks := [];
      assert SettleAll(e, {}) == e;
      SettleGrantsNone(e);
      assert keys - todo == {};
      while todo != {}
        invariant todo <= keys && Tables(elements, tickets) && Infos(tickets) == old(Infos(tickets))
        invariant elements == SettleAll(e, keys - todo)
        invariant Lists(callbacks, SettleGrants(e, keys - todo))
        decreases todo
      {
        var k :| k in todo;
        var granted := AcquireKey(k);
        SettleOneMore(e, keys - todo, k, callbacks, granted);
        callbacks := callbacks + granted;
        assert keys - (todo - {k}) == keys - todo + {k};
        todo := todo - {k};
      }
      assert keys - todo == keys;
    }

    /** Withdraws the queued requests of `t` and releases its locks; returns the answers to
        the withdrawn requests and the keys affected. */
    method ReleaseLocks(t: Ticket) returns (callbacks: seq<Answer>, keys: set<Key>)
      requires Tables(elements, tickets) && t in tickets
      modifies this
      ensures Tables(elements, tickets)
      ensures elements == ReleaseAll(old(elements), {t})
      ensures tickets == old(tickets)[t := old(tickets)[t].(held := map[], queued := {})]
      ensures Lists(callbacks, Withdrawals(old(elements), t, old(tickets)[t].info.wound))
      ensures keys == set k | k in old(elements) && Mentions(old(elements)[k].lock, t)
    {
      hide Tables, Lists, Withdrawals, WithdrawalsOn, Mentions, Release;
      ghost var e, table := elements, tickets;
      var rec := tickets[t];
      RecordIsComplete(e, table, t, rec.info.wound);
      ReleaseKeepsTables(e, table, t);
      callbacks := [];
      WithdrawalsNone(e, t, rec.info.wound);
      var todo := rec.queued;
      assert UnqueueAll(e, t, {}) == e && rec.queued - todo == {};
      while todo != {}
        invariant todo <= rec.queued && tickets == table
        invariant elements == UnqueueAll(e, t, rec.queued - todo)
        invariant Lists(callbacks, WithdrawalsOn(e, t, rec.info.wound, rec.queued - todo))
        decreases todo
      {
        var k :| k in todo;
        QueuedKey(e, table, t, k);
        var lk := elements[k].lock;
        callbacks := callbacks + [Refused(lk.queue[t].callback, t, k, TicketWounded, rec.info.wound)];
        elements := elements[k := Element(elements[k].value, lk.(queue := lk.queue - {t}))];
        UnqueueOneMore(e, t, rec.queued - todo, k, rec.info.wound, callbacks[..|callbacks| - 1]);
        assert rec.queued - (todo - {k}) == rec.queued - todo + {k};
        todo := todo - {k};
      }
      assert rec.queued - todo == rec.queued;
      keys := rec.queued;
      var held := rec.held.Keys;
      assert rec.held.Keys - held == {};
      while held != {}
        invariant held <= rec.held.Keys && tickets == table
        invariant elements == UnholdAll(e, t, rec.held.Keys - held)
        invariant keys == rec.queued + (rec.held.Keys - held)
        decreases held
      {
        var k :| k in held;
        UnholdOne(e, table, t, k, rec.held.Keys - held);
        var lk := elements[k].lock;
        if rec.held[k] == Read {
          lk := lk.(readers := lk.readers - {t});
        }
        if rec.held[k] == Write {
          lk := lk.(writer := None);
        }
        elements := elements[k := Element(elements[k].value, lk)];
        keys := keys + {k};
        assert rec.held.Keys - (held - {k}) == rec.held.Keys - held + {k};
        held := held - {k};
      }
      assert rec.held.Keys - held == rec.held.Keys;
      tickets := tickets[t := rec.(held := map[], queued := {})];
    }

    /** Wounds each blocking ticket that is not prepared; returns the answers to its withdrawn
        requests and the keys it gave up. */
    method WoundEach(k: Key, blocking: set<Ticket>, blocked: Ticket) returns (callbacks: seq<Answer>, keys: set<Key>)
      requires Tables(elements, tickets) && blocking <= tickets.Keys
      modifies this
      ensures var victims := Unprepared(old(tickets), blocking);
              && Tables(elements, tickets)
              && Infos(tickets) == WoundAll(old(Infos(tickets)), victims, blocked, k)
              && elements == ReleaseAll(old(elements), victims)
              && keys == AffectedKeys(old(elements), victims)
              && Lists(callbacks, WithdrawalsAll(old(elements), victims, Some(WoundDetails(blocked, k))))
    {
      hide Tables, Lists, Mentions, ReleaseAll, Withdrawals, WithdrawalsAll, Infos, WoundAll, AffectedKeys;
      ghost var e, table := elements, tickets;
      ghost var victims := Unprepared(table, blocking);
      var details := Some(WoundDetails(blocked, k));
      ghost var wounded := {};
      keys, callbacks := {}, [];
      var todo := blocking;
      NothingWounded(e, Infos(table), details, blocked, k);
      while todo != {}
        invariant todo <= blocking && wounded <= victims
        invariant forall b :: b in victims ==> (b in wounded <==> b !in todo)
        invariant Tables(elements, tickets) && tickets.Keys == table.Keys
        invariant Infos(tickets) == WoundAll(Infos(table), wounded, blocked, k)
        invariant elements == ReleaseAll(e, wounded) && keys == AffectedKeys(e, wounded)
        invariant Lists(callbacks, WithdrawalsAll(e, wounded, details))
        decreases todo
      {
        var b :| b in todo;
        InfoUnder(table, tickets, wounded, blocked, k, b);
        if !tickets[b].info.phase.Prepared? {
          ghost var before := tickets;
          InfoKeepsTables(elements, tickets, b, tickets[b].info.(phase := Wounded, wound := details));
          tickets := tickets[b := tickets[b].(info := tickets[b].info.(phase := Wounded, wound := details))];
          var withdrawn, affected := ReleaseLocks(b);
          WoundOneMore(table, before, tickets, wounded, blocked, k, b);
          ReleaseOneMore(e, wounded, b);
          WithdrawOneMore(e, wounded, b, details);
          ListsAppend(callbacks, WithdrawalsAll(e, wounded, details), withdrawn,
            Withdrawals(ReleaseAll(e, wounded), b, details));
          assert WithdrawalsAll(e, wounded, details) + Withdrawals(ReleaseAll(e, wounded), b, details)
            == WithdrawalsAll(e, wounded + {b}, details);
          callbacks := callbacks + withdrawn;
          keys := affected + keys;
          wounded := wounded + {b};
        }
        todo := todo - {b};
      }
      assert wounded == victims;
    }

    /** Wounds the blocking tickets that are not prepared, then grants the queues of every
        key they gave up and of `k`. */
    method WoundTickets(k: Key, blocking: set<Ticket>, blocked: Ticket) returns (callbacks: seq<Answer>)
      requires Tables(elements, tickets) && k in elements && blocking <= tickets.Keys
      requires forall j :: j in elements && j != k ==> !Grantable(elements[j].lock)
      modifies this
      ensures var victims := Unprepared(old(tickets), blocking);
              && Tables(elements, tickets)
              && Infos(tickets) == WoundAll(old(Infos(tickets)), victims, blocked, k)
              && elements == Relock(old(elements), victims)
              && Lists(callbacks, RelockAnswers(old(elements), Infos(tickets), victims))
    {
      hide Tables, Lists, Grantable, Relock, RelockAnswers;
      ghost var e := elements;
      ghost var victims := Unprepared(tickets, blocking);
      ghost var details := Some(WoundDetails(blocked, k));
      var keys;
      callbacks, keys := WoundEach(k, blocking, blocked);
      keys := keys + {k};
      SettleAllIsRelock(e, victims, keys);
      SettleAnswersAreRelock(e, Infos(tickets), victims, keys, details);
      var granted := AcquireLocks(keys);
      ListsAppend(callbacks, WithdrawalsAll(e, victims, details), granted, SettleGrants(ReleaseAll(e, victims), keys));
      callbacks := callbacks + granted;
    }

    /** Why a lock request is refused, if it is. */
    method RefuseLock(t: Ticket, k: Key, ty: LockType, first: bool) returns (refusal: Option<ErrorCode>)
      requires Tables(elements, tickets)
      ensures refusal == TryLockRefusal(Abs(), t, k, ty, first)
    {
      RefusalFromRecord(elements, tickets, t, k, ty, first);
      hide TryLockRefusal, Tables;
      if t !in tickets {
        if !first {
          return Some(UnknownTicket);
        }
        return None;
      }
      var ticket := tickets[t];
      if ticket.info.phase == Prepared {
        return Some(AlreadyPrepared);
      }
      if ticket.info.phase == Committed {
        return Some(AlreadyCommitted);
      }
      if ticket.info.phase == Wounded {
        return Some(TicketWounded);
      }
      if k in ticket.held && ticket.held[k].Covers(ty) {
        return Some(LockHeld);
      }
      if k in ticket.queued {
        return Some(LockQueued);
      }
      return None;
    }

    /** Queues a request that was accepted, wounds the younger holders in its way, and grants. */
    method QueueLock(t: Ticket, broker: nat, k: Key, ty: LockType, callback: nat) returns (answers: seq<Answer>)
      requires Tables(elements, tickets) && t in tickets && k !in tickets[t].queued
      requires k in tickets[t].held ==> tickets[t].held[k].Read? && ty.Write?
      requires forall j :: j in elements && j != k ==> !Grantable(elements[j].lock)
      modifies this
      ensures Tables(elements, tickets)
      ensures var s := old(Abs());
              var e, victims := Queued(s, t, k, Waiter(ty, callback)), Victims(s, t, k, ty);
              && elements == Relock(e, victims)
              && Infos(tickets) == WoundAll(Register(s, t, broker), victims, t, k)
              && Lists(answers, RelockAnswers(e, Infos(tickets), victims))
    {
      ghost var s := Abs();
      hide Tables, Lists, Relock, RelockAnswers, Grantable, Unprepared, Victims;
      InfoKeepsTables(elements, tickets, t, tickets[t].info.(broker := broker));
      tickets := tickets[t := tickets[t].(info := tickets[t].info.(broker := broker))];
      var element := ElementAt(elements, k);
      EnqueueKeepsTables(elements, tickets, t, k, Waiter(ty, callback));
      elements := elements[k := Element(element.value, Enqueue(element.lock, t, Waiter(ty, callback)))];
      tickets := tickets[t := tickets[t].(queued := tickets[t].queued + {k})];
      assert Infos(tickets) == Register(s, t, broker);
      var waitingOn := WaitingOn(elements[k].lock, t, ty);
      HoldersKnown(elements, tickets, k, t, ty);
      VictimsFromRecords(s, tickets, t, k, ty, broker, waitingOn);
      answers := WoundTickets(k, waitingOn, t);
    }

    /** Requests a lock; answers the request at once, or queues it and wounds younger holders. */
    method TryLock(t: Ticket, broker: nat, k: Key, ty: LockType, first: bool, callback: nat)
      returns (answers: seq<Answer>)
      requires Valid() && (first ==> t !in tickets)
      modifies this
      ensures Valid()
      ensures var out := ShardSpec.TryLock(old(Abs()), t, broker, k, ty, first, callback);
              Abs() == out.shard && Lists(answers, out.answers)
    {
      hide Inv, Tables, Lists, Relock, RelockAnswers, TryLockRefusal, Grantable, WoundAll, Register, Victims, Queued,
        ShardSpec.TryLock;
      ghost var s := Abs();
      TryLockKeepsInv(s, t, broker, k, ty, first, callback);
      TryLockOutcome(s, t, broker, k, ty, first, callback);
      var refusal := RefuseLock(t, k, ty, first);
      if refusal.Some? {
        if refusal.value.TicketWounded? {
          RefusalKnown(s, t, k, ty, first);
        }
        var details := if refusal.value.TicketWounded? then tickets[t].info.wound else None;
        answers := [Refused(callback, t, k, refusal.value, details)];
        ListsOne(answers[0]);
      } else {
        AcceptedRecord(s, elements, tickets, t, k, ty, first);
        SettledElsewhere(s, k);
        if t !in tickets {
          NewTicketSame(s, t, broker, k, ty, callback);
          RegisterKeepsTables(elements, tickets, t);
          tickets := tickets[t := Record(NEW_TICKET, map[], {})];
          assert Abs() == s.(tickets := s.tickets[t := NEW_TICKET]);
        }
        answers := QueueLock(t, broker, k, ty, callback);
      }
    }

    /** Why an update cannot be prepared, if it cannot. */
    method RefusePrepare(t: Ticket, update: map<Key, Value>) returns (error: Option<ShardError>)
      requires Tables(elements, tickets)
      ensures error.None? <==> PrepareRefusals(Abs(), t, update) == {}
      ensures error.Some? ==> error.value.code in PrepareRefusals(Abs(), t, update)
    {
      PrepareFromRecord(elements, tickets, t, update);
      hide PrepareRefusals, Tables;
      if t !in tickets {
        return Some(ShardError(UnknownTicket, None));
      }
      var ticket := tickets[t];
      if ticket.info.phase == Prepared {
        return Some(ShardError(AlreadyPrepared, None));
      }
      if ticket.info.phase == Committed {
        return Some(ShardError(AlreadyCommitted, None));
      }
      if ticket.info.phase == Wounded {
        return Some(ShardError(TicketWounded, ticket.info.wound));
      }
      if ticket.queued != {} {
        return Some(ShardError(LockQueued, None));
      }
      var todo := update.Keys;
      while todo != {}
        invariant todo <= update.Keys
        invariant forall k :: k in update && k !in todo ==> k in ticket.held && ticket.held[k].Write?
        decreases todo
      {
        var k :| k in todo;
        if k !in ticket.held {
          return Some(ShardError(LockNotHeld, None));
        }
        if ticket.held[k] != Write {
          return Some(ShardError(UpdateWithReadLock, None));
        }
        todo := todo - {k};
      }
      return None;
    }

    /** Stores the update of a ticket and protects the ticket from being wounded. */
    method Prepare(t: Ticket, update: map<Key, Value>) returns (error: Option<ShardError>)
      requires Valid()
      modifies this
      ensures Valid() && Abs() == ShardSpec.Prepare(old(Abs()), t, update)
      ensures error.None? <==> PrepareRefusals(old(Abs()), t, update) == {}
      ensures error.Some? ==> error.value.code in PrepareRefusals(old(Abs()), t, update)
    {
      ghost var s := Abs();
      PrepareKeepsInv(s, t, update);
      error := RefusePrepare(t, update);
      if error.None? {
        PreparedKnown(s, t, update);
        hide Inv, Tables, PrepareRefusals;
        var ticket := tickets[t];
        InfoKeepsTables(elements, tickets, t, ticket.info.(update := update, phase := Prepared));
        tickets := tickets[t := ticket.(info := ticket.info.(update := update, phase := Prepared))];
        assert Infos(tickets) == s.tickets[t := s.tickets[t].(phase := Prepared, update := update)];
      }
    }

    /** Writes the update of a prepared ticket into the key table. */
    method WriteUpdate(update: map<Key, Value>)
      requires update.Keys <= elements.Keys
      modifies this`elements
      ensures elements == Apply(old(elements), update)
    {
      var todo := update.Keys;
      assert Apply(elements, map[]) == elements && update - update.Keys == map[];
      while todo != {}
        invariant todo <= update.Keys && elements == Apply(old(elements), update - todo)
        decreases todo
      {
        var k :| k in todo;
        elements := elements[k := elements[k].(value := update[k])];
        assert update - (todo - {k}) == (update - todo)[k := update[k]];
        todo := todo - {k};
      }
      assert update - todo == update;
    }

    /** Releases the locks of `t` and grants them onwards; answers the granted requests, then
        the requests of `t` that were still queued. */
    method HandOver(t: Ticket) returns (callbacks: seq<Answer>)
      requires Tables(elements, tickets) && t in tickets
      requires forall k :: k in elements ==> !Grantable(elements[k].lock)
      modifies this
      ensures Tables(elements, tickets) && Infos(tickets) == old(Infos(tickets))
      ensures elements == Relock(old(elements), {t})
      ensures Lists(callbacks, RelockAnswers(old(elements), old(Infos(tickets)), {t}))
    {
      hide Tables, Lists, Relock, RelockAnswers, Grantable;
      ghost var e, infos := elements, Infos(tickets);
      ghost var details := infos[t].wound;
      var withdrawn, affected := ReleaseLocks(t);
      assert Infos(tickets) == infos;
      assert affected == AffectedKeys(e, {t});
      SettleAllIsRelock(e, {t}, affected);
      SettleAnswersAreRelock(e, infos, {t}, affected, details);
      assert Withdrawals(e, t, details) == WithdrawalsAll(e, {t}, details);
      callbacks := AcquireLocks(affected);
      ListsAppend(callbacks, SettleGrants(ReleaseAll(e, {t}), affected), withdrawn, WithdrawalsAll(e, {t}, details));
      assert SettleGrants(ReleaseAll(e, {t}), affected) + WithdrawalsAll(e, {t}, details)
          == WithdrawalsAll(e, {t}, details) + SettleGrants(ReleaseAll(e, {t}), affected);
      callbacks := callbacks + withdrawn;
    }

    /** Applies the update of a prepared ticket, releases its locks and grants them onwards. */
    method Commit(t: Ticket) returns (error: Option<ShardError>, callbacks: seq<Answer>)
      requires Valid()
      modifies this
      ensures Valid() && Abs() == ShardSpec.Commit(old(Abs()), t).shard
      ensures Lists(callbacks, ShardSpec.Commit(old(Abs()), t).answers)
      ensures CommitRefusal(old(Abs()), t) == if error.Some? then Some(error.value.code) else None
      ensures forall a :: a in callbacks ==> a.Granted?
    {
      ghost var s := Abs();
      CommitKeepsInv(s, t);
      CommitRefusesNobody(s, t);
      if t !in tickets {
        return Some(ShardError(UnknownTicket, None)), [];
      }
      if tickets[t].info.phase != Prepared {
        return Some(ShardError(NotPrepared, None)), [];
      }
      ApplyKeepsLocks(s, t);
      SettledEverywhere(s);
      CommitOutcome(s, t);
      hide Inv, Tables, Lists, Relock, RelockAnswers, Apply, Grantable, ShardSpec.Commit;
      WriteUpdate(tickets[t].info.update);
      SameLocksKeepTables(s.elements, elements, tickets);
      callbacks := HandOver(t);
      KnownByInfos(tickets, s.tickets, t);
      InfoKeepsTables(elements, tickets, t, tickets[t].info.(phase := Committed));
      tickets := tickets[t := tickets[t].(info := tickets[t].info.(phase := Committed))];
      error := None;
    }

    /** Releases the locks of a ticket, grants them onwards, and forgets the ticket. */
    method Rollback(t: Ticket) returns (error: Option<ShardError>, callbacks: seq<Answer>)
      requires Valid()
      modifies this
      ensures Valid() && Abs() == ShardSpec.Rollback(old(Abs()), t).shard
      ensures Lists(callbacks, ShardSpec.Rollback(old(Abs()), t).answers)
      ensures error == if t in old(Abs()).tickets then None else Some(ShardError(UnknownTicket, None))
    {
      ghost var s := Abs();
      RollbackKeepsInv(s, t);
      if t !in tickets {
        return Some(ShardError(UnknownTicket, None)), [];
      }
      SettledEverywhere(s);
      RollbackOutcome(s, t);
      hide Inv, Tables, Lists, Relock, RelockAnswers, Grantable, ShardSpec.Rollback;
      callbacks := HandOver(t);
      KnownByInfos(tickets, s.tickets, t);
      ForgetKeepsTables(elements, tickets, t, s.elements);
      tickets := tickets - {t};
      error := None;
    }

    /** Forgets a committed ticket. */
    method Finish(t: Ticket) returns (error: Option<ShardError>)
      requires Valid()
      modifies this
      ensures Valid() && Abs() == ShardSpec.Finish(old(Abs()), t)
      ensures FinishRefusal(old(Abs()), t) == if error.Some? then Some(error.value.code) else None
    {
      ghost var s := Abs();
      FinishKeepsInv(s, t);
      if t !in tickets {
        return Some(ShardError(UnknownTicket, None));
      }
      if tickets[t].info.phase != Committed {
        return Some(ShardError(NotCommitted, None));
      }
      CommittedUnmentioned(s, t);
      ForgetTables(elements, tickets, t);
      tickets := tickets - {t};
      error := None;
      assert Infos(tickets) == s.tickets - {t};
    }

    /** The phase of every ticket that the given broker manages. */
    method GetTickets(broker: nat) returns (phases: map<Ticket, Phase>)
      ensures phases == map t | t in tickets && tickets[t].info.broker == broker :: tickets[t].info.phase
    {
      phases := map[];
      var todo := tickets.Keys;
      while todo != {}
        invariant todo <= tickets.Keys
        invariant phases == map t | t in tickets && t !in todo && tickets[t].info.broker == broker ::
                  tickets[t].info.phase
        decreases todo
      {
        var t :| t in todo;
        if tickets[t].info.broker == broker {
          phases := phases[t := tickets[t].info.phase];
        }
        todo := todo - {t};
      }
    }
  }
}
