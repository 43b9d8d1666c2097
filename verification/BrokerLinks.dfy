/** Every step of a broker keeps the relation between broker, links and shards. */
module BrokerLinks {
  import opened Basics
  import opened LockTable
  import opened ShardSpec
  import opened BrokerSpec
  import opened Links

  /** No shard of the ticket is being or has been rolled back. */
  predicate Calm(b: TicketState) {
    forall s :: s in b.shards ==> !b.shards[s].phase.RollingBack? && !b.shards[s].phase.RolledBack?
  }

  /** Every shard of the ticket that it has locks on is being or has been rolled back. */
  predicate Back(b: TicketState) {
    forall s :: s in b.shards ==>
      b.shards[s].phase.RollingBack? || b.shards[s].phase.RolledBack? || b.shards[s] == NEW_SHARD_STATE
  }

  /** What the client was told and asked for concerns shards the broker knows about. */
  ghost predicate Covered(dir: Key -> ShardId, b: TicketState, c: Client) {
    && (forall k, v :: (k, v) in c.told ==> dir(k) in b.shards)
    && (c.update.Some? ==> forall k :: k in c.update.value ==> dir(k) in b.shards)
  }

  ghost predicate TicketInv(dir: Key -> ShardId, b: TicketState, c: Client) {
    match b.phase
    case InProgress => Covered(dir, b, c) && (Calm(b) || Back(b))
    case AllPrepared =>
      && c.update.Some? && Covered(dir, b, c) && !AllIn(b, AtCommitted)
      && forall s :: s in b.shards ==> b.shards[s].phase.Committing? || b.shards[s].phase.AtCommitted?
    case AllCommitted =>
      && !AllIn(b, Finished)
      && forall s :: s in b.shards ==>
           b.shards[s].phase.AtCommitted? || b.shards[s].phase.Finishing?
           || b.shards[s].phase.Finished?
    case Aborted => AllIn(b, RolledBack)
  }

  /** The link of shard `s` after the broker sent `sends`. */
  function Sent(link: Link, sends: map<ShardId, Request>, s: ShardId): Link {
    if s in sends then link.(reqs := link.reqs + [sends[s]]) else link
  }

  function Popped(link: Link): Link
    requires link.resps != []
  {
    link.(resps := link.resps[1..])
  }

  /** The client after a lock request was answered with a value. */
  function Told(c: Client, k: Key, reply: Reply): Client {
    if reply.ValueReply? then c.(told := c.told + {(k, reply.value)}) else c
  }

  // ---- Lock requests ----

  /** The client does not ask for locks while its ticket is rolled back. */
  function ClientOfLock(b: TicketState, c: Client): Client { if b.phase.Aborted? then NEW_CLIENT else c }

  lemma AskLockTicket(dir: Key -> ShardId, b: TicketState, c: Client, k: Key, ty: LockType)
    requires TicketInv(dir, b, c) && (b.phase.InProgress? ==> Calm(b))
    ensures var step := BrokerSpec.TryLock(b, dir(k), k, ty);
            step.state.Some? && TicketInv(dir, step.state.value, Told(ClientOfLock(b, c), k, step.reply))
  {
  }

  lemma AskLockOther(dir: Key -> ShardId, b: TicketState, c: Client, t: Ticket, s: ShardId, sh: Shard, link: Link,
                     k: Key, ty: LockType)
    requires TicketInv(dir, b, c) && LinkInv(dir, Some(b), c, t, s, sh, link)
    requires s != dir(k) && (b.phase.InProgress? ==> Calm(b))
    ensures var step := BrokerSpec.TryLock(b, dir(k), k, ty);
            && s !in step.sends
            && LinkInv(dir, step.state, Told(ClientOfLock(b, c), k, step.reply), t, s, sh, link)
  {
  }

  /** An idle link is an active one on which nothing is locked yet. */
  lemma IdleIsActive(dir: Key -> ShardId, c: Client, t: Ticket, s: ShardId, sh: Shard, link: Link)
    requires Idle(t, sh, link) && forall j, v :: (j, v) in c.told ==> dir(j) != s
    ensures Active(dir, c, t, s, sh, link, NEW_SHARD_STATE)
  {
    RollbacksForward(link.reqs);
  }

  lemma NextLock(dir: Key -> ShardId, c: Client, t: Ticket, s: ShardId, sh: Shard, link: Link, st: ShardState, k: Key,
                 ty: LockType)
    requires Active(dir, c, t, s, sh, link, st) && dir(k) == s
    ensures Active(dir, c, t, s, sh, link.(reqs := link.reqs + [TryLockReq(k, ty, st.keys == map[])]),
                   st.(keys := st.keys[k := KeyState(false, ty, KnownValue(st, k))]))
  {
    ForwardAppend(t in sh.tickets, link.reqs, TryLockReq(k, ty, st.keys == map[]));
    assert k in st.keys[k := KeyState(false, ty, KnownValue(st, k))];
  }

  lemma ToldMore(dir: Key -> ShardId, c: Client, t: Ticket, s: ShardId, sh: Shard, link: Link, st: ShardState, k: Key,
                 v: Value)
    requires Active(dir, c, t, s, sh, link, st) && Current(sh, t, k, v)
    ensures Active(dir, c.(told := c.told + {(k, v)}), t, s, sh, link, st)
  {
  }

  lemma AskLockOwn(dir: Key -> ShardId, b: TicketState, c: Client, t: Ticket, sh: Shard, link: Link, k: Key,
                   ty: LockType)
    requires TicketInv(dir, b, c) && LinkInv(dir, Some(b), c, t, dir(k), sh, link)
    requires b.phase.InProgress? ==> Calm(b)
    ensures var s, step := dir(k), BrokerSpec.TryLock(b, dir(k), k, ty);
            LinkInv(dir, step.state, Told(ClientOfLock(b, c), k, step.reply), t, s, sh, Sent(link, step.sends, s))
  {
    hide Active, Idle;
    var s := dir(k);
    if b.phase.InProgress? || b.phase.Aborted? {
      var r, c0 := Restarted(b), ClientOfLock(b, c);
      var st := ShardAt(r, s);
      if s !in r.shards {
        IdleIsActive(dir, c0, t, s, sh, link);
      }
      if Cached(st, k, ty).None? {
        NextLock(dir, c0, t, s, sh, link, st, k, ty);
      } else {
        CachedIsCurrent(dir, c0, t, s, sh, link, st, k, ty);
        ToldMore(dir, c0, t, s, sh, link, st, k, Cached(st, k, ty).value);
      }
    }
  }

  lemma CachedIsCurrent(dir: Key -> ShardId, c: Client, t: Ticket, s: ShardId, sh: Shard, link: Link, st: ShardState,
                        k: Key, ty: LockType)
    requires Active(dir, c, t, s, sh, link, st) && Cached(st, k, ty).Some?
    ensures Current(sh, t, k, Cached(st, k, ty).value)
  {
  }

  // ---- Commit requests ----

  /** The client asks to commit one update per attempt, and not while its ticket is rolled back. */
  predicate MayCommit(b: TicketState, c: Client, update: map<Key, Value>) {
    b.phase.InProgress? ==> Calm(b) && (c.update.None? || c.update.value == update)
  }

  function ClientOfCommit(b: TicketState, c: Client, update: map<Key, Value>): Client {
    if b.phase.InProgress? && BrokerSpec.Commit(b, update).reply.NoReply? then c.(update := Some(update)) else c
  }

  /** Each key is tracked under its own shard only. */
  ghost predicate TracksOwn(dir: Key -> ShardId, b: TicketState) {
    forall s, k :: s in b.shards && k in b.shards[s].keys ==> dir(k) == s
  }

  /** Splitting an update by tracked keys loses nothing: the part sent to a shard is its share. */
  lemma PartIsShare(dir: Key -> ShardId, b: TicketState, update: map<Key, Value>, s: ShardId)
    requires TracksOwn(dir, b) && update.Keys <= KeysOf(b) && s in b.shards
    ensures Part(update, b.shards[s]) == Share(dir, update, s)
  {
    forall k | k in update && dir(k) == s ensures k in b.shards[s].keys {
      assert k in KeysOf(b);
    }
  }

  /** The shares of different shards are disjoint, and every key of the update is in one of them. */
  lemma SharesPartition(dir: Key -> ShardId, b: TicketState, update: map<Key, Value>)
    requires TracksOwn(dir, b) && update.Keys <= KeysOf(b)
    ensures forall s, s' :: s in b.shards && s' in b.shards && s != s' ==>
              Part(update, b.shards[s]).Keys !! Part(update, b.shards[s']).Keys
    ensures forall k :: k in update ==>
              dir(k) in b.shards && k in Part(update, b.shards[dir(k)])
                && Part(update, b.shards[dir(k)])[k] == update[k]
  {
    forall k | k in update ensures dir(k) in b.shards && k in b.shards[dir(k)].keys {
      assert k in KeysOf(b);
    }
  }

  lemma AdvanceLeaves(b: TicketState, skip: ShardPhase, p: ShardPhase)
    requires !AllIn(b, skip) && p != skip
    ensures !AllIn(Advance(b, skip, p), skip)
  {
    var s :| s in b.shards && b.shards[s].phase != skip;
    assert Advance(b, skip, p).shards[s].phase == p;
  }

  lemma AskCommitTicket(dir: Key -> ShardId, b: TicketState, c: Client, update: map<Key, Value>)
    requires TicketInv(dir, b, c) && TracksOwn(dir, b) && MayCommit(b, c, update)
    ensures var step := BrokerSpec.Commit(b, update);
            step.state.Some? && TicketInv(dir, step.state.value, ClientOfCommit(b, c, update))
  {
    if update.Keys <= KeysOf(b) {
      UpdateCovered(dir, b, update);
    }
    if b.phase.AllPrepared? {
      AdvanceLeaves(b, AtCommitted, Committing);
    }
    hide KeysOf, TracksOwn, Part;
  }

  lemma UpdateCovered(dir: Key -> ShardId, b: TicketState, update: map<Key, Value>)
    requires TracksOwn(dir, b) && update.Keys <= KeysOf(b)
    ensures forall k :: k in update ==> dir(k) in b.shards
  {
    forall k | k in update ensures dir(k) in b.shards {
      assert k in KeysOf(b);
    }
  }

  lemma SendPrepare(dir: Key -> ShardId, c: Client, t: Ticket, s: ShardId, sh: Shard, link: Link, st: ShardState,
                    update: map<Key, Value>)
    requires Active(dir, c, t, s, sh, link, st) && (c.update.None? || c.update.value == update)
    ensures Active(dir, c.(update := Some(update)), t, s, sh,
                   link.(reqs := link.reqs + [PrepareReq(Share(dir, update, s))]), st.(phase := Preparing))
    ensures st.phase.AtPrepared? ==> c.update == Some(update)
  {
    ForwardAppend(t in sh.tickets, link.reqs, PrepareReq(Share(dir, update, s)));
  }

  lemma AskCommitLink(dir: Key -> ShardId, b: TicketState, c: Client, t: Ticket, s: ShardId, sh: Shard, link: Link,
                      update: map<Key, Value>)
    requires TicketInv(dir, b, c) && LinkInv(dir, Some(b), c, t, s, sh, link) && TracksOwn(dir, b)
             && MayCommit(b, c, update)
    ensures var step := BrokerSpec.Commit(b, update);
            LinkInv(dir, step.state, ClientOfCommit(b, c, update), t, s, sh, Sent(link, step.sends, s))
  {
    if s in b.shards && b.phase.InProgress? && BrokerSpec.Commit(b, update).reply.NoReply? {
      PartIsShare(dir, b, update, s);
      SendPrepare(dir, c, t, s, sh, link, b.shards[s], update);
    }
  }

  // ---- Rollback and finish requests ----

  lemma AskRollbackTicket(dir: Key -> ShardId, b: TicketState, c: Client)
    requires TicketInv(dir, b, c)
    ensures var step := BrokerSpec.Rollback(b); step.state.Some? && TicketInv(dir, step.state.value, c)
  {
    if b.phase.InProgress? && b.shards != map[] {
      var r := Advance(b, RolledBack, RollingBack);
      var s :| s in b.shards;
      assert s in r.shards;
    }
  }

  lemma AskRollbackLink(dir: Key -> ShardId, b: TicketState, c: Client, t: Ticket, s: ShardId, sh: Shard, link: Link)
    requires TicketInv(dir, b, c) && LinkInv(dir, Some(b), c, t, s, sh, link)
    ensures var step := BrokerSpec.Rollback(b); LinkInv(dir, step.state, c, t, s, sh, Sent(link, step.sends, s))
  {
    if b.phase.InProgress? && s in b.shards && !b.shards[s].phase.RolledBack? {
      if b.shards[s].phase.RollingBack? {
        BackwardAppend(t in sh.tickets, link.reqs);
      } else {
        ForwardTurnsBack(t in sh.tickets, link.reqs);
        assert forall i :: 0 <= i < |link.resps| ==> link.resps[i] in link.resps;
      }
    }
  }

  lemma AskFinishTicket(dir: Key -> ShardId, b: TicketState, c: Client)
    requires TicketInv(dir, b, c)
    ensures var step := BrokerSpec.Finish(b); step.state.Some? ==> TicketInv(dir, step.state.value, c)
  {
    if b.phase.AllCommitted? {
      AdvanceLeaves(b, Finished, Finishing);
    }
  }

  lemma AskFinishLink(dir: Key -> ShardId, b: TicketState, c: Client, t: Ticket, s: ShardId, sh: Shard, link: Link)
    requires TicketInv(dir, b, c) && LinkInv(dir, Some(b), c, t, s, sh, link)
    ensures var step := BrokerSpec.Finish(b); LinkInv(dir, step.state, c, t, s, sh, Sent(link, step.sends, s))
  {
  }

  // ---- Responses ----

  function ClientOfResponse(c: Client, r: Response, reply: Reply): Client {
    if r.LockValue? then Told(c, r.key, reply) else c
  }

  /** The broker's step on the response at the head of the link of shard `s`. */
  function Receive(b: TicketState, s: ShardId, link: Link): Step
    requires link.resps != []
  {
    Handle(b, s, link.resps[0])
  }

  ghost predicate Received(dir: Key -> ShardId, b: TicketState, c: Client, t: Ticket, s: ShardId, sh: Shard,
                           link: Link) {
    link.resps != [] ==>
      var step := Receive(b, s, link);
      LinkInv(dir, step.state, ClientOfResponse(c, link.resps[0], step.reply), t, s, sh,
        Sent(Popped(link), step.sends, s))
  }

  lemma PoppedResponses(link: Link)
    requires link.resps != []
    ensures link.resps[0] in link.resps
    ensures forall r :: r in Popped(link).resps ==> r in link.resps
    ensures forall r :: r in link.resps ==> r == link.resps[0] || r in Popped(link).resps
    ensures forall i :: 0 <= i < |Popped(link).resps| ==> Popped(link).resps[i] == link.resps[i + 1]
  {
    assert link.resps == [link.resps[0]] + link.resps[1..];
  }

  lemma SameShardState(b: TicketState, s: ShardId)
    requires s in b.shards
    ensures SetPhase(b, s, ShardAt(b, s).phase) == b
  {
    assert b.shards[s := b.shards[s]] == b.shards;
  }

  lemma ReceiveIdle(dir: Key -> ShardId, b: TicketState, c: Client, t: Ticket, s: ShardId, sh: Shard, link: Link)
    requires TicketInv(dir, b, c) && Idle(t, sh, link) && link.resps != []
    requires s !in b.shards || b.shards[s].phase.RolledBack?
    ensures Received(dir, b, c, t, s, sh, link)
  {
    PoppedResponses(link);
    if s in b.shards {
      SameShardState(b, s);
    } else if b.phase.InProgress? {
      IdleIsActive(dir, c, t, s, sh, Popped(link));
    }
  }

  lemma PopActive(dir: Key -> ShardId, c: Client, t: Ticket, s: ShardId, sh: Shard, link: Link, st: ShardState)
    requires Active(dir, c, t, s, sh, link, st) && link.resps != []
    ensures Active(dir, c, t, s, sh, Popped(link), st)
  {
    PoppedResponses(link);
  }

  /** The broker records a granted lock. */
  lemma ActiveLocked(dir: Key -> ShardId, c: Client, t: Ticket, s: ShardId, sh: Shard, link: Link, st: ShardState,
                     k: Key, v: Value)
    requires Active(dir, c, t, s, sh, link, st) && Current(sh, t, k, v) && k in st.keys
    ensures Active(dir, c.(told := c.told + {(k, v)}), t, s, sh, link,
                   st.(keys := st.keys[k := st.keys[k].(locked := true, value := Some(v))]))
  {
    assert k in st.keys[k := st.keys[k].(locked := true, value := Some(v))];
  }

  lemma ReceiveLockValue(dir: Key -> ShardId, b: TicketState, c: Client, t: Ticket, s: ShardId, sh: Shard, link: Link)
    requires link.resps != [] && link.resps[0].LockValue? && b.phase.InProgress? && s in b.shards
    requires Active(dir, c, t, s, sh, link, b.shards[s]) && !b.shards[s].phase.RollingBack?
             && !b.shards[s].phase.RolledBack?
    ensures Received(dir, b, c, t, s, sh, link)
  {
    var r := link.resps[0];
    PoppedResponses(link);
    assert Current(sh, t, r.key, r.value);
    PopActive(dir, c, t, s, sh, link, b.shards[s]);
    hide Active;
    if r.key in b.shards[s].keys {
      ActiveLocked(dir, c, t, s, sh, Popped(link), b.shards[s], r.key, r.value);
    }
  }

  /** A reported prepare means the shard holds the ticket prepared; no grant can follow it. */
  lemma ActivePrepared(dir: Key -> ShardId, c: Client, t: Ticket, s: ShardId, sh: Shard, link: Link, st: ShardState)
    requires Active(dir, c, t, s, sh, link, st) && link.resps != [] && link.resps[0] == PrepareDone(None)
    ensures Active(dir, c, t, s, sh, Popped(link), st.(phase := AtPrepared))
  {
    PoppedResponses(link);
    forall r | r in Popped(link).resps ensures !r.LockValue? {
      var i :| 0 <= i < |Popped(link).resps| && Popped(link).resps[i] == r;
      assert link.resps[i + 1] == r;
    }
  }

  lemma ActiveWounded(dir: Key -> ShardId, c: Client, t: Ticket, s: ShardId, sh: Shard, link: Link, st: ShardState)
    requires Active(dir, c, t, s, sh, link, st)
    ensures Active(dir, c, t, s, sh, link, st.(phase := AtWounded))
  {
  }

  /** A decided ticket: the shard is prepared and the commit is sent. */
  lemma ActiveDecides(dir: Key -> ShardId, c: Client, t: Ticket, s: ShardId, sh: Shard, link: Link, st: ShardState)
    requires Active(dir, c, t, s, sh, link, st) && st.phase.AtPrepared?
    ensures Deciding(dir, c, t, s, sh, link.(reqs := link.reqs + [CommitReq]), st.(phase := Committing))
  {
    ForwardLive(link.reqs);
  }

  lemma ReceivePrepare(dir: Key -> ShardId, b: TicketState, c: Client, t: Ticket, s: ShardId, sh: Shard, link: Link)
    requires link.resps != [] && link.resps[0].PrepareDone? && b.phase.InProgress? && s in b.shards
    requires Active(dir, c, t, s, sh, link, b.shards[s]) && !b.shards[s].phase.RollingBack?
             && !b.shards[s].phase.RolledBack?
    ensures Received(dir, b, c, t, s, sh, link)
  {
    SameShardState(b, s);
    PopActive(dir, c, t, s, sh, link, b.shards[s]);
    ActiveWounded(dir, c, t, s, sh, Popped(link), b.shards[s]);
    if link.resps[0] == PrepareDone(None) {
      ActivePrepared(dir, c, t, s, sh, link, b.shards[s]);
      ActiveDecides(dir, c, t, s, sh, Popped(link), b.shards[s].(phase := AtPrepared));
    }
    hide Active, Deciding;
  }

  lemma ReceiveActive(dir: Key -> ShardId, b: TicketState, c: Client, t: Ticket, s: ShardId, sh: Shard, link: Link)
    requires link.resps != [] && b.phase.InProgress? && s in b.shards
    requires Active(dir, c, t, s, sh, link, b.shards[s]) && !b.shards[s].phase.RollingBack?
             && !b.shards[s].phase.RolledBack?
    ensures Received(dir, b, c, t, s, sh, link)
  {
    PoppedResponses(link);
    PopActive(dir, c, t, s, sh, link, b.shards[s]);
    match link.resps[0]
    case LockValue(_, _) => ReceiveLockValue(dir, b, c, t, s, sh, link);
    case PrepareDone(_) => ReceivePrepare(dir, b, c, t, s, sh, link);
    case _ => SameShardState(b, s);
  }

  lemma PopUndoing(dir: Key -> ShardId, t: Ticket, s: ShardId, sh: Shard, link: Link)
    requires Undoing(dir, t, s, sh, link) && link.resps != []
    ensures link.resps[0] == RollbackDone(None) ==> Idle(t, sh, Popped(link))
    ensures Undoing(dir, t, s, sh, Popped(link))
  {
    PoppedResponses(link);
    forall r | r in Popped(link).resps && link.resps[0] == RollbackDone(None) ensures Echo(r) {
      var i :| 0 <= i < |Popped(link).resps| && Popped(link).resps[i] == r;
      assert link.resps[i + 1] == r;
    }
    forall i | 0 <= i < |Popped(link).resps| && Popped(link).resps[i] == RollbackDone(None)
      ensures t !in sh.tickets && AllRollbacks(link.reqs)
      ensures forall j :: i < j < |Popped(link).resps| ==> Echo(Popped(link).resps[j])
    {
      assert link.resps[i + 1] == RollbackDone(None);
    }
  }

  lemma ReceiveUndoing(dir: Key -> ShardId, b: TicketState, c: Client, t: Ticket, s: ShardId, sh: Shard, link: Link)
    requires link.resps != [] && b.phase.InProgress? && s in b.shards && b.shards[s].phase.RollingBack?
    requires Undoing(dir, t, s, sh, link)
    ensures Received(dir, b, c, t, s, sh, link)
  {
    PoppedResponses(link);
    SameShardState(b, s);
    PopUndoing(dir, t, s, sh, link);
  }

  lemma ReceiveDeciding(dir: Key -> ShardId, b: TicketState, c: Client, t: Ticket, s: ShardId, sh: Shard, link: Link)
    requires link.resps != [] && b.phase.AllPrepared? && s in b.shards && !b.shards[s].phase.RolledBack?
    requires Deciding(dir, c, t, s, sh, link, b.shards[s])
    ensures Received(dir, b, c, t, s, sh, link)
  {
    PoppedResponses(link);
    SameShardState(b, s);
  }

  lemma ReceiveEnding(dir: Key -> ShardId, b: TicketState, c: Client, t: Ticket, s: ShardId, sh: Shard, link: Link)
    requires link.resps != [] && b.phase.AllCommitted? && s in b.shards && !b.shards[s].phase.RolledBack?
    requires Ending(t, sh, link, b.shards[s])
    ensures Received(dir, b, c, t, s, sh, link)
  {
    PoppedResponses(link);
    SameShardState(b, s);
  }

  /** Handling a response keeps the relation on the link it came from. */
  lemma ReceiveOwn(dir: Key -> ShardId, b: TicketState, c: Client, t: Ticket, s: ShardId, sh: Shard, link: Link)
    requires TicketInv(dir, b, c) && LinkInv(dir, Some(b), c, t, s, sh, link) && link.resps != []
    ensures Received(dir, b, c, t, s, sh, link)
  {
    hide Idle, Active, Undoing, Deciding, Ending, Received;
    if s !in b.shards || b.shards[s].phase.RolledBack? {
      ReceiveIdle(dir, b, c, t, s, sh, link);
    } else {
      match b.phase
      case InProgress =>
        if b.shards[s].phase.RollingBack? {
          ReceiveUndoing(dir, b, c, t, s, sh, link);
        } else {
          ReceiveActive(dir, b, c, t, s, sh, link);
        }
      case AllPrepared => ReceiveDeciding(dir, b, c, t, s, sh, link);
      case AllCommitted => ReceiveEnding(dir, b, c, t, s, sh, link);
    }
  }

  /** A lock value comes from the shard its key belongs to. */
  lemma ValueFromOwnShard(dir: Key -> ShardId, b: TicketState, c: Client, t: Ticket, s: ShardId, sh: Shard, link: Link)
    requires TicketInv(dir, b, c) && LinkInv(dir, Some(b), c, t, s, sh, link) && link.resps != []
             && link.resps[0].LockValue?
    ensures dir(link.resps[0].key) == s && s in b.shards && b.phase.InProgress?
  {
    var r := link.resps[0];
    assert r in link.resps && LockValue(r.key, r.value) in link.resps;
  }

  /** What a response of another shard may do to the record of this one: nothing, or everything
      is decided, committed or over. */
  ghost predicate Turns(b: TicketState, step: Step, s: ShardId) {
    || (step.state.None? && b.phase.AllCommitted? && (s in b.shards ==> b.shards[s].phase.Finished?)
          && step.sends == map[])
    || (step.state.Some? && b.phase.InProgress? && step.state.value.phase.AllPrepared?
        && (s in b.shards <==> s in step.state.value.shards) && (s in step.sends <==> s in b.shards)
        && (s in b.shards ==> b.shards[s].phase.AtPrepared? && step.sends[s] == CommitReq
                              && step.state.value.shards[s] == b.shards[s].(phase := Committing)))
    || (step.state.Some? && step.sends == map[]
        && (s in b.shards <==> s in step.state.value.shards)
        && (s in b.shards ==> step.state.value.shards[s] == b.shards[s])
        && (step.state.value.phase == b.phase
            || (b.phase.AllPrepared? && step.state.value.phase.AllCommitted?
                  && (s in b.shards ==> b.shards[s].phase.AtCommitted?))
            || (b.phase.InProgress? && step.state.value.phase.Aborted?
                  && (s in b.shards ==> b.shards[s].phase.RolledBack?))))
  }

  lemma OtherTurns(b: TicketState, s0: ShardId, r: Response, s: ShardId)
    requires s != s0 && (r.CommitDone? || r.FinishDone? ==> s0 in b.shards)
    ensures Turns(b, Handle(b, s0, r), s)
  {
    if s0 in b.shards {
      SameShardState(b, s0);
    }
    assert s in b.shards ==> SetPhase(b, s0, Finished).shards[s] == b.shards[s];
  }

  lemma TurnsLink(dir: Key -> ShardId, b: TicketState, c: Client, t: Ticket, s: ShardId, sh: Shard, link: Link,
                  step: Step)
    requires TicketInv(dir, b, c) && LinkInv(dir, Some(b), c, t, s, sh, link) && Turns(b, step, s)
    ensures LinkInv(dir, step.state, c, t, s, sh, Sent(link, step.sends, s))
  {
    if s in b.shards && b.phase.InProgress? && b.shards[s].phase.AtPrepared? {
      ActiveDecides(dir, c, t, s, sh, link, b.shards[s]);
    }
  }

  lemma ToldElsewhere(dir: Key -> ShardId, b: Option<TicketState>, c: Client, t: Ticket, s: ShardId, sh: Shard,
                      link: Link, k: Key, v: Value)
    requires LinkInv(dir, b, c, t, s, sh, link) && dir(k) != s
    ensures LinkInv(dir, b, c.(told := c.told + {(k, v)}), t, s, sh, link)
  {
  }

  /** Handling a response of one shard keeps the relation on the links of all others. */
  lemma ReceiveOther(dir: Key -> ShardId, b: TicketState, c: Client, t: Ticket,
                     s0: ShardId, sh0: Shard, link0: Link, s: ShardId, sh: Shard, link: Link)
    requires TicketInv(dir, b, c) && LinkInv(dir, Some(b), c, t, s0, sh0, link0) && link0.resps != []
    requires LinkInv(dir, Some(b), c, t, s, sh, link) && s != s0
    ensures var step := Receive(b, s0, link0);
            LinkInv(dir, step.state, ClientOfResponse(c, link0.resps[0], step.reply), t, s, sh,
              Sent(link, step.sends, s))
  {
    var r, step := link0.resps[0], Receive(b, s0, link0);
    if r.LockValue? {
      ValueFromOwnShard(dir, b, c, t, s0, sh0, link0);
    }
    assert r in link0.resps;
    OtherTurns(b, s0, r, s);
    TurnsLink(dir, b, c, t, s, sh, link, step);
    if r.LockValue? && step.reply.ValueReply? {
      ToldElsewhere(dir, step.state, c, t, s, sh, Sent(link, step.sends, s), r.key, step.reply.value);
    }
  }

  /** A response of a listed shard keeps the ticket's record in order. */
  lemma HandleTicket(dir: Key -> ShardId, b: TicketState, c: Client, s: ShardId, r: Response)
    requires TicketInv(dir, b, c) && s in b.shards
    requires !r.LockValue? && (r == PrepareDone(None) && b.phase.InProgress? && b.shards[s].phase.Preparing? ==>
             c.update.Some?)
    ensures var step := Handle(b, s, r);
            step.state.Some? ==> TicketInv(dir, step.state.value, c)
  {
    if r.PrepareDone? {
      PrepareTicket(dir, b, c, s, r.error);
    } else {
      hide BrokerSpec.HandlePrepare, Advance;
      SameShardState(b, s);
      assert Handle(b, s, r).state.Some? ==> s in Handle(b, s, r).state.value.shards;
    }
  }

  lemma PrepareTicket(dir: Key -> ShardId, b: TicketState, c: Client, s: ShardId, error: Option<ErrorCode>)
    requires TicketInv(dir, b, c) && s in b.shards
    requires error.None? && b.phase.InProgress? && b.shards[s].phase.Preparing? ==> c.update.Some?
    ensures var step := BrokerSpec.HandlePrepare(b, s, error);
            step.state.Some? && TicketInv(dir, step.state.value, c)
  {
    SameShardState(b, s);
    var b' := SetPhase(b, s, AtPrepared).(phase := AllPrepared);
    if AllIn(b', AtPrepared) {
      assert b'.shards[s].phase != AtCommitted;
      AdvanceLeaves(b', AtCommitted, Committing);
    }
  }

  lemma ReceiveTicket(dir: Key -> ShardId, b: TicketState, c: Client, t: Ticket, s: ShardId, sh: Shard, link: Link)
    requires TicketInv(dir, b, c) && LinkInv(dir, Some(b), c, t, s, sh, link) && link.resps != []
    ensures var step := Receive(b, s, link);
            step.state.Some? ==> TicketInv(dir, step.state.value, ClientOfResponse(c, link.resps[0], step.reply))
  {
    var r := link.resps[0];
    assert r in link.resps;
    if r.LockValue? {
      ValueFromOwnShard(dir, b, c, t, s, sh, link);
    } else if s in b.shards {
      HandleTicket(dir, b, c, s, r);
    }
  }
}
