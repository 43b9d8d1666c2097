/** The link between a ticket's broker and one shard: the requests and responses under way,
    and what holds between them, the broker's record and the shard.

    Links are first in, first out per ticket and shard. A broker talks to a shard over one
    connection for all its tickets, which allows fewer interleavings than this. */
module Links {
  import opened Basics
  import opened LockTable
  import opened ShardSpec
  import opened BrokerSpec

  datatype Link = Link(reqs: seq<Request>, resps: seq<Response>)

  const IDLE := Link([], [])

  /** What the client of a ticket was told and asked for since its last restart. */
  datatype Client = Client(told: set<(Key, Value)>, update: Option<map<Key, Value>>)

  const NEW_CLIENT := Client({}, None)

  /** The part of an update that belongs to one shard. */
  function Share(dir: Key -> ShardId, update: map<Key, Value>, s: ShardId): map<Key, Value> {
    map k | k in update && dir(k) == s :: update[k]
  }

  // ---- Requests under way ----

  predicate AllRollbacks(reqs: seq<Request>) { forall r :: r in reqs ==> r.RollbackReq? }

  /** Requests of a ticket that is making progress. `live` tells whether the shard knows the
      ticket: exactly the first lock request finds it unknown, and a rollback under way is a
      repetition that finds nothing. A prepare may find the ticket unknown, and is then refused. */
  predicate Forward(live: bool, reqs: seq<Request>)
    decreases reqs
  {
    reqs == [] ||
    match reqs[0]
    case TryLockReq(_, _, first) => first == !live && Forward(true, reqs[1..])
    case PrepareReq(_) => Forward(live, reqs[1..])
    case RollbackReq => !live && Forward(false, reqs[1..])
    case _ => false
  }

  /** Whether the shard knows the ticket once the requests are handled. */
  predicate LiveAfter(live: bool, reqs: seq<Request>)
    decreases reqs
  {
    if reqs == [] then live
    else LiveAfter(live || reqs[0].TryLockReq?, reqs[1..])
  }

  /** Requests of a ticket that is being rolled back: nothing but repetitions follow the
      rollback that takes effect. */
  predicate Backward(live: bool, reqs: seq<Request>)
    decreases reqs
  {
    reqs == [] ||
    match reqs[0]
    case TryLockReq(_, _, first) => first == !live && Backward(true, reqs[1..])
    case PrepareReq(_) => Backward(live, reqs[1..])
    case RollbackReq => if live then AllRollbacks(reqs[1..]) else Backward(false, reqs[1..])
    case _ => false
  }

  /** Requests that cannot make a ticket known to the shard. */
  predicate NoFirst(reqs: seq<Request>) { forall r :: r in reqs ==> !(r.TryLockReq? && r.first) }

  predicate Late(r: Request) { (r.TryLockReq? && !r.first) || r.PrepareReq? || r.CommitReq? }

  // ---- Responses under way ----

  /** The response to a repeated rollback. It changes nothing at the broker. */
  predicate Echo(r: Response) { r.RollbackDone? && r.error.Some? }

  predicate OfProgress(r: Response) { r.LockValue? || r.LockError? || r.PrepareDone? || Echo(r) }

  /** Once a successful prepare is reported, no lock is granted any more. */
  predicate GrantsFirst(resps: seq<Response>) {
    forall i, j :: 0 <= i < j < |resps| && resps[i] == PrepareDone(None) ==> !resps[j].LockValue?
  }

  predicate NoGrants(resps: seq<Response>) { forall r :: r in resps ==> !r.LockValue? }

  // ---- The relation between broker, link and shard ----

  /** A value the ticket was given is still the key's value, and the key is still locked,
      unless the ticket was wounded. */
  predicate Current(sh: Shard, t: Ticket, k: Key, v: Value) {
    t in sh.tickets && (!Has(sh, t, Wounded) ==> Holds(LockOf(sh, k), t) && ValueOf(sh, k) == v)
  }

  /** The shard does not know the ticket, and nothing under way will change that. */
  ghost predicate Idle(t: Ticket, sh: Shard, link: Link) {
    t !in sh.tickets && AllRollbacks(link.reqs) && forall r :: r in link.resps ==> Echo(r)
  }

  ghost predicate ValuesCurrent(dir: Key -> ShardId, c: Client, t: Ticket, s: ShardId, sh: Shard, link: Link,
                                st: ShardState) {
    && (forall k, v :: (k, v) in c.told && dir(k) == s ==> Current(sh, t, k, v))
    && (forall k, v :: LockValue(k, v) in link.resps ==> dir(k) == s && Current(sh, t, k, v))
    && (forall k :: k in st.keys ==> dir(k) == s)
    && (forall k :: k in st.keys && st.keys[k].locked ==>
          st.keys[k].value.Some? && Current(sh, t, k, st.keys[k].value.value))
  }

  ghost predicate PreparesMatch(dir: Key -> ShardId, c: Client, t: Ticket, s: ShardId, sh: Shard, link: Link) {
    && (Has(sh, t, Prepared) ==> c.update.Some? && sh.tickets[t].update == Share(dir, c.update.value, s))
    && (forall r :: r in link.reqs && r.PrepareReq? ==> c.update.Some? && r.update == Share(dir, c.update.value, s))
  }

  /** Taking locks and preparing. A shard may be listed without keys: the broker adds it when it
      handles a response of a shard it does not list. */
  ghost predicate Active(dir: Key -> ShardId, c: Client, t: Ticket, s: ShardId, sh: Shard, link: Link, st: ShardState) {
    var live := t in sh.tickets;
    && (st.phase.AtBegun? || st.phase.Preparing? || st.phase.AtPrepared? || st.phase.AtWounded?)
    && Forward(live, link.reqs) && (LiveAfter(live, link.reqs) <==> st.keys != map[])
    && !Has(sh, t, Committed)
    && (forall r :: r in link.resps ==> OfProgress(r))
    && PreparesMatch(dir, c, t, s, sh, link)
    && (st.phase.AtPrepared? || PrepareDone(None) in link.resps ==> Has(sh, t, Prepared))
    && GrantsFirst(link.resps) && (st.phase.AtPrepared? ==> NoGrants(link.resps))
    && ValuesCurrent(dir, c, t, s, sh, link, st)
  }

  /** Rolling back. */
  ghost predicate Undoing(dir: Key -> ShardId, t: Ticket, s: ShardId, sh: Shard, link: Link) {
    && (forall k, v :: LockValue(k, v) in link.resps ==> dir(k) == s)
    && Backward(t in sh.tickets, link.reqs)
    && !Has(sh, t, Committed)
    && (forall r :: r in link.resps ==> OfProgress(r) || r.RollbackDone?)
    && (forall i :: 0 <= i < |link.resps| && link.resps[i] == RollbackDone(None) ==>
          t !in sh.tickets && AllRollbacks(link.reqs) && forall j :: i < j < |link.resps| ==> Echo(link.resps[j]))
  }

  /** Decided: the shard holds the ticket prepared and the commit is on its way, or it has committed. */
  ghost predicate Deciding(dir: Key -> ShardId, c: Client, t: Ticket, s: ShardId, sh: Shard, link: Link,
                           st: ShardState) {
    && (st.phase.Committing? || st.phase.AtCommitted?)
    && c.update.Some? && t in sh.tickets && sh.tickets[t].update == Share(dir, c.update.value, s)
    && (Has(sh, t, Committed) || (Has(sh, t, Prepared) && CommitReq in link.reqs))
    && (st.phase.AtCommitted? || CommitDone(None) in link.resps ==> Has(sh, t, Committed))
    && (st.phase.Committing? && Has(sh, t, Committed) ==> CommitDone(None) in link.resps)
    && (forall r :: r in link.reqs ==> Late(r))
    && NoGrants(link.resps)
    && (forall r :: r in link.resps ==> (r.RollbackDone? ==> r.error.Some?) && (r.FinishDone? ==> r.error.Some?))
  }

  /** Committed everywhere; the ticket is being forgotten. */
  ghost predicate Ending(t: Ticket, sh: Shard, link: Link, st: ShardState) {
    && (st.phase.AtCommitted? || st.phase.Finishing? || st.phase.Finished?)
    && (t in sh.tickets ==> Has(sh, t, Committed))
    && (st.phase.AtCommitted? ==> t in sh.tickets && FinishReq !in link.reqs)
    && (st.phase.Finishing? ==> if t in sh.tickets then FinishReq in link.reqs else FinishDone(None) in link.resps)
    && (st.phase.Finished? || FinishDone(None) in link.resps ==> t !in sh.tickets)
    && NoFirst(link.reqs) && RollbackReq !in link.reqs
    && NoGrants(link.resps) && RollbackDone(None) !in link.resps
  }

  /** The broker has forgotten the ticket. */
  ghost predicate Over(t: Ticket, sh: Shard, link: Link) { t !in sh.tickets && NoFirst(link.reqs) }

  ghost predicate LinkInv(dir: Key -> ShardId, b: Option<TicketState>, c: Client, t: Ticket, s: ShardId, sh: Shard,
                          link: Link) {
    if b.None? then Over(t, sh, link)
    else if s !in b.value.shards || b.value.shards[s].phase.RolledBack? then Idle(t, sh, link)
    else
      var st := b.value.shards[s];
      match b.value.phase
      case InProgress => if st.phase.RollingBack? then Undoing(dir, t, s, sh, link)
      else Active(dir, c, t, s, sh, link, st)
      case AllPrepared => Deciding(dir, c, t, s, sh, link, st)
      case AllCommitted => Ending(t, sh, link, st)
      case Aborted => false
  }

  // ---- Lists of requests ----

  lemma {:induction false} ForwardAppend(live: bool, reqs: seq<Request>, r: Request)
    requires Forward(live, reqs)
    requires if r.TryLockReq? then r.first == !LiveAfter(live, reqs) else r.PrepareReq?
    ensures Forward(live, reqs + [r]) && LiveAfter(live, reqs + [r]) == (LiveAfter(live, reqs) || r.TryLockReq?)
    decreases reqs
  {
    if reqs == [] {
      assert (reqs + [r])[1..] == [];
    } else {
      assert (reqs + [r])[1..] == reqs[1..] + [r];
      ForwardAppend(live || reqs[0].TryLockReq?, reqs[1..], r);
    }
  }

  lemma {:induction false} LiveStays(live: bool, reqs: seq<Request>)
    requires live
    ensures LiveAfter(live, reqs)
    decreases reqs
  {
    if reqs != [] { LiveStays(true, reqs[1..]); }
  }

  lemma {:induction false} ForwardTurnsBack(live: bool, reqs: seq<Request>)
    requires Forward(live, reqs)
    ensures Backward(live, reqs + [RollbackReq])
    decreases reqs
  {
    if reqs == [] {
      assert (reqs + [RollbackReq])[1..] == [];
    } else {
      assert (reqs + [RollbackReq])[1..] == reqs[1..] + [RollbackReq];
      ForwardTurnsBack(live || reqs[0].TryLockReq?, reqs[1..]);
    }
  }

  lemma {:induction false} BackwardAppend(live: bool, reqs: seq<Request>)
    requires Backward(live, reqs)
    ensures Backward(live, reqs + [RollbackReq])
    decreases reqs
  {
    if reqs == [] {
      assert (reqs + [RollbackReq])[1..] == [];
    } else {
      assert (reqs + [RollbackReq])[1..] == reqs[1..] + [RollbackReq];
      if !(reqs[0].RollbackReq? && live) {
        BackwardAppend(live || reqs[0].TryLockReq?, reqs[1..]);
      }
    }
  }

  /** A shard that knows the ticket is sent no rollback and no first lock while it makes progress. */
  lemma {:induction false} ForwardLive(reqs: seq<Request>)
    requires Forward(true, reqs)
    ensures forall r :: r in reqs ==> Late(r) && !r.CommitReq?
    decreases reqs
  {
    if reqs != [] {
      ForwardLive(reqs[1..]);
      assert reqs == [reqs[0]] + reqs[1..];
    }
  }

  lemma {:induction false} RollbacksForward(reqs: seq<Request>)
    requires AllRollbacks(reqs)
    ensures Forward(false, reqs) && !LiveAfter(false, reqs)
    decreases reqs
  {
    if reqs != [] {
      assert reqs[0] in reqs;
      RollbacksForward(reqs[1..]);
    }
  }

  lemma {:induction false} RollbacksBackward(live: bool, reqs: seq<Request>)
    requires AllRollbacks(reqs)
    ensures Backward(live, reqs)
    decreases reqs
  {
    if reqs != [] {
      assert reqs[0] in reqs;
      RollbacksBackward(live, reqs[1..]);
    }
  }
}
