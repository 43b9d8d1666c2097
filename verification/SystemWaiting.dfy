/** Who waits for whom across all shards of a system. Wound-wait keeps every single shard free of
    deadlock; across shards a cycle needs a ticket that is prepared on one and queued on another. */
module SystemWaiting {
  import opened Basics
  import opened ShardSpec
  import opened BrokerSpec
  import opened Systems
  import opened SystemRuns
  import W = ShardWaiting

  /** On some shard `t` waits for `u`. */
  ghost predicate WaitsFor(sys: System, t: Ticket, u: Ticket) {
    exists s :: 0 <= s < |sys.shards| && W.WaitsFor(sys.shards[s], t, u)
  }

  /** A path of the wait-for graph of the whole system. */
  ghost predicate WaitPath(sys: System, p: seq<Ticket>) {
    |p| >= 1 && forall i :: 0 <= i < |p| - 1 ==> WaitsFor(sys, p[i], p[i + 1])
  }

  /** The ticket is prepared on one shard while it is queued on another. */
  ghost predicate Straddles(sys: System, t: Ticket) {
    exists s, s' :: 0 <= s < |sys.shards| && 0 <= s' < |sys.shards| && Has(sys.shards[s], t, Prepared)
      && W.Waiting(sys.shards[s'], t)
  }

  lemma WaiterIsQueued(sh: Shard, t: Ticket, u: Ticket)
    requires W.WaitsFor(sh, t, u)
    ensures W.Waiting(sh, t)
  {
    var k :| k in sh.elements && W.WaitsAt(sh, k, t, u);
  }

  /** A ticket waits for an older one, or for one that straddles, or for one that waits for nothing. */
  lemma WaitsForOlder(dir: Key -> ShardId, init: map<Key, Value>, sys: System, t: Ticket, u: Ticket, v: Ticket)
    requires Sound(dir, init, sys) && WaitsFor(sys, t, u) && WaitsFor(sys, u, v) && !Straddles(sys, u)
    ensures u < t
  {
    hide W.WaitsFor, W.Waiting;
    var s :| 0 <= s < |sys.shards| && W.WaitsFor(sys.shards[s], t, u);
    var s' :| 0 <= s' < |sys.shards| && W.WaitsFor(sys.shards[s'], u, v);
    assert ShardOk(dir, sys, s);
    hide Sound;
    WaiterIsQueued(sys.shards[s'], u, v);
    W.WaitsForOlderOrPrepared(sys.shards[s], t, u);
  }

  lemma {:induction false} PathAges(dir: Key -> ShardId, init: map<Key, Value>, sys: System, p: seq<Ticket>, v: Ticket)
    requires Sound(dir, init, sys) && WaitPath(sys, p) && |p| >= 2 && WaitsFor(sys, p[|p| - 1], v)
    requires forall i :: 0 <= i < |p| ==> !Straddles(sys, p[i])
    ensures p[|p| - 1] < p[0]
    decreases |p|
  {
    hide Sound, Straddles, WaitsFor;
    var n := |p| - 1;
    assert WaitsFor(sys, p[n - 1], p[(n - 1) + 1]);
    WaitsForOlder(dir, init, sys, p[n - 1], p[n], v);
    if n > 1 {
      var q := p[..n];
      forall i | 0 <= i < |q| - 1 ensures WaitsFor(sys, q[i], q[i + 1]) { assert WaitsFor(sys, p[i], p[i + 1]); }
      PathAges(dir, init, sys, q, p[n]);
    }
  }

  /** In every reachable state: a cycle of waiting tickets, over however many shards, contains a
      ticket that is prepared on one shard and queued on another. */
  lemma DeadlockNeedsStraddling(dir: Key -> ShardId, init: map<Key, Value>, h: History, n: nat, p: seq<Ticket>)
    requires Lawful(dir, init, h) && n < |h.states| && WaitPath(h.states[n], p) && |p| >= 2 && p[0] == p[|p| - 1]
    ensures exists i :: 0 <= i < |p| && Straddles(h.states[n], p[i])
  {
    hide Lawful, Sound, Straddles, WaitsFor;
    ReachableSystem(dir, init, h, n);
    if forall i :: 0 <= i < |p| ==> !Straddles(h.states[n], p[i]) {
      assert WaitsFor(h.states[n], p[0], p[0 + 1]);
      PathAges(dir, init, h.states[n], p, p[1]);
    }
  }
}
