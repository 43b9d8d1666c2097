/** Deadlock freedom and progress of wound-wait locking on one shard. */
module ShardWaiting {
  import opened Basics
  import opened LockTable
  import opened ShardSpec

  /** On key `k`, `w` waits for `h`: `h` holds an incompatible lock or is ahead in the queue. */
  predicate WaitsAt(s: Shard, k: Key, w: Ticket, h: Ticket) {
    var l := LockOf(s, k);
    w in l.queue && (Blocks(l, h, w, l.queue[w].lockType) || (h in l.queue && h < w))
  }

  predicate WaitsFor(s: Shard, w: Ticket, h: Ticket) {
    exists k :: k in s.elements && WaitsAt(s, k, w, h)
  }

  predicate Waiting(s: Shard, t: Ticket) {
    exists k :: k in s.elements && t in LockOf(s, k).queue
  }

  predicate HoldsSomething(s: Shard, t: Ticket) {
    exists k :: k in s.elements && Holds(LockOf(s, k), t)
  }

  /** A path of the wait-for graph. */
  ghost predicate WaitPath(s: Shard, p: seq<Ticket>) {
    |p| >= 1 && forall i :: 0 <= i < |p| - 1 ==> WaitsFor(s, p[i], p[i + 1])
  }

  /** A ticket waits only for strictly older tickets or for prepared ones, and those wait for nothing. */
  lemma WaitsForOlderOrPrepared(s: Shard, w: Ticket, h: Ticket)
    requires Inv(s) && WaitsFor(s, w, h)
    ensures Has(s, w, Begun)
    ensures h < w || Has(s, h, Prepared)
    ensures Has(s, h, Prepared) ==> !Waiting(s, h)
  {
    var k :| k in s.elements && WaitsAt(s, k, w, h);
    assert LockInv(s, k);
    var l := s.elements[k].lock;
    if Blocks(l, h, w, l.queue[w].lockType) {
      assert h < w || h in PreparedTickets(s);
    }
    if Waiting(s, h) {
      var j :| j in s.elements && h in LockOf(s, j).queue;
      assert LockInv(s, j);
    }
  }

  /** Along a wait path tickets get older, until perhaps a prepared ticket ends it. */
  lemma {:induction false} WaitPathAges(s: Shard, p: seq<Ticket>)
    requires Inv(s) && WaitPath(s, p) && |p| >= 2
    ensures p[|p| - 1] < p[0] || Has(s, p[|p| - 1], Prepared)
    decreases |p|
  {
    WaitsForOlderOrPrepared(s, p[0], p[1]);
    if |p| > 2 {
      var q := p[1..];
      forall i | 0 <= i < |q| - 1 ensures WaitsFor(s, q[i], q[i + 1]) {
        assert q[i] == p[i + 1] && q[i + 1] == p[(i + 1) + 1];
      }
      WaitPathAges(s, q);
      WaitsForOlderOrPrepared(s, p[1], p[2]);
    }
  }

  /** Deadlock freedom: the wait-for graph has no cycle. */
  lemma NoDeadlock(s: Shard, p: seq<Ticket>)
    requires Inv(s) && WaitPath(s, p) && |p| >= 2
    ensures p[0] != p[|p| - 1]
  {
    WaitPathAges(s, p);
    WaitsForOlderOrPrepared(s, p[0], p[1]);
  }

  /** The front of a queue is blocked by some holder, since no front is left grantable. */
  lemma FrontIsBlocked(s: Shard, k: Key) returns (h: Ticket)
    requires Inv(s) && k in s.elements && LockOf(s, k).queue != map[]
    ensures WaitsAt(s, k, Front(LockOf(s, k).queue), h) && Holds(LockOf(s, k), h)
  {
    var l := LockOf(s, k);
    var f := Front(l.queue);
    assert LockInv(s, k);
    if l.writer.Some? {
      h := l.writer.value;
    } else {
      h :| h in l.readers && h != f;
    }
  }

  lemma WaitsBecause(s: Shard, k: Key, w: Ticket, h: Ticket)
    requires k in s.elements && WaitsAt(s, k, w, h)
    ensures WaitsFor(s, w, h)
  {
  }

  /** Progress: from every waiting ticket a wait path leads to a lock holder that waits for nothing. */
  lemma {:induction false} SomeHolderCanRun(s: Shard, w: Ticket) returns (p: seq<Ticket>)
    requires Inv(s) && Waiting(s, w)
    ensures WaitPath(s, p) && p[0] == w && |p| >= 2
    ensures var h := p[|p| - 1]; HoldsSomething(s, h) && !Waiting(s, h)
    decreases w
  {
    hide Inv, WaitsFor;
    var k :| k in s.elements && w in LockOf(s, k).queue;
    var l := LockOf(s, k);
    var f := Front(l.queue);
    var next: Ticket;
    if f == w {
      next := FrontIsBlocked(s, k);
    } else {
      next := f;
    }
    WaitsBecause(s, k, w, next);
    WaitsForOlderOrPrepared(s, w, next);
    if Waiting(s, next) {
      var q := SomeHolderCanRun(s, next);
      p := [w] + q;
      forall i | 0 <= i < |p| - 1 ensures WaitsFor(s, p[i], p[i + 1]) {
        if i > 0 {
          assert p[i] == q[i - 1] && p[i + 1] == q[i];
        }
      }
    } else {
      p := [w, next];
    }
  }
}
