/** What the success of a recovery means for the shards, over runs of the whole system. */
module RecoveryRuns {
  import opened Basics
  import opened ShardSteps
  import opened BrokerSpec
  import opened BrokerLinks
  import opened ShardLinks
  import opened Systems
  import opened SystemRuns
  import opened Progress

  /** A ticket is lost by the crash of its broker, and until it is taken up. */
  lemma LostStep(dir: Key -> ShardId, sys: System, e: Event, t: Ticket)
    requires Possible(sys, e)
    ensures t in After(dir, sys, e).lost <==> (t in sys.lost || e == Crash(t)) && !(e.TakeUp? && e.ticket == t)
  {
    hide Handle, BrokerSpec.TryLock, BrokerSpec.Commit, BrokerSpec.Rollback, BrokerSpec.Finish, BrokerSpec.Recover,
      Do, AnswersTo, ReportOf, Idled,
      WithoutTicket;
  }

  lemma NoRequestsWhenLost(dir: Key -> ShardId, init: map<Key, Value>, sys: System, t: Ticket, s: ShardId)
    requires Sound(dir, init, sys) && t in sys.lost && s < |sys.shards|
    ensures LinkOf(sys, t, s).reqs == []
  {
    assert CellOk(dir, sys, t, s);
  }

  /** A shard that does not know a lost ticket does not learn of it. */
  lemma LostStaysUnknown(dir: Key -> ShardId, init: map<Key, Value>, sys: System, e: Event, t: Ticket, s: ShardId)
    requires Sound(dir, init, sys) && Possible(sys, e) && t in sys.lost && s < |sys.shards|
             && t !in sys.shards[s].tickets
    ensures s < |After(dir, sys, e).shards| && t !in After(dir, sys, e).shards[s].tickets
  {
    if e.ticket == t {
      assert !e.AtShard? by { if e.AtShard? { NoRequestsWhenLost(dir, init, sys, t, e.shard); } }
      hide Sound, Handle, BrokerSpec.TryLock, BrokerSpec.Commit, BrokerSpec.Rollback, BrokerSpec.Finish,
        BrokerSpec.Recover, Idled, WithoutTicket,
        Calm, MayCommit, Reported;
    } else {
      OtherEvent(dir, init, sys, e, t, s);
      SameShards(dir, sys, e);
      hide Sound, Possible, After;
    }
  }

  lemma SameShards(dir: Key -> ShardId, sys: System, e: Event)
    requires Possible(sys, e)
    ensures |After(dir, sys, e).shards| == |sys.shards|
  {
    hide Handle, BrokerSpec.TryLock, BrokerSpec.Commit, BrokerSpec.Rollback, BrokerSpec.Finish, BrokerSpec.Recover,
      Do, AnswersTo, ReportOf, Idled,
      WithoutTicket;
  }

  /** A ticket of a crashed broker that is still lost was lost all the time. */
  lemma {:induction false} LostThroughout(dir: Key -> ShardId, init: map<Key, Value>, h: History, m: nat, k: nat,
                                          n: nat, t: Ticket)
    requires Lawful(dir, init, h) && m <= k <= n < |h.states| && t in h.states[n].lost
    requires forall i :: m <= i < n ==> h.events[i] != Crash(t)
    ensures t in h.states[k].lost
    ensures forall i :: k <= i < n ==> !(h.events[i].TakeUp? && h.events[i].ticket == t)
    decreases n
  {
    hide Possible, After, Initial;
    if k < n {
      assert Follows(dir, h.states[n - 1], h.events[n - 1], h.states[n]);
      LostStep(dir, h.states[n - 1], h.events[n - 1], t);
      LostThroughout(dir, init, h, m, k, n - 1, t);
    }
  }

  lemma {:induction false} UnknownThroughout(dir: Key -> ShardId, init: map<Key, Value>, h: History, k: nat, n: nat,
                                             t: Ticket, s: ShardId)
    requires Lawful(dir, init, h) && k <= n < |h.states| && s < |h.states[k].shards|
             && t !in h.states[k].shards[s].tickets
    requires forall i :: k <= i < n ==> t in h.states[i].lost
    ensures s < |h.states[n].shards| && t !in h.states[n].shards[s].tickets
    decreases n
  {
    hide Possible, After, Initial, Sound;
    if k < n {
      UnknownThroughout(dir, init, h, k, n - 1, t, s);
      ReachableSystem(dir, init, h, n - 1);
      assert Follows(dir, h.states[n - 1], h.events[n - 1], h.states[n]);
      LostStaysUnknown(dir, init, h.states[n - 1], h.events[n - 1], t, s);
    }
  }

  /** Between `m` and `n` a broker recovers the tickets `own` that its crash left behind: shard `s`
      reports at `at[s]`, and every ticket that some shard reports is taken up. */
  ghost predicate Recovers(h: History, m: nat, n: nat, own: set<Ticket>, at: seq<nat>)
    requires |h.states| == |h.events| + 1 && m <= n < |h.states|
  {
    && (forall t :: t in own ==> t in h.states[m].lost)
    && (forall t, i :: t in own && m <= i < n ==> h.events[i] != Crash(t))
    && |at| == |h.states[n].shards|
    && (forall s :: 0 <= s < |at| ==> m <= at[s] <= n && s < |h.states[at[s]].shards|)
    && forall t, s :: t in own && 0 <= s < |at| && t in h.states[at[s]].shards[s].tickets ==> IsTakenUp(h, m, n, t)
  }

  ghost predicate IsTakenUp(h: History, m: nat, n: nat, t: Ticket)
    requires m <= n <= |h.events|
  {
    exists i :: m <= i < n && h.events[i].TakeUp? && h.events[i].ticket == t
  }

  /** A recovery reports success when its broker's table is empty. Then no shard holds any ticket
      that the crash left behind, reported or not. */
  lemma RecoverySuccessIsTrue(dir: Key -> ShardId, init: map<Key, Value>, h: History, m: nat, n: nat,
                              own: set<Ticket>, at: seq<nat>, t: Ticket)
    requires Lawful(dir, init, h) && m <= n < |h.states| && Recovers(h, m, n, own, at)
    requires t in own && forall x :: x in own ==> x !in h.states[n].tickets
    ensures Gone(h.states[n], t)
  {
    hide Possible, After, Initial, Sound, Follows;
    ReachableSystem(dir, init, h, n);
    if t !in h.states[n].lost {
      ForgottenIsGone(dir, init, h.states[n], t);
    } else {
      LostThroughout(dir, init, h, m, m, n, t);
      forall i | m <= i < n ensures t in h.states[i].lost { LostThroughout(dir, init, h, m, i, n, t); }
      forall s | 0 <= s < |h.states[n].shards| ensures t !in h.states[n].shards[s].tickets {
        assert !IsTakenUp(h, m, n, t);
        UnknownThroughout(dir, init, h, at[s], n, t, s);
      }
    }
  }
}
