/** When tickets over several shards never wait in a circle: exactly when clients keep both demands of
    `Patience`, or all keys are on one shard; and agents, exactly when their runners are attentive. */
module DeadlockFreedom {
  import opened Basics
  import opened BrokerSpec
  import opened SystemRuns
  import opened Progress
  import opened Patience
  import opened WaitCycles
  import opened WorldRuns
  import opened AgentWaiting
  import opened AgentCycles
  import opened AgentSteps

  ghost predicate OneShard(dir: Key -> ShardId) { forall j, k :: dir(j) == dir(k) }

  /** No run of clients that keep the demands, but for those in `leave`, reaches a circle. */
  ghost predicate ClientsAreFree(dir: Key -> ShardId, leave: Leave) {
    forall init, h, n, p :: Lawful(dir, init, h) && Keeps(dir, h, leave) && 0 <= n < |h.states| ==>
      !Circle(h.states[n], p)
  }

  /** The demands are exact, for every placement of keys on finitely many shards: without either one
      there is a run into a circle, unless all keys are on one shard. */
  lemma ClientsAreFreeExactlyWhen(dir: Key -> ShardId, count: nat, leave: Leave)
    requires forall k :: dir(k) < count
    ensures ClientsAreFree(dir, leave) <==> leave == STRICT || OneShard(dir)
  {
    hide Lawful, Keeps, Circle;
    if leave == STRICT {
      forall init, h, n: nat, p | Lawful(dir, init, h) && Keeps(dir, h, leave) && n < |h.states|
        ensures !Circle(h.states[n], p)
      {
        PatientNeverDeadlock(dir, init, h, n, p);
      }
    } else if OneShard(dir) {
      forall init, h, n: nat, p | Lawful(dir, init, h) && n < |h.states| ensures !Circle(h.states[n], p) {
        OneShardNeverDeadlocks(dir, init, h, n, p);
      }
    } else {
      var j, k :| dir(j) != dir(k);
      var h := ARunInto(dir, count, leave, j, k);
    }
  }

  /** The run for a demand that is not kept. */
  lemma ARunInto(dir: Key -> ShardId, count: nat, leave: Leave, j: Key, k: Key) returns (h: History)
    requires Spread(dir, count, j, k) && leave != STRICT
    ensures Lawful(dir, map[], h) && Keeps(dir, h, leave) && h.states != [] && Circle(Last(h), [0, 1, 0])
  {
    hide Lawful, Circle, KeepsAt;
    if leave.lockLate {
      h := LateDeadlock(dir, count, 0, 1, j, k);
      MoreLeave(dir, h, LATE, leave);
    } else {
      var run := HastyDeadlock(dir, count, 0, 1, j, k);
      h := AgentsRun(dir, run);
    }
  }

  lemma AgentsRun(dir: Key -> ShardId, run: WorldRun) returns (h: History)
    requires Runs(dir, run)
    ensures Lawful(dir, map[], h) && Keeps(dir, h, Leave(false, true)) && h.states != [] && Last(h) == Now(run).sys
  {
    hide Unfolds, Lawful, Keeps;
    var n := |run.worlds| - 1;
    h := Flat(dir, map[], run, n);
    FlatIsLawful(dir, map[], run, n);
    AgentsLockInTime(dir, map[], run, n);
  }

  lemma MoreLeave(dir: Key -> ShardId, h: History, some: Leave, more: Leave)
    requires Keeps(dir, h, some) && (some.lockLate ==> more.lockLate) && (some.commitEarly ==> more.commitEarly)
    ensures Keeps(dir, h, more)
  {
    forall n | 0 <= n < |h.events| ensures KeepsAt(dir, h, n, more) { assert KeepsAt(dir, h, n, some); }
  }

  /** No run of agents, with attentive runners if so demanded, reaches a circle. */
  ghost predicate AgentsAreFree(dir: Key -> ShardId, attentive: bool) {
    forall init, run, n, p ::
      Unfolds(dir, init, run) && (attentive ==> Attentive(dir, init, run)) && 0 <= n < |run.worlds| ==>
        !Circle(run.worlds[n].sys, p)
  }

  /** For agents it is the runners that decide. */
  lemma AgentsAreFreeExactlyWhen(dir: Key -> ShardId, count: nat, attentive: bool)
    requires forall k :: dir(k) < count
    ensures AgentsAreFree(dir, attentive) <==> attentive || OneShard(dir)
  {
    hide Unfolds, Attentive, Circle;
    if attentive {
      forall init, run, n: nat, p | Unfolds(dir, init, run) && Attentive(dir, init, run) && n < |run.worlds|
        ensures !Circle(run.worlds[n].sys, p)
      {
        AttentiveNeverDeadlock(dir, init, run, n, p);
      }
    } else if OneShard(dir) {
      forall init, run, n: nat, p | Unfolds(dir, init, run) && n < |run.worlds| ensures !Circle(run.worlds[n].sys, p) {
        OneShardAgents(dir, init, run, n, p);
      }
    } else {
      var j, k :| dir(j) != dir(k);
      var run := HastyDeadlock(dir, count, 0, 1, j, k);
      var n := |run.worlds| - 1;
      assert Circle(run.worlds[n].sys, [0, 1, 0]);
    }
  }

  lemma OneShardAgents(dir: Key -> ShardId, init: map<Key, Value>, run: WorldRun, n: nat, p: seq<Ticket>)
    requires Unfolds(dir, init, run) && n < |run.worlds| && OneShard(dir)
    ensures !Circle(run.worlds[n].sys, p)
  {
    hide Unfolds, Circle, Follows, Initial;
    FlatIsLawful(dir, init, run, n);
    var h := Flat(dir, init, run, n);
    OneShardNeverDeadlocks(dir, init, h, |h.states| - 1, p);
  }
}
