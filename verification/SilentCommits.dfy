/** When a commit is neither refused nor acted on: the client then hears nothing. */
module SilentCommits {
  import opened Basics
  import opened LockTable
  import opened ShardSpec
  import opened ShardSteps
  import opened BrokerSpec
  import opened Links
  import opened BrokerLinks
  import opened ShardLinks
  import opened Systems
  import opened SystemRuns
  import opened Progress

  /** A ticket in progress that touched a shard has one that is not prepared. */
  predicate Unsettled(b: Option<TicketState>) {
    b.Some? && b.value.phase.InProgress? && b.value.shards != map[] ==> !AllIn(b.value, AtPrepared)
  }

  lemma OtherUnprepared(b: TicketState, s: ShardId, st: ShardState)
    requires Unsettled(Some(b)) && b.phase.InProgress? && st.phase == ShardAt(b, s).phase
    ensures Unsettled(Some(b.(shards := b.shards[s := st])))
  {
    var r := b.(shards := b.shards[s := st]);
    if b.shards != map[] {
      var s' :| s' in b.shards && b.shards[s'].phase != AtPrepared;
      assert s' in r.shards && r.shards[s'].phase == b.shards[s'].phase;
    } else {
      assert s in r.shards && r.shards[s].phase == AtBegun;
    }
  }

  lemma LockUnsettled(b: TicketState, s: ShardId, k: Key, ty: LockType)
    requires Unsettled(Some(b))
    ensures Unsettled(BrokerSpec.TryLock(b, s, k, ty).state)
  {
    hide Unsettled;
    var r := Restarted(b);
    if r.phase.InProgress? {
      assert Unsettled(Some(r)) by { RestartUnsettled(b); }
      var st := ShardAt(r, s);
      OtherUnprepared(r, s, st);
      OtherUnprepared(r, s, st.(keys := st.keys[k := KeyState(false, ty, KnownValue(st, k))]));
    }
  }

  lemma RestartUnsettled(b: TicketState)
    requires Unsettled(Some(b))
    ensures Unsettled(Some(Restarted(b)))
  {
  }

  lemma CommitUnsettled(b: TicketState, update: map<Key, Value>)
    requires Unsettled(Some(b))
    ensures Unsettled(BrokerSpec.Commit(b, update).state)
  {
    hide BrokerSpec.Waiting, KeysOf;
    if b.phase.InProgress? && b.shards != map[] {
      var s :| s in b.shards && b.shards[s].phase != AtPrepared;
      assert Advance(b, AtPrepared, Preparing).shards[s].phase == Preparing;
    }
  }

  lemma RollbackUnsettled(b: TicketState)
    requires Unsettled(Some(b))
    ensures Unsettled(BrokerSpec.Rollback(b).state) && Unsettled(BrokerSpec.Finish(b).state)
  {
    if b.phase.InProgress? && b.shards != map[] {
      var s :| s in b.shards;
      assert Advance(b, RolledBack, RollingBack).shards[s].phase != AtPrepared;
    }
  }

  lemma RecoverUnsettled(reports: map<ShardId, Phase>)
    ensures Unsettled(BrokerSpec.Recover(reports).state)
  {
    var b := Recovered(reports);
    if b.phase.InProgress? && b.shards != map[] {
      var s :| s in b.shards;
      assert Advance(b, RolledBack, RollingBack).shards[s].phase != AtPrepared;
    }
    hide BrokerSpec.Waiting, KeysOf;
  }

  lemma ResponseUnsettled(b: TicketState, s: ShardId, r: Response)
    requires Unsettled(Some(b))
    ensures Unsettled(Handle(b, s, r).state)
  {
    if b.phase.InProgress? {
      var st := ShardAt(b, s);
      OtherUnprepared(b, s, st);
      var touched := b.(shards := b.shards[s := st]);
      assert touched == SetPhase(b, s, st.phase);
      if r.LockValue? && r.key in st.keys {
        var st' := st.(keys := st.keys[r.key := st.keys[r.key].(locked := true, value := Some(r.value))]);
        OtherUnprepared(b, s, st');
        assert touched.(shards := touched.shards[s := st']) == b.(shards := b.shards[s := st']);
      }
      MarkedUnsettled(touched, s, touched.shards[s].(phase := AtWounded));
      MarkedUnsettled(touched, s, ShardState(map[], RolledBack));
      hide AllIn;
    }
  }

  lemma MarkedUnsettled(b: TicketState, s: ShardId, st: ShardState)
    requires st.phase != AtPrepared
    ensures Unsettled(Some(b.(shards := b.shards[s := st])))
  {
    assert s in b.(shards := b.shards[s := st]).shards;
  }

  ghost predicate AllUnsettled(sys: System) { forall t :: Unsettled(RecordOf(sys, t)) }

  lemma BrokeredUnsettled(sys: System, t: Ticket, step: Step, c: Client)
    requires AllUnsettled(sys) && Unsettled(step.state)
    ensures AllUnsettled(Brokered(sys, t, step, c))
  {
    hide Unsettled, Brokered;
    BrokeredFrame(sys, t, step, c);
    var r := Brokered(sys, t, step, c);
    forall t' ensures Unsettled(RecordOf(r, t')) {
      if t' != t { assert Unsettled(RecordOf(sys, t')); }
    }
  }

  /** The step on the record of its ticket that an event at a broker makes. */
  lemma EventUnsettles(dir: Key -> ShardId, sys: System, e: Event)
    requires AllUnsettled(sys) && Possible(sys, e)
    ensures AllUnsettled(After(dir, sys, e))
  {
    hide Handle, BrokerSpec.TryLock, BrokerSpec.Commit, BrokerSpec.Rollback, BrokerSpec.Finish, BrokerSpec.Recover,
      Do, AnswersTo, ReportOf, Calm, MayCommit,
      Brokered, Reported, Idled, WithoutTicket;
    var t := e.ticket;
    var b := if t in sys.tickets then sys.tickets[t] else NEW_STATE;
    assert t in sys.tickets ==> Unsettled(RecordOf(sys, t));
    assert Unsettled(Some(b));
    match e
    case AskLock(_, k, ty) =>
      LockUnsettled(b, dir(k), k, ty);
      var step := BrokerSpec.TryLock(b, dir(k), k, ty);
      BrokeredUnsettled(sys, t, step, Told(ClientOfLock(b, ClientAt(sys, t)), k, step.reply));
    case AskCommit(_, update) =>
      CommitUnsettled(b, update);
      BrokeredUnsettled(sys, t, BrokerSpec.Commit(b, update), ClientOfCommit(b, ClientAt(sys, t), update));
    case AskRollback(_) =>
      RollbackUnsettled(b);
      BrokeredUnsettled(sys, t, BrokerSpec.Rollback(b), ClientAt(sys, t));
    case AskFinish(_) =>
      RollbackUnsettled(b);
      BrokeredUnsettled(sys, t, BrokerSpec.Finish(b), ClientAt(sys, t));
    case AtBroker(_, s) =>
      if t in sys.tickets {
        var r := LinkOf(sys, t, s).resps[0];
        ResponseUnsettled(b, s, r);
        var step := Receive(b, s, LinkOf(sys, t, s));
        SameUnsettled(sys, Unread(sys, t, s));
        BrokeredUnsettled(Unread(sys, t, s), t, step, ClientOfResponse(ClientAt(sys, t), r, step.reply));
      } else {
        SameUnsettled(sys, Unread(sys, t, s));
      }
    case TakeUp(_, reports) =>
      RecoverUnsettled(reports);
      var u := Unlinked(sys, t).(lost := sys.lost - {t});
      SameUnsettled(sys, u);
      BrokeredUnsettled(u, t, BrokerSpec.Recover(reports), ClientAt(sys, t));
    case AtShard(_, _, _, _, _, _) => SameUnsettled(sys, Sharded(sys, e));
    case Begin(_) => OneChanged(sys, After(dir, sys, e), t);
    case Crash(_) => OneChanged(sys, After(dir, sys, e), t);
  }

  lemma SameUnsettled(sys: System, r: System)
    requires AllUnsettled(sys) && r.tickets == sys.tickets
    ensures AllUnsettled(r)
  {
    forall t ensures Unsettled(RecordOf(r, t)) { assert RecordOf(r, t) == RecordOf(sys, t)
      && Unsettled(RecordOf(sys, t)); }
  }

  lemma OneChanged(sys: System, r: System, t: Ticket)
    requires AllUnsettled(sys) && Unsettled(RecordOf(r, t)) && forall t' :: t' != t ==>
             RecordOf(r, t') == RecordOf(sys, t')
    ensures AllUnsettled(r)
  {
    forall t' ensures Unsettled(RecordOf(r, t')) {
      if t' != t { assert RecordOf(r, t') == RecordOf(sys, t') && Unsettled(RecordOf(sys, t')); }
    }
  }

  lemma {:induction false} ReachableUnsettled(dir: Key -> ShardId, init: map<Key, Value>, h: History, n: nat)
    requires Lawful(dir, init, h) && n < |h.states|
    ensures AllUnsettled(h.states[n])
  {
    hide Possible, After;
    if n == 0 {
    } else {
      hide Initial, AllUnsettled;
      ReachableUnsettled(dir, init, h, n - 1);
      assert Follows(dir, h.states[n - 1], h.events[n - 1], h.states[n]);
      EventUnsettles(dir, h.states[n - 1], h.events[n - 1]);
    }
  }

  /** The broker sends nothing and replies nothing. */
  predicate Silent(step: Step) { step.sends == map[] && step.reply == NoReply }

  /** In every reachable state: a commit of a ticket in progress that the broker does not refuse is
      passed over in silence exactly when the ticket has touched no shard. */
  lemma SilentCommitExactlyWhen(dir: Key -> ShardId, init: map<Key, Value>, h: History, n: nat, t: Ticket,
                                update: map<Key, Value>)
    requires Lawful(dir, init, h) && n < |h.states| && t in h.states[n].tickets
             && h.states[n].tickets[t].phase.InProgress?
    requires !BrokerSpec.Commit(h.states[n].tickets[t], update).reply.Failed?
    ensures Silent(BrokerSpec.Commit(h.states[n].tickets[t], update)) <==> h.states[n].tickets[t].shards == map[]
  {
    hide Lawful, BrokerSpec.Waiting, KeysOf;
    ReachableUnsettled(dir, init, h, n);
    var b := h.states[n].tickets[t];
    assert Unsettled(RecordOf(h.states[n], t));
    if b.shards != map[] {
      var s :| s in b.shards && b.shards[s].phase != AtPrepared;
      assert s in DoPrepare(b, update).sends;
    }
  }

  /** Such a commit is reachable: begin a ticket and commit it. Afterwards nothing is under way. */
  lemma SilentCommit(t: Ticket) returns (h: History)
    ensures Lawful(TwoShards, map[], h) && h.events == [Begin(t), AskCommit(t, map[])]
    ensures t in h.states[1].tickets && Silent(BrokerSpec.Commit(h.states[1].tickets[t], map[]))
    ensures t in h.states[2].tickets && h.states[2].tickets[t] == NEW_STATE && h.states[2].links == map[]
  {
    var dir: Key -> ShardId := TwoShards;
    StartIsInitial();
    var a := After(dir, START, Begin(t));
    var b := After(dir, a, AskCommit(t, map[]));
    h := History([START, a, b], [Begin(t), AskCommit(t, map[])]);
    assert Follows(dir, START, Begin(t), a);
    assert Follows(dir, a, AskCommit(t, map[]), b);
    hide Initial, Follows;
    forall n | 0 <= n < 2 ensures Follows(dir, h.states[n], h.events[n], h.states[n + 1]) {
      if n == 0 {} else { assert n == 1; }
    }
  }
}
