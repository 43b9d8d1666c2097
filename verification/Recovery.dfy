/** What a broker makes of the reports of its shards when it recovers
    (src/parsec/broker/impl.cpp): how they are gathered, when it decides, and what it then believes. */
module Recovery {
  import opened Basics
  import opened ShardSpec
  import opened BrokerSpec

  /** A full or partial set of reports: for each shard the tickets it knows. */
  type Reports = map<ShardId, map<Ticket, Phase>>

  function ReportsOf(rec: Reports, t: Ticket): map<ShardId, Phase> { map s | s in rec && t in rec[s] :: rec[s][t] }

  function ReportedTickets(rec: Reports): set<Ticket> { set s, t | s in rec && t in rec[s] :: t }

  function WithReport(rec: Reports, s: ShardId, t: Ticket, p: Phase): Reports
    requires s in rec
  {
    var reported: map<Ticket, Phase> := rec[s];
    rec[s := reported[t := p]]
  }

  // ---- One ticket ----

  /** The record of a ticket once its reports are entered. */
  function Merged(b: TicketState, reports: map<ShardId, Phase>): TicketState {
    b.(shards := map s | s in b.shards.Keys + reports.Keys ::
         if s in reports then ShardAt(b, s).(phase := PhaseFrom(reports[s])) else b.shards[s])
  }

  /** The shard phases that recovery knows how to handle; any other ends the process. */
  predicate Sortable(b: TicketState) {
    forall s :: s in b.shards ==>
      var p := b.shards[s].phase; p.AtBegun? || p.AtPrepared? || p.AtWounded? || p.AtCommitted?
  }

  /** Finish a ticket that all its shards committed, commit the rest of one that some committed,
      roll back one that none committed. */
  function Sorted(b: TicketState): Step {
    if AllIn(b, AtCommitted) then BrokerSpec.Finish(b.(phase := AllCommitted))
    else if SomeIn(b, AtCommitted) then BrokerSpec.Commit(b.(phase := AllPrepared), map[])
    else BrokerSpec.Rollback(b.(phase := InProgress))
  }

  /** A ticket the broker did not know is treated as `BrokerSpec.Recover` says. */
  lemma FreshIsRecovered(reports: map<ShardId, Phase>)
    requires reports != map[]
    ensures Sortable(Merged(NEW_STATE, reports)) && Sorted(Merged(NEW_STATE, reports)) == BrokerSpec.Recover(reports)
  {
    var b, c := Merged(NEW_STATE, reports), Recovered(reports);
    assert b.shards == c.shards;
    forall s | s in reports ensures s in b.shards && (b.shards[s].phase.AtCommitted? <==> reports[s].Committed?) {}
    hide Merged;
    assert AllIn(b, AtCommitted) <==> c.phase.AllCommitted?;
    assert !c.phase.AllCommitted? ==> (SomeIn(b, AtCommitted) <==> c.phase.AllPrepared?);
    hide AllIn, SomeIn, BrokerSpec.Finish, BrokerSpec.Commit, BrokerSpec.Rollback;
    assert b.(phase := c.phase) == c;
  }

  /** The ticket stays on record, and the caller hears of it at once only if its commit cannot start. */
  lemma SortedStays(b: TicketState)
    ensures Sorted(b).state.Some? && (Sorted(b).reply.NoReply? || Sorted(b).reply == Failed(WaitingForLocks))
  {
    if !AllIn(b, AtCommitted) {
      var s :| s in b.shards && b.shards[s].phase != AtCommitted;
      assert b.(phase := InProgress).shards != map[];
    }
  }

  // ---- The whole table ----

  function RecordIn(tickets: map<Ticket, TicketState>, t: Ticket): TicketState {
    if t in tickets then tickets[t] else NEW_STATE
  }

  function MergedIn(tickets: map<Ticket, TicketState>, rec: Reports, t: Ticket): TicketState {
    Merged(RecordIn(tickets, t), ReportsOf(rec, t))
  }

  /** `after` is the table `before` with the reports entered. */
  ghost predicate Enters(before: map<Ticket, TicketState>, rec: Reports, after: map<Ticket, TicketState>) {
    after.Keys == before.Keys + ReportedTickets(rec) && forall t :: t in after ==> after[t] == MergedIn(before, rec, t)
  }

  ghost predicate AllSortable(before: map<Ticket, TicketState>, rec: Reports) {
    forall t :: t in before.Keys + ReportedTickets(rec) ==> Sortable(MergedIn(before, rec, t))
  }

  /** The table and the requests after recovery has decided about every ticket; `refused` are those
      whose commit could not be started. */
  ghost predicate RecoversAll(before: map<Ticket, TicketState>, rec: Reports, after: map<Ticket, TicketState>,
                              sends: map<Ticket, map<ShardId, Request>>, refused: set<Ticket>) {
    && after.Keys == sends.Keys == before.Keys + ReportedTickets(rec)
    && (forall t :: t in after ==> IsSorted(MergedIn(before, rec, t), after[t], sends[t], t in refused))
    && refused <= after.Keys
  }

  ghost predicate IsSorted(b: TicketState, after: TicketState, sends: map<ShardId, Request>, refused: bool) {
    Sorted(b) == Step(Some(after), sends, if refused then Failed(WaitingForLocks) else NoReply)
  }

  /** One more report. */
  lemma EnterOne(before: map<Ticket, TicketState>, rec: Reports, tickets: map<Ticket, TicketState>, s: ShardId,
                 t: Ticket, p: Phase)
    requires Enters(before, rec, tickets) && s in rec && t !in rec[s]
    ensures var b := RecordIn(tickets, t);
            Enters(before, WithReport(rec, s, t, p),
              tickets[t := b.(shards := b.shards[s := ShardAt(b, s).(phase := PhaseFrom(p))])])
  {
    var rec' := WithReport(rec, s, t, p);
    var b := RecordIn(tickets, t);
    var after := tickets[t := b.(shards := b.shards[s := ShardAt(b, s).(phase := PhaseFrom(p))])];
    OneMoreTicket(rec, s, t, p);
    OneMoreReport(rec, s, t, p);
    assert b == MergedIn(before, rec, t) by { NoReports(rec, t); }
    MergeOne(RecordIn(before, t), ReportsOf(rec, t), s, p);
    hide Merged, ReportsOf, ReportedTickets, WithReport;
    forall t' | t' in after ensures after[t'] == MergedIn(before, rec', t') {
      if t' != t { OtherReports(rec, s, t, p, t'); }
    }
  }

  lemma NoReports(rec: Reports, t: Ticket)
    ensures ReportsOf(rec, t) != map[] <==> t in ReportedTickets(rec)
  {
    if ReportsOf(rec, t) != map[] {
      var s :| s in ReportsOf(rec, t);
      assert s in rec && t in rec[s];
    }
    if t in ReportedTickets(rec) {
      var s :| s in rec && t in rec[s];
      assert s in ReportsOf(rec, t);
    }
  }

  lemma OneMoreTicket(rec: Reports, s: ShardId, t: Ticket, p: Phase)
    requires s in rec
    ensures ReportedTickets(WithReport(rec, s, t, p)) == ReportedTickets(rec) + {t}
  {
    var rec' := WithReport(rec, s, t, p);
    assert s in rec' && t in rec'[s];
    forall t' | t' in ReportedTickets(rec) ensures t' in ReportedTickets(rec') {
      var s' :| s' in rec && t' in rec[s'];
      assert s' in rec' && t' in rec'[s'];
    }
  }

  lemma OneMoreReport(rec: Reports, s: ShardId, t: Ticket, p: Phase)
    requires s in rec && t !in rec[s]
    ensures s !in ReportsOf(rec, t) && ReportsOf(WithReport(rec, s, t, p), t) == ReportsOf(rec, t)[s := p]
  {
  }

  lemma OtherReports(rec: Reports, s: ShardId, t: Ticket, p: Phase, t': Ticket)
    requires s in rec && t' != t
    ensures ReportsOf(WithReport(rec, s, t, p), t') == ReportsOf(rec, t')
  {
  }

  lemma MergeOne(b: TicketState, reports: map<ShardId, Phase>, s: ShardId, p: Phase)
    requires s !in reports
    ensures var m := Merged(b, reports);
            Merged(b, reports[s := p]) == m.(shards := m.shards[s := ShardAt(m, s).(phase := PhaseFrom(p))])
  {
  }

  lemma NoReportsYet(before: map<Ticket, TicketState>)
    ensures Enters(before, map[], before)
  {
    forall t | t in before ensures before[t] == MergedIn(before, map[], t) {
      assert Merged(before[t], map[]).shards == before[t].shards;
    }
  }

  lemma NextShard(before: map<Ticket, TicketState>, rec: Reports, tickets: map<Ticket, TicketState>, s: ShardId)
    requires Enters(before, rec, tickets) && s !in rec
    ensures Enters(before, rec[s := map[]], tickets)
  {
    var rec' := rec[s := map[]];
    forall t ensures ReportsOf(rec', t) == ReportsOf(rec, t) {}
    forall t | t in ReportedTickets(rec) ensures t in ReportedTickets(rec') {
      var s' :| s' in rec && t in rec[s'];
      assert s' in rec' && t in rec'[s'];
    }
    hide Merged, ReportsOf;
  }

  // ---- Gathering the reports ----

  /** A shard has reported; a report that is already there is kept. */
  function Taken(rec: Reports, s: ShardId, reported: map<Ticket, Phase>): Reports {
    if s in rec then rec else rec[s := reported]
  }

  function ShardsIn(order: seq<ShardId>): set<ShardId> { set i | 0 <= i < |order| :: order[i] }

  /** The reports a broker has once the shards in `order` have reported, starting from `rec`. */
  function Gather(rec: Reports, order: seq<ShardId>, now: Reports): Reports
    requires ShardsIn(order) <= now.Keys
  {
    if order == [] then rec
    else
      var n := |order| - 1;
      assert forall i :: 0 <= i < n ==> order[..n][i] == order[i] && order[i] in ShardsIn(order);
      assert order[n] in ShardsIn(order);
      Taken(Gather(rec, order[..n], now), order[n], now[order[n]])
  }

  /** What a broker that starts with `rec` decides on: an old report hides the new one. */
  function Decision(rec: Reports, now: Reports): Reports {
    map s | s in rec.Keys + now.Keys :: if s in rec then rec[s] else now[s]
  }

  lemma {:induction false} GatherIs(rec: Reports, order: seq<ShardId>, now: Reports)
    requires ShardsIn(order) <= now.Keys
    ensures Gather(rec, order, now).Keys == rec.Keys + ShardsIn(order)
    ensures forall s :: s in Gather(rec, order, now) ==>
            s in Decision(rec, now) && Gather(rec, order, now)[s] == Decision(rec, now)[s]
  {
    if order == [] {
    } else {
      var n := |order| - 1;
      assert ShardsIn(order) == ShardsIn(order[..n]) + {order[n]} by {
        assert order[n] in ShardsIn(order);
        forall i | 0 <= i < n ensures order[i] in ShardsIn(order[..n]) { assert order[..n][i] == order[i]; }
        forall x | x in ShardsIn(order[..n]) ensures x in ShardsIn(order) {
          var i :| 0 <= i < n && order[..n][i] == x;
          assert order[i] == x;
        }
      }
      GatherIs(rec, order[..n], now);
    }
  }

  /** However the reports arrive, a decision is made on one and the same set of reports. */
  lemma DecisionIsFixed(rec: Reports, order: seq<ShardId>, now: Reports)
    requires ShardsIn(order) <= now.Keys && rec.Keys <= now.Keys
    ensures |Gather(rec, order, now)| == |now| <==> Gather(rec, order, now) == Decision(rec, now)
    ensures ShardsIn(order) == now.Keys ==> Gather(rec, order, now) == Decision(rec, now)
  {
    GatherIs(rec, order, now);
    hide Gather;
    var g, d := Gather(rec, order, now), Decision(rec, now);
    assert d.Keys == now.Keys;
    hide Decision;
    SameReports(g, d);
    assert |now| == |now.Keys| && |d| == |d.Keys|;
  }

  lemma SameReports(g: Reports, d: Reports)
    requires g.Keys <= d.Keys && forall s :: s in g ==> s in d && g[s] == d[s]
    ensures |g| == |d| <==> g == d
    ensures g.Keys == d.Keys ==> g == d
  {
    assert |g| == |g.Keys| && |d| == |d.Keys|;
    if |g| == |d| { SameSize(g.Keys, d.Keys); }
  }

  /** It is made on what the shards report now exactly when the reports left behind by an earlier
      recovery agree with that. */
  lemma DecidesOnFresh(rec: Reports, now: Reports)
    requires rec.Keys <= now.Keys
    ensures Decision(rec, now) == now <==> forall s :: s in rec ==> rec[s] == now[s]
  {
    var d := Decision(rec, now);
    if d == now {
      forall s | s in rec ensures rec[s] == now[s] { assert d[s] == now[s]; }
    }
  }

  /** The success that recovery reports when it finds no ticket is true, whatever the shards hold,
      exactly when no reports were left behind or those left behind name a ticket, in which case
      it is not reported. */
  lemma SuccessIsTrueExactlyWhen(rec: Reports, shards: set<ShardId>)
    requires rec.Keys <= shards
    ensures (forall now: Reports :: now.Keys == shards && ReportedTickets(Decision(rec, now)) == {} ==>
            ReportedTickets(now) == {})
            <==> rec == map[] || ReportedTickets(rec) != {}
  {
    if rec == map[] {
      forall now: Reports | now.Keys == shards ensures Decision(rec, now) == now { DecidesOnFresh(rec, now); }
    } else if ReportedTickets(rec) != {} {
      var t :| t in ReportedTickets(rec);
      var s :| s in rec && t in rec[s];
      forall now: Reports ensures t in ReportedTickets(Decision(rec, now)) {
        assert s in Decision(rec, now) && t in Decision(rec, now)[s];
      }
    } else {
      var s :| s in rec;
      var now := HiddenTicket(rec, shards, s, 0);
    }
  }

  /** A ticket that a shard reports, and that recovery does not see. */
  lemma HiddenTicket(rec: Reports, shards: set<ShardId>, s: ShardId, t: Ticket) returns (now: Reports)
    requires rec.Keys <= shards && s in rec && ReportedTickets(rec) == {}
    ensures now.Keys == shards && t in ReportedTickets(now) && ReportedTickets(Decision(rec, now)) == {}
  {
    now := map x | x in shards :: if x == s then map[t := Begun] else map[];
    assert s in now && t in now[s];
    forall x, y | x in Decision(rec, now) && y in Decision(rec, now)[x] ensures y in ReportedTickets(rec) {
      if x in rec { assert y in rec[x]; }
    }
  }

  lemma SameSize(a: set<ShardId>, b: set<ShardId>)
    requires a <= b && |a| == |b|
    ensures a == b
  {
    if a != b {
      var x :| x in b && x !in a;
      assert a <= b - {x};
      NotLarger(a, b - {x});
    }
  }
}
