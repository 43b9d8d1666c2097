/** The broker's handling of one ticket as functions on values
    (src/parsec/broker/impl.cpp). Every function takes the broker's record of the ticket and
    returns the new record, the requests sent to shards and the reply to the client. */
module BrokerSpec {
  import opened Basics
  import opened LockTable
  import opened ShardSpec

  type ShardId = nat

  datatype Request =
    | TryLockReq(key: Key, lockType: LockType, first: bool)
    | PrepareReq(update: map<Key, Value>)
    | CommitReq
    | RollbackReq
    | FinishReq

  datatype Response =
    | LockValue(key: Key, value: Value)
    | LockError(key: Key, code: ErrorCode)
    | PrepareDone(error: Option<ErrorCode>)
    | CommitDone(error: Option<ErrorCode>)
    | RollbackDone(error: Option<ErrorCode>)
    | FinishDone(error: Option<ErrorCode>)

  datatype BrokerError =
    | TicketUnknown | TicketPrepared | TicketCommitted | TicketBegun | TicketAborted | TicketNotPrepared
    | InvalidShardState | WaitingForLocks | CommitError | RollbackError | FinishError | CommitHazard
    | TicketNumberAssignment | GetTicketsError

  datatype Reply =
    | NoReply
    | ValueReply(value: Value)
    | Success
    | Failed(error: BrokerError)
    | ShardFailed(code: ErrorCode)

  datatype KeyState = KeyState(locked: bool, lockType: LockType, value: Option<Value>)

  datatype ShardPhase =
    | AtBegun | Preparing | AtPrepared | AtWounded | Committing | AtCommitted
    | RollingBack | RolledBack | Finishing | Finished

  datatype ShardState = ShardState(keys: map<Key, KeyState>, phase: ShardPhase)

  datatype TicketPhase = InProgress | AllPrepared | AllCommitted | Aborted

  datatype TicketState = TicketState(phase: TicketPhase, shards: map<ShardId, ShardState>)

  /** A broker step: the new record (none once the ticket is forgotten), what it sends, what it replies. */
  datatype Step = Step(state: Option<TicketState>, sends: map<ShardId, Request>, reply: Reply)

  const NEW_STATE := TicketState(InProgress, map[])
  const NEW_SHARD_STATE := ShardState(map[], AtBegun)

  function ShardAt(b: TicketState, s: ShardId): ShardState { if s in b.shards then b.shards[s] else NEW_SHARD_STATE }

  function Quiet(b: TicketState, reply: Reply): Step { Step(Some(b), map[], reply) }

  predicate AllIn(b: TicketState, p: ShardPhase) { forall s :: s in b.shards ==> b.shards[s].phase == p }

  predicate SomeIn(b: TicketState, p: ShardPhase) { exists s :: s in b.shards && b.shards[s].phase == p }

  function SetPhase(b: TicketState, s: ShardId, p: ShardPhase): TicketState {
    b.(shards := b.shards[s := ShardAt(b, s).(phase := p)])
  }

  /** Puts every shard that is not yet in phase `skip` into phase `p`. */
  function Advance(b: TicketState, skip: ShardPhase, p: ShardPhase): TicketState {
    b.(shards := map s | s in b.shards :: if b.shards[s].phase == skip then b.shards[s] else b.shards[s].(phase := p))
  }

  /** The same request to every shard that is not yet in phase `skip`. */
  function ToOthers(b: TicketState, skip: ShardPhase, r: Request): map<ShardId, Request> {
    map s | s in b.shards && b.shards[s].phase != skip :: r
  }

  // ---- try_lock, with the key's shard found by the directory ----

  /** The record a lock request works on: an aborted ticket starts afresh. */
  function Restarted(b: TicketState): TicketState { if b.phase.Aborted? then NEW_STATE else b }

  function Cached(st: ShardState, k: Key, ty: LockType): Option<Value> {
    if k in st.keys && st.keys[k].locked && st.keys[k].lockType.Covers(ty) then st.keys[k].value else None
  }

  function KnownValue(st: ShardState, k: Key): Option<Value> { if k in st.keys then st.keys[k].value else None }

  function TryLock(b: TicketState, s: ShardId, k: Key, ty: LockType): Step {
    match b.phase
    case AllPrepared => Quiet(b, Failed(TicketPrepared))
    case AllCommitted => Quiet(b, Failed(TicketCommitted))
    case _ =>
      var b := Restarted(b);
      var st := ShardAt(b, s);
      if Cached(st, k, ty).Some? then
        Quiet(b.(shards := b.shards[s := st]), ValueReply(Cached(st, k, ty).value))
      else
        var st' := st.(keys := st.keys[k := KeyState(false, ty, KnownValue(st, k))]);
        Step(Some(b.(shards := b.shards[s := st'])), map[s := TryLockReq(k, ty, st.keys == map[])], NoReply)
  }

  function HandleLock(b: TicketState, s: ShardId, k: Key, v: Value): Step {
    var st := ShardAt(b, s);
    var b := b.(shards := b.shards[s := st]);
    if k !in st.keys || st.keys[k].locked then Quiet(b, Failed(InvalidShardState))
    else
      var st' := st.(keys := st.keys[k := st.keys[k].(locked := true, value := Some(v))]);
      Quiet(b.(shards := b.shards[s := st']), ValueReply(v))
  }

  // ---- commit: prepare everywhere, then commit everywhere ----

  function KeysOf(b: TicketState): set<Key> { set s, k | s in b.shards && k in b.shards[s].keys :: k }

  predicate Waiting(b: TicketState) {
    exists s, k :: s in b.shards && k in b.shards[s].keys && !b.shards[s].keys[k].locked
  }

  /** The part of an update whose keys are tracked under one shard. */
  function Part(update: map<Key, Value>, st: ShardState): map<Key, Value> {
    map k | k in update && k in st.keys :: update[k]
  }

  function Commit(b: TicketState, update: map<Key, Value>): Step {
    match b.phase
    case AllCommitted => Quiet(b, Failed(TicketCommitted))
    case Aborted => Quiet(b, Failed(TicketAborted))
    case _ =>
      if Waiting(b) then Quiet(b, Failed(WaitingForLocks))
      else if !(update.Keys <= KeysOf(b)) then Quiet(b, Failed(CommitHazard))
      else if b.phase.AllPrepared? then DoCommit(b)
      else DoPrepare(b, update)
  }

  function DoPrepare(b: TicketState, update: map<Key, Value>): Step {
    Step(Some(Advance(b, AtPrepared, Preparing)),
         map s | s in b.shards && b.shards[s].phase != AtPrepared :: PrepareReq(Part(update, b.shards[s])),
         NoReply)
  }

  function DoCommit(b: TicketState): Step {
    Step(Some(Advance(b, AtCommitted, Committing)), ToOthers(b, AtCommitted, CommitReq), NoReply)
  }

  function HandlePrepare(b: TicketState, s: ShardId, error: Option<ErrorCode>): Step {
    match b.phase
    case AllPrepared => Quiet(b, Failed(TicketPrepared))
    case AllCommitted => Quiet(b, Failed(TicketCommitted))
    case Aborted => Quiet(b, Failed(TicketAborted))
    case InProgress =>
      var b := SetPhase(b, s, ShardAt(b, s).phase);
      if !b.shards[s].phase.Preparing? then Quiet(b, NoReply)
      else if error.Some? then
        if !error.value.TicketWounded? then Quiet(b, ShardFailed(error.value))
        else if SomeIn(b, AtWounded) then Quiet(b, NoReply)
        else Quiet(SetPhase(b, s, AtWounded), ShardFailed(error.value))
      else
        var b' := SetPhase(b, s, AtPrepared);
        if AllIn(b', AtPrepared) then DoCommit(b'.(phase := AllPrepared)) else Quiet(b', NoReply)
  }

  function HandleCommit(b: TicketState, s: ShardId, error: Option<ErrorCode>): Step {
    match b.phase
    case InProgress => Quiet(b, Failed(TicketNotPrepared))
    case AllCommitted => Quiet(b, Failed(TicketCommitted))
    case Aborted => Quiet(b, Failed(TicketAborted))
    case AllPrepared =>
      var b := SetPhase(b, s, ShardAt(b, s).phase);
      if !b.shards[s].phase.Committing? then Quiet(b, Failed(InvalidShardState))
      else if error.Some? then Quiet(b, Failed(CommitError))
      else
        var b' := SetPhase(b, s, AtCommitted);
        if AllIn(b', AtCommitted) then Quiet(b'.(phase := AllCommitted), Success) else Quiet(b', NoReply)
  }

  // ---- rollback and finish ----

  function Rollback(b: TicketState): Step {
    match b.phase
    case AllPrepared => Quiet(b, Failed(TicketPrepared))
    case AllCommitted => Quiet(b, Failed(TicketCommitted))
    case Aborted => Quiet(b, Failed(TicketAborted))
    case InProgress =>
      if b.shards == map[] then Quiet(b.(phase := Aborted), Success)
      else Step(Some(Advance(b, RolledBack, RollingBack)), ToOthers(b, RolledBack, RollbackReq), NoReply)
  }

  function HandleRollback(b: TicketState, s: ShardId, error: Option<ErrorCode>): Step {
    match b.phase
    case AllPrepared => Quiet(b, Failed(TicketPrepared))
    case AllCommitted => Quiet(b, Failed(TicketCommitted))
    case Aborted => Quiet(b, Failed(TicketAborted))
    case InProgress =>
      var b := SetPhase(b, s, ShardAt(b, s).phase);
      if !b.shards[s].phase.RollingBack? then Quiet(b, Failed(InvalidShardState))
      else if error.Some? then Quiet(b, Failed(RollbackError))
      else
        var b' := b.(shards := b.shards[s := ShardState(map[], RolledBack)]);
        if AllIn(b', RolledBack) then Quiet(b'.(phase := Aborted), Success) else Quiet(b', NoReply)
  }

  function Finish(b: TicketState): Step {
    match b.phase
    case InProgress => Quiet(b, Failed(TicketBegun))
    case AllPrepared => Quiet(b, Failed(TicketPrepared))
    case Aborted => Step(None, map[], Success)
    case AllCommitted =>
      Step(Some(Advance(b, Finished, Finishing)), ToOthers(b, Finished, FinishReq), NoReply)
  }

  function HandleFinish(b: TicketState, s: ShardId, error: Option<ErrorCode>): Step {
    match b.phase
    case InProgress => Quiet(b, Failed(TicketBegun))
    case AllPrepared => Quiet(b, Failed(TicketPrepared))
    case Aborted => Quiet(b, Failed(TicketAborted))
    case AllCommitted =>
      var b := SetPhase(b, s, ShardAt(b, s).phase);
      if !b.shards[s].phase.Finishing? then Quiet(b, Failed(InvalidShardState))
      else if error.Some? then Quiet(b, Failed(FinishError))
      else
        var b' := SetPhase(b, s, Finished);
        if AllIn(b', Finished) then Step(None, map[], Success) else Quiet(b', NoReply)
  }

  /** What the broker does with a response of shard `s`. A response about a lock that failed
      goes straight to the client. */
  function Handle(b: TicketState, s: ShardId, r: Response): Step {
    match r
    case LockValue(k, v) => HandleLock(b, s, k, v)
    case LockError(_, code) => Quiet(b, ShardFailed(code))
    case PrepareDone(error) => HandlePrepare(b, s, error)
    case CommitDone(error) => HandleCommit(b, s, error)
    case RollbackDone(error) => HandleRollback(b, s, error)
    case FinishDone(error) => HandleFinish(b, s, error)
  }

  // ---- Recovery of a ticket from what the shards report ----

  function PhaseFrom(p: Phase): ShardPhase {
    match p
    case Begun => AtBegun
    case Wounded => AtWounded
    case Prepared => AtPrepared
    case Committed => AtCommitted
  }

  /** The record made from the phases that the shards report for a ticket. */
  function Recovered(reports: map<ShardId, Phase>): TicketState {
    TicketState(
      if forall s :: s in reports ==> reports[s].Committed? then AllCommitted
      else if exists s :: s in reports && reports[s].Committed? then AllPrepared
      else InProgress,
      map s | s in reports :: ShardState(map[], PhaseFrom(reports[s])))
  }

  /** Finish a ticket that all its shards committed, commit the rest of one that some committed,
      roll back one that none committed. */
  function Recover(reports: map<ShardId, Phase>): Step {
    var b := Recovered(reports);
    match b.phase
    case AllCommitted => Finish(b)
    case AllPrepared => Commit(b, map[])
    case _ => Rollback(b)
  }
}
