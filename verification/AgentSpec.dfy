/** The agent's state machine (src/parsec/agent/impl.cpp) as a function of its state and an
    event. A reaction is `None` where the source would fail an assertion or end with a fatal
    error. */
module AgentSpec {
  import opened Basics
  import opened LockTable

  datatype State =
    | Init | BeginSent | BeginFailed | FunctionGetSent | FunctionGetFailed | FunctionGetError
    | FunctionStarted | FunctionFailed | FunctionException | CommitSent | CommitFailed | CommitErrored
    | FinishSent | FinishFailed | FinishComplete | RollbackSent | RollbackFailed | RollbackComplete

  datatype AgentError =
    | BrokerUnreachable | TicketNumberAssignment | FunctionRetrieval | FunctionExecution
    | CommitProblem | FinishProblem | RollbackProblem | Retry

  datatype Result = Updates(updates: map<Key, Value>) | Error(code: AgentError)

  /** What the agent asks of the broker, and what it reports to its caller. */
  datatype Act =
    | AskBegin | AskLock(key: Key, lockType: LockType) | AskLocks(locks: map<Key, LockType>) | StartRunner
    | AskCommit(updates: map<Key, Value>) | AskRollback | AskFinish
    | TellRunner(wounded: bool) | Report(result: Result)

  /** `direct` tells that the function needs no lookup; `attempt` counts the starts, and
      `committed` tells whether a successful commit reply was handled in this attempt. */
  datatype Agent = Agent(
    state: State, result: Option<Result>, ticket: Option<Ticket>, permanentError: bool, wounded: bool,
    requested: map<Key, LockType>, code: Key, direct: bool, readonly: bool, lockType: LockType,
    attempt: nat, committed: bool)

  datatype Event =
    | Exec
    | GotTicket(number: Ticket) | NoTicket
    | FunctionValue | FunctionBrokerError | FunctionShardError(wounded: bool)
    | LocksReacquired
    | LockWanted(key: Key, lockType: LockType) | LockAnswered(wounded: bool)
    | RunDone(updates: map<Key, Value>) | RunFailed(wounded: bool)
    | CommitOk | CommitBrokerError(hazard: bool) | CommitShardError(wounded: bool)
    | FinishOk | FinishError | RollbackOk | RollbackError

  /** Whether calls go through: the calls to the broker in turn, and the start of the runner. When
      earlier locks are taken again and that fails, `taken` are those asked for before the call
      for `failing` failed. */
  datatype Luck = Luck(first: bool, second: bool, runs: bool, taken: set<Key>, failing: Key)

  const LUCKY := Luck(true, true, true, {}, EMPTY)

  datatype Reaction = Reaction(agent: Agent, acts: seq<Act>)

  function New(code: Key, direct: bool, readonly: bool, lockType: LockType): Agent {
    Agent(Init, None, None, false, false, map[], code, direct, readonly, if readonly then Read else lockType, 0, false)
  }

  // ---- The steps the handlers are made of ----

  function Tell(a: Agent): Option<Reaction> {
    if a.result.None? then None else Some(Reaction(a, [Report(a.result.value)]))
  }

  /** `do_result`: report, roll back, or end with a fatal error. */
  function DoResult(a: Agent, reached: bool): Option<Reaction> {
    if a.result.None? then None
    else
      match a.state
      case RollbackComplete => if a.result == Some(Error(Retry)) then Tell(a) else None
      case BeginFailed => Tell(a)
      case FunctionGetFailed => DoRollback(a, false, reached)
      case FunctionFailed => DoRollback(a, false, reached)
      case CommitFailed => DoRollback(a, false, reached)
      case FinishFailed => Tell(a)
      case RollbackFailed => Tell(a)
      case FunctionGetError => DoRollback(a, true, reached)
      case CommitErrored => DoRollback(a, true, reached)
      case FunctionException => DoRollback(a, true, reached)
      case FinishComplete => Tell(a)
      case _ => None
  }

  predicate MayRollback(s: State) {
    s.CommitFailed? || s.RollbackSent? || s.FunctionException? || s.FunctionFailed? || s.CommitErrored?
    || s.FunctionGetFailed? || s.FunctionGetError? || s.FunctionStarted? || s.RollbackFailed?
  }

  function DoRollback(a: Agent, finish: bool, reached: bool): Option<Reaction> {
    if !MayRollback(a.state) || a.ticket.None? then None
    else
      var a := a.(state := RollbackSent, permanentError := finish);
      if reached then Some(Reaction(a, [AskRollback]))
      else Tell(a.(state := RollbackFailed, result := Some(Error(BrokerUnreachable))))
  }

  function DoFinish(a: Agent, reached: bool): Option<Reaction> {
    if !(a.state.CommitSent? || a.state.FinishFailed? || a.state.FinishSent? || a.state.RollbackComplete?)
      || a.ticket.None? then None
    else
      var a := a.(state := FinishSent);
      if reached then Some(Reaction(a, [AskFinish]))
      else Tell(a.(state := FinishFailed, result := Some(Error(BrokerUnreachable))))
  }

  function DoCommit(a: Agent, luck: Luck): Option<Reaction> {
    if !(a.state.FunctionStarted? || a.state.CommitFailed? || a.state.CommitSent?) || a.ticket.None? then None
    else if a.result.None? || !a.result.value.Updates? then None
    else
      var payload := if a.readonly then map[] else a.result.value.updates;
      var a := a.(state := CommitSent);
      if luck.first then Some(Reaction(a, [AskCommit(payload)]))
      else DoResult(a.(state := CommitFailed, result := Some(Error(BrokerUnreachable))), luck.second)
  }

  function DoRunner(a: Agent, luck: Luck): Option<Reaction> {
    if luck.runs then Some(Reaction(a, [StartRunner]))
    else DoResult(a.(state := FunctionFailed, result := Some(Error(FunctionExecution))), luck.second)
  }

  /** The function's value is known: take earlier locks again, or run at once. */
  function GotFunction(a: Agent, luck: Luck): Option<Reaction> {
    var a := a.(state := FunctionStarted);
    if a.requested == map[] then DoRunner(a, luck)
    else if luck.first then Some(Reaction(a, [AskLocks(a.requested)]))
    else
      var failed := a.(requested := Among(a.requested, luck.taken + {luck.failing}), state := FunctionGetFailed,
                       result := Some(Error(FunctionRetrieval)));
      After([AskLocks(Among(a.requested, luck.taken - {luck.failing}))], DoResult(failed, luck.second))
  }

  function Among(locks: map<Key, LockType>, keys: set<Key>): map<Key, LockType> {
    map k | k in locks && k in keys :: locks[k]
  }

  /** What is asked before a reaction. */
  function After(acts: seq<Act>, r: Option<Reaction>): Option<Reaction> {
    if r.None? then None else Some(Reaction(r.value.agent, acts + r.value.acts))
  }

  function DoStart(a: Agent, luck: Luck): Option<Reaction> {
    if !(a.state.BeginSent? || a.state.RollbackComplete?) || a.ticket.None? then None
    else
      var a := a.(state := FunctionGetSent, attempt := a.attempt + 1, committed := false);
      if a.direct then GotFunction(a, luck)
      else if luck.first then Some(Reaction(a, [AskLock(a.code, a.lockType)]))
      else DoResult(a.(state := FunctionGetFailed, result := Some(Error(BrokerUnreachable))), luck.second)
  }

  // ---- The handlers ----

  function Ignore(a: Agent): Option<Reaction> { Some(Reaction(a, [])) }

  function DoExec(a: Agent, luck: Luck): Option<Reaction> {
    match a.state
    case RollbackComplete => DoStart(a.(result := None, wounded := false), luck)
    case CommitFailed => DoCommit(a, luck)
    case CommitSent => DoCommit(a, luck)
    case RollbackFailed => DoRollback(a, a.permanentError, luck.first)
    case RollbackSent => DoRollback(a, a.permanentError, luck.first)
    case FunctionGetSent => DoRollback(a, false, luck.first)
    case FunctionGetFailed => DoRollback(a, false, luck.first)
    case FunctionFailed => DoRollback(a, false, luck.first)
    case FunctionStarted => DoRollback(a, false, luck.first)
    case FinishSent => DoFinish(a, luck.first)
    case FinishFailed => DoFinish(a, luck.first)
    case FunctionGetError => Ignore(a)
    case CommitErrored => Ignore(a)
    case FunctionException => Ignore(a)
    case FinishComplete => Ignore(a)
    case _ =>
      if luck.first then Some(Reaction(a.(result := None, state := BeginSent), [AskBegin]))
      else DoResult(a.(state := BeginFailed, result := Some(Error(BrokerUnreachable))), luck.second)
  }

  function WantLock(a: Agent, k: Key, ty: LockType): Option<Reaction> {
    if a.ticket.None? then None
    else if !a.state.FunctionStarted? || (a.readonly && ty.Write?) then Ignore(a)
    else if a.wounded then Some(Reaction(a, [TellRunner(true)]))
    else
      var locks := if k in a.requested && a.requested[k].Write? then a.requested else a.requested[k := ty];
      Some(Reaction(a.(requested := locks), [AskLock(k, if a.readonly then Read else ty)]))
  }

  /** A failure that leads to a rollback, final or not. */
  function Fail(a: Agent, s: State, code: AgentError, luck: Luck): Option<Reaction> {
    DoResult(a.(state := s, result := Some(Error(code))), luck.first)
  }

  function React(a: Agent, e: Event, luck: Luck): Option<Reaction> {
    match e
    case Exec => DoExec(a, luck)
    case GotTicket(n) => if a.state.BeginSent? then DoStart(a.(ticket := Some(n)), luck) else Ignore(a)
    case NoTicket => if a.state.BeginSent? then Fail(a, BeginFailed, TicketNumberAssignment, luck) else Ignore(a)
    case FunctionValue => if a.state.FunctionGetSent? then GotFunction(a, luck) else Ignore(a)
    case FunctionBrokerError =>
      if a.state.FunctionGetSent? then Fail(a, FunctionGetFailed, FunctionRetrieval, luck) else Ignore(a)
    case FunctionShardError(wounded) =>
      if a.state.FunctionGetSent? then Fail(a, if wounded then FunctionGetFailed else FunctionGetError,
        FunctionRetrieval, luck)
      else Ignore(a)
    case LocksReacquired => if a.state.FunctionStarted? then DoRunner(a, luck) else Ignore(a)
    case LockWanted(k, ty) => if a.state.FunctionStarted? then WantLock(a, k, ty) else Ignore(a)
    case LockAnswered(wounded) =>
      if a.state.FunctionStarted? then Some(Reaction(a.(wounded := a.wounded || wounded), [TellRunner(wounded)]))
      else Ignore(a)
    case RunDone(updates) =>
      if a.state.FunctionStarted? then DoCommit(a.(result := Some(Updates(updates))), luck) else Ignore(a)
    case RunFailed(wounded) =>
      if a.state.FunctionStarted?
        then Fail(a, if wounded then FunctionFailed else FunctionException, FunctionExecution, luck)
      else Ignore(a)
    case CommitOk => if a.state.CommitSent? then DoFinish(a.(committed := true), luck.first) else Ignore(a)
    case CommitBrokerError(hazard) =>
      if a.state.CommitSent? then Fail(a, if hazard then CommitErrored else CommitFailed, CommitProblem, luck)
      else Ignore(a)
    case CommitShardError(wounded) =>
      if a.state.CommitSent? then Fail(a, if wounded then CommitFailed else CommitErrored, CommitProblem, luck)
      else Ignore(a)
    case FinishOk => if a.state.FinishSent? then DoResult(a.(state := FinishComplete), luck.first) else Ignore(a)
    case FinishError => if a.state.FinishSent? then Fail(a, FinishFailed, FinishProblem, luck) else Ignore(a)
    case RollbackOk =>
      if !a.state.RollbackSent? then Ignore(a)
      else if a.permanentError then DoFinish(a.(state := RollbackComplete), luck.first)
      else DoResult(a.(state := RollbackComplete, result := Some(Error(Retry))), luck.first)
    case RollbackError => if a.state.RollbackSent? then Fail(a, RollbackFailed, RollbackProblem, luck) else Ignore(a)
  }

  // ---- What every event keeps ----

  predicate Finishing(s: State) { s.FinishSent? || s.FinishFailed? || s.FinishComplete? }

  /** States that a handler passes through but never ends in. */
  predicate Passing(s: State) {
    s.FunctionGetFailed? || s.FunctionGetError? || s.FunctionFailed? || s.FunctionException? || s.CommitFailed?
      || s.CommitErrored?
  }

  predicate AgentInv(a: Agent) {
    && !Passing(a.state)
    && (a.ticket.None? ==> a.state.Init? || a.state.BeginSent? || a.state.BeginFailed?)
    && (a.state.CommitSent? ==> a.result.Some? && a.result.value.Updates?)
    && (Finishing(a.state) ==> a.result.Some?)
    && (a.committed ==> Finishing(a.state))
    && (a.result.Some? && a.result.value.Updates? ==> a.state.CommitSent? || a.committed)
    && ((a.state.RollbackSent? || a.state.RollbackFailed?) && a.permanentError ==> a.result.Some?)
  }

  function Payload(a: Agent): map<Key, Value> {
    if a.readonly || a.result.None? || !a.result.value.Updates? then map[] else a.result.value.updates
  }

  /** What an agent may ask and report. */
  ghost predicate Disciplined(a: Agent, r: Reaction) {
    && (AskRollback in r.acts ==> !a.committed && !r.agent.committed)
    && (forall u :: Report(Updates(u)) in r.acts ==>
          r.agent.committed && r.agent.state.FinishComplete? && r.agent.result == Some(Updates(u)))
    && (forall act :: act in r.acts && (act.AskLock? || act.AskLocks? || act.AskCommit?) ==>
          !a.state.RollbackSent? && !a.state.RollbackFailed? && !a.committed)
    && (forall u :: AskCommit(u) in r.acts ==> u == Payload(r.agent) && (a.state.CommitSent? ==> u == Payload(a)))
    && (a.committed ==> r.agent.committed && r.agent.attempt == a.attempt)
  }

  ghost predicate Good(a: Agent, r: Option<Reaction>) { r.Some? && AgentInv(r.value.agent) && Disciplined(a, r.value) }

  lemma RollbackGood(a0: Agent, a: Agent, finish: bool, reached: bool)
    requires MayRollback(a.state) && a.ticket.Some? && !a.committed && !a0.committed
    requires a.result.Some? ==> a.result.value.Error?
    requires finish ==> a.result.Some?
    ensures Good(a0, DoRollback(a, finish, reached))
  {
  }

  lemma FailGood(a0: Agent, a: Agent, s: State, code: AgentError, reached: bool)
    requires a.ticket.Some? && !a.committed && !a0.committed && Passing(s)
    ensures Good(a0, DoResult(a.(state := s, result := Some(Error(code))), reached))
  {
    hide Good, DoRollback;
    var b := a.(state := s, result := Some(Error(code)));
    RollbackGood(a0, b, false, reached);
    RollbackGood(a0, b, true, reached);
  }

  lemma RunnerGood(a0: Agent, a: Agent, luck: Luck)
    requires a.ticket.Some? && !a.committed && !a0.committed && a.state.FunctionStarted?
    requires a.result.Some? ==> a.result.value.Error?
    ensures Good(a0, DoRunner(a, luck))
  {
    hide DoResult;
    FailGood(a0, a, FunctionFailed, FunctionExecution, luck.second);
  }

  lemma FunctionGood(a0: Agent, a: Agent, luck: Luck)
    requires a.ticket.Some? && !a.committed && !a0.committed && !a0.state.RollbackSent? && !a0.state.RollbackFailed?
    requires a.result.Some? ==> a.result.value.Error?
    requires a.state.FunctionGetSent? || a.state.FunctionStarted?
    ensures Good(a0, GotFunction(a, luck)) && (a.state.FunctionStarted? ==> Good(a0, DoRunner(a, luck)))
  {
    hide DoResult;
    var b := a.(state := FunctionStarted);
    assert b.result.Some? ==> b.result.value.Error?;
    RunnerGood(a0, b, luck);
    hide DoRunner;
    if a.requested != map[] && !luck.first {
      var c := b.(requested := Among(b.requested, luck.taken + {luck.failing}));
      FailGood(a0, c, FunctionGetFailed, FunctionRetrieval, luck.second);
      LocksFirst(a0, Among(b.requested, luck.taken - {luck.failing}),
                 DoResult(c.(state := FunctionGetFailed, result := Some(Error(FunctionRetrieval))), luck.second));
    }
    assert a.state.FunctionStarted? ==> b == a;
  }

  lemma LocksFirst(a0: Agent, locks: map<Key, LockType>, r: Option<Reaction>)
    requires Good(a0, r) && !a0.state.RollbackSent? && !a0.state.RollbackFailed? && !a0.committed
    ensures Good(a0, After([AskLocks(locks)], r))
  {
  }

  lemma StartGood(a0: Agent, a: Agent, luck: Luck)
    requires a.ticket.Some? && (a.state.BeginSent? || a.state.RollbackComplete?)
    requires !a0.committed && !a0.state.RollbackSent? && !a0.state.RollbackFailed?
    requires a.result.Some? ==> a.result.value.Error?
    ensures Good(a0, DoStart(a, luck))
  {
    hide DoResult, GotFunction, Good;
    var b := a.(state := FunctionGetSent, attempt := a.attempt + 1, committed := false);
    FunctionGood(a0, b, luck);
    FailGood(a0, b, FunctionGetFailed, BrokerUnreachable, luck.second);
    LookupGood(a0, b);
  }

  lemma LookupGood(a0: Agent, a: Agent)
    requires a.ticket.Some? && a.state.FunctionGetSent? && !a.committed
    requires !a0.committed && !a0.state.RollbackSent? && !a0.state.RollbackFailed?
    requires a.result.Some? ==> a.result.value.Error?
    ensures Good(a0, Some(Reaction(a, [AskLock(a.code, a.lockType)])))
  {
  }

  lemma CommitGood(a0: Agent, a: Agent, luck: Luck)
    requires a.ticket.Some? && (a.state.FunctionStarted? || a.state.CommitSent?) && !a.committed
    requires a.result.Some? && a.result.value.Updates?
    requires !a0.committed && (a0.state.FunctionStarted? || (a0.state.CommitSent? && a0 == a))
    ensures Good(a0, DoCommit(a, luck))
  {
    FailGood(a0, a.(state := CommitSent), CommitFailed, BrokerUnreachable, luck.second);
    hide DoResult;
  }

  lemma FinishGood(a0: Agent, a: Agent, reached: bool)
    requires a.ticket.Some? && a.result.Some? && (a.committed || a.result.value.Error?)
    requires a.state.CommitSent? || a.state.FinishFailed? || a.state.FinishSent? || a.state.RollbackComplete?
    requires a0.committed ==> a.committed && a.attempt == a0.attempt
    ensures Good(a0, DoFinish(a, reached))
  {
  }

  lemma ExecGood(a: Agent, luck: Luck)
    requires AgentInv(a) && !a.state.FunctionGetSent?
    ensures Good(a, DoExec(a, luck))
  {
    hide Good, DoStart, DoCommit, DoRollback, DoFinish;
    match a.state
    case RollbackComplete => StartGood(a, a.(result := None, wounded := false), luck);
    case CommitSent => CommitGood(a, a, luck);
    case RollbackFailed => RollbackGood(a, a, a.permanentError, luck.first);
    case RollbackSent => RollbackGood(a, a, a.permanentError, luck.first);
    case FunctionStarted => RollbackGood(a, a, false, luck.first);
    case FinishSent => FinishGood(a, a, luck.first);
    case FinishFailed => FinishGood(a, a, luck.first);
    case _ => BeginAgain(a, luck);
  }

  lemma BeginAgain(a: Agent, luck: Luck)
    requires AgentInv(a) && (a.state.Init? || a.state.BeginSent? || a.state.BeginFailed? || a.state.FinishComplete?)
    ensures Good(a, DoExec(a, luck))
  {
  }

  lemma FetchGood(a: Agent, e: Event, luck: Luck)
    requires AgentInv(a)
    requires e.GotTicket? || e.NoTicket? || e.FunctionValue? || e.FunctionBrokerError? || e.FunctionShardError?
    ensures Good(a, React(a, e, luck))
  {
    if a.state.BeginSent? {
      if e.GotTicket? { StartGood(a, a.(ticket := Some(e.number)), luck); }
      hide DoStart;
    } else if a.state.FunctionGetSent? {
      FunctionGood(a, a, luck);
      FailGood(a, a, FunctionGetFailed, FunctionRetrieval, luck.first);
      FailGood(a, a, FunctionGetError, FunctionRetrieval, luck.first);
      hide DoResult, GotFunction;
    }
  }

  lemma RunGood(a: Agent, e: Event, luck: Luck)
    requires AgentInv(a)
    requires e.LocksReacquired? || e.LockWanted? || e.LockAnswered? || e.RunDone? || e.RunFailed?
    ensures Good(a, React(a, e, luck))
  {
    if a.state.FunctionStarted? {
      FunctionGood(a, a, luck);
      FailGood(a, a, FunctionFailed, FunctionExecution, luck.first);
      FailGood(a, a, FunctionException, FunctionExecution, luck.first);
      if e.RunDone? { CommitGood(a, a.(result := Some(Updates(e.updates))), luck); }
      hide DoResult, DoRunner, DoCommit;
    }
  }

  lemma CommitReplyGood(a: Agent, e: Event, luck: Luck)
    requires AgentInv(a) && (e.CommitOk? || e.CommitBrokerError? || e.CommitShardError?)
    ensures Good(a, React(a, e, luck))
  {
    if a.state.CommitSent? {
      hide DoResult, DoFinish, Good;
      FinishGood(a, a.(committed := true), luck.first);
      FailGood(a, a, CommitErrored, CommitProblem, luck.first);
      FailGood(a, a, CommitFailed, CommitProblem, luck.first);
    }
  }

  lemma FinishReplyGood(a: Agent, e: Event, luck: Luck)
    requires AgentInv(a) && (e.FinishOk? || e.FinishError?)
    ensures Good(a, React(a, e, luck))
  {
  }

  lemma RollbackReplyGood(a: Agent, e: Event, luck: Luck)
    requires AgentInv(a) && (e.RollbackOk? || e.RollbackError?)
    ensures Good(a, React(a, e, luck))
  {
    if a.state.RollbackSent? && e.RollbackOk? && a.permanentError {
      hide DoFinish, Good;
      FinishGood(a, a.(state := RollbackComplete), luck.first);
    }
  }

  /** No assertion fails and no fatal branch is reached, except when `exec` is called while the
      function is being fetched: then the assertion of `do_rollback` fails. */
  lemma FailsExactlyWhen(a: Agent, e: Event, luck: Luck)
    requires AgentInv(a)
    ensures React(a, e, luck).None? <==> e.Exec? && a.state.FunctionGetSent?
    ensures React(a, e, luck).Some? ==> Good(a, React(a, e, luck))
  {
    if e.Exec? {
      if !a.state.FunctionGetSent? { ExecGood(a, luck); }
      hide DoStart, DoCommit, DoFinish;
    } else {
      hide React;
      match e
      case GotTicket(_) => FetchGood(a, e, luck);
      case NoTicket => FetchGood(a, e, luck);
      case FunctionValue => FetchGood(a, e, luck);
      case FunctionBrokerError => FetchGood(a, e, luck);
      case FunctionShardError(_) => FetchGood(a, e, luck);
      case LocksReacquired => RunGood(a, e, luck);
      case LockWanted(_, _) => RunGood(a, e, luck);
      case LockAnswered(_) => RunGood(a, e, luck);
      case RunDone(_) => RunGood(a, e, luck);
      case RunFailed(_) => RunGood(a, e, luck);
      case FinishOk => FinishReplyGood(a, e, luck);
      case FinishError => FinishReplyGood(a, e, luck);
      case RollbackOk => RollbackReplyGood(a, e, luck);
      case RollbackError => RollbackReplyGood(a, e, luck);
      case _ => CommitReplyGood(a, e, luck);
    }
  }

  // ---- Whole runs ----

  datatype AgentRun = AgentRun(states: seq<Agent>, events: seq<Event>, luck: seq<Luck>)

  /** Any order of replies, runner results and calls of `exec`, the latter not while the
      function is being fetched. */
  ghost predicate Legal(run: AgentRun) {
    && |run.states| == |run.events| + 1 && |run.luck| == |run.events|
    && run.states[0].state.Init? && AgentInv(run.states[0])
    && forall n :: 0 <= n < |run.events| ==> Follows(run.states[n], run.events[n], run.luck[n], run.states[n + 1])
  }

  ghost predicate Follows(a: Agent, e: Event, luck: Luck, r: Agent) {
    !(e.Exec? && a.state.FunctionGetSent?) && (React(a, e, luck).Some? ==> r == React(a, e, luck).value.agent)
  }

  /** In every run no assertion or fatal branch is reached, no rollback is asked for after a
      successful commit reply, and updates are reported only if the commit of that attempt
      succeeded. */
  lemma {:induction false} RunsAreSafe(run: AgentRun, n: nat)
    requires Legal(run) && n < |run.events|
    ensures AgentInv(run.states[n]) && Good(run.states[n], React(run.states[n], run.events[n], run.luck[n]))
  {
    hide React, AgentInv, Disciplined;
    if n > 0 { RunsAreSafe(run, n - 1); }
    assert n > 0 ==> Follows(run.states[n - 1], run.events[n - 1], run.luck[n - 1], run.states[n]);
    assert Follows(run.states[n], run.events[n], run.luck[n], run.states[n + 1]);
    FailsExactlyWhen(run.states[n], run.events[n], run.luck[n]);
  }

  /** The run in which it fails: `exec`, a ticket number, and `exec` again while the function is
      being fetched. */
  lemma FailingRun(code: Key, ty: LockType, n: Ticket) returns (run: AgentRun)
    ensures Legal(run) && |run.states| == 3
    ensures React(run.states[2], Exec, LUCKY).None?
  {
    var a0 := New(code, false, false, ty);
    var a1 := a0.(state := BeginSent);
    var a2 := a1.(state := FunctionGetSent, ticket := Some(n), attempt := 1);
    run := AgentRun([a0, a1, a2], [Exec, GotTicket(n)], [LUCKY, LUCKY]);
    assert Follows(a0, Exec, LUCKY, a1);
    assert Follows(a1, GotTicket(n), LUCKY, a2);
  }

  // ---- What an agent asks for, and when ----

  predicate Returning(s: State) { s.RollbackSent? || s.RollbackFailed? }

  predicate Starting(s: State) { s.Init? || s.BeginSent? || s.BeginFailed? }

  predicate AsksLocks(acts: seq<Act>) { exists i :: 0 <= i < |acts| && (acts[i].AskLock? || acts[i].AskLocks?) }

  /** A commit has succeeded, and its updates are to be reported. */
  predicate Succeeded(a: Agent) { a.committed && a.result.Some? && a.result.value.Updates? }

  /** What is asked of the broker in one reaction: one thing, or locks and then a rollback. */
  predicate Shaped(acts: seq<Act>) {
    |acts| <= 1 || (|acts| == 2 && acts[0].AskLocks? && (acts[1].AskRollback? || acts[1].Report?))
  }

  /** How an agent steers its ticket. It asks for locks before it asks to commit, commits one
      update, rolls back until a rollback has succeeded, and finishes what is decided. */
  ghost predicate Steers(a: Agent, e: Event, r: Reaction) {
    && Shaped(r.acts)
    && (!e.GotTicket? ==> r.agent.ticket == a.ticket)
    && (Starting(r.agent.state) ==> Starting(a.state))
    && (AsksLocks(r.acts) ==>
          !Returning(a.state) && !a.state.CommitSent? && !Finishing(a.state)
          && !r.agent.state.CommitSent? && !Finishing(r.agent.state))
    && (AskRollback in r.acts ==> r.agent.state.RollbackSent?)
    && (AskFinish in r.acts ==> r.agent.state.FinishSent?)
    && (forall u :: AskCommit(u) in r.acts ==>
          && (a.state.FunctionStarted? || (a.state.CommitSent? && u == Payload(a)))
          && r.agent.state.CommitSent? && u == Payload(r.agent))
    && (Returning(a.state) ==> Returning(r.agent.state) || e.RollbackOk?)
    && (a.state.CommitSent? ==> Returning(r.agent.state) || (Finishing(r.agent.state) && e.CommitOk?)
                                || (r.agent.state.CommitSent? && Payload(r.agent) == Payload(a)))
    && (r.agent.state.CommitSent? ==> a.state.CommitSent? || a.state.FunctionStarted?)
    && (Finishing(r.agent.state) ==>
          Finishing(a.state) || (a.state.CommitSent? && e.CommitOk?)
          || (a.state.RollbackSent? && e.RollbackOk?))
    && (Finishing(a.state) ==> Finishing(r.agent.state) && AskRollback !in r.acts)
  }

  /** A rollback was asked for, or could not be. */
  predicate TurnsBack(a: Agent, r: Reaction) {
    && r.agent.ticket == a.ticket && |r.acts| == 1
    && if r.acts[0].AskRollback? then r.agent.state.RollbackSent?
         else r.acts[0].Report? && r.agent.state.RollbackFailed?
  }

  /** A new attempt was begun, or has failed at once. */
  predicate Launches(a: Agent, r: Reaction) {
    || TurnsBack(a, r)
    || (|r.acts| == 2 && r.acts[0].AskLocks? && TurnsBack(a, Reaction(r.agent, r.acts[1..])))
    || (r.agent.ticket == a.ticket && |r.acts| == 1
          && (r.acts[0].AskLock? || r.acts[0].AskLocks? || r.acts[0].StartRunner?)
        && (r.agent.state.FunctionGetSent? || r.agent.state.FunctionStarted?))
  }

  lemma FailTurnsBack(a: Agent, reached: bool)
    requires Passing(a.state) && DoResult(a, reached).Some?
    ensures TurnsBack(a, DoResult(a, reached).value)
  {
  }

  lemma RunnerLaunches(a: Agent, luck: Luck)
    requires a.state.FunctionStarted? && DoRunner(a, luck).Some?
    ensures Launches(a, DoRunner(a, luck).value)
  {
    hide DoResult;
    if !luck.runs {
      FailTurnsBack(a.(state := FunctionFailed, result := Some(Error(FunctionExecution))), luck.second);
    }
  }

  lemma FunctionLaunches(a: Agent, luck: Luck)
    requires GotFunction(a, luck).Some?
    ensures Launches(a, GotFunction(a, luck).value)
  {
    hide DoResult;
    if a.requested == map[] {
      RunnerLaunches(a.(state := FunctionStarted), luck);
    } else if !luck.first {
      FailTurnsBack(a.(requested := Among(a.requested, luck.taken + {luck.failing}), state := FunctionGetFailed,
                       result := Some(Error(FunctionRetrieval))), luck.second);
    }
  }

  lemma StartLaunches(a: Agent, luck: Luck)
    requires DoStart(a, luck).Some?
    ensures Launches(a, DoStart(a, luck).value)
  {
    hide DoResult, GotFunction;
    var b := a.(state := FunctionGetSent, attempt := a.attempt + 1, committed := false);
    if a.direct {
      FunctionLaunches(b, luck);
    } else if !luck.first {
      FailTurnsBack(b.(state := FunctionGetFailed, result := Some(Error(BrokerUnreachable))), luck.second);
    }
  }

  /** An agent that begins an attempt or turns back steers well, where it may. */
  lemma LaunchSteers(a0: Agent, a: Agent, e: Event, r: Reaction)
    requires Launches(a, r) && (e.GotTicket? || a.ticket == a0.ticket)
    requires !Returning(a0.state) && !a0.state.CommitSent? && !Finishing(a0.state)
    ensures Steers(a0, e, r)
  {
  }

  lemma TurnSteers(a0: Agent, a: Agent, e: Event, r: Reaction)
    requires TurnsBack(a, r) && a.ticket == a0.ticket && !Finishing(a0.state)
    ensures Steers(a0, e, r)
  {
  }

  lemma CommitSteers(a0: Agent, a: Agent, e: Event, luck: Luck)
    requires DoCommit(a, luck).Some? && a.ticket == a0.ticket
             && (a0.state.FunctionStarted? || (a0.state.CommitSent? && a0 == a))
    ensures Steers(a0, e, DoCommit(a, luck).value)
  {
    hide DoResult;
    if !luck.first {
      var b := a.(state := CommitFailed, result := Some(Error(BrokerUnreachable)));
      FailTurnsBack(b, luck.second);
      TurnSteers(a0, b, e, DoResult(b, luck.second).value);
    }
  }

  lemma ExecSteers(a: Agent, luck: Luck)
    requires AgentInv(a) && React(a, Exec, luck).Some?
    ensures Steers(a, Exec, React(a, Exec, luck).value)
  {
    assert !Passing(a.state);
    hide DoStart, DoCommit, DoRollback, DoFinish, AgentInv, Steers;
    match a.state
    case RollbackComplete =>
      var b := a.(result := None, wounded := false);
      StartLaunches(b, luck);
      LaunchSteers(a, b, Exec, DoStart(b, luck).value);
    case CommitSent => CommitSteers(a, a, Exec, luck);
    case FinishSent => FinishSteers(a, luck);
    case FinishFailed => FinishSteers(a, luck);
    case FinishComplete => IgnoreSteers(a, Exec);
    case RollbackFailed =>
      RollbackTurnsBack(a, a.permanentError, luck.first);
      TurnSteers(a, a, Exec, DoRollback(a, a.permanentError, luck.first).value);
    case RollbackSent =>
      RollbackTurnsBack(a, a.permanentError, luck.first);
      TurnSteers(a, a, Exec, DoRollback(a, a.permanentError, luck.first).value);
    case FunctionGetSent =>
      RollbackTurnsBack(a, false, luck.first);
      TurnSteers(a, a, Exec, DoRollback(a, false, luck.first).value);
    case FunctionStarted =>
      RollbackTurnsBack(a, false, luck.first);
      TurnSteers(a, a, Exec, DoRollback(a, false, luck.first).value);
    case _ => BeginSteers(a, luck);
  }

  lemma FinishSteers(a: Agent, luck: Luck)
    requires Finishing(a.state) && DoFinish(a, luck.first).Some?
    ensures Steers(a, Exec, DoFinish(a, luck.first).value)
  {
    hide Steers;
    EndSteers(a, Exec, DoFinish(a, luck.first).value);
  }

  lemma BeginSteers(a: Agent, luck: Luck)
    requires Starting(a.state) && DoExec(a, luck).Some?
    ensures Steers(a, Exec, DoExec(a, luck).value)
  {
  }

  lemma FetchSteers(a: Agent, e: Event, luck: Luck)
    requires AgentInv(a) && React(a, e, luck).Some?
    requires e.GotTicket? || e.NoTicket? || e.FunctionValue? || e.FunctionBrokerError? || e.FunctionShardError?
             || e.LocksReacquired?
    ensures Steers(a, e, React(a, e, luck).value)
  {
    hide DoStart, GotFunction, DoRunner, DoResult, AgentInv;
    var r := React(a, e, luck).value;
    if e.GotTicket? && a.state.BeginSent? {
      StartLaunches(a.(ticket := Some(e.number)), luck);
      LaunchSteers(a, a.(ticket := Some(e.number)), e, r);
    } else if e.NoTicket? && a.state.BeginSent? {
      var b := a.(state := BeginFailed, result := Some(Error(TicketNumberAssignment)));
      assert DoResult(b, luck.first) == Tell(b) by { BeginTold(b, luck.first); }
    } else if e.FunctionValue? && a.state.FunctionGetSent? {
      FunctionLaunches(a, luck);
      LaunchSteers(a, a, e, r);
    } else if e.LocksReacquired? && a.state.FunctionStarted? {
      RunnerLaunches(a, luck);
      LaunchSteers(a, a, e, r);
    } else if (e.FunctionBrokerError? || e.FunctionShardError?) && a.state.FunctionGetSent? {
      var b := a.(state := if e.FunctionBrokerError? || e.wounded then FunctionGetFailed else FunctionGetError,
                  result := Some(Error(FunctionRetrieval)));
      FailTurnsBack(b, luck.first);
      TurnSteers(a, b, e, r);
    }
  }

  lemma BeginTold(a: Agent, reached: bool)
    requires a.state.BeginFailed?
    ensures DoResult(a, reached) == Tell(a)
  {
  }

  lemma RunSteers(a: Agent, e: Event, luck: Luck)
    requires AgentInv(a) && React(a, e, luck).Some?
    requires e.LockWanted? || e.LockAnswered? || e.RunDone? || e.RunFailed?
    ensures Steers(a, e, React(a, e, luck).value)
  {
    hide DoCommit, DoResult, AgentInv;
    var r := React(a, e, luck).value;
    if e.RunDone? && a.state.FunctionStarted? {
      CommitSteers(a, a.(result := Some(Updates(e.updates))), e, luck);
    } else if e.RunFailed? && a.state.FunctionStarted? {
      var b := a.(state := if e.wounded then FunctionFailed else FunctionException,
        result := Some(Error(FunctionExecution)));
      FailTurnsBack(b, luck.first);
      TurnSteers(a, b, e, r);
    }
  }

  lemma IgnoreSteers(a: Agent, e: Event)
    ensures Steers(a, e, Reaction(a, []))
  {
  }

  /** Reporting in a final state, or asking to finish, from a state that allows it. */
  lemma EndSteers(a: Agent, e: Event, r: Reaction)
    requires r.agent.ticket == a.ticket && |r.acts| == 1 && (r.acts[0].Report? || r.acts[0].AskFinish?)
    requires Finishing(r.agent.state) && (r.acts[0].AskFinish? ==> r.agent.state.FinishSent?)
    requires Finishing(a.state) || (a.state.CommitSent? && e.CommitOk?) || (a.state.RollbackSent? && e.RollbackOk?)
    ensures Steers(a, e, r)
  {
  }

  lemma FinishReplySteers(a: Agent, e: Event, luck: Luck)
    requires React(a, e, luck).Some? && (e.FinishOk? || e.FinishError?)
    ensures Steers(a, e, React(a, e, luck).value)
  {
    hide Steers;
    if a.state.FinishSent? {
      EndSteers(a, e, React(a, e, luck).value);
    } else {
      IgnoreSteers(a, e);
    }
  }

  lemma RollbackReplySteers(a: Agent, e: Event, luck: Luck)
    requires React(a, e, luck).Some? && (e.RollbackOk? || e.RollbackError?)
    ensures Steers(a, e, React(a, e, luck).value)
  {
    var r := React(a, e, luck).value;
    if !a.state.RollbackSent? {
      IgnoreSteers(a, e);
    } else if e.RollbackError? {
      assert TurnsBack(a, r);
      TurnSteers(a, a, e, r);
    } else if a.permanentError {
      EndSteers(a, e, r);
    } else {
      assert r.agent.state.RollbackComplete? && |r.acts| == 1 && r.acts[0].Report? && r.agent.ticket == a.ticket;
    }
  }

  lemma RollbackTurnsBack(a: Agent, finish: bool, reached: bool)
    requires DoRollback(a, finish, reached).Some?
    ensures TurnsBack(a, DoRollback(a, finish, reached).value)
  {
  }

  lemma CommitReplySteers(a: Agent, e: Event, luck: Luck)
    requires AgentInv(a) && React(a, e, luck).Some? && (e.CommitOk? || e.CommitBrokerError? || e.CommitShardError?)
    ensures Steers(a, e, React(a, e, luck).value)
  {
    hide DoResult, AgentInv;
    var r := React(a, e, luck).value;
    if (e.CommitBrokerError? || e.CommitShardError?) && a.state.CommitSent? {
      var hard := if e.CommitBrokerError? then e.hazard else !e.wounded;
      var b := a.(state := if hard then CommitErrored else CommitFailed, result := Some(Error(CommitProblem)));
      FailTurnsBack(b, luck.first);
      TurnSteers(a, b, e, r);
    }
  }

  /** Whatever happens, the agent steers its ticket that way. */
  lemma AgentSteers(a: Agent, e: Event, luck: Luck)
    requires AgentInv(a) && React(a, e, luck).Some?
    ensures Steers(a, e, React(a, e, luck).value)
  {
    hide React, AgentInv, Steers;
    match e
    case Exec => ExecSteers(a, luck);
    case GotTicket(_) => FetchSteers(a, e, luck);
    case NoTicket => FetchSteers(a, e, luck);
    case FunctionValue => FetchSteers(a, e, luck);
    case FunctionBrokerError => FetchSteers(a, e, luck);
    case FunctionShardError(_) => FetchSteers(a, e, luck);
    case LocksReacquired => FetchSteers(a, e, luck);
    case LockWanted(_, _) => RunSteers(a, e, luck);
    case LockAnswered(_) => RunSteers(a, e, luck);
    case RunDone(_) => RunSteers(a, e, luck);
    case RunFailed(_) => RunSteers(a, e, luck);
    case CommitOk => CommitReplySteers(a, e, luck);
    case CommitBrokerError(_) => CommitReplySteers(a, e, luck);
    case CommitShardError(_) => CommitReplySteers(a, e, luck);
    case FinishOk => FinishReplySteers(a, e, luck);
    case FinishError => FinishReplySteers(a, e, luck);
    case RollbackOk => RollbackReplySteers(a, e, luck);
    case RollbackError => RollbackReplySteers(a, e, luck);
  }

  /** What an agent reports as committed is what it asked to commit. */
  ghost predicate Remembers(a: Agent, e: Event, r: Reaction) {
    && (Succeeded(r.agent) ==> Payload(r.agent) == Payload(a) && (Succeeded(a) || (a.state.CommitSent? && e.CommitOk?)))
    && (r.agent.committed ==> Finishing(r.agent.state) && (a.committed || (a.state.CommitSent? && e.CommitOk?)))
  }

  lemma AgentRemembers(a: Agent, e: Event, luck: Luck)
    requires AgentInv(a) && React(a, e, luck).Some?
    ensures Remembers(a, e, React(a, e, luck).value)
  {
    CommittedByReply(a, e, luck);
    hide DoStart, GotFunction, DoRunner, DoCommit, Disciplined, AgentInv, Finishing;
  }

  lemma CommittedByReply(a: Agent, e: Event, luck: Luck)
    requires AgentInv(a) && React(a, e, luck).Some?
    ensures var r := React(a, e, luck).value.agent;
            r.committed ==> Finishing(r.state) && (a.committed || (a.state.CommitSent? && e.CommitOk?))
  {
    hide DoStart, GotFunction, DoRunner, DoCommit, Disciplined;
    var r := React(a, e, luck).value;
    FailsExactlyWhen(a, e, luck);
    AgentSteers(a, e, luck);
    if r.agent.committed {
      assert Finishing(r.agent.state) && !Starting(r.agent.state);
    }
  }

  /** The agent takes the ticket number it waits for. */
  lemma AgentBegins(a: Agent, n: Ticket, luck: Luck)
    requires a.state.BeginSent? && React(a, GotTicket(n), luck).Some?
    ensures var r := React(a, GotTicket(n), luck).value.agent; r.ticket == Some(n) && !Starting(r.state)
  {
    StartLaunches(a.(ticket := Some(n)), luck);
    hide DoStart;
  }

  /** A commit is first asked for when the function has run to its end. */
  lemma AgentCommits(a: Agent, e: Event, luck: Luck)
    requires AgentInv(a) && React(a, e, luck).Some?
    ensures React(a, e, luck).value.agent.state.CommitSent? && !a.state.CommitSent? ==> e.RunDone?
  {
    AgentSteers(a, e, luck);
    if a.state.FunctionStarted? && !e.RunDone? {
      if e.LocksReacquired? { RunnerLaunches(a, luck); }
    }
    hide DoStart, GotFunction, DoCommit, DoRunner;
  }
}
