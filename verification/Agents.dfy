/** The agent as the object of src/parsec/agent/impl.cpp, whose handlers update its fields and
    call one another. Every handler makes the reaction that `AgentSpec` describes, and the
    assertions of the source hold where it makes them. */
module Agents {
  import opened Basics
  import opened LockTable
  import opened AgentSpec

  /** Asks for the locks of `keys` again, one by one. */
  method TakeAgain(locks: map<Key, LockType>, keys: set<Key>) returns (asked: map<Key, LockType>)
    ensures asked == Among(locks, keys)
  {
    asked := map[];
    var todo := locks.Keys * keys;
    while todo != {}
      invariant todo <= locks.Keys * keys && asked == Among(locks, keys - todo)
      decreases |todo|
    {
      var k :| k in todo;
      asked := asked[k := locks[k]];
      todo := todo - {k};
    }
    assert keys - {} == keys;
  }

  class AgentProcess {
    var state: State
    var result: Option<Result>
    var ticket: Option<Ticket>
    var permanentError: bool
    var wounded: bool
    var requested: map<Key, LockType>
    const code: Key
    const direct: bool
    const readonly: bool
    const lockType: LockType
    ghost var attempt: nat
    ghost var committed: bool

    ghost function Abs(): Agent
      reads this
    {
      Agent(state, result, ticket, permanentError, wounded, requested, code, direct, readonly, lockType, attempt,
        committed)
    }

    constructor (code: Key, direct: bool, readonly: bool, lockType: LockType)
      ensures Abs() == New(code, direct, readonly, lockType) && AgentInv(Abs())
    {
      state, result, ticket, permanentError, wounded, requested := Init, None, None, false, false, map[];
      this.code, this.direct, this.readonly := code, direct, readonly;
      this.lockType := if readonly then Read else lockType;
      attempt, committed := 0, false;
    }

    /** `acts` and the new state are the reaction `r`. */
    ghost predicate Reacts(r: Option<Reaction>, acts: seq<Act>)
      reads this
    {
      r == Some(Reaction(Abs(), acts))
    }

    method DoRollback(finish: bool, reached: bool) returns (acts: seq<Act>)
      requires AgentSpec.DoRollback(Abs(), finish, reached).Some?
      modifies this
      ensures Reacts(AgentSpec.DoRollback(old(Abs()), finish, reached), acts)
    {
      assert MayRollback(state) && ticket.Some?;
      state := RollbackSent;
      permanentError := finish;
      if reached {
        return [AskRollback];
      }
      state := RollbackFailed;
      result := Some(Error(BrokerUnreachable));
      acts := [Report(result.value)];
    }

    method DoResult(reached: bool) returns (acts: seq<Act>)
      requires AgentSpec.DoResult(Abs(), reached).Some?
      modifies this
      ensures Reacts(AgentSpec.DoResult(old(Abs()), reached), acts)
    {
      assert result.Some?;
      if state.FunctionGetFailed? || state.FunctionFailed? || state.CommitFailed? {
        acts := DoRollback(false, reached);
      } else if state.FunctionGetError? || state.CommitErrored? || state.FunctionException? {
        acts := DoRollback(true, reached);
      } else {
        // Any other state than these is a fatal error of the source.
        assert state.BeginFailed? || state.FinishFailed? || state.RollbackFailed? || state.FinishComplete?
            || (state.RollbackComplete? && result == Some(Error(Retry)));
        acts := [Report(result.value)];
      }
    }

    method DoFinish(reached: bool) returns (acts: seq<Act>)
      requires AgentSpec.DoFinish(Abs(), reached).Some?
      modifies this
      ensures Reacts(AgentSpec.DoFinish(old(Abs()), reached), acts)
    {
      assert (state.CommitSent? || state.FinishFailed? || state.FinishSent? || state.RollbackComplete?) && ticket.Some?;
      state := FinishSent;
      if reached {
        return [AskFinish];
      }
      state := FinishFailed;
      result := Some(Error(BrokerUnreachable));
      acts := DoResult(reached);
    }

    method DoCommit(luck: Luck) returns (acts: seq<Act>)
      requires AgentSpec.DoCommit(Abs(), luck).Some?
      modifies this
      ensures Reacts(AgentSpec.DoCommit(old(Abs()), luck), acts)
    {
      assert state.FunctionStarted? || state.CommitFailed? || state.CommitSent?;
      assert ticket.Some? && result.Some? && result.value.Updates?;
      state := CommitSent;
      var payload := map[];
      if !readonly {
        payload := result.value.updates;
      }
      if luck.first {
        return [AskCommit(payload)];
      }
      state := CommitFailed;
      result := Some(Error(BrokerUnreachable));
      acts := DoResult(luck.second);
    }

    method DoRunner(luck: Luck) returns (acts: seq<Act>)
      requires AgentSpec.DoRunner(Abs(), luck).Some?
      modifies this
      ensures Reacts(AgentSpec.DoRunner(old(Abs()), luck), acts)
    {
      if luck.runs {
        return [StartRunner];
      }
      state := FunctionFailed;
      result := Some(Error(FunctionExecution));
      acts := DoResult(luck.second);
    }

    /** The function's value has arrived: earlier locks are taken again first. */
    method StartFunction(luck: Luck) returns (acts: seq<Act>)
      requires AgentSpec.GotFunction(Abs(), luck).Some?
      modifies this
      ensures Reacts(AgentSpec.GotFunction(old(Abs()), luck), acts)
    {
      state := FunctionStarted;
      if requested == map[] {
        acts := DoRunner(luck);
        return;
      }
      if luck.first {
        return [AskLocks(requested)];
      }
      var asked := TakeAgain(requested, luck.taken - {luck.failing});
      requested := TakeAgain(requested, luck.taken + {luck.failing});
      state := FunctionGetFailed;
      result := Some(Error(FunctionRetrieval));
      acts := DoResult(luck.second);
      acts := [AskLocks(asked)] + acts;
    }

    method DoStart(luck: Luck) returns (acts: seq<Act>)
      requires AgentSpec.DoStart(Abs(), luck).Some?
      modifies this
      ensures Reacts(AgentSpec.DoStart(old(Abs()), luck), acts)
    {
      assert ticket.Some? && (state.BeginSent? || state.RollbackComplete?);
      state := FunctionGetSent;
      attempt, committed := attempt + 1, false;
      if direct {
        acts := StartFunction(luck);
      } else if luck.first {
        acts := [AskLock(code, lockType)];
      } else {
        state := FunctionGetFailed;
        result := Some(Error(BrokerUnreachable));
        acts := DoResult(luck.second);
      }
    }

    /** Starts or restarts, wherever the agent is; not while the function is being fetched. */
    method Exec(luck: Luck) returns (acts: seq<Act>)
      requires AgentInv(Abs()) && !state.FunctionGetSent?
      modifies this
      ensures Reacts(React(old(Abs()), AgentSpec.Exec, luck), acts) && AgentInv(Abs())
    {
      FailsExactlyWhen(Abs(), AgentSpec.Exec, luck);
      hide AgentInv, Disciplined, AgentSpec.DoStart, AgentSpec.DoCommit, AgentSpec.DoRollback, AgentSpec.DoFinish,
        AgentSpec.DoResult;
      if state.RollbackComplete? {
        result := None;
        wounded := false;
        acts := DoStart(luck);
      } else if state.CommitFailed? || state.CommitSent? {
        acts := DoCommit(luck);
      } else if state.RollbackFailed? || state.RollbackSent? {
        acts := DoRollback(permanentError, luck.first);
      } else if state.FunctionGetFailed? || state.FunctionFailed? || state.FunctionStarted? {
        acts := DoRollback(false, luck.first);
      } else if state.FinishSent? || state.FinishFailed? {
        acts := DoFinish(luck.first);
      } else if state.FunctionGetError? || state.CommitErrored? || state.FunctionException? || state.FinishComplete? {
        acts := [];
      } else {
        acts := DoBegin(luck);
      }
    }

    method DoBegin(luck: Luck) returns (acts: seq<Act>)
      requires (state.Init? || state.BeginSent? || state.BeginFailed?) && DoExec(Abs(), luck).Some?
      modifies this
      ensures Reacts(DoExec(old(Abs()), luck), acts)
    {
      if luck.first {
        result := None;
        state := BeginSent;
        acts := [AskBegin];
      } else {
        state := BeginFailed;
        result := Some(Error(BrokerUnreachable));
        acts := DoResult(luck.second);
      }
    }

    method HandleBegin(number: Option<Ticket>, luck: Luck) returns (acts: seq<Act>)
      requires AgentInv(Abs())
      modifies this
      ensures Reacts(React(old(Abs()), if number.Some? then GotTicket(number.value) else NoTicket, luck), acts)
              && AgentInv(Abs())
    {
      FailsExactlyWhen(Abs(), if number.Some? then GotTicket(number.value) else NoTicket, luck);
      hide AgentInv, Disciplined, AgentSpec.DoStart, AgentSpec.DoResult;
      if !state.BeginSent? {
        return [];
      }
      if number.Some? {
        ticket := number;
        acts := DoStart(luck);
      } else {
        state := BeginFailed;
        result := Some(Error(TicketNumberAssignment));
        acts := DoResult(luck.first);
      }
    }

    /** The reply to the request for the function: an event of one of three kinds. */
    method HandleFunction(e: Event, luck: Luck) returns (acts: seq<Act>)
      requires AgentInv(Abs()) && (e.FunctionValue? || e.FunctionBrokerError? || e.FunctionShardError?)
      modifies this
      ensures Reacts(React(old(Abs()), e, luck), acts) && AgentInv(Abs())
    {
      FailsExactlyWhen(Abs(), e, luck);
      hide AgentInv, Disciplined, AgentSpec.GotFunction, AgentSpec.DoResult;
      if !state.FunctionGetSent? {
        return [];
      }
      if e.FunctionValue? {
        acts := StartFunction(luck);
        return;
      }
      state := if e.FunctionBrokerError? || e.wounded then FunctionGetFailed else FunctionGetError;
      result := Some(Error(FunctionRetrieval));
      acts := DoResult(luck.first);
    }

    /** A lock that the runner asks for. `accepted` is what the runner gets at once: no request is
        made, and none will be answered, in another state or for a write in a read-only run. */
    method DoTryLockRequest(k: Key, ty: LockType) returns (accepted: bool, acts: seq<Act>)
      requires AgentInv(Abs())
      modifies this
      ensures Reacts(React(old(Abs()), LockWanted(k, ty), LUCKY), acts) && AgentInv(Abs())
      ensures accepted <==> acts != []
      ensures accepted && old(wounded) ==> acts == [TellRunner(true)] && Abs() == old(Abs())
    {
      if !state.FunctionStarted? || (readonly && ty.Write?) {
        return false, [];
      }
      if wounded {
        acts := HandleTryLockResponse(true);
        return true, acts;
      }
      if k !in requested || requested[k].Read? {
        requested := requested[k := ty];
      }
      return true, [AskLock(k, if readonly then Read else ty)];
    }

    /** The answer to a lock of the runner is passed on to it, unless the run is over. */
    method HandleTryLockResponse(isWounded: bool) returns (acts: seq<Act>)
      requires AgentInv(Abs())
      modifies this
      ensures Reacts(React(old(Abs()), LockAnswered(isWounded), LUCKY), acts) && AgentInv(Abs())
    {
      if !state.FunctionStarted? {
        return [];
      }
      if isWounded {
        wounded := true;
      }
      acts := [TellRunner(isWounded)];
    }

    method HandleRun(e: Event, luck: Luck) returns (acts: seq<Act>)
      requires AgentInv(Abs()) && (e.RunDone? || e.RunFailed?)
      modifies this
      ensures Reacts(React(old(Abs()), e, luck), acts) && AgentInv(Abs())
    {
      FailsExactlyWhen(Abs(), e, luck);
      hide AgentInv, Disciplined, AgentSpec.DoCommit, AgentSpec.DoResult;
      if !state.FunctionStarted? {
        return [];
      }
      if e.RunDone? {
        result := Some(Updates(e.updates));
        acts := DoCommit(luck);
      } else {
        state := if e.wounded then FunctionFailed else FunctionException;
        result := Some(Error(FunctionExecution));
        acts := DoResult(luck.first);
      }
    }

    method HandleCommit(e: Event, luck: Luck) returns (acts: seq<Act>)
      requires AgentInv(Abs()) && (e.CommitOk? || e.CommitBrokerError? || e.CommitShardError?)
      modifies this
      ensures Reacts(React(old(Abs()), e, luck), acts) && AgentInv(Abs())
    {
      hide React, AgentInv, Disciplined, AgentSpec.DoFinish, Fail;
      FailsExactlyWhen(Abs(), e, luck);
      CommitReaction(Abs(), e, luck);
      if !state.CommitSent? {
        return [];
      }
      if e.CommitOk? {
        committed := true;
        acts := DoFinish(luck.first);
        return;
      }
      if e.CommitBrokerError? {
        acts := FailCommit(if e.hazard then CommitErrored else CommitFailed, luck);
      } else {
        acts := FailCommit(if e.wounded then CommitFailed else CommitErrored, luck);
      }
    }

    method FailCommit(s: State, luck: Luck) returns (acts: seq<Act>)
      requires Fail(Abs(), s, CommitProblem, luck).Some?
      modifies this
      ensures Reacts(Fail(old(Abs()), s, CommitProblem, luck), acts)
    {
      hide AgentSpec.DoResult;
      state := s;
      result := Some(Error(CommitProblem));
      acts := DoResult(luck.first);
    }

    method HandleFinish(ok: bool, luck: Luck) returns (acts: seq<Act>)
      requires AgentInv(Abs())
      modifies this
      ensures Reacts(React(old(Abs()), if ok then FinishOk else FinishError, luck), acts) && AgentInv(Abs())
    {
      FailsExactlyWhen(Abs(), if ok then FinishOk else FinishError, luck);
      hide AgentInv, Disciplined, AgentSpec.DoResult;
      if !state.FinishSent? {
        return [];
      }
      if ok {
        state := FinishComplete;
      } else {
        state := FinishFailed;
        result := Some(Error(FinishProblem));
      }
      acts := DoResult(luck.first);
    }

    method HandleRollback(ok: bool, luck: Luck) returns (acts: seq<Act>)
      requires AgentInv(Abs())
      modifies this
      ensures Reacts(React(old(Abs()), if ok then RollbackOk else RollbackError, luck), acts) && AgentInv(Abs())
    {
      FailsExactlyWhen(Abs(), if ok then RollbackOk else RollbackError, luck);
      hide AgentInv, Disciplined, AgentSpec.DoFinish, AgentSpec.DoResult;
      if !state.RollbackSent? {
        return [];
      }
      if !ok {
        state := RollbackFailed;
        result := Some(Error(RollbackProblem));
        acts := DoResult(luck.first);
        return;
      }
      state := RollbackComplete;
      if permanentError {
        acts := DoFinish(luck.first);
      } else {
        result := Some(Error(Retry));
        acts := DoResult(luck.first);
      }
    }
  }

  /** The reaction to a commit reply, case by case. */
  lemma CommitReaction(a: Agent, e: Event, luck: Luck)
    requires e.CommitOk? || e.CommitBrokerError? || e.CommitShardError?
    ensures var failed := if e.CommitBrokerError? then !e.hazard else e.CommitShardError? && e.wounded;
            React(a, e, luck) ==
            if !a.state.CommitSent? then Ignore(a)
            else if e.CommitOk? then AgentSpec.DoFinish(a.(committed := true), luck.first)
            else Fail(a, if failed then CommitFailed else CommitErrored, CommitProblem, luck)
  {
    hide AgentSpec.DoFinish, AgentSpec.DoResult;
  }
}
