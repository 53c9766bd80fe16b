/**
 * The service object itself: each method is what submit, cancel_run, resume, _execute_run or
 * _recover_stale_runs (backend/services/agent_runtime_service.py) does between two awaits, on
 * the fields they share. Every one is the step of the same name of RunLifecycle, and the event
 * loop that runs them in any order reaches exactly the states of the machine.
 */
module AgentRuntime {
  import opened Wrappers
  import opened RunLifecycle

  datatype Verdict = Accepted | AgentRunNotFound | PermissionDenied | WrongStatus

  /** The checks at the head of cancel_run and resume, in their order. */
  function Check(rows: map<RunId, Row>, r: RunId, user: UserId, allowed: set<Status>): (v: Verdict)
    ensures v == Accepted <==> r in rows && rows[r].owner == Some(user) && rows[r].status in allowed
    ensures v == AgentRunNotFound <==> r !in rows
    ensures v == PermissionDenied <==> r in rows && rows[r].owner != Some(user)
  {
    if r !in rows then AgentRunNotFound
    else if rows[r].owner != Some(user) then PermissionDenied
    else if rows[r].status !in allowed then WrongStatus
    else Accepted
  }

  /** The keys of PIPELINE_REGISTRY. */
  const PIPELINES := {"intelligence", "autonomous"}

  class AgentRuntimeService {
    var rows: map<RunId, Row>
    var cancellationTokens: map<RunId, bool>
    var runTasks: map<RunId, TaskId>
    var tasks: map<TaskId, Task>
    var calls: map<CallId, Call>

    constructor ()
      ensures Now() == INIT
    {
      rows, cancellationTokens, runTasks, tasks, calls := map[], map[], map[], map[], map[];
    }

    function Now(): State
      reads this
    {
      State(rows, cancellationTokens, runTasks, tasks, calls)
    }

    /** `submit` up to its commit; an unknown agent type is refused. */
    method Submit(c: CallId, r: RunId, agentType: string, owner: Option<UserId>) returns (accepted: bool)
      requires WellFormed(Now()) && c !in calls && r !in rows
      modifies this
      ensures accepted <==> agentType == "intelligence" || agentType == "autonomous"
      ensures Now() == if accepted then Next(old(Now()), RunLifecycle.Submit(c, r, owner)) else old(Now())
    {
      accepted := agentType in PIPELINES;
      if accepted {
        rows := rows[r := Row(Running, owner)];
        calls := calls[c := Dispatching(r)];
      }
    }

    /** `asyncio.create_task` and the entry in the task table, with no await in between. */
    method Dispatch(c: CallId, t: TaskId)
      requires WellFormed(Now()) && Enabled(Now(), RunLifecycle.Dispatch(c, t))
      modifies this
      ensures Now() == Next(old(Now()), RunLifecycle.Dispatch(c, t))
    {
      var r := calls[c].run;
      tasks := tasks[t := Task(r, Created)];
      runTasks := runTasks[r := t];
      calls := calls - {c};
    }

    method CancelBegin(c: CallId, r: RunId, user: UserId) returns (v: Verdict)
      requires WellFormed(Now()) && c !in calls
      modifies this
      ensures v == Check(old(rows), r, user, {Running, Cancelling})
      ensures v == Accepted ==>
                Enabled(old(Now()), CancelCheck(c, r, user)) && Now() == Next(old(Now()), CancelCheck(c, r, user))
      ensures v != Accepted ==> Now() == old(Now())
    {
      v := Check(rows, r, user, {Running, Cancelling});
      if v == Accepted {
        calls := calls[c := CancelChecked(r)];
      }
    }

    method CancelMark(c: CallId)
      requires WellFormed(Now()) && Enabled(Now(), RunLifecycle.CancelMark(c))
      modifies this
      ensures Now() == Next(old(Now()), RunLifecycle.CancelMark(c))
    {
      var r := calls[c].run;
      rows := rows[r := rows[r].(status := Cancelling)];
      calls := calls[c := CancelMarked(r)];
    }

    /** Set the flag and look the task up; what the wait is for is decided here. */
    method CancelSignal(c: CallId)
      requires WellFormed(Now()) && Enabled(Now(), RunLifecycle.CancelSignal(c))
      modifies this
      ensures Now() == Next(old(Now()), RunLifecycle.CancelSignal(c))
    {
      var r := calls[c].run;
      var task := if r in runTasks then Some(runTasks[r]) else None;
      cancellationTokens := cancellationTokens[r := true];
      calls := calls[c := CancelWaiting(r, task, TasksOf(Now(), r))];
    }

    method CancelReturn(c: CallId)
      requires WellFormed(Now()) && Enabled(Now(), RunLifecycle.CancelReturn(c))
      modifies this
      ensures Now() == Next(old(Now()), RunLifecycle.CancelReturn(c))
    {
      var r := calls[c].run;
      rows := rows[r := rows[r].(status := Cancelled)];
      calls := calls - {c};
    }

    method ResumeBegin(c: CallId, r: RunId, user: UserId) returns (v: Verdict)
      requires WellFormed(Now()) && c !in calls
      modifies this
      ensures v == Check(old(rows), r, user, {Interrupted})
      ensures v == Accepted ==>
                Enabled(old(Now()), ResumeCheck(c, r, user)) && Now() == Next(old(Now()), ResumeCheck(c, r, user))
      ensures v != Accepted ==> Now() == old(Now())
    {
      v := Check(rows, r, user, {Interrupted});
      if v == Accepted {
        calls := calls[c := ResumeChecked(r)];
      }
    }

    method ResumeClaim(c: CallId)
      requires WellFormed(Now()) && Enabled(Now(), RunLifecycle.ResumeClaim(c))
      modifies this
      ensures Now() == Next(old(Now()), RunLifecycle.ResumeClaim(c))
    {
      var r := calls[c].run;
      rows := rows[r := rows[r].(status := Running)];
      calls := calls[c := Dispatching(r)];
    }

    /** The first step of `_execute_run` resets the flag. */
    method ExecuteStart(t: TaskId)
      requires WellFormed(Now()) && Enabled(Now(), TaskStart(t))
      modifies this
      ensures Now() == Next(old(Now()), TaskStart(t))
    {
      cancellationTokens := cancellationTokens[tasks[t].run := false];
      tasks := tasks[t := tasks[t].(pc := Executing)];
    }

    /** `_finalize_completed`, `_finalize_failed`, `_finalize_cancelled`: the row write. */
    method Finalize(t: TaskId)
      requires WellFormed(Now()) && Enabled(Now(), TaskWrite(t))
      modifies this
      ensures Now() == Next(old(Now()), TaskWrite(t))
    {
      var r, pc := tasks[t].run, tasks[t].pc;
      rows := rows[r := rows[r].(status := pc.status)];
      tasks := tasks[t := tasks[t].(pc := Written(pc.handler))];
    }

    /** The `finally` block of `_execute_run`. */
    method ExecuteFinally(t: TaskId)
      requires WellFormed(Now()) && Enabled(Now(), TaskLeave(t))
      modifies this
      ensures Now() == Next(old(Now()), TaskLeave(t))
    {
      var r := tasks[t].run;
      cancellationTokens := cancellationTokens - {r};
      runTasks := runTasks - {r};
      tasks := tasks[t := tasks[t].(pc := Closing)];
    }

    /** The executor hands a result to `_execute_run`. */
    method ReceiveResult(t: TaskId, result: Status)
      requires WellFormed(Now()) && Enabled(Now(), TaskResult(t, result))
      modifies this
      ensures Now() == Next(old(Now()), TaskResult(t, result))
    {
      tasks := tasks[t := tasks[t].(pc := Writing(result, false))];
    }

    /** An `except` branch of `_execute_run` is entered. */
    method CatchException(t: TaskId, timeout: bool)
      requires WellFormed(Now()) && Enabled(Now(), TaskRaise(t, timeout))
      modifies this
      ensures Now() == Next(old(Now()), TaskRaise(t, timeout))
    {
      tasks := tasks[t := tasks[t].(pc := Writing(if timeout then Timeout else Failed, true))];
    }

    /** `session.close()` has returned and the task is over. */
    method FinishTask(t: TaskId)
      requires WellFormed(Now()) && Enabled(Now(), TaskEnd(t))
      modifies this
      ensures Now() == Next(old(Now()), TaskEnd(t))
    {
      tasks := tasks[t := tasks[t].(pc := Ended)];
    }

    /** A task is cancelled before its first step: no line of `_execute_run` runs, the `finally` block neither. */
    method KillUnstarted(t: TaskId)
      requires WellFormed(Now()) && Enabled(Now(), TaskKill(t))
      modifies this
      ensures Now() == Next(old(Now()), TaskKill(t))
    {
      tasks := tasks[t := tasks[t].(pc := Killed)];
    }

    /** The query of `_recover_stale_runs`. */
    method RecoverBegin(c: CallId, stale: set<RunId>)
      requires WellFormed(Now()) && Enabled(Now(), ScanQuery(c, stale))
      modifies this
      ensures Now() == Next(old(Now()), ScanQuery(c, stale))
    {
      calls := calls[c := Scanning(stale)];
    }

    /** The write of `_recover_stale_runs` to one row of its list, whatever the row has become. */
    method RecoverRow(c: CallId, r: RunId, found: bool)
      requires WellFormed(Now()) && Enabled(Now(), ScanWrite(c, r, found))
      modifies this
      ensures Now() == Next(old(Now()), ScanWrite(c, r, found))
    {
      assert CallWellFormed(Now(), calls[c]);
      rows := rows[r := rows[r].(status := if found then Interrupted else Failed)];
      calls := calls[c := Scanning(calls[c].runs - {r})];
    }

    /** A request breaks off at an await, or ends. */
    method EndCall(c: CallId)
      requires WellFormed(Now()) && Enabled(Now(), Abandon(c))
      modifies this
      ensures Now() == Next(old(Now()), Abandon(c))
    {
      calls := calls - {c};
    }

    /** The event loop resumes one coroutine, up to its next await. */
    method Advance(step: Step)
      requires WellFormed(Now()) && Enabled(Now(), step)
      modifies this
      ensures Now() == Next(old(Now()), step)
    {
      match step {
        case Submit(c, r, owner) => var _ := Submit(c, r, "intelligence", owner);
        case Dispatch(c, t) => Dispatch(c, t);
        case ResumeCheck(c, r, user) => var _ := ResumeBegin(c, r, user);
        case ResumeClaim(c) => ResumeClaim(c);
        case CancelCheck(c, r, user) => var _ := CancelBegin(c, r, user);
        case CancelMark(c) => CancelMark(c);
        case CancelSignal(c) => CancelSignal(c);
        case CancelReturn(c) => CancelReturn(c);
        case ScanQuery(c, stale) => RecoverBegin(c, stale);
        case ScanWrite(c, r, found) => RecoverRow(c, r, found);
        case Abandon(c) => EndCall(c);
        case TaskStart(t) => ExecuteStart(t);
        case TaskResult(t, result) => ReceiveResult(t, result);
        case TaskRaise(t, timeout) => CatchException(t, timeout);
        case TaskWrite(t) => Finalize(t);
        case TaskLeave(t) => ExecuteFinally(t);
        case TaskEnd(t) => FinishTask(t);
        case TaskKill(t) => KillUnstarted(t);
      }
    }

    /** The event loop itself: any interleaving of the methods is a run of the machine, so what RunLifecycle proves of
        `After` holds of the service's fields. */
    method RunEventLoop(steps: seq<Step>)
      requires WellFormed(Now()) && Possible(Now(), steps)
      modifies this
      ensures Now() == After(old(Now()), steps)
    {
      ghost var start := Now();
      for i := 0 to |steps|
        invariant WellFormed(Now()) && Possible(Now(), steps[i..])
        invariant After(Now(), steps[i..]) == After(start, steps)
      {
        assert steps[i..][0] == steps[i] && steps[i..][1..] == steps[i + 1..];
        NextIsWellFormed(Now(), steps[i]);
        Advance(steps[i]);
      }
    }
  }
}
