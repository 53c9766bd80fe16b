/**
 * The life of agent runs on one AgentRuntimeService instance
 * (backend/services/agent_runtime_service.py: submit, _execute_run, cancel_run, resume,
 * _recover_stale_runs), as a state machine. A step is what one coroutine does between two
 * awaits; any coroutine may take the next step. Row updates are atomic.
 */
module RunLifecycle {
  import opened Wrappers

  type RunId = nat
  type TaskId = nat
  type CallId = nat
  type UserId = nat

  datatype Status = Running | Cancelling | Cancelled | Completed | Failed | Timeout | Interrupted

  datatype Row = Row(status: Status, owner: Option<UserId>)

  /** Where a background task stands. `handler` is true inside an `except` branch, from
      which no further one is entered. */
  datatype Pc =
    | Created                                   // create_task done, first step not taken
    | Executing                                 // awaiting the executor
    | Writing(status: Status, handler: bool)    // about to finalize the row
    | Written(handler: bool)                    // row finalized, still inside the `try`
    | Closing                                   // tables popped, session being closed
    | Ended
    | Killed                                    // cancelled before its first step

  datatype Task = Task(run: RunId, pc: Pc)

  /** A request being served, at one of its awaits. */
  datatype Call =
    | Dispatching(run: RunId)                   // submit or resume: row is running, task not yet created
    | ResumeChecked(run: RunId)                 // resume found the row interrupted
    | CancelChecked(run: RunId)                 // cancel found the row running or cancelling
    | CancelMarked(run: RunId)                  // cancel wrote `cancelling`
    | CancelWaiting(run: RunId, task: Option<TaskId>, seen: set<TaskId>)  // flag set, task table read
    | Scanning(runs: set<RunId>)                // recovery holds these rows from its query

  datatype State = State(
    rows: map<RunId, Row>,
    tokens: map<RunId, bool>,                   // _cancellation_tokens
    table: map<RunId, TaskId>,                  // _run_tasks
    tasks: map<TaskId, Task>,
    calls: map<CallId, Call>)

  const INIT := State(map[], map[], map[], map[], map[])

  datatype Step =
    | Submit(c: CallId, r: RunId, owner: Option<UserId>)
    | Dispatch(c: CallId, t: TaskId)
    | ResumeCheck(c: CallId, r: RunId, user: UserId)
    | ResumeClaim(c: CallId)
    | CancelCheck(c: CallId, r: RunId, user: UserId)
    | CancelMark(c: CallId)
    | CancelSignal(c: CallId)
    | CancelReturn(c: CallId)
    | ScanQuery(c: CallId, runs: set<RunId>)
    | ScanWrite(c: CallId, r: RunId, found: bool)
    | Abandon(c: CallId)                        // the request fails at an await
    | TaskStart(t: TaskId)
    | TaskResult(t: TaskId, result: Status)
    | TaskRaise(t: TaskId, timeout: bool)
    | TaskWrite(t: TaskId)
    | TaskLeave(t: TaskId)                      // the `finally` block, however it is reached
    | TaskEnd(t: TaskId)
    | TaskKill(t: TaskId)

  function SetStatus(s: State, r: RunId, status: Status): State
    requires r in s.rows
  {
    s.(rows := s.rows[r := s.rows[r].(status := status)])
  }

  function SetPc(s: State, t: TaskId, pc: Pc): State
    requires t in s.tasks
  {
    s.(tasks := s.tasks[t := s.tasks[t].(pc := pc)])
  }

  function TasksOf(s: State, r: RunId): set<TaskId> {
    set t | t in s.tasks && s.tasks[t].run == r
  }

  /** Every id a state holds names something in it. */
  ghost predicate WellFormed(s: State) {
    && (forall t :: t in s.tasks ==> s.tasks[t].run in s.rows)
    && (forall r :: r in s.table ==> s.table[r] in s.tasks && s.tasks[s.table[r]].run == r)
    && (forall c :: c in s.calls ==> CallWellFormed(s, s.calls[c]))
    && (forall t :: t in s.tasks && s.tasks[t].pc.Writing? && s.tasks[t].pc.handler ==>
          s.tasks[t].pc.status in {Failed, Timeout})
  }

  ghost predicate CallWellFormed(s: State, call: Call) {
    match call
    case Scanning(runs) => runs <= s.rows.Keys
    case CancelWaiting(run, task, seen) =>
      && run in s.rows && seen <= s.tasks.Keys
      && (forall t :: t in seen ==> s.tasks[t].run == run)
      && (task.Some? ==> task.value in seen)
    case _ => call.run in s.rows
  }

  ghost predicate Enabled(s: State, step: Step) {
    match step
    case Submit(c, r, _) => c !in s.calls && r !in s.rows
    case Dispatch(c, t) => c in s.calls && s.calls[c].Dispatching? && t !in s.tasks
    case ResumeCheck(c, r, user) =>
      c !in s.calls && r in s.rows && s.rows[r].owner == Some(user) && s.rows[r].status == Interrupted
    case ResumeClaim(c) => c in s.calls && s.calls[c].ResumeChecked?
    case CancelCheck(c, r, user) =>
      c !in s.calls && r in s.rows && s.rows[r].owner == Some(user) && s.rows[r].status in {Running, Cancelling}
    case CancelMark(c) => c in s.calls && s.calls[c].CancelChecked?
    case CancelSignal(c) => c in s.calls && s.calls[c].CancelMarked?
    case CancelReturn(c) =>
      c in s.calls && s.calls[c].CancelWaiting?
      && (s.calls[c].task.Some? ==>
            s.calls[c].task.value in s.tasks && s.tasks[s.calls[c].task.value].pc in {Ended, Killed})
    case ScanQuery(c, runs) =>
      c !in s.calls && forall r :: r in runs ==> r in s.rows && s.rows[r].status in {Running, Cancelling}
    case ScanWrite(c, r, _) => c in s.calls && s.calls[c].Scanning? && r in s.calls[c].runs
    case Abandon(c) => c in s.calls
    case TaskStart(t) => t in s.tasks && s.tasks[t].pc == Created
    case TaskResult(t, result) => t in s.tasks && s.tasks[t].pc == Executing && result in {Completed, Failed, Cancelled}
    case TaskRaise(t, _) =>
      t in s.tasks && (s.tasks[t].pc == Executing || s.tasks[t].pc == Written(false)
                       || (s.tasks[t].pc.Writing? && !s.tasks[t].pc.handler))
    case TaskWrite(t) => t in s.tasks && s.tasks[t].pc.Writing?
    case TaskLeave(t) =>
      t in s.tasks && (s.tasks[t].pc == Executing || s.tasks[t].pc.Writing? || s.tasks[t].pc.Written?)
    case TaskEnd(t) => t in s.tasks && s.tasks[t].pc == Closing
    case TaskKill(t) => t in s.tasks && s.tasks[t].pc == Created
  }

  function Next(s: State, step: Step): State
    requires WellFormed(s) && Enabled(s, step)
  {
    match step
    case Submit(c, r, user) => s.(rows := s.rows[r := Row(Running, user)], calls := s.calls[c := Dispatching(r)])
    case Dispatch(c, t) =>
      var r := s.calls[c].run;
      s.(tasks := s.tasks[t := Task(r, Created)], table := s.table[r := t], calls := s.calls - {c})
    case ResumeCheck(c, r, _) => s.(calls := s.calls[c := ResumeChecked(r)])
    case ResumeClaim(c) => SetStatus(s, s.calls[c].run, Running).(calls := s.calls[c := Dispatching(s.calls[c].run)])
    case CancelCheck(c, r, _) => s.(calls := s.calls[c := CancelChecked(r)])
    case CancelMark(c) => SetStatus(s, s.calls[c].run, Cancelling).(calls := s.calls[c := CancelMarked(s.calls[c].run)])
    case CancelSignal(c) =>
      var r := s.calls[c].run;
      var task := if r in s.table then Some(s.table[r]) else None;
      s.(tokens := s.tokens[r := true], calls := s.calls[c := CancelWaiting(r, task, TasksOf(s, r))])
    case CancelReturn(c) => SetStatus(s, s.calls[c].run, Cancelled).(calls := s.calls - {c})
    case ScanQuery(c, runs) => s.(calls := s.calls[c := Scanning(runs)])
    case ScanWrite(c, r, found) =>
      SetStatus(s, r, if found then Interrupted else Failed).(calls := s.calls[c := Scanning(s.calls[c].runs - {r})])
    case Abandon(c) => s.(calls := s.calls - {c})
    case TaskStart(t) => SetPc(s, t, Executing).(tokens := s.tokens[s.tasks[t].run := false])
    case TaskResult(t, result) => SetPc(s, t, Writing(result, false))
    case TaskRaise(t, timeout) => SetPc(s, t, Writing(if timeout then Timeout else Failed, true))
    case TaskWrite(t) =>
      SetPc(SetStatus(s, s.tasks[t].run, s.tasks[t].pc.status), t, Written(s.tasks[t].pc.handler))
    case TaskLeave(t) =>
      SetPc(s, t, Closing).(tokens := s.tokens - {s.tasks[t].run}, table := s.table - {s.tasks[t].run})
    case TaskEnd(t) => SetPc(s, t, Ended)
    case TaskKill(t) => SetPc(s, t, Killed)
  }

  /** A step of a background task, as opposed to one of a request. */
  predicate OfTask(step: Step) {
    step.TaskStart? || step.TaskResult? || step.TaskRaise? || step.TaskWrite? || step.TaskLeave? || step.TaskEnd?
    || step.TaskKill?
  }

  lemma NextCallsAreWellFormed(s: State, step: Step)
    requires WellFormed(s) && Enabled(s, step)
    ensures var s' := Next(s, step); forall c :: c in s'.calls ==> CallWellFormed(s', s'.calls[c])
  {
    var s' := Next(s, step);
    assert s.rows.Keys <= s'.rows.Keys && s.tasks.Keys <= s'.tasks.Keys;
    assert forall t :: t in s.tasks ==> s'.tasks[t].run == s.tasks[t].run;
    forall c | c in s'.calls ensures CallWellFormed(s', s'.calls[c]) {
      if c in s.calls {
        assert CallWellFormed(s, s.calls[c]);
      }
    }
  }

  lemma NextIsWellFormed(s: State, step: Step)
    requires WellFormed(s) && Enabled(s, step)
    ensures WellFormed(Next(s, step))
  {
    NextCallsAreWellFormed(s, step);
  }

  // ---- runs of the machine ---------------------------------------------------

  ghost predicate Possible(s: State, steps: seq<Step>)
    requires WellFormed(s)
    decreases |steps|
  {
    steps != [] ==>
      && Enabled(s, steps[0])
      && (NextIsWellFormed(s, steps[0]); Possible(Next(s, steps[0]), steps[1..]))
  }

  ghost function After(s: State, steps: seq<Step>): (s': State)
    requires WellFormed(s) && Possible(s, steps)
    ensures WellFormed(s')
    decreases |steps|
  {
    if steps == [] then s
    else
      NextIsWellFormed(s, steps[0]);
      After(Next(s, steps[0]), steps[1..])
  }

  lemma {:induction false} AfterAppend(s: State, a: seq<Step>, b: seq<Step>)
    requires WellFormed(s) && Possible(s, a) && Possible(After(s, a), b)
    ensures Possible(s, a + b) && After(s, a + b) == After(After(s, a), b)
    decreases |a|
  {
    if a == [] {
      assert a + b == b;
    } else {
      NextIsWellFormed(s, a[0]);
      AfterAppend(Next(s, a[0]), a[1..], b);
      assert (a + b)[1..] == a[1..] + b;
    }
  }

  // ---- when a cancelled row stays cancelled ----------------------------------

  /** A task that still has a row write ahead of it. */
  predicate MayWrite(pc: Pc) {
    pc == Created || pc == Executing || pc.Writing? || pc == Written(false)
  }

  /** A call that has passed its check of the row and has yet to overwrite it, or to start a
      task that will. A cancel past its first write only ever writes `cancelled`. */
  predicate InFlightOn(call: Call, r: RunId) {
    match call
    case Dispatching(run) => run == r
    case ResumeChecked(run) => run == r
    case CancelChecked(run) => run == r
    case Scanning(runs) => r in runs
    case CancelMarked(_) => false
    case CancelWaiting(_, _, _) => false
  }

  ghost predicate NothingInFlight(s: State, r: RunId) {
    forall c :: c in s.calls ==> !InFlightOn(s.calls[c], r)
  }

  ghost predicate NoTaskMayWrite(s: State, r: RunId) {
    forall t :: t in s.tasks && s.tasks[t].run == r ==> !MayWrite(s.tasks[t].pc)
  }

  ghost predicate Settled(s: State, r: RunId) {
    r in s.rows && s.rows[r].status == Cancelled && NothingInFlight(s, r) && NoTaskMayWrite(s, r)
  }

  /** A task only moves on: it does not become live, or able to write, or new, again. */
  ghost predicate TaskMoves(s: State, t: TaskId, s': State) {
    && t in s.tasks && t in s'.tasks && s'.calls == s.calls && s'.rows.Keys == s.rows.Keys
    && s'.tasks == s.tasks[t := Task(s.tasks[t].run, s'.tasks[t].pc)]
    && s.tasks[t].pc != Killed && s'.tasks[t].pc != Created
    && (Live(s'.tasks[t].pc) ==> Live(s.tasks[t].pc))
    && (MayWrite(s'.tasks[t].pc) ==> MayWrite(s.tasks[t].pc))
  }

  lemma TaskStepMoves(s: State, step: Step)
    requires WellFormed(s) && Enabled(s, step) && OfTask(step)
    ensures TaskMoves(s, step.t, Next(s, step))
  {
  }

  lemma TaskStepKeepsRows(s: State, step: Step, r: RunId)
    requires WellFormed(s) && Enabled(s, step) && OfTask(step) && r in s.rows
    requires s.tasks[step.t].run == r ==> !MayWrite(s.tasks[step.t].pc)
    ensures r in Next(s, step).rows
    ensures s.rows[r].status == Cancelled ==> Next(s, step).rows[r].status == Cancelled
  {
  }

  lemma SettledStep(s: State, r: RunId, step: Step)
    requires WellFormed(s) && Enabled(s, step) && Settled(s, r)
    ensures Settled(Next(s, step), r)
  {
    if OfTask(step) {
      TaskStepMoves(s, step);
      TaskStepKeepsRows(s, step, r);
    } else {
      SettledCallStep(s, r, step);
    }
  }

  lemma SettledCallStep(s: State, r: RunId, step: Step)
    requires WellFormed(s) && Enabled(s, step) && Settled(s, r) && !OfTask(step)
    ensures Settled(Next(s, step), r)
  {
  }

  lemma {:induction false} SettledForever(s: State, r: RunId, steps: seq<Step>)
    requires WellFormed(s) && Settled(s, r) && Possible(s, steps)
    ensures Settled(After(s, steps), r)
    decreases |steps|
  {
    if steps != [] {
      SettledStep(s, r, steps[0]);
      NextIsWellFormed(s, steps[0]);
      SettledForever(Next(s, steps[0]), r, steps[1..]);
    }
  }

  ghost predicate StaysCancelled(s: State, r: RunId)
    requires WellFormed(s)
  {
    forall steps :: Possible(s, steps) ==> r in After(s, steps).rows && After(s, steps).rows[r].status == Cancelled
  }

  function StepsToOverwrite(pc: Pc): nat {
    match pc
    case Created => 4
    case Executing => 3
    case Writing(status, _) => if status == Cancelled then 2 else 1
    case _ => 3
  }

  /** Any task that may still write can be scheduled so that the row ends up not cancelled. */
  lemma {:induction false} TaskCanOverwrite(s: State, t: TaskId) returns (steps: seq<Step>)
    requires WellFormed(s) && t in s.tasks && MayWrite(s.tasks[t].pc)
    ensures Possible(s, steps)
    ensures var r, s' := s.tasks[t].run, After(s, steps); r in s'.rows && s'.rows[r].status != Cancelled
    decreases StepsToOverwrite(s.tasks[t].pc)
  {
    var pc := s.tasks[t].pc;
    var step :=
      if pc == Created then TaskStart(t)
      else if pc == Executing then TaskResult(t, Completed)
      else if pc.Writing? && pc.status != Cancelled then TaskWrite(t)
      else TaskRaise(t, false);
    NextIsWellFormed(s, step);
    var rest := [];
    if !step.TaskWrite? {
      rest := TaskCanOverwrite(Next(s, step), t);
    }
    steps := [step] + rest;
    assert steps[1..] == rest;
  }

  lemma {:induction false} FreshId(used: set<nat>) returns (id: nat)
    ensures id !in used && forall n :: n in used ==> n < id
    decreases |used|
  {
    if used == {} {
      id := 0;
    } else {
      var n :| n in used;
      var above := FreshId(used - {n});
      id := if n < above then above else n + 1;
      assert forall m :: m in used ==> m == n || m in used - {n};
    }
  }

  lemma OneStep(s: State, step: Step)
    requires WellFormed(s) && Enabled(s, step)
    ensures Possible(s, [step]) && After(s, [step]) == Next(s, step)
  {
  }

  lemma CallCanOverwrite(s: State, c: CallId, r: RunId) returns (steps: seq<Step>)
    requires WellFormed(s) && c in s.calls && InFlightOn(s.calls[c], r) && r in s.rows
    ensures Possible(s, steps) && r in After(s, steps).rows && After(s, steps).rows[r].status != Cancelled
  {
    match s.calls[c] {
      case Dispatching(_) =>
        var t := FreshId(s.tasks.Keys);
        OneStep(s, Dispatch(c, t));
        var s' := Next(s, Dispatch(c, t));
        var rest := TaskCanOverwrite(s', t);
        AfterAppend(s, [Dispatch(c, t)], rest);
        steps := [Dispatch(c, t)] + rest;
      case ResumeChecked(_) =>
        OneStep(s, ResumeClaim(c));
        steps := [ResumeClaim(c)];
      case CancelChecked(_) =>
        OneStep(s, CancelMark(c));
        steps := [CancelMark(c)];
      case Scanning(_) =>
        OneStep(s, ScanWrite(c, r, false));
        steps := [ScanWrite(c, r, false)];
    }
  }

  /** A cancelled row stays cancelled in every continuation exactly when no task of the run
      may still write and no operation on the run is in flight. */
  lemma StaysCancelledExactlyWhenSettled(s: State, r: RunId)
    requires WellFormed(s) && r in s.rows && s.rows[r].status == Cancelled
    ensures StaysCancelled(s, r) <==> NothingInFlight(s, r) && NoTaskMayWrite(s, r)
  {
    if Settled(s, r) {
      forall steps | Possible(s, steps) ensures Settled(After(s, steps), r) {
        SettledForever(s, r, steps);
      }
    } else if !NothingInFlight(s, r) {
      var c :| c in s.calls && InFlightOn(s.calls[c], r);
      var steps := CallCanOverwrite(s, c, r);
    } else {
      var t :| t in s.tasks && s.tasks[t].run == r && MayWrite(s.tasks[t].pc);
      var steps := TaskCanOverwrite(s, t);
    }
  }

  // ---- what every interleaving keeps -----------------------------------------

  predicate Live(pc: Pc) {
    pc !in {Closing, Ended, Killed}
  }

  /** A resume takes over a run only when nothing on this instance still works for it. */
  ghost predicate Calm(s: State, step: Step)
    requires Enabled(s, step)
  {
    step.ResumeClaim? ==>
      var r := s.calls[step.c].run;
      && (forall t :: t in s.tasks && s.tasks[t].run == r ==> !Live(s.tasks[t].pc))
      && (forall c :: c in s.calls ==> s.calls[c] != Dispatching(r))
  }

  /** Live tasks are the ones in the task table, so there is at most one for a run. */
  ghost predicate LiveTasksAreTabled(s: State) {
    forall t :: t in s.tasks && Live(s.tasks[t].pc) ==> s.tasks[t].run in s.table && s.table[s.tasks[t].run] == t
  }

  /** A table entry outlives its task only if the task was cancelled before it ever ran. */
  ghost predicate TabledTasksAreLive(s: State) {
    forall r :: r in s.table && s.table[r] in s.tasks ==>
      Live(s.tasks[s.table[r]].pc) || s.tasks[s.table[r]].pc == Killed
  }

  ghost predicate DispatchersAreAlone(s: State) {
    forall c, d :: c in s.calls && d in s.calls && s.calls[c].Dispatching? && s.calls[c] == s.calls[d] ==> c == d
  }

  /** While a task is still to be created for a run, the run has no live task. */
  ghost predicate DispatchersPrecedeTasks(s: State) {
    forall c, t :: c in s.calls && s.calls[c].Dispatching? && t in s.tasks && s.tasks[t].run == s.calls[c].run ==>
      !Live(s.tasks[t].pc)
  }

  /** Of the tasks a cancel saw, only the one it waits for can still be live. */
  ghost predicate CancelsWaitForTheLiveTask(s: State) {
    forall c, t | c in s.calls && s.calls[c].CancelWaiting? && t in s.calls[c].seen && t in s.tasks ::
      Live(s.tasks[t].pc) ==> s.calls[c].task == Some(t)
  }

  ghost predicate Orderly(s: State) {
    && WellFormed(s)
    && LiveTasksAreTabled(s)
    && TabledTasksAreLive(s)
    && DispatchersAreAlone(s)
    && DispatchersPrecedeTasks(s)
    && CancelsWaitForTheLiveTask(s)
  }

  /** A step keeps the order exactly when it is calm. */
  lemma OrderlyStep(s: State, step: Step)
    requires Orderly(s) && Enabled(s, step)
    ensures Orderly(Next(s, step)) <==> Calm(s, step)
  {
    if Calm(s, step) {
      NextIsWellFormed(s, step);
      if OfTask(step) {
        TaskStepMoves(s, step);
        TaskStepOnTable(s, step);
        TaskKeepsOrder(s, step.t, Next(s, step));
      } else {
        CallKeepsLiveTabled(s, step);
        CallKeepsDispatchersAlone(s, step);
        CallKeepsDispatchersFirst(s, step);
        CallKeepsCancelsWaiting(s, step);
      }
    } else {
      UncalmStep(s, step);
    }
  }

  lemma UncalmStep(s: State, step: Step)
    requires Orderly(s) && Enabled(s, step) && !Calm(s, step)
    ensures !DispatchersAreAlone(Next(s, step)) || !DispatchersPrecedeTasks(Next(s, step))
  {
    var r, s' := s.calls[step.c].run, Next(s, step);
    assert s'.calls[step.c] == Dispatching(r);
    if t :| t in s.tasks && s.tasks[t].run == r && Live(s.tasks[t].pc) {
      assert s'.tasks[t] == s.tasks[t];
    } else {
      var c :| c in s.calls && s.calls[c] == Dispatching(r);
      assert s'.calls[c] == Dispatching(r) && c != step.c;
    }
  }

  /** What a task's step may do to the task table: only its `finally` takes an entry out, that of its own run. */
  ghost predicate TableFollows(s: State, t: TaskId, s': State)
    requires t in s.tasks
  {
    || (s'.table == s.table && t in s'.tasks
        && (Live(s'.tasks[t].pc) || s'.tasks[t].pc == Killed || !Live(s.tasks[t].pc)))
    || (s'.table == s.table - {s.tasks[t].run} && Live(s.tasks[t].pc) && t in s'.tasks && !Live(s'.tasks[t].pc))
  }

  lemma TaskStepOnTable(s: State, step: Step)
    requires WellFormed(s) && Enabled(s, step) && OfTask(step)
    ensures step.t in s.tasks && TableFollows(s, step.t, Next(s, step))
  {
  }

  lemma TaskKeepsOrder(s: State, t: TaskId, s': State)
    requires Orderly(s) && TaskMoves(s, t, s') && TableFollows(s, t, s')
    ensures LiveTasksAreTabled(s') && TabledTasksAreLive(s') && DispatchersAreAlone(s')
    ensures DispatchersPrecedeTasks(s') && CancelsWaitForTheLiveTask(s')
  {
  }

  lemma CallKeepsLiveTabled(s: State, step: Step)
    requires Orderly(s) && Enabled(s, step) && Calm(s, step) && !OfTask(step)
    ensures LiveTasksAreTabled(Next(s, step)) && TabledTasksAreLive(Next(s, step))
  {
  }

  lemma CallKeepsDispatchersAlone(s: State, step: Step)
    requires Orderly(s) && Enabled(s, step) && Calm(s, step) && !OfTask(step)
    ensures DispatchersAreAlone(Next(s, step))
  {
  }

  lemma CallKeepsDispatchersFirst(s: State, step: Step)
    requires Orderly(s) && Enabled(s, step) && Calm(s, step) && !OfTask(step)
    ensures DispatchersPrecedeTasks(Next(s, step))
  {
  }

  lemma CallKeepsCancelsWaiting(s: State, step: Step)
    requires Orderly(s) && Enabled(s, step) && !OfTask(step)
    ensures CancelsWaitForTheLiveTask(Next(s, step))
  {
  }

  ghost predicate CalmRun(s: State, steps: seq<Step>)
    requires WellFormed(s) && Possible(s, steps)
    decreases |steps|
  {
    steps != [] ==>
      && Calm(s, steps[0])
      && (NextIsWellFormed(s, steps[0]); CalmRun(Next(s, steps[0]), steps[1..]))
  }

  /** Orderly at every point of a run. */
  ghost predicate OrderlyThroughout(s: State, steps: seq<Step>)
    requires WellFormed(s) && Possible(s, steps)
    decreases |steps|
  {
    && Orderly(s)
    && (steps != [] ==> (NextIsWellFormed(s, steps[0]); OrderlyThroughout(Next(s, steps[0]), steps[1..])))
  }

  /** Every point of a run is orderly exactly when every step of it is calm. */
  lemma {:induction false} OrderlyRuns(s: State, steps: seq<Step>)
    requires Orderly(s) && Possible(s, steps)
    ensures OrderlyThroughout(s, steps) <==> CalmRun(s, steps)
    ensures CalmRun(s, steps) ==> Orderly(After(s, steps))
    decreases |steps|
  {
    if steps != [] {
      OrderlyStep(s, steps[0]);
      NextIsWellFormed(s, steps[0]);
      if Calm(s, steps[0]) {
        OrderlyRuns(Next(s, steps[0]), steps[1..]);
      }
    }
  }

  // ---- what cancel_run promises ----------------------------------------------

  /** No task was created for the run since the cancel read the task table. */
  ghost predicate NoTaskSince(s: State, r: RunId, seen: set<TaskId>) {
    TasksOf(s, r) <= seen
  }

  lemma OrderlyCancelReturns(s: State, c: CallId)
    requires Orderly(s) && Enabled(s, CancelReturn(c))
    ensures var r, s' := s.calls[c].run, Next(s, CancelReturn(c));
            && Orderly(s')
            && r in s'.rows && s'.rows[r].status == Cancelled
            && (NoTaskSince(s, r, s.calls[c].seen) ==>
                 && NoTaskMayWrite(s', r)
                 && (forall t :: t in s'.tasks && s'.tasks[t].run == r ==> !Live(s'.tasks[t].pc))
                 && (r in s'.table ==> s'.tasks[s'.table[r]].pc == Killed))
  {
    OrderlyStep(s, CancelReturn(c));
    var r := s.calls[c].run;
    if NoTaskSince(s, r, s.calls[c].seen) {
      forall t | t in s.tasks && s.tasks[t].run == r ensures !Live(s.tasks[t].pc) {
        assert t in TasksOf(s, r);
      }
    }
  }

  /**
   * `cancel_run` returns at the end of any run of the machine. The row is cancelled, and it stays
   * cancelled in every continuation exactly when nothing else is in flight on the run at that moment
   * and no task of it may still write. If the run was calm and no task was created for the agent run
   * since the cancel read the task table, then no task may: every task of the agent run has passed its
   * last write and has left the table (or never took its first step).
   */
  lemma CancelReturns(steps: seq<Step>, c: CallId)
    requires Possible(INIT, steps) && Enabled(After(INIT, steps), CancelReturn(c))
    ensures var s := After(INIT, steps);
            var r, s' := s.calls[c].run, Next(s, CancelReturn(c));
            && WellFormed(s')
            && r in s'.rows && s'.rows[r].status == Cancelled
            && (StaysCancelled(s', r) <==> NothingInFlight(s', r) && NoTaskMayWrite(s', r))
            && (CalmRun(INIT, steps) && NoTaskSince(s, r, s.calls[c].seen) ==>
                 && (StaysCancelled(s', r) <==> NothingInFlight(s', r))
                 && (forall t :: t in s'.tasks && s'.tasks[t].run == r ==> !Live(s'.tasks[t].pc))
                 && (r in s'.table ==> s'.tasks[s'.table[r]].pc == Killed))
  {
    var s := After(INIT, steps);
    NextIsWellFormed(s, CancelReturn(c));
    StaysCancelledExactlyWhenSettled(Next(s, CancelReturn(c)), s.calls[c].run);
    if CalmRun(INIT, steps) {
      OrderlyRuns(INIT, steps);
      OrderlyCancelReturns(s, c);
    }
  }

  lemma {:induction false} WithoutResumeAllIsCalm(s: State, steps: seq<Step>)
    requires WellFormed(s) && Possible(s, steps) && forall step :: step in steps ==> !step.ResumeClaim?
    ensures CalmRun(s, steps)
    decreases |steps|
  {
    if steps != [] {
      assert steps[0] in steps;
      NextIsWellFormed(s, steps[0]);
      WithoutResumeAllIsCalm(Next(s, steps[0]), steps[1..]);
    }
  }

  /** The everyday case: as long as nothing is resumed, a returning cancel with no task newer than its look at the table
      leaves a row that is final exactly when nothing else is in flight. */
  lemma CancelReturnsWithoutResume(steps: seq<Step>, c: CallId)
    requires Possible(INIT, steps) && Enabled(After(INIT, steps), CancelReturn(c))
    requires forall step :: step in steps ==> !step.ResumeClaim?
    requires var s := After(INIT, steps); NoTaskSince(s, s.calls[c].run, s.calls[c].seen)
    ensures var s := After(INIT, steps);
            var r, s' := s.calls[c].run, Next(s, CancelReturn(c));
            && WellFormed(s') && r in s'.rows && s'.rows[r].status == Cancelled
            && (StaysCancelled(s', r) <==> NothingInFlight(s', r))
  {
    WithoutResumeAllIsCalm(INIT, steps);
    CancelReturns(steps, c);
  }

  // ---- the cancel flag -------------------------------------------------------

  /** A run of the machine, with all its states. */
  ghost predicate Trace(states: seq<State>, steps: seq<Step>) {
    && |states| == |steps| + 1 && states[0] == INIT
    && (forall i {:trigger StepAt(states, steps, i)} :: 0 <= i < |steps| ==> StepAt(states, steps, i))
  }

  ghost predicate StepAt(states: seq<State>, steps: seq<Step>, i: int) {
    && 0 <= i < |steps| && i + 1 < |states|
    && WellFormed(states[i]) && Enabled(states[i], steps[i])
    && states[i + 1] == Next(states[i], steps[i])
  }

  ghost predicate CalmTrace(states: seq<State>, steps: seq<Step>) {
    && Trace(states, steps)
    && (forall i {:trigger CalmAt(states, steps, i)} :: 0 <= i < |steps| ==> CalmAt(states, steps, i))
  }

  ghost predicate CalmAt(states: seq<State>, steps: seq<Step>, i: int) {
    StepAt(states, steps, i) && Calm(states[i], steps[i])
  }

  /** The step is a cancel of the run setting the flag. */
  predicate Signals(s: State, step: Step, r: RunId) {
    step.CancelSignal? && step.c in s.calls && s.calls[step.c] == CancelMarked(r)
  }

  /** The step is a task of the run clearing the flag, at its first step, or dropping it, in its `finally`. */
  predicate Resets(s: State, step: Step, r: RunId) {
    (step.TaskStart? || step.TaskLeave?) && step.t in s.tasks && s.tasks[step.t].run == r
  }

  predicate FlagIsSet(s: State, r: RunId) {
    r in s.tokens && s.tokens[r]
  }

  lemma StepOnFlag(s: State, step: Step, r: RunId)
    requires WellFormed(s) && Enabled(s, step)
    ensures FlagIsSet(Next(s, step), r) <==> Signals(s, step, r) || (FlagIsSet(s, r) && !Resets(s, step, r))
  {
  }

  /** In any run, a flag is set exactly when some cancel of the agent run has signalled and no task of it has started
      or left since. */
  lemma {:induction false} FlagIsTheLastSignal(states: seq<State>, steps: seq<Step>, n: nat, r: RunId)
    requires Trace(states, steps) && n <= |steps|
    ensures FlagIsSet(states[n], r) <==>
              exists i :: 0 <= i < n && Signals(states[i], steps[i], r)
                && forall j :: i < j < n ==> !Resets(states[j], steps[j], r)
  {
    if n > 0 {
      FlagIsTheLastSignal(states, steps, n - 1, r);
      assert StepAt(states, steps, n - 1);
      StepOnFlag(states[n - 1], steps[n - 1], r);
    }
  }

  lemma {:induction false} TraceIsOrderly(states: seq<State>, steps: seq<Step>, n: nat)
    requires CalmTrace(states, steps) && n <= |steps|
    ensures Orderly(states[n])
  {
    if n > 0 {
      TraceIsOrderly(states, steps, n - 1);
      assert CalmAt(states, steps, n - 1);
      OrderlyStep(states[n - 1], steps[n - 1]);
    }
  }

  predicate IsExecuting(s: State, t: TaskId) {
    t in s.tasks && s.tasks[t].pc == Executing
  }

  lemma TaskKeepsItsRun(s: State, step: Step, t: TaskId)
    requires WellFormed(s) && Enabled(s, step) && IsExecuting(Next(s, step), t)
    ensures t in s.tasks && Next(s, step).tasks[t].run == s.tasks[t].run
    ensures !IsExecuting(s, t) ==> step == TaskStart(t) && s.tasks[t].pc == Created
  {
    if OfTask(step) {
      TaskStepMoves(s, step);
    }
  }

  /** Of one run, only the tabled task is live, so no other task touches the flag of an executing one. */
  lemma FlagIsItsOwn(s: State, step: Step, t: TaskId)
    requires Orderly(s) && Enabled(s, step) && IsExecuting(s, t) && IsExecuting(Next(s, step), t)
    ensures (step.TaskStart? || step.TaskLeave?) ==> s.tasks[step.t].run != s.tasks[t].run
  {
  }

  lemma FlagStep(s: State, step: Step, t: TaskId)
    requires Orderly(s) && Enabled(s, step) && IsExecuting(Next(s, step), t)
    requires IsExecuting(s, t) ==> s.tasks[t].run in s.tokens
    ensures t in s.tasks && Next(s, step).tasks[t].run == s.tasks[t].run
    ensures var r, s' := s.tasks[t].run, Next(s, step);
            && r in s'.tokens
            && (s'.tokens[r] <==> IsExecuting(s, t) && (s.tokens[r] || Signals(s, step, r)))
    ensures !IsExecuting(s, t) ==> s.tasks[t].pc == Created
  {
    TaskKeepsItsRun(s, step, t);
    if IsExecuting(s, t) {
      FlagIsItsOwn(s, step, t);
    }
  }

  lemma CreatedComesFirst(s: State, step: Step, t: TaskId)
    requires WellFormed(s) && Enabled(s, step)
    requires t in Next(s, step).tasks ==> Next(s, step).tasks[t].pc == Created
    ensures t in s.tasks ==> s.tasks[t].pc == Created
  {
    if OfTask(step) {
      TaskStepMoves(s, step);
    }
  }

  /** A task that is still to take its first step has not been executing before. */
  lemma {:induction false} NotExecutingYet(states: seq<State>, steps: seq<Step>, n: nat, i: nat, t: TaskId)
    requires CalmTrace(states, steps) && i <= n <= |steps|
    requires t in states[n].tasks ==> states[n].tasks[t].pc == Created
    ensures !IsExecuting(states[i], t)
  {
    if i < n {
      assert CalmAt(states, steps, n - 1);
      CreatedComesFirst(states[n - 1], steps[n - 1], t);
      NotExecutingYet(states, steps, n - 1, i, t);
    }
  }

  /**
   * While a task is executing, its run's flag is set exactly when some cancel has signalled since the task took its
   * first step. So a waiting cancel that signalled earlier has lost its flag, unless another one signalled later.
   */
  lemma {:induction false} FlagIsASignalSinceTheStart(states: seq<State>, steps: seq<Step>, n: nat, t: TaskId)
    requires CalmTrace(states, steps) && n <= |steps| && IsExecuting(states[n], t)
    ensures var r := states[n].tasks[t].run;
            && r in states[n].tokens
            && (states[n].tokens[r] <==>
                exists i :: 0 <= i < n && IsExecuting(states[i], t) && Signals(states[i], steps[i], r))
  {
    if n > 0 {
      var s, step := states[n - 1], steps[n - 1];
      TraceIsOrderly(states, steps, n - 1);
      assert CalmAt(states, steps, n - 1);
      if IsExecuting(s, t) {
        FlagIsASignalSinceTheStart(states, steps, n - 1, t);
      }
      FlagStep(s, step, t);
      if !IsExecuting(s, t) {
        forall i | 0 <= i < n ensures !IsExecuting(states[i], t) {
          NotExecutingYet(states, steps, n - 1, i, t);
        }
      }
    }
  }

  /** A cancel that signals before the task's first step: that step takes the flag away while the cancel waits on. */
  lemma EarlySignalIsLost(s: State, t: TaskId, c: CallId)
    requires WellFormed(s) && Enabled(s, TaskStart(t)) && c in s.calls && s.calls[c].CancelWaiting?
    requires s.calls[c].task == Some(t)
    ensures var s' := Next(s, TaskStart(t));
            && s'.calls[c] == s.calls[c] && IsExecuting(s', t)
            && s.tasks[t].run in s'.tokens && !s'.tokens[s.tasks[t].run]
  {
  }

  // ---- what a row says -------------------------------------------------------

  /** The executor's result for a task, or an exception in it. */
  predicate Concludes(step: Step, t: TaskId) {
    (step.TaskResult? || step.TaskRaise?) && step.t == t
  }

  /** The last result or exception of task `t` before step `n` was step `i`, and it stands for this status. */
  ghost predicate LastConclusion(steps: seq<Step>, n: int, t: TaskId, i: int, status: Status) {
    && 0 <= i < n <= |steps| && Concludes(steps[i], t)
    && (forall j :: i < j < n ==> !Concludes(steps[j], t))
    && match steps[i]
       case TaskResult(_, result) => status == result
       case TaskRaise(_, timeout) => status == if timeout then Timeout else Failed
       case _ => false
  }

  lemma WritingStep(s: State, step: Step, t: TaskId)
    requires WellFormed(s) && Enabled(s, step) && t in Next(s, step).tasks && Next(s, step).tasks[t].pc.Writing?
    ensures Concludes(step, t) ==>
              match step
              case TaskResult(_, result) => Next(s, step).tasks[t].pc.status == result
              case TaskRaise(_, timeout) => Next(s, step).tasks[t].pc.status == if timeout then Timeout else Failed
    ensures !Concludes(step, t) ==> t in s.tasks && s.tasks[t].pc == Next(s, step).tasks[t].pc
  {
  }

  /** A task about to write holds the status of its last result or exception. */
  lemma {:induction false} WritingIsTheLastConclusion(states: seq<State>, steps: seq<Step>, n: nat, t: TaskId)
    requires Trace(states, steps) && n <= |steps|
    requires t in states[n].tasks && states[n].tasks[t].pc.Writing?
    ensures exists i :: LastConclusion(steps, n, t, i, states[n].tasks[t].pc.status)
  {
    assert n > 0;
    var s, step := states[n - 1], steps[n - 1];
    assert StepAt(states, steps, n - 1);
    WritingStep(s, step, t);
    if Concludes(step, t) {
      assert LastConclusion(steps, n, t, n - 1, states[n].tasks[t].pc.status);
    } else {
      WritingIsTheLastConclusion(states, steps, n - 1, t);
      var i :| LastConclusion(steps, n - 1, t, i, s.tasks[t].pc.status);
      assert LastConclusion(steps, n, t, i, states[n].tasks[t].pc.status);
    }
  }

  /** The run whose row a step writes. */
  ghost predicate WritesRow(s: State, step: Step, r: RunId)
    requires WellFormed(s) && Enabled(s, step)
  {
    match step
    case Submit(_, run, _) => run == r
    case ResumeClaim(c) => s.calls[c].run == r
    case CancelMark(c) => s.calls[c].run == r
    case CancelReturn(c) => s.calls[c].run == r
    case ScanWrite(_, run, _) => run == r
    case TaskWrite(t) => s.tasks[t].run == r
    case _ => false
  }

  /** Step `i` wrote this status to the row: that of the operation, or of the task's last result or exception. */
  ghost predicate Wrote(states: seq<State>, steps: seq<Step>, i: int, r: RunId, status: Status) {
    && StepAt(states, steps, i) && WritesRow(states[i], steps[i], r)
    && match steps[i]
       case Submit(_, _, _) => status == Running
       case ResumeClaim(_) => status == Running
       case CancelMark(_) => status == Cancelling
       case CancelReturn(_) => status == Cancelled
       case ScanWrite(_, _, found) => status == if found then Interrupted else Failed
       case TaskWrite(t) => exists k :: LastConclusion(steps, i, t, k, status)
       case _ => false
  }

  lemma UnwrittenRowStays(s: State, step: Step, r: RunId)
    requires WellFormed(s) && Enabled(s, step) && !WritesRow(s, step, r) && r in Next(s, step).rows
    ensures r in s.rows && Next(s, step).rows[r] == s.rows[r]
  {
  }

  lemma OwnerStays(s: State, step: Step, r: RunId)
    requires WellFormed(s) && Enabled(s, step) && r in Next(s, step).rows
    ensures if step.Submit? && step.r == r then Next(s, step).rows[r].owner == step.owner
            else r in s.rows && Next(s, step).rows[r].owner == s.rows[r].owner
  {
  }

  lemma StepWrote(states: seq<State>, steps: seq<Step>, i: nat, r: RunId)
    requires Trace(states, steps) && i < |steps| && StepAt(states, steps, i) && WritesRow(states[i], steps[i], r)
    ensures r in states[i + 1].rows && Wrote(states, steps, i, r, states[i + 1].rows[r].status)
  {
    if steps[i].TaskWrite? {
      WritingIsTheLastConclusion(states, steps, i, steps[i].t);
    }
  }

  /** In any run, a row shows its last write: a submit or resume writes `running`, a cancel `cancelling` and then
      `cancelled`, the scan `interrupted` or `failed`, and a task the last result of its executor, or `timeout` or
      `failed` for its last exception. */
  lemma {:induction false} RowIsItsLastWrite(states: seq<State>, steps: seq<Step>, n: nat, r: RunId)
    requires Trace(states, steps) && n <= |steps| && r in states[n].rows
    ensures exists i :: 0 <= i < n && Wrote(states, steps, i, r, states[n].rows[r].status)
              && forall j :: i < j < n ==> StepAt(states, steps, j) && !WritesRow(states[j], steps[j], r)
  {
    assert n > 0;
    assert StepAt(states, steps, n - 1);
    if WritesRow(states[n - 1], steps[n - 1], r) {
      StepWrote(states, steps, n - 1, r);
    } else {
      UnwrittenRowStays(states[n - 1], steps[n - 1], r);
      RowIsItsLastWrite(states, steps, n - 1, r);
    }
  }

  /** And its owner is the one it was submitted for. */
  lemma {:induction false} OwnerIsTheSubmitter(states: seq<State>, steps: seq<Step>, n: nat, r: RunId)
    requires Trace(states, steps) && n <= |steps| && r in states[n].rows
    ensures exists i :: 0 <= i < n && steps[i].Submit? && steps[i].r == r && steps[i].owner == states[n].rows[r].owner
  {
    assert n > 0;
    assert StepAt(states, steps, n - 1);
    OwnerStays(states[n - 1], steps[n - 1], r);
    if !(steps[n - 1].Submit? && steps[n - 1].r == r) {
      OwnerIsTheSubmitter(states, steps, n - 1, r);
    }
  }

  // ---- why calm is needed ----------------------------------------------------

  ghost predicate Moves(s: State, step: Step, s': State) {
    WellFormed(s) && Enabled(s, step) && Next(s, step) == s'
  }

  ghost predicate Reachable(s: State) {
    exists steps :: Possible(INIT, steps) && After(INIT, steps) == s
  }

  lemma ReachableOn(s: State, step: Step, s': State)
    requires Reachable(s) && Moves(s, step, s')
    ensures Reachable(s')
  {
    var steps :| Possible(INIT, steps) && After(INIT, steps) == s;
    OneStep(s, step);
    AfterAppend(INIT, steps, [step]);
  }

  /** Run 0, owned by user 0: its row, its flag, its table entry, its tasks, its calls. */
  function Snapshot(status: Status, tokens: map<RunId, bool>, table: map<RunId, TaskId>,
                    tasks: map<TaskId, Task>, calls: map<CallId, Call>): State {
    State(map[0 := Row(status, Some(0))], tokens, table, tasks, calls)
  }

  // A run whose submit broke off before its task was created is found by the scan...
  const SUBMITTED := Snapshot(Running, map[], map[], map[], map[0 := Dispatching(0)])
  const STRANDED := Snapshot(Running, map[], map[], map[], map[])
  const SCANNING := Snapshot(Running, map[], map[], map[], map[0 := Scanning({0})])
  const SCANNED := Snapshot(Interrupted, map[], map[], map[], map[0 := Scanning({})])
  const INTERRUPTED := Snapshot(Interrupted, map[], map[], map[], map[])
  // ...and resumed twice at once: both requests find it interrupted, and both claim it...
  const ONE_RESUME := Snapshot(Interrupted, map[], map[], map[], map[1 := ResumeChecked(0)])
  const TWO_RESUMES := Snapshot(Interrupted, map[], map[], map[], map[1 := ResumeChecked(0), 2 := ResumeChecked(0)])
  const ONE_CLAIMED := Snapshot(Running, map[], map[], map[], map[1 := Dispatching(0), 2 := ResumeChecked(0)])
  const BOTH_CLAIMED := Snapshot(Running, map[], map[], map[], map[1 := Dispatching(0), 2 := Dispatching(0)])
  // ...and each starts a task.
  const ONE_RUNS := map[1 := Task(0, Executing)]
  const BOTH_RUN := map[1 := Task(0, Executing), 2 := Task(0, Executing)]
  const ONE_CREATED := Snapshot(Running, map[], map[0 := 1], map[1 := Task(0, Created)], map[2 := Dispatching(0)])
  const ONE_STARTED := Snapshot(Running, map[0 := false], map[0 := 1], ONE_RUNS, map[2 := Dispatching(0)])
  const BOTH_CREATED := Snapshot(Running, map[0 := false], map[0 := 2], ONE_RUNS[2 := Task(0, Created)], map[])
  const BOTH_STARTED := Snapshot(Running, map[0 := false], map[0 := 2], BOTH_RUN, map[])
  // A cancel finds the second in the table and waits for it alone...
  const WAITING := map[3 := CancelWaiting(0, Some(2), {1, 2})]
  const CANCEL_CHECKED := Snapshot(Running, map[0 := false], map[0 := 2], BOTH_RUN, map[3 := CancelChecked(0)])
  const CANCEL_MARKED := Snapshot(Cancelling, map[0 := false], map[0 := 2], BOTH_RUN, map[3 := CancelMarked(0)])
  const CANCEL_WAITING := Snapshot(Cancelling, map[0 := true], map[0 := 2], BOTH_RUN, WAITING)
  // ...which ends early at the flag, and takes flag and table entry with it.
  const SECOND_STOPS :=
    Snapshot(Cancelling, map[0 := true], map[0 := 2], ONE_RUNS[2 := Task(0, Writing(Completed, false))], WAITING)
  const SECOND_WROTE :=
    Snapshot(Completed, map[0 := true], map[0 := 2], ONE_RUNS[2 := Task(0, Written(false))], WAITING)
  const SECOND_LEFT := Snapshot(Completed, map[], map[], ONE_RUNS[2 := Task(0, Closing)], WAITING)
  const SECOND_ENDED := Snapshot(Completed, map[], map[], ONE_RUNS[2 := Task(0, Ended)], WAITING)
  const CANCEL_RETURNED := Snapshot(Cancelled, map[], map[], ONE_RUNS[2 := Task(0, Ended)], map[])

  lemma SubmitMove()
    ensures Moves(INIT, Submit(0, 0, Some(0)), SUBMITTED)
  {
  }

  lemma BreakOffMove()
    ensures Moves(SUBMITTED, Abandon(0), STRANDED)
  {
  }

  lemma ScanQueryMove()
    ensures Moves(STRANDED, ScanQuery(0, {0}), SCANNING)
  {
  }

  lemma ScanWriteMove()
    ensures Moves(SCANNING, ScanWrite(0, 0, true), SCANNED)
  {
    assert SCANNING.calls[0].runs - {0} == {};
  }

  lemma ScanEndMove()
    ensures Moves(SCANNED, Abandon(0), INTERRUPTED)
  {
  }

  lemma FirstCheckMove()
    ensures Moves(INTERRUPTED, ResumeCheck(1, 0, 0), ONE_RESUME)
  {
  }

  lemma SecondCheckMove()
    ensures Moves(ONE_RESUME, ResumeCheck(2, 0, 0), TWO_RESUMES)
  {
  }

  lemma FirstClaimMove()
    ensures Moves(TWO_RESUMES, ResumeClaim(1), ONE_CLAIMED)
  {
  }

  lemma SecondClaimMove()
    ensures Moves(ONE_CLAIMED, ResumeClaim(2), BOTH_CLAIMED)
  {
  }

  lemma FirstDispatchMove()
    ensures Moves(BOTH_CLAIMED, Dispatch(1, 1), ONE_CREATED)
  {
  }

  lemma FirstStartMove()
    ensures Moves(ONE_CREATED, TaskStart(1), ONE_STARTED)
  {
  }

  lemma SecondDispatchMove()
    ensures Moves(ONE_STARTED, Dispatch(2, 2), BOTH_CREATED)
  {
  }

  lemma SecondStartMove()
    ensures Moves(BOTH_CREATED, TaskStart(2), BOTH_STARTED)
  {
  }

  lemma CancelCheckMove()
    ensures Moves(BOTH_STARTED, CancelCheck(3, 0, 0), CANCEL_CHECKED)
  {
  }

  lemma CancelMarkMove()
    ensures Moves(CANCEL_CHECKED, CancelMark(3), CANCEL_MARKED)
  {
  }

  lemma CancelSignalMove()
    ensures Moves(CANCEL_MARKED, CancelSignal(3), CANCEL_WAITING)
  {
    assert TasksOf(CANCEL_MARKED, 0) == {1, 2};
  }

  lemma SecondStopsMove()
    ensures Moves(CANCEL_WAITING, TaskResult(2, Completed), SECOND_STOPS)
  {
  }

  lemma SecondWritesMove()
    ensures Moves(SECOND_STOPS, TaskWrite(2), SECOND_WROTE)
  {
  }

  lemma SecondLeavesMove()
    ensures Moves(SECOND_WROTE, TaskLeave(2), SECOND_LEFT)
  {
  }

  lemma SecondEndsMove()
    ensures Moves(SECOND_LEFT, TaskEnd(2), SECOND_ENDED)
  {
  }

  lemma CancelReturnMove()
    ensures Moves(SECOND_ENDED, CancelReturn(3), CANCEL_RETURNED)
  {
  }

  /** Two requests that resume the run can both have found it interrupted. */
  lemma TwoResumesMeet()
    ensures Reachable(TWO_RESUMES)
  {
    assert Possible(INIT, []) && After(INIT, []) == INIT;
    SubmitMove();
    ReachableOn(INIT, Submit(0, 0, Some(0)), SUBMITTED);
    BreakOffMove();
    ReachableOn(SUBMITTED, Abandon(0), STRANDED);
    ScanQueryMove();
    ReachableOn(STRANDED, ScanQuery(0, {0}), SCANNING);
    ScanWriteMove();
    ReachableOn(SCANNING, ScanWrite(0, 0, true), SCANNED);
    ScanEndMove();
    ReachableOn(SCANNED, Abandon(0), INTERRUPTED);
    FirstCheckMove();
    ReachableOn(INTERRUPTED, ResumeCheck(1, 0, 0), ONE_RESUME);
    SecondCheckMove();
    ReachableOn(ONE_RESUME, ResumeCheck(2, 0, 0), TWO_RESUMES);
  }

  /** Both then claim it and start a task, as nothing in the code stops the second. */
  lemma BothResumesRun()
    ensures Reachable(BOTH_STARTED)
  {
    TwoResumesMeet();
    FirstClaimMove();
    ReachableOn(TWO_RESUMES, ResumeClaim(1), ONE_CLAIMED);
    SecondClaimMove();
    ReachableOn(ONE_CLAIMED, ResumeClaim(2), BOTH_CLAIMED);
    FirstDispatchMove();
    ReachableOn(BOTH_CLAIMED, Dispatch(1, 1), ONE_CREATED);
    FirstStartMove();
    ReachableOn(ONE_CREATED, TaskStart(1), ONE_STARTED);
    SecondDispatchMove();
    ReachableOn(ONE_STARTED, Dispatch(2, 2), BOTH_CREATED);
    SecondStartMove();
    ReachableOn(BOTH_CREATED, TaskStart(2), BOTH_STARTED);
  }

  /** A cancel waits for the tabled task only, and returns when that one is over, with the other task executing and
      neither task nor flag in the tables. */
  lemma CancelReturnsBesideATask()
    ensures Reachable(CANCEL_RETURNED)
  {
    BothResumesRun();
    CancelCheckMove();
    ReachableOn(BOTH_STARTED, CancelCheck(3, 0, 0), CANCEL_CHECKED);
    CancelMarkMove();
    ReachableOn(CANCEL_CHECKED, CancelMark(3), CANCEL_MARKED);
    CancelSignalMove();
    ReachableOn(CANCEL_MARKED, CancelSignal(3), CANCEL_WAITING);
    SecondStopsMove();
    ReachableOn(CANCEL_WAITING, TaskResult(2, Completed), SECOND_STOPS);
    SecondWritesMove();
    ReachableOn(SECOND_STOPS, TaskWrite(2), SECOND_WROTE);
    SecondLeavesMove();
    ReachableOn(SECOND_WROTE, TaskLeave(2), SECOND_LEFT);
    SecondEndsMove();
    ReachableOn(SECOND_LEFT, TaskEnd(2), SECOND_ENDED);
    CancelReturnMove();
    ReachableOn(SECOND_ENDED, CancelReturn(3), CANCEL_RETURNED);
  }

  /** So it returns with nothing in flight and no task created since it looked, and yet the
      row need not stay cancelled: without calm the promise of `cancel_run` fails. */
  lemma OverlappingResumesEscapeCancel()
    ensures NoTaskSince(SECOND_ENDED, 0, WAITING[3].seen) && NothingInFlight(CANCEL_RETURNED, 0)
    ensures IsExecuting(CANCEL_RETURNED, 1) && CANCEL_RETURNED.tokens == map[] && CANCEL_RETURNED.table == map[]
    ensures WellFormed(CANCEL_RETURNED) && !StaysCancelled(CANCEL_RETURNED, 0)
  {
    CancelReturnMove();
    NextIsWellFormed(SECOND_ENDED, CancelReturn(3));
    assert CANCEL_RETURNED.tasks[1] == Task(0, Executing);
    var steps := TaskCanOverwrite(CANCEL_RETURNED, 1);
  }

  /** Up to the second claim everything was orderly; it is the first step that is not calm. */
  lemma SecondClaimIsNotCalm()
    ensures Orderly(ONE_CLAIMED) && Enabled(ONE_CLAIMED, ResumeClaim(2)) && !Calm(ONE_CLAIMED, ResumeClaim(2))
  {
    assert ONE_CLAIMED.calls[1] == Dispatching(0);
  }
}
