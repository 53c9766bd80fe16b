/**
 * Scheduled jobs (backend/services/scheduler/service.py). The job table is the stored truth;
 * the trigger table of the in-memory scheduler is a cache of it. A cron expression that
 * croniter accepts but that has not five fields is stored, and then makes registration raise
 * after the commit; the model keeps that path.
 */
module Scheduler {
  import Ordering
  import opened Wrappers

  type JobId = nat
  type UserId = nat

  datatype Job = Job(
    name: string, cron: string, jobType: string, enabled: bool, payload: Option<string>, createdBy: Option<UserId>)

  datatype Trigger = Trigger(minute: string, hour: string, day: string, month: string, dayOfWeek: string)

  // ---- str.strip().split() and _parse_cron -----------------------------------

  predicate IsSpace(c: char) {
    || '\t' <= c <= '\r' || '\U{001C}' <= c <= ' '
    || c in "\U{0085}\U{00A0}\U{1680}\U{2028}\U{2029}\U{202F}\U{205F}\U{3000}"
    || '\U{2000}' <= c <= '\U{200A}'
  }

  function WordLength(s: string): (n: nat)
    ensures n <= |s|
  {
    if s == "" || IsSpace(s[0]) then 0 else 1 + WordLength(s[1..])
  }

  function Fields(s: string): seq<string>
    decreases |s|
  {
    if s == "" then []
    else if IsSpace(s[0]) then Fields(s[1..])
    else [s[..WordLength(s)]] + Fields(s[WordLength(s)..])
  }

  /** `None` where `_parse_cron` raises. */
  function ParseCron(expr: string): Option<Trigger> {
    var parts := Fields(expr);
    if |parts| != 5 then None else Some(Trigger(parts[0], parts[1], parts[2], parts[3], parts[4]))
  }

  // ---- what the trigger table should be --------------------------------------

  /** The enabled jobs whose cron expression can be parsed, each with its current trigger. */
  function LiveTriggers(jobs: map<JobId, Job>): map<JobId, Trigger> {
    map id | id in jobs && jobs[id].enabled && ParseCron(jobs[id].cron).Some? :: ParseCron(jobs[id].cron).value
  }

  function WithTrigger(table: map<JobId, Trigger>, id: JobId, trigger: Option<Trigger>): map<JobId, Trigger> {
    if trigger.Some? then table[id := trigger.value] else table
  }

  /** The part of the live table that belongs to some of the jobs. */
  function LiveAmong(jobs: map<JobId, Job>, ids: set<JobId>): map<JobId, Trigger> {
    map id | id in jobs && id in ids && jobs[id].enabled && ParseCron(jobs[id].cron).Some?
        :: ParseCron(jobs[id].cron).value
  }

  lemma LiveAmongStep(jobs: map<JobId, Job>, ids: set<JobId>, id: JobId)
    requires id in jobs && jobs[id].enabled
    ensures LiveAmong(jobs, ids + {id}) == WithTrigger(LiveAmong(jobs, ids), id, ParseCron(jobs[id].cron))
  {
  }

  lemma LiveAfterStore(jobs: map<JobId, Job>, id: JobId, job: Job)
    ensures LiveTriggers(jobs[id := job])
         == WithTrigger(LiveTriggers(jobs) - {id}, id, if job.enabled then ParseCron(job.cron) else None)
  {
  }

  lemma LiveAfterDelete(jobs: map<JobId, Job>, id: JobId)
    ensures LiveTriggers(jobs - {id}) == LiveTriggers(jobs) - {id}
  {
  }

  predicate AllParse(jobs: map<JobId, Job>) {
    forall id :: id in jobs && jobs[id].enabled ==> ParseCron(jobs[id].cron).Some?
  }

  /** What `_restore_enabled_jobs` builds from the job table; `None` when it raises. */
  function Restored(jobs: map<JobId, Job>): Option<map<JobId, Trigger>> {
    if AllParse(jobs) then Some(LiveTriggers(jobs)) else None
  }

  type Collation = (string, string) -> bool

  predicate NotAfter(jobs: map<JobId, Job>, collation: Collation, a: JobId, b: JobId)
    requires a in jobs && b in jobs
  {
    jobs[a].name == jobs[b].name || collation(jobs[a].name, jobs[b].name)
  }

  /** The enabled jobs whose name comes before that of one. */
  function Earlier(jobs: map<JobId, Job>, collation: Collation, id: JobId): set<JobId>
    requires id in jobs
  {
    set e | e in jobs && jobs[e].enabled && collation(jobs[e].name, jobs[id].name)
  }

  /** What a restore leaves that raises: the triggers of the jobs before the first, in name order, that cannot be
      parsed. */
  ghost predicate HalfRestored(jobs: map<JobId, Job>, collation: Collation, table: map<JobId, Trigger>) {
    exists bad ::
      && bad in jobs && jobs[bad].enabled && ParseCron(jobs[bad].cron).None?
      && (forall e :: e in Earlier(jobs, collation, bad) ==> ParseCron(jobs[e].cron).Some?)
      && table == LiveAmong(jobs, Earlier(jobs, collation, bad))
  }

  /** The enabled jobs, those registered so far before the others. */
  ghost predicate InOrder(jobs: map<JobId, Job>, collation: Collation, done: set<JobId>, todo: set<JobId>) {
    && (forall id :: id in jobs && jobs[id].enabled <==> id in done || id in todo)
    && (forall d, t :: d in done && t in todo ==> NotAfter(jobs, collation, d, t) && d != t)
  }

  ghost predicate Restoring(jobs: map<JobId, Job>, collation: Collation, done: set<JobId>, todo: set<JobId>,
                            table: map<JobId, Trigger>) {
    && InOrder(jobs, collation, done, todo)
    && table == LiveAmong(jobs, done)
    && (forall id :: id in done ==> ParseCron(jobs[id].cron).Some?)
  }

  lemma RestoringIsOverJobs(jobs: map<JobId, Job>, collation: Collation, done: set<JobId>, todo: set<JobId>,
                            table: map<JobId, Trigger>)
    requires Restoring(jobs, collation, done, todo, table)
    ensures done <= jobs.Keys && todo <= jobs.Keys && forall id :: id in todo ==> jobs[id].enabled
  {
  }

  lemma RestoreStep(jobs: map<JobId, Job>, collation: Collation, done: set<JobId>, todo: set<JobId>,
                    table: map<JobId, Trigger>, id: JobId)
    requires Ordering.StrictTotalOrder(collation) && Restoring(jobs, collation, done, todo, table)
    requires id in todo && todo <= jobs.Keys && forall t :: t in todo ==> NotAfter(jobs, collation, id, t)
    ensures var trigger := ParseCron(jobs[id].cron);
            if trigger.Some? then Restoring(jobs, collation, done + {id}, todo - {id}, WithTrigger(table, id, trigger))
            else !AllParse(jobs) && (NamesDistinct(jobs) ==> HalfRestored(jobs, collation, table))
  {
    LiveAmongStep(jobs, done, id);
    if ParseCron(jobs[id].cron).None? && NamesDistinct(jobs) {
      assert forall d :: d in done ==> NotAfter(jobs, collation, d, id) && jobs[d].name != jobs[id].name;
      assert forall t :: t in todo ==> NotAfter(jobs, collation, id, t);
      assert done == Earlier(jobs, collation, id);
    }
  }

  lemma RestoreEnds(jobs: map<JobId, Job>, collation: Collation, done: set<JobId>, table: map<JobId, Trigger>)
    requires Restoring(jobs, collation, done, {}, table)
    ensures AllParse(jobs) && table == LiveTriggers(jobs)
  {
  }

  datatype State = State(jobs: map<JobId, Job>, table: Option<map<JobId, Trigger>>, started: bool)

  ghost predicate NamesDistinct(jobs: map<JobId, Job>) {
    forall a, b :: a in jobs && b in jobs && jobs[a].name == jobs[b].name ==> a == b
  }

  /** The trigger table of a running scheduler is the live one. */
  ghost predicate Cached(s: State) {
    s.started ==> s.table == Some(LiveTriggers(s.jobs))
  }

  datatype Outcome =
    | Done
    | Rejected          // ValueError or PermissionError before the commit
    | RaisedOnRegister  // ValueError of _parse_cron, after the commit

  datatype Patch = Patch(
    name: Option<string>, cron: Option<string>, jobType: Option<string>, enabled: Option<bool>, payload: Option<string>)

  datatype Op =
    | Start(settingOn: bool)
    | Stop
    | Create(id: JobId, name: string, cron: string, jobType: string, payload: Option<string>, user: Option<UserId>)
    | Update(id: JobId, patch: Patch, user: Option<UserId>)
    | Delete(id: JobId, user: Option<UserId>)

  type CronCheck = string -> bool

  predicate ValidType(jobType: string) {
    jobType == "intelligence" || jobType == "autonomous"
  }

  predicate NameTaken(jobs: map<JobId, Job>, name: string, except: Option<JobId>) {
    exists id :: id in jobs && jobs[id].name == name && Some(id) != except
  }

  predicate Owns(job: Job, user: Option<UserId>) {
    user.Some? ==> job.createdBy == user
  }

  function Patched(job: Job, p: Patch): Job {
    Job(if p.name.Some? then p.name.value else job.name,
        if p.cron.Some? then p.cron.value else job.cron,
        if p.jobType.Some? then p.jobType.value else job.jobType,
        if p.enabled.Some? then p.enabled.value else job.enabled,
        if p.payload.Some? then p.payload else job.payload,
        job.createdBy)
  }

  predicate PatchAllowed(jobs: map<JobId, Job>, id: JobId, p: Patch, valid: CronCheck) {
    && (p.name.Some? ==> !NameTaken(jobs, p.name.value, Some(id)))
    && (p.cron.Some? ==> valid(p.cron.value))
    && (p.jobType.Some? ==> ValidType(p.jobType.value))
  }

  class SchedulerService {
    var jobs: map<JobId, Job>
    var scheduler: Option<map<JobId, Trigger>>
    var started: bool
    const isValid: CronCheck     // croniter.is_valid
    const collation: Collation   // the database's order on names

    constructor (jobs: map<JobId, Job>, isValid: CronCheck, collation: Collation)
      ensures Now() == State(jobs, None, false) && this.isValid == isValid && this.collation == collation
    {
      this.jobs, scheduler, started, this.isValid, this.collation := jobs, None, false, isValid, collation;
    }

    function Now(): State
      reads this
    {
      State(jobs, scheduler, started)
    }

    // ---- the bridge to the trigger table ---------------------------------------

    method Register(id: JobId, job: Job) returns (out: Outcome)
      modifies this`scheduler
      ensures scheduler.None? <==> old(scheduler).None?
      ensures out == if old(scheduler).Some? && ParseCron(job.cron).None? then RaisedOnRegister else Done
      ensures scheduler.Some? ==> scheduler.value == WithTrigger(old(scheduler).value, id, ParseCron(job.cron))
    {
      if scheduler.None? {
        return Done;
      }
      match ParseCron(job.cron) {
        case None => out := RaisedOnRegister;
        case Some(trigger) =>
          scheduler := Some(scheduler.value[id := trigger]);
          out := Done;
      }
    }

    method Unregister(id: JobId)
      modifies this`scheduler
      ensures scheduler == if old(scheduler).Some? then Some(old(scheduler).value - {id}) else None
    {
      if scheduler.Some? {
        scheduler := Some(scheduler.value - {id});
      }
    }

    /** `_restore_enabled_jobs`: the enabled jobs in name order; it stops at the first that raises. */
    method RestoreEnabledJobs() returns (out: Outcome)
      requires scheduler == Some(map[]) && Ordering.StrictTotalOrder(collation)
      modifies this`scheduler
      ensures scheduler.Some?
      ensures out == if AllParse(jobs) then Done else RaisedOnRegister
      ensures out == Done ==> scheduler == Restored(jobs)
      ensures out != Done && NamesDistinct(jobs) ==> HalfRestored(jobs, collation, scheduler.value)
    {
      var todo := set id | id in jobs && jobs[id].enabled;
      ghost var done: set<JobId> := {};
      assert LiveAmong(jobs, done) == map[];
      while todo != {}
        invariant scheduler.Some? && Restoring(jobs, collation, done, todo, scheduler.value)
        decreases |todo|
      {
        RestoringIsOverJobs(jobs, collation, done, todo, scheduler.value);
        var id := FirstByName(todo);
        RestoreStep(jobs, collation, done, todo, scheduler.value, id);
        out := Register(id, jobs[id]);
        if out != Done {
          return;
        }
        todo, done := todo - {id}, done + {id};
      }
      RestoreEnds(jobs, collation, done, scheduler.value);
      out := Done;
    }

    /** The next row of the query. */
    method FirstByName(todo: set<JobId>) returns (id: JobId)
      requires todo != {} && todo <= jobs.Keys && Ordering.StrictTotalOrder(collation)
      ensures id in todo && forall t :: t in todo ==> NotAfter(jobs, collation, id, t)
    {
      var names := set id | id in todo :: jobs[id].name;
      assert forall t :: t in todo ==> jobs[t].name in names;
      Ordering.LeastExists(collation, names);
      var name :| name in names && Ordering.IsLeast(collation, name, names);
      id :| id in todo && jobs[id].name == name;
    }

    // ---- the public operations -------------------------------------------------

    method Start(settingOn: bool) returns (out: Outcome)
      requires Ordering.StrictTotalOrder(collation)
      modifies this
      ensures Follows(old(Now()), Op.Start(settingOn), Now(), out, isValid)
      ensures !settingOn || old(started) ==> Now() == old(Now()) && out == Done
      ensures settingOn && !old(started) ==>
                jobs == old(jobs) && scheduler.Some? && (started <==> out == Done) && out != Rejected
      ensures out != Done && NamesDistinct(jobs) ==> HalfRestored(jobs, collation, scheduler.value)
    {
      if started || !settingOn {
        return Done;
      }
      scheduler := Some(map[]);
      out := RestoreEnabledJobs();
      if out == Done {
        started := true;
      }
    }

    method Stop()
      modifies this
      ensures Follows(old(Now()), Op.Stop, Now(), Done, isValid)
      ensures jobs == old(jobs) && scheduler == None && !started
    {
      scheduler := None;
      started := false;
    }

    method CreateJob(id: JobId, name: string, cron: string, jobType: string, payload: Option<string>,
                     user: Option<UserId>)
      returns (out: Outcome)
      requires id !in jobs
      modifies this
      ensures Follows(old(Now()), Create(id, name, cron, jobType, payload, user), Now(), out, isValid)
    {
      if !isValid(cron) || !ValidType(jobType) || NameTaken(jobs, name, None) {
        return Rejected;
      }
      var job := Job(name, cron, jobType, true, payload, user);
      jobs := jobs[id := job];
      out := Register(id, job);
    }

    /** The field-by-field part of `update_job`; `None` where a check raises. */
    method ApplyPatch(id: JobId, patch: Patch) returns (patched: Option<Job>)
      requires id in jobs
      ensures patched == if PatchAllowed(jobs, id, patch, isValid) then Some(Patched(jobs[id], patch)) else None
    {
      var job := jobs[id];
      if patch.name.Some? {
        if NameTaken(jobs, patch.name.value, Some(id)) {
          return None;
        }
        job := job.(name := patch.name.value);
      }
      if patch.cron.Some? {
        if !isValid(patch.cron.value) {
          return None;
        }
        job := job.(cron := patch.cron.value);
      }
      if patch.jobType.Some? {
        if !ValidType(patch.jobType.value) {
          return None;
        }
        job := job.(jobType := patch.jobType.value);
      }
      if patch.enabled.Some? {
        job := job.(enabled := patch.enabled.value);
      }
      if patch.payload.Some? {
        job := job.(payload := patch.payload);
      }
      patched := Some(job);
    }

    method Reschedule(id: JobId, job: Job) returns (out: Outcome)
      modifies this`scheduler
      ensures Registers(Removed(old(scheduler), id), id, job, scheduler, out)
    {
      Unregister(id);
      out := Register(id, job);
    }

    method UpdateJob(id: JobId, patch: Patch, user: Option<UserId>) returns (out: Outcome)
      modifies this
      ensures Follows(old(Now()), Update(id, patch, user), Now(), out, isValid)
    {
      if id !in jobs || !Owns(jobs[id], user) {
        return Rejected;
      }
      var patched := ApplyPatch(id, patch);
      if patched.None? {
        return Rejected;
      }
      var was, job := jobs[id], patched.value;
      jobs := jobs[id := job];
      out := Done;
      if was.cron != job.cron || was.enabled != job.enabled {
        if job.enabled {
          out := Reschedule(id, job);
        } else {
          Unregister(id);
        }
      }
    }

    method ToggleJob(id: JobId, enabled: bool) returns (out: Outcome)
      modifies this
      ensures Follows(old(Now()), Update(id, Patch(None, None, None, Some(enabled), None), None), Now(), out, isValid)
    {
      out := UpdateJob(id, Patch(None, None, None, Some(enabled), None), None);
    }

    method DeleteJob(id: JobId, user: Option<UserId>) returns (out: Outcome)
      modifies this
      ensures Follows(old(Now()), Delete(id, user), Now(), out, isValid)
    {
      if id !in jobs || !Owns(jobs[id], user) {
        return Rejected;
      }
      Unregister(id);
      jobs := jobs - {id};
      out := Done;
    }
  }

  // ---- one operation, as a relation ------------------------------------------

  function Removed(table: Option<map<JobId, Trigger>>, id: JobId): Option<map<JobId, Trigger>> {
    if table.Some? then Some(table.value - {id}) else None
  }

  /** Registering a job in a table that does not raise, or raising and leaving the table. */
  ghost predicate Registers(table: Option<map<JobId, Trigger>>, id: JobId, job: Job,
                            table': Option<map<JobId, Trigger>>, out: Outcome) {
    match (table, ParseCron(job.cron))
    case (None, _) => table' == None && out == Done
    case (Some(t), None) => table' == table && out == RaisedOnRegister
    case (Some(t), Some(trigger)) => table' == Some(t[id := trigger]) && out == Done
  }

  ghost predicate Follows(s: State, op: Op, s': State, out: Outcome, valid: CronCheck) {
    match op
    case Start(settingOn) =>
      if s.started || !settingOn then s' == s && out == Done
      else if AllParse(s.jobs) then s' == State(s.jobs, Restored(s.jobs), true) && out == Done
      else s'.jobs == s.jobs && s'.table.Some? && !s'.started && out == RaisedOnRegister
    case Stop => s' == State(s.jobs, None, false) && out == Done
    case Create(id, name, cron, jobType, payload, user) =>
      if !valid(cron) || !ValidType(jobType) || NameTaken(s.jobs, name, None) then s' == s && out == Rejected
      else
        var job := Job(name, cron, jobType, true, payload, user);
        && id !in s.jobs && s'.jobs == s.jobs[id := job] && s'.started == s.started
        && Registers(s.table, id, job, s'.table, out)
    case Update(id, patch, user) =>
      if id !in s.jobs || !Owns(s.jobs[id], user) || !PatchAllowed(s.jobs, id, patch, valid) then
        s' == s && out == Rejected
      else
        var was, job := s.jobs[id], Patched(s.jobs[id], patch);
        && s'.jobs == s.jobs[id := job] && s'.started == s.started
        && (if was.cron == job.cron && was.enabled == job.enabled then s'.table == s.table && out == Done
            else if !job.enabled then s'.table == Removed(s.table, id) && out == Done
            else Registers(Removed(s.table, id), id, job, s'.table, out))
    case Delete(id, user) =>
      if id !in s.jobs || !Owns(s.jobs[id], user) then s' == s && out == Rejected
      else s' == State(s.jobs - {id}, Removed(s.table, id), s.started) && out == Done
  }

  // ---- what every sequence of operations keeps -------------------------------

  lemma StepKeepsCache(s: State, op: Op, s': State, out: Outcome, valid: CronCheck)
    requires Cached(s) && Follows(s, op, s', out, valid)
    ensures Cached(s')
    ensures out == Rejected ==> s' == s
  {
    if op.Create? && out != Rejected {
      LiveAfterStore(s.jobs, op.id, s'.jobs[op.id]);
      assert LiveTriggers(s.jobs) - {op.id} == LiveTriggers(s.jobs);
    } else if op.Update? && out != Rejected {
      LiveAfterStore(s.jobs, op.id, s'.jobs[op.id]);
      var was, job := s.jobs[op.id], s'.jobs[op.id];
      if was.cron == job.cron && was.enabled == job.enabled {
        assert s.jobs[op.id := was] == s.jobs;
        LiveAfterStore(s.jobs, op.id, was);
      }
    } else if op.Delete? && out != Rejected {
      LiveAfterDelete(s.jobs, op.id);
    }
  }

  lemma StepKeepsNames(s: State, op: Op, s': State, out: Outcome, valid: CronCheck)
    requires NamesDistinct(s.jobs) && Follows(s, op, s', out, valid)
    ensures NamesDistinct(s'.jobs)
  {
  }

  /** Every accepted cron expression has five fields. */
  ghost predicate FiveFieldsOnly(valid: CronCheck) {
    forall cron :: valid(cron) ==> ParseCron(cron).Some?
  }

  lemma StepKeepsParsing(s: State, op: Op, s': State, out: Outcome, valid: CronCheck)
    requires FiveFieldsOnly(valid) && Follows(s, op, s', out, valid)
    requires forall id :: id in s.jobs ==> ParseCron(s.jobs[id].cron).Some?
    ensures forall id :: id in s'.jobs ==> ParseCron(s'.jobs[id].cron).Some?
    ensures out != RaisedOnRegister
  {
  }

  /** A history of the service: the operations called, the states between, the outcomes. */
  ghost predicate History(states: seq<State>, ops: seq<Op>, outs: seq<Outcome>, valid: CronCheck) {
    && |states| == |ops| + 1 && |outs| == |ops|
    && forall i :: 0 <= i < |ops| ==> Follows(states[i], ops[i], states[i + 1], outs[i], valid)
  }

  /**
   * After any sequence of operations on a service created over a job table with distinct
   * names: names are still distinct; whenever the scheduler runs, its trigger table has
   * exactly the enabled jobs whose cron parses, each with its current trigger; and that is
   * what a restart would rebuild exactly when every enabled job has a five-field cron.
   */
  lemma {:induction false} TableIsWhatARestartRebuilds(states: seq<State>, ops: seq<Op>, outs: seq<Outcome>,
                                                       valid: CronCheck, n: nat)
    requires History(states, ops, outs, valid) && n <= |ops|
    requires !states[0].started && NamesDistinct(states[0].jobs)
    ensures NamesDistinct(states[n].jobs) && Cached(states[n])
    ensures states[n].started ==>
              && (forall id :: id in states[n].table.value ==> id in states[n].jobs && states[n].jobs[id].enabled)
              && (states[n].table == Restored(states[n].jobs) <==>
                  forall id :: id in states[n].jobs && states[n].jobs[id].enabled ==>
                    |Fields(states[n].jobs[id].cron)| == 5)
  {
    if n > 0 {
      TableIsWhatARestartRebuilds(states, ops, outs, valid, n - 1);
      StepKeepsCache(states[n - 1], ops[n - 1], states[n], outs[n - 1], valid);
      StepKeepsNames(states[n - 1], ops[n - 1], states[n], outs[n - 1], valid);
    }
  }

  /** If croniter accepts five-field expressions only, the table of a running scheduler is
      always what a restart would rebuild, and no operation raises after its commit. */
  lemma {:induction false} FiveFieldCronsKeepTheTableExact(states: seq<State>, ops: seq<Op>, outs: seq<Outcome>,
                                                           valid: CronCheck, n: nat)
    requires History(states, ops, outs, valid) && n <= |ops| && FiveFieldsOnly(valid)
    requires !states[0].started && NamesDistinct(states[0].jobs)
    requires forall id :: id in states[0].jobs ==> ParseCron(states[0].jobs[id].cron).Some?
    ensures forall id :: id in states[n].jobs ==> ParseCron(states[n].jobs[id].cron).Some?
    ensures states[n].started ==> states[n].table == Restored(states[n].jobs)
    ensures n < |ops| ==> outs[n] != RaisedOnRegister
  {
    if n > 0 {
      FiveFieldCronsKeepTheTableExact(states, ops, outs, valid, n - 1);
      StepKeepsParsing(states[n - 1], ops[n - 1], states[n], outs[n - 1], valid);
    }
    TableIsWhatARestartRebuilds(states, ops, outs, valid, n);
    if n < |ops| {
      StepKeepsParsing(states[n], ops[n], states[n + 1], outs[n], valid);
    }
  }

  // ---- what the operations do to a job ---------------------------------------

  /** The other jobs are as they were. */
  ghost predicate OthersKept(before: map<JobId, Job>, id: JobId, after: map<JobId, Job>) {
    forall other :: other != id ==>
      (other in before <==> other in after) && (other in before ==> after[other] == before[other])
  }

  /** A job is refused exactly for its cron expression, its type or its name; else it is stored as given, enabled. */
  lemma CreatedJobIsAsGiven(s: State, id: JobId, name: string, cron: string, jobType: string, payload: Option<string>,
                            user: Option<UserId>, s': State, out: Outcome, valid: CronCheck)
    requires Follows(s, Create(id, name, cron, jobType, payload, user), s', out, valid)
    ensures out == Rejected <==>
              || !valid(cron)
              || (jobType != "intelligence" && jobType != "autonomous")
              || exists other :: other in s.jobs && s.jobs[other].name == name
    ensures out != Rejected ==> OthersKept(s.jobs, id, s'.jobs) && id in s'.jobs
    ensures out != Rejected ==>
              var job := s'.jobs[id];
              && job.name == name && job.cron == cron && job.jobType == jobType && job.payload == payload
              && job.createdBy == user && job.enabled
  {
  }

  /** An update is refused exactly when the job is absent or another user's, or one of the fields it sets is bad; else
      every field has the value given, or the old one where none is given. */
  lemma UpdatedJobIsAsGiven(s: State, id: JobId, patch: Patch, user: Option<UserId>, s': State, out: Outcome,
                            valid: CronCheck)
    requires Follows(s, Update(id, patch, user), s', out, valid)
    ensures out == Rejected <==>
              || id !in s.jobs
              || (user.Some? && s.jobs[id].createdBy != user)
              || (patch.name.Some?
                  && exists other :: other in s.jobs && other != id && s.jobs[other].name == patch.name.value)
              || (patch.cron.Some? && !valid(patch.cron.value))
              || (patch.jobType.Some? && patch.jobType.value != "intelligence" && patch.jobType.value != "autonomous")
    ensures out != Rejected ==> OthersKept(s.jobs, id, s'.jobs) && id in s.jobs && id in s'.jobs
    ensures out != Rejected ==>
              var was, job := s.jobs[id], s'.jobs[id];
              && (match patch.name case Some(name) => job.name == name case None => job.name == was.name)
              && (match patch.cron case Some(cron) => job.cron == cron case None => job.cron == was.cron)
              && (match patch.jobType case Some(t) => job.jobType == t case None => job.jobType == was.jobType)
              && (match patch.enabled case Some(on) => job.enabled == on case None => job.enabled == was.enabled)
              && (match patch.payload case Some(p) => job.payload == Some(p) case None => job.payload == was.payload)
              && job.createdBy == was.createdBy
  {
    if out != Rejected && patch.name.Some? {
      assert !NameTaken(s.jobs, patch.name.value, Some(id));
    }
  }

  /** A deletion is refused exactly when the job is absent or another user's; else it takes out that job alone. */
  lemma DeletedJobIsGone(s: State, id: JobId, user: Option<UserId>, s': State, out: Outcome, valid: CronCheck)
    requires Follows(s, Delete(id, user), s', out, valid)
    ensures out == Rejected <==> id !in s.jobs || (user.Some? && s.jobs[id].createdBy != user)
    ensures out != Rejected ==> out == Done && id !in s'.jobs && OthersKept(s.jobs, id, s'.jobs)
  {
  }

  /** A trigger shows the five fields of an expression, each in its place. */
  predicate ShowsCron(trigger: Trigger, cron: string) {
    Fields(cron) == [trigger.minute, trigger.hour, trigger.day, trigger.month, trigger.dayOfWeek]
  }

  ghost predicate ShowsJobs(jobs: map<JobId, Job>, table: map<JobId, Trigger>) {
    && (forall id :: id in table ==> id in jobs && jobs[id].enabled && ShowsCron(table[id], jobs[id].cron))
    && (forall id :: id in jobs && jobs[id].enabled && |Fields(jobs[id].cron)| == 5 ==> id in table)
  }

  lemma LiveTriggersShowJobs(jobs: map<JobId, Job>)
    ensures ShowsJobs(jobs, LiveTriggers(jobs))
  {
    forall id | id in LiveTriggers(jobs) ensures ShowsCron(LiveTriggers(jobs)[id], jobs[id].cron) {
      var parts := Fields(jobs[id].cron);
      assert parts == [parts[0], parts[1], parts[2], parts[3], parts[4]];
    }
  }

  /** Over any history, every trigger of a running scheduler shows the current expression of its enabled job, and every
      enabled job with five fields has one. */
  lemma TriggersShowTheirCrons(states: seq<State>, ops: seq<Op>, outs: seq<Outcome>, valid: CronCheck, n: nat)
    requires History(states, ops, outs, valid) && n <= |ops|
    requires !states[0].started && NamesDistinct(states[0].jobs)
    ensures states[n].started ==> states[n].table.Some? && ShowsJobs(states[n].jobs, states[n].table.value)
  {
    TableIsWhatARestartRebuilds(states, ops, outs, valid, n);
    LiveTriggersShowJobs(states[n].jobs);
  }

  /** A new job with a five-field expression, however spaced, is triggered at just these fields. */
  lemma NewJobIsTriggered(s: State, id: JobId, name: string, minute: string, hour: string, day: string, month: string,
                          dayOfWeek: string, gaps: seq<string>, jobType: string, payload: Option<string>,
                          user: Option<UserId>, s': State, out: Outcome, valid: CronCheck)
    requires forall w :: w in [minute, hour, day, month, dayOfWeek] ==> IsWord(w)
    requires |gaps| == 6 && Separates(gaps)
    requires var cron := Spaced([minute, hour, day, month, dayOfWeek], gaps);
             Follows(s, Create(id, name, cron, jobType, payload, user), s', out, valid)
    requires s.started && Cached(s) && out != Rejected
    ensures out == Done && s'.table.Some? && id in s'.table.value
    ensures s'.table.value[id] == Trigger(minute, hour, day, month, dayOfWeek)
  {
    FieldsOfSpacedWords([minute, hour, day, month, dayOfWeek], gaps);
  }

  /** So is an updated one that is enabled then; and one that is not, is not triggered. */
  lemma UpdatedJobIsTriggered(s: State, id: JobId, patch: Patch, user: Option<UserId>, s': State, out: Outcome,
                              valid: CronCheck)
    requires Follows(s, Update(id, patch, user), s', out, valid)
    requires s.started && Cached(s) && out == Done
    ensures s'.table.Some? && id in s'.jobs
    ensures !s'.jobs[id].enabled ==> id !in s'.table.value
    ensures s'.jobs[id].enabled && |Fields(s'.jobs[id].cron)| == 5 ==>
              id in s'.table.value && ShowsCron(s'.table.value[id], s'.jobs[id].cron)
  {
    StepKeepsCache(s, Update(id, patch, user), s', out, valid);
  }

  // ---- a cron expression with a seconds field --------------------------------

  predicate IsWord(w: string) {
    w != "" && forall i :: 0 <= i < |w| ==> !IsSpace(w[i])
  }

  function JoinWords(words: seq<string>): string {
    if words == [] then "" else words[0] + " " + JoinWords(words[1..])
  }

  /** Space, tab and line ends set words apart, and no other character of printed ASCII does. */
  lemma AsciiSpaces(c: char)
    ensures IsSpace(' ') && IsSpace('\t') && IsSpace('\n') && IsSpace('\r')
    ensures '!' <= c <= '~' ==> !IsSpace(c)
  {
  }

  predicate IsBlank(gap: string) {
    forall i :: 0 <= i < |gap| ==> IsSpace(gap[i])
  }

  /** Words with a gap before each and one at the end. */
  function Spaced(words: seq<string>, gaps: seq<string>): string
    requires |gaps| == |words| + 1
  {
    if words == [] then gaps[0] else gaps[0] + words[0] + Spaced(words[1..], gaps[1..])
  }

  ghost predicate Separates(gaps: seq<string>) {
    && (forall i :: 0 <= i < |gaps| ==> IsBlank(gaps[i]))
    && (forall i :: 0 < i < |gaps| - 1 ==> gaps[i] != "")
  }

  lemma {:induction false} BlanksAreSkipped(gap: string, s: string)
    requires IsBlank(gap)
    ensures Fields(gap + s) == Fields(s)
  {
    if gap == "" {
      assert gap + s == s;
    } else {
      assert (gap + s)[1..] == gap[1..] + s;
      BlanksAreSkipped(gap[1..], s);
    }
  }

  lemma {:induction false} WordEnds(word: string, rest: string)
    requires forall i :: 0 <= i < |word| ==> !IsSpace(word[i])
    requires rest == "" || IsSpace(rest[0])
    ensures WordLength(word + rest) == |word|
  {
    var s := word + rest;
    if word != "" {
      assert s[1..] == word[1..] + rest;
      WordEnds(word[1..], rest);
    }
  }

  lemma WordIsField(word: string, rest: string)
    requires IsWord(word) && (rest == "" || IsSpace(rest[0]))
    ensures Fields(word + rest) == [word] + Fields(rest)
  {
    WordEnds(word, rest);
    assert (word + rest)[..|word|] == word && (word + rest)[|word|..] == rest;
  }

  /** Splitting a text of words set apart by blanks gives the words back, however many blanks there are, and whatever
      blanks come first and last. */
  lemma {:induction false} FieldsOfSpacedWords(words: seq<string>, gaps: seq<string>)
    requires |gaps| == |words| + 1 && Separates(gaps) && forall w :: w in words ==> IsWord(w)
    ensures Fields(Spaced(words, gaps)) == words
  {
    if words == [] {
      BlanksAreSkipped(gaps[0], "");
      assert gaps[0] + "" == gaps[0];
    } else {
      var rest := Spaced(words[1..], gaps[1..]);
      assert words[0] in words;
      FieldsOfSpacedWords(words[1..], gaps[1..]);
      assert |words| > 1 ==> gaps[1] != "" && IsBlank(gaps[1]);
      assert gaps[0] + words[0] + rest == gaps[0] + (words[0] + rest);
      BlanksAreSkipped(gaps[0], words[0] + rest);
      RestIsSetApart(words, gaps);
      WordIsField(words[0], rest);
    }
  }

  lemma RestIsSetApart(words: seq<string>, gaps: seq<string>)
    requires words != [] && |gaps| == |words| + 1 && Separates(gaps)
    ensures var rest := Spaced(words[1..], gaps[1..]); rest == "" || IsSpace(rest[0])
  {
    assert IsBlank(gaps[1]);
    if |words| > 1 {
      assert gaps[1] != "";
      assert Spaced(words[1..], gaps[1..])[0] == gaps[1][0];
    }
  }

  lemma {:induction false} FieldsOfWords(words: seq<string>)
    requires forall w :: w in words ==> IsWord(w)
    ensures Fields(JoinWords(words)) == words
  {
    if words != [] {
      var rest := JoinWords(words[1..]);
      assert words[0] in words;
      FieldsOfWords(words[1..]);
      assert words[0] + " " + rest == words[0] + (" " + rest);
      WordIsField(words[0], " " + rest);
      BlanksAreSkipped(" ", rest);
    }
  }

  /** If croniter accepts an expression of another number of fields, creating a job with it
      stores the job without a trigger and raises after the commit; a restart of the
      scheduler over the stored jobs then raises too, instead of starting. */
  lemma SixFieldCronBreaksRestart(s: State, id: JobId, name: string, words: seq<string>, user: Option<UserId>,
                                  s': State, out: Outcome, valid: CronCheck)
    requires |words| == 6 && (forall w :: w in words ==> IsWord(w)) && valid(JoinWords(words))
    requires s.started && Cached(s) && !NameTaken(s.jobs, name, None)
    requires Follows(s, Create(id, name, JoinWords(words), "intelligence", None, user), s', out, valid)
    ensures out == RaisedOnRegister && id in s'.jobs && id !in s'.table.value && Restored(s'.jobs) == None
  {
    FieldsOfWords(words);
    assert s'.jobs[id].enabled && ParseCron(s'.jobs[id].cron).None?;
  }
}
