/**
 * The startup scan for runs left behind by a dead process, and the resume that puts an
 * interrupted run back to work (backend/services/agent_runtime_service.py,
 * _recover_stale_runs and resume), run without interference. RunLifecycle has the same
 * operations interleaved.
 */
module RecoveryScan {
  import opened Wrappers
  import opened RunLifecycle

  /** Hours on an abstract clock. */
  type Time = real

  datatype Run = Run(
    status: Status, stage: string, threadId: Option<string>, owner: Option<UserId>,
    startedAt: Time, finishedAt: Option<Time>, recoveredAt: Option<Time>,
    output: Output, error: Option<string>)

  /** The output payload: none, that of a finished run, or the note a recovery leaves. */
  datatype Output = NoOutput | Produced(json: string) | RecoveredFrom(checkpointVersion: string)

  function FailedLookup(message: string): string {
    "Recovery: checkpoint lookup failed: " + message
  }

  function NoCheckpoint(threadId: string): string {
    "Recovery: no LangGraph checkpoint found for thread_id=" + threadId + "; run likely lost state."
  }

  function FoundCheckpoint(version: string): string {
    "Run was interrupted; checkpoint found at version " + version + ". State is recoverable via resume API."
  }

  datatype Lookup = Found(version: string) | Missing | LookupFailed(message: string)

  type Checkpointer = string -> Lookup

  datatype Counts = Counts(checked: nat, recovered: nat, markedFailed: nat)

  predicate Stale(run: Run, cutoff: Time) {
    run.status in {Running, Cancelling} && run.startedAt < cutoff && run.threadId.Some?
  }

  /** A thread id the scan looks up; it skips an empty one. */
  predicate HasThread(run: Run) {
    run.threadId.Some? && run.threadId.value != ""
  }

  function Treated(run: Run, lookup: Checkpointer, now: Time): Run {
    if !HasThread(run) then run
    else match lookup(run.threadId.value)
         case LookupFailed(message) =>
           run.(status := Failed, stage := "recovery_failed",
                error := Some(FailedLookup(message)), finishedAt := Some(now))
         case Found(version) =>
           run.(status := Interrupted, stage := "recovered", recoveredAt := Some(now), output := RecoveredFrom(version),
                error := Some(FoundCheckpoint(version)), finishedAt := Some(now))
         case Missing =>
           run.(status := Failed, stage := "no_checkpoint",
                error := Some(NoCheckpoint(run.threadId.value)), finishedAt := Some(now))
  }

  /** Whether a stale run counts as recovered, as failed, or as neither. */
  function Outcome(run: Run, lookup: Checkpointer): Option<bool> {
    if HasThread(run) then Some(lookup(run.threadId.value).Found?) else None
  }

  function StaleIds(runs: map<RunId, Run>, cutoff: Time): set<RunId> {
    set id | id in runs && Stale(runs[id], cutoff)
  }

  /** The run table once the scan has treated some of the rows. */
  function TreatedAll(runs: map<RunId, Run>, ids: set<RunId>, lookup: Checkpointer, now: Time): map<RunId, Run> {
    map id | id in runs :: if id in ids then Treated(runs[id], lookup, now) else runs[id]
  }

  lemma TreatOneMore(runs: map<RunId, Run>, done: set<RunId>, id: RunId, lookup: Checkpointer, now: Time)
    requires id in runs && id !in done
    ensures var before := TreatedAll(runs, done, lookup, now);
            && before[id] == runs[id]
            && TreatedAll(runs, done + {id}, lookup, now) == before[id := Treated(runs[id], lookup, now)]
  {
  }

  /** The run table after a scan. */
  function Scanned(runs: map<RunId, Run>, lookup: Checkpointer, cutoff: Time, now: Time): map<RunId, Run> {
    map id | id in runs :: if Stale(runs[id], cutoff) then Treated(runs[id], lookup, now) else runs[id]
  }

  /** The runs among `ids` with a given outcome. */
  function Tally(runs: map<RunId, Run>, ids: set<RunId>, lookup: Checkpointer, outcome: Option<bool>): set<RunId>
    requires ids <= runs.Keys
  {
    set id | id in ids && Outcome(runs[id], lookup) == outcome
  }

  function Recovered(runs: map<RunId, Run>, ids: set<RunId>, lookup: Checkpointer): set<RunId>
    requires ids <= runs.Keys
  {
    Tally(runs, ids, lookup, Some(true))
  }

  function Lost(runs: map<RunId, Run>, ids: set<RunId>, lookup: Checkpointer): set<RunId>
    requires ids <= runs.Keys
  {
    Tally(runs, ids, lookup, Some(false))
  }

  /** Stale runs the scan passes over, for want of a thread id. */
  function Threadless(runs: map<RunId, Run>, ids: set<RunId>, lookup: Checkpointer): set<RunId>
    requires ids <= runs.Keys
  {
    Tally(runs, ids, lookup, None)
  }

  lemma TallyOneMore(runs: map<RunId, Run>, done: set<RunId>, id: RunId, lookup: Checkpointer, outcome: Option<bool>)
    requires done <= runs.Keys && id in runs && id !in done
    ensures |Tally(runs, done + {id}, lookup, outcome)|
         == |Tally(runs, done, lookup, outcome)| + if Outcome(runs[id], lookup) == outcome then 1 else 0
  {
    var before, after := Tally(runs, done, lookup, outcome), Tally(runs, done + {id}, lookup, outcome);
    if Outcome(runs[id], lookup) == outcome {
      assert after == before + {id};
    } else {
      assert after == before;
    }
  }

  /** Where the scan stands once it has treated `done`. */
  ghost predicate Progress(before: map<RunId, Run>, now: Time, lookup: Checkpointer, done: set<RunId>,
                           runs: map<RunId, Run>, recovered: nat, failed: nat)
  {
    && done <= before.Keys
    && runs == TreatedAll(before, done, lookup, now)
    && recovered == |Recovered(before, done, lookup)|
    && failed == |Lost(before, done, lookup)|
  }

  lemma ProgressStep(before: map<RunId, Run>, now: Time, lookup: Checkpointer, done: set<RunId>,
                     runs: map<RunId, Run>, recovered: nat, failed: nat, id: RunId)
    requires Progress(before, now, lookup, done, runs, recovered, failed) && id in runs && id !in done
    ensures runs[id] == before[id]
    ensures var outcome := Outcome(runs[id], lookup);
            Progress(before, now, lookup, done + {id}, runs[id := Treated(runs[id], lookup, now)],
                     recovered + (if outcome == Some(true) then 1 else 0),
                     failed + (if outcome == Some(false) then 1 else 0))
  {
    TreatOneMore(before, done, id, lookup, now);
    TallyOneMore(before, done, id, lookup, Some(true));
    TallyOneMore(before, done, id, lookup, Some(false));
  }

  class AgentRuns {
    var runs: map<RunId, Run>
    const checkpointer: Option<Checkpointer>

    constructor (runs: map<RunId, Run>, checkpointer: Option<Checkpointer>)
      ensures this.runs == runs && this.checkpointer == checkpointer
    {
      this.runs, this.checkpointer := runs, checkpointer;
    }

    /** One round of the scan; `None` when the thread id is empty. */
    method RecoverOne(id: RunId, lookup: Checkpointer, now: Time) returns (recovered: Option<bool>)
      requires id in runs && runs[id].threadId.Some?
      modifies this
      ensures runs == old(runs)[id := Treated(old(runs)[id], lookup, now)]
      ensures recovered == Outcome(old(runs)[id], lookup)
    {
      var run := runs[id];
      if run.threadId.value == "" {
        return None;
      }
      match lookup(run.threadId.value) {
        case LookupFailed(message) =>
          runs := runs[id := run.(status := Failed, stage := "recovery_failed",
            error := Some(FailedLookup(message)), finishedAt := Some(now))];
          recovered := Some(false);
        case Found(version) =>
          runs := runs[id := run.(status := Interrupted, stage := "recovered", recoveredAt := Some(now),
            output := RecoveredFrom(version),
            error := Some(FoundCheckpoint(version)), finishedAt := Some(now))];
          recovered := Some(true);
        case Missing =>
          runs := runs[id := run.(status := Failed, stage := "no_checkpoint",
            error := Some(NoCheckpoint(run.threadId.value)), finishedAt := Some(now))];
          recovered := Some(false);
      }
    }

    /** The scan over the rows the query returned; the order does not matter. */
    method RecoverAll(stale: set<RunId>, lookup: Checkpointer, now: Time) returns (recovered: nat, failed: nat)
      requires forall id :: id in stale ==> id in runs && runs[id].threadId.Some?
      modifies this
      ensures Progress(old(runs), now, lookup, stale, runs, recovered, failed)
    {
      ghost var before := runs;
      var todo := stale;
      recovered, failed := 0, 0;
      assert TreatedAll(before, {}, lookup, now) == before;
      while todo != {}
        invariant todo <= stale <= before.Keys == runs.Keys
        invariant Progress(before, now, lookup, stale - todo, runs, recovered, failed)
        decreases |todo|
      {
        var id :| id in todo;
        ProgressStep(before, now, lookup, stale - todo, runs, recovered, failed, id);
        assert stale - (todo - {id}) == stale - todo + {id};
        var outcome := RecoverOne(id, lookup, now);
        if outcome == Some(true) {
          recovered := recovered + 1;
        } else if outcome == Some(false) {
          failed := failed + 1;
        }
        todo := todo - {id};
      }
      assert stale - todo == stale;
    }

    /** `_recover_stale_runs`; without a checkpointer nothing happens. */
    method RecoverStaleRuns(given: Option<Checkpointer>, maxHours: nat, now: Time) returns (counts: Counts)
      modifies this
      ensures given.None? && checkpointer.None? ==> runs == old(runs) && counts == Counts(0, 0, 0)
      ensures given.Some? || checkpointer.Some? ==>
                var lookup := if given.Some? then given.value else checkpointer.value;
                var ids := StaleIds(old(runs), now - maxHours as real);
                && runs == Scanned(old(runs), lookup, now - maxHours as real, now)
                && counts == Counts(|ids|, |Recovered(old(runs), ids, lookup)|, |Lost(old(runs), ids, lookup)|)
    {
      var cp := if given.Some? then given else checkpointer;
      if cp.None? {
        return Counts(0, 0, 0);
      }
      var stale := StaleIds(runs, now - maxHours as real);
      var recovered, failed := RecoverAll(stale, cp.value, now);
      counts := Counts(|stale|, recovered, failed);
    }

    /** The row update of `resume`; `false` stands for its three exceptions. */
    method Resume(id: RunId, user: UserId, now: Time) returns (ok: bool)
      modifies this
      ensures ok <==> id in old(runs) && old(runs)[id].owner == Some(user) && old(runs)[id].status == Interrupted
      ensures runs == if ok then old(runs)[id := Restarted(old(runs)[id], now)] else old(runs)
      ensures ok ==> runs[id] == old(runs)[id].(
                       status := Running, stage := "resuming", startedAt := now, finishedAt := None)
    {
      ok := id in runs && runs[id].owner == Some(user) && runs[id].status == Interrupted;
      if ok {
        runs := runs[id := runs[id].(status := Running, stage := "resuming", startedAt := now, finishedAt := None)];
      }
    }
  }

  function Restarted(run: Run, now: Time): Run {
    run.(status := Running, stage := "resuming", startedAt := now, finishedAt := None)
  }

  // ---- what a scan promises --------------------------------------------------

  /** After a scan no stale run has a thread; a stale run is interrupted exactly when its
      lookup finds a checkpoint, failed when it does not; every other run is as it was. */
  lemma ScanSettlesStaleRuns(runs: map<RunId, Run>, lookup: Checkpointer, cutoff: Time, now: Time)
    ensures var after := Scanned(runs, lookup, cutoff, now);
            && after.Keys == runs.Keys
            && (forall id :: id in after && Stale(after[id], cutoff) ==> !HasThread(after[id]))
            && (forall id :: id in runs ==> IsSettled(runs[id], after[id], lookup, cutoff, now))
  {
  }

  /** A run the scan is to settle: started before the cutoff, not over, with a thread id to look up. */
  predicate IsDue(run: Run, cutoff: Time) {
    && (run.status == Running || run.status == Cancelling)
    && run.startedAt < cutoff
    && run.threadId != None && run.threadId != Some("")
  }

  /** A due run is interrupted if its lookup finds a checkpoint and failed otherwise, with the time and the reason; any
      other run is left alone. */
  predicate IsSettled(run: Run, after: Run, lookup: Checkpointer, cutoff: Time, now: Time) {
    if !IsDue(run, cutoff) then after == run
    else
      && after.finishedAt == Some(now) && after.threadId == run.threadId
      && after.owner == run.owner && after.startedAt == run.startedAt
      && match lookup(run.threadId.value)
         case Found(version) =>
           && after.status == Interrupted && after.stage == "recovered" && after.recoveredAt == Some(now)
           && after.output == RecoveredFrom(version)
           && after.error == Some("Run was interrupted; checkpoint found at version " + version
                                  + ". State is recoverable via resume API.")
         case Missing =>
           && after.status == Failed && after.stage == "no_checkpoint" && after.recoveredAt == run.recoveredAt
           && after.output == run.output
           && after.error == Some("Recovery: no LangGraph checkpoint found for thread_id=" + run.threadId.value
                                  + "; run likely lost state.")
         case LookupFailed(message) =>
           && after.status == Failed && after.stage == "recovery_failed" && after.recoveredAt == run.recoveredAt
           && after.output == run.output
           && after.error == Some("Recovery: checkpoint lookup failed: " + message)
  }

  /** What the three counts count: runs of any thread id that are old and not over, and of these the ones whose lookup
      finds a checkpoint, and the ones whose lookup does not. */
  lemma CountsCount(runs: map<RunId, Run>, lookup: Checkpointer, cutoff: Time)
    ensures var stale := StaleIds(runs, cutoff);
            && (forall id :: id in stale <==> id in runs && runs[id].startedAt < cutoff && runs[id].threadId != None
                                              && (runs[id].status == Running || runs[id].status == Cancelling))
            && (forall id :: id in Recovered(runs, stale, lookup) <==>
                  id in runs && IsDue(runs[id], cutoff) && lookup(runs[id].threadId.value).Found?)
            && (forall id :: id in Lost(runs, stale, lookup) <==>
                  id in runs && IsDue(runs[id], cutoff) && !lookup(runs[id].threadId.value).Found?)
  {
  }

  /** The three counts add up, up to the runs with an empty thread id that the scan skips:
      checked is recovered plus failed exactly when there is none of those. */
  lemma CountsAddUp(runs: map<RunId, Run>, ids: set<RunId>, lookup: Checkpointer)
    requires ids <= runs.Keys
    ensures |ids| == |Recovered(runs, ids, lookup)| + |Lost(runs, ids, lookup)| + |Threadless(runs, ids, lookup)|
    ensures |ids| == |Recovered(runs, ids, lookup)| + |Lost(runs, ids, lookup)|
            <==> forall id :: id in ids ==> HasThread(runs[id])
  {
    var a, b, c := Recovered(runs, ids, lookup), Lost(runs, ids, lookup), Threadless(runs, ids, lookup);
    forall id | id in ids
      ensures id in c <==> !HasThread(runs[id])
      ensures id in a <==> HasThread(runs[id]) && lookup(runs[id].threadId.value).Found?
      ensures id in b <==> HasThread(runs[id]) && !lookup(runs[id].threadId.value).Found?
    {
      OutcomeOfRun(runs[id], lookup);
    }
    ThreeParts(ids, a, b, c);
  }

  /** A stale run with an empty thread id is checked, and neither recovered nor failed. */
  lemma EmptyThreadIdIsNotCounted(run: Run, lookup: Checkpointer)
    requires run.threadId == Some("")
    ensures var runs, ids := map[0 := run], {0};
            |ids| == 1 && |Recovered(runs, ids, lookup)| == 0 && |Lost(runs, ids, lookup)| == 0
  {
    assert Recovered(map[0 := run], {0}, lookup) == {} && Lost(map[0 := run], {0}, lookup) == {};
  }

  lemma OutcomeOfRun(run: Run, lookup: Checkpointer)
    ensures !HasThread(run) ==> Outcome(run, lookup) == None
    ensures HasThread(run) ==> Outcome(run, lookup) == Some(lookup(run.threadId.value).Found?)
  {
  }

  lemma ThreeParts(all: set<RunId>, a: set<RunId>, b: set<RunId>, c: set<RunId>)
    requires all == a + b + c && a !! b && (a + b) !! c
    ensures |all| == |a| + |b| + |c|
    ensures |all| == |a| + |b| <==> forall id :: id in all ==> id !in c
  {
    assert c == {} <==> forall id :: id in all ==> id !in c;
  }

  /** A second scan with the same cutoff, whatever its checkpointer says and whenever it
      runs, changes nothing and recovers and fails no run. */
  lemma ScanIsIdempotent(runs: map<RunId, Run>, lookup: Checkpointer, other: Checkpointer, cutoff: Time, now: Time,
                         later: Time)
    ensures var after := Scanned(runs, lookup, cutoff, now);
            var ids := StaleIds(after, cutoff);
            && Scanned(after, other, cutoff, later) == after
            && Recovered(after, ids, other) == {} && Lost(after, ids, other) == {}
  {
    ScanSettlesStaleRuns(runs, lookup, cutoff, now);
    var after := Scanned(runs, lookup, cutoff, now);
    forall id | id in after ensures Scanned(after, other, cutoff, later)[id] == after[id] {
      assert Stale(after[id], cutoff) ==> !HasThread(after[id]);
    }
  }

  /** A run resumed at time `t` is left alone by every scan up to `t + maxHours`, and a later
      one treats it again, if it is still running then and has a thread. */
  lemma ResumedRunIsSafeForMaxHours(runs: map<RunId, Run>, id: RunId, t: Time, u: Time, maxHours: nat,
                                    lookup: Checkpointer)
    requires id in runs && HasThread(runs[id])
    ensures var resumed := runs[id := Restarted(runs[id], t)];
            var after := Scanned(resumed, lookup, u - maxHours as real, u);
            after[id] == resumed[id] <==> u <= t + maxHours as real
  {
  }
}
