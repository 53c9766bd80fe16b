/**
 * Stage progress of a run: the callback handler buffers one event per graph call
 * (backend/workflows/graph/callbacks.py), the runtime service folds the buffer into one
 * record per node (backend/services/agent_runtime_service.py, _persist_stages) and the stage
 * repository writes the rows (backend/repositories/agent_stage_progress_repository.py).
 */
module StageTracking {
  import opened Wrappers
  import opened StringOrder

  type Json = string
  type Time = nat
  type RunId = nat

  // ---- the callback handler --------------------------------------------------

  datatype Phase = Started | Finished(outputs: Json) | Errored(message: string)

  datatype StageEvent = StageEvent(node: string, phase: Phase)

  /** What LangGraph may call on the handler. */
  datatype Call =
    | ChainStart(name: string)
    | ChainEnd(outputs: Json)
    | ChainError(message: string)
    | ToolStart(tool: string)
    | ToolEnd
    | ToolError

  datatype Buffer = Buffer(events: seq<StageEvent>, current: Option<string>)

  /** The event a call adds to the buffer, if any. */
  function Emitted(current: Option<string>, call: Call): Option<StageEvent> {
    match call
    case ChainStart(name) => Some(StageEvent(name, Started))
    case ChainEnd(outputs) => if current.Some? then Some(StageEvent(current.value, Finished(outputs))) else None
    case ChainError(message) => if current.Some? then Some(StageEvent(current.value, Errored(message))) else None
    case ToolStart(tool) => Some(StageEvent("tool:" + tool, Started))
    case _ => None
  }

  function NextCurrent(current: Option<string>, call: Call): Option<string> {
    match call
    case ChainStart(name) => Some(name)
    case ChainEnd(_) => None
    case ChainError(_) => None
    case _ => current
  }

  function Handle(b: Buffer, call: Call): Buffer {
    Buffer(b.events + (match Emitted(b.current, call) case Some(e) => [e] case None => []),
           NextCurrent(b.current, call))
  }

  function Replay(calls: seq<Call>): Buffer {
    if calls == [] then Buffer([], None)
    else Handle(Replay(calls[..|calls| - 1]), calls[|calls| - 1])
  }

  class AgentRuntimeCallback {
    var events: seq<StageEvent>
    var currentNode: Option<string>

    constructor ()
      ensures State() == Replay([])
    {
      events, currentNode := [], None;
    }

    function State(): Buffer
      reads this
    {
      Buffer(events, currentNode)
    }

    method OnChainStart(name: string)
      modifies this
      ensures State() == Handle(old(State()), ChainStart(name))
      ensures events == old(events) + [StageEvent(name, Started)] && currentNode == Some(name)
    {
      currentNode := Some(name);
      events := events + [StageEvent(name, Started)];
    }

    method OnChainEnd(outputs: Json)
      modifies this
      ensures State() == Handle(old(State()), ChainEnd(outputs))
      ensures old(currentNode).None? ==> events == old(events)
      ensures old(currentNode).Some? ==> events == old(events) + [StageEvent(old(currentNode).value, Finished(outputs))]
      ensures currentNode == None
    {
      if currentNode.Some? {
        events := events + [StageEvent(currentNode.value, Finished(outputs))];
        currentNode := None;
      }
    }

    method OnChainError(message: string)
      modifies this
      ensures State() == Handle(old(State()), ChainError(message))
      ensures old(currentNode).None? ==> events == old(events)
      ensures old(currentNode).Some? ==> events == old(events) + [StageEvent(old(currentNode).value, Errored(message))]
      ensures currentNode == None
    {
      if currentNode.Some? {
        events := events + [StageEvent(currentNode.value, Errored(message))];
        currentNode := None;
      }
    }

    method OnToolStart(tool: string)
      modifies this
      ensures State() == Handle(old(State()), ToolStart(tool))
      ensures events == old(events) + [StageEvent("tool:" + tool, Started)] && currentNode == old(currentNode)
    {
      events := events + [StageEvent("tool:" + tool, Started)];
    }

    /** Tool ends and errors leave no trace. */
    method On(call: Call)
      modifies this
      ensures State() == Handle(old(State()), call)
      ensures call.ToolEnd? || call.ToolError? ==> events == old(events) && currentNode == old(currentNode)
    {
      match call {
        case ChainStart(name) => OnChainStart(name);
        case ChainEnd(outputs) => OnChainEnd(outputs);
        case ChainError(message) => OnChainError(message);
        case ToolStart(tool) => OnToolStart(tool);
        case ToolEnd =>
        case ToolError =>
      }
    }
  }

  // ---- the fold over the buffer ----------------------------------------------

  datatype Status = Pending | Executing | Completed | Failed

  datatype StageInfo = StageInfo(status: Status, output: Option<Json>, error: Option<string>)

  predicate IsTool(node: string) {
    "tool:" <= node
  }

  function Note(info: StageInfo, phase: Phase): StageInfo {
    match phase
    case Started => info.(status := Executing)
    case Finished(outputs) => info.(status := Completed, output := Some(outputs))
    case Errored(message) => info.(status := Failed, error := Some(message))
  }

  function Track(stages: map<string, StageInfo>, e: StageEvent): map<string, StageInfo> {
    if IsTool(e.node) then stages
    else
      var info := if e.node in stages then stages[e.node] else StageInfo(Pending, None, None);
      stages[e.node := Note(info, e.phase)]
  }

  function Tracked(events: seq<StageEvent>): map<string, StageInfo> {
    if events == [] then map[]
    else Track(Tracked(events[..|events| - 1]), events[|events| - 1])
  }

  // ---- the stage table -------------------------------------------------------

  datatype StageRow = StageRow(
    run: RunId, name: string, order: nat, status: Status, input: Option<Json>,
    output: Option<Json>, error: Option<string>, durationMs: Option<nat>, finishedAt: Option<Time>)

  /** A row as `create_stage` leaves it. */
  function NewRow(run: RunId, name: string, order: nat, status: Status, input: Option<Json>): StageRow {
    StageRow(run, name, order, status, input, None, None, None, None)
  }

  const NO_INPUT: Option<Json> := Some("{}")

  /** The row a tracked node ends up with. */
  function RowFor(run: RunId, name: string, order: nat, info: StageInfo, now: Time): StageRow {
    var row := NewRow(run, name, order, info.status, NO_INPUT);
    if info.status == Executing then row
    else row.(output := info.output, error := info.error, finishedAt := Some(now))
  }

  /** One row per tracked node, numbered in name order. */
  ghost predicate IsStageTable(rows: seq<StageRow>, run: RunId, stages: map<string, StageInfo>, now: Time) {
    && Ascending(NamesOf(rows)) && Elements(NamesOf(rows)) == stages.Keys
    && forall i :: 0 <= i < |rows| ==>
         rows[i].name in stages && rows[i] == RowFor(run, rows[i].name, i, stages[rows[i].name], now)
  }

  function NamesOf(rows: seq<StageRow>): (names: seq<string>)
    ensures |names| == |rows|
  {
    seq(|rows|, i requires 0 <= i < |rows| => rows[i].name)
  }

  predicate Matches(row: StageRow, run: RunId, name: string) {
    row.run == run && row.name == name
  }

  /** What `scalar_one_or_none` gives the update. */
  datatype Found = One(index: nat) | Missing | MultipleResultsFound

  class StageRepository {
    var rows: seq<StageRow>

    method CreateStage(run: RunId, name: string, order: nat, status: Status, input: Option<Json>)
      modifies this
      ensures rows == old(rows) + [StageRow(run, name, order, status, input, None, None, None, None)]
    {
      rows := rows + [NewRow(run, name, order, status, input)];
    }

    /** `None` arguments leave a field alone; the finish time is always set. */
    method UpdateStage(run: RunId, name: string, status: Option<Status>, output: Option<Json>, error: Option<string>,
                       durationMs: Option<nat>, now: Time)
      returns (found: Found)
      modifies this
      ensures match found
              case Missing => rows == old(rows) && forall k :: 0 <= k < |rows| ==> !Matches(rows[k], run, name)
              case MultipleResultsFound =>
                rows == old(rows)
                && exists j, k :: 0 <= j < k < |rows| && Matches(rows[j], run, name) && Matches(rows[k], run, name)
              case One(i) =>
                && i < |old(rows)|
                && (forall k :: 0 <= k < |old(rows)| ==> (Matches(old(rows)[k], run, name) <==> k == i))
                && rows == old(rows)[i := old(rows)[i].(
                     status := if status.Some? then status.value else old(rows)[i].status,
                     output := if output.Some? then output else old(rows)[i].output,
                     error := if error.Some? then error else old(rows)[i].error,
                     durationMs := if durationMs.Some? then durationMs else old(rows)[i].durationMs,
                     finishedAt := Some(now))]
    {
      found := FindStage(run, name);
      if found.One? {
        var row := rows[found.index];
        rows := rows[found.index := row.(
          status := if status.Some? then status.value else row.status,
          output := if output.Some? then output else row.output,
          error := if error.Some? then error else row.error,
          durationMs := if durationMs.Some? then durationMs else row.durationMs,
          finishedAt := Some(now))];
      }
    }

    /** The query of `update_stage`. */
    method FindStage(run: RunId, name: string) returns (found: Found)
      ensures match found
              case Missing => forall k :: 0 <= k < |rows| ==> !Matches(rows[k], run, name)
              case MultipleResultsFound =>
                exists j, k :: 0 <= j < k < |rows| && Matches(rows[j], run, name) && Matches(rows[k], run, name)
              case One(i) => i < |rows| && forall k :: 0 <= k < |rows| ==> (Matches(rows[k], run, name) <==> k == i)
    {
      found := Missing;
      for i := 0 to |rows|
        invariant found.Missing? ==> forall k :: 0 <= k < i ==> !Matches(rows[k], run, name)
        invariant found.One? ==>
                    found.index < i && forall k :: 0 <= k < i ==> (Matches(rows[k], run, name) <==> k == found.index)
        invariant !found.MultipleResultsFound?
      {
        if Matches(rows[i], run, name) {
          if found.One? {
            assert Matches(rows[found.index], run, name);
            return MultipleResultsFound;
          }
          found := One(i);
        }
      }
    }

    /** One round of the writing loop of `_persist_stages`; false when the update finds several rows and raises. */
    method WriteStage(run: RunId, name: string, order: nat, info: StageInfo, now: Time) returns (done: bool)
      modifies this
      ensures done <==> !Clashes(old(rows), run, name, info)
      ensures rows == old(rows) + [if done then RowFor(run, name, order, info, now)
                                   else NewRow(run, name, order, info.status, NO_INPUT)]
    {
      ghost var n := |rows|;
      CreateStage(run, name, order, info.status, NO_INPUT);
      done := true;
      if info.status != Executing {
        ghost var created := rows;
        assert Matches(created[n], run, name);
        var found := UpdateStage(run, name, Some(info.status), info.output, info.error, None, now);
        done := !found.MultipleResultsFound?;
        assert forall k :: 0 <= k < n ==> created[k] == old(rows)[k];
      }
    }

    /** The writing loop of `_persist_stages`: it stops at the first node whose update raises. */
    method WriteStages(run: RunId, names: seq<string>, stages: map<string, StageInfo>, now: Time) returns (written: nat)
      requires Ascending(names) && forall n :: n in names ==> n in stages
      modifies this
      ensures IsWritten(old(rows), rows, run, names, stages, now, written)
    {
      written := 0;
      ghost var before := rows;
      assert before + RowsFor(run, names[..0], stages, now) == before;
      while written < |names|
        invariant AreWritten(before, rows, run, names, stages, now, written)
      {
        ghost var sofar := rows;
        WriteOneMore(before, sofar, run, names, stages, now, written);
        var done := WriteStage(run, names[written], written, stages[names[written]], now);
        if !done {
          return;
        }
        written := written + 1;
      }
    }

    /** `_persist_stages`; false when an update raises. */
    method PersistStages(run: RunId, events: seq<StageEvent>, now: Time)
      returns (done: bool, ghost stuck: string)
      modifies this
      ensures done <==> forall name :: name in Tracked(events) ==> !Clashes(old(rows), run, name, Tracked(events)[name])
      ensures |old(rows)| <= |rows| && rows[..|old(rows)|] == old(rows)
      ensures done ==> IsStageTable(rows[|old(rows)|..], run, Tracked(events), now)
      ensures !done ==> IsCutShort(old(rows), rows[|old(rows)|..], run, Tracked(events), now, stuck)
    {
      stuck := "";
      var stages := TrackEvents(events);
      var names := Sorted(stages.Keys);
      forall n ensures n in names <==> n in stages {
        assert n in Elements(names) <==> n in names;
      }
      var written := WriteStages(run, names, stages, now);
      done := written == |names|;
      if done {
        WrittenIsStageTable(old(rows), rows, run, names, stages, now);
      } else {
        stuck := names[written];
        WrittenIsCutShort(old(rows), rows, run, names, stages, now, written);
      }
    }
  }

  /** The update after the insert of this node would find several rows. */
  ghost predicate Clashes(rows: seq<StageRow>, run: RunId, name: string, info: StageInfo) {
    info.status != Executing && exists k :: 0 <= k < |rows| && Matches(rows[k], run, name)
  }

  /** The rows of the first `written` nodes. */
  ghost predicate AreWritten(before: seq<StageRow>, after: seq<StageRow>, run: RunId, names: seq<string>,
                             stages: map<string, StageInfo>, now: Time, written: nat)
    requires forall n :: n in names ==> n in stages
  {
    && written <= |names|
    && (forall k :: 0 <= k < written ==> !Clashes(before, run, names[k], stages[names[k]]))
    && after == before + RowsFor(run, names[..written], stages, now)
  }

  lemma WriteOneMore(before: seq<StageRow>, after: seq<StageRow>, run: RunId, names: seq<string>,
                     stages: map<string, StageInfo>, now: Time, written: nat)
    requires Ascending(names) && forall n :: n in names ==> n in stages
    requires written < |names| && AreWritten(before, after, run, names, stages, now, written)
    ensures var info := stages[names[written]];
            if Clashes(after, run, names[written], info)
            then IsWritten(before, after + [NewRow(run, names[written], written, info.status, NO_INPUT)],
                           run, names, stages, now, written)
            else AreWritten(before, after + [RowFor(run, names[written], written, info, now)],
                            run, names, stages, now, written + 1)
  {
    RowsForStep(run, names, stages, now, written);
    ClashesOnlyBefore(before, run, names, stages, now, written);
  }

  /** The rows of the first `written` nodes, and of the next one its bare row if its update raised. */
  ghost predicate IsWritten(before: seq<StageRow>, after: seq<StageRow>, run: RunId, names: seq<string>,
                            stages: map<string, StageInfo>, now: Time, written: nat)
    requires forall n :: n in names ==> n in stages
  {
    && written <= |names|
    && (forall k :: 0 <= k < written ==> !Clashes(before, run, names[k], stages[names[k]]))
    && (written < |names| ==> Clashes(before, run, names[written], stages[names[written]]))
    && after == before + RowsFor(run, names[..written], stages, now)
       + if written == |names| then []
         else [NewRow(run, names[written], written, stages[names[written]].status, NO_INPUT)]
  }

  /** The nodes before one, in name order. */
  function Before(stages: map<string, StageInfo>, name: string): map<string, StageInfo> {
    map n | n in stages && Less(n, name) :: stages[n]
  }

  /** A table cut short: complete rows of the first nodes in name order, none of which clashes, and then the bare row
      of the first node that does. */
  ghost predicate IsCutShort(before: seq<StageRow>, rows: seq<StageRow>, run: RunId, stages: map<string, StageInfo>,
                             now: Time, stuck: string) {
    && stuck in stages && Clashes(before, run, stuck, stages[stuck]) && rows != []
    && rows[|rows| - 1] == NewRow(run, stuck, |rows| - 1, stages[stuck].status, NO_INPUT)
    && IsStageTable(rows[..|rows| - 1], run, Before(stages, stuck), now)
    && (forall n :: n in stages && Less(n, stuck) ==> !Clashes(before, run, n, stages[n]))
  }

  lemma WrittenIsStageTable(before: seq<StageRow>, after: seq<StageRow>, run: RunId, names: seq<string>,
                            stages: map<string, StageInfo>, now: Time)
    requires Ascending(names) && forall n :: n in names <==> n in stages
    requires IsWritten(before, after, run, names, stages, now, |names|)
    ensures forall n :: n in stages ==> !Clashes(before, run, n, stages[n])
    ensures |before| <= |after| && after[..|before|] == before
    ensures IsStageTable(after[|before|..], run, stages, now)
  {
    assert names[..|names|] == names;
    assert NamesOf(RowsFor(run, names, stages, now)) == names;
    assert after[|before|..] == RowsFor(run, names, stages, now);
  }

  lemma WrittenIsCutShort(before: seq<StageRow>, after: seq<StageRow>, run: RunId, names: seq<string>,
                          stages: map<string, StageInfo>, now: Time, written: nat)
    requires Ascending(names) && forall n :: n in names <==> n in stages
    requires written < |names| && IsWritten(before, after, run, names, stages, now, written)
    ensures |before| <= |after| && after[..|before|] == before
    ensures IsCutShort(before, after[|before|..], run, stages, now, names[written])
  {
    var stuck, front, rows := names[written], names[..written], after[|before|..];
    var bare := NewRow(run, stuck, written, stages[stuck].status, NO_INPUT);
    assert rows == RowsFor(run, front, stages, now) + [bare];
    assert rows[..|rows| - 1] == RowsFor(run, front, stages, now);
    FrontIsStageTable(run, names, stages, now, written);
    forall n | n in stages && Less(n, stuck) ensures !Clashes(before, run, n, stages[n]) {
      FrontHasTheLess(names, stages, written, n);
      var k :| 0 <= k < |front| && front[k] == n;
      assert names[k] == n;
    }
  }

  lemma FrontHasTheLess(names: seq<string>, stages: map<string, StageInfo>, written: nat, n: string)
    requires Ascending(names) && forall n :: n in names <==> n in stages
    requires written < |names|
    ensures n in names[..written] <==> n in stages && Less(n, names[written])
  {
    if n in stages {
      var k :| 0 <= k < |names| && names[k] == n;
      Trichotomy(n, names[written]);
      assert k < written ==> names[..written][k] == n;
    }
  }

  lemma FrontIsStageTable(run: RunId, names: seq<string>, stages: map<string, StageInfo>, now: Time, written: nat)
    requires Ascending(names) && forall n :: n in names <==> n in stages
    requires written < |names|
    ensures IsStageTable(RowsFor(run, names[..written], stages, now), run, Before(stages, names[written]), now)
  {
    var front := names[..written];
    forall n ensures n in front <==> n in Before(stages, names[written]) {
      FrontHasTheLess(names, stages, written, n);
    }
    assert NamesOf(RowsFor(run, front, stages, now)) == front;
    assert Elements(front) == Before(stages, names[written]).Keys;
  }

  function RowsFor(run: RunId, names: seq<string>, stages: map<string, StageInfo>, now: Time): (rows: seq<StageRow>)
    requires forall n :: n in names ==> n in stages
    ensures |rows| == |names|
  {
    seq(|names|, i requires 0 <= i < |names| => RowFor(run, names[i], i, stages[names[i]], now))
  }

  lemma RowsForStep(run: RunId, names: seq<string>, stages: map<string, StageInfo>, now: Time, i: nat)
    requires i < |names| && Ascending(names) && forall n :: n in names ==> n in stages
    ensures RowsFor(run, names[..i + 1], stages, now)
         == RowsFor(run, names[..i], stages, now) + [RowFor(run, names[i], i, stages[names[i]], now)]
    ensures forall k :: 0 <= k < i ==> !Matches(RowsFor(run, names[..i], stages, now)[k], run, names[i])
  {
    forall k | 0 <= k < i ensures names[k] != names[i] {
      Trichotomy(names[k], names[i]);
    }
  }

  /** No node clashes with a row of this very writing, as no name comes twice. */
  lemma ClashesOnlyBefore(before: seq<StageRow>, run: RunId, names: seq<string>, stages: map<string, StageInfo>,
                          now: Time, i: nat)
    requires i < |names| && Ascending(names) && forall n :: n in names ==> n in stages
    ensures Clashes(before + RowsFor(run, names[..i], stages, now), run, names[i], stages[names[i]])
       <==> Clashes(before, run, names[i], stages[names[i]])
  {
    RowsForStep(run, names, stages, now, i);
    var rows := before + RowsFor(run, names[..i], stages, now);
    forall k | |before| <= k < |rows| ensures !Matches(rows[k], run, names[i]) {
      assert rows[k] == RowsFor(run, names[..i], stages, now)[k - |before|];
    }
    if k :| 0 <= k < |before| && Matches(before[k], run, names[i]) {
      assert rows[k] == before[k];
    }
  }

  /** The first loop of `_persist_stages`. */
  method TrackEvents(events: seq<StageEvent>) returns (stages: map<string, StageInfo>)
    ensures stages == Tracked(events)
  {
    stages := map[];
    for i := 0 to |events|
      invariant stages == Tracked(events[..i])
    {
      assert events[..i + 1][..i] == events[..i];
      var e := events[i];
      if !IsTool(e.node) {
        if e.node !in stages {
          stages := stages[e.node := StageInfo(Pending, None, None)];
        }
        stages := stages[e.node := Note(stages[e.node], e.phase)];
      }
    }
    assert events[..|events|] == events;
  }

  // ---- from calls to rows ----------------------------------------------------

  predicate IsChainCall(c: Call) {
    c.ChainStart? || c.ChainEnd? || c.ChainError?
  }

  /** The first chain call after a node's last start says what became of the node. */
  datatype Verdict = Unfinished | EndedWith(outputs: Json) | FailedWith(message: string)

  function VerdictOf(after: seq<Call>): Verdict {
    if after == [] then Unfinished
    else match after[0]
         case ChainStart(_) => Unfinished
         case ChainEnd(outputs) => EndedWith(outputs)
         case ChainError(message) => FailedWith(message)
         case _ => VerdictOf(after[1..])
  }

  ghost predicate HasChainCall(calls: seq<Call>) {
    exists i :: 0 <= i < |calls| && IsChainCall(calls[i])
  }

  lemma {:induction false} VerdictAppend(after: seq<Call>, c: Call)
    ensures VerdictOf(after + [c]) == if HasChainCall(after) then VerdictOf(after) else VerdictOf([c])
  {
    if after == [] {
      assert after + [c] == [c];
    } else {
      VerdictAppend(after[1..], c);
      assert (after + [c])[1..] == after[1..] + [c];
      if HasChainCall(after) && !IsChainCall(after[0]) {
        var i :| 0 <= i < |after| && IsChainCall(after[i]);
        assert IsChainCall(after[1..][i - 1]);
      }
      if HasChainCall(after[1..]) {
        var i :| 0 <= i < |after[1..]| && IsChainCall(after[1..][i]);
        assert IsChainCall(after[i + 1]);
      }
    }
  }

  function Stages(calls: seq<Call>): map<string, StageInfo> {
    Tracked(Replay(calls).events)
  }

  function TrackCall(current: Option<string>, stages: map<string, StageInfo>, c: Call): map<string, StageInfo> {
    match Emitted(current, c) case Some(e) => Track(stages, e) case None => stages
  }

  lemma TrackedAppend(events: seq<StageEvent>, e: StageEvent)
    ensures Tracked(events + [e]) == Track(Tracked(events), e)
  {
  }

  /** The fold over the buffer can be done call by call. */
  lemma StagesAppend(calls: seq<Call>, c: Call)
    ensures Replay(calls + [c]).current == NextCurrent(Replay(calls).current, c)
    ensures Stages(calls + [c]) == TrackCall(Replay(calls).current, Stages(calls), c)
  {
    assert (calls + [c])[..|calls|] == calls;
    var b := Replay(calls);
    var emitted := Emitted(b.current, c);
    assert Replay(calls + [c]) == Handle(b, c);
    if emitted.Some? {
      TrackedAppend(b.events, emitted.value);
      assert Handle(b, c).events == b.events + [emitted.value];
    } else {
      assert Handle(b, c).events == b.events;
    }
  }

  predicate Shows(info: StageInfo, v: Verdict) {
    match v
    case Unfinished => info.status == Executing
    case EndedWith(outputs) => info.status == Completed && info.output == Some(outputs)
    case FailedWith(message) => info.status == Failed && info.error == Some(message)
  }

  /** `node` has started; `closed` says whether a chain call came after that start. */
  predicate Follows(current: Option<string>, stages: map<string, StageInfo>, node: string, closed: bool, v: Verdict) {
    (current == Some(node) <==> !closed) && node in stages && Shows(stages[node], v)
  }

  lemma FollowsStep(current: Option<string>, stages: map<string, StageInfo>, node: string, closed: bool, v: Verdict,
                    c: Call)
    requires Follows(current, stages, node, closed, v) && !IsTool(node) && c != ChainStart(node)
    requires !closed ==> v == Unfinished
    ensures Follows(NextCurrent(current, c), TrackCall(current, stages, c), node, closed || IsChainCall(c),
                    if closed then v else VerdictOf([c]))
  {
    assert c.ToolStart? ==> IsTool("tool:" + c.tool);
    assert [c][1..] == [];
    var e := Emitted(current, c);
    if closed {
      assert e.Some? ==> e.value.node != node;
    } else if c.ChainEnd? {
      assert e == Some(StageEvent(node, Finished(c.outputs)));
      assert VerdictOf([c]) == EndedWith(c.outputs);
    } else if c.ChainError? {
      assert e == Some(StageEvent(node, Errored(c.message)));
      assert VerdictOf([c]) == FailedWith(c.message);
    } else {
      assert VerdictOf([c][1..]) == Unfinished;
    }
  }

  lemma HasChainCallAppend(calls: seq<Call>, c: Call)
    ensures HasChainCall(calls + [c]) <==> HasChainCall(calls) || IsChainCall(c)
  {
    assert (calls + [c])[|calls|] == c;
    assert forall i :: 0 <= i < |calls| ==> (calls + [c])[i] == calls[i];
  }

  lemma {:induction false} NoChainCallNoVerdict(calls: seq<Call>)
    requires !HasChainCall(calls)
    ensures VerdictOf(calls) == Unfinished
  {
    if calls != [] {
      assert !IsChainCall(calls[0]);
      forall i | 0 <= i < |calls[1..]| ensures !IsChainCall(calls[1..][i]) {
        assert calls[1..][i] == calls[i + 1];
      }
      NoChainCallNoVerdict(calls[1..]);
    }
  }

  /** The status of a node, and the output or error that goes with it, are settled by the first chain call after its
      last start. */
  lemma {:induction false} VerdictDecidesStage(before: seq<Call>, node: string, after: seq<Call>)
    requires !IsTool(node) && ChainStart(node) !in after
    ensures var calls := before + [ChainStart(node)] + after;
            Follows(Replay(calls).current, Stages(calls), node, HasChainCall(after), VerdictOf(after))
  {
    var start := before + [ChainStart(node)];
    if after == [] {
      assert start + after == start;
      StagesAppend(before, ChainStart(node));
    } else {
      var front, c := after[..|after| - 1], after[|after| - 1];
      assert after == front + [c] && c in after;
      VerdictDecidesStage(before, node, front);
      VerdictAppend(front, c);
      HasChainCallAppend(front, c);
      assert start + after == start + front + [c];
      StagesAppend(start + front, c);
      if !HasChainCall(front) {
        NoChainCallNoVerdict(front);
      }
      FollowsStep(Replay(start + front).current, Stages(start + front), node, HasChainCall(front), VerdictOf(front), c);
    }
  }

  ghost predicate StartedNodes(current: Option<string>, stages: map<string, StageInfo>, calls: seq<Call>) {
    && (forall node :: node in stages <==> !IsTool(node) && ChainStart(node) in calls)
    && (forall node :: node in stages ==> stages[node].status != Pending)
    && (current.Some? ==> ChainStart(current.value) in calls)
  }

  lemma StartedNodesStep(current: Option<string>, stages: map<string, StageInfo>, calls: seq<Call>, c: Call)
    requires StartedNodes(current, stages, calls)
    ensures StartedNodes(NextCurrent(current, c), TrackCall(current, stages, c), calls + [c])
  {
  }

  /** The tracked nodes are exactly the chains started, tools aside, and none is pending. */
  lemma {:induction false} TrackedNodes(calls: seq<Call>)
    ensures StartedNodes(Replay(calls).current, Stages(calls), calls)
  {
    if calls != [] {
      var front, c := calls[..|calls| - 1], calls[|calls| - 1];
      TrackedNodes(front);
      assert calls == front + [c];
      StagesAppend(front, c);
      StartedNodesStep(Replay(front).current, Stages(front), front, c);
    }
  }

  /** Which nodes have a row, in which order, and that no row is pending or half finished. */
  lemma StageTableOfCalls(calls: seq<Call>, rows: seq<StageRow>, run: RunId, now: Time)
    requires IsStageTable(rows, run, Stages(calls), now)
    ensures forall i, j :: 0 <= i < j < |rows| ==> Less(rows[i].name, rows[j].name)
    ensures forall i :: 0 <= i < |rows| ==> rows[i].run == run && rows[i].order == i
    ensures forall node :: node in NamesOf(rows) <==> !("tool:" <= node) && ChainStart(node) in calls
    ensures forall i :: 0 <= i < |rows| ==> rows[i].input == Some("{}") && rows[i].durationMs == None
    ensures forall i :: 0 <= i < |rows| ==> rows[i].status != Pending
    ensures forall i :: 0 <= i < |rows| ==>
              rows[i].finishedAt == if rows[i].status == Executing then None else Some(now)
  {
    TrackedNodes(calls);
    var names := NamesOf(rows);
    forall i, j | 0 <= i < j < |rows| ensures Less(rows[i].name, rows[j].name) {
      assert Less(names[i], names[j]);
    }
    forall node ensures node in names <==> node in Stages(calls) {
      assert node in Elements(names) <==> node in names;
    }
  }

  // ---- a node that runs several times ----------------------------------------

  /** The verdict of the node's last occurrence that ended (or, if `failed`, that failed); unfinished if none did. */
  function Last(calls: seq<Call>, node: string, failed: bool): Verdict {
    if calls == [] then Unfinished
    else if Last(calls[1..], node, failed) != Unfinished then Last(calls[1..], node, failed)
    else if calls[0] == ChainStart(node) && Counts(VerdictOf(calls[1..]), failed) then VerdictOf(calls[1..])
    else Unfinished
  }

  predicate Counts(v: Verdict, failed: bool) {
    if failed then v.FailedWith? else v.EndedWith?
  }

  /** Occurrence `i` of the node has the verdict `v`. */
  ghost predicate Occurs(calls: seq<Call>, node: string, i: nat, v: Verdict) {
    i < |calls| && calls[i] == ChainStart(node) && VerdictOf(calls[i + 1..]) == v
  }

  /** No occurrence of the node ever failed (or ended). */
  ghost predicate Never(calls: seq<Call>, node: string, failed: bool) {
    forall i: nat, v :: Occurs(calls, node, i, v) ==> !Counts(v, failed)
  }

  lemma OccursInTail(calls: seq<Call>, node: string, i: nat, v: Verdict)
    requires calls != []
    ensures Occurs(calls[1..], node, i, v) <==> Occurs(calls, node, i + 1, v)
  {
    assert i < |calls[1..]| ==> calls[1..][i + 1..] == calls[i + 2..];
  }

  lemma {:induction false} LastIsLastOccurrence(calls: seq<Call>, node: string, failed: bool)
    ensures match Last(calls, node, failed)
            case Unfinished => Never(calls, node, failed)
            case v =>
              && Counts(v, failed)
              && exists i: nat :: Occurs(calls, node, i, v)
                   && forall j: nat, w :: i < j && Occurs(calls, node, j, w) ==> !Counts(w, failed)
  {
    if calls != [] {
      var tail := calls[1..];
      LastIsLastOccurrence(tail, node, failed);
      if Last(tail, node, failed) != Unfinished {
        var v := Last(tail, node, failed);
        var i: nat :| Occurs(tail, node, i, v)
                      && forall j: nat, w :: i < j && Occurs(tail, node, j, w) ==> !Counts(w, failed);
        OccursInTail(calls, node, i, v);
        forall j: nat, w | i + 1 < j && Occurs(calls, node, j, w) ensures !Counts(w, failed) {
          OccursInTail(calls, node, j - 1, w);
        }
      } else {
        forall j: nat, w | 0 < j && Occurs(calls, node, j, w) ensures !Counts(w, failed) {
          OccursInTail(calls, node, j - 1, w);
        }
        if Last(calls, node, failed) != Unfinished {
          assert Occurs(calls, node, 0, VerdictOf(tail));
        }
      }
    }
  }

  /** The chain that is open after the calls: the last chain call, if it is a start. */
  function Open(calls: seq<Call>): Option<string> {
    if calls == [] then None
    else NextCurrent(Open(calls[..|calls| - 1]), calls[|calls| - 1])
  }

  lemma {:induction false} OpenNeedsChainCall(calls: seq<Call>, x: Call)
    ensures !HasChainCall(calls) ==> Open([x] + calls) == (if x.ChainStart? then Some(x.name) else None)
    ensures HasChainCall(calls) ==> Open([x] + calls) == Open(calls)
  {
    var whole := [x] + calls;
    if calls != [] {
      var front, c := calls[..|calls| - 1], calls[|calls| - 1];
      assert calls == front + [c];
      HasChainCallAppend(front, c);
      OpenNeedsChainCall(front, x);
      assert whole[..|whole| - 1] == [x] + front && whole[|whole| - 1] == c;
    } else {
      assert whole[..0] == [];
    }
  }

  /** One more call closes the open occurrence, or changes nothing. */
  lemma {:induction false} LastAppend(calls: seq<Call>, c: Call, node: string, failed: bool)
    ensures Last(calls + [c], node, failed)
         == if Open(calls) == Some(node) && Counts(VerdictOf([c]), failed) then VerdictOf([c])
            else Last(calls, node, failed)
  {
    assert VerdictOf([c]) != Unfinished ==> !c.ChainStart?;
    if calls == [] {
      assert ([] + [c]) == [c] && [c][1..] == [];
    } else {
      var tail := calls[1..];
      assert (calls + [c])[1..] == tail + [c];
      assert calls == [calls[0]] + tail;
      LastAppend(tail, c, node, failed);
      VerdictAppend(tail, c);
      OpenNeedsChainCall(tail, calls[0]);
      if !HasChainCall(tail) {
        NoChainCallNoVerdict(tail);
        NothingHappened(tail, node, failed);
      }
    }
  }

  lemma {:induction false} NothingHappened(calls: seq<Call>, node: string, failed: bool)
    requires !HasChainCall(calls)
    ensures Last(calls, node, failed) == Unfinished && Open(calls) == None
  {
    if calls != [] {
      assert !IsChainCall(calls[0]) && !IsChainCall(calls[|calls| - 1]);
      assert !HasChainCall(calls[1..]);
      assert !HasChainCall(calls[..|calls| - 1]);
      NothingHappened(calls[1..], node, failed);
      NothingHappened(calls[..|calls| - 1], node, failed);
    }
  }

  function OutputOf(v: Verdict): Option<Json> {
    if v.EndedWith? then Some(v.outputs) else None
  }

  function ErrorOf(v: Verdict): Option<string> {
    if v.FailedWith? then Some(v.message) else None
  }

  /** What a node's record must show of its history. */
  ghost predicate Remembers(stages: map<string, StageInfo>, node: string, ended: Verdict, failed: Verdict) {
    if node in stages then stages[node].output == OutputOf(ended) && stages[node].error == ErrorOf(failed)
    else ended == failed == Unfinished
  }

  lemma RemembersStep(current: Option<string>, stages: map<string, StageInfo>, node: string, ended: Verdict,
                      failed: Verdict, c: Call)
    requires !IsTool(node) && Remembers(stages, node, ended, failed) && (current == Some(node) ==> node in stages)
    ensures var v := VerdictOf([c]);
            Remembers(TrackCall(current, stages, c), node,
                      if current == Some(node) && Counts(v, false) then v else ended,
                      if current == Some(node) && Counts(v, true) then v else failed)
  {
    assert [c][1..] == [];
    assert c.ToolStart? ==> IsTool("tool:" + c.tool);
  }

  /** Over any calls, a node's output is that of its last occurrence that ended, and its error that of its last
      occurrence that failed, whichever came later. */
  lemma {:induction false} HistoryDecidesOutputAndError(calls: seq<Call>, node: string)
    requires !IsTool(node)
    ensures Replay(calls).current == Open(calls)
    ensures Remembers(Stages(calls), node, Last(calls, node, false), Last(calls, node, true))
  {
    if calls != [] {
      var front, c := calls[..|calls| - 1], calls[|calls| - 1];
      assert calls == front + [c];
      HistoryDecidesOutputAndError(front, node);
      StagesAppend(front, c);
      TrackedNodes(front);
      LastAppend(front, c, node, false);
      LastAppend(front, c, node, true);
      RemembersStep(Replay(front).current, Stages(front), node, Last(front, node, false), Last(front, node, true), c);
    }
  }

  /** So does its row, unless the node is still executing and shows neither. A completed row is free of errors exactly
      when no occurrence of the node ever failed, and a failed row of output exactly when none ever ended. */
  lemma RowShowsHistory(calls: seq<Call>, rows: seq<StageRow>, run: RunId, now: Time, i: nat)
    requires IsStageTable(rows, run, Stages(calls), now) && i < |rows|
    ensures rows[i].status == Executing ==> rows[i].output == None && rows[i].error == None
    ensures rows[i].status != Executing ==>
              && rows[i].output == OutputOf(Last(calls, rows[i].name, false))
              && rows[i].error == ErrorOf(Last(calls, rows[i].name, true))
    ensures rows[i].status == Completed ==> (rows[i].error == None <==> Never(calls, rows[i].name, true))
    ensures rows[i].status == Failed ==> (rows[i].output == None <==> Never(calls, rows[i].name, false))
  {
    var node := rows[i].name;
    TrackedNodes(calls);
    HistoryDecidesOutputAndError(calls, node);
    LastIsLastOccurrence(calls, node, false);
    LastIsLastOccurrence(calls, node, true);
  }

  /** What the row of a node says, read off the calls: its status, output and error, with what earlier occurrences of
      the node have left. */
  lemma StageRowOfCalls(before: seq<Call>, node: string, after: seq<Call>, rows: seq<StageRow>, run: RunId, now: Time)
    requires !IsTool(node) && ChainStart(node) !in after
    requires IsStageTable(rows, run, Stages(before + [ChainStart(node)] + after), now)
    ensures var calls := before + [ChainStart(node)] + after;
            exists i :: 0 <= i < |rows| && rows[i].name == node
              && match VerdictOf(after)
                 case Unfinished => rows[i].status == Executing && rows[i].output == None && rows[i].error == None
                 case EndedWith(outputs) =>
                   && rows[i].status == Completed && rows[i].output == Some(outputs)
                   && rows[i].error == ErrorOf(Last(calls, node, true))
                 case FailedWith(message) =>
                   && rows[i].status == Failed && rows[i].error == Some(message)
                   && rows[i].output == OutputOf(Last(calls, node, false))
  {
    var calls := before + [ChainStart(node)] + after;
    VerdictDecidesStage(before, node, after);
    assert node in Elements(NamesOf(rows));
    var i :| 0 <= i < |rows| && NamesOf(rows)[i] == node;
    assert rows[i] == RowFor(run, node, i, Stages(calls)[node], now);
    RowShowsHistory(calls, rows, run, now, i);
  }

  /** A start and the call that closes it, on the records alone. */
  lemma OccurrenceOnRecords(before: seq<Call>, node: string, c: Call)
    ensures Stages(before + [ChainStart(node)] + [c])
         == TrackCall(Some(node), TrackCall(Replay(before).current, Stages(before), ChainStart(node)), c)
  {
    StagesAppend(before, ChainStart(node));
    StagesAppend(before + [ChainStart(node)], c);
  }

  lemma RecordOfOccurrence(current: Option<string>, stages: map<string, StageInfo>, node: string, c: Call)
    requires !IsTool(node) && (c.ChainEnd? || c.ChainError?)
    ensures var after := TrackCall(Some(node), TrackCall(current, stages, ChainStart(node)), c);
            && node in after
            && (c.ChainError? ==> after[node].error == Some(c.message))
            && (c.ChainEnd? && node in stages ==>
                  after[node] == StageInfo(Completed, Some(c.outputs), stages[node].error))
  {
    var started := TrackCall(current, stages, ChainStart(node));
    assert node in started && (node in stages ==> started[node] == stages[node].(status := Executing));
  }

  /** A node that failed and then ended is shown completed, with the error of its first try. */
  lemma RetriedNodeKeepsItsError(before: seq<Call>, node: string, message: string, outputs: Json)
    requires !IsTool(node)
    ensures var failed := before + [ChainStart(node)] + [ChainError(message)];
            var stages := Stages(failed + [ChainStart(node)] + [ChainEnd(outputs)]);
            node in stages && stages[node] == StageInfo(Completed, Some(outputs), Some(message))
  {
    var failed := before + [ChainStart(node)] + [ChainError(message)];
    OccurrenceOnRecords(before, node, ChainError(message));
    RecordOfOccurrence(Replay(before).current, Stages(before), node, ChainError(message));
    OccurrenceOnRecords(failed, node, ChainEnd(outputs));
    RecordOfOccurrence(Replay(failed).current, Stages(failed), node, ChainEnd(outputs));
  }

  /** A chain that starts another chain is never seen to end: its own end call arrives when
      the inner chain has already been closed and no chain is current. */
  lemma OuterChainStaysExecuting(outer: string, inner: string, a: Json, b: Json, rows: seq<StageRow>, run: RunId,
                                 now: Time)
    requires outer != inner && !IsTool(outer)
    requires IsStageTable(rows, run,
               Stages([] + [ChainStart(outer)] + [ChainStart(inner), ChainEnd(a), ChainEnd(b)]), now)
    ensures exists i :: 0 <= i < |rows| && rows[i].name == outer && rows[i].status == Executing
  {
    StageRowOfCalls([], outer, [ChainStart(inner), ChainEnd(a), ChainEnd(b)], rows, run, now);
  }
}
