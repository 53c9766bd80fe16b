/**
 * Retrying a pipeline run: the error classifier (backend/workflows/error_classifier.py), the
 * inner executor that streams a graph under a cancellation flag (backend/workflows/executor.py)
 * and the retry loop with capped exponential backoff (backend/workflows/retry_executor.py).
 */
module ErrorClassifier {

  datatype Category = Transient | Permanent

  const PERMANENT_PATTERNS: seq<string> := [
    "valueerror", "keyerror", "typeerror", "attributeerror", "authenticationerror",
    "permissiondenied", "invalid", "not found", "400", "401", "403", "404"]

  const TRANSIENT_PATTERNS: seq<string> := [
    "timeout", "timed out", "connection refused", "connection reset", "connection error",
    "rate limit", "throttl", "503", "504", "service unavailable", "gateway timeout"]

  /** `str.lower` on ASCII letters. */
  function LowerChar(c: char): char {
    if 'A' <= c <= 'Z' then (c as int + 32) as char else c
  }

  function Lower(s: string): string {
    seq(|s|, i requires 0 <= i < |s| => LowerChar(s[i]))
  }

  predicate OccursAt(text: string, pattern: string, i: nat) {
    i + |pattern| <= |text| && text[i..i + |pattern|] == pattern
  }

  predicate Contains(text: string, pattern: string) {
    exists i :: 0 <= i <= |text| && OccursAt(text, pattern, i)
  }

  /** The scan of a pattern list: does any pattern occur in the text? */
  predicate AnyOccurs(patterns: seq<string>, text: string) {
    patterns != [] && (Contains(text, patterns[0]) || AnyOccurs(patterns[1..], text))
  }

  function ClassifyError(message: string): Category {
    var lower := Lower(message);
    if AnyOccurs(PERMANENT_PATTERNS, lower) then Permanent
    else if AnyOccurs(TRANSIENT_PATTERNS, lower) then Transient
    else Permanent
  }

  lemma {:induction false} AnyOccursMeans(patterns: seq<string>, text: string)
    ensures AnyOccurs(patterns, text) <==> exists p :: p in patterns && Contains(text, p)
  {
    if patterns != [] {
      AnyOccursMeans(patterns[1..], text);
      assert forall p :: p in patterns <==> p == patterns[0] || p in patterns[1..];
    }
  }

  lemma LowerIsByCharacter(s: string)
    ensures |Lower(s)| == |s|
    ensures forall i :: 0 <= i < |s| ==>
              Lower(s)[i] == if 'A' <= s[i] <= 'Z' then (s[i] as int - 'A' as int + 'a' as int) as char else s[i]
  {
  }

  lemma ContainsMeans(text: string, pattern: string)
    ensures Contains(text, pattern) <==> exists front, back :: text == front + pattern + back
  {
    if Contains(text, pattern) {
      var i :| 0 <= i <= |text| && OccursAt(text, pattern, i);
      assert text == text[..i] + pattern + text[i + |pattern|..];
    }
    if front, back :| text == front + pattern + back {
      assert text[|front|..|front| + |pattern|] == pattern;
      assert OccursAt(text, pattern, |front|);
    }
  }

  /** A message is retried exactly when some transient pattern occurs in it, in whatever case, and no permanent one; so
      one without any pattern is not. */
  lemma TransientExactly(message: string)
    ensures ClassifyError(message) == Transient <==>
              && (exists p :: p in TRANSIENT_PATTERNS && exists front, back :: Lower(message) == front + p + back)
              && !(exists p :: p in PERMANENT_PATTERNS && exists front, back :: Lower(message) == front + p + back)
  {
    AnyOccursMeans(PERMANENT_PATTERNS, Lower(message));
    AnyOccursMeans(TRANSIENT_PATTERNS, Lower(message));
    forall p ensures Contains(Lower(message), p) <==> exists front, back :: Lower(message) == front + p + back {
      ContainsMeans(Lower(message), p);
    }
  }

  lemma OccursInContext(front: string, text: string, back: string, pattern: string, i: nat)
    requires OccursAt(text, pattern, i)
    ensures OccursAt(front + text + back, pattern, |front| + i)
  {
    var whole := front + text + back;
    forall k | 0 <= k < |pattern| ensures whole[|front| + i + k] == pattern[k] {
      assert text[i..i + |pattern|][k] == text[i + k];
    }
    assert whole[|front| + i..|front| + i + |pattern|] == pattern;
  }

  lemma ContainsInContext(before: string, text: string, after: string, pattern: string)
    requires Contains(Lower(text), pattern)
    ensures Contains(Lower(before + text + after), pattern)
  {
    var whole := Lower(before + text + after);
    assert whole == Lower(before) + Lower(text) + Lower(after);
    var i :| 0 <= i <= |Lower(text)| && OccursAt(Lower(text), pattern, i);
    OccursInContext(Lower(before), Lower(text), Lower(after), pattern, i);
    assert OccursAt(whole, pattern, |Lower(before)| + i);
  }

  /** Wrapping a message in more text never turns a permanent marker into a retry, and only
      a permanent marker can stop a transient one from being retried. */
  lemma WrappingAMessage(before: string, message: string, after: string)
    ensures AnyOccurs(PERMANENT_PATTERNS, Lower(message)) ==> ClassifyError(before + message + after) == Permanent
    ensures ClassifyError(message) == Transient ==>
              (ClassifyError(before + message + after) == Transient
               <==> forall p :: p in PERMANENT_PATTERNS ==> !Contains(Lower(before + message + after), p))
  {
    var whole := before + message + after;
    AnyOccursMeans(PERMANENT_PATTERNS, Lower(message));
    AnyOccursMeans(TRANSIENT_PATTERNS, Lower(message));
    AnyOccursMeans(PERMANENT_PATTERNS, Lower(whole));
    AnyOccursMeans(TRANSIENT_PATTERNS, Lower(whole));
    forall p | Contains(Lower(message), p) ensures Contains(Lower(whole), p) {
      ContainsInContext(before, message, after, p);
    }
  }
}

module Executor {
  import opened Wrappers

  /** What a graph step hands over: a dictionary of state updates, or something else. */
  datatype Chunk = Updates(fields: map<string, string>) | Opaque

  /** A graph: the items its stream yields, and how the stream ends. */
  datatype Graph = Graph(items: seq<Option<Chunk>>, failure: Option<string>)

  datatype RunResult = RunResult(
    status: string,
    outputPayload: Option<map<string, string>>,
    errorMessage: Option<string>,
    retryCount: nat)

  /** Items before the first look at the flag that finds it set. */
  function SeenItems(items: seq<Option<Chunk>>, cancelled: nat -> bool): (n: nat)
    ensures n <= |items|
    ensures forall k :: 0 <= k < n ==> !cancelled(k)
    ensures n < |items| ==> cancelled(n)
  {
    SeenFrom(items, cancelled, 0)
  }

  function SeenFrom(items: seq<Option<Chunk>>, cancelled: nat -> bool, i: nat): (n: nat)
    requires i <= |items|
    ensures i <= n <= |items|
    ensures forall k :: i <= k < n ==> !cancelled(k)
    ensures n < |items| ==> cancelled(n)
    decreases |items| - i
  {
    if i == |items| || cancelled(i) then i else SeenFrom(items, cancelled, i + 1)
  }

  function NonNull(items: seq<Option<Chunk>>): seq<Chunk> {
    if items == [] then []
    else NonNull(items[..|items| - 1]) + match items[|items| - 1] case Some(c) => [c] case None => []
  }

  lemma {:induction false} NonNullOfBoth(a: seq<Option<Chunk>>, b: seq<Option<Chunk>>)
    ensures NonNull(a + b) == NonNull(a) + NonNull(b)
  {
    if b == [] {
      assert a + b == a;
    } else {
      assert (a + b)[..|a + b| - 1] == a + b[..|b| - 1];
      NonNullOfBoth(a, b[..|b| - 1]);
    }
  }

  /** `from` names, in rising order, the items that are not null. */
  ghost predicate PicksNonNull(items: seq<Option<Chunk>>, from: seq<nat>) {
    && (forall i, j :: 0 <= i < j < |from| ==> from[i] < from[j])
    && (forall i :: 0 <= i < |from| ==> from[i] < |items|)
    && (forall k: nat :: k < |items| ==> (items[k].Some? <==> k in from))
  }

  lemma PicksOneMore(items: seq<Option<Chunk>>, before: seq<nat>)
    requires items != [] && PicksNonNull(items[..|items| - 1], before)
    ensures PicksNonNull(items, if items[|items| - 1].Some? then before + [|items| - 1] else before)
  {
  }

  /** What is kept of the items is exactly those that are not null, in their order. */
  lemma {:induction false} NonNullIsSelection(items: seq<Option<Chunk>>) returns (from: seq<nat>)
    ensures PicksNonNull(items, from) && |NonNull(items)| == |from|
    ensures forall i :: 0 <= i < |from| ==> from[i] < |items| && items[from[i]] == Some(NonNull(items)[i])
  {
    from := [];
    if items != [] {
      var n := |items| - 1;
      var before := NonNullIsSelection(items[..n]);
      PicksOneMore(items, before);
      from := if items[n].Some? then before + [n] else before;
    }
  }

  /** `output.update(chunk)` over all chunks that are dictionaries. */
  function Merged(chunks: seq<Chunk>): map<string, string> {
    if chunks == [] then map[]
    else
      var before := Merged(chunks[..|chunks| - 1]);
      match chunks[|chunks| - 1] case Updates(fields) => before + fields case Opaque => before
  }

  /** Each key of the output has the value of the last chunk that sets it. */
  lemma {:induction false} MergedIsLastWriter(chunks: seq<Chunk>, key: string)
    ensures key in Merged(chunks) <==> exists c :: c in chunks && c.Updates? && key in c.fields
    ensures forall i :: 0 <= i < |chunks| && chunks[i].Updates? && key in chunks[i].fields
              && (forall j :: i < j < |chunks| && chunks[j].Updates? ==> key !in chunks[j].fields)
              ==> key in Merged(chunks) && Merged(chunks)[key] == chunks[i].fields[key]
  {
    if chunks != [] {
      var front, last := chunks[..|chunks| - 1], chunks[|chunks| - 1];
      MergedIsLastWriter(front, key);
      assert forall c :: c in chunks <==> c in front || c == last;
      forall i | 0 <= i < |front| && chunks[i].Updates? && key in chunks[i].fields
                 && forall j :: i < j < |chunks| && chunks[j].Updates? ==> key !in chunks[j].fields
        ensures key in Merged(front) && Merged(front)[key] == chunks[i].fields[key]
      {
        assert front[i] == chunks[i];
      }
    }
  }

  /** `_stream_with_cancel`: `None` when the stream raises before the flag is seen set. */
  method StreamWithCancel(graph: Graph, cancelled: nat -> bool) returns (chunks: seq<Chunk>, error: Option<string>)
    ensures var n := SeenItems(graph.items, cancelled);
            && chunks == NonNull(graph.items[..n])
            && error == (if n < |graph.items| then None else graph.failure)
  {
    chunks := [];
    var i := 0;
    while i < |graph.items|
      invariant 0 <= i <= |graph.items|
      invariant SeenItems(graph.items, cancelled) == SeenFrom(graph.items, cancelled, i)
      invariant chunks == NonNull(graph.items[..i])
    {
      if cancelled(i) {
        return chunks, None;
      }
      assert graph.items[..i + 1][..i] == graph.items[..i];
      match graph.items[i] {
        case Some(c) => chunks := chunks + [c];
        case None =>
      }
      i := i + 1;
    }
    error := graph.failure;
  }

  /** `_sync_execute_impl`: stream, then fold the chunks into one output. A run cut short by
      the flag is reported as completed, with the output of the items seen. */
  method SyncExecute(graph: Graph, cancelled: nat -> bool) returns (result: RunResult)
    ensures var n := SeenItems(graph.items, cancelled);
            result == if n == |graph.items| && graph.failure.Some?
                      then RunResult("failed", None, graph.failure, 0)
                      else RunResult("completed", Some(Merged(NonNull(graph.items[..n]))), None, 0)
  {
    var chunks, error := StreamWithCancel(graph, cancelled);
    if error.Some? {
      return RunResult("failed", None, error, 0);
    }
    var output: map<string, string> := map[];
    for i := 0 to |chunks|
      invariant output == Merged(chunks[..i])
    {
      assert chunks[..i + 1][..i] == chunks[..i];
      if chunks[i].Updates? {
        output := output + chunks[i].fields;
      }
    }
    assert chunks[..|chunks|] == chunks;
    result := RunResult("completed", Some(output), None, 0);
  }
}

module RetryExecutor {
  import opened Wrappers
  import opened ErrorClassifier
  import opened Executor

  /** One call of the inner executor: it raises, or it returns a result. */
  datatype Outcome = Raised(message: string) | Returned(result: RunResult)

  predicate TransientFailure(o: Outcome) {
    match o
    case Raised(message) => ClassifyError(message) == Transient
    case Returned(r) =>
      && r.status == "failed"
      && ClassifyError(if r.errorMessage.Some? then r.errorMessage.value else "") == Transient
  }

  /** The attempt that decides the run: the first from `attempt` on whose outcome is not a
      transient failure, or the last one allowed. */
  function Deciding(outcomes: nat -> Outcome, attempt: nat, max: nat): (n: nat)
    requires 1 <= attempt <= max
    ensures attempt <= n <= max
    ensures forall k: nat :: attempt <= k < n ==> TransientFailure(outcomes(k))
    ensures n < max ==> !TransientFailure(outcomes(n))
    decreases max - attempt
  {
    if attempt == max || !TransientFailure(outcomes(attempt)) then attempt
    else Deciding(outcomes, attempt + 1, max)
  }

  /** What the caller gets for the deciding outcome. */
  function Report(o: Outcome, retries: nat): RunResult {
    match o
    case Raised(message) => RunResult("failed", None, Some(message), retries)
    case Returned(r) =>
      if r.status == "completed" then RunResult("completed", r.outputPayload, None, retries)
      else RunResult(r.status, r.outputPayload, r.errorMessage, retries)
  }

  // ---- backoff ---------------------------------------------------------------

  function Pow2(n: nat): (p: nat)
    ensures p >= 1
  {
    if n == 0 then 1 else 2 * Pow2(n - 1)
  }

  function Min(a: nat, b: nat): nat {
    if a <= b then a else b
  }

  /** Pause after attempt `attempt` failed. */
  function Delay(base: nat, cap: nat, attempt: nat): nat
    requires attempt >= 1
  {
    Min(base * Pow2(attempt - 1), cap)
  }

  function Delays(base: nat, cap: nat, retries: nat): (d: seq<nat>)
    ensures |d| == retries
  {
    seq(retries, i requires 0 <= i < retries => Delay(base, cap, i + 1))
  }

  function Sum(d: seq<nat>): nat {
    if d == [] then 0 else Sum(d[..|d| - 1]) + d[|d| - 1]
  }

  lemma {:induction false} DelaysGrowBetweenBaseAndCap(base: nat, cap: nat, a: nat, b: nat)
    requires base <= cap && 1 <= a <= b
    ensures base <= Delay(base, cap, a) <= Delay(base, cap, b) <= cap
    decreases b
  {
    if a < b {
      DelaysGrowBetweenBaseAndCap(base, cap, a, b - 1);
      assert base * Pow2(b - 1) == 2 * (base * Pow2(b - 2));
    } else {
      assert base * 1 <= base * Pow2(a - 1);
    }
  }

  lemma FirstDelayIsBase(base: nat, cap: nat)
    requires base <= cap
    ensures Delay(base, cap, 1) == base
  {
    assert Pow2(0) == 1;
  }

  /** Each delay is twice the one before, up to the cap. */
  lemma DelayDoubles(base: nat, cap: nat, attempt: nat)
    requires attempt >= 1
    ensures var d := Delay(base, cap, attempt);
            Delay(base, cap, attempt + 1) == if 2 * d <= cap then 2 * d else cap
  {
    DoublingStep(base, Pow2(attempt - 1));
    assert Pow2(attempt) == 2 * Pow2(attempt - 1);
  }

  lemma SumDelaysStep(base: nat, cap: nat, r: nat)
    requires r > 0
    ensures Sum(Delays(base, cap, r)) == Sum(Delays(base, cap, r - 1)) + Delay(base, cap, r)
  {
    assert Delays(base, cap, r)[..r - 1] == Delays(base, cap, r - 1);
  }

  lemma DoublingStep(base: nat, p: nat)
    requires p >= 1
    ensures base * (2 * p - 1) == base * (p - 1) + base * p
    ensures base * (2 * p) == 2 * (base * p)
  {
  }

  lemma {:induction false} TotalDelayUnderCap(base: nat, cap: nat, r: nat)
    ensures Sum(Delays(base, cap, r)) <= r * cap
  {
    if r > 0 {
      TotalDelayUnderCap(base, cap, r - 1);
      SumDelaysStep(base, cap, r);
      assert r * cap == (r - 1) * cap + cap;
    }
  }

  /** The wait of a run with `r` retries never exceeds the plain geometric sum, and reaches
      it exactly as long as the cap has not cut a delay. */
  lemma {:induction false} TotalDelayUnderGeometricSum(base: nat, cap: nat, r: nat)
    ensures Sum(Delays(base, cap, r)) <= base * (Pow2(r) - 1)
    ensures r > 0 ==> (Sum(Delays(base, cap, r)) == base * (Pow2(r) - 1) <==> base * Pow2(r - 1) <= cap)
  {
    if r > 0 {
      TotalDelayUnderGeometricSum(base, cap, r - 1);
      SumDelaysStep(base, cap, r);
      DoublingStep(base, Pow2(r - 1));
      if r > 1 {
        DoublingStep(base, Pow2(r - 2));
      }
    }
  }

  // ---- the retry loop --------------------------------------------------------

  datatype Result<T> = Ok(value: T) | ValueError(message: string)

  datatype Config = Config(maxAttempts: nat, baseDelayMs: nat, maxDelayMs: nat)

  predicate Usable(c: Config) {
    c.maxAttempts >= 1 && c.baseDelayMs <= c.maxDelayMs
  }

  /** The checks of `RetryExecutor.__init__`. */
  function Configure(maxAttempts: int, baseDelayMs: int, maxDelayMs: int): (r: Result<Config>)
    ensures r.Ok? <==> maxAttempts >= 1 && 0 <= baseDelayMs <= maxDelayMs
    ensures r.Ok? ==> Usable(r.value) && r.value == Config(maxAttempts, baseDelayMs, maxDelayMs)
  {
    if maxAttempts < 1 then ValueError("max_attempts must be >= 1")
    else if baseDelayMs < 0 then ValueError("base_delay_ms must be >= 0")
    else if maxDelayMs < baseDelayMs then ValueError("max_delay_ms must be >= base_delay_ms")
    else Ok(Config(maxAttempts, baseDelayMs, maxDelayMs))
  }

  function Count(metric: map<nat, nat>, bucket: nat): nat {
    if bucket in metric then metric[bucket] else 0
  }

  /** The label of `agent_run_retries_total` is capped at three. */
  function RecordRetry(metric: map<nat, nat>, retries: nat): map<nat, nat> {
    metric[Min(retries, 3) := Count(metric, Min(retries, 3)) + 1]
  }

  function RecordRetries(metric: map<nat, nat>, retries: nat): map<nat, nat> {
    if retries == 0 then metric else RecordRetry(RecordRetries(metric, retries - 1), retries)
  }

  /** The counter grows by the number of retries: one under label 1, one under 2, the rest
      under 3, nothing elsewhere. */
  lemma {:induction false} MetricGrowsByRetries(metric: map<nat, nat>, retries: nat)
    ensures var m := RecordRetries(metric, retries);
            && Count(m, 1) == Count(metric, 1) + Min(retries, 1)
            && Count(m, 2) == Count(metric, 2) + Min(retries, 2) - Min(retries, 1)
            && Count(m, 3) == Count(metric, 3) + retries - Min(retries, 2)
            && forall b: nat :: b !in {1, 2, 3} ==> Count(m, b) == Count(metric, b)
  {
    if retries > 0 {
      MetricGrowsByRetries(metric, retries - 1);
    }
  }

  lemma DelaysGrowByOne(base: nat, cap: nat, attempt: nat)
    requires attempt >= 1
    ensures Delays(base, cap, attempt) == Delays(base, cap, attempt - 1) + [Delay(base, cap, attempt)]
  {
  }

  class Retrier {
    const config: Config
    var innerCalls: nat
    var slept: seq<nat>
    var retryMetric: map<nat, nat>

    constructor (config: Config)
      requires Usable(config)
      ensures this.config == config && innerCalls == 0 && slept == [] && retryMetric == map[]
    {
      this.config := config;
      innerCalls, slept, retryMetric := 0, [], map[];
    }

    /** The waits and metric increments of `retries` retries, on top of what was there before. */
    ghost predicate Paused(slept0: seq<nat>, metric0: map<nat, nat>, retries: nat)
      reads this
    {
      && slept == slept0 + Delays(config.baseDelayMs, config.maxDelayMs, retries)
      && retryMetric == RecordRetries(metric0, retries)
    }

    /** Sleep after attempt `attempt`, count the retry, record it. */
    method Pause(attempt: nat, retries: nat, ghost slept0: seq<nat>, ghost metric0: map<nat, nat>) returns (more: nat)
      requires attempt == retries + 1 && Paused(slept0, metric0, retries)
      modifies this`slept, this`retryMetric
      ensures more == retries + 1 && Paused(slept0, metric0, more)
    {
      slept := slept + [Min(config.baseDelayMs * Pow2(attempt - 1), config.maxDelayMs)];
      more := retries + 1;
      retryMetric := RecordRetry(retryMetric, more);
      DelaysGrowByOne(config.baseDelayMs, config.maxDelayMs, attempt);
    }

    /**
     * `execute`. The inner executor is called once for every attempt up to the deciding one;
     * its outcome is reported with the number of retries, and between attempts the loop waits.
     */
    method Execute(outcomes: nat -> Outcome) returns (result: RunResult)
      requires Usable(config)
      modifies this
      ensures var n := Deciding(outcomes, 1, config.maxAttempts);
              && result == Report(outcomes(n), n - 1)
              && innerCalls == old(innerCalls) + n
              && Paused(old(slept), old(retryMetric), n - 1)
    {
      ghost var slept0, metric0 := slept, retryMetric;
      ghost var n := Deciding(outcomes, 1, config.maxAttempts);
      var lastResult: Option<RunResult> := None;
      var actualRetries := 0;
      var attempt := 1;
      while attempt <= config.maxAttempts
        invariant 1 <= attempt <= config.maxAttempts + 1
        invariant attempt <= config.maxAttempts ==> attempt <= n && actualRetries == attempt - 1
        invariant attempt > config.maxAttempts ==>
                    && n == config.maxAttempts && actualRetries == n - 1
                    && outcomes(n).Returned? && outcomes(n).result.status == "failed"
                    && lastResult == Some(outcomes(n).result)
        invariant innerCalls == old(innerCalls) + attempt - 1
        invariant Paused(slept0, metric0, actualRetries)
      {
        var outcome := outcomes(attempt);
        innerCalls := innerCalls + 1;
        assert attempt < n ==> TransientFailure(outcome);
        if outcome.Raised? {
          if ClassifyError(outcome.message) == Transient && attempt < config.maxAttempts {
            actualRetries := Pause(attempt, actualRetries, slept0, metric0);
          } else {
            return RunResult("failed", None, Some(outcome.message), actualRetries);
          }
        } else {
          var r := outcome.result;
          lastResult := Some(r);
          if r.status == "completed" {
            return RunResult("completed", r.outputPayload, None, actualRetries);
          }
          if r.status != "failed" {
            return RunResult(r.status, r.outputPayload, r.errorMessage, actualRetries);
          }
          if ClassifyError(if r.errorMessage.Some? then r.errorMessage.value else "") == Permanent {
            return RunResult("failed", r.outputPayload, r.errorMessage, actualRetries);
          }
          if attempt < config.maxAttempts {
            actualRetries := Pause(attempt, actualRetries, slept0, metric0);
          }
        }
        attempt := attempt + 1;
      }
      assert lastResult.Some?;  // the assertion at the end of the source's loop
      var last := lastResult.value;
      result := RunResult("failed", last.outputPayload, last.errorMessage, actualRetries);
    }
  }

  /** The deciding attempt is the only one with these three properties. */
  lemma DecidingIsUnique(outcomes: nat -> Outcome, max: nat, n: nat)
    requires 1 <= n <= max
    requires forall k: nat :: 1 <= k < n ==> TransientFailure(outcomes(k))
    requires n < max ==> !TransientFailure(outcomes(n))
    ensures n == Deciding(outcomes, 1, max)
  {
  }

  /** A transient failure is an exception or a failed result whose message is transient. */
  lemma TransientFailureMeans(o: Outcome)
    ensures TransientFailure(o) <==>
              match o
              case Raised(m) => ClassifyError(m) == Transient
              case Returned(result) =>
                && result.status == "failed" && result.errorMessage.Some?
                && ClassifyError(result.errorMessage.value) == Transient
  {
    EmptyMessageIsPermanent();
  }

  lemma EmptyMessageIsPermanent()
    ensures ClassifyError("") == Permanent
  {
    TransientExactly("");
    forall p | p in TRANSIENT_PATTERNS ensures !exists front, back :: Lower("") == front + p + back {
      assert p != "";
    }
  }

  /** Waits that start at the base, double, and stop growing at the cap. */
  ghost predicate DoublingWaits(waits: seq<nat>, base: nat, cap: nat) {
    && (waits != [] ==> waits[0] == base)
    && (forall k :: 0 < k < |waits| ==> waits[k] == if 2 * waits[k - 1] <= cap then 2 * waits[k - 1] else cap)
  }

  lemma DelaysAreDoublingWaits(base: nat, cap: nat, retries: nat)
    requires base <= cap
    ensures DoublingWaits(Delays(base, cap, retries), base, cap)
  {
    FirstDelayIsBase(base, cap);
    forall k | 0 < k < retries
      ensures var d := Delays(base, cap, retries); d[k] == if 2 * d[k - 1] <= cap then 2 * d[k - 1] else cap
    {
      DelayDoubles(base, cap, k);
    }
  }

  lemma WaitsOfRun(waits: seq<nat>, base: nat, cap: nat, retries: nat)
    requires base <= cap && waits == [] + Delays(base, cap, retries)
    ensures |waits| == retries && DoublingWaits(waits, base, cap)
    ensures Sum(waits) <= retries * cap && Sum(waits) <= base * (Pow2(retries) - 1)
  {
    assert waits == Delays(base, cap, retries);
    DelaysAreDoublingWaits(base, cap, retries);
    TotalDelayUnderCap(base, cap, retries);
    TotalDelayUnderGeometricSum(base, cap, retries);
  }

  /** A whole run, told without the loop: at least one call, never more than allowed; every call but the last failed
      transiently, and the last does so only if all attempts were used; what is reported is the outcome of the last;
      the waits start at the base, double, and stop growing at the cap. */
  method RunWithRetries(maxAttempts: int, baseDelayMs: int, maxDelayMs: int, outcomes: nat -> Outcome)
    returns (r: Result<RunResult>, calls: nat, waits: seq<nat>)
    ensures r.Ok? <==> maxAttempts >= 1 && 0 <= baseDelayMs <= maxDelayMs
    ensures r.Ok? ==> 1 <= calls <= maxAttempts && r.value.retryCount == calls - 1
    ensures r.Ok? ==> forall k: nat :: 1 <= k < calls ==> TransientFailure(outcomes(k))
    ensures r.Ok? && calls < maxAttempts ==> !TransientFailure(outcomes(calls))
    ensures r.Ok? ==>
              match outcomes(calls)
              case Raised(m) =>
                r.value.status == "failed" && r.value.errorMessage == Some(m) && r.value.outputPayload == None
              case Returned(o) =>
                && r.value.status == o.status && r.value.outputPayload == o.outputPayload
                && r.value.errorMessage == if o.status == "completed" then None else o.errorMessage
    ensures r.Ok? ==> |waits| == calls - 1 && DoublingWaits(waits, baseDelayMs, maxDelayMs)
    ensures r.Ok? ==> Sum(waits) <= (calls - 1) * maxDelayMs && Sum(waits) <= baseDelayMs * (Pow2(calls - 1) - 1)
  {
    var config := Configure(maxAttempts, baseDelayMs, maxDelayMs);
    match config {
      case ValueError(message) =>
        return ValueError(message), 0, [];
      case Ok(c) =>
        var retrier := new Retrier(c);
        var result := retrier.Execute(outcomes);
        r, calls := Ok(result), retrier.innerCalls;
        waits := retrier.slept;
        WaitsOfRun(waits, c.baseDelayMs, c.maxDelayMs, calls - 1);
    }
  }
}
