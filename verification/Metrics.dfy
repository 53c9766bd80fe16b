/**
 * The metrics registries of backend/metrics.py: counters and histograms keyed by name and label set,
 * and the cumulative bucket table a histogram is exposed with.
 */
module Metrics {
  import opened Wrappers
  import Ordering
  import StringOrder

  // ---- Label sets -------------------------------------------------------------------------------

  datatype Label = Label(name: string, value: string)

  type Key = seq<Label>

  /** A label dictionary in insertion order; a dictionary binds a name once. */
  ghost predicate IsDict(labels: seq<Label>) {
    forall i, j :: 0 <= i < j < |labels| ==> labels[i].name != labels[j].name
  }

  type Labels = labels: seq<Label> | IsDict(labels) witness []

  /** Dictionary equality ignores the insertion order. */
  ghost function AsMap(labels: Option<Labels>): map<string, string> {
    match labels
    case None => map[]
    case Some(items) => map n | n in (set l | l in items :: l.name) :: ValueUnder(items, n)
  }

  ghost function ValueUnder(items: Labels, name: string): (value: string)
    requires exists l :: l in items && l.name == name
    ensures Label(name, value) in items
  {
    var l :| l in items && l.name == name;
    l.value
  }

  predicate LabelLess(a: Label, b: Label) {
    StringOrder.Less(a.name, b.name) || (a.name == b.name && StringOrder.Less(a.value, b.value))
  }

  lemma LabelLessIsTotal()
    ensures Ordering.StrictTotalOrder(LabelLess)
  {
    StringOrder.LessIsTotal();
    assert Ordering.StrictTotalOrder(StringOrder.Less);
    forall a, b ensures LabelLess(a, b) || a == b || LabelLess(b, a) {
      StringOrder.Trichotomy(a.name, b.name);
      StringOrder.Trichotomy(a.value, b.value);
    }
    forall a, b | LabelLess(a, b) ensures a != b && !LabelLess(b, a) {
      StringOrder.Trichotomy(a.name, b.name);
      StringOrder.Trichotomy(a.value, b.value);
    }
    forall a, b, c | LabelLess(a, b) && LabelLess(b, c) ensures LabelLess(a, c) {
      LabelLessIsTransitive(a, b, c);
    }
  }

  lemma LabelLessIsTransitive(a: Label, b: Label, c: Label)
    requires LabelLess(a, b) && LabelLess(b, c)
    ensures LabelLess(a, c)
  {
    StringOrder.Trichotomy(a.name, b.name);
    StringOrder.Trichotomy(b.name, c.name);
    if a.name == b.name && b.name == c.name {
      StringOrder.Transitivity(a.value, b.value, c.value);
    } else if a.name != b.name && b.name != c.name {
      StringOrder.Transitivity(a.name, b.name, c.name);
    }
  }

  /** `_label_key`. */
  function LabelKey(labels: Option<Labels>): (key: Key) {
    LabelLessIsTotal();
    match labels
    case None => []
    case Some(items) => Ordering.Sorted(LabelLess, set l | l in items)
  }

  /** Two label dictionaries share a series exactly when they are equal, whatever their order. */
  lemma KeysIdentifyLabelSets(a: Option<Labels>, b: Option<Labels>)
    ensures LabelKey(a) == LabelKey(b) <==> AsMap(a) == AsMap(b)
  {
    KeyHoldsThePairs(a);
    KeyHoldsThePairs(b);
    if AsMap(a) == AsMap(b) {
      LabelLessIsTotal();
      forall l ensures l in LabelKey(a) <==> l in LabelKey(b) {
      }
      assert Ordering.Elements(LabelKey(a)) == Ordering.Elements(LabelKey(b));
      Ordering.AscendingIsUnique(LabelLess, LabelKey(a), LabelKey(b));
    }
    if LabelKey(a) == LabelKey(b) {
      SamePairsSameMap(AsMap(a), AsMap(b), LabelKey(a));
    }
  }

  lemma SamePairsSameMap(a: map<string, string>, b: map<string, string>, key: Key)
    requires forall l :: l in key <==> l.name in a && a[l.name] == l.value
    requires forall l :: l in key <==> l.name in b && b[l.name] == l.value
    ensures a == b
  {
    forall n | n in a ensures n in b && a[n] == b[n] {
      assert Label(n, a[n]) in key;
    }
    forall n | n in b ensures n in a {
      assert Label(n, b[n]) in key;
    }
  }

  lemma KeyHoldsThePairs(labels: Option<Labels>)
    ensures Ordering.Ascending(LabelLess, LabelKey(labels))
    ensures forall l :: l in LabelKey(labels) <==> l.name in AsMap(labels) && AsMap(labels)[l.name] == l.value
  {
    LabelLessIsTotal();
    var key := LabelKey(labels);
    assert forall l :: l in key <==> l in Ordering.Elements(key);
    if labels.Some? {
      var items: Labels := labels.value;
      DictBindsOnce(items);
      forall l ensures l in items <==> l.name in AsMap(labels) && AsMap(labels)[l.name] == l.value {
      }
    }
  }

  lemma DictBindsOnce(items: Labels)
    ensures forall a, b :: a in items && b in items && a.name == b.name ==> a == b
  {
  }

  // ---- Cumulative buckets -----------------------------------------------------------------------

  datatype Bound = Finite(limit: real) | Infinity

  predicate BoundLess(a: Bound, b: Bound) {
    a.Finite? && (b.Infinity? || a.limit < b.limit)
  }

  datatype Observation = Observation(value: real, buckets: seq<Bound>)

  datatype Bucket = Bucket(bound: Bound, count: nat)

  predicate AtMost(value: real, bound: Bound) {
    bound.Infinity? || value <= bound.limit
  }

  /** How many observations lie at or below a bound. */
  function CountUpTo(values: seq<Observation>, bound: Bound): nat {
    if values == [] then 0
    else CountUpTo(values[..|values| - 1], bound) + (if AtMost(values[|values| - 1].value, bound) then 1 else 0)
  }

  ghost predicate Names(values: seq<Observation>, bound: Bound) {
    exists k :: 0 <= k < |values| && bound in values[k].buckets
  }

  /**
   * What the exposed table of a histogram is to be: one line for infinity and for every bound some
   * observation was recorded with, in increasing order, each with the observations it covers.
   */
  ghost predicate IsTable(values: seq<Observation>, table: seq<Bucket>) {
    && (forall i, j :: 0 <= i < j < |table| ==> BoundLess(table[i].bound, table[j].bound))
    && (forall b :: HasLine(table, b) <==> b == Infinity || Names(values, b))
    && (forall i :: 0 <= i < |table| ==> table[i].count == CountUpTo(values, table[i].bound))
  }

  ghost predicate HasLine(table: seq<Bucket>, bound: Bound) {
    exists i :: 0 <= i < |table| && table[i].bound == bound
  }

  /** `_compute_buckets`. */
  method ComputeBuckets(values: seq<Observation>) returns (result: seq<Bucket>)
    ensures IsTable(values, result)
  {
    var allBounds := {};
    for i := 0 to |values|
      invariant forall b :: b in allBounds <==> Names(values[..i], b)
    {
      NamesStep(values, i);
      allBounds := allBounds + set b | b in values[i].buckets;
    }
    assert values[..|values|] == values;
    allBounds := allBounds + {Infinity};
    var sortedBounds := Ordering.Sorted(BoundLess, allBounds);
    result := CountAll(values, sortedBounds);
    SortedBoundsMakeATable(values, allBounds, sortedBounds, result);
  }

  /** A table has a line for a bound exactly if the bound is infinity or some observation was recorded with it. */
  lemma LinesOfTable(values: seq<Observation>, table: seq<Bucket>, bound: Bound)
    requires IsTable(values, table)
    ensures (exists i :: 0 <= i < |table| && table[i].bound == bound) <==>
              bound == Infinity || exists k :: 0 <= k < |values| && bound in values[k].buckets
  {
    assert HasLine(table, bound) <==> bound == Infinity || Names(values, bound);
  }

  lemma SortedBoundsMakeATable(values: seq<Observation>, bounds: set<Bound>, sortedBounds: seq<Bound>,
                               table: seq<Bucket>)
    requires forall b :: b in bounds <==> b == Infinity || Names(values, b)
    requires Ordering.Ascending(BoundLess, sortedBounds) && Ordering.Elements(sortedBounds) == bounds
    requires BoundsOf(table) == sortedBounds
    requires forall k :: 0 <= k < |table| ==> table[k].count == CountUpTo(values, table[k].bound)
    ensures IsTable(values, table)
  {
    BoundsAreTheLines(table);
    forall b ensures HasLine(table, b) <==> b in bounds {
      assert b in bounds <==> b in Ordering.Elements(sortedBounds);
    }
    forall i, j | 0 <= i < j < |table| ensures BoundLess(table[i].bound, table[j].bound) {
      assert table[i].bound == sortedBounds[i] && table[j].bound == sortedBounds[j];
    }
  }

  /** The second loop of `_compute_buckets`. */
  method CountAll(values: seq<Observation>, sortedBounds: seq<Bound>) returns (result: seq<Bucket>)
    ensures BoundsOf(result) == sortedBounds
    ensures forall k :: 0 <= k < |result| ==> result[k].count == CountUpTo(values, result[k].bound)
  {
    result := [];
    for i := 0 to |sortedBounds|
      invariant |result| == i
      invariant forall k :: 0 <= k < i ==> result[k] == Bucket(sortedBounds[k], CountUpTo(values, sortedBounds[k]))
    {
      var count := CountAtMost(values, sortedBounds[i]);
      result := result + [Bucket(sortedBounds[i], count)];
    }
  }

  lemma NamesStep(values: seq<Observation>, i: nat)
    requires i < |values|
    ensures forall b :: Names(values[..i + 1], b) <==> Names(values[..i], b) || b in values[i].buckets
  {
  }

  /** `sum(1 for v, _ in values if v <= bound)`. */
  method CountAtMost(values: seq<Observation>, bound: Bound) returns (count: nat)
    ensures count == CountUpTo(values, bound)
  {
    count := 0;
    for i := 0 to |values|
      invariant count == CountUpTo(values[..i], bound)
    {
      assert values[..i + 1][..i] == values[..i];
      if AtMost(values[i].value, bound) {
        count := count + 1;
      }
    }
    assert values[..|values|] == values;
  }

  /** The count is the number of observations, by position. */
  lemma {:induction false} CountIsCardinality(values: seq<Observation>, bound: Bound)
    ensures CountUpTo(values, bound) == |set k | 0 <= k < |values| && AtMost(values[k].value, bound)|
  {
    if values != [] {
      var n := |values| - 1;
      CountIsCardinality(values[..n], bound);
      var before := set k | 0 <= k < n && AtMost(values[..n][k].value, bound);
      var all := set k | 0 <= k < |values| && AtMost(values[k].value, bound);
      assert forall k :: k in all <==> k in before || (k == n && AtMost(values[n].value, bound));
      assert all == if AtMost(values[n].value, bound) then before + {n} else before;
    }
  }

  /** In numbers: the observations up to a limit, and all of them up to infinity. */
  lemma CountIsOfValues(values: seq<Observation>, bound: Bound)
    ensures match bound
            case Finite(limit) => CountUpTo(values, bound) == |set k | 0 <= k < |values| && values[k].value <= limit|
            case Infinity => CountUpTo(values, bound) == |values|
  {
    CountIsCardinality(values, bound);
    match bound {
      case Finite(limit) =>
        assert (set k | 0 <= k < |values| && AtMost(values[k].value, bound))
            == (set k | 0 <= k < |values| && values[k].value <= limit);
      case Infinity =>
        EverythingIsUnderInfinity(values);
    }
  }

  lemma {:induction false} CountsGrow(values: seq<Observation>, low: Bound, high: Bound)
    requires BoundLess(low, high)
    ensures CountUpTo(values, low) <= CountUpTo(values, high) <= |values|
  {
    if values != [] {
      CountsGrow(values[..|values| - 1], low, high);
    }
  }

  lemma {:induction false} EverythingIsUnderInfinity(values: seq<Observation>)
    ensures CountUpTo(values, Infinity) == |values|
  {
    if values != [] {
      EverythingIsUnderInfinity(values[..|values| - 1]);
    }
  }

  /** The lines' counts never fall, and the last line is infinity with all observations. */
  lemma TableIsCumulative(values: seq<Observation>, table: seq<Bucket>)
    requires IsTable(values, table)
    ensures forall i, j :: 0 <= i < j < |table| ==> table[i].count <= table[j].count
    ensures table != [] && table[|table| - 1] == Bucket(Infinity, |values|)
  {
    forall i, j | 0 <= i < j < |table| ensures table[i].count <= table[j].count {
      CountsGrow(values, table[i].bound, table[j].bound);
    }
    assert HasLine(table, Infinity);
    EverythingIsUnderInfinity(values);
  }

  /**
   * What `format_prometheus` prints: every line but the last, then a line of its own for infinity
   * with the number of observations.
   */
  function Printed(values: seq<Observation>, table: seq<Bucket>): (lines: seq<Bucket>)
    requires table != []
  {
    table[..|table| - 1] + [Bucket(Infinity, |values|)]
  }

  lemma PrintedIsTheTable(values: seq<Observation>, table: seq<Bucket>)
    requires IsTable(values, table)
    ensures table != [] && Printed(values, table) == table
  {
    TableIsCumulative(values, table);
  }

  lemma {:induction false} CountsAdd(a: seq<Observation>, b: seq<Observation>, bound: Bound)
    ensures CountUpTo(a + b, bound) == CountUpTo(a, bound) + CountUpTo(b, bound)
  {
    if b == [] {
      assert a + b == a;
    } else {
      var n := |b| - 1;
      assert (a + b)[..|a + b| - 1] == a + b[..n];
      CountsAdd(a, b[..n], bound);
    }
  }

  /** Recording two batches one after the other adds their counts at every bound they share. */
  lemma TablesAdd(a: seq<Observation>, b: seq<Observation>, ta: seq<Bucket>, tb: seq<Bucket>, tab: seq<Bucket>)
    requires IsTable(a, ta) && IsTable(b, tb) && IsTable(a + b, tab)
    ensures forall bound :: HasLine(tab, bound) <==> HasLine(ta, bound) || HasLine(tb, bound)
    ensures forall i, j, k | 0 <= i < |ta| && 0 <= j < |tb| && 0 <= k < |tab|
                               && ta[i].bound == tb[j].bound == tab[k].bound
              :: tab[k].count == ta[i].count + tb[j].count
  {
    forall bound ensures Names(a + b, bound) <==> Names(a, bound) || Names(b, bound) {
      NamesOfBoth(a, b, bound);
    }
    forall bound ensures CountUpTo(a + b, bound) == CountUpTo(a, bound) + CountUpTo(b, bound) {
      CountsAdd(a, b, bound);
    }
  }

  lemma NamesOfBoth(a: seq<Observation>, b: seq<Observation>, bound: Bound)
    ensures Names(a + b, bound) <==> Names(a, bound) || Names(b, bound)
  {
    if Names(a, bound) {
      var k :| 0 <= k < |a| && bound in a[k].buckets;
      assert (a + b)[k] == a[k];
    }
    if Names(b, bound) {
      var k :| 0 <= k < |b| && bound in b[k].buckets;
      assert (a + b)[|a| + k] == b[k];
    }
  }

  function Without(a: seq<Observation>, k: nat): (r: seq<Observation>)
    requires k < |a|
    ensures |r| == |a| - 1
  {
    a[..k] + a[k + 1..]
  }

  lemma {:induction false} CountsIgnoreOrder(a: seq<Observation>, b: seq<Observation>, bound: Bound)
    requires multiset(a) == multiset(b)
    ensures CountUpTo(a, bound) == CountUpTo(b, bound)
    decreases |a|
  {
    assert |a| == |multiset(a)| == |multiset(b)| == |b|;
    if a != [] {
      assert a[0] in multiset(b);
      var k :| 0 <= k < |b| && b[k] == a[0];
      WithoutOne(a, 0, bound);
      WithoutOne(b, k, bound);
      CountsIgnoreOrder(Without(a, 0), Without(b, k), bound);
    }
  }

  lemma WithoutOne(a: seq<Observation>, k: nat, bound: Bound)
    requires k < |a|
    ensures multiset(Without(a, k)) == multiset(a) - multiset{a[k]}
    ensures CountUpTo(a, bound) == CountUpTo(Without(a, k), bound) + (if AtMost(a[k].value, bound) then 1 else 0)
  {
    assert a == a[..k] + [a[k]] + a[k + 1..];
    CountsAdd(a[..k], a[k + 1..], bound);
    CountsAdd(a[..k + 1], a[k + 1..], bound);
    assert a[..k + 1] + a[k + 1..] == a;
    assert a[..k + 1][..k] == a[..k];
  }

  /** The order in which observations arrive does not show in the table. */
  lemma TableIgnoresOrder(a: seq<Observation>, b: seq<Observation>, ta: seq<Bucket>, tb: seq<Bucket>)
    requires multiset(a) == multiset(b) && IsTable(a, ta) && IsTable(b, tb)
    ensures ta == tb
  {
    forall bound ensures CountUpTo(a, bound) == CountUpTo(b, bound) {
      CountsIgnoreOrder(a, b, bound);
    }
    assert forall o :: o in a <==> o in multiset(a);
    assert forall o :: o in b <==> o in multiset(b);
    forall bound ensures Names(a, bound) <==> Names(b, bound) {
      NamesIgnoreOrder(a, b, bound);
      NamesIgnoreOrder(b, a, bound);
    }
    TableIsDetermined(ta, tb);
  }

  lemma NamesIgnoreOrder(a: seq<Observation>, b: seq<Observation>, bound: Bound)
    requires forall o :: o in a ==> o in b
    ensures Names(a, bound) ==> Names(b, bound)
  {
    if Names(a, bound) {
      var k :| 0 <= k < |a| && bound in a[k].buckets;
      assert a[k] in b;
    }
  }

  function BoundsOf(table: seq<Bucket>): (bounds: seq<Bound>) {
    seq(|table|, i requires 0 <= i < |table| => table[i].bound)
  }

  lemma BoundsAreTheLines(table: seq<Bucket>)
    ensures forall b :: b in BoundsOf(table) <==> HasLine(table, b)
  {
    var bounds := BoundsOf(table);
    forall b | HasLine(table, b) ensures b in bounds {
      var i :| 0 <= i < |table| && table[i].bound == b;
      assert bounds[i] == b;
    }
    forall b | b in bounds ensures HasLine(table, b) {
      var i :| 0 <= i < |bounds| && bounds[i] == b;
      assert table[i].bound == b;
    }
  }

  lemma TableIsDetermined(ta: seq<Bucket>, tb: seq<Bucket>)
    requires forall i, j :: 0 <= i < j < |ta| ==> BoundLess(ta[i].bound, ta[j].bound)
    requires forall i, j :: 0 <= i < j < |tb| ==> BoundLess(tb[i].bound, tb[j].bound)
    requires forall b :: HasLine(ta, b) <==> HasLine(tb, b)
    requires forall i, j :: 0 <= i < |ta| && 0 <= j < |tb| && ta[i].bound == tb[j].bound ==> ta[i].count == tb[j].count
    ensures ta == tb
  {
    var ba, bb := BoundsOf(ta), BoundsOf(tb);
    BoundsAreTheLines(ta);
    BoundsAreTheLines(tb);
    assert forall b :: b in Ordering.Elements(ba) <==> HasLine(ta, b);
    assert forall b :: b in Ordering.Elements(bb) <==> HasLine(tb, b);
    assert Ordering.Elements(ba) == Ordering.Elements(bb);
    Ordering.AscendingIsUnique(BoundLess, ba, bb);
    forall i | 0 <= i < |ta| ensures ta[i] == tb[i] {
      assert ta[i].bound == ba[i] && tb[i].bound == bb[i];
    }
  }

  // ---- The registries ---------------------------------------------------------------------------

  const DEFAULT_BUCKETS: seq<Bound> :=
    [Finite(0.005), Finite(0.01), Finite(0.025), Finite(0.05), Finite(0.1), Finite(0.25),
     Finite(0.5), Finite(1.0), Finite(2.5), Finite(5.0), Finite(10.0)]

  datatype Registries = Registries(counters: map<string, map<Key, int>>,
                                   histograms: map<string, map<Key, seq<Observation>>>)

  /** The reads of a `defaultdict`: a missing counter is 0, a missing histogram is empty. */
  function CounterAt(s: Registries, name: string, key: Key): int {
    if name in s.counters && key in s.counters[name] then s.counters[name][key] else 0
  }

  function HistogramAt(s: Registries, name: string, key: Key): seq<Observation> {
    if name in s.histograms && key in s.histograms[name] then s.histograms[name][key] else []
  }

  function Inner<K, V>(registry: map<string, map<K, V>>, name: string): map<K, V> {
    if name in registry then registry[name] else map[]
  }

  /** The calls the rest of the program makes on the registries. */
  datatype Call =
    | CounterCall(name: string, amount: int, labels: Option<Labels>)
    | HistogramCall(name: string, value: real, labels: Option<Labels>, buckets: Option<seq<Bound>>)
    | ResetCall

  function ObservationOf(value: real, buckets: Option<seq<Bound>>): Observation {
    Observation(value, if buckets.Some? then buckets.value else DEFAULT_BUCKETS)
  }

  /** What one call does: the series it names grows, every other one is left alone. */
  ghost predicate Recording(before: Registries, after: Registries, call: Call) {
    match call
    case CounterCall(name, amount, labels) =>
      && after.histograms == before.histograms
      && (forall n, k :: CounterAt(after, n, k)
                      == CounterAt(before, n, k) + (if n == name && k == LabelKey(labels) then amount else 0))
    case HistogramCall(name, value, labels, buckets) =>
      && after.counters == before.counters
      && (forall n, k :: HistogramAt(after, n, k) == HistogramAt(before, n, k)
                       + (if n == name && k == LabelKey(labels) then [ObservationOf(value, buckets)] else []))
    case ResetCall =>
      after == Registries(map[], map[])
  }

  class MetricsRegistry {
    var counters: map<string, map<Key, int>>
    var histograms: map<string, map<Key, seq<Observation>>>

    ghost function State(): Registries
      reads this
    {
      Registries(counters, histograms)
    }

    constructor ()
      ensures State() == Registries(map[], map[])
    {
      counters, histograms := map[], map[];
    }

    /** `counter`. */
    method Counter(name: string, amount: int, labels: Option<Labels>)
      modifies this`counters
      ensures Recording(old(State()), State(), CounterCall(name, amount, labels))
    {
      var key := LabelKey(labels);
      var series := Inner(counters, name);
      var before := if key in series then series[key] else 0;
      counters := counters[name := series[key := before + amount]];
    }

    /** `histogram`. */
    method Histogram(name: string, value: real, labels: Option<Labels>, buckets: Option<seq<Bound>>)
      modifies this`histograms
      ensures Recording(old(State()), State(), HistogramCall(name, value, labels, buckets))
      ensures var key := LabelKey(labels);
              HistogramAt(State(), name, key) == old(HistogramAt(State(), name, key))
                + [Observation(value, if buckets.Some? then buckets.value else DEFAULT_BUCKETS)]
    {
      var key := LabelKey(labels);
      var series := Inner(histograms, name);
      var before := if key in series then series[key] else [];
      histograms := histograms[name := series[key := before + [ObservationOf(value, buckets)]]];
    }

    /** `reset`. */
    method Reset()
      modifies this
      ensures Recording(old(State()), State(), ResetCall)
    {
      counters := map[];
      histograms := map[];
    }
  }

  ghost function Total(calls: seq<Call>, name: string, labels: Option<Labels>): int {
    if calls == [] then 0
    else
      var before := Total(calls[..|calls| - 1], name, labels);
      match calls[|calls| - 1]
      case CounterCall(n, amount, given) =>
        if n == name && AsMap(given) == AsMap(labels) then before + amount else before
      case HistogramCall(_, _, _, _) => before
      case ResetCall => 0
  }

  ghost function Recorded(calls: seq<Call>, name: string, labels: Option<Labels>): seq<Observation> {
    if calls == [] then []
    else
      var before := Recorded(calls[..|calls| - 1], name, labels);
      match calls[|calls| - 1]
      case CounterCall(_, _, _) => before
      case HistogramCall(n, value, given, buckets) =>
        if n == name && AsMap(given) == AsMap(labels) then before + [ObservationOf(value, buckets)] else before
      case ResetCall => []
  }

  /**
   * A whole run of calls from empty registries: every counter ends as the sum of the amounts, and every
   * histogram as the list of the observations, recorded under its name and an equal label set.
   */
  lemma {:induction false} RegistriesFollowTheCalls(calls: seq<Call>, states: seq<Registries>,
                                                    name: string, labels: Option<Labels>)
    requires |states| == |calls| + 1 && states[0] == Registries(map[], map[])
    requires forall i :: 0 <= i < |calls| ==> Recording(states[i], states[i + 1], calls[i])
    ensures CounterAt(states[|calls|], name, LabelKey(labels)) == Total(calls, name, labels)
    ensures HistogramAt(states[|calls|], name, LabelKey(labels)) == Recorded(calls, name, labels)
  {
    if calls != [] {
      var n := |calls| - 1;
      RegistriesFollowTheCalls(calls[..n], states[..|calls|], name, labels);
      assert Recording(states[n], states[n + 1], calls[n]);
      if !calls[n].ResetCall? {
        KeysIdentifyLabelSets(calls[n].labels, labels);
      }
    }
  }
}
