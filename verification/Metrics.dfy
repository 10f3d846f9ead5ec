/** The metrics oracle: summary statistics of the baseline and the deviation verdict.

    Floating point is modelled by the reals, except that NaN is kept: the deviation of a single sample is
    0/0, and every comparison with NaN is false. The int64 total wraps around. */
module Metrics {

  // ---------- sorting ----------

  predicate Sorted(s: seq<int>) {
    forall i, j :: 0 <= i < j < |s| ==> s[i] <= s[j]
  }

  function Insert(x: int, s: seq<int>): seq<int> {
    if s == [] || x <= s[0] then [x] + s else [s[0]] + Insert(x, s[1..])
  }

  function Sort(s: seq<int>): seq<int> {
    if s == [] then [] else Insert(s[0], Sort(s[1..]))
  }

  lemma {:induction false} InsertKeepsElements(x: int, s: seq<int>)
    ensures multiset(Insert(x, s)) == multiset(s) + multiset{x}
  {
    if s != [] && x > s[0] {
      InsertKeepsElements(x, s[1..]);
      assert s == [s[0]] + s[1..];
    }
  }

  lemma {:induction false} InsertIsSorted(x: int, s: seq<int>)
    requires Sorted(s)
    ensures Sorted(Insert(x, s))
  {
    if s != [] && x > s[0] {
      InsertIsSorted(x, s[1..]);
      InsertKeepsElements(x, s[1..]);
      var rest := Insert(x, s[1..]);
      forall i | 0 <= i < |rest|
        ensures s[0] <= rest[i]
      {
        assert rest[i] in multiset(rest);
        if rest[i] != x {
          assert rest[i] in s[1..];
        }
      }
    }
  }

  lemma {:induction false} SortIsSorted(s: seq<int>)
    ensures Sorted(Sort(s)) && multiset(Sort(s)) == multiset(s) && |Sort(s)| == |s|
  {
    if s != [] {
      SortIsSorted(s[1..]);
      InsertIsSorted(s[0], Sort(s[1..]));
      InsertKeepsElements(s[0], Sort(s[1..]));
      assert s == [s[0]] + s[1..];
      assert |multiset(Sort(s))| == |multiset(s)|;
    }
  }

  lemma SortedHeads(s: seq<int>, t: seq<int>)
    requires Sorted(s) && Sorted(t) && s != [] && t != [] && multiset(s) == multiset(t)
    ensures s[0] == t[0]
  {
    assert s[0] in multiset(t) && t[0] in multiset(s);
    assert s[0] in t && t[0] in s;
  }

  lemma TailElements(s: seq<int>)
    requires s != []
    ensures multiset(s[1..]) == multiset(s) - multiset{s[0]}
  {
    assert s == [s[0]] + s[1..];
  }

  lemma {:induction false} SortedIsUnique(s: seq<int>, t: seq<int>)
    requires Sorted(s) && Sorted(t) && multiset(s) == multiset(t)
    ensures s == t
  {
    assert |s| == |multiset(s)| == |multiset(t)| == |t|;
    if s != [] {
      SortedHeads(s, t);
      TailElements(s);
      TailElements(t);
      SortedIsUnique(s[1..], t[1..]);
      assert s == [s[0]] + s[1..] && t == [t[0]] + t[1..];
    }
  }

  lemma SortDependsOnMultiset(s: seq<int>, t: seq<int>)
    requires multiset(s) == multiset(t)
    ensures Sort(s) == Sort(t)
  {
    SortIsSorted(s);
    SortIsSorted(t);
    SortedIsUnique(Sort(s), Sort(t));
  }

  // ---------- statistics ----------

  function Sum(s: seq<int>): int {
    if s == [] then 0 else Sum(s[..|s| - 1]) + s[|s| - 1]
  }

  function Wrap64(x: int): int {
    (x + 0x8000_0000_0000_0000) % 0x1_0000_0000_0000_0000 - 0x8000_0000_0000_0000
  }

  predicate Fits64(x: int) {
    -0x8000_0000_0000_0000 <= x < 0x8000_0000_0000_0000
  }

  function Average(s: seq<int>): real
    requires s != []
  {
    Quotient(Wrap64(Sum(s)), |s|)
  }

  function Quotient(total: int, n: int): real
    requires n > 0
  {
    total as real / n as real
  }

  lemma WrapFits(x: int)
    requires Fits64(x)
    ensures Wrap64(x) == x
  {
  }

  /** Two's complement in 64 bits. */
  lemma WrapsAround(x: int)
    ensures Fits64(Wrap64(x)) && (x - Wrap64(x)) % 0x1_0000_0000_0000_0000 == 0
  {
  }

  function Normalize(v: int, min: int, max: int): real
    requires min <= max
  {
    if max == min then 0.0 else (v - min) as real / (max - min) as real
  }

  function Normalized(s: seq<int>): (xs: seq<real>)
    requires s != [] && Sorted(s)
    ensures |xs| == |s|
  {
    seq(|s|, i requires 0 <= i < |s| => Normalize(s[i], s[0], s[|s| - 1]))
  }

  function Total(xs: seq<real>): real {
    if xs == [] then 0.0 else Total(xs[..|xs| - 1]) + xs[|xs| - 1]
  }

  function SquaredDeviations(xs: seq<real>, mean: real): real {
    if xs == [] then 0.0
    else SquaredDeviations(xs[..|xs| - 1], mean) + Square(xs[|xs| - 1] - mean)
  }

  /** The sample variance, with n-1 in the denominator. */
  function Variance(xs: seq<real>): real
    requires |xs| >= 2
  {
    SquaredDeviations(xs, Total(xs) / |xs| as real) / (|xs| - 1) as real
  }

  function Median(xs: seq<real>): real
    requires xs != []
  {
    if |xs| % 2 == 0 then (xs[|xs| / 2 - 1] + xs[|xs| / 2]) / 2.0 else xs[|xs| / 2]
  }

  datatype Float = NaN | Num(r: real)

  datatype Summary = Summary(min: int, max: int, avg: real, normalized: seq<real>, median: real,
                             stdDev: Float, variance: Float)

  const NO_SAMPLES := Summary(0, 0, 0.0, [], 0.0, Num(0.0), Num(0.0))

  /** The two functions of the statistics library that the summary calls. */
  datatype Gonum = Gonum(stdDev: seq<real> -> Float, variance: seq<real> -> Float)

  /** What the library promises: the sample variance and its non-negative root, and NaN for a single value. */
  ghost predicate IsGonum(g: Gonum) {
    (forall x: real :: g.variance([x]) == NaN && g.stdDev([x]) == NaN) &&
    (forall xs: seq<real> :: |xs| >= 2 ==>
       g.variance(xs) == Num(Variance(xs)) &&
       g.stdDev(xs).Num? && g.stdDev(xs).r >= 0.0 && g.stdDev(xs).r * g.stdDev(xs).r == Variance(xs))
  }

  function SummaryOfSorted(g: Gonum, s: seq<int>): Summary
    requires s != [] && Sorted(s)
  {
    var xs := Normalized(s);
    Summary(s[0], s[|s| - 1], Average(s), xs, Median(xs), g.stdDev(xs), g.variance(xs))
  }

  function SummaryOf(g: Gonum, samples: seq<int>): Summary {
    if samples == [] then NO_SAMPLES
    else
      SortIsSorted(samples);
      SummaryOfSorted(g, Sort(samples))
  }

  /** The verdict: outside the band of one relative standard deviation around the baseline's average. */
  predicate Deviates(avg: real, stdDev: Float, target: real) {
    stdDev.Num? &&
    var upper, lower := avg * (1.0 + stdDev.r), avg * (1.0 - stdDev.r);
    target > upper || target < lower
  }

  /** The values are the samples in another unit and from another origin. */
  predicate Rescaled(xs: seq<real>, s: seq<int>, min: int, range: real) {
    |xs| == |s| && forall i :: 0 <= i < |s| ==> xs[i] * range == (s[i] - min) as real
  }

  lemma NormalizeSolves(v: int, min: int, max: int)
    requires min <= v <= max
    ensures Normalize(v, min, max) * (max - min) as real == (v - min) as real
    ensures min == max ==> Normalize(v, min, max) == 0.0
  {
    if min != max {
      var x, d := (v - min) as real, (max - min) as real;
      assert x / d * d == x;
    }
  }

  lemma NormalizedRescales(s: seq<int>)
    requires s != [] && Sorted(s)
    ensures Rescaled(Normalized(s), s, s[0], (s[|s| - 1] - s[0]) as real)
    ensures s[|s| - 1] == s[0] ==> forall i :: 0 <= i < |s| ==> Normalized(s)[i] == 0.0
  {
    hide Normalize;
    var low, high := s[0], s[|s| - 1];
    forall i | 0 <= i < |s|
      ensures Normalized(s)[i] * (high - low) as real == (s[i] - low) as real
      ensures high == low ==> Normalized(s)[i] == 0.0
    {
      NormalizeSolves(s[i], low, high);
    }
  }

  /** Each value is normalised to its distance from the smallest in units of the range. */
  predicate Describes(m: Summary, s: seq<int>) {
    s != [] && Sorted(s) && m.min == s[0] && m.max == s[|s| - 1] &&
    Rescaled(m.normalized, s, m.min, (m.max - m.min) as real)
  }

  lemma SortedSummary(g: Gonum, samples: seq<int>)
    requires samples != []
    ensures multiset(Sort(samples)) == multiset(samples) && Describes(SummaryOf(g, samples), Sort(samples))
  {
    hide Sort, Rescaled, Average, Median, Normalized;
    SortIsSorted(samples);
    NormalizedRescales(Sort(samples));
  }

  // ---------- the oracle's objects ----------

  datatype Usage = Usage(cpu: int, memory: int)

  class MetricsSummary {
    var originalValues: seq<int>
    var normalizedValues: seq<real>
    var min: int
    var max: int
    var avg: real
    var median: real
    var stdDev: Float
    var variance: Float

    function Contents(): Summary
      reads this
    {
      Summary(min, max, avg, normalizedValues, median, stdDev, variance)
    }

    constructor ()
      ensures originalValues == [] && Contents() == NO_SAMPLES
    {
      originalValues, normalizedValues, min, max := [], [], 0, 0;
      avg, median, stdDev, variance := 0.0, 0.0, Num(0.0), Num(0.0);
    }

    /** The state after any number of loads that brought in these samples. */
    ghost predicate Holds(g: Gonum, samples: seq<int>)
      reads this
    {
      originalValues == Sort(samples) && Contents() == SummaryOf(g, samples)
    }

    /** Every statistic of the sorted samples. */
    method Recompute(g: Gonum)
      requires originalValues != [] && Sorted(originalValues)
      modifies this`min, this`max, this`avg, this`normalizedValues, this`median, this`stdDev, this`variance
      ensures Contents() == SummaryOfSorted(g, originalValues)
    {
      hide Normalized, Median, Average, Sorted;
      min, max := originalValues[0], originalValues[|originalValues| - 1];
      avg := ComputeAverage(originalValues);
      normalizedValues := ComputeNormalized(originalValues);
      median := ComputeMedian(normalizedValues);
      stdDev := g.stdDev(normalizedValues);
      variance := g.variance(normalizedValues);
    }

    /** Sorts the samples in place and recomputes every statistic; without samples it does nothing. */
    method UpdateSummary(g: Gonum)
      modifies this
      ensures originalValues == Sort(old(originalValues))
      ensures Contents() == if old(originalValues) == [] then old(Contents()) else SummaryOf(g, old(originalValues))
      ensures old(originalValues) != [] ==>
        multiset(originalValues) == multiset(old(originalValues)) && Describes(Contents(), originalValues)
    {
      hide SummaryOfSorted, Describes;
      if |originalValues| == 0 { return; }
      SortedSummary(g, originalValues);
      SortIsSorted(originalValues);
      originalValues := Sort(originalValues);
      Recompute(g);
    }
  }

  /** Appended samples are taken into the summary as if they had been there all along. */
  method Resummarize(g: Gonum, m: MetricsSummary, ghost before: seq<int>, ghost more: seq<int>)
    requires m.originalValues == Sort(before) + more && m.Contents() == SummaryOf(g, before)
    modifies m
    ensures m.Holds(g, before + more)
  {
    LoadingOnTop(g, before, more);
    m.UpdateSummary(g);
  }

  method ComputeAverage(s: seq<int>) returns (avg: real)
    requires s != []
    ensures avg == Average(s)
  {
    var total := 0;
    for i := 0 to |s|
      invariant total == Wrap64(Sum(s[..i]))
    {
      assert s[..i + 1][..i] == s[..i];
      WrapAbsorbs(Sum(s[..i]), s[i]);
      total := Wrap64(total + s[i]);
    }
    assert s[..|s|] == s;
    avg := total as real / |s| as real;
  }

  method ComputeMedian(xs: seq<real>) returns (median: real)
    requires xs != []
    ensures median == Median(xs)
  {
    if |xs| % 2 == 0 {
      median := (xs[|xs| / 2 - 1] + xs[|xs| / 2]) / 2.0;
    } else {
      median := xs[|xs| / 2];
    }
  }

  method ComputeNormalized(s: seq<int>) returns (xs: seq<real>)
    requires s != [] && Sorted(s)
    ensures xs == Normalized(s)
  {
    xs := [];
    var min, max := s[0], s[|s| - 1];
    for i := 0 to |s|
      invariant xs == Normalized(s)[..i]
    {
      if max == min {
        xs := xs + [0.0];
      } else {
        xs := xs + [(s[i] - min) as real / (max - min) as real];
      }
    }
  }

  class CheckMetricsSummary {
    const cpu: MetricsSummary
    const memory: MetricsSummary

    ghost predicate Valid() {
      cpu != memory
    }

    constructor (cpu: MetricsSummary, memory: MetricsSummary)
      requires cpu != memory
      ensures Valid() && this.cpu == cpu && this.memory == memory
    {
      this.cpu, this.memory := cpu, memory;
    }

    method Add(usages: seq<Usage>)
      requires Valid()
      modifies cpu`originalValues, memory`originalValues
      ensures cpu.Contents() == old(cpu.Contents()) && memory.Contents() == old(memory.Contents())
      ensures cpu.originalValues == old(cpu.originalValues) + CpuOf(usages)
      ensures memory.originalValues == old(memory.originalValues) + MemoryOf(usages)
    {
      for i := 0 to |usages|
        invariant cpu.originalValues == old(cpu.originalValues) + CpuOf(usages)[..i]
        invariant memory.originalValues == old(memory.originalValues) + MemoryOf(usages)[..i]
      {
        cpu.originalValues := cpu.originalValues + [usages[i].cpu];
        memory.originalValues := memory.originalValues + [usages[i].memory];
      }
    }
  }

  function CpuOf(usages: seq<Usage>): (s: seq<int>)
    ensures |s| == |usages| && forall i :: 0 <= i < |s| ==> s[i] == usages[i].cpu
  {
    seq(|usages|, i requires 0 <= i < |usages| => usages[i].cpu)
  }

  function MemoryOf(usages: seq<Usage>): (s: seq<int>)
    ensures |s| == |usages| && forall i :: 0 <= i < |s| ==> s[i] == usages[i].memory
  {
    seq(|usages|, i requires 0 <= i < |usages| => usages[i].memory)
  }

  method NewCheckMetricsSummary(g: Gonum, usages: seq<Usage>) returns (summary: CheckMetricsSummary)
    ensures fresh(summary) && fresh(summary.cpu) && fresh(summary.memory) && summary.Valid()
    ensures summary.cpu.Contents() == SummaryOf(g, CpuOf(usages))
    ensures summary.memory.Contents() == SummaryOf(g, MemoryOf(usages))
  {
    var cpu := new MetricsSummary();
    var memory := new MetricsSummary();
    summary := new CheckMetricsSummary(cpu, memory);
    summary.Add(usages);
    assert [] + CpuOf(usages) == CpuOf(usages) && [] + MemoryOf(usages) == MemoryOf(usages);
    summary.cpu.UpdateSummary(g);
    summary.memory.UpdateSummary(g);
  }

  class MetricsOrakel {
    const baseline: CheckMetricsSummary
    /** Everything loaded so far, in loading order. */
    ghost var loaded: seq<Usage>

    ghost predicate Valid(g: Gonum)
      reads this, baseline.cpu, baseline.memory
    {
      baseline.Valid() && baseline.cpu.Holds(g, CpuOf(loaded)) && baseline.memory.Holds(g, MemoryOf(loaded))
    }

    constructor (ghost g: Gonum)
      ensures Valid(g) && loaded == [] && fresh(baseline) && fresh(baseline.cpu) && fresh(baseline.memory)
    {
      var cpu := new MetricsSummary();
      var memory := new MetricsSummary();
      baseline := new CheckMetricsSummary(cpu, memory);
      loaded := [];
    }

    /** One more recording: the summary is that of all recordings loaded so far, taken together. */
    method LoadBaseline(g: Gonum, usages: seq<Usage>)
      requires Valid(g)
      modifies this, baseline.cpu, baseline.memory
      ensures Valid(g) && loaded == old(loaded) + usages
    {
      assert CpuOf(loaded + usages) == CpuOf(loaded) + CpuOf(usages);
      assert MemoryOf(loaded + usages) == MemoryOf(loaded) + MemoryOf(usages);
      baseline.Add(usages);
      Resummarize(g, baseline.cpu, CpuOf(loaded), CpuOf(usages));
      Resummarize(g, baseline.memory, MemoryOf(loaded), MemoryOf(usages));
      loaded := loaded + usages;
    }

    /** Compares the average of a new recording with the baseline; the baseline does not change. */
    method AnalyzeTarget(g: Gonum, usages: seq<Usage>) returns (cpuDeviation: bool, memoryDeviation: bool)
      requires Valid(g)
      ensures cpuDeviation == Verdict(g, CpuOf(loaded), CpuOf(usages))
      ensures memoryDeviation == Verdict(g, MemoryOf(loaded), MemoryOf(usages))
    {
      var target := NewCheckMetricsSummary(g, usages);
      cpuDeviation := Deviates(baseline.cpu.avg, baseline.cpu.stdDev, target.cpu.avg);
      memoryDeviation := Deviates(baseline.memory.avg, baseline.memory.stdDev, target.memory.avg);
    }
  }

  /** The oracle's verdict on one metric, from nothing but the two lists of samples. */
  function Verdict(g: Gonum, baseline: seq<int>, target: seq<int>): bool {
    Deviates(SummaryOf(g, baseline).avg, SummaryOf(g, baseline).stdDev, SummaryOf(g, target).avg)
  }

  // ---------- incremental equals batch ----------

  lemma WrapAbsorbs(x: int, y: int)
    ensures Wrap64(Wrap64(x) + y) == Wrap64(x + y)
  {
  }

  lemma LoadingOnTop(g: Gonum, a: seq<int>, b: seq<int>)
    ensures Sort(Sort(a) + b) == Sort(a + b)
    ensures Sort(a) + b == [] <==> a + b == []
    ensures SummaryOf(g, Sort(a) + b) == SummaryOf(g, a + b)
    ensures a + b == [] ==> SummaryOf(g, a) == SummaryOf(g, a + b)
  {
    SortIsSorted(a);
    assert multiset(Sort(a) + b) == multiset(a + b);
    SortDependsOnMultiset(Sort(a) + b, a + b);
    if a + b == [] { assert a == []; }
  }

  /** The summary, and with it every verdict, depends only on the multiset of samples. */
  lemma SummaryDependsOnMultiset(g: Gonum, s: seq<int>, t: seq<int>)
    requires multiset(s) == multiset(t)
    ensures SummaryOf(g, s) == SummaryOf(g, t)
  {
    assert s == [] <==> t == [] by { assert |multiset(s)| == |s| && |multiset(t)| == |t|; }
    SortDependsOnMultiset(s, t);
  }

  // ---------- bounds ----------

  predicate Between(total: int, n: int, low: int, high: int) {
    low * n <= total <= high * n
  }

  lemma {:induction false} SumBetween(s: seq<int>, low: int, high: int)
    requires forall i :: 0 <= i < |s| ==> low <= s[i] <= high
    ensures Between(Sum(s), |s|, low, high)
  {
    if s != [] {
      SumBetween(s[..|s| - 1], low, high);
      assert low * |s| == low * (|s| - 1) + low && high * |s| == high * (|s| - 1) + high;
    }
  }

  lemma DivisionBetween(total: int, n: int, low: int, high: int)
    requires n > 0 && Between(total, n, low, high)
    ensures WithinReals(low, Quotient(total, n), high)
  {
    DividingIsMonotone((low * n) as real, total as real, n as real);
    DividingIsMonotone(total as real, (high * n) as real, n as real);
    ExactQuotient(low, n);
    ExactQuotient(high, n);
  }

  lemma ExactQuotient(x: int, n: int)
    requires n > 0
    ensures (x * n) as real / n as real == x as real
  {
    assert (x * n) as real == x as real * n as real;
  }

  predicate InUnit(x: real) {
    0.0 <= x <= 1.0
  }

  predicate AllInUnit(xs: seq<real>) {
    forall i :: 0 <= i < |xs| ==> InUnit(xs[i])
  }

  predicate Ascending(xs: seq<real>) {
    forall i, j :: 0 <= i < j < |xs| ==> xs[i] <= xs[j]
  }

  /** At most n/(4(n-1)), which is at most one half. */
  predicate SmallVariance(v: Float, n: int)
    requires n >= 2
  {
    v.Num? && 0.0 <= v.r <= n as real / (4.0 * (n - 1) as real) <= 0.5
  }

  predicate SmallRootOf(d: Float, v: Float) {
    d.Num? && v.Num? && 0.0 <= d.r < 1.0 && d.r * d.r == v.r
  }

  predicate WithinReals(low: int, x: real, high: int) {
    low as real <= x <= high as real
  }

  lemma NormalizedInUnit(s: seq<int>)
    requires s != [] && Sorted(s)
    ensures AllInUnit(Normalized(s)) && Ascending(Normalized(s))
  {
    var min, max := s[0], s[|s| - 1];
    forall i | 0 <= i < |s|
      ensures InUnit(Normalized(s)[i])
    {
      NormalizeIsMonotone(s[i], s[i], min, max);
    }
    forall i, j | 0 <= i < j < |s|
      ensures Normalized(s)[i] <= Normalized(s)[j]
    {
      NormalizeIsMonotone(s[i], s[j], min, max);
    }
  }

  lemma NormalizeIsMonotone(v: int, w: int, min: int, max: int)
    requires min <= v <= w <= max
    ensures InUnit(Normalize(v, min, max)) && Normalize(v, min, max) <= Normalize(w, min, max)
  {
    if min != max {
      var d := (max - min) as real;
      DividingIsMonotone(0.0, (v - min) as real, d);
      DividingIsMonotone((v - min) as real, (w - min) as real, d);
      DividingIsMonotone((v - min) as real, d, d);
    }
  }

  lemma DividingIsMonotone(x: real, y: real, d: real)
    requires x <= y && d > 0.0
    ensures x / d <= y / d
  {
    assert (y - x) / d >= 0.0;
    assert y / d == x / d + (y - x) / d;
  }

  lemma {:induction false} DeviationsExpand(xs: seq<real>, m: real)
    requires AllInUnit(xs)
    ensures 0.0 <= SquaredDeviations(xs, m) <= Expanded(Total(xs), |xs| as real, m)
  {
    if xs == [] {
      assert Expanded(0.0, 0.0, m) == 0.0;
    } else {
      var front, x := xs[..|xs| - 1], xs[|xs| - 1];
      DeviationsExpand(front, m);
      var d, t, n := SquaredDeviations(front, m), Total(front), |front| as real;
      OneMoreDeviation(d, t, n, x, m);
      assert SquaredDeviations(xs, m) == d + Square(x - m);
      assert Total(xs) == t + x && |xs| as real == n + 1.0;
    }
  }

  function Square(x: real): real {
    x * x
  }

  function Expanded(total: real, n: real, m: real): real {
    total - 2.0 * m * total + n * (m * m)
  }

  lemma SquareExpands(x: real, m: real)
    ensures Square(x - m) == x * x - 2.0 * m * x + m * m
  {
    var d := x - m;
    assert d * d == d * x - d * m;
    assert d * x == x * x - m * x && d * m == x * m - m * m;
  }

  lemma SquareIsNotNegative(x: real)
    ensures Square(x) >= 0.0
  {
    if x >= 0.0 {
      Products(x, x);
    } else {
      var y := -x;
      Products(y, y);
      NegatedSquare(x, y);
    }
  }

  lemma SquareInUnit(x: real)
    requires 0.0 <= x <= 1.0
    ensures x * x <= x
  {
    var rest := 1.0 - x;
    Products(x, rest);
    assert x * rest == x - x * x;
  }

  lemma OneMoreExpanded(total: real, n: real, x: real, m: real)
    ensures Expanded(total + x, n + 1.0, m) == Expanded(total, n, m) + x - 2.0 * m * x + m * m
  {
    var square := m * m;
    assert 2.0 * m * (total + x) == 2.0 * m * total + 2.0 * m * x;
    assert (n + 1.0) * square == n * square + square;
  }

  lemma OneMoreDeviation(d: real, total: real, n: real, x: real, m: real)
    requires d <= Expanded(total, n, m) && 0.0 <= x <= 1.0
    ensures 0.0 <= Square(x - m)
    ensures d + Square(x - m) <= Expanded(total + x, n + 1.0, m)
  {
    hide Square, Expanded;
    SquareIsNotNegative(x - m);
    SquareExpands(x, m);
    SquareInUnit(x);
    OneMoreExpanded(total, n, x, m);
  }

  lemma PopoviciuStep(d: real, total: real, n: real, m: real)
    requires n >= 2.0 && total == n * m && 0.0 <= d <= Expanded(total, n, m)
    ensures 0.0 <= d / (n - 1.0) <= n / (4.0 * (n - 1.0)) <= 0.5
  {
    assert total - 2.0 * m * total + n * (m * m) == n * (m - m * m) by {
      assert m * total == n * (m * m);
      assert n * (m - m * m) == n * m - n * (m * m);
    }
    QuarterBound(m);
    Products(n, 0.25 - (m - m * m));
    assert n * (0.25 - (m - m * m)) == 0.25 * n - n * (m - m * m);
    QuotientBound(d, n);
  }

  lemma QuarterBound(m: real)
    ensures m - m * m <= 0.25
  {
    if m >= 0.5 { Products(m - 0.5, m - 0.5); } else { Products(0.5 - m, 0.5 - m); }
    assert (m - 0.5) * (m - 0.5) == m * m - m + 0.25;
    assert (0.5 - m) * (0.5 - m) == m * m - m + 0.25;
  }

  lemma QuotientBound(d: real, n: real)
    requires n >= 2.0 && 0.0 <= d <= 0.25 * n
    ensures 0.0 <= d / (n - 1.0) <= n / (4.0 * (n - 1.0)) <= 0.5
  {
    DividingIsMonotone(0.0, d, n - 1.0);
    DividingIsMonotone(4.0 * d, n, 4.0 * (n - 1.0));
    DividingIsMonotone(n, 2.0 * (n - 1.0), 4.0 * (n - 1.0));
    CancelFactor(4.0, d, n - 1.0);
    CancelFactor(2.0 * (n - 1.0), 1.0, 2.0);
  }

  /** Popoviciu's inequality on [0, 1], for the sample variance. */
  lemma VarianceBound(xs: seq<real>)
    requires |xs| >= 2 && AllInUnit(xs)
    ensures SmallVariance(Num(Variance(xs)), |xs|)
  {
    var n := |xs| as real;
    var m := Total(xs) / n;
    DeviationsExpand(xs, m);
    PopoviciuStep(SquaredDeviations(xs, m), Total(xs), n, m);
  }

  lemma DeviationBounds(g: Gonum, xs: seq<real>)
    requires IsGonum(g) && |xs| >= 2 && AllInUnit(xs)
    ensures SmallVariance(g.variance(xs), |xs|) && SmallRootOf(g.stdDev(xs), g.variance(xs))
  {
    VarianceBound(xs);
    RootBelowOne(g.stdDev(xs).r);
  }

  lemma RootBelowOne(d: real)
    requires d >= 0.0 && d * d <= 0.5
    ensures d < 1.0
  {
    assert (d - 1.0) * (d + 1.0) == d * d - 1.0;
    if d >= 1.0 {
      Products(d - 1.0, d + 1.0);
    }
  }

  lemma AverageBetween(s: seq<int>)
    requires s != [] && Sorted(s) && Fits64(Sum(s))
    ensures WithinReals(s[0], Average(s), s[|s| - 1])
  {
    SumBetween(s, s[0], s[|s| - 1]);
    WrapFits(Sum(s));
    DivisionBetween(Sum(s), |s|, s[0], s[|s| - 1]);
  }

  /** All the bounds of a baseline of at least two samples whose total does not overflow. */
  lemma SummaryBounds(g: Gonum, samples: seq<int>)
    requires IsGonum(g) && |samples| >= 2 && Fits64(Sum(Sort(samples)))
    ensures var m := SummaryOf(g, samples);
            WithinReals(m.min, m.avg, m.max) &&
            |m.normalized| == |samples| && AllInUnit(m.normalized) && Ascending(m.normalized) && InUnit(m.median) &&
            SmallVariance(m.variance, |samples|) && SmallRootOf(m.stdDev, m.variance)
  {
    SortIsSorted(samples);
    AverageBetween(Sort(samples));
    NormalizedInUnit(Sort(samples));
    MedianInUnit(Normalized(Sort(samples)));
    DeviationBounds(g, Normalized(Sort(samples)));
  }

  lemma MedianInUnit(xs: seq<real>)
    requires xs != [] && AllInUnit(xs)
    ensures InUnit(Median(xs))
  {
    assert InUnit(xs[|xs| / 2]);
    if |xs| % 2 == 0 {
      assert InUnit(xs[|xs| / 2 - 1]);
    }
  }

  lemma BandAround(avg: real, stdDev: real)
    requires avg >= 0.0 && 0.0 <= stdDev < 1.0
    ensures avg * (1.0 - stdDev) <= avg <= avg * (1.0 + stdDev)
    ensures avg > 0.0 ==> avg * (1.0 - stdDev) > 0.0
  {
    Products(avg, stdDev);
    Products(avg, 1.0 - stdDev);
    assert avg * (1.0 + stdDev) == avg + avg * stdDev && avg * (1.0 - stdDev) == avg - avg * stdDev;
  }

  /** The band around a non-negative average contains it, and stays positive when the average is. */
  lemma ThresholdsBracket(g: Gonum, samples: seq<int>)
    requires IsGonum(g) && |samples| >= 2 && Fits64(Sum(Sort(samples)))
    requires SummaryOf(g, samples).avg >= 0.0
    ensures SummaryOf(g, samples).stdDev.Num?
    ensures var m := SummaryOf(g, samples);
            m.avg * (1.0 - m.stdDev.r) <= m.avg <= m.avg * (1.0 + m.stdDev.r) &&
            (m.avg > 0.0 ==> m.avg * (1.0 - m.stdDev.r) > 0.0)
  {
    SummaryBounds(g, samples);
    BandAround(SummaryOf(g, samples).avg, SummaryOf(g, samples).stdDev.r);
  }

  // ---------- the verdict ----------

  lemma DifferenceOfSquares(difference: real, sum: real, x: real, w: real)
    requires difference == x - w && sum == x + w
    ensures difference * sum == x * x - w * w
  {
  }

  lemma NegatedSquare(x: real, y: real)
    requires y == -x
    ensures y * y == x * x
  {
  }

  lemma LargerSquare(x: real, w: real)
    requires x > w >= 0.0
    ensures x * x > w * w
  {
    var difference, sum := x - w, x + w;
    DifferenceOfSquares(difference, sum, x, w);
    Products(difference, sum);
  }

  lemma SmallerSquare(x: real, w: real)
    requires -w <= x <= w
    ensures x * x <= w * w
  {
    var difference, sum := w - x, w + x;
    DifferenceOfSquares(difference, sum, w, x);
    Products(difference, sum);
  }

  lemma SquaresOrder(x: real, w: real)
    requires w >= 0.0
    ensures x > w || x < -w <==> x * x > w * w
  {
    if x > w {
      LargerSquare(x, w);
    } else if x < -w {
      var y := -x;
      LargerSquare(y, w);
      NegatedSquare(x, y);
    } else {
      SmallerSquare(x, w);
    }
  }

  lemma Products(x: real, y: real)
    requires x >= 0.0 && y >= 0.0
    ensures x * y >= 0.0
    ensures x > 0.0 && y > 0.0 ==> x * y > 0.0
  {
  }

  /** The verdict needs no square root: only the squared distance and the variance. */
  lemma VerdictWithoutRoots(avg: real, stdDev: real, target: real)
    requires avg >= 0.0 && stdDev >= 0.0
    ensures Deviates(avg, Num(stdDev), target) <==>
            (target - avg) * (target - avg) > avg * avg * (stdDev * stdDev)
  {
    var w := avg * stdDev;
    assert avg * (1.0 + stdDev) == avg + w && avg * (1.0 - stdDev) == avg - w;
    SquaresOrder(target - avg, w);
    assert w * w == avg * avg * (stdDev * stdDev);
  }

  predicate RootOf(d: Float, v: Float) {
    d.Num? && v.Num? && d.r >= 0.0 && d.r * d.r == v.r
  }

  lemma GonumRoot(g: Gonum, xs: seq<real>)
    requires IsGonum(g) && |xs| >= 2
    ensures RootOf(g.stdDev(xs), g.variance(xs))
  {
  }

  lemma VerdictFromRoot(avg: real, d: Float, v: Float, target: real)
    requires RootOf(d, v) && avg >= 0.0
    ensures Deviates(avg, d, target) <==> SquaredDistance(avg, target) > Band(avg, v.r)
  {
    VerdictWithoutRoots(avg, d.r, target);
  }

  function SquaredDistance(avg: real, target: real): real {
    (target - avg) * (target - avg)
  }

  function Band(avg: real, variance: real): real {
    avg * avg * variance
  }

  /** For a baseline with a non-negative average the verdict follows from its average and its variance: the
      squared distance from the average exceeds the squared average times the variance. */
  lemma VerdictByVariance(g: Gonum, baseline: seq<int>, target: seq<int>)
    requires IsGonum(g) && |baseline| >= 2 && SummaryOf(g, baseline).avg >= 0.0
    ensures SummaryOf(g, baseline).variance.Num?
    ensures var m := SummaryOf(g, baseline);
            Verdict(g, baseline, target) <==>
              SquaredDistance(m.avg, SummaryOf(g, target).avg) > Band(m.avg, m.variance.r)
  {
    SortIsSorted(baseline);
    GonumRoot(g, Normalized(Sort(baseline)));
    VerdictFromRoot(SummaryOf(g, baseline).avg, SummaryOf(g, baseline).stdDev, SummaryOf(g, baseline).variance,
                    SummaryOf(g, target).avg);
  }

  lemma SelfDeviates(avg: real, stdDev: real)
    requires stdDev >= 0.0
    ensures Deviates(avg, Num(stdDev), avg) <==> avg < 0.0 && stdDev > 0.0
  {
    var w := avg * stdDev;
    assert avg * (1.0 + stdDev) == avg + w && avg * (1.0 - stdDev) == avg - w;
    if avg >= 0.0 { Products(avg, stdDev); } else { Products(-avg, stdDev); assert (-avg) * stdDev == -w; }
  }

  predicate Differ(samples: seq<int>) {
    exists i, j :: 0 <= i < j < |samples| && samples[i] != samples[j]
  }

  lemma {:induction false} DeviationsFromOne(xs: seq<real>, m: real, k: int)
    requires 0 <= k < |xs| && xs[k] != m
    ensures SquaredDeviations(xs, m) > 0.0
  {
    var front, last := xs[..|xs| - 1], xs[|xs| - 1];
    DeviationsAreNotNegative(front, m);
    if last != m { SquareIsPositive(last - m); }
    if k < |front| { DeviationsFromOne(front, m, k); }
  }

  lemma SquareIsPositive(x: real)
    requires x != 0.0
    ensures Square(x) > 0.0
  {
    calc {
      Square(x);
    ==
      x * x;
    >
      0.0;
    }
  }

  lemma {:induction false} DeviationsAreNotNegative(xs: seq<real>, m: real)
    ensures SquaredDeviations(xs, m) >= 0.0
  {
    if xs != [] {
      DeviationsAreNotNegative(xs[..|xs| - 1], m);
      var d := xs[|xs| - 1] - m;
      if d != 0.0 { SquareIsPositive(d); }
    }
  }

  lemma {:induction false} NoDeviations(xs: seq<real>)
    requires forall i :: 0 <= i < |xs| ==> xs[i] == 0.0
    ensures Total(xs) == 0.0 && SquaredDeviations(xs, 0.0) == 0.0
  {
    if xs != [] { NoDeviations(xs[..|xs| - 1]); }
  }

  lemma SortHasTheSame(samples: seq<int>, x: int)
    ensures x in Sort(samples) <==> x in samples
  {
    SortIsSorted(samples);
    assert x in Sort(samples) <==> x in multiset(Sort(samples));
    assert x in samples <==> x in multiset(samples);
  }

  lemma EndsAreSamples(samples: seq<int>)
    requires samples != []
    ensures var s := Sort(samples);
            |s| == |samples| && s[0] in samples && s[|s| - 1] in samples &&
            forall x :: x in samples ==> s[0] <= x <= s[|s| - 1]
  {
    var s := Sort(samples);
    SortIsSorted(samples);
    SortHasTheSame(samples, s[0]);
    SortHasTheSame(samples, s[|s| - 1]);
    forall x | x in samples
      ensures s[0] <= x <= s[|s| - 1]
    {
      SortHasTheSame(samples, x);
    }
  }

  /** Samples differ exactly if, sorted, the first and the last of them do. */
  lemma DifferAtTheEnds(samples: seq<int>)
    requires samples != []
    ensures |Sort(samples)| == |samples|
    ensures Differ(samples) <==> Sort(samples)[0] != Sort(samples)[|samples| - 1]
  {
    EndsAreSamples(samples);
    var low, high := Sort(samples)[0], Sort(samples)[|samples| - 1];
    if low != high {
      var i :| 0 <= i < |samples| && samples[i] == low;
      var j :| 0 <= j < |samples| && samples[j] == high;
      assert samples[if i < j then i else j] != samples[if i < j then j else i];
    } else {
      assert forall i :: 0 <= i < |samples| ==> samples[i] in samples;
    }
  }

  lemma {:induction false} PositiveVariance(xs: seq<real>)
    requires |xs| >= 2 && xs[0] != xs[|xs| - 1]
    ensures Variance(xs) > 0.0
  {
    var m := Total(xs) / |xs| as real;
    DeviationsFromOne(xs, m, if m == xs[0] then |xs| - 1 else 0);
    QuotientIsPositive(SquaredDeviations(xs, m), (|xs| - 1) as real);
  }

  lemma ZeroVariance(xs: seq<real>)
    requires |xs| >= 2 && forall i :: 0 <= i < |xs| ==> xs[i] == 0.0
    ensures Variance(xs) == 0.0
  {
    NoDeviations(xs);
  }

  lemma NormalizedEnds(s: seq<int>)
    requires s != [] && Sorted(s)
    ensures s[0] != s[|s| - 1] ==> Normalized(s)[0] == 0.0 && Normalized(s)[|s| - 1] == 1.0
    ensures s[0] == s[|s| - 1] ==> forall i :: 0 <= i < |s| ==> Normalized(s)[i] == 0.0
  {
  }

  lemma VarianceOfSorted(s: seq<int>)
    requires |s| >= 2 && Sorted(s)
    ensures if s[0] != s[|s| - 1] then Variance(Normalized(s)) > 0.0 else Variance(Normalized(s)) == 0.0
  {
    NormalizedEnds(s);
    if s[0] != s[|s| - 1] {
      PositiveVariance(Normalized(s));
    } else {
      ZeroVariance(Normalized(s));
    }
  }

  lemma VarianceOfSamples(samples: seq<int>)
    requires |samples| >= 2
    ensures Sorted(Sort(samples)) && |Sort(samples)| == |samples|
    ensures var v := Variance(Normalized(Sort(samples)));
            if Differ(samples) then v > 0.0 else v == 0.0
  {
    SortIsSorted(samples);
    DifferAtTheEnds(samples);
    VarianceOfSorted(Sort(samples));
  }

  lemma RootIsPositive(d: real, v: real)
    requires d >= 0.0 && d * d == v
    ensures d > 0.0 <==> v > 0.0
  {
    if d != 0.0 {
      SquareIsPositive(d);
      calc {
        v;
      ==
        Square(d);
      >
        0.0;
      }
    }
  }

  lemma DeviationOfValues(g: Gonum, xs: seq<real>)
    requires IsGonum(g) && |xs| >= 2
    ensures g.stdDev(xs).Num? && g.stdDev(xs).r >= 0.0
    ensures g.stdDev(xs).r > 0.0 <==> Variance(xs) > 0.0
  {
    RootIsPositive(g.stdDev(xs).r, Variance(xs));
  }

  lemma DeviationInSummary(g: Gonum, samples: seq<int>)
    requires samples != []
    ensures Sorted(Sort(samples)) && |Sort(samples)| == |samples|
    ensures SummaryOf(g, samples).stdDev == g.stdDev(Normalized(Sort(samples)))
    ensures SummaryOf(g, samples).avg == Average(Sort(samples))
  {
    SortIsSorted(samples);
  }

  /** The deviation is positive exactly if two samples differ. */
  lemma PositiveDeviation(g: Gonum, samples: seq<int>)
    requires IsGonum(g) && |samples| >= 2
    ensures SummaryOf(g, samples).stdDev.Num? && SummaryOf(g, samples).stdDev.r >= 0.0
    ensures SummaryOf(g, samples).stdDev.r > 0.0 <==> Differ(samples)
  {
    VarianceOfSamples(samples);
    DeviationInSummary(g, samples);
    DeviationOfValues(g, Normalized(Sort(samples)));
  }

  lemma QuotientIsPositive(x: real, y: real)
    requires x > 0.0 && y > 0.0
    ensures x / y > 0.0
  {
  }

  lemma {:induction false} SumFromTheFront(x: int, s: seq<int>)
    ensures Sum([x] + s) == x + Sum(s)
  {
    if s == [] {
      assert [x] + s == [x];
    } else {
      assert ([x] + s)[..|s|] == [x] + s[..|s| - 1];
      SumFromTheFront(x, s[..|s| - 1]);
    }
  }

  lemma {:induction false} SortKeepsSum(s: seq<int>)
    ensures Sum(Sort(s)) == Sum(s)
  {
    if s != [] {
      SortKeepsSum(s[1..]);
      InsertAdds(s[0], Sort(s[1..]));
      SumFromTheFront(s[0], s[1..]);
      assert s == [s[0]] + s[1..];
    }
  }

  lemma {:induction false} InsertAdds(x: int, s: seq<int>)
    ensures Sum(Insert(x, s)) == x + Sum(s)
  {
    SumFromTheFront(x, s);
    if s != [] && x > s[0] {
      InsertAdds(x, s[1..]);
      SumFromTheFront(s[0], Insert(x, s[1..]));
      SumFromTheFront(s[0], s[1..]);
      assert s == [s[0]] + s[1..];
    }
  }

  /** A baseline compared with itself deviates exactly when its total is negative, as the code computes it, and its
      samples differ; processor and memory readings are never negative. A single sample never deviates. */
  lemma SelfAnalysis(g: Gonum, samples: seq<int>)
    requires IsGonum(g) && samples != []
    ensures Verdict(g, samples, samples) <==> Wrap64(Sum(samples)) < 0 && Differ(samples)
    ensures |samples| == 1 ==> forall target :: !Verdict(g, samples, target)
  {
    SortIsSorted(samples);
    SortKeepsSum(samples);
    var m := SummaryOf(g, samples);
    var xs := Normalized(Sort(samples));
    if |samples| >= 2 {
      PositiveDeviation(g, samples);
      SelfDeviates(m.avg, m.stdDev.r);
      NegativeQuotient(Wrap64(Sum(samples)), |samples|);
    } else {
      assert xs == [xs[0]];
      assert g.stdDev([xs[0]]) == NaN;
    }
  }

  lemma NegativeQuotient(total: int, n: int)
    requires n > 0
    ensures Quotient(total, n) < 0.0 <==> total < 0
  {
    if total < 0 {
      QuotientIsPositive((-total) as real, n as real);
    } else if total > 0 {
      QuotientIsPositive(total as real, n as real);
    }
  }

  // ---------- on the samples themselves ----------

  /** The samples in ascending order. */
  ghost predicate IsSorting(s: seq<int>, samples: seq<int>) {
    Sorted(s) && multiset(s) == multiset(samples) && samples != []
  }

  lemma SortingIsSort(s: seq<int>, samples: seq<int>)
    requires IsSorting(s, samples)
    ensures s == Sort(samples) && |s| == |samples|
  {
    SortIsSorted(samples);
    SortedIsUnique(s, Sort(samples));
  }

  /** Each normalised value is the distance from the smallest sample in units of the range. */
  lemma NormalizedByRange(g: Gonum, samples: seq<int>, s: seq<int>)
    requires IsSorting(s, samples)
    ensures var m, range := SummaryOf(g, samples), s[|s| - 1] - s[0];
            m.min == s[0] && m.max == s[|s| - 1] && Rescaled(m.normalized, s, s[0], range as real) &&
            (range == 0 ==> forall i :: 0 <= i < |s| ==> m.normalized[i] == 0.0)
  {
    hide Sort, Average, Median, Rescaled, Normalized;
    SortingIsSort(s, samples);
    NormalizedRescales(s);
  }

  /** The median is that of the sorted samples, as a distance from the smallest one in units of the range. */
  lemma MedianByPosition(g: Gonum, samples: seq<int>, s: seq<int>)
    requires IsSorting(s, samples)
    ensures var m, range, n := SummaryOf(g, samples), s[|s| - 1] - s[0], |s|;
            (range == 0 ==> m.median == 0.0) &&
            2.0 * (m.median * range as real) ==
              (if n % 2 == 1 then 2 * s[n / 2] - 2 * s[0] else s[n / 2 - 1] + s[n / 2] - 2 * s[0]) as real
  {
    hide Sort, Sorted, Normalize;
    SortingIsSort(s, samples);
    NormalizedByRange(g, samples, s);
    var xs, range, n := SummaryOf(g, samples).normalized, (s[|s| - 1] - s[0]) as real, |s|;
    assert SummaryOf(g, samples).median == Median(xs);
    if n % 2 == 0 {
      var x, y := xs[n / 2 - 1], xs[n / 2];
      assert x * range == (s[n / 2 - 1] - s[0]) as real && y * range == (s[n / 2] - s[0]) as real;
      HalfOfBoth(x, y, range);
    } else {
      assert xs[n / 2] * range == (s[n / 2] - s[0]) as real;
    }
  }

  lemma HalfOfBoth(x: real, y: real, range: real)
    ensures 2.0 * ((x + y) / 2.0 * range) == x * range + y * range
  {
  }

  lemma AverageInSummary(g: Gonum, samples: seq<int>)
    requires samples != []
    ensures SummaryOf(g, samples).avg == Quotient(Wrap64(Sum(samples)), |samples|)
  {
    SortIsSorted(samples);
    SortKeepsSum(samples);
  }

  lemma QuotientTimes(total: int, n: int)
    requires n > 0
    ensures Quotient(total, n) * n as real == total as real
  {
    var x, d := total as real, n as real;
    assert x / d * d == x;
  }

  /** The average is the total, as a 64-bit number, by the number of samples. */
  lemma AverageOfSamples(g: Gonum, samples: seq<int>)
    requires samples != []
    ensures SummaryOf(g, samples).avg * |samples| as real == Wrap64(Sum(samples)) as real
  {
    hide Quotient, Wrap64, SummaryOf;
    AverageInSummary(g, samples);
    QuotientTimes(Wrap64(Sum(samples)), |samples|);
  }

  function SquaredErrors(samples: seq<int>, mean: real): real {
    if samples == [] then 0.0
    else SquaredErrors(samples[..|samples| - 1], mean) + Square(samples[|samples| - 1] as real - mean)
  }

  lemma {:induction false} ErrorsFromTheFront(x: int, s: seq<int>, mean: real)
    ensures SquaredErrors([x] + s, mean) == Square(x as real - mean) + SquaredErrors(s, mean)
  {
    if s == [] {
      assert [x] + s == [x] && [x][..0] == [];
    } else {
      assert ([x] + s)[..|s|] == [x] + s[..|s| - 1];
      ErrorsFromTheFront(x, s[..|s| - 1], mean);
    }
  }

  lemma {:induction false} InsertKeepsErrors(x: int, s: seq<int>, mean: real)
    ensures SquaredErrors(Insert(x, s), mean) == Square(x as real - mean) + SquaredErrors(s, mean)
  {
    ErrorsFromTheFront(x, s, mean);
    if s != [] && x > s[0] {
      InsertKeepsErrors(x, s[1..], mean);
      ErrorsFromTheFront(s[0], Insert(x, s[1..]), mean);
      ErrorsFromTheFront(s[0], s[1..], mean);
      assert s == [s[0]] + s[1..];
    }
  }

  lemma {:induction false} SortKeepsErrors(s: seq<int>, mean: real)
    ensures SquaredErrors(Sort(s), mean) == SquaredErrors(s, mean)
  {
    if s != [] {
      SortKeepsErrors(s[1..], mean);
      InsertKeepsErrors(s[0], Sort(s[1..]), mean);
      ErrorsFromTheFront(s[0], s[1..], mean);
      assert s == [s[0]] + s[1..];
    }
  }

  function Times(n: int, k: int): int {
    n * k
  }

  lemma OneMoreTime(n: int, k: int)
    ensures Times(n + 1, k) == Times(n, k) + k
  {
  }

  lemma {:induction false} TotalRescales(xs: seq<real>, s: seq<int>, min: int, range: real)
    requires Rescaled(xs, s, min, range)
    ensures Total(xs) * range == (Sum(s) - Times(|s|, min)) as real
  {
    hide Times;
    if s == [] {
      assert Times(0, min) == 0 by { NoTimes(min); }
    } else {
      var n := |s| - 1;
      var before, last := Total(xs[..n]), xs[n];
      TotalRescales(xs[..n], s[..n], min, range);
      Distributes(before, last, range);
      OneMoreTime(n, min);
    }
  }

  lemma NoTimes(k: int)
    ensures Times(0, k) == 0
  {
  }

  lemma Distributes(x: real, y: real, z: real)
    ensures (x + y) * z == x * z + y * z
    ensures (x - y) * z == x * z - y * z
  {
  }

  lemma SquareRescales(x: real, range: real, y: real)
    requires x * range == y
    ensures Square(x) * Square(range) == Square(y)
  {
    assert (x * range) * (x * range) == (x * x) * (range * range);
  }

  lemma {:induction false} DeviationsRescale(xs: seq<real>, s: seq<int>, min: int, range: real, mx: real, ms: real)
    requires Rescaled(xs, s, min, range) && mx * range == ms - min as real
    ensures SquaredDeviations(xs, mx) * Square(range) == SquaredErrors(s, ms)
  {
    hide Square;
    if s != [] {
      var n := |s| - 1;
      var before, x, y := SquaredDeviations(xs[..n], mx), xs[n], s[n] as real;
      DeviationsRescale(xs[..n], s[..n], min, range, mx, ms);
      Distributes(x, mx, range);
      SquareRescales(x - mx, range, y - ms);
      Distributes(before, Square(x - mx), Square(range));
    }
  }

  lemma MeanRescales(total: real, sum: int, n: int, min: int, range: real)
    requires n > 0 && total * range == (sum - Times(n, min)) as real
    ensures total / n as real * range == sum as real / n as real - min as real
  {
    var k := n as real;
    var mx, ms := total / k, sum as real / k;
    assert mx * k == total && ms * k == sum as real;
    assert (n * min) as real == k * min as real;
    assert (mx * range) * k == (ms - min as real) * k by {
      assert (mx * range) * k == (mx * k) * range;
      Distributes(ms, min as real, k);
    }
    EqualFactors(mx * range, ms - min as real, k);
  }

  lemma EqualFactors(x: real, y: real, k: real)
    requires k > 0.0 && x * k == y * k
    ensures x == y
  {
    assert (x - y) * k == 0.0;
    assert ((x - y) * k) / k == x - y;
  }

  lemma VarianceRescales(xs: seq<real>, s: seq<int>, min: int, range: real)
    requires Rescaled(xs, s, min, range) && |s| >= 2
    ensures Variance(xs) * (|s| - 1) as real * Square(range) == SquaredErrors(s, Quotient(Sum(s), |s|))
  {
    hide Square;
    var n := |s|;
    TotalRescales(xs, s, min, range);
    MeanRescales(Total(xs), Sum(s), n, min, range);
    DeviationsRescale(xs, s, min, range, Total(xs) / n as real, Quotient(Sum(s), n));
    DividedBack(SquaredDeviations(xs, Total(xs) / n as real), (n - 1) as real);
  }

  lemma DividedBack(x: real, k: real)
    requires k > 0.0
    ensures x / k * k == x
  {
  }

  lemma VarianceInSummary(g: Gonum, samples: seq<int>)
    requires IsGonum(g) && |samples| >= 2
    ensures |SummaryOf(g, samples).normalized| == |samples|
    ensures SummaryOf(g, samples).variance == Num(Variance(SummaryOf(g, samples).normalized))
  {
    SortIsSorted(samples);
  }

  /** The variance in the summary is the sample variance of the samples themselves, in units of the squared range. */
  lemma VarianceBySamples(g: Gonum, samples: seq<int>, s: seq<int>)
    requires IsGonum(g) && IsSorting(s, samples) && |s| >= 2
    ensures SummaryOf(g, samples).variance.Num?
    ensures SummaryOf(g, samples).variance.r * (|s| - 1) as real * Square((s[|s| - 1] - s[0]) as real) ==
            SquaredErrors(samples, Quotient(Sum(samples), |samples|))
  {
    hide Sort, Sorted, Variance, Square, Quotient, SummaryOf, IsGonum, SquaredErrors, Rescaled;
    SortingIsSort(s, samples);
    NormalizedByRange(g, samples, s);
    VarianceInSummary(g, samples);
    VarianceRescales(SummaryOf(g, samples).normalized, s, s[0], (s[|s| - 1] - s[0]) as real);
    SortKeepsSum(samples);
    SortKeepsErrors(samples, Quotient(Sum(samples), |samples|));
  }

  lemma CrossMultiplied(x: real, y: real, v: real, k: real, errors: real)
    requires k > 0.0 && v * k == errors
    ensures x > y * v <==> x * k > y * errors
  {
    assert (y * v) * k == y * errors;
    Distributes(x, y * v, k);
    ScaledComparison(k, x, y * v);
    assert k * x == x * k && k * (y * v) == (y * v) * k;
  }

  /** The verdict on the samples themselves, for a baseline of at least two whose total is not negative and does not
      overflow: the squared distance of the averages, times n-1 and the squared range, exceeds the squared average
      times the squared errors of the baseline. Without a range any other average deviates. */
  lemma VerdictOnSamples(g: Gonum, baseline: seq<int>, target: seq<int>, s: seq<int>)
    requires IsGonum(g) && |baseline| >= 2 && IsSorting(s, baseline) && target != []
    requires Sum(baseline) >= 0 && Fits64(Sum(baseline)) && Fits64(Sum(target))
    ensures var range, a, t := (s[|s| - 1] - s[0]) as real, Mean(baseline), Mean(target);
            Verdict(g, baseline, target) <==>
              if range == 0.0 then t != a
              else Square(t - a) * ((|baseline| - 1) as real * Square(range)) > Square(a) * SquaredErrors(baseline, a)
  {
    hide Sort, Sorted, Square, SquaredErrors, SummaryOf, IsGonum, Mean, SquaredDistance, Band, Verdict;
    SortingIsSort(s, baseline);
    var a, t := Mean(baseline), Mean(target);
    AverageIsMean(g, baseline);
    AverageIsMean(g, target);
    VerdictByVariance(g, baseline, target);
    var range, n1 := (s[|s| - 1] - s[0]) as real, (|baseline| - 1) as real;
    if range == 0.0 {
      NoRangeNoVariance(g, baseline, s);
      DistanceWithoutBand(a, t);
    } else {
      VarianceBySamples(g, baseline, s);
      DistanceOverBand(a, t, SummaryOf(g, baseline).variance.r, n1, range, SquaredErrors(baseline, a));
    }
  }

  function Mean(samples: seq<int>): real
    requires samples != []
  {
    Sum(samples) as real / |samples| as real
  }

  lemma DistanceWithoutBand(a: real, t: real)
    ensures SquaredDistance(a, t) > Band(a, 0.0) <==> t != a
  {
    if t != a { SquareIsPositive(t - a); }
  }

  lemma DistanceOverBand(a: real, t: real, v: real, n: real, range: real, errors: real)
    requires n > 0.0 && range != 0.0 && v * n * Square(range) == errors
    ensures SquaredDistance(a, t) > Band(a, v) <==> Square(t - a) * (n * Square(range)) > Square(a) * errors
  {
    PositiveWeight(range, n);
    var k := n * Square(range);
    assert v * k == v * n * Square(range);
    CrossMultiplied(Square(t - a), Square(a), v, k, errors);
  }

  lemma PositiveWeight(range: real, n: real)
    requires range != 0.0 && n > 0.0
    ensures n * Square(range) > 0.0
  {
    SquareIsPositive(range);
    Products(n, Square(range));
  }

  lemma AverageIsMean(g: Gonum, samples: seq<int>)
    requires samples != [] && Fits64(Sum(samples))
    ensures SummaryOf(g, samples).avg == Mean(samples) == Quotient(Sum(samples), |samples|)
    ensures Sum(samples) >= 0 ==> SummaryOf(g, samples).avg >= 0.0
  {
    AverageInSummary(g, samples);
    WrapFits(Sum(samples));
    NegativeQuotient(Sum(samples), |samples|);
  }

  lemma NoRangeNoVariance(g: Gonum, samples: seq<int>, s: seq<int>)
    requires IsGonum(g) && IsSorting(s, samples) && |s| >= 2 && s[0] == s[|s| - 1]
    ensures SummaryOf(g, samples).variance == Num(0.0)
  {
    SortingIsSort(s, samples);
    VarianceOfSorted(s);
  }

  // ---------- change of unit ----------

  function Scaled(s: seq<int>, k: int): (t: seq<int>)
    ensures |t| == |s| && forall i :: 0 <= i < |s| ==> t[i] == k * s[i]
  {
    seq(|s|, i requires 0 <= i < |s| => k * s[i])
  }

  lemma {:induction false} InsertScales(x: int, s: seq<int>, k: int)
    requires k > 0
    ensures Insert(k * x, Scaled(s, k)) == Scaled(Insert(x, s), k)
  {
    if s == [] {
    } else {
      assert k * x <= k * s[0] <==> x <= s[0] by {
        if x <= s[0] { assert k * (s[0] - x) >= 0; } else { assert k * (x - s[0]) > 0; }
      }
      assert Scaled(s, k)[1..] == Scaled(s[1..], k);
      InsertScales(x, s[1..], k);
    }
  }

  lemma {:induction false} SortScales(s: seq<int>, k: int)
    requires k > 0
    ensures Sort(Scaled(s, k)) == Scaled(Sort(s), k)
  {
    if s != [] {
      assert Scaled(s, k)[1..] == Scaled(s[1..], k);
      SortScales(s[1..], k);
      InsertScales(s[0], Sort(s[1..]), k);
    }
  }

  lemma {:induction false} SumScales(s: seq<int>, k: int)
    ensures Sum(Scaled(s, k)) == k * Sum(s)
  {
    if s != [] {
      assert Scaled(s, k)[..|s| - 1] == Scaled(s[..|s| - 1], k);
      SumScales(s[..|s| - 1], k);
      assert k * Sum(s) == k * Sum(s[..|s| - 1]) + k * s[|s| - 1];
    }
  }

  lemma NormalizedIgnoresScale(s: seq<int>, k: int)
    requires k > 0 && s != [] && Sorted(s) && Sorted(Scaled(s, k))
    ensures Normalized(Scaled(s, k)) == Normalized(s)
  {
    forall i | 0 <= i < |s|
      ensures Normalized(Scaled(s, k))[i] == Normalized(s)[i]
    {
      NormalizeIgnoresScale(s[i], s[0], s[|s| - 1], k);
    }
  }

  lemma NormalizeIgnoresScale(v: int, min: int, max: int, k: int)
    requires k > 0 && min <= max
    ensures k * min <= k * max
    ensures Normalize(k * v, k * min, k * max) == Normalize(v, min, max)
  {
    assert k * max - k * min == k * (max - min) && k * v - k * min == k * (v - min);
    if min != max {
      assert k * (max - min) > 0;
      assert (k * (v - min)) as real == k as real * (v - min) as real;
      assert (k * (max - min)) as real == k as real * (max - min) as real;
      CancelFactor(k as real, (v - min) as real, (max - min) as real);
    }
  }

  lemma CancelFactor(k: real, x: real, d: real)
    requires k > 0.0 && d > 0.0
    ensures k * d > 0.0 && (k * x) / (k * d) == x / d
  {
    var q := x / d;
    assert q * d == x;
    assert (k * d) * q == k * x;
  }

  predicate ScaledBy(k: int, x: real, y: real) {
    x == k as real * y
  }

  lemma AverageScales(s: seq<int>, k: int)
    requires k > 0 && s != [] && Fits64(Sum(s)) && Fits64(k * Sum(s))
    ensures ScaledBy(k, Average(Scaled(s, k)), Average(s))
  {
    SumScales(s, k);
    WrapFits(Sum(s));
    WrapFits(k * Sum(s));
    ScaledQuotient(k, Sum(s), |s|);
  }

  lemma SummaryScales(g: Gonum, s: seq<int>, k: int)
    requires k > 0 && Fits64(Sum(Sort(s))) && Fits64(k * Sum(Sort(s)))
    ensures ScaledBy(k, SummaryOf(g, Scaled(s, k)).avg, SummaryOf(g, s).avg)
    ensures SummaryOf(g, Scaled(s, k)).stdDev == SummaryOf(g, s).stdDev
  {
    if s != [] {
      SortScales(s, k);
      SortIsSorted(s);
      SortIsSorted(Scaled(s, k));
      AverageScales(Sort(s), k);
      NormalizedIgnoresScale(Sort(s), k);
    }
  }

  lemma ScaledQuotient(k: int, total: int, n: int)
    requires n > 0
    ensures ScaledBy(k, Quotient(k * total, n), Quotient(total, n))
  {
    var q := total as real / n as real;
    assert q * n as real == total as real;
    assert (k * total) as real == k as real * total as real;
    assert (k as real * q) * n as real == k as real * (q * n as real);
  }

  /** Measuring baseline and target in another unit changes no verdict, as long as nothing overflows. */
  lemma VerdictIgnoresUnit(g: Gonum, baseline: seq<int>, target: seq<int>, k: int)
    requires k > 0
    requires Fits64(Sum(Sort(baseline))) && Fits64(k * Sum(Sort(baseline)))
    requires Fits64(Sum(Sort(target))) && Fits64(k * Sum(Sort(target)))
    ensures Verdict(g, Scaled(baseline, k), Scaled(target, k)) == Verdict(g, baseline, target)
  {
    SummaryScales(g, baseline, k);
    SummaryScales(g, target, k);
    var m, m' := SummaryOf(g, baseline), SummaryOf(g, Scaled(baseline, k));
    var t, t' := SummaryOf(g, target), SummaryOf(g, Scaled(target, k));
    DeviationIgnoresUnit(k, m.avg, m'.avg, m.stdDev, t.avg, t'.avg);
  }

  lemma DeviationIgnoresUnit(k: int, avg: real, avg': real, stdDev: Float, target: real, target': real)
    requires k > 0 && ScaledBy(k, avg', avg) && ScaledBy(k, target', target)
    ensures Deviates(avg', stdDev, target') == Deviates(avg, stdDev, target)
  {
    if stdDev.Num? {
      ScaledThreshold(k as real, avg, 1.0 + stdDev.r, target);
      ScaledThreshold(k as real, avg, 1.0 - stdDev.r, target);
    }
  }

  lemma ScaledThreshold(k: real, avg: real, factor: real, target: real)
    requires k > 0.0
    ensures k * target > (k * avg) * factor <==> target > avg * factor
    ensures k * target < (k * avg) * factor <==> target < avg * factor
  {
    assert (k * avg) * factor == k * (avg * factor);
    ScaledComparison(k, target, avg * factor);
  }

  lemma ScaledComparison(k: real, x: real, y: real)
    requires k > 0.0
    ensures k * x > k * y <==> x > y
    ensures k * x < k * y <==> x < y
  {
    assert k * (x - y) == k * x - k * y;
    if x > y { Products(k, x - y); }
    if x < y { Products(k, y - x); assert k * (y - x) == k * y - k * x; }
  }
}
