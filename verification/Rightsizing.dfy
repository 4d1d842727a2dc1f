/** The rightsizing engine: percentiles of observed usage with headroom become requests. */
module Rightsizing {
  import opened Wrappers
  import opened Basics

  const MONTHLY_HOURS := 730.0

  datatype Sample = Sample(
    seconds: nat, cpuUsage: nat, memoryUsage: nat, cpuRequest: nat, memoryRequest: nat, cpuLimit: nat, memoryLimit: nat)

  datatype Config = Config(
    minimumSamples: int, cpuHeadroom: real, memoryHeadroom: real, cpuLimitMultiplier: real, memoryLimitMultiplier: real,
    minCpu: nat, minMemory: nat, cpuPrice: real, memoryPrice: real)

  datatype Recommendation = Recommendation(
    cpuP95: nat, memoryP99: nat, currentCpu: nat, cpu: nat, currentMemory: nat, memory: nat,
    currentCpuLimit: nat, cpuLimit: nat, currentMemoryLimit: nat, memoryLimit: nat, savings: real)

  // ---------------------------------------------------------------- arithmetic

  function CeilDiv(value: nat, divisor: nat): nat
    requires divisor > 0
  {
    if value == 0 then 0 else (value - 1) / divisor + 1
  }

  lemma MulMonotone(a: nat, b: nat, d: nat)
    requires a <= b
    ensures a * d <= b * d
  {
  }

  /** The rounded-up quotient is the least number of units that covers the value. */
  lemma CeilDivIsLeast(value: nat, divisor: nat, k: nat)
    requires divisor > 0
    ensures value <= CeilDiv(value, divisor) * divisor
    ensures value <= k * divisor ==> CeilDiv(value, divisor) <= k
  {
    if value > 0 {
      var q, r := (value - 1) / divisor, (value - 1) % divisor;
      QuotientBounds(value - 1, divisor, q, r);
      if k <= q { MulMonotone(k, q, divisor); }
    }
  }

  lemma QuotientBounds(x: nat, d: nat, q: nat, r: nat)
    requires d > 0 && q == x / d && r == x % d
    ensures q * d <= x < (q + 1) * d
  {
    assert x == d * q + r;
  }

  function Average(amount: nat, seconds: nat): nat {
    if seconds == 0 then 0 else CeilDiv(amount, seconds)
  }

  /** The least whole rate that yields the amount in the time; nothing is a rate over no time. */
  lemma AverageIsLeast(amount: nat, seconds: nat, k: nat)
    ensures seconds == 0 ==> Average(amount, seconds) == 0
    ensures seconds > 0 ==> amount <= Average(amount, seconds) * seconds
    ensures seconds > 0 && amount <= k * seconds ==> Average(amount, seconds) <= k
  {
    if seconds > 0 { CeilDivIsLeast(amount, seconds, k); }
  }

  function Ceil(x: real): int { -((-x).Floor) }

  lemma CeilBounds(x: real)
    ensures x <= Ceil(x) as real < x + 1.0
  {
  }

  function CeilNat(x: real): nat { if x <= 0.0 then 0 else Ceil(x) }

  function PositiveDelta(current: nat, recommended: nat): nat {
    if current <= recommended then 0 else current - recommended
  }

  /** Rounding to a millionth, halves up; only used on amounts that are not negative. */
  function RoundMoney(x: real): real { (x * 1000000.0 + 0.5).Floor as real / 1000000.0 }

  // ---------------------------------------------------------------- percentiles

  function CountAtMost(values: seq<nat>, v: nat): nat {
    if values == [] then 0 else
      CountAtMost(values[..|values| - 1], v) + (if values[|values| - 1] <= v then 1 else 0)
  }

  ghost predicate Ascending(values: seq<nat>) {
    forall i, j :: 0 <= i < j < |values| ==> values[i] <= values[j]
  }

  lemma {:induction false} CountConcat(a: seq<nat>, b: seq<nat>, v: nat)
    ensures CountAtMost(a + b, v) == CountAtMost(a, v) + CountAtMost(b, v)
  {
    if b == [] {
      assert a + b == a;
    } else {
      var n := |b| - 1;
      assert (a + b)[..|a + b| - 1] == a + b[..n];
      CountConcat(a, b[..n], v);
    }
  }

  /** An in-order insertion per element; the result is an ordered rearrangement. */
  method Sort(values: seq<nat>) returns (sorted: seq<nat>)
    ensures Ascending(sorted) && multiset(sorted) == multiset(values) && |sorted| == |values|
    ensures forall v :: CountAtMost(sorted, v) == CountAtMost(values, v)
  {
    sorted := [];
    for i := 0 to |values|
      invariant Ascending(sorted) && |sorted| == i
      invariant multiset(sorted) == multiset(values[..i])
      invariant forall v :: CountAtMost(sorted, v) == CountAtMost(values[..i], v)
    {
      assert values[..i + 1] == values[..i] + [values[i]];
      sorted := Insert(sorted, values[i], values[..i]);
    }
    assert values[..|values|] == values;
  }

  method Insert(sorted: seq<nat>, x: nat, ghost base: seq<nat>) returns (more: seq<nat>)
    requires Ascending(sorted) && multiset(sorted) == multiset(base)
    requires forall v :: CountAtMost(sorted, v) == CountAtMost(base, v)
    ensures Ascending(more) && |more| == |sorted| + 1
    ensures multiset(more) == multiset(base + [x])
    ensures forall v :: CountAtMost(more, v) == CountAtMost(base + [x], v)
  {
    var k := 0;
    while k < |sorted| && sorted[k] <= x
      invariant 0 <= k <= |sorted|
      invariant forall j :: 0 <= j < k ==> sorted[j] <= x
    {
      k := k + 1;
    }
    more := sorted[..k] + [x] + sorted[k..];
    InsertedCounts(sorted, k, x, base);
  }

  lemma InsertedCounts(sorted: seq<nat>, k: nat, x: nat, base: seq<nat>)
    requires k <= |sorted| && multiset(sorted) == multiset(base)
    requires forall v :: CountAtMost(sorted, v) == CountAtMost(base, v)
    ensures var more := sorted[..k] + [x] + sorted[k..];
            && multiset(more) == multiset(base + [x])
            && forall v :: CountAtMost(more, v) == CountAtMost(base + [x], v)
  {
    var low, high := sorted[..k], sorted[k..];
    var more := low + [x] + high;
    assert sorted == low + high;
    assert multiset(more) == multiset(low) + multiset{x} + multiset(high);
    forall v ensures CountAtMost(more, v) == CountAtMost(base + [x], v) {
      CountConcat(low + [x], high, v);
      CountConcat(low, [x], v);
      CountConcat(low, high, v);
      CountConcat(base, [x], v);
    }
  }

  lemma {:induction false} CountBound(values: seq<nat>, v: nat)
    ensures CountAtMost(values, v) <= |values|
  {
    if values != [] { CountBound(values[..|values| - 1], v); }
  }

  lemma {:induction false} CountAll(values: seq<nat>, v: nat)
    requires forall i :: 0 <= i < |values| ==> values[i] <= v
    ensures CountAtMost(values, v) == |values|
  {
    if values != [] { CountAll(values[..|values| - 1], v); }
  }

  lemma {:induction false} CountNone(values: seq<nat>, v: nat)
    requires forall i :: 0 <= i < |values| ==> values[i] > v
    ensures CountAtMost(values, v) == 0
  {
    if values != [] { CountNone(values[..|values| - 1], v); }
  }

  /** `v` is the least number that at least `rank` of the values do not exceed. */
  ghost predicate IsRanked(values: seq<nat>, rank: nat, v: nat) {
    && v in values
    && CountAtMost(values, v) >= rank
    && forall u: nat :: u < v ==> CountAtMost(values, u) < rank
  }

  lemma CountUpTo(sorted: seq<nat>, index: nat)
    requires Ascending(sorted) && index < |sorted|
    ensures CountAtMost(sorted, sorted[index]) >= index + 1
  {
    var low, high := sorted[..index + 1], sorted[index + 1..];
    assert sorted == low + high;
    CountConcat(low, high, sorted[index]);
    CountAll(low, sorted[index]);
  }

  lemma CountBelow(sorted: seq<nat>, index: nat, u: nat)
    requires Ascending(sorted) && index < |sorted| && u < sorted[index]
    ensures CountAtMost(sorted, u) <= index
  {
    var low, high := sorted[..index], sorted[index..];
    assert sorted == low + high;
    CountConcat(low, high, u);
    CountBound(low, u);
    forall i | 0 <= i < |high| ensures high[i] > u { assert high[i] == sorted[index + i]; }
    CountNone(high, u);
  }

  /** Position decides rank, and rank survives rearrangement. */
  lemma RankInSorted(values: seq<nat>, sorted: seq<nat>, index: nat)
    requires Ascending(sorted) && index < |sorted| && multiset(sorted) == multiset(values)
    requires forall v :: CountAtMost(sorted, v) == CountAtMost(values, v)
    ensures IsRanked(values, index + 1, sorted[index])
  {
    assert sorted[index] in multiset(sorted);
    CountUpTo(sorted, index);
    forall u: nat | u < sorted[index] ensures CountAtMost(values, u) < index + 1 { CountBelow(sorted, index, u); }
  }

  /** The 1-based rank the quantile selects among n values. */
  function RankOf(n: nat, q: real): (rank: nat)
    requires n > 0
    ensures 1 <= rank <= n
  {
    Clamped(Ceil(q * n as real) - 1, n) + 1
  }

  function Clamped(index: int, n: nat): (i: nat)
    requires n > 0
    ensures i < n
  {
    if index < 0 then 0 else if index >= n then n - 1 else index
  }

  /** Reading off a position of the sorted copy. */
  method Ranked(values: seq<nat>, sorted: seq<nat>, index: nat) returns (v: nat)
    requires Ascending(sorted) && index < |sorted| && multiset(sorted) == multiset(values)
    requires forall v :: CountAtMost(sorted, v) == CountAtMost(values, v)
    ensures IsRanked(values, index + 1, v)
  {
    RankInSorted(values, sorted, index);
    v := sorted[index];
  }

  ghost predicate IsPercentile(values: seq<nat>, q: real, v: nat) {
    if values == [] then v == 0 else IsRanked(values, RankOf(|values|, q), v)
  }

  /** Zero without values. */
  method Percentile(values: seq<nat>, q: real) returns (v: nat)
    ensures IsPercentile(values, q, v)
  {
    if |values| == 0 { return 0; }
    var sorted := Sort(values);
    var n := |sorted|;
    var index := Ceil(q * n as real) - 1;
    if index < 0 { index := 0; }
    if index >= n { index := n - 1; }
    assert index + 1 == RankOf(n, q);
    v := Ranked(values, sorted, index);
  }

  lemma RankedUnique(values: seq<nat>, rank: nat, v: nat, w: nat)
    requires IsRanked(values, rank, v) && IsRanked(values, rank, w)
    ensures v == w
  {
  }

  lemma RankedShare(values: seq<nat>, rank: nat, x: real, v: nat)
    requires IsRanked(values, rank, v) && rank as real >= x > (rank - 1) as real
    ensures HasShare(values, x, v)
  {
  }

  /** `v` is the least number with at least x of the values at or below it. */
  ghost predicate HasShare(values: seq<nat>, x: real, v: nat) {
    && v in values && CountAtMost(values, v) as real >= x
    && forall u: nat :: u < v ==> (CountAtMost(values, u) as real) < x
  }

  /** Within (0, 1] the percentile is the least number with at least a q share of the values at or
      below it. */
  lemma PercentileShare(values: seq<nat>, q: real, v: nat)
    requires values != [] && 0.0 < q <= 1.0 && IsRanked(values, RankOf(|values|, q), v)
    ensures HasShare(values, q * |values| as real, v)
  {
    QuantileRank(|values|, q, q * |values| as real);
    RankedShare(values, RankOf(|values|, q), q * |values| as real, v);
  }

  lemma QuantileRank(n: nat, q: real, x: real)
    requires n > 0 && 0.0 < q <= 1.0 && x == q * n as real
    ensures RankOf(n, q) as real >= x > (RankOf(n, q) - 1) as real
  {
    ShareOfWhole(q, n as real, x);
    CeilBounds(x);
    assert 1 <= Ceil(x) <= n;
  }

  lemma ShareOfWhole(q: real, n: real, x: real)
    requires n > 0.0 && 0.0 < q <= 1.0 && x == q * n
    ensures 0.0 < x <= n
  {
  }

  lemma {:induction false} CountMonotone(values: seq<nat>, u: nat, v: nat)
    requires u <= v
    ensures CountAtMost(values, u) <= CountAtMost(values, v)
  {
    if values != [] { CountMonotone(values[..|values| - 1], u, v); }
  }

  // ---------------------------------------------------------------- the current configuration

  function CpuRequestOf(s: Sample): nat { Average(s.cpuRequest, s.seconds) }
  function MemoryRequestOf(s: Sample): nat { Average(s.memoryRequest, s.seconds) }
  function CpuLimitOf(s: Sample): nat { Average(s.cpuLimit, s.seconds) }
  function MemoryLimitOf(s: Sample): nat { Average(s.memoryLimit, s.seconds) }

  /** The most recent non-zero value, or zero. */
  function Latest(samples: seq<Sample>, f: Sample -> nat): nat {
    if samples == [] then 0 else
      var last := f(samples[|samples| - 1]);
      if last != 0 then last else Latest(samples[..|samples| - 1], f)
  }

  lemma {:induction false} LatestMeaning(samples: seq<Sample>, f: Sample -> nat)
    ensures Latest(samples, f) != 0 ==>
              exists i :: 0 <= i < |samples| && f(samples[i]) == Latest(samples, f)
                          && forall j :: i < j < |samples| ==> f(samples[j]) == 0
    ensures Latest(samples, f) == 0 ==> forall i :: 0 <= i < |samples| ==> f(samples[i]) == 0
  {
    if samples != [] {
      var n := |samples| - 1;
      LatestMeaning(samples[..n], f);
      if f(samples[n]) == 0 && Latest(samples, f) != 0 {
        var i :| 0 <= i < n && f(samples[..n][i]) == Latest(samples, f)
                 && forall j :: i < j < n ==> f(samples[..n][j]) == 0;
        assert forall j :: 0 <= j < n ==> samples[..n][j] == samples[j];
        assert f(samples[i]) == Latest(samples, f) && forall j :: i < j < |samples| ==> f(samples[j]) == 0;
      }
    }
  }

  /** A value found so far is final; otherwise it is still to be found in the older samples. */
  ghost predicate Searching(samples: seq<Sample>, index: nat, f: Sample -> nat, found: nat)
    requires index <= |samples|
  {
    Latest(samples, f) == if found != 0 then found else Latest(samples[..index], f)
  }

  lemma SearchStep(samples: seq<Sample>, index: nat, f: Sample -> nat, found: nat)
    requires index < |samples| && Searching(samples, index + 1, f, found)
    ensures Searching(samples, index, f, if found == 0 then f(samples[index]) else found)
  {
    assert samples[..index + 1][..index] == samples[..index];
  }

  /** The backward scan with its early exit still finds each field's most recent non-zero average. */
  method CurrentConfiguration(samples: seq<Sample>)
    returns (cpuRequest: nat, memoryRequest: nat, cpuLimit: nat, memoryLimit: nat)
    ensures cpuRequest == Latest(samples, CpuRequestOf) && memoryRequest == Latest(samples, MemoryRequestOf)
    ensures cpuLimit == Latest(samples, CpuLimitOf) && memoryLimit == Latest(samples, MemoryLimitOf)
  {
    cpuRequest, memoryRequest, cpuLimit, memoryLimit := 0, 0, 0, 0;
    var index := |samples|;
    assert samples[..index] == samples;
    while index > 0
      invariant 0 <= index <= |samples|
      invariant Searching(samples, index, CpuRequestOf, cpuRequest)
      invariant Searching(samples, index, MemoryRequestOf, memoryRequest)
      invariant Searching(samples, index, CpuLimitOf, cpuLimit)
      invariant Searching(samples, index, MemoryLimitOf, memoryLimit)
    {
      index := index - 1;
      var sample := samples[index];
      SearchStep(samples, index, CpuRequestOf, cpuRequest);
      SearchStep(samples, index, MemoryRequestOf, memoryRequest);
      SearchStep(samples, index, CpuLimitOf, cpuLimit);
      SearchStep(samples, index, MemoryLimitOf, memoryLimit);
      if sample.seconds == 0 { continue; }
      if cpuRequest == 0 { cpuRequest := Average(sample.cpuRequest, sample.seconds); }
      if memoryRequest == 0 { memoryRequest := Average(sample.memoryRequest, sample.seconds); }
      if cpuLimit == 0 { cpuLimit := Average(sample.cpuLimit, sample.seconds); }
      if memoryLimit == 0 { memoryLimit := Average(sample.memoryLimit, sample.seconds); }
      if cpuRequest > 0 && memoryRequest > 0 && cpuLimit > 0 && memoryLimit > 0 { break; }
    }
  }

  // ---------------------------------------------------------------- recommendations

  function CpuUsages(samples: seq<Sample>): seq<nat> {
    seq(|samples|, i requires 0 <= i < |samples| => Average(samples[i].cpuUsage, samples[i].seconds))
  }

  function MemoryUsages(samples: seq<Sample>): seq<nat> {
    seq(|samples|, i requires 0 <= i < |samples| => Average(samples[i].memoryUsage, samples[i].seconds))
  }

  function Sized(floor: nat, observed: nat, headroom: real): nat {
    Max(floor, CeilNat(observed as real * headroom))
  }

  function Bill(c: Config, cores: real, gib: real): real {
    cores * c.cpuPrice * MONTHLY_HOURS + gib * c.memoryPrice * MONTHLY_HOURS
  }

  function Savings(c: Config, currentCpu: nat, cpu: nat, currentMemory: nat, memory: nat): real {
    RoundMoney(Bill(c, PositiveDelta(currentCpu, cpu) as real / 1000.0,
                    PositiveDelta(currentMemory, memory) as real / 1073741824.0))
  }

  /** The recommendation for given percentiles and current settings, when there is one. */
  function Advice(c: Config, cpuP95: nat, memoryP99: nat, currentCpu: nat, currentMemory: nat,
                  currentCpuLimit: nat, currentMemoryLimit: nat): Option<Recommendation>
  {
    if currentCpu == 0 || currentMemory == 0 || (cpuP95 == 0 && memoryP99 == 0) then None else
      var cpu, memory := Sized(c.minCpu, cpuP95, c.cpuHeadroom), Sized(c.minMemory, memoryP99, c.memoryHeadroom);
      var savings := Savings(c, currentCpu, cpu, currentMemory, memory);
      if savings <= 0.0 then None else
        Some(Recommendation(cpuP95, memoryP99, currentCpu, cpu, currentMemory, memory,
                            currentCpuLimit, Sized(cpu, cpu, c.cpuLimitMultiplier),
                            currentMemoryLimit, Sized(memory, memory, c.memoryLimitMultiplier), savings))
  }

  /** The share of values that fit under a request. */
  ghost predicate Covers(values: seq<nat>, request: nat, q: real) {
    CountAtMost(values, request) as real >= q * |values| as real
  }

  /** What is recommended for the samples of one target. */
  ghost predicate Recommends(samples: seq<Sample>, c: Config, advice: Option<Recommendation>) {
    if |samples| < c.minimumSamples then advice == None else
      exists p95, p99 ::
        && IsPercentile(CpuUsages(samples), 0.95, p95) && IsPercentile(MemoryUsages(samples), 0.99, p99)
        && advice == Advice(c, p95, p99, Latest(samples, CpuRequestOf), Latest(samples, MemoryRequestOf),
                            Latest(samples, CpuLimitOf), Latest(samples, MemoryLimitOf))
  }

  // ---------------------------------------------------------------- what a recommendation says

  predicate Suffices(n: nat, floor: nat, x: real) { n >= floor && n as real >= x }

  /** The least whole number that reaches both. */
  ghost predicate IsLeast(n: nat, floor: nat, x: real) {
    Suffices(n, floor, x) && forall k :: Suffices(k, floor, x) ==> n <= k
  }

  lemma SizedIsLeast(floor: nat, observed: nat, headroom: real)
    ensures IsLeast(Sized(floor, observed, headroom), floor, observed as real * headroom)
  {
    LeastCeil(floor, observed as real * headroom);
  }

  lemma LeastCeil(floor: nat, x: real)
    ensures IsLeast(Max(floor, CeilNat(x)), floor, x)
  {
    CeilBounds(x);
  }

  /** By how many units a request is lowered; a raised one counts nothing. */
  function Lowered(current: nat, recommended: nat, unit: real): real
    requires unit > 0.0
  {
    if current > recommended then (current - recommended) as real / unit else 0.0
  }

  /** What the lowered requests, in cores and GiB, are worth in a month of 730 hours. */
  function Worth(c: Config, currentCpu: nat, cpu: nat, currentMemory: nat, memory: nat): real {
    Lowered(currentCpu, cpu, 1000.0) * c.cpuPrice * 730.0
    + Lowered(currentMemory, memory, 1073741824.0) * c.memoryPrice * 730.0
  }

  /** Rounded to a millionth: never further off than half of one. */
  lemma RoundMoneyExactly(x: real)
    ensures x - 0.0000005 <= RoundMoney(x) <= x + 0.0000005
    ensures RoundMoney(x) > 0.0 <==> x >= 0.0000005
    ensures RoundMoney(x) * 1000000.0 == (x * 1000000.0 + 0.5).Floor as real
  {
  }

  lemma BillIsWorth(c: Config, cores: real, gib: real)
    ensures Bill(c, cores, gib) == cores * c.cpuPrice * 730.0 + gib * c.memoryPrice * 730.0
  {
  }

  lemma DeltaIsLowered(current: nat, recommended: nat, unit: real)
    requires unit > 0.0
    ensures PositiveDelta(current, recommended) as real / unit == Lowered(current, recommended, unit)
  {
  }

  lemma BilledIsWorth(c: Config, cores: real, gib: real, bill: real, currentCpu: nat, cpu: nat, currentMemory: nat,
                      memory: nat)
    requires cores == Lowered(currentCpu, cpu, 1000.0) && gib == Lowered(currentMemory, memory, 1073741824.0)
    requires bill == Bill(c, cores, gib)
    ensures bill == Worth(c, currentCpu, cpu, currentMemory, memory)
  {
    BillIsWorth(c, cores, gib);
  }

  lemma SavingsAreWorth(c: Config, currentCpu: nat, cpu: nat, currentMemory: nat, memory: nat)
    ensures Savings(c, currentCpu, cpu, currentMemory, memory)
            == RoundMoney(Worth(c, currentCpu, cpu, currentMemory, memory))
  {
    var cores := PositiveDelta(currentCpu, cpu) as real / 1000.0;
    var gib := PositiveDelta(currentMemory, memory) as real / 1073741824.0;
    DeltaIsLowered(currentCpu, cpu, 1000.0);
    DeltaIsLowered(currentMemory, memory, 1073741824.0);
    BilledIsWorth(c, cores, gib, Bill(c, cores, gib), currentCpu, cpu, currentMemory, memory);
  }

  /** What the samples show per second, oldest first. */
  datatype Rates = Rates(cpu: seq<nat>, memory: seq<nat>, cpuRequest: seq<nat>, memoryRequest: seq<nat>,
                         cpuLimit: seq<nat>, memoryLimit: seq<nat>)

  function RatesOf(samples: seq<Sample>): Rates {
    Rates(seq(|samples|, i requires 0 <= i < |samples| => Average(samples[i].cpuUsage, samples[i].seconds)),
          seq(|samples|, i requires 0 <= i < |samples| => Average(samples[i].memoryUsage, samples[i].seconds)),
          seq(|samples|, i requires 0 <= i < |samples| => Average(samples[i].cpuRequest, samples[i].seconds)),
          seq(|samples|, i requires 0 <= i < |samples| => Average(samples[i].memoryRequest, samples[i].seconds)),
          seq(|samples|, i requires 0 <= i < |samples| => Average(samples[i].cpuLimit, samples[i].seconds)),
          seq(|samples|, i requires 0 <= i < |samples| => Average(samples[i].memoryLimit, samples[i].seconds)))
  }

  /** The last value that is not zero, or zero without one. */
  ghost predicate IsMostRecent(v: nat, values: seq<nat>) {
    if v == 0 then forall i :: 0 <= i < |values| ==> values[i] == 0
    else exists i :: 0 <= i < |values| && values[i] == v && forall j :: i < j < |values| ==> values[j] == 0
  }

  lemma LatestIsMostRecent(samples: seq<Sample>, f: Sample -> nat, values: seq<nat>)
    requires |values| == |samples| && forall i :: 0 <= i < |samples| ==> values[i] == f(samples[i])
    ensures IsMostRecent(Latest(samples, f), values)
  {
    LatestMeaning(samples, f);
    if Latest(samples, f) != 0 {
      var i :| 0 <= i < |samples| && f(samples[i]) == Latest(samples, f)
               && forall j :: i < j < |samples| ==> f(samples[j]) == 0;
      assert values[i] == Latest(samples, f) && forall j :: i < j < |values| ==> values[j] == 0;
    }
  }

  ghost predicate ShowsCurrent(r: Recommendation, rates: Rates) {
    && IsMostRecent(r.currentCpu, rates.cpuRequest) && IsMostRecent(r.currentMemory, rates.memoryRequest)
    && IsMostRecent(r.currentCpuLimit, rates.cpuLimit) && IsMostRecent(r.currentMemoryLimit, rates.memoryLimit)
  }

  lemma CurrentShown(samples: seq<Sample>, r: Recommendation)
    requires r.currentCpu == Latest(samples, CpuRequestOf) && r.currentMemory == Latest(samples, MemoryRequestOf)
    requires r.currentCpuLimit == Latest(samples, CpuLimitOf) && r.currentMemoryLimit == Latest(samples, MemoryLimitOf)
    ensures ShowsCurrent(r, RatesOf(samples))
  {
    var rates := RatesOf(samples);
    LatestIsMostRecent(samples, CpuRequestOf, rates.cpuRequest);
    LatestIsMostRecent(samples, MemoryRequestOf, rates.memoryRequest);
    LatestIsMostRecent(samples, CpuLimitOf, rates.cpuLimit);
    LatestIsMostRecent(samples, MemoryLimitOf, rates.memoryLimit);
  }

  /** Every figure of a recommendation, from samples and configuration. */
  ghost predicate Explains(r: Recommendation, samples: seq<Sample>, c: Config) {
    ShowsUsage(r, RatesOf(samples)) && ShowsCurrent(r, RatesOf(samples)) && Sizes(r, c)
  }

  ghost predicate ShowsUsage(r: Recommendation, rates: Rates) {
    IsPercentile(rates.cpu, 0.95, r.cpuP95) && IsPercentile(rates.memory, 0.99, r.memoryP99)
  }

  /** The requests, the limits and the savings. */
  ghost predicate Sizes(r: Recommendation, c: Config) {
    && IsLeast(r.cpu, c.minCpu, r.cpuP95 as real * c.cpuHeadroom)
    && IsLeast(r.memory, c.minMemory, r.memoryP99 as real * c.memoryHeadroom)
    && IsLeast(r.cpuLimit, r.cpu, r.cpu as real * c.cpuLimitMultiplier)
    && IsLeast(r.memoryLimit, r.memory, r.memory as real * c.memoryLimitMultiplier)
    && r.savings == RoundMoney(Worth(c, r.currentCpu, r.cpu, r.currentMemory, r.memory))
  }

  /** Nothing is recommended without current requests, without usage or without savings. */
  ghost predicate Pointless(samples: seq<Sample>, c: Config, p95: nat, p99: nat) {
    var currentCpu, currentMemory := Latest(samples, CpuRequestOf), Latest(samples, MemoryRequestOf);
    || currentCpu == 0 || currentMemory == 0 || (p95 == 0 && p99 == 0)
    || exists cpu, memory :: && IsLeast(cpu, c.minCpu, p95 as real * c.cpuHeadroom)
                             && IsLeast(memory, c.minMemory, p99 as real * c.memoryHeadroom)
                             && Worth(c, currentCpu, cpu, currentMemory, memory) < 0.0000005
  }

  /** Why there is a recommendation, and why none. */
  ghost predicate Justified(advice: Option<Recommendation>, samples: seq<Sample>, c: Config) {
    match advice
    case Some(r) => |samples| >= c.minimumSamples && Explains(r, samples, c) && r.savings > 0.0
    case None =>
      || |samples| < c.minimumSamples
      || exists p95, p99 ::
           && IsPercentile(CpuUsages(samples), 0.95, p95) && IsPercentile(MemoryUsages(samples), 0.99, p99)
           && Pointless(samples, c, p95, p99)
  }

  lemma AdviceExplained(samples: seq<Sample>, c: Config, r: Recommendation)
    requires Explained(samples, c, r)
    ensures Explains(r, samples, c)
  {
    CurrentShown(samples, r);
    UsageShown(samples, r);
    AdviceSizes(samples, c, r);
  }

  lemma UsageShown(samples: seq<Sample>, r: Recommendation)
    requires IsPercentile(CpuUsages(samples), 0.95, r.cpuP95) && IsPercentile(MemoryUsages(samples), 0.99, r.memoryP99)
    ensures ShowsUsage(r, RatesOf(samples))
  {
    assert RatesOf(samples).cpu == CpuUsages(samples) && RatesOf(samples).memory == MemoryUsages(samples);
  }

  lemma AdviceSizes(samples: seq<Sample>, c: Config, r: Recommendation)
    requires Explained(samples, c, r)
    ensures Sizes(r, c)
  {
    SizedIsLeast(c.minCpu, r.cpuP95, c.cpuHeadroom);
    SizedIsLeast(c.minMemory, r.memoryP99, c.memoryHeadroom);
    SizedIsLeast(r.cpu, r.cpu, c.cpuLimitMultiplier);
    SizedIsLeast(r.memory, r.memory, c.memoryLimitMultiplier);
    SavingsAreWorth(c, r.currentCpu, r.cpu, r.currentMemory, r.memory);
  }

  /** `r` is what the advice is for its own percentiles. */
  ghost predicate Explained(samples: seq<Sample>, c: Config, r: Recommendation) {
    && IsPercentile(CpuUsages(samples), 0.95, r.cpuP95) && IsPercentile(MemoryUsages(samples), 0.99, r.memoryP99)
    && Advice(c, r.cpuP95, r.memoryP99, Latest(samples, CpuRequestOf), Latest(samples, MemoryRequestOf),
              Latest(samples, CpuLimitOf), Latest(samples, MemoryLimitOf)) == Some(r)
  }

  lemma NoAdviceIsPointless(samples: seq<Sample>, c: Config, p95: nat, p99: nat)
    requires Advice(c, p95, p99, Latest(samples, CpuRequestOf), Latest(samples, MemoryRequestOf),
                    Latest(samples, CpuLimitOf), Latest(samples, MemoryLimitOf)) == None
    ensures Pointless(samples, c, p95, p99)
  {
    var currentCpu, currentMemory := Latest(samples, CpuRequestOf), Latest(samples, MemoryRequestOf);
    var cpu, memory := Sized(c.minCpu, p95, c.cpuHeadroom), Sized(c.minMemory, p99, c.memoryHeadroom);
    SizedIsLeast(c.minCpu, p95, c.cpuHeadroom);
    SizedIsLeast(c.minMemory, p99, c.memoryHeadroom);
    SavingsAreWorth(c, currentCpu, cpu, currentMemory, memory);
    RoundMoneyExactly(Worth(c, currentCpu, cpu, currentMemory, memory));
  }

  lemma AdviceJustified(samples: seq<Sample>, c: Config, p95: nat, p99: nat)
    requires |samples| >= c.minimumSamples
    requires IsPercentile(CpuUsages(samples), 0.95, p95) && IsPercentile(MemoryUsages(samples), 0.99, p99)
    ensures Justified(Advice(c, p95, p99, Latest(samples, CpuRequestOf), Latest(samples, MemoryRequestOf),
                             Latest(samples, CpuLimitOf), Latest(samples, MemoryLimitOf)), samples, c)
  {
    var advice := Advice(c, p95, p99, Latest(samples, CpuRequestOf), Latest(samples, MemoryRequestOf),
                         Latest(samples, CpuLimitOf), Latest(samples, MemoryLimitOf));
    if advice.Some? {
      assert Explained(samples, c, advice.value);
      AdviceExplained(samples, c, advice.value);
    } else {
      NoAdviceIsPointless(samples, c, p95, p99);
    }
  }

  method Recommend(samples: seq<Sample>, c: Config) returns (advice: Option<Recommendation>)
    ensures Recommends(samples, c, advice)
    ensures Justified(advice, samples, c)
    ensures advice.Some? ==> var r := advice.value;
              && r.cpuLimit >= r.cpu && r.memoryLimit >= r.memory
              && (r.cpu < r.currentCpu || r.memory < r.currentMemory)
    ensures advice.Some? && c.cpuHeadroom >= 1.0 ==> Covers(CpuUsages(samples), advice.value.cpu, 0.95)
    ensures advice.Some? && c.memoryHeadroom >= 1.0 ==> Covers(MemoryUsages(samples), advice.value.memory, 0.99)
  {
    if |samples| < c.minimumSamples { return None; }
    var cpuUsage: seq<nat>, memoryUsage: seq<nat> := [], [];
    for i := 0 to |samples|
      invariant |cpuUsage| == |memoryUsage| == i
      invariant forall j :: 0 <= j < i ==> cpuUsage[j] == Average(samples[j].cpuUsage, samples[j].seconds)
      invariant forall j :: 0 <= j < i ==> memoryUsage[j] == Average(samples[j].memoryUsage, samples[j].seconds)
    {
      cpuUsage := cpuUsage + [Average(samples[i].cpuUsage, samples[i].seconds)];
      memoryUsage := memoryUsage + [Average(samples[i].memoryUsage, samples[i].seconds)];
    }
    assert cpuUsage == CpuUsages(samples) && memoryUsage == MemoryUsages(samples);
    var cpuP95 := Percentile(cpuUsage, 0.95);
    var memoryP99 := Percentile(memoryUsage, 0.99);
    var currentCpu, currentMemory, currentCpuLimit, currentMemoryLimit := CurrentConfiguration(samples);
    advice := Advice(c, cpuP95, memoryP99, currentCpu, currentMemory, currentCpuLimit, currentMemoryLimit);
    AdviceJustified(samples, c, cpuP95, memoryP99);
    if advice.Some? {
      AdviceSaves(c, cpuP95, memoryP99, currentCpu, currentMemory, currentCpuLimit, currentMemoryLimit);
      assert samples != [];
      HeadroomCovers(cpuUsage, 0.95, cpuP95, c.minCpu, c.cpuHeadroom);
      HeadroomCovers(memoryUsage, 0.99, memoryP99, c.minMemory, c.memoryHeadroom);
    }
  }

  /** A recommendation lowers at least one request and never sets a limit below its request. */
  lemma AdviceSaves(c: Config, cpuP95: nat, memoryP99: nat, currentCpu: nat, currentMemory: nat, cpuLimit: nat,
                    memoryLimit: nat)
    requires Advice(c, cpuP95, memoryP99, currentCpu, currentMemory, cpuLimit, memoryLimit).Some?
    ensures var r := Advice(c, cpuP95, memoryP99, currentCpu, currentMemory, cpuLimit, memoryLimit).value;
            && r.cpuLimit >= r.cpu && r.memoryLimit >= r.memory
            && (r.cpu < r.currentCpu || r.memory < r.currentMemory)
  {
    var r := Advice(c, cpuP95, memoryP99, currentCpu, currentMemory, cpuLimit, memoryLimit).value;
    if r.cpu >= r.currentCpu && r.memory >= r.currentMemory {
      NothingSaved(c, currentCpu, r.cpu, currentMemory, r.memory);
    }
  }

  lemma NothingSaved(c: Config, currentCpu: nat, cpu: nat, currentMemory: nat, memory: nat)
    requires cpu >= currentCpu && memory >= currentMemory
    ensures Savings(c, currentCpu, cpu, currentMemory, memory) == 0.0
  {
    assert PositiveDelta(currentCpu, cpu) == 0 && PositiveDelta(currentMemory, memory) == 0;
    assert (0.0 / 1000.0) * c.cpuPrice * MONTHLY_HOURS == 0.0;
    assert (0.0 / 1073741824.0) * c.memoryPrice * MONTHLY_HOURS == 0.0;
    assert RoundMoney(0.0) == 0.0;
  }

  lemma SizedAtLeast(floor: nat, observed: nat, headroom: real)
    requires headroom >= 1.0
    ensures Sized(floor, observed, headroom) >= observed
  {
    AtLeastItself(observed as real, headroom);
    CeilBounds(observed as real * headroom);
  }

  lemma AtLeastItself(x: real, factor: real)
    requires x >= 0.0 && factor >= 1.0
    ensures x * factor >= x
  {
    assert x * factor - x == x * (factor - 1.0);
  }

  /** With headroom of at least one, the recommended request covers the q share it is based on. */
  lemma HeadroomCovers(values: seq<nat>, q: real, p: nat, floor: nat, headroom: real)
    requires values != [] && 0.0 < q <= 1.0 && IsRanked(values, RankOf(|values|, q), p)
    ensures headroom >= 1.0 ==> Covers(values, Sized(floor, p, headroom), q)
  {
    if headroom >= 1.0 {
      PercentileShare(values, q, p);
      SizedAtLeast(floor, p, headroom);
      CountMonotone(values, p, Sized(floor, p, headroom));
    }
  }

  /** A request covers the q share of the values exactly when it reaches their percentile. */
  lemma CoversExactly(values: seq<nat>, q: real, p: nat, request: nat)
    requires values != [] && 0.0 < q <= 1.0 && IsRanked(values, RankOf(|values|, q), p)
    ensures Covers(values, request, q) <==> request >= p
  {
    PercentileShare(values, q, p);
    if request >= p { CountMonotone(values, p, request); }
  }

  /** The samples determine the recommendation. */
  lemma RecommendationIsDetermined(samples: seq<Sample>, c: Config, a: Option<Recommendation>,
                                   b: Option<Recommendation>)
    requires Recommends(samples, c, a) && Recommends(samples, c, b)
    ensures a == b
  {
    if |samples| >= c.minimumSamples && samples != [] {
      forall p, p' | IsPercentile(CpuUsages(samples), 0.95, p) && IsPercentile(CpuUsages(samples), 0.95, p')
        ensures p == p' {
        RankedUnique(CpuUsages(samples), RankOf(|samples|, 0.95), p, p');
      }
      forall p, p' | IsPercentile(MemoryUsages(samples), 0.99, p) && IsPercentile(MemoryUsages(samples), 0.99, p')
        ensures p == p' {
        RankedUnique(MemoryUsages(samples), RankOf(|samples|, 0.99), p, p');
      }
    }
  }
}
