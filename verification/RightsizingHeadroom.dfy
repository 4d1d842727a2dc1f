/** Which headroom makes every emitted recommendation cover what was observed. */
module RightsizingHeadroom {
  import opened Wrappers
  import opened Basics
  import opened Rightsizing

  function NormalizeConfig(c: Config): Config {
    Config(if c.minimumSamples <= 0 then 24 else c.minimumSamples,
           if c.cpuHeadroom <= 0.0 then 1.15 else c.cpuHeadroom,
           if c.memoryHeadroom <= 0.0 then 1.20 else c.memoryHeadroom,
           if c.cpuLimitMultiplier <= 0.0 then 2.0 else c.cpuLimitMultiplier,
           if c.memoryLimitMultiplier <= 0.0 then 1.5 else c.memoryLimitMultiplier,
           if c.minCpu == 0 then 10 else c.minCpu,
           if c.minMemory == 0 then 64 * 1024 * 1024 else c.minMemory,
           if c.cpuPrice <= 0.0 then 0.03 else c.cpuPrice,
           if c.memoryPrice <= 0.0 then 0.004 else c.memoryPrice)
  }

  /** Every setting above zero is kept; each of the others gets its own default. */
  lemma ConfigExactly(given: Config)
    ensures var c := NormalizeConfig(given);
            && c.minimumSamples == (if given.minimumSamples > 0 then given.minimumSamples else 24)
            && c.cpuHeadroom == (if given.cpuHeadroom > 0.0 then given.cpuHeadroom else 1.15)
            && c.memoryHeadroom == (if given.memoryHeadroom > 0.0 then given.memoryHeadroom else 1.2)
            && c.cpuLimitMultiplier == (if given.cpuLimitMultiplier > 0.0 then given.cpuLimitMultiplier else 2.0)
            && c.memoryLimitMultiplier
               == (if given.memoryLimitMultiplier > 0.0 then given.memoryLimitMultiplier else 1.5)
            && c.minCpu == (if given.minCpu > 0 then given.minCpu else 10)
            && c.minMemory == (if given.minMemory > 0 then given.minMemory else 67108864)
            && c.cpuPrice == (if given.cpuPrice > 0.0 then given.cpuPrice else 0.03)
            && c.memoryPrice == (if given.memoryPrice > 0.0 then given.memoryPrice else 0.004)
  {
  }

  /** Every recommendation that is emitted leaves room for 95% of the CPU samples and 99% of the
      memory samples. */
  ghost predicate AlwaysCovers(c: Config) {
    forall samples, advice :: Recommends(samples, c, advice) && advice.Some? ==> Fits(samples, advice.value)
  }

  ghost predicate Fits(samples: seq<Sample>, r: Recommendation) {
    Covers(CpuUsages(samples), r.cpu, 0.95) && Covers(MemoryUsages(samples), r.memory, 0.99)
  }

  lemma EmittedFits(samples: seq<Sample>, c: Config, r: Recommendation)
    requires Recommends(samples, c, Some(r)) && c.cpuHeadroom >= 1.0 && c.memoryHeadroom >= 1.0
    ensures Fits(samples, r)
  {
    var p95, p99 :|
      && IsPercentile(CpuUsages(samples), 0.95, p95) && IsPercentile(MemoryUsages(samples), 0.99, p99)
      && Some(r) == Advice(c, p95, p99, Latest(samples, CpuRequestOf), Latest(samples, MemoryRequestOf),
                           Latest(samples, CpuLimitOf), Latest(samples, MemoryLimitOf));
    if samples != [] {
      HeadroomCovers(CpuUsages(samples), 0.95, p95, c.minCpu, c.cpuHeadroom);
      HeadroomCovers(MemoryUsages(samples), 0.99, p99, c.minMemory, c.memoryHeadroom);
    }
  }

  /** n samples of one second that all use and request the same. */
  function Uniform(n: nat, cpu: nat, memory: nat, cpuRequest: nat, memoryRequest: nat): seq<Sample> {
    seq(n, i => Sample(1, cpu, memory, cpuRequest, memoryRequest, 0, 0))
  }

  lemma UniformRank(values: seq<nat>, v: nat, q: real)
    requires values != [] && forall i :: 0 <= i < |values| ==> values[i] == v
    ensures IsRanked(values, RankOf(|values|, q), v)
  {
    assert values[0] == v;
    CountAll(values, v);
    forall u: nat | u < v ensures CountAtMost(values, u) < RankOf(|values|, q) { CountNone(values, u); }
  }

  lemma PerSecond(x: nat)
    ensures Average(x, 1) == x
  {
  }

  /** What uniform samples lead to. */
  lemma UniformAdvice(c: Config, cpu: nat, memory: nat, cpuRequest: nat, memoryRequest: nat)
    requires c.minimumSamples >= 1 && cpuRequest > 0 && memoryRequest > 0
    ensures var samples := Uniform(c.minimumSamples, cpu, memory, cpuRequest, memoryRequest);
            && IsPercentile(CpuUsages(samples), 0.95, cpu) && IsPercentile(MemoryUsages(samples), 0.99, memory)
            && Recommends(samples, c, Advice(c, cpu, memory, cpuRequest, memoryRequest, 0, 0))
  {
    var samples := Uniform(c.minimumSamples, cpu, memory, cpuRequest, memoryRequest);
    PerSecond(cpu);
    PerSecond(memory);
    PerSecond(cpuRequest);
    PerSecond(memoryRequest);
    UniformRank(CpuUsages(samples), cpu, 0.95);
    UniformRank(MemoryUsages(samples), memory, 0.99);
    UniformLatest(samples, CpuRequestOf, cpuRequest);
    UniformLatest(samples, MemoryRequestOf, memoryRequest);
    UniformLatest(samples, CpuLimitOf, 0);
    UniformLatest(samples, MemoryLimitOf, 0);
  }

  lemma {:induction false} UniformLatest(samples: seq<Sample>, f: Sample -> nat, v: nat)
    requires samples != [] && forall i :: 0 <= i < |samples| ==> f(samples[i]) == v
    ensures Latest(samples, f) == v
  {
    if |samples| > 1 && v == 0 { UniformLatest(samples[..|samples| - 1], f, v); }
  }

  /** A surplus that is worth at least one dollar a month. */
  function Surplus(unit: real, price: real): nat
    requires unit > 0.0 && price > 0.0
  {
    CeilNat(unit / (price * MONTHLY_HOURS))
  }

  lemma SurplusPays(unit: real, price: real, delta: nat)
    requires unit > 0.0 && price > 0.0 && delta == Surplus(unit, price)
    ensures (delta as real / unit) * price * MONTHLY_HOURS >= 1.0
  {
    var x := price * MONTHLY_HOURS;
    CeilBounds(unit / x);
    Scaled(delta as real, unit, x);
    assert (delta as real / unit) * price * MONTHLY_HOURS == (delta as real / unit) * x;
  }

  lemma Scaled(delta: real, unit: real, x: real)
    requires unit > 0.0 && x > 0.0 && delta >= unit / x
    ensures (delta / unit) * x >= 1.0
  {
    var d := delta / unit;
    Reaches(delta, unit, x, unit / x);
    Cancels(delta, unit, d);
    Divided(d, unit, delta, x);
  }

  lemma Reaches(delta: real, unit: real, x: real, a: real)
    requires x > 0.0 && a == unit / x && delta >= a
    ensures delta * x >= unit
  {
    Cancels(unit, x, a);
    TimesUp(a, delta, x);
  }

  lemma Divided(d: real, unit: real, delta: real, x: real)
    requires unit > 0.0 && d * unit == delta && delta * x >= unit
    ensures d * x >= 1.0
  {
    var y := d * x;
    assert y * unit == delta * x;
  }

  lemma Cancels(a: real, b: real, q: real)
    requires b > 0.0 && q == a / b
    ensures q * b == a
  {
  }

  lemma TimesUp(a: real, b: real, x: real)
    requires a <= b && x > 0.0
    ensures a * x <= b * x
  {
  }

  lemma PaysOff(a: real, b: real)
    requires a >= 0.0 && b >= 0.0 && a + b >= 1.0
    ensures RoundMoney(a + b) > 0.0
  {
    var y := (a + b) * 1000000.0 + 0.5;
    assert y >= 1000000.0;
    assert y.Floor >= 1000000;
  }

  lemma NotNegative(delta: nat, unit: real, price: real)
    requires unit > 0.0 && price > 0.0
    ensures (delta as real / unit) * price * MONTHLY_HOURS >= 0.0
  {
    var d := delta as real / unit;
    assert d >= 0.0;
    assert d * price >= 0.0;
  }

  lemma Pays(c: Config, cpuDelta: nat, memoryDelta: nat, cpuPart: real, memoryPart: real)
    requires cpuPart == (cpuDelta as real / 1000.0) * c.cpuPrice * MONTHLY_HOURS >= 0.0
    requires memoryPart == (memoryDelta as real / 1073741824.0) * c.memoryPrice * MONTHLY_HOURS >= 0.0
    requires cpuPart + memoryPart >= 1.0
    ensures RoundMoney((cpuDelta as real / 1000.0) * c.cpuPrice * MONTHLY_HOURS
                       + (memoryDelta as real / 1073741824.0) * c.memoryPrice * MONTHLY_HOURS) > 0.0
  {
    PaysOff(cpuPart, memoryPart);
  }

  lemma CpuSurplusSaves(c: Config, cpu: nat, currentMemory: nat, memory: nat)
    requires c.cpuPrice > 0.0 && c.memoryPrice > 0.0
    ensures Savings(c, cpu + Surplus(1000.0, c.cpuPrice), cpu, currentMemory, memory) > 0.0
  {
    var delta, rest := Surplus(1000.0, c.cpuPrice), PositiveDelta(currentMemory, memory);
    SurplusPays(1000.0, c.cpuPrice, delta);
    SurplusIsPositive(1000.0, c.cpuPrice);
    NotNegative(rest, 1073741824.0, c.memoryPrice);
    assert PositiveDelta(cpu + delta, cpu) == delta;
    Pays(c, delta, rest, (delta as real / 1000.0) * c.cpuPrice * MONTHLY_HOURS,
         (rest as real / 1073741824.0) * c.memoryPrice * MONTHLY_HOURS);
  }

  lemma MemorySurplusSaves(c: Config, currentCpu: nat, cpu: nat, memory: nat)
    requires c.cpuPrice > 0.0 && c.memoryPrice > 0.0
    ensures Savings(c, currentCpu, cpu, memory + Surplus(1073741824.0, c.memoryPrice), memory) > 0.0
  {
    var delta, rest := Surplus(1073741824.0, c.memoryPrice), PositiveDelta(currentCpu, cpu);
    SurplusPays(1073741824.0, c.memoryPrice, delta);
    SurplusIsPositive(1073741824.0, c.memoryPrice);
    NotNegative(rest, 1000.0, c.cpuPrice);
    assert PositiveDelta(memory + delta, memory) == delta;
    Pays(c, rest, delta, (rest as real / 1000.0) * c.cpuPrice * MONTHLY_HOURS,
         (delta as real / 1073741824.0) * c.memoryPrice * MONTHLY_HOURS);
  }

  /** Advice below what uniform samples use covers none of them. */
  lemma UniformFails(c: Config, cpu: nat, memory: nat, cpuRequest: nat, memoryRequest: nat, r: Recommendation)
    requires c.minimumSamples >= 1 && cpuRequest > 0 && memoryRequest > 0
    requires Advice(c, cpu, memory, cpuRequest, memoryRequest, 0, 0) == Some(r)
    ensures var samples := Uniform(c.minimumSamples, cpu, memory, cpuRequest, memoryRequest);
            && Recommends(samples, c, Some(r))
            && (r.cpu < cpu ==> CountAtMost(CpuUsages(samples), r.cpu) == 0)
            && (r.memory < memory ==> CountAtMost(MemoryUsages(samples), r.memory) == 0)
            && (r.cpu < cpu || r.memory < memory ==> !Fits(samples, r))
  {
    var samples := Uniform(c.minimumSamples, cpu, memory, cpuRequest, memoryRequest);
    UniformAdvice(c, cpu, memory, cpuRequest, memoryRequest);
    CoversExactly(CpuUsages(samples), 0.95, cpu, r.cpu);
    CoversExactly(MemoryUsages(samples), 0.99, memory, r.memory);
    PerSecond(cpu);
    PerSecond(memory);
    if r.cpu < cpu { CountNone(CpuUsages(samples), r.cpu); }
    if r.memory < memory { CountNone(MemoryUsages(samples), r.memory); }
  }

  /** Samples that use more CPU than their sized request, and waste enough to be worth advice. */
  function StarvedCpu(c: Config): seq<Sample>
    requires c.minimumSamples >= 1 && c.cpuPrice > 0.0 && c.cpuHeadroom < 1.0
  {
    var p := Uncovered(c.minCpu, c.cpuHeadroom);
    Uniform(c.minimumSamples, p, 0, Sized(c.minCpu, p, c.cpuHeadroom) + Surplus(1000.0, c.cpuPrice), 1)
  }

  function StarvedMemory(c: Config): seq<Sample>
    requires c.minimumSamples >= 1 && c.memoryPrice > 0.0 && c.memoryHeadroom < 1.0
  {
    var p := Uncovered(c.minMemory, c.memoryHeadroom);
    Uniform(c.minimumSamples, 0, p, 1, Sized(c.minMemory, p, c.memoryHeadroom) + Surplus(1073741824.0, c.memoryPrice))
  }

  /** With CPU headroom below one: samples whose emitted request covers none of them. */
  lemma SmallCpuHeadroomFails(c: Config)
    requires c.minimumSamples >= 1 && c.cpuPrice > 0.0 && c.memoryPrice > 0.0 && c.cpuHeadroom < 1.0
    ensures exists r :: && Recommends(StarvedCpu(c), c, Some(r)) && CountAtMost(CpuUsages(StarvedCpu(c)), r.cpu) == 0
                        && !Fits(StarvedCpu(c), r)
  {
    var p := Uncovered(c.minCpu, c.cpuHeadroom);
    UncoveredIsAbove(c.minCpu, c.cpuHeadroom);
    var cpu, memory := Sized(c.minCpu, p, c.cpuHeadroom), Sized(c.minMemory, 0, c.memoryHeadroom);
    var request := cpu + Surplus(1000.0, c.cpuPrice);
    SurplusIsPositive(1000.0, c.cpuPrice);
    CpuSurplusSaves(c, cpu, 1, memory);
    UniformFails(c, p, 0, request, 1, Advice(c, p, 0, request, 1, 0, 0).value);
  }

  lemma SmallMemoryHeadroomFails(c: Config)
    requires c.minimumSamples >= 1 && c.cpuPrice > 0.0 && c.memoryPrice > 0.0 && c.memoryHeadroom < 1.0
    ensures exists r :: && Recommends(StarvedMemory(c), c, Some(r))
                        && CountAtMost(MemoryUsages(StarvedMemory(c)), r.memory) == 0 && !Fits(StarvedMemory(c), r)
  {
    var p := Uncovered(c.minMemory, c.memoryHeadroom);
    UncoveredIsAbove(c.minMemory, c.memoryHeadroom);
    var cpu, memory := Sized(c.minCpu, 0, c.cpuHeadroom), Sized(c.minMemory, p, c.memoryHeadroom);
    var request := memory + Surplus(1073741824.0, c.memoryPrice);
    SurplusIsPositive(1073741824.0, c.memoryPrice);
    MemorySurplusSaves(c, 1, cpu, memory);
    UniformFails(c, 0, p, 1, request, Advice(c, 0, p, 1, request, 0, 0).value);
  }

  /** Whatever the configuration, all emitted recommendations cover their shares exactly when neither
      headroom is given between zero and one: at or below zero the default of more than one is used. */
  lemma HeadroomSufficesExactly(given: Config)
    ensures AlwaysCovers(NormalizeConfig(given)) <==>
            !(0.0 < given.cpuHeadroom < 1.0) && !(0.0 < given.memoryHeadroom < 1.0)
  {
    var c := NormalizeConfig(given);
    ConfigExactly(given);
    if c.cpuHeadroom < 1.0 {
      SmallCpuHeadroomFails(c);
    } else if c.memoryHeadroom < 1.0 {
      SmallMemoryHeadroomFails(c);
    } else {
      forall samples, advice | Recommends(samples, c, advice) && advice.Some? ensures Fits(samples, advice.value) {
        EmittedFits(samples, c, advice.value);
      }
    }
  }

  lemma SurplusIsPositive(unit: real, price: real)
    requires unit > 0.0 && price > 0.0
    ensures Surplus(unit, price) > 0
  {
    var x := unit / (price * MONTHLY_HOURS);
    assert x > 0.0;
    CeilBounds(x);
  }

  /** A usage that the sized request does not reach when the headroom is below one. */
  function Uncovered(floor: nat, headroom: real): nat
    requires headroom < 1.0
  {
    var gap := if headroom <= 0.0 then 1.0 else 1.0 - headroom;
    Max(floor, CeilNat(1.0 / gap)) + 1
  }

  lemma UncoveredIsAbove(floor: nat, headroom: real)
    requires headroom < 1.0
    ensures Sized(floor, Uncovered(floor, headroom), headroom) < Uncovered(floor, headroom)
  {
    var gap := if headroom <= 0.0 then 1.0 else 1.0 - headroom;
    BelowObserved(floor, headroom, gap, Uncovered(floor, headroom));
  }

  lemma BelowObserved(floor: nat, headroom: real, gap: real, p: nat)
    requires headroom < 1.0 && gap == if headroom <= 0.0 then 1.0 else 1.0 - headroom
    requires p == Max(floor, CeilNat(1.0 / gap)) + 1
    ensures Sized(floor, p, headroom) < p
  {
    assert 1.0 / gap > 0.0;
    CeilBounds(1.0 / gap);
    if headroom > 0.0 {
      var x := p as real * headroom;
      assert p as real >= 1.0 / gap + 1.0;
      assert p as real * gap >= (1.0 / gap) * gap == 1.0;
      assert x == p as real - p as real * gap;
      CeilBounds(x);
    } else {
      assert p as real * headroom <= 0.0;
    }
  }
}
