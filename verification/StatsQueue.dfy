/**
 The bounded queue of container usage statistics. Floating point is modelled by reals, with None
 for NaN; unsigned counters wrap explicitly.
 */
module StatsQueue {
  import opened Basics

  datatype Result<+T> = Ok(value: T) | Err(error: string)

  const TWO_64 := 0x1_0000_0000_0000_0000
  const TWO_32 := 0x1_0000_0000
  const MAX_INT64 := 0x7fff_ffff_ffff_ffff
  const BYTES_IN_MIB := 1024 * 1024
  const MINIMUM_DATAPOINTS := 2

  type Uint64 = x: nat | x < TWO_64

  datatype Network = Network(
    rxBytes: Uint64, rxDropped: Uint64, rxErrors: Uint64, rxPackets: Uint64,
    txBytes: Uint64, txDropped: Uint64, txErrors: Uint64, txPackets: Uint64)

  /** A raw sample, as converted from Docker. */
  datatype Sample = Sample(
    cpuUsage: Uint64, memoryUsage: Uint64, storageRead: Uint64, storageWrite: Uint64,
    network: Option<Network>, timestamp: int)

  datatype Usage = Usage(
    cpuPerc: Option<real>, memoryInMegs: nat, storageRead: Uint64, storageWrite: Uint64,
    network: Option<Network>, timestamp: int, cpuUsage: Uint64)

  /** Unsigned subtraction. */
  function Minus(a: Uint64, b: Uint64): Uint64 { if a >= b then a - b else TWO_64 + a - b }

  // --- what the queue holds -------------------------------------------------------------------------

  /** Percent of one CPU used between two samples; undefined unless time has passed. */
  function Percent(before: Sample, s: Sample): Option<real> {
    if s.timestamp > before.timestamp
    then Some(100.0 * Minus(s.cpuUsage, before.cpuUsage) as real / (s.timestamp - before.timestamp) as real)
    else None
  }

  /** The usage recorded for sample k of the history since the last reset. */
  function UsageOf(h: seq<Sample>, k: nat): Usage
    requires k < |h|
  {
    var s := h[k];
    Usage(if k == 0 then None else Percent(h[k - 1], s), s.memoryUsage / BYTES_IN_MIB % TWO_32,
          s.storageRead, s.storageWrite, s.network, s.timestamp, s.cpuUsage)
  }

  /** The number of samples that have left the queue. */
  function Left(n: nat, maxSize: nat): nat { if maxSize >= 1 && n > maxSize then n - maxSize else 0 }

  /** The last min(n, maxSize) samples for a queue with a size, every sample for a queue without. */
  ghost predicate Holds(buffer: seq<Usage>, h: seq<Sample>, maxSize: nat) {
    && |buffer| == |h| - Left(|h|, maxSize)
    && forall i | 0 <= i < |buffer| :: buffer[i] == UsageOf(h, Left(|h|, maxSize) + i)
  }

  /** The size bounds the queue exactly when it is not zero. */
  lemma BoundedIff(buffer: seq<Usage>, h: seq<Sample>, maxSize: nat)
    requires Holds(buffer, h, maxSize)
    ensures |buffer| <= maxSize <==> maxSize >= 1 || h == []
  {
  }

  lemma Appended(buffer: seq<Usage>, h: seq<Sample>, maxSize: nat, s: Sample)
    requires Holds(buffer, h, maxSize)
    ensures var kept := if buffer != [] && |buffer| == maxSize then buffer[1..] else buffer;
      Holds(kept + [UsageOf(h + [s], |h|)], h + [s], maxSize)
  {
  }

  /** A usage as it is handed out; the counter stays inside. */
  function Raw(u: Usage): Usage { u.(cpuUsage := 0) }

  // --- CPU percent and the CPU counter ----------------------------------------------------------------

  predicate Increasing(u: seq<Usage>) {
    forall i | 0 < i < |u| :: u[i - 1].timestamp < u[i].timestamp
  }

  /** Percent times elapsed time. */
  function Slice(a: Usage, b: Usage): real {
    if b.cpuPerc.Some? then b.cpuPerc.value * (b.timestamp - a.timestamp) as real else 0.0
  }

  /** Percent times elapsed time, summed over the samples after the first. */
  function Area(u: seq<Usage>): real {
    if |u| <= 1 then 0.0 else Area(u[..|u| - 1]) + Slice(u[|u| - 2], u[|u| - 1])
  }

  /** How often the counter went down. */
  function Drops(u: seq<Usage>): nat {
    if |u| <= 1 then 0
    else Drops(u[..|u| - 1]) + (if u[|u| - 1].cpuUsage < u[|u| - 2].cpuUsage then 1 else 0)
  }

  /** What the counter added, when a counter that went down has wrapped. */
  function Added(b: Uint64, c: Uint64): int { c - b + (if c < b then TWO_64 else 0) }

  /** One more buffered sample adds what its counter added, or what the counter wrapped to. */
  lemma AreaStep(h: seq<Sample>, k: nat)
    requires 0 < k < |h| && h[k - 1].timestamp < h[k].timestamp
    ensures UsageOf(h, k).cpuPerc.Some?
    ensures Slice(UsageOf(h, k - 1), UsageOf(h, k)) == 100.0 * Added(h[k - 1].cpuUsage, h[k].cpuUsage) as real
  {
  }

  /**
   The CPU percentages in a queue are exactly the counter: with increasing timestamps, percent times
   elapsed time adds up to 100 times the counter difference, plus one wrap for each time the counter
   went down.
   */
  lemma {:induction false} PercentTelescopes(u: seq<Usage>, h: seq<Sample>, from: nat)
    requires 1 <= |u| && from + |u| <= |h| && forall i | 0 <= i < |u| :: u[i] == UsageOf(h, from + i)
    requires Increasing(u)
    ensures Area(u) == 100.0 * (u[|u| - 1].cpuUsage - u[0].cpuUsage + TWO_64 * Drops(u)) as real
  {
    if |u| == 1 {
      assert Drops(u) == 0;
    } else {
      var front := u[..|u| - 1];
      PercentTelescopes(front, h, from);
      var n := |u| - 1;
      assert u[n - 1].timestamp < u[n].timestamp;
      AreaStep(h, from + n);
      assert front[|front| - 1] == u[n - 1] && front[0] == u[0];
      TelescopeStep(u[n].cpuUsage, u[n - 1].cpuUsage, u[0].cpuUsage, Drops(front));
    }
  }

  lemma TelescopeStep(c: Uint64, b: Uint64, a: Uint64, drops: nat)
    ensures 100.0 * (b - a + TWO_64 * drops) as real + 100.0 * Added(b, c) as real
         == 100.0 * (c - a + TWO_64 * (drops + (if c < b then 1 else 0))) as real
  {
  }

  lemma {:induction false} NoDrops(u: seq<Usage>)
    requires forall i | 0 < i < |u| :: u[i - 1].cpuUsage <= u[i].cpuUsage
    ensures Drops(u) == 0
  {
    if |u| > 1 { NoDrops(u[..|u| - 1]); }
  }

  /** For the buffer of a queue, whose first percentage looks back at a sample that is gone. */
  lemma BufferTelescopes(buffer: seq<Usage>, h: seq<Sample>, maxSize: nat)
    requires Holds(buffer, h, maxSize) && buffer != [] && Increasing(buffer)
    requires forall i | 0 < i < |buffer| :: buffer[i - 1].cpuUsage <= buffer[i].cpuUsage
    ensures Area(buffer) == 100.0 * (buffer[|buffer| - 1].cpuUsage - buffer[0].cpuUsage) as real
  {
    PercentTelescopes(buffer, h, Left(|h|, maxSize));
    NoDrops(buffer);
  }

  // --- splitting an unsigned value ----------------------------------------------------------------------

  function WithOverflow(x: Uint64): (Uint64, Uint64) {
    if x > MAX_INT64 then (MAX_INT64, x % MAX_INT64) else (x, 0)
  }

  /** Base plus overflow is the value, except for the two largest. */
  lemma SplitIsExactIff(x: Uint64)
    ensures var (base, overflow) := WithOverflow(x);
      && base <= MAX_INT64 && overflow <= MAX_INT64
      && (base + overflow == x <==> x < 2 * MAX_INT64)
      && (x >= 2 * MAX_INT64 <==> x == TWO_64 - 2 || x == TWO_64 - 1)
  {
  }

  /** What a reader of the split can tell apart: the two largest values look like two smaller ones. */
  lemma SplitIsInjectiveIff(x: Uint64)
    ensures (forall y: Uint64 | y != x :: WithOverflow(y) != WithOverflow(x))
      <==> x != MAX_INT64 && x != MAX_INT64 + 1 && x < 2 * MAX_INT64
  {
    SplitIsExactIff(x);
    SplitIsExactIff(MAX_INT64);
    SplitIsExactIff(MAX_INT64 + 1);
    assert WithOverflow(TWO_64 - 2) == WithOverflow(MAX_INT64);
    assert WithOverflow(TWO_64 - 1) == WithOverflow(MAX_INT64 + 1);
    if x != MAX_INT64 && x != MAX_INT64 + 1 && x < 2 * MAX_INT64 {
      forall y: Uint64 | y != x ensures WithOverflow(y) != WithOverflow(x) {
        SplitIsExactIff(y);
      }
    }
  }

  // --- aggregates -----------------------------------------------------------------------------------------

  function Sum(s: seq<Uint64>): nat { if s == [] then 0 else Sum(s[..|s| - 1]) + s[|s| - 1] }

  ghost predicate IsMin(m: int, s: seq<Uint64>) { m in s && forall x | x in s :: m <= x }
  ghost predicate IsMax(m: int, s: seq<Uint64>) { m in s && forall x | x in s :: x <= m }

  ghost function Values<V>(u: seq<Usage>, f: Usage -> V): seq<V> { seq(|u|, i requires 0 <= i < |u| => f(u[i])) }

  lemma ValuesSnoc<V>(u: seq<Usage>, f: Usage -> V, i: nat)
    requires i < |u|
    ensures Values(u[..i + 1], f) == Values(u[..i], f) + [f(u[i])]
  {
  }

  datatype Split = Split(base: Uint64, overflow: Uint64)
  datatype ULongStatsSet = ULongStatsSet(min: Split, max: Split, sum: Split, sampleCount: nat)

  function SplitOf(x: Uint64): Split { var (b, o) := WithOverflow(x); Split(b, o) }

  /** The numbers of a sequence of values that are not NaN. */
  function Numbers(s: seq<Option<real>>): seq<real> {
    if s == [] then [] else
      var last := s[|s| - 1];
      Numbers(s[..|s| - 1]) + (if last.Some? then [last.value] else [])
  }

  function RealSum(s: seq<real>): real { if s == [] then 0.0 else RealSum(s[..|s| - 1]) + s[|s| - 1] }

  datatype CWStatsSet = CWStatsSet(min: real, max: real, sum: real, sampleCount: nat)

  function Pow2(n: nat): nat { if n == 0 then 1 else 2 * Pow2(n - 1) }

  const MAX_FLOAT64: real := (Pow2(1024) - Pow2(971)) as real

  /** The extremes of the numbers; the extreme floats when there are none. */
  ghost predicate Extremes(min: real, max: real, s: seq<real>) {
    if s == [] then min == MAX_FLOAT64 && max == -MAX_FLOAT64
    else min in s && max in s && forall x | x in s :: min <= x <= max
  }

  ghost predicate Finite(s: seq<Option<real>>) {
    forall i | 0 <= i < |s| && s[i].Some? :: -MAX_FLOAT64 <= s[i].value <= MAX_FLOAT64
  }

  /** The statistics of the values that are numbers. */
  ghost predicate Aggregates(c: CWStatsSet, values: seq<Option<real>>) {
    var s := Numbers(values);
    Extremes(c.min, c.max, s) && c.sum == RealSum(s) && c.sampleCount == |s|
  }

  lemma AggregatesStep(c: CWStatsSet, values: seq<Option<real>>, x: Option<real>)
    requires Aggregates(c, values) && (x.Some? ==> -MAX_FLOAT64 <= x.value <= MAX_FLOAT64)
    ensures x.None? ==> Aggregates(c, values + [x])
    ensures x.Some? ==>
      Aggregates(CWStatsSet(if x.value < c.min then x.value else c.min, if x.value > c.max then x.value else c.max,
                            c.sum + x.value, c.sampleCount + 1), values + [x])
  {
    NumbersSnoc(values, x);
    assert Numbers(values) + [] == Numbers(values);
    if x.Some? { ExtendedExtremes(Numbers(values), c.min, c.max, x.value); }
  }

  class Queue {
    var buffer: seq<Usage>
    const maxSize: nat
    var lastResetTime: Option<int>
    ghost var history: seq<Sample>    // since the last reset

    ghost predicate Valid() reads this { Holds(buffer, history, maxSize) }

    constructor (maxSize: nat)
      ensures Valid() && history == [] && this.maxSize == maxSize && lastResetTime.None?
    {
      buffer, this.maxSize, lastResetTime, history := [], maxSize, None, [];
    }

    method Reset(now: int)
      modifies this
      ensures Valid() && history == [] && lastResetTime == Some(now)
    {
      lastResetTime, buffer, history := Some(now), [], [];
    }

    method Add(s: Sample)
      requires Valid()
      modifies this`buffer, this`history
      ensures Valid() && history == old(history) + [s]
    {
      Appended(buffer, history, maxSize, s);
      var perc: Option<real> := None;
      if |buffer| != 0 {
        var last := buffer[|buffer| - 1];
        assert last == UsageOf(history, |history| - 1);
        var elapsed := s.timestamp - last.timestamp;
        if elapsed > 0 {
          var used := Minus(s.cpuUsage, last.cpuUsage);
          perc := Some(100.0 * used as real / elapsed as real);
        }
        if maxSize == |buffer| { buffer := buffer[1..]; }
      }
      history := history + [s];
      buffer := buffer +
        [Usage(perc, s.memoryUsage / BYTES_IN_MIB % TWO_32, s.storageRead, s.storageWrite, s.network, s.timestamp, s.cpuUsage)];
      assert buffer[|buffer| - 1] == UsageOf(history, |old(history)|);
    }

    /** The most recent usages, latest first. */
    method GetRawUsageStats(numStats: nat) returns (r: Result<seq<Usage>>)
      requires Valid()
      ensures r.Err? <==> history == []
      ensures r.Ok? ==>
        && |r.value| == (if numStats > |buffer| then |buffer| else numStats)
        && forall i | 0 <= i < |r.value| :: r.value[i] == Raw(UsageOf(history, |history| - 1 - i))
      ensures r.Ok? ==> forall i | 0 <= i < |r.value| :: var s, u := history[|history| - 1 - i], r.value[i];
        && u.memoryInMegs == s.memoryUsage / 0x10_0000 % 0x1_0000_0000 && u.cpuUsage == 0
        && u.storageRead == s.storageRead && u.storageWrite == s.storageWrite && u.network == s.network && u.timestamp == s.timestamp
        && u.cpuPerc == if i == |history| - 1 then None else Percent(history[|history| - 2 - i], s)
    {
      if |buffer| == 0 { return Err("No data in the queue"); }
      var n := if numStats > |buffer| then |buffer| else numStats;
      var stats: seq<Usage> := [];
      for i := 0 to n
        invariant |stats| == i
        invariant forall j | 0 <= j < i :: stats[j] == Raw(buffer[|buffer| - 1 - j])
      {
        stats := stats + [buffer[|buffer| - i - 1].(cpuUsage := 0)];
      }
      return Ok(stats);
    }

    method GetULongStatsSet(f: Usage -> Uint64) returns (r: Result<ULongStatsSet>)
      ensures r.Err? <==> |buffer| < MINIMUM_DATAPOINTS
      ensures r.Ok? ==> exists min: Uint64, max: Uint64 ::
        && IsMin(min, Values(buffer, f)) && IsMax(max, Values(buffer, f))
        && r.value == ULongStatsSet(SplitOf(min), SplitOf(max), SplitOf(Sum(Values(buffer, f)) % TWO_64), |buffer|)
    {
      if |buffer| < MINIMUM_DATAPOINTS { return Err("Need at least 2 data points in the queue to calculate int stats"); }
      var min: Uint64, max: Uint64, sum: Uint64, count := TWO_64 - 1, 0, 0, 0;
      for i := 0 to |buffer|
        invariant count == i
        invariant sum == Sum(Values(buffer[..i], f)) % TWO_64
        invariant i == 0 ==> min == TWO_64 - 1 && max == 0
        invariant i > 0 ==> IsMin(min, Values(buffer[..i], f)) && IsMax(max, Values(buffer[..i], f))
      {
        var stat := f(buffer[i]);
        ValuesSnoc(buffer, f, i);
        SumSnoc(Values(buffer[..i], f), stat);
        Extended(Values(buffer[..i], f), stat);
        if stat < min { min := stat; }
        if stat > max { max := stat; }
        sum := (sum + stat) % TWO_64;
        count := count + 1;
      }
      assert buffer[..|buffer|] == buffer;
      return Ok(ULongStatsSet(SplitOf(min), SplitOf(max), SplitOf(sum), count));
    }

    method GetCWStatsSet(f: Usage -> Option<real>) returns (r: Result<CWStatsSet>)
      requires Finite(Values(buffer, f))
      ensures r.Err? <==> |buffer| < MINIMUM_DATAPOINTS
      ensures r.Ok? ==> Aggregates(r.value, Values(buffer, f))
    {
      if |buffer| < MINIMUM_DATAPOINTS { return Err("Need at least 2 data points in queue to calculate CW stats set"); }
      var min, max, sum, count := MAX_FLOAT64, -MAX_FLOAT64, 0.0, 0;
      for i := 0 to |buffer|
        invariant Aggregates(CWStatsSet(min, max, sum, count), Values(buffer[..i], f))
      {
        var stat := f(buffer[i]);
        ValuesSnoc(buffer, f, i);
        assert Values(buffer, f)[i] == stat;
        AggregatesStep(CWStatsSet(min, max, sum, count), Values(buffer[..i], f), stat);
        if stat.None? { continue; }
        min := if stat.value < min then stat.value else min;
        max := if stat.value > max then stat.value else max;
        count := count + 1;
        sum := sum + stat.value;
      }
      assert buffer[..|buffer|] == buffer;
      return Ok(CWStatsSet(min, max, sum, count));
    }
  }

  lemma SumSnoc(s: seq<Uint64>, x: Uint64)
    ensures Sum(s + [x]) == Sum(s) + x
    ensures (Sum(s) % TWO_64 + x) % TWO_64 == Sum(s + [x]) % TWO_64
  {
  }

  lemma Extended(s: seq<Uint64>, x: Uint64)
    ensures s == [] ==> IsMin(x, s + [x]) && IsMax(x, s + [x])
    ensures forall m | IsMin(m, s) :: IsMin(if x < m then x else m, s + [x])
    ensures forall m | IsMax(m, s) :: IsMax(if x > m then x else m, s + [x])
  {
  }

  lemma NumbersSnoc(s: seq<Option<real>>, x: Option<real>)
    ensures Numbers(s + [x]) == Numbers(s) + (if x.Some? then [x.value] else [])
    ensures x.Some? ==> RealSum(Numbers(s) + [x.value]) == RealSum(Numbers(s)) + x.value
  {
  }

  lemma ExtendedExtremes(s: seq<real>, min: real, max: real, x: real)
    requires Extremes(min, max, s) && -MAX_FLOAT64 <= x <= MAX_FLOAT64
    ensures Extremes(if x < min then x else min, if x > max then x else max, s + [x])
  {
  }
}
