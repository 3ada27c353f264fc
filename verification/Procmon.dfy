/** `Procmon::tick`: cumulative kernel counters differenced between two ticks, over exact
    reals. */
module Procmon {
  import opened Common

  /** Number of processor cores the formula divides by (`hexin`). */
  const CORES := 2

  /** What one successful reading of the four files yields. */
  datatype Counters = Counters(
    utime: int, systime: int, ioRun: int, allMem: int, memIdle: int, allTimes: real)

  function Elapsed(a: Counters, b: Counters): real {
    b.allTimes - a.allTimes
  }

  /** Clock ticks spent in user and system mode between two readings. */
  function BusyTicks(a: Counters, b: Counters): int {
    b.utime + b.systime - a.utime - a.systime
  }

  lemma Product(x: real, y: real)
    requires x > 0.0 && y > 0.0
    ensures x * y > 0.0
  {
  }

  /** A part of a whole, in percent. */
  function Ratio(part: real, whole: real): real
    requires whole > 0.0
  {
    part / whole * 100.0
  }

  /** The usage published by the tick that reads b after a. `capacity` is the number of clock
      ticks all cores together can spend in a second. */
  function UsageOf(capacity: real, a: Counters, b: Counters): Usage
    requires Elapsed(a, b) > 0.0 && capacity > 0.0 && b.allMem > 0
  {
    var sec := Elapsed(a, b);
    Product(sec, capacity);
    Usage(Ratio(BusyTicks(a, b) as real, sec * capacity),
          Ratio((b.allMem - b.memIdle) as real, b.allMem as real),
          Ratio((b.ioRun - a.ioRun) as real / 1000.0, sec))
  }

  /** A ratio is in [0, 100] percent exactly when the part is between 0 and the whole. */
  lemma Percent(part: real, whole: real)
    requires whole > 0.0
    ensures 0.0 <= Ratio(part, whole) <= 100.0 <==> 0.0 <= part <= whole
  {
    var q := part / whole;
    assert q * whole == part;
    if 0.0 <= q <= 1.0 {
      assert q * whole <= whole;
    } else if q > 1.0 {
      assert q * whole > whole;
    } else {
      assert q * whole < 0.0;
    }
  }

  /** The published CPU usage is a percentage exactly when the busy ticks are between none
      and all that the elapsed time allows. */
  lemma CpuInRange(capacity: real, a: Counters, b: Counters)
    requires Elapsed(a, b) > 0.0 && capacity > 0.0 && b.allMem > 0
    ensures 0.0 <= UsageOf(capacity, a, b).cpu <= 100.0
       <==> 0.0 <= BusyTicks(a, b) as real <= Elapsed(a, b) * capacity
  {
    var whole := Elapsed(a, b) * capacity;
    Product(Elapsed(a, b), capacity);
    Percent(BusyTicks(a, b) as real, whole);
    assert UsageOf(capacity, a, b).cpu == Ratio(BusyTicks(a, b) as real, whole);
  }

  /** The published I/O usage is a percentage exactly when the busy milliseconds are between
      none and the elapsed ones. */
  lemma IoInRange(capacity: real, a: Counters, b: Counters)
    requires Elapsed(a, b) > 0.0 && capacity > 0.0 && b.allMem > 0
    ensures 0.0 <= UsageOf(capacity, a, b).io <= 100.0
       <==> 0.0 <= (b.ioRun - a.ioRun) as real / 1000.0 <= Elapsed(a, b)
  {
    Percent((b.ioRun - a.ioRun) as real / 1000.0, Elapsed(a, b));
  }

  /** The published memory usage is a percentage exactly when idle memory is part of all. */
  lemma MemInRange(capacity: real, a: Counters, b: Counters)
    requires Elapsed(a, b) > 0.0 && capacity > 0.0 && b.allMem > 0
    ensures 0.0 <= UsageOf(capacity, a, b).mem <= 100.0 <==> 0 <= b.memIdle <= b.allMem
  {
    Percent((b.allMem - b.memIdle) as real, b.allMem as real);
  }

  /** A published usage in the counters' own terms, `clock` being the clock ticks per second of
      each of two cores: busy ticks, busy milliseconds, and memory that is not idle. */
  ghost predicate InCounters(clock: int, a: Counters, b: Counters, u: Usage) {
    var sec := b.allTimes - a.allTimes;
    && u.cpu * (sec * clock as real * 2.0) == 100.0 * (b.utime + b.systime - a.utime - a.systime) as real
    && u.mem * b.allMem as real == 100.0 * (b.allMem - b.memIdle) as real
    && u.io * (sec * 1000.0) == 100.0 * (b.ioRun - a.ioRun) as real
  }

  lemma RatioTimesWhole(part: real, whole: real)
    requires whole > 0.0
    ensures Ratio(part, whole) * whole == 100.0 * part
  {
    var q := part / whole;
    assert q * whole == part;
    assert q * 100.0 * whole == 100.0 * (q * whole);
  }

  lemma MilliRatio(ms: real, sec: real)
    requires sec > 0.0
    ensures Ratio(ms / 1000.0, sec) * (sec * 1000.0) == 100.0 * ms
  {
    RatioTimesWhole(ms / 1000.0, sec);
    var u := Ratio(ms / 1000.0, sec);
    assert u * (sec * 1000.0) == (u * sec) * 1000.0;
  }

  lemma CoreTicks(sec: real, clock: int)
    ensures sec * (clock as real * CORES as real) == sec * clock as real * 2.0
  {
  }

  /** What the formulas publish, with nothing left open: two cores, milliseconds, used memory. */
  lemma UsageInCounters(clock: int, a: Counters, b: Counters)
    requires clock > 0 && Elapsed(a, b) > 0.0 && b.allMem > 0
    requires clock as real * CORES as real > 0.0
    ensures InCounters(clock, a, b, UsageOf(clock as real * CORES as real, a, b))
  {
    var sec, capacity := Elapsed(a, b), clock as real * CORES as real;
    Product(sec, capacity);
    CoreTicks(sec, clock);
    RatioTimesWhole(BusyTicks(a, b) as real, sec * capacity);
    RatioTimesWhole((b.allMem - b.memIdle) as real, b.allMem as real);
    MilliRatio((b.ioRun - a.ioRun) as real, sec);
  }

  /** The more memory is idle, the smaller the memory usage. */
  lemma IdleMemoryLowers(capacity: real, a: Counters, b: Counters, c: Counters)
    requires Elapsed(a, b) > 0.0 && Elapsed(a, c) > 0.0 && capacity > 0.0 && b.allMem == c.allMem > 0
    requires b.memIdle < c.memIdle
    ensures UsageOf(capacity, a, c).mem < UsageOf(capacity, a, b).mem
  {
    var all := b.allMem as real;
    var u, v := UsageOf(capacity, a, b).mem, UsageOf(capacity, a, c).mem;
    RatioTimesWhole((b.allMem - b.memIdle) as real, all);
    RatioTimesWhole((c.allMem - c.memIdle) as real, all);
    LargerTimes(u, v, all);
  }

  lemma LargerTimes(u: real, v: real, c: real)
    requires c > 0.0 && v * c < u * c
    ensures v < u
  {
    assert v >= u ==> (v - u) * c >= 0.0;
  }

  // ----- telescoping -----

  /** Readings in time order. */
  ghost predicate Ordered(h: seq<Counters>) {
    && (forall j :: 0 <= j < |h| - 1 ==> Elapsed(h[j], h[j + 1]) > 0.0)
    && (forall j :: 0 <= j < |h| ==> h[j].allMem > 0)
  }

  /** The usages published by the ticks of a run, one for each reading but the first. */
  ghost predicate Published(capacity: real, h: seq<Counters>, us: seq<Usage>)
    requires Ordered(h) && capacity > 0.0
  {
    && |us| == (if h == [] then 0 else |h| - 1)
    && forall j :: 0 <= j < |us| ==> Elapsed(h[j], h[j + 1]) > 0.0 && us[j] == UsageOf(capacity, h[j], h[j + 1])
  }

  lemma PublishedAppend(capacity: real, h: seq<Counters>, us: seq<Usage>, c: Counters)
    requires Ordered(h) && capacity > 0.0 && h != [] && Published(capacity, h, us)
    requires Elapsed(h[|h| - 1], c) > 0.0 && c.allMem > 0
    ensures Ordered(h + [c]) && Published(capacity, h + [c], us + [UsageOf(capacity, h[|h| - 1], c)])
  {
  }

  lemma {:induction false} OrderedEnds(h: seq<Counters>)
    requires Ordered(h) && |h| >= 2
    ensures Elapsed(h[0], h[|h| - 1]) > 0.0
  {
    var n := |h| - 1;
    assert Elapsed(h[n - 1], h[n - 1 + 1]) > 0.0;
    if n > 1 {
      OrderedEnds(h[..n]);
    }
  }

  /** The sum over the first n ticks of published CPU usage times seconds. */
  ghost function CpuSeconds(h: seq<Counters>, us: seq<Usage>, n: nat): real
    requires |h| > n && |us| >= n
  {
    if n == 0 then 0.0 else CpuSeconds(h, us, n - 1) + us[n - 1].cpu * Elapsed(h[n - 1], h[n])
  }

  /** The sum over the first n ticks of published I/O usage times seconds. */
  ghost function IoSeconds(h: seq<Counters>, us: seq<Usage>, n: nat): real
    requires |h| > n && |us| >= n
  {
    if n == 0 then 0.0 else IoSeconds(h, us, n - 1) + us[n - 1].io * Elapsed(h[n - 1], h[n])
  }

  /** The usage is the amount per second and per unit of capacity, in percent. */
  ghost predicate IsRate(usage: real, sec: real, capacity: real, amount: real) {
    usage * sec * capacity == amount * 100.0
  }

  lemma RatioIsRate(x: real, sec: real, capacity: real)
    requires sec > 0.0 && capacity > 0.0
    ensures sec * capacity > 0.0 && IsRate(Ratio(x, sec * capacity), sec, capacity, x)
  {
    Product(sec, capacity);
    var q := x / (sec * capacity);
    assert q * (sec * capacity) == x;
    assert q * 100.0 * sec * capacity == q * (sec * capacity) * 100.0;
  }

  /** CPU usage is busy ticks per second and capacity, I/O usage busy milliseconds per
      thousand milliseconds. */
  lemma UsageIsRate(capacity: real, a: Counters, b: Counters)
    requires Elapsed(a, b) > 0.0 && capacity > 0.0 && b.allMem > 0
    ensures var u := UsageOf(capacity, a, b);
      && IsRate(u.cpu, Elapsed(a, b), capacity, BusyTicks(a, b) as real)
      && IsRate(u.io, Elapsed(a, b), 1.0, (b.ioRun - a.ioRun) as real / 1000.0)
  {
    RatioIsRate(BusyTicks(a, b) as real, Elapsed(a, b), capacity);
    RatioIsRate((b.ioRun - a.ioRun) as real / 1000.0, Elapsed(a, b), 1.0);
    assert Elapsed(a, b) * 1.0 == Elapsed(a, b);
  }

  lemma Distribute(x: real, y: real, c: real)
    ensures (x + y) * c == x * c + y * c
  {
  }

  lemma PublishedIsRate(capacity: real, h: seq<Counters>, us: seq<Usage>, j: nat)
    requires Ordered(h) && capacity > 0.0 && Published(capacity, h, us) && j < |us|
    ensures IsRate(us[j].cpu, Elapsed(h[j], h[j + 1]), capacity, BusyTicks(h[j], h[j + 1]) as real)
    ensures IsRate(us[j].io, Elapsed(h[j], h[j + 1]), 1.0, (h[j + 1].ioRun - h[j].ioRun) as real / 1000.0)
  {
    UsageIsRate(capacity, h[j], h[j + 1]);
  }

  /** Over the first n ticks of any run, CPU usage times seconds adds up to the difference of
      the last and the first counters: intermediate readings leave no trace. */
  lemma {:induction false} CpuTelescopes(capacity: real, h: seq<Counters>, us: seq<Usage>, n: nat)
    requires Ordered(h) && capacity > 0.0 && h != [] && Published(capacity, h, us) && n <= |us|
    ensures CpuSeconds(h, us, n) * capacity == BusyTicks(h[0], h[n]) as real * 100.0
  {
    if n > 0 {
      CpuTelescopes(capacity, h, us, n - 1);
      PublishedIsRate(capacity, h, us, n - 1);
      Distribute(CpuSeconds(h, us, n - 1), us[n - 1].cpu * Elapsed(h[n - 1], h[n]), capacity);
    }
  }

  /** The same for I/O usage, counted in milliseconds. */
  lemma {:induction false} IoTelescopes(capacity: real, h: seq<Counters>, us: seq<Usage>, n: nat)
    requires Ordered(h) && capacity > 0.0 && h != [] && Published(capacity, h, us) && n <= |us|
    ensures IoSeconds(h, us, n) == (h[n].ioRun - h[0].ioRun) as real / 1000.0 * 100.0
  {
    if n > 0 {
      IoTelescopes(capacity, h, us, n - 1);
      PublishedIsRate(capacity, h, us, n - 1);
    }
  }

  /** Of two reals with the same positive multiple, neither is larger. */
  lemma CancelFactor(x: real, y: real, c: real)
    requires c > 0.0 && x * c == y * c
    ensures x == y
  {
    assert (x - y) * c == 0.0;
  }

  /** Two totals that give the same amount at the same rate are equal. */
  lemma SameAverage(total: real, usage: real, sec: real, capacity: real, amount: real)
    requires sec > 0.0 && capacity > 0.0
    requires total * capacity == amount * 100.0 && IsRate(usage, sec, capacity, amount)
    ensures total / sec == usage
  {
    assert total * capacity == (usage * sec) * capacity;
    CancelFactor(total, usage * sec, capacity);
    assert usage * sec / sec == usage;
  }

  /** So the time-weighted average of all published CPU usages is that of the whole run. */
  lemma CpuAverage(capacity: real, h: seq<Counters>, us: seq<Usage>)
    requires Ordered(h) && capacity > 0.0 && |h| >= 2 && Published(capacity, h, us)
    ensures var sec := Elapsed(h[0], h[|h| - 1]);
      sec > 0.0 && CpuSeconds(h, us, |us|) / sec == UsageOf(capacity, h[0], h[|h| - 1]).cpu
  {
    var a, b := h[0], h[|h| - 1];
    OrderedEnds(h);
    CpuTelescopes(capacity, h, us, |us|);
    UsageIsRate(capacity, a, b);
    SameAverage(CpuSeconds(h, us, |us|), UsageOf(capacity, a, b).cpu, Elapsed(a, b), capacity, BusyTicks(a, b) as real);
  }

  /** And the same for the I/O usages. */
  lemma IoAverage(capacity: real, h: seq<Counters>, us: seq<Usage>)
    requires Ordered(h) && capacity > 0.0 && |h| >= 2 && Published(capacity, h, us)
    ensures var sec := Elapsed(h[0], h[|h| - 1]);
      sec > 0.0 && IoSeconds(h, us, |us|) / sec == UsageOf(capacity, h[0], h[|h| - 1]).io
  {
    var a, b := h[0], h[|h| - 1];
    OrderedEnds(h);
    IoTelescopes(capacity, h, us, |us|);
    UsageIsRate(capacity, a, b);
    var busy := (b.ioRun - a.ioRun) as real / 1000.0;
    SameAverage(IoSeconds(h, us, |us|), UsageOf(capacity, a, b).io, Elapsed(a, b), 1.0, busy);
  }

  // ----- the object -----

  class Monitor {
    const kClockTicksPerSecond: int
    var ticked: bool
    var sec: real
    var cur: Usage
    var last: Counters
    ghost var history: seq<Counters>
    ghost var published: seq<Usage>

    ghost function Capacity(): real {
      kClockTicksPerSecond as real * CORES as real
    }

    /** `cur` always holds the three values of one single tick, or the initial zeros. */
    ghost predicate Valid()
      reads this
    {
      && kClockTicksPerSecond > 0 && Ordered(history)
      && (ticked <==> history != [])
      && (ticked ==> last == history[|history| - 1])
      && Published(Capacity(), history, published)
      && cur == Latest()
    }

    ghost function Latest(): Usage
      reads this
    {
      if published == [] then ZERO else published[|published| - 1]
    }

    constructor (clock: int)
      requires clock > 0
      ensures Valid() && history == [] && published == []
    {
      kClockTicksPerSecond := clock;
      ticked, sec, cur := false, 0.0, ZERO;
      last := Counters(0, 0, 0, 0, 0, 0.0);
      history, published := [], [];
    }

    /** The arithmetic of a tick. */
    method Difference(now: Counters) returns (usage: Usage)
      requires kClockTicksPerSecond > 0 && now.allMem > 0 && now.allTimes > last.allTimes
      modifies this`sec
      ensures sec == Elapsed(last, now) && usage == UsageOf(Capacity(), last, now)
      ensures InCounters(kClockTicksPerSecond, last, now, usage)
    {
      sec := now.allTimes - last.allTimes;
      Product(sec, Capacity());
      assert sec * kClockTicksPerSecond as real * CORES as real == sec * Capacity();
      var tmpCpu := (now.utime + now.systime - last.utime - last.systime) as real
                    / (sec * kClockTicksPerSecond as real * CORES as real) * 100.0;
      var tmpIo := (now.ioRun - last.ioRun) as real / 1000.0 / sec * 100.0;
      var tmpMem := (now.allMem - now.memIdle) as real / now.allMem as real * 100.0;
      usage := Usage(tmpCpu, tmpMem, tmpIo);
      UsageInCounters(kClockTicksPerSecond, last, now);
    }

    /** The difference to the last reading becomes the published usage. */
    method PublishDifference(now: Counters)
      requires Valid() && ticked && now.allMem > 0 && now.allTimes > last.allTimes
      modifies this`sec, this`cur, this`published
      ensures Ordered(history + [now]) && Published(Capacity(), history + [now], published)
      ensures published == old(published) + [cur] && InCounters(kClockTicksPerSecond, last, now, cur)
    {
      cur := Difference(now);
      PublishedAppend(Capacity(), history, published, now);
      published := published + [cur];
    }

    /** One tick; None stands for a file that could not be read, which changes nothing. The
        first reading publishes nothing, every later one the difference to its predecessor. */
    method Tick(reading: Option<Counters>)
      requires Valid()
      requires reading.Some? ==> reading.value.allMem > 0 && (ticked ==> reading.value.allTimes > last.allTimes)
      modifies this
      ensures Valid()
      ensures history == old(history) + if reading.Some? then [reading.value] else []
      ensures published == old(published) + if reading.Some? && old(ticked) then [cur] else []
      ensures reading.Some? && old(ticked) ==> InCounters(kClockTicksPerSecond, old(last), reading.value, cur)
      ensures !(reading.Some? && old(ticked)) ==> cur == old(cur)
    {
      if reading.None? {
        return;
      }
      var now := reading.value;
      if ticked {
        PublishDifference(now);
      }
      last, ticked := now, true;
      history := history + [now];
    }

    /** `getStat`, under the same lock as the publication. */
    method GetStat() returns (usage: Usage)
      requires Valid()
      ensures usage == if published == [] then Usage(0.0, 0.0, 0.0) else published[|published| - 1]
    {
      usage := cur;
    }
  }

  // ----- readProcFile -----

  ghost function Join(chunks: seq<string>): string {
    if chunks == [] then "" else chunks[0] + Join(chunks[1..])
  }

  lemma {:induction false} JoinSnoc(chunks: seq<string>, c: string)
    ensures Join(chunks + [c]) == Join(chunks) + c
  {
    if chunks == [] {
      assert [c][1..] == [];
    } else {
      JoinSnoc(chunks[1..], c);
      assert (chunks + [c])[1..] == chunks[1..] + [c];
    }
  }

  /** `results` are the successive results of `read`, an empty one standing for end of file or
      an error: everything before the first empty result is returned, in order. */
  method ReadProcFile(results: seq<string>) returns (content: string, n: nat)
    ensures n <= |results| && content == Join(results[..n])
    ensures (forall i :: 0 <= i < n ==> results[i] != "") && (n < |results| ==> results[n] == "")
  {
    content, n := "", 0;
    while n < |results| && results[n] != ""
      invariant n <= |results| && content == Join(results[..n])
      invariant forall i :: 0 <= i < n ==> results[i] != ""
    {
      JoinSnoc(results[..n], results[n]);
      assert results[..n + 1] == results[..n] + [results[n]];
      content := content + results[n];
      n := n + 1;
    }
  }
}
