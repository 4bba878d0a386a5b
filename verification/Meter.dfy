/**
 The throughput meter of the CLI: bytes over time with a reset at the end of the grace period.

 `Meter` and the functions on it say what each call does; the class `ThroughputMeter` does it in
 place. The rest relates whole runs to the plain list of samples they were fed.
 Times are nanoseconds since Go's zero time, rates are reals.
 */
module Measure {
  import opened Clock

  datatype Sample = Sample(bytes: int, at: int)

  datatype Meter = Meter(
    overhead: real, grace: int,
    started: int, graceEnded: bool, baseTime: int, bytes: int, elapsed: int)

  function Started(m: Meter, now: int): Meter {
    m.(started := now, baseTime := now, graceEnded := m.grace <= 0, bytes := 0, elapsed := 0)
  }

  function Added(m: Meter, n: int, now: int): Meter {
    var m := if m.started == ZERO_TIME then Started(m, now) else m;
    if !m.graceEnded && now - m.started >= m.grace then
      m.(graceEnded := true, baseTime := now, bytes := 0, elapsed := 0)
    else
      m.(bytes := m.bytes + n, elapsed := Longest(m.elapsed, now - m.baseTime))
  }

  function Stopped(m: Meter, now: int): Meter {
    if m.started == ZERO_TIME || !m.graceEnded then m
    else m.(elapsed := Longest(m.elapsed, now - m.baseTime))
  }

  function Longest(a: int, b: int): int {
    if b > a then b else a
  }

  /** Megabits per second of `bytes` in `secs`, with the overhead compensated for. */
  function Rate(bytes: real, secs: real, overhead: real): real
    requires secs != 0.0
  {
    bytes / secs * 8.0 / 1000000.0 * overhead
  }

  function Mbps(m: Meter): real {
    var secs := Seconds(m.elapsed);
    if secs <= 0.0 || m.bytes <= 0 then 0.0 else Rate(m.bytes as real, secs, m.overhead)
  }

  class ThroughputMeter {
    const overhead: real
    const grace: int
    var started: int
    var graceEnded: bool
    var baseTime: int
    var bytes: int
    var elapsed: int

    constructor (overhead: real, grace: int)
      ensures Value() == Meter(overhead, grace, ZERO_TIME, false, ZERO_TIME, 0, 0)
    {
      this.overhead, this.grace := overhead, grace;
      started, graceEnded, baseTime, bytes, elapsed := ZERO_TIME, false, ZERO_TIME, 0, 0;
    }

    function Value(): Meter
      reads this
    {
      Meter(overhead, grace, started, graceEnded, baseTime, bytes, elapsed)
    }

    method Start(now: int)
      modifies this
      ensures Value() == Started(old(Value()), now)
    {
      started := now;
      baseTime := now;
      graceEnded := grace <= 0;
      bytes := 0;
      elapsed := 0;
    }

    method Add(n: int, now: int)
      modifies this
      ensures Value() == Added(old(Value()), n, now)
    {
      if started == ZERO_TIME {
        Start(now);
      }
      if !graceEnded && now - started >= grace {
        graceEnded := true;
        baseTime := now;
        bytes := 0;
        elapsed := 0;
        return;
      }
      bytes := bytes + n;
      var d := now - baseTime;
      if d > elapsed {
        elapsed := d;
      }
    }

    method Stop(now: int)
      modifies this
      ensures Value() == Stopped(old(Value()), now)
    {
      if started == ZERO_TIME || !graceEnded {
        return;
      }
      var d := now - baseTime;
      if d > elapsed {
        elapsed := d;
      }
    }
  }

  function AddAll(m: Meter, samples: seq<Sample>): Meter
    decreases |samples|
  {
    if samples == [] then m else AddAll(Added(m, samples[0].bytes, samples[0].at), samples[1..])
  }

  // ---- the list the meter stands for ------------------------------------------------

  /** The first sample at or past the end of the grace period, if there is one. */
  function Crossing(samples: seq<Sample>, start: int, grace: int): nat
    ensures Crossing(samples, start, grace) <= |samples|
  {
    if samples == [] || samples[0].at - start >= grace then 0 else 1 + Crossing(samples[1..], start, grace)
  }

  predicate Crosses(samples: seq<Sample>, start: int, grace: int) {
    grace > 0 && Crossing(samples, start, grace) < |samples|
  }

  /** The samples that count: all of them, or those after the crossing one. */
  function Window(samples: seq<Sample>, start: int, grace: int): seq<Sample> {
    if Crosses(samples, start, grace) then samples[Crossing(samples, start, grace) + 1..] else samples
  }

  function Base(samples: seq<Sample>, start: int, grace: int): int {
    if Crosses(samples, start, grace) then samples[Crossing(samples, start, grace)].at else start
  }

  function Discarded(samples: seq<Sample>, start: int, grace: int): seq<Sample> {
    if Crosses(samples, start, grace) then samples[..Crossing(samples, start, grace) + 1] else []
  }

  function Bytes(samples: seq<Sample>): int {
    if samples == [] then 0 else samples[0].bytes + Bytes(samples[1..])
  }

  /** The largest offset of a sample from `base`, or zero. */
  function Span(samples: seq<Sample>, base: int): int {
    if samples == [] then 0 else Longest(Span(samples[1..], base), samples[0].at - base)
  }

  lemma {:induction false} SpanIsLargest(samples: seq<Sample>, base: int)
    ensures 0 <= Span(samples, base)
    ensures forall s :: s in samples ==> s.at - base <= Span(samples, base)
    ensures Span(samples, base) == 0 || exists s :: s in samples && s.at - base == Span(samples, base)
  {
    if samples != [] {
      SpanIsLargest(samples[1..], base);
      if Span(samples, base) == samples[0].at - base {
        assert samples[0] in samples;
      } else if Span(samples, base) != 0 {
        var s :| s in samples[1..] && s.at - base == Span(samples, base);
        assert s in samples;
      }
    }
  }

  lemma {:induction false} BytesAppend(a: seq<Sample>, b: seq<Sample>)
    ensures Bytes(a + b) == Bytes(a) + Bytes(b)
  {
    if a == [] {
      assert a + b == b;
    } else {
      assert (a + b)[1..] == a[1..] + b;
      BytesAppend(a[1..], b);
    }
  }

  /** Once the grace period is over every sample counts. */
  lemma {:induction false} AddAllEnded(m: Meter, samples: seq<Sample>)
    requires m.started != ZERO_TIME && m.graceEnded && m.elapsed >= 0
    ensures AddAll(m, samples)
            == m.(bytes := m.bytes + Bytes(samples), elapsed := Longest(m.elapsed, Span(samples, m.baseTime)))
    decreases |samples|
  {
    if samples != [] {
      AddAllEnded(Added(m, samples[0].bytes, samples[0].at), samples[1..]);
    }
  }

  lemma {:induction false} AddAllInGrace(m: Meter, samples: seq<Sample>)
    requires m.started == m.baseTime != ZERO_TIME && !m.graceEnded && m.grace > 0 && m.elapsed >= 0
    ensures var r := AddAll(m, samples);
            if Crosses(samples, m.started, m.grace) then
              var w, base := Window(samples, m.started, m.grace), Base(samples, m.started, m.grace);
              r == m.(graceEnded := true, baseTime := base, bytes := Bytes(w), elapsed := Span(w, base))
            else
              r == m.(bytes := m.bytes + Bytes(samples), elapsed := Longest(m.elapsed, Span(samples, m.started)))
    decreases |samples|
  {
    if samples != [] {
      var next := Added(m, samples[0].bytes, samples[0].at);
      if samples[0].at - m.started >= m.grace {
        AddAllEnded(next, samples[1..]);
        SpanIsLargest(samples[1..], samples[0].at);
      } else {
        AddAllInGrace(next, samples[1..]);
        var i := Crossing(samples[1..], m.started, m.grace);
        if i < |samples[1..]| {
          assert samples[1..][i] == samples[i + 1] && samples[1..][i + 1..] == samples[i + 2..];
        }
      }
    }
  }

  /** However the meter was used before, after `Start` and any samples in any order of times it
      has counted exactly the samples of the window, over the span of the window. */
  lemma MeterIsWindow(m: Meter, start: int, samples: seq<Sample>)
    requires start != ZERO_TIME
    ensures var r := AddAll(Started(m, start), samples);
            var w, base := Window(samples, start, m.grace), Base(samples, start, m.grace);
            && r.bytes == Bytes(w) && r.elapsed == Span(w, base) && r.baseTime == base
            && (r.graceEnded <==> m.grace <= 0 || Crosses(samples, start, m.grace))
            && r.overhead == m.overhead && r.grace == m.grace && r.started == start
  {
    SpanIsLargest(samples, start);
    if m.grace <= 0 {
      AddAllEnded(Started(m, start), samples);
    } else {
      AddAllInGrace(Started(m, start), samples);
    }
  }

  /** Nothing is counted twice or lost: counted and discarded bytes add up to what was fed in. */
  lemma BytesConserved(m: Meter, start: int, samples: seq<Sample>)
    requires start != ZERO_TIME
    ensures AddAll(Started(m, start), samples).bytes + Bytes(Discarded(samples, start, m.grace)) == Bytes(samples)
  {
    MeterIsWindow(m, start, samples);
    var d, w := Discarded(samples, start, m.grace), Window(samples, start, m.grace);
    assert samples == d + w;
    BytesAppend(d, w);
  }

  /** A meter nobody started starts itself at its first sample. */
  lemma ImplicitStart(m: Meter, samples: seq<Sample>)
    requires m.started == ZERO_TIME && samples != [] && samples[0].at != ZERO_TIME
    ensures AddAll(m, samples) == AddAll(Started(m, samples[0].at), samples)
  {
  }

  // ---- throughput -----------------------------------------------------------------

  ghost predicate InOrder(samples: seq<Sample>, from: int) {
    samples != [] ==> from <= samples[0].at && InOrder(samples[1..], samples[0].at)
  }

  /** `bytes` in a time of `ns` is between `lo` and `hi` bytes per second. */
  ghost predicate Carries(bytes: int, ns: int, lo: real, hi: real) {
    lo * Seconds(ns) <= bytes as real <= hi * Seconds(ns)
  }

  /** Each sample carries between `lo` and `hi` bytes per second of the gap before it. */
  ghost predicate Paced(samples: seq<Sample>, from: int, lo: real, hi: real) {
    samples != [] ==>
      && Carries(samples[0].bytes, samples[0].at - from, lo, hi)
      && Paced(samples[1..], samples[0].at, lo, hi)
  }

  function Last(samples: seq<Sample>, from: int): int {
    if samples == [] then from else samples[|samples| - 1].at
  }

  lemma {:induction false} SpanInOrder(samples: seq<Sample>, base: int, from: int)
    requires base <= from && InOrder(samples, from)
    ensures from <= Last(samples, from)
    ensures Span(samples, base) == if samples == [] then 0 else Last(samples, from) - base
  {
    if samples != [] {
      SpanInOrder(samples[1..], base, samples[0].at);
    }
  }

  /** The gaps add up: paced samples carry between `lo` and `hi` per second of the whole window. */
  lemma {:induction false} PacedBytes(samples: seq<Sample>, from: int, lo: real, hi: real)
    requires InOrder(samples, from) && Paced(samples, from, lo, hi)
    ensures Carries(Bytes(samples), Last(samples, from) - from, lo, hi)
  {
    if samples == [] {
      assert Seconds(0) == 0.0;
    } else {
      var at := samples[0].at;
      PacedBytes(samples[1..], at, lo, hi);
      assert Last(samples[1..], at) == Last(samples, from);
      CarriesAdd(samples[0].bytes, at - from, Bytes(samples[1..]), Last(samples, from) - at, lo, hi);
    }
  }

  lemma CarriesAdd(a: int, d: int, b: int, e: int, lo: real, hi: real)
    requires Carries(a, d, lo, hi) && Carries(b, e, lo, hi)
    ensures Carries(a + b, d + e, lo, hi)
  {
    assert Seconds(d + e) == Seconds(d) + Seconds(e);
    assert lo * (Seconds(d) + Seconds(e)) == lo * Seconds(d) + lo * Seconds(e);
    assert hi * (Seconds(d) + Seconds(e)) == hi * Seconds(d) + hi * Seconds(e);
  }

  lemma Scale(a: real, b: real, k: real)
    requires a <= b && 0.0 <= k
    ensures a * k <= b * k
  {
  }

  lemma RateMonotone(bytes: real, pace: real, secs: real, overhead: real)
    requires secs > 0.0 && overhead > 0.0
    ensures bytes <= pace * secs ==> Rate(bytes, secs, overhead) <= Rate(pace, 1.0, overhead)
    ensures pace * secs <= bytes ==> Rate(pace, 1.0, overhead) <= Rate(bytes, secs, overhead)
  {
    var q := bytes / secs;
    assert q * secs == bytes;
    if bytes <= pace * secs {
      if q > pace { assert (q - pace) * secs > 0.0; }
      Scale(q * 8.0 / 1000000.0, pace / 1.0 * 8.0 / 1000000.0, overhead);
    }
    if pace * secs <= bytes {
      if q < pace { assert (pace - q) * secs > 0.0; }
      Scale(pace / 1.0 * 8.0 / 1000000.0, q * 8.0 / 1000000.0, overhead);
    }
  }

  lemma {:induction false} WindowInOrder(samples: seq<Sample>, from: int, start: int, grace: int)
    requires InOrder(samples, from)
    ensures InOrder(Window(samples, start, grace),
                    if Crosses(samples, start, grace) then Base(samples, start, grace) else from)
    decreases |samples|
  {
    if samples != [] && Crosses(samples, start, grace) && samples[0].at - start < grace {
      WindowInOrder(samples[1..], samples[0].at, start, grace);
      var i := Crossing(samples[1..], start, grace);
      assert samples[1..][i] == samples[i + 1] && samples[1..][i + 1..] == samples[i + 2..];
    }
  }

  /** In order, the window is as long as from its base to its last sample. */
  lemma WindowSpan(m: Meter, start: int, samples: seq<Sample>)
    requires start != ZERO_TIME && InOrder(samples, start)
    ensures var w, base := Window(samples, start, m.grace), Base(samples, start, m.grace);
            && InOrder(w, base)
            && AddAll(Started(m, start), samples).elapsed == Last(w, base) - base >= 0
  {
    var w, base := Window(samples, start, m.grace), Base(samples, start, m.grace);
    MeterIsWindow(m, start, samples);
    WindowInOrder(samples, start, start, m.grace);
    SpanInOrder(w, base, base);
  }

  lemma PacedWindow(m: Meter, start: int, samples: seq<Sample>, lo: real, hi: real)
    requires start != ZERO_TIME && InOrder(samples, start)
    requires Paced(Window(samples, start, m.grace), Base(samples, start, m.grace), lo, hi)
    ensures var r := AddAll(Started(m, start), samples);
            Carries(r.bytes, r.elapsed, lo, hi)
  {
    var w, base := Window(samples, start, m.grace), Base(samples, start, m.grace);
    MeterIsWindow(m, start, samples);
    WindowSpan(m, start, samples);
    PacedBytes(w, base, lo, hi);
  }

  /** If every counted sample, taken in order, keeps between `lo` and `hi` bytes per second, the
      reported rate lies between the two; the straddling sample is dropped, so the window starts
      at a sample time and the gaps add up exactly. */
  lemma RateSandwich(m: Meter, start: int, samples: seq<Sample>, lo: real, hi: real)
    requires start != ZERO_TIME && m.overhead > 0.0 && 0.0 <= lo && InOrder(samples, start)
    requires Paced(Window(samples, start, m.grace), Base(samples, start, m.grace), lo, hi)
    ensures var r := AddAll(Started(m, start), samples);
            && (r.elapsed > 0 ==> Between(Mbps(r), lo, hi, m.overhead))
            && (r.elapsed == 0 ==> Mbps(r) == 0.0)
  {
    PacedWindow(m, start, samples, lo, hi);
    WindowSpan(m, start, samples);
    MeterIsWindow(m, start, samples);
    var r := AddAll(Started(m, start), samples);
    if r.elapsed > 0 {
      MbpsBetween(r, lo, hi);
    }
  }

  /** The rate `mbps` lies between the rates of `lo` and `hi` bytes per second. */
  ghost predicate Between(mbps: real, lo: real, hi: real, overhead: real) {
    Rate(lo, 1.0, overhead) <= mbps <= Rate(hi, 1.0, overhead)
  }

  lemma MbpsBetween(m: Meter, lo: real, hi: real)
    requires m.elapsed > 0 && m.overhead > 0.0 && 0.0 <= lo
    requires Carries(m.bytes, m.elapsed, lo, hi)
    ensures Between(Mbps(m), lo, hi, m.overhead)
  {
    RateMonotone(m.bytes as real, lo, Seconds(m.elapsed), m.overhead);
    RateMonotone(m.bytes as real, hi, Seconds(m.elapsed), m.overhead);
    assert lo * Seconds(m.elapsed) >= 0.0;
  }

  /** `Stop` can only lower the reported rate, except where bytes were counted in a window of no
      length at all: then it turns a zero rate into a positive one. */
  lemma StopLowers(m: Meter, now: int)
    requires m.overhead > 0.0 && m.elapsed >= 0
    ensures Mbps(Stopped(m, now)) > Mbps(m)
            <==> m.started != ZERO_TIME && m.graceEnded && m.elapsed == 0 && m.bytes > 0 && now > m.baseTime
  {
    var s := Stopped(m, now);
    if m.bytes > 0 && s.elapsed > 0 {
      var b, longer := m.bytes as real, Seconds(s.elapsed);
      RatePositive(b, longer, m.overhead);
      if m.elapsed > 0 {
        var secs := Seconds(m.elapsed);
        var pace := b / secs;
        Scale(secs, longer, pace);
        RateMonotone(b, pace, longer, m.overhead);
        RateMonotone(b, pace, secs, m.overhead);
      }
    }
  }

  /** It does where the grace period is off and all bytes come at the instant of `Start`. */
  lemma StopRaises(overhead: real, start: int, n: int, later: int)
    requires overhead > 0.0 && start != ZERO_TIME && n > 0 && later > start
    ensures var unused := Meter(overhead, 0, ZERO_TIME, false, ZERO_TIME, 0, 0);
            var m := Added(Started(unused, start), n, start);
            Mbps(m) == 0.0 < Mbps(Stopped(m, later))
  {
    RatePositive(n as real, Seconds(later - start), overhead);
  }

  /** A rate is in bits over time: over `secs` seconds, eight times the bytes times the overhead. */
  lemma RateIsBits(bytes: real, secs: real, overhead: real)
    requires secs != 0.0
    ensures Rate(bytes, secs, overhead) * secs * 1000000.0 == 8.0 * bytes * overhead
  {
    var q := bytes / secs;
    assert q * secs == bytes;
    assert q * 8.0 / 1000000.0 * overhead * secs * 1000000.0 == 8.0 * (q * secs) * overhead;
  }

  lemma RatePositive(bytes: real, secs: real, overhead: real)
    requires bytes > 0.0 && secs > 0.0 && overhead > 0.0
    ensures Rate(bytes, secs, overhead) > 0.0
  {
    var q := bytes / secs;
    assert q * secs == bytes;
    assert q > 0.0;
    assert q * 8.0 / 1000000.0 * overhead > 0.0;
  }

  /** After `Stop` the window is the whole wall-clock span since the grace period ended. */
  lemma StopSpans(m: Meter, start: int, samples: seq<Sample>, now: int)
    requires start != ZERO_TIME && InOrder(samples, start) && Last(samples, start) <= now
    requires m.grace <= 0 || Crosses(samples, start, m.grace)
    ensures var s := Stopped(AddAll(Started(m, start), samples), now);
            s.elapsed == now - Base(samples, start, m.grace)
            && s.bytes == Bytes(Window(samples, start, m.grace))
  {
    var w, base := Window(samples, start, m.grace), Base(samples, start, m.grace);
    MeterIsWindow(m, start, samples);
    WindowSpan(m, start, samples);
    LastBound(samples, start);
  }

  lemma {:induction false} LastBound(samples: seq<Sample>, from: int)
    requires InOrder(samples, from)
    ensures from <= Last(samples, from) && forall s :: s in samples ==> s.at <= Last(samples, from)
  {
    if samples != [] {
      LastBound(samples[1..], samples[0].at);
      assert Last(samples[1..], samples[0].at) == Last(samples, from);
    }
  }
}
