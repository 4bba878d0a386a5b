/**
 Ping and jitter as the CLI and the browser compute them. Both keep the smallest round trip and
 an asymmetric moving average of the changes between successive ones; the CLI starts the average
 at the first change, the browser at zero.
 */
module Jitter {
  import opened Options

  /** The new average: a spike pulls it up quickly, calm lets it decay slowly. */
  function Fold(j: real, inst: real): real {
    if inst > j then 0.3 * j + 0.7 * inst else 0.8 * j + 0.2 * inst
  }

  function Abs(x: real): real {
    if x < 0.0 then -x else x
  }

  /** Milliseconds of a duration in nanoseconds. */
  function Ms(ns: int): real {
    ns as real / 1000000.0
  }

  // ---- the CLI ---------------------------------------------------------------------

  datatype Cli = Cli(min: int, last: int, count: nat, jitter: Option<real>)

  const NoPings := Cli(0, 0, 0, None)

  function Averaged(j: Option<real>, inst: real): Option<real> {
    Some(if j.None? then inst else Fold(j.value, inst))
  }

  function Pinged(p: Cli, rtt: int): Cli {
    Cli(if p.count == 0 || rtt < p.min then rtt else p.min,
        rtt,
        p.count + 1,
        if p.count > 0 then Averaged(p.jitter, Abs(Ms(rtt - p.last))) else p.jitter)
  }

  class JitterEWMA {
    var value: real
    var init: bool

    constructor ()
      ensures Average() == None && value == 0.0
    {
      value, init := 0.0, false;
    }

    function Average(): Option<real>
      reads this
    {
      if init then Some(value) else None
    }

    method Update(inst: real) returns (j: real)
      modifies this
      ensures Average() == Averaged(old(Average()), inst) && j == value
    {
      if !init {
        value := inst;
        init := true;
        return value;
      }
      if inst > value {
        value := 0.3 * value + 0.7 * inst;
      } else {
        value := 0.8 * value + 0.2 * inst;
      }
      return value;
    }
  }

  class PingStats {
    var min: int
    var last: int
    var count: nat
    const jitter: JitterEWMA

    constructor ()
      ensures Value() == NoPings && fresh(jitter)
    {
      min, last, count := 0, 0, 0;
      jitter := new JitterEWMA();
    }

    function Value(): Cli
      reads this, jitter
    {
      Cli(min, last, count, jitter.Average())
    }

    method Add(rtt: int)
      modifies this, jitter
      ensures Value() == Pinged(old(Value()), rtt)
    {
      if count == 0 || rtt < min {
        min := rtt;
      }
      if count > 0 {
        var _ := jitter.Update(Abs(Ms(rtt - last)));
      }
      last := rtt;
      count := count + 1;
    }
  }

  // ---- the browser -------------------------------------------------------------------

  /** `ping` is the smallest round trip so far, none standing for infinity. */
  datatype Browser = Browser(ping: Option<real>, jitter: real, prev: Option<real>)

  const Reset := Browser(None, 0.0, None)

  function Sampled(b: Browser, rtt: real): Browser {
    Browser(Some(if b.ping.None? || rtt < b.ping.value then rtt else b.ping.value),
            if b.prev.Some? then Fold(b.jitter, Abs(rtt - b.prev.value)) else b.jitter,
            Some(rtt))
  }

  // ---- the same round trips in both ----------------------------------------------------

  function CliRun(rtts: seq<int>): Cli {
    if rtts == [] then NoPings else Pinged(CliRun(rtts[..|rtts| - 1]), rtts[|rtts| - 1])
  }

  function BrowserRun(rtts: seq<int>): Browser {
    if rtts == [] then Reset else Sampled(BrowserRun(rtts[..|rtts| - 1]), Ms(rtts[|rtts| - 1]))
  }

  /** What the CLI reports as jitter: zero before the first change. */
  function Reported(p: Cli): real {
    if p.jitter.Some? then p.jitter.value else 0.0
  }

  function Power(b: real, n: nat): real {
    if n == 0 then 1.0 else b * Power(b, n - 1)
  }

  /** The average is monotone and shrinks differences by a fifth, also where one average takes
      the change as a spike and the other as calm. */
  lemma FoldContracts(a: real, b: real, inst: real)
    requires a <= b
    ensures 0.0 <= Fold(b, inst) - Fold(a, inst) <= 0.8 * (b - a)
  {
  }

  lemma FoldStays(j: real, inst: real, hi: real)
    requires 0.0 <= j <= hi && 0.0 <= inst <= hi
    ensures 0.0 <= Fold(j, inst) <= hi
  {
  }

  ghost predicate Within(rtts: seq<int>, lo: int, hi: int) {
    forall i :: 0 <= i < |rtts| ==> lo <= rtts[i] <= hi
  }

  /** Both keep the smallest round trip and the last one. */
  lemma {:induction false} SamePing(rtts: seq<int>)
    requires rtts != []
    ensures CliRun(rtts).count == |rtts| && CliRun(rtts).last == rtts[|rtts| - 1]
    ensures BrowserRun(rtts).prev == Some(Ms(rtts[|rtts| - 1]))
    ensures CliRun(rtts).min in rtts && forall i :: 0 <= i < |rtts| ==> CliRun(rtts).min <= rtts[i]
    ensures BrowserRun(rtts).ping == Some(Ms(CliRun(rtts).min))
  {
    var init := rtts[..|rtts| - 1];
    if init != [] {
      SamePing(init);
      forall i | 0 <= i < |rtts| ensures CliRun(rtts).min <= rtts[i] {
        assert i < |init| ==> rtts[i] == init[i];
      }
    }
  }

  lemma MsDifference(a: int, b: int)
    ensures Ms(a - b) == Ms(a) - Ms(b)
    ensures a <= b ==> Ms(a) <= Ms(b)
  {
  }

  lemma LastChange(rtts: seq<int>)
    requires |rtts| >= 2
    ensures var n := |rtts|; var inst := Abs(Ms(rtts[n - 1] - rtts[n - 2]));
            && CliRun(rtts).jitter == Averaged(CliRun(rtts[..n - 1]).jitter, inst)
            && BrowserRun(rtts).jitter == Fold(BrowserRun(rtts[..n - 1]).jitter, inst)
  {
    var n := |rtts|;
    var init := rtts[..n - 1];
    SamePing(init);
    var c, b := CliRun(init), BrowserRun(init);
    assert c.last == rtts[n - 2] && b.prev == Some(Ms(rtts[n - 2]));
    MsDifference(rtts[n - 1], rtts[n - 2]);
    assert CliRun(rtts) == Pinged(c, rtts[n - 1]);
    assert BrowserRun(rtts) == Sampled(b, Ms(rtts[n - 1]));
  }

  lemma FirstChange(rtts: seq<int>)
    requires |rtts| == 2
    ensures var d := Abs(Ms(rtts[1] - rtts[0])); CliRun(rtts).jitter == Some(d) && BrowserRun(rtts).jitter == 0.7 * d
  {
    LastChange(rtts);
    var init := rtts[..1];
    assert init[..0] == [];
    assert CliRun(init) == Pinged(NoPings, rtts[0]);
    assert BrowserRun(init) == Sampled(Reset, Ms(rtts[0]));
  }

  /** What the late start still costs `n` changes after the first. */
  function Gap(d: real, n: nat): real {
    0.3 * d * Power(0.8, n)
  }

  lemma GapShrinks(d: real, n: nat)
    ensures Gap(d, n + 1) == 0.8 * Gap(d, n)
  {
    var p := Power(0.8, n);
    assert 0.3 * d * (0.8 * p) == 0.8 * (0.3 * d * p);
  }

  /** Starting from zero instead of the first change `d` costs at most `0.3 d`, and every further
      round trip takes a fifth of what is left: the browser's estimate is never above the CLI's. */
  lemma {:induction false} JitterConverges(rtts: seq<int>)
    requires |rtts| >= 2
    ensures CliRun(rtts).jitter.Some?
    ensures 0.0 <= Reported(CliRun(rtts)) - BrowserRun(rtts).jitter <= Gap(Abs(Ms(rtts[1] - rtts[0])), |rtts| - 2)
    decreases |rtts|
  {
    var n := |rtts|;
    if n == 2 {
      FirstChange(rtts);
    } else {
      var init := rtts[..n - 1];
      JitterConverges(init);
      LastChange(rtts);
      FoldContracts(BrowserRun(init).jitter, Reported(CliRun(init)), Abs(Ms(rtts[n - 1] - rtts[n - 2])));
      GapShrinks(Abs(Ms(rtts[1] - rtts[0])), n - 3);
    }
  }

  /** Neither estimate leaves the range of the round trips. */
  lemma {:induction false} JitterInRange(rtts: seq<int>, lo: int, hi: int)
    requires lo <= hi && Within(rtts, lo, hi)
    ensures 0.0 <= Reported(CliRun(rtts)) <= Ms(hi - lo)
    ensures 0.0 <= BrowserRun(rtts).jitter <= Ms(hi - lo)
    decreases |rtts|
  {
    var n := |rtts|;
    if n == 1 {
      assert rtts[..0] == [];
    } else if n >= 2 {
      var init, inst := rtts[..n - 1], Abs(Ms(rtts[n - 1] - rtts[n - 2]));
      JitterInRange(init, lo, hi);
      LastChange(rtts);
      MsDifference(rtts[n - 1], rtts[n - 2]);
      assert 0.0 <= inst <= Ms(hi - lo);
      FoldStays(BrowserRun(init).jitter, inst, Ms(hi - lo));
      if CliRun(init).jitter.Some? { FoldStays(CliRun(init).jitter.value, inst, Ms(hi - lo)); }
    }
  }

  // ---- exactly how fast ------------------------------------------------------------------

  /** A change above the average leaves 0.3 of the distance to it, one below leaves 0.8. */
  lemma FoldDistance(j: real, inst: real)
    ensures inst > j ==> inst - Fold(j, inst) == 0.3 * (inst - j)
    ensures inst <= j ==> Fold(j, inst) - inst == 0.8 * (j - inst)
  {
  }

  /** That is what each round trip does to both estimates; the first change is the CLI's start. */
  lemma LastDistance(rtts: seq<int>)
    requires |rtts| >= 2
    ensures var n := |rtts|; var inst := Abs(Ms(rtts[n - 1] - rtts[n - 2]));
            var before, after := BrowserRun(rtts[..n - 1]).jitter, BrowserRun(rtts).jitter;
            if inst > before then inst - after == 0.3 * (inst - before) else after - inst == 0.8 * (before - inst)
    ensures var n := |rtts|; var inst := Abs(Ms(rtts[n - 1] - rtts[n - 2]));
            var before, after := Reported(CliRun(rtts[..n - 1])), Reported(CliRun(rtts));
            if n == 2 then after == inst
            else if inst > before then inst - after == 0.3 * (inst - before) else after - inst == 0.8 * (before - inst)
  {
    var n := |rtts|;
    LastChange(rtts);
    FoldDistance(BrowserRun(rtts[..n - 1]).jitter, Abs(Ms(rtts[n - 1] - rtts[n - 2])));
    if n > 2 {
      JitterConverges(rtts[..n - 1]);
      FoldDistance(Reported(CliRun(rtts[..n - 1])), Abs(Ms(rtts[n - 1] - rtts[n - 2])));
    } else {
      FirstChange(rtts);
    }
  }

  function Repeated(rtt: int, n: nat): seq<int> {
    if n == 0 then [] else Repeated(rtt, n - 1) + [rtt]
  }

  lemma LastOf(a: int, b: int, n: nat)
    ensures var rtts := [a, b] + Repeated(b, n); |rtts| == n + 2 && rtts[n + 1] == b
    decreases n
  {
    if n > 0 { LastOf(a, b, n - 1); }
  }

  lemma CalmStep(j: real)
    requires j >= 0.0
    ensures Fold(j, 0.0) == 0.8 * j
  {
  }

  /** `x` after `n` round trips without change. */
  function Decayed(x: real, n: nat): real {
    if n == 0 then x else 0.8 * Decayed(x, n - 1)
  }

  lemma {:induction false} DecayedIsPower(x: real, n: nat)
    ensures Decayed(x, n) == x * Power(0.8, n)
  {
    if n > 0 {
      DecayedIsPower(x, n - 1);
      var p := Power(0.8, n - 1);
      assert 0.8 * (x * p) == x * (0.8 * p);
    }
  }

  lemma {:induction false} DecayedNonnegative(x: real, n: nat)
    requires x >= 0.0
    ensures Decayed(x, n) >= 0.0
  {
    if n > 0 { DecayedNonnegative(x, n - 1); }
  }

  lemma NoChange(rtts: seq<int>, x: real, y: real)
    requires |rtts| >= 3 && rtts[|rtts| - 1] == rtts[|rtts| - 2] && x >= 0.0 && y >= 0.0
    requires CliRun(rtts[..|rtts| - 1]).jitter == Some(x) && BrowserRun(rtts[..|rtts| - 1]).jitter == y
    ensures CliRun(rtts).jitter == Some(0.8 * x) && BrowserRun(rtts).jitter == 0.8 * y
  {
    LastChange(rtts);
    assert Abs(Ms(rtts[|rtts| - 1] - rtts[|rtts| - 2])) == 0.0;
    CalmStep(x);
    CalmStep(y);
  }

  function Calm(a: int, b: int, n: nat): seq<int> {
    [a, b] + Repeated(b, n)
  }

  lemma CalmPrefix(a: int, b: int, n: nat)
    requires n > 0
    ensures var rtts := Calm(a, b, n);
            && |rtts| == n + 2 && rtts[..|rtts| - 1] == Calm(a, b, n - 1)
            && rtts[|rtts| - 1] == b && rtts[|rtts| - 2] == b
  {
    LastOf(a, b, n);
    LastOf(a, b, n - 1);
    assert Calm(a, b, n) == Calm(a, b, n - 1) + [b];
  }

  lemma CalmBegins(a: int, b: int)
    ensures CliRun(Calm(a, b, 0)).jitter == Some(Abs(Ms(b - a)))
    ensures BrowserRun(Calm(a, b, 0)).jitter == 0.7 * Abs(Ms(b - a))
  {
    assert Calm(a, b, 0) == [a, b];
    FirstChange([a, b]);
  }

  /** Calm decays: after a first change `d` and `n` more round trips without change, the CLI is at
      exactly `d * 0.8^n` and the browser at `0.7 d * 0.8^n`. */
  lemma {:induction false} CalmDecays(a: int, b: int, n: nat)
    ensures var d := Abs(Ms(b - a));
            && CliRun(Calm(a, b, n)).jitter == Some(Decayed(d, n))
            && BrowserRun(Calm(a, b, n)).jitter == Decayed(0.7 * d, n)
  {
    var d := Abs(Ms(b - a));
    if n == 0 {
      CalmBegins(a, b);
    } else {
      CalmPrefix(a, b, n);
      CalmDecays(a, b, n - 1);
      DecayedNonnegative(d, n - 1);
      DecayedNonnegative(0.7 * d, n - 1);
      NoChange(Calm(a, b, n), Decayed(d, n - 1), Decayed(0.7 * d, n - 1));
    }
  }
}
