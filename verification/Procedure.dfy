/**
 The two throughput procedures side by side: the CLI resets its counters at the sample that
 crosses the end of the grace period, the browser keeps counting and subtracts a snapshot.
 */
module Procedure {
  import opened Clock
  import opened Measure
  import T = Transfers

  /** The bytes an event adds to the browser's count. */
  function Gain(t: T.Transfer, ev: T.Event): nat {
    if ev.Progress? && T.Receives(t, ev.xhr) && ev.loaded > t.all[ev.xhr].last then
      ev.loaded - t.all[ev.xhr].last
    else 0
  }

  function Delivered(t: T.Transfer, e: T.Timed): seq<Sample> {
    if Gain(t, e.ev) > 0 then [Sample(Gain(t, e.ev), e.at)] else []
  }

  /** What a run of the browser's transfer delivers, as the samples the CLI would feed its meter. */
  function Gains(t: T.Transfer, events: seq<T.Timed>): seq<Sample>
    decreases |events|
  {
    if events == [] then []
    else Delivered(t, events[0]) + Gains(T.Handle(t, events[0].ev, events[0].at), events[1..])
  }

  ghost predicate NoGrace(events: seq<T.Timed>) {
    forall i :: 0 <= i < |events| ==> !events[i].ev.Grace?
  }

  lemma DeliveredBytes(t: T.Transfer, e: T.Timed)
    ensures Bytes(Delivered(t, e)) == Gain(t, e.ev)
    ensures T.Handle(t, e.ev, e.at).loaded == t.loaded + Gain(t, e.ev)
  {
    if Gain(t, e.ev) > 0 {
      assert Delivered(t, e)[1..] == [];
    }
  }

  lemma {:induction false} GainsCounted(t: T.Transfer, events: seq<T.Timed>)
    ensures T.Play(t, events).loaded == t.loaded + Bytes(Gains(t, events))
    ensures 0 <= Bytes(Gains(t, events))
    decreases |events|
  {
    if events != [] {
      var next := T.Handle(t, events[0].ev, events[0].at);
      DeliveredBytes(t, events[0]);
      BytesAppend(Delivered(t, events[0]), Gains(next, events[1..]));
      GainsCounted(next, events[1..]);
    }
  }

  ghost predicate SameSnapshot(t: T.Transfer, u: T.Transfer) {
    && u.t0 == t.t0
    && u.graced == t.graced && u.graceLoaded == t.graceLoaded
    && u.graceTime == t.graceTime && u.graceTimer == t.graceTimer
  }

  lemma HandleKeeps(t: T.Transfer, ev: T.Event, now: int)
    requires !ev.Grace? || !t.graceTimer
    ensures SameSnapshot(t, T.Handle(t, ev, now))
  {
  }

  /** Only the grace timer touches the snapshot, and it fires once. */
  lemma {:induction false} SnapshotKept(t: T.Transfer, events: seq<T.Timed>)
    requires NoGrace(events) || !t.graceTimer
    ensures SameSnapshot(t, T.Play(t, events))
    decreases |events|
  {
    if events != [] {
      HandleKeeps(t, events[0].ev, events[0].at);
      SnapshotKept(T.Handle(t, events[0].ev, events[0].at), events[1..]);
    }
  }

  /** The first event that fires the grace timer. */
  function FirstGrace(events: seq<T.Timed>): (g: nat)
    ensures g <= |events| && NoGrace(events[..g]) && (g < |events| ==> events[g].ev.Grace?)
  {
    if events == [] || events[0].ev.Grace? then 0
    else
      assert forall i :: 1 <= i < |events| ==> events[i] == events[1..][i - 1];
      1 + FirstGrace(events[1..])
  }

  /** What is delivered after the snapshot, or from the start if none is taken. */
  function AfterSnapshot(t: T.Transfer, events: seq<T.Timed>): seq<Sample> {
    var g := FirstGrace(events);
    if g < |events| then Gains(T.Play(t, events[..g + 1]), events[g + 1..]) else Gains(t, events)
  }

  function SnapshotTime(t: T.Transfer, events: seq<T.Timed>): int {
    var g := FirstGrace(events);
    if g < |events| then events[g].at else t.t0
  }

  lemma {:induction false} PlayAppend(t: T.Transfer, a: seq<T.Timed>, b: seq<T.Timed>)
    ensures T.Play(t, a + b) == T.Play(T.Play(t, a), b)
    decreases |a|
  {
    if a == [] {
      assert a + b == b;
    } else {
      assert (a + b)[1..] == a[1..] + b;
      PlayAppend(T.Handle(t, a[0].ev, a[0].at), a[1..], b);
    }
  }

  lemma SnapshotTaken(t: T.Transfer, events: seq<T.Timed>, g: nat)
    requires g < |events| && t.graceTimer && NoGrace(events[..g]) && events[g].ev.Grace?
    ensures var snap := T.Play(t, events[..g + 1]);
            && snap.graced && !snap.graceTimer && snap.graceTime == events[g].at && snap.graceLoaded == snap.loaded
            && T.Play(t, events) == T.Play(snap, events[g + 1..])
  {
    SnapshotKept(t, events[..g]);
    PlayAppend(t, events[..g], [events[g]]);
    assert events[..g + 1] == events[..g] + [events[g]] && [events[g]][1..] == [];
    PlayAppend(t, events[..g + 1], events[g + 1..]);
    assert events == events[..g + 1] + events[g + 1..];
  }

  lemma FigureUnsnapped(t: T.Transfer, events: seq<T.Timed>, now: int, overhead: real)
    requires NoGrace(events) && t.loaded == 0 && !t.graced
    ensures var f := T.Compute(T.Play(t, events), now, overhead);
            f.bytes == Bytes(Gains(t, events)) && f.ns == now - t.t0
  {
    GainsCounted(t, events);
    SnapshotKept(t, events);
  }

  lemma FigureSnapped(snap: T.Transfer, events: seq<T.Timed>, now: int, overhead: real)
    requires snap.graced && !snap.graceTimer && snap.graceLoaded == snap.loaded
    ensures var f := T.Compute(T.Play(snap, events), now, overhead);
            f.bytes == Bytes(Gains(snap, events)) && f.ns == now - snap.graceTime
  {
    GainsCounted(snap, events);
    SnapshotKept(snap, events);
  }

  /** The bytes of a phase are those delivered after its snapshot, over the time since then. */
  lemma FigureIsDelivered(t: T.Transfer, events: seq<T.Timed>, now: int, overhead: real)
    requires t.loaded == 0 && !t.graced && t.graceTimer
    ensures var f := T.Compute(T.Play(t, events), now, overhead);
            f.bytes == Bytes(AfterSnapshot(t, events)) && f.ns == now - SnapshotTime(t, events)
  {
    var g := FirstGrace(events);
    if g == |events| {
      assert events[..g] == events;
      FigureUnsnapped(t, events, now, overhead);
    } else {
      SnapshotTaken(t, events, g);
      FigureSnapped(T.Play(t, events[..g + 1]), events[g + 1..], now, overhead);
    }
  }

  lemma RatesAgree(bytes: int, secs: real, overhead: real)
    requires secs > 0.0
    ensures bytes as real * 8.0 / secs / 1000000.0 * overhead == Rate(bytes as real, secs, overhead)
  {
    var b := bytes as real;
    var q := b / secs;
    assert q * secs == b;
    assert (q * 8.0) * secs == b * 8.0;
    assert (b * 8.0) / secs == q * 8.0;
  }

  /** What the CLI's meter holds at `now`, fed with `samples` since `start`. */
  function Measured(m: Meter, start: int, samples: seq<Sample>, now: int): Meter {
    Stopped(AddAll(Started(m, start), samples), now)
  }

  /** The browser's figure and the CLI's meter show the same bytes, duration and rate. */
  ghost predicate Same(f: T.Figure, r: Meter) {
    f.bytes == r.bytes && f.ns == r.elapsed && f.Mbps() == Mbps(r)
  }

  lemma {:induction false} CrossingAppend(a: seq<Sample>, b: seq<Sample>, start: int, grace: int)
    requires Crossing(a, start, grace) < |a|
    ensures Crossing(a + b, start, grace) == Crossing(a, start, grace)
  {
    if a[0].at - start < grace {
      assert (a + b)[1..] == a[1..] + b;
      CrossingAppend(a[1..], b, start, grace);
    }
  }

  /** On the same deliveries, with the browser's snapshot taken right after the CLI's crossing
      sample and at its time, both show the same bytes, rate and duration at every later instant. */
  lemma ResetIsBaseline(m: Meter, start: int, t: T.Transfer, before: seq<T.Timed>, after: seq<T.Timed>, now: int)
    requires start != ZERO_TIME && m.grace > 0
    requires NoGrace(before) && !t.graced && t.graceTimer
    requires var sent := Gains(t, before); sent != [] && Crossing(sent, start, m.grace) == |sent| - 1
    requires var sent := Gains(t, before);
             var snap := T.Handle(T.Play(t, before), T.Grace, sent[|sent| - 1].at);
             var all := sent + Gains(snap, after);
             InOrder(all, start) && Last(all, start) <= now
    ensures var sent := Gains(t, before);
            var snap := T.Handle(T.Play(t, before), T.Grace, sent[|sent| - 1].at);
            Same(T.Compute(T.Play(snap, after), now, m.overhead), Measured(m, start, sent + Gains(snap, after), now))
  {
    var sent := Gains(t, before);
    var base := sent[|sent| - 1].at;
    var snap := T.Handle(T.Play(t, before), T.Grace, base);
    var rest := Gains(snap, after);
    SnapshotKept(t, before);
    FigureSnapped(snap, after, now, m.overhead);
    GainsCounted(snap, after);
    CrossingAppend(sent, rest, start, m.grace);
    assert Window(sent + rest, start, m.grace) == rest && Base(sent + rest, start, m.grace) == base;
    StopSpans(m, start, sent + rest, now);
    MeterIsWindow(m, start, sent + rest);
    FiguresAgree(T.Compute(T.Play(snap, after), now, m.overhead), Measured(m, start, sent + rest, now));
  }

  lemma FiguresAgree(f: T.Figure, r: Meter)
    requires r.overhead == f.overhead && 0 <= r.bytes == f.bytes && r.elapsed == f.ns
    ensures Same(f, r)
  {
    if r.elapsed > 0 {
      RatesAgree(r.bytes, Seconds(r.elapsed), r.overhead);
    }
  }
}
