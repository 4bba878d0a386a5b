/**
 One transfer phase of the browser worker: `streams` slots, each kept busy by one XHR after
 another until the phase stops, and the byte count they share.

 The functions on `Transfer` say what each callback does to the shared state; the class
 `Engine` is that state, updated in place. Times are nanoseconds of the worker's clock.
 */
module Transfers {
  import opened Clock

  /** One request: `last` is what its last progress event reported; it is open until it has
      loaded, failed or been aborted, and gets no events after that. */
  datatype Xhr = Xhr(slot: nat, last: int, open: bool)

  datatype Transfer = Transfer(
    running: bool,
    loaded: int,
    graced: bool, graceLoaded: int, graceTime: int,
    t0: int,
    graceTimer: bool, endTimer: bool, ticker: bool,
    all: seq<Xhr>,        // every request of the phase, oldest first
    xhrs: seq<nat>,       // the latest request of each slot
    retries: seq<nat>     // the retry timers pending for each slot
  )

  datatype Event =
    | Progress(xhr: nat, loaded: int)
    | Load(xhr: nat)
    | Fail(xhr: nat)
    | Retry(slot: nat)
    | Grace
    | Tick

  function Spawn(t: Transfer, i: nat): Transfer
    requires i < |t.xhrs|
  {
    t.(all := t.all + [Xhr(i, 0, true)], xhrs := t.xhrs[i := |t.all|])
  }

  function SpawnAll(t: Transfer, from: nat): Transfer
    requires from <= |t.xhrs|
    decreases |t.xhrs| - from
  {
    if from == |t.xhrs| then t else SpawnAll(Spawn(t, from), from + 1)
  }

  function Begun(streams: nat, now: int): Transfer {
    SpawnAll(Transfer(true, 0, false, 0, 0, now, true, true, true, [],
                      seq(streams, i => 0), seq(streams, i => 0)), 0)
  }

  predicate Receives(t: Transfer, x: nat) {
    x < |t.all| && t.all[x].open && t.all[x].slot < |t.xhrs| && t.all[x].slot < |t.retries|
  }

  function Close(t: Transfer, x: nat): Transfer
    requires x < |t.all|
  {
    t.(all := t.all[x := t.all[x].(open := false)])
  }

  function Handle(t: Transfer, ev: Event, now: int): Transfer {
    match ev
    case Progress(x, loaded) =>
      if Receives(t, x) then
        var d := loaded - t.all[x].last;
        t.(all := t.all[x := t.all[x].(last := loaded)], loaded := if d > 0 then t.loaded + d else t.loaded)
      else t
    case Load(x) =>
      if Receives(t, x) then
        if t.running then Spawn(Close(t, x), t.all[x].slot) else Close(t, x)
      else t
    case Fail(x) =>
      if Receives(t, x) then
        var i := t.all[x].slot;
        if t.running then Close(t, x).(retries := t.retries[i := t.retries[i] + 1]) else Close(t, x)
      else t
    case Retry(i) =>
      if i < |t.retries| && i < |t.xhrs| && t.retries[i] > 0 then
        var u := t.(retries := t.retries[i := t.retries[i] - 1]);
        if t.running then Spawn(u, i) else u
      else t
    case Grace =>
      if t.graceTimer then t.(graced := true, graceLoaded := t.loaded, graceTime := now, graceTimer := false) else t
    case Tick => t
  }

  function Aborted(all: seq<Xhr>, ids: seq<nat>): seq<Xhr> {
    seq(|all|, x requires 0 <= x < |all| => if x in ids then all[x].(open := false) else all[x])
  }

  function Stopped(t: Transfer): Transfer {
    t.(running := false, graceTimer := false, endTimer := false, ticker := false, all := Aborted(t.all, t.xhrs))
  }

  /** Megabits per second, with the overhead compensated for. */
  function Speed(bytes: int, ns: int, overhead: real): real {
    if ns > 0 then bytes as real * 8.0 / Seconds(ns) / 1000000.0 * overhead else 0.0
  }

  /** It is bits over time: in `ns` nanoseconds at this rate, eight times the bytes times the overhead. */
  lemma SpeedIsBits(bytes: int, ns: int, overhead: real)
    ensures ns > 0 ==> Speed(bytes, ns, overhead) * Seconds(ns) * 1000000.0 == 8.0 * bytes as real * overhead
    ensures ns <= 0 ==> Speed(bytes, ns, overhead) == 0.0
  {
    if ns > 0 {
      var secs := Seconds(ns);
      var q := bytes as real * 8.0 / secs;
      assert q * secs == bytes as real * 8.0;
      assert q / 1000000.0 * overhead * secs * 1000000.0 == q * secs * overhead;
    }
  }

  /** Bytes and time, and the rate they make. */
  datatype Figure = Figure(bytes: int, ns: int, overhead: real) {
    function Mbps(): real {
      Speed(bytes, ns, overhead)
    }
  }

  /** The figures at `now`: since the snapshot of the grace timer, or since the start. */
  function Compute(t: Transfer, now: int, overhead: real): Figure {
    var start := if t.graced then t.graceTime else t.t0;
    Figure(t.loaded - if t.graced then t.graceLoaded else 0, now - start, overhead)
  }

  // ---- the shared state --------------------------------------------------------------

  class Engine {
    var running: bool
    var loaded: int
    var graced: bool
    var graceLoaded: int
    var graceTime: int
    const t0: int
    var graceTimer: bool
    var endTimer: bool
    var ticker: bool
    var all: seq<Xhr>
    var xhrs: seq<nat>
    var retries: seq<nat>

    function Value(): Transfer
      reads this
    {
      Transfer(running, loaded, graced, graceLoaded, graceTime, t0, graceTimer, endTimer, ticker, all, xhrs, retries)
    }

    constructor (streams: nat, now: int)
      ensures Value() == Begun(streams, now)
    {
      running, loaded, t0 := true, 0, now;
      graced, graceLoaded, graceTime := false, 0, 0;
      graceTimer, endTimer, ticker := true, true, true;
      all, xhrs, retries := [], seq(streams, i => 0), seq(streams, i => 0);
      new;
      for i := 0 to streams
        invariant |xhrs| == streams && SpawnAll(Value(), i) == Begun(streams, now)
      {
        SpawnXhr(i);
      }
    }

    method SpawnXhr(i: nat)
      requires i < |xhrs|
      modifies this`all, this`xhrs
      ensures Value() == Spawn(old(Value()), i)
    {
      var x := |all|;
      all := all + [Xhr(i, 0, true)];
      xhrs := xhrs[i := x];
    }

    method OnProgress(x: nat, reported: int)
      requires Receives(Value(), x)
      modifies this`all, this`loaded
      ensures Value() == Handle(old(Value()), Progress(x, reported), 0)
    {
      var d := reported - all[x].last;
      all := all[x := all[x].(last := reported)];
      if d > 0 {
        loaded := loaded + d;
      }
    }

    method OnLoad(x: nat)
      requires Receives(Value(), x)
      modifies this`all, this`xhrs
      ensures Value() == Handle(old(Value()), Load(x), 0)
    {
      all := all[x := all[x].(open := false)];
      if running {
        SpawnXhr(all[x].slot);
      }
    }

    method OnError(x: nat)
      requires Receives(Value(), x)
      modifies this`all, this`retries
      ensures Value() == Handle(old(Value()), Fail(x), 0)
    {
      all := all[x := all[x].(open := false)];
      if running {
        var i := all[x].slot;
        retries := retries[i := retries[i] + 1];
      }
    }

    method OnRetry(i: nat)
      requires i < |retries| && i < |xhrs| && retries[i] > 0
      modifies this`all, this`xhrs, this`retries
      ensures Value() == Handle(old(Value()), Retry(i), 0)
    {
      retries := retries[i := retries[i] - 1];
      if running {
        SpawnXhr(i);
      }
    }

    method OnGrace(now: int)
      requires graceTimer
      modifies this`graced, this`graceLoaded, this`graceTime, this`graceTimer
      ensures Value() == Handle(old(Value()), Grace, now)
    {
      graceTimer := false;
      graced := true;
      graceLoaded := loaded;
      graceTime := now;
    }

    /** Any event of the transfer: its callback if it is one that can come now, nothing if not. */
    method Receive(ev: Event, now: int)
      modifies this
      ensures Value() == Handle(old(Value()), ev, now)
    {
      match ev
      case Progress(x, reported) => if Receives(Value(), x) { OnProgress(x, reported); }
      case Load(x) => if Receives(Value(), x) { OnLoad(x); }
      case Fail(x) => if Receives(Value(), x) { OnError(x); }
      case Retry(i) => if i < |retries| && i < |xhrs| && retries[i] > 0 { OnRetry(i); }
      case Grace => if graceTimer { OnGrace(now); }
      case Tick =>
    }

    method Stop()
      modifies this
      ensures Value() == Stopped(old(Value()))
    {
      running := false;
      ticker := false;
      graceTimer := false;
      endTimer := false;
      AbortAll();
    }

    method AbortAll()
      modifies this`all
      ensures all == Aborted(old(all), xhrs)
    {
      ghost var before := all;
      for i := 0 to |xhrs|
        invariant all == Aborted(before, xhrs[..i])
      {
        if xhrs[i] < |all| {
          all := all[xhrs[i] := all[xhrs[i]].(open := false)];
        }
      }
      assert xhrs[..|xhrs|] == xhrs;
    }
  }

  // ---- slots ---------------------------------------------------------------------------

  /** The request of a slot that is still open, if any, is its latest one. */
  ghost predicate Latest(t: Transfer, x: nat)
    requires x < |t.all|
  {
    t.all[x].slot < |t.xhrs| && (t.all[x].open ==> t.xhrs[t.all[x].slot] == x)
  }

  /** A slot of a running transfer is kept busy by exactly one thing: its latest request, or one
      pending retry after that request failed. */
  ghost predicate Busy(t: Transfer, i: nat)
    requires i < |t.xhrs| == |t.retries|
  {
    && t.xhrs[i] < |t.all| && t.all[t.xhrs[i]].slot == i
    && t.retries[i] == if t.all[t.xhrs[i]].open then 0 else 1
  }

  ghost predicate SlotsOk(t: Transfer) {
    && |t.xhrs| == |t.retries|
    && (forall x :: 0 <= x < |t.all| ==> Latest(t, x))
    && (t.running ==> forall i :: 0 <= i < |t.xhrs| ==> Busy(t, i))
    && (!t.running ==> forall x :: 0 <= x < |t.all| ==> !t.all[x].open)
  }

  lemma SpawnOk(t: Transfer, i: nat)
    requires |t.xhrs| == |t.retries| && i < |t.xhrs| && t.running && t.retries[i] == 0
    requires forall x :: 0 <= x < |t.all| ==> Latest(t, x) && (t.all[x].slot == i ==> !t.all[x].open)
    requires forall j :: 0 <= j < |t.xhrs| && j != i ==> Busy(t, j)
    ensures SlotsOk(Spawn(t, i))
  {
    var u := Spawn(t, i);
    forall x | 0 <= x < |u.all| ensures Latest(u, x) { assert x < |t.all| ==> Latest(t, x); }
    forall j | 0 <= j < |u.xhrs| ensures Busy(u, j) { assert j != i ==> Busy(t, j); }
  }

  lemma {:induction false} SpawnAllOk(t: Transfer, from: nat)
    requires |t.xhrs| == |t.retries| && from <= |t.xhrs| && t.running
    requires forall x :: 0 <= x < |t.all| ==> Latest(t, x) && t.all[x].slot < from
    requires forall j :: 0 <= j < from ==> Busy(t, j)
    requires forall j :: from <= j < |t.xhrs| ==> t.retries[j] == 0
    ensures SlotsOk(SpawnAll(t, from)) && SpawnAll(t, from).loaded == t.loaded
    ensures t.all <= SpawnAll(t, from).all
    ensures forall x :: |t.all| <= x < |SpawnAll(t, from).all| ==> SpawnAll(t, from).all[x].last == 0
    decreases |t.xhrs| - from
  {
    if from < |t.xhrs| {
      var u := Spawn(t, from);
      forall x | 0 <= x < |u.all| ensures Latest(u, x) && u.all[x].slot < from + 1 {
        assert x < |t.all| ==> Latest(t, x);
      }
      forall j | 0 <= j < from + 1 ensures Busy(u, j) { assert j != from ==> Busy(t, j); }
      SpawnAllOk(u, from + 1);
    }
  }

  lemma BegunOk(streams: nat, now: int)
    ensures SlotsOk(Begun(streams, now)) && Begun(streams, now).loaded == 0
    ensures forall x :: 0 <= x < |Begun(streams, now).all| ==> Begun(streams, now).all[x].last == 0
  {
    SpawnAllOk(Transfer(true, 0, false, 0, 0, now, true, true, true, [],
                        seq(streams, i => 0), seq(streams, i => 0)), 0);
  }

  lemma {:induction false} SpawnAllRunning(t: Transfer, from: nat)
    requires from <= |t.xhrs|
    ensures var u := SpawnAll(t, from); u == t.(all := u.all, xhrs := u.xhrs)
    decreases |t.xhrs| - from
  {
    if from < |t.xhrs| { SpawnAllRunning(Spawn(t, from), from + 1); }
  }

  lemma BegunRunning(streams: nat, now: int)
    ensures var t := Begun(streams, now);
            && t.running && t.loaded == 0 && !t.graced && t.t0 == now
            && t.graceTimer && t.endTimer && t.ticker
  {
    SpawnAllRunning(Transfer(true, 0, false, 0, 0, now, true, true, true, [],
                             seq(streams, i => 0), seq(streams, i => 0)), 0);
  }

  lemma {:induction false} SpawnAllSlots(t: Transfer, from: nat)
    requires from <= |t.xhrs| && |t.all| == from
    requires forall x :: 0 <= x < from ==> t.all[x] == Xhr(x, 0, true) && t.xhrs[x] == x
    ensures var u := SpawnAll(t, from);
            && |u.xhrs| == |u.all| == |t.xhrs| && u.retries == t.retries
            && forall x :: 0 <= x < |u.all| ==> u.all[x] == Xhr(x, 0, true) && u.xhrs[x] == x
    decreases |t.xhrs| - from
  {
    if from < |t.xhrs| { SpawnAllSlots(Spawn(t, from), from + 1); }
  }

  /** A phase begins with exactly `streams` requests, all open, one for each slot, and no retry. */
  lemma BegunSlots(streams: nat, now: int)
    ensures var t := Begun(streams, now);
            && |t.xhrs| == |t.retries| == |t.all| == streams
            && (forall x :: 0 <= x < streams ==> t.all[x] == Xhr(x, 0, true) && t.xhrs[x] == x && t.retries[x] == 0)
  {
    SpawnAllSlots(Transfer(true, 0, false, 0, 0, now, true, true, true, [],
                           seq(streams, i => 0), seq(streams, i => 0)), 0);
  }

  lemma CloseOk(t: Transfer, x: nat)
    requires SlotsOk(t) && Receives(t, x)
    ensures var u := Close(t, x);
            && (forall y :: 0 <= y < |u.all| ==> Latest(u, y) && (u.all[y].slot == t.all[x].slot ==> !u.all[y].open))
            && (t.running ==> t.retries[t.all[x].slot] == 0)
            && (t.running ==> forall j :: 0 <= j < |u.xhrs| && j != t.all[x].slot ==> Busy(u, j))
  {
    var u := Close(t, x);
    assert Latest(t, x);
    forall y | 0 <= y < |u.all| ensures Latest(u, y) { assert Latest(t, y); }
    if t.running {
      assert Busy(t, t.all[x].slot);
      forall j | 0 <= j < |u.xhrs| && j != t.all[x].slot ensures Busy(u, j) { assert Busy(t, j); }
    }
  }

  /** A change that opens, closes and spawns nothing and starts no retry. */
  lemma StillOk(t: Transfer, u: Transfer)
    requires SlotsOk(t) && u.running == t.running && u.xhrs == t.xhrs && u.retries == t.retries && |u.all| == |t.all|
    requires forall x :: 0 <= x < |t.all| ==> u.all[x].slot == t.all[x].slot && u.all[x].open == t.all[x].open
    ensures SlotsOk(u)
  {
    forall x | 0 <= x < |u.all| ensures Latest(u, x) { assert Latest(t, x); }
    if t.running {
      forall j | 0 <= j < |u.xhrs| ensures Busy(u, j) { assert Busy(t, j); }
    }
  }

  lemma FailOk(t: Transfer, x: nat, now: int)
    requires SlotsOk(t) && Receives(t, x)
    ensures SlotsOk(Handle(t, Fail(x), now))
  {
    var u, v := Handle(t, Fail(x), now), Close(t, x);
    CloseOk(t, x);
    assert Latest(t, x);
    forall y | 0 <= y < |u.all| ensures Latest(u, y) { assert Latest(v, y); }
    if t.running {
      forall j | 0 <= j < |u.xhrs| ensures Busy(u, j) {
        assert Busy(t, j) && (j != t.all[x].slot ==> Busy(v, j));
      }
    }
  }

  lemma RetryOk(t: Transfer, i: nat, now: int)
    requires SlotsOk(t)
    ensures SlotsOk(Handle(t, Retry(i), now))
  {
    if i < |t.retries| && t.retries[i] > 0 {
      var v := t.(retries := t.retries[i := t.retries[i] - 1]);
      forall y | 0 <= y < |t.all| ensures Latest(v, y) { assert Latest(t, y); }
      if t.running {
        assert Busy(t, i);
        forall y | 0 <= y < |t.all| && t.all[y].slot == i ensures !t.all[y].open { assert Latest(t, y); }
        forall j | 0 <= j < |t.xhrs| && j != i ensures Busy(v, j) { assert Busy(t, j); }
        SpawnOk(v, i);
      }
    }
  }

  /** Every callback keeps each slot of a running transfer busy with exactly one thing. */
  lemma HandleOk(t: Transfer, ev: Event, now: int)
    requires SlotsOk(t)
    ensures SlotsOk(Handle(t, ev, now))
  {
    match ev
    case Load(x) =>
      if Receives(t, x) {
        CloseOk(t, x);
        if t.running { SpawnOk(Close(t, x), t.all[x].slot); }
      }
    case Fail(x) => if Receives(t, x) { FailOk(t, x, now); }
    case Retry(i) => RetryOk(t, i, now);
    case _ => StillOk(t, Handle(t, ev, now));
  }

  lemma StoppedOk(t: Transfer)
    requires SlotsOk(t)
    ensures SlotsOk(Stopped(t)) && Stopped(t).loaded == t.loaded
  {
    var u := Stopped(t);
    forall y | 0 <= y < |u.all| ensures Latest(u, y) && !u.all[y].open {
      assert Latest(t, y);
      if t.all[y].open { assert t.xhrs[t.all[y].slot] == y && y in t.xhrs; }
    }
  }

  /** Once stopped, a transfer is over: no callback spawns a request or moves a byte. */
  lemma NothingAfterStop(t: Transfer, ev: Event, now: int)
    requires SlotsOk(t) && !t.running && !t.graceTimer
    ensures Handle(t, ev, now) == t.(retries := Handle(t, ev, now).retries)
  {
  }

  // ---- bytes ---------------------------------------------------------------------------

  /** An event and when it happens. */
  datatype Timed = Timed(ev: Event, at: int)

  function Play(t: Transfer, events: seq<Timed>): Transfer
    decreases |events|
  {
    if events == [] then t else Play(Handle(t, events[0].ev, events[0].at), events[1..])
  }

  function Reported(all: seq<Xhr>): int {
    if all == [] then 0 else all[0].last + Reported(all[1..])
  }

  /** How far an event takes the progress of its request back. */
  function Rollback(t: Transfer, ev: Event): nat {
    if ev.Progress? && Receives(t, ev.xhr) && ev.loaded < t.all[ev.xhr].last then t.all[ev.xhr].last - ev.loaded else 0
  }

  function Rollbacks(t: Transfer, events: seq<Timed>): nat
    decreases |events|
  {
    if events == [] then 0
    else Rollback(t, events[0].ev) + Rollbacks(Handle(t, events[0].ev, events[0].at), events[1..])
  }

  lemma {:induction false} ReportedUpdate(all: seq<Xhr>, x: nat, r: Xhr)
    requires x < |all|
    ensures Reported(all[x := r]) == Reported(all) - all[x].last + r.last
  {
    if x == 0 {
      assert all[0 := r][1..] == all[1..];
    } else {
      assert all[x := r][1..] == all[1..][x - 1 := r];
      ReportedUpdate(all[1..], x - 1, r);
    }
  }

  lemma {:induction false} ReportedSnoc(all: seq<Xhr>, r: Xhr)
    ensures Reported(all + [r]) == Reported(all) + r.last
  {
    if all == [] {
      assert all + [r] == [r] && [r][1..] == [];
    } else {
      assert (all + [r])[1..] == all[1..] + [r];
      ReportedSnoc(all[1..], r);
    }
  }

  lemma HandleBytes(t: Transfer, ev: Event, now: int)
    ensures Handle(t, ev, now).loaded - Reported(Handle(t, ev, now).all) == t.loaded - Reported(t.all) + Rollback(t, ev)
  {
    match ev
    case Progress(x, loaded) =>
      if Receives(t, x) { ReportedUpdate(t.all, x, t.all[x].(last := loaded)); }
    case Load(x) =>
      if Receives(t, x) {
        ReportedUpdate(t.all, x, t.all[x].(open := false));
        ReportedSnoc(Close(t, x).all, Xhr(t.all[x].slot, 0, true));
      }
    case Fail(x) =>
      if Receives(t, x) { ReportedUpdate(t.all, x, t.all[x].(open := false)); }
    case Retry(i) =>
      ReportedSnoc(t.all, Xhr(i, 0, true));
    case Grace =>
    case Tick =>
  }

  /** Over any interleaving of the slots, `loaded` is the sum of what every request of the phase,
      dead or alive, last reported, plus what reports ever went back by; so it is exactly that
      sum when, and only when, no request's progress went down. */
  lemma {:induction false} BytesTelescope(t: Transfer, events: seq<Timed>)
    requires SlotsOk(t)
    ensures SlotsOk(Play(t, events))
    ensures Play(t, events).loaded - Reported(Play(t, events).all) == t.loaded - Reported(t.all) + Rollbacks(t, events)
    decreases |events|
  {
    if events != [] {
      HandleOk(t, events[0].ev, events[0].at);
      HandleBytes(t, events[0].ev, events[0].at);
      BytesTelescope(Handle(t, events[0].ev, events[0].at), events[1..]);
    }
  }

  lemma {:induction false} ReportedZero(all: seq<Xhr>)
    requires forall x :: 0 <= x < |all| ==> all[x].last == 0
    ensures Reported(all) == 0
  {
    if all != [] { ReportedZero(all[1..]); }
  }

  lemma HandleKeeps(t: Transfer, ev: Event, now: int)
    ensures var u := Handle(t, ev, now);
            && u.t0 == t.t0 && u.running == t.running && u.endTimer == t.endTimer && u.ticker == t.ticker
            && |u.xhrs| == |t.xhrs| && |u.retries| == |t.retries|
  {
  }

  /** Events neither stop a transfer nor touch its timers, its start and the number of its slots. */
  lemma {:induction false} PlayKeeps(t: Transfer, events: seq<Timed>)
    ensures var u := Play(t, events);
            && u.t0 == t.t0 && u.running == t.running && u.endTimer == t.endTimer && u.ticker == t.ticker
            && |u.xhrs| == |t.xhrs| && |u.retries| == |t.retries|
    decreases |events|
  {
    if events != [] {
      HandleKeeps(t, events[0].ev, events[0].at);
      PlayKeeps(Handle(t, events[0].ev, events[0].at), events[1..]);
    }
  }

  /** The phase keeps its `streams` slots, each with one open request or one retry. */
  lemma PhaseSlots(streams: nat, now: int, events: seq<Timed>)
    ensures var t := Play(Begun(streams, now), events);
            |t.xhrs| == |t.retries| == streams && SlotsOk(t)
  {
    BegunSlots(streams, now);
    PlayKeeps(Begun(streams, now), events);
    PhaseBytes(streams, now, events);
  }

  // ---- how many requests ---------------------------------------------------------------------

  function One(b: bool): nat {
    if b then 1 else 0
  }

  predicate Fires(t: Transfer, i: nat) {
    i < |t.retries| && i < |t.xhrs| && t.retries[i] > 0
  }

  /** How many requests loaded, how many failed, and how many retry timers fired. */
  function Loads(t: Transfer, events: seq<Timed>): nat
    decreases |events|
  {
    if events == [] then 0
    else
      One(events[0].ev.Load? && Receives(t, events[0].ev.xhr))
      + Loads(Handle(t, events[0].ev, events[0].at), events[1..])
  }

  function Fails(t: Transfer, events: seq<Timed>): nat
    decreases |events|
  {
    if events == [] then 0
    else
      One(events[0].ev.Fail? && Receives(t, events[0].ev.xhr))
      + Fails(Handle(t, events[0].ev, events[0].at), events[1..])
  }

  function Retried(t: Transfer, events: seq<Timed>): nat
    decreases |events|
  {
    if events == [] then 0
    else
      One(events[0].ev.Retry? && Fires(t, events[0].ev.slot))
      + Retried(Handle(t, events[0].ev, events[0].at), events[1..])
  }

  function Total(ns: seq<nat>): nat {
    if ns == [] then 0 else ns[0] + Total(ns[1..])
  }

  lemma {:induction false} TotalUpdate(ns: seq<nat>, i: nat, n: nat)
    requires i < |ns|
    ensures Total(ns[i := n]) == Total(ns) - ns[i] + n
  {
    if i == 0 {
      assert ns[i := n][1..] == ns[1..];
    } else {
      assert ns[i := n][1..] == ns[1..][i - 1 := n];
      TotalUpdate(ns[1..], i - 1, n);
    }
  }

  lemma {:induction false} TotalZero(ns: seq<nat>)
    requires forall i :: 0 <= i < |ns| ==> ns[i] == 0
    ensures Total(ns) == 0
  {
    if ns != [] { TotalZero(ns[1..]); }
  }

  lemma HandleRequests(t: Transfer, ev: Event, now: int)
    requires t.running
    ensures var u := Handle(t, ev, now);
            && |u.all| == |t.all| + One(ev.Load? && Receives(t, ev.xhr)) + One(ev.Retry? && Fires(t, ev.slot))
            && Total(u.retries) + One(ev.Retry? && Fires(t, ev.slot))
               == Total(t.retries) + One(ev.Fail? && Receives(t, ev.xhr))
  {
    if ev.Fail? && Receives(t, ev.xhr) {
      var i := t.all[ev.xhr].slot;
      TotalUpdate(t.retries, i, t.retries[i] + 1);
    }
    if ev.Retry? && Fires(t, ev.slot) { TotalUpdate(t.retries, ev.slot, t.retries[ev.slot] - 1); }
  }

  lemma {:induction false} RequestsAccounted(t: Transfer, events: seq<Timed>)
    requires t.running
    ensures var u := Play(t, events);
            && |u.all| == |t.all| + Loads(t, events) + Retried(t, events)
            && Total(u.retries) + Retried(t, events) == Total(t.retries) + Fails(t, events)
    decreases |events|
  {
    if events != [] {
      HandleRequests(t, events[0].ev, events[0].at);
      HandleKeeps(t, events[0].ev, events[0].at);
      RequestsAccounted(Handle(t, events[0].ev, events[0].at), events[1..]);
    }
  }

  /** While a phase runs, a request follows each that loaded and each retry timer that fired, and nothing
      else; and each that failed is waiting for its timer or has been retried. */
  lemma PhaseRequests(streams: nat, now: int, events: seq<Timed>)
    ensures var b := Begun(streams, now); var t := Play(b, events);
            && |t.all| == streams + Loads(b, events) + Retried(b, events)
            && Total(t.retries) + Retried(b, events) == Fails(b, events)
  {
    BegunSlots(streams, now);
    BegunRunning(streams, now);
    TotalZero(Begun(streams, now).retries);
    RequestsAccounted(Begun(streams, now), events);
  }

  lemma PhaseBytes(streams: nat, now: int, events: seq<Timed>)
    ensures var t := Play(Begun(streams, now), events);
            SlotsOk(t) && (t.loaded == Reported(t.all) <==> Rollbacks(Begun(streams, now), events) == 0)
  {
    BegunOk(streams, now);
    ReportedZero(Begun(streams, now).all);
    BytesTelescope(Begun(streams, now), events);
  }
}
