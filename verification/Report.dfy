/**
 Where the figures of the browser's result come from: the round trips heard up to the end of the
 ping phase, and what the requests of each transfer delivered between its start, or its snapshot,
 and its end.
 */
module Reports {
  import opened Options
  import opened BrowserWorker
  import J = Jitter
  import M = Measure
  import P = Procedure
  import T = Transfers

  // ---- what a run heard and delivered, read off its events ---------------------------------

  /** The round trip that an event completes, if it is one the worker takes in. */
  function Heard(s: State, ev: Event): seq<int> {
    match ev
    case SocketEcho(rtt) => if s.socket.Some? && !s.aborted then [rtt] else []
    case PingLoaded(rtt) => if s.chain.Some? && s.chain.value.waiting then [rtt] else []
    case _ => []
  }

  function RoundTrips(s: State, events: seq<Timed>): seq<int>
    decreases |events|
  {
    if events == [] then []
    else Heard(s, events[0].ev) + RoundTrips(Step(s, events[0].ev, events[0].at), events[1..])
  }

  function Own(e: Timed, phase: Phase): seq<T.Timed> {
    if e.ev.Transfer? && e.ev.phase == phase then [T.Timed(e.ev.ev, e.at)] else []
  }

  /** The events of one transfer. */
  function Deliveries(events: seq<Timed>, phase: Phase): seq<T.Timed> {
    if events == [] then []
    else Deliveries(events[..|events| - 1], phase) + Own(events[|events| - 1], phase)
  }

  /** One run of a worker, by the number of its events that have happened. */
  datatype Course = Course(cfg: Config, refused: bool, start: int, events: seq<Timed>) {
    function At(k: nat): State
      requires k <= |events|
    {
      Run(Begun(cfg, refused, start), events[..k])
    }

    function Time(k: nat): int
      requires k <= |events|
    {
      if k == 0 then start else events[k - 1].at
    }

    /** The phase ends with the k-th event, or with the start. */
    predicate Ends(phase: Phase, k: nat) {
      k <= |events| && phase in At(k).finished && (k > 0 ==> phase !in At(k - 1).finished)
    }

    /** Ping and jitter of the round trips heard in the first `p` events. */
    function Ping(p: nat): Latency
      requires p <= |events|
    {
      LatencyOf(J.BrowserRun(RoundTrips(Begun(cfg, refused, start), events[..p])))
    }

    /** A transfer begun with the a-th event, after its events up to the b-th. */
    function Moved(phase: Phase, a: nat, b: nat): T.Transfer
      requires a <= b <= |events|
    {
      T.Play(T.Begun(if phase == Download then cfg.downloadStreams else cfg.uploadStreams, Time(a)),
             Deliveries(events[a..b], phase))
    }

    /** The figure of a transfer begun with the a-th event and ended by the b-th. */
    function Figure(phase: Phase, a: nat, b: nat): T.Figure
      requires a < b <= |events|
    {
      T.Compute(Moved(phase, a, b - 1), Time(b), cfg.overhead)
    }
  }

  // ---- one event ---------------------------------------------------------------------------

  /** The events of a transfer reach it, and nothing else does. */
  function After(t: Option<T.Transfer>, ev: Event, phase: Phase, now: int): Option<T.Transfer> {
    if t.Some? && ev.Transfer? && ev.phase == phase then Some(T.Handle(t.value, ev.ev, now)) else t
  }

  ghost predicate NoNewResult(s: State, t: State) {
    forall m :: m in t.posted && m.Result? ==> m in s.posted
  }

  /** No phase ends. */
  ghost predicate Calm(s: State, t: State, ev: Event, now: int) {
    && t.finished == s.finished && t.pinged == s.pinged && t.downloaded == s.downloaded
    && t.download == After(s.download, ev, Download, now) && t.upload == After(s.upload, ev, Upload, now)
    && NoNewResult(s, t)
  }

  ghost predicate PingEnds(s: State, t: State, now: int) {
    && Ping !in s.finished && t.finished == s.finished + {Ping}
    && t.pinged == LatencyOf(t.pings) && t.downloaded == s.downloaded
    && t.download == Some(T.Begun(s.cfg.downloadStreams, now)) && t.upload == s.upload
    && NoNewResult(s, t)
  }

  ghost predicate DownloadEnds(s: State, t: State, now: int) {
    && Download !in s.finished && t.finished == s.finished + {Download}
    && s.download.Some? && t.pinged == s.pinged
    && t.downloaded == T.Compute(T.Stopped(s.download.value), now, s.cfg.overhead)
    && t.upload == Some(T.Begun(s.cfg.uploadStreams, now))
    && NoNewResult(s, t)
  }

  /** Any result added is the one of these figures. */
  ghost predicate OnlyResult(before: seq<Msg>, after: seq<Msg>, ping: Latency, down: T.Figure, up: T.Figure) {
    forall m :: m in after && m.Result? ==> m in before || m == ResultOf(ping, down, up)
  }

  ghost predicate UploadEnds(s: State, t: State, figure: T.Figure) {
    && Upload !in s.finished && t.finished == s.finished + {Upload}
    && t.pinged == s.pinged && t.downloaded == s.downloaded
    && OnlyResult(s.posted, t.posted, s.pinged, s.downloaded, figure)
  }

  /** The figure of the upload if it ends now. */
  function UploadFigure(s: State, now: int): T.Figure
    requires s.upload.Some?
  {
    T.Compute(T.Stopped(s.upload.value), now, s.cfg.overhead)
  }

  ghost predicate Classified(s: State, t: State, ev: Event, now: int) {
    || Calm(s, t, ev, now) || PingEnds(s, t, now) || DownloadEnds(s, t, now)
    || (s.upload.Some? && UploadEnds(s, t, UploadFigure(s, now)))
  }

  lemma TwoPosted(posted: seq<Msg>, a: Msg, b: Msg)
    requires !a.Result?
    ensures forall m :: m in posted + [a] + [b] && m.Result? ==> m in posted || m == b
  {
  }

  lemma DownloadClassified(s: State, now: int)
    requires !s.aborted && Download !in s.finished && s.download.Some?
    ensures DownloadEnds(s, FinishDownload(s, now), now)
  {
    var figure := T.Compute(T.Stopped(s.download.value), now, s.cfg.overhead);
    TwoPosted(s.posted, PhaseDone(Download, figure.Mbps()), PhaseStart(Upload));
  }

  lemma UploadClassified(s: State, now: int)
    requires !s.aborted && Upload !in s.finished && s.upload.Some?
    ensures UploadEnds(s, FinishUpload(s, now), UploadFigure(s, now))
  {
    var figure := UploadFigure(s, now);
    TwoPosted(s.posted, PhaseDone(Upload, figure.Mbps()), ResultOf(s.pinged, s.downloaded, figure));
  }

  lemma FinishClassified(s: State, phase: Phase, ev: Event, now: int)
    requires !s.aborted && !ev.Transfer?
    ensures Classified(s, Finish(s, phase, now), ev, now)
  {
    match phase
    case Ping => MinorClassified(s, s, ev, now);
    case Download => if Download !in s.finished && s.download.Some? { DownloadClassified(s, now); }
    case Upload => if Upload !in s.finished && s.upload.Some? { UploadClassified(s, now); }
  }

  /** The ping state and minor messages change nothing that a phase's end depends on. */
  lemma MinorClassified(s: State, u: State, ev: Event, now: int)
    requires !u.aborted && !ev.Transfer? && Calm(s, u, ev, now) && u.cfg == s.cfg && u.upload == s.upload
    ensures Classified(s, FinishPing(u, now), ev, now)
  {
  }

  lemma NextPingClassified(s: State, u: State, count: nat, ev: Event, now: int)
    requires !u.aborted && !ev.Transfer? && Calm(s, u, ev, now) && u.cfg == s.cfg && u.upload == s.upload
    ensures Classified(s, NextPing(u, count, now), ev, now)
  {
    MinorClassified(s, u.(chain := Some(Chain(count, false))), ev, now);
  }

  lemma SampleClassified(s: State, u: State, rtt: int, count: nat, ev: Event, now: int)
    requires !u.aborted && !ev.Transfer? && Calm(s, u, ev, now) && u.cfg == s.cfg && u.upload == s.upload
    ensures var v := Sample(u, rtt, count);
            !v.aborted && Calm(s, v, ev, now) && v.cfg == s.cfg && v.upload == s.upload
  {
  }

  lemma SocketClassified(s: State, k: Socket, ev: Event, now: int)
    requires !s.aborted && !ev.Transfer?
    ensures Classified(s, OnSocket(s, k, ev, now), ev, now)
  {
    match ev
    case SocketEcho(rtt) =>
      var u := s.(socket := Some(k.(count := k.count + 1)));
      SampleClassified(s, u, rtt, k.count + 1, ev, now);
      MinorClassified(s, Sample(u, rtt, k.count + 1), ev, now);
    case SocketError => NextPingClassified(s, s.(socket := Some(k.(usedFallback := true, timer := false))), 0, ev, now);
    case SocketTimeout(_) =>
      NextPingClassified(s, s.(socket := Some(k.(usedFallback := true, timer := false))), 0, ev, now);
    case SocketClose => MinorClassified(s, s, ev, now);
    case _ =>
  }

  lemma LoadedClassified(s: State, k: Chain, rtt: int, now: int)
    requires !s.aborted
    ensures Classified(s, NextPing(Sample(s, rtt, k.count + 1), k.count + 1, now), PingLoaded(rtt), now)
  {
    SampleClassified(s, s, rtt, k.count + 1, PingLoaded(rtt), now);
    NextPingClassified(s, Sample(s, rtt, k.count + 1), k.count + 1, PingLoaded(rtt), now);
  }

  lemma TransferClassified(s: State, phase: Phase, ev: T.Event, now: int)
    ensures Calm(s, Step(s, Transfer(phase, ev), now), Transfer(phase, ev), now)
  {
  }

  /** Without an abort, an event ends one phase at most, and reports on it. */
  lemma StepClassified(s: State, ev: Event, now: int)
    requires !s.aborted && !ev.Abort?
    ensures Classified(s, Step(s, ev, now), ev, now)
  {
    match ev
    case Abort =>
    case PingLoaded(rtt) => if s.chain.Some? { LoadedClassified(s, s.chain.value, rtt, now); }
    case PingFailed => if s.chain.Some? { NextPingClassified(s, s, s.chain.value.count + 1, ev, now); }
    case Transfer(phase, e) => TransferClassified(s, phase, e, now);
    case End(phase) => FinishClassified(s, phase, ev, now);
    case _ => if s.socket.Some? { SocketClassified(s, s.socket.value, ev, now); }
  }

  lemma StepHears(s: State, ev: Event, now: int)
    ensures Step(s, ev, now).pings
            == if Heard(s, ev) == [] then s.pings else J.Sampled(s.pings, J.Ms(Heard(s, ev)[0]))
  {
  }

  lemma HeardOne(past: seq<int>, s: State, ev: Event, now: int)
    requires s.pings == J.BrowserRun(past)
    ensures Step(s, ev, now).pings == J.BrowserRun(past + Heard(s, ev))
  {
    var heard := Heard(s, ev);
    StepHears(s, ev, now);
    if heard == [] {
      assert past + heard == past;
    } else {
      assert past + heard == past + [heard[0]] && (past + heard)[..|past|] == past;
    }
  }

  lemma {:induction false} PingsAreHeard(s: State, events: seq<Timed>, past: seq<int>)
    requires s.pings == J.BrowserRun(past)
    ensures Run(s, events).pings == J.BrowserRun(past + RoundTrips(s, events))
    decreases |events|
  {
    if events == [] {
      assert past + [] == past;
    } else {
      var e := events[0];
      var heard, next := Heard(s, e.ev), Step(s, e.ev, e.at);
      HeardOne(past, s, e.ev, e.at);
      PingsAreHeard(next, events[1..], past + heard);
      Regroup(past, heard, RoundTrips(next, events[1..]));
    }
  }

  lemma Regroup(a: seq<int>, b: seq<int>, c: seq<int>)
    ensures (a + b) + c == a + (b + c)
  {
  }

  // ---- the whole run -------------------------------------------------------------------------

  /** How many events had happened when each phase ended. */
  datatype Marks = Marks(ping: nat, download: nat, upload: nat)

  /** A result of the run: its figures are those of the phases, ended at these marks. */
  ghost predicate Told(c: Course, r: Msg, m: Marks) {
    && m.ping < m.download < m.upload <= |c.events|
    && c.Ends(Ping, m.ping) && c.Ends(Download, m.download) && c.Ends(Upload, m.upload)
    && r == ResultOf(c.Ping(m.ping), c.Figure(Download, m.ping, m.download), c.Figure(Upload, m.download, m.upload))
  }

  ghost predicate TellsAll(c: Course, posted: seq<Msg>, m: Marks) {
    forall r :: r in posted && r.Result? ==> Told(c, r, m)
  }

  ghost predicate PingTold(c: Course, k: nat, m: Marks)
    requires k <= |c.events|
  {
    Ping in c.At(k).finished ==> m.ping <= k && c.Ends(Ping, m.ping) && c.At(k).pinged == c.Ping(m.ping)
  }

  ghost predicate DownloadTold(c: Course, k: nat, m: Marks)
    requires k <= |c.events|
  {
    var s := c.At(k);
    if Download in s.finished then
      m.ping < m.download <= k && c.Ends(Download, m.download) && s.downloaded == c.Figure(Download, m.ping, m.download)
    else
      Ping in s.finished ==> m.ping <= k && s.download == Some(c.Moved(Download, m.ping, k))
  }

  ghost predicate UploadTold(c: Course, k: nat, m: Marks)
    requires k <= |c.events|
  {
    var s := c.At(k);
    Download in s.finished && Upload !in s.finished ==>
      m.download <= k && s.upload == Some(c.Moved(Upload, m.download, k))
  }

  ghost predicate NoResult(posted: seq<Msg>) {
    forall r :: r in posted ==> !r.Result?
  }

  ghost predicate ResultsTold(c: Course, k: nat, m: Marks)
    requires k <= |c.events|
  {
    TellsAll(c, c.At(k).posted, m) && (Upload !in c.At(k).finished ==> NoResult(c.At(k).posted))
  }

  ghost predicate PhasesTold(c: Course, k: nat, m: Marks)
    requires k <= |c.events|
  {
    PingTold(c, k, m) && DownloadTold(c, k, m) && UploadTold(c, k, m)
  }

  ghost predicate Story(c: Course, k: nat, m: Marks)
    requires k <= |c.events|
  {
    && c.At(k).cfg == c.cfg && Inv(c.At(k))
    && (!c.At(k).aborted ==> PhasesTold(c, k, m))
    && ResultsTold(c, k, m)
  }

  /** One phase after the other: all that is needed here of the worker's invariant. */
  ghost predicate InTurn(s: State) {
    && (Download in s.finished ==> Ping in s.finished) && (Upload in s.finished ==> Download in s.finished)
    && (s.download.Some? ==> Ping in s.finished) && (s.upload.Some? ==> Download in s.finished)
  }

  lemma InvInTurn(s: State)
    requires Inv(s)
    ensures InTurn(s)
  {
  }

  /** A run not aborted so far. */
  ghost predicate Live(c: Course, k: nat, m: Marks)
    requires k <= |c.events|
  {
    c.At(k).cfg == c.cfg && InTurn(c.At(k)) && PhasesTold(c, k, m) && ResultsTold(c, k, m)
  }

  lemma AtNext(c: Course, k: nat)
    requires k < |c.events|
    ensures c.At(k + 1) == Step(c.At(k), c.events[k].ev, c.events[k].at) && c.Time(k + 1) == c.events[k].at
  {
    RunNext(Begun(c.cfg, c.refused, c.start), c.events, k);
  }

  lemma PlayOne(t: T.Transfer, e: T.Timed)
    ensures T.Play(t, [e]) == T.Handle(t, e.ev, e.at)
  {
    assert [e][1..] == [];
  }

  /** A transfer under way takes in its own events. */
  lemma MovedNext(c: Course, phase: Phase, a: nat, k: nat)
    requires a <= k < |c.events|
    ensures Some(c.Moved(phase, a, k + 1)) == After(Some(c.Moved(phase, a, k)), c.events[k].ev, phase, c.events[k].at)
  {
    var e, before := c.events[k], c.events[a..k];
    assert c.events[a..k + 1] == before + [e] && (before + [e])[..|before|] == before;
    var begun := T.Begun(if phase == Download then c.cfg.downloadStreams else c.cfg.uploadStreams, c.Time(a));
    P.PlayAppend(begun, Deliveries(before, phase), Own(e, phase));
    if Own(e, phase) == [] {
      assert Deliveries(before, phase) + [] == Deliveries(before, phase);
    } else {
      PlayOne(T.Play(begun, Deliveries(before, phase)), Own(e, phase)[0]);
    }
  }

  lemma PingHeard(c: Course, k: nat)
    requires k <= |c.events|
    ensures LatencyOf(c.At(k).pings) == c.Ping(k)
  {
    var begun := Begun(c.cfg, c.refused, c.start);
    PingsAreHeard(begun, c.events[..k], []);
    assert [] + RoundTrips(begun, c.events[..k]) == RoundTrips(begun, c.events[..k]);
  }

  lemma Unmoved(c: Course, phase: Phase, k: nat)
    requires k <= |c.events|
    ensures c.Moved(phase, k, k)
            == T.Begun(if phase == Download then c.cfg.downloadStreams else c.cfg.uploadStreams, c.Time(k))
  {
    assert c.events[k..k] == [];
  }

  lemma StoppedFigure(t: T.Transfer, now: int, overhead: real)
    ensures T.Compute(T.Stopped(t), now, overhead) == T.Compute(t, now, overhead)
  {
  }

  lemma CalmStory(c: Course, k: nat, m: Marks)
    requires k < |c.events| && Live(c, k, m)
    requires Calm(c.At(k), c.At(k + 1), c.events[k].ev, c.events[k].at)
    ensures PhasesTold(c, k + 1, m) && ResultsTold(c, k + 1, m)
  {
    var s := c.At(k);
    if Ping in s.finished && Download !in s.finished { MovedNext(c, Download, m.ping, k); }
    if Download in s.finished && Upload !in s.finished { MovedNext(c, Upload, m.download, k); }
  }

  lemma PingStory(c: Course, k: nat, m: Marks)
    requires k < |c.events| && Live(c, k, m)
    requires PingEnds(c.At(k), c.At(k + 1), c.Time(k + 1))
    ensures var n := m.(ping := k + 1);
            PhasesTold(c, k + 1, n) && ResultsTold(c, k + 1, n)
  {
    PingHeard(c, k + 1);
    Unmoved(c, Download, k + 1);
  }

  lemma DownloadStory(c: Course, k: nat, m: Marks)
    requires k < |c.events| && Live(c, k, m)
    requires DownloadEnds(c.At(k), c.At(k + 1), c.Time(k + 1))
    ensures var n := m.(download := k + 1);
            PhasesTold(c, k + 1, n) && ResultsTold(c, k + 1, n)
  {
    StoppedFigure(c.At(k).download.value, c.Time(k + 1), c.cfg.overhead);
    Unmoved(c, Upload, k + 1);
  }

  /** These are the figures of the phases ended at these marks. */
  ghost predicate Held(c: Course, m: Marks, ping: Latency, down: T.Figure, up: T.Figure) {
    && m.ping < m.download < m.upload <= |c.events|
    && c.Ends(Ping, m.ping) && c.Ends(Download, m.download) && c.Ends(Upload, m.upload)
    && ping == c.Ping(m.ping)
    && down == c.Figure(Download, m.ping, m.download) && up == c.Figure(Upload, m.download, m.upload)
  }

  lemma FigureOf(s: State, t: T.Transfer, now: int, overhead: real)
    requires s.upload == Some(t) && s.cfg.overhead == overhead
    ensures UploadFigure(s, now) == T.Compute(t, now, overhead)
  {
    StoppedFigure(t, now, overhead);
  }

  lemma UploadMeasured(c: Course, k: nat, d: nat)
    requires d <= k < |c.events| && c.At(k).cfg == c.cfg && c.At(k).upload == Some(c.Moved(Upload, d, k))
    ensures UploadFigure(c.At(k), c.Time(k + 1)) == c.Figure(Upload, d, k + 1)
  {
    FigureOf(c.At(k), c.Moved(Upload, d, k), c.Time(k + 1), c.cfg.overhead);
  }

  lemma EndsNext(c: Course, k: nat, phase: Phase)
    requires k < |c.events| && phase !in c.At(k).finished && phase in c.At(k + 1).finished
    ensures c.Ends(phase, k + 1)
  {
  }

  /** While the upload runs, the worker holds on to the figures of the phases before. */
  lemma HeldSoFar(c: Course, k: nat, m: Marks)
    requires k <= |c.events| && PingTold(c, k, m) && DownloadTold(c, k, m)
    requires Ping in c.At(k).finished && Download in c.At(k).finished
    ensures m.ping < m.download <= k && c.Ends(Ping, m.ping) && c.Ends(Download, m.download)
    ensures c.At(k).pinged == c.Ping(m.ping) && c.At(k).downloaded == c.Figure(Download, m.ping, m.download)
  {
  }

  lemma FiguresHeld(c: Course, m: Marks, ping: Latency, down: T.Figure, up: T.Figure)
    requires m.ping < m.download < m.upload <= |c.events|
    requires c.Ends(Ping, m.ping) && c.Ends(Download, m.download) && c.Ends(Upload, m.upload)
    requires ping == c.Ping(m.ping) && down == c.Figure(Download, m.ping, m.download)
    requires up == c.Figure(Upload, m.download, m.upload)
    ensures Held(c, m, ping, down, up)
  {
  }

  lemma HeldTold(c: Course, before: seq<Msg>, after: seq<Msg>, m: Marks, ping: Latency, down: T.Figure, up: T.Figure)
    requires Held(c, m, ping, down, up) && OnlyResult(before, after, ping, down, up) && NoResult(before)
    ensures TellsAll(c, after, m)
  {
    forall r | r in after && r.Result? ensures Told(c, r, m) { }
  }

  lemma UploadResults(c: Course, s: State, t: State, m: Marks, figure: T.Figure)
    requires UploadEnds(s, t, figure) && NoResult(s.posted) && Held(c, m, s.pinged, s.downloaded, figure)
    ensures TellsAll(c, t.posted, m)
  {
    HeldTold(c, s.posted, t.posted, m, s.pinged, s.downloaded, figure);
  }

  lemma UploadKeeps(c: Course, k: nat, m: Marks)
    requires k < |c.events| && Live(c, k, m) && Ping in c.At(k).finished && Download in c.At(k).finished
    requires c.At(k + 1).finished == c.At(k).finished + {Upload}
    requires c.At(k + 1).pinged == c.At(k).pinged && c.At(k + 1).downloaded == c.At(k).downloaded
    ensures var n := Marks(m.ping, m.download, k + 1);
            PhasesTold(c, k + 1, n)
  {
  }

  lemma HeldToEnd(c: Course, k: nat, m: Marks, ping: Latency, down: T.Figure, up: T.Figure)
    requires m.ping < m.download <= k < |c.events| && c.Ends(Ping, m.ping) && c.Ends(Download, m.download)
    requires ping == c.Ping(m.ping) && down == c.Figure(Download, m.ping, m.download)
    requires up == c.Figure(Upload, m.download, k + 1)
    requires Upload !in c.At(k).finished && Upload in c.At(k + 1).finished
    ensures Held(c, Marks(m.ping, m.download, k + 1), ping, down, up)
  {
    EndsNext(c, k, Upload);
    FiguresHeld(c, Marks(m.ping, m.download, k + 1), ping, down, up);
  }

  lemma UploadHeld(c: Course, k: nat, m: Marks)
    requires k < |c.events| && Live(c, k, m) && c.At(k).upload.Some?
    requires UploadEnds(c.At(k), c.At(k + 1), UploadFigure(c.At(k), c.Time(k + 1)))
    ensures Held(c, Marks(m.ping, m.download, k + 1), c.At(k).pinged, c.At(k).downloaded,
                 UploadFigure(c.At(k), c.Time(k + 1)))
  {
    HeldSoFar(c, k, m);
    UploadMeasured(c, k, m.download);
    HeldToEnd(c, k, m, c.At(k).pinged, c.At(k).downloaded, UploadFigure(c.At(k), c.Time(k + 1)));
  }

  lemma UploadTells(c: Course, k: nat, m: Marks)
    requires k < |c.events| && Live(c, k, m) && c.At(k).upload.Some?
    requires UploadEnds(c.At(k), c.At(k + 1), UploadFigure(c.At(k), c.Time(k + 1)))
    ensures TellsAll(c, c.At(k + 1).posted, Marks(m.ping, m.download, k + 1))
  {
    UploadHeld(c, k, m);
    UploadResults(c, c.At(k), c.At(k + 1), Marks(m.ping, m.download, k + 1), UploadFigure(c.At(k), c.Time(k + 1)));
  }

  lemma UploadStory(c: Course, k: nat, m: Marks)
    requires k < |c.events| && Live(c, k, m) && c.At(k).upload.Some?
    requires UploadEnds(c.At(k), c.At(k + 1), UploadFigure(c.At(k), c.Time(k + 1)))
    ensures var n := Marks(m.ping, m.download, k + 1);
            PhasesTold(c, k + 1, n) && ResultsTold(c, k + 1, n)
  {
    UploadKeeps(c, k, m);
    UploadTells(c, k, m);
  }

  lemma {:induction false} MajorsPosted(posted: seq<Msg>, m: Msg)
    requires m in Majors(posted)
    ensures m in posted
  {
    if m != posted[|posted| - 1] { MajorsPosted(posted[..|posted| - 1], m); }
  }

  lemma ResultStands(after: seq<Msg>, before: seq<Msg>, r: Msg)
    requires Majors(after) == Majors(before) && r in after && r.Result?
    ensures r in before
  {
    var i :| 0 <= i < |after| && after[i] == r;
    MajorKept(after, i);
    MajorsPosted(before, r);
  }

  lemma Keeps(s: State, ev: Event, now: int)
    ensures Step(s, ev, now).cfg == s.cfg && s.finished <= Step(s, ev, now).finished
    ensures !s.aborted && !ev.Abort? ==> !Step(s, ev, now).aborted
  {
  }

  lemma AbortedStory(c: Course, k: nat, m: Marks)
    requires k < |c.events| && Story(c, k, m) && (c.At(k).aborted || c.events[k].ev.Abort?)
    ensures ResultsTold(c, k + 1, m)
  {
    var s, t, e := c.At(k), c.At(k + 1), c.events[k];
    AtNext(c, k);
    AbortSilences(s, e.ev, e.at);
    Keeps(s, e.ev, e.at);
    forall r | r in t.posted && r.Result? ensures r in s.posted { ResultStands(t.posted, s.posted, r); }
  }

  lemma StoryNext(c: Course, k: nat, m: Marks) returns (n: Marks)
    requires k < |c.events| && Story(c, k, m)
    ensures Story(c, k + 1, n)
  {
    var s, t, e := c.At(k), c.At(k + 1), c.events[k];
    AtNext(c, k);
    StepOk(s, e.ev, e.at);
    Keeps(s, e.ev, e.at);
    n := m;
    if s.aborted || e.ev.Abort? {
      AbortedStory(c, k, m);
      AbortSilences(s, e.ev, e.at);
    } else {
      InvInTurn(s);
      n := LiveNext(c, k, m);
    }
  }

  lemma LiveNext(c: Course, k: nat, m: Marks) returns (n: Marks)
    requires k < |c.events| && Live(c, k, m) && !c.At(k).aborted && !c.events[k].ev.Abort?
    ensures PhasesTold(c, k + 1, n) && ResultsTold(c, k + 1, n)
  {
    var s, t, e := c.At(k), c.At(k + 1), c.events[k];
    AtNext(c, k);
    StepClassified(s, e.ev, e.at);
    if Calm(s, t, e.ev, e.at) {
      n := m;
      CalmStory(c, k, m);
    } else if PingEnds(s, t, e.at) {
      n := m.(ping := k + 1);
      PingStory(c, k, m);
    } else if DownloadEnds(s, t, e.at) {
      n := m.(download := k + 1);
      DownloadStory(c, k, m);
    } else {
      n := Marks(m.ping, m.download, k + 1);
      UploadStory(c, k, m);
    }
  }

  lemma StoryBegins(c: Course)
    ensures Story(c, 0, Marks(0, 0, 0))
  {
    BegunInv(c.cfg, c.refused, c.start);
    assert c.events[..0] == [];
    PingHeard(c, 0);
    Unmoved(c, Download, 0);
  }

  lemma {:induction false} StoryAt(c: Course, k: nat) returns (m: Marks)
    requires k <= |c.events|
    ensures Story(c, k, m)
  {
    if k == 0 {
      m := Marks(0, 0, 0);
      StoryBegins(c);
    } else {
      m := StoryAt(c, k - 1);
      m := StoryNext(c, k - 1, m);
    }
  }

  /** Every result a worker posts, whatever the order of events: its ping and jitter are those of
      the round trips heard until the ping phase ended; its rates, bytes and durations are those
      of the two transfers, from the end of the phase before to their own end. */
  lemma ResultIsMeasured(c: Course, i: nat) returns (m: Marks)
    requires i < |c.At(|c.events|).posted| && c.At(|c.events|).posted[i].Result?
    ensures Told(c, c.At(|c.events|).posted[i], m)
  {
    m := StoryAt(c, |c.events|);
  }

  /** The samples that count for a transfer: what it delivered after its snapshot. */
  function Counted(c: Course, phase: Phase, a: nat, b: nat): seq<M.Sample>
    requires a < b <= |c.events|
  {
    P.AfterSnapshot(T.Begun(if phase == Download then c.cfg.downloadStreams else c.cfg.uploadStreams, c.Time(a)),
                    Deliveries(c.events[a..b - 1], phase))
  }

  function Since(c: Course, phase: Phase, a: nat, b: nat): int
    requires a < b <= |c.events|
  {
    P.SnapshotTime(T.Begun(if phase == Download then c.cfg.downloadStreams else c.cfg.uploadStreams, c.Time(a)),
                   Deliveries(c.events[a..b - 1], phase))
  }

  lemma FigureCounts(c: Course, phase: Phase, a: nat, b: nat)
    requires a < b <= |c.events|
    ensures var ns := c.Time(b) - Since(c, phase, a, b); var bytes := M.Bytes(Counted(c, phase, a, b));
            c.Figure(phase, a, b) == T.Figure(bytes, ns, c.cfg.overhead)
  {
    var streams := if phase == Download then c.cfg.downloadStreams else c.cfg.uploadStreams;
    T.BegunRunning(streams, c.Time(a));
    P.FigureIsDelivered(T.Begun(streams, c.Time(a)), Deliveries(c.events[a..b - 1], phase), c.Time(b), c.cfg.overhead);
  }

  lemma SmallestHeard(rtts: seq<int>)
    ensures var ping := Round2(LatencyOf(J.BrowserRun(rtts)).ping);
            if rtts == [] then ping == 0.0
            else exists min :: min in rtts && (forall x :: x in rtts ==> min <= x) && ping == Round2(J.Ms(min))
  {
    if rtts == [] {
      assert (0.0 * 100.0 + 0.5).Floor == 0;
    } else {
      J.SamePing(rtts);
    }
  }

  /** In terms of what came over the wire: the bytes of a result were delivered after the snapshots
      of its transfers, its rates are those bytes over the time since then, and its ping is the
      smallest of the round trips heard, or zero. */
  lemma ResultIsDelivered(c: Course, i: nat) returns (m: Marks)
    requires i < |c.At(|c.events|).posted| && c.At(|c.events|).posted[i].Result?
    ensures m.ping < m.download < m.upload <= |c.events|
    ensures var r := c.At(|c.events|).posted[i];
            var down := M.Bytes(Counted(c, Download, m.ping, m.download));
            var up := M.Bytes(Counted(c, Upload, m.download, m.upload));
            var downNs := c.Time(m.download) - Since(c, Download, m.ping, m.download);
            var upNs := c.Time(m.upload) - Since(c, Upload, m.download, m.upload);
            && r.downloadBytes == down && r.uploadBytes == up
            && r.downloadMs == Milliseconds(downNs) && r.uploadMs == Milliseconds(upNs)
            && r.download == Round2(T.Speed(down, downNs, c.cfg.overhead))
            && r.upload == Round2(T.Speed(up, upNs, c.cfg.overhead))
    ensures var r := c.At(|c.events|).posted[i];
            var rtts := RoundTrips(Begun(c.cfg, c.refused, c.start), c.events[..m.ping]);
            r.jitter == Round2(J.BrowserRun(rtts).jitter)
    ensures var r := c.At(|c.events|).posted[i];
            var rtts := RoundTrips(Begun(c.cfg, c.refused, c.start), c.events[..m.ping]);
            if rtts == [] then r.ping == 0.0
            else exists min :: min in rtts && (forall x :: x in rtts ==> min <= x) && r.ping == Round2(J.Ms(min))
  {
    m := ResultIsMeasured(c, i);
    FigureCounts(c, Download, m.ping, m.download);
    FigureCounts(c, Upload, m.download, m.upload);
    var rtts := RoundTrips(Begun(c.cfg, c.refused, c.start), c.events[..m.ping]);
    SmallestHeard(rtts);
  }
}
