/**
 The browser's measurement worker: ping, download and upload one after the other, driven by
 whatever order of socket, request, timer and abort events arrives.

 `Step` says what each callback does; the class `Worker` holds the same state in place, with one
 method for each callback. The order of the messages it posts is the protocol the page relies on.
 */
module BrowserWorker {
  import opened Options
  import J = Jitter
  import T = Transfers

  datatype Phase = Ping | Download | Upload

  /** What the ping phase hands to its done callback. */
  datatype Latency = Latency(ping: real, jitter: real)

  datatype Msg =
    | PhaseStart(phase: Phase)
    | PingDone(latency: Latency)
    | PhaseDone(phase: Phase, mbps: real)
    | Result(download: real, upload: real, ping: real, jitter: real,
             downloadBytes: int, uploadBytes: int, downloadMs: int, uploadMs: int)
    | PingUpdate(latency: Latency, pct: real)
    | Progress(phase: Phase, mbps: real, pct: real)
    | Aborted

  /** `duration` is how long a transfer phase lasts, in nanoseconds. */
  datatype Config = Config(
    websocket: bool, samples: int, downloadStreams: nat, uploadStreams: nat, duration: int, overhead: real)

  /** The ping socket: echoes so far, whether the ping fell back to XHR, the connect timer. */
  datatype Socket = Socket(count: nat, usedFallback: bool, timer: bool)

  /** The chain of ping requests: how many are done, and whether one is under way. */
  datatype Chain = Chain(count: nat, waiting: bool)

  datatype State = State(
    cfg: Config,
    aborted: bool,
    current: Option<Phase>,       // the phase `currentAbort` would finish
    pings: J.Browser,
    socket: Option<Socket>,
    chain: Option<Chain>,
    download: Option<T.Transfer>,
    upload: Option<T.Transfer>,
    finished: set<Phase>,           // the phases whose `finish` has run
    pinged: Latency, downloaded: T.Figure, // what the done callbacks hold on to
    posted: seq<Msg>)

  datatype Event =
    | Abort
    | SocketOpen
    | SocketEcho(rtt: int)
    | SocketError
    | SocketClose
    | SocketTimeout(connected: bool)
    | PingLoaded(rtt: int)
    | PingFailed
    | Transfer(phase: Phase, ev: T.Event)
    | End(phase: Phase)

  function Post(s: State, m: Msg): State {
    s.(posted := s.posted + [m])
  }

  function LatencyOf(b: J.Browser): Latency {
    Latency(if b.ping.Some? then b.ping.value else 0.0, b.jitter)
  }

  /** A share of a whole; nothing of nothing. */
  function Share(part: int, whole: int): real {
    if whole == 0 then 0.0 else part as real / whole as real
  }

  function PctOf(part: int, whole: int): real {
    if Share(part, whole) < 1.0 then Share(part, whole) else 1.0
  }

  /** A round trip taken in, and shown as number `count`. */
  function Sample(s: State, rtt: int, count: nat): State {
    var pings := J.Sampled(s.pings, J.Ms(rtt));
    Post(s.(pings := pings), PingUpdate(LatencyOf(pings), Share(count, s.cfg.samples)))
  }

  function Floor(x: real): real {
    x.Floor as real
  }

  function Round2(x: real): real {
    Floor(x * 100.0 + 0.5) / 100.0
  }

  function Milliseconds(ns: int): int {
    (ns as real / 1000000.0 + 0.5).Floor
  }

  /** The result message of these figures. */
  function ResultOf(ping: Latency, down: T.Figure, up: T.Figure): Msg {
    Result(Round2(down.Mbps()), Round2(up.Mbps()), Round2(ping.ping), Round2(ping.jitter),
           down.bytes, up.bytes, Milliseconds(down.ns), Milliseconds(up.ns))
  }

  function BeginDownload(s: State, now: int): State {
    Post(s, PhaseStart(Download)).(download := Some(T.Begun(s.cfg.downloadStreams, now)), current := Some(Download))
  }

  function BeginUpload(s: State, now: int): State {
    Post(s, PhaseStart(Upload)).(upload := Some(T.Begun(s.cfg.uploadStreams, now)), current := Some(Upload))
  }

  /** The done callback of the ping phase. */
  function AfterPing(s: State, now: int): State {
    if s.aborted then s
    else BeginDownload(Post(s, PingDone(LatencyOf(s.pings))).(pinged := LatencyOf(s.pings)), now)
  }

  function AfterDownload(s: State, figure: T.Figure, now: int): State {
    if s.aborted then s
    else BeginUpload(Post(s, PhaseDone(Download, figure.Mbps())).(downloaded := figure), now)
  }

  function AfterUpload(s: State, figure: T.Figure): State {
    if s.aborted then s
    else
      Post(Post(s, PhaseDone(Upload, figure.Mbps())).(current := None), ResultOf(s.pinged, s.downloaded, figure))
  }

  function FinishPing(s: State, now: int): State {
    if Ping in s.finished then s else AfterPing(s.(finished := s.finished + {Ping}), now)
  }

  function FinishDownload(s: State, now: int): State {
    if Download in s.finished || s.download.None? then s
    else
      var t := T.Stopped(s.download.value);
      AfterDownload(s.(finished := s.finished + {Download}, download := Some(t)),
                    T.Compute(t, now, s.cfg.overhead), now)
  }

  function FinishUpload(s: State, now: int): State {
    if Upload in s.finished || s.upload.None? then s
    else
      var t := T.Stopped(s.upload.value);
      AfterUpload(s.(finished := s.finished + {Upload}, upload := Some(t)), T.Compute(t, now, s.cfg.overhead))
  }

  function Finish(s: State, phase: Phase, now: int): State {
    match phase
    case Ping => FinishPing(s, now)
    case Download => FinishDownload(s, now)
    case Upload => FinishUpload(s, now)
  }

  /** Sends the next ping of the chain, or ends the phase. */
  function NextPing(s: State, count: nat, now: int): State {
    if s.aborted || count >= s.cfg.samples then FinishPing(s.(chain := Some(Chain(count, false))), now)
    else s.(chain := Some(Chain(count, true)))
  }

  function TransferOf(s: State, phase: Phase): Option<T.Transfer> {
    match phase
    case Ping => None
    case Download => s.download
    case Upload => s.upload
  }

  function WithTransfer(s: State, phase: Phase, t: T.Transfer): State {
    match phase
    case Ping => s
    case Download => s.(download := Some(t))
    case Upload => s.(upload := Some(t))
  }

  function OnSocket(s: State, k: Socket, ev: Event, now: int): State {
    match ev
    case SocketOpen => s.(socket := Some(k.(timer := false)))
    case SocketEcho(rtt) =>
      if s.aborted then s
      else
        var e := Sample(s.(socket := Some(k.(count := k.count + 1))), rtt, k.count + 1);
        if k.count + 1 < s.cfg.samples then e else FinishPing(e, now)
    case SocketError =>
      if !k.usedFallback && k.count == 0 then
        NextPing(s.(socket := Some(k.(usedFallback := true, timer := false))), 0, now)
      else s.(socket := Some(k.(timer := false)))
    case SocketClose =>
      if !k.usedFallback && 0 < k.count < s.cfg.samples then FinishPing(s, now) else s
    case SocketTimeout(connected) =>
      if !k.timer then s
      else if !connected && k.count == 0 then
        NextPing(s.(socket := Some(k.(usedFallback := true, timer := false))), 0, now)
      else s.(socket := Some(k.(timer := false)))
    case _ => s
  }

  function Step(s: State, ev: Event, now: int): State {
    match ev
    case Abort =>
      var a := s.(aborted := true);
      Post(if s.current.Some? then Finish(a, s.current.value, now) else a, Aborted)
    case PingLoaded(rtt) =>
      if s.chain.Some? && s.chain.value.waiting then
        NextPing(Sample(s, rtt, s.chain.value.count + 1), s.chain.value.count + 1, now)
      else s
    case PingFailed =>
      if s.chain.Some? && s.chain.value.waiting then NextPing(s, s.chain.value.count + 1, now) else s
    case Transfer(phase, e) =>
      var t := TransferOf(s, phase);
      if t.None? then s
      else if e.Tick? then
        if t.value.ticker && !s.aborted then
          Post(s, Progress(phase, T.Compute(t.value, now, s.cfg.overhead).Mbps(),
                           PctOf(now - t.value.t0, s.cfg.duration)))
        else s
      else WithTransfer(s, phase, T.Handle(t.value, e, now))
    case End(phase) =>
      var t := TransferOf(s, phase);
      if t.Some? && t.value.endTimer then Finish(s, phase, now) else s
    case _ =>
      if s.socket.Some? then OnSocket(s, s.socket.value, ev, now) else s
  }

  const NO_LATENCY := Latency(0.0, 0.0)
  const NO_FIGURE := T.Figure(0, 0, 0.0)

  /** The state after the one `start` message of a worker. `refused` says whether the socket could
      not even be made. */
  function Begun(cfg: Config, refused: bool, now: int): State {
    var s := State(cfg, false, Some(Ping), J.Reset, None, None, None, None, {},
                   NO_LATENCY, NO_FIGURE, [PhaseStart(Ping)]);
    if cfg.websocket && !refused then s.(socket := Some(Socket(0, false, true))) else NextPing(s, 0, now)
  }

  datatype Timed = Timed(ev: Event, at: int)

  function Run(s: State, events: seq<Timed>): State
    decreases |events|
  {
    if events == [] then s else Run(Step(s, events[0].ev, events[0].at), events[1..])
  }

  // ---- the protocol ----------------------------------------------------------------------

  predicate Major(m: Msg) {
    m.PhaseStart? || m.PingDone? || m.PhaseDone? || m.Result?
  }

  /** The messages about phases and the result, in the order they were posted. */
  function Majors(posted: seq<Msg>): seq<Msg> {
    if posted == [] then []
    else
      var init, last := Majors(posted[..|posted| - 1]), posted[|posted| - 1];
      if Major(last) then init + [last] else init
  }

  /** A complete run, with the figures of its three phases. */
  function Script(ping: Latency, down: T.Figure, up: T.Figure): seq<Msg> {
    [ PhaseStart(Ping), PingDone(ping),
      PhaseStart(Download), PhaseDone(Download, down.Mbps()),
      PhaseStart(Upload), PhaseDone(Upload, up.Mbps()),
      ResultOf(ping, down, up) ]
  }

  ghost predicate OnScript(majors: seq<Msg>) {
    exists ping, down, up :: majors <= Script(ping, down, up)
  }

  ghost predicate QuietAfterAbort(posted: seq<Msg>) {
    forall i, j :: 0 <= i < j < |posted| && posted[i].Aborted? ==> !Major(posted[j])
  }

  /** How many messages of the script are out when these phases are finished. */
  function Reached(finished: set<Phase>): nat {
    if Upload in finished then 7 else if Download in finished then 5 else if Ping in finished then 3 else 1
  }

  ghost predicate TransferFits(t: Option<T.Transfer>, over: bool) {
    t.Some? ==> T.SlotsOk(t.value) && (t.value.running <==> !over)
                && (over ==> !t.value.graceTimer && !t.value.endTimer && !t.value.ticker)
  }

  ghost predicate Inv(s: State) {
    && (Download in s.finished ==> Ping in s.finished && s.download.Some?)
    && (Upload in s.finished ==> Download in s.finished && s.upload.Some?)
    && (s.download.Some? ==> Ping in s.finished)
    && (s.upload.Some? ==> Download in s.finished)
    && TransferFits(s.download, Download in s.finished)
    && TransferFits(s.upload, Upload in s.finished)
    && OnScript(Majors(s.posted))
    && QuietAfterAbort(s.posted)
    && (!s.aborted ==>
          && (s.download.Some? <==> Ping in s.finished) && (s.upload.Some? <==> Download in s.finished)
          && SoFar(s.posted, s.pinged, s.downloaded, Reached(s.finished)))
  }

  /** The first `n` messages of the script are out, and no abort. */
  ghost predicate SoFar(posted: seq<Msg>, ping: Latency, down: T.Figure, n: nat) {
    && (forall i :: 0 <= i < |posted| ==> !posted[i].Aborted?)
    && exists up :: n <= |Script(ping, down, up)| && Majors(posted) == Script(ping, down, up)[..n]
  }

  lemma MajorsSnoc(posted: seq<Msg>, m: Msg)
    ensures Majors(posted + [m]) == if Major(m) then Majors(posted) + [m] else Majors(posted)
  {
    assert (posted + [m])[..|posted|] == posted;
  }

  /** The ping accumulators, socket and request chain do not matter to the protocol. */
  lemma AuxOk(s: State, pings: J.Browser, socket: Option<Socket>, chain: Option<Chain>)
    requires Inv(s)
    ensures Inv(s.(pings := pings, socket := socket, chain := chain))
  {
  }

  lemma MinorOk(s: State, m: Msg)
    requires Inv(s) && !Major(m) && (m.Aborted? ==> s.aborted)
    ensures Inv(Post(s, m))
  {
    MajorsSnoc(s.posted, m);
  }

  lemma TwoMore(script: seq<Msg>, n: nat)
    requires n + 2 <= |script|
    ensures script[..n] + [script[n]] + [script[n + 1]] == script[..n + 2]
  {
  }

  lemma StillNoAbort(posted: seq<Msg>, a: Msg, b: Msg)
    requires !a.Aborted? && !b.Aborted? && forall i :: 0 <= i < |posted| ==> !posted[i].Aborted?
    ensures forall i :: 0 <= i < |posted + [a] + [b]| ==> !(posted + [a] + [b])[i].Aborted?
    ensures QuietAfterAbort(posted + [a] + [b])
  {
  }

  /** Posting the next two messages of the script. */
  lemma PostTwo(posted: seq<Msg>, a: Msg, b: Msg, ping: Latency, down: T.Figure, up: T.Figure, n: nat)
    requires n + 2 <= 7 && Majors(posted) == Script(ping, down, up)[..n]
    requires Script(ping, down, up)[n] == a && Script(ping, down, up)[n + 1] == b && Major(a) && Major(b)
    requires forall i :: 0 <= i < |posted| ==> !posted[i].Aborted?
    ensures var all := posted + [a] + [b];
            SoFar(all, ping, down, n + 2) && OnScript(Majors(all)) && QuietAfterAbort(all)
  {
    var script, all := Script(ping, down, up), posted + [a] + [b];
    assert Majors(all) == script[..n + 2] by {
      MajorsSnoc(posted, a);
      MajorsSnoc(posted + [a], b);
      TwoMore(script, n);
    }
    StillNoAbort(posted, a, b);
    assert Majors(all) <= script;
  }

  lemma PostedPing(posted: seq<Msg>, was: Latency, down: T.Figure, ping: Latency)
    requires SoFar(posted, was, down, 1)
    ensures var all := posted + [PingDone(ping)] + [PhaseStart(Download)];
            SoFar(all, ping, down, 3) && OnScript(Majors(all)) && QuietAfterAbort(all)
  {
    var up :| Majors(posted) == Script(was, down, up)[..1];
    assert Majors(posted) == Script(ping, down, up)[..1];
    PostTwo(posted, PingDone(ping), PhaseStart(Download), ping, down, up, 1);
  }

  lemma PostedDownload(posted: seq<Msg>, ping: Latency, was: T.Figure, down: T.Figure)
    requires SoFar(posted, ping, was, 3)
    ensures var all := posted + [PhaseDone(Download, down.Mbps())] + [PhaseStart(Upload)];
            SoFar(all, ping, down, 5) && OnScript(Majors(all)) && QuietAfterAbort(all)
  {
    var up :| Majors(posted) == Script(ping, was, up)[..3];
    assert Majors(posted) == Script(ping, down, up)[..3];
    PostTwo(posted, PhaseDone(Download, down.Mbps()), PhaseStart(Upload), ping, down, up, 3);
  }

  lemma PostedUpload(posted: seq<Msg>, ping: Latency, down: T.Figure, up: T.Figure)
    requires SoFar(posted, ping, down, 5)
    ensures var all := posted + [PhaseDone(Upload, up.Mbps())] + [ResultOf(ping, down, up)];
            SoFar(all, ping, down, 7) && OnScript(Majors(all)) && QuietAfterAbort(all)
  {
    var any :| Majors(posted) == Script(ping, down, any)[..5];
    assert Majors(posted) == Script(ping, down, up)[..5];
    PostTwo(posted, PhaseDone(Upload, up.Mbps()), ResultOf(ping, down, up), ping, down, up, 5);
  }

  lemma FinishPingOk(s: State, now: int)
    requires Inv(s)
    ensures Inv(FinishPing(s, now))
  {
    if Ping !in s.finished && !s.aborted {
      PostedPing(s.posted, s.pinged, s.downloaded, LatencyOf(s.pings));
      T.BegunOk(s.cfg.downloadStreams, now);
      T.BegunRunning(s.cfg.downloadStreams, now);
    }
  }

  lemma FinishDownloadOk(s: State, now: int)
    requires Inv(s)
    ensures Inv(FinishDownload(s, now))
  {
    if Download !in s.finished && s.download.Some? {
      T.StoppedOk(s.download.value);
      if !s.aborted {
        PostedDownload(s.posted, s.pinged, s.downloaded, FinishDownload(s, now).downloaded);
        T.BegunOk(s.cfg.uploadStreams, now);
        T.BegunRunning(s.cfg.uploadStreams, now);
      }
    }
  }

  lemma FinishUploadOk(s: State, now: int)
    requires Inv(s)
    ensures Inv(FinishUpload(s, now))
  {
    if Upload !in s.finished && s.upload.Some? {
      T.StoppedOk(s.upload.value);
      if !s.aborted {
        PostedUpload(s.posted, s.pinged, s.downloaded, T.Compute(T.Stopped(s.upload.value), now, s.cfg.overhead));
      }
    }
  }

  lemma FinishOk(s: State, phase: Phase, now: int)
    requires Inv(s)
    ensures Inv(Finish(s, phase, now))
  {
    match phase
    case Ping => FinishPingOk(s, now);
    case Download => FinishDownloadOk(s, now);
    case Upload => FinishUploadOk(s, now);
  }

  lemma NextPingOk(s: State, count: nat, now: int)
    requires Inv(s)
    ensures Inv(NextPing(s, count, now))
  {
    AuxOk(s, s.pings, s.socket, Some(Chain(count, false)));
    AuxOk(s, s.pings, s.socket, Some(Chain(count, true)));
    FinishPingOk(s.(chain := Some(Chain(count, false))), now);
  }

  lemma FallbackOk(s: State, k: Socket, now: int)
    requires Inv(s)
    ensures Inv(NextPing(s.(socket := Some(k)), 0, now))
  {
    AuxOk(s, s.pings, Some(k), s.chain);
    NextPingOk(s.(socket := Some(k)), 0, now);
  }

  lemma SampleOk(s: State, rtt: int, count: nat)
    requires Inv(s)
    ensures Inv(Sample(s, rtt, count))
  {
    var pings := J.Sampled(s.pings, J.Ms(rtt));
    AuxOk(s, pings, s.socket, s.chain);
    MinorOk(s.(pings := pings), PingUpdate(LatencyOf(pings), Share(count, s.cfg.samples)));
  }

  lemma EchoTakenOk(s: State, k: Socket, rtt: int)
    requires Inv(s)
    ensures Inv(Sample(s.(socket := Some(k)), rtt, k.count))
  {
    AuxOk(s, s.pings, Some(k), s.chain);
    SampleOk(s.(socket := Some(k)), rtt, k.count);
  }

  lemma EchoOk(s: State, k: Socket, rtt: int, now: int)
    requires Inv(s)
    ensures Inv(OnSocket(s, k, SocketEcho(rtt), now))
  {
    var t := OnSocket(s, k, SocketEcho(rtt), now);
    if s.aborted {
      assert t == s;
    } else {
      var heard := k.(count := k.count + 1);
      var e := Sample(s.(socket := Some(heard)), rtt, heard.count);
      EchoTakenOk(s, heard, rtt);
      FinishPingOk(e, now);
      assert t == e || t == FinishPing(e, now);
    }
  }

  lemma OnSocketOk(s: State, k: Socket, ev: Event, now: int)
    requires Inv(s)
    ensures Inv(OnSocket(s, k, ev, now))
  {
    AuxOk(s, s.pings, Some(k.(timer := false)), s.chain);
    match ev
    case SocketEcho(rtt) => EchoOk(s, k, rtt, now);
    case SocketClose => FinishPingOk(s, now);
    case SocketError => FallbackOk(s, k.(usedFallback := true, timer := false), now);
    case SocketTimeout(_) => FallbackOk(s, k.(usedFallback := true, timer := false), now);
    case _ =>
  }

  lemma AbortOk(s: State, now: int)
    requires Inv(s)
    ensures Inv(Step(s, Abort, now))
  {
    var a := s.(aborted := true);
    assert Inv(a);
    if s.current.Some? { FinishOk(a, s.current.value, now); }
    var f := if s.current.Some? then Finish(a, s.current.value, now) else a;
    assert f.aborted;
    MinorOk(f, Msg.Aborted);
  }

  lemma NextSampleOk(s: State, rtt: int, count: nat, now: int)
    requires Inv(s)
    ensures Inv(NextPing(Sample(s, rtt, count), count, now))
  {
    SampleOk(s, rtt, count);
    NextPingOk(Sample(s, rtt, count), count, now);
  }

  lemma PingLoadedOk(s: State, rtt: int, now: int)
    requires Inv(s)
    ensures Inv(Step(s, PingLoaded(rtt), now))
  {
    var t := Step(s, PingLoaded(rtt), now);
    if s.chain.Some? && s.chain.value.waiting {
      var count := s.chain.value.count + 1;
      assert t == NextPing(Sample(s, rtt, count), count, now);
      NextSampleOk(s, rtt, count, now);
    } else {
      assert t == s;
    }
  }

  lemma TickOk(s: State, phase: Phase, t: T.Transfer, now: int)
    requires Inv(s)
    ensures Inv(Post(s, Progress(phase, T.Compute(t, now, s.cfg.overhead).Mbps(), PctOf(now - t.t0, s.cfg.duration))))
  {
    MinorOk(s, Progress(phase, T.Compute(t, now, s.cfg.overhead).Mbps(), PctOf(now - t.t0, s.cfg.duration)));
  }

  lemma HandledOk(s: State, phase: Phase, t: T.Transfer, e: T.Event, now: int)
    requires Inv(s) && TransferOf(s, phase) == Some(t)
    ensures Inv(WithTransfer(s, phase, T.Handle(t, e, now)))
  {
    T.HandleOk(t, e, now);
  }

  lemma TransferOk(s: State, phase: Phase, e: T.Event, now: int)
    requires Inv(s)
    ensures Inv(Step(s, Transfer(phase, e), now))
  {
    var t := TransferOf(s, phase);
    if t.Some? && e.Tick? {
      TickOk(s, phase, t.value, now);
    } else if t.Some? {
      HandledOk(s, phase, t.value, e, now);
    }
  }

  lemma StepOk(s: State, ev: Event, now: int)
    requires Inv(s)
    ensures Inv(Step(s, ev, now))
  {
    match ev
    case Abort => AbortOk(s, now);
    case PingLoaded(rtt) => PingLoadedOk(s, rtt, now);
    case PingFailed => if s.chain.Some? { NextPingOk(s, s.chain.value.count + 1, now); }
    case Transfer(phase, e) => TransferOk(s, phase, e, now);
    case End(phase) => FinishOk(s, phase, now);
    case _ => if s.socket.Some? { OnSocketOk(s, s.socket.value, ev, now); }
  }

  lemma JustStarted(s: State)
    requires s.posted == [PhaseStart(Ping)] && !s.aborted && s.finished == {} && s.download.None? && s.upload.None?
    ensures Inv(s)
  {
    MajorsSnoc([], PhaseStart(Ping));
    assert [] + [PhaseStart(Ping)] == [PhaseStart(Ping)];
    assert Majors(s.posted) == Script(s.pinged, s.downloaded, NO_FIGURE)[..1];
  }

  lemma BegunInv(cfg: Config, refused: bool, now: int)
    ensures Inv(Begun(cfg, refused, now))
  {
    var s := State(cfg, false, Some(Ping), J.Reset, None, None, None, None, {},
                   NO_LATENCY, NO_FIGURE, [PhaseStart(Ping)]);
    JustStarted(s);
    AuxOk(s, s.pings, Some(Socket(0, false, true)), s.chain);
    NextPingOk(s, 0, now);
  }

  lemma {:induction false} RunInv(s: State, events: seq<Timed>)
    requires Inv(s)
    ensures Inv(Run(s, events))
    decreases |events|
  {
    if events != [] {
      StepOk(s, events[0].ev, events[0].at);
      RunInv(Step(s, events[0].ev, events[0].at), events[1..]);
    }
  }

  lemma FinishSilent(s: State, phase: Phase, now: int)
    requires s.aborted
    ensures Finish(s, phase, now).aborted && Finish(s, phase, now).posted == s.posted
  {
  }

  lemma NextPingSilent(s: State, count: nat, now: int)
    requires s.aborted
    ensures NextPing(s, count, now).aborted && NextPing(s, count, now).posted == s.posted
  {
  }

  /** An abort, and whatever comes after one, posts no message about phases and no result. */
  lemma AbortSilences(s: State, ev: Event, now: int)
    requires s.aborted || ev.Abort?
    ensures Step(s, ev, now).aborted && Majors(Step(s, ev, now).posted) == Majors(s.posted)
  {
    match ev
    case Abort =>
      var a := s.(aborted := true);
      if s.current.Some? { FinishSilent(a, s.current.value, now); }
      MajorsSnoc(s.posted, Msg.Aborted);
    case PingLoaded(rtt) =>
      if s.chain.Some? {
        var taken := Sample(s, rtt, s.chain.value.count + 1);
        NextPingSilent(taken, s.chain.value.count + 1, now);
        MajorsSnoc(s.posted, PingUpdate(LatencyOf(taken.pings), Share(s.chain.value.count + 1, s.cfg.samples)));
      }
    case PingFailed => if s.chain.Some? { NextPingSilent(s, s.chain.value.count + 1, now); }
    case End(phase) => FinishSilent(s, phase, now);
    case _ =>
  }

  lemma {:induction false} SilentRun(s: State, events: seq<Timed>)
    requires s.aborted
    ensures Run(s, events).aborted && Majors(Run(s, events).posted) == Majors(s.posted)
    decreases |events|
  {
    if events != [] {
      AbortSilences(s, events[0].ev, events[0].at);
      SilentRun(Step(s, events[0].ev, events[0].at), events[1..]);
    }
  }

  lemma {:induction false} RunAppend(s: State, a: seq<Timed>, b: seq<Timed>)
    ensures Run(s, a + b) == Run(Run(s, a), b)
    decreases |a|
  {
    if a == [] {
      assert a + b == b;
    } else {
      assert (a + b)[1..] == a[1..] + b;
      RunAppend(Step(s, a[0].ev, a[0].at), a[1..], b);
    }
  }

  lemma RunNext(s: State, events: seq<Timed>, k: nat)
    requires k < |events|
    ensures Run(s, events[..k + 1]) == Step(Run(s, events[..k]), events[k].ev, events[k].at)
  {
    assert events[..k + 1] == events[..k] + [events[k]];
    RunAppend(s, events[..k], [events[k]]);
    assert [events[k]][1..] == [];
  }

  lemma SilentAfter(s: State, e: Timed, rest: seq<Timed>)
    requires e.ev.Abort?
    ensures Majors(Run(s, [e] + rest).posted) == Majors(s.posted)
  {
    AbortSilences(s, e.ev, e.at);
    SilentRun(Step(s, e.ev, e.at), rest);
    assert ([e] + rest)[1..] == rest;
  }

  /** The messages about phases and the result are those from before the abort. */
  lemma SilentFrom(s: State, events: seq<Timed>, k: nat)
    requires k < |events| && events[k].ev.Abort?
    ensures Majors(Run(s, events).posted) == Majors(Run(s, events[..k]).posted)
  {
    RunAppend(s, events[..k], events[k..]);
    assert events == events[..k] + events[k..] && events[k..] == [events[k]] + events[k + 1..];
    SilentAfter(Run(s, events[..k]), events[k], events[k + 1..]);
  }

  ghost predicate NoAbort(events: seq<Timed>) {
    forall k :: 0 <= k < |events| ==> !events[k].ev.Abort?
  }

  lemma FinishKeeps(s: State, phase: Phase, now: int)
    ensures Finish(s, phase, now).aborted == s.aborted
  {
  }

  lemma {:induction false} NotAborted(s: State, events: seq<Timed>)
    requires !s.aborted && NoAbort(events)
    ensures !Run(s, events).aborted
    decreases |events|
  {
    if events != [] {
      assert !events[0].ev.Abort?;
      NotAborted(Step(s, events[0].ev, events[0].at), events[1..]);
    }
  }

  lemma {:induction false} MajorKept(posted: seq<Msg>, i: nat)
    requires i < |posted| && Major(posted[i])
    ensures posted[i] in Majors(posted)
  {
    if i < |posted| - 1 { MajorKept(posted[..|posted| - 1], i); }
  }

  ghost predicate Complete(majors: seq<Msg>, result: Msg, ping: Latency, down: T.Figure, up: T.Figure) {
    majors == Script(ping, down, up) && result == ResultOf(ping, down, up)
  }

  /** A result is posted only as the end of a complete run, and repeats its figures. */
  lemma ResultEndsScript(posted: seq<Msg>, i: nat)
    requires OnScript(Majors(posted)) && i < |posted| && posted[i].Result?
    ensures exists ping, down, up :: Complete(Majors(posted), posted[i], ping, down, up)
  {
    MajorKept(posted, i);
    var majors := Majors(posted);
    var ping, down, up :| majors <= Script(ping, down, up);
    var j :| 0 <= j < |majors| && majors[j] == posted[i];
    PrefixWithResult(majors, ping, down, up, j);
    assert Complete(majors, posted[i], ping, down, up);
  }

  lemma PrefixWithResult(majors: seq<Msg>, ping: Latency, down: T.Figure, up: T.Figure, j: nat)
    requires majors <= Script(ping, down, up) && j < |majors| && majors[j].Result?
    ensures Complete(majors, majors[j], ping, down, up)
  {
    assert majors[j] == Script(ping, down, up)[j];
    ResultIsLast(ping, down, up, j);
  }

  lemma ResultIsLast(ping: Latency, down: T.Figure, up: T.Figure, j: nat)
    requires j < |Script(ping, down, up)| && Script(ping, down, up)[j].Result?
    ensures j == 6 && |Script(ping, down, up)| == 7
  {
  }

  /** For every order of events after one start: the phase messages and the result come in the
      order of the script, each at most once; without an abort the script is out exactly as far as
      phases are finished, and with one exactly as far as it was before the abort; and the slots
      of both transfers are kept as they should be throughout. */
  lemma Protocol(cfg: Config, refused: bool, start: int, events: seq<Timed>)
    ensures var begun := Begun(cfg, refused, start);
            var s := Run(begun, events);
            && OnScript(Majors(s.posted)) && QuietAfterAbort(s.posted)
            && (NoAbort(events) ==> |Majors(s.posted)| == Reached(s.finished))
            && (forall k :: 0 <= k < |events| && events[k].ev.Abort? ==>
                  Majors(s.posted) == Majors(Run(begun, events[..k]).posted))
            && (s.download.Some? ==> T.SlotsOk(s.download.value))
            && (s.upload.Some? ==> T.SlotsOk(s.upload.value))
  {
    var begun := Begun(cfg, refused, start);
    BegunInv(cfg, refused, start);
    RunInv(begun, events);
    if NoAbort(events) { NotAborted(begun, events); }
    forall k | 0 <= k < |events| && events[k].ev.Abort?
      ensures Majors(Run(begun, events).posted) == Majors(Run(begun, events[..k]).posted) {
      SilentFrom(begun, events, k);
    }
  }

  // ---- the worker's globals and callbacks ------------------------------------------------

  class Worker {
    const cfg: Config
    var aborted: bool
    var currentAbort: Option<Phase>
    var minPing: Option<real>
    var jitter: real
    var prevRtt: Option<real>
    var socket: Option<Socket>
    var chain: Option<Chain>
    var download: T.Engine?
    var upload: T.Engine?
    var finished: set<Phase>
    var pinged: Latency
    var downloaded: T.Figure
    var posted: seq<Msg>

    function Engines(): set<T.Engine>
      reads this
    {
      (if download == null then {} else {download}) + if upload == null then {} else {upload}
    }

    ghost predicate Valid()
      reads this
    {
      download != null ==> download != upload
    }

    function Value(): State
      reads this, Engines()
    {
      State(cfg, aborted, currentAbort, J.Browser(minPing, jitter, prevRtt), socket, chain,
            if download == null then None else Some(download.Value()),
            if upload == null then None else Some(upload.Value()),
            finished, pinged, downloaded, posted)
    }

    constructor (cfg: Config, refused: bool, now: int)
      ensures Valid() && Value() == Begun(cfg, refused, now) && fresh(Engines())
    {
      this.cfg := cfg;
      aborted, currentAbort := false, Some(Ping);
      minPing, jitter, prevRtt := None, 0.0, None;
      socket, chain, download, upload := None, None, null, null;
      finished, pinged, downloaded, posted := {}, NO_LATENCY, NO_FIGURE, [PhaseStart(Ping)];
      new;
      if cfg.websocket && !refused {
        socket := Some(Socket(0, false, true));
      } else {
        Next(0, now);
      }
    }

    method AddSample(rtt: real)
      modifies this`minPing, this`jitter, this`prevRtt
      ensures Value() == old(Value()).(pings := J.Sampled(old(Value()).pings, rtt))
    {
      if minPing.None? || rtt < minPing.value {
        minPing := Some(rtt);
      }
      if prevRtt.Some? {
        var inst := J.Abs(rtt - prevRtt.value);
        if inst > jitter {
          jitter := 0.3 * jitter + 0.7 * inst;
        } else {
          jitter := 0.8 * jitter + 0.2 * inst;
        }
      }
      prevRtt := Some(rtt);
    }

    method PostPing(count: nat)
      modifies this`posted
      ensures Value() == Post(old(Value()), PingUpdate(LatencyOf(old(Value()).pings), Share(count, cfg.samples)))
    {
      var latency := Latency(if minPing.Some? then minPing.value else 0.0, jitter);
      posted := posted + [PingUpdate(latency, Share(count, cfg.samples))];
    }

    method TakeSample(rtt: int, count: nat)
      modifies this`minPing, this`jitter, this`prevRtt, this`posted
      ensures Value() == Sample(old(Value()), rtt, count)
    {
      AddSample(J.Ms(rtt));
      PostPing(count);
    }

    method TakeEcho(rtt: int) returns (count: nat)
      requires socket.Some?
      modifies this`socket, this`minPing, this`jitter, this`prevRtt, this`posted
      ensures count == old(socket.value.count) + 1
      ensures Value() == Sample(old(Value()).(socket := Some(old(socket.value).(count := count))), rtt, count)
    {
      count := socket.value.count + 1;
      socket := Some(socket.value.(count := count));
      TakeSample(rtt, count);
    }

    /** The end of the ping phase. */
    method EndPing(now: int)
      requires Valid()
      modifies this`finished, this`pinged, this`posted, this`download, this`currentAbort
      ensures Valid() && Value() == FinishPing(old(Value()), now)
      ensures fresh(Engines() - old(Engines()))
    {
      if Ping in finished {
        return;
      }
      finished := finished + {Ping};
      PingCallback(now);
    }

    /** Its done callback starts the download. */
    method PingCallback(now: int)
      requires Valid()
      modifies this`pinged, this`posted, this`download, this`currentAbort
      ensures Valid() && Value() == AfterPing(old(Value()), now)
      ensures fresh(Engines() - old(Engines()))
    {
      if aborted {
        return;
      }
      pinged := Latency(if minPing.Some? then minPing.value else 0.0, jitter);
      posted := posted + [PingDone(pinged)];
      posted := posted + [PhaseStart(Download)];
      download := new T.Engine(cfg.downloadStreams, now);
      currentAbort := Some(Download);
    }

    method EndDownload(now: int)
      requires Valid()
      modifies this, Engines()
      ensures Valid() && Value() == FinishDownload(old(Value()), now)
      ensures fresh(Engines() - old(Engines()))
    {
      if Download in finished || download == null {
        return;
      }
      finished := finished + {Download};
      download.Stop();
      DownloadCallback(T.Compute(download.Value(), now, cfg.overhead), now);
    }

    method DownloadCallback(figure: T.Figure, now: int)
      requires Valid() && download != null
      modifies this`downloaded, this`posted, this`upload, this`currentAbort
      ensures Valid() && Value() == AfterDownload(old(Value()), figure, now)
      ensures fresh(Engines() - old(Engines()))
    {
      if aborted {
        return;
      }
      downloaded := figure;
      posted := posted + [PhaseDone(Download, figure.Mbps())];
      posted := posted + [PhaseStart(Upload)];
      upload := new T.Engine(cfg.uploadStreams, now);
      currentAbort := Some(Upload);
    }

    method EndUpload(now: int)
      requires Valid()
      modifies this, Engines()
      ensures Valid() && Value() == FinishUpload(old(Value()), now)
      ensures Engines() == old(Engines())
    {
      if Upload in finished || upload == null {
        return;
      }
      finished := finished + {Upload};
      upload.Stop();
      UploadCallback(T.Compute(upload.Value(), now, cfg.overhead));
    }

    method UploadCallback(figure: T.Figure)
      modifies this`posted, this`currentAbort
      ensures Value() == AfterUpload(old(Value()), figure)
    {
      if aborted {
        return;
      }
      posted := posted + [PhaseDone(Upload, figure.Mbps())];
      currentAbort := None;
      posted := posted + [ResultOf(pinged, downloaded, figure)];
    }

    method EndPhase(phase: Phase, now: int)
      requires Valid()
      modifies this, Engines()
      ensures Valid() && Value() == Finish(old(Value()), phase, now)
      ensures fresh(Engines() - old(Engines()))
    {
      match phase
      case Ping => EndPing(now);
      case Download => EndDownload(now);
      case Upload => EndUpload(now);
    }

    method Next(count: nat, now: int)
      requires Valid()
      modifies this`chain, this`finished, this`pinged, this`posted, this`download, this`currentAbort
      ensures Valid() && Value() == NextPing(old(Value()), count, now)
      ensures fresh(Engines() - old(Engines()))
    {
      if aborted || count >= cfg.samples {
        chain := Some(Chain(count, false));
        EndPing(now);
      } else {
        chain := Some(Chain(count, true));
      }
    }

    method OnAbort(now: int)
      requires Valid()
      modifies this, Engines()
      ensures Valid() && Value() == Step(old(Value()), Abort, now)
      ensures fresh(Engines() - old(Engines()))
    {
      aborted := true;
      if currentAbort.Some? {
        EndPhase(currentAbort.value, now);
      }
      posted := posted + [Msg.Aborted];
    }

    method OnPingLoad(rtt: int, now: int)
      requires Valid() && chain.Some? && chain.value.waiting
      modifies this
      ensures Valid() && Value() == Step(old(Value()), PingLoaded(rtt), now)
      ensures fresh(Engines() - old(Engines()))
    {
      var count := chain.value.count + 1;
      TakeSample(rtt, count);
      Next(count, now);
    }

    method OnPingError(now: int)
      requires Valid() && chain.Some? && chain.value.waiting
      modifies this
      ensures Valid() && Value() == Step(old(Value()), PingFailed, now)
      ensures fresh(Engines() - old(Engines()))
    {
      Next(chain.value.count + 1, now);
    }

    method OnSocketOpen(now: int)
      requires Valid() && socket.Some?
      modifies this`socket
      ensures Valid() && Value() == Step(old(Value()), SocketOpen, now)
      ensures fresh(Engines() - old(Engines()))
    {
      socket := Some(socket.value.(timer := false));
    }

    method OnSocketMessage(rtt: int, now: int)
      requires Valid() && socket.Some?
      modifies this
      ensures Valid() && Value() == Step(old(Value()), SocketEcho(rtt), now)
      ensures fresh(Engines() - old(Engines()))
    {
      if aborted {
        return;
      }
      var count := TakeEcho(rtt);
      if count >= cfg.samples {
        EndPing(now);
      }
    }

    method OnSocketError(now: int)
      requires Valid() && socket.Some?
      modifies this
      ensures Valid() && Value() == Step(old(Value()), SocketError, now)
      ensures fresh(Engines() - old(Engines()))
    {
      socket := Some(socket.value.(timer := false));
      if !socket.value.usedFallback && socket.value.count == 0 {
        socket := Some(socket.value.(usedFallback := true));
        Next(0, now);
      }
    }

    method OnSocketClose(now: int)
      requires Valid() && socket.Some?
      modifies this
      ensures Valid() && Value() == Step(old(Value()), SocketClose, now)
      ensures fresh(Engines() - old(Engines()))
    {
      if !socket.value.usedFallback && socket.value.count > 0 && socket.value.count < cfg.samples {
        EndPing(now);
      }
    }

    method OnSocketTimeout(connected: bool, now: int)
      requires Valid() && socket.Some? && socket.value.timer
      modifies this
      ensures Valid() && Value() == Step(old(Value()), SocketTimeout(connected), now)
      ensures fresh(Engines() - old(Engines()))
    {
      socket := Some(socket.value.(timer := false));
      if !connected && socket.value.count == 0 {
        socket := Some(socket.value.(usedFallback := true));
        Next(0, now);
      }
    }

    method OnTick(phase: Phase, now: int)
      requires Valid() && TransferOf(Value(), phase).Some? && TransferOf(Value(), phase).value.ticker
      modifies this`posted
      ensures Valid() && Value() == Step(old(Value()), Transfer(phase, T.Tick), now)
      ensures fresh(Engines() - old(Engines()))
    {
      if aborted {
        return;
      }
      var engine := if phase == Download then download else upload;
      var figure := T.Compute(engine.Value(), now, cfg.overhead);
      posted := posted + [Progress(phase, figure.Mbps(), PctOf(now - engine.t0, cfg.duration))];
    }

    method OnEndTimer(phase: Phase, now: int)
      requires Valid() && TransferOf(Value(), phase).Some? && TransferOf(Value(), phase).value.endTimer
      modifies this, Engines()
      ensures Valid() && Value() == Step(old(Value()), End(phase), now)
      ensures fresh(Engines() - old(Engines()))
    {
      EndPhase(phase, now);
    }

    /** The callbacks of a transfer's requests, retries and grace timer. */
    method OnTransfer(phase: Phase, ev: T.Event, now: int)
      requires Valid() && TransferOf(Value(), phase).Some? && !ev.Tick?
      modifies Engines()
      ensures Valid() && Value() == Step(old(Value()), Transfer(phase, ev), now)
    {
      if phase == Download {
        download.Receive(ev, now);
      } else {
        upload.Receive(ev, now);
      }
    }

    method OnSocketEvent(ev: Event, now: int)
      requires Valid() && socket.Some?
      requires ev.SocketOpen? || ev.SocketEcho? || ev.SocketError? || ev.SocketClose? || ev.SocketTimeout?
      modifies this
      ensures Valid() && Value() == Step(old(Value()), ev, now)
      ensures fresh(Engines() - old(Engines()))
    {
      match ev
      case SocketOpen => OnSocketOpen(now);
      case SocketEcho(rtt) => OnSocketMessage(rtt, now);
      case SocketError => OnSocketError(now);
      case SocketClose => OnSocketClose(now);
      case SocketTimeout(connected) => if socket.value.timer { OnSocketTimeout(connected, now); }
    }

    method OnPingEvent(ev: Event, now: int)
      requires Valid() && (ev.PingLoaded? || ev.PingFailed?)
      modifies this
      ensures Valid() && Value() == Step(old(Value()), ev, now)
      ensures fresh(Engines() - old(Engines()))
    {
      if chain.Some? && chain.value.waiting {
        if ev.PingLoaded? { OnPingLoad(ev.rtt, now); } else { OnPingError(now); }
      }
    }

    method OnPhaseEvent(ev: Event, now: int)
      requires Valid() && (ev.Transfer? || ev.End?)
      modifies this, Engines()
      ensures Valid() && Value() == Step(old(Value()), ev, now)
      ensures fresh(Engines() - old(Engines()))
    {
      var t := TransferOf(Value(), ev.phase);
      if t.Some? {
        if ev.End? {
          if t.value.endTimer { OnEndTimer(ev.phase, now); }
        } else if ev.ev.Tick? {
          if t.value.ticker { OnTick(ev.phase, now); }
        } else {
          OnTransfer(ev.phase, ev.ev, now);
        }
      }
    }

    /** Any event: its callback if it is one that can come now, and nothing if not. */
    method Dispatch(ev: Event, now: int)
      requires Valid()
      modifies this, Engines()
      ensures Valid() && Value() == Step(old(Value()), ev, now)
      ensures fresh(Engines() - old(Engines()))
    {
      match ev
      case Abort => OnAbort(now);
      case PingLoaded(_) => OnPingEvent(ev, now);
      case PingFailed => OnPingEvent(ev, now);
      case Transfer(_, _) => OnPhaseEvent(ev, now);
      case End(_) => OnPhaseEvent(ev, now);
      case _ => if socket.Some? { OnSocketEvent(ev, now); }
    }
  }

  /** The worker and its engines behave as `Run` says on every sequence of events. */
  method Replay(cfg: Config, refused: bool, start: int, events: seq<Timed>) returns (w: Worker)
    ensures w.Valid() && w.Value() == Run(Begun(cfg, refused, start), events)
  {
    w := new Worker(cfg, refused, start);
    for k := 0 to |events|
      invariant fresh(w) && fresh(w.Engines()) && w.Valid()
      invariant w.Value() == Run(Begun(cfg, refused, start), events[..k])
    {
      RunNext(Begun(cfg, refused, start), events, k);
      w.Dispatch(events[k].ev, events[k].at);
    }
    assert events[..|events|] == events;
  }
}
