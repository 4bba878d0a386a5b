/**
 That a browser run gets anywhere: when the ping phase ends, when the transfers do, when a result
 is posted, what an abort stops, and what is shown on the way. The conditions are read off the
 events alone.
 */
module Completions {
  import opened Options
  import opened BrowserWorker
  import opened Reports
  import J = Jitter
  import T = Transfers

  // ---- a run, read off its events -------------------------------------------------------------

  /** Echoes heard; whether the connect timer is off; whether the chain of requests has begun; how many
      of its requests have loaded or failed; whether the socket closed after some echoes, but not
      enough; and whether the transfers have ended. */
  datatype Tale = Tale(
    echoes: nat, timerOff: bool, chain: bool, answers: nat, closed: bool, download: bool, upload: bool)

  predicate OverSocket(cfg: Config, refused: bool) {
    cfg.websocket && !refused
  }

  /** The ping phase ends after as many answers or echoes as there are samples to take, or early. */
  predicate PingOver(cfg: Config, t: Tale) {
    || (t.chain && t.answers >= cfg.samples)
    || (t.echoes > 0 && t.echoes >= cfg.samples)
    || t.closed
  }

  /** The chain begins at once without a socket, and otherwise when the socket fails, or does not
      connect in time, before its first echo. A transfer ends with its end timer. */
  function Goes(cfg: Config, socket: bool, t: Tale, ev: Event): Tale {
    match ev
    case SocketOpen => t.(timerOff := true)
    case SocketEcho(_) => if socket then t.(echoes := t.echoes + 1) else t
    case SocketError => t.(timerOff := true, chain := t.chain || t.echoes == 0)
    case SocketTimeout(connected) =>
      t.(timerOff := true, chain := t.chain || (!t.timerOff && !connected && t.echoes == 0))
    case SocketClose => if socket && !t.chain && 0 < t.echoes < cfg.samples then t.(closed := true) else t
    case PingLoaded(_) => if t.chain && t.answers < cfg.samples then t.(answers := t.answers + 1) else t
    case PingFailed => if t.chain && t.answers < cfg.samples then t.(answers := t.answers + 1) else t
    case End(phase) =>
      if phase == Download && PingOver(cfg, t) then t.(download := true)
      else if phase == Upload && t.download then t.(upload := true)
      else t
    case _ => t
  }

  function Told(c: Course, k: nat): Tale
    requires k <= |c.events|
  {
    if k == 0 then Tale(0, false, !OverSocket(c.cfg, c.refused), 0, false, false, false)
    else Goes(c.cfg, OverSocket(c.cfg, c.refused), Told(c, k - 1), c.events[k - 1].ev)
  }

  // ---- the worker keeps to it -------------------------------------------------------------------

  ghost predicate PingKept(s: State, socket: bool, t: Tale) {
    && s.socket == (if socket then Some(Socket(t.echoes, t.chain, !t.timerOff)) else None)
    && s.chain == (if t.chain then Some(Chain(t.answers, t.answers < s.cfg.samples)) else None)
    && (!t.chain ==> socket && t.answers == 0) && (socket && t.chain ==> t.timerOff)
  }

  /** The phase under way, if any. */
  function Underway(ping: bool, download: bool, upload: bool): Option<Phase> {
    if !ping then Some(Ping) else if !download then Some(Download) else if !upload then Some(Upload) else None
  }

  ghost predicate Timed(t: Option<T.Transfer>, over: bool) {
    t.Some? && !over ==> t.value.endTimer && t.value.ticker
  }

  /** These phases are over, and the next is under way with its timers. */
  ghost predicate PhasesKept(s: State, ping: bool, download: bool, upload: bool) {
    && (upload ==> download) && (download ==> ping)
    && (Ping in s.finished <==> ping) && (Download in s.finished <==> download) && (Upload in s.finished <==> upload)
    && (s.download.Some? <==> ping) && (s.upload.Some? <==> download)
    && Timed(s.download, download) && Timed(s.upload, upload)
    && s.current == Underway(ping, download, upload)
  }

  ghost predicate Kept(s: State, socket: bool, t: Tale) {
    PingKept(s, socket, t) && PhasesKept(s, PingOver(s.cfg, t), t.download, t.upload)
  }

  /** Nothing but phases changes. */
  ghost predicate OnlyPhases(s: State, u: State) {
    u.socket == s.socket && u.chain == s.chain && u.cfg == s.cfg
  }

  lemma PingEnds(s: State, now: int, ping: bool, download: bool, upload: bool)
    requires !s.aborted && PhasesKept(s, ping, download, upload)
    ensures var u := FinishPing(s, now); PhasesKept(u, true, download, upload) && OnlyPhases(s, u)
  {
    T.BegunRunning(s.cfg.downloadStreams, now);
  }

  lemma DownloadEnds(s: State, now: int, ping: bool, download: bool, upload: bool)
    requires !s.aborted && PhasesKept(s, ping, download, upload)
    ensures var u := FinishDownload(s, now); PhasesKept(u, ping, download || ping, upload) && OnlyPhases(s, u)
  {
    T.BegunRunning(s.cfg.uploadStreams, now);
  }

  lemma UploadEnds(s: State, now: int, ping: bool, download: bool, upload: bool)
    requires !s.aborted && PhasesKept(s, ping, download, upload)
    ensures var u := FinishUpload(s, now); PhasesKept(u, ping, download, upload || download) && OnlyPhases(s, u)
  {
  }

  lemma ChainGoes(s: State, count: nat, now: int, ping: bool, download: bool, upload: bool)
    requires !s.aborted && PhasesKept(s, ping, download, upload)
    ensures var u := NextPing(s, count, now);
            && PhasesKept(u, ping || count >= s.cfg.samples, download, upload) && u.socket == s.socket && u.cfg == s.cfg
            && u.chain == Some(Chain(count, count < s.cfg.samples))
  {
    PingEnds(s.(chain := Some(Chain(count, false))), now, ping, download, upload);
  }

  lemma EndGoes(s: State, phase: Phase, now: int, socket: bool, t: Tale)
    requires !s.aborted && Kept(s, socket, t)
    ensures Kept(Step(s, End(phase), now), socket, Goes(s.cfg, socket, t, End(phase)))
  {
    DownloadEnds(s, now, PingOver(s.cfg, t), t.download, t.upload);
    UploadEnds(s, now, PingOver(s.cfg, t), t.download, t.upload);
  }

  lemma TransferGoes(s: State, phase: Phase, e: T.Event, now: int, socket: bool, t: Tale)
    requires !s.aborted && Kept(s, socket, t)
    ensures Kept(Step(s, Transfer(phase, e), now), socket, t)
  {
  }

  lemma LinkGoes(s: State, u: State, count: nat, now: int, ping: bool, download: bool, upload: bool)
    requires !s.aborted && PhasesKept(s, ping, download, upload)
    requires u == s.(pings := u.pings, posted := u.posted)
    ensures var v := NextPing(u, count, now);
            && PhasesKept(v, ping || count >= s.cfg.samples, download, upload) && v.socket == s.socket && v.cfg == s.cfg
            && v.chain == Some(Chain(count, count < s.cfg.samples))
  {
    assert PhasesKept(u, ping, download, upload);
    ChainGoes(u, count, now, ping, download, upload);
  }

  lemma AnswerGoes(s: State, ev: Event, now: int, socket: bool, t: Tale)
    requires !s.aborted && Kept(s, socket, t) && (ev.PingLoaded? || ev.PingFailed?)
    ensures Kept(Step(s, ev, now), socket, Goes(s.cfg, socket, t, ev))
  {
    if t.chain && t.answers < s.cfg.samples {
      var u := if ev.PingLoaded? then Sample(s, ev.rtt, t.answers + 1) else s;
      LinkGoes(s, u, t.answers + 1, now, PingOver(s.cfg, t), t.download, t.upload);
    }
  }

  lemma EchoGoes(s: State, rtt: int, now: int, t: Tale)
    requires !s.aborted && Kept(s, true, t)
    ensures Kept(Step(s, SocketEcho(rtt), now), true, Goes(s.cfg, true, t, SocketEcho(rtt)))
  {
    var u := Sample(s.(socket := Some(s.socket.value.(count := t.echoes + 1))), rtt, t.echoes + 1);
    assert PhasesKept(u, PingOver(s.cfg, t), t.download, t.upload);
    PingEnds(u, now, PingOver(s.cfg, t), t.download, t.upload);
  }

  lemma FallBackGoes(s: State, ev: Event, now: int, t: Tale)
    requires !s.aborted && Kept(s, true, t) && (ev.SocketError? || ev.SocketTimeout?)
    ensures Kept(Step(s, ev, now), true, Goes(s.cfg, true, t, ev))
  {
    var k := s.socket.value.(usedFallback := true, timer := false);
    var u := s.(socket := Some(k));
    assert PhasesKept(u, PingOver(s.cfg, t), t.download, t.upload);
    ChainGoes(u, 0, now, PingOver(s.cfg, t), t.download, t.upload);
  }

  lemma SocketGoes(s: State, ev: Event, now: int, t: Tale)
    requires !s.aborted && Kept(s, true, t)
    requires ev.SocketOpen? || ev.SocketEcho? || ev.SocketError? || ev.SocketClose? || ev.SocketTimeout?
    ensures Kept(Step(s, ev, now), true, Goes(s.cfg, true, t, ev))
  {
    match ev
    case SocketEcho(rtt) => EchoGoes(s, rtt, now, t);
    case SocketClose => PingEnds(s, now, PingOver(s.cfg, t), t.download, t.upload);
    case SocketOpen =>
    case _ => FallBackGoes(s, ev, now, t);
  }

  /** One event without an abort, on the worker and on the tale. */
  lemma StepGoes(s: State, ev: Event, now: int, socket: bool, t: Tale)
    requires !s.aborted && !ev.Abort? && Kept(s, socket, t)
    ensures Kept(Step(s, ev, now), socket, Goes(s.cfg, socket, t, ev))
  {
    match ev
    case Abort =>
    case PingLoaded(_) => AnswerGoes(s, ev, now, socket, t);
    case PingFailed => AnswerGoes(s, ev, now, socket, t);
    case Transfer(phase, e) => TransferGoes(s, phase, e, now, socket, t);
    case End(phase) => EndGoes(s, phase, now, socket, t);
    case _ =>
      if socket { SocketGoes(s, ev, now, t); }
  }

  lemma BegunKept(cfg: Config, refused: bool, start: int)
    ensures var s := Begun(cfg, refused, start); var socket := OverSocket(cfg, refused);
            !s.aborted && s.cfg == cfg && Kept(s, socket, Tale(0, false, !socket, 0, false, false, false))
  {
    var s := State(cfg, false, Some(Ping), J.Reset, None, None, None, None, {}, NO_LATENCY, NO_FIGURE,
                   [PhaseStart(Ping)]);
    assert PhasesKept(s, false, false, false);
    ChainGoes(s, 0, start, false, false, false);
  }

  /** Only an abort aborts, and for good. */
  lemma StillRunning(c: Course, k: nat)
    requires k < |c.events|
    ensures c.At(k + 1).aborted <==> c.At(k).aborted || c.events[k].ev.Abort?
  {
    var e := c.events[k];
    AtNext(c, k);
    Keeps(c.At(k), e.ev, e.at);
    if c.At(k).aborted || e.ev.Abort? { AbortSilences(c.At(k), e.ev, e.at); }
  }

  lemma {:induction false} KeptAt(c: Course, k: nat)
    requires k <= |c.events| && !c.At(k).aborted
    ensures c.At(k).cfg == c.cfg && Kept(c.At(k), OverSocket(c.cfg, c.refused), Told(c, k))
  {
    if k == 0 {
      assert c.events[..0] == [];
      BegunKept(c.cfg, c.refused, c.start);
    } else {
      var e := c.events[k - 1];
      AtNext(c, k - 1);
      StillRunning(c, k - 1);
      KeptAt(c, k - 1);
      Keeps(c.At(k - 1), e.ev, e.at);
      StepGoes(c.At(k - 1), e.ev, e.at, OverSocket(c.cfg, c.refused), Told(c, k - 1));
    }
  }

  lemma {:induction false} AbortedExactly(c: Course, k: nat)
    requires k <= |c.events|
    ensures c.At(k).aborted <==> !NoAbort(c.events[..k])
  {
    if k == 0 {
      assert c.events[..0] == [];
      BegunKept(c.cfg, c.refused, c.start);
    } else {
      StillRunning(c, k - 1);
      AbortedExactly(c, k - 1);
      assert c.events[..k] == c.events[..k - 1] + [c.events[k - 1]];
      NoAbortSnoc(c.events[..k - 1], c.events[k - 1]);
    }
  }

  lemma NoAbortSnoc(events: seq<BrowserWorker.Timed>, e: BrowserWorker.Timed)
    ensures NoAbort(events + [e]) <==> NoAbort(events) && !e.ev.Abort?
  {
    var all := events + [e];
    if NoAbort(all) {
      forall i | 0 <= i < |events| ensures !events[i].ev.Abort? { assert !all[i].ev.Abort?; }
      assert !all[|events|].ev.Abort?;
    }
  }

  lemma NoAbortBefore(events: seq<BrowserWorker.Timed>, i: nat, k: nat)
    requires i <= k <= |events| && NoAbort(events[..k])
    ensures NoAbort(events[..i])
  {
    var few, many := events[..i], events[..k];
    forall j | 0 <= j < |few| ensures !few[j].ev.Abort? { assert !many[j].ev.Abort?; }
  }

  // ---- the end of each phase -------------------------------------------------------------------

  /** Without an abort, the ping phase has ended exactly when enough requests of the chain have loaded or
      failed, or enough echoes were heard, or the socket closed in between. */
  lemma PingEndsExactly(c: Course, k: nat)
    requires k <= |c.events| && NoAbort(c.events[..k])
    ensures Ping in c.At(k).finished <==> PingOver(c.cfg, Told(c, k))
  {
    AbortedExactly(c, k);
    KeptAt(c, k);
  }

  ghost predicate EndsDownload(c: Course, d: nat)
    requires d < |c.events|
  {
    c.events[d].ev == End(Download) && PingOver(c.cfg, Told(c, d))
  }

  /** The end timer of the download comes with the d-th event, after the ping phase, and that of the
      upload with the u-th, after it. */
  ghost predicate Ending(c: Course, d: nat, u: nat) {
    d < u < |c.events| && EndsDownload(c, d) && c.events[u].ev == End(Upload)
  }

  lemma GoesOn(cfg: Config, socket: bool, t: Tale, ev: Event)
    ensures var g := Goes(cfg, socket, t, ev);
            && (g.download <==> t.download || (ev == End(Download) && PingOver(cfg, t)))
            && (g.upload <==> t.upload || (ev == End(Upload) && t.download))
  {
  }

  lemma ToldNext(c: Course, k: nat)
    requires k < |c.events|
    ensures Told(c, k + 1) == Goes(c.cfg, OverSocket(c.cfg, c.refused), Told(c, k), c.events[k].ev)
  {
  }

  lemma ToldGoesOn(c: Course, k: nat)
    requires k < |c.events|
    ensures var ev := c.events[k].ev;
            && (Told(c, k + 1).download <==> Told(c, k).download || EndsDownload(c, k))
            && (Told(c, k + 1).upload <==> Told(c, k).upload || (ev == End(Upload) && Told(c, k).download))
  {
    ToldNext(c, k);
    GoesOn(c.cfg, OverSocket(c.cfg, c.refused), Told(c, k), c.events[k].ev);
  }

  ghost predicate DownloadEnded(c: Course, k: nat)
    requires k <= |c.events|
  {
    exists d: nat :: d < k && EndsDownload(c, d)
  }

  ghost predicate UploadEnded(c: Course, k: nat)
    requires k <= |c.events|
  {
    exists d: nat, u: nat :: u < k && Ending(c, d, u)
  }

  lemma DownloadToldNext(c: Course, k: nat)
    requires k < |c.events| && (Told(c, k).download <==> DownloadEnded(c, k))
    ensures Told(c, k + 1).download <==> DownloadEnded(c, k + 1)
  {
    ToldGoesOn(c, k);
    DownloadEndedNext(c, k);
  }

  lemma {:induction false} DownloadTold(c: Course, k: nat)
    requires k <= |c.events|
    ensures Told(c, k).download <==> DownloadEnded(c, k)
  {
    if k > 0 {
      DownloadTold(c, k - 1);
      DownloadToldNext(c, k - 1);
    }
  }

  lemma DownloadEndedNext(c: Course, k: nat)
    requires k < |c.events|
    ensures DownloadEnded(c, k + 1) <==> DownloadEnded(c, k) || EndsDownload(c, k)
  {
  }

  lemma UploadEndedNext(c: Course, k: nat)
    requires k < |c.events|
    ensures UploadEnded(c, k + 1) <==> UploadEnded(c, k) || (c.events[k].ev == End(Upload) && DownloadEnded(c, k))
  {
    if c.events[k].ev == End(Upload) && DownloadEnded(c, k) {
      var d: nat :| d < k && EndsDownload(c, d);
      assert Ending(c, d, k);
    }
    if UploadEnded(c, k + 1) {
      var d: nat, u: nat :| u < k + 1 && Ending(c, d, u);
      assert u < k || (u == k && d < k);
    }
  }

  lemma UploadToldNext(c: Course, k: nat)
    requires k < |c.events| && (Told(c, k).upload <==> UploadEnded(c, k))
    ensures Told(c, k + 1).upload <==> UploadEnded(c, k + 1)
  {
    DownloadTold(c, k);
    ToldGoesOn(c, k);
    UploadEndedNext(c, k);
  }

  lemma {:induction false} UploadTold(c: Course, k: nat)
    requires k <= |c.events|
    ensures Told(c, k).upload <==> UploadEnded(c, k)
  {
    if k > 0 {
      UploadTold(c, k - 1);
      UploadToldNext(c, k - 1);
    }
  }

  /** A run that is not aborted until its upload ends is complete: all phases are over, and the script is
      out to its last message, the result. */
  lemma Completes(c: Course, d: nat, u: nat)
    requires Ending(c, d, u) && NoAbort(c.events[..u + 1])
    ensures c.At(u + 1).finished == {Ping, Download, Upload}
    ensures var majors := Majors(c.At(u + 1).posted); |majors| == 7 && majors[6].Result?
  {
    AbortedExactly(c, u + 1);
    KeptAt(c, u + 1);
    UploadTold(c, u + 1);
    AllFinished(c.At(u + 1), Told(c, u + 1), OverSocket(c.cfg, c.refused));
    var m := StoryAt(c, u + 1);
    ScriptOut(c.At(u + 1));
  }

  lemma AllFinished(s: State, t: Tale, socket: bool)
    requires Kept(s, socket, t) && t.upload
    ensures s.finished == {Ping, Download, Upload}
  {
    forall p: Phase ensures p in s.finished <==> p in {Ping, Download, Upload} {
      match p
      case Ping =>
      case Download =>
      case Upload =>
    }
  }

  lemma ScriptOut(s: State)
    requires Inv(s) && !s.aborted && Upload in s.finished
    ensures |Majors(s.posted)| == 7 && Majors(s.posted)[6].Result?
  {
    assert SoFar(s.posted, s.pinged, s.downloaded, 7);
  }

  lemma {:induction false} PostedStays(c: Course, i: nat, k: nat)
    requires i <= k <= |c.events|
    ensures forall m :: m in c.At(i).posted ==> m in c.At(k).posted
    decreases k
  {
    if i < k {
      PostedStays(c, i, k - 1);
      AtNext(c, k - 1);
      PostedGrows(c.At(k - 1), c.events[k - 1].ev, c.events[k - 1].at);
    }
  }

  lemma PostedGrows(s: State, ev: Event, now: int)
    ensures forall m :: m in s.posted ==> m in Step(s, ev, now).posted
  {
  }

  ghost predicate HasResult(posted: seq<Msg>) {
    exists r :: r in posted && r.Result?
  }

  /** Some prefix of the run ends the upload without an abort. */
  ghost predicate Complete(c: Course, d: nat, u: nat) {
    Ending(c, d, u) && NoAbort(c.events[..u + 1])
  }

  lemma CompleteHasResult(c: Course, d: nat, u: nat)
    requires Complete(c, d, u)
    ensures HasResult(c.At(|c.events|).posted)
  {
    Completes(c, d, u);
    var posted := c.At(u + 1).posted;
    MajorsPosted(posted, Majors(posted)[6]);
    PostedStays(c, u + 1, |c.events|);
  }

  lemma ResultIsComplete(c: Course)
    requires HasResult(c.At(|c.events|).posted)
    ensures exists d: nat, u: nat :: Complete(c, d, u)
  {
    var k := ResultAt(c, |c.events|);
    UploadTold(c, k);
    var d: nat, u: nat :| u < k && Ending(c, d, u);
    NoAbortBefore(c.events, u + 1, k);
    assert Complete(c, d, u);
  }

  /** A result is posted exactly in the runs that reach the end of the upload before any abort. */
  lemma ResultExactly(c: Course)
    ensures HasResult(c.At(|c.events|).posted) <==> exists d: nat, u: nat :: Complete(c, d, u)
  {
    if HasResult(c.At(|c.events|).posted) { ResultIsComplete(c); }
    if d: nat, u: nat :| Complete(c, d, u) { CompleteHasResult(c, d, u); }
  }

  lemma HadResult(after: seq<Msg>, before: seq<Msg>)
    requires Majors(after) == Majors(before) && HasResult(after)
    ensures HasResult(before)
  {
    var r :| r in after && r.Result?;
    ResultStands(after, before, r);
  }

  lemma AbortedResult(s: State, ev: Event, now: int)
    requires (s.aborted || ev.Abort?) && HasResult(Step(s, ev, now).posted)
    ensures HasResult(s.posted)
  {
    AbortSilences(s, ev, now);
    HadResult(Step(s, ev, now).posted, s.posted);
  }

  lemma RunningResult(c: Course, n: nat, m: Marks)
    requires n <= |c.events| && !c.At(n).aborted && HasResult(c.At(n).posted) && Story(c, n, m)
    ensures NoAbort(c.events[..n]) && Told(c, n).upload
  {
    AbortedExactly(c, n);
    KeptAt(c, n);
  }

  /** Where a result is out, the upload had ended before any abort. */
  lemma {:induction false} ResultAt(c: Course, n: nat) returns (k: nat)
    requires n <= |c.events| && HasResult(c.At(n).posted)
    ensures k <= n && NoAbort(c.events[..k]) && Told(c, k).upload
  {
    if c.At(n).aborted {
      NotAtOnce(c, n);
      AtNext(c, n - 1);
      StillRunning(c, n - 1);
      AbortedResult(c.At(n - 1), c.events[n - 1].ev, c.events[n - 1].at);
      k := ResultAt(c, n - 1);
    } else {
      k := n;
      var m := StoryAt(c, n);
      RunningResult(c, n, m);
    }
  }

  lemma NotAtOnce(c: Course, n: nat)
    requires n <= |c.events| && c.At(n).aborted
    ensures n > 0
  {
    assert c.events[..0] == [];
    BegunKept(c.cfg, c.refused, c.start);
  }

  /** Every abort is acknowledged, and nothing else is posted on it. */
  lemma AbortAnswered(s: State, now: int)
    ensures Step(s, Abort, now).posted == s.posted + [Msg.Aborted]
  {
    if s.current.Some? { FinishSilent(s.(aborted := true), s.current.value, now); }
  }

  // ---- what an abort stops -----------------------------------------------------------------------

  /** Every transfer begun is over. */
  ghost predicate AllOver(s: State) {
    (s.download.Some? ==> Download in s.finished) && (s.upload.Some? ==> Upload in s.finished)
  }

  lemma AbortEnds(s: State, now: int, socket: bool, t: Tale)
    requires !s.aborted && Kept(s, socket, t)
    ensures AllOver(Step(s, Abort, now))
  {
  }

  lemma AbortedStays(s: State, ev: Event, now: int)
    requires s.aborted && AllOver(s)
    ensures AllOver(Step(s, ev, now))
  {
  }

  lemma OverNext(c: Course, k: nat)
    requires k < |c.events| && c.At(k + 1).aborted && (c.At(k).aborted ==> AllOver(c.At(k)))
    ensures AllOver(c.At(k + 1))
  {
    var e := c.events[k];
    AtNext(c, k);
    StillRunning(c, k);
    if c.At(k).aborted {
      AbortedStays(c.At(k), e.ev, e.at);
    } else {
      KeptAt(c, k);
      AbortEnds(c.At(k), e.at, OverSocket(c.cfg, c.refused), Told(c, k));
    }
  }

  lemma {:induction false} OverAt(c: Course, k: nat)
    requires k <= |c.events| && c.At(k).aborted
    ensures AllOver(c.At(k))
  {
    NotAtOnce(c, k);
    if c.At(k - 1).aborted { OverAt(c, k - 1); }
    OverNext(c, k - 1);
  }

  /** After an abort, only acknowledgements and pings that were already under way are posted. */
  lemma AbortedPosts(s: State, ev: Event, now: int)
    requires s.aborted
    ensures var posted := Step(s, ev, now).posted;
            if ev.Abort? then posted == s.posted + [Msg.Aborted]
            else if ev.PingLoaded? && s.chain.Some? && s.chain.value.waiting then
              var share := Share(s.chain.value.count + 1, s.cfg.samples);
              posted == s.posted + [PingUpdate(LatencyOf(Step(s, ev, now).pings), share)]
            else posted == s.posted
  {
    if ev.Abort? { AbortAnswered(s, now); }
  }

  /** From an abort on no transfer runs and no request is open. */
  lemma AbortStops(c: Course, i: nat, k: nat)
    requires i < k <= |c.events| && c.events[i].ev.Abort?
    ensures forall t :: t in {c.At(k).download, c.At(k).upload} && t.Some? ==>
              !t.value.running && forall x :: 0 <= x < |t.value.all| ==> !t.value.all[x].open
  {
    AbortedExactly(c, k);
    assert c.events[..k][i].ev.Abort?;
    OverAt(c, k);
    var m := StoryAt(c, k);
  }

  // ---- what is shown on the way --------------------------------------------------------------------

  lemma TickPosts(s: State, phase: Phase, t: T.Transfer, now: int)
    requires !s.aborted && TransferOf(s, phase) == Some(t) && t.ticker
    ensures Step(s, Transfer(phase, T.Tick), now).posted
            == s.posted + [Progress(phase, T.Compute(t, now, s.cfg.overhead).Mbps(), PctOf(now - t.t0, s.cfg.duration))]
  {
  }

  /** What a transfer is after its events: still ticking, with its start. */
  lemma MovedTicks(c: Course, phase: Phase, a: nat, k: nat)
    requires a <= k <= |c.events|
    ensures c.Moved(phase, a, k).ticker && c.Moved(phase, a, k).t0 == c.Time(a)
  {
    var streams := if phase == Download then c.cfg.downloadStreams else c.cfg.uploadStreams;
    T.BegunRunning(streams, c.Time(a));
    T.PlayKeeps(T.Begun(streams, c.Time(a)), Deliveries(c.events[a..k], phase));
  }

  /** The transfer of a phase under way, and the mark where it began. */
  lemma UnderwayIs(c: Course, k: nat, phase: Phase) returns (a: nat)
    requires k <= |c.events| && !c.At(k).aborted
    requires if phase == Download then Ping in c.At(k).finished && Download !in c.At(k).finished
             else phase == Upload && Download in c.At(k).finished && Upload !in c.At(k).finished
    ensures a <= k && c.Ends(if phase == Download then Ping else Download, a)
    ensures TransferOf(c.At(k), phase) == Some(c.Moved(phase, a, k)) && c.At(k).cfg == c.cfg
  {
    var m := StoryAt(c, k);
    InvInTurn(c.At(k));
    a := if phase == Download then m.ping else m.download;
  }

  /** While a transfer runs, its ticker shows the rate so far and the share of its time. */
  lemma TickShows(c: Course, k: nat, phase: Phase) returns (a: nat)
    requires k < |c.events| && !c.At(k).aborted && c.events[k].ev == Transfer(phase, T.Tick)
    requires if phase == Download then Ping in c.At(k).finished && Download !in c.At(k).finished
             else phase == Upload && Download in c.At(k).finished && Upload !in c.At(k).finished
    ensures a <= k && c.Ends(if phase == Download then Ping else Download, a)
    ensures c.At(k + 1).posted
            == c.At(k).posted + [Progress(phase, T.Compute(c.Moved(phase, a, k), c.Time(k + 1), c.cfg.overhead).Mbps(),
                                          PctOf(c.Time(k + 1) - c.Time(a), c.cfg.duration))]
  {
    a := UnderwayIs(c, k, phase);
    MovedTicks(c, phase, a, k);
    AtNext(c, k);
    TickPosts(c.At(k), phase, c.Moved(phase, a, k), c.Time(k + 1));
  }

  lemma FinishPingPosts(s: State, now: int)
    ensures s.posted <= FinishPing(s, now).posted
  {
  }

  lemma NextPingPosts(s: State, count: nat, now: int)
    ensures s.posted <= NextPing(s, count, now).posted
  {
  }

  lemma EchoShows(s: State, rtt: int, now: int, t: Tale)
    requires !s.aborted && s.socket == Some(Socket(t.echoes, t.chain, !t.timerOff))
    ensures var u := Step(s, SocketEcho(rtt), now);
            s.posted + [PingUpdate(LatencyOf(u.pings), Share(t.echoes + 1, s.cfg.samples))] <= u.posted
  {
    FinishPingPosts(Sample(s.(socket := Some(s.socket.value.(count := t.echoes + 1))), rtt, t.echoes + 1), now);
  }

  lemma AnswerShows(s: State, rtt: int, now: int, t: Tale)
    requires s.chain == Some(Chain(t.answers, true))
    ensures var u := Step(s, PingLoaded(rtt), now);
            s.posted + [PingUpdate(LatencyOf(u.pings), Share(t.answers + 1, s.cfg.samples))] <= u.posted
  {
    NextPingPosts(Sample(s, rtt, t.answers + 1), t.answers + 1, now);
  }

  /** A round trip taken in is shown before anything else. */
  lemma SampleShows(s: State, ev: Event, now: int, socket: bool, t: Tale)
    requires !s.aborted && Kept(s, socket, t) && Heard(s, ev) != []
    ensures var told := Goes(s.cfg, socket, t, ev); var count := if ev.SocketEcho? then told.echoes else told.answers;
            s.posted + [PingUpdate(LatencyOf(Step(s, ev, now).pings), Share(count, s.cfg.samples))]
            <= Step(s, ev, now).posted
  {
    if ev.SocketEcho? { EchoShows(s, ev.rtt, now, t); } else { AnswerShows(s, ev.rtt, now, t); }
  }

  /** Each round trip is shown with the ping and jitter of those heard so far, and its number. */
  lemma HeardShows(c: Course, k: nat)
    requires k < |c.events| && !c.At(k).aborted && Heard(c.At(k), c.events[k].ev) != []
    ensures var count := if c.events[k].ev.SocketEcho? then Told(c, k + 1).echoes else Told(c, k + 1).answers;
            c.At(k).posted + [PingUpdate(c.Ping(k + 1), Share(count, c.cfg.samples))] <= c.At(k + 1).posted
  {
    var e := c.events[k];
    KeptAt(c, k);
    AtNext(c, k);
    SampleShows(c.At(k), e.ev, e.at, OverSocket(c.cfg, c.refused), Told(c, k));
    PingHeard(c, k + 1);
  }

  /** A figure in a result is that of its phase, to the nearest hundredth. */
  lemma Round2Near(x: real)
    ensures -0.005 <= Round2(x) - x <= 0.005
    ensures (Round2(x) * 100.0).Floor as real == Round2(x) * 100.0
  {
    assert Round2(x) * 100.0 == (x * 100.0 + 0.5).Floor as real;
  }

  lemma MillisecondsNear(ns: int)
    ensures -500000 <= Milliseconds(ns) * 1000000 - ns <= 500000
  {
  }
}
