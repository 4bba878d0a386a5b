/**
 The transfer phases of the CLI: parallel streams that request, fail, back off and retry until
 the phase's deadline, all feeding one locked meter.

 The classes are the pieces one stream uses. `Phase` is the whole phase, cut where streams can
 interleave: at reads, responses, meter updates and back-offs.
 */
module Streams {
  import opened Clock
  import opened Measure

  const STATUS_OK: int := 200

  /** How a request ended: with a response, or with an error of the transport. */
  datatype Response = Status(code: int) | TransportError

  // ---- one stream -------------------------------------------------------------------

  /** Counts the bytes handed to the transport for one request. */
  class CountingReader {
    const size: nat
    var n: nat

    constructor (size: nat)
      ensures this.size == size && n == 0
    {
      this.size, this.n := size, 0;
    }

    /** Reads at most `want` bytes of what is left of the blob. */
    method Read(want: nat) returns (got: nat)
      requires n <= size
      modifies this
      ensures n == old(n) + got <= size && got <= want && (got < want ==> n == size)
    {
      got := if want <= size - n then want else size - n;
      n := n + got;
    }
  }

  class LockedMeter {
    const m: ThroughputMeter

    constructor (m: ThroughputMeter)
      ensures this.m == m
    {
      this.m := m;
    }

    method Add(n: int, now: int)
      modifies m
      ensures m.Value() == Added(old(m.Value()), n, now)
    {
      m.Add(n, now);
    }
  }

  /** How much of a blob a transport has taken after asking for these amounts in turn. */
  function Taken(size: nat, wants: seq<nat>): nat
    ensures Taken(size, wants) <= size
  {
    if wants == [] then 0
    else
      var before := Taken(size, wants[..|wants| - 1]);
      if before + wants[|wants| - 1] <= size then before + wants[|wants| - 1] else size
  }

  /** The meter after one upload. */
  function Uploaded(m: Meter, blob: nat, wants: seq<nat>, response: Response, now: int): Meter {
    if response == Status(STATUS_OK) then Added(m, Taken(blob, wants), now) else m
  }

  /** The meter after one download. */
  function Downloaded(m: Meter, chunks: seq<Sample>, response: Response): Meter {
    if response == Status(STATUS_OK) then AddAll(m, Positive(chunks)) else m
  }

  /** One upload: whatever was pushed out, only a 200 makes it count, and then exactly what the
      transport took, at most the blob. */
  method UploadOnce(lm: LockedMeter, blob: nat, wants: seq<nat>, response: Response, now: int) returns (ok: bool)
    modifies lm.m
    ensures ok <==> response == Status(STATUS_OK)
    ensures lm.m.Value() == Uploaded(old(lm.m.Value()), blob, wants, response, now)
  {
    var cr := new CountingReader(blob);
    for i := 0 to |wants|
      invariant cr.size == blob && cr.n == Taken(blob, wants[..i])
      invariant lm.m.Value() == old(lm.m.Value())
    {
      assert wants[..i + 1][..i] == wants[..i];
      var _ := cr.Read(wants[i]);
    }
    assert wants[..|wants|] == wants;
    match response {
      case TransportError =>
        return false;
      case Status(code) =>
        if code != STATUS_OK {
          return false;
        }
    }
    lm.Add(cr.n, now);
    return true;
  }

  /** One download: every chunk read from the body of a 200 counts, whether or not the body ends
      well; nothing else does. */
  method DownloadOnce(lm: LockedMeter, response: Response, chunks: seq<Sample>, broken: bool) returns (ok: bool)
    modifies lm.m
    ensures ok <==> response == Status(STATUS_OK) && !broken
    ensures lm.m.Value() == Downloaded(old(lm.m.Value()), chunks, response)
  {
    match response {
      case TransportError =>
        return false;
      case Status(code) =>
        if code != STATUS_OK {
          return false;
        }
    }
    for i := 0 to |chunks|
      invariant AddAll(lm.m.Value(), Positive(chunks[i..])) == AddAll(old(lm.m.Value()), Positive(chunks))
    {
      assert chunks[i..][0] == chunks[i] && chunks[i..][1..] == chunks[i + 1..];
      assert Positive(chunks[i..]) == (if chunks[i].bytes > 0 then [chunks[i]] else []) + Positive(chunks[i + 1..]);
      if chunks[i].bytes > 0 {
        assert Positive(chunks[i..])[1..] == Positive(chunks[i + 1..]);
        lm.Add(chunks[i].bytes, chunks[i].at);
      } else {
        assert Positive(chunks[i..]) == Positive(chunks[i + 1..]);
      }
    }
    return !broken;
  }

  function Positive(chunks: seq<Sample>): seq<Sample> {
    if chunks == [] then [] else (if chunks[0].bytes > 0 then [chunks[0]] else []) + Positive(chunks[1..])
  }

  // ---- all streams ---------------------------------------------------------------------

  /** What a stream is doing. `Accepted` holds the bytes of an upload that got its 200 and has
      not been committed to the meter yet. */
  datatype Stream =
    | Ready
    | Requesting(sent: nat)
    | Accepted(sent: nat)
    | Receiving
    | Failed
    | BackingOff
    | Ended

  datatype Direction = Up | Down

  datatype Phase = Phase(dir: Direction, blob: nat, over: bool, meter: Meter, streams: seq<Stream>)

  datatype Event =
    | Deadline
    | Begin(i: nat)
    | Send(i: nat, want: nat)
    | Answer(i: nat, response: Response)
    | Commit(i: nat)
    | Chunk(i: nat, bytes: int)
    | BodyEnd(i: nat, broken: bool)
    | GiveUp(i: nat)
    | Wake(i: nat)

  function With(p: Phase, i: nat, s: Stream): Phase
    requires i < |p.streams|
  {
    p.(streams := p.streams[i := s])
  }

  function Feed(p: Phase, n: int, now: int): Phase {
    p.(meter := Added(p.meter, n, now))
  }

  function Step(p: Phase, ev: Event, now: int): Phase {
    if ev.Deadline? then p.(over := true)
    else if ev.i >= |p.streams| then p
    else
      var i := ev.i;
      match (p.streams[i], ev)
      case (Ready, Begin(_)) => With(p, i, if p.over then Ended else Requesting(0))
      case (Requesting(sent), Send(_, want)) =>
        if p.dir.Up? then With(p, i, Requesting(if sent + want <= p.blob then sent + want else p.blob)) else p
      case (Requesting(sent), Answer(_, response)) =>
        With(p, i, if response != Status(STATUS_OK) then Failed else if p.dir.Up? then Accepted(sent) else Receiving)
      case (Accepted(sent), Commit(_)) => With(Feed(p, sent, now), i, Ready)
      case (Receiving, Chunk(_, bytes)) => if bytes > 0 then Feed(p, bytes, now) else p
      case (Receiving, BodyEnd(_, broken)) => With(p, i, if broken then Failed else Ready)
      case (Failed, GiveUp(_)) => With(p, i, if p.over then Ended else BackingOff)
      case (BackingOff, Wake(_)) => With(p, i, if p.over then Ended else Ready)
      case _ => p
  }

  datatype Timed = Timed(ev: Event, at: int)

  function Run(p: Phase, events: seq<Timed>): Phase
    decreases |events|
  {
    if events == [] then p else Run(Step(p, events[0].ev, events[0].at), events[1..])
  }

  function Begun(dir: Direction, blob: nat, streams: nat, m: Meter, start: int): Phase {
    Phase(dir, blob, false, Started(m, start), seq(streams, i => Ready))
  }

  lemma {:induction false} RunAppend(p: Phase, a: seq<Timed>, b: seq<Timed>)
    ensures Run(p, a + b) == Run(Run(p, a), b)
    decreases |a|
  {
    if a == [] {
      assert a + b == b;
    } else {
      assert (a + b)[1..] == a[1..] + b;
      RunAppend(Step(p, a[0].ev, a[0].at), a[1..], b);
    }
  }

  lemma RunOne(p: Phase, ev: Event, at: int)
    ensures Run(p, [Timed(ev, at)]) == Step(p, ev, at)
  {
    assert [Timed(ev, at)][1..] == [];
  }

  // ---- one stream left alone ------------------------------------------------------------

  function Sends(i: nat, wants: seq<nat>, at: int): seq<Timed> {
    if wants == [] then []
    else Sends(i, wants[..|wants| - 1], at) + [Timed(Send(i, wants[|wants| - 1]), at)]
  }

  lemma {:induction false} SendsTake(p: Phase, i: nat, wants: seq<nat>, at: int)
    requires i < |p.streams| && p.streams[i] == Requesting(0) && p.dir.Up?
    ensures Run(p, Sends(i, wants, at)) == With(p, i, Requesting(Taken(p.blob, wants)))
  {
    if wants == [] {
      assert p.streams[i := Requesting(0)] == p.streams;
    } else {
      var init, last := wants[..|wants| - 1], wants[|wants| - 1];
      SendsTake(p, i, init, at);
      RunAppend(p, Sends(i, init, at), [Timed(Send(i, last), at)]);
      RunOne(With(p, i, Requesting(Taken(p.blob, init))), Send(i, last), at);
    }
  }

  function UploadEvents(i: nat, wants: seq<nat>, response: Response, begin: int, now: int): seq<Timed> {
    [Timed(Begin(i), begin)] + (Sends(i, wants, begin) + [Timed(Answer(i, response), now), Timed(Commit(i), now)])
  }

  /** The steps of a stream that nobody interrupts do to the meter what `UploadOnce` does. */
  lemma UploadAlone(p: Phase, i: nat, wants: seq<nat>, response: Response, begin: int, now: int)
    requires i < |p.streams| && p.streams[i] == Ready && !p.over && p.dir.Up?
    ensures Run(p, UploadEvents(i, wants, response, begin, now))
            == With(p.(meter := Uploaded(p.meter, p.blob, wants, response, now)), i,
                    if response == Status(STATUS_OK) then Ready else Failed)
  {
    var q := With(p, i, Requesting(0));
    var ends := [Timed(Answer(i, response), now), Timed(Commit(i), now)];
    RunOne(p, Begin(i), begin);
    RunAppend(p, [Timed(Begin(i), begin)], Sends(i, wants, begin) + ends);
    RunAppend(q, Sends(i, wants, begin), ends);
    SendsTake(q, i, wants, begin);
    AnswerAndCommit(q, i, Taken(p.blob, wants), response, now);
  }

  lemma AnswerAndCommit(p: Phase, i: nat, sent: nat, response: Response, now: int)
    requires i < |p.streams| && p.dir.Up?
    ensures Run(With(p, i, Requesting(sent)), [Timed(Answer(i, response), now), Timed(Commit(i), now)])
            == if response == Status(STATUS_OK) then With(Feed(p, sent, now), i, Ready) else With(p, i, Failed)
  {
    var r := With(p, i, Requesting(sent));
    RunAppend(r, [Timed(Answer(i, response), now)], [Timed(Commit(i), now)]);
    RunOne(r, Answer(i, response), now);
    RunOne(Step(r, Answer(i, response), now), Commit(i), now);
  }

  function Chunks(i: nat, chunks: seq<Sample>): seq<Timed> {
    if chunks == [] then [] else [Timed(Chunk(i, chunks[0].bytes), chunks[0].at)] + Chunks(i, chunks[1..])
  }

  lemma {:induction false} ChunksFeed(p: Phase, i: nat, chunks: seq<Sample>)
    requires i < |p.streams| && p.streams[i] == Receiving
    ensures Run(p, Chunks(i, chunks)) == p.(meter := AddAll(p.meter, Positive(chunks)))
    decreases |chunks|
  {
    if chunks != [] {
      var q := Step(p, Chunk(i, chunks[0].bytes), chunks[0].at);
      assert Chunks(i, chunks)[1..] == Chunks(i, chunks[1..]);
      ChunksFeed(q, i, chunks[1..]);
      if chunks[0].bytes > 0 {
        assert Positive(chunks)[1..] == Positive(chunks[1..]);
      } else {
        assert Positive(chunks) == Positive(chunks[1..]);
      }
    }
  }

  function DownloadEvents(i: nat, chunks: seq<Sample>, response: Response, broken: bool, begin: int,
                          end: int): seq<Timed> {
    [Timed(Begin(i), begin), Timed(Answer(i, response), begin)] + (Chunks(i, chunks) + [Timed(BodyEnd(i, broken), end)])
  }

  lemma {:induction false} ChunksIgnored(p: Phase, i: nat, chunks: seq<Sample>)
    requires i < |p.streams| && p.streams[i] == Failed
    ensures Run(p, Chunks(i, chunks)) == p
    decreases |chunks|
  {
    if chunks != [] {
      assert Chunks(i, chunks)[1..] == Chunks(i, chunks[1..]);
      ChunksIgnored(p, i, chunks[1..]);
    }
  }

  /** And what `DownloadOnce` does. */
  lemma DownloadAlone(p: Phase, i: nat, chunks: seq<Sample>, response: Response, broken: bool, begin: int, end: int)
    requires i < |p.streams| && p.streams[i] == Ready && !p.over && p.dir.Down?
    ensures Run(p, DownloadEvents(i, chunks, response, broken, begin, end))
            == With(p.(meter := Downloaded(p.meter, chunks, response)), i,
                    if response == Status(STATUS_OK) && !broken then Ready else Failed)
  {
    var opening := [Timed(Begin(i), begin), Timed(Answer(i, response), begin)];
    var closing := [Timed(BodyEnd(i, broken), end)];
    var q := With(p, i, if response == Status(STATUS_OK) then Receiving else Failed);
    Opened(p, i, response, begin);
    RunAppend(p, opening, Chunks(i, chunks) + closing);
    RunAppend(q, Chunks(i, chunks), closing);
    if response == Status(STATUS_OK) { ChunksFeed(q, i, chunks); } else { ChunksIgnored(q, i, chunks); }
    RunOne(Run(q, Chunks(i, chunks)), BodyEnd(i, broken), end);
  }

  lemma Opened(p: Phase, i: nat, response: Response, at: int)
    requires i < |p.streams| && p.streams[i] == Ready && !p.over && p.dir.Down?
    ensures Run(p, [Timed(Begin(i), at), Timed(Answer(i, response), at)])
            == With(p, i, if response == Status(STATUS_OK) then Receiving else Failed)
  {
    var begin, answer := Timed(Begin(i), at), Timed(Answer(i, response), at);
    assert [begin, answer] == [begin] + [answer];
    RunAppend(p, [begin], [answer]);
    RunOne(p, Begin(i), at);
    RunOne(With(p, i, Requesting(0)), Answer(i, response), at);
  }

  // ---- what a run was given, read off its events --------------------------------------------

  /** An event answers the request that its stream has under way. */
  predicate Answered(p: Phase, ev: Event) {
    ev.Answer? && ev.i < |p.streams| && p.streams[ev.i].Requesting?
  }

  predicate Accepting(p: Phase, ev: Event) {
    Answered(p, ev) && ev.response == Status(STATUS_OK)
  }

  /** The streams whose last answer was a 200. */
  function Welcome(p: Phase, ev: Event, ok: set<nat>): set<nat> {
    if Accepting(p, ev) then ok + {ev.i} else if Answered(p, ev) then ok - {ev.i} else ok
  }

  /** The bytes that an event earns: all that an upload has sent when its 200 comes, and each
      chunk of the body of a download whose answer was a 200. */
  function Earns(p: Phase, ev: Event, ok: set<nat>): nat {
    if p.dir.Up? then
      if Accepting(p, ev) then p.streams[ev.i].sent else 0
    else
      if ev.Chunk? && ev.bytes > 0 && ev.i in ok && ev.i < |p.streams| && p.streams[ev.i].Receiving? then
        ev.bytes
      else 0
  }

  /** The bytes read by the requests of a run that got a 200. */
  function Credit(p: Phase, events: seq<Timed>, ok: set<nat>): nat
    decreases |events|
  {
    if events == [] then 0
    else
      var e := events[0];
      Earns(p, e.ev, ok) + Credit(Step(p, e.ev, e.at), events[1..], Welcome(p, e.ev, ok))
  }

  /** How many requests of a run got a 200. */
  function Accepts(p: Phase, events: seq<Timed>): nat
    decreases |events|
  {
    if events == [] then 0
    else (if Accepting(p, events[0].ev) then 1 else 0) + Accepts(Step(p, events[0].ev, events[0].at), events[1..])
  }

  /** What an event feeds to the meter. */
  function Given(p: Phase, ev: Event, now: int): seq<Sample> {
    if ev.Commit? && ev.i < |p.streams| && p.streams[ev.i].Accepted? then [Sample(p.streams[ev.i].sent, now)]
    else if ev.Chunk? && ev.i < |p.streams| && p.streams[ev.i].Receiving? && ev.bytes > 0 then [Sample(ev.bytes, now)]
    else []
  }

  function Fed(p: Phase, events: seq<Timed>): seq<Sample>
    decreases |events|
  {
    if events == [] then []
    else Given(p, events[0].ev, events[0].at) + Fed(Step(p, events[0].ev, events[0].at), events[1..])
  }

  lemma {:induction false} AddAllAppend(m: Meter, a: seq<Sample>, b: seq<Sample>)
    ensures AddAll(m, a + b) == AddAll(AddAll(m, a), b)
    decreases |a|
  {
    if a == [] {
      assert a + b == b;
    } else {
      assert (a + b)[1..] == a[1..] + b;
      AddAllAppend(Added(m, a[0].bytes, a[0].at), a[1..], b);
    }
  }

  lemma {:induction false} MeterIsFed(p: Phase, events: seq<Timed>)
    ensures Run(p, events).meter == AddAll(p.meter, Fed(p, events))
    decreases |events|
  {
    if events != [] {
      var e := events[0];
      var q, given := Step(p, e.ev, e.at), Given(p, e.ev, e.at);
      assert q.meter == AddAll(p.meter, given) by {
        if given != [] { assert given[1..] == []; }
      }
      MeterIsFed(q, events[1..]);
      AddAllAppend(p.meter, given, Fed(q, events[1..]));
    }
  }

  function Uncommitted(streams: seq<Stream>): nat {
    if streams == [] then 0 else (if streams[0].Accepted? then streams[0].sent else 0) + Uncommitted(streams[1..])
  }

  lemma {:induction false} UncommittedUpdate(streams: seq<Stream>, i: nat, s: Stream)
    requires i < |streams|
    ensures Uncommitted(streams[i := s])
            == Uncommitted(streams) - (if streams[i].Accepted? then streams[i].sent else 0)
                + (if s.Accepted? then s.sent else 0)
  {
    if i == 0 {
      assert streams[0 := s][1..] == streams[1..];
    } else {
      assert streams[i := s][1..] == streams[1..][i - 1 := s];
      UncommittedUpdate(streams[1..], i - 1, s);
    }
  }

  ghost predicate StreamOk(p: Phase, i: nat, ok: set<nat>)
    requires i < |p.streams|
  {
    var s := p.streams[i];
    && (s.Requesting? || s.Accepted? ==> s.sent <= p.blob)
    && (s.Accepted? ==> p.dir.Up?)
    && (s.Receiving? ==> p.dir.Down? && i in ok)
  }

  ghost predicate Inv(p: Phase, ok: set<nat>) {
    forall i :: 0 <= i < |p.streams| ==> StreamOk(p, i, ok)
  }

  lemma StepInv(p: Phase, ev: Event, now: int, ok: set<nat>)
    requires Inv(p, ok)
    ensures Inv(Step(p, ev, now), Welcome(p, ev, ok))
  {
    var q := Step(p, ev, now);
    forall i | 0 <= i < |q.streams| ensures StreamOk(q, i, Welcome(p, ev, ok)) {
      assert StreamOk(p, i, ok);
    }
  }

  /** One step moves bytes from the transport to the streams and from the streams to the meter. */
  lemma StepBalance(p: Phase, ev: Event, now: int, ok: set<nat>)
    requires Inv(p, ok)
    ensures Uncommitted(Step(p, ev, now).streams) + Bytes(Given(p, ev, now))
            == Uncommitted(p.streams) + Earns(p, ev, ok)
  {
    if !ev.Deadline? && ev.i < |p.streams| {
      var s := Step(p, ev, now).streams[ev.i];
      assert StreamOk(p, ev.i, ok);
      assert Step(p, ev, now).streams == p.streams[ev.i := s];
      UncommittedUpdate(p.streams, ev.i, s);
      BytesOfOne(Given(p, ev, now));
    }
  }

  lemma BytesOfOne(samples: seq<Sample>)
    ensures Bytes([]) == 0 && (|samples| == 1 ==> Bytes(samples) == samples[0].bytes)
  {
    if |samples| == 1 { assert samples[1..] == []; }
  }

  lemma {:induction false} RunBalance(p: Phase, events: seq<Timed>, ok: set<nat>)
    requires Inv(p, ok)
    ensures Uncommitted(Run(p, events).streams) + Bytes(Fed(p, events))
            == Uncommitted(p.streams) + Credit(p, events, ok)
    decreases |events|
  {
    if events != [] {
      var e := events[0];
      StepInv(p, e.ev, e.at, ok);
      StepBalance(p, e.ev, e.at, ok);
      RunBalance(Step(p, e.ev, e.at), events[1..], Welcome(p, e.ev, ok));
      BytesAppend(Given(p, e.ev, e.at), Fed(Step(p, e.ev, e.at), events[1..]));
    }
  }

  lemma OneMore(blob: nat, n: nat)
    ensures blob * (1 + n) == blob + blob * n
  {
  }

  /** Each accepted upload earns at most the blob. */
  lemma {:induction false} CreditBound(p: Phase, events: seq<Timed>, ok: set<nat>)
    requires Inv(p, ok) && p.dir.Up?
    ensures Credit(p, events, ok) <= p.blob * Accepts(p, events)
    decreases |events|
  {
    if events != [] {
      var e := events[0];
      var q := Step(p, e.ev, e.at);
      StepInv(p, e.ev, e.at, ok);
      CreditBound(q, events[1..], Welcome(p, e.ev, ok));
      OneMore(p.blob, Accepts(q, events[1..]));
      assert Accepting(p, e.ev) ==> StreamOk(p, e.ev.i, ok);
    }
  }

  lemma {:induction false} NoneAccepted(streams: seq<Stream>)
    requires forall i :: 0 <= i < |streams| ==> !streams[i].Accepted?
    ensures Uncommitted(streams) == 0
  {
    if streams != [] { NoneAccepted(streams[1..]); }
  }

  /** Over every interleaving of the streams, failures, back-offs and retries: what the meter
      counts, what the grace period discards and what is about to be committed is exactly what
      the requests that got a 200 read; for uploads at most one blob each. */
  lemma OnlyAcceptedCount(dir: Direction, blob: nat, streams: nat, m: Meter, start: int, events: seq<Timed>)
    requires start != ZERO_TIME
    ensures var ready := Begun(dir, blob, streams, m, start);
            var p := Run(ready, events);
            && p.meter.bytes + Bytes(Discarded(Fed(ready, events), start, m.grace)) + Uncommitted(p.streams)
               == Credit(ready, events, {})
            && (dir.Up? ==> Credit(ready, events, {}) <= blob * Accepts(ready, events))
  {
    var ready := Begun(dir, blob, streams, m, start);
    NoneAccepted(ready.streams);
    RunBalance(ready, events, {});
    if dir.Up? { CreditBound(ready, events, {}); }
    MeterIsFed(ready, events);
    BytesConserved(m, start, Fed(ready, events));
  }

  /** When every stream has ended nothing is left to commit, so all accepted bytes are in the
      meter or were discarded with the grace period. */
  lemma EndedPhase(dir: Direction, blob: nat, streams: nat, m: Meter, start: int, events: seq<Timed>)
    requires start != ZERO_TIME
    requires forall s :: s in Run(Begun(dir, blob, streams, m, start), events).streams ==> s.Ended?
    ensures var ready := Begun(dir, blob, streams, m, start);
            Run(ready, events).meter.bytes + Bytes(Discarded(Fed(ready, events), start, m.grace))
            == Credit(ready, events, {})
  {
    OnlyAcceptedCount(dir, blob, streams, m, start, events);
    var ended := Run(Begun(dir, blob, streams, m, start), events).streams;
    forall i | 0 <= i < |ended| ensures !ended[i].Accepted? { assert ended[i] in ended; }
    NoneAccepted(ended);
  }

  ghost predicate NoneNegative(samples: seq<Sample>) {
    forall s :: s in samples ==> s.bytes >= 0
  }

  lemma {:induction false} FedNonnegative(p: Phase, events: seq<Timed>)
    ensures NoneNegative(Fed(p, events))
    decreases |events|
  {
    if events != [] { FedNonnegative(Step(p, events[0].ev, events[0].at), events[1..]); }
  }

  lemma {:induction false} NothingCounted(samples: seq<Sample>)
    requires NoneNegative(samples)
    ensures Bytes(samples) >= 0
    ensures Bytes(samples) == 0 <==> forall s :: s in samples ==> s.bytes == 0
  {
    if samples != [] {
      assert samples == [samples[0]] + samples[1..];
      NothingCounted(samples[1..]);
    }
  }

  /** The phase is declared failed exactly when no byte reached the meter after the sample that
      crossed the end of the grace period, whatever was delivered up to then. */
  lemma FailsExactly(dir: Direction, blob: nat, streams: nat, m: Meter, start: int, events: seq<Timed>, end: int)
    requires start != ZERO_TIME
    ensures var ready := Begun(dir, blob, streams, m, start);
            Stopped(Run(ready, events).meter, end).bytes == 0
            <==> forall s :: s in Window(Fed(ready, events), start, m.grace) ==> s.bytes == 0
  {
    var ready := Begun(dir, blob, streams, m, start);
    MeterIsFed(ready, events);
    FedNonnegative(ready, events);
    MeterIsWindow(m, start, Fed(ready, events));
    NothingCounted(Window(Fed(ready, events), start, m.grace));
  }

  // ---- the end of a phase -----------------------------------------------------------------

  /** The most steps a stream still takes to end once the deadline has passed. */
  function Rank(s: Stream): nat {
    match s
    case Ended => 0
    case Ready => 1
    case Failed => 1
    case BackingOff => 1
    case Accepted(_) => 2
    case Receiving => 2
    case Requesting(_) => 3
  }

  /** The event brings a stream to its next point: not the bytes of a request under way. */
  predicate Moves(s: Stream, ev: Event) {
    match s
    case Ready => ev.Begin?
    case Requesting(_) => ev.Answer?
    case Accepted(_) => ev.Commit?
    case Receiving => ev.BodyEnd?
    case Failed => ev.GiveUp?
    case BackingOff => ev.Wake?
    case Ended => false
  }

  /** How often a run moves stream `i`. */
  function MovesTaken(p: Phase, i: nat, events: seq<Timed>): nat
    decreases |events|
  {
    if events == [] then 0
    else
      var ev := events[0].ev;
      (if !ev.Deadline? && ev.i == i && i < |p.streams| && Moves(p.streams[i], ev) then 1 else 0)
      + MovesTaken(Step(p, ev, events[0].at), i, events[1..])
  }

  /** After the deadline, each step of a stream brings it nearer its end, whatever the others do; so
      no request is begun any more, and three steps are enough. */
  lemma {:induction false} EndsAfterDeadline(p: Phase, i: nat, events: seq<Timed>)
    requires p.over && i < |p.streams|
    ensures |Run(p, events).streams| == |p.streams|
    ensures Rank(Run(p, events).streams[i]) + MovesTaken(p, i, events) <= Rank(p.streams[i]) <= 3
    decreases |events|
  {
    if events != [] { EndsAfterDeadline(Step(p, events[0].ev, events[0].at), i, events[1..]); }
  }

  lemma EndedAfterThree(p: Phase, i: nat, events: seq<Timed>)
    requires p.over && i < |p.streams| && MovesTaken(p, i, events) >= 3
    ensures |Run(p, events).streams| == |p.streams| && Run(p, events).streams[i] == Ended
  {
    EndsAfterDeadline(p, i, events);
  }

  /** A stream that has not ended has a step to take. */
  lemma StepsLeft(s: Stream, i: nat)
    requires s != Ended
    ensures exists ev: Event :: !ev.Deadline? && ev.i == i && Moves(s, ev)
  {
    var ev :=
      match s
      case Ready => Begin(i)
      case Requesting(_) => Answer(i, TransportError)
      case Accepted(_) => Commit(i)
      case Receiving => BodyEnd(i, true)
      case Failed => GiveUp(i)
      case _ => Wake(i);
    assert Moves(s, ev);
  }

  /** Before the deadline no stream ends. */
  lemma {:induction false} NoneEndsEarly(p: Phase, events: seq<Timed>)
    requires !p.over && Ended !in p.streams
    ensures !Run(p, events).over ==> Ended !in Run(p, events).streams
    decreases |events|
  {
    if events != [] {
      var q := Step(p, events[0].ev, events[0].at);
      if q.over {
        StaysOver(q, events[1..]);
      } else {
        NoneEndsEarly(q, events[1..]);
      }
    }
  }

  lemma {:induction false} StaysOver(p: Phase, events: seq<Timed>)
    requires p.over
    ensures Run(p, events).over
    decreases |events|
  {
    if events != [] { StaysOver(Step(p, events[0].ev, events[0].at), events[1..]); }
  }

  // ---- the requests of a stream ------------------------------------------------------------

  /** Requests begun, served and failed, and back-offs slept through. */
  datatype Record = Record(begun: nat, served: nat, failed: nat, woken: nat)

  function One(b: bool): nat {
    if b then 1 else 0
  }

  /** The record of a stream after one more event of its own, by what it was doing. */
  function Noted(r: Record, s: Stream, ev: Event): Record {
    Record(r.begun + One(s.Ready? && ev.Begin?),
           r.served + One((s.Accepted? && ev.Commit?) || (s.Receiving? && ev.BodyEnd? && !ev.broken)),
           r.failed + One((s.Requesting? && ev.Answer? && ev.response != Status(STATUS_OK))
                          || (s.Receiving? && ev.BodyEnd? && ev.broken)),
           r.woken + One(s.BackingOff? && ev.Wake?))
  }

  function Recorded(p: Phase, i: nat, events: seq<Timed>, r: Record): Record
    decreases |events|
  {
    if events == [] then r
    else
      var ev := events[0].ev;
      Recorded(Step(p, ev, events[0].at), i, events[1..],
               if !ev.Deadline? && ev.i == i && i < |p.streams| then Noted(r, p.streams[i], ev) else r)
  }

  /** Each request begun is served, has failed or is under way; each that failed is slept off. */
  predicate Accounted(s: Stream, r: Record) {
    && !s.Ended?
    && r.begun == r.served + r.failed + One(s.Requesting? || s.Accepted? || s.Receiving?)
    && r.failed == r.woken + One(s.Failed? || s.BackingOff?)
  }

  lemma StepAccounted(p: Phase, i: nat, e: Timed, r: Record)
    requires i < |p.streams| && Accounted(p.streams[i], r) && !p.over && !e.ev.Deadline?
    ensures var q := Step(p, e.ev, e.at);
            && |q.streams| == |p.streams| && !q.over
            && Accounted(q.streams[i], if e.ev.i == i then Noted(r, p.streams[i], e.ev) else r)
  {
  }

  lemma {:induction false} RecordAccounted(p: Phase, i: nat, events: seq<Timed>, r: Record)
    requires i < |p.streams| && Accounted(p.streams[i], r) && !p.over && !Run(p, events).over
    ensures |Run(p, events).streams| == |p.streams|
    ensures Accounted(Run(p, events).streams[i], Recorded(p, i, events, r))
    decreases |events|
  {
    if events != [] {
      var e := events[0];
      if e.ev.Deadline? {
        StaysOver(Step(p, e.ev, e.at), events[1..]);
        assert false;
      }
      StepAccounted(p, i, e, r);
      RecordAccounted(Step(p, e.ev, e.at), i, events[1..],
                      if e.ev.i == i then Noted(r, p.streams[i], e.ev) else r);
    }
  }

  /** Until the deadline, over every interleaving: each stream goes from one request to the next, and
      sleeps off each failure before it does. */
  lemma RequestsAccounted(dir: Direction, blob: nat, streams: nat, m: Meter, start: int, events: seq<Timed>, i: nat)
    requires i < streams && !Run(Begun(dir, blob, streams, m, start), events).over
    ensures var p := Begun(dir, blob, streams, m, start);
            |Run(p, events).streams| == streams
            && Accounted(Run(p, events).streams[i], Recorded(p, i, events, Record(0, 0, 0, 0)))
  {
    RecordAccounted(Begun(dir, blob, streams, m, start), i, events, Record(0, 0, 0, 0));
  }

  // ---- delivered and still failed ---------------------------------------------------------

  /** A request that fails and is retried after its back-off. */
  datatype Failure = Failure(stream: nat, response: Response, at: int)

  function Retried(f: Failure): seq<Timed> {
    [ Timed(Begin(f.stream), f.at), Timed(Answer(f.stream, f.response), f.at),
      Timed(GiveUp(f.stream), f.at), Timed(Wake(f.stream), f.at) ]
  }

  function RetriedAll(failures: seq<Failure>): seq<Timed> {
    if failures == [] then [] else Retried(failures[0]) + RetriedAll(failures[1..])
  }

  /** After the deadline every stream finds the phase over. */
  function Leave(from: nat, streams: nat, end: int): seq<Timed>
    requires from <= streams
    decreases streams - from
  {
    if from == streams then [] else [Timed(Begin(from), end)] + Leave(from + 1, streams, end)
  }

  ghost predicate AllReady(p: Phase, from: nat) {
    forall i :: from <= i < |p.streams| ==> p.streams[i] == Ready
  }

  lemma RunCons(p: Phase, e: Timed, rest: seq<Timed>)
    ensures Run(p, [e] + rest) == Run(Step(p, e.ev, e.at), rest)
    ensures Fed(p, [e] + rest) == Given(p, e.ev, e.at) + Fed(Step(p, e.ev, e.at), rest)
  {
    assert ([e] + rest)[1..] == rest;
  }

  lemma {:induction false} FedAppend(p: Phase, a: seq<Timed>, b: seq<Timed>)
    ensures Fed(p, a + b) == Fed(p, a) + Fed(Run(p, a), b)
    decreases |a|
  {
    if a == [] {
      assert a + b == b;
    } else {
      assert (a + b)[1..] == a[1..] + b;
      FedAppend(Step(p, a[0].ev, a[0].at), a[1..], b);
    }
  }

  lemma RetriedIdle(p: Phase, f: Failure)
    requires f.stream < |p.streams| && p.streams[f.stream] == Ready && !p.over && f.response != Status(STATUS_OK)
    ensures Run(p, Retried(f)) == p && Fed(p, Retried(f)) == []
  {
    var i, r := f.stream, Retried(f);
    assert r == [r[0]] + ([r[1]] + ([r[2]] + ([r[3]] + [])));
    var q0 := Step(p, r[0].ev, f.at);
    var q1 := Step(q0, r[1].ev, f.at);
    var q2 := Step(q1, r[2].ev, f.at);
    RunCons(p, r[0], [r[1]] + ([r[2]] + ([r[3]] + [])));
    RunCons(q0, r[1], [r[2]] + ([r[3]] + []));
    RunCons(q1, r[2], [r[3]] + []);
    RunCons(q2, r[3], []);
    assert Step(q2, r[3].ev, f.at).streams == p.streams;
  }

  lemma {:induction false} RetriedAllIdle(p: Phase, failures: seq<Failure>)
    requires AllReady(p, 0) && !p.over
    requires forall f :: f in failures ==> f.stream < |p.streams| && f.response != Status(STATUS_OK)
    ensures Run(p, RetriedAll(failures)) == p && Fed(p, RetriedAll(failures)) == []
  {
    if failures != [] {
      RetriedIdle(p, failures[0]);
      RetriedAllIdle(p, failures[1..]);
      RunAppend(p, Retried(failures[0]), RetriedAll(failures[1..]));
      FedAppend(p, Retried(failures[0]), RetriedAll(failures[1..]));
    }
  }

  lemma {:induction false} LeaveEnds(p: Phase, from: nat, end: int)
    requires p.over && from <= |p.streams| && AllReady(p, from)
    requires forall i :: 0 <= i < from ==> p.streams[i] == Ended
    ensures var q := Run(p, Leave(from, |p.streams|, end));
            && q.meter == p.meter && (forall s :: s in q.streams ==> s.Ended?)
            && Fed(p, Leave(from, |p.streams|, end)) == []
    decreases |p.streams| - from
  {
    if from < |p.streams| {
      RunCons(p, Timed(Begin(from), end), Leave(from + 1, |p.streams|, end));
      LeaveEnds(With(p, from, Ended), from + 1, end);
    }
  }

  /** One upload is committed at the end of the grace period, and every request after it fails
      until the deadline. */
  function LateUpload(m: Meter, start: int, streams: nat, blob: nat, failures: seq<Failure>,
                      duration: int): seq<Timed> {
    var cross, end := start + m.grace, start + m.grace + duration;
    UploadEvents(0, [blob], Status(STATUS_OK), start, cross)
    + (RetriedAll(failures) + ([Timed(Deadline, end)] + Leave(0, streams, end)))
  }

  /** Delivering bytes does not save a phase: the blob is accepted and thrown away with the grace
      period, and the phase is judged by a meter that shows nothing. */
  lemma DeliveredButDiscarded(m: Meter, start: int, streams: nat, blob: nat, failures: seq<Failure>, duration: int)
    requires start != ZERO_TIME && m.grace > 0 && streams >= 1 && blob > 0 && duration > 0
    requires forall f :: f in failures ==> f.stream < streams && f.response != Status(STATUS_OK)
    requires forall f :: f in failures ==> start + m.grace <= f.at < start + m.grace + duration
    ensures var ready := Begun(Up, blob, streams, m, start);
            var events := LateUpload(m, start, streams, blob, failures, duration);
            && (forall s :: s in Run(ready, events).streams ==> s.Ended?)
            && Credit(ready, events, {}) == blob
            && Stopped(Run(ready, events).meter, start + m.grace + duration).bytes == 0
  {
    var cross, end := start + m.grace, start + m.grace + duration;
    var ready, events := Begun(Up, blob, streams, m, start), LateUpload(m, start, streams, blob, failures, duration);
    var upload, retries := UploadEvents(0, [blob], Status(STATUS_OK), start, cross), RetriedAll(failures);
    var leave := [Timed(Deadline, end)] + Leave(0, streams, end);
    LateRun(ready, blob, start, cross);
    var p := Feed(ready, blob, cross);
    RetriedAllIdle(p, failures);
    RunCons(p, Timed(Deadline, end), Leave(0, streams, end));
    LeaveEnds(p.(over := true), 0, end);
    RunAppend(ready, upload, retries + leave);
    RunAppend(p, retries, leave);
    FedAppend(ready, upload, retries + leave);
    FedAppend(p, retries, leave);
    assert Fed(ready, events) == [Sample(blob, cross)];
    MeterIsWindow(m, start, [Sample(blob, cross)]);
    MeterIsFed(ready, events);
    EndedPhase(Up, blob, streams, m, start, events);
    OneDiscarded(m, start, Sample(blob, cross));
  }

  lemma LateRun(p: Phase, blob: nat, start: int, cross: int)
    requires |p.streams| >= 1 && AllReady(p, 0) && !p.over && p.dir.Up? && p.blob == blob
    ensures var upload := UploadEvents(0, [blob], Status(STATUS_OK), start, cross);
            Run(p, upload) == Feed(p, blob, cross) && Fed(p, upload) == [Sample(blob, cross)]
  {
    OneSend(blob, start);
    UploadAlone(p, 0, [blob], Status(STATUS_OK), start, cross);
    assert p.streams[0 := Ready] == p.streams;
    var begin, send := Timed(Begin(0), start), Timed(Send(0, blob), start);
    var answer, commit := Timed(Answer(0, Status(STATUS_OK)), cross), Timed(Commit(0), cross);
    assert UploadEvents(0, [blob], Status(STATUS_OK), start, cross)
           == [begin] + ([send] + ([answer] + ([commit] + [])));
    LateFed(p, blob, begin, send, answer, commit);
  }

  lemma OneSend(blob: nat, at: int)
    ensures Sends(0, [blob], at) == [Timed(Send(0, blob), at)] && Taken(blob, [blob]) == blob
  {
    assert [blob][..0] == [];
  }

  lemma LateFed(p: Phase, blob: nat, begin: Timed, send: Timed, answer: Timed, commit: Timed)
    requires |p.streams| >= 1 && p.streams[0] == Ready && !p.over && p.dir.Up? && p.blob == blob
    requires begin.ev == Begin(0) && send.ev == Send(0, blob)
    requires answer.ev == Answer(0, Status(STATUS_OK)) && commit.ev == Commit(0)
    ensures Fed(p, [begin] + ([send] + ([answer] + ([commit] + [])))) == [Sample(blob, commit.at)]
  {
    var q0 := Step(p, begin.ev, begin.at);
    var q1 := Step(q0, send.ev, send.at);
    var q2 := Step(q1, answer.ev, answer.at);
    RunCons(p, begin, [send] + ([answer] + ([commit] + [])));
    RunCons(q0, send, [answer] + ([commit] + []));
    RunCons(q1, answer, [commit] + []);
    RunCons(q2, commit, []);
  }

  lemma OneDiscarded(m: Meter, start: int, s: Sample)
    requires m.grace > 0 && s.at == start + m.grace
    ensures Window([s], start, m.grace) == [] && Discarded([s], start, m.grace) == [s] && Bytes([s]) == s.bytes
  {
    assert [s][1..] == [];
  }
}
