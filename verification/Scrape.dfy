/**
 A scrape of the registry of a running server: what it shows of the requests served so far.
 */
module Scrapes {
  import opened Middleware
  import E = Exposition
  import M = Metrics
  import RL = RateLimit

  /** A series that the server counts, or its gauge. */
  predicate ServerSeries(s: M.Series) {
    if s.kind == M.Counter then E.ServerCounter(s.name) else s.name == M.ACTIVE_STREAMS
  }

  lemma TypedServer(typ: string)
    ensures ServerSeries(Started(typ)) && ServerSeries(Completed(typ)) && ServerSeries(STREAMS)
  {
    PrefixOfTyped(M.TESTS_STARTED, typ);
    PrefixOfTyped(M.TESTS_COMPLETED, typ);
  }

  lemma PrefixOfTyped(name: string, typ: string)
    ensures name + "{" <= M.Typed(name, typ)
  {
  }

  ghost predicate OnlyServer(m: M.Machine) {
    && (forall s :: s in m.bound ==> ServerSeries(s))
    && (forall t :: t in m.ops ==> ServerSeries(m.ops[t].call.Target()))
  }

  /** The other goroutines of the server count bytes, and nothing else. */
  predicate CountsBytes(ev: Event) {
    ev.Begin? ==> ev.call.Add? && (ev.call.name == M.BYTES_SERVED || ev.call.name == M.BYTES_RECEIVED)
  }

  lemma {:induction false} BindAllServer(m: M.Machine, ss: seq<M.Series>)
    requires OnlyServer(m) && forall s :: s in ss ==> ServerSeries(s)
    ensures OnlyServer(M.BindAll(m, ss))
    decreases |ss|
  {
    if ss != [] { BindAllServer(M.Bind(m, ss[0]), ss[1..]); }
  }

  lemma KnownServer(name: string)
    requires name in M.KNOWN_COUNTERS
    ensures E.ServerCounter(name)
  {
    TypedServer("download");
    TypedServer("upload");
    TypedServer("ws");
  }

  lemma NewServer()
    ensures OnlyServer(M.NewMachine)
  {
    var known := seq(|M.KNOWN_COUNTERS|, i requires 0 <= i < |M.KNOWN_COUNTERS| =>
                   M.Series(M.Counter, M.KNOWN_COUNTERS[i]));
    var all := known + [M.Series(M.Gauge, M.ACTIVE_STREAMS)];
    forall s | s in all ensures ServerSeries(s) {
      if s in known {
        var i :| 0 <= i < |known| && known[i] == s;
        KnownServer(M.KNOWN_COUNTERS[i]);
      }
    }
    BindAllServer(M.Machine(map[], [], map[], []), all);
  }

  lemma PendingServer(r: Req)
    requires Pending(r).Some?
    ensures ServerSeries(Pending(r).value.Target())
  {
    TypedServer(r.typ);
  }

  lemma NextServer(m: M.Machine, move: M.Move)
    requires OnlyServer(m) && (move.Begin? ==> ServerSeries(move.call.Target()))
    ensures OnlyServer(M.Next(m, move))
  {
  }

  lemma AdvanceServer(s: System, id: nat, r: Req)
    requires OnlyServer(s.registry)
    ensures OnlyServer(Advance(s, id, r).registry)
  {
    if Pending(r).Some? {
      PendingServer(r);
      NextServer(s.registry, M.Begin(M.Request(id), Pending(r).value));
    }
  }

  lemma StepServer(c: RL.Config, s: System, ev: Event)
    requires OnlyServer(s.registry) && CountsBytes(ev)
    ensures OnlyServer(Step(c, s, ev).registry)
  {
    match ev
    case Arrive(id, ip, typ, now) =>
      if id !in s.reqs {
        AdvanceServer(s.(limiter := RL.Step(c, s.limiter, RL.Event.Acquire(ip, now))), id, Step(c, s, ev).reqs[id]);
      }
    case Return(id) => if id in s.reqs { AdvanceServer(s, id, s.reqs[id].(stage := Completing)); }
    case Panic(id) => if id in s.reqs { AdvanceServer(s, id, s.reqs[id].(stage := Lowering(true))); }
    case Release(_) =>
    case Begin(other, call) => NextServer(s.registry, M.Begin(M.Background(other), call));
    case Read(t) => NextServer(s.registry, M.Read(t));
    case Write(t) => NextServer(s.registry, M.Write(t));
    case Commit(t) =>
      NextServer(s.registry, M.Commit(t));
      if t.Request? && t.id in s.reqs {
        AdvanceServer(s.(registry := M.Next(s.registry, M.Commit(t))), t.id, AfterCall(s.reqs[t.id]));
      }
  }

  lemma {:induction false} RunServer(c: RL.Config, s: System, events: seq<Event>)
    requires OnlyServer(s.registry) && forall ev :: ev in events ==> CountsBytes(ev)
    ensures OnlyServer(Run(c, s, events).registry)
    decreases |events|
  {
    if events != [] {
      StepServer(c, s, events[0]);
      RunServer(c, Step(c, s, events[0]), events[1..]);
    }
  }

  /** The values of all series of a kind, by name. */
  function Values(m: M.Machine, kind: M.Kind): map<string, int> {
    map s | s in m.bound && s.kind == kind :: s.name := M.Shown(m, s)
  }

  lemma ValuesServer(m: M.Machine)
    requires OnlyServer(m)
    ensures var c, g := Values(m, M.Counter), Values(m, M.Gauge);
            (forall n :: n in c ==> E.ServerCounter(n)) && (forall n :: n in g ==> n == M.ACTIVE_STREAMS)
  {
    forall n | n in Values(m, M.Counter) ensures E.ServerCounter(n) { assert M.Series(M.Counter, n) in m.bound; }
    forall n | n in Values(m, M.Gauge) ensures n == M.ACTIVE_STREAMS { assert M.Series(M.Gauge, n) in m.bound; }
  }

  /** Whenever the server is scraped there is one text that can come out. */
  lemma ScrapeIsOne(c: RL.Config, events: seq<Event>, a: seq<E.Line>, b: seq<E.Line>)
    requires forall ev :: ev in events ==> CountsBytes(ev)
    requires var m := Run(c, Idle, events).registry;
             && E.Renders(Values(m, M.Counter), Values(m, M.Gauge), a)
             && E.Renders(Values(m, M.Counter), Values(m, M.Gauge), b)
    ensures a == b
  {
    var m := Run(c, Idle, events).registry;
    NewServer();
    RunServer(c, Idle, events);
    ValuesServer(m);
    E.ServerScrapeCanonical(Values(m, M.Counter), Values(m, M.Gauge), a, b);
  }

  lemma NamesApart(m: M.Machine)
    requires OnlyServer(m)
    ensures Values(m, M.Counter).Keys !! Values(m, M.Gauge).Keys
  {
    ValuesServer(m);
    forall n | n in Values(m, M.Gauge) ensures n !in Values(m, M.Counter) {
      E.GaugeApart(n);
      if n in Values(m, M.Counter) { E.ServerFamily(n); E.FamilyStops(n, n); }
    }
  }

  /** It shows a test series, once there is one, with the number of requests past that point. */
  lemma ScrapeShowsTests(c: RL.Config, events: seq<Event>, out: seq<E.Line>, typ: string)
    requires forall ev :: ev in events ==> CountsBytes(ev)
    requires var m := Run(c, Idle, events).registry;
             E.IsExposition(out, Values(m, M.Counter), Values(m, M.Gauge))
    ensures var s := Run(c, Idle, events);
            Started(typ) in s.registry.bound ==>
              forall v :: E.Sample(M.Typed(M.TESTS_STARTED, typ), v) in out <==> v == Tally(s.reqs, Begun(typ))
    ensures var s := Run(c, Idle, events);
            Completed(typ) in s.registry.bound ==>
              forall v :: E.Sample(M.Typed(M.TESTS_COMPLETED, typ), v) in out <==> v == Tally(s.reqs, Finished(typ))
  {
    var s := Run(c, Idle, events);
    NewServer();
    RunServer(c, Idle, events);
    NamesApart(s.registry);
    Conservation(c, events, typ, RL.Addr(0));
    if Started(typ) in s.registry.bound { SampleOf(s.registry, out, Started(typ)); }
    if Completed(typ) in s.registry.bound { SampleOf(s.registry, out, Completed(typ)); }
  }

  lemma SampleOf(m: M.Machine, out: seq<E.Line>, s: M.Series)
    requires s in m.bound && s.kind == M.Counter
    requires E.IsExposition(out, Values(m, M.Counter), Values(m, M.Gauge))
    requires Values(m, M.Counter).Keys !! Values(m, M.Gauge).Keys
    ensures forall v :: E.Sample(s.name, v) in out <==> v == M.Shown(m, s)
  {
    assert s.name in Values(m, M.Counter) && Values(m, M.Counter)[s.name] == M.Shown(m, s);
    E.OneSample(out, Values(m, M.Counter), Values(m, M.Gauge), s.name);
  }
}
