/**
 Requests in terms of what happened to them: which were admitted, which handlers returned and which
 panicked, against what the registry shows; and one request that nobody interrupts.
 */
module Requests {
  import opened Options
  import opened Middleware
  import M = Metrics
  import RL = RateLimit

  // ---- counting events -------------------------------------------------------------------------

  /** The event admits a new request of this type. */
  predicate Admits(c: RL.Config, s: System, ev: Event, typ: string) {
    ev.Arrive? && ev.id !in s.reqs && ev.typ == typ && RL.Granted(c, s.limiter.view, ev.ip, ev.now)
  }

  predicate Serving(s: System, id: nat, typ: string) {
    id in s.reqs && s.reqs[id].typ == typ && s.reqs[id].stage.Serving?
  }

  function One(b: bool): nat {
    if b then 1 else 0
  }

  function Admissions(c: RL.Config, s: System, events: seq<Event>, typ: string): nat
    decreases |events|
  {
    if events == [] then 0
    else One(Admits(c, s, events[0], typ)) + Admissions(c, Step(c, s, events[0]), events[1..], typ)
  }

  /** How many handlers of this type returned. */
  function Returns(c: RL.Config, s: System, events: seq<Event>, typ: string): nat
    decreases |events|
  {
    if events == [] then 0
    else
      One(events[0].Return? && Serving(s, events[0].id, typ)) + Returns(c, Step(c, s, events[0]), events[1..], typ)
  }

  /** How many of them panicked. */
  function Panics(c: RL.Config, s: System, events: seq<Event>, typ: string): nat
    decreases |events|
  {
    if events == [] then 0
    else
      One(events[0].Panic? && Serving(s, events[0].id, typ)) + Panics(c, Step(c, s, events[0]), events[1..], typ)
  }

  function Delta(before: map<nat, Req>, after: map<nat, Req>, id: nat, q: Measure): int {
    One(id in after && Counts(q, after[id])) - One(id in before && Counts(q, before[id]))
  }

  lemma Moved(before: map<nat, Req>, after: map<nat, Req>, id: nat, q: Measure)
    requires id in after && after == before[id := after[id]]
    ensures Tally(after, q) == Tally(before, q) + Delta(before, after, id, q)
  {
    TallyUpdate(before, id, after[id], q);
  }

  /** An event moves one request at most. */
  lemma OneMoves(c: RL.Config, s: System, ev: Event) returns (id: nat)
    ensures var r := Step(c, s, ev).reqs; r == s.reqs || (id in r && r == s.reqs[id := r[id]])
    ensures !ev.Begin? && !ev.Read? && !ev.Write? && !ev.Commit? ==> id == ev.id
    ensures ev.Commit? && ev.t.Request? ==> id == ev.t.id
  {
    id := match ev
      case Arrive(id, _, _, _) => id
      case Return(id) => id
      case Panic(id) => id
      case Release(id) => id
      case Begin(other, _) => other
      case Read(t) => t.id
      case Write(t) => t.id
      case Commit(t) => t.id;
  }

  lemma StepMoves(c: RL.Config, s: System, ev: Event, q: Measure) returns (id: nat)
    ensures var r := Step(c, s, ev).reqs;
            Tally(r, q) == Tally(s.reqs, q) + if r == s.reqs then 0 else Delta(s.reqs, r, id, q)
    ensures !ev.Begin? && !ev.Read? && !ev.Write? && !ev.Commit? ==> id == ev.id
    ensures ev.Commit? && ev.t.Request? ==> id == ev.t.id
  {
    id := OneMoves(c, s, ev);
    var r := Step(c, s, ev).reqs;
    if r != s.reqs { Moved(s.reqs, r, id, q); }
  }

  lemma StepAdmits(c: RL.Config, s: System, ev: Event, typ: string)
    ensures var r := Step(c, s, ev).reqs;
            Tally(r, Entering(typ)) + Tally(r, Begun(typ))
            == Tally(s.reqs, Entering(typ)) + Tally(s.reqs, Begun(typ)) + One(Admits(c, s, ev, typ))
  {
    var a := StepMoves(c, s, ev, Entering(typ));
    var b := StepMoves(c, s, ev, Begun(typ));
  }

  lemma StepReturns(c: RL.Config, s: System, ev: Event, typ: string)
    ensures var r := Step(c, s, ev).reqs;
            Tally(r, Leaving(typ)) + Tally(r, Finished(typ))
            == Tally(s.reqs, Leaving(typ)) + Tally(s.reqs, Finished(typ)) + One(ev.Return? && Serving(s, ev.id, typ))
  {
    var a := StepMoves(c, s, ev, Leaving(typ));
    var b := StepMoves(c, s, ev, Finished(typ));
  }

  lemma StepPanics(c: RL.Config, s: System, ev: Event, typ: string)
    ensures Tally(Step(c, s, ev).reqs, Panicked(typ))
            == Tally(s.reqs, Panicked(typ)) + One(ev.Panic? && Serving(s, ev.id, typ))
  {
    var a := StepMoves(c, s, ev, Panicked(typ));
  }

  lemma {:induction false} RunCounts(c: RL.Config, s: System, events: seq<Event>, typ: string)
    ensures var r := Run(c, s, events).reqs;
            && Tally(r, Entering(typ)) + Tally(r, Begun(typ))
               == Tally(s.reqs, Entering(typ)) + Tally(s.reqs, Begun(typ)) + Admissions(c, s, events, typ)
            && Tally(r, Leaving(typ)) + Tally(r, Finished(typ))
               == Tally(s.reqs, Leaving(typ)) + Tally(s.reqs, Finished(typ)) + Returns(c, s, events, typ)
            && Tally(r, Panicked(typ)) == Tally(s.reqs, Panicked(typ)) + Panics(c, s, events, typ)
    decreases |events|
  {
    if events != [] {
      StepAdmits(c, s, events[0], typ);
      StepReturns(c, s, events[0], typ);
      StepPanics(c, s, events[0], typ);
      RunCounts(c, Step(c, s, events[0]), events[1..], typ);
    }
  }

  /** Over every interleaving: the started series shows the requests admitted, the completed series
      the handlers that returned, each but for those inside that very call; and the requests counted
      as panicked are those whose handlers did. */
  lemma CountersAreEvents(c: RL.Config, events: seq<Event>, typ: string)
    ensures var s := Run(c, Idle, events);
            && M.Shown(s.registry, Started(typ)) + Tally(s.reqs, Entering(typ)) == Admissions(c, Idle, events, typ)
            && M.Shown(s.registry, Completed(typ)) + Tally(s.reqs, Leaving(typ)) == Returns(c, Idle, events, typ)
            && Tally(s.reqs, Panicked(typ)) == Panics(c, Idle, events, typ)
  {
    Conservation(c, events, typ, RL.Addr(0));
    RunCounts(c, Idle, events, typ);
    assert Counted(Idle.reqs, Entering(typ)) == {} && Counted(Idle.reqs, Begun(typ)) == {};
    assert Counted(Idle.reqs, Leaving(typ)) == {} && Counted(Idle.reqs, Finished(typ)) == {};
    assert Counted(Idle.reqs, Panicked(typ)) == {};
  }

  // ---- one request alone -------------------------------------------------------------------------

  lemma {:induction false} RunAppend(c: RL.Config, s: System, a: seq<Event>, b: seq<Event>)
    ensures Run(c, s, a + b) == Run(c, Run(c, s, a), b)
    decreases |a|
  {
    if a == [] {
      assert a + b == b;
    } else {
      assert (a + b)[1..] == a[1..] + b;
      RunAppend(c, Step(c, s, a[0]), a[1..], b);
    }
  }

  /** The steps of the registry call a request is at. */
  function Call(id: nat): seq<Event> {
    [Read(M.Request(id)), Write(M.Request(id)), Commit(M.Request(id))]
  }

  /** The request is at `r`, at the lookup of its registry call if it is in one. */
  ghost predicate Standing(s: System, id: nat, r: Req) {
    && M.Sound(s.registry) && id in s.reqs && s.reqs[id] == r
    && if Pending(r).Some? then
         M.Request(id) in s.registry.ops && s.registry.ops[M.Request(id)] == M.Op(Pending(r).value, M.Look)
       else
         M.Request(id) !in s.registry.ops
  }

  /** The registry shows these values. */
  ghost predicate Shows(m: M.Machine, values: map<M.Series, int>) {
    forall q :: M.Shown(m, q) == M.ValueOf(values, q)
  }

  lemma BeginShows(m: M.Machine, t: M.Thread, call: M.Call, values: map<M.Series, int>)
    requires M.Sound(m) && Shows(m, values)
    ensures M.Sound(M.Next(m, M.Begin(t, call))) && Shows(M.Next(m, M.Begin(t, call)), values)
  {
    M.NextSound(m, M.Begin(t, call));
    forall q ensures M.Shown(M.Next(m, M.Begin(t, call)), q) == M.ValueOf(values, q) {
      assert M.Shown(m, q) == M.ValueOf(values, q);
    }
  }

  lemma AdvanceStands(s: System, id: nat, r: Req, values: map<M.Series, int>)
    requires M.Sound(s.registry) && M.Request(id) !in s.registry.ops && Shows(s.registry, values)
    ensures Standing(Advance(s, id, r), id, r) && Shows(Advance(s, id, r).registry, values)
    ensures Advance(s, id, r).limiter == s.limiter
  {
    if Pending(r).Some? { BeginShows(s.registry, M.Request(id), Pending(r).value, values); }
  }

  lemma CallShows(m: M.Machine, t: M.Thread, values: map<M.Series, int>)
    requires M.Sound(m) && Shows(m, values) && t in m.ops && m.ops[t].phase.Look?
    ensures var n := M.Next(M.Next(M.Next(m, M.Read(t)), M.Write(t)), M.Commit(t));
            M.Sound(n) && t !in n.ops && Shows(n, M.Done(values, m.ops[t].call))
  {
    M.LookCompletes(m, t);
    var call, n := m.ops[t].call, M.Next(M.Next(M.Next(m, M.Read(t)), M.Write(t)), M.Commit(t));
    forall q ensures M.Shown(n, q) == M.ValueOf(M.Done(values, call), q) {
      assert M.Exact(m, q) && M.Exact(n, q) && M.Shown(m, q) == M.ValueOf(values, q);
      assert M.Shown(m, call.Target()) == M.ValueOf(values, call.Target());
      M.OutcomeSnoc(m.log, call, q);
    }
  }

  lemma RunCall(c: RL.Config, s: System, id: nat)
    ensures Run(c, s, Call(id))
            == Step(c, Step(c, Step(c, s, Read(M.Request(id))), Write(M.Request(id))), Commit(M.Request(id)))
  {
    var a, b, d := Read(M.Request(id)), Write(M.Request(id)), Commit(M.Request(id));
    assert Call(id) == [a] + ([b] + [d]);
    RunAppend(c, s, [a], [b] + [d]);
    RunOne(c, s, a);
    RunAppend(c, Step(c, s, a), [b], [d]);
    RunOne(c, Step(c, s, a), b);
    RunOne(c, Step(c, Step(c, s, a), b), d);
  }

  /** A registry call that nobody interrupts takes effect, and the request goes on. */
  lemma CallAlone(c: RL.Config, s: System, id: nat, r: Req, values: map<M.Series, int>)
    requires Standing(s, id, r) && Pending(r).Some? && Shows(s.registry, values)
    ensures var t := Run(c, s, Call(id));
            && Standing(t, id, AfterCall(r)) && t.limiter == s.limiter
            && Shows(t.registry, M.Done(values, Pending(r).value))
  {
    var t, m := M.Request(id), s.registry;
    RunCall(c, s, id);
    CallShows(m, t, values);
    M.LookCompletes(m, t);
    var done := s.(registry := M.Next(M.Next(M.Next(m, M.Read(t)), M.Write(t)), M.Commit(t)));
    AdvanceStands(done, id, AfterCall(r), M.Done(values, Pending(r).value));
  }

  /** From its admission to its handler. */
  function Upward(id: nat, ip: RL.Addr, typ: string, now: int): seq<Event> {
    [Arrive(id, ip, typ, now)] + (Call(id) + Call(id))
  }

  /** From the end of its handler to the end of the request. */
  function Downward(id: nat, panics: bool): seq<Event> {
    if panics then [Panic(id)] + (Call(id) + [Release(id)])
    else [Return(id)] + (Call(id) + (Call(id) + [Release(id)]))
  }

  lemma RunOne(c: RL.Config, s: System, ev: Event)
    ensures Run(c, s, [ev]) == Step(c, s, ev)
  {
    assert [ev][1..] == [];
  }

  lemma UpwardAlone(c: RL.Config, s: System, id: nat, ip: RL.Addr, typ: string, now: int, values: map<M.Series, int>)
    requires M.Sound(s.registry) && id !in s.reqs && M.Request(id) !in s.registry.ops && Shows(s.registry, values)
    requires RL.Granted(c, s.limiter.view, ip, now)
    ensures var t := Run(c, s, Upward(id, ip, typ, now));
            && Standing(t, id, Req(ip, typ, |RL.TicketsOf(s.limiter, ip)|, Middleware.Serving))
            && t.limiter == RL.Step(c, s.limiter, RL.Event.Acquire(ip, now))
            && Shows(t.registry, Opened(values, typ))
  {
    var arrive, r := Arrive(id, ip, typ, now), Req(ip, typ, |RL.TicketsOf(s.limiter, ip)|, Starting);
    var asked := s.(limiter := RL.Step(c, s.limiter, RL.Event.Acquire(ip, now)));
    AdvanceStands(asked, id, r, values);
    RunAppend(c, s, [arrive], Call(id) + Call(id));
    RunOne(c, s, arrive);
    var a := Step(c, s, arrive);
    RunAppend(c, a, Call(id), Call(id));
    CallAlone(c, a, id, r, values);
    CallAlone(c, Run(c, a, Call(id)), id, AfterCall(r), M.Done(values, Pending(r).value));
  }

  /** The last two steps: the gauge goes down and the slot is given back. */
  lemma LowerAndRelease(c: RL.Config, s: System, id: nat, r: Req, values: map<M.Series, int>)
    requires Standing(s, id, r) && r.stage.Lowering? && Shows(s.registry, values)
    ensures var t := Run(c, s, Call(id) + [Release(id)]);
            && id in t.reqs && t.reqs[id] == r.(stage := Over(r.stage.panicked))
            && t.limiter == RL.Step(c, s.limiter, RL.Event.Release(r.ip, r.ticket))
            && Shows(t.registry, M.Done(values, M.AddGauge(M.ACTIVE_STREAMS, -1)))
  {
    RunAppend(c, s, Call(id), [Release(id)]);
    CallAlone(c, s, id, r, values);
    RunOne(c, Run(c, s, Call(id)), Release(id));
  }

  lemma DownwardAlone(c: RL.Config, s: System, id: nat, r: Req, panics: bool, values: map<M.Series, int>)
    requires Standing(s, id, r) && r.stage.Serving? && Shows(s.registry, values)
    ensures var t := Run(c, s, Downward(id, panics));
            && id in t.reqs && t.reqs[id] == r.(stage := Over(panics))
            && t.limiter == RL.Step(c, s.limiter, RL.Event.Release(r.ip, r.ticket))
            && Shows(t.registry, Closed(values, r.typ, panics))
  {
    var ev := if panics then Panic(id) else Return(id);
    var next := r.(stage := if panics then Lowering(true) else Completing);
    AdvanceStands(s, id, next, values);
    RunOne(c, s, ev);
    var a := Step(c, s, ev);
    if panics {
      RunAppend(c, s, [ev], Call(id) + [Release(id)]);
      LowerAndRelease(c, a, id, next, values);
    } else {
      RunAppend(c, s, [ev], Call(id) + (Call(id) + [Release(id)]));
      RunAppend(c, a, Call(id), Call(id) + [Release(id)]);
      CallAlone(c, a, id, next, values);
      LowerAndRelease(c, Run(c, a, Call(id)), id, AfterCall(next), M.Done(values, Pending(next).value));
    }
  }

  /** The steps of a request that nobody interrupts do to limiter and registry what `TestMW` does: they
      count it as started, and as completed if and only if its handler returned. */
  lemma RequestAlone(c: RL.Config, s: System, id: nat, ip: RL.Addr, typ: string, now: int, panics: bool,
                     values: map<M.Series, int>)
    requires M.Sound(s.registry) && id !in s.reqs && M.Request(id) !in s.registry.ops && Shows(s.registry, values)
    requires RL.Granted(c, s.limiter.view, ip, now)
    ensures var t := Run(c, s, Upward(id, ip, typ, now) + Downward(id, panics));
            && Shows(t.registry, Instrumented(values, typ, panics))
            && t.limiter == RL.Step(c, RL.Step(c, s.limiter, RL.Event.Acquire(ip, now)),
                                    RL.Event.Release(ip, |RL.TicketsOf(s.limiter, ip)|))
  {
    RunAppend(c, s, Upward(id, ip, typ, now), Downward(id, panics));
    UpwardAlone(c, s, id, ip, typ, now, values);
    DownwardAlone(c, Run(c, s, Upward(id, ip, typ, now)), id,
                  Req(ip, typ, |RL.TicketsOf(s.limiter, ip)|, Middleware.Serving), panics, Opened(values, typ));
  }
}
