/**
 The request middleware over the limiter and the metrics registry, as a system of steps that
 any number of requests take in any order: admission, the started counter, the stream gauge up,
 the handler, the completed counter unless the handler panicked, and the two deferred steps.
 Every counter update is itself cut at the registry's lock boundaries.
 */
module Middleware {
  import opened Options
  import RL = RateLimit
  import RR = RateLimitRuns
  import M = Metrics

  /** What a request is about to do next. `panicked` tells how its handler ended. */
  datatype Stage =
    | Refused
    | Starting
    | Raising
    | Serving
    | Completing
    | Lowering(panicked: bool)
    | Releasing(panicked: bool)
    | Over(panicked: bool)

  datatype Req = Req(ip: RL.Addr, typ: string, ticket: nat, stage: Stage)

  datatype System = System(limiter: RL.State, registry: M.Machine, reqs: map<nat, Req>)

  /** `Begin` is any other goroutine starting to update a series the middleware does not use. */
  datatype Event =
    | Arrive(id: nat, ip: RL.Addr, typ: string, now: int)
    | Return(id: nat)
    | Panic(id: nat)
    | Release(id: nat)
    | Begin(other: nat, call: M.Call)
    | Read(t: M.Thread)
    | Write(t: M.Thread)
    | Commit(t: M.Thread)

  const STREAMS := M.Series(M.Gauge, M.ACTIVE_STREAMS)

  function Started(typ: string): M.Series {
    M.Series(M.Counter, M.Typed(M.TESTS_STARTED, typ))
  }

  function Completed(typ: string): M.Series {
    M.Series(M.Counter, M.Typed(M.TESTS_COMPLETED, typ))
  }

  predicate Watched(s: M.Series) {
    s == STREAMS || (s.kind == M.Counter && (M.TESTS_STARTED <= s.name || M.TESTS_COMPLETED <= s.name))
  }

  /** The registry call a request is in the middle of at this stage. */
  function Pending(r: Req): Option<M.Call> {
    match r.stage
    case Starting => Some(M.Add(Started(r.typ).name, 1))
    case Raising => Some(M.AddGauge(M.ACTIVE_STREAMS, 1))
    case Completing => Some(M.Add(Completed(r.typ).name, 1))
    case Lowering(_) => Some(M.AddGauge(M.ACTIVE_STREAMS, -1))
    case _ => None
  }

  function AfterCall(r: Req): Req {
    match r.stage
    case Starting => r.(stage := Raising)
    case Raising => r.(stage := Serving)
    case Completing => r.(stage := Lowering(false))
    case Lowering(p) => r.(stage := Releasing(p))
    case _ => r
  }

  /** Moves a request on, and into its next registry call if it has one. */
  function Advance(s: System, id: nat, r: Req): System {
    System(s.limiter,
           if Pending(r).Some? then M.Next(s.registry, M.Begin(M.Request(id), Pending(r).value)) else s.registry,
           s.reqs[id := r])
  }

  predicate InCell(m: M.Machine, t: M.Thread) {
    t in m.ops && m.ops[t].phase.Holding? && m.ops[t].phase.cell < |m.cells|
  }

  function Step(c: RL.Config, s: System, ev: Event): System {
    match ev
    case Arrive(id, ip, typ, now) =>
      if id in s.reqs then s
      else
        var t := s.(limiter := RL.Step(c, s.limiter, RL.Event.Acquire(ip, now)));
        var k := |RL.TicketsOf(s.limiter, ip)|;
        Advance(t, id, Req(ip, typ, k, if RL.Granted(c, s.limiter.view, ip, now) then Starting else Refused))
    case Return(id) =>
      if id in s.reqs && s.reqs[id].stage.Serving? then Advance(s, id, s.reqs[id].(stage := Completing)) else s
    case Panic(id) =>
      if id in s.reqs && s.reqs[id].stage.Serving? then Advance(s, id, s.reqs[id].(stage := Lowering(true))) else s
    case Release(id) =>
      if id in s.reqs && s.reqs[id].stage.Releasing? then
        var r := s.reqs[id];
        s.(limiter := RL.Step(c, s.limiter, RL.Event.Release(r.ip, r.ticket)),
           reqs := s.reqs[id := r.(stage := Over(r.stage.panicked))])
      else s
    case Begin(other, call) =>
      if Watched(call.Target()) then s else s.(registry := M.Next(s.registry, M.Begin(M.Background(other), call)))
    case Read(t) => s.(registry := M.Next(s.registry, M.Read(t)))
    case Write(t) => s.(registry := M.Next(s.registry, M.Write(t)))
    case Commit(t) =>
      var m := s.(registry := M.Next(s.registry, M.Commit(t)));
      if InCell(s.registry, t) && t.Request? && t.id in s.reqs then Advance(m, t.id, AfterCall(s.reqs[t.id])) else m
  }

  function Run(c: RL.Config, s: System, events: seq<Event>): System
    decreases |events|
  {
    if events == [] then s else Run(c, Step(c, s, events[0]), events[1..])
  }

  const Idle: System := System(RL.Fresh, M.NewMachine, map[])

  // ---- counting requests ---------------------------------------------------------

  datatype Measure =
    | Entering(typ: string)   // admitted, inside the call to the started counter
    | Begun(typ: string)      // past the started counter
    | Leaving(typ: string)    // returned, inside the call to the completed counter
    | Finished(typ: string)   // past the completed counter
    | Running(typ: string)    // between the two, handler not panicked
    | Panicked(typ: string)
    | Streaming               // between the gauge's +1 and its -1
    | InFlight(ip: RL.Addr)   // between the granted Acquire and its release

  predicate Counts(q: Measure, r: Req) {
    match q
    case Entering(typ) => r.typ == typ && r.stage.Starting?
    case Leaving(typ) => r.typ == typ && r.stage.Completing?
    case Begun(typ) => r.typ == typ && !r.stage.Refused? && !r.stage.Starting?
    case Finished(typ) =>
      r.typ == typ && (r.stage.Lowering? || r.stage.Releasing? || r.stage.Over?) && !r.stage.panicked
    case Running(typ) => r.typ == typ && (r.stage.Raising? || r.stage.Serving? || r.stage.Completing?)
    case Panicked(typ) => r.typ == typ && (r.stage.Lowering? || r.stage.Releasing? || r.stage.Over?) && r.stage.panicked
    case Streaming => r.stage.Serving? || r.stage.Completing? || r.stage.Lowering?
    case InFlight(ip) => r.ip == ip && !r.stage.Refused? && !r.stage.Over?
  }

  function Counted(reqs: map<nat, Req>, q: Measure): set<nat> {
    set id | id in reqs && Counts(q, reqs[id])
  }

  function Tally(reqs: map<nat, Req>, q: Measure): nat {
    |Counted(reqs, q)|
  }

  lemma TallyUpdate(reqs: map<nat, Req>, id: nat, r: Req, q: Measure)
    ensures Tally(reqs[id := r], q)
            == Tally(reqs, q) - (if id in reqs && Counts(q, reqs[id]) then 1 else 0) + (if Counts(q, r) then 1 else 0)
  {
    var others := Counted(reqs, q) - {id};
    CountedSplit(reqs, id, q);
    CountedSplit(reqs[id := r], id, q);
    assert Counted(reqs[id := r], q) - {id} == others;
  }

  lemma CountedSplit(reqs: map<nat, Req>, id: nat, q: Measure)
    ensures |Counted(reqs, q)| == |Counted(reqs, q) - {id}| + if id in reqs && Counts(q, reqs[id]) then 1 else 0
  {
    var all := Counted(reqs, q);
    if id in all {
      assert all == all - {id} + {id};
    } else {
      assert all == all - {id};
    }
  }

  /** Every request that was started is completed, panicked or still running. */
  lemma BegunSplits(reqs: map<nat, Req>, typ: string)
    ensures Tally(reqs, Begun(typ))
            == Tally(reqs, Finished(typ)) + Tally(reqs, Running(typ)) + Tally(reqs, Panicked(typ))
  {
    var f, r, p := Counted(reqs, Finished(typ)), Counted(reqs, Running(typ)), Counted(reqs, Panicked(typ));
    assert Counted(reqs, Begun(typ)) == f + r + p by {
      forall id ensures id in Counted(reqs, Begun(typ)) <==> id in f + r + p { }
    }
    ThreeParts(f, r, p);
  }

  lemma ThreeParts(a: set<nat>, b: set<nat>, d: set<nat>)
    requires a !! b && a !! d && b !! d
    ensures |a + b + d| == |a| + |b| + |d|
  {
    assert (a + b) !! d;
  }

  // ---- invariants ------------------------------------------------------------------

  /** A request is inside the registry call its stage names, and other goroutines keep away from
      the middleware's series. */
  ghost predicate ReqWired(s: System, id: nat)
    requires id in s.reqs
  {
    if Pending(s.reqs[id]).Some? then
      M.Request(id) in s.registry.ops && s.registry.ops[M.Request(id)].call == Pending(s.reqs[id]).value
    else
      M.Request(id) !in s.registry.ops
  }

  ghost predicate ThreadWired(s: System, t: M.Thread)
    requires t in s.registry.ops
  {
    if t.Request? then t.id in s.reqs else !Watched(s.registry.ops[t].call.Target())
  }

  ghost predicate Wired(s: System) {
    && (forall id :: id in s.reqs ==> ReqWired(s, id))
    && (forall t :: t in s.registry.ops ==> ThreadWired(s, t))
  }

  ghost predicate TypeTallied(s: System, typ: string) {
    && M.Outcome(s.registry.log, Started(typ)) == Tally(s.reqs, Begun(typ))
    && M.Outcome(s.registry.log, Completed(typ)) == Tally(s.reqs, Finished(typ))
  }

  ghost predicate Tallied(s: System) {
    && M.Outcome(s.registry.log, STREAMS) == Tally(s.reqs, Streaming)
    && forall typ :: TypeTallied(s, typ)
  }

  ghost predicate Leased(s: System, id: nat)
    requires id in s.reqs
  {
    var r := s.reqs[id];
    !r.stage.Refused? ==>
      && r.ticket < |RL.TicketsOf(s.limiter, r.ip)|
      && (RL.TicketsOf(s.limiter, r.ip)[r.ticket] <==> r.stage.Over?)
  }

  ghost predicate Apart(s: System, a: nat, b: nat)
    requires a in s.reqs && b in s.reqs
  {
    var r, q := s.reqs[a], s.reqs[b];
    a != b && !r.stage.Refused? && !q.stage.Refused? && r.ip == q.ip ==> r.ticket != q.ticket
  }

  ghost predicate IpTallied(s: System, ip: RL.Addr) {
    RL.ActiveAt(s.limiter, ip) == Tally(s.reqs, InFlight(ip))
  }

  ghost predicate Admitted(c: RL.Config, s: System) {
    && RR.Safe(c, s.limiter)
    && (forall id :: id in s.reqs ==> Leased(s, id))
    && (forall a, b :: a in s.reqs && b in s.reqs ==> Apart(s, a, b))
    && (forall ip :: IpTallied(s, ip))
  }

  ghost predicate Inv(c: RL.Config, s: System) {
    M.Sound(s.registry) && Wired(s) && Tallied(s) && Admitted(c, s)
  }

  lemma SeriesApart(a: string, b: string)
    ensures Started(a) != Completed(b) && Started(a) != STREAMS && Completed(a) != STREAMS
    ensures Started(a) == Started(b) ==> a == b
    ensures Completed(a) == Completed(b) ==> a == b
    ensures Watched(Started(a)) && Watched(Completed(a))
  {
    var s, t := M.TESTS_STARTED, M.TESTS_COMPLETED;
    assert Started(a).name[18] == s[18] == 's' && Completed(b).name[18] == t[18] == 'c';
    if Started(a) == Started(b) { TypedInjective(s, a, b); }
    if Completed(a) == Completed(b) { TypedInjective(t, a, b); }
    assert s <= M.Typed(s, a) && t <= M.Typed(t, a);
  }

  lemma TypedInjective(name: string, a: string, b: string)
    requires M.Typed(name, a) == M.Typed(name, b)
    ensures a == b
  {
    var x, y := M.Typed(name, a), M.Typed(name, b);
    var n := |name + "{type=\""|;
    assert x[n..n + |a|] == a && y[n..n + |b|] == b;
  }

  // ---- one step keeps them -----------------------------------------------------------

  lemma AdvanceWired(s: System, id: nat, r: Req)
    requires forall i :: i in s.reqs && i != id ==> ReqWired(s, i)
    requires forall t :: t in s.registry.ops ==> ThreadWired(s, t)
    requires M.Request(id) !in s.registry.ops
    ensures Wired(Advance(s, id, r))
  {
    var a := Advance(s, id, r);
    forall i | i in a.reqs ensures ReqWired(a, i) { assert i != id ==> ReqWired(s, i); }
    forall t | t in a.registry.ops ensures ThreadWired(a, t) { assert t in s.registry.ops ==> ThreadWired(s, t); }
  }

  lemma ArriveWired(c: RL.Config, s: System, id: nat, ip: RL.Addr, typ: string, now: int)
    requires Wired(s)
    ensures Wired(Step(c, s, Arrive(id, ip, typ, now)))
  {
    if id !in s.reqs {
      var t := s.(limiter := RL.Step(c, s.limiter, RL.Event.Acquire(ip, now)));
      forall i | i in t.reqs ensures ReqWired(t, i) { assert ReqWired(s, i); }
      forall u | u in t.registry.ops ensures ThreadWired(t, u) { assert ThreadWired(s, u); }
      assert M.Request(id) in s.registry.ops ==> ThreadWired(s, M.Request(id));
      AdvanceWired(t, id, Step(c, s, Arrive(id, ip, typ, now)).reqs[id]);
    }
  }

  lemma HandlerWired(c: RL.Config, s: System, id: nat)
    requires Wired(s)
    ensures Wired(Step(c, s, Return(id))) && Wired(Step(c, s, Panic(id)))
  {
    if id in s.reqs && s.reqs[id].stage.Serving? {
      assert ReqWired(s, id);
      AdvanceWired(s, id, s.reqs[id].(stage := Completing));
      AdvanceWired(s, id, s.reqs[id].(stage := Lowering(true)));
    }
  }

  lemma ReleaseWired(c: RL.Config, s: System, id: nat)
    requires Wired(s)
    ensures Wired(Step(c, s, Release(id)))
  {
    var t := Step(c, s, Release(id));
    forall i | i in t.reqs ensures ReqWired(t, i) { assert ReqWired(s, i); }
    forall u | u in t.registry.ops ensures ThreadWired(t, u) { assert ThreadWired(s, u); }
  }

  lemma OtherWired(c: RL.Config, s: System, ev: Event)
    requires Wired(s) && (ev.Begin? || ev.Read? || ev.Write?)
    ensures Wired(Step(c, s, ev))
  {
    var t := Step(c, s, ev);
    forall i | i in t.reqs ensures ReqWired(t, i) { assert ReqWired(s, i); }
    forall u | u in t.registry.ops ensures ThreadWired(t, u) { assert u in s.registry.ops ==> ThreadWired(s, u); }
  }

  lemma CommitWired(c: RL.Config, s: System, t: M.Thread)
    requires Wired(s)
    ensures Wired(Step(c, s, Commit(t)))
  {
    var m := s.(registry := M.Next(s.registry, M.Commit(t)));
    forall u | u in m.registry.ops ensures ThreadWired(m, u) { assert ThreadWired(s, u); }
    forall i | i in m.reqs && M.Request(i) != t ensures ReqWired(m, i) { assert ReqWired(s, i); }
    if InCell(s.registry, t) {
      assert ThreadWired(s, t);
      if t.Request? { AdvanceWired(m, t.id, AfterCall(s.reqs[t.id])); }
    } else {
      assert m == s;
    }
  }

  lemma StepWired(c: RL.Config, s: System, ev: Event)
    requires Wired(s)
    ensures Wired(Step(c, s, ev))
  {
    match ev
    case Arrive(id, ip, typ, now) => ArriveWired(c, s, id, ip, typ, now);
    case Return(id) => HandlerWired(c, s, id);
    case Panic(id) => HandlerWired(c, s, id);
    case Release(id) => ReleaseWired(c, s, id);
    case Commit(t) => CommitWired(c, s, t);
    case _ => OtherWired(c, s, ev);
  }

  /** A step that finishes no registry call moves no request into or out of a count. */
  lemma QuietTallied(s: System, t: System, id: nat)
    requires Tallied(s) && id in t.reqs && t.reqs == s.reqs[id := t.reqs[id]] && t.registry.log == s.registry.log
    requires forall q: Measure :: q.Begun? || q.Finished? || q.Streaming? ==>
               (Counts(q, t.reqs[id]) <==> id in s.reqs && Counts(q, s.reqs[id]))
    ensures Tallied(t)
  {
    TallyUpdate(s.reqs, id, t.reqs[id], Streaming);
    forall typ ensures TypeTallied(t, typ) {
      assert TypeTallied(s, typ);
      TallyUpdate(s.reqs, id, t.reqs[id], Begun(typ));
      TallyUpdate(s.reqs, id, t.reqs[id], Finished(typ));
    }
  }

  /** A registry call that is done adds what the request's move adds to the matching count. */
  lemma DoneCounts(r: Req, typ: string)
    requires Pending(r).Some?
    ensures var call, q := Pending(r).value, AfterCall(r);
            && (if call.Target() == STREAMS then call.delta else 0) == Change(Streaming, r, q)
            && (if call.Target() == Started(typ) then call.delta else 0) == Change(Begun(typ), r, q)
            && (if call.Target() == Completed(typ) then call.delta else 0) == Change(Finished(typ), r, q)
  {
    SeriesApart(typ, r.typ);
    SeriesApart(r.typ, typ);
  }

  function Change(q: Measure, before: Req, after: Req): int {
    (if Counts(q, after) then 1 else 0) - (if Counts(q, before) then 1 else 0)
  }

  lemma DoneTallied(s: System, t: System, id: nat)
    requires Tallied(s) && id in s.reqs && Pending(s.reqs[id]).Some? && t.reqs == s.reqs[id := AfterCall(s.reqs[id])]
    requires t.registry.log == s.registry.log + [Pending(s.reqs[id]).value]
    ensures Tallied(t)
  {
    var r, call := s.reqs[id], Pending(s.reqs[id]).value;
    DoneCounts(r, r.typ);
    M.OutcomeSnoc(s.registry.log, call, STREAMS);
    TallyUpdate(s.reqs, id, AfterCall(r), Streaming);
    forall typ ensures TypeTallied(t, typ) {
      assert TypeTallied(s, typ);
      DoneCounts(r, typ);
      M.OutcomeSnoc(s.registry.log, call, Started(typ));
      M.OutcomeSnoc(s.registry.log, call, Completed(typ));
      TallyUpdate(s.reqs, id, AfterCall(r), Begun(typ));
      TallyUpdate(s.reqs, id, AfterCall(r), Finished(typ));
    }
  }

  /** A call on another series leaves the middleware's counts alone. */
  lemma OtherTallied(s: System, t: System, call: M.Call)
    requires Tallied(s) && t.reqs == s.reqs && t.registry.log == s.registry.log + [call]
    requires !Watched(call.Target())
    ensures Tallied(t)
  {
    M.OutcomeSnoc(s.registry.log, call, STREAMS);
    forall typ ensures TypeTallied(t, typ) {
      assert TypeTallied(s, typ);
      SeriesApart(typ, typ);
      M.OutcomeSnoc(s.registry.log, call, Started(typ));
      M.OutcomeSnoc(s.registry.log, call, Completed(typ));
    }
  }

  lemma SameTallied(s: System, t: System)
    requires Tallied(s) && t.reqs == s.reqs && t.registry.log == s.registry.log
    ensures Tallied(t)
  {
    forall typ ensures TypeTallied(t, typ) { assert TypeTallied(s, typ); }
  }

  lemma CommitTallied(c: RL.Config, s: System, t: M.Thread)
    requires M.Sound(s.registry) && Wired(s) && Tallied(s)
    ensures Tallied(Step(c, s, Commit(t)))
  {
    var s' := Step(c, s, Commit(t));
    if InCell(s.registry, t) {
      var call := s.registry.ops[t].call;
      assert ThreadWired(s, t) && (t.Request? ==> ReqWired(s, t.id));
      if t.Request? {
        DoneTallied(s, s', t.id);
      } else {
        OtherTallied(s, s', call);
      }
    }
  }

  lemma StepTallied(c: RL.Config, s: System, ev: Event)
    requires M.Sound(s.registry) && Wired(s) && Tallied(s)
    ensures Tallied(Step(c, s, ev))
  {
    var s' := Step(c, s, ev);
    match ev
    case Arrive(id, _, _, _) =>
      if id !in s.reqs { QuietTallied(s, s', id); }
    case Return(id) =>
      if s' != s { QuietTallied(s, s', id); }
    case Panic(id) =>
      if s' != s { QuietTallied(s, s', id); }
    case Release(id) =>
      if s' != s { QuietTallied(s, s', id); }
    case Begin(_, _) => SameTallied(s, s');
    case Read(_) => SameTallied(s, s');
    case Write(_) => SameTallied(s, s');
    case Commit(t) => CommitTallied(c, s, t);
  }

  lemma MovedAdmitted(c: RL.Config, s: System, t: System, id: nat)
    requires Admitted(c, s) && t.limiter == s.limiter
    requires id in s.reqs && id in t.reqs && t.reqs == s.reqs[id := t.reqs[id]]
    requires var r, q := s.reqs[id], t.reqs[id];
             && q == r.(stage := q.stage)
             && !r.stage.Refused? && !q.stage.Refused? && !r.stage.Over? && !q.stage.Over?
    ensures Admitted(c, t)
  {
    forall i | i in t.reqs ensures Leased(t, i) { assert Leased(s, i); }
    forall a, b | a in t.reqs && b in t.reqs ensures Apart(t, a, b) { assert Apart(s, a, b); }
    forall ip ensures IpTallied(t, ip) {
      assert IpTallied(s, ip);
      TallyUpdate(s.reqs, id, t.reqs[id], InFlight(ip));
    }
  }

  lemma SameAdmitted(c: RL.Config, s: System, t: System)
    requires Admitted(c, s) && t.limiter == s.limiter && t.reqs == s.reqs
    ensures Admitted(c, t)
  {
    forall i | i in t.reqs ensures Leased(t, i) { assert Leased(s, i); }
    forall a, b | a in t.reqs && b in t.reqs ensures Apart(t, a, b) { assert Apart(s, a, b); }
    forall ip ensures IpTallied(t, ip) { assert IpTallied(s, ip); }
  }

  lemma ArriveAdmitted(c: RL.Config, s: System, ev: Event)
    requires Admitted(c, s) && ev.Arrive? && ev.id !in s.reqs
    ensures Admitted(c, Step(c, s, ev))
  {
    var t := Step(c, s, ev);
    RR.StepSafe(c, s.limiter, RL.Event.Acquire(ev.ip, ev.now));
    forall i | i in t.reqs ensures Leased(t, i) { assert i != ev.id ==> Leased(s, i); }
    forall a, b | a in t.reqs && b in t.reqs ensures Apart(t, a, b) {
      assert a != ev.id ==> Leased(s, a);
      assert b != ev.id ==> Leased(s, b);
      assert a != ev.id && b != ev.id ==> Apart(s, a, b);
    }
    forall ip ensures IpTallied(t, ip) {
      assert IpTallied(s, ip) && RL.Balanced(s.limiter, ip) && RL.Balanced(t.limiter, ip);
      TallyUpdate(s.reqs, ev.id, t.reqs[ev.id], InFlight(ip));
      RL.OutstandingAppend(RL.TicketsOf(s.limiter, ip));
    }
  }

  lemma ReleaseAdmitted(c: RL.Config, s: System, id: nat)
    requires Admitted(c, s) && id in s.reqs && s.reqs[id].stage.Releasing?
    ensures Admitted(c, Step(c, s, Release(id)))
  {
    var t, r := Step(c, s, Release(id)), s.reqs[id];
    RR.StepSafe(c, s.limiter, RL.Event.Release(r.ip, r.ticket));
    assert Leased(s, id);
    forall i | i in t.reqs ensures Leased(t, i) { assert Leased(s, i) && Apart(s, i, id); }
    forall a, b | a in t.reqs && b in t.reqs ensures Apart(t, a, b) { assert Apart(s, a, b); }
    forall ip ensures IpTallied(t, ip) {
      assert IpTallied(s, ip) && RL.Balanced(s.limiter, ip) && RL.Balanced(t.limiter, ip);
      TallyUpdate(s.reqs, id, t.reqs[id], InFlight(ip));
      if ip == r.ip { RL.OutstandingCall(RL.TicketsOf(s.limiter, ip), r.ticket); }
    }
  }

  lemma StepAdmitted(c: RL.Config, s: System, ev: Event)
    requires M.Sound(s.registry) && Wired(s) && Admitted(c, s)
    ensures Admitted(c, Step(c, s, ev))
  {
    var s' := Step(c, s, ev);
    match ev
    case Arrive(id, _, _, _) => if id !in s.reqs { ArriveAdmitted(c, s, ev); }
    case Return(id) => if s' != s { MovedAdmitted(c, s, s', id); }
    case Panic(id) => if s' != s { MovedAdmitted(c, s, s', id); }
    case Release(id) => if s' != s { ReleaseAdmitted(c, s, id); }
    case Begin(_, _) => SameAdmitted(c, s, s');
    case Read(_) => SameAdmitted(c, s, s');
    case Write(_) => SameAdmitted(c, s, s');
    case Commit(t) =>
      if InCell(s.registry, t) && t.Request? { MovedAdmitted(c, s, s', t.id); } else { SameAdmitted(c, s, s'); }
  }

  lemma StepSound(c: RL.Config, s: System, ev: Event)
    requires M.Sound(s.registry)
    ensures M.Sound(Step(c, s, ev).registry)
  {
    var s' := Step(c, s, ev);
    match ev
    case Arrive(id, _, _, _) =>
      if id !in s.reqs && Pending(s'.reqs[id]).Some? {
        M.NextSound(s.registry, M.Begin(M.Request(id), Pending(s'.reqs[id]).value));
      }
    case Return(id) =>
      if s' != s { M.NextSound(s.registry, M.Begin(M.Request(id), Pending(s'.reqs[id]).value)); }
    case Panic(id) =>
      if s' != s { M.NextSound(s.registry, M.Begin(M.Request(id), Pending(s'.reqs[id]).value)); }
    case Release(_) =>
    case Begin(other, call) => M.NextSound(s.registry, M.Begin(M.Background(other), call));
    case Read(t) => M.NextSound(s.registry, M.Read(t));
    case Write(t) => M.NextSound(s.registry, M.Write(t));
    case Commit(t) =>
      var m := M.Next(s.registry, M.Commit(t));
      M.NextSound(s.registry, M.Commit(t));
      if s'.registry != m { M.NextSound(m, M.Begin(t, Pending(s'.reqs[t.id]).value)); }
  }

  lemma {:induction false} RunInv(c: RL.Config, s: System, events: seq<Event>)
    requires Inv(c, s)
    ensures Inv(c, Run(c, s, events))
    decreases |events|
  {
    if events != [] {
      StepSound(c, s, events[0]);
      StepWired(c, s, events[0]);
      StepTallied(c, s, events[0]);
      StepAdmitted(c, s, events[0]);
      RunInv(c, Step(c, s, events[0]), events[1..]);
    }
  }

  // ---- conservation -------------------------------------------------------------------

  lemma IdleInv(c: RL.Config)
    ensures Inv(c, Idle)
  {
    M.NewSound();
    forall typ ensures TypeTallied(Idle, typ) { }
    forall ip ensures IpTallied(Idle, ip) { }
    forall ip ensures RL.Balanced(Idle.limiter, ip) { }
  }

  /** Under every interleaving of requests, panics and other goroutines, and any clock: the gauge
      shows the requests between its two updates; the counters show the requests started and
      completed, and the difference is running or panicked; each address has as many slots taken
      as it has requests between admission and release, never more than the gate allows. */
  lemma Conservation(c: RL.Config, events: seq<Event>, typ: string, ip: RL.Addr)
    ensures var s := Run(c, Idle, events);
            && M.Shown(s.registry, STREAMS) == Tally(s.reqs, Streaming)
            && M.Shown(s.registry, Started(typ)) == Tally(s.reqs, Begun(typ))
            && M.Shown(s.registry, Completed(typ)) == Tally(s.reqs, Finished(typ))
            && M.Shown(s.registry, Started(typ))
               == M.Shown(s.registry, Completed(typ)) + Tally(s.reqs, Running(typ)) + Tally(s.reqs, Panicked(typ))
            && RL.ActiveAt(s.limiter, ip) == Tally(s.reqs, InFlight(ip))
            && (c.perIP > 0 ==> Tally(s.reqs, InFlight(ip)) <= c.perIP)
  {
    IdleInv(c);
    RunInv(c, Idle, events);
    var s := Run(c, Idle, events);
    assert M.Exact(s.registry, STREAMS) && M.Exact(s.registry, Started(typ)) && M.Exact(s.registry, Completed(typ));
    assert TypeTallied(s, typ) && IpTallied(s, ip);
    BegunSplits(s.reqs, typ);
  }

  lemma NoneCounted(reqs: map<nat, Req>, ip: RL.Addr)
    requires forall id :: id in reqs ==> reqs[id].stage.Refused? || reqs[id].stage.Over?
    ensures Tally(reqs, Streaming) == 0 && Tally(reqs, InFlight(ip)) == 0
  {
    assert Counted(reqs, Streaming) == {} && Counted(reqs, InFlight(ip)) == {};
  }

  /** When no request is left between its steps, the gauge and every slot are back at zero. */
  lemma QuietAtRest(c: RL.Config, events: seq<Event>, ip: RL.Addr)
    requires var s := Run(c, Idle, events);
             forall id :: id in s.reqs ==> s.reqs[id].stage.Refused? || s.reqs[id].stage.Over?
    ensures var s := Run(c, Idle, events);
            M.Shown(s.registry, STREAMS) == 0 && RL.ActiveAt(s.limiter, ip) == 0
  {
    var s := Run(c, Idle, events);
    Conservation(c, events, "", ip);
    NoneCounted(s.reqs, ip);
  }

  // ---- one request on the shared objects ------------------------------------------------

  /** The registry calls before and after one handler. */
  function Opened(values: map<M.Series, int>, typ: string): map<M.Series, int> {
    M.Done(M.Done(values, M.Add(M.Typed(M.TESTS_STARTED, typ), 1)), M.AddGauge(M.ACTIVE_STREAMS, 1))
  }

  function Closed(values: map<M.Series, int>, typ: string, panics: bool): map<M.Series, int> {
    M.Done(if panics then values else M.Done(values, M.Add(M.Typed(M.TESTS_COMPLETED, typ), 1)),
           M.AddGauge(M.ACTIVE_STREAMS, -1))
  }

  function Instrumented(values: map<M.Series, int>, typ: string, panics: bool): map<M.Series, int> {
    Closed(Opened(values, typ), typ, panics)
  }

  /** They add one test started, one completed if the handler returned, and nothing else. */
  lemma InstrumentedCounts(values: map<M.Series, int>, typ: string, panics: bool, s: M.Series)
    ensures M.ValueOf(Instrumented(values, typ, panics), s)
            == M.ValueOf(values, s) + if s == Started(typ) || (s == Completed(typ) && !panics) then 1 else 0
  {
    SeriesApart(typ, typ);
  }

  method Open(metrics: M.Registry, typ: string)
    requires metrics.Valid()
    modifies metrics, metrics.counters.Values, metrics.gauges.Values
    ensures metrics.Valid() && metrics.values == Opened(old(metrics.values), typ)
    ensures fresh(metrics.counters.Values - old(metrics.counters).Values)
    ensures fresh(metrics.gauges.Values - old(metrics.gauges).Values)
  {
    metrics.Do(M.Add(M.Typed(M.TESTS_STARTED, typ), 1));
    metrics.Do(M.AddGauge(M.ACTIVE_STREAMS, 1));
  }

  method Close(metrics: M.Registry, typ: string, panics: bool)
    requires metrics.Valid()
    modifies metrics, metrics.counters.Values, metrics.gauges.Values
    ensures metrics.Valid() && metrics.values == Closed(old(metrics.values), typ, panics)
  {
    if !panics {
      metrics.Do(M.Add(M.Typed(M.TESTS_COMPLETED, typ), 1));
    }
    metrics.Do(M.AddGauge(M.ACTIVE_STREAMS, -1));
  }

  method Instrument(metrics: M.Registry, typ: string, panics: bool)
    requires metrics.Valid()
    modifies metrics, metrics.counters.Values, metrics.gauges.Values
    ensures metrics.Valid() && metrics.values == Instrumented(old(metrics.values), typ, panics)
  {
    Open(metrics, typ);
    Close(metrics, typ, panics);
  }

  /** The deferred release touches no metric. */
  method GiveBack(limiter: RL.Limiter, release: RL.Handle, metrics: M.Registry)
    requires limiter.Valid() && release.ticket in limiter.issued && limiter.issued[release.ticket] == release
    requires metrics.Valid()
    modifies limiter`model, release, limiter.entries.Values
    ensures limiter.Valid() && metrics.Valid() && metrics.values == old(metrics.values)
    ensures limiter.model
            == RL.Step(limiter.cfg, old(limiter.model), RL.Event.Release(release.ticket.ip, release.ticket.index))
  {
    limiter.Release(release);
  }

  method Serve(limiter: RL.Limiter, release: RL.Handle, metrics: M.Registry, typ: string, panics: bool)
    requires limiter.Valid() && release.ticket in limiter.issued && limiter.issued[release.ticket] == release
    requires metrics.Valid()
    modifies limiter`model, release, limiter.entries.Values, metrics, metrics.counters.Values, metrics.gauges.Values
    ensures limiter.Valid() && metrics.Valid()
    ensures limiter.model
            == RL.Step(limiter.cfg, old(limiter.model), RL.Event.Release(release.ticket.ip, release.ticket.index))
    ensures metrics.values == Instrumented(old(metrics.values), typ, panics)
  {
    Instrument(metrics, typ, panics);
    GiveBack(limiter, release, metrics);
  }

  /** The middleware around one handler: both deferred steps happen even if the handler panics,
      a completed test is counted only if it does not, and a refused one is not counted at all. */
  method TestMW(limiter: RL.Limiter, metrics: M.Registry, ip: RL.Addr, typ: string, now: int, panics: bool)
    returns (served: bool)
    requires limiter.Valid() && metrics.Valid()
    modifies limiter, limiter.entries.Values, metrics, metrics.counters.Values, metrics.gauges.Values
    ensures limiter.Valid() && metrics.Valid()
    ensures served == RL.Granted(limiter.cfg, old(limiter.model).view, ip, now)
    ensures !served ==> metrics.values == old(metrics.values)
    ensures var asked := RL.Step(limiter.cfg, old(limiter.model), RL.Event.Acquire(ip, now));
            limiter.model
            == if served then RL.Step(limiter.cfg, asked, RL.Event.Release(ip, |RL.TicketsOf(old(limiter.model), ip)|))
               else asked
    ensures served ==> metrics.values == Instrumented(old(metrics.values), typ, panics)
  {
    var release, ok := limiter.Acquire(ip, now);
    served := ok;
    if ok {
      Serve(limiter, release, metrics, typ, panics);
    }
  }
}
