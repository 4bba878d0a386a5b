/**
 What holds over whole runs of the limiter: under any clock, the invariants of its buckets;
 under a clock that does not run backwards, how many tests a window admits and how large the
 map can get.
 */
module RateLimitRuns {
  import opened Clock
  import opened RateLimit

  // ---- any clock -------------------------------------------------------------

  ghost predicate BucketOk(c: Config, b: Bucket) {
    && 0 <= b.active
    && (c.perIP > 0 ==> b.active <= c.perIP)
    && (c.burst >= 0 && c.rate >= 0.0 ==> 0.0 <= b.tokens <= c.burst as real)
  }

  ghost predicate Safe(c: Config, s: State) {
    Counted(s) && forall ip :: ip in s.view.entries ==> BucketOk(c, s.view.entries[ip])
  }

  lemma RefillOk(c: Config, b: Bucket, now: int)
    requires BucketOk(c, b)
    ensures BucketOk(c, Refill(c, b, now))
  {
    if now - b.lastRefill > 0 && c.rate >= 0.0 {
      assert Seconds(now - b.lastRefill) * c.rate >= 0.0;
    }
  }

  lemma StepSafe(c: Config, s: State, ev: Event)
    requires Safe(c, s)
    ensures Safe(c, Step(c, s, ev))
  {
    StepCounted(c, s, ev);
    match ev
    case Acquire(ip, now) =>
      var v := Sweep(s.view, now);
      RefillOk(c, if ip in v.entries then v.entries[ip] else NewBucket(c, now), now);
    case Release(ip, k) =>
      if k < |TicketsOf(s, ip)| && !TicketsOf(s, ip)[k] {
        HeldIsActive(s, ip, k);
      }
  }

  /** Whatever the clock does: an entry counts exactly the handles not yet called, stays within
      the concurrency gate, and its tokens stay within the bucket. */
  lemma {:induction false} SafeUnderAnyClock(c: Config, s: State, tr: seq<Event>)
    requires Safe(c, s)
    ensures Safe(c, Run(c, s, tr))
    decreases |tr|
  {
    if tr != [] {
      StepSafe(c, s, tr[0]);
      SafeUnderAnyClock(c, Step(c, s, tr[0]), tr[1..]);
    }
  }

  lemma {:induction false} RunAppend(c: Config, s: State, a: seq<Event>, b: seq<Event>)
    ensures Run(c, s, a + b) == Run(c, Run(c, s, a), b)
    decreases |a|
  {
    if a == [] {
      assert a + b == b;
    } else {
      assert (a + b)[1..] == a[1..] + b;
      RunAppend(c, Step(c, s, a[0]), a[1..], b);
    }
  }

  /** The caller's side: the handles it was given, and how many for each address. */
  datatype Caller = Caller(held: map<Ticket, Handle>, given: map<Addr, nat>) {
    function Count(ip: Addr): nat {
      if ip in given then given[ip] else 0
    }

    function With(ip: Addr, h: Handle): Caller {
      Caller(held[Ticket(ip, Count(ip)) := h], given[ip := Count(ip) + 1])
    }

    ghost predicate Knows(s: State) {
      && (forall ip :: |TicketsOf(s, ip)| == Count(ip))
      && (forall ip, k: nat :: Ticket(ip, k) in held <==> k < Count(ip))
    }
  }

  lemma KnowsAdmitted(c: Config, s: State, ip: Addr, now: int, who: Caller, h: Handle)
    requires who.Knows(s) && Granted(c, s.view, ip, now)
    ensures who.With(ip, h).Knows(Step(c, s, Acquire(ip, now)))
  {
    var t, who' := Step(c, s, Acquire(ip, now)), who.With(ip, h);
    forall a ensures |TicketsOf(t, a)| == who'.Count(a) {
      assert |TicketsOf(s, a)| == who.Count(a);
    }
  }

  lemma KnowsStill(c: Config, s: State, ev: Event, who: Caller)
    requires who.Knows(s) && (ev.Acquire? ==> !Granted(c, s.view, ev.ip, ev.now))
    ensures who.Knows(Step(c, s, ev))
  {
    forall a ensures |TicketsOf(Step(c, s, ev), a)| == who.Count(a) {
      assert |TicketsOf(s, a)| == who.Count(a);
    }
  }

  method PlayAcquire(l: Limiter, who: Caller, ip: Addr, now: int) returns (who': Caller)
    requires l.Valid() && who.held == l.issued && who.Knows(l.model)
    modifies l, l.entries.Values
    ensures l.Valid() && who'.held == l.issued && who'.Knows(l.model)
    ensures l.model == Step(l.cfg, old(l.model), Acquire(ip, now))
    ensures fresh(l.entries.Values - old(l.entries).Values) && fresh(who'.held.Values - who.held.Values)
  {
    ghost var before := l.model;
    var h, ok := l.Acquire(ip, now);
    if ok {
      who' := who.With(ip, h);
      KnowsAdmitted(l.cfg, before, ip, now, who, h);
      assert who'.held.Values <= who.held.Values + {h};
    } else {
      who' := who;
      KnowsStill(l.cfg, before, Acquire(ip, now), who);
    }
  }

  method PlayRelease(l: Limiter, who: Caller, ip: Addr, k: nat)
    requires l.Valid() && who.held == l.issued && who.Knows(l.model)
    modifies l`model, l.entries.Values, who.held.Values
    ensures l.Valid() && who.Knows(l.model)
    ensures l.model == Step(l.cfg, old(l.model), Release(ip, k))
  {
    if Ticket(ip, k) in who.held {
      assert l.Tracked(Ticket(ip, k));
      l.Release(who.held[Ticket(ip, k)]);
    }
    KnowsStill(l.cfg, old(l.model), Release(ip, k), who);
  }

  method Play(l: Limiter, who: Caller, ev: Event) returns (who': Caller)
    requires l.Valid() && who.held == l.issued && who.Knows(l.model)
    modifies l, l.entries.Values, who.held.Values
    ensures l.Valid() && who'.held == l.issued && who'.Knows(l.model)
    ensures l.model == Step(l.cfg, old(l.model), ev)
    ensures fresh(l.entries.Values - old(l.entries).Values) && fresh(who'.held.Values - who.held.Values)
  {
    who' := who;
    match ev
    case Acquire(ip, now) => who' := PlayAcquire(l, who, ip, now);
    case Release(ip, k) => PlayRelease(l, who, ip, k);
  }

  /** The shared objects behave as `Run` says on every sequence of calls. */
  method Replay(c: Config, tr: seq<Event>) returns (l: Limiter)
    ensures l.Valid() && l.model == Run(c, Fresh, tr) && Safe(c, l.model)
  {
    l := new Limiter(c);
    var who := Caller(map[], map[]);
    for i := 0 to |tr|
      invariant l.Valid() && l.cfg == c && fresh(l) && fresh(l.entries.Values) && fresh(who.held.Values)
      invariant who.held == l.issued && who.Knows(l.model)
      invariant l.model == Run(c, Fresh, tr[..i])
    {
      RunSnoc(c, Fresh, tr, i);
      who := Play(l, who, tr[i]);
    }
    assert tr[..|tr|] == tr;
    SafeUnderAnyClock(c, Fresh, tr);
  }

  lemma RunSnoc(c: Config, s: State, tr: seq<Event>, i: nat)
    requires i < |tr|
    ensures Run(c, s, tr[..i + 1]) == Step(c, Run(c, s, tr[..i]), tr[i])
  {
    assert tr[..i + 1] == tr[..i] + [tr[i]];
    RunAppend(c, s, tr[..i], [tr[i]]);
    var t := Run(c, s, tr[..i]);
    assert Run(c, t, [tr[i]]) == Run(c, Step(c, t, tr[i]), []);
  }

  // ---- clocks that do not run backwards ------------------------------------------

  /** The calls are in the order of their times, none earlier than `from`. */
  ghost predicate Ordered(tr: seq<Event>, from: int)
    decreases |tr|
  {
    tr != [] ==>
      match tr[0]
      case Acquire(_, now) => from <= now && Ordered(tr[1..], now)
      case Release(_, _) => Ordered(tr[1..], from)
  }

  /** How many tests of `ip` the run admits. */
  function Admissions(c: Config, s: State, tr: seq<Event>, ip: Addr): nat
    decreases |tr|
  {
    if tr == [] then 0
    else
      (if tr[0].Acquire? && tr[0].ip == ip && Granted(c, s.view, ip, tr[0].now) then 1 else 0)
      + Admissions(c, Step(c, s, tr[0]), tr[1..], ip)
  }

  function Max(a: real, b: real): real {
    if a >= b then a else b
  }

  /** The rate at which a client can be admitted for long: forgetting an idle client and handing
      it a full bucket is worth `burst / IDLE_TTL`. */
  function LongRunRate(c: Config): real {
    Max(c.rate, c.burst as real / Seconds(IDLE_TTL))
  }

  function Earned(rate: real, from: int, to: int): real {
    rate * Seconds(to - from)
  }

  lemma EarnedFacts(rate: real, a: int, b: int, d: int)
    requires rate >= 0.0 && a <= b <= d
    ensures Earned(rate, a, b) + Earned(rate, b, d) == Earned(rate, a, d)
    ensures 0.0 <= Earned(rate, a, b) <= Earned(rate, a, d)
  {
    assert Seconds(b - a) + Seconds(d - b) == Seconds(d - a);
  }

  lemma EarnedFaster(slow: real, fast: real, from: int, to: int)
    requires slow <= fast && from <= to
    ensures Seconds(to - from) * slow <= Earned(fast, from, to)
  {
    assert Seconds(to - from) >= 0.0;
  }

  /** After `n` admissions since `lo`, what is left in the bucket of `ip` and what it has spent
      are covered by a full bucket and the long-run rate; an evicted bucket had earned it all. */
  ghost predicate Covered(c: Config, s: State, ip: Addr, lo: int, clock: int, n: nat) {
    if ip in s.view.entries then
      var b := s.view.entries[ip];
      n == 0 || (lo <= b.lastSeen <= clock && b.lastSeen <= b.lastRefill
                 && b.tokens + n as real <= c.burst as real + Earned(LongRunRate(c), lo, b.lastSeen))
    else
      n as real <= Earned(LongRunRate(c), lo, clock)
  }

  lemma EvictionEarned(c: Config, seen: int, now: int)
    requires c.burst >= 1 && c.rate >= 0.0 && now - seen > IDLE_TTL
    ensures c.burst as real <= Earned(LongRunRate(c), seen, now)
  {
    var ttl := Seconds(IDLE_TTL);
    assert (c.burst as real / ttl) * ttl == c.burst as real;
    EarnedFaster(c.burst as real / ttl, LongRunRate(c), seen, seen + IDLE_TTL);
    EarnedFacts(LongRunRate(c), seen, seen + IDLE_TTL, now);
  }

  lemma SweepCovered(c: Config, s: State, ip: Addr, lo: int, clock: int, n: nat, now: int)
    requires c.burst >= 1 && c.rate >= 0.0 && lo <= clock <= now
    requires Safe(c, s) && Covered(c, s, ip, lo, clock, n)
    ensures Covered(c, s.(view := Sweep(s.view, now)), ip, lo, now, n)
  {
    EarnedFacts(LongRunRate(c), lo, clock, now);
    if ip in s.view.entries && n > 0 && Idle(s.view.entries[ip], now) {
      var seen := s.view.entries[ip].lastSeen;
      EvictionEarned(c, seen, now);
      EarnedFacts(LongRunRate(c), lo, seen, now);
    }
  }

  lemma RefillCovered(c: Config, b: Bucket, lo: int, n: nat, now: int)
    requires c.burst >= 1 && c.rate >= 0.0 && lo <= b.lastSeen <= now && b.lastSeen <= b.lastRefill
    requires b.tokens + n as real <= c.burst as real + Earned(LongRunRate(c), lo, b.lastSeen)
    ensures Refill(c, b, now).tokens + n as real <= c.burst as real + Earned(LongRunRate(c), lo, now)
  {
    EarnedFacts(LongRunRate(c), lo, b.lastSeen, now);
    if b.lastRefill < now {
      EarnedFacts(LongRunRate(c), b.lastSeen, b.lastRefill, now);
      EarnedFaster(c.rate, LongRunRate(c), b.lastRefill, now);
    }
  }

  lemma TouchCovered(c: Config, s: State, ip: Addr, lo: int, n: nat, now: int)
    requires c.burst >= 1 && c.rate >= 0.0 && lo <= now
    requires Safe(c, s) && Covered(c, s, ip, lo, now, n)
    ensures var b := Touch(c, s.view, ip, now).entries[ip];
            && b.lastSeen == now <= b.lastRefill
            && b.tokens + n as real <= c.burst as real + Earned(LongRunRate(c), lo, now)
  {
    EarnedFacts(LongRunRate(c), lo, now, now);
    if ip in s.view.entries {
      RefillOk(c, s.view.entries[ip], now);
      if n > 0 { RefillCovered(c, s.view.entries[ip], lo, n, now); }
    }
  }

  lemma SweepSafe(c: Config, s: State, now: int)
    requires Safe(c, s)
    ensures Safe(c, s.(view := Sweep(s.view, now)))
  {
    SweepCounted(s, now);
  }

  lemma {:induction false} CoveredRun(c: Config, s: State, tr: seq<Event>, ip: Addr, lo: int, clock: int, hi: int,
                                      n: nat)
    requires c.burst >= 1 && c.rate >= 0.0 && lo <= clock
    requires Safe(c, s) && Covered(c, s, ip, lo, clock, n)
    requires Ordered(tr, clock) && clock <= hi && forall ev :: ev in tr && ev.Acquire? ==> ev.now <= hi
    ensures (n + Admissions(c, s, tr, ip)) as real <= c.burst as real + Earned(LongRunRate(c), lo, hi)
    decreases |tr|
  {
    if tr == [] {
      if ip in s.view.entries && n > 0 {
        EarnedFacts(LongRunRate(c), lo, s.view.entries[ip].lastSeen, hi);
      } else {
        EarnedFacts(LongRunRate(c), lo, clock, hi);
      }
    } else {
      var s' := Step(c, s, tr[0]);
      StepSafe(c, s, tr[0]);
      match tr[0]
      case Acquire(a, now) =>
        assert tr[0] in tr;
        SweepCovered(c, s, ip, lo, clock, n, now);
        SweepSafe(c, s, now);
        var t := s.(view := Sweep(s.view, now));
        if a == ip {
          TouchCovered(c, t, ip, lo, n, now);
          CoveredRun(c, s', tr[1..], ip, lo, now, hi, if Granted(c, s.view, ip, now) then n + 1 else n);
        } else {
          CoveredRun(c, s', tr[1..], ip, lo, now, hi, n);
        }
      case Release(_, _) =>
        CoveredRun(c, s', tr[1..], ip, lo, clock, hi, n);
    }
  }

  /** No window of a run admits more than a full bucket plus the long-run rate times its length,
      however often the entry is evicted and recreated in it, and whatever happened before. */
  lemma WindowBound(c: Config, before: seq<Event>, window: seq<Event>, ip: Addr, lo: int, hi: int)
    requires c.burst >= 1 && c.rate >= 0.0 && lo <= hi
    requires Ordered(window, lo) && forall ev :: ev in window && ev.Acquire? ==> ev.now <= hi
    ensures Admissions(c, Run(c, Fresh, before), window, ip) as real
            <= c.burst as real + LongRunRate(c) * Seconds(hi - lo)
  {
    SafeUnderAnyClock(c, Fresh, before);
    EarnedFacts(LongRunRate(c), lo, lo, lo);
    CoveredRun(c, Run(c, Fresh, before), window, ip, lo, lo, hi, 0);
  }

  // ---- the size of the map -----------------------------------------------------

  /** The busy set after a call: a sweep takes it anew. */
  ghost function BusyAfter(s: State, now: int, busy: set<Addr>): set<Addr> {
    if now > s.view.nextCleanup then set ip | ip in s.view.entries && s.view.entries[ip].active != 0 else busy
  }

  /** The addresses with a test in flight when the run last swept the map. */
  ghost function BusyAtSweep(c: Config, s: State, tr: seq<Event>, busy: set<Addr>): set<Addr>
    decreases |tr|
  {
    if tr == [] then busy
    else
      BusyAtSweep(c, Step(c, s, tr[0]), tr[1..], if tr[0].Acquire? then BusyAfter(s, tr[0].now, busy) else busy)
  }

  /** The addresses that called at or after `since`. */
  function Callers(tr: seq<Event>, since: int): set<Addr> {
    set ev | ev in tr && ev.Acquire? && ev.now >= since :: ev.ip
  }

  const KEPT: int := IDLE_TTL + CLEANUP_EVERY

  ghost predicate Bounded(s: State, tr: seq<Event>, busy: set<Addr>, clock: int) {
    && (s.view.entries == map[] || clock <= s.view.nextCleanup)
    && s.view.nextCleanup <= clock + CLEANUP_EVERY
    && forall ip :: ip in s.view.entries ==>
          var b := s.view.entries[ip];
          && Event.Acquire(ip, b.lastSeen) in tr
          && (ip in busy || s.view.nextCleanup - b.lastSeen <= KEPT)
  }

  lemma BoundedStep(c: Config, s: State, past: seq<Event>, ip: Addr, now: int, busy: set<Addr>, clock: int)
    requires Bounded(s, past, busy, clock) && clock <= now
    requires s.view.entries == map[] ==> s.view.nextCleanup <= clock
    ensures Bounded(Step(c, s, Acquire(ip, now)), past + [Event.Acquire(ip, now)], BusyAfter(s, now, busy), now)
    ensures ip in Step(c, s, Acquire(ip, now)).view.entries
  {
    var s', seen := Step(c, s, Acquire(ip, now)), past + [Event.Acquire(ip, now)];
    forall a | a in s'.view.entries ensures Event.Acquire(a, s'.view.entries[a].lastSeen) in seen {
      assert a == ip || Event.Acquire(a, s.view.entries[a].lastSeen) in past;
    }
  }

  lemma {:induction false} BoundedRun(c: Config, s: State, past: seq<Event>, tr: seq<Event>, busy: set<Addr>,
                                      clock: int)
    returns (end: int)
    requires Bounded(s, past, busy, clock) && Ordered(tr, clock) && 0 < clock
    requires s.view.entries == map[] ==> s.view.nextCleanup <= clock
    ensures clock <= end && Bounded(Run(c, s, tr), past + tr, BusyAtSweep(c, s, tr, busy), end)
    ensures forall ev :: ev in tr && ev.Acquire? ==> ev.now <= end
    decreases |tr|
  {
    end := clock;
    if tr == [] {
      assert past + tr == past;
    } else {
      assert past + tr == (past + [tr[0]]) + tr[1..];
      var s' := Step(c, s, tr[0]);
      match tr[0]
      case Acquire(ip, now) =>
        BoundedStep(c, s, past, ip, now, busy, clock);
        assert s'.view.entries != map[];
        end := BoundedRun(c, s', past + [tr[0]], tr[1..], BusyAfter(s, now, busy), now);
      case Release(_, _) =>
        end := BoundedRun(c, s', past + [tr[0]], tr[1..], busy, clock);
    }
  }

  /** After any call, every stored entry had a test in flight at the last sweep or called within
      the last `IDLE_TTL + CLEANUP_EVERY`, so the map is no larger than those two sets. */
  lemma MapBounded(c: Config, tr: seq<Event>, start: int, last: Event)
    requires 0 < start && Ordered(tr, start) && last in tr && last.Acquire?
    ensures var kept := BusyAtSweep(c, Fresh, tr, {}) + Callers(tr, last.now - KEPT);
            && Run(c, Fresh, tr).view.entries.Keys <= kept
            && |Run(c, Fresh, tr).view.entries| <= |BusyAtSweep(c, Fresh, tr, {})| + |Callers(tr, last.now - KEPT)|
  {
    var end := BoundedRun(c, Fresh, [], tr, {}, start);
    assert [] + tr == tr;
    var busy, recent := BusyAtSweep(c, Fresh, tr, {}), Callers(tr, last.now - KEPT);
    var stored := Run(c, Fresh, tr).view.entries;
    forall ip | ip in stored ensures ip in busy + recent {
      assert Event.Acquire(ip, stored[ip].lastSeen) in tr;
    }
    SubsetSize(stored.Keys, busy + recent);
    assert |busy + recent| <= |busy| + |recent|;
  }

  lemma {:induction false} SubsetSize<T>(a: set<T>, b: set<T>)
    requires a <= b
    ensures |a| <= |b|
  {
    if a != {} {
      var x :| x in a;
      SubsetSize(a - {x}, b - {x});
    }
  }
}
