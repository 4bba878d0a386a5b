/**
 What forgetting idle clients does to decisions. The reference is one client's gate and bucket
 on its own: no map, no sweep, nothing ever forgotten. The limiter agrees with it on every
 time-ordered run exactly when a bucket left idle for longer than `IDLE_TTL` would have filled
 up anyway.
 */
module RateLimitEviction {
  import opened Clock
  import opened Options
  import opened RateLimit
  import opened RateLimitRuns

  datatype Local = Local(bucket: Option<Bucket>, tickets: seq<bool>)

  const Unseen := Local(None, [])

  function LocalPresented(c: Config, l: Local, now: int): Bucket {
    Refill(c, if l.bucket.Some? then l.bucket.value else NewBucket(c, now), now)
  }

  function LocalStep(c: Config, l: Local, ev: Event): Local {
    match ev
    case Acquire(_, now) =>
      var b := LocalPresented(c, l, now);
      if Admits(c, b) then Local(Some(Charge(c, b)), l.tickets + [false]) else Local(Some(b), l.tickets)
    case Release(_, k) =>
      if k < |l.tickets| && !l.tickets[k] then
        Local(if l.bucket.Some? then Some(l.bucket.value.(active := l.bucket.value.active - 1)) else None,
              l.tickets[k := true])
      else l
  }

  function LocalRun(c: Config, l: Local, tr: seq<Event>): Local
    decreases |tr|
  {
    if tr == [] then l else LocalRun(c, LocalStep(c, l, tr[0]), tr[1..])
  }

  /** The events of one client. */
  function Own(tr: seq<Event>, ip: Addr): seq<Event> {
    if tr == [] then [] else (if tr[0].ip == ip then [tr[0]] else []) + Own(tr[1..], ip)
  }

  /** The answers the limiter gives to the calls of `ip`, in order. */
  function Decisions(c: Config, s: State, tr: seq<Event>, ip: Addr): seq<bool>
    decreases |tr|
  {
    if tr == [] then []
    else
      (if tr[0].Acquire? && tr[0].ip == ip then [Granted(c, s.view, ip, tr[0].now)] else [])
      + Decisions(c, Step(c, s, tr[0]), tr[1..], ip)
  }

  function LocalDecisions(c: Config, l: Local, tr: seq<Event>): seq<bool>
    decreases |tr|
  {
    if tr == [] then []
    else
      (if tr[0].Acquire? then [Admits(c, LocalPresented(c, l, tr[0].now))] else [])
      + LocalDecisions(c, LocalStep(c, l, tr[0]), tr[1..])
  }

  /** The shortest idle time that gets a client forgotten is worth a full bucket. */
  ghost predicate RefillsWhileIdle(c: Config) {
    c.burst <= 0 || c.rate * Seconds(IDLE_TTL + 1) >= c.burst as real
  }

  // ---- eviction is invisible ---------------------------------------------------

  ghost predicate LocalOk(c: Config, l: Local, clock: int) {
    match l.bucket
    case None => l.tickets == []
    case Some(b) =>
      && b.active == Outstanding(l.tickets)
      && b.lastRefill == b.lastSeen <= clock
      && b.tokens <= c.burst as real
      && (c.burst > 0 ==> 0.0 <= b.tokens || c.rate < 0.0)
  }

  /** The limiter's state seen from `ip` agrees with the client's own gate and bucket, which may
      remember a bucket the limiter has dropped for being idle. */
  ghost predicate Alike(c: Config, s: State, l: Local, ip: Addr, clock: int) {
    && TicketsOf(s, ip) == l.tickets
    && LocalOk(c, l, clock)
    && if ip in s.view.entries then
         var b := s.view.entries[ip];
         && l.bucket.Some?
         && b.active == l.bucket.value.active && b.lastSeen == l.bucket.value.lastSeen
         && (c.burst > 0 ==> b == l.bucket.value)
       else
         l.bucket.Some? ==> l.bucket.value.active == 0 && clock - l.bucket.value.lastSeen > IDLE_TTL
  }

  lemma LocalStepOk(c: Config, l: Local, ev: Event, clock: int)
    requires LocalOk(c, l, clock) && (ev.Acquire? ==> clock <= ev.now)
    ensures LocalOk(c, LocalStep(c, l, ev), if ev.Acquire? then ev.now else clock)
  {
    match ev
    case Acquire(_, now) =>
      OutstandingAppend(l.tickets);
      if l.bucket.Some? && c.rate >= 0.0 && l.bucket.value.lastRefill < now {
        assert Seconds(now - l.bucket.value.lastRefill) * c.rate >= 0.0;
      }
    case Release(_, k) =>
      if k < |l.tickets| && !l.tickets[k] {
        OutstandingCall(l.tickets, k);
      }
  }

  /** After a long idle time the remembered bucket is as full as a new one. */
  lemma IdleRefill(c: Config, b: Bucket, now: int)
    requires RefillsWhileIdle(c) && c.burst > 0
    requires b.active == 0 && b.lastRefill == b.lastSeen && 0.0 <= b.tokens && now - b.lastSeen > IDLE_TTL
    ensures Refill(c, b, now) == Refill(c, NewBucket(c, now), now)
  {
    assert c.rate > 0.0;
    EarnedFaster(c.rate, c.rate, b.lastSeen, now);
    EarnedFacts(c.rate, b.lastSeen, b.lastSeen + IDLE_TTL + 1, now);
  }

  lemma AlikeSweep(c: Config, s: State, l: Local, ip: Addr, clock: int, now: int)
    requires Alike(c, s, l, ip, clock) && clock <= now
    ensures Alike(c, s.(view := Sweep(s.view, now)), l, ip, now)
  {
  }

  lemma PresentedAlike(c: Config, s: State, l: Local, ip: Addr, clock: int, now: int)
    requires RefillsWhileIdle(c) && Alike(c, s, l, ip, clock) && clock <= now
    ensures var b := Presented(c, s.view, ip, now); var m := LocalPresented(c, l, now);
            && b.active == m.active && b.lastSeen == m.lastSeen && (c.burst > 0 ==> b == m)
  {
    AlikeSweep(c, s, l, ip, clock, now);
    if c.burst > 0 && ip !in Sweep(s.view, now).entries && l.bucket.Some? {
      RateNonnegative(c);
      IdleRefill(c, l.bucket.value, now);
    }
  }

  lemma RateNonnegative(c: Config)
    requires RefillsWhileIdle(c) && c.burst > 0
    ensures c.rate > 0.0
  {
  }

  lemma AlikeStep(c: Config, s: State, l: Local, ev: Event, ip: Addr, clock: int)
    requires RefillsWhileIdle(c) && Alike(c, s, l, ip, clock) && (ev.Acquire? ==> clock <= ev.now)
    ensures Alike(c, Step(c, s, ev), if ev.ip == ip then LocalStep(c, l, ev) else l, ip,
                  if ev.Acquire? then ev.now else clock)
  {
    match ev
    case Acquire(a, now) =>
      AlikeSweep(c, s, l, ip, clock, now);
      if a == ip {
        PresentedAlike(c, s, l, ip, clock, now);
        LocalStepOk(c, l, ev, clock);
      }
    case Release(a, k) =>
      if a == ip {
        LocalStepOk(c, l, ev, clock);
        if k < |l.tickets| && !l.tickets[k] { OutstandingNonzero(l.tickets, k); }
      }
  }

  lemma {:induction false} SameDecisions(c: Config, s: State, l: Local, tr: seq<Event>, ip: Addr, clock: int)
    requires RefillsWhileIdle(c) && Alike(c, s, l, ip, clock) && Ordered(tr, clock)
    ensures Decisions(c, s, tr, ip) == LocalDecisions(c, l, Own(tr, ip))
    decreases |tr|
  {
    if tr != [] {
      var ev := tr[0];
      AlikeStep(c, s, l, ev, ip, clock);
      if ev.ip == ip {
        if ev.Acquire? { PresentedAlike(c, s, l, ip, clock, ev.now); }
        assert Own(tr, ip)[1..] == Own(tr[1..], ip);
        SameDecisions(c, Step(c, s, ev), LocalStep(c, l, ev), tr[1..], ip, if ev.Acquire? then ev.now else clock);
      } else {
        assert Own(tr, ip) == Own(tr[1..], ip);
        assert Decisions(c, s, tr, ip) == Decisions(c, Step(c, s, ev), tr[1..], ip);
        SameDecisions(c, Step(c, s, ev), l, tr[1..], ip, if ev.Acquire? then ev.now else clock);
      }
    }
  }

  /** Eviction is invisible and clients do not interfere: in any time-ordered run over any number
      of addresses, each gets the answers of its own gate and bucket on its own calls alone. */
  lemma EvictionInvisible(c: Config, tr: seq<Event>, ip: Addr, start: int)
    requires RefillsWhileIdle(c) && Ordered(tr, start)
    ensures Decisions(c, Fresh, tr, ip) == LocalDecisions(c, Unseen, Own(tr, ip))
  {
    SameDecisions(c, Fresh, Unseen, tr, ip, start);
  }

  // ---- and otherwise visible ---------------------------------------------------

  /** `m` tests of `ip`, one after the other, all at the same instant; `k` came before. */
  function Burst(ip: Addr, m: nat, k: nat, now: int): seq<Event> {
    if m == 0 then [] else [Acquire(ip, now), Release(ip, k)] + Burst(ip, m - 1, k + 1, now)
  }

  predicate AllTrue(ds: seq<bool>) {
    forall i :: 0 <= i < |ds| ==> ds[i]
  }

  lemma {:induction false} DecisionsAppend(c: Config, s: State, a: seq<Event>, b: seq<Event>, ip: Addr)
    ensures Decisions(c, s, a + b, ip) == Decisions(c, s, a, ip) + Decisions(c, Run(c, s, a), b, ip)
    decreases |a|
  {
    if a == [] {
      assert a + b == b;
    } else {
      assert (a + b)[1..] == a[1..] + b;
      DecisionsAppend(c, Step(c, s, a[0]), a[1..], b, ip);
    }
  }

  lemma {:induction false} LocalAppend(c: Config, l: Local, a: seq<Event>, b: seq<Event>)
    ensures LocalDecisions(c, l, a + b) == LocalDecisions(c, l, a) + LocalDecisions(c, LocalRun(c, l, a), b)
    ensures LocalRun(c, l, a + b) == LocalRun(c, LocalRun(c, l, a), b)
    decreases |a|
  {
    if a == [] {
      assert a + b == b;
    } else {
      assert (a + b)[1..] == a[1..] + b;
      LocalAppend(c, LocalStep(c, l, a[0]), a[1..], b);
    }
  }

  /** `ip` has `held` tests in flight, room for one more, and will find `tokens` in its bucket at `now`. */
  ghost predicate Ready(c: Config, s: State, ip: Addr, held: nat, k: nat, now: int, tokens: real) {
    && (c.perIP > 0 ==> held < c.perIP)
    && |TicketsOf(s, ip)| == k && Presented(c, s.view, ip, now) == Bucket(held, tokens, now, now)
  }

  ghost predicate LocalReady(c: Config, l: Local, k: nat, now: int, tokens: real) {
    |l.tickets| == k && LocalPresented(c, l, now) == Bucket(0, tokens, now, now)
  }

  lemma OneTest(c: Config, s: State, ip: Addr, held: nat, k: nat, now: int, tokens: real)
    requires c.burst > 0 && Ready(c, s, ip, held, k, now, tokens) && 1.0 <= tokens
    ensures var t := Step(c, Step(c, s, Acquire(ip, now)), Release(ip, k));
            && Granted(c, s.view, ip, now) && Ready(c, t, ip, held, k + 1, now, tokens - 1.0)
            && Spent(t, ip, held, k + 1, now, tokens - 1.0, Sweep(s.view, now).nextCleanup)
            && Sweep(t.view, now) == t.view
  {
  }

  lemma UnrollTest(c: Config, s: State, ip: Addr, k: nat, now: int, more: seq<Event>)
    ensures var one := Step(c, s, Acquire(ip, now));
            var two := Step(c, one, Release(ip, k));
            var all := [Acquire(ip, now), Release(ip, k)] + more;
            && Run(c, s, all) == Run(c, two, more)
            && Decisions(c, s, all, ip) == [Granted(c, s.view, ip, now)] + Decisions(c, two, more, ip)
  {
    var all := [Acquire(ip, now), Release(ip, k)] + more;
    assert all[1..] == [Release(ip, k)] + more && all[1..][1..] == more;
    var one := Step(c, s, all[0]);
    assert Decisions(c, one, all[1..], ip) == Decisions(c, Step(c, one, all[1]), more, ip);
  }

  /** Of `m` tests all are admitted exactly when the bucket holds `m` tokens, and cost those. */
  lemma {:induction false} BurstRun(c: Config, s: State, ip: Addr, held: nat, m: nat, k: nat, now: int, tokens: real)
    requires c.burst > 0 && Ready(c, s, ip, held, k, now, tokens) && 0 < m
    ensures AllTrue(Decisions(c, s, Burst(ip, m, k, now), ip)) <==> m as real <= tokens
    ensures m as real <= tokens ==>
              Spent(Run(c, s, Burst(ip, m, k, now)), ip, held, k + m, now, tokens - m as real,
                    Sweep(s.view, now).nextCleanup)
    decreases m
  {
    var two := Step(c, Step(c, s, Acquire(ip, now)), Release(ip, k));
    var more := Burst(ip, m - 1, k + 1, now);
    UnrollTest(c, s, ip, k, now, more);
    if tokens < 1.0 {
      assert !Decisions(c, s, Burst(ip, m, k, now), ip)[0];
    } else {
      OneTest(c, s, ip, held, k, now, tokens);
      AllTrueCons(Decisions(c, two, more, ip));
      if m > 1 {
        BurstRun(c, two, ip, held, m - 1, k + 1, now, tokens - 1.0);
      }
    }
  }

  ghost predicate Spent(s: State, ip: Addr, held: nat, k: nat, now: int, tokens: real, nextCleanup: int) {
    && |TicketsOf(s, ip)| == k && s.view.nextCleanup == nextCleanup
    && ip in s.view.entries && s.view.entries[ip] == Bucket(held, tokens, now, now)
  }

  lemma LocalOneTest(c: Config, l: Local, ip: Addr, k: nat, now: int, tokens: real)
    requires c.burst > 0 && LocalReady(c, l, k, now, tokens) && 1.0 <= tokens
    ensures var t := LocalStep(c, LocalStep(c, l, Acquire(ip, now)), Release(ip, k));
            && LocalReady(c, t, k + 1, now, tokens - 1.0)
            && t.bucket == Some(Bucket(0, tokens - 1.0, now, now))
  {
  }

  lemma {:induction false} LocalBurst(c: Config, l: Local, ip: Addr, m: nat, k: nat, now: int, tokens: real)
    requires c.burst > 0 && LocalReady(c, l, k, now, tokens)
    ensures AllTrue(LocalDecisions(c, l, Burst(ip, m, k, now))) <==> m as real <= tokens || m == 0
    ensures m > 0 && m as real <= tokens ==>
              var t := LocalRun(c, l, Burst(ip, m, k, now));
              |t.tickets| == k + m && t.bucket == Some(Bucket(0, tokens - m as real, now, now))
    decreases m
  {
    if m > 0 {
      var one := LocalStep(c, l, Acquire(ip, now));
      var two := LocalStep(c, one, Release(ip, k));
      var b, more := Burst(ip, m, k, now), Burst(ip, m - 1, k + 1, now);
      assert b[1..] == [Release(ip, k)] + more && b[1..][1..] == more;
      assert LocalDecisions(c, l, b) == [Admits(c, LocalPresented(c, l, now))] + LocalDecisions(c, one, b[1..]);
      if tokens < 1.0 {
        assert !LocalDecisions(c, l, b)[0];
      } else {
        LocalOneTest(c, l, ip, k, now, tokens);
        LocalBurst(c, two, ip, m - 1, k + 1, now, tokens - 1.0);
        assert LocalDecisions(c, one, b[1..]) == LocalDecisions(c, two, more);
        AllTrueCons(LocalDecisions(c, two, more));
      }
    }
  }

  lemma AllTrueCons(ds: seq<bool>)
    ensures AllTrue([true] + ds) <==> AllTrue(ds)
  {
    var all := [true] + ds;
    if AllTrue(all) {
      forall i | 0 <= i < |ds| ensures ds[i] { assert all[i + 1]; }
    }
  }

  lemma {:induction false} OwnAll(tr: seq<Event>, ip: Addr)
    requires forall ev :: ev in tr ==> ev.ip == ip
    ensures Own(tr, ip) == tr
  {
    if tr != [] {
      assert tr[0] in tr && tr == [tr[0]] + tr[1..];
      OwnAll(tr[1..], ip);
    }
  }

  lemma {:induction false} BurstOwn(ip: Addr, m: nat, k: nat, now: int)
    ensures forall ev :: ev in Burst(ip, m, k, now) ==> ev.ip == ip
  {
    if m > 0 { BurstOwn(ip, m - 1, k + 1, now); }
  }

  lemma {:induction false} BurstOrdered(ip: Addr, m: nat, k: nat, from: int, now: int, rest: seq<Event>)
    requires from <= now && Ordered(rest, now)
    ensures Ordered(Burst(ip, m, k, now) + rest, from)
    decreases m
  {
    var all := Burst(ip, m, k, now) + rest;
    if m == 0 {
      assert all == rest;
      OrderedLater(rest, from, now);
    } else {
      BurstOrdered(ip, m - 1, k + 1, now, now, rest);
      assert all[1..][1..] == Burst(ip, m - 1, k + 1, now) + rest;
      assert all[1..][0] == Release(ip, k);
    }
  }

  lemma OrderedLater(tr: seq<Event>, early: int, late: int)
    requires early <= late && Ordered(tr, late)
    ensures Ordered(tr, early)
    decreases |tr|
  {
    if tr != [] && tr[0].Release? { OrderedLater(tr[1..], early, late); }
  }

  /** The first time at which a client last seen at `first` is forgotten. */
  function Forgotten(first: int): int {
    first + IDLE_TTL + 1
  }

  const SOMEONE := Addr(0)

  /** A client that empties its bucket, is forgotten, and empties it again. */
  function Twice(n: nat, first: int): seq<Event> {
    Burst(SOMEONE, n, 0, first) + Burst(SOMEONE, n, n, Forgotten(first))
  }

  lemma TwiceOrdered(n: nat, first: int)
    ensures Ordered(Twice(n, first), first) && Own(Twice(n, first), SOMEONE) == Twice(n, first)
  {
    var second := Burst(SOMEONE, n, n, Forgotten(first));
    BurstOrdered(SOMEONE, n, n, first, Forgotten(first), []);
    assert second + [] == second;
    BurstOrdered(SOMEONE, n, 0, first, first, second);
    BurstOwn(SOMEONE, n, 0, first);
    BurstOwn(SOMEONE, n, n, Forgotten(first));
    OwnAll(Twice(n, first), SOMEONE);
  }

  /** Forgetting hands out a second full bucket. */
  lemma TwiceForgotten(c: Config, first: int)
    requires c.burst > 0 && first > ZERO_TIME
    ensures AllTrue(Decisions(c, Fresh, Twice(c.burst, first), SOMEONE))
  {
    var n, ip := c.burst, SOMEONE;
    var once, again := Burst(ip, n, 0, first), Burst(ip, n, n, Forgotten(first));
    BurstRun(c, Fresh, ip, 0, n, 0, first, n as real);
    var s := Run(c, Fresh, once);
    assert Ready(c, s, ip, 0, n, Forgotten(first), n as real);
    BurstRun(c, s, ip, 0, n, n, Forgotten(first), n as real);
    DecisionsAppend(c, Fresh, once, again, ip);
  }

  lemma TwiceRemembered(c: Config, first: int)
    requires !RefillsWhileIdle(c)
    ensures !AllTrue(LocalDecisions(c, Unseen, Twice(c.burst, first)))
  {
    var n, ip := c.burst, SOMEONE;
    var once, again := Burst(ip, n, 0, first), Burst(ip, n, n, Forgotten(first));
    LocalBurst(c, Unseen, ip, n, 0, first, n as real);
    var l := LocalRun(c, Unseen, once);
    LocalBurst(c, l, ip, n, n, Forgotten(first), LocalPresented(c, l, Forgotten(first)).tokens);
    LocalAppend(c, Unseen, once, again);
    var ds := LocalDecisions(c, l, again);
    var i :| 0 <= i < |ds| && !ds[i];
    assert !LocalDecisions(c, Unseen, Twice(n, first))[|LocalDecisions(c, Unseen, once)| + i];
  }

  /** The limiter answers `ip` as its own gate and bucket would. */
  ghost predicate Agrees(c: Config, tr: seq<Event>, ip: Addr) {
    Decisions(c, Fresh, tr, ip) == LocalDecisions(c, Unseen, Own(tr, ip))
  }

  /** It does in every time-ordered run from this time on. */
  ghost predicate AgreesFrom(c: Config, start: int) {
    forall tr, ip :: Ordered(tr, start) ==> Agrees(c, tr, ip)
  }

  lemma ForgettingShows(c: Config, first: int)
    requires !RefillsWhileIdle(c) && first > ZERO_TIME
    ensures Ordered(Twice(c.burst, first), first) && !Agrees(c, Twice(c.burst, first), SOMEONE)
  {
    TwiceOrdered(c.burst, first);
    TwiceForgotten(c, first);
    TwiceRemembered(c, first);
  }

  /** Forgetting is invisible in every time-ordered run exactly when the refill rate makes it so;
      otherwise runs that show it can start at any time. */
  lemma EvictionInvisibleExactly(c: Config, first: int)
    requires first > ZERO_TIME
    ensures RefillsWhileIdle(c) <==> AgreesFrom(c, first)
    ensures RefillsWhileIdle(c) ==> forall start :: AgreesFrom(c, start)
  {
    if RefillsWhileIdle(c) {
      forall start ensures AgreesFrom(c, start) {
        forall tr, ip | Ordered(tr, start) ensures Agrees(c, tr, ip) { EvictionInvisible(c, tr, ip, start); }
      }
    } else {
      ForgettingShows(c, first);
    }
  }
}
