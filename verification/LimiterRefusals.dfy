/**
 What refused calls leave behind: nothing that a later answer shows, exactly when forgetting is
 invisible, or when a token is back within a nanosecond and there is no gate to refuse at.
 */
module RateLimitRefusals {
  import opened Clock
  import opened Options
  import opened RateLimit
  import opened RateLimitRuns
  import opened RateLimitEviction

  ghost predicate NoTrace(c: Config, before: seq<Event>, call: Event, after: seq<Event>, ip: Addr) {
    Decisions(c, Run(c, Fresh, before), after, ip) == Decisions(c, Run(c, Fresh, before + [call]), after, ip)
  }

  ghost predicate RefusedCall(c: Config, start: int, before: seq<Event>, call: Event, after: seq<Event>) {
    && call.Acquire? && Ordered(before + ([call] + after), start)
    && !Granted(c, Run(c, Fresh, before).view, call.ip, call.now)
  }

  /** Refused calls leave no trace in any time-ordered run from this time on. */
  ghost predicate TracelessFrom(c: Config, start: int) {
    forall before, call, after, ip :: RefusedCall(c, start, before, call, after) ==> NoTrace(c, before, call, after, ip)
  }

  /** Without a gate, a bucket this fast refuses only at the instant of its last call. */
  ghost predicate TokenEachTick(c: Config) {
    c.perIP <= 0 && c.rate >= 1000000000.0
  }

  // ---- order in time -------------------------------------------------------------

  /** The time of the last call of a run. */
  function LastCall(tr: seq<Event>, from: int): int {
    if tr == [] then from else LastCall(tr[1..], if tr[0].Acquire? then tr[0].now else from)
  }

  lemma {:induction false} OrderedParts(a: seq<Event>, b: seq<Event>, from: int)
    requires Ordered(a + b, from)
    ensures Ordered(a, from) && Ordered(b, LastCall(a, from))
    decreases |a|
  {
    if a == [] {
      assert a + b == b;
    } else {
      assert (a + b)[1..] == a[1..] + b;
      OrderedParts(a[1..], b, if a[0].Acquire? then a[0].now else from);
    }
  }

  lemma {:induction false} OwnOrdered(tr: seq<Event>, ip: Addr, from: int)
    requires Ordered(tr, from)
    ensures Ordered(Own(tr, ip), from)
    decreases |tr|
  {
    if tr != [] {
      var next := if tr[0].Acquire? then tr[0].now else from;
      OwnOrdered(tr[1..], ip, next);
      if tr[0].ip == ip {
        assert Own(tr, ip)[1..] == Own(tr[1..], ip);
      } else {
        assert Own(tr, ip) == Own(tr[1..], ip);
        OrderedLater(Own(tr[1..], ip), from, next);
      }
    }
  }

  lemma RunThen(c: Config, before: seq<Event>, call: Event)
    ensures Run(c, Fresh, before + [call]) == Step(c, Run(c, Fresh, before), call)
  {
    assert (before + [call])[..|before| + 1] == before + [call] && (before + [call])[..|before|] == before;
    RunSnoc(c, Fresh, before + [call], |before|);
  }

  // ---- where forgetting is invisible -----------------------------------------------

  /** Two lazy refills, each capped, come to the same as one. */
  lemma RefillsCompose(c: Config, b: Bucket, mid: int, now: int)
    requires b.lastRefill <= mid <= now && b.tokens <= c.burst as real
    ensures Refill(c, Refill(c, b, mid), now) == Refill(c, b, now)
  {
    if b.lastRefill < mid < now {
      var d, e := Seconds(mid - b.lastRefill), Seconds(now - mid);
      assert Seconds(now - b.lastRefill) == d + e;
      assert (d + e) * c.rate == d * c.rate + e * c.rate;
      assert d > 0.0 && e > 0.0;
      if c.rate >= 0.0 {
        assert e * c.rate >= 0.0;
      } else {
        assert d * c.rate <= 0.0 && e * c.rate <= 0.0;
      }
    }
  }

  /** `m` is `l` after a refused call at `now`. */
  ghost predicate Refused(c: Config, l: Local, m: Local, now: int) {
    && l.bucket.Some? && l.bucket.value.lastRefill <= now && l.bucket.value.tokens <= c.burst as real
    && m == Local(Some(Refill(c, l.bucket.value, now)), l.tickets)
  }

  lemma {:induction false} RefusalForgotten(c: Config, l: Local, m: Local, tr: seq<Event>, now: int)
    requires Refused(c, l, m, now) && Ordered(tr, now)
    ensures LocalDecisions(c, l, tr) == LocalDecisions(c, m, tr)
    decreases |tr|
  {
    if tr != [] {
      match tr[0]
      case Acquire(_, t) =>
        RefillsCompose(c, l.bucket.value, now, t);
      case Release(_, _) =>
        RefusalForgotten(c, LocalStep(c, l, tr[0]), LocalStep(c, m, tr[0]), tr[1..], now);
    }
  }

  lemma {:induction false} AlikeRun(c: Config, s: State, l: Local, tr: seq<Event>, ip: Addr, clock: int)
    requires RefillsWhileIdle(c) && Alike(c, s, l, ip, clock) && Ordered(tr, clock)
    ensures Alike(c, Run(c, s, tr), LocalRun(c, l, Own(tr, ip)), ip, LastCall(tr, clock))
    decreases |tr|
  {
    if tr != [] {
      var ev := tr[0];
      AlikeStep(c, s, l, ev, ip, clock);
      AlikeRun(c, Step(c, s, ev), if ev.ip == ip then LocalStep(c, l, ev) else l, tr[1..], ip,
               if ev.Acquire? then ev.now else clock);
      if ev.ip == ip {
        assert Own(tr, ip)[1..] == Own(tr[1..], ip);
      } else {
        assert Own(tr, ip) == Own(tr[1..], ip);
      }
    }
  }

  lemma RefusalHere(c: Config, s: State, l: Local, call: Event, after: seq<Event>, ip: Addr, clock: int)
    requires RefillsWhileIdle(c) && Alike(c, s, l, ip, clock) && call.Acquire? && clock <= call.now
    requires Ordered(after, call.now) && !Granted(c, s.view, call.ip, call.now)
    ensures Decisions(c, s, after, ip) == Decisions(c, Step(c, s, call), after, ip)
  {
    var m := if call.ip == ip then LocalStep(c, l, call) else l;
    AlikeStep(c, s, l, call, ip, clock);
    OrderedLater(after, clock, call.now);
    SameDecisions(c, s, l, after, ip, clock);
    SameDecisions(c, Step(c, s, call), m, after, ip, call.now);
    if call.ip == ip {
      PresentedAlike(c, s, l, ip, clock, call.now);
      OwnOrdered(after, ip, call.now);
      RefusalForgotten(c, l, m, Own(after, ip), call.now);
    }
  }

  /** Where forgetting is invisible, taking a refused call out of a time-ordered run changes no
      other answer to any client, though the call moved `lastSeen` and may have swept the map. */
  lemma RefusalLeavesNoTrace(c: Config, before: seq<Event>, call: Event, after: seq<Event>, start: int, ip: Addr)
    requires RefillsWhileIdle(c) && RefusedCall(c, start, before, call, after)
    ensures NoTrace(c, before, call, after, ip)
  {
    OrderedParts(before, [call] + after, start);
    AlikeRun(c, Fresh, Unseen, before, ip, start);
    assert ([call] + after)[1..] == after;
    RefusalHere(c, Run(c, Fresh, before), LocalRun(c, Unseen, Own(before, ip)), call, after, ip,
                LastCall(before, start));
    RunThen(c, before, call);
  }

  // ---- where a token is back at the next tick ----------------------------------------

  ghost predicate Timely(s: State, clock: int) {
    && (s.view.entries == map[] || clock <= s.view.nextCleanup)
    && forall ip :: ip in s.view.entries ==> s.view.entries[ip].lastRefill == s.view.entries[ip].lastSeen <= clock
  }

  lemma {:induction false} TimelyRun(c: Config, s: State, tr: seq<Event>, clock: int)
    requires Timely(s, clock) && Ordered(tr, clock)
    ensures Timely(Run(c, s, tr), LastCall(tr, clock))
    decreases |tr|
  {
    if tr != [] {
      TimelyRun(c, Step(c, s, tr[0]), tr[1..], if tr[0].Acquire? then tr[0].now else clock);
    }
  }

  lemma TickRefills(c: Config, b: Bucket, now: int)
    requires c.burst > 0 && c.rate >= 1000000000.0 && 0.0 <= b.tokens
    ensures b.lastRefill < now ==> Refill(c, b, now).tokens >= 1.0
  {
    if b.lastRefill < now {
      var ns := (now - b.lastRefill) as real;
      assert Seconds(now - b.lastRefill) * 1000000000.0 == ns;
      assert Seconds(now - b.lastRefill) * c.rate >= ns;
    }
  }

  /** A refusal that is not the gate's finds less than a token, so it comes at the instant of the
      last call of its address. */
  lemma RefusedAtOnce(c: Config, s: State, ip: Addr, now: int, clock: int)
    requires TokenEachTick(c) && Safe(c, s) && Timely(s, clock) && clock <= now
    requires !Granted(c, s.view, ip, now)
    ensures ip in s.view.entries && s.view.entries[ip].lastRefill == now && Sweep(s.view, now) == s.view
  {
    var v := Sweep(s.view, now);
    TickRefills(c, if ip in v.entries then v.entries[ip] else NewBucket(c, now), now);
  }

  lemma RefusalIsStutter(c: Config, s: State, ip: Addr, now: int, clock: int)
    requires TokenEachTick(c) && Safe(c, s) && Timely(s, clock) && clock <= now
    requires !Granted(c, s.view, ip, now)
    ensures Step(c, s, Acquire(ip, now)) == s
  {
    RefusedAtOnce(c, s, ip, now, clock);
    assert s.view.entries[ip := s.view.entries[ip]] == s.view.entries;
  }

  // ---- and otherwise a trace -----------------------------------------------------------

  /** An emptied bucket one nanosecond later: the call is refused, but it counts as seen. */
  lemma EmptyRefuses(c: Config, s: State, first: int)
    requires !RefillsWhileIdle(c) && c.rate < 1000000000.0
    requires Spent(s, SOMEONE, 0, c.burst, first, 0.0, first + CLEANUP_EVERY)
    ensures !Granted(c, s.view, SOMEONE, first + 1)
    ensures Ready(c, s, SOMEONE, 0, c.burst, Forgotten(first), c.burst as real)
    ensures Ready(c, Step(c, s, Acquire(SOMEONE, first + 1)), SOMEONE, 0, c.burst, Forgotten(first),
                  c.rate * Seconds(IDLE_TTL + 1))
  {
    var call := Acquire(SOMEONE, first + 1);
    var b := s.view.entries[SOMEONE];
    assert Refill(c, b, first + 1).tokens == c.rate * Seconds(1);
    RefillsCompose(c, b, first + 1, Forgotten(first));
  }

  lemma EmptyOrdered(n: nat, first: int)
    ensures Ordered(Burst(SOMEONE, n, 0, first)
                    + ([Acquire(SOMEONE, first + 1)] + Burst(SOMEONE, n, n, Forgotten(first))), first)
  {
    var call, after := Acquire(SOMEONE, first + 1), Burst(SOMEONE, n, n, Forgotten(first));
    BurstOrdered(SOMEONE, n, n, Forgotten(first), Forgotten(first), []);
    assert after + [] == after && ([call] + after)[1..] == after;
    OrderedLater(after, first + 1, Forgotten(first));
    BurstOrdered(SOMEONE, n, 0, first, first, [call] + after);
  }

  /** A run in which leaving out a refused call changes an answer. */
  lemma Traced(c: Config, start: int, before: seq<Event>, call: Event, after: seq<Event>)
    requires call.Acquire? && Ordered(before + ([call] + after), start)
    requires var s := Run(c, Fresh, before);
             && !Granted(c, s.view, call.ip, call.now)
             && Decisions(c, s, after, call.ip) != Decisions(c, Step(c, s, call), after, call.ip)
    ensures RefusedCall(c, start, before, call, after) && !NoTrace(c, before, call, after, call.ip)
  {
    RunThen(c, before, call);
  }

  /** A refused call one nanosecond after the bucket was emptied keeps it from being forgotten. */
  lemma RefusedByBucket(c: Config, first: int) returns (before: seq<Event>, call: Event, after: seq<Event>)
    requires !RefillsWhileIdle(c) && c.rate < 1000000000.0 && first > ZERO_TIME
    ensures RefusedCall(c, first, before, call, after) && !NoTrace(c, before, call, after, SOMEONE)
  {
    var n := c.burst;
    before, call := Burst(SOMEONE, n, 0, first), Acquire(SOMEONE, first + 1);
    after := Burst(SOMEONE, n, n, Forgotten(first));
    EmptyOrdered(n, first);
    BurstRun(c, Fresh, SOMEONE, 0, n, 0, first, n as real);
    EmptyTwice(c, Run(c, Fresh, before), first);
    Traced(c, first, before, call, after);
  }

  lemma EmptyTwice(c: Config, s: State, first: int)
    requires !RefillsWhileIdle(c) && c.rate < 1000000000.0
    requires Spent(s, SOMEONE, 0, c.burst, first, 0.0, first + CLEANUP_EVERY)
    ensures var call, after := Acquire(SOMEONE, first + 1), Burst(SOMEONE, c.burst, c.burst, Forgotten(first));
            && !Granted(c, s.view, SOMEONE, first + 1)
            && AllTrue(Decisions(c, s, after, SOMEONE)) && !AllTrue(Decisions(c, Step(c, s, call), after, SOMEONE))
  {
    var n := c.burst;
    EmptyRefuses(c, s, first);
    BurstRun(c, s, SOMEONE, 0, n, n, Forgotten(first), n as real);
    BurstRun(c, Step(c, s, Acquire(SOMEONE, first + 1)), SOMEONE, 0, n, n, Forgotten(first),
             c.rate * Seconds(IDLE_TTL + 1));
  }

  /** `m` tests begun one nanosecond apart and kept running. */
  function Keep(m: nat, now: int): seq<Event> {
    if m == 0 then [] else [Acquire(SOMEONE, now)] + Keep(m - 1, now + 1)
  }

  /** Calls the first `m` release handles from number `k` on. */
  function GiveBack(m: nat, k: nat): seq<Event> {
    if m == 0 then [] else [Release(SOMEONE, k)] + GiveBack(m - 1, k + 1)
  }

  lemma {:induction false} KeepOrdered(m: nat, now: int, rest: seq<Event>)
    requires Ordered(rest, now + m)
    ensures Ordered(Keep(m, now) + rest, now)
    decreases m
  {
    var all := Keep(m, now) + rest;
    if m == 0 {
      assert all == rest;
    } else {
      KeepOrdered(m - 1, now + 1, rest);
      assert all[1..] == Keep(m - 1, now + 1) + rest;
      OrderedLater(all[1..], now, now + 1);
    }
  }

  lemma {:induction false} GiveBackOrdered(m: nat, k: nat, from: int, rest: seq<Event>)
    requires Ordered(rest, from)
    ensures Ordered(GiveBack(m, k) + rest, from)
    decreases m
  {
    var all := GiveBack(m, k) + rest;
    if m == 0 {
      assert all == rest;
    } else {
      GiveBackOrdered(m - 1, k + 1, from, rest);
      assert all[1..] == GiveBack(m - 1, k + 1) + rest;
    }
  }

  lemma RunCons(c: Config, s: State, ev: Event, rest: seq<Event>)
    ensures Run(c, s, [ev] + rest) == Run(c, Step(c, s, ev), rest)
  {
    assert ([ev] + rest)[1..] == rest;
  }

  /** `k` tests in flight, room for one more, and a full bucket. */
  ghost predicate Full(c: Config, s: State, k: nat, now: int) {
    Ready(c, s, SOMEONE, k, k, now, c.burst as real) && s.view.nextCleanup <= now + CLEANUP_EVERY
  }

  lemma KeepOne(c: Config, s: State, k: nat, now: int)
    requires c.burst > 0 && c.rate >= 1000000000.0 && k + 1 < c.perIP && Full(c, s, k, now)
    ensures Full(c, Step(c, s, Acquire(SOMEONE, now)), k + 1, now + 1)
  {
    var t := Step(c, s, Acquire(SOMEONE, now));
    var b := Bucket(k + 1, c.burst as real - 1.0, now, now);
    assert t.view.entries[SOMEONE] == b;
    assert Seconds(1) * c.rate >= 1.0;
    assert Refill(c, b, now + 1) == Bucket(k + 1, c.burst as real, now + 1, now + 1);
  }

  /** With a token back each nanosecond, kept tests find a full bucket up to the gate. */
  lemma {:induction false} KeepRun(c: Config, s: State, m: nat, k: nat, now: int)
    requires c.burst > 0 && c.rate >= 1000000000.0 && k + m < c.perIP && Full(c, s, k, now)
    ensures Full(c, Run(c, s, Keep(m, now)), k + m, now + m)
    decreases m
  {
    if m == 0 {
      assert Run(c, s, Keep(0, now)) == s;
    } else {
      var one := Step(c, s, Acquire(SOMEONE, now));
      KeepOne(c, s, k, now);
      KeepRun(c, one, m - 1, k + 1, now + 1);
      RunCons(c, s, Acquire(SOMEONE, now), Keep(m - 1, now + 1));
    }
  }

  /** Calling every handle leaves nothing in flight, and the rest of the bucket as it was. */
  lemma {:induction false} GiveBackRun(c: Config, s: State, m: nat, k: nat)
    requires SOMEONE in s.view.entries && |TicketsOf(s, SOMEONE)| == k + m
    requires forall i :: 0 <= i < k ==> TicketsOf(s, SOMEONE)[i]
    ensures var t := Run(c, s, GiveBack(m, k));
            && SOMEONE in t.view.entries && t.view.nextCleanup == s.view.nextCleanup
            && t.view.entries[SOMEONE] == s.view.entries[SOMEONE].(active := t.view.entries[SOMEONE].active)
            && |TicketsOf(t, SOMEONE)| == k + m && AllTrue(TicketsOf(t, SOMEONE))
    ensures Decisions(c, s, GiveBack(m, k), SOMEONE) == []
    decreases m
  {
    if m > 0 {
      GiveBackRun(c, Step(c, s, Release(SOMEONE, k)), m - 1, k + 1);
    }
  }

  lemma {:induction false} NoneOutstanding(ts: seq<bool>)
    requires AllTrue(ts)
    ensures Outstanding(ts) == 0
  {
    if ts != [] { NoneOutstanding(ts[1..]); }
  }

  /** What a call finds once nothing is in flight. */
  function FoundAtRest(c: Config, b: Bucket, nextCleanup: int, now: int): Bucket {
    var rest := b.(active := 0);
    Refill(c, if now > nextCleanup && Idle(rest, now) then NewBucket(c, now) else rest, now)
  }

  /** After everything is given back, a burst finds `tokens`. */
  lemma GiveBackThenBurst(c: Config, s: State, k: nat, now: int, tokens: real)
    requires 0 < c.burst && Safe(c, s) && SOMEONE in s.view.entries && |TicketsOf(s, SOMEONE)| == k
    requires FoundAtRest(c, s.view.entries[SOMEONE], s.view.nextCleanup, now) == Bucket(0, tokens, now, now)
    ensures AllTrue(Decisions(c, s, GiveBack(k, 0) + Burst(SOMEONE, c.burst, k, now), SOMEONE))
            <==> c.burst as real <= tokens
  {
    GiveBackRun(c, s, k, 0);
    var t := Run(c, s, GiveBack(k, 0));
    SafeUnderAnyClock(c, s, GiveBack(k, 0));
    assert Balanced(t, SOMEONE);
    NoneOutstanding(TicketsOf(t, SOMEONE));
    assert t.view.entries[SOMEONE] == s.view.entries[SOMEONE].(active := 0);
    assert Ready(c, t, SOMEONE, 0, k, now, tokens);
    BurstRun(c, t, SOMEONE, 0, c.burst, k, now, tokens);
    var ds := Decisions(c, t, Burst(SOMEONE, c.burst, k, now), SOMEONE);
    DecisionsAppend(c, s, GiveBack(k, 0), Burst(SOMEONE, c.burst, k, now), SOMEONE);
    assert [] + ds == ds;
  }

  /** The gate is closed and the bucket empty, `n` tests in, at time `now`. */
  ghost predicate Shut(c: Config, s: State, n: nat, now: int) {
    && |TicketsOf(s, SOMEONE)| == n && s.view.nextCleanup <= now + CLEANUP_EVERY
    && SOMEONE in s.view.entries && s.view.entries[SOMEONE] == Bucket(c.perIP, 0.0, now, now)
  }

  /** Keeps all places but one, empties the bucket, and takes the last place with the last token. */
  function ShutGate(c: Config, first: int): seq<Event>
    requires c.perIP > 0 && c.burst > 0
  {
    var p, n := c.perIP - 1, c.burst - 1;
    Keep(p, first) + (Burst(SOMEONE, n, p, first + p) + [Acquire(SOMEONE, first + p)])
  }

  /** `p` tests in flight, one token left. */
  ghost predicate LastToken(c: Config, s: State, p: nat, now: int)
    requires c.burst > 0
  {
    Ready(c, s, SOMEONE, p, p + c.burst - 1, now, 1.0) && s.view.nextCleanup <= now + CLEANUP_EVERY
  }

  lemma TakeLast(c: Config, s: State, p: nat, now: int)
    requires c.burst > 0 && c.perIP == p + 1 && LastToken(c, s, p, now)
    ensures Shut(c, Run(c, s, [Acquire(SOMEONE, now)]), p + c.burst, now)
  {
    assert [Acquire(SOMEONE, now)][1..] == [];
  }

  lemma SpendAllButOne(c: Config, s: State, p: nat, now: int)
    requires c.burst > 0 && Full(c, s, p, now)
    ensures LastToken(c, Run(c, s, Burst(SOMEONE, c.burst - 1, p, now)), p, now)
  {
    if c.burst > 1 { BurstRun(c, s, SOMEONE, p, c.burst - 1, p, now, c.burst as real); }
  }

  lemma KeepAllButOne(c: Config, first: int)
    requires c.perIP > 0 && c.burst > 0 && c.rate >= 1000000000.0 && first > ZERO_TIME
    ensures Full(c, Run(c, Fresh, Keep(c.perIP - 1, first)), c.perIP - 1, first + c.perIP - 1)
  {
    KeepRun(c, Fresh, c.perIP - 1, 0, first);
  }

  lemma SpendAndTake(c: Config, s: State, p: nat, now: int)
    requires c.burst > 0 && c.perIP == p + 1 && Full(c, s, p, now)
    ensures Shut(c, Run(c, s, Burst(SOMEONE, c.burst - 1, p, now) + [Acquire(SOMEONE, now)]), p + c.burst, now)
  {
    var spent := Burst(SOMEONE, c.burst - 1, p, now);
    SpendAllButOne(c, s, p, now);
    TakeLast(c, Run(c, s, spent), p, now);
    RunAppend(c, s, spent, [Acquire(SOMEONE, now)]);
  }

  lemma ShutAfter(c: Config, kept: seq<Event>, p: nat, now: int)
    requires c.burst > 0 && c.perIP == p + 1 && Full(c, Run(c, Fresh, kept), p, now)
    ensures Shut(c, Run(c, Fresh, kept + (Burst(SOMEONE, c.burst - 1, p, now) + [Acquire(SOMEONE, now)])),
                 p + c.burst, now)
  {
    SpendAndTake(c, Run(c, Fresh, kept), p, now);
    RunAppend(c, Fresh, kept, Burst(SOMEONE, c.burst - 1, p, now) + [Acquire(SOMEONE, now)]);
  }

  lemma KeptNotForgotten(c: Config, b: Bucket, nextCleanup: int, now: int)
    requires !RefillsWhileIdle(c) && c.rate >= 0.0 && b.lastRefill == b.lastSeen == now && b.tokens == 0.0
    requires nextCleanup <= now + 1 + CLEANUP_EVERY
    ensures var later := now + IDLE_TTL + 1;
            && FoundAtRest(c, Refill(c, b, now + 1), nextCleanup, later)
                == Bucket(0, c.rate * Seconds(IDLE_TTL + 1), later, later)
            && (nextCleanup <= now + CLEANUP_EVERY ==>
                  FoundAtRest(c, b, nextCleanup, later) == Bucket(0, c.burst as real, later, later))
  {
    RefillsCompose(c, b.(active := 0), now + 1, now + IDLE_TTL + 1);
  }

  lemma GateRefuses(c: Config, s: State, k: nat, now: int)
    requires c.perIP > 0 && Shut(c, s, k, now)
    ensures var b, t := s.view.entries[SOMEONE], Step(c, s, Acquire(SOMEONE, now + 1));
            && !Granted(c, s.view, SOMEONE, now + 1)
            && t.tickets == s.tickets && t.view.nextCleanup <= now + 1 + CLEANUP_EVERY
            && SOMEONE in t.view.entries && t.view.entries[SOMEONE] == Refill(c, b, now + 1)
  {
  }

  function Later(c: Config, k: nat, now: int): seq<Event>
    requires c.burst > 0
  {
    GiveBack(k, 0) + Burst(SOMEONE, c.burst, k, now + IDLE_TTL + 1)
  }

  lemma ForgottenWithoutCall(c: Config, s: State, k: nat, now: int)
    requires !RefillsWhileIdle(c) && c.perIP > 0 && c.rate >= 0.0 && Safe(c, s) && Shut(c, s, k, now)
    ensures AllTrue(Decisions(c, s, Later(c, k, now), SOMEONE))
  {
    KeptNotForgotten(c, s.view.entries[SOMEONE], s.view.nextCleanup, now);
    GiveBackThenBurst(c, s, k, now + IDLE_TTL + 1, c.burst as real);
  }

  /** A call refused at the gate keeps the emptied bucket from being forgotten. */
  lemma RememberedAfterCall(c: Config, s: State, k: nat, now: int)
    requires !RefillsWhileIdle(c) && c.perIP > 0 && c.rate >= 0.0 && Safe(c, s) && Shut(c, s, k, now)
    ensures !AllTrue(Decisions(c, Step(c, s, Acquire(SOMEONE, now + 1)), Later(c, k, now), SOMEONE))
  {
    var t := Step(c, s, Acquire(SOMEONE, now + 1));
    StepSafe(c, s, Acquire(SOMEONE, now + 1));
    GateRefuses(c, s, k, now);
    KeptNotForgotten(c, s.view.entries[SOMEONE], t.view.nextCleanup, now);
    GiveBackThenBurst(c, t, k, now + IDLE_TTL + 1, c.rate * Seconds(IDLE_TTL + 1));
  }

  lemma GateShows(c: Config, s: State, k: nat, now: int)
    requires !RefillsWhileIdle(c) && c.perIP > 0 && c.rate >= 0.0 && Safe(c, s) && Shut(c, s, k, now)
    ensures var t := Step(c, s, Acquire(SOMEONE, now + 1));
            Decisions(c, s, Later(c, k, now), SOMEONE) != Decisions(c, t, Later(c, k, now), SOMEONE)
  {
    ForgottenWithoutCall(c, s, k, now);
    RememberedAfterCall(c, s, k, now);
  }

  lemma ShutTheGate(c: Config, first: int) returns (before: seq<Event>)
    requires c.perIP > 0 && c.burst > 0 && c.rate >= 1000000000.0 && first > ZERO_TIME
    ensures var k, now := c.perIP - 1 + c.burst, first + c.perIP - 1;
            && Shut(c, Run(c, Fresh, before), k, now)
            && Ordered(before + ([Acquire(SOMEONE, now + 1)] + Later(c, k, now)), first)
  {
    before := ShutGate(c, first);
    KeepAllButOne(c, first);
    ShutAfter(c, Keep(c.perIP - 1, first), c.perIP - 1, first + c.perIP - 1);
    ShutGateOrdered(c, first);
  }

  /** A call refused at the gate can keep an emptied bucket from being forgotten. */
  lemma RefusedByGate(c: Config, first: int) returns (before: seq<Event>, call: Event, after: seq<Event>)
    requires !RefillsWhileIdle(c) && c.perIP > 0 && c.rate >= 1000000000.0 && first > ZERO_TIME
    ensures RefusedCall(c, first, before, call, after) && !NoTrace(c, before, call, after, SOMEONE)
  {
    var k, now := c.perIP - 1 + c.burst, first + c.perIP - 1;
    before := ShutTheGate(c, first);
    call, after := Acquire(SOMEONE, now + 1), Later(c, k, now);
    SafeUnderAnyClock(c, Fresh, before);
    GateRefuses(c, Run(c, Fresh, before), k, now);
    GateShows(c, Run(c, Fresh, before), k, now);
    Traced(c, first, before, call, after);
  }

  lemma LaterOrdered(c: Config, k: nat, now: int)
    requires c.burst > 0
    ensures Ordered([Acquire(SOMEONE, now), Acquire(SOMEONE, now + 1)] + Later(c, k, now), now)
  {
    var last, call, after := Acquire(SOMEONE, now), Acquire(SOMEONE, now + 1), Later(c, k, now);
    var burst := Burst(SOMEONE, c.burst, k, now + IDLE_TTL + 1);
    BurstOrdered(SOMEONE, c.burst, k, now + 1, now + IDLE_TTL + 1, []);
    assert burst + [] == burst;
    GiveBackOrdered(k, 0, now + 1, burst);
    assert ([call] + after)[1..] == after;
    assert ([last, call] + after)[1..] == [call] + after;
  }

  lemma ShutGateOrdered(c: Config, first: int)
    requires c.perIP > 0 && c.burst > 0
    ensures var k, now := c.perIP - 1 + c.burst, first + c.perIP - 1;
            Ordered(ShutGate(c, first) + ([Acquire(SOMEONE, now + 1)] + Later(c, k, now)), first)
  {
    var p := c.perIP - 1;
    var k, now := p + c.burst, first + p;
    var rest := [Acquire(SOMEONE, now), Acquire(SOMEONE, now + 1)] + Later(c, k, now);
    var spent := Burst(SOMEONE, c.burst - 1, p, now);
    LaterOrdered(c, k, now);
    BurstOrdered(SOMEONE, c.burst - 1, p, now, now, rest);
    KeepOrdered(p, first, spent + rest);
    assert ShutGate(c, first) + ([Acquire(SOMEONE, now + 1)] + Later(c, k, now)) == Keep(p, first) + (spent + rest);
  }

  // ---- exactly -------------------------------------------------------------------------

  lemma NoTraceEachTick(c: Config, start: int, before: seq<Event>, call: Event, after: seq<Event>, ip: Addr)
    requires TokenEachTick(c) && RefusedCall(c, start, before, call, after)
    ensures NoTrace(c, before, call, after, ip)
  {
    OrderedParts(before, [call] + after, start);
    TimelyRun(c, Fresh, before, start);
    SafeUnderAnyClock(c, Fresh, before);
    RefusalIsStutter(c, Run(c, Fresh, before), call.ip, call.now, LastCall(before, start));
    RunThen(c, before, call);
  }

  lemma Traceless(c: Config, start: int)
    requires RefillsWhileIdle(c) || TokenEachTick(c)
    ensures TracelessFrom(c, start)
  {
    forall before, call, after, ip | RefusedCall(c, start, before, call, after)
      ensures NoTrace(c, before, call, after, ip) {
      if TokenEachTick(c) {
        NoTraceEachTick(c, start, before, call, after, ip);
      } else {
        RefusalLeavesNoTrace(c, before, call, after, start, ip);
      }
    }
  }

  /** Refused calls leave no trace in any time-ordered run exactly in these two cases; otherwise
      runs that show one can start at any time. */
  lemma RefusalLeavesNoTraceExactly(c: Config, first: int)
    requires first > ZERO_TIME
    ensures RefillsWhileIdle(c) || TokenEachTick(c) <==> TracelessFrom(c, first)
    ensures RefillsWhileIdle(c) || TokenEachTick(c) ==> forall start :: TracelessFrom(c, start)
  {
    if RefillsWhileIdle(c) || TokenEachTick(c) {
      forall start ensures TracelessFrom(c, start) { Traceless(c, start); }
    } else if c.rate < 1000000000.0 {
      var before, call, after := RefusedByBucket(c, first);
    } else {
      var before, call, after := RefusedByGate(c, first);
    }
  }
}
