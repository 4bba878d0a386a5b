/**
 What the limiter answers, in terms of the calls and releases of the run so far: an address is
 admitted exactly when it has a place free and, with a bucket, when in no stretch of its remembered
 calls it would have had more than a full bucket and the refill of that stretch.
 */
module RateLimitGate {
  import opened Clock
  import opened RateLimit
  import opened RateLimitRuns
  import opened RateLimitEntries

  // ---- the calls an address is remembered by -------------------------------------------------

  /** A call: the latest time at which the address had called by then, and whether it got a handle. */
  datatype Past = Past(at: int, admitted: bool)

  function Latest(past: seq<Past>, now: int): int {
    if past != [] && past[|past| - 1].at > now then past[|past| - 1].at else now
  }

  /** The sweep before a call leaves the address its entry. */
  predicate Remembered(s: State, ip: Addr, now: int) {
    ip in Sweep(s.view, now).entries
  }

  /** The remembered calls of `ip` after one more event: a call that finds no entry starts anew. */
  function Recall(c: Config, s: State, ev: Event, ip: Addr, past: seq<Past>): seq<Past> {
    if !ev.Acquire? || ev.ip != ip then past
    else
      var kept := if Remembered(s, ip, ev.now) then past else [];
      kept + [Past(Latest(kept, ev.now), |TicketsOf(Step(c, s, ev), ip)| > |TicketsOf(s, ip)|)]
  }

  /** The same, over a run: an address that is not `Kept`, or that the call itself forgets, starts anew. */
  ghost function Memory(c: Config, tr: seq<Event>, ip: Addr): seq<Past> {
    if tr == [] then []
    else
      var before, ev := tr[..|tr| - 1], tr[|tr| - 1];
      var past := Memory(c, before, ip);
      if !Calls(ev, ip) then past
      else
        var kept := if Kept(c, before, ip) && !Forgets(c, before, ev, ip) then past else [];
        kept + [Past(Latest(kept, ev.now), Admitting(c, tr, ip))]
  }

  /** The last call of the run got a handle. */
  predicate Admitting(c: Config, tr: seq<Event>, ip: Addr)
    requires tr != []
  {
    |TicketsOf(Run(c, Fresh, tr), ip)| > |TicketsOf(Run(c, Fresh, tr[..|tr| - 1]), ip)|
  }

  function Admitted(past: seq<Past>): nat {
    if past == [] then 0 else (if past[0].admitted then 1 else 0) + Admitted(past[1..])
  }

  /** A full bucket at the j-th call and the refill since then, less what was admitted since then. */
  function Room(c: Config, past: seq<Past>, j: nat, t: int): real
    requires j < |past|
  {
    c.burst as real + c.rate * Seconds(t - past[j].at) - Admitted(past[j..]) as real
  }

  // ---- the level of a bucket -------------------------------------------------------------------

  /** The least room over all stretches up to now. */
  ghost predicate IsLevel(c: Config, past: seq<Past>, t: int, tokens: real) {
    && (forall j :: 0 <= j < |past| ==> tokens <= Room(c, past, j, t))
    && (exists j :: 0 <= j < |past| && tokens == Room(c, past, j, t))
  }

  ghost predicate Recalled(c: Config, s: State, ip: Addr, past: seq<Past>) {
    ip in s.view.entries && c.burst > 0 ==>
      var b := s.view.entries[ip];
      past != [] && b.lastRefill == past[|past| - 1].at && IsLevel(c, past, b.lastRefill, b.tokens)
  }

  lemma {:induction false} AdmittedSnoc(past: seq<Past>, p: Past)
    ensures Admitted(past + [p]) == Admitted(past) + if p.admitted then 1 else 0
  {
    if past == [] {
      assert past + [p] == [p] && [p][1..] == [];
    } else {
      assert (past + [p])[1..] == past[1..] + [p];
      AdmittedSnoc(past[1..], p);
    }
  }

  lemma RoomSnoc(c: Config, past: seq<Past>, p: Past, j: nat)
    requires j < |past|
    ensures Room(c, past + [p], j, p.at) == Room(c, past, j, p.at) - if p.admitted then 1.0 else 0.0
  {
    assert (past + [p])[j..] == past[j..] + [p];
    AdmittedSnoc(past[j..], p);
  }

  lemma RoomLast(c: Config, past: seq<Past>, p: Past)
    ensures Room(c, past + [p], |past|, p.at) == c.burst as real - if p.admitted then 1.0 else 0.0
  {
    assert (past + [p])[|past|..] == [p] && [p][1..] == [] && Admitted([]) == 0;
    assert Admitted([p]) == if p.admitted then 1 else 0;
    assert (past + [p])[|past|] == p && Seconds(p.at - p.at) == 0.0 && c.rate * 0.0 == 0.0;
  }

  lemma RoomLater(c: Config, past: seq<Past>, j: nat, t: int, u: int)
    requires j < |past|
    ensures Room(c, past, j, u) == Room(c, past, j, t) + Seconds(u - t) * c.rate
  {
    assert Seconds(u - past[j].at) == Seconds(t - past[j].at) + Seconds(u - t);
  }

  /** Time moves every room by the same refill. */
  lemma LevelLater(c: Config, past: seq<Past>, t: int, u: int, tokens: real)
    requires IsLevel(c, past, t, tokens)
    ensures IsLevel(c, past, u, tokens + Seconds(u - t) * c.rate)
  {
    forall j | 0 <= j < |past| ensures Room(c, past, j, u) == Room(c, past, j, t) + Seconds(u - t) * c.rate {
      RoomLater(c, past, j, t, u);
    }
  }

  lemma LevelBelowBurst(c: Config, past: seq<Past>, tokens: real)
    requires past != [] && IsLevel(c, past, past[|past| - 1].at, tokens)
    ensures tokens <= c.burst as real
  {
    var n := |past| - 1;
    assert past == past[..n] + [past[n]];
    RoomLast(c, past[..n], past[n]);
    assert tokens <= Room(c, past, n, past[n].at);
  }

  /** One more call: capped by a full bucket, less the token it takes. */
  lemma LevelSnoc(c: Config, past: seq<Past>, p: Past, tokens: real)
    requires IsLevel(c, past, p.at, tokens)
    ensures IsLevel(c, past + [p], p.at, Min(c.burst as real, tokens) - if p.admitted then 1.0 else 0.0)
  {
    var all, taken := past + [p], if p.admitted then 1.0 else 0.0;
    RoomLast(c, past, p);
    forall j | 0 <= j < |past| ensures Room(c, all, j, p.at) == Room(c, past, j, p.at) - taken {
      RoomSnoc(c, past, p, j);
    }
    var j :| 0 <= j < |past| && tokens == Room(c, past, j, p.at);
    assert Min(c.burst as real, tokens) - taken == Room(c, all, if tokens < c.burst as real then j else |past|, p.at);
  }

  lemma LevelNew(c: Config, p: Past)
    ensures IsLevel(c, [p], p.at, c.burst as real - if p.admitted then 1.0 else 0.0)
  {
    RoomLast(c, [], p);
    assert [] + [p] == [p];
    assert c.burst as real - (if p.admitted then 1.0 else 0.0) == Room(c, [p], 0, p.at);
  }

  // ---- the bucket a call finds -----------------------------------------------------------------

  lemma RefillLevel(c: Config, b: Bucket, now: int, past: seq<Past>)
    requires past != [] && b.lastRefill == past[|past| - 1].at && IsLevel(c, past, b.lastRefill, b.tokens)
    ensures var r := Refill(c, b, now);
            && r.lastRefill == Latest(past, now)
            && exists level :: IsLevel(c, past, Latest(past, now), level) && r.tokens == Min(c.burst as real, level)
  {
    LevelLater(c, past, b.lastRefill, Latest(past, now), b.tokens);
    LevelBelowBurst(c, past, b.tokens);
    assert Seconds(0) == 0.0;
    assert IsLevel(c, past, Latest(past, now), b.tokens + Seconds(Latest(past, now) - b.lastRefill) * c.rate);
  }

  /** The tokens a call finds: the level of its remembered calls at the latest time, at most a full
      bucket; and the time of the last refill never goes back. */
  lemma Found(c: Config, s: State, ip: Addr, now: int, past: seq<Past>)
    requires c.burst > 0 && Recalled(c, s, ip, past)
    ensures var b := Presented(c, s.view, ip, now);
            if Remembered(s, ip, now) then
              b.lastRefill == Latest(past, now)
              && exists level :: IsLevel(c, past, Latest(past, now), level) && b.tokens == Min(c.burst as real, level)
            else
              b.lastRefill == now && b.tokens == c.burst as real
  {
    if Remembered(s, ip, now) {
      RefillLevel(c, s.view.entries[ip], now, past);
    }
  }

  lemma AnswerIsTicket(c: Config, s: State, ip: Addr, now: int)
    ensures |TicketsOf(Step(c, s, Acquire(ip, now)), ip)|
            == |TicketsOf(s, ip)| + if Granted(c, s.view, ip, now) then 1 else 0
  {
  }

  lemma RecallCall(c: Config, s: State, ip: Addr, now: int, past: seq<Past>)
    requires c.burst > 0 && Recalled(c, s, ip, past)
    ensures Recalled(c, Step(c, s, Acquire(ip, now)), ip, Recall(c, s, Acquire(ip, now), ip, past))
  {
    AnswerIsTicket(c, s, ip, now);
    Found(c, s, ip, now, past);
    var ok := Granted(c, s.view, ip, now);
    if Remembered(s, ip, now) {
      var level :| IsLevel(c, past, Latest(past, now), level)
                   && Presented(c, s.view, ip, now).tokens == Min(c.burst as real, level);
      LevelSnoc(c, past, Past(Latest(past, now), ok), level);
    } else {
      LevelNew(c, Past(now, ok));
      assert [] + [Past(now, ok)] == [Past(now, ok)];
    }
  }

  lemma RecallStep(c: Config, s: State, ev: Event, ip: Addr, past: seq<Past>)
    requires Recalled(c, s, ip, past)
    ensures Recalled(c, Step(c, s, ev), ip, Recall(c, s, ev, ip, past))
  {
    if c.burst > 0 && ev.Acquire? && ev.ip == ip { RecallCall(c, s, ip, ev.now, past); }
  }

  lemma MemoryRecall(c: Config, tr: seq<Event>, ip: Addr)
    requires tr != []
    ensures var before, ev := tr[..|tr| - 1], tr[|tr| - 1];
            Memory(c, tr, ip) == Recall(c, Run(c, Fresh, before), ev, ip, Memory(c, before, ip))
  {
    var n := |tr| - 1;
    assert tr[..n + 1] == tr;
    RunSnoc(c, Fresh, tr, n);
    if Calls(tr[n], ip) { FoundExactly(c, tr[..n], ip, tr[n].now); }
  }

  lemma {:induction false} MemoryRecalled(c: Config, tr: seq<Event>, ip: Addr)
    ensures Recalled(c, Run(c, Fresh, tr), ip, Memory(c, tr, ip))
  {
    if tr != [] {
      var n := |tr| - 1;
      MemoryRecalled(c, tr[..n], ip);
      MemoryRecall(c, tr, ip);
      RecallStep(c, Run(c, Fresh, tr[..n]), tr[n], ip, Memory(c, tr[..n], ip));
      assert tr[..n + 1] == tr;
      RunSnoc(c, Fresh, tr, n);
    }
  }

  // ---- the answer --------------------------------------------------------------------------------

  /** A handle is free: the gate is off, or fewer than `perIP` handles have not been called. */
  predicate PlaceFree(c: Config, s: State, ip: Addr) {
    c.perIP <= 0 || Outstanding(TicketsOf(s, ip)) < c.perIP
  }

  /** One more admission fits into every stretch of the remembered calls. */
  ghost predicate TokenLeft(c: Config, past: seq<Past>, now: int) {
    forall j :: 0 <= j < |past| ==> 1.0 <= Room(c, past, j, Latest(past, now))
  }

  lemma GateIsOutstanding(c: Config, s: State, ip: Addr, now: int)
    requires Counted(s)
    ensures Presented(c, s.view, ip, now).active == Outstanding(TicketsOf(s, ip))
  {
    assert Balanced(s, ip);
  }

  lemma LevelAtLeastOne(c: Config, past: seq<Past>, now: int, level: real)
    requires IsLevel(c, past, Latest(past, now), level)
    ensures level >= 1.0 <==> TokenLeft(c, past, now)
  {
  }

  /** Under any clock, a call is admitted exactly when a place is free and, with a bucket, when one
      more admission fits into every stretch of the calls the limiter remembers the address by. */
  lemma GrantedExactly(c: Config, tr: seq<Event>, ip: Addr, now: int)
    ensures var s := Run(c, Fresh, tr);
            Granted(c, s.view, ip, now)
            <==> PlaceFree(c, s, ip)
                 && (c.burst <= 0 || !Kept(c, tr, ip) || Forgets(c, tr, Acquire(ip, now), ip)
                     || TokenLeft(c, Memory(c, tr, ip), now))
  {
    var s, past := Run(c, Fresh, tr), Memory(c, tr, ip);
    SafeUnderAnyClock(c, Fresh, tr);
    GateIsOutstanding(c, s, ip, now);
    if c.burst > 0 {
      MemoryRecalled(c, tr, ip);
      FoundExactly(c, tr, ip, now);
      Found(c, s, ip, now, past);
      if Remembered(s, ip, now) {
        var level :| IsLevel(c, past, Latest(past, now), level)
                     && Presented(c, s.view, ip, now).tokens == Min(c.burst as real, level);
        LevelAtLeastOne(c, past, now, level);
      }
    }
  }

  /** With the bucket off, only the gate decides. */
  lemma GateAlone(c: Config, tr: seq<Event>, ip: Addr, now: int)
    requires c.burst <= 0
    ensures var s := Run(c, Fresh, tr);
            Granted(c, s.view, ip, now) <==> c.perIP <= 0 || Outstanding(TicketsOf(s, ip)) < c.perIP
  {
    GrantedExactly(c, tr, ip, now);
  }

  /** Under any clock, the last refill of an entry that stays never goes back, and moves to a call's
      time only if that is later. */
  lemma RefillNeverBack(c: Config, s: State, ev: Event, ip: Addr)
    requires ip in s.view.entries && (ev.Acquire? ==> Remembered(s, ip, ev.now))
    ensures ip in Step(c, s, ev).view.entries
    ensures var before, after := s.view.entries[ip].lastRefill, Step(c, s, ev).view.entries[ip].lastRefill;
            after == if ev.Acquire? && ev.ip == ip && ev.now > before then ev.now else before
  {
  }
}
