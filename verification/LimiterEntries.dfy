/**
 Which addresses the limiter has an entry for, read off the calls and releases of a run under any
 clock: an address is forgotten exactly by a sweep that comes too long after its last call and finds
 none of its handles uncalled.
 */
module RateLimitEntries {
  import opened Clock
  import opened Options
  import opened RateLimit
  import opened RateLimitRuns

  predicate Calls(ev: Event, ip: Addr) {
    ev.Acquire? && ev.ip == ip
  }

  /** The time after which a call sweeps; the call then puts it off. */
  function Due(tr: seq<Event>): int {
    if tr == [] then ZERO_TIME
    else
      var due, last := Due(tr[..|tr| - 1]), tr[|tr| - 1];
      if last.Acquire? && last.now > due then last.now + CLEANUP_EVERY else due
  }

  /** When the address called last. */
  function LastCall(tr: seq<Event>, ip: Addr): Option<int> {
    if tr == [] then None
    else if Calls(tr[|tr| - 1], ip) then Some(tr[|tr| - 1].now)
    else LastCall(tr[..|tr| - 1], ip)
  }

  /** After these events, a sweep at `now` finds the address idle. */
  predicate IdleAfter(c: Config, tr: seq<Event>, ip: Addr, now: int) {
    var last := LastCall(tr, ip);
    Outstanding(TicketsOf(Run(c, Fresh, tr), ip)) == 0 && last.Some? && now - last.value > IDLE_TTL
  }

  /** The next event sweeps, and finds the address idle. */
  predicate Forgets(c: Config, tr: seq<Event>, ev: Event, ip: Addr) {
    ev.Acquire? && ev.now > Due(tr) && IdleAfter(c, tr, ip, ev.now)
  }

  /** The address has called, and since some call of its no sweep found it idle. */
  ghost predicate Kept(c: Config, tr: seq<Event>, ip: Addr) {
    exists k: nat :: k < |tr| && Calls(tr[k], ip) && KeptSince(c, tr, ip, k)
  }

  ghost predicate KeptSince(c: Config, tr: seq<Event>, ip: Addr, k: nat) {
    forall j :: k < j < |tr| ==> !Forgets(c, tr[..j], tr[j], ip)
  }

  // ---- the limiter keeps to it -------------------------------------------------------------------

  /** The limiter's times are those of the run. */
  ghost predicate Timed(tr: seq<Event>, s: State, ip: Addr) {
    && s.view.nextCleanup == Due(tr)
    && (ip in s.view.entries ==> LastCall(tr, ip) == Some(s.view.entries[ip].lastSeen))
  }

  lemma DueSnoc(tr: seq<Event>, ev: Event)
    ensures Due(tr + [ev]) == if ev.Acquire? && ev.now > Due(tr) then ev.now + CLEANUP_EVERY else Due(tr)
  {
    assert (tr + [ev])[..|tr|] == tr;
  }

  lemma LastCallSnoc(tr: seq<Event>, ev: Event, ip: Addr)
    ensures LastCall(tr + [ev], ip) == if Calls(ev, ip) then Some(ev.now) else LastCall(tr, ip)
  {
    assert (tr + [ev])[..|tr|] == tr;
  }

  lemma StepTimed(c: Config, tr: seq<Event>, s: State, ev: Event, ip: Addr)
    requires Timed(tr, s, ip)
    ensures Timed(tr + [ev], Step(c, s, ev), ip)
  {
    DueSnoc(tr, ev);
    LastCallSnoc(tr, ev, ip);
  }

  lemma StepKeeps(c: Config, tr: seq<Event>, s: State, ev: Event, ip: Addr)
    requires s == Run(c, Fresh, tr) && Counted(s) && Timed(tr, s, ip)
    ensures ip in Step(c, s, ev).view.entries
            <==> Calls(ev, ip) || (ip in s.view.entries && !Forgets(c, tr, ev, ip))
  {
    assert Balanced(s, ip);
  }

  lemma KeptSnoc(c: Config, tr: seq<Event>, ev: Event, ip: Addr)
    ensures Kept(c, tr + [ev], ip) <==> Calls(ev, ip) || (Kept(c, tr, ip) && !Forgets(c, tr, ev, ip))
  {
    var all := tr + [ev];
    forall j: nat | j < |tr| ensures all[..j] == tr[..j] && all[j] == tr[j] { }
    assert all[..|tr|] == tr;
    if Calls(ev, ip) { assert KeptSince(c, all, ip, |tr|); }
    if k: nat :| k < |tr| && Calls(tr[k], ip) && KeptSince(c, tr, ip, k) && !Forgets(c, tr, ev, ip) {
      assert Calls(all[k], ip) && KeptSince(c, all, ip, k);
    }
    if k: nat :| k < |tr| && Calls(all[k], ip) && KeptSince(c, all, ip, k) {
      assert !Forgets(c, all[..|tr|], all[|tr|], ip);
      forall j | k < j < |tr| ensures !Forgets(c, tr[..j], tr[j], ip) {
        assert !Forgets(c, all[..j], all[j], ip);
      }
      assert KeptSince(c, tr, ip, k);
    }
  }

  lemma {:induction false} EntriesAt(c: Config, tr: seq<Event>, ip: Addr)
    ensures Timed(tr, Run(c, Fresh, tr), ip)
    ensures ip in Run(c, Fresh, tr).view.entries <==> Kept(c, tr, ip)
    decreases |tr|
  {
    if tr != [] {
      var n := |tr| - 1;
      var before, ev := tr[..n], tr[n];
      EntriesAt(c, before, ip);
      assert before + [ev] == tr == tr[..n + 1];
      RunSnoc(c, Fresh, tr, n);
      SafeUnderAnyClock(c, Fresh, before);
      StepTimed(c, before, Run(c, Fresh, before), ev, ip);
      StepKeeps(c, before, Run(c, Fresh, before), ev, ip);
      KeptSnoc(c, before, ev, ip);
    }
  }

  /** Under any clock, an address has an entry exactly if it has called, and since some call of its no
      sweep found it idle. */
  lemma StoredExactly(c: Config, tr: seq<Event>, ip: Addr)
    ensures ip in Run(c, Fresh, tr).view.entries <==> Kept(c, tr, ip)
  {
    EntriesAt(c, tr, ip);
  }

  /** And a call finds its entry exactly if in addition it does not itself sweep the address away. */
  lemma FoundExactly(c: Config, tr: seq<Event>, ip: Addr, now: int)
    ensures ip in Sweep(Run(c, Fresh, tr).view, now).entries
            <==> Kept(c, tr, ip) && !Forgets(c, tr, Acquire(ip, now), ip)
  {
    EntriesAt(c, tr, ip);
    SafeUnderAnyClock(c, Fresh, tr);
    assert Balanced(Run(c, Fresh, tr), ip);
  }
}
