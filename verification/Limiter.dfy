/**
 The internet-mode admission limiter.

 `Acquire`, `Release` and `Step` say what one call does to the limiter's state, as values;
 the class `Limiter` is the map of shared entry objects with its lazy sweep, and its release
 handles capture the entry object itself, which a sweep may have dropped from the map.
 Times are nanoseconds since Go's zero time, tokens are reals.
 */
module RateLimit {
  import opened Clock
  import opened Options

  const IDLE_TTL: int := 300 * SECOND
  const CLEANUP_EVERY: int := 60 * SECOND

  /** A client address: only equality matters to the limiter. */
  datatype Addr = Addr(bits: nat)

  datatype Config = Config(perIP: int, rate: real, burst: int)

  datatype Bucket = Bucket(active: int, tokens: real, lastRefill: int, lastSeen: int)

  /** The limiter's own fields. */
  datatype View = View(entries: map<Addr, Bucket>, nextCleanup: int)

  /** The limiter together with the release handles it gave out: `tickets[ip][k]` says
      whether the handle of the k-th admission of `ip` has been called. */
  datatype State = State(view: View, tickets: map<Addr, seq<bool>>)

  /** Names a release handle: the one of the admission of `ip` with this number. */
  datatype Ticket = Ticket(ip: Addr, index: nat)

  /** `Release(ip, k)` calls the handle of the k-th admission of `ip`. */
  datatype Event = Acquire(ip: Addr, now: int) | Release(ip: Addr, k: nat)

  function Min(a: real, b: real): real {
    if a <= b then a else b
  }

  function NewBucket(c: Config, now: int): Bucket {
    Bucket(0, c.burst as real, now, ZERO_TIME)
  }

  /** Marks the bucket as seen and adds the tokens earned since the last refill. */
  function Refill(c: Config, b: Bucket, now: int): Bucket {
    if now - b.lastRefill > 0 then
      b.(lastSeen := now,
         tokens := Min(c.burst as real, b.tokens + Seconds(now - b.lastRefill) * c.rate),
         lastRefill := now)
    else
      b.(lastSeen := now)
  }

  predicate Admits(c: Config, b: Bucket) {
    && !(c.perIP > 0 && b.active >= c.perIP)
    && !(c.burst > 0 && b.tokens < 1.0)
  }

  function Charge(c: Config, b: Bucket): Bucket {
    b.(active := b.active + 1, tokens := if c.burst > 0 then b.tokens - 1.0 else b.tokens)
  }

  predicate Idle(b: Bucket, now: int) {
    b.active == 0 && now - b.lastSeen > IDLE_TTL
  }

  function Sweep(v: View, now: int): View {
    if now > v.nextCleanup then
      View(map k | k in v.entries && !Idle(v.entries[k], now) :: v.entries[k], now + CLEANUP_EVERY)
    else
      v
  }

  /** Finds or creates the bucket of `ip` and refills it. */
  function Touch(c: Config, v: View, ip: Addr, now: int): View {
    v.(entries := v.entries[ip := Refill(c, if ip in v.entries then v.entries[ip] else NewBucket(c, now), now)])
  }

  /** The bucket `Acquire` decides on. */
  function Presented(c: Config, v: View, ip: Addr, now: int): Bucket {
    Touch(c, Sweep(v, now), ip, now).entries[ip]
  }

  predicate Granted(c: Config, v: View, ip: Addr, now: int) {
    Admits(c, Presented(c, v, ip, now))
  }

  function TicketsOf(s: State, ip: Addr): seq<bool> {
    if ip in s.tickets then s.tickets[ip] else []
  }

  /** Admits or refuses on the bucket as it is. */
  function Settle(c: Config, s: State, ip: Addr): State
    requires ip in s.view.entries
  {
    var b := s.view.entries[ip];
    if Admits(c, b) then
      State(s.view.(entries := s.view.entries[ip := Charge(c, b)]), s.tickets[ip := TicketsOf(s, ip) + [false]])
    else s
  }

  function Step(c: Config, s: State, ev: Event): State {
    match ev
    case Acquire(ip, now) =>
      Settle(c, s.(view := Touch(c, Sweep(s.view, now), ip, now)), ip)
    case Release(ip, k) =>
      var ts := TicketsOf(s, ip);
      if k < |ts| && !ts[k] then
        State(
          if ip in s.view.entries then
            var b := s.view.entries[ip];
            s.view.(entries := s.view.entries[ip := b.(active := b.active - 1)])
          else s.view,
          s.tickets[ip := ts[k := true]])
      else s
  }

  const Fresh: State := State(View(map[], ZERO_TIME), map[])

  function Run(c: Config, s: State, tr: seq<Event>): State
    decreases |tr|
  {
    if tr == [] then s else Run(c, Step(c, s, tr[0]), tr[1..])
  }

  /** How many of the handles have not been called yet. */
  function Outstanding(ts: seq<bool>): nat {
    if ts == [] then 0 else (if ts[0] then 0 else 1) + Outstanding(ts[1..])
  }

  lemma {:induction false} OutstandingAppend(ts: seq<bool>)
    ensures Outstanding(ts + [false]) == Outstanding(ts) + 1
  {
    if ts != [] {
      assert (ts + [false])[1..] == ts[1..] + [false];
      OutstandingAppend(ts[1..]);
    }
  }

  lemma {:induction false} OutstandingCall(ts: seq<bool>, k: nat)
    requires k < |ts| && !ts[k]
    ensures Outstanding(ts[k := true]) == Outstanding(ts) - 1
  {
    if k > 0 {
      assert ts[k := true][1..] == ts[1..][k - 1 := true];
      OutstandingCall(ts[1..], k - 1);
    } else {
      assert ts[k := true][1..] == ts[1..];
    }
  }

  // ---- the shared objects ----------------------------------------------------

  class Entry {
    var active: int
    var tokens: real
    var lastRefill: int
    var lastSeen: int
    ghost const ip: Addr  // the address it was made for

    constructor (tokens: real, now: int, ghost ip: Addr)
      ensures Value() == Bucket(0, tokens, now, ZERO_TIME) && this.ip == ip
    {
      this.ip := ip;
      this.active := 0;
      this.tokens := tokens;
      this.lastRefill := now;
      this.lastSeen := ZERO_TIME;
    }

    ghost function Value(): Bucket
      reads this
    {
      Bucket(active, tokens, lastRefill, lastSeen)
    }
  }

  /** The closure `Acquire` returns: it captures the entry object and runs once. */
  class Handle {
    const entry: Entry
    var done: bool
    ghost const ticket: Ticket  // the admission it belongs to

    constructor (entry: Entry, ghost ticket: Ticket)
      ensures this.entry == entry && !done && this.ticket == ticket
    {
      this.entry := entry;
      this.ticket := ticket;
      this.done := false;
    }
  }

  class Limiter {
    const cfg: Config
    var entries: map<Addr, Entry>
    var nextCleanup: int

    ghost var model: State                 // what the calls so far have made of `Fresh`
    ghost var issued: map<Ticket, Handle>  // every handle ever returned

    /** The map holds what the model says, in entry objects of its own. */
    ghost predicate Matches()
      reads this, entries.Values
    {
      && entries.Keys == model.view.entries.Keys
      && nextCleanup == model.view.nextCleanup
      && (forall ip :: ip in entries ==> entries[ip].ip == ip && entries[ip].Value() == model.view.entries[ip])
    }

    /** A handle not yet called points at the entry now in the map for its address. */
    ghost predicate Tracked(t: Ticket)
      reads this, issued.Values
      requires t in issued
    {
      && issued[t].ticket == t
      && t.index < |TicketsOf(model, t.ip)|
      && TicketsOf(model, t.ip)[t.index] == issued[t].done
      && (issued[t].done || (t.ip in entries && entries[t.ip] == issued[t].entry))
    }

    ghost predicate Live()
      reads this, issued.Values
    {
      forall t :: t in issued ==> Tracked(t)
    }

    ghost predicate Valid()
      reads this, entries.Values, issued.Values
    {
      Matches() && Live() && Counted(model)
    }

    constructor (c: Config)
      ensures Valid() && cfg == c && model == Fresh && issued == map[] && entries == map[]
    {
      cfg := c;
      entries := map[];
      nextCleanup := ZERO_TIME;
      model := Fresh;
      issued := map[];
    }

    /** Deletes the idle entries; none of them is one that an uncalled handle points at. */
    method SweepIdle(now: int)
      requires Valid()
      modifies this`entries, this`nextCleanup, this`model
      ensures Valid()
      ensures model == old(model).(view := Sweep(old(model).view, now))
      ensures entries.Values <= old(entries).Values && issued == old(issued)
    {
      ghost var before, was := entries, model;
      DeleteIdle(now);
      SweepCounted(was, now);
      forall t | t in issued ensures Tracked(t) {
        assert old(Tracked(t));
        if !issued[t].done { HeldIsActive(was, t.ip, t.index); }
      }
    }

    method DeleteIdle(now: int)
      requires Matches()
      modifies this`entries, this`nextCleanup, this`model
      ensures Matches()
      ensures model == old(model).(view := Sweep(old(model).view, now))
      ensures forall k :: k in entries ==> k in old(entries) && entries[k] == old(entries)[k]
    {
      if now > nextCleanup {
        var before := entries;
        var todo := entries.Keys;
        while todo != {}
          invariant todo <= before.Keys
          invariant forall k :: k in entries <==> k in before && (k in todo || !Idle(before[k].Value(), now))
          invariant forall k :: k in entries ==> entries[k] == before[k]
          modifies this`entries
        {
          var k :| k in todo;
          var e := entries[k];
          if e.active == 0 && now - e.lastSeen > IDLE_TTL {
            entries := entries - {k};
          }
          todo := todo - {k};
        }
        nextCleanup := now + CLEANUP_EVERY;
        model := model.(view := Sweep(model.view, now));
      }
    }

    /** Finds or creates the entry of `ip` and refills it. */
    method TouchEntry(ip: Addr, now: int) returns (e: Entry)
      requires Valid()
      modifies this`entries, this`model, entries.Values
      ensures Valid() && ip in entries && e == entries[ip]
      ensures model == old(model).(view := Touch(cfg, old(model).view, ip, now))
      ensures fresh(entries.Values - old(entries).Values) && issued == old(issued)
    {
      TouchCounted(cfg, model, ip, now);
      if ip !in entries {
        e := new Entry(cfg.burst as real, now, ip);
        entries := entries[ip := e];
      }
      e := entries[ip];
      ghost var found := e.Value();
      RefillEntry(e, now);
      model := model.(view := Touch(cfg, model.view, ip, now));
      assert model.view.entries[ip] == Refill(cfg, found, now);
      forall t | t in issued ensures Tracked(t) {
        assert old(Tracked(t));
      }
    }

    method RefillEntry(e: Entry, now: int)
      modifies e
      ensures e.Value() == Refill(cfg, old(e.Value()), now)
    {
      e.lastSeen := now;
      if now - e.lastRefill > 0 {
        e.tokens := Min(cfg.burst as real, e.tokens + Seconds(now - e.lastRefill) * cfg.rate);
        e.lastRefill := now;
      }
    }

    method Acquire(ip: Addr, now: int) returns (release: Handle?, ok: bool)
      requires Valid()
      modifies this, entries.Values
      ensures Valid()
      ensures model == Step(cfg, old(model), Event.Acquire(ip, now))
      ensures ok == Granted(cfg, old(model).view, ip, now)
      ensures fresh(entries.Values - old(entries).Values)
      ensures !ok ==> release == null && issued == old(issued)
      ensures ok ==> release != null && fresh(release) && !release.done
      ensures ok ==> release.ticket == Ticket(ip, |TicketsOf(old(model), ip)|)
      ensures ok ==> issued == old(issued)[release.ticket := release as Handle]
    {
      SweepIdle(now);
      var e := TouchEntry(ip, now);
      assert e.Value() == Presented(cfg, old(model).view, ip, now);
      if cfg.perIP > 0 && e.active >= cfg.perIP {
        release, ok := null, false;
      } else if cfg.burst > 0 && e.tokens < 1.0 {
        release, ok := null, false;
      } else {
        var h := Admit(ip, e);
        release, ok := h, true;
      }
    }

    /** Takes the slot and the token, and hands out the handle that gives the slot back. */
    method Admit(ip: Addr, e: Entry) returns (h: Handle)
      requires Valid() && ip in entries && entries[ip] == e && Admits(cfg, e.Value())
      modifies e, this`model, this`issued
      ensures Valid() && model == Settle(cfg, old(model), ip)
      ensures fresh(h) && !h.done && h.ticket == Ticket(ip, |TicketsOf(old(model), ip)|)
      ensures issued == old(issued)[h.ticket := h]
    {
      SettleCounted(cfg, model, ip);
      if cfg.burst > 0 {
        e.tokens := e.tokens - 1.0;
      }
      e.active := e.active + 1;
      h := new Handle(e, Ticket(ip, |TicketsOf(model, ip)|));
      Record(ip, h);
    }

    /** The books after an admission: the new handle is tracked, and the others still are. */
    ghost method Record(ip: Addr, h: Handle)
      requires ip in entries && h.entry == entries[ip] && entries.Keys == model.view.entries.Keys
      requires Live() && Counted(Settle(cfg, model, ip))
      requires Admits(cfg, model.view.entries[ip]) && nextCleanup == model.view.nextCleanup
      requires forall a :: a in entries ==>
                 entries[a].ip == a && entries[a].Value() == Settle(cfg, model, ip).view.entries[a]
      requires !h.done && h.ticket == Ticket(ip, |TicketsOf(model, ip)|)
      modifies this`model, this`issued
      ensures Valid() && model == Settle(cfg, old(model), ip) && issued == old(issued)[h.ticket := h]
    {
      issued := issued[h.ticket := h];
      model := Settle(cfg, model, ip);
      forall s | s in issued ensures Tracked(s) {
        assert s != h.ticket ==> old(Tracked(s));
      }
    }

    method Release(h: Handle)
      requires Valid() && h.ticket in issued && issued[h.ticket] == h
      modifies h, entries.Values, this`model
      ensures Valid() && h.done
      ensures model == Step(cfg, old(model), Event.Release(h.ticket.ip, h.ticket.index))
    {
      ReleaseCounted(cfg, model, h.ticket.ip, h.ticket.index);
      assert Tracked(h.ticket);
      if !h.done { HeldIsActive(model, h.ticket.ip, h.ticket.index); }
      if !h.done {
        h.done := true;
        h.entry.active := h.entry.active - 1;
      }
      model := Step(cfg, model, Event.Release(h.ticket.ip, h.ticket.index));
      forall t | t in issued ensures Tracked(t) {
        assert old(Tracked(t));
      }
    }
  }

  // ---- what `active` counts ----------------------------------------------------

  function ActiveAt(s: State, ip: Addr): int {
    if ip in s.view.entries then s.view.entries[ip].active else 0
  }

  ghost predicate Balanced(s: State, ip: Addr) {
    ActiveAt(s, ip) == Outstanding(TicketsOf(s, ip))
  }

  /** `active` counts the outstanding handles; an address without an entry has none. */
  ghost predicate Counted(s: State) {
    forall ip :: Balanced(s, ip)
  }

  lemma SweepCounted(s: State, now: int)
    requires Counted(s)
    ensures Counted(s.(view := Sweep(s.view, now)))
  {
    forall ip ensures Balanced(s.(view := Sweep(s.view, now)), ip) {
      assert Balanced(s, ip);
    }
  }

  lemma HeldIsActive(s: State, ip: Addr, k: nat)
    requires Counted(s) && k < |TicketsOf(s, ip)| && !TicketsOf(s, ip)[k]
    ensures ip in s.view.entries && s.view.entries[ip].active > 0
  {
    assert Balanced(s, ip);
    OutstandingNonzero(TicketsOf(s, ip), k);
  }

  lemma TouchCounted(c: Config, s: State, ip: Addr, now: int)
    requires Counted(s)
    ensures Counted(s.(view := Touch(c, s.view, ip, now)))
  {
    forall a ensures Balanced(s.(view := Touch(c, s.view, ip, now)), a) {
      assert Balanced(s, a);
    }
  }

  lemma SettleCounted(c: Config, s: State, ip: Addr)
    requires Counted(s) && ip in s.view.entries
    ensures Counted(Settle(c, s, ip))
  {
    forall a ensures Balanced(Settle(c, s, ip), a) {
      assert Balanced(s, a);
      OutstandingAppend(TicketsOf(s, a));
    }
  }

  lemma ReleaseCounted(c: Config, s: State, ip: Addr, k: nat)
    requires Counted(s)
    ensures Counted(Step(c, s, Release(ip, k)))
  {
    forall a ensures Balanced(Step(c, s, Release(ip, k)), a) {
      assert Balanced(s, a);
      if a == ip && k < |TicketsOf(s, ip)| && !TicketsOf(s, ip)[k] {
        OutstandingCall(TicketsOf(s, ip), k);
        OutstandingNonzero(TicketsOf(s, ip), k);
      }
    }
  }

  lemma StepCounted(c: Config, s: State, ev: Event)
    requires Counted(s)
    ensures Counted(Step(c, s, ev))
  {
    match ev
    case Acquire(ip, now) =>
      SweepCounted(s, now);
      var t := s.(view := Sweep(s.view, now));
      TouchCounted(c, t, ip, now);
      SettleCounted(c, t.(view := Touch(c, t.view, ip, now)), ip);
    case Release(ip, k) =>
      ReleaseCounted(c, s, ip, k);
  }

  lemma {:induction false} OutstandingNonzero(ts: seq<bool>, k: nat)
    requires k < |ts| && !ts[k]
    ensures Outstanding(ts) > 0
  {
    if k > 0 { OutstandingNonzero(ts[1..], k - 1); }
  }
}
