/**
 The metrics registry: named counters and gauges in atomic cells, created on first use under a
 read-locked lookup and a write-locked recheck.

 The class `Registry` is the registry as one goroutine sees it. `Machine` is the same code cut
 at its lock boundaries, so that any number of goroutines can interleave.
 */
module Metrics {

  const TESTS_STARTED := "gospeedtest_tests_started_total"
  const TESTS_COMPLETED := "gospeedtest_tests_completed_total"
  const BYTES_SERVED := "gospeedtest_bytes_served_total"
  const BYTES_RECEIVED := "gospeedtest_bytes_received_total"
  const ACTIVE_STREAMS := "gospeedtest_active_streams"

  function Typed(name: string, typ: string): string {
    name + "{type=\"" + typ + "\"}"
  }

  const KNOWN_COUNTERS: seq<string> := [
    BYTES_SERVED, BYTES_RECEIVED,
    Typed(TESTS_STARTED, "download"), Typed(TESTS_STARTED, "upload"), Typed(TESTS_STARTED, "ws"),
    Typed(TESTS_COMPLETED, "download"), Typed(TESTS_COMPLETED, "upload"), Typed(TESTS_COMPLETED, "ws")
  ]

  datatype Kind = Counter | Gauge

  datatype Series = Series(kind: Kind, name: string)

  /** What callers can ask for; only gauges can be set. */
  datatype Call = Add(name: string, delta: int) | AddGauge(name: string, delta: int) | Set(name: string, value: int) {
    function Target(): Series {
      Series(if Add? then Counter else Gauge, name)
    }

    function Update(v: int): int {
      if Set? then value else v + delta
    }
  }

  // ---- one goroutine -----------------------------------------------------------

  class Cell {
    var v: int
    ghost const series: Series

    constructor (ghost series: Series)
      ensures v == 0 && this.series == series
    {
      v := 0;
      this.series := series;
    }
  }

  class Registry {
    var counters: map<string, Cell>
    var gauges: map<string, Cell>

    ghost var values: map<Series, int>

    ghost predicate Holds(cells: map<string, Cell>, kind: Kind)
      reads this`values, cells.Values
    {
      && (forall name :: name in cells <==> Series(kind, name) in values)
      && (forall name :: name in cells ==>
            cells[name].series == Series(kind, name) && cells[name].v == values[Series(kind, name)])
    }

    ghost predicate Valid()
      reads this, counters.Values, gauges.Values
    {
      Holds(counters, Counter) && Holds(gauges, Gauge)
    }

    constructor ()
      ensures Valid()
      ensures forall s :: s in values <==>
                          (s.kind == Counter && s.name in KNOWN_COUNTERS) || s == Series(Gauge, ACTIVE_STREAMS)
      ensures forall s :: s in values ==> values[s] == 0
      ensures fresh(counters.Values) && fresh(gauges.Values)
    {
      counters, gauges, values := map[], map[], map[];
      new;
      PreRegister(KNOWN_COUNTERS, ACTIVE_STREAMS);
    }

    method PreRegister(names: seq<string>, gauge: string)
      requires Valid() && values == map[]
      modifies this
      ensures Valid()
      ensures forall s :: s in values <==> (s.kind == Counter && s.name in names) || s == Series(Gauge, gauge)
      ensures forall s :: s in values ==> values[s] == 0
      ensures fresh(counters.Values - old(counters).Values) && fresh(gauges.Values - old(gauges).Values)
    {
      for i := 0 to |names|
        invariant Valid()
        invariant forall s :: s in values <==> s.kind == Counter && s.name in names[..i]
        invariant forall s :: s in values ==> values[s] == 0
        invariant fresh(counters.Values - old(counters).Values) && fresh(gauges.Values - old(gauges).Values)
      {
        var _ := Find(Series(Counter, names[i]));
      }
      var _ := Find(Series(Gauge, gauge));
    }

    /** The cell of a series, created at zero if there is none. */
    method Find(s: Series) returns (cell: Cell)
      requires Valid()
      modifies this
      ensures Valid()
      ensures values == if s in old(values) then old(values) else old(values)[s := 0]
      ensures cell.series == s && (cell in counters.Values || cell in gauges.Values)
      ensures if s.kind == Counter then s.name in counters && counters[s.name] == cell
              else s.name in gauges && gauges[s.name] == cell
      ensures fresh(counters.Values - old(counters).Values) && fresh(gauges.Values - old(gauges).Values)
    {
      if s.kind == Counter {
        if s.name !in counters {
          var c := new Cell(s);
          counters := counters[s.name := c];
          values := values[s := 0];
        }
        cell := counters[s.name];
      } else {
        if s.name !in gauges {
          var c := new Cell(s);
          gauges := gauges[s.name := c];
          values := values[s := 0];
        }
        cell := gauges[s.name];
      }
    }

    /** `Add`, `AddGauge` and `Set`: exactly the named series changes. */
    method Do(call: Call)
      requires Valid()
      modifies this, counters.Values, gauges.Values
      ensures Valid()
      ensures values == Done(old(values), call)
      ensures fresh(counters.Values - old(counters).Values) && fresh(gauges.Values - old(gauges).Values)
    {
      ghost var was := values;
      var cell := Find(call.Target());
      Apply(cell, call);
      assert values == Done(was, call);
    }

    /** The atomic operation on the cell in hand. */
    method Apply(cell: Cell, call: Call)
      requires Valid() && (cell in counters.Values || cell in gauges.Values) && cell.series == call.Target()
      modifies cell, this`values
      ensures Valid() && values == Done(old(values), call)
    {
      cell.v := call.Update(cell.v);
      values := values[cell.series := cell.v];
    }
  }

  function ValueOf(values: map<Series, int>, s: Series): int {
    if s in values then values[s] else 0
  }

  /** The series a call leaves behind: only its own changes. */
  function Done(values: map<Series, int>, call: Call): map<Series, int> {
    values[call.Target() := call.Update(ValueOf(values, call.Target()))]
  }

  // ---- any number of goroutines -------------------------------------------------

  datatype Thread = Request(id: nat) | Background(id: nat)

  /** Where a goroutine is inside a call: before the read-locked lookup, after it missed, or
      with the cell in hand, about to touch it. */
  datatype Phase = Look | Missed | Holding(cell: nat)

  datatype Op = Op(call: Call, phase: Phase)

  datatype Machine = Machine(
    bound: map<Series, nat>,  // the two maps, from name to cell
    cells: seq<int>,
    ops: map<Thread, Op>,     // the calls in progress
    log: seq<Call>            // the calls whose atomic operation has happened, in order
  )

  datatype Move = Begin(t: Thread, call: Call) | Read(t: Thread) | Write(t: Thread) | Commit(t: Thread)

  function Bind(m: Machine, s: Series): Machine {
    if s in m.bound then m
    else m.(bound := m.bound[s := |m.cells|], cells := m.cells + [0])
  }

  function BindAll(m: Machine, ss: seq<Series>): Machine
    decreases |ss|
  {
    if ss == [] then m else BindAll(Bind(m, ss[0]), ss[1..])
  }

  const NewMachine: Machine :=
    BindAll(Machine(map[], [], map[], []),
            seq(|KNOWN_COUNTERS|, i requires 0 <= i < |KNOWN_COUNTERS| => Series(Counter, KNOWN_COUNTERS[i]))
            + [Series(Gauge, ACTIVE_STREAMS)])

  /** One step of one goroutine; a step it is not at changes nothing. */
  function Next(m: Machine, move: Move): Machine {
    match move
    case Begin(t, call) =>
      if t in m.ops then m else m.(ops := m.ops[t := Op(call, Look)])
    case Read(t) =>
      if t in m.ops && m.ops[t].phase.Look? then
        var s := m.ops[t].call.Target();
        m.(ops := m.ops[t := m.ops[t].(phase := if s in m.bound then Holding(m.bound[s]) else Missed)])
      else m
    case Write(t) =>
      if t in m.ops && m.ops[t].phase.Missed? then
        var s := m.ops[t].call.Target();
        var b := Bind(m, s);
        b.(ops := m.ops[t := m.ops[t].(phase := Holding(b.bound[s]))])
      else m
    case Commit(t) =>
      if t in m.ops && m.ops[t].phase.Holding? && m.ops[t].phase.cell < |m.cells| then
        var c, call := m.ops[t].phase.cell, m.ops[t].call;
        m.(cells := m.cells[c := call.Update(m.cells[c])], ops := m.ops - {t}, log := m.log + [call])
      else m
  }

  function Moves(m: Machine, moves: seq<Move>): Machine
    decreases |moves|
  {
    if moves == [] then m else Moves(Next(m, moves[0]), moves[1..])
  }

  /** What the calls done so far, taken one after the other, make of a series. */
  function Outcome(log: seq<Call>, s: Series): int {
    if log == [] then 0
    else
      var v, last := Outcome(log[..|log| - 1], s), log[|log| - 1];
      if last.Target() == s then last.Update(v) else v
  }

  function Shown(m: Machine, s: Series): int {
    if s in m.bound && m.bound[s] < |m.cells| then m.cells[m.bound[s]] else 0
  }

  ghost predicate Exact(m: Machine, s: Series) {
    Shown(m, s) == Outcome(m.log, s)
  }

  ghost predicate InHand(m: Machine, t: Thread)
    requires t in m.ops
  {
    m.ops[t].phase.Holding? ==>
      m.ops[t].call.Target() in m.bound && m.bound[m.ops[t].call.Target()] == m.ops[t].phase.cell
  }

  ghost predicate OwnCells(m: Machine) {
    && (forall s :: s in m.bound ==> m.bound[s] < |m.cells|)
    && (forall s, r :: s in m.bound && r in m.bound && m.bound[s] == m.bound[r] ==> s == r)
  }

  /** Every series has one cell of its own, every goroutine past its lookup holds that cell, and
      each cell shows what the calls done so far add up to. */
  ghost predicate Sound(m: Machine) {
    && OwnCells(m)
    && (forall t :: t in m.ops ==> InHand(m, t))
    && (forall s :: Exact(m, s))
  }

  lemma OutcomeSnoc(log: seq<Call>, call: Call, s: Series)
    ensures Outcome(log + [call], s)
            == if call.Target() == s then call.Update(Outcome(log, s)) else Outcome(log, s)
  {
    assert (log + [call])[..|log|] == log;
  }

  lemma BindSound(m: Machine, s: Series)
    requires Sound(m)
    ensures Sound(Bind(m, s))
  {
    var b := Bind(m, s);
    forall r ensures Exact(b, r) { assert Exact(m, r); }
    forall t | t in b.ops ensures InHand(b, t) { assert InHand(m, t); }
  }

  lemma {:induction false} BindAllSound(m: Machine, ss: seq<Series>)
    requires Sound(m)
    ensures Sound(BindAll(m, ss)) && BindAll(m, ss).ops == m.ops && BindAll(m, ss).log == m.log
    decreases |ss|
  {
    if ss != [] {
      BindSound(m, ss[0]);
      BindAllSound(Bind(m, ss[0]), ss[1..]);
    }
  }

  lemma NewSound()
    ensures Sound(NewMachine) && NewMachine.ops == map[] && NewMachine.log == []
  {
    BindAllSound(Machine(map[], [], map[], []),
                 seq(|KNOWN_COUNTERS|, i requires 0 <= i < |KNOWN_COUNTERS| => Series(Counter, KNOWN_COUNTERS[i]))
                 + [Series(Gauge, ACTIVE_STREAMS)]);
  }

  lemma WriteSound(m: Machine, t: Thread)
    requires Sound(m)
    ensures Sound(Next(m, Write(t)))
  {
    if t in m.ops && m.ops[t].phase.Missed? {
      var n, b := Next(m, Write(t)), Bind(m, m.ops[t].call.Target());
      BindSound(m, m.ops[t].call.Target());
      forall r ensures Exact(n, r) { assert Exact(b, r); }
      forall u | u in n.ops ensures InHand(n, u) { assert InHand(b, u); }
    }
  }

  lemma CommitSound(m: Machine, t: Thread)
    requires Sound(m)
    ensures Sound(Next(m, Commit(t)))
  {
    var n := Next(m, Commit(t));
    if t in m.ops && m.ops[t].phase.Holding? {
      assert InHand(m, t);
      forall r ensures Exact(n, r) {
        assert Exact(m, r);
        OutcomeSnoc(m.log, m.ops[t].call, r);
      }
      forall u | u in n.ops ensures InHand(n, u) { assert InHand(m, u); }
    }
  }

  /** One step keeps every series in its cell, and a call that is done is never undone. */
  lemma NextSound(m: Machine, move: Move)
    requires Sound(m)
    ensures Sound(Next(m, move))
    ensures forall s :: s in m.bound ==> s in Next(m, move).bound && Next(m, move).bound[s] == m.bound[s]
    ensures m.log <= Next(m, move).log
  {
    match move
    case Begin(_, _) | Read(_) =>
      var n := Next(m, move);
      forall r ensures Exact(n, r) { assert Exact(m, r); }
      forall u | u in n.ops ensures InHand(n, u) { assert u in m.ops ==> InHand(m, u); }
    case Write(t) => WriteSound(m, t);
    case Commit(t) => CommitSound(m, t);
  }

  /** No update is lost: under every interleaving, a series stays in the cell it was first bound
      to, and its cell shows the outcome of all the calls done so far. */
  lemma {:induction false} NoLostUpdates(m: Machine, moves: seq<Move>)
    requires Sound(m)
    ensures Sound(Moves(m, moves))
    ensures forall s :: s in m.bound ==> s in Moves(m, moves).bound && Moves(m, moves).bound[s] == m.bound[s]
    ensures m.log <= Moves(m, moves).log
    decreases |moves|
  {
    if moves != [] {
      NextSound(m, moves[0]);
      NoLostUpdates(Next(m, moves[0]), moves[1..]);
    }
  }

  function Deltas(log: seq<Call>, s: Series): int {
    if log == [] then 0
    else (if log[0].Target() == s && !log[0].Set? then log[0].delta else 0) + Deltas(log[1..], s)
  }

  lemma {:induction false} DeltasSnoc(log: seq<Call>, call: Call, s: Series)
    ensures Deltas(log + [call], s) == Deltas(log, s) + Deltas([call], s)
  {
    if log == [] {
      assert log + [call] == [call];
    } else {
      assert (log + [call])[1..] == log[1..] + [call];
      DeltasSnoc(log[1..], call, s);
    }
  }

  /** A series nobody sets, as every counter is, holds the sum of the deltas done, in any order. */
  lemma {:induction false} OutcomeIsSum(log: seq<Call>, s: Series)
    requires forall call :: call in log && call.Set? ==> call.Target() != s
    ensures Outcome(log, s) == Deltas(log, s)
  {
    if log != [] {
      var init, last := log[..|log| - 1], log[|log| - 1];
      assert log == init + [last] && last in log;
      OutcomeIsSum(init, s);
      DeltasSnoc(init, last, s);
      OutcomeSnoc(init, last, s);
    }
  }

  /** A gauge shows the last value it was set to and the deltas since then. */
  lemma {:induction false} SetThenDeltas(before: seq<Call>, name: string, v: int, after: seq<Call>)
    requires forall call :: call in after && call.Set? ==> call.name != name
    ensures var s := Series(Gauge, name);
            Outcome(before + [Set(name, v)] + after, s) == v + Deltas(after, s)
    decreases |after|
  {
    var s := Series(Gauge, name);
    if after == [] {
      assert before + [Set(name, v)] + after == before + [Set(name, v)];
      OutcomeSnoc(before, Set(name, v), s);
    } else {
      var init, last := after[..|after| - 1], after[|after| - 1];
      assert after == init + [last] && last in after;
      assert before + [Set(name, v)] + after == (before + [Set(name, v)] + init) + [last];
      SetThenDeltas(before, name, v, init);
      OutcomeSnoc(before + [Set(name, v)] + init, last, s);
      DeltasSnoc(init, last, s);
    }
  }

  function Mover(move: Move): Thread {
    move.t
  }

  /** The call that a move completes: its goroutine was inside it and no longer is. */
  function Returned(m: Machine, move: Move): seq<Call> {
    if Mover(move) in m.ops && Mover(move) !in Next(m, move).ops then [m.ops[Mover(move)].call] else []
  }

  /** The calls that have returned over a run, in order. */
  function Completed(m: Machine, moves: seq<Move>): seq<Call>
    decreases |moves|
  {
    if moves == [] then [] else Returned(m, moves[0]) + Completed(Next(m, moves[0]), moves[1..])
  }

  /** A move touches no other goroutine's call, and a call's atomic operation has happened
      exactly when it returns. */
  lemma ReturnedOnce(m: Machine, move: Move)
    requires Sound(m)
    ensures Next(m, move).log == m.log + Returned(m, move)
    ensures forall t :: t != Mover(move) ==>
              (t in Next(m, move).ops <==> t in m.ops) && (t in m.ops ==> Next(m, move).ops[t] == m.ops[t])
  {
    if Mover(move) in m.ops { assert InHand(m, Mover(move)); }
  }

  lemma {:induction false} LogIsCompleted(m: Machine, moves: seq<Move>)
    requires Sound(m)
    ensures Moves(m, moves).log == m.log + Completed(m, moves)
    decreases |moves|
  {
    if moves != [] {
      ReturnedOnce(m, moves[0]);
      NextSound(m, moves[0]);
      LogIsCompleted(Next(m, moves[0]), moves[1..]);
    }
  }

  /** From a new registry, whatever the goroutines do, a counter is the sum of the deltas of the
      calls that have returned. */
  lemma CounterIsSum(moves: seq<Move>, name: string)
    ensures Shown(Moves(NewMachine, moves), Series(Counter, name))
            == Deltas(Completed(NewMachine, moves), Series(Counter, name))
  {
    NewSound();
    NoLostUpdates(NewMachine, moves);
    LogIsCompleted(NewMachine, moves);
    assert [] + Completed(NewMachine, moves) == Completed(NewMachine, moves);
    OutcomeIsSum(Moves(NewMachine, moves).log, Series(Counter, name));
    assert Exact(Moves(NewMachine, moves), Series(Counter, name));
  }

  /** And a gauge that was set is at its last set value plus the deltas of the calls returned since. */
  lemma GaugeIsLastSet(moves: seq<Move>, before: seq<Call>, name: string, v: int, after: seq<Call>)
    requires Completed(NewMachine, moves) == before + [Set(name, v)] + after
    requires forall call :: call in after && call.Set? ==> call.name != name
    ensures Shown(Moves(NewMachine, moves), Series(Gauge, name)) == v + Deltas(after, Series(Gauge, name))
  {
    NewSound();
    NoLostUpdates(NewMachine, moves);
    LogIsCompleted(NewMachine, moves);
    assert [] + Completed(NewMachine, moves) == Completed(NewMachine, moves);
    SetThenDeltas(before, name, v, after);
    assert Exact(Moves(NewMachine, moves), Series(Gauge, name));
  }

  function Alone(m: Machine, t: Thread, call: Call): Machine {
    Next(Next(Next(Next(m, Begin(t, call)), Read(t)), Write(t)), Commit(t))
  }

  lemma AloneCompletes(m: Machine, t: Thread, call: Call)
    requires OwnCells(m) && t !in m.ops
    ensures Alone(m, t, call).ops == m.ops && Alone(m, t, call).log == m.log + [call]
  {
    var a := Next(m, Begin(t, call));
    var b := Next(a, Read(t));
    if call.Target() in m.bound {
      assert b.ops[t] == Op(call, Holding(m.bound[call.Target()]));
      assert Next(b, Write(t)) == b;
    } else {
      assert b.ops[t] == Op(call, Missed);
      assert Next(b, Write(t)).ops[t] == Op(call, Holding(|m.cells|));
    }
    assert Alone(m, t, call).ops == m.ops;
  }

  /** A goroutine at its lookup, left alone, completes its call. */
  lemma LookCompletes(m: Machine, t: Thread)
    requires Sound(m) && t in m.ops && m.ops[t].phase.Look?
    ensures var call, b := m.ops[t].call, Next(Next(m, Read(t)), Write(t));
            var n := Next(b, Commit(t));
            && Sound(n) && n.ops == m.ops - {t} && n.log == m.log + [call]
            && t in b.ops && b.ops[t].phase.Holding? && b.ops[t].phase.cell < |b.cells|
  {
    var a := Next(m, Read(t));
    NextSound(m, Read(t));
    NextSound(a, Write(t));
    NextSound(Next(a, Write(t)), Commit(t));
    if m.ops[t].call.Target() in m.bound {
      assert Next(a, Write(t)) == a;
    }
    assert Next(Next(a, Write(t)), Commit(t)).ops == m.ops - {t};
  }

  /** A goroutine left alone does to the cells what `Registry.Do` does to the values. */
  lemma AloneIsDo(m: Machine, t: Thread, call: Call, s: Series)
    requires Sound(m) && t !in m.ops
    ensures Sound(Alone(m, t, call))
    ensures Shown(Alone(m, t, call), s) == if s == call.Target() then call.Update(Shown(m, s)) else Shown(m, s)
  {
    NextSound(m, Begin(t, call));
    NextSound(Next(m, Begin(t, call)), Read(t));
    NextSound(Next(Next(m, Begin(t, call)), Read(t)), Write(t));
    NextSound(Next(Next(Next(m, Begin(t, call)), Read(t)), Write(t)), Commit(t));
    AloneCompletes(m, t, call);
    assert Exact(Alone(m, t, call), s) && Exact(m, s);
    OutcomeSnoc(m.log, call, s);
  }
}
