/**
 The text exposition of the registry, line by line. Its reference is the list of lines a scrape
 must show, put in order by family, then header before samples, then series name; `Expose`
 groups and sorts as the registry does, over maps iterated in an arbitrary order.
 */
module Exposition {
  import M = Metrics

  datatype Line =
    | Help(family: string, text: string)
    | Type(family: string, kind: M.Kind)
    | Sample(name: string, value: int)

  const HELP: map<string, string> := map[
    M.TESTS_STARTED := "Payload requests started, by type.",
    M.TESTS_COMPLETED := "Payload requests completed, by type.",
    M.BYTES_SERVED := "Total payload bytes served to clients.",
    M.BYTES_RECEIVED := "Total payload bytes received from clients.",
    M.ACTIVE_STREAMS := "Currently active payload streams."
  ]

  /** Everything before the label suffix. */
  function Family(name: string): string {
    if name == [] || name[0] == '{' then [] else [name[0]] + Family(name[1..])
  }

  // ---- the order of names ------------------------------------------------------------

  predicate Less(a: string, b: string) {
    b != [] && (a == [] || a[0] < b[0] || (a[0] == b[0] && Less(a[1..], b[1..])))
  }

  lemma {:induction false} LessTotal(a: string, b: string)
    ensures Less(a, b) || Less(b, a) || a == b
    ensures !(Less(a, b) && Less(b, a)) && !Less(a, a)
  {
    if a != [] { LessTotal(a[1..], a[1..]); }
    if a != [] && b != [] {
      LessTotal(a[1..], b[1..]);
      if a[0] == b[0] && a[1..] == b[1..] { assert a == [a[0]] + a[1..] && b == [b[0]] + b[1..]; }
    }
  }

  lemma {:induction false} LessTransitive(a: string, b: string, c: string)
    requires Less(a, b) && Less(b, c)
    ensures Less(a, c)
  {
    if a != [] && a[0] == b[0] == c[0] { LessTransitive(a[1..], b[1..], c[1..]); }
  }

  /** The order is that of dictionaries: a name comes before its extensions, and otherwise the first
      character that differs decides. */
  lemma {:induction false} LessExactly(a: string, b: string)
    ensures Less(a, b) <==> (a <= b && a != b) || exists k :: FirstDifference(a, b, k) && a[k] < b[k]
  {
    if a != [] && b != [] && a[0] == b[0] {
      LessExactly(a[1..], b[1..]);
      assert a == [a[0]] + a[1..] && b == [b[0]] + b[1..];
      assert a <= b <==> a[1..] <= b[1..];
      forall k ensures FirstDifference(a, b, k + 1) <==> FirstDifference(a[1..], b[1..], k) {
        if 0 <= k < |a| - 1 && k < |b| - 1 {
          assert a[..k + 1] == [a[0]] + a[1..][..k] && b[..k + 1] == [b[0]] + b[1..][..k];
          assert a[..k + 1][1..] == a[1..][..k] && b[..k + 1][1..] == b[1..][..k];
        }
      }
      if j :| FirstDifference(a[1..], b[1..], j) && a[1..][j] < b[1..][j] {
        assert FirstDifference(a, b, j + 1);
      }
      if k :| FirstDifference(a, b, k) && a[k] < b[k] {
        assert FirstDifference(a[1..], b[1..], k - 1);
      }
    } else if a != [] && b != [] {
      if a[0] < b[0] { assert FirstDifference(a, b, 0); }
      if k :| FirstDifference(a, b, k) && a[k] < b[k] {
        if k > 0 { assert a[..k][0] == b[..k][0]; }
      }
    }
  }

  ghost predicate FirstDifference(a: string, b: string, k: int) {
    0 <= k < |a| && k < |b| && a[..k] == b[..k] && a[k] != b[k]
  }

  // ---- the order of lines ------------------------------------------------------------

  function FamilyOf(line: Line): string {
    match line
    case Help(f, _) => f
    case Type(f, _) => f
    case Sample(n, _) => Family(n)
  }

  function Rank(line: Line): int {
    match line
    case Help(_, _) => 0
    case Type(_, _) => 1
    case Sample(_, _) => 2
  }

  function NameOf(line: Line): string {
    if line.Sample? then line.name else []
  }

  /** By family, then help, type and samples, then the name of the series. */
  predicate Before(a: Line, b: Line) {
    || Less(FamilyOf(a), FamilyOf(b))
    || (FamilyOf(a) == FamilyOf(b) && (Rank(a) < Rank(b) || (Rank(a) == Rank(b) && Less(NameOf(a), NameOf(b)))))
  }

  lemma BeforeTotal(a: Line, b: Line)
    ensures !(Before(a, b) && Before(b, a))
    ensures Before(a, b) || Before(b, a) || (FamilyOf(a) == FamilyOf(b) && Rank(a) == Rank(b) && NameOf(a) == NameOf(b))
  {
    LessTotal(FamilyOf(a), FamilyOf(b));
    LessTotal(NameOf(a), NameOf(b));
  }

  ghost predicate InOrder(lines: seq<Line>) {
    forall i, j :: 0 <= i < j < |lines| ==> !Before(lines[j], lines[i])
  }

  // ---- the lines of a scrape ---------------------------------------------------------

  function Families(c: map<string, int>, g: map<string, int>): set<string> {
    FamiliesOf(c) + FamiliesOf(g)
  }

  /** A family that has a counter is shown as a counter family. */
  ghost function KindOf(c: map<string, int>, f: string): M.Kind {
    if exists n :: n in c && Family(n) == f then M.Counter else M.Gauge
  }

  /** One sample for each series of a map whose family is among `fs`. */
  ghost function SampleLines(m: map<string, int>, fs: set<string>): set<Line> {
    set n | n in m && Family(n) in fs :: Sample(n, m[n])
  }

  ghost function HelpLines(fs: set<string>): set<Line> {
    set f | f in fs && f in HELP :: Help(f, HELP[f])
  }

  ghost function TypeLines(c: map<string, int>, fs: set<string>): set<Line> {
    set f | f in fs :: Type(f, KindOf(c, f))
  }

  /** What a scrape must show: one type line for each family, its help line if it has one, and one
      sample for each series. */
  ghost function Lines(c: map<string, int>, g: map<string, int>): multiset<Line> {
    Part(c, g, Families(c, g))
  }

  /** The lines of some of the families. */
  ghost function Part(c: map<string, int>, g: map<string, int>, fs: set<string>): multiset<Line> {
    multiset(HelpLines(fs)) + multiset(TypeLines(c, fs)) + multiset(SampleLines(c, fs)) + multiset(SampleLines(g, fs))
  }

  ghost predicate IsExposition(out: seq<Line>, c: map<string, int>, g: map<string, int>) {
    multiset(out) == Lines(c, g) && InOrder(out)
  }

  // ---- canonical -----------------------------------------------------------------------

  /** No name is both a counter and a gauge with another value. */
  ghost predicate Agree(c: map<string, int>, g: map<string, int>) {
    forall n :: n in c && n in g ==> c[n] == g[n]
  }

  lemma LineIn(c: map<string, int>, g: map<string, int>, line: Line)
    ensures line in Lines(c, g) <==>
            match line
            case Help(f, text) => f in Families(c, g) && f in HELP && text == HELP[f]
            case Type(f, kind) => f in Families(c, g) && kind == KindOf(c, f)
            case Sample(n, v) => (n in c && c[n] == v) || (n in g && g[n] == v)
  {
  }

  /** Two lines that neither must come before are the same line. */
  lemma TiesAreEqual(c: map<string, int>, g: map<string, int>, a: Line, b: Line)
    requires Agree(c, g) && a in Lines(c, g) && b in Lines(c, g) && !Before(a, b) && !Before(b, a)
    ensures a == b
  {
    BeforeTotal(a, b);
    LineIn(c, g, a);
    LineIn(c, g, b);
  }

  ghost predicate NoTies(lines: seq<Line>) {
    forall x, y :: x in lines && y in lines && !Before(x, y) && !Before(y, x) ==> x == y
  }

  lemma HeadIsFirst(a: seq<Line>, x: Line)
    requires InOrder(a) && x in a
    ensures !Before(x, a[0])
  {
    BeforeTotal(x, x);
  }

  lemma TailInOrder(a: seq<Line>)
    requires a != [] && InOrder(a)
    ensures InOrder(a[1..]) && multiset(a[1..]) == multiset(a) - multiset{a[0]}
  {
    assert a == [a[0]] + a[1..];
    forall i, j | 0 <= i < j < |a[1..]| ensures !Before(a[1..][j], a[1..][i]) {
      assert !Before(a[j + 1], a[i + 1]);
    }
  }

  lemma SameHead(a: seq<Line>, b: seq<Line>)
    requires a != [] && b != [] && multiset(a) == multiset(b) && NoTies(a) && InOrder(a) && InOrder(b)
    ensures a[0] == b[0] && NoTies(b)
  {
    forall x ensures x in a <==> x in b {
      assert x in a <==> x in multiset(a);
      assert x in b <==> x in multiset(b);
    }
    HeadIsFirst(a, b[0]);
    HeadIsFirst(b, a[0]);
  }

  /** Two lists in order that hold the same lines, with no ties among them, are the same list. */
  lemma {:induction false} SortedUnique(a: seq<Line>, b: seq<Line>)
    requires multiset(a) == multiset(b) && NoTies(a) && InOrder(a) && InOrder(b)
    ensures a == b
    decreases |a|
  {
    assert |multiset(a)| == |a| && |multiset(b)| == |b|;
    if a != [] {
      SameHead(a, b);
      TailInOrder(a);
      TailInOrder(b);
      SortedUnique(a[1..], b[1..]);
      assert a == [a[0]] + a[1..] && b == [b[0]] + b[1..];
    }
  }

  lemma Canonical(a: seq<Line>, b: seq<Line>, c: map<string, int>, g: map<string, int>)
    requires Agree(c, g) && IsExposition(a, c, g) && IsExposition(b, c, g)
    ensures a == b
  {
    forall x, y | x in a && y in a && !Before(x, y) && !Before(y, x) ensures x == y {
      assert x in multiset(a) && y in multiset(a);
      TiesAreEqual(c, g, x, y);
    }
    SortedUnique(a, b);
  }

  // ---- grouping and sorting as the registry does ------------------------------------------

  /** Sorts by name; ties end up in some order. */
  method SortBy<T>(items: seq<T>, name: T -> string) returns (sorted: seq<T>)
    ensures multiset(sorted) == multiset(items)
    ensures Ascending(sorted, name)
  {
    sorted := [];
    for n := 0 to |items|
      invariant multiset(sorted) == multiset(items[..n])
      invariant Ascending(sorted, name)
    {
      var x := items[n];
      var k := 0;
      while k < |sorted| && !Less(name(x), name(sorted[k]))
        invariant k <= |sorted|
        invariant forall i :: 0 <= i < k ==> !Less(name(x), name(sorted[i]))
      {
        k := k + 1;
      }
      InsertAt(sorted, k, x, name);
      InsertedOnce(sorted, k, x);
      assert items[..n + 1] == items[..n] + [x];
      sorted := sorted[..k] + [x] + sorted[k..];
    }
    assert items[..|items|] == items;
  }

  ghost predicate Ascending<T>(items: seq<T>, name: T -> string) {
    forall i, j :: 0 <= i < j < |items| ==> !Less(name(items[j]), name(items[i]))
  }

  lemma NotAfter<T>(sorted: seq<T>, k: nat, x: T, j: nat, name: T -> string)
    requires k <= j < |sorted| && Ascending(sorted, name) && Less(name(x), name(sorted[k]))
    ensures !Less(name(sorted[j]), name(x))
  {
    if Less(name(sorted[j]), name(x)) {
      LessTransitive(name(sorted[j]), name(x), name(sorted[k]));
      LessTotal(name(sorted[j]), name(sorted[k]));
    }
  }

  lemma InsertAt<T>(sorted: seq<T>, k: nat, x: T, name: T -> string)
    requires k <= |sorted| && Ascending(sorted, name)
    requires forall i :: 0 <= i < k ==> !Less(name(x), name(sorted[i]))
    requires k < |sorted| ==> Less(name(x), name(sorted[k]))
    ensures Ascending(sorted[..k] + [x] + sorted[k..], name)
  {
    var out := sorted[..k] + [x] + sorted[k..];
    forall i, j | 0 <= i < j < |out| ensures !Less(name(out[j]), name(out[i])) {
      if i == k { NotAfter(sorted, k, x, j - 1, name); }
    }
  }

  lemma InsertedOnce<T>(sorted: seq<T>, k: nat, x: T)
    requires k <= |sorted|
    ensures multiset(sorted[..k] + [x] + sorted[k..]) == multiset(sorted) + multiset{x}
  {
    assert sorted == sorted[..k] + sorted[k..];
  }

  datatype Group = Group(kind: M.Kind, samples: seq<Line>)

  lemma UnionSize(a: set<Line>, b: set<Line>)
    requires a !! b
    ensures multiset(a + b) == multiset(a) + multiset(b)
  {
  }

  ghost function InFamily(m: map<string, int>, f: string): multiset<Line> {
    multiset(SampleLines(m, {f}))
  }

  lemma InFamilyAdd(m: map<string, int>, n: string, v: int, f: string)
    requires n !in m
    ensures InFamily(m[n := v], f) == InFamily(m, f) + if Family(n) == f then multiset{Sample(n, v)} else multiset{}
  {
    var before, after := SampleLines(m, {f}), SampleLines(m[n := v], {f});
    var added: set<Line> := if Family(n) == f then {Sample(n, v)} else {};
    forall x ensures x in after <==> x in before + added {
      match x
      case Sample(k, w) =>
      case _ =>
    }
    assert after == before + added;
    UnionSize(before, added);
  }

  ghost function SamplesIn(fams: map<string, Group>, f: string): multiset<Line> {
    if f in fams then multiset(fams[f].samples) else multiset{}
  }

  function AppendTo(fams: map<string, Group>, kind: M.Kind, n: string, v: int): map<string, Group> {
    var g := if Family(n) in fams then fams[Family(n)] else Group(kind, []);
    fams[Family(n) := g.(samples := g.samples + [Sample(n, v)])]
  }

  lemma AppendKeys(kind: M.Kind, done: map<string, int>, before: map<string, Group>, fams: map<string, Group>,
                   n: string, v: int)
    requires n !in done && (forall f :: f in fams <==> f in before || f in FamiliesOf(done))
    ensures forall f :: f in AppendTo(fams, kind, n, v) <==> f in before || f in FamiliesOf(done[n := v])
  {
    assert FamiliesOf(done[n := v]) == FamiliesOf(done) + {Family(n)} by {
      assert n in done[n := v];
      assert forall k :: k in done ==> k in done[n := v];
    }
  }

  lemma AppendSum(kind: M.Kind, done: map<string, int>, before: map<string, Group>, fams: map<string, Group>,
                  n: string, v: int, f: string)
    requires n !in done && SamplesIn(fams, f) == SamplesIn(before, f) + InFamily(done, f)
    ensures SamplesIn(AppendTo(fams, kind, n, v), f) == SamplesIn(before, f) + InFamily(done[n := v], f)
  {
    InFamilyAdd(done, n, v, f);
  }

  lemma CollectOne(kind: M.Kind, done: map<string, int>, before: map<string, Group>, fams: map<string, Group>,
                   n: string, v: int)
    requires n !in done && Collected(kind, done, before, fams)
    ensures Collected(kind, done[n := v], before, AppendTo(fams, kind, n, v))
  {
    var more, next := done[n := v], AppendTo(fams, kind, n, v);
    AppendKeys(kind, done, before, fams, n, v);
    forall f ensures SumOk(more, before, next, f) {
      assert SumOk(done, before, fams, f);
      AppendSum(kind, done, before, fams, n, v, f);
    }
    forall f | f in next ensures KindOk(kind, before, next, f) {
      assert f in fams ==> KindOk(kind, before, fams, f);
    }
  }

  /** Appends every series of one map to the group of its family, in the map's own order. */
  method Collect(kind: M.Kind, m: map<string, int>, before: map<string, Group>) returns (fams: map<string, Group>)
    ensures Collected(kind, m, before, fams)
  {
    fams := before;
    var todo := m.Keys;
    ghost var done: map<string, int> := map[];
    while todo != {}
      invariant todo <= m.Keys && done == map n | n in m && n !in todo :: m[n]
      invariant Collected(kind, done, before, fams)
    {
      var n :| n in todo;
      var f := Family(n);
      var g := if f in fams then fams[f] else Group(kind, []);
      CollectOne(kind, done, before, fams, n, m[n]);
      fams := fams[f := g.(samples := g.samples + [Sample(n, m[n])])];
      todo := todo - {n};
      done := done[n := m[n]];
    }
    assert done == m;
  }

  function FamiliesOf(m: map<string, int>): set<string> {
    set n | n in m :: Family(n)
  }

  ghost predicate SumOk(m: map<string, int>, before: map<string, Group>, fams: map<string, Group>, f: string) {
    SamplesIn(fams, f) == SamplesIn(before, f) + InFamily(m, f)
  }

  /** `fams` is `before` with every series of `m` added to its family. */
  ghost predicate Collected(kind: M.Kind, m: map<string, int>, before: map<string, Group>, fams: map<string, Group>) {
    && (forall f :: f in fams <==> f in before || f in FamiliesOf(m))
    && (forall f :: f in fams ==> KindOk(kind, before, fams, f))
    && (forall f :: SumOk(m, before, fams, f))
  }

  ghost predicate KindOk(kind: M.Kind, before: map<string, Group>, fams: map<string, Group>, f: string)
    requires f in fams
  {
    fams[f].kind == if f in before then before[f].kind else kind
  }

  lemma SampleSplit(m: map<string, int>, fs: set<string>, f: string)
    requires f !in fs
    ensures multiset(SampleLines(m, fs + {f})) == multiset(SampleLines(m, fs)) + InFamily(m, f)
  {
    assert SampleLines(m, fs + {f}) == SampleLines(m, fs) + SampleLines(m, {f});
    UnionSize(SampleLines(m, fs), SampleLines(m, {f}));
  }

  lemma HeaderSplit(c: map<string, int>, fs: set<string>, f: string)
    requires f !in fs
    ensures multiset(HelpLines(fs + {f})) == multiset(HelpLines(fs)) + multiset(HelpLines({f}))
    ensures multiset(TypeLines(c, fs + {f})) == multiset(TypeLines(c, fs)) + multiset(TypeLines(c, {f}))
  {
    assert HelpLines(fs + {f}) == HelpLines(fs) + HelpLines({f});
    UnionSize(HelpLines(fs), HelpLines({f}));
    assert TypeLines(c, fs + {f}) == TypeLines(c, fs) + TypeLines(c, {f});
    UnionSize(TypeLines(c, fs), TypeLines(c, {f}));
  }

  lemma PartSplit(c: map<string, int>, g: map<string, int>, fs: set<string>, f: string)
    requires f !in fs
    ensures Part(c, g, fs + {f}) == Part(c, g, fs) + Part(c, g, {f})
  {
    SampleSplit(c, fs, f);
    SampleSplit(g, fs, f);
    HeaderSplit(c, fs, f);
  }

  // ---- the scrape ----------------------------------------------------------------------

  ghost function Named(names: seq<string>): set<string> {
    set f | f in names
  }

  ghost predicate OfFamily(lines: seq<Line>, f: string) {
    forall x :: x in lines ==> FamilyOf(x) == f
  }

  lemma Joined(a: seq<Line>, b: seq<Line>)
    requires InOrder(a) && InOrder(b)
    requires forall x, y :: x in a && y in b ==> !Before(y, x)
    ensures InOrder(a + b)
  {
    var ab := a + b;
    forall i, j | 0 <= i < j < |ab| ensures !Before(ab[j], ab[i]) {
      if i < |a| <= j { assert a[i] in a && b[j - |a|] in b; }
    }
  }

  lemma SamplesInOrder(samples: seq<Line>, name: string)
    requires forall x :: x in samples ==> x.Sample? && Family(x.name) == name
    requires Ascending(samples, NameOf)
    ensures InOrder(samples)
  {
    LessTotal(name, name);
    forall i, j | 0 <= i < j < |samples| ensures !Before(samples[j], samples[i]) {
      assert samples[i] in samples && samples[j] in samples;
    }
  }

  function Header(name: string, kind: M.Kind): seq<Line> {
    (if name in HELP then [Help(name, HELP[name])] else []) + [Type(name, kind)]
  }

  lemma HeaderFacts(name: string, kind: M.Kind, samples: seq<Line>)
    requires InOrder(samples) && forall x :: x in samples ==> x.Sample? && Family(x.name) == name
    ensures InOrder(Header(name, kind) + samples)
    ensures multiset(Header(name, kind)) == multiset(HelpLines({name})) + multiset{Type(name, kind)}
  {
    LessTotal(name, name);
    Joined(Header(name, kind), samples);
    assert HelpLines({name}) == if name in HELP then {Help(name, HELP[name])} else {};
  }

  /** What the scrape writes for a family, its samples as the sort left them. */
  function Block(name: string, kind: M.Kind, samples: seq<Line>): seq<Line> {
    Header(name, kind) + samples
  }

  /** All that a sort promises: the same items, ascending by name, ties in any order. */
  ghost predicate IsSorted(sorted: seq<Line>, items: seq<Line>) {
    multiset(sorted) == multiset(items) && Ascending(sorted, NameOf)
  }

  lemma BlockFacts(name: string, kind: M.Kind, samples: seq<Line>)
    requires (forall x :: x in samples ==> x.Sample? && Family(x.name) == name) && Ascending(samples, NameOf)
    ensures var block := Block(name, kind, samples);
            && InOrder(block) && OfFamily(block, name)
            && multiset(block) == multiset(HelpLines({name})) + multiset{Type(name, kind)} + multiset(samples)
  {
    SamplesInOrder(samples, name);
    HeaderFacts(name, kind, samples);
  }

  /** Help, type and the sorted samples of one family. */
  method WriteFamily(name: string, g: Group) returns (block: seq<Line>, samples: seq<Line>)
    ensures IsSorted(samples, g.samples) && block == Block(name, g.kind, samples)
  {
    block := [];
    if name in HELP {
      block := block + [Help(name, HELP[name])];
    }
    block := block + [Type(name, g.kind)];
    samples := SortBy(g.samples, NameOf);
    assert block == Header(name, g.kind);
    block := block + samples;
  }

  lemma PartOne(c: map<string, int>, g: map<string, int>, f: string)
    ensures Part(c, g, {f})
            == multiset(HelpLines({f})) + multiset{Type(f, KindOf(c, f))} + InFamily(c, f) + InFamily(g, f)
  {
    var one: set<Line> := {Type(f, KindOf(c, f))};
    assert TypeLines(c, {f}) == one by { TypeOfOne(c, f); }
    assert multiset(one) == multiset{Type(f, KindOf(c, f))};
  }

  lemma TypeOfOne(c: map<string, int>, f: string)
    ensures TypeLines(c, {f}) == {Type(f, KindOf(c, f))}
  {
  }

  ghost predicate Grouped(c: map<string, int>, g: map<string, int>, fams: map<string, Group>) {
    && fams.Keys == Families(c, g)
    && (forall f :: f in fams ==> fams[f].kind == KindOf(c, f))
    && (forall f :: f in fams ==> multiset(fams[f].samples) == InFamily(c, f) + InFamily(g, f))
  }

  lemma BothCollected(c: map<string, int>, g: map<string, int>, one: map<string, Group>, two: map<string, Group>)
    requires Collected(M.Counter, c, map[], one) && Collected(M.Gauge, g, one, two)
    ensures Grouped(c, g, two)
  {
    forall f | f in two
      ensures two[f].kind == KindOf(c, f) && multiset(two[f].samples) == InFamily(c, f) + InFamily(g, f) {
      assert SumOk(c, map[], one, f) && SumOk(g, one, two, f);
      assert KindOk(M.Gauge, one, two, f) && (f in one ==> KindOk(M.Counter, map[], one, f));
    }
    assert two.Keys == Families(c, g);
  }

  /** The keys of a map, in the map's own order, then sorted. */
  method SortedKeys(fams: map<string, Group>) returns (names: seq<string>)
    ensures Named(names) == fams.Keys
    ensures forall i, j :: 0 <= i < j < |names| ==> Less(names[i], names[j])
  {
    names := [];
    var todo := fams.Keys;
    while todo != {}
      invariant todo <= fams.Keys
      invariant forall f :: f in names <==> f in fams.Keys - todo
      invariant forall i, j :: 0 <= i < j < |names| ==> names[i] != names[j]
    {
      var f :| f in todo;
      assert f !in names;
      names := names + [f];
      todo := todo - {f};
      assert names[|names| - 1] == f && forall k :: 0 <= k < |names| - 1 ==> names[k] != f;
    }
    var listed := names;
    names := SortBy(listed, (f: string) => f);
    SortedDistinct(listed, names);
  }

  lemma SortedDistinct(listed: seq<string>, names: seq<string>)
    requires multiset(names) == multiset(listed)
    requires forall i, j :: 0 <= i < j < |listed| ==> listed[i] != listed[j]
    requires forall i, j :: 0 <= i < j < |names| ==> !Less(names[j], names[i])
    ensures Named(names) == Named(listed)
    ensures forall i, j :: 0 <= i < j < |names| ==> Less(names[i], names[j])
  {
    forall f ensures f in names <==> f in listed {
      assert f in names <==> f in multiset(names);
      assert f in listed <==> f in multiset(listed);
    }
    forall i, j | 0 <= i < j < |names| ensures Less(names[i], names[j]) {
      LessTotal(names[i], names[j]);
      if names[i] == names[j] {
        CountTwice(names, i, j);
        CountOnce(listed, names[i]);
      }
    }
  }

  lemma CountTwice<T>(s: seq<T>, i: nat, j: nat)
    requires i < j < |s| && s[i] == s[j]
    ensures multiset(s)[s[i]] >= 2
  {
    assert s == s[..i] + [s[i]] + s[i + 1..j] + [s[j]] + s[j + 1..];
  }

  lemma {:induction false} CountOnce(s: seq<string>, x: string)
    requires forall i, j :: 0 <= i < j < |s| ==> s[i] != s[j]
    ensures multiset(s)[x] <= 1
  {
    if s != [] {
      assert s == [s[0]] + s[1..];
      CountOnce(s[1..], x);
      assert x in s[1..] ==> s[0] != x;
    }
  }

  ghost predicate InNames(names: seq<string>, fams: map<string, Group>, sorted: map<string, seq<Line>>) {
    forall f :: f in names ==> f in fams && f in sorted
  }

  function Blocks(names: seq<string>, fams: map<string, Group>, sorted: map<string, seq<Line>>): seq<Line>
    requires InNames(names, fams, sorted)
  {
    if names == [] then []
    else
      var n := |names| - 1;
      Blocks(names[..n], fams, sorted) + Block(names[n], fams[names[n]].kind, sorted[names[n]])
  }

  ghost predicate Ascend(names: seq<string>) {
    forall i, j :: 0 <= i < j < |names| ==> Less(names[i], names[j])
  }

  /** `sorted` holds the samples of these families, each sorted. */
  ghost predicate Sorts(names: seq<string>, fams: map<string, Group>, sorted: map<string, seq<Line>>) {
    && InNames(names, fams, sorted)
    && forall f :: f in names ==> IsSorted(sorted[f], fams[f].samples)
  }

  /** The families of a registry in order, each with its samples sorted somehow, come out as `out`. */
  ghost predicate Rendering(c: map<string, int>, g: map<string, int>, fams: map<string, Group>, names: seq<string>,
                            sorted: map<string, seq<Line>>, out: seq<Line>)
  {
    && Grouped(c, g, fams) && Ascend(names) && Named(names) == fams.Keys
    && Sorts(names, fams, sorted) && out == Blocks(names, fams, sorted)
  }

  /** `out` is what a scrape may write, given no more of the sort than its contract. */
  ghost predicate Renders(c: map<string, int>, g: map<string, int>, out: seq<Line>) {
    exists fams, names, sorted :: Rendering(c, g, fams, names, sorted, out)
  }

  lemma {:induction false} OtherBlocks(names: seq<string>, fams: map<string, Group>, sorted: map<string, seq<Line>>,
                                       f: string, samples: seq<Line>)
    requires InNames(names, fams, sorted) && f !in names
    ensures Blocks(names, fams, sorted[f := samples]) == Blocks(names, fams, sorted)
  {
    if names != [] { OtherBlocks(names[..|names| - 1], fams, sorted, f, samples); }
  }

  lemma OneMoreBlock(done: seq<string>, f: string, fams: map<string, Group>, sorted: map<string, seq<Line>>,
                     samples: seq<Line>)
    requires f !in done && Sorts(done, fams, sorted) && f in fams && IsSorted(samples, fams[f].samples)
    ensures Sorts(done + [f], fams, sorted[f := samples])
    ensures Blocks(done + [f], fams, sorted[f := samples])
            == Blocks(done, fams, sorted) + Block(f, fams[f].kind, samples)
  {
    OtherBlocks(done, fams, sorted, f, samples);
    assert (done + [f])[..|done|] == done;
  }

  /** The families in turn, the samples of each sorted as it is written. */
  method WriteFamilies(names: seq<string>, fams: map<string, Group>)
    returns (out: seq<Line>, sorted: map<string, seq<Line>>)
    requires Ascend(names) && forall f :: f in names ==> f in fams
    ensures Sorts(names, fams, sorted) && out == Blocks(names, fams, sorted)
  {
    out, sorted := [], map[];
    for i := 0 to |names|
      invariant Sorts(names[..i], fams, sorted) && out == Blocks(names[..i], fams, sorted)
    {
      var block, samples := WriteFamily(names[i], fams[names[i]]);
      AscendNext(names, i);
      OneMoreBlock(names[..i], names[i], fams, sorted, samples);
      out := out + block;
      sorted := sorted[names[i] := samples];
    }
    assert names[..|names|] == names;
  }

  /** The scrape is an exposition of the registry's values. */
  method Expose(c: map<string, int>, g: map<string, int>) returns (out: seq<Line>)
    ensures Renders(c, g, out) && IsExposition(out, c, g)
  {
    var one := Collect(M.Counter, c, map[]);
    var fams := Collect(M.Gauge, g, one);
    BothCollected(c, g, one, fams);
    var names := SortedKeys(fams);
    assert forall f :: f in names ==> f in Named(names);
    var sorted;
    out, sorted := WriteFamilies(names, fams);
    Witnessed(c, g, fams, names, sorted, out);
    RenderingIsExposition(c, g, fams, names, sorted, out);
  }

  lemma Witnessed(c: map<string, int>, g: map<string, int>, fams: map<string, Group>, names: seq<string>,
                  sorted: map<string, seq<Line>>, out: seq<Line>)
    requires Rendering(c, g, fams, names, sorted, out)
    ensures Renders(c, g, out)
  {
  }

  /** The group of a family and its sorted samples are what the scrape must show of it. */
  ghost predicate Fits(c: map<string, int>, g: map<string, int>, f: string, kind: M.Kind, samples: seq<Line>) {
    kind == KindOf(c, f) && multiset(samples) == InFamily(c, f) + InFamily(g, f) && Ascending(samples, NameOf)
  }

  lemma {:induction false} BlocksWritten(c: map<string, int>, g: map<string, int>, fams: map<string, Group>,
                                         names: seq<string>, sorted: map<string, seq<Line>>)
    requires InNames(names, fams, sorted) && Ascend(names)
    requires forall f :: f in names ==> Fits(c, g, f, fams[f].kind, sorted[f])
    ensures Written(c, g, names, Blocks(names, fams, sorted))
  {
    if names == [] {
      NothingWritten(c, g);
    } else {
      var n := |names| - 1;
      BlocksWritten(c, g, fams, names[..n], sorted);
      AscendNext(names, n);
      assert names[..n + 1] == names;
      WrittenNext(c, g, names[..n], names[n], Blocks(names[..n], fams, sorted), fams[names[n]].kind, sorted[names[n]]);
    }
  }

  /** Whatever the sort does with ties, the scrape is an exposition of the registry's values. */
  lemma RenderingIsExposition(c: map<string, int>, g: map<string, int>, fams: map<string, Group>, names: seq<string>,
                              sorted: map<string, seq<Line>>, out: seq<Line>)
    requires Rendering(c, g, fams, names, sorted, out)
    ensures IsExposition(out, c, g)
  {
    forall f | f in names ensures Fits(c, g, f, fams[f].kind, sorted[f]) {
      assert f in Named(names);
    }
    BlocksWritten(c, g, fams, names, sorted);
  }

  /** These families are out. */
  ghost predicate Written(c: map<string, int>, g: map<string, int>, done: seq<string>, out: seq<Line>) {
    && InOrder(out)
    && multiset(out) == Part(c, g, Named(done))
    && (forall x :: x in out ==> FamilyOf(x) in done)
  }

  lemma NothingWritten(c: map<string, int>, g: map<string, int>)
    ensures Written(c, g, [], [])
  {
    assert HelpLines({}) == {} && TypeLines(c, {}) == {} && SampleLines(c, {}) == {} && SampleLines(g, {}) == {};
    assert Named([]) == {};
  }

  lemma AscendNext(names: seq<string>, i: nat)
    requires i < |names| && Ascend(names)
    ensures names[..i + 1] == names[..i] + [names[i]] && names[i] !in names[..i]
    ensures Ascend(names[..i]) && forall x :: x in names[..i] ==> Less(x, names[i])
  {
    LessTotal(names[i], names[i]);
  }

  lemma WrittenNext(c: map<string, int>, g: map<string, int>, done: seq<string>, f: string, out: seq<Line>,
                    kind: M.Kind, samples: seq<Line>)
    requires Written(c, g, done, out) && Fits(c, g, f, kind, samples)
    requires f !in done && forall x :: x in done ==> Less(x, f)
    ensures Written(c, g, done + [f], out + Block(f, kind, samples))
  {
    var block := Block(f, kind, samples);
    SamplesKnow(c, g, samples, f);
    BlockFacts(f, kind, samples);
    Appended(c, g, done, f, out, block);
    LaterFamily(done, f, out, block);
  }

  lemma SamplesKnow(c: map<string, int>, g: map<string, int>, samples: seq<Line>, f: string)
    requires multiset(samples) == InFamily(c, f) + InFamily(g, f)
    ensures forall x :: x in samples ==> x.Sample? && Family(x.name) == f
  {
    forall x | x in samples ensures x.Sample? && Family(x.name) == f {
      assert x in multiset(samples);
      assert x in SampleLines(c, {f}) || x in SampleLines(g, {f});
    }
  }

  lemma LaterFamily(done: seq<string>, f: string, out: seq<Line>, block: seq<Line>)
    requires InOrder(out) && InOrder(block) && OfFamily(block, f)
    requires (forall x :: x in out ==> FamilyOf(x) in done) && forall x :: x in done ==> Less(x, f)
    ensures InOrder(out + block)
  {
    forall x, y | x in out && y in block ensures !Before(y, x) {
      LessTotal(FamilyOf(x), f);
    }
    Joined(out, block);
  }

  lemma Appended(c: map<string, int>, g: map<string, int>, done: seq<string>, f: string, out: seq<Line>,
                 block: seq<Line>)
    requires f !in done && multiset(out) == Part(c, g, Named(done))
    requires multiset(block) == multiset(HelpLines({f})) + multiset{Type(f, KindOf(c, f))}
              + (InFamily(c, f) + InFamily(g, f))
    ensures multiset(out + block) == Part(c, g, Named(done + [f]))
  {
    assert Named(done + [f]) == Named(done) + {f};
    PartSplit(c, g, Named(done), f);
    PartOne(c, g, f);
    assert multiset(block) == Part(c, g, {f});
  }

  // ---- deterministic or not --------------------------------------------------------------

  lemma IndexOf(lines: seq<Line>, x: Line) returns (i: nat)
    requires x in multiset(lines)
    ensures i < |lines| && lines[i] == x
  {
    assert x in lines;
    i :| 0 <= i < |lines| && lines[i] == x;
  }

  /** Exchanging two samples of one name keeps a list sorted. */
  lemma SwapTies(sorted: seq<Line>, items: seq<Line>, i: nat, j: nat)
    requires i < |sorted| && j < |sorted| && i != j && IsSorted(sorted, items) && NameOf(sorted[i]) == NameOf(sorted[j])
    ensures IsSorted(sorted[i := sorted[j]][j := sorted[i]], items)
  {
    var s := sorted[i := sorted[j]][j := sorted[i]];
    forall a, b | 0 <= a < b < |s| ensures !Less(NameOf(s[b]), NameOf(s[a])) {
      assert NameOf(s[a]) == NameOf(sorted[a]) && NameOf(s[b]) == NameOf(sorted[b]);
    }
  }

  lemma SameTail(a: seq<Line>, b: seq<Line>, tail: seq<Line>)
    requires |a| == |b| && a != b
    ensures a + tail != b + tail
  {
    assert (a + tail)[..|a|] == a && (b + tail)[..|b|] == b;
  }

  lemma SamePrefix(head: seq<Line>, a: seq<Line>, b: seq<Line>)
    requires a != b
    ensures head + a != head + b
  {
    assert (head + a)[|head|..] == a && (head + b)[|head|..] == b;
  }

  /** Another order of one family's samples makes another text. */
  lemma {:induction false} BlocksDiffer(names: seq<string>, fams: map<string, Group>, sorted: map<string, seq<Line>>,
                                        f: string, samples: seq<Line>)
    requires InNames(names, fams, sorted) && Ascend(names) && f in names
    requires |samples| == |sorted[f]| && samples != sorted[f]
    ensures var other := Blocks(names, fams, sorted[f := samples]);
            other != Blocks(names, fams, sorted) && |other| == |Blocks(names, fams, sorted)|
    decreases |names|
  {
    var n := |names| - 1;
    var last, init := names[n], names[..n];
    AscendNext(names, n);
    assert names[..n + 1] == names;
    if last == f {
      OtherBlocks(init, fams, sorted, f, samples);
      SamePrefix(Header(f, fams[f].kind), samples, sorted[f]);
      SamePrefix(Blocks(init, fams, sorted), Block(f, fams[f].kind, samples), Block(f, fams[f].kind, sorted[f]));
    } else {
      BlocksDiffer(init, fams, sorted, f, samples);
      SameTail(Blocks(init, fams, sorted[f := samples]), Blocks(init, fams, sorted),
               Block(last, fams[last].kind, sorted[last]));
    }
  }

  lemma BothShown(c: map<string, int>, g: map<string, int>, fams: map<string, Group>, sorted: seq<Line>, n: string)
    requires Grouped(c, g, fams) && n in c && n in g && Family(n) in fams && IsSorted(sorted, fams[Family(n)].samples)
    ensures Sample(n, c[n]) in multiset(sorted) && Sample(n, g[n]) in multiset(sorted)
  {
    assert Sample(n, c[n]) in InFamily(c, Family(n)) && Sample(n, g[n]) in InFamily(g, Family(n));
  }

  lemma Exchanged(sorted: seq<Line>, items: seq<Line>, n: string, v: int, w: int) returns (samples: seq<Line>)
    requires IsSorted(sorted, items) && v != w && Sample(n, v) in multiset(sorted) && Sample(n, w) in multiset(sorted)
    ensures IsSorted(samples, items) && samples != sorted && |samples| == |sorted|
  {
    var i := IndexOf(sorted, Sample(n, v));
    var j := IndexOf(sorted, Sample(n, w));
    SwapTies(sorted, items, i, j);
    samples := sorted[i := sorted[j]][j := sorted[i]];
    assert samples[i] != sorted[i];
  }

  lemma SortsOtherwise(names: seq<string>, fams: map<string, Group>, sorted: map<string, seq<Line>>,
                       f: string, samples: seq<Line>)
    requires Sorts(names, fams, sorted) && f in names && IsSorted(samples, fams[f].samples)
    ensures Sorts(names, fams, sorted[f := samples])
  {
  }

  lemma SortedOtherwise(c: map<string, int>, g: map<string, int>, fams: map<string, Group>, names: seq<string>,
                        sorted: map<string, seq<Line>>, out: seq<Line>, f: string, samples: seq<Line>)
    requires Rendering(c, g, fams, names, sorted, out) && f in names && IsSorted(samples, fams[f].samples)
    ensures InNames(names, fams, sorted[f := samples])
    ensures Renders(c, g, Blocks(names, fams, sorted[f := samples]))
  {
    SortsOtherwise(names, fams, sorted, f, samples);
    Witnessed(c, g, fams, names, sorted[f := samples], Blocks(names, fams, sorted[f := samples]));
  }

  /** A name with two values can be shown in either order. */
  lemma SharedNameShowsTwice(c: map<string, int>, g: map<string, int>, out: seq<Line>, n: string)
    returns (other: seq<Line>)
    requires Renders(c, g, out) && n in c && n in g && c[n] != g[n]
    ensures Renders(c, g, other) && other != out
  {
    var fams: map<string, Group>, names: seq<string>, sorted: map<string, seq<Line>> :|
      Rendering(c, g, fams, names, sorted, out);
    var f := Family(n);
    assert f in Families(c, g) && f in Named(names);
    BothShown(c, g, fams, sorted[f], n);
    var samples := Exchanged(sorted[f], fams[f].samples, n, c[n], g[n]);
    SortedOtherwise(c, g, fams, names, sorted, out, f, samples);
    BlocksDiffer(names, fams, sorted, f, samples);
    other := Blocks(names, fams, sorted[f := samples]);
  }

  /** A scrape can only come out as it did, whatever the maps' iteration orders and the sort's way
      with ties, exactly when no name is both a counter and a gauge with another value. */
  lemma CanonicalExactly(c: map<string, int>, g: map<string, int>, out: seq<Line>)
    requires Renders(c, g, out)
    ensures (forall other :: Renders(c, g, other) ==> other == out) <==> Agree(c, g)
  {
    if Agree(c, g) {
      forall other | Renders(c, g, other) ensures other == out { SameText(c, g, out, other); }
    } else {
      var n :| n in c && n in g && c[n] != g[n];
      var other := SharedNameShowsTwice(c, g, out, n);
    }
  }

  lemma SameText(c: map<string, int>, g: map<string, int>, a: seq<Line>, b: seq<Line>)
    requires Agree(c, g) && Renders(c, g, a) && Renders(c, g, b)
    ensures a == b
  {
    var fams: map<string, Group>, names: seq<string>, sorted: map<string, seq<Line>> :|
      Rendering(c, g, fams, names, sorted, a);
    RenderingIsExposition(c, g, fams, names, sorted, a);
    var fams': map<string, Group>, names': seq<string>, sorted': map<string, seq<Line>> :|
      Rendering(c, g, fams', names', sorted', b);
    RenderingIsExposition(c, g, fams', names', sorted', b);
    Canonical(a, b, c, g);
  }

  // ---- what a scrape shows -------------------------------------------------------------------

  /** With no name shared, each series, each type line and each help line is shown exactly once. */
  lemma EachLineOnce(out: seq<Line>, c: map<string, int>, g: map<string, int>, line: Line)
    requires IsExposition(out, c, g) && c.Keys !! g.Keys
    ensures multiset(out)[line] == if line in Lines(c, g) then 1 else 0
  {
    var fs := Families(c, g);
    assert line in SampleLines(c, fs) ==> line !in SampleLines(g, fs);
  }

  lemma OneSample(out: seq<Line>, c: map<string, int>, g: map<string, int>, n: string)
    requires IsExposition(out, c, g) && c.Keys !! g.Keys && (n in c || n in g)
    ensures multiset(out)[Sample(n, if n in c then c[n] else g[n])] == 1
    ensures forall v :: Sample(n, v) in out <==> v == if n in c then c[n] else g[n]
  {
    var value := if n in c then c[n] else g[n];
    LineIn(c, g, Sample(n, value));
    EachLineOnce(out, c, g, Sample(n, value));
    forall v ensures Sample(n, v) in out <==> v == value {
      assert Sample(n, v) in out <==> Sample(n, v) in multiset(out);
      LineIn(c, g, Sample(n, v));
    }
  }

  /** In a family, nothing comes before help but help, and no sample before the type. */
  lemma HelpTypeSamples(out: seq<Line>, c: map<string, int>, g: map<string, int>, i: nat, j: nat)
    requires IsExposition(out, c, g) && i < j < |out| && FamilyOf(out[i]) == FamilyOf(out[j])
    ensures out[j].Help? ==> out[i].Help?
    ensures out[j].Type? ==> !out[i].Sample?
  {
    assert !Before(out[j], out[i]);
  }

  /** The lines of a family stand together. */
  lemma FamilyIsOneBlock(out: seq<Line>, c: map<string, int>, g: map<string, int>, i: nat, j: nat, k: nat)
    requires IsExposition(out, c, g) && i < j < k < |out| && FamilyOf(out[i]) == FamilyOf(out[k])
    ensures FamilyOf(out[j]) == FamilyOf(out[i])
  {
    assert !Before(out[j], out[i]) && !Before(out[k], out[j]);
    LessTotal(FamilyOf(out[i]), FamilyOf(out[j]));
  }

  /** Families ascend; within one, help comes before type, type before samples, and names ascend. */
  lemma StrictlyAscending(out: seq<Line>, c: map<string, int>, g: map<string, int>, i: nat, j: nat)
    requires IsExposition(out, c, g) && c.Keys !! g.Keys && i < j < |out|
    ensures Before(out[i], out[j])
  {
    assert !Before(out[j], out[i]);
    assert out[i] in multiset(out) && out[j] in multiset(out);
    if !Before(out[i], out[j]) {
      TiesAreEqual(c, g, out[i], out[j]);
      CountTwice(out, i, j);
      EachLineOnce(out, c, g, out[i]);
    }
  }

  /** Every gauge is announced as a gauge exactly when no family has both kinds. */
  lemma KindsRightExactly(c: map<string, int>, g: map<string, int>)
    ensures (forall n :: n in g ==> KindOf(c, Family(n)) == M.Gauge) <==> FamiliesOf(c) !! FamiliesOf(g)
  {
    if !(FamiliesOf(c) !! FamiliesOf(g)) {
      var f :| f in FamiliesOf(c) && f in FamiliesOf(g);
      var n :| n in g && Family(n) == f;
      assert KindOf(c, Family(n)) == M.Counter;
    }
    forall n | n in g && FamiliesOf(c) !! FamiliesOf(g) ensures KindOf(c, Family(n)) == M.Gauge {
      assert Family(n) in FamiliesOf(g);
      assert forall k :: k in c ==> Family(k) in FamiliesOf(c);
    }
  }

  // ---- the series the server uses ------------------------------------------------------------

  lemma {:induction false} FamilyStops(n: string, name: string)
    requires '{' !in name && (n == name || name + "{" <= n)
    ensures Family(n) == name
  {
    if name != [] {
      assert name == [name[0]] + name[1..];
      FamilyStops(n[1..], name[1..]);
    }
  }

  /** The family of a labelled series is the name before its label. */
  lemma TypedFamily(name: string, typ: string)
    requires '{' !in name
    ensures Family(M.Typed(name, typ)) == name
  {
    var n := M.Typed(name, typ);
    assert |n| > |name| && n[..|name|] == name && n[|name|] == '{';
    assert name + "{" == n[..|name| + 1];
    FamilyStops(n, name);
  }

  predicate ServerCounter(n: string) {
    n == M.BYTES_SERVED || n == M.BYTES_RECEIVED || M.TESTS_STARTED + "{" <= n || M.TESTS_COMPLETED + "{" <= n
  }

  predicate CounterFamily(f: string) {
    f == M.BYTES_SERVED || f == M.BYTES_RECEIVED || f == M.TESTS_STARTED || f == M.TESTS_COMPLETED
  }

  lemma ServerFamily(n: string)
    requires ServerCounter(n)
    ensures CounterFamily(Family(n))
  {
    if n == M.BYTES_SERVED {
      FamilyStops(n, M.BYTES_SERVED);
    } else if n == M.BYTES_RECEIVED {
      FamilyStops(n, M.BYTES_RECEIVED);
    } else if M.TESTS_STARTED + "{" <= n {
      FamilyStops(n, M.TESTS_STARTED);
    } else {
      FamilyStops(n, M.TESTS_COMPLETED);
    }
  }

  lemma GaugeApart(n: string)
    requires n == M.ACTIVE_STREAMS
    ensures '{' !in n && !CounterFamily(n)
  {
    assert n[12] == 'a' && M.BYTES_SERVED[12] == 'b' && M.BYTES_RECEIVED[12] == 'b'
           && M.TESTS_STARTED[12] == 't' && M.TESTS_COMPLETED[12] == 't';
  }

  lemma FamiliesApart(c: map<string, int>, g: map<string, int>)
    requires (forall n :: n in c ==> ServerCounter(n)) && (forall n :: n in g ==> '{' !in n && !CounterFamily(n))
    ensures FamiliesOf(c) !! FamiliesOf(g) && Agree(c, g)
  {
    forall n | n in c ensures CounterFamily(Family(n)) { ServerFamily(n); }
    forall n | n in g ensures Family(n) == n { FamilyStops(n, n); }
  }

  /** For the series the server counts, with any test types and values, the scrape is one text
      whatever the iteration order, and the gauge is announced as a gauge. */
  lemma ServerScrapeCanonical(c: map<string, int>, g: map<string, int>, a: seq<Line>, b: seq<Line>)
    requires (forall n :: n in c ==> ServerCounter(n)) && (forall n :: n in g ==> n == M.ACTIVE_STREAMS)
    requires Renders(c, g, a) && Renders(c, g, b)
    ensures a == b && forall n :: n in g ==> KindOf(c, Family(n)) == M.Gauge
  {
    forall n | n in g ensures '{' !in n && !CounterFamily(n) { GaugeApart(n); }
    FamiliesApart(c, g);
    SameText(c, g, a, b);
    KindsRightExactly(c, g);
  }
}
