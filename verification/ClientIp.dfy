/**
 The address a request is accounted to. Forwarded headers count only when the peer is a trusted
 proxy. Text is already parsed here: a header is a list of entries, each an address or nothing.
 */
module ClientIp {
  import opened Options

  datatype Result<T> = Ok(value: T) | Err

  // ---- addresses ---------------------------------------------------------------

  function Pow2(n: nat): (p: nat)
    ensures p > 0
  {
    if n == 0 then 1 else 2 * Pow2(n - 1)
  }

  /** The largest multiple of `d` up to `n`. */
  function RoundDown(n: nat, d: nat): (m: nat)
    requires d > 0
    ensures m / d == n / d && m % d == 0
  {
    Quotient(n / d, d, 0);
    Nonnegative(n / d, d);
    n / d * d
  }

  lemma Nonnegative(q: nat, d: nat)
    ensures q * d >= 0
  {
  }

  lemma Quotient(q: int, d: nat, rest: nat)
    requires rest < d
    ensures (q * d + rest) / d == q && (q * d + rest) % d == rest
  {
    var n := q * d + rest;
    assert n == n / d * d + n % d;
    assert (n / d - q) * d == rest - n % d;
    Multiple(n / d - q, d);
  }

  lemma Multiple(k: int, d: nat)
    ensures k >= 1 ==> k * d >= d
    ensures k <= -1 ==> k * d + d <= 0
  {
  }

  const MAPPED := 0xffff

  /** An IPv4 or IPv6 address, as the number its bits spell. */
  datatype Addr = V4(bits: nat) | V6(bits: nat) {
    function Width(): nat { if V4? then 32 else 128 }

    /** The IPv4 address inside an IPv4-mapped IPv6 address. */
    function Unmap(): Addr {
      if V6? && bits / Pow2(32) == MAPPED then V4(bits % Pow2(32)) else this
    }
  }

  datatype Prefix = Prefix(addr: Addr, len: nat) {
    ghost predicate Valid() { len <= addr.Width() }

    /** The size of the block of addresses that share the prefix. */
    function Block(): nat
      requires len <= addr.Width()
    {
      Pow2(addr.Width() - len)
    }

    predicate Contains(a: Addr)
      requires Valid()
    {
      a.V4? == addr.V4? && a.bits / Block() == addr.bits / Block()
    }

    function Masked(): (p: Prefix)
      requires Valid()
    {
      var kept := RoundDown(addr.bits, Block());
      Prefix(if addr.V4? then V4(kept) else V6(kept), len)
    }
  }

  /** Clearing the host bits of a prefix does not change which addresses it covers. */
  lemma MaskedCoversSame(p: Prefix, a: Addr)
    requires p.Valid()
    ensures p.Masked().Valid() && (p.Masked().Contains(a) <==> p.Contains(a))
  {
  }

  // ---- networks, bit by bit --------------------------------------------------------

  /** The number after halving `i` times. */
  function Halved(n: nat, i: nat): nat {
    if i == 0 then n else Halved(n / 2, i - 1)
  }

  /** An address has no bits beyond its width. */
  predicate Fits(a: Addr) {
    Halved(a.bits, a.Width()) == 0
  }

  /** The k-th bit of an address, from the left. */
  predicate TopBit(a: Addr, k: nat)
    requires k < a.Width()
  {
    Halved(a.bits, a.Width() - 1 - k) % 2 == 1
  }

  lemma {:induction false} HalvedOnce(n: nat, i: nat)
    ensures Halved(n, i + 1) == Halved(n, i) / 2
  {
    if i > 0 { HalvedOnce(n / 2, i - 1); }
  }

  lemma HalfOfQuotient(n: nat, d: nat)
    requires d > 0
    ensures n / 2 / d == n / (2 * d)
  {
    var q := n / 2 / d;
    assert n / 2 == d * q + n / 2 % d;
    assert 2 * d * q <= n < 2 * d * q + 2 * d;
    Quotient(q, 2 * d, n - 2 * d * q);
    assert q * (2 * d) + (n - 2 * d * q) == n;
  }

  lemma {:induction false} HalvedDivides(n: nat, i: nat)
    ensures Halved(n, i) == n / Pow2(i)
  {
    if i > 0 {
      HalvedDivides(n / 2, i - 1);
      HalfOfQuotient(n, Pow2(i - 1));
    }
  }

  /** Two numbers agree after halving exactly when all their bits from there on agree. */
  lemma {:induction false} AgreeBitwise(a: nat, b: nat, i: nat, w: nat)
    requires i <= w && Halved(a, w) == Halved(b, w)
    ensures Halved(a, i) == Halved(b, i) <==> SameBits(a, b, i, w)
    decreases w - i
  {
    if i < w {
      AgreeBitwise(a, b, i + 1, w);
      HalvedOnce(a, i);
      HalvedOnce(b, i);
      assert SameBits(a, b, i, w) <==> SameBit(a, b, i) && SameBits(a, b, i + 1, w);
    }
  }

  ghost predicate SameTop(a: Addr, b: Addr, len: nat)
    requires len <= a.Width() == b.Width()
  {
    forall k :: 0 <= k < len ==> TopBit(a, k) == TopBit(b, k)
  }

  ghost predicate SameBit(a: nat, b: nat, k: nat) {
    Halved(a, k) % 2 == Halved(b, k) % 2
  }

  ghost predicate SameBits(a: nat, b: nat, from: nat, to: nat) {
    forall k :: from <= k < to ==> SameBit(a, b, k)
  }

  lemma SameTopBits(a: Addr, b: Addr, len: nat)
    requires len <= a.Width() == b.Width()
    ensures SameTop(a, b, len) <==> SameBits(a.bits, b.bits, a.Width() - len, a.Width())
  {
    var w := a.Width();
    if SameTop(a, b, len) {
      forall k | w - len <= k < w ensures SameBit(a.bits, b.bits, k) {
        assert TopBit(a, w - 1 - k) == TopBit(b, w - 1 - k);
      }
    }
    if SameBits(a.bits, b.bits, w - len, w) {
      forall k | 0 <= k < len ensures TopBit(a, k) == TopBit(b, k) {
        assert SameBit(a.bits, b.bits, w - 1 - k);
      }
    }
  }

  /** A network covers the addresses of its family that begin with its bits. */
  lemma ContainsBitwise(p: Prefix, a: Addr)
    requires p.Valid() && Fits(p.addr) && Fits(a)
    ensures p.Contains(a) <==> a.V4? == p.addr.V4? && SameTop(a, p.addr, p.len)
  {
    if a.V4? == p.addr.V4? {
      var w := a.Width();
      HalvedDivides(a.bits, w - p.len);
      HalvedDivides(p.addr.bits, w - p.len);
      AgreeBitwise(a.bits, p.addr.bits, w - p.len, w);
      SameTopBits(a, p.addr, p.len);
    }
  }

  /** The network of length zero is the whole family; the longest ones hold one address each. */
  lemma ExtremeLengths(p: Prefix, a: Addr)
    requires p.Valid() && Fits(p.addr) && Fits(a)
    ensures p.len == 0 ==> (p.Contains(a) <==> a.V4? == p.addr.V4?)
    ensures p.len == p.addr.Width() ==> (p.Contains(a) <==> a == p.addr)
  {
    ContainsBitwise(p, a);
    if p.len == p.addr.Width() && a.V4? == p.addr.V4? {
      AgreeBitwise(a.bits, p.addr.bits, 0, a.Width());
      SameTopBits(a, p.addr, p.len);
    }
  }

  lemma SameTopNext(a: Addr, b: Addr, len: nat)
    requires len < a.Width() == b.Width()
    ensures SameTop(a, b, len + 1) <==> SameTop(a, b, len) && TopBit(a, len) == TopBit(b, len)
  {
  }

  /** A network is the disjoint union of its two halves. */
  lemma TwoHalves(p: Prefix, left: Prefix, right: Prefix, a: Addr)
    requires p.Valid() && p.len < p.addr.Width() && left.len == right.len == p.len + 1
    requires Fits(p.addr) && Fits(left.addr) && Fits(right.addr) && Fits(a)
    requires p.Contains(left.addr) && p.Contains(right.addr) && TopBit(left.addr, p.len) != TopBit(right.addr, p.len)
    ensures left.Valid() && right.Valid()
    ensures p.Contains(a) <==> left.Contains(a) || right.Contains(a)
    ensures !(left.Contains(a) && right.Contains(a))
  {
    ContainsBitwise(p, a);
    ContainsBitwise(p, left.addr);
    ContainsBitwise(p, right.addr);
    ContainsBitwise(left, a);
    ContainsBitwise(right, a);
    if a.V4? == p.addr.V4? {
      SameTopNext(a, left.addr, p.len);
      SameTopNext(a, right.addr, p.len);
      assert SameTop(a, p.addr, p.len) <==> SameTop(a, left.addr, p.len);
      assert SameTop(a, p.addr, p.len) <==> SameTop(a, right.addr, p.len);
    }
  }

  /** Masking clears all bits beyond the length and keeps the others. */
  lemma MaskedBitwise(p: Prefix, k: nat)
    requires p.Valid() && Fits(p.addr) && k < p.addr.Width()
    ensures p.Masked().addr.V4? == p.addr.V4? && p.Masked().len == p.len
    ensures TopBit(p.Masked().addr, k) == (k < p.len && TopBit(p.addr, k))
  {
    var w, m := p.addr.Width(), p.Masked();
    var low, b, q := w - p.len, m.addr.bits, p.addr.bits / Pow2(w - p.len);
    if k < p.len {
      HalvedSame(b, p.addr.bits, low, w - 1 - k);
    } else {
      HalvedOfMultiple(q, low, w - 1 - k);
    }
  }

  lemma {:induction false} HalvedSame(a: nat, b: nat, i: nat, k: nat)
    requires i <= k && a / Pow2(i) == b / Pow2(i)
    ensures Halved(a, k) == Halved(b, k)
  {
    if i == k {
      HalvedDivides(a, i);
      HalvedDivides(b, i);
    } else {
      HalvedSame(a, b, i, k - 1);
      HalvedOnce(a, k - 1);
      HalvedOnce(b, k - 1);
    }
  }

  lemma {:induction false} HalvedOfMultiple(q: nat, i: nat, k: nat)
    requires k < i && q * Pow2(i) >= 0
    ensures Halved(q * Pow2(i), k) % 2 == 0
  {
    var n := q * Pow2(i);
    assert n == 2 * (q * Pow2(i - 1));
    if k > 0 {
      Nonnegative(q, Pow2(i - 1));
      HalvedOfMultiple(q, i - 1, k - 1);
    }
  }

  lemma FourMore(i: nat, v: nat)
    requires Pow2(i) == v
    ensures Pow2(i + 4) == 16 * v
  {
    assert Pow2(i + 1) == 2 * v && Pow2(i + 2) == 4 * v && Pow2(i + 3) == 8 * v;
  }

  lemma PowersOfTwo()
    ensures Pow2(32) == 0x1_0000_0000
  {
    FourMore(0, 1);
    FourMore(4, 0x10);
    FourMore(8, 0x100);
    FourMore(12, 0x1000);
    FourMore(16, 0x1_0000);
    FourMore(20, 0x10_0000);
    FourMore(24, 0x100_0000);
    FourMore(28, 0x1000_0000);
  }

  /** Exactly the addresses ::ffff:a.b.c.d become IPv4 addresses; all others stay as they are. */
  lemma UnmapExactly(a: Addr, b: nat)
    requires b < 0x1_0000_0000
    ensures a.V6? ==> (a.Unmap() == V4(b) <==> a.bits == 0xffff_0000_0000 + b)
    ensures a.Unmap() != a ==> a.V6? && exists c: nat :: c < 0x1_0000_0000 && a.Unmap() == V4(c)
  {
    PowersOfTwo();
    Quotient(MAPPED, Pow2(32), b);
    assert MAPPED * Pow2(32) == 0xffff_0000_0000;
    if a.Unmap() != a { assert a.Unmap() == V4(a.bits % Pow2(32)); }
  }

  // ---- trust ---------------------------------------------------------------------

  ghost predicate Networks(trusted: seq<Prefix>) {
    forall p :: p in trusted ==> p.Valid()
  }

  ghost predicate Covered(trusted: seq<Prefix>, a: Addr)
    requires Networks(trusted)
  {
    exists p :: p in trusted && p.Contains(a.Unmap())
  }

  /** An IPv4 address and its IPv4-mapped IPv6 form are trusted alike. */
  lemma MappedTrustedAlike(trusted: seq<Prefix>, b: nat)
    requires Networks(trusted) && b < Pow2(32)
    ensures Covered(trusted, V6(MAPPED * Pow2(32) + b)) <==> Covered(trusted, V4(b))
  {
    Quotient(MAPPED, Pow2(32), b);
    assert V6(MAPPED * Pow2(32) + b).Unmap() == V4(b).Unmap();
  }

  /** Parses and masks the configured networks; any entry that does not parse is an error. */
  method NewResolver(cidrs: seq<Option<Prefix>>) returns (r: Result<seq<Prefix>>)
    requires forall c :: c in cidrs && c.Some? ==> c.value.Valid()
    ensures r.Err? <==> None in cidrs
    ensures r.Ok? ==> Networks(r.value)
    ensures r.Ok? ==> forall a :: Covered(r.value, a) <==>
              exists c :: c in cidrs && c.Some? && c.value.Contains(a.Unmap())
  {
    var prefixes := [];
    for i := 0 to |cidrs|
      invariant |prefixes| == i && None !in cidrs[..i]
      invariant forall k :: 0 <= k < i ==>
                  cidrs[k].Some? && cidrs[k].value.Valid() && prefixes[k] == cidrs[k].value.Masked()
    {
      if cidrs[i].None? {
        return Err;
      }
      prefixes := prefixes + [cidrs[i].value.Masked()];
    }
    MaskedAll(cidrs, prefixes);
    return Ok(prefixes);
  }

  lemma MaskedAll(cidrs: seq<Option<Prefix>>, prefixes: seq<Prefix>)
    requires |prefixes| == |cidrs|
    requires forall k :: 0 <= k < |cidrs| ==>
               cidrs[k].Some? && cidrs[k].value.Valid() && prefixes[k] == cidrs[k].value.Masked()
    ensures Networks(prefixes)
    ensures forall a :: Covered(prefixes, a) <==> exists c :: c in cidrs && c.Some? && c.value.Contains(a.Unmap())
  {
    forall k, a: Addr | 0 <= k < |cidrs|
      ensures prefixes[k].Valid() && (prefixes[k].Contains(a) <==> cidrs[k].value.Contains(a)) {
      MaskedCoversSame(cidrs[k].value, a);
    }
    forall a ensures Covered(prefixes, a) <==> exists c :: c in cidrs && c.Some? && c.value.Contains(a.Unmap()) {
      if Covered(prefixes, a) {
        var p :| p in prefixes && p.Contains(a.Unmap());
        var k :| 0 <= k < |prefixes| && prefixes[k] == p;
        assert cidrs[k] in cidrs && cidrs[k].value.Contains(a.Unmap());
      }
      if c :| c in cidrs && c.Some? && c.value.Contains(a.Unmap()) {
        var k :| 0 <= k < |cidrs| && cidrs[k] == c;
        assert prefixes[k] in prefixes && prefixes[k].Contains(a.Unmap());
      }
    }
  }

  method Trusted(trusted: seq<Prefix>, a: Addr) returns (yes: bool)
    requires Networks(trusted)
    ensures yes <==> Covered(trusted, a)
  {
    var plain := a.Unmap();
    for i := 0 to |trusted|
      invariant forall k :: 0 <= k < i ==> !trusted[k].Contains(plain)
    {
      if trusted[i].Contains(plain) {
        return true;
      }
    }
    return false;
  }

  // ---- the answer ------------------------------------------------------------------

  /** An entry of a header or the peer: valid entries are unmapped. */
  function Parsed(entry: Option<Addr>): Option<Addr> {
    if entry.None? then None else Some(entry.value.Unmap())
  }

  /** A valid address no trusted proxy vouches for. */
  ghost predicate Outside(trusted: seq<Prefix>, entry: Option<Addr>)
    requires Networks(trusted)
  {
    Parsed(entry).Some? && !Covered(trusted, Parsed(entry).value)
  }

  ghost predicate NoneOutside(trusted: seq<Prefix>, hops: seq<Option<Addr>>)
    requires Networks(trusted)
  {
    forall k :: 0 <= k < |hops| ==> !Outside(trusted, hops[k])
  }

  /** The rightmost hop outside the trusted networks. */
  ghost predicate IsClosest(trusted: seq<Prefix>, hops: seq<Option<Addr>>, i: nat)
    requires Networks(trusted)
  {
    i < |hops| && Outside(trusted, hops[i]) && NoneOutside(trusted, hops[i + 1..])
  }

  /** The leftmost hop that is an address at all. */
  ghost predicate IsOrigin(hops: seq<Option<Addr>>, i: nat) {
    i < |hops| && hops[i].Some? && forall k :: 0 <= k < i ==> hops[k].None?
  }

  /** What the address of a request has to be. */
  ghost predicate IsClient(trusted: seq<Prefix>, peer: Option<Addr>, hops: seq<Option<Addr>>, realIP: Option<Addr>,
                           r: Option<Addr>)
    requires Networks(trusted)
  {
    if peer.None? || Outside(trusted, peer) then
      r == Parsed(peer)
    else if !NoneOutside(trusted, hops) then
      exists i: nat :: IsClosest(trusted, hops, i) && r == Parsed(hops[i])
    else if exists i: nat :: IsOrigin(hops, i) then
      exists i: nat :: IsOrigin(hops, i) && r == Parsed(hops[i])
    else
      r == Parsed(if realIP.Some? then realIP else peer)
  }

  /** The address of a request, by a scan from the right and then one from the left. */
  method FromRequest(trusted: seq<Prefix>, peer: Option<Addr>, hops: seq<Option<Addr>>, realIP: Option<Addr>)
    returns (r: Option<Addr>)
    requires Networks(trusted)
    ensures IsClient(trusted, peer, hops, realIP, r)
  {
    var direct := Parsed(peer);
    if direct.None? {
      return direct;
    }
    var vouched := Trusted(trusted, direct.value);
    if !vouched {
      return direct;
    }
    var i := |hops| - 1;
    while i >= 0
      invariant -1 <= i < |hops| && NoneOutside(trusted, hops[i + 1..])
    {
      var a := Parsed(hops[i]);
      if a.Some? {
        var known := Trusted(trusted, a.value);
        if !known {
          assert IsClosest(trusted, hops, i);
          return a;
        }
      }
      assert hops[i..] == [hops[i]] + hops[i + 1..];
      i := i - 1;
    }
    assert hops[0..] == hops;
    for j := 0 to |hops|
      invariant forall k :: 0 <= k < j ==> hops[k].None?
    {
      var a := Parsed(hops[j]);
      if a.Some? {
        assert IsOrigin(hops, j);
        return a;
      }
    }
    if realIP.Some? {
      return Parsed(realIP);
    }
    return direct;
  }

  // ---- what it guarantees ------------------------------------------------------------

  lemma OneClosest(trusted: seq<Prefix>, hops: seq<Option<Addr>>, i: nat, j: nat)
    requires Networks(trusted) && IsClosest(trusted, hops, i) && IsClosest(trusted, hops, j)
    ensures i == j
  {
  }

  /** There is one answer. */
  lemma OneClient(trusted: seq<Prefix>, peer: Option<Addr>, hops: seq<Option<Addr>>, realIP: Option<Addr>,
                  r: Option<Addr>, s: Option<Addr>)
    requires Networks(trusted) && IsClient(trusted, peer, hops, realIP, r) && IsClient(trusted, peer, hops, realIP, s)
    ensures r == s
  {
    if peer.Some? && !Outside(trusted, peer) {
      if !NoneOutside(trusted, hops) {
        var i: nat :| IsClosest(trusted, hops, i) && r == Parsed(hops[i]);
        var j: nat :| IsClosest(trusted, hops, j) && s == Parsed(hops[j]);
        OneClosest(trusted, hops, i, j);
      } else if exists i: nat :: IsOrigin(hops, i) {
        var i: nat :| IsOrigin(hops, i) && r == Parsed(hops[i]);
        var j: nat :| IsOrigin(hops, j) && s == Parsed(hops[j]);
        assert !(i < j) && !(j < i);
      }
    }
  }

  lemma PrependOutside(trusted: seq<Prefix>, left: seq<Option<Addr>>, hops: seq<Option<Addr>>, i: nat)
    requires Networks(trusted) && IsClosest(trusted, hops, i)
    ensures IsClosest(trusted, left + hops, |left| + i) && (left + hops)[|left| + i] == hops[i]
  {
    assert (left + hops)[|left| + i + 1..] == hops[i + 1..];
  }

  /** Hops to the left of an outside hop, which anyone further away may have written, change nothing. */
  lemma LeftHopsIgnored(trusted: seq<Prefix>, peer: Option<Addr>, left: seq<Option<Addr>>, hops: seq<Option<Addr>>,
                        realIP: Option<Addr>, r: Option<Addr>)
    requires Networks(trusted) && !NoneOutside(trusted, hops) && IsClient(trusted, peer, hops, realIP, r)
    ensures IsClient(trusted, peer, left + hops, realIP, r)
  {
    if peer.Some? && !Outside(trusted, peer) {
      var i: nat :| IsClosest(trusted, hops, i) && r == Parsed(hops[i]);
      PrependOutside(trusted, left, hops, i);
      assert !NoneOutside(trusted, left + hops);
    }
  }

  /** Without an outside hop, a hop prepended to the list becomes the answer. */
  lemma LeftHopTaken(trusted: seq<Prefix>, peer: Option<Addr>, x: Addr, hops: seq<Option<Addr>>, realIP: Option<Addr>)
    requires Networks(trusted) && peer.Some? && !Outside(trusted, peer) && NoneOutside(trusted, hops)
    ensures IsClient(trusted, peer, [Some(x)] + hops, realIP, Some(x.Unmap()))
  {
    var all := [Some(x)] + hops;
    assert all[1..] == hops;
    if Outside(trusted, Some(x)) {
      assert Outside(trusted, all[0]) && IsClosest(trusted, all, 0);
    } else {
      assert NoneOutside(trusted, all) && IsOrigin(all, 0);
    }
  }

  ghost predicate LeftIgnored(trusted: seq<Prefix>, peer: Option<Addr>, hops: seq<Option<Addr>>, realIP: Option<Addr>,
                              r: Option<Addr>)
    requires Networks(trusted)
  {
    forall left: seq<Option<Addr>> :: IsClient(trusted, peer, left + hops, realIP, r)
  }

  /** The answer does not depend on what stands further left in the list exactly when the peer is
      no trusted proxy or the list holds an outside hop. */
  lemma LeftIgnoredExactly(trusted: seq<Prefix>, peer: Option<Addr>, hops: seq<Option<Addr>>, realIP: Option<Addr>,
                           r: Option<Addr>)
    requires Networks(trusted) && IsClient(trusted, peer, hops, realIP, r)
    ensures LeftIgnored(trusted, peer, hops, realIP, r) <==>
            peer.None? || Outside(trusted, peer) || !NoneOutside(trusted, hops)
  {
    if peer.None? || Outside(trusted, peer) || !NoneOutside(trusted, hops) {
      forall left: seq<Option<Addr>> ensures IsClient(trusted, peer, left + hops, realIP, r) {
        if peer.Some? && !Outside(trusted, peer) { LeftHopsIgnored(trusted, peer, left, hops, realIP, r); }
      }
    } else {
      var x := if r == Some(V4(0)) then V4(1) else V4(0);
      LeftHopTaken(trusted, peer, x, hops, realIP);
      if IsClient(trusted, peer, [Some(x)] + hops, realIP, r) {
        OneClient(trusted, peer, [Some(x)] + hops, realIP, r, Some(x));
      }
    }
  }
}
