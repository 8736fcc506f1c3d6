/** Destination address selection after section 6 of RFC 6724. */
module Rfc6724 {
  // ----- Addresses -----

  type Bytes16 = s: seq<bv8> | |s| == 16 witness [0, 0, 0, 0, 0, 0, 0, 0, 0, 0, 0, 0, 0, 0, 0, 0]

  /** IPv4 addresses are numbers in host order. */
  datatype Address = V4(number: bv32) | V6(bytes: Bytes16) | OtherFamily

  predicate ZeroUpTo(b: Bytes16, n: nat)
    requires n <= 16
  {
    forall i :: 0 <= i < n ==> b[i] == 0
  }

  predicate IsLoopback(b: Bytes16) { ZeroUpTo(b, 15) && b[15] == 1 }

  predicate IsMulticast(b: Bytes16) { b[0] == 0xff }

  predicate IsLinkLocal(b: Bytes16) { b[0] == 0xfe && b[1] & 0xc0 == 0x80 }

  predicate IsSiteLocal(b: Bytes16) { b[0] == 0xfe && b[1] & 0xc0 == 0xc0 }

  predicate IsMapped(b: Bytes16) { ZeroUpTo(b, 10) && b[10] == 0xff && b[11] == 0xff }

  predicate IsCompatible(b: Bytes16) { ZeroUpTo(b, 12) && !(ZeroUpTo(b, 15) && b[15] <= 1) }

  predicate Is6to4(b: Bytes16) { b[0] == 0x20 && b[1] == 0x02 }

  predicate IsTeredo(b: Bytes16) { b[0] == 0x20 && b[1] == 0x01 && b[2] == 0 && b[3] == 0 }

  predicate IsUniqueLocal(b: Bytes16) { b[0] & 0xfe == 0xfc }

  predicate Is6bone(b: Bytes16) { b[0] == 0x3f && b[1] == 0xfe }

  const NODE_LOCAL := 0x01
  const LINK_LOCAL := 0x02
  const SITE_LOCAL := 0x05
  const GLOBAL := 0x0e

  function Scope(a: Address): int {
    match a
    case V6(b) =>
      if IsMulticast(b) then (b[1] & 0x0f) as int
      else if IsLoopback(b) || IsLinkLocal(b) then LINK_LOCAL
      else if IsSiteLocal(b) then SITE_LOCAL
      else GLOBAL
    case V4(n) =>
      if n & 0xff000000 == 0x7f000000 || n & 0xffff0000 == 0xa9fe0000 then LINK_LOCAL else GLOBAL
    case OtherFamily => NODE_LOCAL
  }

  function Label(a: Address): int {
    match a
    case V4(_) => 4
    case V6(b) =>
      if IsLoopback(b) then 0
      else if IsMapped(b) then 4
      else if Is6to4(b) then 2
      else if IsTeredo(b) then 5
      else if IsUniqueLocal(b) then 13
      else if IsCompatible(b) then 3
      else if IsSiteLocal(b) then 11
      else if Is6bone(b) then 12
      else 1
    case OtherFamily => 1
  }

  function Precedence(a: Address): int {
    match a
    case V4(_) => 35
    case V6(b) =>
      if IsLoopback(b) then 50
      else if IsMapped(b) then 35
      else if Is6to4(b) then 30
      else if IsTeredo(b) then 5
      else if IsUniqueLocal(b) then 3
      else if IsCompatible(b) || IsSiteLocal(b) || Is6bone(b) then 1
      else 40
    case OtherFamily => 1
  }

  // ----- Common prefix -----

  /** The bits of a byte, the highest first. */
  predicate Bit(x: bv8, j: nat) {
    match j
    case 0 => x & 0x80 != 0
    case 1 => x & 0x40 != 0
    case 2 => x & 0x20 != 0
    case 3 => x & 0x10 != 0
    case 4 => x & 0x08 != 0
    case 5 => x & 0x04 != 0
    case 6 => x & 0x02 != 0
    case _ => x & 0x01 != 0
  }

  predicate BitAt(b: Bytes16, i: nat)
    requires i < 128
  {
    Bit(b[i / 8], i % 8)
  }

  /** The first `n` bits agree, and the next one, if there is one, does not. */
  ghost predicate IsCommonPrefix(a: Bytes16, b: Bytes16, n: nat) {
    && n <= 128
    && (forall i :: 0 <= i < n ==> BitAt(a, i) == BitAt(b, i))
    && (n < 128 ==> BitAt(a, n) != BitAt(b, n))
  }

  lemma PrefixIsUnique(a: Bytes16, b: Bytes16, n: nat, m: nat)
    requires IsCommonPrefix(a, b, n) && IsCommonPrefix(a, b, m)
    ensures n == m
  {
  }

  function PrefixFrom(a: Bytes16, b: Bytes16, i: nat): nat
    requires i <= 128
    decreases 128 - i
  {
    if i == 128 || BitAt(a, i) != BitAt(b, i) then i else PrefixFrom(a, b, i + 1)
  }

  /** The number of leading bits that agree. */
  function PrefixLength(a: Bytes16, b: Bytes16): nat { PrefixFrom(a, b, 0) }

  lemma {:induction false} PrefixFromIs(a: Bytes16, b: Bytes16, i: nat)
    requires i <= 128 && forall k :: 0 <= k < i ==> BitAt(a, k) == BitAt(b, k)
    ensures IsCommonPrefix(a, b, PrefixFrom(a, b, i))
    decreases 128 - i
  {
    hide BitAt;
    if i < 128 && BitAt(a, i) == BitAt(b, i) { PrefixFromIs(a, b, i + 1); }
  }

  function Shifted(x: bv8, j: nat): bv8 {
    match j
    case 0 => x
    case 1 => x << 1
    case 2 => x << 2
    case 3 => x << 3
    case 4 => x << 4
    case 5 => x << 5
    case 6 => x << 6
    case _ => x << 7
  }

  lemma ShiftedTop(x: bv8, j: nat)
    requires j < 8
    ensures Shifted(x, j) & 0x80 != 0 <==> Bit(x, j)
    ensures j < 7 ==> Shifted(x, j) << 1 == Shifted(x, j + 1)
  {
    match j
    case 0 => case 1 => case 2 => case 3 => case 4 => case 5 => case 6 => case _ =>
  }

  lemma XorBit(x: bv8, y: bv8, j: nat)
    ensures Bit(x ^ y, j) <==> Bit(x, j) != Bit(y, j)
  {
    hide Bit;
    if j < 2 {
      XorTopBit(x, y, j);
    } else if j < 4 {
      XorHighBit(x, y, j);
    } else {
      XorLowBit(x, y, j);
    }
  }

  lemma XorTopBit(x: bv8, y: bv8, j: nat)
    requires j < 2
    ensures Bit(x ^ y, j) <==> Bit(x, j) != Bit(y, j)
  {
  }

  lemma XorHighBit(x: bv8, y: bv8, j: nat)
    requires 2 <= j < 4
    ensures Bit(x ^ y, j) <==> Bit(x, j) != Bit(y, j)
  {
  }

  lemma XorLowBit(x: bv8, y: bv8, j: nat)
    requires j >= 4
    ensures Bit(x ^ y, j) <==> Bit(x, j) != Bit(y, j)
  {
  }

  /** Bytes that differ differ in some bit. */
  lemma DifferInBit(x: bv8, y: bv8)
    requires forall j :: 0 <= j < 8 ==> Bit(x, j) == Bit(y, j)
    ensures x == y
  {
    assert Bit(x, 0) == Bit(y, 0) && Bit(x, 1) == Bit(y, 1) && Bit(x, 2) == Bit(y, 2) && Bit(x, 3) == Bit(y, 3);
    assert Bit(x, 4) == Bit(y, 4) && Bit(x, 5) == Bit(y, 5) && Bit(x, 6) == Bit(y, 6) && Bit(x, 7) == Bit(y, 7);
  }

  /** The leading bits of two bytes that differ. */
  method FirstDifference(x: bv8, y: bv8) returns (j: nat)
    requires x != y
    ensures j < 8 && Bit(x, j) != Bit(y, j) && forall i :: 0 <= i < j ==> Bit(x, i) == Bit(y, i)
  {
    hide Bit, Shifted;
    var z := x ^ y;
    j := 0;
    ShiftedStart(z);
    while j < 8
      invariant 0 <= j <= 8 && (j < 8 ==> z == Shifted(x ^ y, j))
      invariant forall i :: 0 <= i < j ==> Bit(x, i) == Bit(y, i)
    {
      ShiftedTop(x ^ y, j);
      XorBit(x, y, j);
      if z & 0x80 != 0 { return; }
      z := z << 1;
      j := j + 1;
    }
    DifferInBit(x, y);
  }

  lemma ShiftedStart(x: bv8)
    ensures Shifted(x, 0) == x
  {
  }

  method CommonPrefix(a: Bytes16, b: Bytes16) returns (n: nat)
    ensures n == PrefixLength(a, b) && IsCommonPrefix(a, b, n)
  {
    n := LeadingBits(a, b);
    PrefixFromIs(a, b, 0);
    PrefixIsUnique(a, b, n, PrefixLength(a, b));
  }

  method LeadingBits(a: Bytes16, b: Bytes16) returns (n: nat)
    ensures IsCommonPrefix(a, b, n)
  {
    hide Bit;
    var i := 0;
    while i < 16
      invariant 0 <= i <= 16 && forall k :: 0 <= k < 8 * i ==> BitAt(a, k) == BitAt(b, k)
    {
      if a[i] != b[i] {
        var j := FirstDifference(a[i], b[i]);
        n := i * 8 + j;
        assert n / 8 == i && n % 8 == j;
        forall k | 0 <= k < n ensures BitAt(a, k) == BitAt(b, k) {
          if k >= 8 * i { assert k / 8 == i && 0 <= k % 8 < j; }
        }
        return;
      }
      forall k | 0 <= k < 8 * (i + 1) ensures BitAt(a, k) == BitAt(b, k) {
        if k >= 8 * i { assert k / 8 == i; }
      }
      i := i + 1;
    }
    n := 128;
  }

  // ----- The comparison -----

  datatype Element = Element(addr: Address, hasSrc: bool, src: Address, order: nat)

  /** Without a source address the source is not set. */
  predicate ElementOk(e: Element) { !e.hasSrc ==> e.src.OtherFamily? }

  /** The source address is of the family of the destination, as one found for it is. */
  predicate OwnFamily(e: Element) { e.hasSrc ==> e.addr.V4? == e.src.V4? && e.addr.V6? == e.src.V6? }

  function Int(b: bool): int { if b then 1 else 0 }

  predicate ScopeMatch(e: Element) { Scope(e.src) == Scope(e.addr) }

  predicate LabelMatch(e: Element) { Label(e.src) == Label(e.addr) }

  /** Rule 9 looks only at IPv6 destinations with a source. */
  predicate HasPrefix(e: Element) { e.hasSrc && e.addr.V6? }

  function Prefix(e: Element): nat {
    if HasPrefix(e) && e.src.V6? then PrefixLength(e.addr.bytes, e.src.bytes) else 0
  }

  /** Negative if `l` comes first. */
  function Compare(l: Element, r: Element): int {
    if l.hasSrc != r.hasSrc then Int(r.hasSrc) - Int(l.hasSrc)
    else if ScopeMatch(l) != ScopeMatch(r) then Int(ScopeMatch(r)) - Int(ScopeMatch(l))
    else if LabelMatch(l) != LabelMatch(r) then Int(LabelMatch(r)) - Int(LabelMatch(l))
    else if Precedence(l.addr) != Precedence(r.addr) then Precedence(r.addr) - Precedence(l.addr)
    else if Scope(l.addr) != Scope(r.addr) then Scope(l.addr) - Scope(r.addr)
    else if HasPrefix(l) && HasPrefix(r) && Prefix(l) != Prefix(r) then Prefix(r) - Prefix(l)
    else l.order - r.order
  }

  /** What the rules look at, the first rule first; smaller is better. */
  function Rank(e: Element): (ks: seq<int>)
    ensures |ks| == 7
  {
    [-Int(e.hasSrc), -Int(ScopeMatch(e)), -Int(LabelMatch(e)),
     -Precedence(e.addr), Scope(e.addr), 0 - Prefix(e), e.order]
  }

  predicate LexLess(a: seq<int>, b: seq<int>, i: nat)
    requires |a| == |b| == 7 && i <= 7
    decreases 7 - i
  {
    i < 7 && (a[i] < b[i] || (a[i] == b[i] && LexLess(a, b, i + 1)))
  }

  /** An IPv4 and a mapped IPv6 destination, both usable: rule 9 then skips the pair. */
  predicate Mixed(l: Element, r: Element) {
    && l.hasSrc && r.hasSrc
    && ((l.addr.V4? && r.addr.V6? && IsMapped(r.addr.bytes)) || (r.addr.V4? && l.addr.V6? && IsMapped(l.addr.bytes)))
  }

  /** Destinations of different families tie on rules 1 to 8 only if they are mixed. */
  lemma TieIsMixed(l: Element, r: Element)
    requires l.hasSrc == r.hasSrc && Precedence(l.addr) == Precedence(r.addr) && Scope(l.addr) == Scope(r.addr)
    requires HasPrefix(l) && !HasPrefix(r)
    ensures Mixed(l, r)
  {
    hide IsLoopback, IsMapped, Is6to4, IsTeredo, IsUniqueLocal, IsLinkLocal;
    var b := l.addr.bytes;
    if IsCompatible(b) { assert b[0] == 0; }
  }

  lemma CompareIsLex(l: Element, r: Element)
    requires !Mixed(l, r)
    ensures Compare(l, r) < 0 <==> LexLess(Rank(l), Rank(r), 0)
    ensures Compare(l, r) > 0 <==> LexLess(Rank(r), Rank(l), 0)
    ensures Compare(l, r) == 0 <==> Rank(l) == Rank(r)
  {
    hide ScopeMatch, LabelMatch, Precedence, Scope, HasPrefix, Prefix, Mixed;
    NoPrefix(l);
    NoPrefix(r);
    if l.hasSrc == r.hasSrc && Precedence(l.addr) == Precedence(r.addr) && Scope(l.addr) == Scope(r.addr) {
      if HasPrefix(l) && !HasPrefix(r) { TieIsMixed(l, r); }
      if HasPrefix(r) && !HasPrefix(l) { TieIsMixed(r, l); MixedBoth(l, r); }
    }
    LexByHand(Rank(l), Rank(r));
    LexByHand(Rank(r), Rank(l));
  }

  lemma NoPrefix(e: Element)
    ensures !HasPrefix(e) ==> Prefix(e) == 0
  {
  }

  lemma MixedBoth(l: Element, r: Element)
    ensures Mixed(l, r) == Mixed(r, l)
  {
  }

  lemma LexByHand(a: seq<int>, b: seq<int>)
    requires |a| == |b| == 7
    ensures LexLess(a, b, 0) <==>
            if a[0] != b[0] then a[0] < b[0] else if a[1] != b[1] then a[1] < b[1]
            else if a[2] != b[2] then a[2] < b[2] else if a[3] != b[3] then a[3] < b[3]
            else if a[4] != b[4] then a[4] < b[4] else if a[5] != b[5] then a[5] < b[5]
            else a[6] < b[6]
  {
    assert LexLess(a, b, 6) <==> a[6] < b[6];
    assert LexLess(a, b, 4) <==> a[4] < b[4] || (a[4] == b[4] && (a[5] < b[5] || (a[5] == b[5] && a[6] < b[6])));
    assert LexLess(a, b, 2) <==> a[2] < b[2] || (a[2] == b[2] && (a[3] < b[3] || (a[3] == b[3] && LexLess(a, b, 4))));
  }

  /** The rules before rule 9 do not decide between the two. */
  predicate Tied(l: Element, r: Element) {
    && l.hasSrc == r.hasSrc && ScopeMatch(l) == ScopeMatch(r) && LabelMatch(l) == LabelMatch(r)
    && Precedence(l.addr) == Precedence(r.addr) && Scope(l.addr) == Scope(r.addr)
  }

  /** Rule 9 is reached, and a source address passed by the caller has no IPv6 bytes to compare: the code throws. */
  predicate Throws(l: Element, r: Element) {
    Tied(l, r) && HasPrefix(l) && HasPrefix(r) && !(l.src.V6? && r.src.V6?)
  }

  /** Rule 9 puts `a` before `b`, and rule 10 puts `c` between them the other way round. */
  predicate Crossed(a: Element, b: Element, c: Element) {
    && Tied(a, b) && Tied(b, c)
    && HasPrefix(a) && HasPrefix(b) && !HasPrefix(c)
    && Prefix(a) > Prefix(b) && b.order < c.order < a.order
  }

  /** The comparison goes round in a circle exactly for crossed elements. */
  lemma CircleExactly(a: Element, b: Element, c: Element)
    ensures Compare(a, b) < 0 && Compare(b, c) < 0 && Compare(c, a) < 0 <==>
            Crossed(a, b, c) || Crossed(b, c, a) || Crossed(c, a, b)
  {
    hide ScopeMatch, LabelMatch, Precedence, Scope, HasPrefix, Prefix;
  }

  /** The comparison is a strict total order of elements with different positions unless they are crossed. */
  lemma TotalOrder(a: Element, b: Element, c: Element)
    requires a.order != b.order && b.order != c.order && a.order != c.order
    ensures Compare(a, b) < 0 <==> Compare(b, a) > 0
    ensures Compare(a, b) != 0
    ensures Compare(a, b) < 0 && Compare(b, c) < 0 ==>
              (Compare(a, c) < 0 <==> !Crossed(a, b, c) && !Crossed(b, c, a) && !Crossed(c, a, b))
  {
    hide ScopeMatch, LabelMatch, Precedence, Scope, HasPrefix, Prefix, Crossed;
    CircleExactly(a, b, c);
  }

  /** Crossed elements are mixed. */
  lemma CrossedIsMixed(a: Element, b: Element, c: Element)
    requires Crossed(a, b, c)
    ensures Mixed(a, c) && Mixed(b, c)
  {
    hide ScopeMatch, LabelMatch, Precedence, Scope, HasPrefix, Prefix, Mixed;
    TieIsMixed(a, c);
    TieIsMixed(b, c);
  }

  const MAPPED_A: Bytes16 := [0, 0, 0, 0, 0, 0, 0, 0, 0, 0, 0xff, 0xff, 8, 8, 8, 8]
  const MAPPED_B: Bytes16 := [0, 0, 0, 0, 0, 0, 0, 0, 0, 0, 0xff, 0xff, 136, 8, 8, 8]

  /** With mixed pairs the comparison can go round in a circle. */
  lemma MixedCircle()
    ensures var a := Element(V6(MAPPED_A), true, V6(MAPPED_A), 2);
            var b := Element(V6(MAPPED_B), true, V6(MAPPED_A), 0);
            var c := Element(V4(0x08080808), true, V4(0x08080808), 1);
            && OwnFamily(a) && OwnFamily(b) && OwnFamily(c)
            && Compare(a, b) < 0 && Compare(b, c) < 0 && Compare(c, a) < 0
  {
    hide PrefixLength, Label, Precedence, Scope, MAPPED_A, MAPPED_B;
    CirclePrefixes();
    CircleTies();
  }

  lemma CirclePrefixes()
    ensures PrefixLength(MAPPED_A, MAPPED_A) > PrefixLength(MAPPED_B, MAPPED_A)
  {
    PrefixOfSame(MAPPED_A);
    PrefixDiffers(MAPPED_B, MAPPED_A, 96);
  }

  lemma CircleTies()
    ensures forall b :: b == MAPPED_A || b == MAPPED_B ==>
              Label(V6(b)) == 4 && Precedence(V6(b)) == 35 && Scope(V6(b)) == GLOBAL
    ensures Label(V4(0x08080808)) == 4 && Precedence(V4(0x08080808)) == 35 && Scope(V4(0x08080808)) == GLOBAL
  {
    MappedTies(MAPPED_A);
    MappedTies(MAPPED_B);
  }

  lemma MappedTies(b: Bytes16)
    requires IsMapped(b)
    ensures Label(V6(b)) == 4 && Precedence(V6(b)) == 35 && Scope(V6(b)) == GLOBAL
  {
    assert b[0] == 0 && b[10] != 0;
  }

  lemma PrefixOfSame(a: Bytes16)
    ensures PrefixLength(a, a) == 128
  {
    PrefixFromIs(a, a, 0);
  }

  lemma PrefixDiffers(a: Bytes16, b: Bytes16, n: nat)
    requires n < 128 && BitAt(a, n) != BitAt(b, n)
    ensures PrefixLength(a, b) <= n
  {
    PrefixFromIs(a, b, 0);
  }

  // ----- Putting the addresses in order -----

  predicate IsOrder(p: seq<nat>) {
    && (forall i :: 0 <= i < |p| ==> p[i] < |p|)
    && (forall i, j :: 0 <= i < j < |p| ==> p[i] != p[j])
  }

  predicate Inverse(p: seq<nat>, inv: seq<nat>) {
    && IsOrder(p) && |inv| == |p|
    && (forall i :: 0 <= i < |p| ==> inv[i] < |p| && p[inv[i]] == i)
    && (forall i :: 0 <= i < |p| ==> inv[p[i]] == i)
  }

  /** The value at `x` when the loop arrives there, if every position starts with its own number. */
  function Carry(inv: seq<nat>, x: nat): nat
    requires x < |inv|
    decreases x
  {
    if inv[x] < x then Carry(inv, inv[x]) else x
  }

  /** Where the value at each position comes from when the loop has made `k` steps. */
  function Source(p: seq<nat>, inv: seq<nat>, k: nat, x: nat): nat
    requires x < |p| == |inv|
  {
    if x < k && p[x] >= x then p[x]
    else if inv[x] < x && inv[x] < k then Carry(inv, inv[x])
    else x
  }

  /** Every value has come from its source. */
  ghost predicate Placed<T>(now: seq<T>, was: seq<T>, p: seq<nat>, inv: seq<nat>, k: nat) {
    && |now| == |was| == |p| == |inv|
    && forall x :: 0 <= x < |p| ==> Source(p, inv, k, x) < |p| && now[x] == was[Source(p, inv, k, x)]
  }

  lemma PlacedStep<T>(now: seq<T>, was: seq<T>, p: seq<nat>, inv: seq<nat>, i: nat)
    requires i < |p| && Inverse(p, inv) && Placed(now, was, p, inv, i)
    ensures Placed(if p[i] > i then now[i := now[p[i]]][p[i] := now[i]] else now, was, p, inv, i + 1)
  {
    hide Source;
    var next := if p[i] > i then now[i := now[p[i]]][p[i] := now[i]] else now;
    var k := i + 1;
    forall x | 0 <= x < |p| ensures Source(p, inv, k, x) < |p| && next[x] == was[Source(p, inv, k, x)] {
      SourceStep(p, inv, i, x);
    }
  }

  /** The loop that moves the addresses: a pair is swapped only if its second place lies ahead. */
  method SwapLoop<T>(a: array<T>, p: seq<nat>, ghost inv: seq<nat>)
    requires |p| == a.Length && Inverse(p, inv)
    modifies a
    ensures Placed(a[..], old(a[..]), p, inv, |p|)
  {
    hide Placed;
    var i := 0;
    assert Placed(a[..], a[..], p, inv, 0) by { PlacedStart(a[..], p, inv); }
    while i < a.Length
      invariant 0 <= i <= a.Length && Placed(a[..], old(a[..]), p, inv, i)
    {
      PlacedStep(a[..], old(a[..]), p, inv, i);
      ghost var now := a[..];
      if p[i] > i {
        a[i], a[p[i]] := a[p[i]], a[i];
        assert a[..] == now[i := now[p[i]]][p[i] := now[i]];
      }
      i := i + 1;
    }
  }

  lemma PlacedStart<T>(s: seq<T>, p: seq<nat>, inv: seq<nat>)
    requires |s| == |p| == |inv|
    ensures Placed(s, s, p, inv, 0)
  {
  }

  /** One step of the loop. */
  lemma SourceStep(p: seq<nat>, inv: seq<nat>, i: nat, x: nat)
    requires i < |p| && x < |p| && Inverse(p, inv)
    ensures Source(p, inv, i + 1, x) ==
            if p[i] > i && x == i then Source(p, inv, i, p[i])
            else if p[i] > i && x == p[i] then Source(p, inv, i, i)
            else Source(p, inv, i, x)
  {
    assert inv[x] == i ==> p[i] == x;
    assert inv[p[i]] == i;
  }

  lemma {:induction false} CarryIs(p: seq<nat>, inv: seq<nat>, x: nat)
    requires Inverse(p, inv) && x < |p|
    ensures Carry(inv, x) <= x && inv[Carry(inv, x)] >= Carry(inv, x)
    decreases x
  {
    if inv[x] < x { CarryIs(p, inv, inv[x]); }
  }

  /** Where each address ends up: the choice for a place gets it unless it came from an earlier one. */
  lemma FinalSource(p: seq<nat>, inv: seq<nat>, x: nat)
    requires Inverse(p, inv) && x < |p|
    ensures Source(p, inv, |p|, x) == if p[x] >= x then p[x] else Carry(inv, x)
  {
    assert p[x] < x ==> inv[x] != x;
  }

  /** Where the order leads from `x` in `n` steps. */
  function Follow(p: seq<nat>, x: nat, n: nat): (y: nat)
    requires IsOrder(p) && x < |p|
    ensures y < |p|
  {
    if n == 0 then x else p[Follow(p, x, n - 1)]
  }

  ghost predicate OnCycle(p: seq<nat>, x: nat, y: nat)
    requires IsOrder(p) && x < |p|
  {
    exists n: nat :: Follow(p, x, n) == y
  }

  /** A cycle of the order leads back to an earlier place at most once. */
  ghost predicate FallsOnce(p: seq<nat>)
    requires IsOrder(p)
  {
    forall x, y :: 0 <= x < |p| && 0 <= y < |p| && OnCycle(p, x, y) && p[x] < x && p[y] < y ==> x == y
  }

  /** From a fall to where its run starts, the cycle stays on that run. */
  lemma {:induction false} FallStays(p: seq<nat>, inv: seq<nat>, x: nat, n: nat)
    requires Inverse(p, inv) && x < |p| && p[x] < x && Carry(inv, x) == p[x]
    ensures Follow(p, x, n) <= x && Carry(inv, Follow(p, x, n)) == p[x]
  {
    if n > 0 {
      FallStays(p, inv, x, n - 1);
      var y := Follow(p, x, n - 1);
      CarryIs(p, inv, x);
      if y < x { OneRun(p, inv, y, x); }
    }
  }

  /** From a fall the cycle rises until it falls again, and carries one value that far. */
  lemma {:induction false} RisesToFall(p: seq<nat>, inv: seq<nat>, x: nat, n: nat)
    requires Inverse(p, inv) && x < |p| && p[x] < x && n > 0 && Carry(inv, Follow(p, x, n)) == p[x]
    requires forall y :: 0 <= y < |p| && OnCycle(p, x, y) && p[y] < y ==> y == x
    ensures Carry(inv, x) == p[x]
    decreases |p| - Follow(p, x, n)
  {
    var y := Follow(p, x, n);
    assert OnCycle(p, x, y);
    if y != x {
      assert y < p[y];
      RisesToFall(p, inv, x, n + 1);
    }
  }

  /** No other place of the cycle of `x` has a choice that comes before it. */
  ghost predicate OnlyFall(p: seq<nat>, x: nat)
    requires IsOrder(p) && x < |p|
  {
    forall y :: 0 <= y < |p| && OnCycle(p, x, y) && p[y] < y ==> y == x
  }

  /** The loop can put the right address in this place. */
  ghost predicate Lands(p: seq<nat>, x: nat)
    requires IsOrder(p) && x < |p|
  {
    p[x] >= x || OnlyFall(p, x)
  }

  /** A place whose choice comes before it gets it exactly if its cycle falls nowhere else. */
  lemma FallIsCarried(p: seq<nat>, inv: seq<nat>, x: nat)
    requires Inverse(p, inv) && x < |p| && p[x] < x
    ensures Carry(inv, x) == p[x] <==> OnlyFall(p, x)
  {
    if Carry(inv, x) == p[x] {
      forall y | 0 <= y < |p| && OnCycle(p, x, y) && p[y] < y ensures y == x {
        var n: nat :| Follow(p, x, n) == y;
        FallStays(p, inv, x, n);
        if y < x { OneRun(p, inv, y, x); }
      }
    }
    if OnlyFall(p, x) {
      assert Follow(p, x, 0) == x && Follow(p, x, 1) == p[x];
      RisesToFall(p, inv, x, 1);
    }
  }

  /** The loop puts the right address in a place exactly if it lands there. */
  lemma PlaceExactly(p: seq<nat>, inv: seq<nat>, x: nat)
    requires Inverse(p, inv) && x < |p|
    ensures Source(p, inv, |p|, x) == p[x] <==> Lands(p, x)
  {
    hide Source, Carry, OnlyFall;
    FinalSource(p, inv, x);
    if p[x] < x { FallIsCarried(p, inv, x); }
  }

  /** The loop puts every address in its place exactly when no cycle of the order falls twice. */
  lemma AppliesOrder(p: seq<nat>, inv: seq<nat>)
    requires Inverse(p, inv)
    ensures (forall x :: 0 <= x < |p| ==> Source(p, inv, |p|, x) == p[x]) <==> FallsOnce(p)
  {
    hide Source, OnCycle;
    forall x | 0 <= x < |p| ensures Source(p, inv, |p|, x) == p[x] <==> Lands(p, x) { PlaceExactly(p, inv, x); }
    forall x | 0 <= x < |p| && p[x] < x ensures Lands(p, x) <==> OnlyFall(p, x) { }
  }

  /** No address is lost and none appears twice. */
  lemma SourceIsOrder(p: seq<nat>, inv: seq<nat>, x: nat, y: nat)
    requires Inverse(p, inv) && x < y < |p|
    ensures Source(p, inv, |p|, x) != Source(p, inv, |p|, y)
  {
    FinalSource(p, inv, x);
    FinalSource(p, inv, y);
    CarryIs(p, inv, x);
    CarryIs(p, inv, y);
    if Carry(inv, x) == Carry(inv, y) { OneRun(p, inv, x, y); }
  }

  /** Places that carry the same value lie on one rising run. */
  lemma {:induction false} OneRun(p: seq<nat>, inv: seq<nat>, x: nat, y: nat)
    requires Inverse(p, inv) && x < y < |p| && Carry(inv, x) == Carry(inv, y)
    ensures x < p[x] <= y
    decreases x + y
  {
    CarryIs(p, inv, x);
    var w := inv[y];
    if w < x {
      OneRun(p, inv, w, x);
    } else if w > x {
      OneRun(p, inv, x, w);
    }
  }

  // ----- The whole sort -----

  /** Every element knows its first position. */
  predicate Numbered(es: seq<Element>) { forall i :: 0 <= i < |es| ==> es[i].order == i }

  predicate Uncrossed(es: seq<Element>) {
    forall i, j, k :: 0 <= i < |es| && 0 <= j < |es| && 0 <= k < |es| ==> !Crossed(es[i], es[j], es[k])
  }

  predicate NeverThrows(es: seq<Element>) {
    forall i, j :: 0 <= i < |es| && 0 <= j < |es| && i != j ==> !Throws(es[i], es[j])
  }

  /** Sources of the destinations' own families never throw. */
  lemma OwnNeverThrows(es: seq<Element>)
    requires forall i :: 0 <= i < |es| ==> OwnFamily(es[i])
    ensures NeverThrows(es)
  {
    hide Tied;
    forall i, j | 0 <= i < |es| && 0 <= j < |es| && i != j ensures !Throws(es[i], es[j]) {
      assert OwnFamily(es[i]) && OwnFamily(es[j]);
    }
  }

  /** The elements of the addresses in their first order. */
  predicate Elements(es: seq<Element>, addrs: seq<Address>) {
    |es| == |addrs| && forall i :: 0 <= i < |es| ==> es[i].addr == addrs[i] && es[i].order == i && ElementOk(es[i])
  }

  /** The order that sorting the elements gives. */
  predicate Sorts(p: seq<nat>, es: seq<Element>) {
    |p| == |es| && IsOrder(p) && forall i, j :: 0 <= i < j < |p| ==> Compare(es[p[i]], es[p[j]]) < 0
  }

  /** There is only one such order. */
  lemma {:induction false} SortsIsUnique(p: seq<nat>, q: seq<nat>, es: seq<Element>, i: nat)
    requires Sorts(p, es) && Sorts(q, es) && i < |p|
    ensures p[i] == q[i]
  {
    hide Compare;
    forall k | 0 <= k < i ensures p[k] == q[k] { SortsIsUnique(p, q, es, k); }
    if p[i] != q[i] {
      BothWays(es[p[i]], es[q[i]]);
      var a := Position(q, p[i]);
      var b := Position(p, q[i]);
    }
  }

  lemma BothWays(a: Element, b: Element)
    ensures Compare(a, b) < 0 <==> Compare(b, a) > 0
    ensures a.order != b.order ==> Compare(a, b) != 0
  {
    hide ScopeMatch, LabelMatch, Precedence, Scope, HasPrefix, Prefix;
  }

  /** The first place whose element does not come before `e`. */
  function Place(p: seq<nat>, es: seq<Element>, e: Element, k: nat): (r: nat)
    requires k <= |p| && forall i :: 0 <= i < |p| ==> p[i] < |es|
    requires forall j :: 0 <= j < k ==> Compare(es[p[j]], e) < 0
    ensures k <= r <= |p| && (forall j :: 0 <= j < r ==> Compare(es[p[j]], e) < 0)
    ensures r < |p| ==> Compare(es[p[r]], e) >= 0
    decreases |p| - k
  {
    if k < |p| && Compare(es[p[k]], e) < 0 then Place(p, es, e, k + 1) else k
  }

  function Inserted(p: seq<nat>, es: seq<Element>, n: nat): (q: seq<nat>)
    requires Numbered(es) && Uncrossed(es) && SortedPart(p, es, n) && n < |es|
    ensures SortedPart(q, es, n + 1)
  {
    hide Compare, Uncrossed, SortedPart;
    InPart(p, es, n);
    var k := Place(p, es, es[n], 0);
    Inserts(p, es, n, k);
    p[..k] + [n] + p[k..]
  }

  lemma InPart(p: seq<nat>, es: seq<Element>, n: nat)
    requires SortedPart(p, es, n)
    ensures |p| == n <= |es| && forall i :: 0 <= i < |p| ==> p[i] < |es|
  {
  }

  /** The library sort, which any sorting method may stand for: the first `n` elements in order. */
  function Arranged(es: seq<Element>, n: nat): (p: seq<nat>)
    requires Numbered(es) && Uncrossed(es) && n <= |es|
    ensures SortedPart(p, es, n)
  {
    hide Compare, Uncrossed;
    if n == 0 then [] else Inserted(Arranged(es, n - 1), es, n - 1)
  }

  /** The first `n` elements in order. */
  predicate SortedPart(p: seq<nat>, es: seq<Element>, n: nat) {
    && n <= |es| && |p| == n && IsOrder(p)
    && forall i, j :: 0 <= i < j < n ==> Compare(es[p[i]], es[p[j]]) < 0
  }

  lemma Transitive(es: seq<Element>, i: nat, j: nat, k: nat)
    requires Numbered(es) && Uncrossed(es) && i < |es| && j < |es| && k < |es| && i != j && j != k && i != k
    requires Compare(es[i], es[j]) < 0 && Compare(es[j], es[k]) < 0
    ensures Compare(es[i], es[k]) < 0
  {
    hide Compare, Crossed;
    TotalOrder(es[i], es[j], es[k]);
  }

  lemma Inserts(p: seq<nat>, es: seq<Element>, n: nat, k: nat)
    requires Numbered(es) && Uncrossed(es)
    requires SortedPart(p, es, n) && k <= n < |es| && forall j :: 0 <= j < k ==> Compare(es[p[j]], es[n]) < 0
    requires k < n ==> Compare(es[p[k]], es[n]) >= 0
    ensures SortedPart(p[..k] + [n] + p[k..], es, n + 1)
  {
    hide Compare, Crossed, Uncrossed;
    forall j | k <= j < n ensures Compare(es[n], es[p[j]]) < 0 {
      BothWays(es[n], es[p[k]]);
      BothWays(es[p[k]], es[n]);
      if k < j { Transitive(es, n, p[k], p[j]); }
    }
    var q := p[..k] + [n] + p[k..];
    forall i, j | 0 <= i < j < n + 1 ensures Compare(es[q[i]], es[q[j]]) < 0 { }
  }

  /** Some order sorts the elements exactly when no three of them are crossed. */
  lemma SortableExactly(es: seq<Element>)
    requires Numbered(es)
    ensures (exists p :: Sorts(p, es)) <==> Uncrossed(es)
  {
    hide Compare, Crossed, Arranged;
    if Uncrossed(es) { assert Sorts(Arranged(es, |es|), es); }
    if p :| Sorts(p, es) {
      forall i, j, k | 0 <= i < |es| && 0 <= j < |es| && 0 <= k < |es| ensures !Crossed(es[i], es[j], es[k]) {
        CircleExactly(es[i], es[j], es[k]);
        Comes(p, es, i, j);
        Comes(p, es, j, k);
        Comes(p, es, k, i);
      }
    }
  }

  /** What compares less comes first in a sorted order. */
  lemma Comes(p: seq<nat>, es: seq<Element>, i: nat, j: nat)
    requires Sorts(p, es) && i < |es| && j < |es|
    ensures Compare(es[i], es[j]) < 0 ==> Position(p, i) < Position(p, j)
  {
    hide Compare;
    BothWays(es[i], es[j]);
    BothWays(es[i], es[i]);
  }

  /** Every number is in an order. */
  ghost function Position(p: seq<nat>, x: nat): (i: nat)
    requires IsOrder(p) && x < |p|
    ensures i < |p| && p[i] == x
  {
    AllUsed(p, x);
    var i :| 0 <= i < |p| && p[i] == x;
    i
  }

  lemma AllUsed(p: seq<nat>, x: nat)
    requires IsOrder(p) && x < |p|
    ensures exists i :: 0 <= i < |p| && p[i] == x
  {
    CountBelow(|p|);
    if forall i :: 0 <= i < |p| ==> p[i] != x {
      Distinct(p, Below(|p|) - {x});
    }
  }

  function Below(n: nat): set<nat> { if n == 0 then {} else Below(n - 1) + {n - 1} }

  lemma {:induction false} CountBelow(n: nat)
    ensures |Below(n)| == n && forall i: nat :: i in Below(n) <==> i < n
  {
    if n > 0 { CountBelow(n - 1); }
  }

  lemma {:induction false} Distinct(p: seq<nat>, s: set<nat>)
    requires (forall i, j :: 0 <= i < j < |p| ==> p[i] != p[j]) && forall i :: 0 <= i < |p| ==> p[i] in s
    ensures |p| <= |s|
    decreases |p|
  {
    if p != [] {
      var n := |p| - 1;
      forall i | 0 <= i < n ensures p[..n][i] in s - {p[n]} { }
      Distinct(p[..n], s - {p[n]});
    }
  }

  ghost function InverseOf(p: seq<nat>): (inv: seq<nat>)
    requires IsOrder(p)
    ensures Inverse(p, inv)
  {
    seq(|p|, x requires 0 <= x < |p| => Position(p, x))
  }

  /** How the library sort ends. */
  datatype Ending = Threw | Order(p: seq<nat>)

  /**
   * What the library sort may do: it throws only if some comparison does; otherwise it puts the elements in some order,
   * and in the sorted one if the comparison is an order.
   */
  predicate Allowed(e: Ending, es: seq<Element>) {
    match e
    case Threw => !NeverThrows(es)
    case Order(p) => |p| == |es| && IsOrder(p) && (NeverThrows(es) && Uncrossed(es) ==> Sorts(p, es))
  }

  /**
   * Sorting in place. After an exception the addresses are as they were. Otherwise they are permuted, and exactly the
   * places that the loop can fill have the right address; the best address comes first.
   */
  method Sort(addrs: array<Address>, es: seq<Element>, library: Ending) returns (threw: bool)
    requires Elements(es, addrs[..]) && Allowed(library, es)
    modifies addrs
    ensures threw == library.Threw? && ((forall i :: 0 <= i < |es| ==> OwnFamily(es[i])) ==> !threw)
    ensures threw ==> addrs[..] == old(addrs[..])
    ensures multiset(addrs[..]) == multiset(old(addrs[..]))
    ensures !threw ==> forall i :: 0 <= i < |es| && Lands(library.p, i) ==> addrs[i] == es[library.p[i]].addr
    ensures !threw && Different(old(addrs[..])) ==>
              forall i :: 0 <= i < |es| && addrs[i] == es[library.p[i]].addr ==> Lands(library.p, i)
    ensures !threw && FallsOnce(library.p) ==> InOrder(addrs[..], es, library.p)
    ensures !threw && Different(old(addrs[..])) && InOrder(addrs[..], es, library.p) ==> FallsOnce(library.p)
    ensures NeverThrows(es) && Uncrossed(es) && es != [] ==> library.Order? && BestFirst(addrs[0], es, library.p)
  {
    hide Compare, Placed, Uncrossed, NeverThrows, FallsOnce, InOrder, InverseOf, Lands, BestFirst, Different, OwnFamily;
    hide Elements;
    if forall i :: 0 <= i < |es| ==> OwnFamily(es[i]) { OwnNeverThrows(es); }
    threw := library.Threw?;
    if !threw {
      ghost var before, inv := addrs[..], InverseOf(library.p);
      ElementsLength(es, before);
      SwapLoop(addrs, library.p, inv);
      Permuted(before, addrs[..], library.p, inv);
      forall i | 0 <= i < |es|
        ensures Lands(library.p, i) ==> addrs[i] == es[library.p[i]].addr
        ensures Different(before) && addrs[i] == es[library.p[i]].addr ==> Lands(library.p, i)
      {
        LandsIs(before, addrs[..], es, library.p, inv, i);
      }
      Kept(before, addrs[..], es, library.p, inv);
      if NeverThrows(es) && Uncrossed(es) && es != [] { Best(before, addrs[..], es, library.p, inv); }
    }
  }

  lemma ElementsLength(es: seq<Element>, addrs: seq<Address>)
    requires Elements(es, addrs)
    ensures |es| == |addrs|
  {
  }

  /** Every address stands where the order puts it. */
  predicate InOrder(now: seq<Address>, es: seq<Element>, p: seq<nat>)
    requires |now| == |es| == |p| && IsOrder(p)
  {
    forall i :: 0 <= i < |p| ==> now[i] == es[p[i]].addr
  }

  predicate Different<T(==)>(s: seq<T>) { forall i, j :: 0 <= i < j < |s| ==> s[i] != s[j] }

  /** The order starts with the address, whose element is better than every other. */
  predicate BestFirst(a: Address, es: seq<Element>, p: seq<nat>)
    requires |p| == |es| > 0 && IsOrder(p)
  {
    a == es[p[0]].addr && forall j :: 0 <= j < |es| && j != p[0] ==> Compare(es[p[0]], es[j]) < 0
  }

  lemma Best(was: seq<Address>, now: seq<Address>, es: seq<Element>, p: seq<nat>, inv: seq<nat>)
    requires Elements(es, was) && Sorts(p, es) && p != [] && Inverse(p, inv) && Placed(now, was, p, inv, |p|)
    ensures BestFirst(now[0], es, p)
  {
    hide Compare, Source, ElementOk;
    FinalSource(p, inv, 0);
    forall j | 0 <= j < |p| && j != p[0] ensures Compare(es[p[0]], es[j]) < 0 {
      var i := Position(p, j);
    }
  }

  lemma LandsIs(was: seq<Address>, now: seq<Address>, es: seq<Element>, p: seq<nat>, inv: seq<nat>, i: nat)
    requires Elements(es, was) && |p| == |es| && Inverse(p, inv) && Placed(now, was, p, inv, |p|) && i < |p|
    ensures Lands(p, i) ==> now[i] == es[p[i]].addr
    ensures Different(was) && now[i] == es[p[i]].addr ==> Lands(p, i)
  {
    hide Source, ElementOk, Lands;
    PlaceExactly(p, inv, i);
  }

  lemma Permuted<T>(was: seq<T>, now: seq<T>, p: seq<nat>, inv: seq<nat>)
    requires Inverse(p, inv) && Placed(now, was, p, inv, |p|)
    ensures multiset(now) == multiset(was)
  {
    hide Source, Inverse;
    var q := seq(|p|, x requires 0 <= x < |p| => Source(p, inv, |p|, x));
    forall x, y | 0 <= x < y < |q| ensures q[x] != q[y] { SourceIsOrder(p, inv, x, y); }
    Rearranged(was, now, q);
  }

  lemma Kept(was: seq<Address>, now: seq<Address>, es: seq<Element>, p: seq<nat>, inv: seq<nat>)
    requires Elements(es, was) && |p| == |es| && Inverse(p, inv) && Placed(now, was, p, inv, |p|)
    ensures FallsOnce(p) ==> InOrder(now, es, p)
    ensures Different(was) && InOrder(now, es, p) ==> FallsOnce(p)
  {
    hide Source, ElementOk, FallsOnce;
    AppliesOrder(p, inv);
  }

  const GLOBAL_6: Bytes16 := [0x26, 0, 0, 0, 0, 0, 0, 0, 0, 0, 0, 0, 0, 0, 0, 1]
  const LOOPBACK_6: Bytes16 := [0, 0, 0, 0, 0, 0, 0, 0, 0, 0, 0, 0, 0, 0, 0, 1]

  function Own(a: Address, i: nat): Element { Element(a, true, a, i) }

  const ROTATED: seq<Address> := [V6(GLOBAL_6), V4(0x08080808), V6(LOOPBACK_6)]
  const ROTATED_ELEMENTS: seq<Element> := [Own(ROTATED[0], 0), Own(ROTATED[1], 1), Own(ROTATED[2], 2)]

  /**
   * A global IPv6 address, an IPv4 address and the loopback address, each reached from itself, sort as loopback,
   * global, IPv4. The loop leaves the IPv4 address before the global one.
   */
  lemma RotationExample(now: seq<Address>)
    ensures |ROTATED| == 3 && Elements(ROTATED_ELEMENTS, ROTATED) && NeverThrows(ROTATED_ELEMENTS)
    ensures Uncrossed(ROTATED_ELEMENTS) && Sorts([2, 0, 1], ROTATED_ELEMENTS) && !FallsOnce([2, 0, 1])
    ensures Placed(now, ROTATED, [2, 0, 1], InverseOf([2, 0, 1]), 3) ==> now == [ROTATED[2], ROTATED[1], ROTATED[0]]
  {
    hide Compare, InverseOf, Crossed, Placed, Sorts, Uncrossed, GLOBAL_6, LOOPBACK_6;
    RotationSorts();
    SortableExactly(ROTATED_ELEMENTS);
    RotationFalls();
    if Placed(now, ROTATED, [2, 0, 1], InverseOf([2, 0, 1]), 3) { RotationPlaced(now, ROTATED); }
  }

  lemma RotationPlaced<T>(now: seq<T>, was: seq<T>)
    requires |was| == 3 && Placed(now, was, [2, 0, 1], InverseOf([2, 0, 1]), 3)
    ensures now == [was[2], was[1], was[0]]
  {
    hide InverseOf;
    var p: seq<nat> := [2, 0, 1];
    var inv := InverseOf(p);
    assert inv[0] == 1 && inv[1] == 2 && inv[2] == 0;
    assert Carry(inv, 0) == 0 && Carry(inv, 1) == 1 && Carry(inv, 2) == 0;
    assert Source(p, inv, 3, 0) == 2 && Source(p, inv, 3, 1) == 1 && Source(p, inv, 3, 2) == 0;
  }

  lemma RotationSorts()
    ensures Sorts([2, 0, 1], ROTATED_ELEMENTS)
  {
    hide Label, Scope, Prefix, HasPrefix, Precedence, GLOBAL_6, LOOPBACK_6;
    assert Precedence(V6(GLOBAL_6)) == 40 by { GlobalPrecedence(); }
    assert Precedence(V4(0x08080808)) == 35 && Precedence(V6(LOOPBACK_6)) == 50 by { OtherPrecedences(); }
    var es := ROTATED_ELEMENTS;
    assert Compare(es[2], es[0]) < 0 && Compare(es[0], es[1]) < 0 && Compare(es[2], es[1]) < 0;
  }

  lemma GlobalPrecedence()
    ensures Precedence(V6(GLOBAL_6)) == 40
  {
    assert GLOBAL_6[0] == 0x26;
  }

  lemma OtherPrecedences()
    ensures Precedence(V4(0x08080808)) == 35 && Precedence(V6(LOOPBACK_6)) == 50
  {
  }

  lemma RotationFalls()
    ensures !FallsOnce([2, 0, 1])
  {
    var p: seq<nat> := [2, 0, 1];
    assert Follow(p, 2, 1) == 1;
    assert OnCycle(p, 2, 1);
  }

  /** Picking every element once keeps the multiset. */
  lemma {:induction false} Rearranged<T>(s: seq<T>, t: seq<T>, q: seq<nat>)
    requires |s| == |t| == |q| && IsOrder(q) && forall i :: 0 <= i < |q| ==> t[i] == s[q[i]]
    ensures multiset(s) == multiset(t)
    decreases |s|
  {
    if s == [] {
      assert t == [];
    } else {
      var n := |s| - 1;
      var i := Position(q, n);
      var q' := q[i := q[n]][..n];
      var t' := t[i := t[n]][..n];
      forall k | 0 <= k < n ensures q'[k] < n { assert q'[k] == if k == i then q[n] else q[k]; }
      Rearranged(s[..n], t', q');
      assert s == s[..n] + [s[n]];
      Moved(t, i);
    }
  }

  lemma Moved<T>(t: seq<T>, i: nat)
    requires i < |t|
    ensures multiset(t) == multiset(t[i := t[|t| - 1]][..|t| - 1]) + multiset{t[i]}
  {
    var n := |t| - 1;
    if i == n {
      assert t == t[i := t[n]][..n] + [t[i]];
    } else {
      assert t == t[..i] + [t[i]] + t[i + 1..n] + [t[n]];
      assert t[i := t[n]][..n] == t[..i] + [t[n]] + t[i + 1..n];
    }
  }
}
