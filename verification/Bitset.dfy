/** The bitset that names a set of linearized operations (src/porcupine/bitset.go). */
module Bitset {

  type Words = seq<bv64>

  function Mask(m: bv6): bv64 { 1 << m }
  predicate HasBit(x: bv64, m: bv6) { x & Mask(m) != 0 }
  function PutBit(x: bv64, m: bv6): bv64 { x | Mask(m) }
  function DropBit(x: bv64, m: bv6): bv64 { x & !Mask(m) }

  /** Which word a position is in, and which bit of it. */
  function BitsetIndex(pos: nat): (nat, bv6) {
    (pos / 64, (pos % 64) as bv6)
  }

  function Chunks(bits: nat): (chunks: nat)
    ensures forall pos: nat :: pos < bits ==> pos / 64 < chunks
  {
    bits / 64 + if bits % 64 != 0 then 1 else 0
  }

  predicate Get(b: Words, pos: nat)
    requires pos / 64 < |b|
  {
    var (major, minor) := BitsetIndex(pos);
    HasBit(b[major], minor)
  }

  function With(b: Words, pos: nat): (r: Words)
    requires pos / 64 < |b|
    ensures |r| == |b|
  {
    var (major, minor) := BitsetIndex(pos);
    b[major := PutBit(b[major], minor)]
  }

  function Without(b: Words, pos: nat): (r: Words)
    requires pos / 64 < |b|
    ensures |r| == |b|
  {
    var (major, minor) := BitsetIndex(pos);
    b[major := DropBit(b[major], minor)]
  }

  /** The set a bitset stands for. */
  ghost function Members(b: Words): set<nat> {
    set p: nat | p < 64 * |b| && Get(b, p)
  }

  lemma MemberIs(b: Words, p: nat)
    requires p < 64 * |b|
    ensures p in Members(b) <==> Get(b, p)
  {
  }

  lemma MinorBack(r: nat)
    requires r < 64
    ensures (r as bv6) as nat == r
  {
  }

  lemma SameIndex(p: nat, q: nat)
    requires BitsetIndex(p) == BitsetIndex(q)
    ensures p == q
  {
    MinorBack(p % 64);
    MinorBack(q % 64);
  }

  lemma OwnBit(x: bv64, m: bv6)
    ensures HasBit(PutBit(x, m), m) && !HasBit(DropBit(x, m), m)
  {
  }

  lemma OtherOr(x: bv64, m: bv6, k: bv6)
    requires m != k
    ensures (x | (1 << m)) & (1 << k) == x & (1 << k)
  {
  }

  lemma OtherAnd(x: bv64, m: bv6, k: bv6)
    requires m != k
    ensures (x & !(1 << m)) & (1 << k) == x & (1 << k)
  {
  }

  lemma MaskIs(m: bv6)
    ensures Mask(m) == 1 << m
  {
  }

  lemma OtherPut(x: bv64, m: bv6, k: bv6)
    requires m != k
    ensures HasBit(PutBit(x, m), k) == HasBit(x, k)
  {
    MaskIs(m);
    MaskIs(k);
    OtherOr(x, m, k);
    hide Mask;
  }

  lemma OtherDrop(x: bv64, m: bv6, k: bv6)
    requires m != k
    ensures HasBit(DropBit(x, m), k) == HasBit(x, k)
  {
    MaskIs(m);
    MaskIs(k);
    OtherAnd(x, m, k);
    hide Mask;
  }

  lemma XorBit(x: bv64, y: bv64, m: bv6)
    requires HasBit(x ^ y, m)
    ensures HasBit(x, m) != HasBit(y, m)
  {
  }

  lemma MembersWith(b: Words, pos: nat)
    requires pos / 64 < |b|
    ensures Members(With(b, pos)) == Members(b) + {pos}
    ensures Members(Without(b, pos)) == Members(b) - {pos}
  {
    hide Get, With, Without;
    forall q: nat | q < 64 * |b|
      ensures Get(With(b, pos), q) <==> q == pos || Get(b, q)
      ensures Get(Without(b, pos), q) <==> q != pos && Get(b, q)
    {
      GetWith(b, pos, q);
    }
  }

  lemma GetWith(b: Words, pos: nat, q: nat)
    requires pos / 64 < |b| && q / 64 < |b|
    ensures Get(With(b, pos), q) <==> q == pos || Get(b, q)
    ensures Get(Without(b, pos), q) <==> q != pos && Get(b, q)
  {
    hide HasBit, PutBit, DropBit;
    var (major, minor) := BitsetIndex(pos);
    var (qMajor, qMinor) := BitsetIndex(q);
    if qMajor == major {
      if qMinor == minor {
        SameIndex(pos, q);
        OwnBit(b[major], minor);
      } else {
        OtherPut(b[major], minor, qMinor);
        OtherDrop(b[major], minor, qMinor);
      }
    }
  }

  /** A word that is not zero has a bit, found by halving. */
  lemma SomeBit(d: bv64) returns (m: bv6)
    requires d != 0
    ensures HasBit(d, m)
  {
    var x := d;
    m := 0;
    if x & 0xFFFF_FFFF == 0 { m := m + 32; x := x >> 32; }
    if x & 0xFFFF == 0 { m := m + 16; x := x >> 16; }
    if x & 0xFF == 0 { m := m + 8; x := x >> 8; }
    if x & 0xF == 0 { m := m + 4; x := x >> 4; }
    if x & 0x3 == 0 { m := m + 2; x := x >> 2; }
    if x & 0x1 == 0 { m := m + 1; }
  }

  lemma XorDiffers(x: bv64, y: bv64)
    requires x != y
    ensures x ^ y != 0
  {
  }

  lemma DifferentBit(x: bv64, y: bv64) returns (m: bv6)
    requires x != y
    ensures HasBit(x, m) != HasBit(y, m)
  {
    hide HasBit, PutBit, DropBit;
    assert x ^ y != 0 by { XorDiffers(x, y); }
    m := SomeBit(x ^ y);
    XorBit(x, y, m);
  }

  lemma BitAt(i: nat, m: bv6)
    ensures BitsetIndex(64 * i + m as nat) == (i, m)
  {
    assert (64 * i + m as nat) % 64 == m as nat;
    assert ((m as nat) as bv6) == m;
  }

  /** Bitsets of one size that stand for the same set are the same. */
  lemma SameMembers(a: Words, b: Words)
    requires |a| == |b| && Members(a) == Members(b)
    ensures a == b
  {
    hide HasBit, PutBit, DropBit;
    if a != b {
      var i :| 0 <= i < |a| && a[i] != b[i];
      var m := DifferentBit(a[i], b[i]);
      var p: nat := 64 * i + m as nat;
      BitAt(i, m);
      MemberIs(a, p);
      MemberIs(b, p);
    }
  }

  /** bits.OnesCount64. */
  function OnesCount(v: bv64): nat
    decreases v
  {
    if v == 0 then 0 else 1 + OnesCount(v & (v - 1))
  }

  function Popcnt(b: Words): nat {
    if |b| == 0 then 0 else Popcnt(b[..|b| - 1]) + OnesCount(b[|b| - 1])
  }

  function Mix(x: bv64, y: bv64): bv64 { x ^ y }

  function Xor(b: Words, start: bv64): bv64 {
    if |b| == 0 then start else Mix(Xor(b[..|b| - 1], start), b[|b| - 1])
  }

  function Hash(b: Words): bv64 {
    Xor(b, (Popcnt(b) % 0x1_0000_0000_0000_0000) as bv64)
  }

  // ---- In place

  method NewBitset(bits: nat) returns (b: array<bv64>)
    ensures fresh(b) && b.Length == Chunks(bits) && Members(b[..]) == {}
  {
    b := new bv64[Chunks(bits)](_ => 0);
  }

  method Clone(b: array<bv64>) returns (c: array<bv64>)
    ensures fresh(c) && c[..] == b[..]
  {
    c := new bv64[b.Length];
    for i := 0 to b.Length
      invariant c[..i] == b[..i]
    {
      c[i] := b[i];
    }
    assert c[..] == c[..b.Length] == b[..b.Length] == b[..];
  }

  method Set(b: array<bv64>, pos: nat)
    requires pos / 64 < b.Length
    modifies b
    ensures Members(b[..]) == old(Members(b[..])) + {pos}
    ensures b[..] == With(old(b[..]), pos)
  {
    MembersWith(b[..], pos);
    var (major, minor) := BitsetIndex(pos);
    b[major] := PutBit(b[major], minor);
    assert b[..] == With(old(b[..]), pos);
  }

  method Clear(b: array<bv64>, pos: nat)
    requires pos / 64 < b.Length
    modifies b
    ensures Members(b[..]) == old(Members(b[..])) - {pos}
    ensures b[..] == Without(old(b[..]), pos)
  {
    MembersWith(b[..], pos);
    var (major, minor) := BitsetIndex(pos);
    b[major] := DropBit(b[major], minor);
    assert b[..] == Without(old(b[..]), pos);
  }

  method CountBits(b: Words) returns (total: nat)
    ensures total == Popcnt(b)
  {
    total := 0;
    for i := 0 to |b|
      invariant total == Popcnt(b[..i])
    {
      total := total + OnesCount(b[i]);
      assert b[..i + 1][..i] == b[..i];
    }
    assert b[..|b|] == b;
  }

  method HashOf(b: Words) returns (hash: bv64)
    ensures hash == Hash(b)
  {
    hide Mix;
    var count := CountBits(b);
    var start := (count % 0x1_0000_0000_0000_0000) as bv64;
    hash := start;
    for i := 0 to |b|
      invariant hash == Xor(b[..i], start)
    {
      hash := Mix(hash, b[i]);
      assert b[..i + 1][..i] == b[..i];
    }
    assert b[..|b|] == b;
  }

  /** Equal exactly when they stand for the same set, given the same size. */
  method Equals(a: Words, b: Words) returns (same: bool)
    ensures same == (a == b)
    ensures |a| == |b| ==> same == (Members(a) == Members(b))
  {
    if |a| == |b| && Members(a) == Members(b) { SameMembers(a, b); }
    if |a| != |b| { return false; }
    for i := 0 to |a|
      invariant forall k :: 0 <= k < i ==> a[k] == b[k]
    {
      if a[i] != b[i] { return false; }
    }
    return true;
  }
}
