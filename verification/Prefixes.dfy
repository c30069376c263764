/** Address prefixes and taking one out of another (internal/xrayconfig/socks.go). Addresses are
    bytes, as `netip` keeps them; what they mean is said over their bits, most significant first. */
module Prefixes {

  type Address = seq<bv8>

  /** `0x80 >> j`. */
  function OneBit(j: nat): (m: bv8)
    requires j < 8
    ensures m == (0x80 as bv8) >> j
  {
    if j == 0 then 0x80 else if j == 1 then 0x40 else if j == 2 then 0x20 else if j == 3 then 0x10
    else if j == 4 then 0x08 else if j == 5 then 0x04 else if j == 6 then 0x02 else 0x01
  }

  /** The mask that keeps the first `n` bits of a byte. */
  function KeepMask(n: nat): bv8
    requires n <= 8
  {
    if n == 0 then 0x00 else if n == 1 then 0x80 else if n == 2 then 0xC0 else if n == 3 then 0xE0
    else if n == 4 then 0xF0 else if n == 5 then 0xF8 else if n == 6 then 0xFC else if n == 7 then 0xFE else 0xFF
  }

  predicate BitOf(b: bv8, j: nat)
    requires j < 8
  {
    b & OneBit(j) != 0
  }

  predicate Bit(a: Address, i: nat)
    requires i < 8 * |a|
  {
    BitOf(a[i / 8], i % 8)
  }

  datatype Prefix = Prefix(addr: Address, bits: nat)

  predicate Valid(p: Prefix) {
    p.bits <= 8 * |p.addr|
  }

  /** Section 2.3 of RFC 4291: the addresses of the family that share the prefix's leading bits. */
  ghost predicate Contains(p: Prefix, a: Address)
    requires Valid(p)
  {
    |a| == |p.addr| && forall i :: 0 <= i < p.bits ==> Bit(a, i) == Bit(p.addr, i)
  }

  // ---------------------------------------------------------------- masking and flipping

  /** How many of the first `bits` bits lie in byte `k`. */
  function BitsIn(bits: nat, k: nat): (n: nat)
    ensures n <= 8
  {
    if bits <= 8 * k then 0 else if bits >= 8 * k + 8 then 8 else bits - 8 * k
  }

  function Masked(p: Prefix): (r: Prefix)
    requires Valid(p)
    ensures Valid(r) && r.bits == p.bits && |r.addr| == |p.addr|
    ensures forall k :: 0 <= k < |p.addr| ==> r.addr[k] == p.addr[k] & KeepMask(BitsIn(p.bits, k))
  {
    Prefix(seq(|p.addr|, k requires 0 <= k < |p.addr| => p.addr[k] & KeepMask(BitsIn(p.bits, k))), p.bits)
  }

  lemma KeptBits(b: bv8, n: nat, j: nat)
    requires n <= 8 && j < 8
    ensures BitOf(b & KeepMask(n), j) == (j < n && BitOf(b, j))
  {
  }

  lemma FlippedBit(b: bv8, k: nat)
    requires k < 8
    ensures BitOf(b ^ OneBit(k), k) == !BitOf(b, k)
  {
  }

  lemma OneBitEach(j: nat, k: nat)
    requires j < 8 && k < 8 && j != k
    ensures OneBit(k) & OneBit(j) == 0
  {
  }

  lemma OtherBits(b: bv8, flip: bv8, other: bv8)
    requires flip & other == 0
    ensures (b ^ flip) & other == b & other
  {
  }

  /** Flipping one bit of one byte flips that bit of the address and no other. */
  lemma FlippedBits(a: Address, bit: nat, i: nat)
    requires bit < 8 * |a| && i < 8 * |a|
    ensures Bit(a[bit / 8 := a[bit / 8] ^ OneBit(bit % 8)], i) == if i == bit then !Bit(a, i) else Bit(a, i)
  {
    if i == bit {
      FlippedBit(a[bit / 8], bit % 8);
    } else if i / 8 == bit / 8 {
      OneBitEach(i % 8, bit % 8);
      OtherBits(a[bit / 8], OneBit(bit % 8), OneBit(i % 8));
    }
  }

  lemma MaskedBits(p: Prefix, i: nat)
    requires Valid(p) && i < 8 * |p.addr|
    ensures Bit(Masked(p).addr, i) == (i < p.bits && Bit(p.addr, i))
  {
    KeptBits(p.addr[i / 8], BitsIn(p.bits, i / 8), i % 8);
  }

  /** The other half of the parent: the last bit of the prefix differs and no other does. */
  ghost predicate IsSibling(p: Prefix, r: Prefix)
    requires Valid(p) && 0 < p.bits
  {
    && Valid(r) && r.bits == p.bits && |r.addr| == |p.addr|
    && forall i :: 0 <= i < 8 * |p.addr| ==>
      Bit(r.addr, i) == if i == p.bits - 1 then !Bit(p.addr, i) else i < p.bits && Bit(p.addr, i)
  }

  lemma FlippedAndMasked(p: Prefix, bit: nat)
    requires Valid(p) && p.bits == bit + 1
    ensures IsSibling(p, Masked(Prefix(p.addr[bit / 8 := p.addr[bit / 8] ^ OneBit(bit % 8)], p.bits)))
  {
    var flipped := p.addr[bit / 8 := p.addr[bit / 8] ^ OneBit(bit % 8)];
    OneBitFlipped(p.addr, bit, flipped);
    MaskedFlip(p, flipped, Masked(Prefix(flipped, p.bits)));
  }

  lemma OneBitFlipped(a: Address, bit: nat, flipped: Address)
    requires bit < 8 * |a| && flipped == a[bit / 8 := a[bit / 8] ^ OneBit(bit % 8)]
    ensures forall i :: 0 <= i < 8 * |a| ==> Bit(flipped, i) == if i == bit then !Bit(a, i) else Bit(a, i)
  {
    forall i | 0 <= i < 8 * |a| ensures Bit(flipped, i) == if i == bit then !Bit(a, i) else Bit(a, i) {
      FlippedBits(a, bit, i);
    }
  }

  lemma MaskedFlip(p: Prefix, flipped: Address, r: Prefix)
    requires Valid(p) && 0 < p.bits && |flipped| == |p.addr| && r == Masked(Prefix(flipped, p.bits))
    requires forall i :: 0 <= i < 8 * |p.addr| ==>
      Bit(flipped, i) == if i == p.bits - 1 then !Bit(p.addr, i) else Bit(p.addr, i)
    ensures IsSibling(p, r)
  {
    forall i | 0 <= i < 8 * |p.addr| ensures Bit(r.addr, i) == (i < p.bits && Bit(flipped, i)) {
      MaskedBits(Prefix(flipped, p.bits), i);
    }
  }

  /** `siblingOf`: flipping one bit of one byte in place flips exactly the last bit of the prefix. */
  method SiblingOf(p: Prefix) returns (r: Prefix)
    requires Valid(p) && 0 < p.bits
    ensures IsSibling(p, r)
  {
    var b := new bv8[|p.addr|](i requires 0 <= i < |p.addr| => p.addr[i]);
    var bit := p.bits - 1;
    b[bit / 8] := b[bit / 8] ^ OneBit(bit % 8);
    assert b[..] == p.addr[bit / 8 := p.addr[bit / 8] ^ OneBit(bit % 8)];
    FlippedAndMasked(p, bit);
    r := Masked(Prefix(b[..], p.bits));
  }

  // ---------------------------------------------------------------- prefixes are nested or apart

  function Min(a: nat, b: nat): nat {
    if a < b then a else b
  }

  ghost predicate AgreeFor(a: Address, b: Address, n: nat)
    requires n <= 8 * |a| && n <= 8 * |b|
  {
    forall i :: 0 <= i < n ==> Bit(a, i) == Bit(b, i)
  }

  /** `netip.Prefix.Overlaps`: of one family, and alike on the shorter prefix. */
  ghost predicate Overlaps(p: Prefix, q: Prefix)
    requires Valid(p) && Valid(q)
  {
    |p.addr| == |q.addr| && AgreeFor(p.addr, q.addr, Min(p.bits, q.bits))
  }

  method TestOverlap(p: Prefix, q: Prefix) returns (overlap: bool)
    requires Valid(p) && Valid(q)
    ensures overlap == Overlaps(p, q)
  {
    if |p.addr| != |q.addr| {
      return false;
    }
    var n := Min(p.bits, q.bits);
    for i := 0 to n
      invariant AgreeFor(p.addr, q.addr, i)
    {
      if Bit(p.addr, i) != Bit(q.addr, i) {
        return false;
      }
    }
    overlap := true;
  }

  lemma ApartUnlessOverlapping(p: Prefix, q: Prefix, a: Address)
    requires Valid(p) && Valid(q) && Contains(p, a) && Contains(q, a)
    ensures Overlaps(p, q)
  {
  }

  lemma InsideWhenNoShorter(p: Prefix, q: Prefix, a: Address)
    requires Valid(p) && Valid(q) && Overlaps(p, q) && q.bits <= p.bits && Contains(p, a)
    ensures Contains(q, a)
  {
    forall i | 0 <= i < q.bits ensures Bit(a, i) == Bit(q.addr, i) {
      assert Bit(a, i) == Bit(p.addr, i);
    }
  }

  // ---------------------------------------------------------------- base minus hole

  /** The addresses that leave the hole at bit `n - 1` and not before. */
  ghost predicate LeavesAt(hole: Prefix, n: nat, a: Address)
    requires Valid(hole) && 0 < n <= hole.bits
  {
    && |a| == |hole.addr|
    && AgreeFor(a, hole.addr, n - 1)
    && Bit(a, n - 1) != Bit(hole.addr, n - 1)
  }

  /** Each piece holds exactly the addresses that leave the hole at its last bit. */
  ghost predicate IsPiece(p: Prefix, hole: Prefix, n: nat)
    requires Valid(hole) && 0 < n <= hole.bits
  {
    Valid(p) && p.bits == n && forall a :: Contains(p, a) <==> LeavesAt(hole, n, a)
  }

  method PieceAt(hole: Prefix, n: nat) returns (p: Prefix)
    requires Valid(hole) && 0 < n <= hole.bits
    ensures IsPiece(p, hole, n)
  {
    var inside := Masked(Prefix(hole.addr, n));
    p := SiblingOf(inside);
    forall i | 0 <= i < n ensures Bit(p.addr, i) == if i == n - 1 then !Bit(hole.addr, i) else Bit(hole.addr, i) {
      MaskedBits(Prefix(hole.addr, n), i);
    }
    forall a ensures Contains(p, a) <==> LeavesAt(hole, n, a) {
      PieceHolds(p, hole, n, a);
    }
  }

  lemma PieceHolds(p: Prefix, hole: Prefix, n: nat, a: Address)
    requires Valid(hole) && 0 < n <= hole.bits && Valid(p) && p.bits == n && |p.addr| == |hole.addr|
    requires forall i :: 0 <= i < n ==> Bit(p.addr, i) == if i == n - 1 then !Bit(hole.addr, i) else Bit(hole.addr, i)
    ensures Contains(p, a) <==> LeavesAt(hole, n, a)
  {
    if Contains(p, a) {
      forall i | 0 <= i < n - 1 ensures Bit(a, i) == Bit(hole.addr, i) {
        assert Bit(a, i) == Bit(p.addr, i);
      }
      assert Bit(a, n - 1) == Bit(p.addr, n - 1);
    }
    if LeavesAt(hole, n, a) {
      forall i | 0 <= i < n ensures Bit(a, i) == Bit(p.addr, i) {
      }
    }
  }

  ghost predicate Covered(ps: seq<Prefix>, a: Address) {
    exists k :: 0 <= k < |ps| && Valid(ps[k]) && Contains(ps[k], a)
  }

  ghost predicate Pieces(ps: seq<Prefix>, hole: Prefix, from: nat)
    requires Valid(hole)
  {
    from + |ps| <= hole.bits && forall k :: 0 <= k < |ps| ==> IsPiece(ps[k], hole, from + 1 + k)
  }

  /** Pieces that leave the hole at different bits hold no address in common. */
  lemma PiecesAreDisjoint(ps: seq<Prefix>, hole: Prefix, from: nat, j: nat, k: nat, a: Address)
    requires Valid(hole) && Pieces(ps, hole, from) && j < k < |ps|
    ensures !(Contains(ps[j], a) && Contains(ps[k], a))
  {
    assert IsPiece(ps[j], hole, from + 1 + j) && IsPiece(ps[k], hole, from + 1 + k);
    if LeavesAt(hole, from + 1 + k, a) {
      assert Bit(a, from + j) == Bit(hole.addr, from + j);
    }
  }

  lemma {:induction false} LeavesSomewhere(hole: Prefix, from: nat, end: nat, a: Address) returns (n: nat)
    requires Valid(hole) && from <= end <= hole.bits && |a| == |hole.addr|
    requires AgreeFor(a, hole.addr, from) && !AgreeFor(a, hole.addr, end)
    ensures from < n <= end && LeavesAt(hole, n, a)
    decreases end
  {
    if AgreeFor(a, hole.addr, end - 1) {
      n := end;
    } else {
      n := LeavesSomewhere(hole, from, end - 1, a);
    }
  }

  /** Together the pieces are the base without the hole. */
  lemma PiecesCover(base: Prefix, hole: Prefix, ps: seq<Prefix>, a: Address)
    requires Valid(base) && Valid(hole) && Overlaps(base, hole) && base.bits <= hole.bits
    requires Pieces(ps, hole, base.bits) && |ps| == hole.bits - base.bits
    ensures Covered(ps, a) <==> Contains(base, a) && !Contains(hole, a)
  {
    if Covered(ps, a) {
      var k :| 0 <= k < |ps| && Valid(ps[k]) && Contains(ps[k], a);
      assert IsPiece(ps[k], hole, base.bits + 1 + k);
      assert LeavesAt(hole, base.bits + 1 + k, a);
      forall i | 0 <= i < base.bits ensures Bit(a, i) == Bit(base.addr, i) {
        assert Bit(a, i) == Bit(hole.addr, i);
      }
    }
    if Contains(base, a) && !Contains(hole, a) {
      forall i | 0 <= i < base.bits ensures Bit(a, i) == Bit(hole.addr, i) {
        assert Bit(a, i) == Bit(base.addr, i);
      }
      var n := LeavesSomewhere(hole, base.bits, hole.bits, a);
      assert IsPiece(ps[n - base.bits - 1], hole, n);
    }
  }

  ghost predicate PairwiseApart(ps: seq<Prefix>) {
    forall j, k, a :: 0 <= j < k < |ps| && Valid(ps[j]) && Valid(ps[k]) ==> !(Contains(ps[j], a) && Contains(ps[k], a))
  }

  /** CIDR subtraction is exact: one prefix for each bit between the two, pairwise disjoint, holding
      together exactly the addresses of the base outside the hole. */
  method PrefixesWithout(base: Prefix, hole: Prefix) returns (out: seq<Prefix>)
    requires Valid(base) && Valid(hole) && Overlaps(base, hole)
    ensures forall k :: 0 <= k < |out| ==> Valid(out[k])
    ensures |out| == if base.bits < hole.bits then hole.bits - base.bits else 0
    ensures PairwiseApart(out)
    ensures forall a :: Covered(out, a) <==> Contains(base, a) && !Contains(hole, a)
  {
    if base.bits >= hole.bits {
      out := [];
      forall a ensures !(Contains(base, a) && !Contains(hole, a)) {
        if Contains(base, a) {
          InsideWhenNoShorter(base, hole, a);
        }
      }
      return;
    }
    out := [];
    for bits := base.bits + 1 to hole.bits + 1
      invariant |out| == bits - base.bits - 1
      invariant Pieces(out, hole, base.bits)
    {
      var piece := PieceAt(hole, bits);
      out := out + [piece];
    }
    forall k | 0 <= k < |out| ensures Valid(out[k]) {
      assert IsPiece(out[k], hole, base.bits + 1 + k);
    }
    forall a ensures Covered(out, a) <==> Contains(base, a) && !Contains(hole, a) {
      PiecesCover(base, hole, out, a);
    }
    forall j, k, a | 0 <= j < k < |out| ensures !(Contains(out[j], a) && Contains(out[k], a)) {
      PiecesAreDisjoint(out, hole, base.bits, j, k, a);
    }
  }

  lemma CoveredConcat(ps: seq<Prefix>, qs: seq<Prefix>, a: Address)
    ensures Covered(ps + qs, a) <==> Covered(ps, a) || Covered(qs, a)
  {
    if Covered(ps, a) {
      var k :| 0 <= k < |ps| && Valid(ps[k]) && Contains(ps[k], a);
      assert (ps + qs)[k] == ps[k];
    }
    if Covered(qs, a) {
      var k :| 0 <= k < |qs| && Valid(qs[k]) && Contains(qs[k], a);
      assert (ps + qs)[|ps| + k] == qs[k];
    }
    if Covered(ps + qs, a) {
      var k :| 0 <= k < |ps + qs| && Valid((ps + qs)[k]) && Contains((ps + qs)[k], a);
      if k < |ps| {
        assert ps[k] == (ps + qs)[k];
      } else {
        assert qs[k - |ps|] == (ps + qs)[k];
      }
    }
  }

  /** `localSniffExclusions`: for any list of local networks and any pool, exactly the local networks
      without the pool. */
  method LocalSniffExclusions(local: seq<Prefix>, pool: Prefix) returns (out: seq<Prefix>)
    requires Valid(pool) && forall k :: 0 <= k < |local| ==> Valid(local[k])
    ensures forall a :: Covered(out, a) <==> Covered(local, a) && !Contains(pool, a)
  {
    out := [];
    for i := 0 to |local|
      invariant forall a :: Covered(out, a) <==> Covered(local[..i], a) && !Contains(pool, a)
    {
      var kept := [local[i]];
      var overlap := TestOverlap(local[i], pool);
      if overlap {
        kept := PrefixesWithout(local[i], pool);
      }
      forall a ensures Covered(out + kept, a) <==> Covered(local[..i + 1], a) && !Contains(pool, a) {
        assert local[..i + 1] == local[..i] + [local[i]];
        CoveredConcat(local[..i], [local[i]], a);
        CoveredConcat(out, kept, a);
        OneCovered(local[i], a);
        if !overlap && Contains(local[i], a) && Contains(pool, a) {
          ApartUnlessOverlapping(local[i], pool, a);
        }
      }
      out := out + kept;
    }
    assert local[..|local|] == local;
  }

  lemma OneCovered(p: Prefix, a: Address)
    requires Valid(p)
    ensures Covered([p], a) <==> Contains(p, a)
  {
    if Contains(p, a) {
      assert [p][0] == p;
    }
  }
}
