/** Counting the ones of a bit vector. */
module HammingSpec {
  import opened Bits

  /** The ones among positions lo..hi. */
  function Ones(s: seq<bool>, lo: nat, hi: nat): nat
    requires lo <= hi <= |s|
    decreases hi
  {
    if lo == hi then 0 else Ones(s, lo, hi - 1) + Bit(s[hi - 1])
  }

  lemma {:induction false} OnesSplit(s: seq<bool>, lo: nat, mid: nat, hi: nat)
    requires lo <= mid <= hi <= |s|
    ensures Ones(s, lo, hi) == Ones(s, lo, mid) + Ones(s, mid, hi)
    decreases hi
  {
    if mid < hi {
      OnesSplit(s, lo, mid, hi - 1);
    }
  }

  /** The positions of these ones. */
  function OnePositions(s: seq<bool>, lo: nat, hi: nat): set<nat>
    requires lo <= hi <= |s|
  {
    set i: nat | lo <= i < hi && s[i]
  }

  lemma {:induction false} OnesAre(s: seq<bool>, lo: nat, hi: nat)
    requires lo <= hi <= |s|
    ensures Ones(s, lo, hi) == |OnePositions(s, lo, hi)|
    decreases hi
  {
    if lo == hi {
      assert OnePositions(s, lo, hi) == {};
    } else {
      OnesAre(s, lo, hi - 1);
      assert OnePositions(s, lo, hi) == OnePositions(s, lo, hi - 1) + if s[hi - 1] then {hi - 1} else {};
    }
  }

  function Popcount(n: nat): nat {
    if n == 0 then 0 else n % 2 + Popcount(n / 2)
  }

  /** The ones of a number are those of the bits that spell it. */
  lemma {:induction false} PopcountIs(s: seq<bool>)
    ensures Popcount(Num(s)) == |OnePositions(s, 0, |s|)|
  {
    OnesAre(s, 0, |s|);
    PopcountOnes(s);
  }

  lemma {:induction false} PopcountOnes(s: seq<bool>)
    ensures Popcount(Num(s)) == Ones(s, 0, |s|)
  {
    NumLow(s);
    if s != [] {
      PopcountOnes(s[1..]);
      OnesSplit(s, 0, 1, |s|);
      OnesShift(s, |s|);
      assert Num(s) / 2 == Num(s[1..]) && Num(s) % 2 == Bit(s[0]);
      assert Ones(s, 0, 1) == Bit(s[0]) + Ones(s, 0, 0);
    }
  }

  lemma {:induction false} OnesShift(s: seq<bool>, n: nat)
    requires 0 < n <= |s|
    ensures Ones(s, 1, n) == Ones(s[1..], 0, n - 1)
  {
    if n > 1 {
      OnesShift(s, n - 1);
    }
  }

  /** The exact form of floor(log2(n)). */
  function FloorLog2(n: nat): (k: nat)
    requires n > 0
    ensures Pow2(k) <= n < Pow2(k + 1)
  {
    if n == 1 then 0 else FloorLog2(n / 2) + 1
  }

  /** A power of two above u contributes one. */
  lemma {:induction false} PopcountTop(k: nat, u: nat)
    requires u < Pow2(k)
    ensures Popcount(Pow2(k) + u) == 1 + Popcount(u)
  {
    if k > 0 {
      assert (Pow2(k) + u) / 2 == Pow2(k - 1) + u / 2 && (Pow2(k) + u) % 2 == u % 2;
      PopcountTop(k - 1, u / 2);
    } else {
      assert Popcount(1) == 1;
    }
  }

  lemma {:induction false} PopcountBelow(k: nat)
    ensures Popcount(Pow2(k) - 1) == k
  {
    if k > 0 {
      assert (Pow2(k) - 1) / 2 == Pow2(k - 1) - 1 && (Pow2(k) - 1) % 2 == 1;
      PopcountBelow(k - 1);
    }
  }

  lemma {:induction false} PopcountBound(n: nat)
    ensures Popcount(n) <= n
  {
    if n > 0 {
      PopcountBound(n / 2);
    }
  }

  /** AND gates of the recursive construction. */
  function HammingAnds(n: nat): nat {
    PopcountBound(n);
    n - Popcount(n)
  }

  lemma FloorLog2Unique(n: nat, k: nat)
    requires n > 0 && Pow2(k) <= n < Pow2(k + 1)
    ensures FloorLog2(n) == k
  {
    var f := FloorLog2(n);
    if f < k {
      Pow2Monotone(f + 1, k);
    } else if k < f {
      Pow2Monotone(k + 1, f);
    }
  }

  /** How the recursion splits n inputs: 2^k - 1 to the left, u to the right, one as carry. */
  lemma HammingSplit(n: nat, k: nat, u: nat)
    requires n > 3 && k == FloorLog2(n) && u == n - Pow2(k)
    ensures k >= 2 && u < Pow2(k) && FloorLog2(Pow2(k) - 1) == k - 1
    ensures u > 0 ==> FloorLog2(u) < k
    ensures HammingAnds(Pow2(k) - 1) + HammingAnds(u) + k == HammingAnds(n)
  {
    assert Pow2(0) == 1 && Pow2(1) == 2 && Pow2(2) == 4;
    assert Pow2(k) == 2 * Pow2(k - 1) && Pow2(k - 1) >= 2;
    FloorLog2Unique(Pow2(k) - 1, k - 1);
    if u > 0 && FloorLog2(u) >= k {
      Pow2Monotone(k, FloorLog2(u));
    }
    PopcountTop(k, u);
    PopcountBelow(k);
  }
}

/** The recursive Hamming weight circuit. */
module Hamming {
  import opened Bits
  import opened Addition
  import opened HammingSpec
  import opened Circuit
  import opened Builder
  import opened Adders
  import opened Multiplier

  /** The largest number of bits a share may have. */
  const MAX_BITLENGTH := 32

  /** Sum and carry of three bits with a single AND gate. */
  method PutFullAdderGate(bc: BooleanCircuit, a: nat, b: nat, carry_in: nat, ghost r: nat) returns (out: seq<nat>)
    requires bc.Valid() && bc.Wire(a) && bc.Wire(b) && bc.Wire(carry_in)
    requires bc.ReadyAt(a) <= r && bc.ReadyAt(b) <= r && bc.ReadyAt(carry_in) <= r
    modifies bc
    ensures bc.Valid() && bc.Extends() && bc.AndCount() == old(bc.AndCount()) + bc.width
    ensures bc.Holds(out, old([(bc.Val(a) != bc.Val(b)) != bc.Val(carry_in),
                               Majority(bc.Val(a), bc.Val(b), bc.Val(carry_in))]), r + 1)
  {
    var a_xor_b := bc.PutXORGate(a, b);
    var b_xor_c := bc.PutXORGate(b, carry_in);
    var t := bc.PutANDGate(a_xor_b, b_xor_c);
    var carry := bc.PutXORGate(t, b);
    var sum := bc.PutXORGate(a_xor_b, carry_in);
    out := [sum, carry];
  }

  /** The carry into position i of an addition that starts with a carry. */
  predicate CarryFrom(a: seq<bool>, b: seq<bool>, c: bool, i: nat)
    requires i <= |a| == |b|
  {
    if i == 0 then c else Majority(a[i - 1], b[i - 1], CarryFrom(a, b, c, i - 1))
  }

  function SumFrom(a: seq<bool>, b: seq<bool>, c: bool): (s: seq<bool>)
    requires |a| == |b|
    ensures |s| == |a|
  {
    seq(|a|, i requires 0 <= i < |a| => (a[i] != b[i]) != CarryFrom(a, b, c, i))
  }

  lemma {:induction false} SumFromInvariant(a: seq<bool>, b: seq<bool>, c: bool, n: nat)
    requires n <= |a| == |b|
    ensures Value(a, n) + Value(b, n) + Bit(c) == Value(SumFrom(a, b, c), n) + Weight(CarryFrom(a, b, c, n), n)
  {
    if n > 0 {
      SumFromInvariant(a, b, c, n - 1);
    } else {
      assert Pow2(0) == 1;
    }
  }

  /** A chain of full adders with a carry in; the carry out is kept while the share may grow. */
  method PutADDChainGate(bc: BooleanCircuit, a0: seq<nat>, b0: seq<nat>, carry_in: nat,
                         ghost va0: seq<bool>, ghost vb0: seq<bool>, ghost r: nat)
    returns (out: seq<nat>, ghost ov: seq<bool>, ghost depth: nat)
    requires bc.Valid() && bc.Holds(a0, va0, r) && bc.Holds(b0, vb0, r) && |a0| > 0
    requires bc.Wire(carry_in) && bc.ReadyAt(carry_in) <= r
    modifies bc
    ensures bc.Valid() && bc.Extends() && bc.Holds(out, ov, depth) && depth >= r
    ensures bc.AndCount() == old(bc.AndCount()) + Times(Max(|a0|, |b0|), bc.width)
    ensures var n, total := Max(|a0|, |b0|), Num(va0) + Num(vb0) + Bit(old(bc.Val(carry_in)));
            if n < MAX_BITLENGTH then |ov| == n + 1 && Num(ov) == total else |ov| == n && Num(ov) == Wrap(total, n)
  {
    ghost var va, vb, c := Pad(va0, |vb0|), Pad(vb0, |va0|), bc.Val(carry_in);
    var a, b := PadWithLeadingZeros(bc, a0, b0, va0, vb0, r);
    var carry;
    out, carry := PutFullAdders(bc, a, b, carry_in, va, vb, r);
    ov, depth := SumFrom(va, vb, c), r + |a|;
    ghost var top := CarryFrom(va, vb, c, |a|);
    ChainSum(va, vb, c);
    if |out| < MAX_BITLENGTH {
      bc.HoldsSnoc(out, ov, carry, top, depth);
      out, ov := out + [carry], ov + [top];
    }
  }

  lemma ChainSum(a: seq<bool>, b: seq<bool>, c: bool)
    requires |a| == |b|
    ensures Num(SumFrom(a, b, c) + [CarryFrom(a, b, c, |a|)]) == Num(a) + Num(b) + Bit(c)
    ensures Num(SumFrom(a, b, c)) == Wrap(Num(a) + Num(b) + Bit(c), |a|)
  {
    var sum, top := SumFrom(a, b, c), CarryFrom(a, b, c, |a|);
    SumFromInvariant(a, b, c, |a|);
    NumSnoc(sum, top);
    ValueBound(sum, |sum|);
    WrapOf(Num(a) + Num(b) + Bit(c), Num(sum), |sum|, top);
  }

  /** One full adder per position. */
  method PutFullAdders(bc: BooleanCircuit, a: seq<nat>, b: seq<nat>, carry_in: nat,
                       ghost va: seq<bool>, ghost vb: seq<bool>, ghost r: nat) returns (out: seq<nat>, carry: nat)
    requires bc.Valid() && bc.Holds(a, va, r) && bc.Holds(b, vb, r) && |a| == |b|
    requires bc.Wire(carry_in) && bc.ReadyAt(carry_in) <= r
    modifies bc
    ensures bc.Valid() && bc.Extends() && bc.AndCount() == old(bc.AndCount()) + Times(|a|, bc.width)
    ensures bc.Holds(out, SumFrom(va, vb, old(bc.Val(carry_in))), r + |a|)
    ensures bc.Wire(carry) && bc.ReadyAt(carry) <= r + |a| && bc.Val(carry) == CarryFrom(va, vb, old(bc.Val(carry_in)), |a|)
  {
    ghost var c := bc.Val(carry_in);
    ghost var sum := SumFrom(va, vb, c);
    out, carry := [], carry_in;
    for i := 0 to |a|
      invariant bc.Valid() && bc.Extends() && bc.Holds(a, va, r) && bc.Holds(b, vb, r)
      invariant bc.Wire(carry) && bc.ReadyAt(carry) <= r + i && bc.Val(carry) == CarryFrom(va, vb, c, i)
      invariant bc.Holds(out, sum[..i], r + i)
      invariant bc.AndCount() == old(bc.AndCount()) + Times(i, bc.width)
    {
      var last := PutFullAdderGate(bc, a[i], b[i], carry, r + i);
      assert sum[..i + 1] == sum[..i] + [sum[i]];
      bc.HoldsSnoc(out, sum[..i], last[0], sum[i], r + i + 1);
      out, carry := out + [last[0]], last[1];
    }
    assert sum[..|a|] == sum;
  }

  /** The count of bits start..start + bitlen, in floor(log2 bitlen) + 1 bits. */
  method PutHammingWeightGateRec(bc: BooleanCircuit, wires: seq<nat>, start: nat, bitlen: nat, ghost bits: seq<bool>, ghost r: nat)
    returns (out: seq<nat>, ghost ov: seq<bool>, ghost depth: nat)
    requires bc.Valid() && bc.Holds(wires, bits, r) && start < |wires| && start + bitlen <= |wires|
    requires bitlen < Pow2(MAX_BITLENGTH)
    modifies bc
    ensures bc.Valid() && bc.Extends() && bc.Holds(out, ov, depth) && depth >= r
    ensures |ov| == (if bitlen == 0 then 1 else FloorLog2(bitlen) + 1)
    ensures Num(ov) == Ones(bits, start, start + bitlen)
    ensures bc.AndCount() == old(bc.AndCount()) + Times(HammingAnds(bitlen), bc.width)
    decreases bitlen, 1
  {
    var zero_wire := bc.PutConstantGate(false, wires[start]);
    if bitlen > 3 {
      out, ov, depth := PutHammingSplit(bc, wires, start, bitlen, zero_wire, bits, r);
    } else {
      out, ov, depth := PutSmallCount(bc, wires, start, bitlen, zero_wire, bits, r);
    }
  }

  /** At most three bits: one full adder, or none. */
  method PutSmallCount(bc: BooleanCircuit, wires: seq<nat>, start: nat, bitlen: nat, zero_wire: nat, ghost bits: seq<bool>, ghost r: nat)
    returns (out: seq<nat>, ghost ov: seq<bool>, ghost depth: nat)
    requires bc.Valid() && bc.Holds(wires, bits, r) && start < |wires| && start + bitlen <= |wires| && bitlen <= 3
    requires bc.Wire(zero_wire) && !bc.Val(zero_wire) && bc.ReadyAt(zero_wire) <= r
    modifies bc
    ensures bc.Valid() && bc.Extends() && bc.Holds(out, ov, depth) && depth >= r
    ensures |ov| == (if bitlen == 0 then 1 else FloorLog2(bitlen) + 1) && Num(ov) == Ones(bits, start, start + bitlen)
    ensures bc.AndCount() == old(bc.AndCount()) + Times(HammingAnds(bitlen), bc.width)
  {
    SmallCounts(bits, start, bitlen);
    depth := r;
    if bitlen > 2 {
      out := PutFullAdderGate(bc, wires[start + 2], wires[start + 1], wires[start], r);
      ov, depth := FullSum(bits[start + 2], bits[start + 1], bits[start]), r + 1;
    } else if bitlen > 1 {
      out := PutFullAdderGate(bc, wires[start + 1], wires[start], zero_wire, r);
      ov, depth := FullSum(bits[start + 1], bits[start], false), r + 1;
    } else if bitlen > 0 {
      out, ov := [wires[start]], [bits[start]];
    } else {
      out, ov := [zero_wire], [false];
    }
  }

  function FullSum(a: bool, b: bool, c: bool): seq<bool> {
    [(a != b) != c, Majority(a, b, c)]
  }

  lemma SmallCounts(bits: seq<bool>, start: nat, bitlen: nat)
    requires start < |bits| && start + bitlen <= |bits| && bitlen <= 3
    ensures HammingAnds(bitlen) == if bitlen < 2 then 0 else 1
    ensures bitlen > 0 ==> FloorLog2(bitlen) == if bitlen == 1 then 0 else 1
    ensures Num([false]) == 0
    ensures bitlen == 0 ==> Ones(bits, start, start + bitlen) == 0
    ensures bitlen == 1 ==> Ones(bits, start, start + bitlen) == Num([bits[start]])
    ensures bitlen == 2 ==> Ones(bits, start, start + bitlen) == Num(FullSum(bits[start + 1], bits[start], false))
    ensures bitlen == 3 ==> Ones(bits, start, start + bitlen) == Num(FullSum(bits[start + 2], bits[start + 1], bits[start]))
  {
    assert Popcount(0) == 0 && Popcount(1) == 1 && Popcount(2) == 1 && Popcount(3) == 2;
    assert Pow2(0) == 1 && Pow2(1) == 2 && Pow2(2) == 4;
    OneBitNum([false]);
    OneBitNum([bits[start]]);
    if bitlen > 0 {
      assert Ones(bits, start, start) == 0 && Ones(bits, start, start + 1) == Bit(bits[start]);
    }
    if bitlen >= 2 {
      FloorLog2Unique(bitlen, 1);
      FullSumNum(bits[start + 1], bits[start], false);
      assert Ones(bits, start, start + 2) == Bit(bits[start]) + Bit(bits[start + 1]);
    }
    if bitlen == 3 {
      FullSumNum(bits[start + 2], bits[start + 1], bits[start]);
    }
  }

  lemma FullSumNum(a: bool, b: bool, c: bool)
    ensures Num(FullSum(a, b, c)) == Bit(a) + Bit(b) + Bit(c)
  {
    var s := FullSum(a, b, c);
    assert Pow2(0) == 1 && Pow2(1) == 2;
    assert Value(s, 0) == 0 && Value(s, 1) == Bit(s[0]) && Value(s, 2) == Bit(s[0]) + 2 * Bit(s[1]);
  }

  /** The lower and the upper part are counted on their own, the first bit goes in as carry. */
  method PutHammingSplit(bc: BooleanCircuit, wires: seq<nat>, start: nat, bitlen: nat, zero_wire: nat,
                         ghost bits: seq<bool>, ghost r: nat)
    returns (out: seq<nat>, ghost ov: seq<bool>, ghost depth: nat)
    requires bc.Valid() && bc.Holds(wires, bits, r) && start + bitlen <= |wires|
    requires bc.Wire(zero_wire) && !bc.Val(zero_wire) && bc.ReadyAt(zero_wire) <= r
    requires 3 < bitlen < Pow2(MAX_BITLENGTH)
    modifies bc
    ensures bc.Valid() && bc.Extends() && bc.Holds(out, ov, depth) && depth >= r
    ensures |ov| == FloorLog2(bitlen) + 1 && Num(ov) == Ones(bits, start, start + bitlen)
    ensures bc.AndCount() == old(bc.AndCount()) + Times(HammingAnds(bitlen), bc.width)
    decreases bitlen, 0
  {
    var k := FloorLog2(bitlen);
    var bitlen_v := Pow2(k) - 1;
    var bitlen_u := bitlen - bitlen_v - 1;
    var pos: nat := start + bitlen - bitlen_v;
    SplitFacts(bitlen, k, bitlen_v, bitlen_u, bc.width);
    var v, u, vv, uv, dv := PutBothCounts(bc, wires, start, bitlen, pos, bitlen_v, bitlen_u, zero_wire, bits, r);
    assert Max(|v|, |u|) == k && bc.Val(wires[start]) == bits[start];
    out, ov, depth := PutCountSum(bc, v, u, wires[start], k, vv, uv, dv);
  }

  /** Two counts of at most k bits and one more bit, in k + 1 bits. */
  method PutCountSum(bc: BooleanCircuit, v: seq<nat>, u: seq<nat>, first: nat, ghost k: nat, ghost vv: seq<bool>, ghost uv: seq<bool>, ghost r: nat)
    returns (out: seq<nat>, ghost ov: seq<bool>, ghost depth: nat)
    requires bc.Valid() && bc.Holds(v, vv, r) && bc.Holds(u, uv, r) && bc.Wire(first) && bc.ReadyAt(first) <= r
    requires |v| > 0 && Max(|v|, |u|) == k < MAX_BITLENGTH
    modifies bc
    ensures bc.Valid() && bc.Extends() && bc.Holds(out, ov, depth) && depth >= r
    ensures |ov| == k + 1 && Num(ov) == Bit(old(bc.Val(first))) + Num(vv) + Num(uv)
    ensures bc.AndCount() == old(bc.AndCount()) + Times(k, bc.width)
  {
    out, ov, depth := PutADDChainGate(bc, v, u, first, vv, uv, r);
  }

  /** The counts of the lower and of the upper part. */
  method PutBothCounts(bc: BooleanCircuit, wires: seq<nat>, start: nat, ghost bitlen: nat, pos: nat, bitlen_v: nat, bitlen_u: nat,
                       zero_wire: nat, ghost bits: seq<bool>, ghost r: nat)
    returns (v: seq<nat>, u: seq<nat>, ghost vv: seq<bool>, ghost uv: seq<bool>, ghost depth: nat)
    requires bc.Valid() && bc.Holds(wires, bits, r) && start + bitlen <= |wires|
    requires pos == start + 1 + bitlen_u && bitlen == 1 + bitlen_u + bitlen_v
    requires bc.Wire(zero_wire) && !bc.Val(zero_wire) && bc.ReadyAt(zero_wire) <= r
    requires 0 < bitlen_v < Pow2(MAX_BITLENGTH) && bitlen_u < Pow2(MAX_BITLENGTH)
    modifies bc
    ensures bc.Valid() && bc.Extends() && bc.Holds(v, vv, depth) && bc.Holds(u, uv, depth) && depth >= r
    ensures |vv| == FloorLog2(bitlen_v) + 1 && |uv| == if bitlen_u == 0 then 1 else FloorLog2(bitlen_u) + 1
    ensures Bit(bits[start]) + Num(vv) + Num(uv) == Ones(bits, start, start + bitlen)
    ensures bc.AndCount() == old(bc.AndCount()) + Times(HammingAnds(bitlen_v), bc.width) + Times(HammingAnds(bitlen_u), bc.width)
    decreases bitlen_v + bitlen_u, 3
  {
    CountSplit(bits, start, bitlen_u, bitlen);
    v, vv, depth := PutHammingWeightGateRec(bc, wires, pos, bitlen_v, bits, r);
    u, uv, depth := PutCountOrZero(bc, wires, start + 1, bitlen_u, zero_wire, bits, depth);
  }

  /** The count of a part that may be empty. */
  method PutCountOrZero(bc: BooleanCircuit, wires: seq<nat>, start: nat, bitlen: nat, zero_wire: nat,
                        ghost bits: seq<bool>, ghost r: nat)
    returns (out: seq<nat>, ghost ov: seq<bool>, ghost depth: nat)
    requires bc.Valid() && bc.Holds(wires, bits, r) && start + bitlen <= |wires| && bitlen < Pow2(MAX_BITLENGTH)
    requires bc.Wire(zero_wire) && !bc.Val(zero_wire) && bc.ReadyAt(zero_wire) <= r
    modifies bc
    ensures bc.Valid() && bc.Extends() && bc.Holds(out, ov, depth) && depth >= r
    ensures |ov| == (if bitlen == 0 then 1 else FloorLog2(bitlen) + 1)
    ensures Num(ov) == Ones(bits, start, start + bitlen)
    ensures bc.AndCount() == old(bc.AndCount()) + Times(HammingAnds(bitlen), bc.width)
    decreases bitlen, 2
  {
    if bitlen > 0 {
      out, ov, depth := PutHammingWeightGateRec(bc, wires, start, bitlen, bits, r);
    } else {
      out, ov, depth := [zero_wire], [false], r;
      OneBitNum(ov);
      assert Popcount(0) == 0;
    }
  }

  /** Widths, counts and AND gates of the two parts. */
  lemma SplitFacts(n: nat, k: nat, v: nat, u: nat, w: nat)
    requires 3 < n < Pow2(MAX_BITLENGTH) && k == FloorLog2(n) && v == Pow2(k) - 1 && u == n - v - 1
    ensures 0 < v < n && u < n && 0 < k < MAX_BITLENGTH && FloorLog2(v) + 1 == k && (u > 0 ==> FloorLog2(u) + 1 <= k)
    ensures Times(HammingAnds(n), w) == Times(HammingAnds(v), w) + Times(HammingAnds(u), w) + Times(k, w)
  {
    HammingSplit(n, k, u);
    AndsSplit(v, u, k, n, w);
    ShortLog(n, k);
  }

  lemma CountSplit(bits: seq<bool>, start: nat, u: nat, n: nat)
    requires start + n <= |bits| && u < n
    ensures Ones(bits, start, start + n) ==
            Bit(bits[start]) + Ones(bits, start + 1, start + 1 + u) + Ones(bits, start + 1 + u, start + n)
  {
    OnesSplit(bits, start, start + 1, start + n);
    OnesSplit(bits, start + 1, start + 1 + u, start + n);
    assert Ones(bits, start, start) == 0;
  }

  lemma AndsSplit(v: nat, u: nat, k: nat, n: nat, w: nat)
    requires HammingAnds(v) + HammingAnds(u) + k == HammingAnds(n)
    ensures Times(HammingAnds(v), w) + Times(HammingAnds(u), w) + Times(k, w) == Times(HammingAnds(n), w)
  {
    TimesAdd(HammingAnds(v), HammingAnds(u), w);
    TimesAdd(HammingAnds(v) + HammingAnds(u), k, w);
  }

  lemma ShortLog(n: nat, k: nat)
    requires 0 < n < Pow2(MAX_BITLENGTH) && k == FloorLog2(n)
    ensures k < MAX_BITLENGTH
  {
    if k >= MAX_BITLENGTH {
      Pow2Monotone(MAX_BITLENGTH, k);
    }
  }

  /**
    The number of ones among the first bitlen wires, in floor(log2 bitlen) + 1 bits and with
    bitlen - popcount(bitlen) AND gates per SIMD value.
   */
  method PutHammingWeightGate(bc: BooleanCircuit, wires: seq<nat>, bitlen: nat, ghost bits: seq<bool>, ghost r: nat)
    returns (out: seq<nat>, ghost ov: seq<bool>, ghost depth: nat)
    requires bc.Valid() && bc.Holds(wires, bits, r) && |wires| > 0 && bitlen <= |wires| && bitlen < Pow2(MAX_BITLENGTH)
    modifies bc
    ensures bc.Valid() && bc.Extends() && bc.Holds(out, ov, depth)
    ensures |ov| == (if bitlen == 0 then 1 else FloorLog2(bitlen) + 1)
    ensures Num(ov) == |OnePositions(bits, 0, bitlen)|
    ensures bc.AndCount() == old(bc.AndCount()) + (bitlen - Popcount(bitlen)) * bc.width
  {
    OnesAre(bits, 0, bitlen);
    out, ov, depth := PutHammingWeightGateRec(bc, wires, 0, bitlen, bits, r);
    TimesIsProduct(HammingAnds(bitlen), bc.width);
  }
}
