/** Binary addition bit by bit: what an adder circuit has to output. */
module Addition {
  import opened Bits

  predicate Majority(a: bool, b: bool, c: bool) {
    (a && b) || (a && c) || (b && c)
  }

  /** The carry into position i. */
  predicate Carry(a: seq<bool>, b: seq<bool>, i: nat)
    requires i <= |a| == |b|
  {
    if i == 0 then false else Majority(a[i - 1], b[i - 1], Carry(a, b, i - 1))
  }

  /** The sum without the carry out of the last position. */
  function SumBits(a: seq<bool>, b: seq<bool>): (s: seq<bool>)
    requires |a| == |b|
    ensures |s| == |a|
  {
    seq(|a|, i requires 0 <= i < |a| => (a[i] != b[i]) != Carry(a, b, i))
  }

  /** The carries into the first n positions. */
  function Carries(a: seq<bool>, b: seq<bool>, n: nat): (c: seq<bool>)
    requires n <= |a| == |b|
    ensures |c| == n && forall i | 0 <= i < n :: c[i] == Carry(a, b, i)
  {
    if n == 0 then [] else Carries(a, b, n - 1) + [Carry(a, b, n - 1)]
  }

  /** The output of an adder, with or without the carry out of the last position. */
  function AddBits(a: seq<bool>, b: seq<bool>, carry: bool): (s: seq<bool>)
    requires |a| == |b|
    ensures |s| == |a| + Bit(carry)
  {
    if carry then SumBits(a, b) + [Carry(a, b, |a|)] else SumBits(a, b)
  }

  lemma {:induction false} SumInvariant(a: seq<bool>, b: seq<bool>, n: nat)
    requires n <= |a| == |b|
    ensures Value(a, n) + Value(b, n) == Value(SumBits(a, b), n) + Weight(Carry(a, b, n), n)
  {
    if n > 0 {
      SumInvariant(a, b, n - 1);
    }
  }

  lemma SumBitsModular(a: seq<bool>, b: seq<bool>)
    requires |a| == |b|
    ensures Num(SumBits(a, b)) == Wrap(Num(a) + Num(b), |a|)
  {
    SumInvariant(a, b, |a|);
    ValueBound(SumBits(a, b), |a|);
    WrapOf(Num(a) + Num(b), Num(SumBits(a, b)), |a|, Carry(a, b, |a|));
  }

  /** Addition is exact when the carry is kept, and modulo the width otherwise. */
  lemma AddBitsCorrect(a: seq<bool>, b: seq<bool>, carry: bool)
    requires |a| == |b|
    ensures Num(AddBits(a, b, carry)) == if carry then Num(a) + Num(b) else Wrap(Num(a) + Num(b), |a|)
  {
    if carry {
      SumInvariant(a, b, |a|);
      NumSnoc(SumBits(a, b), Carry(a, b, |a|));
    } else {
      SumBitsModular(a, b);
    }
  }

  lemma WrapOf(x: nat, low: nat, n: nat, top: bool)
    requires low < Pow2(n) && x == low + if top then Pow2(n) else 0
    ensures low == Wrap(x, n)
  {
    WrapSmall(low, n);
    WrapDropTop(low, n);
  }

  /** Leading zeros do not change the number. */
  function Pad(a: seq<bool>, n: nat): (p: seq<bool>)
    ensures |p| == Max(|a|, n) && forall i | 0 <= i < |p| :: p[i] == At(a, i)
    ensures Num(p) == Num(a)
    decreases n - |a|
  {
    if n <= |a| then a
    else
      NumSnoc(a, false);
      Pad(a + [false], n)
  }

  // ----- blocks of the prefix network -----------------------------------------------------

  /** The carry that positions lo..hi produce on their own. */
  predicate Generate(a: seq<bool>, b: seq<bool>, lo: nat, hi: nat)
    requires lo <= hi < |a| == |b|
    decreases hi
  {
    if hi == lo then a[hi] && b[hi]
    else Majority(a[hi], b[hi], Generate(a, b, lo, hi - 1))
  }

  /** Whether positions lo..hi pass an incoming carry on. */
  predicate Propagate(a: seq<bool>, b: seq<bool>, lo: nat, hi: nat)
    requires lo <= hi < |a| == |b|
    decreases hi
  {
    (a[hi] != b[hi]) && (hi == lo || Propagate(a, b, lo, hi - 1))
  }

  lemma {:induction false} GenerateExcludesPropagate(a: seq<bool>, b: seq<bool>, lo: nat, hi: nat)
    requires lo <= hi < |a| == |b|
    ensures !(Generate(a, b, lo, hi) && Propagate(a, b, lo, hi))
  {
    if lo < hi {
      GenerateExcludesPropagate(a, b, lo, hi - 1);
    }
  }

  /** Two adjacent blocks combine; XOR may stand for OR because generate excludes propagate. */
  lemma {:induction false} CombineBlocks(a: seq<bool>, b: seq<bool>, lo: nat, mid: nat, hi: nat)
    requires lo <= mid < hi < |a| == |b|
    ensures Generate(a, b, lo, hi) ==
            (Generate(a, b, mid + 1, hi) != (Propagate(a, b, mid + 1, hi) && Generate(a, b, lo, mid)))
    ensures Propagate(a, b, lo, hi) == (Propagate(a, b, mid + 1, hi) && Propagate(a, b, lo, mid))
    decreases hi
  {
    GenerateExcludesPropagate(a, b, mid + 1, hi);
    if mid + 1 < hi {
      CombineBlocks(a, b, lo, mid, hi - 1);
      GenerateExcludesPropagate(a, b, mid + 1, hi - 1);
    }
  }

  lemma {:induction false} GenerateIsCarry(a: seq<bool>, b: seq<bool>, hi: nat)
    requires hi < |a| == |b|
    ensures Generate(a, b, 0, hi) == Carry(a, b, hi + 1)
  {
    if hi > 0 {
      GenerateIsCarry(a, b, hi - 1);
    }
  }

  /** Start of the aligned block of the given size that contains position j. */
  function BlockStart(j: nat, size: nat): (r: nat)
    requires size > 0
    ensures r <= j && j < r + size
  {
    j - j % size
  }

  /** The last position of the lower half of the block around j. */
  function LowerEnd(j: nat, half: nat): (id: nat)
    requires half > 0
    ensures id == BlockStart(j, 2 * half) + half - 1
  {
    var q := j / (2 * half);
    assert j == 2 * half * q + j % (2 * half);
    half + 2 * half * q - 1
  }

  predicate UpperHalf(j: nat, half: nat)
    requires half > 0
  {
    j % (2 * half) >= half
  }

  /** Where a block of size 2 * half is split: the lower half keeps its start, the upper half begins after mid. */
  lemma BlockSplit(j: nat, half: nat)
    requires half > 0
    ensures j % (2 * half) < half ==> BlockStart(j, half) == BlockStart(j, 2 * half)
    ensures j % (2 * half) >= half ==>
              BlockStart(j, half) == BlockStart(j, 2 * half) + half &&
              BlockStart(BlockStart(j, 2 * half) + half - 1, half) == BlockStart(j, 2 * half) &&
              BlockStart(BlockStart(j, 2 * half) + half - 1, 2 * half) == BlockStart(j, 2 * half) &&
              (BlockStart(j, 2 * half) + half - 1) % (2 * half) < half
  {
    var q, r := j / (2 * half), j % (2 * half);
    assert j == 2 * half * q + r;
    assert 2 * half * q == half * (2 * q);
    if r < half {
      DivModUnique(j, 2 * q, r, half);
    } else {
      assert half * (2 * q + 1) == half * (2 * q) + half;
      DivModUnique(j, 2 * q + 1, r - half, half);
      DivModUnique(2 * half * q + half - 1, 2 * q, half - 1, half);
      DivModUnique(2 * half * q + half - 1, q, half - 1, 2 * half);
    }
  }
}

/** The adders of the Boolean circuit builder. */
module Adders {
  import opened Bits
  import opened Addition
  import opened Circuit
  import opened Builder
  import opened MultiMux

  /** Both operands at the width of the longer one. */
  method PadWithLeadingZeros(bc: BooleanCircuit, a: seq<nat>, b: seq<nat>,
                             ghost va: seq<bool>, ghost vb: seq<bool>, ghost r: nat)
    returns (pa: seq<nat>, pb: seq<nat>)
    requires bc.Valid() && bc.Holds(a, va, r) && bc.Holds(b, vb, r) && |a| > 0
    modifies bc
    ensures bc.Valid() && bc.Extends()
    ensures bc.Holds(pa, Pad(va, |vb|), r) && bc.Holds(pb, Pad(vb, |va|), r)
    ensures bc.AndCount() == old(bc.AndCount())
  {
    pa, pb := a, b;
    if |a| != |b| {
      var maxlen := Max(|a|, |b|);
      var zerogate := bc.PutConstantGate(false, a[0]);
      pa := a + seq(maxlen - |a|, _ => zerogate);
      pb := b + seq(maxlen - |b|, _ => zerogate);
    }
  }

  function XorBits(a: seq<bool>, b: seq<bool>): (r: seq<bool>)
    requires |a| == |b|
    ensures |r| == |a| && forall i | 0 <= i < |r| :: r[i] == (a[i] != b[i])
  {
    seq(|a|, i requires 0 <= i < |a| => a[i] != b[i])
  }

  /** XOR wire by wire. */
  method PutXORGates(bc: BooleanCircuit, a: seq<nat>, b: seq<nat>, ghost va: seq<bool>, ghost vb: seq<bool>, ghost r: nat)
    returns (out: seq<nat>)
    requires bc.Valid() && bc.Holds(a, va, r) && bc.Holds(b, vb, r) && |a| == |b|
    modifies bc
    ensures bc.Valid() && bc.Extends() && bc.AndCount() == old(bc.AndCount()) && bc.Holds(out, XorBits(va, vb), r)
  {
    out := [];
    for k := 0 to |a|
      invariant bc.Valid() && bc.Extends() && bc.Holds(a, va, r) && bc.Holds(b, vb, r) && bc.AndCount() == old(bc.AndCount())
      invariant bc.Holds(out, XorBits(va[..k], vb[..k]), r)
    {
      var x := bc.PutXORGate(a[k], b[k]);
      assert XorBits(va[..k + 1], vb[..k + 1]) == XorBits(va[..k], vb[..k]) + [va[k] != vb[k]];
      bc.HoldsSnoc(out, XorBits(va[..k], vb[..k]), x, va[k] != vb[k], r);
      out := out + [x];
    }
    assert va[..|a|] == va && vb[..|a|] == vb;
  }

  /** The AND of a full adder: the carry out is C XOR this. */
  method PutCarryTerm(bc: BooleanCircuit, a: nat, b: nat, c: nat, ghost r: nat) returns (acNbc: nat)
    requires bc.Valid() && bc.Wire(a) && bc.Wire(b) && bc.Wire(c)
    requires bc.ReadyAt(a) <= r && bc.ReadyAt(b) <= r && bc.ReadyAt(c) <= r
    modifies bc
    ensures bc.Valid() && bc.Extends() && bc.Wire(acNbc) && bc.ReadyAt(acNbc) <= r + 1
    ensures bc.Val(acNbc) == (old(bc.Val(a) != bc.Val(c)) && old(bc.Val(b) != bc.Val(c)))
    ensures bc.AndCount() == old(bc.AndCount()) + bc.width
  {
    var axc := bc.PutXORGate(a, c);
    var bxc := bc.PutXORGate(b, c);
    acNbc := bc.PutANDGate(axc, bxc);
  }

  /** The carry out of one position. */
  method PutNextCarry(bc: BooleanCircuit, a: nat, b: nat, c: nat, ghost r: nat) returns (carry: nat)
    requires bc.Valid() && bc.Wire(a) && bc.Wire(b) && bc.Wire(c)
    requires bc.ReadyAt(a) <= r && bc.ReadyAt(b) <= r && bc.ReadyAt(c) <= r
    modifies bc
    ensures bc.Valid() && bc.Extends() && bc.Wire(carry) && bc.ReadyAt(carry) <= r + 1
    ensures bc.Val(carry) == Majority(old(bc.Val(a)), old(bc.Val(b)), old(bc.Val(c)))
    ensures bc.AndCount() == old(bc.AndCount()) + bc.width
  {
    var acNbc := PutCarryTerm(bc, a, b, c, r);
    carry := bc.PutXORGate(c, acNbc);
  }

  /** The carry chain of the ripple adder. */
  method PutCarryChain(bc: BooleanCircuit, a: seq<nat>, b: seq<nat>, ghost va: seq<bool>, ghost vb: seq<bool>, ghost r: nat)
    returns (C: seq<nat>)
    requires bc.Valid() && bc.Holds(a, va, r) && bc.Holds(b, vb, r) && |a| == |b| > 0
    modifies bc
    ensures bc.Valid() && bc.Extends() && bc.Holds(C, Carries(va, vb, |a|), r + |a|)
    ensures bc.AndCount() == old(bc.AndCount()) + Times(|a| - 1, bc.width)
  {
    var first := bc.PutXORGate(a[0], a[0]);
    C := [first];
    for i := 0 to |a| - 1
      invariant bc.Valid() && bc.Extends() && bc.Holds(a, va, r) && bc.Holds(b, vb, r)
      invariant bc.Holds(C, Carries(va, vb, i + 1), r + i) && bc.AndCount() == old(bc.AndCount()) + Times(i, bc.width)
    {
      var next := PutNextCarry(bc, a[i], b[i], C[i], r + i);
      bc.HoldsSnoc(C, Carries(va, vb, i + 1), next, Carry(va, vb, i + 1), r + i + 1);
      C := C + [next];
    }
  }

  /** The ripple adder, with one AND gate for every carry. */
  method PutSizeOptimizedAddGate(bc: BooleanCircuit, a0: seq<nat>, b0: seq<nat>, bCarry: bool,
                                 ghost va0: seq<bool>, ghost vb0: seq<bool>, ghost r: nat)
    returns (out: seq<nat>)
    requires bc.Valid() && bc.Holds(a0, va0, r) && bc.Holds(b0, vb0, r) && |a0| > 0
    modifies bc
    ensures bc.Valid() && bc.Extends()
    ensures bc.Holds(out, AddBits(Pad(va0, |vb0|), Pad(vb0, |va0|), bCarry), r + Max(|a0|, |b0|) + 1)
    ensures bc.AndCount() == old(bc.AndCount()) + Times(if bCarry then Max(|a0|, |b0|) else Max(|a0|, |b0|) - 1, bc.width)
  {
    var a, b := PadWithLeadingZeros(bc, a0, b0, va0, vb0, r);
    out := PutRippleSum(bc, a, b, bCarry, Pad(va0, |vb0|), Pad(vb0, |va0|), r);
  }

  method PutRippleSum(bc: BooleanCircuit, a: seq<nat>, b: seq<nat>, bCarry: bool,
                      ghost va: seq<bool>, ghost vb: seq<bool>, ghost r: nat)
    returns (out: seq<nat>)
    requires bc.Valid() && bc.Holds(a, va, r) && bc.Holds(b, vb, r) && |a| == |b| > 0
    modifies bc
    ensures bc.Valid() && bc.Extends()
    ensures bc.Holds(out, AddBits(va, vb, bCarry), r + |a| + 1)
    ensures bc.AndCount() == old(bc.AndCount()) + Times(if bCarry then |a| else |a| - 1, bc.width)
  {
    var C := PutCarryChain(bc, a, b, va, vb, r);
    if bCarry {
      out := PutSumsAndCarry(bc, a, b, C, va, vb, r + |a|);
    } else {
      out := PutSumsOnly(bc, a, b, C, va, vb, r + |a|);
    }
  }

  /** The sums, and the carry out of the last position. */
  method PutSumsAndCarry(bc: BooleanCircuit, a: seq<nat>, b: seq<nat>, C: seq<nat>, ghost va: seq<bool>, ghost vb: seq<bool>, ghost r: nat)
    returns (out: seq<nat>)
    requires bc.Valid() && bc.Holds(a, va, r) && bc.Holds(b, vb, r) && |a| == |b| > 0 && bc.Holds(C, Carries(va, vb, |a|), r)
    modifies bc
    ensures bc.Valid() && bc.Extends() && bc.Holds(out, AddBits(va, vb, true), r + 1)
    ensures bc.AndCount() == old(bc.AndCount()) + bc.width
  {
    var n := |a|;
    var carry := PutNextCarry(bc, a[n - 1], b[n - 1], C[n - 1], r);
    out := PutSums(bc, a, b, C, va, vb, r);
    SumIsXor(va, vb);
    bc.HoldsSnoc(out, SumBits(va, vb), carry, Carry(va, vb, n), r + 1);
    out := out + [carry];
  }

  method PutSumsOnly(bc: BooleanCircuit, a: seq<nat>, b: seq<nat>, C: seq<nat>, ghost va: seq<bool>, ghost vb: seq<bool>, ghost r: nat)
    returns (out: seq<nat>)
    requires bc.Valid() && bc.Holds(a, va, r) && bc.Holds(b, vb, r) && |a| == |b| > 0 && bc.Holds(C, Carries(va, vb, |a|), r)
    modifies bc
    ensures bc.Valid() && bc.Extends() && bc.Holds(out, AddBits(va, vb, false), r + 1)
    ensures bc.AndCount() == old(bc.AndCount())
  {
    out := PutSums(bc, a, b, C, va, vb, r);
    SumIsXor(va, vb);
  }

  /** Both operands and the carries, position by position. */
  method PutSums(bc: BooleanCircuit, a: seq<nat>, b: seq<nat>, C: seq<nat>, ghost va: seq<bool>, ghost vb: seq<bool>, ghost r: nat)
    returns (out: seq<nat>)
    requires bc.Valid() && bc.Holds(a, va, r) && bc.Holds(b, vb, r) && |a| == |b| && bc.Holds(C, Carries(va, vb, |a|), r)
    modifies bc
    ensures bc.Valid() && bc.Extends() && bc.AndCount() == old(bc.AndCount()) && bc.Holds(out, SumBits(va, vb), r)
  {
    var AxB := PutXORGates(bc, a, b, va, vb, r);
    out := PutXORGates(bc, C, AxB, Carries(va, vb, |a|), XorBits(va, vb), r);
    SumIsXor(va, vb);
  }

  lemma SumIsXor(va: seq<bool>, vb: seq<bool>)
    requires |va| == |vb|
    ensures XorBits(Carries(va, vb, |va|), XorBits(va, vb)) == SumBits(va, vb) == AddBits(va, vb, false)
    ensures AddBits(va, vb, true) == SumBits(va, vb) + [Carry(va, vb, |va|)]
  {
  }

  // ----- the prefix adder -----------------------------------------------------------------

  function AndBits(a: seq<bool>, b: seq<bool>): (r: seq<bool>)
    requires |a| == |b|
    ensures |r| == |a| && forall i | 0 <= i < |r| :: r[i] == (a[i] && b[i])
  {
    seq(|a|, i requires 0 <= i < |a| => a[i] && b[i])
  }

  /** AND wire by wire. */
  method PutANDGates(bc: BooleanCircuit, a: seq<nat>, b: seq<nat>, ghost va: seq<bool>, ghost vb: seq<bool>, ghost r: nat)
    returns (out: seq<nat>)
    requires bc.Valid() && bc.Holds(a, va, r) && bc.Holds(b, vb, r) && |a| == |b|
    modifies bc
    ensures bc.Valid() && bc.Extends() && bc.Holds(out, AndBits(va, vb), r + 1)
    ensures bc.AndCount() == old(bc.AndCount()) + Times(|a|, bc.width)
  {
    out := [];
    for k := 0 to |a|
      invariant bc.Valid() && bc.Extends() && bc.Holds(a, va, r) && bc.Holds(b, vb, r)
      invariant bc.AndCount() == old(bc.AndCount()) + Times(k, bc.width)
      invariant bc.Holds(out, AndBits(va[..k], vb[..k]), r + 1)
    {
      var x := bc.PutANDGate(a[k], b[k]);
      assert AndBits(va[..k + 1], vb[..k + 1]) == AndBits(va[..k], vb[..k]) + [va[k] && vb[k]];
      bc.HoldsSnoc(out, AndBits(va[..k], vb[..k]), x, va[k] && vb[k], r + 1);
      out := out + [x];
    }
    assert va[..|a|] == va && vb[..|a|] == vb;
  }

  /** Block size around position j while a level is under way: positions below k are already combined. */
  function SizeAt(half: nat, k: nat, j: nat): nat {
    if j < k then 2 * half else half
  }

  function GenerateBits(a: seq<bool>, b: seq<bool>, half: nat, k: nat): (g: seq<bool>)
    requires |a| == |b| && half > 0
    ensures |g| == |a|
  {
    seq(|a|, j requires 0 <= j < |a| => Generate(a, b, BlockStart(j, SizeAt(half, k, j)), j))
  }

  function PropagateBits(a: seq<bool>, b: seq<bool>, half: nat, k: nat): (p: seq<bool>)
    requires |a| == |b| && half > 0
    ensures |p| == |a|
  {
    seq(|a|, j requires 0 <= j < |a| => Propagate(a, b, BlockStart(j, SizeAt(half, k, j)), j))
  }

  /** A finished level is the start of the next one. */
  lemma LevelDone(a: seq<bool>, b: seq<bool>, half: nat)
    requires |a| == |b| && half > 0
    ensures GenerateBits(a, b, half, |a|) == GenerateBits(a, b, 2 * half, 0)
    ensures PropagateBits(a, b, half, |a|) == PropagateBits(a, b, 2 * half, 0)
  {
  }

  /** What one position contributes to a level. */
  lemma LevelStep(a: seq<bool>, b: seq<bool>, half: nat, k: nat)
    requires k < |a| == |b| && half > 0
    ensures !UpperHalf(k, half) ==>
              GenerateBits(a, b, half, k + 1) == GenerateBits(a, b, half, k) &&
              PropagateBits(a, b, half, k + 1) == PropagateBits(a, b, half, k)
    ensures UpperHalf(k, half) ==>
              var id, g, p := LowerEnd(k, half), GenerateBits(a, b, half, k), PropagateBits(a, b, half, k);
              id < k && !UpperHalf(id, half) &&
              GenerateBits(a, b, half, k + 1) == g[k := g[k] != (p[k] && g[id])] &&
              PropagateBits(a, b, half, k + 1) == p[k := p[k] && p[id]]
  {
    BlockSplit(k, half);
    if UpperHalf(k, half) {
      var lo := BlockStart(k, 2 * half);
      CombineBlocks(a, b, lo, lo + half - 1, k);
      BlockSplit(lo + half - 1, half);
    }
  }

  /** Combines two adjacent blocks, with plain AND gates or with one vector AND. */
  method PutBlock(bc: BooleanCircuit, carry_j: nat, parity_j: nat, carry_id: nat, parity_id: nat,
                  zerogate: nat, vector_and: bool, ghost r: nat) returns (carry: nat, parity: nat)
    requires bc.Valid() && bc.Wire(carry_j) && bc.Wire(parity_j) && bc.Wire(carry_id) && bc.Wire(parity_id)
    requires bc.ReadyAt(carry_j) <= r && bc.ReadyAt(parity_j) <= r
    requires bc.ReadyAt(carry_id) <= r && bc.ReadyAt(parity_id) <= r
    requires bc.Wire(zerogate) && !bc.Val(zerogate) && bc.ReadyAt(zerogate) <= r
    modifies bc
    ensures bc.Valid() && bc.Extends() && bc.Wire(carry) && bc.Wire(parity)
    ensures bc.ReadyAt(carry) <= r + 1 && bc.ReadyAt(parity) <= r + 1
    ensures bc.Val(carry) == old(bc.Val(carry_j) != (bc.Val(parity_j) && bc.Val(carry_id)))
    ensures bc.Val(parity) == old(bc.Val(parity_j) && bc.Val(parity_id))
  {
    if bc.ctx.BOOL? && vector_and {
      var ina, zero_share := [[carry_id, parity_id]], [[zerogate, zerogate]];
      assert FlatLen(ina, 1) == FlatLen(ina, 0) + 2;
      var s_out := PutMultiMUXGate(bc, ina, zero_share, parity_j, r);
      assert |s_out[0]| == |ina[0]|;
      parity := s_out[0][1];
      carry := bc.PutXORGate(s_out[0][0], carry_j);
    } else {
      var t := bc.PutANDGate(parity_j, carry_id);
      carry := bc.PutXORGate(carry_j, t);
      parity := bc.PutANDGate(parity_j, parity_id);
    }
  }

  /** Position j of a level: an upper half is combined with the end of its lower half. */
  method PutLevelStep(bc: BooleanCircuit, carry0: seq<nat>, parity0: seq<nat>, j: nat, half: nat, zerogate: nat,
                      vector_and: bool, ghost va: seq<bool>, ghost vb: seq<bool>, ghost r: nat)
    returns (carry: seq<nat>, parity: seq<nat>)
    requires bc.Valid() && j < |va| == |vb| && half > 0
    requires bc.Holds(carry0, GenerateBits(va, vb, half, j), r + 1) && bc.Holds(parity0, PropagateBits(va, vb, half, j), r + 1)
    requires forall m | 0 <= m < |carry0| && (j <= m || !UpperHalf(m, half)) ::
               bc.ReadyAt(carry0[m]) <= r && bc.ReadyAt(parity0[m]) <= r
    requires bc.Wire(zerogate) && !bc.Val(zerogate) && bc.ReadyAt(zerogate) <= r
    modifies bc
    ensures bc.Valid() && bc.Extends()
    ensures bc.Holds(carry, GenerateBits(va, vb, half, j + 1), r + 1)
    ensures bc.Holds(parity, PropagateBits(va, vb, half, j + 1), r + 1)
    ensures forall m | 0 <= m < |carry0| && (j + 1 <= m || !UpperHalf(m, half)) ::
              carry[m] == carry0[m] && parity[m] == parity0[m]
  {
    carry, parity := carry0, parity0;
    LevelStep(va, vb, half, j);
    if UpperHalf(j, half) {
      var id := LowerEnd(j, half);
      var c, p := PutBlock(bc, carry[j], parity[j], carry[id], parity[id], zerogate, vector_and, r);
      bc.HoldsUpdate(carry, GenerateBits(va, vb, half, j), j, c, bc.Val(c), r + 1);
      bc.HoldsUpdate(parity, PropagateBits(va, vb, half, j), j, p, bc.Val(p), r + 1);
      carry, parity := carry[j := c], parity[j := p];
    }
  }

  /** One level of the network, in place: blocks of size half become blocks of twice that size. */
  method PutPrefixLevel(bc: BooleanCircuit, carry0: seq<nat>, parity0: seq<nat>, half: nat, zerogate: nat, vector_and: bool,
                        ghost va: seq<bool>, ghost vb: seq<bool>, ghost r: nat)
    returns (carry: seq<nat>, parity: seq<nat>)
    requires bc.Valid() && |va| == |vb| && half > 0
    requires bc.Holds(carry0, GenerateBits(va, vb, half, 0), r) && bc.Holds(parity0, PropagateBits(va, vb, half, 0), r)
    requires bc.Wire(zerogate) && !bc.Val(zerogate) && bc.ReadyAt(zerogate) <= r
    modifies bc
    ensures bc.Valid() && bc.Extends()
    ensures bc.Holds(carry, GenerateBits(va, vb, 2 * half, 0), r + 1)
    ensures bc.Holds(parity, PropagateBits(va, vb, 2 * half, 0), r + 1)
  {
    carry, parity := carry0, parity0;
    for j := 0 to |carry0|
      invariant bc.Valid() && bc.Extends()
      invariant bc.Wire(zerogate) && !bc.Val(zerogate) && bc.ReadyAt(zerogate) <= r
      invariant bc.Holds(carry, GenerateBits(va, vb, half, j), r + 1)
      invariant bc.Holds(parity, PropagateBits(va, vb, half, j), r + 1)
      invariant forall m | 0 <= m < |carry0| && (j <= m || !UpperHalf(m, half)) ::
                  bc.ReadyAt(carry[m]) <= r && bc.ReadyAt(parity[m]) <= r
    {
      carry, parity := PutLevelStep(bc, carry, parity, j, half, zerogate, vector_and, va, vb, r);
    }
    LevelDone(va, vb, half);
  }

  lemma LeafBlocks(a: seq<bool>, b: seq<bool>)
    requires |a| == |b|
    ensures GenerateBits(a, b, 1, 0) == AndBits(a, b) && PropagateBits(a, b, 1, 0) == XorBits(a, b)
  {
  }

  /** Once a block covers the whole width, the block generate bits are the carries. */
  lemma FullBlocks(a: seq<bool>, b: seq<bool>, size: nat)
    requires |a| == |b| <= size && size > 0
    ensures forall j | 0 <= j < |a| :: GenerateBits(a, b, size, 0)[j] == Carry(a, b, j + 1)
  {
    forall j | 0 <= j < |a|
      ensures GenerateBits(a, b, size, 0)[j] == Carry(a, b, j + 1)
    {
      GenerateIsCarry(a, b, j);
      assert j % size == j;
    }
  }

  /** The in-place prefix adder: every output is usable 1 + ceil(log2 n) rounds after the inputs. */
  method PutDepthOptimizedAddGate(bc: BooleanCircuit, a0: seq<nat>, b0: seq<nat>, bCARRY: bool, vector_and: bool,
                                  ghost va0: seq<bool>, ghost vb0: seq<bool>, ghost r: nat)
    returns (out: seq<nat>)
    requires bc.Valid() && bc.Holds(a0, va0, r) && bc.Holds(b0, vb0, r) && |a0| > 0
    modifies bc
    ensures bc.Valid() && bc.Extends()
    ensures bc.Holds(out, AddBits(Pad(va0, |vb0|), Pad(vb0, |va0|), bCARRY), r + 1 + CeilLog2(Max(|a0|, |b0|)))
  {
    var a, b := PadWithLeadingZeros(bc, a0, b0, va0, vb0, r);
    ghost var va, vb := Pad(va0, |vb0|), Pad(vb0, |va0|);
    var zerogate, parity_zero, carry := PutPrefixLeaves(bc, a, b, va, vb, r);
    carry := PutPrefixNetwork(bc, carry, parity_zero, zerogate, vector_and, va, vb, r + 1);
    out := PutPrefixOutputs(bc, parity_zero, carry, bCARRY, va, vb, r + 1 + CeilLog2(|a|));
  }

  /** Parity and carry of every position on its own. */
  method PutPrefixLeaves(bc: BooleanCircuit, a: seq<nat>, b: seq<nat>, ghost va: seq<bool>, ghost vb: seq<bool>, ghost r: nat)
    returns (zerogate: nat, parity_zero: seq<nat>, carry: seq<nat>)
    requires bc.Valid() && bc.Holds(a, va, r) && bc.Holds(b, vb, r) && |a| == |b| > 0
    modifies bc
    ensures bc.Valid() && bc.Extends() && bc.Wire(zerogate) && !bc.Val(zerogate) && bc.ReadyAt(zerogate) <= r + 1
    ensures bc.Holds(parity_zero, XorBits(va, vb), r + 1) && bc.Holds(carry, AndBits(va, vb), r + 1)
  {
    zerogate := bc.PutConstantGate(false, a[0]);
    parity_zero := PutXORGates(bc, a, b, va, vb, r);
    carry := PutANDGates(bc, a, b, va, vb, r);
  }

  /** All levels: the block generate bits grow into the carries. */
  method PutPrefixNetwork(bc: BooleanCircuit, carry0: seq<nat>, parity0: seq<nat>, zerogate: nat, vector_and: bool,
                          ghost va: seq<bool>, ghost vb: seq<bool>, ghost r: nat) returns (carry: seq<nat>)
    requires bc.Valid() && |va| == |vb| > 0
    requires bc.Holds(carry0, AndBits(va, vb), r) && bc.Holds(parity0, XorBits(va, vb), r)
    requires bc.Wire(zerogate) && !bc.Val(zerogate) && bc.ReadyAt(zerogate) <= r
    modifies bc
    ensures bc.Valid() && bc.Extends()
    ensures bc.Holds(carry, seq(|va|, j requires 0 <= j < |va| => Carry(va, vb, j + 1)), r + CeilLog2(|va|))
  {
    carry := carry0;
    var parity := parity0;
    LeafBlocks(va, vb);
    var levels := CeilLog2(|carry0|);
    for i := 0 to levels
      invariant bc.Valid() && bc.Extends()
      invariant AtLevel(bc, carry, parity, zerogate, va, vb, Pow2(i), r + i)
    {
      carry, parity := PutPrefixLevel(bc, carry, parity, Pow2(i), zerogate, vector_and, va, vb, r + i);
    }
    FullBlocks(va, vb, Pow2(levels));
  }

  /** The network between two levels. */
  ghost predicate AtLevel(bc: BooleanCircuit, carry: seq<nat>, parity: seq<nat>, zerogate: nat, va: seq<bool>, vb: seq<bool>, size: nat, r: nat)
    reads bc
    requires |va| == |vb| && size > 0
  {
    && bc.Wire(zerogate) && !bc.Val(zerogate) && bc.ReadyAt(zerogate) <= r
    && bc.Holds(carry, GenerateBits(va, vb, size, 0), r) && bc.Holds(parity, PropagateBits(va, vb, size, 0), r)
  }

  /** The outputs are the input parities XOR the carries into each position. */
  method PutPrefixOutputs(bc: BooleanCircuit, parity_zero: seq<nat>, carry: seq<nat>, bCARRY: bool,
                          ghost va: seq<bool>, ghost vb: seq<bool>, ghost r: nat) returns (out: seq<nat>)
    requires bc.Valid() && |parity_zero| > 0 && |va| == |vb| && bc.Holds(parity_zero, XorBits(va, vb), r)
    requires bc.Holds(carry, seq(|va|, j requires 0 <= j < |va| => Carry(va, vb, j + 1)), r)
    modifies bc
    ensures bc.Valid() && bc.Extends() && bc.Holds(out, AddBits(va, vb, bCARRY), r)
  {
    ghost var sum := SumBits(va, vb);
    out := [parity_zero[0]];
    for i := 1 to |parity_zero|
      invariant bc.Valid() && bc.Extends() && bc.Holds(parity_zero, XorBits(va, vb), r)
      invariant bc.Holds(carry, seq(|va|, j requires 0 <= j < |va| => Carry(va, vb, j + 1)), r)
      invariant bc.Holds(out, sum[..i], r)
    {
      var o := bc.PutXORGate(parity_zero[i], carry[i - 1]);
      assert sum[..i + 1] == sum[..i] + [sum[i]];
      bc.HoldsSnoc(out, sum[..i], o, sum[i], r);
      out := out + [o];
    }
    assert sum[..|sum|] == sum;
    if bCARRY {
      bc.HoldsSnoc(out, sum, carry[|carry| - 1], Carry(va, vb, |va|), r);
      out := out + [carry[|carry| - 1]];
    }
  }
}
