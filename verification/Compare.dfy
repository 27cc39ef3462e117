/** Comparison and subtraction bit by bit. */
module ComparisonSpec {
  import opened Bits
  import opened Addition

  /** Positions lo..hi of a stand for more than those of b. */
  predicate Gt(a: seq<bool>, b: seq<bool>, lo: nat, hi: nat)
    requires lo <= hi <= |a| == |b|
    decreases hi
  {
    lo < hi && if a[hi - 1] != b[hi - 1] then a[hi - 1] else Gt(a, b, lo, hi - 1)
  }

  predicate Eq(a: seq<bool>, b: seq<bool>, lo: nat, hi: nat)
    requires lo <= hi <= |a| == |b|
  {
    forall i | lo <= i < hi :: a[i] == b[i]
  }

  lemma {:induction false} GtExcludesEq(a: seq<bool>, b: seq<bool>, lo: nat, hi: nat)
    requires lo <= hi <= |a| == |b|
    ensures !(Gt(a, b, lo, hi) && Eq(a, b, lo, hi))
    decreases hi
  {
    if lo < hi && a[hi - 1] == b[hi - 1] {
      GtExcludesEq(a, b, lo, hi - 1);
    }
  }

  /** A block compares like its upper part, unless that part is equal. */
  lemma {:induction false} CombineCompare(a: seq<bool>, b: seq<bool>, lo: nat, mid: nat, hi: nat)
    requires lo <= mid <= hi <= |a| == |b|
    ensures Gt(a, b, lo, hi) == (Gt(a, b, mid, hi) != (Eq(a, b, mid, hi) && Gt(a, b, lo, mid)))
    ensures Eq(a, b, lo, hi) == (Eq(a, b, lo, mid) && Eq(a, b, mid, hi))
    decreases hi
  {
    GtExcludesEq(a, b, mid, hi);
    if mid < hi {
      CombineCompare(a, b, lo, mid, hi - 1);
      GtExcludesEq(a, b, mid, hi - 1);
    }
  }

  /** Comparing bits from the top is comparing numbers. */
  lemma {:induction false} GtIsGreater(a: seq<bool>, b: seq<bool>, n: nat)
    requires n <= |a| == |b|
    ensures Gt(a, b, 0, n) <==> Value(a, n) > Value(b, n)
  {
    if n > 0 {
      GtIsGreater(a, b, n - 1);
      ValueBound(a, n - 1);
      ValueBound(b, n - 1);
    }
  }

  lemma PadGreater(a: seq<bool>, b: seq<bool>)
    ensures |Pad(a, |b|)| == |Pad(b, |a|)|
    ensures Num(a) > Num(b) <==> Gt(Pad(a, |b|), Pad(b, |a|), 0, Max(|a|, |b|))
  {
    GtIsGreater(Pad(a, |b|), Pad(b, |a|), Max(|a|, |b|));
  }

  // ----- subtraction ----------------------------------------------------------------------

  /** The borrow out of the first i positions. */
  predicate Borrow(a: seq<bool>, b: seq<bool>, i: nat)
    requires i <= |a| == |b|
  {
    i > 0 && Majority(!a[i - 1], b[i - 1], Borrow(a, b, i - 1))
  }

  function Borrows(a: seq<bool>, b: seq<bool>, n: nat): (c: seq<bool>)
    requires n <= |a| == |b|
    ensures |c| == n && forall i | 0 <= i < n :: c[i] == Borrow(a, b, i)
  {
    if n == 0 then [] else Borrows(a, b, n - 1) + [Borrow(a, b, n - 1)]
  }

  function SubBits(a: seq<bool>, b: seq<bool>): (d: seq<bool>)
    requires |a| == |b|
    ensures |d| == |a|
  {
    seq(|a|, i requires 0 <= i < |a| => (b[i] != Borrow(a, b, i)) != a[i])
  }

  lemma {:induction false} SubInvariant(a: seq<bool>, b: seq<bool>, n: nat)
    requires n <= |a| == |b|
    ensures Value(a, n) + Weight(Borrow(a, b, n), n) == Value(SubBits(a, b), n) + Value(b, n)
  {
    if n > 0 {
      SubInvariant(a, b, n - 1);
    }
  }

  /** Subtraction modulo the width; a borrow is left exactly when b is the greater number. */
  lemma SubBitsCorrect(a: seq<bool>, b: seq<bool>)
    requires |a| == |b|
    ensures Num(SubBits(a, b)) == if Num(a) >= Num(b) then Num(a) - Num(b) else Num(a) + Pow2(|a|) - Num(b)
    ensures Wrap(Num(SubBits(a, b)) + Num(b), |a|) == Num(a)
  {
    SubInvariant(a, b, |a|);
    ValueBound(SubBits(a, b), |a|);
    ValueBound(a, |a|);
    ValueBound(b, |a|);
  }
}

/** The comparators, the subtractor and the multiplexer of the Boolean circuit builder. */
module Compare {
  import opened Bits
  import opened Addition
  import opened ComparisonSpec
  import opened Circuit
  import opened Builder
  import opened Adders

  function Inverted(a: seq<bool>): (n: seq<bool>)
    ensures |n| == |a|
  {
    seq(|a|, i requires 0 <= i < |a| => !a[i])
  }

  method PutINVGates(bc: BooleanCircuit, a: seq<nat>, ghost va: seq<bool>, ghost r: nat) returns (out: seq<nat>)
    requires bc.Valid() && bc.Holds(a, va, r)
    modifies bc
    ensures bc.Valid() && bc.Extends() && bc.AndCount() == old(bc.AndCount()) && bc.Holds(out, Inverted(va), r)
  {
    out := [];
    for k := 0 to |a|
      invariant bc.Valid() && bc.Extends() && bc.Holds(a, va, r) && bc.AndCount() == old(bc.AndCount())
      invariant bc.Holds(out, Inverted(va[..k]), r)
    {
      var x := bc.PutINVGate(a[k]);
      assert Inverted(va[..k + 1]) == Inverted(va[..k]) + [!va[k]];
      bc.HoldsSnoc(out, Inverted(va[..k]), x, !va[k], r);
      out := out + [x];
    }
    assert va[..|a|] == va;
  }

  /** Zeros up to max_bitlength. */
  method PadTo(bc: BooleanCircuit, a: seq<nat>, max_bitlength: nat, ghost va: seq<bool>, ghost r: nat) returns (out: seq<nat>)
    requires bc.Valid() && bc.Holds(a, va, r) && |a| > 0
    modifies bc
    ensures bc.Valid() && bc.Extends() && bc.AndCount() == old(bc.AndCount()) && bc.Holds(out, Pad(va, max_bitlength), r)
  {
    out := a;
    if |a| < max_bitlength {
      var zerogate := bc.PutConstantGate(false, a[0]);
      out := a + seq(max_bitlength - |a|, _ => zerogate);
    }
  }

  /** The borrow chain of the subtractor. */
  method PutBorrowChain(bc: BooleanCircuit, ainv: seq<nat>, b: seq<nat>, first: nat,
                        ghost va: seq<bool>, ghost vb: seq<bool>, ghost r: nat) returns (C: seq<nat>)
    requires bc.Valid() && bc.Holds(ainv, Inverted(va), r) && bc.Holds(b, vb, r) && |ainv| == |b| > 0
    requires bc.Wire(first) && !bc.Val(first) && bc.ReadyAt(first) <= r
    modifies bc
    ensures bc.Valid() && bc.Extends() && bc.Holds(C, Borrows(va, vb, |b|), r + |b|)
    ensures bc.AndCount() == old(bc.AndCount()) + Times(|b| - 1, bc.width)
  {
    C := [first];
    for i := 0 to |b| - 1
      invariant bc.Valid() && bc.Extends() && bc.Holds(ainv, Inverted(va), r) && bc.Holds(b, vb, r)
      invariant bc.Holds(C, Borrows(va, vb, i + 1), r + i) && bc.AndCount() == old(bc.AndCount()) + Times(i, bc.width)
    {
      var next := PutNextCarry(bc, ainv[i], b[i], C[i], r + i);
      bc.HoldsSnoc(C, Borrows(va, vb, i + 1), next, Borrow(va, vb, i + 1), r + i + 1);
      C := C + [next];
    }
  }

  /** The borrow-ripple subtractor, on operands that have or are padded to one width; only the last borrow has no AND gate. */
  method PutSUBGate(bc: BooleanCircuit, a0: seq<nat>, b0: seq<nat>, max_bitlength: nat,
                    ghost va0: seq<bool>, ghost vb0: seq<bool>, ghost r: nat) returns (out: seq<nat>, ghost ov: seq<bool>)
    requires bc.Valid() && bc.Holds(a0, va0, r) && bc.Holds(b0, vb0, r) && |a0| > 0 && |b0| > 0
    requires Max(|a0|, max_bitlength) == Max(|b0|, max_bitlength)
    modifies bc
    ensures bc.Valid() && bc.Extends() && |ov| == Max(|a0|, max_bitlength) && bc.Holds(out, ov, r + |ov|)
    ensures Num(ov) == if Num(va0) >= Num(vb0) then Num(va0) - Num(vb0) else Num(va0) + Pow2(|ov|) - Num(vb0)
    ensures bc.AndCount() == old(bc.AndCount()) + Times(|ov| - 1, bc.width)
  {
    var a := PadTo(bc, a0, max_bitlength, va0, r);
    var b := PadTo(bc, b0, max_bitlength, vb0, r);
    ghost var va, vb := Pad(va0, max_bitlength), Pad(vb0, max_bitlength);
    out := PutDifference(bc, a, b, va, vb, r);
    ov := SubBits(va, vb);
    SubBitsCorrect(va, vb);
  }

  method PutDifference(bc: BooleanCircuit, a: seq<nat>, b: seq<nat>, ghost va: seq<bool>, ghost vb: seq<bool>, ghost r: nat)
    returns (out: seq<nat>)
    requires bc.Valid() && bc.Holds(a, va, r) && bc.Holds(b, vb, r) && |a| == |b| > 0
    modifies bc
    ensures bc.Valid() && bc.Extends() && bc.Holds(out, SubBits(va, vb), r + |a|)
    ensures bc.AndCount() == old(bc.AndCount()) + Times(|a| - 1, bc.width)
  {
    ghost var n := |a|;
    var ainv := PutINVGates(bc, a, va, r);
    var first := bc.PutConstantGate(false, a[0]);
    var C := PutBorrowChain(bc, ainv, b, first, va, vb, r);
    var bxc := PutXORGates(bc, b, C, vb, Borrows(va, vb, n), r + n);
    out := PutXORGates(bc, bxc, a, XorBits(vb, Borrows(va, vb, n)), va, r + n);
    assert XorBits(XorBits(vb, Borrows(va, vb, n)), va) == SubBits(va, vb);
  }

  /** One position of the ripple comparator: a[i] decides unless both bits are equal. */
  method PutGTStep(bc: BooleanCircuit, a: nat, b: nat, ci: nat, ghost r: nat) returns (ci1: nat)
    requires bc.Valid() && bc.Wire(a) && bc.Wire(b) && bc.Wire(ci)
    requires bc.ReadyAt(a) <= r && bc.ReadyAt(b) <= r && bc.ReadyAt(ci) <= r
    modifies bc
    ensures bc.Valid() && bc.Extends() && bc.Wire(ci1) && bc.ReadyAt(ci1) <= r + 1
    ensures bc.Val(ci1) == old(if bc.Val(a) != bc.Val(b) then bc.Val(a) else bc.Val(ci))
    ensures bc.AndCount() == old(bc.AndCount()) + bc.width
  {
    var acNbc := PutCarryTerm(bc, a, b, ci, r);
    ci1 := bc.PutXORGate(a, acNbc);
  }

  /** The ripple comparator, with one AND gate for every position. */
  method PutSizeOptimizedGTGate(bc: BooleanCircuit, a0: seq<nat>, b0: seq<nat>,
                                ghost va0: seq<bool>, ghost vb0: seq<bool>, ghost r: nat) returns (ci: nat)
    requires bc.Valid() && bc.Holds(a0, va0, r) && bc.Holds(b0, vb0, r) && |a0| > 0
    modifies bc
    ensures bc.Valid() && bc.Extends() && bc.Wire(ci) && bc.Val(ci) == (Num(va0) > Num(vb0))
    ensures bc.ReadyAt(ci) <= r + Max(|a0|, |b0|)
    ensures bc.AndCount() == old(bc.AndCount()) + Times(Max(|a0|, |b0|), bc.width)
  {
    var a, b := PadWithLeadingZeros(bc, a0, b0, va0, vb0, r);
    ghost var va, vb := Pad(va0, |vb0|), Pad(vb0, |va0|);
    ci := bc.PutConstantGate(false, a[0]);
    for i := 0 to |a|
      invariant bc.Valid() && bc.Extends() && bc.Holds(a, va, r) && bc.Holds(b, vb, r)
      invariant bc.Wire(ci) && bc.Val(ci) == Gt(va, vb, 0, i) && bc.ReadyAt(ci) <= r + i
      invariant bc.AndCount() == old(bc.AndCount()) + Times(i, bc.width)
    {
      ci := PutGTStep(bc, a[i], b[i], ci, r + i);
    }
    PadGreater(va0, vb0);
  }

  // ----- the comparison tree --------------------------------------------------------------

  /** Boundaries of the blocks the nodes of the tree stand for. */
  ghost predicate Cuts(cuts: seq<nat>, n: nat) {
    && |cuts| > 0 && cuts[0] == 0
    && (forall j {:trigger cuts[j]} | 0 <= j < |cuts| :: cuts[j] <= n && (j > 0 ==> cuts[j - 1] <= cuts[j]))
  }

  /** Node j tells of block j whether a is greater there and, except for node 0, whether both are equal. */
  ghost predicate NodeHolds(bc: BooleanCircuit, agtb: seq<nat>, eq: seq<nat>, va: seq<bool>, vb: seq<bool>,
                            lo: nat, hi: nat, j: nat, r: nat)
    requires lo <= hi <= |va| == |vb|
    reads bc
  {
    && j < |agtb| == |eq|
    && bc.Wire(agtb[j]) && bc.Val(agtb[j]) == Gt(va, vb, lo, hi) && bc.ReadyAt(agtb[j]) <= r
    && (j > 0 ==> bc.Wire(eq[j]) && bc.Val(eq[j]) == Eq(va, vb, lo, hi) && bc.ReadyAt(eq[j]) <= r)
  }

  ghost predicate NodesHold(bc: BooleanCircuit, agtb: seq<nat>, eq: seq<nat>, va: seq<bool>, vb: seq<bool>,
                            cuts: seq<nat>, lo: nat, hi: nat, r: nat)
    requires |va| == |vb| && Cuts(cuts, |va|)
    reads bc
  {
    && lo <= hi && hi < |cuts|
    && forall j: nat {:trigger agtb[j]} | lo <= j < hi :: NodeHolds(bc, agtb, eq, va, vb, cuts[j], cuts[j + 1], j, r)
  }

  /** While a level is under way: j new nodes, and the old ones from i on; node 0 never has an eq. */
  ghost predicate GtLive(bc: BooleanCircuit, agtb: seq<nat>, eq: seq<nat>, va: seq<bool>, vb: seq<bool>,
                         done: seq<nat>, cuts: seq<nat>, j: nat, i: nat, rem: nat, r: nat)
    requires |va| == |vb|
    reads bc
  {
    && Cuts(cuts, |va|) && Cuts(done, |va|)
    && |done| == j + 1 && |cuts| == rem + 1 && j <= i <= rem <= |agtb| && |eq| == |agtb|
    && done[j] == cuts[i] && (j == 0 <==> i == 0)
    && NodesHold(bc, agtb, eq, va, vb, done, 0, j, r + 1)
    && NodesHold(bc, agtb, eq, va, vb, cuts, i, rem, r)
  }

  /** Two adjacent nodes become one; the equality of the first block is never needed. */
  method PutNode(bc: BooleanCircuit, gtLow: nat, gtHigh: nat, eqLow: nat, eqHigh: nat, first: bool, ghost r: nat)
    returns (gt: nat, eq: nat)
    requires bc.Valid() && bc.Wire(gtLow) && bc.Wire(gtHigh) && bc.Wire(eqHigh) && (!first ==> bc.Wire(eqLow))
    requires bc.ReadyAt(gtLow) <= r && bc.ReadyAt(gtHigh) <= r && bc.ReadyAt(eqHigh) <= r
    requires !first ==> bc.ReadyAt(eqLow) <= r
    modifies bc
    ensures bc.Valid() && bc.Extends() && bc.Wire(gt) && bc.ReadyAt(gt) <= r + 1
    ensures bc.Val(gt) == old(bc.Val(gtHigh) != (bc.Val(eqHigh) && bc.Val(gtLow)))
    ensures !first ==> bc.Wire(eq) && bc.ReadyAt(eq) <= r + 1 && bc.Val(eq) == old(bc.Val(eqLow) && bc.Val(eqHigh))
  {
    var t := bc.PutANDGate(eqHigh, gtLow);
    gt := bc.PutXORGate(gtHigh, t);
    eq := 0;
    if !first {
      eq := bc.PutANDGate(eqLow, eqHigh);
    }
  }

  /** A new node at position j, made of old nodes i up to next. */
  lemma GtAdvance(bc: BooleanCircuit, agtb: seq<nat>, eq: seq<nat>, va: seq<bool>, vb: seq<bool>,
                  done: seq<nat>, cuts: seq<nat>, j: nat, i: nat, rem: nat, r: nat, gt: nat, e: nat, next: nat)
    requires |va| == |vb| && GtLive(bc, agtb, eq, va, vb, done, cuts, j, i, rem, r) && i < next <= rem
    requires cuts[i] <= cuts[next]
    requires NodeHolds(bc, agtb[j := gt], eq[j := e], va, vb, cuts[i], cuts[next], j, r + 1)
    ensures GtLive(bc, agtb[j := gt], eq[j := e], va, vb, done + [cuts[next]], cuts, j + 1, next, rem, r)
  {
    var agtb2, eq2, done2 := agtb[j := gt], eq[j := e], done + [cuts[next]];
    forall k: nat | k < j + 1
      ensures NodeHolds(bc, agtb2, eq2, va, vb, done2[k], done2[k + 1], k, r + 1)
    {
      if k < j {
        var x := agtb[k];
        assert NodeHolds(bc, agtb, eq, va, vb, done[k], done[k + 1], k, r + 1);
      }
    }
    forall k: nat | next <= k < rem
      ensures NodeHolds(bc, agtb2, eq2, va, vb, cuts[k], cuts[k + 1], k, r)
    {
      var x := agtb[k];
      assert NodeHolds(bc, agtb, eq, va, vb, cuts[k], cuts[k + 1], k, r);
    }
  }

  method PutGTTreeStep(bc: BooleanCircuit, agtb0: seq<nat>, eq0: seq<nat>, j: nat, i: nat, rem: nat,
                       ghost va: seq<bool>, ghost vb: seq<bool>, ghost done0: seq<nat>, ghost cuts: seq<nat>, ghost r: nat)
    returns (agtb: seq<nat>, eq: seq<nat>, next: nat, ghost done: seq<nat>)
    requires bc.Valid() && |va| == |vb| && GtLive(bc, agtb0, eq0, va, vb, done0, cuts, j, i, rem, r) && i < rem
    modifies bc
    ensures bc.Valid() && bc.Extends() && |agtb| == |agtb0|
    ensures next == (if i + 1 >= rem then i + 1 else i + 2)
    ensures GtLive(bc, agtb, eq, va, vb, done, cuts, j + 1, next, rem, r)
  {
    var gt, e := agtb0[i], eq0[i];
    assert NodeHolds(bc, agtb0, eq0, va, vb, cuts[i], cuts[i + 1], i, r);
    if i + 1 >= rem {
      next := i + 1;
    } else {
      assert agtb0[i + 1] == agtb0[i + 1] && NodeHolds(bc, agtb0, eq0, va, vb, cuts[i + 1], cuts[i + 2], i + 1, r);
      CombineCompare(va, vb, cuts[i], cuts[i + 1], cuts[i + 2]);
      gt, e := PutNode(bc, agtb0[i], agtb0[i + 1], eq0[i], eq0[i + 1], j == 0, r);
      next := i + 2;
      if j == 0 {
        e := eq0[0];
      }
    }
    forall k: nat | k < j
      ensures NodeHolds(bc, agtb0, eq0, va, vb, done0[k], done0[k + 1], k, r + 1)
    {
      assert agtb0[k] == agtb0[k] && old(NodeHolds(bc, agtb0, eq0, va, vb, done0[k], done0[k + 1], k, r + 1));
    }
    forall k: nat | i <= k < rem
      ensures NodeHolds(bc, agtb0, eq0, va, vb, cuts[k], cuts[k + 1], k, r)
    {
      assert agtb0[k] == agtb0[k] && old(NodeHolds(bc, agtb0, eq0, va, vb, cuts[k], cuts[k + 1], k, r));
    }
    GtAdvance(bc, agtb0, eq0, va, vb, done0, cuts, j, i, rem, r, gt, e, next);
    agtb, eq, done := agtb0[j := gt], eq0[j := e], done0 + [cuts[next]];
  }

  /** One level of the tree, in place. */
  method PutGTLevel(bc: BooleanCircuit, agtb0: seq<nat>, eq0: seq<nat>, rem: nat,
                    ghost va: seq<bool>, ghost vb: seq<bool>, ghost cuts: seq<nat>, ghost r: nat)
    returns (agtb: seq<nat>, eq: seq<nat>, left: nat, ghost done: seq<nat>)
    requires bc.Valid() && |va| == |vb| && Cuts(cuts, |va|) && |cuts| == rem + 1 && rem > 1
    requires rem <= |agtb0| == |eq0| && cuts[rem] == |va| && NodesHold(bc, agtb0, eq0, va, vb, cuts, 0, rem, r)
    modifies bc
    ensures bc.Valid() && bc.Extends() && |agtb| == |agtb0| && |eq| == |eq0|
    ensures left <= rem && (2 * left == rem || 2 * left == rem + 1)
    ensures Cuts(done, |va|) && |done| == left + 1 && done[left] == |va|
    ensures NodesHold(bc, agtb, eq, va, vb, done, 0, left, r + 1)
  {
    agtb, eq, done := agtb0, eq0, [0];
    var i: nat := 0;
    left := 0;
    while i < rem
      invariant bc.Valid() && bc.Extends() && |agtb| == |agtb0|
      invariant i == 2 * left || (i == rem && i + 1 == 2 * left)
      invariant GtLive(bc, agtb, eq, va, vb, done, cuts, left, i, rem, r)
      decreases rem - i
    {
      agtb, eq, i, done := PutGTTreeStep(bc, agtb, eq, left, i, rem, va, vb, done, cuts, r);
      left := left + 1;
    }
  }

  /** The leaves: a > b at one position, and for all but position 0 also a == b. */
  method PutGTLeaves(bc: BooleanCircuit, a: seq<nat>, b: seq<nat>, ghost va: seq<bool>, ghost vb: seq<bool>, ghost r: nat)
    returns (agtb: seq<nat>, eq: seq<nat>)
    requires bc.Valid() && bc.Holds(a, va, r) && bc.Holds(b, vb, r) && |a| == |b| > 0
    modifies bc
    ensures bc.Valid() && bc.Extends() && bc.Holds(agtb, AndBits(va, Inverted(vb)), r + 1)
    ensures |eq| == |a| && bc.Holds(eq[1..], Inverted(XorBits(va, vb))[1..], r)
  {
    var binv := PutINVGates(bc, b, vb, r);
    agtb := PutANDGates(bc, a, binv, va, Inverted(vb), r);
    var x := PutXORGates(bc, a[1..], b[1..], va[1..], vb[1..], r);
    var e := PutINVGates(bc, x, XorBits(va[1..], vb[1..]), r);
    eq := [0] + e;
    assert Inverted(XorBits(va, vb))[1..] == Inverted(XorBits(va[1..], vb[1..]));
    assert eq[1..] == e;
  }

  lemma LeavesHold(bc: BooleanCircuit, agtb: seq<nat>, eq: seq<nat>, va: seq<bool>, vb: seq<bool>, cuts: seq<nat>, r: nat)
    requires |agtb| == |eq| == |va| == |vb| > 0 && bc.Holds(agtb, AndBits(va, Inverted(vb)), r)
    requires bc.Holds(eq[1..], Inverted(XorBits(va, vb))[1..], r)
    requires Cuts(cuts, |va|) && |cuts| == |va| + 1 && forall j | 0 <= j < |cuts| :: cuts[j] == j
    ensures NodesHold(bc, agtb, eq, va, vb, cuts, 0, |va|, r)
  {
    forall j: nat | j < |va|
      ensures NodeHolds(bc, agtb, eq, va, vb, cuts[j], cuts[j + 1], j, r)
    {
      assert Gt(va, vb, j, j) == false;
      assert bc.Wire(agtb[j]);
      if j > 0 {
        assert eq[1..][j - 1] == eq[j];
      }
    }
  }

  /** The comparison tree: usable 1 + ceil(log2 n) rounds after its inputs. */
  method PutDepthOptimizedGTGate(bc: BooleanCircuit, a0: seq<nat>, b0: seq<nat>,
                                 ghost va0: seq<bool>, ghost vb0: seq<bool>, ghost r: nat) returns (gt: nat)
    requires bc.Valid() && bc.Holds(a0, va0, r) && bc.Holds(b0, vb0, r) && |a0| > 0
    modifies bc
    ensures bc.Valid() && bc.Extends() && bc.Wire(gt) && bc.Val(gt) == (Num(va0) > Num(vb0))
    ensures bc.ReadyAt(gt) <= r + 1 + CeilLog2(Max(|a0|, |b0|))
  {
    var a, b := PadWithLeadingZeros(bc, a0, b0, va0, vb0, r);
    ghost var va, vb := Pad(va0, |vb0|), Pad(vb0, |va0|);
    var agtb, eq := PutGTLeaves(bc, a, b, va, vb, r);
    gt := PutGTTree(bc, agtb, eq, va, vb, r + 1);
    PadGreater(va0, vb0);
  }

  method PutGTTree(bc: BooleanCircuit, agtb0: seq<nat>, eq0: seq<nat>, ghost va: seq<bool>, ghost vb: seq<bool>, ghost r: nat)
    returns (gt: nat)
    requires bc.Valid() && |agtb0| == |eq0| == |va| == |vb| > 0 && bc.Holds(agtb0, AndBits(va, Inverted(vb)), r)
    requires bc.Holds(eq0[1..], Inverted(XorBits(va, vb))[1..], r)
    modifies bc
    ensures bc.Valid() && bc.Extends() && bc.Wire(gt) && bc.Val(gt) == Gt(va, vb, 0, |va|)
    ensures bc.ReadyAt(gt) <= r + CeilLog2(|va|)
  {
    ghost var cuts: seq<nat> := seq(|va| + 1, j requires 0 <= j => j);
    LeavesHold(bc, agtb0, eq0, va, vb, cuts, r);
    gt := PutGTLevels(bc, agtb0, eq0, va, vb, cuts, r);
  }

  /** Level by level, until one node is left. */
  method PutGTLevels(bc: BooleanCircuit, agtb0: seq<nat>, eq0: seq<nat>, ghost va: seq<bool>, ghost vb: seq<bool>,
                     ghost cuts0: seq<nat>, ghost r: nat) returns (gt: nat)
    requires bc.Valid() && |agtb0| == |eq0| == |va| == |vb| > 0
    requires Cuts(cuts0, |va|) && |cuts0| == |va| + 1 && cuts0[|va|] == |va|
    requires NodesHold(bc, agtb0, eq0, va, vb, cuts0, 0, |va|, r)
    modifies bc
    ensures bc.Valid() && bc.Extends() && bc.Wire(gt) && bc.Val(gt) == Gt(va, vb, 0, |va|)
    ensures bc.ReadyAt(gt) <= r + CeilLog2(|va|)
  {
    var agtb, eq, rem := agtb0, eq0, |agtb0|;
    ghost var cuts := cuts0;
    ghost var at, todo := r, CeilLog2(|va|);
    while rem > 1
      invariant bc.Valid() && bc.Extends() && 0 < rem <= |agtb| == |eq|
      invariant at + todo == r + CeilLog2(|va|) && rem <= Pow2(todo)
      invariant Cuts(cuts, |va|) && |cuts| == rem + 1 && cuts[rem] == |va|
      invariant NodesHold(bc, agtb, eq, va, vb, cuts, 0, rem, at)
      decreases rem
    {
      OneLevelLess(rem, todo);
      agtb, eq, rem, cuts := PutGTLevel(bc, agtb, eq, rem, va, vb, cuts, at);
      at, todo := at + 1, todo - 1;
    }
    gt := agtb[0];
    assert NodeHolds(bc, agtb, eq, va, vb, cuts[0], cuts[1], 0, at);
  }

  // ----- multiplexer ----------------------------------------------------------------------

  /** The multiplexer, without the vector AND: a where the selector is one, b elsewhere. */
  method PutMUXGate(bc: BooleanCircuit, a0: seq<nat>, b0: seq<nat>, s: nat,
                    ghost va: seq<bool>, ghost vb: seq<bool>, ghost r: nat) returns (out: seq<nat>)
    requires bc.Valid() && bc.Holds(a0, va, r) && bc.Holds(b0, vb, r) && |a0| > 0
    requires bc.Wire(s) && bc.ReadyAt(s) <= r
    modifies bc
    ensures bc.Valid() && bc.Extends()
    ensures bc.Holds(out, if old(bc.Val(s)) then Pad(va, |vb|) else Pad(vb, |va|), r + 1)
  {
    ghost var sel := bc.Val(s);
    var a, b := PadWithLeadingZeros(bc, a0, b0, va, vb, r);
    ghost var pa, pb := Pad(va, |vb|), Pad(vb, |va|);
    ghost var spec := if sel then pa else pb;
    out := [];
    for i := 0 to |a|
      invariant bc.Valid() && bc.Extends() && bc.Holds(a, pa, r) && bc.Holds(b, pb, r)
      invariant bc.Wire(s) && bc.Val(s) == sel && bc.ReadyAt(s) <= r
      invariant bc.Holds(out, spec[..i], r + 1)
    {
      var o := PutMUXBit(bc, a[i], b[i], s, r);
      assert spec[..i + 1] == spec[..i] + [spec[i]];
      bc.HoldsSnoc(out, spec[..i], o, spec[i], r + 1);
      out := out + [o];
    }
    assert spec[..|a|] == spec;
  }

  method PutMUXBit(bc: BooleanCircuit, a: nat, b: nat, s: nat, ghost r: nat) returns (o: nat)
    requires bc.Valid() && bc.Wire(a) && bc.Wire(b) && bc.Wire(s)
    requires bc.ReadyAt(a) <= r && bc.ReadyAt(b) <= r && bc.ReadyAt(s) <= r
    modifies bc
    ensures bc.Valid() && bc.Extends() && bc.Wire(o) && bc.ReadyAt(o) <= r + 1
    ensures bc.Val(o) == old(if bc.Val(s) then bc.Val(a) else bc.Val(b))
  {
    var ab := bc.PutXORGate(a, b);
    var sab := bc.PutANDGate(s, ab);
    o := bc.PutXORGate(b, sab);
  }
}
