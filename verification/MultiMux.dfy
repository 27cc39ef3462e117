/**
  The vectorised multiplexer: the shares are transposed into one long SIMD value by
  structurised combiners, selected by a single vector AND, and extracted again with a stride.
 */
module MultiMux {
  import opened Bits
  import opened Circuit
  import opened Builder

  /** Number of wires in the first j shares. */
  function FlatLen(shares: seq<seq<nat>>, j: nat): nat
    requires j <= |shares|
  {
    if j == 0 then 0 else FlatLen(shares, j - 1) + |shares[j - 1]|
  }

  lemma {:induction false} FlatLenMonotone(shares: seq<seq<nat>>, j: nat, k: nat)
    requires j <= k <= |shares|
    ensures FlatLen(shares, j) <= FlatLen(shares, k)
  {
    if j < k {
      FlatLenMonotone(shares, j, k - 1);
    }
  }

  /** Position i of the concatenation of the shares: which share, and where in it. */
  predicate Located(shares: seq<seq<nat>>, i: nat, j: nat, idx: nat) {
    j < |shares| && idx < |shares[j]| && FlatLen(shares, j) + idx == i
  }

  lemma LocatedUnique(shares: seq<seq<nat>>, i: nat, j: nat, idx: nat, j2: nat, idx2: nat)
    requires Located(shares, i, j, idx) && Located(shares, i, j2, idx2)
    ensures j == j2 && idx == idx2
  {
    if j < j2 {
      FlatLenMonotone(shares, j + 1, j2);
    } else if j2 < j {
      FlatLenMonotone(shares, j2 + 1, j);
    }
  }

  /** The inner loop of both passes over the shares. */
  method Locate(shares: seq<seq<nat>>, i: nat) returns (j: nat, idx: nat)
    requires i < FlatLen(shares, |shares|)
    ensures Located(shares, i, j, idx)
  {
    var ctr := 0;
    j := 0;
    while i >= ctr + |shares[j]|
      invariant j < |shares| && ctr == FlatLen(shares, j) && ctr <= i
      decreases |shares| - j
    {
      assert FlatLen(shares, j + 1) == ctr + |shares[j]|;
      ctr := ctr + |shares[j]|;
      j := j + 1;
    }
    idx := i - ctr;
  }

  lemma DivBound(t: nat, n: nat, w: nat)
    requires n > 0 && t < n * w
    ensures t / n < w
  {
    if t / n >= w {
      assert n * (t / n) >= n * w by { MulMonotone(n, w, t / n); }
      assert false;
    }
  }

  lemma MulMonotone(n: nat, a: nat, b: nat)
    requires a <= b
    ensures n * a <= n * b
  {
    assert n * (b - a) >= 0;
  }

  /** Where value t of wire i sits once n wires are transposed into one. */
  function Slot(i: nat, t: nat, n: nat): nat {
    i + t * n
  }

  lemma SlotBound(i: nat, t: nat, n: nat, w: nat)
    requires i < n && t < w
    ensures Slot(i, t, n) < n * w
    ensures Slot(i, t, n) / n == t && Slot(i, t, n) % n == i
  {
    MulMonotone(n, t + 1, w);
    assert n * (t + 1) == n * t + n;
    DivModUnique(i + t * n, t, i, n);
  }

  /** PutVecANDMUXGate on transposed operands: every group of bitlen values follows one selector value. */
  method PutVecANDMUXGate(bc: BooleanCircuit, a: nat, b: nat, s: nat, bitlen: nat) returns (gateid: nat)
    requires bc.Valid() && bc.ctx.BOOL? && FullWire(bc, s) && bitlen > 0 && bitlen * bc.width > 0
    requires bc.WireOf(a, bitlen * bc.width) && bc.WireOf(b, bitlen * bc.width)
    modifies bc
    ensures bc.Valid() && bc.Extends() && bc.Keeps() && bc.WireOf(gateid, bitlen * bc.width)
    ensures forall t | 0 <= t < bitlen * bc.width ::
              bc.vals[gateid][t] == if At(bc.vals[s], t / bitlen) then bc.vals[a][t] else bc.vals[b][t]
    ensures bc.GateReady(gateid) <= Max(bc.GateReady(s), Max(bc.GateReady(a), bc.GateReady(b))) + 1
  {
    ghost var total := bitlen * bc.width;
    var ab := bc.PutVectorXORGate(a, b, total);
    var sab := bc.PutVectorANDGate(s, ab, bitlen, bc.width);
    gateid := bc.PutVectorXORGate(b, sab, total);
  }

  predicate SameShape(xs: seq<seq<nat>>, ys: seq<seq<nat>>) {
    |xs| == |ys| && forall j | 0 <= j < |xs| :: |xs[j]| == |ys[j]|
  }

  lemma {:induction false} SameShapeFlat(xs: seq<seq<nat>>, ys: seq<seq<nat>>, j: nat)
    requires SameShape(xs, ys) && j <= |xs|
    ensures FlatLen(xs, j) == FlatLen(ys, j)
  {
    if j > 0 {
      SameShapeFlat(xs, ys, j - 1);
    }
  }

  ghost predicate AllWires(bc: BooleanCircuit, shares: seq<seq<nat>>)
    reads bc
  {
    forall j {:trigger shares[j]} | 0 <= j < |shares| :: Wires(bc, shares[j])
  }

  /** The wires of all shares in one vector. */
  method Flatten(shares: seq<seq<nat>>) returns (flat: seq<nat>)
    ensures IsFlat(shares, flat)
  {
    var bitlen := 0;
    for j := 0 to |shares|
      invariant bitlen == FlatLen(shares, j)
    {
      bitlen := bitlen + |shares[j]|;
    }
    flat := [];
    for i := 0 to bitlen
      invariant |flat| == i
      invariant forall k: nat, j: nat, idx: nat | Located(shares, k, j, idx) && k < i :: flat[k] == shares[j][idx]
    {
      var j, idx := Locate(shares, i);
      forall j2: nat, idx2: nat | Located(shares, i, j2, idx2)
        ensures shares[j2][idx2] == shares[j][idx]
      {
        LocatedUnique(shares, i, j, idx, j2, idx2);
      }
      flat := flat + [shares[j][idx]];
    }
    forall i: nat, j: nat, idx: nat | Located(shares, i, j, idx)
      ensures i < |flat|
    {
      FlatLenMonotone(shares, j + 1, |shares|);
    }
  }

  /** Wire w carries, in every lane, a where the selector is one and b elsewhere. */
  ghost predicate Muxed(bc: BooleanCircuit, w: nat, a: nat, b: nat, sel: nat)
    requires FullWire(bc, a) && FullWire(bc, b) && FullWire(bc, sel)
    reads bc
  {
    && FullWire(bc, w)
    && forall t | 0 <= t < bc.width ::
         bc.vals[w][t] == if bc.vals[sel][t] then bc.vals[a][t] else bc.vals[b][t]
  }

  /** A wire of the common width, seen in all its lanes. */
  ghost predicate FullWire(bc: BooleanCircuit, w: nat)
    reads bc
  {
    bc.WireOf(w, bc.width)
  }

  ghost predicate Wires(bc: BooleanCircuit, ws: seq<nat>)
    reads bc
  {
    forall i {:trigger ws[i]} | 0 <= i < |ws| :: FullWire(bc, ws[i])
  }

  /** Transposes the wires into one: value t of wire i goes to its slot. */
  method PutTransposeGate(bc: BooleanCircuit, wires: seq<nat>, ghost r: nat) returns (vec: nat)
    requires bc.Valid() && |wires| > 0 && Wires(bc, wires) && bc.lane < bc.width
    requires forall i | 0 <= i < |wires| :: bc.GateReady(wires[i]) <= r
    modifies bc
    ensures bc.Valid() && bc.Extends() && bc.Keeps() && bc.WireOf(vec, |wires| * bc.width) && bc.GateReady(vec) <= r
    ensures forall i: nat, t: nat | i < |wires| && t < bc.width ::
              At(bc.vals[vec], Slot(i, t, |wires|)) == old(bc.vals[wires[i]])[t]
  {
    assert FullWire(bc, wires[0]);
    var total := |wires| * bc.gates[wires[0]].nvals;
    TransposeShape(|wires|, bc.width);
    vec := bc.PutStructurizedCombinerGate(wires, 0, 1, total, bc.width, r);
    forall i: nat, t: nat | i < |wires| && t < bc.width
      ensures At(bc.vals[vec], Slot(i, t, |wires|)) == old(bc.vals[wires[i]])[t]
    {
      SlotBound(i, t, |wires|, bc.width);
      assert StructBit(wires, 0, 1, old(bc.vals), Slot(i, t, |wires|)) == old(bc.vals[wires[i]])[t];
    }
  }

  /** Extracts wire i again: every bitlen-th value, starting at i. */
  method PutStrideGate(bc: BooleanCircuit, vec: nat, i: nat, bitlen: nat, nvals: nat, ghost r: nat) returns (w: nat)
    requires bc.Valid() && i < bitlen && nvals == bc.width && bc.lane < bc.width
    requires bc.WireOf(vec, bitlen * bc.width) && bc.GateReady(vec) <= r
    modifies bc
    ensures bc.Valid() && bc.Extends() && bc.Keeps() && FullWire(bc, w) && bc.GateReady(w) <= r
    ensures forall t: nat | t < bc.width :: bc.vals[w][t] == At(old(bc.vals[vec]), Slot(i, t, bitlen))
  {
    forall t | 0 <= t < nvals
      ensures i + t / |[vec]| * bitlen < bitlen * bc.width
    {
      SlotBound(i, t, bitlen, bc.width);
      assert t / 1 == t;
    }
    w := bc.PutStructurizedCombinerGate([vec], i, bitlen, nvals, bitlen * bc.width, r);
    forall t: nat | t < bc.width
      ensures StructBit([vec], i, bitlen, old(bc.vals), t) == At(old(bc.vals[vec]), Slot(i, t, bitlen))
    {
      assert t % 1 == 0 && t / 1 == t;
    }
  }

  /** The value at slot (i, t) of the selected vector. */
  ghost predicate SlotMuxed(bc: BooleanCircuit, out: nat, a: nat, b: nat, sel: nat, i: nat, n: nat)
    requires FullWire(bc, a) && FullWire(bc, b) && FullWire(bc, sel) && out < |bc.vals|
    reads bc
  {
    forall t: nat | t < bc.width ::
      At(bc.vals[out], Slot(i, t, n)) == if bc.vals[sel][t] then bc.vals[a][t] else bc.vals[b][t]
  }

  /** Transpose, then select with one vector AND. */
  method PutTransposedMux(bc: BooleanCircuit, vala: seq<nat>, valb: seq<nat>, sel: nat, ghost r: nat) returns (out: nat)
    requires bc.Valid() && bc.ctx.BOOL? && |vala| == |valb| > 0
    requires Wires(bc, vala) && Wires(bc, valb) && FullWire(bc, sel) && bc.GateReady(sel) <= r
    requires forall i | 0 <= i < |vala| :: bc.GateReady(vala[i]) <= r && bc.GateReady(valb[i]) <= r
    modifies bc
    ensures bc.Valid() && bc.Extends() && bc.Keeps() && bc.WireOf(out, |vala| * bc.width) && bc.GateReady(out) <= r + 1
    ensures Wires(bc, vala) && Wires(bc, valb) && FullWire(bc, sel)
    ensures forall i: nat | i < |vala| :: SlotMuxed(bc, out, vala[i], valb[i], sel, i, |vala|)
  {
    var bitlen := |vala|;
    TransposeShape(bitlen, bc.width);
    var avec := PutTransposeGate(bc, vala, r);
    var bvec := PutTransposeGate(bc, valb, r);
    out := PutVecANDMUXGate(bc, avec, bvec, sel, bitlen);
    forall i: nat, t: nat | i < bitlen && t < bc.width
      ensures At(bc.vals[out], Slot(i, t, bitlen)) == if bc.vals[sel][t] then bc.vals[vala[i]][t] else bc.vals[valb[i]][t]
    {
      SlotBound(i, t, bitlen, bc.width);
    }
  }

  lemma TransposeShape(n: nat, w: nat)
    requires n > 0 && w > 0
    ensures n * w > 0 && (n * w) % n == 0
    ensures forall t | 0 <= t < n * w :: 0 + t / n * 1 < w
  {
    MulMonotone(n, 1, w);
    DivModUnique(n * w, w, 0, n);
    forall t | 0 <= t < n * w
      ensures t / n < w
    {
      DivBound(t, n, w);
    }
  }

  ghost predicate ReadyBy(bc: BooleanCircuit, shares: seq<seq<nat>>, r: nat)
    requires AllWires(bc, shares)
    reads bc
  {
    forall j, i | 0 <= j < |shares| && 0 <= i < |shares[j]| :: FullWire(bc, shares[j][i]) && bc.GateReady(shares[j][i]) <= r
  }

  ghost predicate IsFlat(shares: seq<seq<nat>>, flat: seq<nat>) {
    && |flat| == FlatLen(shares, |shares|)
    && forall i: nat, j: nat, idx: nat | Located(shares, i, j, idx) :: i < |flat| && flat[i] == shares[j][idx]
  }

  lemma FlatWires(bc: BooleanCircuit, shares: seq<seq<nat>>, flat: seq<nat>, r: nat)
    requires AllWires(bc, shares) && ReadyBy(bc, shares, r) && IsFlat(shares, flat)
    ensures Wires(bc, flat) && forall i | 0 <= i < |flat| :: bc.GateReady(flat[i]) <= r
  {
    forall i | 0 <= i < |flat|
      ensures FullWire(bc, flat[i]) && bc.GateReady(flat[i]) <= r
    {
      LocatedExists(shares, i, |shares|);
      var j: nat, idx: nat :| Located(shares, i, j, idx);
      assert FullWire(bc, shares[j][idx]);
    }
  }

  /** The second pass: every output wire is extracted with a stride. */
  method ExtractShares(bc: BooleanCircuit, shape: seq<seq<nat>>, ghost vala: seq<nat>, ghost valb: seq<nat>,
                       sel: nat, out: nat, bitlen: nat, ghost r: nat) returns (sout: seq<seq<nat>>)
    requires bc.Valid() && Selected(bc, shape, vala, valb, sel, out, bitlen, r)
    modifies bc
    ensures bc.Valid() && bc.Extends() && bc.Keeps() && SameShape(shape, sout)
    ensures Selected(bc, shape, vala, valb, sel, out, bitlen, r) && Extracted(bc, shape, sout, vala, valb, sel, bitlen, r)
  {
    sout := shape;
    for i := 0 to bitlen
      invariant bc.Valid() && bc.Extends() && bc.Keeps() && Selected(bc, shape, vala, valb, sel, out, bitlen, r)
      invariant SameShape(shape, sout) && Extracted(bc, shape, sout, vala, valb, sel, i, r)
    {
      sout := ExtractNext(bc, shape, sout, vala, valb, sel, out, bitlen, i, r);
    }
  }

  /** The result of the transposed selection holds every wire of the operands in its own slots. */
  ghost predicate Selected(bc: BooleanCircuit, shape: seq<seq<nat>>, vala: seq<nat>, valb: seq<nat>, sel: nat, out: nat, bitlen: nat, r: nat)
    requires bc.Valid()
    reads bc
  {
    && Wires(bc, vala) && Wires(bc, valb) && FullWire(bc, sel) && IsFlat(shape, vala)
    && |valb| == |vala| == bitlen && bc.WireOf(out, bitlen * bc.width) && bc.GateReady(out) <= r
    && forall k: nat | k < bitlen :: SlotMuxed(bc, out, vala[k], valb[k], sel, k, bitlen)
  }

  method ExtractNext(bc: BooleanCircuit, shape: seq<seq<nat>>, sout0: seq<seq<nat>>, ghost vala: seq<nat>, ghost valb: seq<nat>,
                     sel: nat, out: nat, bitlen: nat, i: nat, ghost r: nat) returns (sout: seq<seq<nat>>)
    requires bc.Valid() && Selected(bc, shape, vala, valb, sel, out, bitlen, r) && i < bitlen
    requires SameShape(shape, sout0) && Extracted(bc, shape, sout0, vala, valb, sel, i, r)
    modifies bc
    ensures bc.Valid() && bc.Extends() && bc.Keeps() && SameShape(shape, sout)
    ensures Selected(bc, shape, vala, valb, sel, out, bitlen, r) && Extracted(bc, shape, sout, vala, valb, sel, i + 1, r)
  {
    var j, idx := Locate(shape, i);
    assert SlotMuxed(bc, out, vala[i], valb[i], sel, i, bitlen);
    var w := PutStrideGate(bc, out, i, bitlen, bc.gates[sel].nvals, r);
    ExtractedNext(bc, shape, sout0, vala, valb, sel, i, j, idx, w, r);
    sout := sout0[j := sout0[j][idx := w]];
  }

  /** The first n wires of the operands have been selected and stand where the shape has them. */
  ghost predicate Extracted(bc: BooleanCircuit, shape: seq<seq<nat>>, sout: seq<seq<nat>>, vala: seq<nat>, valb: seq<nat>, sel: nat,
                            n: nat, r: nat)
    requires bc.Valid() && Wires(bc, vala) && Wires(bc, valb) && FullWire(bc, sel) && IsFlat(shape, vala) && |valb| == |vala|
    requires SameShape(shape, sout)
    reads bc
  {
    forall k: nat, j: nat, idx: nat | Located(shape, k, j, idx) && k < n ::
      Muxed(bc, sout[j][idx], vala[k], valb[k], sel) && bc.GateReady(sout[j][idx]) <= r
  }

  lemma ExtractedNext(bc: BooleanCircuit, shape: seq<seq<nat>>, sout: seq<seq<nat>>, vala: seq<nat>, valb: seq<nat>, sel: nat,
                      i: nat, j: nat, idx: nat, w: nat, r: nat)
    requires bc.Valid() && Wires(bc, vala) && Wires(bc, valb) && FullWire(bc, sel) && IsFlat(shape, vala) && |valb| == |vala|
    requires SameShape(shape, sout) && Extracted(bc, shape, sout, vala, valb, sel, i, r)
    requires Located(shape, i, j, idx) && i < |vala| && Muxed(bc, w, vala[i], valb[i], sel) && bc.GateReady(w) <= r
    ensures var row: seq<nat> := sout[j][idx := w]; Extracted(bc, shape, sout[j := row], vala, valb, sel, i + 1, r)
  {
    forall k: nat, j2: nat, idx2: nat | Located(shape, k, j2, idx2) && k == i
      ensures j2 == j && idx2 == idx
    {
      LocatedUnique(shape, i, j, idx, j2, idx2);
    }
  }

  /** In every lane, every share comes from sa where the selector is one and from sb elsewhere. */
  method SelectShares(bc: BooleanCircuit, sa: seq<seq<nat>>, sb: seq<seq<nat>>, sel: nat, ghost r: nat)
    returns (sout: seq<seq<nat>>)
    requires bc.Valid() && bc.ctx.BOOL? && SameShape(sa, sb) && FlatLen(sa, |sa|) > 0
    requires AllWires(bc, sa) && AllWires(bc, sb) && FullWire(bc, sel)
    requires bc.GateReady(sel) <= r && ReadyBy(bc, sa, r) && ReadyBy(bc, sb, r)
    modifies bc
    ensures bc.Valid() && bc.Extends() && bc.Keeps() && SameShape(sa, sout)
    ensures forall j, i | 0 <= j < |sa| && 0 <= i < |sa[j]| ::
              FullWire(bc, sa[j][i]) && FullWire(bc, sb[j][i]) && FullWire(bc, sel) &&
              Muxed(bc, sout[j][i], sa[j][i], sb[j][i], sel) && bc.GateReady(sout[j][i]) <= r + 1
  {
    var vala := Flatten(sa);
    var valb := Flatten(sb);
    SameShapeFlat(sa, sb, |sa|);
    FlatWires(bc, sa, vala, r);
    FlatWires(bc, sb, valb, r);
    var out := PutTransposedMux(bc, vala, valb, sel, r);
    sout := ExtractShares(bc, sa, vala, valb, sel, out, |vala|, r + 1);
    forall j, i | 0 <= j < |sa| && 0 <= i < |sa[j]|
      ensures FullWire(bc, sa[j][i]) && FullWire(bc, sb[j][i])
      ensures Muxed(bc, sout[j][i], sa[j][i], sb[j][i], sel) && bc.GateReady(sout[j][i]) <= r + 1
    {
      var k := FlatLen(sa, j) + i;
      SameShapeFlat(sa, sb, j);
      assert Located(sa, k, j, i) && Located(sb, k, j, i);
    }
  }

  /**
    In every lane, every share comes from sa where the selector is one and from sb elsewhere.
    SelectShares promises it for all lanes at once; here it is read off in the chosen lane.
   */
  method PutMultiMUXGate(bc: BooleanCircuit, sa: seq<seq<nat>>, sb: seq<seq<nat>>, sel: nat, ghost r: nat)
    returns (sout: seq<seq<nat>>)
    requires bc.Valid() && bc.ctx.BOOL? && SameShape(sa, sb) && FlatLen(sa, |sa|) > 0
    requires bc.Wire(sel) && bc.ReadyAt(sel) <= r
    requires forall j, i | 0 <= j < |sa| && 0 <= i < |sa[j]| ::
               bc.Wire(sa[j][i]) && bc.ReadyAt(sa[j][i]) <= r && bc.Wire(sb[j][i]) && bc.ReadyAt(sb[j][i]) <= r
    modifies bc
    ensures bc.Valid() && bc.Extends() && SameShape(sa, sout)
    ensures forall j, i | 0 <= j < |sa| && 0 <= i < |sa[j]| ::
              bc.Wire(sout[j][i]) && bc.ReadyAt(sout[j][i]) <= r + 1 &&
              bc.Val(sout[j][i]) == old(if bc.Val(sel) then bc.Val(sa[j][i]) else bc.Val(sb[j][i]))
  {
    bc.WireIsWireOf(sel);
    forall j, i | 0 <= j < |sa| && 0 <= i < |sa[j]|
      ensures FullWire(bc, sa[j][i]) && FullWire(bc, sb[j][i])
      ensures bc.GateReady(sa[j][i]) <= r && bc.GateReady(sb[j][i]) <= r
      ensures bc.Val(sa[j][i]) == bc.vals[sa[j][i]][bc.lane] && bc.Val(sb[j][i]) == bc.vals[sb[j][i]][bc.lane]
    {
      bc.WireIsWireOf(sa[j][i]);
      bc.WireIsWireOf(sb[j][i]);
    }
    sout := SelectShares(bc, sa, sb, sel, r);
    forall j, i | 0 <= j < |sa| && 0 <= i < |sa[j]|
      ensures bc.Wire(sout[j][i]) && bc.ReadyAt(sout[j][i]) <= r + 1
      ensures bc.Val(sout[j][i]) == old(if bc.Val(sel) then bc.Val(sa[j][i]) else bc.Val(sb[j][i]))
    {
      bc.WireOfIsWire(sout[j][i]);
    }
  }

  lemma {:induction false} LocatedExists(shares: seq<seq<nat>>, i: nat, n: nat)
    requires n <= |shares| && i < FlatLen(shares, n)
    ensures exists j: nat, idx: nat :: Located(shares, i, j, idx)
  {
    if i < FlatLen(shares, n - 1) {
      LocatedExists(shares, i, n - 1);
    } else {
      assert Located(shares, i, n - 1, i - FlatLen(shares, n - 1));
    }
  }
}
