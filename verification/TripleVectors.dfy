/** The multiplication triples of one vector length, as flat bit vectors that are updated in place. */
module TripleVectors {
  import opened Bits
  import opened Circuit
  import opened GmwSpec

  /**
    One entry of m_vA, m_vB, m_vC, m_vD_snd, m_vE_snd, m_vD_rcv, m_vE_rcv, m_vResA, m_vResB,
    m_vMTStartIdx, m_vMTIdx and m_vANDGates. There are num triples, each with strings of bitlen bits.
   */
  datatype MT = MT(bitlen: nat, num: nat, a: seq<bool>, b: seq<bool>, c: seq<bool>,
                   dSnd: seq<bool>, eSnd: seq<bool>, dRcv: seq<bool>, eRcv: seq<bool>,
                   resA: seq<bool>, resB: seq<bool>, startIdx: nat, idx: nat, gates: seq<nat>)

  predicate Shape(mt: MT) {
    && mt.bitlen > 0
    && |mt.a| == |mt.dSnd| == |mt.dRcv| == mt.num
    && |mt.b| == |mt.c| == |mt.eSnd| == |mt.eRcv| == |mt.resA| == |mt.resB| == Flat(mt.num, mt.bitlen)
  }

  // ----- bit vector ranges ----------------------------------------------------------------

  /** Positions lo..hi of v, XORed with those of u. */
  function XorRange(v: seq<bool>, u: seq<bool>, lo: nat, hi: nat): (r: seq<bool>)
    requires lo <= hi <= |v| == |u|
    ensures |r| == |v| && forall x | 0 <= x < |r| :: r[x] == if lo <= x < hi then v[x] != u[x] else v[x]
  {
    seq(|v|, x requires 0 <= x < |v| => if lo <= x < hi then v[x] != u[x] else v[x])
  }

  /** The bits XORed onto v from position pos on. */
  function XorBits(v: seq<bool>, bits: seq<bool>, pos: nat): (r: seq<bool>)
    requires pos + |bits| <= |v|
    ensures |r| == |v|
    ensures forall i | 0 <= i < |bits| :: r[pos + i] == (v[pos + i] != bits[i])
    ensures forall x | 0 <= x < |r| && !(pos <= x < pos + |bits|) :: r[x] == v[x]
  {
    seq(|v|, x requires 0 <= x < |v| => if pos <= x < pos + |bits| then v[x] != bits[x - pos] else v[x])
  }

  /** Positions lo..hi of v, replaced by those of u. */
  function CopyRange(v: seq<bool>, u: seq<bool>, lo: nat, hi: nat): (r: seq<bool>)
    requires lo <= hi <= |v| == |u|
    ensures |r| == |v| && forall x | 0 <= x < |r| :: r[x] == if lo <= x < hi then u[x] else v[x]
  {
    v[..lo] + u[lo..hi] + v[hi..]
  }

  /** Positions lo..hi of v, ANDed with those of u. */
  function AndRange(v: seq<bool>, u: seq<bool>, lo: nat, hi: nat): (r: seq<bool>)
    requires lo <= hi <= |v| == |u|
    ensures |r| == |v| && forall x | 0 <= x < |r| :: r[x] == if lo <= x < hi then v[x] && u[x] else v[x]
  {
    seq(|v|, x requires 0 <= x < |v| => if lo <= x < hi then v[x] && u[x] else v[x])
  }

  lemma {:induction false} FlatMonotone(p: nat, q: nat, bitlen: nat)
    requires p <= q
    ensures Flat(p, bitlen) <= Flat(q, bitlen)
    ensures Flat(q, bitlen) == Flat(p, bitlen) + Flat(q - p, bitlen)
  {
    if p < q {
      FlatMonotone(p, q - 1, bitlen);
    }
  }

  lemma FlatNext(p: nat, bitlen: nat)
    ensures Flat(p + 1, bitlen) == Flat(p, bitlen) + bitlen
    ensures Flat(p, 1) == p && Flat(0, bitlen) == 0
  {
    FlatIsProduct(p, 1);
  }

  /** Position x lies in string p. */
  lemma StringOf(p: nat, bitlen: nat, x: nat)
    requires bitlen > 0 && Flat(p, bitlen) <= x < Flat(p, bitlen) + bitlen
    ensures Group(x, bitlen) == p
  {
    FlatIndex(p, bitlen, x - Flat(p, bitlen));
  }

  lemma {:induction false} GroupBound(x: nat, bitlen: nat, num: nat)
    requires bitlen > 0 && x < Flat(num, bitlen)
    ensures Group(x, bitlen) < num
  {
    if x >= bitlen {
      GroupBound(x - bitlen, bitlen, num - 1);
    }
  }

  lemma {:induction false} GroupOne(x: nat)
    ensures Group(x, 1) == x
  {
    if x > 0 {
      GroupOne(x - 1);
    }
  }

  /** Strings lo..hi of dst become those of src where the selector is one, and zero elsewhere. */
  predicate Gated(sel: seq<bool>, src: seq<bool>, dst: seq<bool>, bitlen: nat, lo: nat, hi: nat)
    requires bitlen > 0
  {
    forall x: nat | Flat(lo, bitlen) <= x < Flat(hi, bitlen) && x < |dst| && x < |src| && Group(x, bitlen) < |sel| ::
      dst[x] == (sel[Group(x, bitlen)] && src[x])
  }

  /** The loop over the strings: SetBits where the selector bit is set. */
  method GateStrings(sel: seq<bool>, src: seq<bool>, dst0: seq<bool>, bitlen: nat, lo: nat, hi: nat) returns (dst: seq<bool>)
    requires bitlen > 0 && lo <= hi <= |sel| && |dst0| == |src| == Flat(|sel|, bitlen)
    requires forall x: nat | Flat(lo, bitlen) <= x < Flat(hi, bitlen) && x < |dst0| && Group(x, bitlen) < |sel| ::
               !sel[Group(x, bitlen)] ==> !dst0[x]
    ensures |dst| == |dst0| && Gated(sel, src, dst, bitlen, lo, hi)
    ensures forall x | 0 <= x < |dst| && !(Flat(lo, bitlen) <= x < Flat(hi, bitlen)) :: dst[x] == dst0[x]
  {
    dst := dst0;
    for j := lo to hi
      invariant |dst| == |dst0| && Gated(sel, src, dst, bitlen, lo, j)
      invariant forall x | 0 <= x < |dst| && !(Flat(lo, bitlen) <= x < Flat(j, bitlen)) :: dst[x] == dst0[x]
    {
      FlatMonotone(lo, j, bitlen);
      FlatMonotone(j + 1, hi, bitlen);
      dst := GateString(sel, src, dst, bitlen, lo, j);
    }
  }

  /** One string: it is copied where the selector bit is set, and has been zero before. */
  method GateString(sel: seq<bool>, src: seq<bool>, dst0: seq<bool>, bitlen: nat, lo: nat, j: nat) returns (dst: seq<bool>)
    requires bitlen > 0 && lo <= j < |sel| && |dst0| == |src| == Flat(|sel|, bitlen) && Gated(sel, src, dst0, bitlen, lo, j)
    requires forall x: nat | Flat(j, bitlen) <= x < Flat(j + 1, bitlen) && x < |dst0| && Group(x, bitlen) < |sel| ::
               !sel[Group(x, bitlen)] ==> !dst0[x]
    ensures |dst| == |dst0| && Gated(sel, src, dst, bitlen, lo, j + 1)
    ensures forall x | 0 <= x < |dst| && !(Flat(j, bitlen) <= x < Flat(j + 1, bitlen)) :: dst[x] == dst0[x]
  {
    FlatNext(j, bitlen);
    FlatMonotone(j + 1, |sel|, bitlen);
    dst := if sel[j] then CopyRange(dst0, src, Flat(j, bitlen), Flat(j + 1, bitlen)) else dst0;
    forall x: nat | Flat(lo, bitlen) <= x < Flat(j + 1, bitlen) && x < |dst| && x < |src| && Group(x, bitlen) < |sel|
      ensures dst[x] == (sel[Group(x, bitlen)] && src[x])
    {
      if x >= Flat(j, bitlen) {
        StringOf(j, bitlen, x);
      }
    }
  }

  // ----- setup ----------------------------------------------------------------------------

  /** The triples hold what the run's randomness says. */
  ghost predicate Fixed(w: World, r: Role, mt: MT) {
    && Shape(mt)
    && (forall i: nat | i < mt.num :: mt.a[i] == TripleA(w, r, mt.bitlen, i))
    && (forall x: nat | x < Flat(mt.num, mt.bitlen) ::
          mt.b[x] == TripleB(w, r, mt.bitlen, x) && mt.c[x] == TripleC(w, r, mt.bitlen, x))
  }

  /**
    From triple p on nothing has been opened: D and E are preset with A and B. The results are
    zero from the start of the layer on.
   */
  ghost predicate Fresh(mt: MT, p: nat)
    requires Shape(mt)
  {
    && (forall i: nat | p <= i < mt.num :: mt.dSnd[i] == mt.a[i])
    && (forall x: nat | Flat(p, mt.bitlen) <= x < Flat(mt.num, mt.bitlen) :: mt.eSnd[x] == mt.b[x])
    && (forall x: nat | Flat(mt.startIdx, mt.bitlen) <= x < Flat(mt.num, mt.bitlen) :: !mt.resA[x] && !mt.resB[x])
  }

  function Zeros(n: nat): (z: seq<bool>)
    ensures |z| == n && forall i | 0 <= i < n :: !z[i]
  {
    seq(n, _ => false)
  }

  /**
    ComputeMTs: the vectors still hold the pairs (c, b) = (x0, x1) that were sent and s, what was
    received for the choices a.
   */
  method ComputeMTs(mt0: MT, s: seq<bool>, ghost w: World, ghost r: Role) returns (mt: MT)
    requires Shape(mt0) && |s| == |mt0.c|
    requires forall i: nat | i < mt0.num :: mt0.a[i] == w.choice(r, mt0.bitlen, i)
    requires forall x: nat | x < Flat(mt0.num, mt0.bitlen) ::
               mt0.c[x] == w.x0(r, mt0.bitlen, x) && mt0.b[x] == w.x1(r, mt0.bitlen, x) && s[x] == Chosen(w, r, mt0.bitlen, x)
    requires forall x: nat | x < Flat(mt0.num, mt0.bitlen) :: !mt0.resA[x] && !mt0.resB[x]
    ensures Fixed(w, r, mt) && Fresh(mt, 0)
    ensures mt.bitlen == mt0.bitlen && mt.num == mt0.num && mt.startIdx == mt0.startIdx && mt.idx == mt0.idx
    ensures mt.gates == mt0.gates
  {
    var n := |mt0.c|;
    var b := XorRange(mt0.b, mt0.c, 0, n);
    var temp := GateAll(mt0.a, b, mt0.bitlen);
    var c := XorRange(XorRange(mt0.c, temp, 0, n), s, 0, n);
    mt := mt0.(b := b, c := c, dSnd := mt0.a, eSnd := b);
    forall x: nat | x < n
      ensures mt.b[x] == TripleB(w, r, mt.bitlen, x) && mt.c[x] == TripleC(w, r, mt.bitlen, x)
    {
      GroupBound(x, mt0.bitlen, mt0.num);
      assert temp[x] == (mt0.a[Group(x, mt0.bitlen)] && b[x]);
    }
  }

  /** The strings of b where a is set: SetAND for single bits, a loop over the strings otherwise. */
  method GateAll(a: seq<bool>, b: seq<bool>, bitlen: nat) returns (temp: seq<bool>)
    requires bitlen > 0 && |b| == Flat(|a|, bitlen)
    ensures |temp| == |b|
    ensures forall x: nat | x < |temp| && Group(x, bitlen) < |a| :: temp[x] == (a[Group(x, bitlen)] && b[x])
  {
    FlatNext(|a|, bitlen);
    FlatNext(0, bitlen);
    if bitlen == 1 {
      temp := AndRange(a, b, 0, |b|);
      forall x: nat | x < |temp|
        ensures Group(x, bitlen) == x
      {
        GroupOne(x);
      }
    } else {
      temp := GateStrings(a, b, Zeros(|b|), bitlen, 0, |a|);
    }
  }

  // ----- opening --------------------------------------------------------------------------

  /** SelectiveOpen and SelectiveOpenVec: the operands are XORed onto the next free triples. */
  method OpenTriples(mt0: MT, choice: seq<bool>, vector: seq<bool>, g: nat) returns (mt: MT)
    requires Shape(mt0) && mt0.idx + |choice| <= mt0.num && |vector| == Flat(|choice|, mt0.bitlen)
    ensures Flat(mt0.idx, mt0.bitlen) + |vector| <= Flat(mt0.num, mt0.bitlen)
    ensures mt == mt0.(dSnd := XorBits(mt0.dSnd, choice, mt0.idx),
                       eSnd := XorBits(mt0.eSnd, vector, Flat(mt0.idx, mt0.bitlen)),
                       idx := mt0.idx + |choice|, gates := mt0.gates + [g])
  {
    FlatMonotone(mt0.idx, mt0.idx + |choice|, mt0.bitlen);
    FlatMonotone(mt0.idx + |choice|, mt0.num, mt0.bitlen);
    var startpos := mt0.idx * mt0.bitlen;
    FlatIsProduct(mt0.idx, mt0.bitlen);
    mt := mt0.(dSnd := XorBits(mt0.dSnd, choice, mt0.idx), eSnd := XorBits(mt0.eSnd, vector, startpos),
               idx := mt0.idx + |choice|, gates := mt0.gates + [g]);
  }

  // ----- evaluation -----------------------------------------------------------------------

  lemma Pad8Least(n: nat, m: nat)
    requires n <= m && m % 8 == 0
    ensures Pad8(n) <= m
  {
  }

  lemma {:induction false} FlatBytes(n: nat, bitlen: nat)
    ensures Flat(Pad8(n), bitlen) % 8 == 0
  {
    if n > 0 {
      var m := if n <= 8 then 0 else n - 8;
      assert Pad8(n) == Pad8(m) + 8;
      FlatMonotone(Pad8(m), Pad8(n), bitlen);
      FlatIsProduct(8, bitlen);
      FlatBytes(m, bitlen);
    }
  }

  /** The bytes of the strings of a layer end before the strings of the next layer begin. */
  lemma StringBytes(start: nat, len: nat, bitlen: nat)
    ensures Flat(start, bitlen) + Pad8(Flat(len, bitlen)) <= Flat(start + Pad8(len), bitlen)
  {
    FlatMonotone(len, Pad8(len), bitlen);
    FlatBytes(len, bitlen);
    Pad8Least(Flat(len, bitlen), Flat(Pad8(len), bitlen));
    FlatMonotone(start, start + Pad8(len), bitlen);
  }

  /** Strings lo..hi of the result are shares of the products of this layer. */
  ghost predicate Evaluated(r: Role, mt: MT, d: seq<bool>, e: seq<bool>, lo: nat, hi: nat)
    requires Shape(mt) && |d| == mt.num && |e| == Flat(mt.num, mt.bitlen)
  {
    forall x: nat | Flat(lo, mt.bitlen) <= x < Flat(hi, mt.bitlen) && x < |mt.resA| && Group(x, mt.bitlen) < mt.num ::
      mt.resA[x] == MtResult(r, mt.a[Group(x, mt.bitlen)], mt.b[x], mt.c[x], d[Group(x, mt.bitlen)], e[x])
  }

  /** Single bits, byte by byte. */
  method GateBytes(sel: seq<bool>, src: seq<bool>, dst0: seq<bool>, lo: nat, hi: nat) returns (dst: seq<bool>)
    requires lo <= hi && lo + Pad8(hi - lo) <= |sel| && |dst0| == |src| == Flat(|sel|, 1)
    ensures |dst| == |dst0| && Gated(sel, src, dst, 1, lo, hi)
    ensures forall x | Flat(lo + Pad8(hi - lo), 1) <= x < |dst| :: dst[x] == dst0[x]
  {
    var end := lo + Pad8(hi - lo);
    FlatNext(lo, 1);
    FlatNext(hi, 1);
    FlatNext(end, 1);
    FlatNext(|sel|, 1);
    dst := AndRange(CopyRange(dst0, sel, lo, end), src, lo, end);
    forall x: nat
      ensures Group(x, 1) == x
    {
      GroupOne(x);
    }
  }

  /** x AND y on the strings lo..hi: bytewise for the first class, string by string for the others. */
  method GateRange(sel: seq<bool>, src: seq<bool>, dst0: seq<bool>, bitlen: nat, bytewise: bool, lo: nat, hi: nat)
    returns (dst: seq<bool>)
    requires bitlen > 0 && lo <= hi && lo + Pad8(hi - lo) <= |sel| && |dst0| == |src| == Flat(|sel|, bitlen)
    requires bytewise ==> bitlen == 1
    requires forall x: nat | Flat(lo, bitlen) <= x < Flat(hi, bitlen) && x < |dst0| && Group(x, bitlen) < |sel| ::
               !sel[Group(x, bitlen)] ==> !dst0[x]
    ensures |dst| == |dst0| && Gated(sel, src, dst, bitlen, lo, hi)
    ensures forall x | Flat(lo + Pad8(hi - lo), bitlen) <= x < |dst| :: dst[x] == dst0[x]
  {
    FlatMonotone(hi, lo + Pad8(hi - lo), bitlen);
    if bytewise {
      dst := GateBytes(sel, src, dst0, lo, hi);
    } else {
      dst := GateStrings(sel, src, dst0, bitlen, lo, hi);
    }
  }

  /** The opened triples of this layer become shares of the products; D and E become the opened values. */
  method EvaluateMTs(r: Role, mt0: MT, bytewise: bool) returns (mt: MT)
    requires Shape(mt0) && mt0.startIdx <= mt0.idx && mt0.startIdx + Pad8(mt0.idx - mt0.startIdx) <= mt0.num
    requires bytewise ==> mt0.bitlen == 1
    requires forall x: nat | Flat(mt0.startIdx, mt0.bitlen) <= x < Flat(mt0.num, mt0.bitlen) :: !mt0.resA[x] && !mt0.resB[x]
    ensures Shape(mt) && mt == mt0.(dSnd := mt.dSnd, eSnd := mt.eSnd, resA := mt.resA, resB := mt.resB)
    ensures Evaluated(r, mt, XorRange(mt0.dSnd, mt0.dRcv, 0, mt0.num), XorRange(mt0.eSnd, mt0.eRcv, 0, |mt0.eSnd|),
                      mt0.startIdx, mt0.idx)
    ensures Untouched(mt0, mt, mt0.startIdx + Pad8(mt0.idx - mt0.startIdx))
  {
    mt := mt0;
    if mt0.startIdx != mt0.idx {
      var start, idx, bl := mt0.startIdx, mt0.idx, mt0.bitlen;
      var len := idx - start;
      var next := start + Pad8(len);
      StringBytes(start, len, bl);
      FlatMonotone(next, mt0.num, bl);
      FlatMonotone(start, next, bl);
      mt := EvaluateStrings(r, mt0, bytewise, start, idx, next, Flat(start, bl), Flat(start, bl) + Pad8(Flat(len, bl)));
    }
  }

  /** What belongs to later layers is left alone. */
  ghost predicate Untouched(mt0: MT, mt: MT, next: nat)
    requires Shape(mt0) && Shape(mt) && mt0.num == mt.num && mt0.bitlen == mt.bitlen
  {
    && (forall i: nat | next <= i < mt.num :: mt.dSnd[i] == mt0.dSnd[i])
    && (forall x: nat | Flat(next, mt.bitlen) <= x < Flat(mt.num, mt.bitlen) ::
          mt.eSnd[x] == mt0.eSnd[x] && !mt.resA[x] && !mt.resB[x])
  }

  /** The strings start..idx, which fill the positions lo..hi of the flat vectors up to a byte. */
  method EvaluateStrings(r: Role, mt0: MT, bytewise: bool, start: nat, idx: nat, next: nat, lo: nat, hi: nat) returns (mt: MT)
    requires Shape(mt0) && start <= idx && next == start + Pad8(idx - start) && next <= mt0.num
    requires lo == Flat(start, mt0.bitlen) && hi == lo + Pad8(Flat(idx - start, mt0.bitlen))
    requires hi <= Flat(next, mt0.bitlen) <= Flat(mt0.num, mt0.bitlen)
    requires bytewise ==> mt0.bitlen == 1
    requires forall x: nat | lo <= x < Flat(mt0.num, mt0.bitlen) :: !mt0.resA[x] && !mt0.resB[x]
    ensures Shape(mt) && mt == mt0.(dSnd := mt.dSnd, eSnd := mt.eSnd, resA := mt.resA, resB := mt.resB)
    ensures Evaluated(r, mt, XorRange(mt0.dSnd, mt0.dRcv, 0, mt0.num), XorRange(mt0.eSnd, mt0.eRcv, 0, |mt0.eSnd|), start, idx)
    ensures Untouched(mt0, mt, next)
  {
    ghost var ae, db, sum;
    mt, ae, db, sum := ComputeStrings(r, mt0, bytewise, start, idx, next, lo, hi);
    ResultsOk(r, mt0, mt, ae, db, sum, mt0.bitlen, start, idx, lo, hi);
    BeyondOk(r, mt0, mt, ae, db, sum, Flat(next, mt0.bitlen), lo, hi);
  }

  /** The vectors of the evaluation, one after the other: a & e, d & b, their sum with c, and for the server d & e. */
  method ComputeStrings(r: Role, mt0: MT, bytewise: bool, start: nat, idx: nat, next: nat, lo: nat, hi: nat)
    returns (mt: MT, ghost ae: seq<bool>, ghost db: seq<bool>, ghost sum: seq<bool>)
    requires Shape(mt0) && start <= idx && next == start + Pad8(idx - start) && next <= mt0.num
    requires lo == Flat(start, mt0.bitlen) && hi == lo + Pad8(Flat(idx - start, mt0.bitlen))
    requires hi <= Flat(next, mt0.bitlen) <= Flat(mt0.num, mt0.bitlen)
    requires bytewise ==> mt0.bitlen == 1
    requires forall x: nat | lo <= x < Flat(mt0.num, mt0.bitlen) :: !mt0.resA[x] && !mt0.resB[x]
    ensures Shape(mt) && mt == mt0.(dSnd := mt.dSnd, eSnd := mt.eSnd, resA := mt.resA, resB := mt.resB)
    ensures mt.dSnd == XorRange(mt0.dSnd, mt0.dRcv, start, next) && mt.eSnd == XorRange(mt0.eSnd, mt0.eRcv, lo, hi)
    ensures |ae| == |db| == |mt.resA|
    ensures Gated(mt.a, mt.eSnd, ae, mt.bitlen, start, idx) && Gated(mt.dSnd, mt.b, db, mt.bitlen, start, idx)
    ensures r.SERVER? ==> Gated(mt.dSnd, mt.eSnd, mt.resB, mt.bitlen, start, idx)
    ensures sum == XorRange(XorRange(ae, db, lo, hi), mt.c, lo, hi)
    ensures if r.SERVER? then mt.resA == XorRange(sum, mt.resB, lo, hi) else mt.resA == sum
    ensures forall x | Flat(next, mt.bitlen) <= x < |mt.resA| :: !ae[x] && !db[x] && !mt.resB[x]
  {
    var bl := mt0.bitlen;
    var dSnd := XorRange(mt0.dSnd, mt0.dRcv, start, next);
    var eSnd := XorRange(mt0.eSnd, mt0.eRcv, lo, hi);
    var aAndE := GateRange(mt0.a, eSnd, mt0.resA, bl, bytewise, start, idx);
    var dAndB := GateRange(dSnd, mt0.b, mt0.resB, bl, bytewise, start, idx);
    var withC := XorRange(XorRange(aAndE, dAndB, lo, hi), mt0.c, lo, hi);
    var resA, resB := withC, dAndB;
    if r.SERVER? {
      resB := GateRange(dSnd, eSnd, dAndB, bl, bytewise, start, idx);
      resA := XorRange(withC, resB, lo, hi);
    }
    mt, ae, db, sum := mt0.(dSnd := dSnd, eSnd := eSnd, resA := resA, resB := resB), aAndE, dAndB, withC;
  }

  lemma BeyondOk(r: Role, mt0: MT, mt: MT, ae: seq<bool>, db: seq<bool>, sum: seq<bool>, end: nat, lo: nat, hi: nat)
    requires Shape(mt0) && Shape(mt) && |mt.resA| == |mt0.resA| == |ae| == |db| && lo <= hi <= end <= |mt.resA|
    requires mt.eSnd == XorRange(mt0.eSnd, mt0.eRcv, lo, hi)
    requires forall x | end <= x < |mt.resA| :: !ae[x] && !db[x] && !mt.resB[x]
    requires |mt.c| == |ae| && sum == XorRange(XorRange(ae, db, lo, hi), mt.c, lo, hi)
    requires if r.SERVER? then mt.resA == XorRange(sum, mt.resB, lo, hi) else mt.resA == sum
    ensures forall x: nat | end <= x < |mt.resA| :: mt.eSnd[x] == mt0.eSnd[x] && !mt.resA[x] && !mt.resB[x]
  {
  }

  /** The pieces put together are shares of the products. */
  lemma ResultsOk(r: Role, mt0: MT, mt: MT, ae: seq<bool>, db: seq<bool>, sum: seq<bool>,
                  bl: nat, start: nat, idx: nat, lo: nat, hi: nat)
    requires Shape(mt0) && Shape(mt) && bl == mt0.bitlen && start <= idx && start + Pad8(idx - start) <= mt0.num
    requires mt == mt0.(dSnd := mt.dSnd, eSnd := mt.eSnd, resA := mt.resA, resB := mt.resB)
    requires |ae| == |db| == |mt.resA|
    requires lo == Flat(start, bl) && hi == lo + Pad8(Flat(idx - start, bl)) && hi <= Flat(mt0.num, bl)
    requires mt.dSnd == XorRange(mt0.dSnd, mt0.dRcv, start, start + Pad8(idx - start))
    requires mt.eSnd == XorRange(mt0.eSnd, mt0.eRcv, lo, hi)
    requires Gated(mt.a, mt.eSnd, ae, bl, start, idx) && Gated(mt.dSnd, mt.b, db, bl, start, idx)
    requires r.SERVER? ==> Gated(mt.dSnd, mt.eSnd, mt.resB, bl, start, idx)
    requires sum == XorRange(XorRange(ae, db, lo, hi), mt.c, lo, hi)
    requires if r.SERVER? then mt.resA == XorRange(sum, mt.resB, lo, hi) else mt.resA == sum
    ensures var d, e := XorRange(mt0.dSnd, mt0.dRcv, 0, mt0.num), XorRange(mt0.eSnd, mt0.eRcv, 0, |mt0.eSnd|);
            Evaluated(r, mt, d, e, start, idx)
  {
    var d, e := XorRange(mt0.dSnd, mt0.dRcv, 0, mt0.num), XorRange(mt0.eSnd, mt0.eRcv, 0, |mt0.eSnd|);
    FlatMonotone(start, idx, bl);
    forall x: nat | Flat(start, bl) <= x < Flat(idx, bl)
      ensures Group(x, bl) < mt.num && x < |mt.resA|
      ensures mt.resA[x] == MtResult(r, mt.a[Group(x, bl)], mt.b[x], mt.c[x], d[Group(x, bl)], e[x])
    {
      GroupRange(x, bl, start, idx);
      var i := Group(x, bl);
      assert mt.dSnd[i] == d[i] && mt.eSnd[x] == e[x];
      assert ae[x] == (mt.a[i] && e[x]) && db[x] == (d[i] && mt.b[x]);
    }
  }

  lemma GroupRange(x: nat, bitlen: nat, lo: nat, hi: nat)
    requires bitlen > 0 && Flat(lo, bitlen) <= x < Flat(hi, bitlen)
    ensures lo <= Group(x, bitlen) < hi
  {
    GroupBound(x, bitlen, hi);
    FlatIndex(lo, bitlen, x - Flat(lo, bitlen));
  }
}
