/** Multiplication of additively shared words with triples. */
module ArithParty {
  import opened Bits
  import opened Circuit
  import opened Words
  import opened ArithTriples

  // ----- the algebra of triples and openings ----------------------------------------------

  /** MOD_SUB. */
  function ModSubtract(a: nat, b: nat, m: nat): (r: nat)
    requires a < m && b < m
    ensures r == Mod(a - b, m)
  {
    ModSmall(if b > a then m - b + a else a - b, m);
    ModStep(a - b, m);
    if b > a then m - b + a else a - b
  }

  lemma CrossTerms(a0: nat, a1: nat, b0: nat, b1: nat)
    ensures (a0 + a1) * (b0 + b1) == a0 * b0 + a1 * b1 + b0 * a1 + b1 * a0
  {
  }

  /** Own products and shares of the cross products add up to a triple. */
  lemma TripleCorrect(a0: nat, b0: nat, x0: nat, s0: nat, a1: nat, b1: nat, x1: nat, s1: nat, m: nat)
    requires m > 0 && Mod(x0 + s1, m) == Mod(b0 * a1, m) && Mod(x1 + s0, m) == Mod(b1 * a0, m)
    ensures Mod(Mod(a0 * b0 + x0 + s0, m) + Mod(a1 * b1 + x1 + s1, m), m) == Mod((a0 + a1) * (b0 + b1), m)
  {
    var p, q, own := x0 + s1, x1 + s0, a0 * b0 + a1 * b1;
    ModAddBoth(a0 * b0 + x0 + s0, a1 * b1 + x1 + s1, m);
    ModAdd(p, own + q, m);
    ModAdd(b0 * a1, own + q, m);
    ModAdd(q, own + b0 * a1, m);
    ModAdd(b1 * a0, own + b0 * a1, m);
    CrossTerms(a0, a1, b0, b1);
  }

  /** What a party computes from an opened product. */
  function MtWord(role: Role, a: nat, b: nat, c: nat, d: nat, e: nat, m: nat): nat
    requires m > 0
  {
    var tempres := Mod(a * e + b * d + c, m);
    if role.SERVER? then Mod(tempres + d * e, m) else tempres
  }

  /** The product identity behind the openings, over the integers. */
  lemma Opened(a: int, b: int, x: int, y: int)
    ensures a * (y - b) + b * (x - a) + a * b + (x - a) * (y - b) == x * y
  {
  }

  /** Both shares of an opened product, for arbitrary representatives of d and e. */
  lemma MtSum(a0: nat, a1: nat, b0: nat, b1: nat, c0: nat, c1: nat, d: nat, e: nat, m: nat)
    requires m > 0 && Mod(c0 + c1, m) == Mod((a0 + a1) * (b0 + b1), m)
    ensures Mod(MtWord(SERVER, a0, b0, c0, d, e, m) + MtWord(CLIENT, a1, b1, c1, d, e, m), m) ==
            Mod((a0 + a1) * e + (b0 + b1) * d + (a0 + a1) * (b0 + b1) + d * e, m)
  {
    var s, t, de := a0 * e + b0 * d + c0, a1 * e + b1 * d + c1, d * e;
    ModAdd(s, de, m);
    ModAddBoth(s + de, t, m);
    var rest := (a0 + a1) * e + (b0 + b1) * d + de;
    Gather(a0, a1, b0, b1, d, e);
    ModAdd(c0 + c1, rest, m);
    ModAdd((a0 + a1) * (b0 + b1), rest, m);
  }

  lemma Gather(a0: nat, a1: nat, b0: nat, b1: nat, d: nat, e: nat)
    ensures (a0 + a1) * e + (b0 + b1) * d == a0 * e + b0 * d + (a1 * e + b1 * d)
  {
  }

  /** Replacing a factor by a congruent one. */
  lemma ModFactor(p: int, q: int, y: nat, m: nat)
    requires m > 0 && Mod(p, m) == Mod(q, m)
    ensures Mod(p * y, m) == Mod(q * y, m)
  {
    ModMul(p, y, m);
    ModMul(q, y, m);
  }

  lemma ModReplace(p: int, q: int, rest: int, m: nat)
    requires m > 0 && Mod(p, m) == Mod(q, m)
    ensures Mod(p + rest, m) == Mod(q + rest, m)
  {
    ModAdd(p, rest, m);
    ModAdd(q, rest, m);
  }

  /** The opened differences may be replaced by the exact ones. */
  lemma OpenedMod(a: nat, b: nat, x: nat, y: nat, d: nat, e: nat, m: nat)
    requires m > 0 && Mod(d, m) == Mod(x - a, m) && Mod(e, m) == Mod(y - b, m)
    ensures Mod(a * e + b * d + a * b + d * e, m) == Mod(x * y, m)
  {
    var de, dx, ey := d * e, x - a, y - b;
    ModFactor(e, ey, a, m);
    ModFactor(d, dx, b, m);
    ModFactor(d, dx, e, m);
    Swap(a, e);
    Swap(b, d);
    SwapInt(ey, a);
    SwapInt(dx, b);
    ModReplace(e * a, ey * a, b * d + a * b + de, m);
    ModReplace(d * b, dx * b, ey * a + a * b + de, m);
    ModReplace(de, dx * e, ey * a + dx * b + a * b, m);
    ProductOfDifferences(dx, e, ey, m);
    ModReplace(dx * e, dx * ey, ey * a + dx * b + a * b, m);
    Opened(a, b, x, y);
  }

  lemma Swap(p: nat, q: nat)
    ensures p * q == q * p
  {
  }

  lemma SwapInt(p: int, q: int)
    ensures p * q == q * p
  {
  }

  /** The second factor may be negative, and so may the first. */
  lemma ProductOfDifferences(dx: int, e: nat, ey: int, m: nat)
    requires m > 0 && Mod(e, m) == Mod(ey, m)
    ensures Mod(dx * e, m) == Mod(dx * ey, m)
  {
    var r := Mod(dx, m);
    ModMul(dx, e, m);
    ModFactor(e, ey, r, m);
    SwapInt(e, r);
    MulInt(dx, ey, m);
    SwapInt(ey, r);
  }

  /** Reducing the first factor, when the second one may be negative. */
  lemma {:induction false} MulInt(x: int, y: int, m: nat)
    requires m > 0
    ensures Mod(Mod(x, m) * y, m) == Mod(x * y, m)
    decreases if x < 0 then m - x else x
  {
    Distribute(x, m, y);
    if x < 0 {
      MulInt(x + m, y, m);
      ShiftedInt(x * y, y, m);
    } else if x >= m {
      MulInt(x - m, y, m);
      ShiftedInt(x * y - m * y, y, m);
    }
  }

  lemma ShiftedInt(z: int, k: int, m: nat)
    requires m > 0
    ensures Mod(z + m * k, m) == Mod(z, m)
  {
    if k >= 0 {
      ModCycles(z, k, m);
      SwapInt(k, m);
    } else {
      ModCycles(z + m * k, -k, m);
      Opposite(m, k);
    }
  }

  lemma Opposite(m: int, k: int)
    ensures m * k + -k * m == 0
  {
  }

  /** Opening x - a and y - b, and evaluating with the triple, yields shares of x * y. */
  lemma MulShares(a0: nat, a1: nat, b0: nat, b1: nat, c0: nat, c1: nat, x0: nat, x1: nat, y0: nat, y1: nat, m: nat)
    requires m > 0 && Mod(c0 + c1, m) == Mod((a0 + a1) * (b0 + b1), m)
    ensures var d := Mod(Mod(x0 - a0, m) + Mod(x1 - a1, m), m);
            var e := Mod(Mod(y0 - b0, m) + Mod(y1 - b1, m), m);
            Mod(MtWord(SERVER, a0, b0, c0, d, e, m) + MtWord(CLIENT, a1, b1, c1, d, e, m), m) == Mod((x0 + x1) * (y0 + y1), m)
  {
    var d, e := Mod(Mod(x0 - a0, m) + Mod(x1 - a1, m), m), Mod(Mod(y0 - b0, m) + Mod(y1 - b1, m), m);
    ModAddBoth(x0 - a0, x1 - a1, m);
    ModAddBoth(y0 - b0, y1 - b1, m);
    ModSmall(d, m);
    ModSmall(e, m);
    MtSum(a0, a1, b0, b1, c0, c1, d, e, m);
    OpenedMod(a0 + a1, b0 + b1, x0 + x1, y0 + y1, d, e, m);
  }

  // ----- a party --------------------------------------------------------------------------

  /** A multiplication of two shared vectors. */
  datatype MulGate = MulGate(id: nat, left: nat, right: nat, nvals: nat)

  /** Where the words of gate k begin among the words of a layer. */
  function Offset(gates: seq<MulGate>, k: nat): nat
    requires k <= |gates|
  {
    if k == 0 then 0 else Offset(gates, k - 1) + gates[k - 1].nvals
  }

  lemma {:induction false} OffsetMonotone(gates: seq<MulGate>, j: nat, k: nat)
    requires j <= k <= |gates|
    ensures Offset(gates, j) <= Offset(gates, k)
  {
    if j < k {
      OffsetMonotone(gates, j, k - 1);
    }
  }

  lemma {:induction false} OffsetPrefix(gates: seq<MulGate>, more: seq<MulGate>, k: nat)
    requires k <= |gates|
    ensures Offset(gates + more, k) == Offset(gates, k)
  {
    if k > 0 {
      OffsetPrefix(gates, more, k - 1);
    }
  }

  predicate GateReady(g: MulGate, aval: map<nat, seq<nat>>) {
    g.nvals > 0 && g.left in aval && g.right in aval && |aval[g.left]| == |aval[g.right]| == g.nvals && g.id !in aval
  }

  ghost predicate Fits(gates: seq<MulGate>, aval: map<nat, seq<nat>>, k: nat) {
    && k < |gates| && GateReady(gates[k], aval)
    && forall j: nat | j < k :: gates[j].id != gates[k].id
  }

  /** The gates of one layer: new ids, and operands that are there. */
  ghost predicate Layer(gates: seq<MulGate>, aval: map<nat, seq<nat>>) {
    forall k: nat {:trigger Fits(gates, aval, k)} | k < |gates| :: Fits(gates, aval, k)
  }

  /** The words of gate k, in a vector of the layer's words. */
  function Part(gates: seq<MulGate>, words: seq<nat>, at: nat, k: nat): seq<nat>
    requires k < |gates|
  {
    var from := at + Offset(gates, k);
    if from + gates[k].nvals <= |words| then words[from..from + gates[k].nvals] else []
  }

  /** Gate k has received its part of the results. */
  ghost predicate Received(gates: seq<MulGate>, aval: map<nat, seq<nat>>, res: seq<nat>, at: nat, k: nat) {
    k < |gates| && gates[k].id in aval && aval[gates[k].id] == Part(gates, res, at, k)
  }

  ghost predicate AllReceived(gates: seq<MulGate>, aval: map<nat, seq<nat>>, res: seq<nat>, at: nat, n: nat) {
    forall k: nat {:trigger Received(gates, aval, res, at, k)} | k < n :: Received(gates, aval, res, at, k)
  }

  /** Everything in a vector is a word. */
  predicate AllWords(v: seq<nat>, m: nat) {
    forall i | 0 <= i < |v| :: v[i] < m
  }

  /** Every gate value consists of words. */
  ghost predicate Holds(aval: map<nat, seq<nat>>, m: nat) {
    forall g {:trigger aval[g]} | g in aval :: AllWords(aval[g], m)
  }

  predicate Kept(aval: map<nat, seq<nat>>, r: map<nat, seq<nat>>) {
    forall g | g in aval :: g in r && r[g] == aval[g]
  }

  /** EvaluateMULGate: the results of a layer become the values of its gates. */
  method SpreadResults(gates: seq<MulGate>, aval: map<nat, seq<nat>>, resA: seq<nat>, startIdx: nat, endIdx: nat, ghost m: nat)
    returns (r: map<nat, seq<nat>>)
    requires Layer(gates, aval) && endIdx == startIdx + Offset(gates, |gates|) && endIdx <= |resA|
    requires Holds(aval, m) && AllWords(resA, m)
    ensures Kept(aval, r) && AllReceived(gates, r, resA, startIdx, |gates|)
    ensures Holds(r, m)
  {
    r := aval;
    var i: nat, idx: nat := 0, startIdx;
    while i < |gates| && idx < endIdx
      invariant i <= |gates| && idx == startIdx + Offset(gates, i)
      invariant Kept(aval, r) && AllReceived(gates, r, resA, startIdx, i)
      invariant Holds(r, m)
    {
      OffsetMonotone(gates, i + 1, |gates|);
      assert Fits(gates, aval, i);
      ghost var before := r;
      r := r[gates[i].id := resA[idx..idx + gates[i].nvals]];
      ReceivedNext(gates, aval, before, r, resA, startIdx, i);
      idx := idx + gates[i].nvals;
      i := i + 1;
    }
    if i < |gates| {
      WordsLeft(gates, aval, i);
    }
  }

  lemma WordsLeft(gates: seq<MulGate>, aval: map<nat, seq<nat>>, i: nat)
    requires Layer(gates, aval) && i < |gates|
    ensures Offset(gates, i) < Offset(gates, |gates|)
  {
    OffsetMonotone(gates, i + 1, |gates|);
    assert Fits(gates, aval, i);
  }

  lemma ReceivedNext(gates: seq<MulGate>, aval: map<nat, seq<nat>>, before: map<nat, seq<nat>>, r: map<nat, seq<nat>>, res: seq<nat>, at: nat, i: nat)
    requires Fits(gates, aval, i) && Kept(aval, before) && AllReceived(gates, before, res, at, i)
    requires r == before[gates[i].id := Part(gates, res, at, i)]
    ensures Kept(aval, r) && AllReceived(gates, r, res, at, i + 1)
  {
    forall k: nat | k < i + 1
      ensures Received(gates, r, res, at, k)
    {
      assert k < i ==> Received(gates, before, res, at, k);
    }
  }

  // ----- a party --------------------------------------------------------------------------

  /** Entry i of a buffer: prepared, or opened in this layer. */
  predicate OpenedAt(prepared: seq<nat>, snd: seq<nat>, xs: seq<nat>, start: nat, idx: nat, m: nat, i: nat)
    requires m > 0
  {
    && i < |prepared| && i < |snd|
    && (start <= i < idx ==> i - start < |xs| && snd[i] == Mod(Less(xs[i - start], prepared[i]), m))
    && (idx <= i ==> snd[i] == prepared[i])
  }

  /** The entries start to idx of a buffer open the words xs; the later ones are still the triple's. */
  ghost predicate Opening(prepared: seq<nat>, snd: seq<nat>, xs: seq<nat>, start: nat, idx: nat, m: nat) {
    && m > 0 && start <= idx <= |prepared| == |snd| && |xs| == idx - start && AllWords(snd, m)
    && forall i: nat {:trigger OpenedAt(prepared, snd, xs, start, idx, m, i)} | start <= i < |snd| ::
         OpenedAt(prepared, snd, xs, start, idx, m, i)
  }

  lemma Prepared(v: seq<nat>, m: nat)
    requires m > 0 && AllWords(v, m)
    ensures Opening(v, v, [], 0, 0, m)
  {
    forall i: nat | 0 <= i < |v|
      ensures OpenedAt(v, v, [], 0, 0, m, i)
    {
    }
  }

  /** What is opened is done with when the next layer begins. */
  lemma OpeningClosed(prepared: seq<nat>, snd: seq<nat>, xs: seq<nat>, start: nat, idx: nat, m: nat)
    requires Opening(prepared, snd, xs, start, idx, m)
    ensures Opening(prepared, snd, [], idx, idx, m)
  {
    forall i: nat | idx <= i < |snd|
      ensures OpenedAt(prepared, snd, [], idx, idx, m, i)
    {
      assert OpenedAt(prepared, snd, xs, start, idx, m, i);
    }
  }

  /** SelectiveOpen on one of the two buffers. */
  method OpenWords(ghost prepared: seq<nat>, snd: seq<nat>, ghost xs: seq<nat>, ghost start: nat, idx: nat, x: seq<nat>, m: nat)
    returns (r: seq<nat>)
    requires Opening(prepared, snd, xs, start, idx, m) && idx + |x| <= |snd| && AllWords(x, m)
    ensures Opening(prepared, r, xs + x, start, idx + |x|, m)
  {
    r := snd;
    for i := 0 to |x|
      invariant |r| == |snd| && AllWords(r, m)
      invariant forall k: nat | k < idx || idx + i <= k < |snd| :: r[k] == snd[k]
      invariant forall k: nat | idx <= k < idx + i :: r[k] == Mod(Less(x[k - idx], snd[k]), m)
    {
      r := r[idx + i := ModSubtract(x[i], r[idx + i], m)];
    }
    ghost var all, end := xs + x, idx + |x|;
    forall i: nat | start <= i < |snd|
      ensures OpenedAt(prepared, r, all, start, end, m, i)
    {
      assert OpenedAt(prepared, snd, xs, start, idx, m, i);
    }
  }

  /** The operands of gate k are the words opened at its place. */
  ghost predicate OperandsAt(gates: seq<MulGate>, aval: map<nat, seq<nat>>, xs: seq<nat>, ys: seq<nat>, k: nat) {
    && k < |gates| && Offset(gates, k) + gates[k].nvals <= |xs| == |ys|
    && gates[k].left in aval && Part(gates, xs, 0, k) == aval[gates[k].left]
    && gates[k].right in aval && Part(gates, ys, 0, k) == aval[gates[k].right]
  }

  ghost predicate Operands(gates: seq<MulGate>, aval: map<nat, seq<nat>>, xs: seq<nat>, ys: seq<nat>) {
    && |xs| == |ys| == Offset(gates, |gates|)
    && forall k: nat {:trigger OperandsAt(gates, aval, xs, ys, k)} | k < |gates| :: OperandsAt(gates, aval, xs, ys, k)
  }

  lemma OperandsNext(gates: seq<MulGate>, g: MulGate, aval: map<nat, seq<nat>>, xs: seq<nat>, ys: seq<nat>)
    requires Operands(gates, aval, xs, ys) && GateReady(g, aval)
    ensures Operands(gates + [g], aval, xs + aval[g.left], ys + aval[g.right])
  {
    var x, y, more := aval[g.left], aval[g.right], gates + [g];
    OffsetPrefix(gates, [g], |gates|);
    forall k: nat | k < |more|
      ensures OperandsAt(more, aval, xs + x, ys + y, k)
    {
      OffsetPrefix(gates, [g], k);
      if k < |gates| {
        assert OperandsAt(gates, aval, xs, ys, k);
        Earlier(xs, x, Offset(gates, k), gates[k].nvals);
        Earlier(ys, y, Offset(gates, k), gates[k].nvals);
      }
    }
  }

  lemma Earlier(xs: seq<nat>, x: seq<nat>, at: nat, n: nat)
    requires at + n <= |xs|
    ensures (xs + x)[at..at + n] == xs[at..at + n]
  {
  }

  ghost predicate BothOpen(a: seq<nat>, b: seq<nat>, dSnd: seq<nat>, eSnd: seq<nat>, xs: seq<nat>, ys: seq<nat>, start: nat, idx: nat, m: nat) {
    Opening(a, dSnd, xs, start, idx, m) && Opening(b, eSnd, ys, start, idx, m)
  }

  /** The gates of the layer that have been opened so far, and all values. */
  ghost predicate LayerState(gates: seq<MulGate>, aval: map<nat, seq<nat>>, xs: seq<nat>, ys: seq<nat>, res: seq<nat>, m: nat) {
    Layer(gates, aval) && Operands(gates, aval, xs, ys) && Holds(aval, m) && AllWords(res, m)
  }

  lemma LayerStateNext(gates: seq<MulGate>, g: MulGate, aval: map<nat, seq<nat>>, xs: seq<nat>, ys: seq<nat>, res: seq<nat>, m: nat)
    requires LayerState(gates, aval, xs, ys, res, m) && Layer(gates + [g], aval)
    ensures GateReady(g, aval) && AllWords(aval[g.left], m) && AllWords(aval[g.right], m)
    ensures LayerState(gates + [g], aval, xs + aval[g.left], ys + aval[g.right], res, m)
  {
    assert Fits(gates + [g], aval, |gates|);
    OperandsNext(gates, g, aval, xs, ys);
  }

  /** Both differences of one more gate. */
  method OpenBoth(ghost a: seq<nat>, ghost b: seq<nat>, dSnd: seq<nat>, eSnd: seq<nat>, ghost xs: seq<nat>, ghost ys: seq<nat>,
                  ghost start: nat, idx: nat, x: seq<nat>, y: seq<nat>, m: nat)
    returns (d: seq<nat>, e: seq<nat>)
    requires BothOpen(a, b, dSnd, eSnd, xs, ys, start, idx, m) && |x| == |y| && idx + |x| <= |dSnd| && idx + |x| <= |eSnd|
    requires AllWords(x, m) && AllWords(y, m)
    ensures BothOpen(a, b, d, e, xs + x, ys + y, start, idx + |x|, m)
  {
    d := OpenWords(a, dSnd, xs, start, idx, x, m);
    e := OpenWords(b, eSnd, ys, start, idx, y, m);
  }

  /** At the beginning nothing is open. */
  lemma NothingOpen(a: seq<nat>, b: seq<nat>, aval: map<nat, seq<nat>>, res: seq<nat>, m: nat)
    requires m > 0 && AllWords(a, m) && AllWords(b, m) && Holds(aval, m) && AllWords(res, m)
    ensures BothOpen(a, b, a, b, [], [], 0, 0, m) && LayerState([], aval, [], [], res, m)
  {
    Prepared(a, m);
    Prepared(b, m);
  }

  /** What EvaluateMTs leaves at entry i. */
  predicate ResultAt(role: Role, a: seq<nat>, b: seq<nat>, c: seq<nat>, dSnd: seq<nat>, eSnd: seq<nat>, dRcv: seq<nat>, eRcv: seq<nat>,
                     res: seq<nat>, m: nat, i: nat)
  {
    && m > 0 && i < |a| && i < |b| && i < |c| && i < |dSnd| && i < |eSnd| && i < |dRcv| && i < |eRcv| && i < |res|
    && res[i] == MtWord(role, a[i], b[i], c[i], Mod(dSnd[i] + dRcv[i], m), Mod(eSnd[i] + eRcv[i], m), m)
  }

  method EvaluateTriples(role: Role, a: seq<nat>, b: seq<nat>, c: seq<nat>, dSnd: seq<nat>, eSnd: seq<nat>, dRcv: seq<nat>, eRcv: seq<nat>,
                         res: seq<nat>, m: nat, startid: nat, endid: nat)
    returns (r: seq<nat>)
    requires m > 0 && startid <= endid <= |a| == |b| == |c| == |dSnd| == |eSnd| == |dRcv| == |eRcv| == |res| && AllWords(res, m)
    ensures |r| == |res| && AllWords(r, m)
    ensures forall i: nat {:trigger ResultAt(role, a, b, c, dSnd, eSnd, dRcv, eRcv, r, m, i)} | startid <= i < endid ::
              ResultAt(role, a, b, c, dSnd, eSnd, dRcv, eRcv, r, m, i)
  {
    r := res;
    for i := startid to endid
      invariant |r| == |res| && AllWords(r, m)
      invariant forall k: nat | startid <= k < i ::
                  r[k] == MtWord(role, a[k], b[k], c[k], Mod(dSnd[k] + dRcv[k], m), Mod(eSnd[k] + eRcv[k], m), m)
    {
      var d, e := Mod(dSnd[i] + dRcv[i], m), Mod(eSnd[i] + eRcv[i], m);
      r := r[i := MtWord(role, a[i], b[i], c[i], d, e, m)];
    }
  }

  function Zeros(n: nat, m: nat): (z: seq<nat>)
    requires m > 0
    ensures |z| == n && AllWords(z, m)
  {
    seq(n, _ => 0)
  }

  /** The vectors of a party's triples and openings all have one entry for each triple. */
  class ArithSharing {
    const role: Role
    const m: nat

    var vA: seq<nat>
    var vB: seq<nat>
    var vC: seq<nat>
    var vS: seq<nat>
    var dSnd: seq<nat>
    var eSnd: seq<nat>
    var dRcv: seq<nat>
    var eRcv: seq<nat>
    var resA: seq<nat>
    var mtIdx: nat
    var mtStartIdx: nat
    var mulGates: seq<MulGate>
    var aval: map<nat, seq<nat>>

    /** The operands opened since the layer began. */
    ghost var xs: seq<nat>
    ghost var ys: seq<nat>

    ghost predicate Valid()
      reads this
    {
      && m > 0 && |vC| == |vA| == |vB| == |dRcv| == |eRcv| == |resA|
      && BothOpen(vA, vB, dSnd, eSnd, xs, ys, mtStartIdx, mtIdx, m) && LayerState(mulGates, aval, xs, ys, resA, m)
    }

    /** ComputeMTsFromOTs: C holds the sender's shares, S the receiver's. */
    method ComputeMTsFromOTs()
      requires m > 0 && |vA| == |vB| == |vC| == |vS|
      modifies this`vC
      ensures |vC| == |old(vC)|
      ensures forall i: nat | i < |vC| :: vC[i] == Mod(vA[i] * vB[i] + old(vC)[i] + vS[i], m)
    {
      for i := 0 to |vA|
        invariant |vC| == |old(vC)|
        invariant forall k: nat | k < |vC| :: vC[k] == if k < i then Mod(vA[k] * vB[k] + old(vC)[k] + vS[k], m) else old(vC)[k]
      {
        var tmp := Mod(vA[i] * vB[i], m);
        ModAdd(vA[i] * vB[i], vC[i], m);
        tmp := Mod(tmp + vC[i], m);
        ModAdd(vA[i] * vB[i] + vC[i], vS[i], m);
        tmp := Mod(tmp + vS[i], m);
        vC := vC[i := tmp];
      }
    }

    /** FinishMTGeneration: the triple values are prepared as openings. */
    method FinishMTGeneration()
      requires m > 0 && |vA| == |vB| == |vC| && AllWords(vA, m) && AllWords(vB, m) && Holds(aval, m)
      modifies this`dSnd, this`eSnd, this`dRcv, this`eRcv, this`resA, this`mtIdx, this`mtStartIdx, this`mulGates, this`xs, this`ys
      ensures Valid() && mtIdx == mtStartIdx == 0 && mulGates == []
    {
      NothingOpen(vA, vB, aval, Zeros(|vA|, m), m);
      ResetOpenings();
    }

    method ResetOpenings()
      requires m > 0
      modifies this`dSnd, this`eSnd, this`dRcv, this`eRcv, this`resA, this`mtIdx, this`mtStartIdx, this`mulGates, this`xs, this`ys
      ensures dSnd == vA && eSnd == vB && dRcv == eRcv == resA == Zeros(|vA|, m)
      ensures mtIdx == mtStartIdx == 0 && mulGates == [] && xs == ys == []
    {
      dSnd, eSnd := vA, vB;
      var zeros := Zeros(|vA|, m);
      dRcv, eRcv, resA := zeros, zeros, zeros;
      mtIdx, mtStartIdx, mulGates, xs, ys := 0, 0, [], [], [];
    }

    /** Both operands of a multiplication are opened with the next triples. */
    method SelectiveOpen(gate: MulGate)
      requires Valid() && Layer(mulGates + [gate], aval) && mtIdx + gate.nvals <= |vA|
      modifies this`dSnd, this`eSnd, this`mtIdx, this`mulGates, this`xs, this`ys
      ensures Valid() && mtIdx == old(mtIdx) + gate.nvals && mulGates == old(mulGates) + [gate]
    {
      LayerStateNext(mulGates, gate, aval, xs, ys, resA, m);
      var x, y := aval[gate.left], aval[gate.right];
      dSnd, eSnd := OpenBoth(vA, vB, dSnd, eSnd, xs, ys, mtStartIdx, mtIdx, x, y, m);
      xs, ys := xs + x, ys + y;
      mtIdx := mtIdx + gate.nvals;
      mulGates := mulGates + [gate];
    }

    /** EvaluateMTs: the results of all triples opened in this layer. */
    method EvaluateMTs()
      requires Valid()
      modifies this`resA
      ensures Valid()
      ensures forall i: nat {:trigger ResultAt(role, vA, vB, vC, dSnd, eSnd, dRcv, eRcv, resA, m, i)} | mtStartIdx <= i < mtIdx ::
                ResultAt(role, vA, vB, vC, dSnd, eSnd, dRcv, eRcv, resA, m, i)
    {
      resA := EvaluateTriples(role, vA, vB, vC, dSnd, eSnd, dRcv, eRcv, resA, m, mtStartIdx, mtIdx);
    }

    /** EvaluateMULGate. */
    method EvaluateMULGate()
      requires Valid()
      modifies this`aval, this`mulGates, this`mtStartIdx, this`xs, this`ys
      ensures Valid() && mulGates == [] && mtStartIdx == mtIdx
      ensures Kept(old(aval), aval) && AllReceived(old(mulGates), aval, resA, old(mtStartIdx), |old(mulGates)|)
    {
      aval := SpreadResults(mulGates, aval, resA, mtStartIdx, mtIdx, m);
      OpeningClosed(vA, dSnd, xs, mtStartIdx, mtIdx, m);
      OpeningClosed(vB, eSnd, ys, mtStartIdx, mtIdx, m);
      mtStartIdx, xs, ys, mulGates := mtIdx, [], [], [];
    }
  }
}
