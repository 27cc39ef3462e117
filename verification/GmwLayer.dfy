/** What the triples of one vector length hold while a layer is evaluated. */
module GmwLayer {
  import opened Bits
  import opened Circuit
  import opened GmwSpec
  import opened TripleVectors

  predicate AndGate(gs: seq<Gate>, g: nat, bitlen: nat) {
    g < |gs| && IsAnd(gs[g].op) && ParentsBelow(gs[g].op, g) && AndBitlen(gs[g].op) == bitlen > 0
  }

  /** The openings of gate g, in the vectors d and e. */
  ghost predicate Openings(w: World, r: Role, g: nat, bitlen: nat, d: seq<bool>, e: seq<bool>)
    requires AndGate(w.gs, g, bitlen)
  {
    && Pos(w.gs, g) + Triples(w.gs, g, bitlen) <= |d|
    && FlatPos(w.gs, g) + w.gs[g].nvals <= |e|
    && (forall i: nat | i < Triples(w.gs, g, bitlen) :: d[Pos(w.gs, g) + i] == OpenD(w, r, g, i))
    && (forall t: nat | t < w.gs[g].nvals :: e[FlatPos(w.gs, g) + t] == OpenE(w, r, g, t))
  }

  /** Where the triples of a length stand after the first i interactive gates of layer d. */
  ghost predicate MtPosition(gs: seq<Gate>, mt: MT, d: nat, i: nat, layers: nat) {
    var q, s := Layer(gs, d), Triple(mt.bitlen);
    && d <= layers && i <= |q| && mt.num == NumMTs(NumAnds(gs, mt.bitlen, |gs|), layers)
    && mt.startIdx == Start(gs, mt.bitlen, d) && mt.idx == mt.startIdx + Taken(gs, s, q, i)
  }

  /** After the first i interactive gates of layer d have been opened. */
  ghost predicate MtAt(w: World, r: Role, mt: MT, d: nat, i: nat, layers: nat) {
    var q, s := Layer(w.gs, d), Triple(mt.bitlen);
    && Fixed(w, r, mt) && Fresh(mt, mt.idx) && MtPosition(w.gs, mt, d, i, layers)
    && mt.gates == Members(w.gs, s, q, i)
    && (forall k | 0 <= k < |mt.gates| ::
          AndGate(w.gs, mt.gates[k], mt.bitlen) && Openings(w, r, mt.gates[k], mt.bitlen, mt.dSnd, mt.eSnd))
  }

  /** The shares that gate g opens. */
  predicate Operands(w: World, r: Role, g: nat, choice: seq<bool>, vector: seq<bool>)
    requires g < |w.gs| && AndGate(w.gs, g, AndBitlen(w.gs[g].op))
  {
    var ps := Parents(w.gs[g].op);
    && |choice| == Triples(w.gs, g, AndBitlen(w.gs[g].op)) && |vector| == w.gs[g].nvals
    && (forall i | 0 <= i < |choice| :: choice[i] == w.share(r, ps[0], i))
    && (forall t | 0 <= t < |vector| :: vector[t] == w.share(r, ps[1], t))
  }

  /** An AND gate fills whole strings. */
  lemma AndShape(w: World, g: nat, bitlen: nat)
    requires WellFormed(BOOL, w.gs) && g < |w.gs| && IsAnd(w.gs[g].op) && AndBitlen(w.gs[g].op) == bitlen
    ensures AndGate(w.gs, g, bitlen) && Flat(Triples(w.gs, g, bitlen), bitlen) == w.gs[g].nvals
    ensures w.gs[g].op.NonLinVec? ==> Triples(w.gs, g, bitlen) == w.gs[w.gs[g].op.choice].nvals
    ensures w.gs[g].op.NonLin? ==> Triples(w.gs, g, bitlen) == w.gs[g].nvals
  {
    assert GateOk(BOOL, w.gs, g);
    var gate := w.gs[g];
    if gate.op.NonLinVec? {
      var n := w.gs[gate.op.choice].nvals;
      assert bitlen > 0;
      DivModUnique(gate.nvals, n, 0, bitlen);
      FlatIsProduct(n, bitlen);
    } else {
      FlatIsProduct(gate.nvals, 1);
    }
  }

  /** Opening the next gate of the layer. */
  lemma OpenStep(w: World, r: Role, mt: MT, next: MT, d: nat, i: nat, layers: nat, choice: seq<bool>, vector: seq<bool>)
    requires WellFormed(BOOL, w.gs) && MtAt(w, r, mt, d, i, layers) && d < layers && i < |Layer(w.gs, d)|
    requires var g := Layer(w.gs, d)[i];
             && AndGate(w.gs, g, mt.bitlen) && Operands(w, r, g, choice, vector)
             && mt.idx + |choice| <= mt.num && Flat(mt.idx, mt.bitlen) + |vector| <= |mt.eSnd|
             && next == mt.(dSnd := XorBits(mt.dSnd, choice, mt.idx),
                            eSnd := XorBits(mt.eSnd, vector, Flat(mt.idx, mt.bitlen)),
                            idx := mt.idx + |choice|, gates := mt.gates + [g])
    ensures MtAt(w, r, next, d, i + 1, layers)
  {
    var g, bl := Layer(w.gs, d)[i], mt.bitlen;
    OffsetInLayer(w.gs, Triple(bl), d, i);
    AndShape(w, g, bl);
    FlatMonotone(mt.idx, next.idx, bl);
    NewOpenings(w, r, mt, next, g, choice, vector);
    forall k | 0 <= k < |mt.gates|
      ensures AndGate(w.gs, mt.gates[k], bl) && Openings(w, r, mt.gates[k], bl, next.dSnd, next.eSnd)
    {
      EarlierGate(w, mt, d, i, k);
      OldOpenings(w, r, mt, next, mt.gates[k]);
    }
    StillFresh(w, r, mt, next, choice, vector);
  }

  lemma StillFresh(w: World, r: Role, mt: MT, next: MT, choice: seq<bool>, vector: seq<bool>)
    requires Fixed(w, r, mt) && Fresh(mt, mt.idx) && mt.idx + |choice| <= mt.num
    requires Flat(mt.idx, mt.bitlen) + |vector| == Flat(mt.idx + |choice|, mt.bitlen) <= |mt.eSnd|
    requires next == mt.(dSnd := XorBits(mt.dSnd, choice, mt.idx), eSnd := XorBits(mt.eSnd, vector, Flat(mt.idx, mt.bitlen)),
                         idx := mt.idx + |choice|, gates := next.gates)
    ensures Fixed(w, r, next) && Fresh(next, next.idx)
  {
    TailsFresh(mt, next, choice, vector);
  }

  lemma TailsFresh(mt: MT, next: MT, choice: seq<bool>, vector: seq<bool>)
    requires Shape(mt) && Shape(next) && Fresh(mt, mt.idx) && mt.idx + |choice| <= mt.num
    requires Flat(mt.idx, mt.bitlen) + |vector| == Flat(mt.idx + |choice|, mt.bitlen) <= |mt.eSnd|
    requires next == mt.(dSnd := XorBits(mt.dSnd, choice, mt.idx), eSnd := XorBits(mt.eSnd, vector, Flat(mt.idx, mt.bitlen)),
                         idx := mt.idx + |choice|, gates := next.gates)
    ensures Fresh(next, next.idx)
  {
    var lo, n := Flat(mt.idx, mt.bitlen), Flat(mt.num, mt.bitlen);
    FreshTail(mt.dSnd, mt.a, choice, mt.idx, mt.num);
    FreshTail(mt.eSnd, mt.b, vector, lo, n);
    assert Flat(next.idx, next.bitlen) == lo + |vector| && Flat(next.num, next.bitlen) == n;
  }

  /** Behind what has been opened a vector is still the prepared one. */
  lemma FreshTail(v: seq<bool>, prepared: seq<bool>, bits: seq<bool>, at: nat, n: nat)
    requires |v| == |prepared| == n && at + |bits| <= n && forall x: nat | at <= x < n :: v[x] == prepared[x]
    ensures forall x: nat | at + |bits| <= x < n :: XorBits(v, bits, at)[x] == prepared[x]
  {
  }

  /** The operands, XORed onto fresh triples, are the openings. */
  lemma NewOpenings(w: World, r: Role, mt: MT, next: MT, g: nat, choice: seq<bool>, vector: seq<bool>)
    requires Fixed(w, r, mt) && Fresh(mt, mt.idx) && Shape(next) && next.bitlen == mt.bitlen
    requires AndGate(w.gs, g, mt.bitlen) && Operands(w, r, g, choice, vector) && Pos(w.gs, g) == mt.idx
    requires mt.idx + |choice| <= mt.num && Flat(mt.idx, mt.bitlen) + |vector| <= |mt.eSnd|
    requires next.dSnd == XorBits(mt.dSnd, choice, mt.idx)
    requires next.eSnd == XorBits(mt.eSnd, vector, Flat(mt.idx, mt.bitlen))
    ensures Openings(w, r, g, mt.bitlen, next.dSnd, next.eSnd)
  {
    NewChoices(w, r, g, mt, next.dSnd, choice);
    NewVector(w, r, g, mt, next.eSnd, vector);
  }

  lemma NewChoices(w: World, r: Role, g: nat, mt: MT, dSnd: seq<bool>, choice: seq<bool>)
    requires Shape(mt) && AndGate(w.gs, g, mt.bitlen) && Pos(w.gs, g) == mt.idx && mt.idx + |choice| <= mt.num
    requires forall i: nat | mt.idx <= i < mt.num :: mt.dSnd[i] == mt.a[i] == TripleA(w, r, mt.bitlen, i)
    requires forall i: nat | i < |choice| :: choice[i] == w.share(r, Parents(w.gs[g].op)[0], i)
    requires dSnd == XorBits(mt.dSnd, choice, mt.idx)
    ensures forall i: nat | i < |choice| :: dSnd[Pos(w.gs, g) + i] == OpenD(w, r, g, i)
  {
    OpenedBits(mt.dSnd, mt.a, choice, mt.idx);
  }

  lemma NewVector(w: World, r: Role, g: nat, mt: MT, eSnd: seq<bool>, vector: seq<bool>)
    requires Shape(mt) && AndGate(w.gs, g, mt.bitlen) && FlatPos(w.gs, g) + |vector| <= |mt.eSnd|
    requires forall x: nat | FlatPos(w.gs, g) <= x < |mt.eSnd| :: mt.eSnd[x] == mt.b[x] == TripleB(w, r, mt.bitlen, x)
    requires forall t: nat | t < |vector| :: vector[t] == w.share(r, Parents(w.gs[g].op)[1], t)
    requires eSnd == XorBits(mt.eSnd, vector, FlatPos(w.gs, g))
    ensures forall t: nat | t < |vector| :: eSnd[FlatPos(w.gs, g) + t] == OpenE(w, r, g, t)
  {
    OpenedBits(mt.eSnd, mt.b, vector, FlatPos(w.gs, g));
  }

  lemma OpenedBits(v: seq<bool>, prepared: seq<bool>, bits: seq<bool>, at: nat)
    requires |v| == |prepared| && at + |bits| <= |v| && forall x: nat | at <= x < |v| :: v[x] == prepared[x]
    ensures forall i: nat | i < |bits| :: XorBits(v, bits, at)[at + i] == (prepared[at + i] != bits[i])
  {
    forall i: nat | i < |bits|
      ensures XorBits(v, bits, at)[at + i] == (prepared[at + i] != bits[i])
    {
      assert v[at + i] == prepared[at + i];
    }
  }

  lemma OldOpenings(w: World, r: Role, mt: MT, next: MT, g: nat)
    requires Shape(mt) && Shape(next) && next.bitlen == mt.bitlen && next.num == mt.num
    requires AndGate(w.gs, g, mt.bitlen) && Openings(w, r, g, mt.bitlen, mt.dSnd, mt.eSnd)
    requires Pos(w.gs, g) + Triples(w.gs, g, mt.bitlen) <= mt.idx
    requires FlatPos(w.gs, g) + w.gs[g].nvals <= Flat(mt.idx, mt.bitlen)
    requires forall x | 0 <= x < mt.idx && x < mt.num :: next.dSnd[x] == mt.dSnd[x]
    requires forall x | 0 <= x < Flat(mt.idx, mt.bitlen) && x < |mt.eSnd| :: next.eSnd[x] == mt.eSnd[x]
    ensures Openings(w, r, g, mt.bitlen, next.dSnd, next.eSnd)
  {
  }

  /** A gate opened before lies below the next free triple. */
  lemma EarlierGate(w: World, mt: MT, d: nat, i: nat, k: nat)
    requires WellFormed(BOOL, w.gs) && mt.bitlen > 0 && i <= |Layer(w.gs, d)|
    requires mt.idx == Start(w.gs, mt.bitlen, d) + Taken(w.gs, Triple(mt.bitlen), Layer(w.gs, d), i)
    requires mt.gates == Members(w.gs, Triple(mt.bitlen), Layer(w.gs, d), i) && k < |mt.gates|
    ensures var g, bl := mt.gates[k], mt.bitlen;
            && AndGate(w.gs, g, bl) && Pos(w.gs, g) + Triples(w.gs, g, bl) <= mt.idx
            && FlatPos(w.gs, g) + w.gs[g].nvals <= Flat(mt.idx, bl)
            && Start(w.gs, bl, d) <= Pos(w.gs, g)
  {
    var g, bl := mt.gates[k], mt.bitlen;
    MemberBelow(w.gs, bl, d, i, k, g, mt.idx);
    AndShape(w, g, bl);
    FlatBelow(Pos(w.gs, g), Triples(w.gs, g, bl), mt.idx, bl);
  }

  /** The same in terms of positions. */
  lemma MemberBelow(gs: seq<Gate>, bl: nat, d: nat, i: nat, k: nat, g: nat, idx: nat)
    requires bl > 0 && i <= |Layer(gs, d)| && k < |Members(gs, Triple(bl), Layer(gs, d), i)|
    requires g == Members(gs, Triple(bl), Layer(gs, d), i)[k] && idx == Start(gs, bl, d) + Taken(gs, Triple(bl), Layer(gs, d), i)
    ensures g < |gs| && IsAnd(gs[g].op) && AndBitlen(gs[g].op) == bl
    ensures Start(gs, bl, d) <= Pos(gs, g) && Pos(gs, g) + Triples(gs, g, bl) <= idx
  {
    var q, s := Layer(gs, d), Triple(bl);
    var j := MemberPosition(gs, s, q, i, k);
    OffsetInLayer(gs, s, d, j);
    TakenMonotone(gs, s, q, j, i);
  }

  lemma FlatBelow(p: nat, n: nat, idx: nat, bl: nat)
    requires p + n <= idx
    ensures Flat(p, bl) + Flat(n, bl) <= Flat(idx, bl)
  {
    FlatMonotone(p, p + n, bl);
    FlatMonotone(p + n, idx, bl);
  }

  /** A gate of another kind leaves the triples alone. */
  lemma SkipStep(w: World, r: Role, mt: MT, d: nat, i: nat, layers: nat)
    requires MtAt(w, r, mt, d, i, layers) && i < |Layer(w.gs, d)| && !Belongs(w.gs, Triple(mt.bitlen), Layer(w.gs, d)[i])
    ensures MtAt(w, r, mt, d, i + 1, layers)
  {
  }

  /** There is room for the next gate. */
  lemma RoomFor(w: World, r: Role, mt: MT, d: nat, i: nat, layers: nat)
    requires MtAt(w, r, mt, d, i, layers) && i < |Layer(w.gs, d)| && d < layers
    ensures mt.idx + Amount(w.gs, Triple(mt.bitlen), Layer(w.gs, d)[i]) <= mt.num
  {
    TakenMonotone(w.gs, Triple(mt.bitlen), Layer(w.gs, d), i, |Layer(w.gs, d)|);
    StartWithin(w.gs, mt.bitlen, d + 1, layers);
  }

  /** A whole layer ends, padded to a byte, where the next layer starts. */
  lemma FullLayer(gs: seq<Gate>, mt: MT, d: nat, layers: nat)
    requires MtPosition(gs, mt, d, |Layer(gs, d)|, layers) && d < layers
    ensures mt.startIdx + Pad8(mt.idx - mt.startIdx) == Pad8(mt.idx) == Start(gs, mt.bitlen, d + 1) <= mt.num
  {
    var bl, q := mt.bitlen, Layer(gs, d);
    LayerEnd(gs, bl, d, layers, mt.startIdx, Taken(gs, Triple(bl), q, |q|), mt.idx, mt.num);
  }

  lemma LayerEnd(gs: seq<Gate>, bl: nat, d: nat, layers: nat, start: nat, taken: nat, idx: nat, num: nat)
    requires d < layers && start == Start(gs, bl, d) && taken == Taken(gs, Triple(bl), Layer(gs, d), |Layer(gs, d)|)
    requires idx == start + taken && num == NumMTs(NumAnds(gs, bl, |gs|), layers)
    ensures start + Pad8(idx - start) == Pad8(idx) == Start(gs, bl, d + 1) <= num
  {
    StartNext(gs, bl, d);
    StartBound(gs, bl, d);
    StartWithin(gs, bl, d + 1, layers);
    PadShift(start, taken, idx);
  }

  lemma PadShift(start: nat, n: nat, idx: nat)
    requires start % 8 == 0 && idx == start + n
    ensures Pad8(idx) == start + Pad8(n)
  {
  }

  // ----- the end of a layer ---------------------------------------------------------------

  /** The whole layer is open and the other party's openings have arrived. */
  ghost predicate Exchanged(w: World, r: Role, mt: MT, d: nat, layers: nat) {
    && MtAt(w, r, mt, d, |Layer(w.gs, d)|, layers)
    && (forall k | 0 <= k < |mt.gates| ::
          AndGate(w.gs, mt.gates[k], mt.bitlen) && Openings(w, r.Other(), mt.gates[k], mt.bitlen, mt.dRcv, mt.eRcv))
  }

  /** The result vector holds the party's shares of the AND gates of the layer. */
  ghost predicate Results(w: World, r: Role, mt: MT) {
    forall k {:trigger mt.gates[k]} | 0 <= k < |mt.gates| :: GateResult(w, r, mt, mt.gates[k])
  }

  ghost predicate GateResult(w: World, r: Role, mt: MT, g: nat) {
    && g < |w.gs| && FlatPos(w.gs, g) + w.gs[g].nvals <= |mt.resA|
    && forall t: nat | t < w.gs[g].nvals :: mt.resA[FlatPos(w.gs, g) + t] == w.share(r, g, t)
  }

  lemma AndShareOk(w: World, r: Role, g: nat, t: nat, a: bool, b: bool, c: bool, d: bool, e: bool)
    requires SharesOk(w) && g < |w.gs| && AndGate(w.gs, g, AndBitlen(w.gs[g].op)) && t < w.gs[g].nvals
    requires var bl := AndBitlen(w.gs[g].op);
             && a == TripleA(w, r, bl, Pos(w.gs, g) + Group(t, bl))
             && b == TripleB(w, r, bl, FlatPos(w.gs, g) + t) && c == TripleC(w, r, bl, FlatPos(w.gs, g) + t)
             && d == (OpenD(w, SERVER, g, Group(t, bl)) != OpenD(w, CLIENT, g, Group(t, bl)))
             && e == (OpenE(w, SERVER, g, t) != OpenE(w, CLIENT, g, t))
    ensures w.share(r, g, t) == MtResult(r, a, b, c, d, e)
  {
    assert ShareOk(w, r, g, t);
  }

  lemma ResultIs(w: World, r: Role, mt: MT, g: nat, t: nat, i: nat, x: nat, d: bool, e: bool)
    requires SharesOk(w) && Fixed(w, r, mt) && AndGate(w.gs, g, mt.bitlen) && t < w.gs[g].nvals
    requires i == Group(t, mt.bitlen) && Pos(w.gs, g) + i < mt.num && x == FlatPos(w.gs, g) + t < |mt.resA|
    requires d == (OpenD(w, SERVER, g, i) != OpenD(w, CLIENT, g, i)) && e == (OpenE(w, SERVER, g, t) != OpenE(w, CLIENT, g, t))
    requires mt.resA[x] == MtResult(r, mt.a[Pos(w.gs, g) + i], mt.b[x], mt.c[x], d, e)
    ensures mt.resA[x] == w.share(r, g, t)
  {
    AndShareOk(w, r, g, t, mt.a[Pos(w.gs, g) + i], mt.b[x], mt.c[x], d, e);
  }

  lemma EvaluatedAt(r: Role, mt: MT, d: seq<bool>, e: seq<bool>, lo: nat, hi: nat, x: nat, p: nat)
    requires Shape(mt) && |d| == mt.num && |e| == Flat(mt.num, mt.bitlen) && Evaluated(r, mt, d, e, lo, hi)
    requires Flat(lo, mt.bitlen) <= x < Flat(hi, mt.bitlen) <= |e| && p == Group(x, mt.bitlen) < mt.num
    ensures mt.resA[x] == MtResult(r, mt.a[p], mt.b[x], mt.c[x], d[p], e[x])
  {
  }

  /** After evaluation the result vector holds the shares of all AND gates of the layer. */
  lemma LayerResults(w: World, r: Role, mt0: MT, mt: MT, d: nat, layers: nat)
    requires WellFormed(BOOL, w.gs) && SharesOk(w) && Exchanged(w, r, mt0, d, layers) && d < layers
    requires Shape(mt) && mt == mt0.(dSnd := mt.dSnd, eSnd := mt.eSnd, resA := mt.resA, resB := mt.resB)
    requires Evaluated(r, mt, XorRange(mt0.dSnd, mt0.dRcv, 0, mt0.num), XorRange(mt0.eSnd, mt0.eRcv, 0, |mt0.eSnd|),
                       mt0.startIdx, mt0.idx)
    ensures Results(w, r, mt)
  {
    var bl := mt.bitlen;
    FullLayer(w.gs, mt0, d, layers);
    FlatMonotone(mt.idx, mt.num, bl);
    forall k | 0 <= k < |mt.gates|
      ensures GateResult(w, r, mt, mt.gates[k])
    {
      EarlierGate(w, mt0, d, |Layer(w.gs, d)|, k);
      FlatMonotone(mt.startIdx, Pos(w.gs, mt.gates[k]), bl);
      GateResults(w, r, mt0, mt, mt.gates[k]);
    }
  }

  /** Both parties' openings together reveal d and e. */
  lemma Combined(w: World, r: Role, mt0: MT, g: nat, i: nat, t: nat)
    requires Shape(mt0) && AndGate(w.gs, g, mt0.bitlen) && t < w.gs[g].nvals && i < Triples(w.gs, g, mt0.bitlen)
    requires Openings(w, r, g, mt0.bitlen, mt0.dSnd, mt0.eSnd) && Openings(w, r.Other(), g, mt0.bitlen, mt0.dRcv, mt0.eRcv)
    ensures var d, e := XorRange(mt0.dSnd, mt0.dRcv, 0, mt0.num), XorRange(mt0.eSnd, mt0.eRcv, 0, |mt0.eSnd|);
            && d[Pos(w.gs, g) + i] == (OpenD(w, SERVER, g, i) != OpenD(w, CLIENT, g, i))
            && e[FlatPos(w.gs, g) + t] == (OpenE(w, SERVER, g, t) != OpenE(w, CLIENT, g, t))
  {
  }

  lemma GateResults(w: World, r: Role, mt0: MT, mt: MT, g: nat)
    requires WellFormed(BOOL, w.gs) && SharesOk(w) && Fixed(w, r, mt0) && Shape(mt)
    requires mt == mt0.(dSnd := mt.dSnd, eSnd := mt.eSnd, resA := mt.resA, resB := mt.resB)
    requires Evaluated(r, mt, XorRange(mt0.dSnd, mt0.dRcv, 0, mt0.num), XorRange(mt0.eSnd, mt0.eRcv, 0, |mt0.eSnd|),
                       mt0.startIdx, mt0.idx)
    requires AndGate(w.gs, g, mt.bitlen)
    requires Openings(w, r, g, mt.bitlen, mt0.dSnd, mt0.eSnd) && Openings(w, r.Other(), g, mt.bitlen, mt0.dRcv, mt0.eRcv)
    requires Flat(mt.startIdx, mt.bitlen) <= FlatPos(w.gs, g)
    requires FlatPos(w.gs, g) + w.gs[g].nvals <= Flat(mt.idx, mt.bitlen) <= Flat(mt.num, mt.bitlen)
    ensures GateResult(w, r, mt, g)
  {
    var bl := mt.bitlen;
    var d, e := XorRange(mt0.dSnd, mt0.dRcv, 0, mt0.num), XorRange(mt0.eSnd, mt0.eRcv, 0, |mt0.eSnd|);
    assert Fixed(w, r, mt);
    AndShape(w, g, bl);
    ValuesOpened(w, r, mt0, g, d, e);
    AllResults(w, r, mt, g, d, e);
  }

  /** Both parties have opened gate g; d and e are the opened values. */
  ghost predicate GateIsOpen(w: World, r: Role, mt0: MT, g: nat, d: seq<bool>, e: seq<bool>) {
    && Shape(mt0) && AndGate(w.gs, g, mt0.bitlen)
    && d == XorRange(mt0.dSnd, mt0.dRcv, 0, mt0.num) && e == XorRange(mt0.eSnd, mt0.eRcv, 0, |mt0.eSnd|)
    && Openings(w, r, g, mt0.bitlen, mt0.dSnd, mt0.eSnd) && Openings(w, r.Other(), g, mt0.bitlen, mt0.dRcv, mt0.eRcv)
    && Flat(Triples(w.gs, g, mt0.bitlen), mt0.bitlen) == w.gs[g].nvals
  }

  /** The layer of gate g has been evaluated with these values. */
  ghost predicate GateIsEvaluated(w: World, r: Role, mt: MT, g: nat, d: seq<bool>, e: seq<bool>) {
    && SharesOk(w) && Fixed(w, r, mt) && AndGate(w.gs, g, mt.bitlen)
    && |d| == mt.num && |e| == Flat(mt.num, mt.bitlen) == |mt.resA| && Evaluated(r, mt, d, e, mt.startIdx, mt.idx)
    && Flat(mt.startIdx, mt.bitlen) <= FlatPos(w.gs, g) && FlatPos(w.gs, g) + w.gs[g].nvals <= Flat(mt.idx, mt.bitlen) <= |e|
    && Pos(w.gs, g) + Triples(w.gs, g, mt.bitlen) <= mt.num
  }

  /** For value t of gate g, d and e are what both parties have opened. */
  ghost predicate OpenedValue(w: World, bl: nat, g: nat, d: seq<bool>, e: seq<bool>, t: nat) {
    && AndGate(w.gs, g, bl)
    && var i := Group(t, bl);
       && i < Triples(w.gs, g, bl) && Pos(w.gs, g) + i < |d| && FlatPos(w.gs, g) + t < |e|
       && d[Pos(w.gs, g) + i] == (OpenD(w, SERVER, g, i) != OpenD(w, CLIENT, g, i))
       && e[FlatPos(w.gs, g) + t] == (OpenE(w, SERVER, g, t) != OpenE(w, CLIENT, g, t))
  }

  ghost predicate OpenedValues(w: World, bl: nat, g: nat, d: seq<bool>, e: seq<bool>, n: nat) {
    forall t: nat {:trigger OpenedValue(w, bl, g, d, e, t)} | t < n :: OpenedValue(w, bl, g, d, e, t)
  }

  lemma ValuesOpened(w: World, r: Role, mt0: MT, g: nat, d: seq<bool>, e: seq<bool>)
    requires GateIsOpen(w, r, mt0, g, d, e)
    ensures OpenedValues(w, mt0.bitlen, g, d, e, w.gs[g].nvals)
  {
    forall t: nat | t < w.gs[g].nvals
      ensures OpenedValue(w, mt0.bitlen, g, d, e, t)
    {
      GroupBound(t, mt0.bitlen, Triples(w.gs, g, mt0.bitlen));
      Combined(w, r, mt0, g, Group(t, mt0.bitlen), t);
    }
  }

  /** The result of one value. */
  lemma AndResult(w: World, r: Role, mt: MT, g: nat, d: seq<bool>, e: seq<bool>, t: nat)
    requires GateIsEvaluated(w, r, mt, g, d, e) && t < w.gs[g].nvals && OpenedValue(w, mt.bitlen, g, d, e, t)
    ensures mt.resA[FlatPos(w.gs, g) + t] == w.share(r, g, t)
  {
    var bl, i, x := mt.bitlen, Group(t, mt.bitlen), FlatPos(w.gs, g) + t;
    ResultAt(w.gs, r, mt, g, d, e, t);
    ResultIs(w, r, mt, g, t, i, x, d[Pos(w.gs, g) + i], e[x]);
  }

  lemma ResultAt(gs: seq<Gate>, r: Role, mt: MT, g: nat, d: seq<bool>, e: seq<bool>, t: nat)
    requires Shape(mt) && AndGate(gs, g, mt.bitlen) && t < gs[g].nvals
    requires |d| == mt.num && |e| == Flat(mt.num, mt.bitlen) == |mt.resA| && Evaluated(r, mt, d, e, mt.startIdx, mt.idx)
    requires Flat(mt.startIdx, mt.bitlen) <= FlatPos(gs, g) && FlatPos(gs, g) + gs[g].nvals <= Flat(mt.idx, mt.bitlen) <= |e|
    requires Pos(gs, g) + Group(t, mt.bitlen) < mt.num
    ensures var x, p := FlatPos(gs, g) + t, Pos(gs, g) + Group(t, mt.bitlen);
            mt.resA[x] == MtResult(r, mt.a[p], mt.b[x], mt.c[x], d[p], e[x])
  {
    GateGroup(gs, g, mt.bitlen, t);
    EvaluatedAt(r, mt, d, e, mt.startIdx, mt.idx, FlatPos(gs, g) + t, Pos(gs, g) + Group(t, mt.bitlen));
  }

  lemma AllResults(w: World, r: Role, mt: MT, g: nat, d: seq<bool>, e: seq<bool>)
    requires GateIsEvaluated(w, r, mt, g, d, e) && OpenedValues(w, mt.bitlen, g, d, e, w.gs[g].nvals)
    ensures GateResult(w, r, mt, g)
  {
    var x, n := FlatPos(w.gs, g), w.gs[g].nvals;
    forall t | 0 <= t < n
      ensures mt.resA[x + t] == w.share(r, g, t)
    {
      assert OpenedValue(w, mt.bitlen, g, d, e, t);
      AndResult(w, r, mt, g, d, e, t);
    }
  }

  /** Once the results are read and the position is padded, the next layer can begin. */
  lemma NextLayer(w: World, r: Role, mt0: MT, mt: MT, d: nat, layers: nat)
    requires MtAt(w, r, mt0, d, |Layer(w.gs, d)|, layers) && d < layers
    requires Shape(mt) && mt == mt0.(dSnd := mt.dSnd, eSnd := mt.eSnd, resA := mt.resA, resB := mt.resB)
    requires Untouched(mt0, mt, mt0.startIdx + Pad8(mt0.idx - mt0.startIdx))
    ensures MtAt(w, r, mt.(startIdx := Pad8(mt.idx), idx := Pad8(mt.idx), gates := []), d + 1, 0, layers)
  {
    FullLayer(w.gs, mt0, d, layers);
    FlatMonotone(mt0.idx, Pad8(mt0.idx), mt0.bitlen);
  }

  /** The values of the first i gates of a list. */
  function ValuesOf(gs: seq<Gate>, q: seq<nat>, i: nat): nat
    requires Ids(gs, q) && i <= |q|
  {
    if i == 0 then 0 else ValuesOf(gs, q, i - 1) + gs[q[i - 1]].nvals
  }

  /** The strings of the listed gates lie behind each other. */
  lemma {:induction false} ListedStrings(w: World, q: seq<nat>, bl: nat, start: nat, i: nat)
    requires WellFormed(BOOL, w.gs) && bl > 0 && Ids(w.gs, q) && i <= |q|
    requires forall k | 0 <= k < |q| :: Belongs(w.gs, Triple(bl), q[k])
    ensures Flat(start + Taken(w.gs, Triple(bl), q, i), bl) == Flat(start, bl) + ValuesOf(w.gs, q, i)
  {
    if i > 0 {
      ListedStrings(w, q, bl, start, i - 1);
      AndShape(w, q[i - 1], bl);
      var p := start + Taken(w.gs, Triple(bl), q, i - 1);
      FlatMonotone(p, p + Triples(w.gs, q[i - 1], bl), bl);
    }
  }
}
