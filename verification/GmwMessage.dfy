/** What the parties of the GMW protocol send each other at the end of a layer. */
module GmwMessage {
  import opened Bits
  import opened Circuit
  import opened Builder
  import opened GmwSpec
  import opened TripleVectors
  import opened GmwLayer

  function LayerTakes(gs: seq<Gate>, s: Stock, d: nat): nat {
    Taken(gs, s, Layer(gs, d), |Layer(gs, d)|)
  }

  /** Input masks, output shares, and for every vector length the opened choice bits and vectors. */
  function MessageSizes(gs: seq<Gate>, ands: seq<NonLinCtx>, r: Role, d: nat): (sizes: seq<nat>)
    ensures |sizes| == 2 + 2 * |ands|
  {
    [Pad8(LayerTakes(gs, Input(r), d)), Pad8(LayerTakes(gs, Output(r.Other()), d))] + TripleSizes(gs, ands, d, |ands|)
  }

  function TripleSizes(gs: seq<Gate>, ands: seq<NonLinCtx>, d: nat, n: nat): (sizes: seq<nat>)
    requires n <= |ands|
    ensures |sizes| == 2 * n
    ensures forall k | 0 <= k < n ::
              && sizes[2 * k] == Pad8(LayerTakes(gs, Triple(ands[k].bitlen), d))
              && sizes[2 * k + 1] == Flat(Pad8(LayerTakes(gs, Triple(ands[k].bitlen), d)), ands[k].bitlen)
  {
    if n == 0 then []
    else
      var size := Pad8(LayerTakes(gs, Triple(ands[n - 1].bitlen), d));
      TripleSizes(gs, ands, d, n - 1) + [size, Flat(size, ands[n - 1].bitlen)]
  }

  /** A buffer, filled up to whole bytes. */
  function Bytes(bits: seq<bool>): (b: seq<bool>)
    ensures |b| == Pad8(|bits|) && bits <= b
  {
    bits + Zeros(Pad8(|bits|) - |bits|)
  }

  /** The openings of a layer, relative to the start of the layer. */
  ghost predicate SentOpenings(w: World, r: Role, d: nat, bl: nat, dBits: seq<bool>, eBits: seq<bool>) {
    forall g: nat {:trigger Opening(w, r, d, bl, dBits, eBits, g)} ::
      g in Members(w.gs, Triple(bl), Layer(w.gs, d), |Layer(w.gs, d)|) ==> Opening(w, r, d, bl, dBits, eBits, g)
  }

  ghost predicate Opening(w: World, r: Role, d: nat, bl: nat, dBits: seq<bool>, eBits: seq<bool>, g: nat) {
    && AndGate(w.gs, g, bl)
    && var p, x := Pos(w.gs, g) - Start(w.gs, bl, d), FlatPos(w.gs, g) - Flat(Start(w.gs, bl, d), bl);
       && 0 <= p && 0 <= x && p + Triples(w.gs, g, bl) <= |dBits| && x + w.gs[g].nvals <= |eBits|
       && (forall i: nat | i < Triples(w.gs, g, bl) :: dBits[p + i] == OpenD(w, r, g, i))
       && (forall t: nat | t < w.gs[g].nvals :: eBits[x + t] == OpenE(w, r, g, t))
  }

  /** The part of D and E that belongs to the layer carries the openings. */
  lemma SliceOpenings(w: World, r: Role, mt: MT, d: nat, layers: nat)
    requires WellFormed(BOOL, w.gs) && MtAt(w, r, mt, d, |Layer(w.gs, d)|, layers) && d < layers
    ensures var size := Pad8(mt.idx - mt.startIdx);
            && mt.startIdx + size <= mt.num
            && Flat(mt.startIdx, mt.bitlen) <= Flat(mt.startIdx + size, mt.bitlen) <= |mt.eSnd|
            && Flat(mt.startIdx + size, mt.bitlen) - Flat(mt.startIdx, mt.bitlen) == Flat(size, mt.bitlen)
            && SentOpenings(w, r, d, mt.bitlen, mt.dSnd[mt.startIdx..mt.startIdx + size],
                            mt.eSnd[Flat(mt.startIdx, mt.bitlen)..Flat(mt.startIdx + size, mt.bitlen)])
  {
    var size, bl := Pad8(mt.idx - mt.startIdx), mt.bitlen;
    SliceBounds(w, r, mt, d, layers, size);
    SlicedGates(w, r, mt, d, layers, size, Flat(mt.startIdx, bl), Flat(mt.startIdx + size, bl));
  }

  lemma SliceBounds(w: World, r: Role, mt: MT, d: nat, layers: nat, size: nat)
    requires WellFormed(BOOL, w.gs) && MtAt(w, r, mt, d, |Layer(w.gs, d)|, layers) && d < layers && size == Pad8(mt.idx - mt.startIdx)
    ensures mt.idx <= mt.startIdx + size <= mt.num
    ensures Flat(mt.startIdx, mt.bitlen) <= Flat(mt.startIdx + size, mt.bitlen) <= |mt.eSnd|
    ensures Flat(mt.startIdx + size, mt.bitlen) - Flat(mt.startIdx, mt.bitlen) == Flat(size, mt.bitlen)
  {
    FullLayer(w.gs, mt, d, layers);
    FlatMonotone(mt.startIdx, mt.startIdx + size, mt.bitlen);
    FlatMonotone(mt.startIdx + size, mt.num, mt.bitlen);
  }

  lemma SlicedGates(w: World, r: Role, mt: MT, d: nat, layers: nat, size: nat, lo: nat, hi: nat)
    requires WellFormed(BOOL, w.gs) && MtAt(w, r, mt, d, |Layer(w.gs, d)|, layers)
    requires mt.idx <= mt.startIdx + size <= mt.num && lo == Flat(mt.startIdx, mt.bitlen)
    requires lo <= hi == Flat(mt.startIdx + size, mt.bitlen) <= |mt.eSnd|
    ensures SentOpenings(w, r, d, mt.bitlen, mt.dSnd[mt.startIdx..mt.startIdx + size], mt.eSnd[lo..hi])
  {
    var bl, dBits, eBits := mt.bitlen, mt.dSnd[mt.startIdx..mt.startIdx + size], mt.eSnd[lo..hi];
    forall g: nat | g in mt.gates
      ensures Opening(w, r, d, bl, dBits, eBits, g)
    {
      var k :| 0 <= k < |mt.gates| && mt.gates[k] == g;
      SlicedGate(w, r, mt, d, layers, k, size, lo, hi);
    }
  }

  lemma SlicedGate(w: World, r: Role, mt: MT, d: nat, layers: nat, k: nat, size: nat, lo: nat, hi: nat)
    requires WellFormed(BOOL, w.gs) && MtAt(w, r, mt, d, |Layer(w.gs, d)|, layers) && k < |mt.gates|
    requires mt.idx <= mt.startIdx + size <= mt.num && lo == Flat(mt.startIdx, mt.bitlen)
    requires lo <= hi == Flat(mt.startIdx + size, mt.bitlen) <= |mt.eSnd|
    ensures Opening(w, r, d, mt.bitlen, mt.dSnd[mt.startIdx..mt.startIdx + size], mt.eSnd[lo..hi], mt.gates[k])
  {
    var g, bl := mt.gates[k], mt.bitlen;
    EarlierGate(w, mt, d, |Layer(w.gs, d)|, k);
    FlatMonotone(mt.startIdx, Pos(w.gs, g), bl);
    FlatMonotone(mt.idx, mt.startIdx + size, bl);
    SlicedOpening(w, r, mt, d, g, size, lo, hi);
  }

  lemma SlicedOpening(w: World, r: Role, mt: MT, d: nat, g: nat, size: nat, lo: nat, hi: nat)
    requires AndGate(w.gs, g, mt.bitlen) && Openings(w, r, g, mt.bitlen, mt.dSnd, mt.eSnd)
    requires mt.startIdx == Start(w.gs, mt.bitlen, d) <= Pos(w.gs, g) && lo == Flat(mt.startIdx, mt.bitlen) <= FlatPos(w.gs, g)
    requires Pos(w.gs, g) + Triples(w.gs, g, mt.bitlen) <= mt.startIdx + size <= |mt.dSnd|
    requires FlatPos(w.gs, g) + w.gs[g].nvals <= hi <= |mt.eSnd|
    ensures Opening(w, r, d, mt.bitlen, mt.dSnd[mt.startIdx..mt.startIdx + size], mt.eSnd[lo..hi], g)
  {
    var p, x := Pos(w.gs, g) - mt.startIdx, FlatPos(w.gs, g) - lo;
    forall i: nat | i < Triples(w.gs, g, mt.bitlen)
      ensures mt.dSnd[mt.startIdx..mt.startIdx + size][p + i] == OpenD(w, r, g, i)
    {
      assert mt.dSnd[mt.startIdx..mt.startIdx + size][p + i] == mt.dSnd[Pos(w.gs, g) + i];
    }
    forall t: nat | t < w.gs[g].nvals
      ensures mt.eSnd[lo..hi][x + t] == OpenE(w, r, g, t)
    {
      assert mt.eSnd[lo..hi][x + t] == mt.eSnd[FlatPos(w.gs, g) + t];
    }
  }

  /** Written behind the start of the layer, the received bits are the other party's openings. */
  lemma PlaceOpenings(w: World, r: Role, mt0: MT, mt: MT, d: nat, layers: nat, dBits: seq<bool>, eBits: seq<bool>)
    requires WellFormed(BOOL, w.gs) && MtAt(w, r, mt0, d, |Layer(w.gs, d)|, layers) && d < layers && Shape(mt)
    requires SentOpenings(w, r.Other(), d, mt0.bitlen, dBits, eBits) && mt == mt0.(dRcv := mt.dRcv, eRcv := mt.eRcv)
    requires mt.startIdx + |dBits| <= mt.num && Flat(mt.startIdx, mt.bitlen) + |eBits| <= |mt.eRcv|
    requires mt.dRcv[mt.startIdx..mt.startIdx + |dBits|] == dBits
    requires mt.eRcv[Flat(mt.startIdx, mt.bitlen)..Flat(mt.startIdx, mt.bitlen) + |eBits|] == eBits
    ensures Exchanged(w, r, mt, d, layers)
  {
    forall k | 0 <= k < |mt.gates|
      ensures AndGate(w.gs, mt.gates[k], mt.bitlen) && Openings(w, r.Other(), mt.gates[k], mt.bitlen, mt.dRcv, mt.eRcv)
    {
      var g := mt.gates[k];
      assert Opening(w, r.Other(), d, mt.bitlen, dBits, eBits, g);
      PlacedOpening(w, r.Other(), mt, d, g, dBits, eBits);
    }
  }

  lemma PlacedOpening(w: World, r: Role, mt: MT, d: nat, g: nat, dBits: seq<bool>, eBits: seq<bool>)
    requires Shape(mt) && Opening(w, r, d, mt.bitlen, dBits, eBits, g) && mt.startIdx == Start(w.gs, mt.bitlen, d)
    requires mt.startIdx + |dBits| <= mt.num && Flat(mt.startIdx, mt.bitlen) + |eBits| <= |mt.eRcv|
    requires mt.dRcv[mt.startIdx..mt.startIdx + |dBits|] == dBits
    requires mt.eRcv[Flat(mt.startIdx, mt.bitlen)..Flat(mt.startIdx, mt.bitlen) + |eBits|] == eBits
    ensures Openings(w, r, g, mt.bitlen, mt.dRcv, mt.eRcv)
  {
    SliceIs(mt.dRcv, mt.startIdx, dBits);
    SliceIs(mt.eRcv, Flat(mt.startIdx, mt.bitlen), eBits);
  }

  lemma SliceIs(all: seq<bool>, lo: nat, part: seq<bool>)
    requires lo + |part| <= |all| && all[lo..lo + |part|] == part
    ensures forall k | lo <= k < lo + |part| :: all[k] == part[k - lo]
  {
  }
}
