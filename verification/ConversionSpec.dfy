/** Conversion of Boolean shares into arithmetic shares: the cells of a layer, and what is sent for each of them. */
module ConversionSpec {
  import opened Bits
  import opened Words

  /** A conversion of nvals numbers, whose bits are shared on the wires of the parents. */
  datatype ConvGate = ConvGate(id: nat, parents: seq<nat>, nvals: nat)

  /** One bit of one of the numbers: value k of the j-th parent of a gate. */
  datatype Cell = Cell(parent: nat, j: nat, k: nat)

  /** A party's Boolean shares: the bit of a wire at a SIMD position. */
  type Share = (nat, nat) -> bool

  function BitAt(share: Share, c: Cell): bool {
    share(c.parent, c.k)
  }

  // ----- the order in which both parties visit the cells of a layer -----------------------

  function RowCells(g: ConvGate, j: nat, k: nat): (r: seq<Cell>)
    requires j < |g.parents|
    ensures |r| == k
  {
    if k == 0 then [] else RowCells(g, j, k - 1) + [Cell(g.parents[j], j, k - 1)]
  }

  /** n times nvals. */
  function Area(n: nat, nvals: nat): nat {
    if n == 0 then 0 else Area(n - 1, nvals) + nvals
  }

  function GateCells(g: ConvGate, j: nat): (r: seq<Cell>)
    requires j <= |g.parents|
    ensures |r| == Area(j, g.nvals)
  {
    if j == 0 then [] else GateCells(g, j - 1) + RowCells(g, j - 1, g.nvals)
  }

  /** The number of cells of the first i gates. */
  function Base(gates: seq<ConvGate>, i: nat): nat
    requires i <= |gates|
  {
    if i == 0 then 0 else Base(gates, i - 1) + Area(|gates[i - 1].parents|, gates[i - 1].nvals)
  }

  function LayerCells(gates: seq<ConvGate>, i: nat): (r: seq<Cell>)
    requires i <= |gates|
    ensures |r| == Base(gates, i)
  {
    if i == 0 then [] else LayerCells(gates, i - 1) + GateCells(gates[i - 1], |gates[i - 1].parents|)
  }

  function Cells(gates: seq<ConvGate>): (r: seq<Cell>)
    ensures |r| == Base(gates, |gates|)
  {
    LayerCells(gates, |gates|)
  }

  lemma {:induction false} RowCellAt(g: ConvGate, j: nat, n: nat, k: nat)
    requires j < |g.parents| && k < n
    ensures RowCells(g, j, n)[k] == Cell(g.parents[j], j, k)
  {
    if k < n - 1 {
      RowCellAt(g, j, n - 1, k);
    }
  }

  lemma {:induction false} AreaWithin(j: nat, n: nat, nvals: nat)
    requires j < n
    ensures Area(j, nvals) + nvals <= Area(n, nvals)
  {
    if j < n - 1 {
      AreaWithin(j, n - 1, nvals);
    }
  }

  lemma {:induction false} GateCellAt(g: ConvGate, n: nat, j: nat, k: nat)
    requires j < n <= |g.parents| && k < g.nvals
    ensures Area(j, g.nvals) + k < Area(n, g.nvals)
    ensures GateCells(g, n)[Area(j, g.nvals) + k] == Cell(g.parents[j], j, k)
  {
    AreaWithin(j, n, g.nvals);
    if j < n - 1 {
      GateCellAt(g, n - 1, j, k);
    } else {
      RowCellAt(g, j, g.nvals, k);
    }
  }

  lemma {:induction false} LayerCellAt(gates: seq<ConvGate>, n: nat, i: nat, j: nat, k: nat)
    requires i < n <= |gates| && j < |gates[i].parents| && k < gates[i].nvals
    ensures Base(gates, i) + Area(j, gates[i].nvals) + k < Base(gates, n)
    ensures LayerCells(gates, n)[Base(gates, i) + Area(j, gates[i].nvals) + k] == Cell(gates[i].parents[j], j, k)
  {
    if i < n - 1 {
      LayerCellAt(gates, n - 1, i, j, k);
    } else {
      GateCellAt(gates[i], |gates[i].parents|, j, k);
    }
  }

  lemma {:induction false} LayerCellsPrefix(gates: seq<ConvGate>, more: seq<ConvGate>, i: nat)
    requires i <= |gates|
    ensures Base(gates + more, i) == Base(gates, i) && LayerCells(gates + more, i) == LayerCells(gates, i)
  {
    if i > 0 {
      LayerCellsPrefix(gates, more, i - 1);
    }
  }

  // ----- what is sent for a cell ----------------------------------------------------------

  /** The transfers prepared in the setup phase: the server's two masks of each, its randomness, and its Boolean shares. */
  datatype ServerTables = ServerTables(masks0: seq<nat>, masks1: seq<nat>, rnd: seq<nat>, share: Share, l: nat)

  /** The client's choice bits, the masks it has chosen with them, and its Boolean shares. */
  datatype ClientTables = ClientTables(choice: seq<bool>, mask: seq<nat>, share: Share, l: nat)

  function MaskOf(t: ServerTables, which: bool, g: nat): nat
    requires g < |t.masks0| && g < |t.masks1|
  {
    if which then t.masks1[g] else t.masks0[g]
  }

  /** The word of a message: the weighted bit, minus the server's random share. */
  function Correction(t: ServerTables, bit: bool, j: nat, g: nat): (r: nat)
    requires g < |t.rnd|
    ensures r < Pow2(t.l)
  {
    Mod(Less(Weight(bit, j), t.rnd[g]), Pow2(t.l))
  }

  /** The server's two messages for the cell at transfer g, to a client whose permutation bit is perm. */
  function FirstWord(t: ServerTables, c: Cell, perm: bool, g: nat): nat
    requires g < |t.masks0| && g < |t.masks1| && g < |t.rnd|
  {
    XorWord(MaskOf(t, perm, g), Correction(t, BitAt(t.share, c), c.j, g), t.l)
  }

  function SecondWord(t: ServerTables, c: Cell, perm: bool, g: nat): nat
    requires g < |t.masks0| && g < |t.masks1| && g < |t.rnd|
  {
    XorWord(MaskOf(t, !perm, g), Correction(t, !BitAt(t.share, c), c.j, g), t.l)
  }

  function PermBit(t: ClientTables, c: Cell, g: nat): bool
    requires g < |t.choice|
  {
    t.choice[g] != BitAt(t.share, c)
  }

  /** What the client keeps of two messages. */
  function KeptWord(t: ClientTables, c: Cell, first: nat, second: nat, g: nat): nat
    requires g < |t.mask|
  {
    XorWord(if BitAt(t.share, c) then second else first, t.mask[g], t.l)
  }

  /** The transfers are ideal: the client holds the mask that it has chosen, and nothing depends on the other one. */
  ghost predicate TransferredAt(s: ServerTables, c: ClientTables, g: nat) {
    && g < |s.masks0| && g < |s.masks1| && g < |s.rnd| && g < |c.choice| && g < |c.mask|
    && c.mask[g] == MaskOf(s, c.choice[g], g)
  }

  ghost predicate Transferred(s: ServerTables, c: ClientTables, n: nat) {
    s.l == c.l && forall g: nat {:trigger TransferredAt(s, c, g)} | g < n :: TransferredAt(s, c, g)
  }

  /** The bit that the two Boolean shares stand for. */
  function PlainBit(s: ServerTables, c: ClientTables, cell: Cell): bool {
    BitAt(s.share, cell) != BitAt(c.share, cell)
  }

  /** The server's random word and the client's word are shares of the weighted bit. */
  lemma CellShares(s: ServerTables, c: ClientTables, cell: Cell, g: nat)
    requires s.l == c.l && TransferredAt(s, c, g)
    ensures var perm := PermBit(c, cell, g);
            Mod(s.rnd[g] + KeptWord(c, cell, FirstWord(s, cell, perm, g), SecondWord(s, cell, perm, g), g), Pow2(s.l)) ==
            Mod(Weight(s.share(cell.parent, cell.k) != c.share(cell.parent, cell.k), cell.j), Pow2(s.l))
  {
    var w, r := Weight(PlainBit(s, c, cell), cell.j), s.rnd[g];
    Unmasked(c.mask[g], Correction(s, PlainBit(s, c, cell), cell.j, g), s.l);
    ModAdd(Less(w, r), r, Pow2(s.l));
  }

  // ----- summing up -----------------------------------------------------------------------

  /** The sum of the words at position k of the first n rows. */
  function Gather(words: seq<nat>, at: nat, nvals: nat, k: nat, n: nat): nat
    requires k < nvals && at + Area(n, nvals) <= |words|
  {
    if n == 0 then 0 else AreaStep(n, nvals); Gather(words, at, nvals, k, n - 1) + words[at + Area(n - 1, nvals) + k]
  }

  lemma AreaStep(n: nat, nvals: nat)
    requires n > 0
    ensures Area(n, nvals) == Area(n - 1, nvals) + nvals
  {
  }

  /** The number that bit position j of n wires stands for, at SIMD position k. */
  function WireSum(s: ServerTables, c: ClientTables, parents: seq<nat>, k: nat, n: nat): nat
    requires n <= |parents|
  {
    if n == 0 then 0 else WireSum(s, c, parents, k, n - 1) + Weight(PlainBit(s, c, Cell(parents[n - 1], n - 1, k)), n - 1)
  }

  /** The bits that the shares on the wires stand for, at SIMD position k. */
  function PlainBits(s: ServerTables, c: ClientTables, parents: seq<nat>, k: nat): (b: seq<bool>)
    ensures |b| == |parents| && forall j | 0 <= j < |b| :: b[j] == (s.share(parents[j], k) != c.share(parents[j], k))
  {
    seq(|parents|, j requires 0 <= j < |parents| => s.share(parents[j], k) != c.share(parents[j], k))
  }

  lemma {:induction false} WireSumIs(s: ServerTables, c: ClientTables, parents: seq<nat>, k: nat, n: nat)
    requires n <= |parents|
    ensures WireSum(s, c, parents, k, n) == Value(PlainBits(s, c, parents, k), n)
  {
    if n > 0 {
      WireSumIs(s, c, parents, k, n - 1);
    }
  }

  /** Cell by cell, the words of the two parties are shares of the weighted bits. */
  ghost predicate CellShared(s: ServerTables, c: ClientTables, cells: seq<Cell>, sw: seq<nat>, cw: seq<nat>, x: nat) {
    && x < |cells| && x < |sw| && x < |cw|
    && Mod(sw[x] + cw[x], Pow2(s.l)) == Mod(Weight(PlainBit(s, c, cells[x]), cells[x].j), Pow2(s.l))
  }

  lemma {:induction false} SumShares(s: ServerTables, c: ClientTables, gates: seq<ConvGate>, sw: seq<nat>, cw: seq<nat>, i: nat, k: nat, n: nat)
    requires i < |gates| && k < gates[i].nvals && n <= |gates[i].parents|
    requires |sw| == |cw| == |Cells(gates)| && Base(gates, i) + Area(n, gates[i].nvals) <= |sw|
    requires forall x: nat {:trigger CellShared(s, c, Cells(gates), sw, cw, x)} | x < |sw| :: CellShared(s, c, Cells(gates), sw, cw, x)
    ensures Mod(Gather(sw, Base(gates, i), gates[i].nvals, k, n) + Gather(cw, Base(gates, i), gates[i].nvals, k, n), Pow2(s.l)) ==
            Mod(WireSum(s, c, gates[i].parents, k, n), Pow2(s.l))
  {
    if n > 0 {
      var at, nvals := Base(gates, i), gates[i].nvals;
      var x := at + Area(n - 1, nvals) + k;
      SumShares(s, c, gates, sw, cw, i, k, n - 1);
      LayerCellAt(gates, |gates|, i, n - 1, k);
      OneMoreCell(s, c, Cells(gates), gates[i].parents, sw, cw, at, nvals, k, n, x);
    }
  }

  /** One more row adds one more weighted bit. */
  lemma OneMoreCell(s: ServerTables, c: ClientTables, cells: seq<Cell>, parents: seq<nat>, sw: seq<nat>, cw: seq<nat>,
                    at: nat, nvals: nat, k: nat, n: nat, x: nat)
    requires 0 < n <= |parents| && k < nvals && at + Area(n, nvals) <= |sw| == |cw| && x == at + Area(n - 1, nvals) + k
    requires at + Area(n - 1, nvals) <= |sw| && CellShared(s, c, cells, sw, cw, x) && cells[x] == Cell(parents[n - 1], n - 1, k)
    requires Mod(Gather(sw, at, nvals, k, n - 1) + Gather(cw, at, nvals, k, n - 1), Pow2(s.l)) ==
             Mod(WireSum(s, c, parents, k, n - 1), Pow2(s.l))
    ensures Mod(Gather(sw, at, nvals, k, n) + Gather(cw, at, nvals, k, n), Pow2(s.l)) == Mod(WireSum(s, c, parents, k, n), Pow2(s.l))
  {
    GatherStep(sw, at, nvals, k, n, x);
    GatherStep(cw, at, nvals, k, n, x);
    AddUp(Gather(sw, at, nvals, k, n - 1), sw[x], Gather(cw, at, nvals, k, n - 1), cw[x],
          WireSum(s, c, parents, k, n - 1), Weight(PlainBit(s, c, cells[x]), n - 1), Pow2(s.l));
  }

  lemma GatherStep(words: seq<nat>, at: nat, nvals: nat, k: nat, n: nat, x: nat)
    requires 0 < n && k < nvals && at + Area(n, nvals) <= |words| && at + Area(n - 1, nvals) <= |words| && x == at + Area(n - 1, nvals) + k
    ensures x < |words| && Gather(words, at, nvals, k, n) == Gather(words, at, nvals, k, n - 1) + words[x]
  {
    AreaStep(n, nvals);
  }

  lemma AddUp(a: nat, x: nat, b: nat, y: nat, v: nat, w: nat, m: nat)
    requires m > 0 && Mod(a + b, m) == Mod(v, m) && Mod(x + y, m) == Mod(w, m)
    ensures Mod((a + x) + (b + y), m) == Mod(v + w, m)
  {
    ModAddBoth(a + b, x + y, m);
    ModAddBoth(v, w, m);
  }
}
