/** The two rounds of the conversion, pipelined over the layers of a circuit. */
module ArithConversion {
  import opened Bits
  import opened Circuit
  import opened Words
  import opened ConversionSpec

  // ----- specification of a round ---------------------------------------------------------

  /** The bits of the first round: the client's choice bits, corrected by its shares. */
  function PermBits(t: ClientTables, cells: seq<Cell>, idx: nat): (r: seq<bool>)
    requires idx + |cells| <= |t.choice|
    ensures |r| == |cells|
  {
    seq(|cells|, x requires 0 <= x < |cells| => PermBit(t, cells[x], idx + x))
  }

  /** The messages of the second round, for cell x of a layer. */
  predicate PairAt(t: ServerTables, cells: seq<Cell>, bits: seq<bool>, idx: nat, snd: seq<nat>, x: nat) {
    && x < |cells| && x < |bits| && 2 * x + 1 < |snd| && idx + x < |t.masks0| && idx + x < |t.masks1| && idx + x < |t.rnd|
    && snd[2 * x] == FirstWord(t, cells[x], bits[x], idx + x)
    && snd[2 * x + 1] == SecondWord(t, cells[x], bits[x], idx + x)
  }

  /** Unmasked, the messages for a cell are the server's bit and its negation at their weight, less the server's random word. */
  predicate PairOpens(t: ServerTables, cells: seq<Cell>, bits: seq<bool>, idx: nat, snd: seq<nat>, x: nat) {
    && x < |cells| && x < |bits| && 2 * x + 1 < |snd| && idx + x < |t.masks0| && idx + x < |t.masks1| && idx + x < |t.rnd|
    && var first := XorWord(snd[2 * x], if bits[x] then t.masks1[idx + x] else t.masks0[idx + x], t.l);
       var second := XorWord(snd[2 * x + 1], if bits[x] then t.masks0[idx + x] else t.masks1[idx + x], t.l);
       var bit, w, rnd := t.share(cells[x].parent, cells[x].k), Pow2(cells[x].j), t.rnd[idx + x];
       Mod(first + rnd, Pow2(t.l)) == Mod(if bit then w else 0, Pow2(t.l)) && Mod(second + rnd, Pow2(t.l)) == Mod(if bit then 0 else w, Pow2(t.l))
  }

  lemma PairUnmasked(t: ServerTables, cells: seq<Cell>, bits: seq<bool>, idx: nat, snd: seq<nat>, x: nat)
    requires PairAt(t, cells, bits, idx, snd, x)
    ensures PairOpens(t, cells, bits, idx, snd, x)
  {
    var g, bit, j := idx + x, BitAt(t.share, cells[x]), cells[x].j;
    CorrectionOpens(t, MaskOf(t, bits[x], g), bit, j, g);
    CorrectionOpens(t, MaskOf(t, !bits[x], g), !bit, j, g);
  }

  lemma CorrectionOpens(t: ServerTables, mask: nat, bit: bool, j: nat, g: nat)
    requires g < |t.rnd|
    ensures var word := XorWord(XorWord(mask, Correction(t, bit, j, g), t.l), mask, t.l);
            Mod(word + t.rnd[g], Pow2(t.l)) == Mod(Weight(bit, j), Pow2(t.l))
  {
    Unmasked(mask, Correction(t, bit, j, g), t.l);
    ModAdd(Less(Weight(bit, j), t.rnd[g]), t.rnd[g], Pow2(t.l));
  }

  ghost predicate Sent(t: ServerTables, cells: seq<Cell>, bits: seq<bool>, idx: nat, snd: seq<nat>, n: nat) {
    forall x: nat {:trigger PairAt(t, cells, bits, idx, snd, x)} | x < n :: PairAt(t, cells, bits, idx, snd, x)
  }

  function ServerWords(t: ServerTables, n: nat, idx: nat): (r: seq<nat>)
    requires idx + n <= |t.rnd|
    ensures |r| == n
  {
    t.rnd[idx..idx + n]
  }

  /** What the client unmasks, cell by cell. */
  function ClientWords(t: ClientTables, cells: seq<Cell>, rcv: seq<nat>, idx: nat): (r: seq<nat>)
    requires idx + |cells| <= |t.mask| && 2 * |cells| <= |rcv|
    ensures |r| == |cells|
  {
    seq(|cells|, x requires 0 <= x < |cells| => KeptWord(t, cells[x], rcv[2 * x], rcv[2 * x + 1], idx + x))
  }

  /** The gates of one layer: each converts at least one bit of at least one number, and ids are not used twice. */
  ghost predicate LayerOk(gates: seq<ConvGate>) {
    && (forall i: nat | i < |gates| :: gates[i].parents != [] && gates[i].nvals > 0)
    && (forall i: nat, j: nat | i < j < |gates| :: gates[i].id != gates[j].id)
  }

  function Ids(gates: seq<ConvGate>): set<nat> {
    set i: nat | i < |gates| :: gates[i].id
  }

  /** Partial sums of a gate: the first n rows. */
  ghost predicate PartialSums(sums: seq<nat>, words: seq<nat>, at: nat, nvals: nat, n: nat, m: nat) {
    && m > 0 && |sums| == nvals && at + Area(n, nvals) <= |words|
    && forall k: nat | k < nvals :: sums[k] == Mod(Gather(words, at, nvals, k, n), m)
  }

  /** Gate i holds the sums of its words. */
  ghost predicate Summed(gates: seq<ConvGate>, aval: map<nat, seq<nat>>, words: seq<nat>, m: nat, i: nat) {
    && i < |gates| && gates[i].id in aval
    && PartialSums(aval[gates[i].id], words, Base(gates, i), gates[i].nvals, |gates[i].parents|, m)
  }

  ghost predicate AllSummed(gates: seq<ConvGate>, aval: map<nat, seq<nat>>, words: seq<nat>, m: nat, n: nat) {
    forall i: nat {:trigger Summed(gates, aval, words, m, i)} | i < n :: Summed(gates, aval, words, m, i)
  }

  predicate Kept(aval: map<nat, seq<nat>>, r: map<nat, seq<nat>>) {
    forall g | g in aval :: g in r && r[g] == aval[g]
  }

  /** Both parties together hold the number that the wires of a gate stand for. */
  ghost predicate Converted(s: ServerTables, c: ClientTables, g: ConvGate, sv: map<nat, seq<nat>>, cv: map<nat, seq<nat>>) {
    && g.id in sv && g.id in cv && |sv[g.id]| == |cv[g.id]| == g.nvals
    && forall k: nat | k < g.nvals :: (sv[g.id][k] + cv[g.id][k]) % Pow2(s.l) == Num(PlainBits(s, c, g.parents, k)) % Pow2(s.l)
  }

  /** Cell by cell, the messages of a layer leave the two parties with shares. */
  lemma LayerShared(s: ServerTables, c: ClientTables, cells: seq<Cell>, idx: nat, snd: seq<nat>)
    requires var n := |cells|; idx + n <= |c.choice| && idx + n <= |c.mask| && idx + n <= |s.rnd| && 2 * n <= |snd|
    requires Transferred(s, c, idx + |cells|) && Sent(s, cells, PermBits(c, cells, idx), idx, snd, |cells|)
    ensures forall x: nat {:trigger CellShared(s, c, cells, ServerWords(s, |cells|, idx), ClientWords(c, cells, snd, idx), x)} | x < |cells| ::
              CellShared(s, c, cells, ServerWords(s, |cells|, idx), ClientWords(c, cells, snd, idx), x)
  {
    var sw, cw := ServerWords(s, |cells|, idx), ClientWords(c, cells, snd, idx);
    forall x: nat | x < |cells|
      ensures CellShared(s, c, cells, sw, cw, x)
    {
      assert PairAt(s, cells, PermBits(c, cells, idx), idx, snd, x) && TransferredAt(s, c, idx + x);
      CellShares(s, c, cells[x], idx + x);
    }
  }

  lemma NumberShares(s: ServerTables, c: ClientTables, gates: seq<ConvGate>, sw: seq<nat>, cw: seq<nat>,
                     sums: seq<nat>, csums: seq<nat>, i: nat, k: nat)
    requires i < |gates| && k < gates[i].nvals && |sw| == |cw| == |Cells(gates)|
    requires PartialSums(sums, sw, Base(gates, i), gates[i].nvals, |gates[i].parents|, Pow2(s.l))
    requires PartialSums(csums, cw, Base(gates, i), gates[i].nvals, |gates[i].parents|, Pow2(s.l))
    requires forall x: nat {:trigger CellShared(s, c, Cells(gates), sw, cw, x)} | x < |sw| :: CellShared(s, c, Cells(gates), sw, cw, x)
    ensures Mod(sums[k] + csums[k], Pow2(s.l)) == Mod(WireSum(s, c, gates[i].parents, k, |gates[i].parents|), Pow2(s.l))
  {
    var n, at, nvals := |gates[i].parents|, Base(gates, i), gates[i].nvals;
    SumShares(s, c, gates, sw, cw, i, k, n);
    ModAddBoth(Gather(sw, at, nvals, k, n), Gather(cw, at, nvals, k, n), Pow2(s.l));
  }

  /** The messages of a layer, kept and summed up, are shares of its numbers. */
  lemma LayerConverted(s: ServerTables, c: ClientTables, gates: seq<ConvGate>, idx: nat, snd: seq<nat>,
                       sv: map<nat, seq<nat>>, cv: map<nat, seq<nat>>, i: nat)
    requires var n := |Cells(gates)|; idx + n <= |c.choice| && idx + n <= |c.mask| && idx + n <= |s.rnd| && 2 * n <= |snd|
    requires Transferred(s, c, idx + |Cells(gates)|) && i < |gates|
    requires Sent(s, Cells(gates), PermBits(c, Cells(gates), idx), idx, snd, |Cells(gates)|)
    requires Summed(gates, sv, ServerWords(s, |Cells(gates)|, idx), Pow2(s.l), i)
    requires Summed(gates, cv, ClientWords(c, Cells(gates), snd, idx), Pow2(s.l), i)
    ensures Converted(s, c, gates[i], sv, cv)
  {
    var cells, g := Cells(gates), gates[i];
    var sw, cw := ServerWords(s, |cells|, idx), ClientWords(c, cells, snd, idx);
    LayerShared(s, c, cells, idx, snd);
    forall k: nat | k < g.nvals
      ensures (sv[g.id][k] + cv[g.id][k]) % Pow2(s.l) == Num(PlainBits(s, c, g.parents, k)) % Pow2(s.l)
    {
      NumberShares(s, c, gates, sw, cw, sv[g.id], cv[g.id], i, k);
      WireSumIs(s, c, g.parents, k, |g.parents|);
      ModIs(sv[g.id][k] + cv[g.id][k], Pow2(s.l));
      ModIs(Num(PlainBits(s, c, g.parents, k)), Pow2(s.l));
    }
  }

  // ----- the loops of a round -------------------------------------------------------------

  /** The rows of a layer lie one after the other. */
  lemma RowInside(gates: seq<ConvGate>, i: nat, j: nat)
    requires i < |gates| && j < |gates[i].parents|
    ensures Base(gates, i) + Area(j, gates[i].nvals) + gates[i].nvals == Base(gates, i) + Area(j + 1, gates[i].nvals)
    ensures Base(gates, i) + Area(j + 1, gates[i].nvals) <= Base(gates, i + 1) <= |Cells(gates)|
  {
    AreaWithin(j, |gates[i].parents|, gates[i].nvals);
    BaseMonotone(gates, i + 1, |gates|);
  }

  lemma {:induction false} BaseMonotone(gates: seq<ConvGate>, i: nat, n: nat)
    requires i <= n <= |gates|
    ensures Base(gates, i) <= Base(gates, n)
  {
    if i < n {
      BaseMonotone(gates, i, n - 1);
    }
  }

  /** EvaluateCONVGate at the client: the bits of one more gate. */
  method PutBits(t: ClientTables, ghost gates: seq<ConvGate>, g: ConvGate, idx: nat, buf: seq<bool>, sndCtr: nat) returns (r: seq<bool>)
    requires idx + |Cells(gates + [g])| <= |t.choice| && idx + |Cells(gates)| <= |t.choice| && sndCtr == |Cells(gates)| <= |buf|
    requires buf[..sndCtr] == PermBits(t, Cells(gates), idx)
    ensures r == PermBits(t, Cells(gates + [g]), idx)
  {
    ghost var all := gates + [g];
    LayerCellsPrefix(gates, [g], |gates|);
    assert all[|gates|] == g;
    r := buf[..sndCtr];
    for i := 0 to |g.parents|
      invariant |r| == |Cells(gates)| + Area(i, g.nvals) <= |Cells(all)|
      invariant forall x: nat | x < |r| :: r[x] == PermBit(t, Cells(all)[x], idx + x)
    {
      RowInside(all, |gates|, i);
      for k := 0 to g.nvals
        invariant |r| == |Cells(gates)| + Area(i, g.nvals) + k
        invariant forall x: nat | x < |r| :: r[x] == PermBit(t, Cells(all)[x], idx + x)
      {
        LayerCellAt(all, |all|, |gates|, i, k);
        r := r + [t.choice[idx + |r|] != t.share(g.parents[i], k)];
      }
    }
  }

  /** All tables reach up to transfer n. */
  predicate ServerReach(t: ServerTables, n: nat) {
    n <= |t.masks0| && n <= |t.masks1| && n <= |t.rnd|
  }

  lemma SentNext(t: ServerTables, cells: seq<Cell>, bits: seq<bool>, idx: nat, snd: seq<nat>, a: nat, b: nat, n: nat)
    requires |snd| == 2 * n && n < |cells| && n < |bits| && ServerReach(t, idx + n + 1) && Sent(t, cells, bits, idx, snd, n)
    requires a == FirstWord(t, cells[n], bits[n], idx + n) && b == SecondWord(t, cells[n], bits[n], idx + n)
    ensures Sent(t, cells, bits, idx, snd + [a, b], n + 1)
  {
    forall x: nat | x < n + 1
      ensures PairAt(t, cells, bits, idx, snd + [a, b], x)
    {
      assert x < n ==> PairAt(t, cells, bits, idx, snd, x);
    }
  }

  /** The sums while row j is visited: the first k have been added to. */
  ghost predicate MidSums(sums: seq<nat>, words: seq<nat>, at: nat, nvals: nat, j: nat, k: nat, m: nat) {
    && m > 0 && |sums| == nvals && at + Area(j + 1, nvals) <= |words| && at + Area(j, nvals) <= |words|
    && (forall c: nat | c < nvals && c < k :: sums[c] == Mod(Gather(words, at, nvals, c, j + 1), m))
    && (forall c: nat | k <= c < nvals :: sums[c] == Mod(Gather(words, at, nvals, c, j), m))
  }

  /** One word is added to one sum. */
  lemma SumNext(sums: seq<nat>, words: seq<nat>, at: nat, nvals: nat, j: nat, k: nat, m: nat, w: nat)
    requires MidSums(sums, words, at, nvals, j, k, m) && k < nvals && w == words[at + Area(j, nvals) + k]
    ensures MidSums(sums[k := Mod(sums[k] + w, m)], words, at, nvals, j, k + 1, m)
  {
    ModAdd(Gather(words, at, nvals, k, j), w, m);
  }

  /** Both messages of a cell, masked in the order that the client's permutation bit asks for. */
  method PutPair(t: ServerTables, ghost cells: seq<Cell>, parent: nat, j: nat, k: nat, rcv: seq<bool>, idx: nat, lctr: nat, snd: seq<nat>)
    returns (r: seq<nat>)
    requires lctr < |cells| && lctr < |rcv| && ServerReach(t, idx + lctr + 1) && cells[lctr] == Cell(parent, j, k)
    requires |snd| == 2 * lctr && Sent(t, cells, rcv, idx, snd, lctr)
    ensures |r| == 2 * (lctr + 1) && Sent(t, cells, rcv, idx, r, lctr + 1)
  {
    var gctr, perm, cor := idx + lctr, rcv[lctr], t.share(parent, k);
    var tmpa := XorWord(MaskOf(t, perm, gctr), Correction(t, cor, j, gctr), t.l);
    var tmpb := XorWord(MaskOf(t, !perm, gctr), Correction(t, !cor, j, gctr), t.l);
    SentNext(t, cells, rcv, idx, snd, tmpa, tmpb, lctr);
    r := snd + [tmpa, tmpb];
  }

  /** AssignServerConversionShares, the innermost loop: one parent of one gate. */
  method ServerRow(t: ServerTables, gates: seq<ConvGate>, i: nat, j: nat, rcv: seq<bool>, idx: nat, lctr: nat, snd: seq<nat>, tmpsum: seq<nat>)
    returns (r: seq<nat>, sums: seq<nat>)
    requires i < |gates| && j < |gates[i].parents| && lctr == Base(gates, i) + Area(j, gates[i].nvals)
    requires |rcv| >= |Cells(gates)| && ServerReach(t, idx + |Cells(gates)|)
    requires |snd| == 2 * lctr && Sent(t, Cells(gates), rcv, idx, snd, lctr)
    requires PartialSums(tmpsum, ServerWords(t, |Cells(gates)|, idx), Base(gates, i), gates[i].nvals, j, Pow2(t.l))
    ensures |r| == 2 * (lctr + gates[i].nvals) && Sent(t, Cells(gates), rcv, idx, r, lctr + gates[i].nvals)
    ensures PartialSums(sums, ServerWords(t, |Cells(gates)|, idx), Base(gates, i), gates[i].nvals, j + 1, Pow2(t.l))
  {
    var g, m := gates[i], Pow2(t.l);
    ghost var words, at := ServerWords(t, |Cells(gates)|, idx), Base(gates, i);
    RowInside(gates, i, j);
    r, sums := snd, tmpsum;
    for k := 0 to g.nvals
      invariant |r| == 2 * (lctr + k) && Sent(t, Cells(gates), rcv, idx, r, lctr + k)
      invariant MidSums(sums, words, at, g.nvals, j, k, m)
    {
      LayerCellAt(gates, |gates|, i, j, k);
      SumNext(sums, words, at, g.nvals, j, k, m, t.rnd[idx + lctr + k]);
      sums := sums[k := Mod(sums[k] + t.rnd[idx + lctr + k], m)];
      r := PutPair(t, Cells(gates), g.parents[j], j, k, rcv, idx, lctr + k, r);
    }
  }

  /** AssignClientConversionShares, the innermost loop: one parent of one gate. */
  method ClientRow(t: ClientTables, gates: seq<ConvGate>, i: nat, j: nat, rcv: seq<nat>, idx: nat, lctr: nat, tmpsum: seq<nat>)
    returns (sums: seq<nat>)
    requires i < |gates| && j < |gates[i].parents| && lctr == Base(gates, i) + Area(j, gates[i].nvals)
    requires |rcv| >= 2 * |Cells(gates)| && idx + |Cells(gates)| <= |t.mask|
    requires PartialSums(tmpsum, ClientWords(t, Cells(gates), rcv, idx), Base(gates, i), gates[i].nvals, j, Pow2(t.l))
    ensures PartialSums(sums, ClientWords(t, Cells(gates), rcv, idx), Base(gates, i), gates[i].nvals, j + 1, Pow2(t.l))
  {
    var g, m := gates[i], Pow2(t.l);
    ghost var words, at := ClientWords(t, Cells(gates), rcv, idx), Base(gates, i);
    RowInside(gates, i, j);
    sums := tmpsum;
    for k := 0 to g.nvals
      invariant MidSums(sums, words, at, g.nvals, j, k, m)
    {
      LayerCellAt(gates, |gates|, i, j, k);
      var c := lctr + k;
      var word := rcv[2 * c + Bit(t.share(g.parents[j], k))];
      var tmp := XorWord(word, t.mask[idx + c], t.l);
      SumNext(sums, words, at, g.nvals, j, k, m, tmp);
      sums := sums[k := Mod(sums[k] + tmp, m)];
    }
  }

  function NoSums(n: nat): (r: seq<nat>)
    ensures |r| == n && forall k: nat | k < n :: r[k] == 0
  {
    seq(n, _ => 0)
  }

  /** The sums of gate i are stored as its value. */
  lemma SummedNext(gates: seq<ConvGate>, aval: map<nat, seq<nat>>, r: map<nat, seq<nat>>, sums: seq<nat>, words: seq<nat>, m: nat, i: nat)
    requires LayerOk(gates) && i < |gates| && Ids(gates) !! aval.Keys
    requires AllSummed(gates, r, words, m, i) && Kept(aval, r) && r.Keys == aval.Keys + Ids(gates[..i])
    requires PartialSums(sums, words, Base(gates, i), gates[i].nvals, |gates[i].parents|, m)
    ensures var next := r[gates[i].id := sums];
            AllSummed(gates, next, words, m, i + 1) && Kept(aval, next) && next.Keys == aval.Keys + Ids(gates[..i + 1])
  {
    var next, id := r[gates[i].id := sums], gates[i].id;
    assert id in Ids(gates);
    forall x: nat | x < i + 1
      ensures Summed(gates, next, words, m, x)
    {
      assert x < i ==> Summed(gates, r, words, m, x);
    }
    IdsNext(gates, i);
  }

  lemma IdsNext(gates: seq<ConvGate>, i: nat)
    requires i < |gates|
    ensures Ids(gates[..i + 1]) == Ids(gates[..i]) + {gates[i].id}
  {
    forall id | id in Ids(gates[..i]) + {gates[i].id}
      ensures id in Ids(gates[..i + 1])
    {
      if id == gates[i].id {
        assert gates[..i + 1][i].id == id;
      } else {
        var x: nat :| x < i && gates[..i][x].id == id;
        assert gates[..i + 1][x].id == id;
      }
    }
    forall id | id in Ids(gates[..i + 1])
      ensures id in Ids(gates[..i]) + {gates[i].id}
    {
      var x: nat :| x < i + 1 && gates[..i + 1][x].id == id;
      assert x < i ==> gates[..i][x].id == id;
    }
  }

  /** AssignServerConversionShares: the messages of a layer, and the server's shares. */
  method ServerGates(t: ServerTables, gates: seq<ConvGate>, rcv: seq<bool>, idx: nat, aval: map<nat, seq<nat>>)
    returns (snd: seq<nat>, r: map<nat, seq<nat>>)
    requires LayerOk(gates) && Ids(gates) !! aval.Keys
    requires |rcv| >= |Cells(gates)| && ServerReach(t, idx + |Cells(gates)|)
    ensures |snd| == 2 * |Cells(gates)| && Sent(t, Cells(gates), rcv, idx, snd, |Cells(gates)|)
    ensures forall x: nat {:trigger PairOpens(t, Cells(gates), rcv, idx, snd, x)} | x < |Cells(gates)| :: PairOpens(t, Cells(gates), rcv, idx, snd, x)
    ensures AllSummed(gates, r, ServerWords(t, |Cells(gates)|, idx), Pow2(t.l), |gates|)
    ensures Kept(aval, r) && r.Keys == aval.Keys + Ids(gates)
  {
    snd, r := [], aval;
    ghost var words := ServerWords(t, |Cells(gates)|, idx);
    var lctr := 0;
    for i := 0 to |gates|
      invariant lctr == Base(gates, i)
      invariant |snd| == 2 * Base(gates, i) && Sent(t, Cells(gates), rcv, idx, snd, Base(gates, i))
      invariant AllSummed(gates, r, words, Pow2(t.l), i) && Kept(aval, r) && r.Keys == aval.Keys + Ids(gates[..i])
    {
      var tmpsum := NoSums(gates[i].nvals);
      BaseMonotone(gates, i, |gates|);
      for j := 0 to |gates[i].parents|
        invariant lctr == Base(gates, i) + Area(j, gates[i].nvals)
        invariant |snd| == 2 * lctr && Sent(t, Cells(gates), rcv, idx, snd, lctr)
        invariant PartialSums(tmpsum, words, Base(gates, i), gates[i].nvals, j, Pow2(t.l))
      {
        snd, tmpsum := ServerRow(t, gates, i, j, rcv, idx, lctr, snd, tmpsum);
        lctr := lctr + gates[i].nvals;
      }
      SummedNext(gates, aval, r, tmpsum, words, Pow2(t.l), i);
      r := r[gates[i].id := tmpsum];
    }
    assert gates[..|gates|] == gates;
    forall x: nat | x < |Cells(gates)|
      ensures PairOpens(t, Cells(gates), rcv, idx, snd, x)
    {
      assert PairAt(t, Cells(gates), rcv, idx, snd, x);
      PairUnmasked(t, Cells(gates), rcv, idx, snd, x);
    }
  }

  /** AssignClientConversionShares: the client's shares of a layer. */
  method ClientGates(t: ClientTables, gates: seq<ConvGate>, rcv: seq<nat>, idx: nat, aval: map<nat, seq<nat>>)
    returns (r: map<nat, seq<nat>>)
    requires LayerOk(gates) && Ids(gates) !! aval.Keys
    requires |rcv| >= 2 * |Cells(gates)| && idx + |Cells(gates)| <= |t.mask|
    ensures AllSummed(gates, r, ClientWords(t, Cells(gates), rcv, idx), Pow2(t.l), |gates|)
    ensures Kept(aval, r) && r.Keys == aval.Keys + Ids(gates)
  {
    r := aval;
    ghost var words := ClientWords(t, Cells(gates), rcv, idx);
    var lctr := 0;
    for i := 0 to |gates|
      invariant lctr == Base(gates, i)
      invariant AllSummed(gates, r, words, Pow2(t.l), i) && Kept(aval, r) && r.Keys == aval.Keys + Ids(gates[..i])
    {
      var tmpsum := NoSums(gates[i].nvals);
      BaseMonotone(gates, i, |gates|);
      for j := 0 to |gates[i].parents|
        invariant lctr == Base(gates, i) + Area(j, gates[i].nvals)
        invariant PartialSums(tmpsum, words, Base(gates, i), gates[i].nvals, j, Pow2(t.l))
      {
        tmpsum := ClientRow(t, gates, i, j, rcv, idx, lctr, tmpsum);
        lctr := lctr + gates[i].nvals;
      }
      SummedNext(gates, aval, r, tmpsum, words, Pow2(t.l), i);
      r := r[gates[i].id := tmpsum];
    }
    assert gates[..|gates|] == gates;
  }

  // ----- a party --------------------------------------------------------------------------

  /** What the setup phase left a party with. */
  datatype Tables = ServerSide(server: ServerTables) | ClientSide(client: ClientTables)

  /** What a party sends, or waits for, in a round: nothing at all when its counter is zero. */
  datatype Payload = Nothing | Bits(bits: seq<bool>) | Words(words: seq<nat>)
  datatype Shape = Silent | BitCount(n: nat) | WordCount(n: nat)

  function ShapeOf(p: Payload): Shape {
    match p
    case Nothing => Silent
    case Bits(b) => BitCount(|b|)
    case Words(w) => WordCount(|w|)
  }

  class ConversionSharing {
    const tables: Tables

    var convShareIdx: nat
    var convShareIdx2: nat
    var convShareSndCtr: nat
    var convShareRcvCtr: nat
    var convGates: seq<ConvGate>
    var convGates2: seq<ConvGate>
    var sndBits: seq<bool>
    var sndWords: seq<nat>
    var rcvBits: seq<bool>
    var rcvWords: seq<nat>
    var aval: map<nat, seq<nat>>

    constructor (tables: Tables, aval: map<nat, seq<nat>>)
      ensures this.tables == tables && this.aval == aval
      ensures convShareIdx == convShareIdx2 == convShareSndCtr == convShareRcvCtr == 0 && convGates == convGates2 == []
    {
      this.tables, this.aval := tables, aval;
      convShareIdx, convShareIdx2, convShareSndCtr, convShareRcvCtr := 0, 0, 0, 0;
      convGates, convGates2, sndBits, sndWords, rcvBits, rcvWords := [], [], [], [], [], [];
    }

    /** The client's buffer holds the bits of the gates collected so far. */
    ghost predicate BitsReady()
      reads this`convShareIdx, this`convShareSndCtr, this`convGates, this`sndBits
      requires tables.ClientSide?
    {
      && convShareSndCtr == |Cells(convGates)| <= |sndBits| && convShareIdx + |Cells(convGates)| <= |tables.client.choice|
      && sndBits[..convShareSndCtr] == PermBits(tables.client, Cells(convGates), convShareIdx)
    }

    method EvaluateCONVGate(g: ConvGate)
      requires tables.ServerSide? ==> convShareRcvCtr == |Cells(convGates)|
      requires tables.ClientSide? ==> BitsReady() && convShareIdx + |Cells(convGates + [g])| <= |tables.client.choice|
      modifies this`convGates, this`convShareRcvCtr, this`convShareSndCtr, this`sndBits
      ensures convGates == old(convGates) + [g]
      ensures tables.ServerSide? ==> convShareRcvCtr == |Cells(convGates)| && convShareSndCtr == old(convShareSndCtr)
      ensures tables.ClientSide? ==> BitsReady() && convShareRcvCtr == old(convShareRcvCtr)
    {
      LayerCellsPrefix(convGates, [g], |convGates|);
      if tables.ServerSide? {
        convShareRcvCtr := convShareRcvCtr + Area(|g.parents|, g.nvals);
      } else {
        sndBits := PutBits(tables.client, convGates, g, convShareIdx, sndBits, convShareSndCtr);
        convShareSndCtr := convShareSndCtr + Area(|g.parents|, g.nvals);
      }
      convGates := convGates + [g];
    }

    /** GetDataToSend. */
    method GetDataToSend() returns (p: Payload)
      requires if tables.ServerSide? then 2 * convShareSndCtr <= |sndWords| else convShareSndCtr <= |sndBits|
      ensures p == if convShareSndCtr == 0 then Nothing
                   else if tables.ServerSide? then Words(sndWords[..2 * convShareSndCtr]) else Bits(sndBits[..convShareSndCtr])
    {
      p := Nothing;
      if convShareSndCtr > 0 {
        p := if tables.ClientSide? then Bits(sndBits[..convShareSndCtr]) else Words(sndWords[..2 * convShareSndCtr]);
      }
    }

    /** GetBuffersToReceive. */
    method GetBuffersToReceive() returns (shape: Shape)
      ensures shape == if convShareRcvCtr == 0 then Silent
                       else if tables.ServerSide? then BitCount(convShareRcvCtr) else WordCount(2 * convShareRcvCtr)
    {
      shape := Silent;
      if convShareRcvCtr > 0 {
        shape := if tables.ServerSide? then BitCount(convShareRcvCtr) else WordCount(2 * convShareRcvCtr);
      }
    }

    /** What has arrived is stored in the buffer that was waiting for it. */
    method Receive(p: Payload)
      modifies this`rcvBits, this`rcvWords
      ensures rcvBits == (if p.Bits? then p.bits else old(rcvBits)) && rcvWords == if p.Words? then p.words else old(rcvWords)
    {
      match p
      case Nothing =>
      case Bits(b) => rcvBits := b;
      case Words(w) => rcvWords := w;
    }

    /** AssignConversionShares at the server: the first round of this layer has arrived, its second round is prepared. */
    method AssignServer()
      requires tables.ServerSide? && convShareRcvCtr == |Cells(convGates)|
      requires convShareRcvCtr > 0 ==> LayerOk(convGates) && Ids(convGates) !! aval.Keys && |rcvBits| >= |Cells(convGates)|
      requires convShareRcvCtr == 0 ==> convGates == []
      requires ServerReach(tables.server, convShareIdx + |Cells(convGates)|)
      modifies this`convShareSndCtr, this`convShareRcvCtr, this`convShareIdx, this`convGates, this`sndWords, this`aval
      ensures convShareSndCtr == old(|Cells(convGates)|) && convShareRcvCtr == 0 && convGates == []
      ensures convShareIdx == old(convShareIdx + |Cells(convGates)|)
      ensures Kept(old(aval), aval) && aval.Keys == old(aval.Keys + Ids(convGates))
      ensures AllSummed(old(convGates), aval, ServerWords(tables.server, |Cells(old(convGates))|, old(convShareIdx)),
                        Pow2(tables.server.l), |old(convGates)|)
      ensures convShareSndCtr > 0 ==> |sndWords| == 2 * convShareSndCtr
      ensures Sent(tables.server, Cells(old(convGates)), rcvBits, old(convShareIdx), sndWords, |Cells(old(convGates))|)
    {
      convShareSndCtr := 0;
      if convShareRcvCtr > 0 {
        convShareSndCtr := convShareRcvCtr;
        convShareRcvCtr := 0;
        sndWords, aval := ServerGates(tables.server, convGates, rcvBits, convShareIdx, aval);
        convShareIdx := convShareIdx + convShareSndCtr;
        convGates := [];
      }
    }

    /** AssignConversionShares at the client: the second round of the layer before has arrived, this layer's gates are put aside. */
    method AssignClient()
      requires tables.ClientSide? && convShareSndCtr == |Cells(convGates)|
      requires convShareRcvCtr > 0 ==>
                 && LayerOk(convGates2) && Ids(convGates2) !! aval.Keys && |rcvWords| >= 2 * |Cells(convGates2)|
                 && convShareIdx2 + |Cells(convGates2)| <= |tables.client.mask|
      requires convShareSndCtr == 0 ==> convGates == []
      modifies this`convShareSndCtr, this`convShareRcvCtr, this`convShareIdx, this`convShareIdx2, this`convGates, this`convGates2, this`aval
      ensures convShareSndCtr == 0 && convShareRcvCtr == old(|Cells(convGates)|) && convGates == []
      ensures convShareIdx == old(convShareIdx + |Cells(convGates)|)
      ensures convShareRcvCtr > 0 ==> convGates2 == old(convGates) && convShareIdx2 == old(convShareIdx)
      ensures if old(convShareRcvCtr) == 0 then aval == old(aval)
              else
                && Kept(old(aval), aval) && aval.Keys == old(aval.Keys + Ids(convGates2))
                && AllSummed(old(convGates2), aval, ClientWords(tables.client, Cells(old(convGates2)), old(rcvWords), old(convShareIdx2)),
                             Pow2(tables.client.l), |old(convGates2)|)
    {
      if convShareRcvCtr > 0 {
        convShareRcvCtr := 0;
        aval := ClientGates(tables.client, convGates2, rcvWords, convShareIdx2, aval);
        convGates2 := [];
      }
      if convShareSndCtr > 0 {
        convShareIdx2 := convShareIdx;
        convShareIdx := convShareIdx + convShareSndCtr;
        convGates2 := convGates;
        convGates := [];
        convShareRcvCtr := convShareSndCtr;
        convShareSndCtr := 0;
      }
    }
  }
}
