/** OP-LUT: tables that are rotated and masked in the setup phase, and looked up with one opening per value. */
module OpLut {
  import opened Bits
  import opened Words
  import opened LutCircuit
  import opened LutSpec
  import opened LutTables
  import opened LutMessage
  import opened LutLayer
  import opened LutSizes
  import C = Circuit

  // ----- the order of the tables ----------------------------------------------------------

  /** Values of a class on the layers before d. */
  function Before(gs: seq<Gate>, c: Class, d: nat): nat {
    if d == 0 then 0 else Before(gs, c, d - 1) + LayerTakes(gs, Transfers(c), d - 1)
  }

  /** The tables of a class on a layer, a copy for every value. */
  function LayerTables(gs: seq<Gate>, c: Class, d: nat): (t: seq<Table>)
    ensures |t| == LayerTakes(gs, Transfers(c), d)
  {
    Strung(gs, Transfers(c), TableItems(gs), Layer(gs, d), |Layer(gs, d)|)
  }

  /** The tables of a class regrouped by layers. */
  function AllTables(gs: seq<Gate>, c: Class, d: nat): (t: seq<Table>)
    ensures |t| == Before(gs, c, d)
  {
    if d == 0 then [] else AllTables(gs, c, d - 1) + LayerTables(gs, c, d - 1)
  }

  /** The place of value n of gate g among all values of its class, in the order of evaluation. */
  function PlaceOf(gs: seq<Gate>, c: Class, g: nat, n: nat): nat
    requires g < |gs|
  {
    Before(gs, c, gs[g].depth) + Offset(gs, Transfers(c), g) + n
  }

  lemma {:induction false} BeforeMonotone(gs: seq<Gate>, c: Class, d: nat, e: nat)
    requires d < e
    ensures Before(gs, c, d) + LayerTakes(gs, Transfers(c), d) <= Before(gs, c, e)
  {
    if d + 1 < e {
      BeforeMonotone(gs, c, d, e - 1);
    }
  }

  /** Table k of layer d, among those of all layers. */
  lemma {:induction false} LayerTable(gs: seq<Gate>, c: Class, d: nat, e: nat, k: nat)
    requires d < e && k < LayerTakes(gs, Transfers(c), d)
    ensures Before(gs, c, d) + k < Before(gs, c, e)
    ensures AllTables(gs, c, e)[Before(gs, c, d) + k] == LayerTables(gs, c, d)[k]
  {
    if d + 1 < e {
      LayerTable(gs, c, d, e - 1, k);
    }
    OneLayerMore(gs, c, e, Before(gs, c, d) + k);
  }

  lemma OneLayerMore(gs: seq<Gate>, c: Class, e: nat, x: nat)
    requires 0 < e && x < Before(gs, c, e - 1) + LayerTakes(gs, Transfers(c), e - 1)
    ensures Before(gs, c, e) == Before(gs, c, e - 1) + LayerTakes(gs, Transfers(c), e - 1)
    ensures AllTables(gs, c, e)[x] ==
            if x < Before(gs, c, e - 1) then AllTables(gs, c, e - 1)[x] else LayerTables(gs, c, e - 1)[x - Before(gs, c, e - 1)]
  {
  }

  /** Although gates are built in any order of layers, the k-th table is the one of the k-th value that is opened. */
  lemma TableAligned(gs: seq<Gate>, c: Class, d: nat, i: nat, n: nat, layers: nat)
    requires i < |Layer(gs, d)| && d < layers && InClass(gs, c, Layer(gs, d)[i]) && n < Vals(gs, Layer(gs, d)[i])
    ensures var g := Layer(gs, d)[i];
            && PlaceOf(gs, c, g, n) == Before(gs, c, d) + Taken(gs, Transfers(c), Layer(gs, d), i) + n < Before(gs, c, layers)
            && AllTables(gs, c, layers)[PlaceOf(gs, c, g, n)] == gs[g].op.table
  {
    OffsetInLayer(gs, Transfers(c), d, i);
    var k := GateTable(gs, c, d, i, n);
    LayerTable(gs, c, d, layers, k);
  }

  lemma GateTable(gs: seq<Gate>, c: Class, d: nat, i: nat, n: nat) returns (k: nat)
    requires i < |Layer(gs, d)| && InClass(gs, c, Layer(gs, d)[i]) && n < Vals(gs, Layer(gs, d)[i])
    ensures k == Taken(gs, Transfers(c), Layer(gs, d), i) + n < LayerTakes(gs, Transfers(c), d)
    ensures LayerTables(gs, c, d)[k] == gs[Layer(gs, d)[i]].op.table
  {
    var q := Layer(gs, d);
    k := Taken(gs, Transfers(c), q, i) + n;
    var s, at := Strung(gs, Transfers(c), TableItems(gs), q, |q|), Taken(gs, Transfers(c), q, i);
    StrungSlice(gs, Transfers(c), TableItems(gs), q, i, |q|);
    assert s[at + n] == s[at..at + Vals(gs, q[i])][n] == Block(gs, Transfers(c), TableItems(gs), q[i])[n];
  }

  /** PrepareSetupPhaseOPLUT: the tables that were saved for an entry, layer after layer. */
  method CombineTables(rows: seq<SizeRow>, i: nat, j: nat, ghost gs: seq<Gate>, ghost c: Class) returns (tables: seq<Table>)
    requires Exact(gs, rows, |gs|) && i < |rows[0]| && j < |rows[0][i]| && ClassHas(rows[0][i][j], c)
    ensures tables == AllTables(gs, c, |rows|)
  {
    tables := [];
    for d := 0 to |rows|
      invariant tables == AllTables(gs, c, d)
    {
      assert Alike(rows[d], rows[0]) && RowExact(gs, rows[d], d, |gs|);
      assert SameKey(rows[d][i][j], rows[0][i][j]) && EntryExact(gs, rows[d][i][j], d, |gs|);
      SavedStrung(gs, c, d, |gs|);
      tables := tables + rows[d][i][j].tables;
    }
  }

  // ----- rotated tables -------------------------------------------------------------------

  predicate TableShaped(t: Table, c: Class) {
    Shape(t, c.ins, c.outs)
  }

  /** A table, rotated by r ^ s and masked: what the server offers for choice s. */
  function Rotated(table: Table, mask: Entries, r: nat, s: nat, c: Class): (e: Entries)
    requires TableShaped(table, c) && TableShaped(mask, c)
    ensures |e| == Pow2(c.ins) && forall n | 0 <= n < |e| :: e[n] == XorBits(table[XorWord(XorWord(r, s, c.ins), n, c.ins)], mask[n])
  {
    seq(Pow2(c.ins), n requires 0 <= n < Pow2(c.ins) => XorBits(table[XorWord(XorWord(r, s, c.ins), n, c.ins)], mask[n]))
  }

  lemma {:induction false} XorFour(r: nat, s: nat, x: nat, y: nat, l: nat)
    ensures XorWord(XorWord(r, s, l), XorWord(XorWord(x, r, l), XorWord(y, s, l), l), l) == XorWord(x, y, l)
  {
    if l > 0 {
      XorFour(r / 2, s / 2, x / 2, y / 2, l - 1);
      XorHalves(r, s, l);
      XorHalves(x, r, l);
      XorHalves(y, s, l);
      XorHalves(XorWord(x, r, l), XorWord(y, s, l), l);
    }
  }

  lemma XorHalves(a: nat, b: nat, l: nat)
    requires l > 0
    ensures XorWord(a, b, l) / 2 == XorWord(a / 2, b / 2, l - 1) && XorWord(a, b, l) % 2 == Bit(a % 2 != b % 2)
  {
  }

  /** Where the opening points to, the client's entry is the table entry at the index, under the server's mask. */
  lemma RotatedEntry(table: Table, mask: Entries, r: nat, s: nat, x: nat, y: nat, c: Class)
    requires TableShaped(table, c) && TableShaped(mask, c)
    ensures var u := XorWord(XorWord(x, r, c.ins), XorWord(y, s, c.ins), c.ins);
            Rotated(table, mask, r, s, c)[u] == XorBits(table[XorWord(x, y, c.ins)], mask[u])
  {
    XorFour(r, s, x, y, c.ins);
  }

  // ----- what the parties open and obtain -------------------------------------------------

  /** One class of tables: the operands are shared as in w, rot are the rotations of both parties, mask the server's masks. */
  datatype Lookup = Lookup(w: World, c: Class, rot: (Role, nat) -> nat, mask: nat -> Entries)

  ghost predicate Good(u: Lookup) {
    && WellFormed(u.w.gs) && (forall g {:trigger u.w.gs[g]} | 0 <= g < |u.w.gs| :: u.w.gs[g].depth < u.w.layers)
    && (forall r, m {:trigger u.rot(r, m)} :: u.rot(r, m) < Pow2(u.c.ins)) && (forall m {:trigger u.mask(m)} :: TableShaped(u.mask(m), u.c))
  }

  /** A gate of the class. */
  ghost predicate Looks(u: Lookup, g: nat) {
    g < |u.w.gs| && InClass(u.w.gs, u.c, g) && TableOk(u.w.gs, g) && Vals(u.w.gs, g) > 0
  }

  lemma ClassGate(u: Lookup, g: nat)
    requires Good(u) && g < |u.w.gs| && InClass(u.w.gs, u.c, g)
    ensures Looks(u, g) && TableShaped(u.w.gs[g].op.table, u.c)
  {
    assert GateOk(u.w.gs, g) && OperandOk(u.w.gs, g, Parents(u.w.gs[g].op)[0]) && GateOk(u.w.gs, u.w.gs[g].op.inputs[0]);
  }

  function Opening(u: Lookup, r: Role, g: nat, n: nat): nat
    requires g < |u.w.gs| && u.w.gs[g].op.Table?
  {
    XorWord(Index(u.w, r, g, n), u.rot(r, PlaceOf(u.w.gs, u.c, g, n)), u.c.ins)
  }

  function Openings(u: Lookup, r: Role): (nat, nat) -> nat {
    (g: nat, n: nat) => if g < |u.w.gs| && u.w.gs[g].op.Table? then Opening(u, r, g, n) else 0
  }

  /** Both openings together. */
  function Target(u: Lookup, g: nat, n: nat): (x: nat)
    requires g < |u.w.gs| && u.w.gs[g].op.Table?
    ensures x < Pow2(u.c.ins)
  {
    XorWord(Opening(u, C.SERVER, g, n), Opening(u, C.CLIENT, g, n), u.c.ins)
  }

  /** The entries a party holds for a place: the masks, or the table under masks and rotations. */
  function HeldEntries(u: Lookup, r: Role, table: Table, m: nat): (e: Entries)
    requires TableShaped(table, u.c) && TableShaped(u.mask(m), u.c)
    ensures |e| == Pow2(u.c.ins)
  {
    if r.SERVER? then u.mask(m) else Rotated(table, u.mask(m), u.rot(C.SERVER, m), u.rot(C.CLIENT, m), u.c)
  }

  /** Bit t of what the party obtains. */
  predicate Obtained(u: Lookup, r: Role, g: nat, t: nat)
    requires g < |u.w.gs| && u.w.gs[g].op.Table? && Vals(u.w.gs, g) > 0
  {
    var n, o := Col(t, Vals(u.w.gs, g)), Row(t, Vals(u.w.gs, g));
    var m := PlaceOf(u.w.gs, u.c, g, n);
    TableShaped(u.w.gs[g].op.table, u.c) && TableShaped(u.mask(m), u.c) && TableBit(HeldEntries(u, r, u.w.gs[g].op.table, m), Target(u, g, n), o)
  }

  /** The bits to which both shares of the operands add up. */
  function JointBits(w: World, g: nat, n: nat): (s: seq<bool>)
    requires g < |w.gs| && w.gs[g].op.Table?
    ensures |s| == |w.gs[g].op.inputs|
    ensures forall j | 0 <= j < |s| :: s[j] == (w.share(C.SERVER, w.gs[g].op.inputs[j], n) != w.share(C.CLIENT, w.gs[g].op.inputs[j], n))
  {
    var ins := w.gs[g].op.inputs;
    seq(|ins|, j requires 0 <= j < |ins| => w.share(C.SERVER, ins[j], n) != w.share(C.CLIENT, ins[j], n))
  }

  function JointIndex(w: World, g: nat, n: nat): nat
    requires g < |w.gs| && w.gs[g].op.Table?
  {
    Num(JointBits(w, g, n))
  }

  /** What the parties obtain adds up to the table entry at the joint index. */
  lemma LookupXor(u: Lookup, g: nat, t: nat, o: nat, n: nat)
    requires Good(u) && Looks(u, g) && t < u.w.gs[g].nvals && o == Row(t, Vals(u.w.gs, g)) && n == Col(t, Vals(u.w.gs, g))
    ensures (Obtained(u, C.SERVER, g, t) != Obtained(u, C.CLIENT, g, t)) == TableBit(u.w.gs[g].op.table, JointIndex(u.w, g, n), o)
  {
    ClassGate(u, g);
    var ins := u.w.gs[g].op.inputs;
    var m := PlaceOf(u.w.gs, u.c, g, n);
    RowBound(t, Vals(u.w.gs, g), u.c.outs);
    RotatedEntry(u.w.gs[g].op.table, u.mask(m), u.rot(C.SERVER, m), u.rot(C.CLIENT, m), Index(u.w, C.SERVER, g, n), Index(u.w, C.CLIENT, g, n), u.c);
    XorOfNums(seq(|ins|, j requires 0 <= j < |ins| => u.w.share(C.SERVER, ins[j], n)),
              seq(|ins|, j requires 0 <= j < |ins| => u.w.share(C.CLIENT, ins[j], n)),
              JointBits(u.w, g, n));
  }

  /** What party r holds for place m. */
  ghost predicate EntriesOf(u: Lookup, r: Role, m: nat, e: Entries) {
    var tables := AllTables(u.w.gs, u.c, u.w.layers);
    m < |tables| && TableShaped(tables[m], u.c) && TableShaped(u.mask(m), u.c) && e == HeldEntries(u, r, tables[m], m)
  }

  /** Value n of a gate is opened, and its table comes next. */
  /** Either party adds the two openings in its own order. */
  lemma BothOpenings(u: Lookup, r: Role, g: nat, n: nat)
    requires g < |u.w.gs| && u.w.gs[g].op.Table?
    ensures XorWord(Opening(u, r, g, n), Opening(u, r.Other(), g, n), u.c.ins) == Target(u, g, n)
  {
    XorSymmetric(Opening(u, C.SERVER, g, n), Opening(u, C.CLIENT, g, n), u.c.ins);
  }

  ghost predicate ValueReady(u: Lookup, g: nat, n: nat, targets: seq<nat>, from: nat, at: nat) {
    && Looks(u, g) && from + n < |targets| && targets[from + n] == Target(u, g, n)
    && PlaceOf(u.w.gs, u.c, g, n) == at + n < Before(u.w.gs, u.c, u.w.layers)
    && AllTables(u.w.gs, u.c, u.w.layers)[at + n] == u.w.gs[g].op.table
  }

  // ----- one party's side of the class ----------------------------------------------------

  class OpLutParty {
    const role: Role
    const gates: seq<Gate>
    const c: Class
    const rotVal: seq<nat>
    const tableMask: seq<Entries>

    var selOpeningCtr: nat
    var maskCtr: nat
    var snd: seq<nat>
    var rec: seq<nat>
    var lutGates: seq<nat>

    ghost const u: Lookup

    constructor (r: Role, circuit: seq<Gate>, class_: Class, rotations: seq<nat>, entries: seq<Entries>, ghost lookup: Lookup)
      requires Good(lookup) && lookup.w.gs == circuit && lookup.c == class_
      requires |rotations| == |entries| == Before(circuit, class_, lookup.w.layers)
      requires forall m | 0 <= m < |rotations| :: rotations[m] == lookup.rot(r, m)
      requires forall m | 0 <= m < |entries| :: EntriesOf(lookup, r, m, entries[m])
      ensures Setup() && OpenAt(0, 0) && role == r && u == lookup
    {
      role, gates, c, rotVal, tableMask, u := r, circuit, class_, rotations, entries, lookup;
      selOpeningCtr, maskCtr, snd, rec, lutGates := 0, 0, [], [], [];
    }

    /** Rotations and entries are in the order of evaluation. */
    ghost predicate Setup() {
      && Good(u) && u.w.gs == gates && u.c == c && |rotVal| == |tableMask| == Before(gates, c, u.w.layers)
      && (forall m | 0 <= m < |rotVal| :: rotVal[m] == u.rot(role, m))
      && (forall m | 0 <= m < |tableMask| :: EntriesOf(u, role, m, tableMask[m]))
    }

    /** The first i interactive gates of layer d, as far as they belong to the class, are opened. */
    ghost predicate OpenAt(d: nat, i: nat)
      reads this
    {
      && i <= |Layer(u.w.gs, d)| && maskCtr == Before(u.w.gs, u.c, d)
      && selOpeningCtr == Before(u.w.gs, u.c, d) + Taken(u.w.gs, Transfers(u.c), Layer(u.w.gs, d), i)
      && snd == Strung(u.w.gs, Transfers(u.c), Openings(u, role), Layer(u.w.gs, d), i)
      && lutGates == Takers(u.w.gs, Transfers(u.c), Layer(u.w.gs, d), i)
    }

    /** SelectiveOpenOPLUT: the shares of the index, masked with the rotations that come next. */
    method SelectiveOpenOPLUT(val: map<nat, seq<bool>>, gateid: nat, ghost d: nat, ghost i: nat)
      requires Setup() && OpenAt(d, i) && i < |Layer(gates, d)| && gateid == Layer(gates, d)[i] && d < u.w.layers
      requires InClass(gates, c, gateid) && OperandsHeld(u.w, role, val, gateid)
      modifies this`selOpeningCtr, this`snd, this`lutGates
      ensures OpenAt(d, i + 1)
    {
      ClassGate(u, gateid);
      var input := gates[gateid].op.inputs;
      assert Parents(gates[gateid].op)[0] == input[0];
      var nvals := gates[input[0]].nvals;
      var openings := Open(val, gateid, input, nvals, d, i);
      assert openings == Block(u.w.gs, Transfers(u.c), Openings(u, role), gateid);
      selOpeningCtr, snd, lutGates := selOpeningCtr + nvals, snd + openings, lutGates + [gateid];
    }

    method Open(val: map<nat, seq<bool>>, gateid: nat, input: seq<nat>, nvals: nat, ghost d: nat, ghost i: nat) returns (openings: seq<nat>)
      requires Setup() && OpenAt(d, i) && i < |Layer(gates, d)| && gateid == Layer(gates, d)[i] && d < u.w.layers
      requires Looks(u, gateid) && OperandsHeld(u.w, role, val, gateid) && input == gates[gateid].op.inputs && nvals == Vals(gates, gateid)
      ensures |openings| == nvals && forall n | 0 <= n < nvals :: openings[n] == Opening(u, role, gateid, n)
    {
      openings := [];
      for n := 0 to nvals
        invariant |openings| == n && forall k | 0 <= k < n :: openings[k] == Opening(u, role, gateid, k)
      {
        TableAligned(gates, c, d, i, n, u.w.layers);
        var x := GatherIndex(val, input, n, u.w, role, gateid);
        openings := openings + [XorWord(x, rotVal[selOpeningCtr + n], c.ins)];
      }
    }

    /** Other gates of the layer are passed over. */
    method OpenLayer(val: map<nat, seq<bool>>, interactiveops: seq<nat>, ghost d: nat)
      requires Setup() && OpenAt(d, 0) && interactiveops == Layer(gates, d) && d < u.w.layers
      requires forall i {:trigger Layer(gates, d)[i]} | 0 <= i < |Layer(gates, d)| && InClass(gates, c, Layer(gates, d)[i]) ::
                 OperandsHeld(u.w, role, val, Layer(gates, d)[i])
      modifies this`selOpeningCtr, this`snd, this`lutGates
      ensures OpenAt(d, |Layer(gates, d)|)
    {
      for i := 0 to |interactiveops|
        invariant OpenAt(d, i)
      {
        var op := gates[interactiveops[i]].op;
        if op.Table? && Class(|op.inputs|, op.outs) == c {
          assert Layer(gates, d)[i] == interactiveops[i];
          SelectiveOpenOPLUT(val, interactiveops[i], d, i);
        } else {
          NothingTaken(u.w.gs, Transfers(u.c), Openings(u, role), interactiveops[i]);
        }
      }
    }

    /** The bits of a gate, from the entries at the opened positions. */
    method Look(gateid: nat, targets: seq<nat>, from: nat, at: nat, nvals: nat) returns (v: seq<bool>)
      requires Setup() && Looks(u, gateid) && nvals == Vals(gates, gateid)
      requires forall n {:trigger ValueReady(u, gateid, n, targets, from, at)} | 0 <= n < nvals :: ValueReady(u, gateid, n, targets, from, at)
      ensures ResultOf(u, role, gateid, v)
    {
      v := seq(gates[gateid].nvals, t => false);
      for n := 0 to nvals
        invariant |v| == gates[gateid].nvals && forall t | 0 <= t < |v| :: v[t] == (Col(t, nvals) < n && Obtained(u, role, gateid, t))
      {
        assert ValueReady(u, gateid, n, targets, from, at);
        var word := EntryAt(gateid, n, targets, from, at);
        v := AddWord(v, word, n, nvals, gateid);
      }
    }

    method EntryAt(gateid: nat, n: nat, targets: seq<nat>, from: nat, at: nat) returns (word: Word)
      requires Setup() && Looks(u, gateid) && n < Vals(gates, gateid) && ValueReady(u, gateid, n, targets, from, at)
      ensures |word| == u.c.outs
      ensures forall t: nat | Col(t, Vals(gates, gateid)) == n && Row(t, Vals(gates, gateid)) < |word| ::
                word[Row(t, Vals(gates, gateid))] == Obtained(u, role, gateid, t)
    {
      assert EntriesOf(u, role, at + n, tableMask[at + n]);
      word := tableMask[at + n][targets[from + n]];
    }

    method AddWord(v: seq<bool>, word: Word, n: nat, nvals: nat, ghost g: nat) returns (next: seq<bool>)
      requires Looks(u, g) && n < nvals == Vals(u.w.gs, g) && |word| == u.c.outs && |v| == u.w.gs[g].nvals
      requires forall t | 0 <= t < |v| :: v[t] == (Col(t, nvals) < n && Obtained(u, role, g, t))
      requires forall t: nat | Col(t, nvals) == n && Row(t, nvals) < |word| :: word[Row(t, nvals)] == Obtained(u, role, g, t)
      ensures |next| == |v| && forall t | 0 <= t < |v| :: next[t] == (Col(t, nvals) < n + 1 && Obtained(u, role, g, t))
    {
      next := PutWord(v, word, n, nvals);
      forall t | 0 <= t < |v|
        ensures next[t] == (Col(t, nvals) < n + 1 && Obtained(u, role, g, t))
      {
        RowBound(t, nvals, |word|);
      }
    }

    /** Both openings of the layer, added in place. */
    method CombineOpenings(ghost d: nat) returns (targets: seq<nat>)
      requires Setup() && OpenAt(d, |Layer(gates, d)|)
      requires rec == Strung(gates, Transfers(c), Openings(u, role.Other()), Layer(gates, d), |Layer(gates, d)|)
      ensures |targets| == |snd| && forall x | 0 <= x < |targets| :: targets[x] == XorWord(snd[x], rec[x], c.ins)
    {
      targets := [];
      for x := 0 to |snd|
        invariant |targets| == x && forall k | 0 <= k < x :: targets[k] == XorWord(snd[k], rec[k], c.ins)
      {
        targets := targets + [XorWord(snd[x], rec[x], c.ins)];
      }
    }

    /** What the party has obtained for the first m gates of the layer. */
    ghost predicate LookedUp(results: map<nat, seq<bool>>, d: nat, m: nat) {
      var list := TakersOf(u.w.gs, Transfers(u.c), d);
      m <= |list| && forall i {:trigger list[i]} | 0 <= i < m :: list[i] in results && ResultOf(u, role, list[i], results[list[i]])
    }

    /** EvaluateOPLUTGates: all gates of the layer, the next entries for every value. */
    method EvaluateOPLUTGates(ghost d: nat) returns (results: map<nat, seq<bool>>)
      requires Setup() && OpenAt(d, |Layer(gates, d)|) && d < u.w.layers
      requires rec == Strung(gates, Transfers(c), Openings(u, role.Other()), Layer(gates, d), |Layer(gates, d)|)
      modifies this`maskCtr
      ensures LookedUp(results, d, |TakersOf(u.w.gs, Transfers(u.c), d)|) && maskCtr == Before(u.w.gs, u.c, d + 1)
    {
      var targets := CombineOpenings(d);
      results := map[];
      var gatectr := 0;
      ghost var list := TakersOf(u.w.gs, Transfers(u.c), d);
      for i := 0 to |lutGates|
        invariant LookedUp(results, d, i) && gatectr == Taken(u.w.gs, Transfers(u.c), list, i) && maskCtr == Before(u.w.gs, u.c, d) + gatectr
      {
        var nvals, v := LookNext(lutGates[i], targets, gatectr, d, i);
        LookedUpNext(results, v, d, i);
        results := results[lutGates[i] := v];
        gatectr, maskCtr := gatectr + nvals, maskCtr + nvals;
      }
      TakersTaken(u.w.gs, Transfers(u.c), Layer(u.w.gs, d), |Layer(u.w.gs, d)|);
    }

    lemma LookedUpNext(results: map<nat, seq<bool>>, v: seq<bool>, d: nat, i: nat)
      requires LookedUp(results, d, i) && i < |TakersOf(u.w.gs, Transfers(u.c), d)| && ResultOf(u, role, TakersOf(u.w.gs, Transfers(u.c), d)[i], v)
      ensures LookedUp(results[TakersOf(u.w.gs, Transfers(u.c), d)[i] := v], d, i + 1)
    {
    }

    method LookNext(gateid: nat, targets: seq<nat>, from: nat, ghost d: nat, ghost i: nat) returns (nvals: nat, v: seq<bool>)
      requires Setup() && d < u.w.layers && i < |TakersOf(u.w.gs, Transfers(u.c), d)| && gateid == TakersOf(u.w.gs, Transfers(u.c), d)[i]
      requires snd == Strung(gates, Transfers(c), Openings(u, role), Layer(gates, d), |Layer(gates, d)|)
      requires rec == Strung(gates, Transfers(c), Openings(u, role.Other()), Layer(gates, d), |Layer(gates, d)|)
      requires |targets| == |snd| && forall x | 0 <= x < |targets| :: targets[x] == XorWord(snd[x], rec[x], c.ins)
      requires from == Taken(u.w.gs, Transfers(u.c), TakersOf(u.w.gs, Transfers(u.c), d), i) && maskCtr == Before(u.w.gs, u.c, d) + from
      ensures gateid < |gates| && nvals == Amount(gates, Transfers(c), gateid) && ResultOf(u, role, gateid, v)
    {
      TargetsFound(gateid, targets, from, d, i);
      ClassGate(u, gateid);
      assert Parents(gates[gateid].op)[0] == gates[gateid].op.inputs[0];
      nvals := gates[gates[gateid].op.inputs[0]].nvals;
      v := Look(gateid, targets, from, maskCtr, nvals);
    }

    /** The openings of a gate, and the entries for them. */
    lemma TargetsFound(g: nat, targets: seq<nat>, from: nat, d: nat, i: nat)
      requires Setup() && d < u.w.layers && i < |TakersOf(u.w.gs, Transfers(u.c), d)| && g == TakersOf(u.w.gs, Transfers(u.c), d)[i]
      requires snd == Strung(gates, Transfers(c), Openings(u, role), Layer(gates, d), |Layer(gates, d)|)
      requires rec == Strung(gates, Transfers(c), Openings(u, role.Other()), Layer(gates, d), |Layer(gates, d)|)
      requires |targets| == |snd| && forall x | 0 <= x < |targets| :: targets[x] == XorWord(snd[x], rec[x], c.ins)
      requires from == Taken(u.w.gs, Transfers(u.c), TakersOf(u.w.gs, Transfers(u.c), d), i) && maskCtr == Before(u.w.gs, u.c, d) + from
      ensures Looks(u, g) && forall n: nat | n < Vals(gates, g) :: ValueReady(u, g, n, targets, from, maskCtr)
    {
      var j := FoundOpenings(role, snd, d, i, g, from);
      var k := FoundOpenings(role.Other(), rec, d, i, g, from);
      forall n: nat | n < Vals(gates, g)
        ensures ValueReady(u, g, n, targets, from, maskCtr)
      {
        BothOpenings(u, role, g, n);
        ValueFound(d, j, g, n, targets, from, maskCtr);
      }
    }

    lemma ValueFound(d: nat, j: nat, g: nat, n: nat, targets: seq<nat>, from: nat, at: nat)
      requires Looks(u, g) && n < Vals(u.w.gs, g) && d < u.w.layers && j < |Layer(u.w.gs, d)| && g == Layer(u.w.gs, d)[j]
      requires from + n < |targets| && targets[from + n] == Target(u, g, n)
      requires at == Before(u.w.gs, u.c, d) + Taken(u.w.gs, Transfers(u.c), Layer(u.w.gs, d), j)
      ensures ValueReady(u, g, n, targets, from, at)
    {
      TableAligned(u.w.gs, u.c, d, j, n, u.w.layers);
    }

    lemma FoundOpenings(r: Role, buffer: seq<nat>, d: nat, i: nat, g: nat, from: nat) returns (j: nat)
      requires Good(u) && i < |TakersOf(u.w.gs, Transfers(u.c), d)| && g == TakersOf(u.w.gs, Transfers(u.c), d)[i]
      requires buffer == Strung(u.w.gs, Transfers(u.c), Openings(u, r), Layer(u.w.gs, d), |Layer(u.w.gs, d)|)
      requires from == Taken(u.w.gs, Transfers(u.c), TakersOf(u.w.gs, Transfers(u.c), d), i)
      ensures j < |Layer(u.w.gs, d)| && g == Layer(u.w.gs, d)[j] && Looks(u, g) && u.w.gs[g].depth == d && from == Offset(u.w.gs, Transfers(u.c), g)
      ensures from == Taken(u.w.gs, Transfers(u.c), Layer(u.w.gs, d), j)
      ensures from + Vals(u.w.gs, g) <= |buffer| && forall n: nat | n < Vals(u.w.gs, g) :: buffer[from + n] == Opening(u, r, g, n)
    {
      j := ShareFound(u.w, Transfers(u.c), Openings(u, r), buffer, d, i, from);
      ClassGate(u, g);
      OffsetInLayer(u.w.gs, Transfers(u.c), d, j);
      forall n: nat | n < Vals(u.w.gs, g)
        ensures buffer[from + n] == Opening(u, r, g, n)
      {
        assert buffer[from + n] == buffer[from..from + Vals(u.w.gs, g)][n] == Block(u.w.gs, Transfers(u.c), Openings(u, r), g)[n];
      }
    }

    /** InitNewLayer, as far as tables are concerned. */
    method InitNewLayer(ghost d: nat)
      requires maskCtr == Before(u.w.gs, u.c, d + 1) && selOpeningCtr == Before(u.w.gs, u.c, d + 1)
      modifies this`snd, this`lutGates
      ensures OpenAt(d + 1, 0)
    {
      snd, lutGates := [], [];
    }
  }

  /** The party's share of a looked-up value. */
  ghost predicate ResultOf(u: Lookup, r: Role, g: nat, v: seq<bool>) {
    Looks(u, g) && |v| == u.w.gs[g].nvals && forall t | 0 <= t < |v| :: v[t] == Obtained(u, r, g, t)
  }

  // ----- the setup phase ------------------------------------------------------------------

  lemma {:induction false} StrungShaped(u: Lookup, q: seq<nat>, i: nat)
    requires Good(u) && Ids(u.w.gs, q) && i <= |q|
    ensures forall k | 0 <= k < Taken(u.w.gs, Transfers(u.c), q, i) :: TableShaped(Strung(u.w.gs, Transfers(u.c), TableItems(u.w.gs), q, i)[k], u.c)
  {
    if i > 0 {
      StrungShaped(u, q, i - 1);
      if InClass(u.w.gs, u.c, q[i - 1]) {
        ClassGate(u, q[i - 1]);
      }
    }
  }

  lemma {:induction false} TablesShaped(u: Lookup, d: nat)
    requires Good(u)
    ensures forall m | 0 <= m < Before(u.w.gs, u.c, d) :: TableShaped(AllTables(u.w.gs, u.c, d)[m], u.c)
  {
    if d > 0 {
      TablesShaped(u, d - 1);
      StrungShaped(u, Layer(u.w.gs, d - 1), |Layer(u.w.gs, d - 1)|);
    }
  }

  ghost predicate TablesBelow(gs: seq<Gate>, d: nat) {
    forall g | 0 <= g < |gs| && gs[g].op.Table? :: gs[g].depth < d
  }

  lemma NoTables(gs: seq<Gate>, c: Class, d: nat, e: nat)
    requires d < e && TablesBelow(gs, d)
    ensures AllTables(gs, c, e) == AllTables(gs, c, e - 1)
  {
    LayerEmpty(gs, c, e - 1);
  }

  /** Layers without tables add nothing. */
  lemma {:induction false} TablesStill(gs: seq<Gate>, c: Class, d: nat, e: nat)
    requires d <= e && TablesBelow(gs, d)
    ensures AllTables(gs, c, e) == AllTables(gs, c, d)
  {
    if d < e {
      TablesStill(gs, c, d, e - 1);
      NoTables(gs, c, d, e);
    }
  }

  /** The tables that were saved while the circuit was built, in any order of layers, are those of the evaluation. */
  lemma AllCombined(gs: seq<Gate>, rows: seq<SizeRow>, c: Class, layers: nat)
    requires Exact(gs, rows, |gs|) && forall g | 0 <= g < |gs| :: gs[g].depth < layers
    ensures AllTables(gs, c, |rows|) == AllTables(gs, c, layers)
  {
    forall g | 0 <= g < |gs| && gs[g].op.Table?
      ensures gs[g].depth < |rows|
    {
      assert GateListed(gs, rows, g);
    }
    if |rows| <= layers {
      TablesStill(gs, c, |rows|, layers);
    } else {
      TablesStill(gs, c, layers, |rows|);
    }
  }

  /** PrepareSetupPhaseOPLUT for an entry of the table of sizes. */
  method PrepareSetupPhaseOPLUT(gates: seq<Gate>, rows: seq<SizeRow>, i: nat, j: nat, c: Class, serverRot: seq<nat>, clientRot: seq<nat>,
                                masks: seq<Entries>, ghost u: Lookup)
    returns (server: OpLutParty, client: OpLutParty)
    requires Good(u) && u.w.gs == gates && u.c == c && Exact(gates, rows, |gates|)
    requires i < |rows[0]| && j < |rows[0][i]| && ClassHas(rows[0][i][j], c)
    requires |serverRot| == |clientRot| == |masks| == Before(gates, c, u.w.layers)
    requires forall m | 0 <= m < |masks| :: serverRot[m] == u.rot(C.SERVER, m) && clientRot[m] == u.rot(C.CLIENT, m) && masks[m] == u.mask(m)
    ensures fresh(server) && fresh(client) && Partners(server, client) && server.u == u && server.OpenAt(0, 0) && client.OpenAt(0, 0)
  {
    var tables := CombineTables(rows, i, j, gates, c);
    AllCombined(gates, rows, c, u.w.layers);
    server, client := Prepare(gates, c, tables, serverRot, clientRot, masks, u);
  }

  /** The server rotates and masks every table for every choice; by the transfers the client has the one for its rotation. */
  method Prepare(gates: seq<Gate>, c: Class, tables: seq<Table>, serverRot: seq<nat>, clientRot: seq<nat>, masks: seq<Entries>, ghost u: Lookup)
    returns (server: OpLutParty, client: OpLutParty)
    requires Good(u) && u.w.gs == gates && u.c == c && tables == AllTables(gates, c, u.w.layers) && |serverRot| == |clientRot| == |masks| == |tables|
    requires forall m | 0 <= m < |tables| :: serverRot[m] == u.rot(C.SERVER, m) && clientRot[m] == u.rot(C.CLIENT, m) && masks[m] == u.mask(m)
    ensures fresh(server) && fresh(client) && server != client && server.Setup() && client.Setup() && server.u == client.u == u
    ensures server.role == C.SERVER && client.role == C.CLIENT && server.OpenAt(0, 0) && client.OpenAt(0, 0)
  {
    TablesShaped(u, u.w.layers);
    var rotOTVals := OfferRotations(c, tables, serverRot, masks, u);
    var received := Transfer(c, tables, rotOTVals, clientRot, u);
    MasksHeld(u, masks);
    server := new OpLutParty(C.SERVER, gates, c, serverRot, masks, u);
    client := new OpLutParty(C.CLIENT, gates, c, clientRot, received, u);
  }

  lemma MasksHeld(u: Lookup, masks: seq<Entries>)
    requires Good(u) && |masks| == Before(u.w.gs, u.c, u.w.layers) && forall m | 0 <= m < |masks| :: masks[m] == u.mask(m)
    ensures forall m | 0 <= m < |masks| :: EntriesOf(u, C.SERVER, m, masks[m])
  {
    TablesShaped(u, u.w.layers);
  }

  /** What the server offers for a table and a choice. */
  ghost predicate Offered(u: Lookup, table: Table, m: nat, s: nat, e: Entries) {
    TableShaped(table, u.c) && TableShaped(u.mask(m), u.c) && e == Rotated(table, u.mask(m), u.rot(C.SERVER, m), s, u.c)
  }

  /** The client takes what is offered for its rotations. */
  method Transfer(c: Class, tables: seq<Table>, offers: seq<seq<Entries>>, clientRot: seq<nat>, ghost u: Lookup) returns (received: seq<Entries>)
    requires Good(u) && u.c == c && tables == AllTables(u.w.gs, c, u.w.layers) && |clientRot| == |tables| && |offers| == Pow2(c.ins)
    requires forall s | 0 <= s < |offers| :: |offers[s]| == |tables|
    requires forall s, m | 0 <= s < |offers| && 0 <= m < |tables| :: Offered(u, tables[m], m, s, offers[s][m])
    requires forall m | 0 <= m < |tables| :: clientRot[m] == u.rot(C.CLIENT, m)
    ensures |received| == |tables| && forall m | 0 <= m < |tables| :: EntriesOf(u, C.CLIENT, m, received[m])
  {
    received := [];
    for m := 0 to |tables|
      invariant |received| == m && forall k | 0 <= k < m :: EntriesOf(u, C.CLIENT, k, received[k])
    {
      var e := Choose(c, tables, offers, clientRot[m], m, u);
      received := received + [e];
    }
  }

  method Choose(c: Class, tables: seq<Table>, offers: seq<seq<Entries>>, choice: nat, m: nat, ghost u: Lookup) returns (e: Entries)
    requires Good(u) && u.c == c && tables == AllTables(u.w.gs, c, u.w.layers) && m < |tables| && |offers| == Pow2(c.ins)
    requires forall s | 0 <= s < |offers| :: |offers[s]| == |tables| && Offered(u, tables[m], m, s, offers[s][m])
    requires choice == u.rot(C.CLIENT, m)
    ensures EntriesOf(u, C.CLIENT, m, e)
  {
    e := offers[choice][m];
    assert Offered(u, tables[m], m, choice, e);
  }

  /** rot_OT_vals: for choice s all tables, rotated by r ^ s and masked. */
  method OfferRotations(c: Class, tables: seq<Table>, rot: seq<nat>, masks: seq<Entries>, ghost u: Lookup) returns (offers: seq<seq<Entries>>)
    requires Good(u) && u.c == c && |rot| == |masks| == |tables|
    requires forall m | 0 <= m < |tables| :: TableShaped(tables[m], c) && masks[m] == u.mask(m) && rot[m] == u.rot(C.SERVER, m)
    ensures |offers| == Pow2(c.ins) && forall s | 0 <= s < |offers| :: |offers[s]| == |tables|
    ensures forall s, m | 0 <= s < |offers| && 0 <= m < |tables| :: Offered(u, tables[m], m, s, offers[s][m])
  {
    offers := [];
    for s := 0 to Pow2(c.ins)
      invariant |offers| == s && forall k | 0 <= k < s :: |offers[k]| == |tables|
      invariant forall k, m | 0 <= k < s && 0 <= m < |tables| :: Offered(u, tables[m], m, k, offers[k][m])
    {
      var row := OfferRow(c, tables, rot, masks, s, u);
      offers := offers + [row];
    }
  }

  method OfferRow(c: Class, tables: seq<Table>, rot: seq<nat>, masks: seq<Entries>, s: nat, ghost u: Lookup) returns (row: seq<Entries>)
    requires Good(u) && u.c == c && |rot| == |masks| == |tables|
    requires forall m | 0 <= m < |tables| :: TableShaped(tables[m], c) && masks[m] == u.mask(m) && rot[m] == u.rot(C.SERVER, m)
    ensures |row| == |tables| && forall m | 0 <= m < |tables| :: Offered(u, tables[m], m, s, row[m])
  {
    row := [];
    for m := 0 to |tables|
      invariant |row| == m && forall k | 0 <= k < m :: Offered(u, tables[k], k, s, row[k])
    {
      assert TableShaped(u.mask(m), c);
      row := row + [Rotated(tables[m], masks[m], rot[m], s, c)];
    }
  }

  // ----- all layers -----------------------------------------------------------------------

  /** Two parties of one class. */
  ghost predicate Partners(server: OpLutParty, client: OpLutParty) {
    server != client && server.role == C.SERVER && client.role == C.CLIENT && server.u == client.u && server.Setup() && client.Setup()
  }

  /** The party holds its shares of the operands of all tables of the class on layer d. */
  ghost predicate LayerOperands(u: Lookup, r: Role, val: map<nat, seq<bool>>, d: nat) {
    forall i {:trigger Layer(u.w.gs, d)[i]} | 0 <= i < |Layer(u.w.gs, d)| && InClass(u.w.gs, u.c, Layer(u.w.gs, d)[i]) ::
      OperandsHeld(u.w, r, val, Layer(u.w.gs, d)[i])
  }

  /** Both results of a gate add up to its table at the joint index, for every value and every output. */
  ghost predicate Shared(u: Lookup, g: nat, a: seq<bool>, b: seq<bool>) {
    && Looks(u, g) && |a| == |b| == u.w.gs[g].nvals == u.c.outs * Vals(u.w.gs, g)
    && forall o: nat, n: nat {:trigger EntryShared(u, g, a, b, o, n)} | o < u.c.outs && n < Vals(u.w.gs, g) :: EntryShared(u, g, a, b, o, n)
  }

  /** Value n of output o: the bit at column o of the row whose number the operands spell. */
  ghost predicate EntryShared(u: Lookup, g: nat, a: seq<bool>, b: seq<bool>, o: nat, n: nat) {
    && g < |u.w.gs| && u.w.gs[g].op.Table?
    && var table, at, row := u.w.gs[g].op.table, o * Vals(u.w.gs, g) + n, Num(JointBits(u.w, g, n));
       row < |table| && o < |table[row]| && at < |a| && at < |b| && (a[at] != b[at]) == table[row][o]
  }

  ghost predicate LayerShared(u: Lookup, d: nat, a: map<nat, seq<bool>>, b: map<nat, seq<bool>>) {
    forall g: nat {:trigger InClass(u.w.gs, u.c, g)} | g < |u.w.gs| && InClass(u.w.gs, u.c, g) && u.w.gs[g].depth == d ::
      g in a && g in b && Shared(u, g, a[g], b[g])
  }

  lemma LayerXor(server: OpLutParty, client: OpLutParty, d: nat, a: map<nat, seq<bool>>, b: map<nat, seq<bool>>)
    requires Partners(server, client)
    requires server.LookedUp(a, d, |TakersOf(server.u.w.gs, Transfers(server.u.c), d)|)
    requires client.LookedUp(b, d, |TakersOf(server.u.w.gs, Transfers(server.u.c), d)|)
    ensures LayerShared(server.u, d, a, b)
  {
    var u := server.u;
    forall g: nat | g < |u.w.gs| && InClass(u.w.gs, u.c, g) && u.w.gs[g].depth == d
      ensures g in a && g in b && Shared(u, g, a[g], b[g])
    {
      ClassGate(u, g);
      QueueMembers(u.w.gs, true, d, |u.w.gs|, g);
      var q := Layer(u.w.gs, d);
      assert q[..|q|] == q;
      TakersMember(u.w.gs, Transfers(u.c), q, |q|, g);
      var list := TakersOf(u.w.gs, Transfers(u.c), d);
      var i :| 0 <= i < |list| && list[i] == g;
      BothLooked(u, g, a[g], b[g]);
    }
  }

  lemma BothLooked(u: Lookup, g: nat, a: seq<bool>, b: seq<bool>)
    requires Good(u) && Looks(u, g) && ResultOf(u, C.SERVER, g, a) && ResultOf(u, C.CLIENT, g, b)
    ensures Shared(u, g, a, b)
  {
    TimesIsProduct(u.c.outs, Vals(u.w.gs, g));
    forall o: nat, n: nat | o < u.c.outs && n < Vals(u.w.gs, g)
      ensures EntryShared(u, g, a, b, o, n)
    {
      EntryLooked(u, g, a, b, o, n);
    }
  }

  lemma EntryLooked(u: Lookup, g: nat, a: seq<bool>, b: seq<bool>, o: nat, n: nat)
    requires Good(u) && Looks(u, g) && ResultOf(u, C.SERVER, g, a) && ResultOf(u, C.CLIENT, g, b) && o < u.c.outs && n < Vals(u.w.gs, g)
    ensures EntryShared(u, g, a, b, o, n)
  {
    var at := o * Vals(u.w.gs, g) + n;
    TimesIsProduct(o, Vals(u.w.gs, g));
    EntryXor(u, g, a, b, o, n, at);
    RowInside(u, g, n);
    EntryRead(u, g, a, b, o, n, at);
  }

  lemma EntryRead(u: Lookup, g: nat, a: seq<bool>, b: seq<bool>, o: nat, n: nat, at: nat)
    requires g < |u.w.gs| && u.w.gs[g].op.Table? && at == o * Vals(u.w.gs, g) + n && at < |a| && at < |b|
    requires JointIndex(u.w, g, n) < |u.w.gs[g].op.table| && |u.w.gs[g].op.table[JointIndex(u.w, g, n)]| == u.c.outs && o < u.c.outs
    requires (a[at] != b[at]) == TableBit(u.w.gs[g].op.table, JointIndex(u.w, g, n), o)
    ensures EntryShared(u, g, a, b, o, n)
  {
  }

  lemma EntryXor(u: Lookup, g: nat, a: seq<bool>, b: seq<bool>, o: nat, n: nat, at: nat)
    requires Good(u) && Looks(u, g) && ResultOf(u, C.SERVER, g, a) && ResultOf(u, C.CLIENT, g, b) && o < u.c.outs && n < Vals(u.w.gs, g)
    requires at == Times(o, Vals(u.w.gs, g)) + n
    ensures at < |a| && at < |b| && (a[at] != b[at]) == TableBit(u.w.gs[g].op.table, JointIndex(u.w, g, n), o)
  {
    SlotOf(o, n, Vals(u.w.gs, g));
    SlotWithin(o, n, Vals(u.w.gs, g), u.c.outs);
    LookupXor(u, g, at, o, n);
    ResultAt(u, C.SERVER, g, a, at);
    ResultAt(u, C.CLIENT, g, b, at);
  }

  lemma ResultAt(u: Lookup, r: Role, g: nat, v: seq<bool>, t: nat)
    requires ResultOf(u, r, g, v) && t < u.w.gs[g].nvals
    ensures t < |v| && v[t] == Obtained(u, r, g, t)
  {
  }

  lemma RowInside(u: Lookup, g: nat, n: nat)
    requires Looks(u, g)
    ensures JointIndex(u.w, g, n) < |u.w.gs[g].op.table| && |u.w.gs[g].op.table[JointIndex(u.w, g, n)]| == u.c.outs
  {
    ValueBound(JointBits(u.w, g, n), |u.w.gs[g].op.inputs|);
  }

  /** A layer: both parties open, exchange their openings, and look up. */
  method RunLayer(server: OpLutParty, client: OpLutParty, interactiveops: seq<nat>, valS: map<nat, seq<bool>>, valC: map<nat, seq<bool>>,
                  ghost d: nat)
    returns (a: map<nat, seq<bool>>, b: map<nat, seq<bool>>)
    requires Partners(server, client) && server.OpenAt(d, 0) && client.OpenAt(d, 0) && d < server.u.w.layers
    requires interactiveops == Layer(server.u.w.gs, d)
    requires LayerOperands(server.u, C.SERVER, valS, d) && LayerOperands(server.u, C.CLIENT, valC, d)
    modifies server, client
    ensures server.OpenAt(d + 1, 0) && client.OpenAt(d + 1, 0) && LayerShared(server.u, d, a, b)
  {
    server.OpenLayer(valS, interactiveops, d);
    client.OpenLayer(valC, interactiveops, d);
    server.rec, client.rec := client.snd, server.snd;
    a := server.EvaluateOPLUTGates(d);
    b := client.EvaluateOPLUTGates(d);
    LayerXor(server, client, d, a, b);
    server.InitNewLayer(d);
    client.InitNewLayer(d);
  }

  /** All layers. What other gates do in between shows in the operands that the parties hold on each layer. */
  method RunLayers(server: OpLutParty, client: OpLutParty, queues: seq<seq<nat>>, valsS: seq<map<nat, seq<bool>>>, valsC: seq<map<nat, seq<bool>>>)
    returns (a: seq<map<nat, seq<bool>>>, b: seq<map<nat, seq<bool>>>)
    requires Partners(server, client) && server.OpenAt(0, 0) && client.OpenAt(0, 0)
    requires |queues| == |valsS| == |valsC| == server.u.w.layers && forall d | 0 <= d < |queues| :: queues[d] == Layer(server.u.w.gs, d)
    requires forall d | 0 <= d < |queues| :: LayerOperands(server.u, C.SERVER, valsS[d], d) && LayerOperands(server.u, C.CLIENT, valsC[d], d)
    modifies server, client
    ensures |a| == |b| == |queues| && forall d | 0 <= d < |a| :: LayerShared(server.u, d, a[d], b[d])
    ensures server.maskCtr == client.maskCtr == server.selOpeningCtr == client.selOpeningCtr == |server.tableMask|
  {
    a, b := [], [];
    for d := 0 to |queues|
      invariant server.OpenAt(d, 0) && client.OpenAt(d, 0)
      invariant |a| == |b| == d && forall e | 0 <= e < d :: LayerShared(server.u, e, a[e], b[e])
    {
      var x, y := RunLayer(server, client, queues[d], valsS[d], valsC[d], d);
      a, b := a + [x], b + [y];
    }
  }
}
