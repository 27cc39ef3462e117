/** The garbler of Yao's protocol. */
module YaoServerParty {
  import opened Bits
  import opened Circuit
  import opened Builder
  import opened Garbling
  import opened YaoOrder
  import opened YaoSpec
  import opened YaoMessage

  /** A garbled gate: its keys and permutation bits are stored, an output keeps the bits of its parent. */
  ghost predicate GarbledAt(w: Run, outKey: map<nat, seq<Key>>, pi: map<nat, seq<bool>>, val: map<nat, seq<bool>>, g: nat) {
    g < |w.gs| &&
    if w.gs[g].op.Out? then g in val && val[g] == Block(w.gs, OutputBits, OutPi(w), g)
    else g in outKey && outKey[g] == KeysOf(w, g) && g in pi && pi[g] == PisOf(w, g)
  }

  /** The first i gates of the order are garbled. */
  ghost predicate StoreOk(w: Run, i: nat, outKey: map<nat, seq<Key>>, pi: map<nat, seq<bool>>, val: map<nat, seq<bool>>) {
    i <= |Order(w.gs, w.layers)| &&
    forall k {:trigger Order(w.gs, w.layers)[k]} | 0 <= k < i :: GarbledAt(w, outKey, pi, val, Order(w.gs, w.layers)[k])
  }

  lemma WireStored(w: Run, i: nat, outKey: map<nat, seq<Key>>, pi: map<nat, seq<bool>>, val: map<nat, seq<bool>>)
    requires StoreOk(w, i, outKey, pi, val) && i < |Order(w.gs, w.layers)| && !w.gs[Order(w.gs, w.layers)[i]].op.Out?
    ensures var g := Order(w.gs, w.layers)[i]; StoreOk(w, i + 1, outKey[g := KeysOf(w, g)], pi[g := PisOf(w, g)], val)
  {
  }

  lemma OutputStored(w: Run, i: nat, outKey: map<nat, seq<Key>>, pi: map<nat, seq<bool>>, val: map<nat, seq<bool>>)
    requires StoreOk(w, i, outKey, pi, val) && i < |Order(w.gs, w.layers)| && w.gs[Order(w.gs, w.layers)[i]].op.Out?
    ensures var g := Order(w.gs, w.layers)[i]; StoreOk(w, i + 1, outKey, pi, val[g := Block(w.gs, OutputBits, OutPi(w), g)])
  {
  }

  lemma StoreStep(w: Run, i: nat, outKey: map<nat, seq<Key>>, pi: map<nat, seq<bool>>, val: map<nat, seq<bool>>, g: nat)
    requires StoreOk(w, i, outKey, pi, val) && i < |Order(w.gs, w.layers)| && g == Order(w.gs, w.layers)[i]
    ensures StoreOk(w, i + 1, if w.gs[g].op.Out? then outKey else outKey[g := KeysOf(w, g)],
                    if w.gs[g].op.Out? then pi else pi[g := PisOf(w, g)],
                    if w.gs[g].op.Out? then val[g := Block(w.gs, OutputBits, OutPi(w), g)] else val)
  {
    if w.gs[g].op.Out? {
      OutputStored(w, i, outKey, pi, val);
    } else {
      WireStored(w, i, outKey, pi, val);
    }
  }

  function Dests(gs: seq<Gate>, q: seq<nat>): (r: seq<Dest>)
    requires Ids(gs, q) && forall k | 0 <= k < |q| :: gs[q[k]].op.Out?
    ensures |r| == |q| && forall k | 0 <= k < |r| :: r[k] == gs[q[k]].op.dst
  {
    seq(|q|, k requires 0 <= k < |q| => gs[q[k]].op.dst)
  }

  function DestsOf(gs: seq<Gate>, q: seq<nat>, i: nat): seq<Dest>
    requires Ids(gs, q) && i <= |q|
  {
    Dests(gs, Drawers(gs, OutputBits, q, i))
  }

  /** What the garbler has produced so far, besides the wires. */
  datatype Ledger = Ledger(circuit: seq<HalfGates>, univ: seq<Rows>, perms: nat, inBits: nat, inGates: seq<nat>, dests: seq<Dest>)

  /** After i gates, it has drawn what these gates draw, in this order. */
  function LedgerAt(w: Run, i: nat): Ledger
    requires i <= |Order(w.gs, w.layers)|
  {
    var q := Order(w.gs, w.layers);
    Ledger(Strung(w.gs, AndTables, AndRows(w), q, i), Strung(w.gs, UnivTables, UnivRows(w), q, i),
           Drawn(w.gs, ServerKeys, q, i), Drawn(w.gs, ClientKeys, q, i), Drawers(w.gs, ClientKeys, q, i), DestsOf(w.gs, q, i))
  }

  /** What one more gate adds. */
  function Entered(w: Run, l: Ledger, g: nat): Ledger
    requires g < |w.gs|
  {
    Ledger(l.circuit + Block(w.gs, AndTables, AndRows(w), g), l.univ + Block(w.gs, UnivTables, UnivRows(w), g),
           l.perms + Amount(w.gs, ServerKeys, g), l.inBits + Amount(w.gs, ClientKeys, g),
           l.inGates + (if Draws(w.gs, ClientKeys, g) then [g] else []),
           l.dests + if w.gs[g].op.Out? then [w.gs[g].op.dst] else [])
  }

  /** What a gate of each kind adds. */
  lemma EnteredWhere(w: Run, l: Ledger, g: nat)
    requires g < |w.gs| && !w.gs[g].op.NonLinVec? && !w.gs[g].op.StructCombine?
    ensures w.gs[g].op.Lin? || w.gs[g].op.Inv? || w.gs[g].op.Constant? ==> Entered(w, l, g) == l
    ensures w.gs[g].op.NonLin? ==> Entered(w, l, g) == l.(circuit := l.circuit + Block(w.gs, AndTables, AndRows(w), g))
    ensures w.gs[g].op.Univ? ==> Entered(w, l, g) == l.(univ := l.univ + Block(w.gs, UnivTables, UnivRows(w), g))
    ensures w.gs[g].op == In(SERVER) ==> Entered(w, l, g) == l.(perms := l.perms + w.gs[g].nvals)
    ensures w.gs[g].op == In(CLIENT) ==> Entered(w, l, g) == l.(inBits := l.inBits + w.gs[g].nvals, inGates := l.inGates + [g])
    ensures w.gs[g].op.Out? ==> Entered(w, l, g) == l.(dests := l.dests + [w.gs[g].op.dst])
  {
    assert !w.gs[g].op.NonLin? ==> Block(w.gs, AndTables, AndRows(w), g) == [];
    assert !w.gs[g].op.Univ? ==> Block(w.gs, UnivTables, UnivRows(w), g) == [];
  }

  lemma LedgerStep(w: Run, i: nat)
    requires i < |Order(w.gs, w.layers)|
    ensures Entered(w, LedgerAt(w, i), Order(w.gs, w.layers)[i]) == LedgerAt(w, i + 1)
    ensures |LedgerAt(w, i).circuit| == Place(w.gs, w.layers, AndTables, Order(w.gs, w.layers)[i])
    ensures LedgerAt(w, i).perms == Place(w.gs, w.layers, ServerKeys, Order(w.gs, w.layers)[i])
    ensures LedgerAt(w, i).inBits == Place(w.gs, w.layers, ClientKeys, Order(w.gs, w.layers)[i])
  {
    PlaceAt(w.gs, w.layers, AndTables, i);
    PlaceAt(w.gs, w.layers, ServerKeys, i);
    PlaceAt(w.gs, w.layers, ClientKeys, i);
  }

  /** The table that the run has for an AND gate. */
  lemma AndTableIs(w: Run, g: nat, t: nat)
    requires RunOk(w) && Ordered(w.gs) && g < |w.gs| && w.gs[g].op.NonLin? && t < w.gs[g].nvals
    ensures var l, r, table := w.gs[g].op.left, w.gs[g].op.right, w.andTable(g, t);
            && table == GarbleAnd(w.key(l, t), w.pi(l, t), w.pi(r, t), w.R,
                                    AndMasks(w, w.key(l, t), w.key(r, t), TableAt(w, g, t)))
            && w.key(g, t) == table.outKey && w.pi(g, t) == table.pi
  {
    assert Assigned(w, g) && KeysOk(w, g, t) && TablesOk(w, g, t) && OrderedAt(w.gs, g);
  }

  lemma UnivTableIs(w: Run, g: nat, t: nat)
    requires RunOk(w) && Ordered(w.gs) && g < |w.gs| && w.gs[g].op.Univ? && t < w.gs[g].nvals
    ensures var l, r, table := w.gs[g].op.left, w.gs[g].op.right, w.univTable(g, t);
            && table == GarbleUniv(w.gs[g].op.table, w.pi(l, t), w.pi(r, t), w.R, w.pad(w.key(l, t), w.key(r, t), 0),
                                     w.pad(w.key(l, t), Xor(w.key(r, t), w.R), 1), w.pad(Xor(w.key(l, t), w.R), w.key(r, t), 2),
                                     w.pad(Xor(w.key(l, t), w.R), Xor(w.key(r, t), w.R), 3))
            && w.key(g, t) == table.outKey && w.pi(g, t) == table.pi
  {
    assert Assigned(w, g) && KeysOk(w, g, t) && TablesOk(w, g, t) && OrderedAt(w.gs, g);
  }

  /** The keys that the run has for any other gate. */
  lemma LocalKeyIs(w: Run, g: nat, t: nat)
    requires RunOk(w) && Ordered(w.gs) && g < |w.gs| && t < w.gs[g].nvals
    ensures w.gs[g].op.Lin? ==> var l, r := w.gs[g].op.left, w.gs[g].op.right;
              w.key(g, t) == Xor(w.key(l, t), w.key(r, t)) && w.pi(g, t) == (w.pi(l, t) != w.pi(r, t))
    ensures w.gs[g].op.Inv? ==> w.key(g, t) == w.key(w.gs[g].op.parent, t) && w.pi(g, t) == !w.pi(w.gs[g].op.parent, t)
    ensures w.gs[g].op.Constant? ==> w.key(g, t) == Zero(w.kappa) && w.pi(g, t) == w.gs[g].op.value
    ensures w.gs[g].op == In(SERVER) ==> var j := Place(w.gs, w.layers, ServerKeys, g) + t;
              w.key(g, t) == w.serverKey(j) && w.pi(g, t) == w.perm(j)
    ensures w.gs[g].op == In(CLIENT) ==> w.key(g, t) == w.clientKey(TransferAt(w, g, t)) && !w.pi(g, t)
  {
    assert Assigned(w, g) && KeysOk(w, g, t) && OrderedAt(w.gs, g);
  }

  /** The key that the server sends for its own input. */
  lemma SentKeyIs(w: Run, g: nat, t: nat)
    requires RunOk(w) && Ordered(w.gs) && g < |w.gs| && t < w.gs[g].nvals && w.gs[g].op == In(SERVER)
    ensures var j := Place(w.gs, w.layers, ServerKeys, g) + t;
            w.active(g, t) == XorIf(w.serverKey(j), w.inp(g, t) != w.perm(j), w.R)
  {
    assert Assigned(w, g) && KeysOk(w, g, t) && OrderedAt(w.gs, g);
  }

  /** What encryption makes of a key has the length of a key. */
  ghost predicate EncSized(enc: (Key, nat) -> Key, kappa: nat) {
    forall k, i {:trigger enc(k, i)} :: Sized(enc(k, i), kappa)
  }

  ghost predicate PadSized(pad: (Key, Key, nat) -> Key, kappa: nat) {
    forall k, l, i {:trigger pad(k, l, i)} :: Sized(pad(k, l, i), kappa)
  }

  /** The masks of both wires, by the value that the key stands for. */
  method EncryptWires(enc: (Key, nat) -> Key, R: Key, lkey: Key, rkey: Key, lpbit: bool, rpbit: bool, ctr: nat)
    returns (lMaskBuf: seq<Key>, rMaskBuf: seq<Key>)
    ensures var m := MasksOf(enc, R, lkey, rkey, ctr);
            && lMaskBuf == (if lpbit then [m.l1, m.l0] else [m.l0, m.l1]) && rMaskBuf == if rpbit then [m.r1, m.r0] else [m.r0, m.r1]
  {
    lMaskBuf := [[], []][Bit(lpbit) := enc(lkey, 2 * ctr)];
    lMaskBuf := lMaskBuf[Bit(!lpbit) := enc(Xor(lkey, R), 2 * ctr)];
    rMaskBuf := [[], []][Bit(rpbit) := enc(rkey, 2 * ctr + 1)];
    rMaskBuf := rMaskBuf[Bit(!rpbit) := enc(Xor(rkey, R), 2 * ctr + 1)];
  }

  /** CreateGarbledTable: the mask buffers are indexed by value, and the key of the output is built up in place. */
  method CreateGarbledTable(enc: (Key, nat) -> Key, R: Key, lkey: Key, rkey: Key, lpbit: bool, rpbit: bool, ctr: nat, ghost kappa: nat)
    returns (table: AndTable)
    requires Plain(lkey, kappa) && Plain(rkey, kappa) && Sized(R, kappa) && Last(R) && EncSized(enc, kappa)
    ensures table == GarbleAnd(lkey, lpbit, rpbit, R, MasksOf(enc, R, lkey, rkey, ctr))
  {
    var lKeyBuf := if lpbit then Xor(lkey, R) else lkey;
    var lMaskBuf, rMaskBuf := EncryptWires(enc, R, lkey, rkey, lpbit, rpbit, ctr);
    var tg := Xor(lMaskBuf[0], lMaskBuf[1]);
    if rpbit {
      tg := Xor(tg, R);
    }
    var te := Xor(rMaskBuf[0], rMaskBuf[1]);
    te := Xor(te, lKeyBuf);
    ghost var m := MasksOf(enc, R, lkey, rkey, ctr);
    BuffersSwap(lMaskBuf, rMaskBuf, lpbit, rpbit, m, kappa);
    var outKey := CombineMasks(R, lkey, rkey, lpbit, rpbit, lMaskBuf, rMaskBuf, te, lKeyBuf, m, kappa);
    var pi;
    outKey, pi := ClearLast(outKey, R, lpbit, rpbit, kappa);
    table := AndTable(HalfGates(tg, te), outKey, pi);
  }

  /** The key of the output ends in zero; its permutation bit tells whether it did before. */
  method ClearLast(key: Key, R: Key, lpbit: bool, rpbit: bool, ghost kappa: nat) returns (outKey: Key, pi: bool)
    requires Sized(key, kappa) && Sized(R, kappa) && Last(R)
    ensures outKey == XorIf(key, Last(key), R) && pi == (Last(key) != (lpbit && rpbit))
  {
    outKey, pi := key, Last(key) != (lpbit && rpbit);
    if Last(outKey) {
      outKey := Xor(outKey, R);
      pi := !Last(outKey) != (lpbit && rpbit);
    }
  }

  /** Sums of both masks do not depend on their order; the one of the left wire for the stored key is found by its permutation bit. */
  /** The key of the output, before its last bit is cleared. */
  method CombineMasks(R: Key, lkey: Key, rkey: Key, lpbit: bool, rpbit: bool, lMaskBuf: seq<Key>, rMaskBuf: seq<Key>, te: Key, lKeyBuf: Key,
                      ghost m: Masks, ghost kappa: nat) returns (outKey: Key)
    requires Plain(lkey, kappa) && Plain(rkey, kappa) && |lMaskBuf| == |rMaskBuf| == 2
    requires Sized(m.l0, kappa) && Sized(m.r0, kappa) && Sized(m.r1, kappa) && Sized(lKeyBuf, kappa)
    requires te == Xor(Xor(m.r0, m.r1), lKeyBuf)
    requires Xor(if lpbit then lMaskBuf[1] else lMaskBuf[0], rMaskBuf[0]) == Xor(m.l0, if rpbit then m.r1 else m.r0)
    ensures outKey == Xor(m.l0, m.r0)
  {
    var lsbit, rsbit := Last(lkey), Last(rkey);
    outKey := Xor(if lpbit then lMaskBuf[1] else lMaskBuf[0], rMaskBuf[0]);
    if lsbit && rsbit {
      outKey := Xor(outKey, R);
    }
    if rpbit {
      KeyCancels(m, te, lKeyBuf, kappa);
      outKey := Xor(outKey, te);
      outKey := Xor(outKey, lKeyBuf);
    }
  }

  lemma BuffersSwap(lMaskBuf: seq<Key>, rMaskBuf: seq<Key>, lpbit: bool, rpbit: bool, m: Masks, kappa: nat)
    requires Sized(m.l0, kappa) && Sized(m.l1, kappa) && Sized(m.r0, kappa) && Sized(m.r1, kappa)
    requires lMaskBuf == (if lpbit then [m.l1, m.l0] else [m.l0, m.l1]) && rMaskBuf == if rpbit then [m.r1, m.r0] else [m.r0, m.r1]
    ensures Xor(lMaskBuf[0], lMaskBuf[1]) == Xor(m.l0, m.l1) && Xor(rMaskBuf[0], rMaskBuf[1]) == Xor(m.r0, m.r1)
    ensures Xor(if lpbit then lMaskBuf[1] else lMaskBuf[0], rMaskBuf[0]) == Xor(m.l0, if rpbit then m.r1 else m.r0)
  {
  }

  /** The evaluator half and the left key turn one mask of the right wire into the other one. */
  lemma KeyCancels(m: Masks, te: Key, lKeyBuf: Key, kappa: nat)
    requires Sized(m.l0, kappa) && Sized(m.r0, kappa) && Sized(m.r1, kappa) && Sized(lKeyBuf, kappa)
    requires te == Xor(Xor(m.r0, m.r1), lKeyBuf)
    ensures Xor(Xor(Xor(m.l0, m.r1), te), lKeyBuf) == Xor(m.l0, m.r0)
  {
  }

  /** The exclusive or of two numbers below four. */
  function XorIndex(i: nat, j: nat): (r: nat)
    ensures r < 4
  {
    2 * Bit((i / 2 % 2 == 1) != (j / 2 % 2 == 1)) + Bit((i % 2 == 1) != (j % 2 == 1))
  }

  /** Bit id of a truth table. */
  predicate TruthTable(ttable: nat, id: nat) {
    ttable / Pow2(id) % 2 == 1
  }

  lemma TruthTableBit(ttable: nat, a: bool, b: bool, i: nat)
    requires i < 4
    ensures TruthTable(ttable, XorIndex(2 * Bit(a) + Bit(b), i)) == TableBit(ttable, a != (i / 2 == 1), b != (i % 2 == 1))
  {
    var x, y := a != (i / 2 == 1), b != (i % 2 == 1);
    assert XorIndex(2 * Bit(a) + Bit(b), i) == 2 * Bit(x) + Bit(y);
  }

  /** GarbleUniversalGate: both keys of the output in a buffer, and the three ciphertexts that are sent, one after the other. */
  method GarbleUniversalGate(pad: (Key, Key, nat) -> Key, R: Key, lkey: Key, rkey: Key, lpbit: bool, rpbit: bool, ttable: nat,
                             ghost kappa: nat) returns (table: UnivTable)
    requires Sized(R, kappa) && PadSized(pad, kappa)
    ensures Last(R) ==> forall va, vb :: RowOpens(pad, R, lkey, rkey, lpbit, rpbit, ttable, table, va, vb)
    ensures table == GarbleUniv(ttable, lpbit, rpbit, R, pad(lkey, rkey, 0), pad(lkey, Xor(rkey, R), 1),
                                pad(Xor(lkey, R), rkey, 2), pad(Xor(lkey, R), Xor(rkey, R), 3))
  {
    var ttid := 2 * Bit(lpbit) + Bit(rpbit);
    var lMaskBuf, rMaskBuf := [lkey, Xor(lkey, R)], [rkey, Xor(rkey, R)];
    var outkey := [Xor(pad(lMaskBuf[0], rMaskBuf[0], 0), Zero(|R|)), []];
    ghost var p0 := pad(lkey, rkey, 0);
    assert outkey[0] == p0;
    var kbit := Bit(Last(outkey[0]));
    var pi := TruthTable(ttable, ttid) != (kbit == 1);
    outkey := outkey[kbit := outkey[0]];
    outkey := outkey[1 - kbit := Xor(outkey[kbit], R)];
    TruthTableBit(ttable, lpbit, rpbit, 0);
    BothKeys(p0, R, outkey, kappa);
    var univTable := EncryptEntries(pad, lMaskBuf, rMaskBuf, outkey, ttable, ttid, pi);
    EntriesAre(ttable, lpbit, rpbit);
    table := UnivTable(Rows(univTable[0], univTable[1], univTable[2]), outkey[0], pi);
    if Last(R) {
      RowsOpen(pad, R, lkey, rkey, lpbit, rpbit, ttable, table, kappa);
    }
  }

  /** The pad for one of the two keys of each operand. */
  function PadFor(pad: (Key, Key, nat) -> Key, R: Key, lkey: Key, rkey: Key, lother: bool, rother: bool): Key {
    pad(if lother then Xor(lkey, R) else lkey, if rother then Xor(rkey, R) else rkey, 2 * Bit(lother) + Bit(rother))
  }

  /** With the keys that stand for va and vb, the evaluator obtains the key of that entry of the truth table. */
  predicate RowOpens(pad: (Key, Key, nat) -> Key, R: Key, lkey: Key, rkey: Key, lpbit: bool, rpbit: bool, ttable: nat, table: UnivTable,
                     va: bool, vb: bool)
  {
    var bit := if va then (if vb then ttable / 8 % 2 == 1 else ttable / 4 % 2 == 1) else if vb then ttable / 2 % 2 == 1 else ttable % 2 == 1;
    EvalUniv(va != lpbit, vb != rpbit, PadFor(pad, R, lkey, rkey, va != lpbit, vb != rpbit), table.rows) == XorIf(table.outKey, bit != table.pi, R)
  }

  lemma RowsOpen(pad: (Key, Key, nat) -> Key, R: Key, lkey: Key, rkey: Key, lpbit: bool, rpbit: bool, ttable: nat, table: UnivTable, kappa: nat)
    requires Sized(R, kappa) && Last(R) && PadSized(pad, kappa)
    requires table == GarbleUniv(ttable, lpbit, rpbit, R, pad(lkey, rkey, 0), pad(lkey, Xor(rkey, R), 1),
                                 pad(Xor(lkey, R), rkey, 2), pad(Xor(lkey, R), Xor(rkey, R), 3))
    ensures forall va, vb :: RowOpens(pad, R, lkey, rkey, lpbit, rpbit, ttable, table, va, vb)
  {
    forall va, vb
      ensures RowOpens(pad, R, lkey, rkey, lpbit, rpbit, ttable, table, va, vb)
    {
      UnivCorrect(ttable, lpbit, rpbit, R, pad(lkey, rkey, 0), pad(lkey, Xor(rkey, R), 1), pad(Xor(lkey, R), rkey, 2),
                  pad(Xor(lkey, R), Xor(rkey, R), 3), va, vb, kappa);
    }
  }

  /** The key that stands for entry i. */
  function EntryKey(outkey: seq<Key>, ttable: nat, ttid: nat, i: nat, pi: bool): Key
    requires |outkey| == 2
  {
    outkey[Bit(TruthTable(ttable, XorIndex(ttid, i)) != pi)]
  }

  /** The loop of GarbleUniversalGate: entry i selects the key that is encrypted under the i-th pair of keys. */
  method EncryptEntries(pad: (Key, Key, nat) -> Key, lMaskBuf: seq<Key>, rMaskBuf: seq<Key>, outkey: seq<Key>, ttable: nat, ttid: nat,
                        pi: bool) returns (univTable: seq<Key>)
    requires |lMaskBuf| == |rMaskBuf| == |outkey| == 2
    ensures univTable == [Xor(pad(lMaskBuf[0], rMaskBuf[1], 1), EntryKey(outkey, ttable, ttid, 1, pi)),
                          Xor(pad(lMaskBuf[1], rMaskBuf[0], 2), EntryKey(outkey, ttable, ttid, 2, pi)),
                          Xor(pad(lMaskBuf[1], rMaskBuf[1], 3), EntryKey(outkey, ttable, ttid, 3, pi))]
  {
    univTable := [];
    for i := 1 to 4
      invariant |univTable| == i - 1
      invariant i > 1 ==> univTable[0] == Xor(pad(lMaskBuf[0], rMaskBuf[1], 1), EntryKey(outkey, ttable, ttid, 1, pi))
      invariant i > 2 ==> univTable[1] == Xor(pad(lMaskBuf[1], rMaskBuf[0], 2), EntryKey(outkey, ttable, ttid, 2, pi))
      invariant i > 3 ==> univTable[2] == Xor(pad(lMaskBuf[1], rMaskBuf[1], 3), EntryKey(outkey, ttable, ttid, 3, pi))
    {
      univTable := univTable + [Xor(pad(lMaskBuf[i / 2], rMaskBuf[i % 2], i), EntryKey(outkey, ttable, ttid, i, pi))];
    }
  }

  lemma EntriesAre(ttable: nat, lpbit: bool, rpbit: bool)
    ensures var ttid := 2 * Bit(lpbit) + Bit(rpbit);
            && TruthTable(ttable, XorIndex(ttid, 1)) == TableBit(ttable, lpbit, !rpbit)
            && TruthTable(ttable, XorIndex(ttid, 2)) == TableBit(ttable, !lpbit, rpbit)
            && TruthTable(ttable, XorIndex(ttid, 3)) == TableBit(ttable, !lpbit, !rpbit)
  {
    TruthTableBit(ttable, lpbit, rpbit, 1);
    TruthTableBit(ttable, lpbit, rpbit, 2);
    TruthTableBit(ttable, lpbit, rpbit, 3);
  }

  /** Whichever of the two keys of the output the encryption produced, they differ by R. */
  lemma BothKeys(p0: Key, R: Key, outkey: seq<Key>, kappa: nat)
    requires Sized(p0, kappa) && Sized(R, kappa) && outkey == if Last(p0) then [Xor(p0, R), p0] else [p0, Xor(p0, R)]
    ensures outkey[0] == XorIf(p0, Last(p0), R) && outkey[1] == Xor(outkey[0], R)
  {
    assert Xor(Xor(p0, R), R) == p0;
  }

  /** The wires of an operand that is at least as long as the gate. */
  ghost predicate WiresOf(w: Run, p: nat, nvals: nat, keys: seq<Key>, pis: seq<bool>) {
    p < |w.gs| && w.gs[p].nvals >= nvals && keys == KeysOf(w, p) && pis == PisOf(w, p)
  }

  /** Free XOR, value by value. */
  method GarbleXor(g: nat, nvals: nat, lkey: seq<Key>, rkey: seq<Key>, lpi: seq<bool>, rpi: seq<bool>, ghost w: Run)
    returns (keys: seq<Key>, pis: seq<bool>)
    requires Correct(w) && g < |w.gs| && nvals == w.gs[g].nvals && w.gs[g].op.Lin?
    requires WiresOf(w, w.gs[g].op.left, nvals, lkey, lpi) && WiresOf(w, w.gs[g].op.right, nvals, rkey, rpi)
    ensures keys == KeysOf(w, g) && pis == PisOf(w, g)
  {
    keys, pis := [], [];
    for t := 0 to nvals
      invariant |keys| == |pis| == t && forall k: nat | k < t :: keys[k] == w.key(g, k) && pis[k] == w.pi(g, k)
    {
      LocalKeyIs(w, g, t);
      keys, pis := keys + [Xor(lkey[t], rkey[t])], pis + [lpi[t] != rpi[t]];
    }
  }

  /** Inverting only flips the permutation bits. */
  method GarbleInversion(g: nat, nvals: nat, key: seq<Key>, pi: seq<bool>, ghost w: Run) returns (keys: seq<Key>, pis: seq<bool>)
    requires Correct(w) && g < |w.gs| && nvals == w.gs[g].nvals && w.gs[g].op.Inv?
    requires WiresOf(w, w.gs[g].op.parent, nvals, key, pi)
    ensures keys == KeysOf(w, g) && pis == PisOf(w, g)
  {
    keys, pis := key[..nvals], [];
    for t := 0 to nvals
      invariant |pis| == t && forall k: nat | k < t :: keys[k] == w.key(g, k) && pis[k] == w.pi(g, k)
    {
      LocalKeyIs(w, g, t);
      pis := pis + [!pi[t]];
    }
  }

  /** Constants have zero keys on both sides; the value is the permutation bit. */
  method GarbleConstant(g: nat, nvals: nat, value: bool, kappa: nat, ghost w: Run) returns (keys: seq<Key>, pis: seq<bool>)
    requires Correct(w) && g < |w.gs| && nvals == w.gs[g].nvals && w.gs[g].op == Constant(value) && kappa == w.kappa
    ensures keys == KeysOf(w, g) && pis == PisOf(w, g)
  {
    keys, pis := seq(nvals, _ => Zero(kappa)), [];
    for t := 0 to nvals
      invariant |pis| == t && forall k: nat | k < t :: keys[k] == w.key(g, k) && pis[k] == w.pi(g, k)
    {
      LocalKeyIs(w, g, t);
      pis := pis + [value];
    }
  }

  /** Keys of the server's inputs come with random permutation bits, those of the client's inputs without. */
  method GarbleServerInput(g: nat, nvals: nat, permBitCtr: nat, secrets: Secrets, ghost w: Run)
    returns (keys: seq<Key>, pis: seq<bool>)
    requires Correct(w) && SecretsOf(w, secrets) && g < |w.gs| && nvals == w.gs[g].nvals && w.gs[g].op == In(SERVER)
    requires permBitCtr == Place(w.gs, w.layers, ServerKeys, g)
    ensures keys == KeysOf(w, g) && pis == PisOf(w, g)
  {
    keys, pis := [], [];
    for t := 0 to nvals
      invariant |keys| == |pis| == t && forall k: nat | k < t :: keys[k] == w.key(g, k) && pis[k] == w.pi(g, k)
    {
      LocalKeyIs(w, g, t);
      keys, pis := keys + [secrets.serverKey(permBitCtr + t)], pis + [secrets.perm(permBitCtr + t)];
    }
  }

  method GarbleClientInput(g: nat, nvals: nat, clientInBitCtr: nat, secrets: Secrets, ghost w: Run)
    returns (keys: seq<Key>, pis: seq<bool>)
    requires Correct(w) && SecretsOf(w, secrets) && g < |w.gs| && nvals == w.gs[g].nvals && w.gs[g].op == In(CLIENT)
    requires clientInBitCtr == Place(w.gs, w.layers, ClientKeys, g)
    ensures keys == KeysOf(w, g) && pis == PisOf(w, g)
  {
    keys, pis := [], [];
    for t := 0 to nvals
      invariant |keys| == |pis| == t && forall k: nat | k < t :: keys[k] == w.key(g, k) && pis[k] == w.pi(g, k)
    {
      LocalKeyIs(w, g, t);
      keys, pis := keys + [secrets.clientKey(clientInBitCtr + t)], pis + [false];
    }
  }

  method AndTableOf(g: nat, t: nat, lkey: Key, rkey: Key, lpbit: bool, rpbit: bool, ctr: nat, enc: (Key, nat) -> Key, R: Key, ghost w: Run)
    returns (table: AndTable)
    requires Correct(w) && g < |w.gs| && t < w.gs[g].nvals && w.gs[g].op.NonLin? && w.enc == enc && w.R == R
    requires lkey == w.key(w.gs[g].op.left, t) && rkey == w.key(w.gs[g].op.right, t) && ctr == TableAt(w, g, t)
    requires lpbit == w.pi(w.gs[g].op.left, t) && rpbit == w.pi(w.gs[g].op.right, t)
    ensures table == w.andTable(g, t) && table.outKey == w.key(g, t) && table.pi == w.pi(g, t)
  {
    AndTableIs(w, g, t);
    OperandActive(w, g, 0, t);
    OperandActive(w, g, 1, t);
    table := CreateGarbledTable(enc, R, lkey, rkey, lpbit, rpbit, ctr, w.kappa);
  }

  /** One table for every value; the identifiers of the encryptions count the tables. */
  method GarbleAnds(g: nat, nvals: nat, lkey: seq<Key>, rkey: seq<Key>, lpi: seq<bool>, rpi: seq<bool>, garbledTableCtr: nat,
                    enc: (Key, nat) -> Key, R: Key, ghost w: Run) returns (keys: seq<Key>, pis: seq<bool>, rows: seq<HalfGates>)
    requires Correct(w) && g < |w.gs| && nvals == w.gs[g].nvals && w.gs[g].op.NonLin? && w.enc == enc && w.R == R
    requires WiresOf(w, w.gs[g].op.left, nvals, lkey, lpi) && WiresOf(w, w.gs[g].op.right, nvals, rkey, rpi)
    requires garbledTableCtr == Place(w.gs, w.layers, AndTables, g)
    ensures keys == KeysOf(w, g) && pis == PisOf(w, g) && rows == Block(w.gs, AndTables, AndRows(w), g)
  {
    keys, pis, rows := [], [], [];
    for t := 0 to nvals
      invariant |keys| == |pis| == |rows| == t
      invariant forall k: nat | k < t :: keys[k] == w.key(g, k) && pis[k] == w.pi(g, k) && rows[k] == AndRows(w)(g, k)
    {
      var table := AndTableOf(g, t, lkey[t], rkey[t], lpi[t], rpi[t], garbledTableCtr + t, enc, R, w);
      keys, pis, rows := keys + [table.outKey], pis + [table.pi], rows + [table.rows];
    }
  }

  method GarbleUnivs(g: nat, nvals: nat, lkey: seq<Key>, rkey: seq<Key>, lpi: seq<bool>, rpi: seq<bool>, ttable: nat,
                     pad: (Key, Key, nat) -> Key, R: Key, ghost w: Run) returns (keys: seq<Key>, pis: seq<bool>, rows: seq<Rows>)
    requires Correct(w) && g < |w.gs| && nvals == w.gs[g].nvals && w.gs[g].op.Univ? && ttable == w.gs[g].op.table
    requires w.pad == pad && w.R == R
    requires WiresOf(w, w.gs[g].op.left, nvals, lkey, lpi) && WiresOf(w, w.gs[g].op.right, nvals, rkey, rpi)
    ensures keys == KeysOf(w, g) && pis == PisOf(w, g) && rows == Block(w.gs, UnivTables, UnivRows(w), g)
  {
    keys, pis, rows := [], [], [];
    for t := 0 to nvals
      invariant |keys| == |pis| == |rows| == t
      invariant forall k: nat | k < t :: keys[k] == w.key(g, k) && pis[k] == w.pi(g, k) && rows[k] == UnivRows(w)(g, k)
    {
      var table := UnivTableOf(g, t, lkey[t], rkey[t], lpi[t], rpi[t], ttable, pad, R, w);
      keys, pis, rows := keys + [table.outKey], pis + [table.pi], rows + [table.rows];
    }
  }

  method UnivTableOf(g: nat, t: nat, lkey: Key, rkey: Key, lpi: bool, rpi: bool, ttable: nat, pad: (Key, Key, nat) -> Key, R: Key,
                     ghost w: Run) returns (table: UnivTable)
    requires Correct(w) && g < |w.gs| && t < w.gs[g].nvals && w.gs[g].op.Univ? && ttable == w.gs[g].op.table && w.pad == pad && w.R == R
    requires var l, r := w.gs[g].op.left, w.gs[g].op.right;
             lkey == w.key(l, t) && rkey == w.key(r, t) && lpi == w.pi(l, t) && rpi == w.pi(r, t)
    ensures table.outKey == w.key(g, t) && table.pi == w.pi(g, t) && table.rows == UnivRows(w)(g, t)
  {
    UnivTableIs(w, g, t);
    table := GarbleUniversalGate(pad, R, lkey, rkey, lpi, rpi, ttable, w.kappa);
  }

  /** The bits stored for the given outputs, one behind the other. */
  method CollectShares(outs: seq<nat>, val: map<nat, seq<bool>>, ghost w: Run) returns (buf: seq<bool>)
    requires Ids(w.gs, outs) && forall k | 0 <= k < |outs| :: Draws(w.gs, ClientBits, outs[k])
    requires forall k | 0 <= k < |outs| :: outs[k] in val && val[outs[k]] == Block(w.gs, OutputBits, OutPi(w), outs[k])
    ensures buf == Strung(w.gs, ClientBits, OutPi(w), outs, |outs|)
  {
    buf := [];
    for i := 0 to |outs|
      invariant buf == Strung(w.gs, ClientBits, OutPi(w), outs, i)
    {
      SameBlock(w, outs[i]);
      buf := buf + val[outs[i]];
    }
  }

  lemma SameBlock(w: Run, g: nat)
    requires g < |w.gs| && Draws(w.gs, ClientBits, g)
    ensures Block(w.gs, ClientBits, OutPi(w), g) == Block(w.gs, OutputBits, OutPi(w), g)
  {
  }

  // ----- the online phase, value by value -------------------------------------------------

  /** What the server has collected in a round. */
  datatype Round = Round(perms: nat, keys: seq<Key>, inBits: nat, inGates: seq<nat>, outs: nat, outGates: seq<nat>, outBits: nat)

  /** In the first round, the list of client inputs still holds the entries that garbling made. */
  function Leftover(w: Run, d: nat): seq<nat> {
    if d == 0 then Drawers(w.gs, ClientKeys, Order(w.gs, w.layers), |Order(w.gs, w.layers)|) else []
  }

  /** After i interactive gates of layer d, which stand in the order from position base on. */
  function RoundAt(w: Run, d: nat, base: nat, i: nat): Round
    requires i <= |InteractiveGates(w.gs, d)| && base + i <= |Order(w.gs, w.layers)|
  {
    var q, inter := Order(w.gs, w.layers), InteractiveGates(w.gs, d);
    Round(Drawn(w.gs, ServerKeys, q, base + i), Strung(w.gs, ServerKeys, SentKey(w), inter, i),
          Drawn(w.gs, ClientKeys, inter, i), Leftover(w, d) + Drawers(w.gs, ClientKeys, inter, i),
          |Drawers(w.gs, OutputBits, q, base + i)|, Drawers(w.gs, ServerBits, inter, i), Drawn(w.gs, ServerBits, inter, i))
  }

  /** What one more gate adds. */
  function RoundEntered(w: Run, r: Round, g: nat): Round
    requires g < |w.gs|
  {
    Round(r.perms + Amount(w.gs, ServerKeys, g), r.keys + Block(w.gs, ServerKeys, SentKey(w), g),
          r.inBits + Amount(w.gs, ClientKeys, g), r.inGates + (if Draws(w.gs, ClientKeys, g) then [g] else []),
          r.outs + (if w.gs[g].op.Out? then 1 else 0), r.outGates + (if Draws(w.gs, ServerBits, g) then [g] else []),
          r.outBits + Amount(w.gs, ServerBits, g))
  }

  lemma RoundStep(w: Run, d: nat, base: nat, i: nat)
    requires Slice(w.gs, w.layers, InteractiveGates(w.gs, d), base) && i < |InteractiveGates(w.gs, d)|
    ensures RoundEntered(w, RoundAt(w, d, base, i), InteractiveGates(w.gs, d)[i]) == RoundAt(w, d, base, i + 1)
  {
    SliceAt(w.gs, w.layers, InteractiveGates(w.gs, d), base, i);
  }

  lemma RoundPlace(w: Run, d: nat, base: nat, i: nat)
    requires Slice(w.gs, w.layers, InteractiveGates(w.gs, d), base) && i < |InteractiveGates(w.gs, d)|
    ensures RoundAt(w, d, base, i).perms == Place(w.gs, w.layers, ServerKeys, InteractiveGates(w.gs, d)[i])
  {
    SlicePlace(w.gs, w.layers, ServerKeys, InteractiveGates(w.gs, d), base, i);
  }

  /** Local gates have nothing to do with the online phase. */
  lemma RoundStart(w: Run, d: nat)
    requires d < w.layers
    ensures InteractiveBase(w, d) <= |Order(w.gs, w.layers)| && |Order(w.gs, d)| <= |Order(w.gs, w.layers)|
    ensures RoundAt(w, d, |Order(w.gs, d)|, 0) == RoundAt(w, d, InteractiveBase(w, d), 0)
  {
    OrderLayer(w.gs, w.layers, d);
    LocalDrawsNone(w, ServerKeys, d);
    LocalDrawsNone(w, OutputBits, d);
  }

  lemma FirstRound(w: Run)
    ensures RoundAt(w, 0, 0, 0) == Round(0, [], 0, Drawers(w.gs, ClientKeys, Order(w.gs, w.layers), |Order(w.gs, w.layers)|), 0, [], 0)
  {
  }

  lemma RoundWhere(w: Run, r: Round, g: nat)
    requires g < |w.gs|
    ensures w.gs[g].op == In(SERVER) ==>
              RoundEntered(w, r, g) == r.(perms := r.perms + w.gs[g].nvals, keys := r.keys + Block(w.gs, ServerKeys, SentKey(w), g))
    ensures w.gs[g].op == In(CLIENT) ==>
              RoundEntered(w, r, g) == r.(inBits := r.inBits + w.gs[g].nvals, inGates := r.inGates + [g])
    ensures w.gs[g].op.Out? ==>
              RoundEntered(w, r, g) == if w.gs[g].op.dst.Includes(SERVER)
                                       then r.(outs := r.outs + 1, outGates := r.outGates + [g], outBits := r.outBits + w.gs[g].nvals)
                                       else r.(outs := r.outs + 1)
  {
    assert w.gs[g].op != In(SERVER) ==> Block(w.gs, ServerKeys, SentKey(w), g) == [];
  }

  /** The destination noted for an output while garbling is found again. */
  lemma DestNoted(w: Run, d: nat, base: nat, i: nat)
    requires Slice(w.gs, w.layers, InteractiveGates(w.gs, d), base) && i < |InteractiveGates(w.gs, d)|
    requires w.gs[InteractiveGates(w.gs, d)[i]].op.Out?
    ensures var dests, k := DestsOf(w.gs, Order(w.gs, w.layers), |Order(w.gs, w.layers)|), RoundAt(w, d, base, i).outs;
            k < |dests| && dests[k] == w.gs[InteractiveGates(w.gs, d)[i]].op.dst
  {
    SliceAt(w.gs, w.layers, InteractiveGates(w.gs, d), base, i);
    DrawersAt(w.gs, OutputBits, Order(w.gs, w.layers), base + i, |Order(w.gs, w.layers)|);
  }

  /** SendServerInputKey: the one key that stands for the input bit. */
  method ServerInputKeys(g: nat, nvals: nat, input: seq<bool>, permBitCtr: nat, secrets: Secrets, ghost w: Run)
    returns (keys: seq<Key>)
    requires Correct(w) && SecretsOf(w, secrets) && g < |w.gs| && nvals == w.gs[g].nvals && w.gs[g].op == In(SERVER)
    requires permBitCtr == Place(w.gs, w.layers, ServerKeys, g)
    requires |input| == nvals && forall t | 0 <= t < nvals :: input[t] == w.inp(g, t)
    ensures keys == Block(w.gs, ServerKeys, SentKey(w), g)
  {
    keys := [];
    for t := 0 to nvals
      invariant |keys| == t && forall k: nat | k < t :: keys[k] == SentKey(w)(g, k)
    {
      SentKeyIs(w, g, t);
      var key := secrets.serverKey(permBitCtr + t);
      keys := keys + [if input[t] != secrets.perm(permBitCtr + t) then Xor(key, secrets.R) else key];
    }
  }

  lemma MaskedIs(w: Run, g: nat, t: nat, which: bool)
    ensures var j := TransferAt(w, g, t);
            Masked(w, which)(g, t) ==
            Xor(if which then w.mask1(j) else w.mask0(j),
                if Correction(w)(g, t) != which then Xor(w.clientKey(j), w.R) else w.clientKey(j))
  {
  }

  /** Both masked keys of a client input bit, swapped if the client's correction asks for it. */
  method MaskPair(g: nat, k: nat, correction: bool, kexIdx: nat, secrets: Secrets, ghost w: Run) returns (key0: Key, key1: Key)
    requires SecretsOf(w, secrets) && kexIdx == TransferAt(w, g, k) && correction == Correction(w)(g, k)
    ensures key0 == Masked(w, false)(g, k) && key1 == Masked(w, true)(g, k)
  {
    MaskedIs(w, g, k, false);
    MaskedIs(w, g, k, true);
    var zero := secrets.clientKey(kexIdx);
    var one := Xor(zero, secrets.R);
    if correction {
      key0, key1 := Xor(secrets.mask0(kexIdx), one), Xor(secrets.mask1(kexIdx), zero);
    } else {
      key0, key1 := Xor(secrets.mask0(kexIdx), zero), Xor(secrets.mask1(kexIdx), one);
    }
  }

  method MaskKeys(g: nat, nvals: nat, corrections: seq<bool>, linbitctr: nat, kexIdx: nat, secrets: Secrets, ghost w: Run)
    returns (keys0: seq<Key>, keys1: seq<Key>)
    requires SecretsOf(w, secrets) && g < |w.gs| && nvals == w.gs[g].nvals && w.gs[g].op == In(CLIENT)
    requires kexIdx == Place(w.gs, w.layers, ClientKeys, g) && linbitctr + nvals <= |corrections|
    requires corrections[linbitctr..linbitctr + nvals] == Block(w.gs, ClientKeys, Correction(w), g)
    ensures keys0 == Block(w.gs, ClientKeys, Masked(w, false), g) && keys1 == Block(w.gs, ClientKeys, Masked(w, true), g)
  {
    keys0, keys1 := [], [];
    ghost var zeros, ones := Masked(w, false), Masked(w, true);
    for k := 0 to nvals
      invariant |keys0| == |keys1| == k
      invariant forall t: nat | t < k :: keys0[t] == zeros(g, t) && keys1[t] == ones(g, t)
    {
      assert corrections[linbitctr + k] == corrections[linbitctr..linbitctr + nvals][k];
      var key0, key1 := MaskPair(g, k, corrections[linbitctr + k], kexIdx + k, secrets, w);
      keys0, keys1 := keys0 + [key0], keys1 + [key1];
    }
  }

  /** The keys of one of them. */
  method DeliverGate(gateid: nat, nvals: nat, corrections: seq<bool>, linbitctr: nat, kexIdx: nat, secrets: Secrets,
                     ghost c: seq<nat>, ghost i: nat, ghost base: nat, ghost w: Run)
    returns (k0: seq<Key>, k1: seq<Key>)
    requires SecretsOf(w, secrets) && Listed(w, c, base) && i < |c| && gateid == c[i] && nvals == w.gs[gateid].nvals
    requires linbitctr == Drawn(w.gs, ClientKeys, c, i) && kexIdx == base + linbitctr
    requires corrections == Strung(w.gs, ClientKeys, Correction(w), c, |c|)
    ensures Strung(w.gs, ClientKeys, Masked(w, false), c, i + 1) == Strung(w.gs, ClientKeys, Masked(w, false), c, i) + k0
    ensures Strung(w.gs, ClientKeys, Masked(w, true), c, i + 1) == Strung(w.gs, ClientKeys, Masked(w, true), c, i) + k1
    ensures Drawn(w.gs, ClientKeys, c, i + 1) == linbitctr + nvals
  {
    assert ListedAt(w, c, base, i);
    StrungSlice(w.gs, ClientKeys, Correction(w), c, i, |c|);
    k0, k1 := MaskKeys(gateid, nvals, corrections, linbitctr, kexIdx, secrets, w);
  }

  /** FinishCircuitLayer, first part: the keys for the gates c, which head the list of client inputs. */
  method DeliverKeys(clientInputGate: seq<nat>, gates: seq<Gate>, clientInBitCtr: nat, corrections: seq<bool>, kexIdx0: nat,
                     secrets: Secrets, ghost c: seq<nat>, ghost w: Run)
    returns (keys0: seq<Key>, keys1: seq<Key>, kexIdx: nat)
    requires SecretsOf(w, secrets) && w.gs == gates && c <= clientInputGate && Listed(w, c, kexIdx0)
    requires clientInBitCtr == Drawn(gates, ClientKeys, c, |c|)
    requires corrections == Strung(gates, ClientKeys, Correction(w), c, |c|)
    ensures keys0 == Strung(gates, ClientKeys, Masked(w, false), c, |c|)
    ensures keys1 == Strung(gates, ClientKeys, Masked(w, true), c, |c|)
    ensures kexIdx == kexIdx0 + clientInBitCtr
  {
    keys0, keys1, kexIdx := [], [], kexIdx0;
    var i, linbitctr := 0, 0;
    while i < |clientInputGate| && linbitctr < clientInBitCtr
      invariant i <= |c| && linbitctr == Drawn(gates, ClientKeys, c, i) && kexIdx == kexIdx0 + linbitctr
      invariant keys0 == Strung(gates, ClientKeys, Masked(w, false), c, i)
      invariant keys1 == Strung(gates, ClientKeys, Masked(w, true), c, i)
      decreases |clientInputGate| - i
    {
      var gateid := clientInputGate[i];
      assert gateid == c[i];
      var k0, k1 := DeliverGate(gateid, gates[gateid].nvals, corrections, linbitctr, kexIdx, secrets, c, i, kexIdx0, w);
      keys0, keys1 := keys0 + k0, keys1 + k1;
      linbitctr, kexIdx, i := linbitctr + gates[gateid].nvals, kexIdx + gates[gateid].nvals, i + 1;
    }
    AllDelivered(w, c, kexIdx0, i);
  }

  /** When all bits have been used, all gates have been served. */
  lemma AllDelivered(w: Run, c: seq<nat>, base: nat, i: nat)
    requires Listed(w, c, base) && i <= |c| && Drawn(w.gs, ClientKeys, c, i) >= Drawn(w.gs, ClientKeys, c, |c|)
    ensures i == |c|
  {
    if i < |c| {
      forall k | 0 <= k < |c|
        ensures Draws(w.gs, ClientKeys, c[k]) && w.gs[c[k]].nvals > 0
      {
        assert ListedAt(w, c, base, k);
      }
      DrawnGrows(w.gs, ClientKeys, c, i, |c|);
    }
  }

  /** They head the list, although entries of the garbling phase may be in front of them or behind. */
  lemma ClientList(w: Run, d: nat)
    requires WellFormed(YAO, w.gs) && d < w.layers
    ensures var c, q := ClientInputs(w, d), InteractiveGates(w.gs, d);
            && c <= Leftover(w, d) + c && Listed(w, c, Drawn(w.gs, ClientKeys, Order(w.gs, d), |Order(w.gs, d)|))
            && Drawn(w.gs, ClientKeys, c, |c|) == Drawn(w.gs, ClientKeys, q, |q|)
            && Drawn(w.gs, ClientKeys, Order(w.gs, d + 1), |Order(w.gs, d + 1)|) ==
               Drawn(w.gs, ClientKeys, Order(w.gs, d), |Order(w.gs, d)|) + Drawn(w.gs, ClientKeys, q, |q|)
  {
    if d == 0 {
      AllInputs(w.gs, ClientKeys, w.layers);
    }
    ClientsListed(w, d);
    DrawersDrawn(w.gs, ClientKeys, InteractiveGates(w.gs, d), |InteractiveGates(w.gs, d)|);
    LayerTotal(w.gs, ClientKeys, d);
  }

  /** The client's corrections, and the masked keys that answer them, in the order of these gates. */
  lemma ClientStrings(w: Run, d: nat)
    ensures var c := ClientInputs(w, d);
            && FromClient(w, d).corrections == Strung(w.gs, ClientKeys, Correction(w), c, |c|)
            && Delivered(w, false, d + 1) == Strung(w.gs, ClientKeys, Masked(w, false), c, |c|)
            && Delivered(w, true, d + 1) == Strung(w.gs, ClientKeys, Masked(w, true), c, |c|)
  {
    var q := InteractiveGates(w.gs, d);
    DrawersStrung(w.gs, ClientKeys, Correction(w), q, |q|);
    DrawersStrung(w.gs, ClientKeys, Masked(w, false), q, |q|);
    DrawersStrung(w.gs, ClientKeys, Masked(w, true), q, |q|);
  }

  /** The outputs that the server learns on a layer; there are bits only if there are outputs. */
  lemma ServerOutputs(w: Run, d: nat)
    requires WellFormed(YAO, w.gs)
    ensures var q := InteractiveGates(w.gs, d);
            var c := Drawers(w.gs, ServerBits, q, |q|);
            && FromClient(w, d).outputs == Strung(w.gs, ServerBits, OutBit(w), c, |c|)
            && (Drawn(w.gs, ServerBits, q, |q|) == 0 ==> c == [] && forall val | OutputsOk(w, d, val) :: OutputsOk(w, d + 1, val))
  {
    var gs, q := w.gs, InteractiveGates(w.gs, d);
    var c := Drawers(gs, ServerBits, q, |q|);
    DrawersStrung(gs, ServerBits, OutBit(w), q, |q|);
    DrawersDrawn(gs, ServerBits, q, |q|);
    if Drawn(gs, ServerBits, q, |q|) == 0 {
      forall k | 0 <= k < |c|
        ensures Draws(gs, ServerBits, c[k]) && gs[c[k]].nvals > 0
      {
        assert GateOk(YAO, gs, c[k]);
      }
      NothingDrawn(gs, ServerBits, c);
      NoOutputs(w, d);
    }
  }

  lemma NoOutputs(w: Run, d: nat)
    requires Drawers(w.gs, ServerBits, InteractiveGates(w.gs, d), |InteractiveGates(w.gs, d)|) == []
    ensures forall val | OutputsOk(w, d, val) :: OutputsOk(w, d + 1, val)
  {
    ghost var next := d + 1;
    forall val, g: nat | OutputsOk(w, d, val)
      ensures OutputOk(w, next, val, g)
    {
      OutGateListed(w.gs, d, g);
      assert OutputOk(w, d, val, g);
    }
  }

  /** How far the counters of the whole run are. */
  lemma RoundMoved(w: Run, d: nat, base: nat, m: nat, n: nat)
    requires n == base + m <= |Order(w.gs, w.layers)| && m <= |InteractiveGates(w.gs, d)|
    ensures RoundAt(w, d, base, m).perms == Drawn(w.gs, ServerKeys, Order(w.gs, w.layers), n)
    ensures RoundAt(w, d, base, m).outs == |Drawers(w.gs, OutputBits, Order(w.gs, w.layers), n)|
  {
  }

  /** An output that the server learns holds the plain value once its layer is done, and the server's bit before. */
  predicate OutputOk(w: Run, d: nat, val: map<nat, seq<bool>>, g: nat) {
    g < |w.gs| && w.gs[g].op.Out? ==>
      g in val && val[g] == Block(w.gs, OutputBits, if Draws(w.gs, ServerBits, g) && w.gs[g].depth < d then OutPlain(w) else OutPi(w), g)
  }

  ghost predicate OutputsOk(w: Run, d: nat, val: map<nat, seq<bool>>) {
    forall g: nat {:trigger OutputOk(w, d, val, g)} :: OutputOk(w, d, val, g)
  }

  /** AssignOutputShares: the client's bits are added. */
  method AssignOutputs(val0: map<nat, seq<bool>>, outGates: seq<nat>, gates: seq<Gate>, rcvBuf: seq<bool>, ghost d: nat, ghost w: Run)
    returns (val: map<nat, seq<bool>>)
    requires w.gs == gates && OutputsOk(w, d, val0) && Ids(gates, outGates)
    requires outGates == Drawers(gates, ServerBits, InteractiveGates(gates, d), |InteractiveGates(gates, d)|)
    requires rcvBuf == Strung(gates, ServerBits, OutBit(w), outGates, |outGates|)
    ensures OutputsOk(w, d + 1, val)
  {
    val := val0;
    var offset := 0;
    for i := 0 to |outGates|
      invariant offset == Drawn(gates, ServerBits, outGates, i)
      invariant forall g: nat {:trigger OutputOk(w, d, val, g)} | g !in outGates[..i] :: OutputOk(w, d, val, g)
      invariant forall g: nat {:trigger OutputOk(w, d + 1, val, g)} | g in outGates[..i] :: OutputOk(w, d + 1, val, g)
    {
      ghost var before, next := val, d + 1;
      var g := outGates[i];
      var nvals := gates[g].nvals;
      OutGateDistinct(gates, d, i);
      OutGateDepth(gates, d, i);
      assert OutputOk(w, d, val, g);
      StrungSlice(gates, ServerBits, OutBit(w), outGates, i, |outGates|);
      var plain := AddBits(val[g], rcvBuf[offset..offset + nvals]);
      assert plain == Block(gates, OutputBits, OutPlain(w), g);
      val := val[g := plain];
      offset := offset + nvals;
      assert outGates[..i + 1] == outGates[..i] + [g];
      forall h: nat | h !in outGates[..i + 1]
        ensures OutputOk(w, d, val, h)
      {
        assert OutputOk(w, d, before, h);
      }
      forall h: nat | h in outGates[..i + 1]
        ensures OutputOk(w, next, val, h)
      {
        assert h != g ==> OutputOk(w, next, before, h);
      }
    }
    assert outGates[..|outGates|] == outGates;
    ghost var next := d + 1;
    forall g: nat
      ensures OutputOk(w, next, val, g)
    {
      OutGateListed(gates, d, g);
      assert g !in outGates ==> OutputOk(w, d, val, g);
    }
  }

  method AddBits(own: seq<bool>, received: seq<bool>) returns (sum: seq<bool>)
    requires |own| == |received|
    ensures |sum| == |own| && forall j | 0 <= j < |own| :: sum[j] == (own[j] != received[j])
  {
    sum := [];
    for j := 0 to |own|
      invariant |sum| == j && forall k: nat | k < j :: sum[k] == (own[k] != received[k])
    {
      sum := sum + [own[j] != received[j]];
    }
  }

  /** No output of a layer is listed twice, and each one is on this layer. */
  lemma OutGateDistinct(gs: seq<Gate>, d: nat, i: nat)
    requires i < |Drawers(gs, ServerBits, InteractiveGates(gs, d), |InteractiveGates(gs, d)|)|
    ensures var q := Drawers(gs, ServerBits, InteractiveGates(gs, d), |InteractiveGates(gs, d)|); q[i] !in q[..i]
  {
    var inter := InteractiveGates(gs, d);
    var n := DrawerIndex(gs, ServerBits, inter, |inter|, i);
    var q := Drawers(gs, ServerBits, inter, |inter|);
    if q[i] in q[..i] {
      var j :| 0 <= j < i && q[j] == q[i];
      var m := DrawerIndex(gs, ServerBits, inter, n, j);
      QueueAscending(gs, true, d, |gs|, m, n);
      assert false;
    }
  }

  lemma OutGateDepth(gs: seq<Gate>, d: nat, i: nat)
    requires i < |Drawers(gs, ServerBits, InteractiveGates(gs, d), |InteractiveGates(gs, d)|)|
    ensures gs[Drawers(gs, ServerBits, InteractiveGates(gs, d), |InteractiveGates(gs, d)|)[i]].depth == d
  {
    var n := DrawerIndex(gs, ServerBits, InteractiveGates(gs, d), |InteractiveGates(gs, d)|, i);
  }

  lemma OutGateListed(gs: seq<Gate>, d: nat, g: nat)
    ensures g < |gs| && Draws(gs, ServerBits, g) && gs[g].depth == d ==>
              g in Drawers(gs, ServerBits, InteractiveGates(gs, d), |InteractiveGates(gs, d)|)
  {
    var inter := InteractiveGates(gs, d);
    if g < |gs| && Draws(gs, ServerBits, g) && gs[g].depth == d {
      QueueMembers(YAO, gs, true, d, |gs|, g);
      var i :| 0 <= i < |inter| && inter[i] == g;
      DrawersAt(gs, ServerBits, inter, i, |inter|);
    }
  }

  /** What the garbler's state consists of between its steps. */
  datatype Part = Collected | Unchanged | Waiting

  datatype Stage = Stored | Entries

  class YaoServer {
    const gates: seq<Gate>
    const localQueueOnLvl: seq<seq<nat>>
    const interactiveQueueOnLvl: seq<seq<nat>>
    const maxDepth: nat
    const clientOutputGates: seq<nat>
    const inputs: map<nat, seq<bool>>
    const secrets: Secrets
    const enc: (Key, nat) -> Key
    const pad: (Key, Key, nat) -> Key

    var outKey: map<nat, seq<Key>>
    var pi: map<nat, seq<bool>>
    var val: map<nat, seq<bool>>
    var garbledCircuit: seq<HalfGates>
    var garbledTableCtr: nat
    var universalGateTable: seq<Rows>
    var permBitCtr: nat
    var clientInBitCtr: nat
    var clientInputGate: seq<nat>
    var outputDestinations: seq<Dest>
    var outputDestinationsCtr: nat
    var outputShareSndBuf: seq<bool>

    var serverKeySndBuf: seq<Key>
    var clientInputKexIdx: nat
    var clientKeySndBuf0: seq<Key>
    var clientKeySndBuf1: seq<Key>
    var clientROTRcvBuf: seq<bool>
    var serverOutputGates: seq<nat>
    var outputShareRcvCtr: nat
    var outputShareRcvBuf: seq<bool>

    ghost const w: Run

    /** The circuit, the server's inputs and its random values are those of the run. */
    ghost predicate Setup() {
      && Correct(w) && w.gs == gates && w.layers == maxDepth && SecretsOf(w, secrets) && w.enc == enc && w.pad == pad
      && Queued(gates, localQueueOnLvl, interactiveQueueOnLvl, maxDepth) && OwnInputs(w, SERVER, inputs)
      && clientOutputGates == Built(gates, ClientBits, |gates|)
    }

    constructor (gs: seq<Gate>, localQueues: seq<seq<nat>>, interactiveQueues: seq<seq<nat>>, layers: nat, outputs: seq<nat>,
                 values: map<nat, seq<bool>>, s: Secrets, encrypt: (Key, nat) -> Key, encryptGRR3: (Key, Key, nat) -> Key, ghost run: Run)
      requires Correct(run) && run.gs == gs && run.layers == layers && SecretsOf(run, s) && run.enc == encrypt && run.pad == encryptGRR3
      requires Queued(gs, localQueues, interactiveQueues, layers) && OwnInputs(run, SERVER, values)
      requires outputs == Built(gs, ClientBits, |gs|)
      ensures w == run && gates == gs && maxDepth == layers && clientOutputGates == outputs && Setup() && Fresh()
    {
      gates, localQueueOnLvl, interactiveQueueOnLvl, maxDepth := gs, localQueues, interactiveQueues, layers;
      clientOutputGates, inputs, secrets, enc, pad, w := outputs, values, s, encrypt, encryptGRR3, run;
      outKey, pi, val, garbledCircuit, garbledTableCtr, universalGateTable := map[], map[], map[], [], 0, [];
      permBitCtr, clientInBitCtr, clientInputGate, outputDestinations, outputDestinationsCtr := 0, 0, [], [], 0;
      outputShareSndBuf, serverKeySndBuf, clientInputKexIdx, clientKeySndBuf0, clientKeySndBuf1 := [], [], 0, [], [];
      clientROTRcvBuf, serverOutputGates, outputShareRcvCtr, outputShareRcvBuf := [], [], 0, [];
    }

    /** All operands of a gate have been garbled. */
    ghost predicate OperandsGarbled(g: nat)
      reads this`outKey, this`pi, this`val
    {
      && g < |gates|
      && forall k {:trigger Parents(gates[g].op)[k]} | 0 <= k < |Parents(gates[g].op)| ::
           var p := Parents(gates[g].op)[k];
           p < |gates| && !gates[p].op.Out? && gates[p].nvals >= gates[g].nvals && GarbledAt(w, outKey, pi, val, p)
    }

    // ----- garbling one gate --------------------------------------------------------------

    lemma OperandKeys(gateid: nat, k: nat)
      requires Setup() && OperandsGarbled(gateid) && k < |Parents(gates[gateid].op)|
      ensures var p := Parents(gates[gateid].op)[k];
              && p < |gates| && p in outKey && p in pi && WiresOf(w, p, gates[gateid].nvals, outKey[p], pi[p])
    {
      assert GarbledAt(w, outKey, pi, val, Parents(gates[gateid].op)[k]);
    }

    method EvaluateXORGate(gateid: nat)
      requires Setup() && OperandsGarbled(gateid) && gates[gateid].op.Lin?
      modifies this`outKey, this`pi
      ensures outKey == old(outKey)[gateid := KeysOf(w, gateid)] && pi == old(pi)[gateid := PisOf(w, gateid)]
    {
      var idleft, idright := gates[gateid].op.left, gates[gateid].op.right;
      OperandKeys(gateid, 0);
      OperandKeys(gateid, 1);
      var keys, pis := GarbleXor(gateid, gates[gateid].nvals, outKey[idleft], outKey[idright], pi[idleft], pi[idright], w);
      outKey, pi := outKey[gateid := keys], pi[gateid := pis];
    }

    method EvaluateInversionGate(gateid: nat)
      requires Setup() && OperandsGarbled(gateid) && gates[gateid].op.Inv?
      modifies this`outKey, this`pi
      ensures outKey == old(outKey)[gateid := KeysOf(w, gateid)] && pi == old(pi)[gateid := PisOf(w, gateid)]
    {
      var parentid := gates[gateid].op.parent;
      OperandKeys(gateid, 0);
      var keys, pis := GarbleInversion(gateid, gates[gateid].nvals, outKey[parentid], pi[parentid], w);
      outKey, pi := outKey[gateid := keys], pi[gateid := pis];
    }

    method EvaluateConstantGate(gateid: nat)
      requires Setup() && gateid < |gates| && gates[gateid].op.Constant?
      modifies this`outKey, this`pi
      ensures outKey == old(outKey)[gateid := KeysOf(w, gateid)] && pi == old(pi)[gateid := PisOf(w, gateid)]
    {
      var keys, pis := GarbleConstant(gateid, gates[gateid].nvals, gates[gateid].op.value, secrets.kappa, w);
      outKey, pi := outKey[gateid := keys], pi[gateid := pis];
    }

    method EvaluateInputGate(gateid: nat)
      requires Setup() && gateid < |gates| && gates[gateid].op.In?
      requires permBitCtr == Place(gates, maxDepth, ServerKeys, gateid)
      requires clientInBitCtr == Place(gates, maxDepth, ClientKeys, gateid)
      modifies this`outKey, this`pi, this`permBitCtr, this`clientInBitCtr, this`clientInputGate
      ensures outKey == old(outKey)[gateid := KeysOf(w, gateid)] && pi == old(pi)[gateid := PisOf(w, gateid)]
      ensures permBitCtr == old(permBitCtr) + if gates[gateid].op.src.SERVER? then gates[gateid].nvals else 0
      ensures clientInBitCtr == old(clientInBitCtr) + if gates[gateid].op.src.CLIENT? then gates[gateid].nvals else 0
      ensures clientInputGate == if gates[gateid].op.src.CLIENT? then old(clientInputGate) + [gateid] else old(clientInputGate)
    {
      var nvals := gates[gateid].nvals;
      var keys, pis;
      if gates[gateid].op.src.SERVER? {
        keys, pis := GarbleServerInput(gateid, nvals, permBitCtr, secrets, w);
        permBitCtr := permBitCtr + nvals;
      } else {
        keys, pis := GarbleClientInput(gateid, nvals, clientInBitCtr, secrets, w);
        clientInBitCtr := clientInBitCtr + nvals;
        clientInputGate := clientInputGate + [gateid];
      }
      outKey, pi := outKey[gateid := keys], pi[gateid := pis];
    }

    method EvaluateANDGate(gateid: nat)
      requires Setup() && OperandsGarbled(gateid) && gates[gateid].op.NonLin?
      requires garbledTableCtr == |garbledCircuit| == Place(gates, maxDepth, AndTables, gateid)
      modifies this`outKey, this`pi, this`garbledCircuit, this`garbledTableCtr
      ensures outKey == old(outKey)[gateid := KeysOf(w, gateid)] && pi == old(pi)[gateid := PisOf(w, gateid)]
      ensures garbledCircuit == old(garbledCircuit) + Block(gates, AndTables, AndRows(w), gateid)
      ensures garbledTableCtr == |garbledCircuit|
    {
      var idleft, idright, nvals := gates[gateid].op.left, gates[gateid].op.right, gates[gateid].nvals;
      OperandKeys(gateid, 0);
      OperandKeys(gateid, 1);
      var keys, pis, rows := GarbleAnds(gateid, nvals, outKey[idleft], outKey[idright], pi[idleft], pi[idright],
                                        garbledTableCtr, enc, secrets.R, w);
      garbledCircuit, garbledTableCtr := garbledCircuit + rows, garbledTableCtr + nvals;
      outKey, pi := outKey[gateid := keys], pi[gateid := pis];
    }

    method EvaluateUniversalGate(gateid: nat)
      requires Setup() && OperandsGarbled(gateid) && gates[gateid].op.Univ?
      modifies this`outKey, this`pi, this`universalGateTable
      ensures outKey == old(outKey)[gateid := KeysOf(w, gateid)] && pi == old(pi)[gateid := PisOf(w, gateid)]
      ensures universalGateTable == old(universalGateTable) + Block(gates, UnivTables, UnivRows(w), gateid)
    {
      var idleft, idright := gates[gateid].op.left, gates[gateid].op.right;
      OperandKeys(gateid, 0);
      OperandKeys(gateid, 1);
      var keys, pis, rows := GarbleUnivs(gateid, gates[gateid].nvals, outKey[idleft], outKey[idright], pi[idleft], pi[idright],
                                         gates[gateid].op.table, pad, secrets.R, w);
      universalGateTable := universalGateTable + rows;
      outKey, pi := outKey[gateid := keys], pi[gateid := pis];
    }

    /** The permutation bits of an output are kept for the online phase. */
    method EvaluateOutputGate(gateid: nat)
      requires Setup() && OperandsGarbled(gateid) && gates[gateid].op.Out?
      modifies this`val, this`outputDestinations
      ensures val == old(val)[gateid := Block(gates, OutputBits, OutPi(w), gateid)]
      ensures outputDestinations == old(outputDestinations) + [gates[gateid].op.dst]
    {
      var parentid := gates[gateid].op.parent;
      OperandKeys(gateid, 0);
      outputDestinations := outputDestinations + [gates[gateid].op.dst];
      var v := pi[parentid][..gates[gateid].nvals];
      assert v == Block(gates, OutputBits, OutPi(w), gateid);
      val := val[gateid := v];
    }

    ghost function Books(): Ledger
      reads this`outputDestinations, this`garbledCircuit, this`universalGateTable, this`permBitCtr, this`clientInBitCtr,
            this`clientInputGate
    {
      Ledger(garbledCircuit, universalGateTable, permBitCtr, clientInBitCtr, clientInputGate, outputDestinations)
    }

    /** A gate without a table. */
    method EvaluateFreeGate(gateid: nat)
      requires Setup() && OperandsGarbled(gateid)
      requires gates[gateid].op.Lin? || gates[gateid].op.Inv? || gates[gateid].op.Constant?
      modifies this`outKey, this`pi
      ensures outKey == old(outKey)[gateid := KeysOf(w, gateid)] && pi == old(pi)[gateid := PisOf(w, gateid)]
    {
      if gates[gateid].op.Lin? {
        EvaluateXORGate(gateid);
      } else if gates[gateid].op.Inv? {
        EvaluateInversionGate(gateid);
      } else {
        EvaluateConstantGate(gateid);
      }
    }

    /** A gate with tables. */
    method EvaluateTableGate(gateid: nat)
      requires Setup() && OperandsGarbled(gateid) && (gates[gateid].op.NonLin? || gates[gateid].op.Univ?)
      requires garbledTableCtr == |garbledCircuit| == Place(gates, maxDepth, AndTables, gateid)
      modifies this`outKey, this`pi, this`garbledCircuit, this`garbledTableCtr, this`universalGateTable
      ensures outKey == old(outKey)[gateid := KeysOf(w, gateid)] && pi == old(pi)[gateid := PisOf(w, gateid)]
      ensures Books() == Entered(w, old(Books()), gateid) && garbledTableCtr == |garbledCircuit|
    {
      EnteredWhere(w, Books(), gateid);
      if gates[gateid].op.NonLin? {
        EvaluateANDGate(gateid);
      } else {
        EvaluateUniversalGate(gateid);
      }
    }

    /** A gate that is a wire: it is stored, and it has drawn what it draws. */
    method EvaluateWireGate(gateid: nat)
      requires Setup() && OperandsGarbled(gateid) && garbledTableCtr == |garbledCircuit| && !gates[gateid].op.Out?
      requires !gates[gateid].op.NonLinVec? && !gates[gateid].op.StructCombine?
      requires garbledTableCtr == Place(gates, maxDepth, AndTables, gateid)
      requires permBitCtr == Place(gates, maxDepth, ServerKeys, gateid)
      requires clientInBitCtr == Place(gates, maxDepth, ClientKeys, gateid)
      modifies this`outKey, this`pi, this`garbledCircuit, this`garbledTableCtr, this`universalGateTable, this`permBitCtr,
               this`clientInBitCtr, this`clientInputGate
      ensures outKey == old(outKey)[gateid := KeysOf(w, gateid)] && pi == old(pi)[gateid := PisOf(w, gateid)]
      ensures Books() == Entered(w, old(Books()), gateid) && garbledTableCtr == |garbledCircuit|
    {
      EnteredWhere(w, Books(), gateid);
      if gates[gateid].op.NonLin? || gates[gateid].op.Univ? {
        EvaluateTableGate(gateid);
      } else if gates[gateid].op.In? {
        EvaluateInputGate(gateid);
      } else {
        EvaluateFreeGate(gateid);
      }
    }

    /** Any gate. */
    method EvaluateGate(gateid: nat)
      requires Setup() && OperandsGarbled(gateid) && garbledTableCtr == |garbledCircuit|
      requires !gates[gateid].op.NonLinVec? && !gates[gateid].op.StructCombine?
      requires garbledTableCtr == Place(gates, maxDepth, AndTables, gateid)
      requires permBitCtr == Place(gates, maxDepth, ServerKeys, gateid)
      requires clientInBitCtr == Place(gates, maxDepth, ClientKeys, gateid)
      modifies this`outKey, this`pi, this`val, this`outputDestinations, this`garbledCircuit, this`garbledTableCtr,
               this`universalGateTable, this`permBitCtr, this`clientInBitCtr, this`clientInputGate
      ensures outKey == if gates[gateid].op.Out? then old(outKey) else old(outKey)[gateid := KeysOf(w, gateid)]
      ensures pi == if gates[gateid].op.Out? then old(pi) else old(pi)[gateid := PisOf(w, gateid)]
      ensures val == if gates[gateid].op.Out? then old(val)[gateid := Block(gates, OutputBits, OutPi(w), gateid)] else old(val)
      ensures Books() == Entered(w, old(Books()), gateid) && garbledTableCtr == |garbledCircuit|
    {
      if gates[gateid].op.Out? {
        EnteredWhere(w, Books(), gateid);
        EvaluateOutputGate(gateid);
      } else {
        EvaluateWireGate(gateid);
      }
    }

    // ----- garbling the circuit -----------------------------------------------------------

    /** The first i gates of the order have been garbled. */
    ghost predicate Garbled(i: nat)
      reads this`outKey, this`pi, this`val, this`outputDestinations, this`garbledCircuit, this`garbledTableCtr,
            this`universalGateTable, this`permBitCtr, this`clientInBitCtr, this`clientInputGate
    {
      forall stage {:trigger GarbledStage(stage, i)} :: GarbledStage(stage, i)
    }

    ghost predicate GarbledStage(stage: Stage, i: nat)
      reads this`outKey, this`pi, this`val, this`outputDestinations, this`garbledCircuit, this`garbledTableCtr,
            this`universalGateTable, this`permBitCtr, this`clientInBitCtr, this`clientInputGate
    {
      match stage
      case Stored => StoreOk(w, i, outKey, pi, val)
      case Entries => i <= |Order(w.gs, w.layers)| && Books() == LedgerAt(w, i) && garbledTableCtr == |garbledCircuit|
    }

    lemma GarbledStages(i: nat)
      requires Garbled(i)
      ensures GarbledStage(Stored, i) && GarbledStage(Entries, i)
    {
    }

    lemma OperandsReady(i: nat)
      requires Setup() && i < |Order(gates, maxDepth)| && StoreOk(w, i, outKey, pi, val)
      ensures OperandsGarbled(Order(gates, maxDepth)[i])
    {
      var q := Order(gates, maxDepth);
      var g := q[i];
      assert GateOk(YAO, gates, g);
      forall k | 0 <= k < |Parents(gates[g].op)|
        ensures var p := Parents(gates[g].op)[k];
                p < |gates| && !gates[p].op.Out? && gates[p].nvals >= gates[g].nvals && GarbledAt(w, outKey, pi, val, p)
      {
        var p := Parents(gates[g].op)[k];
        OperandsVisited(gates, maxDepth, i, p);
        var j :| 0 <= j < i && q[j] == p;
        OperandLocal(gates, g, p);
      }
    }

    /** One gate of PrecomputeGC. */
    method GarbleGate(gateid: nat, ghost i: nat)
      requires Setup() && i < |Order(gates, maxDepth)| && gateid == Order(gates, maxDepth)[i] && Garbled(i)
      modifies this`outKey, this`pi, this`val, this`outputDestinations, this`garbledCircuit, this`garbledTableCtr,
               this`universalGateTable, this`permBitCtr, this`clientInBitCtr, this`clientInputGate
      ensures Garbled(i + 1)
    {
      GarbledStages(i);
      OperandsReady(i);
      LedgerStep(w, i);
      StoreStep(w, i, outKey, pi, val, gateid);
      EvaluateGate(gateid);
      ghost var next := i + 1;
      forall stage
        ensures GarbledStage(stage, next)
      {
      }
    }

    method PrecomputeGC(queue: seq<nat>, ghost base: nat, ghost end: nat)
      requires Setup() && Slice(gates, maxDepth, queue, base) && end == base + |queue| && Garbled(base)
      modifies this`outKey, this`pi, this`val, this`outputDestinations, this`garbledCircuit, this`garbledTableCtr,
               this`universalGateTable, this`permBitCtr, this`clientInBitCtr, this`clientInputGate
      ensures Garbled(end)
    {
      for i := 0 to |queue|
        invariant Garbled(base + i)
      {
        GarbleNext(queue, base, i);
      }
    }

    method GarbleNext(queue: seq<nat>, ghost base: nat, i: nat)
      requires Setup() && Slice(gates, maxDepth, queue, base) && i < |queue| && Garbled(base + i)
      modifies this`outKey, this`pi, this`val, this`outputDestinations, this`garbledCircuit, this`garbledTableCtr,
               this`universalGateTable, this`permBitCtr, this`clientInBitCtr, this`clientInputGate
      ensures Garbled(base + i + 1)
    {
      SliceAt(gates, maxDepth, queue, base, i);
      GarbleGate(queue[i], base + i);
    }

    /** CreateAndSendGarbledCircuit: all layers, and then the bits for the client's outputs. */
    method CreateGarbledCircuit()
      requires Setup() && Fresh()
      modifies this`outKey, this`pi, this`val, this`outputDestinations, this`garbledCircuit, this`garbledTableCtr,
               this`universalGateTable, this`permBitCtr, this`clientInBitCtr, this`clientInputGate, this`outputShareSndBuf
      ensures Garbling(w) && OutputsOk(w, 0, val) && Listed()
    {
      for i := 0 to maxDepth
        invariant Garbled(|Order(gates, i)|)
      {
        GarbleLocalQueue(i);
        GarbleInteractiveQueue(i);
      }
      CollectClientOutputShares();
      GarbledStages(|Order(gates, maxDepth)|);
      OutputsGarbled();
    }

    /** What the client receives in the setup phase. */
    ghost predicate Garbling(run: Run)
      reads this`garbledCircuit, this`universalGateTable, this`outputShareSndBuf
    {
      var q, outs := Order(run.gs, run.layers), Built(run.gs, ClientBits, |run.gs|);
      && garbledCircuit == Strung(run.gs, AndTables, AndRows(run), q, |q|)
      && universalGateTable == Strung(run.gs, UnivTables, UnivRows(run), q, |q|)
      && outputShareSndBuf == Strung(run.gs, ClientBits, OutPi(run), outs, |outs|)
    }

    ghost predicate Fresh()
      reads this
    {
      Books() == LedgerAt(w, 0) && garbledTableCtr == 0
    }

    method GarbleLocalQueue(i: nat)
      requires Setup() && i < maxDepth && Garbled(|Order(gates, i)|)
      modifies this`outKey, this`pi, this`val, this`outputDestinations, this`garbledCircuit, this`garbledTableCtr,
               this`universalGateTable, this`permBitCtr, this`clientInBitCtr, this`clientInputGate
      ensures Garbled(InteractiveBase(w, i))
    {
      LayerSlices(gates, maxDepth, i);
      QueueIs(gates, false, localQueueOnLvl, i);
      PrecomputeGC(QueueOnLvl(localQueueOnLvl, i), |Order(gates, i)|, InteractiveBase(w, i));
    }

    method GarbleInteractiveQueue(i: nat)
      requires Setup() && i < maxDepth && Garbled(InteractiveBase(w, i))
      modifies this`outKey, this`pi, this`val, this`outputDestinations, this`garbledCircuit, this`garbledTableCtr,
               this`universalGateTable, this`permBitCtr, this`clientInBitCtr, this`clientInputGate
      ensures Garbled(|Order(gates, i + 1)|)
    {
      var queue := InteractiveQueue(i);
      PrecomputeGC(queue, InteractiveBase(w, i), |Order(gates, i + 1)|);
    }

    method InteractiveQueue(i: nat) returns (queue: seq<nat>)
      requires Setup() && i < maxDepth
      ensures queue == InteractiveGates(gates, i) && Slice(gates, maxDepth, queue, InteractiveBase(w, i))
      ensures |Order(gates, i + 1)| == InteractiveBase(w, i) + |queue|
    {
      LayerSlices(gates, maxDepth, i);
      QueueIs(gates, true, interactiveQueueOnLvl, i);
      queue := QueueOnLvl(interactiveQueueOnLvl, i);
    }

    /** The permutation bits of the client's outputs, in the order in which the outputs were built. */
    method CollectClientOutputShares()
      requires Setup() && Garbled(|Order(gates, maxDepth)|)
      modifies this`outputShareSndBuf
      ensures outputShareSndBuf == Strung(gates, ClientBits, OutPi(w), clientOutputGates, |clientOutputGates|)
    {
      OutputsStored();
      outputShareSndBuf := CollectShares(clientOutputGates, val, w);
    }

    lemma OutputsStored()
      requires Setup() && Garbled(|Order(gates, maxDepth)|)
      ensures forall g: nat | g < |gates| && gates[g].op.Out? :: g in val && val[g] == Block(w.gs, OutputBits, OutPi(w), g)
    {
      GarbledStages(|Order(gates, maxDepth)|);
      forall g: nat | g < |gates| && gates[g].op.Out?
        ensures g in val && val[g] == Block(w.gs, OutputBits, OutPi(w), g)
      {
        AllGarbled(g);
      }
    }

    lemma AllGarbled(g: nat)
      requires Setup() && g < |gates| && StoreOk(w, |Order(gates, maxDepth)|, outKey, pi, val)
      ensures GarbledAt(w, outKey, pi, val, g)
    {
      LayersCover(gates, localQueueOnLvl, interactiveQueueOnLvl, maxDepth, g);
      var k :| 0 <= k < |Order(gates, maxDepth)| && Order(gates, maxDepth)[k] == g;
    }

    // ----- the online phase ---------------------------------------------------------------

    ghost function RoundBooks(): Round
      reads this`permBitCtr, this`serverKeySndBuf, this`clientInBitCtr, this`clientInputGate, this`outputDestinationsCtr,
            this`serverOutputGates, this`outputShareRcvCtr
    {
      Round(permBitCtr, serverKeySndBuf, clientInBitCtr, clientInputGate, outputDestinationsCtr, serverOutputGates, outputShareRcvCtr)
    }

    /** What stays as it is while a layer's gates are gone through. */
    ghost predicate Kept(d: nat)
      reads this`outputDestinations, this`clientInputKexIdx, this`val
    {
      && outputDestinations == DestsOf(w.gs, Order(w.gs, w.layers), |Order(w.gs, w.layers)|)
      && clientInputKexIdx == Drawn(w.gs, ClientKeys, Order(w.gs, d), |Order(w.gs, d)|)
      && OutputsOk(w, d, val)
    }

    /** The masked keys of the previous layer wait to be sent. */
    ghost predicate KeysWait(d: nat)
      reads this`clientKeySndBuf0, this`clientKeySndBuf1
    {
      clientKeySndBuf0 == Delivered(w, false, d) && clientKeySndBuf1 == Delivered(w, true, d)
    }

    ghost predicate LayerStart(d: nat)
      reads this
    {
      forall part {:trigger StartPart(part, d)} :: StartPart(part, d)
    }

    ghost predicate StartPart(part: Part, d: nat)
      reads this
    {
      match part
      case Collected =>
        && d <= w.layers && |Order(w.gs, d)| <= |Order(w.gs, w.layers)|
        && RoundBooks() == RoundAt(w, d, |Order(w.gs, d)|, 0)
      case Unchanged => Kept(d)
      case Waiting => KeysWait(d)
    }

    /** The first i interactive gates of layer d have been gone through. */
    ghost predicate Opened(d: nat, i: nat)
      reads this`permBitCtr, this`serverKeySndBuf, this`clientInBitCtr, this`clientInputGate, this`outputDestinationsCtr,
            this`serverOutputGates, this`outputShareRcvCtr, this`outputDestinations, this`clientInputKexIdx, this`val
    {
      forall part {:trigger OpenedPart(part, d, i)} :: OpenedPart(part, d, i)
    }

    ghost predicate OpenedPart(part: Part, d: nat, i: nat)
      reads this`permBitCtr, this`serverKeySndBuf, this`clientInBitCtr, this`clientInputGate, this`outputDestinationsCtr,
            this`serverOutputGates, this`outputShareRcvCtr, this`outputDestinations, this`clientInputKexIdx, this`val
    {
      match part
      case Collected =>
        && i <= |InteractiveGates(w.gs, d)| && InteractiveBase(w, d) + i <= |Order(w.gs, w.layers)|
        && RoundBooks() == RoundAt(w, d, InteractiveBase(w, d), i)
      case Unchanged => Kept(d)
      case Waiting => true
    }

    /** PrepareOnlinePhase and the reset of the destination counter; the list of client inputs is kept. */
    method PrepareOnlinePhase()
      requires Setup() && OutputsOk(w, 0, val) && Listed()
      modifies this`clientInBitCtr, this`permBitCtr, this`outputDestinationsCtr, this`serverKeySndBuf, this`serverOutputGates,
               this`outputShareRcvCtr, this`clientInputKexIdx, this`clientKeySndBuf0, this`clientKeySndBuf1
      ensures LayerStart(0)
    {
      ResetCounters();
      AtStart();
    }

    method ResetCounters()
      modifies this`clientInBitCtr, this`permBitCtr, this`outputDestinationsCtr, this`serverKeySndBuf, this`serverOutputGates,
               this`outputShareRcvCtr, this`clientInputKexIdx, this`clientKeySndBuf0, this`clientKeySndBuf1
      ensures RoundBooks() == Round(0, [], 0, clientInputGate, 0, [], 0) && clientInputKexIdx == 0
      ensures clientKeySndBuf0 == clientKeySndBuf1 == []
    {
      clientInBitCtr, permBitCtr, outputDestinationsCtr, clientInputKexIdx := 0, 0, 0, 0;
      serverKeySndBuf, serverOutputGates, outputShareRcvCtr := [], [], 0;
      clientKeySndBuf0, clientKeySndBuf1 := [], [];
    }

    /** What garbling leaves behind for the online phase. */
    ghost predicate Listed()
      reads this`outputDestinations, this`clientInputGate
    {
      && outputDestinations == DestsOf(w.gs, Order(w.gs, w.layers), |Order(w.gs, w.layers)|)
      && clientInputGate == Drawers(w.gs, ClientKeys, Order(w.gs, w.layers), |Order(w.gs, w.layers)|)
    }

    lemma AtStart()
      requires Setup() && OutputsOk(w, 0, val) && Listed()
      requires RoundBooks() == Round(0, [], 0, clientInputGate, 0, [], 0) && clientInputKexIdx == 0
      requires clientKeySndBuf0 == clientKeySndBuf1 == []
      ensures LayerStart(0)
    {
      FirstRound(w);
      forall part
        ensures StartPart(part, 0)
      {
      }
    }

    lemma OutputsGarbled()
      requires Setup() && Garbled(|Order(gates, maxDepth)|)
      ensures OutputsOk(w, 0, val) && Listed()
    {
      GarbledStages(|Order(gates, maxDepth)|);
      forall g: nat
        ensures OutputOk(w, 0, val, g)
      {
        if g < |gates| {
          AllGarbled(g);
        }
      }
    }

    method SendServerInputKey(gateid: nat)
      requires Setup() && gateid < |gates| && gates[gateid].op == In(SERVER)
      requires permBitCtr == Place(gates, maxDepth, ServerKeys, gateid)
      modifies this`permBitCtr, this`serverKeySndBuf
      ensures permBitCtr == old(permBitCtr) + gates[gateid].nvals
      ensures serverKeySndBuf == old(serverKeySndBuf) + Block(gates, ServerKeys, SentKey(w), gateid)
    {
      var keys := ServerInputKeys(gateid, gates[gateid].nvals, inputs[gateid], permBitCtr, secrets, w);
      serverKeySndBuf, permBitCtr := serverKeySndBuf + keys, permBitCtr + gates[gateid].nvals;
    }

    method EvaluateInteractiveGate(gateid: nat)
      requires Setup() && gateid < |gates| && Interactive(YAO, gates[gateid].op)
      requires permBitCtr == Place(gates, maxDepth, ServerKeys, gateid)
      requires gates[gateid].op.Out? ==>
                 outputDestinationsCtr < |outputDestinations| && outputDestinations[outputDestinationsCtr] == gates[gateid].op.dst
      modifies this`permBitCtr, this`serverKeySndBuf, this`clientInBitCtr, this`clientInputGate, this`outputDestinationsCtr,
               this`serverOutputGates, this`outputShareRcvCtr
      ensures RoundBooks() == RoundEntered(w, old(RoundBooks()), gateid)
    {
      RoundWhere(w, RoundBooks(), gateid);
      if gates[gateid].op.In? {
        if gates[gateid].op.src.SERVER? {
          SendServerInputKey(gateid);
        } else {
          clientInBitCtr := clientInBitCtr + gates[gateid].nvals;
          clientInputGate := clientInputGate + [gateid];
        }
      } else {
        if outputDestinations[outputDestinationsCtr].Includes(SERVER) {
          serverOutputGates := serverOutputGates + [gateid];
          outputShareRcvCtr := outputShareRcvCtr + gates[gateid].nvals;
        }
        outputDestinationsCtr := outputDestinationsCtr + 1;
      }
    }

    method EvaluateInteractiveOperations(depth: nat)
      requires Setup() && depth < maxDepth && LayerStart(depth)
      modifies this`permBitCtr, this`serverKeySndBuf, this`clientInBitCtr, this`clientInputGate, this`outputDestinationsCtr,
               this`serverOutputGates, this`outputShareRcvCtr
      ensures Opened(depth, |InteractiveGates(w.gs, depth)|)
    {
      var queue := InteractiveQueue(depth);
      OpenFirst(depth);
      OpenAll(queue, depth);
    }

    lemma OpenFirst(d: nat)
      requires Setup() && d < maxDepth && LayerStart(d)
      ensures Opened(d, 0)
    {
      RoundStart(w, d);
      forall part
        ensures OpenedPart(part, d, 0)
      {
        assert StartPart(part, d);
      }
    }

    method OpenAll(queue: seq<nat>, ghost d: nat)
      requires Setup() && Opened(d, 0) && queue == InteractiveGates(gates, d)
      requires Slice(gates, maxDepth, queue, InteractiveBase(w, d))
      modifies this`permBitCtr, this`serverKeySndBuf, this`clientInBitCtr, this`clientInputGate, this`outputDestinationsCtr,
               this`serverOutputGates, this`outputShareRcvCtr
      ensures Opened(d, |InteractiveGates(w.gs, d)|)
    {
      for i := 0 to |queue|
        invariant Opened(d, i)
      {
        OpenNext(queue[i], d, i);
      }
    }

    method OpenNext(gateid: nat, ghost d: nat, ghost i: nat)
      requires Setup() && Opened(d, i) && i < |InteractiveGates(gates, d)| && gateid == InteractiveGates(gates, d)[i]
      requires Slice(gates, maxDepth, InteractiveGates(gates, d), InteractiveBase(w, d))
      modifies this`permBitCtr, this`serverKeySndBuf, this`clientInBitCtr, this`clientInputGate, this`outputDestinationsCtr,
               this`serverOutputGates, this`outputShareRcvCtr
      ensures Opened(d, i + 1)
    {
      OpenedParts(d, i);
      ghost var base, next := InteractiveBase(w, d), i + 1;
      RoundStep(w, d, base, i);
      RoundPlace(w, d, base, i);
      if gates[gateid].op.Out? {
        DestNoted(w, d, base, i);
      }
      EvaluateInteractiveGate(gateid);
      forall part
        ensures OpenedPart(part, d, next)
      {
      }
    }

    lemma OpenedParts(d: nat, i: nat)
      requires Opened(d, i)
      ensures OpenedPart(Collected, d, i) && OpenedPart(Unchanged, d, i)
    {
    }

    // ----- messages -----------------------------------------------------------------------

    method GetDataToSend(ghost d: nat) returns (message: ServerMessage)
      requires Setup() && Opened(d, |InteractiveGates(w.gs, d)|) && KeysWait(d)
      modifies this`clientKeySndBuf0, this`clientKeySndBuf1
      ensures message == FromServer(w, d) && clientKeySndBuf0 == clientKeySndBuf1 == []
    {
      OpenedParts(d, |InteractiveGates(w.gs, d)|);
      message := ServerMessage(serverKeySndBuf, clientKeySndBuf0, clientKeySndBuf1);
      clientKeySndBuf0, clientKeySndBuf1 := [], [];
    }

    /** The sizes the server waits for are those of the client's message. */
    method GetBuffersToReceive(ghost d: nat) returns (corrections: nat, outputs: nat)
      requires Setup() && Opened(d, |InteractiveGates(w.gs, d)|)
      ensures corrections == |FromClient(w, d).corrections| && outputs == |FromClient(w, d).outputs|
    {
      OpenedParts(d, |InteractiveGates(w.gs, d)|);
      corrections, outputs := clientInBitCtr, outputShareRcvCtr;
    }

    method SetReceived(message: ClientMessage)
      modifies this`clientROTRcvBuf, this`outputShareRcvBuf
      ensures clientROTRcvBuf == message.corrections && outputShareRcvBuf == message.outputs
    {
      clientROTRcvBuf, outputShareRcvBuf := message.corrections, message.outputs;
    }

    // ----- finishing a layer --------------------------------------------------------------

    /** The masked keys for the client's inputs, to be sent in the next round. */
    method MaskClientKeys(ghost d: nat)
      requires Setup() && d < maxDepth && Opened(d, |InteractiveGates(w.gs, d)|)
      requires clientROTRcvBuf == FromClient(w, d).corrections && clientKeySndBuf0 == clientKeySndBuf1 == []
      modifies this`clientKeySndBuf0, this`clientKeySndBuf1, this`clientInputKexIdx
      ensures KeysWait(d + 1)
      ensures clientInputKexIdx == Drawn(w.gs, ClientKeys, Order(w.gs, d + 1), |Order(w.gs, d + 1)|)
    {
      InputsNoted(d);
      ClientList(w, d);
      ClientStrings(w, d);
      ghost var c := ClientInputs(w, d);
      if clientInBitCtr > 0 {
        clientKeySndBuf0, clientKeySndBuf1, clientInputKexIdx :=
          DeliverKeys(clientInputGate, gates, clientInBitCtr, clientROTRcvBuf, clientInputKexIdx, secrets, c, w);
      }
    }

    /** The list of client inputs, and how many bits the client sends for them. */
    lemma InputsNoted(d: nat)
      requires Opened(d, |InteractiveGates(w.gs, d)|)
      ensures clientInputGate == Leftover(w, d) + ClientInputs(w, d)
      ensures clientInBitCtr == Drawn(w.gs, ClientKeys, InteractiveGates(w.gs, d), |InteractiveGates(w.gs, d)|)
      ensures clientInputKexIdx == Drawn(w.gs, ClientKeys, Order(w.gs, d), |Order(w.gs, d)|)
    {
      OpenedParts(d, |InteractiveGates(w.gs, d)|);
    }

    method AssignOutputShares(ghost d: nat)
      requires Setup() && OutputsOk(w, d, val)
      requires OutputsDue(d) && outputShareRcvBuf == FromClient(w, d).outputs
      modifies this`val, this`outputShareRcvCtr, this`serverOutputGates
      ensures OutputsOk(w, d + 1, val) && outputShareRcvCtr == 0 && serverOutputGates == []
    {
      ServerOutputs(w, d);
      if outputShareRcvCtr > 0 {
        val := AssignOutputs(val, serverOutputGates, gates, outputShareRcvBuf, d, w);
        outputShareRcvCtr, serverOutputGates := 0, [];
      }
    }

    method FinishCircuitLayer(ghost d: nat)
      requires Setup() && d < maxDepth && Opened(d, |InteractiveGates(w.gs, d)|)
      requires clientROTRcvBuf == FromClient(w, d).corrections && outputShareRcvBuf == FromClient(w, d).outputs
      requires clientKeySndBuf0 == clientKeySndBuf1 == []
      modifies this`clientKeySndBuf0, this`clientKeySndBuf1, this`clientInputKexIdx, this`clientInputGate, this`clientInBitCtr,
               this`val, this`outputShareRcvCtr, this`serverOutputGates, this`serverKeySndBuf
      ensures LayerStart(d + 1)
    {
      OpenedSplit(d);
      FinishInputs(d);
      FinishOutputs(d);
    }

    ghost predicate KexMoved(d: nat)
      reads this`clientInputKexIdx
    {
      clientInputKexIdx == Drawn(w.gs, ClientKeys, Order(w.gs, d), |Order(w.gs, d)|)
    }

    method FinishInputs(ghost d: nat)
      requires Setup() && d < maxDepth && Opened(d, |InteractiveGates(w.gs, d)|)
      requires clientROTRcvBuf == FromClient(w, d).corrections && clientKeySndBuf0 == clientKeySndBuf1 == []
      modifies this`clientKeySndBuf0, this`clientKeySndBuf1, this`clientInputKexIdx, this`clientInputGate, this`clientInBitCtr
      ensures KeysWait(d + 1) && KexMoved(d + 1) && clientInputGate == [] && clientInBitCtr == 0
    {
      MaskClientKeys(d);
      clientInputGate, clientInBitCtr := [], 0;
    }

    method FinishOutputs(ghost d: nat)
      requires Setup() && d < maxDepth && outputShareRcvBuf == FromClient(w, d).outputs
      requires OutputsDue(d) && CountersMoved(|Order(w.gs, d + 1)|) && DestsKept() && OutputsOk(w, d, val)
      requires KeysWait(d + 1) && KexMoved(d + 1) && clientInputGate == [] && clientInBitCtr == 0
      modifies this`val, this`outputShareRcvCtr, this`serverOutputGates, this`serverKeySndBuf
      ensures LayerStart(d + 1)
    {
      AssignOutputShares(d);
      serverKeySndBuf := [];
      Finished(d);
    }

    /** The outputs of layer d whose bits the client sends. */
    ghost predicate OutputsDue(d: nat)
      reads this`serverOutputGates, this`outputShareRcvCtr
    {
      var q := InteractiveGates(w.gs, d);
      serverOutputGates == Drawers(w.gs, ServerBits, q, |q|) && outputShareRcvCtr == Drawn(w.gs, ServerBits, q, |q|)
    }

    ghost predicate CountersMoved(n: nat)
      reads this`permBitCtr, this`outputDestinationsCtr
    {
      && n <= |Order(w.gs, w.layers)| && permBitCtr == Drawn(w.gs, ServerKeys, Order(w.gs, w.layers), n)
      && outputDestinationsCtr == |Drawers(w.gs, OutputBits, Order(w.gs, w.layers), n)|
    }

    ghost predicate DestsKept()
      reads this`outputDestinations
    {
      outputDestinations == DestsOf(w.gs, Order(w.gs, w.layers), |Order(w.gs, w.layers)|)
    }

    lemma OpenedSplit(d: nat)
      requires d < w.layers && Opened(d, |InteractiveGates(w.gs, d)|)
      ensures OutputsDue(d) && CountersMoved(|Order(w.gs, d + 1)|) && DestsKept() && OutputsOk(w, d, val)
    {
      OpenedParts(d, |InteractiveGates(w.gs, d)|);
      LayerEnd(w, d);
      RoundMoved(w, d, InteractiveBase(w, d), |InteractiveGates(w.gs, d)|, |Order(w.gs, d + 1)|);
    }

    lemma Finished(d: nat)
      requires d < w.layers && KeysWait(d + 1) && DestsKept() && OutputsOk(w, d + 1, val) && CountersMoved(|Order(w.gs, d + 1)|)
      requires clientInputKexIdx == Drawn(w.gs, ClientKeys, Order(w.gs, d + 1), |Order(w.gs, d + 1)|)
      requires RoundBooks() == Round(permBitCtr, [], 0, [], outputDestinationsCtr, [], 0)
      ensures LayerStart(d + 1)
    {
      ghost var next, n := d + 1, |Order(w.gs, d + 1)|;
      assert n + 0 == n;
      forall part
        ensures StartPart(part, next)
      {
      }
    }
  }
}
