/** The loops of both roles over the values of a truth-table gate. */
module LutTables {
  import opened Bits
  import opened Words
  import opened LutCircuit
  import opened LutSpec
  import C = Circuit

  type Word = seq<bool>
  /** The answer for one value: an entry for every index. */
  type Entries = seq<Word>

  function XorBits(a: Word, b: Word): (c: Word)
    requires |a| == |b|
    ensures |c| == |a|
  {
    seq(|a|, o requires 0 <= o < |a| => a[o] != b[o])
  }

  // ----- what the parties send for a value ------------------------------------------------

  function OfferedWord(w: World, s: Role, c: Class, v: nat, j: nat): (x: Word)
    ensures |x| == c.outs
  {
    seq(c.outs, o requires 0 <= o => w.word(s, c, v, j, o))
  }

  function Offered(w: World, s: Role, c: Class, v: nat): (x: Entries)
    ensures |x| == Pow2(c.ins)
  {
    seq(Pow2(c.ins), j requires 0 <= j => OfferedWord(w, s, c, v, j))
  }

  function MaskWord(w: World, g: nat, n: nat, j: nat): (x: Word)
    requires g < |w.gs| && w.gs[g].op.Table?
    ensures |x| == w.gs[g].op.outs
  {
    seq(w.gs[g].op.outs, o requires 0 <= o => MaskBit(w, g, n, j, o))
  }

  function MaskTable(w: World, g: nat, n: nat): (x: Entries)
    requires g < |w.gs| && w.gs[g].op.Table?
    ensures |x| == Pow2(|w.gs[g].op.inputs|)
  {
    seq(Pow2(|w.gs[g].op.inputs|), j requires 0 <= j => MaskWord(w, g, n, j))
  }

  // ----- shares of indices ----------------------------------------------------------------

  /** The party holds its shares of all operands. */
  ghost predicate OperandsHeld(w: World, r: Role, val: map<nat, seq<bool>>, g: nat) {
    && g < |w.gs|
    && forall k {:trigger Parents(w.gs[g].op)[k]} | 0 <= k < |Parents(w.gs[g].op)| ::
         var p := Parents(w.gs[g].op)[k]; p < |w.gs| && p in val && val[p] == Share(w, r, p)
  }

  /** Bit n of every input wire, the first one at the lowest position. */
  method GatherIndex(val: map<nat, seq<bool>>, input: seq<nat>, n: nat, ghost w: World, ghost r: Role, ghost g: nat) returns (x: nat)
    requires OperandsHeld(w, r, val, g) && w.gs[g].op.Table? && input == w.gs[g].op.inputs && TableOk(w.gs, g) && n < Vals(w.gs, g)
    ensures x == Index(w, r, g, n) < Pow2(|input|)
  {
    x := 0;
    ghost var bits := [];
    for j := 0 to |input|
      invariant |bits| == j && x == Num(bits) && forall k | 0 <= k < j :: bits[k] == w.share(r, input[k], n)
    {
      assert Parents(w.gs[g].op)[j] == input[j];
      var bit := val[input[j]][n];
      NumSnoc(bits, bit);
      x := x + Weight(bit, j);
      bits := bits + [bit];
    }
    assert bits == seq(|input|, j requires 0 <= j < |input| => w.share(r, input[j], n));
    ValueBound(bits, |bits|);
  }

  // ----- the receiver's updates -----------------------------------------------------------

  /** EvaluateTTGate as a receiver: the shares of the index, masked with the choices made in advance. */
  method UpdateChoices(val: map<nat, seq<bool>>, input: seq<nat>, nvals: nat, otC: seq<nat>, from: nat, ghost w: World, ghost r: Role, ghost g: nat)
    returns (updates: seq<nat>)
    requires OperandsHeld(w, r, val, g) && w.gs[g].op.Table? && input == w.gs[g].op.inputs && TableOk(w.gs, g) && nvals == Vals(w.gs, g)
    requires r == Sender(w.gs[g].depth).Other() && from + nvals <= |otC|
    requires forall n: nat | n < nvals :: otC[from + n] == Choice(w, g, n)
    ensures |updates| == nvals && forall n | 0 <= n < nvals :: updates[n] == Update(w, g, n)
  {
    updates := [];
    for i := 0 to nvals
      invariant |updates| == i && forall n | 0 <= n < i :: updates[n] == Update(w, g, n)
    {
      var shares := GatherIndex(val, input, i, w, r, g);
      assert otC[from + i] == Choice(w, g, i);
      updates := updates + [XorWord(shares, otC[from + i], |input|)];
    }
  }

  // ----- the sender's answers -------------------------------------------------------------

  function AnswerWord(mask: Word, words: Entries, table: Entries, x: nat, u: nat, ins: nat, j: nat): Word
    requires j < |words| && XorWord(x, XorWord(u, j, ins), ins) < |table|
    requires |words[j]| == |mask| == |table[XorWord(x, XorWord(u, j, ins), ins)]|
  {
    XorBits(XorBits(mask, words[j]), table[XorWord(x, XorWord(u, j, ins), ins)])
  }

  predicate Shape(e: Entries, ins: nat, outs: nat) {
    |e| == Pow2(ins) && forall j | 0 <= j < |e| :: |e[j]| == outs
  }

  /** The entries for one value. Step t fills the position u ^ t, so that every position is filled once. */
  method Answer(mask: Word, words: Entries, table: Entries, x: nat, u: nat, ins: nat) returns (entries: Entries)
    requires Shape(words, ins, |mask|) && Shape(table, ins, |mask|) && u < Pow2(ins)
    ensures |entries| == Pow2(ins)
    ensures forall j | 0 <= j < Pow2(ins) :: entries[j] == AnswerWord(mask, words, table, x, u, ins, j)
  {
    entries := words;
    for t := 0 to Pow2(ins)
      invariant |entries| == Pow2(ins)
      invariant forall j {:trigger entries[j]} |
                  0 <= j < Pow2(ins) && XorWord(u, j, ins) < t :: entries[j] == AnswerWord(mask, words, table, x, u, ins, j)
    {
      var pos := XorWord(u, t, ins);
      Unmasked(u, t, ins);
      var answer := XorBits(XorBits(mask, words[pos]), table[XorWord(x, t, ins)]);
      forall j: nat | j < Pow2(ins) && XorWord(u, j, ins) == t
        ensures j == pos
      {
        Unmasked(u, j, ins);
      }
      entries := entries[pos := answer];
    }
  }

  /** The bits of a gate that belong to value n. */
  method GateMask(v: seq<bool>, n: nat, nvals: nat, outs: nat) returns (mask: Word)
    requires n < nvals && |v| == Times(outs, nvals)
    ensures |mask| == outs && forall o | 0 <= o < outs :: mask[o] == At(v, Times(o, nvals) + n)
  {
    mask := [];
    for o := 0 to outs
      invariant |mask| == o && forall k | 0 <= k < o :: mask[k] == At(v, Times(k, nvals) + n)
    {
      SlotWithin(o, n, nvals, outs);
      mask := mask + [v[Times(o, nvals) + n]];
    }
  }

  /** SenderEvaluateTTGates for one value of a gate. */
  method AnswerValue(val: map<nat, seq<bool>>, gate: Gate, v: seq<bool>, words: Entries, u: nat, n: nat, nvals: nat,
                     ghost w: World, ghost r: Role, ghost g: nat)
    returns (entries: Entries)
    requires OperandsHeld(w, r, val, g) && gate == w.gs[g] && gate.op.Table? && TableOk(w.gs, g) && n < nvals == Vals(w.gs, g)
    requires r == Sender(gate.depth) && u == Update(w, g, n)
    requires words == Offered(w, r, ClassOf(w.gs, g), Place(w.gs, Transfers(ClassOf(w.gs, g)), g) + n)
    requires |v| == gate.nvals && forall t | 0 <= t < |v| :: v[t] == SenderBit(w, g, t)
    ensures entries == MaskTable(w, g, n)
  {
    var ins := |gate.op.inputs|;
    var x := GatherIndex(val, gate.op.inputs, n, w, r, g);
    var mask := GateMask(v, n, nvals, gate.op.outs);
    forall o: nat | o < |mask|
      ensures mask[o] == SenderBit(w, g, Times(o, nvals) + n)
    {
      SlotWithin(o, n, nvals, gate.op.outs);
    }
    entries := Answer(mask, words, gate.op.table, x, u, ins);
    forall j | 0 <= j < Pow2(ins)
      ensures entries[j] == MaskWord(w, g, n, j)
    {
      AnswerIsMask(w, g, n, j, mask, words, entries[j]);
    }
  }

  lemma AnswerIsMask(w: World, g: nat, n: nat, j: nat, mask: Word, words: Entries, answer: Word)
    requires g < |w.gs| && w.gs[g].op.Table? && TableOk(w.gs, g) && n < Vals(w.gs, g) && j < Pow2(|w.gs[g].op.inputs|)
    requires words == Offered(w, Sender(w.gs[g].depth), ClassOf(w.gs, g), Place(w.gs, Transfers(ClassOf(w.gs, g)), g) + n)
    requires |mask| == w.gs[g].op.outs && forall o | 0 <= o < |mask| :: mask[o] == SenderBit(w, g, Times(o, Vals(w.gs, g)) + n)
    requires answer == AnswerWord(mask, words, w.gs[g].op.table, Index(w, Sender(w.gs[g].depth), g, n), Update(w, g, n), |w.gs[g].op.inputs|, j)
    ensures answer == MaskWord(w, g, n, j)
  {
    forall o | 0 <= o < |answer|
      ensures answer[o] == MaskBit(w, g, n, j, o)
    {
      assert words[j][o] == OfferedBit(w, g, n, j, o);
    }
  }

  // ----- the receiver's results -----------------------------------------------------------

  /** What a position holds once the first words of a value have been put in place. */
  predicate Placed(v: seq<bool>, word: Word, n: nat, nvals: nat, o: nat, t: nat)
    requires n < nvals && t < |v|
  {
    if Col(t, nvals) == n && Row(t, nvals) < o && Row(t, nvals) < |word| then v[t] != word[Row(t, nvals)] else v[t]
  }

  /** The bits of a word go to the places of value n. */
  method PutWord(v: seq<bool>, word: Word, n: nat, nvals: nat) returns (next: seq<bool>)
    requires n < nvals && |v| == Times(|word|, nvals)
    ensures |next| == |v| && forall t | 0 <= t < |v| :: next[t] == Placed(v, word, n, nvals, |word|, t)
  {
    next := v;
    for o := 0 to |word|
      invariant |next| == |v| && forall t | 0 <= t < |v| :: next[t] == Placed(v, word, n, nvals, o, t)
    {
      var pos := Times(o, nvals) + n;
      SlotOf(o, n, nvals);
      RowBound(pos, nvals, |word|);
      forall t: nat | t < |v|
        ensures t == pos <==> Row(t, nvals) == o && Col(t, nvals) == n
      {
        SlotIff(t, o, n, nvals);
      }
      next := next[pos := next[pos] != word[o]];
    }
  }

  // ----- a party's side of a class --------------------------------------------------------

  /**
    Everything a party keeps for the tables of one class: the words it offers and the random bits it masks results with,
    used from maskIdx and tableRndIdx on; its choices and the words it got, used from choiceIdx on; and the buffers of a
    round with the amounts to be received.
   */
  datatype Lane = Lane(otX: seq<Entries>, maskIdx: nat, tableRnd: seq<bool>, tableRndIdx: nat,
                       otC: seq<nat>, otR: seq<Word>, choiceIdx: nat,
                       choiceSnd: seq<nat>, choiceRcv: seq<nat>, choiceRcvCtr: nat,
                       maskSnd: seq<Entries>, maskRcv: seq<Entries>, maskRcvCtr: nat)

  /** The transfers in which the party sends. */
  ghost predicate OffersOk(w: World, r: Role, c: Class, lane: Lane) {
    && |lane.otX| == Used(w.gs, Transfers(c), r, w.layers) && |lane.tableRnd| == Used(w.gs, Masks(c), r, w.layers)
    && (forall v | 0 <= v < |lane.otX| :: lane.otX[v] == Offered(w, r, c, v))
    && (forall x | 0 <= x < |lane.tableRnd| :: lane.tableRnd[x] == w.rnd(r, c, x))
  }

  /** The transfers in which the party receives: it has got the words it has chosen. */
  ghost predicate ChosenOk(w: World, r: Role, c: Class, lane: Lane) {
    && |lane.otC| == |lane.otR| == Used(w.gs, Transfers(c), r.Other(), w.layers)
    && (forall v | 0 <= v < |lane.otC| :: lane.otC[v] == w.choice(r.Other(), c, v))
    && (forall v | 0 <= v < |lane.otR| :: lane.otR[v] == OfferedWord(w, r.Other(), c, v, w.choice(r.Other(), c, v)))
  }

  ghost predicate Supplied(w: World, r: Role, c: Class, lane: Lane) {
    OffersOk(w, r, c, lane) && ChosenOk(w, r, c, lane)
  }

  function Updates(w: World): (nat, nat) -> nat {
    (g: nat, n: nat) => if g < |w.gs| && w.gs[g].op.Table? then Update(w, g, n) else 0
  }

  function Answers(w: World): (nat, nat) -> Entries {
    (g: nat, n: nat) => if g < |w.gs| && w.gs[g].op.Table? then MaskTable(w, g, n) else []
  }

  /** A table gate of a run, at its place in the supplies of its class. */
  ghost predicate TableGate(w: World, gate: Gate, c: Class, g: nat) {
    && Correct(w) && g < |w.gs| && gate == w.gs[g] && gate.op.Table? && TableOk(w.gs, g) && c == ClassOf(w.gs, g)
    && ParentsBelow(gate.op, g) && Vals(w.gs, g) > 0
  }

  lemma TableShareIs(w: World, gate: Gate, c: Class, g: nat, r: Role, t: nat)
    requires TableGate(w, gate, c, g) && t < gate.nvals
    ensures w.share(r, g, t) == TableShare(w, r, g, t)
  {
    assert ShareOk(w, r, g, t);
  }

  /** nvals / out_bits. */
  lemma ValuesPerOutput(w: World, gate: Gate, c: Class, g: nat)
    requires TableGate(w, gate, c, g)
    ensures gate.op.outs > 0 && gate.nvals / gate.op.outs == Vals(w.gs, g) && gate.nvals == Times(gate.op.outs, Vals(w.gs, g))
  {
    TimesIsProduct(gate.op.outs, Vals(w.gs, g));
    DivModUnique(gate.nvals, Vals(w.gs, g), 0, gate.op.outs);
  }

  /** SenderEvaluateTTGates for one gate: a random share, and the answers to all updates. */
  method AnswerGate(val: map<nat, seq<bool>>, gate: Gate, lane: Lane, from: nat, ghost c: Class, ghost w: World, ghost r: Role, ghost g: nat)
    returns (v: seq<bool>, next: Lane)
    requires TableGate(w, gate, c, g) && OperandsHeld(w, r, val, g) && r == Sender(gate.depth) && OffersOk(w, r, c, lane)
    requires lane.maskIdx == Place(w.gs, Transfers(c), g) && lane.maskIdx + Vals(w.gs, g) <= |lane.otX|
    requires lane.tableRndIdx == Place(w.gs, Masks(c), g) && lane.tableRndIdx + gate.nvals <= |lane.tableRnd|
    requires from + Vals(w.gs, g) <= |lane.choiceRcv|
    requires lane.choiceRcv[from..from + Vals(w.gs, g)] == Block(w.gs, Transfers(c), Updates(w), g)
    ensures v == Share(w, r, g)
    ensures next == lane.(maskIdx := lane.maskIdx + Vals(w.gs, g), tableRndIdx := lane.tableRndIdx + gate.nvals,
                          maskSnd := lane.maskSnd + Block(w.gs, Transfers(c), Answers(w), g))
  {
    ValuesPerOutput(w, gate, c, g);
    var nvals := gate.nvals / gate.op.outs;
    v := lane.tableRnd[lane.tableRndIdx..lane.tableRndIdx + gate.nvals];
    var answers := [];
    for n := 0 to nvals
      invariant |answers| == n && forall k | 0 <= k < n :: answers[k] == MaskTable(w, g, k)
    {
      var u := lane.choiceRcv[from + n];
      assert u == lane.choiceRcv[from..from + nvals][n];
      var entries := AnswerValue(val, gate, v, lane.otX[lane.maskIdx + n], u, n, nvals, w, r, g);
      answers := answers + [entries];
    }
    forall t | 0 <= t < |v|
      ensures v[t] == w.share(r, g, t)
    {
      TableShareIs(w, gate, c, g, r, t);
    }
    assert answers == Block(w.gs, Transfers(c), Answers(w), g);
    next := lane.(maskIdx := lane.maskIdx + nvals, tableRndIdx := lane.tableRndIdx + gate.nvals, maskSnd := lane.maskSnd + answers);
  }

  /** Bit t of the receiver's share, once the first n values are there. */
  predicate Opened(w: World, g: nat, n: nat, t: nat)
    requires g < |w.gs| && w.gs[g].op.Table? && Vals(w.gs, g) > 0
  {
    Col(t, Vals(w.gs, g)) < n && TableShare(w, Sender(w.gs[g].depth).Other(), g, t)
  }

  /** ReceiverEvaluateTTGates for one gate: of every answer the chosen entry is unmasked. */
  method OpenGate(gate: Gate, lane: Lane, from: nat, ghost c: Class, ghost w: World, ghost r: Role, ghost g: nat)
    returns (v: seq<bool>, next: Lane)
    requires TableGate(w, gate, c, g) && r == Sender(gate.depth).Other() && ChosenOk(w, r, c, lane)
    requires lane.choiceIdx == Place(w.gs, Transfers(c), g) && lane.choiceIdx + Vals(w.gs, g) <= |lane.otC|
    requires from + Vals(w.gs, g) <= |lane.maskRcv|
    requires lane.maskRcv[from..from + Vals(w.gs, g)] == Block(w.gs, Transfers(c), Answers(w), g)
    ensures v == Share(w, r, g)
    ensures next == lane.(choiceIdx := lane.choiceIdx + Vals(w.gs, g))
  {
    ValuesPerOutput(w, gate, c, g);
    var nvals := gate.nvals / gate.op.outs;
    v := seq(gate.nvals, t => false);
    for n := 0 to nvals
      invariant |v| == gate.nvals && forall t | 0 <= t < |v| :: v[t] == Opened(w, g, n, t)
    {
      var entries := lane.maskRcv[from + n];
      assert entries == lane.maskRcv[from..from + nvals][n] == MaskTable(w, g, n);
      var choice := lane.otC[lane.choiceIdx + n];
      assert choice == Choice(w, g, n) && ChoiceOk(w, r.Other(), c, lane.choiceIdx + n);
      var word := XorBits(entries[choice], lane.otR[lane.choiceIdx + n]);
      v := PutOpened(v, word, n, nvals, w, g);
    }
    forall t | 0 <= t < |v|
      ensures v[t] == w.share(r, g, t)
    {
      TableShareIs(w, gate, c, g, r, t);
    }
    next := lane.(choiceIdx := lane.choiceIdx + nvals);
  }

  method PutOpened(v: seq<bool>, word: Word, n: nat, nvals: nat, ghost w: World, ghost g: nat) returns (next: seq<bool>)
    requires g < |w.gs| && w.gs[g].op.Table? && n < nvals == Vals(w.gs, g) && |v| == Times(|word|, nvals)
    requires forall t | 0 <= t < |v| :: v[t] == Opened(w, g, n, t)
    requires forall o | 0 <= o < |word| :: word[o] == (MaskBit(w, g, n, Choice(w, g, n), o) != OfferedBit(w, g, n, Choice(w, g, n), o))
    ensures |next| == |v| && forall t | 0 <= t < |v| :: next[t] == Opened(w, g, n + 1, t)
  {
    next := PutWord(v, word, n, nvals);
    forall t | 0 <= t < |v|
      ensures next[t] == Opened(w, g, n + 1, t)
    {
      RowBound(t, nvals, |word|);
    }
  }
}
