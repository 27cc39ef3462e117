/** Which share each party holds of every wire of an SP-LUT run, what they send, and that the shares add up. */
module LutSpec {
  import opened Bits
  import opened Words
  import opened LutCircuit
  import C = Circuit

  /**
    One run: the circuit, the inputs, all randomness, and the shares. word(r, c, v, j, o) is bit o of the entry j that r
    offers in transfer v of class c, choice(r, c, v) the entry that the other party takes; rnd masks the results of r as
    a sender, and mask its inputs.
   */
  datatype World = World(gs: seq<Gate>, layers: nat, inp: (nat, nat) -> bool, mask: (Role, nat) -> bool,
                         word: (Role, Class, nat, nat, nat) -> bool, choice: (Role, Class, nat) -> nat,
                         rnd: (Role, Class, nat) -> bool, share: (Role, nat, nat) -> bool)

  function ClassOf(gs: seq<Gate>, g: nat): Class
    requires g < |gs| && gs[g].op.Table?
  {
    Class(|gs[g].op.inputs|, gs[g].op.outs)
  }

  /** The share r holds of the index into the table of g, for value n. */
  function Index(w: World, r: Role, g: nat, n: nat): (x: nat)
    requires g < |w.gs| && w.gs[g].op.Table?
  {
    var ins := w.gs[g].op.inputs;
    Num(seq(|ins|, j requires 0 <= j < |ins| => w.share(r, ins[j], n)))
  }

  /** The choice of the transfer that gate g takes for value n. */
  function Choice(w: World, g: nat, n: nat): nat
    requires g < |w.gs| && w.gs[g].op.Table?
  {
    w.choice(Sender(w.gs[g].depth), ClassOf(w.gs, g), Place(w.gs, Transfers(ClassOf(w.gs, g)), g) + n)
  }

  /** What the receiver sends for value n: its share of the index, masked by the choice it has made in advance. */
  function Update(w: World, g: nat, n: nat): nat
    requires g < |w.gs| && w.gs[g].op.Table?
  {
    XorWord(Index(w, Sender(w.gs[g].depth).Other(), g, n), Choice(w, g, n), |w.gs[g].op.inputs|)
  }

  predicate OfferedBit(w: World, g: nat, n: nat, j: nat, o: nat)
    requires g < |w.gs| && w.gs[g].op.Table?
  {
    w.word(Sender(w.gs[g].depth), ClassOf(w.gs, g), Place(w.gs, Transfers(ClassOf(w.gs, g)), g) + n, j, o)
  }

  /** The sender's share of a table gate is random. */
  predicate SenderBit(w: World, g: nat, t: nat)
    requires g < |w.gs| && w.gs[g].op.Table?
  {
    w.rnd(Sender(w.gs[g].depth), ClassOf(w.gs, g), Place(w.gs, Masks(ClassOf(w.gs, g)), g) + t)
  }

  /** Bit o of entry j of what the sender answers: the permuted table under its own share and the transferred words. */
  predicate MaskBit(w: World, g: nat, n: nat, j: nat, o: nat)
    requires g < |w.gs| && w.gs[g].op.Table?
  {
    var x := XorWord(Index(w, Sender(w.gs[g].depth), g, n), XorWord(Update(w, g, n), j, |w.gs[g].op.inputs|), |w.gs[g].op.inputs|);
    (SenderBit(w, g, Times(o, Vals(w.gs, g)) + n) != OfferedBit(w, g, n, j, o)) != TableBit(w.gs[g].op.table, x, o)
  }

  predicate TableShare(w: World, r: Role, g: nat, t: nat)
    requires g < |w.gs| && w.gs[g].op.Table?
  {
    if r == Sender(w.gs[g].depth) then SenderBit(w, g, t)
    else
      && Vals(w.gs, g) > 0
      && var n, o := Col(t, Vals(w.gs, g)), Row(t, Vals(w.gs, g));
         MaskBit(w, g, n, Choice(w, g, n), o) != OfferedBit(w, g, n, Choice(w, g, n), o)
  }

  predicate ParentsBelow(op: Op, g: nat) {
    forall k | 0 <= k < |Parents(op)| :: Parents(op)[k] < g
  }

  /** What party r computes for bit t of gate g; an output gate yields the value itself. */
  predicate ShareStep(w: World, r: Role, g: nat, t: nat) {
    if g >= |w.gs| || !ParentsBelow(w.gs[g].op, g) || t >= w.gs[g].nvals then false
    else
      match w.gs[g].op
      case In(src) => w.mask(src, Offset(w.gs, Inputs(src), g) + t) != (src == r && w.inp(g, t))
      case Constant(v) => v && r != C.CLIENT
      case Lin(left, right) => w.share(r, left, t) != w.share(r, right, t)
      case Inv(p) => w.share(r, p, t) != r.SERVER?
      case Split(p, pos) => w.share(r, p, pos + t)
      case Table(_, _, _) => TableShare(w, r, g, t)
      case Out(p, _) => w.share(C.SERVER, p, t) != w.share(C.CLIENT, p, t)
  }

  /** A share is what its party computes from the shares of earlier gates. */
  predicate ShareOk(w: World, r: Role, g: nat, t: nat) {
    w.share(r, g, t) == ShareStep(w, r, g, t)
  }

  /** A choice is an entry of its transfer. */
  predicate ChoiceOk(w: World, r: Role, c: Class, v: nat) {
    w.choice(r, c, v) < Pow2(c.ins)
  }

  ghost predicate Correct(w: World) {
    && WellFormed(w.gs)
    && (forall g {:trigger w.gs[g]} | 0 <= g < |w.gs| :: w.gs[g].depth < w.layers)
    && (forall r, c, v {:trigger ChoiceOk(w, r, c, v)} :: ChoiceOk(w, r, c, v))
    && (forall r, g, t {:trigger ShareOk(w, r, g, t)} :: ShareOk(w, r, g, t))
  }

  // ----- shares exist ---------------------------------------------------------------------

  /** Shares of the first n gates, computed one gate after the other. */
  function Evaluate(w: World, n: nat): (e: World)
    ensures e == w.(share := e.share)
  {
    if n == 0 then w.(share := (r: Role, g: nat, t: nat) => false)
    else
      var before := Evaluate(w, n - 1);
      w.(share := (r: Role, g: nat, t: nat) => if g == n - 1 then ShareStep(before, r, g, t) else before.share(r, g, t))
  }

  /** Two runs with the same shares of the gates before g. */
  ghost predicate SameBelow(w: World, v: World, g: nat) {
    v == w.(share := v.share) && forall r: Role, p: nat, t: nat | p < g :: w.share(r, p, t) == v.share(r, p, t)
  }

  lemma IndexCong(w: World, v: World, r: Role, g: nat, n: nat)
    requires SameBelow(w, v, g)
    requires g < |w.gs| && w.gs[g].op.Table? && ParentsBelow(w.gs[g].op, g)
    ensures Index(w, r, g, n) == Index(v, r, g, n)
  {
    var ins := w.gs[g].op.inputs;
    assert Parents(w.gs[g].op) == ins;
    assert seq(|ins|, j requires 0 <= j < |ins| => w.share(r, ins[j], n)) ==
           seq(|ins|, j requires 0 <= j < |ins| => v.share(r, ins[j], n));
  }

  /** A step looks at earlier gates only. */
  lemma StepCong(w: World, v: World, r: Role, g: nat, t: nat)
    requires SameBelow(w, v, g)
    ensures ShareStep(w, r, g, t) == ShareStep(v, r, g, t)
  {
    if g < |w.gs| && ParentsBelow(w.gs[g].op, g) {
      match w.gs[g].op {
        case Table(_, _, _) => TableCong(w, v, r, g, t);
        case In(_) =>
        case Constant(_) =>
        case Lin(l, r) => assert Parents(w.gs[g].op)[0] == l && Parents(w.gs[g].op)[1] == r;
        case Inv(p) => assert Parents(w.gs[g].op)[0] == p;
        case Split(p, _) => assert Parents(w.gs[g].op)[0] == p;
        case Out(p, _) => assert Parents(w.gs[g].op)[0] == p;
      }
    }
  }

  lemma TableCong(w: World, v: World, r: Role, g: nat, t: nat)
    requires SameBelow(w, v, g) && g < |w.gs| && w.gs[g].op.Table? && ParentsBelow(w.gs[g].op, g)
    ensures TableShare(w, r, g, t) == TableShare(v, r, g, t)
  {
    if Vals(w.gs, g) > 0 {
      IndexCong(w, v, C.SERVER, g, Col(t, Vals(w.gs, g)));
      IndexCong(w, v, C.CLIENT, g, Col(t, Vals(w.gs, g)));
    }
  }

  lemma {:induction false} EvaluateStable(w: World, n: nat, r: Role, g: nat, t: nat)
    ensures Evaluate(w, n).share(r, g, t) == if g < n then ShareStep(Evaluate(w, n), r, g, t) else false
  {
    if n > 0 {
      var before, after := Evaluate(w, n - 1), Evaluate(w, n);
      if g < n {
        StepCong(before, after, r, g, t);
      }
      if g != n - 1 {
        EvaluateStable(w, n - 1, r, g, t);
      }
    }
  }

  /** For all inputs and all randomness there are such shares. */
  lemma SharesExist(w: World)
    ensures forall r, g, t {:trigger ShareOk(Evaluate(w, |w.gs|), r, g, t)} :: ShareOk(Evaluate(w, |w.gs|), r, g, t)
  {
    forall r, g, t
      ensures ShareOk(Evaluate(w, |w.gs|), r, g, t)
    {
      EvaluateStable(w, |w.gs|, r, g, t);
    }
  }

  // ----- shares add up --------------------------------------------------------------------

  /** The entry that the receiver has chosen is, under the sender's share, the table entry at the joint index. */
  lemma ChosenEntry(w: World, g: nat, n: nat, o: nat)
    requires Correct(w) && g < |w.gs| && w.gs[g].op.Table?
    ensures var s := Sender(w.gs[g].depth);
            var x := XorWord(Index(w, s, g, n), Index(w, s.Other(), g, n), |w.gs[g].op.inputs|);
            (MaskBit(w, g, n, Choice(w, g, n), o) != OfferedBit(w, g, n, Choice(w, g, n), o)) ==
            (SenderBit(w, g, Times(o, Vals(w.gs, g)) + n) != TableBit(w.gs[g].op.table, x, o))
  {
    var c, s := ClassOf(w.gs, g), Sender(w.gs[g].depth);
    assert ChoiceOk(w, s, c, Place(w.gs, Transfers(c), g) + n);
    var ins := w.gs[g].op.inputs;
    ValueBound(seq(|ins|, j requires 0 <= j < |ins| => w.share(s.Other(), ins[j], n)), |ins|);
    XorCancels(Index(w, s.Other(), g, n), Choice(w, g, n), c.ins);
  }

  /** What the two shares of a gate reveal when they are put together. */
  predicate Revealed(w: World, g: nat, t: nat)
    requires g < |w.gs|
  {
    if w.gs[g].op.Out? then w.share(C.SERVER, g, t) else w.share(C.SERVER, g, t) != w.share(C.CLIENT, g, t)
  }

  /** Both shares of a table gate add up to the entry at the joint index. */
  lemma TableXor(w: World, g: nat, t: nat)
    requires Correct(w) && g < |w.gs| && w.gs[g].op.Table? && t < w.gs[g].nvals
    ensures Vals(w.gs, g) > 0
    ensures var n, o, s := Col(t, Vals(w.gs, g)), Row(t, Vals(w.gs, g)), Sender(w.gs[g].depth);
            var x := XorWord(Index(w, s, g, n), Index(w, s.Other(), g, n), |w.gs[g].op.inputs|);
            Revealed(w, g, t) == TableBit(w.gs[g].op.table, x, o)
  {
    assert GateOk(w.gs, g);
    TimesIsProduct(w.gs[g].op.outs, Vals(w.gs, g));
    assert ShareOk(w, C.SERVER, g, t) && ShareOk(w, C.CLIENT, g, t);
    ParentsAreBelow(w, g);
    RowCol(t, Vals(w.gs, g));
    ChosenEntry(w, g, Col(t, Vals(w.gs, g)), Row(t, Vals(w.gs, g)));
  }

  lemma ParentsAreBelow(w: World, g: nat)
    requires WellFormed(w.gs) && g < |w.gs|
    ensures ParentsBelow(w.gs[g].op, g) && forall k | 0 <= k < |Parents(w.gs[g].op)| :: !w.gs[Parents(w.gs[g].op)[k]].op.Out?
  {
    assert GateOk(w.gs, g);
    forall k | 0 <= k < |Parents(w.gs[g].op)|
      ensures Parents(w.gs[g].op)[k] < g && !w.gs[Parents(w.gs[g].op)[k]].op.Out?
    {
      assert OperandOk(w.gs, g, Parents(w.gs[g].op)[k]);
    }
  }

  /** For all inputs and all randomness the XOR of both shares is the plain value. */
  lemma {:induction false} SharesXorToPlain(w: World, g: nat, t: nat)
    requires Correct(w) && g < |w.gs|
    ensures Revealed(w, g, t) == Plain(w.gs, w.inp, g, t)
    ensures w.gs[g].op.Out? ==> w.share(C.CLIENT, g, t) == w.share(C.SERVER, g, t)
    decreases g, 1
  {
    assert ShareOk(w, C.SERVER, g, t) && ShareOk(w, C.CLIENT, g, t) && GateOk(w.gs, g);
    ParentsAreBelow(w, g);
    if t < w.gs[g].nvals {
      match w.gs[g].op {
        case In(_) =>
        case Constant(_) =>
        case Lin(l, r) => SharesXorToPlain(w, Parents(w.gs[g].op)[0], t); SharesXorToPlain(w, Parents(w.gs[g].op)[1], t);
        case Inv(p) => SharesXorToPlain(w, Parents(w.gs[g].op)[0], t);
        case Split(p, pos) => SharesXorToPlain(w, Parents(w.gs[g].op)[0], pos + t);
        case Table(_, _, _) => TablePlain(w, g, t);
        case Out(p, _) => SharesXorToPlain(w, Parents(w.gs[g].op)[0], t);
      }
    }
  }

  lemma {:induction false} TablePlain(w: World, g: nat, t: nat)
    requires Correct(w) && g < |w.gs| && w.gs[g].op.Table? && t < w.gs[g].nvals
    ensures Revealed(w, g, t) == Plain(w.gs, w.inp, g, t)
    decreases g, 0
  {
    TableXor(w, g, t);
    ParentsAreBelow(w, g);
    var ins, n, s := w.gs[g].op.inputs, Col(t, Vals(w.gs, g)), Sender(w.gs[g].depth);
    assert Parents(w.gs[g].op) == ins;
    var a := seq(|ins|, j requires 0 <= j < |ins| => w.share(s, ins[j], n));
    var b := seq(|ins|, j requires 0 <= j < |ins| => w.share(s.Other(), ins[j], n));
    var c := seq(|ins|, j requires 0 <= j < |ins| => ins[j] < g && Plain(w.gs, w.inp, ins[j], n));
    forall j | 0 <= j < |ins|
      ensures c[j] == (a[j] != b[j])
    {
      assert Parents(w.gs[g].op)[j] == ins[j];
      SharesXorToPlain(w, ins[j], n);
    }
    XorOfNums(a, b, c);
  }

  function Share(w: World, r: Role, g: nat): (s: seq<bool>)
    requires g < |w.gs|
    ensures |s| == w.gs[g].nvals && forall t | 0 <= t < |s| :: s[t] == w.share(r, g, t)
  {
    seq(w.gs[g].nvals, t requires 0 <= t => w.share(r, g, t))
  }
}
