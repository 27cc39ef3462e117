/** What every gate of a circuit computes, in terms of the values of its operands. */
module Meaning {
  import opened Bits
  import opened Circuit

  /** An output of a party: it goes to that party alone, or to both. */
  predicate Receives(op: Op, r: Role) {
    op.Out? && (op.dst == To(r) || op.dst == All)
  }

  /** The values of a gate. */
  ghost predicate GateMeans(gs: seq<Gate>, inp: (nat, nat) -> bool, vals: seq<seq<bool>>, g: nat)
    requires g < |gs| == |vals|
  {
    var v := vals[g];
    && |v| == gs[g].nvals
    && match gs[g].op
       case In(_) => forall t | 0 <= t < |v| :: v[t] == inp(g, t)
       case Constant(c) => forall t | 0 <= t < |v| :: v[t] == c
       case Lin(l, r) => l < g && r < g && |v| <= |vals[l]| && |v| <= |vals[r]| && forall t | 0 <= t < |v| :: v[t] == (vals[l][t] != vals[r][t])
       case NonLin(l, r) => l < g && r < g && |v| <= |vals[l]| && |v| <= |vals[r]| && forall t | 0 <= t < |v| :: v[t] == (vals[l][t] && vals[r][t])
       case Inv(p) => p < g && |v| <= |vals[p]| && forall t | 0 <= t < |v| :: v[t] == !vals[p][t]
       case Out(p, _) => p < g && v == vals[p]
       case NonLinVec(c, w, bitlen) =>
         && c < g && w < g && bitlen > 0 && |v| == |vals[w]| == bitlen * |vals[c]|
         && forall t | 0 <= t < |v| :: t / bitlen < |vals[c]| && v[t] == (vals[c][t / bitlen] && vals[w][t])
       case StructCombine(ins, start, incr) =>
         |ins| > 0 && forall t | 0 <= t < |v| ::
           var p, at := ins[t % |ins|], start + t / |ins| * incr; p < g && at < |vals[p]| && v[t] == vals[p][at]
       case Univ(l, r, table) =>
         l < g && r < g && |v| <= |vals[l]| && |v| <= |vals[r]| && forall t | 0 <= t < |v| ::
           v[t] == if vals[l][t] then (if vals[r][t] then table / 8 % 2 == 1 else table / 4 % 2 == 1)
                   else if vals[r][t] then table / 2 % 2 == 1 else table % 2 == 1
  }

  /** Every gate of the circuit has the values that its kind prescribes. */
  ghost predicate Meant(gs: seq<Gate>, inp: (nat, nat) -> bool) {
    Ordered(gs) && forall g: nat | g < |gs| :: GateMeans(gs, inp, Eval(gs, inp), g)
  }

  lemma EvalMeant(ctx: Sharing, gs: seq<Gate>, inp: (nat, nat) -> bool)
    requires WellFormed(ctx, gs)
    ensures Meant(gs, inp)
  {
    WellFormedOrdered(ctx, gs);
    ValuesUnique(gs, Eval(gs, inp), inp);
    forall g: nat | g < |gs|
      ensures GateMeans(gs, inp, Eval(gs, inp), g)
    {
      GateMeant(ctx, gs, inp, Eval(gs, inp), g);
    }
  }

  lemma GateMeant(ctx: Sharing, gs: seq<Gate>, inp: (nat, nat) -> bool, vals: seq<seq<bool>>, g: nat)
    requires WellFormed(ctx, gs) && ValuesOk(gs, vals, inp) && g < |gs|
    ensures GateMeans(gs, inp, vals, g)
  {
    assert GateOk(ctx, gs, g) && ValueOk(gs, vals, inp, g);
    forall p: nat | p < g
      ensures |vals[p]| == gs[p].nvals == gs[..g][p].nvals
    {
      assert ValueOk(gs, vals, inp, p);
    }
    match gs[g].op
    case NonLinVec(c, _, bitlen) => VectorMeant(gs, vals, inp, g);
    case StructCombine(_, _, _) => CombinerMeant(gs, vals, inp, g);
    case Univ(l, r, table) =>
      forall t | 0 <= t < gs[g].nvals
        ensures GateBit(gs[g], g, vals, inp, t) == if vals[l][t] then (if vals[r][t] then table / 8 % 2 == 1 else table / 4 % 2 == 1)
                                                   else if vals[r][t] then table / 2 % 2 == 1 else table % 2 == 1
      {
        TableBitIs(table, vals[l][t], vals[r][t]);
      }
    case _ =>
  }

  lemma VectorMeant(gs: seq<Gate>, vals: seq<seq<bool>>, inp: (nat, nat) -> bool, g: nat)
    requires |vals| == |gs| && g < |gs| && gs[g].op.NonLinVec? && ValueOk(gs, vals, inp, g)
    requires var c, w, bitlen := gs[g].op.choice, gs[g].op.vector, gs[g].op.bitlen;
             gs[g].nvals > 0 && |vals[w]| == gs[g].nvals == bitlen * |vals[c]|
    ensures GateMeans(gs, inp, vals, g)
  {
    var c, w, bitlen := gs[g].op.choice, gs[g].op.vector, gs[g].op.bitlen;
    forall t | 0 <= t < gs[g].nvals
      ensures bitlen > 0 && t / bitlen < |vals[c]|
    {
      GroupBelow(t, bitlen, |vals[c]|);
    }
  }

  lemma GroupBelow(t: nat, bitlen: nat, n: nat)
    requires t < bitlen * n
    ensures bitlen > 0 && t / bitlen < n
  {
  }

  lemma CombinerMeant(gs: seq<Gate>, vals: seq<seq<bool>>, inp: (nat, nat) -> bool, g: nat)
    requires |vals| == |gs| && g < |gs| && gs[g].op.StructCombine? && ValueOk(gs, vals, inp, g)
    requires forall p: nat | p < g :: |vals[p]| == gs[p].nvals == gs[..g][p].nvals
    requires OpOk(gs[..g], gs[g].op, gs[g].nvals)
    ensures GateMeans(gs, inp, vals, g)
  {
    var ins, start, incr := gs[g].op.inputs, gs[g].op.start, gs[g].op.incr;
    forall t: nat | t < gs[g].nvals
      ensures var p, at := ins[t % |ins|], start + t / |ins| * incr; p < g && at < |vals[p]| && vals[g][t] == vals[p][at]
    {
      CombinedFrom(gs, vals, inp, g, t, t % |ins|, start + t / |ins| * incr);
    }
  }

  lemma CombinedFrom(gs: seq<Gate>, vals: seq<seq<bool>>, inp: (nat, nat) -> bool, g: nat, t: nat, i: nat, at: nat)
    requires |vals| == |gs| && g < |gs| && gs[g].op.StructCombine? && ValueOk(gs, vals, inp, g) && t < gs[g].nvals
    requires forall p: nat | p < g :: |vals[p]| == gs[p].nvals == gs[..g][p].nvals
    requires OpOk(gs[..g], gs[g].op, gs[g].nvals)
    requires i == t % |gs[g].op.inputs| && at == gs[g].op.start + t / |gs[g].op.inputs| * gs[g].op.incr
    ensures var p := gs[g].op.inputs[i]; p < g && at < |vals[p]| && vals[g][t] == vals[p][at]
  {
    assert at < gs[..g][gs[g].op.inputs[i]].nvals;
    assert vals[g][t] == StructBit(gs[g].op.inputs, gs[g].op.start, gs[g].op.incr, vals, t);
  }
}
