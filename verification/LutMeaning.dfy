/** What every gate of a circuit with truth tables computes, in terms of the values of its operands. */
module LutMeaning {
  import opened Bits
  import opened LutCircuit
  import C = Circuit

  /** The plain values of a gate. */
  function PlainVal(gs: seq<Gate>, inp: (nat, nat) -> bool, g: nat): (v: seq<bool>)
    requires g < |gs|
    ensures |v| == gs[g].nvals && forall t | 0 <= t < |v| :: v[t] == Plain(gs, inp, g, t)
  {
    seq(gs[g].nvals, t requires 0 <= t => Plain(gs, inp, g, t))
  }

  /** Bit n of each of the operands. */
  function Slice(gs: seq<Gate>, inp: (nat, nat) -> bool, ins: seq<nat>, n: nat): (s: seq<bool>)
    requires forall j | 0 <= j < |ins| :: ins[j] < |gs| && n < gs[ins[j]].nvals
    ensures |s| == |ins| && forall j | 0 <= j < |ins| :: s[j] == PlainVal(gs, inp, ins[j])[n]
  {
    seq(|ins|, j requires 0 <= j < |ins| => PlainVal(gs, inp, ins[j])[n])
  }

  /** Value n of output o of a table gate: the bit at column o of the row whose number the operands spell. */
  ghost predicate EntryMeans(gs: seq<Gate>, inp: (nat, nat) -> bool, g: nat, o: nat, n: nat)
    requires g < |gs| && gs[g].op.Table?
  {
    var v, ins, table := PlainVal(gs, inp, g), gs[g].op.inputs, gs[g].op.table;
    && ins != [] && ins[0] < g && (forall j | 0 <= j < |ins| :: ins[j] < g && n < gs[ins[j]].nvals == gs[ins[0]].nvals)
    && var row := Num(Slice(gs, inp, ins, n));
       row < |table| && o < |table[row]| && o * gs[ins[0]].nvals + n < |v| && v[o * gs[ins[0]].nvals + n] == table[row][o]
  }

  /** The values of a gate. */
  ghost predicate GateMeans(gs: seq<Gate>, inp: (nat, nat) -> bool, g: nat)
    requires g < |gs|
  {
    var v := PlainVal(gs, inp, g);
    match gs[g].op
    case In(_) => forall t | 0 <= t < |v| :: v[t] == inp(g, t)
    case Constant(c) => forall t | 0 <= t < |v| :: v[t] == c
    case Lin(l, r) =>
      && l < g && r < g && |v| <= gs[l].nvals && |v| <= gs[r].nvals
      && forall t | 0 <= t < |v| :: v[t] == (PlainVal(gs, inp, l)[t] != PlainVal(gs, inp, r)[t])
    case Inv(p) => p < g && |v| == gs[p].nvals && forall t | 0 <= t < |v| :: v[t] == !PlainVal(gs, inp, p)[t]
    case Split(p, pos) => p < g && pos + |v| <= gs[p].nvals && v == PlainVal(gs, inp, p)[pos..pos + |v|]
    case Out(p, _) => p < g && v == PlainVal(gs, inp, p)
    case Table(ins, outs, _) =>
      && ins != [] && ins[0] < g && |v| == outs * gs[ins[0]].nvals
      && forall o: nat, n: nat {:trigger EntryMeans(gs, inp, g, o, n)} | o < outs && n < gs[ins[0]].nvals :: EntryMeans(gs, inp, g, o, n)
  }

  /** Every gate of the circuit has the values that its kind prescribes. */
  ghost predicate Meant(gs: seq<Gate>, inp: (nat, nat) -> bool) {
    forall g: nat | g < |gs| :: GateMeans(gs, inp, g)
  }

  lemma PlainMeant(gs: seq<Gate>, inp: (nat, nat) -> bool)
    requires WellFormed(gs)
    ensures Meant(gs, inp)
  {
    forall g: nat | g < |gs|
      ensures GateMeans(gs, inp, g)
    {
      GateMeant(gs, inp, g);
    }
  }

  lemma Operands(gs: seq<Gate>, g: nat)
    requires WellFormed(gs) && g < |gs|
    ensures forall k | 0 <= k < |Parents(gs[g].op)| :: Parents(gs[g].op)[k] < g
  {
    assert GateOk(gs, g);
    forall k | 0 <= k < |Parents(gs[g].op)|
      ensures Parents(gs[g].op)[k] < g
    {
      assert OperandOk(gs, g, Parents(gs[g].op)[k]);
    }
  }

  lemma GateMeant(gs: seq<Gate>, inp: (nat, nat) -> bool, g: nat)
    requires WellFormed(gs) && g < |gs|
    ensures GateMeans(gs, inp, g)
  {
    Operands(gs, g);
    assert GateOk(gs, g);
    match gs[g].op
    case Lin(l, r) => assert Parents(gs[g].op)[0] == l && Parents(gs[g].op)[1] == r;
    case Inv(p) => assert Parents(gs[g].op)[0] == p;
    case Split(p, _) => assert Parents(gs[g].op)[0] == p;
    case Out(p, _) =>
      assert Parents(gs[g].op)[0] == p;
      assert PlainVal(gs, inp, g) == PlainVal(gs, inp, p);
    case Table(_, _, _) => TableMeant(gs, inp, g);
    case _ =>
  }

  lemma TableMeant(gs: seq<Gate>, inp: (nat, nat) -> bool, g: nat)
    requires WellFormed(gs) && g < |gs| && gs[g].op.Table?
    ensures GateMeans(gs, inp, g)
  {
    Operands(gs, g);
    assert GateOk(gs, g);
    var ins, outs, nv := gs[g].op.inputs, gs[g].op.outs, Vals(gs, g);
    assert Parents(gs[g].op) == ins && Width(gs, ins[0]) == nv;
    TimesIsProduct(outs, nv);
    forall o: nat, n: nat | o < outs && n < nv
      ensures EntryMeans(gs, inp, g, o, n)
    {
      EntryMeant(gs, inp, g, o, n);
    }
  }

  lemma EntryMeant(gs: seq<Gate>, inp: (nat, nat) -> bool, g: nat, o: nat, n: nat)
    requires WellFormed(gs) && g < |gs| && gs[g].op.Table? && o < gs[g].op.outs && n < Vals(gs, g)
    ensures EntryMeans(gs, inp, g, o, n)
  {
    Operands(gs, g);
    assert GateOk(gs, g);
    var ins, nv := gs[g].op.inputs, Vals(gs, g);
    assert Parents(gs[g].op) == ins;
    forall j | 0 <= j < |ins|
      ensures ins[j] < g && gs[ins[j]].nvals == nv
    {
      assert Width(gs, ins[j]) == nv;
    }
    var s := Slice(gs, inp, ins, n);
    assert s == seq(|ins|, j requires 0 <= j < |ins| => ins[j] < g && Plain(gs, inp, ins[j], n));
    ValueBound(s, |s|);
    SlotOf(o, n, nv);
    SlotWithin(o, n, nv, gs[g].op.outs);
    TimesIsProduct(o, nv);
  }

  // ----- splitters ------------------------------------------------------------------------

  /** The values before part i. */
  function PartStart(lens: seq<nat>, i: nat): nat
    requires i <= |lens|
  {
    if i == 0 then 0 else PartStart(lens, i - 1) + lens[i - 1]
  }

  /** The gates that PutSplitterGate makes of one gate: a splitter for every part. */
  ghost predicate Splitters(gs: seq<Gate>, p: nat, lens: seq<nat>, ids: seq<nat>) {
    && |ids| == |lens| && p < |gs| && PartStart(lens, |lens|) == gs[p].nvals
    && forall i {:trigger ids[i]} | 0 <= i < |ids| :: ids[i] < |gs| && gs[ids[i]].op == Split(p, PartStart(lens, i)) && gs[ids[i]].nvals == lens[i]
  }

  /** The values of gates, one gate behind the other. */
  function Joined(gs: seq<Gate>, inp: (nat, nat) -> bool, ids: seq<nat>): seq<bool>
    requires forall i | 0 <= i < |ids| :: ids[i] < |gs|
  {
    if ids == [] then [] else Joined(gs, inp, ids[..|ids| - 1]) + PlainVal(gs, inp, ids[|ids| - 1])
  }

  /** Put behind each other again, the parts are the values of the gate. */
  lemma SplittersJoin(gs: seq<Gate>, inp: (nat, nat) -> bool, p: nat, lens: seq<nat>, ids: seq<nat>)
    requires WellFormed(gs) && Splitters(gs, p, lens, ids)
    ensures Joined(gs, inp, ids) == PlainVal(gs, inp, p)
  {
    JoinedFront(gs, inp, p, lens, ids, |ids|);
    assert ids[..|ids|] == ids;
  }

  lemma {:induction false} JoinedFront(gs: seq<Gate>, inp: (nat, nat) -> bool, p: nat, lens: seq<nat>, ids: seq<nat>, n: nat)
    requires WellFormed(gs) && Splitters(gs, p, lens, ids) && n <= |ids|
    ensures PartStart(lens, n) <= gs[p].nvals
    ensures Joined(gs, inp, ids[..n]) == PlainVal(gs, inp, p)[..PartStart(lens, n)]
  {
    PartsWithin(lens, n, |lens|);
    if n > 0 {
      JoinedFront(gs, inp, p, lens, ids, n - 1);
      assert ids[..n][..n - 1] == ids[..n - 1];
      GateMeant(gs, inp, ids[n - 1]);
    }
  }

  lemma {:induction false} PartsWithin(lens: seq<nat>, i: nat, n: nat)
    requires i <= n <= |lens|
    ensures PartStart(lens, i) <= PartStart(lens, n)
  {
    if i < n {
      PartsWithin(lens, i, n - 1);
    }
  }

  /** The splitters of a table gate with several outputs: part o is column o of the rows that the operands spell. */
  lemma SplitTable(gs: seq<Gate>, inp: (nat, nat) -> bool, g: nat, s: nat, o: nat, n: nat)
    requires WellFormed(gs) && g < |gs| && gs[g].op.Table? && o < gs[g].op.outs && n < Vals(gs, g)
    requires s < |gs| && gs[s] == Gate(Split(g, Times(o, Vals(gs, g))), Vals(gs, g), gs[s].depth)
    ensures EntryMeans(gs, inp, g, o, n)
    ensures PlainVal(gs, inp, s)[n] == gs[g].op.table[Num(Slice(gs, inp, gs[g].op.inputs, n))][o]
  {
    GateMeant(gs, inp, s);
    EntryMeant(gs, inp, g, o, n);
    TimesIsProduct(o, Vals(gs, g));
    assert Width(gs, gs[g].op.inputs[0]) == Vals(gs, g);
  }
}
