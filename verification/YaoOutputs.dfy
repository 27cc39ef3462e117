/**
  Decoding the client's outputs. The garbler collects their permutation bits in the order in which
  the outputs were built, the evaluator reads them in the order in which it reaches the outputs.
 */
module YaoOutputs {
  import opened Bits
  import opened Circuit
  import opened Garbling
  import opened YaoOrder
  import opened YaoSpec
  import opened YaoMessage

  predicate NotLater(gs: seq<Gate>, g: nat, h: nat)
    requires g < |gs| && h < |gs|
  {
    Draws(gs, ClientBits, g) && Draws(gs, ClientBits, h) && g < h ==> gs[g].depth <= gs[h].depth
  }

  /** The client's outputs were built layer by layer. */
  ghost predicate BuiltInLayers(gs: seq<Gate>) {
    forall g, h {:trigger NotLater(gs, g, h)} | 0 <= g < |gs| && 0 <= h < |gs| :: NotLater(gs, g, h)
  }

  function Reached(gs: seq<Gate>, layers: nat): (q: seq<nat>)
    ensures Ids(gs, q) && forall k | 0 <= k < |q| :: Draws(gs, ClientBits, q[k])
  {
    Drawers(gs, ClientBits, Order(gs, layers), |Order(gs, layers)|)
  }

  // ----- both orders agree if the outputs were built layer by layer -----------------------

  /** The client's outputs below n on one layer, and on all layers before d. */
  function OutsAt(gs: seq<Gate>, d: nat, n: nat): (q: seq<nat>)
    requires n <= |gs|
    ensures forall k | 0 <= k < |q| :: q[k] < n && Draws(gs, ClientBits, q[k]) && gs[q[k]].depth == d
  {
    if n == 0 then []
    else if Draws(gs, ClientBits, n - 1) && gs[n - 1].depth == d then OutsAt(gs, d, n - 1) + [n - 1]
    else OutsAt(gs, d, n - 1)
  }

  function OutsBelow(gs: seq<Gate>, d: nat, n: nat): seq<nat>
    requires n <= |gs|
  {
    if n == 0 then []
    else if Draws(gs, ClientBits, n - 1) && gs[n - 1].depth < d then OutsBelow(gs, d, n - 1) + [n - 1]
    else OutsBelow(gs, d, n - 1)
  }

  lemma {:induction false} QueueOuts(gs: seq<Gate>, d: nat, n: nat)
    requires n <= |gs|
    ensures var q := Queue(YAO, gs, true, d, n); Drawers(gs, ClientBits, q, |q|) == OutsAt(gs, d, n)
  {
    if n > 0 {
      QueueOuts(gs, d, n - 1);
      var q, more := Queue(YAO, gs, true, d, n - 1), Queue(YAO, gs, true, d, n);
      DrawersSnoc(gs, ClientBits, q, n - 1);
      assert more == q || more == q + [n - 1];
    }
  }

  lemma DrawersSnoc(gs: seq<Gate>, s: Supply, q: seq<nat>, g: nat)
    requires Ids(gs, q) && g < |gs|
    ensures Drawers(gs, s, q + [g], |q + [g]|) == Drawers(gs, s, q, |q|) + if Draws(gs, s, g) then [g] else []
  {
    DrawersCong(gs, s, q + [g], q, |q|);
  }

  lemma {:induction false} NextLayerOuts(gs: seq<Gate>, d: nat, n: nat)
    requires BuiltInLayers(gs) && n <= |gs|
    ensures OutsBelow(gs, d + 1, n) == OutsBelow(gs, d, n) + OutsAt(gs, d, n)
  {
    if n > 0 {
      NextLayerOuts(gs, d, n - 1);
      if Draws(gs, ClientBits, n - 1) && gs[n - 1].depth < d {
        NoOutsLater(gs, d, n - 1, n - 1);
      }
    }
  }

  /** Outputs built before one of an earlier layer are not on a later one. */
  lemma {:induction false} NoOutsLater(gs: seq<Gate>, d: nat, g: nat, n: nat)
    requires BuiltInLayers(gs) && n <= g < |gs| && Draws(gs, ClientBits, g) && gs[g].depth < d
    ensures OutsAt(gs, d, n) == []
  {
    if n > 0 {
      NoOutsLater(gs, d, g, n - 1);
      assert NotLater(gs, n - 1, g);
    }
  }

  lemma {:induction false} NoOutsBelow(gs: seq<Gate>, n: nat)
    requires n <= |gs|
    ensures OutsBelow(gs, 0, n) == []
  {
    if n > 0 {
      NoOutsBelow(gs, n - 1);
    }
  }

  lemma {:induction false} AllOutsBelow(gs: seq<Gate>, d: nat, n: nat)
    requires n <= |gs| && forall g | 0 <= g < n :: gs[g].depth < d
    ensures OutsBelow(gs, d, n) == Built(gs, ClientBits, n)
  {
    if n > 0 {
      AllOutsBelow(gs, d, n - 1);
    }
  }

  lemma {:induction false} ReachedBelow(gs: seq<Gate>, d: nat)
    requires BuiltInLayers(gs)
    ensures Reached(gs, d) == OutsBelow(gs, d, |gs|)
  {
    if d == 0 {
      NoOutsBelow(gs, |gs|);
    } else {
      ReachedBelow(gs, d - 1);
      LayerDrawers(gs, ClientBits, d - 1);
      QueueOuts(gs, d - 1, |gs|);
      NextLayerOuts(gs, d - 1, |gs|);
    }
  }

  lemma SameOrder(gs: seq<Gate>, layers: nat)
    requires BuiltInLayers(gs) && forall g | 0 <= g < |gs| :: gs[g].depth < layers
    ensures Reached(gs, layers) == Built(gs, ClientBits, |gs|)
  {
    ReachedBelow(gs, layers);
    AllOutsBelow(gs, layers, |gs|);
  }

  // ----- reading --------------------------------------------------------------------------

  /** The bits that the garbler sends for the client's outputs. */
  function Collected(gs: seq<Gate>, f: (nat, nat) -> bool): seq<bool> {
    Strung(gs, ClientBits, f, Built(gs, ClientBits, |gs|), |Built(gs, ClientBits, |gs|)|)
  }

  // ----- a circuit that is decoded wrongly ------------------------------------------------

  /** An input of the client and a constant, in this order; the constant's output is reached first. */
  function OutOfOrder(): seq<Gate> {
    [Gate(In(CLIENT), 1, 0, 2), Gate(Out(0, To(CLIENT)), 1, 2, 0), Gate(Constant(true), 1, 0, 0), Gate(Out(2, To(CLIENT)), 1, 0, 0)]
  }

  lemma OutputOk(gs: seq<Gate>, g: nat, p: nat)
    requires g < |gs| && p < g && gs[g] == Gate(Out(p, To(CLIENT)), 1, gs[g].depth, 0) && gs[g].depth == Ready(gs[p])
    requires !gs[p].op.Out? && gs[p].nvals == 1
    ensures GateOk(YAO, gs, g)
  {
    var front := gs[..g];
    assert front[p] == gs[p] && [p][..0] == [];
    assert MaxReady(front, [p]) == Ready(gs[p]);
  }

  lemma SourceOk(gs: seq<Gate>, g: nat)
    requires g < |gs| && (gs[g].op.In? || gs[g].op.Constant?) && gs[g] == Gate(gs[g].op, 1, 0, Rounds(YAO, gs[g].op))
    ensures GateOk(YAO, gs, g)
  {
  }

  lemma FourGates(gs: seq<Gate>)
    requires |gs| == 4 && gs[0] == Gate(In(CLIENT), 1, 0, 2) && gs[1] == Gate(Out(0, To(CLIENT)), 1, 2, 0)
    requires gs[2] == Gate(Constant(true), 1, 0, 0) && gs[3] == Gate(Out(2, To(CLIENT)), 1, 0, 0)
    ensures WellFormed(YAO, gs)
  {
    forall g: nat | g < |gs|
      ensures GateOk(YAO, gs, g)
    {
      if g == 0 || g == 2 {
        SourceOk(gs, g);
      } else {
        OutputOk(gs, g, g - 1);
      }
    }
  }

  lemma OutOfOrderIsGarblable(gs: seq<Gate>)
    requires gs == OutOfOrder()
    ensures Garblable(gs) && !BuiltInLayers(gs)
  {
    FourGates(gs);
    WellFormedOrdered(YAO, gs);
    assert !NotLater(gs, 1, 3);
  }

  lemma OrderOfThree(gs: seq<Gate>, q: seq<nat>, p: seq<nat>)
    requires LocalGates(gs, 0) + InteractiveGates(gs, 0) == q && LocalGates(gs, 1) == InteractiveGates(gs, 1) == LocalGates(gs, 2) == []
    requires InteractiveGates(gs, 2) == p
    ensures Order(gs, 3) == q + p
  {
    assert Order(gs, 1) == q;
    assert Order(gs, 2) == q;
  }

  /** Constant, input, the constant's output, and at last the input's output. */
  lemma OutOfOrderQueues(gs: seq<Gate>)
    requires gs == OutOfOrder()
    ensures Order(gs, 3) == [2, 0, 3, 1]
  {
    Queues(gs, 0);
    Queues(gs, 1);
    Queues(gs, 2);
    OrderOfThree(gs, [2, 0, 3], [1]);
  }

  lemma OutOfOrderBuilt(gs: seq<Gate>)
    requires gs == OutOfOrder()
    ensures Built(gs, ClientBits, 4) == [1, 3]
  {
    assert Built(gs, ClientBits, 1) == [] && Built(gs, ClientBits, 2) == [1] && Built(gs, ClientBits, 3) == [1];
  }

  lemma Queues(gs: seq<Gate>, d: nat)
    requires gs == OutOfOrder() && d < 3
    ensures LocalGates(gs, d) == (if d == 0 then [2] else [])
    ensures InteractiveGates(gs, d) == if d == 0 then [0, 3] else if d == 1 then [] else [1]
  {
    forall interactive: bool
      ensures Queue(YAO, gs, interactive, d, 4) == (if interactive then (if d == 0 then [0, 3] else if d == 1 then [] else [1])
                                                    else if d == 0 then [2] else [])
    {
      QueueSnoc(gs, interactive, d, 0);
      QueueSnoc(gs, interactive, d, 1);
      QueueSnoc(gs, interactive, d, 2);
      QueueSnoc(gs, interactive, d, 3);
    }
  }

  lemma QueueSnoc(gs: seq<Gate>, interactive: bool, d: nat, n: nat)
    requires n < |gs|
    ensures Queue(YAO, gs, interactive, d, n + 1) ==
            Queue(YAO, gs, interactive, d, n) + if gs[n].depth == d && Interactive(YAO, gs[n].op) == interactive then [n] else []
    ensures Queue(YAO, gs, interactive, d, 0) == []
  {
  }

  /** In every run of this circuit, the client decodes the constant to the wrong value. */
  lemma OutOfOrderMisdecoded(w: Run)
    requires Correct(w) && w.gs == OutOfOrder() && w.layers == 3
    ensures (OutBit(w)(3, 0) != At(Collected(w.gs, OutPi(w)), Place(w.gs, 3, ClientBits, 3))) == false
    ensures At(Eval(w.gs, w.inp)[3], 0) == true
  {
    var gs, f := w.gs, OutPi(w);
    OutOfOrderReads(gs, f);
    assert Assigned(w, 0) && Assigned(w, 2) && KeysOk(w, 0, 0) && KeysOk(w, 2, 0);
    assert !w.pi(0, 0) && w.active(2, 0) == Zero(w.kappa);
    assert f(1, 0) == w.pi(0, 0) && OutBit(w)(3, 0) == Last(w.active(2, 0));
    var vals := Eval(gs, w.inp);
    ValuesUnique(gs, vals, w.inp);
    assert ValueOk(gs, vals, w.inp, 2) && ValueOk(gs, vals, w.inp, 3);
  }

  /** For the constant's output, the bit of the input's output is read. */
  lemma OutOfOrderReads(gs: seq<Gate>, f: (nat, nat) -> bool)
    requires gs == OutOfOrder()
    ensures At(Collected(gs, f), Place(gs, 3, ClientBits, 3)) == f(1, 0)
  {
    OutOfOrderQueues(gs);
    OutOfOrderBuilt(gs);
    PlaceAt(gs, 3, ClientBits, 2);
    assert Drawn(gs, ClientBits, [2, 0, 3, 1], 1) == 0;
    assert Drawn(gs, ClientBits, [2, 0, 3, 1], 2) == 0;
    StrungAt(gs, ClientBits, f, [1, 3], 0, 2, 0);
  }
}
