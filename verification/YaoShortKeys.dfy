/**
  Why the length of keys matters for decoding: with keys of a single bit, all universal gates share one
  pad, and a circuit decodes in every run although the forms of its outputs differ.
 */
module YaoShortKeys {
  import opened Bits
  import opened Circuit
  import opened Garbling
  import opened YaoOrder
  import opened YaoSpec
  import opened YaoMessage
  import opened YaoOutputs
  import opened Polynomials
  import opened YaoForms
  import opened YaoDecoding

  /** Constant-zero universal gates over an input of the server and over a constant; the output of the second one is reached first. */
  function TwoPads(): seq<Gate> {
    [Gate(In(SERVER), 1, 0, 1), Gate(Univ(0, 0, 0), 1, 1, 0), Gate(Out(1, To(CLIENT)), 1, 1, 0),
     Gate(Constant(false), 1, 0, 0), Gate(Univ(3, 3, 0), 1, 0, 0), Gate(Out(4, To(CLIENT)), 1, 0, 0)]
  }

  lemma UnivOk(gs: seq<Gate>, g: nat, p: nat)
    requires g < |gs| && p < g && gs[g] == Gate(Univ(p, p, 0), 1, Ready(gs[p]), 0) && !gs[p].op.Out? && gs[p].nvals == 1
    ensures GateOk(YAO, gs, g)
  {
    var front := gs[..g];
    MaxReadyPair(front, p, p);
  }

  lemma SixGates(gs: seq<Gate>)
    requires |gs| == 6 && gs[0] == Gate(In(SERVER), 1, 0, 1) && gs[1] == Gate(Univ(0, 0, 0), 1, 1, 0)
    requires gs[2] == Gate(Out(1, To(CLIENT)), 1, 1, 0) && gs[3] == Gate(Constant(false), 1, 0, 0)
    requires gs[4] == Gate(Univ(3, 3, 0), 1, 0, 0) && gs[5] == Gate(Out(4, To(CLIENT)), 1, 0, 0)
    ensures WellFormed(YAO, gs)
  {
    forall g: nat | g < |gs|
      ensures GateOk(YAO, gs, g)
    {
      if g == 0 || g == 3 {
        SourceOk(gs, g);
      } else if g == 1 || g == 4 {
        UnivOk(gs, g, g - 1);
      } else {
        OutputOk(gs, g, g - 1);
      }
    }
  }

  lemma TwoPadsIsGarblable(gs: seq<Gate>)
    requires gs == TwoPads()
    ensures Garblable(gs)
  {
    SixGates(gs);
    WellFormedOrdered(YAO, gs);
  }

  lemma LayerQueues(gs: seq<Gate>, interactive: bool, d: nat)
    requires gs == TwoPads() && d < 2
    ensures Queue(YAO, gs, interactive, d, 6) ==
            if d == 0 then (if interactive then [0, 5] else [3, 4]) else if interactive then [2] else [1]
  {
    QueueSnoc(gs, interactive, d, 0);
    QueueSnoc(gs, interactive, d, 1);
    QueueSnoc(gs, interactive, d, 2);
    QueueSnoc(gs, interactive, d, 3);
    QueueSnoc(gs, interactive, d, 4);
    QueueSnoc(gs, interactive, d, 5);
  }

  lemma OrderOfTwo(gs: seq<Gate>, q: seq<nat>, p: seq<nat>)
    requires LocalGates(gs, 0) + InteractiveGates(gs, 0) == q && LocalGates(gs, 1) + InteractiveGates(gs, 1) == p
    ensures Order(gs, 2) == q + p
  {
    assert Order(gs, 1) == q;
  }

  lemma LayerGates(gs: seq<Gate>, d: nat)
    requires gs == TwoPads() && d < 2
    ensures LocalGates(gs, d) == (if d == 0 then [3, 4] else [1]) && InteractiveGates(gs, d) == if d == 0 then [0, 5] else [2]
  {
    LayerQueues(gs, false, d);
    LayerQueues(gs, true, d);
  }

  lemma TwoPadsOrder(gs: seq<Gate>)
    requires gs == TwoPads()
    ensures Order(gs, 2) == [3, 4, 0, 5, 1, 2]
  {
    LayerGates(gs, 0);
    LayerGates(gs, 1);
    OrderOfTwo(gs, [3, 4, 0, 5], [1, 2]);
  }

  lemma TwoPadsBuilt(gs: seq<Gate>)
    requires gs == TwoPads()
    ensures Built(gs, ClientBits, 6) == [2, 5]
  {
    assert Built(gs, ClientBits, 2) == [] && Built(gs, ClientBits, 4) == [2] && Built(gs, ClientBits, 5) == [2];
  }

  /** For the second output, the wire of the first one is read. */
  lemma TwoPadsReads(gs: seq<Gate>)
    requires gs == TwoPads()
    ensures WireRead(gs, 2, 5, 0) == (1, 0)
  {
    SecondFirst(gs);
    TwoPadsBuilt(gs);
    StrungAt(gs, ClientBits, OutWire(gs), [2, 5], 0, 2, 0);
  }

  /** The second output is the first one to be decoded. */
  lemma SecondFirst(gs: seq<Gate>)
    requires gs == TwoPads()
    ensures Place(gs, 2, ClientBits, 5) == 0
  {
    TwoPadsOrder(gs);
    PlaceAt(gs, 2, ClientBits, 3);
    assert Drawn(gs, ClientBits, [3, 4, 0, 5, 1, 2], 1) == 0;
    assert Drawn(gs, ClientBits, [3, 4, 0, 5, 1, 2], 2) == 0;
  }

  /** The two gates have different forms. */
  lemma TwoForms(gs: seq<Gate>)
    requires gs == TwoPads()
    ensures FormOf(gs, 1, 0) != FormOf(gs, 4, 0)
  {
    var none: set<set<Atom>> := {};
    assert TableBit(0, false, false) == TableBit(0, true, false) == TableBit(0, false, true) == TableBit(0, true, true) == false;
    assert Either(Either(none, none), Either(none, none)) == none;
    var x, y := AtomOf(gs, 1, 0), AtomOf(gs, 4, 0);
    assert KeyOf(gs, 0, 0) == {Own(0, 0)} && KeyOf(gs, 3, 0) == {};
    assert x != y;
    assert FormOf(gs, 1, 0) == Either(none, {{x}}) && FormOf(gs, 4, 0) == Either(none, {{y}});
    assert {x} in FormOf(gs, 1, 0) && {x} !in FormOf(gs, 4, 0);
  }

  /** All wire keys of a single bit are zero. */
  lemma OnlyKey(k: Key)
    requires Plain(k, 1)
    ensures k == Zero(1)
  {
  }

  /** With one-bit keys, every constant-zero universal gate has the same permutation bit. */
  lemma SamePad(w: Run, g: nat, p: nat)
    requires Correct(w) && w.kappa == 1 && p < g < |w.gs| && w.gs[g].op == Univ(p, p, 0) && w.gs[g].nvals == 1
    requires Plain(w.key(p, 0), 1)
    ensures w.pi(g, 0) == Last(w.pad(Zero(1), Zero(1), 0))
  {
    OnlyKey(w.key(p, 0));
    var out := UnivKeys(w, g, 0);
    ZeroTable(w.pi(p, 0), w.pi(p, 0));
  }

  lemma ZeroTable(a: bool, b: bool)
    ensures !TableBit(0, a, b)
  {
  }

  lemma SamePads(w: Run)
    requires Correct(w) && w.gs == TwoPads() && w.kappa == 1
    ensures w.pi(1, 0) == w.pi(4, 0)
  {
    ActiveCorrect(w, 0, 0);
    ActiveCorrect(w, 3, 0);
    SamePad(w, 1, 0);
    SamePad(w, 4, 3);
  }

  /** Outputs that all have the same permutation bit decode, whichever is read. */
  lemma SameBitsDecode(w: Run, b: bool)
    requires Correct(w) && forall h | 0 <= h < |w.gs| :: w.gs[h].depth < w.layers
    requires forall wire: (nat, nat) | OfOutput(w.gs, wire) :: w.pi(wire.0, wire.1) == b
    ensures AllDecoded(w)
  {
    forall g: nat, t: nat | ClientOutput(w.gs, g, t)
      ensures DecodedRight(w, g, t)
    {
      ReadsOutput(w.gs, w.layers, g, t);
      DecodedIff(w, g, t);
    }
  }

  lemma OutputWires(gs: seq<Gate>, wire: (nat, nat))
    requires gs == TwoPads() && OfOutput(gs, wire)
    ensures wire == (1, 0) || wire == (4, 0)
  {
  }

  lemma BothDecode(w: Run)
    requires Correct(w) && w.gs == TwoPads() && w.kappa == 1 && w.layers == 2
    ensures AllDecoded(w)
  {
    SamePads(w);
    forall wire: (nat, nat) | OfOutput(w.gs, wire)
      ensures w.pi(wire.0, wire.1) == w.pi(1, 0)
    {
      OutputWires(w.gs, wire);
    }
    SameBitsDecode(w, w.pi(1, 0));
  }

  lemma Disagree(gs: seq<Gate>, layers: nat, g: nat, t: nat, read: (nat, nat), own: (nat, nat))
    requires ClientOutput(gs, g, t) && WireRead(gs, layers, g, t) == read && OutWire(gs)(g, t) == own
    requires FormOf(gs, read.0, read.1) != FormOf(gs, own.0, own.1)
    ensures !FormsAgree(gs, layers)
  {
    assert !SameForm(gs, layers, g, t);
  }

  lemma SecondOutput(gs: seq<Gate>)
    requires gs == TwoPads()
    ensures ClientOutput(gs, 5, 0) && OutWire(gs)(5, 0) == (4, 0)
  {
  }

  /** Every run with one-bit keys decodes, though the forms differ. */
  lemma ShortKeysDecode(gs: seq<Gate>)
    requires gs == TwoPads()
    ensures Garblable(gs) && AlwaysDecodes(1, gs, 2) && !FormsAgree(gs, 2)
  {
    TwoPadsIsGarblable(gs);
    TwoPadsReads(gs);
    TwoForms(gs);
    SecondOutput(gs);
    Disagree(gs, 2, 5, 0, (1, 0), (4, 0));
    forall w: Run | Correct(w) && w.gs == gs && w.layers == 2 && w.kappa == 1
      ensures AllDecoded(w)
    {
      BothDecode(w);
    }
  }
}
