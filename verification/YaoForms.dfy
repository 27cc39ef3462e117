/**
  When the client's outputs decode. The permutation bit of a wire is a polynomial of bits that are drawn at
  random, which the circuit determines. The evaluator decodes an output in every run if the bit it reads
  has the same form as the bit of the output itself.
 */
module YaoForms {
  import opened Bits
  import opened Circuit
  import opened Garbling
  import opened YaoOrder
  import opened YaoSpec
  import opened YaoMessage
  import opened YaoOutputs
  import opened Polynomials

  // ----- forms of keys and permutation bits -----------------------------------------------

  /**
    What is drawn at random for a wire. Pads of universal gates depend on the keys of both operands only, so
    that two of these gates on operands with the same keys share them.
   */
  datatype Atom = Own(g: nat, t: nat) | Pad(left: set<Atom>, right: set<Atom>)

  predicate HasAtom(op: Op) {
    op.In? || op.NonLin? || op.Univ?
  }

  ghost function AtomOf(gs: seq<Gate>, g: nat, t: nat): Atom
    requires g < |gs| && ParentsBelow(gs[g].op, g)
    decreases g, 0
  {
    match gs[g].op
    case Univ(l, r, _) => Pad(KeyOf(gs, l, t), KeyOf(gs, r, t))
    case _ => Own(g, t)
  }

  /** The atoms whose keys add up to the key of a wire. */
  ghost function KeyOf(gs: seq<Gate>, g: nat, t: nat): set<Atom>
    decreases g, 1
  {
    if g >= |gs| || !ParentsBelow(gs[g].op, g) || t >= gs[g].nvals then {}
    else if HasAtom(gs[g].op) then {AtomOf(gs, g, t)}
    else
      match gs[g].op
      case Lin(l, r) => Either(KeyOf(gs, l, t), KeyOf(gs, r, t))
      case Inv(p) => KeyOf(gs, p, t)
      case _ => {}
  }

  /** The polynomial of a truth table whose inputs are polynomials. */
  ghost function TableForm(table: nat, p: set<set<Atom>>, q: set<set<Atom>>): set<set<Atom>> {
    var c, cp := TableBit(table, false, false), TableBit(table, true, false);
    var cq, cpq := TableBit(table, false, true), TableBit(table, true, true);
    Either(Either(Fixed(c), if cp != c then p else {}),
           Either(if cq != c then q else {}, if (c != cp) != (cq != cpq) then Product(p, q) else {}))
  }

  lemma TableValue(table: nat, p: set<set<Atom>>, q: set<set<Atom>>, a: Atom -> bool)
    ensures ValueOf(TableForm(table, p, q), a) == TableBit(table, ValueOf(p, a), ValueOf(q, a))
  {
    var c, cp := TableBit(table, false, false), TableBit(table, true, false);
    var cq, cpq := TableBit(table, false, true), TableBit(table, true, true);
    var first, second := if cp != c then p else {}, if cq != c then q else {};
    var third := if (c != cp) != (cq != cpq) then Product(p, q) else {};
    FixedValue(c, a);
    ProductValue(p, q, a);
    SumValue(Fixed(c), first, a);
    SumValue(second, third, a);
    SumValue(Either(Fixed(c), first), Either(second, third), a);
  }

  /** The permutation bit of value t of gate g as a polynomial of the bits of atoms. */
  ghost function FormOf(gs: seq<Gate>, g: nat, t: nat): set<set<Atom>> {
    if g >= |gs| || !ParentsBelow(gs[g].op, g) || t >= gs[g].nvals then {}
    else
      match gs[g].op
      case In(src) => if src.SERVER? then {{AtomOf(gs, g, t)}} else {}
      case Constant(v) => Fixed(v)
      case Lin(l, r) => Either(FormOf(gs, l, t), FormOf(gs, r, t))
      case Inv(p) => Either(Fixed(true), FormOf(gs, p, t))
      case NonLin(_, _) => {{AtomOf(gs, g, t)}}
      case Univ(l, r, table) => Either(TableForm(table, FormOf(gs, l, t), FormOf(gs, r, t)), {{AtomOf(gs, g, t)}})
      case _ => {}
  }

  // ----- keys in a run --------------------------------------------------------------------

  ghost function KeyBit(key: Atom -> Key, i: nat): Atom -> bool {
    (x: Atom) => At(key(x), i)
  }

  /** The exclusive or of the keys of some atoms. */
  ghost function KeySum(kappa: nat, s: set<Atom>, key: Atom -> Key): (k: Key)
    ensures |k| == kappa && forall i | 0 <= i < kappa :: k[i] == Odd(s, KeyBit(key, i))
  {
    seq(kappa, i requires 0 <= i => Odd(s, KeyBit(key, i)))
  }

  /** A gate with an atom has the key of its atom. */
  ghost predicate KeyAt(w: Run, key: Atom -> Key, g: nat, t: nat) {
    g < |w.gs| && ParentsBelow(w.gs[g].op, g) && HasAtom(w.gs[g].op) && t < w.gs[g].nvals ==>
      |w.key(g, t)| == w.kappa && w.key(g, t) == key(AtomOf(w.gs, g, t))
  }

  ghost predicate KeysUpTo(w: Run, key: Atom -> Key, n: nat) {
    forall g: nat, t: nat {:trigger KeyAt(w, key, g, t)} | g < n :: KeyAt(w, key, g, t)
  }

  /** The key of every wire has its form. */
  lemma {:induction false} KeyHasForm(w: Run, key: Atom -> Key, g: nat, t: nat)
    requires RunOk(w) && g < |w.gs| && KeysUpTo(w, key, g + 1)
    ensures w.key(g, t) == KeySum(w.kappa, KeyOf(w.gs, g, t), key)
  {
    assert Assigned(w, g) && KeysOk(w, g, t) && KeyAt(w, key, g, t);
    if ParentsBelow(w.gs[g].op, g) && t < w.gs[g].nvals {
      if HasAtom(w.gs[g].op) {
        OneKey(w.kappa, AtomOf(w.gs, g, t), key);
      } else {
        match w.gs[g].op
        case Lin(l, r) =>
          KeyHasForm(w, key, l, t);
          KeyHasForm(w, key, r, t);
          KeysAdd(w.kappa, KeyOf(w.gs, l, t), KeyOf(w.gs, r, t), key);
        case Inv(p) => KeyHasForm(w, key, p, t);
        case _ =>
      }
    }
  }

  lemma OneKey(kappa: nat, x: Atom, key: Atom -> Key)
    requires |key(x)| == kappa
    ensures KeySum(kappa, {x}, key) == key(x)
  {
    forall i | 0 <= i < kappa
      ensures Odd({x}, KeyBit(key, i)) == key(x)[i]
    {
      OddOne(x, KeyBit(key, i));
    }
  }

  lemma KeysAdd(kappa: nat, s: set<Atom>, u: set<Atom>, key: Atom -> Key)
    ensures KeySum(kappa, Either(s, u), key) == Xor(KeySum(kappa, s, key), KeySum(kappa, u, key))
  {
    forall i | 0 <= i < kappa
      ensures Odd(Either(s, u), KeyBit(key, i)) == (Odd(s, KeyBit(key, i)) != Odd(u, KeyBit(key, i)))
    {
      OddSum(s, u, KeyBit(key, i));
    }
  }

  /** The key that a universal gate gets from its first pad. */
  function PadKey(p0: Key, R: Key): Key {
    XorIf(p0, Last(p0), R)
  }

  /** The key of an atom in a run. */
  ghost function AtomKey(w: Run, x: Atom): Key {
    match x
    case Own(g, t) => w.key(g, t)
    case Pad(left, right) =>
      var below := (y: Atom) => if y in left || y in right then AtomKey(w, y) else [];
      PadKey(w.pad(KeySum(w.kappa, left, below), KeySum(w.kappa, right, below), 0), w.R)
  }

  ghost function AtomKeys(w: Run): Atom -> Key {
    (x: Atom) => AtomKey(w, x)
  }

  lemma SumCong(kappa: nat, s: set<Atom>, key: Atom -> Key, other: Atom -> Key)
    requires forall x | x in s :: key(x) == other(x)
    ensures KeySum(kappa, s, key) == KeySum(kappa, s, other)
  {
    forall i | 0 <= i < kappa
      ensures Odd(s, KeyBit(key, i)) == Odd(s, KeyBit(other, i))
    {
      OddCong(s, KeyBit(key, i), KeyBit(other, i));
    }
  }

  lemma PadAtomKey(w: Run, left: set<Atom>, right: set<Atom>)
    ensures AtomKey(w, Pad(left, right)) ==
            PadKey(w.pad(KeySum(w.kappa, left, AtomKeys(w)), KeySum(w.kappa, right, AtomKeys(w)), 0), w.R)
  {
    var below := (y: Atom) => if y in left || y in right then AtomKey(w, y) else [];
    SumCong(w.kappa, left, below, AtomKeys(w));
    SumCong(w.kappa, right, below, AtomKeys(w));
  }

  /** Own keys have the length of a key. */
  lemma OwnKeySized(w: Run, g: nat, t: nat)
    requires Correct(w) && g < |w.gs| && HasAtom(w.gs[g].op) && t < w.gs[g].nvals
    ensures |w.key(g, t)| == w.kappa
  {
    ActiveCorrect(w, g, t);
  }

  /** In every run each atom has one key. */
  lemma {:induction false} AtomKeysUpTo(w: Run, n: nat)
    requires Correct(w) && n <= |w.gs|
    ensures KeysUpTo(w, AtomKeys(w), n)
  {
    if n > 0 {
      var g := n - 1;
      AtomKeysUpTo(w, g);
      forall t: nat
        ensures KeyAt(w, AtomKeys(w), g, t)
      {
        if HasAtom(w.gs[g].op) && t < w.gs[g].nvals {
          OwnKeySized(w, g, t);
          if w.gs[g].op.Univ? {
            UnivAtomKey(w, g, t);
          }
        }
      }
    }
  }

  /** The first pad of a universal gate is that of its atom. */
  lemma UnivPad(w: Run, key: Atom -> Key, g: nat, t: nat)
    requires RunOk(w) && g < |w.gs| && w.gs[g].op.Univ? && OrderedAt(w.gs, g) && KeysUpTo(w, key, g)
    ensures var x := AtomOf(w.gs, g, t);
            && w.key(w.gs[g].op.left, t) == KeySum(w.kappa, x.left, key)
            && w.key(w.gs[g].op.right, t) == KeySum(w.kappa, x.right, key)
  {
    KeyHasForm(w, key, w.gs[g].op.left, t);
    KeyHasForm(w, key, w.gs[g].op.right, t);
  }

  lemma UnivAtomKey(w: Run, g: nat, t: nat)
    requires Correct(w) && g < |w.gs| && w.gs[g].op.Univ? && t < w.gs[g].nvals && OrderedAt(w.gs, g)
    requires KeysUpTo(w, AtomKeys(w), g)
    ensures w.key(g, t) == AtomKey(w, AtomOf(w.gs, g, t))
  {
    var x := AtomOf(w.gs, g, t);
    UnivPad(w, AtomKeys(w), g, t);
    PadAtomKey(w, x.left, x.right);
    var out := UnivKeys(w, g, t);
  }

  // ----- permutation bits in a run --------------------------------------------------------

  /** A gate with an atom has the bit of its atom. */
  ghost predicate BitAt(w: Run, a: Atom -> bool, g: nat, t: nat) {
    g < |w.gs| && ParentsBelow(w.gs[g].op, g) && t < w.gs[g].nvals ==>
      && (w.gs[g].op == In(SERVER) || w.gs[g].op.NonLin? ==> w.pi(g, t) == a(AtomOf(w.gs, g, t)))
      && (w.gs[g].op.Univ? ==>
            Last(w.pad(w.key(w.gs[g].op.left, t), w.key(w.gs[g].op.right, t), 0)) == a(AtomOf(w.gs, g, t)))
  }

  ghost predicate BitsUpTo(w: Run, a: Atom -> bool, n: nat) {
    forall g: nat, t: nat {:trigger BitAt(w, a, g, t)} | g < n :: BitAt(w, a, g, t)
  }

  /** Every permutation bit has its form. */
  lemma {:induction false} PiHasForm(w: Run, a: Atom -> bool, g: nat, t: nat)
    requires RunOk(w) && Ordered(w.gs) && g < |w.gs| && BitsUpTo(w, a, g + 1)
    ensures w.pi(g, t) == ValueOf(FormOf(w.gs, g, t), a)
    decreases g, 1
  {
    assert Assigned(w, g) && KeysOk(w, g, t) && OrderedAt(w.gs, g) && BitAt(w, a, g, t);
    if t < w.gs[g].nvals {
      match w.gs[g].op
      case Lin(_, _) => LinForm(w, a, g, t);
      case Inv(_) => InvForm(w, a, g, t);
      case Univ(_, _, _) => UnivForm(w, a, g, t);
      case _ => LeafForm(w, a, g, t);
    }
  }

  lemma LeafForm(w: Run, a: Atom -> bool, g: nat, t: nat)
    requires g < |w.gs| && OrderedAt(w.gs, g) && t < w.gs[g].nvals && KeysOk(w, g, t) && BitAt(w, a, g, t)
    requires !w.gs[g].op.Lin? && !w.gs[g].op.Inv? && !w.gs[g].op.Univ?
    ensures w.pi(g, t) == ValueOf(FormOf(w.gs, g, t), a)
  {
    VariableValue(AtomOf(w.gs, g, t), a);
    FixedValue(w.pi(g, t), a);
  }

  lemma {:induction false} LinForm(w: Run, a: Atom -> bool, g: nat, t: nat)
    requires RunOk(w) && Ordered(w.gs) && g < |w.gs| && w.gs[g].op.Lin? && t < w.gs[g].nvals && BitsUpTo(w, a, g + 1)
    requires OrderedAt(w.gs, g) && KeysOk(w, g, t)
    ensures w.pi(g, t) == ValueOf(FormOf(w.gs, g, t), a)
    decreases g, 0
  {
    var l, r := w.gs[g].op.left, w.gs[g].op.right;
    PiHasForm(w, a, l, t);
    PiHasForm(w, a, r, t);
    SumValue(FormOf(w.gs, l, t), FormOf(w.gs, r, t), a);
  }

  lemma {:induction false} InvForm(w: Run, a: Atom -> bool, g: nat, t: nat)
    requires RunOk(w) && Ordered(w.gs) && g < |w.gs| && w.gs[g].op.Inv? && t < w.gs[g].nvals && BitsUpTo(w, a, g + 1)
    requires OrderedAt(w.gs, g) && KeysOk(w, g, t)
    ensures w.pi(g, t) == ValueOf(FormOf(w.gs, g, t), a)
    decreases g, 0
  {
    var p := w.gs[g].op.parent;
    PiHasForm(w, a, p, t);
    FixedValue(true, a);
    SumValue(Fixed(true), FormOf(w.gs, p, t), a);
  }

  lemma {:induction false} UnivForm(w: Run, a: Atom -> bool, g: nat, t: nat)
    requires RunOk(w) && Ordered(w.gs) && g < |w.gs| && w.gs[g].op.Univ? && t < w.gs[g].nvals && BitsUpTo(w, a, g + 1)
    ensures w.pi(g, t) == ValueOf(FormOf(w.gs, g, t), a)
    decreases g, 0
  {
    assert OrderedAt(w.gs, g) && BitAt(w, a, g, t);
    var l, r, table, x := w.gs[g].op.left, w.gs[g].op.right, w.gs[g].op.table, AtomOf(w.gs, g, t);
    PiHasForm(w, a, l, t);
    PiHasForm(w, a, r, t);
    var out := UnivKeys(w, g, t);
    TableValue(table, FormOf(w.gs, l, t), FormOf(w.gs, r, t), a);
    VariableValue(x, a);
    SumValue(TableForm(table, FormOf(w.gs, l, t), FormOf(w.gs, r, t)), {{x}}, a);
  }

  /** The bit of an atom in a run. */
  ghost predicate AtomBit(w: Run, x: Atom) {
    match x
    case Own(g, t) => w.pi(g, t)
    case Pad(left, right) => Last(w.pad(KeySum(w.kappa, left, AtomKeys(w)), KeySum(w.kappa, right, AtomKeys(w)), 0))
  }

  ghost function AtomBits(w: Run): Atom -> bool {
    (x: Atom) => AtomBit(w, x)
  }

  /** In every run each atom has one bit. */
  lemma AtomBitsUpTo(w: Run, n: nat)
    requires Correct(w) && n <= |w.gs|
    ensures BitsUpTo(w, AtomBits(w), n)
  {
    forall g: nat, t: nat | g < n
      ensures BitAt(w, AtomBits(w), g, t)
    {
      if w.gs[g].op.Univ? {
        AtomKeysUpTo(w, g);
        assert OrderedAt(w.gs, g);
        UnivPad(w, AtomKeys(w), g, t);
      }
    }
  }

  // ----- the bits that are read -----------------------------------------------------------

  /** The wire of an output. */
  function OutWire(gs: seq<Gate>): (nat, nat) -> (nat, nat) {
    (g: nat, t: nat) => if g < |gs| && gs[g].op.Out? then (gs[g].op.parent, t) else (0, 0)
  }

  /** The wires whose permutation bits the garbler sends for the client's outputs, in the order of the stream. */
  function CollectedWires(gs: seq<Gate>): seq<(nat, nat)> {
    Strung(gs, ClientBits, OutWire(gs), Built(gs, ClientBits, |gs|), |Built(gs, ClientBits, |gs|)|)
  }

  lemma {:induction false} StrungPi(w: Run, q: seq<nat>, i: nat, k: nat)
    requires Ids(w.gs, q) && i <= |q| && k < Drawn(w.gs, ClientBits, q, i)
    ensures var wire := Strung(w.gs, ClientBits, OutWire(w.gs), q, i)[k];
            Strung(w.gs, ClientBits, OutPi(w), q, i)[k] == w.pi(wire.0, wire.1)
  {
    if k < Drawn(w.gs, ClientBits, q, i - 1) {
      StrungPi(w, q, i - 1, k);
    } else {
      var t := k - Drawn(w.gs, ClientBits, q, i - 1);
      StrungAt(w.gs, ClientBits, OutPi(w), q, i - 1, i, t);
      StrungAt(w.gs, ClientBits, OutWire(w.gs), q, i - 1, i, t);
    }
  }

  /** The bit that is read for value t of output g is inside the stream. */
  lemma ReadInside(gs: seq<Gate>, layers: nat, g: nat, t: nat)
    requires (forall h | 0 <= h < |gs| :: gs[h].depth < layers) && g < |gs| && Draws(gs, ClientBits, g) && t < gs[g].nvals
    ensures Place(gs, layers, ClientBits, g) + t < |CollectedWires(gs)|
  {
    var q := Order(gs, layers);
    OrderMembers(gs, layers, g);
    var i :| 0 <= i < |q| && q[i] == g;
    PlaceAt(gs, layers, ClientBits, i);
    StrungAt(gs, ClientBits, OutWire(gs), q, i, |q|, t);
    TotalDrawn(gs, ClientBits, layers);
  }

  /** The wire whose bit is read for value t of output g. */
  function WireRead(gs: seq<Gate>, layers: nat, g: nat, t: nat): (nat, nat) {
    var k := Place(gs, layers, ClientBits, g) + t;
    if k < |CollectedWires(gs)| then CollectedWires(gs)[k] else (0, 0)
  }

  /** Value t of a client's output. */
  predicate ClientOutput(gs: seq<Gate>, g: nat, t: nat) {
    g < |gs| && Draws(gs, ClientBits, g) && t < gs[g].nvals
  }

  ghost predicate SameForm(gs: seq<Gate>, layers: nat, g: nat, t: nat) {
    var read, own := WireRead(gs, layers, g, t), OutWire(gs)(g, t);
    FormOf(gs, read.0, read.1) == FormOf(gs, own.0, own.1)
  }

  /** For every client output, the bit that is read has the form of its own bit. */
  ghost predicate FormsAgree(gs: seq<Gate>, layers: nat) {
    forall g, t {:trigger SameForm(gs, layers, g, t)} | ClientOutput(gs, g, t) :: SameForm(gs, layers, g, t)
  }

  /** The client decodes value t of output g to its plain value. */
  ghost predicate DecodedRight(w: Run, g: nat, t: nat)
    requires Ordered(w.gs) && g < |w.gs|
  {
    (OutBit(w)(g, t) != At(Collected(w.gs, OutPi(w)), Place(w.gs, w.layers, ClientBits, g) + t)) == At(Eval(w.gs, w.inp)[g], t)
  }

  ghost predicate AllDecoded(w: Run)
    requires Ordered(w.gs)
  {
    forall g: nat, t: nat {:trigger DecodedRight(w, g, t)} | ClientOutput(w.gs, g, t) :: DecodedRight(w, g, t)
  }

  /** Decoding is right exactly if the bit that is read equals the output's own. */
  lemma DecodedIff(w: Run, g: nat, t: nat)
    requires Correct(w) && (forall h | 0 <= h < |w.gs| :: w.gs[h].depth < w.layers) && ClientOutput(w.gs, g, t)
    ensures var read, own := WireRead(w.gs, w.layers, g, t), OutWire(w.gs)(g, t);
            DecodedRight(w, g, t) <==> w.pi(read.0, read.1) == w.pi(own.0, own.1)
  {
    BitRead(w, g, t);
    OutputDecodes(w, g, t);
  }

  lemma BitRead(w: Run, g: nat, t: nat)
    requires (forall h | 0 <= h < |w.gs| :: w.gs[h].depth < w.layers) && ClientOutput(w.gs, g, t)
    ensures var read := WireRead(w.gs, w.layers, g, t);
            At(Collected(w.gs, OutPi(w)), Place(w.gs, w.layers, ClientBits, g) + t) == w.pi(read.0, read.1)
  {
    var b := Built(w.gs, ClientBits, |w.gs|);
    ReadInside(w.gs, w.layers, g, t);
    StrungPi(w, b, |b|, Place(w.gs, w.layers, ClientBits, g) + t);
  }

  // ----- which wires are read -------------------------------------------------------------

  /** The wire of some client output. */
  ghost predicate OfOutput(gs: seq<Gate>, wire: (nat, nat)) {
    exists g, t {:trigger ClientOutput(gs, g, t)} :: ClientOutput(gs, g, t) && OutWire(gs)(g, t) == wire
  }

  lemma {:induction false} StrungOfOutput(gs: seq<Gate>, q: seq<nat>, i: nat, k: nat)
    requires Ids(gs, q) && i <= |q| && k < Drawn(gs, ClientBits, q, i)
    ensures OfOutput(gs, Strung(gs, ClientBits, OutWire(gs), q, i)[k])
  {
    if k < Drawn(gs, ClientBits, q, i - 1) {
      StrungOfOutput(gs, q, i - 1, k);
    } else {
      var t := k - Drawn(gs, ClientBits, q, i - 1);
      StrungAt(gs, ClientBits, OutWire(gs), q, i - 1, i, t);
      assert ClientOutput(gs, q[i - 1], t);
    }
  }

  lemma ReadsOutput(gs: seq<Gate>, layers: nat, g: nat, t: nat)
    requires Ordered(gs) && (forall h | 0 <= h < |gs| :: gs[h].depth < layers) && ClientOutput(gs, g, t)
    ensures OfOutput(gs, WireRead(gs, layers, g, t)) && OfOutput(gs, OutWire(gs)(g, t))
    ensures WireRead(gs, layers, g, t).0 < |gs| && OutWire(gs)(g, t).0 < |gs|
  {
    var b := Built(gs, ClientBits, |gs|);
    ReadInside(gs, layers, g, t);
    StrungOfOutput(gs, b, |b|, Place(gs, layers, ClientBits, g) + t);
    forall h: nat, u: nat | ClientOutput(gs, h, u)
      ensures OutWire(gs)(h, u).0 < |gs|
    {
      assert OrderedAt(gs, h);
    }
  }

  /** Equal forms suffice, in every run and for every circuit. */
  lemma FormsSuffice(w: Run)
    requires Correct(w) && (forall h | 0 <= h < |w.gs| :: w.gs[h].depth < w.layers) && FormsAgree(w.gs, w.layers)
    ensures AllDecoded(w)
  {
    forall g: nat, t: nat | ClientOutput(w.gs, g, t)
      ensures DecodedRight(w, g, t)
    {
      var read, own := WireRead(w.gs, w.layers, g, t), OutWire(w.gs)(g, t);
      assert SameForm(w.gs, w.layers, g, t);
      ReadsOutput(w.gs, w.layers, g, t);
      AtomBitsUpTo(w, |w.gs|);
      PiHasForm(w, AtomBits(w), read.0, read.1);
      PiHasForm(w, AtomBits(w), own.0, own.1);
      DecodedIff(w, g, t);
    }
  }

  /** Outputs that were built layer by layer read their own bits, so their forms agree. */
  lemma LayersAgree(gs: seq<Gate>, layers: nat)
    requires Ordered(gs) && BuiltInLayers(gs) && forall h | 0 <= h < |gs| :: gs[h].depth < layers
    ensures FormsAgree(gs, layers)
  {
    forall g: nat, t: nat | ClientOutput(gs, g, t)
      ensures SameForm(gs, layers, g, t)
    {
      var q, b := Order(gs, layers), Built(gs, ClientBits, |gs|);
      SameOrder(gs, layers);
      DrawersStrung(gs, ClientBits, OutWire(gs), q, |q|);
      OrderMembers(gs, layers, g);
      var i :| 0 <= i < |q| && q[i] == g;
      PlaceAt(gs, layers, ClientBits, i);
      StrungAt(gs, ClientBits, OutWire(gs), q, i, |q|, t);
      assert WireRead(gs, layers, g, t) == OutWire(gs)(g, t);
    }
  }

  /** If the client's outputs were built layer by layer, each of them decodes to its plain value. */
  lemma DecodesPlain(w: Run)
    requires Correct(w) && BuiltInLayers(w.gs) && forall h | 0 <= h < |w.gs| :: w.gs[h].depth < w.layers
    ensures AllDecoded(w)
  {
    LayersAgree(w.gs, w.layers);
    FormsSuffice(w);
  }
}
