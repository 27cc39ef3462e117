/**
  Garbling a whole circuit: which keys the garbler assigns, and which keys the evaluator ends up with.
 */
module YaoSpec {
  import opened Bits
  import opened Circuit
  import opened Garbling
  import opened YaoOrder

  // ----- keys -----------------------------------------------------------------------------

  /**
    One run: the circuit, the inputs, all keys and randomness, the encryption of wires, the garbled
    tables of every gate, and for every wire the garbler's key, its permutation bit and the evaluator's
    key.
   */
  datatype Run = Run(gs: seq<Gate>, layers: nat, inp: (nat, nat) -> bool, kappa: nat, R: Key,
                     enc: (Key, nat) -> Key, pad: (Key, Key, nat) -> Key,
                     serverKey: nat -> Key, clientKey: nat -> Key, perm: nat -> bool,
                     mask0: nat -> Key, mask1: nat -> Key, choice: nat -> bool,
                     andTable: (nat, nat) -> AndTable, univTable: (nat, nat) -> UnivTable,
                     key: (nat, nat) -> Key, pi: (nat, nat) -> bool, active: (nat, nat) -> Key)

  /** R ends in one, wire keys end in zero, and everything has the length of a key. */
  ghost predicate Lengths(w: Run) {
    && Sized(w.R, w.kappa) && Last(w.R)
    && (forall k, i {:trigger w.enc(k, i)} :: Sized(w.enc(k, i), w.kappa))
    && (forall k, l, i {:trigger w.pad(k, l, i)} :: Sized(w.pad(k, l, i), w.kappa))
    && (forall j {:trigger w.serverKey(j)} :: Plain(w.serverKey(j), w.kappa))
    && (forall j {:trigger w.clientKey(j)} :: Plain(w.clientKey(j), w.kappa))
    && (forall j {:trigger w.mask0(j)} :: Sized(w.mask0(j), w.kappa))
    && (forall j {:trigger w.mask1(j)} :: Sized(w.mask1(j), w.kappa))
  }

  /** The four encryptions for the table with number ctr. */
  function MasksOf(enc: (Key, nat) -> Key, R: Key, lkey: Key, rkey: Key, ctr: nat): Masks {
    Masks(enc(lkey, 2 * ctr), enc(Xor(lkey, R), 2 * ctr), enc(rkey, 2 * ctr + 1), enc(Xor(rkey, R), 2 * ctr + 1))
  }

  function AndMasks(w: Run, lkey: Key, rkey: Key, ctr: nat): Masks {
    MasksOf(w.enc, w.R, lkey, rkey, ctr)
  }

  /** The table number of value t of gate g. */
  function TableAt(w: Run, g: nat, t: nat): nat {
    Place(w.gs, w.layers, AndTables, g) + t
  }

  const NO_AND_TABLE := AndTable(HalfGates([], []), [], false)
  const NO_UNIV_TABLE := UnivTable(Rows([], [], []), [], false)

  /** The table with number ctr, for wires with these keys and permutation bits. */
  function AndTableFor(enc: (Key, nat) -> Key, R: Key, lkey: Key, rkey: Key, lpi: bool, rpi: bool, ctr: nat): AndTable {
    GarbleAnd(lkey, lpi, rpi, R, MasksOf(enc, R, lkey, rkey, ctr))
  }

  /** The table of an AND gate. */
  function AndStep(w: Run, g: nat, t: nat): AndTable {
    if g < |w.gs| && ParentsBelow(w.gs[g].op, g) && w.gs[g].op.NonLin? then
      var l, r := w.gs[g].op.left, w.gs[g].op.right;
      AndTableFor(w.enc, w.R, w.key(l, t), w.key(r, t), w.pi(l, t), w.pi(r, t), TableAt(w, g, t))
    else NO_AND_TABLE
  }

  /** The table of a universal gate. */
  function UnivStep(w: Run, g: nat, t: nat): UnivTable {
    if g < |w.gs| && ParentsBelow(w.gs[g].op, g) && w.gs[g].op.Univ? then
      var l, r := w.gs[g].op.left, w.gs[g].op.right;
      var lother, rother := Xor(w.key(l, t), w.R), Xor(w.key(r, t), w.R);
      GarbleUniv(w.gs[g].op.table, w.pi(l, t), w.pi(r, t), w.R, w.pad(w.key(l, t), w.key(r, t), 0), w.pad(w.key(l, t), rother, 1),
                   w.pad(lother, w.key(r, t), 2), w.pad(lother, rother, 3))
    else NO_UNIV_TABLE
  }

  /** What the garbler assigns to a wire. */
  function GarbleStep(w: Run, g: nat, t: nat): (Key, bool) {
    if g >= |w.gs| || !ParentsBelow(w.gs[g].op, g) || t >= w.gs[g].nvals then (Zero(w.kappa), false)
    else
      match w.gs[g].op
      case In(src) =>
        if src.SERVER? then
          var j := Place(w.gs, w.layers, ServerKeys, g) + t;
          (w.serverKey(j), w.perm(j))
        else
          (w.clientKey(Place(w.gs, w.layers, ClientKeys, g) + t), false)
      case Constant(v) => (Zero(w.kappa), v)
      case Lin(l, r) => (Xor(w.key(l, t), w.key(r, t)), w.pi(l, t) != w.pi(r, t))
      case Inv(p) => (w.key(p, t), !w.pi(p, t))
      case NonLin(_, _) => (w.andTable(g, t).outKey, w.andTable(g, t).pi)
      case Univ(_, _, _) => (w.univTable(g, t).outKey, w.univTable(g, t).pi)
      case _ => (Zero(w.kappa), false)
  }

  function Mask(w: Run, j: nat): Key {
    if w.choice(j) then w.mask1(j) else w.mask0(j)
  }

  function EvalAndWith(enc: (Key, nat) -> Key, lactive: Key, ractive: Key, ctr: nat, rows: HalfGates): Key {
    EvalAnd(lactive, ractive, enc(lactive, 2 * ctr), enc(ractive, 2 * ctr + 1), rows)
  }

  function EvalUnivWith(pad: (Key, Key, nat) -> Key, lactive: Key, ractive: Key, rows: Rows): Key {
    var a, b := Last(lactive), Last(ractive);
    EvalUniv(a, b, pad(lactive, ractive, 2 * Bit(a) + Bit(b)), rows)
  }

  /** The key that reaches the evaluator. */
  function ActiveStep(w: Run, g: nat, t: nat): Key {
    if g >= |w.gs| || !ParentsBelow(w.gs[g].op, g) || t >= w.gs[g].nvals then Zero(w.kappa)
    else
      match w.gs[g].op
      case In(src) =>
        if src.SERVER? then
          var j := Place(w.gs, w.layers, ServerKeys, g) + t;
          XorIf(w.serverKey(j), w.inp(g, t) != w.perm(j), w.R)
        else
          var j := Place(w.gs, w.layers, ClientKeys, g) + t;
          Xor(MaskedKey(w.clientKey(j), w.R, Mask(w, j), w.inp(g, t) != w.choice(j), w.choice(j)), Mask(w, j))
      case Constant(_) => Zero(w.kappa)
      case Lin(l, r) => Xor(w.active(l, t), w.active(r, t))
      case Inv(p) => w.active(p, t)
      case NonLin(l, r) =>
        EvalAndWith(w.enc, w.active(l, t), w.active(r, t), TableAt(w, g, t), w.andTable(g, t).rows)
      case Univ(l, r, table) => EvalUnivWith(w.pad, w.active(l, t), w.active(r, t), w.univTable(g, t).rows)
      case _ => Zero(w.kappa)
  }

  predicate TablesOk(w: Run, g: nat, t: nat) {
    w.andTable(g, t) == AndStep(w, g, t) && w.univTable(g, t) == UnivStep(w, g, t)
  }

  predicate KeysOk(w: Run, g: nat, t: nat) {
    (w.key(g, t), w.pi(g, t)) == GarbleStep(w, g, t) && w.active(g, t) == ActiveStep(w, g, t)
  }

  /** The tables and keys of a gate are those of its steps. */
  ghost predicate Assigned(w: Run, g: nat) {
    forall t {:trigger TablesOk(w, g, t)} {:trigger KeysOk(w, g, t)} :: TablesOk(w, g, t) && KeysOk(w, g, t)
  }

  ghost predicate RunOk(w: Run) {
    forall g {:trigger Assigned(w, g)} | 0 <= g < |w.gs| :: Assigned(w, g)
  }

  ghost predicate YaoGates(gs: seq<Gate>) {
    forall g | 0 <= g < |gs| :: !gs[g].op.NonLinVec? && !gs[g].op.StructCombine?
  }

  /** The circuits this sharing garbles. */
  ghost predicate Garblable(gs: seq<Gate>) {
    WellFormed(YAO, gs) && Ordered(gs) && YaoGates(gs)
  }

  /** The evaluator holds the garbler's key, offset by R exactly when the value differs from the permutation bit. */
  predicate ActiveOk(w: Run, g: nat, t: nat, v: bool) {
    Plain(w.key(g, t), w.kappa) && w.active(g, t) == XorIf(w.key(g, t), v != w.pi(g, t), w.R)
  }

  ghost predicate Correct(w: Run) {
    Garblable(w.gs) && RunOk(w) && Lengths(w)
  }

  /** For every input, every R, all keys and every encryption: the evaluator's key stands for the plain value. */
  lemma {:induction false} ActiveCorrect(w: Run, g: nat, t: nat)
    requires Correct(w) && g < |w.gs| && !w.gs[g].op.Out? && t < w.gs[g].nvals
    ensures ActiveOk(w, g, t, At(Eval(w.gs, w.inp)[g], t))
    decreases g, 3
  {
    var gate, vals := w.gs[g], Eval(w.gs, w.inp);
    ValuesUnique(w.gs, vals, w.inp);
    assert GateOk(YAO, w.gs, g) && OrderedAt(w.gs, g) && ValueOk(w.gs, vals, w.inp, g);
    if gate.op.NonLin? {
      AndActive(w, g, t);
    } else if gate.op.Univ? {
      UnivActive(w, g, t);
    } else {
      LocalActive(w, g, t);
    }
  }

  lemma {:induction false} OperandActive(w: Run, g: nat, k: nat, t: nat)
    requires Correct(w) && g < |w.gs| && t < w.gs[g].nvals && k < |Parents(w.gs[g].op)|
    ensures var p := Parents(w.gs[g].op)[k]; p < g && ActiveOk(w, p, t, At(Eval(w.gs, w.inp)[p], t))
    decreases g, 0
  {
    var p := Parents(w.gs[g].op)[k];
    assert GateOk(YAO, w.gs, g) && OrderedAt(w.gs, g);
    assert !w.gs[..g][p].op.Out? && w.gs[..g][p] == w.gs[p];
    ActiveCorrect(w, p, t);
  }

  /** What an AND gate is garbled to, and what it is evaluated to. */
  lemma AndKeys(w: Run, g: nat, t: nat, m: Masks)
    requires RunOk(w) && Ordered(w.gs) && g < |w.gs| && w.gs[g].op.NonLin? && t < w.gs[g].nvals
    requires m == AndMasks(w, w.key(w.gs[g].op.left, t), w.key(w.gs[g].op.right, t), TableAt(w, g, t))
    ensures var l, r, ctr := w.gs[g].op.left, w.gs[g].op.right, TableAt(w, g, t);
            var table := GarbleAnd(w.key(l, t), w.pi(l, t), w.pi(r, t), w.R, m);
            && w.key(g, t) == table.outKey && w.pi(g, t) == table.pi
            && w.active(g, t) == EvalAnd(w.active(l, t), w.active(r, t), w.enc(w.active(l, t), 2 * ctr),
                                         w.enc(w.active(r, t), 2 * ctr + 1), table.rows)
  {
    assert Assigned(w, g) && KeysOk(w, g, t) && OrderedAt(w.gs, g);
    assert w.andTable(g, t) == AndStep(w, g, t) by {
      assert TablesOk(w, g, t);
    }
  }

  lemma UnivKeys(w: Run, g: nat, t: nat) returns (out: UnivTable)
    requires RunOk(w) && Ordered(w.gs) && g < |w.gs| && w.gs[g].op.Univ? && t < w.gs[g].nvals
    ensures var l, r := w.gs[g].op.left, w.gs[g].op.right;
            var lkey, rkey := w.key(l, t), w.key(r, t);
            && out == GarbleUniv(w.gs[g].op.table, w.pi(l, t), w.pi(r, t), w.R, w.pad(lkey, rkey, 0), w.pad(lkey, Xor(rkey, w.R), 1),
                                   w.pad(Xor(lkey, w.R), rkey, 2), w.pad(Xor(lkey, w.R), Xor(rkey, w.R), 3))
            && w.key(g, t) == out.outKey && w.pi(g, t) == out.pi
            && w.active(g, t) == EvalUnivWith(w.pad, w.active(l, t), w.active(r, t), out.rows)
  {
    assert Assigned(w, g) && KeysOk(w, g, t) && TablesOk(w, g, t) && OrderedAt(w.gs, g);
    out := w.univTable(g, t);
  }

  lemma {:induction false} AndActive(w: Run, g: nat, t: nat)
    requires Correct(w) && g < |w.gs| && w.gs[g].op.NonLin? && t < w.gs[g].nvals
    ensures var l, r, vals := w.gs[g].op.left, w.gs[g].op.right, Eval(w.gs, w.inp);
            l < g && r < g && ActiveOk(w, g, t, At(vals[l], t) && At(vals[r], t))
    decreases g, 1
  {
    var l, r, ctr, vals := w.gs[g].op.left, w.gs[g].op.right, TableAt(w, g, t), Eval(w.gs, w.inp);
    OperandActive(w, g, 0, t);
    OperandActive(w, g, 1, t);
    var m := AndMasks(w, w.key(l, t), w.key(r, t), ctr);
    AndKeys(w, g, t, m);
    AndCorrect(w.key(l, t), w.key(r, t), w.pi(l, t), w.pi(r, t), w.R, m, At(vals[l], t), At(vals[r], t), w.kappa);
  }

  /** The evaluator's keys select the row and its pad. */
  lemma RowSelected(w: Run, lkey: Key, rkey: Key, a: bool, b: bool, lactive: Key, ractive: Key, rows: Rows)
    requires Plain(lkey, w.kappa) && Plain(rkey, w.kappa) && Sized(w.R, w.kappa) && Last(w.R)
    requires lactive == XorIf(lkey, a, w.R) && ractive == XorIf(rkey, b, w.R)
    ensures EvalUnivWith(w.pad, lactive, ractive, rows) ==
            EvalUniv(a, b, if a then (if b then w.pad(Xor(lkey, w.R), Xor(rkey, w.R), 3) else w.pad(Xor(lkey, w.R), rkey, 2))
                           else if b then w.pad(lkey, Xor(rkey, w.R), 1) else w.pad(lkey, rkey, 0), rows)
  {
    assert Last(lactive) == a && Last(ractive) == b;
  }

  /** One universal gate, from the keys of its inputs. */
  lemma UnivDelivers(w: Run, table: nat, lkey: Key, rkey: Key, lpi: bool, rpi: bool, va: bool, vb: bool, lactive: Key, ractive: Key,
                     out: UnivTable)
    requires Lengths(w) && Plain(lkey, w.kappa) && Plain(rkey, w.kappa)
    requires lactive == XorIf(lkey, va != lpi, w.R) && ractive == XorIf(rkey, vb != rpi, w.R)
    requires out == GarbleUniv(table, lpi, rpi, w.R, w.pad(lkey, rkey, 0), w.pad(lkey, Xor(rkey, w.R), 1),
                               w.pad(Xor(lkey, w.R), rkey, 2), w.pad(Xor(lkey, w.R), Xor(rkey, w.R), 3))
    ensures Plain(out.outKey, w.kappa)
    ensures EvalUnivWith(w.pad, lactive, ractive, out.rows) == XorIf(out.outKey, TableBit(table, va, vb) != out.pi, w.R)
  {
    var lother, rother := Xor(lkey, w.R), Xor(rkey, w.R);
    var p0, p1, p2, p3 := w.pad(lkey, rkey, 0), w.pad(lkey, rother, 1), w.pad(lother, rkey, 2), w.pad(lother, rother, 3);
    RowSelected(w, lkey, rkey, va != lpi, vb != rpi, lactive, ractive, out.rows);
    UnivEntry(table, lpi, rpi, w.R, p0, p1, p2, p3, va, vb, w.kappa);
  }

  lemma {:induction false} UnivActive(w: Run, g: nat, t: nat)
    requires Correct(w) && g < |w.gs| && w.gs[g].op.Univ? && t < w.gs[g].nvals && OrderedAt(w.gs, g)
    ensures var l, r, vals := w.gs[g].op.left, w.gs[g].op.right, Eval(w.gs, w.inp);
            var table, a, b := w.gs[g].op.table, At(vals[l], t), At(vals[r], t);
            var bit := if a then (if b then table / 8 % 2 == 1 else table / 4 % 2 == 1) else if b then table / 2 % 2 == 1 else table % 2 == 1;
            ActiveOk(w, g, t, bit) && bit == TableBit(table, a, b)
    decreases g, 1
  {
    var vals := Eval(w.gs, w.inp);
    OperandActive(w, g, 0, t);
    OperandActive(w, g, 1, t);
    UnivFrom(w, g, t, At(vals[w.gs[g].op.left], t), At(vals[w.gs[g].op.right], t));
    TableBitIs(w.gs[g].op.table, At(vals[w.gs[g].op.left], t), At(vals[w.gs[g].op.right], t));
  }

  lemma UnivFrom(w: Run, g: nat, t: nat, va: bool, vb: bool)
    requires RunOk(w) && Lengths(w) && Ordered(w.gs) && g < |w.gs| && w.gs[g].op.Univ? && t < w.gs[g].nvals
    requires ActiveOk(w, w.gs[g].op.left, t, va) && ActiveOk(w, w.gs[g].op.right, t, vb)
    ensures ActiveOk(w, g, t, TableBit(w.gs[g].op.table, va, vb))
  {
    var l, r := w.gs[g].op.left, w.gs[g].op.right;
    var out := UnivKeys(w, g, t);
    UnivDelivers(w, w.gs[g].op.table, w.key(l, t), w.key(r, t), w.pi(l, t), w.pi(r, t), va, vb, w.active(l, t), w.active(r, t), out);
  }

  lemma InputActive(w: Run, g: nat, t: nat)
    requires Lengths(w) && g < |w.gs| && w.gs[g].op.In? && t < w.gs[g].nvals && KeysOk(w, g, t)
    ensures ActiveOk(w, g, t, w.inp(g, t))
  {
    if w.gs[g].op.src.CLIENT? {
      var j := Place(w.gs, w.layers, ClientKeys, g) + t;
      TransferCorrect(w.clientKey(j), w.R, w.mask0(j), w.mask1(j), w.choice(j), w.inp(g, t), w.kappa);
    }
  }

  /** Free XOR. */
  lemma XorActive(lkey: Key, rkey: Key, R: Key, a: bool, b: bool, kappa: nat)
    requires Plain(lkey, kappa) && Plain(rkey, kappa) && Sized(R, kappa)
    ensures Plain(Xor(lkey, rkey), kappa)
    ensures Xor(XorIf(lkey, a, R), XorIf(rkey, b, R)) == XorIf(Xor(lkey, rkey), a != b, R)
  {
  }

  lemma {:induction false} LinActive(w: Run, g: nat, t: nat)
    requires Correct(w) && g < |w.gs| && w.gs[g].op.Lin? && t < w.gs[g].nvals && OrderedAt(w.gs, g)
    ensures var l, r, vals := w.gs[g].op.left, w.gs[g].op.right, Eval(w.gs, w.inp);
            ActiveOk(w, g, t, At(vals[l], t) != At(vals[r], t))
    decreases g, 1
  {
    var l, r, vals := w.gs[g].op.left, w.gs[g].op.right, Eval(w.gs, w.inp);
    OperandActive(w, g, 0, t);
    OperandActive(w, g, 1, t);
    assert Assigned(w, g) && KeysOk(w, g, t);
    XorActive(w.key(l, t), w.key(r, t), w.R, At(vals[l], t) != w.pi(l, t), At(vals[r], t) != w.pi(r, t), w.kappa);
  }

  lemma {:induction false} LocalActive(w: Run, g: nat, t: nat)
    requires Correct(w) && g < |w.gs| && !w.gs[g].op.Out? && t < w.gs[g].nvals
    requires !w.gs[g].op.NonLin? && !w.gs[g].op.Univ?
    ensures OrderedAt(w.gs, g) && ActiveOk(w, g, t, GateBit(w.gs[g], g, Eval(w.gs, w.inp), w.inp, t))
    decreases g, 2
  {
    assert Assigned(w, g) && KeysOk(w, g, t) && OrderedAt(w.gs, g);
    match w.gs[g].op
    case In(_) => InputActive(w, g, t);
    case Constant(_) =>
    case Lin(_, _) => LinActive(w, g, t);
    case Inv(_) => OperandActive(w, g, 0, t);
    case _ =>
  }

  // ----- existence ------------------------------------------------------------------------

  /** Everything the run assigns to value t of a gate. */
  datatype Wire = Wire(andTable: AndTable, univTable: UnivTable, key: Key, pi: bool, active: Key)

  const NO_WIRE := Wire(NO_AND_TABLE, NO_UNIV_TABLE, [], false, [])

  /** The run in which only the gates below g have their tables and keys. */
  function Below(w: Run, g: nat): (v: Run)
    ensures v == w.(andTable := v.andTable, univTable := v.univTable, key := v.key, pi := v.pi, active := v.active)
    decreases g, 0
  {
    var wire := (p: nat, t: nat) => if p < g then WireAt(w, p, t) else NO_WIRE;
    w.(andTable := (p: nat, t: nat) => wire(p, t).andTable, univTable := (p: nat, t: nat) => wire(p, t).univTable,
       key := (p: nat, t: nat) => wire(p, t).key, pi := (p: nat, t: nat) => wire(p, t).pi,
       active := (p: nat, t: nat) => wire(p, t).active)
  }

  /** The run that also has the given tables for value t of gate g. */
  function WithTables(v: Run, andTable: AndTable, univTable: UnivTable): (u: Run)
    ensures u == v.(andTable := u.andTable, univTable := u.univTable)
    ensures forall g, t :: u.andTable(g, t) == andTable && u.univTable(g, t) == univTable
  {
    v.(andTable := (_: nat, _: nat) => andTable, univTable := (_: nat, _: nat) => univTable)
  }

  function WireAt(w: Run, g: nat, t: nat): Wire
    decreases g, 1
  {
    var v := Below(w, g);
    var u := WithTables(v, AndStep(v, g, t), UnivStep(v, g, t));
    Wire(AndStep(v, g, t), UnivStep(v, g, t), GarbleStep(u, g, t).0, GarbleStep(u, g, t).1, ActiveStep(u, g, t))
  }

  /** The run in which every gate has its tables and keys. */
  function Assign(w: Run): (v: Run)
    ensures v == w.(andTable := v.andTable, univTable := v.univTable, key := v.key, pi := v.pi, active := v.active)
  {
    w.(andTable := (p: nat, t: nat) => WireAt(w, p, t).andTable, univTable := (p: nat, t: nat) => WireAt(w, p, t).univTable,
       key := (p: nat, t: nat) => WireAt(w, p, t).key, pi := (p: nat, t: nat) => WireAt(w, p, t).pi,
       active := (p: nat, t: nat) => WireAt(w, p, t).active)
  }

  /** Both runs agree on all wires below g. */
  ghost predicate SameBelow(w: Run, v: Run, g: nat) {
    && v == w.(andTable := v.andTable, univTable := v.univTable, key := v.key, pi := v.pi, active := v.active)
    && forall p: nat, t: nat | p < g :: w.key(p, t) == v.key(p, t) && w.pi(p, t) == v.pi(p, t) && w.active(p, t) == v.active(p, t)
  }

  /** A gate's tables look at earlier wires only. */
  lemma TableStepCong(w: Run, v: Run, g: nat, t: nat)
    requires SameBelow(w, v, g)
    ensures AndStep(w, g, t) == AndStep(v, g, t) && UnivStep(w, g, t) == UnivStep(v, g, t)
  {
    AndStepCong(w, v, g, t);
    UnivStepCong(w, v, g, t);
  }

  lemma AndStepCong(w: Run, v: Run, g: nat, t: nat)
    requires SameBelow(w, v, g)
    ensures AndStep(w, g, t) == AndStep(v, g, t)
  {
    if g < |w.gs| && ParentsBelow(w.gs[g].op, g) && w.gs[g].op.NonLin? {
      var l, r := w.gs[g].op.left, w.gs[g].op.right;
      assert w.key(l, t) == v.key(l, t) && w.key(r, t) == v.key(r, t) && w.pi(l, t) == v.pi(l, t) && w.pi(r, t) == v.pi(r, t);
      assert TableAt(w, g, t) == TableAt(v, g, t);
    }
  }

  lemma UnivStepCong(w: Run, v: Run, g: nat, t: nat)
    requires SameBelow(w, v, g)
    ensures UnivStep(w, g, t) == UnivStep(v, g, t)
  {
    if g < |w.gs| && ParentsBelow(w.gs[g].op, g) && w.gs[g].op.Univ? {
      var l, r := w.gs[g].op.left, w.gs[g].op.right;
      assert w.key(l, t) == v.key(l, t) && w.key(r, t) == v.key(r, t) && w.pi(l, t) == v.pi(l, t) && w.pi(r, t) == v.pi(r, t);
    }
  }

  /** A gate's keys look at its tables and at earlier wires only. */
  lemma KeyStepCong(w: Run, v: Run, g: nat, t: nat)
    requires SameBelow(w, v, g) && w.andTable(g, t) == v.andTable(g, t) && w.univTable(g, t) == v.univTable(g, t)
    ensures GarbleStep(w, g, t) == GarbleStep(v, g, t) && ActiveStep(w, g, t) == ActiveStep(v, g, t)
  {
    GarbleStepCong(w, v, g, t);
    ActiveStepCong(w, v, g, t);
  }

  lemma GarbleStepCong(w: Run, v: Run, g: nat, t: nat)
    requires SameBelow(w, v, g) && w.andTable(g, t) == v.andTable(g, t) && w.univTable(g, t) == v.univTable(g, t)
    ensures GarbleStep(w, g, t) == GarbleStep(v, g, t)
  {
  }

  lemma ActiveStepCong(w: Run, v: Run, g: nat, t: nat)
    requires SameBelow(w, v, g) && w.andTable(g, t) == v.andTable(g, t) && w.univTable(g, t) == v.univTable(g, t)
    ensures ActiveStep(w, g, t) == ActiveStep(v, g, t)
  {
    if g < |w.gs| && ParentsBelow(w.gs[g].op, g) && (w.gs[g].op.NonLin? || w.gs[g].op.Univ?) {
      var l, r := w.gs[g].op.left, w.gs[g].op.right;
      assert w.active(l, t) == v.active(l, t) && w.active(r, t) == v.active(r, t) && TableAt(w, g, t) == TableAt(v, g, t);
    }
  }

  /** For all inputs and all randomness there are such tables and keys. */
  lemma KeysExist(w: Run)
    ensures RunOk(Assign(w))
  {
    var a := Assign(w);
    forall g | 0 <= g < |a.gs|
      ensures Assigned(a, g)
    {
      forall t: nat
        ensures TablesOk(a, g, t) && KeysOk(a, g, t)
      {
        WireAssigned(w, g, t);
      }
    }
  }

  lemma WireAssigned(w: Run, g: nat, t: nat)
    ensures TablesOk(Assign(w), g, t) && KeysOk(Assign(w), g, t)
  {
    var v, a := Below(w, g), Assign(w);
    var u := WithTables(v, AndStep(v, g, t), UnivStep(v, g, t));
    assert SameBelow(v, a, g) && SameBelow(u, a, g);
    TableStepCong(v, a, g, t);
    KeyStepCong(u, a, g, t);
  }
}
