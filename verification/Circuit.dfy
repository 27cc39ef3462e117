/**
  The gate arena shared by every sharing: gates are appended to a growing vector, refer to
  earlier gates only, carry SIMD values, and know the round in which they are evaluated.
 */
module Circuit {
  import opened Bits

  datatype Role = SERVER | CLIENT {
    function Other(): Role {
      if SERVER? then CLIENT else SERVER
    }
  }

  datatype Dest = To(role: Role) | All {
    predicate Includes(r: Role) {
      All? || role == r
    }
  }

  /** The sharing a circuit is built for; it fixes which gates need interaction. */
  datatype Sharing = BOOL | YAO

  datatype Op =
    | In(src: Role)
    | Constant(value: bool)
    | Lin(left: nat, right: nat)
    | Inv(parent: nat)
    | NonLin(left: nat, right: nat)
    | NonLinVec(choice: nat, vector: nat, bitlen: nat)
    | StructCombine(inputs: seq<nat>, start: nat, incr: nat)
    | Univ(left: nat, right: nat, table: nat)
    | Out(parent: nat, dst: Dest)

  datatype Gate = Gate(op: Op, nvals: nat, depth: nat, nrounds: nat)

  function Parents(op: Op): seq<nat> {
    match op
    case In(_) => []
    case Constant(_) => []
    case Lin(l, r) => [l, r]
    case Inv(p) => [p]
    case NonLin(l, r) => [l, r]
    case NonLinVec(c, v, _) => [c, v]
    case StructCombine(ins, _, _) => ins
    case Univ(l, r, _) => [l, r]
    case Out(p, _) => [p]
  }

  predicate ParentsBelow(op: Op, n: nat)
    ensures ParentsBelow(op, n) ==> forall i | 0 <= i < |Parents(op)| :: Parents(op)[i] < n
  {
    match op
    case In(_) => true
    case Constant(_) => true
    case Lin(l, r) => l < n && r < n
    case Inv(p) => p < n
    case NonLin(l, r) => l < n && r < n
    case NonLinVec(c, v, _) => c < n && v < n
    case StructCombine(ins, _, _) => forall i | 0 <= i < |ins| :: ins[i] < n
    case Univ(l, r, _) => l < n && r < n
    case Out(p, _) => p < n
  }

  predicate Interactive(ctx: Sharing, op: Op) {
    match op
    case In(_) => true
    case Out(_, _) => true
    case NonLin(_, _) => ctx.BOOL?
    case NonLinVec(_, _, _) => ctx.BOOL?
    case _ => false
  }

  /** Interaction rounds of a gate: m_nRoundsAND, m_nRoundsIN and m_nRoundsOUT of the context. */
  function Rounds(ctx: Sharing, op: Op): nat {
    match op
    case In(src) => if ctx.YAO? && src.CLIENT? then 2 else 1
    case Out(_, dst) => if ctx.YAO? && dst == To(CLIENT) then 0 else 1
    case NonLin(_, _) => if ctx.BOOL? then 1 else 0
    case NonLinVec(_, _, _) => if ctx.BOOL? then 1 else 0
    case _ => 0
  }

  /** Interaction rounds, in numbers. */
  lemma RoundsAre(op: Op)
    ensures op.In? ==> Rounds(BOOL, op) == 1
    ensures op == In(SERVER) ==> Rounds(YAO, op) == 1
    ensures op == In(CLIENT) ==> Rounds(YAO, op) == 2
    ensures op.Out? ==> Rounds(BOOL, op) == 1
    ensures op.Out? ==> Rounds(YAO, op) == if op.dst == To(CLIENT) then 0 else 1
    ensures op.NonLin? || op.NonLinVec? ==> Rounds(BOOL, op) == 1 && Rounds(YAO, op) == 0
    ensures op.Constant? || op.Lin? || op.Inv? || op.StructCombine? || op.Univ? ==> Rounds(BOOL, op) == 0 && Rounds(YAO, op) == 0
  {
  }

  /** ComputeDepth: the first layer at which the value of a gate can be used. */
  function Ready(g: Gate): nat {
    g.depth + g.nrounds
  }

  function MaxReady(gs: seq<Gate>, ps: seq<nat>): nat
    requires forall i | 0 <= i < |ps| :: ps[i] < |gs|
  {
    if ps == [] then 0 else Max(MaxReady(gs, ps[..|ps| - 1]), Ready(gs[ps[|ps| - 1]]))
  }

  lemma {:induction false} MaxReadyBounds(gs: seq<Gate>, ps: seq<nat>, p: nat)
    requires forall i | 0 <= i < |ps| :: ps[i] < |gs|
    requires p in ps
    ensures Ready(gs[p]) <= MaxReady(gs, ps)
  {
    if p != ps[|ps| - 1] {
      MaxReadyBounds(gs, ps[..|ps| - 1], p);
    }
  }

  lemma {:induction false} MaxReadyLeast(gs: seq<Gate>, ps: seq<nat>, r: nat)
    requires forall i | 0 <= i < |ps| :: ps[i] < |gs| && Ready(gs[ps[i]]) <= r
    ensures MaxReady(gs, ps) <= r
  {
    if ps != [] {
      MaxReadyLeast(gs, ps[..|ps| - 1], r);
    }
  }

  lemma MaxReadyPair(gs: seq<Gate>, l: nat, r: nat)
    requires l < |gs| && r < |gs|
    ensures MaxReady(gs, [l, r]) == Max(Ready(gs[l]), Ready(gs[r]))
  {
    assert [l, r][..1] == [l];
    assert [l][..0] == [];
    assert MaxReady(gs, [l]) == Ready(gs[l]);
  }

  /** What the constructors check of a new gate before it is appended to gs. */
  predicate OpOk(gs: seq<Gate>, op: Op, nvals: nat) {
    && nvals > 0
    && ParentsBelow(op, |gs|)
    && (forall i | 0 <= i < |Parents(op)| :: !gs[Parents(op)[i]].op.Out?)
    && match op
       case In(_) => true
       case Constant(_) => true
       case Lin(l, r) => nvals == Min(gs[l].nvals, gs[r].nvals)
       case NonLin(l, r) => nvals == Min(gs[l].nvals, gs[r].nvals)
       case Univ(l, r, _) => nvals == Min(gs[l].nvals, gs[r].nvals)
       case Inv(p) => nvals == gs[p].nvals
       case Out(p, _) => nvals == gs[p].nvals
       case NonLinVec(c, v, bitlen) => nvals == gs[v].nvals && bitlen * gs[c].nvals == nvals
       case StructCombine(ins, start, incr) =>
         && |ins| > 0 && nvals % |ins| == 0
         && forall t | 0 <= t < nvals :: start + t / |ins| * incr < gs[ins[t % |ins|]].nvals
  }

  predicate GateOk(ctx: Sharing, gs: seq<Gate>, g: nat)
    requires g < |gs|
  {
    && OpOk(gs[..g], gs[g].op, gs[g].nvals)
    && gs[g].nrounds == Rounds(ctx, gs[g].op)
    && gs[g].depth == MaxReady(gs[..g], Parents(gs[g].op))
  }

  ghost predicate WellFormed(ctx: Sharing, gs: seq<Gate>) {
    forall g {:trigger GateOk(ctx, gs, g)} | 0 <= g < |gs| :: GateOk(ctx, gs, g)
  }

  lemma WellFormedAppend(ctx: Sharing, gs: seq<Gate>, gate: Gate)
    requires WellFormed(ctx, gs)
    requires OpOk(gs, gate.op, gate.nvals)
    requires gate.nrounds == Rounds(ctx, gate.op) && gate.depth == MaxReady(gs, Parents(gate.op))
    ensures WellFormed(ctx, gs + [gate])
  {
    var all := gs + [gate];
    forall g | 0 <= g < |all|
      ensures GateOk(ctx, all, g)
    {
      if g < |gs| {
        assert all[..g] == gs[..g];
        assert GateOk(ctx, gs, g);
      } else {
        assert all[..g] == gs;
      }
    }
  }

  /** Schedule: a parent is an earlier gate, usable no later than the layer of its consumer. */
  lemma ParentSchedule(ctx: Sharing, gs: seq<Gate>, g: nat, p: nat)
    requires WellFormed(ctx, gs) && g < |gs| && p in Parents(gs[g].op)
    ensures p < g && !gs[p].op.Out? && Ready(gs[p]) <= gs[g].depth
  {
    assert GateOk(ctx, gs, g);
    MaxReadyBounds(gs[..g], Parents(gs[g].op), p);
  }

  // ----- plain semantics ------------------------------------------------------------------

  predicate TableBit(table: nat, a: bool, b: bool) {
    table / Pow2(2 * Bit(a) + Bit(b)) % 2 == 1
  }

  /** Entry 2a + b of a truth table with four rows. */
  lemma TableBitIs(table: nat, a: bool, b: bool)
    ensures TableBit(table, a, b) ==
            if a then (if b then table / 8 % 2 == 1 else table / 4 % 2 == 1) else if b then table / 2 % 2 == 1 else table % 2 == 1
  {
    assert Pow2(0) == 1 && Pow2(1) == 2 && Pow2(2) == 4 && Pow2(3) == 8;
  }

  /** The operands pick one of the four bits that a truth table is made of. */
  lemma TableBitOf(c0: bool, c1: bool, c2: bool, c3: bool, rest: nat, a: bool, b: bool)
    ensures TableBit(Bit(c0) + 2 * Bit(c1) + 4 * Bit(c2) + 8 * Bit(c3) + 16 * rest, a, b) ==
            if a then (if b then c3 else c2) else if b then c1 else c0
  {
    var n3 := Bit(c3) + 2 * rest;
    var n2 := Bit(c2) + 2 * n3;
    var n1 := Bit(c1) + 2 * n2;
    var n := Bit(c0) + 2 * n1;
    Halved(c3, rest);
    Halved(c2, n3);
    Halved(c1, n2);
    Halved(c0, n1);
    Quarters(n);
    TableBitIs(n, a, b);
  }

  lemma Quarters(n: nat)
    ensures n / 4 == n / 2 / 2 && n / 8 == n / 2 / 2 / 2
  {
  }

  lemma Halved(b: bool, x: nat)
    ensures (Bit(b) + 2 * x) / 2 == x && (Bit(b) + 2 * x) % 2 == Bit(b)
  {
  }

  /** Value t of a structurised combiner: input t % |ins|, at position start + (t / |ins|) * incr. */
  predicate StructBit(ins: seq<nat>, start: nat, incr: nat, vals: seq<seq<bool>>, t: nat) {
    |ins| > 0 && ins[t % |ins|] < |vals| && At(vals[ins[t % |ins|]], start + t / |ins| * incr)
  }

  /** Bit t of a gate, from the values of earlier gates. */
  predicate GateBit(gate: Gate, id: nat, vals: seq<seq<bool>>, inp: (nat, nat) -> bool, t: nat)
    requires ParentsBelow(gate.op, |vals|)
  {
    match gate.op
    case In(_) => inp(id, t)
    case Constant(c) => c
    case Lin(l, r) => At(vals[l], t) != At(vals[r], t)
    case Inv(p) => !At(vals[p], t)
    case NonLin(l, r) => At(vals[l], t) && At(vals[r], t)
    case NonLinVec(c, v, bitlen) => bitlen > 0 && At(vals[c], t / bitlen) && At(vals[v], t)
    case StructCombine(ins, start, incr) => StructBit(ins, start, incr, vals, t)
    case Univ(l, r, table) => TableBit(table, At(vals[l], t), At(vals[r], t))
    case Out(p, _) => At(vals[p], t)
  }

  function GateVal(gate: Gate, id: nat, vals: seq<seq<bool>>, inp: (nat, nat) -> bool): (v: seq<bool>)
    requires ParentsBelow(gate.op, |vals|)
    ensures |v| == gate.nvals
  {
    seq(gate.nvals, t requires 0 <= t => GateBit(gate, id, vals, inp, t))
  }

  predicate OrderedAt(gs: seq<Gate>, g: nat)
    requires g < |gs|
  {
    ParentsBelow(gs[g].op, g)
  }

  ghost predicate Ordered(gs: seq<Gate>) {
    forall g {:trigger OrderedAt(gs, g)} | 0 <= g < |gs| :: OrderedAt(gs, g)
  }

  lemma WellFormedOrdered(ctx: Sharing, gs: seq<Gate>)
    requires WellFormed(ctx, gs)
    ensures Ordered(gs)
  {
    forall g | 0 <= g < |gs|
      ensures OrderedAt(gs, g)
    {
      assert GateOk(ctx, gs, g);
    }
  }

  lemma OrderedFront(gs: seq<Gate>)
    requires Ordered(gs) && |gs| > 0
    ensures Ordered(gs[..|gs| - 1]) && ParentsBelow(gs[|gs| - 1].op, |gs| - 1)
  {
    assert OrderedAt(gs, |gs| - 1);
    var front := gs[..|gs| - 1];
    forall g | 0 <= g < |front|
      ensures OrderedAt(front, g)
    {
      assert OrderedAt(gs, g);
    }
  }

  lemma OrderedAppend(gs: seq<Gate>, gate: Gate)
    requires Ordered(gs) && ParentsBelow(gate.op, |gs|)
    ensures Ordered(gs + [gate])
  {
    forall g | 0 <= g <= |gs|
      ensures OrderedAt(gs + [gate], g)
    {
      if g < |gs| {
        assert OrderedAt(gs, g);
      }
    }
  }

  /** Plain evaluation of a whole circuit; inp(g, t) is bit t of input gate g. */
  ghost function Eval(gs: seq<Gate>, inp: (nat, nat) -> bool): (vals: seq<seq<bool>>)
    requires Ordered(gs)
    ensures |vals| == |gs|
  {
    if gs == [] then []
    else
      OrderedFront(gs);
      var vals := Eval(gs[..|gs| - 1], inp);
      vals + [GateVal(gs[|gs| - 1], |gs| - 1, vals, inp)]
  }

  /** A gate's value satisfies the gate's own equation. */
  predicate ValueOk(gs: seq<Gate>, vals: seq<seq<bool>>, inp: (nat, nat) -> bool, g: nat)
    requires g < |gs| == |vals|
  {
    ParentsBelow(gs[g].op, g) && vals[g] == GateVal(gs[g], g, vals, inp)
  }

  ghost predicate ValuesOk(gs: seq<Gate>, vals: seq<seq<bool>>, inp: (nat, nat) -> bool) {
    |vals| == |gs| && forall g {:trigger ValueOk(gs, vals, inp, g)} | 0 <= g < |gs| :: ValueOk(gs, vals, inp, g)
  }

  /** Values of a gate depend on earlier values only. */
  lemma GateValCong(gate: Gate, id: nat, vals: seq<seq<bool>>, other: seq<seq<bool>>, inp: (nat, nat) -> bool, n: nat)
    requires n <= |vals| && n <= |other| && ParentsBelow(gate.op, n)
    requires forall p | 0 <= p < n :: vals[p] == other[p]
    ensures ParentsBelow(gate.op, |vals|) && ParentsBelow(gate.op, |other|)
    ensures GateVal(gate, id, vals, inp) == GateVal(gate, id, other, inp)
  {
    assert forall t: nat | t < gate.nvals :: GateBit(gate, id, vals, inp, t) == GateBit(gate, id, other, inp, t);
  }

  lemma ValuesAppend(gs: seq<Gate>, vals: seq<seq<bool>>, inp: (nat, nat) -> bool, gate: Gate)
    requires ValuesOk(gs, vals, inp) && ParentsBelow(gate.op, |gs|)
    ensures ValuesOk(gs + [gate], vals + [GateVal(gate, |gs|, vals, inp)], inp)
  {
    var more := vals + [GateVal(gate, |gs|, vals, inp)];
    forall g | 0 <= g <= |gs|
      ensures ValueOk(gs + [gate], more, inp, g)
    {
      if g < |gs| {
        assert ValueOk(gs, vals, inp, g);
        GateValCong(gs[g], g, vals, more, inp, g);
      } else {
        GateValCong(gate, g, vals, more, inp, g);
      }
    }
  }

  /** The gate equations have exactly one solution: plain evaluation. */
  lemma {:induction false} ValuesUnique(gs: seq<Gate>, vals: seq<seq<bool>>, inp: (nat, nat) -> bool)
    requires Ordered(gs)
    ensures ValuesOk(gs, vals, inp) <==> vals == Eval(gs, inp)
  {
    if gs != [] {
      OrderedFront(gs);
      var n := |gs| - 1;
      var front := gs[..n];
      ValuesUnique(front, Eval(front, inp), inp);
      ValuesAppend(front, Eval(front, inp), inp, gs[n]);
      assert gs == front + [gs[n]];
      if ValuesOk(gs, vals, inp) {
        assert ValuesOk(front, vals[..n], inp) by {
          forall g | 0 <= g < n
            ensures ValueOk(front, vals[..n], inp, g)
          {
            assert ValueOk(gs, vals, inp, g);
            GateValCong(gs[g], g, vals, vals[..n], inp, g);
          }
        }
        ValuesUnique(front, vals[..n], inp);
        assert ValueOk(gs, vals, inp, n);
        GateValCong(gs[n], n, vals, vals[..n], inp, n);
        assert vals == vals[..n] + [vals[n]];
      }
    }
  }

  // ----- layer queues and use counts ------------------------------------------------------

  /** Ids below n that sit in the local or the interactive queue of layer d, in build order. */
  function Queue(ctx: Sharing, gs: seq<Gate>, interactive: bool, d: nat, n: nat): (q: seq<nat>)
    requires n <= |gs|
    ensures forall i | 0 <= i < |q| :: q[i] < n && gs[q[i]].depth == d && Interactive(ctx, gs[q[i]].op) == interactive
  {
    if n == 0 then []
    else
      var q := Queue(ctx, gs, interactive, d, n - 1);
      if gs[n - 1].depth == d && Interactive(ctx, gs[n - 1].op) == interactive then q + [n - 1] else q
  }

  lemma {:induction false} QueueMembers(ctx: Sharing, gs: seq<Gate>, interactive: bool, d: nat, n: nat, g: nat)
    requires n <= |gs|
    ensures g in Queue(ctx, gs, interactive, d, n) <==>
            g < n && gs[g].depth == d && Interactive(ctx, gs[g].op) == interactive
  {
    if n > 0 {
      QueueMembers(ctx, gs, interactive, d, n - 1, g);
    }
  }

  lemma {:induction false} QueuePrefix(ctx: Sharing, gs: seq<Gate>, more: seq<Gate>, interactive: bool, d: nat, n: nat)
    requires n <= |gs|
    ensures Queue(ctx, gs + more, interactive, d, n) == Queue(ctx, gs, interactive, d, n)
  {
    if n > 0 {
      QueuePrefix(ctx, gs, more, interactive, d, n - 1);
    }
  }

  /** The gates queued before position i are exactly those queued among smaller ids. */
  lemma {:induction false} QueueTake(ctx: Sharing, gs: seq<Gate>, interactive: bool, d: nat, n: nat, i: nat)
    requires n <= |gs| && i < |Queue(ctx, gs, interactive, d, n)|
    ensures Queue(ctx, gs, interactive, d, n)[i] < n
    ensures Queue(ctx, gs, interactive, d, n)[..i] ==
            Queue(ctx, gs, interactive, d, Queue(ctx, gs, interactive, d, n)[i])
  {
    var q := Queue(ctx, gs, interactive, d, n);
    var front := Queue(ctx, gs, interactive, d, n - 1);
    if |front| < |q| && i == |front| {
      assert q[..i] == front;
    } else {
      QueueTake(ctx, gs, interactive, d, n - 1, i);
      assert q[..i] == front[..i];
    }
  }

  /** All registered uses: one MarkGateAsUsed for every occurrence as a parent. */
  function Uses(gs: seq<Gate>): multiset<nat> {
    if gs == [] then multiset{} else Uses(gs[..|gs| - 1]) + multiset(Parents(gs[|gs| - 1].op))
  }

  lemma UsesAppend(gs: seq<Gate>, gate: Gate)
    ensures Uses(gs + [gate]) == Uses(gs) + multiset(Parents(gate.op))
  {
    assert (gs + [gate])[..|gs|] == gs;
  }

  lemma UsesAppendAt(gs: seq<Gate>, gate: Gate, g: nat)
    ensures Uses(gs + [gate])[g] == Uses(gs)[g] + multiset(Parents(gate.op))[g]
  {
    UsesAppend(gs, gate);
  }

  // ----- multiplication triples -----------------------------------------------------------

  /** The triple class of an AND gate is the length of its vectors; a plain AND has length one. */
  function AndBitlen(op: Op): nat {
    if op.NonLin? then 1 else if op.NonLinVec? then op.bitlen else 0
  }

  predicate IsAnd(op: Op) {
    op.NonLin? || op.NonLinVec?
  }

  /** Triples a gate consumes: one per value of its choice input. */
  function Triples(gs: seq<Gate>, g: nat, bitlen: nat): nat
    requires g < |gs|
  {
    if IsAnd(gs[g].op) && AndBitlen(gs[g].op) == bitlen && bitlen > 0 then gs[g].nvals / bitlen else 0
  }

  /** numgates of the entry of m_vANDs for vectors of the given length. */
  function NumAnds(gs: seq<Gate>, bitlen: nat, n: nat): nat
    requires n <= |gs|
  {
    if n == 0 then 0 else NumAnds(gs, bitlen, n - 1) + Triples(gs, n - 1, bitlen)
  }

  lemma {:induction false} NumAndsPrefix(gs: seq<Gate>, more: seq<Gate>, bitlen: nat, n: nat)
    requires n <= |gs|
    ensures NumAnds(gs + more, bitlen, n) == NumAnds(gs, bitlen, n)
  {
    if n > 0 {
      NumAndsPrefix(gs, more, bitlen, n - 1);
      assert (gs + more)[n - 1] == gs[n - 1];
    }
  }
}
