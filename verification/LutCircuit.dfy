/** Circuits with truth-table gates, and what their gates take from supplies that both parties use up in step. */
module LutCircuit {
  import opened Bits
  import opened Words
  import C = Circuit

  type Role = C.Role

  datatype Op =
    | In(src: Role)
    | Constant(value: bool)
    | Lin(left: nat, right: nat)
    | Inv(parent: nat)
    | Split(parent: nat, pos: nat)
    | Table(inputs: seq<nat>, outs: nat, table: seq<seq<bool>>)
    | Out(parent: nat, dst: C.Dest)

  datatype Gate = Gate(op: Op, nvals: nat, depth: nat)

  function Parents(op: Op): seq<nat> {
    match op
    case In(_) => []
    case Constant(_) => []
    case Lin(l, r) => [l, r]
    case Inv(p) => [p]
    case Split(p, _) => [p]
    case Table(ins, _, _) => ins
    case Out(p, _) => [p]
  }

  predicate Interactive(op: Op) {
    op.In? || op.Table? || op.Out?
  }

  /** The first layer at which the value of a gate can be used. */
  function Ready(g: Gate): nat {
    g.depth + if Interactive(g.op) then 1 else 0
  }

  /** Operands are earlier gates, usable on the layer of the gate that reads them. */
  predicate OperandOk(gs: seq<Gate>, g: nat, p: nat)
    requires g < |gs|
  {
    p < g && !gs[p].op.Out? && Ready(gs[p]) <= gs[g].depth
  }

  function Width(gs: seq<Gate>, p: nat): nat {
    if p < |gs| then gs[p].nvals else 0
  }

  /** Values per input wire of a truth table. */
  function Vals(gs: seq<Gate>, g: nat): nat
    requires g < |gs|
  {
    if gs[g].op.Table? && |gs[g].op.inputs| > 0 then Width(gs, gs[g].op.inputs[0]) else 0
  }

  predicate TableOk(gs: seq<Gate>, g: nat)
    requires g < |gs| && gs[g].op.Table?
  {
    var op := gs[g].op;
    && 0 < |op.inputs| <= 8 && op.outs > 0 && |op.table| == Pow2(|op.inputs|)
    && (forall x | 0 <= x < |op.table| :: |op.table[x]| == op.outs)
    && (forall j | 0 <= j < |op.inputs| :: Width(gs, op.inputs[j]) == Vals(gs, g))
    && gs[g].nvals == Times(op.outs, Vals(gs, g))
  }

  predicate GateOk(gs: seq<Gate>, g: nat)
    requires g < |gs|
  {
    && gs[g].nvals > 0
    && (forall k {:trigger Parents(gs[g].op)[k]} | 0 <= k < |Parents(gs[g].op)| :: OperandOk(gs, g, Parents(gs[g].op)[k]))
    && match gs[g].op
       case In(_) => gs[g].depth == 0
       case Constant(_) => true
       case Lin(l, r) => gs[g].nvals == Min(Width(gs, l), Width(gs, r))
       case Inv(p) => gs[g].nvals == Width(gs, p)
       case Split(p, pos) => pos + gs[g].nvals <= Width(gs, p)
       case Table(_, _, _) => TableOk(gs, g)
       case Out(p, _) => gs[g].nvals == Width(gs, p)
  }

  /** What the constructors of gates establish, for any layering in which operands are ready when they are read. */
  ghost predicate WellFormed(gs: seq<Gate>) {
    forall g {:trigger GateOk(gs, g)} | 0 <= g < |gs| :: GateOk(gs, g)
  }

  // ----- plain evaluation -----------------------------------------------------------------

  /** t / n, and t % n. */
  function Row(t: nat, n: nat): nat
    requires n > 0
  {
    if t < n then 0 else 1 + Row(t - n, n)
  }

  function Col(t: nat, n: nat): (c: nat)
    requires n > 0
    ensures c < n
  {
    if t < n then t else Col(t - n, n)
  }

  /** Value n of output o of a table gate with nv values sits at position n + o * nv. */
  lemma {:induction false} SlotOf(o: nat, n: nat, nv: nat)
    requires n < nv
    ensures Row(Times(o, nv) + n, nv) == o && Col(Times(o, nv) + n, nv) == n
  {
    if o > 0 {
      SlotOf(o - 1, n, nv);
    }
  }

  lemma {:induction false} RowCol(t: nat, nv: nat)
    requires nv > 0
    ensures t == Times(Row(t, nv), nv) + Col(t, nv)
    ensures Row(t, nv) == t / nv && Col(t, nv) == t % nv
  {
    if t >= nv {
      RowCol(t - nv, nv);
    }
    TimesIsProduct(Row(t, nv), nv);
    DivModUnique(t, Row(t, nv), Col(t, nv), nv);
  }

  lemma {:induction false} RowBound(t: nat, nv: nat, outs: nat)
    requires nv > 0
    ensures t < Times(outs, nv) <==> Row(t, nv) < outs
  {
    if outs > 0 && t >= nv {
      RowBound(t - nv, nv, outs - 1);
    }
  }

  /** No two values of a gate share a position. */
  lemma SlotIff(t: nat, o: nat, n: nat, nv: nat)
    requires n < nv
    ensures t == Times(o, nv) + n <==> Row(t, nv) == o && Col(t, nv) == n
  {
    SlotOf(o, n, nv);
    RowCol(t, nv);
  }

  lemma SlotWithin(o: nat, n: nat, nv: nat, outs: nat)
    requires n < nv && o < outs
    ensures Times(o, nv) + n < Times(outs, nv)
  {
    SlotOf(o, n, nv);
    RowBound(Times(o, nv) + n, nv, outs);
  }

  predicate TableBit(table: seq<seq<bool>>, x: nat, o: nat) {
    x < |table| && o < |table[x]| && table[x][o]
  }

  /** Plain evaluation: bit t of gate g. Input j of a table gate is bit j of the index into its table. */
  function Plain(gs: seq<Gate>, inp: (nat, nat) -> bool, g: nat, t: nat): bool
    decreases g
  {
    if g >= |gs| || t >= gs[g].nvals then false
    else
      match gs[g].op
      case In(_) => inp(g, t)
      case Constant(v) => v
      case Lin(l, r) => l < g && r < g && Plain(gs, inp, l, t) != Plain(gs, inp, r, t)
      case Inv(p) => p < g && !Plain(gs, inp, p, t)
      case Split(p, pos) => p < g && Plain(gs, inp, p, pos + t)
      case Table(ins, _, table) =>
        && Vals(gs, g) > 0
        && var n := Col(t, Vals(gs, g));
           TableBit(table, Num(seq(|ins|, j requires 0 <= j < |ins| => ins[j] < g && Plain(gs, inp, ins[j], n))), Row(t, Vals(gs, g)))
      case Out(p, _) => p < g && Plain(gs, inp, p, t)
  }

  // ----- bitwise XOR of indices -----------------------------------------------------------

  /** The XOR of two indices is the index of the XOR of their bits. */
  lemma {:induction false} XorOfNums(a: seq<bool>, b: seq<bool>, c: seq<bool>)
    requires |a| == |b| == |c| && forall j | 0 <= j < |a| :: c[j] == (a[j] != b[j])
    ensures XorWord(Num(a), Num(b), |a|) == Num(c) < Pow2(|c|)
  {
    ValueBound(c, |c|);
    if a != [] {
      NumLow(a);
      NumLow(b);
      NumLow(c);
      XorOfNums(a[1..], b[1..], c[1..]);
      XorLow(Bit(a[0]), Num(a[1..]), Bit(b[0]), Num(b[1..]), |a| - 1);
    }
  }

  lemma XorLow(a: nat, x: nat, b: nat, y: nat, l: nat)
    requires a < 2 && b < 2
    ensures XorWord(a + 2 * x, b + 2 * y, l + 1) == Bit(a != b) + 2 * XorWord(x, y, l)
  {
    assert (a + 2 * x) / 2 == x && (a + 2 * x) % 2 == a && (b + 2 * y) / 2 == y && (b + 2 * y) % 2 == b;
  }

  // ----- queues ---------------------------------------------------------------------------

  predicate Ids(gs: seq<Gate>, q: seq<nat>) {
    forall i | 0 <= i < |q| :: q[i] < |gs|
  }

  /** Ids below n in the local or the interactive queue of layer d, in build order. */
  function Queue(gs: seq<Gate>, interactive: bool, d: nat, n: nat): (q: seq<nat>)
    requires n <= |gs|
    ensures forall i | 0 <= i < |q| :: q[i] < n && gs[q[i]].depth == d && Interactive(gs[q[i]].op) == interactive
  {
    if n == 0 then []
    else
      var q := Queue(gs, interactive, d, n - 1);
      if gs[n - 1].depth == d && Interactive(gs[n - 1].op) == interactive then q + [n - 1] else q
  }

  lemma {:induction false} QueueMembers(gs: seq<Gate>, interactive: bool, d: nat, n: nat, g: nat)
    requires n <= |gs|
    ensures g in Queue(gs, interactive, d, n) <==> g < n && gs[g].depth == d && Interactive(gs[g].op) == interactive
  {
    if n > 0 {
      QueueMembers(gs, interactive, d, n - 1, g);
    }
  }

  lemma {:induction false} QueueEmpty(gs: seq<Gate>, interactive: bool, d: nat, n: nat)
    requires n <= |gs| && forall g | 0 <= g < n :: gs[g].depth < d
    ensures Queue(gs, interactive, d, n) == []
  {
    if n > 0 {
      QueueEmpty(gs, interactive, d, n - 1);
    }
  }

  /** The gates queued before position i are those queued among smaller ids. */
  lemma {:induction false} QueueTake(gs: seq<Gate>, interactive: bool, d: nat, n: nat, i: nat)
    requires n <= |gs| && i < |Queue(gs, interactive, d, n)|
    ensures Queue(gs, interactive, d, n)[i] < n
    ensures Queue(gs, interactive, d, n)[..i] == Queue(gs, interactive, d, Queue(gs, interactive, d, n)[i])
  {
    var q, front := Queue(gs, interactive, d, n), Queue(gs, interactive, d, n - 1);
    if |front| < |q| && i == |front| {
      assert q[..i] == front;
    } else {
      QueueTake(gs, interactive, d, n - 1, i);
      assert q[..i] == front[..i];
    }
  }

  function Layer(gs: seq<Gate>, d: nat): (q: seq<nat>)
    ensures Ids(gs, q)
  {
    Queue(gs, true, d, |gs|)
  }

  // ----- supplies -------------------------------------------------------------------------

  /** Truth tables with the same numbers of inputs and outputs share their transfers. */
  datatype Class = Class(ins: nat, outs: nat)

  /** Input masks, output bits, transfers of a class, and the random bits with which its senders mask results. */
  datatype Stock = Inputs(src: Role) | Outputs(dst: Role) | Transfers(c: Class) | Masks(c: Class)

  predicate InClass(gs: seq<Gate>, c: Class, g: nat)
    requires g < |gs|
  {
    gs[g].op.Table? && c == Class(|gs[g].op.inputs|, gs[g].op.outs)
  }

  function Amount(gs: seq<Gate>, s: Stock, g: nat): nat
    requires g < |gs|
  {
    match s
    case Inputs(src) => if gs[g].op == In(src) then gs[g].nvals else 0
    case Outputs(dst) => if gs[g].op.Out? && gs[g].op.dst.Includes(dst) then gs[g].nvals else 0
    case Transfers(c) => if InClass(gs, c, g) then Vals(gs, g) else 0
    case Masks(c) => if InClass(gs, c, g) then gs[g].nvals else 0
  }

  /** What the first i gates of a list take. */
  function Taken(gs: seq<Gate>, s: Stock, q: seq<nat>, i: nat): nat
    requires Ids(gs, q) && i <= |q|
  {
    if i == 0 then 0 else Taken(gs, s, q, i - 1) + Amount(gs, s, q[i - 1])
  }

  function LayerTakes(gs: seq<Gate>, s: Stock, d: nat): nat {
    Taken(gs, s, Layer(gs, d), |Layer(gs, d)|)
  }

  lemma {:induction false} TakenCong(gs: seq<Gate>, s: Stock, q: seq<nat>, p: seq<nat>, i: nat)
    requires Ids(gs, q) && Ids(gs, p) && i <= |q| && i <= |p| && forall k | 0 <= k < i :: q[k] == p[k]
    ensures Taken(gs, s, q, i) == Taken(gs, s, p, i)
  {
    if i > 0 {
      TakenCong(gs, s, q, p, i - 1);
    }
  }

  lemma {:induction false} TakenMonotone(gs: seq<Gate>, s: Stock, q: seq<nat>, i: nat, j: nat)
    requires Ids(gs, q) && i <= j <= |q|
    ensures Taken(gs, s, q, i) <= Taken(gs, s, q, j)
    ensures i < j ==> Taken(gs, s, q, i) + Amount(gs, s, q[i]) <= Taken(gs, s, q, j)
  {
    if i + 1 < j {
      TakenMonotone(gs, s, q, i, j - 1);
    }
  }

  /** What the gates of the same layer before g take. */
  function Offset(gs: seq<Gate>, s: Stock, g: nat): nat
    requires g < |gs|
  {
    var q := Queue(gs, true, gs[g].depth, g);
    Taken(gs, s, q, |q|)
  }

  lemma OffsetInLayer(gs: seq<Gate>, s: Stock, d: nat, i: nat)
    requires i < |Layer(gs, d)|
    ensures gs[Layer(gs, d)[i]].depth == d && Interactive(gs[Layer(gs, d)[i]].op)
    ensures Offset(gs, s, Layer(gs, d)[i]) == Taken(gs, s, Layer(gs, d), i)
  {
    var q := Layer(gs, d);
    QueueTake(gs, true, d, |gs|, i);
    TakenCong(gs, s, q, q[..i], i);
  }

  /** The sender of layer d: the roles flip with every layer, the server sends first. */
  function Sender(d: nat): Role {
    if d == 0 then C.SERVER else Sender(d - 1).Other()
  }

  /** The server sends on the layers with even numbers, the client on the others. */
  lemma {:induction false} SenderIs(d: nat)
    ensures Sender(d) == if d % 2 == 0 then C.SERVER else C.CLIENT
  {
    if d > 0 {
      SenderIs(d - 1);
    }
  }

  /** What the layers before d take of a supply of which r is the sender. */
  function Used(gs: seq<Gate>, s: Stock, r: Role, d: nat): nat {
    if d == 0 then 0 else Used(gs, s, r, d - 1) + if Sender(d - 1) == r then LayerTakes(gs, s, d - 1) else 0
  }

  lemma {:induction false} UsedMonotone(gs: seq<Gate>, s: Stock, r: Role, d: nat, e: nat)
    requires d <= e
    ensures Used(gs, s, r, d) <= Used(gs, s, r, e)
    ensures d < e && Sender(d) == r ==> Used(gs, s, r, d) + LayerTakes(gs, s, d) <= Used(gs, s, r, e)
  {
    if d + 1 < e {
      UsedMonotone(gs, s, r, d, e - 1);
    }
  }

  /** The first item that table gate g takes from one of the supplies of its class. */
  function Place(gs: seq<Gate>, s: Stock, g: nat): nat
    requires g < |gs|
  {
    Used(gs, s, Sender(gs[g].depth), gs[g].depth) + Offset(gs, s, g)
  }

  /** In a queue, a gate's place is reached when the gates before it have taken their share, and supplies suffice. */
  lemma PlaceInLayer(gs: seq<Gate>, s: Stock, d: nat, i: nat, layers: nat)
    requires i < |Layer(gs, d)| && d < layers
    ensures var g := Layer(gs, d)[i];
            && Place(gs, s, g) == Used(gs, s, Sender(d), d) + Taken(gs, s, Layer(gs, d), i)
            && Place(gs, s, g) + Amount(gs, s, g) <= Used(gs, s, Sender(d), layers)
  {
    OffsetInLayer(gs, s, d, i);
    TakenMonotone(gs, s, Layer(gs, d), i, |Layer(gs, d)|);
    UsedMonotone(gs, s, Sender(d), d, layers);
  }

  // ----- strings --------------------------------------------------------------------------

  /** The items of gate g, one by one. */
  function Block<T>(gs: seq<Gate>, s: Stock, f: (nat, nat) -> T, g: nat): (b: seq<T>)
    requires g < |gs|
  {
    seq(Amount(gs, s, g), t requires 0 <= t => f(g, t))
  }

  /** The items of the first i gates of a list behind each other. */
  function Strung<T>(gs: seq<Gate>, s: Stock, f: (nat, nat) -> T, q: seq<nat>, i: nat): (r: seq<T>)
    requires Ids(gs, q) && i <= |q|
    ensures |r| == Taken(gs, s, q, i)
  {
    if i == 0 then [] else Strung(gs, s, f, q, i - 1) + Block(gs, s, f, q[i - 1])
  }

  /** A gate's items are found behind those of the gates before it. */
  lemma {:induction false} StrungSlice<T>(gs: seq<Gate>, s: Stock, f: (nat, nat) -> T, q: seq<nat>, i: nat, n: nat)
    requires Ids(gs, q) && i < n <= |q|
    ensures var at := Taken(gs, s, q, i);
            && at + Amount(gs, s, q[i]) <= Taken(gs, s, q, n)
            && Strung(gs, s, f, q, n)[at..at + Amount(gs, s, q[i])] == Block(gs, s, f, q[i])
  {
    var at := Taken(gs, s, q, i);
    if i < n - 1 {
      StrungSlice(gs, s, f, q, i, n - 1);
      assert Strung(gs, s, f, q, n)[at..at + Amount(gs, s, q[i])] == Strung(gs, s, f, q, n - 1)[at..at + Amount(gs, s, q[i])];
    }
  }

  // ----- tables grouped by their number of inputs -----------------------------------------

  /** The tables with ins inputs among the first i gates of a list. */
  function Grouped(gs: seq<Gate>, ins: nat, q: seq<nat>, i: nat): (m: seq<nat>)
    requires Ids(gs, q) && i <= |q|
    ensures Ids(gs, m) && |m| <= i
  {
    if i == 0 then []
    else
      var m := Grouped(gs, ins, q, i - 1);
      if gs[q[i - 1]].op.Table? && |gs[q[i - 1]].op.inputs| == ins then m + [q[i - 1]] else m
  }

  predicate OfClass(s: Stock, ins: nat) {
    (s.Transfers? || s.Masks?) && s.c.ins == ins
  }

  /** A class takes the same whether its gates are visited in queue order or group by group. */
  lemma {:induction false} GroupedStrung<T>(gs: seq<Gate>, s: Stock, f: (nat, nat) -> T, ins: nat, q: seq<nat>, i: nat)
    requires Ids(gs, q) && i <= |q| && OfClass(s, ins)
    ensures var m := Grouped(gs, ins, q, i);
            Strung(gs, s, f, m, |m|) == Strung(gs, s, f, q, i)
  {
    if i > 0 {
      GroupedStrung(gs, s, f, ins, q, i - 1);
      var m, g := Grouped(gs, ins, q, i - 1), q[i - 1];
      if gs[g].op.Table? && |gs[g].op.inputs| == ins {
        StrungSnoc(gs, s, f, m, g);
      } else {
        assert Block(gs, s, f, g) == [];
      }
    }
  }

  lemma {:induction false} GroupedTaken(gs: seq<Gate>, s: Stock, ins: nat, q: seq<nat>, i: nat)
    requires Ids(gs, q) && i <= |q| && OfClass(s, ins)
    ensures Taken(gs, s, Grouped(gs, ins, q, i), |Grouped(gs, ins, q, i)|) == Taken(gs, s, q, i)
  {
    if i > 0 {
      GroupedTaken(gs, s, ins, q, i - 1);
      var m := Grouped(gs, ins, q, i - 1);
      TakenCong(gs, s, Grouped(gs, ins, q, i), m, |m|);
    }
  }

  lemma StrungSnoc<T>(gs: seq<Gate>, s: Stock, f: (nat, nat) -> T, m: seq<nat>, g: nat)
    requires Ids(gs, m) && g < |gs|
    ensures var more := m + [g];
            Strung(gs, s, f, more, |more|) == Strung(gs, s, f, m, |m|) + Block(gs, s, f, g)
  {
    StrungCong(gs, s, f, m + [g], m, |m|);
  }

  lemma {:induction false} StrungCong<T>(gs: seq<Gate>, s: Stock, f: (nat, nat) -> T, q: seq<nat>, p: seq<nat>, i: nat)
    requires Ids(gs, q) && Ids(gs, p) && i <= |q| && i <= |p| && forall k | 0 <= k < i :: q[k] == p[k]
    ensures Strung(gs, s, f, q, i) == Strung(gs, s, f, p, i)
  {
    if i > 0 {
      StrungCong(gs, s, f, q, p, i - 1);
    }
  }

  /** Where a gate of a group sits in the queue, with the same amount taken before it. */
  lemma {:induction false} GroupedPosition(gs: seq<Gate>, s: Stock, ins: nat, q: seq<nat>, i: nat, k: nat) returns (j: nat)
    requires Ids(gs, q) && i <= |q| && k < |Grouped(gs, ins, q, i)| && OfClass(s, ins)
    ensures j < i && q[j] == Grouped(gs, ins, q, i)[k]
    ensures gs[q[j]].op.Table? && |gs[q[j]].op.inputs| == ins
    ensures Taken(gs, s, q, j) == Taken(gs, s, Grouped(gs, ins, q, i), k)
  {
    var m := Grouped(gs, ins, q, i - 1);
    if k < |m| {
      j := GroupedPosition(gs, s, ins, q, i - 1, k);
    } else {
      j := i - 1;
      GroupedTaken(gs, s, ins, q, i - 1);
    }
    assert forall x | 0 <= x < k :: Grouped(gs, ins, q, i)[x] == m[x];
    TakenCong(gs, s, Grouped(gs, ins, q, i), m, k);
  }
}
