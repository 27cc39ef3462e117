/** In which order both parties visit the gates, and where each gate finds what it draws. */
module YaoOrder {
  import opened Bits
  import opened Circuit

  // ----- the order of garbling and evaluation ---------------------------------------------

  /** What gates draw from: garbled tables, wire keys, and output bits. */
  datatype Supply = AndTables | UnivTables | ServerKeys | ClientKeys | ClientBits | ServerBits | OutputBits

  predicate Draws(gs: seq<Gate>, s: Supply, g: nat)
    requires g < |gs|
  {
    match s
    case AndTables => gs[g].op.NonLin?
    case UnivTables => gs[g].op.Univ?
    case ServerKeys => gs[g].op == In(SERVER)
    case ClientKeys => gs[g].op == In(CLIENT)
    case ClientBits => gs[g].op.Out? && gs[g].op.dst.Includes(CLIENT)
    case ServerBits => gs[g].op.Out? && gs[g].op.dst.Includes(SERVER)
    case OutputBits => gs[g].op.Out?
  }

  function Amount(gs: seq<Gate>, s: Supply, g: nat): nat
    requires g < |gs|
  {
    if Draws(gs, s, g) then gs[g].nvals else 0
  }

  predicate Ids(gs: seq<Gate>, q: seq<nat>) {
    forall i | 0 <= i < |q| :: q[i] < |gs|
  }

  /** What the first i gates of a list draw. */
  function Drawn(gs: seq<Gate>, s: Supply, q: seq<nat>, i: nat): nat
    requires Ids(gs, q) && i <= |q|
  {
    if i == 0 then 0 else Drawn(gs, s, q, i - 1) + Amount(gs, s, q[i - 1])
  }

  function LocalGates(gs: seq<Gate>, d: nat): (q: seq<nat>)
    ensures Ids(gs, q)
  {
    Queue(YAO, gs, false, d, |gs|)
  }

  function InteractiveGates(gs: seq<Gate>, d: nat): (q: seq<nat>)
    ensures Ids(gs, q)
  {
    Queue(YAO, gs, true, d, |gs|)
  }

  /** The gates of the first d layers: on each layer the local ones, then the interactive ones. */
  function Order(gs: seq<Gate>, d: nat): (q: seq<nat>)
    ensures Ids(gs, q)
  {
    if d == 0 then [] else Order(gs, d - 1) + LocalGates(gs, d - 1) + InteractiveGates(gs, d - 1)
  }

  lemma {:induction false} OrderPrefix(gs: seq<Gate>, d: nat, e: nat)
    requires d <= e
    ensures Order(gs, d) <= Order(gs, e)
  {
    if d < e {
      OrderPrefix(gs, d, e - 1);
    }
  }

  lemma {:induction false} QueueAscending(gs: seq<Gate>, interactive: bool, d: nat, n: nat, i: nat, j: nat)
    requires n <= |gs| && i < j < |Queue(YAO, gs, interactive, d, n)|
    ensures Queue(YAO, gs, interactive, d, n)[i] < Queue(YAO, gs, interactive, d, n)[j]
  {
    var q := Queue(YAO, gs, interactive, d, n - 1);
    if j < |q| {
      QueueAscending(gs, interactive, d, n - 1, i, j);
    }
  }

  lemma {:induction false} OrderDepth(gs: seq<Gate>, d: nat, i: nat)
    requires i < |Order(gs, d)|
    ensures gs[Order(gs, d)[i]].depth < d
  {
    var front := Order(gs, d - 1);
    if i < |front| {
      OrderDepth(gs, d - 1, i);
    }
  }

  /** No gate is visited twice. */
  lemma {:induction false} OrderDistinct(gs: seq<Gate>, d: nat, i: nat, j: nat)
    requires i < j < |Order(gs, d)|
    ensures Order(gs, d)[i] != Order(gs, d)[j]
  {
    var front, l, x := Order(gs, d - 1), LocalGates(gs, d - 1), InteractiveGates(gs, d - 1);
    if j < |front| {
      OrderDistinct(gs, d - 1, i, j);
    } else if i < |front| {
      OrderDepth(gs, d - 1, i);
    } else if j < |front| + |l| {
      QueueAscending(gs, false, d - 1, |gs|, i - |front|, j - |front|);
    } else if i >= |front| + |l| {
      QueueAscending(gs, true, d - 1, |gs|, i - |front| - |l|, j - |front| - |l|);
    }
  }

  function IndexOf(q: seq<nat>, g: nat, n: nat): (i: nat)
    requires n <= |q|
    ensures i <= n
  {
    if n == 0 then 0 else if q[n - 1] == g then n - 1 else IndexOf(q, g, n - 1)
  }

  lemma {:induction false} IndexFound(q: seq<nat>, i: nat, n: nat)
    requires i < n <= |q| && forall k | i < k < n :: q[k] != q[i]
    ensures IndexOf(q, q[i], n) == i
  {
    if i < n - 1 {
      IndexFound(q, i, n - 1);
    }
  }

  /** Where gate g finds what it draws: behind everything drawn by the gates visited before it. */
  function Place(gs: seq<Gate>, layers: nat, s: Supply, g: nat): nat {
    var q := Order(gs, layers);
    Drawn(gs, s, q, IndexOf(q, g, |q|))
  }

  lemma {:induction false} DrawnCong(gs: seq<Gate>, s: Supply, q: seq<nat>, p: seq<nat>, i: nat)
    requires Ids(gs, q) && Ids(gs, p) && i <= |q| && i <= |p| && forall k | 0 <= k < i :: q[k] == p[k]
    ensures Drawn(gs, s, q, i) == Drawn(gs, s, p, i)
  {
    if i > 0 {
      DrawnCong(gs, s, q, p, i - 1);
    }
  }

  /** At position i of the order, the counters stand at the place of the gate. */
  lemma PlaceAt(gs: seq<Gate>, layers: nat, s: Supply, i: nat)
    requires i < |Order(gs, layers)|
    ensures Place(gs, layers, s, Order(gs, layers)[i]) == Drawn(gs, s, Order(gs, layers), i)
  {
    var q := Order(gs, layers);
    forall k | i < k < |q|
      ensures q[k] != q[i]
    {
      OrderDistinct(gs, layers, i, k);
    }
    IndexFound(q, i, |q|);
  }

  lemma PlaceOf(gs: seq<Gate>, layers: nat, s: Supply, i: nat, g: nat)
    requires i < |Order(gs, layers)| && Order(gs, layers)[i] == g
    ensures Place(gs, layers, s, g) == Drawn(gs, s, Order(gs, layers), i)
  {
    PlaceAt(gs, layers, s, i);
  }

  // ----- what the gates of a list draw, strung together -------------------------------------

  /** One element for everything that gate g draws. */
  function Block<T>(gs: seq<Gate>, s: Supply, f: (nat, nat) -> T, g: nat): (r: seq<T>)
    requires g < |gs|
    ensures |r| == Amount(gs, s, g) && forall t | 0 <= t < |r| :: r[t] == f(g, t)
  {
    seq(Amount(gs, s, g), t requires 0 <= t => f(g, t))
  }

  /** One element for everything that the first i gates of a list draw. */
  function Strung<T>(gs: seq<Gate>, s: Supply, f: (nat, nat) -> T, q: seq<nat>, i: nat): (r: seq<T>)
    requires Ids(gs, q) && i <= |q|
    ensures |r| == Drawn(gs, s, q, i)
  {
    if i == 0 then []
    else Strung(gs, s, f, q, i - 1) + Block(gs, s, f, q[i - 1])
  }

  /** Gate q[i] finds its elements at its place. */
  lemma {:induction false} StrungAt<T>(gs: seq<Gate>, s: Supply, f: (nat, nat) -> T, q: seq<nat>, i: nat, n: nat, t: nat)
    requires Ids(gs, q) && i < n <= |q| && t < Amount(gs, s, q[i])
    ensures Drawn(gs, s, q, i) + t < Drawn(gs, s, q, n)
    ensures Strung(gs, s, f, q, n)[Drawn(gs, s, q, i) + t] == f(q[i], t)
  {
    if i < n - 1 {
      StrungAt(gs, s, f, q, i, n - 1, t);
    }
  }

  /** A gate's elements are a slice of the string. */
  lemma {:induction false} StrungSlice<T>(gs: seq<Gate>, s: Supply, f: (nat, nat) -> T, q: seq<nat>, i: nat, n: nat)
    requires Ids(gs, q) && i < n <= |q|
    ensures var at := Drawn(gs, s, q, i);
            && at + Amount(gs, s, q[i]) <= Drawn(gs, s, q, n)
            && Strung(gs, s, f, q, n)[at..at + Amount(gs, s, q[i])] == Block(gs, s, f, q[i])
  {
    var at := Drawn(gs, s, q, i);
    if i < n - 1 {
      StrungSlice(gs, s, f, q, i, n - 1);
      assert Strung(gs, s, f, q, n)[at..at + Amount(gs, s, q[i])] == Strung(gs, s, f, q, n - 1)[at..at + Amount(gs, s, q[i])];
    }
  }

  lemma {:induction false} StrungCong<T>(gs: seq<Gate>, s: Supply, f: (nat, nat) -> T, q: seq<nat>, p: seq<nat>, i: nat)
    requires Ids(gs, q) && Ids(gs, p) && i <= |q| && i <= |p| && q[..i] == p[..i]
    ensures Strung(gs, s, f, q, i) == Strung(gs, s, f, p, i)
  {
    if i > 0 {
      assert q[i - 1] == q[..i][i - 1] == p[..i][i - 1] && q[..i - 1] == q[..i][..i - 1] == p[..i - 1];
      StrungCong(gs, s, f, q, p, i - 1);
    }
  }

  /** Strings of a list that consists of two parts. */
  lemma {:induction false} DrawnConcat(gs: seq<Gate>, s: Supply, q: seq<nat>, p: seq<nat>, i: nat)
    requires Ids(gs, q) && Ids(gs, p) && i <= |p|
    ensures Drawn(gs, s, q + p, |q| + i) == Drawn(gs, s, q, |q|) + Drawn(gs, s, p, i)
  {
    if i == 0 {
      DrawnCong(gs, s, q + p, q, |q|);
    } else {
      DrawnConcat(gs, s, q, p, i - 1);
    }
  }

  /** The gates among the first i of a list that draw from s. */
  function Drawers(gs: seq<Gate>, s: Supply, q: seq<nat>, i: nat): (r: seq<nat>)
    requires Ids(gs, q) && i <= |q|
    ensures Ids(gs, r) && forall k | 0 <= k < |r| :: Draws(gs, s, r[k])
  {
    if i == 0 then []
    else
      var r := Drawers(gs, s, q, i - 1);
      if Draws(gs, s, q[i - 1]) then r + [q[i - 1]] else r
  }

  /** Only these gates matter. */
  lemma {:induction false} DrawersDrawn(gs: seq<Gate>, s: Supply, q: seq<nat>, i: nat)
    requires Ids(gs, q) && i <= |q|
    ensures var r := Drawers(gs, s, q, i); Drawn(gs, s, r, |r|) == Drawn(gs, s, q, i)
  {
    if i > 0 {
      DrawersDrawn(gs, s, q, i - 1);
      var r := Drawers(gs, s, q, i - 1);
      DrawnCong(gs, s, r + [q[i - 1]], r, |r|);
    }
  }

  lemma {:induction false} DrawersStrung<T>(gs: seq<Gate>, s: Supply, f: (nat, nat) -> T, q: seq<nat>, i: nat)
    requires Ids(gs, q) && i <= |q|
    ensures var r := Drawers(gs, s, q, i); Strung(gs, s, f, r, |r|) == Strung(gs, s, f, q, i)
  {
    if i > 0 {
      DrawersStrung(gs, s, f, q, i - 1);
      var r, g := Drawers(gs, s, q, i - 1), q[i - 1];
      var more := r + [g];
      if Draws(gs, s, g) {
        StrungCong(gs, s, f, more, r, |r|);
        assert more[|r|] == g;
      } else {
        assert Block(gs, s, f, g) == [];
      }
    }
  }

  lemma {:induction false} DrawersConcat(gs: seq<Gate>, s: Supply, q: seq<nat>, p: seq<nat>, i: nat)
    requires Ids(gs, q) && Ids(gs, p) && i <= |p|
    ensures Drawers(gs, s, q + p, |q| + i) == Drawers(gs, s, q, |q|) + Drawers(gs, s, p, i)
  {
    if i == 0 {
      DrawersCong(gs, s, q + p, q, |q|);
    } else {
      DrawersConcat(gs, s, q, p, i - 1);
    }
  }

  lemma {:induction false} DrawersCong(gs: seq<Gate>, s: Supply, q: seq<nat>, p: seq<nat>, i: nat)
    requires Ids(gs, q) && Ids(gs, p) && i <= |q| && i <= |p| && forall k | 0 <= k < i :: q[k] == p[k]
    ensures Drawers(gs, s, q, i) == Drawers(gs, s, p, i)
  {
    if i > 0 {
      DrawersCong(gs, s, q, p, i - 1);
    }
  }

  /** Gates that draw nothing do not matter. */
  lemma {:induction false} NoneDraws(gs: seq<Gate>, s: Supply, q: seq<nat>, i: nat, n: nat)
    requires Ids(gs, q) && i <= n <= |q| && forall k | i <= k < n :: !Draws(gs, s, q[k])
    ensures Drawn(gs, s, q, n) == Drawn(gs, s, q, i) && Drawers(gs, s, q, n) == Drawers(gs, s, q, i)
  {
    if i < n {
      NoneDraws(gs, s, q, i, n - 1);
    }
  }

  // ----- layers within the order ------------------------------------------------------------

  /** The order of all layers continues the order of the first d with layer d. */
  lemma OrderLayer(gs: seq<Gate>, layers: nat, d: nat)
    requires d < layers
    ensures Order(gs, d) + LocalGates(gs, d) + InteractiveGates(gs, d) == Order(gs, d + 1) <= Order(gs, layers)
  {
    OrderPrefix(gs, d + 1, layers);
  }

  /** A list stands in the order from position base on. */
  predicate Slice(gs: seq<Gate>, layers: nat, queue: seq<nat>, base: nat) {
    base + |queue| <= |Order(gs, layers)| && Order(gs, layers)[base..base + |queue|] == queue
  }

  /** Where the two queues of layer d stand in the order. */
  lemma LayerSlices(gs: seq<Gate>, layers: nat, d: nat)
    requires d < layers
    ensures |Order(gs, d + 1)| == |Order(gs, d)| + |LocalGates(gs, d)| + |InteractiveGates(gs, d)|
    ensures Slice(gs, layers, LocalGates(gs, d), |Order(gs, d)|)
    ensures Slice(gs, layers, InteractiveGates(gs, d), |Order(gs, d)| + |LocalGates(gs, d)|)
  {
    OrderLayer(gs, layers, d);
    InnerSlices(Order(gs, d), LocalGates(gs, d), InteractiveGates(gs, d), Order(gs, layers));
  }

  lemma InnerSlices(a: seq<nat>, b: seq<nat>, c: seq<nat>, q: seq<nat>)
    requires a + b + c <= q
    ensures q[|a|..|a| + |b|] == b && q[|a| + |b|..|a| + |b| + |c|] == c
  {
    var abc := a + b + c;
    assert q[|a|..|a| + |b|] == abc[|a|..|a| + |b|] == b;
    assert q[|a| + |b|..|a| + |b| + |c|] == abc[|a| + |b|..|a| + |b| + |c|] == c;
  }

  lemma SliceAt(gs: seq<Gate>, layers: nat, queue: seq<nat>, base: nat, i: nat)
    requires Slice(gs, layers, queue, base) && i < |queue|
    ensures base + i < |Order(gs, layers)| && Order(gs, layers)[base + i] == queue[i]
  {
    assert queue[i] == Order(gs, layers)[base..base + |queue|][i];
  }

  /** A gate of a slice finds what it draws behind everything drawn before its position. */
  lemma SlicePlace(gs: seq<Gate>, layers: nat, s: Supply, queue: seq<nat>, base: nat, i: nat)
    requires Slice(gs, layers, queue, base) && i < |queue|
    ensures Place(gs, layers, s, queue[i]) == Drawn(gs, s, Order(gs, layers), base + i)
  {
    SliceAt(gs, layers, queue, base, i);
    PlaceAt(gs, layers, s, base + i);
  }

  /** A slice whose gates draw nothing does not matter. */
  lemma SliceDrawsNone(gs: seq<Gate>, layers: nat, s: Supply, queue: seq<nat>, base: nat)
    requires Slice(gs, layers, queue, base) && forall k | 0 <= k < |queue| :: queue[k] < |gs| && !Draws(gs, s, queue[k])
    ensures Drawn(gs, s, Order(gs, layers), base + |queue|) == Drawn(gs, s, Order(gs, layers), base)
    ensures Drawers(gs, s, Order(gs, layers), base + |queue|) == Drawers(gs, s, Order(gs, layers), base)
  {
    var q, n := Order(gs, layers), base + |queue|;
    forall k | base <= k < n
      ensures !Draws(gs, s, q[k])
    {
      SliceAt(gs, layers, queue, base, k - base);
    }
    NoneDraws(gs, s, q, base, n);
  }

  /** Exactly the gates of earlier layers have been visited. */
  lemma {:induction false} OrderMembers(gs: seq<Gate>, d: nat, g: nat)
    ensures g in Order(gs, d) <==> g < |gs| && gs[g].depth < d
  {
    if d > 0 {
      OrderMembers(gs, d - 1, g);
      OrderNext(gs, d - 1, g);
    }
  }

  lemma LayerMembers(gs: seq<Gate>, d: nat, g: nat)
    ensures g in LocalGates(gs, d) || g in InteractiveGates(gs, d) <==> g < |gs| && gs[g].depth == d
  {
    QueueMembers(YAO, gs, false, d, |gs|, g);
    QueueMembers(YAO, gs, true, d, |gs|, g);
  }

  lemma OrderNext(gs: seq<Gate>, d: nat, g: nat)
    ensures g in Order(gs, d + 1) <==> g in Order(gs, d) || (g < |gs| && gs[g].depth == d)
  {
    LayerMembers(gs, d, g);
    InThree(Order(gs, d), LocalGates(gs, d), InteractiveGates(gs, d), g);
  }

  lemma InThree(a: seq<nat>, b: seq<nat>, c: seq<nat>, x: nat)
    ensures x in a + b + c <==> x in a || x in b || x in c
  {
  }

  /** A local operand on the same layer has been visited before. */
  lemma LocalBefore(gs: seq<Gate>, i: nat, d: nat, p: nat)
    requires i < |LocalGates(gs, d)| && p < LocalGates(gs, d)[i]
    requires gs[p].depth == d && !Interactive(YAO, gs[p].op)
    ensures p in LocalGates(gs, d)[..i]
  {
    QueueTake(YAO, gs, false, d, |gs|, i);
    QueueMembers(YAO, gs, false, d, LocalGates(gs, d)[i], p);
  }

  lemma InPrefix(front: seq<nat>, q: seq<nat>, i: nat, x: nat)
    requires front <= q && |front| <= i <= |q| && x in front
    ensures x in q[..i]
  {
    assert front == q[..i][..|front|];
  }

  /** All operands of a gate have been visited before it. */
  lemma {:induction false} OperandsVisited(gs: seq<Gate>, d: nat, i: nat, p: nat)
    requires WellFormed(YAO, gs) && i < |Order(gs, d)| && p in Parents(gs[Order(gs, d)[i]].op)
    ensures p in Order(gs, d)[..i]
  {
    var q, front := Order(gs, d), Order(gs, d - 1);
    if i < |front| {
      OperandsVisited(gs, d - 1, i, p);
      assert q[..i] == front[..i];
    } else {
      OperandLocal(gs, q[i], p);
      OrderMembers(gs, d - 1, p);
      OrderMembers(gs, d, q[i]);
      if p in front {
        InPrefix(front, q, i, p);
      } else {
        LayerOperandVisited(gs, d - 1, i - |front|, p);
      }
    }
  }

  /** The same within one layer. */
  lemma LayerOperandVisited(gs: seq<Gate>, d: nat, i: nat, p: nat)
    requires i < |LocalGates(gs, d)| + |InteractiveGates(gs, d)|
    requires p < (LocalGates(gs, d) + InteractiveGates(gs, d))[i] && gs[p].depth == d && !Interactive(YAO, gs[p].op)
    ensures p in Order(gs, d + 1)[..|Order(gs, d)| + i]
  {
    var front, local, q := Order(gs, d), LocalGates(gs, d), Order(gs, d + 1);
    if i < |local| {
      LocalBefore(gs, i, d, p);
      assert q[..|front| + i] == front + local[..i];
    } else {
      QueueMembers(YAO, gs, false, d, |gs|, p);
      InPrefix(front + local, q, |front| + i, p);
    }
  }

  /** An operand on the same layer is local: interactive gates are only ready on a later one. */
  lemma OperandLocal(gs: seq<Gate>, g: nat, p: nat)
    requires WellFormed(YAO, gs) && g < |gs| && p in Parents(gs[g].op)
    ensures p < g && !gs[p].op.Out? && gs[p].depth <= gs[g].depth
    ensures gs[p].depth == gs[g].depth ==> !Interactive(YAO, gs[p].op)
  {
    ParentSchedule(YAO, gs, g, p);
    assert GateOk(YAO, gs, p);
  }

  /** Input gates are on the first layer. */
  lemma InputsFirst(gs: seq<Gate>, g: nat)
    requires WellFormed(YAO, gs) && g < |gs| && gs[g].op.In?
    ensures gs[g].depth == 0
  {
    assert GateOk(YAO, gs, g);
  }

  /** Local gates draw tables only, and interactive gates anything else. */
  predicate IsTables(s: Supply) {
    s.AndTables? || s.UnivTables?
  }

  lemma {:induction false} OtherDrawsNone(gs: seq<Gate>, s: Supply, interactive: bool, d: nat, i: nat)
    requires i <= |Queue(YAO, gs, interactive, d, |gs|)| && IsTables(s) == interactive
    ensures Drawn(gs, s, Queue(YAO, gs, interactive, d, |gs|), i) == 0
    ensures Drawers(gs, s, Queue(YAO, gs, interactive, d, |gs|), i) == []
  {
    if i > 0 {
      OtherDrawsNone(gs, s, interactive, d, i - 1);
    }
  }

  lemma InteractiveSlice(gs: seq<Gate>, layers: nat, d: nat)
    requires d < layers
    ensures Slice(gs, layers, InteractiveGates(gs, d), |Order(gs, d)| + |LocalGates(gs, d)|)
  {
    LayerSlices(gs, layers, d);
  }

  /** Nothing is drawn along a slice without drawing gates. */
  lemma SliceEnd(gs: seq<Gate>, layers: nat, s: Supply, queue: seq<nat>, base: nat)
    requires Slice(gs, layers, queue, base) && forall k | 0 <= k < |queue| :: queue[k] < |gs| && !Draws(gs, s, queue[k])
    ensures base + |queue| <= |Order(gs, layers)|
    ensures Drawn(gs, s, Order(gs, layers), base + |queue|) == Drawn(gs, s, Order(gs, layers), base)
  {
    SliceDrawsNone(gs, layers, s, queue, base);
  }

  /** Interactive gates draw no tables. */
  lemma InteractiveDrawsNone(gs: seq<Gate>, layers: nat, s: Supply, d: nat, queue: seq<nat>, base: nat)
    requires d < layers && IsTables(s) && queue == InteractiveGates(gs, d) && base == |Order(gs, d)| + |LocalGates(gs, d)|
    ensures base + |queue| <= |Order(gs, layers)|
    ensures Drawn(gs, s, Order(gs, layers), base + |queue|) == Drawn(gs, s, Order(gs, layers), base)
  {
    InteractiveSlice(gs, layers, d);
    SliceEnd(gs, layers, s, queue, base);
  }

  /** What is drawn along the first two parts of a list and i gates of the third, if the second one draws nothing. */
  lemma DrawnParts(gs: seq<Gate>, s: Supply, q: seq<nat>, a: seq<nat>, b: seq<nat>, c: seq<nat>, i: nat)
    requires a + b + c <= q && Ids(gs, q) && Ids(gs, a) && Ids(gs, b) && Ids(gs, c) && i <= |c|
    requires forall k | 0 <= k < |b| :: !Draws(gs, s, b[k])
    ensures |a| + |b| + i <= |q| && Drawn(gs, s, q, |a| + |b| + i) == Drawn(gs, s, a, |a|) + Drawn(gs, s, c, i)
  {
    var front := a + b;
    DrawnConcat(gs, s, a, b, |b|);
    DrawnNone(gs, s, b, |b|);
    DrawnConcat(gs, s, front, c, i);
    DrawnCong(gs, s, q, front + c, |front| + i);
  }

  lemma {:induction false} DrawnNone(gs: seq<Gate>, s: Supply, q: seq<nat>, i: nat)
    requires Ids(gs, q) && i <= |q| && forall k | 0 <= k < |q| :: !Draws(gs, s, q[k])
    ensures Drawn(gs, s, q, i) == 0
  {
    if i > 0 {
      DrawnNone(gs, s, q, i - 1);
    }
  }

  lemma PartAt(a: seq<nat>, b: seq<nat>, c: seq<nat>, q: seq<nat>, i: nat)
    requires a + b + c <= q && i < |c|
    ensures |a| + |b| + i < |q| && q[|a| + |b| + i] == c[i]
  {
    assert (a + b + c)[|a| + |b| + i] == c[i];
  }

  /** Where gate i of a layer's interactive queue stands in the order. */
  lemma InteractiveAt(gs: seq<Gate>, layers: nat, d: nat, i: nat) returns (n: nat)
    requires d < layers && i < |InteractiveGates(gs, d)|
    ensures n == |Order(gs, d)| + |LocalGates(gs, d)| + i < |Order(gs, layers)|
    ensures Order(gs, layers)[n] == InteractiveGates(gs, d)[i]
  {
    OrderLayer(gs, layers, d);
    PartAt(Order(gs, d), LocalGates(gs, d), InteractiveGates(gs, d), Order(gs, layers), i);
    n := |Order(gs, d)| + |LocalGates(gs, d)| + i;
  }

  lemma DrawnThere(gs: seq<Gate>, layers: nat, s: Supply, d: nat, i: nat, n: nat)
    requires d < layers && i <= |InteractiveGates(gs, d)| && !IsTables(s) && n == |Order(gs, d)| + |LocalGates(gs, d)| + i
    ensures n <= |Order(gs, layers)|
    ensures Drawn(gs, s, Order(gs, layers), n) == Drawn(gs, s, Order(gs, d), |Order(gs, d)|) + Drawn(gs, s, InteractiveGates(gs, d), i)
  {
    OrderLayer(gs, layers, d);
    DrawnParts(gs, s, Order(gs, layers), Order(gs, d), LocalGates(gs, d), InteractiveGates(gs, d), i);
  }

  /** A gate of a layer's interactive queue finds what it draws behind that of the earlier gates. */
  lemma InteractivePlace(gs: seq<Gate>, layers: nat, s: Supply, d: nat, i: nat)
    requires d < layers && i < |InteractiveGates(gs, d)| && !IsTables(s)
    ensures Place(gs, layers, s, InteractiveGates(gs, d)[i]) ==
            Drawn(gs, s, Order(gs, d), |Order(gs, d)|) + Drawn(gs, s, InteractiveGates(gs, d), i)
  {
    var n := InteractiveAt(gs, layers, d, i);
    PlaceOf(gs, layers, s, n, InteractiveGates(gs, d)[i]);
    DrawnThere(gs, layers, s, d, i, n);
  }

  /** After a layer, everything its queues draw has been drawn. */
  lemma LayerTotal(gs: seq<Gate>, s: Supply, d: nat)
    ensures Drawn(gs, s, Order(gs, d + 1), |Order(gs, d + 1)|) ==
            Drawn(gs, s, Order(gs, d), |Order(gs, d)|) +
            (if IsTables(s) then Drawn(gs, s, LocalGates(gs, d), |LocalGates(gs, d)|)
             else Drawn(gs, s, InteractiveGates(gs, d), |InteractiveGates(gs, d)|))
  {
    var front, local, inter := Order(gs, d), LocalGates(gs, d), InteractiveGates(gs, d);
    DrawnConcat(gs, s, front, local, |local|);
    DrawnConcat(gs, s, front + local, inter, |inter|);
    if IsTables(s) {
      OtherDrawsNone(gs, s, true, d, |inter|);
    } else {
      OtherDrawsNone(gs, s, false, d, |local|);
    }
  }

  // ----- the gates that draw ----------------------------------------------------------------

  /** Where the drawing gate q[i] stands among the drawing gates. */
  lemma {:induction false} DrawersAt(gs: seq<Gate>, s: Supply, q: seq<nat>, i: nat, n: nat)
    requires Ids(gs, q) && i < n <= |q| && Draws(gs, s, q[i])
    ensures var r := Drawers(gs, s, q, n); |Drawers(gs, s, q, i)| < |r| && r[|Drawers(gs, s, q, i)|] == q[i]
  {
    if i < n - 1 {
      DrawersAt(gs, s, q, i, n - 1);
    }
  }

  /** Every drawing gate has a position in the list, and the ones before it are those before that position. */
  lemma {:induction false} DrawerIndex(gs: seq<Gate>, s: Supply, q: seq<nat>, n: nat, j: nat) returns (i: nat)
    requires Ids(gs, q) && n <= |q| && j < |Drawers(gs, s, q, n)|
    ensures i < n && Drawers(gs, s, q, n)[j] == q[i] && Drawers(gs, s, q, i) == Drawers(gs, s, q, n)[..j]
  {
    if j < |Drawers(gs, s, q, n - 1)| {
      i := DrawerIndex(gs, s, q, n - 1, j);
    } else {
      i := n - 1;
    }
  }

  /** The drawing gates of a layer find what they draw one behind the other. */
  lemma DrawerPlace(gs: seq<Gate>, layers: nat, s: Supply, d: nat, j: nat)
    requires d < layers && !IsTables(s) && j < |Drawers(gs, s, InteractiveGates(gs, d), |InteractiveGates(gs, d)|)|
    ensures var c := Drawers(gs, s, InteractiveGates(gs, d), |InteractiveGates(gs, d)|);
            Place(gs, layers, s, c[j]) == Drawn(gs, s, Order(gs, d), |Order(gs, d)|) + Drawn(gs, s, c, j)
  {
    var q := InteractiveGates(gs, d);
    var c := Drawers(gs, s, q, |q|);
    var i := DrawerIndex(gs, s, q, |q|, j);
    InteractivePlace(gs, layers, s, d, i);
    DrawersDrawn(gs, s, q, i);
    var r := Drawers(gs, s, q, i);
    assert |r| == j && r == c[..j];
    DrawnCong(gs, s, c, r, j);
  }

  /** A drawing gate draws something. */
  lemma {:induction false} DrawnGrows(gs: seq<Gate>, s: Supply, q: seq<nat>, i: nat, n: nat)
    requires Ids(gs, q) && i < n <= |q| && forall k | 0 <= k < |q| :: Draws(gs, s, q[k]) && gs[q[k]].nvals > 0
    ensures Drawn(gs, s, q, i) < Drawn(gs, s, q, n)
  {
    if i < n - 1 {
      DrawnGrows(gs, s, q, i, n - 1);
    }
  }

  /** Layers behind the first one have no inputs. */
  lemma {:induction false} NoLaterInputs(gs: seq<Gate>, s: Supply, d: nat, i: nat)
    requires WellFormed(YAO, gs) && d > 0 && i <= |InteractiveGates(gs, d)| && (s.ServerKeys? || s.ClientKeys?)
    ensures Drawers(gs, s, InteractiveGates(gs, d), i) == [] && Drawn(gs, s, InteractiveGates(gs, d), i) == 0
  {
    if i > 0 {
      NoLaterInputs(gs, s, d, i - 1);
      var g := InteractiveGates(gs, d)[i - 1];
      if gs[g].op.In? {
        InputsFirst(gs, g);
      }
    }
  }

  /** The gates of a layer that draw are interactive. */
  lemma LayerDrawers(gs: seq<Gate>, s: Supply, d: nat)
    requires !IsTables(s)
    ensures Drawers(gs, s, Order(gs, d + 1), |Order(gs, d + 1)|) ==
            Drawers(gs, s, Order(gs, d), |Order(gs, d)|) + Drawers(gs, s, InteractiveGates(gs, d), |InteractiveGates(gs, d)|)
  {
    OtherDrawsNone(gs, s, false, d, |LocalGates(gs, d)|);
    DrawersThree(gs, s, Order(gs, d), LocalGates(gs, d), InteractiveGates(gs, d));
  }

  lemma DrawersThree(gs: seq<Gate>, s: Supply, a: seq<nat>, b: seq<nat>, c: seq<nat>)
    requires Ids(gs, a) && Ids(gs, b) && Ids(gs, c) && Drawers(gs, s, b, |b|) == []
    ensures Drawers(gs, s, a + b + c, |a + b + c|) == Drawers(gs, s, a, |a|) + Drawers(gs, s, c, |c|)
  {
    var front := a + b;
    DrawersConcat(gs, s, a, b, |b|);
    assert Drawers(gs, s, front, |front|) == Drawers(gs, s, a, |a|);
    DrawersConcat(gs, s, front, c, |c|);
  }

  /** All inputs are among the interactive gates of the first layer. */
  lemma {:induction false} AllInputs(gs: seq<Gate>, s: Supply, d: nat)
    requires WellFormed(YAO, gs) && d > 0 && (s.ServerKeys? || s.ClientKeys?)
    ensures Drawers(gs, s, Order(gs, d), |Order(gs, d)|) == Drawers(gs, s, InteractiveGates(gs, 0), |InteractiveGates(gs, 0)|)
  {
    LayerDrawers(gs, s, d - 1);
    if d > 1 {
      AllInputs(gs, s, d - 1);
      NoLaterInputs(gs, s, d - 1, |InteractiveGates(gs, d - 1)|);
    }
  }

  // ----- totals -----------------------------------------------------------------------------

  /** What the gates below n on layers before d draw. */
  function SumBelow(gs: seq<Gate>, s: Supply, d: nat, n: nat): nat
    requires n <= |gs|
  {
    if n == 0 then 0 else SumBelow(gs, s, d, n - 1) + if gs[n - 1].depth < d then Amount(gs, s, n - 1) else 0
  }

  lemma {:induction false} QueueSum(gs: seq<Gate>, s: Supply, d: nat, n: nat)
    requires n <= |gs|
    ensures var local, inter := Queue(YAO, gs, false, d, n), Queue(YAO, gs, true, d, n);
            SumBelow(gs, s, d + 1, n) == SumBelow(gs, s, d, n) + Drawn(gs, s, local, |local|) + Drawn(gs, s, inter, |inter|)
  {
    if n > 0 {
      QueueSum(gs, s, d, n - 1);
      if gs[n - 1].depth == d {
        DrawnSnoc(gs, s, Queue(YAO, gs, Interactive(YAO, gs[n - 1].op), d, n - 1), n - 1);
      }
    }
  }

  lemma DrawnSnoc(gs: seq<Gate>, s: Supply, q: seq<nat>, g: nat)
    requires Ids(gs, q) && g < |gs|
    ensures Drawn(gs, s, q + [g], |q + [g]|) == Drawn(gs, s, q, |q|) + Amount(gs, s, g)
  {
    DrawnCong(gs, s, q + [g], q, |q|);
  }

  lemma DrawnThree(gs: seq<Gate>, s: Supply, a: seq<nat>, b: seq<nat>, c: seq<nat>)
    requires Ids(gs, a) && Ids(gs, b) && Ids(gs, c)
    ensures Drawn(gs, s, a + b + c, |a + b + c|) == Drawn(gs, s, a, |a|) + Drawn(gs, s, b, |b|) + Drawn(gs, s, c, |c|)
  {
    DrawnConcat(gs, s, a, b, |b|);
    DrawnConcat(gs, s, a + b, c, |c|);
  }

  /** Everything that the gates of the first layers draw, whatever the order. */
  lemma {:induction false} OrderSum(gs: seq<Gate>, s: Supply, d: nat)
    ensures Drawn(gs, s, Order(gs, d), |Order(gs, d)|) == SumBelow(gs, s, d, |gs|)
  {
    if d == 0 {
      NoneBelow(gs, s, |gs|);
    } else {
      OrderSum(gs, s, d - 1);
      QueueSum(gs, s, d - 1, |gs|);
      DrawnThree(gs, s, Order(gs, d - 1), LocalGates(gs, d - 1), InteractiveGates(gs, d - 1));
    }
  }

  lemma {:induction false} NoneBelow(gs: seq<Gate>, s: Supply, n: nat)
    requires n <= |gs|
    ensures SumBelow(gs, s, 0, n) == 0
  {
    if n > 0 {
      NoneBelow(gs, s, n - 1);
    }
  }

  /** The gates that draw from s, in build order. */
  function Built(gs: seq<Gate>, s: Supply, n: nat): (r: seq<nat>)
    requires n <= |gs|
    ensures Ids(gs, r) && forall k | 0 <= k < |r| :: Draws(gs, s, r[k]) && r[k] < n
  {
    if n == 0 then []
    else
      var r := Built(gs, s, n - 1);
      if Draws(gs, s, n - 1) then r + [n - 1] else r
  }

  lemma {:induction false} BuiltSum(gs: seq<Gate>, s: Supply, d: nat, n: nat)
    requires n <= |gs| && forall g | 0 <= g < n :: gs[g].depth < d
    ensures Drawn(gs, s, Built(gs, s, n), |Built(gs, s, n)|) == SumBelow(gs, s, d, n)
  {
    if n > 0 {
      BuiltSum(gs, s, d, n - 1);
      DrawnSnoc(gs, s, Built(gs, s, n - 1), n - 1);
    }
  }

  /** Going through all gates, every supply is used up exactly. */
  lemma TotalDrawn(gs: seq<Gate>, s: Supply, layers: nat)
    requires forall g | 0 <= g < |gs| :: gs[g].depth < layers
    ensures Drawn(gs, s, Order(gs, layers), |Order(gs, layers)|) == Drawn(gs, s, Built(gs, s, |gs|), |Built(gs, s, |gs|)|)
  {
    OrderSum(gs, s, layers);
    BuiltSum(gs, s, layers, |gs|);
  }
}
