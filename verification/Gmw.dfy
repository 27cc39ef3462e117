/**
  GMW sharing: where every gate finds its triples, masks and messages, which share each party
  holds of every wire, and that the two shares add up to the plain value.
 */
module GmwSpec {
  import opened Bits
  import opened Circuit

  // ----- positions within a layer ---------------------------------------------------------

  function Pad8(n: nat): (r: nat)
    ensures n <= r < n + 8 && r % 8 == 0
  {
    if n == 0 then 0 else if n <= 8 then 8 else 8 + Pad8(n - 8)
  }

  /** What an interactive gate takes from: triples of a vector length, input masks, output bits. */
  datatype Stock = Triple(bitlen: nat) | Input(src: Role) | Output(dst: Role)

  predicate Belongs(gs: seq<Gate>, s: Stock, g: nat)
    requires g < |gs|
  {
    match s
    case Triple(bitlen) => IsAnd(gs[g].op) && AndBitlen(gs[g].op) == bitlen && bitlen > 0
    case Input(src) => gs[g].op == In(src)
    case Output(dst) => gs[g].op.Out? && gs[g].op.dst.Includes(dst)
  }

  /** A triple per value of the choice input; a bit per value of an input or output gate. */
  function Amount(gs: seq<Gate>, s: Stock, g: nat): nat
    requires g < |gs|
  {
    if !Belongs(gs, s, g) then 0 else if s.Triple? then gs[g].nvals / s.bitlen else gs[g].nvals
  }

  predicate Ids(gs: seq<Gate>, q: seq<nat>) {
    forall i | 0 <= i < |q| :: q[i] < |gs|
  }

  /** What the first i gates of a list take. */
  function Taken(gs: seq<Gate>, s: Stock, q: seq<nat>, i: nat): nat
    requires Ids(gs, q) && i <= |q|
  {
    if i == 0 then 0 else Taken(gs, s, q, i - 1) + Amount(gs, s, q[i - 1])
  }

  /** The interactive gates of layer d. */
  function Layer(gs: seq<Gate>, d: nat): (q: seq<nat>)
    ensures Ids(gs, q)
  {
    Queue(BOOL, gs, true, d, |gs|)
  }

  /** What the gates of the same layer before g take. */
  function Offset(gs: seq<Gate>, s: Stock, g: nat): nat
    requires g < |gs|
  {
    var q := Queue(BOOL, gs, true, gs[g].depth, g);
    Taken(gs, s, q, |q|)
  }

  lemma {:induction false} TakenCong(gs: seq<Gate>, s: Stock, q: seq<nat>, p: seq<nat>, i: nat)
    requires Ids(gs, q) && Ids(gs, p) && i <= |q| && i <= |p| && forall k | 0 <= k < i :: q[k] == p[k]
    ensures Taken(gs, s, q, i) == Taken(gs, s, p, i)
  {
    if i > 0 {
      TakenCong(gs, s, q, p, i - 1);
    }
  }

  /** In the queue of its layer, a gate's offset is what the gates queued before it take. */
  lemma OffsetInLayer(gs: seq<Gate>, s: Stock, d: nat, i: nat)
    requires i < |Layer(gs, d)|
    ensures gs[Layer(gs, d)[i]].depth == d && Interactive(BOOL, gs[Layer(gs, d)[i]].op)
    ensures Offset(gs, s, Layer(gs, d)[i]) == Taken(gs, s, Layer(gs, d), i)
  {
    var q := Layer(gs, d);
    QueueTake(BOOL, gs, true, d, |gs|, i);
    TakenCong(gs, s, q, q[..i], i);
  }

  /** The gates of a list that belong to a stock, in order. */
  function Members(gs: seq<Gate>, s: Stock, q: seq<nat>, i: nat): (m: seq<nat>)
    requires Ids(gs, q) && i <= |q|
    ensures Ids(gs, m) && |m| <= i && forall k | 0 <= k < |m| :: Belongs(gs, s, m[k])
  {
    if i == 0 then []
    else
      var m := Members(gs, s, q, i - 1);
      if Belongs(gs, s, q[i - 1]) then m + [q[i - 1]] else m
  }

  /** Members take what the whole list takes. */
  lemma {:induction false} MembersTaken(gs: seq<Gate>, s: Stock, q: seq<nat>, i: nat)
    requires Ids(gs, q) && i <= |q|
    ensures Taken(gs, s, Members(gs, s, q, i), |Members(gs, s, q, i)|) == Taken(gs, s, q, i)
  {
    if i > 0 {
      MembersTaken(gs, s, q, i - 1);
      var m := Members(gs, s, q, i - 1);
      TakenCong(gs, s, Members(gs, s, q, i), m, |m|);
    }
  }

  /** A member is found where the members before it end. */
  lemma {:induction false} MemberPosition(gs: seq<Gate>, s: Stock, q: seq<nat>, i: nat, k: nat) returns (j: nat)
    requires Ids(gs, q) && i <= |q| && k < |Members(gs, s, q, i)|
    ensures j < i && q[j] == Members(gs, s, q, i)[k]
    ensures Taken(gs, s, q, j) == Taken(gs, s, Members(gs, s, q, i), k)
  {
    var m := Members(gs, s, q, i - 1);
    if k < |m| {
      j := MemberPosition(gs, s, q, i - 1, k);
      TakenCong(gs, s, Members(gs, s, q, i), m, k);
    } else {
      j := i - 1;
      MembersTaken(gs, s, q, i - 1);
      TakenCong(gs, s, Members(gs, s, q, i), m, k);
    }
  }

  /** Gates of one layer take disjoint, ascending ranges, all within what the layer takes. */
  lemma {:induction false} TakenMonotone(gs: seq<Gate>, s: Stock, q: seq<nat>, i: nat, j: nat)
    requires Ids(gs, q) && i <= j <= |q|
    ensures Taken(gs, s, q, i) <= Taken(gs, s, q, j)
    ensures i < j ==> Taken(gs, s, q, i) + Amount(gs, s, q[i]) <= Taken(gs, s, q, j)
  {
    if i + 1 < j {
      TakenMonotone(gs, s, q, i, j - 1);
    }
  }

  // ----- multiplication triples -----------------------------------------------------------

  /** The triple with which layer d starts: every layer is padded to a byte. */
  function Start(gs: seq<Gate>, bitlen: nat, d: nat): nat {
    if d == 0 then 0
    else
      var q := Layer(gs, d - 1);
      Pad8(Start(gs, bitlen, d - 1) + Taken(gs, Triple(bitlen), q, |q|))
  }

  lemma StartNext(gs: seq<Gate>, bitlen: nat, d: nat)
    ensures Start(gs, bitlen, d + 1) ==
            Pad8(Start(gs, bitlen, d) + Taken(gs, Triple(bitlen), Layer(gs, d), |Layer(gs, d)|))
  {
  }

  /** The first triple of an AND gate. */
  function Pos(gs: seq<Gate>, g: nat): nat
    requires g < |gs|
  {
    Start(gs, AndBitlen(gs[g].op), gs[g].depth) + Offset(gs, Triple(AndBitlen(gs[g].op)), g)
  }

  /** Triples of the AND gates on the layers before d. */
  function AndsBefore(gs: seq<Gate>, bitlen: nat, d: nat, n: nat): nat
    requires n <= |gs|
  {
    if n == 0 then 0
    else AndsBefore(gs, bitlen, d, n - 1) + if gs[n - 1].depth < d then Triples(gs, n - 1, bitlen) else 0
  }

  lemma {:induction false} AndsBeforeAll(gs: seq<Gate>, bitlen: nat, d: nat, n: nat)
    requires n <= |gs|
    ensures AndsBefore(gs, bitlen, d, n) <= NumAnds(gs, bitlen, n)
  {
    if n > 0 {
      AndsBeforeAll(gs, bitlen, d, n - 1);
    }
  }

  lemma {:induction false} AndsBeforeStep(gs: seq<Gate>, bitlen: nat, d: nat, n: nat)
    requires n <= |gs|
    ensures var q := Queue(BOOL, gs, true, d, n);
            AndsBefore(gs, bitlen, d + 1, n) == AndsBefore(gs, bitlen, d, n) + Taken(gs, Triple(bitlen), q, |q|)
  {
    if n > 0 {
      AndsBeforeStep(gs, bitlen, d, n - 1);
      var q, p := Queue(BOOL, gs, true, d, n), Queue(BOOL, gs, true, d, n - 1);
      TakenCong(gs, Triple(bitlen), q, p, |p|);
      assert Triples(gs, n - 1, bitlen) == Amount(gs, Triple(bitlen), n - 1);
    }
  }

  lemma {:induction false} AndsBeforeNone(gs: seq<Gate>, bitlen: nat, n: nat)
    requires n <= |gs|
    ensures AndsBefore(gs, bitlen, 0, n) == 0
  {
    if n > 0 {
      AndsBeforeNone(gs, bitlen, n - 1);
    }
  }

  /** The triples set aside: one per AND gate and value, and a byte of padding per layer. */
  function NumMTs(numgates: nat, maxDepth: nat): nat {
    if numgates > 0 then numgates + 8 * maxDepth else 0
  }

  lemma {:induction false} StartBound(gs: seq<Gate>, bitlen: nat, d: nat)
    ensures Start(gs, bitlen, d) <= AndsBefore(gs, bitlen, d, |gs|) + 7 * d
    ensures Start(gs, bitlen, d) % 8 == 0
    ensures AndsBefore(gs, bitlen, d, |gs|) == 0 ==> Start(gs, bitlen, d) == 0
  {
    if d == 0 {
      AndsBeforeNone(gs, bitlen, |gs|);
    } else {
      StartBound(gs, bitlen, d - 1);
      AndsBeforeStep(gs, bitlen, d - 1, |gs|);
    }
  }

  /** The padded range of a layer lies within the triples set aside. */
  lemma StartWithin(gs: seq<Gate>, bitlen: nat, d: nat, maxDepth: nat)
    requires d <= maxDepth
    ensures Start(gs, bitlen, d) <= NumMTs(NumAnds(gs, bitlen, |gs|), maxDepth)
  {
    StartBound(gs, bitlen, d);
    AndsBeforeAll(gs, bitlen, d, |gs|);
  }

  lemma {:induction false} StartMonotone(gs: seq<Gate>, bitlen: nat, d: nat, e: nat)
    requires d <= e
    ensures Start(gs, bitlen, d) <= Start(gs, bitlen, e)
  {
    if d < e {
      StartMonotone(gs, bitlen, d, e - 1);
    }
  }

  lemma LayerPosition(gs: seq<Gate>, g: nat) returns (i: nat)
    requires g < |gs| && Interactive(BOOL, gs[g].op)
    ensures i < |Layer(gs, gs[g].depth)| && Layer(gs, gs[g].depth)[i] == g
  {
    QueueMembers(BOOL, gs, true, gs[g].depth, |gs|, g);
    i :| 0 <= i < |Layer(gs, gs[g].depth)| && Layer(gs, gs[g].depth)[i] == g;
  }

  /** A gate's triples lie between the start of its layer and the start of the next one. */
  lemma TriplesWithinLayer(gs: seq<Gate>, g: nat)
    requires g < |gs| && IsAnd(gs[g].op) && AndBitlen(gs[g].op) > 0
    ensures var bl, d := AndBitlen(gs[g].op), gs[g].depth;
            Start(gs, bl, d) <= Pos(gs, g) && Pos(gs, g) + Triples(gs, g, bl) <= Start(gs, bl, d + 1)
  {
    var bl, d := AndBitlen(gs[g].op), gs[g].depth;
    var i := LayerPosition(gs, g);
    OffsetInLayer(gs, Triple(bl), d, i);
    TakenMonotone(gs, Triple(bl), Layer(gs, d), i, |Layer(gs, d)|);
  }

  /** Two gates never share a triple. */
  lemma TriplesDisjoint(gs: seq<Gate>, g: nat, h: nat)
    requires g < h < |gs| && IsAnd(gs[g].op) && IsAnd(gs[h].op) && AndBitlen(gs[g].op) == AndBitlen(gs[h].op) > 0
    ensures var bl := AndBitlen(gs[g].op);
            Pos(gs, g) + Triples(gs, g, bl) <= Pos(gs, h) || Pos(gs, h) + Triples(gs, h, bl) <= Pos(gs, g)
  {
    var bl, d, e := AndBitlen(gs[g].op), gs[g].depth, gs[h].depth;
    TriplesWithinLayer(gs, g);
    TriplesWithinLayer(gs, h);
    if d < e {
      StartMonotone(gs, bl, d + 1, e);
    } else if e < d {
      StartMonotone(gs, bl, e + 1, d);
    } else {
      var i := LayerPosition(gs, g);
      var j := LayerPosition(gs, h);
      var q := Layer(gs, d);
      OffsetInLayer(gs, Triple(bl), d, i);
      OffsetInLayer(gs, Triple(bl), d, j);
      TakenMonotone(gs, Triple(bl), q, if i < j then i else j, if i < j then j else i);
    }
  }

  /** No gate reaches beyond the triples set aside. */
  lemma TriplesSuffice(gs: seq<Gate>, g: nat, maxDepth: nat)
    requires g < |gs| && IsAnd(gs[g].op) && AndBitlen(gs[g].op) > 0 && gs[g].depth < maxDepth
    ensures var bl := AndBitlen(gs[g].op);
            Pos(gs, g) + Triples(gs, g, bl) <= NumMTs(NumAnds(gs, bl, |gs|), maxDepth)
  {
    TriplesWithinLayer(gs, g);
    StartWithin(gs, AndBitlen(gs[g].op), gs[g].depth + 1, maxDepth);
  }

  /** The group of bitlen values that value t is in. */
  function Group(t: nat, bitlen: nat): nat
    requires bitlen > 0
  {
    if t < bitlen then 0 else 1 + Group(t - bitlen, bitlen)
  }

  lemma {:induction false} GroupIsQuotient(t: nat, bitlen: nat)
    requires bitlen > 0
    ensures Group(t, bitlen) == t / bitlen
    ensures Group(t, bitlen) * bitlen <= t < Group(t, bitlen) * bitlen + bitlen
  {
    if t >= bitlen {
      GroupIsQuotient(t - bitlen, bitlen);
      DivModUnique(t, Group(t, bitlen), t - Group(t, bitlen) * bitlen, bitlen);
    } else {
      DivModUnique(t, 0, t, bitlen);
    }
  }

  // ----- shares ---------------------------------------------------------------------------

  /**
    One run: the circuit, the parties' inputs, all randomness, and the share that each party
    holds of every value. For every vector length each party sends random pairs (x0, x1) by
    oblivious transfer and picks from the other party's pairs with its choice bits.
   */
  datatype World = World(gs: seq<Gate>, inp: (nat, nat) -> bool, mask: (Role, nat) -> bool,
                         x0: (Role, nat, nat) -> bool, x1: (Role, nat, nat) -> bool, choice: (Role, nat, nat) -> bool,
                         share: (Role, nat, nat) -> bool)

  predicate TripleA(w: World, r: Role, bl: nat, i: nat) {
    w.choice(r, bl, i)
  }

  predicate TripleB(w: World, r: Role, bl: nat, x: nat) {
    w.x0(r, bl, x) != w.x1(r, bl, x)
  }

  /** What the oblivious transfer delivers for the party's choice. */
  predicate Chosen(w: World, r: Role, bl: nat, x: nat)
    requires bl > 0
  {
    if w.choice(r, bl, Group(x, bl)) then w.x1(r.Other(), bl, x) else w.x0(r.Other(), bl, x)
  }

  predicate TripleC(w: World, r: Role, bl: nat, x: nat)
    requires bl > 0
  {
    (w.x0(r, bl, x) != (TripleA(w, r, bl, Group(x, bl)) && TripleB(w, r, bl, x))) != Chosen(w, r, bl, x)
  }

  /** The triples are shares of a product. */
  lemma TripleProduct(w: World, bl: nat, x: nat)
    requires bl > 0
    ensures (TripleC(w, SERVER, bl, x) != TripleC(w, CLIENT, bl, x)) ==
            ((TripleA(w, SERVER, bl, Group(x, bl)) != TripleA(w, CLIENT, bl, Group(x, bl))) &&
             (TripleB(w, SERVER, bl, x) != TripleB(w, CLIENT, bl, x)))
  {
  }

  /** A party's share of a product, from its triple and the opened d and e. */
  predicate MtResult(r: Role, a: bool, b: bool, c: bool, d: bool, e: bool) {
    (((a && e) != (d && b)) != c) != (r.SERVER? && d && e)
  }

  /** The first bit of string p in a vector of strings of the given length. */
  function Flat(p: nat, bitlen: nat): nat {
    if p == 0 then 0 else Flat(p - 1, bitlen) + bitlen
  }

  lemma {:induction false} FlatIsProduct(p: nat, bitlen: nat)
    ensures Flat(p, bitlen) == p * bitlen
  {
    if p > 0 {
      FlatIsProduct(p - 1, bitlen);
    }
  }

  /** Where the bits of gate g start in the flat vectors of its class. */
  function FlatPos(gs: seq<Gate>, g: nat): nat
    requires g < |gs|
  {
    Flat(Pos(gs, g), AndBitlen(gs[g].op))
  }

  /** The choice bit that gate g opens for value i, masked with its triple. */
  predicate OpenD(w: World, r: Role, g: nat, i: nat)
    requires g < |w.gs| && IsAnd(w.gs[g].op)
  {
    TripleA(w, r, AndBitlen(w.gs[g].op), Pos(w.gs, g) + i) != w.share(r, Parents(w.gs[g].op)[0], i)
  }

  /** The vector bit that gate g opens for value t, masked with its triple. */
  predicate OpenE(w: World, r: Role, g: nat, t: nat)
    requires g < |w.gs| && IsAnd(w.gs[g].op)
  {
    TripleB(w, r, AndBitlen(w.gs[g].op), FlatPos(w.gs, g) + t) != w.share(r, Parents(w.gs[g].op)[1], t)
  }

  predicate AndShare(w: World, r: Role, g: nat, t: nat)
    requires g < |w.gs| && IsAnd(w.gs[g].op) && AndBitlen(w.gs[g].op) > 0
  {
    var bl := AndBitlen(w.gs[g].op);
    MtResult(r, TripleA(w, r, bl, Pos(w.gs, g) + Group(t, bl)), TripleB(w, r, bl, FlatPos(w.gs, g) + t),
             TripleC(w, r, bl, FlatPos(w.gs, g) + t),
             OpenD(w, SERVER, g, Group(t, bl)) != OpenD(w, CLIENT, g, Group(t, bl)),
             OpenE(w, SERVER, g, t) != OpenE(w, CLIENT, g, t))
  }

  /** What party r computes for value t of gate g; an output gate yields the value itself. */
  predicate ShareStep(w: World, r: Role, g: nat, t: nat) {
    if g >= |w.gs| || !ParentsBelow(w.gs[g].op, g) || t >= w.gs[g].nvals then false
    else
      match w.gs[g].op
      case In(src) => w.mask(src, Offset(w.gs, Input(src), g) + t) != (src == r && w.inp(g, t))
      case Constant(v) => v && r != CLIENT
      case Lin(left, right) => w.share(r, left, t) != w.share(r, right, t)
      case Inv(p) => w.share(r, p, t) != r.SERVER?
      case NonLin(_, _) => AndShare(w, r, g, t)
      case NonLinVec(_, _, bitlen) => bitlen > 0 && AndShare(w, r, g, t)
      case StructCombine(ins, start, incr) => |ins| > 0 && w.share(r, ins[t % |ins|], start + t / |ins| * incr)
      case Univ(_, _, _) => false
      case Out(p, _) => w.share(SERVER, p, t) != w.share(CLIENT, p, t)
  }

  /** A share is what its party computes from the shares of earlier gates. */
  predicate ShareOk(w: World, r: Role, g: nat, t: nat) {
    w.share(r, g, t) == ShareStep(w, r, g, t)
  }

  ghost predicate SharesOk(w: World) {
    forall r, g, t {:trigger ShareOk(w, r, g, t)} :: ShareOk(w, r, g, t)
  }

  /** Shares of the first n gates, computed one gate after the other. */
  function Evaluate(w: World, n: nat): (e: World)
    ensures e == w.(share := e.share)
  {
    if n == 0 then w.(share := (r: Role, g: nat, t: nat) => false)
    else
      var before := Evaluate(w, n - 1);
      w.(share := (r: Role, g: nat, t: nat) => if g == n - 1 then ShareStep(before, r, g, t) else before.share(r, g, t))
  }

  /** A step looks at earlier gates only. */
  lemma StepCong(w: World, v: World, r: Role, g: nat, t: nat)
    requires v == w.(share := v.share) && forall r: Role, p: nat, t: nat | p < g :: w.share(r, p, t) == v.share(r, p, t)
    ensures ShareStep(w, r, g, t) == ShareStep(v, r, g, t)
  {
    if g < |w.gs| && ParentsBelow(w.gs[g].op, g) && IsAnd(w.gs[g].op) && AndBitlen(w.gs[g].op) > 0 {
      AndCong(w, v, r, g, t);
    }
  }

  lemma AndCong(w: World, v: World, r: Role, g: nat, t: nat)
    requires v == w.(share := v.share) && forall r: Role, p: nat, t: nat | p < g :: w.share(r, p, t) == v.share(r, p, t)
    requires g < |w.gs| && ParentsBelow(w.gs[g].op, g) && IsAnd(w.gs[g].op) && AndBitlen(w.gs[g].op) > 0
    ensures AndShare(w, r, g, t) == AndShare(v, r, g, t)
  {
    var ps, i := Parents(w.gs[g].op), Group(t, AndBitlen(w.gs[g].op));
    assert forall r: Role :: w.share(r, ps[0], i) == v.share(r, ps[0], i) && w.share(r, ps[1], t) == v.share(r, ps[1], t);
  }

  lemma {:induction false} EvaluateStable(w: World, n: nat, r: Role, g: nat, t: nat)
    ensures Evaluate(w, n).share(r, g, t) == if g < n then ShareStep(Evaluate(w, n), r, g, t) else false
  {
    if n > 0 {
      var before, after := Evaluate(w, n - 1), Evaluate(w, n);
      assert forall r: Role, p: nat, t: nat | p < n - 1 :: before.share(r, p, t) == after.share(r, p, t);
      if g < n {
        StepCong(before, after, r, g, t);
      }
      if g != n - 1 {
        EvaluateStable(w, n - 1, r, g, t);
      }
    }
  }

  /** For all inputs and all randomness there are such shares. */
  lemma SharesExist(w: World)
    ensures SharesOk(Evaluate(w, |w.gs|))
  {
    forall r, g, t
      ensures ShareOk(Evaluate(w, |w.gs|), r, g, t)
    {
      EvaluateStable(w, |w.gs|, r, g, t);
    }
  }

  function Share(w: World, r: Role, g: nat): (s: seq<bool>)
    requires g < |w.gs|
    ensures |s| == w.gs[g].nvals && forall t | 0 <= t < |s| :: s[t] == w.share(r, g, t)
  {
    seq(w.gs[g].nvals, t requires 0 <= t => w.share(r, g, t))
  }

  /** The gate types this sharing evaluates. */
  ghost predicate BoolGates(gs: seq<Gate>) {
    forall g | 0 <= g < |gs| :: !gs[g].op.Univ?
  }

  /** What the two shares of a gate reveal when they are put together. */
  predicate Revealed(w: World, g: nat, t: nat)
    requires g < |w.gs|
  {
    if w.gs[g].op.Out? then w.share(SERVER, g, t) else w.share(SERVER, g, t) != w.share(CLIENT, g, t)
  }

  lemma {:induction false} FlatIndex(p: nat, bl: nat, t: nat)
    requires bl > 0
    ensures Group(Flat(p, bl) + t, bl) == p + Group(t, bl)
  {
    if p > 0 {
      FlatIndex(p - 1, bl, t);
    }
  }

  /** Value t of gate g is in the string of its triple. */
  lemma GateGroup(gs: seq<Gate>, g: nat, bitlen: nat, t: nat)
    requires g < |gs| && AndBitlen(gs[g].op) == bitlen > 0
    ensures Group(FlatPos(gs, g) + t, bitlen) == Pos(gs, g) + Group(t, bitlen)
  {
    FlatIndex(Pos(gs, g), bitlen, t);
  }

  /** A masked opening of both operands yields shares of the product. */
  lemma AndSharesXor(w: World, g: nat, t: nat)
    requires g < |w.gs| && IsAnd(w.gs[g].op) && ParentsBelow(w.gs[g].op, g) && AndBitlen(w.gs[g].op) > 0
    ensures var bl, l, v := AndBitlen(w.gs[g].op), Parents(w.gs[g].op)[0], Parents(w.gs[g].op)[1];
            (AndShare(w, SERVER, g, t) != AndShare(w, CLIENT, g, t)) ==
            ((w.share(SERVER, l, Group(t, bl)) != w.share(CLIENT, l, Group(t, bl))) &&
             (w.share(SERVER, v, t) != w.share(CLIENT, v, t)))
  {
    var bl := AndBitlen(w.gs[g].op);
    FlatIndex(Pos(w.gs, g), bl, t);
    TripleProduct(w, bl, FlatPos(w.gs, g) + t);
  }

  /** The circuits this sharing runs. */
  ghost predicate Runnable(gs: seq<Gate>) {
    WellFormed(BOOL, gs) && Ordered(gs) && BoolGates(gs)
  }

  /** For all inputs and all randomness the XOR of both shares is the plain value. */
  lemma {:induction false} SharesXorToPlain(w: World, g: nat, t: nat)
    requires Runnable(w.gs) && SharesOk(w) && g < |w.gs|
    ensures Revealed(w, g, t) == At(Eval(w.gs, w.inp)[g], t)
    ensures w.gs[g].op.Out? ==> w.share(CLIENT, g, t) == w.share(SERVER, g, t)
    decreases g, 2
  {
    var gate, vals := w.gs[g], Eval(w.gs, w.inp);
    ValuesUnique(w.gs, vals, w.inp);
    assert GateOk(BOOL, w.gs, g) && OrderedAt(w.gs, g) && ValueOk(w.gs, vals, w.inp, g);
    if t >= gate.nvals {
      assert ShareOk(w, SERVER, g, t) && ShareOk(w, CLIENT, g, t);
    } else {
      if IsAnd(gate.op) {
        AndPlain(w, g, t);
      } else if gate.op.StructCombine? {
        CombinePlain(w, g, t);
      } else {
        LocalPlain(w, g, t);
      }
    }
  }

  lemma {:induction false} LocalPlain(w: World, g: nat, t: nat)
    requires Runnable(w.gs) && SharesOk(w) && g < |w.gs| && !IsAnd(w.gs[g].op) && !w.gs[g].op.StructCombine? && t < w.gs[g].nvals
    requires OrderedAt(w.gs, g) && GateOk(BOOL, w.gs, g)
    ensures Revealed(w, g, t) == GateBit(w.gs[g], g, Eval(w.gs, w.inp), w.inp, t)
    decreases g, 1
  {
    assert ShareOk(w, SERVER, g, t) && ShareOk(w, CLIENT, g, t);
    if |Parents(w.gs[g].op)| > 0 {
      OperandsXor(w, g, 0, t);
    }
    if w.gs[g].op.Lin? {
      OperandsXor(w, g, 1, t);
    }
  }

  lemma {:induction false} CombinePlain(w: World, g: nat, t: nat)
    requires Runnable(w.gs) && SharesOk(w) && g < |w.gs| && w.gs[g].op.StructCombine? && t < w.gs[g].nvals
    requires OrderedAt(w.gs, g) && GateOk(BOOL, w.gs, g)
    ensures Revealed(w, g, t) == GateBit(w.gs[g], g, Eval(w.gs, w.inp), w.inp, t)
    decreases g, 1
  {
    assert ShareOk(w, SERVER, g, t) && ShareOk(w, CLIENT, g, t);
    var op := w.gs[g].op;
    GroupIsQuotient(t, |op.inputs|);
    OperandsXor(w, g, t % |op.inputs|, op.start + Group(t, |op.inputs|) * op.incr);
  }

  lemma {:induction false} AndPlain(w: World, g: nat, t: nat)
    requires Runnable(w.gs) && SharesOk(w) && g < |w.gs| && IsAnd(w.gs[g].op) && t < w.gs[g].nvals
    requires OrderedAt(w.gs, g) && GateOk(BOOL, w.gs, g)
    ensures Revealed(w, g, t) == GateBit(w.gs[g], g, Eval(w.gs, w.inp), w.inp, t)
    decreases g, 1
  {
    assert ShareOk(w, SERVER, g, t) && ShareOk(w, CLIENT, g, t);
    var bl := AndBitlen(w.gs[g].op);
    if bl > 0 {
      AndSharesXor(w, g, t);
      GroupIsQuotient(t, bl);
      OperandsXor(w, g, 0, Group(t, bl));
      OperandsXor(w, g, 1, t);
      assert bl == 1 ==> Group(t, bl) == t;
    }
  }

  lemma {:induction false} OperandsXor(w: World, g: nat, k: nat, t: nat)
    requires Runnable(w.gs) && SharesOk(w) && g < |w.gs| && OrderedAt(w.gs, g) && GateOk(BOOL, w.gs, g) && k < |Parents(w.gs[g].op)|
    ensures var p := Parents(w.gs[g].op)[k];
            p < g && (w.share(SERVER, p, t) != w.share(CLIENT, p, t)) == At(Eval(w.gs, w.inp)[p], t)
    decreases g, 0
  {
    var p := Parents(w.gs[g].op)[k];
    assert !w.gs[..g][p].op.Out?;
    SharesXorToPlain(w, p, t);
  }
}
