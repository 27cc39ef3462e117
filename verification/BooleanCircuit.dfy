/**
  The Boolean circuit builder. Every Put...Gate method appends to the gate vector, registers
  the uses of its inputs and queues the new gate on its layer.

  The ghost fields fix one arbitrary assignment of the inputs and one arbitrary SIMD lane;
  what the builders promise about that lane therefore holds for every input and every lane.
 */
module Builder {
  import opened Bits
  import opened Circuit

  datatype NonLinCtx = NonLinCtx(bitlen: nat, numgates: nat)

  /** FindBitLenPositionInVec: -1 stands for a length without an entry. */
  function FindBitLen(ands: seq<NonLinCtx>, bitlen: nat): (pos: int)
    ensures -1 <= pos < |ands|
    ensures pos >= 0 ==> ands[pos].bitlen == bitlen
    ensures pos == -1 <==> forall k | 0 <= k < |ands| :: ands[k].bitlen != bitlen
  {
    if ands == [] then -1
    else if ands[|ands| - 1].bitlen == bitlen then |ands| - 1
    else FindBitLen(ands[..|ands| - 1], bitlen)
  }

  predicate LayerExists(gs: seq<Gate>, queues: seq<seq<nat>>, g: nat)
    requires g < |gs|
  {
    gs[g].depth < |queues|
  }

  /** The vector length of an AND gate has an entry. */
  predicate Counted(gs: seq<Gate>, ands: seq<NonLinCtx>, g: nat)
    requires g < |gs|
  {
    IsAnd(gs[g].op) ==> FindBitLen(ands, AndBitlen(gs[g].op)) >= 0
  }

  /** An entry counts the triples of all gates with its vector length. */
  predicate EntryOk(gs: seq<Gate>, ands: seq<NonLinCtx>, k: nat)
    requires k < |ands|
  {
    ands[k].bitlen > 0 && ands[k].numgates == NumAnds(gs, ands[k].bitlen, |gs|)
  }

  predicate Distinct(ands: seq<NonLinCtx>, j: nat, k: nat)
    requires j < |ands| && k < |ands|
  {
    ands[j].bitlen != ands[k].bitlen
  }

  ghost predicate QueuesOk(ctx: Sharing, gs: seq<Gate>, interactive: bool, queues: seq<seq<nat>>) {
    && (forall d | 0 <= d < |queues| :: queues[d] == Queue(ctx, gs, interactive, d, |gs|))
    && (forall g {:trigger LayerExists(gs, queues, g)} | 0 <= g < |gs| ::
          Interactive(ctx, gs[g].op) == interactive ==> LayerExists(gs, queues, g))
  }

  ghost predicate AndsOk(gs: seq<Gate>, ands: seq<NonLinCtx>) {
    && |ands| > 0 && ands[0].bitlen == 1
    && (forall k {:trigger EntryOk(gs, ands, k)} | 0 <= k < |ands| :: EntryOk(gs, ands, k))
    && (forall j, k {:trigger Distinct(ands, j, k)} | 0 <= j < k < |ands| :: Distinct(ands, j, k))
    && (forall g {:trigger Counted(gs, ands, g)} | 0 <= g < |gs| :: Counted(gs, ands, g))
  }

  /** UpdateLocalQueue and UpdateInteractiveQueue: grow to the layer if needed, then push. */
  function Enqueue(queues: seq<seq<nat>>, depth: nat, gateid: nat): (r: seq<seq<nat>>)
    ensures |r| == Max(|queues|, depth + 1)
    ensures forall d | 0 <= d < |r| ::
              r[d] == (if d < |queues| then queues[d] else []) + (if d == depth then [gateid] else [])
  {
    var grown := if depth + 1 > |queues| then queues + seq(depth + 1 - |queues|, _ => []) else queues;
    grown[depth := grown[depth] + [gateid]]
  }

  lemma {:induction false} QueueEmpty(ctx: Sharing, gs: seq<Gate>, interactive: bool, d: nat, n: nat)
    requires n <= |gs|
    requires forall g | 0 <= g < n && Interactive(ctx, gs[g].op) == interactive :: gs[g].depth < d
    ensures Queue(ctx, gs, interactive, d, n) == []
  {
    if n > 0 {
      QueueEmpty(ctx, gs, interactive, d, n - 1);
    }
  }

  lemma EnqueueOk(ctx: Sharing, gs: seq<Gate>, gate: Gate, interactive: bool, queues: seq<seq<nat>>)
    requires QueuesOk(ctx, gs, interactive, queues)
    ensures Interactive(ctx, gate.op) == interactive ==>
              QueuesOk(ctx, gs + [gate], interactive, Enqueue(queues, gate.depth, |gs|))
    ensures Interactive(ctx, gate.op) != interactive ==> QueuesOk(ctx, gs + [gate], interactive, queues)
  {
    var all := gs + [gate];
    var member := Interactive(ctx, gate.op) == interactive;
    var result := if member then Enqueue(queues, gate.depth, |gs|) else queues;
    forall d | 0 <= d < |result|
      ensures result[d] == Queue(ctx, all, interactive, d, |all|)
    {
      QueuePrefix(ctx, gs, [gate], interactive, d, |gs|);
      if d >= |queues| {
        assert forall g | 0 <= g < |gs| && Interactive(ctx, gs[g].op) == interactive :: LayerExists(gs, queues, g);
        QueueEmpty(ctx, gs, interactive, d, |gs|);
      }
    }
    forall g | 0 <= g < |all| && Interactive(ctx, all[g].op) == interactive
      ensures LayerExists(all, result, g)
    {
      assert g < |gs| ==> LayerExists(gs, queues, g);
    }
  }

  lemma {:induction false} NoAnds(gs: seq<Gate>, ands: seq<NonLinCtx>, bitlen: nat, n: nat)
    requires n <= |gs|
    requires AndsOk(gs, ands) && FindBitLen(ands, bitlen) == -1
    ensures NumAnds(gs, bitlen, n) == 0
  {
    if n > 0 {
      NoAnds(gs, ands, bitlen, n - 1);
      assert Counted(gs, ands, n - 1);
    }
  }

  /** The entry for a gate's vector length grows by the gate's triples; a missing entry is created. */
  function CountAnd(ands: seq<NonLinCtx>, op: Op, nvals: nat): seq<NonLinCtx>
    requires IsAnd(op) ==> AndBitlen(op) > 0
  {
    if !IsAnd(op) then ands
    else
      var bitlen := AndBitlen(op);
      var pos := FindBitLen(ands, bitlen);
      if pos == -1 then ands + [NonLinCtx(bitlen, nvals / bitlen)]
      else ands[pos := NonLinCtx(bitlen, ands[pos].numgates + nvals / bitlen)]
  }

  lemma CountAndOk(gs: seq<Gate>, gate: Gate, ands: seq<NonLinCtx>)
    requires AndsOk(gs, ands)
    requires IsAnd(gate.op) ==> AndBitlen(gate.op) > 0
    ensures AndsOk(gs + [gate], CountAnd(ands, gate.op, gate.nvals))
  {
    var all := gs + [gate];
    var result := CountAnd(ands, gate.op, gate.nvals);
    forall k | 0 <= k < |result|
      ensures EntryOk(all, result, k)
    {
      NumAndsPrefix(gs, [gate], result[k].bitlen, |gs|);
      if k >= |ands| {
        NoAnds(gs, ands, result[k].bitlen, |gs|);
      } else {
        assert EntryOk(gs, ands, k);
        var pos := if IsAnd(gate.op) then FindBitLen(ands, AndBitlen(gate.op)) else -1;
        if pos >= 0 && pos != k {
          assert Distinct(ands, if pos < k then pos else k, if pos < k then k else pos);
        }
      }
    }
    forall j, k | 0 <= j < k < |result|
      ensures Distinct(result, j, k)
    {
      assert k < |ands| ==> Distinct(ands, j, k);
    }
    forall g | 0 <= g < |all|
      ensures Counted(all, result, g)
    {
      assert g < |gs| ==> Counted(gs, ands, g);
      CountAndKeeps(ands, gate.op, gate.nvals, AndBitlen(all[g].op));
    }
  }

  lemma CountAndKeeps(ands: seq<NonLinCtx>, op: Op, nvals: nat, bitlen: nat)
    requires IsAnd(op) ==> AndBitlen(op) > 0
    ensures FindBitLen(ands, bitlen) >= 0 ==> FindBitLen(CountAnd(ands, op, nvals), bitlen) >= 0
    ensures IsAnd(op) ==> FindBitLen(CountAnd(ands, op, nvals), AndBitlen(op)) >= 0
  {
    var result := CountAnd(ands, op, nvals);
    var k := FindBitLen(ands, bitlen);
    if k >= 0 {
      assert result[k].bitlen == bitlen;
    }
    if IsAnd(op) {
      var pos := FindBitLen(ands, AndBitlen(op));
      assert result[if pos == -1 then |ands| else pos].bitlen == AndBitlen(op);
    }
  }

  ghost predicate NusedOk(gs: seq<Gate>, nused: seq<nat>) {
    |nused| == |gs| && forall g | 0 <= g < |gs| :: nused[g] == Uses(gs)[g]
  }

  lemma NusedAppend(gs: seq<Gate>, gate: Gate, nused: seq<nat>, marked: seq<nat>)
    requires Ordered(gs) && NusedOk(gs, nused) && |marked| == |gs| + 1
    requires forall g | 0 <= g < |marked| ::
               marked[g] == (nused + [0])[g] + multiset(Parents(gate.op))[g]
    ensures NusedOk(gs + [gate], marked)
  {
    FreshUnused(gs, |gs|);
    forall g | 0 <= g <= |gs|
      ensures marked[g] == Uses(gs + [gate])[g]
    {
      UsesAppendAt(gs, gate, g);
    }
  }

  /** The pieces of book-keeping a builder keeps beside its gate vector. */
  datatype Book = UseCounts | LocalQueues | InteractiveQueues | Depth | AndCounts

  datatype Books = Books(nused: seq<nat>, localQueues: seq<seq<nat>>, interactiveQueues: seq<seq<nat>>,
                         maxDepth: nat, ands: seq<NonLinCtx>)

  /** A piece of book-keeping agrees with the gate vector. */
  ghost predicate BookOk(book: Book, ctx: Sharing, gs: seq<Gate>, b: Books) {
    match book
    case UseCounts => NusedOk(gs, b.nused)
    case LocalQueues => QueuesOk(ctx, gs, false, b.localQueues)
    case InteractiveQueues => QueuesOk(ctx, gs, true, b.interactiveQueues)
    case Depth => b.maxDepth == Max(|b.localQueues|, |b.interactiveQueues|)
    case AndCounts => AndsOk(gs, b.ands)
  }

  ghost predicate BooksOk(ctx: Sharing, gs: seq<Gate>, b: Books) {
    forall book {:trigger BookOk(book, ctx, gs, b)} :: BookOk(book, ctx, gs, b)
  }

  /** The book-keeping of one more gate; the use counts are passed in as marked. */
  function Register(ctx: Sharing, b: Books, gate: Gate, gateid: nat, marked: seq<nat>): Books
    requires IsAnd(gate.op) ==> AndBitlen(gate.op) > 0
  {
    Books(marked,
          if Interactive(ctx, gate.op) then b.localQueues else Enqueue(b.localQueues, gate.depth, gateid),
          if Interactive(ctx, gate.op) then Enqueue(b.interactiveQueues, gate.depth, gateid) else b.interactiveQueues,
          Max(b.maxDepth, gate.depth + 1),
          CountAnd(b.ands, gate.op, gate.nvals))
  }

  lemma RegisterOk(ctx: Sharing, gs: seq<Gate>, b: Books, gate: Gate, marked: seq<nat>)
    requires Ordered(gs) && BooksOk(ctx, gs, b)
    requires IsAnd(gate.op) ==> AndBitlen(gate.op) > 0
    requires |marked| == |gs| + 1 && |b.nused| == |gs|
    requires forall g | 0 <= g < |marked| ::
               marked[g] == (b.nused + [0])[g] + multiset(Parents(gate.op))[g]
    ensures BooksOk(ctx, gs + [gate], Register(ctx, b, gate, |gs|, marked))
  {
    var more := Register(ctx, b, gate, |gs|, marked);
    forall book
      ensures BookOk(book, ctx, gs + [gate], more)
    {
      assert BookOk(book, ctx, gs, b);
      match book
      case UseCounts => NusedAppend(gs, gate, b.nused, marked);
      case LocalQueues => EnqueueOk(ctx, gs, gate, false, b.localQueues);
      case InteractiveQueues => EnqueueOk(ctx, gs, gate, true, b.interactiveQueues);
      case Depth =>
      case AndCounts => CountAndOk(gs, gate, b.ands);
    }
  }

  /** What the chosen lane shows of a gate: whether it is a wire of the common width, its bit, its round. */
  datatype Lane = Lane(wire: bool, bit: bool, ready: nat)

  class BooleanCircuit {
    const ctx: Sharing
    var gates: seq<Gate>
    var nused: seq<nat>
    var localQueueOnLvl: seq<seq<nat>>
    var interactiveQueueOnLvl: seq<seq<nat>>
    var maxDepth: nat
    var ands: seq<NonLinCtx>

    ghost const inp: (nat, nat) -> bool
    ghost const lane: nat
    ghost const width: nat
    ghost var vals: seq<seq<bool>>
    ghost var lanes: seq<Lane>

    ghost predicate Valid()
      reads this
    {
      && lane < width
      && |vals| == |gates| == |lanes|
      && (forall g {:trigger GateSound(gates, vals, lanes, g)} | 0 <= g < |gates| :: GateSound(gates, vals, lanes, g))
      && BooksOk(ctx, gates, Books(nused, localQueueOnLvl, interactiveQueueOnLvl, maxDepth, ands))
    }

    /** A gate is well formed, has the value its inputs determine, and is shown as such in the lane. */
    ghost predicate GateSound(gs: seq<Gate>, vs: seq<seq<bool>>, ls: seq<Lane>, g: nat)
      requires g < |gs| == |vs| == |ls|
    {
      && GateOk(ctx, gs, g)
      && OrderedAt(gs, g)
      && ValueOk(gs, vs, inp, g)
      && ls[g] == ShownLane(gs[g], vs[g])
    }

    /** The gate vector is a well-formed circuit, and vals is its plain evaluation. */
    lemma Sound()
      requires Valid()
      ensures WellFormed(ctx, gates) && Ordered(gates) && ValuesOk(gates, vals, inp) && vals == Eval(gates, inp)
    {
      forall g | 0 <= g < |gates|
        ensures GateOk(ctx, gates, g) && OrderedAt(gates, g) && ValueOk(gates, vals, inp, g)
      {
        assert GateSound(gates, vals, lanes, g);
      }
      ValuesUnique(gates, vals, inp);
    }

    /** A wire that carries n SIMD values. */
    ghost predicate WireOf(w: nat, n: nat)
      reads this
    {
      w < |gates| && |vals| == |gates| && !gates[w].op.Out? && gates[w].nvals == n && |vals[w]| == n
    }

    ghost function GateReady(w: nat): nat
      requires w < |gates|
      reads this
    {
      Ready(gates[w])
    }

    /** A wire that carries the common number of SIMD values. */
    ghost predicate Wire(w: nat)
      reads this
    {
      w < |lanes| && lanes[w].wire
    }

    /** The bit a wire carries in the chosen lane. */
    ghost predicate Val(w: nat)
      requires Wire(w)
      reads this
    {
      lanes[w].bit
    }

    /** The round from which the value of a wire can be used. */
    ghost function ReadyAt(w: nat): nat
      requires Wire(w)
      reads this
    {
      lanes[w].ready
    }

    /** m_vANDs[0].numgates: the AND gates built so far, counted per SIMD value. */
    ghost function AndCount(): nat
      reads this
    {
      if ands == [] then 0 else ands[0].numgates
    }

    lemma WireIsWireOf(w: nat)
      requires Valid() && Wire(w)
      ensures WireOf(w, width) && lane < width
      ensures Val(w) == vals[w][lane] && ReadyAt(w) == GateReady(w)
    {
      assert GateSound(gates, vals, lanes, w);
    }

    lemma WireOfIsWire(w: nat)
      requires Valid() && WireOf(w, width)
      ensures Wire(w) && Val(w) == vals[w][lane] && ReadyAt(w) == GateReady(w)
    {
      assert GateSound(gates, vals, lanes, w);
    }

    /** The wires carry the given bits, and all of them can be used from round r on. */
    ghost predicate Holds(ws: seq<nat>, bits: seq<bool>, r: nat)
      reads this
    {
      && |ws| == |bits|
      && forall i {:trigger ws[i]} | 0 <= i < |ws| ::
           Wire(ws[i]) && Val(ws[i]) == bits[i] && ReadyAt(ws[i]) <= r
    }

    lemma HoldsSnoc(ws: seq<nat>, bits: seq<bool>, w: nat, b: bool, r: nat)
      requires Holds(ws, bits, r) && Wire(w) && Val(w) == b && ReadyAt(w) <= r
      ensures Holds(ws + [w], bits + [b], r)
    {
    }

    lemma HoldsUpdate(ws: seq<nat>, bits: seq<bool>, j: nat, w: nat, b: bool, r: nat)
      requires Holds(ws, bits, r) && j < |ws| && Wire(w) && Val(w) == b && ReadyAt(w) <= r
      ensures Holds(ws[j := w], bits[j := b], r)
    {
    }

    /** What the lane shows of a gate never changes. */
    twostate predicate Extends()
      reads this
    {
      && |old(lanes)| <= |lanes|
      && (forall w {:trigger lanes[w]} | 0 <= w < |old(lanes)| :: lanes[w] == old(lanes[w]))
    }

    /** Gates are only ever appended, and what they compute never changes. */
    twostate predicate Keeps()
      reads this
    {
      && |old(gates)| <= |gates| && |old(vals)| == |old(gates)| && |vals| == |gates|
      && (forall w {:trigger gates[w]} | 0 <= w < |old(gates)| :: gates[w] == old(gates[w]))
      && (forall w {:trigger vals[w]} | 0 <= w < |old(vals)| :: vals[w] == old(vals[w]))
    }

    constructor (sharing: Sharing, ghost assignment: (nat, nat) -> bool, ghost nvals: nat, ghost simdLane: nat)
      requires simdLane < nvals
      ensures Valid() && ctx == sharing && inp == assignment && width == nvals && lane == simdLane
      ensures gates == []
    {
      ctx := sharing;
      gates, nused, vals, lanes := [], [], [], [];
      localQueueOnLvl, interactiveQueueOnLvl, maxDepth := [], [], 0;
      ands := [NonLinCtx(1, 0)];
      inp, lane, width := assignment, simdLane, nvals;
    }

    /** MarkGateAsUsed for every input, once per occurrence. */
    method MarkInputsAsUsed(ps: seq<nat>)
      requires forall i | 0 <= i < |ps| :: ps[i] < |nused|
      modifies `nused
      ensures |nused| == old(|nused|)
      ensures forall g | 0 <= g < |nused| :: nused[g] == old(nused[g]) + multiset(ps)[g]
    {
      assert ps[..0] == [];
      for i := 0 to |ps|
        invariant |nused| == old(|nused|)
        invariant forall g | 0 <= g < |nused| :: nused[g] == old(nused[g]) + multiset(ps[..i])[g]
      {
        assert ps[..i + 1] == ps[..i] + [ps[i]];
        nused := nused[ps[i] := nused[ps[i]] + 1];
      }
      assert ps[..|ps|] == ps;
    }

    /** InitGate and the type-specific fields, then the queue of the gate's layer and m_vANDs. */
    method PutGate(op: Op, nvals: nat) returns (gateid: nat)
      requires Valid() && OpOk(gates, op, nvals)
      requires op.NonLinVec? ==> op.bitlen > 0
      modifies this
      ensures gateid == |old(gates)|
      ensures gates == old(gates) + [Gate(op, nvals, MaxReady(old(gates), Parents(op)), Rounds(ctx, op))]
      ensures vals == old(vals) + [GateVal(gates[gateid], gateid, old(vals), inp)]
      ensures lanes == old(lanes) + [ShownLane(gates[gateid], vals[gateid])]
      ensures Valid() && ands == CountAnd(old(ands), op, nvals)
      ensures op.In? ==> gates[gateid].nrounds == if ctx.YAO? && op.src == CLIENT then 2 else 1
      ensures op.Out? ==> gates[gateid].nrounds == if ctx.YAO? && op.dst == To(CLIENT) then 0 else 1
      ensures op.NonLin? || op.NonLinVec? ==> gates[gateid].nrounds == if ctx.BOOL? then 1 else 0
    {
      RoundsAre(op);
      var ps := Parents(op);
      var gate := Gate(op, nvals, MaxReady(gates, ps), Rounds(ctx, op));
      gateid := |gates|;
      GateAppend(gate);
      var books := RegisterGate(gate);
      ghost var val := GateVal(gate, gateid, vals, inp);
      gates, vals, lanes := gates + [gate], vals + [val], lanes + [ShownLane(gate, val)];
      maxDepth, ands := books.maxDepth, books.ands;
      localQueueOnLvl, interactiveQueueOnLvl := books.localQueues, books.interactiveQueues;
    }

    /** The use counts are brought up to date, and what the other books will be is computed. */
    method RegisterGate(gate: Gate) returns (books: Books)
      requires Ordered(gates) && BooksOk(ctx, gates, Books(nused, localQueueOnLvl, interactiveQueueOnLvl, maxDepth, ands))
      requires ParentsBelow(gate.op, |gates|) && (IsAnd(gate.op) ==> AndBitlen(gate.op) > 0)
      modifies `nused
      ensures books.nused == nused && books.ands == CountAnd(ands, gate.op, gate.nvals) && BooksOk(ctx, gates + [gate], books)
    {
      var before := Books(nused, localQueueOnLvl, interactiveQueueOnLvl, maxDepth, ands);
      assert |nused| == |gates| by {
        assert BookOk(UseCounts, ctx, gates, before);
      }
      nused := nused + [0];
      MarkInputsAsUsed(Parents(gate.op));
      books := Register(ctx, before, gate, |gates|, nused);
      RegisterOk(ctx, gates, before, gate, nused);
    }

    ghost function ShownLane(gate: Gate, val: seq<bool>): Lane {
      Lane(gate.nvals == width && !gate.op.Out?, At(val, lane), Ready(gate))
    }

    lemma GateAppend(gate: Gate)
      requires Valid() && OpOk(gates, gate.op, gate.nvals)
      requires gate.depth == MaxReady(gates, Parents(gate.op)) && gate.nrounds == Rounds(ctx, gate.op)
      ensures Ordered(gates)
      ensures
        var val := GateVal(gate, |gates|, vals, inp);
        forall g {:trigger GateSound(gates + [gate], vals + [val], lanes + [ShownLane(gate, val)], g)} | 0 <= g <= |gates| ::
          GateSound(gates + [gate], vals + [val], lanes + [ShownLane(gate, val)], g)
    {
      Sound();
      OrderedAppend(gates, gate);
      WellFormedAppend(ctx, gates, gate);
      ValuesAppend(gates, vals, inp, gate);
      var val := GateVal(gate, |gates|, vals, inp);
      var gs, vs, ls := gates + [gate], vals + [val], lanes + [ShownLane(gate, val)];
      forall g | 0 <= g <= |gates|
        ensures GateSound(gs, vs, ls, g)
      {
        assert GateOk(ctx, gs, g) && OrderedAt(gs, g) && ValueOk(gs, vs, inp, g);
        assert g < |gates| ==> GateSound(gates, vals, lanes, g);
      }
    }

    method PutANDGate(inleft: nat, inright: nat) returns (gateid: nat)
      requires Valid() && Wire(inleft) && Wire(inright)
      modifies this
      ensures Valid() && Extends() && Wire(gateid) && Val(gateid) == (Val(inleft) && Val(inright))
      ensures ReadyAt(gateid) == Max(ReadyAt(inleft), ReadyAt(inright)) + Rounds(ctx, NonLin(inleft, inright))
      ensures AndCount() == old(AndCount()) + width
    {
      WireIsWireOf(inleft);
      WireIsWireOf(inright);
      assert BookOk(AndCounts, ctx, gates, Books(nused, localQueueOnLvl, interactiveQueueOnLvl, maxDepth, ands));
      FirstEntry(ands);
      MaxReadyPair(gates, inleft, inright);
      gateid := PutGate(NonLin(inleft, inright), Min(gates[inleft].nvals, gates[inright].nvals));
    }

    method PutXORGate(inleft: nat, inright: nat) returns (gateid: nat)
      requires Valid() && Wire(inleft) && Wire(inright)
      modifies this
      ensures Valid() && Extends() && Wire(gateid) && Val(gateid) == (Val(inleft) != Val(inright))
      ensures ReadyAt(gateid) == Max(ReadyAt(inleft), ReadyAt(inright))
      ensures AndCount() == old(AndCount())
    {
      WireIsWireOf(inleft);
      WireIsWireOf(inright);
      MaxReadyPair(gates, inleft, inright);
      gateid := PutGate(Lin(inleft, inright), Min(gates[inleft].nvals, gates[inright].nvals));
    }

    method PutINVGate(parentid: nat) returns (gateid: nat)
      requires Valid() && Wire(parentid)
      modifies this
      ensures Valid() && Extends() && Wire(gateid) && Val(gateid) == !Val(parentid)
      ensures ReadyAt(gateid) == ReadyAt(parentid)
      ensures AndCount() == old(AndCount())
    {
      WireIsWireOf(parentid);
      assert MaxReady(gates, [parentid]) == Ready(gates[parentid]) by {
        assert [parentid][..0] == [];
      }
      gateid := PutGate(Inv(parentid), gates[parentid].nvals);
    }

    /** XOR of two wires of any common SIMD size. */
    method PutVectorXORGate(inleft: nat, inright: nat, ghost n: nat) returns (gateid: nat)
      requires Valid() && WireOf(inleft, n) && WireOf(inright, n) && n > 0
      modifies this
      ensures Valid() && Extends() && Keeps() && WireOf(gateid, n)
      ensures forall t | 0 <= t < n :: vals[gateid][t] == (vals[inleft][t] != vals[inright][t])
      ensures GateReady(gateid) == Max(GateReady(inleft), GateReady(inright))
    {
      MaxReadyPair(gates, inleft, inright);
      gateid := PutGate(Lin(inleft, inright), Min(gates[inleft].nvals, gates[inright].nvals));
    }

    /** Each value of the choice input governs a group of bitlen values of the vector input. */
    method PutVectorANDGate(choiceinput: nat, vectorinput: nat, bitlen: nat, ghost n: nat) returns (gateid: nat)
      requires Valid() && ctx.BOOL? && bitlen > 0 && n > 0
      requires WireOf(choiceinput, n) && WireOf(vectorinput, bitlen * n)
      requires bitlen * n > 0
      modifies this
      ensures Valid() && Extends() && Keeps() && WireOf(gateid, bitlen * n)
      ensures forall t | 0 <= t < bitlen * n ::
                vals[gateid][t] == (At(vals[choiceinput], t / bitlen) && vals[vectorinput][t])
      ensures GateReady(gateid) == Max(GateReady(choiceinput), GateReady(vectorinput)) + 1
    {
      MaxReadyPair(gates, choiceinput, vectorinput);
      gateid := PutGate(NonLinVec(choiceinput, vectorinput, bitlen), gates[vectorinput].nvals);
    }

    /** Value t comes from input t % |inputs|, at position start + (t / |inputs|) * incr. */
    method PutStructurizedCombinerGate(inputs: seq<nat>, start: nat, incr: nat, nvals: nat, ghost n: nat, ghost r: nat)
      returns (gateid: nat)
      requires Valid() && |inputs| > 0 && nvals > 0 && nvals % |inputs| == 0
      requires forall i | 0 <= i < |inputs| :: WireOf(inputs[i], n) && GateReady(inputs[i]) <= r
      requires forall t | 0 <= t < nvals :: start + t / |inputs| * incr < n
      modifies this
      ensures Valid() && Extends() && Keeps() && WireOf(gateid, nvals)
      ensures forall t | 0 <= t < nvals ::
                inputs[t % |inputs|] < |old(vals)| && vals[gateid][t] == At(old(vals)[inputs[t % |inputs|]], start + t / |inputs| * incr)
      ensures GateReady(gateid) <= r
    {
      MaxReadyLeast(gates, inputs, r);
      gateid := PutGate(StructCombine(inputs, start, incr), nvals);
    }

    /** A constant with as many values as the wire w. */
    method PutConstantGate(value: bool, w: nat) returns (gateid: nat)
      requires Valid() && Wire(w)
      modifies this
      ensures Valid() && Extends() && Wire(gateid) && Val(gateid) == value
      ensures ReadyAt(gateid) == 0
      ensures AndCount() == old(AndCount())
    {
      WireIsWireOf(w);
      gateid := PutGate(Constant(value), gates[w].nvals);
    }
  }

  lemma FirstEntry(ands: seq<NonLinCtx>)
    requires |ands| > 0 && ands[0].bitlen == 1
    requires forall j, k {:trigger Distinct(ands, j, k)} | 0 <= j < k < |ands| :: Distinct(ands, j, k)
    ensures FindBitLen(ands, 1) == 0
  {
    var k := FindBitLen(ands, 1);
    assert k > 0 ==> Distinct(ands, 0, k);
  }

  lemma {:induction false} FreshUnused(gs: seq<Gate>, id: nat)
    requires Ordered(gs) && |gs| <= id
    ensures Uses(gs)[id] == 0
  {
    if gs != [] {
      OrderedFront(gs);
      FreshUnused(gs[..|gs| - 1], id);
      var ps := Parents(gs[|gs| - 1].op);
      assert id !in ps;
    }
  }
}
