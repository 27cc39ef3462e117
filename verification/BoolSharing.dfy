/** One party of the GMW protocol. */
module GmwParty {
  import opened Bits
  import opened Circuit
  import opened Builder
  import opened GmwSpec
  import opened TripleVectors
  import opened GmwLayer
  import opened GmwMessage
  import opened GmwSchedule
  import opened Channel

  /** Whether the party ever holds a value for the gate; outputs of the other party are only sent. */
  predicate Held(gs: seq<Gate>, r: Role, g: nat) {
    g < |gs| && !(gs[g].op.Out? && !gs[g].op.dst.Includes(r))
  }

  /**
    A stored value is the party's share. A gate that was evaluated is stored exactly as long as
    uses of it are to come; a gate nobody uses is kept.
   */
  predicate GateState(w: World, r: Role, val: map<nat, seq<bool>>, evaluated: set<nat>, pending: multiset<nat>, g: nat) {
    && (g in val ==> Held(w.gs, r, g) && g in evaluated && val[g] == Share(w, r, g))
    && pending[g] <= Uses(w.gs)[g]
    && (g < |w.gs| && g !in evaluated ==> pending[g] == Uses(w.gs)[g])
    && (Held(w.gs, r, g) && g in evaluated ==> (g in val <==> pending[g] > 0 || Uses(w.gs)[g] == 0))
  }

  ghost predicate StoreOk(w: World, r: Role, val: map<nat, seq<bool>>, evaluated: set<nat>, pending: multiset<nat>) {
    forall g {:trigger GateState(w, r, val, evaluated, pending, g)} :: GateState(w, r, val, evaluated, pending, g)
  }

  /** The remaining-use counters agree with the uses to come. */
  predicate CountsOk(gs: seq<Gate>, nused: seq<nat>, pending: multiset<nat>) {
    |nused| == |gs| && forall g | 0 <= g < |gs| :: nused[g] == pending[g]
  }

  // ----- the interactive gates of a layer -------------------------------------------------

  /** Gates whose operands are used as soon as they are opened; an own output waits for the other share. */
  predicate UsesAtOnce(gs: seq<Gate>, r: Role, g: nat) {
    g < |gs| && !(gs[g].op.Out? && gs[g].op.dst.Includes(r))
  }

  /** Gates that are finished as soon as they are opened: own inputs, and outputs of the other party only. */
  predicate DoneAtOnce(gs: seq<Gate>, r: Role, g: nat) {
    g < |gs| && (gs[g].op == In(r) || (gs[g].op.Out? && !gs[g].op.dst.Includes(r)))
  }

  function UsedNow(gs: seq<Gate>, r: Role, q: seq<nat>, i: nat): set<nat>
    requires i <= |q|
  {
    if i == 0 then {} else UsedNow(gs, r, q, i - 1) + if UsesAtOnce(gs, r, q[i - 1]) then {q[i - 1]} else {}
  }

  function DoneNow(gs: seq<Gate>, r: Role, q: seq<nat>, i: nat): set<nat>
    requires i <= |q|
  {
    if i == 0 then {} else DoneNow(gs, r, q, i - 1) + if DoneAtOnce(gs, r, q[i - 1]) then {q[i - 1]} else {}
  }

  /** What has been evaluated and used once i interactive gates of layer d are open. */
  ghost predicate ProgressAt(gs: seq<Gate>, r: Role, evaluated: set<nat>, pending: multiset<nat>, d: nat, i: nat) {
    var local := LocalDone(gs, d, |LocalQueue(gs, d)|);
    && i <= |Layer(gs, d)|
    && evaluated == local + DoneNow(gs, r, Layer(gs, d), i)
    && pending == Rest(gs, local + UsedNow(gs, r, Layer(gs, d), i), |gs|)
  }

  /** The parts of a party's state while a layer is opened. */
  datatype Aspect = Values | Steps | TripleState | InputState | OutputState

  /** The masks sent for the first i gates of layer d. */
  ghost predicate SentMasks(w: World, r: Role, d: nat, i: nat, snd: seq<bool>) {
    && i <= |Layer(w.gs, d)| && |snd| == Taken(w.gs, Input(r), Layer(w.gs, d), i)
    && forall x | 0 <= x < |snd| :: snd[x] == w.mask(r, x)
  }

  /** A party's share of an output, where the gate's bits lie in the message. */
  ghost predicate SentShare(w: World, r: Role, g: nat, snd: seq<bool>) {
    && g < |w.gs| && w.gs[g].op.Out?
    && var at := Offset(w.gs, Output(r.Other()), g);
       && at + w.gs[g].nvals <= |snd|
       && forall t | 0 <= t < w.gs[g].nvals :: snd[at + t] == w.share(r, w.gs[g].op.parent, t)
  }

  ghost predicate SentShares(w: World, r: Role, d: nat, i: nat, snd: seq<bool>) {
    var q, s := Layer(w.gs, d), Output(r.Other());
    && i <= |q| && |snd| == Taken(w.gs, s, q, i)
    && forall k {:trigger Members(w.gs, s, q, i)[k]} | 0 <= k < |Members(w.gs, s, q, i)| ::
         SentShare(w, r, Members(w.gs, s, q, i)[k], snd)
  }

  // ----- the message of a layer -----------------------------------------------------------

  /** The buffers for one vector length. */
  ghost predicate TripleChunks(w: World, r: Role, d: nat, bl: nat, dBits: seq<bool>, eBits: seq<bool>) {
    && |dBits| == Pad8(LayerTakes(w.gs, Triple(bl), d)) && |eBits| == Flat(|dBits|, bl)
    && SentOpenings(w, r, d, bl, dBits, eBits)
  }

  /** The buffers of a layer: masks, output shares, and the openings for every vector length. */
  ghost predicate MessageOk(w: World, ands: seq<NonLinCtx>, r: Role, d: nat, chunks: seq<seq<bool>>) {
    && |chunks| == 2 + 2 * |ands|
    && |chunks[0]| == Pad8(LayerTakes(w.gs, Input(r), d)) && |chunks[1]| == Pad8(LayerTakes(w.gs, Output(r.Other()), d))
    && SentMasks(w, r, d, |Layer(w.gs, d)|, chunks[0][..LayerTakes(w.gs, Input(r), d)])
    && SentShares(w, r, d, |Layer(w.gs, d)|, chunks[1][..LayerTakes(w.gs, Output(r.Other()), d)])
    && (forall k {:trigger ands[k]} | 0 <= k < |ands| :: TripleChunks(w, r, d, ands[k].bitlen, chunks[2 + 2 * k], chunks[3 + 2 * k]))
  }

  lemma MessageSized(w: World, ands: seq<NonLinCtx>, r: Role, d: nat, chunks: seq<seq<bool>>)
    requires MessageOk(w, ands, r, d, chunks)
    ensures SizesOf(chunks, MessageSizes(w.gs, ands, r, d))
  {
    var sizes := MessageSizes(w.gs, ands, r, d);
    forall i | 0 <= i < |chunks|
      ensures |chunks[i]| == sizes[i]
    {
      if i >= 2 {
        var k := (i - 2) / 2;
        assert TripleChunks(w, r, d, ands[k].bitlen, chunks[2 + 2 * k], chunks[3 + 2 * k]);
        assert i == 2 + 2 * k || i == 3 + 2 * k;
      }
    }
  }

  // ----- the end of a layer ---------------------------------------------------------------

  ghost predicate Finished(w: World, r: Role, mt: MT, d: nat) {
    && Shape(mt) && Results(w, r, mt) && mt.startIdx == Start(w.gs, mt.bitlen, d)
    && mt.gates == Members(w.gs, Triple(mt.bitlen), Layer(w.gs, d), |Layer(w.gs, d)|)
  }

  /** The results of the layer are there, and everything else is ready for the next layer. */
  ghost predicate Computed(w: World, r: Role, mt: MT, d: nat, layers: nat) {
    && Finished(w, r, mt, d)
    && MtAt(w, r, mt.(startIdx := Pad8(mt.idx), idx := Pad8(mt.idx), gates := []), d + 1, 0, layers)
  }

  /** The AND gates of the layer whose vector length is among the first k. */
  function ClassDone(gs: seq<Gate>, ands: seq<NonLinCtx>, d: nat, k: nat): set<nat> {
    set g | g in FirstOf(Layer(gs, d), |Layer(gs, d)|) && g < |gs| && IsAnd(gs[g].op) &&
            0 <= FindBitLen(ands, AndBitlen(gs[g].op)) < k
  }

  /** What has been evaluated when the layer's AND gates of the first k vector lengths are. */
  function DoneSet(gs: seq<Gate>, r: Role, ands: seq<NonLinCtx>, d: nat, k: nat): set<nat> {
    LocalDone(gs, d, |LocalQueue(gs, d)|) + DoneNow(gs, r, Layer(gs, d), |Layer(gs, d)|) + ClassDone(gs, ands, d, k)
  }

  /** The list for one vector length is new, and takes the next step. */
  lemma ClassStep(gs: seq<Gate>, r: Role, ands: seq<NonLinCtx>, d: nat, k: nat)
    requires AndsOk(gs, ands) && k < |ands|
    ensures var m := Members(gs, Triple(ands[k].bitlen), Layer(gs, d), |Layer(gs, d)|);
            && DoneSet(gs, r, ands, d, k + 1) == DoneSet(gs, r, ands, d, k) + FirstOf(m, |m|)
            && forall g | g in m :: g !in DoneSet(gs, r, ands, d, k)
  {
    var q, bl := Layer(gs, d), ands[k].bitlen;
    var m := Members(gs, Triple(bl), q, |q|);
    assert EntryOk(gs, ands, k);
    forall g: nat | g < |gs|
      ensures g in m <==> g in ClassDone(gs, ands, d, k + 1) && g !in ClassDone(gs, ands, d, k)
    {
      MembersIff(gs, Triple(bl), q, |q|, g);
      EntryOf(ands, k, AndBitlen(gs[g].op));
    }
    forall g | g in m
      ensures g !in DoneSet(gs, r, ands, d, k)
    {
      MembersIff(gs, Triple(bl), q, |q|, g);
      NowIff(gs, r, q, |q|, g);
      QueueMembers(BOOL, gs, true, d, |gs|, g);
      QueueMembers(BOOL, gs, false, d, |gs|, g);
    }
  }

  lemma EntryOf(ands: seq<NonLinCtx>, k: nat, bitlen: nat)
    requires k < |ands| && forall i, j {:trigger Distinct(ands, i, j)} | 0 <= i < j < |ands| :: Distinct(ands, i, j)
    ensures FindBitLen(ands, bitlen) == k <==> ands[k].bitlen == bitlen
  {
    var pos := FindBitLen(ands, bitlen);
    if pos >= 0 && pos != k {
      assert Distinct(ands, if pos < k then pos else k, if pos < k then k else pos);
    }
  }

  lemma {:induction false} NowIff(gs: seq<Gate>, r: Role, q: seq<nat>, i: nat, g: nat)
    requires i <= |q|
    ensures g in UsedNow(gs, r, q, i) <==> g in FirstOf(q, i) && UsesAtOnce(gs, r, g)
    ensures g in DoneNow(gs, r, q, i) <==> g in FirstOf(q, i) && DoneAtOnce(gs, r, g)
  {
    if i > 0 {
      NowIff(gs, r, q, i - 1, g);
      FirstOfStep(q, i - 1);
    }
  }

  /** A listed AND gate lies behind the values of the gates listed before it. */
  lemma ListedPosition(w: World, d: nat, bl: nat, i: nat)
    requires WellFormed(BOOL, w.gs) && bl > 0 && i < |Members(w.gs, Triple(bl), Layer(w.gs, d), |Layer(w.gs, d)|)|
    ensures var m := Members(w.gs, Triple(bl), Layer(w.gs, d), |Layer(w.gs, d)|);
            FlatPos(w.gs, m[i]) == Flat(Start(w.gs, bl, d), bl) + ValuesOf(w.gs, m, i)
  {
    var m := Members(w.gs, Triple(bl), Layer(w.gs, d), |Layer(w.gs, d)|);
    MemberOffset(w.gs, Triple(bl), d, i);
    ListedStrings(w, m, bl, Start(w.gs, bl, d), i);
    assert Pos(w.gs, m[i]) == Start(w.gs, bl, d) + Taken(w.gs, Triple(bl), m, i);
  }

  /** Where the next AND gate of the list finds its result. */
  lemma AndSlice(w: World, r: Role, mt: MT, d: nat, i: nat, idx: nat)
    requires WellFormed(BOOL, w.gs) && Finished(w, r, mt, d) && i < |mt.gates|
    requires idx == Flat(mt.startIdx, mt.bitlen) + ValuesOf(w.gs, mt.gates, i)
    ensures var g := mt.gates[i];
            Held(w.gs, r, g) && idx + w.gs[g].nvals <= |mt.resA| && mt.resA[idx..idx + w.gs[g].nvals] == Share(w, r, g)
  {
    ListedPosition(w, d, mt.bitlen, i);
    SliceIsShare(w, r, mt, mt.gates[i], idx);
  }

  lemma SliceIsShare(w: World, r: Role, mt: MT, g: nat, idx: nat)
    requires GateResult(w, r, mt, g) && FlatPos(w.gs, g) == idx
    ensures idx + w.gs[g].nvals <= |mt.resA| && mt.resA[idx..idx + w.gs[g].nvals] == Share(w, r, g)
  {
    var slice := mt.resA[idx..idx + w.gs[g].nvals];
    forall t | 0 <= t < |slice|
      ensures slice[t] == Share(w, r, g)[t]
    {
      assert mt.resA[idx + t] == w.share(r, g, t);
    }
  }

  /** The next gate of a list is a new one. */
  lemma NextMember(gs: seq<Gate>, s: Stock, d: nat, i: nat)
    requires i < |Members(gs, s, Layer(gs, d), |Layer(gs, d)|)|
    ensures var m := Members(gs, s, Layer(gs, d), |Layer(gs, d)|);
            m[i] in m && m[i] !in FirstOf(m, i) && FirstOf(m, i + 1) == FirstOf(m, i) + {m[i]}
  {
    var m := Members(gs, s, Layer(gs, d), |Layer(gs, d)|);
    forall j | 0 <= j < i
      ensures m[j] != m[i]
    {
      MembersDistinct(gs, s, d, j, i);
    }
    FirstOfStep(m, i);
  }

  /** The gates of a layer that have used their operands, when the first i own outputs have. */
  function UsedSet(gs: seq<Gate>, r: Role, d: nat, i: nat): set<nat>
    requires i <= |Members(gs, Output(r), Layer(gs, d), |Layer(gs, d)|)|
  {
    LocalDone(gs, d, |LocalQueue(gs, d)|) + UsedNow(gs, r, Layer(gs, d), |Layer(gs, d)|) +
    FirstOf(Members(gs, Output(r), Layer(gs, d), |Layer(gs, d)|), i)
  }

  /** The next own output has not used its operand yet, which has been evaluated. */
  lemma OutputPending(gs: seq<Gate>, r: Role, d: nat, i: nat)
    requires WellFormed(BOOL, gs) && i < |Members(gs, Output(r), Layer(gs, d), |Layer(gs, d)|)|
    ensures var g := Members(gs, Output(r), Layer(gs, d), |Layer(gs, d)|)[i];
            && g !in UsedSet(gs, r, d, i) && UsedSet(gs, r, d, i + 1) == UsedSet(gs, r, d, i) + {g}
            && gs[g].op.Out? && gs[g].op.parent < |gs| && !gs[gs[g].op.parent].op.Out?
            && gs[g].op.parent in LocalDone(gs, d, |LocalQueue(gs, d)|)
            && Rest(gs, UsedSet(gs, r, d, i), |gs|) == Rest(gs, UsedSet(gs, r, d, i + 1), |gs|) + multiset{gs[g].op.parent}
  {
    var q := Layer(gs, d);
    var m := Members(gs, Output(r), q, |q|);
    var g := m[i];
    NextMember(gs, Output(r), d, i);
    MembersIff(gs, Output(r), q, |q|, g);
    NowIff(gs, r, q, |q|, g);
    var j := MemberPosition(gs, Output(r), q, |q|, i);
    InteractiveNew(gs, d, j);
    InteractiveReady(gs, d, j);
    assert GateOk(BOOL, gs, g) && gs[g].op.parent in Parents(gs[g].op);
    RestStep(gs, UsedSet(gs, r, d, i), |gs|, g);
  }

  /** The other party's share of an own output, where it lies in the received message. */
  lemma ArrivedShare(w: World, r: Role, d: nat, i: nat, rcv: seq<bool>)
    requires SentShares(w, r.Other(), d, |Layer(w.gs, d)|, rcv)
    requires i < |Members(w.gs, Output(r), Layer(w.gs, d), |Layer(w.gs, d)|)|
    ensures var m := Members(w.gs, Output(r), Layer(w.gs, d), |Layer(w.gs, d)|);
            SentShare(w, r.Other(), m[i], rcv) && Offset(w.gs, Output(r), m[i]) == Taken(w.gs, Output(r), m, i)
  {
    assert r.Other().Other() == r;
    MemberOffset(w.gs, Output(r), d, i);
    var g := Members(w.gs, Output(r), Layer(w.gs, d), |Layer(w.gs, d)|)[i];
    assert SentShare(w, r.Other(), g, rcv);
  }

  function MembersOf(gs: seq<Gate>, s: Stock, d: nat): (m: seq<nat>)
    ensures Ids(gs, m)
  {
    Members(gs, s, Layer(gs, d), |Layer(gs, d)|)
  }

  /** How a single gate of the layer is finished. */
  lemma FinishedOnce(gs: seq<Gate>, r: Role, ands: seq<NonLinCtx>, d: nat, g: nat)
    requires AndsOk(gs, ands) && BoolGates(gs)
    ensures var own, others, out := DoneSet(gs, r, ands, d, |ands|), MembersOf(gs, Input(r.Other()), d), MembersOf(gs, Output(r), d);
            && (g in others ==> g !in own) && (g in out ==> g !in own && g !in others)
            && (g in own || g in others || g in out <==> g in Before(gs, d + 1))
            && (g in UsedSet(gs, r, d, |out|) <==> g in Before(gs, d + 1))
  {
    var q := Layer(gs, d);
    var out := MembersOf(gs, Output(r), d);
    LayerComplete(gs, d);
    MembersIff(gs, Input(r.Other()), q, |q|, g);
    MembersIff(gs, Output(r), q, |q|, g);
    NowIff(gs, r, q, |q|, g);
    QueueMembers(BOOL, gs, true, d, |gs|, g);
    QueueMembers(BOOL, gs, false, d, |gs|, g);
    assert g in out <==> g in FirstOf(out, |out|);
    if g < |gs| {
      assert Counted(gs, ands, g);
    }
  }

  /** Every gate of the layer is finished once, and has used its operands once. */
  lemma LayerSets(gs: seq<Gate>, r: Role, ands: seq<NonLinCtx>, d: nat)
    requires AndsOk(gs, ands) && BoolGates(gs)
    ensures var own, others, out := DoneSet(gs, r, ands, d, |ands|), MembersOf(gs, Input(r.Other()), d), MembersOf(gs, Output(r), d);
            && (forall g | g in others :: g !in own)
            && (forall g | g in out :: g !in own + FirstOf(others, |others|))
            && own + FirstOf(others, |others|) + FirstOf(out, |out|) == Before(gs, d + 1)
            && UsedSet(gs, r, d, |out|) == Before(gs, d + 1)
  {
    var own, others, out := DoneSet(gs, r, ands, d, |ands|), MembersOf(gs, Input(r.Other()), d), MembersOf(gs, Output(r), d);
    forall g: nat
      ensures g in others ==> g !in own
      ensures g in out ==> g !in own + FirstOf(others, |others|)
      ensures g in own + FirstOf(others, |others|) + FirstOf(out, |out|) <==> g in Before(gs, d + 1)
      ensures g in UsedSet(gs, r, d, |out|) <==> g in Before(gs, d + 1)
    {
      FinishedOnce(gs, r, ands, d, g);
      assert g in others <==> g in FirstOf(others, |others|);
      assert g in out <==> g in FirstOf(out, |out|);
    }
  }

  /** What a party relies on besides the circuit itself. */
  datatype Fact = LocalGates | InteractiveGates | Layers | AndEntries | RandomBits | OwnInputs

  /** The openings of one vector length that a party waits for. */
  predicate Awaits(gs: seq<Gate>, mts: seq<MT>, ands: seq<NonLinCtx>, d: nat, k: nat) {
    && k < |mts| && k < |ands| && mts[k].bitlen == ands[k].bitlen && mts[k].startIdx <= mts[k].idx
    && mts[k].idx - mts[k].startIdx == LayerTakes(gs, Triple(ands[k].bitlen), d)
  }

  method TripleBuffers(mts: seq<MT>, ghost gs: seq<Gate>, ghost ands: seq<NonLinCtx>, ghost d: nat) returns (sizes: seq<nat>)
    requires |mts| == |ands| && forall k: nat | k < |mts| :: Awaits(gs, mts, ands, d, k)
    ensures sizes == TripleSizes(gs, ands, d, |ands|)
  {
    sizes := [];
    for k := 0 to |mts|
      invariant sizes == TripleSizes(gs, ands, d, k)
    {
      assert Awaits(gs, mts, ands, d, k);
      var mtbits := Pad8(mts[k].idx - mts[k].startIdx);
      sizes := sizes + [mtbits, Flat(mtbits, mts[k].bitlen)];
    }
  }

  /** Both operands of an XOR, value by value. */
  function XorShares(l: seq<bool>, r: seq<bool>, nvals: nat): (v: seq<bool>)
    requires nvals <= |l| && nvals <= |r|
    ensures |v| == nvals && forall t | 0 <= t < nvals :: v[t] == (l[t] != r[t])
  {
    seq(nvals, t requires 0 <= t < nvals => l[t] != r[t])
  }

  lemma XorIsShare(w: World, r: Role, g: nat, left: seq<bool>, right: seq<bool>)
    requires SharesOk(w) && g < |w.gs| && ParentsBelow(w.gs[g].op, g) && w.gs[g].op.Lin?
    requires left == Share(w, r, w.gs[g].op.left) && right == Share(w, r, w.gs[g].op.right)
    requires w.gs[g].nvals <= |left| && w.gs[g].nvals <= |right|
    ensures XorShares(left, right, w.gs[g].nvals) == Share(w, r, g)
  {
    forall t | 0 <= t < w.gs[g].nvals
      ensures (left[t] != right[t]) == w.share(r, g, t)
    {
      assert ShareOk(w, r, g, t);
    }
  }

  class BoolSharing {
    const role: Role
    const gates: seq<Gate>
    const localQueueOnLvl: seq<seq<nat>>
    const interactiveQueueOnLvl: seq<seq<nat>>
    const maxDepth: nat
    const ands: seq<NonLinCtx>
    const inputs: map<nat, seq<bool>>
    const randomness: nat -> bool

    var nused: seq<nat>
    var val: map<nat, seq<bool>>
    var mts: seq<MT>
    var inputShareSnd: seq<bool>
    var inputShareRcv: seq<bool>
    var inputShareRcvSize: nat
    var inputShareGates: seq<nat>
    var outputShareSnd: seq<bool>
    var outputShareRcv: seq<bool>
    var outputShareRcvSize: nat
    var outputShareGates: seq<nat>

    ghost const w: World
    ghost var evaluated: set<nat>
    ghost var pending: multiset<nat>

    /** The circuit, the party's inputs and its randomness are those of the run. */
    ghost predicate Setup() {
      && w.gs == gates && Runnable(gates) && SharesOk(w)
      && forall fact {:trigger FactOk(fact)} :: FactOk(fact)
    }

    ghost predicate FactOk(fact: Fact) {
      match fact
      case LocalGates => QueuesOk(BOOL, gates, false, localQueueOnLvl)
      case InteractiveGates => QueuesOk(BOOL, gates, true, interactiveQueueOnLvl)
      case Layers => maxDepth == Max(|localQueueOnLvl|, |interactiveQueueOnLvl|)
      case AndEntries => AndsOk(gates, ands)
      case RandomBits => forall i :: randomness(i) == w.mask(role, i)
      case OwnInputs =>
        forall g: nat | g < |gates| && gates[g].op == In(role) ::
          g in inputs && |inputs[g]| == gates[g].nvals && forall t | 0 <= t < gates[g].nvals :: inputs[g][t] == w.inp(g, t)
    }

    ghost predicate Store()
      reads this`nused, this`val, this`evaluated, this`pending
    {
      CountsOk(w.gs, nused, pending) && StoreOk(w, role, val, evaluated, pending)
    }

    /** All operands have been evaluated and this gate's uses of them are still to come. */
    ghost predicate Ready(g: nat)
      reads this`evaluated, this`pending
    {
      && g < |gates| && multiset(Parents(gates[g].op)) <= pending
      && forall k | 0 <= k < |Parents(gates[g].op)| ::
           var p := Parents(gates[g].op)[k]; p in evaluated && p < |gates| && !gates[p].op.Out?
    }

    /** An operand whose use is still to come is stored, and it is the party's share. */
    lemma Stored(p: nat)
      requires Setup() && Store() && p in evaluated && p in pending && Held(gates, role, p)
      ensures p in val && val[p] == Share(w, role, p)
    {
      assert GateState(w, role, val, evaluated, pending, p);
    }

    /** InstantiateGate, together with the value that is assigned next. */
    method Instantiate(gateid: nat, v: seq<bool>)
      requires Setup() && Store() && gateid !in evaluated && Held(gates, role, gateid) && v == Share(w, role, gateid)
      modifies this`val, this`evaluated
      ensures Store() && evaluated == old(evaluated) + {gateid} && val == old(val)[gateid := v]
    {
      assert GateState(w, role, val, evaluated, pending, gateid);
      val := val[gateid := v];
      evaluated := evaluated + {gateid};
      forall g
        ensures GateState(w, role, val, evaluated, pending, g)
      {
        assert GateState(w, role, old(val), old(evaluated), pending, g);
      }
    }

    /** One use less; after the last one the value is freed. */
    method UsedGate(gateid: nat)
      requires Setup() && Store() && gateid in evaluated && gateid in pending && Held(gates, role, gateid)
      modifies this`nused, this`val, this`pending
      ensures Store() && pending == old(pending) - multiset{gateid}
      ensures val == if gateid in pending then old(val) else old(val) - {gateid}
    {
      Stored(gateid);
      assert GateState(w, role, val, evaluated, pending, gateid);
      if gateid in val {
        nused := nused[gateid := nused[gateid] - 1];
        pending := pending - multiset{gateid};
        if nused[gateid] == 0 {
          val := val - {gateid};
        }
      }
      forall g
        ensures GateState(w, role, val, evaluated, pending, g)
      {
        assert GateState(w, role, old(val), evaluated, old(pending), g);
      }
    }

    // ----- local gates --------------------------------------------------------------------

    method EvaluateXORGate(gateid: nat)
      requires Setup() && Store() && Ready(gateid) && gateid !in evaluated && gates[gateid].op.Lin?
      modifies this`val, this`evaluated, this`nused, this`pending
      ensures Store() && evaluated == old(evaluated) + {gateid}
      ensures pending == old(pending) - multiset(Parents(gates[gateid].op))
    {
      var idleft, idright := gates[gateid].op.left, gates[gateid].op.right;
      GateShape(gateid);
      OperandStored(gateid, 0);
      OperandStored(gateid, 1);
      var v := XorShares(val[idleft], val[idright], gates[gateid].nvals);
      XorIsShare(w, role, gateid, val[idleft], val[idright]);
      Instantiate(gateid, v);
      UsedGate(idleft);
      UsedGate(idright);
    }

    /** The server holds the constant, the client zeros. */
    method EvaluateConstantGate(gateid: nat)
      requires Setup() && Store() && Ready(gateid) && gateid !in evaluated && gates[gateid].op.Constant?
      modifies this`val, this`evaluated
      ensures Store() && evaluated == old(evaluated) + {gateid}
      ensures pending == old(pending) - multiset(Parents(gates[gateid].op))
    {
      GateShape(gateid);
      var value := gates[gateid].op.value && role != CLIENT;
      var v := seq(gates[gateid].nvals, _ => value);
      forall t | 0 <= t < |v|
        ensures v[t] == w.share(role, gateid, t)
      {
        assert ShareOk(w, role, gateid, t);
      }
      Instantiate(gateid, v);
    }

    /** The server flips its share. */
    method EvaluateINVGate(gateid: nat)
      requires Setup() && Store() && Ready(gateid) && gateid !in evaluated && gates[gateid].op.Inv?
      modifies this`val, this`evaluated, this`nused, this`pending
      ensures Store() && evaluated == old(evaluated) + {gateid}
      ensures pending == old(pending) - multiset(Parents(gates[gateid].op))
    {
      var parentid := gates[gateid].op.parent;
      GateShape(gateid);
      OperandStored(gateid, 0);
      var p := val[parentid];
      var v := seq(gates[gateid].nvals, t requires 0 <= t < |p| => p[t] != role.SERVER?);
      forall t | 0 <= t < |v|
        ensures v[t] == w.share(role, gateid, t)
      {
        assert ShareOk(w, role, gateid, t);
      }
      Instantiate(gateid, v);
      UsedGate(parentid);
    }

    /** What the circuit guarantees about a gate's operands. */
    lemma GateShape(g: nat)
      requires Setup() && g < |gates|
      ensures OpOk(gates[..g], gates[g].op, gates[g].nvals) && ParentsBelow(gates[g].op, g) && !gates[g].op.Univ?
      ensures forall k | 0 <= k < |Parents(gates[g].op)| :: gates[..g][Parents(gates[g].op)[k]] == gates[Parents(gates[g].op)[k]]
    {
      assert GateOk(BOOL, gates, g);
    }

    lemma OperandStored(g: nat, k: nat)
      requires Setup() && Store() && Ready(g) && k < |Parents(gates[g].op)|
      ensures var p := Parents(gates[g].op)[k];
              p in pending && p in evaluated && Held(gates, role, p) && p in val && val[p] == Share(w, role, p)
    {
      var p := Parents(gates[g].op)[k];
      assert p in multiset(Parents(gates[g].op));
      Stored(p);
    }

    /** One use less for every input of the list. */
    method UsedGates(ps: seq<nat>)
      requires Setup() && Store() && multiset(ps) <= pending
      requires forall k | 0 <= k < |ps| :: ps[k] in evaluated && Held(gates, role, ps[k])
      modifies this`nused, this`val, this`pending
      ensures Store() && pending == old(pending) - multiset(ps)
    {
      assert ps[..0] == [];
      for i := 0 to |ps|
        invariant Store() && pending == old(pending) - multiset(ps[..i])
      {
        PrefixUses(old(pending), ps, i);
        UsedGate(ps[i]);
      }
      assert ps[..|ps|] == ps;
    }

    /** A structurised combiner: one value of every input in turn, then the next position. */
    method EvaluateStructCombine(gateid: nat)
      requires Setup() && Store() && Ready(gateid) && gateid !in evaluated && gates[gateid].op.StructCombine?
      modifies this`val, this`evaluated, this`nused, this`pending
      ensures Store() && evaluated == old(evaluated) + {gateid}
      ensures pending == old(pending) - multiset(Parents(gates[gateid].op))
    {
      GateShape(gateid);
      var v := CombineValues(gateid);
      Instantiate(gateid, v);
      UsedGates(gates[gateid].op.inputs);
    }

    /** All values of a structurised combiner. */
    method CombineValues(gateid: nat) returns (v: seq<bool>)
      requires Setup() && Store() && Ready(gateid) && gates[gateid].op.StructCombine?
      ensures v == Share(w, role, gateid)
    {
      GateShape(gateid);
      var ins, vsize := gates[gateid].op.inputs, gates[gateid].nvals;
      v := [];
      var pos := gates[gateid].op.start;
      while |v| < vsize
        invariant |v| <= vsize && |v| % |ins| == 0
        invariant pos == gates[gateid].op.start + |v| / |ins| * gates[gateid].op.incr
        invariant forall t | 0 <= t < |v| :: v[t] == w.share(role, gateid, t)
        decreases vsize - |v|
      {
        v := CombineRow(gateid, v, pos);
        pos := pos + gates[gateid].op.incr;
      }
    }

    /** The values of all inputs at one position. */
    method CombineRow(gateid: nat, v0: seq<bool>, pos: nat) returns (v: seq<bool>)
      requires Setup() && Store() && Ready(gateid) && gates[gateid].op.StructCombine?
      requires var op, nvals := gates[gateid].op, gates[gateid].nvals;
               && |op.inputs| > 0 && nvals % |op.inputs| == 0 && |v0| % |op.inputs| == 0 && |v0| < nvals
               && pos == op.start + |v0| / |op.inputs| * op.incr
      requires forall t | 0 <= t < |v0| :: v0[t] == w.share(role, gateid, t)
      ensures var op, nvals := gates[gateid].op, gates[gateid].nvals;
              && |v| == |v0| + |op.inputs| <= nvals && |v| % |op.inputs| == 0
              && |v| / |op.inputs| == |v0| / |op.inputs| + 1
      ensures forall t | 0 <= t < |v| :: v[t] == w.share(role, gateid, t)
    {
      GateShape(gateid);
      var ins := gates[gateid].op.inputs;
      v := v0;
      RowEnd(|v0|, |ins|, gates[gateid].nvals);
      for i := 0 to |ins|
        invariant |v| == |v0| + i
        invariant forall t | 0 <= t < |v| :: v[t] == w.share(role, gateid, t)
      {
        OperandStored(gateid, i);
        RowIndex(|v0|, i, |ins|);
        assert ShareOk(w, role, gateid, |v0| + i);
        v := v + [val[ins[i]][pos]];
      }
    }

    // ----- the local gates of a layer -----------------------------------------------------

    /** The gates of a layer's queue; layers without a queue have none. */
    function QueueOnLvl(queues: seq<seq<nat>>, depth: nat): seq<nat> {
      if depth < |queues| then queues[depth] else []
    }

    lemma QueueIs(interactive: bool, depth: nat)
      requires Setup()
      ensures QueueOnLvl(if interactive then interactiveQueueOnLvl else localQueueOnLvl, depth) ==
              Queue(BOOL, gates, interactive, depth, |gates|)
    {
      assert FactOk(LocalGates) && FactOk(InteractiveGates);
      var queues := if interactive then interactiveQueueOnLvl else localQueueOnLvl;
      if depth >= |queues| {
        assert forall g | 0 <= g < |gates| && Interactive(BOOL, gates[g].op) == interactive :: LayerExists(gates, queues, g);
        QueueEmpty(BOOL, gates, interactive, depth, |gates|);
      }
    }

    /** A gate whose operands are all done can be evaluated; its uses are still to come. */
    lemma ReadyNow(g: nat, done: set<nat>)
      requires Setup() && g < |gates| && g !in done && done <= evaluated && pending == Rest(gates, done, |gates|)
      requires forall p | p in Parents(gates[g].op) :: p in done && p < |gates| && !gates[p].op.Out?
      ensures Ready(g) && pending - multiset(Parents(gates[g].op)) == Rest(gates, done + {g}, |gates|)
    {
      RestStep(gates, done, |gates|, g);
      GateShape(g);
      forall k | 0 <= k < |Parents(gates[g].op)|
        ensures Parents(gates[g].op)[k] in evaluated
      {
        assert Parents(gates[g].op)[k] in Parents(gates[g].op);
      }
    }

    method EvaluateLocalOperations(depth: nat)
      requires Setup() && Store() && evaluated == Before(gates, depth)
      requires pending == Rest(gates, Before(gates, depth), |gates|)
      modifies this`val, this`evaluated, this`nused, this`pending
      ensures Store() && evaluated == LocalDone(gates, depth, |LocalQueue(gates, depth)|)
      ensures pending == Rest(gates, evaluated, |gates|)
    {
      QueueIs(false, depth);
      var localops := QueueOnLvl(localQueueOnLvl, depth);
      assert LocalDone(gates, depth, 0) == Before(gates, depth);
      for i := 0 to |localops|
        invariant Store() && evaluated == LocalDone(gates, depth, i) && pending == Rest(gates, evaluated, |gates|)
      {
        LocalReady(gates, depth, i);
        ReadyNow(localops[i], evaluated);
        EvaluateLocalGate(localops[i]);
      }
    }

    method EvaluateLocalGate(gateid: nat)
      requires Setup() && Store() && Ready(gateid) && gateid !in evaluated && !Interactive(BOOL, gates[gateid].op)
      modifies this`val, this`evaluated, this`nused, this`pending
      ensures Store() && evaluated == old(evaluated) + {gateid}
      ensures pending == old(pending) - multiset(Parents(gates[gateid].op))
    {
      GateShape(gateid);
      match gates[gateid].op
      case Lin(_, _) => EvaluateXORGate(gateid);
      case Constant(_) => EvaluateConstantGate(gateid);
      case Inv(_) => EvaluateINVGate(gateid);
      case StructCombine(_, _, _) => EvaluateStructCombine(gateid);
      case _ => assert false;
    }

    // ----- opening ------------------------------------------------------------------------

    /** The first i interactive gates of layer d have been opened. */
    ghost predicate TriplesAt(d: nat, i: nat)
      reads this`mts
    {
      && |mts| == |ands|
      && forall k {:trigger mts[k]} | 0 <= k < |mts| :: mts[k].bitlen == ands[k].bitlen && MtAt(w, role, mts[k], d, i, maxDepth)
    }

    ghost predicate InputsAt(d: nat, i: nat)
      reads this`inputShareSnd, this`inputShareRcvSize, this`inputShareGates
    {
      && SentMasks(w, role, d, i, inputShareSnd)
      && inputShareRcvSize == Taken(w.gs, Input(role.Other()), Layer(w.gs, d), i)
      && inputShareGates == Members(w.gs, Input(role.Other()), Layer(w.gs, d), i)
    }

    ghost predicate OutputsAt(d: nat, i: nat)
      reads this`outputShareSnd, this`outputShareRcvSize, this`outputShareGates
    {
      && SentShares(w, role, d, i, outputShareSnd)
      && outputShareRcvSize == Taken(w.gs, Output(role), Layer(w.gs, d), i)
      && outputShareGates == Members(w.gs, Output(role), Layer(w.gs, d), i)
    }

    /** SelectiveOpen and SelectiveOpenVec. */
    method SelectiveOpen(gateid: nat, ghost d: nat, ghost i: nat)
      requires Setup() && Store() && Ready(gateid) && TriplesAt(d, i) && InputsAt(d, i) && d < maxDepth
      requires i < |Layer(gates, d)| && Layer(gates, d)[i] == gateid && IsAnd(gates[gateid].op)
      modifies this`mts, this`nused, this`val, this`pending
      ensures Store() && TriplesAt(d, i + 1) && InputsAt(d, i + 1)
      ensures pending == old(pending) - multiset(Parents(gates[gateid].op))
    {
      var ps := Parents(gates[gateid].op);
      InputsSkip(d, i);
      forall k | 0 <= k < |ps|
        ensures ps[k] in val && Held(gates, role, ps[k]) && val[ps[k]] == Share(w, role, ps[k])
      {
        OperandStored(gateid, k);
      }
      OpenOperands(gateid, d, i);
      UsedGates(ps);
    }

    method OpenOperands(gateid: nat, ghost d: nat, ghost i: nat)
      requires Setup() && TriplesAt(d, i) && d < maxDepth
      requires i < |Layer(gates, d)| && Layer(gates, d)[i] == gateid && IsAnd(gates[gateid].op)
      requires forall p | p in Parents(gates[gateid].op) :: p < |gates| && p in val && val[p] == Share(w, role, p)
      modifies this`mts
      ensures TriplesAt(d, i + 1)
    {
      var pos := Entry(gateid);
      var choice, vector := Opened(gateid);
      RoomFor(w, role, mts[pos], d, i, maxDepth);
      var mt := OpenTriples(mts[pos], choice, vector, gateid);
      OpenStep(w, role, mts[pos], mt, d, i, maxDepth, choice, vector);
      OtherEntries(gateid, pos, d, i);
      mts := mts[pos := mt];
    }

    /** The shares that are opened: the choice bits and the vector. */
    method Opened(gateid: nat) returns (choice: seq<bool>, vector: seq<bool>)
      requires Setup() && gateid < |gates| && IsAnd(gates[gateid].op)
      requires forall p | p in Parents(gates[gateid].op) :: p < |gates| && p in val && val[p] == Share(w, role, p)
      ensures var bl := AndBitlen(gates[gateid].op);
              && AndGate(gates, gateid, bl) && Operands(w, role, gateid, choice, vector)
              && |vector| == Flat(|choice|, bl)
    {
      var op, nvals := gates[gateid].op, gates[gateid].nvals;
      var ps := Parents(op);
      var pos := Entry(gateid);
      assert ps[0] in ps && ps[1] in ps;
      choice, vector := val[ps[0]][..nvals / AndBitlen(op)], val[ps[1]][..nvals];
    }

    /** The entry for the vector length of an AND gate, and the shape of its operands. */
    method Entry(gateid: nat) returns (pos: nat)
      requires Setup() && gateid < |gates| && IsAnd(gates[gateid].op)
      ensures pos < |ands| && ands[pos].bitlen == AndBitlen(gates[gateid].op) > 0
      ensures var op, nvals := gates[gateid].op, gates[gateid].nvals;
              && AndGate(gates, gateid, AndBitlen(op)) && Triples(gates, gateid, AndBitlen(op)) == nvals / AndBitlen(op)
              && Flat(nvals / AndBitlen(op), AndBitlen(op)) == nvals
              && nvals / AndBitlen(op) <= gates[Parents(op)[0]].nvals && nvals <= gates[Parents(op)[1]].nvals
    {
      GateShape(gateid);
      assert FactOk(AndEntries);
      assert Counted(gates, ands, gateid);
      AndShape(w, gateid, AndBitlen(gates[gateid].op));
      pos := FindBitLen(ands, AndBitlen(gates[gateid].op));
    }

    /** The gate leaves the triples of other lengths alone. */
    lemma OtherEntries(gateid: nat, pos: nat, d: nat, i: nat)
      requires Setup() && TriplesAt(d, i) && i < |Layer(gates, d)| && Layer(gates, d)[i] == gateid
      requires pos < |ands| && IsAnd(gates[gateid].op) && ands[pos].bitlen == AndBitlen(gates[gateid].op)
      ensures forall k | 0 <= k < |mts| && k != pos :: MtAt(w, role, mts[k], d, i + 1, maxDepth)
    {
      assert FactOk(AndEntries);
      forall k | 0 <= k < |mts| && k != pos
        ensures MtAt(w, role, mts[k], d, i + 1, maxDepth)
      {
        assert Distinct(ands, if pos < k then pos else k, if pos < k then k else pos);
        SkipStep(w, role, mts[k], d, i, maxDepth);
      }
    }

    /** A fresh mask is sent, the masked input is kept. */
    method ShareValues(gateid: nat, ghost d: nat, ghost i: nat)
      requires Setup() && Store() && InputsAt(d, i) && gateid !in evaluated
      requires i < |Layer(gates, d)| && Layer(gates, d)[i] == gateid && gates[gateid].op == In(role)
      modifies this`inputShareSnd, this`val, this`evaluated
      ensures Store() && InputsAt(d, i + 1) && evaluated == old(evaluated) + {gateid}
    {
      var mask, v := MaskInput(gateid, d, i);
      Instantiate(gateid, v);
      inputShareSnd := inputShareSnd + mask;
    }

    method MaskInput(gateid: nat, ghost d: nat, ghost i: nat) returns (mask: seq<bool>, v: seq<bool>)
      requires Setup() && InputsAt(d, i)
      requires i < |Layer(gates, d)| && Layer(gates, d)[i] == gateid && gates[gateid].op == In(role)
      ensures |mask| == gates[gateid].nvals && forall t | 0 <= t < |mask| :: mask[t] == w.mask(role, |inputShareSnd| + t)
      ensures v == Share(w, role, gateid)
    {
      NextOffset(w, Input(role), d, i);
      GateShape(gateid);
      assert FactOk(RandomBits) && FactOk(OwnInputs);
      var n, nvals := |inputShareSnd|, gates[gateid].nvals;
      var input := inputs[gateid];
      mask := seq(nvals, t requires 0 <= t => randomness(n + t));
      v := seq(nvals, t requires 0 <= t < |mask| && t < |input| => mask[t] != input[t]);
      forall t | 0 <= t < nvals
        ensures v[t] == w.share(role, gateid, t)
      {
        assert ShareOk(w, role, gateid, t);
      }
    }

    /** An input of the other party: its share will be received. */
    method AwaitInput(gateid: nat, ghost d: nat, ghost i: nat)
      requires Setup() && InputsAt(d, i)
      requires i < |Layer(gates, d)| && Layer(gates, d)[i] == gateid && gates[gateid].op == In(role.Other())
      modifies this`inputShareRcvSize, this`inputShareGates
      ensures InputsAt(d, i + 1)
    {
      inputShareGates := inputShareGates + [gateid];
      inputShareRcvSize := inputShareRcvSize + gates[gateid].nvals;
    }

    /** The share of an output is sent to the other party. */
    method ReconstructValue(gateid: nat, ghost d: nat, ghost i: nat)
      requires Setup() && Store() && Ready(gateid) && SentShares(w, role, d, i, outputShareSnd)
      requires i < |Layer(gates, d)| && Layer(gates, d)[i] == gateid && Belongs(gates, Output(role.Other()), gateid)
      modifies this`outputShareSnd, this`nused, this`val, this`pending
      ensures Store() && SentShares(w, role, d, i + 1, outputShareSnd)
      ensures pending == old(pending) - if gates[gateid].op.dst != All then multiset(Parents(gates[gateid].op)) else multiset{}
    {
      var parentid := gates[gateid].op.parent;
      GateShape(gateid);
      OperandStored(gateid, 0);
      var bits := val[parentid];
      SentSharesStep(w, role, d, i, outputShareSnd, bits);
      outputShareSnd := outputShareSnd + bits;
      if gates[gateid].op.dst != All {
        UsedGate(parentid);
      }
    }

    method AwaitOutput(gateid: nat)
      requires gateid < |gates|
      modifies this`outputShareRcvSize, this`outputShareGates
      ensures outputShareGates == old(outputShareGates) + [gateid]
      ensures outputShareRcvSize == old(outputShareRcvSize) + gates[gateid].nvals
    {
      outputShareGates := outputShareGates + [gateid];
      outputShareRcvSize := outputShareRcvSize + gates[gateid].nvals;
    }

    /** An output is sent, awaited, or both. */
    method OpenOutput(gateid: nat, ghost d: nat, ghost i: nat)
      requires Setup() && Store() && Ready(gateid) && OutputsAt(d, i)
      requires i < |Layer(gates, d)| && Layer(gates, d)[i] == gateid && gates[gateid].op.Out?
      modifies this`outputShareSnd, this`outputShareRcvSize, this`outputShareGates, this`nused, this`val, this`pending
      ensures Store() && OutputsAt(d, i + 1)
      ensures pending == old(pending) - if UsesAtOnce(gates, role, gateid) then multiset(Parents(gates[gateid].op)) else multiset{}
    {
      if gates[gateid].op.dst == To(role) {
        SentSharesSkip(w, role, d, i, outputShareSnd);
        AwaitOutput(gateid);
      } else if gates[gateid].op.dst == All {
        ReconstructValue(gateid, d, i);
        AwaitOutput(gateid);
      } else {
        ReconstructValue(gateid, d, i);
      }
    }

    ghost predicate Progress(d: nat, i: nat)
      reads this`evaluated, this`pending
    {
      ProgressAt(w.gs, role, evaluated, pending, d, i)
    }

    /** The next interactive gate is ready, and not evaluated yet. */
    lemma NextReady(d: nat, i: nat)
      requires Setup() && Progress(d, i) && i < |Layer(gates, d)|
      ensures Ready(Layer(gates, d)[i]) && Layer(gates, d)[i] !in evaluated
    {
      var g, q, local := Layer(gates, d)[i], Layer(gates, d), LocalDone(gates, d, |LocalQueue(gates, d)|);
      InteractiveReady(gates, d, i);
      InteractiveNew(gates, d, i);
      NowMembers(gates, role, q, i, g);
      var done := local + UsedNow(gates, role, q, i);
      RestStep(gates, done, |gates|, g);
      GateShape(g);
      forall k | 0 <= k < |Parents(gates[g].op)|
        ensures Parents(gates[g].op)[k] in evaluated && !gates[Parents(gates[g].op)[k]].op.Out?
      {
        assert Parents(gates[g].op)[k] in Parents(gates[g].op);
      }
    }

    method EvaluateInteractiveOperations(depth: nat)
      requires Setup() && depth < maxDepth && OpenAt(depth, 0)
      modifies this`mts, this`nused, this`val, this`pending, this`evaluated,
               this`inputShareSnd, this`inputShareRcvSize, this`inputShareGates,
               this`outputShareSnd, this`outputShareRcvSize, this`outputShareGates
      ensures OpenAt(depth, |Layer(gates, depth)|)
    {
      QueueIs(true, depth);
      var interactiveops := QueueOnLvl(interactiveQueueOnLvl, depth);
      for i := 0 to |interactiveops|
        invariant OpenAt(depth, i)
      {
        OpenNext(interactiveops[i], depth, i);
      }
    }

    method OpenNext(gateid: nat, ghost d: nat, ghost i: nat)
      requires Setup() && d < maxDepth && i < |Layer(gates, d)| && Layer(gates, d)[i] == gateid && OpenAt(d, i)
      modifies this`mts, this`nused, this`val, this`pending, this`evaluated,
               this`inputShareSnd, this`inputShareRcvSize, this`inputShareGates,
               this`outputShareSnd, this`outputShareRcvSize, this`outputShareGates
      ensures OpenAt(d, i + 1)
    {
      OpenAspects(d, i);
      NextReady(d, i);
      EvaluateInteractiveGate(gateid, d, i);
      ProgressStep(gates, role, d, i, old(evaluated), old(pending), evaluated, pending);
      OpenFromAspects(d, i + 1);
    }

    /** The state after the first i interactive gates of layer d have been opened. */
    ghost predicate OpenAt(d: nat, i: nat)
      reads this`nused, this`val, this`evaluated, this`pending, this`mts,
            this`inputShareSnd, this`inputShareRcvSize, this`inputShareGates,
            this`outputShareSnd, this`outputShareRcvSize, this`outputShareGates
    {
      forall aspect {:trigger AspectAt(aspect, d, i)} :: AspectAt(aspect, d, i)
    }

    ghost predicate AspectAt(aspect: Aspect, d: nat, i: nat)
      reads this`nused, this`val, this`evaluated, this`pending, this`mts,
            this`inputShareSnd, this`inputShareRcvSize, this`inputShareGates,
            this`outputShareSnd, this`outputShareRcvSize, this`outputShareGates
    {
      match aspect
      case Values => Store()
      case Steps => Progress(d, i)
      case TripleState => TriplesAt(d, i)
      case InputState => InputsAt(d, i)
      case OutputState => OutputsAt(d, i)
    }

    lemma OpenAspects(d: nat, i: nat)
      requires OpenAt(d, i)
      ensures Store() && Progress(d, i) && TriplesAt(d, i) && InputsAt(d, i) && OutputsAt(d, i)
    {
      assert AspectAt(Values, d, i) && AspectAt(Steps, d, i) && AspectAt(TripleState, d, i);
      assert AspectAt(InputState, d, i) && AspectAt(OutputState, d, i);
    }

    lemma OpenFromAspects(d: nat, i: nat)
      requires Store() && Progress(d, i) && TriplesAt(d, i) && InputsAt(d, i) && OutputsAt(d, i)
      ensures OpenAt(d, i)
    {
      forall aspect
        ensures AspectAt(aspect, d, i)
      {
      }
    }

    method EvaluateInteractiveGate(gateid: nat, ghost d: nat, ghost i: nat)
      requires Setup() && Store() && d < maxDepth && i < |Layer(gates, d)| && Layer(gates, d)[i] == gateid
      requires Ready(gateid) && gateid !in evaluated && TriplesAt(d, i) && InputsAt(d, i) && OutputsAt(d, i)
      modifies this`mts, this`nused, this`val, this`pending, this`evaluated,
               this`inputShareSnd, this`inputShareRcvSize, this`inputShareGates,
               this`outputShareSnd, this`outputShareRcvSize, this`outputShareGates
      ensures Store() && TriplesAt(d, i + 1) && InputsAt(d, i + 1) && OutputsAt(d, i + 1)
      ensures evaluated == old(evaluated) + if DoneAtOnce(gates, role, gateid) then {gateid} else {}
      ensures pending == old(pending) - if UsesAtOnce(gates, role, gateid) then multiset(Parents(gates[gateid].op)) else multiset{}
    {
      if gates[gateid].op.Out? {
        EvaluateOutput(gateid, d, i);
      } else {
        EvaluateInputOrAnd(gateid, d, i);
      }
    }

    method EvaluateOutput(gateid: nat, ghost d: nat, ghost i: nat)
      requires Setup() && Store() && d < maxDepth && i < |Layer(gates, d)| && Layer(gates, d)[i] == gateid
      requires Ready(gateid) && gateid !in evaluated && TriplesAt(d, i) && InputsAt(d, i) && OutputsAt(d, i) && gates[gateid].op.Out?
      modifies this`nused, this`val, this`pending, this`evaluated,
               this`outputShareSnd, this`outputShareRcvSize, this`outputShareGates
      ensures Store() && TriplesAt(d, i + 1) && InputsAt(d, i + 1) && OutputsAt(d, i + 1)
      ensures evaluated == old(evaluated) + if DoneAtOnce(gates, role, gateid) then {gateid} else {}
      ensures pending == old(pending) - if UsesAtOnce(gates, role, gateid) then multiset(Parents(gates[gateid].op)) else multiset{}
    {
      TriplesSkip(d, i);
      InputsSkip(d, i);
      PassOutput(gateid, d, i);
    }

    method EvaluateInputOrAnd(gateid: nat, ghost d: nat, ghost i: nat)
      requires Setup() && Store() && d < maxDepth && i < |Layer(gates, d)| && Layer(gates, d)[i] == gateid
      requires Ready(gateid) && gateid !in evaluated && TriplesAt(d, i) && InputsAt(d, i) && OutputsAt(d, i) && !gates[gateid].op.Out?
      modifies this`mts, this`nused, this`val, this`pending, this`evaluated,
               this`inputShareSnd, this`inputShareRcvSize, this`inputShareGates
      ensures Store() && TriplesAt(d, i + 1) && InputsAt(d, i + 1) && OutputsAt(d, i + 1)
      ensures evaluated == old(evaluated) + if DoneAtOnce(gates, role, gateid) then {gateid} else {}
      ensures pending == old(pending) - if UsesAtOnce(gates, role, gateid) then multiset(Parents(gates[gateid].op)) else multiset{}
    {
      OutputsSkip(d, i);
      OpenInputOrAnd(gateid, d, i);
    }

    method PassOutput(gateid: nat, ghost d: nat, ghost i: nat)
      requires Setup() && Store() && d < maxDepth && i < |Layer(gates, d)| && Layer(gates, d)[i] == gateid
      requires Ready(gateid) && gateid !in evaluated && OutputsAt(d, i) && gates[gateid].op.Out?
      modifies this`nused, this`val, this`pending, this`evaluated,
               this`outputShareSnd, this`outputShareRcvSize, this`outputShareGates
      ensures Store() && OutputsAt(d, i + 1)
      ensures evaluated == old(evaluated) + if DoneAtOnce(gates, role, gateid) then {gateid} else {}
      ensures pending == old(pending) - if UsesAtOnce(gates, role, gateid) then multiset(Parents(gates[gateid].op)) else multiset{}
    {
      OpenOutput(gateid, d, i);
      if DoneAtOnce(gates, role, gateid) {
        MarkDone(gateid);
      }
    }

    method OpenInputOrAnd(gateid: nat, ghost d: nat, ghost i: nat)
      requires Setup() && Store() && d < maxDepth && i < |Layer(gates, d)| && Layer(gates, d)[i] == gateid
      requires Ready(gateid) && gateid !in evaluated && TriplesAt(d, i) && InputsAt(d, i) && !gates[gateid].op.Out?
      modifies this`mts, this`nused, this`val, this`pending, this`evaluated,
               this`inputShareSnd, this`inputShareRcvSize, this`inputShareGates
      ensures Store() && TriplesAt(d, i + 1) && InputsAt(d, i + 1)
      ensures evaluated == old(evaluated) + if DoneAtOnce(gates, role, gateid) then {gateid} else {}
      ensures pending == old(pending) - if UsesAtOnce(gates, role, gateid) then multiset(Parents(gates[gateid].op)) else multiset{}
    {
      if gates[gateid].op.In? {
        OpenInput(gateid, d, i);
      } else {
        SelectiveOpen(gateid, d, i);
      }
    }

    /** An own input is shared, the other party's is awaited. */
    method OpenInput(gateid: nat, ghost d: nat, ghost i: nat)
      requires Setup() && Store() && TriplesAt(d, i) && InputsAt(d, i) && gateid !in evaluated
      requires i < |Layer(gates, d)| && Layer(gates, d)[i] == gateid && gates[gateid].op.In?
      modifies this`inputShareSnd, this`inputShareRcvSize, this`inputShareGates, this`val, this`evaluated
      ensures Store() && TriplesAt(d, i + 1) && InputsAt(d, i + 1)
      ensures evaluated == old(evaluated) + if DoneAtOnce(gates, role, gateid) then {gateid} else {}
    {
      TriplesSkip(d, i);
      if gates[gateid].op.src == role {
        ShareValues(gateid, d, i);
      } else {
        AwaitInput(gateid, d, i);
      }
    }

    /** An output of the other party only is never instantiated here. */
    ghost method MarkDone(gateid: nat)
      requires Setup() && Store() && gateid !in evaluated && gateid < |gates| && !Held(gates, role, gateid)
      modifies this`evaluated
      ensures Store() && evaluated == old(evaluated) + {gateid}
    {
      evaluated := evaluated + {gateid};
      forall g
        ensures GateState(w, role, val, evaluated, pending, g)
      {
        assert GateState(w, role, val, old(evaluated), pending, g);
      }
    }

    // ----- sending and receiving ----------------------------------------------------------

    /** GetDataToSend. */
    method GetDataToSend(ghost d: nat) returns (sendbuf: seq<seq<bool>>)
      requires Setup() && d < maxDepth && OpenAt(d, |Layer(gates, d)|)
      ensures MessageOk(w, ands, role, d, sendbuf)
    {
      OpenAspects(d, |Layer(gates, d)|);
      sendbuf := [Bytes(inputShareSnd), Bytes(outputShareSnd)];
      for k := 0 to |mts|
        invariant |sendbuf| == 2 + 2 * k && sendbuf[0] == Bytes(inputShareSnd) && sendbuf[1] == Bytes(outputShareSnd)
        invariant forall j {:trigger ands[j]} | 0 <= j < k :: TripleChunks(w, role, d, ands[j].bitlen, sendbuf[2 + 2 * j], sendbuf[3 + 2 * j])
      {
        var dBits, eBits := GetOpenings(k, d);
        sendbuf := sendbuf + [dBits, eBits];
      }
      assert sendbuf[0][..|inputShareSnd|] == inputShareSnd && sendbuf[1][..|outputShareSnd|] == outputShareSnd;
    }

    /** The bytes of D and E that belong to the layer. */
    method GetOpenings(k: nat, ghost d: nat) returns (dBits: seq<bool>, eBits: seq<bool>)
      requires Setup() && d < maxDepth && TriplesAt(d, |Layer(gates, d)|) && k < |mts|
      ensures TripleChunks(w, role, d, ands[k].bitlen, dBits, eBits)
    {
      var mt := mts[k];
      SliceOpenings(w, role, mt, d, maxDepth);
      var mtbits := Pad8(mt.idx - mt.startIdx);
      dBits := mt.dSnd[mt.startIdx..mt.startIdx + mtbits];
      eBits := mt.eSnd[Flat(mt.startIdx, mt.bitlen)..Flat(mt.startIdx + mtbits, mt.bitlen)];
    }

    /** GetBuffersToReceive: exactly the sizes of what the other party sends. */
    method GetBuffersToReceive(ghost d: nat) returns (rcvbytes: seq<nat>)
      requires Setup() && OpenAt(d, |Layer(gates, d)|)
      ensures rcvbytes == MessageSizes(gates, ands, role.Other(), d)
    {
      OpenAspects(d, |Layer(gates, d)|);
      forall k: nat | k < |mts|
        ensures Awaits(gates, mts, ands, d, k)
      {
        assert MtAt(w, role, mts[k], d, |Layer(gates, d)|, maxDepth);
      }
      var sizes := TripleBuffers(mts, gates, ands, d);
      rcvbytes := [Pad8(inputShareRcvSize), Pad8(outputShareRcvSize)] + sizes;
    }

    /** Everything the other party sent for layer d has arrived. */
    ghost predicate Arrived(d: nat)
      reads this`mts, this`inputShareRcv, this`outputShareRcv, this`inputShareRcvSize, this`outputShareRcvSize
    {
      && inputShareRcvSize <= |inputShareRcv| && outputShareRcvSize <= |outputShareRcv|
      && SentMasks(w, role.Other(), d, |Layer(w.gs, d)|, inputShareRcv[..inputShareRcvSize])
      && SentShares(w, role.Other(), d, |Layer(w.gs, d)|, outputShareRcv[..outputShareRcvSize])
      && |mts| == |ands|
      && forall k {:trigger mts[k]} | 0 <= k < |mts| :: mts[k].bitlen == ands[k].bitlen && Exchanged(w, role, mts[k], d, maxDepth)
    }

    /** The received buffers, written to where their counterparts were read. */
    method SetReceived(rcvbuf: seq<seq<bool>>, ghost d: nat)
      requires Setup() && d < maxDepth && OpenAt(d, |Layer(gates, d)|) && MessageOk(w, ands, role.Other(), d, rcvbuf)
      modifies this`mts, this`inputShareRcv, this`outputShareRcv
      ensures Arrived(d)
    {
      OpenAspects(d, |Layer(gates, d)|);
      SetOpenings(rcvbuf, d);
      inputShareRcv, outputShareRcv := rcvbuf[0], rcvbuf[1];
      assert role.Other().Other() == role;
    }

    method SetOpenings(rcvbuf: seq<seq<bool>>, ghost d: nat)
      requires Setup() && d < maxDepth && TriplesAt(d, |Layer(gates, d)|) && MessageOk(w, ands, role.Other(), d, rcvbuf)
      modifies this`mts
      ensures |mts| == |ands|
      ensures forall k {:trigger mts[k]} | 0 <= k < |mts| :: mts[k].bitlen == ands[k].bitlen && Exchanged(w, role, mts[k], d, maxDepth)
    {
      for k := 0 to |mts|
        invariant |mts| == |ands|
        invariant forall j {:trigger mts[j]} | k <= j < |mts| :: mts[j].bitlen == ands[j].bitlen && MtAt(w, role, mts[j], d, |Layer(w.gs, d)|, maxDepth)
        invariant forall j {:trigger mts[j]} | 0 <= j < k :: mts[j].bitlen == ands[j].bitlen && Exchanged(w, role, mts[j], d, maxDepth)
      {
        var mt := PlaceReceived(mts[k], rcvbuf[2 + 2 * k], rcvbuf[3 + 2 * k], d);
        mts := mts[k := mt];
      }
    }

    method PlaceReceived(mt0: MT, dBits: seq<bool>, eBits: seq<bool>, ghost d: nat) returns (mt: MT)
      requires Setup() && d < maxDepth && MtAt(w, role, mt0, d, |Layer(w.gs, d)|, maxDepth)
      requires TripleChunks(w, role.Other(), d, mt0.bitlen, dBits, eBits)
      ensures Exchanged(w, role, mt, d, maxDepth) && mt.bitlen == mt0.bitlen
    {
      SliceOpenings(w, role, mt0, d, maxDepth);
      var start, x := mt0.startIdx, Flat(mt0.startIdx, mt0.bitlen);
      mt := mt0.(dRcv := mt0.dRcv[..start] + dBits + mt0.dRcv[start + |dBits|..],
                 eRcv := mt0.eRcv[..x] + eBits + mt0.eRcv[x + |eBits|..]);
      PlaceOpenings(w, role, mt0, mt, d, maxDepth, dBits, eBits);
    }

    // ----- finishing a layer --------------------------------------------------------------

    /** EvaluateMTs for every vector length. */
    method EvaluateAllMTs(ghost d: nat)
      requires Setup() && d < maxDepth && |mts| == |ands|
      requires forall k {:trigger mts[k]} | 0 <= k < |mts| :: mts[k].bitlen == ands[k].bitlen && Exchanged(w, role, mts[k], d, maxDepth)
      modifies this`mts
      ensures |mts| == |ands|
      ensures forall k {:trigger mts[k]} | 0 <= k < |mts| :: mts[k].bitlen == ands[k].bitlen && Computed(w, role, mts[k], d, maxDepth)
    {
      for k := 0 to |mts|
        invariant |mts| == |ands|
        invariant forall j {:trigger mts[j]} | k <= j < |mts| :: mts[j].bitlen == ands[j].bitlen && Exchanged(w, role, mts[j], d, maxDepth)
        invariant forall j {:trigger mts[j]} | 0 <= j < k :: mts[j].bitlen == ands[j].bitlen && Computed(w, role, mts[j], d, maxDepth)
      {
        var mt := ComputeResults(mts[k], k == 0 && ands[k].bitlen == 1, d);
        mts := mts[k := mt];
      }
    }

    method ComputeResults(mt0: MT, bytewise: bool, ghost d: nat) returns (mt: MT)
      requires Setup() && d < maxDepth && Exchanged(w, role, mt0, d, maxDepth) && (bytewise ==> mt0.bitlen == 1)
      ensures Computed(w, role, mt, d, maxDepth) && mt.bitlen == mt0.bitlen
    {
      FullLayer(w.gs, mt0, d, maxDepth);
      FlatMonotone(mt0.startIdx, mt0.idx, mt0.bitlen);
      mt := EvaluateMTs(role, mt0, bytewise);
      LayerResults(w, role, mt0, mt, d, maxDepth);
      NextLayer(w, role, mt0, mt, d, maxDepth);
    }

    /** The AND gates of one vector length take their values from the result vector, one after the other. */
    method AssignAnds(k: nat, ghost d: nat)
      requires Setup() && Store() && k < |mts| && Finished(w, role, mts[k], d)
      requires forall g | g in mts[k].gates :: g !in evaluated
      modifies this`val, this`evaluated
      ensures Store() && evaluated == old(evaluated) + FirstOf(mts[k].gates, |mts[k].gates|)
    {
      var mt := mts[k];
      var idx := Flat(mt.startIdx, mt.bitlen);
      for i := 0 to |mt.gates|
        invariant AndsAssigned(old(evaluated), mt, d, i, idx)
      {
        idx := AssignAnd(mt, i, idx, old(evaluated), d);
      }
    }

    /** The first i gates of the list have their values; the next one's begins at idx. */
    ghost predicate AndsAssigned(before: set<nat>, mt: MT, d: nat, i: nat, idx: nat)
      reads this`nused, this`val, this`evaluated, this`pending
    {
      && Store() && Finished(w, role, mt, d) && i <= |mt.gates| && Ids(gates, mt.gates)
      && evaluated == before + FirstOf(mt.gates, i) && (forall g | g in mt.gates :: g !in before)
      && idx == Flat(mt.startIdx, mt.bitlen) + ValuesOf(gates, mt.gates, i)
    }

    method AssignAnd(mt: MT, i: nat, idx: nat, ghost before: set<nat>, ghost d: nat) returns (next: nat)
      requires Setup() && i < |mt.gates| && AndsAssigned(before, mt, d, i, idx)
      modifies this`val, this`evaluated
      ensures AndsAssigned(before, mt, d, i + 1, next)
    {
      var gateid := mt.gates[i];
      NextMember(gates, Triple(mt.bitlen), d, i);
      AndSlice(w, role, mt, d, i, idx);
      Instantiate(gateid, mt.resA[idx..idx + gates[gateid].nvals]);
      next := idx + gates[gateid].nvals;
    }

    /** EvaluateANDGate: the values of all AND gates, then every position is padded to a byte. */
    method EvaluateANDGate(ghost d: nat)
      requires Setup() && Store() && d < maxDepth && |mts| == |ands| && evaluated == DoneSet(gates, role, ands, d, 0)
      requires forall k {:trigger mts[k]} | 0 <= k < |mts| :: mts[k].bitlen == ands[k].bitlen && Computed(w, role, mts[k], d, maxDepth)
      modifies this`val, this`evaluated, this`mts
      ensures Store() && evaluated == DoneSet(gates, role, ands, d, |ands|) && TriplesAt(d + 1, 0)
    {
      assert FactOk(AndEntries);
      for k := 0 to |mts|
        invariant Store() && |mts| == |ands| && evaluated == DoneSet(gates, role, ands, d, k)
        invariant forall j {:trigger mts[j]} | k <= j < |mts| :: mts[j].bitlen == ands[j].bitlen && Computed(w, role, mts[j], d, maxDepth)
        invariant forall j {:trigger mts[j]} | 0 <= j < k :: mts[j].bitlen == ands[j].bitlen && MtAt(w, role, mts[j], d + 1, 0, maxDepth)
      {
        ClassStep(gates, role, ands, d, k);
        AssignAnds(k, d);
        var idx := Pad8(mts[k].idx);
        mts := mts[k := mts[k].(startIdx := idx, idx := idx, gates := [])];
      }
    }

    /** The other party's inputs: the masks that were received. */
    method AssignInputShares(ghost d: nat)
      requires Setup() && Store() && inputShareGates == Members(gates, Input(role.Other()), Layer(gates, d), |Layer(gates, d)|)
      requires inputShareRcvSize <= |inputShareRcv|
      requires SentMasks(w, role.Other(), d, |Layer(w.gs, d)|, inputShareRcv[..inputShareRcvSize])
      requires forall g | g in inputShareGates :: g !in evaluated
      modifies this`val, this`evaluated
      ensures Store() && evaluated == old(evaluated) + FirstOf(inputShareGates, |inputShareGates|)
    {
      var rcvshareidx := 0;
      for i := 0 to |inputShareGates|
        invariant Store() && evaluated == old(evaluated) + FirstOf(inputShareGates, i)
        invariant rcvshareidx == Taken(gates, Input(role.Other()), inputShareGates, i)
      {
        NextMember(gates, Input(role.Other()), d, i);
        AssignInput(inputShareGates[i], rcvshareidx, d, i);
        rcvshareidx := rcvshareidx + gates[inputShareGates[i]].nvals;
      }
    }

    method AssignInput(gateid: nat, rcvshareidx: nat, ghost d: nat, ghost i: nat)
      requires Setup() && Store() && inputShareGates == Members(gates, Input(role.Other()), Layer(gates, d), |Layer(gates, d)|)
      requires inputShareRcvSize <= |inputShareRcv| && gateid !in evaluated
      requires SentMasks(w, role.Other(), d, |Layer(w.gs, d)|, inputShareRcv[..inputShareRcvSize])
      requires i < |inputShareGates| && gateid == inputShareGates[i]
      requires rcvshareidx == Taken(gates, Input(role.Other()), inputShareGates, i)
      modifies this`val, this`evaluated
      ensures Store() && evaluated == old(evaluated) + {gateid}
    {
      MemberOffset(gates, Input(role.Other()), d, i);
      GateShape(gateid);
      var v := inputShareRcv[rcvshareidx..rcvshareidx + gates[gateid].nvals];
      forall t | 0 <= t < |v|
        ensures v[t] == w.share(role, gateid, t)
      {
        assert ShareOk(w, role, gateid, t);
        assert inputShareRcv[..inputShareRcvSize][rcvshareidx + t] == w.mask(role.Other(), rcvshareidx + t);
      }
      Instantiate(gateid, v);
    }

    /** Own outputs: the party's share and the one it received. */
    method AssignOutputShares(ghost d: nat)
      requires Setup() && OutputsAssigned(evaluated, d, 0) && outputShareRcvSize <= |outputShareRcv|
      requires SentShares(w, role.Other(), d, |Layer(w.gs, d)|, outputShareRcv[..outputShareRcvSize])
      modifies this`val, this`evaluated, this`nused, this`pending
      ensures OutputsAssigned(old(evaluated), d, |outputShareGates|)
    {
      var rcvshareidx := 0;
      for i := 0 to |outputShareGates|
        invariant OutputsAssigned(old(evaluated), d, i) && AtShare(d, i, rcvshareidx)
      {
        rcvshareidx := AssignOutput(outputShareGates[i], rcvshareidx, old(evaluated), d, i);
      }
    }

    /** The share of own output i lies at position idx of what has arrived. */
    ghost predicate AtShare(d: nat, i: nat, idx: nat)
      reads this`outputShareGates, this`outputShareRcv, this`outputShareRcvSize
    {
      && Ids(gates, outputShareGates) && i <= |outputShareGates| && idx == Taken(gates, Output(role), outputShareGates, i)
      && outputShareRcvSize <= |outputShareRcv|
      && SentShares(w, role.Other(), d, |Layer(w.gs, d)|, outputShareRcv[..outputShareRcvSize])
    }

    ghost predicate OutputsAssigned(before: set<nat>, d: nat, i: nat)
      reads this`nused, this`val, this`evaluated, this`pending, this`outputShareGates
    {
      && outputShareGates == Members(w.gs, Output(role), Layer(w.gs, d), |Layer(w.gs, d)|) && i <= |outputShareGates|
      && LocalDone(w.gs, d, |LocalQueue(w.gs, d)|) <= before && (forall g | g in outputShareGates :: g !in before)
      && Store() && evaluated == before + FirstOf(outputShareGates, i)
      && pending == Rest(w.gs, UsedSet(w.gs, role, d, i), |w.gs|)
    }

    method AssignOutput(gateid: nat, rcvshareidx: nat, ghost before: set<nat>, ghost d: nat, ghost i: nat) returns (next: nat)
      requires Setup() && OutputsAssigned(before, d, i) && i < |outputShareGates| && gateid == outputShareGates[i]
      requires AtShare(d, i, rcvshareidx)
      modifies this`val, this`evaluated, this`nused, this`pending
      ensures OutputsAssigned(before, d, i + 1) && AtShare(d, i + 1, next)
    {
      NextOutput(before, d, i);
      ShareArrived(d, i, rcvshareidx);
      StoreOutput(gateid, rcvshareidx);
      next := rcvshareidx + gates[gateid].nvals;
    }

    /** The next output has been evaluated neither before nor in this list, its operand has, and is to be used once more. */
    lemma NextOutput(before: set<nat>, d: nat, i: nat)
      requires Setup() && OutputsAssigned(before, d, i) && i < |outputShareGates|
      ensures var g := outputShareGates[i];
              && Held(gates, role, g) && gates[g].op.Out? && g !in evaluated
              && before + FirstOf(outputShareGates, i + 1) == evaluated + {g}
              && var p := gates[g].op.parent;
                 && Held(gates, role, p) && p in evaluated && p in pending
                 && Rest(gates, UsedSet(gates, role, d, i + 1), |gates|) == pending - multiset{p}
    {
      NextMember(gates, Output(role), d, i);
      OutputPending(gates, role, d, i);
    }

    lemma ShareArrived(d: nat, i: nat, idx: nat)
      requires AtShare(d, i, idx) && w.gs == gates && outputShareGates == Members(w.gs, Output(role), Layer(w.gs, d), |Layer(w.gs, d)|)
      requires i < |outputShareGates|
      ensures idx == Offset(gates, Output(role), outputShareGates[i])
      ensures SentShare(w, role.Other(), outputShareGates[i], outputShareRcv[..outputShareRcvSize])
    {
      ArrivedShare(w, role, d, i, outputShareRcv[..outputShareRcvSize]);
    }

    method StoreOutput(gateid: nat, rcvshareidx: nat)
      requires Setup() && Store() && Held(gates, role, gateid) && gates[gateid].op.Out? && gateid !in evaluated
      requires rcvshareidx == Offset(gates, Output(role), gateid) && outputShareRcvSize <= |outputShareRcv|
      requires SentShare(w, role.Other(), gateid, outputShareRcv[..outputShareRcvSize])
      requires var p := gates[gateid].op.parent; Held(gates, role, p) && p in evaluated && p in pending
      modifies this`val, this`evaluated, this`nused, this`pending
      ensures Store() && evaluated == old(evaluated) + {gateid}
      ensures pending == old(pending) - multiset{gates[gateid].op.parent}
    {
      var parentid := gates[gateid].op.parent;
      Stored(parentid);
      var v := OutputValue(gateid, rcvshareidx);
      Instantiate(gateid, v);
      UsedGate(parentid);
    }

    method OutputValue(gateid: nat, rcvshareidx: nat) returns (v: seq<bool>)
      requires Setup() && gateid < |gates| && gates[gateid].op.Out?
      requires rcvshareidx == Offset(gates, Output(role), gateid) && outputShareRcvSize <= |outputShareRcv|
      requires SentShare(w, role.Other(), gateid, outputShareRcv[..outputShareRcvSize])
      requires var p := gates[gateid].op.parent; p < |gates| && p in val && val[p] == Share(w, role, p)
      ensures v == Share(w, role, gateid)
    {
      var share, rcv := val[gates[gateid].op.parent], outputShareRcv[..outputShareRcvSize];
      GateShape(gateid);
      assert role.Other().Other() == role;
      v := seq(gates[gateid].nvals,
               t requires 0 <= t < |share| && rcvshareidx + t < |rcv| => share[t] != rcv[rcvshareidx + t]);
      forall t | 0 <= t < |v|
        ensures v[t] == w.share(role, gateid, t)
      {
        assert ShareOk(w, role, gateid, t);
      }
    }

    /** Layer d can begin: all layers before it have been evaluated, and nothing of it is open. */
    ghost predicate LayerStart(d: nat)
      reads this`nused, this`val, this`evaluated, this`pending, this`mts,
            this`inputShareSnd, this`inputShareRcvSize, this`inputShareGates,
            this`outputShareSnd, this`outputShareRcvSize, this`outputShareGates
    {
      && Store() && evaluated == Before(w.gs, d) && pending == Rest(w.gs, Before(w.gs, d), |w.gs|)
      && TriplesAt(d, 0) && InputsAt(d, 0) && OutputsAt(d, 0)
    }

    method FinishCircuitLayer(ghost d: nat)
      requires Setup() && d < maxDepth && Store() && Progress(d, |Layer(gates, d)|)
      requires InputsAt(d, |Layer(gates, d)|) && OutputsAt(d, |Layer(gates, d)|) && Arrived(d)
      modifies this
      ensures LayerStart(d + 1)
    {
      SharesAreDue(d);
      FinishAnds(d);
      FinishShares(d);
    }

    /** EvaluateMTs and EvaluateANDGate. */
    method FinishAnds(ghost d: nat)
      requires Setup() && d < maxDepth && Store() && Progress(d, |Layer(gates, d)|) && Arrived(d)
      modifies this`val, this`evaluated, this`mts
      ensures Store() && evaluated == DoneSet(gates, role, ands, d, |ands|) && TriplesAt(d + 1, 0)
    {
      assert ClassDone(gates, ands, d, 0) == {};
      EvaluateAllMTs(d);
      EvaluateANDGate(d);
    }

    /** What is left of the layer: the other party's inputs and the own outputs, for which everything has arrived. */
    ghost predicate SharesDue(d: nat)
      reads this`pending, this`inputShareGates, this`outputShareGates, this`inputShareRcv, this`outputShareRcv,
            this`inputShareRcvSize, this`outputShareRcvSize
    {
      && pending == Rest(gates, LocalDone(gates, d, |LocalQueue(gates, d)|) + UsedNow(gates, role, Layer(gates, d), |Layer(gates, d)|), |gates|)
      && inputShareGates == MembersOf(gates, Input(role.Other()), d) && outputShareGates == MembersOf(gates, Output(role), d)
      && inputShareRcvSize <= |inputShareRcv| && outputShareRcvSize <= |outputShareRcv|
      && SentMasks(w, role.Other(), d, |Layer(w.gs, d)|, inputShareRcv[..inputShareRcvSize])
      && SentShares(w, role.Other(), d, |Layer(w.gs, d)|, outputShareRcv[..outputShareRcvSize])
    }

    lemma SharesAreDue(d: nat)
      requires Setup() && d < maxDepth && Progress(d, |Layer(gates, d)|)
      requires InputsAt(d, |Layer(gates, d)|) && OutputsAt(d, |Layer(gates, d)|) && Arrived(d)
      ensures SharesDue(d)
    {
    }

    /** AssignInputShares, AssignOutputShares and InitNewLayer. */
    method FinishShares(ghost d: nat)
      requires Setup() && d < maxDepth && Store() && evaluated == DoneSet(gates, role, ands, d, |ands|)
      requires SharesDue(d)
      modifies this`val, this`evaluated, this`nused, this`pending, this`inputShareSnd, this`inputShareRcvSize, this`inputShareGates,
               this`outputShareSnd, this`outputShareRcvSize, this`outputShareGates
      ensures Store() && evaluated == Before(gates, d + 1) && pending == Rest(gates, Before(gates, d + 1), |gates|)
      ensures InputsAt(d + 1, 0) && OutputsAt(d + 1, 0)
    {
      FinishInputShares(d);
      FinishOutputShares(d);
      InitNewLayer(d + 1);
    }

    /** Inputs have been assigned, outputs come next. */
    ghost predicate OutputsDue(d: nat)
      reads this`nused, this`val, this`evaluated, this`pending, this`outputShareGates, this`outputShareRcv, this`outputShareRcvSize
    {
      && OutputsAssigned(DoneSet(gates, role, ands, d, |ands|) + FirstOf(MembersOf(gates, Input(role.Other()), d), |MembersOf(gates, Input(role.Other()), d)|), d, 0)
      && outputShareRcvSize <= |outputShareRcv|
      && SentShares(w, role.Other(), d, |Layer(w.gs, d)|, outputShareRcv[..outputShareRcvSize])
    }

    method FinishInputShares(ghost d: nat)
      requires Setup() && d < maxDepth && Store() && evaluated == DoneSet(gates, role, ands, d, |ands|)
      requires SharesDue(d)
      modifies this`val, this`evaluated
      ensures OutputsDue(d)
    {
      assert FactOk(AndEntries);
      LayerSets(gates, role, ands, d);
      assert UsedSet(gates, role, d, 0) ==
             LocalDone(gates, d, |LocalQueue(gates, d)|) + UsedNow(gates, role, Layer(gates, d), |Layer(gates, d)|);
      AssignInputShares(d);
      assert evaluated + FirstOf(outputShareGates, 0) == evaluated;
    }

    method FinishOutputShares(ghost d: nat)
      requires Setup() && d < maxDepth && OutputsDue(d)
      modifies this`val, this`evaluated, this`nused, this`pending
      ensures Store() && evaluated == Before(gates, d + 1) && pending == Rest(gates, Before(gates, d + 1), |gates|)
    {
      assert FactOk(AndEntries);
      LayerSets(gates, role, ands, d);
      assert evaluated + FirstOf(outputShareGates, 0) == evaluated;
      AssignOutputShares(d);
    }

    /** All buffers of the layer are cleared. */
    method InitNewLayer(ghost d: nat)
      modifies this`inputShareSnd, this`inputShareRcvSize, this`inputShareGates,
               this`outputShareSnd, this`outputShareRcvSize, this`outputShareGates
      ensures InputsAt(d, 0) && OutputsAt(d, 0)
    {
      inputShareSnd, inputShareRcvSize, inputShareGates := [], 0, [];
      outputShareSnd, outputShareRcvSize, outputShareGates := [], 0, [];
    }

    // ----- setup --------------------------------------------------------------------------

    constructor (r: Role, gs: seq<Gate>, localQueues: seq<seq<nat>>, interactiveQueues: seq<seq<nat>>, layers: nat,
                 andEntries: seq<NonLinCtx>, uses: seq<nat>, values: map<nat, seq<bool>>, masks: nat -> bool, ghost world: World)
      requires world.gs == gs && Runnable(gs) && SharesOk(world) && NusedOk(gs, uses)
      requires QueuesOk(BOOL, gs, false, localQueues) && QueuesOk(BOOL, gs, true, interactiveQueues)
      requires layers == Max(|localQueues|, |interactiveQueues|) && AndsOk(gs, andEntries)
      requires forall i :: masks(i) == world.mask(r, i)
      requires forall g: nat | g < |gs| && gs[g].op == In(r) ::
                 g in values && |values[g]| == gs[g].nvals && forall t | 0 <= t < gs[g].nvals :: values[g][t] == world.inp(g, t)
      ensures role == r && gates == gs && ands == andEntries && maxDepth == layers && w == world
      ensures Setup() && Initial()
    {
      role, gates, localQueueOnLvl, interactiveQueueOnLvl := r, gs, localQueues, interactiveQueues;
      maxDepth, ands, inputs, randomness, w := layers, andEntries, values, masks, world;
      nused, val, evaluated, pending := uses, map[], {}, Uses(gs);
      inputShareSnd, inputShareRcv, inputShareRcvSize, inputShareGates := [], [], 0, [];
      outputShareSnd, outputShareRcv, outputShareRcvSize, outputShareGates := [], [], 0, [];
      mts := [];
      new;
      forall fact
        ensures FactOk(fact)
      {
      }
    }

    ghost predicate Initial()
      reads this
    {
      && NusedOk(gates, nused) && val == map[] && evaluated == {} && pending == Uses(gates) && mts == []
      && inputShareSnd == outputShareSnd == [] && inputShareRcvSize == outputShareRcvSize == 0
      && inputShareGates == outputShareGates == []
    }

    /**
      PrepareSetupPhase and ComputeMTs: choice, x0 and x1 are the party's own random values, chosen
      is what its oblivious transfers delivered, all by vector length and position.
     */
    method PrepareSetupPhase(choice: (nat, nat) -> bool, x0: (nat, nat) -> bool, x1: (nat, nat) -> bool, chosen: (nat, nat) -> bool)
      requires Setup() && Initial()
      requires forall bl: nat, i: nat | bl > 0 ::
                 && choice(bl, i) == w.choice(role, bl, i) && x0(bl, i) == w.x0(role, bl, i) && x1(bl, i) == w.x1(role, bl, i)
                 && chosen(bl, i) == Chosen(w, role, bl, i)
      modifies this`mts
      ensures LayerStart(0)
    {
      StoreAtStart();
      InitializeMTs(choice, x0, x1, chosen);
    }

    /** Nothing has been evaluated, and all registered uses are still to come. */
    lemma StoreAtStart()
      requires Setup() && NusedOk(gates, nused) && val == map[] && evaluated == {} && pending == Uses(gates)
      ensures Store() && Before(w.gs, 0) == {} && pending == Rest(w.gs, {}, |w.gs|)
    {
      assert gates[..|gates|] == gates;
      RestAtStart(gates, |gates|);
      forall g
        ensures GateState(w, role, val, evaluated, pending, g)
      {
      }
    }

    /** The triples of every vector length, with a byte of padding for every layer. */
    method InitializeMTs(choice: (nat, nat) -> bool, x0: (nat, nat) -> bool, x1: (nat, nat) -> bool, chosen: (nat, nat) -> bool)
      requires Setup() && mts == []
      requires forall bl: nat, i: nat | bl > 0 ::
                 && choice(bl, i) == w.choice(role, bl, i) && x0(bl, i) == w.x0(role, bl, i) && x1(bl, i) == w.x1(role, bl, i)
                 && chosen(bl, i) == Chosen(w, role, bl, i)
      modifies this`mts
      ensures TriplesAt(0, 0)
    {
      assert FactOk(AndEntries);
      for k := 0 to |ands|
        invariant |mts| == k
        invariant forall j {:trigger mts[j]} | 0 <= j < k :: mts[j].bitlen == ands[j].bitlen && MtAt(w, role, mts[j], 0, 0, maxDepth)
      {
        assert EntryOk(gates, ands, k);
        var bl, num := ands[k].bitlen, NumMTs(ands[k].numgates, maxDepth);
        var bits := Flat(num, bl);
        var zeros := Zeros(bits);
        var mt := MT(bl, num, seq(num, i requires 0 <= i => choice(bl, i)), seq(bits, i requires 0 <= i => x1(bl, i)),
                     seq(bits, i requires 0 <= i => x0(bl, i)), Zeros(num), zeros, Zeros(num), zeros, zeros, zeros, 0, 0, []);
        mt := ComputeMTs(mt, seq(bits, i requires 0 <= i => chosen(bl, i)), w, role);
        mts := mts + [mt];
      }
    }

    lemma InputsSkip(d: nat, i: nat)
      requires InputsAt(d, i) && i < |Layer(w.gs, d)| && !w.gs[Layer(w.gs, d)[i]].op.In?
      ensures InputsAt(d, i + 1)
    {
    }

    lemma OutputsSkip(d: nat, i: nat)
      requires OutputsAt(d, i) && i < |Layer(w.gs, d)| && !w.gs[Layer(w.gs, d)[i]].op.Out?
      ensures OutputsAt(d, i + 1)
    {
      SentSharesSkip(w, role, d, i, outputShareSnd);
    }

    lemma TriplesSkip(d: nat, i: nat)
      requires TriplesAt(d, i) && i < |Layer(w.gs, d)| && !IsAnd(w.gs[Layer(w.gs, d)[i]].op)
      ensures TriplesAt(d, i + 1)
    {
      forall k | 0 <= k < |mts|
        ensures MtAt(w, role, mts[k], d, i + 1, maxDepth)
      {
        SkipStep(w, role, mts[k], d, i, maxDepth);
      }
    }
  }

  /** The next gate takes what follows the gates before it. */
  lemma NextOffset(w: World, s: Stock, d: nat, i: nat)
    requires i < |Layer(w.gs, d)|
    ensures Offset(w.gs, s, Layer(w.gs, d)[i]) == Taken(w.gs, s, Layer(w.gs, d), i)
  {
    OffsetInLayer(w.gs, s, d, i);
  }

  /** The shares of one more output are appended to the message. */
  lemma SentSharesStep(w: World, r: Role, d: nat, i: nat, snd: seq<bool>, bits: seq<bool>)
    requires SentShares(w, r, d, i, snd) && i < |Layer(w.gs, d)| && Belongs(w.gs, Output(r.Other()), Layer(w.gs, d)[i])
    requires var g := Layer(w.gs, d)[i];
             |bits| == w.gs[g].nvals && forall t | 0 <= t < |bits| :: bits[t] == w.share(r, w.gs[g].op.parent, t)
    ensures SentShares(w, r, d, i + 1, snd + bits)
  {
    var q, s := Layer(w.gs, d), Output(r.Other());
    NextOffset(w, s, d, i);
    var m, m2 := Members(w.gs, s, q, i), Members(w.gs, s, q, i + 1);
    forall k | 0 <= k < |m2|
      ensures SentShare(w, r, m2[k], snd + bits)
    {
      if k < |m| {
        assert SentShare(w, r, m[k], snd);
      }
    }
  }

  lemma SentSharesSkip(w: World, r: Role, d: nat, i: nat, snd: seq<bool>)
    requires SentShares(w, r, d, i, snd) && i < |Layer(w.gs, d)| && !Belongs(w.gs, Output(r.Other()), Layer(w.gs, d)[i])
    ensures SentShares(w, r, d, i + 1, snd)
  {
    var q, s := Layer(w.gs, d), Output(r.Other());
    assert Members(w.gs, s, q, i + 1) == Members(w.gs, s, q, i);
  }

  lemma {:induction false} NowMembers(gs: seq<Gate>, r: Role, q: seq<nat>, i: nat, g: nat)
    requires i <= |q| && forall k | 0 <= k < i :: q[k] != g
    ensures g !in UsedNow(gs, r, q, i) && g !in DoneNow(gs, r, q, i)
  {
    if i > 0 {
      NowMembers(gs, r, q, i - 1, g);
    }
  }

  /** Progress by one gate. */
  lemma ProgressStep(gs: seq<Gate>, r: Role, d: nat, i: nat, e0: set<nat>, p0: multiset<nat>, e1: set<nat>, p1: multiset<nat>)
    requires i < |Layer(gs, d)| && ProgressAt(gs, r, e0, p0, d, i)
    requires var g := Layer(gs, d)[i];
             && e1 == e0 + (if DoneAtOnce(gs, r, g) then {g} else {})
             && p1 == p0 - if UsesAtOnce(gs, r, g) then multiset(Parents(gs[g].op)) else multiset{}
    ensures ProgressAt(gs, r, e1, p1, d, i + 1)
  {
    var g, q, local := Layer(gs, d)[i], Layer(gs, d), LocalDone(gs, d, |LocalQueue(gs, d)|);
    InteractiveNew(gs, d, i);
    NowMembers(gs, r, q, i, g);
    UsedNext(local, UsedNow(gs, r, q, i), UsedNow(gs, r, q, i + 1), g, UsesAtOnce(gs, r, g));
    UsedNext(local, DoneNow(gs, r, q, i), DoneNow(gs, r, q, i + 1), g, DoneAtOnce(gs, r, g));
    if UsesAtOnce(gs, r, g) {
      UseTaken(gs, local + UsedNow(gs, r, q, i), g);
    }
  }

  lemma UsedNext(local: set<nat>, now: set<nat>, next: set<nat>, g: nat, one: bool)
    requires next == now + if one then {g} else {}
    ensures local + next == if one then local + now + {g} else local + now
  {
  }

  lemma UseTaken(gs: seq<Gate>, used: set<nat>, g: nat)
    requires g < |gs| && g !in used
    ensures Rest(gs, used + {g}, |gs|) == Rest(gs, used, |gs|) - multiset(Parents(gs[g].op))
  {
    RestStep(gs, used, |gs|, g);
  }

  lemma PrefixUses(uses: multiset<nat>, ps: seq<nat>, i: nat)
    requires i < |ps| && multiset(ps) <= uses
    ensures ps[i] in uses - multiset(ps[..i])
    ensures uses - multiset(ps[..i]) - multiset{ps[i]} == uses - multiset(ps[..i + 1])
  {
    assert ps == ps[..i] + ([ps[i]] + ps[i + 1..]);
    assert ps[..i + 1] == ps[..i] + [ps[i]];
  }

  lemma RowIndex(base: nat, i: nat, n: nat)
    requires i < n && base % n == 0
    ensures (base + i) % n == i && (base + i) / n == base / n
  {
    DivModUnique(base + i, base / n, i, n);
  }

  lemma RowEnd(base: nat, n: nat, total: nat)
    requires n > 0 && base % n == 0 && total % n == 0 && base < total
    ensures base + n <= total && (base + n) % n == 0 && (base + n) / n == base / n + 1
  {
    DivModUnique(base + n, base / n + 1, 0, n);
    var q := total / n - base / n;
    assert total == n * (total / n) && base == n * (base / n);
    assert n * q == total - base;
    MulAtLeast(n, q);
    assert n * q > 0;
  }
}
