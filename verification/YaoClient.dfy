/** The evaluator of Yao's protocol. */
module YaoClientParty {
  import opened Bits
  import opened Circuit
  import opened Builder
  import opened Garbling
  import opened YaoOrder
  import opened YaoSpec
  import opened YaoMessage

  // ----- what the client holds ------------------------------------------------------------

  /** The key of every value is the one that the run delivers to the evaluator. */
  predicate ActiveAt(w: Run, yval: map<nat, seq<Key>>, g: nat) {
    g < |w.gs| && g in yval && yval[g] == ActivesOf(w, g)
  }

  /** Before layer d, every wire that is ready by then has its key. */
  predicate Evaluated(w: Run, d: nat, yval: map<nat, seq<Key>>, g: nat) {
    g < |w.gs| && !w.gs[g].op.Out? && w.gs[g].depth < d && Ready(w.gs[g]) <= d ==> ActiveAt(w, yval, g)
  }

  ghost predicate StoreOk(w: Run, d: nat, yval: map<nat, seq<Key>>) {
    forall g: nat {:trigger Evaluated(w, d, yval, g)} :: Evaluated(w, d, yval, g)
  }

  ghost predicate AllActive(w: Run, q: seq<nat>, i: nat, yval: map<nat, seq<Key>>)
    requires i <= |q|
  {
    forall k {:trigger q[k]} | 0 <= k < i :: ActiveAt(w, yval, q[k])
  }

  /** The operands of the next gate of a layer have their keys. */
  lemma OperandActiveAt(w: Run, d: nat, i: nat, yval: map<nat, seq<Key>>, g: nat, k: nat)
    requires WellFormed(YAO, w.gs) && StoreOk(w, d, yval) && i <= |LocalGates(w.gs, d)| && AllActive(w, LocalGates(w.gs, d), i, yval)
    requires g < |w.gs| && w.gs[g].depth == d && k < |Parents(w.gs[g].op)|
    requires if i < |LocalGates(w.gs, d)| then g == LocalGates(w.gs, d)[i] else Interactive(YAO, w.gs[g].op)
    ensures var p := Parents(w.gs[g].op)[k]; p < g && !w.gs[p].op.Out? && ActiveAt(w, yval, p)
  {
    var p := Parents(w.gs[g].op)[k];
    OperandLocal(w.gs, g, p);
    ParentSchedule(YAO, w.gs, g, p);
    if w.gs[p].depth < d {
      assert Evaluated(w, d, yval, p);
    } else {
      var local := LocalGates(w.gs, d);
      QueueMembers(YAO, w.gs, false, d, |w.gs|, p);
      if i < |local| {
        LocalBefore(w.gs, i, d, p);
        var j :| 0 <= j < i && local[j] == p;
      } else {
        var j :| 0 <= j < |local| && local[j] == p;
      }
    }
  }

  /** An operand with its keys, at least as long as the gate. */
  ghost predicate KeysFor(w: Run, p: nat, nvals: nat, keys: seq<Key>) {
    p < |w.gs| && w.gs[p].nvals >= nvals && keys == ActivesOf(w, p)
  }

  // ----- evaluating a gate ----------------------------------------------------------------

  lemma ActiveIs(w: Run, g: nat, t: nat)
    requires RunOk(w) && Ordered(w.gs) && g < |w.gs| && t < w.gs[g].nvals
    ensures w.gs[g].op.Lin? ==> w.active(g, t) == Xor(w.active(w.gs[g].op.left, t), w.active(w.gs[g].op.right, t))
    ensures w.gs[g].op.Inv? ==> w.active(g, t) == w.active(w.gs[g].op.parent, t)
    ensures w.gs[g].op.Constant? ==> w.active(g, t) == Zero(w.kappa)
  {
    assert Assigned(w, g) && KeysOk(w, g, t) && OrderedAt(w.gs, g);
  }

  lemma AndActiveIs(w: Run, g: nat, t: nat)
    requires RunOk(w) && Ordered(w.gs) && g < |w.gs| && t < w.gs[g].nvals && w.gs[g].op.NonLin?
    ensures var l, r, ctr := w.active(w.gs[g].op.left, t), w.active(w.gs[g].op.right, t), TableAt(w, g, t);
            w.active(g, t) == EvalAnd(l, r, w.enc(l, 2 * ctr), w.enc(r, 2 * ctr + 1), AndRows(w)(g, t))
  {
    assert Assigned(w, g) && KeysOk(w, g, t) && OrderedAt(w.gs, g);
  }

  lemma UnivActiveIs(w: Run, g: nat, t: nat)
    requires RunOk(w) && Ordered(w.gs) && g < |w.gs| && t < w.gs[g].nvals && w.gs[g].op.Univ?
    ensures var l, r := w.active(w.gs[g].op.left, t), w.active(w.gs[g].op.right, t);
            w.active(g, t) == EvalUniv(Last(l), Last(r), w.pad(l, r, 2 * Bit(Last(l)) + Bit(Last(r))), UnivRows(w)(g, t))
  {
    assert Assigned(w, g) && KeysOk(w, g, t) && OrderedAt(w.gs, g);
  }

  /** The key of a client input comes out of its masked pair. */
  lemma InputActiveIs(w: Run, g: nat, t: nat)
    requires RunOk(w) && Ordered(w.gs) && g < |w.gs| && t < w.gs[g].nvals && w.gs[g].op == In(CLIENT)
    ensures var j := TransferAt(w, g, t); w.active(g, t) == Xor(Masked(w, w.choice(j))(g, t), Mask(w, j))
  {
    assert Assigned(w, g) && KeysOk(w, g, t) && OrderedAt(w.gs, g);
  }

  method EvaluateXor(g: nat, nvals: nat, lkey: seq<Key>, rkey: seq<Key>, ghost w: Run) returns (keys: seq<Key>)
    requires Correct(w) && g < |w.gs| && nvals == w.gs[g].nvals && w.gs[g].op.Lin?
    requires KeysFor(w, w.gs[g].op.left, nvals, lkey) && KeysFor(w, w.gs[g].op.right, nvals, rkey)
    ensures keys == ActivesOf(w, g)
  {
    keys := [];
    for t := 0 to nvals
      invariant |keys| == t && forall k: nat | k < t :: keys[k] == w.active(g, k)
    {
      ActiveIs(w, g, t);
      keys := keys + [Xor(lkey[t], rkey[t])];
    }
  }

  /** The server did the inversion. */
  method EvaluateInversion(g: nat, nvals: nat, key: seq<Key>, ghost w: Run) returns (keys: seq<Key>)
    requires Correct(w) && g < |w.gs| && nvals == w.gs[g].nvals && w.gs[g].op.Inv?
    requires KeysFor(w, w.gs[g].op.parent, nvals, key)
    ensures keys == ActivesOf(w, g)
  {
    keys := key[..nvals];
    forall t: nat | t < nvals
      ensures keys[t] == w.active(g, t)
    {
      ActiveIs(w, g, t);
    }
  }

  method EvaluateConstant(g: nat, nvals: nat, kappa: nat, ghost w: Run) returns (keys: seq<Key>)
    requires Correct(w) && g < |w.gs| && nvals == w.gs[g].nvals && w.gs[g].op.Constant? && kappa == w.kappa
    ensures keys == ActivesOf(w, g)
  {
    keys := seq(nvals, _ => Zero(kappa));
    forall t: nat | t < nvals
      ensures keys[t] == w.active(g, t)
    {
      ActiveIs(w, g, t);
    }
  }

  /** EvaluateGarbledTable for all values of a gate. */
  method EvaluateAnds(g: nat, nvals: nat, lkey: seq<Key>, rkey: seq<Key>, table: seq<HalfGates>, garbledTableCtr: nat,
                      enc: (Key, nat) -> Key, ghost w: Run) returns (keys: seq<Key>)
    requires Correct(w) && g < |w.gs| && nvals == w.gs[g].nvals && w.gs[g].op.NonLin? && w.enc == enc
    requires KeysFor(w, w.gs[g].op.left, nvals, lkey) && KeysFor(w, w.gs[g].op.right, nvals, rkey)
    requires garbledTableCtr == Place(w.gs, w.layers, AndTables, g) && garbledTableCtr + nvals <= |table|
    requires table[garbledTableCtr..garbledTableCtr + nvals] == Block(w.gs, AndTables, AndRows(w), g)
    ensures keys == ActivesOf(w, g)
  {
    keys := [];
    for t := 0 to nvals
      invariant |keys| == t && forall k: nat | k < t :: keys[k] == w.active(g, k)
    {
      AndActiveIs(w, g, t);
      var ctr := garbledTableCtr + t;
      assert table[ctr] == table[garbledTableCtr..garbledTableCtr + nvals][t];
      keys := keys + [EvalAnd(lkey[t], rkey[t], enc(lkey[t], 2 * ctr), enc(rkey[t], 2 * ctr + 1), table[ctr])];
    }
  }

  method EvaluateUnivs(g: nat, nvals: nat, lkey: seq<Key>, rkey: seq<Key>, table: seq<Rows>, tableCtr: nat,
                       pad: (Key, Key, nat) -> Key, ghost w: Run) returns (keys: seq<Key>)
    requires Correct(w) && g < |w.gs| && nvals == w.gs[g].nvals && w.gs[g].op.Univ? && w.pad == pad
    requires KeysFor(w, w.gs[g].op.left, nvals, lkey) && KeysFor(w, w.gs[g].op.right, nvals, rkey)
    requires tableCtr == Place(w.gs, w.layers, UnivTables, g) && tableCtr + nvals <= |table|
    requires table[tableCtr..tableCtr + nvals] == Block(w.gs, UnivTables, UnivRows(w), g)
    ensures keys == ActivesOf(w, g)
  {
    keys := [];
    for t := 0 to nvals
      invariant |keys| == t && forall k: nat | k < t :: keys[k] == w.active(g, k)
    {
      UnivActiveIs(w, g, t);
      assert table[tableCtr + t] == table[tableCtr..tableCtr + nvals][t];
      var lbit, rbit := Last(lkey[t]), Last(rkey[t]);
      keys := keys + [EvalUniv(lbit, rbit, pad(lkey[t], rkey[t], 2 * Bit(lbit) + Bit(rbit)), table[tableCtr + t])];
    }
  }

  /** The client's own half of an output is the last bit of its key. */
  method LastBits(g: nat, nvals: nat, keys: seq<Key>, ghost w: Run) returns (bits: seq<bool>)
    requires g < |w.gs| && nvals == w.gs[g].nvals && w.gs[g].op.Out? && KeysFor(w, w.gs[g].op.parent, nvals, keys)
    ensures bits == Block(w.gs, OutputBits, OutBit(w), g)
  {
    bits := [];
    for t := 0 to nvals
      invariant |bits| == t && forall k: nat | k < t :: bits[k] == OutBit(w)(g, k)
    {
      bits := bits + [Last(keys[t])];
    }
  }

  /** What the client decodes an output to, from the bits that the server has sent it. */
  function Decoded(w: Run, bits: seq<bool>): (nat, nat) -> bool {
    (g: nat, t: nat) => OutBit(w)(g, t) != At(bits, Place(w.gs, w.layers, ClientBits, g) + t)
  }

  lemma DecodedIs(w: Run, bits: seq<bool>, g: nat, t: nat, at: nat)
    requires g < |w.gs| && w.gs[g].op.Out? && at == Place(w.gs, w.layers, ClientBits, g) + t && at < |bits|
    ensures Decoded(w, bits)(g, t) == (Last(w.active(w.gs[g].op.parent, t)) != bits[at])
  {
    assert At(bits, at) == bits[at] && OutBit(w)(g, t) == Last(w.active(w.gs[g].op.parent, t));
  }

  method DecodeOutput(g: nat, nvals: nat, keys: seq<Key>, rcvBuf: seq<bool>, ctr: nat, ghost w: Run) returns (v: seq<bool>)
    requires g < |w.gs| && nvals == w.gs[g].nvals && w.gs[g].op.Out? && KeysFor(w, w.gs[g].op.parent, nvals, keys)
    requires ctr == Place(w.gs, w.layers, ClientBits, g) && ctr + nvals <= |rcvBuf|
    ensures v == Block(w.gs, OutputBits, Decoded(w, rcvBuf), g)
  {
    v := [];
    ghost var decoded := Decoded(w, rcvBuf);
    for t := 0 to nvals
      invariant |v| == t && forall k: nat | k < t :: v[k] == decoded(g, k)
    {
      DecodedIs(w, rcvBuf, g, t, ctr + t);
      v := v + [Last(keys[t]) != rcvBuf[ctr + t]];
    }
  }

  // ----- one round ------------------------------------------------------------------------

  function InputBit(w: Run): (nat, nat) -> bool {
    (g: nat, t: nat) => w.inp(g, t)
  }

  /** What the client has collected in a round. */
  datatype Round = Round(inputs: seq<bool>, inGates: seq<nat>, keyBits: nat, keyGates: seq<nat>, outBits: seq<bool>, decoded: nat)

  /** After i interactive gates of layer d, which stand in the order from position base on. */
  function RoundAt(w: Run, d: nat, base: nat, i: nat): Round
    requires i <= |InteractiveGates(w.gs, d)| && base + i <= |Order(w.gs, w.layers)|
  {
    var inter := InteractiveGates(w.gs, d);
    Round(Strung(w.gs, ClientKeys, InputBit(w), inter, i), Drawers(w.gs, ClientKeys, inter, i),
          Drawn(w.gs, ServerKeys, inter, i), Drawers(w.gs, ServerKeys, inter, i),
          Strung(w.gs, ServerBits, OutBit(w), inter, i), Drawn(w.gs, ClientBits, Order(w.gs, w.layers), base + i))
  }

  /** What one more gate adds. */
  function RoundEntered(w: Run, r: Round, g: nat): Round
    requires g < |w.gs|
  {
    Round(r.inputs + Block(w.gs, ClientKeys, InputBit(w), g), r.inGates + (if Draws(w.gs, ClientKeys, g) then [g] else []),
          r.keyBits + Amount(w.gs, ServerKeys, g), r.keyGates + (if Draws(w.gs, ServerKeys, g) then [g] else []),
          r.outBits + Block(w.gs, ServerBits, OutBit(w), g), r.decoded + Amount(w.gs, ClientBits, g))
  }

  lemma RoundStep(w: Run, d: nat, base: nat, i: nat)
    requires Slice(w.gs, w.layers, InteractiveGates(w.gs, d), base) && i < |InteractiveGates(w.gs, d)|
    ensures RoundEntered(w, RoundAt(w, d, base, i), InteractiveGates(w.gs, d)[i]) == RoundAt(w, d, base, i + 1)
  {
    SliceAt(w.gs, w.layers, InteractiveGates(w.gs, d), base, i);
  }

  lemma RoundPlace(w: Run, d: nat, base: nat, i: nat)
    requires Slice(w.gs, w.layers, InteractiveGates(w.gs, d), base) && i < |InteractiveGates(w.gs, d)|
    ensures RoundAt(w, d, base, i).decoded == Place(w.gs, w.layers, ClientBits, InteractiveGates(w.gs, d)[i])
  {
    SlicePlace(w.gs, w.layers, ClientBits, InteractiveGates(w.gs, d), base, i);
  }

  lemma RoundWhere(w: Run, r: Round, g: nat)
    requires g < |w.gs|
    ensures w.gs[g].op == In(SERVER) ==>
              RoundEntered(w, r, g) == r.(keyBits := r.keyBits + w.gs[g].nvals, keyGates := r.keyGates + [g])
    ensures w.gs[g].op == In(CLIENT) ==>
              RoundEntered(w, r, g) == r.(inputs := r.inputs + Block(w.gs, ClientKeys, InputBit(w), g), inGates := r.inGates + [g])
    ensures w.gs[g].op.Out? ==>
              RoundEntered(w, r, g) ==
              r.(outBits := r.outBits + (if w.gs[g].op.dst.Includes(SERVER) then Block(w.gs, OutputBits, OutBit(w), g) else []),
                 decoded := r.decoded + if w.gs[g].op.dst.Includes(CLIENT) then w.gs[g].nvals else 0)
  {
    assert w.gs[g].op != In(CLIENT) ==> Block(w.gs, ClientKeys, InputBit(w), g) == [];
    assert Block(w.gs, ServerBits, OutBit(w), g) == if Draws(w.gs, ServerBits, g) then Block(w.gs, OutputBits, OutBit(w), g) else [];
  }

  /** Correcting the inputs by the random choices, all bits of a round at once. */
  method CorrectInputs(inputs: seq<bool>, choice: nat -> bool, choiceBitCtr: nat) returns (corrections: seq<bool>)
    ensures |corrections| == |inputs| && forall k | 0 <= k < |inputs| :: corrections[k] == (inputs[k] != choice(choiceBitCtr + k))
  {
    corrections := [];
    for k := 0 to |inputs|
      invariant |corrections| == k && forall j | 0 <= j < k :: corrections[j] == (inputs[j] != choice(choiceBitCtr + j))
    {
      corrections := corrections + [inputs[k] != choice(choiceBitCtr + k)];
    }
  }

  /** They are the corrections of the run. */
  lemma {:induction false} CorrectionsAre(w: Run, c: seq<nat>, base: nat, i: nat, k: nat)
    requires Listed(w, c, base) && i <= |c| && k < Drawn(w.gs, ClientKeys, c, i)
    ensures Strung(w.gs, ClientKeys, Correction(w), c, i)[k] == (Strung(w.gs, ClientKeys, InputBit(w), c, i)[k] != w.choice(base + k))
  {
    var before := Drawn(w.gs, ClientKeys, c, i - 1);
    if k < before {
      CorrectionsAre(w, c, base, i - 1, k);
    } else {
      LastCorrections(w, c, base, i, k - before);
    }
  }

  lemma LastCorrections(w: Run, c: seq<nat>, base: nat, i: nat, t: nat)
    requires Listed(w, c, base) && 0 < i <= |c| && t < Amount(w.gs, ClientKeys, c[i - 1])
    ensures var k := Drawn(w.gs, ClientKeys, c, i - 1) + t;
            k < Drawn(w.gs, ClientKeys, c, i) &&
            Strung(w.gs, ClientKeys, Correction(w), c, i)[k] == (Strung(w.gs, ClientKeys, InputBit(w), c, i)[k] != w.choice(base + k))
  {
    StrungAt(w.gs, ClientKeys, Correction(w), c, i - 1, i, t);
    StrungAt(w.gs, ClientKeys, InputBit(w), c, i - 1, i, t);
    CorrectionAt(w, c[i - 1], t);
    assert ListedAt(w, c, base, i - 1);
  }

  lemma CorrectionAt(w: Run, g: nat, t: nat)
    ensures Correction(w)(g, t) == (InputBit(w)(g, t) != w.choice(TransferAt(w, g, t)))
  {
  }

  lemma CorrectionsSent(w: Run, d: nat, inputs: seq<bool>, base: nat, sent: seq<bool>)
    requires WellFormed(YAO, w.gs) && d < w.layers && inputs == LayerString(w, ClientKeys, InputBit(w), d)
    requires base == Drawn(w.gs, ClientKeys, Order(w.gs, d), |Order(w.gs, d)|)
    requires |sent| == |inputs| && forall k | 0 <= k < |inputs| :: sent[k] == (inputs[k] != w.choice(base + k))
    ensures sent == LayerString(w, ClientKeys, Correction(w), d)
  {
    var q, c, corrections := InteractiveGates(w.gs, d), ClientInputs(w, d), LayerString(w, ClientKeys, Correction(w), d);
    ClientsListed(w, d);
    DrawersStrung(w.gs, ClientKeys, Correction(w), q, |q|);
    DrawersStrung(w.gs, ClientKeys, InputBit(w), q, |q|);
    forall k: nat | k < |corrections|
      ensures sent[k] == corrections[k]
    {
      CorrectionsAre(w, c, base, |c|, k);
    }
  }

  method Corrections(inputs: seq<bool>, choice: nat -> bool, choiceBitCtr: nat, ghost d: nat, ghost w: Run) returns (sent: seq<bool>)
    requires WellFormed(YAO, w.gs) && d < w.layers && inputs == LayerString(w, ClientKeys, InputBit(w), d) && w.choice == choice
    requires choiceBitCtr == Drawn(w.gs, ClientKeys, Order(w.gs, d), |Order(w.gs, d)|)
    ensures sent == LayerString(w, ClientKeys, Correction(w), d) && |sent| == |inputs|
    ensures choiceBitCtr + |sent| == Drawn(w.gs, ClientKeys, Order(w.gs, d + 1), |Order(w.gs, d + 1)|)
  {
    LayerTotal(w.gs, ClientKeys, d);
    sent := CorrectInputs(inputs, choice, choiceBitCtr);
    CorrectionsSent(w, d, inputs, choiceBitCtr, sent);
  }

  // ----- keys that arrive -----------------------------------------------------------------

  /** AssignServerInputKeys: the keys of the gates c, one behind the other. */
  method AssignServerKeys(yval0: map<nat, seq<Key>>, c: seq<nat>, gates: seq<Gate>, keys: seq<Key>, ghost w: Run)
    returns (yval: map<nat, seq<Key>>)
    requires w.gs == gates && Ids(gates, c) && forall k | 0 <= k < |c| :: Draws(gates, ServerKeys, c[k])
    requires keys == Strung(gates, ServerKeys, SentKey(w), c, |c|)
    ensures AllActive(w, c, |c|, yval) && forall g: nat | ActiveAt(w, yval0, g) :: ActiveAt(w, yval, g)
  {
    yval := yval0;
    var offset := 0;
    for i := 0 to |c|
      invariant offset == Drawn(gates, ServerKeys, c, i)
      invariant AllActive(w, c, i, yval) && forall g: nat | ActiveAt(w, yval0, g) :: ActiveAt(w, yval, g)
    {
      StrungSlice(gates, ServerKeys, SentKey(w), c, i, |c|);
      var nvals := gates[c[i]].nvals;
      assert keys[offset..offset + nvals] == ActivesOf(w, c[i]);
      yval := yval[c[i] := keys[offset..offset + nvals]];
      offset := offset + nvals;
    }
  }

  /** The mask that the random transfer has delivered to the client. */
  predicate MaskHeld(w: Run, rotMask: nat -> Key, j: nat) {
    rotMask(j) == Mask(w, j)
  }

  ghost predicate MasksHeld(w: Run, rotMask: nat -> Key) {
    forall j: nat {:trigger MaskHeld(w, rotMask, j)} :: MaskHeld(w, rotMask, j)
  }

  /** Of a masked pair, the client can unmask the key it has chosen. */
  method UnmaskKey(g: nat, t: nat, key0: Key, key1: Key, j: nat, choice: nat -> bool, rotMask: nat -> Key, ghost w: Run)
    returns (key: Key)
    requires Correct(w) && g < |w.gs| && t < w.gs[g].nvals && w.gs[g].op == In(CLIENT)
    requires w.choice == choice && MasksHeld(w, rotMask) && j == TransferAt(w, g, t)
    requires key0 == Masked(w, false)(g, t) && key1 == Masked(w, true)(g, t)
    ensures key == w.active(g, t)
  {
    InputActiveIs(w, g, t);
    assert MaskHeld(w, rotMask, j);
    key := Xor(if choice(j) then key1 else key0, rotMask(j));
  }

  method UnmaskKeys(g: nat, nvals: nat, keys0: seq<Key>, keys1: seq<Key>, offset: nat, rcvIdx: nat,
                    choice: nat -> bool, rotMask: nat -> Key, ghost w: Run) returns (keys: seq<Key>)
    requires Correct(w) && g < |w.gs| && nvals == w.gs[g].nvals && w.gs[g].op == In(CLIENT)
    requires w.choice == choice && MasksHeld(w, rotMask) && rcvIdx == Place(w.gs, w.layers, ClientKeys, g)
    requires offset + nvals <= |keys0| && offset + nvals <= |keys1|
    requires keys0[offset..offset + nvals] == Block(w.gs, ClientKeys, Masked(w, false), g)
    requires keys1[offset..offset + nvals] == Block(w.gs, ClientKeys, Masked(w, true), g)
    ensures keys == ActivesOf(w, g)
  {
    keys := [];
    for t := 0 to nvals
      invariant |keys| == t && forall k: nat | k < t :: keys[k] == w.active(g, k)
    {
      assert keys0[offset + t] == keys0[offset..offset + nvals][t] && keys1[offset + t] == keys1[offset..offset + nvals][t];
      var key := UnmaskKey(g, t, keys0[offset + t], keys1[offset + t], rcvIdx + t, choice, rotMask, w);
      keys := keys + [key];
    }
  }

  /** The keys of one client input. */
  method AssignKey(c: seq<nat>, i: nat, gates: seq<Gate>, keys0: seq<Key>, keys1: seq<Key>, offset: nat, rcvIdx: nat,
                   choice: nat -> bool, rotMask: nat -> Key, ghost base: nat, ghost w: Run) returns (keys: seq<Key>)
    requires Correct(w) && w.gs == gates && Listed(w, c, base) && i < |c|
    requires w.choice == choice && MasksHeld(w, rotMask) && offset == Drawn(gates, ClientKeys, c, i) && rcvIdx == base + offset
    requires keys0 == Strung(gates, ClientKeys, Masked(w, false), c, |c|) && keys1 == Strung(gates, ClientKeys, Masked(w, true), c, |c|)
    ensures keys == ActivesOf(w, c[i]) && Drawn(gates, ClientKeys, c, i + 1) == offset + gates[c[i]].nvals
  {
    assert ListedAt(w, c, base, i);
    StrungSlice(gates, ClientKeys, Masked(w, false), c, i, |c|);
    StrungSlice(gates, ClientKeys, Masked(w, true), c, i, |c|);
    keys := UnmaskKeys(c[i], gates[c[i]].nvals, keys0, keys1, offset, rcvIdx, choice, rotMask, w);
  }

  /** AssignClientInputKeys: the keys of the gates c, whose corrections were sent one round before. */
  method AssignClientKeys(yval0: map<nat, seq<Key>>, c: seq<nat>, gates: seq<Gate>, keys0: seq<Key>, keys1: seq<Key>, rcvIdx0: nat,
                          choice: nat -> bool, rotMask: nat -> Key, ghost w: Run)
    returns (yval: map<nat, seq<Key>>, rcvIdx: nat)
    requires Correct(w) && w.gs == gates && Listed(w, c, rcvIdx0) && w.choice == choice && MasksHeld(w, rotMask)
    requires keys0 == Strung(gates, ClientKeys, Masked(w, false), c, |c|) && keys1 == Strung(gates, ClientKeys, Masked(w, true), c, |c|)
    ensures AllActive(w, c, |c|, yval) && forall g: nat | ActiveAt(w, yval0, g) :: ActiveAt(w, yval, g)
    ensures rcvIdx == rcvIdx0 + Drawn(gates, ClientKeys, c, |c|)
  {
    yval, rcvIdx := yval0, rcvIdx0;
    var offset := 0;
    for i := 0 to |c|
      invariant offset == Drawn(gates, ClientKeys, c, i) && rcvIdx == rcvIdx0 + offset
      invariant AllActive(w, c, i, yval) && forall g: nat | ActiveAt(w, yval0, g) :: ActiveAt(w, yval, g)
    {
      var keys := AssignKey(c, i, gates, keys0, keys1, offset, rcvIdx, choice, rotMask, rcvIdx0, w);
      yval := yval[c[i] := keys];
      offset, rcvIdx := offset + gates[c[i]].nvals, rcvIdx + gates[c[i]].nvals;
    }
  }

  // ----- decoded outputs ------------------------------------------------------------------

  /** An output that the client learns is decoded on its layer. */
  predicate DecodedOk(w: Run, bits: seq<bool>, d: nat, val: map<nat, seq<bool>>, g: nat) {
    g < |w.gs| && Draws(w.gs, ClientBits, g) && w.gs[g].depth < d ==>
      g in val && val[g] == Block(w.gs, OutputBits, Decoded(w, bits), g)
  }

  ghost predicate AllDecoded(w: Run, bits: seq<bool>, d: nat, val: map<nat, seq<bool>>) {
    forall g: nat {:trigger DecodedOk(w, bits, d, val, g)} :: DecodedOk(w, bits, d, val, g)
  }

  /** The outputs among the first i gates of a list are decoded. */
  ghost predicate DecodedSoFar(w: Run, bits: seq<bool>, q: seq<nat>, i: nat, val: map<nat, seq<bool>>)
    requires Ids(w.gs, q) && i <= |q|
  {
    forall k {:trigger q[k]} | 0 <= k < i && Draws(w.gs, ClientBits, q[k]) ::
      q[k] in val && val[q[k]] == Block(w.gs, OutputBits, Decoded(w, bits), q[k])
  }

  lemma LayerDecoded(w: Run, bits: seq<bool>, d: nat, val: map<nat, seq<bool>>)
    requires AllDecoded(w, bits, d, val) && DecodedSoFar(w, bits, InteractiveGates(w.gs, d), |InteractiveGates(w.gs, d)|, val)
    ensures AllDecoded(w, bits, d + 1, val)
  {
    ghost var next := d + 1;
    forall g: nat
      ensures DecodedOk(w, bits, next, val, g)
    {
      assert DecodedOk(w, bits, d, val, g);
      QueueMembers(YAO, w.gs, true, d, |w.gs|, g);
      if g in InteractiveGates(w.gs, d) {
        var k :| 0 <= k < |InteractiveGates(w.gs, d)| && InteractiveGates(w.gs, d)[k] == g;
      }
    }
  }

  /** One more output does not disturb the others. */
  lemma DecodeNext(w: Run, bits: seq<bool>, d: nat, i: nat, val: map<nat, seq<bool>>, v: seq<bool>)
    requires AllDecoded(w, bits, d, val) && i < |InteractiveGates(w.gs, d)|
    requires DecodedSoFar(w, bits, InteractiveGates(w.gs, d), i, val)
    requires v == Block(w.gs, OutputBits, Decoded(w, bits), InteractiveGates(w.gs, d)[i])
    ensures var more := val[InteractiveGates(w.gs, d)[i] := v];
            AllDecoded(w, bits, d, more) && DecodedSoFar(w, bits, InteractiveGates(w.gs, d), i + 1, more)
  {
    var more := val[InteractiveGates(w.gs, d)[i] := v];
    forall g: nat
      ensures DecodedOk(w, bits, d, more, g)
    {
      assert DecodedOk(w, bits, d, val, g);
    }
  }

  lemma DecodeStep(w: Run, bits: seq<bool>, d: nat, i: nat, val: map<nat, seq<bool>>)
    requires AllDecoded(w, bits, d, val) && i < |InteractiveGates(w.gs, d)|
    requires DecodedSoFar(w, bits, InteractiveGates(w.gs, d), i, val)
    ensures var g := InteractiveGates(w.gs, d)[i];
            var more := if Draws(w.gs, ClientBits, g) then val[g := Block(w.gs, OutputBits, Decoded(w, bits), g)] else val;
            AllDecoded(w, bits, d, more) && DecodedSoFar(w, bits, InteractiveGates(w.gs, d), i + 1, more)
  {
    var g := InteractiveGates(w.gs, d)[i];
    DecodeNext(w, bits, d, i, val, Block(w.gs, OutputBits, Decoded(w, bits), g));
  }

  /** The bits for the client's outputs suffice. */
  lemma BitsSuffice(w: Run, g: nat)
    requires (forall h | 0 <= h < |w.gs| :: w.gs[h].depth < w.layers) && g < |w.gs| && Draws(w.gs, ClientBits, g)
    ensures Place(w.gs, w.layers, ClientBits, g) + w.gs[g].nvals <=
            Drawn(w.gs, ClientBits, Built(w.gs, ClientBits, |w.gs|), |Built(w.gs, ClientBits, |w.gs|)|)
  {
    var q := Order(w.gs, w.layers);
    OrderMembers(w.gs, w.layers, g);
    var i :| 0 <= i < |q| && q[i] == g;
    PlaceAt(w.gs, w.layers, ClientBits, i);
    StrungSlice(w.gs, ClientBits, OutBit(w), q, i, |q|);
    TotalDrawn(w.gs, ClientBits, w.layers);
  }

  lemma RoundStart(w: Run, d: nat)
    requires d < w.layers
    ensures InteractiveBase(w, d) <= |Order(w.gs, w.layers)| && |Order(w.gs, d)| <= |Order(w.gs, w.layers)|
    ensures RoundAt(w, d, |Order(w.gs, d)|, 0) == RoundAt(w, d, InteractiveBase(w, d), 0)
  {
    OrderLayer(w.gs, w.layers, d);
    LocalDrawsNone(w, ClientBits, d);
  }

  lemma RoundMoved(w: Run, d: nat, base: nat, m: nat, n: nat)
    requires n == base + m <= |Order(w.gs, w.layers)| && m <= |InteractiveGates(w.gs, d)|
    ensures RoundAt(w, d, base, m).decoded == Drawn(w.gs, ClientBits, Order(w.gs, w.layers), n)
  {
  }

  /** The client inputs whose keys arrive while layer d is run. */
  function AwaitedInputs(w: Run, d: nat): seq<nat> {
    if d == 0 then [] else ClientInputs(w, d - 1)
  }

  function AwaitedFrom(w: Run, d: nat): nat {
    if d == 0 then 0 else Drawn(w.gs, ClientKeys, Order(w.gs, d - 1), |Order(w.gs, d - 1)|)
  }

  /** Inputs of the server are ready one layer later, inputs of the client two. */
  lemma InputsReady(w: Run, d: nat, g: nat)
    requires WellFormed(YAO, w.gs) && g < |w.gs| && !w.gs[g].op.Out? && Interactive(YAO, w.gs[g].op)
    requires w.gs[g].depth <= d && Ready(w.gs[g]) == d + 1
    ensures g in Drawers(w.gs, ServerKeys, InteractiveGates(w.gs, d), |InteractiveGates(w.gs, d)|) || g in AwaitedInputs(w, d)
  {
    assert GateOk(YAO, w.gs, g);
    var e := w.gs[g].depth;
    var q := InteractiveGates(w.gs, e);
    QueueMembers(YAO, w.gs, true, e, |w.gs|, g);
    var i :| 0 <= i < |q| && q[i] == g;
    if w.gs[g].op.src.SERVER? {
      DrawersAt(w.gs, ServerKeys, q, i, |q|);
    } else {
      DrawersAt(w.gs, ClientKeys, q, i, |q|);
    }
  }

  /** After layer d, every wire that is ready by then has its key. */
  lemma LayerEvaluated(w: Run, d: nat, yval: map<nat, seq<Key>>)
    requires WellFormed(YAO, w.gs) && StoreOk(w, d, yval) && AllActive(w, LocalGates(w.gs, d), |LocalGates(w.gs, d)|, yval)
    requires var c := Drawers(w.gs, ServerKeys, InteractiveGates(w.gs, d), |InteractiveGates(w.gs, d)|); AllActive(w, c, |c|, yval)
    requires AllActive(w, AwaitedInputs(w, d), |AwaitedInputs(w, d)|, yval)
    ensures StoreOk(w, d + 1, yval)
  {
    ghost var next := d + 1;
    forall g: nat
      ensures Evaluated(w, next, yval, g)
    {
      assert Evaluated(w, d, yval, g);
      if g < |w.gs| && !w.gs[g].op.Out? && w.gs[g].depth <= d && Ready(w.gs[g]) <= next && !(w.gs[g].depth < d && Ready(w.gs[g]) <= d) {
        JustReady(w, d, yval, g);
      }
    }
  }

  lemma JustReady(w: Run, d: nat, yval: map<nat, seq<Key>>, g: nat)
    requires WellFormed(YAO, w.gs) && AllActive(w, LocalGates(w.gs, d), |LocalGates(w.gs, d)|, yval)
    requires var c := Drawers(w.gs, ServerKeys, InteractiveGates(w.gs, d), |InteractiveGates(w.gs, d)|); AllActive(w, c, |c|, yval)
    requires AllActive(w, AwaitedInputs(w, d), |AwaitedInputs(w, d)|, yval)
    requires g < |w.gs| && !w.gs[g].op.Out? && w.gs[g].depth <= d && Ready(w.gs[g]) <= d + 1
    requires w.gs[g].depth < d ==> Ready(w.gs[g]) == d + 1
    ensures ActiveAt(w, yval, g)
  {
    assert GateOk(YAO, w.gs, g);
    if Interactive(YAO, w.gs[g].op) {
      InputsReady(w, d, g);
      var c := Drawers(w.gs, ServerKeys, InteractiveGates(w.gs, d), |InteractiveGates(w.gs, d)|);
      if g in c {
        var k :| 0 <= k < |c| && c[k] == g;
      } else {
        var k :| 0 <= k < |AwaitedInputs(w, d)| && AwaitedInputs(w, d)[k] == g;
      }
    } else {
      QueueMembers(YAO, w.gs, false, d, |w.gs|, g);
      var k :| 0 <= k < |LocalGates(w.gs, d)| && LocalGates(w.gs, d)[k] == g;
    }
  }

  /** Keys that were there stay there. */
  lemma StoreKept(w: Run, d: nat, yval: map<nat, seq<Key>>, more: map<nat, seq<Key>>)
    requires StoreOk(w, d, yval) && forall g: nat | ActiveAt(w, yval, g) :: ActiveAt(w, more, g)
    ensures StoreOk(w, d, more)
  {
    forall g: nat
      ensures Evaluated(w, d, more, g)
    {
      assert Evaluated(w, d, yval, g);
    }
  }

  lemma OneMoreActive(w: Run, d: nat, yval: map<nat, seq<Key>>, g: nat, i: nat)
    requires g < |w.gs| && StoreOk(w, d, yval)
    requires i < |LocalGates(w.gs, d)| && g == LocalGates(w.gs, d)[i] && AllActive(w, LocalGates(w.gs, d), i, yval)
    ensures var next := yval[g := ActivesOf(w, g)]; StoreOk(w, d, next) && AllActive(w, LocalGates(w.gs, d), i + 1, next)
  {
    StoreOneMore(w, d, yval, g);
  }

  lemma StoreOneMore(w: Run, d: nat, yval: map<nat, seq<Key>>, g: nat)
    requires g < |w.gs| && StoreOk(w, d, yval)
    ensures StoreOk(w, d, yval[g := ActivesOf(w, g)])
  {
    forall h: nat | ActiveAt(w, yval, h)
      ensures ActiveAt(w, yval[g := ActivesOf(w, g)], h)
    {
    }
    StoreKept(w, d, yval, yval[g := ActivesOf(w, g)]);
  }

  /** The server's inputs of a layer; there are keys only if there are inputs. */
  lemma ServerGates(w: Run, d: nat)
    requires WellFormed(YAO, w.gs)
    ensures var q := InteractiveGates(w.gs, d);
            var c := Drawers(w.gs, ServerKeys, q, |q|);
            && FromServer(w, d).serverKeys == Strung(w.gs, ServerKeys, SentKey(w), c, |c|)
            && (Drawn(w.gs, ServerKeys, q, |q|) == 0 ==> c == [])
  {
    var q := InteractiveGates(w.gs, d);
    var c := Drawers(w.gs, ServerKeys, q, |q|);
    DrawersStrung(w.gs, ServerKeys, SentKey(w), q, |q|);
    DrawersDrawn(w.gs, ServerKeys, q, |q|);
    NonemptyGates(w, c);
    NothingDrawn(w.gs, ServerKeys, c);
  }

  lemma NonemptyGates(w: Run, c: seq<nat>)
    requires WellFormed(YAO, w.gs) && Ids(w.gs, c)
    ensures forall k | 0 <= k < |c| :: w.gs[c[k]].nvals > 0
  {
    forall k | 0 <= k < |c|
      ensures w.gs[c[k]].nvals > 0
    {
      assert GateOk(YAO, w.gs, c[k]);
    }
  }

  /** The client's inputs whose keys arrive, and the place of their random transfers. */
  lemma AwaitedKeys(w: Run, d: nat)
    requires WellFormed(YAO, w.gs) && d < w.layers
    ensures var c := AwaitedInputs(w, d);
            && Listed(w, c, AwaitedFrom(w, d))
            && FromServer(w, d).clientKeys0 == Strung(w.gs, ClientKeys, Masked(w, false), c, |c|)
            && FromServer(w, d).clientKeys1 == Strung(w.gs, ClientKeys, Masked(w, true), c, |c|)
  {
    if d > 0 {
      var q := InteractiveGates(w.gs, d - 1);
      ClientsListed(w, d - 1);
      DrawersStrung(w.gs, ClientKeys, Masked(w, false), q, |q|);
      DrawersStrung(w.gs, ClientKeys, Masked(w, true), q, |q|);
    }
  }

  lemma AwaitedCount(w: Run, d: nat)
    requires WellFormed(YAO, w.gs) && d < w.layers
    ensures var c := AwaitedInputs(w, d);
            && (Drawn(w.gs, ClientKeys, c, |c|) == 0 ==> c == [])
            && AwaitedFrom(w, d) + Drawn(w.gs, ClientKeys, c, |c|) == AwaitedFrom(w, d + 1)
  {
    if d > 0 {
      var q, c := InteractiveGates(w.gs, d - 1), AwaitedInputs(w, d);
      DrawersDrawn(w.gs, ClientKeys, q, |q|);
      NonemptyGates(w, c);
      NothingDrawn(w.gs, ClientKeys, c);
      LayerTotal(w.gs, ClientKeys, d - 1);
    }
  }

  /** If nothing was sent, no keys are awaited. */
  lemma SentGates(w: Run, d: nat)
    requires WellFormed(YAO, w.gs)
    ensures var c, q := ClientInputs(w, d), InteractiveGates(w.gs, d);
            && Drawn(w.gs, ClientKeys, c, |c|) == Drawn(w.gs, ClientKeys, q, |q|)
            && (Drawn(w.gs, ClientKeys, q, |q|) == 0 ==> c == [])
  {
    var c, q := ClientInputs(w, d), InteractiveGates(w.gs, d);
    DrawersDrawn(w.gs, ClientKeys, q, |q|);
    NonemptyGates(w, c);
    NothingDrawn(w.gs, ClientKeys, c);
  }

  /** Interactive gates have no tables. */
  lemma NoTables(w: Run, s: Supply, d: nat)
    requires d < w.layers && IsTables(s)
    ensures InteractiveBase(w, d) <= |Order(w.gs, d + 1)| <= |Order(w.gs, w.layers)|
    ensures Drawn(w.gs, s, Order(w.gs, w.layers), |Order(w.gs, d + 1)|) == Drawn(w.gs, s, Order(w.gs, w.layers), InteractiveBase(w, d))
  {
    InteractiveDrawsNone(w.gs, w.layers, s, d, InteractiveGates(w.gs, d), InteractiveBase(w, d));
    LayerEnd(w, d);
  }

  /** What has been assigned before the last keys is still there. */
  lemma KeptAlong(w: Run, d: nat, c: seq<nat>, before: map<nat, seq<Key>>, between: map<nat, seq<Key>>, after: map<nat, seq<Key>>)
    requires StoreOk(w, d, before) && AllActive(w, LocalGates(w.gs, d), |LocalGates(w.gs, d)|, before)
    requires AllActive(w, c, |c|, between)
    requires forall g: nat | ActiveAt(w, before, g) :: ActiveAt(w, between, g)
    requires forall g: nat | ActiveAt(w, between, g) :: ActiveAt(w, after, g)
    ensures StoreOk(w, d, after) && AllActive(w, LocalGates(w.gs, d), |LocalGates(w.gs, d)|, after) && AllActive(w, c, |c|, after)
  {
    StoreKept(w, d, before, after);
  }

  /** Where the tables of a gate are found. */
  lemma AndRowsAt(w: Run, i: nat, table: seq<HalfGates>, ctr: nat, g: nat, nvals: nat)
    requires i < |Order(w.gs, w.layers)| && g == Order(w.gs, w.layers)[i] && w.gs[g].op.NonLin? && nvals == w.gs[g].nvals
    requires table == Strung(w.gs, AndTables, AndRows(w), Order(w.gs, w.layers), |Order(w.gs, w.layers)|)
    requires ctr == Drawn(w.gs, AndTables, Order(w.gs, w.layers), i)
    ensures ctr == Place(w.gs, w.layers, AndTables, g) && ctr + nvals <= |table|
    ensures table[ctr..ctr + nvals] == Block(w.gs, AndTables, AndRows(w), g)
  {
    PlaceAt(w.gs, w.layers, AndTables, i);
    StrungSlice(w.gs, AndTables, AndRows(w), Order(w.gs, w.layers), i, |Order(w.gs, w.layers)|);
  }

  lemma UnivRowsAt(w: Run, i: nat, table: seq<Rows>, ctr: nat, g: nat, nvals: nat)
    requires i < |Order(w.gs, w.layers)| && g == Order(w.gs, w.layers)[i] && w.gs[g].op.Univ? && nvals == w.gs[g].nvals
    requires table == Strung(w.gs, UnivTables, UnivRows(w), Order(w.gs, w.layers), |Order(w.gs, w.layers)|)
    requires ctr == Drawn(w.gs, UnivTables, Order(w.gs, w.layers), i)
    ensures ctr == Place(w.gs, w.layers, UnivTables, g) && ctr + nvals <= |table|
    ensures table[ctr..ctr + nvals] == Block(w.gs, UnivTables, UnivRows(w), g)
  {
    PlaceAt(w.gs, w.layers, UnivTables, i);
    StrungSlice(w.gs, UnivTables, UnivRows(w), Order(w.gs, w.layers), i, |Order(w.gs, w.layers)|);
  }

  /** What the evaluator's state consists of between its steps. */
  datatype Part = Wires | Tables | Collected | Outputs | Awaited

  datatype Opening = Noted | Decoding

  class YaoClient {
    const gates: seq<Gate>
    const localQueueOnLvl: seq<seq<nat>>
    const interactiveQueueOnLvl: seq<seq<nat>>
    const maxDepth: nat
    const inputs: map<nat, seq<bool>>
    const kappa: nat
    const enc: (Key, nat) -> Key
    const pad: (Key, Key, nat) -> Key
    const choiceBits: nat -> bool
    const rotMasks: nat -> Key
    const garbledCircuit: seq<HalfGates>
    const universalGateTable: seq<Rows>
    const outputShareRcvBuf: seq<bool>

    var yval: map<nat, seq<Key>>
    var val: map<nat, seq<bool>>
    var garbledTableCtr: nat
    var universalGateTableCtr: nat
    var rotSndBuf: seq<bool>
    var choiceBitCtr: nat
    var clientSendCorrectionGates: seq<nat>
    var clientRcvInputKeyGates: seq<nat>
    var clientRcvKeyCtr: nat
    var keyInputRcvIdx: nat
    var serverInBitCtr: nat
    var serverInputGates: seq<nat>
    var serverInputKeys: seq<Key>
    var clientKeyRcvBuf0: seq<Key>
    var clientKeyRcvBuf1: seq<Key>
    var outputShareSndBuf: seq<bool>
    var clientOUTBitCtr: nat

    ghost const w: Run

    /** The circuit, the client's inputs and choices and what it has received in the setup phase are those of the run. */
    ghost predicate Setup() {
      && Correct(w) && w.gs == gates && w.layers == maxDepth && w.kappa == kappa && w.enc == enc && w.pad == pad
      && w.choice == choiceBits && MasksHeld(w, rotMasks)
      && Queued(gates, localQueueOnLvl, interactiveQueueOnLvl, maxDepth) && OwnInputs(w, CLIENT, inputs)
      && garbledCircuit == Strung(gates, AndTables, AndRows(w), Order(gates, maxDepth), |Order(gates, maxDepth)|)
      && universalGateTable == Strung(gates, UnivTables, UnivRows(w), Order(gates, maxDepth), |Order(gates, maxDepth)|)
      && outputShareRcvBuf == Strung(gates, ClientBits, OutPi(w), Built(gates, ClientBits, |gates|), |Built(gates, ClientBits, |gates|)|)
    }

    /** All operands of a gate have their keys. */
    ghost predicate OperandsReady(g: nat)
      reads this`yval
    {
      && g < |gates|
      && forall k {:trigger Parents(gates[g].op)[k]} | 0 <= k < |Parents(gates[g].op)| ::
           var p := Parents(gates[g].op)[k]; p < |gates| && gates[p].nvals >= gates[g].nvals && ActiveAt(w, yval, p)
    }

    lemma OperandKeys(gateid: nat, k: nat)
      requires Setup() && OperandsReady(gateid) && k < |Parents(gates[gateid].op)|
      ensures var p := Parents(gates[gateid].op)[k]; p in yval && KeysFor(w, p, gates[gateid].nvals, yval[p])
    {
      var p := Parents(gates[gateid].op)[k];
      assert ActiveAt(w, yval, p);
    }

    lemma BothOperands(gateid: nat, idleft: nat, idright: nat)
      requires Setup() && OperandsReady(gateid) && Parents(gates[gateid].op) == [idleft, idright]
      ensures Correct(w) && w.gs == gates && idleft in yval && idright in yval
      ensures KeysFor(w, idleft, gates[gateid].nvals, yval[idleft]) && KeysFor(w, idright, gates[gateid].nvals, yval[idright])
    {
      OperandKeys(gateid, 0);
      OperandKeys(gateid, 1);
    }

    // ----- local gates --------------------------------------------------------------------

    lemma AndRowsFound(i: nat, gateid: nat)
      requires Setup() && i < |Order(gates, maxDepth)| && gateid == Order(gates, maxDepth)[i] && gates[gateid].op.NonLin?
      requires garbledTableCtr == Drawn(gates, AndTables, Order(gates, maxDepth), i)
      ensures w.gs == gates && w.enc == enc && garbledTableCtr == Place(w.gs, w.layers, AndTables, gateid)
      ensures garbledTableCtr + gates[gateid].nvals <= |garbledCircuit|
      ensures garbledCircuit[garbledTableCtr..garbledTableCtr + gates[gateid].nvals] == Block(w.gs, AndTables, AndRows(w), gateid)
    {
      AndRowsAt(w, i, garbledCircuit, garbledTableCtr, gateid, gates[gateid].nvals);
    }

    lemma UnivRowsFound(i: nat, gateid: nat)
      requires Setup() && i < |Order(gates, maxDepth)| && gateid == Order(gates, maxDepth)[i] && gates[gateid].op.Univ?
      requires universalGateTableCtr == Drawn(gates, UnivTables, Order(gates, maxDepth), i)
      ensures w.gs == gates && w.pad == pad && universalGateTableCtr == Place(w.gs, w.layers, UnivTables, gateid)
      ensures universalGateTableCtr + gates[gateid].nvals <= |universalGateTable|
      ensures universalGateTable[universalGateTableCtr..universalGateTableCtr + gates[gateid].nvals] ==
              Block(w.gs, UnivTables, UnivRows(w), gateid)
    {
      UnivRowsAt(w, i, universalGateTable, universalGateTableCtr, gateid, gates[gateid].nvals);
    }

    method EvaluateANDGate(gateid: nat, ghost i: nat)
      requires Setup() && OperandsReady(gateid) && gates[gateid].op.NonLin?
      requires i < |Order(gates, maxDepth)| && gateid == Order(gates, maxDepth)[i]
      requires garbledTableCtr == Drawn(gates, AndTables, Order(gates, maxDepth), i)
      modifies this`yval, this`garbledTableCtr
      ensures yval == old(yval)[gateid := ActivesOf(w, gateid)] && garbledTableCtr == old(garbledTableCtr) + gates[gateid].nvals
    {
      var idleft, idright, nvals := gates[gateid].op.left, gates[gateid].op.right, gates[gateid].nvals;
      BothOperands(gateid, idleft, idright);
      AndRowsFound(i, gateid);
      var keys := EvaluateAnds(gateid, nvals, yval[idleft], yval[idright], garbledCircuit, garbledTableCtr, enc, w);
      yval, garbledTableCtr := yval[gateid := keys], garbledTableCtr + nvals;
    }

    method EvaluateUNIVGate(gateid: nat, ghost i: nat)
      requires Setup() && OperandsReady(gateid) && gates[gateid].op.Univ?
      requires i < |Order(gates, maxDepth)| && gateid == Order(gates, maxDepth)[i]
      requires universalGateTableCtr == Drawn(gates, UnivTables, Order(gates, maxDepth), i)
      modifies this`yval, this`universalGateTableCtr
      ensures yval == old(yval)[gateid := ActivesOf(w, gateid)]
      ensures universalGateTableCtr == old(universalGateTableCtr) + gates[gateid].nvals
    {
      var idleft, idright, nvals := gates[gateid].op.left, gates[gateid].op.right, gates[gateid].nvals;
      BothOperands(gateid, idleft, idright);
      UnivRowsFound(i, gateid);
      var keys := EvaluateUnivs(gateid, nvals, yval[idleft], yval[idright], universalGateTable, universalGateTableCtr, pad, w);
      yval, universalGateTableCtr := yval[gateid := keys], universalGateTableCtr + nvals;
    }

    /** A gate without a table. */
    method EvaluateFreeGate(gateid: nat)
      requires Setup() && OperandsReady(gateid)
      requires gates[gateid].op.Lin? || gates[gateid].op.Inv? || gates[gateid].op.Constant?
      modifies this`yval
      ensures yval == old(yval)[gateid := ActivesOf(w, gateid)]
    {
      var nvals := gates[gateid].nvals;
      var keys: seq<Key>;
      if gates[gateid].op.Lin? {
        OperandKeys(gateid, 0);
        OperandKeys(gateid, 1);
        keys := EvaluateXor(gateid, nvals, yval[gates[gateid].op.left], yval[gates[gateid].op.right], w);
      } else if gates[gateid].op.Inv? {
        OperandKeys(gateid, 0);
        keys := EvaluateInversion(gateid, nvals, yval[gates[gateid].op.parent], w);
      } else {
        keys := EvaluateConstant(gateid, nvals, kappa, w);
      }
      yval := yval[gateid := keys];
    }

    /** Gate i of the order; the table counters move as they did while garbling. */
    method EvaluateLocalGate(gateid: nat, ghost i: nat)
      requires Setup() && OperandsReady(gateid) && !Interactive(YAO, gates[gateid].op)
      requires i < |Order(gates, maxDepth)| && gateid == Order(gates, maxDepth)[i] && TablesAt(i)
      modifies this`yval, this`garbledTableCtr, this`universalGateTableCtr
      ensures yval == old(yval)[gateid := ActivesOf(w, gateid)] && TablesAt(i + 1)
    {
      assert GateOk(YAO, gates, gateid);
      if gates[gateid].op.NonLin? {
        EvaluateANDGate(gateid, i);
      } else if gates[gateid].op.Univ? {
        EvaluateUNIVGate(gateid, i);
      } else {
        EvaluateFreeGate(gateid);
      }
    }

    /** The table counters after i gates of the order. */
    ghost predicate TablesAt(i: nat)
      reads this`garbledTableCtr, this`universalGateTableCtr
    {
      && i <= |Order(w.gs, w.layers)| && garbledTableCtr == Drawn(w.gs, AndTables, Order(w.gs, w.layers), i)
      && universalGateTableCtr == Drawn(w.gs, UnivTables, Order(w.gs, w.layers), i)
    }

    // ----- layers -------------------------------------------------------------------------

    ghost function RoundBooks(): Round
      reads this`rotSndBuf, this`clientSendCorrectionGates, this`serverInBitCtr, this`serverInputGates, this`outputShareSndBuf,
            this`clientOUTBitCtr
    {
      Round(rotSndBuf, clientSendCorrectionGates, serverInBitCtr, serverInputGates, outputShareSndBuf, clientOUTBitCtr)
    }

    /** The keys of the client's inputs of the previous layer are awaited. */
    ghost predicate KeysAwaited(d: nat)
      reads this`clientRcvInputKeyGates, this`clientRcvKeyCtr, this`keyInputRcvIdx
    {
      && clientRcvInputKeyGates == AwaitedInputs(w, d) && keyInputRcvIdx == AwaitedFrom(w, d)
      && clientRcvKeyCtr == Drawn(w.gs, ClientKeys, AwaitedInputs(w, d), |AwaitedInputs(w, d)|)
    }

    ghost predicate ChoicesUsed(d: nat)
      reads this`choiceBitCtr
    {
      choiceBitCtr == Drawn(w.gs, ClientKeys, Order(w.gs, d), |Order(w.gs, d)|)
    }

    ghost predicate LayerStart(d: nat)
      reads this
    {
      forall part {:trigger StartPart(part, d)} :: StartPart(part, d)
    }

    ghost predicate StartPart(part: Part, d: nat)
      reads this
    {
      match part
      case Wires => StoreOk(w, d, yval)
      case Tables => TablesAt(|Order(w.gs, d)|)
      case Collected =>
        d <= w.layers && |Order(w.gs, d)| <= |Order(w.gs, w.layers)| && RoundBooks() == RoundAt(w, d, |Order(w.gs, d)|, 0)
      case Outputs => AllDecoded(w, outputShareRcvBuf, d, val)
      case Awaited => KeysAwaited(d) && ChoicesUsed(d)
    }

    /** The first i interactive gates of layer d have been gone through. */
    ghost predicate Opened(d: nat, i: nat)
      reads this`rotSndBuf, this`clientSendCorrectionGates, this`serverInBitCtr, this`serverInputGates, this`outputShareSndBuf,
            this`clientOUTBitCtr, this`val
    {
      forall part {:trigger OpenedPart(part, d, i)} :: OpenedPart(part, d, i)
    }

    ghost predicate OpenedPart(part: Opening, d: nat, i: nat)
      reads this`rotSndBuf, this`clientSendCorrectionGates, this`serverInBitCtr, this`serverInputGates, this`outputShareSndBuf,
            this`clientOUTBitCtr, this`val
    {
      match part
      case Noted =>
        && i <= |InteractiveGates(w.gs, d)| && InteractiveBase(w, d) + i <= |Order(w.gs, w.layers)|
        && RoundBooks() == RoundAt(w, d, InteractiveBase(w, d), i)
      case Decoding =>
        && i <= |InteractiveGates(w.gs, d)| && AllDecoded(w, outputShareRcvBuf, d, val)
        && DecodedSoFar(w, outputShareRcvBuf, InteractiveGates(w.gs, d), i, val)
    }

    lemma OpenedParts(d: nat, i: nat)
      requires Opened(d, i)
      ensures OpenedPart(Noted, d, i) && OpenedPart(Decoding, d, i)
    {
    }

    /** The interactive gates of layer d have their operands. */
    ghost predicate InteractiveReady(d: nat)
      reads this`yval
    {
      forall k {:trigger InteractiveGates(w.gs, d)[k]} | 0 <= k < |InteractiveGates(w.gs, d)| :: OperandsReady(InteractiveGates(w.gs, d)[k])
    }

    lemma InteractiveOperands(d: nat)
      requires Setup() && LocalDone(d, |LocalGates(w.gs, d)|)
      ensures InteractiveReady(d)
    {
      forall k | 0 <= k < |InteractiveGates(w.gs, d)|
        ensures OperandsReady(InteractiveGates(w.gs, d)[k])
      {
        OperandsAre(InteractiveGates(w.gs, d)[k], d, |LocalGates(w.gs, d)|);
      }
    }

    /** The first i local gates of layer d have been evaluated. */
    ghost predicate LocalDone(d: nat, i: nat)
      reads this`yval, this`garbledTableCtr, this`universalGateTableCtr
    {
      && i <= |LocalGates(w.gs, d)| && StoreOk(w, d, yval) && AllActive(w, LocalGates(w.gs, d), i, yval)
      && TablesAt(|Order(w.gs, d)| + i)
    }

    method EvaluateLocalOperations(depth: nat)
      requires Setup() && depth < maxDepth && LocalDone(depth, 0)
      modifies this`yval, this`garbledTableCtr, this`universalGateTableCtr
      ensures LocalDone(depth, |LocalGates(w.gs, depth)|)
    {
      var localops := LocalQueue(depth);
      for i := 0 to |localops|
        invariant LocalDone(depth, i)
      {
        EvaluateNext(localops[i], depth, i);
      }
    }

    method LocalQueue(i: nat) returns (queue: seq<nat>)
      requires Setup() && i < maxDepth
      ensures queue == LocalGates(w.gs, i) && Slice(w.gs, w.layers, queue, |Order(w.gs, i)|)
    {
      LayerSlices(gates, maxDepth, i);
      QueueIs(gates, false, localQueueOnLvl, i);
      queue := QueueOnLvl(localQueueOnLvl, i);
    }

    method EvaluateNext(gateid: nat, ghost d: nat, ghost i: nat)
      requires Setup() && LocalDone(d, i) && i < |LocalGates(w.gs, d)| && gateid == LocalGates(w.gs, d)[i]
      requires Slice(w.gs, w.layers, LocalGates(w.gs, d), |Order(w.gs, d)|)
      modifies this`yval, this`garbledTableCtr, this`universalGateTableCtr
      ensures LocalDone(d, i + 1)
    {
      ghost var at := |Order(w.gs, d)| + i;
      OperandsAre(gateid, d, i);
      OneMoreActive(w, d, yval, gateid, i);
      SliceAt(w.gs, w.layers, LocalGates(w.gs, d), |Order(w.gs, d)|, i);
      EvaluateLocalGate(gateid, at);
      assert at + 1 == |Order(w.gs, d)| + (i + 1);
    }

    lemma OperandsAre(g: nat, d: nat, i: nat)
      requires Setup() && g < |w.gs| && w.gs[g].depth == d && StoreOk(w, d, yval)
      requires i <= |LocalGates(w.gs, d)| && AllActive(w, LocalGates(w.gs, d), i, yval)
      requires if i < |LocalGates(w.gs, d)| then g == LocalGates(w.gs, d)[i] else Interactive(YAO, w.gs[g].op)
      ensures OperandsReady(g)
    {
      assert GateOk(YAO, gates, g);
      forall k | 0 <= k < |Parents(gates[g].op)|
        ensures var p := Parents(gates[g].op)[k]; p < |gates| && gates[p].nvals >= gates[g].nvals && ActiveAt(w, yval, p)
      {
        OperandActiveAt(w, d, i, yval, g, k);
        NvalsEnough(g, k);
      }
    }

    lemma NvalsEnough(g: nat, k: nat)
      requires Setup() && g < |gates| && k < |Parents(gates[g].op)|
      ensures var p := Parents(gates[g].op)[k]; p < g && gates[p].nvals >= gates[g].nvals
    {
      assert GateOk(YAO, gates, g);
      var p := Parents(gates[g].op)[k];
      assert p < g && gates[..g][p] == gates[p];
    }

    // ----- interactive gates --------------------------------------------------------------

    /** ReceiveClientKeys: the input bits are noted, to be corrected when they are sent. */
    method ReceiveClientKeys(gateid: nat)
      requires Setup() && gateid < |gates| && gates[gateid].op == In(CLIENT)
      modifies this`rotSndBuf, this`clientSendCorrectionGates
      ensures rotSndBuf == old(rotSndBuf) + Block(gates, ClientKeys, InputBit(w), gateid)
      ensures clientSendCorrectionGates == old(clientSendCorrectionGates) + [gateid]
    {
      assert inputs[gateid] == Block(gates, ClientKeys, InputBit(w), gateid);
      rotSndBuf, clientSendCorrectionGates := rotSndBuf + inputs[gateid], clientSendCorrectionGates + [gateid];
    }

    method EvaluateServerOutputGate(gateid: nat)
      requires Setup() && OperandsReady(gateid) && gates[gateid].op.Out?
      modifies this`outputShareSndBuf
      ensures outputShareSndBuf == old(outputShareSndBuf) + Block(gates, OutputBits, OutBit(w), gateid)
    {
      OperandKeys(gateid, 0);
      var bits := LastBits(gateid, gates[gateid].nvals, yval[gates[gateid].op.parent], w);
      outputShareSndBuf := outputShareSndBuf + bits;
    }

    method EvaluateClientOutputGate(gateid: nat)
      requires Setup() && OperandsReady(gateid) && gates[gateid].op.Out? && gates[gateid].op.dst.Includes(CLIENT)
      requires clientOUTBitCtr == Place(gates, maxDepth, ClientBits, gateid)
      modifies this`val, this`clientOUTBitCtr
      ensures val == old(val)[gateid := Block(gates, OutputBits, Decoded(w, outputShareRcvBuf), gateid)]
      ensures clientOUTBitCtr == old(clientOUTBitCtr) + gates[gateid].nvals
    {
      OperandKeys(gateid, 0);
      AllOnLayers();
      BitsSuffice(w, gateid);
      var v := DecodeOutput(gateid, gates[gateid].nvals, yval[gates[gateid].op.parent], outputShareRcvBuf, clientOUTBitCtr, w);
      val, clientOUTBitCtr := val[gateid := v], clientOUTBitCtr + gates[gateid].nvals;
    }

    lemma AllOnLayers()
      requires Setup()
      ensures forall g | 0 <= g < |gates| :: gates[g].depth < maxDepth
    {
      forall g | 0 <= g < |gates|
        ensures gates[g].depth < maxDepth
      {
        LayersCover(gates, localQueueOnLvl, interactiveQueueOnLvl, maxDepth, g);
      }
    }

    method EvaluateOutputGate(gateid: nat)
      requires Setup() && OperandsReady(gateid) && gates[gateid].op.Out?
      requires clientOUTBitCtr == Place(gates, maxDepth, ClientBits, gateid)
      modifies this`outputShareSndBuf, this`val, this`clientOUTBitCtr
      ensures outputShareSndBuf ==
              old(outputShareSndBuf) + if gates[gateid].op.dst.Includes(SERVER) then Block(gates, OutputBits, OutBit(w), gateid) else []
      ensures clientOUTBitCtr == old(clientOUTBitCtr) + if gates[gateid].op.dst.Includes(CLIENT) then gates[gateid].nvals else 0
      ensures val == if gates[gateid].op.dst.Includes(CLIENT)
                     then old(val)[gateid := Block(gates, OutputBits, Decoded(w, outputShareRcvBuf), gateid)] else old(val)
    {
      if gates[gateid].op.dst == To(SERVER) {
        EvaluateServerOutputGate(gateid);
      } else if gates[gateid].op.dst.All? {
        EvaluateServerOutputGate(gateid);
        EvaluateClientOutputGate(gateid);
      } else {
        EvaluateClientOutputGate(gateid);
      }
    }

    method EvaluateInteractiveGate(gateid: nat)
      requires Setup() && OperandsReady(gateid) && Interactive(YAO, gates[gateid].op)
      requires clientOUTBitCtr == Place(gates, maxDepth, ClientBits, gateid)
      modifies this`rotSndBuf, this`clientSendCorrectionGates, this`serverInBitCtr, this`serverInputGates, this`outputShareSndBuf,
               this`val, this`clientOUTBitCtr
      ensures RoundBooks() == RoundEntered(w, old(RoundBooks()), gateid)
      ensures val == if Draws(gates, ClientBits, gateid)
                     then old(val)[gateid := Block(gates, OutputBits, Decoded(w, outputShareRcvBuf), gateid)] else old(val)
    {
      RoundWhere(w, RoundBooks(), gateid);
      if gates[gateid].op.Out? {
        EvaluateOutputGate(gateid);
      } else if gates[gateid].op.src.CLIENT? {
        ReceiveClientKeys(gateid);
      } else {
        serverInputGates, serverInBitCtr := serverInputGates + [gateid], serverInBitCtr + gates[gateid].nvals;
      }
    }

    method OpenNext(gateid: nat, ghost d: nat, ghost i: nat)
      requires Setup() && Opened(d, i) && i < |InteractiveGates(w.gs, d)| && gateid == InteractiveGates(w.gs, d)[i]
      requires Slice(w.gs, w.layers, InteractiveGates(w.gs, d), InteractiveBase(w, d)) && OperandsReady(gateid)
      modifies this`rotSndBuf, this`clientSendCorrectionGates, this`serverInBitCtr, this`serverInputGates, this`outputShareSndBuf,
               this`val, this`clientOUTBitCtr
      ensures Opened(d, i + 1)
    {
      OpenedParts(d, i);
      ghost var next := i + 1;
      RoundStep(w, d, InteractiveBase(w, d), i);
      RoundPlace(w, d, InteractiveBase(w, d), i);
      DecodeStep(w, outputShareRcvBuf, d, i, val);
      EvaluateInteractiveGate(gateid);
      forall part
        ensures OpenedPart(part, d, next)
      {
      }
    }

    method EvaluateInteractiveOperations(depth: nat)
      requires Setup() && depth < maxDepth && InteractiveReady(depth) && Opened(depth, 0)
      modifies this`rotSndBuf, this`clientSendCorrectionGates, this`serverInBitCtr, this`serverInputGates, this`outputShareSndBuf,
               this`val, this`clientOUTBitCtr
      ensures Opened(depth, |InteractiveGates(w.gs, depth)|)
    {
      InteractiveQueue(depth);
      OpenAll(QueueOnLvl(interactiveQueueOnLvl, depth), depth);
    }

    /** The queue of a layer, and its place in the order of evaluation. */
    lemma InteractiveQueue(d: nat)
      requires Setup() && d < maxDepth
      ensures var queue := QueueOnLvl(interactiveQueueOnLvl, d);
              queue == InteractiveGates(w.gs, d) && Slice(w.gs, w.layers, queue, InteractiveBase(w, d))
    {
      LayerSlices(gates, maxDepth, d);
      QueueIs(gates, true, interactiveQueueOnLvl, d);
    }

    method OpenAll(queue: seq<nat>, ghost d: nat)
      requires Setup() && InteractiveReady(d) && Opened(d, 0) && queue == InteractiveGates(w.gs, d)
      requires Slice(w.gs, w.layers, queue, InteractiveBase(w, d))
      modifies this`rotSndBuf, this`clientSendCorrectionGates, this`serverInBitCtr, this`serverInputGates, this`outputShareSndBuf,
               this`val, this`clientOUTBitCtr
      ensures Opened(d, |InteractiveGates(w.gs, d)|)
    {
      for i := 0 to |queue|
        invariant Opened(d, i) && InteractiveReady(d)
      {
        OpenNext(queue[i], d, i);
      }
    }

    /** A layer: first the local gates, then the interactive ones. */
    method EvaluateLayer(depth: nat)
      requires Setup() && depth < maxDepth && LocalDone(depth, 0) && Opened(depth, 0)
      modifies this`yval, this`garbledTableCtr, this`universalGateTableCtr, this`rotSndBuf, this`clientSendCorrectionGates,
               this`serverInBitCtr, this`serverInputGates, this`outputShareSndBuf, this`val, this`clientOUTBitCtr
      ensures LocalDone(depth, |LocalGates(w.gs, depth)|) && Opened(depth, |InteractiveGates(w.gs, depth)|)
    {
      EvaluateLocalOperations(depth);
      EvaluateOpenings(depth);
    }

    method EvaluateOpenings(depth: nat)
      requires Setup() && depth < maxDepth && LocalDone(depth, |LocalGates(w.gs, depth)|) && Opened(depth, 0)
      modifies this`rotSndBuf, this`clientSendCorrectionGates, this`serverInBitCtr, this`serverInputGates, this`outputShareSndBuf,
               this`val, this`clientOUTBitCtr
      ensures Opened(depth, |InteractiveGates(w.gs, depth)|)
    {
      InteractiveOperands(depth);
      EvaluateInteractiveOperations(depth);
    }

    lemma Started(d: nat)
      requires d < w.layers && LayerStart(d)
      ensures LocalDone(d, 0) && Opened(d, 0) && KeysAwaited(d) && ChoicesUsed(d)
    {
      assert StartPart(Wires, d) && StartPart(Tables, d) && StartPart(Collected, d) && StartPart(Outputs, d) && StartPart(Awaited, d);
      RoundStart(w, d);
      forall part
        ensures OpenedPart(part, d, 0)
      {
      }
    }

    // ----- messages -----------------------------------------------------------------------

    lemma RoundSent(d: nat)
      requires d < w.layers && Opened(d, |InteractiveGates(w.gs, d)|)
      ensures rotSndBuf == LayerString(w, ClientKeys, InputBit(w), d) && outputShareSndBuf == LayerString(w, ServerBits, OutBit(w), d)
    {
      OpenedParts(d, |InteractiveGates(w.gs, d)|);
    }

    /** What the client has noted on layer d. */
    ghost predicate ListsDue(d: nat)
      reads this`rotSndBuf, this`clientSendCorrectionGates, this`serverInBitCtr, this`serverInputGates, this`clientOUTBitCtr
    {
      var q := InteractiveGates(w.gs, d);
      && |rotSndBuf| == Drawn(w.gs, ClientKeys, q, |q|) && clientSendCorrectionGates == ClientInputs(w, d)
      && serverInBitCtr == Drawn(w.gs, ServerKeys, q, |q|) && serverInputGates == Drawers(w.gs, ServerKeys, q, |q|)
      && |Order(w.gs, d + 1)| <= |Order(w.gs, w.layers)|
      && clientOUTBitCtr == Drawn(w.gs, ClientBits, Order(w.gs, w.layers), |Order(w.gs, d + 1)|)
    }

    lemma RoundNoted(d: nat)
      requires d < w.layers && Opened(d, |InteractiveGates(w.gs, d)|)
      ensures ListsDue(d)
    {
      OpenedParts(d, |InteractiveGates(w.gs, d)|);
      LayerEnd(w, d);
      RoundMoved(w, d, InteractiveBase(w, d), |InteractiveGates(w.gs, d)|, |Order(w.gs, d + 1)|);
    }

    lemma RoundDecoded(d: nat)
      requires Opened(d, |InteractiveGates(w.gs, d)|)
      ensures AllDecoded(w, outputShareRcvBuf, d + 1, val)
    {
      OpenedParts(d, |InteractiveGates(w.gs, d)|);
      LayerDecoded(w, outputShareRcvBuf, d, val);
    }

    /** The corrections, and the client's bits of the server's outputs. */
    method GetDataToSend(ghost d: nat) returns (message: ClientMessage)
      requires Setup() && d < maxDepth && Opened(d, |InteractiveGates(w.gs, d)|) && ChoicesUsed(d)
      modifies this`rotSndBuf, this`choiceBitCtr
      ensures message == FromClient(w, d) && ListsDue(d) && ChoicesUsed(d + 1) && AllDecoded(w, outputShareRcvBuf, d + 1, val)
    {
      RoundSent(d);
      RoundNoted(d);
      RoundDecoded(d);
      var corrections := Corrections(rotSndBuf, choiceBits, choiceBitCtr, d, w);
      message := ClientMessage(corrections, outputShareSndBuf);
      rotSndBuf, choiceBitCtr := corrections, choiceBitCtr + |corrections|;
    }

    /** The sizes the client waits for are those of the server's message. */
    method GetBuffersToReceive(ghost d: nat) returns (serverKeys: nat, clientKeys: nat)
      requires ListsDue(d) && KeysAwaited(d)
      ensures serverKeys == |FromServer(w, d).serverKeys|
      ensures clientKeys == |FromServer(w, d).clientKeys0| == |FromServer(w, d).clientKeys1|
    {
      if d > 0 {
        DrawersDrawn(w.gs, ClientKeys, InteractiveGates(w.gs, d - 1), |InteractiveGates(w.gs, d - 1)|);
      }
      serverKeys, clientKeys := serverInBitCtr, clientRcvKeyCtr;
    }

    method SetReceived(message: ServerMessage)
      modifies this`serverInputKeys, this`clientKeyRcvBuf0, this`clientKeyRcvBuf1
      ensures serverInputKeys == message.serverKeys
      ensures clientKeyRcvBuf0 == message.clientKeys0 && clientKeyRcvBuf1 == message.clientKeys1
    {
      serverInputKeys, clientKeyRcvBuf0, clientKeyRcvBuf1 := message.serverKeys, message.clientKeys0, message.clientKeys1;
    }

    // ----- finishing a layer --------------------------------------------------------------

    method AssignServerInputKeys(ghost d: nat)
      requires Setup() && d < maxDepth && serverInputKeys == FromServer(w, d).serverKeys
      requires serverInputGates == Drawers(w.gs, ServerKeys, InteractiveGates(w.gs, d), |InteractiveGates(w.gs, d)|)
      requires serverInBitCtr == Drawn(w.gs, ServerKeys, InteractiveGates(w.gs, d), |InteractiveGates(w.gs, d)|)
      modifies this`yval, this`serverInputGates, this`serverInBitCtr
      ensures AllActive(w, old(serverInputGates), |old(serverInputGates)|, yval)
      ensures forall g: nat | ActiveAt(w, old(yval), g) :: ActiveAt(w, yval, g)
    {
      ServerGates(w, d);
      if serverInBitCtr > 0 {
        yval := AssignServerKeys(yval, serverInputGates, gates, serverInputKeys, w);
        serverInputGates, serverInBitCtr := [], 0;
      }
    }

    method AssignClientInputKeys(ghost d: nat)
      requires Setup() && d < maxDepth && KeysAwaited(d)
      requires clientKeyRcvBuf0 == FromServer(w, d).clientKeys0 && clientKeyRcvBuf1 == FromServer(w, d).clientKeys1
      modifies this`yval, this`clientRcvInputKeyGates, this`clientRcvKeyCtr, this`keyInputRcvIdx
      ensures AllActive(w, AwaitedInputs(w, d), |AwaitedInputs(w, d)|, yval)
      ensures forall g: nat | ActiveAt(w, old(yval), g) :: ActiveAt(w, yval, g)
      ensures NoneAwaited(d)
    {
      AwaitedCount(w, d);
      if clientRcvKeyCtr > 0 {
        TakeClientKeys(d);
        clientRcvInputKeyGates, clientRcvKeyCtr := [], 0;
      }
    }

    method TakeClientKeys(ghost d: nat)
      requires Setup() && d < maxDepth && clientRcvInputKeyGates == AwaitedInputs(w, d) && keyInputRcvIdx == AwaitedFrom(w, d)
      requires clientKeyRcvBuf0 == FromServer(w, d).clientKeys0 && clientKeyRcvBuf1 == FromServer(w, d).clientKeys1
      modifies this`yval, this`keyInputRcvIdx
      ensures AllActive(w, AwaitedInputs(w, d), |AwaitedInputs(w, d)|, yval)
      ensures forall g: nat | ActiveAt(w, old(yval), g) :: ActiveAt(w, yval, g)
      ensures keyInputRcvIdx == AwaitedFrom(w, d) + Drawn(w.gs, ClientKeys, AwaitedInputs(w, d), |AwaitedInputs(w, d)|)
    {
      AwaitedKeys(w, d);
      yval, keyInputRcvIdx := AssignClientKeys(yval, clientRcvInputKeyGates, gates, clientKeyRcvBuf0, clientKeyRcvBuf1,
                                               keyInputRcvIdx, choiceBits, rotMasks, w);
    }

    /** The keys that have arrived are assigned. */
    method AssignKeys(ghost d: nat)
      requires Setup() && d < maxDepth && Closing(d)
      modifies this`yval, this`serverInputGates, this`serverInBitCtr, this`clientRcvInputKeyGates, this`clientRcvKeyCtr,
               this`keyInputRcvIdx
      ensures StoreOk(w, d + 1, yval) && clientRcvInputKeyGates == [] && clientRcvKeyCtr == 0
      ensures keyInputRcvIdx == AwaitedFrom(w, d + 1)
    {
      ClosingParts(d);
      ghost var before, c := yval, serverInputGates;
      AssignServerInputKeys(d);
      ghost var between := yval;
      AssignClientInputKeys(d);
      KeptAlong(w, d, c, before, between, yval);
      LayerEvaluated(w, d, yval);
    }

    ghost predicate Received(d: nat)
      reads this`serverInputKeys, this`clientKeyRcvBuf0, this`clientKeyRcvBuf1
    {
      && serverInputKeys == FromServer(w, d).serverKeys
      && clientKeyRcvBuf0 == FromServer(w, d).clientKeys0 && clientKeyRcvBuf1 == FromServer(w, d).clientKeys1
    }

    /** The corrections that were sent make the client wait for keys. */
    method AwaitKeys(ghost d: nat)
      requires WellFormed(YAO, w.gs) && d < w.layers && NoneAwaited(d) && Sent(d)
      modifies this`rotSndBuf, this`clientSendCorrectionGates, this`clientRcvInputKeyGates, this`clientRcvKeyCtr
      ensures KeysAwaited(d + 1) && rotSndBuf == [] && clientSendCorrectionGates == []
    {
      SentGates(w, d);
      if |rotSndBuf| > 0 {
        clientRcvKeyCtr, rotSndBuf := |rotSndBuf|, [];
        clientRcvInputKeyGates := clientRcvInputKeyGates + clientSendCorrectionGates;
        clientSendCorrectionGates := [];
      }
    }

    method FinishCircuitLayer(ghost d: nat)
      requires Setup() && d < maxDepth && Closing(d)
      modifies this`yval, this`serverInputGates, this`serverInBitCtr, this`clientRcvInputKeyGates, this`clientRcvKeyCtr,
               this`keyInputRcvIdx, this`rotSndBuf, this`clientSendCorrectionGates, this`outputShareSndBuf
      ensures LayerStart(d + 1)
    {
      Remaining(d);
      AssignKeys(d);
      FinishRound(d);
    }

    /** Everything of layer d is there to finish it. */
    ghost predicate Closing(d: nat)
      reads this
    {
      forall part {:trigger ClosingPart(part, d)} :: ClosingPart(part, d)
    }

    ghost predicate ClosingPart(part: Part, d: nat)
      reads this
    {
      match part
      case Wires => LocalDone(d, |LocalGates(w.gs, d)|)
      case Tables => Received(d)
      case Collected => ListsDue(d)
      case Outputs => AllDecoded(w, outputShareRcvBuf, d + 1, val)
      case Awaited => KeysAwaited(d) && ChoicesUsed(d + 1)
    }

    lemma ClosingParts(d: nat)
      requires Closing(d)
      ensures LocalDone(d, |LocalGates(w.gs, d)|) && Received(d) && ListsDue(d) && AllDecoded(w, outputShareRcvBuf, d + 1, val)
      ensures KeysAwaited(d) && ChoicesUsed(d + 1)
    {
      assert ClosingPart(Wires, d) && ClosingPart(Tables, d) && ClosingPart(Collected, d) && ClosingPart(Outputs, d);
      assert ClosingPart(Awaited, d);
    }

    /** The inputs of layer d whose corrections have been sent. */
    ghost predicate Sent(d: nat)
      reads this`rotSndBuf, this`clientSendCorrectionGates
    {
      && |rotSndBuf| == Drawn(w.gs, ClientKeys, InteractiveGates(w.gs, d), |InteractiveGates(w.gs, d)|)
      && clientSendCorrectionGates == ClientInputs(w, d)
    }

    ghost predicate NoneAwaited(d: nat)
      reads this`clientRcvInputKeyGates, this`clientRcvKeyCtr, this`keyInputRcvIdx
    {
      clientRcvInputKeyGates == [] && clientRcvKeyCtr == 0 && keyInputRcvIdx == AwaitedFrom(w, d + 1)
    }

    /** What layer d relies on, besides the wires and the lists of the round. */
    ghost predicate Moved(d: nat)
      reads this`val, this`garbledTableCtr, this`universalGateTableCtr, this`choiceBitCtr, this`clientOUTBitCtr
    {
      forall part {:trigger MovedPart(part, d)} :: MovedPart(part, d)
    }

    ghost predicate MovedPart(part: Part, d: nat)
      reads this`val, this`garbledTableCtr, this`universalGateTableCtr, this`choiceBitCtr, this`clientOUTBitCtr
    {
      match part
      case Wires => true
      case Tables => TablesAt(|Order(w.gs, d)|)
      case Collected =>
        && |Order(w.gs, d)| <= |Order(w.gs, w.layers)|
        && clientOUTBitCtr == Drawn(w.gs, ClientBits, Order(w.gs, w.layers), |Order(w.gs, d)|)
      case Outputs => AllDecoded(w, outputShareRcvBuf, d, val)
      case Awaited => ChoicesUsed(d)
    }

    /** The rest of FinishCircuitLayer. */
    method FinishRound(ghost d: nat)
      requires WellFormed(YAO, w.gs) && d < w.layers && NoneAwaited(d) && Sent(d) && StoreOk(w, d + 1, yval) && Moved(d + 1)
      modifies this`serverInputGates, this`serverInBitCtr, this`clientRcvInputKeyGates, this`clientRcvKeyCtr, this`rotSndBuf,
               this`clientSendCorrectionGates, this`outputShareSndBuf
      ensures LayerStart(d + 1)
    {
      InitNewLayer(d);
      Finished(d + 1);
    }

    method InitNewLayer(ghost d: nat)
      requires WellFormed(YAO, w.gs) && d < w.layers && NoneAwaited(d) && Sent(d)
      modifies this`serverInputGates, this`serverInBitCtr, this`clientRcvInputKeyGates, this`clientRcvKeyCtr, this`rotSndBuf,
               this`clientSendCorrectionGates, this`outputShareSndBuf
      ensures KeysAwaited(d + 1) && RoundBooks() == Round([], [], 0, [], [], clientOUTBitCtr)
    {
      AwaitKeys(d);
      serverInBitCtr, serverInputGates, outputShareSndBuf := 0, [], [];
    }

    lemma Remaining(d: nat)
      requires Setup() && d < maxDepth && Closing(d)
      ensures Sent(d) && Moved(d + 1)
    {
      RemainingTables(d);
      RemainingLists(d);
      RemainingBits(d);
      ghost var next := d + 1;
      forall part
        ensures MovedPart(part, next)
      {
      }
    }

    lemma RemainingTables(d: nat)
      requires d < w.layers && Closing(d)
      ensures MovedPart(Tables, d + 1)
    {
      assert ClosingPart(Wires, d);
      TablesBehind(d);
    }

    lemma RemainingLists(d: nat)
      requires Closing(d)
      ensures Sent(d) && MovedPart(Collected, d + 1)
    {
      assert ClosingPart(Collected, d);
    }

    lemma RemainingBits(d: nat)
      requires Closing(d)
      ensures MovedPart(Outputs, d + 1) && MovedPart(Awaited, d + 1)
    {
      assert ClosingPart(Outputs, d) && ClosingPart(Awaited, d);
    }

    lemma TablesBehind(d: nat)
      requires d < w.layers && TablesAt(InteractiveBase(w, d))
      ensures TablesAt(|Order(w.gs, d + 1)|)
    {
      NoTables(w, AndTables, d);
      NoTables(w, UnivTables, d);
    }

    lemma Finished(d: nat)
      requires d <= w.layers && StoreOk(w, d, yval) && Moved(d) && KeysAwaited(d)
      requires RoundBooks() == Round([], [], 0, [], [], clientOUTBitCtr)
      ensures LayerStart(d)
    {
      forall part
        ensures StartPart(part, d)
      {
        assert MovedPart(part, d) && MovedPart(Collected, d);
      }
    }

    constructor (gs: seq<Gate>, localQueues: seq<seq<nat>>, interactiveQueues: seq<seq<nat>>, layers: nat,
                 values: map<nat, seq<bool>>, bits: nat, encrypt: (Key, nat) -> Key, encryptGRR3: (Key, Key, nat) -> Key,
                 choice: nat -> bool, masks: nat -> Key, ands: seq<HalfGates>, univs: seq<Rows>, outputs: seq<bool>, ghost run: Run)
      requires Correct(run) && run.gs == gs && run.layers == layers && run.kappa == bits
      requires run.enc == encrypt && run.pad == encryptGRR3 && run.choice == choice && MasksHeld(run, masks)
      requires Queued(gs, localQueues, interactiveQueues, layers) && OwnInputs(run, CLIENT, values)
      requires ands == Strung(gs, AndTables, AndRows(run), Order(gs, layers), |Order(gs, layers)|)
      requires univs == Strung(gs, UnivTables, UnivRows(run), Order(gs, layers), |Order(gs, layers)|)
      requires outputs == Strung(gs, ClientBits, OutPi(run), Built(gs, ClientBits, |gs|), |Built(gs, ClientBits, |gs|)|)
      ensures w == run && gates == gs && maxDepth == layers && Setup() && LayerStart(0)
    {
      gates, localQueueOnLvl, interactiveQueueOnLvl, maxDepth := gs, localQueues, interactiveQueues, layers;
      inputs, kappa, enc, pad, choiceBits, rotMasks, w := values, bits, encrypt, encryptGRR3, choice, masks, run;
      garbledCircuit, universalGateTable, outputShareRcvBuf := ands, univs, outputs;
      yval, val, garbledTableCtr, universalGateTableCtr := map[], map[], 0, 0;
      rotSndBuf, choiceBitCtr, clientSendCorrectionGates, clientRcvInputKeyGates := [], 0, [], [];
      clientRcvKeyCtr, keyInputRcvIdx, serverInBitCtr, serverInputGates, serverInputKeys := 0, 0, 0, [], [];
      clientKeyRcvBuf0, clientKeyRcvBuf1, outputShareSndBuf, clientOUTBitCtr := [], [], [], 0;
      new;
      forall part
        ensures StartPart(part, 0)
      {
      }
    }
  }
}