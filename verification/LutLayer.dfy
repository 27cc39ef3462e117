/** The state of a party on a layer of an SP-LUT run, and how gates change it. */
module LutLayer {
  import opened Bits
  import opened LutCircuit
  import opened LutSpec
  import opened LutTables
  import opened LutMessage

  /** Whether the party ever holds a value for the gate; outputs of the other party are only sent. */
  predicate Held(gs: seq<Gate>, r: Role, g: nat) {
    g < |gs| && !(gs[g].op.Out? && !gs[g].op.dst.Includes(r))
  }

  function LocalQueue(gs: seq<Gate>, d: nat): (q: seq<nat>)
    ensures Ids(gs, q)
  {
    Queue(gs, false, d, |gs|)
  }

  /** The classes whose supplies have been prepared cover all tables. */
  ghost predicate ClassesOk(gs: seq<Gate>, classes: seq<Class>) {
    && (forall i, j | 0 <= i < j < |classes| :: classes[i] != classes[j])
    && (forall i | 0 <= i < |classes| :: classes[i].ins <= 8)
    && (forall g {:trigger gs[g]} | 0 <= g < |gs| && gs[g].op.Table? :: ClassOf(gs, g) in classes)
  }

  /** Gates whose values a party has: those before layer d, the first i local ones, and own inputs among the first k interactive ones. */
  predicate Known(w: World, r: Role, d: nat, i: nat, k: nat, g: nat)
    requires i <= |LocalQueue(w.gs, d)| && k <= |Layer(w.gs, d)|
  {
    && Held(w.gs, r, g)
    && (w.gs[g].depth < d || g in LocalQueue(w.gs, d)[..i] || (w.gs[g].op == In(r) && g in Layer(w.gs, d)[..k]))
  }

  /** A party stores its shares, and all it needs. */
  ghost predicate ValuesAt(w: World, r: Role, val: map<nat, seq<bool>>, d: nat, i: nat, k: nat)
    requires i <= |LocalQueue(w.gs, d)| && k <= |Layer(w.gs, d)|
  {
    && (forall g {:trigger g in val} | g in val :: g < |w.gs| && val[g] == Share(w, r, g))
    && (forall g: nat {:trigger Known(w, r, d, i, k, g)} | Known(w, r, d, i, k, g) :: g in val)
  }

  /** Operands of a gate are stored when it is evaluated. */
  lemma OperandStored(w: World, r: Role, val: map<nat, seq<bool>>, d: nat, i: nat, k: nat, g: nat, p: nat)
    requires i <= |LocalQueue(w.gs, d)| && k <= |Layer(w.gs, d)|
    requires WellFormed(w.gs) && ValuesAt(w, r, val, d, i, k) && g < |w.gs| && w.gs[g].depth == d && p in Parents(w.gs[g].op)
    requires i == |LocalQueue(w.gs, d)| || g == LocalQueue(w.gs, d)[i]
    ensures p < g && p in val && val[p] == Share(w, r, p)
  {
    assert GateOk(w.gs, g);
    var q := LocalQueue(w.gs, d);
    assert OperandOk(w.gs, g, p) && Held(w.gs, r, p);
    if w.gs[p].depth == d {
      QueueMembers(w.gs, false, d, |w.gs|, p);
      if i < |q| {
        QueueTake(w.gs, false, d, |w.gs|, i);
        QueueMembers(w.gs, false, d, g, p);
      } else {
        assert q[..i] == q;
      }
    }
    assert Known(w, r, d, i, k, p);
  }

  lemma OperandsStored(w: World, r: Role, val: map<nat, seq<bool>>, d: nat, i: nat, k: nat, g: nat)
    requires i <= |LocalQueue(w.gs, d)| && k <= |Layer(w.gs, d)|
    requires WellFormed(w.gs) && ValuesAt(w, r, val, d, i, k) && g < |w.gs| && w.gs[g].depth == d
    requires i == |LocalQueue(w.gs, d)| || g == LocalQueue(w.gs, d)[i]
    ensures OperandsHeld(w, r, val, g) && ParentsBelow(w.gs[g].op, g)
  {
    forall k' | 0 <= k' < |Parents(w.gs[g].op)|
      ensures var p := Parents(w.gs[g].op)[k']; p < g && p in val && val[p] == Share(w, r, p)
    {
      OperandStored(w, r, val, d, i, k, g, Parents(w.gs[g].op)[k']);
    }
  }

  lemma LocalStep(w: World, r: Role, val: map<nat, seq<bool>>, d: nat, i: nat)
    requires i < |LocalQueue(w.gs, d)| && ValuesAt(w, r, val, d, i, 0)
    ensures var g := LocalQueue(w.gs, d)[i]; ValuesAt(w, r, val[g := Share(w, r, g)], d, i + 1, 0)
  {
    var q := LocalQueue(w.gs, d);
    forall g: nat | Known(w, r, d, i + 1, 0, g)
      ensures g == q[i] || g in val
    {
      assert q[..i + 1] == q[..i] + [q[i]];
      assert Known(w, r, d, i, 0, g) || g == q[i];
    }
  }

  /** After an interactive gate an own input is there. */
  lemma ValuesStep(w: World, r: Role, val: map<nat, seq<bool>>, v: map<nat, seq<bool>>, d: nat, i: nat, k: nat)
    requires i <= |LocalQueue(w.gs, d)| && k < |Layer(w.gs, d)| && ValuesAt(w, r, val, d, i, k)
    requires v == val[Layer(w.gs, d)[k] := Share(w, r, Layer(w.gs, d)[k])] || (v == val && w.gs[Layer(w.gs, d)[k]].op != In(r))
    ensures ValuesAt(w, r, v, d, i, k + 1)
  {
    var q := Layer(w.gs, d);
    forall g: nat | Known(w, r, d, i, k + 1, g)
      ensures g in v
    {
      assert q[..k + 1] == q[..k] + [q[k]];
      assert Known(w, r, d, i, k, g) || (g == q[k] && w.gs[g].op == In(r));
    }
  }

  // ----- the lists and buffers of a layer -------------------------------------------------

  /** The gates of a list that take from a supply of inputs or outputs, in order. */
  function Takers(gs: seq<Gate>, s: Stock, q: seq<nat>, i: nat): (m: seq<nat>)
    requires Ids(gs, q) && i <= |q|
    ensures Ids(gs, m)
  {
    if i == 0 then []
    else
      var m := Takers(gs, s, q, i - 1);
      if Amount(gs, s, q[i - 1]) > 0 then m + [q[i - 1]] else m
  }

  /** What has been gathered on a layer: tables by their numbers of inputs, what is awaited, and what is to be sent. */
  datatype Gathered = Gathered(ttGates: seq<seq<nat>>, inputGates: seq<nat>, outputGates: seq<nat>, inputSize: nat, outputSize: nat,
                               inputSnd: seq<bool>, outputSnd: seq<bool>)

  /** The first i interactive gates of layer d. */
  function GatheredAt(w: World, r: Role, d: nat, i: nat): Gathered
    requires i <= |Layer(w.gs, d)|
  {
    var q := Layer(w.gs, d);
    Gathered(seq(9, k requires 0 <= k => Grouped(w.gs, k, q, i)),
             Takers(w.gs, Inputs(r.Other()), q, i), Takers(w.gs, Outputs(r), q, i),
             Taken(w.gs, Inputs(r.Other()), q, i), Taken(w.gs, Outputs(r), q, i),
             Strung(w.gs, Inputs(r), InBits(w, r), q, i), Strung(w.gs, Outputs(r.Other()), OutBits(w, r), q, i))
  }

  /** A gate is listed if it waits for something. */
  function Listed(list: seq<nat>, g: nat, amount: nat): seq<nat> {
    if amount > 0 then list + [g] else list
  }

  function WithTable(f: Gathered, g: nat, ins: nat): Gathered
    requires ins < |f.ttGates|
  {
    f.(ttGates := f.ttGates[ins := f.ttGates[ins] + [g]])
  }

  function WithBits(f: Gathered, g: nat, inBits: seq<bool>, outBits: seq<bool>, inWait: nat, outWait: nat): Gathered {
    Gathered(f.ttGates, Listed(f.inputGates, g, inWait), Listed(f.outputGates, g, outWait), f.inputSize + inWait, f.outputSize + outWait,
             f.inputSnd + inBits, f.outputSnd + outBits)
  }

  lemma {:induction false} NothingTaken<T>(gs: seq<Gate>, s: Stock, f: (nat, nat) -> T, g: nat)
    requires g < |gs| && Amount(gs, s, g) == 0
    ensures Block(gs, s, f, g) == []
  {
  }

  lemma TableGathered(w: World, r: Role, d: nat, i: nat, g: nat, ins: nat)
    requires WellFormed(w.gs) && i < |Layer(w.gs, d)| && g == Layer(w.gs, d)[i] && w.gs[g].op.Table? && ins == |w.gs[g].op.inputs|
    ensures ins < 9 && GatheredAt(w, r, d, i + 1) == WithTable(GatheredAt(w, r, d, i), g, ins)
  {
    assert GateOk(w.gs, g);
    NothingTaken(w.gs, Inputs(r), InBits(w, r), g);
    NothingTaken(w.gs, Outputs(r.Other()), OutBits(w, r), g);
  }

  /** The bits a gate sends and those it waits for. */
  ghost predicate GateBits(w: World, r: Role, g: nat, inBits: seq<bool>, outBits: seq<bool>, inWait: nat, outWait: nat) {
    && g < |w.gs| && inBits == Block(w.gs, Inputs(r), InBits(w, r), g) && outBits == Block(w.gs, Outputs(r.Other()), OutBits(w, r), g)
    && inWait == Amount(w.gs, Inputs(r.Other()), g) && outWait == Amount(w.gs, Outputs(r), g)
  }

  lemma BitsGathered(w: World, r: Role, d: nat, i: nat, g: nat, inBits: seq<bool>, outBits: seq<bool>, inWait: nat, outWait: nat)
    requires i < |Layer(w.gs, d)| && g == Layer(w.gs, d)[i] && !w.gs[g].op.Table? && GateBits(w, r, g, inBits, outBits, inWait, outWait)
    ensures GatheredAt(w, r, d, i + 1) == WithBits(GatheredAt(w, r, d, i), g, inBits, outBits, inWait, outWait)
  {
  }

  /** The supplies of a class are used up to layer d, alike on both sides. */
  ghost predicate IndicesAt(w: World, r: Role, c: Class, lane: Lane, d: nat) {
    && Supplied(w, r, c, lane)
    && lane.maskIdx == Used(w.gs, Transfers(c), r, d) && lane.tableRndIdx == Used(w.gs, Masks(c), r, d)
    && lane.choiceIdx == Used(w.gs, Transfers(c), r.Other(), d)
  }

  /**
    The tables of a class among the first i interactive gates of layer d: a sender waits for updates; a receiver has
    its updates ready and waits for answers, and until it sends it keeps its answers of the layer before.
   */
  ghost predicate LaneAt(w: World, r: Role, c: Class, lane: Lane, d: nat, i: nat, sent: bool) {
    var q := Layer(w.gs, d);
    && i <= |q| && IndicesAt(w, r, c, lane, d)
    && if r == Sender(d) then
         && lane.choiceSnd == [] && lane.maskSnd == [] && lane.maskRcvCtr == 0
         && lane.choiceRcvCtr == Taken(w.gs, Transfers(c), q, i)
       else
         && lane.choiceSnd == Strung(w.gs, Transfers(c), Updates(w), q, i) && lane.choiceRcvCtr == 0
         && lane.maskRcvCtr == Taken(w.gs, Transfers(c), q, i)
         && lane.maskSnd == if sent || d == 0 then [] else LayerAnswers(w, c, d - 1)
  }

  ghost predicate ClassAt(w: World, r: Role, lanes: map<Class, Lane>, c: Class, d: nat, i: nat, sent: bool) {
    c in lanes && LaneAt(w, r, c, lanes[c], d, i, sent)
  }

  ghost predicate LanesAt(w: World, r: Role, classes: seq<Class>, lanes: map<Class, Lane>, d: nat, i: nat, sent: bool) {
    forall c {:trigger ClassAt(w, r, lanes, c, d, i, sent)} | c in classes :: ClassAt(w, r, lanes, c, d, i, sent)
  }

  /** A sender stashes its shares; as a receiver of the next layer it still has them. */
  ghost predicate StashAt(w: World, r: Role, stash: seq<Buffer>, d: nat, sent: bool) {
    stash == if r == Sender(d) then (if sent then ShareBufs(w, r, d) else []) else if d == 0 then [] else ShareBufs(w, r, d - 1)
  }

  /** What a table gate adds to the buffers of its class. */
  function Extended(w: World, r: Role, c: Class, lane: Lane, d: nat, g: nat): Lane
    requires g < |w.gs|
  {
    if r == Sender(d) then lane.(choiceRcvCtr := lane.choiceRcvCtr + Amount(w.gs, Transfers(c), g))
    else lane.(choiceSnd := lane.choiceSnd + Block(w.gs, Transfers(c), Updates(w), g),
               maskRcvCtr := lane.maskRcvCtr + Amount(w.gs, Transfers(c), g))
  }

  lemma LaneStep(w: World, r: Role, c: Class, lane: Lane, d: nat, i: nat)
    requires LaneAt(w, r, c, lane, d, i, false) && i < |Layer(w.gs, d)|
    ensures LaneAt(w, r, c, Extended(w, r, c, lane, d, Layer(w.gs, d)[i]), d, i + 1, false)
  {
  }

  /** A class the gate does not belong to is not affected. */
  lemma OtherLane(w: World, r: Role, c: Class, lane: Lane, d: nat, i: nat)
    requires LaneAt(w, r, c, lane, d, i, false) && i < |Layer(w.gs, d)| && !InClass(w.gs, c, Layer(w.gs, d)[i])
    ensures LaneAt(w, r, c, lane, d, i + 1, false)
  {
    LaneStep(w, r, c, lane, d, i);
    NothingTaken(w.gs, Transfers(c), Updates(w), Layer(w.gs, d)[i]);
    assert Extended(w, r, c, lane, d, Layer(w.gs, d)[i]) == lane;
  }

  /** The class of a table gate is there. */
  lemma OwnLane(w: World, r: Role, classes: seq<Class>, lanes: map<Class, Lane>, d: nat, i: nat, g: nat, c: Class)
    requires LanesAt(w, r, classes, lanes, d, i, false) && ClassesOk(w.gs, classes) && g < |w.gs| && InClass(w.gs, c, g)
    ensures c in classes && c in lanes && LaneAt(w, r, c, lanes[c], d, i, false)
  {
    assert c == ClassOf(w.gs, g) && ClassAt(w, r, lanes, c, d, i, false);
  }

  lemma LanesStep(w: World, r: Role, classes: seq<Class>, lanes: map<Class, Lane>, own: Class, lane: Lane, d: nat, i: nat)
    requires LanesAt(w, r, classes, lanes, d, i, false) && i < |Layer(w.gs, d)| && InClass(w.gs, own, Layer(w.gs, d)[i])
    requires own in classes && own in lanes && lane == Extended(w, r, own, lanes[own], d, Layer(w.gs, d)[i])
    ensures LanesAt(w, r, classes, lanes[own := lane], d, i + 1, false)
  {
    forall c | c in classes
      ensures ClassAt(w, r, lanes[own := lane], c, d, i + 1, false)
    {
      assert ClassAt(w, r, lanes, c, d, i, false);
      if c != own {
        OtherLane(w, r, c, lanes[c], d, i);
      } else {
        LaneStep(w, r, c, lanes[c], d, i);
      }
    }
  }

  /** The choices a receiver has made for a class, and where it has used them up. */
  ghost predicate ChosenWords(w: World, c: Class, otC: seq<nat>, d: nat) {
    |otC| == Used(w.gs, Transfers(c), Sender(d), w.layers) && forall v | 0 <= v < |otC| :: otC[v] == w.choice(Sender(d), c, v)
  }

  lemma OwnChoices(w: World, r: Role, c: Class, lane: Lane, d: nat, i: nat)
    requires LaneAt(w, r, c, lane, d, i, false) && r != Sender(d)
    ensures ChosenWords(w, c, lane.otC, d)
    ensures lane.choiceIdx + |lane.choiceSnd| == Used(w.gs, Transfers(c), Sender(d), d) + Taken(w.gs, Transfers(c), Layer(w.gs, d), i)
  {
    assert r.Other() == Sender(d);
  }

  /** Other interactive gates leave the classes alone. */
  lemma LanesKept(w: World, r: Role, classes: seq<Class>, lanes: map<Class, Lane>, d: nat, i: nat)
    requires LanesAt(w, r, classes, lanes, d, i, false) && i < |Layer(w.gs, d)| && !w.gs[Layer(w.gs, d)[i]].op.Table?
    ensures LanesAt(w, r, classes, lanes, d, i + 1, false)
  {
    forall c | c in classes
      ensures ClassAt(w, r, lanes, c, d, i + 1, false)
    {
      assert ClassAt(w, r, lanes, c, d, i, false);
      OtherLane(w, r, c, lanes[c], d, i);
    }
  }

  /** Where the next table gate finds the choices that have been made in advance. */
  lemma ChoicesFound(w: World, c: Class, otC: seq<nat>, d: nat, i: nat, from: nat)
    requires Correct(w) && i < |Layer(w.gs, d)| && InClass(w.gs, c, Layer(w.gs, d)[i])
    requires ChosenWords(w, c, otC, d)
    requires from == Used(w.gs, Transfers(c), Sender(d), d) + Taken(w.gs, Transfers(c), Layer(w.gs, d), i)
    ensures var g := Layer(w.gs, d)[i];
            && from + Vals(w.gs, g) <= |otC|
            && forall n: nat | n < Vals(w.gs, g) :: otC[from + n] == Choice(w, g, n)
  {
    var g := Layer(w.gs, d)[i];
    OffsetInLayer(w.gs, Transfers(c), d, i);
    assert w.gs[g].depth < w.layers;
    PlaceInLayer(w.gs, Transfers(c), d, i, w.layers);
  }

  /** Nothing was to come, or it is there. */
  predicate Got<T(==)>(buffer: seq<T>, content: seq<T>) {
    content == [] || buffer == content
  }

  /** The updates or the answers of a class have arrived. */
  ghost predicate LaneGot(w: World, r: Role, c: Class, lane: Lane, d: nat) {
    if r == Sender(d) then Got(lane.choiceRcv, LayerUpdates(w, c, d)) else Got(lane.maskRcv, LayerAnswers(w, c, d))
  }

  ghost predicate ClassGot(w: World, r: Role, lanes: map<Class, Lane>, c: Class, d: nat) {
    c in lanes && LaneGot(w, r, c, lanes[c], d)
  }

  /** The answers a receiver of layer d still has to send. */
  function OldAnswers(w: World, classes: seq<Class>, d: nat, k: nat): seq<Buffer> {
    if d == 0 then [] else AnswerBufs(w, classes, d - 1, k)
  }

  /** Party r is the receiver of layer d: what it says is what the other party waits for. */
  lemma ReceiverMessage(w: World, classes: seq<Class>, r: Role, d: nat)
    requires r != Sender(d)
    ensures Message(w, classes, r, d) ==
            (if d == 0 then [] else ShareBufs(w, r, d - 1)) + OldAnswers(w, classes, d, 0) + ShareBufs(w, r, d) + ChoiceBufs(w, classes, d, 0)
  {
    assert Sender(d).Other() == r;
    if d > 0 {
      assert Sender(d) != Sender(d - 1);
    }
  }

  // ----- the end of a layer ---------------------------------------------------------------

  /** The tables of layer d with ins inputs. */
  function Group(gs: seq<Gate>, ins: nat, d: nat): (m: seq<nat>)
    ensures Ids(gs, m)
  {
    Grouped(gs, ins, Layer(gs, d), |Layer(gs, d)|)
  }

  /** A class when the messages are there and the first m tables of its group are finished. */
  ghost predicate PartAt(w: World, r: Role, c: Class, lane: Lane, d: nat, m: nat) {
    var g := Group(w.gs, c.ins, d);
    && m <= |g| && Supplied(w, r, c, lane) && LaneGot(w, r, c, lane, d)
    && if r == Sender(d) then
         && lane.maskIdx == Used(w.gs, Transfers(c), r, d) + Taken(w.gs, Transfers(c), g, m)
         && lane.tableRndIdx == Used(w.gs, Masks(c), r, d) + Taken(w.gs, Masks(c), g, m)
         && lane.choiceIdx == Used(w.gs, Transfers(c), r.Other(), d)
         && lane.maskSnd == Strung(w.gs, Transfers(c), Answers(w), g, m)
       else
         && lane.maskIdx == Used(w.gs, Transfers(c), r, d) && lane.tableRndIdx == Used(w.gs, Masks(c), r, d)
         && lane.choiceIdx == Used(w.gs, Transfers(c), r.Other(), d) + Taken(w.gs, Transfers(c), g, m)
         && lane.maskSnd == []
  }

  lemma PartStart(w: World, r: Role, c: Class, lane: Lane, d: nat)
    requires LaneAt(w, r, c, lane, d, |Layer(w.gs, d)|, true) && LaneGot(w, r, c, lane, d)
    ensures PartAt(w, r, c, lane, d, 0)
  {
  }

  /** The indices have moved on to the next layer, on both sides by the same amount. */
  lemma PartEnd(w: World, r: Role, c: Class, lane: Lane, d: nat)
    requires PartAt(w, r, c, lane, d, |Group(w.gs, c.ins, d)|)
    ensures IndicesAt(w, r, c, lane, d + 1) && lane.maskSnd == if r == Sender(d) then LayerAnswers(w, c, d) else []
  {
    GroupedTaken(w.gs, Transfers(c), c.ins, Layer(w.gs, d), |Layer(w.gs, d)|);
    GroupedTaken(w.gs, Masks(c), c.ins, Layer(w.gs, d), |Layer(w.gs, d)|);
    GroupedStrung(w.gs, Transfers(c), Answers(w), c.ins, Layer(w.gs, d), |Layer(w.gs, d)|);
  }

  /** What a finished table changes in its class. */
  function Completed(w: World, r: Role, c: Class, lane: Lane, d: nat, g: nat): Lane
    requires g < |w.gs|
  {
    if r == Sender(d) then lane.(maskIdx := lane.maskIdx + Amount(w.gs, Transfers(c), g),
                                 tableRndIdx := lane.tableRndIdx + Amount(w.gs, Masks(c), g),
                                 maskSnd := lane.maskSnd + Block(w.gs, Transfers(c), Answers(w), g))
    else lane.(choiceIdx := lane.choiceIdx + Amount(w.gs, Transfers(c), g))
  }

  lemma PartStep(w: World, r: Role, c: Class, lane: Lane, d: nat, m: nat)
    requires PartAt(w, r, c, lane, d, m) && m < |Group(w.gs, c.ins, d)|
    ensures PartAt(w, r, c, Completed(w, r, c, lane, d, Group(w.gs, c.ins, d)[m]), d, m + 1)
  {
  }

  /** Tables of other classes in the same group. */
  lemma PartKept(w: World, r: Role, c: Class, lane: Lane, d: nat, m: nat)
    requires PartAt(w, r, c, lane, d, m) && m < |Group(w.gs, c.ins, d)| && !InClass(w.gs, c, Group(w.gs, c.ins, d)[m])
    ensures PartAt(w, r, c, lane, d, m + 1)
  {
    PartStep(w, r, c, lane, d, m);
    NothingTaken(w.gs, Transfers(c), Answers(w), Group(w.gs, c.ins, d)[m]);
    assert Completed(w, r, c, lane, d, Group(w.gs, c.ins, d)[m]) == lane;
  }

  /** Table m of a group, at its place in a string of the layer. */
  lemma GroupPlace(w: World, c: Class, d: nat, m: nat, g: nat) returns (j: nat)
    requires Correct(w) && m < |Group(w.gs, c.ins, d)| && g == Group(w.gs, c.ins, d)[m] && InClass(w.gs, c, g)
    ensures j < |Layer(w.gs, d)| && Layer(w.gs, d)[j] == g && w.gs[g].depth == d && d < w.layers
    ensures Taken(w.gs, Transfers(c), Layer(w.gs, d), j) == Taken(w.gs, Transfers(c), Group(w.gs, c.ins, d), m)
    ensures Place(w.gs, Transfers(c), g) == Used(w.gs, Transfers(c), Sender(d), d) + Taken(w.gs, Transfers(c), Group(w.gs, c.ins, d), m)
    ensures Place(w.gs, Transfers(c), g) + Vals(w.gs, g) <= Used(w.gs, Transfers(c), Sender(d), w.layers)
  {
    j := GroupedPosition(w.gs, Transfers(c), c.ins, Layer(w.gs, d), |Layer(w.gs, d)|, m);
    OffsetInLayer(w.gs, Transfers(c), d, j);
    assert w.gs[g].depth < w.layers;
    PlaceInLayer(w.gs, Transfers(c), d, j, w.layers);
  }

  lemma MaskPlace(w: World, c: Class, d: nat, m: nat, g: nat)
    requires Correct(w) && m < |Group(w.gs, c.ins, d)| && g == Group(w.gs, c.ins, d)[m] && InClass(w.gs, c, g)
    ensures Place(w.gs, Masks(c), g) == Used(w.gs, Masks(c), Sender(d), d) + Taken(w.gs, Masks(c), Group(w.gs, c.ins, d), m)
    ensures Place(w.gs, Masks(c), g) + w.gs[g].nvals <= Used(w.gs, Masks(c), Sender(d), w.layers)
  {
    var j := GroupedPosition(w.gs, Masks(c), c.ins, Layer(w.gs, d), |Layer(w.gs, d)|, m);
    OffsetInLayer(w.gs, Masks(c), d, j);
    assert w.gs[g].depth < w.layers;
    PlaceInLayer(w.gs, Masks(c), d, j, w.layers);
  }

  /** Where the table finds its part of a message of its class. */
  lemma PartFound<T>(w: World, c: Class, f: (nat, nat) -> T, buffer: seq<T>, d: nat, m: nat, g: nat, from: nat)
    requires Correct(w) && m < |Group(w.gs, c.ins, d)| && g == Group(w.gs, c.ins, d)[m] && InClass(w.gs, c, g) && Vals(w.gs, g) > 0
    requires Got(buffer, Strung(w.gs, Transfers(c), f, Layer(w.gs, d), |Layer(w.gs, d)|))
    requires from == Taken(w.gs, Transfers(c), Group(w.gs, c.ins, d), m)
    ensures from + Vals(w.gs, g) <= |buffer| && buffer[from..from + Vals(w.gs, g)] == Block(w.gs, Transfers(c), f, g)
  {
    var j := GroupPlace(w, c, d, m, g);
    StrungSlice(w.gs, Transfers(c), f, Layer(w.gs, d), j, |Layer(w.gs, d)|);
  }

  /** How far a class is when the groups before ins and the first m tables of that group are finished. */
  function Progress(gs: seq<Gate>, c: Class, d: nat, ins: nat, m: nat): nat {
    if c.ins < ins then |Group(gs, c.ins, d)| else if c.ins == ins then m else 0
  }

  ghost predicate ClassPart(w: World, r: Role, lanes: map<Class, Lane>, c: Class, d: nat, ins: nat, m: nat) {
    c in lanes && PartAt(w, r, c, lanes[c], d, Progress(w.gs, c, d, ins, m))
  }

  ghost predicate PartsAt(w: World, r: Role, classes: seq<Class>, lanes: map<Class, Lane>, d: nat, ins: nat, m: nat) {
    forall c {:trigger ClassPart(w, r, lanes, c, d, ins, m)} | c in classes :: ClassPart(w, r, lanes, c, d, ins, m)
  }

  lemma PartsStart(w: World, r: Role, classes: seq<Class>, lanes: map<Class, Lane>, d: nat)
    requires LanesAt(w, r, classes, lanes, d, |Layer(w.gs, d)|, true)
    requires forall c {:trigger ClassGot(w, r, lanes, c, d)} | c in classes :: ClassGot(w, r, lanes, c, d)
    ensures PartsAt(w, r, classes, lanes, d, 0, 0)
  {
    forall c | c in classes
      ensures ClassPart(w, r, lanes, c, d, 0, 0)
    {
      assert ClassAt(w, r, lanes, c, d, |Layer(w.gs, d)|, true) && ClassGot(w, r, lanes, c, d);
      PartStart(w, r, c, lanes[c], d);
    }
  }

  lemma PartsNextGroup(w: World, r: Role, classes: seq<Class>, lanes: map<Class, Lane>, d: nat, ins: nat)
    requires PartsAt(w, r, classes, lanes, d, ins, |Group(w.gs, ins, d)|)
    ensures PartsAt(w, r, classes, lanes, d, ins + 1, 0)
  {
    forall c | c in classes
      ensures ClassPart(w, r, lanes, c, d, ins + 1, 0)
    {
      assert ClassPart(w, r, lanes, c, d, ins, |Group(w.gs, ins, d)|);
    }
  }

  lemma PartsStep(w: World, r: Role, classes: seq<Class>, lanes: map<Class, Lane>, own: Class, d: nat, m: nat, g: nat)
    requires PartsAt(w, r, classes, lanes, d, own.ins, m) && own in classes && own in lanes
    requires m < |Group(w.gs, own.ins, d)| && g == Group(w.gs, own.ins, d)[m] && InClass(w.gs, own, g)
    ensures PartsAt(w, r, classes, lanes[own := Completed(w, r, own, lanes[own], d, g)], d, own.ins, m + 1)
  {
    var next := lanes[own := Completed(w, r, own, lanes[own], d, g)];
    forall c | c in classes
      ensures ClassPart(w, r, next, c, d, own.ins, m + 1)
    {
      assert ClassPart(w, r, lanes, c, d, own.ins, m);
      if c == own {
        PartStep(w, r, c, lanes[c], d, m);
      } else if c.ins == own.ins {
        PartKept(w, r, c, lanes[c], d, m);
      }
    }
  }

  /** The counters of a group stand where its tables find their messages. */
  ghost predicate CountersAt(gs: seq<Gate>, classes: seq<Class>, ctr: map<Class, nat>, d: nat, ins: nat, m: nat) {
    && m <= |Group(gs, ins, d)|
    && forall c {:trigger c in classes} | c in classes :: c in ctr && (c.ins == ins ==> ctr[c] == Taken(gs, Transfers(c), Group(gs, ins, d), m))
  }

  lemma CountersStep(gs: seq<Gate>, classes: seq<Class>, ctr: map<Class, nat>, own: Class, d: nat, m: nat, g: nat)
    requires CountersAt(gs, classes, ctr, d, own.ins, m) && own in classes
    requires m < |Group(gs, own.ins, d)| && g == Group(gs, own.ins, d)[m] && InClass(gs, own, g)
    ensures CountersAt(gs, classes, ctr[own := ctr[own] + Vals(gs, g)], d, own.ins, m + 1)
  {
    forall c | c in classes && c.ins == own.ins
      ensures ctr[own := ctr[own] + Vals(gs, g)][c] == Taken(gs, Transfers(c), Group(gs, own.ins, d), m + 1)
    {
      assert InClass(gs, c, g) ==> c == own;
    }
  }

  /** A gate that takes from a supply sits in the queue with the same amount taken before it. */
  lemma {:induction false} TakersPosition(gs: seq<Gate>, s: Stock, q: seq<nat>, i: nat, k: nat) returns (j: nat)
    requires Ids(gs, q) && i <= |q| && k < |Takers(gs, s, q, i)|
    ensures j < i && q[j] == Takers(gs, s, q, i)[k] && Amount(gs, s, q[j]) > 0
    ensures Taken(gs, s, q, j) == Taken(gs, s, Takers(gs, s, q, i), k)
  {
    var m := Takers(gs, s, q, i - 1);
    if k < |m| {
      j := TakersPosition(gs, s, q, i - 1, k);
    } else {
      j := i - 1;
      TakersTaken(gs, s, q, i - 1);
    }
    TakenCong(gs, s, Takers(gs, s, q, i), m, k);
  }

  lemma {:induction false} TakersTaken(gs: seq<Gate>, s: Stock, q: seq<nat>, i: nat)
    requires Ids(gs, q) && i <= |q|
    ensures Taken(gs, s, Takers(gs, s, q, i), |Takers(gs, s, q, i)|) == Taken(gs, s, q, i)
  {
    if i > 0 {
      TakersTaken(gs, s, q, i - 1);
      var m := Takers(gs, s, q, i - 1);
      TakenCong(gs, s, Takers(gs, s, q, i), m, |m|);
    }
  }

  /** The gates of layer d that take from a supply of inputs or outputs. */
  function TakersOf(gs: seq<Gate>, s: Stock, d: nat): (m: seq<nat>)
    ensures Ids(gs, m)
  {
    Takers(gs, s, Layer(gs, d), |Layer(gs, d)|)
  }

  /** Where such a gate finds its part of a message. */
  lemma ShareFound<T>(w: World, s: Stock, f: (nat, nat) -> T, buffer: seq<T>, d: nat, m: nat, from: nat) returns (j: nat)
    requires m < |TakersOf(w.gs, s, d)| && from == Taken(w.gs, s, TakersOf(w.gs, s, d), m)
    requires Got(buffer, Strung(w.gs, s, f, Layer(w.gs, d), |Layer(w.gs, d)|))
    ensures var g := TakersOf(w.gs, s, d)[m];
            && j < |Layer(w.gs, d)| && g == Layer(w.gs, d)[j] && w.gs[g].depth == d && Amount(w.gs, s, g) > 0 && from == Offset(w.gs, s, g)
            && from + Amount(w.gs, s, g) <= |buffer| && buffer[from..from + Amount(w.gs, s, g)] == Block(w.gs, s, f, g)
  {
    j := TakersPosition(w.gs, s, Layer(w.gs, d), |Layer(w.gs, d)|, m);
    OffsetInLayer(w.gs, s, d, j);
    StrungSlice(w.gs, s, f, Layer(w.gs, d), j, |Layer(w.gs, d)|);
  }

  lemma {:induction false} TakersMember(gs: seq<Gate>, s: Stock, q: seq<nat>, i: nat, g: nat)
    requires Ids(gs, q) && i <= |q| && g in q[..i] && Amount(gs, s, g) > 0
    ensures g in Takers(gs, s, q, i)
  {
    if g != q[i - 1] {
      assert q[..i] == q[..i - 1] + [q[i - 1]];
      TakersMember(gs, s, q, i - 1, g);
    }
  }

  lemma {:induction false} GroupedMember(gs: seq<Gate>, q: seq<nat>, i: nat, g: nat)
    requires Ids(gs, q) && i <= |q| && g in q[..i] && gs[g].op.Table?
    ensures g in Grouped(gs, |gs[g].op.inputs|, q, i)
  {
    if g != q[i - 1] {
      assert q[..i] == q[..i - 1] + [q[i - 1]];
      GroupedMember(gs, q, i - 1, g);
    }
  }

  /** The tables of a group have its number of inputs. */
  lemma GroupShape(gs: seq<Gate>, ins: nat, d: nat, m: nat)
    requires m < |Group(gs, ins, d)|
    ensures var g := Group(gs, ins, d)[m]; gs[g].op.Table? && |gs[g].op.inputs| == ins
  {
    var j := GroupedPosition(gs, Masks(Class(ins, 0)), ins, Layer(gs, d), |Layer(gs, d)|, m);
  }

  predicate Has(val: map<nat, seq<bool>>, list: seq<nat>, m: nat) {
    m <= |list| && forall j | 0 <= j < m :: list[j] in val
  }

  /** With its tables, the other party's inputs and its own outputs a party has everything of the layer. */
  lemma LayerKnown(w: World, r: Role, val: map<nat, seq<bool>>, d: nat)
    requires WellFormed(w.gs) && ValuesAt(w, r, val, d, |LocalQueue(w.gs, d)|, |Layer(w.gs, d)|)
    requires forall k {:trigger Group(w.gs, k, d)} | 0 <= k < 9 :: Has(val, Group(w.gs, k, d), |Group(w.gs, k, d)|)
    requires Has(val, TakersOf(w.gs, Inputs(r.Other()), d), |TakersOf(w.gs, Inputs(r.Other()), d)|)
    requires Has(val, TakersOf(w.gs, Outputs(r), d), |TakersOf(w.gs, Outputs(r), d)|)
    ensures ValuesAt(w, r, val, d + 1, 0, 0)
  {
    forall g: nat | Known(w, r, d + 1, 0, 0, g)
      ensures g in val
    {
      if w.gs[g].depth == d {
        GateKnown(w, r, val, d, g);
      } else {
        assert Known(w, r, d, |LocalQueue(w.gs, d)|, |Layer(w.gs, d)|, g);
      }
    }
  }

  lemma GateKnown(w: World, r: Role, val: map<nat, seq<bool>>, d: nat, g: nat)
    requires WellFormed(w.gs) && ValuesAt(w, r, val, d, |LocalQueue(w.gs, d)|, |Layer(w.gs, d)|) && Held(w.gs, r, g) && w.gs[g].depth == d
    requires forall k {:trigger Group(w.gs, k, d)} | 0 <= k < 9 :: Has(val, Group(w.gs, k, d), |Group(w.gs, k, d)|)
    requires Has(val, TakersOf(w.gs, Inputs(r.Other()), d), |TakersOf(w.gs, Inputs(r.Other()), d)|)
    requires Has(val, TakersOf(w.gs, Outputs(r), d), |TakersOf(w.gs, Outputs(r), d)|)
    ensures g in val
  {
    assert GateOk(w.gs, g);
    var q := Layer(w.gs, d);
    QueueMembers(w.gs, false, d, |w.gs|, g);
    QueueMembers(w.gs, true, d, |w.gs|, g);
    assert q[..|q|] == q && LocalQueue(w.gs, d)[..|LocalQueue(w.gs, d)|] == LocalQueue(w.gs, d);
    match w.gs[g].op {
      case Table(ins, _, _) =>
        GroupedMember(w.gs, q, |q|, g);
        assert Has(val, Group(w.gs, |ins|, d), |Group(w.gs, |ins|, d)|);
      case Out(_, _) => TakersMember(w.gs, Outputs(r), q, |q|, g);
      case In(src) =>
        if src == r {
          assert Known(w, r, d, |LocalQueue(w.gs, d)|, |q|, g);
        } else {
          TakersMember(w.gs, Inputs(r.Other()), q, |q|, g);
        }
      case _ => assert Known(w, r, d, |LocalQueue(w.gs, d)|, |q|, g);
    }
  }

  function Renew(lane: Lane): Lane {
    lane.(choiceSnd := [], choiceRcvCtr := 0, maskRcvCtr := 0)
  }

  /** With fresh counters a finished class starts the next layer. */
  lemma LaneRenewed(w: World, r: Role, c: Class, lane: Lane, d: nat)
    requires PartAt(w, r, c, lane, d, |Group(w.gs, c.ins, d)|)
    ensures LaneAt(w, r, c, Renew(lane), d + 1, 0, false)
  {
    PartEnd(w, r, c, lane, d);
    assert Sender(d + 1) == Sender(d).Other();
  }

  /** The first k classes have fresh counters, the others are finished. */
  ghost predicate Renewed(w: World, r: Role, classes: seq<Class>, lanes: map<Class, Lane>, d: nat, k: nat) {
    forall j {:trigger classes[j]} | 0 <= j < |classes| ::
      if j < k then ClassAt(w, r, lanes, classes[j], d + 1, 0, false) else ClassPart(w, r, lanes, classes[j], d, 9, 0)
  }

  lemma RenewedStep(w: World, r: Role, classes: seq<Class>, lanes: map<Class, Lane>, d: nat, k: nat)
    requires Renewed(w, r, classes, lanes, d, k) && k < |classes| && ClassesOk(w.gs, classes)
    ensures var c := classes[k];
            c in lanes && Renewed(w, r, classes, lanes[c := Renew(lanes[c])], d, k + 1)
  {
    var c := classes[k];
    assert ClassPart(w, r, lanes, c, d, 9, 0);
    LaneRenewed(w, r, c, lanes[c], d);
    var next := lanes[c := Renew(lanes[c])];
    forall j | 0 <= j < |classes|
      ensures if j < k + 1 then ClassAt(w, r, next, classes[j], d + 1, 0, false) else ClassPart(w, r, next, classes[j], d, 9, 0)
    {
      assert if j < k then ClassAt(w, r, lanes, classes[j], d + 1, 0, false) else ClassPart(w, r, lanes, classes[j], d, 9, 0);
    }
  }

  lemma RenewedAll(w: World, r: Role, classes: seq<Class>, lanes: map<Class, Lane>, d: nat)
    ensures PartsAt(w, r, classes, lanes, d, 9, 0) ==> Renewed(w, r, classes, lanes, d, 0)
    ensures Renewed(w, r, classes, lanes, d, |classes|) ==> LanesAt(w, r, classes, lanes, d + 1, 0, false)
  {
    if PartsAt(w, r, classes, lanes, d, 9, 0) {
      forall j | 0 <= j < |classes|
        ensures ClassPart(w, r, lanes, classes[j], d, 9, 0)
      {
        assert classes[j] in classes;
      }
    }
  }

  /** A class with its supplies, before anything is used or sent. */
  ghost predicate Unused(w: World, r: Role, c: Class, lane: Lane) {
    && Supplied(w, r, c, lane) && lane.maskIdx == 0 && lane.tableRndIdx == 0 && lane.choiceIdx == 0
    && lane.choiceSnd == [] && lane.choiceRcvCtr == 0 && lane.maskSnd == [] && lane.maskRcvCtr == 0
  }

  lemma LanesAtStart(w: World, r: Role, classes: seq<Class>, lanes: map<Class, Lane>)
    requires forall c {:trigger c in classes} | c in classes :: c in lanes && Unused(w, r, c, lanes[c])
    ensures LanesAt(w, r, classes, lanes, 0, 0, false)
  {
  }
}
