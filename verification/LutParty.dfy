/** One party of SP-LUT sharing. */
module LutParty {
  import opened Bits
  import opened LutCircuit
  import opened LutSpec
  import opened LutTables
  import opened LutMessage
  import opened LutLayer
  import opened LutLocal
  import C = Circuit

  /** What a queue holds on a layer: nothing on layers without a queue. */
  function OnLvl(queues: seq<seq<nat>>, d: nat): seq<nat> {
    if d < |queues| then queues[d] else []
  }

  /** One more part of a whole is done. */
  lemma Appended<T>(done: seq<T>, next: seq<T>, rest: seq<T>, todo: seq<T>, whole: seq<T>)
    requires done + todo == whole && todo == next + rest
    ensures done + next + rest == whole
  {
  }

  /** The parts of a party's state between layers. */
  datatype Part = Turn | Values | Buffers | Tables

  /** The buffers at the front of the stream have the sizes that are waited for. */
  method TakeBuffers(stream: seq<Buffer>, sizes: seq<Size>, ghost sent: seq<Buffer>, ghost others: seq<Buffer>) returns (rcvbuf: seq<Buffer>)
    requires stream == sent + others && sizes == Sizes(sent)
    ensures |sizes| <= |stream| && rcvbuf == sent && stream[|sizes|..] == others
  {
    rcvbuf := stream[..|sizes|];
  }

  /** An input of the party. */
  ghost predicate Given(gs: seq<Gate>, inp: (nat, nat) -> bool, inputs: map<nat, seq<bool>>, g: nat) {
    g < |gs| && g in inputs && |inputs[g]| == gs[g].nvals && forall t | 0 <= t < |inputs[g]| :: inputs[g][t] == inp(g, t)
  }

  class SetupLUT {
    const role: Role
    const gates: seq<Gate>
    const localQueueOnLvl: seq<seq<nat>>
    const interactiveQueueOnLvl: seq<seq<nat>>
    const classes: seq<Class>
    const inputs: map<nat, seq<bool>>
    const randomness: nat -> bool

    var val: map<nat, seq<bool>>
    var playSender: bool
    var ttGates: seq<seq<nat>>
    var inputShareGates: seq<nat>
    var outputShareGates: seq<nat>
    var inputShareRcvSize: nat
    var outputShareRcvSize: nat
    var inputShareSnd: seq<bool>
    var outputShareSnd: seq<bool>
    var inputShareRcv: seq<bool>
    var outputShareRcv: seq<bool>
    var stash: seq<Buffer>
    var lanes: map<Class, Lane>

    ghost const w: World

    /** The circuit, the party's inputs and its randomness are those of the run. */
    ghost predicate Setup() {
      && Correct(w) && w.gs == gates && ClassesOk(gates, classes)
      && (forall d: nat {:trigger OnLvl(localQueueOnLvl, d)} :: OnLvl(localQueueOnLvl, d) == LocalQueue(gates, d))
      && (forall d: nat {:trigger OnLvl(interactiveQueueOnLvl, d)} :: OnLvl(interactiveQueueOnLvl, d) == Layer(gates, d))
      && (forall g {:trigger gates[g]} | 0 <= g < |gates| && gates[g].op == In(role) :: Given(gates, w.inp, inputs, g))
      && (forall x {:trigger randomness(x)} :: randomness(x) == w.mask(role, x))
    }

    // ----- local gates --------------------------------------------------------------------

    /** The share a local gate computes from the shares of its operands. */
    method EvaluateLocal(gateid: nat) returns (v: seq<bool>)
      requires Setup() && OperandsHeld(w, role, val, gateid) && ParentsBelow(gates[gateid].op, gateid) && !Interactive(gates[gateid].op)
      ensures v == Share(w, role, gateid) && LocalValue(gates[gateid], val, role, v)
    {
      v := ComputeLocal(gates[gateid], val, role, w, gateid);
    }

    /** EvaluateLocalOperations: the local gates of a layer, in build order. */
    method EvaluateLocalOperations(d: nat)
      requires Setup() && ValuesAt(w, role, val, d, 0, 0)
      modifies this`val
      ensures ValuesAt(w, role, val, d, |LocalQueue(gates, d)|, 0)
      ensures forall i {:trigger LocalQueue(gates, d)[i]} | 0 <= i < |LocalQueue(gates, d)| ::
                var g := LocalQueue(gates, d)[i]; g in val && LocalValue(gates[g], val, role, val[g])
    {
      var localops := OnLvl(localQueueOnLvl, d);
      assert localops == LocalQueue(w.gs, d);
      for i := 0 to |localops|
        invariant ValuesAt(w, role, val, d, i, 0)
      {
        OperandsStored(w, role, val, d, i, 0, localops[i]);
        var v := EvaluateLocal(localops[i]);
        LocalStep(w, role, val, d, i);
        val := val[localops[i] := v];
      }
      forall i | 0 <= i < |localops|
        ensures localops[i] in val && LocalValue(gates[localops[i]], val, role, val[localops[i]])
      {
        LocalStored(d, i);
      }
    }

    /** Once a local gate is stored, so are its operands, and its share is made of theirs. */
    lemma LocalStored(d: nat, i: nat)
      requires Setup() && ValuesAt(w, role, val, d, |LocalQueue(w.gs, d)|, 0) && i < |LocalQueue(w.gs, d)|
      ensures var g := LocalQueue(w.gs, d)[i]; g in val && LocalValue(w.gs[g], val, role, val[g])
    {
      var q := LocalQueue(w.gs, d);
      var g := q[i];
      assert q[..|q|] == q && Known(w, role, d, |q|, 0, g);
      OperandsStored(w, role, val, d, |q|, 0, g);
      LocalShare(w, role, val, g);
    }

    // ----- interactive gates ----------------------------------------------------------------

    ghost function Gathering(): Gathered
      reads this`ttGates, this`inputShareGates, this`outputShareGates, this`inputShareRcvSize, this`outputShareRcvSize
      reads this`inputShareSnd, this`outputShareSnd
    {
      Gathered(ttGates, inputShareGates, outputShareGates, inputShareRcvSize, outputShareRcvSize, inputShareSnd, outputShareSnd)
    }

    /** Layer d, when the local gates are evaluated and the first i interactive ones as well. */
    ghost predicate OpenAt(d: nat, i: nat)
      reads this
    {
      && i <= |Layer(w.gs, d)| && playSender == (role == Sender(d)) && StashAt(w, role, stash, d, false)
      && ValuesAt(w, role, val, d, |LocalQueue(w.gs, d)|, i)
      && Gathering() == GatheredAt(w, role, d, i) && LanesAt(w, role, classes, lanes, d, i, false)
    }

    /** EvaluateTTGate for a receiver: the updates of the gate. */
    method PrepareUpdates(gateid: nat, otC: seq<nat>, from: nat, input: seq<nat>, nvals: nat, ghost c: Class, ghost d: nat, ghost i: nat)
      returns (updates: seq<nat>)
      requires Setup() && OpenAt(d, i) && role != Sender(d) && i < |Layer(gates, d)| && gateid == Layer(gates, d)[i]
      requires InClass(gates, c, gateid) && input == gates[gateid].op.inputs && nvals == Vals(gates, gateid)
      requires ChosenWords(w, c, otC, d) && from == Used(gates, Transfers(c), Sender(d), d) + Taken(gates, Transfers(c), Layer(gates, d), i)
      ensures updates == Block(w.gs, Transfers(c), Updates(w), gateid)
    {
      assert GateOk(w.gs, gateid);
      OperandsStored(w, role, val, d, |LocalQueue(gates, d)|, i, gateid);
      ChoicesFound(w, c, otC, d, i, from);
      updates := UpdateChoices(val, input, nvals, otC, from, w, role, gateid);
    }

    /** EvaluateTTGate, for the class of the gate: a sender waits for updates, a receiver prepares them. */
    method ExtendLane(gateid: nat, lane: Lane, input: seq<nat>, ghost c: Class, ghost d: nat, ghost i: nat) returns (next: Lane)
      requires Setup() && OpenAt(d, i) && LaneAt(w, role, c, lane, d, i, false)
      requires i < |Layer(gates, d)| && gateid == Layer(gates, d)[i] && InClass(gates, c, gateid) && input == gates[gateid].op.inputs
      ensures next == Extended(w, role, c, lane, d, gateid)
    {
      var nvals := FirstWidth(gateid, input);
      if playSender {
        next := lane.(choiceRcvCtr := lane.choiceRcvCtr + nvals);
      } else {
        OwnChoices(w, role, c, lane, d, i);
        var updates := PrepareUpdates(gateid, lane.otC, lane.choiceIdx + |lane.choiceSnd|, input, nvals, c, d, i);
        next := lane.(choiceSnd := lane.choiceSnd + updates, maskRcvCtr := lane.maskRcvCtr + nvals);
      }
    }

    /** The number of values of the first operand. */
    method FirstWidth(gateid: nat, input: seq<nat>) returns (nvals: nat)
      requires Setup() && gateid < |gates| && gates[gateid].op.Table? && input == gates[gateid].op.inputs
      ensures nvals == Vals(gates, gateid)
    {
      assert GateOk(w.gs, gateid);
      assert OperandOk(w.gs, gateid, Parents(w.gs[gateid].op)[0]);
      nvals := gates[input[0]].nvals;
    }

    /** EvaluateTTGate: the class of the gate is extended, and the gate is noted for the end of the layer. */
    method EvaluateTTGate(gateid: nat, ghost d: nat, ghost i: nat)
      requires Setup() && OpenAt(d, i) && i < |Layer(gates, d)| && gateid == Layer(gates, d)[i] && gates[gateid].op.Table?
      modifies this`ttGates, this`lanes
      ensures OpenAt(d, i + 1)
    {
      var input, outs := gates[gateid].op.inputs, gates[gateid].op.outs;
      var c := Class(|input|, outs);
      ExtendOwnLane(gateid, input, c, d, i);
      TableGathered(w, role, d, i, gateid, |input|);
      ValuesStep(w, role, val, val, d, |LocalQueue(gates, d)|, i);
      NoteTable(gateid, |input|);
    }

    method ExtendOwnLane(gateid: nat, input: seq<nat>, c: Class, ghost d: nat, ghost i: nat)
      requires Setup() && OpenAt(d, i) && i < |Layer(gates, d)| && gateid == Layer(gates, d)[i]
      requires InClass(gates, c, gateid) && input == gates[gateid].op.inputs
      modifies this`lanes
      ensures LanesAt(w, role, classes, lanes, d, i + 1, false)
    {
      OwnLane(w, role, classes, lanes, d, i, gateid, c);
      var lane := ExtendLane(gateid, lanes[c], input, c, d, i);
      LanesStep(w, role, classes, lanes, c, lane, d, i);
      lanes := lanes[c := lane];
    }

    method NoteTable(gateid: nat, ins: nat)
      requires ins < |ttGates|
      modifies this`ttGates
      ensures Gathering() == WithTable(old(Gathering()), gateid, ins)
    {
      ttGates := ttGates[ins := ttGates[ins] + [gateid]];
    }

    /** What an input or output gate adds to the values, lists and buffers. */
    method AddGate(gateid: nat, v: map<nat, seq<bool>>, inBits: seq<bool>, outBits: seq<bool>, inWait: nat, outWait: nat, ghost d: nat, ghost i: nat)
      requires w.gs == gates && OpenAt(d, i) && i < |Layer(gates, d)| && gateid == Layer(gates, d)[i] && !gates[gateid].op.Table?
      requires v == val[gateid := Share(w, role, gateid)] || (v == val && gates[gateid].op != In(role))
      requires GateBits(w, role, gateid, inBits, outBits, inWait, outWait)
      modifies this
      ensures OpenAt(d, i + 1)
    {
      Added(gateid, v, inBits, outBits, inWait, outWait, d, i);
      val := v;
      Gather(gateid, inBits, outBits, inWait, outWait);
    }

    lemma Added(gateid: nat, v: map<nat, seq<bool>>, inBits: seq<bool>, outBits: seq<bool>, inWait: nat, outWait: nat, d: nat, i: nat)
      requires w.gs == gates && OpenAt(d, i) && i < |Layer(gates, d)| && gateid == Layer(gates, d)[i] && !gates[gateid].op.Table?
      requires v == val[gateid := Share(w, role, gateid)] || (v == val && gates[gateid].op != In(role))
      requires GateBits(w, role, gateid, inBits, outBits, inWait, outWait)
      ensures ValuesAt(w, role, v, d, |LocalQueue(w.gs, d)|, i + 1) && LanesAt(w, role, classes, lanes, d, i + 1, false)
      ensures WithBits(Gathering(), gateid, inBits, outBits, inWait, outWait) == GatheredAt(w, role, d, i + 1)
    {
      LanesKept(w, role, classes, lanes, d, i);
      BitsGathered(w, role, d, i, gateid, inBits, outBits, inWait, outWait);
      ValuesStep(w, role, val, v, d, |LocalQueue(gates, d)|, i);
    }

    method Gather(gateid: nat, inBits: seq<bool>, outBits: seq<bool>, inWait: nat, outWait: nat)
      modifies this`inputShareGates, this`outputShareGates, this`inputShareRcvSize, this`outputShareRcvSize, this`inputShareSnd, this`outputShareSnd
      ensures Gathering() == WithBits(old(Gathering()), gateid, inBits, outBits, inWait, outWait)
    {
      inputShareGates, outputShareGates := Listed(inputShareGates, gateid, inWait), Listed(outputShareGates, gateid, outWait);
      inputShareRcvSize, outputShareRcvSize := inputShareRcvSize + inWait, outputShareRcvSize + outWait;
      inputShareSnd, outputShareSnd := inputShareSnd + inBits, outputShareSnd + outBits;
    }

    /** ShareValues: random bits for the other party, and the masked input for this one. */
    method ShareValues(gateid: nat, ghost d: nat, ghost i: nat) returns (mask: seq<bool>, v: seq<bool>)
      requires Setup() && OpenAt(d, i) && i < |Layer(gates, d)| && gateid == Layer(gates, d)[i] && gates[gateid].op == In(role)
      ensures mask == Block(w.gs, Inputs(role), InBits(w, role), gateid) && v == Share(w, role, gateid)
    {
      OffsetInLayer(w.gs, Inputs(role), d, i);
      assert Given(gates, w.inp, inputs, gateid);
      mask := RandomBits(|inputShareSnd|, gates[gateid].nvals, gateid);
      v := XorBits(mask, inputs[gateid]);
      forall t | 0 <= t < |v|
        ensures v[t] == w.share(role, gateid, t)
      {
        assert ShareOk(w, role, gateid, t);
      }
    }

    method RandomBits(from: nat, nvals: nat, ghost g: nat) returns (mask: seq<bool>)
      requires Setup() && g < |gates| && gates[g].op == In(role) && from == Offset(gates, Inputs(role), g) && nvals == gates[g].nvals
      ensures mask == Block(w.gs, Inputs(role), InBits(w, role), g) && |mask| == nvals
    {
      var random := randomness;
      mask := seq(nvals, t requires 0 <= t => random(from + t));
      forall t | 0 <= t < nvals
        ensures mask[t] == w.mask(role, from + t)
      {
        assert random(from + t) == w.mask(role, from + t);
      }
    }

    /** One interactive gate: tables, own inputs and those of the other party, and outputs by destination. */
    method EvaluateInteractive(gateid: nat, ghost d: nat, ghost i: nat)
      requires Setup() && OpenAt(d, i) && i < |Layer(gates, d)| && gateid == Layer(gates, d)[i]
      modifies this
      ensures OpenAt(d, i + 1)
    {
      var nvals := gates[gateid].nvals;
      match gates[gateid].op {
        case Table(_, _, _) =>
          EvaluateTTGate(gateid, d, i);
        case In(src) =>
          if src == role {
            var mask, v := ShareValues(gateid, d, i);
            AddGate(gateid, val[gateid := v], mask, [], 0, 0, d, i);
          } else {
            AddGate(gateid, val, [], [], nvals, 0, d, i);
          }
        case Out(_, dst) =>
          if dst == C.To(role) {
            AddGate(gateid, val, [], [], 0, nvals, d, i);
          } else if dst.All? {
            var shares := ReconstructValue(gateid, d, i);
            AddGate(gateid, val, [], shares, 0, nvals, d, i);
          } else {
            var shares := ReconstructValue(gateid, d, i);
            AddGate(gateid, val, [], shares, 0, 0, d, i);
          }
      }
    }

    /** ReconstructValue: the share of an output is sent. */
    method ReconstructValue(gateid: nat, ghost d: nat, ghost i: nat) returns (shares: seq<bool>)
      requires Setup() && OpenAt(d, i) && i < |Layer(gates, d)| && gateid == Layer(gates, d)[i]
      requires gates[gateid].op.Out? && gates[gateid].op.dst.Includes(role.Other())
      ensures shares == Block(w.gs, Outputs(role.Other()), OutBits(w, role), gateid)
    {
      assert GateOk(w.gs, gateid);
      OperandsStored(w, role, val, d, |LocalQueue(gates, d)|, i, gateid);
      assert Parents(gates[gateid].op)[0] == gates[gateid].op.parent;
      shares := val[gates[gateid].op.parent];
    }

    /** EvaluateInteractiveOperations: the interactive gates of a layer, in build order. */
    method EvaluateInteractiveOperations(d: nat)
      requires Setup() && OpenAt(d, 0)
      modifies this
      ensures OpenAt(d, |Layer(gates, d)|)
    {
      var interactiveops := OnLvl(interactiveQueueOnLvl, d);
      assert interactiveops == Layer(gates, d);
      for i := 0 to |interactiveops|
        invariant OpenAt(d, i)
      {
        EvaluateInteractive(interactiveops[i], d, i);
      }
    }

    // ----- messages -----------------------------------------------------------------------

    /** The classes before k have been flushed. */
    ghost predicate Flushed(d: nat, i: nat, k: nat)
      reads this`lanes
    {
      forall j {:trigger classes[j]} | 0 <= j < |classes| :: ClassAt(w, role, lanes, classes[j], d, i, j < k)
    }

    lemma FlushedAll(d: nat, i: nat)
      ensures Flushed(d, i, 0) <==> LanesAt(w, role, classes, lanes, d, i, false)
      ensures Flushed(d, i, |classes|) <==> LanesAt(w, role, classes, lanes, d, i, true)
    {
    }

    /** What the party owes for the classes from k on. */
    ghost function Owed(d: nat, k: nat): seq<Buffer> {
      if role == Sender(d) then [] else OldAnswers(w, classes, d, k)
    }

    /** One class: its answers of the layer before are passed on, and the counter of what has been sent goes back to zero. */
    method FlushClass(c: Class, ghost k: nat, ghost d: nat, ghost i: nat) returns (buf: seq<Buffer>)
      requires Flushed(d, i, k) && k < |classes| && c == classes[k] && ClassesOk(gates, classes)
      modifies this`lanes
      ensures Owed(d, k) == buf + Owed(d, k + 1)
      ensures Flushed(d, i, k + 1)
    {
      assert ClassAt(w, role, lanes, classes[k], d, i, false);
      buf := AnsweredOf(c, lanes[c].maskSnd);
      FlushedNext(c, k, d, i);
      lanes := lanes[c := lanes[c].(maskSnd := [])];
    }

    lemma FlushedNext(c: Class, k: nat, d: nat, i: nat)
      requires Flushed(d, i, k) && k < |classes| && c == classes[k] && ClassesOk(gates, classes) && c in lanes
      ensures forall j {:trigger classes[j]} | 0 <= j < |classes| ::
                ClassAt(w, role, lanes[c := lanes[c].(maskSnd := [])], classes[j], d, i, j < k + 1)
    {
      forall j | 0 <= j < |classes|
        ensures ClassAt(w, role, lanes[c := lanes[c].(maskSnd := [])], classes[j], d, i, j < k + 1)
      {
        assert ClassAt(w, role, lanes, classes[j], d, i, j < k);
      }
    }

    /** The answers of the layer before, class by class. */
    method FlushAnswers(ghost d: nat, ghost i: nat) returns (bufs: seq<Buffer>)
      requires ClassesOk(gates, classes) && LanesAt(w, role, classes, lanes, d, i, false)
      modifies this`lanes
      ensures bufs == Owed(d, 0)
      ensures LanesAt(w, role, classes, lanes, d, i, true)
    {
      FlushedAll(d, i);
      bufs := [];
      for k := 0 to |classes|
        invariant Flushed(d, i, k) && bufs + Owed(d, k) == Owed(d, 0)
      {
        var buf := FlushClass(classes[k], k, d, i);
        Appended(bufs, buf, Owed(d, k + 1), Owed(d, k), Owed(d, 0));
        bufs := bufs + buf;
      }
      FlushedAll(d, i);
    }

    /** The updates of this layer, class by class. */
    method PassChoices(ghost d: nat) returns (bufs: seq<Buffer>)
      requires LanesAt(w, role, classes, lanes, d, |Layer(w.gs, d)|, true) && role != Sender(d)
      ensures bufs == ChoiceBufs(w, classes, d, 0)
    {
      bufs := [];
      for k := 0 to |classes|
        invariant bufs + ChoiceBufs(w, classes, d, k) == ChoiceBufs(w, classes, d, 0)
      {
        var buf := PassClass(classes[k], k, d);
        Appended(bufs, buf, ChoiceBufs(w, classes, d, k + 1), ChoiceBufs(w, classes, d, k), ChoiceBufs(w, classes, d, 0));
        bufs := bufs + buf;
      }
    }

    method PassClass(c: Class, ghost k: nat, ghost d: nat) returns (buf: seq<Buffer>)
      requires LanesAt(w, role, classes, lanes, d, |Layer(w.gs, d)|, true) && role != Sender(d) && k < |classes| && c == classes[k]
      ensures ChoiceBufs(w, classes, d, k) == buf + ChoiceBufs(w, classes, d, k + 1)
    {
      assert ClassAt(w, role, lanes, c, d, |Layer(w.gs, d)|, true);
      buf := ChoicesOf(c, lanes[c].choiceSnd);
    }

    /** The layer when its messages have been sent, or stashed. */
    ghost predicate Sent(d: nat)
      reads this`playSender, this`stash, this`val, this`lanes, this`ttGates, this`inputShareGates, this`outputShareGates
      reads this`inputShareRcvSize, this`outputShareRcvSize, this`inputShareSnd, this`outputShareSnd
    {
      && playSender == (role == Sender(d)) && StashAt(w, role, stash, d, true)
      && ValuesAt(w, role, val, d, |LocalQueue(w.gs, d)|, |Layer(w.gs, d)|)
      && Gathering() == GatheredAt(w, role, d, |Layer(w.gs, d)|) && LanesAt(w, role, classes, lanes, d, |Layer(w.gs, d)|, true)
    }

    /** A receiver passes on its stash and its answers, and sends its own messages. */
    method PassOn(ghost d: nat) returns (sendbuf: seq<Buffer>)
      requires Setup() && OpenAt(d, |Layer(w.gs, d)|) && role != Sender(d)
      modifies this`lanes
      ensures Sent(d) && sendbuf == Message(w, classes, role, d)
    {
      ReceiverMessage(w, classes, role, d);
      ReceiverHolds(d);
      var answers := FlushAnswers(d, |Layer(w.gs, d)|);
      var choices := PassChoices(d);
      sendbuf := stash + answers + (SharesOf(inputShareSnd) + SharesOf(outputShareSnd)) + choices;
    }

    lemma ReceiverHolds(d: nat)
      requires OpenAt(d, |Layer(w.gs, d)|) && role != Sender(d)
      ensures stash == (if d == 0 then [] else ShareBufs(w, role, d - 1)) && StashAt(w, role, stash, d, true)
      ensures SharesOf(inputShareSnd) + SharesOf(outputShareSnd) == ShareBufs(w, role, d)
    {
    }

    /** A sender keeps its shares until it is a receiver; answers are not there yet. */
    method StashShares(ghost d: nat)
      requires Setup() && OpenAt(d, |Layer(w.gs, d)|) && role == Sender(d)
      modifies this`stash, this`lanes
      ensures Sent(d)
    {
      var answers := FlushAnswers(d, |Layer(w.gs, d)|);
      stash := stash + SharesOf(inputShareSnd) + SharesOf(outputShareSnd) + answers;
    }

    method GetDataToSend(ghost d: nat) returns (sendbuf: seq<Buffer>)
      requires Setup() && OpenAt(d, |Layer(w.gs, d)|)
      modifies this`stash, this`lanes
      ensures Sent(d) && sendbuf == Message(w, classes, role, d)
    {
      sendbuf := [];
      if !playSender {
        sendbuf := PassOn(d);
      } else {
        StashShares(d);
      }
    }

    /** The buffers a party waits for. */
    method GetBuffersToReceive(ghost d: nat) returns (rcvbytes: seq<Size>)
      requires Sent(d)
      ensures rcvbytes == Sizes(Expected(w, classes, role, d))
    {
      ghost var shares := ShareBufs(w, role.Other(), d);
      rcvbytes := SharesSize(inputShareRcvSize) + SharesSize(outputShareRcvSize);
      assert rcvbytes == Sizes(shares) by {
        SizesConcat(SharesOf(LayerInBits(w, role.Other(), d)), SharesOf(LayerOutBits(w, role.Other(), d)));
      }
      var tables := TableSizes(d);
      SizesConcat(shares, Awaited(d, 0));
      rcvbytes := rcvbytes + tables;
    }

    /** What is awaited for the classes from k on. */
    ghost function Awaited(d: nat, k: nat): seq<Buffer> {
      AwaitedBufs(w, classes, role, d, k)
    }

    ghost function AwaitedSizes(d: nat, k: nat): seq<Size> {
      Sizes(Awaited(d, k))
    }

    method TableSizes(ghost d: nat) returns (sizes: seq<Size>)
      requires LanesAt(w, role, classes, lanes, d, |Layer(w.gs, d)|, true)
      ensures sizes == AwaitedSizes(d, 0)
    {
      sizes := [];
      for k := 0 to |classes|
        invariant sizes + AwaitedSizes(d, k) == AwaitedSizes(d, 0)
      {
        var size := ClassSize(classes[k], k, d);
        Appended(sizes, size, AwaitedSizes(d, k + 1), AwaitedSizes(d, k), AwaitedSizes(d, 0));
        sizes := sizes + size;
      }
    }

    method ClassSize(c: Class, ghost k: nat, ghost d: nat) returns (size: seq<Size>)
      requires LanesAt(w, role, classes, lanes, d, |Layer(w.gs, d)|, true) && k < |classes| && c == classes[k]
      ensures AwaitedSizes(d, k) == size + AwaitedSizes(d, k + 1)
    {
      assert ClassAt(w, role, lanes, c, d, |Layer(w.gs, d)|, true);
      size := ChoicesSize(c, lanes[c].choiceRcvCtr) + AnsweredSize(c, lanes[c].maskRcvCtr);
      SizesNext(w, classes, role, d, k, c, lanes[c].choiceRcvCtr, lanes[c].maskRcvCtr);
    }

    // ----- receiving ----------------------------------------------------------------------

    /** The buffers of the classes before k have been filled. */
    ghost predicate Filled(d: nat, k: nat)
      reads this`lanes
    {
      && LanesAt(w, role, classes, lanes, d, |Layer(w.gs, d)|, true)
      && forall j {:trigger classes[j]} | 0 <= j < |classes| && j < k :: ClassGot(w, role, lanes, classes[j], d)
    }

    /** The messages for the tables have arrived. */
    ghost predicate TablesReady(d: nat)
      reads this`playSender, this`val, this`lanes, this`ttGates
    {
      && playSender == (role == Sender(d)) && ValuesAt(w, role, val, d, |LocalQueue(w.gs, d)|, |Layer(w.gs, d)|)
      && Filled(d, |classes|) && ttGates == seq(9, k requires 0 <= k => Group(w.gs, k, d))
    }

    /** The messages for inputs and outputs have arrived. */
    ghost predicate SharesHere(d: nat)
      reads this`inputShareGates, this`outputShareGates, this`inputShareRcv, this`outputShareRcv
    {
      && inputShareGates == TakersOf(w.gs, Inputs(role.Other()), d) && Got(inputShareRcv, LayerInBits(w, role.Other(), d))
      && outputShareGates == TakersOf(w.gs, Outputs(role), d) && Got(outputShareRcv, LayerOutBits(w, role.Other(), d))
    }

    /** The first of the buffers, if something is awaited. */
    method TakeShares(rcvbuf: seq<Buffer>, n: nat, before: seq<bool>, ghost content: seq<bool>, ghost others: seq<Buffer>)
      returns (bits: seq<bool>, rest: seq<Buffer>)
      requires rcvbuf == SharesOf(content) + others && n == |content|
      ensures Got(bits, content) && rest == others
    {
      bits, rest := before, rcvbuf;
      if n > 0 {
        assert rcvbuf[0] == Shares(content);
        bits, rest := rcvbuf[0].bits, rcvbuf[1..];
      }
    }

    method FillClass(c: Class, rcvbuf: seq<Buffer>, ghost k: nat, ghost d: nat) returns (rest: seq<Buffer>)
      requires ClassesOk(gates, classes) && Filled(d, k) && k < |classes| && c == classes[k] && rcvbuf == Awaited(d, k)
      modifies this`lanes
      ensures Filled(d, k + 1) && rest == Awaited(d, k + 1)
    {
      ghost var before := lanes;
      assert ClassAt(w, role, lanes, c, d, |Layer(w.gs, d)|, true);
      var lane := lanes[c];
      rest := rcvbuf;
      if lane.choiceRcvCtr > 0 {
        assert rcvbuf[0] == Choices(c, LayerUpdates(w, c, d));
        lane, rest := lane.(choiceRcv := rest[0].words), rest[1..];
      }
      if lane.maskRcvCtr > 0 {
        assert rcvbuf[0] == Answered(c, LayerAnswers(w, c, d));
        lane, rest := lane.(maskRcv := rest[0].answers), rest[1..];
      }
      FilledNext(c, lane, k, d);
      lanes := lanes[c := lane];
    }

    lemma FilledNext(c: Class, lane: Lane, k: nat, d: nat)
      requires ClassesOk(gates, classes) && Filled(d, k) && k < |classes| && c == classes[k] && c in lanes && LaneGot(w, role, c, lane, d)
      requires lane == lanes[c].(choiceRcv := lane.choiceRcv, maskRcv := lane.maskRcv)
      ensures LanesAt(w, role, classes, lanes[c := lane], d, |Layer(w.gs, d)|, true)
      ensures forall j {:trigger classes[j]} | 0 <= j < |classes| && j < k + 1 :: ClassGot(w, role, lanes[c := lane], classes[j], d)
    {
      forall c' | c' in classes
        ensures ClassAt(w, role, lanes[c := lane], c', d, |Layer(w.gs, d)|, true)
      {
        assert ClassAt(w, role, lanes, c', d, |Layer(w.gs, d)|, true);
      }
    }

    /** The message of the other party is split up into the buffers that wait for it. */
    method Receive(rcvbuf: seq<Buffer>, ghost d: nat)
      requires ClassesOk(gates, classes) && Sent(d) && rcvbuf == Expected(w, classes, role, d)
      modifies this`inputShareRcv, this`outputShareRcv, this`lanes
      ensures TablesReady(d) && SharesHere(d)
    {
      var rest := FillShares(rcvbuf, d);
      FillTables(rest, d);
    }

    lemma SharesDue(d: nat)
      requires Sent(d)
      ensures inputShareRcvSize == |LayerInBits(w, role.Other(), d)| && outputShareRcvSize == |LayerOutBits(w, role.Other(), d)|
      ensures inputShareGates == TakersOf(w.gs, Inputs(role.Other()), d) && outputShareGates == TakersOf(w.gs, Outputs(role), d)
    {
    }

    method FillShares(rcvbuf: seq<Buffer>, ghost d: nat) returns (rest: seq<Buffer>)
      requires Sent(d) && rcvbuf == ShareBufs(w, role.Other(), d) + Awaited(d, 0)
      modifies this`inputShareRcv, this`outputShareRcv
      ensures SharesHere(d) && rest == Awaited(d, 0)
    {
      ghost var ins, outs := LayerInBits(w, role.Other(), d), LayerOutBits(w, role.Other(), d);
      SharesDue(d);
      assert rcvbuf == SharesOf(ins) + (SharesOf(outs) + Awaited(d, 0));
      inputShareRcv, rest := TakeShares(rcvbuf, inputShareRcvSize, inputShareRcv, ins, SharesOf(outs) + Awaited(d, 0));
      outputShareRcv, rest := TakeShares(rest, outputShareRcvSize, outputShareRcv, outs, Awaited(d, 0));
    }

    method FillTables(rcvbuf: seq<Buffer>, ghost d: nat)
      requires ClassesOk(gates, classes) && Sent(d) && rcvbuf == Awaited(d, 0)
      modifies this`lanes
      ensures TablesReady(d)
    {
      var rest := rcvbuf;
      for k := 0 to |classes|
        invariant Filled(d, k) && rest == Awaited(d, k)
      {
        rest := FillClass(classes[k], rest, k, d);
      }
    }

    // ----- the end of a layer -------------------------------------------------------------

    /** All values before this layer, its local ones and own inputs, and the tables that are finished. */
    ghost predicate TableValues(d: nat, ins: nat, m: nat)
      reads this`val
    {
      && ValuesAt(w, role, val, d, |LocalQueue(w.gs, d)|, |Layer(w.gs, d)|)
      && (forall k {:trigger Group(w.gs, k, d)} | 0 <= k < ins :: Has(val, Group(w.gs, k, d), |Group(w.gs, k, d)|))
      && Has(val, Group(w.gs, ins, d), m)
    }

    /** The value of a table gate: random for the sender, an opened answer for the receiver. */
    method TableValue(gateid: nat, lane: Lane, from: nat, ghost c: Class, ghost d: nat, ghost m: nat) returns (v: seq<bool>, next: Lane)
      requires Correct(w) && w.gs == gates && playSender == (role == Sender(d)) && PartAt(w, role, c, lane, d, m)
      requires TableOf(gateid, c, d, m) && OperandsHeld(w, role, val, gateid) && from == Taken(gates, Transfers(c), Group(gates, c.ins, d), m)
      ensures v == Share(w, role, gateid) && next == Completed(w, role, c, lane, d, gateid)
    {
      if playSender {
        v, next := SenderValue(gateid, lane, from, c, d, m);
      } else {
        v, next := ReceiverValue(gateid, lane, from, c, d, m);
      }
    }

    ghost predicate TableOf(gateid: nat, c: Class, d: nat, m: nat) {
      m < |Group(w.gs, c.ins, d)| && gateid == Group(w.gs, c.ins, d)[m] && gateid < |gates| && TableGate(w, gates[gateid], c, gateid)
    }

    method SenderValue(gateid: nat, lane: Lane, from: nat, ghost c: Class, ghost d: nat, ghost m: nat) returns (v: seq<bool>, next: Lane)
      requires Correct(w) && w.gs == gates && role == Sender(d) && PartAt(w, role, c, lane, d, m)
      requires TableOf(gateid, c, d, m) && OperandsHeld(w, role, val, gateid) && from == Taken(gates, Transfers(c), Group(gates, c.ins, d), m)
      ensures v == Share(w, role, gateid) && next == Completed(w, role, c, lane, d, gateid)
    {
      ghost var j := GroupPlace(w, c, d, m, gateid);
      MaskPlace(w, c, d, m, gateid);
      PartFound(w, c, Updates(w), lane.choiceRcv, d, m, gateid, from);
      v, next := AnswerGate(val, gates[gateid], lane, from, c, w, role, gateid);
    }

    method ReceiverValue(gateid: nat, lane: Lane, from: nat, ghost c: Class, ghost d: nat, ghost m: nat) returns (v: seq<bool>, next: Lane)
      requires Correct(w) && w.gs == gates && role != Sender(d) && PartAt(w, role, c, lane, d, m)
      requires TableOf(gateid, c, d, m) && from == Taken(gates, Transfers(c), Group(gates, c.ins, d), m)
      ensures v == Share(w, role, gateid) && next == Completed(w, role, c, lane, d, gateid)
    {
      ghost var j := GroupPlace(w, c, d, m, gateid);
      assert role == Sender(d).Other() && role.Other() == Sender(d);
      PartFound(w, c, Answers(w), lane.maskRcv, d, m, gateid, from);
      v, next := OpenGate(gates[gateid], lane, from, c, w, role, gateid);
    }

    /** One table gate at the end of the layer. */
    method FinishTable(gateid: nat, c: Class, from: nat, ghost d: nat, ghost m: nat)
      requires Setup() && playSender == (role == Sender(d)) && PartsAt(w, role, classes, lanes, d, c.ins, m) && TableValues(d, c.ins, m)
      requires m < |Group(gates, c.ins, d)| && gateid == Group(gates, c.ins, d)[m] && InClass(gates, c, gateid)
      requires from == Taken(gates, Transfers(c), Group(gates, c.ins, d), m)
      modifies this`lanes, this`val
      ensures PartsAt(w, role, classes, lanes, d, c.ins, m + 1) && TableValues(d, c.ins, m + 1)
    {
      TableShape(gateid, c, d, m);
      assert ClassPart(w, role, lanes, c, d, c.ins, m);
      var v, next := TableValue(gateid, lanes[c], from, c, d, m);
      PartsStep(w, role, classes, lanes, c, d, m, gateid);
      lanes := lanes[c := next];
      StoreTable(gateid, v, c.ins, d, m);
    }

    method StoreTable(gateid: nat, v: seq<bool>, ghost ins: nat, ghost d: nat, ghost m: nat)
      requires TableValues(d, ins, m) && m < |Group(w.gs, ins, d)| && gateid == Group(w.gs, ins, d)[m] && v == Share(w, role, gateid)
      modifies this`val
      ensures TableValues(d, ins, m + 1)
    {
      val := val[gateid := v];
    }

    lemma TableShape(gateid: nat, c: Class, d: nat, m: nat)
      requires Setup() && ValuesAt(w, role, val, d, |LocalQueue(w.gs, d)|, |Layer(w.gs, d)|)
      requires m < |Group(gates, c.ins, d)| && gateid == Group(gates, c.ins, d)[m] && InClass(gates, c, gateid)
      ensures c in classes && TableOf(gateid, c, d, m) && OperandsHeld(w, role, val, gateid)
    {
      var j := GroupedPosition(gates, Transfers(c), c.ins, Layer(gates, d), |Layer(gates, d)|, m);
      OperandsStored(w, role, val, d, |LocalQueue(w.gs, d)|, |Layer(w.gs, d)|, gateid);
      assert GateOk(w.gs, gateid) && ClassOf(gates, gateid) == c;
      assert OperandOk(w.gs, gateid, Parents(w.gs[gateid].op)[0]) && GateOk(w.gs, gates[gateid].op.inputs[0]);
    }

    /** Groups of tables before ins and the first m tables of that group are finished. */
    ghost predicate TablesDone(d: nat, ins: nat, m: nat)
      reads this`playSender, this`val, this`lanes
    {
      playSender == (role == Sender(d)) && PartsAt(w, role, classes, lanes, d, ins, m) && TableValues(d, ins, m)
    }

    /** The tables with the same number of inputs; every class has a counter of its own. */
    method FinishGroup(ins: nat, ghost d: nat)
      requires Setup() && TablesDone(d, ins, 0) && ins < |ttGates| && ttGates[ins] == Group(w.gs, ins, d)
      modifies this`lanes, this`val
      ensures TablesDone(d, ins + 1, 0)
    {
      var list := ttGates[ins];
      var ctr: map<Class, nat> := map c | c in classes :: 0;
      for g := 0 to |list|
        invariant TablesDone(d, ins, g) && CountersAt(w.gs, classes, ctr, d, ins, g)
      {
        ctr := FinishNext(list[g], ins, ctr, d, g);
      }
      PartsNextGroup(w, role, classes, lanes, d, ins);
    }

    method FinishNext(gateid: nat, ins: nat, ctr: map<Class, nat>, ghost d: nat, ghost m: nat) returns (next: map<Class, nat>)
      requires Setup() && TablesDone(d, ins, m) && CountersAt(w.gs, classes, ctr, d, ins, m)
      requires m < |Group(w.gs, ins, d)| && gateid == Group(w.gs, ins, d)[m]
      modifies this`lanes, this`val
      ensures TablesDone(d, ins, m + 1) && CountersAt(w.gs, classes, next, d, ins, m + 1)
    {
      GroupShape(w.gs, ins, d, m);
      var gate := gates[gateid];
      var c := Class(|gate.op.inputs|, gate.op.outs);
      TableShape(gateid, c, d, m);
      ValuesPerOutput(w, gate, c, gateid);
      CountersStep(w.gs, classes, ctr, c, d, m, gateid);
      FinishTable(gateid, c, ctr[c], d, m);
      next := ctr[c := ctr[c] + gate.nvals / gate.op.outs];
    }

    /** SenderEvaluateTTGates and ReceiverEvaluateTTGates, which visit the gates in the same order. */
    method EvaluateTTGates(ghost d: nat)
      requires Setup() && TablesReady(d)
      modifies this`lanes, this`val, this`ttGates
      ensures TablesDone(d, 9, 0) && ttGates == seq(9, k => [])
    {
      PartsStart(w, role, classes, lanes, d);
      for i := 0 to |ttGates|
        invariant TablesDone(d, i, 0) && |ttGates| == 9
        invariant forall k | 0 <= k < 9 :: ttGates[k] == if k < i then [] else Group(w.gs, k, d)
      {
        FinishGroup(i, d);
        ttGates := ttGates[i := []];
      }
    }

    /** AssignInputShares: the masks of the other party's inputs, one behind the other. */
    method AssignInputShares(ghost d: nat)
      requires Setup() && inputShareGates == TakersOf(w.gs, Inputs(role.Other()), d) && Got(inputShareRcv, LayerInBits(w, role.Other(), d))
      requires TableValues(d, 9, 0)
      modifies this`val
      ensures TableValues(d, 9, 0) && Has(val, TakersOf(w.gs, Inputs(role.Other()), d), |TakersOf(w.gs, Inputs(role.Other()), d)|)
    {
      var rcvshareidx := 0;
      for i := 0 to |inputShareGates|
        invariant TableValues(d, 9, 0) && Has(val, TakersOf(w.gs, Inputs(role.Other()), d), i)
        invariant rcvshareidx == Taken(w.gs, Inputs(role.Other()), TakersOf(w.gs, Inputs(role.Other()), d), i)
      {
        var gateid := inputShareGates[i];
        var v := InputShare(gateid, rcvshareidx, d, i);
        val := val[gateid := v];
        rcvshareidx := rcvshareidx + gates[gateid].nvals;
      }
    }

    method InputShare(gateid: nat, from: nat, ghost d: nat, ghost i: nat) returns (v: seq<bool>)
      requires Setup() && Got(inputShareRcv, LayerInBits(w, role.Other(), d)) && i < |TakersOf(w.gs, Inputs(role.Other()), d)|
      requires gateid == TakersOf(w.gs, Inputs(role.Other()), d)[i]
      requires from == Taken(w.gs, Inputs(role.Other()), TakersOf(w.gs, Inputs(role.Other()), d), i)
      ensures gateid < |gates| && Amount(gates, Inputs(role.Other()), gateid) == gates[gateid].nvals && v == Share(w, role, gateid)
    {
      ghost var j := ShareFound(w, Inputs(role.Other()), InBits(w, role.Other()), inputShareRcv, d, i, from);
      v := inputShareRcv[from..from + gates[gateid].nvals];
      assert v == Block(w.gs, Inputs(role.Other()), InBits(w, role.Other()), gateid);
      forall t | 0 <= t < |v|
        ensures v[t] == w.share(role, gateid, t)
      {
        assert ShareOk(w, role, gateid, t);
      }
    }

    /** AssignOutputShares: own shares and those of the other party add up to the outputs. */
    method AssignOutputShares(ghost d: nat)
      requires Setup() && outputShareGates == TakersOf(w.gs, Outputs(role), d) && Got(outputShareRcv, LayerOutBits(w, role.Other(), d))
      requires TableValues(d, 9, 0) && Has(val, TakersOf(w.gs, Inputs(role.Other()), d), |TakersOf(w.gs, Inputs(role.Other()), d)|)
      modifies this`val
      ensures ValuesAt(w, role, val, d + 1, 0, 0)
    {
      var rcvshareidx := 0;
      for i := 0 to |outputShareGates|
        invariant TableValues(d, 9, 0) && Has(val, TakersOf(w.gs, Inputs(role.Other()), d), |TakersOf(w.gs, Inputs(role.Other()), d)|)
        invariant Has(val, TakersOf(w.gs, Outputs(role), d), i)
        invariant rcvshareidx == Taken(w.gs, Outputs(role), TakersOf(w.gs, Outputs(role), d), i)
      {
        var gateid := outputShareGates[i];
        var v := OutputValue(gateid, rcvshareidx, d, i);
        val := val[gateid := v];
        rcvshareidx := rcvshareidx + gates[gateid].nvals;
      }
      LayerKnown(w, role, val, d);
    }

    method OutputValue(gateid: nat, from: nat, ghost d: nat, ghost i: nat) returns (v: seq<bool>)
      requires Setup() && Got(outputShareRcv, LayerOutBits(w, role.Other(), d)) && i < |TakersOf(w.gs, Outputs(role), d)| && TableValues(d, 9, 0)
      requires gateid == TakersOf(w.gs, Outputs(role), d)[i] && from == Taken(w.gs, Outputs(role), TakersOf(w.gs, Outputs(role), d), i)
      ensures gateid < |gates| && Amount(gates, Outputs(role), gateid) == gates[gateid].nvals && v == Share(w, role, gateid)
    {
      assert role.Other().Other() == role;
      ghost var j := ShareFound(w, Outputs(role), OutBits(w, role.Other()), outputShareRcv, d, i, from);
      OperandsStored(w, role, val, d, |LocalQueue(w.gs, d)|, |Layer(w.gs, d)|, gateid);
      assert GateOk(w.gs, gateid) && Parents(gates[gateid].op)[0] == gates[gateid].op.parent;
      v := XorBits(val[gates[gateid].op.parent], outputShareRcv[from..from + gates[gateid].nvals]);
      forall t | 0 <= t < |v|
        ensures v[t] == w.share(role, gateid, t)
      {
        assert ShareOk(w, role, gateid, t);
      }
    }

    method RenewLanes(ghost d: nat)
      requires ClassesOk(w.gs, classes) && PartsAt(w, role, classes, lanes, d, 9, 0)
      modifies this`lanes
      ensures LanesAt(w, role, classes, lanes, d + 1, 0, false)
    {
      RenewedAll(w, role, classes, lanes, d);
      for k := 0 to |classes|
        invariant Renewed(w, role, classes, lanes, d, k)
      {
        RenewedStep(w, role, classes, lanes, d, k);
        lanes := lanes[classes[k] := Renew(lanes[classes[k]])];
      }
      RenewedAll(w, role, classes, lanes, d);
    }

    /** The start of layer d. */
    ghost predicate Started(d: nat)
      reads this
    {
      && playSender == (role == Sender(d)) && StashAt(w, role, stash, d, false) && ValuesAt(w, role, val, d, 0, 0)
      && Gathering() == GatheredAt(w, role, d, 0) && LanesAt(w, role, classes, lanes, d, 0, false)
    }

    method ResetBuffers(ghost d: nat)
      requires ttGates == seq(9, k => [])
      modifies this`inputShareRcvSize, this`outputShareRcvSize, this`inputShareSnd, this`outputShareSnd, this`inputShareGates, this`outputShareGates
      ensures Gathering() == GatheredAt(w, role, d, 0)
    {
      inputShareRcvSize, outputShareRcvSize, inputShareSnd, outputShareSnd := 0, 0, [], [];
      inputShareGates, outputShareGates := [], [];
    }

    /** InitNewLayer, and the change of roles; a receiver has sent its stash. */
    method InitNewLayer(ghost d: nat)
      requires ClassesOk(w.gs, classes) && playSender == (role == Sender(d)) && PartsAt(w, role, classes, lanes, d, 9, 0)
      requires StashAt(w, role, stash, d, true) && ValuesAt(w, role, val, d + 1, 0, 0) && ttGates == seq(9, k => [])
      modifies this
      ensures Started(d + 1)
    {
      ResetBuffers(d + 1);
      ResetStash(d);
      RenewLanes(d);
      playSender := !playSender;
    }

    /** What a receiver had stashed has been sent. */
    method ResetStash(ghost d: nat)
      requires playSender == (role == Sender(d)) && StashAt(w, role, stash, d, true)
      modifies this`stash
      ensures StashAt(w, role, stash, d + 1, false)
    {
      if !playSender {
        stash := [];
      }
    }

    method AssignShares(ghost d: nat)
      requires Setup() && TablesDone(d, 9, 0) && SharesHere(d)
      modifies this`val
      ensures ValuesAt(w, role, val, d + 1, 0, 0)
    {
      AssignInputShares(d);
      AssignOutputShares(d);
    }

    /** FinishCircuitLayer: tables, inputs, outputs, and the next layer. */
    method FinishCircuitLayer(ghost d: nat)
      requires Setup() && TablesReady(d) && SharesHere(d) && StashAt(w, role, stash, d, true)
      modifies this
      ensures Started(d + 1)
    {
      EvaluateTTGates(d);
      AssignShares(d);
      InitNewLayer(d);
    }

    // ----- whole layers -------------------------------------------------------------------

    ghost predicate StartHolds(p: Part, d: nat)
      reads this
    {
      match p
      case Turn => playSender == (role == Sender(d)) && StashAt(w, role, stash, d, false)
      case Values => ValuesAt(w, role, val, d, 0, 0)
      case Buffers => Gathering() == GatheredAt(w, role, d, 0)
      case Tables => LanesAt(w, role, classes, lanes, d, 0, false)
    }

    ghost predicate SentHolds(p: Part, d: nat)
      reads this
    {
      match p
      case Turn => playSender == (role == Sender(d)) && StashAt(w, role, stash, d, true)
      case Values => ValuesAt(w, role, val, d, |LocalQueue(w.gs, d)|, |Layer(w.gs, d)|)
      case Buffers => Gathering() == GatheredAt(w, role, d, |Layer(w.gs, d)|)
      case Tables => LanesAt(w, role, classes, lanes, d, |Layer(w.gs, d)|, true)
    }

    /** The start of layer d. */
    ghost predicate LayerStart(d: nat)
      reads this
    {
      forall p {:trigger StartHolds(p, d)} :: StartHolds(p, d)
    }

    /** Layer d is evaluated, its messages are sent or stashed, and the party waits for those of the other one. */
    ghost predicate SentAt(d: nat)
      reads this
    {
      forall p {:trigger SentHolds(p, d)} :: SentHolds(p, d)
    }

    lemma StartParts(d: nat)
      ensures LayerStart(d) <==> Started(d)
    {
      if LayerStart(d) {
        assert StartHolds(Turn, d) && StartHolds(Values, d) && StartHolds(Buffers, d) && StartHolds(Tables, d);
      }
    }

    lemma SentParts(d: nat)
      ensures SentAt(d) <==> Sent(d)
    {
      if SentAt(d) {
        assert SentHolds(Turn, d) && SentHolds(Values, d) && SentHolds(Buffers, d) && SentHolds(Tables, d);
      }
    }

    /** A layer up to the exchange of messages. */
    method EvaluateLayer(d: nat) returns (sendbuf: seq<Buffer>)
      requires Setup() && LayerStart(d)
      modifies this
      ensures SentAt(d) && sendbuf == Message(w, classes, role, d)
    {
      StartParts(d);
      EvaluateLocalOperations(d);
      EvaluateInteractiveOperations(d);
      sendbuf := GetDataToSend(d);
      SentParts(d);
    }

    /** The party takes what it waits for from the stream of the other one, and completes the layer. */
    method CompleteLayer(stream: seq<Buffer>, ghost d: nat, ghost others: seq<Buffer>) returns (rest: seq<Buffer>)
      requires Setup() && SentAt(d) && stream == Expected(w, classes, role, d) + others
      modifies this
      ensures LayerStart(d + 1) && rest == others
    {
      SentParts(d);
      var rcvbytes := GetBuffersToReceive(d);
      var rcvbuf := TakeBuffers(stream, rcvbytes, Expected(w, classes, role, d), others);
      rest := stream[|rcvbytes|..];
      Receive(rcvbuf, d);
      FinishCircuitLayer(d);
      StartParts(d + 1);
    }

    /** A party before the first layer, with the transfers that have been prepared for every class. */
    constructor (r: Role, circuit: seq<Gate>, localQueues: seq<seq<nat>>, interactiveQueues: seq<seq<nat>>, tables: seq<Class>,
                 values: map<nat, seq<bool>>, masks: nat -> bool, transfers: map<Class, Lane>, ghost world: World)
      requires Correct(world) && world.gs == circuit && ClassesOk(circuit, tables)
      requires forall d: nat {:trigger OnLvl(localQueues, d)} :: OnLvl(localQueues, d) == LocalQueue(circuit, d)
      requires forall d: nat {:trigger OnLvl(interactiveQueues, d)} :: OnLvl(interactiveQueues, d) == Layer(circuit, d)
      requires forall g {:trigger circuit[g]} | 0 <= g < |circuit| && circuit[g].op == In(r) :: Given(circuit, world.inp, values, g)
      requires forall x {:trigger masks(x)} :: masks(x) == world.mask(r, x)
      requires forall c {:trigger c in tables} | c in tables :: c in transfers && Unused(world, r, c, transfers[c])
      ensures Setup() && LayerStart(0) && role == r && w == world && classes == tables
    {
      role, gates, localQueueOnLvl, interactiveQueueOnLvl, classes, inputs, randomness, w :=
        r, circuit, localQueues, interactiveQueues, tables, values, masks, world;
      val, playSender, ttGates, inputShareGates, outputShareGates := map[], r.SERVER?, seq(9, k => []), [], [];
      inputShareRcvSize, outputShareRcvSize, inputShareSnd, outputShareSnd, inputShareRcv, outputShareRcv := 0, 0, [], [], [], [];
      stash, lanes := [], transfers;
      new;
      LanesAtStart(w, r, classes, lanes);
      StartParts(0);
    }
  }
}
