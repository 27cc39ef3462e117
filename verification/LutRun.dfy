/** Both parties of SP-LUT sharing over all layers, with roles that alternate. */
module LutRun {
  import opened Bits
  import opened LutCircuit
  import opened LutMeaning
  import opened LutSpec
  import opened LutTables
  import opened LutMessage
  import opened LutLayer
  import opened LutParty
  import C = Circuit

  /** Two parties of one run. */
  ghost predicate Peers(a: SetupLUT, b: SetupLUT) {
    a != b && a.role == b.role.Other() && a.w == b.w && a.classes == b.classes && a.Setup() && b.Setup()
  }

  /** The first layer: the sender answers when the next layer begins. */
  method FirstLayer(sender: SetupLUT, receiver: SetupLUT)
    requires Peers(sender, receiver) && sender.role == Sender(0) && sender.LayerStart(0) && receiver.LayerStart(0)
    modifies sender, receiver
    ensures sender.LayerStart(1) && receiver.SentAt(0)
  {
    var stream := receiver.EvaluateLayer(0);
    FirstMessage(sender.w, sender.classes, sender.role);
    SendLayer(sender, stream, 0);
  }

  /** The sender's part of a layer. */
  method SendLayer(sender: SetupLUT, stream: seq<Buffer>, d: nat)
    requires sender.Setup() && sender.role == Sender(d) && sender.LayerStart(d)
    requires stream == Expected(sender.w, sender.classes, sender.role, d)
    modifies sender
    ensures sender.LayerStart(d + 1)
  {
    var stashed := sender.EvaluateLayer(d);
    assert stream == stream + [];
    var rest := sender.CompleteLayer(stream, d, []);
  }

  /**
    The layer after d. Its sender still waits for the answers of layer d. The receiver sends first, and its stream
    completes layer d for the sender, which then evaluates the next layer and completes it with the rest of the stream.
    Nothing else can happen: each party waits for the other one.
   */
  method NextLayer(sender: SetupLUT, receiver: SetupLUT, d: nat)
    requires Peers(sender, receiver) && sender.role == Sender(d + 1) && sender.SentAt(d) && receiver.LayerStart(d + 1)
    modifies sender, receiver
    ensures sender.LayerStart(d + 2) && receiver.SentAt(d + 1)
  {
    var stream := receiver.EvaluateLayer(d + 1);
    NextMessage(sender.w, sender.classes, sender.role, d);
    TwoLayers(sender, stream, d, Expected(sender.w, sender.classes, sender.role, d + 1));
  }

  method TwoLayers(sender: SetupLUT, stream: seq<Buffer>, d: nat, ghost expected: seq<Buffer>)
    requires sender.Setup() && sender.role == Sender(d + 1) && sender.SentAt(d)
    requires stream == Expected(sender.w, sender.classes, sender.role, d) + expected
    requires expected == Expected(sender.w, sender.classes, sender.role, d + 1)
    modifies sender
    ensures sender.LayerStart(d + 2)
  {
    var rest := sender.CompleteLayer(stream, d, expected);
    SendLayer(sender, rest, d + 1);
  }

  lemma NothingOnLayer(w: World, d: nat)
    requires Correct(w) && d >= w.layers
    ensures Layer(w.gs, d) == []
  {
    QueueEmpty(w.gs, true, d, |w.gs|);
  }

  lemma {:induction false} NoAnswers(w: World, classes: seq<Class>, d: nat, k: nat)
    requires Layer(w.gs, d) == []
    ensures AnswerBufs(w, classes, d, k) == [] && ChoiceBufs(w, classes, d, k) == []
    decreases |classes| - k
  {
    if k < |classes| {
      NoAnswers(w, classes, d, k + 1);
    }
  }

  /** A party's own outputs are the plain outputs. */
  ghost predicate OutputsPlain(party: SetupLUT)
    reads party
  {
    forall g: nat {:trigger party.w.gs[g]} | g < |party.w.gs| && Receives(party.w.gs[g].op, party.role) ::
      g in party.val && party.val[g] == PlainVal(party.w.gs, party.w.inp, g)
  }

  /** An output of a party: it goes to that party alone, or to both. */
  predicate Receives(op: Op, r: Role) {
    op.Out? && (op.dst == C.To(r) || op.dst == C.All)
  }

  /** Nothing is left in the stash or among the answers. */
  ghost predicate NothingUnsent(party: SetupLUT)
    reads party
  {
    party.stash == [] && forall c {:trigger party.lanes[c]} | c in party.classes && c in party.lanes :: party.lanes[c].maskSnd == []
  }

  /** The transfers in which a sends are used up, by both parties alike. */
  ghost predicate InStep(a: SetupLUT, b: SetupLUT)
    reads a, b
  {
    forall c {:trigger BothUsedUp(a.lanes, b.lanes, c)} | c in a.classes :: BothUsedUp(a.lanes, b.lanes, c)
  }

  lemma AfterLastLayer(party: SetupLUT)
    requires party.Setup() && party.LayerStart(party.w.layers + 1)
    ensures OutputsPlain(party) && NothingUnsent(party)
  {
    party.StartParts(party.w.layers + 1);
    var w, r := party.w, party.role;
    NothingOnLayer(w, w.layers);
    forall g: nat | g < |w.gs| && Receives(w.gs[g].op, r)
      ensures g in party.val && party.val[g] == PlainVal(w.gs, w.inp, g)
    {
      assert Known(w, r, w.layers + 1, 0, 0, g);
      forall t | 0 <= t < w.gs[g].nvals
        ensures w.share(r, g, t) == Plain(w.gs, w.inp, g, t)
      {
        SharesXorToPlain(w, g, t);
      }
    }
    forall c | c in party.classes && c in party.lanes
      ensures party.lanes[c].maskSnd == []
    {
      assert ClassAt(w, r, party.lanes, c, w.layers + 1, 0, false);
    }
  }

  lemma UsedUp(a: SetupLUT, b: SetupLUT)
    requires Peers(a, b) && a.LayerStart(a.w.layers + 1) && b.LayerStart(b.w.layers + 1)
    ensures InStep(a, b)
  {
    assert a.StartHolds(Tables, a.w.layers + 1) && b.StartHolds(Tables, a.w.layers + 1);
    LanesUsedUp(a.w, a.role, a.classes, a.lanes, b.lanes);
  }

  /** Both sides of a class have used up its transfers. */
  predicate BothUsedUp(lanes: map<Class, Lane>, others: map<Class, Lane>, c: Class) {
    c in lanes && c in others && lanes[c].maskIdx == others[c].choiceIdx == |lanes[c].otX| == |others[c].otC|
  }

  lemma LanesUsedUp(w: World, r: Role, classes: seq<Class>, lanes: map<Class, Lane>, others: map<Class, Lane>)
    requires Correct(w) && LanesAt(w, r, classes, lanes, w.layers + 1, 0, false) && LanesAt(w, r.Other(), classes, others, w.layers + 1, 0, false)
    ensures forall c {:trigger BothUsedUp(lanes, others, c)} | c in classes :: BothUsedUp(lanes, others, c)
  {
    NothingOnLayer(w, w.layers);
    forall c | c in classes
      ensures BothUsedUp(lanes, others, c)
    {
      assert ClassAt(w, r, lanes, c, w.layers + 1, 0, false) && ClassAt(w, r.Other(), others, c, w.layers + 1, 0, false);
    }
  }

  /** EvaluateCircuit, with GetMaxDepth() + 1 rounds: the last one only brings what a sender has put off. */
  method EvaluateCircuit(server: SetupLUT, client: SetupLUT, maxDepth: nat)
    requires Peers(server, client) && server.role == C.SERVER && server.LayerStart(0) && client.LayerStart(0)
    requires maxDepth == server.w.layers
    modifies server, client
    ensures OutputsPlain(server) && OutputsPlain(client) && NothingUnsent(server) && NothingUnsent(client)
    ensures InStep(server, client) && InStep(client, server)
  {
    var sender, receiver := server, client;
    FirstLayer(sender, receiver);
    for d := 0 to maxDepth
      invariant (sender == server && receiver == client) || (sender == client && receiver == server)
      invariant Peers(sender, receiver) && sender.role == Sender(d) && sender.LayerStart(d + 1) && receiver.SentAt(d)
    {
      sender, receiver := receiver, sender;
      NextLayer(sender, receiver, d);
    }
    LastAnswers(receiver, maxDepth);
    AfterLastLayer(server);
    AfterLastLayer(client);
    UsedUp(server, client);
    UsedUp(client, server);
  }

  /** In the last round the receiver waits for nothing. */
  method LastAnswers(party: SetupLUT, ghost d: nat)
    requires party.Setup() && party.SentAt(d) && d == party.w.layers
    modifies party
    ensures party.LayerStart(d + 1)
  {
    NothingOnLayer(party.w, d);
    NoAnswers(party.w, party.classes, d, 0);
    assert Expected(party.w, party.classes, party.role, d) == [];
    var rest := party.CompleteLayer([], d, []);
  }

  /** At any time, what both parties have stored of a gate adds up to its plain value. */
  lemma StoredSharesXor(a: SetupLUT, b: SetupLUT, d: nat, e: nat, g: nat, t: nat)
    requires Peers(a, b) && a.LayerStart(d) && b.LayerStart(e) && g in a.val && g in b.val
    ensures g < |a.w.gs| && |a.val[g]| == |b.val[g]| == a.w.gs[g].nvals
    ensures t < |a.val[g]| ==> Plain(a.w.gs, a.w.inp, g, t) == if a.w.gs[g].op.Out? then a.val[g][t] else a.val[g][t] != b.val[g][t]
  {
    a.StartParts(d);
    b.StartParts(e);
    SharesXorToPlain(a.w, g, t);
  }
}
