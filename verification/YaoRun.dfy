/** Both parties of Yao's protocol: garbling, the rounds, and the outputs. */
module YaoRun {
  import opened Bits
  import opened Circuit
  import opened Meaning
  import opened Builder
  import opened Garbling
  import opened YaoOrder
  import opened YaoSpec
  import opened YaoMessage
  import opened YaoOutputs
  import opened YaoForms
  import S = YaoServerParty
  import C = YaoClientParty

  // ----- one round ------------------------------------------------------------------------

  ghost predicate Peers(server: S.YaoServer, client: C.YaoClient) {
    server.Setup() && client.Setup() && server.w == client.w && server.maxDepth == client.maxDepth
  }

  /** The server has sent, and waits for the client's message. */
  ghost predicate ServerWaits(server: S.YaoServer, d: nat)
    reads server
  {
    && server.Opened(d, |InteractiveGates(server.w.gs, d)|)
    && server.clientKeySndBuf0 == server.clientKeySndBuf1 == []
  }

  method ServerSends(server: S.YaoServer, depth: nat) returns (message: ServerMessage)
    requires server.Setup() && depth < server.maxDepth && server.LayerStart(depth)
    modifies server
    ensures message == FromServer(server.w, depth) && ServerWaits(server, depth)
  {
    assert server.StartPart(S.Part.Waiting, depth);
    server.EvaluateInteractiveOperations(depth);
    message := server.GetDataToSend(depth);
  }

  method ServerFinishes(server: S.YaoServer, message: ClientMessage, ghost depth: nat)
    requires server.Setup() && depth < server.maxDepth && ServerWaits(server, depth) && message == FromClient(server.w, depth)
    modifies server
    ensures server.LayerStart(depth + 1)
  {
    server.SetReceived(message);
    server.FinishCircuitLayer(depth);
  }

  /** The client has sent, and waits for the server's message. */
  ghost predicate ClientWaits(client: C.YaoClient, d: nat)
    reads client
  {
    && client.LocalDone(d, |LocalGates(client.w.gs, d)|) && client.ListsDue(d) && client.KeysAwaited(d) && client.ChoicesUsed(d + 1)
    && C.AllDecoded(client.w, client.outputShareRcvBuf, d + 1, client.val)
  }

  method ClientSends(client: C.YaoClient, depth: nat) returns (message: ClientMessage)
    requires client.Setup() && depth < client.maxDepth && client.LayerStart(depth)
    modifies client
    ensures message == FromClient(client.w, depth) && ClientWaits(client, depth)
  {
    ClientEvaluates(client, depth);
    message := client.GetDataToSend(depth);
  }

  method ClientEvaluates(client: C.YaoClient, depth: nat)
    requires client.Setup() && depth < client.maxDepth && client.LayerStart(depth)
    modifies client
    ensures client.LocalDone(depth, |LocalGates(client.w.gs, depth)|)
    ensures client.Opened(depth, |InteractiveGates(client.w.gs, depth)|) && client.KeysAwaited(depth) && client.ChoicesUsed(depth)
  {
    client.Started(depth);
    client.EvaluateLayer(depth);
  }

  method ClientFinishes(client: C.YaoClient, message: ServerMessage, ghost depth: nat)
    requires client.Setup() && depth < client.maxDepth && ClientWaits(client, depth) && message == FromServer(client.w, depth)
    modifies client
    ensures client.LayerStart(depth + 1)
  {
    client.SetReceived(message);
    ReadyToFinish(client, depth);
    client.FinishCircuitLayer(depth);
  }

  lemma ReadyToFinish(client: C.YaoClient, d: nat)
    requires ClientWaits(client, d) && client.Received(d)
    ensures client.Closing(d)
  {
    forall part
      ensures client.ClosingPart(part, d)
    {
    }
  }

  /** Each party waits for as much as the other one has sent. */
  method ExpectedSizes(server: S.YaoServer, client: C.YaoClient, ghost depth: nat)
    returns (corrections: nat, outputs: nat, serverKeys: nat, clientKeys: nat)
    requires Peers(server, client) && depth < server.maxDepth && ServerWaits(server, depth) && ClientWaits(client, depth)
    ensures corrections == |FromClient(server.w, depth).corrections| && outputs == |FromClient(server.w, depth).outputs|
    ensures serverKeys == |FromServer(server.w, depth).serverKeys|
    ensures clientKeys == |FromServer(server.w, depth).clientKeys0| == |FromServer(server.w, depth).clientKeys1|
  {
    corrections, outputs := server.GetBuffersToReceive(depth);
    serverKeys, clientKeys := client.GetBuffersToReceive(depth);
  }

  /** One round: both evaluate, both send, both finish. */
  method RunLayer(server: S.YaoServer, client: C.YaoClient, depth: nat)
    requires Peers(server, client) && depth < server.maxDepth && server.LayerStart(depth) && client.LayerStart(depth)
    modifies server, client
    ensures server.LayerStart(depth + 1) && client.LayerStart(depth + 1)
  {
    var toClient := ServerSends(server, depth);
    var toServer := ClientSends(client, depth);
    var corrections, outputs, serverKeys, clientKeys := ExpectedSizes(server, client, depth);
    assert corrections == |toServer.corrections| && outputs == |toServer.outputs|;
    assert serverKeys == |toClient.serverKeys| && clientKeys == |toClient.clientKeys0| == |toClient.clientKeys1|;
    ServerFinishes(server, toServer, depth);
    ClientFinishes(client, toClient, depth);
  }

  /** EvaluateCircuit: all rounds. */
  method EvaluateCircuit(server: S.YaoServer, client: C.YaoClient)
    requires Peers(server, client) && server.LayerStart(0) && client.LayerStart(0)
    modifies server, client
    ensures server.LayerStart(server.maxDepth) && client.LayerStart(server.maxDepth)
  {
    for depth := 0 to server.maxDepth
      invariant server.LayerStart(depth) && client.LayerStart(depth)
    {
      RunLayer(server, client, depth);
    }
  }

  // ----- results --------------------------------------------------------------------------

  /** Every output of the server is the plain value. */
  ghost predicate ServerLearns(server: S.YaoServer)
    reads server
  {
    && Ordered(server.w.gs)
    && forall g: nat {:trigger server.w.gs[g]} | g < |server.w.gs| && Receives(server.w.gs[g].op, SERVER) ::
         g in server.val && server.val[g] == Eval(server.w.gs, server.w.inp)[g]
  }

  ghost predicate ClientLearns(client: C.YaoClient)
    reads client
  {
    && Ordered(client.w.gs)
    && forall g: nat {:trigger client.w.gs[g]} | g < |client.w.gs| && Receives(client.w.gs[g].op, CLIENT) ::
         g in client.val && client.val[g] == Eval(client.w.gs, client.w.inp)[g]
  }

  lemma PlainBlock(w: Run, g: nat)
    requires Correct(w) && g < |w.gs| && w.gs[g].op.Out?
    ensures Block(w.gs, OutputBits, OutPlain(w), g) == Eval(w.gs, w.inp)[g]
  {
    var v := Eval(w.gs, w.inp)[g];
    ValuesUnique(w.gs, Eval(w.gs, w.inp), w.inp);
    assert ValueOk(w.gs, Eval(w.gs, w.inp), w.inp, g);
    forall t: nat | t < w.gs[g].nvals
      ensures Block(w.gs, OutputBits, OutPlain(w), g)[t] == v[t]
    {
      OutputDecodes(w, g, t);
    }
  }

  lemma ServerDone(server: S.YaoServer)
    requires server.Setup() && server.LayerStart(server.maxDepth)
    ensures ServerLearns(server)
  {
    var w := server.w;
    assert server.StartPart(S.Part.Unchanged, server.maxDepth);
    forall g: nat | g < |w.gs| && Receives(w.gs[g].op, SERVER)
      ensures g in server.val && server.val[g] == Eval(w.gs, w.inp)[g]
    {
      LayersCover(w.gs, server.localQueueOnLvl, server.interactiveQueueOnLvl, w.layers, g);
      assert S.OutputOk(w, server.maxDepth, server.val, g);
      PlainBlock(w, g);
    }
  }

  lemma DecodedBlock(w: Run, g: nat)
    requires Correct(w) && AllDecoded(w) && g < |w.gs| && Draws(w.gs, ClientBits, g)
    ensures Block(w.gs, OutputBits, C.Decoded(w, Collected(w.gs, OutPi(w))), g) == Eval(w.gs, w.inp)[g]
  {
    var v, bits := Eval(w.gs, w.inp)[g], Collected(w.gs, OutPi(w));
    ValuesUnique(w.gs, Eval(w.gs, w.inp), w.inp);
    assert ValueOk(w.gs, Eval(w.gs, w.inp), w.inp, g);
    forall t: nat | t < w.gs[g].nvals
      ensures Block(w.gs, OutputBits, C.Decoded(w, bits), g)[t] == v[t]
    {
      assert ClientOutput(w.gs, g, t) && DecodedRight(w, g, t);
    }
  }

  lemma ClientDone(client: C.YaoClient)
    requires client.Setup() && client.LayerStart(client.maxDepth) && FormsAgree(client.w.gs, client.w.layers)
    ensures ClientLearns(client)
  {
    var w := client.w;
    client.AllOnLayers();
    FormsSuffice(w);
    assert client.StartPart(C.Part.Outputs, client.maxDepth);
    forall g: nat | g < |w.gs| && Receives(w.gs[g].op, CLIENT)
      ensures g in client.val && client.val[g] == Eval(w.gs, w.inp)[g]
    {
      assert C.DecodedOk(w, client.outputShareRcvBuf, client.maxDepth, client.val, g);
      DecodedBlock(w, g);
    }
  }

  // ----- from the builder to the outputs --------------------------------------------------

  /** The lengths of keys, and the bits that are fixed: the last one of R, and that of every wire key. */
  ghost predicate Sound(s: Secrets, enc: (Key, nat) -> Key, pad: (Key, Key, nat) -> Key) {
    && Sized(s.R, s.kappa) && Last(s.R)
    && (forall k, i {:trigger enc(k, i)} :: Sized(enc(k, i), s.kappa))
    && (forall k, l, i {:trigger pad(k, l, i)} :: Sized(pad(k, l, i), s.kappa))
    && (forall j {:trigger s.serverKey(j)} :: Plain(s.serverKey(j), s.kappa))
    && (forall j {:trigger s.clientKey(j)} :: Plain(s.clientKey(j), s.kappa))
    && (forall j {:trigger s.mask0(j)} :: Sized(s.mask0(j), s.kappa))
    && (forall j {:trigger s.mask1(j)} :: Sized(s.mask1(j), s.kappa))
  }

  /** The run that the random values determine. */
  function RunOf(gs: seq<Gate>, layers: nat, inp: (nat, nat) -> bool, s: Secrets, enc: (Key, nat) -> Key,
                 pad: (Key, Key, nat) -> Key, choice: nat -> bool): Run
  {
    Assign(Unassigned(gs, layers, inp, s, enc, pad, choice))
  }

  function Unassigned(gs: seq<Gate>, layers: nat, inp: (nat, nat) -> bool, s: Secrets, enc: (Key, nat) -> Key,
                      pad: (Key, Key, nat) -> Key, choice: nat -> bool): Run
  {
    Run(gs, layers, inp, s.kappa, s.R, enc, pad, s.serverKey, s.clientKey, s.perm, s.mask0, s.mask1, choice,
        (g: nat, t: nat) => NO_AND_TABLE, (g: nat, t: nat) => NO_UNIV_TABLE,
        (g: nat, t: nat) => [], (g: nat, t: nat) => false, (g: nat, t: nat) => [])
  }

  lemma RunIsCorrect(gs: seq<Gate>, layers: nat, inp: (nat, nat) -> bool, s: Secrets, enc: (Key, nat) -> Key,
                     pad: (Key, Key, nat) -> Key, choice: nat -> bool)
    requires Sound(s, enc, pad) && Garblable(gs)
    ensures var w := RunOf(gs, layers, inp, s, enc, pad, choice);
            && Correct(w) && w.gs == gs && w.layers == layers && w.inp == inp && SecretsOf(w, s)
            && w.enc == enc && w.pad == pad && w.choice == choice
  {
    var before := Unassigned(gs, layers, inp, s, enc, pad, choice);
    KeysExist(before);
  }

  /** Each party holds its inputs. */
  ghost predicate InputsOf(gs: seq<Gate>, inp: (nat, nat) -> bool, r: Role, values: map<nat, seq<bool>>) {
    forall g: nat | g < |gs| && gs[g].op == In(r) ::
      g in values && |values[g]| == gs[g].nvals && forall t | 0 <= t < gs[g].nvals :: values[g][t] == inp(g, t)
  }

  /** The circuits and queues that a builder hands over. */
  ghost predicate Handed(bc: BooleanCircuit)
    reads bc
  {
    Garblable(bc.gates) && Queued(bc.gates, bc.localQueueOnLvl, bc.interactiveQueueOnLvl, bc.maxDepth)
  }

  lemma BuilderHands(bc: BooleanCircuit)
    requires bc.Valid() && bc.ctx.YAO? && YaoGates(bc.gates)
    ensures Handed(bc)
  {
    bc.Sound();
    var books := Books(bc.nused, bc.localQueueOnLvl, bc.interactiveQueueOnLvl, bc.maxDepth, bc.ands);
    assert BookOk(LocalQueues, bc.ctx, bc.gates, books) && BookOk(InteractiveQueues, bc.ctx, bc.gates, books);
    assert BookOk(Depth, bc.ctx, bc.gates, books);
  }

  /** The setup phase of the server: garble everything. */
  method PrepareServer(bc: BooleanCircuit, values: map<nat, seq<bool>>, s: Secrets, enc: (Key, nat) -> Key,
                       pad: (Key, Key, nat) -> Key, ghost w: Run) returns (server: S.YaoServer)
    requires Handed(bc) && Correct(w) && w.gs == bc.gates && w.layers == bc.maxDepth && SecretsOf(w, s) && w.enc == enc && w.pad == pad
    requires InputsOf(bc.gates, w.inp, SERVER, values)
    ensures fresh(server) && server.w == w && server.maxDepth == bc.maxDepth && server.Setup() && server.LayerStart(0)
    ensures server.Garbling(w)
  {
    server := new S.YaoServer(bc.gates, bc.localQueueOnLvl, bc.interactiveQueueOnLvl, bc.maxDepth,
                              Built(bc.gates, ClientBits, |bc.gates|), values, s, enc, pad, w);
    server.CreateGarbledCircuit();
    server.PrepareOnlinePhase();
  }

  /** The setup phase of the client: it has received the garbled circuit and the masks it has chosen. */
  method PrepareClient(bc: BooleanCircuit, values: map<nat, seq<bool>>, server: S.YaoServer, kappa: nat, enc: (Key, nat) -> Key,
                       pad: (Key, Key, nat) -> Key, choice: nat -> bool, rotMasks: nat -> Key, ghost w: Run)
    returns (client: C.YaoClient)
    requires Handed(bc) && Correct(w) && w.gs == bc.gates && w.layers == bc.maxDepth && w.kappa == kappa && w.enc == enc && w.pad == pad
    requires InputsOf(bc.gates, w.inp, CLIENT, values) && w.choice == choice && C.MasksHeld(w, rotMasks)
    requires server.w == w && server.Garbling(w)
    ensures fresh(client) && client.w == w && client.maxDepth == bc.maxDepth && client.Setup() && client.LayerStart(0)
  {
    client := new C.YaoClient(bc.gates, bc.localQueueOnLvl, bc.interactiveQueueOnLvl, bc.maxDepth, values, kappa, enc, pad,
                              choice, rotMasks, server.garbledCircuit, server.universalGateTable, server.outputShareSndBuf, w);
  }

  /** Both setup phases. The client has, by the transfers, the masks that its choice bits select. */
  method PrepareBoth(bc: BooleanCircuit, serverValues: map<nat, seq<bool>>, clientValues: map<nat, seq<bool>>, s: Secrets,
                     enc: (Key, nat) -> Key, pad: (Key, Key, nat) -> Key, choice: nat -> bool, ghost w: Run)
    returns (server: S.YaoServer, client: C.YaoClient)
    requires Handed(bc) && Correct(w) && w.gs == bc.gates && w.layers == bc.maxDepth && SecretsOf(w, s) && w.enc == enc && w.pad == pad
    requires w.choice == choice && InputsOf(bc.gates, w.inp, SERVER, serverValues) && InputsOf(bc.gates, w.inp, CLIENT, clientValues)
    ensures fresh(server) && fresh(client) && server.w == client.w == w && server.maxDepth == client.maxDepth == bc.maxDepth
    ensures server.Setup() && client.Setup() && server.LayerStart(0) && client.LayerStart(0)
  {
    server := PrepareServer(bc, serverValues, s, enc, pad, w);
    var rotMasks := (j: nat) => if choice(j) then s.mask1(j) else s.mask0(j);
    MasksDelivered(w, s, rotMasks);
    client := PrepareClient(bc, clientValues, server, s.kappa, enc, pad, choice, rotMasks, w);
  }

  lemma OutputsLearnt(server: S.YaoServer, client: C.YaoClient)
    requires Peers(server, client) && server.LayerStart(server.maxDepth) && client.LayerStart(server.maxDepth)
    ensures ServerLearns(server) && (FormsAgree(client.w.gs, client.maxDepth) ==> ClientLearns(client))
    ensures BuiltInLayers(client.w.gs) ==> ClientLearns(client)
  {
    ServerDone(server);
    client.AllOnLayers();
    if BuiltInLayers(client.w.gs) {
      LayersAgree(client.w.gs, client.w.layers);
    }
    if FormsAgree(client.w.gs, client.w.layers) {
      ClientDone(client);
    }
  }

  /**
    For every circuit that was built, all inputs, all keys and all random values, the server learns its plain outputs,
    and so does the client if the forms of its outputs agree, as they do if these were built layer by layer.
   */
  method ExecCircuit(bc: BooleanCircuit, serverValues: map<nat, seq<bool>>, clientValues: map<nat, seq<bool>>, s: Secrets,
                     enc: (Key, nat) -> Key, pad: (Key, Key, nat) -> Key, choice: nat -> bool, ghost inp: (nat, nat) -> bool)
    returns (server: S.YaoServer, client: C.YaoClient)
    requires bc.Valid() && bc.ctx.YAO? && YaoGates(bc.gates) && Sound(s, enc, pad)
    requires InputsOf(bc.gates, inp, SERVER, serverValues) && InputsOf(bc.gates, inp, CLIENT, clientValues)
    ensures server.w.gs == client.w.gs == bc.gates && server.w.inp == client.w.inp == inp
    ensures ServerLearns(server) && (FormsAgree(bc.gates, bc.maxDepth) ==> ClientLearns(client))
    ensures BuiltInLayers(bc.gates) ==> ClientLearns(client)
    ensures Meant(bc.gates, inp)
  {
    BuilderHands(bc);
    EvalMeant(YAO, bc.gates, inp);
    ghost var w := RunOf(bc.gates, bc.maxDepth, inp, s, enc, pad, choice);
    RunIsCorrect(bc.gates, bc.maxDepth, inp, s, enc, pad, choice);
    server, client := PrepareBoth(bc, serverValues, clientValues, s, enc, pad, choice, w);
    EvaluateCircuit(server, client);
    OutputsLearnt(server, client);
  }

  lemma MasksDelivered(w: Run, s: Secrets, rotMasks: nat -> Key)
    requires SecretsOf(w, s) && forall j: nat :: rotMasks(j) == if w.choice(j) then s.mask1(j) else s.mask0(j)
    ensures C.MasksHeld(w, rotMasks)
  {
    forall j: nat
      ensures C.MaskHeld(w, rotMasks, j)
    {
    }
  }
}
