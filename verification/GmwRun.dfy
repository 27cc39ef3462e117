/** Both parties of the GMW protocol, run layer by layer. */
module GmwRun {
  import opened Bits
  import opened Circuit
  import opened Meaning
  import opened Builder
  import opened GmwSpec
  import opened GmwSchedule
  import opened GmwMessage
  import opened GmwParty
  import opened Channel

  /** Two parties of one run. */
  ghost predicate Peers(server: BoolSharing, client: BoolSharing) {
    && server != client && server.role == SERVER && client.role == CLIENT
    && server.w == client.w && server.ands == client.ands && server.maxDepth == client.maxDepth
    && server.Setup() && client.Setup()
  }

  /** Local and interactive gates of a layer, as one party evaluates them. */
  method EvaluateLayer(party: BoolSharing, depth: nat)
    requires party.Setup() && depth < party.maxDepth && party.LayerStart(depth)
    modifies party
    ensures party.OpenAt(depth, |Layer(party.gates, depth)|)
  {
    party.EvaluateLocalOperations(depth);
    party.OpenFromAspects(depth, 0);
    party.EvaluateInteractiveOperations(depth);
  }

  /** One party's buffers reach the other party. */
  method Transfer(sender: BoolSharing, receiver: BoolSharing, ghost depth: nat) returns (rcvbuf: seq<seq<bool>>)
    requires sender.Setup() && receiver.Setup() && sender.w == receiver.w && sender.ands == receiver.ands
    requires receiver.role == sender.role.Other() && depth < sender.maxDepth
    requires sender.OpenAt(depth, |Layer(sender.gates, depth)|) && receiver.OpenAt(depth, |Layer(receiver.gates, depth)|)
    ensures MessageOk(sender.w, sender.ands, sender.role, depth, rcvbuf)
  {
    var sendbuf := sender.GetDataToSend(depth);
    MessageSized(sender.w, sender.ands, sender.role, depth, sendbuf);
    var stream := SendValues(sendbuf);
    var rcvbytes := receiver.GetBuffersToReceive(depth);
    rcvbuf := ReceiveValues(stream, rcvbytes, sendbuf);
  }

  /** One layer: both parties open, exchange their messages, and finish. */
  method RunLayer(server: BoolSharing, client: BoolSharing, depth: nat)
    requires Peers(server, client) && depth < server.maxDepth && server.LayerStart(depth) && client.LayerStart(depth)
    modifies server, client
    ensures server.LayerStart(depth + 1) && client.LayerStart(depth + 1)
  {
    EvaluateLayer(server, depth);
    EvaluateLayer(client, depth);
    var toClient, toServer := Exchange(server, client, depth);
    FinishLayer(server, toServer, depth);
    FinishLayer(client, toClient, depth);
  }

  /** Both messages of a layer. */
  method Exchange(server: BoolSharing, client: BoolSharing, ghost depth: nat)
    returns (toClient: seq<seq<bool>>, toServer: seq<seq<bool>>)
    requires Peers(server, client) && depth < server.maxDepth
    requires server.OpenAt(depth, |Layer(server.gates, depth)|) && client.OpenAt(depth, |Layer(client.gates, depth)|)
    ensures MessageOk(server.w, server.ands, SERVER, depth, toClient) && MessageOk(client.w, client.ands, CLIENT, depth, toServer)
  {
    toClient := Transfer(server, client, depth);
    toServer := Transfer(client, server, depth);
  }

  method FinishLayer(party: BoolSharing, rcvbuf: seq<seq<bool>>, ghost depth: nat)
    requires party.Setup() && depth < party.maxDepth && party.OpenAt(depth, |Layer(party.gates, depth)|)
    requires MessageOk(party.w, party.ands, party.role.Other(), depth, rcvbuf)
    modifies party
    ensures party.LayerStart(depth + 1)
  {
    party.OpenAspects(depth, |Layer(party.gates, depth)|);
    party.SetReceived(rcvbuf, depth);
    party.FinishCircuitLayer(depth);
  }

  /** EvaluateCircuit: all layers, one after the other. */
  method EvaluateCircuit(server: BoolSharing, client: BoolSharing)
    requires Peers(server, client) && server.LayerStart(0) && client.LayerStart(0)
    modifies server, client
    ensures Finished(server) && Finished(client)
  {
    var maxdepth := server.maxDepth;
    for depth := 0 to maxdepth
      invariant server.LayerStart(depth) && client.LayerStart(depth)
    {
      RunLayer(server, client, depth);
    }
    EverythingDone(server);
    EverythingDone(client);
  }

  /** Own outputs are the plain outputs, and every value that was ever used has been freed. */
  ghost predicate Finished(party: BoolSharing)
    reads party
  {
    && Ordered(party.w.gs)
    && (forall g: nat {:trigger party.w.gs[g]} | g < |party.w.gs| && Receives(party.w.gs[g].op, party.role) ::
          g in party.val && party.val[g] == Eval(party.w.gs, party.w.inp)[g])
    && (forall g {:trigger g in party.val} | g in party.val :: Uses(party.w.gs)[g] == 0)
  }

  lemma EverythingDone(party: BoolSharing)
    requires party.Setup() && party.LayerStart(party.maxDepth)
    ensures Finished(party)
  {
    var w := party.w;
    AllLayers(party);
    AllDone(w.gs, party.maxDepth);
    forall g: nat | g < |w.gs| && Receives(w.gs[g].op, party.role)
      ensures g in party.val && party.val[g] == Eval(w.gs, w.inp)[g]
    {
      assert GateState(w, party.role, party.val, party.evaluated, party.pending, g);
      OutputsUnused(w.gs, |w.gs|, g);
      PlainOutput(w, party.role, g);
    }
    forall g | g in party.val
      ensures Uses(w.gs)[g] == 0
    {
      assert GateState(w, party.role, party.val, party.evaluated, party.pending, g);
    }
  }

  lemma AllLayers(party: BoolSharing)
    requires party.Setup()
    ensures forall g | 0 <= g < |party.gates| :: party.gates[g].depth < party.maxDepth
  {
    var gs := party.gates;
    assert party.FactOk(LocalGates) && party.FactOk(InteractiveGates) && party.FactOk(Layers);
    forall g | 0 <= g < |gs|
      ensures gs[g].depth < party.maxDepth
    {
      var queues := if Interactive(BOOL, gs[g].op) then party.interactiveQueueOnLvl else party.localQueueOnLvl;
      assert LayerExists(gs, queues, g);
    }
  }

  /** Nobody uses an output. */
  lemma {:induction false} OutputsUnused(gs: seq<Gate>, n: nat, g: nat)
    requires WellFormed(BOOL, gs) && n <= |gs| && g < |gs| && gs[g].op.Out?
    ensures Uses(gs[..n])[g] == 0 && gs[..|gs|] == gs
  {
    if n > 0 {
      OutputsUnused(gs, n - 1, g);
      OutputNoParent(gs, n - 1, g);
      UsesFront(gs, n, g);
    }
  }

  lemma UsesFront(gs: seq<Gate>, n: nat, g: nat)
    requires 0 < n <= |gs|
    ensures Uses(gs[..n])[g] == Uses(gs[..n - 1])[g] + multiset(Parents(gs[n - 1].op))[g]
  {
    assert gs[..n] == gs[..n - 1] + [gs[n - 1]];
    UsesAppendAt(gs[..n - 1], gs[n - 1], g);
  }

  lemma OutputNoParent(gs: seq<Gate>, x: nat, g: nat)
    requires WellFormed(BOOL, gs) && x < |gs| && g < |gs| && gs[g].op.Out?
    ensures g !in Parents(gs[x].op)
  {
    if g in Parents(gs[x].op) {
      ParentSchedule(BOOL, gs, x, g);
    }
  }

  /** What an output gate holds is the plain value. */
  lemma PlainOutput(w: World, r: Role, g: nat)
    requires Runnable(w.gs) && SharesOk(w) && g < |w.gs| && w.gs[g].op.Out?
    ensures Share(w, r, g) == Eval(w.gs, w.inp)[g]
  {
    var v := Eval(w.gs, w.inp)[g];
    ValuesUnique(w.gs, Eval(w.gs, w.inp), w.inp);
    assert ValueOk(w.gs, Eval(w.gs, w.inp), w.inp, g);
    forall t | 0 <= t < w.gs[g].nvals
      ensures w.share(r, g, t) == v[t]
    {
      SharesXorToPlain(w, g, t);
    }
  }

  /** At every layer boundary the shares of a value that both parties hold add up to the plain value. */
  lemma StoredSharesXor(server: BoolSharing, client: BoolSharing, depth: nat, g: nat, t: nat)
    requires Peers(server, client) && server.LayerStart(depth) && client.LayerStart(depth)
    requires g in server.val && g in client.val && g < |server.w.gs| && !server.w.gs[g].op.Out? && t < server.w.gs[g].nvals
    ensures |server.val[g]| == |client.val[g]| == server.w.gs[g].nvals
    ensures (server.val[g][t] != client.val[g][t]) == At(Eval(server.w.gs, server.w.inp)[g], t)
  {
    assert GateState(server.w, SERVER, server.val, server.evaluated, server.pending, g);
    assert GateState(client.w, CLIENT, client.val, client.evaluated, client.pending, g);
    SharesXorToPlain(server.w, g, t);
  }

  /** Both parties hold a value exactly as long as uses of it are to come. */
  lemma StoredTogether(server: BoolSharing, client: BoolSharing, depth: nat, g: nat)
    requires Peers(server, client) && server.LayerStart(depth) && client.LayerStart(depth)
    requires g < |server.w.gs| && !server.w.gs[g].op.Out?
    ensures g in server.val <==> g in client.val
    ensures g in server.val <==> server.w.gs[g].depth < depth &&
                                 (Rest(server.w.gs, Before(server.w.gs, depth), |server.w.gs|)[g] > 0 || Uses(server.w.gs)[g] == 0)
  {
    assert GateState(server.w, SERVER, server.val, server.evaluated, server.pending, g);
    assert GateState(client.w, CLIENT, client.val, client.evaluated, client.pending, g);
  }

  // ----- from the builder to the outputs --------------------------------------------------

  /** A party's random values: input masks, and choices and pairs for the oblivious transfers. */
  datatype Randomness = Randomness(mask: nat -> bool, choice: (nat, nat) -> bool, x0: (nat, nat) -> bool, x1: (nat, nat) -> bool)

  /** The run that two parties' random values determine. */
  function WorldOf(gs: seq<Gate>, inp: (nat, nat) -> bool, s: Randomness, c: Randomness): (w: World)
    ensures w.gs == gs && w.inp == inp
  {
    Evaluate(Unevaluated(gs, inp, s, c), |gs|)
  }

  function Unevaluated(gs: seq<Gate>, inp: (nat, nat) -> bool, s: Randomness, c: Randomness): World {
    World(gs, inp,
          (r: Role, i: nat) => if r.SERVER? then s.mask(i) else c.mask(i),
          (r: Role, bl: nat, x: nat) => if r.SERVER? then s.x0(bl, x) else c.x0(bl, x),
          (r: Role, bl: nat, x: nat) => if r.SERVER? then s.x1(bl, x) else c.x1(bl, x),
          (r: Role, bl: nat, i: nat) => if r.SERVER? then s.choice(bl, i) else c.choice(bl, i),
          (r: Role, g: nat, t: nat) => false)
  }

  /** What the ideal transfer delivers to the party with the given choices. */
  predicate Deliver(own: Randomness, peer: Randomness, bl: nat, x: nat) {
    bl > 0 && if own.choice(bl, Group(x, bl)) then peer.x1(bl, x) else peer.x0(bl, x)
  }

  /** The values a party feeds into its input gates. */
  ghost predicate InputsOf(gs: seq<Gate>, inp: (nat, nat) -> bool, r: Role, values: map<nat, seq<bool>>) {
    forall g: nat | g < |gs| && gs[g].op == In(r) ::
      g in values && |values[g]| == gs[g].nvals && forall t | 0 <= t < gs[g].nvals :: values[g][t] == inp(g, t)
  }

  /** The run's random values are those of the party and, for its transfers, of its peer. */
  ghost predicate DrawnBy(w: World, r: Role, own: Randomness, peer: Randomness) {
    && (forall i: nat :: own.mask(i) == w.mask(r, i))
    && (forall bl: nat, i: nat ::
          && own.choice(bl, i) == w.choice(r, bl, i) && own.x0(bl, i) == w.x0(r, bl, i) && own.x1(bl, i) == w.x1(r, bl, i)
          && peer.x0(bl, i) == w.x0(r.Other(), bl, i) && peer.x1(bl, i) == w.x1(r.Other(), bl, i))
  }

  /** A party for a circuit that was built, with its part of the triples. */
  method Prepare(bc: BooleanCircuit, r: Role, values: map<nat, seq<bool>>, own: Randomness, peer: Randomness, ghost w: World)
    returns (party: BoolSharing)
    requires bc.Valid() && bc.ctx.BOOL? && BoolGates(bc.gates) && SharesOk(w) && w.gs == bc.gates
    requires InputsOf(bc.gates, w.inp, r, values)
    requires DrawnBy(w, r, own, peer)
    ensures fresh(party) && party.role == r && party.w == w && party.ands == bc.ands && party.maxDepth == bc.maxDepth
    ensures party.Setup() && party.LayerStart(0)
  {
    BuilderBooks(bc);
    party := new BoolSharing(r, bc.gates, bc.localQueueOnLvl, bc.interactiveQueueOnLvl, bc.maxDepth, bc.ands,
                             bc.nused, values, own.mask, w);
    party.PrepareSetupPhase(own.choice, own.x0, own.x1, (bl: nat, x: nat) => Deliver(own, peer, bl, x));
  }

  /** For every circuit that was built, all inputs and all randomness, both parties obtain the plain outputs. */
  method ExecCircuit(bc: BooleanCircuit, serverValues: map<nat, seq<bool>>, clientValues: map<nat, seq<bool>>,
                     s: Randomness, c: Randomness, ghost inp: (nat, nat) -> bool)
    returns (server: BoolSharing, client: BoolSharing)
    requires bc.Valid() && bc.ctx.BOOL? && BoolGates(bc.gates)
    requires InputsOf(bc.gates, inp, SERVER, serverValues) && InputsOf(bc.gates, inp, CLIENT, clientValues)
    ensures server.w.gs == client.w.gs == bc.gates && server.w.inp == client.w.inp == inp
    ensures server.role == SERVER && client.role == CLIENT && Finished(server) && Finished(client) && Meant(bc.gates, inp)
  {
    BuilderMeant(bc, inp);
    ghost var w := WorldOf(bc.gates, inp, s, c);
    WorldIs(bc.gates, inp, s, c);
    server, client := PrepareBoth(bc, serverValues, clientValues, s, c, w);
    EvaluateCircuit(server, client);
  }

  /** The books of a builder are what the constructor of a party asks for. */
  lemma BuilderBooks(bc: BooleanCircuit)
    requires bc.Valid() && bc.ctx.BOOL? && BoolGates(bc.gates)
    ensures Runnable(bc.gates) && NusedOk(bc.gates, bc.nused) && AndsOk(bc.gates, bc.ands)
    ensures QueuesOk(BOOL, bc.gates, false, bc.localQueueOnLvl) && QueuesOk(BOOL, bc.gates, true, bc.interactiveQueueOnLvl)
    ensures bc.maxDepth == Max(|bc.localQueueOnLvl|, |bc.interactiveQueueOnLvl|)
  {
    bc.Sound();
    var books := Books(bc.nused, bc.localQueueOnLvl, bc.interactiveQueueOnLvl, bc.maxDepth, bc.ands);
    assert BookOk(UseCounts, bc.ctx, bc.gates, books) && BookOk(LocalQueues, bc.ctx, bc.gates, books);
    assert BookOk(InteractiveQueues, bc.ctx, bc.gates, books) && BookOk(Depth, bc.ctx, bc.gates, books);
    assert BookOk(AndCounts, bc.ctx, bc.gates, books);
  }

  lemma BuilderMeant(bc: BooleanCircuit, inp: (nat, nat) -> bool)
    requires bc.Valid()
    ensures Meant(bc.gates, inp)
  {
    bc.Sound();
    EvalMeant(bc.ctx, bc.gates, inp);
  }

  /** Both parties after the setup phase. */
  method PrepareBoth(bc: BooleanCircuit, serverValues: map<nat, seq<bool>>, clientValues: map<nat, seq<bool>>,
                     s: Randomness, c: Randomness, ghost w: World)
    returns (server: BoolSharing, client: BoolSharing)
    requires bc.Valid() && bc.ctx.BOOL? && BoolGates(bc.gates) && w.gs == bc.gates
    requires SharesOk(w) && DrawnBy(w, SERVER, s, c) && DrawnBy(w, CLIENT, c, s)
    requires InputsOf(bc.gates, w.inp, SERVER, serverValues) && InputsOf(bc.gates, w.inp, CLIENT, clientValues)
    ensures fresh(server) && fresh(client) && server.w == client.w == w && Peers(server, client) && server.LayerStart(0) && client.LayerStart(0)
  {
    server := Prepare(bc, SERVER, serverValues, s, c, w);
    client := Prepare(bc, CLIENT, clientValues, c, s, w);
  }

  lemma WorldIs(gs: seq<Gate>, inp: (nat, nat) -> bool, s: Randomness, c: Randomness)
    ensures var w := WorldOf(gs, inp, s, c); SharesOk(w) && DrawnBy(w, SERVER, s, c) && DrawnBy(w, CLIENT, c, s)
  {
    SharesExist(Unevaluated(gs, inp, s, c));
  }
}
