/** What the two parties of Yao's protocol hold and send, in terms of the keys of a run. */
module YaoMessage {
  import opened Bits
  import opened Circuit
  import opened Builder
  import opened Garbling
  import opened YaoOrder
  import opened YaoSpec

  // ----- values of a gate -----------------------------------------------------------------

  function KeysOf(w: Run, g: nat): (k: seq<Key>)
    requires g < |w.gs|
    ensures |k| == w.gs[g].nvals && forall t | 0 <= t < |k| :: k[t] == w.key(g, t)
  {
    seq(w.gs[g].nvals, t requires 0 <= t => w.key(g, t))
  }

  function PisOf(w: Run, g: nat): (p: seq<bool>)
    requires g < |w.gs|
    ensures |p| == w.gs[g].nvals && forall t | 0 <= t < |p| :: p[t] == w.pi(g, t)
  {
    seq(w.gs[g].nvals, t requires 0 <= t => w.pi(g, t))
  }

  function ActivesOf(w: Run, g: nat): (k: seq<Key>)
    requires g < |w.gs|
    ensures |k| == w.gs[g].nvals && forall t | 0 <= t < |k| :: k[t] == w.active(g, t)
  {
    seq(w.gs[g].nvals, t requires 0 <= t => w.active(g, t))
  }

  // ----- messages -------------------------------------------------------------------------

  function AndRows(w: Run): (nat, nat) -> HalfGates {
    (g: nat, t: nat) => w.andTable(g, t).rows
  }

  function UnivRows(w: Run): (nat, nat) -> Rows {
    (g: nat, t: nat) => w.univTable(g, t).rows
  }

  /** Keys of the server's inputs. */
  function SentKey(w: Run): (nat, nat) -> Key {
    (g: nat, t: nat) => w.active(g, t)
  }

  /** Where the random transfer of a client input bit is found. */
  function TransferAt(w: Run, g: nat, t: nat): nat {
    Place(w.gs, w.layers, ClientKeys, g) + t
  }

  /** Corrections of the client's random choices. */
  function Correction(w: Run): (nat, nat) -> bool {
    (g: nat, t: nat) => w.inp(g, t) != w.choice(TransferAt(w, g, t))
  }

  /** The two masked keys for a client input. */
  function Masked(w: Run, which: bool): (nat, nat) -> Key {
    (g: nat, t: nat) =>
      var j := TransferAt(w, g, t);
      MaskedKey(w.clientKey(j), w.R, if which then w.mask1(j) else w.mask0(j), w.inp(g, t) != w.choice(j), which)
  }

  /** The last bit of the key of an output, which only the evaluator knows. */
  function OutBit(w: Run): (nat, nat) -> bool {
    (g: nat, t: nat) => if g < |w.gs| && w.gs[g].op.Out? then Last(w.active(w.gs[g].op.parent, t)) else false
  }

  /** The permutation bit of an output, which only the garbler knows. */
  function OutPi(w: Run): (nat, nat) -> bool {
    (g: nat, t: nat) => if g < |w.gs| && w.gs[g].op.Out? then w.pi(w.gs[g].op.parent, t) else false
  }

  /** One element for everything that the interactive gates of a layer draw. */
  function LayerString<T>(w: Run, s: Supply, f: (nat, nat) -> T, d: nat): seq<T> {
    Strung(w.gs, s, f, InteractiveGates(w.gs, d), |InteractiveGates(w.gs, d)|)
  }

  /** The masked keys for the client's inputs are sent one round after the corrections. */
  function Delivered(w: Run, which: bool, d: nat): seq<Key> {
    if d == 0 then [] else LayerString(w, ClientKeys, Masked(w, which), d - 1)
  }

  datatype ServerMessage = ServerMessage(serverKeys: seq<Key>, clientKeys0: seq<Key>, clientKeys1: seq<Key>)

  datatype ClientMessage = ClientMessage(corrections: seq<bool>, outputs: seq<bool>)

  function FromServer(w: Run, d: nat): ServerMessage {
    ServerMessage(LayerString(w, ServerKeys, SentKey(w), d), Delivered(w, false, d), Delivered(w, true, d))
  }

  function FromClient(w: Run, d: nat): ClientMessage {
    ClientMessage(LayerString(w, ClientKeys, Correction(w), d), LayerString(w, ServerBits, OutBit(w), d))
  }

  /** The plain bit of an output, from both its bits. */
  function OutPlain(w: Run): (nat, nat) -> bool {
    (g: nat, t: nat) => OutPi(w)(g, t) != OutBit(w)(g, t)
  }

  lemma LastOf(key: Key, offset: bool, R: Key, kappa: nat)
    requires Plain(key, kappa) && Sized(R, kappa) && Last(R)
    ensures Last(XorIf(key, offset, R)) == offset
  {
  }

  /** Both bits of an output together are its plain value. */
  lemma OutputDecodes(w: Run, g: nat, t: nat)
    requires Correct(w) && g < |w.gs| && w.gs[g].op.Out? && t < w.gs[g].nvals
    ensures OutPlain(w)(g, t) == At(Eval(w.gs, w.inp)[g], t)
  {
    var p, vals := w.gs[g].op.parent, Eval(w.gs, w.inp);
    OperandActive(w, g, 0, t);
    ValuesUnique(w.gs, vals, w.inp);
    assert ValueOk(w.gs, vals, w.inp, g);
    assert OutBit(w)(g, t) == Last(w.active(p, t)) && OutPi(w)(g, t) == w.pi(p, t);
    LastOf(w.key(p, t), At(vals[p], t) != w.pi(p, t), w.R, w.kappa);
  }

  // ----- client inputs --------------------------------------------------------------------

  /** A client input and the place of its keys. */
  predicate ListedAt(w: Run, c: seq<nat>, base: nat, k: nat)
    requires Ids(w.gs, c) && k < |c|
  {
    && Draws(w.gs, ClientKeys, c[k]) && w.gs[c[k]].nvals > 0
    && Place(w.gs, w.layers, ClientKeys, c[k]) == base + Drawn(w.gs, ClientKeys, c, k)
  }

  ghost predicate Listed(w: Run, c: seq<nat>, base: nat) {
    Ids(w.gs, c) && forall k {:trigger ListedAt(w, c, base, k)} | 0 <= k < |c| :: ListedAt(w, c, base, k)
  }

  /** The client's inputs on a layer. */
  function ClientInputs(w: Run, d: nat): seq<nat> {
    Drawers(w.gs, ClientKeys, InteractiveGates(w.gs, d), |InteractiveGates(w.gs, d)|)
  }

  lemma ClientsListed(w: Run, d: nat)
    requires WellFormed(YAO, w.gs) && d < w.layers
    ensures Listed(w, ClientInputs(w, d), Drawn(w.gs, ClientKeys, Order(w.gs, d), |Order(w.gs, d)|))
  {
    var c, base := ClientInputs(w, d), Drawn(w.gs, ClientKeys, Order(w.gs, d), |Order(w.gs, d)|);
    forall k | 0 <= k < |c|
      ensures ListedAt(w, c, base, k)
    {
      DrawerPlace(w.gs, w.layers, ClientKeys, d, k);
      assert GateOk(YAO, w.gs, c[k]);
    }
  }

  // ----- layers within a run --------------------------------------------------------------

  /** Where the interactive gates of a layer begin in the order. */
  function InteractiveBase(w: Run, d: nat): nat {
    |Order(w.gs, d)| + |LocalGates(w.gs, d)|
  }

  /** Local gates draw nothing but tables. */
  lemma LocalDrawsNone(w: Run, s: Supply, d: nat)
    requires d < w.layers && !IsTables(s)
    ensures InteractiveBase(w, d) <= |Order(w.gs, w.layers)|
    ensures Drawn(w.gs, s, Order(w.gs, w.layers), InteractiveBase(w, d)) == Drawn(w.gs, s, Order(w.gs, w.layers), |Order(w.gs, d)|)
    ensures Drawers(w.gs, s, Order(w.gs, w.layers), InteractiveBase(w, d)) == Drawers(w.gs, s, Order(w.gs, w.layers), |Order(w.gs, d)|)
  {
    LayerSlices(w.gs, w.layers, d);
    SliceDrawsNone(w.gs, w.layers, s, LocalGates(w.gs, d), |Order(w.gs, d)|);
  }

  lemma LayerEnd(w: Run, d: nat)
    requires d < w.layers
    ensures InteractiveBase(w, d) + |InteractiveGates(w.gs, d)| == |Order(w.gs, d + 1)| <= |Order(w.gs, w.layers)|
  {
    LayerSlices(w.gs, w.layers, d);
  }

  lemma NothingDrawn(gs: seq<Gate>, s: Supply, c: seq<nat>)
    requires Ids(gs, c) && (forall k | 0 <= k < |c| :: Draws(gs, s, c[k]) && gs[c[k]].nvals > 0)
    ensures Drawn(gs, s, c, |c|) == 0 ==> c == []
  {
    if 0 < |c| {
      DrawnGrows(gs, s, c, 0, |c|);
    }
  }

  // ----- layers ---------------------------------------------------------------------------

  /** Gates with the queues that the builder made for them. */
  ghost predicate Queued(gs: seq<Gate>, localQueues: seq<seq<nat>>, interactiveQueues: seq<seq<nat>>, layers: nat) {
    && QueuesOk(YAO, gs, false, localQueues) && QueuesOk(YAO, gs, true, interactiveQueues)
    && layers == Max(|localQueues|, |interactiveQueues|)
  }

  /** The gates of a layer's queue; layers without a queue have none. */
  function QueueOnLvl(queues: seq<seq<nat>>, depth: nat): seq<nat> {
    if depth < |queues| then queues[depth] else []
  }

  lemma QueueIs(gs: seq<Gate>, interactive: bool, queues: seq<seq<nat>>, depth: nat)
    requires QueuesOk(YAO, gs, interactive, queues)
    ensures QueueOnLvl(queues, depth) == Queue(YAO, gs, interactive, depth, |gs|)
  {
    if depth >= |queues| {
      assert forall g | 0 <= g < |gs| && Interactive(YAO, gs[g].op) == interactive :: LayerExists(gs, queues, g);
      QueueEmpty(YAO, gs, interactive, depth, |gs|);
    }
  }

  /** Every gate is on one of the layers. */
  lemma LayersCover(gs: seq<Gate>, localQueues: seq<seq<nat>>, interactiveQueues: seq<seq<nat>>, layers: nat, g: nat)
    requires Queued(gs, localQueues, interactiveQueues, layers) && g < |gs|
    ensures gs[g].depth < layers && g in Order(gs, layers)
  {
    assert LayerExists(gs, if Interactive(YAO, gs[g].op) then interactiveQueues else localQueues, g);
    OrderMembers(gs, layers, g);
  }

  /** A party's own input bits. */
  ghost predicate OwnInputs(w: Run, r: Role, values: map<nat, seq<bool>>) {
    forall g: nat | g < |w.gs| && w.gs[g].op == In(r) ::
      g in values && |values[g]| == w.gs[g].nvals && forall t | 0 <= t < w.gs[g].nvals :: values[g][t] == w.inp(g, t)
  }

  /** The garbler's random values. */
  datatype Secrets = Secrets(kappa: nat, R: Key, serverKey: nat -> Key, clientKey: nat -> Key, perm: nat -> bool,
                             mask0: nat -> Key, mask1: nat -> Key)

  ghost predicate SecretsOf(w: Run, s: Secrets) {
    && w.kappa == s.kappa && w.R == s.R && w.serverKey == s.serverKey && w.clientKey == s.clientKey
    && w.perm == s.perm && w.mask0 == s.mask0 && w.mask1 == s.mask1
  }
}
