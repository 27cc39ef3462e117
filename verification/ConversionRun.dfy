/** Both parties of a run with conversions, layer by layer: the second round of one layer is the first round of the next. */
module ConversionRun {
  import opened Bits
  import opened Circuit
  import opened Words
  import opened ConversionSpec
  import opened ArithConversion

  /** The transfers of the setup phase, enough of them for cap cells. */
  ghost predicate Prepared(server: ConversionSharing, client: ConversionSharing, cap: nat) {
    && server != client && server.tables.ServerSide? && client.tables.ClientSide?
    && ServerReach(server.tables.server, cap) && cap <= |client.tables.client.choice| && cap <= |client.tables.client.mask|
    && Transferred(server.tables.server, client.tables.client, cap)
  }

  /** The server between two layers: the messages for the layer just left are ready to be sent. */
  ghost predicate ServerBetween(server: ConversionSharing, ct: ClientTables, last: seq<ConvGate>, total: nat)
    reads server
    requires server.tables.ServerSide?
  {
    var t, n := server.tables.server, |Cells(last)|;
    && server.convGates == [] && server.convShareRcvCtr == 0 && server.convShareSndCtr == n <= total == server.convShareIdx
    && ServerReach(t, total) && total <= |ct.choice| && (n > 0 ==> 2 * n <= |server.sndWords|)
    && Sent(t, Cells(last), PermBits(ct, Cells(last), total - n), total - n, server.sndWords, n)
    && AllSummed(last, server.aval, ServerWords(t, n, total - n), Pow2(t.l), |last|)
  }

  /** The client between two layers: the gates of the layer just left are put aside. */
  ghost predicate ClientBetween(client: ConversionSharing, last: seq<ConvGate>, total: nat)
    reads client
  {
    var n := |Cells(last)|;
    && client.convGates == [] && client.convShareSndCtr == 0 && client.convShareRcvCtr == n <= total == client.convShareIdx
    && (n > 0 ==> client.convGates2 == last && client.convShareIdx2 == total - n)
  }

  ghost predicate Between(server: ConversionSharing, client: ConversionSharing, last: seq<ConvGate>, total: nat, cap: nat)
    reads server, client
  {
    && Prepared(server, client, cap) && total <= cap && LayerOk(last)
    && ServerBetween(server, client.tables.client, last, total) && ClientBetween(client, last, total)
  }

  /** A layer that converts nothing has no gates. */
  lemma CellsOfGates(gates: seq<ConvGate>)
    requires LayerOk(gates)
    ensures |Cells(gates)| == 0 <==> gates == []
  {
    if gates != [] {
      AreaWithin(0, |gates[0].parents|, gates[0].nvals);
      BaseMonotone(gates, 1, |gates|);
      assert Base(gates, 1) == Base(gates, 0) + Area(|gates[0].parents|, gates[0].nvals);
    }
  }

  /** EvaluateInteractiveOperations of both parties. */
  method CollectAll(server: ConversionSharing, client: ConversionSharing, gates: seq<ConvGate>)
    requires server != client && server.tables.ServerSide? && client.tables.ClientSide?
    requires server.convGates == client.convGates == [] && server.convShareRcvCtr == client.convShareSndCtr == 0
    requires client.convShareIdx + |Cells(gates)| <= |client.tables.client.choice|
    modifies server`convGates, server`convShareRcvCtr, server`convShareSndCtr, server`sndBits
    modifies client`convGates, client`convShareRcvCtr, client`convShareSndCtr, client`sndBits
    ensures server.convGates == client.convGates == gates && client.BitsReady()
    ensures server.convShareRcvCtr == |Cells(gates)| && server.convShareSndCtr == old(server.convShareSndCtr)
    ensures client.convShareRcvCtr == old(client.convShareRcvCtr)
  {
    for i := 0 to |gates|
      invariant server.convGates == client.convGates == gates[..i] && client.BitsReady()
      invariant server.convShareRcvCtr == |Cells(gates[..i])| && server.convShareSndCtr == old(server.convShareSndCtr)
      invariant client.convShareRcvCtr == old(client.convShareRcvCtr)
    {
      assert gates[..i + 1] == gates[..i] + [gates[i]] && gates[..i + 1] + gates[i + 1..] == gates;
      LayerCellsPrefix(gates[..i + 1], gates[i + 1..], i + 1);
      BaseMonotone(gates, i + 1, |gates|);
      server.EvaluateCONVGate(gates[i]);
      client.EvaluateCONVGate(gates[i]);
    }
    assert gates[..|gates|] == gates;
  }

  lemma SentPrefix(t: ServerTables, cells: seq<Cell>, bits: seq<bool>, idx: nat, snd: seq<nat>, n: nat)
    requires Sent(t, cells, bits, idx, snd, n) && 2 * n <= |snd|
    ensures Sent(t, cells, bits, idx, snd[..2 * n], n)
  {
    forall x: nat | x < n
      ensures PairAt(t, cells, bits, idx, snd[..2 * n], x)
    {
      assert PairAt(t, cells, bits, idx, snd, x);
    }
  }

  /**
    One round of messages in both directions. Each party waits for exactly what the other one sends: the client for the
    messages of the layer before, the server for the bits of this layer.
   */
  method Exchange(server: ConversionSharing, client: ConversionSharing, ghost last: seq<ConvGate>, ghost gates: seq<ConvGate>)
    returns (sentToClient: Shape, sentToServer: Shape, atClient: Shape, atServer: Shape)
    requires server != client && server.tables.ServerSide? && client.tables.ClientSide?
    requires server.convShareSndCtr == client.convShareRcvCtr == |Cells(last)| && 2 * |Cells(last)| <= |server.sndWords|
    requires client.BitsReady() && client.convGates == gates && server.convShareRcvCtr == |Cells(gates)|
    modifies server`rcvBits, server`rcvWords, client`rcvBits, client`rcvWords
    ensures sentToClient == atClient == if |Cells(last)| == 0 then Silent else WordCount(2 * |Cells(last)|)
    ensures sentToServer == atServer == if |Cells(gates)| == 0 then Silent else BitCount(|Cells(gates)|)
    ensures |Cells(gates)| > 0 ==> server.rcvBits == PermBits(client.tables.client, Cells(gates), client.convShareIdx)
    ensures |Cells(last)| > 0 ==> client.rcvWords == server.sndWords[..2 * |Cells(last)|]
  {
    var fromServer := server.GetDataToSend();
    var fromClient := client.GetDataToSend();
    atServer := server.GetBuffersToReceive();
    atClient := client.GetBuffersToReceive();
    sentToClient, sentToServer := ShapeOf(fromServer), ShapeOf(fromClient);
    server.Receive(fromClient);
    client.Receive(fromServer);
  }

  /** Both parties have collected the gates of a layer and received what was sent in it. */
  ghost predicate Opened(server: ConversionSharing, client: ConversionSharing, last: seq<ConvGate>, gates: seq<ConvGate>, total: nat, words: seq<nat>)
    reads server, client
  {
    && server.convGates == client.convGates == gates && server.convShareRcvCtr == client.convShareSndCtr == |Cells(gates)|
    && server.convShareIdx == client.convShareIdx == total && client.convShareRcvCtr == |Cells(last)| <= total
    && |words| == 2 * |Cells(last)| && client.tables.ClientSide? && total + |Cells(gates)| <= |client.tables.client.choice|
    && (|Cells(gates)| > 0 ==> server.rcvBits == PermBits(client.tables.client, Cells(gates), total))
    && (|Cells(last)| > 0 ==>
          && client.rcvWords == words && client.convGates2 == last && client.convShareIdx2 == total - |Cells(last)|)
  }

  /** The first half of a layer. */
  method OpenLayer(server: ConversionSharing, client: ConversionSharing, ghost last: seq<ConvGate>, gates: seq<ConvGate>, ghost total: nat,
                   ghost cap: nat) returns (ghost words: seq<nat>)
    requires Between(server, client, last, total, cap) && total + |Cells(gates)| <= cap
    modifies server`convGates, server`convShareRcvCtr, server`convShareSndCtr, server`sndBits, server`rcvBits, server`rcvWords
    modifies client`convGates, client`convShareRcvCtr, client`convShareSndCtr, client`sndBits, client`rcvBits, client`rcvWords
    ensures Opened(server, client, last, gates, total, words)
    ensures var idx := total - |Cells(last)|;
            Sent(server.tables.server, Cells(last), PermBits(client.tables.client, Cells(last), idx), idx, words, |Cells(last)|)
  {
    words := Answer(server, client.tables.client, last, total);
    CollectAll(server, client, gates);
    var sentToClient, sentToServer, atClient, atServer := Exchange(server, client, last, gates);
  }

  /** AssignConversionShares of both parties. */
  method AssignBoth(server: ConversionSharing, client: ConversionSharing, ghost last: seq<ConvGate>, ghost gates: seq<ConvGate>, ghost total: nat,
                    ghost cap: nat, ghost words: seq<nat>)
    requires Prepared(server, client, cap) && total + |Cells(gates)| <= cap && LayerOk(last) && LayerOk(gates)
    requires Opened(server, client, last, gates, total, words)
    requires Ids(gates) !! server.aval.Keys && Ids(last) !! client.aval.Keys
    modifies server`convShareSndCtr, server`convShareRcvCtr, server`convShareIdx, server`convGates, server`sndWords, server`aval
    modifies client`convShareSndCtr, client`convShareRcvCtr, client`convShareIdx, client`convShareIdx2, client`convGates, client`convGates2, client`aval
    ensures Between(server, client, gates, total + |Cells(gates)|, cap)
    ensures Kept(old(server.aval), server.aval) && server.aval.Keys == old(server.aval.Keys) + Ids(gates)
    ensures Kept(old(client.aval), client.aval) && client.aval.Keys == old(client.aval.Keys) + Ids(last)
    ensures AllSummed(last, client.aval, ClientWords(client.tables.client, Cells(last), words, total - |Cells(last)|),
                      Pow2(client.tables.client.l), |last|)
  {
    CellsOfGates(gates);
    CellsOfGates(last);
    server.AssignServer();
    client.AssignClient();
  }

  /** A layer of a run. It completes the conversions of the layer before. */
  method RunLayer(server: ConversionSharing, client: ConversionSharing, ghost last: seq<ConvGate>, gates: seq<ConvGate>, ghost total: nat,
                  ghost cap: nat)
    requires Between(server, client, last, total, cap) && LayerOk(gates) && total + |Cells(gates)| <= cap
    requires Ids(gates) !! server.aval.Keys && Ids(last) !! client.aval.Keys
    modifies server, client
    ensures Between(server, client, gates, total + |Cells(gates)|, cap)
    ensures Kept(old(server.aval), server.aval) && server.aval.Keys == old(server.aval.Keys) + Ids(gates)
    ensures Kept(old(client.aval), client.aval) && client.aval.Keys == old(client.aval.Keys) + Ids(last)
    ensures forall i: nat | i < |last| ::
              Converted(server.tables.server, client.tables.client, last[i], server.aval, client.aval)
  {
    ghost var sv, idx := server.aval, total - |Cells(last)|;
    ghost var words := OpenLayer(server, client, last, gates, total, cap);
    AssignBoth(server, client, last, gates, total, cap, words);
    LayerDone(server.tables.server, client.tables.client, last, idx, words, sv, server.aval, client.aval, cap);
  }

  /** The part of the server's buffer that belongs to the layer before. */
  lemma Answer(server: ConversionSharing, ct: ClientTables, last: seq<ConvGate>, total: nat) returns (words: seq<nat>)
    requires server.tables.ServerSide? && ServerBetween(server, ct, last, total) && LayerOk(last)
    ensures 2 * |Cells(last)| <= |server.sndWords| && words == server.sndWords[..2 * |Cells(last)|] && |Cells(last)| <= total <= |ct.choice|
    ensures var idx := total - |Cells(last)|; Sent(server.tables.server, Cells(last), PermBits(ct, Cells(last), idx), idx, words, |Cells(last)|)
  {
    var idx := total - |Cells(last)|;
    words := server.sndWords[..2 * |Cells(last)|];
    SentPrefix(server.tables.server, Cells(last), PermBits(ct, Cells(last), idx), idx, server.sndWords, |Cells(last)|);
  }

  lemma LayerDone(s: ServerTables, c: ClientTables, last: seq<ConvGate>, idx: nat, words: seq<nat>,
                  before: map<nat, seq<nat>>, sv: map<nat, seq<nat>>, cv: map<nat, seq<nat>>, cap: nat)
    requires Transferred(s, c, cap) && ServerReach(s, cap) && cap <= |c.choice| && cap <= |c.mask| && idx + |Cells(last)| <= cap
    requires |words| == 2 * |Cells(last)|
    requires Sent(s, Cells(last), PermBits(c, Cells(last), idx), idx, words, |Cells(last)|)
    requires AllSummed(last, before, ServerWords(s, |Cells(last)|, idx), Pow2(s.l), |last|) && Kept(before, sv)
    requires AllSummed(last, cv, ClientWords(c, Cells(last), words, idx), Pow2(c.l), |last|)
    ensures forall i: nat | i < |last| :: Converted(s, c, last[i], sv, cv)
  {
    forall i: nat | i < |last|
      ensures Converted(s, c, last[i], sv, cv)
    {
      assert Summed(last, before, ServerWords(s, |Cells(last)|, idx), Pow2(s.l), i);
      assert Summed(last, cv, ClientWords(c, Cells(last), words, idx), Pow2(s.l), i);
      LayerConverted(s, c, last, idx, words, sv, cv, i);
    }
  }

  // ----- whole runs -----------------------------------------------------------------------

  /** The cells of the first d layers. */
  function Total(layers: seq<seq<ConvGate>>, d: nat): nat
    requires d <= |layers|
  {
    if d == 0 then 0 else Total(layers, d - 1) + |Cells(layers[d - 1])|
  }

  lemma {:induction false} TotalMonotone(layers: seq<seq<ConvGate>>, d: nat, n: nat)
    requires d <= n <= |layers|
    ensures Total(layers, d) <= Total(layers, n)
  {
    if d < n {
      TotalMonotone(layers, d, n - 1);
    }
  }

  /** The conversions of a circuit, layer by layer: no gate is in two layers. */
  ghost predicate Schedule(layers: seq<seq<ConvGate>>) {
    && (forall d: nat | d < |layers| :: LayerOk(layers[d]))
    && (forall d: nat, e: nat | d < e < |layers| :: Ids(layers[d]) !! Ids(layers[e]))
  }

  /** No gate of the layers from d on has a value yet. */
  ghost predicate Unset(layers: seq<seq<ConvGate>>, d: nat, aval: map<nat, seq<nat>>) {
    forall e: nat | d <= e < |layers| :: Ids(layers[e]) !! aval.Keys
  }

  function LayerBefore(layers: seq<seq<ConvGate>>, d: nat): seq<ConvGate>
    requires d <= |layers|
  {
    if d == 0 then [] else layers[d - 1]
  }

  ghost predicate LayerIsConverted(s: ServerTables, c: ClientTables, gates: seq<ConvGate>, sv: map<nat, seq<nat>>, cv: map<nat, seq<nat>>) {
    forall i: nat | i < |gates| :: Converted(s, c, gates[i], sv, cv)
  }

  /** The layers that another one has followed, when d layers have been run. */
  ghost predicate AllConverted(s: ServerTables, c: ClientTables, layers: seq<seq<ConvGate>>, d: nat, sv: map<nat, seq<nat>>, cv: map<nat, seq<nat>>)
    requires d <= |layers|
  {
    forall e: nat {:trigger layers[e]} | e + 1 < d :: LayerIsConverted(s, c, layers[e], sv, cv)
  }

  lemma ConvertedNext(s: ServerTables, c: ClientTables, layers: seq<seq<ConvGate>>, d: nat, sv: map<nat, seq<nat>>, cv: map<nat, seq<nat>>,
                      sNew: map<nat, seq<nat>>, cNew: map<nat, seq<nat>>)
    requires d < |layers| && AllConverted(s, c, layers, d, sv, cv) && Kept(sv, sNew) && Kept(cv, cNew)
    requires LayerIsConverted(s, c, LayerBefore(layers, d), sNew, cNew)
    ensures AllConverted(s, c, layers, d + 1, sNew, cNew)
  {
    forall e: nat | e + 1 < d + 1
      ensures LayerIsConverted(s, c, layers[e], sNew, cNew)
    {
      assert e + 1 < d ==> LayerIsConverted(s, c, layers[e], sv, cv);
    }
  }

  lemma UnsetNext(layers: seq<seq<ConvGate>>, d: nat, aval: map<nat, seq<nat>>, r: map<nat, seq<nat>>)
    requires Schedule(layers) && d < |layers| && Unset(layers, d, aval) && r.Keys == aval.Keys + Ids(layers[d])
    ensures Unset(layers, d + 1, r)
  {
    forall e: nat | d + 1 <= e < |layers|
      ensures Ids(layers[e]) !! r.Keys
    {
      assert Ids(layers[d]) !! Ids(layers[e]);
    }
  }

  /** What the values of both parties are like after d layers. */
  ghost predicate Progress(s: ServerTables, c: ClientTables, layers: seq<seq<ConvGate>>, d: nat, sv: map<nat, seq<nat>>, cv: map<nat, seq<nat>>)
    requires d <= |layers|
  {
    && Unset(layers, d, sv) && Unset(layers, if d == 0 then 0 else d - 1, cv)
    && AllConverted(s, c, layers, d, sv, cv)
  }

  lemma ProgressNext(s: ServerTables, c: ClientTables, layers: seq<seq<ConvGate>>, d: nat, sv: map<nat, seq<nat>>, cv: map<nat, seq<nat>>,
                     sNew: map<nat, seq<nat>>, cNew: map<nat, seq<nat>>)
    requires Schedule(layers) && d < |layers| && Progress(s, c, layers, d, sv, cv) && Kept(sv, sNew) && Kept(cv, cNew)
    requires sNew.Keys == sv.Keys + Ids(layers[d]) && cNew.Keys == cv.Keys + Ids(LayerBefore(layers, d))
    requires LayerIsConverted(s, c, LayerBefore(layers, d), sNew, cNew)
    ensures Progress(s, c, layers, d + 1, sNew, cNew)
  {
    UnsetNext(layers, d, sv, sNew);
    if d > 0 {
      UnsetNext(layers, d - 1, cv, cNew);
    }
    ConvertedNext(s, c, layers, d, sv, cv, sNew, cNew);
  }

  /** The state of a run after d layers. */
  ghost predicate AfterLayers(server: ConversionSharing, client: ConversionSharing, layers: seq<seq<ConvGate>>, d: nat, cap: nat)
    reads server, client
    requires d <= |layers|
  {
    && Between(server, client, LayerBefore(layers, d), Total(layers, d), cap)
    && Progress(server.tables.server, client.tables.client, layers, d, server.aval, client.aval)
  }

  lemma LayerFits(s: ServerTables, c: ClientTables, layers: seq<seq<ConvGate>>, d: nat, sv: map<nat, seq<nat>>, cv: map<nat, seq<nat>>, cap: nat)
    requires d < |layers| && Schedule(layers) && Total(layers, |layers|) <= cap && Progress(s, c, layers, d, sv, cv)
    ensures LayerOk(layers[d]) && Total(layers, d) + |Cells(layers[d])| == Total(layers, d + 1) <= cap
    ensures Ids(layers[d]) !! sv.Keys && Ids(LayerBefore(layers, d)) !! cv.Keys
  {
    TotalMonotone(layers, d + 1, |layers|);
  }

  method RunNext(server: ConversionSharing, client: ConversionSharing, layers: seq<seq<ConvGate>>, d: nat, ghost cap: nat)
    requires d < |layers| && AfterLayers(server, client, layers, d, cap) && Schedule(layers) && Total(layers, |layers|) <= cap
    modifies server, client
    ensures AfterLayers(server, client, layers, d + 1, cap)
    ensures Kept(old(server.aval), server.aval) && Kept(old(client.aval), client.aval)
  {
    ghost var sv, cv, st, ct, last := server.aval, client.aval, server.tables.server, client.tables.client, LayerBefore(layers, d);
    LayerFits(st, ct, layers, d, sv, cv, cap);
    RunLayer(server, client, last, layers[d], Total(layers, d), cap);
    assert LayerIsConverted(st, ct, last, server.aval, client.aval);
    ProgressNext(st, ct, layers, d, sv, cv, server.aval, client.aval);
  }

  /** Two parties after the setup phase. */
  method Start(st: ServerTables, ct: ClientTables, sv: map<nat, seq<nat>>, cv: map<nat, seq<nat>>, ghost cap: nat)
    returns (server: ConversionSharing, client: ConversionSharing)
    requires ServerReach(st, cap) && cap <= |ct.choice| && cap <= |ct.mask| && Transferred(st, ct, cap)
    ensures fresh(server) && fresh(client) && server.tables == ServerSide(st) && client.tables == ClientSide(ct)
    ensures Between(server, client, [], 0, cap) && server.aval == sv && client.aval == cv
  {
    server := new ConversionSharing(ServerSide(st), sv);
    client := new ConversionSharing(ClientSide(ct), cv);
  }

  /**
    A run over any sequence of layers, with conversions in as many adjacent ones as there are: once a layer has been
    followed by another one, both parties hold shares of all its numbers.
   */
  method RunConversions(server: ConversionSharing, client: ConversionSharing, layers: seq<seq<ConvGate>>, ghost cap: nat)
    requires Between(server, client, [], 0, cap) && Schedule(layers) && Total(layers, |layers|) <= cap
    requires Unset(layers, 0, server.aval) && Unset(layers, 0, client.aval)
    modifies server, client
    ensures Between(server, client, LayerBefore(layers, |layers|), Total(layers, |layers|), cap)
    ensures Kept(old(server.aval), server.aval) && Kept(old(client.aval), client.aval)
    ensures AllConverted(server.tables.server, client.tables.client, layers, |layers|, server.aval, client.aval)
  {
    for d := 0 to |layers|
      invariant AfterLayers(server, client, layers, d, cap)
      invariant Kept(old(server.aval), server.aval) && Kept(old(client.aval), client.aval)
    {
      RunNext(server, client, layers, d, cap);
    }
  }
}
