/** The setup phase of SP-LUT sharing, and whole executions. */
module LutSetup {
  import opened Bits
  import opened LutCircuit
  import opened LutMeaning
  import opened LutSpec
  import opened LutTables
  import opened LutLayer
  import opened LutParty
  import opened LutRun
  import opened LutSizes
  import C = Circuit

  /** What a party draws: input masks, the words it offers, its choices, and the bits that mask its results. */
  datatype Randomness = Randomness(mask: nat -> bool, word: (Class, nat, nat, nat) -> bool, choice: (Class, nat) -> nat, rnd: (Class, nat) -> bool)

  ghost predicate InRange(own: Randomness) {
    forall c: Class, v: nat {:trigger own.choice(c, v)} :: own.choice(c, v) < Pow2(c.ins)
  }

  function Of(r: Role, s: Randomness, c: Randomness): Randomness {
    if r.SERVER? then s else c
  }

  /** A run before its shares are computed. */
  function Unevaluated(gs: seq<Gate>, layers: nat, inp: (nat, nat) -> bool, s: Randomness, c: Randomness): World {
    World(gs, layers, inp, (r: Role, x: nat) => Of(r, s, c).mask(x),
          (r: Role, k: Class, v: nat, j: nat, o: nat) => Of(r, s, c).word(k, v, j, o),
          (r: Role, k: Class, v: nat) => Of(r.Other(), s, c).choice(k, v),
          (r: Role, k: Class, x: nat) => Of(r, s, c).rnd(k, x), (r: Role, g: nat, t: nat) => false)
  }

  /** The run of a circuit on given inputs and randomness. */
  function WorldOf(gs: seq<Gate>, layers: nat, inp: (nat, nat) -> bool, s: Randomness, c: Randomness): (w: World)
    ensures w == Unevaluated(gs, layers, inp, s, c).(share := w.share)
  {
    Evaluate(Unevaluated(gs, layers, inp, s, c), |gs|)
  }

  /** Own and peer are what the parties have drawn in run w. */
  ghost predicate DrawnBy(w: World, r: Role, own: Randomness, peer: Randomness) {
    && (forall x {:trigger own.mask(x)} :: own.mask(x) == w.mask(r, x))
    && (forall c: Class, v: nat, j: nat, o: nat {:trigger own.word(c, v, j, o)} :: own.word(c, v, j, o) == w.word(r, c, v, j, o))
    && (forall c: Class, v: nat, j: nat, o: nat {:trigger peer.word(c, v, j, o)} :: peer.word(c, v, j, o) == w.word(r.Other(), c, v, j, o))
    && (forall c: Class, v: nat {:trigger own.choice(c, v)} :: own.choice(c, v) == w.choice(r.Other(), c, v))
    && (forall c: Class, x: nat {:trigger own.rnd(c, x)} :: own.rnd(c, x) == w.rnd(r, c, x))
  }

  lemma DrawnIs(w: World, gs: seq<Gate>, layers: nat, inp: (nat, nat) -> bool, s: Randomness, c: Randomness, r: Role)
    requires w == Unevaluated(gs, layers, inp, s, c).(share := w.share)
    ensures DrawnBy(w, r, Of(r, s, c), Of(r.Other(), s, c))
  {
    var own, peer := Of(r, s, c), Of(r.Other(), s, c);
    assert r.Other().Other() == r;
    forall x
      ensures own.mask(x) == w.mask(r, x)
    {
    }
    forall k: Class, v: nat, j: nat, o: nat
      ensures own.word(k, v, j, o) == w.word(r, k, v, j, o) && peer.word(k, v, j, o) == w.word(r.Other(), k, v, j, o)
    {
    }
    forall k: Class, v: nat
      ensures own.choice(k, v) == w.choice(r.Other(), k, v) && own.rnd(k, v) == w.rnd(r, k, v)
    {
    }
  }

  lemma WorldIs(gs: seq<Gate>, layers: nat, inp: (nat, nat) -> bool, s: Randomness, c: Randomness)
    requires WellFormed(gs) && InRange(s) && InRange(c) && forall g {:trigger gs[g]} | 0 <= g < |gs| :: gs[g].depth < layers
    ensures var w := WorldOf(gs, layers, inp, s, c); Correct(w) && DrawnBy(w, C.SERVER, s, c) && DrawnBy(w, C.CLIENT, c, s)
  {
    SharesExist(Unevaluated(gs, layers, inp, s, c));
    var w := WorldOf(gs, layers, inp, s, c);
    DrawnIs(w, gs, layers, inp, s, c, C.SERVER);
    DrawnIs(w, gs, layers, inp, s, c, C.CLIENT);
    forall r, k, v
      ensures ChoiceOk(w, r, k, v)
    {
      assert w.choice(r, k, v) == Of(r.Other(), s, c).choice(k, v);
    }
  }

  // ----- transfers ------------------------------------------------------------------------

  /** The transfers of a class: the party's own words, and of the other party's words the chosen ones. */
  method PrepareLane(c: Class, snd: nat, rcv: nat, own: Randomness, peer: Randomness, ghost w: World, ghost r: Role) returns (lane: Lane)
    requires Correct(w) && DrawnBy(w, r, own, peer) && InRange(own)
    requires snd == Used(w.gs, Transfers(c), r, w.layers) && rcv == Used(w.gs, Transfers(c), r.Other(), w.layers)
    ensures Unused(w, r, c, lane)
  {
    MasksPerTransfer(w.gs, c, r, w.layers);
    var otX := seq(snd, v requires 0 <= v => OwnWords(c, own, v));
    var otC := seq(rcv, v requires 0 <= v => own.choice(c, v));
    var otR := seq(rcv, v requires 0 <= v => WordOf(c, peer, v, own.choice(c, v)));
    var tableRnd := seq(snd * c.outs, x requires 0 <= x => own.rnd(c, x));
    lane := Lane(otX, 0, tableRnd, 0, otC, otR, 0, [], [], 0, [], [], 0);
    assert OffersOk(w, r, c, lane) by {
      forall v | 0 <= v < |otX|
        ensures otX[v] == Offered(w, r, c, v)
      {
        assert forall j: nat | j < Pow2(c.ins) :: WordOf(c, own, v, j) == OfferedWord(w, r, c, v, j);
      }
    }
  }

  function WordOf(c: Class, from: Randomness, v: nat, j: nat): Word {
    seq(c.outs, o requires 0 <= o => from.word(c, v, j, o))
  }

  function OwnWords(c: Class, own: Randomness, v: nat): Entries {
    seq(Pow2(c.ins), j requires 0 <= j => WordOf(c, own, v, j))
  }

  // ----- the classes of a circuit ---------------------------------------------------------

  /** The first classes, with the numbers of transfers in which either party sends. */
  ghost predicate ClassesFrom(gs: seq<Gate>, row: SizeRow, classes: seq<Class>, server: map<Class, nat>, client: map<Class, nat>,
                              layers: nat, k: nat)
  {
    && (forall i, j | 0 <= i < j < |classes| :: classes[i] != classes[j])
    && (forall c {:trigger c in classes} | c in classes :: c.ins < k && ClassCounted(gs, server, client, c, layers))
    && (forall i, j, c: Class {:trigger ClassHas(row[i][j], c)} |
          0 <= i < |row| && 0 <= j < |row[i]| && c.ins < k && ClassHas(row[i][j], c) :: c in classes)
  }

  ghost predicate ClassCounted(gs: seq<Gate>, server: map<Class, nat>, client: map<Class, nat>, c: Class, layers: nat) {
    && c in server && server[c] == Used(gs, Transfers(c), C.SERVER, layers)
    && c in client && client[c] == Used(gs, Transfers(c), C.CLIENT, layers)
  }

  /** The entries of a group become classes with k inputs. */
  method AddGroup(group: seq<TtLen>, serverSums: seq<nat>, clientSums: seq<nat>, k: nat,
                  classes: seq<Class>, server: map<Class, nat>, client: map<Class, nat>, ghost gs: seq<Gate>, ghost layers: nat)
    returns (more: seq<Class>, s: map<Class, nat>, c: map<Class, nat>)
    requires |serverSums| == |clientSums| == |group| && forall j, l | 0 <= j < l < |group| :: group[j].outBits != group[l].outBits
    requires forall j | 0 <= j < |group| :: serverSums[j] == Used(gs, Transfers(Class(k, group[j].outBits)), C.SERVER, layers)
    requires forall j | 0 <= j < |group| :: clientSums[j] == Used(gs, Transfers(Class(k, group[j].outBits)), C.CLIENT, layers)
    requires forall i, j | 0 <= i < j < |classes| :: classes[i] != classes[j]
    requires forall x {:trigger x in classes} | x in classes :: x.ins < k && ClassCounted(gs, server, client, x, layers)
    ensures forall i, j | 0 <= i < j < |more| :: more[i] != more[j]
    ensures forall x {:trigger x in more} | x in more :: x.ins <= k && ClassCounted(gs, s, c, x, layers)
    ensures (forall x | x in classes :: x in more) && forall j | 0 <= j < |group| :: Class(k, group[j].outBits) in more
  {
    more, s, c := classes, server, client;
    for j := 0 to |group|
      invariant |more| == |classes| + j && more[..|classes|] == classes
      invariant forall l | 0 <= l < j :: more[|classes| + l] == Class(k, group[l].outBits)
      invariant forall x {:trigger x in more} | x in more :: x.ins <= k && ClassCounted(gs, s, c, x, layers)
    {
      var x := Class(k, group[j].outBits);
      more, s, c := more + [x], s[x := serverSums[j]], c[x := clientSums[j]];
    }
    forall i, j | 0 <= i < j < |more|
      ensures more[i] != more[j]
    {
      if j >= |classes| {
        assert more[|classes| + (j - |classes|)] == Class(k, group[j - |classes|].outBits);
      }
      if i < |classes| {
        assert more[i] == more[..|classes|][i] == classes[i] && classes[i] in classes;
      } else {
        assert more[|classes| + (i - |classes|)] == Class(k, group[i - |classes|].outBits);
      }
      if j < |classes| {
        assert more[j] == more[..|classes|][j] == classes[j];
      }
    }
  }

  /** The classes, by their numbers of inputs, which are at most eight. */
  method ClassesOf(rows: seq<SizeRow>, ghost gs: seq<Gate>, ghost layers: nat)
    returns (classes: seq<Class>, server: map<Class, nat>, client: map<Class, nat>)
    requires Exact(gs, rows, |gs|) && forall g | 0 <= g < |gs| :: gs[g].depth < layers
    ensures ClassesFrom(gs, rows[0], classes, server, client, layers, 9)
  {
    var row := rows[0];
    var serverSums, clientSums := CountTransfers(rows, gs);
    classes, server, client := [], map[], map[];
    for k := 0 to 9
      invariant ClassesFrom(gs, row, classes, server, client, layers, k)
    {
      classes, server, client := NextGroup(rows, serverSums, clientSums, k, classes, server, client, gs, layers);
    }
  }

  method NextGroup(rows: seq<SizeRow>, serverSums: seq<seq<nat>>, clientSums: seq<seq<nat>>, k: nat,
                   classes: seq<Class>, server: map<Class, nat>, client: map<Class, nat>, ghost gs: seq<Gate>, ghost layers: nat)
    returns (more: seq<Class>, s: map<Class, nat>, c: map<Class, nat>)
    requires Exact(gs, rows, |gs|) && forall g | 0 <= g < |gs| :: gs[g].depth < layers
    requires SummedAt(gs, rows[0], serverSums, 0, |rows|) && SummedAt(gs, rows[0], clientSums, 1, |rows|)
    requires ClassesFrom(gs, rows[0], classes, server, client, layers, k)
    ensures ClassesFrom(gs, rows[0], more, s, c, layers, k + 1)
  {
    var row := rows[0];
    var id := FindLen(row, Pow2(k));
    if id < |row| {
      forall j | 0 <= j < |row[id]|
        ensures serverSums[id][j] == Used(gs, Transfers(Class(k, row[id][j].outBits)), C.SERVER, layers)
        ensures clientSums[id][j] == Used(gs, Transfers(Class(k, row[id][j].outBits)), C.CLIENT, layers)
      {
        var x := Class(k, row[id][j].outBits);
        assert row[id][j].ttLen == row[id][0].ttLen && ClassHas(row[id][j], x);
        CountedEnough(gs, rows, x, C.SERVER, layers);
        CountedEnough(gs, rows, x, C.CLIENT, layers);
      }
      more, s, c := AddGroup(row[id], serverSums[id], clientSums[id], k, classes, server, client, gs, layers);
    } else {
      more, s, c := classes, server, client;
    }
    GroupCovers(gs, row, classes, more, server, client, s, c, layers, k, id);
  }

  lemma GroupCovers(gs: seq<Gate>, row: SizeRow, classes: seq<Class>, more: seq<Class>, server: map<Class, nat>, client: map<Class, nat>,
                    s: map<Class, nat>, c: map<Class, nat>, layers: nat, k: nat, id: nat)
    requires KeysOk(row) && ClassesFrom(gs, row, classes, server, client, layers, k) && id <= |row|
    requires (id < |row| ==> row[id][0].ttLen == Pow2(k)) && (id == |row| ==> forall i | 0 <= i < |row| :: row[i][0].ttLen != Pow2(k))
    requires forall i, j | 0 <= i < j < |more| :: more[i] != more[j]
    requires forall x {:trigger x in more} | x in more :: x.ins <= k && ClassCounted(gs, s, c, x, layers)
    requires (forall x | x in classes :: x in more) && (id < |row| ==> forall j | 0 <= j < |row[id]| :: Class(k, row[id][j].outBits) in more)
    ensures ClassesFrom(gs, row, more, s, c, layers, k + 1)
  {
    forall i, j, x: Class | 0 <= i < |row| && 0 <= j < |row[i]| && x.ins < k + 1 && ClassHas(row[i][j], x)
      ensures x in more
    {
      assert row[i][j].ttLen == row[i][0].ttLen;
      if x.ins == k {
        assert i == id && x == Class(k, row[id][j].outBits);
      }
    }
  }

  // ----- whole executions -----------------------------------------------------------------

  /** What the builder hands over: a circuit with its queues, its depth and the sizes of its tables. */
  datatype Built = Built(gates: seq<Gate>, localQueueOnLvl: seq<seq<nat>>, interactiveQueueOnLvl: seq<seq<nat>>, maxDepth: nat, rows: seq<SizeRow>)

  ghost predicate BuiltOk(b: Built) {
    && WellFormed(b.gates) && Exact(b.gates, b.rows, |b.gates|)
    && (forall g {:trigger b.gates[g]} | 0 <= g < |b.gates| :: b.gates[g].depth < b.maxDepth)
    && (forall d: nat {:trigger OnLvl(b.localQueueOnLvl, d)} :: OnLvl(b.localQueueOnLvl, d) == LocalQueue(b.gates, d))
    && (forall d: nat {:trigger OnLvl(b.interactiveQueueOnLvl, d)} :: OnLvl(b.interactiveQueueOnLvl, d) == Layer(b.gates, d))
  }

  ghost predicate InputsOf(gs: seq<Gate>, inp: (nat, nat) -> bool, r: Role, values: map<nat, seq<bool>>) {
    forall g {:trigger gs[g]} | 0 <= g < |gs| && gs[g].op == In(r) :: Given(gs, inp, values, g)
  }

  lemma ClassesCover(b: Built, classes: seq<Class>, server: map<Class, nat>, client: map<Class, nat>)
    requires BuiltOk(b) && ClassesFrom(b.gates, b.rows[0], classes, server, client, b.maxDepth, 9)
    ensures ClassesOk(b.gates, classes)
  {
    forall i | 0 <= i < |classes|
      ensures classes[i].ins <= 8
    {
      assert classes[i] in classes;
    }
    forall g | 0 <= g < |b.gates| && b.gates[g].op.Table?
      ensures ClassOf(b.gates, g) in classes
    {
      assert GateOk(b.gates, g) && GateListed(b.gates, b.rows, g);
      var c, row: SizeRow := ClassOf(b.gates, g), b.rows[0];
      var i, j :| 0 <= i < |row| && 0 <= j < |row[i]| && row[i][j].ttLen == Pow2(c.ins) && row[i][j].outBits == c.outs;
      assert ClassHas(row[i][j], c);
    }
  }

  /** A party after its setup phase. */
  method Prepare(b: Built, r: Role, classes: seq<Class>, snd: map<Class, nat>, rcv: map<Class, nat>, values: map<nat, seq<bool>>,
                 own: Randomness, peer: Randomness, ghost w: World)
    returns (party: SetupLUT)
    requires BuiltOk(b) && Correct(w) && w.gs == b.gates && w.layers == b.maxDepth && ClassesOk(b.gates, classes)
    requires DrawnBy(w, r, own, peer) && InRange(own) && InputsOf(w.gs, w.inp, r, values)
    requires forall c {:trigger c in classes} | c in classes :: CountsFor(w, r, snd, rcv, c)
    ensures fresh(party) && party.Setup() && party.LayerStart(0) && party.role == r && party.w == w && party.classes == classes
  {
    var lanes: map<Class, Lane> := map[];
    for k := 0 to |classes|
      invariant forall j {:trigger classes[j]} | 0 <= j < k :: classes[j] in lanes && Unused(w, r, classes[j], lanes[classes[j]])
    {
      var c := classes[k];
      assert c in classes;
      var lane := PrepareLane(c, snd[c], rcv[c], own, peer, w, r);
      lanes := lanes[c := lane];
    }
    party := new SetupLUT(r, b.gates, b.localQueueOnLvl, b.interactiveQueueOnLvl, classes, values, own.mask, lanes, w);
  }

  ghost predicate CountsFor(w: World, r: Role, snd: map<Class, nat>, rcv: map<Class, nat>, c: Class) {
    && c in snd && snd[c] == Used(w.gs, Transfers(c), r, w.layers)
    && c in rcv && rcv[c] == Used(w.gs, Transfers(c), r.Other(), w.layers)
  }

  /** For every circuit, all inputs and all randomness, both parties obtain the plain outputs. */
  method ExecCircuit(b: Built, serverValues: map<nat, seq<bool>>, clientValues: map<nat, seq<bool>>, s: Randomness, c: Randomness,
                     ghost inp: (nat, nat) -> bool)
    returns (server: SetupLUT, client: SetupLUT)
    requires BuiltOk(b) && InRange(s) && InRange(c)
    requires InputsOf(b.gates, inp, C.SERVER, serverValues)
    requires InputsOf(b.gates, inp, C.CLIENT, clientValues)
    ensures server.w.gs == client.w.gs == b.gates && server.w.inp == client.w.inp == inp
    ensures server.role == C.SERVER && client.role == C.CLIENT && OutputsPlain(server) && OutputsPlain(client)
    ensures NothingUnsent(server) && NothingUnsent(client) && InStep(server, client) && InStep(client, server)
    ensures Meant(b.gates, inp)
  {
    PlainMeant(b.gates, inp);
    ghost var w := WorldOf(b.gates, b.maxDepth, inp, s, c);
    WorldIs(b.gates, b.maxDepth, inp, s, c);
    var classes, serverCounts, clientCounts := ClassesOf(b.rows, b.gates, b.maxDepth);
    ClassesCover(b, classes, serverCounts, clientCounts);
    server, client := PrepareBoth(b, classes, serverCounts, clientCounts, serverValues, clientValues, s, c, w);
    EvaluateCircuit(server, client, b.maxDepth);
  }

  method PrepareBoth(b: Built, classes: seq<Class>, serverCounts: map<Class, nat>, clientCounts: map<Class, nat>,
                     serverValues: map<nat, seq<bool>>, clientValues: map<nat, seq<bool>>, s: Randomness, c: Randomness, ghost w: World)
    returns (server: SetupLUT, client: SetupLUT)
    requires BuiltOk(b) && Correct(w) && w.gs == b.gates && w.layers == b.maxDepth && ClassesOk(b.gates, classes)
    requires DrawnBy(w, C.SERVER, s, c) && DrawnBy(w, C.CLIENT, c, s) && InRange(s) && InRange(c)
    requires InputsOf(w.gs, w.inp, C.SERVER, serverValues) && InputsOf(w.gs, w.inp, C.CLIENT, clientValues)
    requires ClassesFrom(b.gates, b.rows[0], classes, serverCounts, clientCounts, b.maxDepth, 9)
    ensures fresh(server) && fresh(client) && Peers(server, client) && server.role == C.SERVER && server.w == w
    ensures server.LayerStart(0) && client.LayerStart(0)
  {
    assert forall c {:trigger c in classes} | c in classes :: ClassCounted(b.gates, serverCounts, clientCounts, c, b.maxDepth);
    server := Prepare(b, C.SERVER, classes, serverCounts, clientCounts, serverValues, s, c, w);
    client := Prepare(b, C.CLIENT, classes, clientCounts, serverCounts, clientValues, c, s, w);
  }
}
