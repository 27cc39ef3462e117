/** Two parties that generate multiplication triples, and multiply with them layer by layer. */
module ArithRun {
  import opened Bits
  import opened Circuit
  import opened Words
  import opened ArithTriples
  import opened ArithParty

  /** Triple i: shares of two words and of their product. */
  ghost predicate TripleAt(a0: seq<nat>, b0: seq<nat>, c0: seq<nat>, a1: seq<nat>, b1: seq<nat>, c1: seq<nat>, m: nat, i: nat) {
    && m > 0 && i < |a0| && i < |b0| && i < |c0| && i < |a1| && i < |b1| && i < |c1|
    && Mod(c0[i] + c1[i], m) == Mod((a0[i] + a1[i]) * (b0[i] + b1[i]), m)
  }

  ghost predicate Triples(a0: seq<nat>, b0: seq<nat>, c0: seq<nat>, a1: seq<nat>, b1: seq<nat>, c1: seq<nat>, m: nat) {
    && |a0| == |a1|
    && forall i: nat {:trigger TripleAt(a0, b0, c0, a1, b1, c1, m, i)} | i < |a0| :: TripleAt(a0, b0, c0, a1, b1, c1, m, i)
  }

  /** The receiver's choice bits are the bits of its words. */
  ghost predicate BitsOf(bits: seq<bool>, words: seq<nat>, l: nat) {
    forall i: nat {:trigger Row(i, l)} | i < |words| :: Row(i, l) + l <= |bits| && Num(bits[Row(i, l)..Row(i, l) + l]) == words[i]
  }

  /** Both parties of a run. */
  ghost predicate Paired(server: ArithSharing, client: ArithSharing)
    reads server, client
  {
    && server != client && server.role == SERVER && client.role == CLIENT && server.m == client.m
    && server.Valid() && client.Valid()
    && server.mtIdx == client.mtIdx && server.mtStartIdx == client.mtStartIdx && server.mulGates == client.mulGates
    && Triples(server.vA, server.vB, server.vC, client.vA, client.vB, client.vC, server.m)
  }

  lemma TripleFrom(a0: seq<nat>, b0: seq<nat>, x0: seq<nat>, s0: seq<nat>, c0: seq<nat>,
                   a1: seq<nat>, b1: seq<nat>, x1: seq<nat>, s1: seq<nat>, c1: seq<nat>, bits0: seq<bool>, bits1: seq<bool>, l: nat, i: nat)
    requires |a0| == |b0| == |x0| == |s0| == |c0| == |a1| == |b1| == |x1| == |s1| == |c1| && i < |a0|
    requires BitsOf(bits0, a0, l) && BitsOf(bits1, a1, l)
    requires ProductRow(b0, x0, s1, bits1, i, l) && ProductRow(b1, x1, s0, bits0, i, l)
    requires c0[i] == Mod(a0[i] * b0[i] + x0[i] + s0[i], Pow2(l)) && c1[i] == Mod(a1[i] * b1[i] + x1[i] + s1[i], Pow2(l))
    ensures TripleAt(a0, b0, c0, a1, b1, c1, Pow2(l), i)
  {
    CrossAt(b0, x0, s1, bits1, a1, i, l);
    CrossAt(b1, x1, s0, bits0, a0, i, l);
    TripleCorrect(a0[i], b0[i], x0[i], s0[i], a1[i], b1[i], x1[i], s1[i], Pow2(l));
  }

  lemma CrossAt(b: seq<nat>, x: seq<nat>, s: seq<nat>, bits: seq<bool>, a: seq<nat>, i: nat, l: nat)
    requires i < |a| && BitsOf(bits, a, l) && ProductRow(b, x, s, bits, i, l)
    ensures Mod(x[i] + s[i], Pow2(l)) == Mod(b[i] * a[i], Pow2(l))
  {
    assert Row(i, l) + l <= |bits| && Num(bits[Row(i, l)..Row(i, l) + l]) == a[i];
    CrossShares(x[i], s[i], b[i] * a[i], Pow2(l));
  }

  lemma CrossShares(x: nat, s: nat, p: nat, m: nat)
    requires m > 0 && (x + s) % m == p % m
    ensures Mod(x + s, m) == Mod(p, m)
  {
    ModIs(x + s, m);
    ModIs(p, m);
  }

  /**
    The end of the setup phase: each party was the sender of one batch of products, of its B with the other's A, and the
    receiver of the other batch.
   */
  method GenerateTriples(server: ArithSharing, client: ArithSharing, ghost serverBits: seq<bool>, ghost clientBits: seq<bool>, ghost l: nat)
    requires server != client && server.role == SERVER && client.role == CLIENT && server.m == client.m == Pow2(l)
    requires |server.vA| == |server.vB| == |server.vC| == |server.vS| == |client.vA| == |client.vB| == |client.vC| == |client.vS|
    requires AllWords(server.vA, server.m) && AllWords(server.vB, server.m) && Holds(server.aval, server.m)
    requires AllWords(client.vA, client.m) && AllWords(client.vB, client.m) && Holds(client.aval, client.m)
    requires BitsOf(serverBits, server.vA, l) && BitsOf(clientBits, client.vA, l)
    requires ProductRows(server.vB, server.vC, client.vS, clientBits, 0, |server.vA|, l)
    requires ProductRows(client.vB, client.vC, server.vS, serverBits, 0, |server.vA|, l)
    modifies server, client
    ensures Paired(server, client) && server.mtIdx == server.mtStartIdx == 0 && server.mulGates == []
    ensures server.aval == old(server.aval) && client.aval == old(client.aval)
  {
    server.ComputeMTsFromOTs();
    client.ComputeMTsFromOTs();
    forall i: nat | i < |server.vA|
      ensures TripleAt(server.vA, server.vB, server.vC, client.vA, client.vB, client.vC, server.m, i)
    {
      assert ProductRow(server.vB, old(server.vC), client.vS, clientBits, i, l);
      assert ProductRow(client.vB, old(client.vC), server.vS, serverBits, i, l);
      TripleFrom(server.vA, server.vB, old(server.vC), server.vS, server.vC,
                 client.vA, client.vB, old(client.vC), client.vS, client.vC, serverBits, clientBits, l, i);
    }
    server.FinishMTGeneration();
    client.FinishMTGeneration();
  }

  // ----- a layer of multiplications -------------------------------------------------------

  /** Word j of gate g is shared between the two parties, and is the product of the shared operands. */
  ghost predicate ProductAt(g: MulGate, s: map<nat, seq<nat>>, c: map<nat, seq<nat>>, m: nat, j: nat) {
    && m > 0 && g.id in s && g.id in c && j < |s[g.id]| && j < |c[g.id]|
    && g.left in s && g.left in c && j < |s[g.left]| && j < |c[g.left]|
    && g.right in s && g.right in c && j < |s[g.right]| && j < |c[g.right]|
    && Mod(s[g.id][j] + c[g.id][j], m) == Mod((s[g.left][j] + c[g.left][j]) * (s[g.right][j] + c[g.right][j]), m)
  }

  ghost predicate Multiplied(g: MulGate, s: map<nat, seq<nat>>, c: map<nat, seq<nat>>, m: nat) {
    && g.id in s && g.id in c && |s[g.id]| == |c[g.id]| == g.nvals
    && forall j: nat {:trigger ProductAt(g, s, c, m, j)} | j < g.nvals :: ProductAt(g, s, c, m, j)
  }

  /** All that a party's results of a layer depend on. */
  datatype View = View(a: seq<nat>, b: seq<nat>, c: seq<nat>, dSnd: seq<nat>, eSnd: seq<nat>, dRcv: seq<nat>, eRcv: seq<nat>,
                       res: seq<nat>, xs: seq<nat>, ys: seq<nat>)

  ghost predicate Evaluated(role: Role, v: View, start: nat, idx: nat, m: nat) {
    && Opening(v.a, v.dSnd, v.xs, start, idx, m) && Opening(v.b, v.eSnd, v.ys, start, idx, m)
    && forall i: nat {:trigger ResultAt(role, v.a, v.b, v.c, v.dSnd, v.eSnd, v.dRcv, v.eRcv, v.res, m, i)} | start <= i < idx ::
         ResultAt(role, v.a, v.b, v.c, v.dSnd, v.eSnd, v.dRcv, v.eRcv, v.res, m, i)
  }

  /** Both parties have received what the other one has sent in this layer. */
  ghost predicate Exchanged(s: View, c: View, start: nat, idx: nat) {
    && |s.dSnd| == |s.eSnd| == |s.dRcv| == |s.eRcv| == |c.dSnd| == |c.eSnd| == |c.dRcv| == |c.eRcv| && start <= idx <= |s.dSnd|
    && s.dRcv[start..idx] == c.dSnd[start..idx] && s.eRcv[start..idx] == c.eSnd[start..idx]
    && c.dRcv[start..idx] == s.dSnd[start..idx] && c.eRcv[start..idx] == s.eSnd[start..idx]
  }

  lemma Crossed(rcv: seq<nat>, snd: seq<nat>, start: nat, idx: nat, i: nat)
    requires start <= i < idx <= |rcv| == |snd| && rcv[start..idx] == snd[start..idx]
    ensures rcv[i] == snd[i]
  {
    assert rcv[start..idx][i - start] == snd[start..idx][i - start];
  }

  lemma ResultShares(s: View, c: View, start: nat, idx: nat, m: nat, i: nat)
    requires Evaluated(SERVER, s, start, idx, m) && Evaluated(CLIENT, c, start, idx, m) && Exchanged(s, c, start, idx)
    requires start <= i < idx && TripleAt(s.a, s.b, s.c, c.a, c.b, c.c, m, i)
    ensures i < |s.res| && i < |c.res| && i - start < |s.xs| && i - start < |s.ys| && i - start < |c.xs| && i - start < |c.ys|
    ensures Mod(s.res[i] + c.res[i], m) == Mod((s.xs[i - start] + c.xs[i - start]) * (s.ys[i - start] + c.ys[i - start]), m)
  {
    assert OpenedAt(s.a, s.dSnd, s.xs, start, idx, m, i) && OpenedAt(s.b, s.eSnd, s.ys, start, idx, m, i);
    assert OpenedAt(c.a, c.dSnd, c.xs, start, idx, m, i) && OpenedAt(c.b, c.eSnd, c.ys, start, idx, m, i);
    assert ResultAt(SERVER, s.a, s.b, s.c, s.dSnd, s.eSnd, s.dRcv, s.eRcv, s.res, m, i);
    assert ResultAt(CLIENT, c.a, c.b, c.c, c.dSnd, c.eSnd, c.dRcv, c.eRcv, c.res, m, i);
    var k := i - start;
    Crossed(s.dRcv, c.dSnd, start, idx, i);
    Crossed(s.eRcv, c.eSnd, start, idx, i);
    Crossed(c.dRcv, s.dSnd, start, idx, i);
    Crossed(c.eRcv, s.eSnd, start, idx, i);
    ResultWords(s.a[i], c.a[i], s.b[i], c.b[i], s.c[i], c.c[i], s.xs[k], c.xs[k], s.ys[k], c.ys[k],
                s.dSnd[i], c.dSnd[i], s.eSnd[i], c.eSnd[i], s.res[i], c.res[i], m);
  }

  /** The results of both parties, whichever of the two openings each of them adds first. */
  lemma ResultWords(a0: nat, a1: nat, b0: nat, b1: nat, c0: nat, c1: nat, x0: nat, x1: nat, y0: nat, y1: nat,
                    d0: nat, d1: nat, e0: nat, e1: nat, r0: nat, r1: nat, m: nat)
    requires m > 0 && Mod(c0 + c1, m) == Mod((a0 + a1) * (b0 + b1), m)
    requires d0 == Mod(Less(x0, a0), m) && d1 == Mod(Less(x1, a1), m) && e0 == Mod(Less(y0, b0), m) && e1 == Mod(Less(y1, b1), m)
    requires r0 == MtWord(SERVER, a0, b0, c0, Mod(d0 + d1, m), Mod(e0 + e1, m), m)
    requires r1 == MtWord(CLIENT, a1, b1, c1, Mod(d1 + d0, m), Mod(e1 + e0, m), m)
    ensures Mod(r0 + r1, m) == Mod((x0 + x1) * (y0 + y1), m)
  {
    MulShares(a0, a1, b0, b1, c0, c1, x0, x1, y0, y1, m);
  }

  /** Gate k of a layer, after both parties have spread their results. */
  lemma GateProduct(gates: seq<MulGate>, k: nat, s: View, c: View, sv: map<nat, seq<nat>>, cv: map<nat, seq<nat>>,
                    sNew: map<nat, seq<nat>>, cNew: map<nat, seq<nat>>, start: nat, idx: nat, m: nat)
    requires Evaluated(SERVER, s, start, idx, m) && Evaluated(CLIENT, c, start, idx, m) && Exchanged(s, c, start, idx)
    requires Triples(s.a, s.b, s.c, c.a, c.b, c.c, m) && k < |gates| && Fits(gates, sv, k) && Fits(gates, cv, k)
    requires idx == start + Offset(gates, |gates|) && idx <= |s.res| && idx <= |c.res|
    requires OperandsAt(gates, sv, s.xs, s.ys, k) && OperandsAt(gates, cv, c.xs, c.ys, k)
    requires Kept(sv, sNew) && Kept(cv, cNew) && Received(gates, sNew, s.res, start, k) && Received(gates, cNew, c.res, start, k)
    ensures Multiplied(gates[k], sNew, cNew, m)
  {
    var g, at := gates[k], Offset(gates, k);
    OffsetMonotone(gates, k + 1, |gates|);
    forall j: nat | j < g.nvals
      ensures ProductAt(g, sNew, cNew, m, j)
    {
      ghost var i: nat := start + at + j;
      assert TripleAt(s.a, s.b, s.c, c.a, c.b, c.c, m, i);
      ResultShares(s, c, start, idx, m, i);
    }
  }

  function Overwrite(v: seq<nat>, from: nat, words: seq<nat>): (r: seq<nat>)
    requires from + |words| <= |v|
    ensures |r| == |v| && r[from..from + |words|] == words
  {
    v[..from] + words + v[from + |words|..]
  }

  /** The openings of a layer travel in both directions. */
  method Exchange(server: ArithSharing, client: ArithSharing)
    requires Paired(server, client)
    modifies server`dRcv, server`eRcv, client`dRcv, client`eRcv
    ensures Paired(server, client)
    ensures Exchanged(ViewOf(server), ViewOf(client), server.mtStartIdx, server.mtIdx)
  {
    var start, idx := server.mtStartIdx, server.mtIdx;
    server.dRcv := Overwrite(server.dRcv, start, client.dSnd[start..idx]);
    server.eRcv := Overwrite(server.eRcv, start, client.eSnd[start..idx]);
    client.dRcv := Overwrite(client.dRcv, start, server.dSnd[start..idx]);
    client.eRcv := Overwrite(client.eRcv, start, server.eSnd[start..idx]);
  }

  ghost function ViewOf(p: ArithSharing): View
    reads p
  {
    View(p.vA, p.vB, p.vC, p.dSnd, p.eSnd, p.dRcv, p.eRcv, p.resA, p.xs, p.ys)
  }

  /** EvaluateInteractiveOperations of both parties, for the multiplications of a layer. */
  method OpenAll(server: ArithSharing, client: ArithSharing, gates: seq<MulGate>)
    requires Paired(server, client) && server.mulGates == [] && Layer(gates, server.aval) && Layer(gates, client.aval)
    requires server.mtIdx + Offset(gates, |gates|) <= |server.vA|
    modifies server`dSnd, server`eSnd, server`mtIdx, server`mulGates, server`xs, server`ys
    modifies client`dSnd, client`eSnd, client`mtIdx, client`mulGates, client`xs, client`ys
    ensures Paired(server, client) && server.mulGates == gates
    ensures server.mtIdx == old(server.mtIdx) + Offset(gates, |gates|)
  {
    for k := 0 to |gates|
      invariant Paired(server, client) && server.mulGates == gates[..k]
      invariant server.mtIdx == old(server.mtIdx) + Offset(gates, k)
    {
      OffsetMonotone(gates, k + 1, |gates|);
      assert gates[..k + 1] == gates[..k] + [gates[k]];
      LayerPrefix(gates, server.aval, k + 1);
      LayerPrefix(gates, client.aval, k + 1);
      server.SelectiveOpen(gates[k]);
      client.SelectiveOpen(gates[k]);
    }
    assert gates[..|gates|] == gates;
  }

  lemma LayerPrefix(gates: seq<MulGate>, aval: map<nat, seq<nat>>, n: nat)
    requires Layer(gates, aval) && n <= |gates|
    ensures Layer(gates[..n], aval)
  {
    forall k: nat | k < n
      ensures Fits(gates[..n], aval, k)
    {
      assert Fits(gates, aval, k);
    }
  }

  lemma LayerProducts(gates: seq<MulGate>, s: View, c: View, sv: map<nat, seq<nat>>, cv: map<nat, seq<nat>>,
                      sNew: map<nat, seq<nat>>, cNew: map<nat, seq<nat>>, start: nat, idx: nat, m: nat)
    requires Evaluated(SERVER, s, start, idx, m) && Evaluated(CLIENT, c, start, idx, m) && Exchanged(s, c, start, idx)
    requires Triples(s.a, s.b, s.c, c.a, c.b, c.c, m) && Layer(gates, sv) && Layer(gates, cv)
    requires idx == start + Offset(gates, |gates|) && idx <= |s.res| && idx <= |c.res|
    requires Operands(gates, sv, s.xs, s.ys) && Operands(gates, cv, c.xs, c.ys)
    requires Kept(sv, sNew) && Kept(cv, cNew)
    requires AllReceived(gates, sNew, s.res, start, |gates|) && AllReceived(gates, cNew, c.res, start, |gates|)
    ensures forall k: nat | k < |gates| :: Multiplied(gates[k], sNew, cNew, m)
  {
    forall k: nat | k < |gates|
      ensures Multiplied(gates[k], sNew, cNew, m)
    {
      assert Fits(gates, sv, k) && Fits(gates, cv, k) && OperandsAt(gates, sv, s.xs, s.ys, k) && OperandsAt(gates, cv, c.xs, c.ys, k);
      assert Received(gates, sNew, s.res, start, k) && Received(gates, cNew, c.res, start, k);
      GateProduct(gates, k, s, c, sv, cv, sNew, cNew, start, idx, m);
    }
  }

  /** FinishCircuitLayer of both parties, for the multiplications of a layer. */
  method FinishLayer(server: ArithSharing, client: ArithSharing)
    requires Paired(server, client) && Exchanged(ViewOf(server), ViewOf(client), server.mtStartIdx, server.mtIdx)
    modifies server`resA, server`aval, server`mulGates, server`mtStartIdx, server`xs, server`ys
    modifies client`resA, client`aval, client`mulGates, client`mtStartIdx, client`xs, client`ys
    ensures Paired(server, client) && server.mulGates == [] && server.mtStartIdx == server.mtIdx
    ensures Kept(old(server.aval), server.aval) && Kept(old(client.aval), client.aval)
    ensures forall k: nat | k < |old(server.mulGates)| :: Multiplied(old(server.mulGates)[k], server.aval, client.aval, server.m)
  {
    server.EvaluateMTs();
    client.EvaluateMTs();
    ghost var s, c, start, idx := ViewOf(server), ViewOf(client), server.mtStartIdx, server.mtIdx;
    server.EvaluateMULGate();
    client.EvaluateMULGate();
    LayerProducts(old(server.mulGates), s, c, old(server.aval), old(client.aval), server.aval, client.aval, start, idx, server.m);
  }

  /** A whole layer of multiplications. */
  method MultiplyLayer(server: ArithSharing, client: ArithSharing, gates: seq<MulGate>)
    requires Paired(server, client) && server.mulGates == [] && Layer(gates, server.aval) && Layer(gates, client.aval)
    requires server.mtIdx + Offset(gates, |gates|) <= |server.vA| && server.mtStartIdx == server.mtIdx
    modifies server, client
    ensures Paired(server, client) && server.mulGates == [] && server.mtStartIdx == server.mtIdx
    ensures server.mtIdx == old(server.mtIdx) + Offset(gates, |gates|)
    ensures Kept(old(server.aval), server.aval) && Kept(old(client.aval), client.aval)
    ensures forall k: nat | k < |gates| :: Multiplied(gates[k], server.aval, client.aval, server.m)
  {
    OpenAll(server, client, gates);
    Exchange(server, client);
    FinishLayer(server, client);
  }
}
