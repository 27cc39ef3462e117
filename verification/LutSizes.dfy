/** The table of truth-table sizes that the builder keeps, and the numbers of transfers that are prepared from it. */
module LutSizes {
  import opened Bits
  import opened Words
  import opened LutCircuit
  import C = Circuit

  /** An entry of m_vTTlens; a row of groups belongs to every depth, a group to every length of tables. */
  datatype TtLen = TtLen(ttLen: nat, outBits: nat, numgates: nat, tables: seq<Table>)

  type Table = seq<seq<bool>>

  type SizeRow = seq<seq<TtLen>>

  // ----- what the entries count -----------------------------------------------------------

  predicate OfSize(gs: seq<Gate>, len: nat, outs: nat, g: nat)
    requires g < |gs|
  {
    gs[g].op.Table? && Pow2(|gs[g].op.inputs|) == len && gs[g].op.outs == outs
  }

  /** The tables of a size on layer d among the first n gates, one for every value. */
  function Saved(gs: seq<Gate>, len: nat, outs: nat, d: nat, n: nat): seq<Table>
    requires n <= |gs|
  {
    if n == 0 then []
    else
      var before := Saved(gs, len, outs, d, n - 1);
      if gs[n - 1].depth == d && OfSize(gs, len, outs, n - 1) then before + Copies(gs, n - 1) else before
  }

  function Copies(gs: seq<Gate>, g: nat): (t: seq<Table>)
    requires g < |gs| && gs[g].op.Table?
    ensures |t| == Vals(gs, g)
  {
    seq(Vals(gs, g), n requires 0 <= n => gs[g].op.table)
  }

  lemma {:induction false} NoneSaved(gs: seq<Gate>, len: nat, outs: nat, d: nat, n: nat)
    requires n <= |gs| && forall g | 0 <= g < n :: !(OfSize(gs, len, outs, g) && gs[g].depth == d)
    ensures Saved(gs, len, outs, d, n) == []
  {
    if n > 0 {
      NoneSaved(gs, len, outs, d, n - 1);
    }
  }

  lemma {:induction false} Pow2Injective(a: nat, b: nat)
    requires Pow2(a) == Pow2(b)
    ensures a == b
  {
    if a < b {
      Pow2Monotone(a + 1, b);
    } else if b < a {
      Pow2Monotone(b + 1, a);
    }
  }

  function TableItems(gs: seq<Gate>): (nat, nat) -> Table {
    (g: nat, n: nat) => if g < |gs| && gs[g].op.Table? then gs[g].op.table else []
  }

  /** What is saved for a class, in build order, is what the gates of the layer take, in the order of their evaluation. */
  lemma {:induction false} SavedStrung(gs: seq<Gate>, c: Class, d: nat, n: nat)
    requires n <= |gs|
    ensures var q := Queue(gs, true, d, n);
            Strung(gs, Transfers(c), TableItems(gs), q, |q|) == Saved(gs, Pow2(c.ins), c.outs, d, n)
  {
    if n > 0 {
      SavedStrung(gs, c, d, n - 1);
      var q, p := Queue(gs, true, d, n), Queue(gs, true, d, n - 1);
      SavedBlock(gs, c, n - 1);
      if q != p {
        StrungSnoc(gs, Transfers(c), TableItems(gs), p, n - 1);
      } else {
        assert !(gs[n - 1].depth == d && OfSize(gs, Pow2(c.ins), c.outs, n - 1));
      }
    }
  }

  lemma SavedBlock(gs: seq<Gate>, c: Class, g: nat)
    requires g < |gs|
    ensures Block(gs, Transfers(c), TableItems(gs), g) == if OfSize(gs, Pow2(c.ins), c.outs, g) then Copies(gs, g) else []
  {
    if OfSize(gs, Pow2(c.ins), c.outs, g) {
      Pow2Injective(|gs[g].op.inputs|, c.ins);
    }
  }

  /** A layer takes from the transfers of a class what its entry counts. */
  lemma CountedTaken(gs: seq<Gate>, c: Class, d: nat)
    ensures LayerTakes(gs, Transfers(c), d) == |Saved(gs, Pow2(c.ins), c.outs, d, |gs|)|
  {
    SavedStrung(gs, c, d, |gs|);
  }

  // ----- the table is rectangular and exact -----------------------------------------------

  predicate SameKey(a: TtLen, b: TtLen) {
    a.ttLen == b.ttLen && a.outBits == b.outBits
  }

  predicate Alike(a: SizeRow, b: SizeRow) {
    |a| == |b| && forall i | 0 <= i < |a| :: |a[i]| == |b[i]| && forall j | 0 <= j < |a[i]| :: SameKey(a[i][j], b[i][j])
  }

  /** Groups are not empty; their lengths differ, and so do the numbers of outputs within a group. */
  predicate KeysOk(row: SizeRow) {
    && (forall i | 0 <= i < |row| :: |row[i]| > 0 && forall j | 0 <= j < |row[i]| :: row[i][j].ttLen == row[i][0].ttLen)
    && (forall i, k | 0 <= i < k < |row| :: row[i][0].ttLen != row[k][0].ttLen)
    && (forall i, j, k | 0 <= i < |row| && 0 <= j < k < |row[i]| :: row[i][j].outBits != row[i][k].outBits)
  }

  /** All depths have the same groups and entries. */
  ghost predicate Rectangular(rows: seq<SizeRow>) {
    |rows| > 0 && KeysOk(rows[0]) && forall d | 0 <= d < |rows| :: Alike(rows[d], rows[0])
  }

  predicate Listed(row: SizeRow, len: nat, outs: nat) {
    exists i, j | 0 <= i < |row| && 0 <= j < |row[i]| :: row[i][j].ttLen == len && row[i][j].outBits == outs
  }

  /** An entry has the tables of its size on layer d, and counts them. */
  predicate EntryExact(gs: seq<Gate>, e: TtLen, d: nat, n: nat)
    requires n <= |gs|
  {
    e.tables == Saved(gs, e.ttLen, e.outBits, d, n) && e.numgates == |e.tables|
  }

  predicate RowExact(gs: seq<Gate>, row: SizeRow, d: nat, n: nat)
    requires n <= |gs|
  {
    forall i, j | 0 <= i < |row| && 0 <= j < |row[i]| :: EntryExact(gs, row[i][j], d, n)
  }

  predicate GateListed(gs: seq<Gate>, rows: seq<SizeRow>, g: nat)
    requires g < |gs| && |rows| > 0
  {
    gs[g].op.Table? ==> gs[g].depth < |rows| && Listed(rows[0], Pow2(|gs[g].op.inputs|), gs[g].op.outs)
  }

  /** The entries count the first n gates exactly, and every table has its entry. */
  ghost predicate Exact(gs: seq<Gate>, rows: seq<SizeRow>, n: nat) {
    && n <= |gs| && Rectangular(rows)
    && (forall d {:trigger rows[d]} | 0 <= d < |rows| :: RowExact(gs, rows[d], d, n))
    && (forall g {:trigger GateListed(gs, rows, g)} | 0 <= g < n :: GateListed(gs, rows, g))
  }

  // ----- UpdateTruthTableSizes ------------------------------------------------------------

  function Zeroed(row: SizeRow): (z: SizeRow)
    ensures Alike(z, row)
  {
    seq(|row|, i requires 0 <= i < |row| => seq(|row[i]|, j requires 0 <= j < |row[i]| => row[i][j].(numgates := 0, tables := [])))
  }

  /** Layers that are new have the entries of the others, with nothing counted. */
  method Grow(rows: seq<SizeRow>, depth: nat, ghost gs: seq<Gate>, ghost n: nat) returns (next: seq<SizeRow>)
    requires Exact(gs, rows, n)
    ensures Exact(gs, next, n) && depth < |next|
  {
    next := rows;
    while |next| <= depth
      invariant Exact(gs, next, n)
      decreases depth - |next|
    {
      ZeroedExact(gs, next, n);
      next := next + [Zeroed(next[0])];
    }
  }

  lemma ZeroedExact(gs: seq<Gate>, rows: seq<SizeRow>, n: nat)
    requires Exact(gs, rows, n)
    ensures Exact(gs, rows + [Zeroed(rows[0])], n)
  {
    var z: SizeRow := Zeroed(rows[0]);
    var d: nat := |rows|;
    forall i, j | 0 <= i < |z| && 0 <= j < |z[i]|
      ensures Saved(gs, z[i][j].ttLen, z[i][j].outBits, d, n) == []
    {
      forall g | 0 <= g < n
        ensures !(OfSize(gs, z[i][j].ttLen, z[i][j].outBits, g) && gs[g].depth == d)
      {
        assert GateListed(gs, rows, g);
      }
      NoneSaved(gs, z[i][j].ttLen, z[i][j].outBits, d, n);
    }
    var more := rows + [z];
    forall g | 0 <= g < n
      ensures GateListed(gs, more, g)
    {
      assert GateListed(gs, rows, g);
    }
  }

  /** The group of a length, or the number of groups. */
  method FindLen(row: SizeRow, len: nat) returns (id: nat)
    requires KeysOk(row)
    ensures id <= |row| && (id < |row| ==> row[id][0].ttLen == len) && (id == |row| ==> forall i | 0 <= i < |row| :: row[i][0].ttLen != len)
  {
    id := 0;
    while id < |row| && row[id][0].ttLen != len
      invariant id <= |row| && forall i | 0 <= i < id :: row[i][0].ttLen != len
    {
      id := id + 1;
    }
  }

  /** The entry of a number of outputs in a group, or the number of entries. */
  method FindOuts(group: seq<TtLen>, outs: nat) returns (j: nat)
    ensures j <= |group| && (j < |group| ==> group[j].outBits == outs) && (j == |group| ==> forall k | 0 <= k < |group| :: group[k].outBits != outs)
  {
    j := 0;
    while j < |group| && group[j].outBits != outs
      invariant j <= |group| && forall k | 0 <= k < j :: group[k].outBits != outs
    {
      j := j + 1;
    }
  }

  /** A row with one more entry, in a group that exists or in a new one. */
  function WithEntry(row: SizeRow, id: nat, e: TtLen): SizeRow
    requires id <= |row|
  {
    if id < |row| then row[id := row[id] + [e]] else row + [[e]]
  }

  /** The size is new, and has its place at the end of group id. */
  ghost predicate Fresh(row: SizeRow, id: nat, len: nat, outs: nat) {
    && KeysOk(row) && id <= |row|
    && if id < |row| then row[id][0].ttLen == len && forall k | 0 <= k < |row[id]| :: row[id][k].outBits != outs
       else forall i | 0 <= i < |row| :: row[i][0].ttLen != len
  }

  lemma FreshKeys(row: SizeRow, id: nat, len: nat, outs: nat)
    requires Fresh(row, id, len, outs)
    ensures KeysOk(WithEntry(row, id, TtLen(len, outs, 0, []))) && !Listed(row, len, outs)
  {
  }

  /** The new entry goes to all layers. */
  method AddEntry(rows: seq<SizeRow>, id: nat, len: nat, outs: nat, ghost gs: seq<Gate>, ghost n: nat) returns (next: seq<SizeRow>)
    requires Exact(gs, rows, n) && Fresh(rows[0], id, len, outs)
    ensures Exact(gs, next, n) && |next| == |rows| && next[0] == WithEntry(rows[0], id, TtLen(len, outs, 0, []))
    ensures forall d | 0 <= d < |next| :: id < |next[d]| && |next[d][id]| > 0 && next[d][id][|next[d][id]| - 1] == TtLen(len, outs, 0, [])
  {
    next := [];
    for d := 0 to |rows|
      invariant |next| == d && forall k | 0 <= k < d :: next[k] == WithEntry(rows[k], id, TtLen(len, outs, 0, []))
    {
      next := next + [WithEntry(rows[d], id, TtLen(len, outs, 0, []))];
    }
    EntriesExact(gs, rows, next, id, len, outs, n);
  }

  lemma NotCounted(gs: seq<Gate>, rows: seq<SizeRow>, len: nat, outs: nat, d: nat, n: nat)
    requires Exact(gs, rows, n) && !Listed(rows[0], len, outs)
    ensures Saved(gs, len, outs, d, n) == []
  {
    forall g | 0 <= g < n
      ensures !OfSize(gs, len, outs, g)
    {
      assert GateListed(gs, rows, g);
    }
    NoneSaved(gs, len, outs, d, n);
  }

  lemma EntriesExact(gs: seq<Gate>, rows: seq<SizeRow>, next: seq<SizeRow>, id: nat, len: nat, outs: nat, n: nat)
    requires Exact(gs, rows, n) && Fresh(rows[0], id, len, outs)
    requires |next| == |rows| && forall k | 0 <= k < |rows| :: id <= |rows[k]| && next[k] == WithEntry(rows[k], id, TtLen(len, outs, 0, []))
    ensures Exact(gs, next, n)
  {
    FreshKeys(rows[0], id, len, outs);
    forall d | 0 <= d < |next|
      ensures Alike(next[d], next[0]) && RowExact(gs, next[d], d, n)
    {
      assert Alike(rows[d], rows[0]) && RowExact(gs, rows[d], d, n);
      NotCounted(gs, rows, len, outs, d, n);
      NewEntry(gs, rows[d], rows[0], id, TtLen(len, outs, 0, []), d, n);
    }
    forall g | 0 <= g < n
      ensures GateListed(gs, next, g)
    {
      assert GateListed(gs, rows, g);
      StillListed(rows[0], id, TtLen(len, outs, 0, []));
    }
  }

  lemma NewEntry(gs: seq<Gate>, row: SizeRow, first: SizeRow, id: nat, e: TtLen, d: nat, n: nat)
    requires n <= |gs| && Alike(row, first) && RowExact(gs, row, d, n) && EntryExact(gs, e, d, n) && id <= |row|
    ensures Alike(WithEntry(row, id, e), WithEntry(first, id, e)) && RowExact(gs, WithEntry(row, id, e), d, n)
  {
  }

  lemma StillListed(row: SizeRow, id: nat, e: TtLen)
    requires id <= |row|
    ensures forall len, outs | Listed(row, len, outs) :: Listed(WithEntry(row, id, e), len, outs)
  {
    forall len, outs | Listed(row, len, outs)
      ensures Listed(WithEntry(row, id, e), len, outs)
    {
      var i, j :| 0 <= i < |row| && 0 <= j < |row[i]| && row[i][j].ttLen == len && row[i][j].outBits == outs;
      assert WithEntry(row, id, e)[i][j] == row[i][j];
    }
  }

  /** The entry of the new gate, with its tables added, one for every value. */
  function Raised(rows: seq<SizeRow>, depth: nat, id: nat, j: nat, tables: seq<Table>): seq<SizeRow>
    requires depth < |rows| && id < |rows[depth]| && j < |rows[depth][id]|
  {
    var e := rows[depth][id][j];
    rows[depth := rows[depth][id := rows[depth][id][j := e.(numgates := e.numgates + |tables|, tables := e.tables + tables)]]]
  }

  /** The next gate, with its size. */
  ghost predicate NextTable(gs: seq<Gate>, n: nat, len: nat, depth: nat, nvals: nat, outs: nat, table: Table) {
    n < |gs| && OfSize(gs, len, outs, n) && gs[n].depth == depth && Vals(gs, n) == nvals && gs[n].op.table == table
  }

  lemma RaisedExact(gs: seq<Gate>, rows: seq<SizeRow>, n: nat, len: nat, depth: nat, nvals: nat, outs: nat, table: Table, id: nat, j: nat)
    requires Exact(gs, rows, n) && NextTable(gs, n, len, depth, nvals, outs, table) && depth < |rows| && id < |rows[depth]| && j < |rows[depth][id]|
    requires rows[depth][id][j].ttLen == len && rows[depth][id][j].outBits == outs
    ensures Exact(gs, Raised(rows, depth, id, j, Copies(gs, n)), n + 1)
  {
    var next := Raised(rows, depth, id, j, Copies(gs, n));
    assert Alike(rows[depth], rows[0]) && KeysOk(rows[0]);
    assert rows[0][id][0].ttLen == len;
    forall d | 0 <= d < |next|
      ensures Alike(next[d], next[0]) && RowExact(gs, next[d], d, n + 1)
    {
      assert Alike(rows[d], rows[0]) && RowExact(gs, rows[d], d, n);
      EntriesKept(gs, rows, next, n, len, outs, id, j, d);
    }
    forall g | 0 <= g < n + 1
      ensures GateListed(gs, next, g)
    {
      if g < n {
        assert GateListed(gs, rows, g);
      }
      KeysListed(rows[0], next[0]);
    }
  }

  lemma KeysListed(row: SizeRow, next: SizeRow)
    requires Alike(next, row)
    ensures forall len, outs :: Listed(row, len, outs) ==> Listed(next, len, outs)
  {
    forall len, outs | Listed(row, len, outs)
      ensures Listed(next, len, outs)
    {
      var i, j :| 0 <= i < |row| && 0 <= j < |row[i]| && row[i][j].ttLen == len && row[i][j].outBits == outs;
      assert SameKey(next[i][j], row[i][j]);
    }
  }

  lemma EntriesKept(gs: seq<Gate>, rows: seq<SizeRow>, next: seq<SizeRow>, n: nat, len: nat, outs: nat, id: nat, j: nat, d: nat)
    requires n < |gs| && OfSize(gs, len, outs, n) && d < |rows| && id < |rows[d]| && j < |rows[d][id]| && gs[n].depth < |rows|
    requires KeysOk(rows[0]) && Alike(rows[d], rows[0]) && rows[0][id][j].ttLen == len && rows[0][id][j].outBits == outs
    requires RowExact(gs, rows[d], d, n) && id < |rows[gs[n].depth]| && j < |rows[gs[n].depth][id]|
    requires next == Raised(rows, gs[n].depth, id, j, Copies(gs, n))
    ensures RowExact(gs, next[d], d, n + 1)
  {
    var row: SizeRow := next[d];
    forall i, k | 0 <= i < |row| && 0 <= k < |row[i]|
      ensures EntryExact(gs, row[i][k], d, n + 1)
    {
      assert SameKey(rows[d][i][k], rows[0][i][k]) && rows[0][i][k].ttLen == rows[0][i][0].ttLen;
      if i != id || k != j {
        assert !(rows[0][i][k].ttLen == len && rows[0][i][k].outBits == outs);
      }
    }
  }

  /** UpdateTruthTableSizes: after any gates in any order of layers, the table is rectangular and counts every size on every layer. */
  method UpdateTruthTableSizes(rows: seq<SizeRow>, len: nat, depth: nat, nvals: nat, outs: nat, table: Table, ghost gs: seq<Gate>, ghost n: nat)
    returns (next: seq<SizeRow>)
    requires Exact(gs, rows, n) && NextTable(gs, n, len, depth, nvals, outs, table)
    ensures Exact(gs, next, n + 1)
  {
    next := Grow(rows, depth, gs, n);
    assert Alike(next[depth], next[0]);
    var id := FindLen(next[0], len);
    var j := 0;
    if id < |next[0]| {
      j := FindOuts(next[0][id], outs);
    }
    if id == |next[0]| || j == |next[0][id]| {
      j := if id < |next[0]| then j else 0;
      next := AddEntry(next, id, len, outs, gs, n);
    }
    var copies := seq(nvals, k => table);
    assert copies == Copies(gs, n);
    RaisedExact(gs, next, n, len, depth, nvals, outs, table, id, j);
    next := Raised(next, depth, id, j, copies);
  }

  /** At first there is one layer with the entry of a plain AND gate. */
  lemma StartExact(gs: seq<Gate>)
    ensures Exact(gs, [[[TtLen(4, 1, 0, [])]]], 0)
  {
  }

  /** Other gates do not change it. */
  lemma OtherGate(gs: seq<Gate>, rows: seq<SizeRow>, n: nat)
    requires Exact(gs, rows, n) && n < |gs| && !gs[n].op.Table?
    ensures Exact(gs, rows, n + 1)
  {
    forall d | 0 <= d < |rows|
      ensures RowExact(gs, rows[d], d, n + 1)
    {
      assert RowExact(gs, rows[d], d, n);
    }
    forall g | 0 <= g < n + 1
      ensures GateListed(gs, rows, g)
    {
      if g < n {
        assert GateListed(gs, rows, g);
      }
    }
  }

  // ----- PrepareSetupPhase ----------------------------------------------------------------

  function PartyOf(p: nat): Role {
    if p == 0 then C.SERVER else C.CLIENT
  }

  lemma {:induction false} SenderParity(d: nat)
    ensures Sender(d) == PartyOf(d % 2)
  {
    if d > 0 {
      SenderParity(d - 1);
    }
  }

  predicate ClassHas(e: TtLen, c: Class) {
    e.ttLen == Pow2(c.ins) && e.outBits == c.outs
  }

  /** numgates, summed over the layers before d on which party p sends. */
  ghost predicate SummedAt(gs: seq<Gate>, row: SizeRow, sums: seq<seq<nat>>, p: nat, d: nat) {
    && |sums| == |row| && (forall i | 0 <= i < |row| :: |sums[i]| == |row[i]|)
    && forall i, j, c {:trigger ClassHas(row[i][j], c)} | 0 <= i < |row| && 0 <= j < |row[i]| && ClassHas(row[i][j], c) ::
         sums[i][j] == Used(gs, Transfers(c), PartyOf(p), d)
  }

  function PlusRow(sums: seq<seq<nat>>, row: SizeRow): seq<seq<nat>>
    requires |sums| == |row| && forall i | 0 <= i < |row| :: |sums[i]| == |row[i]|
  {
    seq(|sums|, i requires 0 <= i < |sums| => seq(|sums[i]|, j requires 0 <= j < |sums[i]| => sums[i][j] + row[i][j].numgates))
  }

  lemma SummedStep(gs: seq<Gate>, row: SizeRow, first: SizeRow, sums: seq<seq<nat>>, p: nat, d: nat)
    requires p < 2 && SummedAt(gs, first, sums, p, d) && Alike(row, first) && RowExact(gs, row, d, |gs|)
    ensures SummedAt(gs, first, if d % 2 == p then PlusRow(sums, row) else sums, p, d + 1)
  {
    SenderParity(d);
    forall i, j, c | 0 <= i < |first| && 0 <= j < |first[i]| && ClassHas(first[i][j], c)
      ensures Used(gs, Transfers(c), PartyOf(p), d + 1) == sums[i][j] + if d % 2 == p then row[i][j].numgates else 0
    {
      assert SameKey(row[i][j], first[i][j]);
      CountedTaken(gs, c, d);
    }
  }

  /** The numbers of transfers, for either party as the sender: the values of the tables on its layers. */
  method CountTransfers(rows: seq<SizeRow>, ghost gs: seq<Gate>) returns (server: seq<seq<nat>>, client: seq<seq<nat>>)
    requires Exact(gs, rows, |gs|)
    ensures SummedAt(gs, rows[0], server, 0, |rows|) && SummedAt(gs, rows[0], client, 1, |rows|)
  {
    server := seq(|rows[0]|, i requires 0 <= i < |rows[0]| => seq(|rows[0][i]|, j => 0));
    client := server;
    for d := 0 to |rows|
      invariant SummedAt(gs, rows[0], server, 0, d) && SummedAt(gs, rows[0], client, 1, d)
    {
      assert Alike(rows[d], rows[0]) && RowExact(gs, rows[d], d, |gs|);
      SummedStep(gs, rows[d], rows[0], server, 0, d);
      SummedStep(gs, rows[d], rows[0], client, 1, d);
      server, client := if d % 2 == 0 then PlusRow(server, rows[d]) else server, if d % 2 == 1 then PlusRow(client, rows[d]) else client;
    }
  }

  lemma LayerEmpty(gs: seq<Gate>, c: Class, d: nat)
    requires forall g | 0 <= g < |gs| && gs[g].op.Table? :: gs[g].depth < d
    ensures Strung(gs, Transfers(c), TableItems(gs), Layer(gs, d), |Layer(gs, d)|) == [] && LayerTakes(gs, Transfers(c), d) == 0
  {
    SavedStrung(gs, c, d, |gs|);
    NoneSaved(gs, Pow2(c.ins), c.outs, d, |gs|);
  }

  /** Layers without tables take nothing. */
  lemma {:induction false} UsedStill(gs: seq<Gate>, c: Class, r: Role, d: nat, e: nat)
    requires d <= e && forall g | 0 <= g < |gs| && gs[g].op.Table? :: gs[g].depth < d
    ensures Used(gs, Transfers(c), r, e) == Used(gs, Transfers(c), r, d)
  {
    if d < e {
      UsedStill(gs, c, r, d, e - 1);
      LayerEmpty(gs, c, e - 1);
    }
  }

  /** What is counted over the table of sizes is what all layers of the circuit use. */
  lemma CountedEnough(gs: seq<Gate>, rows: seq<SizeRow>, c: Class, r: Role, layers: nat)
    requires Exact(gs, rows, |gs|) && forall g | 0 <= g < |gs| :: gs[g].depth < layers
    ensures Used(gs, Transfers(c), r, |rows|) == Used(gs, Transfers(c), r, layers)
  {
    forall g | 0 <= g < |gs| && gs[g].op.Table?
      ensures gs[g].depth < |rows|
    {
      assert GateListed(gs, rows, g);
    }
    if |rows| <= layers {
      UsedStill(gs, c, r, |rows|, layers);
    } else {
      UsedStill(gs, c, r, layers, |rows|);
    }
  }

  /** Random bits for the results: as many as there are transfers, times the number of outputs. */
  lemma {:induction false} MasksPerTransfer(gs: seq<Gate>, c: Class, r: Role, d: nat)
    requires WellFormed(gs)
    ensures Used(gs, Masks(c), r, d) == Used(gs, Transfers(c), r, d) * c.outs
  {
    if d > 0 {
      MasksPerTransfer(gs, c, r, d - 1);
      TakenMasks(gs, c, Layer(gs, d - 1), |Layer(gs, d - 1)|);
      var u, t := Used(gs, Transfers(c), r, d - 1), LayerTakes(gs, Transfers(c), d - 1);
      Distribute(u, t, c.outs);
    }
  }

  lemma {:induction false} TakenMasks(gs: seq<Gate>, c: Class, q: seq<nat>, i: nat)
    requires WellFormed(gs) && Ids(gs, q) && i <= |q|
    ensures Taken(gs, Masks(c), q, i) == Taken(gs, Transfers(c), q, i) * c.outs
  {
    if i > 0 {
      TakenMasks(gs, c, q, i - 1);
      assert GateOk(gs, q[i - 1]);
      TimesIsProduct(c.outs, Vals(gs, q[i - 1]));
      var t, a := Taken(gs, Transfers(c), q, i - 1), Amount(gs, Transfers(c), q[i - 1]);
      Distribute(t, a, c.outs);
    }
  }
}
