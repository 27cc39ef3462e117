/** The product of two numbers as a sum of shifted rows. */
module ProductSpec {
  import opened Bits
  import opened CarrySaveSpec

  /** The bits of a, gated by b and moved up by i positions, cut to width bits. */
  function Row(a: seq<bool>, b: bool, i: nat, width: nat): (s: seq<bool>)
    ensures |s| == width
  {
    seq(width, t requires 0 <= t < width => i <= t < i + |a| && a[t - i] && b)
  }

  function RowsOf(a: seq<bool>, b: seq<bool>, k: nat, width: nat): (rows: seq<seq<bool>>)
    requires k <= |b|
    ensures |rows| == k && forall i | 0 <= i < k :: rows[i] == Row(a, b[i], i, width)
  {
    if k == 0 then [] else RowsOf(a, b, k - 1, width) + [Row(a, b[k - 1], k - 1, width)]
  }

  /** The number the first m bits stand for, moved up by i positions. */
  function Shifted(a: seq<bool>, m: nat, i: nat): nat
    requires m <= |a|
  {
    Value(a, m) * Pow2(i)
  }

  lemma Distribute(x: nat, y: nat, m: nat)
    ensures (x + y) * m == x * m + y * m
  {
  }

  lemma ShiftedStep(a: seq<bool>, m: nat, i: nat)
    requires 0 < m <= |a|
    ensures Shifted(a, m, i) == Shifted(a, m - 1, i) + Weight(a[m - 1], i + m - 1)
    ensures Shifted(a, 0, i) == 0
  {
    Pow2Add(m - 1, i);
    Distribute(Value(a, m - 1), Weight(a[m - 1], m - 1), Pow2(i));
  }

  /** What the first k positions of a row stand for. */
  lemma {:induction false} RowPrefix(a: seq<bool>, b: bool, i: nat, width: nat, k: nat)
    requires k <= width
    ensures !b || k <= i ==> Value(Row(a, b, i, width), k) == 0
    ensures b && i < k ==> Value(Row(a, b, i, width), k) == Shifted(a, Min(k - i, |a|), i)
  {
    if k > 0 {
      RowPrefix(a, b, i, width, k - 1);
      if b && i < k <= i + |a| {
        ShiftedStep(a, k - i, i);
      }
    }
  }

  lemma RowValue(a: seq<bool>, b: bool, i: nat, width: nat)
    ensures Num(Row(a, b, i, width)) == Wrap(Num(a) * Weight(b, i), width)
  {
    var full := i + |a| + width;
    RowPrefix(a, b, i, full, full);
    assert Num(Row(a, b, i, full)) == Num(a) * Weight(b, i);
    ValueTruncate(Row(a, b, i, full), full, width);
    ValueCong(Row(a, b, i, full), Row(a, b, i, width), width);
  }

  /** Summands may be exchanged for numbers that agree modulo the width. */
  lemma WrapSum(t: nat, p: nat, row: nat, x: nat, n: nat)
    requires Wrap(t, n) == Wrap(p, n) && row == Wrap(x, n)
    ensures Wrap(t + row, n) == Wrap(p + x, n)
  {
    WrapAdd(x, t, n);
    WrapAdd(t, x, n);
    WrapAdd(p, x, n);
  }

  /** The sum of the first k shifted multiples of x. */
  function PartialProduct(x: nat, b: seq<bool>, k: nat): nat
    requires k <= |b|
  {
    if k == 0 then 0 else PartialProduct(x, b, k - 1) + x * Weight(b[k - 1], k - 1)
  }

  lemma {:induction false} PartialProductIs(x: nat, b: seq<bool>, k: nat)
    requires k <= |b|
    ensures PartialProduct(x, b, k) == x * Value(b, k)
  {
    if k > 0 {
      PartialProductIs(x, b, k - 1);
      assert x * (Value(b, k - 1) + Weight(b[k - 1], k - 1)) == x * Value(b, k - 1) + x * Weight(b[k - 1], k - 1);
    }
  }

  lemma {:induction false} RowsTotal(a: seq<bool>, b: seq<bool>, k: nat, width: nat)
    requires k <= |b|
    ensures Wrap(Total(RowsOf(a, b, k, width), 0, k), width) == Wrap(PartialProduct(Num(a), b, k), width)
  {
    if k > 0 {
      RowsTotal(a, b, k - 1, width);
      var rows, front := RowsOf(a, b, k, width), RowsOf(a, b, k - 1, width);
      TotalCong(rows, front, 0, k - 1);
      RowValue(a, b[k - 1], k - 1, width);
      WrapSum(Total(front, 0, k - 1), PartialProduct(Num(a), b, k - 1), Num(rows[k - 1]), Num(a) * Weight(b[k - 1], k - 1), width);
    }
  }

  /** The rows add up to the product, modulo the width of the result. */
  lemma RowsProduct(a: seq<bool>, b: seq<bool>, width: nat)
    ensures Wrap(Total(RowsOf(a, b, |b|, width), 0, |b|), width) == Wrap(Num(a) * Num(b), width)
  {
    RowsTotal(a, b, |b|, width);
    PartialProductIs(Num(a), b, |b|);
  }

  lemma RowsProductSwapped(a: seq<bool>, b: seq<bool>, width: nat)
    ensures Wrap(Total(RowsOf(b, a, |a|, width), 0, |a|), width) == Wrap(Num(a) * Num(b), width)
  {
    RowsProduct(b, a, width);
  }
}

/** The multiplier in its modes, and the tree of adders it may use. */
module Multiplier {
  import opened Bits
  import opened Addition
  import opened CarrySaveSpec
  import opened ProductSpec
  import opened Circuit
  import opened Builder
  import opened Adders
  import opened CarrySave
  import opened CarrySaveRounds
  import opened MultiMux

  /** The gated bits of row i that reach the result. */
  function RowAnds(n: nat, i: nat, resultbitlen: nat): nat {
    if i < resultbitlen then Min(n, resultbitlen - i) else 0
  }

  /** The gated bits of the first k rows. */
  function ProductAnds(n: nat, k: nat, resultbitlen: nat): nat {
    if k == 0 then 0 else ProductAnds(n, k - 1, resultbitlen) + RowAnds(n, k - 1, resultbitlen)
  }

  /** A product of full width takes n * n AND gates, one of the operands' width takes half of them. */
  lemma {:induction false} ProductAndsAre(n: nat, k: nat)
    requires k <= n
    ensures ProductAnds(n, k, 2 * n) == k * n && 2 * ProductAnds(n, k, n) == k * (2 * n + 1 - k)
  {
    if k > 0 {
      ProductAndsAre(n, k - 1);
      assert k * n == (k - 1) * n + n;
      assert k * (2 * n + 1 - k) == (k - 1) * (2 * n + 1 - (k - 1)) + 2 * (n - (k - 1));
    }
  }

  /** The pairs of bits whose product reaches a result of that length. */
  function ReachingPairs(n: nat, k: nat, resultbitlen: nat): set<(nat, nat)> {
    set i: nat, j: nat | i < k && j < n && i + j < resultbitlen :: (i, j)
  }

  function ReachingInRow(n: nat, i: nat, resultbitlen: nat): set<(nat, nat)> {
    set j: nat | j < n && i + j < resultbitlen :: (i, j)
  }

  lemma {:induction false} RowAndsAre(n: nat, i: nat, resultbitlen: nat)
    ensures RowAnds(n, i, resultbitlen) == |ReachingInRow(n, i, resultbitlen)|
  {
    if n == 0 {
      assert ReachingInRow(n, i, resultbitlen) == {};
    } else {
      RowAndsAre(n - 1, i, resultbitlen);
      assert ReachingInRow(n, i, resultbitlen) ==
             ReachingInRow(n - 1, i, resultbitlen) + if i + (n - 1) < resultbitlen then {(i, n - 1)} else {};
    }
  }

  /** One AND gate for every pair of bits whose product reaches the result. */
  lemma {:induction false} ProductAndsCount(n: nat, k: nat, resultbitlen: nat)
    ensures ProductAnds(n, k, resultbitlen) == |ReachingPairs(n, k, resultbitlen)|
  {
    if k == 0 {
      assert ReachingPairs(n, k, resultbitlen) == {};
    } else {
      ProductAndsCount(n, k - 1, resultbitlen);
      RowAndsAre(n, k - 1, resultbitlen);
      PairsOfRows(n, k, resultbitlen);
    }
  }

  lemma PairsOfRows(n: nat, k: nat, resultbitlen: nat)
    requires k > 0
    ensures |ReachingPairs(n, k, resultbitlen)| == |ReachingPairs(n, k - 1, resultbitlen)| + |ReachingInRow(n, k - 1, resultbitlen)|
  {
    var before, row := ReachingPairs(n, k - 1, resultbitlen), ReachingInRow(n, k - 1, resultbitlen);
    assert ReachingPairs(n, k, resultbitlen) == before + row;
    assert before * row == {};
  }

  /** One row of the school method: zeros, the gated bits, zeros, as far as the result reaches. */
  method PutProductRow(bc: BooleanCircuit, a: seq<nat>, bi: nat, i: nat, zerogate: nat, resultbitlen: nat,
                       ghost va: seq<bool>, ghost vb: bool, ghost r: nat) returns (row: seq<nat>)
    requires bc.Valid() && bc.Holds(a, va, r) && bc.Wire(bi) && bc.Val(bi) == vb && bc.ReadyAt(bi) <= r
    requires bc.Wire(zerogate) && !bc.Val(zerogate) && bc.ReadyAt(zerogate) <= r
    modifies bc
    ensures bc.Valid() && bc.Extends()
    ensures |row| == Min(resultbitlen, i + |a|) && bc.Holds(row, Row(va, vb, i, |row|), r + 1)
    ensures bc.AndCount() == old(bc.AndCount()) + Times(RowAnds(|a|, i, resultbitlen), bc.width)
  {
    row := seq(Min(i, resultbitlen), _ => zerogate);
    var j := 0;
    while j < |a| && |row| < resultbitlen
      invariant bc.Valid() && bc.Extends() && bc.Holds(a, va, r) && bc.Wire(bi) && bc.Val(bi) == vb && bc.ReadyAt(bi) <= r
      invariant j <= |a| && |row| == Min(i + j, resultbitlen) && bc.AndCount() == old(bc.AndCount()) + Times(RowAnds(j, i, resultbitlen), bc.width)
      invariant bc.Holds(row, Row(va, vb, i, |row|), r + 1)
    {
      var w := bc.PutANDGate(a[j], bi);
      assert Row(va, vb, i, |row| + 1) == Row(va, vb, i, |row|) + [va[j] && vb];
      bc.HoldsSnoc(row, Row(va, vb, i, |row|), w, va[j] && vb, r + 1);
      row := row + [w];
      j := j + 1;
    }
  }

  /** The zeros above a row. */
  method FillRow(bc: BooleanCircuit, row0: seq<nat>, zerogate: nat, inputbitlen: nat, i: nat, resultbitlen: nat,
                 ghost va: seq<bool>, ghost vb: bool, ghost r: nat) returns (row: seq<nat>)
    requires bc.Wire(zerogate) && !bc.Val(zerogate) && bc.ReadyAt(zerogate) <= r
    requires |row0| == Min(resultbitlen, i + |va|) && bc.Holds(row0, Row(va, vb, i, |row0|), r)
    requires i < |va| == inputbitlen && resultbitlen <= 2 * inputbitlen
    ensures bc.Holds(row, Row(va, vb, i, resultbitlen), r)
  {
    row := row0;
    var j := i;
    while j < inputbitlen && |row| < resultbitlen
      invariant i <= j <= inputbitlen && |row| == Min(resultbitlen, j + inputbitlen)
      invariant bc.Holds(row, Row(va, vb, i, |row|), r)
    {
      assert Row(va, vb, i, |row| + 1) == Row(va, vb, i, |row|) + [false];
      bc.HoldsSnoc(row, Row(va, vb, i, |row|), zerogate, false, r);
      row := row + [zerogate];
      j := j + 1;
    }
  }

  /** All rows, with one AND gate for every product of two bits that can matter. */
  method PutProductRows(bc: BooleanCircuit, a: seq<nat>, b: seq<nat>, zerogate: nat, resultbitlen: nat,
                        ghost va: seq<bool>, ghost vb: seq<bool>, ghost r: nat) returns (vAdds: seq<seq<nat>>)
    requires bc.Valid() && bc.Holds(a, va, r) && bc.Holds(b, vb, r) && |a| == |b| && resultbitlen <= 2 * |a|
    requires bc.Wire(zerogate) && !bc.Val(zerogate) && bc.ReadyAt(zerogate) <= r
    modifies bc
    ensures bc.Valid() && bc.Extends()
    ensures RowsHold(bc, vAdds, RowsOf(va, vb, |b|, resultbitlen), 0, |b|, resultbitlen, r + 1)
    ensures bc.AndCount() == old(bc.AndCount()) + Times(ProductAnds(|a|, |b|, resultbitlen), bc.width)
  {
    vAdds := [];
    for i := 0 to |b|
      invariant bc.Valid() && bc.Extends() && bc.Holds(a, va, r) && bc.Holds(b, vb, r)
      invariant bc.Wire(zerogate) && !bc.Val(zerogate) && bc.ReadyAt(zerogate) <= r
      invariant RowsHold(bc, vAdds, RowsOf(va, vb, i, resultbitlen), 0, i, resultbitlen, r + 1)
      invariant bc.AndCount() == old(bc.AndCount()) + Times(ProductAnds(|a|, i, resultbitlen), bc.width)
    {
      TimesAdd(ProductAnds(|a|, i, resultbitlen), RowAnds(|a|, i, resultbitlen), bc.width);
      var row := PutFullRow(bc, a, b[i], i, zerogate, resultbitlen, va, vb[i], r);
      vAdds := vAdds + [row];
    }
  }

  method PutFullRow(bc: BooleanCircuit, a: seq<nat>, bi: nat, i: nat, zerogate: nat, resultbitlen: nat,
                    ghost va: seq<bool>, ghost vb: bool, ghost r: nat) returns (row: seq<nat>)
    requires bc.Valid() && bc.Holds(a, va, r) && bc.Wire(bi) && bc.Val(bi) == vb && bc.ReadyAt(bi) <= r
    requires bc.Wire(zerogate) && !bc.Val(zerogate) && bc.ReadyAt(zerogate) <= r && i < |a| && resultbitlen <= 2 * |a|
    modifies bc
    ensures bc.Valid() && bc.Extends() && bc.Holds(row, Row(va, vb, i, resultbitlen), r + 1)
    ensures bc.AndCount() == old(bc.AndCount()) + Times(RowAnds(|a|, i, resultbitlen), bc.width)
  {
    row := PutProductRow(bc, a, bi, i, zerogate, resultbitlen, va, vb, r);
    row := FillRow(bc, row, zerogate, |a|, i, resultbitlen, va, vb, r + 1);
  }

  /** The tree of ripple adders works in place: rows below j are done, rows from i on are still to come. */
  ghost predicate TreeLive(bc: BooleanCircuit, rows: seq<seq<nat>>, vals: seq<seq<bool>>, j: nat, i: nat,
                           width: nat, total: nat, r: nat)
    reads bc
  {
    && j <= i <= |rows| && (i == 0 <==> j == 0) && width > 0
    && RowsHold(bc, rows, vals, 0, j, width, r + width + 1)
    && RowsHold(bc, rows, vals, i, |rows|, width, r)
    && Wrap(Total(vals, 0, j) + Total(vals, i, |vals|), width) == Wrap(total, width)
  }

  /** One row takes the place of another one, the sum of all is kept. */
  lemma TreeMove(vals: seq<seq<bool>>, j: nat, i: nat, width: nat, total: nat)
    requires j <= i < |vals| && Wrap(Total(vals, 0, j) + Total(vals, i, |vals|), width) == Wrap(total, width)
    ensures var moved := vals[j := vals[i]];
            Wrap(Total(moved, 0, j + 1) + Total(moved, i + 1, |moved|), width) == Wrap(total, width)
  {
    var moved := vals[j := vals[i]];
    TotalFront(vals, i, |vals|);
    TotalCong(vals, moved, 0, j);
    TotalCong(vals, moved, i + 1, |vals|);
  }

  /** The modular sum of two rows takes their place. */
  lemma TreeAdd(vals: seq<seq<bool>>, j: nat, i: nat, width: nat, total: nat)
    requires j <= i && i + 1 < |vals| && |vals[i]| == |vals[i + 1]| == width
    requires Wrap(Total(vals, 0, j) + Total(vals, i, |vals|), width) == Wrap(total, width)
    ensures var sums := vals[j := SumBits(vals[i], vals[i + 1])];
            Wrap(Total(sums, 0, j + 1) + Total(sums, i + 2, |sums|), width) == Wrap(total, width)
  {
    var x, y := vals[i], vals[i + 1];
    var sums := vals[j := SumBits(x, y)];
    TotalFront(vals, i, |vals|);
    TotalFront(vals, i + 1, |vals|);
    TotalCong(vals, sums, 0, j);
    TotalCong(vals, sums, i + 2, |vals|);
    SumBitsModular(x, y);
    WrapAdd(Num(x) + Num(y), Total(vals, 0, j) + Total(vals, i + 2, |vals|), width);
  }

  /** An odd row is carried over, a pair is replaced by its sum. */
  method PutTreeStep(bc: BooleanCircuit, rows0: seq<seq<nat>>, j: nat, i: nat, ghost vals0: seq<seq<bool>>,
                     ghost width: nat, ghost total: nat, ghost r: nat)
    returns (rows: seq<seq<nat>>, ghost vals: seq<seq<bool>>, next: nat)
    requires bc.Valid() && TreeLive(bc, rows0, vals0, j, i, width, total, r) && i < |rows0|
    modifies bc
    ensures bc.Valid() && bc.Extends() && |rows| == |rows0|
    ensures next == (if i + 1 >= |rows| then i + 1 else i + 2)
    ensures TreeLive(bc, rows, vals, j + 1, next, width, total, r)
    ensures bc.AndCount() == old(bc.AndCount()) + if next == i + 2 then Times(width - 1, bc.width) else 0
  {
    if i + 1 >= |rows0| {
      next := i + 1;
      rows, vals := rows0[j := rows0[i]], vals0[j := vals0[i]];
      TreeMove(vals0, j, i, width, total);
    } else {
      next := i + 2;
      rows, vals := PutTreeSum(bc, rows0, j, i, vals0, width, total, r);
    }
  }

  /** Two rows are replaced by their sum. */
  method PutTreeSum(bc: BooleanCircuit, rows0: seq<seq<nat>>, j: nat, i: nat, ghost vals0: seq<seq<bool>>,
                    ghost width: nat, ghost total: nat, ghost r: nat)
    returns (rows: seq<seq<nat>>, ghost vals: seq<seq<bool>>)
    requires bc.Valid() && TreeLive(bc, rows0, vals0, j, i, width, total, r) && i + 1 < |rows0|
    modifies bc
    ensures bc.Valid() && bc.Extends() && |rows| == |rows0|
    ensures TreeLive(bc, rows, vals, j + 1, i + 2, width, total, r)
    ensures bc.AndCount() == old(bc.AndCount()) + Times(width - 1, bc.width)
  {
    assert |vals0[i]| == |vals0[i + 1]| == width;
    var sum := PutRowAdder(bc, rows0[i], rows0[i + 1], vals0[i], vals0[i + 1], width, r);
    rows, vals := rows0[j := sum], vals0[j := SumBits(vals0[i], vals0[i + 1])];
    TreeAddRow(bc, rows0, vals0, sum, j, i, width, total, r);
  }

  method PutRowAdder(bc: BooleanCircuit, x: seq<nat>, y: seq<nat>, ghost vx: seq<bool>, ghost vy: seq<bool>, ghost width: nat, ghost r: nat)
    returns (sum: seq<nat>)
    requires bc.Valid() && bc.Holds(x, vx, r) && bc.Holds(y, vy, r) && |vx| == |vy| == width > 0
    modifies bc
    ensures bc.Valid() && bc.Extends() && bc.Holds(sum, SumBits(vx, vy), r + width + 1)
    ensures bc.AndCount() == old(bc.AndCount()) + Times(width - 1, bc.width)
  {
    sum := PutSizeOptimizedAddGate(bc, x, y, false, vx, vy, r);
  }

  lemma TreeAddRow(bc: BooleanCircuit, rows: seq<seq<nat>>, vals: seq<seq<bool>>, sum: seq<nat>, j: nat, i: nat, width: nat, total: nat, r: nat)
    requires TreeLive(bc, rows, vals, j, i, width, total, r) && i + 1 < |rows| && |vals[i]| == |vals[i + 1]| == width
    requires bc.Holds(sum, SumBits(vals[i], vals[i + 1]), r + width + 1)
    ensures TreeLive(bc, rows[j := sum], vals[j := SumBits(vals[i], vals[i + 1])], j + 1, i + 2, width, total, r)
  {
    TreeAdd(vals, j, i, width, total);
  }

  /** One level of the tree, in place. */
  method PutTreeLevel(bc: BooleanCircuit, survivors: seq<seq<nat>>, ghost vals0: seq<seq<bool>>, ghost width: nat, ghost r: nat)
    returns (rows: seq<seq<nat>>, ghost vals: seq<seq<bool>>)
    requires bc.Valid() && |survivors| > 1 && width > 0 && RowsHold(bc, survivors, vals0, 0, |survivors|, width, r)
    modifies bc
    ensures bc.Valid() && bc.Extends() && 0 < |rows| < |survivors| && 2 * |rows| <= |survivors| + 1
    ensures RowsHold(bc, rows, vals, 0, |rows|, width, r + width + 1)
    ensures Wrap(Total(vals, 0, |vals|), width) == Wrap(Total(vals0, 0, |vals0|), width)
    ensures bc.AndCount() == old(bc.AndCount()) + Times(|survivors| - |rows|, Times(width - 1, bc.width))
  {
    rows, vals := survivors, vals0;
    ghost var total := Total(vals0, 0, |vals0|);
    var j: nat, i: nat := 0, 0;
    while i < |rows|
      invariant bc.Valid() && bc.Extends() && |rows| == |survivors|
      invariant i == 2 * j || (i == |rows| && i + 1 == 2 * j)
      invariant TreeLive(bc, rows, vals, j, i, width, total, r)
      invariant bc.AndCount() == old(bc.AndCount()) + Times(i - j, Times(width - 1, bc.width))
      decreases |rows| - i
    {
      rows, vals, i := PutTreeStep(bc, rows, j, i, vals, width, total, r);
      j := j + 1;
    }
    LevelDone(bc, rows, vals, j, width, total, r);
    rows, vals := rows[..j], vals[..j];
  }

  /** The first j rows are what a level leaves. */
  lemma LevelDone(bc: BooleanCircuit, rows: seq<seq<nat>>, vals: seq<seq<bool>>, j: nat, width: nat, total: nat, r: nat)
    requires TreeLive(bc, rows, vals, j, |rows|, width, total, r)
    ensures RowsHold(bc, rows[..j], vals[..j], 0, j, width, r + width + 1)
    ensures Wrap(Total(vals[..j], 0, j), width) == Wrap(total, width)
  {
    TotalCong(vals, vals[..j], 0, j);
  }

  /** A balanced tree of ripple adders. */
  method PutWideAddGate(bc: BooleanCircuit, ins: seq<seq<nat>>, ghost vals0: seq<seq<bool>>, ghost width: nat, ghost r: nat)
    returns (out: seq<nat>, ghost ov: seq<bool>, ghost depth: nat)
    requires bc.Valid() && |ins| > 0 && width > 0 && RowsHold(bc, ins, vals0, 0, |ins|, width, r)
    modifies bc
    ensures bc.Valid() && bc.Extends() && |ov| == width && bc.Holds(out, ov, depth)
    ensures Num(ov) == Wrap(Total(vals0, 0, |vals0|), width)
    ensures depth <= r + CeilLog2(|ins|) * (width + 1)
    ensures bc.AndCount() == old(bc.AndCount()) + Times(|ins| - 1, Times(width - 1, bc.width))
  {
    var survivors := ins;
    ghost var vals := vals0;
    ghost var step: nat, todo: nat := width + 1, CeilLog2(|ins|);
    ghost var bound := r + todo * step;
    BudgetStart(|ins|, r, step);
    depth := r;
    while |survivors| > 1
      invariant Budget(|survivors|, depth, todo, step, bound)
      invariant bc.Valid() && bc.Extends() && |survivors| > 0
      invariant RowsHold(bc, survivors, vals, 0, |survivors|, width, depth) && |survivors| <= |ins|
      invariant bc.AndCount() == old(bc.AndCount()) + Times(|ins| - |survivors|, Times(width - 1, bc.width))
      invariant Wrap(Total(vals, 0, |vals|), width) == Wrap(Total(vals0, 0, |vals0|), width)
      decreases |survivors|
    {
      ghost var n := |survivors|;
      survivors, vals := PutTreeLevel(bc, survivors, vals, width, depth);
      BudgetNext(n, |survivors|, depth, todo, step, bound);
      TimesAdd(|ins| - n, n - |survivors|, Times(width - 1, bc.width));
      depth, todo := depth + step, todo - 1;
    }
    out, ov := survivors[0], vals[0];
    ValueBound(ov, width);
    assert Total(vals, 0, 1) == Num(ov);
  }

  // ----- partial products by vector AND ---------------------------------------------------

  function GateAll(a: seq<bool>, b: bool): (g: seq<bool>)
    ensures |g| == |a|
  {
    seq(|a|, t requires 0 <= t < |a| => a[t] && b)
  }

  /** All of a, gated by one bit with a single vector AND. */
  method PutGatedShare(bc: BooleanCircuit, a: seq<nat>, bi: nat, zerogate: nat, ghost va: seq<bool>, ghost vb: bool, ghost r: nat)
    returns (out: seq<nat>)
    requires bc.Valid() && bc.ctx.BOOL? && |a| > 0 && bc.Holds(a, va, r)
    requires bc.Wire(bi) && bc.Val(bi) == vb && bc.ReadyAt(bi) <= r
    requires bc.Wire(zerogate) && !bc.Val(zerogate) && bc.ReadyAt(zerogate) <= r
    modifies bc
    ensures bc.Valid() && bc.Extends() && bc.Holds(out, GateAll(va, vb), r + 1)
  {
    var ina, zero_share := [a], [seq(|a|, _ => zerogate)];
    assert FlatLen(ina, 1) == FlatLen(ina, 0) + |a|;
    var sout := PutMultiMUXGate(bc, ina, zero_share, bi, r);
    out := sout[0];
    assert |out| == |ina[0]|;
  }

  /** mulout: share i is a gated by bit i of b. */
  method PutGatedShares(bc: BooleanCircuit, a: seq<nat>, b: seq<nat>, zerogate: nat,
                        ghost va: seq<bool>, ghost vb: seq<bool>, ghost r: nat) returns (mulout: seq<seq<nat>>)
    requires bc.Valid() && bc.ctx.BOOL? && |a| > 0 && bc.Holds(a, va, r) && bc.Holds(b, vb, r)
    requires bc.Wire(zerogate) && !bc.Val(zerogate) && bc.ReadyAt(zerogate) <= r
    modifies bc
    ensures bc.Valid() && bc.Extends() && |mulout| == |b|
    ensures forall i {:trigger mulout[i]} | 0 <= i < |b| :: bc.Holds(mulout[i], GateAll(va, vb[i]), r + 1)
  {
    mulout := [];
    for i := 0 to |b|
      invariant bc.Valid() && bc.Extends() && bc.Holds(a, va, r) && bc.Holds(b, vb, r) && |mulout| == i
      invariant bc.Wire(zerogate) && !bc.Val(zerogate) && bc.ReadyAt(zerogate) <= r
      invariant forall k {:trigger mulout[k]} | 0 <= k < i :: bc.Holds(mulout[k], GateAll(va, vb[k]), r + 1)
    {
      var share := PutGatedShare(bc, a, b[i], zerogate, va, vb[i], r);
      mulout := mulout + [share];
    }
  }

  /** Row i of the vector mode takes wire i of every share, so the roles of a and b are swapped. */
  method CollectRow(bc: BooleanCircuit, mulout: seq<seq<nat>>, i: nat, zerogate: nat, resultbitlen: nat,
                    ghost va: seq<bool>, ghost vb: seq<bool>, ghost r: nat) returns (row: seq<nat>)
    requires bc.Valid() && i < |va| && |mulout| == |vb|
    requires forall k {:trigger mulout[k]} | 0 <= k < |vb| :: bc.Holds(mulout[k], GateAll(va, vb[k]), r)
    requires bc.Wire(zerogate) && !bc.Val(zerogate) && bc.ReadyAt(zerogate) <= r
    ensures |row| == Min(resultbitlen, i + |vb|) && bc.Holds(row, Row(vb, va[i], i, |row|), r)
  {
    row := seq(Min(i, resultbitlen), _ => zerogate);
    var j := 0;
    while j < |mulout| && |row| < resultbitlen
      invariant j <= |mulout| && |row| == Min(i + j, resultbitlen)
      invariant bc.Holds(row, Row(vb, va[i], i, |row|), r)
    {
      assert Row(vb, va[i], i, |row| + 1) == Row(vb, va[i], i, |row|) + [vb[j] && va[i]];
      assert bc.Holds(mulout[j], GateAll(va, vb[j]), r);
      bc.HoldsSnoc(row, Row(vb, va[i], i, |row|), mulout[j][i], vb[j] && va[i], r);
      row := row + [mulout[j][i]];
      j := j + 1;
    }
  }

  /** The rows of the vector mode. */
  method CollectRows(bc: BooleanCircuit, mulout: seq<seq<nat>>, inputbitlen: nat, zerogate: nat, resultbitlen: nat,
                     ghost va: seq<bool>, ghost vb: seq<bool>, ghost r: nat) returns (vAdds: seq<seq<nat>>)
    requires bc.Valid() && |va| == |vb| == |mulout| == inputbitlen && resultbitlen <= 2 * inputbitlen
    requires forall k {:trigger mulout[k]} | 0 <= k < |vb| :: bc.Holds(mulout[k], GateAll(va, vb[k]), r)
    requires bc.Wire(zerogate) && !bc.Val(zerogate) && bc.ReadyAt(zerogate) <= r
    ensures RowsHold(bc, vAdds, RowsOf(vb, va, inputbitlen, resultbitlen), 0, inputbitlen, resultbitlen, r)
  {
    vAdds := [];
    for i := 0 to inputbitlen
      invariant RowsHold(bc, vAdds, RowsOf(vb, va, i, resultbitlen), 0, i, resultbitlen, r)
    {
      var row := CollectRow(bc, mulout, i, zerogate, resultbitlen, va, vb, r);
      row := FillRow(bc, row, zerogate, inputbitlen, i, resultbitlen, vb, va[i], r);
      vAdds := vAdds + [row];
    }
  }

  /** The rows of either mode: their sum is the product. */
  method PutPartialProducts(bc: BooleanCircuit, a: seq<nat>, b: seq<nat>, zerogate: nat, resultbitlen: nat, vector_ands: bool,
                            ghost va: seq<bool>, ghost vb: seq<bool>, ghost r: nat)
    returns (vAdds: seq<seq<nat>>, ghost rows: seq<seq<bool>>)
    requires bc.Valid() && |a| == |b| > 0 && bc.Holds(a, va, r) && bc.Holds(b, vb, r) && resultbitlen <= 2 * |a|
    requires bc.Wire(zerogate) && !bc.Val(zerogate) && bc.ReadyAt(zerogate) <= r
    modifies bc
    ensures bc.Valid() && bc.Extends() && |vAdds| == |a|
    ensures RowsHold(bc, vAdds, rows, 0, |a|, resultbitlen, r + 1)
    ensures Wrap(Total(rows, 0, |rows|), resultbitlen) == Wrap(Num(va) * Num(vb), resultbitlen)
    ensures !(bc.ctx.BOOL? && vector_ands) ==>
              bc.AndCount() == old(bc.AndCount()) + Times(ProductAnds(|a|, |a|, resultbitlen), bc.width)
  {
    if bc.ctx.BOOL? && vector_ands {
      var mulout := PutGatedShares(bc, a, b, zerogate, va, vb, r);
      vAdds := CollectRows(bc, mulout, |a|, zerogate, resultbitlen, va, vb, r + 1);
      rows := RowsOf(vb, va, |a|, resultbitlen);
      RowsProductSwapped(va, vb, resultbitlen);
    } else {
      vAdds := PutProductRows(bc, a, b, zerogate, resultbitlen, va, vb, r);
      rows := RowsOf(va, vb, |b|, resultbitlen);
      RowsProduct(va, vb, resultbitlen);
    }
  }

  /** Rounds that adding k rows of a width takes at most: a carry-save network and a prefix adder, or a tree of ripple adders. */
  function SumRounds(depth_optimized: bool, k: nat, width: nat): nat
    requires k >= 2 && width > 0
  {
    if depth_optimized then CeilLog2(k) * CeilLog2(k) + 1 + CeilLog2(width) else CeilLog2(k) * (width + 1)
  }

  /** The rows are added by a carry-save network and a prefix adder, or by a tree of ripple adders. */
  method PutRowSum(bc: BooleanCircuit, vAdds: seq<seq<nat>>, depth_optimized: bool,
                   ghost rows: seq<seq<bool>>, ghost width: nat, ghost r: nat)
    returns (out: seq<nat>, ghost ov: seq<bool>, ghost depth: nat)
    requires bc.Valid() && |vAdds| >= 2 && width > 0 && RowsHold(bc, vAdds, rows, 0, |vAdds|, width, r)
    modifies bc
    ensures bc.Valid() && bc.Extends() && |ov| == width && bc.Holds(out, ov, depth)
    ensures Num(ov) == Wrap(Total(rows, 0, |rows|), width)
    ensures depth <= r + SumRounds(depth_optimized, |vAdds|, width)
    ensures !depth_optimized ==> bc.AndCount() == old(bc.AndCount()) + Times(|vAdds| - 1, Times(width - 1, bc.width))
  {
    if depth_optimized {
      var pair, pv, d := PutCSNNetwork(bc, vAdds, rows, width, r);
      out := PutDepthOptimizedAddGate(bc, pair[0], pair[1], false, false, pv[0], pv[1], d);
      ov, depth := SumBits(pv[0], pv[1]), d + 1 + CeilLog2(width);
      SumBitsModular(pv[0], pv[1]);
      NetLog(|vAdds|);
    } else {
      out, ov, depth := PutWideAddGate(bc, vAdds, rows, width, r);
    }
  }

  lemma OneBitNum(a: seq<bool>)
    requires |a| == 1
    ensures Num(a) == Bit(a[0])
  {
    assert Value(a, 0) == 0 && Pow2(0) == 1;
  }

  lemma OneBitProduct(a: seq<bool>, b: seq<bool>)
    requires |a| == |b| == 1
    ensures Num(AndBits(a, b)) == Wrap(Num(a) * Num(b), 1)
  {
    OneBitNum(a);
    OneBitNum(b);
    OneBitNum(AndBits(a, b));
    assert Pow2(1) == 2;
  }

  /** The product modulo 2^resultbitlen, or the single product bit for operands of one bit. */
  method PutMulGate(bc: BooleanCircuit, a0: seq<nat>, b0: seq<nat>, resultbitlen0: nat, depth_optimized: bool, vector_ands: bool,
                    ghost va0: seq<bool>, ghost vb0: seq<bool>, ghost r: nat)
    returns (out: seq<nat>, ghost ov: seq<bool>, ghost depth: nat)
    requires bc.Valid() && bc.Holds(a0, va0, r) && bc.Holds(b0, vb0, r) && |a0| > 0 && |b0| > 0 && resultbitlen0 > 0
    modifies bc
    ensures bc.Valid() && bc.Extends() && bc.Holds(out, ov, depth)
    ensures |ov| == if Max(|a0|, |b0|) == 1 then 1 else Min(resultbitlen0, 2 * Max(|a0|, |b0|))
    ensures Num(ov) == Num(va0) * Num(vb0) % Pow2(|ov|)
    ensures var n, levels := Max(|a0|, |b0|), CeilLog2(Max(|a0|, |b0|));
            depth <= r + 1 + if n == 1 then 0 else if depth_optimized then levels * levels + 1 + CeilLog2(|ov|) else levels * (|ov| + 1)
    ensures !depth_optimized && !(bc.ctx.BOOL? && vector_ands) ==>
              var n := Max(|a0|, |b0|);
              bc.AndCount() == old(bc.AndCount()) + Times(ProductAnds(n, n, |ov|), bc.width) + Times(n - 1, Times(|ov| - 1, bc.width))
  {
    var a, b := PadWithLeadingZeros(bc, a0, b0, va0, vb0, r);
    ghost var va, vb := Pad(va0, |vb0|), Pad(vb0, |va0|);
    var inputbitlen := |a|;
    if inputbitlen == 1 {
      out := PutANDGates(bc, a, b, va, vb, r);
      ov, depth := AndBits(va, vb), r + 1;
      OneBitProduct(va, vb);
      WrapIsMod(Num(va0) * Num(vb0), 1);
      return;
    }
    var zerogate := bc.PutConstantGate(false, a[0]);
    var resultbitlen := Min(resultbitlen0, 2 * inputbitlen);
    ghost var rows;
    var vAdds;
    vAdds, rows := PutPartialProducts(bc, a, b, zerogate, resultbitlen, vector_ands, va, vb, r);
    out, ov, depth := PutRowSum(bc, vAdds, depth_optimized, rows, resultbitlen, r + 1);
    WrapIsMod(Num(va0) * Num(vb0), resultbitlen);
  }
}
