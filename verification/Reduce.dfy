/** Reductions of a list by a balanced tree that compacts its elements in place. */
module ReduceSpec {
  import opened Bits
  import opened Words

  ghost predicate Associative<T(!new)>(op: (T, T) -> T) {
    forall x, y, z :: op(op(x, y), z) == op(x, op(y, z))
  }

  /** The left fold of elements lo..hi. */
  function Fold<T>(vals: seq<T>, op: (T, T) -> T, lo: nat, hi: nat): T
    requires lo < hi <= |vals|
    decreases hi
  {
    if hi == lo + 1 then vals[lo] else op(Fold(vals, op, lo, hi - 1), vals[hi - 1])
  }

  /** The fold of one element is that element; together with the fold of two parts this determines all folds. */
  lemma FoldOne<T>(vals: seq<T>, op: (T, T) -> T, k: nat)
    requires k < |vals|
    ensures Fold(vals, op, k, k + 1) == vals[k]
  {
  }

  /** Folded with addition, numbers become their sum. */
  lemma {:induction false} FoldAdds(vals: seq<int>, op: (int, int) -> int, n: nat)
    requires 0 < n <= |vals| && forall x, y :: op(x, y) == x + y
    ensures Associative(op) && Fold(vals, op, 0, n) == Sum(vals[..n])
  {
    assert vals[..n][..n - 1] == vals[..n - 1];
    if n == 1 {
      SumOf(vals[0]);
    } else {
      FoldAdds(vals, op, n - 1);
    }
  }

  lemma {:induction false} FoldSplit<T(!new)>(vals: seq<T>, op: (T, T) -> T, lo: nat, mid: nat, hi: nat)
    requires Associative(op) && lo < mid < hi <= |vals|
    ensures Fold(vals, op, lo, hi) == op(Fold(vals, op, lo, mid), Fold(vals, op, mid, hi))
    decreases hi
  {
    if mid + 1 < hi {
      FoldSplit(vals, op, lo, mid, hi - 1);
    }
  }

  /** Boundaries of the blocks that the elements of a level stand for. */
  ghost predicate Blocks(cuts: seq<nat>, n: nat) {
    && |cuts| > 0 && cuts[0] == 0
    && (forall j {:trigger cuts[j]} | 0 <= j < |cuts| :: cuts[j] <= n && (j > 0 ==> cuts[j - 1] < cuts[j]))
  }

  /** The tree fold equals the left fold whenever the operation is associative. */
  method BinaryAccumulate<T(!new)>(vals0: seq<T>, op: (T, T) -> T) returns (r: T)
    requires |vals0| > 0
    ensures Associative(op) ==> r == Fold(vals0, op, 0, |vals0|)
    ensures |vals0| == 1 ==> r == vals0[0]
  {
    var vals, n := vals0, |vals0|;
    ghost var cuts: seq<nat> := seq(n + 1, k requires 0 <= k => k);
    while n > 1
      invariant 0 < n <= |vals| && (|vals0| == 1 ==> vals == vals0)
      invariant Blocks(cuts, |vals0|) && |cuts| == n + 1 && cuts[n] == |vals0|
      invariant Associative(op) ==> Folded(vals0, vals, op, cuts, 0, n)
      decreases n
    {
      vals, n, cuts := AccumulateLevel(vals0, vals, n, op, cuts);
    }
    r := vals[0];
  }

  /** The first j elements are new, those from i on still belong to the level before. */
  ghost predicate FoldLive<T(!new)>(vals0: seq<T>, vals: seq<T>, op: (T, T) -> T, done: seq<nat>, cuts: seq<nat>,
                                    j: nat, i: nat, n: nat)
  {
    && j <= i <= n <= |vals| && |done| == j + 1 && |cuts| == n + 1 && done[j] == cuts[i] && (j == 0 <==> i == 0)
    && Blocks(cuts, |vals0|) && Blocks(done, |vals0|)
    && (Associative(op) ==> Folded(vals0, vals, op, done, 0, j) && Folded(vals0, vals, op, cuts, i, n))
  }

  /** Elements lo to hi are the folds of their blocks. */
  ghost predicate Folded<T(!new)>(vals0: seq<T>, vals: seq<T>, op: (T, T) -> T, cuts: seq<nat>, lo: nat, hi: nat) {
    && Blocks(cuts, |vals0|) && hi < |cuts| && hi <= |vals|
    && forall k: nat | lo <= k < hi :: vals[k] == Fold(vals0, op, cuts[k], cuts[k + 1])
  }

  method AccumulateLevel<T(!new)>(ghost vals0: seq<T>, before: seq<T>, n: nat, op: (T, T) -> T, ghost cuts: seq<nat>)
    returns (vals: seq<T>, j: nat, ghost done: seq<nat>)
    requires 1 < n <= |before| && Blocks(cuts, |vals0|) && |cuts| == n + 1 && cuts[n] == |vals0|
    requires Associative(op) ==> Folded(vals0, before, op, cuts, 0, n)
    ensures 0 < j < n <= |vals| && Blocks(done, |vals0|) && |done| == j + 1 && done[j] == |vals0|
    ensures Associative(op) ==> Folded(vals0, vals, op, done, 0, j)
  {
    vals, j, done := before, 0, [0];
    var i: nat := 0;
    while i < n
      invariant i == 2 * j || (i == n && i + 1 == 2 * j)
      invariant FoldLive(vals0, vals, op, done, cuts, j, i, n)
      decreases n - i
    {
      var next := if i + 1 >= n then i + 1 else i + 2;
      var v := if i + 1 >= n then vals[i] else op(vals[i], vals[i + 1]);
      FoldAdvance(vals0, vals, op, done, cuts, j, i, n, next, v);
      vals, done := vals[j := v], done + [cuts[next]];
      i, j := next, j + 1;
    }
  }

  lemma FoldAdvance<T(!new)>(vals0: seq<T>, vals: seq<T>, op: (T, T) -> T, done: seq<nat>, cuts: seq<nat>,
                             j: nat, i: nat, n: nat, next: nat, v: T)
    requires FoldLive(vals0, vals, op, done, cuts, j, i, n) && i < next <= n
    requires (next == i + 1 && v == vals[i]) || (next == i + 2 && v == op(vals[i], vals[i + 1]))
    ensures FoldLive(vals0, vals[j := v], op, done + [cuts[next]], cuts, j + 1, next, n)
  {
    MoreBlocks(done, cuts, j, i, next, |vals0|);
    if Associative(op) {
      FoldedPair(vals0, vals, op, cuts, i, n, next, v);
      FoldedFront(vals0, vals, op, done, cuts[next], j, v);
      FoldedRest(vals0, vals, op, cuts, j, i, next, n, v);
    }
  }

  lemma FoldedRest<T(!new)>(vals0: seq<T>, vals: seq<T>, op: (T, T) -> T, cuts: seq<nat>, j: nat, i: nat, next: nat, n: nat, v: T)
    requires Folded(vals0, vals, op, cuts, i, n) && j <= i < next <= n
    ensures Folded(vals0, vals[j := v], op, cuts, next, n)
  {
  }

  /** One more element, behind those that are done. */
  lemma FoldedFront<T(!new)>(vals0: seq<T>, vals: seq<T>, op: (T, T) -> T, done: seq<nat>, cut: nat, j: nat, v: T)
    requires |done| == j + 1 && j < |vals| && done[j] < cut <= |vals0| && v == Fold(vals0, op, done[j], cut) && Blocks(done + [cut], |vals0|)
    requires Folded(vals0, vals, op, done, 0, j)
    ensures Folded(vals0, vals[j := v], op, done + [cut], 0, j + 1)
  {
    var more := done + [cut];
    forall k: nat | k < j + 1
      ensures more[k] < more[k + 1] && vals[j := v][k] == Fold(vals0, op, more[k], more[k + 1])
    {
      if k < j {
        assert done[k] < done[k + 1] && vals[k] == Fold(vals0, op, done[k], done[k + 1]);
      }
    }
  }

  /** The new element is the fold of its block. */
  lemma FoldedPair<T(!new)>(vals0: seq<T>, vals: seq<T>, op: (T, T) -> T, cuts: seq<nat>, i: nat, n: nat, next: nat, v: T)
    requires Associative(op) && Blocks(cuts, |vals0|) && |cuts| == n + 1 && i < next <= n <= |vals|
    requires (next == i + 1 && v == vals[i]) || (next == i + 2 && v == op(vals[i], vals[i + 1]))
    requires Folded(vals0, vals, op, cuts, i, n)
    ensures v == Fold(vals0, op, cuts[i], cuts[next])
  {
    assert cuts[i] < cuts[i + 1];
    if next == i + 2 {
      assert cuts[i + 1] < cuts[i + 2];
      FoldSplit(vals0, op, cuts[i], cuts[i + 1], cuts[i + 2]);
    }
  }

  lemma MoreBlocks(done: seq<nat>, cuts: seq<nat>, j: nat, i: nat, next: nat, n: nat)
    requires Blocks(done, n) && Blocks(cuts, n) && |done| == j + 1 && i < next < |cuts| && next <= i + 2 && done[j] == cuts[i]
    ensures Blocks(done + [cuts[next]], n)
  {
    assert cuts[i] < cuts[i + 1];
    if next == i + 2 {
      assert cuts[i + 1] < cuts[i + 2];
    }
  }

  // ----- extreme values -------------------------------------------------------------------

  /** x is strictly better than y. */
  predicate Beats(min: bool, x: seq<bool>, y: seq<bool>) {
    if min then Num(x) < Num(y) else Num(x) > Num(y)
  }

  /** Position of the extreme value among elements lo..hi, the leftmost if it occurs more than once. */
  function ArgBest(min: bool, vals: seq<seq<bool>>, lo: nat, hi: nat): (m: nat)
    requires lo < hi <= |vals|
    ensures lo <= m < hi
    decreases hi
  {
    if hi == lo + 1 then lo
    else
      var m := ArgBest(min, vals, lo, hi - 1);
      if Beats(min, vals[hi - 1], vals[m]) then hi - 1 else m
  }

  /** No element is better, and every earlier one is strictly worse. */
  lemma {:induction false} ArgBestLeftmost(min: bool, vals: seq<seq<bool>>, lo: nat, hi: nat)
    requires lo < hi <= |vals|
    ensures var m := ArgBest(min, vals, lo, hi);
            && (forall k | lo <= k < hi :: if min then Num(vals[m]) <= Num(vals[k]) else Num(vals[m]) >= Num(vals[k]))
            && (forall k | lo <= k < m :: if min then Num(vals[m]) < Num(vals[k]) else Num(vals[m]) > Num(vals[k]))
    decreases hi
  {
    if lo + 1 < hi {
      ArgBestLeftmost(min, vals, lo, hi - 1);
    }
  }

  lemma {:induction false} ArgBestSplit(min: bool, vals: seq<seq<bool>>, lo: nat, mid: nat, hi: nat)
    requires lo < mid < hi <= |vals|
    ensures var l, h := ArgBest(min, vals, lo, mid), ArgBest(min, vals, mid, hi);
            ArgBest(min, vals, lo, hi) == if Beats(min, vals[h], vals[l]) then h else l
    decreases hi
  {
    if mid + 1 < hi {
      ArgBestSplit(min, vals, lo, mid, hi - 1);
    }
  }
}

/** The arg-min and arg-max reductions of the Boolean circuit builder. */
module Extremes {
  import opened Bits
  import opened Addition
  import opened ComparisonSpec
  import opened ReduceSpec
  import opened Circuit
  import opened Builder
  import opened MultiMux
  import opened CarrySave
  import opened Compare

  /** Rounds of one comparison and one selection. */
  function StepRounds(ctx: Sharing, width: nat): nat
    requires width > 0
  {
    if ctx.BOOL? then CeilLog2(width) + 2 else width + 1
  }

  /** The comparator of the sharing: a > b. */
  method PutCmp(bc: BooleanCircuit, a: seq<nat>, b: seq<nat>, ghost va: seq<bool>, ghost vb: seq<bool>, ghost r: nat)
    returns (cmp: nat)
    requires bc.Valid() && bc.Holds(a, va, r) && bc.Holds(b, vb, r) && |a| == |b| > 0
    modifies bc
    ensures bc.Valid() && bc.Extends() && bc.Wire(cmp) && bc.Val(cmp) == (Num(va) > Num(vb))
    ensures bc.ReadyAt(cmp) < r + StepRounds(bc.ctx, |a|)
  {
    if bc.ctx.BOOL? {
      cmp := PutDepthOptimizedGTGate(bc, a, b, va, vb, r);
    } else {
      cmp := PutSizeOptimizedGTGate(bc, a, b, va, vb, r);
    }
  }

  /** Value and id from the first pair where the selector is one, from the second elsewhere. */
  method PutSelectPair(bc: BooleanCircuit, a: seq<nat>, aid: seq<nat>, b: seq<nat>, bid: seq<nat>, cmp: nat,
                       ghost va: seq<bool>, ghost ia: seq<bool>, ghost vb: seq<bool>, ghost ib: seq<bool>, ghost r: nat)
    returns (out: seq<nat>, oid: seq<nat>)
    requires bc.Valid() && bc.Holds(a, va, r) && bc.Holds(aid, ia, r) && bc.Holds(b, vb, r) && bc.Holds(bid, ib, r)
    requires |a| == |b| > 0 && |aid| == |bid| > 0 && bc.Wire(cmp) && bc.ReadyAt(cmp) <= r
    modifies bc
    ensures bc.Valid() && bc.Extends()
    ensures bc.Holds(out, if old(bc.Val(cmp)) then va else vb, r + 1)
    ensures bc.Holds(oid, if old(bc.Val(cmp)) then ia else ib, r + 1)
  {
    if bc.ctx.BOOL? {
      var vala, valb := [a, aid], [b, bid];
      assert FlatLen(vala, 2) == FlatLen(vala, 1) + |aid|;
      var sout := PutMultiMUXGate(bc, vala, valb, cmp, r);
      out, oid := sout[0], sout[1];
      assert |out| == |vala[0]| && |oid| == |vala[1]|;
    } else {
      out := PutMUXGate(bc, a, b, cmp, va, vb, r);
      oid := PutMUXGate(bc, aid, bid, cmp, ia, ib, r);
    }
  }

  /** Values and ids of common widths. */
  predicate Uniform(vals: seq<seq<bool>>, idVals: seq<seq<bool>>, width: nat, idWidth: nat) {
    && |vals| == |idVals| > 0 && width > 0 && idWidth > 0
    && (forall k | 0 <= k < |vals| :: |vals[k]| == width)
    && (forall k | 0 <= k < |idVals| :: |idVals[k]| == idWidth)
  }

  /** Element k of a level is the best value of block k, with the id that belongs to it. */
  predicate Element(vals: seq<seq<bool>>, idVals: seq<seq<bool>>, min: bool, cuts: seq<nat>,
                    bests: seq<seq<bool>>, bestIds: seq<seq<bool>>, k: nat)
    requires k < |bests| && k < |bestIds| && k + 1 < |cuts|
  {
    && cuts[k] < cuts[k + 1] <= |vals| == |idVals|
    && bests[k] == vals[ArgBest(min, vals, cuts[k], cuts[k + 1])]
    && bestIds[k] == idVals[ArgBest(min, vals, cuts[k], cuts[k + 1])]
  }

  ghost predicate Elements(vals: seq<seq<bool>>, idVals: seq<seq<bool>>, min: bool, cuts: seq<nat>,
                           bests: seq<seq<bool>>, bestIds: seq<seq<bool>>, lo: nat, hi: nat) {
    && Blocks(cuts, |vals|) && hi <= |bests| && hi <= |bestIds| && lo <= hi < |cuts|
    && forall k: nat {:trigger Element(vals, idVals, min, cuts, bests, bestIds, k)} | lo <= k < hi ::
         Element(vals, idVals, min, cuts, bests, bestIds, k)
  }

  /** While a level is under way the first j elements are new, those from i on belong to the level before. */
  ghost predicate BestLive(vals: seq<seq<bool>>, idVals: seq<seq<bool>>, min: bool, done: seq<nat>, cuts: seq<nat>,
                           bests: seq<seq<bool>>, bestIds: seq<seq<bool>>, j: nat, i: nat, n: nat) {
    && j <= i <= n && |done| == j + 1 && |cuts| == n + 1 && done[j] == cuts[i] && (j == 0 <==> i == 0)
    && Elements(vals, idVals, min, done, bests, bestIds, 0, j)
    && Elements(vals, idVals, min, cuts, bests, bestIds, i, n)
  }

  /** The right one of two neighbours is taken only if it is strictly better. */
  predicate TakesRight(min: bool, bests: seq<seq<bool>>, i: nat)
    requires i < |bests|
  {
    i + 1 < |bests| && Beats(min, bests[i + 1], bests[i])
  }

  /** What is kept of two neighbours, or of a lone last element. */
  function Winner(min: bool, bests: seq<seq<bool>>, of: seq<seq<bool>>, i: nat): seq<bool>
    requires i < |bests| == |of|
  {
    if TakesRight(min, bests, i) then of[i + 1] else of[i]
  }

  /** The element behind the pair that begins at i. */
  function NextPair(i: nat, n: nat): nat {
    if i + 1 >= n then i + 1 else i + 2
  }

  lemma BestAdvance(vals: seq<seq<bool>>, idVals: seq<seq<bool>>, min: bool, done: seq<nat>, cuts: seq<nat>,
                    bests: seq<seq<bool>>, bestIds: seq<seq<bool>>, j: nat, i: nat, n: nat)
    requires BestLive(vals, idVals, min, done, cuts, bests, bestIds, j, i, n) && i < n == |bests| == |bestIds|
    ensures BestLive(vals, idVals, min, done + [cuts[NextPair(i, n)]], cuts, bests[j := Winner(min, bests, bests, i)],
                     bestIds[j := Winner(min, bests, bestIds, i)], j + 1, NextPair(i, n), n)
  {
    var pair, next := i + 1 < n, NextPair(i, n);
    var done2 := done + [cuts[next]];
    var bests2, bestIds2 := bests[j := Winner(min, bests, bests, i)], bestIds[j := Winner(min, bests, bestIds, i)];
    assert Element(vals, idVals, min, cuts, bests, bestIds, i);
    if pair {
      assert Element(vals, idVals, min, cuts, bests, bestIds, i + 1);
      ArgBestSplit(min, vals, cuts[i], cuts[i + 1], cuts[i + 2]);
    }
    assert Element(vals, idVals, min, done2, bests2, bestIds2, j);
    forall k: nat | k < j
      ensures Element(vals, idVals, min, done2, bests2, bestIds2, k)
    {
      assert Element(vals, idVals, min, done, bests, bestIds, k);
    }
    forall k: nat | next <= k < n
      ensures Element(vals, idVals, min, cuts, bests2, bestIds2, k)
    {
      assert Element(vals, idVals, min, cuts, bests, bestIds, k);
    }
  }

  /** Rows that are done carry their bits from round r2 on, rows still to come from round r on. */
  ghost predicate LevelRows(bc: BooleanCircuit, rows: seq<seq<nat>>, bits: seq<seq<bool>>, j: nat, i: nat, width: nat,
                            r: nat, r2: nat)
    reads bc
  {
    j <= i && RowsHold(bc, rows, bits, 0, j, width, r2) && RowsHold(bc, rows, bits, i, |rows|, width, r)
  }

  /** The better of two neighbours; the left one unless the right one is strictly better. */
  method PutBetter(bc: BooleanCircuit, a: seq<nat>, aid: seq<nat>, b: seq<nat>, bid: seq<nat>, min: bool,
                   ghost va: seq<bool>, ghost ia: seq<bool>, ghost vb: seq<bool>, ghost ib: seq<bool>, ghost r: nat)
    returns (out: seq<nat>, oid: seq<nat>)
    requires bc.Valid() && bc.Holds(a, va, r) && bc.Holds(aid, ia, r) && bc.Holds(b, vb, r) && bc.Holds(bid, ib, r)
    requires |a| == |b| > 0 && |aid| == |bid| > 0
    modifies bc
    ensures bc.Valid() && bc.Extends()
    ensures bc.Holds(out, if Beats(min, vb, va) then vb else va, r + StepRounds(bc.ctx, |a|))
    ensures bc.Holds(oid, if Beats(min, vb, va) then ib else ia, r + StepRounds(bc.ctx, |a|))
  {
    var cmp;
    if min {
      cmp := PutCmp(bc, a, b, va, vb, r);
    } else {
      cmp := PutCmp(bc, b, a, vb, va, r);
    }
    out, oid := PutSelectPair(bc, b, bid, a, aid, cmp, vb, ib, va, ia, r + StepRounds(bc.ctx, |a|) - 1);
  }

  /** A lone last element is carried over, two neighbours are replaced by the better one. */
  method PutBestStep(bc: BooleanCircuit, elms: seq<seq<nat>>, ids: seq<seq<nat>>, min: bool, j: nat, i: nat,
                     ghost bests: seq<seq<bool>>, ghost bestIds: seq<seq<bool>>, ghost width: nat, ghost idWidth: nat, ghost r: nat)
    returns (elm: seq<nat>, id: seq<nat>, next: nat)
    requires bc.Valid() && |elms| == |ids| && i < |elms| && width > 0 && idWidth > 0
    requires LevelRows(bc, elms, bests, j, i, width, r, r + StepRounds(bc.ctx, width))
    requires LevelRows(bc, ids, bestIds, j, i, idWidth, r, r + StepRounds(bc.ctx, width))
    modifies bc
    ensures bc.Valid() && bc.Extends() && next == NextPair(i, |elms|)
    ensures bc.Holds(elm, Winner(min, bests, bests, i), r + StepRounds(bc.ctx, width))
    ensures bc.Holds(id, Winner(min, bests, bestIds, i), r + StepRounds(bc.ctx, width))
  {
    elm, id := elms[i], ids[i];
    next := if i + 1 >= |elms| then i + 1 else i + 2;
    if i + 1 < |elms| {
      assert bc.Holds(elms[i + 1], bests[i + 1], r) && bc.Holds(ids[i + 1], bestIds[i + 1], r);
      elm, id := PutBetter(bc, elm, id, elms[i + 1], ids[i + 1], min,
                           bests[i], bestIds[i], bests[i + 1], bestIds[i + 1], r);
    }
  }

  /** One step of a level: the new element is stored in place. */
  method PutBestInPlace(bc: BooleanCircuit, elms0: seq<seq<nat>>, ids0: seq<seq<nat>>, min: bool, j: nat, i: nat,
                        ghost vals: seq<seq<bool>>, ghost idVals: seq<seq<bool>>, ghost bests0: seq<seq<bool>>,
                        ghost bestIds0: seq<seq<bool>>, ghost done0: seq<nat>, ghost cuts: seq<nat>,
                        ghost width: nat, ghost idWidth: nat, ghost r: nat)
    returns (elms: seq<seq<nat>>, ids: seq<seq<nat>>, next: nat,
             ghost bests: seq<seq<bool>>, ghost bestIds: seq<seq<bool>>, ghost done: seq<nat>)
    requires bc.Valid() && |elms0| == |ids0| && i < |elms0| && width > 0 && idWidth > 0
    requires LevelRows(bc, elms0, bests0, j, i, width, r, r + StepRounds(bc.ctx, width))
    requires LevelRows(bc, ids0, bestIds0, j, i, idWidth, r, r + StepRounds(bc.ctx, width))
    requires BestLive(vals, idVals, min, done0, cuts, bests0, bestIds0, j, i, |elms0|)
    modifies bc
    ensures bc.Valid() && bc.Extends() && |elms| == |ids| == |elms0|
    ensures next == NextPair(i, |elms|)
    ensures LevelRows(bc, elms, bests, j + 1, next, width, r, r + StepRounds(bc.ctx, width))
    ensures LevelRows(bc, ids, bestIds, j + 1, next, idWidth, r, r + StepRounds(bc.ctx, width))
    ensures BestLive(vals, idVals, min, done, cuts, bests, bestIds, j + 1, next, |elms|)
  {
    var elm, id;
    elm, id, next := PutBestStep(bc, elms0, ids0, min, j, i, bests0, bestIds0, width, idWidth, r);
    BestAdvance(vals, idVals, min, done0, cuts, bests0, bestIds0, j, i, |elms0|);
    ghost var best, bestId, r2 := Winner(min, bests0, bests0, i), Winner(min, bests0, bestIds0, i), r + StepRounds(bc.ctx, width);
    elms, ids, done := elms0[j := elm], ids0[j := id], done0 + [cuts[next]];
    bests, bestIds := bests0[j := best], bestIds0[j := bestId];
    LevelUpdate(bc, elms0, bests0, j, i, width, r, r2, next, elm, best);
    LevelUpdate(bc, ids0, bestIds0, j, i, idWidth, r, r2, next, id, bestId);
  }

  lemma LevelUpdate(bc: BooleanCircuit, rows: seq<seq<nat>>, bits: seq<seq<bool>>, j: nat, i: nat, width: nat,
                    r: nat, r2: nat, next: nat, row: seq<nat>, val: seq<bool>)
    requires LevelRows(bc, rows, bits, j, i, width, r, r2) && i < next <= |rows|
    requires |val| == width && bc.Holds(row, val, r2)
    ensures LevelRows(bc, rows[j := row], bits[j := val], j + 1, next, width, r, r2)
  {
  }

  /** The elements of a level are the best values of the blocks of the list, with the ids that belong to them. */
  ghost predicate LevelHolds(bc: BooleanCircuit, elms: seq<seq<nat>>, ids: seq<seq<nat>>, vals: seq<seq<bool>>, idVals: seq<seq<bool>>, min: bool,
                             cuts: seq<nat>, bests: seq<seq<bool>>, bestIds: seq<seq<bool>>, width: nat, idWidth: nat, r: nat)
    reads bc
  {
    && |elms| == |ids| > 0 && |cuts| == |elms| + 1 && cuts[|elms|] == |vals|
    && Elements(vals, idVals, min, cuts, bests, bestIds, 0, |elms|)
    && RowsHold(bc, elms, bests, 0, |elms|, width, r) && RowsHold(bc, ids, bestIds, 0, |ids|, idWidth, r)
  }

  /** One level of the reduction, in place. */
  method PutBestLevel(bc: BooleanCircuit, elms0: seq<seq<nat>>, ids0: seq<seq<nat>>, min: bool,
                      ghost vals: seq<seq<bool>>, ghost idVals: seq<seq<bool>>, ghost bests0: seq<seq<bool>>,
                      ghost bestIds0: seq<seq<bool>>, ghost cuts: seq<nat>, ghost width: nat, ghost idWidth: nat, ghost r: nat)
    returns (elms: seq<seq<nat>>, ids: seq<seq<nat>>, ghost bests: seq<seq<bool>>, ghost bestIds: seq<seq<bool>>, ghost done: seq<nat>)
    requires bc.Valid() && width > 0 && idWidth > 0 && |elms0| > 1
    requires LevelHolds(bc, elms0, ids0, vals, idVals, min, cuts, bests0, bestIds0, width, idWidth, r)
    modifies bc
    ensures bc.Valid() && bc.Extends() && |elms| < |elms0| && 2 * |elms| <= |elms0| + 1
    ensures LevelHolds(bc, elms, ids, vals, idVals, min, done, bests, bestIds, width, idWidth, r + StepRounds(bc.ctx, width))
  {
    elms, ids, bests, bestIds, done := elms0, ids0, bests0, bestIds0, [0];
    var j: nat, i: nat, n := 0, 0, |elms0|;
    ghost var r2 := r + StepRounds(bc.ctx, width);
    while i < n
      invariant bc.Valid() && bc.Extends() && |elms| == |ids| == n
      invariant i == 2 * j || (i == n && i + 1 == 2 * j)
      invariant LevelRows(bc, elms, bests, j, i, width, r, r2) && LevelRows(bc, ids, bestIds, j, i, idWidth, r, r2)
      invariant BestLive(vals, idVals, min, done, cuts, bests, bestIds, j, i, n)
      decreases n - i
    {
      elms, ids, i, bests, bestIds, done :=
        PutBestInPlace(bc, elms, ids, min, j, i, vals, idVals, bests, bestIds, done, cuts, width, idWidth, r);
      j := j + 1;
    }
    LevelCut(vals, idVals, min, done, bests, bestIds, j);
    elms, ids, bests, bestIds := elms[..j], ids[..j], bests[..j], bestIds[..j];
  }

  lemma LevelCut(vals: seq<seq<bool>>, idVals: seq<seq<bool>>, min: bool, cuts: seq<nat>,
                 bests: seq<seq<bool>>, bestIds: seq<seq<bool>>, j: nat)
    requires Elements(vals, idVals, min, cuts, bests, bestIds, 0, j)
    ensures Elements(vals, idVals, min, cuts, bests[..j], bestIds[..j], 0, j)
  {
    forall k: nat | k < j
      ensures Element(vals, idVals, min, cuts, bests[..j], bestIds[..j], k)
    {
      assert Element(vals, idVals, min, cuts, bests, bestIds, k);
    }
  }

  /** The extreme value and the id of its leftmost occurrence. */
  method PutExtreme(bc: BooleanCircuit, elms0: seq<seq<nat>>, ids0: seq<seq<nat>>, min: bool,
                    ghost vals: seq<seq<bool>>, ghost idVals: seq<seq<bool>>, ghost width: nat, ghost idWidth: nat, ghost r: nat)
    returns (val: seq<nat>, id: seq<nat>, ghost depth: nat)
    requires bc.Valid() && Uniform(vals, idVals, width, idWidth) && |elms0| == |ids0| == |vals|
    requires forall k | 0 <= k < |vals| :: bc.Holds(elms0[k], vals[k], r) && bc.Holds(ids0[k], idVals[k], r)
    modifies bc
    ensures bc.Valid() && bc.Extends()
    ensures bc.Holds(val, vals[ArgBest(min, vals, 0, |vals|)], depth)
    ensures bc.Holds(id, idVals[ArgBest(min, vals, 0, |vals|)], depth)
    ensures depth <= r + CeilLog2(|vals|) * StepRounds(bc.ctx, width)
  {
    var elms, ids := elms0, ids0;
    ghost var cuts: seq<nat> := seq(|vals| + 1, k requires 0 <= k => k);
    ghost var bests, bestIds := vals, idVals;
    ghost var step: nat, todo: nat := StepRounds(bc.ctx, width), CeilLog2(|vals|);
    ghost var bound := r + todo * step;
    BudgetStart(|vals|, r, step);
    depth := r;
    while |elms| > 1
      invariant Budget(|elms|, depth, todo, step, bound)
      invariant bc.Valid() && bc.Extends()
      invariant LevelHolds(bc, elms, ids, vals, idVals, min, cuts, bests, bestIds, width, idWidth, depth)
      decreases |elms|
    {
      ghost var n := |elms|;
      elms, ids, bests, bestIds, cuts := PutBestLevel(bc, elms, ids, min, vals, idVals, bests, bestIds, cuts, width, idWidth, depth);
      BudgetNext(n, |elms|, depth, todo, step, bound);
      depth, todo := depth + step, todo - 1;
    }
    val, id := elms[0], ids[0];
    assert Element(vals, idVals, min, cuts, bests, bestIds, 0);
  }

  /** The minimum and the id of its leftmost occurrence. */
  method PutMinIdxGate(bc: BooleanCircuit, elms: seq<seq<nat>>, ids: seq<seq<nat>>,
                       ghost vals: seq<seq<bool>>, ghost idVals: seq<seq<bool>>, ghost width: nat, ghost idWidth: nat, ghost r: nat)
    returns (minval: seq<nat>, minid: seq<nat>, ghost m: nat, ghost depth: nat)
    requires bc.Valid() && Uniform(vals, idVals, width, idWidth) && |elms| == |ids| == |vals|
    requires forall k | 0 <= k < |vals| :: bc.Holds(elms[k], vals[k], r) && bc.Holds(ids[k], idVals[k], r)
    modifies bc
    ensures bc.Valid() && bc.Extends() && m < |vals|
    ensures bc.Holds(minval, vals[m], depth) && bc.Holds(minid, idVals[m], depth)
    ensures depth <= r + CeilLog2(|vals|) * if bc.ctx.BOOL? then CeilLog2(width) + 2 else width + 1
    ensures forall k | 0 <= k < |vals| :: Num(vals[m]) <= Num(vals[k])
    ensures forall k | 0 <= k < m :: Num(vals[m]) < Num(vals[k])
  {
    m := ArgBest(true, vals, 0, |vals|);
    ArgBestLeftmost(true, vals, 0, |vals|);
    minval, minid, depth := PutExtreme(bc, elms, ids, true, vals, idVals, width, idWidth, r);
  }

  /** The maximum and the id of its leftmost occurrence. */
  method PutMaxIdxGate(bc: BooleanCircuit, elms: seq<seq<nat>>, ids: seq<seq<nat>>,
                       ghost vals: seq<seq<bool>>, ghost idVals: seq<seq<bool>>, ghost width: nat, ghost idWidth: nat, ghost r: nat)
    returns (maxval: seq<nat>, maxid: seq<nat>, ghost m: nat, ghost depth: nat)
    requires bc.Valid() && Uniform(vals, idVals, width, idWidth) && |elms| == |ids| == |vals|
    requires forall k | 0 <= k < |vals| :: bc.Holds(elms[k], vals[k], r) && bc.Holds(ids[k], idVals[k], r)
    modifies bc
    ensures bc.Valid() && bc.Extends() && m < |vals|
    ensures bc.Holds(maxval, vals[m], depth) && bc.Holds(maxid, idVals[m], depth)
    ensures depth <= r + CeilLog2(|vals|) * if bc.ctx.BOOL? then CeilLog2(width) + 2 else width + 1
    ensures forall k | 0 <= k < |vals| :: Num(vals[m]) >= Num(vals[k])
    ensures forall k | 0 <= k < m :: Num(vals[m]) > Num(vals[k])
  {
    m := ArgBest(false, vals, 0, |vals|);
    ArgBestLeftmost(false, vals, 0, |vals|);
    maxval, maxid, depth := PutExtreme(bc, elms, ids, false, vals, idVals, width, idWidth, r);
  }
}
