/** Carry-save addition: three rows become two with the same sum. */
module CarrySaveSpec {
  import opened Bits
  import opened Addition

  function Sum3(a: seq<bool>, b: seq<bool>, c: seq<bool>): (s: seq<bool>)
    requires |a| == |b| == |c|
    ensures |s| == |a|
  {
    seq(|a|, i requires 0 <= i < |a| => b[i] != (a[i] != c[i]))
  }

  /** The majority bits, moved up by one position. */
  function Carry3(a: seq<bool>, b: seq<bool>, c: seq<bool>): (s: seq<bool>)
    requires |a| == |b| == |c|
    ensures |s| == |a|
  {
    seq(|a|, i requires 0 <= i < |a| => i > 0 && Majority(a[i - 1], b[i - 1], c[i - 1]))
  }

  lemma {:induction false} CarrySaveInvariant(a: seq<bool>, b: seq<bool>, c: seq<bool>, n: nat)
    requires n <= |a| == |b| == |c|
    ensures Value(a, n) + Value(b, n) + Value(c, n) ==
            Value(Sum3(a, b, c), n) + Value(Carry3(a, b, c), n) +
            Weight(n > 0 && Majority(a[n - 1], b[n - 1], c[n - 1]), n)
  {
    if n > 0 {
      CarrySaveInvariant(a, b, c, n - 1);
    }
  }

  /** A carry-save adder keeps the sum modulo the width. */
  lemma CarrySaveCorrect(a: seq<bool>, b: seq<bool>, c: seq<bool>)
    requires |a| == |b| == |c|
    ensures Wrap(Num(Sum3(a, b, c)) + Num(Carry3(a, b, c)), |a|) == Wrap(Num(a) + Num(b) + Num(c), |a|)
  {
    var n := |a|;
    CarrySaveInvariant(a, b, c, n);
    WrapWeight(Num(a) + Num(b) + Num(c), Num(Sum3(a, b, c)) + Num(Carry3(a, b, c)),
               n > 0 && Majority(a[n - 1], b[n - 1], c[n - 1]), n);
  }

  lemma WrapWeight(total: nat, x: nat, top: bool, n: nat)
    requires total == x + Weight(top, n)
    ensures Wrap(x, n) == Wrap(total, n)
  {
    WrapDropTop(x, n);
  }

  /** The sum of rows lo..hi. */
  function Total(rows: seq<seq<bool>>, lo: nat, hi: nat): nat
    requires lo <= hi <= |rows|
    decreases hi
  {
    if lo == hi then 0 else Total(rows, lo, hi - 1) + Num(rows[hi - 1])
  }

  lemma {:induction false} TotalFront(rows: seq<seq<bool>>, lo: nat, hi: nat)
    requires lo < hi <= |rows|
    ensures Total(rows, lo, hi) == Num(rows[lo]) + Total(rows, lo + 1, hi)
    decreases hi
  {
    if lo + 1 < hi {
      TotalFront(rows, lo, hi - 1);
    }
  }

  /** The sum of no rows, of one row, and of the rows of two ranges. */
  lemma {:induction false} TotalSplit(rows: seq<seq<bool>>, lo: nat, mid: nat, hi: nat)
    requires lo <= mid <= hi <= |rows|
    ensures Total(rows, lo, lo) == 0 && (lo < hi ==> Total(rows, lo, lo + 1) == Num(rows[lo]))
    ensures Total(rows, lo, hi) == Total(rows, lo, mid) + Total(rows, mid, hi)
    decreases hi
  {
    if mid < hi {
      TotalSplit(rows, lo, mid, hi - 1);
    }
  }

  lemma TotalFront3(rows: seq<seq<bool>>, lo: nat, hi: nat)
    requires lo + 3 <= hi <= |rows|
    ensures Total(rows, lo, hi) == Num(rows[lo]) + Num(rows[lo + 1]) + Num(rows[lo + 2]) + Total(rows, lo + 3, hi)
  {
    TotalFront(rows, lo, hi);
    TotalFront(rows, lo + 1, hi);
    TotalFront(rows, lo + 2, hi);
  }

  lemma {:induction false} TotalCong(rows: seq<seq<bool>>, other: seq<seq<bool>>, lo: nat, hi: nat)
    requires lo <= hi <= |rows| && hi <= |other|
    requires forall i | lo <= i < hi :: rows[i] == other[i]
    ensures Total(rows, lo, hi) == Total(other, lo, hi)
    decreases hi
  {
    if lo < hi {
      TotalCong(rows, other, lo, hi - 1);
    }
  }

  /** Replacing three summands by the two outputs of a carry-save adder. */
  lemma ReplaceThree(a: seq<bool>, b: seq<bool>, c: seq<bool>, rest: nat, total: nat)
    requires |a| == |b| == |c|
    requires Wrap(Num(a) + Num(b) + Num(c) + rest, |a|) == Wrap(total, |a|)
    ensures Wrap(Num(Sum3(a, b, c)) + Num(Carry3(a, b, c)) + rest, |a|) == Wrap(total, |a|)
  {
    CarrySaveCorrect(a, b, c);
    WrapAdd(Num(a) + Num(b) + Num(c), rest, |a|);
    WrapAdd(Num(Sum3(a, b, c)) + Num(Carry3(a, b, c)), rest, |a|);
  }
}

/** How many rounds the carry-save network takes. */
module CarrySaveRounds {
  import opened Bits

  /** What is left of a queue of n rows that is consumed three at a time and gets one back each time. */
  function Drained(n: nat): (r: nat)
    ensures r <= n && r < 3 && (n > 0 ==> r > 0)
  {
    if n < 3 then n else Drained(n - 2)
  }

  /** The adders of that. */
  function CsaCount(n: nat): (a: nat)
    ensures Drained(n) + 2 * a == n
  {
    if n < 3 then 0 else 1 + CsaCount(n - 2)
  }

  /**
    The rounds of that: o rows can be used at once, n rows came back in this round. Fewer than three old rows
    have to wait for the new ones.
   */
  function DrainRounds(o: nat, n: nat): nat
    decreases o + n, n
  {
    if o >= 3 then DrainRounds(o - 3, n + 1)
    else if o + n >= 3 then 1 + DrainRounds(o + n, 0)
    else if n > 0 then 1
    else 0
  }

  /** The rounds until two rows are left of p survivors and c carries: first the carries are consumed, then the survivors. */
  function NetRounds(p: nat, c: nat): nat
    decreases p + c
  {
    if p + c <= 2 then 0
    else
      var p0 := p + CsaCount(c);
      var p1, c2 := Drained(p0), Drained(c) + CsaCount(p0);
      DrainRounds(c, 0) + DrainRounds(p0, 0) + if 2 < p1 + c2 && c2 < 3 then p1 + c2 - 2 else NetRounds(p1, c2)
  }

  /** The rows that consuming both queues leaves, and the rounds it takes. */
  lemma NetStep(p: nat, c: nat) returns (p0: nat, p1: nat, c2: nat)
    requires p + c > 2
    ensures p0 == p + CsaCount(c) && p1 == Drained(p0) && c2 == Drained(c) + CsaCount(p0)
    ensures NetRounds(p, c) == DrainRounds(c, 0) + DrainRounds(p0, 0) + if 2 < p1 + c2 && c2 < 3 then p1 + c2 - 2 else NetRounds(p1, c2)
    ensures c2 >= 3 ==> p1 + c2 < p + c
    ensures p1 + c2 == p + c - CsaCount(c) - CsaCount(p0)
  {
    p0 := p + CsaCount(c);
    p1, c2 := Drained(p0), Drained(c) + CsaCount(p0);
  }

  /** A round uses up the old rows, but for the last two at most. */
  lemma {:induction false} RoundOver(o: nat, n: nat)
    ensures var left := o % 3 + n + o / 3;
            DrainRounds(o, n) == if left >= 3 && (o / 3 > 0 || n > 0) then 1 + DrainRounds(left, 0) else if n + o / 3 > 0 then 1 else 0
  {
    if o >= 3 {
      RoundOver(o - 3, n + 1);
    }
  }

  /** Draining takes a logarithmic number of rounds. */
  lemma {:induction false} DrainLog(n: nat, e: nat)
    requires n <= Pow2(e)
    ensures DrainRounds(n, 0) <= e
    decreases e
  {
    RoundOver(n, 0);
    var left := n % 3 + n / 3;
    if left >= 3 {
      OneLevelLess(n, e);
      DrainLog(left, e - 1);
    }
  }

  /** No two rounds share an adder. */
  lemma {:induction false} DrainAdders(o: nat, n: nat)
    ensures 2 * DrainRounds(o, n) + Drained(o + n) <= o + n + if n > 0 then 2 else 0
    decreases o + n, n
  {
    if o >= 3 {
      DrainAdders(o - 3, n + 1);
    } else if o + n >= 3 {
      DrainAdders(o + n, 0);
    }
  }

  lemma {:induction false} NetAdders(p: nat, c: nat)
    requires p + c >= 2
    ensures NetRounds(p, c) <= p + c - 2
    decreases p + c
  {
    if p + c > 2 {
      var p0, p1, c2 := NetStep(p, c);
      DrainAdders(c, 0);
      DrainAdders(p0, 0);
      if c2 >= 3 {
        NetAdders(p1, c2);
      }
    }
  }

  /** Carries that a round over both queues leaves. */
  lemma HalfLeft(p: nat, c: nat)
    requires 1 <= p <= 2 && c >= 6
    ensures var p0 := p + CsaCount(c); 2 * (Drained(c) + CsaCount(p0)) <= c + 1 && 2 * p0 <= c + 4
  {
  }

  /** 2 + 4 + ... + 2e */
  function Pyramid(e: nat): nat {
    if e == 0 then 0 else Pyramid(e - 1) + 2 * e
  }

  lemma {:induction false} PyramidIs(e: nat)
    ensures Pyramid(e) == e * e + e
  {
    if e > 0 {
      PyramidIs(e - 1);
      assert e * e == (e - 1) * (e - 1) + 2 * e - 1;
    }
  }

  lemma PyramidAtLeast(e: nat)
    requires 3 <= Pow2(e)
    ensures e >= 2 && Pyramid(e) >= 6 && Pyramid(e - 1) >= 2
  {
    assert Pyramid(1) == 2 && Pyramid(2) == 6;
    PyramidMonotone(2, e);
    PyramidMonotone(1, e - 1);
  }

  lemma {:induction false} PyramidMonotone(d: nat, e: nat)
    requires d <= e
    ensures Pyramid(d) <= Pyramid(e)
  {
    if d < e {
      PyramidMonotone(d, e - 1);
    }
  }

  lemma {:induction false} CarriesLog(p: nat, c: nat, e: nat)
    requires 1 <= p <= 2 && 3 <= c <= Pow2(e)
    ensures NetRounds(p, c) <= Pyramid(e)
    decreases e
  {
    PyramidAtLeast(e);
    if c <= 5 {
      NetAdders(p, c);
    } else {
      var p0, p1, c2 := NetStep(p, c);
      HalfLeft(p, c);
      DrainLog(c, e);
      DrainLog(p0, e);
      if c2 >= 3 {
        OneLevelLess(c, e);
        CarriesLog(p1, c2, e - 1);
      }
    }
  }

  /** The network takes at most the square of the logarithm of the number of rows. */
  lemma NetLog(k: nat)
    requires k > 0
    ensures NetRounds(k, 0) <= CeilLog2(k) * CeilLog2(k)
  {
    if k > 2 {
      FirstRound(k, CeilLog2(k));
    }
  }

  lemma FirstRound(k: nat, e: nat)
    requires 2 < k <= Pow2(e)
    ensures NetRounds(k, 0) <= e * e
  {
    var p1, c2 := Drained(k), CsaCount(k);
    DrainLog(k, e);
    OneLevelLess(k, e);
    PyramidAtLeast(e);
    PyramidIs(e - 1);
    assert (e - 1) * (e - 1) + (e - 1) + e == e * e;
    if c2 >= 3 {
      CarriesLog(p1, c2, e - 1);
    }
  }
}

/** The carry-save adder and the two-queue carry-save network. */
module CarrySave {
  import opened Bits
  import opened Addition
  import opened CarrySaveSpec
  import opened CarrySaveRounds
  import opened Circuit
  import opened Builder
  import opened Adders

  /** A constant zero below the carries, which move up by one. */
  method PutShiftedCarries(bc: BooleanCircuit, a: seq<nat>, b: seq<nat>, c: seq<nat>, zerogate: nat,
                           ghost va: seq<bool>, ghost vb: seq<bool>, ghost vc: seq<bool>, ghost r: nat) returns (out: seq<nat>)
    requires bc.Valid() && bc.Holds(a, va, r) && bc.Holds(b, vb, r) && bc.Holds(c, vc, r)
    requires |a| == |b| == |c| > 0 && bc.Wire(zerogate) && !bc.Val(zerogate) && bc.ReadyAt(zerogate) <= r
    modifies bc
    ensures bc.Valid() && bc.Extends() && bc.Holds(out, Carry3(va, vb, vc), r + 1)
    ensures bc.AndCount() == old(bc.AndCount()) + Times(|a| - 1, bc.width)
  {
    ghost var spec := Carry3(va, vb, vc);
    out := [zerogate];
    for i := 0 to |a| - 1
      invariant bc.Valid() && bc.Extends() && bc.Holds(a, va, r) && bc.Holds(b, vb, r) && bc.Holds(c, vc, r)
      invariant bc.Holds(out, spec[..i + 1], r + 1) && bc.AndCount() == old(bc.AndCount()) + Times(i, bc.width)
    {
      var carry := PutNextCarry(bc, a[i], b[i], c[i], r);
      assert spec[..i + 2] == spec[..i + 1] + [spec[i + 1]];
      bc.HoldsSnoc(out, spec[..i + 1], carry, spec[i + 1], r + 1);
      out := out + [carry];
    }
    assert spec[..|spec|] == spec;
  }

  /** A carry-save adder on rows of one width, without the extra carry position. */
  method PutCarrySaveGate(bc: BooleanCircuit, a: seq<nat>, b: seq<nat>, c: seq<nat>,
                          ghost va: seq<bool>, ghost vb: seq<bool>, ghost vc: seq<bool>, ghost r: nat) returns (out: seq<seq<nat>>)
    requires bc.Valid() && bc.Holds(a, va, r) && bc.Holds(b, vb, r) && bc.Holds(c, vc, r)
    requires |a| == |b| == |c| > 0
    modifies bc
    ensures bc.Valid() && bc.Extends() && |out| == 2
    ensures bc.Holds(out[0], Sum3(va, vb, vc), r + 1) && bc.Holds(out[1], Carry3(va, vb, vc), r + 1)
    ensures bc.AndCount() == old(bc.AndCount()) + Times(|a| - 1, bc.width)
  {
    var axc := PutXORGates(bc, a, c, va, vc, r);
    var sum := PutXORGates(bc, b, axc, vb, XorBits(va, vc), r);
    assert XorBits(vb, XorBits(va, vc)) == Sum3(va, vb, vc);
    var zerogate := bc.PutConstantGate(false, sum[0]);
    var carries := PutShiftedCarries(bc, a, b, c, zerogate, va, vb, vc, r);
    out := [sum, carries];
  }

  /** Rows lo..hi of a queue carry the recorded values, all of the network's width. */
  ghost predicate RowsHold(bc: BooleanCircuit, rows: seq<seq<nat>>, vals: seq<seq<bool>>, lo: nat, hi: nat, width: nat, r: nat)
    reads bc
  {
    && lo <= hi <= |rows| == |vals|
    && forall i {:trigger rows[i]} {:trigger vals[i]} | lo <= i < hi :: |vals[i]| == width && bc.Holds(rows[i], vals[i], r)
  }

  /** The two queues of the network, with the positions of their live rows. */
  datatype Queues = Queues(survivors: seq<seq<nat>>, carryLines: seq<seq<nat>>,
                           pHead: nat, pTail: nat, cHead: nat, cTail: nat, wires: nat, out: seq<seq<nat>>)

  /** The bits the rows of both queues carry. */
  datatype Rows = Rows(survivors: seq<seq<bool>>, carries: seq<seq<bool>>)

  /** The live survivors and the live carries together are the wires left. */
  predicate Counts(q: Queues, k: nat) {
    && k >= 2 && q.wires >= 2
    && |q.survivors| == 2 * k && |q.carryLines| == k - 2
    && q.pTail < q.pHead && q.cTail <= q.cHead
    && q.pHead + q.wires == 2 * k && q.cHead + q.wires == k
    && q.wires == (q.pHead - q.pTail) + (q.cHead - q.cTail)
    && (q.wires < k ==> q.cTail < q.cHead && q.out == [q.survivors[q.pHead - 1], q.carryLines[q.cHead - 1]])
  }

  /** The sum of the rows from the given tails on. */
  function TotalFrom(q: Queues, v: Rows, pTail: nat, cTail: nat): nat
    requires pTail <= q.pHead <= |v.survivors| && cTail <= q.cHead <= |v.carries|
  {
    Total(v.survivors, pTail, q.pHead) + Total(v.carries, cTail, q.cHead)
  }

  /** What stays the same in a network: the number of rows, their width, their sum, and the AND gates built and to be built. */
  datatype Frame = Frame(k: nat, width: nat, total: nat, ands: nat)

  /** The AND gates of one carry-save adder. */
  function CsaAnds(width: nat, values: nat): nat {
    if width == 0 then 0 else Times(width - 1, values)
  }

  /**
    The live rows of both queues are the wires left, their sum is the sum of all inputs, and the
    outputs of the last adder are the youngest live rows of both queues.
   */
  ghost predicate Live(bc: BooleanCircuit, q: Queues, v: Rows, f: Frame, r: nat)
    reads bc
  {
    && f.width > 0 && Counts(q, f.k) && bc.AndCount() + Times(q.wires, CsaAnds(f.width, bc.width)) == f.ands
    && RowsHold(bc, q.survivors, v.survivors, q.pTail, q.pHead, f.width, r)
    && RowsHold(bc, q.carryLines, v.carries, q.cTail, q.cHead, f.width, r)
    && Wrap(TotalFrom(q, v, q.pTail, q.cTail), f.width) == Wrap(f.total, f.width)
  }

  lemma RowsPush(bc: BooleanCircuit, rows: seq<seq<nat>>, vals: seq<seq<bool>>, lo: nat, hi: nat, width: nat, r: nat,
                 row: seq<nat>, val: seq<bool>)
    requires RowsHold(bc, rows, vals, lo, hi, width, r) && hi < |rows|
    requires |val| == width && bc.Holds(row, val, r)
    ensures RowsHold(bc, rows[hi := row], vals[hi := val], lo, hi + 1, width, r)
    ensures Total(vals[hi := val], lo, hi + 1) == Total(vals, lo, hi) + Num(val)
  {
    TotalCong(vals, vals[hi := val], lo, hi);
  }

  /** Any three rows a, b, c leave the queues, the two outputs join them. */
  method PutCsa(bc: BooleanCircuit, q: Queues, a: seq<nat>, b: seq<nat>, c: seq<nat>, pTail: nat, cTail: nat,
                ghost v: Rows, ghost va: seq<bool>, ghost vb: seq<bool>, ghost vc: seq<bool>,
                ghost f: Frame, ghost before: nat, ghost r: nat) returns (next: Queues, ghost nextRows: Rows)
    requires bc.Valid() && Live(bc, q, v, f, before) && before <= r + 1 && q.wires >= 3
    requires bc.Holds(a, va, r) && bc.Holds(b, vb, r) && bc.Holds(c, vc, r) && |va| == |vb| == |vc| == f.width
    requires q.pTail <= pTail <= q.pHead && q.cTail <= cTail <= q.cHead
    requires (q.pHead - pTail) + (q.cHead - cTail) + 3 == q.wires
    requires Num(va) + Num(vb) + Num(vc) + TotalFrom(q, v, pTail, cTail) == TotalFrom(q, v, q.pTail, q.cTail)
    modifies bc
    ensures bc.Valid() && bc.Extends() && Live(bc, next, nextRows, f, r + 1)
    ensures next.wires == q.wires - 1 && next.pTail == pTail && next.cTail == cTail
    ensures next.pHead == q.pHead + 1 && next.cHead == q.cHead + 1
    ensures OnlyPushed(q.survivors, v.survivors, next.survivors, nextRows.survivors, q.pHead)
    ensures OnlyPushed(q.carryLines, v.carries, next.carryLines, nextRows.carries, q.cHead)
  {
    var out := PutCarrySaveGate(bc, a, b, c, va, vb, vc, r);
    ghost var s, t := Sum3(va, vb, vc), Carry3(va, vb, vc);
    next := Queues(q.survivors[q.pHead := out[0]], q.carryLines[q.cHead := out[1]],
                 q.pHead + 1, pTail, q.cHead + 1, cTail, q.wires - 1, out);
    nextRows := Rows(v.survivors[q.pHead := s], v.carries[q.cHead := t]);
    PushedRows(bc, q, v, pTail, cTail, out, s, t, f.width, r + 1);
    PushedTotal(q, v, next, nextRows, va, vb, vc, f);
    PushedCounts(q, next, f.k);
  }

  lemma PushedTotal(q: Queues, v: Rows, next: Queues, nextRows: Rows, va: seq<bool>, vb: seq<bool>, vc: seq<bool>, f: Frame)
    requires |va| == |vb| == |vc| == f.width && next.pHead == q.pHead + 1 && next.cHead == q.cHead + 1
    requires q.pHead < |v.survivors| && q.cHead < |v.carries| && next.pTail <= q.pHead && next.cTail <= q.cHead
    requires nextRows == Rows(v.survivors[q.pHead := Sum3(va, vb, vc)], v.carries[q.cHead := Carry3(va, vb, vc)])
    requires Wrap(Num(va) + Num(vb) + Num(vc) + TotalFrom(q, v, next.pTail, next.cTail), f.width) == Wrap(f.total, f.width)
    ensures Wrap(TotalFrom(next, nextRows, next.pTail, next.cTail), f.width) == Wrap(f.total, f.width)
  {
    TotalCong(v.survivors, nextRows.survivors, next.pTail, q.pHead);
    TotalCong(v.carries, nextRows.carries, next.cTail, q.cHead);
    assert TotalFrom(next, nextRows, next.pTail, next.cTail) ==
           Num(Sum3(va, vb, vc)) + Num(Carry3(va, vb, vc)) + TotalFrom(q, v, next.pTail, next.cTail);
    ReplaceThree(va, vb, vc, TotalFrom(q, v, next.pTail, next.cTail), f.total);
  }

  lemma PushedRows(bc: BooleanCircuit, q: Queues, v: Rows, pTail: nat, cTail: nat, out: seq<seq<nat>>, s: seq<bool>, t: seq<bool>,
                   width: nat, r: nat)
    requires RowsHold(bc, q.survivors, v.survivors, pTail, q.pHead, width, r) && q.pHead < |q.survivors|
    requires RowsHold(bc, q.carryLines, v.carries, cTail, q.cHead, width, r) && q.cHead < |q.carryLines|
    requires |out| == 2 && |s| == |t| == width && bc.Holds(out[0], s, r) && bc.Holds(out[1], t, r)
    ensures RowsHold(bc, q.survivors[q.pHead := out[0]], v.survivors[q.pHead := s], pTail, q.pHead + 1, width, r)
    ensures RowsHold(bc, q.carryLines[q.cHead := out[1]], v.carries[q.cHead := t], cTail, q.cHead + 1, width, r)
  {
    RowsPush(bc, q.survivors, v.survivors, pTail, q.pHead, width, r, out[0], s);
    RowsPush(bc, q.carryLines, v.carries, cTail, q.cHead, width, r, out[1], t);
  }

  lemma PushedCounts(q: Queues, next: Queues, k: nat)
    requires Counts(q, k) && q.wires >= 3 && |next.out| == 2
    requires next == Queues(q.survivors[q.pHead := next.out[0]], q.carryLines[q.cHead := next.out[1]], q.pHead + 1, next.pTail,
                            q.cHead + 1, next.cTail, q.wires - 1, next.out)
    requires next.pTail <= q.pHead && next.cTail <= q.cHead && (q.pHead - next.pTail) + (q.cHead - next.cTail) + 3 == q.wires
    ensures Counts(next, k)
  {
  }

  /** Only position at of a queue has changed. */
  ghost predicate OnlyPushed(rows: seq<seq<nat>>, vals: seq<seq<bool>>, next: seq<seq<nat>>, nextVals: seq<seq<bool>>, at: nat) {
    && |next| == |rows| && |nextVals| == |vals|
    && (forall i | 0 <= i < |rows| && i != at :: next[i] == rows[i])
    && (forall i | 0 <= i < |vals| && i != at :: nextVals[i] == vals[i])
  }

  lemma ThreeHold(bc: BooleanCircuit, rows: seq<seq<nat>>, vals: seq<seq<bool>>, t: nat, hi: nat, width: nat, r: nat)
    requires RowsHold(bc, rows, vals, t, hi, width, r) && t + 3 <= hi
    ensures |vals[t]| == |vals[t + 1]| == |vals[t + 2]| == width
    ensures bc.Holds(rows[t], vals[t], r) && bc.Holds(rows[t + 1], vals[t + 1], r) && bc.Holds(rows[t + 2], vals[t + 2], r)
  {
  }

  /** Rows behind the front of a queue stay where they are. */
  lemma StillHold(bc: BooleanCircuit, rows: seq<seq<nat>>, vals: seq<seq<bool>>, next: seq<seq<nat>>, nextVals: seq<seq<bool>>,
                  head: nat, lo: nat, hi: nat, width: nat, r: nat)
    requires OnlyPushed(rows, vals, next, nextVals, head) && lo <= hi <= head && RowsHold(bc, rows, vals, lo, hi, width, r)
    ensures RowsHold(bc, next, nextVals, lo, hi, width, r)
  {
  }

  function Survivors(q: Queues): nat {
    if q.pTail <= q.pHead then q.pHead - q.pTail else 0
  }

  function Carries(q: Queues): nat {
    if q.cTail <= q.cHead then q.cHead - q.cTail else 0
  }

  /** Where consuming a queue ends: after which round, with how many rows in it, how many in all, and the tail of the other queue. */
  datatype Ending = Ending(depth: nat, rows: nat, wires: int, tail: nat)

  /** That is known from the start, and from every round r in which o rows can be used and n have come back. */
  function EndingAt(r: nat, o: nat, n: nat, wires: nat, tail: nat): Ending {
    Ending(r + DrainRounds(o, n), Drained(o + n), wires - CsaCount(o + n), tail)
  }

  predicate CarriesUsed(q0: Queues, q: Queues, r: nat, depth: nat) {
    Ending(depth, Carries(q), q.wires, q.pTail) == EndingAt(r, Carries(q0), 0, q0.wires, q0.pTail)
  }

  predicate SurvivorsUsed(q0: Queues, q: Queues, r: nat, depth: nat) {
    Ending(depth, Survivors(q), q.wires, q.cTail) == EndingAt(r, Survivors(q0), 0, q0.wires, q0.cTail)
  }

  lemma NextRound(r: nat, o: nat, n: nat, wires: nat, tail: nat)
    requires o < 3 <= o + n
    ensures EndingAt(r + 1, o + n, 0, wires, tail) == EndingAt(r, o, n, wires, tail)
  {
  }

  lemma NextAdder(r: nat, o: nat, n: nat, wires: nat, tail: nat)
    requires o >= 3 && wires > 0
    ensures EndingAt(r, o - 3, n + 1, wires - 1, tail) == EndingAt(r, o, n, wires, tail)
  {
  }

  lemma Ended(r: nat, o: nat, n: nat, wires: nat, tail: nat)
    requires o + n < 3
    ensures EndingAt(r, o, n, wires, tail) == Ending(if n > 0 then r + 1 else r, o + n, wires, tail)
  {
  }

  /** Round r of consuming carries: those before mark can be used in it, those that come back, from the next one on. */
  ghost predicate CarryRound(bc: BooleanCircuit, q: Queues, v: Rows, mark: nat, f: Frame, r: nat)
    reads bc
  {
    && q.cTail <= mark <= q.cHead && RowsHold(bc, q.carryLines, v.carries, q.cTail, mark, f.width, r)
    && Live(bc, q, v, f, if mark < q.cHead then r + 1 else r)
  }

  method PutCarryCsa(bc: BooleanCircuit, q: Queues, ghost v: Rows, ghost mark: nat, ghost f: Frame, ghost r: nat)
    returns (next: Queues, ghost nextRows: Rows)
    requires bc.Valid() && CarryRound(bc, q, v, mark, f, r) && q.cTail + 3 <= mark
    modifies bc
    ensures bc.Valid() && bc.Extends() && CarryRound(bc, next, nextRows, mark, f, r)
    ensures next.wires == q.wires - 1 && next.pTail == q.pTail && next.cTail == q.cTail + 3 && next.cHead == q.cHead + 1
  {
    var t := q.cTail;
    TotalFront3(v.carries, t, q.cHead);
    ThreeHold(bc, q.carryLines, v.carries, t, mark, f.width, r);
    next, nextRows := PutCsa(bc, q, q.carryLines[t], q.carryLines[t + 1], q.carryLines[t + 2], q.pTail, t + 3, v,
                             v.carries[t], v.carries[t + 1], v.carries[t + 2], f, if mark < q.cHead then r + 1 else r, r);
    StillHold(bc, q.carryLines, v.carries, next.carryLines, nextRows.carries, q.cHead, t + 3, mark, f.width, r);
  }

  ghost predicate CarryEnd(q: Queues, mark: nat, r: nat, end: Ending) {
    q.cTail <= mark <= q.cHead && end == EndingAt(r, mark - q.cTail, q.cHead - mark, q.wires, q.pTail)
  }

  lemma CarriesEnded(q0: Queues, q: Queues, mark: nat, r: nat, end: Ending, r0: nat, depth: nat)
    requires CarryEnd(q, mark, r, end) && q.cHead < q.cTail + 3 && end == EndingAt(r0, Carries(q0), 0, q0.wires, q0.pTail)
    requires depth == if mark < q.cHead then r + 1 else r
    ensures CarriesUsed(q0, q, r0, depth)
  {
    Ended(r, mark - q.cTail, q.cHead - mark, q.wires, q.pTail);
  }

  /** The next adder, in the next round if it has to wait. */
  method ConsumeCarry(bc: BooleanCircuit, q: Queues, ghost v: Rows, ghost mark0: nat, ghost f: Frame, ghost r0: nat, ghost end: Ending)
    returns (next: Queues, ghost nextRows: Rows, ghost mark: nat, ghost r: nat)
    requires bc.Valid() && CarryRound(bc, q, v, mark0, f, r0) && CarryEnd(q, mark0, r0, end) && q.cTail + 2 < q.cHead
    modifies bc
    ensures bc.Valid() && bc.Extends() && CarryRound(bc, next, nextRows, mark, f, r) && CarryEnd(next, mark, r, end) && next.wires < q.wires
  {
    mark, r := if mark0 < q.cTail + 3 then q.cHead else mark0, if mark0 < q.cTail + 3 then r0 + 1 else r0;
    CarryWaits(q, mark0, r0, end);
    next, nextRows := PutCarryCsa(bc, q, v, mark, f, r);
    CarryTaken(q, next, mark, r, end);
  }

  lemma CarryWaits(q: Queues, mark: nat, r: nat, end: Ending)
    requires CarryEnd(q, mark, r, end) && q.cTail + 2 < q.cHead
    ensures mark < q.cTail + 3 ==> CarryEnd(q, q.cHead, r + 1, end)
  {
    if mark < q.cTail + 3 {
      NextRound(r, mark - q.cTail, q.cHead - mark, q.wires, q.pTail);
    }
  }

  lemma CarryTaken(q: Queues, next: Queues, mark: nat, r: nat, end: Ending)
    requires CarryEnd(q, mark, r, end) && q.cTail + 3 <= mark && q.wires > 0
    requires next.wires == q.wires - 1 && next.pTail == q.pTail && next.cTail == q.cTail + 3 && next.cHead == q.cHead + 1
    ensures CarryEnd(next, mark, r, end)
  {
    NextAdder(r, mark - q.cTail, q.cHead - mark, q.wires, q.pTail);
  }

  /** Consumes carries three at a time; those that come back are used in the rounds that follow. */
  method DrainCarries(bc: BooleanCircuit, q0: Queues, ghost v0: Rows, ghost f: Frame, ghost r0: nat)
    returns (q: Queues, ghost v: Rows, ghost depth: nat)
    requires bc.Valid() && Live(bc, q0, v0, f, r0)
    modifies bc
    ensures bc.Valid() && bc.Extends() && Live(bc, q, v, f, depth)
    ensures CarriesUsed(q0, q, r0, depth)
  {
    q, v := q0, v0;
    ghost var mark: nat, r: nat, end := q.cHead, r0, EndingAt(r0, Carries(q), 0, q.wires, q.pTail);
    while q.cTail + 2 < q.cHead
      invariant bc.Valid() && bc.Extends() && CarryRound(bc, q, v, mark, f, r) && CarryEnd(q, mark, r, end)
      decreases q.wires
    {
      q, v, mark, r := ConsumeCarry(bc, q, v, mark, f, r, end);
    }
    depth := if mark < q.cHead then r + 1 else r;
    CarriesEnded(q0, q, mark, r, end, r0, depth);
  }

  /** Round r of consuming survivors: those before mark can be used in it, those that come back, from the next one on. */
  ghost predicate SurvivorRound(bc: BooleanCircuit, q: Queues, v: Rows, mark: nat, f: Frame, r: nat)
    reads bc
  {
    && q.pTail <= mark <= q.pHead && RowsHold(bc, q.survivors, v.survivors, q.pTail, mark, f.width, r)
    && Live(bc, q, v, f, if mark < q.pHead then r + 1 else r)
  }

  method PutSurvivorCsa(bc: BooleanCircuit, q: Queues, ghost v: Rows, ghost mark: nat, ghost f: Frame, ghost r: nat)
    returns (next: Queues, ghost nextRows: Rows)
    requires bc.Valid() && SurvivorRound(bc, q, v, mark, f, r) && q.pTail + 3 <= mark
    modifies bc
    ensures bc.Valid() && bc.Extends() && SurvivorRound(bc, next, nextRows, mark, f, r)
    ensures next.wires == q.wires - 1 && next.cTail == q.cTail && next.pTail == q.pTail + 3 && next.pHead == q.pHead + 1
  {
    var t := q.pTail;
    TotalFront3(v.survivors, t, q.pHead);
    ThreeHold(bc, q.survivors, v.survivors, t, mark, f.width, r);
    next, nextRows := PutCsa(bc, q, q.survivors[t], q.survivors[t + 1], q.survivors[t + 2], t + 3, q.cTail, v,
                             v.survivors[t], v.survivors[t + 1], v.survivors[t + 2], f, if mark < q.pHead then r + 1 else r, r);
    StillHold(bc, q.survivors, v.survivors, next.survivors, nextRows.survivors, q.pHead, t + 3, mark, f.width, r);
  }

  ghost predicate SurvivorEnd(q: Queues, mark: nat, r: nat, end: Ending) {
    q.pTail <= mark <= q.pHead && end == EndingAt(r, mark - q.pTail, q.pHead - mark, q.wires, q.cTail)
  }

  lemma SurvivorsEnded(q0: Queues, q: Queues, mark: nat, r: nat, end: Ending, r0: nat, depth: nat)
    requires SurvivorEnd(q, mark, r, end) && q.pHead < q.pTail + 3 && end == EndingAt(r0, Survivors(q0), 0, q0.wires, q0.cTail)
    requires depth == if mark < q.pHead then r + 1 else r
    ensures SurvivorsUsed(q0, q, r0, depth)
  {
    Ended(r, mark - q.pTail, q.pHead - mark, q.wires, q.cTail);
  }

  /** The next adder, in the next round if it has to wait. */
  method ConsumeSurvivor(bc: BooleanCircuit, q: Queues, ghost v: Rows, ghost mark0: nat, ghost f: Frame, ghost r0: nat, ghost end: Ending)
    returns (next: Queues, ghost nextRows: Rows, ghost mark: nat, ghost r: nat)
    requires bc.Valid() && SurvivorRound(bc, q, v, mark0, f, r0) && SurvivorEnd(q, mark0, r0, end) && q.pTail + 2 < q.pHead
    modifies bc
    ensures bc.Valid() && bc.Extends() && SurvivorRound(bc, next, nextRows, mark, f, r) && SurvivorEnd(next, mark, r, end) && next.wires < q.wires
  {
    mark, r := if mark0 < q.pTail + 3 then q.pHead else mark0, if mark0 < q.pTail + 3 then r0 + 1 else r0;
    SurvivorWaits(q, mark0, r0, end);
    next, nextRows := PutSurvivorCsa(bc, q, v, mark, f, r);
    SurvivorTaken(q, next, mark, r, end);
  }

  lemma SurvivorWaits(q: Queues, mark: nat, r: nat, end: Ending)
    requires SurvivorEnd(q, mark, r, end) && q.pTail + 2 < q.pHead
    ensures mark < q.pTail + 3 ==> SurvivorEnd(q, q.pHead, r + 1, end)
  {
    if mark < q.pTail + 3 {
      NextRound(r, mark - q.pTail, q.pHead - mark, q.wires, q.cTail);
    }
  }

  lemma SurvivorTaken(q: Queues, next: Queues, mark: nat, r: nat, end: Ending)
    requires SurvivorEnd(q, mark, r, end) && q.pTail + 3 <= mark && q.wires > 0
    requires next.wires == q.wires - 1 && next.cTail == q.cTail && next.pTail == q.pTail + 3 && next.pHead == q.pHead + 1
    ensures SurvivorEnd(next, mark, r, end)
  {
    NextAdder(r, mark - q.pTail, q.pHead - mark, q.wires, q.cTail);
  }

  /** Consumes survivors three at a time; those that come back are used in the rounds that follow. */
  method DrainSurvivors(bc: BooleanCircuit, q0: Queues, ghost v0: Rows, ghost f: Frame, ghost r0: nat)
    returns (q: Queues, ghost v: Rows, ghost depth: nat)
    requires bc.Valid() && Live(bc, q0, v0, f, r0)
    modifies bc
    ensures bc.Valid() && bc.Extends() && Live(bc, q, v, f, depth)
    ensures SurvivorsUsed(q0, q, r0, depth)
  {
    q, v := q0, v0;
    ghost var mark: nat, r: nat, end := q.pHead, r0, EndingAt(r0, Survivors(q), 0, q.wires, q.cTail);
    while q.pTail + 2 < q.pHead
      invariant bc.Valid() && bc.Extends() && SurvivorRound(bc, q, v, mark, f, r) && SurvivorEnd(q, mark, r, end)
      decreases q.wires
    {
      q, v, mark, r := ConsumeSurvivor(bc, q, v, mark, f, r, end);
    }
    depth := if mark < q.pHead then r + 1 else r;
    SurvivorsEnded(q0, q, mark, r, end, r0, depth);
  }

  /** Two rows of the width whose sum is the total. */
  ghost predicate IsResult(bc: BooleanCircuit, out: seq<seq<nat>>, ov: seq<seq<bool>>, width: nat, total: nat, r: nat)
    reads bc
  {
    && |out| == |ov| == 2 && RowsHold(bc, out, ov, 0, 2, width, r)
    && Wrap(Num(ov[0]) + Num(ov[1]), width) == Wrap(total, width)
  }

  /** The rows j..left of the remainder are live; left0 of them were there at the start. */
  ghost predicate RemLive(bc: BooleanCircuit, rem: seq<seq<nat>>, rv: seq<seq<bool>>, j: nat, left: nat, wires: nat,
                          left0: nat, width: nat, total: nat, r: nat)
    reads bc
  {
    && width > 0 && |rem| == 8 && wires >= 2 && left == j + wires && left + 2 * wires == 3 * left0 <= 12
    && RowsHold(bc, rem, rv, j, left, width, r)
    && Wrap(Total(rv, j, left), width) == Wrap(total, width)
  }

  /** One adder on the remainder. */
  method PutRemainderCsa(bc: BooleanCircuit, rem: seq<seq<nat>>, j: nat, left: nat, ghost rv: seq<seq<bool>>, ghost wires: nat,
                         ghost left0: nat, ghost width: nat, ghost total: nat, ghost r: nat)
    returns (nextRem: seq<seq<nat>>, out: seq<seq<nat>>, ghost nextVals: seq<seq<bool>>)
    requires bc.Valid() && RemLive(bc, rem, rv, j, left, wires, left0, width, total, r) && wires > 2
    modifies bc
    ensures bc.Valid() && bc.Extends()
    ensures RemLive(bc, nextRem, nextVals, j + 3, left + 2, wires - 1, left0, width, total, r + 1)
    ensures out == [nextRem[left], nextRem[left + 1]] && bc.AndCount() == old(bc.AndCount()) + CsaAnds(width, bc.width)
  {
    ghost var s, c := Sum3(rv[j], rv[j + 1], rv[j + 2]), Carry3(rv[j], rv[j + 1], rv[j + 2]);
    TotalFront3(rv, j, left);
    ReplaceThree(rv[j], rv[j + 1], rv[j + 2], Total(rv, j + 3, left), total);
    out := PutCarrySaveGate(bc, rem[j], rem[j + 1], rem[j + 2], rv[j], rv[j + 1], rv[j + 2], r);
    RowsPush(bc, rem, rv, j + 3, left, width, r + 1, out[0], s);
    RowsPush(bc, rem[left := out[0]], rv[left := s], j + 3, left + 1, width, r + 1, out[1], c);
    nextRem := rem[left := out[0]][left + 1 := out[1]];
    nextVals := rv[left := s][left + 1 := c];
  }

  /** Fewer than three rows in either queue: the three or four that are left go through rem. */
  method FinishRemainder(bc: BooleanCircuit, q: Queues, ghost v: Rows, ghost f: Frame, ghost r: nat)
    returns (out: seq<seq<nat>>, ghost ov: seq<seq<bool>>, ghost depth: nat)
    requires bc.Valid() && Live(bc, q, v, f, r)
    requires q.pHead < q.pTail + 3 && q.cHead < q.cTail + 3 && q.wires > 2
    modifies bc
    ensures bc.Valid() && bc.Extends() && IsResult(bc, out, ov, f.width, f.total, depth) && depth + 2 == r + q.wires
    ensures bc.AndCount() + Times(2, CsaAnds(f.width, bc.width)) == f.ands
  {
    var p: nat, c: nat := q.pHead - q.pTail, q.cHead - q.cTail;
    var rem := Remainder(q.survivors, q.carryLines, q.pTail, q.cTail, p, c);
    ghost var rv := Remainder(v.survivors, v.carries, q.pTail, q.cTail, p, c);
    RemainderLive(bc, q, v, p, c, f, r);
    out, ov, depth := DrainRemainder(bc, rem, q.wires, rv, f.width, f.total, r);
  }

  method DrainRemainder(bc: BooleanCircuit, rem0: seq<seq<nat>>, wires0: nat, ghost rv0: seq<seq<bool>>,
                        ghost width: nat, ghost total: nat, ghost r: nat)
    returns (out: seq<seq<nat>>, ghost ov: seq<seq<bool>>, ghost depth: nat)
    requires bc.Valid() && RemLive(bc, rem0, rv0, 0, wires0, wires0, wires0, width, total, r) && wires0 > 2
    modifies bc
    ensures bc.Valid() && bc.Extends() && IsResult(bc, out, ov, width, total, depth) && depth + 2 == r + wires0
    ensures bc.AndCount() + Times(2, CsaAnds(width, bc.width)) == old(bc.AndCount()) + Times(wires0, CsaAnds(width, bc.width))
  {
    var j: nat, left: nat, wires: nat, rem := 0, wires0, wires0, rem0;
    ghost var rv;
    out, rv, depth := [], rv0, r;
    while wires > 2
      invariant bc.Valid() && bc.Extends() && RemLive(bc, rem, rv, j, left, wires, wires0, width, total, depth)
      invariant depth + wires == r + wires0
      invariant bc.AndCount() + Times(wires, CsaAnds(width, bc.width)) == old(bc.AndCount()) + Times(wires0, CsaAnds(width, bc.width))
      invariant wires < wires0 ==> out == [rem[left - 2], rem[left - 1]]
      decreases wires
    {
      rem, out, rv := PutRemainderCsa(bc, rem, j, left, rv, wires, wires0, width, total, depth);
      left, j, wires, depth := left + 2, j + 3, wires - 1, depth + 1;
    }
    RemainderDone(bc, rem, rv, j, left, wires0, width, total, depth);
    ov := [rv[j], rv[j + 1]];
  }

  lemma RemainderLive(bc: BooleanCircuit, q: Queues, v: Rows, p: nat, c: nat, f: Frame, r: nat)
    requires Live(bc, q, v, f, r) && q.pHead == q.pTail + p && q.cHead == q.cTail + c
    requires p < 3 && c < 3 && q.wires > 2
    ensures 1 <= p <= 2 && 1 <= c <= 2 && p + c == q.wires
    ensures RemLive(bc, Remainder(q.survivors, q.carryLines, q.pTail, q.cTail, p, c),
                    Remainder(v.survivors, v.carries, q.pTail, q.cTail, p, c), 0, q.wires, q.wires, q.wires, f.width, f.total, r)
  {
    RemainderTotal(q, v, p, c);
  }

  lemma RemainderDone(bc: BooleanCircuit, rem: seq<seq<nat>>, rv: seq<seq<bool>>, j: nat, left: nat, left0: nat,
                      width: nat, total: nat, r: nat)
    requires RemLive(bc, rem, rv, j, left, 2, left0, width, total, r)
    ensures IsResult(bc, [rem[left - 2], rem[left - 1]], [rv[j], rv[j + 1]], width, total, r)
  {
    TotalFront(rv, j, left);
    TotalFront(rv, j + 1, left);
  }

  /** The array rem: the live survivors, then the live carries. */
  function Remainder<T>(survivors: seq<seq<T>>, carries: seq<seq<T>>, pTail: nat, cTail: nat, p: nat, c: nat): (rem: seq<seq<T>>)
    requires pTail + p <= |survivors| && cTail + c <= |carries| && 1 <= p <= 2 && 1 <= c <= 2 && p + c >= 3
    ensures |rem| == 8
    ensures forall i | 0 <= i < p + c :: rem[i] == if i < p then survivors[pTail + i] else carries[cTail + i - p]
  {
    [survivors[pTail],
     if p > 1 then survivors[pTail + 1] else carries[cTail],
     if p > 1 then carries[cTail] else carries[cTail + 1],
     if p + c > 3 then carries[cTail + 1] else [], [], [], [], []]
  }

  lemma RemainderTotal(q: Queues, v: Rows, p: nat, c: nat)
    requires q.pHead <= |v.survivors| && q.cHead <= |v.carries|
    requires q.pHead == q.pTail + p && q.cHead == q.cTail + c && 1 <= p <= 2 && 1 <= c <= 2 && p + c >= 3
    ensures Total(Remainder(v.survivors, v.carries, q.pTail, q.cTail, p, c), 0, p + c) == TotalFrom(q, v, q.pTail, q.cTail)
  {
    var rv := Remainder(v.survivors, v.carries, q.pTail, q.cTail, p, c);
    TotalFront3(rv, 0, p + c);
    OneOrTwo(v.survivors, q.pTail, q.pHead);
    OneOrTwo(v.carries, q.cTail, q.cHead);
    if p + c > 3 {
      TotalFront(rv, 3, 4);
    }
  }

  lemma OneOrTwo(rows: seq<seq<bool>>, lo: nat, hi: nat)
    requires lo < hi <= |rows| && hi <= lo + 2
    ensures Total(rows, lo, hi) == Num(rows[lo]) + if lo + 1 < hi then Num(rows[lo + 1]) else 0
  {
    TotalFront(rows, lo, hi);
    if lo + 1 < hi {
      TotalFront(rows, lo + 1, hi);
    }
  }

  /** At exit the outputs of the last adder are the only live rows. */
  lemma LastPair(bc: BooleanCircuit, q: Queues, v: Rows, f: Frame, r: nat)
    requires Live(bc, q, v, f, r) && q.wires == 2 < f.k
    ensures IsResult(bc, q.out, [v.survivors[q.pHead - 1], v.carries[q.cHead - 1]], f.width, f.total, r)
  {
    TotalFront(v.survivors, q.pTail, q.pHead);
    TotalFront(v.carries, q.cTail, q.cHead);
  }

  /** At the start every input is a survivor. */
  lemma AllLive(bc: BooleanCircuit, ins: seq<seq<nat>>, vals: seq<seq<bool>>, q: Queues, v: Rows, f: Frame, r: nat)
    requires |ins| >= 3 && f.width > 0 && RowsHold(bc, ins, vals, 0, |ins|, f.width, r)
    requires f == Frame(|ins|, f.width, Total(vals, 0, |ins|), bc.AndCount() + Times(|ins|, CsaAnds(f.width, bc.width)))
    requires q == Queues(ins + seq(|ins|, _ => []), seq(|ins| - 2, _ => []), |ins|, 0, 0, 0, |ins|, [])
    requires v == Rows(vals + seq(|ins|, _ => []), seq(|ins| - 2, _ => []))
    ensures Live(bc, q, v, f, r)
  {
    TotalCong(vals, v.survivors, 0, |ins|);
    assert forall i | 0 <= i < |ins| :: q.survivors[i] == ins[i] && v.survivors[i] == vals[i];
  }

  /** Fewer than three survivors are left, and the rounds still to come are those that were not taken. */
  predicate Advanced(q0: Queues, q: Queues, r: nat, depth: nat) {
    && r + NetRounds(Survivors(q0), Carries(q0)) ==
       depth + (if q.wires > 2 && Carries(q) < 3 then q.wires - 2 else NetRounds(Survivors(q), Carries(q)))
    && Survivors(q) < 3 && q.wires <= q0.wires && (Carries(q) >= 3 ==> q.wires < q0.wires)
  }

  /** What both queues hold, and which rounds are left, once the carries and then the survivors have been consumed. */
  lemma StepTaken(q0: Queues, q1: Queues, q: Queues, k: nat, r: nat, depth1: nat, depth: nat)
    requires Counts(q0, k) && Counts(q1, k) && Counts(q, k) && q0.wires > 2
    requires CarriesUsed(q0, q1, r, depth1) && SurvivorsUsed(q1, q, depth1, depth)
    ensures Advanced(q0, q, r, depth)
  {
    SamePlace(q0, q1, q, k);
    var p0, p1, c2 := NetStep(Survivors(q0), Carries(q0));
    assert p0 == Survivors(q1) && p1 == Survivors(q) && c2 == Carries(q);
  }

  predicate Consistent(q: Queues) {
    q.pTail <= q.pHead && q.cTail <= q.cHead && q.wires == Survivors(q) + Carries(q)
  }

  lemma SamePlace(q0: Queues, q1: Queues, q: Queues, k: nat)
    requires Counts(q0, k) && Counts(q1, k) && Counts(q, k) && q1.pTail == q0.pTail && q.cTail == q1.cTail
    ensures Consistent(q0) && Consistent(q1) && Consistent(q)
    ensures Survivors(q1) == Survivors(q0) + (q0.wires - q1.wires) && Carries(q) == Carries(q1) + (q1.wires - q.wires)
  {
  }

  /** Both queues are consumed once. */
  method DrainBoth(bc: BooleanCircuit, q0: Queues, ghost v0: Rows, ghost f: Frame, ghost r: nat)
    returns (q: Queues, ghost v: Rows, ghost depth: nat)
    requires bc.Valid() && Live(bc, q0, v0, f, r) && q0.wires > 2
    modifies bc
    ensures bc.Valid() && bc.Extends() && Live(bc, q, v, f, depth)
    ensures Advanced(q0, q, r, depth)
  {
    q, v, depth := DrainCarries(bc, q0, v0, f, r);
    ghost var q1, depth1 := q, depth;
    q, v, depth := DrainSurvivors(bc, q, v, f, depth);
    StepTaken(q0, q1, q, f.k, r, depth1, depth);
  }

  /** At least two rows of a common width become exactly two rows with the same sum. */
  method PutCSNNetwork(bc: BooleanCircuit, ins: seq<seq<nat>>, ghost vals: seq<seq<bool>>, ghost width: nat, ghost r: nat)
    returns (out: seq<seq<nat>>, ghost ov: seq<seq<bool>>, ghost depth: nat)
    requires bc.Valid() && |ins| >= 2 && width > 0 && RowsHold(bc, ins, vals, 0, |ins|, width, r)
    modifies bc
    ensures bc.Valid() && bc.Extends() && IsResult(bc, out, ov, width, Total(vals, 0, |vals|), depth)
    ensures depth == r + NetRounds(|ins|, 0)
    ensures bc.AndCount() == old(bc.AndCount()) + Times(|ins| - 2, Times(width - 1, bc.width))
  {
    var k := |ins|;
    ghost var total := Total(vals, 0, k);
    if k < 3 {
      TotalFront(vals, 0, 2);
      TotalFront(vals, 1, 2);
      return ins, vals, r;
    }
    var q := Queues(ins + seq(k, _ => []), seq(k - 2, _ => []), k, 0, 0, 0, k, []);
    ghost var v := Rows(vals + seq(k, _ => []), seq(k - 2, _ => []));
    ghost var f := Frame(k, width, total, bc.AndCount() + Times(k, CsaAnds(width, bc.width)));
    AllLive(bc, ins, vals, q, v, f, r);
    TimesAdd(k - 2, 2, CsaAnds(width, bc.width));
    out, ov, depth := PutNetwork(bc, q, v, f, r);
  }

  /** Both queues are consumed in turns until two rows are left. */
  method PutNetwork(bc: BooleanCircuit, q0: Queues, ghost v0: Rows, ghost f: Frame, ghost r: nat)
    returns (out: seq<seq<nat>>, ghost ov: seq<seq<bool>>, ghost depth: nat)
    requires bc.Valid() && Live(bc, q0, v0, f, r) && q0.wires == f.k > 2
    modifies bc
    ensures bc.Valid() && bc.Extends() && IsResult(bc, out, ov, f.width, f.total, depth) && depth == r + NetRounds(Survivors(q0), Carries(q0))
    ensures bc.AndCount() + Times(2, CsaAnds(f.width, bc.width)) == f.ands
  {
    var q := q0;
    ghost var v := v0;
    depth := r;
    while q.wires > 2
      invariant bc.Valid() && bc.Extends() && Live(bc, q, v, f, depth) && depth + NetRounds(Survivors(q), Carries(q)) == r + NetRounds(Survivors(q0), Carries(q0))
      decreases q.wires
    {
      q, v, depth := DrainBoth(bc, q, v, f, depth);
      if q.pHead < q.pTail + 3 && q.cHead < q.cTail + 3 && q.wires > 2 {
        out, ov, depth := FinishRemainder(bc, q, v, f, depth);
        return;
      }
    }
    LastPair(bc, q, v, f, depth);
    out, ov := q.out, [v.survivors[q.pHead - 1], v.carries[q.cHead - 1]];
  }
}
