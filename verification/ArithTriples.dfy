/** Products of words from correlated oblivious transfers, and multiplication triples. */
module ArithTriples {
  import opened Bits
  import opened Words

  // ----- one product ----------------------------------------------------------------------

  /** The operand after i doublings in a word. */
  function Doubled(a: nat, i: nat, m: nat): (d: nat)
    requires m > 0
    ensures d < m
  {
    if i == 0 then Mod(a, m) else Mod(2 * Doubled(a, i - 1, m), m)
  }

  lemma {:induction false} DoubledIs(a: nat, i: nat, m: nat)
    requires m > 0
    ensures Doubled(a, i, m) == Mod(a * Pow2(i), m)
  {
    if i > 0 {
      DoubledIs(a, i - 1, m);
      TimesTwo(a, Pow2(i - 1));
      ModMul(a * Pow2(i - 1), 2, m);
    }
  }

  lemma TimesTwo(a: nat, p: nat)
    ensures a * p * 2 == 2 * (a * p) == a * (2 * p)
  {
  }

  /** The sum of n random masks. */
  function MaskSum(rnd: seq<nat>, at: nat, n: nat): nat
    requires at + n <= |rnd|
  {
    if n == 0 then 0 else MaskSum(rnd, at, n - 1) + rnd[at + n - 1]
  }

  /** What the receiver adds up: the unmasked word where it chose one, minus its mask where it chose zero. */
  function TakenSum(mask: seq<nat>, rcv: seq<nat>, choice: seq<bool>, at: nat, from: nat, n: nat, l: nat): int
    requires at + n <= |mask| && at + n <= |rcv| && from + n <= |choice|
  {
    if n == 0 then 0
    else
      TakenSum(mask, rcv, choice, at, from, n - 1, l) +
      if choice[from + n - 1] then XorWord(mask[at + n - 1], rcv[at + n - 1], l) else Minus(mask[at + n - 1])
  }

  /** The number that n choice bits stand for. */
  function ChoiceValue(choice: seq<bool>, from: nat, n: nat): nat
    requires from + n <= |choice|
  {
    if n == 0 then 0 else ChoiceValue(choice, from, n - 1) + Weight(choice[from + n - 1], n - 1)
  }

  lemma {:induction false} MaskSumIs(rnd: seq<nat>, at: nat, n: nat)
    requires at + n <= |rnd|
    ensures MaskSum(rnd, at, n) == Sum(rnd[at..at + n])
  {
    if n > 0 {
      MaskSumIs(rnd, at, n - 1);
      assert rnd[at..at + n][..n - 1] == rnd[at..at + n - 1];
    }
  }

  /** The terms of that sum. */
  function TakenWords(mask: seq<nat>, rcv: seq<nat>, choice: seq<bool>, at: nat, from: nat, n: nat, l: nat): (w: seq<int>)
    requires at + n <= |mask| && at + n <= |rcv| && from + n <= |choice|
    ensures |w| == n
    ensures forall i | 0 <= i < n :: w[i] == if choice[from + i] then XorWord(mask[at + i], rcv[at + i], l) else Minus(mask[at + i])
  {
    seq(n, i requires 0 <= i < n => if choice[from + i] then XorWord(mask[at + i], rcv[at + i], l) else Minus(mask[at + i]))
  }

  lemma {:induction false} TakenSumIs(mask: seq<nat>, rcv: seq<nat>, choice: seq<bool>, at: nat, from: nat, n: nat, l: nat)
    requires at + n <= |mask| && at + n <= |rcv| && from + n <= |choice|
    ensures TakenSum(mask, rcv, choice, at, from, n, l) == Sum(TakenWords(mask, rcv, choice, at, from, n, l))
  {
    if n > 0 {
      TakenSumIs(mask, rcv, choice, at, from, n - 1, l);
      assert TakenWords(mask, rcv, choice, at, from, n, l)[..n - 1] == TakenWords(mask, rcv, choice, at, from, n - 1, l);
    }
  }

  /** The choice bits stand for the number that they spell. */
  lemma {:induction false} ChoiceValueIs(choice: seq<bool>, from: nat, n: nat)
    requires from + n <= |choice|
    ensures ChoiceValue(choice, from, n) == Num(choice[from..from + n])
  {
    if n > 0 {
      ChoiceValueIs(choice, from, n - 1);
      assert choice[from..from + n] == choice[from..from + n - 1] + [choice[from + n - 1]];
      NumSnoc(choice[from..from + n - 1], choice[from + n - 1]);
    }
  }

  /** Transfer i of a product: the masked correlation that the sender sends. */
  predicate SentAt(a: nat, rnd: seq<nat>, pad: seq<nat>, sent: seq<nat>, at: nat, i: nat, l: nat)
    requires at + i < |rnd| && at + i < |pad| && at + i < |sent|
  {
    sent[at + i] == XorWord(pad[at + i], Mod(Doubled(a, i, Pow2(l)) - rnd[at + i], Pow2(l)), l)
  }

  /** And the word that reached the receiver: the one it has chosen. */
  predicate ChosenAt(rnd: seq<nat>, pad: seq<nat>, mask: seq<nat>, choice: seq<bool>, at: nat, from: nat, i: nat)
    requires at + i < |rnd| && at + i < |pad| && at + i < |mask| && from + i < |choice|
  {
    mask[at + i] == if choice[from + i] then pad[at + i] else rnd[at + i]
  }

  ghost predicate RowSent(a: nat, rnd: seq<nat>, pad: seq<nat>, sent: seq<nat>, at: nat, n: nat, l: nat) {
    && at + n <= |rnd| && at + n <= |pad| && at + n <= |sent|
    && forall i: nat {:trigger SentAt(a, rnd, pad, sent, at, i, l)} | i < n :: SentAt(a, rnd, pad, sent, at, i, l)
  }

  ghost predicate RowChosen(rnd: seq<nat>, pad: seq<nat>, mask: seq<nat>, choice: seq<bool>, at: nat, from: nat, n: nat) {
    && at + n <= |rnd| && at + n <= |pad| && at + n <= |mask| && from + n <= |choice|
    && forall i: nat {:trigger ChosenAt(rnd, pad, mask, choice, at, from, i)} | i < n :: ChosenAt(rnd, pad, mask, choice, at, from, i)
  }

  /** Sender and receiver share the product of the sender's word and the receiver's bits. */
  lemma {:induction false} ProductShares(a: nat, rnd: seq<nat>, pad: seq<nat>, mask: seq<nat>, rcv: seq<nat>, choice: seq<bool>,
                                         at: nat, from: nat, n: nat, l: nat)
    requires RowSent(a, rnd, pad, rcv, at, n, l) && RowChosen(rnd, pad, mask, choice, at, from, n)
    ensures Mod(MaskSum(rnd, at, n) + TakenSum(mask, rcv, choice, at, from, n, l), Pow2(l)) ==
            Mod(a * ChoiceValue(choice, from, n), Pow2(l))
  {
    if n > 0 {
      var m, i, r := Pow2(l), n - 1, rnd[at + n - 1];
      var before := MaskSum(rnd, at, i) + TakenSum(mask, rcv, choice, at, from, i, l);
      ProductShares(a, rnd, pad, mask, rcv, choice, at, from, i, l);
      assert SentAt(a, rnd, pad, rcv, at, i, l) && ChosenAt(rnd, pad, mask, choice, at, from, i);
      if choice[from + i] {
        var x := Mod(Doubled(a, i, m) - r, m);
        Unmasked(pad[at + i], x, l);
        ProductStep(a, i, before, r, x, ChoiceValue(choice, from, i), m);
      }
    }
  }

  /** One chosen bit adds the operand at its weight. */
  lemma ProductStep(a: nat, i: nat, before: int, r: nat, x: nat, v: nat, m: nat)
    requires m > 0 && x == Mod(Doubled(a, i, m) - r, m) && Mod(before, m) == Mod(a * v, m)
    ensures Mod(before + r + x, m) == Mod(a * (v + Pow2(i)), m)
  {
    var d, p := Doubled(a, i, m), a * Pow2(i);
    ModAdd(d - r, before + r, m);
    assert Mod(before + r + x, m) == Mod(before + d, m);
    DoubledIs(a, i, m);
    ModAdd(p, before, m);
    ModAdd(before, p, m);
    ModAdd(a * v, p, m);
    Spread(a, v, Pow2(i));
  }

  lemma Spread(a: nat, v: nat, w: nat)
    ensures a * (v + w) == a * v + a * w
  {
  }

  lemma RowSentNext(a: nat, rnd: seq<nat>, pad: seq<nat>, before: seq<nat>, sent: seq<nat>, at: nat, i: nat, l: nat)
    requires RowSent(a, rnd, pad, before, at, i, l) && |sent| == |before| && at + i < |sent| && at + i < |rnd| && at + i < |pad|
    requires forall c: nat | c < |sent| && c != at + i :: sent[c] == before[c]
    requires SentAt(a, rnd, pad, sent, at, i, l)
    ensures RowSent(a, rnd, pad, sent, at, i + 1, l)
  {
    forall k: nat | k < i + 1
      ensures SentAt(a, rnd, pad, sent, at, k, l)
    {
      assert k < i ==> SentAt(a, rnd, pad, before, at, k, l);
    }
  }

  /** A row that was sent stays as it is when other words change. */
  lemma RowSentKept(a: nat, rnd: seq<nat>, pad: seq<nat>, before: seq<nat>, sent: seq<nat>, at: nat, l: nat)
    requires RowSent(a, rnd, pad, before, at, l, l) && |sent| == |before|
    requires forall c: nat | at <= c < at + l :: sent[c] == before[c]
    ensures RowSent(a, rnd, pad, sent, at, l, l)
  {
    forall k: nat | k < l
      ensures SentAt(a, rnd, pad, sent, at, k, l)
    {
      assert SentAt(a, rnd, pad, before, at, k, l);
    }
  }

  lemma RowsKept(input: seq<nat>, startpos: nat, rnd: seq<nat>, pad: seq<nat>, before: seq<nat>, sent: seq<nat>, k: nat, at: nat, l: nat)
    requires startpos + k <= |input| && |sent| == |before| && forall c: nat | c < |sent| && c < at :: sent[c] == before[c]
    requires forall x: nat {:trigger Row(x, l)} | x < k ::
               Row(x, l) + l <= at && RowSent(input[startpos + x], rnd, pad, before, Row(x, l), l, l)
    ensures forall x: nat {:trigger Row(x, l)} | x < k :: RowSent(input[startpos + x], rnd, pad, sent, Row(x, l), l, l)
  {
    forall x: nat | x < k
      ensures RowSent(input[startpos + x], rnd, pad, sent, Row(x, l), l, l)
    {
      RowSentKept(input[startpos + x], rnd, pad, before, sent, Row(x, l), l);
    }
  }

  /** The words of a row were not touched before the row was sent. */
  lemma RowSentFrom(a: nat, rnd: seq<nat>, pad: seq<nat>, before: seq<nat>, sent: seq<nat>, at: nat, l: nat)
    requires RowSent(a, rnd, before, sent, at, l, l) && |pad| == |before| && forall c: nat | at <= c < |pad| :: pad[c] == before[c]
    ensures RowSent(a, rnd, pad, sent, at, l, l)
  {
    forall k: nat | k < l
      ensures SentAt(a, rnd, pad, sent, at, k, l)
    {
      assert SentAt(a, rnd, before, sent, at, k, l);
    }
  }

  lemma TakenWordsCong(mask: seq<nat>, other: seq<nat>, rcv: seq<nat>, choice: seq<bool>, at: nat, from: nat, n: nat, l: nat)
    requires at + n <= |mask| && at + n <= |other| && at + n <= |rcv| && from + n <= |choice|
    requires forall c: nat | at <= c < at + n :: mask[c] == other[c]
    ensures TakenWords(mask, rcv, choice, at, from, n, l) == TakenWords(other, rcv, choice, at, from, n, l)
  {
  }

  // ----- the loops over all products ------------------------------------------------------

  /** Where the transfers of product k of a block begin. */
  function Row(k: nat, l: nat): nat {
    if k == 0 then 0 else Row(k - 1, l) + l
  }

  lemma {:induction false} RowIs(k: nat, l: nat)
    ensures Row(k, l) == k * l
  {
    if k > 0 {
      RowIs(k - 1, l);
      assert (k - 1) * l + l == k * l;
    }
  }

  lemma {:induction false} RowWithin(j: nat, k: nat, l: nat)
    requires j < k
    ensures Row(j, l) + l <= Row(k, l)
  {
    if j < k - 1 {
      RowWithin(j, k - 1, l);
    }
  }

  /** Product k of a block, as the sender leaves it. */
  ghost predicate SenderRow(input: seq<nat>, values: seq<nat>, rnd: seq<nat>, pad: seq<nat>, sent: seq<nat>, startpos: nat, k: nat, l: nat) {
    && startpos + k < |input| && startpos + k < |values|
    && RowSent(input[startpos + k], rnd, pad, sent, Row(k, l), l, l)
    && values[startpos + k] == Mod(Sum(rnd[Row(k, l)..Row(k, l) + l]), Pow2(l))
  }

  /** Product k of a block, as the receiver leaves it; its choice bits are indexed from the very first product. */
  ghost predicate ReceiverRow(output: seq<nat>, mask: seq<nat>, rcv: seq<nat>, choices: seq<bool>, startpos: nat, k: nat, l: nat) {
    && startpos + k < |output| && Row(k, l) + l <= |mask| && Row(k, l) + l <= |rcv| && Row(startpos + k, l) + l <= |choices|
    && output[startpos + k] == Mod(Sum(TakenWords(mask, rcv, choices, Row(k, l), Row(startpos + k, l), l, l)), Pow2(l))
  }

  /** Both together hold shares of the product of the sender's word and the receiver's bits. */
  ghost predicate ProductRow(input: seq<nat>, values: seq<nat>, output: seq<nat>, choices: seq<bool>, i: nat, l: nat) {
    && i < |input| && i < |values| && i < |output| && Row(i, l) + l <= |choices|
    && (values[i] + output[i]) % Pow2(l) == input[i] * Num(choices[Row(i, l)..Row(i, l) + l]) % Pow2(l)
  }

  ghost predicate SenderRows(input: seq<nat>, values: seq<nat>, rnd: seq<nat>, pad: seq<nat>, sent: seq<nat>, startpos: nat, count: nat, l: nat) {
    forall k: nat {:trigger SenderRow(input, values, rnd, pad, sent, startpos, k, l)} | k < count ::
      SenderRow(input, values, rnd, pad, sent, startpos, k, l)
  }

  ghost predicate ReceiverRows(output: seq<nat>, mask: seq<nat>, rcv: seq<nat>, choices: seq<bool>, startpos: nat, count: nat, l: nat) {
    forall k: nat {:trigger ReceiverRow(output, mask, rcv, choices, startpos, k, l)} | k < count ::
      ReceiverRow(output, mask, rcv, choices, startpos, k, l)
  }

  /** All words reached the receiver as its bits chose them. */
  ghost predicate RowsChosen(rnd: seq<nat>, pad: seq<nat>, mask: seq<nat>, choices: seq<bool>, startpos: nat, count: nat, l: nat) {
    forall k: nat {:trigger Row(k, l)} | k < count :: RowChosen(rnd, pad, mask, choices, Row(k, l), Row(startpos + k, l), l)
  }

  ghost predicate ProductRows(input: seq<nat>, values: seq<nat>, output: seq<nat>, choices: seq<bool>, startpos: nat, count: nat, l: nat) {
    forall i: nat {:trigger ProductRow(input, values, output, choices, i, l)} | startpos <= i < startpos + count ::
      ProductRow(input, values, output, choices, i, l)
  }

  lemma RowProduct(input: seq<nat>, values: seq<nat>, output: seq<nat>, rnd: seq<nat>, pad: seq<nat>, mask: seq<nat>, sent: seq<nat>,
                   choices: seq<bool>, startpos: nat, k: nat, l: nat)
    requires SenderRow(input, values, rnd, pad, sent, startpos, k, l) && ReceiverRow(output, mask, sent, choices, startpos, k, l)
    requires RowChosen(rnd, pad, mask, choices, Row(k, l), Row(startpos + k, l), l)
    ensures ProductRow(input, values, output, choices, startpos + k, l)
  {
    var at, from := Row(k, l), Row(startpos + k, l);
    ProductShares(input[startpos + k], rnd, pad, mask, sent, choices, at, from, l, l);
    ModAddBoth(MaskSum(rnd, at, l), TakenSum(mask, sent, choices, at, from, l, l), Pow2(l));
    MaskSumIs(rnd, at, l);
    TakenSumIs(mask, sent, choices, at, from, l, l);
    ChoiceValueIs(choices, from, l);
    ModIs(values[startpos + k] + output[startpos + k], Pow2(l));
    ModIs(input[startpos + k] * ChoiceValue(choices, from, l), Pow2(l));
  }

  lemma RowsMasked(input: seq<nat>, values: seq<nat>, rnd: seq<nat>, pad: seq<nat>, sent: seq<nat>, startpos: nat, count: nat, l: nat)
    requires startpos + count <= |input| && startpos + count <= |values| && Row(count, l) <= |rnd|
    requires forall x: nat {:trigger Row(x, l)} | x < count ::
               && Row(x, l) + l <= |rnd| && RowSent(input[startpos + x], rnd, pad, sent, Row(x, l), l, l)
               && values[startpos + x] == Mod(MaskSum(rnd, Row(x, l), l), Pow2(l))
    ensures SenderRows(input, values, rnd, pad, sent, startpos, count, l)
  {
    forall k: nat | k < count
      ensures SenderRow(input, values, rnd, pad, sent, startpos, k, l)
    {
      MaskSumIs(rnd, Row(k, l), l);
    }
  }

  class ArithMTMasking {
    const mtBitLen: nat

    constructor (bitlen: nat)
      ensures mtBitLen == bitlen
    {
      mtBitLen := bitlen;
    }

    /** The inner loops of Mask: accumulate the masks of one product, and mask its correlations in place. */
    method MaskProduct(input: nat, rndval: array<nat>, maskedval: array<nat>, at: nat) returns (gtmpval: nat)
      requires rndval != maskedval && at + mtBitLen <= rndval.Length && at + mtBitLen <= maskedval.Length
      modifies maskedval
      ensures RowSent(input, rndval[..], old(maskedval[..]), maskedval[..], at, mtBitLen, mtBitLen)
      ensures forall c: nat | c < maskedval.Length && !(at <= c < at + mtBitLen) :: maskedval[c] == old(maskedval[c])
      ensures gtmpval == Mod(MaskSum(rndval[..], at, mtBitLen), Pow2(mtBitLen))
    {
      var m := Pow2(mtBitLen);
      var diff := Mod(input, m);
      gtmpval := 0;
      for mtbit := 0 to mtBitLen
        invariant diff == Doubled(input, mtbit, m) && gtmpval == Mod(MaskSum(rndval[..], at, mtbit), m)
        invariant RowSent(input, rndval[..], old(maskedval[..]), maskedval[..], at, mtbit, mtBitLen)
        invariant forall c: nat | c < maskedval.Length && !(at <= c < at + mtbit) :: maskedval[c] == old(maskedval[c])
      {
        var tmpval: int := rndval[at + mtbit];
        ModAdd(MaskSum(rndval[..], at, mtbit), tmpval, m);
        gtmpval := Mod(gtmpval + tmpval, m);
        ghost var before := maskedval[..];
        maskedval[at + mtbit] := XorWord(maskedval[at + mtbit], Mod(diff - tmpval, m), mtBitLen);
        RowSentNext(input, rndval[..], old(maskedval[..]), before, maskedval[..], at, mtbit, mtBitLen);
        diff := Mod(2 * diff, m);
      }
    }

    /** The inner loops of UnMask: unmask where the choice is one, and accumulate. */
    method UnMaskProduct(choices: seq<bool>, rcv: seq<nat>, masks: array<nat>, at: nat, from: nat) returns (gtmpval: nat)
      requires at + mtBitLen <= |rcv| && at + mtBitLen <= masks.Length && from + mtBitLen <= |choices|
      modifies masks
      ensures gtmpval == Mod(Sum(TakenWords(old(masks[..]), rcv, choices, at, from, mtBitLen, mtBitLen)), Pow2(mtBitLen))
      ensures forall c: nat | c < masks.Length && !(at <= c < at + mtBitLen) :: masks[c] == old(masks[c])
    {
      var m := Pow2(mtBitLen);
      gtmpval := 0;
      for mtbit := 0 to mtBitLen
        invariant gtmpval == Mod(TakenSum(old(masks[..]), rcv, choices, at, from, mtbit, mtBitLen), m)
        invariant forall c: nat | c < masks.Length && !(at <= c < at + mtbit) :: masks[c] == old(masks[c])
      {
        ghost var before := TakenSum(old(masks[..]), rcv, choices, at, from, mtbit, mtBitLen);
        if choices[from + mtbit] {
          masks[at + mtbit] := XorWord(masks[at + mtbit], rcv[at + mtbit], mtBitLen);
          ModAdd(before, masks[at + mtbit], m);
          gtmpval := Mod(gtmpval + masks[at + mtbit], m);
        } else {
          ModAdd(before, Minus(masks[at + mtbit]), m);
          gtmpval := Mod(gtmpval - masks[at + mtbit], m);
        }
      }
      TakenSumIs(old(masks[..]), rcv, choices, at, from, mtBitLen, mtBitLen);
    }

    /** Mask, for the products startpos to startpos + count of the whole input. */
    method Mask(startpos: nat, count: nat, input: array<nat>, values: array<nat>, rndval: array<nat>, maskedval: array<nat>)
      requires rndval != maskedval && values != rndval && values != maskedval && input != values && input != maskedval
      requires Row(count, mtBitLen) <= rndval.Length && Row(count, mtBitLen) <= maskedval.Length
      requires startpos + count <= input.Length && startpos + count <= values.Length
      modifies values, maskedval
      ensures SenderRows(input[..], values[..], rndval[..], old(maskedval[..]), maskedval[..], startpos, count, mtBitLen)
      ensures forall x: nat | x < values.Length && !(startpos <= x < startpos + count) :: values[x] == old(values[x])
    {
      var ctr := 0;
      for k := 0 to count
        invariant ctr == Row(k, mtBitLen)
        invariant forall c: nat | ctr <= c < maskedval.Length :: maskedval[c] == old(maskedval[c])
        invariant forall x: nat | x < values.Length && !(startpos <= x < startpos + k) :: values[x] == old(values[x])
        invariant forall x: nat {:trigger Row(x, mtBitLen)} | x < k ::
                    && Row(x, mtBitLen) + mtBitLen <= ctr
                    && RowSent(input[startpos + x], rndval[..], old(maskedval[..]), maskedval[..], Row(x, mtBitLen), mtBitLen, mtBitLen)
                    && values[startpos + x] == Mod(MaskSum(rndval[..], Row(x, mtBitLen), mtBitLen), Pow2(mtBitLen))
      {
        RowWithin(k, count, mtBitLen);
        ghost var before := maskedval[..];
        var gtmpval := MaskProduct(input[startpos + k], rndval, maskedval, ctr);
        values[startpos + k] := gtmpval;
        RowsKept(input[..], startpos, rndval[..], old(maskedval[..]), before, maskedval[..], k, ctr, mtBitLen);
        RowSentFrom(input[startpos + k], rndval[..], old(maskedval[..]), before, maskedval[..], ctr, mtBitLen);
        ctr := ctr + mtBitLen;
      }
      RowsMasked(input[..], values[..], rndval[..], old(maskedval[..]), maskedval[..], startpos, count, mtBitLen);
    }

    /** UnMask, for the products startpos to startpos + count; the choice bits are indexed from the very first product. */
    method UnMask(startpos: nat, count: nat, choices: seq<bool>, output: array<nat>, rcvBuf: seq<nat>, tmpmask: array<nat>)
      requires output != tmpmask && Row(count, mtBitLen) <= |rcvBuf| && Row(count, mtBitLen) <= tmpmask.Length
      requires startpos + count <= output.Length && Row(startpos + count, mtBitLen) <= |choices|
      modifies output, tmpmask
      ensures ReceiverRows(output[..], old(tmpmask[..]), rcvBuf, choices, startpos, count, mtBitLen)
      ensures forall x: nat | x < output.Length && !(startpos <= x < startpos + count) :: output[x] == old(output[x])
    {
      var maskctr, i := 0, RowStart(startpos);
      for k := 0 to count
        invariant maskctr == Row(k, mtBitLen) && i == Row(startpos + k, mtBitLen)
        invariant forall c: nat | maskctr <= c < tmpmask.Length :: tmpmask[c] == old(tmpmask[c])
        invariant forall x: nat | x < output.Length && !(startpos <= x < startpos + k) :: output[x] == old(output[x])
        invariant ReceiverRows(output[..], old(tmpmask[..]), rcvBuf, choices, startpos, k, mtBitLen)
      {
        RowWithin(k, count, mtBitLen);
        RowWithin(startpos + k, startpos + count, mtBitLen);
        ghost var before := output[..];
        TakenWordsCong(old(tmpmask[..]), tmpmask[..], rcvBuf, choices, maskctr, i, mtBitLen, mtBitLen);
        var gtmpval := UnMaskProduct(choices, rcvBuf, tmpmask, maskctr, i);
        output[startpos + k] := gtmpval;
        forall x: nat | x < k + 1
          ensures ReceiverRow(output[..], old(tmpmask[..]), rcvBuf, choices, startpos, x, mtBitLen)
        {
          assert x < k ==> ReceiverRow(before, old(tmpmask[..]), rcvBuf, choices, startpos, x, mtBitLen);
        }
        maskctr, i := maskctr + mtBitLen, i + mtBitLen;
      }
    }

    function RowStart(k: nat): nat {
      Row(k, mtBitLen)
    }
  }

  /**
    A block of products: the sender masks, the words travel, the receiver unmasks. The transfers were ideal: of each pair of
    words, the receiver holds the one that its bit has chosen.
   */
  method ShareProducts(sender: ArithMTMasking, receiver: ArithMTMasking, startpos: nat, count: nat, input: array<nat>,
                       values: array<nat>, rndval: array<nat>, maskedval: array<nat>, choices: seq<bool>, output: array<nat>,
                       tmpmask: array<nat>)
    requires sender.mtBitLen == receiver.mtBitLen
    requires rndval != maskedval && values != rndval && values != maskedval && input != values && input != maskedval
    requires output != tmpmask && tmpmask != values && tmpmask != maskedval && output != values && input != output && input != tmpmask
    requires rndval != tmpmask && rndval != output && maskedval != output
    requires startpos + count <= input.Length && startpos + count <= values.Length && startpos + count <= output.Length
    requires var l := sender.mtBitLen;
             Row(count, l) <= rndval.Length && Row(count, l) <= maskedval.Length && Row(count, l) <= tmpmask.Length &&
             Row(startpos + count, l) <= |choices|
    requires RowsChosen(rndval[..], maskedval[..], tmpmask[..], choices, startpos, count, sender.mtBitLen)
    modifies values, maskedval, output, tmpmask
    ensures ProductRows(input[..], values[..], output[..], choices, startpos, count, sender.mtBitLen)
    ensures forall x: nat | x < values.Length && !(startpos <= x < startpos + count) :: values[x] == old(values[x])
    ensures forall x: nat | x < output.Length && !(startpos <= x < startpos + count) :: output[x] == old(output[x])
  {
    ghost var rnd, pad, mask := rndval[..], maskedval[..], tmpmask[..];
    sender.Mask(startpos, count, input, values, rndval, maskedval);
    var sent := maskedval[..];
    receiver.UnMask(startpos, count, choices, output, sent, tmpmask);
    AllProducts(input[..], values[..], output[..], rnd, pad, mask, sent, choices, startpos, count, sender.mtBitLen);
  }

  lemma AllProducts(input: seq<nat>, values: seq<nat>, output: seq<nat>, rnd: seq<nat>, pad: seq<nat>, mask: seq<nat>, sent: seq<nat>,
                    choices: seq<bool>, startpos: nat, count: nat, l: nat)
    requires SenderRows(input, values, rnd, pad, sent, startpos, count, l) && ReceiverRows(output, mask, sent, choices, startpos, count, l)
    requires RowsChosen(rnd, pad, mask, choices, startpos, count, l)
    ensures ProductRows(input, values, output, choices, startpos, count, l)
  {
    forall i: nat | startpos <= i < startpos + count
      ensures ProductRow(input, values, output, choices, i, l)
    {
      var k: nat := i - startpos;
      assert SenderRow(input, values, rnd, pad, sent, startpos, k, l) && ReceiverRow(output, mask, sent, choices, startpos, k, l);
      RowProduct(input, values, output, rnd, pad, mask, sent, choices, startpos, k, l);
    }
  }
}
