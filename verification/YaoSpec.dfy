/** Wire keys, half-gate AND tables and row-reduced universal gates. */
module Garbling {
  import opened Bits
  import opened Circuit

  type Key = seq<bool>

  function Xor(a: Key, b: Key): (c: Key)
    ensures |c| == |a| && forall i | 0 <= i < |a| :: c[i] == (a[i] != At(b, i))
  {
    seq(|a|, i requires 0 <= i < |a| => a[i] != At(b, i))
  }

  function XorIf(a: Key, cond: bool, b: Key): (c: Key)
    ensures |c| == |a|
  {
    if cond then Xor(a, b) else a
  }

  /** The bit that tells the two keys of a wire apart. */
  predicate Last(k: Key) {
    At(k, |k| - 1)
  }

  function Zero(kappa: nat): (k: Key)
    ensures |k| == kappa && forall i | 0 <= i < kappa :: !k[i]
  {
    seq(kappa, _ => false)
  }

  // ----- half gates -----------------------------------------------------------------------

  /** EncryptWire under the two identifiers of a gate: l0, l1 for the left and r0, r1 for the right wire. */
  datatype Masks = Masks(l0: Key, l1: Key, r0: Key, r1: Key)

  /** The two ciphertexts of an AND gate, and what the garbler keeps. */
  datatype HalfGates = HalfGates(tg: Key, te: Key)

  datatype AndTable = AndTable(rows: HalfGates, outKey: Key, pi: bool)

  /**
    The garbled table of an AND gate: the masks are those of the stored key and of the other key of each wire, lpbit and rpbit
    are the permutation bits. The generator half is encrypted under the left wire, the evaluator half under the right one.
   */
  function GarbleAnd(lkey: Key, lpbit: bool, rpbit: bool, R: Key, m: Masks): AndTable {
    var sum := Xor(m.l0, m.r0);
    AndTable(HalfGates(XorIf(Xor(m.l0, m.l1), rpbit, R), Xor(Xor(m.r0, m.r1), XorIf(lkey, lpbit, R))),
             XorIf(sum, Last(sum), R), Last(sum) != (lpbit && rpbit))
  }

  /** EvaluateGarbledTable, with the masks of the keys the evaluator holds. */
  function EvalAnd(lkey: Key, rkey: Key, lMask: Key, rMask: Key, rows: HalfGates): Key {
    var okey := XorIf(Xor(lMask, rMask), Last(lkey), rows.tg);
    if Last(rkey) then Xor(Xor(okey, rows.te), lkey) else okey
  }

  predicate Sized(k: Key, kappa: nat) {
    |k| == kappa > 0
  }

  /** A stored key ends in zero, R in one. */
  predicate Plain(k: Key, kappa: nat) {
    Sized(k, kappa) && !Last(k)
  }

  /** Evaluating a garbled AND yields the key of the product. */
  lemma AndCorrect(lkey: Key, rkey: Key, lpbit: bool, rpbit: bool, R: Key, m: Masks, va: bool, vb: bool, kappa: nat)
    requires Plain(lkey, kappa) && Plain(rkey, kappa) && Sized(R, kappa) && Last(R)
    requires Sized(m.l0, kappa) && Sized(m.l1, kappa) && Sized(m.r0, kappa) && Sized(m.r1, kappa)
    ensures var t := GarbleAnd(lkey, lpbit, rpbit, R, m);
            && Plain(t.outKey, kappa)
            && EvalAnd(XorIf(lkey, va != lpbit, R), XorIf(rkey, vb != rpbit, R),
                       if va != lpbit then m.l1 else m.l0, if vb != rpbit then m.r1 else m.r0, t.rows) ==
               XorIf(t.outKey, (va && vb) != t.pi, R)
  {
    var a, b := va != lpbit, vb != rpbit;
    var sum, flip := Xor(m.l0, m.r0), (a && rpbit) != ((b && lpbit) != (a && b));
    LastFlips(lkey, a, R, kappa);
    LastFlips(rkey, b, R, kappa);
    EvalAndKey(lkey, rkey, a, b, lpbit, rpbit, R, m, kappa);
    XorTwice(sum, Last(sum), flip, R);
    LastCleared(sum, R, kappa);
    assert flip == (((va && vb) != (Last(sum) != (lpbit && rpbit))) != Last(sum));
  }

  /** The last bit of R tells the two keys of a wire apart. */
  lemma LastFlips(k: Key, other: bool, R: Key, kappa: nat)
    requires Plain(k, kappa) && Sized(R, kappa) && Last(R)
    ensures Last(XorIf(k, other, R)) == other
  {
  }

  lemma LastCleared(k: Key, R: Key, kappa: nat)
    requires Sized(k, kappa) && Sized(R, kappa) && Last(R)
    ensures Plain(XorIf(k, Last(k), R), kappa)
  {
  }

  lemma XorTwice(k: Key, x: bool, y: bool, R: Key)
    ensures XorIf(XorIf(k, x, R), y != x, R) == XorIf(k, y, R)
  {
    assert Xor(Xor(k, R), R) == k;
  }

  /** What the evaluator computes from the two ciphertexts. */
  lemma EvalAndKey(lkey: Key, rkey: Key, a: bool, b: bool, lpbit: bool, rpbit: bool, R: Key, m: Masks, kappa: nat)
    requires Plain(lkey, kappa) && Plain(rkey, kappa) && Sized(R, kappa) && Last(R)
    requires Sized(m.l0, kappa) && Sized(m.l1, kappa) && Sized(m.r0, kappa) && Sized(m.r1, kappa)
    requires Last(XorIf(lkey, a, R)) == a && Last(XorIf(rkey, b, R)) == b
    ensures EvalAnd(XorIf(lkey, a, R), XorIf(rkey, b, R), if a then m.l1 else m.l0, if b then m.r1 else m.r0,
                    HalfGates(XorIf(Xor(m.l0, m.l1), rpbit, R), Xor(Xor(m.r0, m.r1), XorIf(lkey, lpbit, R)))) ==
            XorIf(Xor(m.l0, m.r0), (a && rpbit) != ((b && lpbit) != (a && b)), R)
  {
    var tg, te := XorIf(Xor(m.l0, m.l1), rpbit, R), Xor(Xor(m.r0, m.r1), XorIf(lkey, lpbit, R));
    var sum := Xor(m.l0, m.r0);
    if a {
      if b {
        assert Xor(Xor(Xor(Xor(m.l1, m.r1), tg), te), Xor(lkey, R)) == XorIf(sum, rpbit != (lpbit != true), R);
      } else {
        assert Xor(Xor(m.l1, m.r0), tg) == XorIf(sum, rpbit, R);
      }
    } else if b {
      assert Xor(Xor(Xor(m.l0, m.r1), te), lkey) == XorIf(sum, lpbit, R);
    }
  }

  // ----- universal gates ------------------------------------------------------------------

  /** The three ciphertexts of a universal gate, and what the garbler keeps. */
  datatype Rows = Rows(c1: Key, c2: Key, c3: Key)

  datatype UnivTable = UnivTable(rows: Rows, outKey: Key, pi: bool)

  /** Entry of a truth table at position 2a + b. */
  predicate Entry(table: nat, a: bool, b: bool) {
    TableBit(table, a, b)
  }

  /** The garbled table of a universal gate: p0..p3 are the pads of EncryptWireGRR3 for the four pairs of keys; the first ciphertext is all zero. */
  function GarbleUniv(table: nat, lpbit: bool, rpbit: bool, R: Key, p0: Key, p1: Key, p2: Key, p3: Key): UnivTable {
    var kbit := Last(p0);
    var pi := Entry(table, lpbit, rpbit) != kbit;
    var outKey := XorIf(p0, kbit, R);
    var c1 := Xor(p1, XorIf(outKey, Entry(table, lpbit, !rpbit) != pi, R));
    var c2 := Xor(p2, XorIf(outKey, Entry(table, !lpbit, rpbit) != pi, R));
    var c3 := Xor(p3, XorIf(outKey, Entry(table, !lpbit, !rpbit) != pi, R));
    UnivTable(Rows(c1, c2, c3), outKey, pi)
  }

  /** EvaluateUniversalGate: the last bits of both keys select the entry; the first one is all zero. */
  function EvalUniv(lbit: bool, rbit: bool, pad: Key, rows: Rows): Key {
    if lbit then Xor(pad, if rbit then rows.c3 else rows.c2) else if rbit then Xor(pad, rows.c1) else pad
  }

  /** Evaluating a garbled universal gate yields the key of the table entry. */
  lemma UnivCorrect(table: nat, lpbit: bool, rpbit: bool, R: Key, p0: Key, p1: Key, p2: Key, p3: Key,
                    va: bool, vb: bool, kappa: nat)
    requires Sized(R, kappa) && Last(R) && Sized(p0, kappa) && Sized(p1, kappa) && Sized(p2, kappa) && Sized(p3, kappa)
    ensures var t := GarbleUniv(table, lpbit, rpbit, R, p0, p1, p2, p3);
            var a, b := va != lpbit, vb != rpbit;
            var pad := if a then (if b then p3 else p2) else if b then p1 else p0;
            var bit := if va then (if vb then table / 8 % 2 == 1 else table / 4 % 2 == 1) else if vb then table / 2 % 2 == 1 else table % 2 == 1;
            Plain(t.outKey, kappa) && bit == Entry(table, va, vb) && EvalUniv(a, b, pad, t.rows) == XorIf(t.outKey, bit != t.pi, R)
  {
    TableBitIs(table, va, vb);
    UnivEntry(table, lpbit, rpbit, R, p0, p1, p2, p3, va, vb, kappa);
  }

  lemma UnivEntry(table: nat, lpbit: bool, rpbit: bool, R: Key, p0: Key, p1: Key, p2: Key, p3: Key, va: bool, vb: bool, kappa: nat)
    requires Sized(R, kappa) && Last(R) && Sized(p0, kappa) && Sized(p1, kappa) && Sized(p2, kappa) && Sized(p3, kappa)
    ensures var t := GarbleUniv(table, lpbit, rpbit, R, p0, p1, p2, p3);
            var a, b := va != lpbit, vb != rpbit;
            var pad := if a then (if b then p3 else p2) else if b then p1 else p0;
            Plain(t.outKey, kappa) && EvalUniv(a, b, pad, t.rows) == XorIf(t.outKey, Entry(table, va, vb) != t.pi, R)
  {
    var t := GarbleUniv(table, lpbit, rpbit, R, p0, p1, p2, p3);
    var a, b := va != lpbit, vb != rpbit;
    var pad := if a then (if b then p3 else p2) else if b then p1 else p0;
    var key := XorIf(t.outKey, Entry(table, va, vb) != t.pi, R);
    if a || b {
      assert Xor(pad, Xor(pad, key)) == key;
    } else {
      assert Xor(Xor(p0, R), R) == p0;
    }
  }

  // ----- client inputs by oblivious transfer ----------------------------------------------

  /** The two masked keys the server sends for a client input, in the order the correction asks for. */
  function MaskedKey(zeroKey: Key, R: Key, mask: Key, correction: bool, which: bool): Key {
    Xor(mask, XorIf(zeroKey, correction != which, R))
  }

  /** The client unmasks exactly the key of its input bit. */
  lemma TransferCorrect(zeroKey: Key, R: Key, mask0: Key, mask1: Key, choice: bool, input: bool, kappa: nat)
    requires Sized(zeroKey, kappa) && Sized(R, kappa) && Sized(mask0, kappa) && Sized(mask1, kappa)
    ensures var mask := if choice then mask1 else mask0;
            Xor(MaskedKey(zeroKey, R, mask, input != choice, choice), mask) == XorIf(zeroKey, input, R)
  {
    var mask := if choice then mask1 else mask0;
    assert ((input != choice) != choice) == input;
    assert Xor(Xor(mask, XorIf(zeroKey, input, R)), mask) == XorIf(zeroKey, input, R);
  }
}
