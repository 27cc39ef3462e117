/** The circuit that computes any two-input operation from its truth table. */
module Universal {
  import opened Bits
  import opened Circuit
  import opened Builder
  import opened Compare

  /** Bit k of a number. */
  predicate BitOf(n: nat, k: nat) {
    n / Pow2(k) % 2 == 1
  }

  /** The two operands pick the bit of op_id at position 2a + b, as a universal gate does. */
  method PutUniversalGateCircuit(bc: BooleanCircuit, a: nat, b: nat, op_id: nat) returns (out: nat)
    requires bc.Valid() && bc.Wire(a) && bc.Wire(b)
    modifies bc
    ensures bc.Valid() && bc.Extends() && bc.Wire(out)
    ensures bc.Val(out) == if old(bc.Val(a)) then (if old(bc.Val(b)) then op_id / 8 % 2 == 1 else op_id / 4 % 2 == 1)
                           else if old(bc.Val(b)) then op_id / 2 % 2 == 1 else op_id % 2 == 1
    ensures bc.Val(out) == TableBit(op_id, old(bc.Val(a)), old(bc.Val(b)))
    ensures bc.AndCount() == old(bc.AndCount()) + 3 * bc.width
  {
    TableBitIs(op_id, bc.Val(a), bc.Val(b));
    var c0 := bc.PutConstantGate(BitOf(op_id, 0), a);
    var c1 := bc.PutConstantGate(BitOf(op_id, 1), a);
    var c2 := bc.PutConstantGate(BitOf(op_id, 2), a);
    var c3 := bc.PutConstantGate(BitOf(op_id, 3), a);
    var o0 := PutChoice(bc, b, c1, c0);
    var o1 := PutChoice(bc, b, c3, c2);
    out := PutChoice(bc, a, o1, o0);
  }

  /** x where s is one, y elsewhere. */
  method PutChoice(bc: BooleanCircuit, s: nat, x: nat, y: nat) returns (out: nat)
    requires bc.Valid() && bc.Wire(s) && bc.Wire(x) && bc.Wire(y)
    modifies bc
    ensures bc.Valid() && bc.Extends() && bc.Wire(out) && bc.AndCount() == old(bc.AndCount()) + bc.width
    ensures bc.Val(out) == old(if bc.Val(s) then bc.Val(x) else bc.Val(y))
  {
    var xy := bc.PutXORGate(y, x);
    var sxy := bc.PutANDGate(s, xy);
    out := bc.PutXORGate(y, sxy);
  }
}
