/** What a party of SP-LUT sharing computes on its own. */
module LutLocal {
  import opened Bits
  import opened LutCircuit
  import opened LutSpec
  import opened LutTables
  import C = Circuit

  /** What a party makes of its shares of the operands of a local gate. */
  predicate LocalValue(gate: Gate, val: map<nat, seq<bool>>, role: Role, v: seq<bool>) {
    |v| == gate.nvals &&
    match gate.op
    case Lin(l, r) =>
      l in val && r in val && |v| <= |val[l]| && |v| <= |val[r]| && forall t | 0 <= t < |v| :: v[t] == (val[l][t] != val[r][t])
    case Inv(p) => p in val && |v| <= |val[p]| && forall t | 0 <= t < |v| :: v[t] == if role == C.SERVER then !val[p][t] else val[p][t]
    case Split(p, pos) => p in val && pos + |v| <= |val[p]| && v == val[p][pos..pos + |v|]
    case Constant(c) => forall t | 0 <= t < |v| :: v[t] == (c && role == C.SERVER)
    case _ => false
  }

  lemma LocalOperands(gs: seq<Gate>, g: nat)
    requires g < |gs|
    ensures var ps, op := Parents(gs[g].op), gs[g].op;
            && (op.Lin? ==> ps[0] == op.left && ps[1] == op.right) && (op.Inv? || op.Split? ==> ps[0] == op.parent)
  {
  }

  /** The share of a local gate is made of the shares of its operands. */
  lemma LocalShare(w: World, r: Role, val: map<nat, seq<bool>>, g: nat)
    requires Correct(w) && OperandsHeld(w, r, val, g) && ParentsBelow(w.gs[g].op, g) && !Interactive(w.gs[g].op)
    requires g in val && val[g] == Share(w, r, g)
    ensures LocalValue(w.gs[g], val, r, val[g])
  {
    assert GateOk(w.gs, g);
    LocalOperands(w.gs, g);
    forall t: nat | t < w.gs[g].nvals
      ensures val[g][t] == ShareStep(w, r, g, t)
    {
      assert ShareOk(w, r, g, t);
    }
  }

  lemma ShareOfLocal(w: World, r: Role, val: map<nat, seq<bool>>, g: nat, v: seq<bool>)
    requires Correct(w) && OperandsHeld(w, r, val, g) && ParentsBelow(w.gs[g].op, g) && !Interactive(w.gs[g].op)
    requires LocalValue(w.gs[g], val, r, v)
    ensures v == Share(w, r, g)
  {
    LocalOperands(w.gs, g);
    forall t | 0 <= t < |v|
      ensures v[t] == w.share(r, g, t)
    {
      assert ShareOk(w, r, g, t);
    }
  }

  /** EvaluateXORGate, EvaluateINVGate, EvaluateConstantGate and the splitter. */
  method ComputeLocal(gate: Gate, val: map<nat, seq<bool>>, role: Role, ghost w: World, ghost g: nat) returns (v: seq<bool>)
    requires Correct(w) && OperandsHeld(w, role, val, g) && ParentsBelow(w.gs[g].op, g) && !Interactive(w.gs[g].op) && gate == w.gs[g]
    ensures LocalValue(gate, val, role, v) && v == Share(w, role, g)
  {
    assert GateOk(w.gs, g);
    LocalOperands(w.gs, g);
    match gate.op {
      case Lin(left, right) =>
        var a, b := val[left], val[right];
        v := seq(gate.nvals, t requires 0 <= t < gate.nvals => a[t] != b[t]);
      case Inv(p) =>
        var a := val[p];
        v := seq(gate.nvals, t requires 0 <= t < gate.nvals => a[t] != role.SERVER?);
      case Split(p, pos) =>
        var a := val[p];
        v := seq(gate.nvals, t requires 0 <= t < gate.nvals => a[pos + t]);
      case Constant(c) =>
        v := seq(gate.nvals, t => c && role != C.CLIENT);
    }
    ShareOfLocal(w, role, val, g, v);
  }
}
