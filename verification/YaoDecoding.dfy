/**
  The client's outputs decode in every run exactly if the forms of the bits agree: wires of different
  forms have different permutation bits in a run that is constructed for them.
 */
module YaoDecoding {
  import opened Bits
  import opened Circuit
  import opened Garbling
  import opened YaoOrder
  import opened YaoSpec
  import opened YaoMessage
  import opened Polynomials
  import opened YaoForms
  import R = YaoRun

  // ----- counting keys --------------------------------------------------------------------

  ghost function Image<S, T>(s: set<S>, f: S -> T): set<T> {
    set x | x in s :: f(x)
  }

  lemma {:induction false} ImageCount<S, T>(s: set<S>, f: S -> T)
    ensures |Image(s, f)| <= |s|
    ensures (forall x, y | x in s && y in s && f(x) == f(y) :: x == y) ==> |Image(s, f)| == |s|
    decreases |s|
  {
    if s != {} {
      var x := Pick(s);
      ImageCount(s - {x}, f);
      assert Image(s, f) == Image(s - {x}, f) + {f(x)};
    }
  }

  lemma SubsetCount<T>(s: set<T>, u: set<T>)
    requires s <= u
    ensures |s| <= |u|
  {
    assert u == s + (u - s);
  }

  function Snoc(b: bool): Key -> Key {
    (k: Key) => k + [b]
  }

  lemma SnocInjective(k: Key, b: bool, l: Key, c: bool)
    requires Snoc(b)(k) == Snoc(c)(l)
    ensures k == l && b == c
  {
    var kb, lc := Snoc(b)(k), Snoc(c)(l);
    assert k == kb[..|kb| - 1] && l == lc[..|lc| - 1] && kb[|kb| - 1] == b && lc[|lc| - 1] == c;
  }

  lemma SnocCount(s: set<Key>, b: bool)
    ensures |Image(s, Snoc(b))| == |s|
  {
    forall k, l | k in s && l in s && Snoc(b)(k) == Snoc(b)(l)
      ensures k == l
    {
      SnocInjective(k, b, l, b);
    }
    ImageCount(s, Snoc(b));
  }

  ghost function AllKeys(n: nat): set<Key> {
    if n == 0 then {[]} else Image(AllKeys(n - 1), Snoc(false)) + Image(AllKeys(n - 1), Snoc(true))
  }

  /** There are that many keys of length n. */
  lemma {:induction false} KeyCount(n: nat)
    ensures |AllKeys(n)| == Pow2(n) && forall k | k in AllKeys(n) :: |k| == n
  {
    if n > 0 {
      var shorter := AllKeys(n - 1);
      KeyCount(n - 1);
      SnocCount(shorter, false);
      SnocCount(shorter, true);
      SnocDisjoint(shorter);
    }
  }

  lemma SnocDisjoint(s: set<Key>)
    ensures |Image(s, Snoc(false)) + Image(s, Snoc(true))| == |Image(s, Snoc(false))| + |Image(s, Snoc(true))|
  {
    var zeros, ones := Image(s, Snoc(false)), Image(s, Snoc(true));
    if kb :| kb in zeros * ones {
      var k :| k in s && Snoc(false)(k) == kb;
      var l :| l in s && Snoc(true)(l) == kb;
      SnocInjective(k, false, l, true);
    }
    assert zeros * ones == {};
  }

  lemma Missing<T>(s: set<T>, taken: set<T>) returns (x: T)
    requires |taken| < |s|
    ensures x in s && x !in taken
  {
    if s <= taken {
      SubsetCount(s, taken);
    }
    x :| x in s && x !in taken;
  }

  /** A wire key that is not taken. */
  lemma FreeKey(kappa: nat, taken: set<Key>) returns (k: Key)
    requires kappa > 0 && |taken| < Pow2(kappa - 1)
    ensures Plain(k, kappa) && k !in taken
  {
    var plain := PlainKeys(kappa);
    k := Missing(plain, taken);
  }

  lemma PlainKeys(kappa: nat) returns (plain: set<Key>)
    requires kappa > 0
    ensures |plain| == Pow2(kappa - 1) && forall k | k in plain :: Plain(k, kappa)
  {
    var n: nat := kappa - 1;
    KeyCount(n);
    plain := Cleared(AllKeys(n), n);
  }

  /** A zero behind every key. */
  lemma Cleared(s: set<Key>, n: nat) returns (plain: set<Key>)
    requires forall k | k in s :: |k| == n
    ensures |plain| == |s| && forall k | k in plain :: Plain(k, n + 1)
  {
    SnocCount(s, false);
    plain := Image(s, Snoc(false));
    forall k | k in plain
      ensures Plain(k, n + 1)
    {
      var l :| l in s && Snoc(false)(l) == k;
      assert k == l + [false];
    }
  }

  // ----- different keys for different operands of universal gates -------------------------

  ghost predicate PlainTags(kappa: nat, tag: Atom -> Key) {
    forall x {:trigger tag(x)} :: Plain(tag(x), kappa)
  }

  ghost predicate NoZeroSum(kappa: nat, sums: set<set<Atom>>, tag: Atom -> Key) {
    forall s | s in sums :: KeySum(kappa, s, tag) != Zero(kappa)
  }

  /** Keys for atoms, one after the other, such that none of the sums is zero. */
  lemma {:induction false} Tags(kappa: nat, atoms: set<Atom>, sums: set<set<Atom>>) returns (tag: Atom -> Key)
    requires kappa > 0 && |sums| < Pow2(kappa - 1) && forall s | s in sums :: s != {} && s <= atoms
    ensures PlainTags(kappa, tag) && NoZeroSum(kappa, sums, tag)
    decreases |atoms|
  {
    if atoms == {} {
      tag := (x: Atom) => Zero(kappa);
    } else {
      var x := Pick(atoms);
      var without := set s | s in sums && x !in s;
      SubsetCount(without, sums);
      var before := Tags(kappa, atoms - {x}, without);
      var rest := (s: set<Atom>) => KeySum(kappa, s - {x}, before);
      ImageCount(sums, rest);
      var k := FreeKey(kappa, Image(sums, rest));
      tag := Retagged(before, x, k);
      forall s | s in sums
        ensures KeySum(kappa, s, tag) != Zero(kappa)
      {
        RetaggedSum(kappa, s, before, x, k);
        assert x in s ==> rest(s) != k;
      }
    }
  }

  ghost function Retagged(tag: Atom -> Key, x: Atom, k: Key): Atom -> Key {
    (y: Atom) => if y == x then k else tag(y)
  }

  lemma RetaggedSum(kappa: nat, s: set<Atom>, tag: Atom -> Key, x: Atom, k: Key)
    requires |k| == kappa
    ensures x !in s ==> KeySum(kappa, s, Retagged(tag, x, k)) == KeySum(kappa, s, tag)
    ensures x in s && KeySum(kappa, s, Retagged(tag, x, k)) == Zero(kappa) ==> KeySum(kappa, s - {x}, tag) == k
  {
    var other := Retagged(tag, x, k);
    SumCong(kappa, s - {x}, tag, other);
    if x !in s {
      assert s - {x} == s;
    } else if KeySum(kappa, s, other) == Zero(kappa) {
      forall i | 0 <= i < kappa
        ensures KeySum(kappa, s - {x}, tag)[i] == k[i]
      {
        OddWithout(s, x, KeyBit(other, i));
        assert KeySum(kappa, s, other)[i] == Zero(kappa)[i] && KeySum(kappa, s - {x}, tag)[i] == KeySum(kappa, s - {x}, other)[i];
      }
    }
  }

  /** How many values the universal gates among the first n have. */
  function UnivValues(gs: seq<Gate>, n: nat): nat
    requires n <= |gs|
  {
    if n == 0 then 0 else UnivValues(gs, n - 1) + if gs[n - 1].op.Univ? then gs[n - 1].nvals else 0
  }

  /** Without universal gates, keys of any length suffice. */
  lemma AnyLength(kappa: nat, gs: seq<Gate>)
    requires kappa > 0 && forall g | 0 <= g < |gs| :: !gs[g].op.Univ?
    ensures KeysSuffice(kappa, gs)
  {
    NoUnivValues(gs, |gs|);
  }

  lemma {:induction false} NoUnivValues(gs: seq<Gate>, n: nat)
    requires n <= |gs| && forall g | 0 <= g < n :: !gs[g].op.Univ?
    ensures UnivValues(gs, n) == 0
  {
    if n > 0 {
      NoUnivValues(gs, n - 1);
    }
  }

  /** There are enough keys to tell the operands of universal gates apart. Without such gates, any length will do. */
  predicate KeysSuffice(kappa: nat, gs: seq<Gate>) {
    var operands := 2 * UnivValues(gs, |gs|);
    kappa > 0 && Times(operands, operands) < Pow2(kappa - 1)
  }

  /** The forms of the keys of a gate. */
  ghost function Column(gs: seq<Gate>, g: nat, n: nat): set<set<Atom>> {
    set t: nat | t < n :: KeyOf(gs, g, t)
  }

  /** The forms of the keys of universal gates' operands. */
  ghost function Operands(gs: seq<Gate>, n: nat): set<set<Atom>>
    requires n <= |gs|
  {
    if n == 0 then {}
    else if gs[n - 1].op.Univ? then
      Operands(gs, n - 1) + Column(gs, gs[n - 1].op.left, gs[n - 1].nvals) + Column(gs, gs[n - 1].op.right, gs[n - 1].nvals)
    else Operands(gs, n - 1)
  }

  lemma {:induction false} OperandIn(gs: seq<Gate>, n: nat, g: nat, t: nat)
    requires g < n <= |gs| && gs[g].op.Univ? && t < gs[g].nvals
    ensures KeyOf(gs, gs[g].op.left, t) in Operands(gs, n) && KeyOf(gs, gs[g].op.right, t) in Operands(gs, n)
  {
    if g < n - 1 {
      OperandIn(gs, n - 1, g, t);
    }
  }

  lemma {:induction false} ColumnCount(gs: seq<Gate>, g: nat, n: nat)
    ensures |Column(gs, g, n)| <= n
  {
    if n > 0 {
      ColumnCount(gs, g, n - 1);
      assert Column(gs, g, n) == Column(gs, g, n - 1) + {KeyOf(gs, g, n - 1)};
    }
  }

  lemma {:induction false} OperandCount(gs: seq<Gate>, n: nat)
    requires n <= |gs|
    ensures |Operands(gs, n)| <= 2 * UnivValues(gs, n)
  {
    if n > 0 {
      OperandCount(gs, n - 1);
      if gs[n - 1].op.Univ? {
        ColumnCount(gs, gs[n - 1].op.left, gs[n - 1].nvals);
        ColumnCount(gs, gs[n - 1].op.right, gs[n - 1].nvals);
      }
    }
  }

  ghost function Pairs<T>(s: set<T>, u: set<T>): set<(T, T)> {
    set a, b | a in s && b in u :: (a, b)
  }

  lemma {:induction false} PairCount<T>(s: set<T>, u: set<T>)
    ensures |Pairs(s, u)| == Times(|s|, |u|)
    decreases |s|
  {
    if s != {} {
      var x := Pick(s);
      PairCount(s - {x}, u);
      RowCount(x, u);
      assert Pairs(s, u) == Pairs(s - {x}, u) + Pairs({x}, u);
      assert Pairs(s - {x}, u) * Pairs({x}, u) == {};
    }
  }

  lemma {:induction false} RowCount<T>(x: T, u: set<T>)
    ensures |Pairs({x}, u)| == |u|
    decreases |u|
  {
    if u != {} {
      var b := Pick(u);
      RowCount(x, u - {b});
      assert Pairs({x}, u) == Pairs({x}, u - {b}) + {(x, b)};
    }
  }

  /** Different operands have different keys. */
  ghost predicate Apart(kappa: nat, forms: set<set<Atom>>, tag: Atom -> Key) {
    forall a, b | a in forms && b in forms && KeySum(kappa, a, tag) == KeySum(kappa, b, tag) :: a == b
  }

  ghost function Sums(forms: set<set<Atom>>): set<set<Atom>> {
    Image(Pairs(forms, forms), (p: (set<Atom>, set<Atom>)) => Either(p.0, p.1))
  }

  lemma SumOf(forms: set<set<Atom>>, a: set<Atom>, b: set<Atom>)
    requires a in forms && b in forms
    ensures Either(a, b) in Sums(forms)
  {
    assert (a, b) in Pairs(forms, forms);
  }

  lemma {:induction false} TimesMonotone(k: nat, n: nat, v: nat, w: nat)
    requires k <= n && v <= w
    ensures Times(k, v) <= Times(n, w)
  {
    if k > 0 {
      TimesMonotone(k - 1, n - 1, v, w);
    }
  }

  lemma SumCount(forms: set<set<Atom>>, n: nat)
    requires |forms| <= n
    ensures |Sums(forms)| <= Times(n, n)
  {
    var k := |forms|;
    PairCount(forms, forms);
    ImageCount(Pairs(forms, forms), (p: (set<Atom>, set<Atom>)) => Either(p.0, p.1));
    TimesMonotone(k, n, k, n);
  }

  lemma ApartTags(kappa: nat, gs: seq<Gate>) returns (tag: Atom -> Key)
    requires KeysSuffice(kappa, gs)
    ensures PlainTags(kappa, tag) && Apart(kappa, Operands(gs, |gs|), tag)
  {
    var forms := Operands(gs, |gs|);
    var sums := Sums(forms) - {{}};
    OperandCount(gs, |gs|);
    SumCount(forms, 2 * UnivValues(gs, |gs|));
    SubsetCount(sums, Sums(forms));
    tag := Tags(kappa, set s, x | s in sums && x in s :: x, sums);
    forall a, b | a in forms && b in forms && KeySum(kappa, a, tag) == KeySum(kappa, b, tag)
      ensures a == b
    {
      SumOf(forms, a, b);
      SameSum(kappa, a, b, tag);
    }
  }

  lemma SameSum(kappa: nat, a: set<Atom>, b: set<Atom>, tag: Atom -> Key)
    requires KeySum(kappa, a, tag) == KeySum(kappa, b, tag)
    ensures KeySum(kappa, Either(a, b), tag) == Zero(kappa)
    ensures Either(a, b) == {} ==> a == b
  {
    KeysAdd(kappa, a, b, tag);
    assert Either(Either(a, b), b) == a && Either({}, b) == b;
  }

  // ----- a run for every choice of the bits of atoms --------------------------------------

  /** The gate and value that draw number k from a supply. */
  function DrawerOf(gs: seq<Gate>, layers: nat, s: Supply, k: nat): (nat, nat) {
    var q := Order(gs, layers);
    if k < Drawn(gs, s, q, |q|) then Strung(gs, s, (g: nat, t: nat) => (g, t), q, |q|)[k] else (|gs|, 0)
  }

  lemma DrawerFound(gs: seq<Gate>, layers: nat, s: Supply, g: nat, t: nat)
    requires g < |gs| && gs[g].depth < layers && t < Amount(gs, s, g)
    ensures DrawerOf(gs, layers, s, Place(gs, layers, s, g) + t) == (g, t)
  {
    var q := Order(gs, layers);
    OrderMembers(gs, layers, g);
    var i :| 0 <= i < |q| && q[i] == g;
    PlaceAt(gs, layers, s, i);
    StrungAt(gs, s, (h: nat, u: nat) => (h, u), q, i, |q|, t);
  }

  /** Keys for all atoms of a circuit, and the atoms whose bit is a one. */
  datatype Plan = Plan(gs: seq<Gate>, layers: nat, kappa: nat, tag: Atom -> Key, ones: set<Atom>)

  ghost predicate Fitting(p: Plan) {
    && Garblable(p.gs) && (forall h | 0 <= h < |p.gs| :: p.gs[h].depth < p.layers)
    && p.kappa > 0 && PlainTags(p.kappa, p.tag) && Apart(p.kappa, Operands(p.gs, |p.gs|), p.tag)
  }

  /** The key of an atom that a supply provides, still without its bit. */
  ghost function Tag(p: Plan, s: Supply, j: nat): Key {
    var drawer := DrawerOf(p.gs, p.layers, s, j);
    p.tag(Own(drawer.0, drawer.1))
  }

  ghost predicate Chosen(p: Plan, s: Supply, j: nat) {
    var drawer := DrawerOf(p.gs, p.layers, s, j);
    Own(drawer.0, drawer.1) in p.ones
  }

  /** The last bit that the encryptions of an AND gate must add up to. */
  ghost predicate Wanted(p: Plan, j: nat) {
    var drawer := DrawerOf(p.gs, p.layers, AndTables, j);
    var g, t := drawer.0, drawer.1;
    g < |p.gs| && p.gs[g].op.NonLin? &&
    (Own(g, t) in p.ones) != (ValueOf(FormOf(p.gs, p.gs[g].op.left, t), OnesOn(p.ones)) &&
                              ValueOf(FormOf(p.gs, p.gs[g].op.right, t), OnesOn(p.ones)))
  }

  function WithLast(k: Key, b: bool): (r: Key)
    ensures |r| == |k| && (|k| > 0 ==> Last(r) == b)
  {
    seq(|k|, i requires 0 <= i < |k| => if i == |k| - 1 then b else k[i])
  }

  function LastOnly(kappa: nat): (k: Key)
    ensures |k| == kappa && (kappa > 0 ==> Last(k))
  {
    WithLast(Zero(kappa), true)
  }

  /** Adding R restores the key. */
  lemma LastRestored(k: Key, b: bool, kappa: nat)
    requires Plain(k, kappa)
    ensures PadKey(WithLast(k, b), LastOnly(kappa)) == k
  {
  }

  ghost function SecretsFor(p: Plan): Secrets {
    var zero := (j: nat) => Zero(p.kappa);
    Secrets(p.kappa, LastOnly(p.kappa), (j: nat) => Tag(p, ServerKeys, j), (j: nat) => Tag(p, ClientKeys, j),
            (j: nat) => Chosen(p, ServerKeys, j), zero, zero)
  }

  ghost function Encryption(p: Plan): (Key, nat) -> Key {
    (k: Key, i: nat) =>
      if i % 2 == 1 then Zero(p.kappa) else WithLast(Tag(p, AndTables, i / 2), Wanted(p, i / 2))
  }

  /** The operand of a universal gate that has a key. */
  ghost function OperandOf(p: Plan, k: Key): (s: set<Atom>)
    ensures (exists a :: a in Operands(p.gs, |p.gs|) && KeySum(p.kappa, a, p.tag) == k) ==>
              s in Operands(p.gs, |p.gs|) && KeySum(p.kappa, s, p.tag) == k
  {
    if exists a :: a in Operands(p.gs, |p.gs|) && KeySum(p.kappa, a, p.tag) == k then
      var a :| a in Operands(p.gs, |p.gs|) && KeySum(p.kappa, a, p.tag) == k;
      a
    else {}
  }

  ghost function Padding(p: Plan): (Key, Key, nat) -> Key {
    (k: Key, l: Key, i: nat) =>
      var x := Pad(OperandOf(p, k), OperandOf(p, l));
      WithLast(p.tag(x), x in p.ones)
  }

  ghost function RunWith(p: Plan): Run {
    R.RunOf(p.gs, p.layers, (g: nat, t: nat) => false, SecretsFor(p), Encryption(p), Padding(p), (j: nat) => false)
  }

  ghost predicate Follows(w: Run, p: Plan) {
    && Correct(w) && w.gs == p.gs && w.layers == p.layers && w.kappa == p.kappa && SecretsOf(w, SecretsFor(p))
    && w.enc == Encryption(p) && w.pad == Padding(p)
  }

  lemma PlanIsSound(p: Plan)
    requires PlainTags(p.kappa, p.tag) && p.kappa > 0
    ensures R.Sound(SecretsFor(p), Encryption(p), Padding(p))
  {
    forall k, l, i
      ensures Sized(Padding(p)(k, l, i), p.kappa)
    {
      assert Plain(p.tag(Pad(OperandOf(p, k), OperandOf(p, l))), p.kappa);
    }
  }

  lemma RunFollows(p: Plan)
    requires Fitting(p)
    ensures Follows(RunWith(p), p)
  {
    PlanIsSound(p);
    R.RunIsCorrect(p.gs, p.layers, (g: nat, t: nat) => false, SecretsFor(p), Encryption(p), Padding(p), (j: nat) => false);
  }

  /** In the run of a plan, all atoms have their keys and bits. */
  lemma {:induction false} Realised(w: Run, p: Plan, n: nat)
    requires Fitting(p) && Follows(w, p) && n <= |p.gs|
    ensures KeysUpTo(w, p.tag, n) && BitsUpTo(w, OnesOn(p.ones), n)
  {
    if n > 0 {
      var g := n - 1;
      Realised(w, p, g);
      forall t: nat
        ensures KeyAt(w, p.tag, g, t) && BitAt(w, OnesOn(p.ones), g, t)
      {
        if t < p.gs[g].nvals {
          GateRealised(w, p, g, t);
        }
      }
    }
  }

  lemma GateRealised(w: Run, p: Plan, g: nat, t: nat)
    requires Fitting(p) && Follows(w, p) && g < |p.gs| && t < p.gs[g].nvals
    requires KeysUpTo(w, p.tag, g) && BitsUpTo(w, OnesOn(p.ones), g)
    ensures KeyAt(w, p.tag, g, t) && BitAt(w, OnesOn(p.ones), g, t)
  {
    match p.gs[g].op
    case In(_) => InputRealised(w, p, g, t);
    case NonLin(_, _) => AndRealised(w, p, g, t);
    case Univ(_, _, _) => UnivRealised(w, p, g, t);
    case _ =>
  }

  lemma InputRealised(w: Run, p: Plan, g: nat, t: nat)
    requires Fitting(p) && Follows(w, p) && g < |p.gs| && t < p.gs[g].nvals && p.gs[g].op.In?
    ensures KeyAt(w, p.tag, g, t) && BitAt(w, OnesOn(p.ones), g, t)
  {
    assert OrderedAt(p.gs, g);
    InputAssigned(w, g, t);
    DrawerFound(p.gs, p.layers, if p.gs[g].op.src.SERVER? then ServerKeys else ClientKeys, g, t);
  }

  /** Key and permutation bit of an input. */
  lemma InputAssigned(w: Run, g: nat, t: nat)
    requires RunOk(w) && g < |w.gs| && t < w.gs[g].nvals && w.gs[g].op.In?
    ensures var s := if w.gs[g].op.src.SERVER? then ServerKeys else ClientKeys;
            var j := Place(w.gs, w.layers, s, g) + t;
            w.key(g, t) == (if s.ServerKeys? then w.serverKey(j) else w.clientKey(j)) && (s.ServerKeys? ==> w.pi(g, t) == w.perm(j))
  {
    assert (w.key(g, t), w.pi(g, t)) == GarbleStep(w, g, t) by {
      assert Assigned(w, g) && KeysOk(w, g, t);
    }
  }

  /** What the table of an AND gate is to hold. */
  lemma AndWanted(w: Run, p: Plan, g: nat, t: nat)
    requires Fitting(p) && Follows(w, p) && g < |p.gs| && t < p.gs[g].nvals && p.gs[g].op.NonLin?
    requires BitsUpTo(w, OnesOn(p.ones), g)
    ensures Tag(p, AndTables, TableAt(w, g, t)) == p.tag(Own(g, t))
    ensures Wanted(p, TableAt(w, g, t)) == ((Own(g, t) in p.ones) != (w.pi(p.gs[g].op.left, t) && w.pi(p.gs[g].op.right, t)))
  {
    assert OrderedAt(p.gs, g);
    PiHasForm(w, OnesOn(p.ones), p.gs[g].op.left, t);
    PiHasForm(w, OnesOn(p.ones), p.gs[g].op.right, t);
    DrawerFound(p.gs, p.layers, AndTables, g, t);
  }

  lemma AndRealised(w: Run, p: Plan, g: nat, t: nat)
    requires Fitting(p) && Follows(w, p) && g < |p.gs| && t < p.gs[g].nvals && p.gs[g].op.NonLin?
    requires BitsUpTo(w, OnesOn(p.ones), g)
    ensures KeyAt(w, p.tag, g, t) && BitAt(w, OnesOn(p.ones), g, t)
  {
    assert OrderedAt(p.gs, g);
    var sum := AndSum(w, p, g, t);
    LastRestored(p.tag(Own(g, t)), Last(sum), p.kappa);
  }

  /** The sum of the encryptions is the key with the wanted bit. */
  lemma AndSum(w: Run, p: Plan, g: nat, t: nat) returns (sum: Key)
    requires Fitting(p) && Follows(w, p) && g < |p.gs| && t < p.gs[g].nvals && p.gs[g].op.NonLin?
    requires BitsUpTo(w, OnesOn(p.ones), g)
    ensures sum == WithLast(p.tag(Own(g, t)), Last(sum))
    ensures w.key(g, t) == PadKey(sum, w.R) && w.pi(g, t) == (Own(g, t) in p.ones)
  {
    sum := AndSumOf(w, g, t, TableAt(w, g, t));
    AndAssigned(w, g, t);
    AndEncrypted(w, p, g, t, TableAt(w, g, t));
    AndWanted(w, p, g, t);
  }

  /** What the operands of an AND gate encrypt for garbled table `ctr`, added up. */
  ghost function AndSumOf(w: Run, g: nat, t: nat, ctr: nat): Key
    requires g < |w.gs| && w.gs[g].op.NonLin?
  {
    Xor(w.enc(w.key(w.gs[g].op.left, t), 2 * ctr), w.enc(w.key(w.gs[g].op.right, t), 2 * ctr + 1))
  }

  lemma AndEncrypted(w: Run, p: Plan, g: nat, t: nat, ctr: nat)
    requires g < |w.gs| && w.gs[g].op.NonLin?
    requires PlainTags(p.kappa, p.tag) && w.enc == Encryption(p)
    ensures AndSumOf(w, g, t, ctr) == WithLast(Tag(p, AndTables, ctr), Wanted(p, ctr))
  {
    EncryptionSum(p, w.key(w.gs[g].op.left, t), w.key(w.gs[g].op.right, t), ctr);
  }

  /** Key and permutation bit of an AND gate. */
  lemma AndAssigned(w: Run, g: nat, t: nat)
    requires RunOk(w) && Ordered(w.gs) && g < |w.gs| && w.gs[g].op.NonLin? && t < w.gs[g].nvals
    ensures var sum := AndSumOf(w, g, t, TableAt(w, g, t));
            && w.key(g, t) == PadKey(sum, w.R)
            && w.pi(g, t) == (Last(sum) != (w.pi(w.gs[g].op.left, t) && w.pi(w.gs[g].op.right, t)))
  {
    AndKeys(w, g, t, AndMasks(w, w.key(w.gs[g].op.left, t), w.key(w.gs[g].op.right, t), TableAt(w, g, t)));
  }

  lemma EncryptionSum(p: Plan, lkey: Key, rkey: Key, ctr: nat)
    requires PlainTags(p.kappa, p.tag)
    ensures Xor(Encryption(p)(lkey, 2 * ctr), Encryption(p)(rkey, 2 * ctr + 1)) == WithLast(Tag(p, AndTables, ctr), Wanted(p, ctr))
  {
    XorZero(WithLast(Tag(p, AndTables, ctr), Wanted(p, ctr)), p.kappa);
    EncryptionAt(p, lkey, ctr);
    EncryptionAt(p, rkey, ctr);
  }

  lemma EncryptionAt(p: Plan, k: Key, ctr: nat)
    ensures Encryption(p)(k, 2 * ctr) == WithLast(Tag(p, AndTables, ctr), Wanted(p, ctr)) && Encryption(p)(k, 2 * ctr + 1) == Zero(p.kappa)
  {
    assert 2 * ctr / 2 == ctr && 2 * ctr % 2 == 0 && (2 * ctr + 1) % 2 == 1;
  }

  lemma XorZero(k: Key, kappa: nat)
    ensures Xor(k, Zero(kappa)) == k
  {
  }

  lemma UnivRealised(w: Run, p: Plan, g: nat, t: nat)
    requires Fitting(p) && Follows(w, p) && g < |p.gs| && t < p.gs[g].nvals && p.gs[g].op.Univ?
    requires KeysUpTo(w, p.tag, g)
    ensures KeyAt(w, p.tag, g, t) && BitAt(w, OnesOn(p.ones), g, t)
  {
    assert OrderedAt(p.gs, g);
    var x := AtomOf(p.gs, g, t);
    UnivPad(w, p.tag, g, t);
    OperandFound(p, g, t);
    var out := UnivKeys(w, g, t);
    LastRestored(p.tag(x), x in p.ones, p.kappa);
  }

  lemma OperandFound(p: Plan, g: nat, t: nat)
    requires Fitting(p) && g < |p.gs| && t < p.gs[g].nvals && p.gs[g].op.Univ? && OrderedAt(p.gs, g)
    ensures var x := AtomOf(p.gs, g, t);
            OperandOf(p, KeySum(p.kappa, x.left, p.tag)) == x.left && OperandOf(p, KeySum(p.kappa, x.right, p.tag)) == x.right
  {
    var x := AtomOf(p.gs, g, t);
    OperandIn(p.gs, |p.gs|, g, t);
  }

  // ----- the exact condition --------------------------------------------------------------

  /** Wires of different forms have different bits in some run. */
  lemma FormsDiffer(kappa: nat, gs: seq<Gate>, layers: nat, a: (nat, nat), b: (nat, nat)) returns (w: Run)
    requires Garblable(gs) && (forall h | 0 <= h < |gs| :: gs[h].depth < layers) && a.0 < |gs| && b.0 < |gs|
    requires KeysSuffice(kappa, gs) && FormOf(gs, a.0, a.1) != FormOf(gs, b.0, b.1)
    ensures Correct(w) && w.gs == gs && w.layers == layers && w.kappa == kappa && w.pi(a.0, a.1) != w.pi(b.0, b.1)
  {
    var tag := ApartTags(kappa, gs);
    var ones := Distinguished(FormOf(gs, a.0, a.1), FormOf(gs, b.0, b.1));
    var p := Plan(gs, layers, kappa, tag, ones);
    RunFollows(p);
    w := RunWith(p);
    Realised(w, p, |gs|);
    PiHasForm(w, OnesOn(ones), a.0, a.1);
    PiHasForm(w, OnesOn(ones), b.0, b.1);
  }

  /** Every run of the circuit with keys of this length decodes all outputs of the client. */
  ghost predicate AlwaysDecodes(kappa: nat, gs: seq<Gate>, layers: nat) {
    forall w: Run {:trigger AllDecoded(w)} | Correct(w) && w.gs == gs && w.layers == layers && w.kappa == kappa :: AllDecoded(w)
  }

  /**
    All outputs of the client decode to their plain values in every run, for all inputs, keys and random
    values, if and only if for each of them the bit that is read has the form of its own bit.
   */
  lemma DecodesIff(kappa: nat, gs: seq<Gate>, layers: nat)
    requires Garblable(gs) && (forall h | 0 <= h < |gs| :: gs[h].depth < layers) && KeysSuffice(kappa, gs)
    ensures AlwaysDecodes(kappa, gs, layers) <==> FormsAgree(gs, layers)
  {
    if FormsAgree(gs, layers) {
      forall w: Run | Correct(w) && w.gs == gs && w.layers == layers && w.kappa == kappa
        ensures AllDecoded(w)
      {
        FormsSuffice(w);
      }
    }
    if AlwaysDecodes(kappa, gs, layers) {
      forall g: nat, t: nat | ClientOutput(gs, g, t)
        ensures SameForm(gs, layers, g, t)
      {
        if !SameForm(gs, layers, g, t) {
          NotAlways(kappa, gs, layers, g, t);
        }
      }
    }
  }

  /** An output that reads a bit of another form is misdecoded in some run. */
  lemma Misdecoded(kappa: nat, gs: seq<Gate>, layers: nat, g: nat, t: nat) returns (w: Run)
    requires Garblable(gs) && (forall h | 0 <= h < |gs| :: gs[h].depth < layers) && KeysSuffice(kappa, gs)
    requires ClientOutput(gs, g, t) && !SameForm(gs, layers, g, t)
    ensures Correct(w) && w.gs == gs && w.layers == layers && w.kappa == kappa && !DecodedRight(w, g, t)
  {
    var read, own := WireRead(gs, layers, g, t), OutWire(gs)(g, t);
    ReadsOutput(gs, layers, g, t);
    w := FormsDiffer(kappa, gs, layers, read, own);
    DecodedIff(w, g, t);
  }

  lemma NotAlways(kappa: nat, gs: seq<Gate>, layers: nat, g: nat, t: nat)
    requires Garblable(gs) && (forall h | 0 <= h < |gs| :: gs[h].depth < layers) && KeysSuffice(kappa, gs)
    requires ClientOutput(gs, g, t) && !SameForm(gs, layers, g, t)
    ensures !AlwaysDecodes(kappa, gs, layers)
  {
    var w := Misdecoded(kappa, gs, layers, g, t);
    assert !AllDecoded(w);
  }
}
