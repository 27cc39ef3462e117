/** Machine words: numbers modulo a power of two, and their bitwise XOR. */
module Words {
  import opened Bits

  /** What a word of modulus m keeps of an integer. */
  function Mod(x: int, m: nat): (r: nat)
    requires m > 0
    ensures r < m
    decreases if x < 0 then m - x else x
  {
    if x < 0 then Mod(x + m, m) else if x < m then x else Mod(x - m, m)
  }

  function Minus(x: int): int {
    -x
  }

  /** A difference of words, as an integer. */
  function Less(x: int, y: int): int {
    x - y
  }

  lemma ModStep(x: int, m: nat)
    requires m > 0
    ensures Mod(x + m, m) == Mod(x, m)
  {
  }

  lemma ModSmall(x: nat, m: nat)
    requires x < m
    ensures Mod(x, m) == x
  {
  }

  /** It is the remainder of the division by the modulus. */
  lemma {:induction false} ModIs(x: int, m: nat)
    requires m > 0
    ensures Mod(x, m) == x % m
    decreases if x < 0 then m - x else x
  {
    if x < 0 {
      ModIs(x + m, m);
      ModMultiple(x, 1, m);
    } else if x < m {
      DivModUnique(x, 0, x, m);
    } else {
      ModIs(x - m, m);
      ModMultiple(x - m, 1, m);
    }
  }

  /** The sum of numbers. */
  function Sum(s: seq<int>): int {
    if s == [] then 0 else Sum(s[..|s| - 1]) + s[|s| - 1]
  }

  /** Sums of nothing, of one number, and of one list behind another determine all sums. */
  lemma SumOf(x: int)
    ensures Sum([]) == 0 && Sum([x]) == x
  {
    assert [x][..0] == [];
  }

  lemma {:induction false} SumAppend(a: seq<int>, b: seq<int>)
    ensures Sum(a + b) == Sum(a) + Sum(b)
  {
    if b == [] {
      assert a + b == a;
    } else {
      SumAppend(a, b[..|b| - 1]);
      assert (a + b)[..|a + b| - 1] == a + b[..|b| - 1];
    }
  }

  /** Words may be reduced before they are added. */
  lemma {:induction false} ModAdd(x: int, y: int, m: nat)
    requires m > 0
    ensures Mod(Mod(x, m) + y, m) == Mod(x + y, m)
    decreases if x < 0 then m - x else x
  {
    if x < 0 {
      ModAdd(x + m, y, m);
      ModStep(x + y, m);
    } else if x >= m {
      ModAdd(x - m, y, m);
      ModStep(x - m + y, m);
    }
  }

  lemma ModAddBoth(x: int, y: int, m: nat)
    requires m > 0
    ensures Mod(Mod(x, m) + Mod(y, m), m) == Mod(x + y, m)
  {
    ModAdd(x, Mod(y, m), m);
    ModAdd(y, x, m);
  }

  lemma {:induction false} ModCycles(x: int, k: nat, m: nat)
    requires m > 0
    ensures Mod(x + k * m, m) == Mod(x, m)
  {
    if k > 0 {
      ModCycles(x, k - 1, m);
      ModStep(x + (k - 1) * m, m);
      assert x + (k - 1) * m + m == x + k * m;
    }
  }

  lemma Distribute(x: int, d: int, y: int)
    ensures (x + d) * y == x * y + d * y && (x - d) * y == x * y - d * y
  {
  }

  /** Words may be reduced before they are multiplied. */
  lemma {:induction false} ModMul(x: int, y: nat, m: nat)
    requires m > 0
    ensures Mod(Mod(x, m) * y, m) == Mod(x * y, m)
    decreases if x < 0 then m - x else x
  {
    Distribute(x, m, y);
    if x < 0 {
      ModMul(x + m, y, m);
      Shifted(x * y, m * y, y, m);
    } else if x >= m {
      ModMul(x - m, y, m);
      Shifted(x * y - m * y, m * y, y, m);
    }
  }

  lemma Shifted(z: int, multiple: int, k: nat, m: nat)
    requires m > 0 && multiple == m * k
    ensures Mod(z + multiple, m) == Mod(z, m)
  {
    ModCycles(z, k, m);
  }

  // ----- XOR ------------------------------------------------------------------------------

  /** XOR of the last l bits of two words. */
  function XorWord(a: nat, b: nat, l: nat): (c: nat)
    ensures c < Pow2(l)
  {
    if l == 0 then 0 else Bit(a % 2 != b % 2) + 2 * XorWord(a / 2, b / 2, l - 1)
  }

  /** Bit k of the result is the XOR of the bits k. */
  lemma {:induction false} XorBit(a: nat, b: nat, l: nat, k: nat)
    requires k < l
    ensures XorWord(a, b, l) / Pow2(k) % 2 == Bit((a / Pow2(k) % 2 == 1) != (b / Pow2(k) % 2 == 1))
  {
    var c, rest := XorWord(a, b, l), XorWord(a / 2, b / 2, l - 1);
    assert c / 2 == rest && c % 2 == Bit(a % 2 != b % 2);
    if k == 0 {
      assert Pow2(0) == 1;
    } else {
      XorBit(a / 2, b / 2, l - 1, k - 1);
      Halving(a, k);
      Halving(b, k);
      Halving(c, k);
    }
  }

  lemma Halving(x: nat, k: nat)
    requires k > 0
    ensures x / Pow2(k) == x / 2 / Pow2(k - 1)
  {
    var p, q := Pow2(k - 1), x / 2;
    var d, r := q / p, q % p;
    assert q == p * d + r && x == 2 * q + x % 2;
    assert 2 * (p * d) == 2 * p * d;
    DivModUnique(x, d, 2 * r + x % 2, 2 * p);
  }

  lemma {:induction false} XorSymmetric(a: nat, b: nat, l: nat)
    ensures XorWord(a, b, l) == XorWord(b, a, l)
  {
    if l > 0 {
      XorSymmetric(a / 2, b / 2, l - 1);
    }
  }

  lemma {:induction false} XorCancels(a: nat, b: nat, l: nat)
    requires a < Pow2(l)
    ensures XorWord(XorWord(a, b, l), b, l) == a
  {
    if l > 0 {
      var c := XorWord(a / 2, b / 2, l - 1);
      XorCancels(a / 2, b / 2, l - 1);
      assert XorWord(a, b, l) / 2 == c && XorWord(a, b, l) % 2 == Bit(a % 2 != b % 2);
    }
  }

  /** A masked word is unmasked by the same mask. */
  lemma Unmasked(mask: nat, x: nat, l: nat)
    requires x < Pow2(l)
    ensures XorWord(mask, XorWord(mask, x, l), l) == x && XorWord(XorWord(mask, x, l), mask, l) == x
  {
    XorSymmetric(mask, x, l);
    XorCancels(x, mask, l);
    XorSymmetric(mask, XorWord(x, mask, l), l);
  }
}
