/** Bit vectors, least significant bit first, and the numbers they stand for. */
module Bits {

  function Bit(b: bool): nat {
    if b then 1 else 0
  }

  /** Reading a SIMD value; positions past its end read as zero. */
  function At(v: seq<bool>, i: int): bool {
    if 0 <= i < |v| then v[i] else false
  }

  function Pow2(n: nat): (r: nat)
    ensures r > 0
  {
    if n == 0 then 1 else 2 * Pow2(n - 1)
  }

  /** What a bit at position i contributes. */
  function Weight(b: bool, i: nat): nat {
    if b then Pow2(i) else 0
  }

  /** The number the first n bits stand for. */
  function Value(s: seq<bool>, n: nat): nat
    requires n <= |s|
  {
    if n == 0 then 0 else Value(s, n - 1) + Weight(s[n - 1], n - 1)
  }

  /** The unsigned number a bit vector stands for. */
  function Num(s: seq<bool>): nat {
    Value(s, |s|)
  }

  /** k times w. */
  function Times(k: nat, w: nat): nat {
    if k == 0 then 0 else Times(k - 1, w) + w
  }

  lemma {:induction false} TimesAdd(k: nat, l: nat, w: nat)
    ensures Times(k + l, w) == Times(k, w) + Times(l, w)
  {
    if l > 0 {
      TimesAdd(k, l - 1, w);
    }
  }

  lemma {:induction false} TimesIsProduct(k: nat, w: nat)
    ensures Times(k, w) == k * w
  {
    if k > 0 {
      TimesIsProduct(k - 1, w);
      assert (k - 1) * w + w == k * w;
    }
  }

  function Min(a: nat, b: nat): nat {
    if a < b then a else b
  }

  function Max(a: nat, b: nat): nat {
    if a < b then b else a
  }

  /** The least exponent whose power of two is at least n: the exact form of ceil(log2(n)). */
  function CeilLog2(n: nat): (r: nat)
    requires n > 0
    ensures n <= Pow2(r)
    ensures r > 0 ==> Pow2(r - 1) < n
  {
    CeilLog2From(n, 0)
  }

  function CeilLog2From(n: nat, k: nat): (r: nat)
    requires n > 0 && (k > 0 ==> Pow2(k - 1) < n)
    ensures n <= Pow2(r)
    ensures r > 0 ==> Pow2(r - 1) < n
    decreases n - Pow2(k)
  {
    if n <= Pow2(k) then k else CeilLog2From(n, k + 1)
  }

  /** Half as many need one level less. */
  lemma OneLevelLess(rem: nat, todo: nat)
    requires 1 < rem <= Pow2(todo)
    ensures todo > 0 && rem <= 2 * Pow2(todo - 1)
  {
  }

  /** A tree with n rows left has used up the given rounds; the levels to come take step rounds each, up to the bound. */
  predicate Budget(n: nat, rounds: nat, todo: nat, step: nat, bound: nat) {
    rounds + Times(todo, step) == bound && n <= Pow2(todo)
  }

  lemma BudgetStart(n: nat, rounds: nat, step: nat)
    requires n > 0
    ensures Budget(n, rounds, CeilLog2(n), step, rounds + CeilLog2(n) * step)
  {
    TimesIsProduct(CeilLog2(n), step);
  }

  lemma BudgetNext(n: nat, next: nat, rounds: nat, todo: nat, step: nat, bound: nat)
    requires Budget(n, rounds, todo, step, bound) && n > 1 && 2 * next <= n + 1
    ensures todo > 0 && Budget(next, rounds + step, todo - 1, step, bound)
  {
    OneLevelLess(n, todo);
  }

  /** The value of a prefix depends on the prefix only. */
  lemma {:induction false} ValueCong(s: seq<bool>, t: seq<bool>, n: nat)
    requires n <= |s| && n <= |t| && forall i | 0 <= i < n :: s[i] == t[i]
    ensures Value(s, n) == Value(t, n)
  {
    if n > 0 {
      ValueCong(s, t, n - 1);
    }
  }

  lemma NumSnoc(s: seq<bool>, b: bool)
    ensures Num(s + [b]) == Num(s) + Weight(b, |s|)
  {
    ValueCong(s + [b], s, |s|);
  }

  /** The first bit counts once, all others twice as much as they do without it. */
  lemma NumLow(s: seq<bool>)
    ensures Num([]) == 0
    ensures s != [] ==> Num(s) == Bit(s[0]) + 2 * Num(s[1..])
  {
    if s != [] {
      NumLowBit(s);
    }
  }

  lemma {:induction false} NumLowBit(s: seq<bool>)
    requires s != []
    ensures Num(s) == Bit(s[0]) + 2 * Num(s[1..])
  {
    var n := |s| - 1;
    ValueCong(s, s[..n], n);
    if n > 0 {
      NumLowBit(s[..n]);
      assert s[..n][1..] == s[1..][..n - 1];
      ValueCong(s[1..], s[1..][..n - 1], n - 1);
    }
  }

  lemma {:induction false} ValueBound(s: seq<bool>, n: nat)
    requires n <= |s|
    ensures Value(s, n) < Pow2(n)
  {
    if n > 0 {
      ValueBound(s, n - 1);
    }
  }

  lemma {:induction false} Pow2Add(a: nat, b: nat)
    ensures Pow2(a + b) == Pow2(a) * Pow2(b)
  {
    if b > 0 {
      Pow2Add(a, b - 1);
      assert Pow2(a + b) == 2 * Pow2(a + b - 1);
    }
  }

  lemma {:induction false} Pow2Monotone(a: nat, b: nat)
    requires a <= b
    ensures Pow2(a) <= Pow2(b)
  {
    if a < b {
      Pow2Monotone(a, b - 1);
    }
  }

  lemma {:induction false} ModMultiple(x: int, k: int, m: int)
    requires m > 0
    ensures (x + m * k) % m == x % m
  {
    var q, r := x / m, x % m;
    assert x + m * k == m * (q + k) + r;
    DivModUnique(x + m * k, q + k, r, m);
  }

  lemma MulAtLeast(m: int, k: int)
    requires m > 0
    ensures k >= 1 ==> m * k >= m
    ensures k <= -1 ==> m * k <= -m
  {
    if k >= 1 {
      assert m * (k - 1) >= 0;
    } else if k <= -1 {
      assert m * (-k - 1) >= 0;
    }
  }

  lemma QuotientUnique(q1: int, r1: int, q2: int, r2: int, m: int)
    requires 0 <= r1 < m && 0 <= r2 < m && m * q1 + r1 == m * q2 + r2
    ensures q1 == q2 && r1 == r2
  {
    var k := q1 - q2;
    assert m * k == r2 - r1 by {
      assert m * k == m * q1 - m * q2;
    }
    MulAtLeast(m, k);
  }

  lemma DivModUnique(x: int, q: int, r: int, m: int)
    requires 0 <= r < m && x == m * q + r
    ensures x / m == q && x % m == r
  {
    var q1, r1 := x / m, x % m;
    assert x == m * q1 + r1;
    QuotientUnique(q1, r1, q, r, m);
  }

  // ----- arithmetic modulo a power of two -------------------------------------------------

  /** The low n bits of x: what is left when 2^n is taken away as often as possible. */
  function Wrap(x: nat, n: nat): (r: nat)
    ensures r < Pow2(n)
  {
    if x < Pow2(n) then x else Wrap(x - Pow2(n), n)
  }

  /** Keeping the low n bits is reduction modulo 2^n. */
  lemma {:induction false} WrapIsMod(x: nat, n: nat)
    ensures Wrap(x, n) == x % Pow2(n)
  {
    if x < Pow2(n) {
      DivModUnique(x, 0, x, Pow2(n));
    } else {
      WrapIsMod(x - Pow2(n), n);
      ModMultiple(x - Pow2(n), 1, Pow2(n));
    }
  }

  lemma WrapSmall(x: nat, n: nat)
    requires x < Pow2(n)
    ensures Wrap(x, n) == x
  {
  }

  lemma WrapDropTop(x: nat, n: nat)
    ensures Wrap(x + Pow2(n), n) == Wrap(x, n)
  {
  }

  /** A summand may be reduced before it is added. */
  lemma {:induction false} WrapAdd(x: nat, y: nat, n: nat)
    ensures Wrap(Wrap(x, n) + y, n) == Wrap(x + y, n)
  {
    if x >= Pow2(n) {
      WrapAdd(x - Pow2(n), y, n);
      WrapDropTop(x - Pow2(n) + y, n);
    }
  }

  /** A vector whose upper bits are dropped stands for the number modulo a power of two. */
  lemma {:induction false} ValueTruncate(s: seq<bool>, n: nat, k: nat)
    requires k <= n <= |s|
    ensures Value(s, k) == Wrap(Value(s, n), k)
  {
    if k == n {
      ValueBound(s, n);
      WrapSmall(Value(s, n), n);
    } else {
      ValueTruncate(s, n - 1, k);
      if s[n - 1] {
        WrapMultiple(Value(s, n - 1), n - 1 - k, k);
      }
    }
  }

  /** Adding 2^(d + n) leaves the low n bits alone. */
  lemma {:induction false} WrapMultiple(x: nat, d: nat, n: nat)
    ensures Wrap(x + Pow2(d + n), n) == Wrap(x, n)
    decreases d
  {
    if d == 0 {
      WrapDropTop(x, n);
    } else {
      WrapMultiple(x, d - 1, n);
      WrapMultiple(x + Pow2(d - 1 + n), d - 1, n);
    }
  }
}
