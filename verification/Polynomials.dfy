/**
  Exclusive ors over finite sets, and polynomials over bits: sets of monomials, which are sets of
  variables. Different polynomials are different functions.
 */
module Polynomials {
  // ----- exclusive or over a set ----------------------------------------------------------

  ghost function Pick<T>(s: set<T>): (x: T)
    requires s != {}
    ensures x in s
  {
    var x :| x in s;
    x
  }

  /** The elements in exactly one of two sets. */
  ghost function Either<T(!new)>(s: set<T>, u: set<T>): (r: set<T>)
    ensures forall x :: x in r <==> (x in s) != (x in u)
  {
    (s - u) + (u - s)
  }

  /** The exclusive or of the bits of some elements. */
  ghost predicate Odd<T>(s: set<T>, a: T -> bool) {
    if s == {} then false else a(Pick(s)) != Odd(s - {Pick(s)}, a)
  }

  lemma {:induction false} OddWithout<T>(s: set<T>, x: T, a: T -> bool)
    requires x in s
    ensures Odd(s, a) == (a(x) != Odd(s - {x}, a))
    decreases |s|
  {
    var y := Pick(s);
    if x != y {
      OddWithout(s - {y}, x, a);
      OddWithout(s - {x}, y, a);
      assert s - {x} - {y} == s - {y} - {x};
    }
  }

  lemma EitherStep<T(!new)>(s: set<T>, u: set<T>, x: T)
    requires x in s
    ensures x in u ==> Either(s - {x}, u) - {x} == Either(s, u)
    ensures x !in u ==> Either(s, u) - {x} == Either(s - {x}, u)
  {
  }

  lemma {:induction false} OddSum<T(!new)>(s: set<T>, u: set<T>, a: T -> bool)
    ensures Odd(Either(s, u), a) == (Odd(s, a) != Odd(u, a))
    decreases |s|
  {
    if s == {} {
      assert Either(s, u) == u;
    } else {
      var x := Pick(s);
      OddSum(s - {x}, u, a);
      EitherStep(s, u, x);
      OddWithout(if x in u then Either(s - {x}, u) else Either(s, u), x, a);
    }
  }

  lemma OddOne<T>(x: T, a: T -> bool)
    ensures Odd({x}, a) == a(x)
  {
    assert {x} - {x} == {};
  }

  lemma {:induction false} OddCong<T>(s: set<T>, a: T -> bool, b: T -> bool)
    requires forall x | x in s :: a(x) == b(x)
    ensures Odd(s, a) == Odd(s, b)
    decreases |s|
  {
    if s != {} {
      OddCong(s - {Pick(s)}, a, b);
    }
  }

  lemma {:induction false} NoneOdd<T>(s: set<T>, a: T -> bool)
    requires forall x | x in s :: !a(x)
    ensures !Odd(s, a)
    decreases |s|
  {
    if s != {} {
      NoneOdd(s - {Pick(s)}, a);
    }
  }

  // ----- polynomials ----------------------------------------------------------------------

  /** Whether all variables of a monomial are one. */
  ghost function Monomials<T(!new)>(a: T -> bool): set<T> -> bool {
    (m: set<T>) => forall x | x in m :: a(x)
  }

  ghost predicate ValueOf<T(!new)>(p: set<set<T>>, a: T -> bool) {
    Odd(p, Monomials(a))
  }

  lemma SumValue<T(!new)>(p: set<set<T>>, q: set<set<T>>, a: T -> bool)
    ensures ValueOf(Either(p, q), a) == (ValueOf(p, a) != ValueOf(q, a))
  {
    OddSum(p, q, Monomials(a));
  }

  lemma VariableValue<T(!new)>(x: T, a: T -> bool)
    ensures ValueOf({{x}}, a) == a(x)
  {
    OddOne({x}, Monomials(a));
  }

  ghost function Fixed<T>(b: bool): set<set<T>> {
    if b then {{}} else {}
  }

  lemma FixedValue<T(!new)>(b: bool, a: T -> bool)
    ensures ValueOf(Fixed(b), a) == b
  {
    if b {
      OddOne({}, Monomials(a));
    }
  }

  /** A polynomial times a monomial. */
  ghost function Shift<T(!new)>(m: set<T>, q: set<set<T>>): set<set<T>> {
    if q == {} then {} else Either({m + Pick(q)}, Shift(m, q - {Pick(q)}))
  }

  lemma {:induction false} ShiftValue<T(!new)>(m: set<T>, q: set<set<T>>, a: T -> bool)
    ensures ValueOf(Shift(m, q), a) == (Monomials(a)(m) && ValueOf(q, a))
    decreases |q|
  {
    if q != {} {
      var n := Pick(q);
      ShiftValue(m, q - {n}, a);
      SumValue({m + n}, Shift(m, q - {n}), a);
      OddOne(m + n, Monomials(a));
    }
  }

  ghost function Product<T(!new)>(p: set<set<T>>, q: set<set<T>>): set<set<T>> {
    if p == {} then {} else Either(Shift(Pick(p), q), Product(p - {Pick(p)}, q))
  }

  lemma {:induction false} ProductValue<T(!new)>(p: set<set<T>>, q: set<set<T>>, a: T -> bool)
    ensures ValueOf(Product(p, q), a) == (ValueOf(p, a) && ValueOf(q, a))
    decreases |p|
  {
    if p != {} {
      var m := Pick(p);
      ProductValue(p - {m}, q, a);
      ShiftValue(m, q, a);
      SumValue(Shift(m, q), Product(p - {m}, q), a);
    }
  }

  // ----- different polynomials are different functions ------------------------------------

  /** A smallest monomial. */
  lemma {:induction false} Smallest<T>(p: set<set<T>>) returns (m: set<T>)
    requires p != {}
    ensures m in p && forall n | n in p :: |m| <= |n|
    decreases |p|
  {
    m := Pick(p);
    var rest := p - {m};
    assert p == rest + {m};
    if rest != {} {
      var k := Smallest(rest);
      if |k| < |m| {
        m := k;
      }
    }
  }

  lemma SubsetBelow<T>(n: set<T>, m: set<T>)
    requires n <= m && |m| <= |n|
    ensures n == m
  {
    assert |m - n| == 0;
  }

  /** The bits that are one on the given variables only. */
  ghost function OnesOn<T>(ones: set<T>): T -> bool {
    (x: T) => x in ones
  }

  /** With ones exactly on a smallest monomial, no other monomial is one. */
  lemma NotZero<T(!new)>(p: set<set<T>>) returns (ones: set<T>)
    requires p != {}
    ensures ValueOf(p, OnesOn(ones))
  {
    ones := Smallest(p);
    var a := OnesOn(ones);
    forall n | n in p - {ones}
      ensures !Monomials(a)(n)
    {
      if n <= ones {
        SubsetBelow(n, ones);
      }
    }
    NoneOdd(p - {ones}, Monomials(a));
    OddWithout(p, ones, Monomials(a));
  }

  lemma Distinguished<T(!new)>(p: set<set<T>>, q: set<set<T>>) returns (ones: set<T>)
    requires p != q
    ensures ValueOf(p, OnesOn(ones)) != ValueOf(q, OnesOn(ones))
  {
    var d := Either(p, q);
    assert Either(d, q) == p && Either({}, q) == q;
    ones := NotZero(d);
    SumValue(p, q, OnesOn(ones));
  }
}
