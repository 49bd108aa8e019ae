/** Exact prices: the greatest common divisor loop, and fractions in lowest terms. */
module Fractions {
  import opened Prelude

  datatype Rational = Rational(numerator: int, denominator: int)

  function Abs(x: int): nat {
    if x < 0 then -x else x
  }

  function Gcd(a: nat, b: nat): nat
    decreases b
  {
    if b == 0 then a else Gcd(b, a % b)
  }

  method GcdOf(a: int, b: int) returns (g: nat)
    ensures g == Gcd(Abs(a), Abs(b))
  {
    var x, y := Abs(a), Abs(b);
    while y != 0
      invariant x >= 0 && y >= 0 && Gcd(x, y) == Gcd(Abs(a), Abs(b))
      decreases y
    {
      x, y := y, x % y;
    }
    g := x;
  }

  const NOT_POSITIVE := "denominator must be positive"

  /** A fraction in lowest terms; the loop's specification. */
  function Reduced(n: int, d: int): (r: Result<Rational, string>) {
    if d <= 0 then Err(NOT_POSITIVE)
    else
      GcdIsPositive(Abs(n), d);
      Ok(Rational(TruncDiv(n, Gcd(Abs(n), d)), d / Gcd(Abs(n), d)))
  }

  method MakeRational(n: int, d: int) returns (r: Result<Rational, string>)
    ensures r == Reduced(n, d)
  {
    if d <= 0 {
      return Err(NOT_POSITIVE);
    }
    var g := GcdOf(n, d);
    GcdIsPositive(Abs(n), d);
    r := Ok(Rational(TruncDiv(n, g), d / g));
  }

  /** Zero exactly when the two prices are the same. */
  function Compare(a: Rational, b: Rational): int {
    a.numerator * b.denominator - b.numerator * a.denominator
  }

  predicate Positive(r: Rational) {
    r.numerator > 0 && r.denominator > 0
  }

  predicate IsReduced(r: Rational) {
    r.denominator > 0 && Gcd(Abs(r.numerator), r.denominator) == 1
  }

  // ---------------------------------------------------------------- what the loop computes

  lemma {:induction false} GcdIsPositive(a: nat, b: nat)
    requires a > 0 || b > 0
    ensures Gcd(a, b) > 0
    decreases b
  {
    if b != 0 {
      GcdIsPositive(b, a % b);
    }
  }

  lemma Recombine(k: int, p: int, q: int, g: int)
    ensures (k * p + q) * g == k * (p * g) + q * g
  {
  }

  /** The result divides both arguments ... */
  lemma {:induction false} GcdDivides(a: nat, b: nat) returns (p: nat, q: nat)
    ensures a == p * Gcd(a, b) && b == q * Gcd(a, b)
    decreases b
  {
    if b == 0 {
      p, q := 1, 0;
    } else {
      var p', q' := GcdDivides(b, a % b);
      p, q := a / b * p' + q', p';
      Recombine(a / b, p', q', Gcd(b, a % b));
    }
  }

  /** ... and is an integer combination of them, so every common divisor divides it. */
  lemma {:induction false} Bezout(a: nat, b: nat) returns (x: int, y: int)
    ensures a * x + b * y == Gcd(a, b)
    decreases b
  {
    if b == 0 {
      x, y := 1, 0;
    } else {
      var x', y' := Bezout(b, a % b);
      x, y := y', x' - a / b * y';
      assert a == a / b * b + a % b;
      assert a * y' == a / b * b * y' + a % b * y';
    }
  }

  lemma SignedBezout(n: int, d: nat) returns (x: int, y: int)
    ensures n * x + d * y == Gcd(Abs(n), d)
  {
    x, y := Bezout(Abs(n), d);
    if n < 0 {
      x := -x;
    }
  }

  lemma ProductIsOne(a: nat, b: int)
    requires a * b == 1
    ensures a == 1
  {
    assert b <= 0 ==> a * b <= 0;
    assert a >= 2 && b >= 1 ==> a * b >= 2 * b;
  }

  lemma Spread(a: int, b: int, c: int)
    ensures a * (b + c) == a * b + a * c
  {
  }

  lemma Regroup(a: int, b: int, c: int)
    ensures a * b * c == a * (b * c) == b * (a * c)
  {
  }

  lemma DivisorOfOne(h: nat, m: int, q: int, x: int, y: int)
    requires m * h * x + q * h * y == 1
    ensures h == 1
  {
    Regroup(m, h, x);
    Regroup(q, h, y);
    Spread(h, m * x, q * y);
    ProductIsOne(h, m * x + q * y);
  }

  /** A combination that makes one leaves no common divisor. */
  lemma CombinationOfOne(m: int, q: nat, x: int, y: int)
    requires m * x + q * y == 1
    ensures Gcd(Abs(m), q) == 1
  {
    var h := Gcd(Abs(m), q);
    var p', q' := GcdDivides(Abs(m), q);
    var m': int := p';
    if m < 0 {
      m' := -m';
    }
    DivisorOfOne(h, m', q', x, y);
  }

  lemma QuotientsAreCoprime(m: int, q: nat, g: nat, x: int, y: int)
    requires g > 0 && m * g * x + q * g * y == g
    ensures Gcd(Abs(m), q) == 1
  {
    Regroup(m, g, x);
    Regroup(q, g, y);
    Spread(g, m * x, q * y);
    CancelLeft(g, m * x + q * y, 1);
    CombinationOfOne(m, q, x, y);
  }

  /** The fraction is the same price, in lowest terms. */
  lemma ReducedIsLowestTerms(n: int, d: int)
    requires d > 0
    ensures var r := Reduced(n, d).value;
      IsReduced(r) && r.numerator * d == n * r.denominator && (n > 0 <==> r.numerator > 0)
  {
    var g := Gcd(Abs(n), d);
    GcdIsPositive(Abs(n), d);
    var p, q := GcdDivides(Abs(n), d);
    var m: int := p;
    if n < 0 {
      m := -m;
    }
    assert n == m * g;
    ExactQuotient(p, g);
    ExactQuotient(q, g);
    assert Reduced(n, d).value == Rational(m, q);
    ProductSign(p, g);
    ProductSign(q, g);
    Regroup(m, q, g);
    Regroup(q, m, g);
    var x, y := SignedBezout(n, d);
    QuotientsAreCoprime(m, q, g, x, y);
  }

  lemma ExactQuotient(p: nat, g: nat)
    requires g > 0
    ensures p * g / g == p
  {
    var k := p * g / g;
    assert (p - k) * g == p * g % g;
    assert p - k >= 1 ==> (p - k) * g >= g;
    assert p - k <= -1 ==> (p - k) * g + g <= 0;
  }

  lemma ProductSign(p: nat, g: nat)
    requires g > 0
    ensures p * g > 0 <==> p > 0
  {
  }

  lemma CancelLeft(g: int, a: int, b: int)
    requires g > 0 && g * a == g * b
    ensures a == b
  {
    assert a < b ==> g * (b - a) > 0;
    assert a > b ==> g * (a - b) > 0;
  }

  lemma FactorOut(rn: int, rd: int, sn: int, sd: int, x: int, y: int)
    requires rn * x + rd * y == 1 && rn * sd == sn * rd
    ensures sd == rd * (sn * x + sd * y)
  {
    Spread(sd, rn * x, rd * y);
    Regroup(sd, rn, x);
    Regroup(rd, sn, x);
    Regroup(sd, rd, y);
    Spread(rd, sn * x, sd * y);
  }

  lemma DenominatorsDivide(r: Rational, s: Rational) returns (k: int)
    requires IsReduced(r) && IsReduced(s) && Compare(r, s) == 0
    ensures s.denominator == r.denominator * k
  {
    var x, y := SignedBezout(r.numerator, r.denominator);
    k := s.numerator * x + s.denominator * y;
    FactorOut(r.numerator, r.denominator, s.numerator, s.denominator, x, y);
  }

  /** Lowest terms are unique: two reduced fractions of the same value are the same pair. */
  lemma LowestTermsAreUnique(r: Rational, s: Rational)
    requires IsReduced(r) && IsReduced(s) && Compare(r, s) == 0
    ensures r == s
  {
    var k := DenominatorsDivide(r, s);
    var m := DenominatorsDivide(s, r);
    assert r.denominator * (k * m) == r.denominator * 1;
    CancelLeft(r.denominator, k * m, 1);
    assert k <= 0 ==> r.denominator * k <= 0;
    ProductIsOne(k, m);
    CancelLeft(r.denominator, r.numerator, s.numerator);
  }

  /** Prices are equal by cross-multiplication exactly when their reduced fractions are identical. */
  lemma EqualPricesReduceAlike(a: Rational, b: Rational)
    requires a.denominator > 0 && b.denominator > 0
    ensures Compare(a, b) == 0 <==> Canonical(a) == Canonical(b)
  {
    CanonicalSamePrice(a);
    CanonicalSamePrice(b);
    if Compare(a, b) == 0 {
      CompareChain(Canonical(a), a, b);
      CompareChain(Canonical(a), b, Canonical(b));
      CompareChain(Canonical(b), b, a);
      CompareChain(Canonical(b), a, Canonical(a));
      LowestTermsAreUnique(Canonical(a), Canonical(b));
    } else if Canonical(a) == Canonical(b) {
      CompareChain(a, Canonical(a), b);
      CompareChain(b, Canonical(b), a);
    }
  }

  function Canonical(r: Rational): Rational
    requires r.denominator > 0
  {
    Reduced(r.numerator, r.denominator).value
  }

  lemma CanonicalSamePrice(r: Rational)
    requires r.denominator > 0
    ensures IsReduced(Canonical(r)) && Compare(Canonical(r), r) == 0 && Compare(r, Canonical(r)) == 0
    ensures Positive(r) ==> Positive(Canonical(r))
  {
    ReducedIsLowestTerms(r.numerator, r.denominator);
  }

  lemma CompareChain(a: Rational, b: Rational, c: Rational)
    requires a.denominator > 0 && b.denominator > 0 && c.denominator > 0
    requires Compare(a, b) <= 0 && Compare(b, c) <= 0
    ensures Compare(a, c) <= 0
  {
    var l, r := a.numerator * c.denominator, c.numerator * a.denominator;
    assert b.denominator * l <= b.denominator * r by {
      assert a.numerator * b.denominator * c.denominator <= b.numerator * a.denominator * c.denominator;
      assert b.numerator * c.denominator * a.denominator <= c.numerator * b.denominator * a.denominator;
    }
    assert l > r ==> b.denominator * (l - r) > 0;
  }

  lemma CompareFlips(a: Rational, b: Rational)
    ensures Compare(a, b) == -Compare(b, a)
  {
  }
}
