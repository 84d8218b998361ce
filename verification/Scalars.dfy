/** Arithmetic modulo a prime group order: the scalar operations of `btcec.ModNScalar`. */
module Scalars {

  ghost predicate IsPrime(n: nat) {
    n > 1 && forall d: nat :: 1 < d < n ==> n % d != 0
  }

  function Add(n: nat, a: nat, b: nat): (r: nat)
    requires a < n && b < n
    ensures r < n
  {
    if a + b < n then a + b else a + b - n
  }

  function Neg(n: nat, a: nat): (r: nat)
    requires a < n
    ensures r < n && Add(n, a, r) == 0
  {
    if a == 0 then 0 else n - a
  }

  function Mul(n: nat, a: nat, b: nat): (r: nat)
    requires a < n && b < n
    ensures r < n
  {
    (a * b) % n
  }

  // ----- division with remainder -----

  lemma MulMono(a: nat, x: int, y: int)
    requires x <= y
    ensures a * x <= a * y
  {
  }

  /** Quotient and remainder are unique. */
  lemma ModUnique(n: nat, q: int, r: nat)
    requires r < n
    ensures (n * q + r) % n == r
  {
    var m := n * q + r;
    var q', r' := m / n, m % n;
    assert n * q' + r' == m;
    assert n * (q' + 1) == n * q' + n && n * (q + 1) == n * q + n;
    if q > q' {
      MulMono(n, q' + 1, q);
    } else if q < q' {
      MulMono(n, q + 1, q');
    }
  }

  lemma ModAddMultiple(n: nat, k: int, z: int)
    requires n > 0
    ensures (n * k + z) % n == z % n
  {
    assert z == n * (z / n) + z % n;
    assert n * k + z == n * (k + z / n) + z % n;
    ModUnique(n, k + z / n, z % n);
  }

  lemma ModMul(n: nat, x: int, y: int)
    requires n > 0
    ensures ((x % n) * y) % n == (x * y) % n
  {
    var q := x / n;
    assert x == n * q + x % n;
    assert x * y == n * (q * y) + (x % n) * y;
    ModAddMultiple(n, q * y, (x % n) * y);
  }

  // ----- ring laws -----

  lemma DifferenceOfSums(n: nat, a: nat, b: nat, e: nat)
    requires a < n && b < n && e < n
    ensures Add(n, Add(n, a, e), Neg(n, Add(n, b, e))) == Add(n, a, Neg(n, b))
  {
  }

  lemma MulComm(n: nat, a: nat, b: nat)
    requires a < n && b < n
    ensures Mul(n, a, b) == Mul(n, b, a)
  {
    assert a * b == b * a;
  }

  lemma MulAssoc(n: nat, a: nat, b: nat, c: nat)
    requires a < n && b < n && c < n
    ensures Mul(n, Mul(n, a, b), c) == Mul(n, a, Mul(n, b, c))
  {
    ModMul(n, a * b, c);
    ModMul(n, b * c, a);
    assert (a * b) * c == (b * c) * a;
    assert a * ((b * c) % n) == ((b * c) % n) * a;
  }

  lemma MulAdd(n: nat, a: nat, b: nat, c: nat)
    requires a < n && b < n && c < n
    ensures Mul(n, a, Add(n, b, c)) == Add(n, Mul(n, a, b), Mul(n, a, c))
  {
    var x, y := Mul(n, a, b), Mul(n, a, c);
    calc {
      Mul(n, a, Add(n, b, c));
    ==  { MulReducedSum(n, a, b, c); }
      (a * b + a * c) % n;
    ==  { SumOfRemainders(n, a * b, a * c); }
      Add(n, x, y);
    }
  }

  lemma MulReducedSum(n: nat, a: nat, b: nat, c: nat)
    requires a < n && b < n && c < n
    ensures (a * Add(n, b, c)) % n == (a * b + a * c) % n
  {
    assert a * (b + c) == a * b + a * c;
    if b + c >= n {
      var k: int := 0 - (a as int);
      assert a * (b + c - n) == a * (b + c) - a * n;
      assert n * k == 0 - a * n;
      ModAddMultiple(n, k, a * b + a * c);
    }
  }

  lemma SumOfRemainders(n: nat, x: nat, y: nat)
    requires n > 0
    ensures (x + y) % n == Add(n, x % n, y % n)
  {
    var r := Add(n, x % n, y % n);
    var carry := if x % n + y % n < n then 0 else 1;
    assert x == n * (x / n) + x % n && y == n * (y / n) + y % n;
    var q := x / n + y / n + carry;
    assert n * q == n * (x / n) + n * (y / n) + n * carry;
    ModUnique(n, q, r);
  }

  lemma MulOne(n: nat, a: nat)
    requires 1 < n && a < n
    ensures Mul(n, a, 1) == a && Mul(n, 1, a) == a
  {
    ModUnique(n, 0, a);
  }

  lemma MulNeg(n: nat, a: nat, b: nat)
    requires a < n && b < n
    ensures Mul(n, Neg(n, a), b) == Neg(n, Mul(n, a, b))
    ensures Mul(n, a, Neg(n, b)) == Neg(n, Mul(n, a, b))
  {
    MulComm(n, Neg(n, a), b);
    MulComm(n, a, b);
    MulAdd(n, b, a, Neg(n, a));
    MulAdd(n, a, b, Neg(n, b));
    MulComm(n, a, 0);
    MulComm(n, b, 0);
    ModUnique(n, 0, 0);
  }

  // ----- inverses -----

  /** Extended Euclid: coefficients `x`, `y` and the divisor `g` with `x*a + y*b == g`. */
  function Bezout(a: nat, b: nat): (r: (int, int, nat))
    ensures r.0 * a + r.1 * b == r.2
    decreases b
  {
    if b == 0 then (1, 0, a)
    else
      var (x, y, g) := Bezout(b, a % b);
      BezoutStep(a, b, a / b, a % b, x, y);
      (y, x - (a / b) * y, g)
  }

  lemma BezoutStep(a: nat, b: nat, q: nat, r: nat, x: int, y: int)
    requires a == q * b + r
    ensures y * a + (x - q * y) * b == x * b + y * r
  {
    assert y * a == y * (q * b) + y * r;
    assert (x - q * y) * b == x * b - (q * y) * b;
    assert y * (q * b) == (q * y) * b;
  }

  /** The divisor Bezout computes divides both arguments. */
  lemma {:induction false} BezoutDivides(a: nat, b: nat) returns (p: int, q: int)
    ensures a == Bezout(a, b).2 * p && b == Bezout(a, b).2 * q
    decreases b
  {
    if b == 0 {
      p, q := 1, 0;
    } else {
      var q', r := BezoutDivides(b, a % b);
      p, q := (a / b) * q' + r, q';
      DividesDividend(a, b, Bezout(a, b).2, q', r);
    }
  }

  lemma DividesDividend(a: nat, b: nat, g: int, q: int, r: int)
    requires b > 0 && b == g * q && a % b == g * r
    ensures a == g * ((a / b) * q + r)
  {
    var k := a / b;
    assert a == k * b + a % b;
    assert k * (g * q) == g * (k * q);
    assert g * (k * q + r) == g * (k * q) + g * r;
  }

  /** The inverse `InverseNonConst` computes; zero has none and is mapped to zero. */
  function Inverse(n: nat, a: nat): (r: nat)
    requires a < n
    ensures r < n
  {
    if a == 0 then 0 else Bezout(a, n).0 % n
  }

  lemma CoprimeToPrime(n: nat, a: nat)
    requires IsPrime(n) && 0 < a < n
    ensures Bezout(a, n).2 == 1
  {
    var g := Bezout(a, n).2;
    var p, q := BezoutDivides(a, n);
    assert g != 0;
    assert p >= 1;
    MulMono(g, 1, p);
    ModUnique(g, q, 0);
    assert n % g == 0;
  }

  /** Modulo a prime, every nonzero scalar has a multiplicative inverse. */
  lemma InverseLaw(n: nat, a: nat)
    requires IsPrime(n) && 0 < a < n
    ensures Mul(n, a, Inverse(n, a)) == 1
  {
    CoprimeToPrime(n, a);
    var (x, y, g) := Bezout(a, n);
    calc {
      (a * (x % n)) % n;
    ==  { assert a * (x % n) == (x % n) * a; }
      ((x % n) * a) % n;
    ==  { ModMul(n, x, a); }
      (x * a) % n;
    ==  { assert x * a == n * (-y) + 1; }
      (n * (-y) + 1) % n;
    ==  { ModUnique(n, -y, 1); }
      1;
    }
  }
}
