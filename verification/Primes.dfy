/** Primality: the definition, Euclid's lemma, and the trial division of
    `Prime::isPrime` with its 32-bit counter. */
module Primes {

  /** The result of code that may leave the range of a C++ `int`. */
  datatype Outcome<+T> = Done(value: T) | IntOverflow

  const INT_MAX := 0x7fff_ffff
  /** The largest odd factor whose square fits in an `int`. */
  const LAST_FACTOR := 46339

  ghost predicate Divides(d: int, n: int)
    requires d > 0
  {
    n % d == 0
  }

  ghost predicate Prime(n: int) {
    n >= 2 && forall d: int :: 2 <= d < n ==> !Divides(d, n)
  }

  // ------------------------------------------------------------ divisibility

  lemma MulAtLeast(d: int, z: int)
    requires d > 0 && z >= 1
    ensures d * z >= d && d * z >= z
  {
    assert d * (z - 1) >= 0;
    assert (d - 1) * z >= 0;
  }

  lemma StrictlyMore(d: int, k: int, l: int)
    requires d > 0 && k < l
    ensures d * k < d * l
  {
    MulAtLeast(d, l - k);
    assert d * (l - k) == d * l - d * k;
  }

  /** Quotient and remainder are unique. */
  lemma Unique(d: int, q: int, r: int, q': int, r': int)
    requires d > 0 && d * q + r == d * q' + r' && 0 <= r < d && 0 <= r' < d
    ensures q == q' && r == r'
  {
    if q > q' {
      assert d * (q - q') == r' - r;
      MulAtLeast(d, q - q');
    } else if q < q' {
      assert d * (q' - q) == r - r';
      MulAtLeast(d, q' - q);
    }
  }

  lemma MultipleMod(d: int, k: int)
    requires d > 0
    ensures (d * k) % d == 0 && (d * k) / d == k
  {
    var n := d * k;
    var q, r := n / d, n % d;
    assert n == d * q + r;
    Unique(d, k, 0, q, r);
  }

  lemma DividesWitness(d: int, n: int) returns (k: int)
    requires d > 0 && Divides(d, n)
    ensures n == d * k && k == n / d
  {
    k := n / d;
  }

  lemma DividesMultiple(d: int, n: int, m: int)
    requires d > 0 && Divides(d, n)
    ensures Divides(d, n * m) && Divides(d, m * n)
  {
    var k := DividesWitness(d, n);
    assert n * m == d * (k * m) by { TimesAssociates(d, k, m); }
    MultipleMod(d, k * m);
  }

  lemma TimesAssociates(a: int, b: int, c: int)
    ensures (a * b) * c == a * (b * c)
  {
  }

  lemma DividesTrans(a: int, b: int, n: int)
    requires a > 0 && b > 0 && Divides(a, b) && Divides(b, n)
    ensures Divides(a, n)
  {
    var k := DividesWitness(b, n);
    DividesMultiple(a, b, k);
  }

  lemma DividesDifference(d: int, a: int, b: int)
    requires d > 0 && Divides(d, a) && Divides(d, b)
    ensures Divides(d, a - b)
  {
    var k := DividesWitness(d, a);
    var l := DividesWitness(d, b);
    assert a - b == d * (k - l);
    MultipleMod(d, k - l);
  }

  lemma DivisorBound(d: int, n: int)
    requires d > 0 && n > 0 && Divides(d, n)
    ensures d <= n && 1 <= n / d <= n && n == d * (n / d)
  {
    var k := DividesWitness(d, n);
    assert k >= 1 by { NonPositive(d, k); }
    MulAtLeast(d, k);
  }

  lemma NonPositive(d: int, k: int)
    requires d > 0
    ensures k <= 0 ==> d * k <= 0
  {
    if k <= 0 { assert d * (-k) >= 0; }
  }

  /** The cofactor of a proper divisor is one too. */
  lemma Cofactor(d: int, n: int) returns (e: int)
    requires 2 <= d < n && Divides(d, n)
    ensures 2 <= e < n && n == d * e && Divides(e, n)
  {
    DivisorBound(d, n);
    e := n / d;
    CofactorBounds(d, e, n);
    MultipleMod(e, d);
  }

  lemma CofactorBounds(d: int, e: int, n: int)
    requires n == d * e && 2 <= d < n && e >= 1
    ensures 2 <= e < n
  {
    assert d * e >= 2 * e by { assert (d - 2) * e >= 0; }
  }

  /** Euclid's lemma: by descent on `a`, replacing it by `a mod p` and then by
      `p mod a`. */
  lemma {:induction false} Euclid(p: int, a: int, b: int)
    requires Prime(p) && a >= 0 && Divides(p, a * b)
    ensures Divides(p, a) || Divides(p, b)
    decreases a
  {
    if a <= 1 {
      if a == 0 { MultipleMod(p, 0); }
    } else if a < p {
      var t := EuclidDown(p, a, b);
      Euclid(p, t, b);
      SmallMod(t, p);
    } else {
      var r := EuclidMod(p, a, b);
      Euclid(p, r, b);
      SmallMod(r, p);
    }
  }

  lemma SmallMod(r: int, p: int)
    requires 0 <= r < p
    ensures r % p == r
  {
    var q, m := r / p, r % p;
    assert r == p * q + m;
    Unique(p, 0, r, q, m);
  }

  lemma EuclidDown(p: int, a: int, b: int) returns (t: int)
    requires Prime(p) && 2 <= a < p && Divides(p, a * b)
    ensures 0 < t < a && Divides(p, t * b)
  {
    var q := p / a;
    t := p % a;
    assert p == a * q + t;
    assert t != 0 by { assert !Divides(a, p); }
    MultipleMod(p, b);
    DividesMultiple(p, a * b, q);
    Reduce(p, a, q, t, b);
    DividesDifference(p, p * b, (a * b) * q);
  }

  lemma EuclidMod(p: int, a: int, b: int) returns (r: int)
    requires p >= 2 && a >= p && Divides(p, a * b)
    ensures 0 <= r < p && r == a % p && Divides(p, r * b)
  {
    var q := a / p;
    r := a % p;
    assert a == p * q + r;
    MultipleMod(p, b);
    DividesMultiple(p, p * b, q);
    Reduce(a, p, q, r, b);
    DividesDifference(p, a * b, (p * b) * q);
  }

  lemma Reduce(n: int, d: int, q: int, r: int, b: int)
    requires n == d * q + r
    ensures r * b == n * b - (d * b) * q
  {
    assert (d * q + r) * b == (d * q) * b + r * b;
    assert (d * q) * b == (d * b) * q;
  }

  /** A number with no divisor below `f` whose square is below `f * f` is prime. */
  lemma NoSmallDivisor(n: int, f: int)
    requires n >= 2 && f >= 2 && f * f > n
    requires forall d :: 2 <= d < f && d < n ==> !Divides(d, n)
    ensures Prime(n)
  {
    forall d | 2 <= d < n ensures !Divides(d, n) {
      if Divides(d, n) {
        var e := Cofactor(d, n);
        if d >= f && e >= f { SquareBound(d, e, f); }
      }
    }
  }

  lemma SquareBound(d: int, e: int, f: int)
    requires d >= f >= 0 && e >= f
    ensures d * e >= f * f
  {
    assert d * e >= f * e && f * e >= f * f;
  }

  // ---------------------------------------------------------------- isPrime

  /** The inputs on which `factor * factor` leaves the range of `int`: odd, at
      least 46339 squared, and without a divisor up to 46339. */
  ghost predicate SquareOverflows(n: int) {
    && n >= LAST_FACTOR * LAST_FACTOR && n % 2 != 0
    && forall d :: 3 <= d <= LAST_FACTOR ==> !Divides(d, n)
  }

  /** The odd candidates below `factor` have been tried. */
  ghost predicate Tried(n: int, factor: int) {
    && n >= 3 && n % 2 == 1 && 3 <= factor <= LAST_FACTOR + 2 && factor % 2 == 1
    && (factor - 2) * (factor - 2) <= n
    && forall d :: 2 <= d < factor ==> !Divides(d, n)
  }

  /** `isPrime` decides primality on every 64-bit number, except that the
      multiplication overflows on exactly the `SquareOverflows` numbers. */
  method IsPrime(number: int) returns (r: Outcome<bool>)
    ensures r.IntOverflow? <==> SquareOverflows(number)
    ensures r.Done? ==> (r.value <==> Prime(number))
  {
    hide Divides, Prime, SquareOverflows, Tried;
    TriedFirst(number);
    if number <= 1 { return Done(false); }
    if number == 2 { return Done(true); }
    if number % 2 == 0 { return Done(false); }
    var factor := 3;
    while true
      invariant Tried(number, factor)
      decreases LAST_FACTOR + 2 - factor
    {
      TriedNext(number, factor);
      if factor * factor > INT_MAX { return IntOverflow; }
      if factor * factor > number { break; }
      if number % factor == 0 { return Done(false); }
      factor := factor + 2;
    }
    r := Done(true);
  }

  lemma TriedFirst(n: int)
    ensures n <= 1 ==> !Prime(n) && !SquareOverflows(n)
    ensures n == 2 ==> Prime(n) && !SquareOverflows(n)
    ensures n > 2 && n % 2 == 0 ==> !Prime(n) && !SquareOverflows(n)
    ensures n > 2 && n % 2 != 0 ==> Tried(n, 3)
  {
    if n > 2 && n % 2 == 0 { assert Divides(2, n); }
  }

  /** What each way out of the loop body means. */
  lemma TriedNext(n: int, factor: int)
    requires Tried(n, factor)
    ensures factor * factor > INT_MAX ==> SquareOverflows(n)
    ensures factor * factor <= INT_MAX ==> 3 <= factor <= LAST_FACTOR
    ensures factor * factor <= INT_MAX && factor * factor > n ==> Prime(n) && !SquareOverflows(n)
    ensures factor * factor <= INT_MAX && factor * factor <= n && n % factor == 0 ==> !Prime(n) && !SquareOverflows(n)
    ensures factor * factor <= INT_MAX && factor * factor <= n && n % factor != 0 ==> Tried(n, factor + 2)
  {
    SquareFits(factor);
    if factor == LAST_FACTOR + 2 {
      TriedAll(n);
    } else if factor * factor > n {
      NoSmallDivisor(n, factor);
      SquareBound(LAST_FACTOR, LAST_FACTOR, factor);
    } else if n % factor == 0 {
      assert Divides(factor, n);
      ProperDivisor(factor, n);
    } else {
      EvenNotDivisor(factor + 1, n);
    }
  }

  lemma TriedAll(n: int)
    requires Tried(n, LAST_FACTOR + 2)
    ensures SquareOverflows(n)
  {
  }

  lemma SquareFits(factor: int)
    requires 3 <= factor <= LAST_FACTOR + 2 && factor % 2 == 1
    ensures factor * factor > INT_MAX <==> factor == LAST_FACTOR + 2
  {
    if factor <= LAST_FACTOR { SquareBound(LAST_FACTOR, LAST_FACTOR, factor); }
  }

  lemma ProperDivisor(d: int, n: int)
    requires d >= 3 && n > 0 && d * d <= n && Divides(d, n)
    ensures 2 <= d < n && !Prime(n)
  {
    MulAtLeast(d, d - 1);
    assert d * d == d * (d - 1) + d;
  }

  lemma EvenNotDivisor(d: int, n: int)
    requires d > 0 && d % 2 == 0 && n % 2 == 1
    ensures !Divides(d, n)
  {
    if Divides(d, n) {
      assert Divides(2, d);
      DividesTrans(2, d, n);
    }
  }

  /** Below 46339 squared the 32-bit counter is wide enough. */
  lemma SmallNeverOverflows(n: int)
    requires n < LAST_FACTOR * LAST_FACTOR
    ensures !SquareOverflows(n)
  {
  }

  /** No divisor among `lo`, `lo + 2`, ... below `hi`. */
  predicate FreeOf(n: int, lo: int, hi: int)
    requires lo > 0
    decreases hi - lo
  {
    lo >= hi || (n % lo != 0 && FreeOf(n, lo + 2, hi))
  }

  lemma {:induction false} FreeMeans(n: int, lo: int, hi: int)
    requires lo > 0 && lo % 2 == 1 && FreeOf(n, lo, hi)
    ensures forall d :: lo <= d < hi && d % 2 == 1 ==> !Divides(d, n)
    decreases hi - lo
  {
    if lo < hi { FreeMeans(n, lo + 2, hi); }
  }

  lemma Prime46349()
    ensures Prime(46349)
  {
    assert FreeOf(46349, 3, 31) && FreeOf(46349, 31, 59) && FreeOf(46349, 59, 87) && FreeOf(46349, 87, 115);
    assert FreeOf(46349, 115, 143) && FreeOf(46349, 143, 171) && FreeOf(46349, 171, 199) && FreeOf(46349, 199, 216);
    FreeMeans(46349, 3, 31);
    FreeMeans(46349, 31, 59);
    FreeMeans(46349, 59, 87);
    FreeMeans(46349, 87, 115);
    FreeMeans(46349, 115, 143);
    FreeMeans(46349, 143, 171);
    FreeMeans(46349, 171, 199);
    FreeMeans(46349, 199, 216);
    forall d | 2 <= d < 216 ensures !Divides(d, 46349) {
      if d % 2 == 0 { EvenNotDivisor(d, 46349); }
    }
    NoSmallDivisor(46349, 216);
  }

  lemma SquareOfPrime(p: int, d: int)
    requires Prime(p) && 2 <= d < p
    ensures !Divides(d, p * p)
  {
    if Divides(d, p * p) {
      var k := DividesWitness(d, p * p);
      MultipleMod(p, p);
      MulAtLeast(p, p);
      DivisorBound(d, p * p);
      Euclid(p, d, k);
      SmallMod(d, p);
      var m := DividesWitness(p, k);
      assert p * (d * m) == p * p by { assert d * (p * m) == p * (d * m); }
      Unique(p, d * m, 0, p, 0);
      assert !Divides(d, p);
      MultipleMod(d, m);
    }
  }

  /** The overflow is reached by a valid 64-bit input: the square of the prime
      46349. */
  lemma OverflowWitness()
    ensures SquareOverflows(46349 * 46349)
  {
    Prime46349();
    forall d | 3 <= d <= LAST_FACTOR ensures !Divides(d, 46349 * 46349) { SquareOfPrime(46349, d); }
  }
}
