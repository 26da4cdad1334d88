/** `PrimeFactCalculator`: trial division with a shrinking bound, proved to give
    the prime factorization. */
module PrimeFactorization {
  import opened Primes

  /** The exponent of `p` in `n`. */
  ghost function Multiplicity(n: int, p: int): nat
    requires n >= 1 && p >= 2
    decreases n
  {
    if Divides(p, n) then DivisorBound(p, n); QuotientShrinks(p, n); 1 + Multiplicity(n / p, p) else 0
  }

  /** `n` without its factors `p`. */
  ghost function Strip(n: int, p: int): (r: int)
    requires n >= 1 && p >= 2
    ensures r >= 1
    decreases n
  {
    if Divides(p, n) then DivisorBound(p, n); QuotientShrinks(p, n); Strip(n / p, p) else n
  }

  ghost function Pow(b: int, e: nat): int { if e == 0 then 1 else b * Pow(b, e - 1) }

  lemma QuotientShrinks(p: int, n: int)
    requires p >= 2 && n >= 1 && Divides(p, n)
    ensures 1 <= n / p < n
  {
    DivisorBound(p, n);
    assert (p - 1) * (n / p) >= n / p by { assert (p - 2) * (n / p) >= 0; }
  }

  // ---------------------------------------------------------- about primes

  /** Every number above one has a prime divisor. */
  lemma {:induction false} PrimeDivisor(n: int) returns (p: int)
    requires n >= 2
    ensures Prime(p) && Divides(p, n) && p <= n
    decreases n
  {
    if Prime(n) {
      MultipleMod(n, 1);
      p := n;
    } else {
      var d :| 2 <= d < n && Divides(d, n);
      p := PrimeDivisor(d);
      DividesTrans(p, d, n);
    }
  }

  /** A prime that divides a prime is that prime. */
  lemma PrimesApart(p: int, q: int)
    requires Prime(p) && Prime(q) && Divides(p, q)
    ensures p == q
  {
    DivisorBound(p, q);
  }

  /** Dividing by one prime leaves divisibility by another unchanged. */
  lemma OtherDivides(n: int, p: int, q: int)
    requires n >= 1 && Prime(p) && Prime(q) && p != q && Divides(p, n)
    ensures n / p >= 1 && (Divides(q, n) <==> Divides(q, n / p))
  {
    QuotientShrinks(p, n);
    var m := DividesWitness(p, n);
    if Divides(q, m) { DividesMultiple(q, m, p); }
    if Divides(q, n) {
      Euclid(q, p, m);
      if Divides(q, p) { PrimesApart(q, p); }
    }
  }

  /** For two primes that both divide `n` the divisions commute. */
  lemma DivisionsCommute(n: int, p: int, q: int)
    requires n >= 1 && Prime(p) && Prime(q) && p != q && Divides(p, n) && Divides(q, n)
    ensures n / p >= 1 && n / q >= 1 && Divides(q, n / p) && Divides(p, n / q) && (n / p) / q == (n / q) / p
  {
    OtherDivides(n, p, q);
    var m := DividesWitness(p, n);
    var k := DividesWitness(q, m);
    assert n == q * (p * k) by { assert p * (q * k) == q * (p * k); }
    MultipleMod(q, p * k);
    MultipleMod(p, k);
    QuotientShrinks(q, n);
  }

  lemma {:induction false} OtherMultiplicity(n: int, p: int, q: int)
    requires n >= 1 && Prime(p) && Prime(q) && p != q && Divides(p, n)
    ensures n / p >= 1 && Multiplicity(n / p, q) == Multiplicity(n, q)
    decreases n
  {
    OtherDivides(n, p, q);
    if Divides(q, n) {
      DivisionsCommute(n, p, q);
      QuotientShrinks(q, n);
      OtherMultiplicity(n / q, p, q);
    }
  }

  /** Stripping `p` removes `p` and keeps every other exponent. */
  lemma {:induction false} StripMultiplicity(n: int, p: int, q: int)
    requires n >= 1 && Prime(p) && Prime(q)
    ensures Multiplicity(Strip(n, p), q) == if q == p then 0 else Multiplicity(n, q)
    decreases n
  {
    if Divides(p, n) {
      QuotientShrinks(p, n);
      StripMultiplicity(n / p, p, q);
      if q != p { OtherMultiplicity(n, p, q); }
    }
  }

  lemma {:induction false} StripPower(n: int, p: int)
    requires n >= 1 && p >= 2
    ensures n == Strip(n, p) * Pow(p, Multiplicity(n, p)) && Strip(n, p) <= n
    decreases n
  {
    if Divides(p, n) {
      QuotientShrinks(p, n);
      StripPower(n / p, p);
      DivisorBound(p, n);
      hide Divides;
      var s, e := Strip(n / p, p), Multiplicity(n / p, p);
      Rotate(p, s, Pow(p, e));
      assert Pow(p, e + 1) == p * Pow(p, e);
    }
  }

  lemma Rotate(a: int, b: int, c: int)
    ensures a * (b * c) == b * (a * c)
  {
  }

  // -------------------------------------------------- what a factorization is

  /** `flat` lists, pair by pair, the primes of `n` in strictly increasing order,
      each with its exact exponent, and misses none. */
  ghost predicate IsFactorization(n: int, flat: seq<int>)
    requires n >= 1
  {
    PrefixFactorization(n, flat, n + 1)
  }

  /** The `k`-th pair. */
  function Base(flat: seq<int>, k: int): int
    requires 0 <= k < |flat| / 2
  {
    flat[2 * k]
  }

  function Exponent(flat: seq<int>, k: int): int
    requires 0 <= k < |flat| / 2
  {
    flat[2 * k + 1]
  }

  ghost predicate Entry(n: int, flat: seq<int>, k: int, bound: int)
    requires n >= 1 && 0 <= k < |flat| / 2
  {
    Prime(Base(flat, k)) && Base(flat, k) < bound && Divides(Base(flat, k), n)
    && Exponent(flat, k) == Multiplicity(n, Base(flat, k))
  }

  /** The same for the primes below `bound`. */
  ghost predicate PrefixFactorization(n: int, flat: seq<int>, bound: int)
    requires n >= 1
  {
    && |flat| % 2 == 0
    && (forall k :: 0 <= k < |flat| / 2 ==> Entry(n, flat, k, bound))
    && (forall k, l :: 0 <= k < l < |flat| / 2 ==> Base(flat, k) < Base(flat, l))
    && (forall p :: Prime(p) && p < bound && Divides(p, n) ==> Listed(flat, p))
  }

  ghost predicate Listed(flat: seq<int>, p: int) {
    exists k :: 0 <= k < |flat| / 2 && Base(flat, k) == p
  }

  ghost function Product(flat: seq<int>): int
    requires |flat| % 2 == 0
  {
    if flat == [] then 1 else Pow(flat[0], if flat[1] >= 0 then flat[1] else 0) * Product(flat[2..])
  }

  /** A pair appended at the end. */
  lemma PushPair(flat: seq<int>, p: int, e: int)
    requires |flat| % 2 == 0
    ensures var longer, last := flat + [p, e], |flat| / 2;
            && |longer| % 2 == 0 && |longer| / 2 == last + 1
            && Base(longer, last) == p && Exponent(longer, last) == e
            && forall k :: 0 <= k < last ==>
                 Base(longer, k) == Base(flat, k) && Exponent(longer, k) == Exponent(flat, k)
  {
    var longer, last := flat + [p, e], |flat| / 2;
    assert 2 * last == |flat|;
  }

  /** Appending the next prime. */
  lemma Extend(n: int, flat: seq<int>, p: int, bound: int)
    requires n >= 1 && PrefixFactorization(n, flat, p) && Prime(p) && Divides(p, n) && p < bound
    requires forall q :: Prime(q) && p < q < bound ==> !Divides(q, n)
    ensures PrefixFactorization(n, flat + [p, Multiplicity(n, p)], bound)
  {
    var e := Multiplicity(n, p);
    PushPair(flat, p, e);
    ExtendListed(n, flat, p, e, bound);
    hide Base, Exponent, Multiplicity, Divides, Prime, Listed, Entry;
    forall k | 0 <= k < |flat| / 2 ensures Base(flat, k) < p { EntryBelow(n, flat, k, p); }
    forall k | 0 <= k < |flat| / 2 + 1 ensures Entry(n, flat + [p, e], k, bound) {
      ExtendEntry(n, flat, p, e, bound, k);
    }
  }

  lemma EntryBelow(n: int, flat: seq<int>, k: int, bound: int)
    requires n >= 1 && PrefixFactorization(n, flat, bound) && 0 <= k < |flat| / 2
    ensures Entry(n, flat, k, bound) && Base(flat, k) < bound
  {
    hide Base, Exponent, Multiplicity, Divides, Prime, Listed;
  }

  lemma ExtendEntry(n: int, flat: seq<int>, p: int, e: int, bound: int, k: int)
    requires n >= 1 && PrefixFactorization(n, flat, p) && Prime(p) && Divides(p, n) && p < bound
    requires e == Multiplicity(n, p) && 0 <= k < |flat| / 2 + 1
    ensures k < |flat + [p, e]| / 2 && Entry(n, flat + [p, e], k, bound)
  {
    PushPair(flat, p, e);
    if k < |flat| / 2 { EntryBelow(n, flat, k, p); }
    hide Base, Exponent, Multiplicity, Divides, Listed, PrefixFactorization;
  }

  lemma ExtendListed(n: int, flat: seq<int>, p: int, e: int, bound: int)
    requires n >= 1 && PrefixFactorization(n, flat, p) && p < bound
    requires forall q :: Prime(q) && p < q < bound ==> !Divides(q, n)
    ensures forall q :: Prime(q) && q < bound && Divides(q, n) ==> Listed(flat + [p, e], q)
  {
    var longer, last := flat + [p, e], |flat| / 2;
    PushPair(flat, p, e);
    hide Base, Exponent, Multiplicity, Divides, Entry;
    forall q | Prime(q) && q < bound && Divides(q, n) ensures Listed(longer, q) {
      if q < p {
        assert Listed(flat, q);
        var k :| 0 <= k < last && Base(flat, k) == q;
        assert Base(longer, k) == q;
      } else {
        assert Base(longer, last) == q;
      }
    }
  }

  /** No further prime below the new bound. */
  lemma Widen(n: int, flat: seq<int>, bound: int, wider: int)
    requires n >= 1 && PrefixFactorization(n, flat, bound) && bound <= wider
    requires forall q :: Prime(q) && bound <= q < wider ==> !Divides(q, n)
    ensures PrefixFactorization(n, flat, wider)
  {
    hide Base, Exponent, Multiplicity, Divides;
    forall k | 0 <= k < |flat| / 2 ensures Entry(n, flat, k, wider) { assert Entry(n, flat, k, bound); }
  }

  // -------------------------------------------------------------- the program

  /** `divideWhileDivisible`: returns the exponent and leaves the cofactor. */
  method DivideWhileDivisible(number: int, factor: int) returns (rest: int, primeFactorCount: nat)
    requires number >= 1 && factor >= 2
    ensures rest == Strip(number, factor) && primeFactorCount == Multiplicity(number, factor)
  {
    rest, primeFactorCount := number, 0;
    while rest % factor == 0
      invariant rest >= 1
      invariant Strip(rest, factor) == Strip(number, factor)
      invariant primeFactorCount + Multiplicity(rest, factor) == Multiplicity(number, factor)
      decreases rest
    {
      QuotientShrinks(factor, rest);
      rest := rest / factor;
      primeFactorCount := primeFactorCount + 1;
    }
  }

  /** `logPrimeFactor`. */
  method LogPrimeFactor(number: int, primeFactor: int, primeFactors: seq<int>) returns (rest: int, logged: seq<int>)
    requires number >= 1 && primeFactor >= 2
    ensures rest == Strip(number, primeFactor)
    ensures logged == primeFactors + [primeFactor, Multiplicity(number, primeFactor)]
  {
    var count;
    rest, count := DivideWhileDivisible(number, primeFactor);
    logged := primeFactors + [primeFactor] + [count];
    assert logged == primeFactors + [primeFactor, count];
  }

  /** The loop has dealt with every prime below `factor`: they are listed, the
      rest of the number contains exactly the others. */
  ghost predicate Sieved(n: int, rest: int, flat: seq<int>, factor: int)
    requires n >= 1
  {
    && 1 <= rest <= n
    && PrefixFactorization(n, flat, factor)
    && (forall p :: Prime(p) ==> Multiplicity(rest, p) == if p < factor then 0 else Multiplicity(n, p))
  }

  /** `Multiplicity` is positive exactly for divisors. */
  lemma DividesIffCounted(n: int, p: int)
    requires n >= 1 && p >= 2
    ensures Divides(p, n) <==> Multiplicity(n, p) > 0
  {
  }

  lemma SmallPrimeGone(n: int, rest: int, flat: seq<int>, factor: int, p: int)
    requires n >= 1 && Sieved(n, rest, flat, factor) && Prime(p) && p < factor
    ensures !Divides(p, rest)
  {
    assert Multiplicity(rest, p) == 0;
  }

  /** A divisor of what is left that the loop meets is prime, so the
      `isPrime(factor)` test never rejects one. */
  lemma MetDivisorIsPrime(n: int, rest: int, flat: seq<int>, factor: int)
    requires n >= 1 && factor >= 2 && Sieved(n, rest, flat, factor) && Divides(factor, rest)
    ensures Prime(factor) && Divides(factor, n)
  {
    forall d | 2 <= d < factor ensures !Divides(d, factor) {
      if Divides(d, factor) {
        var p := PrimeDivisor(d);
        SmallPrimeGone(n, rest, flat, factor, p);
        DividesTrans(p, d, factor);
        DividesTrans(p, factor, rest);
      }
    }
    DividesIffCounted(rest, factor);
    DividesIffCounted(n, factor);
  }

  /** One division step. */
  lemma SieveStep(n: int, rest: int, flat: seq<int>, factor: int, next: int)
    requires n >= 1 && factor >= 2 && Sieved(n, rest, flat, factor) && Divides(factor, rest)
    requires factor < next && forall q :: Prime(q) ==> !(factor < q < next)
    ensures Prime(factor)
    ensures Multiplicity(n, factor) == Multiplicity(rest, factor)
    ensures Sieved(n, Strip(rest, factor), flat + [factor, Multiplicity(rest, factor)], next)
  {
    MetDivisorIsPrime(n, rest, flat, factor);
    assert Multiplicity(rest, factor) == Multiplicity(n, factor);
    Extend(n, flat, factor, next);
    StripPower(rest, factor);
    forall p | Prime(p)
      ensures Multiplicity(Strip(rest, factor), p) == if p < next then 0 else Multiplicity(n, p)
    {
      StripMultiplicity(rest, factor, p);
    }
  }

  /** One step past a number that does not divide what is left. */
  lemma SieveSkip(n: int, rest: int, flat: seq<int>, factor: int, next: int)
    requires n >= 1 && factor >= 2 && Sieved(n, rest, flat, factor) && !Divides(factor, rest)
    requires factor < next && forall q :: Prime(q) ==> !(factor < q < next)
    ensures Sieved(n, rest, flat, next)
  {
    forall q | Prime(q) && factor <= q < next ensures !Divides(q, n) && Multiplicity(rest, q) == 0 {
      assert q == factor;
      assert Multiplicity(rest, q) == Multiplicity(n, q);
    }
    Widen(n, flat, factor, next);
  }

  /** What is left when the factor has passed its square root is 1 or a prime,
      and listing that prime completes the factorization. */
  lemma SieveEnd(n: int, rest: int, flat: seq<int>, factor: int)
    requires n >= 1 && factor >= 2 && Sieved(n, rest, flat, factor) && factor * factor > rest
    ensures rest == 1 ==> IsFactorization(n, flat)
    ensures rest > 1 ==> Prime(rest) && IsFactorization(n, flat + [rest, 1])
  {
    if rest == 1 {
      forall q | Prime(q) && factor <= q ensures !Divides(q, n) {
        DividesIffCounted(n, q);
        assert Multiplicity(rest, q) == Multiplicity(n, q);
      }
      if factor <= n + 1 { Widen(n, flat, factor, n + 1); } else { Narrow(n, flat, factor); }
    } else {
      forall d | 2 <= d < factor && d < rest ensures !Divides(d, rest) {
        if Divides(d, rest) {
          var p := PrimeDivisor(d);
          SmallPrimeGone(n, rest, flat, factor, p);
          DividesTrans(p, d, rest);
        }
      }
      NoSmallDivisor(rest, factor);
      MultipleMod(rest, 1);
      assert Divides(rest, rest);
      assert rest >= factor by { assert Multiplicity(rest, rest) > 0; }
      OnlyItself(rest, rest);
      assert Multiplicity(n, rest) == 1;
      forall q | Prime(q) && factor <= q && q != rest ensures !Divides(q, n) {
        DividesIffCounted(n, q);
        OnlyItself(rest, q);
        assert Multiplicity(rest, q) == Multiplicity(n, q);
      }
      Widen(n, flat, factor, rest);
      Extend(n, flat, rest, n + 1);
    }
  }

  lemma OnlyItself(p: int, q: int)
    requires Prime(p) && Prime(q)
    ensures Multiplicity(p, q) == if p == q then 1 else 0
  {
    if p == q {
      MultipleMod(p, 1);
      assert p / p == 1;
      assert !Divides(p, 1) by { SmallMod(1, p); }
    } else if Divides(q, p) {
      PrimesApart(q, p);
    }
  }

  lemma Narrow(n: int, flat: seq<int>, bound: int)
    requires n >= 1 && PrefixFactorization(n, flat, bound) && n + 1 <= bound
    ensures IsFactorization(n, flat)
  {
    hide Base, Exponent, Multiplicity;
    var whole := n + 1;
    forall k | 0 <= k < |flat| / 2 ensures Entry(n, flat, k, whole) {
      assert Entry(n, flat, k, bound);
      DivisorBound(Base(flat, k), n);
    }
  }

  // --------------------------------------------------------------- overflow

  /** Two primes, or one twice, each at least 46339 squared, divide the number:
      only then does the loop ask `isPrime` about a factor too large for it. */
  ghost predicate TwoHugePrimes(n: int)
    requires n >= 1
  {
    exists q, q' :: HugePair(n, q, q')
  }

  ghost predicate HugePair(n: int, q: int, q': int)
    requires n >= 1
  {
    && Prime(q) && Prime(q') && LAST_FACTOR * LAST_FACTOR <= q <= q'
    && Divides(q, n) && Divides(q', n) && (q == q' ==> Multiplicity(n, q) >= 2)
  }

  /** Every odd prime of `n` below `bound` passed through `isPrime` without
      overflow. */
  ghost predicate TestedBelow(n: int, bound: int)
    requires n >= 1
  {
    forall q :: Prime(q) && 3 <= q < bound && Divides(q, n) ==> !SquareOverflows(q)
  }

  lemma TestedNext(n: int, factor: int)
    requires n >= 1 && factor >= 3 && factor % 2 == 1 && TestedBelow(n, factor)
    requires Prime(factor) && Divides(factor, n) ==> !SquareOverflows(factor)
    ensures TestedBelow(n, factor + 2)
  {
    assert Divides(2, factor + 1);
  }

  lemma HugePrimeOverflows(q: int)
    requires Prime(q) && q >= LAST_FACTOR * LAST_FACTOR
    ensures SquareOverflows(q)
  {
    assert !Divides(2, q);
  }

  /** When the loop meets a factor whose test overflows there are two huge primes. */
  lemma OverflowMeansTwo(n: int, rest: int, flat: seq<int>, factor: int)
    requires n >= 1 && factor >= 2 && Sieved(n, rest, flat, factor) && Divides(factor, rest)
    requires factor * factor <= rest && SquareOverflows(factor)
    ensures TwoHugePrimes(n)
  {
    MetDivisorIsPrime(n, rest, flat, factor);
    DivisorBound(factor, rest);
    var k := rest / factor;
    if k < factor { StrictlyMore(factor, k, factor); }
    var q := PrimeDivisor(k);
    DividesMultiple(q, k, factor);
    DividesIffCounted(rest, q);
    assert Multiplicity(rest, q) > 0;
    assert q >= factor;
    DividesIffCounted(n, q);
    if q == factor { DividesIffCounted(k, q); }
    assert Multiplicity(n, factor) == Multiplicity(rest, factor);
    assert HugePair(n, factor, q);
  }

  /** When the loop has ended without an overflow there were not. */
  lemma NoOverflowMeansNone(n: int, rest: int, flat: seq<int>, factor: int)
    requires n >= 1 && factor >= 2 && Sieved(n, rest, flat, factor) && factor * factor > rest
    requires TestedBelow(n, factor)
    ensures !TwoHugePrimes(n)
  {
    if q, q' :| HugePair(n, q, q') {
      HugePrimeOverflows(q);
      assert q >= factor;
      DividesIffCounted(rest, q);
      DividesIffCounted(n, q);
      DividesIffCounted(rest, q');
      DividesIffCounted(n, q');
      assert Multiplicity(rest, q) == Multiplicity(n, q) && Multiplicity(rest, q') == Multiplicity(n, q');
      PairBelow(rest, q, q');
      SquareBound(q, q, factor);
    }
  }

  lemma PairBelow(rest: int, q: int, q': int)
    requires rest >= 1 && Prime(q) && Prime(q') && q <= q' && Divides(q, rest) && Divides(q', rest)
    requires q == q' ==> Multiplicity(rest, q) >= 2
    ensures q * q <= rest
  {
    PairCofactor(rest, q, q');
    hide Multiplicity, Prime, Divides;
    var k := rest / q;
    DivisorBound(q, rest);
    DivisorBound(q', k);
    SquareBound(q, k, q);
  }

  lemma PairCofactor(rest: int, q: int, q': int)
    requires rest >= 1 && Prime(q) && Prime(q') && Divides(q, rest) && Divides(q', rest)
    requires q == q' ==> Multiplicity(rest, q) >= 2
    ensures rest / q >= 1 && Divides(q', rest / q)
  {
    QuotientShrinks(q, rest);
    if q == q' {
      DividesIffCounted(rest / q, q);
    } else {
      OtherDivides(rest, q, q');
    }
  }

  /** One turn of the loop over odd factors. */
  method TryFactor(number: int, factor: int, rest: int, factors: seq<int>, ghost flat: seq<int>)
    returns (found: Outcome<nat>, left: int, logged: seq<int>, ghost entry: seq<int>)
    requires 1 <= rest <= number && factor >= 3 && factor % 2 == 1 && factor * factor <= rest
    requires Sieved(number, rest, flat, factor)
    ensures found.IntOverflow? ==> TwoHugePrimes(number)
    ensures found.Done? ==>
              && 1 <= left <= rest && Sieved(number, left, flat + entry, factor + 2)
              && logged == factors + entry && |entry| == 2 * found.value
              && !(Prime(factor) && Divides(factor, number) && SquareOverflows(factor))
  {
    hide PrefixFactorization, Sieved, Multiplicity, Strip, TwoHugePrimes, SquareOverflows, Prime, Divides;
    NoPrimeBetween(factor);
    DivisibleDivides(factor, rest);
    found, left, logged, entry := Done(0), rest, factors, [];
    assert flat + [] == flat;
    if rest % factor == 0 {
      MetDivisorIsPrime(number, rest, flat, factor);
      var prime := IsPrime(factor);
      if prime.IntOverflow? {
        OverflowMeansTwo(number, rest, flat, factor);
        return IntOverflow, rest, factors, [];
      }
      SieveStep(number, rest, flat, factor, factor + 2);
      StripPower(rest, factor);
      // The test holds for every divisor that is met.
      if prime.value {
        entry := [factor, Multiplicity(rest, factor)];
        left, logged := LogPrimeFactor(rest, factor, factors);
        found := Done(1);
      }
    } else {
      SkippedDoesNotDivide(number, rest, flat, factor);
      SieveSkip(number, rest, flat, factor, factor + 2);
    }
  }

  /** `processNumber`. For every number above one the appended pairs are its
      prime factorization and the returned count is the number of pairs; other
      numbers append nothing. The only inputs on which the `int` inside
      `isPrime` overflows are those with two huge primes. */
  method ProcessNumber(number: int, primeFactors: seq<int>) returns (r: Outcome<nat>, factors: seq<int>)
    ensures number <= 1 ==> r == Done(0) && factors == primeFactors
    ensures number > 1 ==> (r.IntOverflow? <==> TwoHugePrimes(number))
    ensures number > 1 && r.Done? ==>
              exists flat :: factors == primeFactors + flat && r.value == |flat| / 2 && IsFactorization(number, flat)
  {
    hide PrefixFactorization, Sieved, Multiplicity, Strip, TwoHugePrimes, SquareOverflows, Prime, Divides, TestedBelow;
    factors := primeFactors;
    if number <= 1 { return Done(0), factors; }
    var rest, primeFactorsCount := number, 0;
    ghost var flat: seq<int> := [];
    NoPrimeBelowTwo(number);
    DivisibleDivides(2, rest);
    if rest % 2 == 0 {
      SieveStep(number, rest, flat, 2, 3);
      StripPower(rest, 2);
      flat := flat + [2, Multiplicity(rest, 2)];
      rest, factors := LogPrimeFactor(rest, 2, factors);
      primeFactorsCount := primeFactorsCount + 1;
    } else {
      SieveSkip(number, rest, flat, 2, 3);
    }
    var factor := 3;
    while factor * factor <= rest
      invariant 3 <= factor && factor % 2 == 1 && 1 <= rest <= number
      invariant Sieved(number, rest, flat, factor)
      invariant factors == primeFactors + flat && |flat| == 2 * primeFactorsCount
      invariant TestedBelow(number, factor)
      decreases number - factor
    {
      MulAtLeast(factor, factor);
      var found;
      ghost var entry;
      found, rest, factors, entry := TryFactor(number, factor, rest, factors, flat);
      if found.IntOverflow? { return IntOverflow, factors; }
      assert primeFactors + (flat + entry) == (primeFactors + flat) + entry;
      flat := flat + entry;
      primeFactorsCount := primeFactorsCount + found.value;
      TestedNext(number, factor);
      factor := factor + 2;
    }
    NoOverflowMeansNone(number, rest, flat, factor);
    SieveEnd(number, rest, flat, factor);
    if rest > 1 {
      flat := flat + [rest, 1];
      factors := factors + [rest] + [1];
      assert factors == primeFactors + flat;
      primeFactorsCount := primeFactorsCount + 1;
    }
    r := Done(primeFactorsCount);
  }

  lemma DivisibleDivides(d: int, n: int)
    requires d > 0
    ensures Divides(d, n) <==> n % d == 0
  {
  }

  lemma NoPrimeBelowTwo(n: int)
    requires n > 1
    ensures Sieved(n, n, [], 2) && TestedBelow(n, 3)
  {
  }

  lemma NoPrimeBetween(factor: int)
    requires factor >= 3 && factor % 2 == 1
    ensures forall q :: Prime(q) ==> !(factor < q < factor + 2)
  {
    assert Divides(2, factor + 1);
  }

  lemma SkippedDoesNotDivide(n: int, rest: int, flat: seq<int>, factor: int)
    requires n >= 1 && factor >= 2 && Sieved(n, rest, flat, factor) && !Divides(factor, rest)
    ensures Prime(factor) ==> !Divides(factor, n)
  {
    if Prime(factor) {
      assert Multiplicity(rest, factor) == Multiplicity(n, factor);
      DividesIffCounted(n, factor);
    }
  }

  // ------------------------------------------------- what the list determines

  /** A factorization multiplies back to the number. */
  lemma {:induction false} ProductIsNumber(n: int, flat: seq<int>)
    requires n >= 1 && IsFactorization(n, flat)
    ensures |flat| % 2 == 0 && Product(flat) == n
    decreases |flat|
  {
    if flat == [] {
      if n > 1 {
        var p := PrimeDivisor(n);
        NotEmpty(n, flat, p);
      }
    } else {
      TailFactorization(n, flat);
      ProductIsNumber(Strip(n, flat[0]), flat[2..]);
      StripPower(n, flat[0]);
      hide IsFactorization, Strip, Multiplicity, Pow, Prime;
      assert Strip(n, flat[0]) * Pow(flat[0], flat[1]) == Pow(flat[0], flat[1]) * Strip(n, flat[0]);
    }
  }

  /** Removing the first pair leaves the factorization of the stripped number. */
  lemma TailFactorization(n: int, flat: seq<int>)
    requires n >= 1 && IsFactorization(n, flat) && flat != []
    ensures |flat| >= 2 && Prime(flat[0]) && flat[1] == Multiplicity(n, flat[0])
    ensures IsFactorization(Strip(n, flat[0]), flat[2..])
  {
    FirstPair(n, flat);
    TailPairs(flat);
    var m, rest := Strip(n, flat[0]), flat[2..];
    hide Base, Exponent, Multiplicity, Strip, Divides, Listed, Entry;
    var bound := m + 1;
    forall k | 0 <= k < |rest| / 2 ensures Entry(m, rest, k, bound) { TailEntry(n, flat, k); }
    forall q | Prime(q) && q < m + 1 && Divides(q, m) ensures Listed(rest, q) { TailMember(n, flat, q); }
  }

  lemma FirstPair(n: int, flat: seq<int>)
    requires n >= 1 && IsFactorization(n, flat) && flat != []
    ensures |flat| >= 2 && |flat| % 2 == 0 && Base(flat, 0) == flat[0] && Exponent(flat, 0) == flat[1]
    ensures Prime(flat[0]) && flat[1] == Multiplicity(n, flat[0])
  {
    hide Multiplicity, Divides;
    assert Entry(n, flat, 0, n + 1);
  }

  /** The pairs behind the first. */
  lemma TailPairs(flat: seq<int>)
    requires |flat| >= 2 && |flat| % 2 == 0
    ensures |flat[2..]| % 2 == 0 && |flat[2..]| / 2 == |flat| / 2 - 1
    ensures forall k :: 0 <= k < |flat| / 2 - 1 ==>
              Base(flat[2..], k) == Base(flat, k + 1) && Exponent(flat[2..], k) == Exponent(flat, k + 1)
  {
  }

  lemma TailEntry(n: int, flat: seq<int>, k: int)
    requires n >= 1 && IsFactorization(n, flat) && flat != [] && Prime(flat[0])
    requires |flat| >= 2 && 0 <= k < |flat[2..]| / 2
    ensures var m := Strip(n, flat[0]); Entry(m, flat[2..], k, m + 1)
  {
    FirstPair(n, flat);
    TailPairs(flat);
    hide Base, Exponent, Multiplicity, Strip, Divides, Listed;
    assert Entry(n, flat, k + 1, n + 1);
    assert Base(flat, 0) < Base(flat, k + 1);
    StrippedDivisor(n, flat[0], Base(flat, k + 1));
  }

  lemma StrippedDivisor(n: int, p: int, q: int)
    requires n >= 1 && Prime(p) && Prime(q) && p != q
    ensures Multiplicity(Strip(n, p), q) == Multiplicity(n, q) && (Divides(q, n) <==> Divides(q, Strip(n, p)))
    ensures Divides(q, n) ==> q <= Strip(n, p)
  {
    StripMultiplicity(n, p, q);
    hide Multiplicity, Strip;
    DividesIffCounted(n, q);
    DividesIffCounted(Strip(n, p), q);
    if Divides(q, n) { DivisorBound(q, Strip(n, p)); }
  }

  lemma TailMember(n: int, flat: seq<int>, q: int)
    requires n >= 1 && IsFactorization(n, flat) && flat != [] && Prime(q)
    requires Prime(flat[0]) && Divides(q, Strip(n, flat[0]))
    ensures Listed(flat[2..], q)
  {
    StrippedIsOther(n, flat[0], q);
    StrippedDivisor(n, flat[0], q);
    DivisorBound(q, n);
    FirstPair(n, flat);
    TailPairs(flat);
    hide Base, Exponent, Multiplicity, Strip, Divides;
    assert Listed(flat, q);
    var k :| 0 <= k < |flat| / 2 && Base(flat, k) == q;
    assert k != 0;
    assert Base(flat[2..], k - 1) == q;
  }

  lemma StrippedIsOther(n: int, p: int, q: int)
    requires n >= 1 && Prime(p) && Prime(q) && Divides(q, Strip(n, p))
    ensures p != q
  {
    StripMultiplicity(n, p, q);
    hide Strip;
    DividesIffCounted(Strip(n, p), q);
  }

  /** The factorization is unique: nothing but these pairs could be the answer. */
  lemma {:induction false} FactorizationUnique(n: int, a: seq<int>, b: seq<int>)
    requires n >= 1 && IsFactorization(n, a) && IsFactorization(n, b)
    ensures a == b
    decreases |a|
  {
    if a == [] {
      EmptyUnique(n, b);
    } else {
      FirstPair(n, a);
      ListedInOther(n, a, b);
      FirstPair(n, b);
      ListedInOther(n, b, a);
      hide Base, Exponent, Multiplicity, Strip, Divides, Listed, IsFactorization;
      FirstIsLeast(n, a, b[0]);
      FirstIsLeast(n, b, a[0]);
      TailFactorization(n, a);
      TailFactorization(n, b);
      FactorizationUnique(Strip(n, a[0]), a[2..], b[2..]);
      assert a == [a[0], a[1]] + a[2..] && b == [b[0], b[1]] + b[2..];
    }
  }

  lemma ListedInOther(n: int, a: seq<int>, b: seq<int>)
    requires n >= 1 && IsFactorization(n, a) && IsFactorization(n, b) && a != []
    ensures Listed(b, a[0]) && b != []
  {
    FirstPair(n, a);
    hide Base, Exponent, Multiplicity, Divides;
    assert Entry(n, a, 0, n + 1);
    assert Listed(b, a[0]);
  }

  lemma EmptyUnique(n: int, b: seq<int>)
    requires n >= 1 && IsFactorization(n, []) && IsFactorization(n, b)
    ensures b == []
  {
    if b != [] { ListedInOther(n, b, []); }
  }

  lemma NotEmpty(n: int, flat: seq<int>, p: int)
    requires n >= 1 && IsFactorization(n, flat) && Prime(p) && p <= n && Divides(p, n)
    ensures flat != []
  {
    assert Listed(flat, p);
  }

  lemma FirstIsLeast(n: int, flat: seq<int>, p: int)
    requires n >= 1 && IsFactorization(n, flat) && Listed(flat, p)
    ensures flat != [] && flat[0] <= p
  {
    FirstPair(n, flat);
    hide Exponent, Multiplicity, Divides;
    var k :| 0 <= k < |flat| / 2 && Base(flat, k) == p;
    if k > 0 { assert Base(flat, 0) < Base(flat, k); }
  }
}
