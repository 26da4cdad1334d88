/** A 64-bit number on which the factorization overflows: the square of the prime
    17 * 2^27 + 1. Its primality is shown by the order of a residue: modulo every
    divisor above two the powers of `BASE` have a period of 2^27, so no divisor is
    small. */
module HugePrime {
  import opened Primes
  import opened PrimeFactorization

  const HUGE := 2281701377
  const BASE := 129140163
  /** Half the period, 2^26. */
  const HALF := 67108864

  /** `BASE` to the power `i` modulo `m`. */
  ghost function Power(m: int, i: nat): (r: int)
    requires m > 0
    ensures 0 <= r < m
  {
    if i == 0 then 1 % m else (Power(m, i - 1) * BASE) % m
  }

  // ------------------------------------------------------------ residues

  lemma ModUnique(m: int, x: int, q: int, r: int)
    requires m > 0 && x == m * q + r && 0 <= r < m
    ensures x % m == r
  {
    assert x == m * (x / m) + x % m;
    Unique(m, q, r, x / m, x % m);
  }

  /** Reducing a factor first changes nothing. */
  lemma ModTimes(m: int, x: int, y: int)
    requires m > 0
    ensures ((x % m) * y) % m == (x * y) % m
  {
    var q, r := x / m, x % m;
    assert x == m * q + r;
    var s, t := (r * y) / m, (r * y) % m;
    assert r * y == m * s + t;
    Spread(m, q, r, y);
    assert x * y == m * (q * y) + (m * s + t);
    Collect(m, q * y, s);
    ModUnique(m, x * y, q * y + s, t);
  }

  lemma Spread(m: int, q: int, r: int, y: int)
    ensures (m * q + r) * y == m * (q * y) + r * y
  {
  }

  lemma Collect(m: int, a: int, b: int)
    ensures m * a + m * b == m * (a + b)
  {
  }

  lemma {:induction false} PowerSum(m: int, i: nat, j: nat)
    requires m > 0
    ensures Power(m, i + j) == (Power(m, i) * Power(m, j)) % m
    decreases j
  {
    var a := Power(m, i);
    if j == 0 {
      ModTimes(m, 1, a);
      assert (a * (1 % m)) % m == (a * 1) % m by { assert a * (1 % m) == (1 % m) * a; }
      ModUnique(m, a, 0, a);
    } else {
      var b := Power(m, j - 1);
      PowerSum(m, i, j - 1);
      ModTimes(m, a * b, BASE);
      ModTimes(m, b * BASE, a);
      assert (a * b) * BASE == (b * BASE) * a by { TimesAssociates(a, b, BASE); }
      assert a * Power(m, j) == Power(m, j) * a;
    }
  }

  /** A residue modulo a multiple of `d` gives the residue modulo `d`. */
  lemma {:induction false} PowerOfDivisor(d: int, n: int, i: nat)
    requires d > 0 && n > 0 && Divides(d, n)
    ensures Power(d, i) == Power(n, i) % d
  {
    if i == 0 {
      ReduceTwice(d, n, 1);
    } else {
      PowerOfDivisor(d, n, i - 1);
      ModTimes(d, Power(n, i - 1), BASE);
      ReduceTwice(d, n, Power(n, i - 1) * BASE);
    }
  }

  lemma ReduceTwice(d: int, n: int, x: int)
    requires d > 0 && n > 0 && Divides(d, n)
    ensures (x % n) % d == x % d
  {
    var k := DividesWitness(d, n);
    var q, r := x / n, x % n;
    assert x == n * q + r;
    var s, t := r / d, r % d;
    assert r == d * s + t;
    assert n * q == d * (k * q) by { TimesAssociates(d, k, q); }
    Collect(d, k * q, s);
    ModUnique(d, x, k * q + s, t);
  }

  // ------------------------------------------------------ the power that is -1

  /** `BASE` squared 0, 1, 2, ... times, modulo `HUGE`. */
  const SQUARES: seq<int> := [
    129140163, 446737246, 1660948873, 1998745818, 1196108655, 1057547068, 1346120317,
    1783582410, 231852688, 637539285, 451618310, 2270548020, 1294996786, 1286750706,
    977546242, 799681555, 1780348903, 865646229, 1301610063, 1639385633, 123697435,
    216937880, 2023592065, 617790083, 483803410, 344250126, 2281701376
  ]

  lemma SquaresFollow(k: nat)
    requires k < 26
    ensures |SQUARES| == 27 && SQUARES[0] == BASE && SQUARES[26] == HUGE - 1
    ensures (SQUARES[k] * SQUARES[k]) % HUGE == SQUARES[k + 1]
  {
    assert 129140163 * 129140163 == HUGE * 7309099 + 446737246;
    assert 446737246 * 446737246 == HUGE * 87467259 + 1660948873;
    assert 1660948873 * 1660948873 == HUGE * 1209076343 + 1998745818;
    assert 1998745818 * 1998745818 == HUGE * 1750879797 + 1196108655;
    assert 1196108655 * 1196108655 == HUGE * 627021541 + 1057547068;
    assert 1057547068 * 1057547068 == HUGE * 490163091 + 1346120317;
    assert 1346120317 * 1346120317 == HUGE * 794161727 + 1783582410;
    assert 1783582410 * 1783582410 == HUGE * 1394207956 + 231852688;
    assert 231852688 * 231852688 == HUGE * 23559467 + 637539285;
    assert 637539285 * 637539285 == HUGE * 178137395 + 451618310;
    assert 451618310 * 451618310 == HUGE * 89389040 + 2270548020;
    assert 2270548020 * 2270548020 == HUGE * 2259449182 + 1294996786;
    assert 1294996786 * 1294996786 == HUGE * 734985170 + 1286750706;
    assert 1286750706 * 1286750706 == HUGE * 725654722 + 977546242;
    assert 977546242 * 977546242 == HUGE * 418808817 + 799681555;
    assert 799681555 * 799681555 == HUGE * 280269186 + 1780348903;
    assert 1780348903 * 1780348903 == HUGE * 1389157340 + 865646229;
    assert 865646229 * 865646229 == HUGE * 328414314 + 1301610063;
    assert 1301610063 * 1301610063 == HUGE * 742511168 + 1639385633;
    assert 1639385633 * 1639385633 == HUGE * 1177886502 + 123697435;
    assert 123697435 * 123697435 == HUGE * 6705985 + 216937880;
    assert 216937880 * 216937880 == HUGE * 20625855 + 2023592065;
    assert 2023592065 * 2023592065 == HUGE * 1794680446 + 617790083;
    assert 617790083 * 617790083 == HUGE * 167271927 + 483803410;
    assert 483803410 * 483803410 == HUGE * 102583862 + 344250126;
    assert 344250126 * 344250126 == HUGE * 51938500 + 2281701376;
  }

  function Two(k: nat): nat { if k == 0 then 1 else 2 * Two(k - 1) }

  lemma {:induction false} PowerOfTwo(k: nat)
    requires k <= 26
    ensures |SQUARES| == 27 && Power(HUGE, Two(k)) == SQUARES[k]
  {
    SquaresFollow(0);
    if k == 0 {
      assert Power(HUGE, 1) == (Power(HUGE, 0) * BASE) % HUGE;
    } else {
      PowerOfTwo(k - 1);
      SquaresFollow(k - 1);
      PowerSum(HUGE, Two(k - 1), Two(k - 1));
    }
  }

  lemma TwoIsHalf()
    ensures Two(26) == HALF
  {
    assert Two(8) == 256;
    assert Two(16) == 65536;
    assert Two(24) == 16777216;
  }

  /** Modulo any divisor the power `HALF` is -1. */
  lemma HalfPower(d: int)
    requires d > 0 && Divides(d, HUGE)
    ensures Power(d, HALF) == d - 1
  {
    hide Power, Divides, Two;
    HalfPowerOfHuge();
    PowerOfDivisor(d, HUGE, HALF);
    MinusOne(d);
  }

  lemma HalfPowerOfHuge()
    ensures Power(HUGE, HALF) == HUGE - 1
  {
    hide Power;
    PowerOfTwo(26);
    SquaresFollow(0);
    TwoIsHalf();
  }

  lemma MinusOne(d: int)
    requires d > 0 && Divides(d, HUGE)
    ensures (HUGE - 1) % d == d - 1
  {
    var k := DividesWitness(d, HUGE);
    assert HUGE - 1 == d * (k - 1) + (d - 1);
    ModUnique(d, HUGE - 1, k - 1, d - 1);
  }

  lemma WholePower(d: int)
    requires d > 1 && Divides(d, HUGE)
    ensures Power(d, 2 * HALF) == 1
  {
    HalfPower(d);
    PowerSum(d, HALF, HALF);
    assert (d - 1) * (d - 1) == d * (d - 2) + 1;
    ModUnique(d, (d - 1) * (d - 1), d - 2, 1);
  }

  // ---------------------------------------------------------------- the period

  lemma PowerRepeats(d: int, i: nat)
    requires d > 1 && Divides(d, HUGE)
    ensures Power(d, i + 2 * HALF) == Power(d, i)
  {
    PowerSum(d, i, 2 * HALF);
    WholePower(d);
    ModUnique(d, Power(d, i), 0, Power(d, i));
  }

  lemma DoubledUnit(d: int, e: nat)
    requires d > 1 && Power(d, e) == 1
    ensures Power(d, 2 * e) == 1
  {
    PowerSum(d, e, e);
    ModUnique(d, 1, 0, 1);
  }

  lemma Factors(h: nat, u: nat, c: nat)
    ensures h * (2 * u) == (2 * h) * u && 2 * (h * c) == (2 * h) * c
  {
  }

  lemma Remainder(g: nat, u: nat, c: nat)
    requires c >= 2 * u
    ensures g * c == g * (c - 2 * u) + 2 * (g * u) && g * (c - 2 * u) >= 0
  {
    assert g * (c - 2 * u) >= 0;
    assert g * (c - 2 * u) == g * c - g * (2 * u);
  }

  /** No smaller power is 1: doubling its exponent modulo the period would lead to
      the power `HALF`. The exponent is `h * c`, with `h` a power of two. */
  lemma {:induction false} NoSmallerPeriod(d: int, e: nat, h: nat, c: nat, t: nat)
    requires d > 2 && Divides(d, HUGE)
    requires h * Two(t) == HALF && e == h * c && 0 < c < 2 * Two(t)
    ensures Power(d, e) != 1
    decreases t
  {
    hide Power, Divides;
    HalfPower(d);
    if t > 0 && Power(d, e) == 1 {
      var u := Two(t - 1);
      DoubledUnit(d, e);
      Factors(h, u, c);
      if c < 2 * u {
        NoSmallerPeriod(d, 2 * e, 2 * h, c, t - 1);
      } else {
        Remainder(2 * h, u, c);
        var rest := 2 * e - 2 * HALF;
        PowerRepeats(d, rest);
        if c > 2 * u { NoSmallerPeriod(d, rest, 2 * h, c - 2 * u, t - 1); }
      }
    }
  }

  /** The first powers are all different: equal ones would give a smaller period. */
  lemma PowersDiffer(d: int, i: nat, j: nat)
    requires d > 2 && Divides(d, HUGE) && i < j < 2 * HALF
    ensures Power(d, i) != Power(d, j)
  {
    hide Power, Divides;
    if Power(d, i) == Power(d, j) {
      var back := 2 * HALF - i;
      PowerSum(d, i, back);
      PowerSum(d, j, back);
      WholePower(d);
      PowerRepeats(d, j - i);
      assert i + back == 2 * HALF && j + back == j - i + 2 * HALF;
      TwoIsHalf();
      NoSmallerPeriod(d, j - i, 1, j - i, 26);
    }
  }

  // -------------------------------------------------------------- pigeonhole

  ghost function Values(d: int, n: nat): (s: set<int>)
    requires d > 0
    ensures forall x :: x in s ==> 0 <= x < d
  {
    if n == 0 then {} else Values(d, n - 1) + {Power(d, n - 1)}
  }

  ghost predicate Taken(d: int, n: nat, x: int)
    requires d > 0
  {
    exists i: nat :: i < n && Power(d, i) == x
  }

  lemma {:induction false} ValuesTaken(d: int, n: nat, x: int)
    requires d > 0 && x in Values(d, n)
    ensures Taken(d, n, x)
  {
    hide Power;
    if x == Power(d, n - 1) {
      var i: nat := n - 1;
      assert i < n && Power(d, i) == x;
    } else {
      ValuesTaken(d, n - 1, x);
      var i: nat :| i < n - 1 && Power(d, i) == x;
      assert i < n && Power(d, i) == x;
    }
  }

  lemma {:induction false} ValuesCount(d: int, n: nat)
    requires d > 2 && Divides(d, HUGE) && n <= 2 * HALF
    ensures |Values(d, n)| == n
  {
    hide Power, Divides;
    if n > 0 {
      ValuesCount(d, n - 1);
      var x := Power(d, n - 1);
      if x in Values(d, n - 1) {
        ValuesTaken(d, n - 1, x);
        var i: nat :| i < n - 1 && Power(d, i) == x;
        PowersDiffer(d, i, n - 1);
      }
    }
  }

  lemma {:induction false} RangeCount(s: set<int>, d: nat)
    requires forall x :: x in s ==> 0 <= x < d
    ensures |s| <= d
  {
    if d == 0 {
      assert forall x: int :: x !in s;
      assert s == {};
    } else {
      RangeCount(s - {d - 1}, d - 1);
      assert |s| <= |s - {d - 1}| + 1;
    }
  }

  /** Every divisor above two is at least the period. */
  lemma DivisorsAreLarge(d: int)
    requires d > 2 && Divides(d, HUGE)
    ensures d >= 2 * HALF
  {
    hide Power, Divides;
    if d < 2 * HALF {
      ValuesCount(d, d + 1);
      RangeCount(Values(d, d + 1), d);
    }
  }

  /** `isPrime` overflows on this prime. */
  lemma HugeIsPrime()
    ensures Prime(HUGE) && SquareOverflows(HUGE)
  {
    forall d | 2 <= d < 2 * HALF && d < HUGE ensures !Divides(d, HUGE) {
      if d > 2 && Divides(d, HUGE) { DivisorsAreLarge(d); }
    }
    NoSmallDivisor(HUGE, 2 * HALF);
    HugePrimeOverflows(HUGE);
  }

  /** A 64-bit number on which `processNumber` overflows. */
  lemma FactorizationOverflowWitness()
    ensures HUGE * HUGE < 0x8000_0000_0000_0000 && TwoHugePrimes(HUGE * HUGE)
  {
    hide Prime;
    HugeIsPrime();
    MultipleMod(HUGE, HUGE);
    SquareCounts(HUGE);
    assert HugePair(HUGE * HUGE, HUGE, HUGE);
  }

  lemma SquareCounts(q: int)
    requires q >= 2
    ensures q * q >= 1 && Divides(q, q * q) && Multiplicity(q * q, q) >= 2
  {
    MulAtLeast(q, q);
    MultipleMod(q, q);
    MultipleMod(q, 1);
    assert (q * q) / q == q && Divides(q, q);
    assert Multiplicity(q, q) >= 1;
  }
}
