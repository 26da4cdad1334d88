/** What the calculators put in a slot fits in the 64-bit integers of the source:
    no response is ever refused by its reader. */
module Ranges {
  import opened Decimal
  import opened Primes
  import opened WireCodec
  import opened CalcData
  import Factors = PrimeFactorization
  import Sums = Goldbach

  // ------------------------------------------------------------ factorization

  lemma {:induction false} MultiplicityBelow(n: int, p: int)
    requires n >= 1 && p >= 2
    ensures Factors.Multiplicity(n, p) < n
    decreases n
  {
    if Divides(p, n) {
      Factors.QuotientShrinks(p, n);
      MultiplicityBelow(n / p, p);
    }
  }

  /** Bases and exponents are at most the number. */
  lemma FactorsFit(query: int, flat: seq<int>)
    requires query > 1 && Int64(query) && Factors.IsFactorization(query, flat)
    ensures AllInt64(flat)
  {
    hide Factors.Multiplicity, Prime, Divides, Factors.Listed;
    forall k | 0 <= k < |flat| ensures Int64(flat[k]) {
      var pair := k / 2;
      assert Factors.Entry(query, flat, pair, query + 1);
      EntryFits(query, flat, pair);
      assert k == 2 * pair || k == 2 * pair + 1;
    }
  }

  lemma EntryFits(query: int, flat: seq<int>, pair: int)
    requires query > 1 && Int64(query) && 0 <= pair < |flat| / 2 && Factors.Entry(query, flat, pair, query + 1)
    ensures Int64(flat[2 * pair]) && Int64(flat[2 * pair + 1])
  {
    MultiplicityBelow(query, Factors.Base(flat, pair));
  }

  // ----------------------------------------------------------------- the sums

  /** Every operand is less than the number. */
  lemma OperandsFit(n: int, m: int, t: seq<int>)
    requires n <= TWO_63 && (m == 2 || m == 3) && Sums.Solution(n, m, t)
    ensures AllInt64(t)
  {
    if m == 2 { Sums.PairShape(n, t); } else { Sums.TripleShape(n, t); }
  }

  lemma {:induction false} FlatFits(sums: seq<seq<int>>)
    requires forall k :: 0 <= k < |sums| ==> AllInt64(sums[k])
    ensures AllInt64(Sums.Flatten(sums))
  {
    if sums != [] { FlatFits(sums[..|sums| - 1]); }
  }

  // ---------------------------------------------------------------- the count

  /** A list whose codes climb from zero is no longer than its last code. */
  lemma {:induction false} Climbs(sums: seq<seq<int>>, code: seq<int> -> int, k: nat)
    requires k < |sums| && code(sums[0]) >= 0
    requires forall i :: 0 < i < |sums| ==> code(sums[i - 1]) < code(sums[i])
    ensures code(sums[k]) >= k
  {
    if k > 0 { Climbs(sums, code, k - 1); }
  }

  function First(t: seq<int>): int { if t == [] then 0 else t[0] }

  lemma PairsClimb(n: int, a: seq<int>, b: seq<int>)
    requires Sums.Solution(n, 2, a) && Sums.Solution(n, 2, b) && Sums.LexLess(a, b)
    ensures First(a) < First(b)
  {
    Sums.PairShape(n, a);
    Sums.PairShape(n, b);
  }

  lemma PairCount(n: int, sums: seq<seq<int>>)
    requires n < TWO_63 && Sums.Enumerates(n, 2, sums)
    ensures |sums| < TWO_63
  {
    if sums != [] {
      hide Sums.Solution, Sums.LexLess;
      forall i | 0 < i < |sums| ensures First(sums[i - 1]) < First(sums[i]) { PairsClimb(n, sums[i - 1], sums[i]); }
      Sums.PairShape(n, sums[0]);
      Climbs(sums, First, |sums| - 1);
      Sums.PairShape(n, sums[|sums| - 1]);
    }
  }

  /** The first two operands determine a triple; the second is at most half. */
  function TripleCode(half: int, t: seq<int>): int { if |t| < 2 then 0 else t[0] * (half + 1) + t[1] }

  lemma TriplesClimb(n: int, a: seq<int>, b: seq<int>)
    requires Sums.Solution(n, 3, a) && Sums.Solution(n, 3, b) && Sums.LexLess(a, b)
    ensures TripleCode(n / 2, a) < TripleCode(n / 2, b)
  {
    Sums.TripleShape(n, a);
    Sums.TripleShape(n, b);
    var base := n / 2 + 1;
    if a[0] < b[0] {
      MulAtLeast(base, b[0] - a[0]);
      assert base * (b[0] - a[0]) == b[0] * base - a[0] * base;
    }
  }

  lemma ProductBound(a: int, b: int, c: int, d: int)
    requires 0 <= a <= c && 0 <= b <= d
    ensures 0 <= a * b <= c * d
  {
    assert a * b >= 0;
    assert (c - a) * b >= 0 && c * (d - b) >= 0;
  }

  lemma CodeBound(n: int, t: seq<int>)
    requires n / 3 < INT_MAX && Sums.Solution(n, 3, t)
    ensures 0 <= TripleCode(n / 2, t) < TWO_63 - 1
  {
    Sums.TripleShape(n, t);
    hide Sums.Solution;
    ProductBound(t[0], n / 2 + 1, INT_MAX, 0xc000_0000);
  }

  lemma TripleCount(n: int, sums: seq<seq<int>>)
    requires n / 3 < INT_MAX && Sums.Enumerates(n, 3, sums)
    ensures |sums| < TWO_63
  {
    if sums != [] {
      hide Sums.Solution, Sums.LexLess, TripleCode;
      var code := t => TripleCode(n / 2, t);
      forall i | 0 < i < |sums| ensures code(sums[i - 1]) < code(sums[i]) { TriplesClimb(n, sums[i - 1], sums[i]); }
      CodeBound(n, sums[0]);
      Climbs(sums, code, |sums| - 1);
      CodeBound(n, sums[|sums| - 1]);
    }
  }

  lemma SumsFit(query: int, sums: seq<seq<int>>)
    requires Int64(query) && !Sums.Overflows(query) && SumsOf(query, sums)
    ensures AllInt64(GoldbachSlot(query, [], Sums.Flatten(sums)))
  {
    var n, m := Sums.Abs(query), Sums.SumOperands(Sums.Abs(query));
    assert [] + Sums.Flatten(sums) == Sums.Flatten(sums);
    if query >= 0 {
      Sums.EnumeratedLength(n, m, sums);
      if m == 2 { PairCount(n, sums); } else { TripleCount(n, sums); }
    } else {
      forall k | 0 <= k < |sums| ensures AllInt64(sums[k]) { OperandsFit(n, m, sums[k]); }
      FlatFits(sums);
    }
  }

  /** Every value that a calculator writes into an empty slot for a 64-bit query is a
      64-bit integer, unless `isPrime` or the outer counter overflows on the way. */
  lemma FilledFits(app: nat, query: int, values: seq<int>)
    requires Calculates(app) && Int64(query) && !QueryOverflows(app, query) && Filled(app, query, [], values)
    ensures AllInt64(values)
  {
    if app == FACT {
      var flat :| values == [] + flat && Factored(query, flat);
      if query > 1 { FactorsFit(query, flat); }
    } else {
      var sums :| SumsOf(query, sums) && values == GoldbachSlot(query, [], Sums.Flatten(sums));
      SumsFit(query, sums);
    }
  }
}
