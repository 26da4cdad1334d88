/** `buildResult` of the two applications: reading a flat result slot back into
    the sums or factors that it lists. */
module Answers {
  import opened CalcData
  import opened Primes
  import opened WireCodec
  import Factors = PrimeFactorization
  import Sums = Goldbach

  /** The groups of `m` values from the front. */
  ghost predicate Groups(result: seq<int>, m: nat, groups: seq<seq<int>>) {
    && |result| == m * |groups|
    && forall k :: 0 <= k < |groups| ==> Group(result, m, k, groups[k])
  }

  ghost predicate Group(result: seq<int>, m: nat, k: nat, group: seq<int>) {
    m * k + m <= |result| && group == result[m * k..m * k + m]
  }

  /** Grouping undoes flattening. */
  lemma {:induction false} FlatGroups(m: nat, sums: seq<seq<int>>)
    requires forall k :: 0 <= k < |sums| ==> |sums[k]| == m
    ensures Groups(Sums.Flatten(sums), m, sums)
  {
    if sums != [] {
      var n := |sums| - 1;
      var front, flat := Sums.Flatten(sums[..n]), Sums.Flatten(sums);
      FlatGroups(m, sums[..n]);
      NextMultiple(m, n);
      assert flat == front + sums[n];
      forall k | 0 <= k < |sums| ensures Group(flat, m, k, sums[k]) {
        if k < n {
          assert Group(front, m, k, sums[..n][k]);
          assert flat[m * k..m * k + m] == front[m * k..m * k + m];
        } else {
          assert flat[m * n..m * n + m] == sums[n];
        }
      }
    }
  }

  lemma NextMultiple(m: nat, n: nat)
    ensures m * (n + 1) == m * n + m
  {
  }

  lemma GroupsUnique(result: seq<int>, m: nat, a: seq<seq<int>>, b: seq<seq<int>>)
    requires m > 0 && Groups(result, m, a) && Groups(result, m, b)
    ensures a == b
  {
    SameQuotient(m, |a|, |b|);
    forall k | 0 <= k < |a| ensures a[k] == b[k] {
      assert Group(result, m, k, a[k]) && Group(result, m, k, b[k]);
    }
  }

  lemma SameQuotient(m: nat, a: nat, b: nat)
    requires m > 0 && m * a == m * b
    ensures a == b
  {
  }

  /** `sumsResponse`. The bound `result.size() - sumOperands` is unsigned, so the
      slot has to hold a sum. */
  method SumsResponse(sumOperands: nat, result: seq<int>, ghost sums: nat) returns (groups: seq<seq<int>>)
    requires sumOperands > 0 && |result| >= sumOperands && |result| == sumOperands * sums
    ensures Groups(result, sumOperands, groups)
  {
    groups := [];
    var sumIndex := 0;
    while sumIndex <= |result| - sumOperands
      invariant sumIndex == sumOperands * |groups| && sumIndex <= |result|
      invariant forall k :: 0 <= k < |groups| ==> Group(result, sumOperands, k, groups[k])
      decreases |result| - sumIndex
    {
      var sum: seq<int> := [];
      for operandIndex := sumIndex to sumOperands + sumIndex
        invariant sum == result[sumIndex..operandIndex]
      {
        sum := sum + [result[operandIndex]];
      }
      NextMultiple(sumOperands, |groups|);
      assert Group(result, sumOperands, |groups|, sum);
      groups := groups + [sum];
      sumIndex := sumIndex + sumOperands;
    }
    WholeGroups(sumOperands, |groups|, sums);
  }

  lemma WholeGroups(m: nat, n: nat, total: nat)
    requires m > 0 && m * n <= m * total < m * n + m
    ensures n == total
  {
    NextMultiple(m, n);
    if n + 1 < total { StrictlyMore(m, n + 1, total); }
    if total < n { StrictlyMore(m, total, n); }
  }

  /** `GoldbachData::buildResult` on a filled slot: the number of sums, and for a
      negative query the sums themselves, grouped as they were found. */
  method BuildSums(value: int, result: seq<int>, ghost sums: seq<seq<int>>)
    returns (sumsCount: int, groups: seq<seq<int>>)
    requires SumsOf(value, sums) && result == GoldbachSlot(value, [], Sums.Flatten(sums))
    ensures sumsCount == |sums|
    ensures groups == if value < 0 then sums else []
    ensures forall k :: 0 <= k < |groups| ==> |groups[k]| == if value % 2 == 0 then 2 else 3
  {
    Sums.OperandsByParity(value);
    hide Sums.Solution, Sums.LexSorted, Groups;
    var n := Sums.Abs(value);
    var sumOperands := Sums.SumOperands(n);
    assert [] + Sums.Flatten(sums) == Sums.Flatten(sums);
    SumLengths(n, sumOperands, sums);
    FlatGroups(sumOperands, sums);
    Sums.EnumeratedLength(n, sumOperands, sums);
    sumsCount := |result| / sumOperands;
    if value >= 0 { sumsCount := result[0]; }
    groups := [];
    if value < 0 && sumsCount > 0 {
      GroupsLength(result, sumOperands, sums);
      groups := SumsResponse(sumOperands, result, |sums|);
      GroupsUnique(result, sumOperands, groups, sums);
    }
  }

  lemma SumLengths(n: int, m: int, sums: seq<seq<int>>)
    requires Sums.Enumerates(n, m, sums)
    ensures forall k :: 0 <= k < |sums| ==> |sums[k]| == m
  {
    forall k | 0 <= k < |sums| ensures |sums[k]| == m { assert Sums.Solution(n, m, sums[k]); }
  }

  lemma GroupsLength(result: seq<int>, m: nat, groups: seq<seq<int>>)
    requires Groups(result, m, groups)
    ensures |result| == m * |groups| && (groups != [] ==> |result| >= m)
  {
    if groups != [] { assert Group(result, m, 0, groups[0]); }
  }

  /** `PrimeFactData::buildResult`: no pair means an invalid number. */
  datatype Printed = Invalid | Product(pairs: seq<(int, int)>)

  /** For a filled slot the pairs are those of the factorization, and "invalid"
      is printed exactly for the numbers below two. */
  method BuildFactors(value: int, result: seq<int>) returns (printed: Printed)
    requires Factored(value, result)
    ensures printed.Invalid? <==> value <= 1
    ensures printed.Product? ==> |result| == 2 * |printed.pairs|
    ensures printed.Product? ==>
              forall k :: 0 <= k < |printed.pairs| ==> printed.pairs[k] == (result[2 * k], result[2 * k + 1])
  {
    var primeFactorsCount := |result| / 2;
    SomeFactor(value, result);
    if primeFactorsCount == 0 { return Invalid; }
    var pairs: seq<(int, int)> := [];
    var factIndex := 0;
    while factIndex < primeFactorsCount * 2
      invariant factIndex == 2 * |pairs| && factIndex <= primeFactorsCount * 2
      invariant forall k :: 0 <= k < |pairs| ==> pairs[k] == (result[2 * k], result[2 * k + 1])
    {
      pairs := pairs + [(result[factIndex], result[factIndex + 1])];
      factIndex := factIndex + 2;
    }
    printed := Product(pairs);
  }

  lemma SomeFactor(value: int, result: seq<int>)
    requires Factored(value, result)
    ensures |result| % 2 == 0 && (result == [] <==> value <= 1)
  {
    if value > 1 { Factors.ProductIsNumber(value, result); }
  }
}
