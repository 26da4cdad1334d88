/** `GoldbachCalculator`: the loops over candidate primes enumerate exactly the
    ordered prime pairs (triples) that add up to the number. */
module Goldbach {
  import opened Primes

  // ------------------------------------------------------- what is enumerated

  ghost function Total(t: seq<int>): int { if t == [] then 0 else t[0] + Total(t[1..]) }

  /** `m` primes in non-decreasing order whose sum is `n`. */
  ghost predicate Solution(n: int, m: int, t: seq<int>) {
    && |t| == m && Total(t) == n
    && (forall k :: 0 <= k < m ==> Prime(t[k]))
    && (forall k, l :: 0 <= k < l < m ==> t[k] <= t[l])
  }

  /** `a` is smaller than `b` at `k` and equal before. */
  ghost predicate LessAt(a: seq<int>, b: seq<int>, k: nat) {
    k < |a| && k < |b| && a[k] < b[k] && forall q :: 0 <= q < k ==> a[q] == b[q]
  }

  ghost predicate LexLess(a: seq<int>, b: seq<int>) {
    exists k: nat :: LessAt(a, b, k)
  }

  ghost predicate LexSorted(sums: seq<seq<int>>) {
    forall k, l :: 0 <= k < l < |sums| ==> LexLess(sums[k], sums[l])
  }

  /** All solutions, once each, in lexicographic order. */
  ghost predicate Enumerates(n: int, m: int, sums: seq<seq<int>>) {
    && (forall k :: 0 <= k < |sums| ==> Solution(n, m, sums[k]))
    && LexSorted(sums)
    && (forall t :: Solution(n, m, t) ==> t in sums)
  }

  function Flatten(sums: seq<seq<int>>): seq<int> {
    if sums == [] then [] else Flatten(sums[..|sums| - 1]) + sums[|sums| - 1]
  }

  // ----------------------------------------------- the part already enumerated

  /** The solution comes before those that start with `i, j`. */
  ghost predicate Before(t: seq<int>, i: int, j: int) {
    |t| >= 2 && (t[0] < i || (t[0] == i && t[1] < j))
  }

  ghost predicate Listing(n: int, m: int, sums: seq<seq<int>>, i: int, j: int) {
    && (forall k :: 0 <= k < |sums| ==> Solution(n, m, sums[k]) && Before(sums[k], i, j))
    && LexSorted(sums)
    && (forall t :: Solution(n, m, t) && Before(t, i, j) ==> t in sums)
  }

  /** Solutions that start at `i, j` or later but before `i', j'`. */
  ghost predicate Between(n: int, m: int, t: seq<int>, i: int, j: int, i': int, j': int) {
    Solution(n, m, t) && !Before(t, i, j) && Before(t, i', j')
  }

  ghost predicate NoneBetween(n: int, m: int, i: int, j: int, i': int, j': int) {
    forall t :: !Between(n, m, t, i, j, i', j')
  }

  ghost predicate OnlyBetween(n: int, m: int, s: seq<int>, i: int, j: int, i': int, j': int) {
    forall t :: Between(n, m, t, i, j, i', j') ==> t == s
  }

  ghost predicate Forward(i: int, j: int, i': int, j': int) { i < i' || (i == i' && j <= j') }

  lemma Advance(n: int, m: int, sums: seq<seq<int>>, i: int, j: int, i': int, j': int)
    requires Listing(n, m, sums, i, j) && Forward(i, j, i', j')
    requires NoneBetween(n, m, i, j, i', j')
    ensures Listing(n, m, sums, i', j')
  {
    forall t | Solution(n, m, t) && Before(t, i', j') ensures t in sums {
      assert !Between(n, m, t, i, j, i', j');
    }
  }

  lemma Append(n: int, m: int, sums: seq<seq<int>>, s: seq<int>, i: int, j: int, i': int, j': int)
    requires Listing(n, m, sums, i, j) && Forward(i, j, i', j') && Between(n, m, s, i, j, i', j')
    requires OnlyBetween(n, m, s, i, j, i', j')
    ensures Listing(n, m, sums + [s], i', j')
  {
    var longer := sums + [s];
    forall k, l | 0 <= k < l < |longer| ensures LexLess(longer[k], longer[l]) {
      if l == |sums| {
        var t := sums[k];
        assert Before(t, i, j);
        if t[0] == s[0] { assert LessAt(t, s, 1); } else { assert LessAt(t, s, 0); }
      }
    }
    forall t | Solution(n, m, t) && Before(t, i', j') ensures t in longer {
      if !Before(t, i, j) { assert Between(n, m, t, i, j, i', j'); }
    }
  }

  lemma FlattenPush(sums: seq<seq<int>>, s: seq<int>)
    ensures Flatten(sums + [s]) == Flatten(sums) + s
  {
    assert (sums + [s])[..|sums|] == sums;
  }

  lemma {:induction false} FlattenLength(n: int, m: int, sums: seq<seq<int>>)
    requires m > 0 && forall k :: 0 <= k < |sums| ==> Solution(n, m, sums[k])
    ensures |Flatten(sums)| == m * |sums| && |Flatten(sums)| / m == |sums|
  {
    if sums != [] {
      FlattenLength(n, m, sums[..|sums| - 1]);
      assert m * (|sums| - 1) + m == m * |sums|;
    }
    MultipleMod(m, |sums|);
  }

  lemma PairTotal(a: int, b: int)
    ensures Total([a, b]) == a + b
  {
    assert [b][1..] == [];
    assert Total([b]) == b;
    assert [a, b][1..] == [b];
  }

  lemma TripleTotal(a: int, b: int, c: int)
    ensures Total([a, b, c]) == a + b + c
  {
    assert [a, b, c][1..] == [b, c];
    PairTotal(b, c);
  }

  lemma PairShape(n: int, t: seq<int>)
    requires Solution(n, 2, t)
    ensures t == [t[0], n - t[0]] && 2 <= t[0] && 2 * t[0] <= n && t[1] == n - t[0]
  {
    assert t == [t[0], t[1]];
    PairTotal(t[0], t[1]);
  }

  lemma TripleShape(n: int, t: seq<int>)
    requires Solution(n, 3, t)
    ensures t == [t[0], t[1], n - t[0] - t[1]] && 2 <= t[0] <= t[1] && 3 * t[0] <= n && 2 * t[1] <= n - t[0]
  {
    assert t == [t[0], t[1], t[2]];
    TripleTotal(t[0], t[1], t[2]);
  }

  // ------------------------------------------------------ overflow conditions

  /** A candidate that the loops hand to `isPrime` overflows its counter. */
  ghost predicate PairOverflows(n: int, i: int) {
    SquareOverflows(i) || (Prime(i) && SquareOverflows(n - i))
  }

  ghost predicate StrongOverflows(n: int) {
    exists i :: 2 <= i <= n / 2 && PairOverflows(n, i)
  }

  ghost predicate RowOverflows(rest: int, i: int) {
    exists j :: i <= j <= rest / 2 && PairOverflows(rest, j)
  }

  ghost predicate TripleOverflows(n: int, i: int) {
    SquareOverflows(i) || (Prime(i) && RowOverflows(n - i, i))
  }

  /** Moreover the outer counter `i` is an `int`. */
  ghost predicate WeakOverflows(n: int) {
    n / 3 >= INT_MAX || exists i :: 2 <= i <= n / 3 && TripleOverflows(n, i)
  }

  /** Numbers below 46339 squared are safe. */
  lemma SmallSumsNeverOverflow(n: int)
    requires 0 <= n < LAST_FACTOR * LAST_FACTOR
    ensures !StrongOverflows(n) && !WeakOverflows(n)
  {
  }

  // -------------------------------------------------------------- the program

  /** Both operands of the candidate sum are prime. The second is examined only
      when the first is. */
  method BothPrime(n: int, i: int) returns (r: Outcome<bool>)
    ensures r.IntOverflow? <==> PairOverflows(n, i)
    ensures r.Done? ==> (r.value <==> Prime(i) && Prime(n - i))
  {
    r := IsPrime(i);
    if r.Done? && r.value { r := IsPrime(n - i); }
  }

  lemma StrongStep(n: int, i: int)
    requires 2 <= i <= n / 2
    ensures Prime(i) && Prime(n - i) ==> Between(n, 2, [i, n - i], i, 0, i + 1, 0)
    ensures OnlyBetween(n, 2, [i, n - i], i, 0, i + 1, 0)
    ensures !(Prime(i) && Prime(n - i)) ==> NoneBetween(n, 2, i, 0, i + 1, 0)
  {
    PairTotal(i, n - i);
    var next := i + 1;
    forall t | Between(n, 2, t, i, 0, next, 0) ensures t == [i, n - i] && Prime(i) && Prime(n - i) {
      PairShape(n, t);
    }
  }

  lemma StrongEnd(n: int, sums: seq<seq<int>>, i: int)
    requires Listing(n, 2, sums, i, 0) && i > n / 2
    ensures Enumerates(n, 2, sums)
  {
    forall t | Solution(n, 2, t) ensures t in sums { PairShape(n, t); }
  }

  /** `strongGoldbach`. */
  method StrongGoldbach(number: int, goldbachSums: seq<int>) returns (r: Outcome<bool>, out: seq<int>)
    ensures r.IntOverflow? <==> StrongOverflows(number)
    ensures r.Done? ==> exists sums :: Enumerates(number, 2, sums) && out == goldbachSums + Flatten(sums)
                                       && (r.value <==> sums != [])
  {
    hide Solution, SquareOverflows, Prime;
    out := goldbachSums;
    var found := false;
    ghost var sums: seq<seq<int>> := [];
    var i := 2;
    NothingBeforeTwo(number, 2);
    while i <= number / 2
      invariant i >= 2 && (found <==> sums != [])
      invariant Listing(number, 2, sums, i, 0) && out == goldbachSums + Flatten(sums)
      invariant forall k :: 2 <= k < i && k <= number / 2 ==> !PairOverflows(number, k)
    {
      var both := BothPrime(number, i);
      if both.IntOverflow? { return IntOverflow, out; }
      StrongStep(number, i);
      if both.value {
        Append(number, 2, sums, [i, number - i], i, 0, i + 1, 0);
        FlattenPush(sums, [i, number - i]);
        sums := sums + [[i, number - i]];
        out := out + [i, number - i];
        found := true;
      } else {
        Advance(number, 2, sums, i, 0, i + 1, 0);
      }
      i := i + 1;
    }
    StrongEnd(number, sums, i);
    r := Done(found);
  }

  lemma NothingBeforeTwo(n: int, m: int)
    requires m == 2 || m == 3
    ensures Listing(n, m, [], 2, 0)
  {
    forall t | Solution(n, m, t) ensures !Before(t, 2, 0) {
      assert Prime(t[0]) && Prime(t[1]);
    }
  }

  /** The `k < j` test of the inner loop never succeeds. */
  lemma NeverBelow(n: int, i: int, j: int)
    requires j <= (n - i) / 2
    ensures n - i - j >= j
  {
  }

  lemma WeakStep(n: int, i: int, j: int)
    requires 2 <= i <= j <= (n - i) / 2
    ensures Prime(i) && Prime(j) && Prime(n - i - j) ==> Between(n, 3, [i, j, n - i - j], i, j, i, j + 1)
    ensures OnlyBetween(n, 3, [i, j, n - i - j], i, j, i, j + 1)
    ensures !(Prime(i) && Prime(j) && Prime(n - i - j)) ==> NoneBetween(n, 3, i, j, i, j + 1)
  {
    TripleTotal(i, j, n - i - j);
    var next := j + 1;
    forall t | Between(n, 3, t, i, j, i, next)
      ensures t == [i, j, n - i - j] && Prime(i) && Prime(j) && Prime(n - i - j)
    {
      TripleShape(n, t);
      assert t[0] == i && t[1] == j && t[2] == n - i - j;
      assert Prime(t[0]) && Prime(t[1]) && Prime(t[2]);
    }
  }

  /** No solution starts with `i` and a smaller second operand. */
  lemma WeakStart(n: int, sums: seq<seq<int>>, i: int)
    requires Listing(n, 3, sums, i, 0) && i >= 2
    ensures Listing(n, 3, sums, i, i)
  {
    forall t ensures !Between(n, 3, t, i, 0, i, i) {
      if Solution(n, 3, t) { TripleShape(n, t); }
    }
    Advance(n, 3, sums, i, 0, i, i);
  }

  /** No further solution starts with `i`: its second operand would exceed half
      of the rest, or `i` itself is not prime. */
  lemma WeakNext(n: int, sums: seq<seq<int>>, i: int, j: int)
    requires i >= 2 && Listing(n, 3, sums, i, j) && (j > (n - i) / 2 || !Prime(i))
    ensures Listing(n, 3, sums, i + 1, 0)
  {
    var next := i + 1;
    forall t ensures !Between(n, 3, t, i, j, next, 0) {
      if Solution(n, 3, t) { TripleShape(n, t); }
    }
    Advance(n, 3, sums, i, j, i + 1, 0);
  }

  lemma WeakEnd(n: int, sums: seq<seq<int>>, i: int)
    requires Listing(n, 3, sums, i, 0) && i > n / 3
    ensures Enumerates(n, 3, sums)
  {
    forall t | Solution(n, 3, t) ensures t in sums { TripleShape(n, t); }
  }

  /** The inner loop of `weakGoldbach`: every pair that completes the prime `i`. */
  method CompletePrime(number: int, i: int, goldbachSums: seq<int>, ghost sums: seq<seq<int>>)
    returns (r: Outcome<bool>, out: seq<int>, ghost longer: seq<seq<int>>)
    requires i >= 2 && Prime(i) && Listing(number, 3, sums, i, i)
    ensures r.IntOverflow? <==> RowOverflows(number - i, i)
    ensures r.Done? ==> Listing(number, 3, longer, i + 1, 0)
    ensures r.Done? ==> exists more :: longer == sums + more && out == goldbachSums + Flatten(more)
                                       && (r.value <==> more != [])
  {
    hide Solution, SquareOverflows, Prime;
    out := goldbachSums;
    longer := sums;
    var found := false;
    ghost var more: seq<seq<int>> := [];
    ghost var rest := number - i;
    var j := i;
    while j <= (number - i) / 2
      invariant j >= i && (found <==> more != [])
      invariant Listing(number, 3, longer, i, j)
      invariant longer == sums + more && out == goldbachSums + Flatten(more)
      invariant forall k :: i <= k < j && k <= rest / 2 ==> !PairOverflows(rest, k)
      decreases number - j
    {
      WeakStep(number, i, j);
      var k := number - i - j;
      NeverBelow(number, i, j);
      if k < j { assert false; }
      var both := BothPrime(number - i, j);
      if both.IntOverflow? { return IntOverflow, out, longer; }
      if both.value {
        Append(number, 3, longer, [i, j, k], i, j, i, j + 1);
        FlattenPush(more, [i, j, k]);
        assert longer + [[i, j, k]] == sums + (more + [[i, j, k]]);
        more := more + [[i, j, k]];
        longer := longer + [[i, j, k]];
        out := out + [i, j, k];
        found := true;
      } else {
        Advance(number, 3, longer, i, j, i, j + 1);
      }
      j := j + 1;
    }
    WeakNext(number, longer, i, j);
    r := Done(found);
  }

  lemma {:induction false} FlattenConcat(a: seq<seq<int>>, b: seq<seq<int>>)
    ensures Flatten(a + b) == Flatten(a) + Flatten(b)
    decreases |b|
  {
    if b == [] {
      assert a + b == a;
    } else {
      var c, s := b[..|b| - 1], b[|b| - 1];
      assert a + b == (a + c) + [s] && b == c + [s];
      FlattenPush(a + c, s);
      FlattenPush(c, s);
      FlattenConcat(a, c);
    }
  }

  /** One round of the outer loop of `weakGoldbach`. */
  method Round(number: int, i: int, goldbachSums: seq<int>, ghost sums: seq<seq<int>>)
    returns (r: Outcome<bool>, out: seq<int>, ghost longer: seq<seq<int>>)
    requires i >= 2 && Listing(number, 3, sums, i, 0)
    ensures r.IntOverflow? <==> TripleOverflows(number, i)
    ensures r.Done? ==> Listing(number, 3, longer, i + 1, 0)
    ensures r.Done? ==> exists more :: longer == sums + more && out == goldbachSums + Flatten(more)
                                       && (r.value <==> more != [])
  {
    hide Solution, SquareOverflows, Prime;
    out, longer := goldbachSums, sums;
    r := IsPrime(i);
    if r.IntOverflow? { return; }
    if !r.value {
      WeakNext(number, sums, i, 0);
      assert longer == sums + [] && out == goldbachSums + Flatten([]);
      return;
    }
    WeakStart(number, sums, i);
    r, out, longer := CompletePrime(number, i, goldbachSums, sums);
  }

  /** `weakGoldbach`. */
  method WeakGoldbach(number: int, goldbachSums: seq<int>) returns (r: Outcome<bool>, out: seq<int>)
    ensures r.IntOverflow? <==> WeakOverflows(number)
    ensures r.Done? ==> exists sums :: Enumerates(number, 3, sums) && out == goldbachSums + Flatten(sums)
                                       && (r.value <==> sums != [])
  {
    hide Solution, TripleOverflows, Listing, Enumerates;
    out := goldbachSums;
    var found := false;
    ghost var sums: seq<seq<int>> := [];
    var i := 2;
    NothingBeforeTwo(number, 3);
    while i <= number / 3
      invariant 2 <= i <= INT_MAX && (found <==> sums != [])
      invariant Listing(number, 3, sums, i, 0) && out == goldbachSums + Flatten(sums)
      invariant forall k :: 2 <= k < i && k <= number / 3 ==> !TripleOverflows(number, k)
      decreases number / 3 - i
    {
      var round;
      ghost var longer;
      round, out, longer := Round(number, i, out, sums);
      if round.IntOverflow? || i == INT_MAX { return IntOverflow, out; }
      ghost var more :| longer == sums + more && out == goldbachSums + Flatten(sums) + Flatten(more)
                        && (round.value <==> more != []);
      FlattenConcat(sums, more);
      sums := longer;
      found := found || round.value;
      i := i + 1;
    }
    WeakEnd(number, sums, i);
    r := Done(found);
  }

  function Abs(n: int): int { if n < 0 then -n else n }

  function SumOperands(n: int): nat { if n % 2 == 0 then 2 else 3 }

  ghost predicate Overflows(number: int) {
    var n := Abs(number);
    if n % 2 == 0 then StrongOverflows(n) else WeakOverflows(n)
  }

  /** `processNumber`: appends the flattened enumeration for |number|, in pairs
      for even and in triples for odd numbers. The count is taken from the whole
      vector: it is the number of sums when the vector was empty. */
  method ProcessNumber(number: int, goldbachSums: seq<int>) returns (r: Outcome<nat>, out: seq<int>)
    ensures r.IntOverflow? <==> Overflows(number)
    ensures r.Done? ==> exists sums :: Enumerates(Abs(number), SumOperands(Abs(number)), sums)
                                       && out == goldbachSums + Flatten(sums)
                                       && (goldbachSums == [] ==> r.value == |sums|)
    ensures r.Done? ==> exists sums ::
              && Enumerates(if number < 0 then -number else number, if number % 2 == 0 then 2 else 3, sums)
              && out == goldbachSums + Flatten(sums)
    ensures r.Done? ==> r.value == |out| / SumOperands(Abs(number)) == |out| / if number % 2 == 0 then 2 else 3
  {
    hide Enumerates, StrongOverflows, WeakOverflows;
    var n := Abs(number);
    var found, sumOperands;
    if n % 2 == 0 {
      found, out := StrongGoldbach(n, goldbachSums);
      sumOperands := 2;
    } else {
      found, out := WeakGoldbach(n, goldbachSums);
      sumOperands := 3;
    }
    if found.IntOverflow? { return IntOverflow, out; }
    ghost var sums :| Enumerates(n, sumOperands, sums) && out == goldbachSums + Flatten(sums);
    EnumeratedLength(n, sumOperands, sums);
    if goldbachSums == [] { assert out == Flatten(sums); }
    r := Done(|out| / sumOperands);
  }

  lemma EnumeratedLength(n: int, m: int, sums: seq<seq<int>>)
    requires m > 0 && Enumerates(n, m, sums)
    ensures |Flatten(sums)| / m == |sums|
  {
    FlattenLength(n, m, sums);
  }

  /** Two operands for an even number, three for an odd one, whatever its sign. */
  lemma OperandsByParity(number: int)
    ensures SumOperands(Abs(number)) == if number % 2 == 0 then 2 else 3
    ensures Abs(number) == if number < 0 then -number else number
  {
  }

  /** Inputs on which the program overflows: an even one that tries 46349 squared
      as the partner of 3, an odd one whose outer counter leaves `int`. */
  lemma GoldbachOverflowWitnesses()
    ensures (46349 * 46349 + 3) % 2 == 0 && Overflows(46349 * 46349 + 3)
    ensures (3 * INT_MAX) % 2 == 1 && Overflows(3 * INT_MAX)
  {
    hide SquareOverflows;
    var n := 46349 * 46349 + 3;
    OverflowWitness();
    assert !Divides(2, 3);
    assert Prime(3);
    assert PairOverflows(n, 3);
    assert StrongOverflows(n);
    assert WeakOverflows(3 * INT_MAX);
  }

  // ------------------------------------------------- what the list determines

  lemma LexStrict(a: seq<int>, b: seq<int>)
    requires LexLess(a, b)
    ensures a != b && !LexLess(b, a)
  {
    var k: nat :| LessAt(a, b, k);
    assert forall l: nat :: LessAt(b, a, l) ==> l < k || l == k || k < l;
  }

  /** Two sorted lists that agree below `k`: the `k`-th of one is not among the
      first `k` of the other. */
  lemma NotEarlier(a: seq<seq<int>>, b: seq<seq<int>>, k: nat, l: nat)
    requires LexSorted(a) && k < |a| && k <= |b| && l < |b| && b[l] == a[k]
    requires forall q :: 0 <= q < k ==> a[q] == b[q]
    ensures l >= k
  {
    if l < k { LexStrict(a[l], a[k]); }
  }

  lemma {:induction false} EnumerationPrefix(n: int, m: int, a: seq<seq<int>>, b: seq<seq<int>>, k: nat)
    requires Enumerates(n, m, a) && Enumerates(n, m, b) && k <= |a|
    ensures k <= |b| && forall q :: 0 <= q < k ==> a[q] == b[q]
    decreases k
  {
    hide Solution, LexLess;
    if k > 0 {
      var c := k - 1;
      EnumerationPrefix(n, m, a, b, c);
      assert a[c] in b;
      var l :| 0 <= l < |b| && b[l] == a[c];
      NotEarlier(a, b, c, l);
      assert b[c] in a;
      var q :| 0 <= q < |a| && a[q] == b[c];
      NotEarlier(b, a, c, q);
      if l > c && q > c {
        assert LexLess(b[c], b[l]) && LexLess(a[c], a[q]);
        LexStrict(b[c], b[l]);
      }
    }
  }

  /** The enumeration is unique: any other search that lists all solutions in
      this order, such as the brute-force nested loops, gives the same list. */
  lemma EnumerationUnique(n: int, m: int, a: seq<seq<int>>, b: seq<seq<int>>)
    requires Enumerates(n, m, a) && Enumerates(n, m, b)
    ensures a == b
  {
    EnumerationPrefix(n, m, a, b, |a|);
    EnumerationPrefix(n, m, b, a, |b|);
  }

  /** The count is the number of solutions. */
  lemma CountIsCardinality(n: int, m: int, sums: seq<seq<int>>, all: set<seq<int>>)
    requires Enumerates(n, m, sums) && forall t :: t in all <==> Solution(n, m, t)
    ensures |sums| == |all|
  {
    forall k, l | 0 <= k < l < |sums| ensures sums[k] != sums[l] {
      assert LexLess(sums[k], sums[l]);
      LexStrict(sums[k], sums[l]);
    }
    assert all == set t | t in sums;
    DistinctCount(sums);
  }

  lemma {:induction false} DistinctCount<T>(s: seq<T>)
    requires forall k, l :: 0 <= k < l < |s| ==> s[k] != s[l]
    ensures |set x | x in s| == |s|
  {
    if s != [] {
      var rest := s[..|s| - 1];
      DistinctCount(rest);
      assert (set x | x in s) == (set x | x in rest) + {s[|s| - 1]};
    }
  }
}
