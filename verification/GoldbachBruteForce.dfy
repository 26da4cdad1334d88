/** The naive nested searches for Goldbach sums. `GoldbachCalculator` shrinks the
    bounds of the loops and computes the last operand; it finds the same list. */
module GoldbachBruteForce {
  import opened Primes
  import opened Goldbach

  /** The naive search: all pairs of numbers up to `n`, from `i, j` on. */
  ghost function BrutePairs(n: int, i: int, j: int): seq<seq<int>>
    decreases n - i, n - j
  {
    if i > n then []
    else if j > n then BrutePairs(n, i + 1, 2)
    else (if Solution(n, 2, [i, j]) then [[i, j]] else []) + BrutePairs(n, i, j + 1)
  }

  /** All triples of numbers up to `n`, from `i, j, k` on. */
  ghost function BruteTriples(n: int, i: int, j: int, k: int): seq<seq<int>>
    decreases n - i, n - j, n - k
  {
    if i > n then []
    else if j > n then BruteTriples(n, i + 1, 2, 2)
    else if k > n then BruteTriples(n, i, j + 1, 2)
    else (if Solution(n, 3, [i, j, k]) then [[i, j, k]] else []) + BruteTriples(n, i, j, k + 1)
  }

  /** The list holds exactly the solutions from `from` on, in order. */
  ghost predicate ListsFrom(n: int, m: int, from: seq<int>, sums: seq<seq<int>>) {
    && (forall q :: 0 <= q < |sums| ==> Solution(n, m, sums[q]) && AtLeast(sums[q], from))
    && LexSorted(sums)
    && (forall t :: Solution(n, m, t) && AtLeast(t, from) ==> t in sums)
  }

  ghost predicate AtLeast(t: seq<int>, from: seq<int>) { t == from || LexLess(from, t) }

  /** Moving on past operands that no solution has. */
  lemma ListsLater(n: int, m: int, from: seq<int>, later: seq<int>, sums: seq<seq<int>>)
    requires ListsFrom(n, m, later, sums)
    requires forall t :: Solution(n, m, t) ==> (AtLeast(t, from) <==> AtLeast(t, later))
    ensures ListsFrom(n, m, from, sums)
  {
    hide Solution, LexSorted, AtLeast;
  }

  /** Trying `from` itself and then the rest. */
  lemma ListsOne(n: int, m: int, from: seq<int>, later: seq<int>, sums: seq<seq<int>>)
    requires ListsFrom(n, m, later, sums)
    requires forall t :: Solution(n, m, t) ==> (AtLeast(t, from) <==> t == from || AtLeast(t, later))
    requires forall t :: Solution(n, m, t) && AtLeast(t, later) ==> LexLess(from, t)
    ensures ListsFrom(n, m, from, (if Solution(n, m, from) then [from] else []) + sums)
  {
    hide Solution, AtLeast, LexLess;
    var head := if Solution(n, m, from) then [from] else [];
    var longer := head + sums;
    forall q | 0 <= q < |longer| ensures Solution(n, m, longer[q]) && AtLeast(longer[q], from) {
      if q >= |head| { assert longer[q] == sums[q - |head|]; } else { SelfAtLeast(from); }
    }
    forall q, l | 0 <= q < l < |longer| ensures LexLess(longer[q], longer[l]) {
      assert longer[l] == sums[l - |head|];
      if q >= |head| { assert longer[q] == sums[q - |head|]; }
    }
    forall t | Solution(n, m, t) && AtLeast(t, from) ensures t in longer {
      if t != from { assert t in sums; } else { assert longer[0] == from; }
    }
  }

  lemma SelfAtLeast(t: seq<int>)
    ensures AtLeast(t, t)
  {
  }

  lemma PairAtLeast(t: seq<int>, i: int, j: int)
    requires |t| == 2
    ensures AtLeast(t, [i, j]) <==> i < t[0] || (i == t[0] && j <= t[1])
  {
    var from := [i, j];
    if i < t[0] { assert LessAt(from, t, 0); }
    if i == t[0] && j < t[1] { assert LessAt(from, t, 1); }
    if i == t[0] && j == t[1] { assert t == from; }
    if k: nat :| LessAt(from, t, k) { assert k == 0 || from[0] == t[0]; }
  }

  lemma TripleAtLeast(t: seq<int>, i: int, j: int, k: int)
    requires |t| == 3
    ensures AtLeast(t, [i, j, k]) <==> i < t[0] || (i == t[0] && (j < t[1] || (j == t[1] && k <= t[2])))
  {
    var from := [i, j, k];
    if i < t[0] { assert LessAt(from, t, 0); }
    if i == t[0] && j < t[1] { assert LessAt(from, t, 1); }
    if i == t[0] && j == t[1] && k < t[2] { assert LessAt(from, t, 2); }
    if i == t[0] && j == t[1] && k == t[2] { assert t == from; }
    if q: nat :| LessAt(from, t, q) {
      assert q == 0 || from[0] == t[0];
      assert q <= 1 || from[1] == t[1];
    }
  }

  lemma StrictlyLater(t: seq<int>, from: seq<int>)
    requires AtLeast(t, from) && t != from
    ensures LexLess(from, t)
  {
  }

  lemma {:induction false} BrutePairsList(n: int, i: int, j: int)
    requires i >= 2 && j >= 2
    ensures ListsFrom(n, 2, [i, j], BrutePairs(n, i, j))
    decreases n - i, n - j
  {
    hide ListsFrom, AtLeast, LexLess;
    if i > n {
      forall t | Solution(n, 2, t) ensures !AtLeast(t, [i, j]) {
        PairShape(n, t);
        PairAtLeast(t, i, j);
      }
      ListsNothing(n, 2, [i, j]);
    } else if j > n {
      BrutePairsList(n, i + 1, 2);
      forall t | Solution(n, 2, t) ensures AtLeast(t, [i, j]) <==> AtLeast(t, [i + 1, 2]) {
        PairShape(n, t);
        PairAtLeast(t, i, j);
        PairAtLeast(t, i + 1, 2);
      }
      ListsLater(n, 2, [i, j], [i + 1, 2], BrutePairs(n, i + 1, 2));
    } else {
      BrutePairsList(n, i, j + 1);
      forall t | Solution(n, 2, t)
        ensures AtLeast(t, [i, j]) <==> t == [i, j] || AtLeast(t, [i, j + 1])
        ensures AtLeast(t, [i, j + 1]) ==> LexLess([i, j], t)
      {
        PairAtLeast(t, i, j);
        PairAtLeast(t, i, j + 1);
        assert t == [t[0], t[1]];
        if AtLeast(t, [i, j + 1]) { StrictlyLater(t, [i, j]); }
      }
      ListsOne(n, 2, [i, j], [i, j + 1], BrutePairs(n, i, j + 1));
    }
  }

  lemma {:induction false} BruteTriplesList(n: int, i: int, j: int, k: int)
    requires i >= 2 && j >= 2 && k >= 2
    ensures ListsFrom(n, 3, [i, j, k], BruteTriples(n, i, j, k))
    decreases n - i, n - j, n - k
  {
    hide ListsFrom, AtLeast, LexLess;
    if i > n {
      forall t | Solution(n, 3, t) ensures !AtLeast(t, [i, j, k]) {
        TripleShape(n, t);
        TripleAtLeast(t, i, j, k);
      }
      ListsNothing(n, 3, [i, j, k]);
    } else if j > n {
      BruteTriplesList(n, i + 1, 2, 2);
      forall t | Solution(n, 3, t) ensures AtLeast(t, [i, j, k]) <==> AtLeast(t, [i + 1, 2, 2]) {
        TripleShape(n, t);
        TripleAtLeast(t, i, j, k);
        TripleAtLeast(t, i + 1, 2, 2);
      }
      ListsLater(n, 3, [i, j, k], [i + 1, 2, 2], BruteTriples(n, i + 1, 2, 2));
    } else if k > n {
      BruteTriplesList(n, i, j + 1, 2);
      forall t | Solution(n, 3, t) ensures AtLeast(t, [i, j, k]) <==> AtLeast(t, [i, j + 1, 2]) {
        TripleShape(n, t);
        TripleAtLeast(t, i, j, k);
        TripleAtLeast(t, i, j + 1, 2);
      }
      ListsLater(n, 3, [i, j, k], [i, j + 1, 2], BruteTriples(n, i, j + 1, 2));
    } else {
      BruteTriplesList(n, i, j, k + 1);
      forall t | Solution(n, 3, t)
        ensures AtLeast(t, [i, j, k]) <==> t == [i, j, k] || AtLeast(t, [i, j, k + 1])
        ensures AtLeast(t, [i, j, k + 1]) ==> LexLess([i, j, k], t)
      {
        TripleAtLeast(t, i, j, k);
        TripleAtLeast(t, i, j, k + 1);
        assert t == [t[0], t[1], t[2]];
        if AtLeast(t, [i, j, k + 1]) { StrictlyLater(t, [i, j, k]); }
      }
      ListsOne(n, 3, [i, j, k], [i, j, k + 1], BruteTriples(n, i, j, k + 1));
    }
  }

  lemma ListsNothing(n: int, m: int, from: seq<int>)
    requires forall t :: Solution(n, m, t) ==> !AtLeast(t, from)
    ensures ListsFrom(n, m, from, [])
  {
  }

  /** The searches of the program find what the naive search finds, in the same
      order, whatever list `sums` they were shown to produce. */
  lemma SearchIsBruteForce(n: int, sums: seq<seq<int>>)
    ensures Enumerates(n, 2, sums) <==> sums == BrutePairs(n, 2, 2)
    ensures Enumerates(n, 3, sums) <==> sums == BruteTriples(n, 2, 2, 2)
  {
    hide BrutePairs, BruteTriples;
    BrutePairsList(n, 2, 2);
    BruteTriplesList(n, 2, 2, 2);
    forall t | Solution(n, 2, t) ensures AtLeast(t, [2, 2]) {
      PairShape(n, t);
      assert Prime(t[1]);
      PairAtLeast(t, 2, 2);
    }
    forall t | Solution(n, 3, t) ensures AtLeast(t, [2, 2, 2]) {
      TripleShape(n, t);
      assert Prime(t[2]);
      TripleAtLeast(t, 2, 2, 2);
    }
    ListsAll(n, 2, [2, 2], BrutePairs(n, 2, 2));
    ListsAll(n, 3, [2, 2, 2], BruteTriples(n, 2, 2, 2));
    if Enumerates(n, 2, sums) { EnumerationUnique(n, 2, sums, BrutePairs(n, 2, 2)); }
    if Enumerates(n, 3, sums) { EnumerationUnique(n, 3, sums, BruteTriples(n, 2, 2, 2)); }
  }

  lemma ListsAll(n: int, m: int, from: seq<int>, sums: seq<seq<int>>)
    requires ListsFrom(n, m, from, sums) && forall t :: Solution(n, m, t) ==> AtLeast(t, from)
    ensures Enumerates(n, m, sums)
  {
    hide Solution, AtLeast, LexSorted;
  }
}
