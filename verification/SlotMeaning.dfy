/** What a filled slot says, in terms of primes and sums alone. */
module SlotMeaning {
  import opened Primes
  import opened CalcData
  import Wire = WireCodec
  import Factors = PrimeFactorization
  import Sums = Goldbach

  /** Two primes that add up to `n`, the smaller one first. */
  ghost predicate PrimePair(n: int, p: (int, int)) {
    Prime(p.0) && Prime(p.1) && p.0 <= p.1 && p.0 + p.1 == n
  }

  /** Three primes that add up to `n`, in order. */
  ghost predicate PrimeTriple(n: int, t: (int, int, int)) {
    Prime(t.0) && Prime(t.1) && Prime(t.2) && t.0 <= t.1 <= t.2 && t.0 + t.1 + t.2 == n
  }

  function AsPair(t: seq<int>): (int, int)
    requires |t| == 2
  {
    (t[0], t[1])
  }

  function AsTriple(t: seq<int>): (int, int, int)
    requires |t| == 3
  {
    (t[0], t[1], t[2])
  }

  lemma PairSolution(n: int, t: seq<int>)
    requires |t| == 2
    ensures Sums.Solution(n, 2, t) <==> PrimePair(n, AsPair(t))
  {
    Sums.PairTotal(t[0], t[1]);
    assert t == [t[0], t[1]];
  }

  lemma TripleSolution(n: int, t: seq<int>)
    requires |t| == 3
    ensures Sums.Solution(n, 3, t) <==> PrimeTriple(n, AsTriple(t))
  {
    Sums.TripleTotal(t[0], t[1], t[2]);
    assert t == [t[0], t[1], t[2]];
  }

  function Pairs(sums: seq<seq<int>>): (pairs: seq<(int, int)>)
    requires forall k :: 0 <= k < |sums| ==> |sums[k]| == 2
    ensures |pairs| == |sums| && forall k :: 0 <= k < |sums| ==> pairs[k] == AsPair(sums[k])
  {
    if sums == [] then [] else Pairs(sums[..|sums| - 1]) + [AsPair(sums[|sums| - 1])]
  }

  function Triples(sums: seq<seq<int>>): (triples: seq<(int, int, int)>)
    requires forall k :: 0 <= k < |sums| ==> |sums[k]| == 3
    ensures |triples| == |sums| && forall k :: 0 <= k < |sums| ==> triples[k] == AsTriple(sums[k])
  {
    if sums == [] then [] else Triples(sums[..|sums| - 1]) + [AsTriple(sums[|sums| - 1])]
  }

  lemma PairsApart(a: seq<int>, b: seq<int>)
    requires |a| == |b| == 2
    ensures AsPair(a) == AsPair(b) ==> a == b
  {
  }

  lemma TriplesApart(a: seq<int>, b: seq<int>)
    requires |a| == |b| == 3
    ensures AsTriple(a) == AsTriple(b) ==> a == b
  {
  }

  /** The entries of an enumeration are different solutions. */
  lemma Different(n: int, m: int, sums: seq<seq<int>>)
    requires Sums.Enumerates(n, m, sums)
    ensures forall k :: 0 <= k < |sums| ==> |sums[k]| == m
    ensures forall k, l :: 0 <= k < l < |sums| ==> sums[k] != sums[l]
  {
    forall k | 0 <= k < |sums| ensures |sums[k]| == m { assert Sums.Solution(n, m, sums[k]); }
    forall k, l | 0 <= k < l < |sums| ensures sums[k] != sums[l] {
      assert Sums.LexLess(sums[k], sums[l]);
      Sums.LexStrict(sums[k], sums[l]);
    }
  }

  lemma PairsCounted(n: int, sums: seq<seq<int>>, all: set<(int, int)>)
    requires Sums.Enumerates(n, 2, sums) && forall p :: p in all <==> PrimePair(n, p)
    ensures |sums| == |all|
  {
    Different(n, 2, sums);
    var pairs := Pairs(sums);
    hide Sums.Solution, Sums.LexSorted, PrimePair;
    forall p ensures p in pairs <==> p in all {
      if p in pairs {
        var k :| 0 <= k < |pairs| && pairs[k] == p;
        PairSolution(n, sums[k]);
      }
      if p in all {
        PairSolution(n, [p.0, p.1]);
        assert [p.0, p.1] in sums;
        var k :| 0 <= k < |sums| && sums[k] == [p.0, p.1];
        assert pairs[k] == p;
      }
    }
    forall k, l | 0 <= k < l < |pairs| ensures pairs[k] != pairs[l] {
      PairsApart(sums[k], sums[l]);
    }
    assert all == set p | p in pairs;
    Sums.DistinctCount(pairs);
  }

  lemma TriplesCounted(n: int, sums: seq<seq<int>>, all: set<(int, int, int)>)
    requires Sums.Enumerates(n, 3, sums) && forall t :: t in all <==> PrimeTriple(n, t)
    ensures |sums| == |all|
  {
    Different(n, 3, sums);
    var triples := Triples(sums);
    hide Sums.Solution, Sums.LexSorted, PrimeTriple;
    forall t ensures t in triples <==> t in all {
      if t in triples {
        var k :| 0 <= k < |triples| && triples[k] == t;
        TripleSolution(n, sums[k]);
      }
      if t in all {
        TripleSolution(n, [t.0, t.1, t.2]);
        assert [t.0, t.1, t.2] in sums;
        var k :| 0 <= k < |sums| && sums[k] == [t.0, t.1, t.2];
        assert triples[k] == t;
      }
    }
    forall k, l | 0 <= k < l < |triples| ensures triples[k] != triples[l] {
      TriplesApart(sums[k], sums[l]);
    }
    assert all == set t | t in triples;
    Sums.DistinctCount(triples);
  }

  /** The slot of a non-negative even query: one number, how many pairs of primes add up
      to the query. */
  lemma EvenSlot(query: int, slot: seq<int>, pairs: set<(int, int)>)
    requires query >= 0 && query % 2 == 0 && Filled(Wire.GOLDBACH, query, [], slot)
    requires forall p :: p in pairs <==> PrimePair(query, p)
    ensures slot == [|pairs|]
  {
    var sums :| SumsOf(query, sums) && slot == GoldbachSlot(query, [], Sums.Flatten(sums));
    Sums.OperandsByParity(query);
    Sums.EnumeratedLength(query, 2, sums);
    assert [] + Sums.Flatten(sums) == Sums.Flatten(sums);
    PairsCounted(query, sums, pairs);
  }

  /** Of a non-negative odd query: how many triples. */
  lemma OddSlot(query: int, slot: seq<int>, triples: set<(int, int, int)>)
    requires query >= 0 && query % 2 == 1 && Filled(Wire.GOLDBACH, query, [], slot)
    requires forall t :: t in triples <==> PrimeTriple(query, t)
    ensures slot == [|triples|]
  {
    var sums :| SumsOf(query, sums) && slot == GoldbachSlot(query, [], Sums.Flatten(sums));
    Sums.OperandsByParity(query);
    Sums.EnumeratedLength(query, 3, sums);
    assert [] + Sums.Flatten(sums) == Sums.Flatten(sums);
    TriplesCounted(query, sums, triples);
  }

  /** Of a negative query: the operands of these sums for its absolute value, sum by sum
      in lexicographic order. */
  lemma NegativeSlot(query: int, slot: seq<int>) returns (sums: seq<seq<int>>)
    requires query < 0 && Filled(Wire.GOLDBACH, query, [], slot)
    ensures slot == Sums.Flatten(sums) && Sums.Enumerates(-query, if query % 2 == 0 then 2 else 3, sums)
  {
    sums :| SumsOf(query, sums) && slot == GoldbachSlot(query, [], Sums.Flatten(sums));
    Sums.OperandsByParity(query);
    assert [] + Sums.Flatten(sums) == Sums.Flatten(sums);
  }

  /** The slot of a factorization query above one: primes in strictly increasing order,
      each followed by a positive exponent, whose product is the query. */
  lemma FactorSlot(query: int, slot: seq<int>)
    requires query > 1 && Filled(Wire.FACT, query, [], slot)
    ensures |slot| % 2 == 0 && Factors.Product(slot) == query
    ensures forall k :: 0 <= k < |slot| / 2 ==> Prime(slot[2 * k]) && slot[2 * k + 1] > 0
    ensures forall k, l :: 0 <= k < l < |slot| / 2 ==> slot[2 * k] < slot[2 * l]
  {
    hide Factors.PrefixFactorization, Factors.Product, Prime;
    var flat :| slot == [] + flat && Factored(query, flat);
    assert slot == flat;
    Factors.ProductIsNumber(query, flat);
    forall k | 0 <= k < |slot| / 2 ensures Prime(slot[2 * k]) && slot[2 * k + 1] > 0 { PairMeans(query, flat, k); }
    forall k, l | 0 <= k < l < |slot| / 2 ensures slot[2 * k] < slot[2 * l] { PairsClimb(query, flat, k, l); }
  }

  lemma PairMeans(query: int, flat: seq<int>, k: int)
    requires query > 1 && Factors.IsFactorization(query, flat) && 0 <= k < |flat| / 2
    ensures Prime(flat[2 * k]) && flat[2 * k + 1] > 0
  {
    hide Factors.Multiplicity, Divides, Prime, Factors.Listed, Factors.Entry, Factors.Base;
    assert Factors.Entry(query, flat, k, query + 1);
    EntryMeans(query, flat, k);
  }

  lemma PairsClimb(query: int, flat: seq<int>, k: int, l: int)
    requires query > 1 && Factors.IsFactorization(query, flat) && 0 <= k < l < |flat| / 2
    ensures flat[2 * k] < flat[2 * l]
  {
    hide Factors.Multiplicity, Divides, Prime, Factors.Listed, Factors.Entry;
    assert Factors.Base(flat, k) < Factors.Base(flat, l);
  }

  lemma EntryMeans(query: int, flat: seq<int>, k: int)
    requires query > 1 && 0 <= k < |flat| / 2 && Factors.Entry(query, flat, k, query + 1)
    ensures Prime(flat[2 * k]) && flat[2 * k + 1] > 0
  {
    Factors.DividesIffCounted(query, Factors.Base(flat, k));
  }

  /** Nothing is listed for the numbers below two. */
  lemma NoFactors(query: int, slot: seq<int>)
    requires query <= 1 && Filled(Wire.FACT, query, [], slot)
    ensures slot == []
  {
  }
}
