/** `Util::calculateStart` and `calculateFinish` of the n-body simulation: which
    bodies each process loads or creates. */
module BlockDistribution {

  function Start(rank: int, work: int, workers: int): int
    requires workers > 0 && work >= 0
  {
    var added := if rank < work % workers then rank else work % workers;
    rank * (work / workers) + added
  }

  function Finish(rank: int, work: int, workers: int): int
    requires workers > 0 && work >= 0
  {
    Start(rank + 1, work, workers)
  }

  predicate Owns(rank: int, work: int, workers: int, index: int)
    requires workers > 0 && work >= 0
  {
    Start(rank, work, workers) <= index < Finish(rank, work, workers)
  }

  /** The size of a block: the first `work % workers` blocks have one more. */
  lemma BlockSize(rank: int, work: int, workers: int)
    requires workers > 0 && work >= 0
    ensures Finish(rank, work, workers) - Start(rank, work, workers)
         == work / workers + if rank < work % workers then 1 else 0
  {
    Distribute(rank, work / workers);
  }

  lemma Distribute(rank: int, size: int)
    ensures (rank + 1) * size == rank * size + size
  {
  }

  /** The blocks start at 0 and end at the amount of work. */
  lemma BlocksCover(work: int, workers: int)
    requires workers > 0 && work >= 0
    ensures Start(0, work, workers) == 0 && Start(workers, work, workers) == work
  {
    assert work == workers * (work / workers) + work % workers;
  }

  /** Any two blocks differ in size by at most one, the larger ones first. */
  lemma BlocksBalanced(rank: int, other: int, work: int, workers: int)
    requires workers > 0 && work >= 0 && rank < other
    ensures var a, b := Finish(rank, work, workers) - Start(rank, work, workers),
                        Finish(other, work, workers) - Start(other, work, workers);
            b <= a <= b + 1
  {
    BlockSize(rank, work, workers);
    BlockSize(other, work, workers);
  }

  /** Every process has a body exactly when there are as many bodies as processes. */
  lemma BlocksNonempty(work: int, workers: int)
    requires workers > 0 && work >= 0
    ensures (forall rank :: 0 <= rank < workers ==> Start(rank, work, workers) < Finish(rank, work, workers))
       <==> work >= workers
    ensures work < workers ==> Start(workers - 1, work, workers) == Finish(workers - 1, work, workers)
  {
    forall rank ensures Finish(rank, work, workers) - Start(rank, work, workers)
                     == work / workers + if rank < work % workers then 1 else 0 {
      BlockSize(rank, work, workers);
    }
    if work >= workers {
      AtLeastOne(work, workers);
    } else {
      assert work / workers == 0 && work % workers == work;
      assert Start(workers - 1, work, workers) == Finish(workers - 1, work, workers);
    }
  }

  lemma AtLeastOne(work: int, workers: int)
    requires work >= workers > 0
    ensures work / workers >= 1
  {
  }

  lemma {:induction false} StartsInOrder(rank: int, other: int, work: int, workers: int)
    requires workers > 0 && work >= 0 && rank <= other
    ensures Start(rank, work, workers) <= Start(other, work, workers)
    decreases other - rank
  {
    if rank < other {
      BlockSize(rank, work, workers);
      StartsInOrder(rank + 1, other, work, workers);
    }
  }

  /** Every body belongs to exactly one process. */
  lemma OneOwner(work: int, workers: int, index: int) returns (owner: int)
    requires workers > 0 && 0 <= index < work
    ensures 0 <= owner < workers
    ensures forall rank :: Owns(rank, work, workers, index) <==> rank == owner
  {
    hide Start;
    BlocksCover(work, workers);
    owner := 0;
    while Start(owner + 1, work, workers) <= index
      invariant 0 <= owner < workers && Start(owner, work, workers) <= index
      decreases workers - owner
    {
      if owner + 1 == workers { assert false; }
      owner := owner + 1;
    }
    forall rank ensures Owns(rank, work, workers, index) <==> rank == owner {
      if rank < owner { StartsInOrder(rank + 1, owner, work, workers); }
      if rank > owner { StartsInOrder(owner + 1, rank, work, workers); }
    }
  }

  lemma StartBounds(rank: int, work: int, workers: int)
    requires workers > 0 && work >= 0 && 0 <= rank <= workers
    ensures 0 <= Start(rank, work, workers) <= work
  {
    hide Start;
    BlocksCover(work, workers);
    StartsInOrder(0, rank, work, workers);
    StartsInOrder(rank, workers, work, workers);
  }
}
