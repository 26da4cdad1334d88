/** Where the units are: every unit of every datum is at exactly one place, and
    its result slot is filled exactly when it has been computed. */
module MasterFlow {
  import opened Channels
  import opened WorkerLine
  import opened MasterLine
  import opened MasterChannels

  function Me(u: Unit): Unit { u }

  ghost function InWorkers(workers: seq<Worker>, u: Unit): nat {
    if workers == [] then 0 else Inside(workers[0], UnitOf, u) + InWorkers(workers[1..], u)
  }

  /** Places where unit `u` awaits its computation, or its result is still with
      a worker. A datum in the Decomposer's queue stands for all its units. */
  ghost function Waiting(s: State, u: Unit): nat {
    (if Known(s.queries, u) then Queued(s.decomposerQueue, Self, u.datum) else 0) +
    Tally(s.decomposer.hold, Me, u) + Queued(s.distributorQueue, Me, u) + Tally(s.distributor.hold, Me, u) +
    Queued(s.unitsQueue, Me, u) + InWorkers(s.workers, u)
  }

  /** Places behind the computation, up to and including the assembler. */
  ghost function Computed(s: State, u: Unit): nat {
    Held(s.calculators, Me, u) + Queued(s.assemblerQueue, Me, u) + Held(s.readers, Me, u) + Tally(s.consumed, Me, u)
  }

  ghost function Lost(s: State, u: Unit): nat { Tally(s.lost, Me, u) }

  /** Conservation: a unit of the tables is in one place, once; nothing else is
      anywhere. */
  ghost predicate FlowAt(s: State, u: Unit) {
    Waiting(s, u) + Computed(s, u) + Lost(s, u) == if Known(s.queries, u) then 1 else 0
  }

  ghost predicate Aligned(s: State) {
    && |s.slots| == |s.queries| && |s.pending| == |s.queries|
    && (forall d :: 0 <= d < |s.queries| ==> s.queries[d] != [] && |s.slots[d]| == |s.queries[d]|)
  }

  /** A slot holds the answer once its unit is computed, and nothing before. */
  ghost predicate SlotAt(c: Config, s: State, u: Unit)
    requires Aligned(s)
  {
    Known(s.queries, u) ==>
      s.slots[u.datum][u.index] == if Computed(s, u) > 0 then c.compute(AskedBy(s.queries, u)) else []
  }

  /** A frame asks the number its unit stands for. */
  ghost predicate Asks(queries: seq<Request>, j: Job) {
    Known(queries, j.unit) && j.query == AskedBy(queries, j.unit)
  }

  ghost predicate QueueAsks(queries: seq<Request>, q: seq<Token<Job>>) {
    forall i :: 0 <= i < |q| && q[i].Item? ==> Asks(queries, q[i].item)
  }

  ghost predicate HoldAsks(queries: seq<Request>, h: seq<Job>) {
    forall i :: 0 <= i < |h| ==> Asks(queries, h[i])
  }

  ghost predicate WorkerAsks(queries: seq<Request>, w: Worker) {
    && QueueAsks(queries, w.requestLink) && HoldAsks(queries, w.server.hold) && QueueAsks(queries, w.unitsQueue)
    && (forall i :: 0 <= i < |w.calculators| ==> HoldAsks(queries, w.calculators[i].hold))
    && QueueAsks(queries, w.repliesQueue) && HoldAsks(queries, w.client.hold) && QueueAsks(queries, w.responseLink)
  }

  /** Frames inside a worker ask the right number and carry the right answer. */
  ghost predicate FrameOk(c: Config, queries: seq<Request>, w: Worker) {
    WorkerAsks(queries, w) && Truthful(w, c.compute)
  }

  ghost predicate FramesInv(c: Config, queries: seq<Request>, workers: seq<Worker>) {
    forall w :: 0 <= w < |workers| ==> FrameOk(c, queries, workers[w])
  }

  /** Data in the Decomposer's queue are in the tables. */
  ghost predicate QueuedKnown(queue: seq<Token<nat>>, n: nat) {
    forall d: nat :: d >= n ==> Queued(queue, Self, d) == 0
  }

  ghost predicate FlowInv(c: Config, s: State) {
    && Aligned(s)
    && QueuedKnown(s.decomposerQueue, |s.queries|)
    && FramesInv(c, s.queries, s.workers)
    && (forall u :: FlowAt(s, u))
    && (forall u :: SlotAt(c, s, u))
  }

  // ---------------------------------------------------------- sums over workers

  lemma {:induction false} WorkersUpdate(workers: seq<Worker>, i: nat, w: Worker, u: Unit)
    requires i < |workers|
    ensures InWorkers(workers[i := w], u)
         == InWorkers(workers, u) - Inside(workers[i], UnitOf, u) + Inside(w, UnitOf, u)
  {
    hide Inside;
    if i == 0 {
      assert workers[i := w][1..] == workers[1..];
    } else {
      assert workers[i := w][1..] == workers[1..][i - 1 := w];
      WorkersUpdate(workers[1..], i - 1, w, u);
    }
  }

  lemma {:induction false} WorkersPush(workers: seq<Worker>, w: Worker, u: Unit)
    ensures InWorkers(workers + [w], u) == InWorkers(workers, u) + Inside(w, UnitOf, u)
  {
    hide Inside;
    if workers == [] {
      assert (workers + [w])[1..] == [];
    } else {
      assert (workers + [w])[1..] == workers[1..] + [w];
      WorkersPush(workers[1..], w, u);
    }
  }

  lemma {:induction false} TellSame(workers: seq<Worker>, pool: set<nat>, n: nat, u: Unit)
    requires n <= |workers|
    ensures InWorkers(TellWorkers(workers, pool)[..n], u) == InWorkers(workers[..n], u)
  {
    if n == 0 {
    } else {
      var told := TellWorkers(workers, pool);
      assert told[..n] == told[..n - 1] + [told[n - 1]] && workers[..n] == workers[..n - 1] + [workers[n - 1]];
      TellSame(workers, pool, n - 1, u);
      WorkersPush(told[..n - 1], told[n - 1], u);
      WorkersPush(workers[..n - 1], workers[n - 1], u);
      QueuedPush(workers[n - 1].requestLink, Stop, UnitOf, u);
    }
  }

  lemma NewWorkerEmpty(threads: nat, room: nat, u: Unit)
    ensures Inside(NewWorker(threads, room), UnitOf, u) == 0
  {
    FreshTeam<Job, Unit>(threads, UnitOf, u);
  }

  // ------------------------------------------------- units that die with a worker

  lemma {:induction false} QueueUnitsTally(q: seq<Token<Job>>, u: Unit)
    ensures Tally(QueueUnits(q), Me, u) == Queued(q, UnitOf, u)
  {
    if q != [] {
      QueueUnitsTally(q[1..], u);
      TallySmall(u, Me, u);
      if q[0].Item? {
        TallySmall(q[0].item.unit, Me, u);
        TallyConcat([q[0].item.unit], QueueUnits(q[1..]), Me, u);
      } else {
        assert QueueUnits(q) == QueueUnits(q[1..]);
      }
    }
  }

  lemma {:induction false} HoldUnitsTally(h: seq<Job>, u: Unit)
    ensures Tally(HoldUnits(h), Me, u) == Tally(h, UnitOf, u)
  {
    if h != [] {
      HoldUnitsTally(h[1..], u);
      TallySmall(h[0].unit, Me, u);
      TallyConcat([h[0].unit], HoldUnits(h[1..]), Me, u);
    }
  }

  lemma {:induction false} TeamUnitsTally(g: seq<Stage<Job>>, u: Unit)
    ensures Tally(TeamUnits(g), Me, u) == Held(g, UnitOf, u)
  {
    if g != [] {
      TeamUnitsTally(g[1..], u);
      HoldUnitsTally(g[0].hold, u);
      TallyConcat(HoldUnits(g[0].hold), TeamUnits(g[1..]), Me, u);
    }
  }

  lemma {:induction false} QueuedSplit(q: seq<Token<Job>>, k: nat, u: Unit)
    requires k <= |q|
    ensures Queued(q, UnitOf, u) == Queued(q[..k], UnitOf, u) + Queued(q[k..], UnitOf, u)
  {
    if k == 0 {
      assert q[..k] == [] && q[k..] == q;
    } else {
      assert q[..k][1..] == q[1..][..k - 1] && q[k..] == q[1..][k - 1..];
      QueuedSplit(q[1..], k - 1, u);
    }
  }

  /** What a death loses and what it leaves readable is what was inside. */
  lemma DeathSplits(w: Worker, kept: nat, u: Unit)
    requires kept <= |w.responseLink|
    ensures Inside(w, UnitOf, u) == Inside(Dead(w, kept), UnitOf, u) + Tally(LostUnits(w, kept), Me, u)
  {
    hide Queued, Held, Tally, QueueUnits, HoldUnits, TeamUnits;
    var a, b, d := QueueUnits(w.requestLink), HoldUnits(w.server.hold), QueueUnits(w.unitsQueue);
    var e, f, g := TeamUnits(w.calculators), QueueUnits(w.repliesQueue), HoldUnits(w.client.hold);
    var h := QueueUnits(w.responseLink[kept..]);
    TallyConcat(a + b + d + e + f + g, h, Me, u);
    TallyConcat(a + b + d + e + f, g, Me, u);
    TallyConcat(a + b + d + e, f, Me, u);
    TallyConcat(a + b + d, e, Me, u);
    TallyConcat(a + b, d, Me, u);
    TallyConcat(a, b, Me, u);
    QueueUnitsTally(w.requestLink, u);
    HoldUnitsTally(w.server.hold, u);
    QueueUnitsTally(w.unitsQueue, u);
    TeamUnitsTally(w.calculators, u);
    QueueUnitsTally(w.repliesQueue, u);
    HoldUnitsTally(w.client.hold, u);
    QueueUnitsTally(w.responseLink[kept..], u);
    QueuedSplit(w.responseLink, kept, u);
    Empties(u);
  }

  lemma Empties(u: Unit)
    ensures Queued<Job, Unit>([], UnitOf, u) == 0 && Tally<Job, Unit>([], UnitOf, u) == 0
    ensures Held<Job, Unit>([], UnitOf, u) == 0
  {
  }

  // -------------------------------------------------------------- decomposition

  lemma {:induction false} DecomposeTally(d: nat, n: nat, u: Unit)
    ensures Tally(Decompose(d, n), Me, u) == if u.datum == d && u.index < n then 1 else 0
  {
    if n > 0 {
      DecomposeTally(d, n - 1, u);
      TallySmall(Unit(d, n - 1), Me, u);
      TallyConcat(Decompose(d, n - 1), [Unit(d, n - 1)], Me, u);
    }
  }
}
