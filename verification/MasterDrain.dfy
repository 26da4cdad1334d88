/** What holds over whole runs of the line: every response is complete and sent
    at most once, nothing refers to a deleted datum, and when the ClientResponder
    leaves its loop nothing is left anywhere and every datum none of whose units
    died with a worker has been answered. */
module MasterDrain {
  import opened Channels
  import opened WorkerLine
  import opened MasterLine
  import opened MasterChannels
  import opened MasterFlow
  import opened MasterFlowSteps
  import opened MasterCompletion

  /** `steps` is an interleaving of all threads and of the environment that
      leads from `s` to `last`. */
  ghost predicate Run(c: Config, s: State, steps: seq<Step>, last: State)
    decreases |steps|
  {
    if steps == [] then s == last
    else Enabled(c, s, steps[0]) && Run(c, Apply(c, s, steps[0]), steps[1..], last)
  }

  lemma {:induction false} RunInv(c: Config, s: State, steps: seq<Step>, last: State)
    requires Inv(c, s) && Run(c, s, steps, last)
    ensures Inv(c, last)
    decreases |steps|
  {
    hide Inv, Enabled, Apply;
    if steps != [] {
      StepInv(c, s, steps[0]);
      RunInv(c, Apply(c, s, steps[0]), steps[1..], last);
    }
  }

  /** A run of the server, from the start of its threads. */
  ghost predicate Reachable(c: Config, s: State) {
    exists steps :: Run(c, Init(c), steps, s)
  }

  lemma ReachableInv(c: Config, s: State)
    requires c.Valid() && Reachable(c, s)
    ensures Inv(c, s)
  {
    hide Inv, Run;
    var steps :| Run(c, Init(c), steps, s);
    InitInv(c);
    RunInv(c, Init(c), steps, s);
  }

  /** Safety of responses, on every run, with units lost or not: a datum is
      answered at most once, and every response sent holds the answer to each
      of its queries. */
  lemma ResponsesAreExact(c: Config, s: State)
    requires c.Valid() && Reachable(c, s)
    ensures forall d: nat :: Tally(s.answers, DatumOf, d) <= 1
    ensures forall k :: 0 <= k < |s.answers| ==> Exact(c, s.queries, s.answers[k])
  {
    ReachableInv(c, s);
    forall d: nat ensures Tally(s.answers, DatumOf, d) <= 1 { assert AnswerAt(s, d); }
  }

  /** The completion invariant: `pendingQueries` is the number of result indices
      whose unit the assembler has not consumed, and it is zero exactly when the
      datum has moved on to the responder. */
  lemma PendingCounts(c: Config, s: State, d: nat)
    requires c.Valid() && Reachable(c, s) && d < |s.queries|
    ensures |s.pending| == |s.queries| && s.pending[d] == Remaining(s.consumed, d, |s.queries[d]|)
    ensures s.pending[d] == 0 <==>
            Queued(s.responderQueue, Self, d) + Tally(s.assembler.hold, Self, d) + Tally(s.answers, DatumOf, d) == 1
  {
    ReachableInv(c, s);
    assert AnswerAt(s, d);
  }

  /** Once a datum has reached the responder no unit of it is left in any queue,
      thread, link or worker, so deleting it leaves no dangling reference. */
  lemma NothingRefersToReadyData(c: Config, s: State, u: Unit)
    requires c.Valid() && Reachable(c, s) && Known(s.queries, u)
    requires |s.pending| == |s.queries| && s.pending[u.datum] == 0
    ensures Waiting(s, u) == 0 && Lost(s, u) == 0
    ensures Held(s.calculators, Me, u) == 0 && Queued(s.assemblerQueue, Me, u) == 0 && Held(s.readers, Me, u) == 0
  {
    ReachableInv(c, s);
    NoneRemaining(s.consumed, u.datum, |s.queries[u.datum]|, u.index);
    assert FlowAt(s, u);
  }

  // ------------------------------------------------------------------- drain

  ghost predicate AllHalted<T>(g: seq<Stage<T>>) {
    forall i :: 0 <= i < |g| ==> g[i].Halted()
  }

  ghost predicate WorkerEmpty(w: Worker) {
    && w.requestLink == [] && w.unitsQueue == [] && w.repliesQueue == [] && w.responseLink == []
    && w.server.hold == [] && w.client.hold == []
    && (forall i :: 0 <= i < |w.calculators| ==> w.calculators[i].Halted())
    && (w.alive ==> w.told && w.server.Halted() && w.client.Halted())
  }

  /** Every thread has halted and every queue and link is empty. */
  ghost predicate Quiet(s: State) {
    && s.acceptor.Halted() && s.socketsQueue == [] && AllHalted(s.handlers)
    && s.decomposerQueue == [] && s.decomposer.Halted()
    && s.distributorQueue == [] && s.distributor.Halted() && s.stopped
    && s.unitsQueue == [] && AllHalted(s.calculators)
    && s.masterServer.Halted() && s.connectionsQueue == [] && AllHalted(s.readers)
    && (forall i :: 0 <= i < |s.reading| ==> s.reading[i] == None) && s.pool == {}
    && (forall w :: 0 <= w < |s.workers| ==> WorkerEmpty(s.workers[w]))
    && s.assemblerQueue == [] && s.assembler.Halted() && s.responderQueue == []
  }

  /** Back from the responder to the acceptor, queue by queue: each balance with
      no stop awaited empties the queue and halts its producers. */
  lemma MasterQuiet(s: State)
    requires ChanInv(s) && !s.responding
    ensures s.responderQueue == [] && s.assembler.Halted() && s.assemblerQueue == []
    ensures AllHalted(s.calculators) && AllHalted(s.readers) && NeedSum(s.readers) == 0
    ensures s.unitsQueue == [] && s.distributor.Halted() && s.stopped && s.distributorQueue == []
    ensures s.decomposer.Halted() && s.decomposerQueue == [] && AllHalted(s.handlers)
    ensures s.socketsQueue == [] && s.acceptor.Halted()
    ensures s.connectionsQueue == [] && s.masterServer.Halted()
  {
    hide Stops, NeedSum, EmitSum;
    ChanDrained<nat>(s.responderQueue, s.assembler.emit);
    ChanDrained(s.assemblerQueue, EmitSum(s.calculators) + EmitSum(s.readers));
    TeamSpent(s.calculators);
    TeamSpent(s.readers);
    ChanDrained(s.unitsQueue, s.distributor.emit);
    ChanDrained(s.distributorQueue, s.decomposer.emit);
    ChanDrained<nat>(s.decomposerQueue, EmitSum(s.handlers));
    TeamSpent(s.handlers);
    ChanDrained(s.socketsQueue, s.acceptor.emit);
    ChanDrained<nat>(s.connectionsQueue, s.masterServer.emit);
  }

  lemma {:induction false} NobodyServing(reading: seq<Option<nat>>, w: nat)
    requires forall i :: 0 <= i < |reading| ==> reading[i] == None
    ensures Serving(reading, w) == 0
  {
    if reading != [] { NobodyServing(reading[1..], w); }
  }

  /** With its reader gone every connection has been closed, and a closed
      connection has nothing on it. */
  lemma WorkersQuiet(s: State)
    requires ChanInv(s) && PoolInv(s) && !s.responding
    ensures s.pool == {} && forall i :: 0 <= i < |s.reading| ==> s.reading[i] == None
    ensures forall w :: 0 <= w < |s.workers| ==> WorkerEmpty(s.workers[w])
  {
    MasterQuiet(s);
    forall i | 0 <= i < |s.reading| ensures s.reading[i] == None { assert s.readers[i].Halted(); }
    forall w: nat ensures w !in s.pool {
      NobodyServing(s.reading, w);
      assert Places(s.masterServer.hold, s.connectionsQueue, s.reading, w) == if w in s.pool then 1 else 0;
    }
    forall w | 0 <= w < |s.workers| ensures WorkerEmpty(s.workers[w]) {
      assert WorkerOk(s.workers[w], false);
      if s.workers[w].alive { ClosedWorkerIsEmpty(s.workers[w], UnitOf, Unit(0, 0)); }
    }
  }

  lemma {:induction false} EmptyWorkers(workers: seq<Worker>, u: Unit)
    requires forall w :: 0 <= w < |workers| ==> WorkerEmpty(workers[w])
    ensures InWorkers(workers, u) == 0
  {
    if workers != [] {
      EmptyWorkers(workers[1..], u);
      assert WorkerEmpty(workers[0]);
      HaltedTeam(workers[0].calculators, UnitOf, u);
    }
  }

  lemma {:induction false} HaltedTeam<T(!new), K(!new)>(g: seq<Stage<T>>, key: T -> K, k: K)
    requires AllHalted(g)
    ensures Held(g, key, k) == 0
  {
    if g != [] {
      assert g[0].Halted();
      forall i | 0 <= i < |g[1..]| ensures g[1..][i].Halted() { assert g[1..][i] == g[i + 1]; }
      HaltedTeam(g[1..], key, k);
    }
  }

  /** In a quiet line every unit of every datum is either assembled or lost. */
  lemma QuietUnits(s: State, u: Unit)
    requires Quiet(s) && FlowAt(s, u)
    ensures Tally(s.consumed, Me, u) + Lost(s, u) == if Known(s.queries, u) then 1 else 0
  {
    EmptyWorkers(s.workers, u);
    HaltedTeam(s.calculators, Me, u);
    HaltedTeam(s.readers, Me, u);
  }

  /** Drain. In every interleaving of any number of threads and workers, once
      the ClientResponder has met its stop every thread has halted, every queue
      and link is empty, and a datum has been answered, once, exactly when none
      of its units died with a worker. */
  lemma DrainTheorem(c: Config, s: State)
    requires c.Valid() && Reachable(c, s) && !s.responding
    ensures Quiet(s)
    ensures forall d: nat :: d < |s.queries| ==>
              Tally(s.answers, DatumOf, d)
              == if exists i: nat :: i < |s.queries[d]| && Lost(s, Unit(d, i)) > 0 then 0 else 1
    ensures forall k :: 0 <= k < |s.answers| ==> Exact(c, s.queries, s.answers[k])
  {
    ReachableInv(c, s);
    MasterQuiet(s);
    WorkersQuiet(s);
    forall d: nat | d < |s.queries|
      ensures Tally(s.answers, DatumOf, d)
           == if exists i: nat :: i < |s.queries[d]| && Lost(s, Unit(d, i)) > 0 then 0 else 1
    {
      assert AnswerAt(s, d);
      DrainedDatum(c, s, d);
    }
  }

  lemma DrainedDatum(c: Config, s: State, d: nat)
    requires Inv(c, s) && Quiet(s) && d < |s.queries|
    ensures s.pending[d] == 0 <==> forall i: nat :: i < |s.queries[d]| ==> Lost(s, Unit(d, i)) == 0
  {
    hide Quiet, ChanInv, PoolInv, FramesInv, SlotAt, DoneInv, Waiting, Computed, Tally, Lost;
    var n := |s.queries[d]|;
    if s.pending[d] == 0 {
      forall i: nat | i < n ensures Lost(s, Unit(d, i)) == 0 {
        NoneRemaining(s.consumed, d, n, i);
        assert FlowAt(s, Unit(d, i));
        QuietUnits(s, Unit(d, i));
      }
    } else {
      var i := FirstRemaining(s.consumed, d, n);
      assert FlowAt(s, Unit(d, i));
      QuietUnits(s, Unit(d, i));
      assert Lost(s, Unit(d, i)) > 0;
    }
  }

  lemma {:induction false} FirstRemaining(consumed: seq<Unit>, d: nat, n: nat) returns (i: nat)
    requires Remaining(consumed, d, n) > 0
    ensures i < n && Tally(consumed, Me, Unit(d, i)) == 0
  {
    if Tally(consumed, Me, Unit(d, n - 1)) == 0 {
      i := n - 1;
    } else {
      i := FirstRemaining(consumed, d, n - 1);
    }
  }

  /** Without worker deaths every datum handed to the Decomposer has been
      answered exactly once, with the answer to every query. */
  lemma DrainWithoutLoss(c: Config, s: State, d: nat)
    requires c.Valid() && Reachable(c, s) && !s.responding && s.lost == [] && d < |s.queries|
    ensures Tally(s.answers, DatumOf, d) == 1
  {
    DrainTheorem(c, s);
    forall i: nat | i < |s.queries[d]| ensures Lost(s, Unit(d, i)) == 0 {}
  }
}
