/** Every step of every thread moves units without creating, duplicating or
    dropping one, and fills exactly the slot of the unit it computes. */
module MasterFlowSteps {
  import opened Channels
  import opened WorkerLine
  import opened MasterLine
  import opened MasterChannels
  import opened MasterFlow

  /** Result indices of datum `d` below `n` whose unit the assembler has not met. */
  ghost function Remaining(consumed: seq<Unit>, d: nat, n: nat): nat {
    if n == 0 then 0
    else Remaining(consumed, d, n - 1) + if Tally(consumed, Me, Unit(d, n - 1)) == 0 then 1 else 0
  }

  /** `pendingQueries` counts exactly the result indices whose unit has not been
      assembled, on every run. */
  ghost predicate PendingInv(s: State) {
    && |s.pending| == |s.queries|
    && forall d :: 0 <= d < |s.queries| ==> s.pending[d] == Remaining(s.consumed, d, |s.queries[d]|)
  }

  lemma {:induction false} NoneMet(consumed: seq<Unit>, d: nat, n: nat)
    requires forall i: nat :: i < n ==> Tally(consumed, Me, Unit(d, i)) == 0
    ensures Remaining(consumed, d, n) == n
  {
    if n > 0 { NoneMet(consumed, d, n - 1); }
  }

  /** When the Decomposer meets a datum it is whole: one unit per query. */
  lemma MetWhole(c: Config, s: State)
    requires FlowInv(c, s) && PendingInv(s) && s.decomposerQueue != [] && s.decomposerQueue[0].Item?
    ensures var d := s.decomposerQueue[0].item; d < |s.pending| && s.pending[d] == |s.queries[d]|
  {
    var d := s.decomposerQueue[0].item;
    QueuedPositive<nat, nat>(s.decomposerQueue, 0, Self);
    assert d < |s.queries|;
    forall i: nat | i < |s.queries[d]| ensures Tally(s.consumed, Me, Unit(d, i)) == 0 {
      assert FlowAt(s, Unit(d, i));
    }
    NoneMet(s.consumed, d, |s.queries[d]|);
  }

  lemma FrontFlow(c: Config, s: State, step: FrontStep, u: Unit)
    requires FlowInv(c, s) && PendingInv(s) && FrontEnabled(c, s, step)
    ensures FlowAt(FrontApply(c, s, step), u)
    ensures Computed(FrontApply(c, s, step), u) == Computed(s, u)
  {
    hide FlowInv, PendingInv, FlowAt, Computed, FrontApply;
    if step.DecomposerTake? || step.DecomposerPut? || step.DecomposerEnd? {
      DecomposerFlow(c, s, step, u);
    } else {
      HandlerFlow(c, s, step, u);
    }
  }

  lemma HandlerFlow(c: Config, s: State, step: FrontStep, u: Unit)
    requires FlowInv(c, s) && FrontEnabled(c, s, step)
    requires !step.DecomposerTake? && !step.DecomposerPut? && !step.DecomposerEnd?
    ensures FlowAt(FrontApply(c, s, step), u)
    ensures Computed(FrontApply(c, s, step), u) == Computed(s, u)
  {
    hide Queued, Tally, Held, InWorkers, FramesInv, SlotAt, Take, Put, End, Blank;
    assert FlowAt(s, u);
    match step {
      case HandlerPut(i) =>
        QueuedPush<nat, nat>(s.decomposerQueue, Item(|s.queries|), Self, u.datum);
        if u.datum == |s.queries| { assert Queued(s.decomposerQueue, Self, u.datum) == 0; }
      case HandlerEnd(i) => QueuedPush<nat, nat>(s.decomposerQueue, Stop, Self, u.datum);
      case _ =>
    }
  }

  lemma DecomposerFlow(c: Config, s: State, step: FrontStep, u: Unit)
    requires FlowInv(c, s) && PendingInv(s) && FrontEnabled(c, s, step)
    requires step.DecomposerTake? || step.DecomposerPut? || step.DecomposerEnd?
    ensures FlowAt(FrontApply(c, s, step), u)
    ensures Computed(FrontApply(c, s, step), u) == Computed(s, u)
  {
    hide Queued, Tally, Held, InWorkers, FramesInv, SlotAt, Remaining;
    assert FlowAt(s, u);
    match step {
      case DecomposerTake =>
        QueuedPop<nat, nat>(s.decomposerQueue, Self, u.datum);
        TallySmall(u, Me, u);
        if s.decomposerQueue[0].Item? {
          MetWhole(c, s);
          var d := s.decomposerQueue[0].item;
          DecomposeTally(d, s.pending[d], u);
        }
      case DecomposerPut =>
        TallyPop(s.decomposer.hold, Me, u);
        QueuedPush(s.distributorQueue, Item(s.decomposer.hold[0]), Me, u);
      case DecomposerEnd => QueuedPush(s.distributorQueue, Stop, Me, u);
    }
  }

  lemma SpreadFlow(c: Config, s: State, step: SpreadStep, u: Unit)
    requires FlowInv(c, s) && PoolInv(s) && SpreadEnabled(c, s, step)
    ensures FlowAt(SpreadApply(c, s, step), u)
  {
    hide FlowInv, PoolInv, FlowAt, SpreadApply;
    if step.CalculatorTake? || step.CalculatorPut? || step.CalculatorEnd? {
      CalculatorFlow(c, s, step, u);
    } else if step.SendRemote? || step.StopWorkers? {
      SendFlow(c, s, step, u);
    } else {
      DistributorFlow(c, s, step, u);
    }
  }

  lemma CalculatorFlow(c: Config, s: State, step: SpreadStep, u: Unit)
    requires FlowInv(c, s) && SpreadEnabled(c, s, step)
    requires step.CalculatorTake? || step.CalculatorPut? || step.CalculatorEnd?
    ensures FlowAt(SpreadApply(c, s, step), u)
  {
    hide Queued, Tally, Held, InWorkers, FramesInv, SlotAt, Fill;
    var s' := SpreadApply(c, s, step);
    assert FlowAt(s, u);
    TallySmall(u, Me, u);
    match step {
      case CalculatorTake(i) =>
        QueuedPop(s.unitsQueue, Me, u);
        HeldUpdate(s.calculators, i, s'.calculators[i], Me, u);
        if s.unitsQueue[0].Item? { TallySmall(s.unitsQueue[0].item, Me, u); }
      case CalculatorPut(i) =>
        TallyPop(s.calculators[i].hold, Me, u);
        HeldUpdate(s.calculators, i, s'.calculators[i], Me, u);
        QueuedPush(s.assemblerQueue, Item(s.calculators[i].hold[0]), Me, u);
      case CalculatorEnd(i) =>
        HeldUpdate(s.calculators, i, s'.calculators[i], Me, u);
        QueuedPush(s.assemblerQueue, Stop, Me, u);
    }
  }

  lemma SendFlow(c: Config, s: State, step: SpreadStep, u: Unit)
    requires FlowInv(c, s) && PoolInv(s) && SpreadEnabled(c, s, step) && (step.SendRemote? || step.StopWorkers?)
    ensures FlowAt(SpreadApply(c, s, step), u)
  {
    hide Queued, Tally, Held, InWorkers, FramesInv, SlotAt, PlacesInv, ReadersInv, WorkerOk;
    var s' := SpreadApply(c, s, step);
    assert FlowAt(s, u);
    TallySmall(u, Me, u);
    if step.SendRemote? {
      TallyPop(s.distributor.hold, Me, u);
      WorkersUpdate(s.workers, s.pick.worker, s'.workers[s.pick.worker], u);
      var link := s.workers[s.pick.worker].requestLink;
      QueuedPush(link, s'.workers[s.pick.worker].requestLink[|link|], UnitOf, u);
    } else {
      TellSame(s.workers, s.pool, |s.workers|, u);
      assert s.workers[..|s.workers|] == s.workers && s'.workers[..|s.workers|] == s'.workers;
    }
  }

  lemma DistributorFlow(c: Config, s: State, step: SpreadStep, u: Unit)
    requires FlowInv(c, s) && SpreadEnabled(c, s, step) && !step.SendRemote? && !step.StopWorkers?
    requires !step.CalculatorTake? && !step.CalculatorPut? && !step.CalculatorEnd?
    ensures FlowAt(SpreadApply(c, s, step), u)
  {
    hide Queued, Tally, Held, InWorkers, FramesInv, SlotAt;
    assert FlowAt(s, u);
    TallySmall(u, Me, u);
    match step {
      case DistributorTake =>
        QueuedPop(s.distributorQueue, Me, u);
        if s.distributorQueue[0].Item? { TallySmall(s.distributorQueue[0].item, Me, u); }
      case LoseRemote =>
        TallyPop(s.distributor.hold, Me, u);
        TallySmall(s.distributor.hold[0], Me, u);
        TallyConcat(s.lost, [s.distributor.hold[0]], Me, u);
      case DistributorPut =>
        TallyPop(s.distributor.hold, Me, u);
        QueuedPush(s.unitsQueue, Item(s.distributor.hold[0]), Me, u);
      case DistributorEnd => QueuedPush(s.unitsQueue, Stop, Me, u);
      case _ =>
    }
  }

  lemma LinkFlow(c: Config, s: State, step: LinkStep, u: Unit)
    requires FlowInv(c, s) && LinkEnabled(c, s, step)
    ensures FlowAt(LinkApply(c, s, step), u)
  {
    hide FlowInv, FlowAt, LinkApply;
    if step.ReaderRead? { ReadFlow(c, s, step.i, u); } else { ReaderFlow(c, s, step, u); }
  }

  lemma ReadFlow(c: Config, s: State, i: nat, u: Unit)
    requires FlowInv(c, s) && LinkEnabled(c, s, ReaderRead(i))
    ensures FlowAt(LinkApply(c, s, ReaderRead(i)), u)
  {
    hide Queued, Tally, Held, InWorkers, FramesInv, SlotAt, Fill;
    var s' := LinkApply(c, s, ReaderRead(i));
    assert FlowAt(s, u);
    TallySmall(u, Me, u);
    var w := s.reading[i].value;
    HeldUpdate(s.readers, i, s'.readers[i], Me, u);
    WorkersUpdate(s.workers, w, s'.workers[w], u);
    QueuedPop(s.workers[w].responseLink, UnitOf, u);
    if s.workers[w].responseLink[0].Item? { TallySmall(s.workers[w].responseLink[0].item.unit, Me, u); }
  }

  lemma ReaderFlow(c: Config, s: State, step: LinkStep, u: Unit)
    requires FlowInv(c, s) && LinkEnabled(c, s, step) && !step.ReaderRead?
    ensures FlowAt(LinkApply(c, s, step), u)
  {
    hide Queued, Tally, Held, InWorkers, FramesInv, SlotAt;
    var s' := LinkApply(c, s, step);
    assert FlowAt(s, u);
    TallySmall(u, Me, u);
    match step {
      case ReaderTake(i) => HeldUpdate(s.readers, i, s'.readers[i], Me, u);
      case ReaderPut(i) =>
        TallyPop(s.readers[i].hold, Me, u);
        HeldUpdate(s.readers, i, s'.readers[i], Me, u);
        QueuedPush(s.assemblerQueue, Item(s.readers[i].hold[0]), Me, u);
      case ReaderEnd(i) =>
        HeldUpdate(s.readers, i, s'.readers[i], Me, u);
        QueuedPush(s.assemblerQueue, Stop, Me, u);
      case _ =>
    }
  }

  lemma BackFlow(c: Config, s: State, step: BackStep, u: Unit)
    requires FlowInv(c, s) && BackEnabled(c, s, step)
    ensures FlowAt(BackApply(c, s, step), u)
    ensures Computed(BackApply(c, s, step), u) == Computed(s, u)
  {
    hide FlowInv, FlowAt, Computed, BackApply;
    if step.AssemblerTake? { AssemblerFlow(c, s, u); } else { ResponderFlow(c, s, step, u); }
  }

  lemma AssemblerFlow(c: Config, s: State, u: Unit)
    requires FlowInv(c, s) && BackEnabled(c, s, AssemblerTake)
    ensures FlowAt(BackApply(c, s, AssemblerTake), u)
    ensures Computed(BackApply(c, s, AssemblerTake), u) == Computed(s, u)
  {
    hide Queued, Tally, Held, InWorkers, FramesInv, SlotAt, Take;
    assert FlowAt(s, u);
    QueuedPop(s.assemblerQueue, Me, u);
    if s.assemblerQueue[0].Item? {
      TallySmall(s.assemblerQueue[0].item, Me, u);
      TallyConcat(s.consumed, [s.assemblerQueue[0].item], Me, u);
    }
  }

  lemma ResponderFlow(c: Config, s: State, step: BackStep, u: Unit)
    requires FlowInv(c, s) && BackEnabled(c, s, step) && !step.AssemblerTake?
    ensures FlowAt(BackApply(c, s, step), u)
    ensures Computed(BackApply(c, s, step), u) == Computed(s, u)
  {
    hide Queued, Tally, Held, InWorkers, FramesInv, SlotAt, Put, End;
    assert FlowAt(s, u);
  }

  lemma EnvFlow(c: Config, s: State, step: EnvStep, u: Unit)
    requires FlowInv(c, s) && EnvEnabled(s, step)
    ensures FlowAt(EnvApply(s, step), u)
    ensures Computed(EnvApply(s, step), u) == Computed(s, u)
  {
    hide Queued, Tally, Held, InWorkers, FramesInv, SlotAt, LostUnits, Dead;
    assert FlowAt(s, u);
    match step {
      case WorkerConnects(threads, room) =>
        NewWorkerEmpty(threads, room, u);
        WorkersPush(s.workers, NewWorker(threads, room), u);
      case WorkerDies(w, kept) =>
        DeathSplits(s.workers[w], kept, u);
        WorkersUpdate(s.workers, w, Dead(s.workers[w], kept), u);
        TallyConcat(s.lost, LostUnits(s.workers[w], kept), Me, u);
      case _ =>
    }
  }

  lemma InnerFlow(c: Config, s: State, w: nat, step: WorkerStep, u: Unit)
    requires FlowInv(c, s) && w < |s.workers| && CanStep(s.workers[w], step)
    ensures FlowAt(Apply(c, s, InWorker(w, step)), u)
  {
    hide Queued, Tally, Held, InWorkers, FramesInv, SlotAt, Inside, AfterStep;
    assert FlowAt(s, u);
    StepInside(s.workers[w], step, c.compute, UnitOf, u);
    WorkersUpdate(s.workers, w, AfterStep(s.workers[w], step, c.compute), u);
  }

  lemma StepFlow(c: Config, s: State, step: Step)
    requires FlowInv(c, s) && PoolInv(s) && PendingInv(s) && Enabled(c, s, step)
    ensures forall u :: FlowAt(Apply(c, s, step), u)
  {
    hide FlowAt, FlowInv, PoolInv, PendingInv;
    forall u ensures FlowAt(Apply(c, s, step), u) {
      match step {
        case Env(e) => EnvFlow(c, s, e, u);
        case Front(f) => FrontFlow(c, s, f, u);
        case Spread(d) => SpreadFlow(c, s, d, u);
        case Link(l) => LinkFlow(c, s, l, u);
        case Back(b) => BackFlow(c, s, b, u);
        case InWorker(w, ws) => InnerFlow(c, s, w, ws, u);
      }
    }
  }
}
