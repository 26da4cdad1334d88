/** The full invariant of the line and its preservation by every step: pending
    counts, result slots, frames, and the single answer of every datum. */
module MasterCompletion {
  import opened Channels
  import opened WorkerLine
  import opened MasterLine
  import opened MasterChannels
  import opened MasterFlow
  import opened MasterFlowSteps

  function DatumOf(a: Answer): nat { a.datum }

  /** A datum is in the responder's queue, in the assembler's hand or answered,
      once, exactly when it has nothing pending. */
  ghost predicate AnswerAt(s: State, d: nat)
    requires |s.pending| == |s.queries|
  {
    Queued(s.responderQueue, Self, d) + Tally(s.assembler.hold, Self, d) + Tally(s.answers, DatumOf, d)
      == if d < |s.queries| && s.pending[d] == 0 then 1 else 0
  }

  /** The response holds the answer to every query, in order. */
  ghost predicate Exact(c: Config, queries: seq<Request>, a: Answer) {
    && a.datum < |queries| && |a.slots| == |queries[a.datum]|
    && forall i :: 0 <= i < |a.slots| ==> a.slots[i] == c.compute(queries[a.datum][i])
  }

  ghost predicate DoneInv(c: Config, s: State) {
    && |s.pending| == |s.queries|
    && (forall d: nat :: AnswerAt(s, d))
    && (forall k :: 0 <= k < |s.answers| ==> Exact(c, s.queries, s.answers[k]))
  }

  /** Everything that holds in every reachable state. */
  ghost predicate Inv(c: Config, s: State) {
    ChanInv(s) && PoolInv(s) && FlowInv(c, s) && PendingInv(s) && DoneInv(c, s)
  }

  // --------------------------------------------------------------- frames

  lemma StepAsks(queries: seq<Request>, w: Worker, step: WorkerStep, compute: Query -> seq<int>)
    requires CanStep(w, step) && WorkerAsks(queries, w)
    ensures WorkerAsks(queries, AfterStep(w, step, compute))
  {
  }

  lemma GrownFrame(c: Config, queries: seq<Request>, r: Request, w: Worker)
    requires FrameOk(c, queries, w)
    ensures FrameOk(c, queries + [r], w)
  {
    assert forall j :: Asks(queries, j) ==> Asks(queries + [r], j);
  }

  /** A unit in the Distributor's hand is one of the tables. */
  lemma HeldUnitKnown(c: Config, s: State)
    requires FlowInv(c, s) && s.distributor.hold != []
    ensures Known(s.queries, s.distributor.hold[0])
  {
    TallyPositive(s.distributor.hold, 0, Me);
    assert FlowAt(s, s.distributor.hold[0]);
  }

  lemma StepFrames(c: Config, s: State, step: Step)
    requires FlowInv(c, s) && Enabled(c, s, step)
    ensures FramesInv(c, Apply(c, s, step).queries, Apply(c, s, step).workers)
  {
    hide Waiting, Computed, FlowAt, SlotAt, QueuedKnown, FrameOk;
    hide EnvApply, FrontApply, SpreadApply, LinkApply, BackApply;
    match step {
      case Env(e) => EnvFrames(c, s, e);
      case Front(f) => FrontFrames(c, s, f);
      case Spread(d) => SpreadFrames(c, s, d);
      case Link(l) => LinkFrames(c, s, l);
      case Back(b) => BackFrames(c, s, b);
      case InWorker(v, ws) => InnerFrame(c, s.queries, s.workers[v], ws);
    }
  }

  lemma EnvFrames(c: Config, s: State, step: EnvStep)
    requires FlowInv(c, s) && EnvEnabled(s, step)
    ensures FramesInv(c, EnvApply(s, step).queries, EnvApply(s, step).workers)
  {
    hide Waiting, Computed, FlowAt, SlotAt, QueuedKnown, FrameOk, LostUnits, Dead;
    match step {
      case WorkerConnects(threads, room) => NewFrame(c, s.queries, threads, room);
      case WorkerDies(w, kept) => DeadFrame(c, s.queries, s.workers[w], kept);
      case _ =>
    }
  }

  lemma FrontFrames(c: Config, s: State, step: FrontStep)
    requires FlowInv(c, s) && FrontEnabled(c, s, step)
    ensures FramesInv(c, FrontApply(c, s, step).queries, FrontApply(c, s, step).workers)
  {
    hide Waiting, Computed, FlowAt, SlotAt, QueuedKnown, FrameOk;
    if step.HandlerPut? {
      forall w | 0 <= w < |s.workers| ensures FrameOk(c, s.queries + [s.handlers[step.i].hold[0]], s.workers[w]) {
        GrownFrame(c, s.queries, s.handlers[step.i].hold[0], s.workers[w]);
      }
    }
  }

  lemma SpreadFrames(c: Config, s: State, step: SpreadStep)
    requires FlowInv(c, s) && SpreadEnabled(c, s, step)
    ensures FramesInv(c, SpreadApply(c, s, step).queries, SpreadApply(c, s, step).workers)
  {
    hide Waiting, Computed, FlowAt, SlotAt, QueuedKnown, FrameOk;
    match step {
      case SendRemote =>
        HeldUnitKnown(c, s);
        var u := s.distributor.hold[0];
        SentFrame(c, s.queries, s.workers[s.pick.worker], Item(Job(u, AskedBy(s.queries, u), [])));
      case StopWorkers =>
        forall w | 0 <= w < |s.workers| ensures FrameOk(c, s.queries, TellWorkers(s.workers, s.pool)[w]) {
          SentFrame(c, s.queries, s.workers[w], Stop);
        }
      case _ =>
    }
  }

  lemma LinkFrames(c: Config, s: State, step: LinkStep)
    requires FlowInv(c, s) && LinkEnabled(c, s, step)
    ensures FramesInv(c, LinkApply(c, s, step).queries, LinkApply(c, s, step).workers)
  {
    hide Waiting, Computed, FlowAt, SlotAt, QueuedKnown, FrameOk;
    if step.ReaderRead? { ReadFrame(c, s.queries, s.workers[s.reading[step.i].value]); }
  }

  lemma BackFrames(c: Config, s: State, step: BackStep)
    requires FlowInv(c, s) && BackEnabled(c, s, step)
    ensures FramesInv(c, BackApply(c, s, step).queries, BackApply(c, s, step).workers)
  {
    hide Waiting, Computed, FlowAt, SlotAt, QueuedKnown, FrameOk;
  }

  /** `told` and the request link of a worker after the master wrote a token. */
  lemma SentFrame(c: Config, queries: seq<Request>, w: Worker, t: Token<Job>)
    requires FrameOk(c, queries, w) && (t.Item? ==> Asks(queries, t.item) && t.item.result == [])
    ensures forall told :: FrameOk(c, queries, w.(told := told))
    ensures forall told :: FrameOk(c, queries, w.(told := told, requestLink := w.requestLink + [t]))
    ensures FrameOk(c, queries, w.(requestLink := w.requestLink + [t]))
  {
  }

  lemma DeadFrame(c: Config, queries: seq<Request>, w: Worker, kept: nat)
    requires FrameOk(c, queries, w) && kept <= |w.responseLink|
    ensures FrameOk(c, queries, Dead(w, kept))
  {
  }

  lemma ReadFrame(c: Config, queries: seq<Request>, w: Worker)
    requires FrameOk(c, queries, w) && w.responseLink != []
    ensures FrameOk(c, queries, w.(responseLink := w.responseLink[1..]))
  {
  }

  lemma InnerFrame(c: Config, queries: seq<Request>, w: Worker, step: WorkerStep)
    requires FrameOk(c, queries, w) && CanStep(w, step)
    ensures FrameOk(c, queries, AfterStep(w, step, c.compute))
  {
    StepAsks(queries, w, step, c.compute);
    StepTruthful(w, step, c.compute);
  }

  lemma NewFrame(c: Config, queries: seq<Request>, threads: nat, room: nat)
    ensures FrameOk(c, queries, NewWorker(threads, room))
  {
    FreshTeam<Job, int>(threads, _ => 0, 0);
  }

  // ---------------------------------------------------------------- slots

  lemma FillAt(slots: seq<seq<seq<int>>>, u: Unit, values: seq<int>, v: Unit)
    requires u.datum < |slots| && u.index < |slots[u.datum]|
    requires v.datum < |slots| && v.index < |slots[v.datum]|
    ensures |Fill(slots, u, values)| == |slots|
    ensures |Fill(slots, u, values)[v.datum]| == |slots[v.datum]|
    ensures Fill(slots, u, values)[v.datum][v.index]
         == if u == v then slots[v.datum][v.index] + values else slots[v.datum][v.index]
  {
  }

  /** The unit at the head of the calculators' queue is known and its slot is
      still empty. */
  lemma HeadOfUnits(c: Config, s: State)
    requires FlowInv(c, s) && s.unitsQueue != [] && s.unitsQueue[0].Item?
    ensures var u := s.unitsQueue[0].item; Known(s.queries, u) && Computed(s, u) == 0
  {
    QueuedPositive(s.unitsQueue, 0, Me);
    assert FlowAt(s, s.unitsQueue[0].item);
  }

  /** The same for the frame at the head of a response link, which moreover
      carries the answer to that unit's query. */
  lemma HeadOfLink(c: Config, s: State, w: nat)
    requires FlowInv(c, s) && w < |s.workers|
    requires s.workers[w].responseLink != [] && s.workers[w].responseLink[0].Item?
    ensures var j := s.workers[w].responseLink[0].item;
            Known(s.queries, j.unit) && Computed(s, j.unit) == 0 && j.result == c.compute(AskedBy(s.queries, j.unit))
  {
    var j := s.workers[w].responseLink[0].item;
    QueuedPositive(s.workers[w].responseLink, 0, UnitOf);
    WorkersAt(s.workers, w, j.unit);
    assert FlowAt(s, j.unit);
    assert WorkerAsks(s.queries, s.workers[w]) && Truthful(s.workers[w], c.compute);
  }

  lemma {:induction false} WorkersAt(workers: seq<Worker>, w: nat, u: Unit)
    requires w < |workers|
    ensures InWorkers(workers, u) >= Inside(workers[w], UnitOf, u)
  {
    hide Inside;
    if w > 0 { WorkersAt(workers[1..], w - 1, u); }
  }

  /** The slot of `u` after a step that computes `v`. */
  lemma SlotsFilled(c: Config, s: State, s': State, v: Unit, u: Unit)
    requires Aligned(s) && Aligned(s') && SlotAt(c, s, u) && SlotAt(c, s, v) && s'.queries == s.queries
    requires Known(s.queries, v) && Computed(s, v) == 0
    requires s'.slots == Fill(s.slots, v, c.compute(AskedBy(s.queries, v)))
    requires Computed(s', u) == Computed(s, u) + if u == v then 1 else 0
    ensures SlotAt(c, s', u)
  {
    hide Computed;
    if Known(s.queries, u) { FillAt(s.slots, v, c.compute(AskedBy(s.queries, v)), u); }
  }

  lemma StepAligned(c: Config, s: State, step: Step)
    requires FlowInv(c, s) && PendingInv(s) && Enabled(c, s, step)
    ensures Aligned(Apply(c, s, step))
  {
    hide Waiting, Computed, FlowAt, SlotAt, QueuedKnown, FramesInv, CanStep, AfterStep;
    match step {
      case Front(f) => FrontAligned(c, s, f);
      case Spread(d) => SpreadAligned(c, s, d);
      case Link(l) => LinkAligned(c, s, l);
      case Back(b) => BackAligned(c, s, b);
      case _ =>
    }
  }

  lemma FrontAligned(c: Config, s: State, step: FrontStep)
    requires Aligned(s) && FrontEnabled(c, s, step)
    ensures Aligned(FrontApply(c, s, step))
  {
  }

  lemma SpreadAligned(c: Config, s: State, step: SpreadStep)
    requires Aligned(s) && SpreadEnabled(c, s, step)
    ensures Aligned(SpreadApply(c, s, step))
  {
  }

  lemma LinkAligned(c: Config, s: State, step: LinkStep)
    requires Aligned(s) && LinkEnabled(c, s, step)
    ensures Aligned(LinkApply(c, s, step))
  {
    hide Fill, Take, Put, End;
    if step.ReaderRead? {
      var t := s.workers[s.reading[step.i].value].responseLink[0];
      if t.Item? { FillShape(s.slots, t.item.unit, t.item.result); }
    }
  }

  lemma FillShape(slots: seq<seq<seq<int>>>, u: Unit, values: seq<int>)
    ensures |Fill(slots, u, values)| == |slots|
    ensures forall d :: 0 <= d < |slots| ==> |Fill(slots, u, values)[d]| == |slots[d]|
  {
  }

  lemma BackAligned(c: Config, s: State, step: BackStep)
    requires Aligned(s) && BackEnabled(c, s, step)
    ensures Aligned(BackApply(c, s, step))
  {
  }

  lemma StepQueuedKnown(c: Config, s: State, step: Step)
    requires FlowInv(c, s) && Enabled(c, s, step)
    ensures QueuedKnown(Apply(c, s, step).decomposerQueue, |Apply(c, s, step).queries|)
  {
    hide FrontEnabled, FrontApply, BackEnabled, BackApply, EnvEnabled, EnvApply, SpreadEnabled, SpreadApply;
    hide LinkEnabled, LinkApply, CanStep, AfterStep, FlowAt, SlotAt, FramesInv;
    match step {
      case Front(f) => FrontQueuedKnown(c, s, f);
      case Back(b) => BackSame(c, s, b);
      case _ => OtherTables(c, s, step);
    }
  }

  lemma FrontQueuedKnown(c: Config, s: State, step: FrontStep)
    requires FlowInv(c, s) && FrontEnabled(c, s, step)
    ensures QueuedKnown(FrontApply(c, s, step).decomposerQueue, |FrontApply(c, s, step).queries|)
  {
    hide Waiting, Computed, FlowAt, SlotAt, Aligned, FramesInv, Queued, Decompose;
    var s' := FrontApply(c, s, step);
    forall d: nat | d >= |s'.queries| ensures Queued(s'.decomposerQueue, Self, d) == 0 {
      assert Queued(s.decomposerQueue, Self, d) == 0;
      match step {
        case HandlerPut(i) => QueuedPush<nat, nat>(s.decomposerQueue, Item(|s.queries|), Self, d);
        case HandlerEnd(i) => QueuedPush<nat, nat>(s.decomposerQueue, Stop, Self, d);
        case DecomposerTake => QueuedPop<nat, nat>(s.decomposerQueue, Self, d);
        case _ =>
      }
    }
  }

  lemma SpreadSlots(c: Config, s: State, step: SpreadStep, u: Unit)
    requires FlowInv(c, s) && SpreadEnabled(c, s, step) && Aligned(SpreadApply(c, s, step))
    ensures SlotAt(c, SpreadApply(c, s, step), u)
  {
    hide Queued, Tally, Held, Waiting, FramesInv, QueuedKnown;
    var s' := SpreadApply(c, s, step);
    assert SlotAt(c, s, u);
    match step {
      case CalculatorTake(i) =>
        HeldUpdate(s.calculators, i, s'.calculators[i], Me, u);
        TallySmall(u, Me, u);
        if s.unitsQueue[0].Item? {
          var v := s.unitsQueue[0].item;
          TallySmall(v, Me, u);
          HeadOfUnits(c, s);
          SlotsFilled(c, s, s', v, u);
        }
      case CalculatorPut(i) =>
        TallyPop(s.calculators[i].hold, Me, u);
        HeldUpdate(s.calculators, i, s'.calculators[i], Me, u);
        QueuedPush(s.assemblerQueue, Item(s.calculators[i].hold[0]), Me, u);
      case CalculatorEnd(i) =>
        HeldUpdate(s.calculators, i, s'.calculators[i], Me, u);
        QueuedPush(s.assemblerQueue, Stop, Me, u);
      case _ =>
    }
  }

  lemma LinkSlots(c: Config, s: State, step: LinkStep, u: Unit)
    requires FlowInv(c, s) && LinkEnabled(c, s, step) && Aligned(LinkApply(c, s, step))
    ensures SlotAt(c, LinkApply(c, s, step), u)
  {
    hide FlowInv, SlotAt, Aligned, LinkApply;
    if step.ReaderRead? { ReadSlots(c, s, step.i, u); } else { ReaderSlots(c, s, step, u); }
  }

  lemma ReadSlots(c: Config, s: State, i: nat, u: Unit)
    requires FlowInv(c, s) && LinkEnabled(c, s, ReaderRead(i)) && Aligned(LinkApply(c, s, ReaderRead(i)))
    ensures SlotAt(c, LinkApply(c, s, ReaderRead(i)), u)
  {
    hide Queued, Tally, Held, Waiting, FramesInv, QueuedKnown, Fill;
    var s' := LinkApply(c, s, ReaderRead(i));
    assert SlotAt(c, s, u);
    var w := s.reading[i].value;
    HeldUpdate(s.readers, i, s'.readers[i], Me, u);
    TallySmall(u, Me, u);
    if s.workers[w].responseLink[0].Item? {
      var v := s.workers[w].responseLink[0].item.unit;
      TallySmall(v, Me, u);
      HeadOfLink(c, s, w);
      SlotsFilled(c, s, s', v, u);
    }
  }

  lemma ReaderSlots(c: Config, s: State, step: LinkStep, u: Unit)
    requires FlowInv(c, s) && LinkEnabled(c, s, step) && Aligned(LinkApply(c, s, step)) && !step.ReaderRead?
    ensures SlotAt(c, LinkApply(c, s, step), u)
  {
    hide Queued, Tally, Held, Waiting, FramesInv, QueuedKnown;
    var s' := LinkApply(c, s, step);
    assert SlotAt(c, s, u);
    match step {
      case ReaderTake(i) =>
        TallySmall(u, Me, u);
        HeldUpdate(s.readers, i, s'.readers[i], Me, u);
      case ReaderPut(i) =>
        TallyPop(s.readers[i].hold, Me, u);
        HeldUpdate(s.readers, i, s'.readers[i], Me, u);
        QueuedPush(s.assemblerQueue, Item(s.readers[i].hold[0]), Me, u);
      case ReaderEnd(i) =>
        HeldUpdate(s.readers, i, s'.readers[i], Me, u);
        QueuedPush(s.assemblerQueue, Stop, Me, u);
      case _ =>
    }
  }

  lemma FrontSlots(c: Config, s: State, step: FrontStep, u: Unit)
    requires FlowInv(c, s) && PendingInv(s) && FrontEnabled(c, s, step) && Aligned(FrontApply(c, s, step))
    ensures SlotAt(c, FrontApply(c, s, step), u)
  {
    FrontFlow(c, s, step, u);
    hide Computed, FramesInv, QueuedKnown, PendingInv, Waiting, Decompose, Queued, Tally;
    assert SlotAt(c, s, u) && FlowAt(s, u);
    if step.HandlerPut? {
      if s.handlers[step.i].hold[0] != [] && u.datum == |s.queries| { assert Computed(s, u) == 0; }
    }
  }

  lemma SlotSame(c: Config, s: State, s': State, u: Unit)
    requires Aligned(s) && Aligned(s') && s'.queries == s.queries && s'.slots == s.slots
    requires Computed(s', u) == Computed(s, u) && SlotAt(c, s, u)
    ensures SlotAt(c, s', u)
  {
    hide Computed, Aligned;
  }

  lemma FlowSlot(c: Config, s: State, u: Unit)
    requires FlowInv(c, s)
    ensures Aligned(s) && SlotAt(c, s, u)
  {
  }

  /** These steps neither touch the slots nor compute a unit. */
  predicate SameSlots(s: State, s': State) { s'.queries == s.queries && s'.slots == s.slots }

  lemma EnvSame(s: State, step: EnvStep)
    requires EnvEnabled(s, step)
    ensures SameSlots(s, EnvApply(s, step))
  {
    hide Dead, LostUnits, NewWorker;
  }

  lemma BackSame(c: Config, s: State, step: BackStep)
    requires BackEnabled(c, s, step)
    ensures SameSlots(s, BackApply(c, s, step)) && BackApply(c, s, step).decomposerQueue == s.decomposerQueue
  {
  }

  lemma EnvSlots(c: Config, s: State, step: EnvStep, u: Unit)
    requires FlowInv(c, s) && EnvEnabled(s, step) && Aligned(EnvApply(s, step))
    ensures SlotAt(c, EnvApply(s, step), u)
  {
    hide Computed, FlowInv, SlotAt, Aligned, EnvApply, EnvEnabled;
    FlowSlot(c, s, u);
    EnvFlow(c, s, step, u);
    EnvSame(s, step);
    SlotSame(c, s, EnvApply(s, step), u);
  }

  lemma BackSlots(c: Config, s: State, step: BackStep, u: Unit)
    requires FlowInv(c, s) && BackEnabled(c, s, step) && Aligned(BackApply(c, s, step))
    ensures SlotAt(c, BackApply(c, s, step), u)
  {
    hide Computed, FlowInv, SlotAt, Aligned, BackApply, BackEnabled;
    FlowSlot(c, s, u);
    BackFlow(c, s, step, u);
    BackSame(c, s, step);
    SlotSame(c, s, BackApply(c, s, step), u);
  }

  lemma InnerSlots(c: Config, s: State, w: nat, step: WorkerStep, u: Unit)
    requires FlowInv(c, s) && Enabled(c, s, InWorker(w, step)) && Aligned(Apply(c, s, InWorker(w, step)))
    ensures SlotAt(c, Apply(c, s, InWorker(w, step)), u)
  {
    hide Computed, FlowInv, SlotAt, Aligned, AfterStep, CanStep;
    FlowSlot(c, s, u);
    InnerComputed(c, s, w, step, u);
    SlotSame(c, s, Apply(c, s, InWorker(w, step)), u);
  }

  lemma StepSlots(c: Config, s: State, step: Step)
    requires FlowInv(c, s) && PendingInv(s) && Enabled(c, s, step) && Aligned(Apply(c, s, step))
    ensures forall u :: SlotAt(c, Apply(c, s, step), u)
  {
    hide FlowInv, PendingInv, SlotAt, Aligned, EnvApply, FrontApply, SpreadApply, LinkApply, BackApply;
    hide EnvEnabled, FrontEnabled, SpreadEnabled, LinkEnabled, BackEnabled, AfterStep, CanStep;
    forall u ensures SlotAt(c, Apply(c, s, step), u) {
      match step {
        case Env(e) => EnvSlots(c, s, e, u);
        case Front(f) => FrontSlots(c, s, f, u);
        case Spread(d) => SpreadSlots(c, s, d, u);
        case Link(l) => LinkSlots(c, s, l, u);
        case Back(b) => BackSlots(c, s, b, u);
        case InWorker(w, ws) => InnerSlots(c, s, w, ws, u);
      }
    }
  }

  lemma InnerComputed(c: Config, s: State, w: nat, step: WorkerStep, u: Unit)
    requires Enabled(c, s, InWorker(w, step))
    ensures Computed(Apply(c, s, InWorker(w, step)), u) == Computed(s, u)
  {
  }

  // ----------------------------------------------------- pending and answers

  lemma {:induction false} RemainingPush(consumed: seq<Unit>, u: Unit, d: nat, n: nat)
    ensures Remaining(consumed + [u], d, n)
         == Remaining(consumed, d, n) - if u.datum == d && u.index < n && Tally(consumed, Me, u) == 0 then 1 else 0
  {
    hide Tally;
    if n > 0 {
      RemainingPush(consumed, u, d, n - 1);
      TallySmall(u, Me, Unit(d, n - 1));
      TallyConcat(consumed, [u], Me, Unit(d, n - 1));
    }
  }

  lemma {:induction false} NoneRemaining(consumed: seq<Unit>, d: nat, n: nat, i: nat)
    requires Remaining(consumed, d, n) == 0 && i < n
    ensures Tally(consumed, Me, Unit(d, i)) > 0
  {
    if i < n - 1 { NoneRemaining(consumed, d, n - 1, i); }
  }

  lemma {:induction false} SomeRemaining(consumed: seq<Unit>, d: nat, n: nat, i: nat)
    requires i < n && Tally(consumed, Me, Unit(d, i)) == 0
    ensures Remaining(consumed, d, n) > 0
  {
    if i < n - 1 { SomeRemaining(consumed, d, n - 1, i); }
  }

  /** The unit the assembler is about to meet is known and has not been met. */
  lemma HeadOfAssembler(c: Config, s: State)
    requires FlowInv(c, s) && PendingInv(s) && s.assemblerQueue != [] && s.assemblerQueue[0].Item?
    ensures var u := s.assemblerQueue[0].item;
            Known(s.queries, u) && Tally(s.consumed, Me, u) == 0 && s.pending[u.datum] > 0
  {
    var u := s.assemblerQueue[0].item;
    QueuedPositive(s.assemblerQueue, 0, Me);
    assert FlowAt(s, u);
    SomeRemaining(s.consumed, u.datum, |s.queries[u.datum]|, u.index);
  }

  lemma FrontPending(c: Config, s: State, step: FrontStep)
    requires FlowInv(c, s) && PendingInv(s) && FrontEnabled(c, s, step)
    ensures PendingInv(FrontApply(c, s, step))
  {
    hide Waiting, Computed, SlotAt, FramesInv, QueuedKnown, Remaining, Tally, Queued, Decompose;
    if step.HandlerPut? {
      var n, r := |s.queries|, s.handlers[step.i].hold[0];
      forall i: nat | i < |r| ensures Tally(s.consumed, Me, Unit(n, i)) == 0 {
        assert FlowAt(s, Unit(n, i));
        Unmet(s, Unit(n, i));
      }
      NoneMet(s.consumed, n, |r|);
    }
  }

  lemma BackPending(c: Config, s: State, step: BackStep)
    requires FlowInv(c, s) && PendingInv(s) && BackEnabled(c, s, step)
    ensures PendingInv(BackApply(c, s, step))
  {
    hide Waiting, Computed, SlotAt, FramesInv, QueuedKnown, Remaining, Tally, FlowAt;
    var s' := BackApply(c, s, step);
    if step.AssemblerTake? && s.assemblerQueue[0].Item? {
      HeadOfAssembler(c, s);
      forall d | 0 <= d < |s.queries| ensures s'.pending[d] == Remaining(s'.consumed, d, |s.queries[d]|) {
        RemainingPush(s.consumed, s.assemblerQueue[0].item, d, |s.queries[d]|);
      }
    }
  }

  lemma StepPending(c: Config, s: State, step: Step)
    requires FlowInv(c, s) && PendingInv(s) && Enabled(c, s, step)
    ensures PendingInv(Apply(c, s, step))
  {
    hide FlowInv, Remaining;
    match step {
      case Front(f) => FrontPending(c, s, f);
      case Back(b) => BackPending(c, s, b);
      case _ => OtherTables(c, s, step);
    }
  }

  ghost predicate SameTables(s: State, s': State) {
    && s'.pending == s.pending && s'.queries == s.queries && s'.consumed == s.consumed
    && s'.answers == s.answers && s'.responderQueue == s.responderQueue && s'.assembler == s.assembler
    && s'.decomposerQueue == s.decomposerQueue
  }

  /** Only handlers, the assembler and the responder touch these fields. */
  lemma OtherTables(c: Config, s: State, step: Step)
    requires Enabled(c, s, step) && !step.Front? && !step.Back?
    ensures SameTables(s, Apply(c, s, step))
  {
    hide SameTables, EnvApply, SpreadApply, LinkApply;
    match step {
      case Env(e) => EnvTables(c, s, e);
      case Spread(d) => SpreadTables(c, s, d);
      case Link(l) => LinkTables(c, s, l);
      case InWorker(w, ws) => InnerTables(c, s, w, ws);
    }
  }

  lemma EnvTables(c: Config, s: State, step: EnvStep)
    requires EnvEnabled(s, step)
    ensures SameTables(s, EnvApply(s, step))
  {
    hide AfterStep, CanStep, Fill, TellWorkers, LostUnits, Dead;
  }

  lemma SpreadTables(c: Config, s: State, step: SpreadStep)
    requires SpreadEnabled(c, s, step)
    ensures SameTables(s, SpreadApply(c, s, step))
  {
    hide AfterStep, CanStep, Fill, TellWorkers, LostUnits, Dead;
  }

  lemma LinkTables(c: Config, s: State, step: LinkStep)
    requires LinkEnabled(c, s, step)
    ensures SameTables(s, LinkApply(c, s, step))
  {
    hide AfterStep, CanStep, Fill, TellWorkers, LostUnits, Dead;
  }

  lemma InnerTables(c: Config, s: State, w: nat, step: WorkerStep)
    requires Enabled(c, s, InWorker(w, step))
    ensures SameTables(s, Apply(c, s, InWorker(w, step)))
  {
    hide AfterStep, CanStep, Fill, TellWorkers, LostUnits, Dead;
  }

  lemma Unmet(s: State, u: Unit)
    requires FlowAt(s, u) && !Known(s.queries, u)
    ensures Tally(s.consumed, Me, u) == 0
  {
  }

  /** What the responder sends is complete: with nothing pending every slot has
      been written. */
  lemma ReadyIsExact(c: Config, s: State, d: nat)
    requires FlowInv(c, s) && PendingInv(s) && d < |s.queries| && s.pending[d] == 0
    ensures Exact(c, s.queries, Answer(d, s.slots[d]))
  {
    forall i | 0 <= i < |s.slots[d]| ensures s.slots[d][i] == c.compute(s.queries[d][i]) {
      NoneRemaining(s.consumed, d, |s.queries[d]|, i);
      assert SlotAt(c, s, Unit(d, i));
    }
  }

  lemma BackDone(c: Config, s: State, step: BackStep)
    requires FlowInv(c, s) && PendingInv(s) && DoneInv(c, s) && BackEnabled(c, s, step)
    ensures DoneInv(c, BackApply(c, s, step))
  {
    hide Waiting, Computed, SlotAt, FramesInv, QueuedKnown, Remaining, Tally, Queued;
    var s' := BackApply(c, s, step);
    if step.AssemblerTake? && s.assemblerQueue[0].Item? { HeadOfAssembler(c, s); }
    forall d: nat ensures AnswerAt(s', d) { BackAnswer(c, s, step, d); }
    if step.Respond? && s.responderQueue[0].Item? {
      RespondKnown(s);
      ReadyIsExact(c, s, s.responderQueue[0].item);
    }
  }

  lemma RespondKnown(s: State)
    requires |s.pending| == |s.queries| && s.responderQueue != [] && s.responderQueue[0].Item?
    requires AnswerAt(s, s.responderQueue[0].item)
    ensures var d := s.responderQueue[0].item; d < |s.queries| && s.pending[d] == 0
  {
    QueuedPositive<nat, nat>(s.responderQueue, 0, Self);
  }

  lemma BackAnswer(c: Config, s: State, step: BackStep, d: nat)
    requires FlowInv(c, s) && PendingInv(s) && DoneInv(c, s) && BackEnabled(c, s, step)
    ensures |BackApply(c, s, step).pending| == |BackApply(c, s, step).queries|
    ensures AnswerAt(BackApply(c, s, step), d)
  {
    hide Waiting, Computed, SlotAt, FramesInv, QueuedKnown, Remaining, Tally, Queued, FlowAt, Exact;
    assert AnswerAt(s, d);
    TallySmall<nat, nat>(d, Self, d);
    match step {
      case AssemblerTake =>
        if s.assemblerQueue[0].Item? {
          HeadOfAssembler(c, s);
          TallySmall<nat, nat>(s.assemblerQueue[0].item.datum, Self, d);
        }
      case AssemblerPut =>
        TallyPop<nat, nat>(s.assembler.hold, Self, d);
        QueuedPush<nat, nat>(s.responderQueue, Item(s.assembler.hold[0]), Self, d);
      case AssemblerEnd => QueuedPush<nat, nat>(s.responderQueue, Stop, Self, d);
      case Respond =>
        QueuedPop<nat, nat>(s.responderQueue, Self, d);
        if s.responderQueue[0].Item? {
          var e := s.responderQueue[0].item;
          assert AnswerAt(s, e);
          RespondKnown(s);
          TallySmall(Answer(e, s.slots[e]), DatumOf, d);
          TallyConcat(s.answers, [Answer(e, s.slots[e])], DatumOf, d);
        }
    }
  }

  lemma FrontDone(c: Config, s: State, step: FrontStep)
    requires Aligned(s) && DoneInv(c, s) && FrontEnabled(c, s, step)
    ensures DoneInv(c, FrontApply(c, s, step))
  {
    hide Tally, Queued, Decompose;
    var s' := FrontApply(c, s, step);
    assert |s'.pending| == |s'.queries|;
    forall d: nat ensures AnswerAt(s', d) { assert AnswerAt(s, d); }
    forall k | 0 <= k < |s'.answers| ensures Exact(c, s'.queries, s'.answers[k]) {
      assert Exact(c, s.queries, s.answers[k]);
    }
  }

  lemma OtherDone(c: Config, s: State, step: Step)
    requires DoneInv(c, s) && Enabled(c, s, step) && !step.Front? && !step.Back?
    ensures DoneInv(c, Apply(c, s, step))
  {
    OtherTables(c, s, step);
    hide Tally, Queued, Exact, Enabled, Apply;
    forall d: nat ensures AnswerAt(Apply(c, s, step), d) { assert AnswerAt(s, d); }
  }

  lemma StepDone(c: Config, s: State, step: Step)
    requires FlowInv(c, s) && PendingInv(s) && DoneInv(c, s) && Enabled(c, s, step)
    ensures DoneInv(c, Apply(c, s, step))
  {
    hide FlowInv, PendingInv, DoneInv;
    match step {
      case Front(f) =>
        assert Aligned(s) by { FlowAligned(c, s); }
        FrontDone(c, s, f);
      case Back(b) => BackDone(c, s, b);
      case _ => OtherDone(c, s, step);
    }
  }

  lemma FlowAligned(c: Config, s: State)
    requires FlowInv(c, s)
    ensures Aligned(s)
  {
  }

  // -------------------------------------------------------- the whole invariant

  lemma InitInv(c: Config)
    requires c.Valid()
    ensures Inv(c, Init(c))
  {
    hide ChanInv, PoolInv;
    InitChannels(c);
    InitPool(c);
    forall u ensures FlowAt(Init(c), u) && SlotAt(c, Init(c), u) {
      hide Held;
      FreshTeam<Unit, Unit>(c.calculators, Me, u);
      FreshTeam<Unit, Unit>(c.workerHandlers, Me, u);
    }
  }

  lemma StepInv(c: Config, s: State, step: Step)
    requires Inv(c, s) && Enabled(c, s, step)
    ensures Inv(c, Apply(c, s, step))
  {
    hide ChanInv, PoolInv, DoneInv, PendingInv, FlowAt, SlotAt, FramesInv, QueuedKnown, Aligned, Enabled, Apply;
    StepChannels(c, s, step);
    StepPool(c, s, step);
    StepAligned(c, s, step);
    StepQueuedKnown(c, s, step);
    StepFrames(c, s, step);
    StepFlow(c, s, step);
    StepSlots(c, s, step);
    StepPending(c, s, step);
    StepDone(c, s, step);
  }
}
