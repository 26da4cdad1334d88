/** Deadlock freedom and the end of every run: as long as the responder has not
    met its stop some thread can move, provided no worker registered after
    `stopWorkers`; if one did, the line never ends while that worker lives. */
module MasterProgress {
  import opened Channels
  import opened WorkerLine
  import opened MasterLine
  import opened MasterChannels
  import opened MasterFlow
  import opened MasterFlowSteps
  import opened MasterCompletion
  import opened MasterDrain
  import opened MasterTermination

  /** A live connection that registered too late to be told to stop. */
  ghost predicate Forgotten(s: State, w: nat) {
    w < |s.workers| && w in s.pool && s.workers[w].alive && !s.workers[w].told && s.stopped
  }

  /** No request and no worker will arrive any more. */
  predicate Closed(s: State) { s.acceptor.need == 0 && s.masterServer.need == 0 }

  /** Some thread of the master or of a worker can move. */
  ghost predicate Movable(c: Config, s: State) {
    exists step :: Enabled(c, s, step) && !step.Env?
  }

  lemma Moves(c: Config, s: State, step: Step)
    requires Enabled(c, s, step) && !step.Env?
    ensures Movable(c, s)
  {
  }

  /** A thread of which stops are still awaited waits on an empty queue itself. */
  ghost predicate Starved<T, U>(st: Stage<T>, q: seq<Token<U>>) { st.need > 0 && st.hold == [] && q == [] }

  // ------------------------------------------------- from the acceptor downwards

  /** The Decomposer waits on an empty queue: some handler or the acceptor can move. */
  lemma HandlersMove(c: Config, s: State)
    requires c.Valid() && ChanInv(s) && s.acceptor.need == 0 && Starved(s.decomposer, s.decomposerQueue)
    ensures Movable(c, s)
  {
    hide Movable;
    var i := TeamPending(s.handlers);
    var h := s.handlers[i];
    assert h.Sound();
    if h.hold != [] {
      Moves(c, s, Front(HandlerPut(i)));
    } else if h.need == 0 {
      Moves(c, s, Front(HandlerEnd(i)));
    } else if s.socketsQueue != [] {
      Moves(c, s, Front(HandlerTake(i)));
    } else {
      TeamNeedAt(s.handlers, i);
      Moves(c, s, Front(AcceptorEnd));
    }
  }

  lemma DecomposerMoves(c: Config, s: State)
    requires c.Valid() && ChanInv(s) && s.acceptor.need == 0 && Starved(s.distributor, s.distributorQueue)
    ensures Movable(c, s)
  {
    hide Movable;
    if s.decomposer.hold != [] {
      Moves(c, s, Front(DecomposerPut));
    } else if s.decomposer.need == 0 {
      Moves(c, s, Front(DecomposerEnd));
    } else if s.decomposerQueue != [] {
      Moves(c, s, Front(DecomposerTake));
    } else {
      HandlersMove(c, s);
    }
  }

  /** The unit in the Distributor's hand can go somewhere. */
  lemma HeldUnitMoves(c: Config, s: State)
    requires c.Valid() && PoolInv(s) && s.distributor.hold != [] && s.unitsQueue == []
    ensures Movable(c, s)
  {
    hide Movable, PlacesInv, ReadersInv, WorkerOk;
    match s.pick {
      case Undecided =>
        if s.pool == {} {
          Moves(c, s, Spread(PickLocal));
        } else {
          var w :| w in s.pool;
          Moves(c, s, Spread(PickWorker(w)));
        }
      case Remote(w) =>
        if s.workers[w].alive { Moves(c, s, Spread(SendRemote)); } else { Moves(c, s, Spread(LoseRemote)); }
      case Local => Moves(c, s, Spread(DistributorPut));
    }
  }

  /** The Distributor has not yet emitted all its stops and the calculators'
      queue has room. */
  lemma DistributorMoves(c: Config, s: State)
    requires c.Valid() && ChanInv(s) && PoolInv(s) && s.acceptor.need == 0
    requires s.distributor.emit > 0 && s.unitsQueue == []
    ensures Movable(c, s)
  {
    hide Movable;
    if s.distributor.hold != [] {
      HeldUnitMoves(c, s);
    } else if s.distributor.need == 0 {
      if s.stopped { Moves(c, s, Spread(DistributorEnd)); } else { Moves(c, s, Spread(StopWorkers)); }
    } else if s.distributorQueue != [] {
      Moves(c, s, Spread(DistributorTake));
    } else {
      DecomposerMoves(c, s);
    }
  }

  lemma CalculatorsMove(c: Config, s: State)
    requires c.Valid() && ChanInv(s) && PoolInv(s) && s.acceptor.need == 0
    requires EmitSum(s.calculators) > 0 && s.assemblerQueue == []
    ensures Movable(c, s)
  {
    hide Movable;
    var i := TeamPending(s.calculators);
    assert s.calculators[i].Sound();
    if s.calculators[i].hold != [] {
      Moves(c, s, Spread(CalculatorPut(i)));
    } else if s.calculators[i].need == 0 {
      Moves(c, s, Spread(CalculatorEnd(i)));
    } else if s.unitsQueue != [] {
      Moves(c, s, Spread(CalculatorTake(i)));
    } else {
      TeamNeedAt(s.calculators, i);
      DistributorMoves(c, s);
    }
  }

  // -------------------------------------------------------------- inside a worker

  /** A worker that owes its "-1" and has been told to stop can move by itself. */
  lemma WorkerMoves(w: Worker) returns (step: WorkerStep)
    requires w.alive && Balanced(w, true) && w.responseLink == []
    requires w.told || w.requestLink != [] || w.server.hold != []
    ensures CanStep(w, step)
  {
    if w.client.hold != [] { return ClientPut; }
    if w.client.need == 0 { return ClientEnd; }
    if w.repliesQueue != [] { return ClientTake; }
    var i := TeamPending(w.calculators);
    assert w.calculators[i].Sound();
    if w.calculators[i].hold != [] { return CalcPut(i); }
    if w.calculators[i].need == 0 { return CalcEnd(i); }
    if w.unitsQueue != [] { return CalcTake(i); }
    TeamNeedAt(w.calculators, i);
    if w.server.hold != [] { return WorkerStep.ServerPut; }
    if w.server.need == 0 { return WorkerStep.ServerEnd; }
    return ServerTake;
  }

  /** A handler that still owes its stop, with room in the assembler's queue. */
  lemma ReadersMove(c: Config, s: State)
    requires c.Valid() && ChanInv(s) && PoolInv(s) && Closed(s)
    requires EmitSum(s.readers) > 0 && s.assemblerQueue == []
    requires forall w :: !Forgotten(s, w)
    ensures Movable(c, s)
  {
    hide Movable, Balanced;
    var i := TeamPending(s.readers);
    assert s.readers[i].Sound();
    if s.readers[i].hold != [] {
      Moves(c, s, Link(ReaderPut(i)));
    } else if s.readers[i].need == 0 {
      Moves(c, s, Link(ReaderEnd(i)));
    } else if s.reading[i].Some? {
      ServedIsPooled(s, i);
      ConnectionMoves(c, s, i);
    } else if s.connectionsQueue != [] {
      Moves(c, s, Link(ReaderTake(i)));
    } else {
      TeamNeedAt(s.readers, i);
      if s.masterServer.hold != [] {
        Moves(c, s, Link(LinkStep.ServerPut));
      } else {
        Moves(c, s, Link(LinkStep.ServerEnd));
      }
    }
  }

  lemma ConnectionMoves(c: Config, s: State, i: nat)
    requires c.Valid() && ChanInv(s) && PoolInv(s) && Closed(s) && Attached(s, i) && s.reading[i].value in s.pool
    requires s.assemblerQueue == [] && forall w :: !Forgotten(s, w)
    ensures Movable(c, s)
  {
    hide Movable;
    var w := s.reading[i].value;
    var worker := s.workers[w];
    assert WorkerOk(worker, true) && !Forgotten(s, w);
    if worker.responseLink != [] {
      Moves(c, s, Link(ReaderRead(i)));
    } else if !worker.alive {
      Moves(c, s, Link(ReaderEof(i)));
    } else if worker.told {
      var step := WorkerMoves(worker);
      Moves(c, s, InWorker(w, step));
    } else {
      BeforeStop(c, s);
    }
  }

  /** Before `stopWorkers` the Distributor, or something upstream or downstream
      of its queue, can move. */
  lemma BeforeStop(c: Config, s: State)
    requires c.Valid() && ChanInv(s) && PoolInv(s) && s.acceptor.need == 0 && !s.stopped && s.assemblerQueue == []
    ensures Movable(c, s)
  {
    hide Movable;
    if s.unitsQueue == [] {
      DistributorMoves(c, s);
    } else {
      assert NeedSum(s.calculators) > 0;
      TeamOwes(s.calculators);
      CalculatorsMove(c, s);
    }
  }

  lemma {:induction false} TeamOwes<T>(g: seq<Stage<T>>)
    requires AllSound(g) && NeedSum(g) > 0
    ensures EmitSum(g) > 0
  {
    if EmitSum(g) == 0 { TeamSpent(g); }
  }

  // ---------------------------------------------------------------- the whole line

  /** With every capacity at least one, after the servers stopped listening and for
      any number of threads and workers, some thread can move until the responder
      has met its stop, unless a live connection was forgotten. */
  lemma MovesUnlessForgotten(c: Config, s: State)
    requires c.Valid() && Reachable(c, s) && Closed(s) && s.responding
    requires forall w :: !Forgotten(s, w)
    ensures Movable(c, s)
  {
    ReachableInv(c, s);
    hide Movable, FlowInv, PendingInv, DoneInv, PoolInv;
    if s.responderQueue != [] {
      Moves(c, s, Back(Respond));
    } else if s.assembler.hold != [] {
      Moves(c, s, Back(AssemblerPut));
    } else if s.assembler.need == 0 {
      Moves(c, s, Back(AssemblerEnd));
    } else if s.assemblerQueue != [] {
      Moves(c, s, Back(AssemblerTake));
    } else if EmitSum(s.calculators) > 0 {
      CalculatorsMove(c, s);
    } else {
      ReadersMove(c, s);
    }
  }

  /** A worker that has sent "-1" had been told to. */
  lemma SpokenWasTold(w: Worker)
    requires Balanced(w, true) && Stops(w.responseLink) > 0
    ensures w.told
  {
    ChanDrained(w.repliesQueue, EmitSum(w.calculators));
    TeamSpent(w.calculators);
    ChanDrained(w.unitsQueue, w.server.emit);
    ChanDrained(w.requestLink, if w.told then 0 else 1);
  }

  predicate Kills(step: Step, w: nat) { step.Env? && step.env.WorkerDies? && step.env.w == w }

  /** While a forgotten worker lives no step brings it back: it is never told
      to stop and stays registered. */
  lemma ForgottenStays(c: Config, s: State, step: Step, w: nat)
    requires Inv(c, s) && Enabled(c, s, step) && Forgotten(s, w)
    requires !Kills(step, w)
    ensures Forgotten(Apply(c, s, step), w)
  {
    hide FlowInv, PendingInv, DoneInv, ChanInv, PoolInv, Forgotten, CanStep, AfterStep;
    hide EnvEnabled, EnvApply, FrontEnabled, FrontApply, SpreadEnabled, SpreadApply;
    hide LinkEnabled, LinkApply, BackEnabled, BackApply;
    match step {
      case Env(e) => ForgottenEnv(s, e, w);
      case Front(f) => ForgottenFront(c, s, f, w);
      case Spread(d) => ForgottenSpread(c, s, d, w);
      case Link(l) => ForgottenLink(c, s, l, w);
      case Back(b) => ForgottenBack(c, s, b, w);
      case InWorker(v, ws) => ForgottenInner(c, s, v, ws, w);
    }
  }

  lemma ForgottenEnv(s: State, step: EnvStep, w: nat)
    requires PoolInv(s) && EnvEnabled(s, step) && Forgotten(s, w) && !(step.WorkerDies? && step.w == w)
    ensures Forgotten(EnvApply(s, step), w)
  {
    hide PlacesInv, ReadersInv, WorkerOk, Dead, LostUnits;
  }

  lemma ForgottenFront(c: Config, s: State, step: FrontStep, w: nat)
    requires FrontEnabled(c, s, step) && Forgotten(s, w)
    ensures Forgotten(FrontApply(c, s, step), w)
  {
    hide FrontApply, FrontEnabled;
    FrontPool(c, s, step);
  }

  lemma ForgottenBack(c: Config, s: State, step: BackStep, w: nat)
    requires BackEnabled(c, s, step) && Forgotten(s, w)
    ensures Forgotten(BackApply(c, s, step), w)
  {
    hide BackApply, BackEnabled;
    BackPool(c, s, step);
  }

  lemma ForgottenInner(c: Config, s: State, v: nat, step: WorkerStep, w: nat)
    requires PoolInv(s) && Enabled(c, s, InWorker(v, step)) && Forgotten(s, w)
    ensures Forgotten(Apply(c, s, InWorker(v, step)), w)
  {
    hide PlacesInv, ReadersInv, Balanced, AfterStep;
    assert WorkerOk(s.workers[w], true);
    if v == w { StepBalanced(s.workers[w], step, c.compute, true); }
  }

  lemma ForgottenSpread(c: Config, s: State, step: SpreadStep, w: nat)
    requires ChanInv(s) && SpreadEnabled(c, s, step) && Forgotten(s, w)
    ensures Forgotten(SpreadApply(c, s, step), w)
  {
    hide Take, Put, End, Fill;
  }

  lemma ForgottenLink(c: Config, s: State, step: LinkStep, w: nat)
    requires PoolInv(s) && LinkEnabled(c, s, step) && Forgotten(s, w)
    ensures Forgotten(LinkApply(c, s, step), w)
  {
    hide PlacesInv;
    if step.ReaderRead? && s.reading[step.i].value == w && s.workers[w].responseLink[0].Stop? {
      assert WorkerOk(s.workers[w], true);
      SpokenWasTold(s.workers[w]);
    }
  }

  /** When no thread can move and nothing more will arrive, the server has shut
      down exactly when no worker was forgotten. */
  lemma StuckUnlessForgotten(c: Config, s: State)
    requires c.Valid() && Reachable(c, s) && Closed(s) && !Movable(c, s)
    ensures !s.responding <==> forall w :: !Forgotten(s, w)
  {
    if !s.responding {
      DrainTheorem(c, s);
    } else if forall w :: !Forgotten(s, w) {
      MovesUnlessForgotten(c, s);
    }
  }

  /** A worker that registered after `stopWorkers` keeps the server from ending
      in every continuation in which it does not die. */
  lemma {:induction false} ForgottenNeverEnds(c: Config, s: State, steps: seq<Step>, last: State, w: nat)
    requires Inv(c, s) && Forgotten(s, w) && Run(c, s, steps, last)
    requires forall i :: 0 <= i < |steps| ==> !Kills(steps[i], w)
    ensures last.responding && Forgotten(last, w)
    decreases |steps|
  {
    hide Inv, Enabled, Apply, Forgotten;
    if steps == [] {
      ForgottenBlocks(c, s, w);
    } else {
      StepInv(c, s, steps[0]);
      assert !Kills(steps[0], w);
      ForgottenStays(c, s, steps[0], w);
      assert forall i :: 0 <= i < |steps[1..]| ==> steps[1..][i] == steps[i + 1];
      ForgottenNeverEnds(c, Apply(c, s, steps[0]), steps[1..], last, w);
    }
  }

  lemma ForgottenBlocks(c: Config, s: State, w: nat)
    requires Inv(c, s) && Forgotten(s, w)
    ensures s.responding
  {
    if !s.responding { WorkersQuiet(s); }
  }

  lemma RunExtends(c: Config, s0: State, steps: seq<Step>, s: State, step: Step)
    requires Run(c, s0, steps, s) && Enabled(c, s, step)
    ensures Run(c, s0, steps + [step], Apply(c, s, step))
    decreases |steps|
  {
    hide Enabled, Apply;
    if steps == [] {
      assert (steps + [step])[1..] == [];
    } else {
      assert (steps + [step])[1..] == steps[1..] + [step];
      RunExtends(c, Apply(c, s0, steps[0]), steps[1..], s, step);
    }
  }

  lemma ReachableNext(c: Config, s: State, step: Step)
    requires Reachable(c, s) && Enabled(c, s, step)
    ensures Reachable(c, Apply(c, s, step))
  {
    hide Enabled, Apply, Run;
    var steps :| Run(c, Init(c), steps, s);
    RunExtends(c, Init(c), steps, s, step);
  }

  // ------------------------------------------------------------ every schedule

  /** The `n`-th step of the schedule is one of a thread and leads to the next state. */
  ghost predicate Follows(c: Config, trace: nat -> State, steps: nat -> Step, n: nat) {
    Enabled(c, trace(n), steps(n)) && !steps(n).Env? && trace(n + 1) == Apply(c, trace(n), steps(n))
  }

  /** No schedule goes on forever once the environment is silent. */
  lemma NoEndlessRun(c: Config, trace: nat -> State, steps: nat -> Step)
    requires Inv(c, trace(0))
    ensures exists n :: !Follows(c, trace, steps, n)
  {
    hide Inv, Follows;
    if forall n :: Follows(c, trace, steps, n) { EndsLater(c, trace, steps, 0); }
  }

  lemma {:induction false} EndsLater(c: Config, trace: nat -> State, steps: nat -> Step, n: nat)
    requires Inv(c, trace(n))
    ensures exists k :: !Follows(c, trace, steps, k)
    decreases FrontWeight(trace(n)), RearWeight(trace(n))
  {
    hide Inv, Enabled, Apply;
    if Follows(c, trace, steps, n) {
      StepLighter(c, trace(n), steps(n));
      StepInv(c, trace(n), steps(n));
      EndsLater(c, trace, steps, n + 1);
    }
  }

  /** Steps of threads only. */
  ghost predicate Silent(steps: seq<Step>) { forall i :: 0 <= i < |steps| ==> !steps[i].Env? }

  lemma SilentPush(steps: seq<Step>, step: Step)
    requires Silent(steps) && !step.Env?
    ensures Silent(steps + [step])
  {
  }

  /** Any movable thread moves, until none can. */
  lemma RunUntilStuck(c: Config, start: State) returns (steps: seq<Step>, s: State)
    requires Inv(c, start)
    ensures Run(c, start, steps, s) && Silent(steps) && !Movable(c, s)
  {
    hide Inv, Run, Silent;
    steps, s := [], start;
    EmptyRun(c, start);
    while Movable(c, s)
      invariant Inv(c, s) && Run(c, start, steps, s) && Silent(steps)
      decreases FrontWeight(s), RearWeight(s)
    {
      var step :| Enabled(c, s, step) && !step.Env?;
      StepLighter(c, s, step);
      StepInv(c, s, step);
      RunExtends(c, start, steps, s, step);
      SilentPush(steps, step);
      steps, s := steps + [step], Apply(c, s, step);
    }
  }

  lemma EmptyRun(c: Config, s: State)
    ensures Run(c, s, [], s) && Silent([])
  {
  }

  lemma {:induction false} SilentClosed(c: Config, start: State, steps: seq<Step>, s: State)
    requires Closed(start) && Run(c, start, steps, s) && Silent(steps)
    ensures Closed(s)
    decreases |steps|
  {
    hide Enabled, Apply;
    if steps != [] {
      StaysClosed(c, start, steps[0]);
      SilentClosed(c, Apply(c, start, steps[0]), steps[1..], s);
    }
  }

  lemma StaysClosed(c: Config, s: State, step: Step)
    requires Closed(s) && Enabled(c, s, step) && !step.Env?
    ensures Closed(Apply(c, s, step))
  {
    hide Enabled, Apply;
    ServersStay(c, s, step);
  }

  /** Only the environment makes the two servers accept or stop accepting. */
  ghost predicate SameServers(s: State, s': State) {
    && s'.acceptor.need == s.acceptor.need && s'.masterServer.need == s.masterServer.need
    && (s.masterServer.CanTake() ==> s'.masterServer == s.masterServer)
  }

  lemma ServersStay(c: Config, s: State, step: Step)
    requires Enabled(c, s, step) && !step.Env?
    ensures SameServers(s, Apply(c, s, step))
  {
    hide FrontApply, SpreadApply, LinkApply, BackApply, SameServers, CanStep, AfterStep;
    hide FrontEnabled, SpreadEnabled, LinkEnabled, BackEnabled;
    match step {
      case Front(f) => FrontServers(c, s, f);
      case Spread(d) => SpreadServers(c, s, d);
      case Link(l) => LinkServers(c, s, l);
      case Back(b) => BackServers(c, s, b);
      case InWorker(w, ws) => InnerServers(c, s, w, ws);
    }
  }

  lemma FrontServers(c: Config, s: State, step: FrontStep)
    requires FrontEnabled(c, s, step)
    ensures SameServers(s, FrontApply(c, s, step))
  {
    hide Decompose, Blank;
  }

  lemma SpreadServers(c: Config, s: State, step: SpreadStep)
    requires SpreadEnabled(c, s, step)
    ensures SameServers(s, SpreadApply(c, s, step))
  {
    hide Take, Put, End, Fill, TellWorkers;
  }

  lemma LinkServers(c: Config, s: State, step: LinkStep)
    requires LinkEnabled(c, s, step)
    ensures SameServers(s, LinkApply(c, s, step))
  {
    hide Take, Fill;
  }

  lemma BackServers(c: Config, s: State, step: BackStep)
    requires BackEnabled(c, s, step)
    ensures SameServers(s, BackApply(c, s, step))
  {
    hide Take, Put, End;
  }

  lemma InnerServers(c: Config, s: State, w: nat, step: WorkerStep)
    requires Enabled(c, s, InWorker(w, step))
    ensures SameServers(s, Apply(c, s, InWorker(w, step)))
  {
    hide CanStep, AfterStep;
  }

  // --------------------------------------------------------- before `stopWorkers`

  /** Once no client is accepted any more some thread can move until
      `stopWorkers` has been called, with any number of workers connected. */
  lemma MovesUntilStop(c: Config, s: State)
    requires c.Valid() && Reachable(c, s) && s.acceptor.need == 0 && !s.stopped
    ensures Movable(c, s)
  {
    ReachableInv(c, s);
    hide Movable, FlowInv, PendingInv, DoneInv, PoolInv;
    if s.assemblerQueue == [] {
      BeforeStop(c, s);
    } else if s.assembler.hold == [] {
      AssemblerAwake(s);
      Moves(c, s, Back(AssemblerTake));
    } else if s.responderQueue == [] {
      Moves(c, s, Back(AssemblerPut));
    } else {
      RespondingStill(s);
      Moves(c, s, Back(Respond));
    }
  }

  lemma AssemblerAwake(s: State)
    requires ChanInv(s) && s.assemblerQueue != []
    ensures s.assembler.need > 0
  {
    if s.assembler.need == 0 { ChanDrained(s.assemblerQueue, EmitSum(s.calculators) + EmitSum(s.readers)); }
  }

  /** The responder runs while the assembler has not stopped. */
  lemma RespondingStill(s: State)
    requires ChanInv(s) && s.assembler.hold != []
    ensures s.responding
  {
    if !s.responding { ChanDrained<nat>(s.responderQueue, s.assembler.emit); }
  }

  /** The master still listens for workers and has no connection in hand. */
  predicate Listening(s: State) { s.masterServer.CanTake() }

  lemma StaysListening(c: Config, s: State, step: Step)
    requires Enabled(c, s, step) && !step.Env? && Listening(s) && s.acceptor.need == 0
    ensures Listening(Apply(c, s, step)) && Apply(c, s, step).acceptor.need == 0
  {
    hide Enabled, Apply;
    ServersStay(c, s, step);
  }
}
