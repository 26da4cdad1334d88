/** What a run tells about its end: the workers that registered after `stopWorkers`
    are the only ones that can keep the server from ending, and a request whose unit
    was lost is never answered. */
module MasterHistory {
  import opened Channels
  import opened WorkerLine
  import opened MasterLine
  import opened MasterChannels
  import opened MasterFlow
  import opened MasterFlowSteps
  import opened MasterCompletion
  import opened MasterDrain
  import opened MasterTermination
  import opened MasterProgress

  // ------------------------------------------------------ what makes a late worker

  predicate Joins(step: Step) { step.Env? && step.env.WorkerConnects? }

  predicate LivesAt(s: State, w: nat) { w < |s.workers| && s.workers[w].alive }

  /** In this run worker `w` registers after `stopWorkers`. */
  ghost predicate JoinsLate(c: Config, s: State, steps: seq<Step>, w: nat)
    decreases |steps|
  {
    && steps != [] && Enabled(c, s, steps[0])
    && ((Joins(steps[0]) && s.stopped && w == |s.workers|) || JoinsLate(c, Apply(c, s, steps[0]), steps[1..], w))
  }

  /** Nothing that decides about forgotten workers has changed, except that
      connections may have left the pool. */
  ghost predicate SameStanding(s: State, s': State) {
    && |s'.workers| == |s.workers| && s'.stopped == s.stopped && s'.pool <= s.pool
    && forall w :: 0 <= w < |s.workers| ==>
         s'.workers[w].alive == s.workers[w].alive && s'.workers[w].told == s.workers[w].told
  }

  lemma InnerStanding(c: Config, s: State, w: nat, step: WorkerStep)
    requires Enabled(c, s, InWorker(w, step))
    ensures SameStanding(s, Apply(c, s, InWorker(w, step)))
  {
    hide Take, Put, End, Solve;
  }

  lemma SpreadStanding(c: Config, s: State, step: SpreadStep)
    requires SpreadEnabled(c, s, step) && !step.StopWorkers?
    ensures SameStanding(s, SpreadApply(c, s, step))
  {
    hide Take, Put, End, Fill, TellWorkers;
  }

  lemma LinkStanding(c: Config, s: State, step: LinkStep)
    requires LinkEnabled(c, s, step)
    ensures SameStanding(s, LinkApply(c, s, step))
  {
    hide Take, Put, End, Fill, SameStanding, ReaderReads;
    if step.ReaderRead? { ReadStanding(s, step.i); } else { SameWorkers(s, LinkApply(c, s, step)); }
  }

  lemma ReadStanding(s: State, i: nat)
    requires Attached(s, i) && s.workers[s.reading[i].value].responseLink != []
    ensures SameStanding(s, ReaderReads(s, i))
  {
    hide Fill;
  }

  lemma SameWorkers(s: State, s': State)
    requires s'.workers == s.workers && s'.stopped == s.stopped && s'.pool <= s.pool
    ensures SameStanding(s, s')
  {
  }

  lemma StepStanding(c: Config, s: State, step: Step)
    requires Enabled(c, s, step) && !step.Env? && step != Spread(StopWorkers)
    ensures SameStanding(s, Apply(c, s, step))
  {
    hide FrontApply, SpreadApply, LinkApply, BackApply, CanStep, AfterStep;
    hide FrontEnabled, SpreadEnabled, LinkEnabled, BackEnabled;
    match step {
      case Front(f) => FrontPool(c, s, f);
      case Spread(d) => SpreadStanding(c, s, d);
      case Link(l) => LinkStanding(c, s, l);
      case Back(b) => BackPool(c, s, b);
      case InWorker(w, ws) => InnerStanding(c, s, w, ws);
    }
  }

  /** `stopWorkers` tells every pooled worker, dead ones included. */
  lemma StopTellsAll(c: Config, s: State)
    requires SpreadEnabled(c, s, StopWorkers)
    ensures var s' := SpreadApply(c, s, StopWorkers);
            && |s'.workers| == |s.workers| && s'.pool == s.pool && s'.stopped
            && forall w :: 0 <= w < |s.workers| ==>
                 s'.workers[w].alive == s.workers[w].alive && (w in s.pool ==> s'.workers[w].told)
  {
  }

  /** The environment adds a worker at the end or kills one. */
  lemma EnvStanding(s: State, step: EnvStep)
    requires EnvEnabled(s, step)
    ensures var s' := EnvApply(s, step);
            && |s'.workers| == |s.workers| + (if step.WorkerConnects? then 1 else 0) && s'.stopped == s.stopped
            && s'.pool == s.pool + (if step.WorkerConnects? then {|s.workers|} else {})
            && (step.WorkerConnects? ==> s'.workers[|s.workers|].alive && !s'.workers[|s.workers|].told)
            && forall w :: 0 <= w < |s.workers| ==>
                 && (s'.workers[w].alive <==> s.workers[w].alive && !(step.WorkerDies? && step.w == w))
                 && s'.workers[w].told == s.workers[w].told
  {
    hide LostUnits;
  }

  /** A worker becomes forgotten in one way only: it registers after `stopWorkers`. */
  lemma ForgottenArises(c: Config, s: State, step: Step, w: nat)
    requires Enabled(c, s, step) && !Forgotten(s, w) && Forgotten(Apply(c, s, step), w)
    ensures Joins(step) && s.stopped && w == |s.workers|
  {
    hide EnvApply, FrontApply, SpreadApply, LinkApply, BackApply, CanStep, AfterStep;
    hide EnvEnabled, FrontEnabled, SpreadEnabled, LinkEnabled, BackEnabled;
    if step.Env? {
      EnvStanding(s, step.env);
    } else if step == Spread(StopWorkers) {
      StopTellsAll(c, s);
    } else {
      StepStanding(c, s, step);
    }
  }

  lemma LateIsForgotten(c: Config, s: State, step: Step)
    requires Enabled(c, s, step) && Joins(step) && s.stopped
    ensures Forgotten(Apply(c, s, step), |s.workers|)
  {
    hide EnvApply;
    EnvStanding(s, step.env);
  }

  /** The dead stay dead, and no step but a death ends a life. */
  lemma DeadStays(c: Config, s: State, step: Step, w: nat)
    requires Enabled(c, s, step) && w < |s.workers|
    ensures LivesAt(Apply(c, s, step), w) <==> LivesAt(s, w) && !Kills(step, w)
    ensures |s.workers| <= |Apply(c, s, step).workers|
  {
    hide EnvApply, FrontApply, SpreadApply, LinkApply, BackApply, CanStep, AfterStep;
    hide EnvEnabled, FrontEnabled, SpreadEnabled, LinkEnabled, BackEnabled;
    if step.Env? {
      EnvStanding(s, step.env);
    } else if step == Spread(StopWorkers) {
      StopTellsAll(c, s);
    } else {
      StepStanding(c, s, step);
    }
  }

  lemma {:induction false} DeadForever(c: Config, s: State, steps: seq<Step>, last: State, w: nat)
    requires Run(c, s, steps, last) && w < |s.workers| && !s.workers[w].alive
    ensures !LivesAt(last, w)
    decreases |steps|
  {
    hide Enabled, Apply;
    if steps != [] {
      DeadStays(c, s, steps[0], w);
      DeadForever(c, Apply(c, s, steps[0]), steps[1..], last, w);
    }
  }

  /** One step of the next lemma. */
  lemma StepForgotten(c: Config, s: State, step: Step, w: nat)
    requires Inv(c, s) && Enabled(c, s, step) && (w < |s.workers| ==> LivesAt(Apply(c, s, step), w))
    ensures Forgotten(Apply(c, s, step), w) <==> Forgotten(s, w) || (Joins(step) && s.stopped && w == |s.workers|)
  {
    hide Inv, Forgotten, Enabled, Apply;
    if Forgotten(s, w) {
      ForgottenLives(s, w);
      DeadStays(c, s, step, w);
      ForgottenStays(c, s, step, w);
    } else if Forgotten(Apply(c, s, step), w) {
      ForgottenArises(c, s, step, w);
    } else if Joins(step) && s.stopped {
      LateIsForgotten(c, s, step);
    }
  }

  lemma ForgottenLives(s: State, w: nat)
    requires Forgotten(s, w)
    ensures LivesAt(s, w)
  {
  }

  /** The forgotten workers at the end of a run are those that were forgotten at its
      start or registered late in it, as far as they live. */
  lemma {:induction false} ForgottenExactly(c: Config, s: State, steps: seq<Step>, last: State, w: nat)
    requires Inv(c, s) && Run(c, s, steps, last)
    ensures Forgotten(last, w) <==> LivesAt(last, w) && (Forgotten(s, w) || JoinsLate(c, s, steps, w))
    decreases |steps|
  {
    hide Inv, Forgotten, Enabled, Apply, LivesAt;
    if steps == [] {
      if Forgotten(s, w) { ForgottenLives(s, w); }
    } else {
      var step := steps[0];
      var next := Apply(c, s, step);
      StepInv(c, s, step);
      ForgottenExactly(c, next, steps[1..], last, w);
      if w < |s.workers| && !LivesAt(next, w) {
        DeadStays(c, s, step, w);
        Fallen(next, w);
        DeadForever(c, next, steps[1..], last, w);
      } else {
        StepForgotten(c, s, step, w);
      }
    }
  }

  lemma Fallen(s: State, w: nat)
    requires w < |s.workers| && !LivesAt(s, w)
    ensures !s.workers[w].alive
  {
  }

  /** Some worker that registered after `stopWorkers` still lives at the end. */
  ghost predicate LateWorkerLives(c: Config, steps: seq<Step>, last: State) {
    exists w :: JoinsLate(c, Init(c), steps, w) && LivesAt(last, w)
  }

  lemma LateAndForgotten(c: Config, steps: seq<Step>, s: State)
    requires c.Valid() && Run(c, Init(c), steps, s)
    ensures Reachable(c, s) && Inv(c, s)
    ensures LateWorkerLives(c, steps, s) <==> exists w :: Forgotten(s, w)
  {
    hide Run, JoinsLate, Inv, LivesAt;
    InitInv(c);
    assert Reachable(c, s);
    ReachableInv(c, s);
    forall w ensures Forgotten(s, w) <==> LivesAt(s, w) && JoinsLate(c, Init(c), steps, w) {
      ForgottenExactly(c, Init(c), steps, s, w);
    }
  }

  // -------------------------------------------------- deadlock freedom over runs

  /** Deadlock freedom. After any run, once no client and no worker is accepted any
      more, some thread can move until the responder has met its stop, for any
      capacities and any number of threads and workers, unless a worker that
      registered after `stopWorkers` still lives. */
  lemma DeadlockFree(c: Config, steps: seq<Step>, s: State)
    requires c.Valid() && Run(c, Init(c), steps, s) && Closed(s) && s.responding
    requires !LateWorkerLives(c, steps, s)
    ensures Movable(c, s)
  {
    hide Run, Forgotten, LateWorkerLives, Reachable, Movable;
    LateAndForgotten(c, steps, s);
    MovesUnlessForgotten(c, s);
  }

  /** When no thread can move and nothing more will arrive, the server has shut down
      completely exactly when every worker that registered after `stopWorkers` has
      died. */
  lemma StuckOrDone(c: Config, steps: seq<Step>, s: State)
    requires c.Valid() && Run(c, Init(c), steps, s) && Closed(s) && !Movable(c, s)
    ensures !s.responding <==> !LateWorkerLives(c, steps, s)
    ensures !s.responding ==> Quiet(s)
  {
    hide Run, Forgotten, LateWorkerLives, Reachable, Movable, Quiet;
    LateAndForgotten(c, steps, s);
    StuckUnlessForgotten(c, s);
    if !s.responding { DrainTheorem(c, s); }
  }

  /** The condition a caller can keep: nobody registers after `stopWorkers`. */
  lemma PromptWorkersDrain(c: Config, steps: seq<Step>, s: State)
    requires c.Valid() && Run(c, Init(c), steps, s) && Closed(s) && !Movable(c, s)
    requires forall w :: !JoinsLate(c, Init(c), steps, w)
    ensures !s.responding && Quiet(s)
  {
    hide Run, Movable, Quiet, JoinsLate;
    StuckOrDone(c, steps, s);
  }

  /** Once the environment is silent every schedule has the same outcome, decided by
      the state at that moment. */
  lemma SilentOutcome(c: Config, start: State, steps: seq<Step>, s: State)
    requires c.Valid() && Reachable(c, start) && Closed(start)
    requires Run(c, start, steps, s) && Silent(steps) && !Movable(c, s)
    ensures !s.responding <==> forall w :: !Forgotten(start, w)
    ensures !s.responding ==> Quiet(s)
  {
    hide Inv, Movable, Forgotten, Quiet, Closed, Run;
    ReachableInv(c, start);
    SilentClosed(c, start, steps, s);
    RunReaches(c, start, steps, s);
    StuckUnlessForgotten(c, s);
    forall w ensures Forgotten(s, w) <==> Forgotten(start, w) { SilentForgotten(c, start, steps, s, w); }
    if !s.responding { DrainTheorem(c, s); }
  }

  /** A scheduler with no fairness assumption reaches that outcome. */
  lemma RunToEnd(c: Config, start: State) returns (steps: seq<Step>, s: State)
    requires c.Valid() && Reachable(c, start) && Closed(start)
    ensures Run(c, start, steps, s) && Silent(steps) && Reachable(c, s) && !Movable(c, s)
    ensures !s.responding <==> forall w :: !Forgotten(start, w)
    ensures !s.responding <==> forall w :: !Forgotten(s, w)
    ensures !s.responding ==> Quiet(s)
  {
    hide Inv, Movable, Forgotten, Quiet, Closed, Run, Reachable, Silent;
    ReachableInv(c, start);
    steps, s := RunUntilStuck(c, start);
    SilentOutcome(c, start, steps, s);
    RunReaches(c, start, steps, s);
    SilentClosed(c, start, steps, s);
    StuckUnlessForgotten(c, s);
  }

  lemma {:induction false} SilentForgotten(c: Config, start: State, steps: seq<Step>, s: State, w: nat)
    requires Inv(c, start) && Run(c, start, steps, s) && Silent(steps)
    ensures Forgotten(s, w) <==> Forgotten(start, w)
    decreases |steps|
  {
    hide Inv, Enabled, Apply, Forgotten;
    if steps != [] {
      StepInv(c, start, steps[0]);
      if Forgotten(start, w) {
        ForgottenStays(c, start, steps[0], w);
      } else if Forgotten(Apply(c, start, steps[0]), w) {
        ForgottenArises(c, start, steps[0], w);
      }
      SilentForgotten(c, Apply(c, start, steps[0]), steps[1..], s, w);
    }
  }

  lemma {:induction false} RunJoin(c: Config, a: State, first: seq<Step>, b: State, second: seq<Step>, last: State)
    requires Run(c, a, first, b) && Run(c, b, second, last)
    ensures Run(c, a, first + second, last)
    decreases |first|
  {
    hide Enabled, Apply;
    if first == [] {
      assert first + second == second;
    } else {
      assert (first + second)[1..] == first[1..] + second;
      RunJoin(c, Apply(c, a, first[0]), first[1..], b, second, last);
    }
  }

  lemma RunReaches(c: Config, start: State, steps: seq<Step>, s: State)
    requires Reachable(c, start) && Run(c, start, steps, s)
    ensures Reachable(c, s)
  {
    hide Run;
    var before :| Run(c, Init(c), before, start);
    RunJoin(c, Init(c), before, start, steps, s);
  }

  // ------------------------------------------------------- a late worker is real

  lemma {:induction false} JoinsAtEnd(c: Config, start: State, steps: seq<Step>, s: State, step: Step)
    requires Run(c, start, steps, s) && Enabled(c, s, step) && Joins(step) && s.stopped
    ensures JoinsLate(c, start, steps + [step], |s.workers|)
    decreases |steps|
  {
    hide Enabled, Apply;
    if steps == [] {
      assert (steps + [step])[0] == step;
    } else {
      assert (steps + [step])[1..] == steps[1..] + [step];
      JoinsAtEnd(c, Apply(c, start, steps[0]), steps[1..], s, step);
    }
  }

  /** From every reachable state in which no client is accepted any more but workers
      still are, some run calls `stopWorkers` and then registers a worker, which is
      never told to stop. */
  lemma LateWorker(c: Config, start: State) returns (steps: seq<Step>, s: State, w: nat)
    requires c.Valid() && Reachable(c, start) && start.acceptor.need == 0 && Listening(start)
    ensures Run(c, start, steps, s) && JoinsLate(c, start, steps, w) && Forgotten(s, w)
  {
    hide Reachable, Movable, Run;
    steps, s := [], start;
    EmptyRun(c, start);
    while !s.stopped
      invariant Run(c, start, steps, s) && Reachable(c, s) && s.acceptor.need == 0 && Listening(s)
      decreases FrontWeight(s), RearWeight(s)
    {
      var step := SomeMove(c, s);
      StaysListening(c, s, step);
      RunExtends(c, start, steps, s, step);
      steps, s := steps + [step], Apply(c, s, step);
    }
    var joins := Env(WorkerConnects(1, 1));
    w := |s.workers|;
    RunExtends(c, start, steps, s, joins);
    JoinsAtEnd(c, start, steps, s, joins);
    LateIsForgotten(c, s, joins);
    steps, s := steps + [joins], Apply(c, s, joins);
  }

  lemma SomeMove(c: Config, s: State) returns (step: Step)
    requires c.Valid() && Reachable(c, s) && s.acceptor.need == 0 && !s.stopped
    ensures Enabled(c, s, step) && !step.Env? && Reachable(c, Apply(c, s, step))
    ensures Lighter(Apply(c, s, step), s)
  {
    MovesUntilStop(c, s);
    hide Inv, Reachable, Enabled, Apply, Lighter;
    step :| Enabled(c, s, step) && !step.Env?;
    ReachableInv(c, s);
    StepLighter(c, s, step);
    ReachableNext(c, s, step);
  }

  /** Every configuration has such a run: stop accepting clients at once. */
  lemma LateWorkerFromStart(c: Config) returns (steps: seq<Step>, s: State)
    requires c.Valid()
    ensures Run(c, Init(c), steps, s) && LateWorkerLives(c, steps, s)
  {
    var first := Env(StopAccepting);
    EmptyRun(c, Init(c));
    assert Reachable(c, Init(c));
    RunExtends(c, Init(c), [], Init(c), first);
    assert [] + [first] == [first];
    ReachableNext(c, Init(c), first);
    var start := Apply(c, Init(c), first);
    var others, w;
    others, s, w := LateWorker(c, start);
    hide Forgotten, Run, JoinsLate;
    RunJoin(c, Init(c), [first], start, others, s);
    steps := [first] + others;
    JoinsLater(c, Init(c), first, others, w);
    ForgottenLives(s, w);
  }

  lemma JoinsLater(c: Config, s: State, step: Step, others: seq<Step>, w: nat)
    requires Enabled(c, s, step) && JoinsLate(c, Apply(c, s, step), others, w)
    ensures JoinsLate(c, s, [step] + others, w)
  {
    hide Enabled, Apply;
    assert ([step] + others)[1..] == others;
  }

  // ------------------------------------------------------- a lost unit is final

  /** Tables only grow and what is lost stays lost. */
  ghost predicate Grown(s: State, s': State) { s.lost <= s'.lost && s.queries <= s'.queries }

  lemma EnvGrown(s: State, step: EnvStep)
    requires EnvEnabled(s, step)
    ensures Grown(s, EnvApply(s, step))
  {
    hide LostUnits, Dead, NewWorker;
  }

  lemma FrontGrown(c: Config, s: State, step: FrontStep)
    requires FrontEnabled(c, s, step)
    ensures Grown(s, FrontApply(c, s, step))
  {
    hide Take, Put, End, Decompose, Blank;
  }

  lemma SpreadGrown(c: Config, s: State, step: SpreadStep)
    requires SpreadEnabled(c, s, step)
    ensures Grown(s, SpreadApply(c, s, step))
  {
    hide Take, Put, End, Fill, TellWorkers;
  }

  lemma LinkGrown(c: Config, s: State, step: LinkStep)
    requires LinkEnabled(c, s, step)
    ensures Grown(s, LinkApply(c, s, step))
  {
    hide Take, Put, End, Fill;
  }

  lemma BackGrown(c: Config, s: State, step: BackStep)
    requires BackEnabled(c, s, step)
    ensures Grown(s, BackApply(c, s, step))
  {
    hide Take, Put, End;
  }

  lemma StepGrown(c: Config, s: State, step: Step)
    requires Enabled(c, s, step)
    ensures Grown(s, Apply(c, s, step))
  {
    hide Grown, EnvApply, FrontApply, SpreadApply, LinkApply, BackApply, CanStep, AfterStep;
    hide EnvEnabled, FrontEnabled, SpreadEnabled, LinkEnabled, BackEnabled;
    match step {
      case Env(e) => EnvGrown(s, e);
      case Front(f) => FrontGrown(c, s, f);
      case Spread(d) => SpreadGrown(c, s, d);
      case Link(l) => LinkGrown(c, s, l);
      case Back(b) => BackGrown(c, s, b);
      case InWorker(w, ws) => assert Grown(s, Apply(c, s, step)) by { NothingGrown(s, Apply(c, s, step)); }
    }
  }

  lemma NothingGrown(s: State, s': State)
    requires s'.lost == s.lost && s'.queries == s.queries
    ensures Grown(s, s')
  {
  }

  lemma {:induction false} RunGrown(c: Config, s: State, steps: seq<Step>, last: State)
    requires Run(c, s, steps, last)
    ensures Grown(s, last)
    decreases |steps|
  {
    hide Enabled, Apply;
    if steps != [] {
      StepGrown(c, s, steps[0]);
      RunGrown(c, Apply(c, s, steps[0]), steps[1..], last);
    }
  }

  lemma LostNotAnswered(c: Config, s: State, u: Unit)
    requires Inv(c, s) && Lost(s, u) > 0
    ensures Known(s.queries, u) && Tally(s.answers, DatumOf, u.datum) == 0
  {
    hide Waiting, SlotAt, FramesInv, ChanInv, PoolInv, Tally, Held, Queued;
    assert FlowAt(s, u) && AnswerAt(s, u.datum);
    SomeRemaining(s.consumed, u.datum, |s.queries[u.datum]|, u.index);
  }

  /** A datum one of whose units was lost is never answered, however the run goes on. */
  lemma LostNeverAnswered(c: Config, s: State, steps: seq<Step>, last: State, u: Unit)
    requires Inv(c, s) && Lost(s, u) > 0 && Run(c, s, steps, last)
    ensures Known(last.queries, u) && Lost(last, u) > 0 && Tally(last.answers, DatumOf, u.datum) == 0
  {
    hide Inv, Run, Known;
    RunInv(c, s, steps, last);
    RunGrown(c, s, steps, last);
    assert last.lost == s.lost + last.lost[|s.lost|..];
    TallyConcat(s.lost, last.lost[|s.lost|..], Me, u);
    LostNotAnswered(c, last, u);
  }

  // ---------------------------------------------------- a request that is lost

  lemma Go(c: Config, steps: seq<Step>, s: State, step: Step) returns (more: seq<Step>, next: State)
    requires Run(c, Init(c), steps, s) && Enabled(c, s, step)
    ensures Run(c, Init(c), more, next) && next == Apply(c, s, step)
  {
    hide Enabled, Apply, Run;
    RunExtends(c, Init(c), steps, s, step);
    more, next := steps + [step], Apply(c, s, step);
  }

  /** The master still accepts workers and has none. */
  ghost predicate Alone(c: Config, s: State) {
    && s.acceptor.CanTake() && s.masterServer == Stage(1, [], c.workerHandlers) && s.connectionsQueue == []
    && s.workers == [] && s.pool == {} && !s.stopped && s.pick == Undecided && s.distributor.CanTake()
    && s.distributorQueue == [] && s.decomposer.CanTake()
  }

  /** A handler holds a request with one number. */
  lemma ClientArrives(c: Config, q: Query) returns (steps: seq<Step>, s: State)
    requires c.Valid()
    ensures Run(c, Init(c), steps, s)
    ensures |s.handlers| > 0 && s == Init(c).(handlers := s.handlers) && s.handlers[0].hold == [[q]]
  {
    hide Run, Init;
    FreshTeam<Request, int>(c.handlers, _ => 0, 0);
    steps, s := [], Init(c);
    StartOfClients(c);
    EmptyRun(c, s);
    steps, s := Go(c, steps, s, Env(EnvStep.ClientArrives([[q]])));
    steps, s := Go(c, steps, s, Front(AcceptorPut));
    assert s.socketsQueue == [Item([[q]])];
    steps, s := Go(c, steps, s, Front(HandlerTake(0)));
  }

  lemma StartOfClients(c: Config)
    ensures Init(c).acceptor == Stage(1, [], c.handlers) && Init(c).socketsQueue == []
    ensures Init(c).handlers == Team(c.handlers)
  {
  }

  /** It has become a datum. */
  lemma RequestArrives(c: Config, q: Query) returns (steps: seq<Step>, s: State)
    requires c.Valid()
    ensures Run(c, Init(c), steps, s) && Alone(c, s)
    ensures s.queries == [[q]] && s.pending == [1] && s.decomposerQueue == [Item(0)]
  {
    hide Run;
    steps, s := ClientArrives(c, q);
    steps, s := Go(c, steps, s, Front(FrontStep.HandlerPut(0)));
  }

  /** The Distributor holds its unit. */
  lemma UnitArrives(c: Config, q: Query) returns (steps: seq<Step>, s: State)
    requires c.Valid()
    ensures Run(c, Init(c), steps, s) && s.queries == [[q]] && s.distributor.hold == [Unit(0, 0)]
    ensures s.acceptor.CanTake() && s.masterServer == Stage(1, [], c.workerHandlers) && s.connectionsQueue == []
    ensures s.workers == [] && s.pool == {} && !s.stopped && s.pick == Undecided
  {
    hide Run;
    steps, s := RequestArrives(c, q);
    steps, s := Go(c, steps, s, Front(DecomposerTake));
    assert s.decomposer.hold == [Unit(0, 0)];
    steps, s := Go(c, steps, s, Front(DecomposerPut));
    assert s.distributorQueue == [Item(Unit(0, 0))];
    steps, s := Go(c, steps, s, Spread(DistributorTake));
  }

  /** A worker connects and is picked for it. */
  lemma WorkerIsPicked(c: Config, q: Query) returns (steps: seq<Step>, s: State)
    requires c.Valid()
    ensures Run(c, Init(c), steps, s) && s.queries == [[q]] && s.distributor.hold == [Unit(0, 0)]
    ensures s.acceptor.CanTake() && s.masterServer.CanTake() && !s.stopped
    ensures s.workers == [NewWorker(1, 1)] && s.pick == Remote(0)
  {
    hide Run;
    steps, s := UnitArrives(c, q);
    steps, s := Go(c, steps, s, Env(WorkerConnects(1, 1)));
    assert s.workers == [NewWorker(1, 1)] && s.pool == {0};
    steps, s := Go(c, steps, s, Link(LinkStep.ServerPut));
    steps, s := Go(c, steps, s, Spread(PickWorker(0)));
  }

  /** The worker dies before the send, whose error counts as success. */
  lemma UnitIsLost(c: Config, q: Query) returns (steps: seq<Step>, s: State)
    requires c.Valid()
    ensures Run(c, Init(c), steps, s) && s.queries == [[q]] && Lost(s, Unit(0, 0)) > 0
    ensures s.acceptor.CanTake() && s.masterServer.CanTake() && !s.stopped
  {
    hide Run;
    hide LostUnits, NewWorker;
    steps, s := WorkerIsPicked(c, q);
    assert NewWorker(1, 1).alive && NewWorker(1, 1).responseLink == [] by { NewWorkerLives(); }
    steps, s := Go(c, steps, s, Env(WorkerDies(0, 0)));
    steps, s := Go(c, steps, s, Spread(LoseRemote));
    TallyPositive(s.lost, |s.lost| - 1, Me);
  }

  lemma NewWorkerLives()
    ensures NewWorker(1, 1).alive && NewWorker(1, 1).responseLink == []
  {
  }

  /** A request that is never answered: every configuration has a complete run, to the
      orderly end of the server, in which one is accepted and lost. */
  lemma RequestIsLost(c: Config, q: Query) returns (steps: seq<Step>, s: State)
    requires c.Valid()
    ensures Run(c, Init(c), steps, s) && !s.responding && Quiet(s)
    ensures |s.queries| > 0 && s.queries[0] == [q] && Tally(s.answers, DatumOf, 0) == 0
  {
    hide Run, Quiet, Movable;
    steps, s := UnitIsLost(c, q);
    steps, s := Go(c, steps, s, Env(StopAccepting));
    steps, s := Go(c, steps, s, Env(StopListening));
    var start, others := s, [];
    assert Reachable(c, start);
    ReachableInv(c, start);
    others, s := RunToEnd(c, start);
    LostNeverAnswered(c, start, others, s, Unit(0, 0));
    RunGrown(c, start, others, s);
    RunJoin(c, Init(c), steps, start, others, s);
    steps := steps + others;
  }
}
