/** No queue of the line ever holds more than its capacity, and a unit is calculated on
    the master only when no worker was pooled. */
module MasterBounds {
  import opened Channels
  import opened WorkerLine
  import opened MasterLine
  import opened MasterDrain

  /** The queues inside a worker. */
  ghost predicate WorkerBounded(w: Worker) { |w.unitsQueue| <= w.capacity && |w.repliesQueue| <= w.capacity }

  ghost predicate Bounded(c: Config, s: State) {
    && |s.socketsQueue| <= c.capacity && |s.decomposerQueue| <= c.capacity && |s.distributorQueue| <= c.capacity
    && |s.unitsQueue| <= c.capacity && |s.assemblerQueue| <= c.capacity && |s.responderQueue| <= c.capacity
    && |s.connectionsQueue| <= c.workerHandlers
    && forall w :: 0 <= w < |s.workers| ==> WorkerBounded(s.workers[w])
  }

  lemma WorkerStaysBounded(w: Worker, step: WorkerStep, compute: Query -> seq<int>)
    requires WorkerBounded(w) && CanStep(w, step)
    ensures WorkerBounded(AfterStep(w, step, compute))
  {
    hide Take, Put, End, Solve;
  }

  lemma EnvBounded(c: Config, s: State, step: EnvStep)
    requires Bounded(c, s) && EnvEnabled(s, step)
    ensures Bounded(c, EnvApply(s, step))
  {
    hide LostUnits;
  }

  lemma FrontBounded(c: Config, s: State, step: FrontStep)
    requires Bounded(c, s) && FrontEnabled(c, s, step)
    ensures Bounded(c, FrontApply(c, s, step))
  {
    hide Take, Put, End, Decompose, Blank, WorkerBounded;
  }

  lemma SpreadBounded(c: Config, s: State, step: SpreadStep)
    requires Bounded(c, s) && SpreadEnabled(c, s, step)
    ensures Bounded(c, SpreadApply(c, s, step))
  {
    hide Take, Put, End, Fill;
  }

  lemma LinkBounded(c: Config, s: State, step: LinkStep)
    requires Bounded(c, s) && LinkEnabled(c, s, step)
    ensures Bounded(c, LinkApply(c, s, step))
  {
    hide Take, Put, End, Fill, ReaderReads;
    if step.ReaderRead? { ReadBounded(c, s, step.i); } else { hide WorkerBounded; }
  }

  lemma ReadBounded(c: Config, s: State, i: nat)
    requires Bounded(c, s) && Attached(s, i) && s.workers[s.reading[i].value].responseLink != []
    ensures Bounded(c, ReaderReads(s, i))
  {
    hide Fill;
  }

  lemma BackBounded(c: Config, s: State, step: BackStep)
    requires Bounded(c, s) && BackEnabled(c, s, step)
    ensures Bounded(c, BackApply(c, s, step))
  {
    hide Take, Put, End, WorkerBounded;
  }

  lemma StepBounded(c: Config, s: State, step: Step)
    requires Bounded(c, s) && Enabled(c, s, step)
    ensures Bounded(c, Apply(c, s, step))
  {
    hide EnvApply, FrontApply, SpreadApply, LinkApply, BackApply, CanStep, AfterStep, WorkerBounded;
    hide EnvEnabled, FrontEnabled, SpreadEnabled, LinkEnabled, BackEnabled;
    match step {
      case Env(e) => EnvBounded(c, s, e);
      case Front(f) => FrontBounded(c, s, f);
      case Spread(d) => SpreadBounded(c, s, d);
      case Link(l) => LinkBounded(c, s, l);
      case Back(b) => BackBounded(c, s, b);
      case InWorker(w, ws) => WorkerStaysBounded(s.workers[w], ws, c.compute);
    }
  }

  lemma {:induction false} RunBounded(c: Config, s: State, steps: seq<Step>, last: State)
    requires Bounded(c, s) && Run(c, s, steps, last)
    ensures Bounded(c, last)
    decreases |steps|
  {
    hide Bounded, Enabled, Apply;
    if steps != [] {
      StepBounded(c, s, steps[0]);
      RunBounded(c, Apply(c, s, steps[0]), steps[1..], last);
    }
  }

  /** Over every run. */
  lemma QueuesAreBounded(c: Config, s: State)
    requires Reachable(c, s)
    ensures Bounded(c, s)
  {
    hide Run;
    var steps :| Run(c, Init(c), steps, s);
    RunBounded(c, Init(c), steps, s);
  }

  // ------------------------------------------------------------- numbers of threads

  /** The line starts with as many threads as it was asked for, and a worker too. */
  lemma StartCounts(c: Config)
    ensures var s := Init(c);
            && |s.handlers| == c.handlers && |s.calculators| == c.calculators
            && |s.readers| == c.workerHandlers && |s.reading| == c.workerHandlers
            && s.workers == [] && s.pool == {} && s.queries == [] && s.answers == [] && s.responding
  {
    FreshTeam<Request, int>(c.handlers, _ => 0, 0);
    FreshTeam<Unit, int>(c.calculators, _ => 0, 0);
    FreshTeam<Unit, int>(c.workerHandlers, _ => 0, 0);
    VacantLength(c.workerHandlers);
  }

  lemma {:induction false} VacantLength(n: nat)
    ensures |Vacant(n)| == n && forall i :: 0 <= i < n ==> Vacant(n)[i] == None
  {
    if n > 0 { VacantLength(n - 1); }
  }

  lemma WorkerJoins(s: State, threads: nat, room: nat)
    requires EnvEnabled(s, WorkerConnects(threads, room))
    ensures var s' := EnvApply(s, WorkerConnects(threads, room));
            && |s'.workers| == |s.workers| + 1 && s'.workers[..|s.workers|] == s.workers
            && |s'.workers[|s.workers|].calculators| == threads && s'.workers[|s.workers|].capacity == room
            && s'.workers[|s.workers|].alive && s'.workers[|s.workers|].requestLink == []
  {
    FreshTeam<Job, int>(threads, _ => 0, 0);
  }

  // ------------------------------------------------------- where a unit is calculated

  ghost predicate RightlyPicked(s: State, s': State) {
    && (s'.pick == Local && s.pick != Local ==> s.pool == {} && s.distributor.hold != [])
    && (s'.pick.Remote? && s'.pick != s.pick ==> s'.pick.worker in s.pool && s.distributor.hold != [])
    && (|s'.unitsQueue| > |s.unitsQueue| && s'.unitsQueue[|s.unitsQueue|].Item? ==>
          && s.pick == Local && s.distributor.hold != []
          && s'.unitsQueue[|s.unitsQueue|].item == s.distributor.hold[0])
  }

  lemma SpreadPick(c: Config, s: State, step: SpreadStep)
    requires SpreadEnabled(c, s, step)
    ensures RightlyPicked(s, SpreadApply(c, s, step))
  {
    hide Take, Put, End, Fill, TellWorkers;
  }

  /** The Distributor holds a unit for the local calculators only if the pool was empty
      when it decided, and for a worker only if it was pooled then; nothing but such a
      decision brings a unit into the local queue. */
  lemma PicksFromPool(c: Config, s: State, step: Step)
    requires Enabled(c, s, step)
    ensures RightlyPicked(s, Apply(c, s, step))
  {
    hide EnvApply, FrontApply, SpreadApply, LinkApply, BackApply, CanStep, AfterStep;
    hide EnvEnabled, FrontEnabled, SpreadEnabled, LinkEnabled, BackEnabled;
    match step {
      case Env(e) => EnvPick(s, e);
      case Front(f) => FrontPick(c, s, f);
      case Spread(d) => SpreadPick(c, s, d);
      case Link(l) => LinkPick(c, s, l);
      case Back(b) => BackPick(c, s, b);
      case _ =>
    }
  }

  ghost predicate SamePick(s: State, s': State) { s'.pick == s.pick && s'.unitsQueue == s.unitsQueue }

  lemma EnvPick(s: State, step: EnvStep)
    requires EnvEnabled(s, step)
    ensures SamePick(s, EnvApply(s, step))
  {
    hide LostUnits, Dead, NewWorker;
  }

  lemma FrontPick(c: Config, s: State, step: FrontStep)
    requires FrontEnabled(c, s, step)
    ensures SamePick(s, FrontApply(c, s, step))
  {
    hide Take, Put, End, Decompose, Blank;
  }

  lemma LinkPick(c: Config, s: State, step: LinkStep)
    requires LinkEnabled(c, s, step)
    ensures SamePick(s, LinkApply(c, s, step))
  {
    hide Take, Put, End, Fill;
  }

  lemma BackPick(c: Config, s: State, step: BackStep)
    requires BackEnabled(c, s, step)
    ensures SamePick(s, BackApply(c, s, step))
  {
    hide Take, Put, End;
  }
}
