/** Stop counts and connection bookkeeping of the master's line, kept by every
    step of every thread and of the environment. */
module MasterChannels {
  import opened Channels
  import opened WorkerLine
  import opened MasterLine

  ghost predicate FrontChan(acceptor: Stage<Client>, socketsQueue: seq<Token<Client>>,
                            handlers: seq<Stage<Request>>, decomposerQueue: seq<Token<nat>>, decomposerNeed: nat)
  {
    && acceptor.Sound() && AllSound(handlers)
    && Chan(socketsQueue, acceptor.emit, NeedSum(handlers))
    && Chan(decomposerQueue, EmitSum(handlers), decomposerNeed)
  }

  ghost predicate MiddleChan(decomposer: Stage<Unit>, distributorQueue: seq<Token<Unit>>,
                             distributor: Stage<Unit>, stopped: bool)
  {
    && decomposer.Sound() && distributor.Sound()
    && Chan(distributorQueue, decomposer.emit, distributor.need)
    && (stopped ==> distributor.need == 0)
    && (distributor.emit == 0 ==> stopped)
  }

  ghost predicate TeamChan<T>(queue: seq<Token<T>>, producerEmit: nat, consumers: seq<Stage<Unit>>) {
    AllSound(consumers) && Chan(queue, producerEmit, NeedSum(consumers))
  }

  ghost predicate BackChan(assemblerQueue: seq<Token<Unit>>, producersEmit: nat, assembler: Stage<nat>,
                           responderQueue: seq<Token<nat>>, responding: bool)
  {
    && assembler.Sound()
    && Chan(assemblerQueue, producersEmit, assembler.need)
    && Chan(responderQueue, assembler.emit, if responding then 1 else 0)
  }

  /** The balance of every queue of the master, from the counts that
      `createThreads` gives to the threads. */
  ghost predicate ChanInv(s: State) {
    && s.masterServer.Sound()
    && FrontChan(s.acceptor, s.socketsQueue, s.handlers, s.decomposerQueue, s.decomposer.need)
    && MiddleChan(s.decomposer, s.distributorQueue, s.distributor, s.stopped)
    && TeamChan(s.unitsQueue, s.distributor.emit, s.calculators)
    && TeamChan(s.connectionsQueue, s.masterServer.emit, s.readers)
    && BackChan(s.assemblerQueue, EmitSum(s.calculators) + EmitSum(s.readers), s.assembler,
                s.responderQueue, s.responding)
  }

  function Self(w: nat): nat { w }

  /** How many handlers serve connection `w`. */
  ghost function Serving(reading: seq<Option<nat>>, w: nat): nat {
    if reading == [] then 0 else (if reading[0] == Some(w) then 1 else 0) + Serving(reading[1..], w)
  }

  /** How many places hold connection `w`: MasterServer before enqueuing it, the
      connections queue, a handler. */
  ghost function Places(held: seq<nat>, queue: seq<Token<nat>>, reading: seq<Option<nat>>, w: nat): nat {
    Tally(held, Self, w) + Queued(queue, Self, w) + Serving(reading, w)
  }

  /** Each registered connection is pooled exactly while one place of the worker
      side still holds it. */
  ghost predicate PlacesInv(held: seq<nat>, queue: seq<Token<nat>>, reading: seq<Option<nat>>, pool: set<nat>) {
    forall w: nat :: Places(held, queue, reading, w) == if w in pool then 1 else 0
  }

  /** A worker that died keeps at most the frames the master can still read;
      its "-1", if among them, is the last. */
  ghost predicate DeadOk(w: Worker, open: bool) {
    && w.requestLink == [] && w.server.hold == [] && w.unitsQueue == [] && w.calculators == []
    && w.repliesQueue == [] && w.client.hold == []
    && Stops(w.responseLink) <= 1 && (Stops(w.responseLink) == 1 ==> Sealed(w.responseLink))
    && (!open ==> w.responseLink == [])
  }

  ghost predicate WorkerOk(w: Worker, open: bool) {
    if w.alive then Balanced(w, open) else DeadOk(w, open)
  }

  ghost predicate WorkersInv(workers: seq<Worker>, pool: set<nat>, stopped: bool, pick: Pick) {
    && (forall w :: w in pool ==> w < |workers|)
    && (forall w :: 0 <= w < |workers| ==> WorkerOk(workers[w], w in pool))
    && (forall w :: 0 <= w < |workers| && workers[w].told ==> stopped)
    && (pick.Remote? ==> pick.worker < |workers|)
  }

  /** A handler serves a connection only inside its loop, and holds a unit only
      while serving one. */
  ghost predicate ReadersInv(readers: seq<Stage<Unit>>, reading: seq<Option<nat>>) {
    && |reading| == |readers|
    && forall i :: 0 <= i < |reading| ==>
         && readers[i].need <= 1
         && (reading[i].Some? ==> readers[i].need == 1)
         && (readers[i].hold != [] ==> reading[i].Some?)
  }

  ghost predicate PoolInv(s: State) {
    && PlacesInv(s.masterServer.hold, s.connectionsQueue, s.reading, s.pool)
    && WorkersInv(s.workers, s.pool, s.stopped, s.pick)
    && ReadersInv(s.readers, s.reading)
  }

  // ------------------------------------------------------------- ChanInv

  lemma InitChannels(c: Config)
    requires c.Valid()
    ensures ChanInv(Init(c))
  {
    FreshTeam<Request, int>(c.handlers, _ => 0, 0);
    FreshTeam<Unit, int>(c.calculators, _ => 0, 0);
    FreshTeam<Unit, int>(c.workerHandlers, _ => 0, 0);
  }

  lemma EnvChannels(s: State, step: EnvStep)
    requires ChanInv(s) && EnvEnabled(s, step)
    ensures ChanInv(EnvApply(s, step))
  {
    hide Stops, NeedSum, EmitSum, Sealed;
  }

  lemma FrontChannels(c: Config, s: State, step: FrontStep)
    requires ChanInv(s) && FrontEnabled(c, s, step)
    ensures ChanInv(FrontApply(c, s, step))
  {
    hide Chan, NeedSum, EmitSum, AllSound, Stage.Sound, Put, End, Decompose, Blank;
    match step {
      case AcceptorPut => StagePuts(s.acceptor, s.socketsQueue, s.acceptor.hold[0], NeedSum(s.handlers));
      case AcceptorEnd => StageEnds(s.acceptor, s.socketsQueue, NeedSum(s.handlers));
      case HandlerTake(i) =>
        var t := s.socketsQueue[0];
        TeamTakes(s.socketsQueue, s.acceptor.emit, s.handlers, i, if t.Item? then t.item else []);
      case HandlerPut(i) => TeamPuts<Request, nat>(s.handlers, i, s.decomposerQueue, |s.queries|, 0, s.decomposer.need);
      case HandlerEnd(i) => TeamStops(s.handlers, i, s.decomposerQueue, 0, s.decomposer.need);
      case DecomposerTake =>
        var t := s.decomposerQueue[0];
        StageTakes<nat, Unit>(s.decomposerQueue, EmitSum(s.handlers), s.decomposer,
                   if t.Item? && t.item < |s.pending| then Decompose(t.item, s.pending[t.item]) else []);
      case DecomposerPut => StagePuts(s.decomposer, s.distributorQueue, s.decomposer.hold[0], s.distributor.need);
      case DecomposerEnd => StageEnds(s.decomposer, s.distributorQueue, s.distributor.need);
    }
  }

  lemma SpreadChannels(c: Config, s: State, step: SpreadStep)
    requires ChanInv(s) && SpreadEnabled(c, s, step)
    ensures ChanInv(SpreadApply(c, s, step))
  {
    if step.CalculatorTake? || step.CalculatorPut? || step.CalculatorEnd? {
      CalculatorChannels(c, s, step);
    } else {
      DistributorChannels(c, s, step);
    }
  }

  lemma CalculatorChannels(c: Config, s: State, step: SpreadStep)
    requires ChanInv(s) && SpreadEnabled(c, s, step)
    requires step.CalculatorTake? || step.CalculatorPut? || step.CalculatorEnd?
    ensures ChanInv(SpreadApply(c, s, step))
  {
    hide Chan, NeedSum, EmitSum, AllSound, Stage.Sound, Take, Put, End, Fill, FrontChan, MiddleChan;
    var others := EmitSum(s.readers);
    match step {
      case CalculatorTake(i) =>
        var t := s.unitsQueue[0];
        TeamTakes(s.unitsQueue, s.distributor.emit, s.calculators, i, if t.Item? then [t.item] else []);
      case CalculatorPut(i) =>
        TeamPuts(s.calculators, i, s.assemblerQueue, s.calculators[i].hold[0], others, s.assembler.need);
      case CalculatorEnd(i) => TeamStops(s.calculators, i, s.assemblerQueue, others, s.assembler.need);
    }
  }

  lemma DistributorChannels(c: Config, s: State, step: SpreadStep)
    requires ChanInv(s) && SpreadEnabled(c, s, step)
    requires !step.CalculatorTake? && !step.CalculatorPut? && !step.CalculatorEnd?
    ensures ChanInv(SpreadApply(c, s, step))
  {
    hide Chan, NeedSum, EmitSum, AllSound, Stops, Sealed, TellWorkers, FrontChan, BackChan;
    match step {
      case DistributorTake =>
        var t := s.distributorQueue[0];
        StageTakes(s.distributorQueue, s.decomposer.emit, s.distributor, if t.Item? then [t.item] else []);
      case DistributorPut =>
        StagePuts(s.distributor, s.unitsQueue, s.distributor.hold[0], NeedSum(s.calculators));
      case DistributorEnd => StageEnds(s.distributor, s.unitsQueue, NeedSum(s.calculators));
      case _ =>
    }
  }

  lemma LinkChannels(c: Config, s: State, step: LinkStep)
    requires ChanInv(s) && LinkEnabled(c, s, step)
    ensures ChanInv(LinkApply(c, s, step))
  {
    if step.ReaderPut? || step.ReaderEnd? { ReaderGives(c, s, step); } else { ConnectionChannels(c, s, step); }
  }

  lemma ReaderGives(c: Config, s: State, step: LinkStep)
    requires ChanInv(s) && LinkEnabled(c, s, step) && (step.ReaderPut? || step.ReaderEnd?)
    ensures ChanInv(LinkApply(c, s, step))
  {
    hide Chan, NeedSum, EmitSum, AllSound, Stage.Sound, Take, Put, End, Fill, FrontChan, MiddleChan;
    var others := EmitSum(s.calculators);
    match step {
      case ReaderPut(i) =>
        TeamPuts(s.readers, i, s.assemblerQueue, s.readers[i].hold[0], others, s.assembler.need);
      case ReaderEnd(i) => TeamStops(s.readers, i, s.assemblerQueue, others, s.assembler.need);
    }
  }

  lemma ConnectionChannels(c: Config, s: State, step: LinkStep)
    requires ChanInv(s) && LinkEnabled(c, s, step) && !step.ReaderPut? && !step.ReaderEnd?
    ensures ChanInv(LinkApply(c, s, step))
  {
    hide Chan, NeedSum, EmitSum, AllSound, Stage.Sound, Take, Put, End, Fill, FrontChan, MiddleChan;
    match step {
      case ServerPut =>
        StagePuts<nat, nat>(s.masterServer, s.connectionsQueue, s.masterServer.hold[0], NeedSum(s.readers));
      case ServerEnd => StageEnds(s.masterServer, s.connectionsQueue, NeedSum(s.readers));
      case ReaderTake(i) => ConnectionTaken(s, i);
      case ReaderRead(i) => ReaderHolds(s, i);
      case ReaderEof(i) =>
    }
  }

  /** A handler takes a connection and stays in its loop, or meets its stop. */
  lemma ConnectionTaken(s: State, i: nat)
    requires ChanInv(s) && i < |s.readers| && s.readers[i].CanTake() && s.connectionsQueue != []
    ensures var t := s.connectionsQueue[0];
            var readers := if t.Stop? then s.readers[i := Take(s.readers[i], t, [])] else s.readers;
            && TeamChan(s.connectionsQueue[1..], s.masterServer.emit, readers)
            && EmitSum(readers) == EmitSum(s.readers)
  {
    hide NeedSum, EmitSum, FrontChan, MiddleChan, BackChan, AllSound;
    var t := s.connectionsQueue[0];
    TeamTakes(s.connectionsQueue, s.masterServer.emit, s.readers, i, []);
    ChanTake(s.connectionsQueue, s.masterServer.emit, NeedSum(s.readers));
  }

  /** The unit that a handler has read waits in its hand. */
  lemma ReaderHolds(s: State, i: nat)
    requires ChanInv(s) && i < |s.readers| && s.readers[i].CanTake()
    ensures forall u: Unit :: var readers := s.readers[i := s.readers[i].(hold := [u])];
              TeamChan(s.connectionsQueue, s.masterServer.emit, readers) && EmitSum(readers) == EmitSum(s.readers)
  {
    hide NeedSum, EmitSum, FrontChan, MiddleChan, BackChan, Chan;
    forall u: Unit
      ensures var readers := s.readers[i := s.readers[i].(hold := [u])];
              TeamChan(s.connectionsQueue, s.masterServer.emit, readers) && EmitSum(readers) == EmitSum(s.readers)
    {
      assert s.readers[i].Sound();
      TeamUpdate(s.readers, i, s.readers[i].(hold := [u]));
    }
  }

  lemma BackChannels(c: Config, s: State, step: BackStep)
    requires ChanInv(s) && BackEnabled(c, s, step)
    ensures ChanInv(BackApply(c, s, step))
  {
    hide Stops, NeedSum, EmitSum, Sealed;
    var producers := EmitSum(s.calculators) + EmitSum(s.readers);
    match step {
      case AssemblerTake => ChanTake(s.assemblerQueue, producers, s.assembler.need);
      case AssemblerPut => ChanPut<nat>(s.responderQueue, s.assembler.hold[0], s.assembler.emit, 1);
      case AssemblerEnd => ChanEnd(s.responderQueue, s.assembler.emit, 1);
      case Respond => ChanTake(s.responderQueue, s.assembler.emit, 1);
    }
  }

  lemma StepChannels(c: Config, s: State, step: Step)
    requires ChanInv(s) && Enabled(c, s, step)
    ensures ChanInv(Apply(c, s, step))
  {
    hide Stops, NeedSum, EmitSum, Sealed;
    match step {
      case Env(e) => EnvChannels(s, e);
      case Front(f) => FrontChannels(c, s, f);
      case Spread(d) => SpreadChannels(c, s, d);
      case Link(l) => LinkChannels(c, s, l);
      case Back(b) => BackChannels(c, s, b);
      case InWorker(w, ws) =>
    }
  }

  // ------------------------------------------------------------- PoolInv

  lemma {:induction false} ServingUpdate(reading: seq<Option<nat>>, i: nat, r: Option<nat>, w: nat)
    requires i < |reading|
    ensures Serving(reading[i := r], w)
         == Serving(reading, w) - (if reading[i] == Some(w) then 1 else 0) + (if r == Some(w) then 1 else 0)
  {
    if i == 0 {
      assert reading[i := r][1..] == reading[1..];
    } else {
      assert reading[i := r][1..] == reading[1..][i - 1 := r];
      ServingUpdate(reading[1..], i - 1, r, w);
    }
  }

  lemma {:induction false} ServingPositive(reading: seq<Option<nat>>, i: nat)
    requires i < |reading| && reading[i].Some?
    ensures Serving(reading, reading[i].value) > 0
  {
    if i > 0 { ServingPositive(reading[1..], i - 1); }
  }

  lemma {:induction false} ServedBy(reading: seq<Option<nat>>, w: nat) returns (i: nat)
    requires Serving(reading, w) > 0
    ensures i < |reading| && reading[i] == Some(w)
  {
    if reading[0] == Some(w) {
      i := 0;
    } else {
      i := ServedBy(reading[1..], w);
      i := i + 1;
    }
  }

  lemma {:induction false} NobodyServes(n: nat, w: nat)
    ensures Serving(Vacant(n), w) == 0 && |Vacant(n)| == n
    ensures forall i :: 0 <= i < n ==> Vacant(n)[i] == None
  {
    if n > 0 {
      NobodyServes(n - 1, w);
      assert Vacant(n)[1..] == Vacant(n - 1);
    }
  }

  lemma {:induction false} StopsPrefix<T>(q: seq<Token<T>>, k: nat)
    requires k <= |q|
    ensures Stops(q) == Stops(q[..k]) + Stops(q[k..])
  {
    if k == 0 {
      assert q[..k] == [] && q[k..] == q;
    } else {
      assert q[..k][1..] == q[1..][..k - 1] && q[k..] == q[1..][k - 1..];
      StopsPrefix(q[1..], k - 1);
    }
  }

  lemma InitPool(c: Config)
    ensures PoolInv(Init(c))
  {
    FreshTeam<Unit, int>(c.workerHandlers, _ => 0, 0);
    NobodyServes(c.workerHandlers, 0);
    forall w: nat ensures Places([], [], Vacant(c.workerHandlers), w) == 0 { NobodyServes(c.workerHandlers, w); }
  }

  /** A worker may die at any time; what the master can still read is a prefix
      of its response link. */
  lemma DiesOk(w: Worker, kept: nat, open: bool)
    requires w.alive && WorkerOk(w, open) && kept <= |w.responseLink|
    ensures WorkerOk(Dead(w, kept), open)
  {
    StopsPrefix(w.responseLink, kept);
    if kept < |w.responseLink| && w.client.emit == 0 {
      assert w.responseLink[kept..][|w.responseLink| - kept - 1] == w.responseLink[|w.responseLink| - 1];
      LastStop(w.responseLink[kept..]);
    }
    if kept == |w.responseLink| { assert w.responseLink[..kept] == w.responseLink; }
    if !open { ChanDrained(w.responseLink, w.client.emit); }
  }

  lemma EnvPool(s: State, step: EnvStep)
    requires PoolInv(s) && EnvEnabled(s, step)
    ensures PoolInv(EnvApply(s, step))
  {
    hide Balanced, PlacesInv, LostUnits;
    match step {
      case WorkerConnects(threads, room) =>
        NewWorkerBalanced(threads, room);
        assert s.masterServer.hold == [];
        PlacesJoin(s.connectionsQueue, s.reading, s.pool, |s.workers|);
      case WorkerDies(w, kept) =>
        DiesOk(s.workers[w], kept, w in s.pool);
      case _ =>
    }
  }

  lemma PlacesJoin(queue: seq<Token<nat>>, reading: seq<Option<nat>>, pool: set<nat>, id: nat)
    requires id !in pool && PlacesInv([], queue, reading, pool)
    ensures PlacesInv([id], queue, reading, pool + {id})
  {
    assert [id][1..] == [];
    forall w: nat ensures Places([id], queue, reading, w) == if w in pool + {id} then 1 else 0 {
      assert Places([], queue, reading, w) == if w in pool then 1 else 0;
    }
  }

  lemma SpreadPool(c: Config, s: State, step: SpreadStep)
    requires PoolInv(s) && ChanInv(s) && SpreadEnabled(c, s, step)
    ensures PoolInv(SpreadApply(c, s, step))
  {
    hide Stops, Sealed, NeedSum, EmitSum, Places, Balanced;
    match step {
      case SendRemote => SendOk(s);
      case StopWorkers =>
        forall w | 0 <= w < |s.workers| ensures WorkerOk(TellWorkers(s.workers, s.pool)[w], w in s.pool) {
          TellOk(s, w);
        }
      case _ =>
    }
  }

  /** The Distributor sends only before it calls `stopWorkers`, so no request
      follows the "-1" on a link. */
  lemma SendOk(s: State)
    requires PoolInv(s) && ChanInv(s) && Picked(s) && s.workers[s.pick.worker].alive
    ensures var w := s.workers[s.pick.worker];
            !w.told && forall job :: WorkerOk(w.(requestLink := w.requestLink + [Item(job)]), s.pick.worker in s.pool)
  {
    var w := s.workers[s.pick.worker];
    assert WorkerOk(w, s.pick.worker in s.pool);
    forall job ensures WorkerOk(w.(requestLink := w.requestLink + [Item(job)]), s.pick.worker in s.pool) {
      ChanPut<Job>(w.requestLink, job, 1, w.server.need);
    }
  }

  lemma TellOk(s: State, w: nat)
    requires PoolInv(s) && w < |s.workers| && !s.stopped
    ensures WorkerOk(TellWorkers(s.workers, s.pool)[w], w in s.pool)
  {
    var worker := s.workers[w];
    assert WorkerOk(worker, w in s.pool) && !worker.told;
    if w in s.pool && worker.alive { ChanEnd(worker.requestLink, 1, worker.server.need); }
  }

  /** `removeSocket` always finds its connection: a handler serves only pooled
      ones, and each of them alone. */
  lemma ServedIsPooled(s: State, i: nat)
    requires PoolInv(s) && i < |s.reading| && s.reading[i].Some?
    ensures s.reading[i].value in s.pool
    ensures forall j :: 0 <= j < |s.reading| && j != i ==> s.reading[j] != s.reading[i]
  {
    var w := s.reading[i].value;
    ServingPositive(s.reading, i);
    assert Places(s.masterServer.hold, s.connectionsQueue, s.reading, w) == if w in s.pool then 1 else 0;
    forall j | 0 <= j < |s.reading| && j != i ensures s.reading[j] != s.reading[i] {
      if s.reading[j] == s.reading[i] {
        ServingUpdate(s.reading, i, None, w);
        ServingPositive(s.reading[i := None], j);
      }
    }
  }

  /** Reading one token off a response link keeps the worker in order. */
  lemma ReadOk(w: Worker, open: bool)
    requires WorkerOk(w, true) && w.responseLink != []
    requires open <==> w.responseLink[0].Item?
    ensures WorkerOk(w.(responseLink := w.responseLink[1..]), open)
  {
    if w.alive {
      ChanTake(w.responseLink, w.client.emit, 1);
    } else {
      assert |w.responseLink| > 1 ==> w.responseLink[1..][|w.responseLink| - 2] == w.responseLink[|w.responseLink| - 1];
      if !open && w.responseLink[1..] != [] { LastStop(w.responseLink[1..]); }
    }
  }

  lemma LinkPool(c: Config, s: State, step: LinkStep)
    requires PoolInv(s) && LinkEnabled(c, s, step)
    ensures PoolInv(LinkApply(c, s, step))
  {
    LinkPlaces(c, s, step);
    LinkWorkers(c, s, step);
    LinkReaders(c, s, step);
    hide WorkersInv, PlacesInv, ReadersInv, LinkApply, LinkEnabled;
  }

  lemma LinkReaders(c: Config, s: State, step: LinkStep)
    requires PoolInv(s) && LinkEnabled(c, s, step)
    ensures var s' := LinkApply(c, s, step); ReadersInv(s'.readers, s'.reading)
  {
    assert |s.reading| == |s.readers|;
    hide WorkersInv, PlacesInv, Fill, ReadersInv;
    match step {
      case ReaderTake(i) =>
        var t := s.connectionsQueue[0];
        ReaderMoves(s.readers, s.reading, i, if t.Stop? then Take(s.readers[i], t, []) else s.readers[i],
                    if t.Item? then Some(t.item) else None);
        assert s.readers[i := s.readers[i]] == s.readers;
      case ReaderRead(i) =>
        var t := s.workers[s.reading[i].value].responseLink[0];
        var st := if t.Stop? then s.readers[i] else s.readers[i].(hold := [t.item.unit]);
        ReaderMoves(s.readers, s.reading, i, st, if t.Stop? then None else s.reading[i]);
        assert s.readers[i := s.readers[i]] == s.readers && s.reading[i := s.reading[i]] == s.reading;
      case ReaderEof(i) =>
        ReaderMoves(s.readers, s.reading, i, s.readers[i], None);
        assert s.readers[i := s.readers[i]] == s.readers;
      case ReaderPut(i) =>
        ReaderMoves(s.readers, s.reading, i, Put(s.readers[i]), s.reading[i]);
        assert s.reading[i := s.reading[i]] == s.reading;
      case ReaderEnd(i) =>
        ReaderMoves(s.readers, s.reading, i, End(s.readers[i]), s.reading[i]);
        assert s.reading[i := s.reading[i]] == s.reading;
      case _ =>
    }
  }

  lemma ReaderMoves(readers: seq<Stage<Unit>>, reading: seq<Option<nat>>, i: nat, st: Stage<Unit>, r: Option<nat>)
    requires ReadersInv(readers, reading) && i < |readers|
    requires (readers[i].need <= 1 && (reading[i].Some? ==> readers[i].need == 1)
              && (readers[i].hold != [] ==> reading[i].Some?))
             ==> st.need <= 1 && (r.Some? ==> st.need == 1) && (st.hold != [] ==> r.Some?)
    ensures ReadersInv(readers[i := st], reading[i := r])
  {
  }

  lemma LinkWorkers(c: Config, s: State, step: LinkStep)
    requires PoolInv(s) && LinkEnabled(c, s, step)
    ensures var s' := LinkApply(c, s, step); WorkersInv(s'.workers, s'.pool, s'.stopped, s'.pick)
  {
    hide Balanced, DeadOk, PlacesInv, ReadersInv;
    match step {
      case ReaderRead(i) =>
        var w := s.reading[i].value;
        ServedIsPooled(s, i);
        assert WorkerOk(s.workers[w], true);
        ReadOk(s.workers[w], s.workers[w].responseLink[0].Item?);
      case ReaderEof(i) =>
        ServedIsPooled(s, i);
        assert WorkerOk(s.workers[s.reading[i].value], true);
        EofOk(s.workers[s.reading[i].value]);
      case _ =>
    }
  }

  lemma EofOk(w: Worker)
    requires WorkerOk(w, true) && !w.alive && w.responseLink == []
    ensures WorkerOk(w, false)
  {
  }

  lemma LinkPlaces(c: Config, s: State, step: LinkStep)
    requires PoolInv(s) && LinkEnabled(c, s, step)
    ensures var s' := LinkApply(c, s, step); PlacesInv(s'.masterServer.hold, s'.connectionsQueue, s'.reading, s'.pool)
  {
    match step {
      case ReaderRead(i) => ServedIsPooled(s, i);
      case ReaderEof(i) => ServedIsPooled(s, i);
      case _ =>
    }
    hide PlacesInv, WorkersInv, ReadersInv, Fill;
    var hold, queue := s.masterServer.hold, s.connectionsQueue;
    match step {
      case ServerPut => PlacesPut(hold, queue, s.reading, s.pool);
      case ServerEnd => PlacesEnd(hold, queue, s.reading, s.pool);
      case ReaderTake(i) => PlacesTake(hold, queue, s.reading, s.pool, i);
      case ReaderRead(i) => PlacesLeave(hold, queue, s.reading, s.pool, i, s.reading[i].value);
      case ReaderEof(i) => PlacesLeave(hold, queue, s.reading, s.pool, i, s.reading[i].value);
      case _ =>
    }
  }

  lemma PlacesPut(hold: seq<nat>, queue: seq<Token<nat>>, reading: seq<Option<nat>>, pool: set<nat>)
    requires hold != [] && PlacesInv(hold, queue, reading, pool)
    ensures PlacesInv(hold[1..], queue + [Item(hold[0])], reading, pool)
  {
    forall w: nat
      ensures Places(hold[1..], queue + [Item(hold[0])], reading, w) == if w in pool then 1 else 0
    {
      assert Places(hold, queue, reading, w) == if w in pool then 1 else 0;
      QueuedPush<nat, nat>(queue, Item(hold[0]), Self, w);
    }
  }

  lemma PlacesEnd(hold: seq<nat>, queue: seq<Token<nat>>, reading: seq<Option<nat>>, pool: set<nat>)
    requires PlacesInv(hold, queue, reading, pool)
    ensures PlacesInv(hold, queue + [Stop], reading, pool)
  {
    forall w: nat ensures Places(hold, queue + [Stop], reading, w) == if w in pool then 1 else 0 {
      assert Places(hold, queue, reading, w) == if w in pool then 1 else 0;
      QueuedPush<nat, nat>(queue, Stop, Self, w);
    }
  }

  lemma PlacesTake(hold: seq<nat>, queue: seq<Token<nat>>, reading: seq<Option<nat>>, pool: set<nat>, i: nat)
    requires queue != [] && i < |reading| && reading[i].None? && PlacesInv(hold, queue, reading, pool)
    ensures PlacesInv(hold, queue[1..], reading[i := if queue[0].Item? then Some(queue[0].item) else None], pool)
  {
    var r := if queue[0].Item? then Some(queue[0].item) else None;
    forall w: nat ensures Places(hold, queue[1..], reading[i := r], w) == if w in pool then 1 else 0 {
      assert Places(hold, queue, reading, w) == if w in pool then 1 else 0;
      ServingUpdate(reading, i, r, w);
    }
  }

  lemma PlacesLeave(hold: seq<nat>, queue: seq<Token<nat>>, reading: seq<Option<nat>>, pool: set<nat>, i: nat, v: nat)
    requires i < |reading| && reading[i] == Some(v) && v in pool && PlacesInv(hold, queue, reading, pool)
    ensures PlacesInv(hold, queue, reading[i := None], pool - {v})
  {
    forall w: nat ensures Places(hold, queue, reading[i := None], w) == if w in pool - {v} then 1 else 0 {
      assert Places(hold, queue, reading, w) == if w in pool then 1 else 0;
      ServingUpdate(reading, i, None, w);
    }
  }

  /** The fields that `PoolInv` looks at. */
  ghost predicate SamePool(s: State, s': State) {
    && s'.masterServer == s.masterServer && s'.connectionsQueue == s.connectionsQueue && s'.reading == s.reading
    && s'.pool == s.pool && s'.workers == s.workers && s'.stopped == s.stopped && s'.pick == s.pick
    && s'.readers == s.readers
  }

  lemma FrontPool(c: Config, s: State, step: FrontStep)
    requires FrontEnabled(c, s, step)
    ensures SamePool(s, FrontApply(c, s, step))
  {
    hide Decompose, Blank;
  }

  lemma BackPool(c: Config, s: State, step: BackStep)
    requires BackEnabled(c, s, step)
    ensures SamePool(s, BackApply(c, s, step))
  {
  }

  lemma OuterPool(c: Config, s: State, step: Step)
    requires PoolInv(s) && Enabled(c, s, step) && (step.Front? || step.Back?)
    ensures PoolInv(Apply(c, s, step))
  {
    hide WorkersInv, PlacesInv, ReadersInv, FrontApply, BackApply, FrontEnabled, BackEnabled;
    if step.Front? { FrontPool(c, s, step.front); } else { BackPool(c, s, step.back); }
  }

  lemma InnerPool(c: Config, s: State, w: nat, step: WorkerStep)
    requires PoolInv(s) && Enabled(c, s, InWorker(w, step))
    ensures PoolInv(Apply(c, s, InWorker(w, step)))
  {
    hide Balanced, AfterStep, PlacesInv, ReadersInv, DeadOk;
    assert WorkerOk(s.workers[w], w in s.pool);
    StepBalanced(s.workers[w], step, c.compute, w in s.pool);
  }

  lemma StepPool(c: Config, s: State, step: Step)
    requires PoolInv(s) && ChanInv(s) && Enabled(c, s, step)
    ensures PoolInv(Apply(c, s, step))
  {
    hide ChanInv, PoolInv, FrontApply, SpreadApply, LinkApply, BackApply, EnvApply;
    match step {
      case Env(e) => EnvPool(s, e);
      case Spread(d) => SpreadPool(c, s, d);
      case Link(l) => LinkPool(c, s, l);
      case InWorker(w, ws) => InnerPool(c, s, w, ws);
      case _ => OuterPool(c, s, step);
    }
  }
}
