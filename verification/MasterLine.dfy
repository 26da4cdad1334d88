/** The master's production line as one state machine: client acceptor,
    HttpConnectionHandlers, Decomposer, Distributor, Calculators, MasterServer,
    WorkerConnectionHandlers, ResponseAssembler and ClientResponder, every
    registered worker with its two links, and the tables of live data. Any
    thread may take the next step. */
module MasterLine {
  import opened Channels
  import opened WorkerLine

  /** One HTTP request for a concurrent application: its parsed queries. */
  type Request = seq<Query>
  /** A client connection: the requests that will arrive on it. */
  type Client = seq<Request>

  /** A response sent to a client: the datum and its result slots. */
  datatype Answer = Answer(datum: nat, slots: seq<seq<int>>)

  datatype Config = Config(
    capacity: nat,            // queuesCapacity
    handlers: nat,            // maxConnections
    calculators: nat,         // calculatorsAmount
    workerHandlers: nat,      // maxWorkerConnections
    compute: Query -> seq<int>)
  {
    predicate Valid() { capacity > 0 && handlers > 0 && calculators > 0 && workerHandlers > 0 }
  }

  /** Where the Distributor has decided to send the unit it holds. */
  datatype Pick = Undecided | Remote(worker: nat) | Local

  datatype State = State(
    // ConcurrentData by identity: queries, pendingQueries, results
    queries: seq<Request>,
    pending: seq<nat>,
    slots: seq<seq<seq<int>>>,
    // client side
    acceptor: Stage<Client>,
    socketsQueue: seq<Token<Client>>,
    handlers: seq<Stage<Request>>,
    decomposerQueue: seq<Token<nat>>,
    decomposer: Stage<Unit>,
    distributorQueue: seq<Token<Unit>>,
    distributor: Stage<Unit>,
    pick: Pick,
    stopped: bool,                      // stopWorkers has been called
    // local calculation
    unitsQueue: seq<Token<Unit>>,
    calculators: seq<Stage<Unit>>,
    // worker side
    masterServer: Stage<nat>,
    connectionsQueue: seq<Token<nat>>,
    readers: seq<Stage<Unit>>,          // WorkerConnectionHandlers
    reading: seq<Option<nat>>,          // the connection each of them serves
    pool: set<nat>,                     // WorkerConnections
    workers: seq<Worker>,
    // recombination
    assemblerQueue: seq<Token<Unit>>,
    assembler: Stage<nat>,
    responderQueue: seq<Token<nat>>,
    responding: bool,
    // history
    consumed: seq<Unit>,                // units the assembler has met, in order
    lost: seq<Unit>,                    // units that died with a worker
    answers: seq<Answer>)

  function Vacant(n: nat): seq<Option<nat>> {
    if n == 0 then [] else [None] + Vacant(n - 1)
  }

  function Init(c: Config): State {
    State([], [], [],
          Stage(1, [], c.handlers), [], Team(c.handlers),
          [], Stage(c.handlers, [], 1), [], Stage(1, [], c.calculators), Undecided, false,
          [], Team(c.calculators),
          Stage(1, [], c.workerHandlers), [], Team(c.workerHandlers),
          Vacant(c.workerHandlers), {}, [],
          [], Stage(c.calculators + c.workerHandlers, [], 1), [], true,
          [], [], [])
  }

  /** What the outside world may do. */
  datatype EnvStep =
    | ClientArrives(client: Client) | StopAccepting
    | WorkerConnects(threads: nat, room: nat) | StopListening
    | WorkerDies(w: nat, kept: nat)

  /** Client acceptor (the main thread), HttpConnectionHandlers, Decomposer. */
  datatype FrontStep =
    | AcceptorPut | AcceptorEnd
    | HandlerTake(i: nat) | HandlerPut(i: nat) | HandlerEnd(i: nat)
    | DecomposerTake | DecomposerPut | DecomposerEnd

  /** Distributor and local Calculators. */
  datatype SpreadStep =
    | DistributorTake | PickWorker(w: nat) | PickLocal
    | SendRemote | LoseRemote | DistributorPut
    | StopWorkers | DistributorEnd
    | CalculatorTake(i: nat) | CalculatorPut(i: nat) | CalculatorEnd(i: nat)

  /** MasterServer and WorkerConnectionHandlers. */
  datatype LinkStep =
    | ServerPut | ServerEnd
    | ReaderTake(i: nat) | ReaderRead(i: nat) | ReaderEof(i: nat) | ReaderPut(i: nat) | ReaderEnd(i: nat)

  /** ResponseAssembler and ClientResponder. */
  datatype BackStep = AssemblerTake | AssemblerPut | AssemblerEnd | Respond

  datatype Step =
    | Env(env: EnvStep) | Front(front: FrontStep) | Spread(spread: SpreadStep)
    | Link(link: LinkStep) | Back(back: BackStep)
    | InWorker(w: nat, step: WorkerStep)

  predicate EnvEnabled(s: State, step: EnvStep) {
    match step
    case ClientArrives(_) => s.acceptor.CanTake()
    case StopAccepting => s.acceptor.CanTake()
    case WorkerConnects(threads, room) => s.masterServer.CanTake() && threads > 0 && room > 0
    case StopListening => s.masterServer.CanTake()
    case WorkerDies(w, kept) => w < |s.workers| && s.workers[w].alive && kept <= |s.workers[w].responseLink|
  }

  predicate FrontEnabled(c: Config, s: State, step: FrontStep) {
    match step
    case AcceptorPut => s.acceptor.CanPut() && |s.socketsQueue| < c.capacity
    case AcceptorEnd => s.acceptor.CanEnd() && |s.socketsQueue| < c.capacity
    case HandlerTake(i) => i < |s.handlers| && s.handlers[i].CanTake() && s.socketsQueue != []
    case HandlerPut(i) =>
      i < |s.handlers| && s.handlers[i].CanPut() && (s.handlers[i].hold[0] == [] || |s.decomposerQueue| < c.capacity)
    case HandlerEnd(i) => i < |s.handlers| && s.handlers[i].CanEnd() && |s.decomposerQueue| < c.capacity
    case DecomposerTake => s.decomposer.CanTake() && s.decomposerQueue != []
    case DecomposerPut => s.decomposer.CanPut() && |s.distributorQueue| < c.capacity
    case DecomposerEnd => s.decomposer.CanEnd() && |s.distributorQueue| < c.capacity
  }

  predicate SpreadEnabled(c: Config, s: State, step: SpreadStep) {
    match step
    case DistributorTake => s.distributor.CanTake() && s.distributorQueue != []
    case PickWorker(w) => s.distributor.CanPut() && s.pick.Undecided? && w in s.pool
    case PickLocal => s.distributor.CanPut() && s.pick.Undecided? && s.pool == {}
    case SendRemote => Picked(s) && s.workers[s.pick.worker].alive
    case LoseRemote => Picked(s) && !s.workers[s.pick.worker].alive
    case DistributorPut => s.distributor.CanPut() && s.pick.Local? && |s.unitsQueue| < c.capacity
    case StopWorkers => s.distributor.CanEnd() && !s.stopped
    case DistributorEnd => s.distributor.CanEnd() && s.stopped && |s.unitsQueue| < c.capacity
    case CalculatorTake(i) => i < |s.calculators| && s.calculators[i].CanTake() && s.unitsQueue != []
    case CalculatorPut(i) =>
      i < |s.calculators| && s.calculators[i].CanPut() && |s.assemblerQueue| < c.capacity
    case CalculatorEnd(i) =>
      i < |s.calculators| && s.calculators[i].CanEnd() && |s.assemblerQueue| < c.capacity
  }

  /** The Distributor holds a copy of a pooled connection for its unit. */
  predicate Picked(s: State) {
    s.distributor.CanPut() && s.pick.Remote? && s.pick.worker < |s.workers|
  }

  predicate LinkEnabled(c: Config, s: State, step: LinkStep) {
    match step
    case ServerPut => s.masterServer.CanPut() && |s.connectionsQueue| < c.workerHandlers
    case ServerEnd => s.masterServer.CanEnd() && |s.connectionsQueue| < c.workerHandlers
    case ReaderTake(i) =>
      && i < |s.readers| && i < |s.reading| && s.readers[i].CanTake() && s.reading[i].None?
      && s.connectionsQueue != []
    case ReaderRead(i) => Attached(s, i) && s.workers[s.reading[i].value].responseLink != []
    case ReaderEof(i) =>
      && Attached(s, i) && s.workers[s.reading[i].value].responseLink == []
      && !s.workers[s.reading[i].value].alive
    case ReaderPut(i) => i < |s.readers| && s.readers[i].CanPut() && |s.assemblerQueue| < c.capacity
    case ReaderEnd(i) => i < |s.readers| && s.readers[i].CanEnd() && |s.assemblerQueue| < c.capacity
  }

  predicate BackEnabled(c: Config, s: State, step: BackStep) {
    match step
    case AssemblerTake => s.assembler.CanTake() && s.assemblerQueue != []
    case AssemblerPut => s.assembler.CanPut() && |s.responderQueue| < c.capacity
    case AssemblerEnd => s.assembler.CanEnd() && |s.responderQueue| < c.capacity
    case Respond => s.responding && s.responderQueue != []
  }

  predicate Enabled(c: Config, s: State, step: Step) {
    match step
    case Env(e) => EnvEnabled(s, e)
    case Front(f) => FrontEnabled(c, s, f)
    case Spread(d) => SpreadEnabled(c, s, d)
    case Link(l) => LinkEnabled(c, s, l)
    case Back(b) => BackEnabled(c, s, b)
    case InWorker(w, ws) => w < |s.workers| && CanStep(s.workers[w], ws)
  }

  /** Handler `i` is inside its read loop on a registered connection and has no
      unit to enqueue. */
  predicate Attached(s: State, i: nat) {
    && i < |s.readers| && i < |s.reading| && s.readers[i].CanTake()
    && s.reading[i].Some? && s.reading[i].value < |s.workers|
  }

  // ------------------------------------------------------- table operations

  predicate Known(queries: seq<Request>, u: Unit) {
    u.datum < |queries| && u.index < |queries[u.datum]|
  }

  function AskedBy(queries: seq<Request>, u: Unit): Query
    requires Known(queries, u)
  {
    queries[u.datum][u.index]
  }

  /** `results[index].push_back(...)` for every value. Units that point outside
      the tables change nothing; `FlowInv` shows that there are none. */
  function Fill(slots: seq<seq<seq<int>>>, u: Unit, values: seq<int>): seq<seq<seq<int>>> {
    if u.datum < |slots| && u.index < |slots[u.datum]|
    then slots[u.datum := slots[u.datum][u.index := slots[u.datum][u.index] + values]]
    else slots
  }

  /** `results.resize(n)` on an empty vector. */
  function Blank(n: nat): (r: seq<seq<int>>)
    ensures |r| == n && forall i :: 0 <= i < n ==> r[i] == []
  {
    if n == 0 then [] else Blank(n - 1) + [[]]
  }

  /** `decompose`: one unit per pending query. */
  function Decompose(datum: nat, n: nat): (units: seq<Unit>)
    ensures |units| == n && forall i :: 0 <= i < n ==> units[i] == Unit(datum, i)
  {
    if n == 0 then [] else Decompose(datum, n - 1) + [Unit(datum, n - 1)]
  }

  /** `markUnitReady`: the count never goes below zero. */
  function MarkReady(pending: nat): nat {
    if pending > 0 then pending - 1 else pending
  }

  // ----------------------------------------- what is lost when a worker dies

  function QueueUnits(q: seq<Token<Job>>): seq<Unit> {
    if q == [] then [] else (if q[0].Item? then [q[0].item.unit] else []) + QueueUnits(q[1..])
  }

  function HoldUnits(h: seq<Job>): seq<Unit> {
    if h == [] then [] else [h[0].unit] + HoldUnits(h[1..])
  }

  function TeamUnits(g: seq<Stage<Job>>): seq<Unit> {
    if g == [] then [] else HoldUnits(g[0].hold) + TeamUnits(g[1..])
  }

  /** Every unit inside a worker except those in the first `kept` frames of its
      response link, which the master can still read. */
  function LostUnits(w: Worker, kept: nat): seq<Unit>
    requires kept <= |w.responseLink|
  {
    QueueUnits(w.requestLink) + HoldUnits(w.server.hold) + QueueUnits(w.unitsQueue) +
    TeamUnits(w.calculators) + QueueUnits(w.repliesQueue) + HoldUnits(w.client.hold) +
    QueueUnits(w.responseLink[kept..])
  }

  function Dead(w: Worker, kept: nat): Worker
    requires kept <= |w.responseLink|
  {
    w.(alive := false, requestLink := [], server := Stage(0, [], 0), unitsQueue := [], calculators := [],
       repliesQueue := [], client := Stage(0, [], 0), responseLink := w.responseLink[..kept])
  }

  /** `stopWorkers` writes "-1" on every pooled connection. */
  function TellWorkers(workers: seq<Worker>, pool: set<nat>): (r: seq<Worker>)
    ensures |r| == |workers|
  {
    seq(|workers|, w requires 0 <= w < |workers| =>
      if w !in pool then workers[w]
      else if workers[w].alive then workers[w].(told := true, requestLink := workers[w].requestLink + [Stop])
      else workers[w].(told := true))
  }

  // -------------------------------------------------------------- the steps

  function EnvApply(s: State, step: EnvStep): State
    requires EnvEnabled(s, step)
  {
    match step
    case ClientArrives(client) => s.(acceptor := s.acceptor.(hold := [client]))
    case StopAccepting => s.(acceptor := s.acceptor.(need := 0))
    case WorkerConnects(threads, room) =>
      s.(workers := s.workers + [NewWorker(threads, room)], pool := s.pool + {|s.workers|},
         masterServer := s.masterServer.(hold := [|s.workers|]))
    case StopListening => s.(masterServer := s.masterServer.(need := 0))
    case WorkerDies(w, kept) =>
      s.(workers := s.workers[w := Dead(s.workers[w], kept)], lost := s.lost + LostUnits(s.workers[w], kept))
  }

  function FrontApply(c: Config, s: State, step: FrontStep): State
    requires FrontEnabled(c, s, step)
  {
    match step
    case AcceptorPut =>
      s.(socketsQueue := s.socketsQueue + [Item(s.acceptor.hold[0])], acceptor := Put(s.acceptor))
    case AcceptorEnd => s.(socketsQueue := s.socketsQueue + [Stop], acceptor := End(s.acceptor))
    case HandlerTake(i) =>
      var t := s.socketsQueue[0];
      s.(socketsQueue := s.socketsQueue[1..],
         handlers := s.handlers[i := Take(s.handlers[i], t, if t.Item? then t.item else [])])
    case HandlerPut(i) => HandlerPuts(s, i)
    case HandlerEnd(i) =>
      s.(decomposerQueue := s.decomposerQueue + [Stop], handlers := s.handlers[i := End(s.handlers[i])])
    case DecomposerTake =>
      var t := s.decomposerQueue[0];
      s.(decomposerQueue := s.decomposerQueue[1..],
         decomposer := Take(s.decomposer, t,
                            if t.Item? && t.item < |s.pending| then Decompose(t.item, s.pending[t.item]) else []))
    case DecomposerPut =>
      s.(distributorQueue := s.distributorQueue + [Item(s.decomposer.hold[0])], decomposer := Put(s.decomposer))
    case DecomposerEnd =>
      s.(distributorQueue := s.distributorQueue + [Stop], decomposer := End(s.decomposer))
  }

  function SpreadApply(c: Config, s: State, step: SpreadStep): State
    requires SpreadEnabled(c, s, step)
  {
    match step
    case DistributorTake =>
      var t := s.distributorQueue[0];
      s.(distributorQueue := s.distributorQueue[1..],
         distributor := Take(s.distributor, t, if t.Item? then [t.item] else []))
    case PickWorker(w) => s.(pick := Remote(w))
    case PickLocal => s.(pick := Local)
    case SendRemote =>
      var w, u := s.pick.worker, s.distributor.hold[0];
      var asked := if Known(s.queries, u) then AskedBy(s.queries, u) else Query(0, 0);
      s.(workers := s.workers[w := s.workers[w].(requestLink :=
                                     s.workers[w].requestLink + [Item(Job(u, asked, []))])],
         distributor := Put(s.distributor), pick := Undecided)
    case LoseRemote =>
      s.(lost := s.lost + [s.distributor.hold[0]], distributor := Put(s.distributor), pick := Undecided)
    case DistributorPut =>
      s.(unitsQueue := s.unitsQueue + [Item(s.distributor.hold[0])], distributor := Put(s.distributor),
         pick := Undecided)
    case StopWorkers => s.(workers := TellWorkers(s.workers, s.pool), stopped := true)
    case DistributorEnd => s.(unitsQueue := s.unitsQueue + [Stop], distributor := End(s.distributor))
    case CalculatorTake(i) => CalculatorTakes(c, s, i)
    case CalculatorPut(i) =>
      s.(assemblerQueue := s.assemblerQueue + [Item(s.calculators[i].hold[0])],
         calculators := s.calculators[i := Put(s.calculators[i])])
    case CalculatorEnd(i) =>
      s.(assemblerQueue := s.assemblerQueue + [Stop], calculators := s.calculators[i := End(s.calculators[i])])
  }

  function LinkApply(c: Config, s: State, step: LinkStep): State
    requires LinkEnabled(c, s, step)
  {
    match step
    case ServerPut =>
      s.(connectionsQueue := s.connectionsQueue + [Item(s.masterServer.hold[0])],
         masterServer := Put(s.masterServer))
    case ServerEnd =>
      s.(connectionsQueue := s.connectionsQueue + [Stop], masterServer := End(s.masterServer))
    case ReaderTake(i) =>
      var t := s.connectionsQueue[0];
      s.(connectionsQueue := s.connectionsQueue[1..],
         readers := if t.Stop? then s.readers[i := Take(s.readers[i], t, [])] else s.readers,
         reading := s.reading[i := if t.Item? then Some(t.item) else None])
    case ReaderRead(i) => ReaderReads(s, i)
    case ReaderEof(i) => s.(reading := s.reading[i := None], pool := s.pool - {s.reading[i].value})
    case ReaderPut(i) =>
      s.(assemblerQueue := s.assemblerQueue + [Item(s.readers[i].hold[0])],
         readers := s.readers[i := Put(s.readers[i])])
    case ReaderEnd(i) =>
      s.(assemblerQueue := s.assemblerQueue + [Stop], readers := s.readers[i := End(s.readers[i])])
  }

  function BackApply(c: Config, s: State, step: BackStep): State
    requires BackEnabled(c, s, step)
  {
    match step
    case AssemblerTake => AssemblerTakes(s)
    case AssemblerPut =>
      s.(responderQueue := s.responderQueue + [Item(s.assembler.hold[0])], assembler := Put(s.assembler))
    case AssemblerEnd =>
      s.(responderQueue := s.responderQueue + [Stop], assembler := End(s.assembler))
    case Respond =>
      var t := s.responderQueue[0];
      s.(responderQueue := s.responderQueue[1..], responding := t.Item?,
         answers := if t.Item? && t.item < |s.slots| then s.answers + [Answer(t.item, s.slots[t.item])]
                    else s.answers)
  }

  function Apply(c: Config, s: State, step: Step): State
    requires Enabled(c, s, step)
  {
    match step
    case Env(e) => EnvApply(s, e)
    case Front(f) => FrontApply(c, s, f)
    case Spread(d) => SpreadApply(c, s, d)
    case Link(l) => LinkApply(c, s, l)
    case Back(b) => BackApply(c, s, b)
    case InWorker(w, ws) => s.(workers := s.workers[w := AfterStep(s.workers[w], ws, c.compute)])
  }

  /** `route` and `createConcurrentData`: a request without valid queries is
      answered on the spot; any other becomes a datum with one pending query
      and one empty slot per number, and is enqueued for the Decomposer. */
  function HandlerPuts(s: State, i: nat): State
    requires i < |s.handlers| && s.handlers[i].CanPut()
  {
    var r := s.handlers[i].hold[0];
    var s' := s.(handlers := s.handlers[i := Put(s.handlers[i])]);
    if r == [] then s'
    else s'.(queries := s.queries + [r], pending := s.pending + [|r|],
             slots := s.slots + [Blank(|r|)],
             decomposerQueue := s.decomposerQueue + [Item(|s.queries|)])
  }

  /** `Calculator::consume`, with the slot written before the unit moves on. */
  function CalculatorTakes(c: Config, s: State, i: nat): State
    requires i < |s.calculators| && s.calculators[i].CanTake() && s.unitsQueue != []
  {
    var t := s.unitsQueue[0];
    s.(unitsQueue := s.unitsQueue[1..],
       calculators := s.calculators[i := Take(s.calculators[i], t, if t.Item? then [t.item] else [])],
       slots := if t.Item? && Known(s.queries, t.item)
                then Fill(s.slots, t.item, c.compute(AskedBy(s.queries, t.item))) else s.slots)
  }

  /** `WorkerConnectionHandler::route` on one frame: a response fills the slot
      of the original datum, "-1" ends the connection and leaves the pool. */
  function ReaderReads(s: State, i: nat): State
    requires Attached(s, i) && s.workers[s.reading[i].value].responseLink != []
  {
    var w := s.reading[i].value;
    var t := s.workers[w].responseLink[0];
    var s' := s.(workers := s.workers[w := s.workers[w].(responseLink := s.workers[w].responseLink[1..])]);
    if t.Stop? then s'.(reading := s.reading[i := None], pool := s.pool - {w})
    else s'.(readers := s.readers[i := s.readers[i].(hold := [t.item.unit])],
             slots := Fill(s.slots, t.item.unit, t.item.result))
  }

  /** `ResponseAssembler::consume`: one pending query less, and the datum moves
      on when none is left. */
  function AssemblerTakes(s: State): State
    requires s.assembler.CanTake() && s.assemblerQueue != []
  {
    var t := s.assemblerQueue[0];
    var s' := s.(assemblerQueue := s.assemblerQueue[1..]);
    if t.Stop? then s'.(assembler := Take(s.assembler, t, []))
    else
      var d := t.item.datum;
      if d >= |s.pending| then s'.(consumed := s.consumed + [t.item])
      else
        var left := MarkReady(s.pending[d]);
        s'.(consumed := s.consumed + [t.item], pending := s.pending[d := left],
            assembler := Take(s.assembler, t, if left == 0 then [d] else []))
  }
}
