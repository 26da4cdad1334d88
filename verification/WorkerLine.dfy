/** The production line of one worker process: RequestServer, Calculators and
    ResponseClient between the request link and the response link of one TCP
    connection. */
module WorkerLine {
  import opened Channels

  /** A number asked of one application. */
  datatype Query = Query(app: nat, number: int)

  /** The master's DataUnit: the datum it points to and its result index. */
  datatype Unit = Unit(datum: nat, index: nat)

  /** The worker's WorkUnit: where the result belongs in the master, the single
      query, and the single result slot. */
  datatype Job = Job(unit: Unit, query: Query, result: seq<int>)

  /** What identifies a frame in both directions. */
  datatype Tag = Tag(unit: Unit, query: Query)

  function UnitOf(j: Job): Unit { j.unit }
  function TagOf(j: Job): Tag { Tag(j.unit, j.query) }

  datatype Worker = Worker(
    alive: bool,
    told: bool,                       // the master has sent "-1" on the request link
    requestLink: seq<Token<Job>>,
    server: Stage<Job>,               // RequestServer
    unitsQueue: seq<Token<Job>>,
    calculators: seq<Stage<Job>>,
    repliesQueue: seq<Token<Job>>,
    client: Stage<Job>,               // ResponseClient
    responseLink: seq<Token<Job>>,
    capacity: nat)

  function NewWorker(calculators: nat, capacity: nat): Worker {
    Worker(true, false, [], Stage(1, [], calculators), [],
           Team(calculators), [],
           Stage(calculators, [], 1), [], capacity)
  }

  datatype WorkerStep =
    | ServerTake | ServerPut | ServerEnd
    | CalcTake(i: nat) | CalcPut(i: nat) | CalcEnd(i: nat)
    | ClientTake | ClientPut | ClientEnd

  predicate CanStep(w: Worker, step: WorkerStep) {
    w.alive &&
    match step
    case ServerTake => w.server.CanTake() && w.requestLink != []
    case ServerPut => w.server.CanPut() && |w.unitsQueue| < w.capacity
    case ServerEnd => w.server.CanEnd() && |w.unitsQueue| < w.capacity
    case CalcTake(i) => i < |w.calculators| && w.calculators[i].CanTake() && w.unitsQueue != []
    case CalcPut(i) => i < |w.calculators| && w.calculators[i].CanPut() && |w.repliesQueue| < w.capacity
    case CalcEnd(i) => i < |w.calculators| && w.calculators[i].CanEnd() && |w.repliesQueue| < w.capacity
    case ClientTake => w.client.CanTake() && w.repliesQueue != []
    case ClientPut => w.client.CanPut()
    case ClientEnd => w.client.CanEnd()
  }

  /** `processQuery` appends the answer to the unit's result slot. */
  function Solve(compute: Query -> seq<int>, j: Job): Job {
    j.(result := j.result + compute(j.query))
  }

  function AfterStep(w: Worker, step: WorkerStep, compute: Query -> seq<int>): Worker
    requires CanStep(w, step)
  {
    match step
    case ServerTake =>
      var t := w.requestLink[0];
      w.(requestLink := w.requestLink[1..],
         server := Take(w.server, t, if t.Item? then [t.item] else []))
    case ServerPut =>
      w.(unitsQueue := w.unitsQueue + [Item(w.server.hold[0])], server := Put(w.server))
    case ServerEnd =>
      w.(unitsQueue := w.unitsQueue + [Stop], server := End(w.server))
    case CalcTake(i) =>
      var t := w.unitsQueue[0];
      w.(unitsQueue := w.unitsQueue[1..],
         calculators := w.calculators[i := Take(w.calculators[i], t,
                                                if t.Item? then [Solve(compute, t.item)] else [])])
    case CalcPut(i) =>
      w.(repliesQueue := w.repliesQueue + [Item(w.calculators[i].hold[0])],
         calculators := w.calculators[i := Put(w.calculators[i])])
    case CalcEnd(i) =>
      w.(repliesQueue := w.repliesQueue + [Stop], calculators := w.calculators[i := End(w.calculators[i])])
    case ClientTake =>
      var t := w.repliesQueue[0];
      w.(repliesQueue := w.repliesQueue[1..],
         client := Take(w.client, t, if t.Item? then [t.item] else []))
    case ClientPut =>
      w.(responseLink := w.responseLink + [Item(w.client.hold[0])], client := Put(w.client))
    case ClientEnd =>
      w.(responseLink := w.responseLink + [Stop], client := End(w.client))
  }

  // ------------------------------------------------------------- invariants

  /** The stop counts of a live worker. `open` says that the master's handler
      has not yet read the worker's own "-1". */
  ghost predicate Balanced(w: Worker, open: bool) {
    && w.capacity > 0 && w.server.Sound() && AllSound(w.calculators) && w.client.Sound()
    && Chan(w.requestLink, if w.told then 0 else 1, w.server.need)
    && Chan(w.unitsQueue, w.server.emit, NeedSum(w.calculators))
    && Chan(w.repliesQueue, EmitSum(w.calculators), w.client.need)
    && Chan(w.responseLink, w.client.emit, if open then 1 else 0)
  }

  /** Frames with key `k` anywhere between the two ends of the connection. */
  ghost function Inside<K(!new)>(w: Worker, key: Job -> K, k: K): nat {
    Queued(w.requestLink, key, k) + Tally(w.server.hold, key, k) +
    Queued(w.unitsQueue, key, k) + Held(w.calculators, key, k) +
    Queued(w.repliesQueue, key, k) + Tally(w.client.hold, key, k) +
    Queued(w.responseLink, key, k)
  }

  /** Frames that have been computed carry the answer, the others carry nothing. */
  ghost predicate JobOk(compute: Query -> seq<int>, j: Job, solved: bool) {
    j.result == if solved then compute(j.query) else []
  }

  ghost predicate QueueOk(compute: Query -> seq<int>, q: seq<Token<Job>>, solved: bool) {
    forall i :: 0 <= i < |q| && q[i].Item? ==> JobOk(compute, q[i].item, solved)
  }

  ghost predicate HoldOk(compute: Query -> seq<int>, s: seq<Job>, solved: bool) {
    forall i :: 0 <= i < |s| ==> JobOk(compute, s[i], solved)
  }

  ghost predicate Truthful(w: Worker, compute: Query -> seq<int>) {
    && QueueOk(compute, w.requestLink, false) && HoldOk(compute, w.server.hold, false)
    && QueueOk(compute, w.unitsQueue, false)
    && (forall i :: 0 <= i < |w.calculators| ==> HoldOk(compute, w.calculators[i].hold, true))
    && QueueOk(compute, w.repliesQueue, true) && HoldOk(compute, w.client.hold, true)
    && QueueOk(compute, w.responseLink, true)
  }

  lemma NewWorkerBalanced(calculators: nat, capacity: nat)
    requires calculators > 0 && capacity > 0
    ensures Balanced(NewWorker(calculators, capacity), true)
  {
    FreshTeam<Job, Unit>(calculators, UnitOf, Unit(0, 0));
  }

  lemma StepBalanced(w: Worker, step: WorkerStep, compute: Query -> seq<int>, open: bool)
    requires CanStep(w, step) && Balanced(w, open)
    ensures Balanced(AfterStep(w, step, compute), open)
    ensures AfterStep(w, step, compute).told == w.told && AfterStep(w, step, compute).alive
  {
    hide Chan, NeedSum, EmitSum, AllSound, Solve;
    match step {
      case ServerTake =>
        var t := w.requestLink[0];
        StageTakes(w.requestLink, if w.told then 0 else 1, w.server, if t.Item? then [t.item] else []);
      case ServerPut => StagePuts(w.server, w.unitsQueue, w.server.hold[0], NeedSum(w.calculators));
      case ServerEnd => StageEnds(w.server, w.unitsQueue, NeedSum(w.calculators));
      case CalcTake(i) =>
        var t := w.unitsQueue[0];
        TeamTakes(w.unitsQueue, w.server.emit, w.calculators, i, if t.Item? then [Solve(compute, t.item)] else []);
      case CalcPut(i) => TeamPuts(w.calculators, i, w.repliesQueue, w.calculators[i].hold[0], 0, w.client.need);
      case CalcEnd(i) => TeamStops(w.calculators, i, w.repliesQueue, 0, w.client.need);
      case ClientTake =>
        var t := w.repliesQueue[0];
        StageTakes(w.repliesQueue, EmitSum(w.calculators), w.client, if t.Item? then [t.item] else []);
      case ClientPut => StagePuts(w.client, w.responseLink, w.client.hold[0], if open then 1 else 0);
      case ClientEnd => StageEnds(w.client, w.responseLink, if open then 1 else 0);
    }
  }

  /** No step of the worker creates, duplicates or drops a frame. `key` must
      not look at the result, which is what a calculator changes. */
  lemma StepInside<K(!new)>(w: Worker, step: WorkerStep, compute: Query -> seq<int>, key: Job -> K, k: K)
    requires CanStep(w, step)
    requires forall j: Job, r: seq<int> :: key(j.(result := r)) == key(j)
    ensures Inside(AfterStep(w, step, compute), key, k) == Inside(w, key, k)
  {
    var w' := AfterStep(w, step, compute);
    assert forall j: Job :: [j][1..] == [];
    match step {
      case ServerTake =>
      case ServerPut => QueuedPush(w.unitsQueue, Item(w.server.hold[0]), key, k);
      case ServerEnd => QueuedPush(w.unitsQueue, Stop, key, k);
      case CalcTake(i) =>
        HeldUpdate(w.calculators, i, w'.calculators[i], key, k);
        if w.unitsQueue[0].Item? {
          var j := w.unitsQueue[0].item;
          assert key(j.(result := j.result + compute(j.query))) == key(j);
        }
      case CalcPut(i) =>
        QueuedPush(w.repliesQueue, Item(w.calculators[i].hold[0]), key, k);
        HeldUpdate(w.calculators, i, w'.calculators[i], key, k);
      case CalcEnd(i) =>
        QueuedPush(w.repliesQueue, Stop, key, k);
        HeldUpdate(w.calculators, i, w'.calculators[i], key, k);
      case ClientTake =>
      case ClientPut => QueuedPush(w.responseLink, Item(w.client.hold[0]), key, k);
      case ClientEnd => QueuedPush(w.responseLink, Stop, key, k);
    }
  }

  lemma OkPush(compute: Query -> seq<int>, q: seq<Token<Job>>, t: Token<Job>, solved: bool)
    requires QueueOk(compute, q, solved) && (t.Item? ==> JobOk(compute, t.item, solved))
    ensures QueueOk(compute, q + [t], solved)
  {
  }

  lemma OkPop(compute: Query -> seq<int>, q: seq<Token<Job>>, solved: bool)
    requires QueueOk(compute, q, solved) && q != []
    ensures QueueOk(compute, q[1..], solved) && (q[0].Item? ==> JobOk(compute, q[0].item, solved))
  {
  }

  lemma OkHead(compute: Query -> seq<int>, h: seq<Job>, solved: bool)
    requires HoldOk(compute, h, solved) && h != []
    ensures HoldOk(compute, h[1..], solved) && JobOk(compute, h[0], solved)
  {
  }

  lemma OkOne(compute: Query -> seq<int>, j: Job, solved: bool)
    requires JobOk(compute, j, solved)
    ensures HoldOk(compute, [j], solved)
  {
  }

  lemma OkNone(compute: Query -> seq<int>, solved: bool)
    ensures HoldOk(compute, [], solved)
  {
  }

  lemma StepTruthful(w: Worker, step: WorkerStep, compute: Query -> seq<int>)
    requires CanStep(w, step) && Truthful(w, compute)
    ensures Truthful(AfterStep(w, step, compute), compute)
  {
    hide QueueOk, HoldOk;
    OkNone(compute, false);
    OkNone(compute, true);
    match step {
      case ServerTake =>
        OkPop(compute, w.requestLink, false);
        if w.requestLink[0].Item? { OkOne(compute, w.requestLink[0].item, false); }
      case ServerPut =>
        OkHead(compute, w.server.hold, false);
        OkPush(compute, w.unitsQueue, Item(w.server.hold[0]), false);
      case ServerEnd => OkPush(compute, w.unitsQueue, Stop, false);
      case CalcTake(i) =>
        OkPop(compute, w.unitsQueue, false);
        if w.unitsQueue[0].Item? { OkOne(compute, Solve(compute, w.unitsQueue[0].item), true); }
      case CalcPut(i) =>
        OkHead(compute, w.calculators[i].hold, true);
        OkPush(compute, w.repliesQueue, Item(w.calculators[i].hold[0]), true);
      case CalcEnd(i) => OkPush(compute, w.repliesQueue, Stop, true);
      case ClientTake =>
        OkPop(compute, w.repliesQueue, true);
        if w.repliesQueue[0].Item? { OkOne(compute, w.repliesQueue[0].item, true); }
      case ClientPut =>
        OkHead(compute, w.client.hold, true);
        OkPush(compute, w.responseLink, Item(w.client.hold[0]), true);
      case ClientEnd => OkPush(compute, w.responseLink, Stop, true);
    }
  }

  /** Once the master has read the worker's "-1" nothing is left in the worker
      or on its links. */
  lemma ClosedWorkerIsEmpty<K(!new)>(w: Worker, key: Job -> K, k: K)
    requires Balanced(w, false)
    ensures w.told && w.requestLink == [] && w.unitsQueue == [] && w.repliesQueue == [] && w.responseLink == []
    ensures w.server.Halted() && w.client.Halted()
    ensures forall i :: 0 <= i < |w.calculators| ==> w.calculators[i].Halted()
    ensures Inside(w, key, k) == 0
  {
    ChanDrained(w.responseLink, w.client.emit);
    ChanDrained(w.repliesQueue, EmitSum(w.calculators));
    TeamSpent(w.calculators);
    TeamQuiet(w.calculators, key, k);
    ChanDrained(w.unitsQueue, w.server.emit);
    ChanDrained(w.requestLink, if w.told then 0 else 1);
  }

  // -------------------------------------------------- a worker run on its own

  /** `steps` is a run of the worker from `w` that ends in `last`. */
  ghost predicate WorkerRun(w: Worker, steps: seq<WorkerStep>, compute: Query -> seq<int>, last: Worker)
    decreases |steps|
  {
    if steps == [] then w == last
    else CanStep(w, steps[0]) && WorkerRun(AfterStep(w, steps[0], compute), steps[1..], compute, last)
  }

  lemma {:induction false} RunKeeps(w: Worker, steps: seq<WorkerStep>, compute: Query -> seq<int>, last: Worker,
                                    tag: Tag)
    requires WorkerRun(w, steps, compute, last) && Balanced(w, true) && Truthful(w, compute)
    ensures Balanced(last, true) && Truthful(last, compute) && last.told == w.told
    ensures Inside(last, TagOf, tag) == Inside(w, TagOf, tag)
    decreases |steps|
  {
    if steps == [] {
    } else {
      StepBalanced(w, steps[0], compute, true);
      StepInside(w, steps[0], compute, TagOf, tag);
      StepTruthful(w, steps[0], compute);
      RunKeeps(AfterStep(w, steps[0], compute), steps[1..], compute, last, tag);
    }
  }

  /** A worker with all its requests, and then the stop, on the link. */
  function Supplied(calculators: nat, capacity: nat, requests: seq<Token<Job>>): Worker {
    NewWorker(calculators, capacity).(requestLink := requests + [Stop], told := true)
  }

  lemma SuppliedWorker(calculators: nat, capacity: nat, requests: seq<Token<Job>>, compute: Query -> seq<int>, tag: Tag)
    requires calculators > 0 && capacity > 0
    requires Stops(requests) == 0 && QueueOk(compute, requests, false)
    ensures var w := Supplied(calculators, capacity, requests);
            Balanced(w, true) && Truthful(w, compute) && Inside(w, TagOf, tag) == Queued(requests, TagOf, tag)
  {
    hide NeedSum, EmitSum, AllSound, Held, Team;
    NewWorkerBalanced(calculators, capacity);
    StopsPush(requests, Token<Job>.Stop);
    QueuedPush(requests, Token<Job>.Stop, TagOf, tag);
    FreshTeam<Job, Tag>(calculators, TagOf, tag);
  }

  lemma HaltedWorker(w: Worker, tag: Tag)
    requires Balanced(w, true) && w.told && w.client.Halted()
    ensures Inside(w, TagOf, tag) == Queued(w.responseLink, TagOf, tag)
    ensures Stops(w.responseLink) == 1 && w.responseLink[|w.responseLink| - 1] == Stop
  {
    hide Stops, NeedSum, EmitSum;
    ChanDrained(w.repliesQueue, EmitSum(w.calculators));
    TeamSpent(w.calculators);
    TeamQuiet(w.calculators, TagOf, tag);
    ChanDrained(w.unitsQueue, w.server.emit);
    ChanDrained(w.requestLink, 0);
    StopsNothing<Job>();
  }

  lemma StopsNothing<T>()
    ensures Stops<T>([]) == 0
  {
  }

  /** Worker-side drain. A worker that was sent `requests` and then "-1", in
      whatever order its threads ran, has after its ResponseClient halted put
      on the response link exactly one answered frame per request, and then
      its own "-1" as the last thing. */
  lemma WorkerDrain(calculators: nat, capacity: nat, requests: seq<Token<Job>>, steps: seq<WorkerStep>,
                    compute: Query -> seq<int>, last: Worker, tag: Tag)
    requires calculators > 0 && capacity > 0
    requires Stops(requests) == 0 && QueueOk(compute, requests, false)
    requires WorkerRun(Supplied(calculators, capacity, requests), steps, compute, last)
    requires last.client.Halted()
    ensures Queued(last.responseLink, TagOf, tag) == Queued(requests, TagOf, tag)
    ensures QueueOk(compute, last.responseLink, true)
    ensures Stops(last.responseLink) == 1 && last.responseLink[|last.responseLink| - 1] == Stop
  {
    hide Balanced, WorkerRun, Inside, Queued, Stops;
    SuppliedWorker(calculators, capacity, requests, compute, tag);
    RunKeeps(Supplied(calculators, capacity, requests), steps, compute, last, tag);
    HaltedWorker(last, tag);
  }
}
