/** A lexicographic weight over requests, units and stops that every step of
    every thread decreases: once the environment is silent the line stops. */
module MasterTermination {
  import opened Channels
  import opened WorkerLine
  import opened MasterLine
  import opened MasterChannels
  import opened MasterFlow
  import opened MasterFlowSteps
  import opened MasterCompletion

  // ------------------------------------------------------------------ weights

  /** `a` per product and one per stop. */
  ghost function Weight<T>(q: seq<Token<T>>, a: nat): nat {
    if q == [] then 0 else (if q[0].Stop? then 1 else a) + Weight(q[1..], a)
  }

  /** `h` per product held and two per stop still to be emitted. */
  ghost function Load<T>(st: Stage<T>, h: nat): nat { h * |st.hold| + 2 * st.emit }

  ghost function TeamLoad<T>(g: seq<Stage<T>>, h: nat): nat {
    if g == [] then 0 else Load(g[0], h) + TeamLoad(g[1..], h)
  }

  ghost function ClientsWeight(q: seq<Token<Client>>): nat {
    if q == [] then 0
    else (if q[0].Stop? then 1 else 2 * |q[0].item| + 1) + ClientsWeight(q[1..])
  }

  ghost function HeldClients(h: seq<Client>): nat {
    if h == [] then 0 else 2 * |h[0]| + 2 + HeldClients(h[1..])
  }

  ghost function Busy(reading: seq<Option<nat>>): nat {
    if reading == [] then 0 else (if reading[0].Some? then 1 else 0) + Busy(reading[1..])
  }

  ghost function WorkerWeight(w: Worker): nat {
    (if w.told then 0 else 2) + Weight(w.requestLink, 11) + Load(w.server, 10) + Weight(w.unitsQueue, 9) +
    TeamLoad(w.calculators, 8) + Weight(w.repliesQueue, 7) + Load(w.client, 6) + Weight(w.responseLink, 5)
  }

  ghost function WorkersWeight(workers: seq<Worker>): nat {
    if workers == [] then 0 else WorkerWeight(workers[0]) + WorkersWeight(workers[1..])
  }

  ghost function PickWeight(p: Pick): nat {
    match p case Undecided => 2 case Remote(_) => 1 case Local => 0
  }

  /** Requests that have not yet been decomposed. */
  ghost function FrontWeight(s: State): nat {
    2 * s.acceptor.emit + HeldClients(s.acceptor.hold) + ClientsWeight(s.socketsQueue) +
    TeamLoad(s.handlers, 2) + |s.decomposerQueue|
  }

  ghost function SpreadWeight(s: State): nat {
    Load(s.decomposer, 15) + Weight(s.distributorQueue, 14) + Load(s.distributor, 13) + PickWeight(s.pick) +
    (if s.stopped then 0 else 1) + Weight(s.unitsQueue, 5) + TeamLoad(s.calculators, 4)
  }

  ghost function LinkWeight(s: State): nat {
    Load(s.masterServer, 3) + Weight(s.connectionsQueue, 2) + Busy(s.reading) + TeamLoad(s.readers, 4) +
    WorkersWeight(s.workers)
  }

  ghost function BackWeight(s: State): nat {
    Weight(s.assemblerQueue, 3) + Load(s.assembler, 2) + |s.responderQueue|
  }

  /** Units, connections and stops behind the Decomposer's queue. */
  ghost function RearWeight(s: State): nat { SpreadWeight(s) + LinkWeight(s) + BackWeight(s) }

  ghost predicate Lighter(s': State, s: State) {
    || FrontWeight(s') < FrontWeight(s)
    || (FrontWeight(s') == FrontWeight(s) && RearWeight(s') < RearWeight(s))
  }

  // ------------------------------------------------------------ weight lemmas

  lemma {:induction false} WeightPush<T>(q: seq<Token<T>>, t: Token<T>, a: nat)
    ensures Weight(q + [t], a) == Weight(q, a) + if t.Stop? then 1 else a
  {
    if q == [] {
    } else {
      assert (q + [t])[1..] == q[1..] + [t];
      WeightPush(q[1..], t, a);
    }
  }

  lemma WeightPop<T>(q: seq<Token<T>>, a: nat)
    requires q != []
    ensures Weight(q, a) == Weight(q[1..], a) + if q[0].Stop? then 1 else a
  {
  }

  lemma {:induction false} TeamLoadUpdate<T>(g: seq<Stage<T>>, i: nat, st: Stage<T>, h: nat)
    requires i < |g|
    ensures TeamLoad(g[i := st], h) == TeamLoad(g, h) - Load(g[i], h) + Load(st, h)
  {
    hide Load;
    if i == 0 {
      assert g[i := st][1..] == g[1..];
    } else {
      assert g[i := st][1..] == g[1..][i - 1 := st];
      TeamLoadUpdate(g[1..], i - 1, st, h);
    }
  }

  lemma {:induction false} ClientsPush(q: seq<Token<Client>>, t: Token<Client>)
    ensures ClientsWeight(q + [t]) == ClientsWeight(q) + if t.Stop? then 1 else 2 * |t.item| + 1
  {
    if q == [] {
    } else {
      assert (q + [t])[1..] == q[1..] + [t];
      ClientsPush(q[1..], t);
    }
  }

  lemma {:induction false} BusyUpdate(reading: seq<Option<nat>>, i: nat, r: Option<nat>)
    requires i < |reading|
    ensures Busy(reading[i := r]) == Busy(reading) - (if reading[i].Some? then 1 else 0) + (if r.Some? then 1 else 0)
  {
    if i == 0 {
      assert reading[i := r][1..] == reading[1..];
    } else {
      assert reading[i := r][1..] == reading[1..][i - 1 := r];
      BusyUpdate(reading[1..], i - 1, r);
    }
  }

  lemma {:induction false} WorkersWeightUpdate(workers: seq<Worker>, i: nat, w: Worker)
    requires i < |workers|
    ensures WorkersWeight(workers[i := w]) == WorkersWeight(workers) - WorkerWeight(workers[i]) + WorkerWeight(w)
  {
    hide WorkerWeight;
    if i == 0 {
      assert workers[i := w][1..] == workers[1..];
    } else {
      assert workers[i := w][1..] == workers[1..][i - 1 := w];
      WorkersWeightUpdate(workers[1..], i - 1, w);
    }
  }

  lemma {:induction false} TellWeight(workers: seq<Worker>, pool: set<nat>, n: nat)
    requires n <= |workers|
    requires forall w :: 0 <= w < |workers| ==> !workers[w].told
    ensures WorkersWeight(TellWorkers(workers, pool)[..n]) <= WorkersWeight(workers[..n])
  {
    if n > 0 {
      var told := TellWorkers(workers, pool);
      assert told[..n] == told[..n - 1] + [told[n - 1]] && workers[..n] == workers[..n - 1] + [workers[n - 1]];
      TellWeight(workers, pool, n - 1);
      WeightAppend(told[..n - 1], told[n - 1]);
      WeightAppend(workers[..n - 1], workers[n - 1]);
      WeightPush(workers[n - 1].requestLink, Token<Job>.Stop, 11);
    }
  }

  lemma {:induction false} WeightAppend(workers: seq<Worker>, w: Worker)
    ensures WorkersWeight(workers + [w]) == WorkersWeight(workers) + WorkerWeight(w)
  {
    hide WorkerWeight;
    if workers == [] {
      assert (workers + [w])[1..] == [];
    } else {
      assert (workers + [w])[1..] == workers[1..] + [w];
      WeightAppend(workers[1..], w);
    }
  }

  // ------------------------------------------------------------ every step is lighter

  lemma WorkerLighter(w: Worker, step: WorkerStep, compute: Query -> seq<int>)
    requires CanStep(w, step)
    ensures WorkerWeight(AfterStep(w, step, compute)) < WorkerWeight(w)
  {
    hide Weight, TeamLoad;
    var w' := AfterStep(w, step, compute);
    match step {
      case ServerTake => WeightPop(w.requestLink, 11);
      case ServerPut => WeightPush(w.unitsQueue, Item(w.server.hold[0]), 9);
      case ServerEnd => WeightPush(w.unitsQueue, Token<Job>.Stop, 9);
      case CalcTake(i) =>
        WeightPop(w.unitsQueue, 9);
        TeamLoadUpdate(w.calculators, i, w'.calculators[i], 8);
      case CalcPut(i) =>
        WeightPush(w.repliesQueue, Item(w.calculators[i].hold[0]), 7);
        TeamLoadUpdate(w.calculators, i, w'.calculators[i], 8);
      case CalcEnd(i) =>
        WeightPush(w.repliesQueue, Token<Job>.Stop, 7);
        TeamLoadUpdate(w.calculators, i, w'.calculators[i], 8);
      case ClientTake => WeightPop(w.repliesQueue, 7);
      case ClientPut => WeightPush(w.responseLink, Item(w.client.hold[0]), 5);
      case ClientEnd => WeightPush(w.responseLink, Token<Job>.Stop, 5);
    }
  }

  lemma FrontLighter(c: Config, s: State, step: FrontStep)
    requires FrontEnabled(c, s, step)
    ensures Lighter(FrontApply(c, s, step), s)
  {
    hide Weight, TeamLoad, ClientsWeight, WorkersWeight, Busy, Decompose;
    var s' := FrontApply(c, s, step);
    match step {
      case AcceptorPut => ClientsPush(s.socketsQueue, Item(s.acceptor.hold[0]));
      case AcceptorEnd => ClientsPush(s.socketsQueue, Stop);
      case HandlerTake(i) =>
        TeamLoadUpdate(s.handlers, i, s'.handlers[i], 2);
        ClientsPop(s.socketsQueue);
      case HandlerPut(i) => TeamLoadUpdate(s.handlers, i, s'.handlers[i], 2);
      case HandlerEnd(i) => TeamLoadUpdate(s.handlers, i, s'.handlers[i], 2);
      case DecomposerTake =>
      case DecomposerPut => WeightPush(s.distributorQueue, Item(s.decomposer.hold[0]), 14);
      case DecomposerEnd => WeightPush(s.distributorQueue, Token<Unit>.Stop, 14);
    }
  }

  lemma ClientsPop(q: seq<Token<Client>>)
    requires q != []
    ensures ClientsWeight(q) == ClientsWeight(q[1..]) + if q[0].Stop? then 1 else 2 * |q[0].item| + 1
  {
  }

  lemma SpreadLighter(c: Config, s: State, step: SpreadStep)
    requires ChanInv(s) && PoolInv(s) && SpreadEnabled(c, s, step)
    ensures Lighter(SpreadApply(c, s, step), s)
  {
    hide ChanInv, PoolInv, Lighter, SpreadApply;
    if step.CalculatorTake? || step.CalculatorPut? || step.CalculatorEnd? {
      CalculatorLighter(c, s, step);
    } else if step.SendRemote? || step.StopWorkers? {
      LinksLighter(c, s, step);
    } else {
      DistributorLighter(c, s, step);
    }
  }

  lemma CalculatorLighter(c: Config, s: State, step: SpreadStep)
    requires SpreadEnabled(c, s, step) && (step.CalculatorTake? || step.CalculatorPut? || step.CalculatorEnd?)
    ensures Lighter(SpreadApply(c, s, step), s)
  {
    hide Weight, TeamLoad, WorkersWeight, Fill, HeldClients, ClientsWeight, Busy;
    var s' := SpreadApply(c, s, step);
    match step {
      case CalculatorTake(i) =>
        WeightPop(s.unitsQueue, 5);
        TeamLoadUpdate(s.calculators, i, s'.calculators[i], 4);
      case CalculatorPut(i) =>
        WeightPush(s.assemblerQueue, Item(s.calculators[i].hold[0]), 3);
        TeamLoadUpdate(s.calculators, i, s'.calculators[i], 4);
      case CalculatorEnd(i) =>
        WeightPush(s.assemblerQueue, Token<Unit>.Stop, 3);
        TeamLoadUpdate(s.calculators, i, s'.calculators[i], 4);
    }
  }

  /** The two steps that write on worker links. */
  lemma LinksLighter(c: Config, s: State, step: SpreadStep)
    requires ChanInv(s) && PoolInv(s) && SpreadEnabled(c, s, step) && (step.SendRemote? || step.StopWorkers?)
    ensures Lighter(SpreadApply(c, s, step), s)
  {
    hide Weight, TeamLoad, WorkersWeight, ChanInv, PlacesInv, ReadersInv, WorkerOk, HeldClients, ClientsWeight, Busy;
    var s' := SpreadApply(c, s, step);
    if step.SendRemote? {
      WorkersWeightUpdate(s.workers, s.pick.worker, s'.workers[s.pick.worker]);
      var link := s.workers[s.pick.worker].requestLink;
      WeightPush(link, s'.workers[s.pick.worker].requestLink[|link|], 11);
    } else {
      TellWeight(s.workers, s.pool, |s.workers|);
      assert s.workers[..|s.workers|] == s.workers && s'.workers[..|s.workers|] == s'.workers;
    }
  }

  lemma DistributorLighter(c: Config, s: State, step: SpreadStep)
    requires SpreadEnabled(c, s, step) && !step.SendRemote? && !step.StopWorkers?
    requires !step.CalculatorTake? && !step.CalculatorPut? && !step.CalculatorEnd?
    ensures Lighter(SpreadApply(c, s, step), s)
  {
    hide Weight, TeamLoad, WorkersWeight, HeldClients, ClientsWeight, Busy;
    match step {
      case DistributorTake => WeightPop(s.distributorQueue, 14);
      case DistributorPut => WeightPush(s.unitsQueue, Item(s.distributor.hold[0]), 5);
      case DistributorEnd => WeightPush(s.unitsQueue, Token<Unit>.Stop, 5);
      case _ =>
    }
  }

  /** A response leaves the link for its handler's hand; a "-1" ends the service. */
  lemma ReadLighter(s: State, i: nat)
    requires Attached(s, i) && s.workers[s.reading[i].value].responseLink != []
    ensures Lighter(ReaderReads(s, i), s)
  {
    hide Weight, TeamLoad, WorkersWeight, Busy, Fill, HeldClients, ClientsWeight, WorkerWeight;
    var s' := ReaderReads(s, i);
    var w := s.reading[i].value;
    WorkersWeightUpdate(s.workers, w, s'.workers[w]);
    LinkPop(s.workers[w]);
    TeamLoadUpdate(s.readers, i, s'.readers[i], 4);
    BusyUpdate(s.reading, i, None);
  }

  lemma LinkPop(w: Worker)
    requires w.responseLink != []
    ensures WorkerWeight(w)
         == WorkerWeight(w.(responseLink := w.responseLink[1..])) + if w.responseLink[0].Stop? then 1 else 5
  {
    WeightPop(w.responseLink, 5);
  }

  lemma LinkLighter(c: Config, s: State, step: LinkStep)
    requires LinkEnabled(c, s, step)
    ensures Lighter(LinkApply(c, s, step), s)
  {
    hide Weight, TeamLoad, WorkersWeight, Busy, Fill, HeldClients, ClientsWeight;
    var s' := LinkApply(c, s, step);
    match step {
      case ServerPut => WeightPush<nat>(s.connectionsQueue, Item(s.masterServer.hold[0]), 2);
      case ServerEnd => WeightPush<nat>(s.connectionsQueue, Stop, 2);
      case ReaderTake(i) =>
        WeightPop<nat>(s.connectionsQueue, 2);
        TeamLoadUpdate(s.readers, i, s'.readers[i], 4);
        BusyUpdate(s.reading, i, s'.reading[i]);
      case ReaderRead(i) => ReadLighter(s, i);
      case ReaderEof(i) => BusyUpdate(s.reading, i, None);
      case ReaderPut(i) =>
        WeightPush(s.assemblerQueue, Item(s.readers[i].hold[0]), 3);
        TeamLoadUpdate(s.readers, i, s'.readers[i], 4);
      case ReaderEnd(i) =>
        WeightPush(s.assemblerQueue, Token<Unit>.Stop, 3);
        TeamLoadUpdate(s.readers, i, s'.readers[i], 4);
    }
  }

  lemma BackLighter(c: Config, s: State, step: BackStep)
    requires BackEnabled(c, s, step)
    ensures Lighter(BackApply(c, s, step), s)
  {
    hide Weight, TeamLoad, WorkersWeight, Busy, HeldClients, ClientsWeight;
    if step.AssemblerTake? { WeightPop(s.assemblerQueue, 3); }
  }

  lemma InnerLighter(c: Config, s: State, w: nat, step: WorkerStep)
    requires Enabled(c, s, InWorker(w, step))
    ensures Lighter(Apply(c, s, InWorker(w, step)), s)
  {
    hide Weight, TeamLoad, WorkersWeight, Busy, HeldClients, ClientsWeight, AfterStep, CanStep, WorkerWeight;
    WorkerLighter(s.workers[w], step, c.compute);
    WorkersWeightUpdate(s.workers, w, AfterStep(s.workers[w], step, c.compute));
  }

  /** Termination: every step that is not the environment's makes the line
      lighter. */
  lemma StepLighter(c: Config, s: State, step: Step)
    requires Inv(c, s) && Enabled(c, s, step) && !step.Env?
    ensures Lighter(Apply(c, s, step), s)
  {
    hide Lighter, ChanInv, PoolInv, FlowInv, PendingInv, DoneInv;
    match step {
      case Front(f) => FrontLighter(c, s, f);
      case Spread(d) => SpreadLighter(c, s, d);
      case Link(l) => LinkLighter(c, s, l);
      case Back(b) => BackLighter(c, s, b);
      case InWorker(w, ws) => InnerLighter(c, s, w, ws);
    }
  }
}
