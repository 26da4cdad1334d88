/** The front of the line: every request of every client becomes one datum, with its own
    numbers in order, and nothing else does. */
module MasterArrivals {
  import opened Channels
  import Sequences
  import opened WorkerLine
  import opened MasterLine
  import opened MasterChannels
  import opened MasterCompletion
  import opened MasterDrain

  // ------------------------------------------------------------- what is on its way

  /** The requests that ask for numbers; the others are answered on the spot. */
  ghost function Asking(requests: seq<Request>): multiset<Request> {
    if requests == [] then multiset{}
    else (if requests[0] == [] then multiset{} else multiset{requests[0]}) + Asking(requests[1..])
  }

  ghost function AskingClients(clients: seq<Client>): multiset<Request> {
    if clients == [] then multiset{} else Asking(clients[0]) + AskingClients(clients[1..])
  }

  ghost function AskingQueue(q: seq<Token<Client>>): multiset<Request> {
    if q == [] then multiset{} else (if q[0].Item? then Asking(q[0].item) else multiset{}) + AskingQueue(q[1..])
  }

  ghost function AskingTeam(g: seq<Stage<Request>>): multiset<Request> {
    if g == [] then multiset{} else Asking(g[0].hold) + AskingTeam(g[1..])
  }

  /** Accepted and not yet a datum. */
  ghost function OnTheWay(s: State): multiset<Request> {
    AskingClients(s.acceptor.hold) + AskingQueue(s.socketsQueue) + AskingTeam(s.handlers)
  }

  /** What the client of this step asks for. */
  ghost function Brought(step: Step): multiset<Request> {
    if step.Env? && step.env.ClientArrives? then Asking(step.env.client) else multiset{}
  }

  /** What all clients of a run ask for. */
  ghost function Arrived(steps: seq<Step>): multiset<Request> {
    if steps == [] then multiset{} else Brought(steps[0]) + Arrived(steps[1..])
  }

  lemma {:induction false} QueuePush(q: seq<Token<Client>>, t: Token<Client>)
    ensures AskingQueue(q + [t]) == AskingQueue(q) + if t.Item? then Asking(t.item) else multiset{}
  {
    hide Asking;
    if q == [] {
      assert [t][1..] == [];
    } else {
      assert (q + [t])[1..] == q[1..] + [t];
      QueuePush(q[1..], t);
    }
  }

  lemma QueuePop(q: seq<Token<Client>>)
    requires q != []
    ensures AskingQueue(q) == AskingQueue(q[1..]) + if q[0].Item? then Asking(q[0].item) else multiset{}
  {
  }

  lemma FirstAsked(requests: seq<Request>)
    requires requests != []
    ensures Asking(requests)
         == Asking(requests[1..]) + if requests[0] == [] then multiset{} else multiset{requests[0]}
  {
  }

  lemma {:induction false} TeamUpdates(g: seq<Stage<Request>>, i: nat, st: Stage<Request>)
    requires i < |g|
    ensures AskingTeam(g[i := st]) + Asking(g[i].hold) == AskingTeam(g) + Asking(st.hold)
  {
    hide Asking;
    if i == 0 {
      assert g[i := st][1..] == g[1..];
    } else {
      assert g[i := st][1..] == g[1..][i - 1 := st];
      TeamUpdates(g[1..], i - 1, st);
      Sequences.Swap(Asking(g[0].hold), AskingTeam(g[1..][i - 1 := st]), Asking(g[i].hold), AskingTeam(g[1..]),
                     Asking(st.hold));
    }
  }

  lemma SmallClients(client: Client)
    ensures AskingClients([client]) == Asking(client) && AskingClients([]) == multiset{} && Asking([]) == multiset{}
  {
    assert [client][1..] == [];
  }

  // ------------------------------------------------------------------ conservation

  /** Nobody but clients and handlers changes these. */
  ghost predicate SameFront(s: State, s': State) {
    && s'.queries == s.queries && s'.acceptor.hold == s.acceptor.hold
    && s'.socketsQueue == s.socketsQueue && s'.handlers == s.handlers
  }

  lemma EnvFront(s: State, step: EnvStep)
    requires EnvEnabled(s, step) && !step.ClientArrives?
    ensures SameFront(s, EnvApply(s, step))
  {
    hide LostUnits, Dead, NewWorker;
  }

  lemma SpreadFront(c: Config, s: State, step: SpreadStep)
    requires SpreadEnabled(c, s, step)
    ensures SameFront(s, SpreadApply(c, s, step))
  {
    hide Take, Put, End, Fill, TellWorkers;
  }

  lemma LinkFront(c: Config, s: State, step: LinkStep)
    requires LinkEnabled(c, s, step)
    ensures SameFront(s, LinkApply(c, s, step))
  {
    hide Take, Put, End, Fill;
  }

  lemma BackFront(c: Config, s: State, step: BackStep)
    requires BackEnabled(c, s, step)
    ensures SameFront(s, BackApply(c, s, step))
  {
    hide Take, Put, End;
  }

  lemma InnerFront(c: Config, s: State, w: nat, step: WorkerStep)
    requires Enabled(c, s, InWorker(w, step))
    ensures SameFront(s, Apply(c, s, InWorker(w, step)))
  {
    hide CanStep, AfterStep;
  }

  lemma AcceptorMoves(c: Config, s: State, step: FrontStep)
    requires FrontEnabled(c, s, step) && |s.acceptor.hold| <= 1 && (step.AcceptorPut? || step.AcceptorEnd?)
    ensures var s' := FrontApply(c, s, step);
            && s'.queries == s.queries && OnTheWay(s') == OnTheWay(s) && |s'.acceptor.hold| <= 1
  {
    hide Asking, AskingQueue, AskingTeam, AskingClients;
    var s' := FrontApply(c, s, step);
    if step.AcceptorPut? {
      QueuePush(s.socketsQueue, Item(s.acceptor.hold[0]));
      SmallClients(s.acceptor.hold[0]);
      assert s.acceptor.hold == [s.acceptor.hold[0]] && s'.acceptor.hold == [];
    } else {
      QueuePush(s.socketsQueue, Stop);
    }
  }

  lemma HandlerTakes(c: Config, s: State, i: nat)
    requires FrontEnabled(c, s, HandlerTake(i))
    ensures var s' := FrontApply(c, s, HandlerTake(i));
            && s'.queries == s.queries && OnTheWay(s') == OnTheWay(s) && s'.acceptor == s.acceptor
  {
    hide Asking, AskingQueue, AskingTeam, AskingClients;
    var s' := FrontApply(c, s, HandlerTake(i));
    SmallClients([]);
    QueuePop(s.socketsQueue);
    TeamUpdates(s.handlers, i, s'.handlers[i]);
    var moved := Asking(s'.handlers[i].hold);
    assert AskingTeam(s'.handlers) == AskingTeam(s.handlers) + moved;
    assert AskingQueue(s.socketsQueue) == AskingQueue(s'.socketsQueue) + moved;
  }

  /** The request leaves the hand of its handler and is a datum, unless it asks for
      nothing. */
  lemma HandlerGives(c: Config, s: State, i: nat)
    requires FrontEnabled(c, s, FrontStep.HandlerPut(i))
    ensures var s' := FrontApply(c, s, FrontStep.HandlerPut(i));
            && multiset(s'.queries) + OnTheWay(s') == multiset(s.queries) + OnTheWay(s) && s'.acceptor == s.acceptor
  {
    hide Asking, AskingQueue, AskingTeam, AskingClients, Blank;
    var s' := FrontApply(c, s, FrontStep.HandlerPut(i));
    var r := s.handlers[i].hold[0];
    FirstAsked(s.handlers[i].hold);
    TeamUpdates(s.handlers, i, s'.handlers[i]);
    var gone := if r == [] then multiset{} else multiset{r};
    Sequences.TakeAway(AskingTeam(s'.handlers), AskingTeam(s.handlers), Asking(s'.handlers[i].hold), gone);
    assert multiset(s'.queries) == multiset(s.queries) + gone by {
      if r != [] { assert s'.queries == s.queries + [r]; }
    }
  }

  lemma FrontKeeps(c: Config, s: State, step: FrontStep)
    requires FrontEnabled(c, s, step) && |s.acceptor.hold| <= 1
    ensures var s' := FrontApply(c, s, step);
            && multiset(s'.queries) + OnTheWay(s') == multiset(s.queries) + OnTheWay(s)
            && |s'.acceptor.hold| <= 1
  {
    hide OnTheWay;
    match step {
      case AcceptorPut => AcceptorMoves(c, s, step);
      case AcceptorEnd => AcceptorMoves(c, s, step);
      case HandlerTake(i) => HandlerTakes(c, s, i);
      case HandlerPut(i) => HandlerGives(c, s, i);
      case HandlerEnd(i) => HandlerStops(c, s, i);
      case _ =>
        hide Decompose;
        SameWay(s, FrontApply(c, s, step));
    }
  }

  lemma HandlerStops(c: Config, s: State, i: nat)
    requires FrontEnabled(c, s, FrontStep.HandlerEnd(i))
    ensures var s' := FrontApply(c, s, FrontStep.HandlerEnd(i));
            && s'.queries == s.queries && OnTheWay(s') == OnTheWay(s) && s'.acceptor == s.acceptor
  {
    hide Asking, AskingQueue, AskingTeam, AskingClients;
    var s' := FrontApply(c, s, FrontStep.HandlerEnd(i));
    TeamUpdates(s.handlers, i, s'.handlers[i]);
    Sequences.TakeAway(AskingTeam(s'.handlers), AskingTeam(s.handlers), Asking(s.handlers[i].hold), multiset{});
  }

  lemma SameWay(s: State, s': State)
    requires SameFront(s, s')
    ensures s'.queries == s.queries && OnTheWay(s') == OnTheWay(s) && s'.acceptor.hold == s.acceptor.hold
  {
  }

  lemma ClientComes(s: State, client: Client)
    requires EnvEnabled(s, ClientArrives(client))
    ensures var s' := EnvApply(s, ClientArrives(client));
            && s'.queries == s.queries && OnTheWay(s') == OnTheWay(s) + Asking(client) && |s'.acceptor.hold| <= 1
  {
    hide Asking, AskingQueue, AskingTeam, AskingClients;
    SmallClients(client);
  }

  /** Conservation at the front of the line, step by step. */
  lemma StepKeeps(c: Config, s: State, step: Step)
    requires Enabled(c, s, step) && |s.acceptor.hold| <= 1
    ensures var s' := Apply(c, s, step);
            && multiset(s'.queries) + OnTheWay(s') == multiset(s.queries) + OnTheWay(s) + Brought(step)
            && |s'.acceptor.hold| <= 1
  {
    hide OnTheWay, EnvApply, FrontApply, SpreadApply, LinkApply, BackApply, CanStep, AfterStep, Asking, SameFront;
    hide EnvEnabled, FrontEnabled, SpreadEnabled, LinkEnabled, BackEnabled;
    var s' := Apply(c, s, step);
    match step {
      case Env(e) =>
        if e.ClientArrives? {
          ClientComes(s, e.client);
        } else {
          EnvFront(s, e);
          SameWay(s, s');
        }
      case Front(f) => FrontKeeps(c, s, f);
      case Spread(d) =>
        SpreadFront(c, s, d);
        SameWay(s, s');
      case Link(l) =>
        LinkFront(c, s, l);
        SameWay(s, s');
      case Back(b) =>
        BackFront(c, s, b);
        SameWay(s, s');
      case InWorker(w, ws) =>
        InnerFront(c, s, w, ws);
        SameWay(s, s');
    }
  }

  lemma {:induction false} RunKeeps(c: Config, s: State, steps: seq<Step>, last: State)
    requires Run(c, s, steps, last) && |s.acceptor.hold| <= 1
    ensures multiset(last.queries) + OnTheWay(last) == multiset(s.queries) + OnTheWay(s) + Arrived(steps)
    decreases |steps|
  {
    hide Enabled, Apply, OnTheWay, Brought;
    if steps != [] {
      StepKeeps(c, s, steps[0]);
      RunKeeps(c, Apply(c, s, steps[0]), steps[1..], last);
    }
  }

  lemma {:induction false} FreshTeamAsksNothing(n: nat)
    ensures AskingTeam(Team(n)) == multiset{}
  {
    if n > 0 {
      FreshTeamAsksNothing(n - 1);
      assert Team<Request>(n)[1..] == Team(n - 1);
    }
  }

  /** Over every run: the requests that the clients brought and that ask for numbers are
      the data of the tables and those still on their way, each as often. */
  lemma RequestsAreKept(c: Config, steps: seq<Step>, s: State)
    requires Run(c, Init(c), steps, s)
    ensures Arrived(steps) == multiset(s.queries) + OnTheWay(s)
  {
    hide Run, Arrived;
    StartIsEmpty(c);
    RunKeeps(c, Init(c), steps, s);
  }

  lemma StartIsEmpty(c: Config)
    ensures Init(c).queries == [] && Init(c).acceptor.hold == [] && OnTheWay(Init(c)) == multiset{}
  {
    FreshTeamAsksNothing(c.handlers);
  }

  lemma {:induction false} HaltedTeamAsksNothing(g: seq<Stage<Request>>)
    requires AllHalted(g)
    ensures AskingTeam(g) == multiset{}
  {
    if g != [] {
      assert g[0].Halted();
      forall i | 0 <= i < |g[1..]| ensures g[1..][i].Halted() { assert g[1..][i] == g[i + 1]; }
      HaltedTeamAsksNothing(g[1..]);
    }
  }

  /** When the server has ended no request is left on its way, whatever was lost. */
  lemma NothingIsIgnored(c: Config, steps: seq<Step>, s: State)
    requires c.Valid() && Run(c, Init(c), steps, s) && !s.responding
    ensures multiset(s.queries) == Arrived(steps)
  {
    hide Run, Arrived, Inv;
    RequestsAreKept(c, steps, s);
    assert Reachable(c, s);
    ReachableInv(c, s);
    QuietWay(c, s);
  }

  lemma QuietWay(c: Config, s: State)
    requires Inv(c, s) && !s.responding
    ensures OnTheWay(s) == multiset{}
  {
    MasterQuiet(s);
    HaltedTeamAsksNothing(s.handlers);
  }

  // -------------------------------------------------------------- what is answered

  /** The requests that the answers belong to. */
  ghost function AnsweredRequests(queries: seq<Request>, answers: seq<Answer>): multiset<Request>
    requires forall k :: 0 <= k < |answers| ==> answers[k].datum < |queries|
  {
    if answers == [] then multiset{} else multiset{queries[answers[0].datum]} + AnsweredRequests(queries, answers[1..])
  }

  lemma {:induction false} AnswersConcat(queries: seq<Request>, a: seq<Answer>, b: seq<Answer>)
    requires forall k :: 0 <= k < |a| ==> a[k].datum < |queries|
    requires forall k :: 0 <= k < |b| ==> b[k].datum < |queries|
    ensures AnsweredRequests(queries, a + b) == AnsweredRequests(queries, a) + AnsweredRequests(queries, b)
  {
    if a == [] {
      assert a + b == b;
    } else {
      assert (a + b)[1..] == a[1..] + b;
      AnswersConcat(queries, a[1..], b);
    }
  }

  lemma {:induction false} AnswersBelow(queries: seq<Request>, n: nat, answers: seq<Answer>)
    requires n <= |queries| && forall k :: 0 <= k < |answers| ==> answers[k].datum < n
    ensures AnsweredRequests(queries[..n], answers) == AnsweredRequests(queries, answers)
  {
    if answers != [] { AnswersBelow(queries, n, answers[1..]); }
  }

  lemma {:induction false} TallyNone(answers: seq<Answer>, d: nat)
    requires Tally(answers, DatumOf, d) == 0
    ensures forall k :: 0 <= k < |answers| ==> answers[k].datum != d
  {
    if answers != [] { TallyNone(answers[1..], d); }
  }

  lemma {:induction false} TallyWitness(answers: seq<Answer>, d: nat) returns (k: nat)
    requires Tally(answers, DatumOf, d) > 0
    ensures k < |answers| && answers[k].datum == d
  {
    if answers[0].datum == d {
      k := 0;
    } else {
      k := TallyWitness(answers[1..], d);
      k := k + 1;
    }
  }

  lemma SomeDatum(answers: seq<Answer>, n: nat)
    requires answers != [] && forall k :: 0 <= k < |answers| ==> answers[k].datum < n
    ensures n > 0
  {
    assert answers[0].datum < n;
  }

  /** One answer for each datum: together they answer each request as often as it was
      made. */
  lemma {:induction false} AnswersCover(queries: seq<Request>, answers: seq<Answer>)
    requires forall k :: 0 <= k < |answers| ==> answers[k].datum < |queries|
    requires forall d: nat :: d < |queries| ==> Tally(answers, DatumOf, d) == 1
    ensures AnsweredRequests(queries, answers) == multiset(queries)
    decreases |queries|
  {
    if answers != [] { SomeDatum(answers, |queries|); }
    if queries != [] {
      hide Tally;
      var n := |queries| - 1;
      var k := TallyWitness(answers, n);
      var others := answers[..k] + answers[k + 1..];
      assert answers == answers[..k] + ([answers[k]] + answers[k + 1..]);
      forall d: nat ensures Tally(answers, DatumOf, d) == Tally(others, DatumOf, d) + if d == n then 1 else 0 {
        TallyWithout(answers[..k], answers[k], answers[k + 1..], d);
      }
      TallyNone(others, n);
      forall l | 0 <= l < |others| ensures others[l].datum < n { assert others[l] in answers; }
      AnswersCover(queries[..n], others);
      AnswersBelow(queries, n, others);
      AnswersOne(queries, answers[..k], answers[k], answers[k + 1..]);
      assert queries == queries[..n] + [queries[n]];
    }
  }

  lemma TallyWithout(a: seq<Answer>, one: Answer, b: seq<Answer>, d: nat)
    ensures Tally(a + ([one] + b), DatumOf, d) == Tally(a + b, DatumOf, d) + if one.datum == d then 1 else 0
  {
    hide Tally;
    TallyConcat(a, [one] + b, DatumOf, d);
    TallyConcat([one], b, DatumOf, d);
    TallySmall(one, DatumOf, d);
    TallyConcat(a, b, DatumOf, d);
  }

  lemma AnswersOne(queries: seq<Request>, a: seq<Answer>, one: Answer, b: seq<Answer>)
    requires forall k :: 0 <= k < |a| ==> a[k].datum < |queries|
    requires forall k :: 0 <= k < |b| ==> b[k].datum < |queries|
    requires one.datum < |queries|
    ensures AnsweredRequests(queries, a + ([one] + b))
         == AnsweredRequests(queries, a + b) + multiset{queries[one.datum]}
  {
    AnswersConcat(queries, a, [one] + b);
    AnswersConcat(queries, a, b);
    assert ([one] + b)[1..] == b;
  }

  lemma {:induction false} AskingHas(requests: seq<Request>, j: nat)
    requires j < |requests| && requests[j] != []
    ensures requests[j] in Asking(requests)
  {
    if j > 0 { AskingHas(requests[1..], j - 1); }
  }

  lemma {:induction false} BroughtArrives(steps: seq<Step>, i: nat, j: nat)
    requires i < |steps| && steps[i].Env? && steps[i].env.ClientArrives?
    requires j < |steps[i].env.client| && steps[i].env.client[j] != []
    ensures steps[i].env.client[j] in Arrived(steps)
  {
    hide Asking;
    if i > 0 { BroughtArrives(steps[1..], i - 1, j); } else { AskingHas(steps[0].env.client, j); }
  }

  lemma {:induction false} AnswerTo(queries: seq<Request>, answers: seq<Answer>, r: Request) returns (k: nat)
    requires forall k :: 0 <= k < |answers| ==> answers[k].datum < |queries|
    requires r in AnsweredRequests(queries, answers)
    ensures k < |answers| && queries[answers[k].datum] == r
  {
    if queries[answers[0].datum] == r {
      k := 0;
    } else {
      k := AnswerTo(queries, answers[1..], r);
      k := k + 1;
    }
  }
}
