/** The line with the calculators in it: what a client receives for the URI of its
    request. */
module Composition {
  import opened Channels
  import opened WorkerLine
  import opened MasterCompletion
  import opened Decimal
  import opened Primes
  import opened CalcData
  import opened Ranges
  import Line = MasterLine
  import Drain = MasterDrain
  import Progress = MasterProgress
  import History = MasterHistory
  import Arrivals = MasterArrivals
  import Uris
  import Wire = WireCodec
  import Factors = PrimeFactorization
  import Sums = Goldbach
  import Brute = GoldbachBruteForce

  // ------------------------------------------------- the calculators as a function

  /** Every number has a factorization, prime by prime. */
  lemma {:induction false} FactorizationExists(n: int, bound: int) returns (flat: seq<int>)
    requires n >= 1 && bound >= 2
    ensures Factors.PrefixFactorization(n, flat, bound)
    decreases bound
  {
    hide Factors.PrefixFactorization, Factors.Multiplicity, Divides, Prime;
    if bound == 2 {
      flat := [];
      NoPrimesBelowTwo(n);
    } else {
      flat := FactorizationExists(n, bound - 1);
      if Prime(bound - 1) && Divides(bound - 1, n) {
        Factors.Extend(n, flat, bound - 1, bound);
        flat := flat + [bound - 1, Factors.Multiplicity(n, bound - 1)];
      } else {
        Factors.Widen(n, flat, bound - 1, bound);
      }
    }
  }

  lemma NoPrimesBelowTwo(n: int)
    requires n >= 1
    ensures Factors.PrefixFactorization(n, [], 2)
  {
  }

  lemma FilledExists(app: nat, query: int)
    ensures exists values :: Filled(app, query, [], values)
  {
    hide Factors.PrefixFactorization, Sums.Enumerates;
    if app == Wire.FACT {
      var values := [];
      if query > 1 { values := FactorizationExists(query, query + 1); }
      assert values == [] + values && Factored(query, values);
      assert Filled(app, query, [], values);
    } else {
      var n := Sums.Abs(query);
      var sums := if Sums.SumOperands(n) == 2 then Brute.BrutePairs(n, 2, 2) else Brute.BruteTriples(n, 2, 2, 2);
      Brute.SearchIsBruteForce(n, sums);
      assert SumsOf(query, sums);
      assert Filled(app, query, [], GoldbachSlot(query, [], Sums.Flatten(sums)));
    }
  }

  /** What the two calculators make of a query. */
  ghost function Calculate(q: Query): (values: seq<int>)
    ensures Filled(q.app, q.number, [], values)
  {
    FilledExists(q.app, q.number);
    var values :| Filled(q.app, q.number, [], values);
    values
  }

  /** The line computes with the calculators; nothing is said of a query on which
      they overflow. */
  ghost predicate Calculating(c: Line.Config) {
    forall q: Query :: !QueryOverflows(q.app, q.number) ==> c.compute(q) == Calculate(q)
  }

  /** Such a line exists for all capacities and numbers of threads. */
  lemma CalculatorsFit(capacity: nat, handlers: nat, calculators: nat, workerHandlers: nat)
    ensures Calculating(Line.Config(capacity, handlers, calculators, workerHandlers, Calculate))
  {
  }

  // -------------------------------------------------------------- what is answered

  /** The slot is what the calculators make of the query, in 64-bit integers. */
  ghost predicate Correct(q: Query, slot: seq<int>) {
    Wire.Calculates(q.app) && Int64(q.number) && !QueryOverflows(q.app, q.number) ==>
      Filled(q.app, q.number, [], slot) && Wire.AllInt64(slot)
  }

  ghost predicate AllCorrect(queries: Line.Request, slots: seq<seq<int>>) {
    |slots| == |queries| && forall i :: 0 <= i < |slots| ==> Correct(queries[i], slots[i])
  }

  lemma CalculatedIsCorrect(c: Line.Config, q: Query)
    requires Calculating(c)
    ensures Correct(q, c.compute(q))
  {
    hide Filled, QueryOverflows, Calculate;
    if Wire.Calculates(q.app) && Int64(q.number) && !QueryOverflows(q.app, q.number) {
      assert c.compute(q) == Calculate(q);
      FilledFits(q.app, q.number, Calculate(q));
    }
  }

  /** Every response ever sent, on any run and with any losses: one slot per query of
      its datum, each the factorization or the Goldbach sums of that query. */
  lemma ResponsesAreCalculated(c: Line.Config, s: Line.State, k: nat)
    requires c.Valid() && Calculating(c) && Drain.Reachable(c, s) && k < |s.answers|
    ensures s.answers[k].datum < |s.queries| && AllCorrect(s.queries[s.answers[k].datum], s.answers[k].slots)
  {
    hide Drain.Reachable, Calculating, Correct;
    Drain.ResponsesAreExact(c, s);
    var a := s.answers[k];
    assert Exact(c, s.queries, a);
    forall i | 0 <= i < |a.slots| ensures Correct(s.queries[a.datum][i], a.slots[i]) {
      CalculatedIsCorrect(c, s.queries[a.datum][i]);
    }
  }

  /** The queries of a request for one application. */
  function Asked(app: nat, numbers: seq<int>): (queries: Line.Request)
    ensures |queries| == |numbers|
    ensures forall i :: 0 <= i < |numbers| ==> queries[i] == Query(app, numbers[i])
  {
    if numbers == [] then [] else Asked(app, numbers[..|numbers| - 1]) + [Query(app, numbers[|numbers| - 1])]
  }

  /** What the client reads: for the `j`-th text of its URI, if it is a number, the
      slot that `formatResponse` puts beside it is the result for this very number. */
  lemma UriIsAnswered(c: Line.Config, s: Line.State, k: nat, app: nat, uri: string, j: nat)
    requires c.Valid() && Calculating(c) && Drain.Reachable(c, s) && k < |s.answers|
    requires var d := s.answers[k].datum;
             d < |s.queries| && s.queries[d] == Asked(app, ValidValues(NumberTexts(uri)))
    requires j < |UriValues(uri)| && ValidNumber(UriValues(uri)[j])
    ensures var r := Rank(UriValues(uri), j);
            && r < |s.answers[k].slots|
            && Correct(Query(app, Stoll(UriValues(uri)[j]).value), s.answers[k].slots[r])
  {
    hide Drain.Reachable, Calculating, Correct, Stoll, NumberTexts, HasEquals, ValidValues;
    ResponsesAreCalculated(c, s, k);
    RankedValue(UriValues(uri), j);
  }

  // --------------------------------------------------------------- the whole server

  /** Every answer belongs to a datum. */
  ghost predicate AnswersKnown(s: Line.State) {
    forall k :: 0 <= k < |s.answers| ==> s.answers[k].datum < |s.queries|
  }

  /** A run in which no worker registers after `stopWorkers` and none loses a unit, until
      no thread can move any more: the server has ended, and the answers are, request by
      request and as often as each was made, the answers to what the clients asked, each
      correct in every slot. */
  lemma EveryRequestIsServed(c: Line.Config, steps: seq<Line.Step>, s: Line.State)
    requires c.Valid() && Calculating(c) && Drain.Run(c, Line.Init(c), steps, s)
    requires Progress.Closed(s) && !Progress.Movable(c, s) && s.lost == []
    requires forall w :: !History.JoinsLate(c, Line.Init(c), steps, w)
    ensures Drain.Quiet(s)
    ensures AnswersKnown(s) && Arrivals.AnsweredRequests(s.queries, s.answers) == Arrivals.Arrived(steps)
    ensures forall k :: 0 <= k < |s.answers| ==> AllCorrect(s.queries[s.answers[k].datum], s.answers[k].slots)
    ensures forall d: nat :: d < |s.queries| ==> Tally(s.answers, DatumOf, d) == 1
  {
    hide Drain.Run, Drain.Quiet, Progress.Movable, History.JoinsLate, Calculating, Correct;
    hide Arrivals.Arrived, Arrivals.AnsweredRequests;
    History.PromptWorkersDrain(c, steps, s);
    assert Drain.Reachable(c, s);
    hide Drain.Reachable;
    forall k | 0 <= k < |s.answers|
      ensures s.answers[k].datum < |s.queries| && AllCorrect(s.queries[s.answers[k].datum], s.answers[k].slots)
    {
      ResponsesAreCalculated(c, s, k);
    }
    forall d: nat | d < |s.queries| ensures Tally(s.answers, DatumOf, d) == 1 { Drain.DrainWithoutLoss(c, s, d); }
    Arrivals.AnswersCover(s.queries, s.answers);
    Arrivals.NothingIsIgnored(c, steps, s);
  }

  /** The same for a single client: each of its requests has an answer with its numbers
      in order. */
  lemma ClientIsServed(c: Line.Config, steps: seq<Line.Step>, s: Line.State, i: nat, j: nat)
    requires c.Valid() && Calculating(c) && Drain.Run(c, Line.Init(c), steps, s)
    requires Progress.Closed(s) && !Progress.Movable(c, s) && s.lost == []
    requires forall w :: !History.JoinsLate(c, Line.Init(c), steps, w)
    requires i < |steps| && steps[i].Env? && steps[i].env.ClientArrives?
    requires j < |steps[i].env.client| && steps[i].env.client[j] != []
    ensures exists k :: 0 <= k < |s.answers| && AllCorrect(steps[i].env.client[j], s.answers[k].slots)
  {
    hide Drain.Run, Drain.Quiet, Progress.Movable, History.JoinsLate, Calculating, AllCorrect;
    EveryRequestIsServed(c, steps, s);
    Arrivals.BroughtArrives(steps, i, j);
    var k := Arrivals.AnswerTo(s.queries, s.answers, steps[i].env.client[j]);
  }

  /** The request that a URI makes. */
  function AskedBy(verb: string, uri: string): Line.Request {
    var app := Uris.Route(verb, uri);
    if Wire.Calculates(app) then Asked(app, ValidValues(NumberTexts(uri))) else []
  }

  /** From the text of the URI to the result: whoever asks "/fact?number=..." for a list of
      64-bit numbers receives an answer whose slots are, number by number, their
      factorizations, and "/goldbach?number=..." gives their Goldbach sums. */
  lemma FormIsAnswered(c: Line.Config, steps: seq<Line.Step>, s: Line.State, i: nat, j: nat, verb: string,
                       numbers: seq<int>, goldbach: bool)
    requires c.Valid() && Calculating(c) && Drain.Run(c, Line.Init(c), steps, s)
    requires Progress.Closed(s) && !Progress.Movable(c, s) && s.lost == []
    requires forall w :: !History.JoinsLate(c, Line.Init(c), steps, w)
    requires i < |steps| && steps[i].Env? && steps[i].env.ClientArrives? && j < |steps[i].env.client|
    requires numbers != [] && Wire.AllInt64(numbers)
    requires steps[i].env.client[j]
          == AskedBy(verb, (if goldbach then "/goldbach?number=" else "/fact?number=") + Uris.NumberList(numbers))
    ensures exists k ::
              && 0 <= k < |s.answers| && |s.answers[k].slots| == |numbers|
              && forall n :: 0 <= n < |numbers| && !QueryOverflows(if goldbach then 2 else 1, numbers[n]) ==>
                   Filled(if goldbach then 2 else 1, numbers[n], [], s.answers[k].slots[n])
  {
    hide Drain.Run, Drain.Quiet, Progress.Movable, History.JoinsLate, Calculating, Filled, QueryOverflows;
    hide NumberTexts, ValidValues, Uris.NumberList, Uris.Route;
    var app := if goldbach then 2 else 1;
    Uris.DocumentedForms(numbers);
    Uris.Routes(verb, "?number=" + Uris.NumberList(numbers));
    assert "/fact" + ("?number=" + Uris.NumberList(numbers)) == "/fact?number=" + Uris.NumberList(numbers);
    assert "/goldbach" + ("?number=" + Uris.NumberList(numbers)) == "/goldbach?number=" + Uris.NumberList(numbers);
    var request := steps[i].env.client[j];
    assert request == Asked(app, numbers);
    ClientIsServed(c, steps, s, i, j);
    var k :| 0 <= k < |s.answers| && AllCorrect(request, s.answers[k].slots);
    forall n | 0 <= n < |numbers| && !QueryOverflows(app, numbers[n])
      ensures Filled(app, numbers[n], [], s.answers[k].slots[n])
    {
      assert Correct(request[n], s.answers[k].slots[n]);
    }
  }
}
