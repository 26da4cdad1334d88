/** `CalcData`: the queries of one request, the result slots its units fill, the
    pending count that decides when it is answered, and its answer. */
module CalcData {
  import opened Decimal
  import opened Primes
  import opened Tokenizer
  import opened WireCodec
  import Sequences
  import Factors = PrimeFactorization
  import Sums = Goldbach

  // --------------------------------------------------- queries of a request

  /** `uri.rfind('/')`, or -1. */
  function LastSlash(uri: string): (pos: int)
    ensures -1 <= pos < |uri|
    ensures 0 <= pos ==> uri[pos] == '/'
  {
    if uri == [] then -1 else if uri[|uri| - 1] == '/' then |uri| - 1 else LastSlash(uri[..|uri| - 1])
  }

  predicate HasEquals(uri: string) { Find(uri, "=") < |uri| }

  /** Where the numbers start: after the first '=', else after the last '/'. With
      neither, `npos + 1` is the start of the text. */
  function NumbersStart(uri: string): (pos: nat)
    ensures pos <= |uri|
  {
    if HasEquals(uri) then Find(uri, "=") + 1 else LastSlash(uri) + 1
  }

  function NumberTexts(uri: string): seq<string> { NonEmpty(Split(uri[NumbersStart(uri)..], ",")) }

  /** The texts that the answer is built from. */
  function UriValues(uri: string): seq<string> {
    if !HasEquals(uri) && LastSlash(uri) == -1 then [] else NumberTexts(uri)
  }

  /** A text that is a number to its last character. */
  predicate ValidNumber(text: string) { Stoll(text).Number? && Stoll(text).end == |text| }

  function ValidValues(texts: seq<string>): seq<int> {
    if texts == [] then []
    else
      ValidValues(texts[..|texts| - 1])
      + if ValidNumber(texts[|texts| - 1]) then [Stoll(texts[|texts| - 1]).value] else []
  }

  method ParseRequest(uri: string, queries: seq<int>) returns (parsed: seq<int>)
    ensures parsed == queries + ValidValues(NumberTexts(uri))
  {
    hide Split, Find, Stoll, ValidNumber, ValidValues, NonEmpty;
    var numbersStart := Find(uri, "=");
    if numbersStart == |uri| { numbersStart := LastSlash(uri); }
    numbersStart := numbersStart + 1;
    assert numbersStart == NumbersStart(uri);
    parsed := queries;
    var texts := Tokenize(uri[numbersStart..], [], ",", true);
    assert texts == NumberTexts(uri);
    NoValues(texts[..0]);
    for index := 0 to |texts|
      invariant parsed == queries + ValidValues(texts[..index])
    {
      ValidStep(texts, index);
      if ValidNumber(texts[index]) {
        ParsedNumber(texts[index]);
        parsed := parsed + [Stoll(texts[index]).value];
      }
    }
    assert texts[..|texts|] == texts;
  }

  lemma NoValues(texts: seq<string>)
    requires texts == []
    ensures ValidValues(texts) == []
  {
  }

  lemma ValidStep(texts: seq<string>, k: nat)
    requires k < |texts|
    ensures ValidValues(texts[..k + 1])
         == ValidValues(texts[..k]) + if ValidNumber(texts[k]) then [Stoll(texts[k]).value] else []
  {
    hide Stoll;
    assert texts[..k + 1][..k] == texts[..k];
  }

  lemma ParsedNumber(text: string)
    requires ValidNumber(text)
    ensures Stoll(text).Number?
  {
  }

  /** How many of the first `k` texts are numbers. */
  function Rank(texts: seq<string>, k: nat): nat
    requires k <= |texts|
  {
    |ValidValues(texts[..k])|
  }

  /** The `Rank`-th query comes from the `k`-th text. */
  lemma {:induction false} RankedValue(texts: seq<string>, k: nat)
    requires k < |texts| && ValidNumber(texts[k])
    ensures Rank(texts, k) < |ValidValues(texts)| && ValidValues(texts)[Rank(texts, k)] == Stoll(texts[k]).value
    decreases |texts|
  {
    hide Stoll, ValidNumber;
    var last := |texts| - 1;
    if k < last {
      RankedValue(texts[..last], k);
      assert texts[..last][..k] == texts[..k];
    }
  }

  /** The parser and the answer agree on the numbers of every request: exactly
      when the URI has a '=' or a '/' or yields no number at all. */
  lemma SameNumbers(uri: string)
    ensures ValidValues(UriValues(uri)) == ValidValues(NumberTexts(uri))
       <==> HasEquals(uri) || LastSlash(uri) >= 0 || ValidValues(NumberTexts(uri)) == []
  {
    assert ValidValues([]) == [];
  }

  /** A URI that an application accepted starts with its prefix, hence has a '/'. */
  lemma {:induction false} PrefixHasSlash(uri: string)
    requires "/" <= uri
    ensures LastSlash(uri) >= 0
  {
    if |uri| > 1 { PrefixHasSlash(uri[..|uri| - 1]); }
  }

  // ------------------------------------------------------------ result slots

  /** What `processQuery` makes of a slot, for a unit of this application. */
  ghost predicate Filled(app: nat, query: int, before: seq<int>, after: seq<int>) {
    if app == FACT then exists flat :: after == before + flat && Factored(query, flat)
    else exists sums :: SumsOf(query, sums) && after == GoldbachSlot(query, before, Sums.Flatten(sums))
  }

  ghost predicate Factored(query: int, flat: seq<int>) {
    if query <= 1 then flat == [] else Factors.IsFactorization(query, flat)
  }

  ghost predicate SumsOf(query: int, sums: seq<seq<int>>) {
    Sums.Enumerates(Sums.Abs(query), Sums.SumOperands(Sums.Abs(query)), sums)
  }

  /** For non-negative queries only the count stays, for negative ones the sums. */
  function GoldbachSlot(query: int, before: seq<int>, flat: seq<int>): seq<int> {
    if query >= 0 then [|before + flat| / Sums.SumOperands(query)] else before + flat
  }

  /** The calculators determine the slot. */
  lemma FilledUnique(app: nat, query: int, before: seq<int>, a: seq<int>, b: seq<int>)
    requires Filled(app, query, before, a) && Filled(app, query, before, b)
    ensures a == b
  {
    if app == FACT {
      var f :| a == before + f && Factored(query, f);
      var g :| b == before + g && Factored(query, g);
      if query > 1 { Factors.FactorizationUnique(query, f, g); }
    } else {
      var f :| SumsOf(query, f) && a == GoldbachSlot(query, before, Sums.Flatten(f));
      var g :| SumsOf(query, g) && b == GoldbachSlot(query, before, Sums.Flatten(g));
      Sums.EnumerationUnique(Sums.Abs(query), Sums.SumOperands(Sums.Abs(query)), f, g);
    }
  }

  /** The query makes the `int` inside `isPrime` overflow. */
  ghost predicate QueryOverflows(app: nat, query: int) {
    if app == FACT then query > 1 && Factors.TwoHugePrimes(query) else Sums.Overflows(query)
  }

  method CalculateFactors(query: int, slot: seq<int>) returns (overflow: bool, filled: seq<int>)
    ensures overflow <==> QueryOverflows(FACT, query)
    ensures !overflow ==> Filled(FACT, query, slot, filled)
  {
    var r;
    r, filled := Factors.ProcessNumber(query, slot);
    overflow := r.IntOverflow?;
    if query <= 1 {
      assert filled == slot + [] && Factored(query, []);
    } else if r.Done? {
      ghost var flat :| filled == slot + flat && Factors.IsFactorization(query, flat);
      assert Factored(query, flat);
    }
  }

  method CalculateSums(query: int, slot: seq<int>) returns (overflow: bool, filled: seq<int>)
    ensures overflow <==> QueryOverflows(GOLDBACH, query)
    ensures !overflow ==> Filled(GOLDBACH, query, slot, filled)
    ensures !overflow ==> exists sums ::
              && Sums.Enumerates(if query < 0 then -query else query, if query % 2 == 0 then 2 else 3, sums)
              && filled == if query < 0 then slot + Sums.Flatten(sums)
                           else [|slot + Sums.Flatten(sums)| / if query % 2 == 0 then 2 else 3]
  {
    hide Sums.Enumerates, Sums.Overflows;
    Sums.OperandsByParity(query);
    var r;
    r, filled := Sums.ProcessNumber(query, slot);
    if r.IntOverflow? { return true, slot; }
    overflow := false;
    ghost var sums :| Sums.Enumerates(Sums.Abs(query), Sums.SumOperands(Sums.Abs(query)), sums)
                      && filled == slot + Sums.Flatten(sums);
    assert SumsOf(query, sums);
    if query >= 0 { filled := [r.value]; }
    assert filled == GoldbachSlot(query, slot, Sums.Flatten(sums));
  }

  // ---------------------------------------------------------- list of values

  lemma {:induction false} ListedAppend(values: seq<int>, v: int)
    ensures Listed(values + [v]) == Listed(values) + ToString(v) + ","
  {
    hide ToString;
    if values == [] {
      assert Listed([v]) == ToString(v) + "," + Listed([v][1..]);
    } else {
      ListedAppend(values[1..], v);
      assert (values + [v])[1..] == values[1..] + [v];
      assert Listed(values + [v]) == ToString(values[0]) + "," + Listed(values[1..] + [v]);
    }
  }

  lemma ParseOne(texts: seq<string>, k: nat)
    requires k < |texts|
    ensures ParseValues(texts[k..])
         == if Stoll(texts[k]).Number? then
              var others := ParseValues(texts[k + 1..]);
              Values([Stoll(texts[k]).value] + others.read, others.complete)
            else Values([], false)
  {
    hide Stoll;
    assert texts[k..][1..] == texts[k + 1..];
  }

  lemma ParseNothing(texts: seq<string>)
    requires texts == []
    ensures ParseValues(texts) == Values([], true)
  {
  }

  // --------------------------------------------------------------- the class

  /** What `formatResponse` prints for one text of the URI. */
  datatype Item = Shown(value: int, slot: seq<int>) | InvalidNumber(text: string)

  datatype DataUnit = DataUnit(data: CalcData, resultIndex: nat)

  class CalcData {
    const appIndex: nat
    /** The decoded URI of the request. */
    const uri: string
    var pendingQueries: nat
    var queries: seq<int>
    var results: seq<seq<int>>

    constructor (appIndex: nat, uri: string)
      ensures this.appIndex == appIndex && this.uri == uri
      ensures pendingQueries == 0 && queries == [] && results == []
    {
      this.appIndex, this.uri := appIndex, uri;
      pendingQueries, queries, results := 0, [], [];
    }

    /** One slot for each query. */
    ghost predicate Valid()
      reads this
    {
      |results| == |queries|
    }

    /** `resize` keeps the slots that fit and adds empty ones. */
    method UpdatePending()
      modifies `pendingQueries, `results
      ensures Valid() && pendingQueries == |queries|
      ensures forall k :: 0 <= k < |results| ==> results[k] == if k < |old(results)| then old(results)[k] else []
    {
      pendingQueries := |queries|;
      if |results| > |queries| { results := results[..|queries|]; }
      for k := |results| to |queries|
        invariant |results| == k && pendingQueries == |queries|
        invariant forall l :: 0 <= l < k ==> results[l] == if l < |old(results)| then old(results)[l] else []
      {
        results := results + [[]];
      }
    }

    method MarkUnitReady()
      modifies `pendingQueries
      ensures pendingQueries == if old(pendingQueries) > 0 then old(pendingQueries) - 1 else 0
    {
      if pendingQueries > 0 { pendingQueries := pendingQueries - 1; }
    }

    predicate IsReady()
      reads this
    {
      pendingQueries == 0
    }

    /** One unit for each pending query, in order. */
    method Decompose() returns (units: seq<DataUnit>)
      ensures |units| == pendingQueries
      ensures forall k :: 0 <= k < |units| ==> units[k] == DataUnit(this, k)
    {
      units := [];
      for i := 0 to pendingQueries
        invariant |units| == i
        invariant forall k :: 0 <= k < i ==> units[k] == DataUnit(this, k)
      {
        units := units + [DataUnit(this, i)];
      }
    }

    /** Fills the slot of this query only. */
    method ProcessQuery(index: nat) returns (overflow: bool)
      requires Valid() && index < |queries| && Calculates(appIndex)
      modifies `results
      ensures Valid()
      ensures overflow <==> QueryOverflows(appIndex, queries[index])
      ensures !overflow ==> Filled(appIndex, queries[index], old(results[index]), results[index])
      ensures results == old(results)[index := results[index]]
    {
      var filled;
      if appIndex == FACT {
        overflow, filled := CalculateFactors(queries[index], results[index]);
      } else {
        overflow, filled := CalculateSums(queries[index], results[index]);
      }
      if !overflow { results := results[index := filled]; }
    }

    method SerializeResult(queryIndex: nat) returns (resultBuffer: string)
      requires queryIndex < |results|
      ensures resultBuffer == ResultText(results[queryIndex])
    {
      hide ToString;
      resultBuffer := "=";
      var values := results[queryIndex];
      for k := 0 to |values|
        invariant resultBuffer == "=" + Listed(values[..k])
      {
        ListedAppend(values[..k], values[k]);
        assert values[..k + 1] == values[..k] + [values[k]];
        resultBuffer := resultBuffer + (ToString(values[k]) + ",");
      }
      assert values[..|values|] == values;
      resultBuffer := resultBuffer[..|resultBuffer| - 1];
    }

    /** Appends the values that precede the first text that is not a number;
        `complete` is false when it ends with the exception. */
    method DeserializeResult(resultIndex: nat, queryResult: string) returns (complete: bool)
      requires resultIndex < |results|
      modifies `results
      ensures complete == ParseResult(queryResult).complete
      ensures results == old(results)[resultIndex := old(results[resultIndex]) + ParseResult(queryResult).read]
    {
      hide Split, Find, Stoll, ParseValues;
      ghost var before := results[resultIndex];
      assert before + [] == before;
      if queryResult == "" { return true; }
      var pos := Find(queryResult, "=");
      var numbers := queryResult[if pos == |queryResult| then 0 else pos + 1..];
      var values := Tokenize(numbers, [], ",", true);
      assert values == NonEmpty(Split(numbers, ","));
      ghost var pushed: seq<int> := [];
      assert values[0..] == values && pushed + ParseValues(values).read == ParseValues(values).read;
      for k := 0 to |values|
        invariant results == old(results)[resultIndex := before + pushed]
        invariant ParseValues(values).complete == ParseValues(values[k..]).complete
        invariant ParseValues(values).read == pushed + ParseValues(values[k..]).read
      {
        ParseOne(values, k);
        var parsed := Stoll(values[k]);
        Sequences.Nothing(pushed);
        if !parsed.Number? { return false; }
        Sequences.Assoc(pushed, [parsed.value], ParseValues(values[k + 1..]).read);
        Sequences.Assoc(before, pushed, [parsed.value]);
        results := results[resultIndex := results[resultIndex] + [parsed.value]];
        pushed := pushed + [parsed.value];
      }
      ParseNothing(values[|values|..]);
      assert pushed + [] == pushed;
      complete := true;
    }

    /** One line for each text of the URI: a number comes with its own result,
        that is, with the slot of the query that was parsed from this text. */
    method FormatResponse() returns (items: seq<Item>)
      requires Valid() && queries == ValidValues(NumberTexts(uri))
      ensures |items| == |UriValues(uri)|
      ensures forall k :: 0 <= k < |items| ==>
                if ValidNumber(UriValues(uri)[k]) then
                  var r := Rank(UriValues(uri), k);
                  r < |queries| && items[k] == Shown(queries[r], results[r])
                else items[k] == InvalidNumber(UriValues(uri)[k])
    {
      hide Stoll, ValidNumber, NumberTexts, HasEquals, ValidValues;
      items := [];
      if !HasEquals(uri) && LastSlash(uri) == -1 { return; }
      var valueList := NumberTexts(uri);
      assert valueList == UriValues(uri);
      var resultsIndex := 0;
      RankNothing(valueList);
      for index := 0 to |valueList|
        invariant |items| == index && resultsIndex == Rank(valueList, index)
        invariant forall k :: 0 <= k < index ==>
                    if ValidNumber(valueList[k]) then
                      var r := Rank(valueList, k);
                      r < |queries| && items[k] == Shown(queries[r], results[r])
                    else items[k] == InvalidNumber(valueList[k])
      {
        RankStep(valueList, index);
        if ValidNumber(valueList[index]) {
          RankedValue(valueList, index);
          ParsedNumber(valueList[index]);
          items := items + [Shown(Stoll(valueList[index]).value, results[resultsIndex])];
          resultsIndex := resultsIndex + 1;
        } else {
          items := items + [InvalidNumber(valueList[index])];
        }
      }
    }
  }

  lemma RankNothing(texts: seq<string>)
    ensures Rank(texts, 0) == 0
  {
    assert texts[..0] == [];
  }

  lemma RankStep(texts: seq<string>, k: nat)
    requires k < |texts|
    ensures Rank(texts, k + 1) == Rank(texts, k) + if ValidNumber(texts[k]) then 1 else 0
  {
    hide Stoll, ValidNumber, ValidValues;
    ValidStep(texts, k);
  }

  // -------------------------------------------------------------- factories

  /** `createConcurrentData` of the two applications: a request without numbers is
      answered at once. */
  method CreateConcurrentData(appIndex: nat, uri: string) returns (data: CalcData?, answer: seq<Item>)
    ensures data == null <==> ValidValues(NumberTexts(uri)) == []
    ensures data == null ==>
              && |answer| == |UriValues(uri)|
              && forall k :: 0 <= k < |answer| ==> answer[k] == InvalidNumber(UriValues(uri)[k])
    ensures data != null ==>
              && fresh(data) && data.appIndex == appIndex && data.uri == uri && data.Valid()
              && data.queries == ValidValues(NumberTexts(uri)) && data.pendingQueries == |data.queries|
              && forall k :: 0 <= k < |data.results| ==> data.results[k] == []
  {
    hide NumberTexts, ValidNumber;
    answer := [];
    var created := new CalcData(appIndex, uri);
    var queries := ParseRequest(uri, []);
    created.queries := queries;
    if queries == [] {
      answer := created.FormatResponse();
      return null, answer;
    }
    created.UpdatePending();
    data := created;
  }

  /** A unit on a worker: fresh data with one query, and whose answer it is. */
  datatype WorkUnit = WorkUnit(data: CalcData, resultIndex: nat, address: nat, originalIndex: nat)

  method CreateWorkUnit(u: Request) returns (unit: WorkUnit)
    ensures fresh(unit.data) && unit.data.Valid() && unit.data.appIndex == u.app
    ensures unit.data.queries == [u.query] && unit.data.results == [[]] && unit.data.pendingQueries == 1
    ensures unit.resultIndex == 0 && unit.address == u.address && unit.originalIndex == u.index
  {
    var data := new CalcData(u.app, "");
    data.queries := data.queries + [u.query];
    data.UpdatePending();
    assert data.results == [[]];
    unit := WorkUnit(data, 0, u.address, u.index);
  }
}
