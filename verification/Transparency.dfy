/** Distribution is transparent: a result slot holds the same values whether its
    unit was calculated on the master or travelled to a worker and back. */
module Transparency {
  import opened Channels
  import opened Decimal
  import opened Sockets
  import opened WireCodec
  import opened CalcData
  import opened LinkEnds
  import opened Ranges
  import Sequences

  /** A text that was sent arrives in chunks, none of which ends inside a line. */
  ghost predicate Arrives(text: string, chunks: seq<string>) {
    Received(chunks) && CutAtLines(chunks) && Joined(chunks) == text
  }

  lemma ArrivedLines(text: string, chunks: seq<string>)
    requires Arrives(text, chunks)
    ensures ChunkLines(chunks) == LinesOf(text) && LinesOf("") + ChunkLines(chunks) == LinesOf(text)
  {
    ChunksAreLines(chunks);
    Sequences.Nothing(ChunkLines(chunks));
  }

  /** The worker's share: RequestServer, Calculator and ResponseClient turn a request
      frame into a response frame, in whatever chunks the request arrives. */
  method AnswerFrame(chunks: seq<string>, ghost request: Request)
    returns (overflow: bool, values: seq<int>, reply: string)
    requires Arrives(PrintRequest(request), chunks) && Sendable(request)
    ensures overflow <==> QueryOverflows(request.app, request.query)
    ensures !overflow ==>
              && Filled(request.app, request.query, [], values)
              && reply == PrintResponse(Response(request.app, request.address, request.index, values))
  {
    hide ReadRequest, PrintRequest, PrintResponse, Filled, QueryOverflows, LinesOf, ChunkLines, Arrives, Write;
    var connection := new Connection(0);
    connection.incoming := chunks;
    ArrivedLines(PrintRequest(request), chunks);
    assert PrintRequest(request) + "" == PrintRequest(request);
    RequestRoundTrip(request, "");
    var server := new RequestServer(connection, 1);
    var intake := server.ReadRequestFromMaster();
    var work := CreateWorkUnit(intake.request);
    overflow := work.data.ProcessQuery(work.resultIndex);
    values, reply := work.data.results[0], "";
    if overflow { return; }
    var client := new ResponseClient(connection, 1, []);
    var response := Response(work.data.appIndex, work.address, work.originalIndex, values);
    FramesAreNotEmpty(request, response);
    WriteAtOnce(PrintResponse(response));
    client.Consume(work, [|PrintResponse(response)|]);
    reply := connection.output;
  }

  lemma WriteAtOnce(text: string)
    requires text != ""
    ensures Write(text, [|text|]) == Written(text, |text|)
  {
  }

  /** A link that keeps the lines of a text together. */
  method Carry(text: string) returns (chunks: seq<string>)
    requires text != ""
    ensures Arrives(text, chunks)
  {
    chunks := [text];
    assert chunks[1..] == [] && text + "" == text;
  }

  /** The master's share: a response frame goes to the slot of its owner. */
  method StoreReply(data: CalcData, address: nat, reply: string, ghost response: Response)
    requires Returnable(response) && reply == PrintResponse(response)
    requires response.address == address && response.index < |data.results|
    modifies data`results
    ensures data.results
         == old(data.results)[response.index := old(data.results[response.index]) + response.values]
  {
    hide ReadDelivery, PrintResponse, LinesOf, ChunkLines, Arrives, Fitting;
    FramesAreNotEmpty(Request(0, 0, 0, 0), response);
    assert PrintResponse(response) + "" == PrintResponse(response);
    ResponseRoundTrip(response, "");
    var connection := new Connection(0);
    var chunks := Carry(reply);
    ArrivedLines(reply, chunks);
    connection.incoming := chunks;
    var pool := new WorkerConnections();
    var handler := new WorkerConnectionHandler(pool, map[address := data]);
    assert handler.memory[address] == data;
    var routed, threw := handler.Route(connection);
    assert routed && !threw;
    assert handler.Slots()[address] == data.results;
  }

  /** The remote path of one unit: Distributor, worker, WorkerConnectionHandler.
      The slot grows by what the calculators make of an empty slot. */
  method AnswerRemotely(unit: DataUnit, address: nat) returns (overflow: bool, values: seq<int>)
    requires unit.data.Valid() && unit.resultIndex < |unit.data.queries|
    requires Sendable(RequestOf(unit, address))
    modifies unit.data`results
    ensures overflow <==> QueryOverflows(unit.data.appIndex, unit.data.queries[unit.resultIndex])
    ensures !overflow ==> Filled(unit.data.appIndex, unit.data.queries[unit.resultIndex], [], values)
    ensures unit.data.results
         == if overflow then old(unit.data.results)
            else old(unit.data.results)[unit.resultIndex := old(unit.data.results[unit.resultIndex]) + values]
  {
    hide PrintRequest, PrintResponse, Filled, QueryOverflows, LinesOf, ChunkLines, Arrives, Write;
    var request := RequestOf(unit, address);
    var connection := new Connection(0);
    FramesAreNotEmpty(request, Response(request.app, address, request.index, []));
    WriteAtOnce(PrintRequest(request));
    var sent := connection.Send(PrintRequest(request), [|PrintRequest(request)|]);
    assert connection.output == PrintRequest(request);
    var chunks := Carry(connection.output);
    var reply;
    overflow, values, reply := AnswerFrame(chunks, request);
    if overflow { return; }
    FilledFits(request.app, request.query, values);
    StoreReply(unit.data, address, reply, Response(request.app, address, request.index, values));
  }

  /** The two paths agree exactly when the slot was empty or keeps what it had:
      the count of a non-negative Goldbach query replaces the slot locally but is
      appended to it by the remote path. */
  lemma PathsAgree(app: nat, query: int, before: seq<int>, values: seq<int>, local: seq<int>)
    requires Calculates(app) && Filled(app, query, [], values) && Filled(app, query, before, local)
    ensures before == [] || app == FACT || query < 0 ==> local == before + values
    ensures before != [] && app == GOLDBACH && query >= 0 ==> local != before + values
  {
    if before == [] {
      FilledUnique(app, query, [], values, local);
      assert before + values == values;
    } else if app == FACT {
      FactPathsAgree(query, before, values, local);
    } else {
      SumPaths(query, before, values, local);
    }
  }

  lemma FactPathsAgree(query: int, before: seq<int>, values: seq<int>, local: seq<int>)
    requires Filled(FACT, query, [], values) && Filled(FACT, query, before, local)
    ensures local == before + values
  {
    var f :| values == [] + f && Factored(query, f);
    var g :| local == before + g && Factored(query, g);
    if query > 1 { Factors.FactorizationUnique(query, f, g); }
    assert f == g && values == f;
  }

  lemma SumPaths(query: int, before: seq<int>, values: seq<int>, local: seq<int>)
    requires Filled(GOLDBACH, query, [], values) && Filled(GOLDBACH, query, before, local) && before != []
    ensures query < 0 <==> local == before + values
  {
    var f :| SumsOf(query, f) && values == GoldbachSlot(query, [], Sums.Flatten(f));
    var g :| SumsOf(query, g) && local == GoldbachSlot(query, before, Sums.Flatten(g));
    Sums.EnumerationUnique(Sums.Abs(query), Sums.SumOperands(Sums.Abs(query)), f, g);
    assert [] + Sums.Flatten(f) == Sums.Flatten(f);
    assert |before + values| == |before| + |values|;
  }

  // ---------------------------------------------------- whole conversations

  /** `replies` answers each of `units` once, in the order in which the worker's
      calculators happened to finish. */
  ghost predicate Replies(units: seq<Request>, replies: seq<Response>, order: seq<nat>, place: seq<nat>) {
    && |units| == |replies| == |order| == |place|
    && (forall k :: 0 <= k < |units| ==> place[k] < |order| && order[place[k]] == k)
    && (forall j :: 0 <= j < |order| ==> order[j] < |units| && place[order[j]] == j)
    && (forall j :: 0 <= j < |order| ==> Answers(units[order[j]], replies[j]))
  }

  ghost predicate Answers(u: Request, r: Response) {
    && r.app == u.app && r.address == u.address && r.index == u.index
    && !QueryOverflows(u.app, u.query) && Filled(u.app, u.query, [], r.values)
  }

  ghost predicate OwnSlots(units: seq<Request>) {
    forall i, j :: 0 <= i < j < |units| ==> !(units[i].address == units[j].address && units[i].index == units[j].index)
  }

  /** A conversation in which the replies come back in any order and both texts in any
      chunks that keep lines together: the worker reads exactly the requests and then
      its stop, the master exactly the replies and then its stop, and what the master
      appends to the slot of every unit is what it would have calculated itself. */
  lemma DistributionIsTransparent(units: seq<Request>, replies: seq<Response>, order: seq<nat>, place: seq<nat>,
                                  rest: string, requestChunks: seq<string>, replyChunks: seq<string>,
                                  k: nat, local: seq<int>)
    requires forall i :: 0 <= i < |units| ==> Sendable(units[i])
    requires OwnSlots(units) && Replies(units, replies, order, place)
    requires Arrives(PrintRequests(units) + STOP + rest, requestChunks)
    requires Arrives(PrintResponses(replies) + STOP + rest, replyChunks)
    requires k < |units| && Filled(units[k].app, units[k].query, [], local)
    ensures ReadRequests(ChunkLines(requestChunks)) == Session(units, false, LinesOf(rest))
    ensures ReadDeliveries(ChunkLines(replyChunks)) == Session(Deliveries(replies), false, LinesOf(rest))
    ensures Collected(Deliveries(replies), units[k].address, units[k].index) == local
  {
    hide ReadRequests, ReadDeliveries, PrintRequests, PrintResponses, Collected, Filled, Deliveries, QueryOverflows;
    hide Arrives, LinesOf, ChunkLines;
    ArrivedLines(PrintRequests(units) + STOP + rest, requestChunks);
    ArrivedLines(PrintResponses(replies) + STOP + rest, replyChunks);
    RequestStream(units, rest);
    forall j | 0 <= j < |replies| ensures Returnable(replies[j]) {
      var u := units[order[j]];
      assert Answers(u, replies[j]) && Sendable(u);
      FilledFits(u.app, u.query, replies[j].values);
    }
    ResponseStream(replies, rest);
    var u, at := units[k], place[k];
    assert Answers(u, replies[at]);
    forall j | 0 <= j < |replies| && j != at ensures !(replies[j].address == u.address && replies[j].index == u.index) {
      assert Answers(units[order[j]], replies[j]) && order[j] != k;
    }
    DeliveredAt(replies);
    CollectedOnce(Deliveries(replies), u.address, u.index, at);
    FilledUnique(u.app, u.query, [], replies[at].values, local);
  }

  lemma {:induction false} DeliveredAt(responses: seq<Response>)
    ensures |Deliveries(responses)| == |responses|
    ensures forall k :: 0 <= k < |responses| ==> Deliveries(responses)[k] == Delivery(responses[k], true)
  {
    if responses != [] { DeliveredAt(responses[1..]); }
  }

  predicate Names(d: Delivery, address: nat, index: nat) {
    d.response.address == address && d.response.index == index
  }

  lemma {:induction false} CollectedNever(deliveries: seq<Delivery>, address: nat, index: nat)
    requires forall j :: 0 <= j < |deliveries| ==> !Names(deliveries[j], address, index)
    ensures Collected(deliveries, address, index) == []
  {
    if deliveries != [] { CollectedNever(deliveries[..|deliveries| - 1], address, index); }
  }

  lemma {:induction false} CollectedOnce(deliveries: seq<Delivery>, address: nat, index: nat, at: nat)
    requires at < |deliveries| && Names(deliveries[at], address, index)
    requires forall j :: 0 <= j < |deliveries| && j != at ==> !Names(deliveries[j], address, index)
    ensures Collected(deliveries, address, index) == deliveries[at].response.values
  {
    var front := deliveries[..|deliveries| - 1];
    if at == |deliveries| - 1 {
      CollectedNever(front, address, index);
    } else {
      CollectedOnce(front, address, index, at);
    }
  }
}
