/** The threads at both ends of a worker link, as the objects of the program:
    what they print on a connection, what they read from it, and what that does
    to the result slots on the master. */
module LinkEnds {
  import opened Channels
  import opened Decimal
  import opened Sockets
  import opened WireCodec
  import opened CalcData
  import Sequences
  import Tokenizer

  /** The loop over the lines of a frame. */
  method ReadFrame(connection: Connection, count: nat, start: string) returns (ok: bool, buffer: string)
    modifies connection`input, connection`incoming, connection`descriptor
    ensures match ReadLines(old(connection.Lines()), count, start)
            case NoLine => !ok && connection.Lines() == [] && connection.descriptor == -1
            case OneLine(text, rest) =>
              ok && buffer == text && connection.Lines() == rest && connection.descriptor == old(connection.descriptor)
  {
    hide LinesOf, ChunkLines;
    buffer := start;
    for i := 0 to count
      invariant ReadLines(connection.Lines(), count - i, buffer) == ReadLines(old(connection.Lines()), count, start)
      invariant connection.descriptor == old(connection.descriptor)
    {
      ghost var lines := connection.Lines();
      var read, line := connection.ReadLine();
      if !read {
        EndOfStream(old(connection.Lines()), count, start, count - i, buffer);
        return false, buffer;
      }
      assert lines[1..] == connection.Lines();
      buffer := buffer + Line(line);
    }
    ok := true;
  }

  lemma EndOfStream(lines: seq<string>, count: nat, start: string, left: nat, buffer: string)
    requires left > 0 && ReadLines([], left, buffer) == ReadLines(lines, count, start)
    ensures ReadLines(lines, count, start) == NoLine
  {
  }

  // ----------------------------------------------------------------- sending

  /** The first connection with this descriptor is taken out. */
  ghost predicate Erases(before: seq<Connection>, after: seq<Connection>, descriptor: int, index: nat)
    reads set k | 0 <= k < |before| :: before[k]
  {
    && index < |before| && before[index].descriptor == descriptor
    && (forall k :: 0 <= k < index ==> before[k].descriptor != descriptor)
    && after == before[..index] + before[index + 1..]
  }

  /** The worker pool. */
  class WorkerConnections {
    var connections: seq<Connection>

    constructor ()
      ensures connections == []
    {
      connections := [];
    }

    /** Each accepted socket is registered once. */
    ghost predicate Apart()
      reads this
    {
      forall i, j :: 0 <= i < j < |connections| ==> connections[i] != connections[j]
    }

    method AddConnection(connection: Connection)
      modifies `connections
      ensures connections == old(connections) + [connection]
    {
      connections := connections + [connection];
    }

    /** Without any connection it throws. */
    method GetRandomWorkerConnection(random: nat) returns (connection: Connection?)
      requires connections != [] ==> random < |connections|
      ensures connections == [] <==> connection == null
      ensures connections != [] ==> connection == connections[random]
    {
      if connections == [] { return null; }
      connection := connections[random];
    }

    /** Erases the first connection with the same descriptor. The source erases past
        the end when there is none; `MasterChannels.ServedIsPooled` shows that this
        never happens. */
    method RemoveSocket(connection: Connection) returns (ghost index: nat)
      requires exists c :: c in connections && c.descriptor == connection.descriptor
      modifies `connections
      ensures Erases(old(connections), connections, connection.descriptor, index)
    {
      var at := 0;
      while connections[at].descriptor != connection.descriptor
        invariant 0 <= at < |connections|
        invariant forall k :: 0 <= k < at ==> connections[k].descriptor != connection.descriptor
        decreases |connections| - at
      {
        at := at + 1;
      }
      index := at;
      connections := connections[..at] + connections[at + 1..];
    }

    /** "-1" on every connection, once; `calls` are what the system calls report. */
    method StopWorkers(calls: seq<seq<int>>)
      requires Apart() && |calls| == |connections|
      modifies set c | c in connections
      ensures forall k :: 0 <= k < |connections| ==>
                && connections[k].output == old(connections[k].output) + Write(STOP, calls[k]).text
                && connections[k].descriptor
                   == (if Write(STOP, calls[k]).result == 0 then -1 else old(connections[k].descriptor))
                && connections[k].Lines() == old(connections[k].Lines())
    {
      hide Write, LinesOf, ChunkLines;
      for i := 0 to |connections|
        invariant forall k :: 0 <= k < i ==>
                    && connections[k].output == old(connections[k].output) + Write(STOP, calls[k]).text
                    && connections[k].descriptor
                       == (if Write(STOP, calls[k]).result == 0 then -1 else old(connections[k].descriptor))
        invariant forall k :: i <= k < |connections| ==>
                    && connections[k].output == old(connections[k].output)
                    && connections[k].descriptor == old(connections[k].descriptor)
        invariant forall k :: 0 <= k < |connections| ==> connections[k].Lines() == old(connections[k].Lines())
      {
        var sent := connections[i].Send(STOP, calls[i]);
      }
    }
  }

  const WORKER_PASSWORD := "workerSecret"

  /** The thread that accepts workers. */
  class MasterServer {
    const workerConnections: WorkerConnections
    var producing: seq<Token<Connection>>

    constructor (workerConnections: WorkerConnections)
      ensures this.workerConnections == workerConnections && producing == []
    {
      this.workerConnections, producing := workerConnections, [];
    }

    /** A worker that gives the password is pooled and handed to the handlers; any
        other connection is dropped. */
    method HandleClientConnection(connection: Connection)
      modifies `producing, workerConnections`connections
      modifies connection`input, connection`incoming, connection`descriptor
      ensures var accepted := old(connection.Lines()) != [] && old(connection.Lines())[0] == WORKER_PASSWORD;
              && producing == old(producing) + (if accepted then [Item(connection)] else [])
              && workerConnections.connections
                 == old(workerConnections.connections) + (if accepted then [connection] else [])
              && (accepted ==> connection.descriptor == old(connection.descriptor))
    {
      hide LinesOf, ChunkLines;
      var ok, password := connection.ReadLine();
      if ok && password == WORKER_PASSWORD {
        workerConnections.AddConnection(connection);
        producing := producing + [Item(connection)];
      } else {
        assert old(producing) + [] == producing;
        assert old(workerConnections.connections) + [] == workerConnections.connections;
      }
    }
  }

  /** The worker sends the password without a newline, so it is recognised only when its
      chunk ends there, or a newline follows. */
  lemma PasswordStandsAlone(more: string, others: seq<string>)
    ensures var lines := ChunkLines(["workerSecret" + more] + others);
            lines != [] && (lines[0] == WORKER_PASSWORD <==> more == "" || more[0] == '\n')
  {
    hide LinesOf, Tokenizer.Find;
    var chunks := [WORKER_PASSWORD + more] + others;
    var first := chunks[0];
    assert chunks[1..] == others;
    if Tokenizer.Find(more, "\n") == |more| {
      NoNewline(more);
      LastLine(first);
      assert first == WORKER_PASSWORD ==> more == "" by { assert |first| == |WORKER_PASSWORD| + |more|; }
    } else {
      var front, rest := FirstLine(more);
      assert first == (WORKER_PASSWORD + front) + "\n" + rest;
      LinesFirst(WORKER_PASSWORD + front, rest);
      assert WORKER_PASSWORD + front == WORKER_PASSWORD ==> front == "" by {
        assert |WORKER_PASSWORD + front| == |WORKER_PASSWORD| + |front|;
      }
      assert front == "" ==> more == "\n" + rest;
    }
  }

  /** The thread that feeds the workers. */
  class Distributor {
    const workerConnections: WorkerConnections
    /** The queue of the local calculators. */
    var producing: seq<Token<DataUnit>>

    constructor (workerConnections: WorkerConnections)
      ensures this.workerConnections == workerConnections && producing == []
    {
      this.workerConnections, producing := workerConnections, [];
    }

    /** One unit: `random` picks a pooled connection, `calls` are what the system calls
        report. With an empty pool, or on a result of zero, which also closes the
        connection, the unit goes to the local calculators. */
    method Consume(unit: DataUnit, address: nat, random: nat, calls: seq<int>)
      requires unit.resultIndex < |unit.data.queries|
      requires workerConnections.connections != [] ==> random < |workerConnections.connections|
      modifies `producing, set c | c in workerConnections.connections
      ensures var sent := Write(PrintRequest(RequestOf(unit, address)), calls);
              && producing == old(producing)
                              + (if workerConnections.connections != [] && sent.result != 0 then [] else [Item(unit)])
              && forall c :: c in workerConnections.connections ==>
                   var picked := c == workerConnections.connections[random];
                   && c.output == old(c.output) + (if picked then sent.text else "")
                   && c.descriptor == (if picked && sent.result == 0 then -1 else old(c.descriptor))
                   && c.Lines() == old(c.Lines())
    {
      hide Write, PrintRequest, LinesOf, ChunkLines;
      var connection := workerConnections.GetRandomWorkerConnection(random);
      if connection == null {
        producing := producing + [Item(unit)];
        return;
      }
      var sent := connection.Send(PrintRequest(RequestOf(unit, address)), calls);
      if !sent { producing := producing + [Item(unit)]; }
    }
  }

  /** `serializeRequest`: the fields it prints. */
  function RequestOf(unit: DataUnit, address: nat): Request
    requires unit.resultIndex < |unit.data.queries|
    reads unit.data
  {
    Request(unit.data.appIndex, address, unit.resultIndex, unit.data.queries[unit.resultIndex])
  }

  // --------------------------------------------------------- the worker's ends

  datatype Intake = Work(request: Request) | NoWork | Exception

  class RequestServer {
    const masterConnection: Connection
    const stopConditionsToSend: nat
    var producing: seq<Token<Request>>

    constructor (masterConnection: Connection, stopConditionsToSend: nat)
      ensures this.masterConnection == masterConnection && this.stopConditionsToSend == stopConditionsToSend
      ensures producing == []
    {
      this.masterConnection, this.stopConditionsToSend, producing := masterConnection, stopConditionsToSend, [];
    }

    method ReadRequestFromMaster() returns (intake: Intake)
      modifies masterConnection`input, masterConnection`incoming, masterConnection`descriptor
      ensures match ReadRequest(old(masterConnection.Lines()))
              case Unit(u, rest) => intake == Work(u) && masterConnection.Lines() == rest
              case Stopped(rest) => intake == NoWork && masterConnection.Lines() == rest
              case Thrown => intake == Exception
    {
      hide WireCodec.ReadLine, LinesOf, ChunkLines, ReadLines, DeserializeRequest, ParseApplication;
      var ok, buffer := masterConnection.ReadLine();
      if ok { NextLine(buffer, masterConnection.Lines()); }
      if !ok { return NoWork; }
      var dispatch := ParseApplication(buffer);
      if dispatch.Uncaught? { return Exception; }
      if dispatch.NoApplication? { return NoWork; }
      ok, buffer := ReadFrame(masterConnection, REQUEST_BUFFER_LINES_COUNT, Line(buffer));
      if !ok || !Calculates(dispatch.app) { return NoWork; }
      var request := DeserializeRequest(buffer);
      intake := if request.Some? then Work(request.value) else Exception;
    }

    method HandleMasterConnection() returns (threw: bool)
      modifies masterConnection`input, masterConnection`incoming, masterConnection`descriptor, `producing
      ensures var s := ReadRequests(old(masterConnection.Lines()));
              threw == s.threw && producing == old(producing) + Items(s.units)
    {
      hide ReadRequest, ReadRequests, Items, LinesOf, ChunkLines;
      ghost var before := producing;
      ghost var whole := ReadRequests(masterConnection.Lines());
      ghost var units: seq<Request> := [];
      assert units + whole.units == whole.units && before + Items(units) == before by { NoItems(units); }
      while true
        invariant units + ReadRequests(masterConnection.Lines()).units == whole.units
        invariant ReadRequests(masterConnection.Lines()).threw == whole.threw
        invariant producing == before + Items(units)
        decreases |masterConnection.Lines()|
      {
        NextRequest(masterConnection.Lines());
        Sequences.Nothing(units);
        var work := ReadRequestFromMaster();
        if !work.Work? { return work.Exception?; }
        ItemsPush(units, work.request);
        Sequences.Assoc(units, [work.request], ReadRequests(masterConnection.Lines()).units);
        Sequences.Assoc(before, Items(units), [Item(work.request)]);
        producing := producing + [Item(work.request)];
        units := units + [work.request];
      }
    }

    /** One work unit per request frame, then one stop for each calculator. */
    method Run() returns (threw: bool)
      modifies masterConnection`input, masterConnection`incoming, masterConnection`descriptor, `producing
      ensures var s := ReadRequests(old(masterConnection.Lines()));
              && threw == s.threw
              && (!threw ==> producing == old(producing) + Items(s.units) + StopsOnly(stopConditionsToSend))
    {
      hide ReadRequests, Items;
      threw := HandleMasterConnection();
      if threw { return; }
      ghost var before := producing;
      for i := 0 to stopConditionsToSend
        invariant producing == before + StopsOnly(i)
      {
        producing := producing + [Stop];
      }
    }
  }

  lemma NoItems(units: seq<Request>)
    requires units == []
    ensures Items(units) == []
  {
  }

  lemma NextLine(line: string, rest: seq<string>)
    ensures WireCodec.ReadLine([line] + rest) == OneLine(line, rest)
  {
  }

  /** What `serializeResponse` prints for a finished unit. */
  ghost predicate Finished(unit: WorkUnit)
    reads unit.data
  {
    unit.resultIndex < |unit.data.results|
  }

  ghost function ResponseOf(unit: WorkUnit): Response
    requires Finished(unit)
    reads unit.data
  {
    Response(unit.data.appIndex, unit.address, unit.originalIndex, unit.data.results[unit.resultIndex])
  }

  ghost predicate AllFinished(units: seq<WorkUnit>)
    reads set k | 0 <= k < |units| :: units[k].data
  {
    forall k :: 0 <= k < |units| ==> Finished(units[k])
  }

  ghost function ResponsesOf(units: seq<WorkUnit>): seq<Response>
    requires AllFinished(units)
    reads set k | 0 <= k < |units| :: units[k].data
  {
    if units == [] then [] else [ResponseOf(units[0])] + ResponsesOf(units[1..])
  }

  class ResponseClient {
    const socket: Connection
    const pendingStopConditions: nat
    var consuming: seq<Token<WorkUnit>>

    constructor (socket: Connection, pendingStopConditions: nat, queue: seq<Token<WorkUnit>>)
      ensures this.socket == socket && this.pendingStopConditions == pendingStopConditions && consuming == queue
    {
      this.socket, this.pendingStopConditions, consuming := socket, pendingStopConditions, queue;
    }

    /** A unit that could not be sent is dropped like the others. */
    method Consume(unit: WorkUnit, calls: seq<int>)
      requires Finished(unit)
      modifies socket`output, socket`descriptor
      ensures var sent := Write(PrintResponse(ResponseOf(unit)), calls);
              && socket.output == old(socket.output) + sent.text
              && socket.descriptor == if sent.result == 0 then -1 else old(socket.descriptor)
    {
      var result := unit.data.SerializeResult(unit.resultIndex);
      var queryResult := Line(ToString(unit.data.appIndex)) + (Line(ToString(unit.address)) +
                         (Line(ToString(unit.originalIndex)) + Line(result)));
      var sent := socket.Send(queryResult, calls);
    }

    /** For each unit met before the awaited stops, in order, as much of its response
        frame as the system calls take, and then one stop frame. */
    method Run(calls: seq<seq<int>>)
      requires Stops(consuming) >= pendingStopConditions
      requires AllFinished(Served(consuming, pendingStopConditions))
      modifies `consuming, socket`output, socket`descriptor
      ensures var frames := ResponsesOf(Served(old(consuming), pendingStopConditions));
              && socket.output == old(socket.output) + SentFrames(frames, calls, |frames|)
                                  + Write(STOP, CallsFor(calls, |frames|)).text
              && (EverySendWorks(frames, calls) ==>
                    socket.output == old(socket.output) + PrintResponses(frames) + STOP)
      ensures consuming == Behind(old(consuming), pendingStopConditions)
    {
      hide Served, ResponsesOf, PrintResponses, PrintResponse, ResponseOf, AllFinished, Write, EverySendWorks;
      hide SentFrames, CallsFor, LinesOf, ChunkLines, Behind;
      var need := pendingStopConditions;
      ghost var all := Served(consuming, need);
      ghost var frames := ResponsesOf(all);
      var sent := 0;
      FramesOf(all);
      NothingSent(frames, calls, old(socket.output));
      while need > 0
        invariant 0 <= need <= Stops(consuming) && sent <= |all| == |frames|
        invariant forall k :: 0 <= k < |all| ==> Finished(all[k]) && ResponseOf(all[k]) == frames[k]
        invariant Served(consuming, need) == all[sent..]
        invariant Behind(consuming, need) == Behind(old(consuming), pendingStopConditions)
        invariant socket.output == old(socket.output) + SentFrames(frames, calls, sent)
        decreases |consuming|
      {
        var token := consuming[0];
        ServedFirst(consuming, need);
        consuming := consuming[1..];
        if token.Stop? {
          need := need - 1;
        } else {
          assert all[sent] == token.item && all[sent..][1..] == all[sent + 1..];
          SentNext(frames, calls, sent, old(socket.output));
          Consume(token.item, CallsFor(calls, sent));
          sent := sent + 1;
        }
      }
      NothingLeft(consuming);
      assert sent == |all| && frames[..sent] == frames;
      SameFrames(all, frames);
      if EverySendWorks(frames, calls) { AllSent(frames, calls, sent); }
      var stopped := socket.Send(STOP, CallsFor(calls, sent));
      SameFrames(all, frames);
    }
  }

  /** What the system calls report for the `k`-th send; afterwards the connection fails. */
  function CallsFor(calls: seq<seq<int>>, k: nat): seq<int> { if k < |calls| then calls[k] else [] }

  /** What reaches the master of the first `n` frames. */
  function SentFrames(frames: seq<Response>, calls: seq<seq<int>>, n: nat): string
    requires n <= |frames|
  {
    if n == 0 then ""
    else SentFrames(frames, calls, n - 1) + Write(PrintResponse(frames[n - 1]), CallsFor(calls, n - 1)).text
  }

  lemma NothingSent(frames: seq<Response>, calls: seq<seq<int>>, before: string)
    ensures before + SentFrames(frames, calls, 0) == before
  {
  }

  lemma SentNext(frames: seq<Response>, calls: seq<seq<int>>, k: nat, before: string)
    requires k < |frames|
    ensures before + SentFrames(frames, calls, k) + Write(PrintResponse(frames[k]), CallsFor(calls, k)).text
         == before + SentFrames(frames, calls, k + 1)
  {
    hide Write, PrintResponse, CallsFor;
    Sequences.Assoc(before, SentFrames(frames, calls, k), Write(PrintResponse(frames[k]), CallsFor(calls, k)).text);
  }

  /** No send fails, the one of the stop included. */
  ghost predicate EverySendWorks(frames: seq<Response>, calls: seq<seq<int>>) {
    && (forall k :: 0 <= k < |frames| ==> Write(PrintResponse(frames[k]), CallsFor(calls, k)).result > 0)
    && Write(STOP, CallsFor(calls, |frames|)).result > 0
  }

  lemma {:induction false} AllSent(frames: seq<Response>, calls: seq<seq<int>>, n: nat)
    requires EverySendWorks(frames, calls) && n <= |frames|
    ensures SentFrames(frames, calls, n) == PrintResponses(frames[..n])
    ensures Write(STOP, CallsFor(calls, |frames|)).text == STOP
  {
    hide Write, PrintResponse, PrintResponses;
    WriteIsWhole(STOP, CallsFor(calls, |frames|));
    if n == 0 {
      NothingPrinted(frames);
    } else {
      AllSent(frames, calls, n - 1);
      NotEmpty(frames[n - 1]);
      WriteIsWhole(PrintResponse(frames[n - 1]), CallsFor(calls, n - 1));
      PrintNext(frames, n - 1);
    }
  }

  lemma NotEmpty(r: Response)
    ensures PrintResponse(r) != ""
  {
  }

  lemma NothingPrinted(frames: seq<Response>)
    ensures PrintResponses(frames[..0]) == ""
  {
  }

  lemma {:induction false} FramesOf(units: seq<WorkUnit>)
    requires AllFinished(units)
    ensures |ResponsesOf(units)| == |units|
    ensures forall k :: 0 <= k < |units| ==> Finished(units[k]) && ResponseOf(units[k]) == ResponsesOf(units)[k]
  {
    if units != [] {
      assert forall k :: 0 <= k < |units| - 1 ==> units[1..][k] == units[k + 1];
      FramesOf(units[1..]);
    }
  }

  lemma SameFrames(units: seq<WorkUnit>, frames: seq<Response>)
    requires |frames| == |units|
    requires forall k :: 0 <= k < |units| ==> Finished(units[k]) && ResponseOf(units[k]) == frames[k]
    ensures AllFinished(units) && ResponsesOf(units) == frames
  {
    FramesOf(units);
  }

  lemma {:induction false} PrintNext(frames: seq<Response>, k: nat)
    requires k < |frames|
    ensures PrintResponses(frames[..k + 1]) == PrintResponses(frames[..k]) + PrintResponse(frames[k])
    decreases k
  {
    hide PrintResponse;
    if k == 0 {
      assert frames[..1] == [frames[0]] && frames[..1][1..] == [];
      assert PrintResponses(frames[..1]) == PrintResponse(frames[0]) + PrintResponses(frames[..1][1..]);
    } else {
      PrintNext(frames[1..], k - 1);
      assert frames[..k + 1][1..] == frames[1..][..k] && frames[..k][1..] == frames[1..][..k - 1];
    }
  }

  // --------------------------------------------------------- the master's end

  /** The values that a sequence of deliveries appends to one slot. */
  function Collected(deliveries: seq<Delivery>, address: nat, index: nat): seq<int> {
    if deliveries == [] then []
    else
      var last := deliveries[|deliveries| - 1].response;
      Collected(deliveries[..|deliveries| - 1], address, index)
      + if last.address == address && last.index == index then last.values else []
  }

  class WorkerConnectionHandler {
    const workerConnections: WorkerConnections
    /** The data that the addresses in the frames denote. */
    const memory: map<nat, CalcData>
    var producing: seq<Token<DataUnit>>

    constructor (workerConnections: WorkerConnections, memory: map<nat, CalcData>)
      ensures this.workerConnections == workerConnections && this.memory == memory && producing == []
    {
      this.workerConnections, this.memory, producing := workerConnections, memory, [];
    }

    /** The result slots of all data on the master, by address. */
    ghost function Slots(): map<nat, seq<seq<int>>>
      reads memory.Values
    {
      map a | a in memory :: memory[a].results
    }

    ghost predicate Distinct()
    {
      forall a, b :: a in memory && b in memory && a != b ==> memory[a] != memory[b]
    }

    /** `deserializeResponse`: the values go to the end of the slot that the frame
        names, as far as they are numbers; `None` is its exception. */
    method FillSlot(app: nat, buffer: string) returns (unit: Option<DataUnit>)
      requires Distinct()
      requires DeserializeResponse(app, buffer).Some?
               ==> HasSlot(Slots(), DeserializeResponse(app, buffer).value.response)
      modifies (set d | d in memory.Values)`results
      ensures match DeserializeResponse(app, buffer)
              case None => unit.None? && Slots() == old(Slots())
              case Some(d) =>
                && Slots() == Store(old(Slots()), d.response)
                && unit == if d.complete then Some(DataUnit(memory[d.response.address], d.response.index)) else None
    {
      hide Tokenizer.Split, Tokenizer.Find, ParseOwner, ParseResult;
      var response := Tokenizer.Tokenize(buffer, [], "\n", false);
      assert response == Tokenizer.Split(buffer, "\n");
      if |response| < RESPONSE_BUFFER_LINES_COUNT { return None; }
      var owner := ParseOwner(response[0], response[1]);
      if owner.None? { return None; }
      var data := memory[owner.value.0];
      var complete := data.DeserializeResult(owner.value.1, response[2]);
      unit := if complete then Some(DataUnit(data, owner.value.1)) else None;
    }

    /** One frame: its values go to their slot, and the unit to the assembler if all of
        them are numbers. */
    method Route(workerConnection: Connection) returns (routed: bool, threw: bool)
      requires Distinct()
      requires ReadDelivery(workerConnection.Lines()).Unit?
               ==> HasSlot(Slots(), ReadDelivery(workerConnection.Lines()).value.response)
      modifies workerConnection`input, workerConnection`incoming, workerConnection`descriptor
      modifies `producing, (set d | d in memory.Values)`results
      ensures match ReadDelivery(old(workerConnection.Lines()))
              case Unit(d, rest) =>
                && routed == d.complete && threw == !d.complete && workerConnection.Lines() == rest
                && Slots() == Store(old(Slots()), d.response)
                && producing == old(producing) + (if d.complete
                                                  then [Item(DataUnit(memory[d.response.address], d.response.index))]
                                                  else [])
              case Stopped(_) => !routed && !threw && producing == old(producing) && Slots() == old(Slots())
              case Thrown => !routed && threw && producing == old(producing) && Slots() == old(Slots())
      ensures workerConnection.descriptor in {old(workerConnection.descriptor), -1}
    {
      hide WireCodec.ReadLine, LinesOf, ChunkLines, ReadLines, ParseApplication, DeserializeResponse, Store;
      hide Slots, Distinct, HasSlot;
      assert producing + [] == producing;
      var ok, line := workerConnection.ReadLine();
      if ok { NextLine(line, workerConnection.Lines()); }
      if !ok { return false, false; }
      var dispatch := ParseApplication(line);
      if dispatch.Uncaught? { return false, true; }
      if dispatch.NoApplication? { return false, false; }
      var buffer;
      ok, buffer := ReadFrame(workerConnection, RESPONSE_BUFFER_LINES_COUNT, "");
      if !ok || !Calculates(dispatch.app) { return false, false; }
      var unit := FillSlot(dispatch.app, buffer);
      if unit.None? { return false, true; }
      producing := producing + [Item(unit.value)];
      return true, false;
    }

    /** The whole conversation with a worker: every delivery is stored, one unit per
        complete delivery goes to the assembler in the order of the frames, and in
        the end the connection leaves the pool, unless an exception ends the thread. */
    method Consume(workerConnection: Connection) returns (threw: bool, ghost index: nat)
      requires Distinct() && workerConnection in workerConnections.connections
      requires Housed(ReadDeliveries(workerConnection.Lines()).units, Slots())
      modifies workerConnection`input, workerConnection`incoming, workerConnection`descriptor
      modifies `producing, (set d | d in memory.Values)`results
      modifies workerConnections`connections
      ensures var s := ReadDeliveries(old(workerConnection.Lines()));
              && threw == s.threw
              && Owned(s.units, memory)
              && producing == old(producing) + Delivered(s.units, memory)
              && Slots() == StoreAll(old(Slots()), s.units)
      ensures !threw ==> Erases(old(workerConnections.connections), workerConnections.connections,
                                workerConnection.descriptor, index)
      ensures threw ==> workerConnections.connections == old(workerConnections.connections)
    {
      threw := ReadAll(workerConnection);
      index := 0;
      if !threw { index := workerConnections.RemoveSocket(workerConnection); }
    }

    /** The read loop. */
    method ReadAll(workerConnection: Connection) returns (threw: bool)
      requires Distinct()
      requires Housed(ReadDeliveries(workerConnection.Lines()).units, Slots())
      modifies workerConnection`input, workerConnection`incoming, workerConnection`descriptor
      modifies `producing, (set d | d in memory.Values)`results
      ensures var s := ReadDeliveries(old(workerConnection.Lines()));
              && threw == s.threw
              && Owned(s.units, memory)
              && producing == old(producing) + Delivered(s.units, memory)
              && Slots() == StoreAll(old(Slots()), s.units)
    {
      hide ReadDelivery, ReadDeliveries, Delivered, StoreAll, Store, Owned, Housed, LinesOf, ChunkLines;
      ghost var whole := ReadDeliveries(workerConnection.Lines());
      ghost var done: seq<Delivery> := [];
      ghost var before, slots := producing, Slots();
      NothingDelivered(memory, slots);
      assert done + whole.units == whole.units && before + [] == before;
      while true
        invariant done + ReadDeliveries(workerConnection.Lines()).units == whole.units
        invariant ReadDeliveries(workerConnection.Lines()).threw == whole.threw
        invariant Owned(done, memory) && slots.Keys == memory.Keys
        invariant producing == before + Delivered(done, memory)
        invariant Slots() == StoreAll(slots, done)
        decreases |workerConnection.Lines()|
      {
        ghost var lines := workerConnection.Lines();
        ghost var next := ReadDelivery(lines);
        NextDelivery(lines);
        StoredLengths(slots, done);
        if next.Unit? { HousedNext(done, ReadDeliveries(lines).units, slots); }
        var routed;
        routed, threw := Route(workerConnection);
        if next.Unit? {
          StorePush(slots, done, next.value);
          DeliveredPush(done, next.value, memory, before);
        }
        if !routed {
          LastUnits(done, next, whole.units);
          return;
        }
        Sequences.Assoc(done, [next.value], ReadDeliveries(workerConnection.Lines()).units);
        done := done + [next.value];
      }
    }
  }

  lemma LastUnits(done: seq<Delivery>, next: Read<Delivery>, whole: seq<Delivery>)
    requires next.Unit? ==> whole == done + ([next.value] + [])
    requires !next.Unit? ==> whole == done + []
    ensures whole == if next.Unit? then done + [next.value] else done
  {
    assert done + [] == done;
  }

  ghost predicate Owned(deliveries: seq<Delivery>, memory: map<nat, CalcData>) {
    forall k :: 0 <= k < |deliveries| ==> deliveries[k].response.address in memory
  }

  /** Every delivery names a slot. */
  ghost predicate Housed(deliveries: seq<Delivery>, slots: map<nat, seq<seq<int>>>) {
    forall k :: 0 <= k < |deliveries| ==> HasSlot(slots, deliveries[k].response)
  }

  lemma HousedNext(done: seq<Delivery>, others: seq<Delivery>, slots: map<nat, seq<seq<int>>>)
    requires others != [] && Housed(done + others, slots)
    ensures HasSlot(slots, others[0].response)
  {
    assert (done + others)[|done|] == others[0];
  }

  ghost predicate HasSlot(slots: map<nat, seq<seq<int>>>, r: Response) {
    r.address in slots && r.index < |slots[r.address]|
  }

  function Store(slots: map<nat, seq<seq<int>>>, r: Response): map<nat, seq<seq<int>>> {
    if r.address in slots && r.index < |slots[r.address]|
    then slots[r.address := slots[r.address][r.index := slots[r.address][r.index] + r.values]]
    else slots
  }

  function StoreAll(slots: map<nat, seq<seq<int>>>, deliveries: seq<Delivery>): map<nat, seq<seq<int>>> {
    if deliveries == [] then slots
    else Store(StoreAll(slots, deliveries[..|deliveries| - 1]), deliveries[|deliveries| - 1].response)
  }

  lemma StorePush(slots: map<nat, seq<seq<int>>>, deliveries: seq<Delivery>, d: Delivery)
    ensures StoreAll(slots, deliveries + [d]) == Store(StoreAll(slots, deliveries), d.response)
  {
    hide Store;
    assert (deliveries + [d])[..|deliveries|] == deliveries;
  }

  lemma {:induction false} StoredLengths(slots: map<nat, seq<seq<int>>>, deliveries: seq<Delivery>)
    ensures StoreAll(slots, deliveries).Keys == slots.Keys
    ensures forall a :: a in slots ==> |StoreAll(slots, deliveries)[a]| == |slots[a]|
  {
    if deliveries != [] { StoredLengths(slots, deliveries[..|deliveries| - 1]); }
  }

  /** Every slot receives the values of its own responses and nothing else. */
  lemma {:induction false} StoredIsCollected(slots: map<nat, seq<seq<int>>>, deliveries: seq<Delivery>, a: nat, i: nat)
    requires a in slots && i < |slots[a]|
    ensures a in StoreAll(slots, deliveries) && i < |StoreAll(slots, deliveries)[a]|
    ensures StoreAll(slots, deliveries)[a][i] == slots[a][i] + Collected(deliveries, a, i)
  {
    StoredLengths(slots, deliveries);
    if deliveries != [] {
      hide Store;
      var front, last := deliveries[..|deliveries| - 1], deliveries[|deliveries| - 1].response;
      StoredLengths(slots, front);
      StoredIsCollected(slots, front, a, i);
      StoreAt(StoreAll(slots, front), last, a, i);
      var more := if last.address == a && last.index == i then last.values else [];
      Sequences.Assoc(slots[a][i], Collected(front, a, i), more);
    } else {
      Sequences.Nothing(slots[a][i]);
    }
  }

  lemma StoreAt(slots: map<nat, seq<seq<int>>>, r: Response, a: nat, i: nat)
    requires a in slots && i < |slots[a]|
    ensures a in Store(slots, r) && i < |Store(slots, r)[a]|
    ensures Store(slots, r)[a][i] == slots[a][i] + if r.address == a && r.index == i then r.values else []
  {
    Sequences.Nothing(slots[a][i]);
  }

  lemma NothingDelivered(memory: map<nat, CalcData>, slots: map<nat, seq<seq<int>>>)
    ensures Owned([], memory) && Delivered([], memory) == [] && StoreAll(slots, []) == slots
  {
  }

  ghost function Delivered(deliveries: seq<Delivery>, memory: map<nat, CalcData>): seq<Token<DataUnit>>
    requires Owned(deliveries, memory)
  {
    if deliveries == [] then []
    else
      var last := deliveries[|deliveries| - 1];
      Delivered(deliveries[..|deliveries| - 1], memory)
      + if last.complete then [Item(DataUnit(memory[last.response.address], last.response.index))] else []
  }

  lemma DeliveredPush(deliveries: seq<Delivery>, d: Delivery, memory: map<nat, CalcData>, before: seq<Token<DataUnit>>)
    requires d.response.address in memory && Owned(deliveries, memory)
    ensures Owned(deliveries + [d], memory)
    ensures before + Delivered(deliveries + [d], memory)
         == before + Delivered(deliveries, memory)
            + if d.complete then [Item(DataUnit(memory[d.response.address], d.response.index))] else []
  {
    assert (deliveries + [d])[..|deliveries|] == deliveries;
    Sequences.Assoc(before, Delivered(deliveries, memory),
                    if d.complete then [Item(DataUnit(memory[d.response.address], d.response.index))] else []);
  }

  lemma NextDelivery(lines: seq<string>)
    ensures match ReadDelivery(lines)
            case Unit(d, rest) =>
              && ReadDeliveries(lines).units == [d] + (if d.complete then ReadDeliveries(rest).units else [])
              && ReadDeliveries(lines).threw == (d.complete ==> ReadDeliveries(rest).threw)
            case Stopped(_) => ReadDeliveries(lines).units == [] && !ReadDeliveries(lines).threw
            case Thrown => ReadDeliveries(lines).units == [] && ReadDeliveries(lines).threw
  {
    hide ReadDelivery;
  }
}
