# Verification of the web server's production line and of the n-body simulation

This project models two programs of the repository and proves properties of the models.

* **The master/worker web server.** Requests become data, data are split into
  units, units are computed on the master or on a worker, and one assembler puts
  the answers together. Shutdown works only by counting stop conditions through
  FIFO queues and over the links to the workers and back.
* **The n-body simulation.** Each process owns a block of bodies and broadcasts
  them in turn; the processes together have to agree with one serial program.

Run `dafny verify dfyconfig.toml` to verify everything.

## Files

| files | content |
|---|---|
| `Sequences`, `Channels`, `WorkerLine`, `MasterLine` | concatenation, tokens, stages, the state and steps of a worker and of the whole line |
| `MasterChannels`, `MasterFlow`, `MasterFlowSteps`, `MasterCompletion` | the inductive invariant: stop balance of every queue and link, conservation of units, pending counts and slots, answers |
| `MasterDrain`, `MasterTermination`, `MasterProgress`, `MasterHistory`, `MasterArrivals`, `MasterBounds` | what holds over whole runs: safety of responses, drain, termination, deadlock freedom, late workers, lost requests, conservation of requests, bounded queues |
| `Composition` | the line with the calculators in it: what a client receives |
| `BlockingQueue` | `Queue` at the granularity of its semaphore and mutex operations |
| `Sockets`, `Decimal`, `Tokenizer`, `WireCodec` | sockets, texts and frames, printed and read |
| `CalcData`, `Uris`, `SlotMeaning`, `Answers` | the datum of a request: from the URI to its numbers, queries, slots, what a filled slot says, pending count and printed answer |
| `LinkEnds`, `Ranges`, `Transparency`, `Threads` | the threads as objects: both ends of a worker link, Decomposer and ResponseAssembler; all results fit in 64 bits and the remote path equals the local one |
| `Primes`, `PrimeFactorization`, `HugePrime`, `Goldbach`, `GoldbachBruteForce` | the calculators, inputs on which they overflow, the naive search |
| `BlockDistribution`, `Bodies`, `Accelerations`, `Distances`, `Collisions`, `Universe`, `Simulation`, `Gravity`, `Motion` | the n-body simulation: accelerations, distances, collisions, gravitation in coordinates, motion and momentum |

## What the models assume and what they found

* The line is a state machine: any thread, any worker and the environment may take
  the next step, so a statement about all runs is about all interleavings. `Queue`
  is treated there as an atomic bounded FIFO, which `BlockingQueue.RefinesAtomicQueue`
  justifies.
* A worker link is a reliable FIFO of frames until the worker dies; then its
  unread requests, everything inside it and the frames the master cannot read any
  more are lost. A datum with a lost unit is never answered
  (`MasterHistory.LostNeverAnswered`).
* `Socket::send` returns the signed result of the system call as a `bool`, so an
  error counts as success and the unit is lost (`LoseRemote`); every configuration has
  a complete run in which an accepted request is lost this way
  (`MasterHistory.RequestIsLost`). Only a result of zero
  would make the Distributor fall back to the local calculators; it would also close
  the socket, and a connection that is closed while it waits for a handler equals the
  stop condition of its queue. A system call that is given text to send does not
  return zero, and no frame is empty (`WireCodec.FramesAreNotEmpty`), so the line has
  no such step; `LinkEnds` models what the code does with the result.
* A worker that registers after `stopWorkers` is never told to stop and keeps the
  server from ending as long as it lives. This is the only obstacle: when both
  servers have stopped listening and no thread can move any more, the shutdown is
  complete exactly when all such workers have died (`MasterHistory.StuckOrDone`), and
  every configuration has a run with such a worker
  (`MasterHistory.LateWorkerFromStart`). The comment in `Distributor::run` says that
  `stopWorkers` also removes the connections; the code does not.
* `Socket::readLine` ends a line where the received chunk ends. The lines are those of
  the sent text exactly when no chunk but the last ends inside a line
  (`Sockets.ChunksAreLines`); otherwise a request can be read as another one
  (`WireCodec.CutFrameIsMisread`). The password of a worker, which is sent without a
  newline, depends on it (`LinkEnds.PasswordStandsAlone`). The readers are specified on
  the lines that the chunks give; transparency is proved for chunks that keep lines
  together.
* "-1" stops the readers because `std::stoul` accepts the sign and wraps around.
* The local and the remote path differ on a slot that is not empty and a
  non-negative Goldbach query; `UpdatePending` and the completion invariant make
  slots empty when they are filled.
* `isPrime` multiplies two `int`s. The overflow is undefined behaviour; the
  models return `IntOverflow` there and characterise exactly when it happens, in
  `isPrime`, in the factorization and in both Goldbach searches, each with an input
  that reaches it.
* `tokenize` advances by one character after a delimiter of any length, so joining
  undoes splitting only for delimiters of one character.
* Equal masses on different ranks: the body of the higher rank absorbs the other
  one, while the comment in `collideBodies` announces the opposite. A body of the
  lower rank that survives gains no mass.
* Between collisions the momentum of the universe is kept (`Motion.MoveUniverse`). A
  merger keeps it only for velocities in one proportion (`Collisions.MergedMomentum`),
  because both velocities are weighted with the absorbed mass after the own mass has
  grown; the comment in `mergeVelocities` announces conservation.
* Vectors are exact reals. The inverse cube of a distance and the cube root are
  parameters; a comparison of a distance with a sum of radii is a comparison of squares.

## Model

| member | source | states |
|---|---|---|
| MasterDrain.DrainTheorem | web_server/src/http/HttpServer.cpp:195-300 | On every run, for any numbers of handlers, calculators, worker handlers and workers and any interleaving: once the ClientResponder has met its stop every thread has halted, every queue and link is empty, the pool is empty, and a datum has been answered exactly once if none of its units died with a worker and never otherwise |
| MasterDrain.DrainWithoutLoss | web_server/src/http/concurrent/ResponseAssembler.cpp:10-30 | With reliable workers every datum handed to the Decomposer has been answered exactly once when the line ends |
| MasterDrain.MasterQuiet | web_server/src/http/HttpServer.cpp:203-239 | The stop counts given to the threads imply, queue by queue from the responder back to the acceptor, that a halted consumer leaves an empty queue and halted producers |
| MasterDrain.WorkersQuiet | web_server/src/http/distributed/WorkerConnectionHandler.cpp:18-44 | When the line has ended every worker connection has been closed, left the pool, and has nothing on either of its links |
| MasterDrain.ResponsesAreExact | web_server/src/http/concurrent/ClientResponder.cpp:9-22 | On every run, units lost or not, a datum is answered at most once and every response sent holds the answer to each of its queries |
| MasterDrain.PendingCounts | web_server/src/webapp/concurrentData/ConcurrentData.cpp:28-35 | `pendingQueries` equals the number of result indices whose unit the assembler has not consumed, and is zero exactly when the datum is with the responder or has been answered |
| MasterDrain.NothingRefersToReadyData | web_server/src/http/concurrent/ClientResponder.cpp:16-22 | Once a datum is ready no unit of it is left in any queue, thread, link or worker, so freeing it is safe |
| MasterDrain.ReachableInv | web_server/src/http/HttpServer.cpp:265-300 | Every reachable state of the line satisfies the whole invariant |
| MasterCompletion.InitInv | web_server/src/http/HttpServer.cpp:195-263 | The freshly started line satisfies the invariant |
| MasterCompletion.StepInv | web_server/src/http/HttpServer.cpp:195-300 | Every step of every thread, of every worker and of the environment, a dying worker included, keeps the invariant |
| MasterCompletion.ReadyIsExact | web_server/src/webapp/concurrentData/ConcurrentData.cpp:28-35 | With nothing pending, every slot of a datum has been written, with the answer to its own query |
| MasterChannels.StepChannels | web_server/src/http/HttpServer.cpp:203-239 | Every step keeps, for every queue, the balance between stops still to be enqueued, stops in the queue and stops still awaited, with the last stop behind all products |
| MasterChannels.StepPool | web_server/src/http/distributed/WorkerConnections.cpp:9-53 | Every step keeps each registered connection in exactly one place while it is pooled, and each worker link in order |
| MasterChannels.ServedIsPooled | web_server/src/http/distributed/WorkerConnections.cpp:24-35 | `removeSocket` always finds its connection: a handler serves only pooled connections and each of them alone |
| MasterChannels.SendOk | web_server/src/http/distributed/Distributor.cpp:33-52 | The Distributor sends only to workers that have not been told to stop, so no request frame follows a stop frame on a link |
| MasterFlowSteps.StepFlow | web_server/src/http/distributed/Distributor.cpp:33-52 | Conservation: every unit of every datum is in exactly one place or lost with a dead worker, whichever thread moves |
| MasterFlowSteps.MetWhole | web_server/src/http/concurrent/Decomposer.cpp:24-31 | A datum the Decomposer meets still has all its queries pending, so it is split into one unit per query |
| MasterFlow.DeathSplits | web_server/src/network/Socket.cpp:57-65 | What a dying worker loses and the response frames it leaves readable are together exactly what was inside it |
| MasterTermination.StepLighter | web_server/src/http/HttpServer.cpp:265-300 | Termination: every step of a thread or worker strictly decreases a lexicographic weight over items and stops |
| MasterTermination.WorkerLighter | web_server/src/http/HttpServer.cpp:487-524 | The same inside a worker |
| MasterHistory.DeadlockFree | web_server/src/http/HttpServer.cpp:265-300 | With every capacity at least one, after any run that left both servers no longer listening, some thread can move as long as the responder has not met its stop, unless a worker that registered after `stopWorkers` in that run still lives |
| MasterHistory.StuckOrDone | web_server/src/http/distributed/WorkerConnections.cpp:37-53 | After any run, when no thread can move and nothing more arrives, the server has shut down completely if and only if every worker that registered after `stopWorkers` in that run has died |
| MasterHistory.PromptWorkersDrain | web_server/src/http/HttpServer.cpp:358-390 | A run in which nobody registers after `stopWorkers` can only get stuck in the complete shutdown |
| MasterHistory.ForgottenExactly | web_server/src/http/distributed/MasterServer.cpp:49-60 | The live connections that were never told to stop after `stopWorkers` are exactly the live workers that registered after it |
| MasterHistory.ForgottenArises | web_server/src/http/distributed/WorkerConnections.cpp:43-53 | Only a registration after `stopWorkers` makes such a connection |
| MasterProgress.ForgottenStays | web_server/src/http/distributed/MasterServer.cpp:49-60 | A worker registered after `stopWorkers` is never told to stop and never leaves the pool while it lives |
| MasterProgress.ForgottenNeverEnds | web_server/src/http/distributed/MasterServer.cpp:49-60 | Such a worker keeps the server from ending in every continuation in which it does not die |
| MasterHistory.RunToEnd | web_server/src/http/HttpServer.cpp:358-390 | From every reachable state in which nothing more arrives, letting any movable thread move leads by steps of threads to a state in which none can, and it is the complete shutdown if and only if no worker was forgotten |
| MasterHistory.SilentOutcome | web_server/src/http/HttpServer.cpp:358-390 | The outcome is the same for every schedule, and decided by the state in which the environment fell silent |
| MasterProgress.NoEndlessRun | web_server/src/http/HttpServer.cpp:358-390 | No infinite schedule of thread steps exists from a state that satisfies the invariant |
| MasterHistory.LateWorker | web_server/src/http/distributed/MasterServer.cpp:49-60 | The obstacle is real: every reachable state in which clients are no longer accepted but workers are can be continued by a run that calls `stopWorkers` and then registers a worker, which is not told to stop |
| MasterHistory.LateWorkerFromStart | web_server/src/http/HttpServer.cpp:335-341 | Every configuration has such a run from its start |
| MasterHistory.LostNeverAnswered | web_server/src/http/distributed/Distributor.cpp:33-52 | A datum one of whose units was lost is never answered, however the run goes on |
| MasterHistory.RequestIsLost | web_server/src/network/Socket.cpp:107-144 | The loss is real: every configuration has a run to the complete shutdown in which a worker dies between being picked and the send, and the accepted request is never answered |
| Composition.FilledExists | web_server/src/webapp/concurrentData/PrimeFactData.cpp:8-12 | Every query has a result: each number above one has a factorization, and each number a list of its Goldbach sums |
| Composition.ResponsesAreCalculated | web_server/src/http/concurrent/ClientResponder.cpp:9-22 | The line with the calculators in it: every response ever sent has one slot per query of its datum, each holding the factorization or the Goldbach sums of that query in 64-bit integers |
| Composition.UriIsAnswered | web_server/src/webapp/concurrentData/CalcData.cpp:102-144 | Each number in the URI of an answered request is shown with the slot that holds the result for this very number |
| MasterArrivals.RequestsAreKept | web_server/src/http/HttpConnectionHandler.cpp:21-87 | Over every run the requests for numbers that the clients brought are, each as often as it was made, the data of the tables and what the acceptor, the sockets queue and the handlers still hold |
| MasterArrivals.NothingIsIgnored | web_server/src/http/HttpConnectionHandler.cpp:62-87 | When the server has ended every request for numbers that arrived has become a datum, and nothing else has |
| MasterBounds.QueuesAreBounded | web_server/src/prodcons/Queue.hpp:35-65 | In every reachable state no queue of the master or of a worker holds more than its capacity |
| MasterBounds.PicksFromPool | web_server/src/http/distributed/Distributor.cpp:33-52 | A unit is held for the local calculators only if the pool was empty when that was decided, and for a worker only if it was pooled |
| Composition.EveryRequestIsServed | web_server/src/http/HttpServer.cpp:265-390 | When no worker registers late and no unit is lost, every run that cannot go on has ended in the complete shutdown, and its answers are, request by request and as often as each was made, answers to what the clients asked, correct in every slot |
| Composition.ClientIsServed | web_server/src/http/HttpConnectionHandler.cpp:21-87 | Then each single request of each client has an answer with one correct slot per number, in order |
| Composition.FormIsAnswered | web_server/src/webapp/CalcWebApp.cpp:16-60 | From text to result: "/fact?number=" and "/goldbach?number=" with any list of 64-bit numbers are answered with the factorizations and the Goldbach sums of these numbers, in order |
| WorkerLine.WorkerDrain | web_server/src/http/distributed/ResponseClient.cpp:26-57 | Worker-side drain: for any number of calculators and any interleaving, every request frame before the stop frame gives exactly one answered response frame, all of them before the single final "-1" |
| WorkerLine.StepBalanced | web_server/src/http/HttpServer.cpp:487-524 | Every step inside a worker keeps the stop balance of its links and queues |
| WorkerLine.StepInside | web_server/src/http/distributed/RequestServer.cpp:20-45 | No step inside a worker creates, duplicates or drops a frame |
| WorkerLine.StepTruthful | web_server/src/http/concurrent/Calculator.cpp:5-18 | Frames past the calculators carry the answer to their own query, frames before them carry nothing |
| WorkerLine.ClosedWorkerIsEmpty | web_server/src/http/distributed/ResponseClient.cpp:26-40 | When the master has read a worker's "-1" the worker is empty, has halted and had been told to stop |
| Channels.ChanDrained | web_server/src/prodcons/Consumer.hpp:75-87 | A queue whose consumers await no stop is empty and its producers owe none |
| Channels.TeamSpent | web_server/src/http/concurrent/Calculator.cpp:5-10 | A team of threads that owes no stop has halted altogether |
| BlockingQueue.QueueIsSafe | web_server/src/prodcons/Queue.hpp:46-65 | For any number of threads and any interleaving of semaphore and mutex steps: `front` finds an element, `push` finds room, the capacity is not exceeded, values leave in the order they entered, one thread at a time is in the critical section |
| BlockingQueue.StepInv | web_server/src/prodcons/Queue.hpp:46-65 | The two semaphore counts plus the threads in progress account exactly for length and free space, at every step |
| BlockingQueue.RefinesAtomicQueue | web_server/src/prodcons/Queue.hpp:46-65 | Every step is a push on a queue with room, a pop from a non-empty queue, or invisible |
| BlockingQueue.ValuesAreKept | web_server/src/prodcons/Queue.hpp:46-65 | In every interleaving the values given to `enqueue` are those pushed and those that producers carry, the values popped are those that `dequeue` returned and those that consumers carry, and each thread pushes and returns its own values in order |
| BlockingQueue.StepCarries | web_server/src/prodcons/Queue.hpp:46-65 | No step of any thread changes the value that an operation carries |
| BlockingQueue.BlockedForAReason | web_server/src/prodcons/Queue.hpp:46-65 | If no thread inside an operation can move, all of them are producers on a full queue or all are consumers on an empty one |
| Threads.Decomposer.Run | web_server/src/http/concurrent/Decomposer.cpp:11-31 | Consumes until the awaited stops have come and enqueues, in order, all units of every datum met before, then one stop |
| Threads.UnitsAt | web_server/src/webapp/concurrentData/CalcData.cpp:66-79 | A datum is decomposed into one unit for each result index, in order |
| Channels.ServedAt | web_server/src/prodcons/Consumer.hpp:75-87 | A consumer meets every item in front of its last awaited stop, in order, and leaves what is behind it |
| Channels.OnlyStops | web_server/src/http/distributed/RequestServer.cpp:26-28 | The stops for the calculators are as many as these and nothing else |
| Threads.ResponseAssembler.Run | web_server/src/http/concurrent/ResponseAssembler.cpp:10-30 | Decrements the shared pending counts in place and forwards each datum when its count is zero, then one stop |
| Threads.AssembledCount | web_server/src/http/concurrent/ResponseAssembler.cpp:22-30 | How often a datum is forwarded, as a function of its pending count and of how many of its units are met |
| Threads.AnsweredOnce | web_server/src/webapp/concurrentData/ConcurrentData.cpp:28-35 | A datum is forwarded once if and only if exactly as many of its units are met as were pending, and not at all if and only if fewer are |
| LinkEnds.ReadFrame | web_server/src/http/distributed/RequestServer.cpp:67-78 | Reads a fixed number of lines and joins them with newlines, or fails at the end of the stream |
| LinkEnds.Distributor.Consume | web_server/src/http/distributed/Distributor.cpp:33-52 | As much of the request frame as the system calls take goes out on one pooled connection; with an empty pool, or when a call returns zero and thereby closes the connection, the unit goes to the local calculators |
| LinkEnds.WorkerConnections.RemoveSocket | web_server/src/http/distributed/WorkerConnections.cpp:24-35 | Erases the first connection with the same descriptor and keeps the order of the others |
| LinkEnds.WorkerConnections.StopWorkers | web_server/src/http/distributed/WorkerConnections.cpp:43-53 | One stop frame is sent on every pooled connection, with the outcome of its system calls |
| LinkEnds.WorkerConnections.GetRandomWorkerConnection | web_server/src/http/distributed/WorkerConnections.cpp:9-22 | A pooled connection, or nothing exactly when the pool is empty |
| LinkEnds.MasterServer.HandleClientConnection | web_server/src/http/distributed/MasterServer.cpp:49-60 | A connection whose first line is the password is pooled and enqueued, any other is neither |
| LinkEnds.PasswordStandsAlone | web_server/src/http/distributed/ResponseClient.cpp:16-24 | The password, sent without a newline, is recognised if and only if its chunk ends there or a newline follows |
| Sockets.Connection.Send | web_server/src/network/Socket.cpp:107-144 | The text goes out as far as the system calls take it; an error still counts as success, zero closes the socket and is the only failure |
| Sockets.WriteIsWhole | web_server/src/network/Socket.cpp:119-144 | The returned value is positive if and only if the whole text was sent, and then its length; otherwise a beginning of it was |
| Sockets.WriteStops | web_server/src/network/Socket.cpp:119-144 | The first system call that takes nothing ends the sending: exactly what was taken before has been sent, and its value is returned |
| Sockets.WriteEnds | web_server/src/network/Socket.cpp:137-142 | When the calls have taken the whole text the sending ends and returns its length |
| Sockets.Connection.ReadLine | web_server/src/network/Socket.cpp:57-86 | The next line of the received chunks, which a newline or the end of its chunk ends; at the end of the stream the socket is closed |
| Sockets.ChunksAreLines | web_server/src/network/Socket.cpp:57-75 | The lines read from the chunks are those of the sent text if and only if no chunk but the last ends inside a line |
| Sockets.CutIsNewline | web_server/src/network/Socket.cpp:57-75 | A cut inside a line is read like one more newline |
| WireCodec.CutFrameIsMisread | web_server/src/http/distributed/RequestServer.cpp:47-82 | A request frame received in two chunks that is read as a request with another owner |
| LinkEnds.RequestServer.ReadRequestFromMaster | web_server/src/http/distributed/RequestServer.cpp:47-82 | One frame of the received lines becomes a unit, a stop or an uncaught exception, as the frame grammar says |
| LinkEnds.RequestServer.HandleMasterConnection | web_server/src/http/distributed/RequestServer.cpp:33-45 | Enqueues exactly the units of the stream before its first stop |
| LinkEnds.RequestServer.Run | web_server/src/http/distributed/RequestServer.cpp:20-31 | Then one stop per calculator |
| LinkEnds.ResponseClient.Run | web_server/src/http/distributed/ResponseClient.cpp:26-57 | For each unit met before the awaited stops, in order, as much of its response frame as the system calls take, then one "-1"; all frames whole when every send works |
| LinkEnds.WorkerConnectionHandler.FillSlot | web_server/src/webapp/CalcWebApp.cpp:112-143 | The values of a response go to the slot that its address and index lines name and to no other, up to the first that is not a number, which is the exception |
| LinkEnds.WorkerConnectionHandler.Route | web_server/src/http/distributed/WorkerConnectionHandler.cpp:47-83 | One response frame fills its slot and forwards one unit when all its values are numbers; a stop or an exception forwards nothing |
| LinkEnds.WorkerConnectionHandler.Consume | web_server/src/http/distributed/WorkerConnectionHandler.cpp:28-44 | A whole conversation stores every delivery of the stream, forwards one unit for each complete one, in order, and takes the connection out of the pool, unless an exception ends the thread |
| LinkEnds.StoredIsCollected | web_server/src/webapp/CalcWebApp.cpp:112-143 | After any sequence of deliveries every slot has received the values of its own responses, in order, and nothing else |
| Transparency.AnswerFrame | web_server/src/http/distributed/RequestServer.cpp:47-82 | The worker turns a request frame, in any chunks that keep its lines together, into a response frame that carries what the calculators make of an empty slot |
| Transparency.AnswerRemotely | web_server/src/http/distributed/Distributor.cpp:33-52 | The remote path of a unit appends to its slot what the calculators make of an empty slot, and changes no other slot; only an overflow in the calculation prevents it |
| Ranges.FilledFits | web_server/src/webapp/calculator/GoldbachCalculator.cpp:10-25 | Whatever a calculator writes for a 64-bit query without overflow is a 64-bit integer, the count of triples included |
| Transparency.PathsAgree | web_server/src/webapp/concurrentData/GoldbachData.cpp:8-20 | The remote and the local path leave the same slot if and only if the slot was empty or the query keeps what the slot had |
| Transparency.DistributionIsTransparent | web_server/src/webapp/CalcWebApp.cpp:62-143 | For any conversation about queries that do not overflow, with replies in any order and any chunks that keep lines together: the worker reads exactly the requests and a stop, the master exactly the replies and a stop, and every slot receives what the master would have calculated itself |
| WireCodec.RequestRoundTrip | web_server/src/webapp/CalcWebApp.cpp:62-110 | A printed request is read back as itself, whatever follows in the stream |
| WireCodec.RequestStream | web_server/src/http/distributed/RequestServer.cpp:33-82 | Any sequence of requests back to back and "-1" is read as that sequence and a stop |
| WireCodec.ResponseRoundTrip | web_server/src/webapp/concurrentData/WorkUnit.hpp:38-50 | A printed response is read back as itself, whatever follows in the stream; values beyond 64 bits cut it short |
| WireCodec.ResponseStream | web_server/src/http/distributed/WorkerConnectionHandler.cpp:47-83 | The same for responses |
| WireCodec.ResultRoundTrip | web_server/src/webapp/concurrentData/CalcData.cpp:33-68 | A serialized result fits on one line and is read back up to the first value that does not fit in 64 bits, hence as itself exactly when all do, the empty result included |
| WireCodec.FramesAreNotEmpty | web_server/src/webapp/CalcWebApp.cpp:62-76 | No frame is empty, so a system call that sends it never returns zero |
| WireCodec.FrameTexts | web_server/src/webapp/concurrentData/WorkUnit.hpp:38-50 | The exact text of a request and of two responses |
| WireCodec.AnyRequest | web_server/src/webapp/CalcWebApp.cpp:79-110 | What four lines of any text become: a unit if they name a calculator, an owner that is not null and numbers; a stop or an exception otherwise |
| WireCodec.AnyResponse | web_server/src/webapp/CalcWebApp.cpp:112-143 | The same for a response frame |
| WireCodec.CutStream | web_server/src/http/distributed/RequestServer.cpp:67-78 | A stream that ends inside a frame stops both readers |
| WireCodec.StopFrame | web_server/src/http/distributed/ResponseClient.cpp:37-39 | "-1" stops both readers, because the unsigned conversion wraps it to an index beyond every application |
| Decimal.RoundTrip | web_server/src/webapp/CalcWebApp.cpp:93-102 | Every signed and every unsigned 64-bit number is parsed back from its decimal text, to the last character; other signed numbers are refused |
| Decimal.NegativeWraps | web_server/src/http/distributed/WorkerConnectionHandler.cpp:55-65 | A negative number parsed as unsigned wraps modulo 2 to the 64 |
| Decimal.ScanText | web_server/src/webapp/CalcWebApp.cpp:46-53 | White space, a sign, digits and then anything else is the number of the digits, with the sign, up to the last digit |
| Decimal.ScanNothing | web_server/src/webapp/CalcWebApp.cpp:46-53 | A text without digits behind white space and a sign is no number |
| Tokenizer.Tokenize | web_server/src/common/Util.hpp:63-94 | The scan terminates and appends exactly the (non-empty, if trimmed) tokens of the text |
| Tokenizer.JoinSplit | web_server/src/common/Util.hpp:63-94 | Joining the untrimmed tokens gives the text back if and only if the delimiter is one character long or nothing was split |
| Tokenizer.TokensAvoidDelimiter | web_server/src/common/Util.hpp:63-94 | No token contains the delimiter |
| Tokenizer.TrimmedPosition | web_server/src/common/Util.hpp:84-89 | Every non-empty token is kept, at the place behind the kept tokens that precede it |
| Tokenizer.TrimmedCount | web_server/src/common/Util.hpp:84-89 | Each non-empty token is kept as often as it occurs and no empty one is |
| Tokenizer.NotFoundMeansAbsent | web_server/src/common/Util.hpp:78-82 | The search reports nothing found if and only if the delimiter does not occur |
| Tokenizer.FindIsFirst | web_server/src/common/Util.hpp:78-82 | The delimiter found is the first one at or after the position |
| CalcData.ParseRequest | web_server/src/webapp/CalcWebApp.cpp:25-59 | Appends the values of exactly those texts that are numbers to their last character |
| Uris.Routes | web_server/src/webapp/FactWebApp.cpp:8-10 | Which URIs the two calculating applications handle, as the second and third of the chain |
| Uris.NumbersBehindEquals | web_server/src/webapp/CalcWebApp.cpp:35-43 | The numbers are the texts between commas behind the first "=" |
| Uris.NumbersBehindSlash | web_server/src/webapp/CalcWebApp.cpp:36-43 | Without a "=" they are those behind the last "/" |
| Uris.NumbersWithoutPrefix | web_server/src/webapp/concurrentData/CalcData.cpp:81-100 | With neither the parser reads the whole text and the answer shows nothing |
| Uris.EqualsRoundTrip | web_server/src/webapp/CalcWebApp.cpp:25-60 | Any non-empty list of 64-bit numbers, printed with commas behind the first "=", is parsed as exactly these numbers |
| Uris.SlashRoundTrip | web_server/src/webapp/CalcWebApp.cpp:25-60 | The same behind the last "/" |
| Uris.DocumentedForms | web_server/src/webapp/FactWebApp.cpp:8-10 | The documented forms "/fact?number=", "/goldbach?number=", "/fact/" and "/goldbach/" are parsed this way |
| Uris.TrailingText | web_server/src/webapp/CalcWebApp.cpp:46-53 | A number with anything behind it is not a number |
| CalcData.SameNumbers | web_server/src/webapp/concurrentData/CalcData.cpp:81-100 | The parser and the answer see the same numbers if and only if the URI has a "=" or a "/" or yields no number |
| CalcData.PrefixHasSlash | web_server/src/webapp/CalcWebApp.cpp:16-23 | A URI that an application accepts has a "/" |
| CalcData.RankedValue | web_server/src/webapp/concurrentData/CalcData.cpp:110-124 | The k-th text that is a number is the one that gave the query of its rank |
| CalcData.CalcData.FormatResponse | web_server/src/webapp/concurrentData/CalcData.cpp:102-144 | Each number of the URI is printed with its own query's result slot, `resultsIndex` never runs past the slots, and every other text is reported as invalid |
| CalcData.CalcData.UpdatePending | web_server/src/webapp/concurrentData/CalcData.cpp:21-25 | One pending query and one slot per query; slots that existed keep their values, new ones are empty |
| CalcData.CalcData.Decompose | web_server/src/webapp/concurrentData/CalcData.cpp:70-79 | One unit per pending query, in order, all referring to this datum |
| CalcData.CalcData.ProcessQuery | web_server/src/webapp/concurrentData/PrimeFactData.cpp:8-12 | Fills only the slot of its query, with what the calculators define, and overflows exactly on the characterised queries |
| CalcData.CalcData.SerializeResult | web_server/src/webapp/concurrentData/CalcData.cpp:33-46 | Prints the slot in the text form that `ResultRoundTrip` reads back |
| CalcData.CalcData.DeserializeResult | web_server/src/webapp/concurrentData/CalcData.cpp:48-68 | Appends to one slot the values before the first text that is not a number, and reports whether there was one |
| CalcData.FilledUnique | web_server/src/webapp/concurrentData/GoldbachData.cpp:8-20 | The mathematical description of a filled slot determines it |
| CalcData.CalculateSums | web_server/src/webapp/concurrentData/GoldbachData.cpp:8-20 | For non-negative queries only the count of sums stays in the slot, for negative ones the sums |
| SlotMeaning.EvenSlot | web_server/src/webapp/concurrentData/GoldbachData.cpp:8-20 | The slot of a non-negative even query is one number, how many pairs of primes add up to it |
| SlotMeaning.OddSlot | web_server/src/webapp/concurrentData/GoldbachData.cpp:8-20 | The slot of a non-negative odd query is how many triples of primes add up to it |
| SlotMeaning.NegativeSlot | web_server/src/webapp/concurrentData/GoldbachData.cpp:8-20 | The slot of a negative query lists these pairs or triples for its absolute value, in order |
| SlotMeaning.FactorSlot | web_server/src/webapp/concurrentData/PrimeFactData.cpp:8-12 | The slot of a factorization lists increasing primes with positive exponents whose product is the query |
| CalcData.CreateConcurrentData | web_server/src/webapp/FactWebApp.cpp:12-31 | A request without numbers is answered at once with every text reported; any other becomes a datum with its queries, pending count and empty slots |
| CalcData.CreateWorkUnit | web_server/src/webapp/GoldbachWebApp.cpp:33-45 | A fresh datum with the one query, and the owner of the answer |
| Answers.FlatGroups | web_server/src/webapp/concurrentData/GoldbachData.cpp:42-62 | Grouping a flat slot by the number of operands undoes the flattening |
| Answers.SumsResponse | web_server/src/webapp/concurrentData/GoldbachData.cpp:42-62 | The nested loops print exactly these groups |
| Answers.BuildSums | web_server/src/webapp/concurrentData/GoldbachData.cpp:22-40 | For a filled slot the printed count is the number of sums and the printed groups are the sums |
| Answers.BuildFactors | web_server/src/webapp/concurrentData/PrimeFactData.cpp:14-47 | For a filled slot all pairs are printed in order; "invalid" is printed exactly below two |
| Primes.IsPrime | web_server/src/webapp/calculator/Prime.cpp:5-12 | True exactly for primes; the 32-bit product overflows exactly for odd numbers from 46339 squared on without a divisor up to 46339 |
| Primes.Euclid | web_server/src/webapp/calculator/PrimeFactCalculator.cpp:20-30 | A prime that divides a product divides a factor |
| Primes.SmallNeverOverflows | web_server/src/webapp/calculator/Prime.cpp:9-9 | Below 46339 squared the counter never overflows |
| Primes.OverflowWitness | web_server/src/webapp/calculator/Prime.cpp:9-9 | 46349 squared is a 64-bit input on which it does |
| PrimeFactorization.DivideWhileDivisible | web_server/src/webapp/calculator/PrimeFactCalculator.cpp:43-57 | Strips the factor completely and counts its multiplicity |
| PrimeFactorization.LogPrimeFactor | web_server/src/webapp/calculator/PrimeFactCalculator.cpp:59-64 | Appends the factor with its exact multiplicity |
| PrimeFactorization.MetDivisorIsPrime | web_server/src/webapp/calculator/PrimeFactCalculator.cpp:20-26 | A divisor met by the loop is prime, so the `isPrime` filter never rejects one |
| PrimeFactorization.TryFactor | web_server/src/webapp/calculator/PrimeFactCalculator.cpp:20-30 | One turn of the loop extends the factorization by exactly this factor |
| PrimeFactorization.ProcessNumber | web_server/src/webapp/calculator/PrimeFactCalculator.cpp:8-41 | Above one the appended pairs are the complete factorization in increasing order and the count is the number of pairs; the overflow happens exactly for numbers with two huge primes |
| HugePrime.HugeIsPrime | web_server/src/webapp/calculator/Prime.cpp:5-12 | 17 * 2^27 + 1 is prime, and `isPrime` overflows on it |
| HugePrime.FactorizationOverflowWitness | web_server/src/webapp/calculator/PrimeFactCalculator.cpp:20-24 | Its square is a 64-bit input on which the factorization overflows |
| PrimeFactorization.ProductIsNumber | web_server/src/webapp/calculator/PrimeFactCalculator.cpp:8-41 | The product of the listed powers is the number |
| PrimeFactorization.FactorizationUnique | web_server/src/webapp/calculator/PrimeFactCalculator.cpp:8-41 | No other list of pairs is a factorization |
| Goldbach.StrongGoldbach | web_server/src/webapp/calculator/GoldbachCalculator.cpp:27-39 | Appends the flattened, lexicographically increasing list of all ordered prime pairs, each once |
| Goldbach.Round | web_server/src/webapp/calculator/GoldbachCalculator.cpp:47-58 | One turn of the outer loop extends the list by all triples with this smallest operand |
| Goldbach.CompletePrime | web_server/src/webapp/calculator/GoldbachCalculator.cpp:49-58 | The inner loop lists every completion of a prime |
| Goldbach.WeakGoldbach | web_server/src/webapp/calculator/GoldbachCalculator.cpp:42-61 | Appends the flattened, lexicographically increasing list of all ordered prime triples, each once; overflow characterised |
| Goldbach.NeverBelow | web_server/src/webapp/calculator/GoldbachCalculator.cpp:51-52 | The `k < j` branch is never taken |
| Goldbach.ProcessNumber | web_server/src/webapp/calculator/GoldbachCalculator.cpp:10-25 | For an even number, whatever its sign, all pairs and for an odd one all triples that add up to its absolute value; on an empty vector the returned count is the number of sums |
| Goldbach.EnumerationUnique | web_server/src/webapp/calculator/GoldbachCalculator.cpp:10-61 | Any search that lists all solutions in this order gives this list |
| GoldbachBruteForce.SearchIsBruteForce | web_server/src/webapp/calculator/GoldbachCalculator.cpp:27-61 | A list is the enumeration of the pairs (triples) if and only if it is what the naive nested loops over all numbers find |
| Goldbach.GoldbachOverflowWitnesses | web_server/src/webapp/calculator/GoldbachCalculator.cpp:30-47 | 46349 squared plus 3 and three times the largest `int` are inputs on which the two searches overflow |
| Goldbach.CountIsCardinality | web_server/src/webapp/calculator/GoldbachCalculator.cpp:63-67 | The count is the cardinality of the solution set |
| Goldbach.SmallSumsNeverOverflow | web_server/src/webapp/calculator/GoldbachCalculator.cpp:27-61 | Below 46339 squared neither search overflows |
| BlockDistribution.BlocksCover | nbody/src/common/Util.cpp:85-94 | The blocks start at 0 and end at the amount of work |
| BlockDistribution.BlockSize | nbody/src/common/Util.cpp:85-94 | The first residue-many blocks are one larger than the others |
| BlockDistribution.BlocksBalanced | nbody/src/common/Util.cpp:85-94 | Sizes differ by at most one, larger blocks first |
| BlockDistribution.OneOwner | nbody/src/common/Util.cpp:85-94 | Every index belongs to exactly one rank |
| BlockDistribution.BlocksNonempty | nbody/src/common/Util.cpp:85-94 | Every rank has work if and only if there is at least as much work as ranks |
| Bodies.BlocksAreFlat | nbody/src/universe/Universe.cpp:81-94 | The blocks of all ranks put together are the bodies in their order |
| Bodies.BlocksHaveBodies | nbody/src/simulation/Simulation.cpp:117-123 | The check at the start is exactly what leaves no process without a body, which the unsigned bound in `aggregateOwnDistances` needs |
| Accelerations.GatheredIsSerial | nbody/src/simulation/Simulation.cpp:175-192 | The own block first and then the other ranks in turn is the serial sum over all other bodies |
| Accelerations.ReceivedIsOthers | nbody/src/universe/Universe.cpp:321-347 | The serialized bodies give the receiver exactly the pull of the active bodies of the sender |
| Universes.Universe.UpdateAccelerations | nbody/src/universe/Universe.cpp:280-319 | In any order of the threads every active body is reset and attracted by all other active local bodies, once each |
| Universes.Universe.UpdateFromReceived | nbody/src/universe/Universe.cpp:321-347 | In any order of the threads every active body adds the pull of the received bodies |
| Simulation.StateAccelerations | nbody/src/simulation/Simulation.cpp:175-192 | After the local pass and all rounds every active body of every process has the serial acceleration over the whole universe, with an order of its own for every parallel loop |
| Motion.TwoBodiesAttract | nbody/src/universe/Body.cpp:23-33 | After the local pass and all rounds on two bodies, wherever they live, each has the acceleration towards the other, given in coordinates |
| Gravity.PullAttracts | nbody/src/universe/Body.cpp:23-33 | The pull points to the other body, is parallel to the line between them, and its square is the square of mass times law, times the square of the distance |
| Gravity.InverseSquare | nbody/src/universe/Body.cpp:31-32 | With the inverse cube of the distance the strength is the mass over the squared distance |
| Gravity.ActionReaction | nbody/src/universe/Body.cpp:23-33 | The forces of two bodies on each other cancel |
| Gravity.ForcesVanish | nbody/src/universe/Universe.cpp:280-319 | All forces in the universe add up to nothing, whatever the law |
| Universes.Universe.UpdateVelocitiesAndPositions | nbody/src/universe/Universe.cpp:350-363 | Every active body moves exactly once, in any order of the threads |
| Motion.MovedIs | nbody/src/universe/Body.cpp:45-55 | In coordinates: the velocity first, and the position with the new velocity |
| Motion.MomentumIsKept | nbody/src/simulation/Simulation.cpp:175-198 | Accelerations and motion keep the momentum of the universe, and its centre of mass moves with it |
| Motion.MoveUniverse | nbody/src/simulation/Simulation.cpp:175-198 | This on any number of processes and under any schedule of the parallel loops |
| Simulation.ProcessCountDoesNotMatter | nbody/src/simulation/Simulation.cpp:175-192 | After two runs over the same bodies, on any two numbers of processes, an active body is the same in both |
| Simulation.TwoRuns | nbody/src/simulation/Simulation.cpp:175-192 | Two runs of the passes and rounds on the same bodies, on any two numbers of processes and under any two schedules, end with the same active bodies |
| Accelerations.RoundsCommute | nbody/src/simulation/Simulation.cpp:180-191 | What the rounds bring to a body does not depend on their order |
| Accelerations.AnyRoundOrderIsSerial | nbody/src/simulation/Simulation.cpp:175-192 | With the rounds in any order the sum is still the serial one |
| Distances.CollectedIsSerial | nbody/serial/nBody.py:187-196 | The union of what the processes collect is the multiset of the serial double loop: each pair once, with the same sign |
| Distances.PairsConcat | nbody/src/universe/Universe.cpp:401-443 | Pairs of two blocks are the pairs inside each and the pairs across |
| Distances.PairsHave | nbody/src/universe/Universe.cpp:401-423 | Every two bodies of positive mass contribute the earlier position minus the later one, in coordinates |
| Distances.PairsCount | nbody/src/universe/Universe.cpp:401-423 | There is exactly one distance for every two active bodies |
| Bodies.ActivePlace | nbody/src/universe/Body.cpp:73-76 | The active bodies are those of positive mass, in their order |
| Universes.Universe.AggregateOwnDistances | nbody/src/universe/Universe.cpp:401-423 | Adds the differences of all local pairs of active bodies, each once |
| Universes.Universe.AggregateDistances | nbody/src/universe/Universe.cpp:425-443 | Adds the differences from all active bodies of the sender to the own active bodies |
| Simulation.GetMyDistances | nbody/src/universe/Universe.cpp:365-389 | A process collects its own pairs and those with all lower ranks |
| Simulation.CollectDistances | nbody/src/universe/Universe.cpp:365-389 | All processes together collect the distances of the serial program |
| Universes.Universe.CollideBodies | nbody/src/universe/Universe.cpp:257-278 | Absorbs or deactivates as the masses and ranks say and keeps the active count |
| Universes.Universe.CheckCollisions | nbody/src/universe/Universe.cpp:225-255 | Every local body meets the first received body it touches, in any order of the threads, and `activeBodiesCount` stays the number of bodies with positive mass |
| Universes.RecordAt | nbody/src/universe/Body.cpp:152-157 | The receiver finds every active body of the sender at its offset |
| Simulation.CollisionRounds | nbody/src/simulation/Simulation.cpp:159-173 | All rounds on all processes compute one result, whatever the order of the threads in each round, with every active count right |
| Collisions.Meeting | nbody/src/universe/Universe.cpp:257-278 | The higher rank keeps its body exactly when it is not the lighter one, with the mass of both; the lower rank then gives its body up |
| Collisions.IsolatedCollision | nbody/src/simulation/Simulation.cpp:159-173 | Of a colliding pair on different ranks that no third body touches in the round in which it is sent, exactly one body is active after all rounds, and it is one of no smaller original mass |
| Collisions.LonePairCollision | nbody/src/simulation/Simulation.cpp:159-173 | The same from a condition on the bodies before the first round; all other bodies come out unchanged |
| Collisions.RadiusGrows | nbody/src/universe/Body.cpp:16-20 | A merged body has no smaller radius |
| Collisions.CollidedIs | nbody/src/universe/Universe.cpp:257-278 | Which of absorption and deactivation happens, by masses and ranks, and that a deactivated body keeps all but the sign of its mass |
| Collisions.TouchIsOverlap | nbody/src/universe/Body.cpp:57-66 | Two bodies touch when the distance of their centres is less than the sum of their radii |
| Collisions.MergerIs | nbody/src/universe/Body.cpp:78-97 | Masses and volumes are added; the new velocity is given by both velocities weighted with the absorbed mass |
| Collisions.MergedMomentum | nbody/src/universe/Body.cpp:78-84 | The comment in `mergeVelocities` announces that the momentum is conserved: it is if and only if the velocities are in the given proportion |
| Collisions.MomentumIsLost | nbody/src/universe/Body.cpp:78-84 | A body at rest that absorbs a moving one of equal mass loses a third of the momentum |

## Left out

- TCP set-up, HTTP header parsing, logging, signals and the HTML around the values: not part of this model.
- POSIX semaphores, `std::mutex`, `std::thread`, OpenMP and MPI themselves: modelled by their effects (counter, owner, interleaving, broadcast to all ranks, any order of a parallel loop).
- The threads of the line as objects: in the state machine they are stages of one state value; `Threads` and `LinkEnds` give the loops of Decomposer, ResponseAssembler, RequestServer, ResponseClient, Distributor, MasterServer and WorkerConnectionHandler over objects, without blocking and without other threads in between.
- Worker links are unbounded in the state machine: a socket buffer that is full and blocks the sender is not modelled.
- Clients that never close and connection time-outs: a client is a finite list of requests.
- Fairness of the scheduler: not needed, because every step makes the line lighter.
- A receive that fails instead of reporting the end of the stream, and a chunk that fills the whole receive buffer: the socket is read until the peer closes, by chunks of any smaller size.
- Text that is left in the output buffer of a socket by a send that returned zero: the socket is closed then.
- Dying masters, reconnecting workers, and the worker side of the password exchange.
- `Util::decodeURI`: the model starts from the decoded URI, the same for routing, parsing and the answer.
- A worker-connection maximum of zero, which the command line accepts: the queue of connections then has no room and no handler, and the first worker blocks the MasterServer for good. `MasterLine.Config.Valid` asks for at least one.
- In the state machine, a system call that takes nothing of a non-empty frame and reports zero, or takes only a part before an error (see above; `Sockets` and `LinkEnds` have both), and the signal that a write on a broken connection raises: the program does not handle it, so it would end the master.
- The minimum 64-bit integer, whose absolute value does not exist: integers are unbounded in the calculators.
- `factor <= sqrt(number)` in floating point: modelled as `factor * factor <= number`.
- Floating-point rounding in the n-body simulation, and with it the exact magnitudes.
- The local collision pass of one process (`Universe.cpp:202-223`), which the documentation does not support for bodies that meet several others.
- Collisions.IsolatedCollision: is about a pair that touches no third body; interactions of more bodies are excluded by the documentation.
- Total mass: a body of the lower rank that survives a collision gains nothing, so the mass of the other one is lost; the exact cases are in `Collisions.CollidedIs`.
- Means and deviations of distances and velocities, the exchange of body counts that ends the simulation, random universes, files, argument parsing, `Dispatcher.hpp`, the home and not-found pages: single-valued conversions and formulas without state, which neither the production line nor the agreement of the processes depends on.
