# GateServer: verified model

GateServer is a chat gateway. This project models the parts of it that it writes itself and
that are hard to get right, and proves what callers may rely on:

- **Redis connection pool** (`RedisPoolModel`, `RedisPoolProofs`, `RedisPoolTheorems`, `RedisPoolCalls`,
  `RedisPoolProgress`, `RedisPoolOwnership`, `RedisPool`): any number of clients take, wait, wake, return and close.
  No lost wake-up, FIFO hand-out, conservation and exclusivity, a shutdown that reaches every
  sleeping getter and settles in a bounded number of steps.
- **gRPC stub and channel pools** (`GrpcPoolModel`, `GrpcPoolProofs`, `GrpcPoolStop`, `GrpcPoolCalls`,
  `GrpcPoolOwnership`, `GrpcPool`): two pools under one stop flag. `stop()` notifies without the mutexes; the project proves the
  exact condition under which it still reaches every getter, and that otherwise a getter can be
  left asleep for good, in either pool and from every such state.
- **Asynchronous log** (`LogModel`, `LogProofs`, `LogFile`, `LogTheorems`, `LogCalls`, `LogPipeline`): producers, one
  worker, one stopper and direct callers of the file log. Exactly-once in-order delivery across
  the hand-over from worker to stopper, whole lines in the shared file, termination of `stop()`.
- **Query parser and percent encoder** (`UrlCodec`, `QueryParser`): the loops of the source
  against a splitter and a form decoder.
- **Scheduler, accept chain, connection lifecycle** (`RoundRobin`, `AcceptChain`, `Lifecycle`,
  `LifecycleAnswers`).
- **Redis leases** (`RedisLeases`, `RedisLeaseTheorems`): the two handlers that lease Redis
  connections, composed with the pool.

## How the concurrent parts are modelled

Each concurrent object has a state, a set of actions, a predicate `Enabled` and a function `Next`
that makes one step. A step is one access to shared data: taking a mutex, one read or write of an
atomic flag, one queue operation under a mutex, one notify. A condition-variable wait is four
steps: test the predicate under the mutex, unlock and start to sleep at once, be notified or wake
spuriously, take the mutex and test again. `CanRun` and `Run` range over all finite interleavings
from the constructor on, so a theorem about `Run` holds in every reachable state. Beside each model
stands a class with the source's own members whose methods are the steps, each proved equal to
`Next`; the object remembers its steps and stays reachable, so every theorem about reachable states
holds of it between two calls. A `front()` or `pop()` on an empty queue sets a `fault` that is proved never to be set.

Work under a mutex that touches only what the mutex protects may be one step: the drain loop of
`RedisPool::close` and the loops of `notify_all` are, and the class methods prove the loops.

## Findings

- `gRPCServerPool::stop` can leave a getter asleep for good: any getter that is between its
  predicate test and its sleep when its pool is notified, in either pool, whatever the pool holds and
  whatever else runs (`GrpcPoolStop.StopCanStrandGetter`). It can strand somebody exactly when that
  window is not empty at the notify (`GrpcPoolStop.StrandsIff`), and two clients reach the window in
  every pool (`GrpcPoolStop.WindowIsReachable`). `RedisPool::close` has no such window.
- `RedisPool::close` drains the queue, but a return that passed its closed test before can still
  push afterwards (`RedisPoolTheorems.DrainIsFinalUnlessLateReturn`); such a connection is never
  handed out again.
- In `/user_register` the branch for result -2 returns the connection and falls through to return
  it again, and it answers with two JSON documents. In `/submit_forget_passwd` a result outside
  -3, -2, -1 and 1 matches no branch, so the connection is not returned; includes/MySqlDao.h
  produces such results, for instance 1002 and 1006 on a failed query. That handler also runs off
  the end of a lambda with a return type there; the model lets it simply end.
- `/user_register` reads `varify_code` only after it has its connection (src/LogicalSystem.cpp:145).
  With a code stored, a request where that field is an object or an array makes `asString` throw, and
  the connection is never returned (`RedisLeaseTheorems.UnreadableCodeLoses`).
- `RedisLeaseTheorems.LeaseAccounting` counts all three, and `RedisLeaseTheorems.SharedIff` says
  exactly when two handlers can come to use one connection at once.
- `/user_register` answers success for every result of `RegUser` other than 0 and -1
  (`RedisLeases.UserRegister`), which includes the codes 1002 and 1006 of a failed query.
- The comment at src/HttpConnection.cpp:134 speaks of decoding; the code encodes. The two agree
  exactly on unreserved bytes (`UrlCodec.EncodingIsDecodingIff`).
- One exception in the accept handler ends the accept chain for good (`AcceptChain.ThrowEndsChain`).
- Until a request has been read no deadline runs (`Lifecycle.NoDeadlineBeforeRequest`).

## Model

| member | source | states |
|---|---|---|
| RedisPoolObject.RedisPool.constructor | src/RedisPool.cpp:15-20 | the fill loop queues exactly the connections that could be created, in order |
| RedisPoolObject.RedisPool.BeginGet | src/RedisPool.cpp:49-50 | a caller enters getConnection and wants the mutex |
| RedisPoolObject.RedisPool.BeginReturn | src/RedisPool.cpp:65 | a caller hands over a connection, or null, and keeps its others |
| RedisPoolObject.RedisPool.BeginClose | src/RedisPool.cpp:75 | a caller enters close, before the store |
| RedisPoolObject.RedisPool.Lock | src/RedisPool.cpp:50 | the mutex goes to one client when nobody has it; a woken getter tests again |
| RedisPoolObject.RedisPool.Unlock | src/RedisPool.cpp:57-63 | a call ends: the mutex is free and a getter leaves with what it took, or null |
| RedisPoolObject.RedisPool.Test | src/RedisPool.cpp:52-54 | the wait predicate: go on if a connection is free or the pool is closed |
| RedisPoolObject.RedisPool.Block | src/RedisPool.cpp:52-54 | unlocking and joining the waiters is one step |
| RedisPoolObject.RedisPool.SpuriousWake | src/RedisPool.cpp:52-54 | a waiter may leave the waiting set without a notify |
| RedisPoolObject.RedisPool.Check | src/RedisPool.cpp:56-58 | the second closed test decides between null and taking |
| RedisPoolObject.RedisPool.Take | src/RedisPool.cpp:60-62 | the front connection is taken and nothing else moves |
| RedisPoolObject.RedisPool.TestReturn | src/RedisPool.cpp:66-68 | null and late returns are dropped before the mutex is wanted |
| RedisPoolObject.RedisPool.Push | src/RedisPool.cpp:70-71 | the returned connection goes to the back |
| RedisPoolObject.RedisPool.NotifyOne | src/RedisPool.cpp:72 | one waiter, any, leaves the waiting set if there is one |
| RedisPoolObject.RedisPool.StoreClosed | src/RedisPool.cpp:76 | the flag is stored before the mutex is wanted |
| RedisPoolObject.RedisPool.Drain | src/RedisPool.cpp:79-81 | the loop removes every free connection in order |
| RedisPoolObject.RedisPool.NotifyAll | src/RedisPool.cpp:83 | every waiter leaves the waiting set, other clients stay |
| RedisPoolProofs.StepInv | src/RedisPool.cpp:49-84 | every step keeps mutual exclusion, the facts at each point, the history, the pending close and the wake-up balance |
| RedisPoolTheorems.FrontNeverEmpty | src/RedisPool.cpp:52-61 | front and pop never meet an empty queue, whenever the flag changes |
| RedisPoolTheorems.NoLostWakeup | src/RedisPool.cpp:49-73 | open pool with a sleeper: free connections never outnumber the clients about to take or signal one; with the mutex free, the notified ones, and one of them can go on |
| RedisPoolTheorems.FifoHistory | src/RedisPool.cpp:49-84 | created then pushed equals granted then drained then free, in every state |
| RedisPoolTheorems.ReuseOrder | src/RedisPool.cpp:60-72 | a returned connection is granted again after exactly as many grants as were queued ahead of it |
| RedisPoolTheorems.ClosedGetsNull | src/RedisPool.cpp:52-58 | after the store a getter not past both tests only ever gets null |
| RedisPoolTheorems.CloseWakesEveryone | src/RedisPool.cpp:75-84 | after notify_all nobody is asleep un-notified in any later state |
| RedisPoolTheorems.CloseSettles | src/RedisPool.cpp:49-84 | after the store every run without new calls is bounded and ends with every call finished, without spurious wake-ups |
| RedisPoolTheorems.DrainIsFinalUnlessLateReturn | src/RedisPool.cpp:65-84 | the drained queue can fill again if and only if a return is past its closed test at the drain |
| RedisPoolCalls.GetHandsOutTheGrant | src/RedisPool.cpp:49-63 | a get returns the connection that was taken off the front last, or null from a closed pool only |
| RedisPoolCalls.CloseEmptiesQueue | src/RedisPool.cpp:79-84 | in every reachable state a close at its notify or at its return has left the queue empty |
| RedisPoolCalls.CloseIsFinal | src/RedisPool.cpp:65-84 | if no return is past its closed test at the store, the queue is empty in every state after the notify |
| RedisPoolCalls.CloseDoesItsWork | src/RedisPool.cpp:75-84 | whoever is back from close leaves the flag set, everybody notified and nobody asleep, whatever ran in between |
| RedisPoolProgress.OpenSettles | src/RedisPool.cpp:49-73 | the open pool never stalls: without new calls every run is bounded and ends with all calls finished but those of sleeping getters, who sleep only if nothing is free |
| RedisPoolOwnership.Conservation | src/RedisPool.cpp:15-84 | honest clients: every connection is queued, with a client, drained or destroyed, and counted once |
| RedisPoolOwnership.Exclusivity | src/RedisPool.cpp:49-73 | honest clients: no connection is with two clients, or with one and in the queue |
| GrpcPoolObject.GrpcServerPool.constructor | src/gRPCMrg.cpp:4-22 | the fill loop makes equally many stubs and channels, or one channel more when an exception ends it |
| GrpcPoolObject.GrpcServerPool.BeginGet | src/gRPCMrg.cpp:24-26 | a caller enters get_stub or get_Channel |
| GrpcPoolObject.GrpcServerPool.BeginRelease | src/gRPCMrg.cpp:70-72 | a caller enters release_stub or release_Channel |
| GrpcPoolObject.GrpcServerPool.BeginStop | src/gRPCMrg.cpp:98 | a caller enters stop |
| GrpcPoolObject.GrpcServerPool.Lock | src/gRPCMrg.cpp:26 | each pool has its own mutex |
| GrpcPoolObject.GrpcServerPool.Unlock | src/gRPCMrg.cpp:35-36 | the call ends with the item taken, or null |
| GrpcPoolObject.GrpcServerPool.Enter | src/gRPCMrg.cpp:27 | the flag test before the wait: a stopped pool answers null at once |
| GrpcPoolObject.GrpcServerPool.Test | src/gRPCMrg.cpp:29-30 | the wait predicate of one pool |
| GrpcPoolObject.GrpcServerPool.Block | src/gRPCMrg.cpp:29-30 | unlocking and joining the waiters of one pool is one step |
| GrpcPoolObject.GrpcServerPool.SpuriousWake | src/gRPCMrg.cpp:29-30 | a waiter may leave without a notify |
| GrpcPoolObject.GrpcServerPool.Check | src/gRPCMrg.cpp:31 | the flag test after the wait |
| GrpcPoolObject.GrpcServerPool.Take | src/gRPCMrg.cpp:33-36 | the front item is taken |
| GrpcPoolObject.GrpcServerPool.TestRelease | src/gRPCMrg.cpp:73-81 | the flag test of a release is under the mutex; a stopped release does nothing |
| GrpcPoolObject.GrpcServerPool.Push | src/gRPCMrg.cpp:75 | the item goes to the back of its pool |
| GrpcPoolObject.GrpcServerPool.NotifyOne | src/gRPCMrg.cpp:76 | one waiter of that pool leaves the waiting set |
| GrpcPoolObject.GrpcServerPool.StoreStop | src/gRPCMrg.cpp:100 | the flag is stored, no mutex involved |
| GrpcPoolObject.GrpcServerPool.NotifyChannels | src/gRPCMrg.cpp:101 | the channel waiters are notified first, without the mutex |
| GrpcPoolObject.GrpcServerPool.NotifyStubs | src/gRPCMrg.cpp:102 | then the stub waiters |
| GrpcPoolProofs.FrontNeverEmpty | src/gRPCMrg.cpp:27-36 | front and pop never meet an empty queue in either pool |
| GrpcPoolProofs.FifoHistory | src/gRPCMrg.cpp:24-103 | created then pushed equals granted then free, in both pools, also after stop |
| GrpcPoolProofs.NoLostWakeup | src/gRPCMrg.cpp:24-96 | before stop the wake-up balance holds in both pools |
| GrpcPoolStop.StopWakesEveryoneIff | src/gRPCMrg.cpp:98-103 | nobody ever sleeps on a pool after its notify_all if and only if nobody is between predicate test and sleep there |
| GrpcPoolStop.StopCanStrandGetter | src/gRPCMrg.cpp:98-103 | whoever is between predicate test and sleep at the notify of its pool can be left asleep for good: all stops have returned and no continuation wakes it, short of a spurious wake-up or another stop |
| GrpcPoolStop.StrandsIff | src/gRPCMrg.cpp:98-103 | after its notify_all stop can leave a getter of that pool beyond reach if and only if somebody is in that window at the notify |
| GrpcPoolStop.WindowIsReachable | src/gRPCMrg.cpp:24-45 | in every pool of either kind two clients reach a notify with a getter in the window |
| GrpcPoolStop.StrandedForever | src/gRPCMrg.cpp:70-82 | a stranded getter stays asleep because a stopped release neither pushes nor notifies |
| GrpcPoolStop.StoppedGetsNull | src/gRPCMrg.cpp:24-45 | after the store a getter not past both tests never leaves with an item |
| GrpcPoolStop.StopSettles | src/gRPCMrg.cpp:24-103 | after the store every run without new calls is bounded and ends with every call finished but those of sleeping getters; with nobody asleep or in the window, with every call finished |
| GrpcPoolCalls.GetHandsOutTheGrant | src/gRPCMrg.cpp:24-45 | a get returns the item that was taken off the front of its own queue last, or null from a stopped pool only |
| GrpcPoolCalls.StoppedNeverWaits | src/gRPCMrg.cpp:27-45 | whoever is not inside the wait when the flag goes up never waits again |
| GrpcPoolCalls.StopWakesSleepers | src/gRPCMrg.cpp:98-103 | a getter of either pool that slept when stop was called and has not moved is awake, and the flag set, once stop is back |
| GrpcPoolOwnership.Conservation | src/gRPCMrg.cpp:4-96 | honest clients: every stub and channel is queued, in a call, with a client or destroyed by a release after stop, and counted once; nothing is destroyed before stop |
| GrpcPoolOwnership.Exclusivity | src/gRPCMrg.cpp:24-96 | honest clients: no stub or channel is with two clients, twice with one, or held and free |
| LogPipelineObject.LogPipeline.constructor | src/LogSystem.cpp:33-37 | the state just after run: flag set, worker at its loop |
| LogPipelineObject.LogPipeline.Pop | src/LogSystem.cpp:20-25 | the front message is removed and returned |
| LogPipelineObject.LogPipeline.BeginPush | src/LogSystem.cpp:13-15 | a producer enters push |
| LogPipelineObject.LogPipeline.ProducerStep | src/LogSystem.cpp:13-18 | lock, append, notify, unlock |
| LogPipelineObject.LogPipeline.WakeWorker | src/LogSystem.cpp:17 | a notify wakes the worker if it sleeps |
| LogPipelineObject.LogPipeline.SpuriousWake | src/LogSystem.cpp:42 | the worker may wake without a notify |
| LogPipelineObject.LogPipeline.WorkerStep | src/LogSystem.cpp:37-50 | the nested loops of the worker, which pops under the mutex and writes outside it |
| LogPipelineObject.LogPipeline.BeginStop | src/LogSystem.cpp:53 | the stopper enters stop |
| LogPipelineObject.LogPipeline.StopStep | src/LogSystem.cpp:53-73 | store, notify under the mutex, join, drain |
| LogPipelineObject.LogPipeline.BeginLog | includes/LogSystem.h:35 | another thread calls the file log directly |
| LogPipelineObject.LogPipeline.OpenLog | includes/LogSystem.h:35-40 | one caller at a time is inside the file log |
| LogPipelineObject.LogPipeline.Insert | includes/LogSystem.h:42 | a line is written one insertion at a time |
| LogPipelineObject.LogPipeline.LeaveLog | includes/LogSystem.h:43-45 | the file log is left and its mutex free |
| LogProofs.RunInv | src/LogSystem.cpp:13-73 | every run keeps both mutexes, the phases of worker and stopper, delivery, the file text and the pending notify |
| LogTheorems.ExactlyOnceInOrder | src/LogSystem.cpp:13-73 | pushed equals written then at most one message in flight then queued; worker and stopper never consume together; no pop on an empty queue |
| LogTheorems.ConsumersNeverStarve | src/LogSystem.cpp:20-25 | a consumer at pop always finds a message |
| LogTheorems.FileIsWholeLines | includes/LogSystem.h:35-45 | the file is whole lines then at most one unfinished; queued lines in push order and direct lines in lock order |
| LogFile.WholeLine | includes/LogSystem.h:42 | the insertions of one call add up to [time] [LEVEL] message and a line break, with the level spelled out |
| LogTheorems.FileAtRest | includes/LogSystem.h:35-45 | once all is at rest the file is exactly the lines of the direct calls and of the pushed messages but those still queued |
| LogCalls.CallsCarriedOut | src/LogSystem.cpp:13-18 | for every message, the pushes and direct calls made are those carried out and those under way |
| LogCalls.StampsInOrder | includes/LogSystem.h:39-42 | the lines bear, in order, the times that the calls of log read |
| LogCalls.StopReturns | src/LogSystem.cpp:53-73 | from a call of stop on, a run that cannot go on has stop returned, the worker joined and the flag down |
| LogTheorems.WorkerNeverMissesWork | src/LogSystem.cpp:13-48 | a sleeping worker with nobody in the queue's mutex has nothing to do |
| LogTheorems.RunningLogCatchesUp | src/LogSystem.cpp:13-50 | while running and without new calls every run is bounded and ends with everything pushed in the file |
| LogTheorems.FinalTestFindsAllWritten | src/LogSystem.cpp:67-72 | at the stopper's final empty test all that was pushed is written |
| LogTheorems.StopTerminatesAndLosesNothing | src/LogSystem.cpp:33-73 | after the store every run without new calls is bounded, ends with worker joined and stop returned, and has written everything |
| LogTheorems.LatePushesStayQueued | src/LogSystem.cpp:65-73 | exactly the messages pushed after the final test stay unwritten |
| UrlCodec.UrlEncode | includes/HttpConnection.h:14-38 | the index loop computes the encoding |
| UrlCodec.CodesAre | includes/HttpConnection.h:9-35 | the code of every byte against a list of the 66 unreserved bytes and the digits 0 to F: itself, a plus sign for a space, or its triplet |
| UrlCodec.DecodeEncode | includes/HttpConnection.h:14-38 | a form decoder undoes the encoding of every byte string |
| UrlCodec.EncodeInjective | includes/HttpConnection.h:14-38 | different strings have different encodings |
| UrlCodec.CodesPrefixFree | includes/HttpConnection.h:21-35 | no byte's code begins another's |
| UrlCodec.EncodeImage | includes/HttpConnection.h:14-38 | the outputs are exactly the canonical texts: unreserved bytes, plus signs, upper-case triplets where needed |
| UrlCodec.EncodeLength | includes/HttpConnection.h:14-38 | the output is longer by two for each escaped byte |
| UrlCodec.EncodeFixed | includes/HttpConnection.h:20-26 | text is unchanged if and only if all of it is unreserved |
| UrlCodec.EncodingIsDecodingIff | src/HttpConnection.cpp:134-135 | encoding equals the decoding that the comment names if and only if all bytes are unreserved |
| QueryParser.HttpConnection.PreParseGetParams | src/HttpConnection.cpp:111-151 | the URL is the part before the first question mark and the erase loop leaves the fold over the pieces of what follows it |
| QueryParser.HttpConnection.StorePiece | src/HttpConnection.cpp:130-137 | a piece is cut at its first equals sign and stored encoded, or skipped |
| QueryParser.StoreLast | src/HttpConnection.cpp:140-150 | the special case of the last piece adds nothing to the uniform split |
| QueryParser.PairOfIs | src/HttpConnection.cpp:131-136 | a piece is a pair exactly when it has an equals sign, and is cut at the first |
| QueryParser.ParsedAt | src/HttpConnection.cpp:114-124 | a target is cut at its first question mark, which belongs to neither part |
| QueryParser.SplitJoins | src/HttpConnection.cpp:128-139 | the pieces are free of separators and joined give the query |
| QueryParser.JoinSplits | src/HttpConnection.cpp:128-139 | no other list of separator-free pieces does |
| QueryParser.NothingMerged | src/HttpConnection.cpp:123-150 | one entry for each distinct raw key, the last value of each, recovered by decoding |
| QueryParser.EncodedAll | src/HttpConnection.cpp:123-150 | from any prior map the parameters are the raw fold with every key and value encoded |
| QueryParser.PrintThenParse | src/HttpConnection.cpp:123-150 | printing pairs and parsing them gives exactly their map |
| QueryParser.PrintThenParseTarget | src/HttpConnection.cpp:111-151 | a target printed from a URL and pairs is taken apart into that URL and their map |
| RoundRobin.AsioIOServicePool.constructor | src/AsioIOServicePool.cpp:5-20 | one work guard and one thread for each service |
| RoundRobin.AsioIOServicePool.GetIOService | src/AsioIOServicePool.cpp:27-33 | the service at the counter, which is the number of earlier calls mod n; the counter advances and wraps |
| RoundRobin.AsioIOServicePool.GetMany | src/AsioIOServicePool.cpp:27-33 | of k calls in a row on the object, call j gets service (earlier calls + j) mod n |
| RoundRobin.AsioIOServicePool.LoadsOf | src/AsioIOServicePool.cpp:27-33 | on the object, after k calls service i has been returned (k + n - 1 - i) / n times |
| RoundRobin.CallIndex | src/AsioIOServicePool.cpp:27-33 | call k gets service k mod n |
| RoundRobin.ExactLoad | src/AsioIOServicePool.cpp:27-33 | after k calls service i was chosen (k + n - 1 - i) / n times |
| RoundRobin.LoadsBalanced | src/AsioIOServicePool.cpp:27-33 | loads differ by at most one |
| RoundRobin.WindowIsPermutation | src/AsioIOServicePool.cpp:27-33 | n calls in a row use every service once |
| AcceptChain.Server.constructor | src/Server.cpp:14-16 | the first call of strat, from main |
| AcceptChain.Server.Complete | src/Server.cpp:20 | an accept finishes with or without an error |
| AcceptChain.Server.Enter | src/Server.cpp:22-27 | an error goes straight to strat, success starts the connection |
| AcceptChain.Server.Started | src/Server.cpp:27-29 | after the start strat is called again |
| AcceptChain.Server.Throw | src/Server.cpp:31-33 | an exception ends the handler without a new accept |
| AcceptChain.Server.ReadCounter | src/AsioIOServicePool.cpp:28 | the counter is read |
| AcceptChain.Server.BumpCounter | src/AsioIOServicePool.cpp:28 | and written back incremented |
| AcceptChain.Server.WrapCounter | src/AsioIOServicePool.cpp:29-31 | and wrapped at the number of services |
| AcceptChain.Server.IssueAccept | src/Server.cpp:17-20 | the accept is outstanding before the caller returns |
| AcceptChain.Server.Return | src/Server.cpp:34-35 | the caller returns |
| AcceptChain.ChainIsSequential | src/Server.cpp:14-35 | at most one caller before its async_accept, counter used by one at a time and in range, accept k on service k mod n, alive as long as nothing threw |
| AcceptChain.SuccessesStart | src/Server.cpp:20-29 | an accept that succeeds starts its connection unless the start throws, one that fails starts none |
| AcceptChain.ThrowEndsChain | src/Server.cpp:31-33 | after an exception no accept is ever issued again |
| Lifecycle.HttpConnection.constructor | src/HttpConnection.cpp:22-27 | the connection after start has issued the read |
| Lifecycle.HttpConnection.Finishes | src/HttpConnection.cpp:26-27 | operations finish in the background, also while a handler runs |
| Lifecycle.HttpConnection.Dispatch | src/HttpConnection.cpp:26-44 | handlers run one at a time |
| Lifecycle.HttpConnection.CallLogic | src/HttpConnection.cpp:55-56 | the request handler writes into the body and may set the content type, does not know the URL, or throws |
| Lifecycle.HttpConnection.HandleReq | src/HttpConnection.cpp:47-83 | the statements of handlereq, with both method tests |
| Lifecycle.HttpConnection.SetStatus | src/HttpConnection.cpp:56-65 | the status lines of both outcomes |
| Lifecycle.HttpConnection.WriteResponse | src/HttpConnection.cpp:85-91 | the length is set and the write started |
| Lifecycle.HttpConnection.CheckDeadline | src/HttpConnection.cpp:97-101 | the deadline wait is armed after handlereq |
| Lifecycle.HttpConnection.FinishHandler | src/HttpConnection.cpp:91-108 | the write handler shuts down and cancels; the timer handler closes unless cancelled |
| Lifecycle.RunInv | src/HttpConnection.cpp:22-109 | every order of events keeps the write, handler and timer invariants |
| Lifecycle.WrittenOnceAndUntouched | src/HttpConnection.cpp:47-95 | at most one write, of a complete response that no later event changes, with the right status |
| LifecycleAnswers.AnswerIsTheHandlers | src/HttpConnection.cpp:47-91 | the write is given what the one call of the request handler put into the body, with its length, under the content type it set; or 404 with a fixed text |
| LifecycleAnswers.EventsDecide | src/HttpConnection.cpp:26-109 | a request is handled exactly when its read ended without error; the socket is closed exactly when the deadline expired before being cancelled |
| Lifecycle.ArmedBeforeCancelled | src/HttpConnection.cpp:91-109 | the deadline is armed whenever the write handler cancels it |
| Lifecycle.NoDeadlineBeforeRequest | src/HttpConnection.cpp:22-45 | until the request is read only the read can happen |
| Lifecycle.EveryRunSettles | src/HttpConnection.cpp:22-109 | at most 23 steps in any order of events; then nothing is pending and a handled run has written exactly once for GET and POST and shut down or closed the socket |
| RedisLeases.UserRegister | src/LogicalSystem.cpp:108-196 | for every request and every answer of the back ends: whether a connection is taken, how often it goes back, which error codes are written in order, and when an exception ends the handler |
| RedisLeases.SubmitForgetPasswd | src/LogicalSystem.cpp:373-467 | the same for the password change, with the results that no branch covers |
| RedisLeases.RunAllInv | src/LogicalSystem.cpp:133-196 | every interleaving keeps handler and pool client at the same point, and the account of each connection |
| RedisLeaseTheorems.NoNullConnection | src/LogicalSystem.cpp:133-135 | in an open pool no handler dereferences a null connection |
| RedisLeaseTheorems.DecidesItsRequest | src/LogicalSystem.cpp:133-196 | the connection in a handler's hands was taken for the request it decides |
| RedisLeaseTheorems.LeaseAccounting | src/LogicalSystem.cpp:133-196 | at quiescence free equals created plus -2 runs minus the runs that lose their connection, per connection and in total |
| RedisLeaseTheorems.ExclusiveUnlessDoubled | src/LogicalSystem.cpp:394-466 | a connection never returned twice is with one handler at most |
| RedisLeaseTheorems.NoDuplicatesIff | src/LogicalSystem.cpp:175-196 | no connection is queued twice if and only if none was doubled more often than leaked; without leaks, if and only if no run met -2 |
| RedisLeaseTheorems.QueuedTwiceIsShared | src/RedisPool.cpp:60-72 | a connection queued twice, however far apart, comes to be used by two handlers at once |
| RedisLeaseTheorems.SharedIff | src/LogicalSystem.cpp:133-196 | at quiescence two handlers can come to use one connection without another -2 run if and only if there are two handlers and some connection was doubled more often than lost; without losses, if and only if a run met -2 |
| RedisLeaseTheorems.DoubleReturnIsShared | src/LogicalSystem.cpp:175-196 | from every pool with a connection and two handlers one -2 run leads there |
| RedisLeaseTheorems.UnreadableCodeLoses | src/LogicalSystem.cpp:145 | a registration whose code is an object or an array takes a connection away from the pool for good |

## Left out

- Sockets, timers, JSON, Redis, MySQL and gRPC calls: opaque identities or arbitrary results.
- Memory orders: atomics are sequentially consistent; a mutex or condition variable behaves as the C++ standard says.
- Failures of the log file to open, what the clock says (a time stamp is an arbitrary text), console output.
- More than one call of `LogQueue::run` or `LogQueue::stop`.
- Exceptions from the Redis and MySQL back ends inside the lease handlers, and a missing stored code: the source dereferences or loses the connection there. Exceptions from reading the request are modelled.
- A closed pool under the lease handlers: the source dereferences null there.
- The text of the JSON answers beyond their error codes, and whether they are written before or after the return.
- A failing `shutdown` on the socket: the source ignores its error, and the model counts it as done.
- A handler registered in `LogicalSystem` other than the two that lease connections; for the lifecycle it is an arbitrary text or an exception.
- Asking a service pool of size zero for a service: the source would index an empty vector there.
- `AsioIOServicePool::Stop`, `ConfiMgr`, `singleton`, `main`, route registration, the generated protobuf and gRPC code.
- The MySQL pool and the other Redis pools in includes/RedisConPool.h and includes/VarfiyGrpcClient.h: variants of the same pattern that are not part of this model.
