# Ordered send queue of the fantasy-nfl game server, in Dafny

This project models the per-connection send pipeline of the game server.
The model has three parts: the task combinators of
`Infrastructure/TaskAsyncHelper.cs` (module `Tasks`), the bounded, drainable
`TaskQueue` of `Infrastructure/TaskQueue.cs` (module `Queue`), and the send
gate of `Networking/WebSocketHandler.cs` (module `Sockets`).
It proves the properties of each part.

How the model is built:

- A task is a value with a status: `Pending`, `RanToCompletion`,
  `Faulted(errors)` or `Canceled`.
- A callback (a successor, a cleanup action, a queued function or a
  transport write) is given by what it does when called, as a value. It
  either throws at once, or returns a task. If that task is still pending,
  the value also says which status it will reach (`Invocation`).
- Every combinator returns its task together with how many times it called
  its callback.
- The completion of a pending task is an explicit later step. For the
  combinators this is `ThenCompleted` and `FinallyCompleted`, and the
  continuation methods that fill a write-once `CompletionSource`. For the
  queue it is `CompleteInitial` and `CompleteRunning`; each runs the
  continuations that become ready, in chain order.
- Each `lock` body is one atomic method.

The queue keeps the chain of admitted operations in `ops`. Each entry holds
the operation's function, its stage (waiting, running, ran, threw, skipped)
and the task `Then` returned for it. This is the continuation graph .NET
keeps for those tasks.

In these terms the model proves:

- operations run one at a time and in admission order;
- a faulted or canceled link poisons every later operation;
- size accounting counts exactly the operations not yet dequeued;
- the handler's own writes can never poison its queue.

Some consequences of the code as written that the model makes explicit:

- `_size` is not given back for an operation that is skipped behind a
  faulted or canceled task, nor for one whose function throws at once. The
  reason is that `Dequeue` is attached only through the `Finally` of
  `InvokeNext`, and neither kind of operation reaches it
  (TaskQueue.cs:59, :81). `PoisonKeepsSize` and `OutstandingZeroIffAllRan`
  state this, as do the `Thrown`/`Skipped` stages.
- A cleanup passed to `Finally` that throws replaces the task's outcome with
  its own exception (TaskAsyncHelper.cs:110-113, 147-150). This is stated by
  `FinallyCleanupThrowsReplacesOutcome`.
- `_drained` is never assigned (TaskQueue.cs:10), so `IsDrained` stays
  false. The constructors ensure `!IsDrained()` and every method keeps
  `drained` as it was.

## Model

| member | source | states |
|---|---|---|
| `Tasks.Empty` | fantasy-nfl-game-server/Infrastructure/TaskAsyncHelper.cs:7-14 | Empty has already run to completion |
| `Tasks.FromResult` | fantasy-nfl-game-server/Infrastructure/TaskAsyncHelper.cs:62-67 | the task is completed, not failed, and carries the value |
| `Tasks.UnwrappedErrors` | fantasy-nfl-game-server/Infrastructure/TaskAsyncHelper.cs:80-91 | an AggregateException gives its inner exceptions; any other exception is stored alone |
| `Tasks.CompletionSource.TrySetUnwrappedException` | fantasy-nfl-game-server/Infrastructure/TaskAsyncHelper.cs:80-91 | a pending source becomes faulted with the unwrapped errors; a source already set is left unchanged and false is returned |
| `Tasks.FromError` | fantasy-nfl-game-server/Infrastructure/TaskAsyncHelper.cs:69-78 | the task is already faulted, with the exception unwrapped one level |
| `Tasks.UnwrapFlattensOneLevel` | fantasy-nfl-game-server/Infrastructure/TaskAsyncHelper.cs:80-91 | exactly one level is flattened: an aggregate nested in an aggregate stays an aggregate |
| `Tasks.FromMethod` | fantasy-nfl-game-server/Infrastructure/TaskAsyncHelper.cs:37-47 | gives the task the function returned; a synchronous throw becomes a faulted task carrying that exception |
| `Tasks.FromAction` | fantasy-nfl-game-server/Infrastructure/TaskAsyncHelper.cs:49-60 | gives a completed task, which is faulted exactly when the action threw, and then with its exception |
| `Tasks.Then` | fantasy-nfl-game-server/Infrastructure/TaskAsyncHelper.cs:19-35 | a failed or canceled predecessor is returned unchanged; a completed one calls the successor exactly once, inline, and gives its task; a pending one defers and calls nothing |
| `Tasks.ThenIgnoresSuccessorUnlessCompleted` | fantasy-nfl-game-server/Infrastructure/TaskAsyncHelper.cs:21-32 | unless the predecessor ran to completion, the result of Then does not depend on the successor, and the successor is not called |
| `Tasks.RunTask` | fantasy-nfl-game-server/Infrastructure/TaskAsyncHelper.cs:165-194 | the deferred continuation: the errors of a faulted predecessor are passed on, a canceled predecessor gives a canceled task, and the successor runs only on success |
| `Tasks.RunTaskContinuation` | fantasy-nfl-game-server/Infrastructure/TaskAsyncHelper.cs:167-194 | the continuation body fills the completion source exactly as RunTask describes, calling the successor that many times |
| `Tasks.FastUnwrap` | fantasy-nfl-game-server/Infrastructure/TaskAsyncHelper.cs:323-333 | a completed outer task gives its inner task; otherwise the proxy has the outer task's status and errors |
| `Tasks.ThenCompleted` | fantasy-nfl-game-server/Infrastructure/TaskAsyncHelper.cs:157-194 | once the pending predecessor completes, the successor is called exactly when the predecessor succeeded, and a failed predecessor gives a failed result |
| `Tasks.ThenCompletedAgreesWithThen` | fantasy-nfl-game-server/Infrastructure/TaskAsyncHelper.cs:19-35 | the deferred path gives the same task and the same number of successor calls as the inline path would have, for every terminal predecessor |
| `Tasks.ThenCompletedOutcome` | fantasy-nfl-game-server/Infrastructure/TaskAsyncHelper.cs:167-194 | deferred Then: faulted gives faulted with the same unwrapped errors, canceled gives canceled, success gives the successor's task (unwrapped) |
| `Tasks.RunTaskSynchronously` | fantasy-nfl-game-server/Infrastructure/TaskAsyncHelper.cs:116-155 | the cleanup is called at most once and the result is completed |
| `Tasks.RunTaskSynchronouslyContinuation` | fantasy-nfl-game-server/Infrastructure/TaskAsyncHelper.cs:119-152 | the continuation body fills the completion source exactly as RunTaskSynchronously describes; a throwing cleanup lands in the catch block |
| `Tasks.RunTaskSynchronouslyOnlyOnSuccess` | fantasy-nfl-game-server/Infrastructure/TaskAsyncHelper.cs:123-140 | with onlyOnSuccess, the action runs only after success, and a failed task passes through unchanged |
| `Tasks.Finally` | fantasy-nfl-game-server/Infrastructure/TaskAsyncHelper.cs:93-114 | calls the cleanup once for a completed task and not yet for a pending one; the result is pending exactly when the task is |
| `Tasks.FinallyCompleted` | fantasy-nfl-game-server/Infrastructure/TaskAsyncHelper.cs:107-107 | once the pending task completes, the cleanup is called exactly once (onlyOnSuccess is false) and the result is completed |
| `Tasks.FinallyCallsCleanupOnce` | fantasy-nfl-game-server/Infrastructure/TaskAsyncHelper.cs:97-107 | the cleanup runs exactly once on every terminal status, inline or deferred |
| `Tasks.FinallyPreservesOutcome` | fantasy-nfl-game-server/Infrastructure/TaskAsyncHelper.cs:97-145 | a cleanup that does not throw leaves the outcome as it was: same errors, canceled, or completed, inline and deferred |
| `Tasks.FinallyCleanupThrowsReplacesOutcome` | fantasy-nfl-game-server/Infrastructure/TaskAsyncHelper.cs:110-150 | a cleanup that throws makes the result faulted with the cleanup's exception, inline and deferred |
| `Queue.InvokeNext` | fantasy-nfl-game-server/Infrastructure/TaskQueue.cs:79-82 | behaves for the chain exactly as the function does; Dequeue runs at once exactly when the function returned a completed task |
| `Queue.PendingLinkBlocksRest` | fantasy-nfl-game-server/Infrastructure/TaskQueue.cs:59-61 | behind a pending link every later operation is still waiting, with its function not called |
| `Queue.AtMostOneRunning` | fantasy-nfl-game-server/Infrastructure/TaskQueue.cs:59-61 | at most one operation's task is in flight at any time |
| `Queue.InvokedInOrder` | fantasy-nfl-game-server/Infrastructure/TaskQueue.cs:59-61 | once an operation has left the waiting stage, every operation admitted before it is finished |
| `Queue.PoisonPropagates` | fantasy-nfl-game-server/Infrastructure/TaskQueue.cs:59-61 | behind a faulted or canceled link every later operation is skipped and carries that same task |
| `Queue.OutstandingZeroIffAllRan` | fantasy-nfl-game-server/Infrastructure/TaskQueue.cs:44-82 | the size count is zero exactly when every admitted operation has finished and been dequeued |
| `Queue.PoisonKeepsSize` | fantasy-nfl-game-server/Infrastructure/TaskQueue.cs:46-82 | behind a failed link, every later operation keeps its size increment |
| `Queue.NoPoisonFromSafeFunctions` | fantasy-nfl-game-server/Infrastructure/TaskQueue.cs:59-61 | if the initial task is not failed and no function's task can fail, no link is ever faulted or canceled |
| `Queue.TaskQueue.constructor` | fantasy-nfl-game-server/Infrastructure/TaskQueue.cs:14-15 | starts from Empty, with no bound, no operations, size 0, no counter calls yet and not drained |
| `Queue.TaskQueue.FromTask` | fantasy-nfl-game-server/Infrastructure/TaskQueue.cs:16-19 | starts from the given task, with no bound, size 0, no counter calls yet and not drained |
| `Queue.TaskQueue.Bounded` | fantasy-nfl-game-server/Infrastructure/TaskQueue.cs:20-24 | starts from the given task, with the bound set, size 0, no counter calls yet and not drained |
| `Queue.TaskQueue.IsDrained` | fantasy-nfl-game-server/Infrastructure/TaskQueue.cs:27-33 | reports the drained flag |
| `Queue.TaskQueue.SetQueueSizeCounter` | fantasy-nfl-game-server/Infrastructure/TaskQueue.cs:26-26 | sets or clears the counter and changes nothing else |
| `Queue.TaskQueue.Dequeue` | fantasy-nfl-game-server/Infrastructure/TaskQueue.cs:65-78 | a bounded queue loses 1 of size and calls counter.Decrement if a counter is set; an unbounded one touches neither |
| `Queue.TaskQueue.Enqueue` | fantasy-nfl-game-server/Infrastructure/TaskQueue.cs:35-64 | drained: returns the last task and changes nothing; full: returns null and changes nothing; admitted: increments once (with counter.Increment) and chains the operation with Then, whose result becomes the last task; keeps every invariant |
| `Queue.TaskQueue.Chain` | fantasy-nfl-game-server/Infrastructure/TaskQueue.cs:59-62 | appends the operation in the stage Then decides, runs Dequeue if it finished at once, and makes the result the last task |
| `Queue.TaskQueue.CompleteInitial` | fantasy-nfl-game-server/Infrastructure/TaskQueue.cs:16-19 | the initial task completes; the waiting operations run in order, finished operations stay as they were, every Dequeue they run calls counter.Decrement on a bounded queue with a counter, and every invariant holds |
| `Queue.TaskQueue.CompleteRunning` | fantasy-nfl-game-server/Infrastructure/TaskQueue.cs:79-82 | the running operation's task completes: its Finally runs Dequeue once (with counter.Decrement on a bounded queue with a counter, as for every later Dequeue), its link takes that outcome, the operations behind it run in order, and every invariant holds |
| `Queue.TaskQueue.Resume` | fantasy-nfl-game-server/Infrastructure/TaskQueue.cs:59-59 | runs the waiting continuations in order until one stays pending, with one counter.Decrement per Dequeue on a bounded queue with a counter, and restores every invariant |
| `Queue.TaskQueue.RunContinuation` | fantasy-nfl-game-server/Infrastructure/TaskQueue.cs:59-59 | one deferred Then continuation: the operation takes the stage the completed predecessor decides, with the size bookkeeping kept; Dequeue runs exactly when it finished, and calls counter.Decrement on a bounded queue with a counter |
| `Sockets.GetWebSocketState` | fantasy-nfl-game-server/Networking/WebSocketHandler.cs:64-74 | a disposed socket reads as Closed; otherwise its own state |
| `Sockets.SendContext` | fantasy-nfl-game-server/Networking/WebSocketHandler.cs:79-92 | one queued write: its bytes, message type and end-of-message flag |
| `Sockets.SendAction` | fantasy-nfl-game-server/Networking/WebSocketHandler.cs:44-62 | the queued action never throws and its task never fails; when the socket is no longer open it writes nothing; it is pending only while the write is |
| `Sockets.WebSocketHandler.NeverPoisoned` | fantasy-nfl-game-server/Networking/WebSocketHandler.cs:53-61 | the handler's queue never has a faulted or canceled last task, and never skips an operation |
| `Sockets.WebSocketHandler.constructor` | fantasy-nfl-game-server/Networking/WebSocketHandler.cs:13-18 | the send queue is a fresh, unbounded default queue |
| `Sockets.WebSocketHandler.Send` | fantasy-nfl-game-server/Networking/WebSocketHandler.cs:25-29 | a null message is rejected with ArgumentNullException before anything is encoded or queued; otherwise it is sent as a final text frame |
| `Sockets.WebSocketHandler.SendText` | fantasy-nfl-game-server/Networking/WebSocketHandler.cs:30-34 | encodes, then sends with message type Text and endOfMessage true |
| `Sockets.WebSocketHandler.SendAsync` | fantasy-nfl-game-server/Networking/WebSocketHandler.cs:35-63 | not open (a disposed socket included): returns Empty and leaves the queue alone; open: the write is queued, never rejected, and the returned task is not failed |
| `Sockets.WebSocketHandler.WriteCompleted` | fantasy-nfl-game-server/Networking/WebSocketHandler.cs:53-61 | a pending write that ends in any way completes its operation successfully, and the queue stays unpoisoned |

`Queue.BoundedQueueScenario` walks through a bounded example: with a bound
of 2 and a size counter set, A and B are admitted and C is rejected; after A
completes the size is 1, the counter has seen one Decrement, and D is admitted.

## Left out

- Culture preservation (`ContinueWithPreservedCulture`, `RunWithPreservedCulture`, `SaveCulture`, `CulturePair`) is left out. It only saves and restores thread-local culture settings.
- Threading is left out: `lock`, `volatile`, `Interlocked` and the scheduling done by `ContinueWith`. Each lock body is one atomic method, and each task completion is an explicit step. Interleavings are not verified.
- `TaskRunners.RunTask(Task<T>, Action<T>)` is not modelled, because nothing calls it.
- `IPerformanceCounter` is a library type. It is modelled only as whether a counter is set, plus ghost tallies of its Increment and Decrement calls.
- Tasks are values, not objects. "The same task" means the same status and the same errors.
- A function that returns `null` instead of a task is not modelled. Neither is an `AggregateException` with no inner exceptions, which .NET refuses to store.
- `Encoding.UTF8.GetBytes` is a function the handler is given. `WebSocket.SendAsync` is a value saying what the write does. `Trace.TraceError` is dropped.
- `OnOpen`, `OnMessage`, `OnError` and `OnClose` are not modelled. They are overridable hooks with no behaviour: the defaults do nothing, or throw `NotImplementedException`.
- `_closeTimeout`, `_receiveLoopBufferSize` and `_maxIncomingMessageSize` are not used by any modelled behaviour. The last one is kept as a field.
- Sockets.SendAction: the state the queued action reads when it runs, and what the transport write does, are parameters of `SendAsync`. They are fixed when the write is enqueued, not read from the live socket when the action runs. The proof covers every value they can take.
- Queue.TaskQueue.CompleteRunning: a task that never completes (a stalled write) is allowed, but has no completion step. The operations behind it then wait forever, which is head-of-line blocking.
- Sockets.WebSocketHandler.SendAsync: the model assumes that the handler has a socket. In the code, the `WebSocket` property (WebSocketHandler.cs:76) is get-only and has no initializer, and the only constructor (:15-18) never sets it, so it is always null. `GetWebSocketState` catches only `ObjectDisposedException` (:70). So as written, every non-null `Send` throws `NullReferenceException` at :37, and never returns `Empty` or enqueues anything. The model instead takes the socket's state from the constructor and from `SetSocket`.
- Sockets.WebSocketHandler.SetSocket: an environment step with no counterpart in the code. It stands for the transport changing state (opening, closing, aborting, disposal).
- Sockets.StateProbe: reading the socket's state either gives a state or throws `ObjectDisposedException`. Any other exception from that read is not modelled. At :48 such a throw would be outside the `try` and would fault the queued action, so `NeverPoisoned` holds only for state reads that do not throw such an exception.
