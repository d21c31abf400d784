/**
 * Sockets: the send gate of Networking/WebSocketHandler.cs.
 *
 * The transport is abstracted to what probing its state returns and to what
 * its framed write does when called (throws, or returns a task that may
 * still be pending). Writes go through the handler's own unbounded
 * TaskQueue. What the state probe and the write will do when the queued
 * action eventually runs is supplied with the send, since the queue keeps
 * each operation's behaviour as a value.
 */
module Sockets {
  import opened Tasks
  import Queue

  /** System.Net.WebSockets.WebSocketState. */
  datatype WebSocketState = None | Connecting | Open | CloseSent | CloseReceived | Closed | Aborted

  /** What reading `webSocket.State` does: yields a state, or throws
      ObjectDisposedException because the socket was disposed. */
  datatype StateProbe = Live(state: WebSocketState) | Disposed

  /** System.Net.WebSockets.WebSocketMessageType. */
  datatype MessageType = Text | Binary | Close

  /** SendContext: one framed write, waiting in the queue. The handler it
      belongs to is the handler that enqueued it. */
  datatype SendContext = SendContext(message: seq<bv8>, messageType: MessageType, endOfMessage: bool)

  /** What Send does: a task, or an exception thrown before anything runs. */
  datatype SendResult = Sent(task: Task) | Rejected(error: Exn)

  /** GetWebSocketState: a disposed socket reads as Closed instead of throwing. */
  function GetWebSocketState(probe: StateProbe): (s: WebSocketState)
    ensures probe.Disposed? ==> s == Closed
    ensures probe.Live? ==> s == probe.state
  {
    match probe
    case Live(state) => state
    case Disposed => Closed
  }

  /** The queued `async state => { ... }` action, run with the state probe
      it reads and the transport write it makes at that time. A socket that
      is no longer open means no write; every exception of the write, thrown
      at once or carried by its task, is caught and traced, so the action's
      own task always ends by running to completion. */
  function SendAction(probe: StateProbe, write: Invocation): (r: Invocation)
    ensures Queue.CannotPoison(r)
    ensures GetWebSocketState(probe) != Open ==> r == Returned(Empty(), Empty())
    ensures r.task.Pending? <==> GetWebSocketState(probe) == Open && write.Returned? && write.task.Pending?
    ensures r.Eventual().Pending? <==>
              GetWebSocketState(probe) == Open && write.Returned? && write.Eventual().Pending?
  {
    if GetWebSocketState(probe) != Open then
      Returned(Empty(), Empty())
    else
      match write
      case Threw(_) => Returned(Empty(), Empty())
      case Returned(t, later) =>
        if t.IsCompleted() then Returned(Empty(), Empty())
        else Returned(Pending, if later.IsCompleted() then Empty() else Pending)
  }

  class WebSocketHandler {
    /** _sendQueue, built with the default (unbounded) constructor. */
    const sendQueue: Queue.TaskQueue
    /** _maxIncomingMessageSize: kept, used only by the receive loop. */
    const maxIncomingMessageSize: Queue.Option<int>
    /** Encoding.UTF8.GetBytes, left abstract. */
    const encode: string -> seq<bv8>
    /** What probing the handler's WebSocket returns now. */
    var socket: StateProbe
    /** The SendContext of every enqueued write, in queue order. */
    ghost var contexts: seq<SendContext>

    ghost predicate Valid()
      reads this, sendQueue
    {
      && sendQueue.Valid()
      && sendQueue.maxSize.None?
      && !sendQueue.IsDrained()
      && sendQueue.initial == Empty()
      && |contexts| == |sendQueue.ops|
      && forall i :: 0 <= i < |sendQueue.ops| ==> Queue.CannotPoison(sendQueue.ops[i].fn)
    }

    /** Nothing the handler has enqueued can fault or cancel its queue. */
    lemma NeverPoisoned()
      requires Valid()
      ensures !sendQueue.lastQueueTask.IsFailed()
      ensures forall i :: 0 <= i < |sendQueue.ops| ==> !sendQueue.ops[i].stage.Skipped?
    {
      Queue.NoPoisonFromSafeFunctions(sendQueue.initial, sendQueue.ops, |sendQueue.ops|);
      forall i | 0 <= i < |sendQueue.ops|
        ensures !sendQueue.ops[i].stage.Skipped?
      {
        Queue.NoPoisonFromSafeFunctions(sendQueue.initial, sendQueue.ops, i);
        assert Queue.LinkOkAt(sendQueue.initial, sendQueue.ops, i);
      }
    }

    constructor (maxIncoming: Queue.Option<int>, encoding: string -> seq<bv8>, probe: StateProbe)
      ensures Valid() && fresh(sendQueue)
      ensures sendQueue.ops == [] && sendQueue.lastQueueTask == Empty()
      ensures maxIncomingMessageSize == maxIncoming && encode == encoding && socket == probe
    {
      sendQueue := new Queue.TaskQueue();
      maxIncomingMessageSize := maxIncoming;
      encode := encoding;
      socket := probe;
      contexts := [];
    }

    /** The transport's state changes (opened, closed, aborted, disposed). */
    method SetSocket(probe: StateProbe)
      requires Valid()
      modifies this
      ensures Valid() && socket == probe && contexts == old(contexts)
    {
      socket := probe;
    }

    /** Send(string): a null message throws ArgumentNullException before
        anything is encoded or queued; otherwise a final text frame. */
    method Send(message: Queue.Option<string>, runProbe: StateProbe, write: Invocation)
      returns (r: SendResult)
      requires Valid()
      modifies this, sendQueue
      ensures Valid() && socket == old(socket)
      ensures message.None? ==> r == Rejected(ArgumentNull("message"))
      ensures message.None? ==> unchanged(sendQueue) && contexts == old(contexts)
      ensures message.Some? ==> r.Sent? && !r.task.IsFailed()
      ensures message.Some? && GetWebSocketState(socket) == Open ==>
                contexts == old(contexts) + [SendContext(encode(message.value), Text, true)]
      ensures message.Some? && GetWebSocketState(socket) != Open ==>
                r == Sent(Empty()) && unchanged(sendQueue) && contexts == old(contexts)
      ensures !sendQueue.lastQueueTask.IsFailed()
    {
      NeverPoisoned();
      if message.None? {
        return Rejected(ArgumentNull("message"));
      }
      var t := SendText(message.value, runProbe, write);
      r := Sent(t);
    }

    /** SendAsync(string): encode, then a final text frame. */
    method SendText(message: string, runProbe: StateProbe, write: Invocation) returns (r: Task)
      requires Valid()
      modifies this, sendQueue
      ensures Valid() && socket == old(socket)
      ensures !r.IsFailed() && !sendQueue.lastQueueTask.IsFailed()
      ensures GetWebSocketState(socket) == Open ==>
                contexts == old(contexts) + [SendContext(encode(message), Text, true)]
      ensures GetWebSocketState(socket) != Open ==>
                r == Empty() && unchanged(sendQueue) && contexts == old(contexts)
    {
      var buffer := encode(message);
      r := SendAsync(buffer, Text, true, runProbe, write);
    }

    /** SendAsync(ArraySegment<byte>, WebSocketMessageType, bool): the state
        gate, then the write queued behind every earlier one. `runProbe` and
        `write` are what the state probe and the transport write do when the
        queued action runs. */
    method SendAsync(message: seq<bv8>, messageType: MessageType, endOfMessage: bool,
                     runProbe: StateProbe, write: Invocation) returns (r: Task)
      requires Valid()
      modifies this, sendQueue
      ensures Valid() && socket == old(socket)
      ensures !r.IsFailed() && !sendQueue.lastQueueTask.IsFailed()
      // not open (a disposed socket included): the completed Empty task, nothing queued
      ensures GetWebSocketState(socket) != Open ==>
                r == Empty() && unchanged(sendQueue) && contexts == old(contexts)
      // open: queued, never rejected, and the returned task is the new end of the chain
      ensures GetWebSocketState(socket) == Open ==>
                && contexts == old(contexts) + [SendContext(message, messageType, endOfMessage)]
                && |sendQueue.ops| == |old(sendQueue.ops)| + 1
                && sendQueue.ops[..|old(sendQueue.ops)|] == old(sendQueue.ops)
                && sendQueue.ops[|old(sendQueue.ops)|].fn == SendAction(runProbe, write)
                && r == sendQueue.lastQueueTask
    {
      if GetWebSocketState(socket) != Open {
        NeverPoisoned();
        return Empty();
      }
      var sendContext := SendContext(message, messageType, endOfMessage);
      var queued := sendQueue.Enqueue(SendAction(runProbe, write));
      contexts := contexts + [sendContext];
      r := queued.value;
      NeverPoisoned();
    }

    /** The pending transport write of queued operation `k` completes, with
        any outcome; the action catches a failure, so its task completes
        successfully and the writes behind it run. */
    method WriteCompleted(k: nat)
      requires Valid() && k < |sendQueue.ops| && sendQueue.ops[k].stage.Running?
      requires sendQueue.ops[k].fn.Returned? && sendQueue.ops[k].fn.Eventual().IsCompleted()
      modifies this, sendQueue
      ensures Valid() && socket == old(socket) && contexts == old(contexts)
      ensures sendQueue.ops[k].stage.Ran? && sendQueue.ops[k].link.RanToCompletion?
      ensures !sendQueue.lastQueueTask.IsFailed()
    {
      sendQueue.CompleteRunning(k);
      NeverPoisoned();
    }
  }
}
