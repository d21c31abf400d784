/**
 * Queue: the ordered send queue of Infrastructure/TaskQueue.cs.
 *
 * Each body of `lock (_lock)` is one atomic method. The tasks the queue
 * chains are values (module Tasks), so the continuation graph the .NET
 * runtime keeps for them is kept here as the field `ops`: one entry per
 * admitted operation, in admission order, with the function it was given,
 * where it is in its life, and the task `Then` returned for it (its link in
 * the chain). The completion of a pending task is an explicit step:
 * `CompleteInitial` for the initial task, `CompleteRunning` for the task an
 * invoked function returned. Each step then runs the continuations that
 * become ready, in chain order, as .NET would.
 */
module Queue {
  import opened Tasks

  datatype Option<T> = None | Some(value: T)

  /** Where an admitted operation stands. */
  datatype Stage =
    | Waiting   // chained behind a pending task; its function has not been called
    | Running   // its function was called and returned a pending task; Dequeue is owed
    | Ran       // its function's task completed and the attached Finally ran Dequeue
    | Thrown    // its function threw synchronously; no Finally was attached
    | Skipped   // its predecessor faulted or was canceled; its function was never called
  {
    /** No later step changes an operation in one of these stages. */
    predicate IsFinal() { Ran? || Thrown? || Skipped? }
  }

  /** One admitted operation: the function given to Enqueue, its stage, and
      the task Then returned for it. */
  datatype Op = Op(fn: Invocation, stage: Stage, link: Task)

  /** What InvokeNext does, and how many times Dequeue ran before it returned. */
  datatype Invoked = Invoked(result: Invocation, dequeues: nat)

  /** InvokeNext: call the function and attach Finally(Dequeue) to the task
      it returns. Dequeue never throws, so the attached task has the
      function's task's status; a synchronous throw propagates. */
  function InvokeNext(fn: Invocation): (r: Invoked)
    ensures r.result == fn
    ensures r.dequeues == (if fn.Returned? && fn.task.IsCompleted() then 1 else 0)
  {
    match fn
    case Threw(_) => Invoked(fn, 0)
    case Returned(t, later) =>
      var f := Finally(t, Completes);
      FinallyCallsCleanupOnce(t, Completes);
      if t.IsCompleted() then
        FinallyPreservesOutcome(t);
        Invoked(Returned(f.task, later), f.calls)
      else
        Invoked(Returned(f.task, later), f.calls)
  }

  /** An operation's stage and link agree with the link of its predecessor
      and with what its function does. */
  ghost predicate LinkOk(pred: Task, op: Op) {
    match op.stage
    case Waiting => pred.Pending? && op.link.Pending?
    case Skipped => pred.IsFailed() && op.link == pred
    case Thrown => pred.RanToCompletion? && op.fn.Threw? && op.link == FromError(op.fn.error)
    case Running => pred.RanToCompletion? && op.fn.Returned? && op.fn.task.Pending? && op.link.Pending?
    case Ran =>
      pred.RanToCompletion? && op.fn.Returned? && op.fn.Eventual().IsCompleted() && op.link == op.fn.Eventual()
  }

  /** The task operation `i` is chained onto: the initial task for the first
      one, the previous operation's link otherwise. */
  function PredLink(initial: Task, ops: seq<Op>, i: nat): (t: Task)
    requires i <= |ops|
  {
    if i == 0 then initial else ops[i - 1].link
  }

  /** Operation `i` is consistent with its predecessor. */
  ghost predicate LinkOkAt(initial: Task, ops: seq<Op>, i: nat)
    requires i < |ops|
  {
    LinkOk(PredLink(initial, ops, i), ops[i])
  }

  /** The first `n` operations are consistent with their predecessors. */
  ghost predicate ChainOkBelow(initial: Task, ops: seq<Op>, n: nat)
    requires n <= |ops|
  {
    forall i :: 0 <= i < n ==> LinkOkAt(initial, ops, i)
  }

  ghost predicate ChainOk(initial: Task, ops: seq<Op>) {
    ChainOkBelow(initial, ops, |ops|)
  }

  /** Whether an operation still holds the size increment it took. */
  function Holds(op: Op): (h: nat) {
    if op.stage.Ran? then 0 else 1
  }

  /** The number of operations whose size increment has not been undone. */
  function Outstanding(ops: seq<Op>): (n: nat)
    ensures n <= |ops|
  {
    if ops == [] then 0 else Outstanding(ops[..|ops| - 1]) + Holds(ops[|ops| - 1])
  }

  /** The stage an operation is in once Then has looked at its predecessor
      `pred` (at enqueue time, or when `pred` completes). */
  function StageAfter(pred: Task, fn: Invocation): (stage: Stage) {
    if pred.IsFailed() then Skipped
    else if pred.Pending? then Waiting
    else if fn.Threw? then Thrown
    else if fn.task.Pending? then Running
    else Ran
  }

  /** Chaining `fn` with Then onto `pred` yields a consistent link, and
      Dequeue runs at once exactly when the operation is finished at once;
      the deferred continuation yields the same once `pred` has completed. */
  lemma ThenKeepsChain(pred: Task, fn: Invocation)
    ensures LinkOk(pred, Op(fn, StageAfter(pred, fn), Then(pred, InvokeNext(fn).result).task))
    ensures (Then(pred, InvokeNext(fn).result).calls == 1 && InvokeNext(fn).dequeues == 1)
            <==> StageAfter(pred, fn).Ran?
    ensures pred.IsCompleted() ==> ThenCompleted(pred, InvokeNext(fn).result) == Then(pred, InvokeNext(fn).result)
  {
    if pred.IsCompleted() {
      ThenCompletedAgreesWithThen(pred, InvokeNext(fn).result);
    }
  }

  /** A function whose task can never end faulted or canceled. */
  predicate CannotPoison(fn: Invocation) {
    fn.Returned? && !fn.task.IsFailed() && !fn.Eventual().IsFailed()
  }

  // ---------------------------------------------------------------------
  // Properties of the chain

  lemma {:induction false} OutstandingAppend(ops: seq<Op>, op: Op)
    ensures Outstanding(ops + [op]) == Outstanding(ops) + Holds(op)
  {
    assert (ops + [op])[..|ops|] == ops;
  }

  /** The count is zero exactly when every admitted operation has finished
      and been dequeued; a skipped or thrown one keeps it above zero. */
  lemma {:induction false} OutstandingZeroIffAllRan(ops: seq<Op>)
    ensures Outstanding(ops) == 0 <==> forall i :: 0 <= i < |ops| ==> ops[i].stage.Ran?
  {
    if ops != [] {
      var n := |ops| - 1;
      OutstandingZeroIffAllRan(ops[..n]);
      assert forall i :: 0 <= i < n ==> ops[..n][i] == ops[i];
    }
  }

  /** Replacing one operation changes the count by the difference of the
      two operations' holds. */
  lemma {:induction false} OutstandingUpdate(ops: seq<Op>, i: nat, op: Op)
    requires i < |ops|
    ensures Outstanding(ops[i := op]) == Outstanding(ops) - Holds(ops[i]) + Holds(op)
  {
    var n := |ops| - 1;
    var ops' := ops[i := op];
    if i == n {
      assert ops'[..n] == ops[..n];
    } else {
      OutstandingUpdate(ops[..n], i, op);
      assert ops'[..n] == ops[..n][i := op];
    }
  }

  lemma {:induction false} ChainOkAppend(initial: Task, ops: seq<Op>, op: Op)
    requires ChainOk(initial, ops)
    requires LinkOk(PredLink(initial, ops, |ops|), op)
    ensures ChainOk(initial, ops + [op])
  {
    var ops' := ops + [op];
    forall i | 0 <= i < |ops'|
      ensures LinkOkAt(initial, ops', i)
    {
      if i < |ops| {
        assert LinkOkAt(initial, ops, i);
        assert PredLink(initial, ops', i) == PredLink(initial, ops, i);
      }
    }
  }

  /** Behind a pending link every operation is still waiting: nothing runs
      ahead of its predecessor. */
  lemma {:induction false} PendingLinkBlocksRest(initial: Task, ops: seq<Op>, k: nat)
    requires ChainOk(initial, ops)
    requires k <= |ops| && PredLink(initial, ops, k).Pending?
    ensures forall m :: k <= m < |ops| ==> ops[m].stage.Waiting? && ops[m].link.Pending?
    decreases |ops| - k
  {
    if k < |ops| {
      assert LinkOkAt(initial, ops, k);
      PendingLinkBlocksRest(initial, ops, k + 1);
    }
  }

  /** A consistent prefix followed by operations that are all still waiting
      behind a pending task is a consistent chain. */
  lemma ChainOkOfWaitingTail(initial: Task, ops: seq<Op>, i: nat)
    requires i <= |ops| && ChainOkBelow(initial, ops, i)
    requires i < |ops| ==> PredLink(initial, ops, i).Pending?
    requires forall j :: i <= j < |ops| ==> ops[j].stage.Waiting? && ops[j].link.Pending?
    ensures ChainOk(initial, ops)
  {
    forall j | i <= j < |ops|
      ensures LinkOkAt(initial, ops, j)
    {
      if j > i {
        assert ops[j - 1].link.Pending?;
      }
    }
  }

  /** At most one function's task is in flight at any time. */
  lemma AtMostOneRunning(initial: Task, ops: seq<Op>, i: nat, j: nat)
    requires ChainOk(initial, ops)
    requires i < |ops| && j < |ops|
    requires ops[i].stage.Running? && ops[j].stage.Running?
    ensures i == j
  {
    assert LinkOkAt(initial, ops, i) && LinkOkAt(initial, ops, j);
    if i < j {
      PendingLinkBlocksRest(initial, ops, i + 1);
    } else if j < i {
      PendingLinkBlocksRest(initial, ops, j + 1);
    }
  }

  /** Operations are served in admission order: once an operation has left
      the waiting stage, every operation admitted before it is finished. */
  lemma InvokedInOrder(initial: Task, ops: seq<Op>, i: nat, j: nat)
    requires ChainOk(initial, ops)
    requires i < j < |ops| && !ops[j].stage.Waiting?
    ensures ops[i].stage.IsFinal()
  {
    if !ops[i].stage.IsFinal() {
      assert LinkOkAt(initial, ops, i);
      PendingLinkBlocksRest(initial, ops, i + 1);
    }
  }

  /** A faulted or canceled link poisons the rest of the chain: every later
      operation is skipped and carries that same task. */
  lemma {:induction false} PoisonPropagates(initial: Task, ops: seq<Op>, k: nat)
    requires ChainOk(initial, ops)
    requires k <= |ops| && PredLink(initial, ops, k).IsFailed()
    ensures forall m :: k <= m < |ops| ==> ops[m].stage.Skipped? && ops[m].link == PredLink(initial, ops, k)
    decreases |ops| - k
  {
    if k < |ops| {
      assert LinkOkAt(initial, ops, k);
      PoisonPropagates(initial, ops, k + 1);
    }
  }

  /** Skipped operations keep their size increment: behind a failed link the
      size never falls below the number of operations admitted after it. */
  lemma {:induction false} PoisonKeepsSize(initial: Task, ops: seq<Op>, k: nat)
    requires ChainOk(initial, ops)
    requires k <= |ops| && PredLink(initial, ops, k).IsFailed()
    ensures Outstanding(ops) >= |ops| - k
    decreases |ops|
  {
    if k < |ops| {
      var n := |ops| - 1;
      PoisonPropagates(initial, ops, k);
      assert ChainOk(initial, ops[..n]) by {
        forall i | 0 <= i < n
          ensures LinkOkAt(initial, ops[..n], i)
        {
          assert LinkOkAt(initial, ops, i);
          assert PredLink(initial, ops[..n], i) == PredLink(initial, ops, i);
        }
      }
      assert PredLink(initial, ops[..n], k) == PredLink(initial, ops, k);
      PoisonKeepsSize(initial, ops[..n], k);
    }
  }

  /** If the initial task is not failed and no function can end faulted or
      canceled, no link of the chain is ever faulted or canceled. */
  lemma {:induction false} NoPoisonFromSafeFunctions(initial: Task, ops: seq<Op>, k: nat)
    requires ChainOk(initial, ops)
    requires !initial.IsFailed()
    requires forall i :: 0 <= i < |ops| ==> CannotPoison(ops[i].fn)
    requires k <= |ops|
    ensures !PredLink(initial, ops, k).IsFailed()
  {
    if k > 0 {
      NoPoisonFromSafeFunctions(initial, ops, k - 1);
      assert LinkOkAt(initial, ops, k - 1);
    }
  }

  /** The size bookkeeping: a bounded queue's size counts the operations
      that still hold their increment and never passes the bound (a
      non-positive bound admits nothing); an unbounded queue never touches
      it. Dequeue has run once for every finished-and-dequeued operation. */
  ghost predicate Accounted(maxSize: Option<int>, ops: seq<Op>, size: int, dequeues: int) {
    && (maxSize.Some? ==> size == Outstanding(ops) && (size <= maxSize.value || size == 0))
    && (maxSize.None? ==> size == 0)
    && dequeues == |ops| - Outstanding(ops)
  }

  // ---------------------------------------------------------------------
  // The queue

  class TaskQueue {
    /** _lastQueueTask: the link of the last admitted operation. */
    var lastQueueTask: Task
    /** _drained: read by Enqueue, never assigned after construction. */
    var drained: bool
    /** _maxSize: the optional bound. */
    const maxSize: Option<int>
    /** _size: admitted operations whose increment was not undone. */
    var size: int
    /** Whether QueueSizeCounter is set. */
    var hasCounter: bool
    /** The task the chain starts from. */
    var initial: Task
    /** The admitted operations, in admission order. */
    var ops: seq<Op>
    /** Calls of counter.Increment, counter.Decrement, and runs of Dequeue. */
    ghost var increments: nat
    ghost var decrements: nat
    ghost var dequeues: nat

    ghost predicate Valid()
      reads this
    {
      && ChainOk(initial, ops)
      && lastQueueTask == PredLink(initial, ops, |ops|)
      && Accounted(maxSize, ops, size, dequeues)
    }

    /** IsDrained: reports the drained flag, which no member assigns after
        construction. */
    function IsDrained(): (r: bool)
      reads this
      ensures r <==> drained
    {
      drained
    }

    /** TaskQueue(): starts from Empty with no bound. */
    constructor ()
      ensures Valid() && !IsDrained()
      ensures lastQueueTask == Empty() && maxSize.None? && size == 0 && ops == [] && !hasCounter
      ensures initial == Empty() && increments == 0 && decrements == 0 && dequeues == 0
    {
      lastQueueTask := Empty();
      initial := Empty();
      drained := false;
      maxSize := None;
      size := 0;
      hasCounter := false;
      ops := [];
      increments, decrements, dequeues := 0, 0, 0;
    }

    /** TaskQueue(Task initialTask): no bound. */
    constructor FromTask(initialTask: Task)
      ensures Valid() && !IsDrained()
      ensures lastQueueTask == initialTask && maxSize.None? && size == 0 && ops == [] && !hasCounter
      ensures initial == initialTask && increments == 0 && decrements == 0 && dequeues == 0
    {
      lastQueueTask := initialTask;
      initial := initialTask;
      drained := false;
      maxSize := None;
      size := 0;
      hasCounter := false;
      ops := [];
      increments, decrements, dequeues := 0, 0, 0;
    }

    /** TaskQueue(Task initialTask, int maxSize). */
    constructor Bounded(initialTask: Task, bound: int)
      ensures Valid() && !IsDrained()
      ensures lastQueueTask == initialTask && maxSize == Some(bound) && size == 0 && ops == [] && !hasCounter
      ensures initial == initialTask && increments == 0 && decrements == 0 && dequeues == 0
    {
      lastQueueTask := initialTask;
      initial := initialTask;
      drained := false;
      maxSize := Some(bound);
      size := 0;
      hasCounter := false;
      ops := [];
      increments, decrements, dequeues := 0, 0, 0;
    }

    /** The QueueSizeCounter setter: a counter is present or absent. */
    method SetQueueSizeCounter(present: bool)
      modifies this
      ensures hasCounter == present
      ensures lastQueueTask == old(lastQueueTask) && drained == old(drained) && size == old(size)
      ensures initial == old(initial) && ops == old(ops)
      ensures increments == old(increments) && decrements == old(decrements) && dequeues == old(dequeues)
    {
      hasCounter := present;
    }

    /** Dequeue: lowers the size and notifies the counter, for a bounded queue only. */
    method Dequeue()
      modifies this
      ensures size == old(size) - (if maxSize.Some? then 1 else 0)
      ensures decrements == old(decrements) + (if maxSize.Some? && hasCounter then 1 else 0)
      ensures dequeues == old(dequeues) + 1
      ensures lastQueueTask == old(lastQueueTask) && drained == old(drained) && hasCounter == old(hasCounter)
      ensures initial == old(initial) && ops == old(ops) && increments == old(increments)
    {
      if maxSize.Some? {
        size := size - 1;
        if hasCounter {
          decrements := decrements + 1;
        }
      }
      dequeues := dequeues + 1;
    }

    /** Enqueue: the body of the lock. */
    method Enqueue(fn: Invocation) returns (r: Option<Task>)
      requires Valid()
      modifies this
      ensures Valid()
      ensures drained == old(drained) && initial == old(initial) && hasCounter == old(hasCounter)
      ensures decrements == old(decrements) + (if maxSize.Some? && hasCounter then dequeues - old(dequeues) else 0)
      // a drained queue returns its last task and changes nothing
      ensures old(drained) ==> r == Some(old(lastQueueTask)) && unchanged(this)
      // a full bounded queue rejects and changes nothing
      ensures r.None? <==> !old(drained) && maxSize.Some? && old(size) + 1 > maxSize.value
      ensures r.None? ==> unchanged(this)
      // an admitted operation is appended and becomes the last task
      ensures !old(drained) && r.Some? ==>
        && ops == old(ops) + [Op(fn, StageAfter(old(lastQueueTask), fn), r.value)]
        && lastQueueTask == r.value
        && increments == old(increments) + (if maxSize.Some? && hasCounter then 1 else 0)
        && size == old(size) + (if maxSize.Some? then Holds(ops[|old(ops)|]) else 0)
        && dequeues == old(dequeues) + 1 - Holds(ops[|old(ops)|])
      // behind a failed last task: the same task, the function is never called
      ensures !old(drained) && r.Some? && old(lastQueueTask).IsFailed() ==> r.value == old(lastQueueTask)
      // behind a pending last task: the operation waits
      ensures !old(drained) && r.Some? && old(lastQueueTask).Pending? ==> r.value.Pending?
      // behind a completed last task: the function runs inline
      ensures !old(drained) && r.Some? && old(lastQueueTask).RanToCompletion? ==> r.value == FromMethod(fn)
    {
      if drained {
        r := Some(lastQueueTask);
        return;
      }
      if maxSize.Some? {
        size := size + 1;
        if size > maxSize.value {
          size := size - 1;
          r := None;
          return;
        }
        if hasCounter {
          increments := increments + 1;
        }
      }
      r := Chain(fn);
    }

    /** The end of Enqueue's lock body, once the operation is admitted (and
        counted, for a bounded queue): chain it onto the last task with Then
        and make the result the new last task. */
    method Chain(fn: Invocation) returns (r: Option<Task>)
      requires ChainOk(initial, ops) && lastQueueTask == PredLink(initial, ops, |ops|)
      requires maxSize.Some? ==> size >= 1 && size <= maxSize.value
      requires Accounted(maxSize, ops, if maxSize.Some? then size - 1 else size, dequeues)
      modifies this
      ensures Valid()
      ensures drained == old(drained) && initial == old(initial) && hasCounter == old(hasCounter)
      ensures increments == old(increments)
      ensures decrements == old(decrements) + (if maxSize.Some? && hasCounter then dequeues - old(dequeues) else 0)
      ensures r.Some?
      ensures ops == old(ops) + [Op(fn, StageAfter(old(lastQueueTask), fn), r.value)]
      ensures lastQueueTask == r.value
      ensures size == old(size) - (if maxSize.Some? then 1 - Holds(ops[|old(ops)|]) else 0)
      ensures dequeues == old(dequeues) + 1 - Holds(ops[|old(ops)|])
      ensures old(lastQueueTask).IsFailed() ==> r.value == old(lastQueueTask)
      ensures old(lastQueueTask).Pending? ==> r.value.Pending?
      ensures old(lastQueueTask).RanToCompletion? ==> r.value == FromMethod(fn)
    {
      var invoked := InvokeNext(fn);
      var d := Then(lastQueueTask, invoked.result);
      var op := Op(fn, StageAfter(lastQueueTask, fn), d.task);
      ThenKeepsChain(lastQueueTask, fn);
      ChainOkAppend(initial, ops, op);
      OutstandingAppend(ops, op);
      ops := ops + [op];
      if d.calls == 1 && invoked.dequeues == 1 {
        Dequeue();
      }
      lastQueueTask := d.task;
      r := Some(d.task);
    }

    /** The initial task completes with `outcome`; the operations chained
        behind it run in order. */
    method CompleteInitial(outcome: Task)
      requires Valid() && initial.Pending? && outcome.IsCompleted()
      modifies this
      ensures Valid()
      ensures initial == outcome
      ensures |ops| == |old(ops)|
      ensures forall i :: 0 <= i < |ops| ==> ops[i].fn == old(ops[i].fn)
      ensures forall i :: 0 <= i < |ops| && old(ops[i]).stage.IsFinal() ==> ops[i] == old(ops[i])
      ensures forall i :: 0 <= i < |ops| && ops[i].stage.Ran? ==> ops[i].fn.Returned? && ops[i].fn.task.IsCompleted()
      ensures drained == old(drained) && hasCounter == old(hasCounter) && increments == old(increments)
      ensures dequeues >= old(dequeues)
      ensures decrements == old(decrements) + (if maxSize.Some? && hasCounter then dequeues - old(dequeues) else 0)
    {
      PendingLinkBlocksRest(initial, ops, 0);
      initial := outcome;
      Resume(0);
    }

    /** The pending task returned by operation `k`'s function completes; its
        Finally runs Dequeue once and the operations behind it run in order. */
    method CompleteRunning(k: nat)
      requires Valid() && k < |ops| && ops[k].stage.Running?
      requires ops[k].fn.Returned? && ops[k].fn.Eventual().IsCompleted()
      modifies this
      ensures Valid()
      ensures |ops| == |old(ops)|
      ensures forall i :: 0 <= i < k ==> ops[i] == old(ops[i])
      ensures forall i :: 0 <= i < |ops| ==> ops[i].fn == old(ops[i].fn)
      ensures ops[k].stage.Ran? && ops[k].link == old(ops[k].fn.Eventual())
      ensures forall i :: 0 <= i < |ops| && old(ops[i]).stage.IsFinal() ==> ops[i] == old(ops[i])
      ensures forall i :: k < i < |ops| && ops[i].stage.Ran? ==> ops[i].fn.Returned? && ops[i].fn.task.IsCompleted()
      ensures initial == old(initial) && drained == old(drained) && hasCounter == old(hasCounter)
      ensures increments == old(increments)
      ensures dequeues >= old(dequeues) + 1
      ensures decrements == old(decrements) + (if maxSize.Some? && hasCounter then dequeues - old(dequeues) else 0)
    {
      assert LinkOkAt(initial, ops, k);
      PendingLinkBlocksRest(initial, ops, k + 1);
      var fn := ops[k].fn;
      var eventual := fn.Eventual();
      var f := FinallyCompleted(eventual, Completes);
      FinallyPreservesOutcome(eventual);
      ghost var before := ops;
      OutstandingUpdate(ops, k, Op(fn, Ran, f.task));
      ops := ops[k := Op(fn, Ran, f.task)];
      Dequeue();
      assert ChainOkBelow(initial, ops, k + 1) by {
        forall i | 0 <= i < k + 1
          ensures LinkOkAt(initial, ops, i)
        {
          if i < k {
            assert LinkOkAt(initial, before, i);
            assert PredLink(initial, ops, i) == PredLink(initial, before, i);
          } else {
            assert LinkOkAt(initial, before, k);
          }
        }
      }
      Resume(k + 1);
    }

    /** Run the continuations of the waiting operations from `from` on, whose
        predecessor has just completed, until one of them stays pending. */
    method Resume(from: nat)
      requires from <= |ops|
      requires ChainOkBelow(initial, ops, from)
      requires PredLink(initial, ops, from).IsCompleted()
      requires forall i :: from <= i < |ops| ==> ops[i].stage.Waiting? && ops[i].link.Pending?
      requires Accounted(maxSize, ops, size, dequeues)
      modifies this
      ensures Valid()
      ensures |ops| == |old(ops)|
      ensures forall i :: 0 <= i < from ==> ops[i] == old(ops[i])
      ensures forall i :: 0 <= i < |ops| ==> ops[i].fn == old(ops[i].fn)
      ensures forall i :: from <= i < |ops| && ops[i].stage.Ran? ==> ops[i].fn.Returned? && ops[i].fn.task.IsCompleted()
      ensures initial == old(initial) && drained == old(drained) && hasCounter == old(hasCounter)
      ensures increments == old(increments)
      ensures dequeues >= old(dequeues)
      ensures decrements == old(decrements) + (if maxSize.Some? && hasCounter then dequeues - old(dequeues) else 0)
    {
      var i := from;
      var stopped := false;
      while i < |ops| && !stopped
        invariant from <= i <= |ops| == |old(ops)|
        invariant ChainOkBelow(initial, ops, i)
        invariant !stopped ==> PredLink(initial, ops, i).IsCompleted()
        invariant stopped ==> PredLink(initial, ops, i).Pending?
        invariant forall j :: i <= j < |ops| ==> ops[j].stage.Waiting? && ops[j].link.Pending?
        invariant forall j :: 0 <= j < from ==> ops[j] == old(ops[j])
        invariant forall j :: 0 <= j < |ops| ==> ops[j].fn == old(ops[j].fn)
        invariant forall j :: from <= j < i && ops[j].stage.Ran? ==> ops[j].fn.Returned? && ops[j].fn.task.IsCompleted()
        invariant Accounted(maxSize, ops, size, dequeues)
        invariant initial == old(initial) && drained == old(drained) && hasCounter == old(hasCounter)
        invariant increments == old(increments)
        invariant dequeues >= old(dequeues)
        invariant decrements == old(decrements) + (if maxSize.Some? && hasCounter then dequeues - old(dequeues) else 0)
      {
        stopped := RunContinuation(i);
        i := i + 1;
      }
      ChainOkOfWaitingTail(initial, ops, i);
      lastQueueTask := PredLink(initial, ops, |ops|);
    }

    /** The continuation Then registered for operation `i`, run now that its
        predecessor has completed. */
    method RunContinuation(i: nat) returns (running: bool)
      requires i < |ops|
      requires ChainOkBelow(initial, ops, i)
      requires PredLink(initial, ops, i).IsCompleted()
      requires ops[i].stage.Waiting?
      requires Accounted(maxSize, ops, size, dequeues)
      modifies this
      ensures |ops| == |old(ops)| && ops == old(ops)[i := ops[i]]
      ensures ops[i].fn == old(ops[i].fn)
      ensures ChainOkBelow(initial, ops, i + 1)
      ensures running == ops[i].stage.Running?
      ensures running ==> ops[i].link.Pending?
      ensures !running ==> ops[i].link.IsCompleted()
      ensures ops[i].stage.Ran? ==> ops[i].fn.Returned? && ops[i].fn.task.IsCompleted()
      ensures Accounted(maxSize, ops, size, dequeues)
      ensures initial == old(initial) && drained == old(drained) && hasCounter == old(hasCounter)
      ensures increments == old(increments)
      ensures dequeues == old(dequeues) + (if ops[i].stage.Ran? then 1 else 0)
      ensures decrements == old(decrements) + (if maxSize.Some? && hasCounter then dequeues - old(dequeues) else 0)
    {
      var pred := if i == 0 then initial else ops[i - 1].link;
      var fn := ops[i].fn;
      var invoked := InvokeNext(fn);
      var d := ThenCompleted(pred, invoked.result);
      var op := Op(fn, StageAfter(pred, fn), d.task);
      ThenKeepsChain(pred, fn);
      OutstandingUpdate(ops, i, op);
      ghost var before := ops;
      ops := ops[i := op];
      assert ChainOkBelow(initial, ops, i + 1) by {
        forall j | 0 <= j < i + 1
          ensures LinkOkAt(initial, ops, j)
        {
          if j < i {
            assert LinkOkAt(initial, before, j);
            assert PredLink(initial, ops, j) == PredLink(initial, before, j);
          }
        }
      }
      if d.calls == 1 && invoked.dequeues == 1 {
        Dequeue();
      }
      running := op.stage.Running?;
    }
  }

  lemma OutstandingOfTwo(ops: seq<Op>)
    requires |ops| == 2
    ensures Outstanding(ops) == Holds(ops[0]) + Holds(ops[1])
  {
    assert ops[..1][..0] == [] && ops[..1][0] == ops[0];
  }

  /** A bound of 2 on a fresh queue with a size counter: A and B are
      admitted and C is rejected; once A's task completes, B runs, the size
      is 1, the counter has seen one Decrement, and D is admitted. Every
      function here returns a task that completes later. */
  method BoundedQueueScenario()
  {
    var slow := Returned(Pending, Empty());
    var q := new TaskQueue.Bounded(Empty(), 2);
    q.SetQueueSizeCounter(true);
    var a := q.Enqueue(slow);
    assert a.Some? && q.size == 1 && q.ops[0].stage.Running? && q.increments == 1;
    var b := q.Enqueue(slow);
    assert b.Some? && q.size == 2 && q.ops[1].stage.Waiting? && q.increments == 2;
    var c := q.Enqueue(slow);
    assert c.None? && q.size == 2 && q.increments == 2 && q.decrements == 0;
    BoundedQueueScenarioAfterA(q);
  }

  method BoundedQueueScenarioAfterA(q: TaskQueue)
    requires q.Valid() && !q.IsDrained() && q.maxSize == Some(2) && q.size == 2 && |q.ops| == 2
    requires q.ops[0].stage.Running? && q.ops[0].fn == Returned(Pending, Empty())
    requires q.ops[1].fn == Returned(Pending, Empty())
    requires q.hasCounter && q.increments == 2 && q.decrements == 0
    modifies q
  {
    q.CompleteRunning(0);
    assert LinkOkAt(q.initial, q.ops, 1);
    assert q.ops[1].stage.Running?;
    OutstandingOfTwo(q.ops);
    assert q.size == 1 && q.decrements == 1;
    BoundedQueueScenarioAdmitD(q);
  }

  method BoundedQueueScenarioAdmitD(q: TaskQueue)
    requires q.Valid() && !q.IsDrained() && q.maxSize == Some(2) && q.size == 1
    requires q.hasCounter && q.increments == 2
    modifies q
  {
    var d := q.Enqueue(Returned(Pending, Empty()));
    assert d.Some? && q.size == 2 && q.increments == 3;
  }
}
