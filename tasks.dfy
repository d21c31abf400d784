/**
 * Tasks: the outcome-dispatch helpers of Infrastructure/TaskAsyncHelper.cs.
 *
 * A task is a value carrying its status. A task that is still running is
 * `Pending`; its completion is an explicit later step, written as a separate
 * function (`ThenCompleted`, `FinallyCompleted`) that receives the status the
 * task reached. A callback (successor, cleanup action, user function) is not
 * run here: what it does when it is called is given as a value, and every
 * combinator reports how many times it called it.
 */
module Tasks {

  /** The exceptions the helpers tell apart. `Aggregate` is .NET's
      AggregateException, which wraps a list of inner exceptions. */
  datatype Exn =
    | Exception(message: string)
    | ArgumentNull(paramName: string)
    | Aggregate(inner: seq<Exn>)

  /** A task and its status. `Pending` covers every status that is not
      terminal (Created, WaitingForActivation, Running, ...). */
  datatype TaskOf<T> =
    | Pending
    | RanToCompletion(result: T)
    | Faulted(errors: seq<Exn>)
    | Canceled
  {
    /** Task.IsCompleted: the task reached a terminal status. */
    predicate IsCompleted() { !Pending? }

    /** The two terminal statuses that `Then` refuses to continue from. */
    predicate IsFailed() { Faulted? || Canceled? }
  }

  /** A non-generic Task; its result (`object` null in the source) is unit. */
  type Task = TaskOf<()>

  /** What a function returning a Task does when it is called: it throws
      synchronously, or it returns a task whose status at return is `task`.
      When that task is still pending, `later` is the status it reaches when
      it completes; a `later` that is itself `Pending` is a task that never
      completes. */
  datatype Invocation = Threw(error: Exn) | Returned(task: Task, later: Task)
  {
    /** The status the returned task ends in (or `Pending` if it never ends). */
    function Eventual(): (r: Task)
      requires Returned?
      ensures task.IsCompleted() ==> r == task
      ensures task.Pending? ==> r == later
    {
      if task.Pending? then later else task
    }
  }

  /** What an `Action<object>` (a cleanup step) does when it is called. */
  datatype Cleanup = Completes | Throws(error: Exn)

  /** The task a combinator returns, with the number of times the combinator
      called its callback before returning. */
  datatype Dispatched<T> = Dispatched(task: TaskOf<T>, calls: nat)

  /** FromResult: a task that has already run to completion with `value`. */
  function FromResult<T>(value: T): (r: TaskOf<T>)
    ensures r.IsCompleted() && !r.IsFailed() && r.result == value
  {
    RanToCompletion(value)
  }

  /** Empty: the shared already-completed task (MakeTask<object>(null)). */
  function Empty(): (r: Task)
    ensures r.RanToCompletion?
  {
    FromResult(())
  }

  /** The errors TrySetUnwrappedException stores for `e`: one level of
      AggregateException is flattened into its inner exceptions; any other
      exception is stored alone. */
  function UnwrappedErrors(e: Exn): (r: seq<Exn>)
    ensures e.Aggregate? ==> r == e.inner
    ensures !e.Aggregate? ==> r == [e]
  {
    match e
    case Aggregate(inner) => inner
    case _ => [e]
  }

  /** FromError: a task already faulted with `e`, unwrapped one level. */
  function FromError<T>(e: Exn): (r: TaskOf<T>)
    ensures r.Faulted? && r.errors == UnwrappedErrors(e)
  {
    Faulted(UnwrappedErrors(e))
  }

  /** FromMethod(Func<T1, T2, T3, Task>, ...): calls the function once; a
      synchronous throw becomes a faulted task. */
  function FromMethod(func: Invocation): (r: Task)
    ensures func.Returned? ==> r == func.task
    ensures func.Threw? ==> r == FromError(func.error)
  {
    match func
    case Returned(t, _) => t
    case Threw(e) => FromError(e)
  }

  /** FromMethod(Action<T1>, T1): calls the action once and returns Empty,
      or a faulted task if it throws. */
  function FromAction(action: Cleanup): (r: Task)
    ensures r.IsCompleted()
    ensures r.Faulted? <==> action.Throws?
    ensures action.Throws? ==> r == FromError(action.error)
  {
    match action
    case Completes => Empty()
    case Throws(e) => FromError(e)
  }

  /** Then: dispatch on the predecessor's status at call time. A failed or
      canceled predecessor is returned as it is; a completed one runs the
      successor inline; a pending one defers (the deferred continuation is
      `ThenCompleted`). */
  function Then(task: Task, successor: Invocation): (r: Dispatched<()>)
    ensures r.calls == (if task.RanToCompletion? then 1 else 0)
    ensures task.IsFailed() ==> r.task == task
    ensures task.RanToCompletion? ==> r.task == FromMethod(successor)
    ensures task.Pending? ==> r.task.Pending?
  {
    match task
    case Faulted(_) => Dispatched(task, 0)
    case Canceled => Dispatched(task, 0)
    case RanToCompletion(_) => Dispatched(FromMethod(successor), 1)
    case Pending => Dispatched(Pending, 0)
  }

  /** TaskRunners.RunTask(Task, Func<TResult>): the continuation that runs
      once `task` has completed. It fills a Task<Task> whose result is the
      task the successor returned. `t.Exception` of a faulted task is an
      AggregateException over its errors. */
  function RunTask(task: Task, successor: Invocation): (r: Dispatched<Task>)
    requires task.IsCompleted()
    ensures r.calls == (if task.RanToCompletion? then 1 else 0)
    ensures r.task.IsCompleted()
    ensures task.Faulted? ==> r.task == Faulted(task.errors)
    ensures task.Canceled? ==> r.task.Canceled?
  {
    match task
    case Faulted(errors) => Dispatched(FromError(Aggregate(errors)), 0)
    case Canceled => Dispatched(Canceled, 0)
    case RanToCompletion(_) =>
      match successor
      case Returned(t, _) => Dispatched(RanToCompletion(t), 1)
      case Threw(e) => Dispatched(FromError(e), 1)
  }

  /** FastUnwrap (both overloads): the inner task of a completed
      Task<Task<T>>, otherwise the proxy Unwrap() builds, which mirrors the
      outer task's status. */
  function FastUnwrap<T>(outer: TaskOf<TaskOf<T>>): (r: TaskOf<T>)
    ensures outer.RanToCompletion? ==> r == outer.result
    ensures outer.Faulted? ==> r == Faulted(outer.errors)
    ensures outer.Canceled? ==> r.Canceled?
    ensures outer.Pending? ==> r.Pending?
  {
    match outer
    case RanToCompletion(inner) => inner
    case Faulted(errors) => Faulted(errors)
    case Canceled => Canceled
    case Pending => Pending
  }

  /** The deferred branch of Then, once the predecessor has completed:
      ThenWithArgs followed by FastUnwrap. */
  function ThenCompleted(task: Task, successor: Invocation): (r: Dispatched<()>)
    requires task.IsCompleted()
    ensures r.calls == (if task.RanToCompletion? then 1 else 0)
    ensures task.IsFailed() ==> r.task.IsFailed()
  {
    var d := RunTask(task, successor);
    Dispatched(FastUnwrap(d.task), d.calls)
  }

  /** RunTaskSynchronously: the continuation that runs once `task` has
      completed. The cleanup runs on every terminal status unless
      `onlyOnSuccess`; a throwing cleanup replaces the outcome. */
  function RunTaskSynchronously(task: Task, next: Cleanup, onlyOnSuccess: bool): (r: Dispatched<()>)
    requires task.IsCompleted()
    ensures r.calls <= 1
    ensures r.task.IsCompleted()
  {
    match task
    case Faulted(errors) =>
      if onlyOnSuccess then Dispatched(FromError(Aggregate(errors)), 0)
      else if next.Throws? then Dispatched(FromError(next.error), 1)
      else Dispatched(FromError(Aggregate(errors)), 1)
    case Canceled =>
      if onlyOnSuccess then Dispatched(Canceled, 0)
      else if next.Throws? then Dispatched(FromError(next.error), 1)
      else Dispatched(Canceled, 1)
    case RanToCompletion(_) =>
      if next.Throws? then Dispatched(FromError(next.error), 1)
      else Dispatched(RanToCompletion(()), 1)
  }

  /** Finally: runs `next` on every terminal status. A pending task is
      handed to RunTaskSynchronously with onlyOnSuccess = false; the
      cleanup then runs in `FinallyCompleted`. */
  function Finally(task: Task, next: Cleanup): (r: Dispatched<()>)
    ensures r.calls == (if task.IsCompleted() then 1 else 0)
    ensures task.Pending? <==> r.task.Pending?
  {
    match task
    case Faulted(_) => if next.Throws? then Dispatched(FromError(next.error), 1) else Dispatched(task, 1)
    case Canceled => if next.Throws? then Dispatched(FromError(next.error), 1) else Dispatched(task, 1)
    case RanToCompletion(_) => Dispatched(FromAction(next), 1)
    case Pending => Dispatched(Pending, 0)
  }

  /** The deferred branch of Finally, once the task has completed. */
  function FinallyCompleted(task: Task, next: Cleanup): (r: Dispatched<()>)
    requires task.IsCompleted()
    ensures r.calls == 1 && r.task.IsCompleted()
  {
    RunTaskSynchronously(task, next, false)
  }

  // ---------------------------------------------------------------------
  // Properties of the combinators

  /** Then never calls the successor unless the predecessor ran to
      completion: its result does not depend on the successor at all. */
  lemma ThenIgnoresSuccessorUnlessCompleted(task: Task, s1: Invocation, s2: Invocation)
    requires !task.RanToCompletion?
    ensures Then(task, s1) == Then(task, s2)
    ensures Then(task, s1).calls == 0
  {
  }

  /** The deferred branch of Then gives the same task and the same number of
      successor calls as the inline branch would have, whatever terminal
      status the predecessor reached. */
  lemma ThenCompletedAgreesWithThen(task: Task, successor: Invocation)
    requires task.IsCompleted()
    ensures ThenCompleted(task, successor) == Then(task, successor)
  {
    if task.Faulted? {
      assert UnwrappedErrors(Aggregate(task.errors)) == task.errors;
    }
  }

  /** The outcome of a deferred Then, stated per status of the predecessor. */
  lemma ThenCompletedOutcome(task: Task, successor: Invocation)
    requires task.IsCompleted()
    ensures task.Faulted? ==> ThenCompleted(task, successor) == Dispatched(Faulted(task.errors), 0)
    ensures task.Canceled? ==> ThenCompleted(task, successor) == Dispatched(Canceled, 0)
    ensures task.RanToCompletion? ==> ThenCompleted(task, successor) == Dispatched(FromMethod(successor), 1)
  {
    ThenCompletedAgreesWithThen(task, successor);
  }

  /** Finally calls its cleanup exactly once for a task that is complete,
      whether inline or deferred; for a pending task it calls nothing now. */
  lemma FinallyCallsCleanupOnce(task: Task, next: Cleanup)
    ensures task.IsCompleted() ==> Finally(task, next).calls == 1
    ensures task.IsCompleted() ==> FinallyCompleted(task, next).calls == 1
    ensures task.Pending? ==> Finally(task, next) == Dispatched(Pending, 0)
  {
  }

  /** A cleanup that does not throw leaves the outcome as it was: faulted
      with the same errors, canceled, or completed. */
  lemma FinallyPreservesOutcome(task: Task)
    requires task.IsCompleted()
    ensures Finally(task, Completes).task == task
    ensures FinallyCompleted(task, Completes).task == task
  {
    if task.Faulted? {
      assert UnwrappedErrors(Aggregate(task.errors)) == task.errors;
    } else if task.RanToCompletion? {
      assert task.result == ();
    }
  }

  /** A cleanup that throws replaces the outcome with a fault carrying the
      cleanup's exception, inline and deferred alike. */
  lemma FinallyCleanupThrowsReplacesOutcome(task: Task, e: Exn)
    requires task.IsCompleted()
    ensures Finally(task, Throws(e)).task == FromError(e)
    ensures FinallyCompleted(task, Throws(e)).task == FromError(e)
  {
  }

  /** With onlyOnSuccess set, RunTaskSynchronously calls the action only when
      the task ran to completion. */
  lemma RunTaskSynchronouslyOnlyOnSuccess(task: Task, next: Cleanup)
    requires task.IsCompleted()
    ensures RunTaskSynchronously(task, next, true).calls == (if task.RanToCompletion? then 1 else 0)
    ensures task.IsFailed() ==> RunTaskSynchronously(task, next, true).task == task
  {
    if task.Faulted? {
      assert UnwrappedErrors(Aggregate(task.errors)) == task.errors;
    }
  }

  /** Unwrapping flattens exactly one level: an aggregate nested inside an
      aggregate stays an aggregate. */
  lemma UnwrapFlattensOneLevel(inner: seq<Exn>)
    ensures FromError<()>(Aggregate([Aggregate(inner)])).errors == [Aggregate(inner)]
    ensures FromError<()>(Aggregate(inner)).errors == inner
  {
  }

  // ---------------------------------------------------------------------
  // The write-once TaskCompletionSource and the two continuations that set it

  /** TaskCompletionSource<T>: a pending task that can be set exactly once. */
  class CompletionSource<T> {
    var task: TaskOf<T>

    constructor ()
      ensures task.Pending?
    {
      task := Pending;
    }

    method TrySetResult(value: T) returns (ok: bool)
      modifies this
      ensures ok == old(task).Pending?
      ensures task == if ok then RanToCompletion(value) else old(task)
    {
      ok := task.Pending?;
      if ok {
        task := RanToCompletion(value);
      }
    }

    method TrySetException(errors: seq<Exn>) returns (ok: bool)
      modifies this
      ensures ok == old(task).Pending?
      ensures task == if ok then Faulted(errors) else old(task)
    {
      ok := task.Pending?;
      if ok {
        task := Faulted(errors);
      }
    }

    method TrySetCanceled() returns (ok: bool)
      modifies this
      ensures ok == old(task).Pending?
      ensures task == if ok then Canceled else old(task)
    {
      ok := task.Pending?;
      if ok {
        task := Canceled;
      }
    }

    /** TrySetUnwrappedException: store an aggregate's inner exceptions, or
        any other exception alone. */
    method TrySetUnwrappedException(e: Exn) returns (ok: bool)
      modifies this
      ensures ok == old(task).Pending?
      ensures task == if ok then FromError(e) else old(task)
    {
      if e.Aggregate? {
        ok := TrySetException(e.inner);
      } else {
        ok := TrySetException([e]);
      }
    }
  }

  /** The continuation body of TaskRunners.RunTask, run once `task` has
      completed, on the completion source RunTask created. */
  method RunTaskContinuation(tcs: CompletionSource<Task>, task: Task, successor: Invocation)
    returns (calls: nat)
    requires tcs.task.Pending? && task.IsCompleted()
    modifies tcs
    ensures tcs.task == RunTask(task, successor).task
    ensures calls == RunTask(task, successor).calls
  {
    calls := 0;
    var ok: bool;
    if task.Faulted? {
      ok := tcs.TrySetUnwrappedException(Aggregate(task.errors));
    } else if task.Canceled? {
      ok := tcs.TrySetCanceled();
    } else {
      calls := 1;
      match successor
      case Returned(t, _) =>
        ok := tcs.TrySetResult(t);
      case Threw(e) =>
        ok := tcs.TrySetUnwrappedException(e);
    }
  }

  /** The continuation body of RunTaskSynchronously, run once `task` has
      completed. A throwing `next` skips the first store and lands in the
      catch block, which stores the cleanup's exception instead. */
  method RunTaskSynchronouslyContinuation(tcs: CompletionSource<()>, task: Task, next: Cleanup, onlyOnSuccess: bool)
    returns (calls: nat)
    requires tcs.task.Pending? && task.IsCompleted()
    modifies tcs
    ensures tcs.task == RunTaskSynchronously(task, next, onlyOnSuccess).task
    ensures calls == RunTaskSynchronously(task, next, onlyOnSuccess).calls
  {
    calls := 0;
    var ok: bool;
    var thrown := false;
    if task.Faulted? {
      if !onlyOnSuccess {
        calls := 1;
        thrown := next.Throws?;
      }
      if !thrown {
        ok := tcs.TrySetUnwrappedException(Aggregate(task.errors));
      }
    } else if task.Canceled? {
      if !onlyOnSuccess {
        calls := 1;
        thrown := next.Throws?;
      }
      if !thrown {
        ok := tcs.TrySetCanceled();
      }
    } else {
      calls := 1;
      thrown := next.Throws?;
      if !thrown {
        ok := tcs.TrySetResult(());
      }
    }
    if thrown {
      ok := tcs.TrySetUnwrappedException(next.error);
    }
  }
}
