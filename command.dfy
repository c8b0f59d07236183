/**
  `ko.command` and `ko.asyncCommand`: an execute delegate guarded by a
  `canExecute` check, and its asynchronous variant that stays busy from the
  moment it starts until the delegate calls back.

  The user's delegates are abstract. `E` stands for whatever view-model state a
  `canExecute` delegate reads; the execute delegate is not run, the model
  records each call made to it together with the arguments it receives.
 */
module Command {
  import opened Wrappers

  /** `ko.command`. */
  datatype Command<!E> = Command(canExecuteDelegate: Option<E -> bool>) {

    /** The computed `canExecute`: the delegate's answer, or true when there is no delegate. */
    function CanExecute(env: E): (r: bool)
      ensures canExecuteDelegate.None? ==> r
      ensures canExecuteDelegate.Some? ==> var f := canExecuteDelegate.value; r == f(env)
    {
      match canExecuteDelegate
      case None => true
      case Some(f) => f(env)
    }

    /**
      `execute(arg1, arg2)`: the calls it makes to the execute delegate. There is
      exactly one, with `(arg1, arg2)`, when `canExecute` holds, and none otherwise.
     */
    function Execute<A>(env: E, arg1: A, arg2: A): (calls: seq<(A, A)>)
      ensures |calls| <= 1
      ensures calls == [] <==> !CanExecute(env)
      ensures forall k :: 0 <= k < |calls| ==> calls[k] == (arg1, arg2)
    {
      if !CanExecute(env) then [] else [(arg1, arg2)]
    }
  }

  /** An argument passed to an asynchronous execute delegate: one of the caller's, or the completion callback. */
  datatype Arg<A> = Value(value: A) | CompleteCallback

  /**
    The argument list an execute delegate declaring `arity` parameters receives:
    `arg1` when it takes at least two, `arg2` when it takes at least three, and
    always the completion callback last.
   */
  function ArgList<A>(arity: nat, arg1: A, arg2: A): (args: seq<Arg<A>>)
    ensures |args| == 1 + (if arity >= 2 then 1 else 0) + (if arity >= 3 then 1 else 0)
    ensures args[|args| - 1] == CompleteCallback
    ensures forall k :: 0 <= k < |args| - 1 ==> args[k].Value?
    ensures arity >= 2 ==> args[0] == Value(arg1)
    ensures arity >= 3 ==> args[1] == Value(arg2)
  {
    (if arity >= 2 then [Value(arg1)] else [])
    + (if arity >= 3 then [Value(arg2)] else [])
    + [CompleteCallback]
  }

  /** One call to the execute delegate: its arguments, and whether the command was busy when the call was made. */
  datatype Invocation<A> = Invocation(args: seq<Arg<A>>, executingAtCall: bool)

  /** `ko.asyncCommand`. */
  class AsyncCommand<E, A> {
    var isExecuting: bool
    /** The calls made to the execute delegate so far, oldest first. */
    var invocations: seq<Invocation<A>>

    const canExecuteDelegate: Option<(E, bool) -> bool>
    /** The number of parameters the execute delegate declares (its `length`). */
    const arity: nat

    constructor (canExecuteDelegate: Option<(E, bool) -> bool>, arity: nat)
      ensures !isExecuting && invocations == []
      ensures this.canExecuteDelegate == canExecuteDelegate && this.arity == arity
    {
      isExecuting := false;
      invocations := [];
      this.canExecuteDelegate := canExecuteDelegate;
      this.arity := arity;
    }

    /** The computed `canExecute`: the delegate given the busy flag, or "not busy" when there is no delegate. */
    function CanExecute(env: E): (r: bool)
      reads this
      ensures canExecuteDelegate.None? ==> r == !isExecuting
      ensures canExecuteDelegate.Some? ==> var f := canExecuteDelegate.value; r == f(env, isExecuting)
    {
      match canExecuteDelegate
      case None => !isExecuting
      case Some(f) => f(env, isExecuting)
    }

    /**
      `execute(arg1, arg2)`: when `canExecute` refuses, nothing happens; otherwise
      the command becomes busy and then calls the delegate once with `ArgList`.
     */
    method Execute(env: E, arg1: A, arg2: A)
      modifies this
      ensures old(CanExecute(env)) ==>
        && isExecuting
        && invocations == old(invocations) + [Invocation(ArgList(arity, arg1, arg2), true)]
      ensures !old(CanExecute(env)) ==>
        isExecuting == old(isExecuting) && invocations == old(invocations)
      ensures canExecuteDelegate.None? && old(isExecuting) ==>
        isExecuting && invocations == old(invocations)
    {
      if !CanExecute(env) {
        return;
      }
      var args: seq<Arg<A>> := [];
      if arity >= 2 {
        args := args + [Value(arg1)];
      }
      if arity >= 3 {
        args := args + [Value(arg2)];
      }
      args := args + [CompleteCallback];
      assert args == ArgList(arity, arg1, arg2);
      isExecuting := true;
      invocations := invocations + [Invocation(args, isExecuting)];
    }

    /** The completion callback: the command is no longer busy, and nothing else changes. */
    method Complete()
      modifies this
      ensures !isExecuting
      ensures invocations == old(invocations)
    {
      isExecuting := false;
    }
  }

  /**
    Without a `canExecute` delegate an asynchronous command runs once, refuses
    while it is busy, and runs again after its callback.
   */
  method BusyScenario<E, A>(env: E, a: A, b: A)
  {
    var c := new AsyncCommand<E, A>(None, 3);
    assert ArgList(3, a, b) == [Value(a), Value(b), CompleteCallback];
    assert ArgList(3, b, a) == [Value(b), Value(a), CompleteCallback];
    c.Execute(env, a, b);
    assert c.invocations == [Invocation([Value(a), Value(b), CompleteCallback], true)];
    c.Execute(env, b, a);
    assert |c.invocations| == 1;
    c.Complete();
    c.Execute(env, b, a);
    assert |c.invocations| == 2 && c.invocations[1].args == [Value(b), Value(a), CompleteCallback];
  }
}
