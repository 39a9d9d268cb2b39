/**
 * ActionInvokable: the WCF Data Services invokable that runs a service action
 * once and holds its result. The action method, found by reflection and called
 * on marshalled parameters, is outside this model: its outcome is passed in.
 */
module ActionProvider {
  import opened Wrappers
  import opened Exceptions

  const AlreadyInvoked := Error("Invoke not available. This invokable has already been Invoked.")
  const NotInvoked := Error("Results not available. This invokable hasn't been Invoked.")

  /** The DataServiceException(500, ...) every failure of Invoke is turned into. */
  function ExecutionFailure(serviceActionName: string): Exception
  {
    DataService(500, "Exception executing action " + serviceActionName)
  }

  class ActionInvokable {
    /** The name of the ServiceAction, used in the error Invoke raises. */
    const serviceActionName: string
    var hasRun: bool
    var result: object?

    /** A new invokable has not run and holds no result. */
    constructor (serviceActionName: string)
      ensures this.serviceActionName == serviceActionName
      ensures !hasRun && result == null
    {
      this.serviceActionName := serviceActionName;
      hasRun := false;
      result := null;
    }

    /** CaptureResult: the first captured value is kept; a second capture fails and changes nothing. */
    method CaptureResult(o: object?) returns (outcome: Outcome<Exception>)
      modifies this
      ensures hasRun
      ensures old(hasRun) ==> outcome == Fail(AlreadyInvoked) && result == old(result)
      ensures !old(hasRun) ==> outcome == Pass && result == o
    {
      if hasRun {
        return Fail(AlreadyInvoked);
      }
      hasRun := true;
      result := o;
      return Pass;
    }

    /** GetResult: the captured value once the action has run, an error before. */
    method GetResult() returns (r: Result<object?, Exception>)
      ensures r.Success? <==> hasRun
      ensures r.Success? ==> r.value == result
      ensures r.Failure? ==> r.error == NotInvoked
    {
      if !hasRun {
        return Failure(NotInvoked);
      }
      return Success(result);
    }

    /**
     * Invoke: run the action, whose outcome is `invocation`, and capture its
     * value. A failing action and a second run both surface as the same
     * DataServiceException and leave the captured result as it was.
     */
    method Invoke(invocation: Result<object?, Exception>) returns (outcome: Outcome<Exception>)
      modifies this
      ensures outcome.Pass? <==> invocation.Success? && !old(hasRun)
      ensures outcome.Pass? ==> hasRun && result == invocation.value
      ensures outcome.Fail? ==>
        outcome.error == ExecutionFailure(serviceActionName) && hasRun == old(hasRun) && result == old(result)
    {
      if invocation.Failure? {
        return Fail(ExecutionFailure(serviceActionName));
      }
      var captured := CaptureResult(invocation.value);
      if captured.Fail? {
        return Fail(ExecutionFailure(serviceActionName));
      }
      return Pass;
    }
  }

  /**
   * A fresh invokable run twice: the first run's value is the result, the
   * second run fails, and GetResult before any run fails.
   */
  method InvokeTwice(serviceActionName: string, first: object?, second: object?)
      returns (before: Result<object?, Exception>, run1: Outcome<Exception>, run2: Outcome<Exception>, after: Result<object?, Exception>)
    ensures before == Failure(NotInvoked)
    ensures run1 == Pass
    ensures run2 == Fail(ExecutionFailure(serviceActionName))
    ensures after == Success(first)
  {
    var invokable := new ActionInvokable(serviceActionName);
    before := invokable.GetResult();
    run1 := invokable.Invoke(Success(first));
    run2 := invokable.Invoke(Success(second));
    after := invokable.GetResult();
  }
}
