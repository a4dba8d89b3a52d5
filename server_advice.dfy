/**
 * The server-side advice around an inbound remote EJB invocation: enter
 * continues the caller's trace as a transaction, exit records the outcome,
 * ends the transaction and closes its scope in a `finally`.
 */
module RemoteEjbServerAdvice {
  import opened Wrappers
  import opened HeaderCarrier
  import opened TracingApi
  import opened AdviceExit

  /**
   * `onEnterInvokeMethod`. `viewSimpleName` and `methodName` are the simple
   * name of the component's view class and the invoked method's name;
   * `attachments` is the invocation's attachment map, read for the remote
   * parent through an accessor over that same map.
   */
  method OnEnterInvokeMethod(viewSimpleName: string, methodName: string, attachments: AttachmentMap)
    returns (scope: Scope)
    ensures fresh(scope) && !scope.closed && scope.span == null
    ensures scope.transaction != null && fresh(scope.transaction)
    ensures var t := scope.transaction;
      && t.transactionType == "request"
      && t.name == viewSimpleName + "#" + methodName
      && t.frameworkName == "EJB"
      && t.remoteParent.carrier == attachments
      && t.outcome == Unknown && t.captured == [] && !t.ended
  {
    var extractor := new MapTextHeaderAccessor(attachments);
    var transaction := new Transaction.WithRemoteParent(extractor);
    transaction.SetType(TYPE_REQUEST);
    transaction.SetName(viewSimpleName + "#" + methodName);
    transaction.SetFrameworkName("EJB");
    scope := transaction.Activate();
  }

  /**
   * `onExitInvokeMethod`. `current` is the current transaction at exit,
   * `thrown` what the intercepted call threw, `fault` the tracing call that
   * throws, if one does. A null `scope` (the enter advice failed) makes the
   * cast-and-close in `finally` throw, so nothing is closed and the advice
   * suppresses the exception.
   */
  method OnExitInvokeMethod(scope: Scope?, thrown: Option<Throwable>, current: Transaction, fault: Option<Step>)
    returns (suppressed: bool)
    modifies current`captured, current`outcome, current`ended, scope
    ensures var done := Completed(Plan(thrown), fault);
      && (scope != null ==> scope.closed)
      && current.captured == old(current.captured) + (if CaptureException in done && thrown.Some? then [thrown.value] else [])
      && current.outcome == (if SetOutcome in done then OutcomeFor(thrown) else old(current.outcome))
      && current.ended == (old(current.ended) || End in done)
      && suppressed == (done != Plan(thrown) || scope == null)
  {
    suppressed := false;
    label try: {
      if thrown.Some? {
        if fault == Some(CaptureException) { suppressed := true; break try; }
        current.CaptureException(thrown.value);
        if fault == Some(SetOutcome) { suppressed := true; break try; }
        current.SetOutcome(Failure);
      } else {
        if fault == Some(SetOutcome) { suppressed := true; break try; }
        current.SetOutcome(Success);
      }
      if fault == Some(End) { suppressed := true; break try; }
      current.End();
    }
    // finally
    if scope == null {
      suppressed := true;
    } else {
      scope.Close();
    }
  }

  /**
   * One traced inbound call without faults: enter, the business method
   * (which throws `thrown` or returns), then exit while the new transaction
   * is current.
   */
  method TracedDispatch(viewSimpleName: string, methodName: string, attachments: AttachmentMap, thrown: Option<Throwable>)
    returns (transaction: Transaction)
    ensures fresh(transaction)
    ensures transaction.name == viewSimpleName + "#" + methodName
    ensures transaction.transactionType == "request" && transaction.frameworkName == "EJB"
    ensures transaction.outcome == OutcomeFor(thrown)
    ensures transaction.captured == (if thrown.Some? then [thrown.value] else [])
    ensures transaction.ended
  {
    var scope := OnEnterInvokeMethod(viewSimpleName, methodName, attachments);
    transaction := scope.transaction;
    var suppressed := OnExitInvokeMethod(scope, thrown, transaction, None);
  }
}
