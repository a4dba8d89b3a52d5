/**
 * The client-side advice around a remote EJB invocation: enter starts a
 * child span of the active span, exit records the outcome, ends the span and
 * closes its scope in a `finally`.
 */
module RemoteEjbClientAdvice {
  import opened Wrappers
  import opened TracingApi
  import opened AdviceExit

  /**
   * `onEnterInvoke`. `parent` is what `currentSpan()` returns: the active span,
   * or the active transaction when no span is active, or a no-op span with an
   * empty id when nothing is. `viewSimpleName` and `methodName` are the simple
   * name of the located view type and the invoked method's name; `childId` is
   * the id the tracing API gives the new span. Returns null when nothing is
   * active, and the new span's scope otherwise.
   */
  method OnEnterInvoke(parent: Span, viewSimpleName: string, methodName: string, childId: string)
    returns (scopeOrNull: Scope?)
    ensures parent.id == "" <==> scopeOrNull == null
    ensures scopeOrNull != null ==>
      && fresh(scopeOrNull) && !scopeOrNull.closed
      && scopeOrNull.transaction == null && scopeOrNull.span != null && fresh(scopeOrNull.span)
      && var span := scopeOrNull.span;
      && span.id == childId && span.parentId == parent.id
      && span.name == "Call " + viewSimpleName + "#" + methodName
      && span.spanType == "external" && span.subtype == "ejb" && span.action == "call"
      && span.outcome == Unknown && span.captured == [] && !span.ended
      && span.destinationAddress == None && span.destinationPort == None && span.destinationService == None
  {
    if parent.id == "" {
      return null;
    }
    var span := parent.StartSpan(childId, "external", "ejb", "call");
    span.SetName("Call " + viewSimpleName + "#" + methodName);
    scopeOrNull := span.Activate();
  }

  /**
   * `onExitInvoke`. `current` is the current span at exit, `thrown` what the
   * intercepted call threw, and `fault` the tracing call that throws, if one
   * does. `suppressed` tells whether the advice swallowed an exception.
   */
  method OnExitInvoke(scopeOrNull: Scope?, thrown: Option<Throwable>, current: Span, fault: Option<Step>)
    returns (suppressed: bool)
    modifies current`captured, current`outcome, current`ended, scopeOrNull
    ensures scopeOrNull == null ==> unchanged(current) && !suppressed
    ensures scopeOrNull != null ==>
      && var done := Completed(Plan(thrown), fault);
      && scopeOrNull.closed
      && current.captured == old(current.captured) + (if CaptureException in done && thrown.Some? then [thrown.value] else [])
      && current.outcome == (if SetOutcome in done then OutcomeFor(thrown) else old(current.outcome))
      && current.ended == (old(current.ended) || End in done)
      && suppressed == (done != Plan(thrown))
  {
    if scopeOrNull == null {
      return false;
    }
    suppressed := false;
    label try: {
      if thrown.Some? {
        if fault == Some(CaptureException) { suppressed := true; break try; }
        current.CaptureException(thrown.value);
        if fault == Some(SetOutcome) { suppressed := true; break try; }
        current.SetOutcome(Failure);
      } else {
        if fault == Some(SetOutcome) { suppressed := true; break try; }
        current.SetOutcome(Success);
      }
      if fault == Some(End) { suppressed := true; break try; }
      current.End();
    }
    // finally
    scopeOrNull.Close();
  }

  /**
   * One traced remote call without faults: enter, the call itself (which
   * throws `thrown` or returns), then exit while the new span is current.
   */
  method TracedCall(parent: Span, viewSimpleName: string, methodName: string, childId: string, thrown: Option<Throwable>)
    returns (span: Span?)
    ensures parent.id == "" <==> span == null
    ensures span != null ==>
      && fresh(span) && span.parentId == parent.id
      && span.name == "Call " + viewSimpleName + "#" + methodName
      && span.outcome == OutcomeFor(thrown)
      && span.captured == (if thrown.Some? then [thrown.value] else [])
      && span.ended
  {
    var scope := OnEnterInvoke(parent, viewSimpleName, methodName, childId);
    if scope == null {
      return null;
    }
    span := scope.span;
    var suppressed := OnExitInvoke(scope, thrown, span, None);
  }
}
