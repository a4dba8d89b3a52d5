/**
 * What the client and server exit advices share: the outcome rule and the
 * order of the tracing calls in their `try` block, which stops at the first
 * call that throws, before the `finally` closes the scope.
 */
module AdviceExit {
  import opened Wrappers
  import opened TracingApi

  /** One tracing call of an exit advice's `try` block. */
  datatype Step = CaptureException | SetOutcome | End

  /** FAILURE exactly when the intercepted call threw, SUCCESS exactly when it returned. */
  function OutcomeFor(thrown: Option<Throwable>): (o: Outcome)
    ensures o == Failure <==> thrown.Some?
    ensures o == Success <==> thrown.None?
  {
    if thrown.Some? then Failure else Success
  }

  /** The tracing calls of the `try` block, in program order. */
  function Plan(thrown: Option<Throwable>): (p: seq<Step>)
    ensures CaptureException in p <==> thrown.Some?
    ensures SetOutcome in p && End in p && p[|p| - 1] == End
    ensures thrown.Some? ==> p[0] == CaptureException
    ensures forall i, j :: 0 <= i < j < |p| ==> p[i] != p[j]
  {
    (if thrown.Some? then [CaptureException] else []) + [SetOutcome, End]
  }

  /**
   * The calls of `plan` that return normally when `fault` (if any) is the
   * one that throws: the part of the plan before the faulty call.
   */
  function Completed(plan: seq<Step>, fault: Option<Step>): (done: seq<Step>)
    ensures |done| <= |plan| && done == plan[..|done|]
    ensures fault.None? || fault.value !in plan ==> done == plan
    ensures fault.Some? && fault.value in plan ==> |done| < |plan| && plan[|done|] == fault.value
    ensures fault.Some? ==> fault.value !in done
  {
    if plan == [] then []
    else if fault == Some(plan[0]) then []
    else [plan[0]] + Completed(plan[1..], fault)
  }

  /**
   * A span or transaction is ended only after its outcome was set and any
   * exception captured: a fault never leaves it ended without them.
   */
  lemma EndFollowsOutcomeAndCapture(thrown: Option<Throwable>, fault: Option<Step>)
    ensures var done := Completed(Plan(thrown), fault);
      End in done ==> SetOutcome in done && (thrown.Some? ==> CaptureException in done) && done == Plan(thrown)
  {
  }
}
