# Remote EJB tracing plugin — a Dafny model

This project models the decision logic of a tracing plugin for remote
Enterprise JavaBean calls between a client and a WildFly server:

- the **header carrier adapter** `MapTextHeaderAccessor`, a text-header view
  over an invocation's borrowed, mutable attachment map (`HeaderCarrier`);
- the **client advice** around an outgoing invocation, which starts a child
  span `Call <View>#<method>` of the active span and finalises it on exit
  (`RemoteEjbClientAdvice`);
- the **server advice** around an inbound invocation, which starts a
  `request` transaction `<View>#<method>` with framework `EJB` from the
  remote parent in the attachments and finalises it on exit
  (`RemoteEjbServerAdvice`);
- the **destination advice**, which records the resolved host, port and
  service resource on the active span (`RemoteEjbClientDestinationAdvice`).

The tracing API is an abstract record (`TracingApi`): each call the advices
make only writes the fields it names (name, type, framework, outcome,
captured exceptions, ended flag, destination fields; a scope's closed flag).
The attachment map is a heap object (`AttachmentMap`) that the accessor holds
by reference, so a header added through the accessor is visible through the
caller's own reference. A stored value is a string, null, or another object;
looking up a non-string object is the cast failure of the Java code.

Inputs the code gets from reflection, the thread-local context or the URI
parser are parameters: the view's simple name, the method name, the current
span or transaction (a `Span` also stands for the active transaction, which
`currentSpan()` returns when no span is active), the destination host and port, and the id the tracing
API gives a new span. Both exit advices run their tracing calls in a `try`
block and close the scope in `finally`; a `fault` parameter names the tracing
call that throws, if any, and the model shows that the later calls are
skipped while the scope is still closed (`AdviceExit.Completed`). The
`suppressed` result says whether the advice swallowed an exception.

The service resource `host + ":" + port` uses Java's decimal rendering of an
`int` (`JavaInt.IntToString`); its contract says the text after the host and
the colon is a numeral without leading zero that reads back as the port, and two destinations with positive ports
share a service resource only when they are equal.

The client enter advice modelled here does not inject propagation headers
into the call's attachments and does not use `MapTextHeaderAccessor`; the
server enter advice uses it to read the remote parent. The accessor is also a
header injector (`addHeader`), but the code that injects the client's headers
is not part of this model.

## Model

| member | source | states |
|---|---|---|
| JavaInt.Decimal | plugin/src/main/java/co/elastic/apm/agent/wildfly_remote_ejb/RemoteEJBClientDestinationAdvice.java:42 | the numeral of a natural number is non-empty, all digits, has a leading zero only for 0, and has one digit exactly below 10 |
| JavaInt.ParseDecimalInvertsDecimal | plugin/src/main/java/co/elastic/apm/agent/wildfly_remote_ejb/RemoteEJBClientDestinationAdvice.java:42 | reading a rendered numeral back gives the original number |
| JavaInt.DecimalInjective | plugin/src/main/java/co/elastic/apm/agent/wildfly_remote_ejb/RemoteEJBClientDestinationAdvice.java:42 | different numbers render as different numerals |
| JavaInt.IntToString | plugin/src/main/java/co/elastic/apm/agent/wildfly_remote_ejb/RemoteEJBClientDestinationAdvice.java:42 | a non-negative int renders as digits that read back as it; a negative one as `-` followed by digits that read back as its magnitude; never empty, `0` for zero and otherwise with no leading zero, so the text is the canonical numeral |
| HeaderCarrier.AttachmentMap.Empty | plugin/src/test/java/co/elastic/apm/agent/wildfly_remote_ejb/MapTextHeaderAccessorTest.java:48 | a new carrier map has no entries |
| HeaderCarrier.AttachmentMap.Get | plugin/src/main/java/co/elastic/apm/agent/wildfly_remote_ejb/MapTextHeaderAccessor.java:33 | `get` returns a value exactly when the key is present, and then the stored one |
| HeaderCarrier.AttachmentMap.Put | plugin/src/main/java/co/elastic/apm/agent/wildfly_remote_ejb/MapTextHeaderAccessor.java:38 | `put` maps the key to the value and leaves every other key as it was |
| HeaderCarrier.FirstHeader | plugin/src/main/java/co/elastic/apm/agent/wildfly_remote_ejb/MapTextHeaderAccessor.java:32-34 | the lookup is null exactly when the key is absent or mapped to null, the stored text exactly when a string is stored, and a cast failure exactly when another object is stored |
| HeaderCarrier.LookupIgnoresOtherKeys | plugin/src/test/java/co/elastic/apm/agent/wildfly_remote_ejb/MapTextHeaderAccessorTest.java:47-56 | storing under any other key does not change the lookup of a header |
| HeaderCarrier.LookupAfterStore | plugin/src/main/java/co/elastic/apm/agent/wildfly_remote_ejb/MapTextHeaderAccessor.java:32-39 | after storing a string under a name, the lookup of that name is that string, whatever was stored before |
| HeaderCarrier.MapTextHeaderAccessor.constructor | plugin/src/main/java/co/elastic/apm/agent/wildfly_remote_ejb/MapTextHeaderAccessor.java:27-29 | the accessor holds the caller's map object itself, not a copy |
| HeaderCarrier.MapTextHeaderAccessor.GetFirstHeader | plugin/src/main/java/co/elastic/apm/agent/wildfly_remote_ejb/MapTextHeaderAccessor.java:32-34 | the result is the lookup of the name in the carrier's current entries (null for a missing key, no error), and the carrier is not modified |
| HeaderCarrier.MapTextHeaderAccessor.AddHeader | plugin/src/main/java/co/elastic/apm/agent/wildfly_remote_ejb/MapTextHeaderAccessor.java:37-39 | the shared carrier maps the name to the value, overwriting, every other key's lookup is unchanged, and the header reads back as the value |
| HeaderCarrier.LookupInEmptyCarrier | plugin/src/test/java/co/elastic/apm/agent/wildfly_remote_ejb/MapTextHeaderAccessorTest.java:33-37 | a lookup in an empty carrier is null |
| HeaderCarrier.LookupInSingleEntryCarrier | plugin/src/test/java/co/elastic/apm/agent/wildfly_remote_ejb/MapTextHeaderAccessorTest.java:40-44 | a lookup in a carrier holding one header gives its value |
| HeaderCarrier.LookupAmongOtherEntries | plugin/src/test/java/co/elastic/apm/agent/wildfly_remote_ejb/MapTextHeaderAccessorTest.java:47-56 | a lookup among unrelated entries gives the header's own value |
| HeaderCarrier.AddHeaderWritesThrough | plugin/src/test/java/co/elastic/apm/agent/wildfly_remote_ejb/MapTextHeaderAccessorTest.java:59-66 | a header added through the accessor is found through the caller's own map reference |
| HeaderCarrier.AddThenGetFirstHeader | plugin/src/main/java/co/elastic/apm/agent/wildfly_remote_ejb/MapTextHeaderAccessor.java:32-39 | adding a header and then reading it through the same accessor yields the written value |
| TracingApi.Span.constructor | plugin/src/main/java/co/elastic/apm/agent/wildfly_remote_ejb/RemoteEJBClientAdvice.java:37 | a span created by `startSpan` carries its id and classification and has no name, outcome, exception, end or destination yet |
| TracingApi.Span.StartSpan | plugin/src/main/java/co/elastic/apm/agent/wildfly_remote_ejb/RemoteEJBClientAdvice.java:37 | `startSpan` gives a fresh child of this span with the given type, subtype and action |
| TracingApi.Span.SetName | plugin/src/main/java/co/elastic/apm/agent/wildfly_remote_ejb/RemoteEJBClientAdvice.java:38 | sets the name and nothing else |
| TracingApi.Span.SetOutcome | plugin/src/main/java/co/elastic/apm/agent/wildfly_remote_ejb/RemoteEJBClientAdvice.java:53-55 | sets the outcome and nothing else |
| TracingApi.Span.CaptureException | plugin/src/main/java/co/elastic/apm/agent/wildfly_remote_ejb/RemoteEJBClientAdvice.java:52 | appends the exception to the captured ones and changes nothing else |
| TracingApi.Span.End | plugin/src/main/java/co/elastic/apm/agent/wildfly_remote_ejb/RemoteEJBClientAdvice.java:57 | marks the span ended and changes nothing else |
| TracingApi.Span.SetDestinationAddress | plugin/src/main/java/co/elastic/apm/agent/wildfly_remote_ejb/RemoteEJBClientDestinationAdvice.java:39 | sets the destination address and port and nothing else |
| TracingApi.Span.SetDestinationService | plugin/src/main/java/co/elastic/apm/agent/wildfly_remote_ejb/RemoteEJBClientDestinationAdvice.java:41-45 | sets the destination service resource and nothing else |
| TracingApi.Span.Activate | plugin/src/main/java/co/elastic/apm/agent/wildfly_remote_ejb/RemoteEJBClientAdvice.java:40 | gives a fresh open scope belonging to this span |
| TracingApi.Transaction.WithRemoteParent | plugin/src/main/java/co/elastic/apm/agent/wildfly_remote_ejb/RemoteEJBServerAdvice.java:32 | a transaction started from a header extractor records that extractor and has no type, name, framework, outcome, exception or end yet |
| TracingApi.Transaction.SetType | plugin/src/main/java/co/elastic/apm/agent/wildfly_remote_ejb/RemoteEJBServerAdvice.java:33 | sets the type and nothing else |
| TracingApi.Transaction.SetName | plugin/src/main/java/co/elastic/apm/agent/wildfly_remote_ejb/RemoteEJBServerAdvice.java:34 | sets the name and nothing else |
| TracingApi.Transaction.SetFrameworkName | plugin/src/main/java/co/elastic/apm/agent/wildfly_remote_ejb/RemoteEJBServerAdvice.java:35 | sets the framework name and nothing else |
| TracingApi.Transaction.SetOutcome | plugin/src/main/java/co/elastic/apm/agent/wildfly_remote_ejb/RemoteEJBServerAdvice.java:48-50 | sets the outcome and nothing else |
| TracingApi.Transaction.CaptureException | plugin/src/main/java/co/elastic/apm/agent/wildfly_remote_ejb/RemoteEJBServerAdvice.java:47 | appends the exception to the captured ones and changes nothing else |
| TracingApi.Transaction.End | plugin/src/main/java/co/elastic/apm/agent/wildfly_remote_ejb/RemoteEJBServerAdvice.java:52 | marks the transaction ended and changes nothing else |
| TracingApi.Transaction.Activate | plugin/src/main/java/co/elastic/apm/agent/wildfly_remote_ejb/RemoteEJBServerAdvice.java:39 | gives a fresh open scope belonging to this transaction |
| TracingApi.Scope.constructor | plugin/src/main/java/co/elastic/apm/agent/wildfly_remote_ejb/RemoteEJBServerAdvice.java:39 | a new scope is open and belongs to what it activated |
| TracingApi.Scope.Close | plugin/src/main/java/co/elastic/apm/agent/wildfly_remote_ejb/RemoteEJBClientAdvice.java:59 | closes the scope |
| AdviceExit.OutcomeFor | plugin/src/main/java/co/elastic/apm/agent/wildfly_remote_ejb/RemoteEJBClientAdvice.java:51-56 | the outcome is FAILURE exactly when a throwable was passed and SUCCESS exactly when none was |
| AdviceExit.Plan | plugin/src/main/java/co/elastic/apm/agent/wildfly_remote_ejb/RemoteEJBClientAdvice.java:51-57 | the try block captures the exception exactly when one was thrown and then first, always sets the outcome and ends last, each call once |
| AdviceExit.Completed | plugin/src/main/java/co/elastic/apm/agent/wildfly_remote_ejb/RemoteEJBClientAdvice.java:49-60 | the calls that complete are the plan's prefix before the throwing call: all of it without a fault, never the throwing call itself |
| AdviceExit.EndFollowsOutcomeAndCapture | plugin/src/main/java/co/elastic/apm/agent/wildfly_remote_ejb/RemoteEJBClientAdvice.java:51-57 | whenever the end call completed, the outcome was set and any exception captured before it, so the whole try block ran |
| RemoteEjbClientAdvice.OnEnterInvoke | plugin/src/main/java/co/elastic/apm/agent/wildfly_remote_ejb/RemoteEJBClientAdvice.java:31-41 | returns null exactly when the current span has an empty id, touching nothing; otherwise the open scope of a fresh child span named `Call <view>#<method>` with type external/ejb/call and nothing else set |
| RemoteEjbClientAdvice.OnExitInvoke | plugin/src/main/java/co/elastic/apm/agent/wildfly_remote_ejb/RemoteEJBClientAdvice.java:44-61 | a null sentinel changes nothing; otherwise the scope is closed on every path, the exception is captured only if thrown, the outcome follows the throwable, the span ends, each only if no earlier tracing call threw, and an exception is suppressed exactly when one did |
| RemoteEjbClientAdvice.TracedCall | plugin/src/main/java/co/elastic/apm/agent/wildfly_remote_ejb/RemoteEJBClientAdvice.java:30-61 | without an active span no span is created; otherwise exactly one fresh child span named `Call <view>#<method>`, ended, with the outcome and captured exception given by the throwable |
| RemoteEjbServerAdvice.OnEnterInvokeMethod | plugin/src/main/java/co/elastic/apm/agent/wildfly_remote_ejb/RemoteEJBServerAdvice.java:31-40 | always returns the open scope of a fresh transaction of type `request`, named `<view>#<method>`, framework `EJB`, whose remote parent is read through an accessor over the invocation's own attachment map |
| RemoteEjbServerAdvice.OnExitInvokeMethod | plugin/src/main/java/co/elastic/apm/agent/wildfly_remote_ejb/RemoteEJBServerAdvice.java:43-56 | a non-null scope is closed on every path; the exception is captured only if thrown, the outcome follows the throwable and the transaction ends, each only if no earlier tracing call threw; an exception is suppressed exactly when a tracing call threw or the scope was null |
| RemoteEjbServerAdvice.TracedDispatch | plugin/src/main/java/co/elastic/apm/agent/wildfly_remote_ejb/RemoteEJBServerAdvice.java:30-56 | one inbound call yields one fresh ended `request` transaction named `<view>#<method>` with framework `EJB` and the outcome and captured exception given by the throwable |
| RemoteEjbClientDestinationAdvice.ServiceResource | plugin/src/main/java/co/elastic/apm/agent/wildfly_remote_ejb/RemoteEJBClientDestinationAdvice.java:41-45 | the resource is the host alone exactly when the port is not positive; otherwise the host, a colon and digits with no leading zero that read back as the port |
| RemoteEjbClientDestinationAdvice.ServiceResourceInjective | plugin/src/main/java/co/elastic/apm/agent/wildfly_remote_ejb/RemoteEJBClientDestinationAdvice.java:41-45 | two destinations with positive ports have the same service resource only if host and port are equal |
| RemoteEjbClientDestinationAdvice.OnExitSendRequestInitial | plugin/src/main/java/co/elastic/apm/agent/wildfly_remote_ejb/RemoteEJBClientDestinationAdvice.java:28-46 | with an empty current span id or a null destination the span is unchanged; otherwise its address and port are the destination's, unchanged, and exactly one service resource is set, by the rule above |

## Left out

- Bytecode weaving and the instrumentation matchers (`RemoteEJBServerInstrumentation` and the client instrumentations): they select the intercepted methods and carry no decision logic. The `suppress = Throwable.class` semantics appears only as the `suppressed` result of the exit advices.
- Reflection and JDK helpers (`getSimpleName`, `Method.getName`, `AtomicReference.get`, `URI` parsing): their results are parameters.
- URI.getHost() returning null: the host is taken as a non-null string; Java would then render the service resource with the text `null`.
- The tracing API's internals: trace-context header format, ID generation (a new span's id is a parameter), sampling, what `activate()` does to thread-local state, and what `end()` reports. `currentSpan()` and `currentTransaction()` are parameters.
- A `close()` that throws in the `finally` block of either exit advice: the `fault` parameter covers only the tracing calls of the `try` block.
- Faults in the enter advices: if `startSpan`, a setter or `activate()` threw, the suppressed exception would make enter yield null; the model takes those calls as returning normally. The server exit advice's null-scope case is modelled.
- Null header names or values passed to `addHeader`, and the `UnsupportedOperationException` an immutable carrier map (such as `emptyMap()`) would throw on `put`.
- The debug console line printed by the server enter advice (console I/O with no tracing meaning).
- Concurrency: each call is single-threaded and call-scoped, and nothing synchronises.
- The integration test's container orchestration, mock collector and JSON parsing; its asserted names, types and outcomes are reflected in the contracts of the enter and exit advices only.
