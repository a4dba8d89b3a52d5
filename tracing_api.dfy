/**
 * The part of the tracing API the advices use, as an abstract record: every
 * operation only writes the fields it names. ID generation, trace-context
 * parsing, thread-local activation and event reporting are not modelled.
 */
module TracingApi {
  import opened Wrappers
  import opened JavaInt
  import HeaderCarrier

  datatype Outcome = Unknown | Success | Failure

  /** The identity of an exception object passed to `captureException`. */
  datatype Throwable = Throwable(id: nat)

  /** `Transaction.TYPE_REQUEST`. */
  const TYPE_REQUEST: string := "request"

  class Span {
    /** Empty for the no-op span returned when nothing is active. */
    const id: string
    const parentId: string
    const spanType: string
    const subtype: string
    const action: string
    var name: string
    var outcome: Outcome
    /** Every exception captured on this span, in order. */
    var captured: seq<Throwable>
    var ended: bool
    var destinationAddress: Option<string>
    var destinationPort: Option<Int32>
    var destinationService: Option<string>

    /** A span as the tracing API hands it out, before the advice touches it. */
    constructor (id: string, parentId: string, spanType: string, subtype: string, action: string)
      ensures this.id == id && this.parentId == parentId
      ensures this.spanType == spanType && this.subtype == subtype && this.action == action
      ensures name == "" && outcome == Unknown && captured == [] && !ended
      ensures destinationAddress == None && destinationPort == None && destinationService == None
    {
      this.id, this.parentId := id, parentId;
      this.spanType, this.subtype, this.action := spanType, subtype, action;
      name, outcome, captured, ended := "", Unknown, [], false;
      destinationAddress, destinationPort, destinationService := None, None, None;
    }

    /** `startSpan(type, subtype, action)`: a new child of this span; `childId` is the id the API assigns. */
    method StartSpan(childId: string, spanType: string, subtype: string, action: string) returns (child: Span)
      ensures fresh(child)
      ensures child.id == childId && child.parentId == id
      ensures child.spanType == spanType && child.subtype == subtype && child.action == action
      ensures child.name == "" && child.outcome == Unknown && child.captured == [] && !child.ended
      ensures child.destinationAddress == None && child.destinationPort == None && child.destinationService == None
    {
      child := new Span(childId, id, spanType, subtype, action);
    }

    method SetName(n: string)
      modifies this`name
      ensures name == n
    {
      name := n;
    }

    method SetOutcome(o: Outcome)
      modifies this`outcome
      ensures outcome == o
    {
      outcome := o;
    }

    method CaptureException(t: Throwable)
      modifies this`captured
      ensures captured == old(captured) + [t]
    {
      captured := captured + [t];
    }

    method End()
      modifies this`ended
      ensures ended
    {
      ended := true;
    }

    method SetDestinationAddress(address: string, port: Int32)
      modifies this`destinationAddress, this`destinationPort
      ensures destinationAddress == Some(address) && destinationPort == Some(port)
    {
      destinationAddress, destinationPort := Some(address), Some(port);
    }

    method SetDestinationService(resource: string)
      modifies this`destinationService
      ensures destinationService == Some(resource)
    {
      destinationService := Some(resource);
    }

    /** `activate()`: a fresh, open scope for this span. */
    method Activate() returns (scope: Scope)
      ensures fresh(scope) && !scope.closed
      ensures scope.span == this && scope.transaction == null
    {
      scope := new Scope(this, null);
    }
  }

  class Transaction {
    /** The header extractor the transaction's remote parent was read through. */
    const remoteParent: HeaderCarrier.MapTextHeaderAccessor
    var transactionType: string
    var name: string
    var frameworkName: string
    var outcome: Outcome
    var captured: seq<Throwable>
    var ended: bool

    /** `ElasticApm.startTransactionWithRemoteParent(extractor)`. */
    constructor WithRemoteParent(extractor: HeaderCarrier.MapTextHeaderAccessor)
      ensures remoteParent == extractor
      ensures transactionType == "" && name == "" && frameworkName == ""
      ensures outcome == Unknown && captured == [] && !ended
    {
      remoteParent := extractor;
      transactionType, name, frameworkName := "", "", "";
      outcome, captured, ended := Unknown, [], false;
    }

    method SetType(t: string)
      modifies this`transactionType
      ensures transactionType == t
    {
      transactionType := t;
    }

    method SetName(n: string)
      modifies this`name
      ensures name == n
    {
      name := n;
    }

    method SetFrameworkName(f: string)
      modifies this`frameworkName
      ensures frameworkName == f
    {
      frameworkName := f;
    }

    method SetOutcome(o: Outcome)
      modifies this`outcome
      ensures outcome == o
    {
      outcome := o;
    }

    method CaptureException(t: Throwable)
      modifies this`captured
      ensures captured == old(captured) + [t]
    {
      captured := captured + [t];
    }

    method End()
      modifies this`ended
      ensures ended
    {
      ended := true;
    }

    /** `activate()`: a fresh, open scope for this transaction. */
    method Activate() returns (scope: Scope)
      ensures fresh(scope) && !scope.closed
      ensures scope.transaction == this && scope.span == null
    {
      scope := new Scope(null, this);
    }
  }

  /** The scope an `activate()` returns; closing it deactivates what it activated. */
  class Scope {
    const span: Span?
    const transaction: Transaction?
    var closed: bool

    constructor (span: Span?, transaction: Transaction?)
      ensures this.span == span && this.transaction == transaction && !closed
    {
      this.span, this.transaction := span, transaction;
      closed := false;
    }

    method Close()
      modifies this`closed
      ensures closed
    {
      closed := true;
    }
  }
}
