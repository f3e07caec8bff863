/**
 * Stand-ins for the parts of the Sentry Go SDK that the middleware touches.
 * Sampling, identifier generation, the header wire format and the export of
 * finished spans belong to the SDK and are not part of this model: a span here
 * records only what the middleware hands it and what the middleware later sets
 * on it.
 */
module Sentry {

  /**
   * The span statuses of the SDK that the middleware deals with. `Undefined` is
   * the SDK's zero value, the status of a span nobody has set; the classifier
   * produces each of the other thirteen.
   */
  datatype SpanStatus =
    | Undefined
    | OK
    | PermissionDenied
    | NotFound
    | ResourceExhausted
    | FailedPrecondition
    | Unauthenticated
    | AlreadyExists
    | InvalidArgument
    | DeadlineExceeded
    | Unimplemented
    | Unavailable
    | InternalError
    | Unknown

  /** The two trace-context strings carried in headers: the trace identifier and the baggage. */
  datatype TraceHeaders = TraceHeaders(sentryTrace: string, baggage: string)

  /** Where a span hangs in a trace. */
  datatype Origin =
    | ContinuedFrom(headers: TraceHeaders)  // a transaction continuing the trace these headers describe ("" for a fresh trace)
    | ChildOf(parent: Span)                 // a child span nested under another span
    | Detached                              // a span nested under nothing

  class Span {
    /** The transaction name or, for other spans, the operation label. */
    const op: string
    const origin: Origin
    var status: SpanStatus
    var finished: bool
    /** The status the span carried when Finish handed it to the SDK. */
    var reportedStatus: SpanStatus

    /** A transaction, as `sentry.StartTransaction(ctx, name, sentry.ContinueFromHeaders(trace, baggage))` starts it. */
    constructor StartTransaction(name: string, from: TraceHeaders)
      ensures op == name && origin == ContinuedFrom(from)
      ensures status == Undefined && !finished
    {
      op := name;
      origin := ContinuedFrom(from);
      status := Undefined;
      finished := false;
      reportedStatus := Undefined;
    }

    /** A child of `parent`, as `parent.StartChild(op)` starts it. */
    constructor StartChild(parent: Span, op: string)
      ensures this.op == op && origin == ChildOf(parent)
      ensures status == Undefined && !finished
    {
      this.op := op;
      origin := ChildOf(parent);
      status := Undefined;
      finished := false;
      reportedStatus := Undefined;
    }

    /** A span with no parent, as `sentry.StartSpan(ctx, op)` starts it when the context holds no span. */
    constructor StartSpan(op: string)
      ensures this.op == op && origin == Detached
      ensures status == Undefined && !finished
    {
      this.op := op;
      origin := Detached;
      status := Undefined;
      finished := false;
      reportedStatus := Undefined;
    }

    /** Marks the span finished and hands it, with its current status, to the SDK. */
    method Finish()
      modifies this
      ensures finished && reportedStatus == status
      ensures status == old(status)
    {
      finished := true;
      reportedStatus := status;
    }
  }
}
