/**
 * The gin middleware that wraps every request in a Sentry transaction:
 * the HTTP-status classifier, the option overrides, the per-request handler
 * that AttachSpan returns, and the child-span accessor.
 */
module GinSentryTracing {
  import opened Wrappers
  import opened Sentry
  import opened Gin

  const TransactionKey := "_sentry_gin_span"
  const SentryTraceHeader := "sentry-trace"
  const SentryBaggageHeader := "baggage"

  // The net/http status codes the classifier names (section 15 of RFC 9110;
  // 429 is from section 4 of RFC 6585).
  const StatusBadRequest := 400
  const StatusUnauthorized := 401
  const StatusForbidden := 403
  const StatusNotFound := 404
  const StatusConflict := 409
  const StatusRequestEntityTooLarge := 413
  const StatusTooManyRequests := 429
  const StatusInternalServerError := 500
  const StatusNotImplemented := 501
  const StatusServiceUnavailable := 503
  const StatusGatewayTimeout := 504

  /** The statuses a client-error code (400 to 499) can be mapped to. */
  const ClientErrorStatuses: set<SpanStatus> :=
    {PermissionDenied, NotFound, ResourceExhausted, FailedPrecondition, Unauthenticated, AlreadyExists, InvalidArgument}

  /** The statuses a server-error code (500 to 599) can be mapped to. */
  const ServerErrorStatuses: set<SpanStatus> :=
    {DeadlineExceeded, Unimplemented, Unavailable, InternalError}

  /* ---------------------------------------------------------------------- */
  /* Status classifier                                                      */
  /* ---------------------------------------------------------------------- */

  /**
   * The span status for an HTTP response status. Every integer is accepted;
   * the integer line splits into four ranges, each yielding its own statuses,
   * so the range a code lies in is determined by its status and vice versa.
   */
  function FromHTTPStatusToSentryStatus(code: int): (r: SpanStatus)
    ensures r != Undefined
    ensures r == OK <==> code < StatusBadRequest
    ensures r in ClientErrorStatuses <==> StatusBadRequest <= code < StatusInternalServerError
    ensures r in ServerErrorStatuses <==> StatusInternalServerError <= code < 600
    ensures r == Unknown <==> 600 <= code
  {
    if code < StatusBadRequest then
      OK
    else if StatusBadRequest <= code < StatusInternalServerError then
      if code == StatusForbidden then PermissionDenied
      else if code == StatusNotFound then NotFound
      else if code == StatusTooManyRequests then ResourceExhausted
      else if code == StatusRequestEntityTooLarge then FailedPrecondition
      else if code == StatusUnauthorized then Unauthenticated
      else if code == StatusConflict then AlreadyExists
      else InvalidArgument
    else if StatusInternalServerError <= code < 600 then
      if code == StatusGatewayTimeout then DeadlineExceeded
      else if code == StatusNotImplemented then Unimplemented
      else if code == StatusServiceUnavailable then Unavailable
      else InternalError
    else
      Unknown
  }

  /** The fixed client-error entries. */
  lemma ClientErrorTable()
    ensures FromHTTPStatusToSentryStatus(403) == PermissionDenied
    ensures FromHTTPStatusToSentryStatus(404) == NotFound
    ensures FromHTTPStatusToSentryStatus(429) == ResourceExhausted
    ensures FromHTTPStatusToSentryStatus(413) == FailedPrecondition
    ensures FromHTTPStatusToSentryStatus(401) == Unauthenticated
    ensures FromHTTPStatusToSentryStatus(409) == AlreadyExists
  {
  }

  /** InvalidArgument is the status of exactly the client-error codes without a table entry. */
  lemma ClientErrorDefault(code: int)
    ensures FromHTTPStatusToSentryStatus(code) == InvalidArgument
        <==> StatusBadRequest <= code < StatusInternalServerError
             && code !in {StatusUnauthorized, StatusForbidden, StatusNotFound,
                          StatusConflict, StatusRequestEntityTooLarge, StatusTooManyRequests}
  {
  }

  /** The fixed server-error entries. */
  lemma ServerErrorTable()
    ensures FromHTTPStatusToSentryStatus(504) == DeadlineExceeded
    ensures FromHTTPStatusToSentryStatus(501) == Unimplemented
    ensures FromHTTPStatusToSentryStatus(503) == Unavailable
  {
  }

  /** InternalError is the status of exactly the server-error codes without a table entry. */
  lemma ServerErrorDefault(code: int)
    ensures FromHTTPStatusToSentryStatus(code) == InternalError
        <==> StatusInternalServerError <= code < 600
             && code !in {StatusNotImplemented, StatusServiceUnavailable, StatusGatewayTimeout}
  {
  }

  /**
   * The inverse of the fixed entries of the table: the one code that each of
   * the nine statuses with a table entry comes from.
   */
  function TableCode(s: SpanStatus): Maybe<int>
  {
    match s
    case PermissionDenied => Just(StatusForbidden)
    case NotFound => Just(StatusNotFound)
    case ResourceExhausted => Just(StatusTooManyRequests)
    case FailedPrecondition => Just(StatusRequestEntityTooLarge)
    case Unauthenticated => Just(StatusUnauthorized)
    case AlreadyExists => Just(StatusConflict)
    case DeadlineExceeded => Just(StatusGatewayTimeout)
    case Unimplemented => Just(StatusNotImplemented)
    case Unavailable => Just(StatusServiceUnavailable)
    case _ => Nothing
  }

  /** The fixed entries are one-to-one: such a status comes from its own code and from no other. */
  lemma TableEntriesAreOneToOne(code: int, s: SpanStatus)
    requires TableCode(s).Just?
    ensures FromHTTPStatusToSentryStatus(code) == s <==> code == TableCode(s).value
  {
  }

  /* ---------------------------------------------------------------------- */
  /* Options                                                                */
  /* ---------------------------------------------------------------------- */

  /** A function that reads one trace-context string from a request. */
  type Extractor = Request -> string

  /** Which of the two extractors. */
  datatype Field = TraceIDField | BaggageField

  /** The pair of extractors an Option holds. */
  datatype Extractors = Extractors(traceID: Extractor, baggage: Extractor)
  {
    function Get(f: Field): Extractor
    {
      match f
      case TraceIDField => traceID
      case BaggageField => baggage
    }
  }

  /**
   * An option override: it replaces the trace-id extractor, the baggage
   * extractor, both or neither.
   */
  datatype Override = Override(traceID: Maybe<Extractor>, baggage: Maybe<Extractor>)
  {
    function For(f: Field): Maybe<Extractor>
    {
      match f
      case TraceIDField => traceID
      case BaggageField => baggage
    }
  }

  /** The defaults: read the `sentry-trace` and the `baggage` header. */
  function DefaultExtractors(): Extractors
  {
    Extractors(r => GetHeader(r, SentryTraceHeader), r => GetHeader(r, SentryBaggageHeader))
  }

  /** The extractors after one override. */
  function ApplyOverride(e: Extractors, o: Override): Extractors
  {
    Extractors(
      if o.traceID.Just? then o.traceID.value else e.traceID,
      if o.baggage.Just? then o.baggage.value else e.baggage)
  }

  /** The extractors after the overrides, applied in order from the first. */
  function Fold(init: Extractors, overrides: seq<Override>): Extractors
    decreases |overrides|
  {
    if overrides == [] then init
    else ApplyOverride(Fold(init, overrides[..|overrides| - 1]), overrides[|overrides| - 1])
  }

  /** With no overrides, the extractors read the two well-known headers, in any case spelling. */
  lemma NoOverridesReadHeaders(r: Request, traceName: string, baggageName: string)
    requires Lower(traceName) == SentryTraceHeader && Lower(baggageName) == SentryBaggageHeader
    ensures Fold(DefaultExtractors(), []).traceID(r) == GetHeader(r, traceName)
    ensures Fold(DefaultExtractors(), []).baggage(r) == GetHeader(r, baggageName)
  {
    assert Lower(SentryTraceHeader) == SentryTraceHeader by { LowerIdempotent(traceName); }
    assert Lower(SentryBaggageHeader) == SentryBaggageHeader by { LowerIdempotent(baggageName); }
  }

  /** Applying two lists of overrides one after the other is applying their concatenation. */
  lemma {:induction false} FoldAppend(init: Extractors, a: seq<Override>, b: seq<Override>)
    ensures Fold(init, a + b) == Fold(Fold(init, a), b)
    decreases |b|
  {
    if b == [] {
      assert a + b == a;
    } else {
      var n := |b| - 1;
      assert (a + b)[..|a + b| - 1] == a + b[..n];
      assert (a + b)[|a + b| - 1] == b[n];
      FoldAppend(init, a, b[..n]);
    }
  }

  /** A field no override touches keeps its initial extractor. */
  lemma {:induction false} UntouchedFieldKeepsInitial(init: Extractors, overrides: seq<Override>, f: Field)
    requires forall j :: 0 <= j < |overrides| ==> overrides[j].For(f).Nothing?
    ensures Fold(init, overrides).Get(f) == init.Get(f)
    decreases |overrides|
  {
    if overrides != [] {
      UntouchedFieldKeepsInitial(init, overrides[..|overrides| - 1], f);
    }
  }

  /** The last override that touches a field decides it. */
  lemma {:induction false} LastOverrideWins(init: Extractors, overrides: seq<Override>, f: Field, i: nat)
    requires i < |overrides| && overrides[i].For(f).Just?
    requires forall j :: i < j < |overrides| ==> overrides[j].For(f).Nothing?
    ensures Fold(init, overrides).Get(f) == overrides[i].For(f).value
    decreases |overrides|
  {
    var n := |overrides| - 1;
    if i < n {
      LastOverrideWins(init, overrides[..n], f, i);
    }
  }

  /** The middleware's configuration (`*Option`), updated in place by the overrides. */
  class Option {
    var getTraceIDFromRequest: Extractor
    var getBaggageFromRequest: Extractor

    function Current(): Extractors
      reads this
    {
      Extractors(getTraceIDFromRequest, getBaggageFromRequest)
    }

    constructor NewDefaultOption()
      ensures Current() == DefaultExtractors()
    {
      var d := DefaultExtractors();
      getTraceIDFromRequest := d.traceID;
      getBaggageFromRequest := d.baggage;
    }

    /** Runs one override on this option. */
    method Apply(o: Override)
      modifies this
      ensures Current() == ApplyOverride(old(Current()), o)
    {
      if o.traceID.Just? {
        getTraceIDFromRequest := o.traceID.value;
      }
      if o.baggage.Just? {
        getBaggageFromRequest := o.baggage.value;
      }
    }
  }

  /* ---------------------------------------------------------------------- */
  /* Middleware                                                             */
  /* ---------------------------------------------------------------------- */

  /**
   * The configuration AttachSpan builds: the defaults with each override run
   * on them in order. The per-request handler it returns is HandleRequest
   * with this option.
   */
  method AttachSpan(overrides: seq<Override>) returns (opt: Option)
    ensures fresh(opt)
    ensures opt.Current() == Fold(DefaultExtractors(), overrides)
  {
    opt := new Option.NewDefaultOption();
    var i := 0;
    while i < |overrides|
      invariant 0 <= i <= |overrides|
      invariant opt.Current() == Fold(DefaultExtractors(), overrides[..i])
    {
      assert overrides[..i + 1][..i] == overrides[..i];
      opt.Apply(overrides[i]);
      i := i + 1;
    }
    assert overrides[..i] == overrides;
  }

  /** The transaction name: the HTTP method, `_`, then the matched route pattern. */
  function TransactionName(r: Request): string
  {
    r.httpMethod + "_" + r.fullPath
  }

  /** The character of a transaction name at a position within the method or at the separator. */
  lemma NameCharAt(r: Request, i: nat)
    requires i <= |r.httpMethod|
    ensures TransactionName(r)[i] == if i < |r.httpMethod| then r.httpMethod[i] else '_'
  {
  }

  /**
   * Requests get the same transaction name exactly when they have the same
   * method and route pattern, whatever their raw paths and headers (for
   * methods without `_`, as every standard method is).
   */
  lemma TransactionNameInjective(r1: Request, r2: Request)
    requires '_' !in r1.httpMethod && '_' !in r2.httpMethod
    ensures TransactionName(r1) == TransactionName(r2)
        <==> r1.httpMethod == r2.httpMethod && r1.fullPath == r2.fullPath
  {
    var n1, n2 := TransactionName(r1), TransactionName(r2);
    var m1, m2 := r1.httpMethod, r2.httpMethod;
    if n1 == n2 {
      if |m1| < |m2| {
        NameCharAt(r2, |m1|);
        assert false;
      } else if |m2| < |m1| {
        NameCharAt(r1, |m2|);
        assert false;
      }
      assert m1 == n1[..|m1|] && m2 == n2[..|m2|];
      assert r1.fullPath == n1[|m1| + 1..] && r2.fullPath == n2[|m2| + 1..];
    }
  }

  /** The `.(*sentry.Span)` assertion and nil test: the span stored under a key, or null. */
  function TransactionIn(v: Maybe<KeyValue>): Span?
  {
    if v.Just? && v.value.SpanValue? then v.value.span else null
  }

  /**
   * The handler AttachSpan returns, run on one request. `serialised` is what
   * the SDK's ToSentryTrace and ToBaggage give for the new transaction, and
   * `downstreamStatus` is the response status the rest of the handler chain
   * leaves behind.
   */
  method HandleRequest(opt: Option, ctx: Context, serialised: TraceHeaders, downstreamStatus: int)
    returns (transaction: Span)
    modifies ctx
    ensures fresh(transaction)
    ensures transaction.op == TransactionName(ctx.request)
    ensures transaction.origin == ContinuedFrom(TraceHeaders(
      opt.getTraceIDFromRequest(ctx.request), opt.getBaggageFromRequest(ctx.request)))
    ensures ctx.keys == old(ctx.keys)[TransactionKey := SpanValue(transaction)]
    ensures TransactionIn(ctx.Value(TransactionKey)) == transaction
    ensures ctx.responseHeaders == old(ctx.responseHeaders)
      [Lower(SentryTraceHeader) := serialised.sentryTrace][Lower(SentryBaggageHeader) := serialised.baggage]
    ensures ctx.status == downstreamStatus
    ensures ctx.trail == old(ctx.trail) + [
      StoredKey(TransactionKey),
      WroteHeader(SentryTraceHeader, serialised.sentryTrace),
      WroteHeader(SentryBaggageHeader, serialised.baggage),
      RanNext]
    ensures transaction.status == FromHTTPStatusToSentryStatus(ctx.status)
    ensures transaction.finished && transaction.reportedStatus == FromHTTPStatusToSentryStatus(ctx.status)
  {
    var name := TransactionName(ctx.request);
    var trace := opt.getTraceIDFromRequest(ctx.request);
    var baggage := opt.getBaggageFromRequest(ctx.request);
    transaction := new Span.StartTransaction(name, TraceHeaders(trace, baggage));
    ctx.Set(TransactionKey, SpanValue(transaction));
    ctx.SetHeader(SentryTraceHeader, serialised.sentryTrace);
    ctx.SetHeader(SentryBaggageHeader, serialised.baggage);
    ctx.Next(downstreamStatus);
    transaction.status := FromHTTPStatusToSentryStatus(ctx.status);
    transaction.Finish();
  }

  /**
   * A span for the operation `op`: a child of the transaction stored in the
   * request context when there is a non-nil one, otherwise a detached span.
   */
  method StartSpanFromGinContext(ctx: Context, op: string) returns (span: Span)
    ensures fresh(span)
    ensures span.op == op && span.status == Undefined && !span.finished
    ensures TransactionIn(ctx.Value(TransactionKey)) != null ==>
      span.origin == ChildOf(TransactionIn(ctx.Value(TransactionKey)))
    ensures TransactionIn(ctx.Value(TransactionKey)) == null ==> span.origin == Detached
  {
    var stored := TransactionIn(ctx.Value(TransactionKey));
    if stored != null {
      span := new Span.StartChild(stored, op);
    } else {
      span := new Span.StartSpan(op);
    }
  }
}
