# ginsentrytracing, modelled in Dafny

A model of the gin middleware that wraps every HTTP request in a Sentry
transaction. It has four parts:

- the classifier `FromHTTPStatusToSentryStatus`, which maps any integer
  response status to one of thirteen Sentry span statuses;
- the configuration, `Option`: two extractor functions that read the
  trace id and the baggage from a request, built by running the overrides
  passed to `AttachSpan`, in order, over the defaults;
- the handler `AttachSpan` returns (`HandleRequest` here). It names the
  transaction `method_route`, starts it from the extracted trace context,
  stores it in the request context, writes the `sentry-trace` and `baggage`
  response headers, runs the rest of the chain, classifies the final status
  onto the transaction and finishes it;
- `StartSpanFromGinContext`, which returns a child of the stored
  transaction, or a detached span when none is stored.

Files:

- `ginsentrytracing.dfy` (module `GinSentryTracing`): the library itself.
- `sentry.dfy` (module `Sentry`): stand-ins for the SDK values it uses.
  These are the span statuses and the `Span` class with its three ways of
  starting a span and `Finish`.
- `gin.dfy` (module `Gin`): stand-ins for the framework. The request is a
  value: method, raw path, matched route and headers. The request context
  is a class holding the keys, the response headers, the response status
  and a ghost trail of the steps taken on it.
- `wrappers.dfy` (module `Wrappers`): `Maybe`.

The classifier follows the code on negative codes. A negative code passes
the test `code < 400` (ginsentrytracing.go:22), so it maps to `OK`, not to
`Unknown` as a reading of the ranges alone might suggest. `Unknown` is the
status of exactly the codes from 600 up.

## Model

| member | source | states |
|---|---|---|
| `GinSentryTracing.FromHTTPStatusToSentryStatus` | ginsentrytracing.go:21-56 | Every integer gets a status, never `Undefined`. The result is OK exactly when code < 400, negative codes included. It is one of the seven client-error statuses exactly when 400 <= code < 500, and one of the four server-error statuses exactly when 500 <= code < 600. It is Unknown exactly when code >= 600. So the four ranges are exhaustive and disjoint. |
| `GinSentryTracing.ClientErrorTable` | ginsentrytracing.go:25-38 | 403, 404, 429, 413, 401 and 409 map to PermissionDenied, NotFound, ResourceExhausted, FailedPrecondition, Unauthenticated and AlreadyExists. |
| `GinSentryTracing.ClientErrorDefault` | ginsentrytracing.go:25-42 | InvalidArgument is the status of exactly the codes in [400, 500) other than the six table codes. |
| `GinSentryTracing.ServerErrorTable` | ginsentrytracing.go:43-50 | 504, 501 and 503 map to DeadlineExceeded, Unimplemented and Unavailable. |
| `GinSentryTracing.ServerErrorDefault` | ginsentrytracing.go:43-54 | InternalError is the status of exactly the codes in [500, 600) other than 501, 503 and 504. |
| `GinSentryTracing.TableEntriesAreOneToOne` | ginsentrytracing.go:25-53 | The inverse table `TableCode` is exact: each of the nine statuses with a fixed entry comes from its own code and from no other integer. |
| `GinSentryTracing.NoOverridesReadHeaders` | ginsentrytracing.go:63-68 | With no overrides, the trace-id extractor returns the `sentry-trace` header and the baggage extractor returns the `baggage` header, whatever the case spelling of the name. |
| `GinSentryTracing.FoldAppend` | ginsentrytracing.go:74-76 | Running two lists of overrides one after the other is the same as running their concatenation. |
| `GinSentryTracing.UntouchedFieldKeepsInitial` | ginsentrytracing.go:63-76 | An extractor that no override replaces keeps its default. |
| `GinSentryTracing.LastOverrideWins` | ginsentrytracing.go:74-76 | When overrides replace an extractor, the last one to do so decides it. |
| `GinSentryTracing.Option.NewDefaultOption` | ginsentrytracing.go:63-68 | A new option holds the default extractors. |
| `GinSentryTracing.Option.Apply` | ginsentrytracing.go:70 | An override replaces the extractors it names and leaves the others. |
| `GinSentryTracing.AttachSpan` | ginsentrytracing.go:72-77 | The option the handler uses is fresh and equals the defaults with every override run on them in order. The loop invariant keeps it equal to the fold of the overrides run so far. |
| `GinSentryTracing.TransactionNameInjective` | ginsentrytracing.go:79 | The transaction name is method, `_`, route pattern. Two requests get the same name exactly when method and route pattern agree, whatever their raw paths and headers. This holds for methods without `_`. |
| `GinSentryTracing.HandleRequest` | ginsentrytracing.go:78-89 | The transaction is fresh and is named by `TransactionName`. It continues from the trace id and baggage the configured extractors read. It is stored under `_sentry_gin_span` and is what the accessor finds there. The two response headers carry the `serialised` values the SDK gives for the transaction. The steps come in order: store, write both headers, run the chain. After the chain the transaction's status is the classifier applied to the final response status. It is finished with that status. |
| `GinSentryTracing.StartSpanFromGinContext` | ginsentrytracing.go:92-98 | The span is fresh, labelled `op` and unfinished. It is a child of the stored transaction when a non-nil span is stored under the key. It is detached when the key is missing, holds something other than a span, or holds a nil span. |
| `Sentry.Span.StartTransaction` | ginsentrytracing.go:82 | A new transaction has the given name, continues from the given trace headers, has status Undefined and is unfinished. |
| `Sentry.Span.StartChild` | ginsentrytracing.go:95 | A new child span is nested under its parent and labelled `op`. |
| `Sentry.Span.StartSpan` | ginsentrytracing.go:97 | A new span started this way is detached and labelled `op`. |
| `Sentry.Span.Finish` | ginsentrytracing.go:88 | Finishing reports the span with the status it holds at that moment. |
| `Gin.GetHeaderIgnoresCase` | ginsentrytracing.go:65-66 | Header lookups do not depend on the ASCII case of the name. |
| `Gin.Context.Set` | ginsentrytracing.go:83 | Storing a key updates that key only: a later `Value` of that key finds the stored value, and every other key reads as before. The step is recorded. |
| `Gin.Context.SetHeader` | ginsentrytracing.go:84-85 | Setting a response header updates that (case-folded) header only and records the step. |
| `Gin.Context.Next` | ginsentrytracing.go:86 | Running the rest of the chain leaves its final response status and records the step. |

## Left out

- Sentry SDK internals are not modelled. This covers sampling, trace and
  span identifiers, the wire format of `ContinueFromHeaders`, `ToSentryTrace`
  and `ToBaggage`, and export on `Finish`. A transaction only records the
  trace-context strings it was continued from. The two serialised header
  values are a parameter of `HandleRequest`.
- The request's Go context is not modelled. `StartTransaction` receives it
  for cancellation. `sentry.StartSpan` may itself find a parent span in it,
  whereas the model treats that span as detached.
- gin's `ctx.Value` falls back to the request's Go context for keys it does
  not hold. That fallback is not modelled.
- The rest of the handler chain (`Next`) is reduced to the response status it
  leaves. Handlers that rewrite the stored key or the response headers are
  not modelled. A handler that panics would leave the transaction
  unfinished, and that is not modelled either: the model's chain always
  returns.
- Extractors are modelled as functions of the request value. In Go they
  receive the whole `*gin.Context`, so they could also read its keys or route
  parameters, and an override could set one to nil, which would panic on the
  next request. Neither is modelled.
- Go option closures (`func(*Option)`) are modelled as replacing the trace-id
  extractor, the baggage extractor, both or neither. A closure that reads the
  current extractors to build a new one is not modelled.
- Header names are case-folded to ASCII lower case. net/http uses its
  canonical MIME spelling instead, which gives the same lookups. Multi-valued
  headers are reduced to one value.
- The SDK's statuses that the classifier never produces (Canceled, Aborted,
  OutOfRange, DataLoss and others) are omitted. `Undefined` is kept because it
  is a new span's status.
- Go's `int` is 64 bits wide while the model's `int` is unbounded. The
  classifier only compares codes, so the results agree on every 64-bit value.
- `_example/simple/main.go` is not part of this model. It is a demo program
  that initialises the SDK, sleeps and serves over the network.
- Concurrency between requests is not modelled. Each request has its own
  `Context` object, and the library has no shared state of its own.
