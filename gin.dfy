/**
 * The slice of the gin web framework that the middleware uses, reduced to
 * values: the inbound request's method, matched route and headers, the
 * per-request key/value store, the response headers and the response status.
 * Routing, the handler chain and the network are not part of this model.
 */
module Gin {
  import opened Wrappers
  import opened Sentry

  /** ASCII lower-casing of one character. */
  function LowerChar(c: char): char
  {
    if 'A' <= c <= 'Z' then (c as int + 32) as char else c
  }

  /**
   * The key under which a header is stored: header names are compared without
   * regard to ASCII case (net/http keeps them in one canonical spelling; this
   * model keeps them lower-cased).
   */
  function Lower(s: string): (r: string)
    ensures |r| == |s|
    ensures forall i :: 0 <= i < |r| ==> !('A' <= r[i] <= 'Z')
  {
    seq(|s|, i requires 0 <= i < |s| => LowerChar(s[i]))
  }

  /** Lower-casing a name already in lower case leaves it as it is. */
  lemma LowerIdempotent(s: string)
    ensures Lower(Lower(s)) == Lower(s)
  {
  }

  /** Header values keyed by lower-cased name, one spelling per header as net/http stores them. */
  type HeaderMap = m: map<string, string> | forall k :: k in m ==> Lower(k) == k
    witness map[]

  /**
   * An inbound request: its HTTP method, its raw URL path, the route pattern it
   * matched (`FullPath`, "" when no route matched) and its headers, keyed by
   * lower-cased name.
   */
  datatype Request = Request(httpMethod: string, path: string, fullPath: string, headers: HeaderMap)

  /** `GetHeader`: the value of the named header, "" when the request has none. */
  function GetHeader(r: Request, name: string): string
  {
    if Lower(name) in r.headers then r.headers[Lower(name)] else ""
  }

  lemma GetHeaderIgnoresCase(r: Request, a: string, b: string)
    requires Lower(a) == Lower(b)
    ensures GetHeader(r, a) == GetHeader(r, b)
  {
  }

  /** A value stored in the per-request keys: a `*sentry.Span` (possibly nil) or anything else. */
  datatype KeyValue = SpanValue(span: Span?) | OtherValue

  /** One observable step the middleware takes on the request context, in order. */
  datatype Step =
    | StoredKey(key: string)
    | WroteHeader(name: string, value: string)
    | RanNext

  /** The per-request context (`*gin.Context`). */
  class Context {
    const request: Request
    var keys: map<string, KeyValue>
    var responseHeaders: map<string, string>
    /** The response status, `Writer.Status()`. */
    var status: int
    /** The steps taken on this context so far. */
    ghost var trail: seq<Step>

    /** A fresh context for `request`: no keys, no response headers, status 200. */
    constructor (request: Request)
      ensures this.request == request
      ensures keys == map[] && responseHeaders == map[] && status == 200 && trail == []
    {
      this.request := request;
      keys := map[];
      responseHeaders := map[];
      status := 200;
      trail := [];
    }

    /** `ctx.Set(key, value)`. */
    method Set(key: string, value: KeyValue)
      modifies this
      ensures keys == old(keys)[key := value]
      ensures Value(key) == Just(value)
      ensures forall k :: k != key ==> Value(k) == old(Value(k))
      ensures responseHeaders == old(responseHeaders) && status == old(status)
      ensures trail == old(trail) + [StoredKey(key)]
    {
      keys := keys[key := value];
      trail := trail + [StoredKey(key)];
    }

    /** `ctx.Value(key)` for a string key: the stored value, if any. */
    function Value(key: string): Maybe<KeyValue>
      reads this
    {
      if key in keys then Just(keys[key]) else Nothing
    }

    /** `ctx.Writer.Header().Set(name, value)`. */
    method SetHeader(name: string, value: string)
      modifies this
      ensures responseHeaders == old(responseHeaders)[Lower(name) := value]
      ensures keys == old(keys) && status == old(status)
      ensures trail == old(trail) + [WroteHeader(name, value)]
    {
      responseHeaders := responseHeaders[Lower(name) := value];
      trail := trail + [WroteHeader(name, value)];
    }

    /**
     * `ctx.Next()`: runs the rest of the handler chain, which leaves
     * `finalStatus` as the response status.
     */
    method Next(finalStatus: int)
      modifies this
      ensures status == finalStatus
      ensures keys == old(keys) && responseHeaders == old(responseHeaders)
      ensures trail == old(trail) + [RanNext]
    {
      status := finalStatus;
      trail := trail + [RanNext];
    }
  }
}
