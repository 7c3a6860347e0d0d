/** `get_traceparent` (annotations.py lines 51-62). Building a context from
    the span and injecting it through the W3C Trace Context propagator are
    library calls; they are given as the `inject` parameter, which maps a raw
    span to the carrier the propagator fills in. */
module Traceparent {
  import opened Results
  import opened Annotations

  const TraceparentName := "traceparent"

  /** The two kinds of handle the function accepts: a raw tracing span, or
      Logfire's wrapper, whose inner raw span may be missing. */
  datatype SpanHandle<S> = RawSpan(span: S) | WrappedSpan(inner: Option<S>)

  /** `carrier.get('traceparent', '')`. */
  function CarrierValue(carrier: map<string, string>): (r: string)
    ensures TraceparentName in carrier ==> r == carrier[TraceparentName]
    ensures TraceparentName !in carrier ==> r == ""
  {
    if TraceparentName in carrier then carrier[TraceparentName] else ""
  }

  /** The header value for the handle's raw span; a wrapper without a raw
      span fails its `assert`, and a carrier the propagator left without a
      `traceparent` entry yields the empty string rather than a failure. */
  function GetTraceparent<S>(handle: SpanHandle<S>, inject: S -> map<string, string>): (r: Result<string, Error>)
    ensures r.Failure? <==> handle.WrappedSpan? && handle.inner.None?
    ensures r.Failure? ==> r.error.AssertionFailed?
    ensures r.Success? ==>
      var span := if handle.RawSpan? then handle.span else handle.inner.value;
      r.value == (if TraceparentName in inject(span) then inject(span)[TraceparentName] else "")
  {
    var span :- match handle
      case RawSpan(s) => Success(s)
      case WrappedSpan(inner) =>
        if inner.Some? then Success(inner.value) else Failure(AssertionFailed("real_span"));
    Success(CarrierValue(inject(span)))
  }
}
