/** `raw_annotate_span` (annotations.py lines 65-77): decorate the caller's
    attributes and emit one `annotation` record under the given traceparent.
    The emission is returned as a record instead of being sent to a backend. */
module Annotations {
  import opened Results
  import opened Text
  import opened Attributes
  import opened Decorations

  /** The keys the emitter reserves for the message text and the record kind.
      They are defined outside this model. The proofs rely only on these
      facts: the two keys differ, neither begins with the letter `x` (so
      neither can start with `x-random-`), and neither equals a
      `logfire.feedback.*` key. */
  const MessageKey := "logfire.msg"
  const SpanTypeKey := "logfire.span_type"

  const AnnotationKind := "annotation"

  /** The scope suffix of the emitter used for annotations. */
  const Scope := "feedback"

  /** A Python exception: a failed `assert`, or a keyword argument supplied
      twice to the emitter. */
  datatype Error = AssertionFailed(reason: string) | DuplicateKeyword(key: string)

  /** One `info` record: scope, parent traceparent, span name, attributes. */
  datatype Emission = Emission(scope: string, parent: string, spanName: string, attributes: Attrs)

  /** The two keyword arguments `raw_annotate_span` adds to every record. */
  function ReservedLayer(message: string): (r: Attrs)
    ensures r.Keys == {MessageKey, SpanTypeKey}
  {
    map[MessageKey := Str(message), SpanTypeKey := Str(AnnotationKind)]
  }

  /** `{**attributes, **_random_attrs()}`: the caller's keys plus the
      decorations, a decoration taking precedence on a shared key. */
  function Decorate(randomize: bool, d: Draws, attributes: Attrs): (r: Attrs)
    requires d.Valid()
    ensures r.Keys == attributes.Keys + RandomAttrs(randomize, d).Keys
    ensures forall k :: k in r && !StartsWith(k, Prefix) ==> k in attributes && r[k] == attributes[k]
  {
    attributes + RandomAttrs(randomize, d)
  }

  /** `raw_annotate_span`. Passing the decorated attributes together with the
      two reserved keyword arguments raises when either reserved key is
      already among them; otherwise one record is emitted. */
  function RawAnnotateSpan(randomize: bool, d: Draws, traceparent: string, spanName: string,
                           message: string, attributes: Attrs): (r: Result<Emission, Error>)
    requires d.Valid()
    ensures r.Success? <==> MessageKey !in attributes && SpanTypeKey !in attributes
    ensures r.Failure? ==> r.error == DuplicateKeyword(if MessageKey in attributes then MessageKey else SpanTypeKey)
    ensures r.Success? ==>
      && r.value.scope == Scope
      && r.value.parent == traceparent
      && r.value.spanName == spanName
      && r.value.attributes.Keys == attributes.Keys + RandomAttrs(randomize, d).Keys + {MessageKey, SpanTypeKey}
      && r.value.attributes[MessageKey] == Str(message)
      && r.value.attributes[SpanTypeKey] == Str(AnnotationKind)
  {
    FirstCharRulesOutPrefix(MessageKey, Prefix);
    FirstCharRulesOutPrefix(SpanTypeKey, Prefix);
    var decorated := Decorate(randomize, d, attributes);
    if MessageKey in decorated then Failure(DuplicateKeyword(MessageKey))
    else if SpanTypeKey in decorated then Failure(DuplicateKeyword(SpanTypeKey))
    else Success(Emission(Scope, traceparent, spanName, decorated + ReservedLayer(message)))
  }

  /** The emitted attributes are the caller's, then the decorations, then the
      reserved pair, each layer overriding the one before. */
  lemma AnnotateLayers(randomize: bool, d: Draws, traceparent: string, spanName: string,
                       message: string, attributes: Attrs)
    requires d.Valid()
    requires MessageKey !in attributes && SpanTypeKey !in attributes
    ensures RawAnnotateSpan(randomize, d, traceparent, spanName, message, attributes).value.attributes
         == Overlay([attributes, RandomAttrs(randomize, d), ReservedLayer(message)])
  {
    OverlayThree(attributes, RandomAttrs(randomize, d), ReservedLayer(message));
  }

  /** Every caller key reaches the record. Its value survives unless a
      decoration shares the key, in which case the decoration wins: the merge
      is not non-destructive for caller keys that carry the `x-random-` prefix. */
  lemma AnnotateKeepsCallerKeys(randomize: bool, d: Draws, traceparent: string, spanName: string,
                                message: string, attributes: Attrs, k: string)
    requires d.Valid()
    requires MessageKey !in attributes && SpanTypeKey !in attributes
    requires k in attributes
    ensures var out := RawAnnotateSpan(randomize, d, traceparent, spanName, message, attributes).value.attributes;
      && k in out
      && (k !in RandomAttrs(randomize, d) ==> out[k] == attributes[k])
      && (k in RandomAttrs(randomize, d) ==> out[k] == RandomAttrs(randomize, d)[k])
  {
    var decorations := RandomAttrs(randomize, d);
    var layers := [attributes, decorations, ReservedLayer(message)];
    AnnotateLayers(randomize, d, traceparent, spanName, message, attributes);
    assert k !in layers[2];
    if k in decorations {
      OverlayLastWriter(layers, k, 1);
    } else {
      OverlayLastWriter(layers, k, 0);
    }
  }

  /** Every decoration key reaches the record with the decoration's value,
      whether or not the caller supplied that key. */
  lemma AnnotateDecorationWins(randomize: bool, d: Draws, traceparent: string, spanName: string,
                               message: string, attributes: Attrs, k: string)
    requires d.Valid()
    requires MessageKey !in attributes && SpanTypeKey !in attributes
    requires k in RandomAttrs(randomize, d)
    ensures var out := RawAnnotateSpan(randomize, d, traceparent, spanName, message, attributes).value.attributes;
      k in out && out[k] == RandomAttrs(randomize, d)[k]
  {
    var layers := [attributes, RandomAttrs(randomize, d), ReservedLayer(message)];
    AnnotateLayers(randomize, d, traceparent, spanName, message, attributes);
    FirstCharRulesOutPrefix(MessageKey, Prefix);
    FirstCharRulesOutPrefix(SpanTypeKey, Prefix);
    assert k !in layers[2];
    OverlayLastWriter(layers, k, 1);
  }

  /** With randomization off the record carries exactly the caller's
      attributes plus the reserved pair. */
  lemma AnnotateUndecorated(d: Draws, traceparent: string, spanName: string,
                            message: string, attributes: Attrs)
    requires d.Valid()
    requires MessageKey !in attributes && SpanTypeKey !in attributes
    ensures RawAnnotateSpan(false, d, traceparent, spanName, message, attributes)
         == Success(Emission(Scope, traceparent, spanName, attributes + ReservedLayer(message)))
    ensures RawAnnotateSpan(false, d, traceparent, spanName, message, attributes).value.attributes
            - {MessageKey, SpanTypeKey} == attributes
  {
    assert Decorate(false, d, attributes) == attributes;
    var out := attributes + ReservedLayer(message);
    assert out - {MessageKey, SpanTypeKey} == attributes;
  }

  /** A caller value under a decoration key is replaced by the draw. */
  lemma DecorationOverridesCaller(d: Draws)
    requires d.Valid()
    ensures var out := RawAnnotateSpan(true, d, "", "note", "note", map[PowerKey := Int(0)]);
      out.Success? && out.value.attributes[PowerKey] == Int(d.power) != Int(0)
  {
    AnnotateKeepsCallerKeys(true, d, "", "note", "note", map[PowerKey := Int(0)], PowerKey);
  }
}
