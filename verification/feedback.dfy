/** `record_feedback` (annotations.py lines 80-117): a named evaluation, an
    optional comment and optional extra attributes, assembled into attributes
    the Logfire UI recognises and handed to `raw_annotate_span`. */
module Feedback {
  import opened Results
  import opened Text
  import opened Attributes
  import opened Decorations
  import opened Annotations

  const NameKey := "logfire.feedback.name"
  const CommentKey := "logfire.feedback.comment"
  const FeedbackPrefix := "feedback: "
  const ValueSeparator := " = "

  /** The evaluation's value; its kind tells the UI how to read it. */
  datatype FeedbackValue = IntScore(i: int) | FloatScore(x: real) | Label(s: string) | Assertion(b: bool)

  /** The value as it is stored under the evaluation's own key. */
  function AsAttribute(v: FeedbackValue): (r: Value) {
    match v
    case IntScore(i) => Int(i)
    case FloatScore(x) => Float(x)
    case Label(s) => Str(s)
    case Assertion(b) => Bool(b)
  }

  /** `if comment:` — a comment counts only when it is a non-empty string. */
  predicate HasComment(comment: Option<string>) {
    comment.Some? && comment.value != ""
  }

  /** `if extra:` — extra attributes count only when the dict is non-empty. */
  predicate HasExtra(extra: Option<Attrs>) {
    extra.Some? && extra.value != map[]
  }

  /** The dict literal `{'logfire.feedback.name': name, name: value}`; when
      `name` is the reserved name key itself, the later entry wins. */
  function SeedLayer(name: string, value: FeedbackValue): (r: Attrs)
    ensures r.Keys == {NameKey, name}
    ensures r[name] == AsAttribute(value)
    ensures name != NameKey ==> r[NameKey] == Str(name)
  {
    map[NameKey := Str(name)][name := AsAttribute(value)]
  }

  function ExtraLayer(extra: Option<Attrs>): (r: Attrs) {
    if HasExtra(extra) then extra.value else map[]
  }

  function CommentLayer(comment: Option<string>): (r: Attrs) {
    if HasComment(comment) then map[CommentKey := Str(comment.value)] else map[]
  }

  /** Lines 100-107: the seed, then `extra` (refused when it names the
      evaluation), then the comment. */
  function FeedbackAttributes(name: string, value: FeedbackValue, comment: Option<string>,
                              extra: Option<Attrs>): (r: Result<Attrs, Error>)
    ensures r.Failure? <==> HasExtra(extra) && name in extra.value
    ensures r.Failure? ==> r.error.AssertionFailed?
    ensures r.Success? ==> r.value.Keys == {NameKey, name} + ExtraLayer(extra).Keys + CommentLayer(comment).Keys
  {
    var attributes := SeedLayer(name, value);
    if HasExtra(extra) && name in extra.value then Failure(AssertionFailed("name not in extra"))
    else
      var attributes := if HasExtra(extra) then attributes + extra.value else attributes;
      var attributes := if HasComment(comment) then attributes[CommentKey := Str(comment.value)] else attributes;
      Success(attributes)
  }

  /** The assembled attributes are the seed, `extra` and the comment layered in
      that order: `extra` may overwrite `logfire.feedback.name`, and a
      comment overwrites whatever `extra` put under its key. */
  lemma FeedbackLayers(name: string, value: FeedbackValue, comment: Option<string>, extra: Option<Attrs>)
    requires FeedbackAttributes(name, value, comment, extra).Success?
    ensures FeedbackAttributes(name, value, comment, extra).value
         == Overlay([SeedLayer(name, value), ExtraLayer(extra), CommentLayer(comment)])
  {
    var seed, ex, cm := SeedLayer(name, value), ExtraLayer(extra), CommentLayer(comment);
    OverlayThree(seed, ex, cm);
    if !HasExtra(extra) {
      assert seed + ex == seed;
    }
    if !HasComment(comment) {
      assert seed + ex + cm == seed + ex;
    }
  }

  /** `f'feedback: {name}'`: the name, behind a fixed prefix. */
  function SpanName(name: string): (r: string)
    ensures StartsWith(r, FeedbackPrefix) && r[|FeedbackPrefix|..] == name
  {
    FeedbackPrefix + name
  }

  /** `f'feedback: {name} = {value!r}'`, with `repr` supplied by the caller. */
  function Message(repr: FeedbackValue -> string, name: string, value: FeedbackValue): (r: string)
    ensures StartsWith(r, SpanName(name)) && r[|SpanName(name)|..] == ValueSeparator + repr(value)
  {
    FeedbackPrefix + name + ValueSeparator + repr(value)
  }

  /** A reserved emitter key ends up among the assembled attributes only
      through the evaluation's name or through `extra`. */
  lemma ReservedKeyAssembled(name: string, value: FeedbackValue, comment: Option<string>,
                             extra: Option<Attrs>, k: string)
    requires k == MessageKey || k == SpanTypeKey
    ensures FeedbackAttributes(name, value, comment, extra).Success? ==>
      (k in FeedbackAttributes(name, value, comment, extra).value
       <==> name == k || (HasExtra(extra) && k in extra.value))
  {
    assert k != NameKey && k != CommentKey;
  }

  /** The calls `record_feedback` completes: `extra`, when non-empty, must not
      repeat the evaluation's name, and neither the name nor `extra` may use a
      key the emitter reserves for itself. Equivalently, assembly passes its
      assertion and leaves both reserved keys out of the assembled map, so
      the value and the comment never decide it. */
  predicate Accepted(name: string, value: FeedbackValue, comment: Option<string>, extra: Option<Attrs>): (a: bool)
    ensures a <==>
      var assembled := FeedbackAttributes(name, value, comment, extra);
      assembled.Success? && MessageKey !in assembled.value && SpanTypeKey !in assembled.value
  {
    ReservedKeyAssembled(name, value, comment, extra, MessageKey);
    ReservedKeyAssembled(name, value, comment, extra, SpanTypeKey);
    && !(HasExtra(extra) && name in extra.value)
    && name != MessageKey && name != SpanTypeKey
    && !(HasExtra(extra) && (MessageKey in extra.value || SpanTypeKey in extra.value))
  }

  /** `record_feedback`. `_random_attrs` runs twice — once here (line 110)
      and once inside `raw_annotate_span` — so two sets of draws are taken. */
  function RecordFeedback(randomize: bool, first: Draws, second: Draws, repr: FeedbackValue -> string,
                          traceparent: string, name: string, value: FeedbackValue,
                          comment: Option<string>, extra: Option<Attrs>): (r: Result<Emission, Error>)
    requires first.Valid() && second.Valid()
    ensures r.Failure? && r.error.AssertionFailed? <==> HasExtra(extra) && name in extra.value
    ensures r.Success? <==> Accepted(name, value, comment, extra)
    ensures r.Success? ==>
      && r.value.parent == traceparent
      && StartsWith(r.value.spanName, FeedbackPrefix)
      && r.value.spanName[|FeedbackPrefix|..] == name
      && MessageKey in r.value.attributes
      && r.value.attributes[MessageKey] == Str(Message(repr, name, value))
  {
    match FeedbackAttributes(name, value, comment, extra)
    case Failure(e) => Failure(e)
    case Success(attributes) =>
      ReservedKeyAssembled(name, value, comment, extra, MessageKey);
      ReservedKeyAssembled(name, value, comment, extra, SpanTypeKey);
      var decorated := Decorate(randomize, first, attributes);
      ReservedKeysUnprefixed();
      assert MessageKey in decorated <==> MessageKey in attributes;
      assert SpanTypeKey in decorated <==> SpanTypeKey in attributes;
      RawAnnotateSpan(randomize, second, traceparent, SpanName(name), Message(repr, name, value), decorated)
  }

  /** The record's attributes: the assembled feedback attributes, then the
      first decorations (line 110), then the second (inside
      `raw_annotate_span`), then the reserved pair. */
  lemma FeedbackEmitted(randomize: bool, first: Draws, second: Draws, repr: FeedbackValue -> string,
                        traceparent: string, name: string, value: FeedbackValue,
                        comment: Option<string>, extra: Option<Attrs>)
    requires first.Valid() && second.Valid()
    requires Accepted(name, value, comment, extra)
    ensures var assembled := FeedbackAttributes(name, value, comment, extra);
      && assembled.Success?
      && RecordFeedback(randomize, first, second, repr, traceparent, name, value, comment, extra).value
         == Emission(Scope, traceparent, SpanName(name),
                     assembled.value + RandomAttrs(randomize, first) + RandomAttrs(randomize, second)
                     + ReservedLayer(Message(repr, name, value)))
  {
  }

  /** A non-empty comment is always what the record carries under the comment
      key, whatever `extra` or the evaluation's name put there. */
  lemma FeedbackCommentWins(randomize: bool, first: Draws, second: Draws, repr: FeedbackValue -> string,
                            traceparent: string, name: string, value: FeedbackValue,
                            comment: Option<string>, extra: Option<Attrs>)
    requires first.Valid() && second.Valid()
    requires Accepted(name, value, comment, extra)
    requires HasComment(comment)
    ensures var out := RecordFeedback(randomize, first, second, repr, traceparent, name, value, comment, extra).value.attributes;
      CommentKey in out && out[CommentKey] == Str(comment.value)
  {
    FeedbackEmitted(randomize, first, second, repr, traceparent, name, value, comment, extra);
    FeedbackLayers(name, value, comment, extra);
    var layers := [SeedLayer(name, value), ExtraLayer(extra), CommentLayer(comment)];
    OverlayLastWriter(layers, CommentKey, 2);
    ReservedKeysUnprefixed();
    ProtectedKey(randomize, first, second, Message(repr, name, value), CommentKey);
  }

  /** No key this code reserves, for the emitter or for the feedback UI,
      starts with `x-random-`, so no decoration can take its place. */
  lemma ReservedKeysUnprefixed()
    ensures !StartsWith(MessageKey, Prefix) && !StartsWith(SpanTypeKey, Prefix)
    ensures !StartsWith(NameKey, Prefix) && !StartsWith(CommentKey, Prefix)
  {
    FirstCharRulesOutPrefix(MessageKey, Prefix);
    FirstCharRulesOutPrefix(SpanTypeKey, Prefix);
    FirstCharRulesOutPrefix(NameKey, Prefix);
    FirstCharRulesOutPrefix(CommentKey, Prefix);
  }

  /** Keys without the `x-random-` prefix that are not the emitter's reserved
      keys pass through both decorations and the reserved pair untouched. */
  lemma ProtectedKey(randomize: bool, first: Draws, second: Draws, message: string, k: string)
    requires first.Valid() && second.Valid()
    requires !StartsWith(k, Prefix) && k != MessageKey && k != SpanTypeKey
    ensures k !in RandomAttrs(randomize, first) && k !in RandomAttrs(randomize, second)
    ensures k !in ReservedLayer(message)
  {
  }

  /** `extra` overrides the seed, the reserved name key included, and is
      itself overridden only by a comment or a decoration. */
  lemma FeedbackExtraWins(randomize: bool, first: Draws, second: Draws, repr: FeedbackValue -> string,
                          traceparent: string, name: string, value: FeedbackValue,
                          comment: Option<string>, extra: Option<Attrs>, k: string)
    requires first.Valid() && second.Valid()
    requires Accepted(name, value, comment, extra)
    requires HasExtra(extra) && k in extra.value
    requires !(HasComment(comment) && k == CommentKey)
    requires k !in RandomAttrs(randomize, first) && k !in RandomAttrs(randomize, second)
    ensures var out := RecordFeedback(randomize, first, second, repr, traceparent, name, value, comment, extra).value.attributes;
      k in out && out[k] == extra.value[k]
  {
    FeedbackEmitted(randomize, first, second, repr, traceparent, name, value, comment, extra);
    FeedbackLayers(name, value, comment, extra);
    var layers := [SeedLayer(name, value), ExtraLayer(extra), CommentLayer(comment)];
    OverlayLastWriter(layers, k, 1);
  }

  /** The evaluation's value is recorded under its name unless a comment or a
      decoration took that key (`extra` cannot: it would have been refused). */
  lemma FeedbackValueRecorded(randomize: bool, first: Draws, second: Draws, repr: FeedbackValue -> string,
                              traceparent: string, name: string, value: FeedbackValue,
                              comment: Option<string>, extra: Option<Attrs>)
    requires first.Valid() && second.Valid()
    requires Accepted(name, value, comment, extra)
    requires !(HasComment(comment) && name == CommentKey)
    requires name !in RandomAttrs(randomize, first) && name !in RandomAttrs(randomize, second)
    ensures var out := RecordFeedback(randomize, first, second, repr, traceparent, name, value, comment, extra).value.attributes;
      name in out && out[name] == AsAttribute(value)
  {
    var assembled := FeedbackAttributes(name, value, comment, extra).value;
    assert name in assembled && assembled[name] == AsAttribute(value) by {
      FeedbackLayers(name, value, comment, extra);
      var layers := [SeedLayer(name, value), ExtraLayer(extra), CommentLayer(comment)];
      assert name !in layers[1] && name !in layers[2];
      OverlayLastWriter(layers, name, 0);
    }
    var message := Message(repr, name, value);
    FeedbackEmitted(randomize, first, second, repr, traceparent, name, value, comment, extra);
    assert name !in ReservedLayer(message);
  }

  /** `logfire.feedback.name` holds the evaluation's name unless `extra`
      overwrote it or the evaluation is itself called `logfire.feedback.name`. */
  lemma FeedbackNameRecorded(randomize: bool, first: Draws, second: Draws, repr: FeedbackValue -> string,
                             traceparent: string, name: string, value: FeedbackValue,
                             comment: Option<string>, extra: Option<Attrs>)
    requires first.Valid() && second.Valid()
    requires Accepted(name, value, comment, extra)
    requires name != NameKey
    requires !(HasExtra(extra) && NameKey in extra.value)
    ensures var out := RecordFeedback(randomize, first, second, repr, traceparent, name, value, comment, extra).value.attributes;
      NameKey in out && out[NameKey] == Str(name)
  {
    FeedbackEmitted(randomize, first, second, repr, traceparent, name, value, comment, extra);
    FeedbackLayers(name, value, comment, extra);
    var layers := [SeedLayer(name, value), ExtraLayer(extra), CommentLayer(comment)];
    OverlayLastWriter(layers, NameKey, 0);
    ReservedKeysUnprefixed();
    ProtectedKey(randomize, first, second, Message(repr, name, value), NameKey);
  }

  /** With randomization off the record carries exactly the assembled
      feedback attributes plus the reserved pair. */
  lemma FeedbackUndecorated(first: Draws, second: Draws, repr: FeedbackValue -> string,
                            traceparent: string, name: string, value: FeedbackValue,
                            comment: Option<string>, extra: Option<Attrs>)
    requires first.Valid() && second.Valid()
    requires Accepted(name, value, comment, extra)
    ensures RecordFeedback(false, first, second, repr, traceparent, name, value, comment, extra)
         == Success(Emission(Scope, traceparent, SpanName(name),
                             FeedbackAttributes(name, value, comment, extra).value
                             + ReservedLayer(Message(repr, name, value))))
    ensures RecordFeedback(false, first, second, repr, traceparent, name, value, comment, extra).value.attributes
            - {MessageKey, SpanTypeKey}
         == FeedbackAttributes(name, value, comment, extra).value
  {
    FeedbackEmitted(false, first, second, repr, traceparent, name, value, comment, extra);
    var assembled := FeedbackAttributes(name, value, comment, extra).value;
    var out := assembled + ReservedLayer(Message(repr, name, value));
    assert assembled + map[] + map[] == assembled;
    assert out - {MessageKey, SpanTypeKey} == assembled;
  }

  /** Two rounds of decoration followed by the reserved pair: the second
      round's base values win and the egg key comes from any layer. */
  lemma DecoratedTwice(assembled: Attrs, first: Draws, second: Draws, message: string)
    requires first.Valid() && second.Valid()
    ensures var out := assembled + RandomAttrs(true, first) + RandomAttrs(true, second) + ReservedLayer(message);
      && BaseKeys <= out.Keys
      && (forall k :: k in BaseKeys ==> out[k] == RandomAttrs(true, second)[k])
      && (EggKey in out <==> first.egg || second.egg || EggKey in assembled)
  {
    ReservedKeysUnprefixed();
    var reserved := ReservedLayer(message);
    var once := RandomAttrs(true, first);
    var twice := RandomAttrs(true, second);
    var out := assembled + once + twice + reserved;
    assert MessageKey !in twice && SpanTypeKey !in twice;
    forall k | k in BaseKeys
      ensures k in out && out[k] == twice[k]
    {
      assert k in twice;
      assert k !in reserved;
    }
    assert EggKey !in BaseKeys && EggKey !in reserved;
    assert EggKey in once <==> first.egg;
    assert EggKey in twice <==> second.egg;
  }

  /** With randomization on, the second set of draws fills every base
      decoration key, while the easter egg survives from either draw. */
  lemma FeedbackDecoratedTwice(first: Draws, second: Draws, repr: FeedbackValue -> string,
                               traceparent: string, name: string, value: FeedbackValue,
                               comment: Option<string>, extra: Option<Attrs>)
    requires first.Valid() && second.Valid()
    requires Accepted(name, value, comment, extra)
    ensures var out := RecordFeedback(true, first, second, repr, traceparent, name, value, comment, extra).value.attributes;
      && BaseKeys <= out.Keys
      && (forall k :: k in BaseKeys ==> out[k] == RandomAttrs(true, second)[k])
      && (EggKey in out <==> first.egg || second.egg || EggKey in FeedbackAttributes(name, value, comment, extra).value)
  {
    FeedbackEmitted(true, first, second, repr, traceparent, name, value, comment, extra);
    DecoratedTwice(FeedbackAttributes(name, value, comment, extra).value, first, second,
                   Message(repr, name, value));
  }

  /** An empty `extra` dict behaves exactly like no `extra` at all, and an
      empty comment like no comment. */
  lemma EmptyOptionalsIgnored(randomize: bool, first: Draws, second: Draws, repr: FeedbackValue -> string,
                              traceparent: string, name: string, value: FeedbackValue,
                              comment: Option<string>, extra: Option<Attrs>)
    requires first.Valid() && second.Valid()
    ensures RecordFeedback(randomize, first, second, repr, traceparent, name, value, comment, Some(map[]))
         == RecordFeedback(randomize, first, second, repr, traceparent, name, value, comment, None)
    ensures RecordFeedback(randomize, first, second, repr, traceparent, name, value, Some(""), extra)
         == RecordFeedback(randomize, first, second, repr, traceparent, name, value, None, extra)
  {
  }

  /** `record_feedback(tp, "score", 0.9)` with randomization off. */
  lemma ScoreExample(first: Draws, second: Draws, repr: FeedbackValue -> string, traceparent: string)
    requires first.Valid() && second.Valid()
    ensures RecordFeedback(false, first, second, repr, traceparent, "score", FloatScore(0.9), None, None)
         == Success(Emission(Scope, traceparent, "feedback: score",
                             map[NameKey := Str("score"), "score" := Float(0.9),
                                 MessageKey := Str("feedback: score = " + repr(FloatScore(0.9))),
                                 SpanTypeKey := Str(AnnotationKind)]))
  {
    var message := Message(repr, "score", FloatScore(0.9));
    assert message == "feedback: score = " + repr(FloatScore(0.9));
    assert SpanName("score") == "feedback: score";
    FeedbackEmitted(false, first, second, repr, traceparent, "score", FloatScore(0.9), None, None);
    var assembled := FeedbackAttributes("score", FloatScore(0.9), None, None).value;
    assert assembled == map[NameKey := Str("score"), "score" := Float(0.9)];
    assert assembled + map[] + map[] == assembled;
    assert assembled + ReservedLayer(message)
        == map[NameKey := Str("score"), "score" := Float(0.9),
               MessageKey := Str("feedback: score = " + repr(FloatScore(0.9))),
               SpanTypeKey := Str(AnnotationKind)];
    assert RecordFeedback(false, first, second, repr, traceparent, "score", FloatScore(0.9), None, None).value
        == Emission(Scope, traceparent, SpanName("score"), assembled + ReservedLayer(message));
  }

  /** `record_feedback(tp, "ok", True, comment="looks good")` with
      randomization off. */
  lemma CommentExample(first: Draws, second: Draws, repr: FeedbackValue -> string, traceparent: string)
    requires first.Valid() && second.Valid()
    ensures RecordFeedback(false, first, second, repr, traceparent, "ok", Assertion(true), Some("looks good"), None)
         == Success(Emission(Scope, traceparent, "feedback: ok",
                             map[NameKey := Str("ok"), "ok" := Bool(true), CommentKey := Str("looks good"),
                                 MessageKey := Str("feedback: ok = " + repr(Assertion(true))),
                                 SpanTypeKey := Str(AnnotationKind)]))
  {
    var message := Message(repr, "ok", Assertion(true));
    assert message == "feedback: ok = " + repr(Assertion(true));
    assert SpanName("ok") == "feedback: ok";
    FeedbackEmitted(false, first, second, repr, traceparent, "ok", Assertion(true), Some("looks good"), None);
    var assembled := FeedbackAttributes("ok", Assertion(true), Some("looks good"), None).value;
    assert assembled == map[NameKey := Str("ok"), "ok" := Bool(true), CommentKey := Str("looks good")];
    assert assembled + map[] + map[] == assembled;
    assert assembled + ReservedLayer(message)
        == map[NameKey := Str("ok"), "ok" := Bool(true), CommentKey := Str("looks good"),
               MessageKey := Str("feedback: ok = " + repr(Assertion(true))),
               SpanTypeKey := Str(AnnotationKind)];
    assert RecordFeedback(false, first, second, repr, traceparent, "ok", Assertion(true), Some("looks good"), None).value
        == Emission(Scope, traceparent, SpanName("ok"), assembled + ReservedLayer(message));
  }

  /** An `extra` repeating the evaluation's name fails its assertion, and an
      evaluation named like the emitter's message key fails as a duplicated
      keyword argument; neither emits anything. */
  lemma FailureExamples(first: Draws, second: Draws, repr: FeedbackValue -> string, traceparent: string)
    requires first.Valid() && second.Valid()
    ensures RecordFeedback(false, first, second, repr, traceparent, "score", FloatScore(0.9), None,
                           Some(map["score" := Int(1)])).Failure?
    ensures RecordFeedback(true, first, second, repr, traceparent, MessageKey, Label("x"), None, None)
         == Failure(DuplicateKeyword(MessageKey))
  {
  }
}
