# Logfire annotations: attribute assembly, modelled in Dafny

This project models `logfire/experimental/annotations.py`, which attaches
annotation and feedback records to a trace identified only by its
`traceparent` string. Logfire is an observability SDK built on OpenTelemetry.
The module itself is small. Its pure logic is how it builds the
attribute map of an annotation record:

- `Toggle` (`toggle.dfy`): the `LOGFIRE_RANDOMIZE` environment switch. The
  environment is passed in as a map.
- `Decorations` (`decorations.dfy`): `_random_attrs`, the decorative
  `x-random-*` attributes. The random draws and the clock reading are passed
  in as a `Draws` record, and `Draws.Valid` states the ranges Python's
  `random` module promises for them.
- `Annotations` (`annotate.dfy`): `raw_annotate_span`. It merges the caller's
  attributes with the decorations and adds the reserved message and
  span-type keyword arguments. The emitted record is returned as an
  `Emission` value (scope, parent traceparent, span name, attributes).
  A keyword argument passed twice raises `TypeError` in Python. Here that is
  `Failure(DuplicateKeyword(k))`, and nothing is emitted.
- `Feedback` (`feedback.dfy`): `record_feedback`. It builds the seed map,
  refuses an `extra` that repeats the evaluation's name, adds the comment,
  decorates, and derives the span name and message. `repr(value)` is a
  function parameter. `_random_attrs` runs twice on this path, once at line
  110 and again inside `raw_annotate_span`, so the function takes two
  `Draws`.
- `Traceparent` (`traceparent.dfy`): `get_traceparent`. The propagator's
  injection is a function parameter.
- `Attributes`, `Text` and `Results` hold the shared pieces:
  - `Attributes`: attribute values, and Python's dict-merge order as
    `Overlay`, where the last layer holding a key wins.
  - `Text`: ASCII `str.lower()` and prefix tests.
  - `Results`: `Option` and `Result`.

The code and its own comment disagree, and the model follows the code. Line
67 calls the merge "non-destructive", but `{**attributes, **_random_attrs()}`
lets a decoration replace a caller value stored under the same `x-random-*`
key. `Annotations.AnnotateKeepsCallerKeys` and
`Annotations.DecorationOverridesCaller` state this. The model keeps the
code's precedence: a decoration replaces a caller value under the same key.

## Model

| member | source | states |
|---|---|---|
| Text.Lower | logfire/experimental/annotations.py:24 | lower-casing keeps the length, lowers each character in place, and leaves no upper-case ASCII letter |
| Text.LowerEqualsIff | logfire/experimental/annotations.py:24 | a value lower-cases to a lower-case word exactly when it spells that word with each letter in either case |
| Toggle.Randomize | logfire/experimental/annotations.py:24 | randomization is on when `LOGFIRE_RANDOMIZE` is unset |
| Toggle.RandomizeOffExactly | logfire/experimental/annotations.py:24 | randomization is off exactly when the variable is set to "0", "false" or "no" in any letter case |
| Toggle.RandomizeExamples | logfire/experimental/annotations.py:24 | "FALSE", "No" and "0" switch randomization off; "", "off" and an unset variable leave it on |
| Decorations.RandomAttrs | logfire/experimental/annotations.py:27-48 | toggle off gives no decorations; toggle on gives exactly uuid, emoji, power, ts and seed, plus the easter egg only when its draw succeeds; every key starts with `x-random-`; power is in [1, 9000], the seed is in [0, 2^32), the emoji is one of the nine markers, and the egg carries its fixed message |
| Decorations.KeysIgnoreValueDraws | logfire/experimental/annotations.py:33-46 | two draws give the same decoration key set exactly when randomization is off or both agree on the egg |
| Attributes.Overlay | logfire/experimental/annotations.py:68 | defines a dict merge `{**a, **b, ...}` as layers applied left to right, each overwriting the keys it shares with those below |
| Attributes.OverlayKeys | logfire/experimental/annotations.py:68 | a merged dict holds a key exactly when one of its layers does |
| Attributes.OverlayLastWriter | logfire/experimental/annotations.py:104 | in a dict merge or update, a key takes the value of the last layer that holds it |
| Annotations.ReservedLayer | logfire/experimental/annotations.py:73-76 | the extra keyword arguments are exactly the message key and the span-type key |
| Annotations.Decorate | logfire/experimental/annotations.py:68 | the decorated map has the caller's keys plus the decoration keys, and every key without the `x-random-` prefix keeps the caller's value |
| Annotations.RawAnnotateSpan | logfire/experimental/annotations.py:65-77 | emission succeeds exactly when the caller's attributes hold neither reserved key; otherwise it fails with a duplicate keyword, reported on the message key first; on success the record has scope `feedback`, the given parent and span name, the caller's keys plus the decoration keys plus both reserved keys, the message under the message key, and `annotation` under the span-type key |
| Annotations.AnnotateLayers | logfire/experimental/annotations.py:68-77 | the emitted attributes are the caller's, overridden by the decorations, overridden by the reserved pair |
| Annotations.AnnotateKeepsCallerKeys | logfire/experimental/annotations.py:67-68 | every caller key is emitted; its value survives exactly when no decoration shares the key, and otherwise the decoration's value is emitted |
| Annotations.AnnotateDecorationWins | logfire/experimental/annotations.py:68 | every decoration key is emitted carrying the decoration's value, whether or not the caller supplied that key |
| Annotations.AnnotateUndecorated | logfire/experimental/annotations.py:68-77 | with randomization off the record carries exactly the caller's attributes plus the reserved pair |
| Annotations.DecorationOverridesCaller | logfire/experimental/annotations.py:67-68 | a caller value under `x-random-power` is replaced by the drawn power, contrary to the "non-destructive" comment |
| Feedback.SeedLayer | logfire/experimental/annotations.py:100 | the seed holds the name key and the evaluation's key; the value always sits under the evaluation's key, and the name sits under the name key unless the evaluation is named `logfire.feedback.name` |
| Feedback.HasExtra | logfire/experimental/annotations.py:102 | defines the truthiness test `if extra:`: an absent or empty `extra` counts as none |
| Feedback.HasComment | logfire/experimental/annotations.py:106 | defines the truthiness test `if comment:`: an absent or empty comment counts as none |
| Feedback.FeedbackAttributes | logfire/experimental/annotations.py:100-107 | assembly fails with an assertion exactly when `extra` is non-empty and contains the name; otherwise the keys are the name key, the evaluation's key, the keys of a non-empty `extra`, and the comment key when the comment is non-empty |
| Feedback.FeedbackLayers | logfire/experimental/annotations.py:100-107 | the assembled map is the seed, overridden by a non-empty `extra`, overridden by a non-empty comment |
| Feedback.SpanName | logfire/experimental/annotations.py:114 | the span name is the prefix `feedback: ` followed by the evaluation's name, which stripping the prefix gives back |
| Feedback.Message | logfire/experimental/annotations.py:115 | the message is the span name followed by ` = ` and `repr(value)`, with `repr` supplied by the caller |
| Feedback.Accepted | logfire/experimental/annotations.py:100-117 | a call completes exactly when a non-empty `extra` does not repeat the name and neither the name nor `extra` uses a reserved emitter key; equivalently, assembly passes its assertion and leaves both reserved keys out of the assembled map |
| Feedback.RecordFeedback | logfire/experimental/annotations.py:80-117 | fails with an assertion exactly when a non-empty `extra` contains the name; succeeds exactly when that does not happen and neither the name nor a non-empty `extra` uses a reserved emitter key; on success the span name is `feedback: ` followed by the name, the parent is the traceparent, and the message is `feedback: <name> = <repr(value)>` |
| Feedback.FeedbackEmitted | logfire/experimental/annotations.py:106-117 | the record's attributes are the assembled map, then the first decorations, then the second decorations, then the reserved pair |
| Feedback.FeedbackCommentWins | logfire/experimental/annotations.py:106-107 | a non-empty comment is always emitted under the comment key, whatever `extra` or the name put there |
| Feedback.FeedbackExtraWins | logfire/experimental/annotations.py:102-104 | an `extra` value is emitted for its key, the reserved name key included, unless a comment or a decoration takes that key |
| Feedback.FeedbackValueRecorded | logfire/experimental/annotations.py:100-110 | the evaluation's value is emitted under its name unless a comment or a decoration takes that key |
| Feedback.FeedbackNameRecorded | logfire/experimental/annotations.py:100-104 | `logfire.feedback.name` carries the name unless `extra` overwrote it or the evaluation has that same name |
| Feedback.FeedbackUndecorated | logfire/experimental/annotations.py:109-110 | with randomization off the call emits exactly one record: scope `feedback`, the traceparent as parent, span name `feedback: <name>`, and attributes that are exactly the assembled feedback attributes plus the message and `annotation` under the two reserved keys |
| Feedback.DecoratedTwice | logfire/experimental/annotations.py:110 | after two rounds of decoration, the second round's values fill every base key, and the egg key is present exactly when either draw succeeded or the map already held it |
| Feedback.FeedbackDecoratedTwice | logfire/experimental/annotations.py:109-110 | with randomization on, the feedback record carries the second draws' base values, and an egg from either draw |
| Feedback.EmptyOptionalsIgnored | logfire/experimental/annotations.py:102-107 | an empty `extra` acts as no `extra`, and an empty comment acts as no comment |
| Feedback.ScoreExample | logfire/experimental/annotations.py:100-117 | a float score of 0.9 named "score" emits `feedback: score`, with the name key, the value, the message `feedback: score = <repr>` and the annotation kind, and nothing else |
| Feedback.CommentExample | logfire/experimental/annotations.py:100-117 | an assertion named "ok" with comment "looks good" also carries the comment key |
| Feedback.FailureExamples | logfire/experimental/annotations.py:102-117 | `extra={"score": 1}` with name "score" fails before emission; an evaluation named like the message key fails as a duplicated keyword |
| Traceparent.CarrierValue | logfire/experimental/annotations.py:62 | a carrier without a `traceparent` entry yields the empty string, and otherwise its entry |
| Traceparent.GetTraceparent | logfire/experimental/annotations.py:51-62 | fails with an assertion exactly for a wrapper without a raw span; otherwise returns the `traceparent` entry the propagator injected for the raw span, or "" when there is none |

## Left out

- Context attachment and span emission (`attach_context`, `feedback_logfire.info`): these are I/O through the tracing backend. The model returns the record that would be emitted. Backend failures are not modelled.
- How `info` treats its arguments is not part of this model: message-template formatting, the `_tags`/`_exc_info` keyword names, and attribute serialization.
- `uuid4`, `random.choice`, `random.randint`, `random.getrandbits`, `random.random` and `time.time` are not performed. Their results come in as `Draws`. The `< 0.05` egg test is a boolean, and the timestamp is an arbitrary real.
- The 5% easter-egg frequency is statistical, so no deterministic contract can state it.
- `repr(value)` is not modelled. It is a caller-supplied function, so the float formatting of `0.9` is not pinned down.
- Text.Lower: `str.lower()` is modelled for ASCII letters only, and other characters stay unchanged. All the falsy words are ASCII, and no other character lower-cases to one of their letters.
- Message and span-type keys: `ATTRIBUTES_MESSAGE_KEY` and `ATTRIBUTES_SPAN_TYPE_KEY` are defined in `logfire/_internal/constants.py`, which is not part of this model. They are given the values `logfire.msg` and `logfire.span_type`. The general proofs rely only on three facts: the two keys differ, neither begins with the letter `x` (so neither can start with `x-random-`), and neither equals a `logfire.feedback.*` key. The worked examples `Feedback.ScoreExample` and `Feedback.CommentExample` also rely on their evaluation names, `score` and `ok`, differing from both keys.
- The toggle is read once at import in the source. Here it is the `randomize` parameter, and `Toggle.Randomize` computes it from an environment map.
- Attribute values of arbitrary Python types: values are limited to strings, integers, floats (as reals) and booleans.
- Python run with `-O` drops `assert` statements. The model assumes assertions are enabled.
- The import-time check that the propagator's fields contain `traceparent` (line 19) is not modelled.
- The W3C Trace Context header format and the round trip from a span to its traceparent and back are not modelled. Both belong to the OpenTelemetry propagator.
- Concurrency is not modelled: the source has none, and every modelled operation is a pure function of its arguments. Two calls therefore cannot share attributes.
