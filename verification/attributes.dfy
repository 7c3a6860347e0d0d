/** Span attributes: string keys mapped to scalar values, and the Python
    dict-merge semantics (`{**a, **b}`, `d.update(e)`, `d[k] = v`) by which the
    annotation code builds them. */
module Attributes {

  /** The scalar attribute values that flow through this code: strings,
      integers, floats (as reals) and booleans. */
  datatype Value = Str(s: string) | Int(i: int) | Float(x: real) | Bool(b: bool)

  type Attrs = map<string, Value>

  /** Applying `layers` left to right, each one overwriting the keys it shares
      with what came before: `{**layers[0], **layers[1], ...}`. */
  function Overlay(layers: seq<Attrs>): (r: Attrs)
    decreases |layers|
  {
    if |layers| == 0 then map[] else Overlay(layers[..|layers| - 1]) + layers[|layers| - 1]
  }

  /** A key is in the overlay exactly when some layer holds it. */
  lemma {:induction false} OverlayKeys(layers: seq<Attrs>, k: string)
    ensures k in Overlay(layers) <==> exists i :: 0 <= i < |layers| && k in layers[i]
    decreases |layers|
  {
    if |layers| > 0 {
      var front := layers[..|layers| - 1];
      OverlayKeys(front, k);
      if k in Overlay(front) {
        var i :| 0 <= i < |front| && k in front[i];
        assert k in layers[i];
      }
    }
  }

  /** Last writer wins: a key takes the value of the latest layer holding it. */
  lemma {:induction false} OverlayLastWriter(layers: seq<Attrs>, k: string, i: int)
    requires 0 <= i < |layers| && k in layers[i]
    requires forall j :: i < j < |layers| ==> k !in layers[j]
    ensures k in Overlay(layers) && Overlay(layers)[k] == layers[i][k]
    decreases |layers|
  {
    if i < |layers| - 1 {
      var front := layers[..|layers| - 1];
      OverlayLastWriter(front, k, i);
    }
  }

  /** Adding a layer on top merges it over the overlay below. */
  lemma OverlaySnoc(layers: seq<Attrs>, top: Attrs)
    ensures Overlay(layers + [top]) == Overlay(layers) + top
  {
    assert (layers + [top])[..|layers|] == layers;
  }

  lemma OverlayThree(a: Attrs, b: Attrs, c: Attrs)
    ensures Overlay([a, b, c]) == a + b + c
  {
    OverlaySnoc([], a);
    assert [] + [a] == [a];
    OverlaySnoc([a], b);
    assert [a] + [b] == [a, b];
    OverlaySnoc([a, b], c);
    assert [a, b] + [c] == [a, b, c];
    assert map[] + a == a;
  }
}
