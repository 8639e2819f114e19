/** Named-placeholder templates, as rendered by Python's `str.format` when the
    template holds only plain `{name}` fields. A template is a sequence of
    literal pieces and fields; the type `F` is the fixed set of field names a
    given template may use, and `value` supplies the text for each field. */
module Template {

  datatype Token<F> = Lit(text: string) | Field(field: F)

  function Piece<F>(t: Token<F>, value: F -> string): string {
    match t
    case Lit(text) => text
    case Field(f) => value(f)
  }

  function Render<F>(t: seq<Token<F>>, value: F -> string): string
  {
    if t == [] then [] else Piece(t[0], value) + Render(t[1..], value)
  }

  lemma RenderCons<F>(t: Token<F>, rest: seq<Token<F>>, value: F -> string)
    ensures Render([t] + rest, value) == Piece(t, value) + Render(rest, value)
  {
    assert ([t] + rest)[1..] == rest;
  }

  lemma RenderSnoc<F>(t: seq<Token<F>>, k: int, value: F -> string)
    requires 0 <= k < |t|
    ensures Render(t[..k + 1], value) == Render(t[..k], value) + Piece(t[k], value)
  {
    assert t[..k + 1] == t[..k] + [t[k]];
    RenderConcat(t[..k], [t[k]], value);
    RenderCons(t[k], [], value);
  }

  /** A three-token template renders to its three pieces in order. */
  lemma RenderThreePieces<F>(t: seq<Token<F>>, v: F -> string)
    requires |t| == 3
    ensures Render(t, v) == Piece(t[0], v) + Piece(t[1], v) + Piece(t[2], v)
  {
    assert t[..0] == [];
    RenderSnoc(t, 0, v);
    RenderSnoc(t, 1, v);
    RenderSnoc(t, 2, v);
    assert t[..3] == t;
  }

  /** A four-token template renders to its four pieces in order. */
  lemma RenderFourPieces<F>(t: seq<Token<F>>, v: F -> string)
    requires |t| == 4
    ensures Render(t, v) == Piece(t[0], v) + Piece(t[1], v) + Piece(t[2], v) + Piece(t[3], v)
  {
    RenderThreePieces(t[..3], v);
    RenderSnoc(t, 3, v);
    assert t[..4] == t;
  }

  /** Rendering works piece by piece: the rendering of a concatenation is the
      concatenation of the renderings. */
  lemma {:induction false} RenderConcat<F>(a: seq<Token<F>>, b: seq<Token<F>>, value: F -> string)
    ensures Render(a + b, value) == Render(a, value) + Render(b, value)
  {
    if a == [] {
      assert a + b == b;
    } else {
      assert (a + b)[0] == a[0];
      assert (a + b)[1..] == a[1..] + b;
      RenderConcat(a[1..], b, value);
    }
  }

  /** The rendered text depends only on the values of the fields the template
      mentions. */
  lemma {:induction false} RenderUsesOnlyMentionedFields<F>(t: seq<Token<F>>, v: F -> string, w: F -> string)
    requires forall k :: 0 <= k < |t| && t[k].Field? ==> v(t[k].field) == w(t[k].field)
    ensures Render(t, v) == Render(t, w)
  {
    if t != [] {
      assert forall k :: 0 <= k < |t[1..]| ==> t[1..][k] == t[k + 1];
      RenderUsesOnlyMentionedFields(t[1..], v, w);
    }
  }

  /** The text of a template's literal pieces, in order. */
  function Literals<F>(t: seq<Token<F>>): string {
    if t == [] then [] else (if t[0].Lit? then t[0].text else []) + Literals(t[1..])
  }

  /** A template without fields renders to its literal text whatever the
      values. */
  lemma {:induction false} RenderWithoutFields<F>(t: seq<Token<F>>, value: F -> string)
    requires forall k :: 0 <= k < |t| ==> t[k].Lit?
    ensures Render(t, value) == Literals(t)
  {
    if t != [] {
      assert forall k :: 0 <= k < |t[1..]| ==> t[1..][k] == t[k + 1];
      RenderWithoutFields(t[1..], value);
    }
  }

  /** A template that is a single field renders to that field's value. */
  lemma RenderSingleField<F>(f: F, value: F -> string)
    ensures Render([Field(f)], value) == value(f)
  {
    assert [Field(f)][1..] == [];
  }
}
