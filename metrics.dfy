/** Rendering of gathered metric families into the text exposition format
    (renderMetrics in the handler). */
module Metrics {
  import opened Errors

  /** What the text serializer reports for one metric family: the text it
      wrote and the byte count it returned, or the error it failed with. */
  datatype Serialized = Serialized(text: string, count: nat) | SerializeFailed(err: Error)

  /** The outcome of rendering a list of families. */
  datatype Rendering = Rendered(text: string, count: nat) | RenderFailed(err: Error)

  /** The specification of the render: serialize the head family; a failure
      ends the render with that error, otherwise its text is followed by the
      render of the remaining families and the counts add up. */
  function Render<F>(families: seq<F>, toText: F -> Serialized): Rendering
  {
    if families == [] then Rendered("", 0)
    else match toText(families[0])
      case SerializeFailed(e) => RenderFailed(e)
      case Serialized(text, count) =>
        match Render(families[1..], toText)
        case RenderFailed(e) => RenderFailed(e)
        case Rendered(rest, restCount) => Rendered(text + rest, count + restCount)
  }

  /** Sequential composition of two renders: the first failure wins. */
  function Then(first: Rendering, second: Rendering): Rendering {
    match first
    case RenderFailed(_) => first
    case Rendered(text, count) =>
      match second
      case RenderFailed(_) => second
      case Rendered(text', count') => Rendered(text + text', count + count')
  }

  /** Rendering a concatenation of family lists is rendering each part in turn. */
  lemma {:induction false} RenderAppend<F>(a: seq<F>, b: seq<F>, toText: F -> Serialized)
    ensures Render(a + b, toText) == Then(Render(a, toText), Render(b, toText))
  {
    if a == [] {
      assert a + b == b;
    } else {
      assert (a + b)[0] == a[0];
      assert (a + b)[1..] == a[1..] + b;
      RenderAppend(a[1..], b, toText);
      match toText(a[0])
      case SerializeFailed(_) =>
      case Serialized(text, _) =>
        match Render(a[1..], toText)
        case RenderFailed(_) =>
        case Rendered(text1, _) =>
          match Render(b, toText)
          case RenderFailed(_) =>
          case Rendered(text2, _) =>
            assert text + (text1 + text2) == (text + text1) + text2;
    }
  }

  /** The index of the first family the serializer rejects, or the number of
      families when it accepts them all. */
  function FirstFailure<F>(families: seq<F>, toText: F -> Serialized): (i: nat)
    ensures i <= |families|
    ensures forall k :: 0 <= k < i ==> toText(families[k]).Serialized?
    ensures i < |families| ==> toText(families[i]).SerializeFailed?
  {
    if families == [] then 0
    else if toText(families[0]).SerializeFailed? then 0
    else 1 + FirstFailure(families[1..], toText)
  }

  function TextOf(s: Serialized): string {
    if s.Serialized? then s.text else ""
  }

  function CountOf(s: Serialized): nat {
    if s.Serialized? then s.count else 0
  }

  /** The text each family serializes to, in input order. */
  function Texts<F>(families: seq<F>, toText: F -> Serialized): (ts: seq<string>)
  {
    seq(|families|, k requires 0 <= k < |families| => TextOf(toText(families[k])))
  }

  /** The count each family's serialization returns, in input order. */
  function Counts<F>(families: seq<F>, toText: F -> Serialized): (ns: seq<nat>)
  {
    seq(|families|, k requires 0 <= k < |families| => CountOf(toText(families[k])))
  }

  function Concat(ss: seq<string>): string {
    if ss == [] then "" else ss[0] + Concat(ss[1..])
  }

  function Sum(ns: seq<nat>): nat {
    if ns == [] then 0 else ns[0] + Sum(ns[1..])
  }

  /** When every family serializes, the render is the concatenation of their
      texts in input order, and its count is the sum of their counts. */
  lemma {:induction false} RenderSucceeds<F>(families: seq<F>, toText: F -> Serialized)
    requires FirstFailure(families, toText) == |families|
    ensures Render(families, toText)
         == Rendered(Concat(Texts(families, toText)), Sum(Counts(families, toText)))
  {
    if families != [] {
      RenderSucceeds(families[1..], toText);
      assert Texts(families, toText) == [TextOf(toText(families[0]))] + Texts(families[1..], toText);
      assert Counts(families, toText) == [CountOf(toText(families[0]))] + Counts(families[1..], toText);
    }
  }

  /** When some family fails, the render fails with the error of the first
      failing family. */
  lemma {:induction false} RenderFails<F>(families: seq<F>, toText: F -> Serialized)
    requires FirstFailure(families, toText) < |families|
    ensures Render(families, toText) == RenderFailed(toText(families[FirstFailure(families, toText)]).err)
  {
    if toText(families[0]).Serialized? {
      RenderFails(families[1..], toText);
    }
  }

  /** The render succeeds exactly when no family fails to serialize. */
  lemma {:induction false} RenderSucceedsIff<F>(families: seq<F>, toText: F -> Serialized)
    ensures Render(families, toText).Rendered? <==> FirstFailure(families, toText) == |families|
  {
    if FirstFailure(families, toText) < |families| {
      RenderFails(families, toText);
    } else {
      RenderSucceeds(families, toText);
    }
  }

  /** Families after the first failing one are never looked at: replacing
      them by anything leaves the render unchanged. */
  lemma {:induction false} RenderIgnoresLaterFamilies<F>(families: seq<F>, later: seq<F>, toText: F -> Serialized)
    requires FirstFailure(families, toText) < |families|
    ensures Render(families[..FirstFailure(families, toText) + 1] + later, toText)
         == Render(families, toText)
  {
    var i := FirstFailure(families, toText);
    var other := families[..i + 1] + later;
    assert other[i] == families[i];
    assert forall k :: 0 <= k < i ==> other[k] == families[k];
    var j := FirstFailure(other, toText);
    assert j == i;
    RenderFails(families, toText);
    RenderFails(other, toText);
  }

  /** renderMetrics: serialize each family in turn into one text, adding up
      the counts; on the first failure return ("", 0, err).  The ghost
      `handed` records, at the call, each family handed to the serializer. */
  method RenderMetrics<F>(families: seq<F>, toText: F -> Serialized)
    returns (text: string, count: nat, err: Option<Error>, ghost handed: seq<F>)
    ensures err.None? ==> Render(families, toText) == Rendered(text, count)
    ensures err.Some? ==> Render(families, toText) == RenderFailed(err.value) && text == "" && count == 0
    ensures err.None? ==> handed == families
    ensures err.Some? ==> FirstFailure(families, toText) < |families|
                          && handed == families[..FirstFailure(families, toText) + 1]
  {
    var writer := "";
    var totalCount: nat := 0;
    handed := [];
    var i := 0;
    while i < |families|
      invariant 0 <= i <= |families|
      invariant handed == families[..i]
      invariant forall k :: 0 <= k < i ==> toText(families[k]).Serialized?
      invariant Render(families[..i], toText) == Rendered(writer, totalCount)
    {
      var family := families[i];
      assert families[..i + 1] == families[..i] + [family];
      RenderAppend(families[..i], [family], toText);
      var written := toText(family);
      handed := handed + [family];
      if written.SerializeFailed? {
        assert FirstFailure(families, toText) == i;
        RenderFails(families, toText);
        return "", 0, Some(written.err), handed;
      }
      writer := writer + written.text;
      totalCount := totalCount + written.count;
      i := i + 1;
    }
    assert families[..i] == families;
    return writer, totalCount, None, handed;
  }
}
