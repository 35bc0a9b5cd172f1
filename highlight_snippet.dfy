/**
 * The highlight-snippet pipe: a highlighted snippet from Elasticsearch, with each
 * hit wrapped in a pre tag and a post tag, becomes a list of segments that are
 * either plain or highlighted.
 */
module HighlightSnippet {
  import opened Strings

  datatype Segment = Segment(content: string, highlight: bool)

  /** JavaScript `s.slice(a, b)` for non-negative bounds: clamped, and empty when `b` is not after `a`. */
  function Slice(s: string, a: nat, b: nat): (r: string)
    ensures a <= b <= |s| ==> r == s[a..b]
  {
    var lo := if a > |s| then |s| else a;
    var hi := if b > |s| then |s| else b;
    if hi <= lo then "" else s[lo..hi]
  }

  /**
   * `HighlightSnippetPipe.transform`: the text before the first pre tag, the text
   * from there to the first post tag found from the pre tag on (highlighted), and
   * then the rest, transformed the same way. Without a pre tag followed by a post
   * tag the whole value is one plain segment. The post tag must not be empty, or
   * the recursion would not advance. Segments alternate plain and highlighted,
   * starting and ending with a plain one.
   */
  function Transform(value: string, pre: string, post: string): seq<Segment>
    requires post != ""
    decreases |value|
  {
    var start := IndexOf(value, pre, 0);
    if start >= 0 then
      var end := IndexOf(value, post, start);
      if end >= 0 then
        var rest := Transform(value[end + |post|..], pre, post);
        [Segment(value[..start], false), Segment(Slice(value, start + |pre|, end), true)] + rest
      else [Segment(value, false)]
    else [Segment(value, false)]
  }

  /** A plain segment, then highlighted and plain segments in turns. */
  predicate Alternates(r: seq<Segment>)
    decreases |r|
  {
    if |r| <= 1 then |r| == 1 && !r[0].highlight
    else |r| >= 3 && !r[0].highlight && r[1].highlight && Alternates(r[2..])
  }

  /**
   * Segments alternate plain and highlighted, starting and ending with a plain
   * one, so there is an odd number of them.
   */
  lemma {:induction false} AlternatesByParity(r: seq<Segment>)
    requires Alternates(r)
    ensures |r| % 2 == 1
    ensures forall i :: 0 <= i < |r| ==> (r[i].highlight <==> i % 2 == 1)
    decreases |r|
  {
    if |r| > 1 {
      var rest := r[2..];
      AlternatesByParity(rest);
      forall i | 2 <= i < |r| ensures r[i].highlight <==> i % 2 == 1 {
        assert r[i] == rest[i - 2];
      }
    }
  }

  lemma {:induction false} TransformAlternates(value: string, pre: string, post: string)
    requires post != ""
    ensures Alternates(Transform(value, pre, post))
    ensures var r := Transform(value, pre, post);
            && |r| % 2 == 1
            && (forall i :: 0 <= i < |r| ==> (r[i].highlight <==> i % 2 == 1))
    decreases |value|
  {
    var start := IndexOf(value, pre, 0);
    var end := IndexOf(value, post, start);
    if start < 0 || end < 0 {
      TransformStop(value, pre, post);
    } else {
      var restText := value[end + |post|..];
      TransformStep(value, pre, post, start, end);
      TransformAlternates(restText, pre, post);
      var r := Transform(value, pre, post);
      assert r[2..] == Transform(restText, pre, post);
    }
    AlternatesByParity(Transform(value, pre, post));
  }

  /** One step of `Transform`: a plain segment, a highlighted one, and the rest transformed. */
  lemma {:induction false} TransformStep(value: string, pre: string, post: string, start: nat, end: nat)
    requires post != ""
    requires start == IndexOf(value, pre, 0) && end == IndexOf(value, post, start)
    ensures Transform(value, pre, post)
              == [Segment(value[..start], false), Segment(Slice(value, start + |pre|, end), true)]
                 + Transform(value[end + |post|..], pre, post)
  {
  }

  /** Without a pre tag followed by a post tag, `Transform` stops with one plain segment. */
  lemma {:induction false} TransformStop(value: string, pre: string, post: string)
    requires post != ""
    requires IndexOf(value, pre, 0) < 0 || IndexOf(value, post, IndexOf(value, pre, 0)) < 0
    ensures Transform(value, pre, post) == [Segment(value, false)]
  {
  }

  /** The text the segments stand for: highlighted segments wrapped in the tags again. */
  function Render(segments: seq<Segment>, pre: string, post: string): string
    decreases |segments|
  {
    if segments == [] then ""
    else
      (if segments[0].highlight then pre + segments[0].content + post else segments[0].content)
      + Render(segments[1..], pre, post)
  }

  /**
   * The tags are read unambiguously: no post tag starts inside an occurrence of the
   * pre tag (otherwise the post tag search, which starts at the pre tag, finds it).
   */
  ghost predicate WellTagged(value: string, pre: string, post: string) {
    forall i: nat, j: nat :: OccursAt(value, pre, i) && i <= j < i + |pre| ==> !OccursAt(value, post, j)
  }

  /** A slice of a slice is a slice of the whole. */
  lemma {:induction false} SubSlice(s: string, a: nat, b: nat, i: nat, k: nat)
    requires a <= b <= |s| && i <= k <= b - a
    ensures s[a..b][i..k] == s[a + i..a + k]
  {
    assert forall m :: 0 <= m < k - i ==> s[a..b][i..k][m] == s[a + i..a + k][m];
  }

  /** An occurrence in a suffix is an occurrence in the whole string, shifted. */
  lemma {:induction false} OccursInSuffix(value: string, k: nat, pat: string, i: nat)
    requires k <= |value|
    requires OccursAt(value[k..], pat, i)
    ensures OccursAt(value, pat, k + i)
  {
    SubSlice(value, k, |value|, i, i + |pat|);
    assert value[k..] == value[k..|value|];
  }

  lemma {:induction false} SuffixWellTagged(value: string, k: nat, pre: string, post: string)
    requires k <= |value| && WellTagged(value, pre, post)
    ensures WellTagged(value[k..], pre, post)
  {
    forall i: nat, j: nat | OccursAt(value[k..], pre, i) && i <= j < i + |pre|
      ensures !OccursAt(value[k..], post, j)
    {
      OccursInSuffix(value, k, pre, i);
      if OccursAt(value[k..], post, j) {
        OccursInSuffix(value, k, post, j);
      }
    }
  }

  /** Rendering a plain and a highlighted segment ahead of the rest. */
  lemma {:induction false} RenderPair(before: string, hit: string, rest: seq<Segment>, pre: string, post: string)
    ensures Render([Segment(before, false), Segment(hit, true)] + rest, pre, post)
         == before + pre + hit + post + Render(rest, pre, post)
  {
    var segments := [Segment(before, false), Segment(hit, true)] + rest;
    assert segments[1..] == [Segment(hit, true)] + rest;
    assert segments[1..][1..] == rest;
  }

  /** A string cut at a pre tag at `start` and a post tag at `end`. */
  lemma {:induction false} Decompose(value: string, pre: string, post: string, start: nat, end: nat)
    requires OccursAt(value, pre, start) && OccursAt(value, post, end) && start + |pre| <= end
    ensures value == value[..start] + pre + value[start + |pre|..end] + post + value[end + |post|..]
  {
    assert value == value[..start] + value[start..start + |pre|] + value[start + |pre|..end]
                    + value[end..end + |post|] + value[end + |post|..];
  }

  /**
   * Concatenating the segments, each highlighted one wrapped in the pre and post
   * tags, gives back the input.
   */
  lemma {:induction false} TransformRender(value: string, pre: string, post: string)
    requires post != "" && WellTagged(value, pre, post)
    ensures Render(Transform(value, pre, post), pre, post) == value
    decreases |value|
  {
    var start := IndexOf(value, pre, 0);
    if start >= 0 {
      var end := IndexOf(value, post, start);
      if end >= 0 {
        assert end >= start + |pre|;
        var restText := value[end + |post|..];
        SuffixWellTagged(value, end + |post|, pre, post);
        TransformRender(restText, pre, post);
        var rest := Transform(restText, pre, post);
        var hit := value[start + |pre|..end];
        assert Transform(value, pre, post) == [Segment(value[..start], false), Segment(hit, true)] + rest;
        RenderPair(value[..start], hit, rest, pre, post);
        Decompose(value, pre, post, start, end);
      }
    }
  }

  /** Without a pre tag, or without a post tag anywhere, the value is one plain segment. */
  lemma {:induction false} NoHighlight(value: string, pre: string, post: string)
    requires post != ""
    requires (forall i: nat :: !OccursAt(value, pre, i)) || (forall j: nat :: !OccursAt(value, post, j))
    ensures Transform(value, pre, post) == [Segment(value, false)]
  {
  }

  /** `tag` occurs nowhere in `text`. */
  ghost predicate Lacks(text: string, tag: string) {
    forall j: nat :: !OccursAt(text, tag, j)
  }

  /** The text before the first occurrence of `tag` lacks it. */
  lemma {:induction false} PrefixLacks(value: string, tag: string)
    requires tag != "" && IndexOf(value, tag, 0) >= 0
    ensures Lacks(value[..IndexOf(value, tag, 0)], tag)
  {
    var start := IndexOf(value, tag, 0);
    forall j: nat | OccursAt(value[..start], tag, j) ensures false {
      SubSlice(value, 0, start, j, j + |tag|);
      assert value[..start] == value[0..start];
      assert OccursAt(value, tag, j);
    }
  }

  /** A slice that ends before the first occurrence of `tag` from `from` on lacks it. */
  lemma {:induction false} SliceLacks(value: string, tag: string, search: nat, from: nat, end: nat)
    requires tag != "" && search <= from && end == IndexOf(value, tag, search) >= 0
    ensures Lacks(Slice(value, from, end), tag)
  {
    if from <= end {
      var hit := value[from..end];
      forall j: nat | OccursAt(hit, tag, j) ensures false {
        SubSlice(value, from, end, j, j + |tag|);
        assert OccursAt(value, tag, from + j);
      }
    }
  }

  /** Every plain segment but the last lacks `tag`. */
  ghost predicate PlainsLack(r: seq<Segment>, tag: string) {
    forall i :: 0 <= i < |r| - 1 && !r[i].highlight ==> Lacks(r[i].content, tag)
  }

  /** Every highlighted segment lacks `tag`. */
  ghost predicate HighlightsLack(r: seq<Segment>, tag: string) {
    forall i :: 0 <= i < |r| && r[i].highlight ==> Lacks(r[i].content, tag)
  }

  lemma {:induction false} PlainsLackPair(before: string, hit: string, rest: seq<Segment>, tag: string)
    requires Lacks(before, tag) && PlainsLack(rest, tag)
    ensures PlainsLack([Segment(before, false), Segment(hit, true)] + rest, tag)
  {
    var r := [Segment(before, false), Segment(hit, true)] + rest;
    forall i | 2 <= i < |r| - 1 && !r[i].highlight ensures Lacks(r[i].content, tag) {
      assert r[i] == rest[i - 2];
    }
  }

  lemma {:induction false} HighlightsLackPair(before: string, hit: string, rest: seq<Segment>, tag: string)
    requires Lacks(hit, tag) && HighlightsLack(rest, tag)
    ensures HighlightsLack([Segment(before, false), Segment(hit, true)] + rest, tag)
  {
    var r := [Segment(before, false), Segment(hit, true)] + rest;
    forall i | 2 <= i < |r| && r[i].highlight ensures Lacks(r[i].content, tag) {
      assert r[i] == rest[i - 2];
    }
  }

  /**
   * Hits are found left to right: every plain segment but the last lacks the pre
   * tag. (An empty pre tag occurs in every string, empty plain segments included.)
   */
  lemma {:induction false} PlainSegmentsHaveNoPreTag(value: string, pre: string, post: string)
    requires pre != "" && post != ""
    ensures PlainsLack(Transform(value, pre, post), pre)
    decreases |value|
  {
    var start := IndexOf(value, pre, 0);
    var end := IndexOf(value, post, start);
    if start < 0 || end < 0 {
      TransformStop(value, pre, post);
    } else {
      {
        var restText := value[end + |post|..];
        var before, hit, rest := value[..start], Slice(value, start + |pre|, end), Transform(restText, pre, post);
        TransformStep(value, pre, post, start, end);
        PlainSegmentsHaveNoPreTag(restText, pre, post);
        PrefixLacks(value, pre);
        PlainsLackPair(before, hit, rest, pre);
      }
    }
  }

  /**
   * No highlighted segment holds a post tag: each highlight runs from a pre tag to
   * the first post tag after it.
   */
  lemma {:induction false} HighlightsHaveNoPostTag(value: string, pre: string, post: string)
    requires post != ""
    ensures HighlightsLack(Transform(value, pre, post), post)
    decreases |value|
  {
    var start := IndexOf(value, pre, 0);
    var end := IndexOf(value, post, start);
    if start < 0 || end < 0 {
      TransformStop(value, pre, post);
    } else {
      {
        var restText := value[end + |post|..];
        var before, hit, rest := value[..start], Slice(value, start + |pre|, end), Transform(restText, pre, post);
        TransformStep(value, pre, post, start, end);
        HighlightsHaveNoPostTag(restText, pre, post);
        SliceLacks(value, post, start, start + |pre|, end);
        HighlightsLackPair(before, hit, rest, post);
      }
    }
  }
}
