/**
 * The paragraph pipe: content as a list of non-empty paragraphs, a string being
 * split at its line breaks when asked to.
 */
module Paragraph {
  import opened Strings
  import opened DocumentContent

  /** `paragraphArray`: a list as it is; a string split at `\n`, or as a one-element list. */
  function ParagraphArray(content: Text, splitText: bool): seq<string> {
    match content
    case Plain(s) => if splitText then Split(s, '\n') else [s]
    case Paragraphs(items) => items
  }

  /**
   * `filter(p => p !== '')`: the paragraphs that are not empty, in order. Every
   * non-empty paragraph is kept, and exactly the empty ones are dropped; the
   * order is fixed by `RemoveEmptyAppend`.
   */
  function RemoveEmpty(paragraphs: seq<string>): (r: seq<string>)
    ensures |r| <= |paragraphs|
    ensures forall i :: 0 <= i < |r| ==> r[i] != "" && r[i] in paragraphs
    ensures forall p :: p in paragraphs && p != "" ==> p in r
    decreases |paragraphs|
  {
    if paragraphs == [] then []
    else if paragraphs[0] == "" then RemoveEmpty(paragraphs[1..])
    else [paragraphs[0]] + RemoveEmpty(paragraphs[1..])
  }

  /** `splitParagraphs`, which the pipe's `transform` calls with the same arguments. */
  function SplitParagraphs(content: Text, splitText: bool): seq<string> {
    RemoveEmpty(ParagraphArray(content, splitText))
  }

  /**
   * The filter works piece by piece: filtering a list is filtering its two halves
   * and putting them together, and a single paragraph is kept exactly when it is
   * not empty. With `RemoveEmpty([]) == []` this fixes the result on every list.
   */
  lemma {:induction false} RemoveEmptyAppend(a: seq<string>, b: seq<string>)
    ensures RemoveEmpty(a + b) == RemoveEmpty(a) + RemoveEmpty(b)
    ensures RemoveEmpty([]) == []
    ensures forall p :: RemoveEmpty([p]) == if p == "" then [] else [p]
    decreases |a|
  {
    if a != [] {
      assert (a + b)[0] == a[0];
      assert (a + b)[1..] == a[1..] + b;
      RemoveEmptyAppend(a[1..], b);
    } else {
      assert a + b == b;
    }
    forall p ensures RemoveEmpty([p]) == if p == "" then [] else [p] {
      assert [p][1..] == [];
    }
  }

  /** The paragraphs run together, with nothing between them. */
  function Concat(paragraphs: seq<string>): string
    decreases |paragraphs|
  {
    if paragraphs == [] then "" else paragraphs[0] + Concat(paragraphs[1..])
  }

  /** The string without any `c`. */
  function Without(s: string, c: char): (r: string)
    ensures c !in r
    decreases |s|
  {
    if s == [] then ""
    else if s[0] == c then Without(s[1..], c)
    else [s[0]] + Without(s[1..], c)
  }

  /** Dropping the empty paragraphs loses no text: the paragraphs run together to the same string. */
  lemma {:induction false} RemoveEmptyConcat(paragraphs: seq<string>)
    ensures Concat(RemoveEmpty(paragraphs)) == Concat(paragraphs)
    decreases |paragraphs|
  {
    if paragraphs != [] {
      RemoveEmptyConcat(paragraphs[1..]);
      if paragraphs[0] != "" {
        assert ([paragraphs[0]] + RemoveEmpty(paragraphs[1..]))[1..] == RemoveEmpty(paragraphs[1..]);
      }
    }
  }

  /** A list without empty paragraphs passes unchanged. */
  lemma {:induction false} RemoveEmptyKeeps(paragraphs: seq<string>)
    requires "" !in paragraphs
    ensures RemoveEmpty(paragraphs) == paragraphs
    decreases |paragraphs|
  {
    if paragraphs != [] {
      assert paragraphs[0] in paragraphs;
      assert forall p :: p in paragraphs[1..] ==> p in paragraphs;
      RemoveEmptyKeeps(paragraphs[1..]);
      assert [paragraphs[0]] + paragraphs[1..] == paragraphs;
    }
  }

  /** The pieces of a split run together to the string without its separators. */
  lemma {:induction false} SplitConcat(s: string, c: char)
    ensures Concat(Split(s, c)) == Without(s, c)
    decreases |s|
  {
    if s != [] {
      SplitConcat(s[1..], c);
      var rest := Split(s[1..], c);
      if s[0] == c {
        assert ([""] + rest)[1..] == rest;
      } else {
        var r := [[s[0]] + rest[0]] + rest[1..];
        assert r[1..] == rest[1..];
        assert Concat(rest) == rest[0] + Concat(rest[1..]);
      }
    }
  }

  /**
   * Splitting text into paragraphs: no paragraph is empty or holds a line break,
   * and together they are the text with its line breaks taken out. (The split
   * pieces themselves give the text back when joined with line breaks.)
   */
  lemma SplitTextParagraphs(s: string)
    ensures var r := SplitParagraphs(Plain(s), true);
            && (forall i :: 0 <= i < |r| ==> r[i] != "" && '\n' !in r[i])
            && Concat(r) == Without(s, '\n')
    ensures Join(Split(s, '\n'), "\n") == s
  {
    RemoveEmptyConcat(Split(s, '\n'));
    SplitConcat(s, '\n');
    JoinSplit(s, '\n');
  }

  /**
   * Splitting the lines of a text joined by line breaks gives back exactly those
   * lines, in order, without the empty ones.
   */
  lemma SplitJoinedLines(lines: seq<string>)
    requires |lines| >= 1
    requires forall i :: 0 <= i < |lines| ==> '\n' !in lines[i]
    ensures SplitParagraphs(Plain(Join(lines, "\n")), true) == RemoveEmpty(lines)
  {
    SplitJoin(lines, '\n');
  }

  /** Without splitting, a string is one paragraph, or none when it is empty. */
  lemma UnsplitText(s: string)
    ensures SplitParagraphs(Plain(s), false) == (if s == "" then [] else [s])
  {
  }

  /** A list without empty paragraphs is not modified. */
  lemma ListPassesThrough(items: seq<string>, splitText: bool)
    requires "" !in items
    ensures SplitParagraphs(Paragraphs(items), splitText) == items
  {
    RemoveEmptyKeeps(items);
  }

  /** Passing the paragraphs through the pipe again changes nothing. */
  lemma Idempotent(content: Text, splitText: bool, splitAgain: bool)
    ensures var r := SplitParagraphs(content, splitText);
            SplitParagraphs(Paragraphs(r), splitAgain) == r
  {
    RemoveEmptyKeeps(SplitParagraphs(content, splitText));
  }

  /**
   * The test with single line breaks, for any three lines: each line becomes a
   * paragraph.
   */
  lemma SplitsSingleLinebreaks(a: string, b: string, c: string)
    requires a != "" && b != "" && c != ""
    requires '\n' !in a && '\n' !in b && '\n' !in c
    ensures SplitParagraphs(Plain(a + "\n" + b + "\n" + c), true) == [a, b, c]
  {
    assert a + "\n" + b + "\n" + c == a + ['\n'] + (b + ['\n'] + c);
    SplitAtSeparator(a, b + ['\n'] + c, '\n');
    SplitAtSeparator(b, c, '\n');
    SplitWithoutSeparator(c, '\n');
    assert Split(a + "\n" + b + "\n" + c, '\n') == [a, b, c];
    RemoveEmptyKeeps([a, b, c]);
  }

  /**
   * The test with leading, repeated and trailing line breaks, for any two lines:
   * the empty pieces between the breaks are dropped.
   */
  lemma SplitsMultipleLinebreaks(a: string, b: string)
    requires a != "" && b != ""
    requires '\n' !in a && '\n' !in b
    ensures SplitParagraphs(Plain("\n" + a + "\n\n\n" + b + "\n\n"), true) == [a, b]
  {
    var nl := ['\n'];
    var t5 := "" + nl + "";
    var t4 := b + nl + t5;
    var t3 := "" + nl + t4;
    var t2 := "" + nl + t3;
    var t1 := a + nl + t2;
    assert "\n" + a + "\n\n\n" + b + "\n\n" == "" + nl + t1;
    SplitAtSeparator("", "", '\n');
    assert Split(t5, '\n') == ["", ""];
    SplitAtSeparator(b, t5, '\n');
    var p4 := [b, "", ""];
    assert Split(t4, '\n') == p4;
    SplitAtSeparator("", t4, '\n');
    var p3 := [""] + p4;
    SplitAtSeparator("", t3, '\n');
    var p2 := [""] + p3;
    SplitAtSeparator(a, t2, '\n');
    var p1 := [a] + p2;
    SplitAtSeparator("", t1, '\n');
    var p0 := [""] + p1;
    assert Split("" + nl + t1, '\n') == p0;
    assert RemoveEmpty(p4) == [b] by {
      assert p4[1..] == ["", ""];
      assert RemoveEmpty(["", ""]) == [];
    }
    assert RemoveEmpty(p3) == [b] by { assert p3[1..] == p4; }
    assert RemoveEmpty(p2) == [b] by { assert p2[1..] == p3; }
    assert RemoveEmpty(p1) == [a, b] by { assert p1[1..] == p2; }
    assert RemoveEmpty(p0) == [a, b] by { assert p0[1..] == p1; }
  }
}
