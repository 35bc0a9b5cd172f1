/**
 * The snippet pipe: the leading characters of a text, with an ellipsis when it
 * is cut. A list of paragraphs is cut once the character budget runs out.
 */
module Snippet {
  import opened Strings
  import opened DocumentContent

  /**
   * `transform` on a string with a budget of `n` characters: a text longer than
   * the budget is cut to its first `n` characters, trailing whitespace is
   * removed, and `...` is appended; a shorter text (the empty one included) is
   * returned as it is.
   */
  function SnipText(text: string, n: nat): (r: string)
    ensures |text| <= n ==> r == text
    ensures |text| > n ==>
              && |r| >= 3 && r[|r| - 3..] == "..."
              && var kept := r[..|r| - 3];
              && |kept| <= n && kept == text[..|kept|]
              && (kept == [] || !IsJsWhitespace(kept[|kept| - 1]))
              && (forall i :: |kept| <= i < n ==> IsJsWhitespace(text[i]))
  {
    if |text| == 0 then text
    else if |text| > n then
      var r := TrimEnd(text[..n]) + "...";
      assert r[..|r| - 3] == TrimEnd(text[..n]);
      r
    else text
  }

  /** The number of characters in a list of paragraphs. */
  function Total(items: seq<string>): nat
    decreases |items|
  {
    if items == [] then 0 else |items[0]| + Total(items[1..])
  }

  /**
   * `transform` on a list: paragraphs are kept whole while they are shorter than
   * what is left of the budget; the first one that reaches it is snipped to the
   * rest of the budget and ends the list.
   */
  function SnipArray(items: seq<string>, n: nat): seq<string>
    decreases |items|
  {
    if |items| == 0 then items
    else if |items[0]| >= n then [SnipText(items[0], n)]
    else
      // the rest gets a budget of at least one character
      [items[0]] + SnipArray(items[1..], n - |items[0]|)
  }

  /**
   * `transform`: a string gives a string, snipped as `SnipText` describes, and a
   * list gives a list, cut as `SnipArray` describes; an empty string or list
   * comes back unchanged.
   */
  function Transform(text: Text, n: nat): (r: Text)
    ensures r.Plain? <==> text.Plain?
    ensures text.Plain? ==> r == Plain(SnipText(text.s, n))
    ensures text.Paragraphs? ==> r == Paragraphs(SnipArray(text.items, n))
    ensures text.Plain? && |text.s| <= n ==> r == text
    ensures text == Paragraphs([]) ==> r == text
  {
    match text
    case Plain(s) => Plain(SnipText(s, n))
    case Paragraphs(items) => Paragraphs(SnipArray(items, n))
  }

  /** The number of characters in the first `k` paragraphs. */
  function Running(items: seq<string>, k: nat): nat
    requires k <= |items|
  {
    Total(items[..k])
  }

  /** The running total after one more paragraph counts the first one and a running total of the rest. */
  lemma RunningStep(items: seq<string>, k: nat)
    requires k < |items|
    ensures Running(items, k + 1) == |items[0]| + Running(items[1..], k)
  {
    assert items[..k + 1][1..] == items[1..][..k];
  }

  /** Every running total of the first `k` paragraphs stays under the budget. */
  ghost predicate FitsUpTo(items: seq<string>, n: nat, k: int) {
    forall j :: 1 <= j <= k && j <= |items| ==> Running(items, j) < n
  }

  /** Running totals of the rest, shifted by the first paragraph. */
  lemma FitsStep(items: seq<string>, n: nat, k: int)
    requires |items| > 0 && |items[0]| < n
    ensures FitsUpTo(items, n, k + 1) <==> FitsUpTo(items[1..], n - |items[0]|, k)
  {
    assert Running(items, 1) == |items[0]| by {
      RunningStep(items, 0);
    }
    forall j | 1 <= j <= k && j <= |items| - 1 ensures Running(items, j + 1) == |items[0]| + Running(items[1..], j) {
      RunningStep(items, j);
    }
    if FitsUpTo(items, n, k + 1) {
      forall j | 1 <= j <= k && j <= |items| - 1 ensures Running(items[1..], j) < n - |items[0]| {
        assert Running(items, j + 1) < n;
      }
    }
    if FitsUpTo(items[1..], n - |items[0]|, k) {
      forall j | 1 <= j <= k + 1 && j <= |items| ensures Running(items, j) < n {
        if j > 1 {
          assert Running(items, (j - 1) + 1) == |items[0]| + Running(items[1..], j - 1);
        }
      }
    }
  }

  /**
   * The paragraphs before the last one of the snippet are kept as they are, and
   * each of their running totals stays under the budget.
   */
  lemma {:induction false} SnipArrayKeeps(items: seq<string>, n: nat)
    ensures var r := SnipArray(items, n);
            && |r| <= |items|
            && (forall k :: 0 <= k < |r| - 1 ==> r[k] == items[k])
            && FitsUpTo(items, n, |r| - 1)
    decreases |items|
  {
    if |items| > 0 && |items[0]| < n {
      var n' := n - |items[0]|;
      var rest := SnipArray(items[1..], n');
      SnipArrayKeeps(items[1..], n');
      var r := [items[0]] + rest;
      assert SnipArray(items, n) == r;
      forall k | 1 <= k < |r| - 1 ensures r[k] == items[k] {
        assert r[k] == rest[k - 1];
      }
      FitsStep(items, n, |rest| - 1);
    }
  }

  /** When every running total stays under the budget, the list is kept whole. */
  lemma {:induction false} SnipArrayWhole(items: seq<string>, n: nat)
    requires FitsUpTo(items, n, |items|)
    ensures SnipArray(items, n) == items
    decreases |items|
  {
    if |items| > 0 {
      assert Running(items, 1) < n;
      RunningStep(items, 0);
      FitsStep(items, n, |items| - 1);
      SnipArrayWhole(items[1..], n - |items[0]|);
      assert [items[0]] + items[1..] == items;
    }
  }

  /**
   * When some running total reaches the budget, the snippet ends with the first
   * paragraph that reaches it, snipped to what was left of the budget before it.
   */
  lemma {:induction false} SnipArrayCut(items: seq<string>, n: nat)
    requires !FitsUpTo(items, n, |items|)
    ensures var r := SnipArray(items, n);
            && 0 < |r| <= |items|
            && Running(items, |r|) >= n
            && Running(items, |r| - 1) <= n
            && r[|r| - 1] == SnipText(items[|r| - 1], n - Running(items, |r| - 1))
    decreases |items|
  {
    RunningStep(items, 0);
    assert items[..0] == [];
    if |items[0]| < n {
      var n' := n - |items[0]|;
      FitsStep(items, n, |items| - 1);
      SnipArrayCut(items[1..], n');
      var rest := SnipArray(items[1..], n');
      var r := [items[0]] + rest;
      assert SnipArray(items, n) == r;
      RunningStep(items, |rest|);
      RunningStep(items, |rest| - 1);
      assert r[|r| - 1] == rest[|rest| - 1] && items[|r| - 1] == items[1..][|rest| - 1];
      assert n - Running(items, |r| - 1) == n' - Running(items[1..], |rest| - 1);
    }
  }

  /** The first test: the opening line of the sonnet, cut at 20 characters. */
  lemma TruncatesLongText(rest: string)
    requires rest != ""
    ensures SnipText("Shall I compare thee" + rest, 20) == "Shall I compare thee..."
  {
    var text := "Shall I compare thee" + rest;
    assert text[..20] == "Shall I compare thee";
  }

  /** The second test: a text within the budget is left as it is. */
  lemma LeavesShortText()
    ensures SnipText("Shall I compare thee to a summer's day?", 50) == "Shall I compare thee to a summer's day?"
  {
  }
}
