/**
 * Term vectors of a document field: listing the tokens of each term, sorting them
 * by position, and finding the windows of tokens that match the components of an
 * analyzed query.
 */
module TermVectors {
  import opened Wrappers
  import opened Strings

  /** The details Elasticsearch reports for one term: its `ttf`, if requested, and the positions of its tokens. */
  datatype TermDetails = TermDetails(ttf: Option<int>, positions: seq<int>)

  /** One entry of the `terms` dict, in the dict's order. */
  datatype TermEntry = TermEntry(term: string, details: TermDetails)

  /** The term vector of one field. */
  datatype FieldVector = FieldVector(terms: seq<TermEntry>)

  /** A token record: its position, its term and the term's `ttf`. */
  datatype Token = Token(position: int, term: string, ttf: int)

  /** `get_terms`: the field's `terms` when the field has a term vector, else None. */
  function GetTerms(termVectors: map<string, FieldVector>, field: string): (r: Option<seq<TermEntry>>)
  {
    if field in termVectors then Some(termVectors[field].terms) else None
  }

  /** `ttf` when reported, else 0. */
  function Ttf(details: TermDetails): int {
    details.ttf.GetOr(0)
  }

  /** `list_tokens`: one token per reported position, in order, all with the term and its `ttf`. */
  function ListTokens(term: string, details: TermDetails): (r: seq<Token>)
  {
    seq(|details.positions|, i requires 0 <= i < |details.positions| => Token(details.positions[i], term, Ttf(details)))
  }

  /** The tokens of every term, term by term in the dict's order. */
  function AllTokens(terms: seq<TermEntry>): seq<Token>
    decreases |terms|
  {
    if terms == [] then [] else ListTokens(terms[0].term, terms[0].details) + AllTokens(terms[1..])
  }

  /** A token is listed exactly when some term reports its position. */
  lemma {:induction false} AllTokensSpec(terms: seq<TermEntry>, t: Token)
    ensures t in AllTokens(terms) <==>
              exists k, j :: 0 <= k < |terms| && 0 <= j < |terms[k].details.positions|
                             && t == Token(terms[k].details.positions[j], terms[k].term, Ttf(terms[k].details))
    decreases |terms|
  {
    if terms != [] {
      AllTokensSpec(terms[1..], t);
      var e := terms[0];
      if t in ListTokens(e.term, e.details) {
        var j :| 0 <= j < |e.details.positions| && ListTokens(e.term, e.details)[j] == t;
        assert 0 <= 0 < |terms| && t == Token(terms[0].details.positions[j], terms[0].term, Ttf(terms[0].details));
      }
      if exists k, j :: 0 <= k < |terms| && 0 <= j < |terms[k].details.positions|
                       && t == Token(terms[k].details.positions[j], terms[k].term, Ttf(terms[k].details)) {
        var k, j :| 0 <= k < |terms| && 0 <= j < |terms[k].details.positions|
                    && t == Token(terms[k].details.positions[j], terms[k].term, Ttf(terms[k].details));
        if k == 0 {
          assert ListTokens(e.term, e.details)[j] == t;
        } else {
          assert terms[1..][k - 1] == terms[k];
        }
      }
      forall k, j | 0 <= k < |terms[1..]| && 0 <= j < |terms[1..][k].details.positions|
                    && t == Token(terms[1..][k].details.positions[j], terms[1..][k].term, Ttf(terms[1..][k].details))
        ensures t in AllTokens(terms)
      {
        assert terms[k + 1] == terms[1..][k];
      }
    }
  }

  // ---------------------------------------------------------------------------
  // Sorting by position (Python's `sorted`, which is stable)

  predicate SortedByPosition(s: seq<Token>) {
    forall a, b :: 0 <= a < b < |s| ==> s[a].position <= s[b].position
  }

  /** Insert `x` before the first token whose position is not below its own. */
  function Insert(x: Token, s: seq<Token>): (r: seq<Token>)
    ensures multiset(r) == multiset{x} + multiset(s)
    decreases |s|
  {
    if s == [] || x.position <= s[0].position then [x] + s
    else
      assert s == [s[0]] + s[1..];
      [s[0]] + Insert(x, s[1..])
  }

  /** `sorted(tokens, key=position)`. */
  function SortByPosition(s: seq<Token>): (r: seq<Token>)
    ensures multiset(r) == multiset(s)
    decreases |s|
  {
    if s == [] then []
    else
      assert s == [s[0]] + s[1..];
      Insert(s[0], SortByPosition(s[1..]))
  }

  lemma {:induction false} InsertSorted(x: Token, s: seq<Token>)
    requires SortedByPosition(s)
    ensures SortedByPosition(Insert(x, s))
    decreases |s|
  {
    if s != [] && x.position > s[0].position {
      InsertSorted(x, s[1..]);
      var tail := Insert(x, s[1..]);
      forall t | t in tail ensures s[0].position <= t.position {
        assert t in multiset(tail);
        if t != x {
          assert t in multiset(s[1..]);
        }
      }
      forall a, b | 0 <= a < b < |[s[0]] + tail|
        ensures ([s[0]] + tail)[a].position <= ([s[0]] + tail)[b].position
      {
        if a == 0 {
          assert ([s[0]] + tail)[b] == tail[b - 1];
          assert tail[b - 1] in tail;
        }
      }
    }
  }

  /** The result of `sorted` is in non-decreasing position order. */
  lemma {:induction false} SortSorted(s: seq<Token>)
    ensures SortedByPosition(SortByPosition(s))
    decreases |s|
  {
    if s != [] {
      SortSorted(s[1..]);
      InsertSorted(s[0], SortByPosition(s[1..]));
    }
  }

  /** The tokens at one position, in order. */
  function AtPosition(s: seq<Token>, p: int): seq<Token>
    decreases |s|
  {
    if s == [] then []
    else (if s[0].position == p then [s[0]] else []) + AtPosition(s[1..], p)
  }

  lemma {:induction false} InsertAtPosition(x: Token, s: seq<Token>, p: int)
    ensures AtPosition(Insert(x, s), p) == (if x.position == p then [x] else []) + AtPosition(s, p)
    decreases |s|
  {
    if s == [] || x.position <= s[0].position {
      assert ([x] + s)[1..] == s;
    } else {
      InsertAtPosition(x, s[1..], p);
      assert ([s[0]] + Insert(x, s[1..]))[1..] == Insert(x, s[1..]);
    }
  }

  /** Stability: the tokens at each position keep their relative order. */
  lemma {:induction false} SortStable(s: seq<Token>, p: int)
    ensures AtPosition(SortByPosition(s), p) == AtPosition(s, p)
    decreases |s|
  {
    if s != [] {
      SortStable(s[1..], p);
      InsertAtPosition(s[0], SortByPosition(s[1..]), p);
    }
  }

  /**
   * `get_tokens`: no tokens for missing or empty terms; otherwise all tokens,
   * sorted by position when `sort` is set.
   */
  function GetTokens(terms: Option<seq<TermEntry>>, sort: bool): (r: seq<Token>)
    ensures terms.None? || terms.value == [] ==> r == []
    ensures terms.Some? && terms.value != [] && !sort ==> r == AllTokens(terms.value)
    ensures terms.Some? && sort ==> multiset(r) == multiset(AllTokens(terms.value))
  {
    match terms
    case None => []
    case Some(ts) =>
      if ts == [] then []
      else if sort then SortByPosition(AllTokens(ts))
      else AllTokens(ts)
  }

  /** The sorted tokens are the unsorted ones, reordered by position and stably. */
  lemma GetTokensSorted(terms: seq<TermEntry>)
    ensures multiset(GetTokens(Some(terms), true)) == multiset(GetTokens(Some(terms), false))
    ensures SortedByPosition(GetTokens(Some(terms), true))
    ensures forall p :: AtPosition(GetTokens(Some(terms), true), p) == AtPosition(GetTokens(Some(terms), false), p)
  {
    SortSorted(AllTokens(terms));
    forall p ensures AtPosition(GetTokens(Some(terms), true), p) == AtPosition(GetTokens(Some(terms), false), p) {
      SortStable(AllTokens(terms), p);
    }
  }

  // ---------------------------------------------------------------------------
  // Matching query terms

  /**
   * The wildcard (`re.match`) and fuzzy (Damerau-Levenshtein distance) comparisons,
   * which rest on library code, taken as given: `wildcard(query, term)`,
   * `fuzzy(term, query)`.
   */
  datatype Matchers = Matchers(wildcard: (string, string) -> bool, fuzzy: (string, string) -> bool)

  /** `'.*' in query_term`. */
  predicate HasWildcard(q: string) {
    exists k :: 0 <= k < |q| - 1 && q[k] == '.' && q[k + 1] == '*'
  }

  /** What `\S` matches: every character but the whitespace that Python's `\s` matches in a `str` pattern. */
  predicate IsNonSpace(c: char) {
    && c !in {' ', '\t', '\n', '\r', '\U{B}', '\U{C}', '\U{1C}', '\U{1D}', '\U{1E}', '\U{1F}', '\U{85}', '\U{A0}'}
    && c !in {'\U{1680}', '\U{2028}', '\U{2029}', '\U{202F}', '\U{205F}', '\U{3000}'}
    && !('\U{2000}' <= c <= '\U{200A}')
  }

  /**
   * `re.search(r'(\S+)~(\d+)$', q)` succeeds: a `~` with a non-space before it and
   * one or more digits after it up to the end, or up to a final newline.
   */
  predicate HasFuzzySuffix(q: string) {
    exists k :: 0 < k < |q| && q[k] == '~' && IsNonSpace(q[k - 1])
                && var rest := if q[|q| - 1] == '\n' then q[k + 1..|q| - 1] else q[k + 1..];
                   rest != [] && AllDigits(rest)
  }

  /** `terms_match`: wildcard first, then fuzzy, otherwise string equality. */
  function TermsMatch(term: string, q: string, m: Matchers): bool {
    if HasWildcard(q) then m.wildcard(q, term)
    else if HasFuzzySuffix(q) then m.fuzzy(term, q)
    else term == q
  }

  /** A query term with neither a wildcard nor a fuzzy suffix matches exactly the equal term. */
  lemma TermsMatchPlain(term: string, q: string, m: Matchers)
    requires !HasWildcard(q) && !HasFuzzySuffix(q)
    ensures TermsMatch(term, q, m) <==> term == q
  {
  }

  /** Words with no `.` or `~` are compared by equality: `fox` matches `fox` and nothing else. */
  lemma PlainWordMatchesItself(q: string, m: Matchers)
    requires forall i :: 0 <= i < |q| ==> q[i] != '.' && q[i] != '~'
    ensures forall term :: TermsMatch(term, q, m) <==> term == q
  {
  }

  /** `filter(None, analyzed_components)`: the non-empty components, in order. */
  function NonEmptyComponents(components: seq<seq<string>>): (r: seq<seq<string>>)
    ensures forall c :: c in r <==> c in components && c != []
    ensures |r| <= |components|
    decreases |components|
  {
    if components == [] then []
    else (if components[0] != [] then [components[0]] else []) + NonEmptyComponents(components[1..])
  }

  /** One match: the window `tokens[start..stop]` and its terms joined by single spaces. */
  datatype Match = Match(start: nat, stop: nat, content: string)

  /** The terms of `tokens[start..stop]`, in order. */
  function WindowTerms(tokens: seq<Token>, start: nat, stop: nat): (r: seq<string>)
    requires start <= stop <= |tokens|
  {
    seq(stop - start, j requires 0 <= j < stop - start => tokens[start + j].term)
  }

  /** The component matches the tokens from position `i` on, term by term. */
  predicate WindowMatches(tokens: seq<Token>, component: seq<string>, i: nat, m: Matchers) {
    i + |component| <= |tokens| && forall j :: 0 <= j < |component| ==> TermsMatch(tokens[i + j].term, component[j], m)
  }

  function MatchOf(tokens: seq<Token>, component: seq<string>, i: nat): Match
    requires i + |component| <= |tokens|
  {
    Match(i, i + |component|, Join(WindowTerms(tokens, i, i + |component|), " "))
  }

  /** The inner loop of `token_matches`: the components that match at token `i`, in query order. */
  function MatchesAt(tokens: seq<Token>, query: seq<seq<string>>, i: nat, m: Matchers): (r: seq<Match>)
    ensures forall k :: 0 <= k < |r| ==> r[k].start == i
    decreases |query|
  {
    if query == [] then []
    else
      (if WindowMatches(tokens, query[0], i, m) then [MatchOf(tokens, query[0], i)] else [])
      + MatchesAt(tokens, query[1..], i, m)
  }

  /** The outer loop from token `i` on. */
  function MatchesFrom(tokens: seq<Token>, query: seq<seq<string>>, i: nat, m: Matchers): seq<Match>
    decreases |tokens| - i
  {
    if i >= |tokens| then [] else MatchesAt(tokens, query, i, m) + MatchesFrom(tokens, query, i + 1, m)
  }

  /** `token_matches` over the analyzed query components, after the empty ones are dropped. */
  function TokenMatches(tokens: seq<Token>, analyzed: seq<seq<string>>, m: Matchers): seq<Match> {
    MatchesFrom(tokens, NonEmptyComponents(analyzed), 0, m)
  }

  /** A match of the components at one start is one of those components matching there. */
  lemma {:induction false} MatchesAtSpec(tokens: seq<Token>, query: seq<seq<string>>, i: nat, m: Matchers, x: Match)
    ensures x in MatchesAt(tokens, query, i, m) <==>
              exists c :: c in query && WindowMatches(tokens, c, i, m) && x == MatchOf(tokens, c, i)
    decreases |query|
  {
    if query != [] {
      MatchesAtSpec(tokens, query[1..], i, m, x);
      if exists c :: c in query && WindowMatches(tokens, c, i, m) && x == MatchOf(tokens, c, i) {
        var c :| c in query && WindowMatches(tokens, c, i, m) && x == MatchOf(tokens, c, i);
        if c != query[0] {
          assert c in query[1..];
        }
      }
    }
  }

  /** A match found from `i` on starts at some `s >= i` where a component matches. */
  lemma {:induction false} MatchesFromSpec(tokens: seq<Token>, query: seq<seq<string>>, i: nat, m: Matchers, x: Match)
    ensures x in MatchesFrom(tokens, query, i, m) <==>
              i <= x.start < |tokens| && x in MatchesAt(tokens, query, x.start, m)
    decreases |tokens| - i
  {
    if i < |tokens| {
      MatchesFromSpec(tokens, query, i + 1, m, x);
    }
  }

  /**
   * Soundness and completeness of `token_matches`: a match is reported exactly when
   * some non-empty query component matches the tokens term by term from its start;
   * its stop is the start plus the component's length and lies within the tokens,
   * and its content is the window's terms joined by single spaces.
   */
  lemma TokenMatchesSpec(tokens: seq<Token>, analyzed: seq<seq<string>>, m: Matchers, x: Match)
    ensures x in TokenMatches(tokens, analyzed, m) <==>
              exists c :: c in analyzed && c != [] && WindowMatches(tokens, c, x.start, m) && x == MatchOf(tokens, c, x.start)
    ensures x in TokenMatches(tokens, analyzed, m) ==>
              x.start < x.stop <= |tokens|
              && x.content == Join(WindowTerms(tokens, x.start, x.stop), " ")
  {
    var query := NonEmptyComponents(analyzed);
    MatchesFromSpec(tokens, query, 0, m, x);
    MatchesAtSpec(tokens, query, x.start, m, x);
  }

  /** The matches from `i` on start at `i` or later, in non-decreasing start order. */
  lemma {:induction false} MatchesFromOrdered(tokens: seq<Token>, query: seq<seq<string>>, i: nat, m: Matchers)
    ensures forall k :: 0 <= k < |MatchesFrom(tokens, query, i, m)| ==> MatchesFrom(tokens, query, i, m)[k].start >= i
    ensures forall a, b :: 0 <= a < b < |MatchesFrom(tokens, query, i, m)| ==>
              MatchesFrom(tokens, query, i, m)[a].start <= MatchesFrom(tokens, query, i, m)[b].start
    decreases |tokens| - i
  {
    if i < |tokens| {
      MatchesFromOrdered(tokens, query, i + 1, m);
      var here: seq<Match> := MatchesAt(tokens, query, i, m);
      var later: seq<Match> := MatchesFrom(tokens, query, i + 1, m);
      assert MatchesFrom(tokens, query, i, m) == here + later;
      forall k | 0 <= k < |here + later| ensures (here + later)[k].start >= i {
        if k >= |here| {
          assert (here + later)[k] == later[k - |here|];
        }
      }
      forall a, b | 0 <= a < b < |here + later| ensures (here + later)[a].start <= (here + later)[b].start {
        if b >= |here| {
          assert (here + later)[b] == later[b - |here|];
          if a >= |here| {
            assert (here + later)[a] == later[a - |here|];
          }
        }
      }
    }
  }

  /** `token_matches` yields its matches in non-decreasing order of start. */
  lemma TokenMatchesOrdered(tokens: seq<Token>, analyzed: seq<seq<string>>, m: Matchers)
    ensures forall a, b :: 0 <= a < b < |TokenMatches(tokens, analyzed, m)| ==>
              TokenMatches(tokens, analyzed, m)[a].start <= TokenMatches(tokens, analyzed, m)[b].start
  {
    MatchesFromOrdered(tokens, NonEmptyComponents(analyzed), 0, m);
  }

  /**
   * An analyzed query that has only empty components matches nothing, because no
   * zero-length window is ever tried.
   */
  lemma EmptyComponentsMatchNothing(tokens: seq<Token>, analyzed: seq<seq<string>>, m: Matchers)
    requires forall k :: 0 <= k < |analyzed| ==> analyzed[k] == []
    ensures TokenMatches(tokens, analyzed, m) == []
  {
    if TokenMatches(tokens, analyzed, m) != [] {
      var x := TokenMatches(tokens, analyzed, m)[0];
      TokenMatchesSpec(tokens, analyzed, m, x);
      assert false;
    }
  }
}
