/**
 * The n-gram settings codec: the settings are stored in the URL as one string of
 * `key:value` pairs joined by `,`, and read back with defaults for what is missing.
 */
module Ngram {
  import opened Wrappers
  import opened Strings

  datatype NgramMode = Ngrams | Collocates

  /**
   * The settings. Numbers are integers here; `positions` is optional (None is
   * `undefined`).
   */
  datatype NgramSettings = NgramSettings(
    mode: NgramMode,
    size: int,
    positions: Option<string>,
    freqCompensation: bool,
    analysis: string,
    maxDocuments: int,
    numberOfNgrams: int
  )

  /** `${b}` for a boolean. */
  function BoolToString(b: bool): string {
    if b then "true" else "false"
  }

  /** `${x}` for an optional string: `undefined` when it is absent. */
  function OptionalToString(x: Option<string>): string {
    match x
    case None => "undefined"
    case Some(s) => s
  }

  /** The seven `key:value` pieces, in the order o, s, p, c, a, m, n. */
  function Pieces(state: NgramSettings): (r: seq<string>)
    ensures |r| == 7
  {
    [ "o:" + (if state.mode == Collocates then "c" else "n"),
      "s:" + IntToString(state.size),
      "p:" + OptionalToString(state.positions),
      "c:" + BoolToString(state.freqCompensation),
      "a:" + state.analysis,
      "m:" + IntToString(state.maxDocuments),
      "n:" + IntToString(state.numberOfNgrams) ]
  }

  /** `stringifyNgramSettings`: the pieces joined by `,`. */
  function StringifyNgramSettings(state: NgramSettings): string {
    Join(Pieces(state), ",")
  }

  /** `stateToStore`: the settings string under the `ngramSettings` parameter. */
  function StateToStore(state: NgramSettings): map<string, string> {
    map["ngramSettings" := StringifyNgramSettings(state)]
  }

  /** `part.split(':', 2)`: the pieces between `:`, of which at most the first two are kept. */
  function SplitLimit2(part: string): (r: seq<string>)
    ensures 1 <= |r| <= 2
  {
    var pieces := Split(part, ':');
    if |pieces| <= 2 then pieces else pieces[..2]
  }

  /** The value a pair gives its key: its second element, or `undefined` when it has none. */
  function PairValue(pair: seq<string>): Option<string>
    requires |pair| >= 1
  {
    if |pair| >= 2 then Some(pair[1]) else None
  }

  /**
   * `_.fromPairs`: each pair sets its first element to its value, left to right, so
   * a later pair with the same key overrides an earlier one.
   */
  function FromPairs(pairs: seq<seq<string>>): map<string, Option<string>>
    requires forall i :: 0 <= i < |pairs| ==> |pairs[i]| >= 1
    decreases |pairs|
  {
    if pairs == [] then map[]
    else
      var last := pairs[|pairs| - 1];
      FromPairs(pairs[..|pairs| - 1])[last[0] := PairValue(last)]
  }

  /** The keys are the first elements of the pairs. */
  lemma {:induction false} FromPairsKeys(pairs: seq<seq<string>>, k: string)
    requires forall i :: 0 <= i < |pairs| ==> |pairs[i]| >= 1
    ensures k in FromPairs(pairs) <==> exists i :: 0 <= i < |pairs| && pairs[i][0] == k
    decreases |pairs|
  {
    if pairs != [] {
      var init := pairs[..|pairs| - 1];
      FromPairsKeys(init, k);
      if exists i :: 0 <= i < |pairs| && pairs[i][0] == k {
        var i :| 0 <= i < |pairs| && pairs[i][0] == k;
        if i < |init| {
          assert init[i] == pairs[i];
        }
      }
      if exists i :: 0 <= i < |init| && init[i][0] == k {
        var i :| 0 <= i < |init| && init[i][0] == k;
        assert pairs[i] == init[i];
      }
    }
  }

  /** A key takes the value of the last pair that sets it. */
  lemma {:induction false} FromPairsLast(pairs: seq<seq<string>>, i: nat)
    requires forall j :: 0 <= j < |pairs| ==> |pairs[j]| >= 1
    requires i < |pairs|
    requires forall j :: i < j < |pairs| ==> pairs[j][0] != pairs[i][0]
    ensures pairs[i][0] in FromPairs(pairs) && FromPairs(pairs)[pairs[i][0]] == PairValue(pairs[i])
    decreases |pairs|
  {
    var init := pairs[..|pairs| - 1];
    if i < |init| {
      assert init[i] == pairs[i];
      FromPairsLast(init, i);
    }
  }

  /** `parseParamString`: the pairs of the `,`-separated pieces, split at `:`. */
  function ParseParamString(value: string): map<string, Option<string>> {
    var parts := Split(value, ',');
    FromPairs(seq(|parts|, i requires 0 <= i < |parts| => SplitLimit2(parts[i])))
  }

  /** `_.get(parsed, key)`: absent keys and keys without a value read as `undefined`. */
  function Lookup(parsed: map<string, Option<string>>, key: string): Option<string> {
    if key in parsed then parsed[key] else None
  }

  /** The digits after optional white space and an optional sign. */
  function SignedDigits(s: string): (r: (bool, string))
    ensures AllDigits(r.1)
    decreases |s|
  {
    if s != [] && IsJsWhitespace(s[0]) then SignedDigits(s[1..])
    else
      var negative := s != [] && s[0] == '-';
      var rest := if s != [] && (s[0] == '-' || s[0] == '+') then s[1..] else s;
      (negative, rest[..LeadingDigits(rest)])
  }

  /**
   * `parseInt(value, 10)`: leading white space, an optional sign and the longest run
   * of decimal digits; NaN (None) when there is no digit or no value.
   */
  function JsParseInt(value: Option<string>): Option<int> {
    match value
    case None => None
    case Some(s) =>
      var (negative, digits) := SignedDigits(s);
      var v: int := DigitsValue(digits);
      if digits == [] then None else if negative then Some(-v) else Some(v)
  }

  /** The settings' private `parseInt`: the parsed number, or the default when it is NaN. */
  function ParseIntOr(value: Option<string>, default: int): int {
    JsParseInt(value).GetOr(default)
  }

  /**
   * `storeToState`: the settings read from the `ngramSettings` parameter (the empty
   * string when it is missing), each with its default when its key is missing.
   */
  function StoreToState(params: map<string, string>): NgramSettings {
    var parsed := ParseParamString(if "ngramSettings" in params then params["ngramSettings"] else "");
    NgramSettings(
      if Lookup(parsed, "o") == Some("c") then Collocates else Ngrams,
      ParseIntOr(Lookup(parsed, "s"), 2),
      Some(Lookup(parsed, "p").GetOr("any")),
      Lookup(parsed, "c") == Some("true"),
      Lookup(parsed, "a").GetOr("none"),
      ParseIntOr(Lookup(parsed, "m"), 50),
      ParseIntOr(Lookup(parsed, "n"), 10))
  }

  /** Without stored settings, every field takes its default. */
  lemma StoreToStateDefaults(params: map<string, string>)
    requires "ngramSettings" !in params
    ensures StoreToState(params) == NgramSettings(Ngrams, 2, Some("any"), false, "none", 50, 10)
  {
    var parsed := ParseParamString("");
    assert Split("", ',') == [""];
    assert SplitLimit2("") == [""];
    var pairs := [[""]];
    assert seq(1, i requires 0 <= i < 1 => SplitLimit2([""][i])) == pairs;
    forall k | k != "" ensures k !in parsed {
      FromPairsKeys(pairs, k);
    }
  }

  /** Reading back the decimal rendering of an integer gives the integer. */
  lemma ParseIntToString(n: int)
    ensures JsParseInt(Some(IntToString(n))) == Some(n)
  {
    var m: nat := if n < 0 then -n else n;
    var d := NatToString(m);
    NatToStringValue(m);
    assert !IsJsWhitespace(d[0]);
    assert d[..LeadingDigits(d)] == d by {
      LeadingDigitsOfDigits(d);
    }
    if n < 0 {
      assert IntToString(n) == "-" + d;
      assert ("-" + d)[1..] == d;
    }
  }

  lemma {:induction false} LeadingDigitsOfDigits(d: string)
    requires AllDigits(d)
    ensures LeadingDigits(d) == |d|
    decreases |d|
  {
    if d != [] {
      LeadingDigitsOfDigits(d[1..]);
    }
  }

  /** A piece `k:v` with a one-character key and no `:` in `v` splits into `[k, v]`. */
  lemma SplitPiece(k: char, v: string)
    requires k != ':' && ':' !in v
    ensures SplitLimit2([k, ':'] + v) == [[k], v]
  {
    SplitAtSeparator([k], v, ':');
    SplitWithoutSeparator(v, ':');
    assert [k, ':'] + v == [k] + [':'] + v;
  }

  /** A value holding `:` is cut at it: `p:a:b` reads as the pair `[p, a]`. */
  lemma SplitLimit2Truncates(k: char, v: string, w: string)
    requires k != ':' && ':' !in v && ':' !in w
    ensures SplitLimit2([k, ':'] + v + [':'] + w) == [[k], v]
  {
    SplitAtSeparator(v, w, ':');
    SplitAtSeparator([k], v + [':'] + w, ':');
    assert [k, ':'] + v + [':'] + w == [k] + [':'] + (v + [':'] + w);
  }

  /** No rendered number holds `,` or `:`. */
  lemma IntStringPlain(n: int)
    ensures ',' !in IntToString(n) && ':' !in IntToString(n)
  {
    var m: nat := if n < 0 then -n else n;
    var d := NatToString(m);
    assert forall i :: 0 <= i < |d| ==> IsDigit(d[i]);
  }

  /** The settings a round trip can carry: positions defined, and no `,` or `:` in the strings. */
  predicate Storable(state: NgramSettings) {
    && state.positions.Some?
    && ',' !in state.positions.value && ':' !in state.positions.value
    && ',' !in state.analysis && ':' !in state.analysis
  }

  /** A key, `:` and a value free of `,` make a piece free of `,`. */
  lemma PieceWithoutComma(k: char, v: string)
    requires k != ',' && ',' !in v
    ensures ',' !in [k, ':'] + v
  {
    assert forall i :: 2 <= i < |[k, ':'] + v| ==> ([k, ':'] + v)[i] == v[i - 2];
  }

  /** The pieces of storable settings contain no `,`. */
  lemma PiecesWithoutComma(state: NgramSettings)
    requires Storable(state)
    ensures forall i :: 0 <= i < 7 ==> ',' !in Pieces(state)[i]
  {
    var ps := Pieces(state);
    IntStringPlain(state.size);
    IntStringPlain(state.maxDocuments);
    IntStringPlain(state.numberOfNgrams);
    PieceWithoutComma('o', if state.mode == Collocates then "c" else "n");
    PieceWithoutComma('s', IntToString(state.size));
    PieceWithoutComma('p', state.positions.value);
    PieceWithoutComma('c', BoolToString(state.freqCompensation));
    PieceWithoutComma('a', state.analysis);
    PieceWithoutComma('m', IntToString(state.maxDocuments));
    PieceWithoutComma('n', IntToString(state.numberOfNgrams));
    assert ps[0] == ['o', ':'] + (if state.mode == Collocates then "c" else "n");
    assert ps[3] == ['c', ':'] + BoolToString(state.freqCompensation);
  }

  /** The pieces of storable settings contain no `,`, and each splits into its key and value. */
  lemma PiecesSplit(state: NgramSettings)
    requires Storable(state)
    ensures forall i :: 0 <= i < 7 ==> ',' !in Pieces(state)[i]
    ensures var ps := Pieces(state);
            && SplitLimit2(ps[0]) == ["o", if state.mode == Collocates then "c" else "n"]
            && SplitLimit2(ps[1]) == ["s", IntToString(state.size)]
            && SplitLimit2(ps[2]) == ["p", state.positions.value]
            && SplitLimit2(ps[3]) == ["c", BoolToString(state.freqCompensation)]
            && SplitLimit2(ps[4]) == ["a", state.analysis]
            && SplitLimit2(ps[5]) == ["m", IntToString(state.maxDocuments)]
            && SplitLimit2(ps[6]) == ["n", IntToString(state.numberOfNgrams)]
  {
    var mode := if state.mode == Collocates then "c" else "n";
    PiecesWithoutComma(state);
    IntStringPlain(state.size);
    IntStringPlain(state.maxDocuments);
    IntStringPlain(state.numberOfNgrams);
    SplitPiece('o', mode);
    SplitPiece('s', IntToString(state.size));
    SplitPiece('p', state.positions.value);
    SplitPiece('c', BoolToString(state.freqCompensation));
    SplitPiece('a', state.analysis);
    SplitPiece('m', IntToString(state.maxDocuments));
    SplitPiece('n', IntToString(state.numberOfNgrams));
  }

  /** Seven pairs with the keys o, s, p, c, a, m, n give each key its value. */
  lemma ParseSevenPairs(pairs: seq<seq<string>>, vo: string, vs: string, vp: string, vc: string, va: string, vm: string, vn: string)
    requires pairs == [["o", vo], ["s", vs], ["p", vp], ["c", vc], ["a", va], ["m", vm], ["n", vn]]
    ensures var parsed := FromPairs(pairs);
            && Lookup(parsed, "o") == Some(vo) && Lookup(parsed, "s") == Some(vs)
            && Lookup(parsed, "p") == Some(vp) && Lookup(parsed, "c") == Some(vc)
            && Lookup(parsed, "a") == Some(va) && Lookup(parsed, "m") == Some(vm)
            && Lookup(parsed, "n") == Some(vn)
  {
    assert forall j :: 0 <= j < 7 ==> |pairs[j][0]| == 1;
    assert pairs[0][0][0] == 'o' && pairs[1][0][0] == 's' && pairs[2][0][0] == 'p' && pairs[3][0][0] == 'c';
    assert pairs[4][0][0] == 'a' && pairs[5][0][0] == 'm' && pairs[6][0][0] == 'n';
    FromPairsLast(pairs, 0);
    FromPairsLast(pairs, 1);
    FromPairsLast(pairs, 2);
    FromPairsLast(pairs, 3);
    FromPairsLast(pairs, 4);
    FromPairsLast(pairs, 5);
    FromPairsLast(pairs, 6);
  }

  /** Parsing the stored string gives each key its value. */
  lemma ParseStored(state: NgramSettings)
    requires Storable(state)
    ensures var parsed := ParseParamString(StringifyNgramSettings(state));
            && Lookup(parsed, "o") == Some(if state.mode == Collocates then "c" else "n")
            && Lookup(parsed, "s") == Some(IntToString(state.size))
            && Lookup(parsed, "p") == Some(state.positions.value)
            && Lookup(parsed, "c") == Some(BoolToString(state.freqCompensation))
            && Lookup(parsed, "a") == Some(state.analysis)
            && Lookup(parsed, "m") == Some(IntToString(state.maxDocuments))
            && Lookup(parsed, "n") == Some(IntToString(state.numberOfNgrams))
  {
    var ps := Pieces(state);
    PiecesSplit(state);
    SplitJoin(ps, ',');
    var parts := Split(StringifyNgramSettings(state), ',');
    var pairs := seq(|parts|, i requires 0 <= i < |parts| => SplitLimit2(parts[i]));
    assert pairs == [SplitLimit2(ps[0]), SplitLimit2(ps[1]), SplitLimit2(ps[2]), SplitLimit2(ps[3]),
                     SplitLimit2(ps[4]), SplitLimit2(ps[5]), SplitLimit2(ps[6])];
    ParseSevenPairs(pairs, if state.mode == Collocates then "c" else "n", IntToString(state.size),
      state.positions.value, BoolToString(state.freqCompensation), state.analysis,
      IntToString(state.maxDocuments), IntToString(state.numberOfNgrams));
  }

  /**
   * Round trip: storing settings and reading them back gives the same settings, for
   * positions that are defined and strings free of `,` and `:`.
   */
  lemma StoreRoundTrip(state: NgramSettings)
    requires Storable(state)
    ensures StoreToState(StateToStore(state)) == state
  {
    ParseStored(state);
    ParseIntToString(state.size);
    ParseIntToString(state.maxDocuments);
    ParseIntToString(state.numberOfNgrams);
  }

  /** Undefined positions are stored as the text `undefined` and come back as that string. */
  lemma UndefinedPositionsComeBackAsText(state: NgramSettings)
    requires state.positions.None?
    requires ',' !in state.analysis && ':' !in state.analysis
    ensures StoreToState(StateToStore(state)).positions == Some("undefined")
  {
    ParseStored(state.(positions := Some("undefined")));
    assert StringifyNgramSettings(state) == StringifyNgramSettings(state.(positions := Some("undefined")));
  }
}
