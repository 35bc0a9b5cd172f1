/** Names of analyzers and filters, and the filter definitions shared by all languages. */
module LanguageUtils {
  import opened Wrappers
  import opened Json

  /** `analyzer_name`: `<type>_<language>`, or the bare type without a language. */
  function AnalyzerName(analysisType: string, language: string): string {
    if language != "" then analysisType + "_" + language else analysisType
  }

  /** The position of the first `_`, or the length when there is none. */
  function FirstUnderscore(s: string): (k: nat)
    ensures k <= |s| && '_' !in s[..k]
    ensures k < |s| ==> s[k] == '_'
    decreases |s|
  {
    if s == [] || s[0] == '_' then 0
    else
      var k := 1 + FirstUnderscore(s[1..]);
      assert s[..k] == [s[0]] + s[1..][..k - 1];
      k
  }

  /** The first `_` of `a + b` is the one that starts `b`, when `a` has none. */
  lemma {:induction false} FirstUnderscoreOfConcat(a: string, b: string)
    requires '_' !in a && (b == [] || b[0] == '_')
    ensures FirstUnderscore(a + b) == |a|
    decreases |a|
  {
    if a != [] {
      assert a[0] in a;
      assert (a + b)[1..] == a[1..] + b;
      assert forall c :: c in a[1..] ==> c in a;
      FirstUnderscoreOfConcat(a[1..], b);
    } else {
      assert a + b == b;
    }
  }

  /**
   * Reading a name back: for an analysis type without `_`, the type is everything
   * before the first `_` of the name, and the language is everything after it.
   */
  lemma AnalyzerNameParts(analysisType: string, language: string)
    requires '_' !in analysisType
    ensures var s := AnalyzerName(analysisType, language);
            && FirstUnderscore(s) == |analysisType|
            && s[..FirstUnderscore(s)] == analysisType
            && (FirstUnderscore(s) < |s| <==> language != "")
            && (language != "" ==> s[FirstUnderscore(s) + 1..] == language)
  {
    var s := AnalyzerName(analysisType, language);
    var k := FirstUnderscore(s);
    assert s[..|analysisType|] == analysisType;
    if language != "" {
      FirstUnderscoreOfConcat(analysisType, "_" + language);
      assert s == analysisType + ("_" + language);
    } else {
      FirstUnderscoreOfConcat(analysisType, "");
      assert s == analysisType + "";
    }
  }

  /**
   * Different (type, language) pairs never share a name, as long as the types have
   * no `_`: the filters and analyzers of different languages cannot collide.
   */
  lemma AnalyzerNameInjective(t1: string, l1: string, t2: string, l2: string)
    requires '_' !in t1 && '_' !in t2
    requires AnalyzerName(t1, l1) == AnalyzerName(t2, l2)
    ensures t1 == t2 && l1 == l2
  {
    AnalyzerNameParts(t1, l1);
    AnalyzerNameParts(t2, l2);
  }

  /** `number_char_filter`: a `pattern_replace` that deletes every run of digits. */
  function NumberCharFilter(): Value {
    Object(map["type" := Str("pattern_replace"), "pattern" := Str("\\d+"), "replacement" := Str("")])
  }

  /** The strings of a list, as JSON. */
  function StrArray(words: seq<string>): Value {
    Array(seq(|words|, i requires 0 <= i < |words| => Str(words[i])))
  }

  /** Strings are recovered from their JSON list. */
  function Strs(v: Value): seq<string>
    requires v.Array? && forall i :: 0 <= i < |v.items| ==> v.items[i].Str?
  {
    seq(|v.items|, i requires 0 <= i < |v.items| => v.items[i].s)
  }

  lemma StrArrayRoundTrip(words: seq<string>)
    ensures Strs(StrArray(words)) == words
  {
  }

  /** `stopwords_filter`: a `stop` filter holding the given list unchanged. */
  function StopwordsFilter(stopwords: seq<string>): Value {
    Object(map["type" := Str("stop"), "stopwords" := StrArray(stopwords)])
  }

  /** `stemmer_filter`: a `stemmer` filter for the given stemmer language. */
  function StemmerFilter(language: string): Value {
    Object(map["type" := Str("stemmer"), "language" := Str(language)])
  }

  /** The stop filter carries exactly the words it was given, in order. */
  lemma StopwordsFilterKeepsWords(stopwords: seq<string>)
    ensures Get(StopwordsFilter(stopwords), "type") == Some(Str("stop"))
    ensures var w := Get(StopwordsFilter(stopwords), "stopwords");
            w.Some? && w.value.Array? && (forall i :: 0 <= i < |w.value.items| ==> w.value.items[i].Str?)
            && Strs(w.value) == stopwords
  {
    StrArrayRoundTrip(stopwords);
  }
}
