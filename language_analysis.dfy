/**
 * Language analyzers: for each supported language, the char filters, token filters
 * and analyzers its index settings define. The base behaviour applies to every
 * language; French, German and Chinese override parts of it.
 */
module LanguageAnalysis {
  import opened Wrappers
  import opened Json
  import opened LanguageUtils

  /**
   * The analyzer classes. A legacy analyzer carries its standardized tag and whether
   * stopwords and a stemmer are available for it (both looked up in libraries).
   */
  datatype Language =
    | English
    | Dutch
    | French
    | German
    | Chinese
    | Legacy(tag: string, stopwordsAvailable: bool, stemmingAvailable: bool)

  /**
   * What the analyzer reads from libraries: the language key (the stemmer language,
   * e.g. `dutch`) and the stopword list.
   */
  datatype LanguageData = LanguageData(key: string, stopwords: seq<string>)

  /** An analyzer definition: tokenizer, optional char filters, token filters in order. */
  datatype Analyzer = Analyzer(tokenizer: string, charFilter: Option<seq<string>>, filter: seq<string>)

  function Code(l: Language): string {
    match l
    case English => "en"
    case Dutch => "nl"
    case French => "fr"
    case German => "de"
    case Chinese => "zh"
    case Legacy(tag, _, _) => tag
  }

  predicate HasStopwords(l: Language) {
    if l.Legacy? then l.stopwordsAvailable else true
  }

  predicate HasStemming(l: Language) {
    if l.Legacy? then l.stemmingAvailable else !l.Chinese?
  }

  function StopwordsFilterName(l: Language): string {
    AnalyzerName("stopwords", Code(l))
  }

  function StemmerFilterName(l: Language): string {
    AnalyzerName("stemmer", Code(l))
  }

  function CleanAnalyzerName(l: Language): string {
    AnalyzerName("clean", Code(l))
  }

  /** `stemmer_filter_key`: the language key, defined only when the language has stemming. */
  function StemmerFilterKey(l: Language, data: LanguageData): (r: Option<string>)
    ensures r.Some? <==> HasStemming(l)
  {
    if HasStemming(l) then Some(data.key) else None
  }

  /** `stemmed_analyzer_name`: `stemmed_<code>`, defined only when the language has stemming. */
  function StemmedAnalyzerName(l: Language): (r: Option<string>)
    ensures r.Some? <==> HasStemming(l)
  {
    if HasStemming(l) then Some(AnalyzerName("stemmed", Code(l))) else None
  }

  /** `stopwords()`: the stopword list, only when the language has stopwords. */
  function Stopwords(l: Language, data: LanguageData): (r: Option<seq<string>>)
    ensures r.Some? <==> HasStopwords(l)
  {
    if HasStopwords(l) then Some(data.stopwords) else None
  }

  /** `char_filters`: the number filter, for every language. */
  function CharFilters(l: Language): (r: map<string, Value>)
    ensures r.Keys == {"number_filter"}
    ensures Get(r["number_filter"], "type") == Some(Str("pattern_replace"))
    ensures Get(r["number_filter"], "pattern") == Some(Str("\\d+"))
    ensures Get(r["number_filter"], "replacement") == Some(Str(""))
  {
    map["number_filter" := NumberCharFilter()]
  }

  /** The stopwords and stemmer filters of one language have different names. */
  lemma FilterNamesDistinct(l: Language)
    ensures StopwordsFilterName(l) != StemmerFilterName(l)
    ensures StopwordsFilterName(l) != "french_elision" && StemmerFilterName(l) != "french_elision"
  {
    assert StopwordsFilterName(l)[2] == 'o' && StemmerFilterName(l)[2] == 'e';
    assert StopwordsFilterName(l)[0] == 's' && StemmerFilterName(l)[0] == 's';
  }

  /** The elision filter French defines. */
  function ElisionFilter(): Value {
    Object(map[
      "type" := Str("elision"),
      "articles_case" := Bool(true),
      "articles" := StrArray(["l", "m", "t", "qu", "n", "s", "j", "d", "c", "jusqu", "quoiqu", "lorsqu", "puisqu"])])
  }

  /**
   * The base `token_filters`: `stopwords_<code>` when the language has stopwords,
   * `stemmer_<code>` when it has stemming, and nothing else.
   */
  method BaseTokenFilters(l: Language, data: LanguageData) returns (filters: map<string, Value>)
    ensures StopwordsFilterName(l) in filters <==> HasStopwords(l)
    ensures StemmerFilterName(l) in filters <==> HasStemming(l)
    ensures forall k :: k in filters ==> k == StopwordsFilterName(l) || k == StemmerFilterName(l)
    ensures HasStopwords(l) ==> filters[StopwordsFilterName(l)] == StopwordsFilter(data.stopwords)
    ensures HasStemming(l) ==> filters[StemmerFilterName(l)] == StemmerFilter(data.key)
  {
    FilterNamesDistinct(l);
    filters := map[];
    if HasStopwords(l) {
      filters := filters[StopwordsFilterName(l) := StopwordsFilter(Stopwords(l, data).value)];
    }
    if HasStemming(l) {
      filters := filters[StemmerFilterName(l) := StemmerFilter(StemmerFilterKey(l, data).value)];
    }
  }

  /**
   * `token_filters` as written: French adds a `french_elision` entry to the base
   * filters, but the trailing comma after the dict makes its value a one-element
   * tuple, which is sent as a one-element list.
   */
  method TokenFilters(l: Language, data: LanguageData) returns (filters: map<string, Value>)
    ensures "french_elision" in filters <==> l == French
    ensures l == French ==> filters["french_elision"] == Array([ElisionFilter()])
    ensures forall k :: k in filters && k != "french_elision" ==> k == StopwordsFilterName(l) || k == StemmerFilterName(l)
    ensures StopwordsFilterName(l) in filters <==> HasStopwords(l)
    ensures StemmerFilterName(l) in filters <==> HasStemming(l)
    ensures HasStopwords(l) ==> filters[StopwordsFilterName(l)] == StopwordsFilter(data.stopwords)
    ensures HasStemming(l) ==> filters[StemmerFilterName(l)] == StemmerFilter(data.key)
  {
    FilterNamesDistinct(l);
    filters := BaseTokenFilters(l, data);
    if l == French {
      filters := filters["french_elision" := Array([ElisionFilter()])];
    }
  }

  /** A filter definition is a dict with a `type`. */
  predicate IsFilterDefinition(v: Value) {
    v.Object? && "type" in v.fields
  }

  /**
   * `token_filters` as evidently intended: French's `french_elision` entry is the
   * elision dict itself, so that every filter the language defines is a filter
   * definition.
   */
  method TokenFiltersCorrected(l: Language, data: LanguageData) returns (filters: map<string, Value>)
    ensures "french_elision" in filters <==> l == French
    ensures l == French ==> filters["french_elision"] == ElisionFilter()
    ensures forall k :: k in filters && k != "french_elision" ==> k == StopwordsFilterName(l) || k == StemmerFilterName(l)
    ensures StopwordsFilterName(l) in filters <==> HasStopwords(l)
    ensures StemmerFilterName(l) in filters <==> HasStemming(l)
    ensures HasStopwords(l) ==> filters[StopwordsFilterName(l)] == StopwordsFilter(data.stopwords)
    ensures HasStemming(l) ==> filters[StemmerFilterName(l)] == StemmerFilter(data.key)
    ensures forall k :: k in filters ==> IsFilterDefinition(filters[k])
  {
    FilterNamesDistinct(l);
    filters := BaseTokenFilters(l, data);
    if l == French {
      filters := filters["french_elision" := ElisionFilter()];
    }
  }

  /** As written, French's elision entry is a list, not a filter definition. */
  method FrenchElisionIsNotAFilter(data: LanguageData) returns (filters: map<string, Value>)
    ensures "french_elision" in filters && !IsFilterDefinition(filters["french_elision"])
  {
    filters := TokenFilters(French, data);
  }

  /** `standard_analyzer`: none for the base class; fixed filter lists for French, German and Chinese. */
  function StandardAnalyzer(l: Language): (r: Option<Analyzer>)
    ensures r.Some? <==> l.French? || l.German? || l.Chinese?
    ensures r.Some? ==> r.value.tokenizer == "standard" && r.value.charFilter.None? && "lowercase" in r.value.filter
  {
    match l
    case French => Some(Analyzer("standard", None, ["french_elision", "lowercase"]))
    case German => Some(Analyzer("standard", None, ["lowercase", "german_normalization"]))
    case Chinese => Some(Analyzer("standard", None, ["cjk_width", "lowercase"]))
    case _ => None
  }

  /**
   * `clean_analyzer`: the standard tokenizer and the number filter, then lowercasing
   * and the language's stopwords; French elides articles first and German normalizes
   * after lowercasing. The base class defines it only when the language has stopwords.
   */
  function CleanAnalyzer(l: Language): Option<Analyzer> {
    match l
    case French => Some(Analyzer("standard", Some(["number_filter"]), ["french_elision", "lowercase", StopwordsFilterName(l)]))
    case German => Some(Analyzer("standard", Some(["number_filter"]), ["lowercase", "german_normalization", StopwordsFilterName(l)]))
    case _ =>
      if HasStopwords(l) then Some(Analyzer("standard", Some(["number_filter"]), ["lowercase", StopwordsFilterName(l)])) else None
  }

  /** Every clean analyzer removes numbers, lowercases and ends with the language's stopword filter. */
  lemma CleanAnalyzerSpec(l: Language)
    ensures CleanAnalyzer(l).Some? <==> HasStopwords(l)
    ensures CleanAnalyzer(l).Some? ==>
              var a := CleanAnalyzer(l).value;
              && a.tokenizer == "standard" && a.charFilter == Some(["number_filter"])
              && |a.filter| >= 2 && a.filter[|a.filter| - 1] == StopwordsFilterName(l)
              && "lowercase" in a.filter
  {
  }

  /** The outcome of `stemmed_analyzer`: no analyzer, an analyzer, or the exception it raises. */
  datatype StemmedOutcome = NoAnalyzer | Built(analyzer: Analyzer) | Raises

  /**
   * `stemmed_analyzer`: when the language has stemming, the clean analyzer with the
   * stemmer filter appended last. When there is no clean analyzer (stemming without
   * stopwords) the append on None raises.
   */
  method StemmedAnalyzer(l: Language) returns (r: StemmedOutcome)
    ensures r.NoAnalyzer? <==> !HasStemming(l)
    ensures r.Raises? <==> l.Legacy? && l.stemmingAvailable && !l.stopwordsAvailable
    ensures r.Built? ==>
              && CleanAnalyzer(l).Some?
              && r.analyzer.tokenizer == CleanAnalyzer(l).value.tokenizer
              && r.analyzer.charFilter == CleanAnalyzer(l).value.charFilter
              && r.analyzer.filter == CleanAnalyzer(l).value.filter + [StemmerFilterName(l)]
  {
    if !HasStemming(l) {
      return NoAnalyzer;
    }
    var clean := CleanAnalyzer(l);
    if clean.None? {
      return Raises;
    }
    var analyzer := clean.value;
    var filters := analyzer.filter;
    filters := filters + [StemmerFilterName(l)];
    analyzer := analyzer.(filter := filters);
    return Built(analyzer);
  }

  /** French stems after eliding, lowercasing and removing stopwords. */
  method FrenchStemmedAnalyzer() returns (r: StemmedOutcome)
    ensures r == Built(Analyzer("standard", Some(["number_filter"]),
                                ["french_elision", "lowercase", "stopwords_fr", "stemmer_fr"]))
  {
    r := StemmedAnalyzer(French);
    assert StopwordsFilterName(French) == "stopwords_fr" && StemmerFilterName(French) == "stemmer_fr";
    assert ["french_elision", "lowercase", "stopwords_fr"] + ["stemmer_fr"]
        == ["french_elision", "lowercase", "stopwords_fr", "stemmer_fr"];
  }

  /** Chinese has a clean analyzer but no stemmed one. */
  method ChineseStemmedAnalyzer() returns (r: StemmedOutcome)
    ensures r == NoAnalyzer && CleanAnalyzer(Chinese).Some?
  {
    r := StemmedAnalyzer(Chinese);
  }
}
