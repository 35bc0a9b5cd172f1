/** Elasticsearch field mappings for corpus fields. */
module EsMappings {
  import opened Wrappers
  import opened Json
  import opened LanguageUtils

  /** `primary_mapping_type`: the mapping's `type` entry, or None. */
  function PrimaryMappingType(mapping: map<string, Value>): (r: Option<Value>)
  {
    if "type" in mapping then Some(mapping["type"]) else None
  }

  /** The `length` subfield: a token count with the standard analyzer. */
  function TokenCountField(): Value {
    Object(map["type" := Str("token_count"), "analyzer" := Str("standard")])
  }

  /** An analyzed text subfield with character positions for highlighting. */
  function AnalyzedTextField(analyzer: string): Value {
    Object(map["type" := Str("text"), "analyzer" := Str(analyzer), "term_vector" := Str("with_positions_offsets")])
  }

  /**
   * Whether the libraries support a language: `stopwords_available(tag)` and
   * `stemming_available(tag)` for the standardized tag.
   */
  datatype Support = Support(tag: string, stopwords: bool, stemming: bool)

  /**
   * `main_content_mapping`. `language` is "" when no language is given; `support`
   * describes its standardized tag. A text field with term vectors; when some
   * option is set and there is a language, its `fields` hold the `length` token
   * count, the `clean` (stopword) and the `stemmed` subfields as enabled and
   * supported. With options but no language the subfields are dropped, `length`
   * included.
   */
  method MainContentMapping(tokenCounts: bool, stopwordAnalysis: bool, stemmingAnalysis: bool, language: string, support: Support)
    returns (mapping: map<string, Value>)
    ensures PrimaryMappingType(mapping) == Some(Str("text"))
    ensures "term_vector" in mapping && mapping["term_vector"] == Str("with_positions_offsets")
    ensures mapping.Keys <= {"type", "term_vector", "fields"}
    ensures "fields" in mapping <==> (tokenCounts || stopwordAnalysis || stemmingAnalysis) && language != ""
    ensures "fields" in mapping ==>
              && mapping["fields"].Object?
              && var f := mapping["fields"].fields;
              && f.Keys <= {"length", "clean", "stemmed"}
              && ("length" in f <==> tokenCounts)
              && ("clean" in f <==> stopwordAnalysis && support.stopwords)
              && ("stemmed" in f <==> stemmingAnalysis && support.stemming)
              && ("length" in f ==> f["length"] == TokenCountField())
              && ("clean" in f ==> f["clean"] == AnalyzedTextField(AnalyzerName("clean", support.tag)))
              && ("stemmed" in f ==> f["stemmed"] == AnalyzedTextField(AnalyzerName("stemmed", support.tag)))
  {
    mapping := map["type" := Str("text"), "term_vector" := Str("with_positions_offsets")];
    if tokenCounts || stopwordAnalysis || stemmingAnalysis {
      var multifields: map<string, Value> := map[];
      if tokenCounts {
        multifields := multifields["length" := TokenCountField()];
      }
      if language == "" {
        return;
      }
      if stopwordAnalysis && support.stopwords {
        multifields := multifields["clean" := AnalyzedTextField(AnalyzerName("clean", support.tag))];
      }
      if stemmingAnalysis && support.stemming {
        multifields := multifields["stemmed" := AnalyzedTextField(AnalyzerName("stemmed", support.tag))];
      }
      mapping := mapping["fields" := Object(multifields)];
    }
  }

  /** With the defaults (token counts only) and a language, the content field has just the `length` subfield. */
  method DefaultContentMapping(language: string, support: Support) returns (mapping: map<string, Value>)
    requires language != ""
    ensures "fields" in mapping && mapping["fields"] == Object(map["length" := TokenCountField()])
  {
    mapping := MainContentMapping(true, false, false, language, support);
    assert mapping["fields"].fields.Keys == {"length"};
  }

  /**
   * `keyword_mapping`: a keyword field, which also gets a `text` subfield when full
   * text search is enabled.
   */
  method KeywordMapping(enableFullTextSearch: bool) returns (mapping: map<string, Value>)
    ensures PrimaryMappingType(mapping) == Some(Str("keyword"))
    ensures mapping.Keys <= {"type", "fields"}
    ensures "fields" in mapping <==> enableFullTextSearch
    ensures "fields" in mapping ==> mapping["fields"] == Object(map["text" := Object(map["type" := Str("text")])])
  {
    mapping := map["type" := Str("keyword")];
    if enableFullTextSearch {
      mapping := mapping["fields" := Object(map["text" := Object(map["type" := Str("text")])])];
    }
  }

  function TextMapping(): map<string, Value> {
    map["type" := Str("text")]
  }

  /** `date_mapping`; the format defaults to `yyyy-MM-dd`. */
  function DateMapping(format: string): map<string, Value> {
    map["type" := Str("date"), "format" := Str(format)]
  }

  /** `date_estimate_mapping`; the format defaults to `yyyy-MM-dd`. */
  function DateEstimateMapping(format: string): map<string, Value> {
    map["type" := Str("date_range"), "format" := Str(format)]
  }

  function IntMapping(): map<string, Value> {
    map["type" := Str("integer")]
  }

  function FloatMapping(): map<string, Value> {
    map["type" := Str("float")]
  }

  function BoolMapping(): map<string, Value> {
    map["type" := Str("boolean")]
  }

  function GeoMapping(): map<string, Value> {
    map["type" := Str("geo_point")]
  }

  function NonIndexedTextMapping(): map<string, Value> {
    map["type" := Str("text"), "index" := Bool(false)]
  }

  /** The type each simple mapping constructor declares, as `primary_mapping_type` reads it. */
  lemma SimpleMappingTypes(format: string)
    ensures PrimaryMappingType(TextMapping()) == Some(Str("text"))
    ensures PrimaryMappingType(DateMapping(format)) == Some(Str("date"))
    ensures PrimaryMappingType(DateEstimateMapping(format)) == Some(Str("date_range"))
    ensures PrimaryMappingType(IntMapping()) == Some(Str("integer"))
    ensures PrimaryMappingType(FloatMapping()) == Some(Str("float"))
    ensures PrimaryMappingType(BoolMapping()) == Some(Str("boolean"))
    ensures PrimaryMappingType(GeoMapping()) == Some(Str("geo_point"))
    ensures PrimaryMappingType(NonIndexedTextMapping()) == Some(Str("text"))
    ensures PrimaryMappingType(map[]).None?
  {
  }
}
