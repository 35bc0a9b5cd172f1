/**
 * The index name the search side uses for a corpus, and the three projections of
 * an Elasticsearch search response.
 */
module Search {
  import opened Wrappers
  import opened Strings
  import opened Json
  import opened Corpora
  import opened CreateJob

  /**
   * `get_index` as written: the configured `es_index` verbatim, otherwise the slug
   * (the corpus name, or `custom[<pk>]` for a corpus defined in the database),
   * prefixed with `<index_prefix>-` when the server has a prefix.
   */
  function GetIndex(server: Server, corpus: Corpus): string {
    if corpus.esIndex != "" then corpus.esIndex
    else
      var name := if corpus.hasPythonDefinition then corpus.name else "custom[" + NatToString(corpus.pk) + "]";
      if server.indexPrefix != "" then server.indexPrefix + "-" + name else name
  }

  /** Two strings that differ at one position are different. */
  lemma DifferAt(a: string, b: string, k: nat)
    requires k < |a| && k < |b| && a[k] != b[k]
    ensures a != b
  {
  }

  /**
   * The search side and the job planner name the same index exactly when the
   * corpus has an explicit `es_index` or a Python definition; for every corpus
   * defined in the database, on every server, they disagree.
   */
  lemma GetIndexAgreesIffNotCustom(server: Server, corpus: Corpus)
    ensures GetIndex(server, corpus) == IndexBaseName(server, corpus) <==> !IsUnnamedCustom(corpus)
  {
    if IsUnnamedCustom(corpus) {
      var s := NatToString(corpus.pk);
      var written, intended := "custom[" + s + "]", "custom_" + s;
      assert written[6] == '[' && intended[6] == '_';
      var p := if server.indexPrefix != "" then server.indexPrefix + "-" else "";
      assert GetIndex(server, corpus) == p + written;
      assert IndexBaseName(server, corpus) == p + intended;
      assert (p + written)[|p| + 6] == '[';
      assert (p + intended)[|p| + 6] == '_';
      DifferAt(p + written, p + intended, |p| + 6);
    }
  }

  /**
   * On the server prefixed `test`, a database corpus with primary key 7 is looked
   * up as `test-custom[7]`, while its index is created, and expected, as
   * `test-custom_7`.
   */
  lemma GetIndexCustomCounterexample(server: Server, corpus: Corpus)
    requires server == Server("test") && corpus == Corpus("json", 7, false, "", "")
    ensures GetIndex(server, corpus) == "test-custom[7]"
    ensures IndexBaseName(server, corpus) == "test-custom_7"
    ensures GetIndex(server, corpus) != IndexBaseName(server, corpus)
  {
    assert NatToString(7) == "7";
    GetIndexAgreesIffNotCustom(server, corpus);
  }

  /**
   * The naming rule the tests of `get_index` expect, proved of the planner's rule:
   * an explicit `es_index` verbatim; on a server prefixed `test`, `test-<name>` for
   * a Python corpus and `test-custom_<pk>` for a database corpus.
   */
  lemma IndexNameTests(server: Server, corpus: Corpus)
    requires server == Server("test")
    ensures corpus.esIndex != "" ==> IndexBaseName(server, corpus) == corpus.esIndex
    ensures corpus.esIndex == "" && corpus.hasPythonDefinition ==>
              IndexBaseName(server, corpus) == "test-" + corpus.name
    ensures IsUnnamedCustom(corpus) ==>
              IndexBaseName(server, corpus) == "test-custom_" + NatToString(corpus.pk)
  {
  }

  // ---------------------------------------------------------------------------
  // Projections of a search response

  /** `search_result['hits']['total']['value']`; None where Python raises. */
  function TotalHits(result: Value): Option<Value> {
    GetPath(result, ["hits", "total", "value"])
  }

  /** `search_result['hits']['hits']`; None where Python raises. */
  function Hits(result: Value): Option<Value> {
    GetPath(result, ["hits", "hits"])
  }

  /** `search_result['aggregations']`; None where Python raises. */
  function AggregationResults(result: Value): Option<Value> {
    GetPath(result, ["aggregations"])
  }

  /**
   * A search response with the given hit count, hit documents and aggregations:
   * a fixture for the projection lemmas below, not a function of the search module.
   */
  function SearchResponse(total: int, documents: seq<Value>, aggregations: Value): (r: Value)
    ensures r.Object? && "hits" in r.fields && "aggregations" in r.fields
  {
    Object(map[
      "hits" := Object(map["total" := Object(map["value" := Int(total), "relation" := Str("eq")]),
                           "hits" := Array(documents)]),
      "aggregations" := aggregations])
  }

  /** The three projections read back what the response was built from. */
  lemma ProjectionsOfResponse(total: int, documents: seq<Value>, aggregations: Value)
    ensures TotalHits(SearchResponse(total, documents, aggregations)) == Some(Int(total))
    ensures Hits(SearchResponse(total, documents, aggregations)) == Some(Array(documents))
    ensures AggregationResults(SearchResponse(total, documents, aggregations)) == Some(aggregations)
  {
    var r := SearchResponse(total, documents, aggregations);
    var h := r.fields["hits"];
    assert Get(r, "hits") == Some(h);
    assert Get(h, "total") == Some(h.fields["total"]);
    assert ["hits", "total", "value"][1..] == ["total", "value"];
    assert ["total", "value"][1..] == ["value"];
    assert ["hits", "hits"][1..] == ["hits"];
  }

  /** A response without `hits` (say, an error body) makes both hit projections fail. */
  lemma ProjectionsWithoutHits(result: Value)
    requires result.Object? && "hits" !in result.fields
    ensures TotalHits(result).None? && Hits(result).None?
  {
  }

  /** A projection succeeds exactly when every key along its path is present. */
  lemma AggregationResultsSpec(result: Value)
    ensures AggregationResults(result).Some? <==> result.Object? && "aggregations" in result.fields
    ensures AggregationResults(result).Some? ==> AggregationResults(result).value == result.fields["aggregations"]
  {
    assert ["aggregations"][1..] == [];
  }
}
