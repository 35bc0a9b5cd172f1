/**
 * Which indices hold an alias: the "current" index of a corpus, and the members of
 * an alias, optionally restricted to one base-name family.
 */
module EsAlias {
  import opened Wrappers
  import opened Strings
  import opened Versioning
  import opened Corpora
  import opened Cluster

  /** `max(sorted(names))`: the greatest name in Python's string order. */
  function MaxName(names: seq<string>): (r: string)
    requires names != []
    ensures r in names
    decreases |names|
  {
    if |names| == 1 then names[0]
    else
      var rest := MaxName(names[1..]);
      if LexLe(names[0], rest) then rest else names[0]
  }

  /** `MaxName` is an upper bound of all names in string order. */
  lemma {:induction false} MaxNameIsGreatest(names: seq<string>)
    requires names != []
    ensures forall x :: x in names ==> LexLe(x, MaxName(names))
    decreases |names|
  {
    if |names| == 1 {
      LexLeReflexive(names[0]);
    } else {
      var rest := MaxName(names[1..]);
      MaxNameIsGreatest(names[1..]);
      LexLeReflexive(names[0]);
      if !LexLe(names[0], rest) {
        LexLeTotal(names[0], rest);
        forall x | x in names[1..] ensures LexLe(x, names[0]) {
          LexLeTransitive(x, rest, names[0]);
        }
      }
      assert names == [names[0]] + names[1..];
    }
  }

  /** The name `get_current_index_name` resolves: the corpus's `es_alias` when set, else its `es_index`. */
  function CurrentAlias(corpus: Corpus): string {
    if corpus.esAlias != "" then corpus.esAlias else corpus.esIndex
  }

  /**
   * `get_current_index_name`: the greatest, in string order, of the indices the
   * corpus's alias resolves to. None where the source raises: the alias resolves to
   * nothing (`max` of an empty sequence) or the client refuses it.
   */
  function CurrentIndexName(corpus: Corpus, c: Snapshot): (r: Option<string>)
    ensures r.Some? <==> Resolve(c, CurrentAlias(corpus)).Some? && Resolve(c, CurrentAlias(corpus)).value != []
    ensures r.Some? ==> r.value in Resolve(c, CurrentAlias(corpus)).value
    ensures r.Some? ==> forall x :: x in Resolve(c, CurrentAlias(corpus)).value ==> LexLe(x, r.value)
  {
    match Resolve(c, CurrentAlias(corpus))
    case None => None
    case Some(names) =>
      if names == [] then None
      else
        MaxNameIsGreatest(names);
        Some(MaxName(names))
  }

  /** The order is that of strings, not of versions: of `x-9` and `x-10` the current index is `x-9`. */
  lemma CurrentIndexIsStringMaximum()
    ensures CurrentIndexName(Corpus("x", 1, true, "x", ""), Snapshot(["x-9", "x-10"], map["x" := ["x-9", "x-10"]]))
         == Some("x-9")
  {
    var names := ["x-9", "x-10"];
    assert names[1..] == ["x-10"];
    assert !LexLe("x-9", "x-10") by {
      assert "x-9"[1..][1..] == "9" && "x-10"[1..][1..] == "10";
    }
  }

  /**
   * With a shared `es_alias` the maximum ranges over every corpus under that alias:
   * for `times` sharing `newspapers` with `volkskrant`, the current index is `volkskrant-1`.
   */
  lemma CurrentIndexAcrossSharedAlias()
    ensures CurrentIndexName(
              Corpus("times", 1, true, "times", "newspapers"),
              Snapshot(["times-2", "volkskrant-1"], map["times" := ["times-2"], "newspapers" := ["times-2", "volkskrant-1"]]))
         == Some("volkskrant-1")
  {
    var names := ["times-2", "volkskrant-1"];
    assert names[1..] == ["volkskrant-1"];
    assert LexLe("times-2", "volkskrant-1");
  }

  /**
   * `indices_with_alias`: the members of `alias` (none when it does not exist), and
   * with a non-empty `base` only those that have the base name, in returned order.
   */
  function IndicesWithAlias(c: Snapshot, alias: string, base: string): (r: seq<string>)
    requires LiteralBase(base)
    ensures alias !in c.aliases ==> r == []
    ensures base == "" ==> r == Holders(c, alias)
    ensures forall x :: x in r <==> x in Holders(c, alias) && (base == "" || HasBaseName(x, base))
  {
    if alias !in c.aliases then []
    else if base == "" then c.aliases[alias]
    else FilterByBaseName(c.aliases[alias], base)
  }
}
