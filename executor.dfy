/**
 * What running a job does to the index and alias names of the cluster.
 *
 * The task runner is not part of this model; its effect is stated here as the
 * contract the planner relies on: tasks run one after another in job order,
 * `CreateIndex` makes the index (first deleting it when asked), `AddAlias` and
 * `RemoveAlias` are no-ops when the mapping already is / is not there,
 * `DeleteIndex` drops the index together with its alias mappings, and the
 * populate, update and settings tasks leave names and aliases alone. With that,
 * the lemmas below state where a rollover leaves the aliases, what a cleaning job
 * leaves of the family, and the end state of the shared-alias scenario.
 */
module Executor {
  import opened Wrappers
  import opened Strings
  import opened Versioning
  import opened Corpora
  import opened Cluster
  import opened IndexingTasks
  import opened EsAlias
  import opened CreateJob

  /** `s` without any occurrence of `x`. */
  function Without(s: seq<string>, x: string): (r: seq<string>)
    ensures forall y :: y in r <==> y in s && y != x
    decreases |s|
  {
    if s == [] then []
    else (if s[0] == x then [] else [s[0]]) + Without(s[1..], x)
  }

  /** Every alias mapping of index `i` removed. */
  function DropIndex(aliases: map<string, seq<string>>, i: string): map<string, seq<string>> {
    map a | a in aliases :: Without(aliases[a], i)
  }

  /** The effect of one task on the names in the cluster. */
  function Apply(c: Snapshot, t: Task): Snapshot {
    match t
    case CreateIndex(i, _, deleteExisting) =>
      Snapshot(if i in c.indices then c.indices else c.indices + [i],
               if deleteExisting then DropIndex(c.aliases, i) else c.aliases)
    case AddAlias(i, a) =>
      c.(aliases := c.aliases[a := if i in Holders(c, a) then Holders(c, a) else Holders(c, a) + [i]])
    case RemoveAlias(i, a) =>
      c.(aliases := c.aliases[a := Without(Holders(c, a), i)])
    case DeleteIndex(i) =>
      Snapshot(Without(c.indices, i), DropIndex(c.aliases, i))
    case PopulateIndex(_, _, _) => c
    case UpdateIndex(_, _, _) => c
    case UpdateSettings(_, _) => c
  }

  /** The tasks of a job applied in order. */
  function Run(c: Snapshot, ts: seq<Task>): Snapshot
    decreases |ts|
  {
    if ts == [] then c else Run(Apply(c, ts[0]), ts[1..])
  }

  lemma {:induction false} RunAppend(c: Snapshot, xs: seq<Task>, ys: seq<Task>)
    ensures Run(c, xs + ys) == Run(Run(c, xs), ys)
    decreases |xs|
  {
    if xs == [] {
      assert xs + ys == ys;
    } else {
      assert (xs + ys)[1..] == xs[1..] + ys;
      RunAppend(Apply(c, xs[0]), xs[1..], ys);
    }
  }

  /**
   * Removing alias `a` from each of `xs`: the holders of `a` lose exactly the
   * names in `xs`; the indices and every other alias stay as they were.
   */
  lemma {:induction false} RemovalsEffect(c: Snapshot, xs: seq<string>, a: string)
    ensures var d := Run(c, RemoveAliasTasks(xs, a));
            && d.indices == c.indices
            && (forall y :: y in Holders(d, a) <==> y in Holders(c, a) && y !in xs)
            && (forall b :: b != a ==> Holders(d, b) == Holders(c, b))
    decreases |xs|
  {
    var ts := RemoveAliasTasks(xs, a);
    if xs != [] {
      assert ts == [RemoveAlias(xs[0], a)] + RemoveAliasTasks(xs[1..], a);
      assert ts[1..] == RemoveAliasTasks(xs[1..], a);
      RemovalsEffect(Apply(c, RemoveAlias(xs[0], a)), xs[1..], a);
      assert forall y :: y in xs <==> y == xs[0] || y in xs[1..];
    }
  }

  /**
   * Moving alias `a` to `n` away from `hs`: afterwards `a` is held by its former
   * holders and `n`, minus every name in `hs`; nothing else changes.
   */
  lemma MoveEffect(c: Snapshot, n: string, a: string, hs: seq<string>)
    ensures var d := Run(c, MoveAliasTasks(n, a, hs));
            && d.indices == c.indices
            && (forall y :: y in Holders(d, a) <==> (y in Holders(c, a) || y == n) && y !in hs)
            && (forall b :: b != a ==> Holders(d, b) == Holders(c, b))
  {
    var c1 := Apply(c, AddAlias(n, a));
    assert MoveAliasTasks(n, a, hs) == [AddAlias(n, a)] + RemoveAliasTasks(hs, a);
    RunAppend(c, [AddAlias(n, a)], RemoveAliasTasks(hs, a));
    assert Run(c, [AddAlias(n, a)]) == c1;
    RemovalsEffect(c1, hs, a);
  }

  /**
   * After a rollover to `newIndex` the alias `base` is held by `newIndex` alone,
   * unless `newIndex` already held it: then the removal that follows the addition
   * leaves the alias with no index at all.
   */
  lemma RolloverBaseAliasEndState(c: Snapshot, base: string, newIndex: string, extra: Option<string>)
    requires LiteralBase(base)
    requires extra != Some(base)
    ensures var d := Run(c, RolloverSteps(c, base, newIndex, extra));
            forall y :: y in Holders(d, base) <==> y == newIndex && newIndex !in Holders(c, base)
  {
    var p := MoveAliasTasks(newIndex, base, IndicesWithAlias(c, base, ""));
    var c1 := Run(c, p);
    MoveEffect(c, newIndex, base, IndicesWithAlias(c, base, ""));
    if extra.Some? {
      var e := MoveAliasTasks(newIndex, extra.value, IndicesWithAlias(c, extra.value, base));
      RunAppend(c, p, e);
      MoveEffect(c1, newIndex, extra.value, IndicesWithAlias(c, extra.value, base));
    } else {
      assert RolloverSteps(c, base, newIndex, extra) == p + [];
      assert p + [] == p;
    }
  }

  /**
   * After a rollover the extra alias is held by a name exactly when the name held
   * it before or is the new index, and did not both hold it and belong to the
   * family. Former holders outside the family (other corpora sharing it) keep it,
   * every former family holder loses it, and so does the new index itself when it
   * already held the alias.
   */
  lemma RolloverExtraAliasEndState(c: Snapshot, base: string, newIndex: string, a: string)
    requires LiteralBase(base) && base != "" && a != base
    ensures var d := Run(c, RolloverSteps(c, base, newIndex, Some(a)));
            forall y :: y in Holders(d, a) <==>
              (y in Holders(c, a) || y == newIndex) && !(y in Holders(c, a) && HasBaseName(y, base))
  {
    var p := MoveAliasTasks(newIndex, base, IndicesWithAlias(c, base, ""));
    var e := MoveAliasTasks(newIndex, a, IndicesWithAlias(c, a, base));
    var c1 := Run(c, p);
    MoveEffect(c, newIndex, base, IndicesWithAlias(c, base, ""));
    RunAppend(c, p, e);
    MoveEffect(c1, newIndex, a, IndicesWithAlias(c, a, base));
  }

  /**
   * As written, running the alias job again once its target holds the alias
   * (the state the first run leaves behind) takes the alias away from every index.
   */
  lemma RerunRolloverUnaliasesTarget(c: Snapshot, base: string, newIndex: string)
    requires LiteralBase(base)
    requires newIndex in Holders(c, base)
    ensures RemoveAlias(newIndex, base) in RolloverSteps(c, base, newIndex, None)
    ensures forall y :: y !in Holders(Run(c, RolloverSteps(c, base, newIndex, None)), base)
  {
    RolloverRemovesBaseAliasFromHolders(c, base, newIndex, None, newIndex);
    RolloverBaseAliasEndState(c, base, newIndex, None);
  }

  /**
   * The same holds for the extra alias: when the new index belongs to the family
   * and already holds the extra alias, the job adds it and then takes it away again.
   */
  lemma RerunRolloverUnaliasesTargetExtra(c: Snapshot, base: string, newIndex: string, a: string)
    requires LiteralBase(base) && base != "" && a != base
    requires newIndex in Holders(c, a) && HasBaseName(newIndex, base)
    ensures RemoveAlias(newIndex, a) in RolloverSteps(c, base, newIndex, Some(a))
    ensures newIndex !in Holders(Run(c, RolloverSteps(c, base, newIndex, Some(a))), a)
  {
    RolloverRemovesExtraAliasFromFamily(c, base, newIndex, a, newIndex);
    RolloverExtraAliasEndState(c, base, newIndex, a);
  }

  /** The rerun in the times scenario: `times-2` holds `times`, and the job unaliases it. */
  lemma RerunRolloverExample()
    ensures var c := Snapshot(["times-1", "times-2"], map["times" := ["times-2"]]);
            RolloverSteps(c, "times", "times-2", None)
              == [AddAlias("times-2", "times"), RemoveAlias("times-2", "times")]
            && forall y :: y !in Holders(Run(c, RolloverSteps(c, "times", "times-2", None)), "times")
  {
    var c := Snapshot(["times-1", "times-2"], map["times" := ["times-2"]]);
    assert RemoveAliasTasks(["times-2"], "times") == [RemoveAlias("times-2", "times")];
    RerunRolloverUnaliasesTarget(c, "times", "times-2");
  }

  /**
   * The corrected rollover, which moves the alias to the highest version as the
   * `create_alias_job` docstring says: the alias is removed only from holders
   * other than the new index, for the base name and for the extra alias alike.
   */
  function CorrectedRolloverSteps(c: Snapshot, base: string, newIndex: string, extra: Option<string>): seq<Task>
    requires LiteralBase(base)
  {
    MoveAliasTasks(newIndex, base, Without(IndicesWithAlias(c, base, ""), newIndex))
    + match extra
      case None => []
      case Some(a) => MoveAliasTasks(newIndex, a, Without(IndicesWithAlias(c, a, base), newIndex))
  }

  /**
   * The corrected rollover always leaves the base-name alias on exactly the new
   * index, and the extra alias on the new index plus the other corpora's holders;
   * so running it again changes nothing about either alias.
   */
  lemma CorrectedRolloverEndState(c: Snapshot, base: string, newIndex: string, extra: Option<string>)
    requires LiteralBase(base) && base != ""
    requires extra != Some(base)
    ensures var d := Run(c, CorrectedRolloverSteps(c, base, newIndex, extra));
            && (forall y :: y in Holders(d, base) <==> y == newIndex)
            && (extra.Some? ==> forall y :: y in Holders(d, extra.value) <==>
                  y == newIndex || (y in Holders(c, extra.value) && !HasBaseName(y, base)))
  {
    var p := MoveAliasTasks(newIndex, base, Without(IndicesWithAlias(c, base, ""), newIndex));
    var c1 := Run(c, p);
    MoveEffect(c, newIndex, base, Without(IndicesWithAlias(c, base, ""), newIndex));
    if extra.Some? {
      var a := extra.value;
      var e := MoveAliasTasks(newIndex, a, Without(IndicesWithAlias(c, a, base), newIndex));
      RunAppend(c, p, e);
      MoveEffect(c1, newIndex, a, Without(IndicesWithAlias(c, a, base), newIndex));
    } else {
      assert CorrectedRolloverSteps(c, base, newIndex, extra) == p + [];
      assert p + [] == p;
    }
  }

  /** Running the corrected rollover twice leaves the same aliases as running it once. */
  lemma CorrectedRolloverIdempotent(c: Snapshot, base: string, newIndex: string, extra: Option<string>)
    requires LiteralBase(base) && base != ""
    requires extra != Some(base)
    ensures var d1 := Run(c, CorrectedRolloverSteps(c, base, newIndex, extra));
            var d2 := Run(d1, CorrectedRolloverSteps(d1, base, newIndex, extra));
            && (forall y :: y in Holders(d2, base) <==> y in Holders(d1, base))
            && (extra.Some? ==> forall y :: y in Holders(d2, extra.value) <==> y in Holders(d1, extra.value))
  {
    var d1 := Run(c, CorrectedRolloverSteps(c, base, newIndex, extra));
    CorrectedRolloverEndState(c, base, newIndex, extra);
    CorrectedRolloverEndState(d1, base, newIndex, extra);
  }

  /** Deleting each of `xs`: the indices lose exactly the names in `xs`. */
  lemma {:induction false} DeletionsEffect(c: Snapshot, xs: seq<string>)
    ensures forall y :: y in Run(c, DeleteIndexTasks(xs)).indices <==> y in c.indices && y !in xs
    decreases |xs|
  {
    var ts := DeleteIndexTasks(xs);
    if xs != [] {
      assert ts[1..] == DeleteIndexTasks(xs[1..]);
      DeletionsEffect(Apply(c, DeleteIndex(xs[0])), xs[1..]);
      assert forall y :: y in xs <==> y == xs[0] || y in xs[1..];
    }
  }

  /**
   * After a cleaning alias job the cluster keeps every index outside the family
   * and, of the family, exactly the indices carrying the target's version.
   */
  lemma CleanAliasJobEndState(corpus: Corpus, server: Server, c: Snapshot)
    requires LiteralBase(IndexBaseName(server, corpus))
    requires AliasPlan(corpus, server, c, true).Planned?
    ensures var base := IndexBaseName(server, corpus);
            var target := AliasTarget(corpus, server, c);
            var d := Run(c, AliasPlan(corpus, server, c, true).tasks);
            forall y :: y in d.indices <==>
              y in c.indices && (!HasBaseName(y, base) || VersionFromName(y, base) == VersionFromName(target, base))
  {
    var base := IndexBaseName(server, corpus);
    var target := AliasTarget(corpus, server, c);
    var indices := IndicesWithBaseName(c.indices, base);
    var highest := HighestVersionInResult(indices, base);
    var rs := RolloverSteps(c, base, target, ExtraAlias(corpus));
    var ds := CleanTasks(corpus, server, c);
    AliasPlanTasks(corpus, server, c, true);
    RunAppend(c, rs, ds);
    RolloverKeepsIndices(c, base, target, ExtraAlias(corpus));
    DeletionsEffect(Run(c, rs), StaleIndices(indices, base, highest));
    StaleIndicesSpec(indices, base, highest);
    VersionRoundTrip(base, highest);
  }

  /** Alias tasks never create or delete an index. */
  lemma RolloverKeepsIndices(c: Snapshot, base: string, newIndex: string, extra: Option<string>)
    requires LiteralBase(base)
    ensures Run(c, RolloverSteps(c, base, newIndex, extra)).indices == c.indices
  {
    var p := MoveAliasTasks(newIndex, base, IndicesWithAlias(c, base, ""));
    MoveEffect(c, newIndex, base, IndicesWithAlias(c, base, ""));
    if extra.Some? {
      var e := MoveAliasTasks(newIndex, extra.value, IndicesWithAlias(c, extra.value, base));
      RunAppend(c, p, e);
      MoveEffect(Run(c, p), newIndex, extra.value, IndicesWithAlias(c, extra.value, base));
    } else {
      assert RolloverSteps(c, base, newIndex, extra) == p + [];
      assert p + [] == p;
    }
  }

  // ---------------------------------------------------------------------------
  // The alias scenarios: corpus `times` with `es_index` `test-times`, versions 1 and 2

  function TimesCorpus(extra: string): Corpus {
    Corpus("times", 1, true, "test-times", extra)
  }

  lemma TimesNames()
    ensures HasBaseName("test-times-1", "test-times") && HasBaseName("test-times-2", "test-times")
    ensures !HasBaseName("test-guardian-1", "test-times")
    ensures VersionFromName("test-times-1", "test-times") == Some(1)
    ensures VersionFromName("test-times-2", "test-times") == Some(2)
  {
    TimesIsLiteral();
    TimesVersionNames();
    NumberedMember("test-times", 1);
    NumberedMember("test-times", 2);
    TimesOutsider();
  }

  lemma TimesVersionNames()
    ensures VersionedName("test-times", 1) == "test-times-1"
    ensures VersionedName("test-times", 2) == "test-times-2"
  {
    assert NatToString(1) == "1" && NatToString(2) == "2";
  }

  lemma TimesOutsider()
    ensures LiteralBase("test-times") && !HasBaseName("test-guardian-1", "test-times")
  {
    TimesIsLiteral();
    assert "test-guardian-1"[..10][5] == 'g' && "test-times"[5] == 't';
  }

  /** The name `{base}-{n}` belongs to the family of `base` and carries version `n`. */
  lemma NumberedMember(base: string, n: nat)
    requires LiteralBase(base)
    ensures HasBaseName(VersionedName(base, n), base)
    ensures VersionFromName(VersionedName(base, n), base) == Some(n)
  {
    var d := NatToString(n);
    assert VersionedName(base, n) == base + "-" + d + "";
    VersionOfVersionedName(VersionedName(base, n), base, d, "");
    NatToStringValue(n);
  }

  /** Of two versioned names, the later one's version is the highest when it is the larger. */
  lemma {:induction false} HighestOfTwo(a: string, b: string, base: string, va: nat, vb: nat)
    requires LiteralBase(base)
    requires VersionFromName(a, base) == Some(va) && VersionFromName(b, base) == Some(vb) && va <= vb
    ensures HighestVersionInResult([a, b], base) == vb
  {
    var names := [a, b];
    assert names[1..] == [b];
    assert [b][1..] == [];
    assert MaxVersion([b], base) == Some(vb);
  }

  lemma TimesHighest()
    ensures HighestVersionInResult(["test-times-1", "test-times-2"], "test-times") == 2
  {
    TimesIsLiteral();
    TimesNames();
    HighestOfTwo("test-times-1", "test-times-2", "test-times", 1, 2);
  }

  lemma TimesIsLiteral()
    ensures LiteralBase("test-times")
  {
    var base := "test-times";
    assert forall i :: 0 <= i < |base| ==> 'a' <= base[i] <= 'z' || base[i] == '-';
  }

  lemma TimesDistinct()
    ensures "test-times-2" != "test-times-1"
    ensures "test-times-2" != "test-guardian-1" && "test-times-1" != "test-guardian-1"
    ensures "test-times" != "test-newspapers"
  {
    assert "test-times"[5] == 't' && "test-newspapers"[5] == 'n';
    assert "test-times-2"[11] == '2' && "test-times-1"[11] == '1';
    assert "test-guardian-1"[5] == 'g' && "test-times-1"[5] == 't' && "test-times-2"[5] == 't';
  }

  /** Two family members and an outsider: the filter keeps the two, in order. */
  lemma {:induction false} FilterOfThree(a: string, b: string, g: string, base: string)
    requires LiteralBase(base)
    requires HasBaseName(a, base) && HasBaseName(b, base) && !HasBaseName(g, base)
    ensures FilterByBaseName([a, b, g], base) == [a, b]
  {
    var names := [a, b, g];
    assert names[1..] == [b, g];
    assert [b, g][1..] == [g];
    assert [g][1..] == [];
    assert FilterByBaseName([g], base) == [];
    assert FilterByBaseName([b, g], base) == [b];
  }

  lemma TimesFilter()
    ensures IndicesWithBaseName(["test-times-1", "test-times-2", "test-guardian-1"], "test-times")
         == ["test-times-1", "test-times-2"]
  {
    TimesIsLiteral();
    TimesNames();
    FilterOfThree("test-times-1", "test-times-2", "test-guardian-1", "test-times");
  }

  /** The alias target is the base name with the family's highest version. */
  lemma {:induction false} AliasTargetIs(corpus: Corpus, server: Server, c: Snapshot, base: string, fam: seq<string>, h: nat)
    requires IndexBaseName(server, corpus) == base && LiteralBase(base)
    requires IndicesWithBaseName(c.indices, base) == fam && HighestVersionInResult(fam, base) == h
    ensures AliasTarget(corpus, server, c) == VersionedName(base, h)
  {
  }

  lemma TimesFamily(c: Snapshot, extra: string)
    requires c.indices == ["test-times-1", "test-times-2", "test-guardian-1"]
    ensures IndicesWithBaseName(c.indices, "test-times") == ["test-times-1", "test-times-2"]
    ensures AliasTarget(TimesCorpus(extra), Server("test"), c) == "test-times-2"
  {
    TimesIsLiteral();
    TimesFilter();
    TimesHighest();
    AliasTargetIs(TimesCorpus(extra), Server("test"), c, "test-times", ["test-times-1", "test-times-2"], 2);
    TimesVersionNames();
  }

  function ExtraAliasSnapshot(): Snapshot {
    Snapshot(["test-times-1", "test-times-2", "test-guardian-1"],
             map["test-times" := ["test-times-1"], "test-newspapers" := ["test-times-1", "test-guardian-1"]])
  }

  lemma ExtraAliasScenarioPlan(c: Snapshot, corpus: Corpus)
    requires c == ExtraAliasSnapshot() && corpus == TimesCorpus("test-newspapers")
    ensures LiteralBase(IndexBaseName(Server("test"), corpus))
    ensures AliasPlan(corpus, Server("test"), c, false)
         == Planned(RolloverSteps(c, "test-times", "test-times-2", Some("test-newspapers")))
  {
    TimesIsLiteral();
    TimesFamily(c, "test-newspapers");
    assert "test-times" !in c.indices;
    AliasPlanTo(corpus, Server("test"), c, "test-times", "test-times-2");
  }

  /** The alias job without `clean` on a family whose base name and target are known. */
  lemma AliasPlanTo(corpus: Corpus, server: Server, c: Snapshot, base: string, target: string)
    requires IndexBaseName(server, corpus) == base && LiteralBase(base)
    requires IndicesWithBaseName(c.indices, base) != [] && base !in c.indices
    requires AliasTarget(corpus, server, c) == target
    ensures AliasPlan(corpus, server, c, false) == Planned(RolloverSteps(c, base, target, ExtraAlias(corpus)))
  {
    AliasPlanWithoutClean(corpus, server, c);
  }

  lemma AliasPlanWithoutClean(corpus: Corpus, server: Server, c: Snapshot)
    requires LiteralBase(IndexBaseName(server, corpus))
    requires IndicesWithBaseName(c.indices, IndexBaseName(server, corpus)) != []
    requires IndexBaseName(server, corpus) !in c.indices
    ensures AliasPlan(corpus, server, c, false)
         == Planned(RolloverSteps(c, IndexBaseName(server, corpus), AliasTarget(corpus, server, c), ExtraAlias(corpus)))
  {
    var steps := RolloverSteps(c, IndexBaseName(server, corpus), AliasTarget(corpus, server, c), ExtraAlias(corpus));
    AliasPlanFailsIff(corpus, server, c, false);
    AliasPlanTasks(corpus, server, c, false);
    assert steps + [] == steps;
  }

  /**
   * `test_extra_alias`: `test-times-1` holds `test-times` and `test-newspapers`,
   * `test-guardian-1` holds `test-newspapers`. After the alias job both aliases are
   * on `test-times-2`, neither is on `test-times-1`, and `test-guardian-1` keeps
   * `test-newspapers`.
   */
  lemma ExtraAliasScenario(c: Snapshot, corpus: Corpus)
    requires c == ExtraAliasSnapshot() && corpus == TimesCorpus("test-newspapers")
    ensures LiteralBase(IndexBaseName(Server("test"), corpus))
    ensures var p := AliasPlan(corpus, Server("test"), c, false);
            && p.Planned?
            && var d := Run(c, p.tasks);
            && "test-times-2" in Holders(d, "test-times") && "test-times-1" !in Holders(d, "test-times")
            && "test-times-2" in Holders(d, "test-newspapers") && "test-times-1" !in Holders(d, "test-newspapers")
            && "test-guardian-1" in Holders(d, "test-newspapers")
  {
    ExtraAliasScenarioPlan(c, corpus);
    TimesIsLiteral();
    TimesNames();
    TimesDistinct();
    assert Holders(c, "test-times") == ["test-times-1"];
    assert Holders(c, "test-newspapers") == ["test-times-1", "test-guardian-1"];
    ExtraAliasOutcome(c, "test-times", "test-times-2", "test-newspapers", "test-times-1", "test-guardian-1");
  }

  /**
   * A rollover that carries an extra alias: the new index takes both aliases from
   * the old family member, and an index of another family keeps the extra alias.
   */
  lemma ExtraAliasOutcome(c: Snapshot, base: string, newIndex: string, a: string, previous: string, other: string)
    requires LiteralBase(base) && base != "" && a != base
    requires previous in Holders(c, base) && previous in Holders(c, a) && HasBaseName(previous, base)
    requires other in Holders(c, a) && !HasBaseName(other, base)
    requires newIndex != previous && newIndex !in Holders(c, base) && newIndex !in Holders(c, a)
    ensures var d := Run(c, RolloverSteps(c, base, newIndex, Some(a)));
            && newIndex in Holders(d, base) && previous !in Holders(d, base)
            && newIndex in Holders(d, a) && previous !in Holders(d, a)
            && other in Holders(d, a)
  {
    RolloverBaseAliasEndState(c, base, newIndex, Some(a));
    RolloverExtraAliasEndState(c, base, newIndex, a);
  }

  /** `test_alias_with_clean`: cleaning removes `test-times-1` and keeps `test-times-2` and the other corpus. */
  lemma CleanScenario()
    ensures var c := Snapshot(["test-times-1", "test-times-2", "test-guardian-1"], map[]);
            var p := AliasPlan(TimesCorpus(""), Server("test"), c, true);
            && p.Planned?
            && var d := Run(c, p.tasks);
            && "test-times-1" !in d.indices && "test-times-2" in d.indices && "test-guardian-1" in d.indices
  {
    var c := Snapshot(["test-times-1", "test-times-2", "test-guardian-1"], map[]);
    var corpus := TimesCorpus("");
    CleanScenarioPlan(c, corpus);
    TimesNames();
    CleanOutcome(corpus, Server("test"), c, "test-times-1", "test-times-2", "test-guardian-1");
  }

  /** Cleaning drops a stale family member and keeps the current one and an outsider. */
  lemma CleanOutcome(corpus: Corpus, server: Server, c: Snapshot, stale: string, current: string, other: string)
    requires LiteralBase(IndexBaseName(server, corpus))
    requires AliasPlan(corpus, server, c, true).Planned?
    requires current == AliasTarget(corpus, server, c)
    requires current in c.indices && other in c.indices
    requires HasBaseName(stale, IndexBaseName(server, corpus)) && !HasBaseName(other, IndexBaseName(server, corpus))
    requires VersionFromName(stale, IndexBaseName(server, corpus)) != VersionFromName(current, IndexBaseName(server, corpus))
    ensures var d := Run(c, AliasPlan(corpus, server, c, true).tasks);
            stale !in d.indices && current in d.indices && other in d.indices
  {
    CleanAliasJobEndState(corpus, server, c);
  }

  lemma CleanScenarioPlan(c: Snapshot, corpus: Corpus)
    requires c == Snapshot(["test-times-1", "test-times-2", "test-guardian-1"], map[]) && corpus == TimesCorpus("")
    ensures IndexBaseName(Server("test"), corpus) == "test-times" && LiteralBase("test-times")
    ensures AliasPlan(corpus, Server("test"), c, true).Planned?
    ensures AliasTarget(corpus, Server("test"), c) == "test-times-2"
  {
    TimesIsLiteral();
    TimesFamily(c, "");
    AliasPlanFailsIff(corpus, Server("test"), c, true);
    assert "test-times" !in c.indices;
  }

  /**
   * `test_alias`: with `test-times-1`, `test-times-2` and `test-guardian-1` and no
   * alias yet, the alias job leaves the alias `test-times` on `test-times-2`.
   */
  lemma AliasScenario(c: Snapshot, corpus: Corpus)
    requires c == Snapshot(["test-times-1", "test-times-2", "test-guardian-1"], map[]) && corpus == TimesCorpus("")
    ensures LiteralBase(IndexBaseName(Server("test"), corpus))
    ensures var p := AliasPlan(corpus, Server("test"), c, false);
            && p.Planned?
            && "test-times-2" in Holders(Run(c, p.tasks), "test-times")
  {
    AliasScenarioPlan(c, corpus);
    FirstAliasOutcome(c, "test-times", "test-times-2");
  }

  lemma AliasScenarioPlan(c: Snapshot, corpus: Corpus)
    requires c == Snapshot(["test-times-1", "test-times-2", "test-guardian-1"], map[]) && corpus == TimesCorpus("")
    ensures LiteralBase(IndexBaseName(Server("test"), corpus)) && "test-times" !in c.aliases
    ensures AliasPlan(corpus, Server("test"), c, false) == Planned(RolloverSteps(c, "test-times", "test-times-2", None))
  {
    TimesIsLiteral();
    TimesFamily(c, "");
    assert "test-times" !in c.indices;
    AliasPlanTo(corpus, Server("test"), c, "test-times", "test-times-2");
  }

  /** A rollover of an alias no index holds yet leaves it on the new index. */
  lemma FirstAliasOutcome(c: Snapshot, base: string, newIndex: string)
    requires LiteralBase(base) && base !in c.aliases
    ensures newIndex in Holders(Run(c, RolloverSteps(c, base, newIndex, None)), base)
  {
    RolloverBaseAliasEndState(c, base, newIndex, None);
  }

  /** `test_alias_with_unversioned_index`: with only an index named `test-times` the job raises. */
  lemma UnversionedScenario()
    ensures AliasPlan(TimesCorpus(""), Server("test"), Snapshot(["test-times"], map[]), false)
         == Failed(UnversionedIndexExists)
  {
    AliasPlanFailsIff(TimesCorpus(""), Server("test"), Snapshot(["test-times"], map[]), false);
  }
}
