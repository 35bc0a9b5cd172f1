/**
 * Planning indexing jobs: which index a job writes to, and the ordered tasks that
 * create, fill and configure it and move the corpus's aliases onto it.
 *
 * The plans are pure functions of the corpus, the server configuration and a
 * snapshot of the cluster; the methods build a `Job` task by task as the source
 * does and are proved to produce exactly the planned tasks. Both creators run in
 * one database transaction, so an exception leaves no job behind: a planning
 * failure is a `Failed` plan and a `Raised` outcome.
 */
module CreateJob {
  import opened Wrappers
  import opened Strings
  import opened Versioning
  import opened Corpora
  import opened Cluster
  import opened EsAlias
  import opened IndexingTasks

  /** The keyword arguments of `create_indexing_job`. */
  datatype Options = Options(
    start: Option<Date>,
    end: Option<Date>,
    mappingsOnly: bool,
    add: bool,
    clear: bool,
    prod: bool,
    rollover: bool,
    update: bool
  )

  /** Why planning raised (and the transaction rolled back). */
  datatype PlanError =
    | NoCurrentIndex            // `get_current_index_name` found no index
    | UnversionedIndexExists    // an index is named exactly like the base name
    | NoMatchingIndex           // the alias job found no index of the family

  datatype Plan = Planned(tasks: seq<Task>) | Failed(error: PlanError)

  datatype JobOutcome = Created(job: Job) | Raised(error: PlanError)

  // ---------------------------------------------------------------------------
  // Naming

  /** `_index_base_name`: `es_index` if set, else `{prefix}-{name}` (or just `{name}`). */
  function IndexBaseName(server: Server, corpus: Corpus): string {
    if corpus.esIndex != "" then corpus.esIndex
    else
      var name := if corpus.hasPythonDefinition then corpus.name else "custom_" + NatToString(corpus.pk);
      if server.indexPrefix != "" then server.indexPrefix + "-" + name else name
  }

  /** A corpus defined in the database, with no explicit index name. */
  predicate IsUnnamedCustom(corpus: Corpus) {
    corpus.esIndex == "" && !corpus.hasPythonDefinition
  }

  /** Two database-defined corpora without an `es_index` never share a base name. */
  lemma IndexBaseNameInjective(server: Server, c1: Corpus, c2: Corpus)
    requires IsUnnamedCustom(c1) && IsUnnamedCustom(c2)
    requires IndexBaseName(server, c1) == IndexBaseName(server, c2)
    ensures c1.pk == c2.pk
  {
    var s1, s2 := NatToString(c1.pk), NatToString(c2.pk);
    var n1, n2 := "custom_" + s1, "custom_" + s2;
    if server.indexPrefix != "" {
      var p := server.indexPrefix + "-";
      assert (p + n1)[|p|..] == n1 && (p + n2)[|p|..] == n2;
    }
    assert n1[7..] == s1 && n2[7..] == s2;
    NatToStringValue(c1.pk);
    NatToStringValue(c2.pk);
  }

  /** `_extra_alias`: the corpus's `es_alias`, when it is set. */
  function ExtraAlias(corpus: Corpus): Option<string> {
    if corpus.esAlias != "" then Some(corpus.esAlias) else None
  }

  /** The name `{base}-{n}` of version `n` of a family. */
  function VersionedName(base: string, n: nat): string {
    base + "-" + NatToString(n)
  }

  /**
   * `_index_and_base_name_for_job`: the index a job writes to. In production a new
   * index gets the next version, otherwise the job reuses the current index; outside
   * production the index is the base name itself.
   */
  function JobIndex(corpus: Corpus, server: Server, c: Snapshot, prod: bool, createNew: bool): Option<string>
    requires LiteralBase(IndexBaseName(server, corpus))
  {
    var base := IndexBaseName(server, corpus);
    if !prod then Some(base)
    else if createNew then Some(VersionedName(base, NextVersionNumber(c.indices, base)))
    else CurrentIndexName(corpus, c)
  }

  /**
   * A job index is never missing except when updating a production index that the
   * corpus's alias does not resolve to, and a new production index never reuses the
   * name of an existing index and carries a version above every existing one.
   */
  lemma JobIndexSpec(corpus: Corpus, server: Server, c: Snapshot, prod: bool, createNew: bool)
    requires LiteralBase(IndexBaseName(server, corpus))
    ensures JobIndex(corpus, server, c, prod, createNew).None? <==>
              prod && !createNew && CurrentIndexName(corpus, c).None?
    ensures prod && createNew ==>
              var name := JobIndex(corpus, server, c, prod, createNew).value;
              var base := IndexBaseName(server, corpus);
              && name !in c.indices
              && VersionFromName(name, base).Some?
              && forall i :: 0 <= i < |c.indices| && VersionFromName(c.indices[i], base).Some? ==>
                   VersionFromName(c.indices[i], base).value < VersionFromName(name, base).value
  {
    var base := IndexBaseName(server, corpus);
    if prod && createNew {
      NextVersionNameIsFresh(c.indices, base);
      NextVersionBounds(c.indices, base);
      VersionRoundTrip(base, NextVersionNumber(c.indices, base));
    }
  }

  // ---------------------------------------------------------------------------
  // Task ordering

  /** The stage a task belongs to; a job's tasks run in job order. */
  function Stage(t: Task): nat {
    match t
    case CreateIndex(_, _, _) => 0
    case PopulateIndex(_, _, _) => 1
    case UpdateIndex(_, _, _) => 1
    case UpdateSettings(_, _) => 2
    case AddAlias(_, _) => 3
    case RemoveAlias(_, _) => 3
    case DeleteIndex(_) => 4
  }

  predicate StagesOrdered(ts: seq<Task>) {
    forall i, j :: 0 <= i < j < |ts| ==> Stage(ts[i]) <= Stage(ts[j])
  }

  lemma ConcatOrdered(x: seq<Task>, y: seq<Task>)
    requires StagesOrdered(x) && StagesOrdered(y)
    requires forall t, u :: t in x && u in y ==> Stage(t) <= Stage(u)
    ensures StagesOrdered(x + y)
  {
    var xy := x + y;
    forall i, j | 0 <= i < j < |xy| ensures Stage(xy[i]) <= Stage(xy[j]) {
      if j < |x| {
        assert xy[i] == x[i] && xy[j] == x[j];
      } else if i >= |x| {
        assert xy[i] == y[i - |x|] && xy[j] == y[j - |x|];
      } else {
        assert xy[i] == x[i] && xy[j] == y[j - |x|];
      }
    }
  }

  // ---------------------------------------------------------------------------
  // Alias rollover

  /** The removals of one alias from each of `names`, in order. */
  function RemoveAliasTasks(names: seq<string>, alias: string): (r: seq<Task>)
    ensures |r| == |names|
    ensures forall i :: 0 <= i < |r| ==> r[i] == RemoveAlias(names[i], alias)
  {
    seq(|names|, i requires 0 <= i < |names| => RemoveAlias(names[i], alias))
  }

  /** Every removal is of the given alias, and it is taken from a name exactly when the name is listed. */
  lemma RemoveAliasTasksSpec(names: seq<string>, alias: string)
    ensures forall t :: t in RemoveAliasTasks(names, alias) ==> t.RemoveAlias? && t.alias == alias
    ensures forall x :: RemoveAlias(x, alias) in RemoveAliasTasks(names, alias) <==> x in names
  {
    var r := RemoveAliasTasks(names, alias);
    forall x | x in names ensures RemoveAlias(x, alias) in r {
      var i :| 0 <= i < |names| && names[i] == x;
      assert r[i] == RemoveAlias(x, alias);
    }
  }

  /** Moving one alias: give it to `newIndex`, then take it from each of `holders`. */
  function MoveAliasTasks(newIndex: string, alias: string, holders: seq<string>): seq<Task> {
    [AddAlias(newIndex, alias)] + RemoveAliasTasks(holders, alias)
  }

  /**
   * A move starts by adding the alias to the new index, touches only that alias,
   * adds it nowhere else, and removes it from exactly the given holders.
   */
  lemma MoveAliasTasksSpec(newIndex: string, alias: string, holders: seq<string>)
    ensures var ts := MoveAliasTasks(newIndex, alias, holders);
            && ts[0] == AddAlias(newIndex, alias)
            && (forall t :: t in ts ==> (t.AddAlias? || t.RemoveAlias?) && t.alias == alias && Stage(t) == 3)
            && (forall t :: t in ts && t.AddAlias? ==> t == AddAlias(newIndex, alias))
            && (forall x :: RemoveAlias(x, alias) in ts <==> x in holders)
  {
    var ts := MoveAliasTasks(newIndex, alias, holders);
    assert forall j :: 1 <= j < |ts| ==> ts[j] == RemoveAlias(holders[j - 1], alias);
    forall x | x in holders ensures RemoveAlias(x, alias) in ts {
      var k :| 0 <= k < |holders| && holders[k] == x;
      assert ts[k + 1] == RemoveAlias(x, alias);
    }
  }

  /** The alias moves of a rollover: `base` from all its holders, the extra alias from the family's. */
  function RolloverSteps(c: Snapshot, base: string, newIndex: string, extra: Option<string>): seq<Task>
    requires LiteralBase(base)
  {
    MoveAliasTasks(newIndex, base, IndicesWithAlias(c, base, ""))
    + match extra
      case None => []
      case Some(a) => MoveAliasTasks(newIndex, a, IndicesWithAlias(c, a, base))
  }

  /**
   * `_add_alias_rollover_tasks`: refuse when an index is named exactly `base`;
   * otherwise give `newIndex` the alias `base` and take it from every index that
   * holds it, then do the same for the extra alias, restricted to the family.
   */
  function RolloverTasks(c: Snapshot, base: string, newIndex: string, extra: Option<string>): Plan
    requires LiteralBase(base)
  {
    if base in IndicesWithBaseName(c.indices, base) then Failed(UnversionedIndexExists)
    else Planned(RolloverSteps(c, base, newIndex, extra))
  }

  /** The base name always has itself as base name, so the refusal is exactly "an index is named `base`". */
  lemma RolloverFailsIffUnversionedIndex(c: Snapshot, base: string, newIndex: string, extra: Option<string>)
    requires LiteralBase(base)
    ensures RolloverTasks(c, base, newIndex, extra).Failed? <==> base in c.indices
    ensures RolloverTasks(c, base, newIndex, extra).Failed? ==>
              RolloverTasks(c, base, newIndex, extra).error == UnversionedIndexExists
  {
    assert base[|base|..] == "";
    assert base[..|base|] == base;
  }

  /**
   * Every alias is added to the new index before it is removed from anywhere: each
   * `RemoveAlias(x, a)` comes after `AddAlias(newIndex, a)`. Only the aliases `base`
   * and the extra alias are touched, and only the new index gains them.
   */
  lemma RolloverAddsBeforeRemoving(c: Snapshot, base: string, newIndex: string, extra: Option<string>)
    requires LiteralBase(base)
    ensures var ts := RolloverSteps(c, base, newIndex, extra);
            && ts != [] && ts[0] == AddAlias(newIndex, base)
            && (forall j :: 0 <= j < |ts| && ts[j].RemoveAlias? ==>
                  exists i :: 0 <= i < j && ts[i] == AddAlias(newIndex, ts[j].alias))
            && (forall t :: t in ts ==>
                  (t.AddAlias? || t.RemoveAlias?) && Stage(t) == 3 && (t.alias == base || Some(t.alias) == extra))
            && (forall t :: t in ts && t.AddAlias? ==> t.index == newIndex)
  {
    var p := MoveAliasTasks(newIndex, base, IndicesWithAlias(c, base, ""));
    MoveAliasTasksSpec(newIndex, base, IndicesWithAlias(c, base, ""));
    var e: seq<Task> := [];
    if extra.Some? {
      e := MoveAliasTasks(newIndex, extra.value, IndicesWithAlias(c, extra.value, base));
      MoveAliasTasksSpec(newIndex, extra.value, IndicesWithAlias(c, extra.value, base));
    }
    var ts := p + e;
    assert ts == RolloverSteps(c, base, newIndex, extra);
    forall j | 0 <= j < |ts| && ts[j].RemoveAlias?
      ensures exists i :: 0 <= i < j && ts[i] == AddAlias(newIndex, ts[j].alias)
    {
      if j < |p| {
        assert p[j] in p;
        assert ts[0] == AddAlias(newIndex, ts[j].alias);
      } else {
        assert e[j - |p|] in e;
        assert ts[|p|] == AddAlias(newIndex, ts[j].alias);
      }
    }
  }

  /**
   * The alias `base` is taken from exactly the indices that held it, the new index
   * included when it already held it: this removal is neither restricted to the
   * family nor skips the new index.
   */
  lemma RolloverRemovesBaseAliasFromHolders(c: Snapshot, base: string, newIndex: string, extra: Option<string>, x: string)
    requires LiteralBase(base)
    ensures RemoveAlias(x, base) in RolloverSteps(c, base, newIndex, extra) <==> x in Holders(c, base)
  {
    MoveAliasTasksSpec(newIndex, base, IndicesWithAlias(c, base, ""));
    if extra.Some? {
      MoveAliasTasksSpec(newIndex, extra.value, IndicesWithAlias(c, extra.value, base));
    }
  }

  /**
   * An extra alias other than `base` is taken from exactly those of its holders that
   * belong to the family: it stays on the indices of other corpora that share it.
   */
  lemma RolloverRemovesExtraAliasFromFamily(c: Snapshot, base: string, newIndex: string, a: string, x: string)
    requires LiteralBase(base) && a != base
    ensures RemoveAlias(x, a) in RolloverSteps(c, base, newIndex, Some(a)) <==>
              x in Holders(c, a) && (base == "" || HasBaseName(x, base))
    ensures AddAlias(newIndex, a) in RolloverSteps(c, base, newIndex, Some(a))
  {
    MoveAliasTasksSpec(newIndex, base, IndicesWithAlias(c, base, ""));
    MoveAliasTasksSpec(newIndex, a, IndicesWithAlias(c, a, base));
    assert MoveAliasTasks(newIndex, a, IndicesWithAlias(c, a, base))[0] in RolloverSteps(c, base, newIndex, Some(a));
  }

  /** One alias move on a job: the `AddAliasTask`, then a `RemoveAliasTask` per holder. */
  method MoveAlias(job: Job, newIndex: string, alias: string, holders: seq<string>)
    modifies job
    ensures job.tasks == old(job.tasks) + MoveAliasTasks(newIndex, alias, holders)
  {
    job.Create(AddAlias(newIndex, alias));
    ghost var before := job.tasks;
    for i := 0 to |holders|
      invariant job.tasks == before + RemoveAliasTasks(holders[..i], alias)
    {
      job.Create(RemoveAlias(holders[i], alias));
    }
    assert holders[..|holders|] == holders;
  }

  /** `_add_alias_rollover_tasks` on a job: appends the planned tasks, or reports the refusal. */
  method AddAliasRolloverTasks(job: Job, c: Snapshot, base: string, newIndex: string) returns (ok: bool)
    requires LiteralBase(base)
    modifies job
    ensures ok <==> RolloverTasks(c, base, newIndex, ExtraAlias(job.corpus)).Planned?
    ensures ok ==> job.tasks == old(job.tasks) + RolloverSteps(c, base, newIndex, ExtraAlias(job.corpus))
    ensures !ok ==> job.tasks == old(job.tasks)
  {
    if base in IndicesWithBaseName(c.indices, base) {
      ok := false;
    } else {
      AddRolloverSteps(job, c, base, newIndex);
      ok := true;
    }
  }

  /** The body of the rollover once it is not refused: move the base alias, then the extra alias. */
  method AddRolloverSteps(job: Job, c: Snapshot, base: string, newIndex: string)
    requires LiteralBase(base)
    modifies job
    ensures job.tasks == old(job.tasks) + RolloverSteps(c, base, newIndex, ExtraAlias(job.corpus))
  {
    ghost var before := job.tasks;
    ghost var p := MoveAliasTasks(newIndex, base, IndicesWithAlias(c, base, ""));
    MoveAlias(job, newIndex, base, IndicesWithAlias(c, base, ""));
    var extra := ExtraAlias(job.corpus);
    if extra.Some? {
      ghost var e := MoveAliasTasks(newIndex, extra.value, IndicesWithAlias(c, extra.value, base));
      MoveAlias(job, newIndex, extra.value, IndicesWithAlias(c, extra.value, base));
      assert job.tasks == before + p + e;
      assert RolloverSteps(c, base, newIndex, extra) == p + e;
    } else {
      assert RolloverSteps(c, base, newIndex, extra) == p + [];
    }
  }

  // ---------------------------------------------------------------------------
  // create_indexing_job

  /** The tasks that create, fill and configure the job's index, before any alias task. */
  function IndexTasks(index: string, opts: Options): seq<Task> {
    var createNew := !(opts.add || opts.update);
    (if createNew then [CreateIndex(index, opts.prod, opts.clear)] else [])
    + (if !(opts.mappingsOnly || opts.update) then [PopulateIndex(index, opts.start, opts.end)] else [])
    + (if opts.update then [UpdateIndex(index, opts.start, opts.end)] else [])
    + (if opts.prod && createNew then [UpdateSettings(index, 1)] else [])
  }

  /**
   * The index-building tasks: a `CreateIndex` exactly when a new index is made (with
   * production settings and deletion as requested), a `PopulateIndex` unless only
   * mappings are wanted or an update is run, an `UpdateIndex` exactly on update, so
   * never both, both carrying the date window, and an `UpdateSettings` with one
   * replica exactly for a new production index; nothing else, all on the job index.
   */
  lemma IndexTasksContents(index: string, opts: Options)
    ensures var ts := IndexTasks(index, opts);
            var createNew := !(opts.add || opts.update);
            && (CreateIndex(index, opts.prod, opts.clear) in ts <==> createNew)
            && (PopulateIndex(index, opts.start, opts.end) in ts <==> !(opts.mappingsOnly || opts.update))
            && (UpdateIndex(index, opts.start, opts.end) in ts <==> opts.update)
            && (UpdateSettings(index, 1) in ts <==> opts.prod && createNew)
            && (forall t :: t in ts ==>
                  || t == CreateIndex(index, opts.prod, opts.clear)
                  || t == PopulateIndex(index, opts.start, opts.end)
                  || t == UpdateIndex(index, opts.start, opts.end)
                  || t == UpdateSettings(index, 1))
            && !((exists t :: t in ts && t.PopulateIndex?) && (exists t :: t in ts && t.UpdateIndex?))
  {
  }

  /** The index-building tasks create, fill, update or configure the index and nothing else. */
  lemma IndexTasksKinds(index: string, opts: Options)
    ensures forall t :: t in IndexTasks(index, opts) ==>
              t.CreateIndex? || t.PopulateIndex? || t.UpdateIndex? || t.UpdateSettings?
  {
    IndexTasksContents(index, opts);
  }

  /** The index-building tasks come in stage order: create, fill, settings. */
  lemma IndexTasksOrdered(index: string, opts: Options)
    ensures StagesOrdered(IndexTasks(index, opts))
  {
    var createNew := !(opts.add || opts.update);
    var a := if createNew then [CreateIndex(index, opts.prod, opts.clear)] else [];
    var b := if !(opts.mappingsOnly || opts.update) then [PopulateIndex(index, opts.start, opts.end)] else [];
    var u := if opts.update then [UpdateIndex(index, opts.start, opts.end)] else [];
    var s := if opts.prod && createNew then [UpdateSettings(index, 1)] else [];
    ConcatOrdered(a, b);
    ConcatOrdered(a + b, u);
    ConcatOrdered(a + b + u, s);
  }

  /** The alias tasks `create_indexing_job` appends after the index-building ones. */
  function IndexingAliasTasks(c: Snapshot, base: string, index: string, corpus: Corpus, opts: Options): seq<Task>
    requires LiteralBase(base)
  {
    if opts.prod && opts.rollover then RolloverSteps(c, base, index, ExtraAlias(corpus))
    else if !opts.prod && ExtraAlias(corpus).Some? then [AddAlias(index, corpus.esAlias)]
    else []
  }

  /** `create_indexing_job`: the tasks of the job, or the error it raises. */
  function IndexingPlan(corpus: Corpus, server: Server, c: Snapshot, opts: Options): Plan
    requires LiteralBase(IndexBaseName(server, corpus))
  {
    var base := IndexBaseName(server, corpus);
    match JobIndex(corpus, server, c, opts.prod, !(opts.add || opts.update))
    case None => Failed(NoCurrentIndex)
    case Some(index) =>
      if opts.prod && opts.rollover && RolloverTasks(c, base, index, ExtraAlias(corpus)).Failed? then
        Failed(UnversionedIndexExists)
      else
        Planned(IndexTasks(index, opts) + IndexingAliasTasks(c, base, index, corpus, opts))
  }

  /**
   * `create_indexing_job` raises exactly when the job updates a production index
   * that cannot be found, or rolls over a new or found production index while an
   * index is named like the base name.
   */
  lemma IndexingPlanFailsIff(corpus: Corpus, server: Server, c: Snapshot, opts: Options)
    requires LiteralBase(IndexBaseName(server, corpus))
    ensures IndexingPlan(corpus, server, c, opts) == Failed(NoCurrentIndex) <==>
              opts.prod && (opts.add || opts.update) && CurrentIndexName(corpus, c).None?
    ensures IndexingPlan(corpus, server, c, opts) == Failed(UnversionedIndexExists) <==>
              && opts.prod && opts.rollover && IndexBaseName(server, corpus) in c.indices
              && JobIndex(corpus, server, c, true, !(opts.add || opts.update)).Some?
  {
    var base := IndexBaseName(server, corpus);
    JobIndexSpec(corpus, server, c, opts.prod, !(opts.add || opts.update));
    var idx := JobIndex(corpus, server, c, opts.prod, !(opts.add || opts.update));
    if idx.Some? {
      RolloverFailsIffUnversionedIndex(c, base, idx.value, ExtraAlias(corpus));
    }
  }

  /** A planned indexing job is its index-building tasks followed by its alias tasks. */
  lemma IndexingPlanTasks(corpus: Corpus, server: Server, c: Snapshot, opts: Options)
    requires LiteralBase(IndexBaseName(server, corpus))
    requires IndexingPlan(corpus, server, c, opts).Planned?
    ensures var index := JobIndex(corpus, server, c, opts.prod, !(opts.add || opts.update)).value;
            IndexingPlan(corpus, server, c, opts).tasks
              == IndexTasks(index, opts) + IndexingAliasTasks(c, IndexBaseName(server, corpus), index, corpus, opts)
  {
  }

  /**
   * An indexing job's tasks run in stage order (create, fill, settings, aliases);
   * its alias tasks touch only the base name and the extra alias, and outside
   * production the only one adds the extra alias to the job index.
   */
  lemma IndexingJobTasksSpec(c: Snapshot, base: string, index: string, corpus: Corpus, opts: Options)
    requires LiteralBase(base)
    ensures var ts := IndexTasks(index, opts) + IndexingAliasTasks(c, base, index, corpus, opts);
            && StagesOrdered(ts)
            && (forall t :: t in ts && (t.AddAlias? || t.RemoveAlias?) ==> t.alias == base || t.alias == corpus.esAlias)
            && (!opts.prod ==> forall t :: t in ts && (t.AddAlias? || t.RemoveAlias?) ==> t == AddAlias(index, corpus.esAlias))
  {
    var pre := IndexTasks(index, opts);
    var post := IndexingAliasTasks(c, base, index, corpus, opts);
    IndexTasksKinds(index, opts);
    IndexTasksOrdered(index, opts);
    AliasTasksOnly(c, base, index, corpus, opts);
    BuildThenAlias(pre, post);
  }

  /** Index-building tasks followed by alias tasks keep the stage order, and only the latter move aliases. */
  lemma BuildThenAlias(pre: seq<Task>, post: seq<Task>)
    requires StagesOrdered(pre) && StagesOrdered(post)
    requires forall t :: t in pre ==> t.CreateIndex? || t.PopulateIndex? || t.UpdateIndex? || t.UpdateSettings?
    requires forall t :: t in post ==> Stage(t) == 3
    ensures StagesOrdered(pre + post)
    ensures forall t :: t in pre + post && (t.AddAlias? || t.RemoveAlias?) ==> t in post
  {
    assert forall t :: t in pre ==> Stage(t) <= 2;
    ConcatOrdered(pre, post);
  }

  lemma AliasTasksOnly(c: Snapshot, base: string, index: string, corpus: Corpus, opts: Options)
    requires LiteralBase(base)
    ensures var post := IndexingAliasTasks(c, base, index, corpus, opts);
            && StagesOrdered(post)
            && (forall t :: t in post ==> Stage(t) == 3 && (t.AddAlias? || t.RemoveAlias?)
                                          && (t.alias == base || t.alias == corpus.esAlias))
            && (!opts.prod ==> forall t :: t in post ==> t == AddAlias(index, corpus.esAlias))
  {
    if opts.prod && opts.rollover {
      RolloverAddsBeforeRemoving(c, base, index, ExtraAlias(corpus));
    }
  }

  /** A planned indexing job runs in stage order and moves only its own aliases. */
  lemma IndexingPlanOrdered(corpus: Corpus, server: Server, c: Snapshot, opts: Options)
    requires LiteralBase(IndexBaseName(server, corpus))
    requires IndexingPlan(corpus, server, c, opts).Planned?
    ensures StagesOrdered(IndexingPlan(corpus, server, c, opts).tasks)
    ensures forall t :: t in IndexingPlan(corpus, server, c, opts).tasks && (t.AddAlias? || t.RemoveAlias?) ==>
              t.alias == IndexBaseName(server, corpus) || t.alias == corpus.esAlias
    ensures !opts.prod ==> forall t :: t in IndexingPlan(corpus, server, c, opts).tasks && (t.AddAlias? || t.RemoveAlias?) ==>
              t == AddAlias(IndexBaseName(server, corpus), corpus.esAlias)
  {
    var index := JobIndex(corpus, server, c, opts.prod, !(opts.add || opts.update)).value;
    IndexingPlanTasks(corpus, server, c, opts);
    IndexingJobTasksSpec(c, IndexBaseName(server, corpus), index, corpus, opts);
  }

  /**
   * Every task of a planned indexing job except the alias removals is about the
   * job index: it is created, filled, updated or configured, and it gains the aliases.
   */
  lemma IndexingPlanTargetsJobIndex(corpus: Corpus, server: Server, c: Snapshot, opts: Options)
    requires LiteralBase(IndexBaseName(server, corpus))
    requires IndexingPlan(corpus, server, c, opts).Planned?
    ensures var index := JobIndex(corpus, server, c, opts.prod, !(opts.add || opts.update)).value;
            forall t :: t in IndexingPlan(corpus, server, c, opts).tasks && !t.RemoveAlias? ==> t.index == index
  {
    var index := JobIndex(corpus, server, c, opts.prod, !(opts.add || opts.update)).value;
    IndexingPlanTasks(corpus, server, c, opts);
    IndexTasksOnIndex(index, opts);
    AliasAddsOnIndex(c, IndexBaseName(server, corpus), index, corpus, opts);
  }

  lemma IndexTasksOnIndex(index: string, opts: Options)
    ensures forall t :: t in IndexTasks(index, opts) ==> t.index == index
  {
    IndexTasksContents(index, opts);
  }

  lemma AliasAddsOnIndex(c: Snapshot, base: string, index: string, corpus: Corpus, opts: Options)
    requires LiteralBase(base)
    ensures forall t :: t in IndexingAliasTasks(c, base, index, corpus, opts) && !t.RemoveAlias? ==> t.index == index
  {
    AliasTasksOnly(c, base, index, corpus, opts);
    if opts.prod && opts.rollover {
      RolloverAddsBeforeRemoving(c, base, index, ExtraAlias(corpus));
    }
  }

  /** `create_indexing_job`: build the job task by task, or raise. */
  method CreateIndexingJob(corpus: Corpus, server: Server, c: Snapshot, opts: Options) returns (r: JobOutcome)
    requires LiteralBase(IndexBaseName(server, corpus))
    ensures r.Raised? <==> IndexingPlan(corpus, server, c, opts).Failed?
    ensures r.Raised? ==> r.error == IndexingPlan(corpus, server, c, opts).error
    ensures r.Created? ==> fresh(r.job) && r.job.corpus == corpus
                           && r.job.tasks == IndexingPlan(corpus, server, c, opts).tasks
  {
    var createNew := !(opts.add || opts.update);
    var job := new Job(corpus);
    var base := IndexBaseName(server, corpus);
    var maybeIndex := JobIndex(corpus, server, c, opts.prod, createNew);
    if maybeIndex.None? {
      return Raised(NoCurrentIndex);
    }
    var index := maybeIndex.value;
    if createNew {
      job.Create(CreateIndex(index, opts.prod, opts.clear));
    }
    if !(opts.mappingsOnly || opts.update) {
      job.Create(PopulateIndex(index, opts.start, opts.end));
    }
    if opts.update {
      job.Create(UpdateIndex(index, opts.start, opts.end));
    }
    if opts.prod && createNew {
      job.Create(UpdateSettings(index, 1));
    }
    assert job.tasks == IndexTasks(index, opts);
    if opts.prod && opts.rollover {
      var ok := AddAliasRolloverTasks(job, c, base, index);
      if !ok {
        return Raised(UnversionedIndexExists);
      }
    }
    if !opts.prod {
      var extra := ExtraAlias(job.corpus);
      if extra.Some? {
        job.Create(AddAlias(index, extra.value));
      }
    }
    return Created(job);
  }

  // ---------------------------------------------------------------------------
  // create_alias_job

  /** The names whose parsed version is not `highest`, in listed order. */
  function StaleIndices(names: seq<string>, base: string, highest: nat): seq<string>
    requires LiteralBase(base)
    decreases |names|
  {
    if names == [] then []
    else
      var last := names[|names| - 1];
      StaleIndices(names[..|names| - 1], base, highest)
        + (if VersionFromName(last, base) != Some(highest) then [last] else [])
  }

  lemma {:induction false} StaleIndicesSpec(names: seq<string>, base: string, highest: nat)
    requires LiteralBase(base)
    ensures forall x :: x in StaleIndices(names, base, highest) <==>
              x in names && VersionFromName(x, base) != Some(highest)
    decreases |names|
  {
    if names != [] {
      var init := names[..|names| - 1];
      StaleIndicesSpec(init, base, highest);
      assert names == init + [names[|names| - 1]];
    }
  }

  /** The deletions of each of `names`, in order. */
  function DeleteIndexTasks(names: seq<string>): (r: seq<Task>)
    ensures |r| == |names|
    ensures forall i :: 0 <= i < |r| ==> r[i] == DeleteIndex(names[i])
  {
    seq(|names|, i requires 0 <= i < |names| => DeleteIndex(names[i]))
  }

  /** Every task is a deletion, and a name is deleted exactly when it is listed. */
  lemma DeleteIndexTasksSpec(names: seq<string>)
    ensures forall t :: t in DeleteIndexTasks(names) ==> t.DeleteIndex?
    ensures forall x :: DeleteIndex(x) in DeleteIndexTasks(names) <==> x in names
  {
    var r := DeleteIndexTasks(names);
    forall x | x in names ensures DeleteIndex(x) in r {
      var i :| 0 <= i < |names| && names[i] == x;
      assert r[i] == DeleteIndex(x);
    }
  }

  /** The version the alias job targets: `{base}-{highest}` over the family. */
  function AliasTarget(corpus: Corpus, server: Server, c: Snapshot): string
    requires LiteralBase(IndexBaseName(server, corpus))
  {
    var base := IndexBaseName(server, corpus);
    VersionedName(base, HighestVersionInResult(IndicesWithBaseName(c.indices, base), base))
  }

  /** The deletions of a cleaning alias job: every family member not of the highest version. */
  function CleanTasks(corpus: Corpus, server: Server, c: Snapshot): seq<Task>
    requires LiteralBase(IndexBaseName(server, corpus))
  {
    var base := IndexBaseName(server, corpus);
    var indices := IndicesWithBaseName(c.indices, base);
    DeleteIndexTasks(StaleIndices(indices, base, HighestVersionInResult(indices, base)))
  }

  /**
   * `create_alias_job`: point the aliases at `{base}-{highest}`, the highest version
   * among the family, and with `clean` delete every family member of another
   * version; raise when the family is empty or the rollover is refused.
   */
  function AliasPlan(corpus: Corpus, server: Server, c: Snapshot, clean: bool): Plan
    requires LiteralBase(IndexBaseName(server, corpus))
  {
    var base := IndexBaseName(server, corpus);
    var target := AliasTarget(corpus, server, c);
    if IndicesWithBaseName(c.indices, base) == [] then Failed(NoMatchingIndex)
    else if RolloverTasks(c, base, target, ExtraAlias(corpus)).Failed? then Failed(UnversionedIndexExists)
    else
      Planned(RolloverSteps(c, base, target, ExtraAlias(corpus)) + (if clean then CleanTasks(corpus, server, c) else []))
  }

  /**
   * The alias job raises "no matching index" exactly when no index has the base
   * name, and refuses the rollover exactly when an index is named like it.
   */
  lemma AliasPlanFailsIff(corpus: Corpus, server: Server, c: Snapshot, clean: bool)
    requires LiteralBase(IndexBaseName(server, corpus))
    ensures AliasPlan(corpus, server, c, clean) == Failed(NoMatchingIndex) <==>
              forall x :: x in c.indices ==> !HasBaseName(x, IndexBaseName(server, corpus))
    ensures AliasPlan(corpus, server, c, clean) == Failed(UnversionedIndexExists) <==>
              IndexBaseName(server, corpus) in c.indices
  {
    var base := IndexBaseName(server, corpus);
    assert base[|base|..] == "" && base[..|base|] == base;
    assert HasBaseName(base, base);
    RolloverFailsIffUnversionedIndex(c, base, AliasTarget(corpus, server, c), ExtraAlias(corpus));
  }

  /** When every versioned name spells its version plainly, the highest version's plain name is listed. */
  lemma HighestPlainSpelledIsListed(names: seq<string>, base: string)
    requires LiteralBase(base)
    ensures (exists i :: 0 <= i < |names| && VersionFromName(names[i], base).Some?)
            && (forall i :: 0 <= i < |names| && VersionFromName(names[i], base).Some? ==>
                  names[i] == VersionedName(base, VersionFromName(names[i], base).value))
            ==> VersionedName(base, HighestVersionInResult(names, base)) in names
  {
    if exists i :: 0 <= i < |names| && VersionFromName(names[i], base).Some? {
      var i :| 0 <= i < |names| && VersionFromName(names[i], base) == Some(HighestVersionInResult(names, base));
    }
  }

  /**
   * The alias job's target carries a version at least that of every listed index of
   * the family. When some index carries a version and every versioned index spells
   * its version as the plain decimal (no leading zeros, no final newline), the
   * target is one of the listed indices. The job's first task gives it the
   * base-name alias.
   */
  lemma AliasTargetIsHighest(corpus: Corpus, server: Server, c: Snapshot, clean: bool)
    requires LiteralBase(IndexBaseName(server, corpus))
    ensures var base := IndexBaseName(server, corpus);
            var target := AliasTarget(corpus, server, c);
            && VersionFromName(target, base).Some?
            && (forall i :: 0 <= i < |c.indices| && VersionFromName(c.indices[i], base).Some? ==>
                  VersionFromName(c.indices[i], base).value <= VersionFromName(target, base).value)
            && ((exists i :: 0 <= i < |c.indices| && VersionFromName(c.indices[i], base).Some?)
                && (forall i :: 0 <= i < |c.indices| && VersionFromName(c.indices[i], base).Some? ==>
                      c.indices[i] == VersionedName(base, VersionFromName(c.indices[i], base).value))
                ==> target in c.indices)
            && (AliasPlan(corpus, server, c, clean).Planned? ==>
                  AliasPlan(corpus, server, c, clean).tasks[0] == AddAlias(target, base))
  {
    var base := IndexBaseName(server, corpus);
    var indices := IndicesWithBaseName(c.indices, base);
    var highest := HighestVersionInResult(indices, base);
    MaxVersionOfFiltered(c.indices, base);
    assert highest == HighestVersionInResult(c.indices, base);
    VersionRoundTrip(base, highest);
    HighestPlainSpelledIsListed(c.indices, base);
    RolloverAddsBeforeRemoving(c, base, AliasTarget(corpus, server, c), ExtraAlias(corpus));
  }

  /**
   * The deletions of a cleaning job are exactly the family members whose version is
   * not the target's; the target itself is never among them.
   */
  lemma CleanTasksSpec(corpus: Corpus, server: Server, c: Snapshot, x: string)
    requires LiteralBase(IndexBaseName(server, corpus))
    ensures var base := IndexBaseName(server, corpus);
            var ts := CleanTasks(corpus, server, c);
            var target := AliasTarget(corpus, server, c);
            && (forall t :: t in ts ==> t.DeleteIndex? && Stage(t) == 4)
            && (DeleteIndex(x) in ts <==>
                  x in c.indices && HasBaseName(x, base) && VersionFromName(x, base) != VersionFromName(target, base))
            && DeleteIndex(target) !in ts
  {
    var base := IndexBaseName(server, corpus);
    var indices := IndicesWithBaseName(c.indices, base);
    var highest := HighestVersionInResult(indices, base);
    DeleteStaleTasksSpec(indices, base, highest, x);
    VersionRoundTrip(base, highest);
    DeleteStaleTasksSpec(indices, base, highest, VersionedName(base, highest));
  }

  lemma DeleteStaleTasksSpec(indices: seq<string>, base: string, highest: nat, x: string)
    requires LiteralBase(base)
    ensures var ts := DeleteIndexTasks(StaleIndices(indices, base, highest));
            && (forall t :: t in ts ==> t.DeleteIndex? && Stage(t) == 4)
            && (DeleteIndex(x) in ts <==> x in indices && VersionFromName(x, base) != Some(highest))
  {
    var stale := StaleIndices(indices, base, highest);
    var ts := DeleteIndexTasks(stale);
    StaleIndicesSpec(indices, base, highest);
    assert forall t :: t in ts ==> t.DeleteIndex? && t.index in stale;
    if x in stale {
      var k :| 0 <= k < |stale| && stale[k] == x;
      assert ts[k] == DeleteIndex(x);
    }
  }

  /** A planned alias job is the rollover to the target, then the deletions when cleaning. */
  lemma AliasPlanTasks(corpus: Corpus, server: Server, c: Snapshot, clean: bool)
    requires LiteralBase(IndexBaseName(server, corpus))
    requires AliasPlan(corpus, server, c, clean).Planned?
    ensures AliasPlan(corpus, server, c, clean).tasks ==
              RolloverSteps(c, IndexBaseName(server, corpus), AliasTarget(corpus, server, c), ExtraAlias(corpus))
              + (if clean then CleanTasks(corpus, server, c) else [])
  {
  }

  /**
   * With `clean`, exactly the family members whose version is not the highest are
   * deleted, after every alias task; the target itself is never deleted. Without
   * `clean` nothing is.
   */
  lemma AliasPlanCleanDeletesStale(corpus: Corpus, server: Server, c: Snapshot, clean: bool, x: string)
    requires LiteralBase(IndexBaseName(server, corpus))
    requires AliasPlan(corpus, server, c, clean).Planned?
    ensures var base := IndexBaseName(server, corpus);
            var ts := AliasPlan(corpus, server, c, clean).tasks;
            var target := AliasTarget(corpus, server, c);
            && (DeleteIndex(x) in ts <==>
                  clean && x in c.indices && HasBaseName(x, base) && VersionFromName(x, base) != VersionFromName(target, base))
            && DeleteIndex(target) !in ts
            && StagesOrdered(ts)
  {
    var base := IndexBaseName(server, corpus);
    var target := AliasTarget(corpus, server, c);
    var rs := RolloverSteps(c, base, target, ExtraAlias(corpus));
    var ds := if clean then CleanTasks(corpus, server, c) else [];
    AliasPlanTasks(corpus, server, c, clean);
    RolloverAddsBeforeRemoving(c, base, target, ExtraAlias(corpus));
    CleanTasksSpec(corpus, server, c, x);
    CleanTasksSpec(corpus, server, c, target);
    AliasThenDelete(rs, ds, x);
    AliasThenDelete(rs, ds, target);
  }

  /** Alias tasks followed by deletions keep the stage order, and only the deletions delete. */
  lemma AliasThenDelete(rs: seq<Task>, ds: seq<Task>, x: string)
    requires forall t :: t in rs ==> (t.AddAlias? || t.RemoveAlias?) && Stage(t) == 3
    requires forall t :: t in ds ==> t.DeleteIndex? && Stage(t) == 4
    ensures DeleteIndex(x) in rs + ds <==> DeleteIndex(x) in ds
    ensures StagesOrdered(rs + ds)
  {
    assert StagesOrdered(rs) && StagesOrdered(ds);
    ConcatOrdered(rs, ds);
  }

  /**
   * The alias job targets the name rebuilt from the parsed number, not a listed
   * index: with `foo-01` as the only index it moves the alias to `foo-1`, which does
   * not exist.
   */
  lemma AliasTargetRenormalisesVersion()
    ensures AliasPlan(Corpus("foo", 1, true, "foo", ""), Server(""), Snapshot(["foo-01"], map[]), false)
         == Planned([AddAlias("foo-1", "foo")])
  {
    var c := Snapshot(["foo-01"], map[]);
    var corpus := Corpus("foo", 1, true, "foo", "");
    FamilyOfLeadingZeroIndex();
    assert AliasTarget(corpus, Server(""), c) == "foo-1" by {
      assert NatToString(1) == "1";
    }
    assert "foo" != "foo-01";
    assert RolloverTasks(c, "foo", "foo-1", None) == Planned(RolloverSteps(c, "foo", "foo-1", None));
    assert IndicesWithAlias(c, "foo", "") == [];
    assert RemoveAliasTasks([], "foo") == [];
    assert RolloverSteps(c, "foo", "foo-1", None) == [AddAlias("foo-1", "foo")];
  }

  lemma FamilyOfLeadingZeroIndex()
    ensures IndicesWithBaseName(["foo-01"], "foo") == ["foo-01"]
    ensures HighestVersionInResult(["foo-01"], "foo") == 1
  {
    var indices := ["foo-01"];
    VersionOfVersionedName("foo-01", "foo", "01", "");
    assert DigitsValue("01") == 1 by {
      assert "01"[..1] == "0";
      assert "0"[..0] == "";
    }
    assert indices[1..] == [];
    assert MaxVersion(indices[1..], "foo") == None;
  }

  /** The clean loop of `create_alias_job`: a `DeleteIndexTask` for each stale family member. */
  method DeleteStale(job: Job, indices: seq<string>, base: string, highest: nat)
    requires LiteralBase(base)
    modifies job
    ensures job.tasks == old(job.tasks) + DeleteIndexTasks(StaleIndices(indices, base, highest))
  {
    ghost var before := job.tasks;
    for i := 0 to |indices|
      invariant job.tasks == before + DeleteIndexTasks(StaleIndices(indices[..i], base, highest))
    {
      assert indices[..i + 1][..i] == indices[..i];
      if VersionFromName(indices[i], base) != Some(highest) {
        job.Create(DeleteIndex(indices[i]));
      }
    }
    assert indices[..|indices|] == indices;
  }

  /** `create_alias_job` on a job: build the planned tasks task by task, or raise. */
  method CreateAliasJob(corpus: Corpus, server: Server, c: Snapshot, clean: bool) returns (r: JobOutcome)
    requires LiteralBase(IndexBaseName(server, corpus))
    ensures r.Raised? <==> AliasPlan(corpus, server, c, clean).Failed?
    ensures r.Raised? ==> r.error == AliasPlan(corpus, server, c, clean).error
    ensures r.Created? ==> fresh(r.job) && r.job.corpus == corpus
                           && r.job.tasks == AliasPlan(corpus, server, c, clean).tasks
  {
    ghost var plan := AliasPlan(corpus, server, c, clean);
    var job := new Job(corpus);
    var base := IndexBaseName(server, corpus);
    var indices := IndicesWithBaseName(c.indices, base);
    if |indices| == 0 {
      assert plan == Failed(NoMatchingIndex);
      return Raised(NoMatchingIndex);
    }
    var highest := HighestVersionInResult(indices, base);
    var latest := VersionedName(base, highest);
    assert latest == AliasTarget(corpus, server, c);
    var ok := AddAliasRolloverTasks(job, c, base, latest);
    if !ok {
      assert plan == Failed(UnversionedIndexExists);
      return Raised(UnversionedIndexExists);
    }
    ghost var rolled := job.tasks;
    assert rolled == RolloverSteps(c, base, latest, ExtraAlias(corpus));
    if clean {
      DeleteStale(job, indices, base, highest);
      assert job.tasks == rolled + CleanTasks(corpus, server, c);
    }
    assert plan == Planned(job.tasks);
    return Created(job);
  }
}
