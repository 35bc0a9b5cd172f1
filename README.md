# Textcavator index naming, indexing-job planning and text helpers in Dafny

This project models the core of Textcavator, a corpus search and text-mining platform built on
Elasticsearch, and proves properties of that model.

**Index versions.** Each corpus has a base index name. The concrete indices of a corpus are
versioned `{base}-{n}`, and an alias named after the base points at the live version.
- `Versioning` parses such names with the loose `[0-9]+` suffix and Python's `$`. It finds the
  family of a base name, the highest version and the next version.
- `EsAlias` resolves the current index behind an alias and lists the family members holding an alias.

**Job planning.** `CreateJob` turns operator options and a snapshot of the cluster (`Cluster`)
into the ordered tasks of an indexing job or an alias job, or into the error the planner raises.
- The job is a class whose task list grows one `Create` call at a time (`IndexingTasks`).
- A raise inside the atomic transaction leaves no job.
- `Executor` gives the alias and deletion tasks their plain effect on the snapshot. It uses
  that effect to state the end states that the alias tests assert.

**Search side.** `Search` models the index name the search side uses and the projections of a
search response.

**Secondary cores.**
- `CsvFieldInfo`: CSV column type inference.
- `TermVectors`: term-vector token listing and phrase matching.
- `EsMappings`, `LanguageUtils`, `LanguageAnalysis`: the Elasticsearch mapping and analyzer
  builders.
- Frontend pieces:
  - `Ngram`: the n-gram settings codec;
  - `HighlightSnippet`, `Snippet`, `Paragraph`: the highlight, snippet and paragraph pipes;
  - `ThemeButton`: the theme button cycle.

**Support modules.**
- `Wrappers`: an Option type.
- `Strings`: decimal digits, JavaScript `split`/`join`/`indexOf`/`trimEnd`, Python string order.
- `Json`: the dicts sent to Elasticsearch.
- `Corpora`: the corpus and server configuration.
- `DocumentContent`: a document field, either a string or a list of paragraphs.

Library predicates are parameters of the model. These are the number, date and URL recognizers,
the wildcard and fuzzy matchers, stopword and stemmer availability, and the highlight tags.

## Model

| member | source | states |
|---|---|---|
| Versioning.VersionOfVersionedName | backend/es/versioning.py:49-61 | a name spelled `{base}-{digits}` (with at most one final newline, which `$` accepts) parses to the digits' value and has the base name |
| Versioning.VersionFromNameSpec | backend/es/versioning.py:49-61 | `version_from_name` gives a number exactly when the name is the base, `-`, digits and what `$` accepts, and that number is the digits' value |
| Versioning.VersionRoundTrip | backend/es/versioning.py:59-61 | the name `{base}-{n}` parses back to `n` for every `n >= 0` |
| Versioning.HasBaseNameSpec | backend/es/versioning.py:45-46 | `has_base_name` holds exactly for the base itself (optionally with a final newline) and its versioned names |
| Versioning.VersionedNameHasBaseName | backend/es/versioning.py:45-61 | every name with a version also has the base name |
| Versioning.VersionFromNameParses | backend/es/tests/test_versioning.py:5-16 | `foo-1` parses to 1 and `foo-11` to 11 |
| Versioning.VersionFromNameLoose | backend/es/versioning.py:59 | the loose suffix accepts leading zeros and 0: `foo-01` is 1, `foo-0` is 0 |
| Versioning.VersionFromNameBare | backend/es/tests/test_versioning.py:10 | the bare base name `foo` has no version |
| Versioning.VersionFromNameExtraComponent | backend/es/tests/test_versioning.py:11 | `foo-bar-3` has no version |
| Versioning.VersionFromNameTrailingText | backend/es/tests/test_versioning.py:12 | `foo-1-or-something` has no version |
| Versioning.VersionFromNameDecimal | backend/es/versioning.py:53-56 | `foo-5.3` has no version |
| Versioning.FilterByBaseName | backend/es/versioning.py:10-19 | the kept names are exactly the input names with the base name |
| Versioning.IndicesWithBaseName | backend/es/versioning.py:10-19 | exactly the existing names with the base name, and `[]` when none has it |
| Versioning.MaxVersion | backend/es/versioning.py:80-85 | None iff no name parses; otherwise one of the parsed versions and at least every parsed version |
| Versioning.HighestVersionInResult | backend/es/versioning.py:64-87 | at least every parsed version, 0 when none parses, and equal to a parsed version when one does |
| Versioning.HighestVersionOfTwo | backend/es/tests/test_versioning.py:19-30 | `test-versioning-1` and `test-versioning-2` give 2 |
| Versioning.HighestVersionOfOneOrNone | backend/es/tests/test_versioning.py:19-30 | `test-versioning-5` alone gives 5, and no names give 0 |
| Versioning.NextVersionNumber | backend/es/versioning.py:22-42 | the next version number is at least 1 |
| Versioning.MaxVersionOfFiltered | backend/es/versioning.py:37-42 | dropping names without the base name never changes the highest version |
| Versioning.NextVersionIsHighestPlusOne | backend/es/versioning.py:22-42 | the next version is the highest version plus one (1 when there is none) |
| Versioning.NextVersionExceedsAll | backend/es/versioning.py:22-42 | the next version is greater than every existing version of the family |
| Versioning.NextVersionFollowsExisting | backend/es/versioning.py:38-42 | the next version is 1 or one more than an existing version |
| Versioning.NextVersionBounds | backend/es/versioning.py:22-42 | both bounds together: above every existing version, and 1 or an existing version plus one |
| Versioning.NextVersionNameIsFresh | backend/es/versioning.py:22-42 | the name `{base}-{next}` is not an existing index |
| Cluster.Resolve | backend/es/es_alias.py:10-11 | a lookup succeeds exactly for a non-empty alias or index name; on a well-formed snapshot (no alias named like an index, every alias held by existing indices) it gives at least one existing index, and includes the name itself exactly when the name is an index |
| EsAlias.MaxName | backend/es/es_alias.py:12 | `max(sorted(names))` is one of the names |
| EsAlias.MaxNameIsGreatest | backend/es/es_alias.py:12 | that name is greatest in Python's string order |
| EsAlias.CurrentIndexName | backend/es/es_alias.py:8-12 | defined exactly when the corpus's alias (or `es_index`) resolves to some index; then it is the string-greatest of them |
| EsAlias.CurrentIndexIsStringMaximum | backend/es/es_alias.py:12 | of `x-9` and `x-10` the current index is `x-9`: string order, not version order |
| EsAlias.CurrentIndexAcrossSharedAlias | backend/es/es_alias.py:8-12 | with `times` sharing the alias `newspapers` with `volkskrant-1`, the current index of `times` is `volkskrant-1` |
| EsAlias.IndicesWithAlias | backend/es/es_alias.py:15-29 | nothing for a missing alias; all holders without a base name; with one, exactly the holders that have the base name |
| Search.GetIndexAgreesIffNotCustom | backend/es/search.py:6-14 | the search-side name equals the planner's base name exactly when the corpus is not an unnamed database corpus |
| Search.GetIndexCustomCounterexample | backend/es/search.py:13 | on server `test`, database corpus 7 is searched as `test-custom[7]` but created as `test-custom_7` |
| Search.IndexNameTests | backend/es/tests/test_index_name.py:4-14 | an explicit `es_index` is used verbatim, a Python corpus is `test-{name}`, a database corpus is `test-custom_{pk}` |
| Search.ProjectionsOfResponse | backend/es/search.py:40-47 | `total_hits`, `hits` and `aggregation_results` read back the count, documents and aggregations |
| Search.ProjectionsWithoutHits | backend/es/search.py:40-44 | without `hits` both hit projections fail, as Python's lookups raise |
| Search.AggregationResultsSpec | backend/es/search.py:46-47 | `aggregation_results` succeeds exactly when the key is present, and returns its value |
| IndexingTasks.Job.constructor | backend/indexing/create_job.py:43 | a new job belongs to the corpus and has no tasks |
| IndexingTasks.Job.Create | backend/indexing/create_job.py:47-53 | creating a task appends it to the job's tasks |
| CreateJob.IndexBaseNameInjective | backend/indexing/create_job.py:149-155 | two database corpora without `es_index` sharing a base name are the same corpus |
| CreateJob.JobIndexSpec | backend/indexing/create_job.py:123-146 | the job index is missing only for a production update without a current index; a new production index is fresh and above every existing version |
| CreateJob.ConcatOrdered | backend/indexing/create_job.py:20-87 | two stage-ordered task lists, the first before the second, concatenate in stage order |
| CreateJob.RemoveAliasTasksSpec | backend/indexing/create_job.py:99-104 | every task removes the given alias, and it is removed from a name exactly when that name is listed |
| CreateJob.MoveAliasTasksSpec | backend/indexing/create_job.py:94-104 | moving an alias adds it to the new index first, then removes it from exactly the listed holders |
| CreateJob.RolloverFailsIffUnversionedIndex | backend/indexing/create_job.py:90-92 | the rollover raises exactly when an index is named like the base |
| CreateJob.RolloverAddsBeforeRemoving | backend/indexing/create_job.py:94-114 | every removal of an alias comes after the addition of that alias to the new index |
| CreateJob.RolloverRemovesBaseAliasFromHolders | backend/indexing/create_job.py:99-104 | the base alias is removed from exactly its current holders: no family filter, and the new index is not skipped |
| CreateJob.RolloverRemovesExtraAliasFromFamily | backend/indexing/create_job.py:106-114 | the extra alias is added to the new index and removed only from holders of the same family |
| CreateJob.MoveAlias | backend/indexing/create_job.py:94-104 | on the job: the add task, then one remove task per holder, appended |
| CreateJob.AddAliasRolloverTasks | backend/indexing/create_job.py:90-114 | on the job: succeeds iff the plan does, then appends exactly the planned rollover tasks; when refused, the job's tasks are unchanged |
| CreateJob.IndexTasksContents | backend/indexing/create_job.py:47-76 | create iff a new index, populate unless mappings-only or update, update iff update (never both, with the date window), one-replica settings iff new in production, and nothing else |
| CreateJob.IndexTasksKinds | backend/indexing/create_job.py:47-76 | the index-building tasks only create, fill, update or configure |
| CreateJob.IndexTasksOrdered | backend/indexing/create_job.py:47-76 | the index-building tasks come in stage order |
| CreateJob.IndexingPlanFailsIff | backend/indexing/create_job.py:20-87 | the job raises for a missing current index exactly on a production update without one, and for an unversioned index exactly on a production rollover when an index carries the base name |
| CreateJob.IndexingPlanTasks | backend/indexing/create_job.py:39-85 | a planned indexing job is its index-building tasks followed by its alias tasks |
| CreateJob.IndexingJobTasksSpec | backend/indexing/create_job.py:39-85 | those tasks run in stage order, alias tasks touch only the base and extra alias, and outside production the only alias task adds the extra alias |
| CreateJob.BuildThenAlias | backend/indexing/create_job.py:39-85 | index-building tasks followed by alias tasks stay in stage order, and only the latter move aliases |
| CreateJob.AliasTasksOnly | backend/indexing/create_job.py:78-85 | the appended alias tasks are all alias tasks of the last stage on the base or extra alias |
| CreateJob.IndexingPlanOrdered | backend/indexing/create_job.py:20-87 | a planned indexing job runs in stage order and moves only its own aliases |
| CreateJob.IndexingPlanTargetsJobIndex | backend/indexing/create_job.py:20-87 | every task of a planned indexing job other than an alias removal is about the job index |
| CreateJob.CreateIndexingJob | backend/indexing/create_job.py:20-87 | the method raises iff the plan fails, with the same error, and otherwise creates a fresh job with exactly the planned tasks |
| CreateJob.StaleIndicesSpec | backend/indexing/create_job.py:189-195 | the stale names are exactly the family members whose version is not the highest |
| CreateJob.DeleteIndexTasksSpec | backend/indexing/create_job.py:190-195 | every task is a deletion, and a name is deleted exactly when it is listed |
| CreateJob.AliasPlanFailsIff | backend/indexing/create_job.py:164-187 | the alias job raises for no matching index exactly when the family is empty, and for an unversioned index exactly when an index carries the base name |
| CreateJob.AliasTargetIsHighest | backend/indexing/create_job.py:181-187 | the target's version is at least every family version; when some index has a version and every versioned index spells it as the plain decimal, the target is an existing index; the job's first task gives the target the base alias |
| CreateJob.CleanTasksSpec | backend/indexing/create_job.py:189-195 | the clean step deletes exactly the family members whose version differs from the highest |
| CreateJob.DeleteStaleTasksSpec | backend/indexing/create_job.py:189-195 | a name is deleted iff it has the base name and a version other than the highest |
| CreateJob.AliasPlanTasks | backend/indexing/create_job.py:164-197 | a planned alias job is the rollover to the target, then the deletions when cleaning |
| CreateJob.AliasPlanCleanDeletesStale | backend/indexing/create_job.py:187-195 | when cleaning, the job deletes exactly the stale family members, after all alias tasks |
| CreateJob.AliasThenDelete | backend/indexing/create_job.py:187-195 | alias tasks followed by deletions stay in stage order, and only the deletions delete |
| CreateJob.AliasTargetRenormalisesVersion | backend/indexing/create_job.py:181-187 | with only `foo-01`, the alias job targets `foo-1`, a name that does not exist |
| CreateJob.FamilyOfLeadingZeroIndex | backend/es/versioning.py:10-19 | `foo-01` is in the family of `foo` with version 1 |
| CreateJob.DeleteStale | backend/indexing/create_job.py:189-195 | on the job: appends the deletions of exactly the stale members |
| CreateJob.CreateAliasJob | backend/indexing/create_job.py:164-197 | the method raises iff the alias plan fails, with the same error, and otherwise creates a fresh job with exactly the planned tasks |
| Executor.Without | backend/indexing/create_job.py:99-104 | removing a name from a holder list keeps exactly the other names |
| Executor.RunAppend | backend/indexing/create_job.py:20-87 | running two task lists one after the other is running their concatenation |
| Executor.RemovalsEffect | backend/indexing/create_job.py:99-104 | after the removals, the listed names no longer hold the alias and the other holders still do |
| Executor.MoveEffect | backend/indexing/create_job.py:94-104 | after a move, the holders are the old ones minus the listed ones, plus the new index unless it was listed |
| Executor.RolloverBaseAliasEndState | backend/indexing/tests/test_alias.py:8-14 | after a rollover, the base alias is held by the new index alone, or by no index when the new index already held it |
| Executor.RolloverExtraAliasEndState | backend/indexing/create_job.py:105-113 | after a rollover a name holds the extra alias exactly when it held it before or is the new index, and did not both hold it and belong to the family: holders outside the family keep it, family holders lose it, the new index included when it already held it |
| Executor.RerunRolloverUnaliasesTarget | backend/indexing/create_job.py:99-104 | when the new index already holds the base alias, the rollover removes it and leaves the alias on no index |
| Executor.RerunRolloverUnaliasesTargetExtra | backend/indexing/create_job.py:105-113 | when the new index belongs to the family and already holds the extra alias, the rollover removes it from the new index again |
| Executor.RerunRolloverExample | backend/indexing/create_job.py:99-104 | rerunning the alias job on `times-1`, `times-2` with `times` on `times-2` leaves `times` on no index |
| Executor.CorrectedRolloverEndState | backend/indexing/create_job.py:94-104 | the corrected rollover always leaves the base alias on exactly the new index |
| Executor.CorrectedRolloverIdempotent | backend/indexing/create_job.py:94-114 | running the corrected rollover twice leaves the same aliases as running it once |
| Executor.DeletionsEffect | backend/indexing/create_job.py:190-195 | after the deletions, the indices are exactly the old ones minus the deleted ones |
| Executor.CleanAliasJobEndState | backend/indexing/tests/test_alias.py:17-26 | after a cleaning alias job, the target remains and every stale family member is gone, and other corpora's indices remain |
| Executor.RolloverKeepsIndices | backend/indexing/create_job.py:90-114 | alias tasks never create or delete an index |
| Executor.NumberedMember | backend/es/versioning.py:45-61 | `{base}-{n}` belongs to the family of `base` with version `n` |
| Executor.HighestOfTwo | backend/es/versioning.py:64-87 | of two versioned names, the larger version is the highest |
| Executor.FilterOfThree | backend/es/versioning.py:10-19 | two family members and an outsider filter to the two, in order |
| Executor.AliasTargetIs | backend/indexing/create_job.py:181-187 | the alias target is the base name with the family's highest version |
| Executor.TimesFamily | backend/indexing/tests/test_alias.py:8-14 | the family of `test-times` is its two versions, and the target is `test-times-2` |
| Executor.AliasPlanTo | backend/indexing/create_job.py:164-187 | without cleaning, a non-empty family without an unversioned index plans exactly the rollover to the target |
| Executor.AliasPlanWithoutClean | backend/indexing/create_job.py:164-187 | such a plan succeeds |
| Executor.AliasScenario | backend/indexing/tests/test_alias.py:8-14 | `test_alias`: the alias job succeeds and leaves `test-times` on `test-times-2` |
| Executor.ExtraAliasScenarioPlan | backend/indexing/tests/test_alias.py:40-68 | the extra-alias test's plan succeeds and rolls over to `test-times-2` |
| Executor.ExtraAliasScenario | backend/indexing/tests/test_alias.py:40-68 | `test_alias_extra_alias`: `test-newspapers` moves to `test-times-2` and stays on `test-guardian-1` |
| Executor.ExtraAliasOutcome | backend/indexing/create_job.py:106-114 | a shared alias leaves the previous family member and stays on the other family's index |
| Executor.CleanScenario | backend/indexing/tests/test_alias.py:17-26 | `test_alias_with_clean`: `test-times-1` is deleted, as the test asserts; on the model's snapshot `test-times-2` and `test-guardian-1` also remain, which the test does not check |
| Executor.CleanOutcome | backend/indexing/create_job.py:189-195 | cleaning drops a stale family member and keeps the current index and an outsider |
| Executor.UnversionedScenario | backend/indexing/tests/test_alias.py:28-37 | `test_alias_with_unversioned_index`: with an index named `test-times` the alias job raises |
| Executor.FirstAliasOutcome | backend/indexing/create_job.py:94-98 | a rollover of an alias no index holds yet leaves it on the new index |
| CsvFieldInfo.LabelInjective | backend/addcorpus/json_corpora/csv_field_info.py:47-60 | the seven labels are distinct |
| CsvFieldInfo.AnySpec | backend/addcorpus/json_corpora/csv_field_info.py:119-124 | `any` holds iff some value satisfies the predicate |
| CsvFieldInfo.AllSpec | backend/addcorpus/json_corpora/csv_field_info.py:119-124 | `all` holds iff every value satisfies the predicate |
| CsvFieldInfo.ColIsNullOrTypeSpec | backend/addcorpus/json_corpora/csv_field_info.py:119-124 | a column has the type iff some non-empty value has it and every value is empty or has it |
| CsvFieldInfo.EmptyColumnIsUntyped | backend/addcorpus/json_corpora/tests/test_csv_field_info.py:17-26 | a column of empty values has no type |
| CsvFieldInfo.NonConformingValueDisqualifies | backend/addcorpus/json_corpora/tests/test_csv_field_info.py:20-25 | one non-empty value without the type disqualifies the column |
| CsvFieldInfo.Lower | backend/addcorpus/json_corpora/csv_field_info.py:91-92 | lower-casing keeps the length |
| CsvFieldInfo.LowerIdempotent | backend/addcorpus/json_corpora/csv_field_info.py:91-92 | lower-casing twice is lower-casing once |
| CsvFieldInfo.IsBoolIgnoresCase | backend/addcorpus/json_corpora/csv_field_info.py:91-92 | a value is boolean iff its lower-case form is |
| CsvFieldInfo.IsBoolExamples | backend/addcorpus/json_corpora/csv_field_info.py:91-92 | `TRUE`, `False`, `false` are booleans; the empty value, `yes`, `1`, `true ` are not |
| CsvFieldInfo.IsLongTextColSpec | backend/addcorpus/json_corpora/csv_field_info.py:127-128 | a column is long text iff some value is |
| CsvFieldInfo.IsLongTextExamples | backend/addcorpus/json_corpora/tests/test_csv_field_info.py:46-56 | a short word and the empty value are not long text; a line break or more than 100 characters make it long |
| CsvFieldInfo.MapColSound | backend/addcorpus/json_corpora/csv_field_info.py:47-60 | the chosen value type fits the column and every type tried before it does not; `text_content` means some value is long text, `text_metadata` that none is |
| CsvFieldInfo.MapColPrefersInteger | backend/addcorpus/json_corpora/csv_field_info.py:47-50 | a column whose non-empty values are all integers is an integer column |
| CsvFieldInfo.MapColEmptyColumn | backend/addcorpus/json_corpora/csv_field_info.py:47-60 | a column without non-empty values is `text_metadata` |
| CsvFieldInfo.UrlColumnExamples | backend/addcorpus/json_corpora/tests/test_csv_field_info.py:17-26 | the url test columns: two urls, with an empty value, are url columns; with `12345`, or all empty, they are not |
| CsvFieldInfo.CsvInfoOf | backend/addcorpus/json_corpora/csv_field_info.py:10-44 | the row count, the delimiter, one field per column in header order, and each field's type is `map_col` of the column's values (empty where a row lacks the column) |
| CsvFieldInfo.CsvInfoFieldTypes | backend/addcorpus/json_corpora/csv_field_info.py:18-28 | in terms of the rows: an unfilled column is `text_metadata`; a value-typed column has a value of that type, and every row that fills it passes that type's check; a `text_content` column has a long text in some row |
| TermVectors.AllTokensSpec | backend/visualization/termvectors.py:37-47 | a token is listed iff some term reports its position |
| TermVectors.Insert | backend/visualization/termvectors.py:43-45 | insertion adds the one token |
| TermVectors.SortByPosition | backend/visualization/termvectors.py:43-45 | sorting is a permutation |
| TermVectors.InsertSorted | backend/visualization/termvectors.py:43-45 | insertion keeps a list sorted by position |
| TermVectors.SortSorted | backend/visualization/termvectors.py:43-45 | the sorted list is in non-decreasing position order |
| TermVectors.InsertAtPosition | backend/visualization/termvectors.py:43-45 | insertion puts the token after the tokens already at its position |
| TermVectors.SortStable | backend/visualization/termvectors.py:43-45 | the tokens at each position keep their order |
| TermVectors.GetTokens | backend/visualization/termvectors.py:37-47 | no terms, or empty terms, give no tokens; unsorted, the tokens are those of every term, term by term; sorted, the same tokens as a multiset |
| TermVectors.GetTokensSorted | backend/visualization/termvectors.py:37-47 | the sorted tokens are a permutation of the unsorted ones, in position order, stable |
| TermVectors.TermsMatchPlain | backend/visualization/termvectors.py:79-99 | without a wildcard or fuzzy suffix, a query term matches exactly the equal term |
| TermVectors.PlainWordMatchesItself | backend/visualization/termvectors.py:79-99 | a word without `.` or `~` matches itself and nothing else |
| TermVectors.NonEmptyComponents | backend/visualization/termvectors.py:112-114 | the kept components are exactly the non-empty ones |
| TermVectors.MatchesAt | backend/visualization/termvectors.py:69-76 | every match at a token starts there |
| TermVectors.MatchesAtSpec | backend/visualization/termvectors.py:69-76 | a match at a start is a component matching term by term there, with its window and joined content |
| TermVectors.MatchesFromSpec | backend/visualization/termvectors.py:69-76 | a match from a token on is such a match at some later start |
| TermVectors.TokenMatchesSpec | backend/visualization/termvectors.py:61-76 | each match is a non-empty component matching the window `start..stop` inside the tokens, with the joined terms as content |
| TermVectors.MatchesFromOrdered | backend/visualization/termvectors.py:69-71 | the matches start at or after the first token, in non-decreasing start order |
| TermVectors.TokenMatchesOrdered | backend/visualization/termvectors.py:69-71 | `token_matches` yields its matches in non-decreasing start order |
| TermVectors.EmptyComponentsMatchNothing | backend/visualization/termvectors.py:110-114 | empty analyzed components give no match |
| EsMappings.MainContentMapping | backend/addcorpus/es_mappings.py:10-50 | type `text` with positions and offsets; `fields` iff some option and a language; `length` iff token counts; `clean` iff stopwords wanted and available; `stemmed` iff stemming wanted and available |
| EsMappings.DefaultContentMapping | backend/addcorpus/es_mappings.py:10-50 | with the defaults and a language, only the `length` subfield |
| EsMappings.KeywordMapping | backend/addcorpus/es_mappings.py:63-78 | type `keyword`, with the `text` subfield iff full-text search is enabled |
| EsMappings.SimpleMappingTypes | backend/addcorpus/es_mappings.py:53-110 | the type each simple constructor declares, and None for a mapping without type |
| LanguageUtils.FirstUnderscore | backend/addcorpus/language_utils.py:8-9 | the first underscore in a string |
| LanguageUtils.AnalyzerNameParts | backend/addcorpus/language_utils.py:8-9 | `analyzer_name` is the type, an underscore and the language when there is a language, else the type |
| LanguageUtils.AnalyzerNameInjective | backend/addcorpus/language_utils.py:8-9 | distinct underscore-free types and languages give distinct names |
| LanguageUtils.StrArrayRoundTrip | backend/addcorpus/language_utils.py:50-54 | the strings come back unchanged from their JSON list |
| LanguageUtils.StopwordsFilterKeepsWords | backend/addcorpus/language_utils.py:50-54 | the stop filter has type `stop` and holds exactly the given words, in order |
| LanguageAnalysis.StemmerFilterKey | backend/addcorpus/language_analysis.py:91-94 | the stemmer language is defined iff the language has stemming |
| LanguageAnalysis.StemmedAnalyzerName | backend/addcorpus/language_analysis.py:96-99 | the stemmed analyzer name is defined iff the language has stemming |
| LanguageAnalysis.Stopwords | backend/addcorpus/language_analysis.py:35-40 | the stopword list is defined iff the language has stopwords |
| LanguageAnalysis.CharFilters | backend/addcorpus/language_analysis.py:42-46 | exactly the `number_filter`: a `pattern_replace` of `\d+` with the empty replacement |
| LanguageAnalysis.FilterNamesDistinct | backend/addcorpus/language_analysis.py:48-57 | the stopwords and stemmer filter names differ from each other and from `french_elision` |
| LanguageAnalysis.BaseTokenFilters | backend/addcorpus/language_analysis.py:48-57 | `stopwords_<code>` iff stopwords, `stemmer_<code>` iff stemming, holding the stop and stemmer filters, and nothing else |
| LanguageAnalysis.TokenFilters | backend/addcorpus/language_analysis.py:142-152 | the base filters, plus `french_elision` for French only, whose value is a one-element list |
| LanguageAnalysis.TokenFiltersCorrected | backend/addcorpus/language_analysis.py:142-152 | the same, with the elision dict itself as the value, so that every entry is a filter definition |
| LanguageAnalysis.FrenchElisionIsNotAFilter | backend/addcorpus/language_analysis.py:151 | as written, French's `french_elision` entry is not a filter definition |
| LanguageAnalysis.StandardAnalyzer | backend/addcorpus/language_analysis.py:59-65 | defined only for French, German and Chinese, with the standard tokenizer, no char filter and lower-casing |
| LanguageAnalysis.CleanAnalyzerSpec | backend/addcorpus/language_analysis.py:75-85 | defined iff the language has stopwords; the standard tokenizer, the number filter, lower-casing, and the stopword filter last |
| LanguageAnalysis.StemmedAnalyzer | backend/addcorpus/language_analysis.py:101-109 | none without stemming; raises when stemming has no clean analyzer; otherwise the clean analyzer with the stemmer filter appended |
| LanguageAnalysis.FrenchStemmedAnalyzer | backend/addcorpus/language_analysis.py:163-172 | French stems after eliding, lower-casing and removing stopwords |
| LanguageAnalysis.ChineseStemmedAnalyzer | backend/addcorpus/language_analysis.py:201-213 | Chinese has a clean analyzer but no stemmed one |
| Ngram.Pieces | frontend/src/app/models/ngram.ts:29-37 | the settings make seven pieces |
| Ngram.SplitLimit2 | frontend/src/app/models/ngram.ts:58 | a split with limit 2 gives one or two parts |
| Ngram.FromPairsKeys | frontend/src/app/models/ngram.ts:59 | the keys are exactly the first parts of the pairs |
| Ngram.FromPairsLast | frontend/src/app/models/ngram.ts:59 | the last pair with a key decides its value |
| Ngram.SignedDigits | frontend/src/app/models/ngram.ts:62-65 | the digits `parseInt` reads are all digits |
| Ngram.StoreToStateDefaults | frontend/src/app/models/ngram.ts:44-55 | without settings every field takes its default: ngrams, 2, `any`, false, `none`, 50, 10 |
| Ngram.ParseIntToString | frontend/src/app/models/ngram.ts:62-65 | `parseInt` reads back the decimal of every integer |
| Ngram.LeadingDigitsOfDigits | frontend/src/app/models/ngram.ts:62-65 | the leading digits of a digit string are all of it |
| Ngram.SplitPiece | frontend/src/app/models/ngram.ts:58 | a piece `k:v` without `:` in `v` splits into the key and the value |
| Ngram.SplitLimit2Truncates | frontend/src/app/models/ngram.ts:58 | a further `:` truncates the value, as JavaScript's split limit does |
| Ngram.IntStringPlain | frontend/src/app/models/ngram.ts:31-36 | an integer's decimal contains no `,` or `:` |
| Ngram.PieceWithoutComma | frontend/src/app/models/ngram.ts:29-37 | a piece of a comma-free value contains no comma |
| Ngram.PiecesWithoutComma | frontend/src/app/models/ngram.ts:29-37 | no piece of storable settings contains a comma |
| Ngram.PiecesSplit | frontend/src/app/models/ngram.ts:28-38 | no piece holds a comma, and each piece splits at `:` into its key and its encoded value |
| Ngram.ParseSevenPairs | frontend/src/app/models/ngram.ts:57-60 | the seven pairs parse to a dict of the seven values |
| Ngram.ParseStored | frontend/src/app/models/ngram.ts:28-60 | parsing the stored string gives each key its encoded value |
| Ngram.StoreRoundTrip | frontend/src/app/models/ngram.ts:28-55 | storing and reading back gives the same settings, for defined positions and strings without `,` and `:` |
| Ngram.UndefinedPositionsComeBackAsText | frontend/src/app/models/ngram.ts:32-49 | undefined positions come back as the text `undefined` |
| HighlightSnippet.Slice | frontend/src/app/document/pipes/highlight-snippet.pipe.ts:21-26 | `slice` with valid bounds is the substring |
| HighlightSnippet.AlternatesByParity | frontend/src/app/document/pipes/highlight-snippet.pipe.ts:20-30 | alternating segments are odd in number, highlighted exactly at odd indices |
| HighlightSnippet.TransformAlternates | frontend/src/app/document/pipes/highlight-snippet.pipe.ts:15-31 | the segments alternate plain and highlighted, starting and ending plain |
| HighlightSnippet.TransformStep | frontend/src/app/document/pipes/highlight-snippet.pipe.ts:16-27 | with a pre tag and a post tag after it: the text before, the highlight between, then the rest transformed |
| HighlightSnippet.TransformStop | frontend/src/app/document/pipes/highlight-snippet.pipe.ts:16-30 | with no pre tag, or no post tag after it, one plain segment with the whole value |
| HighlightSnippet.SubSlice | frontend/src/app/document/pipes/highlight-snippet.pipe.ts:21-26 | a slice of a slice is a slice |
| HighlightSnippet.OccursInSuffix | frontend/src/app/document/pipes/highlight-snippet.pipe.ts:26 | a tag in the rest is a tag in the value |
| HighlightSnippet.SuffixWellTagged | frontend/src/app/document/pipes/highlight-snippet.pipe.ts:26 | the rest of a well-tagged value is well tagged |
| HighlightSnippet.RenderPair | frontend/src/app/document/pipes/highlight-snippet.pipe.ts:20-27 | rendering a plain and a highlighted segment wraps the highlight in its tags |
| HighlightSnippet.Decompose | frontend/src/app/document/pipes/highlight-snippet.pipe.ts:16-26 | the value is the text before, the pre tag, the highlight, the post tag and the rest |
| HighlightSnippet.TransformRender | frontend/src/app/document/pipes/highlight-snippet.pipe.ts:15-31 | rendering the segments, highlights wrapped in their tags, gives back the value when no post tag starts inside a pre tag |
| HighlightSnippet.NoHighlight | frontend/src/app/document/pipes/highlight-snippet.pipe.ts:16-30 | a value without a pre tag, or without any post tag, is one plain segment |
| HighlightSnippet.PrefixLacks | frontend/src/app/document/pipes/highlight-snippet.pipe.ts:16-21 | the text before the first occurrence of a tag lacks it |
| HighlightSnippet.SliceLacks | frontend/src/app/document/pipes/highlight-snippet.pipe.ts:18-23 | the text up to the first post tag found lacks it |
| HighlightSnippet.PlainsLackPair | frontend/src/app/document/pipes/highlight-snippet.pipe.ts:20-27 | the plain segments stay free of the tag when one pair is added |
| HighlightSnippet.HighlightsLackPair | frontend/src/app/document/pipes/highlight-snippet.pipe.ts:20-27 | the highlighted segments stay free of the tag when one pair is added |
| HighlightSnippet.PlainSegmentsHaveNoPreTag | frontend/src/app/document/pipes/highlight-snippet.pipe.ts:15-31 | no plain segment contains the pre tag, so every highlight is found |
| HighlightSnippet.HighlightsHaveNoPostTag | frontend/src/app/document/pipes/highlight-snippet.pipe.ts:18-25 | each highlight ends at the first post tag after its pre tag |
| Snippet.SnipText | frontend/src/app/document/pipes/snippet.pipe.ts:25-30 | a text of at most `n` characters unchanged; a longer one is its first `n` characters without trailing whitespace, then `...` |
| Snippet.Transform | frontend/src/app/document/pipes/snippet.pipe.ts:13-31 | strings stay strings and lists stay lists; a string is snipped as `SnipText` states and a list cut as `SnipArray` states; short strings and empty lists are unchanged |
| Snippet.RunningStep | frontend/src/app/document/pipes/snippet.pipe.ts:22 | the running length after the first element is its length plus the running length of the tail |
| Snippet.FitsStep | frontend/src/app/document/pipes/snippet.pipe.ts:19-22 | fitting the budget after the first element is fitting the reduced budget in the tail |
| Snippet.SnipArrayKeeps | frontend/src/app/document/pipes/snippet.pipe.ts:18-23 | no longer than the input, every element but the last kept whole, and their running totals under the budget |
| Snippet.SnipArrayWhole | frontend/src/app/document/pipes/snippet.pipe.ts:18-23 | a list whose running totals stay under the budget is kept whole |
| Snippet.SnipArrayCut | frontend/src/app/document/pipes/snippet.pipe.ts:18-23 | otherwise it ends with the first element reaching the budget, snipped to what was left |
| Snippet.TruncatesLongText | frontend/src/app/document/pipes/snippet.pipe.spec.ts:7-9 | `Shall I compare thee...` at 20 characters |
| Snippet.LeavesShortText | frontend/src/app/document/pipes/snippet.pipe.spec.ts:11-14 | a 39-character line is unchanged at 50 |
| Paragraph.RemoveEmpty | frontend/src/app/document/pipes/paragraph.pipe.ts:13 | no empty paragraph is kept, every kept one is an input paragraph, and every non-empty input paragraph is kept |
| Paragraph.Without | frontend/src/app/document/pipes/paragraph.pipe.ts:5 | the text without the line breaks contains none |
| Paragraph.RemoveEmptyAppend | frontend/src/app/document/pipes/paragraph.pipe.ts:13 | the filter of a concatenation is the concatenation of the filters, a single paragraph is kept exactly when non-empty, and nothing gives nothing: the result is the non-empty paragraphs in their order |
| Paragraph.RemoveEmptyConcat | frontend/src/app/document/pipes/paragraph.pipe.ts:13 | removing empty paragraphs loses no text |
| Paragraph.RemoveEmptyKeeps | frontend/src/app/document/pipes/paragraph.pipe.ts:13 | a list without empty paragraphs is unchanged |
| Paragraph.SplitConcat | frontend/src/app/document/pipes/paragraph.pipe.ts:5 | the pieces of a split are the text without the separator |
| Paragraph.SplitTextParagraphs | frontend/src/app/document/pipes/paragraph.pipe.ts:3-14 | split paragraphs are non-empty, contain no line break, and hold all the text between the line breaks; the pieces join back to the text |
| Paragraph.SplitJoinedLines | frontend/src/app/document/pipes/paragraph.pipe.ts:3-14 | a text made of break-free lines joined by line breaks splits into exactly those lines, in order, with the empty ones removed |
| Paragraph.UnsplitText | frontend/src/app/document/pipes/paragraph.pipe.ts:3-14 | without splitting, a text is one paragraph, or none when empty |
| Paragraph.ListPassesThrough | frontend/src/app/document/pipes/paragraph.pipe.ts:7-13 | a list without empty paragraphs passes through unchanged |
| Paragraph.Idempotent | frontend/src/app/document/pipes/paragraph.pipe.ts:11-23 | passing the result through the pipe again changes nothing |
| Paragraph.SplitsSingleLinebreaks | frontend/src/app/document/pipes/paragraph.pipe.spec.ts:20-25 | three lines separated by line breaks become three paragraphs |
| Paragraph.SplitsMultipleLinebreaks | frontend/src/app/document/pipes/paragraph.pipe.spec.ts:27-32 | runs of line breaks, leading and trailing ones included, leave only the two lines |
| ThemeButton.FindIndex | frontend/src/app/menu/theme-button/theme-button.component.ts:33-37 | the first option loosely equal to the value, or -1 when none is |
| ThemeButton.EverySelectionMatches | frontend/src/app/menu/theme-button/theme-button.component.ts:14-18 | every selection matches an option: null and undefined the system theme, light and dark their own |
| ThemeButton.NextIndex | frontend/src/app/menu/theme-button/theme-button.component.ts:41 | the next index is another of the three |
| ThemeButton.NextIndexCycles | frontend/src/app/menu/theme-button/theme-button.component.ts:41 | system goes to light, light to dark, dark to system |
| ThemeButton.ThreeCyclesRestore | frontend/src/app/menu/theme-button/theme-button.component.ts:14-18 | three steps visit all three options and come back to the first |
| ThemeButton.OptionFindsItself | frontend/src/app/menu/theme-button/theme-button.component.ts:14-18 | each option's value is found at its own index |
| ThemeButton.ThemeService.constructor | frontend/src/app/services/theme.service.ts:15 | the selection starts as null |
| ThemeButton.ThemeButtonComponent.constructor | frontend/src/app/menu/theme-button/theme-button.component.ts:14-22 | the button has the three options and the service |
| ThemeButton.ThemeButtonComponent.CurrentIndex | frontend/src/app/menu/theme-button/theme-button.component.ts:33-37 | always one of the three, the first option loosely equal to the selection |
| ThemeButton.ThemeButtonComponent.CurrentOption | frontend/src/app/menu/theme-button/theme-button.component.ts:29-31 | an option loosely equal to the selection |
| ThemeButton.ThemeButtonComponent.AriaLabel | frontend/src/app/menu/theme-button/theme-button.component.ts:24-27 | the current option's label, one of the three labels |
| ThemeButton.ThemeButtonComponent.Cycle | frontend/src/app/menu/theme-button/theme-button.component.ts:39-43 | the selection becomes the next option's value, and the current index advances |
| ThemeButton.ThemeButtonComponent.CycleThrice | frontend/src/app/menu/theme-button/theme-button.component.ts:39-43 | three clicks show the original option again |
| Strings.IndexOf | frontend/src/app/document/pipes/highlight-snippet.pipe.ts:16-18 | `indexOf` from a position: -1 or the first occurrence at or after it |
| Strings.TrimEnd | frontend/src/app/document/pipes/snippet.pipe.ts:26 | `trimEnd` is the longest prefix without trailing whitespace |
| Strings.Split | frontend/src/app/document/pipes/paragraph.pipe.ts:5 | `split` gives at least one piece, none containing the separator |
| Strings.SplitJoin | frontend/src/app/models/ngram.ts:37-58 | splitting a join of separator-free pieces gives the pieces back |
| Strings.JoinSplit | frontend/src/app/document/pipes/paragraph.pipe.ts:5 | joining the pieces of a split gives the text back |
| Strings.NatToStringValue | frontend/src/app/models/ngram.ts:31 | the decimal of a number reads back as that number |

## Left out

- Elasticsearch client calls, Django ORM persistence and `server_for_corpus` are not modelled.
  - The cluster is a snapshot value and the tasks are a sequence on a `Job` object.
  - `transaction.atomic` becomes "no job is returned".
  - `Index.objects.get_or_create` in `get_current_index_name` is persistence and is dropped.
- Job execution (`perform_indexing`) is not part of this model. `Executor` assumes that:
  - `AddAlias` adds the index to the alias;
  - `RemoveAlias` removes it;
  - `DeleteIndex` removes the index and its alias memberships;
  - the other tasks leave names unchanged.
  Concurrent jobs are not modelled.
- Index names in the cluster are a sequence in the order the engine lists them; the alias
  members are a sequence per alias.
- Base names are required to be free of regex metacharacters (`LiteralBase`), because the source
  splices them into a regex unescaped.
- The number, date and URL recognizers of `csv_field_info.py` are parameters. They rely on
  Python's `int()`, `float()`, `strptime` and Django's `URLValidator`.
- `_read_csv`, `csv.Sniffer` delimiter detection and file reading are I/O. The rows and the
  delimiter are inputs.
- `CsvFieldInfo.Lower`: lower-cases ASCII letters only, not the full Unicode `str.lower`.
- The wildcard (Python `re`) and fuzzy (Damerau-Levenshtein) branches of `terms_match` are
  parameters. `request_termvectors_batched` and the analyze requests of `analyze_query` are
  network calls; the analyzed components are an input.
- `TermVectors.TokenMatchesOrdered`: states the order by start. The order among matches with the
  same start (query-component order) is not stated.
- `TermVectors.HasFuzzySuffix`: `\d` is taken as the ASCII digits `0`-`9`. With a `str` pattern Python's `\d` matches every Unicode decimal digit, so a query such as `fox~` followed by an Arabic-Indic digit takes the fuzzy branch in the source and the equality branch here. `\s` is modelled with Python's full Unicode whitespace set.
- The library-backed language helpers are parameters:
  - `get_language_key`;
  - the stopword file reading and the nltk download;
  - `stopwords_available` and `stemming_available`;
  - `standardize_tag` for `LegacyAnalyzer`.
- `LanguageAnalysis.Stopwords`: the stopword list is a parameter (`LanguageData.stopwords`), read as if the lookup were given the language code. backend/addcorpus/language_analysis.py:40 passes the analyzer object itself to `get_language_key`, whereas the stemmer key at line 94 passes `self.code`, and `read_nltk_stopwords` is not defined in backend/addcorpus/language_utils.py. Whether that lookup succeeds is not modelled.
- `backend/addcorpus/es_settings.py` is not part of this model.
- `LanguageUtils.NumberCharFilter` and `LanguageUtils.StemmerFilter` are constant-shaped dicts with no contract of their own. The number filter's type, pattern and replacement are stated through `LanguageAnalysis.CharFilters`; `LanguageAnalysis.BaseTokenFilters` states where the stemmer filter is placed.
- The highlight pre and post tags are constants of another file and are parameters here.
  Rendering gives the value back only under the condition that no post tag starts inside a
  pre-tag occurrence.
- `Snippet.Transform`: the character budget is a `nat`. The source's default of 100 is a caller's
  choice, and negative budgets are not modelled.
- Strings are sequences of characters. There is no UTF-16 code-unit distinction and no Unicode
  whitespace beyond the characters JavaScript's `trimEnd` lists in `Strings`.
- `Ngram.StoreRoundTrip`: integers are unbounded. JavaScript numbers of 1e21 and more, which print
  in exponent form, and non-integer numbers are not modelled.
- Angular, RxJS and DOM plumbing are not modelled: the `BehaviorSubject` becomes a field, and
  icons, the template and `matchMedia` are dropped.

## Findings

| source | as written | input that shows it | evidently intended | confidence | as-written member | corrected member |
|---|---|---|---|---|---|---|
| backend/es/search.py:13 | a corpus defined in the database without `es_index` is looked up as `custom[<pk>]` | server prefix `test`, database corpus with primary key 7: `test-custom[7]` | `test-custom_7`, the name the job planner creates (backend/indexing/create_job.py:154) and backend/es/tests/test_index_name.py:14 expects | not executed | Search.GetIndexCustomCounterexample | Search.IndexNameTests |
| backend/indexing/create_job.py:99-104 | the rollover removes the base alias from every current holder, the new index included | rerunning the alias job when `times-2` already holds `times`: the job adds and then removes `times` on `times-2`, leaving the alias on no index | the rollover leaves the alias on exactly the new index, so rerunning it changes nothing | not executed | Executor.RerunRolloverUnaliasesTarget | Executor.CorrectedRolloverIdempotent |
| backend/indexing/create_job.py:105-113 | the extra-alias rollover removes the extra alias from every family holder, the new index included | rerunning the alias job when the new index `times-2` already holds the shared alias: the job adds and then removes it on `times-2` | the extra alias ends on the new index and on the holders outside the family, so rerunning it changes nothing | not executed | Executor.RerunRolloverUnaliasesTargetExtra | Executor.CorrectedRolloverIdempotent |
| backend/addcorpus/language_analysis.py:144-151 | a trailing comma makes the `french_elision` entry a one-element tuple around the elision dict | any French analysis settings: `french_elision` is a list, not a filter definition | the entry is the elision dict itself | not executed | LanguageAnalysis.FrenchElisionIsNotAFilter | LanguageAnalysis.TokenFiltersCorrected |
