/** The task records of an indexing job, and the job that collects them. */
module IndexingTasks {
  import opened Wrappers
  import opened Corpora

  /** A calendar date; the planner only passes dates through to the tasks. */
  datatype Date = Date(year: int, month: int, day: int)

  /** The seven task kinds, each with the data its record stores. */
  datatype Task =
    | CreateIndex(index: string, productionSettings: bool, deleteExisting: bool)
    | PopulateIndex(index: string, documentMinDate: Option<Date>, documentMaxDate: Option<Date>)
    | UpdateIndex(index: string, documentMinDate: Option<Date>, documentMaxDate: Option<Date>)
    | UpdateSettings(index: string, numberOfReplicas: nat)
    | AddAlias(index: string, alias: string)
    | RemoveAlias(index: string, alias: string)
    | DeleteIndex(index: string)

  /** An `IndexJob` for one corpus and its persisted tasks, in creation order. */
  class Job {
    const corpus: Corpus
    var tasks: seq<Task>

    constructor (corpus: Corpus)
      ensures this.corpus == corpus && tasks == []
    {
      this.corpus := corpus;
      tasks := [];
    }

    /** `<Kind>Task.objects.create(job=job, ...)`: one more task at the end of the job. */
    method Create(t: Task)
      modifies this
      ensures tasks == old(tasks) + [t]
    {
      tasks := tasks + [t];
    }
  }
}
