/**
 * A snapshot of the search cluster as the planner sees it through the client:
 * the open indices in the order the engine lists them, and for every alias the
 * indices that hold it, in the order `get_alias` returns them.
 */
module Cluster {
  import opened Wrappers

  datatype Snapshot = Snapshot(indices: seq<string>, aliases: map<string, seq<string>>)

  /** The indices that hold `alias`; none when the alias does not exist. */
  function Holders(c: Snapshot, alias: string): seq<string> {
    if alias in c.aliases then c.aliases[alias] else []
  }

  /**
   * What the engine guarantees of its own state: an alias and an index never share
   * a name, and every alias is held by at least one index, all of them open.
   */
  predicate WellFormed(c: Snapshot) {
    forall a :: a in c.aliases ==>
      a !in c.indices && c.aliases[a] != [] && forall n :: n in c.aliases[a] ==> n in c.indices
  }

  /**
   * The keys of `client.indices.get(index=name)`: the members of an alias, or the
   * index itself. None where the client raises: the name is empty (the client
   * refuses empty path parameters) or names neither an alias nor an index. On a
   * well-formed snapshot the keys are existing indices, at least one, and include
   * the name exactly when it names an index.
   */
  function Resolve(c: Snapshot, name: string): (r: Option<seq<string>>)
    ensures r.Some? <==> name != "" && (name in c.aliases || name in c.indices)
    ensures WellFormed(c) && r.Some? ==>
              && r.value != []
              && (forall n :: n in r.value ==> n in c.indices)
              && (name in r.value <==> name in c.indices)
  {
    if name == "" then None
    else if name in c.aliases then Some(c.aliases[name])
    else if name in c.indices then Some([name])
    else None
  }
}
