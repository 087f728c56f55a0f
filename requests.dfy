/**
 * The in-flight request contexts the protocol layer shares with the plugin
 * by reference: a PROPFIND's result set and a PROPPATCH's mutation set.
 * Only the slots the plugin's backend may touch are modelled.
 */
module Requests {
  import opened Wrappers
  import opened PropertyStore

  /** A PROPFIND in progress: the requested names and those resolved so far. */
  class PropFind {
    const path: Path
    const requested: set<PropName>
    var found: map<PropName, Value>

    constructor (path: Path, requested: set<PropName>)
      ensures this.path == path && this.requested == requested && found == map[]
    {
      this.path := path;
      this.requested := requested;
      found := map[];
    }

    /** Requested names no earlier handler has resolved. */
    function Unresolved(): set<PropName>
      reads this
    {
      requested - found.Keys
    }
  }

  /** Per-property result of a PROPPATCH mutation. */
  datatype Outcome = Succeeded | Failed

  /** A PROPPATCH in progress: the mutations (`Some(v)` sets, `None` removes) and their outcomes so far. */
  class PropPatch {
    const mutations: map<PropName, Option<Value>>
    var outcome: map<PropName, Outcome>

    constructor (mutations: map<PropName, Option<Value>>)
      ensures this.mutations == mutations && outcome == map[]
    {
      this.mutations := mutations;
      outcome := map[];
    }

    /** The mutations no earlier handler has given an outcome. */
    function Pending(): map<PropName, Option<Value>>
      reads this
    {
      map n | n in mutations && n !in outcome :: mutations[n]
    }

    /** Records `result` as the outcome of every mutation in `names`. */
    method SetResults(names: set<PropName>, result: Outcome)
      modifies this
      ensures outcome.Keys == old(outcome).Keys + names
      ensures forall n :: n in outcome ==> outcome[n] == if n in names then result else old(outcome[n])
    {
      outcome := outcome + map n | n in names :: result;
    }
  }
}
