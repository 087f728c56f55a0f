/**
 * The storage backend the plugin forwards to. Concrete adapters (database,
 * file, ...) are not modelled: this backend keeps the abstract store its
 * contract speaks of, and a ghost log of every call it receives.
 */
module PropertyBackend {
  import opened Wrappers
  import opened PropertyStore
  import opened Requests

  /** One call into the backend, with the arguments it received. */
  datatype Call =
    | FindCall(path: Path)
    | PatchCall(path: Path, pending: map<PropName, Option<Value>>)
    | DeleteCall(path: Path)
    | MoveCall(source: Path, destination: Path)

  /** The paths a call is about. */
  function CallPaths(c: Call): seq<Path> {
    match c
    case FindCall(p) => [p]
    case PatchCall(p, _) => [p]
    case DeleteCall(p) => [p]
    case MoveCall(s, d) => [s, d]
  }

  /** The effect of one call on the store (a query changes nothing). */
  function Apply(store: Store, c: Call): Store {
    match c
    case FindCall(_) => store
    case PatchCall(p, pending) => Patched(store, p, pending)
    case DeleteCall(p) => Deleted(store, p)
    case MoveCall(s, d) => Moved(store, s, d)
  }

  class Backend {
    var store: Store
    ghost var calls: seq<Call>

    constructor ()
      ensures store == map[] && calls == []
    {
      store := map[];
      calls := [];
    }

    /** Fills the still-unresolved requested properties of `propFind` from the store. */
    method PropFind(path: Path, propFind: PropFind)
      modifies this`calls, propFind
      ensures calls == old(calls) + [FindCall(path)]
      ensures propFind.found == Resolve(store, path, propFind.requested, old(propFind.found))
      ensures propFind.found.Keys == old(propFind.found).Keys + (old(propFind.Unresolved()) * Under(store, path).Keys)
    {
      calls := calls + [FindCall(path)];
      propFind.found := Resolve(store, path, propFind.requested, propFind.found);
    }

    /**
     * Applies the mutations of `propPatch` that have no outcome yet and
     * marks each of them succeeded; outcomes set earlier are kept.
     */
    method PropPatch(path: Path, propPatch: PropPatch)
      modifies this, propPatch
      ensures calls == old(calls) + [PatchCall(path, old(propPatch.Pending()))]
      ensures store == Patched(old(store), path, old(propPatch.Pending()))
      ensures propPatch.outcome.Keys == old(propPatch.outcome).Keys + propPatch.mutations.Keys
      ensures forall n :: n in old(propPatch.outcome) ==> propPatch.outcome[n] == old(propPatch.outcome[n])
      ensures forall n :: n in old(propPatch.Pending()) ==> propPatch.outcome[n] == Succeeded
    {
      var pending := propPatch.Pending();
      calls := calls + [PatchCall(path, pending)];
      store := Patched(store, path, pending);
      propPatch.SetResults(pending.Keys, Succeeded);
    }

    /** Purges every property stored under `path`. */
    method Delete(path: Path)
      modifies this
      ensures calls == old(calls) + [DeleteCall(path)]
      ensures store == Deleted(old(store), path)
    {
      calls := calls + [DeleteCall(path)];
      store := Deleted(store, path);
    }

    /** Relocates every property of `source` to `destination`. */
    method Move(source: Path, destination: Path)
      modifies this
      ensures calls == old(calls) + [MoveCall(source, destination)]
      ensures store == Moved(old(store), source, destination)
    {
      calls := calls + [MoveCall(source, destination)];
      store := Moved(store, source, destination);
    }
  }
}
