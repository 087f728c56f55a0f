/**
 * The auxiliary property store that a storage backend keeps: for each
 * path, one value per property name (so a property is identified by the
 * pair of its path and its name), and the four effects the backend
 * contract promises on it: query, update, delete and move. The effects are
 * plain functions; what each one does to the properties of each path is
 * stated by the lemma next to it.
 */
module PropertyStore {
  import opened Wrappers

  /** A node of the tree is identified by its path alone. */
  type Path = string
  /** A namespaced property name, e.g. "{DAV:}displayname". */
  type PropName = string
  /** Property values are opaque to the plugin. */
  type Value = string

  /** The stored properties, by path and then by name. */
  type Store = map<Path, map<PropName, Value>>

  /** The properties stored for one path, by name. */
  function Under(store: Store, p: Path): map<PropName, Value> {
    if p in store then store[p] else map[]
  }

  /** The store with the properties of `p` replaced by `props`. */
  function Replaced(store: Store, p: Path, props: map<PropName, Value>): Store {
    if props == map[] then store - {p} else store[p := props]
  }

  /** After a replacement, `p` holds exactly `props` and every other path is untouched. */
  lemma ReplacedUnder(store: Store, p: Path, props: map<PropName, Value>)
    ensures Under(Replaced(store, p, props), p) == props
    ensures forall q :: q != p ==> Under(Replaced(store, p, props), q) == Under(store, q)
  {
  }

  // ---------------------------------------------------------------------
  // Query
  // ---------------------------------------------------------------------

  /**
   * Query: the requested names that are still unresolved are filled from
   * the properties stored for `p`.
   */
  function Resolve(store: Store, p: Path, requested: set<PropName>, found: map<PropName, Value>)
    : map<PropName, Value>
  {
    var props := Under(store, p);
    found + map n | n in requested && n !in found && n in props :: props[n]
  }

  /**
   * A query never overwrites a name that is already resolved, resolves
   * every requested name the store holds for the path, and adds nothing
   * else: names the store does not hold stay unresolved.
   */
  lemma ResolveFillsOnlyUnresolved(store: Store, p: Path, requested: set<PropName>,
                                   found: map<PropName, Value>)
    ensures var r, props := Resolve(store, p, requested, found), Under(store, p);
      && (forall n :: n in found ==> n in r && r[n] == found[n])
      && (forall n :: n in requested && n in props ==> n in r)
      && (forall n :: n in r && n !in found ==> n in requested && n in props && r[n] == props[n])
  {
  }

  /** A query sees only the properties stored under its own path. */
  lemma ResolveDependsOnPathOnly(s: Store, p: Path, t: Store, q: Path,
                                 requested: set<PropName>, found: map<PropName, Value>)
    requires Under(s, p) == Under(t, q)
    ensures Resolve(s, p, requested, found) == Resolve(t, q, requested, found)
  {
  }

  /** A query for a path with nothing stored resolves nothing new. */
  lemma ResolveNothingStored(s: Store, p: Path, requested: set<PropName>, found: map<PropName, Value>)
    requires Under(s, p) == map[]
    ensures Resolve(s, p, requested, found) == found
  {
    var r := Resolve(s, p, requested, found);
    assert r.Keys == found.Keys;
  }

  // ---------------------------------------------------------------------
  // Update
  // ---------------------------------------------------------------------

  /**
   * Mutations applied to one path's properties: `Some(v)` stores `v`,
   * `None` removes the property.
   */
  function Applied(props: map<PropName, Value>, pending: map<PropName, Option<Value>>)
    : map<PropName, Value>
  {
    (props - pending.Keys) + map n | n in pending && pending[n].Some? :: pending[n].value
  }

  /** Update: the pending mutations of path `p` are applied to its properties. */
  function Patched(store: Store, p: Path, pending: map<PropName, Option<Value>>): Store {
    Replaced(store, p, Applied(Under(store, p), pending))
  }

  /**
   * After an update, a set property holds its new value, a removed one is
   * gone, a property without a mutation keeps its value, and every other
   * path is untouched.
   */
  lemma PatchedUnder(store: Store, p: Path, pending: map<PropName, Option<Value>>)
    ensures var after, before := Under(Patched(store, p, pending), p), Under(store, p);
      && (forall n :: n in pending ==> (n in after <==> pending[n].Some?))
      && (forall n :: n in pending && pending[n].Some? ==> after[n] == pending[n].value)
      && (forall n :: n !in pending ==> (n in after <==> n in before))
      && (forall n :: n in after && n !in pending ==> after[n] == before[n])
    ensures forall q :: q != p ==> Under(Patched(store, p, pending), q) == Under(store, q)
  {
    ReplacedUnder(store, p, Applied(Under(store, p), pending));
  }

  // ---------------------------------------------------------------------
  // Delete and move
  // ---------------------------------------------------------------------

  /** Delete: every property stored under `p` is purged. */
  function Deleted(store: Store, p: Path): Store {
    Replaced(store, p, map[])
  }

  /** After a delete, `p` holds nothing and every other path is untouched. */
  lemma DeletedUnder(store: Store, p: Path)
    ensures Under(Deleted(store, p), p) == map[]
    ensures forall q :: q != p ==> Under(Deleted(store, p), q) == Under(store, q)
  {
    ReplacedUnder(store, p, map[]);
  }

  /** Move: the properties of `source` become those of `destination`. */
  function Moved(store: Store, source: Path, destination: Path): Store {
    Replaced(Deleted(store, source), destination, Under(store, source))
  }

  /**
   * After a move, the destination holds exactly what the source held (and
   * loses what it held before), the source holds nothing, and every other
   * path is untouched.
   */
  lemma MovedUnder(store: Store, source: Path, destination: Path)
    ensures Under(Moved(store, source, destination), destination) == Under(store, source)
    ensures source != destination ==> Under(Moved(store, source, destination), source) == map[]
    ensures forall q :: q != source && q != destination ==>
              Under(Moved(store, source, destination), q) == Under(store, q)
  {
    DeletedUnder(store, source);
    ReplacedUnder(Deleted(store, source), destination, Under(store, source));
  }
}
