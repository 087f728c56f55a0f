/**
 * The property-storage plugin: it subscribes to four server events and,
 * for each, asks the optional path filter whether the path(s) take part
 * before forwarding the event to the storage backend.
 */
module PropertyStoragePlugin {
  import opened Wrappers
  import opened PropertyStore
  import opened Requests
  import opened PropertyBackend

  /** The optional path filter: absent means every path takes part. */
  type Filter = Option<Path -> bool>

  /** Whether `p` takes part in property storage under `filter`. */
  predicate Accepts(filter: Filter, p: Path) {
    filter.None? || filter.value(p)
  }

  /** A server event the plugin handles, with what it carries. */
  datatype Event =
    | FindEvent(path: Path)
    | PatchEvent(path: Path, pending: map<PropName, Option<Value>>)
    | UnbindEvent(path: Path)
    | MoveEvent(source: Path, destination: Path)

  /** The paths the filter must accept before an event is forwarded. */
  function EventPaths(e: Event): seq<Path> {
    match e
    case FindEvent(p) => [p]
    case PatchEvent(p, _) => [p]
    case UnbindEvent(p) => [p]
    case MoveEvent(s, d) => [s, d]
  }

  /** The backend call that forwarding an event makes. */
  function Forward(e: Event): (c: Call)
    ensures CallPaths(c) == EventPaths(e)
  {
    match e
    case FindEvent(p) => FindCall(p)
    case PatchEvent(p, pending) => PatchCall(p, pending)
    case UnbindEvent(p) => DeleteCall(p)
    case MoveEvent(s, d) => MoveCall(s, d)
  }

  /**
   * The plugin's decision rule: the backend call a handler makes for an
   * event, if any. An event is forwarded exactly when the filter accepts
   * every path it carries, and then unchanged.
   */
  function Route(filter: Filter, e: Event): (r: Option<Call>)
    ensures r.Some? <==> forall p :: p in EventPaths(e) ==> Accepts(filter, p)
    ensures r.Some? ==> r.value == Forward(e)
  {
    match e
    case FindEvent(p) => if Accepts(filter, p) then Some(FindCall(p)) else None
    case PatchEvent(p, pending) => if Accepts(filter, p) then Some(PatchCall(p, pending)) else None
    case UnbindEvent(p) => if Accepts(filter, p) then Some(DeleteCall(p)) else None
    case MoveEvent(s, d) =>
      if !Accepts(filter, s) then None
      // a rejected destination is cleaned up by the later unbind of the source
      else if !Accepts(filter, d) then None
      else Some(MoveCall(s, d))
  }

  /**
   * The paths a handler asks the filter about, in order. Without a filter
   * nothing is asked; a move asks about its destination only once its
   * source has been accepted.
   */
  function Consulted(filter: Filter, e: Event): seq<Path> {
    if filter.None? then []
    else match e
      case MoveEvent(s, d) => if filter.value(s) then [s, d] else [s]
      case _ => EventPaths(e)
  }

  /** The backend calls that a sequence of events produces, in order. */
  function Dispatch(filter: Filter, events: seq<Event>): seq<Call> {
    if events == [] then []
    else
      var first := match Route(filter, events[0]) case Some(c) => [c] case None => [];
      first + Dispatch(filter, events[1..])
  }

  /** The store after one event has been handled. */
  function Step(store: Store, filter: Filter, e: Event): Store {
    match Route(filter, e)
    case Some(c) => Apply(store, c)
    case None => store
  }

  /** The store after a sequence of events has been handled, in order. */
  function Run(store: Store, filter: Filter, events: seq<Event>): Store
    decreases |events|
  {
    if events == [] then store
    else Run(Step(store, filter, events[0]), filter, events[1..])
  }

  /** Which plugin method a subscription calls. */
  datatype Handler = HandlePropFind | HandlePropPatch | HandleAfterMove | HandleAfterUnbind

  /** An event subscription: event name, handler and priority (lower runs earlier). */
  datatype Subscription = Subscription(event: string, handler: Handler, priority: int)

  /** The priority the server's event emitter gives a listener registered without one. */
  const DefaultPriority: int := 100

  /** The subscriptions `initialize` registers, in order. */
  function Subscriptions(): seq<Subscription> {
    [ Subscription("propFind", HandlePropFind, 130),
      Subscription("propPatch", HandlePropPatch, 300),
      Subscription("afterMove", HandleAfterMove, DefaultPriority),
      Subscription("afterUnbind", HandleAfterUnbind, DefaultPriority) ]
  }

  /** The part of the server the plugin uses: its listener registry. */
  class Server {
    var listeners: seq<Subscription>

    constructor ()
      ensures listeners == []
    {
      listeners := [];
    }

    method On(event: string, handler: Handler, priority: int)
      modifies this
      ensures listeners == old(listeners) + [Subscription(event, handler, priority)]
    {
      listeners := listeners + [Subscription(event, handler, priority)];
    }
  }

  class Plugin {
    /** Paths the filter rejects never reach the backend. */
    var pathFilter: Filter
    const backend: Backend
    /** Every path the filter has been asked about, in order. */
    ghost var consulted: seq<Path>

    constructor (backend: Backend)
      ensures this.backend == backend && pathFilter == None && consulted == []
    {
      this.backend := backend;
      pathFilter := None;
      consulted := [];
    }

    /** Registers the four handlers with the server. */
    method Initialize(server: Server)
      modifies server
      ensures server.listeners == old(server.listeners) + Subscriptions()
    {
      server.On("propFind", HandlePropFind, 130);
      server.On("propPatch", HandlePropPatch, 300);
      server.On("afterMove", HandleAfterMove, DefaultPriority);
      server.On("afterUnbind", HandleAfterUnbind, DefaultPriority);
    }

    /** Asks the filter about `p`, recording the question; true when there is no filter. */
    method Allows(p: Path) returns (ok: bool)
      modifies this`consulted
      ensures ok == Accepts(pathFilter, p)
      ensures consulted == old(consulted) + (if pathFilter.None? then [] else [p])
    {
      if pathFilter.None? {
        return true;
      }
      consulted := consulted + [p];
      ok := pathFilter.value(p);
    }

    /** PROPFIND: unresolved requested properties are looked up in the backend. */
    method PropFind(propFind: PropFind)
      modifies this`consulted, backend`calls, propFind
      ensures consulted == old(consulted) + Consulted(pathFilter, FindEvent(propFind.path))
      ensures match Route(pathFilter, FindEvent(propFind.path))
        case None => unchanged(backend) && unchanged(propFind)
        case Some(c) =>
          && backend.calls == old(backend.calls) + [c]
          && propFind.found == Resolve(backend.store, propFind.path, propFind.requested, old(propFind.found))
    {
      var path := propFind.path;
      var ok := Allows(path);
      if !ok {
        return;
      }
      backend.PropFind(propFind.path, propFind);
    }

    /** PROPPATCH: mutations nobody handled yet are stored by the backend. */
    method PropPatch(path: Path, propPatch: PropPatch)
      modifies this`consulted, backend, propPatch
      ensures consulted == old(consulted) + Consulted(pathFilter, PatchEvent(path, old(propPatch.Pending())))
      ensures match Route(pathFilter, PatchEvent(path, old(propPatch.Pending())))
        case None => unchanged(backend) && unchanged(propPatch)
        case Some(c) =>
          && backend.calls == old(backend.calls) + [c]
          && backend.store == Apply(old(backend.store), c)
          && propPatch.outcome.Keys == old(propPatch.outcome).Keys + propPatch.mutations.Keys
          && (forall n :: n in old(propPatch.outcome) ==> propPatch.outcome[n] == old(propPatch.outcome[n]))
          && (forall n :: n in old(propPatch.Pending()) ==> propPatch.outcome[n] == Succeeded)
    {
      var ok := Allows(path);
      if !ok {
        return;
      }
      backend.PropPatch(path, propPatch);
    }

    /** After a node is deleted, its stored properties are purged. */
    method AfterUnbind(path: Path)
      modifies this`consulted, backend
      ensures consulted == old(consulted) + Consulted(pathFilter, UnbindEvent(path))
      ensures match Route(pathFilter, UnbindEvent(path))
        case None => unchanged(backend)
        case Some(c) => backend.calls == old(backend.calls) + [c] && backend.store == Apply(old(backend.store), c)
    {
      var ok := Allows(path);
      if !ok {
        return;
      }
      backend.Delete(path);
    }

    /** After a node is moved, its stored properties follow it. */
    method AfterMove(source: Path, destination: Path)
      modifies this`consulted, backend
      ensures consulted == old(consulted) + Consulted(pathFilter, MoveEvent(source, destination))
      ensures match Route(pathFilter, MoveEvent(source, destination))
        case None => unchanged(backend)
        case Some(c) => backend.calls == old(backend.calls) + [c] && backend.store == Apply(old(backend.store), c)
    {
      var ok := Allows(source);
      if !ok {
        return;
      }
      // If the destination is rejected, the unbind of the source cleans up.
      ok := Allows(destination);
      if !ok {
        return;
      }
      backend.Move(source, destination);
    }
  }
}
