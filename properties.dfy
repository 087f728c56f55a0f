/**
 * What the plugin's gating and the backend contract guarantee together:
 * rejected paths never reach the backend, accepted events are forwarded
 * exactly once and unchanged, and move and delete keep stored properties
 * from being duplicated or orphaned.
 */
module PluginProperties {
  import opened Wrappers
  import opened PropertyStore
  import opened PropertyBackend
  import opened PropertyStoragePlugin

  // ---------------------------------------------------------------------
  // Gating
  // ---------------------------------------------------------------------

  /** No backend call ever names a path the filter rejects, whatever the events. */
  lemma {:induction false} DispatchOnlyAccepted(filter: Filter, events: seq<Event>)
    ensures forall c, p :: c in Dispatch(filter, events) && p in CallPaths(c) ==> Accepts(filter, p)
  {
    if events != [] {
      DispatchOnlyAccepted(filter, events[1..]);
    }
  }

  /** Without a filter every event is forwarded, exactly once, in order and unchanged. */
  lemma {:induction false} DispatchUnfiltered(events: seq<Event>)
    ensures |Dispatch(None, events)| == |events|
    ensures forall i :: 0 <= i < |events| ==> Dispatch(None, events)[i] == Forward(events[i])
  {
    if events != [] {
      DispatchUnfiltered(events[1..]);
    }
  }

  /** Handling one more event appends its call (if any) to the calls made so far. */
  lemma {:induction false} DispatchSnoc(filter: Filter, events: seq<Event>, e: Event)
    ensures Dispatch(filter, events + [e])
         == Dispatch(filter, events) + (match Route(filter, e) case Some(c) => [c] case None => [])
  {
    if events == [] {
      assert events + [e] == [e];
    } else {
      assert (events + [e])[1..] == events[1..] + [e];
      DispatchSnoc(filter, events[1..], e);
    }
  }

  /**
   * A move whose source is rejected asks the filter nothing about the
   * destination and makes no backend call.
   */
  lemma MoveShortCircuit(filter: Filter, source: Path, destination: Path)
    requires filter.Some? && !filter.value(source)
    ensures Consulted(filter, MoveEvent(source, destination)) == [source]
    ensures Route(filter, MoveEvent(source, destination)) == None
  {
  }

  /** With a filter, every path of a forwarded call was put to the filter first. */
  lemma ForwardedWasConsulted(filter: Filter, e: Event)
    requires filter.Some? && Route(filter, e).Some?
    ensures Consulted(filter, e) == CallPaths(Route(filter, e).value)
  {
  }

  // ---------------------------------------------------------------------
  // Effects on the store
  // ---------------------------------------------------------------------

  /** Every stored property belongs to a path the filter accepts. */
  ghost predicate OnlyAccepted(filter: Filter, store: Store) {
    forall q :: !Accepts(filter, q) ==> Under(store, q) == map[]
  }

  /** The effect of an event on the properties of each path. */
  lemma StepUnder(store: Store, filter: Filter, e: Event)
    ensures Route(filter, e).None? ==> Step(store, filter, e) == store
    ensures forall q :: q !in EventPaths(e) ==> Under(Step(store, filter, e), q) == Under(store, q)
    ensures e.MoveEvent? && Route(filter, e).Some? ==>
              Under(Step(store, filter, e), e.destination) == Under(store, e.source)
  {
    match Route(filter, e)
    case None =>
    case Some(c) =>
      match c
      case FindCall(_) =>
      case PatchCall(p, pending) => PatchedUnder(store, p, pending);
      case DeleteCall(p) => DeletedUnder(store, p);
      case MoveCall(s, d) => MovedUnder(store, s, d);
  }

  /** Handling one event never stores a property under a rejected path. */
  lemma StepOnlyAccepted(store: Store, filter: Filter, e: Event)
    requires OnlyAccepted(filter, store)
    ensures OnlyAccepted(filter, Step(store, filter, e))
  {
    StepUnder(store, filter, e);
    var r := Step(store, filter, e);
    forall q | !Accepts(filter, q) ensures Under(r, q) == map[] {
      if Route(filter, e).Some? {
        assert q !in EventPaths(e);
        if e.MoveEvent? && q == e.source {
          MovedUnder(store, e.source, e.destination);
        }
      }
    }
  }

  /** Handling any sequence of events never stores a property under a rejected path. */
  lemma {:induction false} RunOnlyAccepted(store: Store, filter: Filter, events: seq<Event>)
    requires OnlyAccepted(filter, store)
    ensures OnlyAccepted(filter, Run(store, filter, events))
    decreases |events|
  {
    if events != [] {
      StepOnlyAccepted(store, filter, events[0]);
      RunOnlyAccepted(Step(store, filter, events[0]), filter, events[1..]);
    }
  }

  /** Handling one more event applies its step to the store reached so far. */
  lemma {:induction false} RunSnoc(store: Store, filter: Filter, events: seq<Event>, e: Event)
    ensures Run(store, filter, events + [e]) == Step(Run(store, filter, events), filter, e)
    decreases |events|
  {
    if events == [] {
      assert events + [e] == [e];
      assert [e][1..] == [];
    } else {
      assert (events + [e])[1..] == events[1..] + [e];
      RunSnoc(Step(store, filter, events[0]), filter, events[1..], e);
    }
  }

  /** Two events are handled one after the other. */
  lemma RunTwo(store: Store, filter: Filter, e1: Event, e2: Event)
    ensures Run(store, filter, [e1, e2]) == Step(Step(store, filter, e1), filter, e2)
  {
    var events, s1 := [e1, e2], Step(store, filter, e1);
    assert events[1..] == [e2];
    assert Run(store, filter, events) == Run(s1, filter, [e2]);
    assert [e2][1..] == [];
    assert Run(s1, filter, [e2]) == Run(Step(s1, filter, e2), filter, []);
  }

  /**
   * A move followed by the unbind of its source (the order the server
   * emits them in) neither duplicates nor orphans properties: the source
   * keeps nothing, the destination holds the source's former properties
   * when it is accepted and nothing when it is rejected, and every other
   * path is untouched.
   */
  lemma MoveThenUnbindSource(store: Store, filter: Filter, source: Path, destination: Path)
    requires OnlyAccepted(filter, store)
    requires Accepts(filter, source) && source != destination
    ensures var r := Run(store, filter, [MoveEvent(source, destination), UnbindEvent(source)]);
      && Under(r, source) == map[]
      && Under(r, destination) == (if Accepts(filter, destination) then Under(store, source) else map[])
      && forall q :: q != source && q != destination ==> Under(r, q) == Under(store, q)
  {
    RunTwo(store, filter, MoveEvent(source, destination), UnbindEvent(source));
    var mid := Step(store, filter, MoveEvent(source, destination));
    assert Step(mid, filter, UnbindEvent(source)) == Deleted(mid, source);
    DeletedUnder(mid, source);
    if Accepts(filter, destination) {
      MovedUnder(store, source, destination);
    } else {
      assert mid == store;
    }
  }

  /** A move whose source is rejected, followed by its unbind, changes nothing. */
  lemma RejectedSourceMoveThenUnbind(store: Store, filter: Filter, source: Path, destination: Path)
    requires !Accepts(filter, source)
    ensures Run(store, filter, [MoveEvent(source, destination), UnbindEvent(source)]) == store
  {
    RunTwo(store, filter, MoveEvent(source, destination), UnbindEvent(source));
  }

  // ---------------------------------------------------------------------
  // Round trips through the backend contract
  // ---------------------------------------------------------------------

  /** A property set by an update is what a later query for it resolves to. */
  lemma PatchThenFind(store: Store, p: Path, n: PropName, v: Value)
    ensures Resolve(Patched(store, p, map[n := Some(v)]), p, {n}, map[]) == map[n := v]
  {
    var s := Patched(store, p, map[n := Some(v)]);
    PatchedUnder(store, p, map[n := Some(v)]);
    ResolveFillsOnlyUnresolved(s, p, {n}, map[]);
    var r := Resolve(s, p, {n}, map[]);
    assert r.Keys == {n};
  }

  /** A property removed by an update stays unresolved in a later query. */
  lemma RemoveThenFind(store: Store, p: Path, n: PropName)
    ensures Resolve(Patched(store, p, map[n := None]), p, {n}, map[]) == map[]
  {
    var s := Patched(store, p, map[n := None]);
    PatchedUnder(store, p, map[n := None]);
    assert n !in Under(s, p);
    ResolveFillsOnlyUnresolved(s, p, {n}, map[]);
    var r := Resolve(s, p, {n}, map[]);
    assert r.Keys == {};
  }

  /** After a delete, a query for the path resolves nothing beyond what it already had. */
  lemma DeleteThenFind(store: Store, p: Path, requested: set<PropName>, found: map<PropName, Value>)
    ensures Resolve(Deleted(store, p), p, requested, found) == found
  {
    DeletedUnder(store, p);
    ResolveNothingStored(Deleted(store, p), p, requested, found);
  }

  /** After a move, a query for the destination resolves what a query for the source did before. */
  lemma MoveThenFind(store: Store, source: Path, destination: Path,
                     requested: set<PropName>, found: map<PropName, Value>)
    ensures Resolve(Moved(store, source, destination), destination, requested, found)
         == Resolve(store, source, requested, found)
  {
    MovedUnder(store, source, destination);
    ResolveDependsOnPathOnly(Moved(store, source, destination), destination, store, source, requested, found);
  }

  /** After a move, a query for the vacated source resolves nothing beyond what it already had. */
  lemma MoveThenFindSource(store: Store, source: Path, destination: Path,
                           requested: set<PropName>, found: map<PropName, Value>)
    requires source != destination
    ensures Resolve(Moved(store, source, destination), source, requested, found) == found
  {
    MovedUnder(store, source, destination);
    ResolveNothingStored(Moved(store, source, destination), source, requested, found);
  }

  // ---------------------------------------------------------------------
  // Subscriptions
  // ---------------------------------------------------------------------

  /**
   * Each of the four events is subscribed exactly once, to its own handler:
   * PROPFIND at priority 130, PROPPATCH at 300, move and unbind at the
   * emitter's default.
   */
  lemma SubscriptionsOncePerEvent()
    ensures forall i, j :: 0 <= i < j < |Subscriptions()| ==>
              Subscriptions()[i].event != Subscriptions()[j].event
              && Subscriptions()[i].handler != Subscriptions()[j].handler
    ensures Subscription("propFind", HandlePropFind, 130) in Subscriptions()
    ensures Subscription("propPatch", HandlePropPatch, 300) in Subscriptions()
    ensures Subscription("afterMove", HandleAfterMove, DefaultPriority) in Subscriptions()
    ensures Subscription("afterUnbind", HandleAfterUnbind, DefaultPriority) in Subscriptions()
  {
  }
}
