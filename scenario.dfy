/**
 * End-to-end runs of the plugin: what a client of the server can conclude
 * from the handler contracts and the backend contract alone.
 */
module Scenario {
  import opened Wrappers
  import opened PropertyStore
  import opened Requests
  import opened PropertyBackend
  import opened PropertyStoragePlugin
  import opened PluginProperties

  /** The server delivering one event to the handler subscribed to it. */
  method Handle(plugin: Plugin, e: Event)
    modifies plugin`consulted, plugin.backend
    ensures plugin.backend.calls
         == old(plugin.backend.calls) + (match Route(plugin.pathFilter, e) case Some(c) => [c] case None => [])
    ensures plugin.backend.store == Step(old(plugin.backend.store), plugin.pathFilter, e)
  {
    match e {
      case FindEvent(p) =>
        var find := new PropFind(p, {});
        plugin.PropFind(find);
      case PatchEvent(p, pending) =>
        var patch := new PropPatch(pending);
        assert patch.Pending() == pending;
        plugin.PropPatch(p, patch);
      case UnbindEvent(p) =>
        plugin.AfterUnbind(p);
      case MoveEvent(s, d) =>
        plugin.AfterMove(s, d);
    }
  }

  /**
   * The server delivering a sequence of events to the plugin's handlers,
   * one after the other. The backend receives exactly the calls `Dispatch`
   * predicts and its store ends as `Run` predicts, so the sequence-level
   * properties apply to the plugin object itself.
   */
  method HandleAll(plugin: Plugin, events: seq<Event>)
    modifies plugin`consulted, plugin.backend
    ensures plugin.backend.calls == old(plugin.backend.calls) + Dispatch(plugin.pathFilter, events)
    ensures plugin.backend.store == Run(old(plugin.backend.store), plugin.pathFilter, events)
  {
    ghost var calls0, store0 := plugin.backend.calls, plugin.backend.store;
    var i := 0;
    while i < |events|
      invariant 0 <= i <= |events|
      invariant plugin.backend.calls == calls0 + Dispatch(plugin.pathFilter, events[..i])
      invariant plugin.backend.store == Run(store0, plugin.pathFilter, events[..i])
    {
      Handle(plugin, events[i]);
      PrefixSnoc(store0, plugin.pathFilter, events, i);
      i := i + 1;
    }
    assert events[..i] == events;
  }

  /** Extending a handled prefix of `events` by one event, for `HandleAll`. */
  lemma PrefixSnoc(store: Store, filter: Filter, events: seq<Event>, i: nat)
    requires i < |events|
    ensures Dispatch(filter, events[..i + 1])
         == Dispatch(filter, events[..i]) + (match Route(filter, events[i]) case Some(c) => [c] case None => [])
    ensures Run(store, filter, events[..i + 1]) == Step(Run(store, filter, events[..i]), filter, events[i])
  {
    assert events[..i + 1] == events[..i] + [events[i]];
    DispatchSnoc(filter, events[..i], events[i]);
    RunSnoc(store, filter, events[..i], events[i]);
  }

  /**
   * Whatever events the server delivers, the backend is never called with
   * a rejected path, and no property appears under a rejected path.
   */
  method HandleAllOnlyAccepted(plugin: Plugin, events: seq<Event>)
    requires OnlyAccepted(plugin.pathFilter, plugin.backend.store)
    modifies plugin`consulted, plugin.backend
    ensures |old(plugin.backend.calls)| <= |plugin.backend.calls|
    ensures forall c, p :: c in plugin.backend.calls[|old(plugin.backend.calls)|..] && p in CallPaths(c) ==>
              Accepts(plugin.pathFilter, p)
    ensures OnlyAccepted(plugin.pathFilter, plugin.backend.store)
  {
    HandleAll(plugin, events);
    DispatchOnlyAccepted(plugin.pathFilter, events);
    RunOnlyAccepted(old(plugin.backend.store), plugin.pathFilter, events);
    assert plugin.backend.calls[|old(plugin.backend.calls)|..] == Dispatch(plugin.pathFilter, events);
  }

  /**
   * Without a filter: setting "author" on a document succeeds, and a
   * PROPFIND for "author" and the unknown "owner" then resolves "author"
   * only.
   */
  method UpdateThenQuery() returns (outcome: map<PropName, Outcome>, found: map<PropName, Value>)
    ensures outcome == map["author" := Succeeded]
    ensures found == map["author" := "alice"]
  {
    var backend := new Backend();
    var plugin := new Plugin(backend);
    var doc := "/docs/report.txt";
    var mutations := map["author" := Some("alice")];

    var patch := new PropPatch(mutations);
    assert patch.Pending() == mutations;
    plugin.PropPatch(doc, patch);
    outcome := patch.outcome;
    assert outcome == map["author" := Succeeded];
    assert Under(backend.store, doc) == map["author" := "alice"];

    var find := new PropFind(doc, {"author", "owner"});
    plugin.PropFind(find);
    found := find.found;
    ResolveFillsOnlyUnresolved(backend.store, doc, {"author", "owner"}, map[]);
    assert found.Keys == {"author"};
  }

  /**
   * Without a filter: a document with "author" set is moved (the server
   * then unbinds the source). The backend is left holding "author" under
   * the destination and nothing under the source.
   */
  method MoveDocument() returns (backend: Backend, plugin: Plugin, ghost annotated: Store)
    ensures fresh(backend) && fresh(plugin)
    ensures plugin.backend == backend && plugin.pathFilter == None
    ensures Under(annotated, "/docs/report.txt") == map["author" := "alice"]
    ensures Under(backend.store, "/archive/report.txt") == Under(annotated, "/docs/report.txt")
    ensures Under(backend.store, "/docs/report.txt") == map[]
  {
    backend := new Backend();
    plugin := new Plugin(backend);
    var doc, archived := "/docs/report.txt", "/archive/report.txt";
    var mutations := map["author" := Some("alice")];

    var patch := new PropPatch(mutations);
    assert patch.Pending() == mutations;
    plugin.PropPatch(doc, patch);
    annotated := backend.store;
    assert annotated == Patched(map[], doc, mutations);
    PatchedUnder(map[], doc, mutations);
    assert Under(annotated, doc).Keys == {"author"};

    plugin.AfterMove(doc, archived);
    plugin.AfterUnbind(doc);
    assert backend.store == Deleted(Moved(annotated, doc, archived), doc);
    MovedUnder(annotated, doc, archived);
    DeletedUnder(Moved(annotated, doc, archived), doc);
  }

  /** After the move, a PROPFIND on either path resolves what the backend holds there. */
  method MoveThenQuery() returns (atSource: map<PropName, Value>, atDestination: map<PropName, Value>)
    ensures atSource == map[]
    ensures atDestination == map["author" := "alice"]
  {
    var backend, plugin, annotated := MoveDocument();
    var doc, archived := "/docs/report.txt", "/archive/report.txt";

    var findSource := new PropFind(doc, {"author"});
    plugin.PropFind(findSource);
    atSource := findSource.found;
    ResolveNothingStored(backend.store, doc, {"author"}, map[]);

    var findDestination := new PropFind(archived, {"author"});
    plugin.PropFind(findDestination);
    atDestination := findDestination.found;
    ResolveFillsOnlyUnresolved(backend.store, archived, {"author"}, map[]);
    assert atDestination.Keys == {"author"};
  }

  /**
   * With a filter that keeps the archive out of property storage: a
   * document gets a property, is moved into the archive and its source is
   * unbound. The backend sees the update and the delete, and no move; the
   * filter is asked about the destination once, and no property is left
   * behind at either path.
   */
  method ArchiveIntoFilteredTree() returns (backend: Backend, plugin: Plugin)
    ensures plugin.backend == backend
    ensures backend.calls == [PatchCall("/docs/a", map["author" := Some("alice")]), DeleteCall("/docs/a")]
    ensures plugin.consulted == ["/docs/a", "/docs/a", "/archive/a", "/docs/a"]
    ensures Under(backend.store, "/docs/a") == map[] && Under(backend.store, "/archive/a") == map[]
  {
    backend := new Backend();
    plugin := new Plugin(backend);
    var outsideArchive := (p: Path) => !(|p| >= 9 && p[..9] == "/archive/");
    plugin.pathFilter := Some(outsideArchive);
    var doc, archived := "/docs/a", "/archive/a";
    assert outsideArchive(doc);
    assert !outsideArchive(archived) by {
      assert archived[..9] == "/archive/";
    }

    var mutations := map["author" := Some("alice")];
    var patch := new PropPatch(mutations);
    assert patch.Pending() == mutations;
    plugin.PropPatch(doc, patch);
    assert backend.calls == [PatchCall(doc, mutations)];
    plugin.AfterMove(doc, archived);
    assert backend.calls == [PatchCall(doc, mutations)];
    plugin.AfterUnbind(doc);
    assert backend.store == Deleted(Patched(map[], doc, mutations), doc);
    PatchedUnder(map[], doc, mutations);
    DeletedUnder(Patched(map[], doc, mutations), doc);
  }
}
