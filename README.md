# Property-storage plugin of sabre/dav, in Dafny

sabre/dav is a WebDAV server library. Its property-storage plugin
(`Sabre\DAV\PropertyStorage\Plugin`) lets a server keep arbitrary WebDAV
properties for nodes that cannot store them themselves. The plugin registers
four handlers on the server's event emitter:

- PROPFIND: unresolved requested properties are looked up in a storage backend.
- PROPPATCH: mutations nobody has handled yet are stored by the backend.
- After an unbind (delete): the node's stored properties are purged.
- After a move: the node's stored properties are relocated.

An optional path filter restricts which paths take part. Every handler asks
the filter first and returns without touching the backend when the filter
rejects a path. `afterMove` stops at a rejected source without asking about
the destination. It also skips the move when the destination is rejected:
the server's later unbind of the source then purges the source's properties.

The model has these modules:

- `PropertyStore` (store.dfy) is the abstract store a backend keeps: for each
  path, one value per property name. It defines the four effects the backend
  contract speaks of as plain functions (`Resolve`, `Patched`, `Deleted` and
  `Moved`). Each function has a lemma stating what it does to every path.
- `Requests` (requests.dfy) holds the PROPFIND and PROPPATCH request objects
  that the handlers receive and the backend fills in.
- `PropertyBackend` (backend.dfy) is a `Backend` class that holds the store
  and a ghost log of the calls it receives.
- `PropertyStoragePlugin` (plugin.dfy) is the plugin itself: a `Plugin` class
  with the `pathFilter` and `backend` fields, its constructor, `Initialize`
  and the four handlers. Each handler's contract is stated through one pure
  decision rule, `Route`, which gives the backend call (if any) that an event
  produces. `Consulted` gives the paths the filter is asked about.
- `PluginProperties` (properties.dfy) proves what the gating and the backend
  contract give together: rejected paths never reach the backend; without a
  filter every event is forwarded once and unchanged; the move short-circuit
  holds; no property is ever stored under a rejected path; and a move
  followed by the unbind of its source neither duplicates nor orphans
  properties. It also proves round trips between an update, delete or move
  and a later query.
- `Scenario` (scenario.dfy) has end-to-end runs through the classes, as a
  server client would see them. `HandleAll` delivers any sequence of events
  to the plugin's handlers. It shows that the backend's call log and store
  follow `Dispatch` and `Run`, so the sequence-level properties hold for the
  objects themselves.

## Model

| member | source | states |
|---|---|---|
| PropertyStoragePlugin.Plugin.constructor | lib/DAV/PropertyStorage/Plugin.php:30-34 | The plugin keeps the backend it is given and starts with no path filter. |
| PropertyStoragePlugin.Plugin.Initialize | lib/DAV/PropertyStorage/Plugin.php:47-54 | The server's listeners gain exactly the four subscriptions, in order: propFind at 130, propPatch at 300, afterMove and afterUnbind at the default priority. |
| PropertyStoragePlugin.Server.On | lib/DAV/PropertyStorage/Plugin.php:49-52 | Registering a listener appends the event name, handler and priority to the server's listeners. |
| PluginProperties.SubscriptionsOncePerEvent | lib/DAV/PropertyStorage/Plugin.php:47-54 | Each of the four events is subscribed exactly once, to its own handler, with the priorities 130, 300 and the default. |
| PropertyStoragePlugin.Plugin.Allows | lib/DAV/PropertyStorage/Plugin.php:69-70 | A path passes exactly when there is no filter or the filter returns true for it; the filter is asked only when present. |
| PropertyStoragePlugin.Route | lib/DAV/PropertyStorage/Plugin.php:66-129 | A handler calls the backend exactly when the filter accepts every path of the event, and then forwards the event's own arguments unchanged. |
| PropertyStoragePlugin.Forward | lib/DAV/PropertyStorage/Plugin.php:66-129 | The forwarded backend call names the same paths as the event, in the same order. |
| PropertyStoragePlugin.Plugin.PropFind | lib/DAV/PropertyStorage/Plugin.php:66-73 | A rejected path leaves the backend and the request untouched. Otherwise the backend is queried once for the request's path, and the request's unresolved names are filled from what the store holds for that path. |
| PropertyStoragePlugin.Plugin.PropPatch | lib/DAV/PropertyStorage/Plugin.php:85-91 | A rejected path leaves the backend and the request untouched. Otherwise the backend receives the still-pending mutations once: they are applied to the path, marked succeeded, and earlier outcomes are kept. |
| PropertyStoragePlugin.Plugin.AfterUnbind | lib/DAV/PropertyStorage/Plugin.php:102-108 | A rejected path leaves the backend untouched. Otherwise the backend deletes once, and the path's properties are purged. |
| PropertyStoragePlugin.Plugin.AfterMove | lib/DAV/PropertyStorage/Plugin.php:119-129 | The destination is asked about only after the source is accepted. A rejected source or destination leaves the backend untouched. Otherwise the backend moves once, and the source's properties end up at the destination. |
| PluginProperties.MoveShortCircuit | lib/DAV/PropertyStorage/Plugin.php:121-122 | When the filter rejects a move's source, only the source is put to the filter and no backend call is made. |
| PluginProperties.ForwardedWasConsulted | lib/DAV/PropertyStorage/Plugin.php:119-129 | With a filter, every path of a forwarded call was put to the filter beforehand, in order. |
| PluginProperties.DispatchOnlyAccepted | lib/DAV/PropertyStorage/Plugin.php:66-129 | Over any sequence of events, no backend call ever names a path the filter rejects. |
| PluginProperties.DispatchUnfiltered | lib/DAV/PropertyStorage/Plugin.php:66-129 | Without a filter, each event produces exactly one backend call, in order and with the event's arguments. |
| PluginProperties.DispatchSnoc | lib/DAV/PropertyStorage/Plugin.php:66-129 | Handling one more event appends exactly that event's call (if any) to the calls already made. |
| PluginProperties.StepUnder | lib/DAV/PropertyStorage/Plugin.php:66-129 | A handled event changes no path it does not name, and an unrouted event changes nothing. A forwarded move gives the destination the source's properties. |
| PluginProperties.StepOnlyAccepted | lib/DAV/PropertyStorage/Plugin.php:66-129 | If no property is stored under a rejected path, handling one event keeps it so. |
| PluginProperties.RunOnlyAccepted | lib/DAV/PropertyStorage/Plugin.php:66-129 | If no property is stored under a rejected path, handling any sequence of events keeps it so. |
| PluginProperties.RunSnoc | lib/DAV/PropertyStorage/Plugin.php:66-129 | Handling one more event applies exactly that event's effect to the store reached so far. |
| Scenario.Handle | lib/DAV/PropertyStorage/Plugin.php:66-129 | Delivering one event to its handler makes exactly the backend call `Route` gives (if any) and leaves the store as `Step` gives. |
| Scenario.HandleAll | lib/DAV/PropertyStorage/Plugin.php:66-129 | When the four handlers receive any sequence of events in order, the backend gets exactly the calls `Dispatch` predicts. Its store ends as `Run` predicts. |
| Scenario.HandleAllOnlyAccepted | lib/DAV/PropertyStorage/Plugin.php:66-129 | Whatever events the handlers receive, no new backend call names a rejected path. If no property was stored under a rejected path, none is afterwards. |
| PluginProperties.MoveThenUnbindSource | lib/DAV/PropertyStorage/Plugin.php:123-125 | A move followed by the unbind of an accepted source leaves the source empty and every other path untouched. The destination holds the source's former properties when accepted and nothing when rejected. |
| PluginProperties.RejectedSourceMoveThenUnbind | lib/DAV/PropertyStorage/Plugin.php:121-122 | A move with a rejected source, followed by its unbind, leaves the store unchanged. |
| PropertyBackend.Backend.PropFind | lib/DAV/PropertyStorage/Plugin.php:71 | The backend query logs one call and fills the request's unresolved names from the store. It changes neither the store nor names already resolved. |
| PropertyBackend.Backend.PropPatch | lib/DAV/PropertyStorage/Plugin.php:89 | The backend update applies exactly the pending mutations to the path, marks each of them succeeded and keeps every earlier outcome. |
| PropertyBackend.Backend.Delete | lib/DAV/PropertyStorage/Plugin.php:106 | The backend delete purges the path's properties and logs one call. |
| PropertyBackend.Backend.Move | lib/DAV/PropertyStorage/Plugin.php:127 | The backend move relocates the source's properties to the destination and logs one call. |
| Requests.PropPatch.SetResults | lib/DAV/PropertyStorage/Plugin.php:89 | Marking names records the outcome for exactly those names and keeps every other outcome. |
| PropertyStore.ReplacedUnder | lib/DAV/PropertyStorage/Plugin.php:106 | After a replacement, the path holds exactly the new properties and every other path is untouched. |
| PropertyStore.ResolveFillsOnlyUnresolved | lib/DAV/PropertyStorage/Plugin.php:71 | A query never overwrites an already resolved name. It resolves every requested name the store holds for the path, and adds nothing else. |
| PropertyStore.ResolveDependsOnPathOnly | lib/DAV/PropertyStorage/Plugin.php:71 | A query's result depends only on what is stored under the queried path. |
| PropertyStore.ResolveNothingStored | lib/DAV/PropertyStorage/Plugin.php:71 | A query for a path with nothing stored leaves the request as it was. |
| PropertyStore.PatchedUnder | lib/DAV/PropertyStorage/Plugin.php:89 | After an update, set names hold their new values, removed names are gone, other names keep their values, and other paths are untouched. |
| PropertyStore.DeletedUnder | lib/DAV/PropertyStorage/Plugin.php:106 | After a delete, the path holds nothing and every other path is untouched. |
| PropertyStore.MovedUnder | lib/DAV/PropertyStorage/Plugin.php:127 | After a move, the destination holds the source's former properties, and a distinct source holds nothing. Every other path is untouched. |
| PluginProperties.PatchThenFind | lib/DAV/PropertyStorage/Plugin.php:85-91 | A property set by an update is what a later query for it resolves to. |
| PluginProperties.RemoveThenFind | lib/DAV/PropertyStorage/Plugin.php:85-91 | A property removed by an update stays unresolved in a later query. |
| PluginProperties.DeleteThenFind | lib/DAV/PropertyStorage/Plugin.php:102-108 | After a delete, a query for the path resolves nothing new. |
| PluginProperties.MoveThenFind | lib/DAV/PropertyStorage/Plugin.php:119-129 | After a move, a query for the destination resolves what a query for the source resolved before. |
| PluginProperties.MoveThenFindSource | lib/DAV/PropertyStorage/Plugin.php:119-129 | After a move, a query for the vacated source resolves nothing new. |
| Scenario.UpdateThenQuery | lib/DAV/PropertyStorage/Plugin.php:66-91 | Without a filter, setting a property through the plugin reports success for it, and a later PROPFIND returns it; a requested name never set stays unresolved. |
| Scenario.MoveDocument | lib/DAV/PropertyStorage/Plugin.php:102-129 | Without a filter, after a move and the unbind of the source, the destination holds the document's properties and the source holds nothing. |
| Scenario.ArchiveIntoFilteredTree | lib/DAV/PropertyStorage/Plugin.php:119-129 | With a filter that rejects the archive, a document is updated, moved into the archive and its source unbound. The backend receives the update and the delete but no move. The filter is asked about the destination once, and neither path keeps any property. |
| Scenario.MoveThenQuery | lib/DAV/PropertyStorage/Plugin.php:66-73 | After that move, a PROPFIND on the source resolves nothing and one on the destination resolves the moved property. |

## Left out

- The server's event emitter is not modelled beyond its listener registry: events are delivered by calling the handlers directly, in the order the server emits them (a move, then the unbind of its source).
- Concrete storage backends (the PDO backend and others) and the backend interface file are not part of this model. The backend is the abstract store its contract describes, and every update it receives succeeds; a failing backend is not modelled.
- Deleting or moving a collection also affects the properties of its descendant paths in the concrete backends; the model treats every path on its own.
- A move replaces whatever the destination held with the source's properties; the model does not say how a concrete backend merges them.
- The PROPFIND handler's `INode` argument is unused by the source and is left out.
- The path filter is any total function on paths. PHP callable truthiness and filters that throw are not modelled.
- The default priority 100 for `afterMove` and `afterUnbind` comes from the sabre/event emitter, which is not part of this model.
- PROPFIND and PROPPATCH internals other than resolved values and per-property outcomes (status codes, response building, depth handling) are not modelled.
- Nothing of the plugin's work is on integers, so no integer width is modelled.
