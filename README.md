# electron-ipc-flow, modelled in Dafny

electron-ipc-flow wraps Electron's `ipcMain` / `ipcRenderer` in named
controllers. This project models the bookkeeping those controllers do on top
of the transport, and proves what it guarantees:

- **Channel naming** (`common.dfy`, `broadcast.dfy`, `legacy.dfy`): the three
  channel families, their kind separation and, under the name restrictions
  that hold, their injectivity.
- **The listener multiplexer** (`multiplexer.dfy`): per event, one raw
  transport listener (the binding) and a list of local `{listener, once}`
  entries. `Add`, `Off` and `Deliver` are the specification every controller
  is proved against. Delivery calls the snapshot in order, swallows listener
  throws, applies the `off` calls listeners make, then `off`s each `once`
  entry. An exception from that last pass escapes and ends it.
- **The controllers**, each a class whose methods update the binding map and
  the entry lists in place and drive an abstract transport (`transport.dfy`):
  - `IpcServerController` (`server.dfy`): trust gate, invoke envelopes, the
    `handlers` setter, event fan-out;
  - `IpcClientController` (`client.dfy`): the registry-guarded preload surface,
    invoke unwrapping;
  - `IpcBroadcastController` (`broadcast.dfy`);
  - the older `IpcController` (`legacy.dfy`), which checks the static
    `ipcMain` before every main-process operation and follows promise chains
    with `#tryPromise`.
- **Fan-out** (`fanout.dfy`): getter resolution (instance, else static, else
  none) and one message per live renderer, in the order listed.

The controllers differ where the source differs:
- Only `IpcServerController.off` deletes the binding entry, and it returns
  at once for an unbound event.
- The other three keep the entry after detaching the raw listener.
- `KeepBindingLosesLaterListeners` proves the consequence: after `off(event)`,
  a later `on(event, L)` installs nothing, and L's entry sits behind the raw
  listener that `off` detached.
- Each controller class keeps the invariant `Valid()`: every event with
  entries has its raw listener bound. Construction establishes it, and
  `on`, `once`, `off` and a delivery preserve it, so the `once` lemmas apply
  after any sequence of these calls.

Errors the source throws are modelled as results: `Result` for values,
`Option<Exception>` for a method that may throw. The messages are the
source's. Listener identity is an opaque number. Trust handlers, getters and
user handlers are functions from their arguments to their awaited outcome.

## Model

| member | source | states |
|---|---|---|
| Common.ChannelGenerator | src/common.ts:50-51 | the channel is the fixed prefix, the type character at a fixed offset, `\|\|`, the controller, `\|\|`, the event; total length given |
| Common.ChannelKindsDistinct | src/common.ts:50-51 | channels of different kinds (c, i, s) never coincide, whatever the names |
| Common.ChannelInjective | src/common.ts:50-51 | when controller names contain no `\|`, a channel determines its kind, controller and event |
| Common.ChannelCollisionWithPipe | src/common.ts:50-51 | without that restriction two different controller/event pairs share a channel |
| Common.AssertIsNull | src/common.ts:65-69 | fails with a TypeError carrying the message exactly when the value is missing, otherwise yields the value |
| Common.BlankIffAllWhitespace | src/IpcServerController.ts:100-104 | `name.trim() === ''` holds exactly when every character is ECMAScript white space or a line terminator |
| Common.TrimStartEmpty | src/IpcServerController.ts:101 | trimming the start leaves nothing exactly when the name is all white space |
| Common.TrimEndEmpty | src/IpcServerController.ts:101 | trimming the end leaves nothing exactly when the name is all white space |
| Common.SettleNest | src/IpcServerController.ts:271-274 | awaiting a value wrapped in any number of promises yields the innermost value or rejection |
| Common.CallArguments | src/IpcServerController.ts:271 | the handler receives the event object first exactly when registered with the event, then the arguments unchanged |
| Common.Unwrap | src/IpcClientController.ts:190-194 | an error envelope rejects with the deserialized value, any other resolves to its value |
| Multiplexer.OnceEntries | src/IpcServerController.ts:213-220 | the filter keeps exactly the `once` entries |
| Multiplexer.OnceEntriesConcat | src/IpcServerController.ts:213-220 | the filter keeps registration order: filtering two parts of a list gives the filtered parts one after the other |
| Multiplexer.Without | src/IpcServerController.ts:357-359 | the filter keeps exactly the entries of other listeners, and returns the list itself when nothing matches |
| Multiplexer.WithoutConcat | src/IpcServerController.ts:357-359 | filtering distributes over concatenation, so registration order is kept |
| Multiplexer.Off | src/IpcServerController.ts:349-373 | unbound event on the server is a no-op; when no entry remains (`off(event)`, or `off(event, L)` removing the last one) the list goes, the bound raw listener is detached and the server also unbinds it; a raw listener is detached only then; when entries remain they stay in order and nothing is detached; `off(event, L)` leaves no entry of L; no match changes nothing; other events untouched; entries-only-for-bound-events is preserved |
| Multiplexer.Add | src/IpcServerController.ts:174-195 | a raw listener is installed exactly when the event is unbound; the entry is appended at the end; other events untouched; the invariant is preserved |
| Multiplexer.OffRun | src/IpcServerController.ts:211-222 | an `off` made by a listener never ends the delivery (its throw is swallowed) |
| Multiplexer.React | src/IpcServerController.ts:211-219 | calling the snapshot never lets an exception escape |
| Multiplexer.RemoveOnceStops | src/IpcServerController.ts:220-222 | once an `off` of the once-removal pass has thrown, the rest of the pass does nothing |
| Multiplexer.ReactValid | src/IpcServerController.ts:211-219 | the `off` calls listeners make keep the bookkeeping invariant |
| Multiplexer.RemoveOnceClears | src/IpcServerController.ts:220-222 | with a reachable transport, no removed listener keeps an entry and nothing escapes |
| Multiplexer.OnceRemovedAfterDelivery | src/IpcServerController.ts:211-222 | after a delivery over a reachable transport, every `once` listener of the snapshot is gone |
| Multiplexer.OnceFiresOnce | src/IpcBroadcastController.ts:105-119 | a `once` listener is called by the first delivery and not by the next |
| Multiplexer.OnThenOffDetaches | src/IpcServerController.ts:357-369 | `on(event, L)` on an event with no entries then `off(event, L)` detaches the event's raw listener and drops its list; the server also unbinds the event |
| Multiplexer.RemoveOnceValid | src/IpcServerController.ts:220-222 | the once-removal pass keeps the bookkeeping invariant whether or not the transport can be reached |
| Multiplexer.DeliverValid | src/IpcServerController.ts:197-223 | a whole delivery keeps the bookkeeping invariant, for every controller's configuration |
| Multiplexer.OnThenOffNeverDelivers | src/IpcServerController.ts:357-371 | after `on(event, L)` then `off(event, L)` no delivery calls L |
| Multiplexer.DropBindingRebinds | src/IpcServerController.ts:363-368 | on the server, `off(event)` unbinds, so a later `on` installs a fresh raw listener that alone receives the event |
| Multiplexer.KeepBindingLosesLaterListeners | src/IpcClientController.ts:209-216 | on the other controllers, `off(event)` detaches but keeps the binding, so a later `on` installs nothing and its entry sits behind the raw listener `off` detached |
| FanOut.ResolveGetter | src/IpcServerController.ts:230 | the instance getter wins, then the static one, else no renderers |
| FanOut.FanOut | src/IpcServerController.ts:295-310 | at most one message per listed renderer, each on the given channel and frame with the given arguments |
| FanOut.Broadcast | src/IpcServerController.ts:291-312 | the send appends exactly the fan-out of the getter's outcome; a failing getter sends nothing |
| FanOut.FanOutOrder | src/IpcServerController.ts:295-310 | the messages are addressed to the live renderers the getter lists, each once per listing, in the order listed |
| FanOut.FanOutCounts | src/IpcServerController.ts:295-310 | each renderer receives exactly as many messages as it has live listings, destroyed renderers none |
| FanOut.NoGetterNoMessages | src/IpcServerController.ts:230 | with no getter anywhere a send reaches no renderer |
| FanOut.InstanceGetterSelectsRenderers | tests/BroadcastTest/main.ts:28-56 | with an instance getter listing only the second window, only it receives the event |
| Server.IpcServerController.Create | src/IpcServerController.ts:60-105 | a blank name fails with the SyntaxError; otherwise a fresh controller with empty tables and no `ipcMain`, trust handler, getter or handler object of its own, so it falls back to the static ones |
| Server.IpcServerController.Ipc | src/IpcServerController.ts:150-156 | the instance `ipcMain` wins over the static one |
| Server.IpcServerController.AddEventListener | src/IpcServerController.ts:174-195 | the new state is `Add` of the old; the raw listener is attached on the server-event channel only for a first entry; without a transport a first entry throws the TypeError and changes nothing |
| Server.IpcServerController.On | src/IpcServerController.ts:379-381 | as `AddEventListener` with a persistent entry: the new state is `Add` of the old; the raw listener is attached on the event's channel only for a first entry, the transport otherwise unchanged; the same error as `AddEventListener`; the invariant is kept |
| Server.IpcServerController.Once | src/IpcServerController.ts:388-390 | as `AddEventListener` with a `once` entry: the new state is `Add` of the old; the raw listener is attached on the event's channel only for a first entry, the transport otherwise unchanged; the same error as `AddEventListener`; the invariant is kept |
| Server.IpcServerController.Off | src/IpcServerController.ts:349-373 | the new state is `Off` with the drop-binding policy; throws only when a detach is needed and no transport is set; the transport loses exactly the detached listener |
| Server.IpcServerController.InvokeChannelsInjective | src/IpcServerController.ts:166-168 | different operation names use different invoke channels, so the setter's registrations never overwrite one another |
| Server.IpcServerController.Installed | src/IpcServerController.ts:139-146 | maps each function name's invoke channel to that handler, without the event, and installs nothing else |
| Server.IpcServerController.HandleInvoke | src/IpcServerController.ts:244-289 | the handler runs exactly when trusted; a result envelope exactly when it ran and fulfilled, holding that value; otherwise an error envelope with the serialized reason or the "Blocked by trust handler" error |
| Server.InvokeRoundTrip | src/IpcServerController.ts:244-289 | unwrapped in the renderer, the reply resolves exactly to what a trusted handler fulfilled with, and otherwise rejects with the deserialized serialized reason or blocked error |
| Server.IpcServerController.Handle | src/IpcServerController.ts:317-321 | the invoke channel's slot now calls the handler without the event; listeners untouched; TypeError without a transport |
| Server.IpcServerController.HandleWithEvent | src/IpcServerController.ts:328-332 | as `Handle`, passing the event first |
| Server.IpcServerController.RemoveHandler | src/IpcServerController.ts:337-341 | exactly the invoke channel's slot is emptied; TypeError without a transport |
| Server.IpcServerController.RemoveHandlers | src/IpcServerController.ts:132-138 | the setter's first pass removes exactly the invoke channels of the previous function names |
| Server.IpcServerController.InstallOne | src/IpcServerController.ts:141-145 | one `handle` of the second pass adds exactly that name's registration |
| Server.IpcServerController.InstallHandlers | src/IpcServerController.ts:139-146 | the second pass adds exactly the registrations of the new function names, whatever the iteration order |
| Server.IpcServerController.SetHandlers | src/IpcServerController.ts:124-148 | with a transport: old function names' handlers removed, new ones installed, object stored; without one: throws as soon as there is a handler to remove or install |
| Server.IpcServerController.Send | src/IpcServerController.ts:395-397 | every renderer the getter lists receives the event on its client-event channel via `send` |
| Server.IpcServerController.SendToFrame | src/IpcServerController.ts:404-410 | as `Send`, addressed to the frame |
| Server.IpcServerController.DeliveryOff | src/IpcServerController.ts:220-222 | one `off` during a delivery takes the effect `OffRun` describes |
| Server.IpcServerController.CallEntry | src/IpcServerController.ts:213-219 | calling one more snapshot entry extends the run to `React` over the longer prefix: its `off`, if any, applies and nothing escapes |
| Server.IpcServerController.CallListeners | src/IpcServerController.ts:211-219 | every snapshot entry is called in order, the `once` entries collected, the state is `React` of the snapshot |
| Server.IpcServerController.RemoveOnceListeners | src/IpcServerController.ts:220-222 | the state is `RemoveOnce` of the collected entries, stopping at the first throw |
| Server.IpcServerController.DeliverTrusted | src/IpcServerController.ts:211-222 | the snapshot's listeners are called in order, the state is `Deliver` of the old state, the transport loses only the detached raw listener, and the invariant is kept |
| Server.IpcServerController.Dispatch | src/IpcServerController.ts:197-223 | untrusted: no listener runs and nothing changes; trusted: the snapshot's listeners are called in order and the state is `Deliver` of the old state; the invariant is kept |
| Client.ClientSurface.Invoke | src/IpcClientController.ts:277-283 | an unregistered controller gets the RangeError and nothing is sent; otherwise the request leaves on the invoke channel |
| Client.ClientSurface.Off | src/IpcClientController.ts:284-290 | RangeError when unregistered; otherwise the raw listener leaves the client-event channel |
| Client.ClientSurface.On | src/IpcClientController.ts:291-297 | RangeError when unregistered; otherwise the raw listener is appended on the client-event channel |
| Client.ClientSurface.Register | src/IpcClientController.ts:298-303 | adds the name unless blank; a second call changes nothing |
| Client.ClientSurface.Send | src/IpcClientController.ts:304-310 | RangeError when unregistered; otherwise the event leaves on the server-event channel |
| Client.PreloadInit | src/IpcClientController.ts:273-321 | the surface has `register` exactly when auto-registering; the key is `$IpcClientController` |
| Client.IpcClientController.Create | src/IpcClientController.ts:92-103 | a blank name fails; otherwise the controller registers itself exactly when the surface offers `register` |
| Client.IpcClientController.AddEventListener | src/IpcClientController.ts:139-158 | the new state is `Add` of the old; a first entry throws (global missing or unregistered) and changes nothing, or attaches the raw listener |
| Client.IpcClientController.On | src/IpcClientController.ts:226-228 | as `AddEventListener` with a persistent entry: the new state is `Add` of the old; the raw listener is attached on the event's channel only for a first entry, the transport otherwise unchanged; the same error as `AddEventListener`; the invariant is kept |
| Client.IpcClientController.Once | src/IpcClientController.ts:235-237 | as `AddEventListener` with a `once` entry: the new state is `Add` of the old; the raw listener is attached on the event's channel only for a first entry, the transport otherwise unchanged; the same error as `AddEventListener`; the invariant is kept |
| Client.IpcClientController.Off | src/IpcClientController.ts:203-220 | the new state is `Off` with the keep-binding policy; throws only when a detach is needed and the surface refuses |
| Client.IpcClientController.DeliveryOff | src/IpcClientController.ts:172-174 | one `off` during a delivery takes the effect `OffRun` describes |
| Client.IpcClientController.CallEntry | src/IpcClientController.ts:164-171 | calling one more snapshot entry extends the run to `React` over the longer prefix: its `off`, if any, applies and nothing escapes |
| Client.IpcClientController.CallListeners | src/IpcClientController.ts:163-171 | every snapshot entry is called in order; the state is `React` of the snapshot |
| Client.IpcClientController.RemoveOnceListeners | src/IpcClientController.ts:172-174 | the state is `RemoveOnce` of the collected entries |
| Client.IpcClientController.Dispatch | src/IpcClientController.ts:160-175 | no trust gate: the snapshot's listeners are called in order and the state is `Deliver` of the old state |
| Client.IpcClientController.Invoke | src/IpcClientController.ts:180-195 | refused controllers fail with the surface's error and send nothing; otherwise the request is sent and the reply unwrapped |
| Client.IpcClientController.Send | src/IpcClientController.ts:242-246 | throws exactly when the surface refuses; otherwise one message on the server-event channel |
| Client.IpcClientController.Register | src/IpcClientController.ts:252-254 | the name is in the registry afterwards |
| Client.IpcClientController.Unregister | src/IpcClientController.ts:259-261 | the name is out of the registry afterwards |
| Broadcast.BroadcastChannel | src/IpcBroadcastController.ts:26 | the channel is the prefix followed by `controller:event` |
| Broadcast.BroadcastChannelInjective | src/IpcBroadcastController.ts:26 | for names without `:`, as the constructor enforces, the channel determines controller and event |
| Broadcast.BroadcastChannelsApart | src/IpcBroadcastController.ts:26 | broadcast channels never equal a server/client channel |
| Broadcast.BroadcastSurface.Off | src/IpcBroadcastController.ts:228-235 | detaches the raw listener from the broadcast channel, with no registry check |
| Broadcast.BroadcastSurface.On | src/IpcBroadcastController.ts:236-243 | appends the raw listener on the broadcast channel, with no registry check |
| Broadcast.PreloadInit | src/IpcBroadcastController.ts:224-250 | the surface over the given renderer, under the key `$IpcBroadcastController` |
| Broadcast.IpcBroadcastController.Create | src/IpcBroadcastController.ts:64-72 | fails exactly for a blank name or one containing `:`, the blank check first |
| Broadcast.IpcBroadcastController.AddEventListener | src/IpcBroadcastController.ts:74-90 | the new state is `Add` of the old; only a first entry needs the global surface, and throws without it |
| Broadcast.IpcBroadcastController.On | src/IpcBroadcastController.ts:188-193 | as `AddEventListener` with a persistent entry: the new state is `Add` of the old; the raw listener is attached on the event's channel only for a first entry, the transport otherwise unchanged; the same error as `AddEventListener`; the invariant is kept |
| Broadcast.IpcBroadcastController.Once | src/IpcBroadcastController.ts:198-203 | as `AddEventListener` with a `once` entry: the new state is `Add` of the old; the raw listener is attached on the event's channel only for a first entry, the transport otherwise unchanged; the same error as `AddEventListener`; the invariant is kept |
| Broadcast.IpcBroadcastController.Off | src/IpcBroadcastController.ts:167-183 | the new state is `Off` with the keep-binding policy; throws only when a detach is needed and the global is missing |
| Broadcast.IpcBroadcastController.Send | src/IpcBroadcastController.ts:208-210 | every renderer the getter lists receives the event on the broadcast channel |
| Broadcast.IpcBroadcastController.SendToFrame | src/IpcBroadcastController.ts:215-221 | as `Send`, addressed to the frame |
| Broadcast.IpcBroadcastController.DeliveryOff | src/IpcBroadcastController.ts:117-119 | one `off` during a delivery takes the effect `OffRun` describes |
| Broadcast.IpcBroadcastController.CallEntry | src/IpcBroadcastController.ts:106-116 | calling one more snapshot entry extends the run to `React` over the longer prefix: its `off`, if any, applies and nothing escapes |
| Broadcast.IpcBroadcastController.CallListeners | src/IpcBroadcastController.ts:105-116 | every snapshot entry is called in order; the state is `React` of the snapshot |
| Broadcast.IpcBroadcastController.RemoveOnceListeners | src/IpcBroadcastController.ts:117-119 | the state is `RemoveOnce` of the collected entries |
| Broadcast.IpcBroadcastController.Dispatch | src/IpcBroadcastController.ts:96-120 | the snapshot's listeners are called in order and the state is `Deliver` of the old state |
| Legacy.LegacyChannel | src/IpcController.ts:44 | the channel is the prefix followed by `controller:name` |
| Legacy.EventInvokeApart | src/IpcController.ts:40-41 | no event channel equals an invoke channel, whatever the names |
| Legacy.LegacyChannelInjective | src/IpcController.ts:44 | with a fixed suffix and controller names without `:`, the channel determines controller and name |
| Legacy.LegacyChannelCollision | src/IpcController.ts:44 | the constructor allows `:`, and two different pairs then share an event channel |
| Legacy.LegacyChannelsApart | src/IpcController.ts:44 | legacy channels never equal broadcast or server/client channels |
| Legacy.TryPromise | src/IpcController.ts:207-212 | the result is never a pending promise and settles as the input does |
| Legacy.TryPromiseNest | src/IpcController.ts:207-212 | however deeply nested in promises, the innermost value or rejection is reached |
| Legacy.LegacySurface.Invoke | src/IpcController.ts:300-317 | RangeError and nothing sent when unregistered; otherwise sent on the invoke channel and the reply unwrapped by status |
| Legacy.LegacySurface.Register | src/IpcController.ts:318-323 | adds the name unless blank; a second call changes nothing |
| Legacy.LegacySurface.Send | src/IpcController.ts:324-336 | RangeError when unregistered; otherwise one message on the event channel |
| Legacy.PreloadInit | src/IpcController.ts:297-343 | the main world's global holds a fresh surface, with `register` exactly when auto-registering |
| Legacy.IpcController.Create | src/IpcController.ts:95-112 | a blank name fails; otherwise a fresh controller with empty tables and no trust handler of its own, which registers itself exactly when the surface offers `register` |
| Legacy.IpcController.AddEventListener | src/IpcController.ts:114-132 | throws exactly when `ipcMain` is null, changing nothing; otherwise the new state is `Add` of the old and a first entry attaches on the event channel |
| Legacy.IpcController.On | src/IpcController.ts:264-266 | as `AddEventListener` with a persistent entry: the new state is `Add` of the old; the raw listener is attached on the event's channel only for a first entry, the transport otherwise unchanged; the same error as `AddEventListener`; the invariant is kept |
| Legacy.IpcController.Once | src/IpcController.ts:271-273 | as `AddEventListener` with a `once` entry: the new state is `Add` of the old; the raw listener is attached on the event's channel only for a first entry, the transport otherwise unchanged; the same error as `AddEventListener`; the invariant is kept |
| Legacy.IpcController.Off | src/IpcController.ts:244-259 | throws exactly when `ipcMain` is null; otherwise the new state is `Off` with the keep-binding policy and exactly the detached listener leaves |
| Legacy.IpcController.HandleInvoke | src/IpcController.ts:168-205 | the handler runs exactly when trusted; result envelope exactly for a fulfilled handler; otherwise the serialized reason or the fullwidth-colon blocked error |
| Legacy.InvokeRoundTrip | src/IpcController.ts:168-205 | unwrapped in the renderer, the reply resolves exactly to a trusted handler's value and otherwise rejects with the deserialized serialized error |
| Legacy.IpcController.Handle | src/IpcController.ts:217-221 | throws when `ipcMain` is null; otherwise the invoke channel's slot calls the handler without the event |
| Legacy.IpcController.HandleWithEvent | src/IpcController.ts:228-232 | as `Handle`, passing the event first |
| Legacy.IpcController.DeliveryOff | src/IpcController.ts:163-165 | one `off` during a delivery takes the effect `OffRun` describes |
| Legacy.IpcController.CallEntry | src/IpcController.ts:154-162 | calling one more snapshot entry extends the run to `React` over the longer prefix: its `off`, if any, applies and nothing escapes |
| Legacy.IpcController.CallListeners | src/IpcController.ts:153-162 | every snapshot entry is called in order; the state is `React` of the snapshot |
| Legacy.IpcController.RemoveOnceListeners | src/IpcController.ts:163-165 | the state is `RemoveOnce` of the collected entries |
| Legacy.IpcController.RemoveOneOnce | src/IpcController.ts:164 | one step of that pass extends `RemoveOnce` by one entry |
| Legacy.IpcController.DeliverTrusted | src/IpcController.ts:153-165 | the snapshot's listeners are called in order, the state is `Deliver` of the old state with every `off` needing `ipcMain`, and the invariant is kept |
| Legacy.IpcController.Dispatch | src/IpcController.ts:138-166 | untrusted: nothing runs and nothing changes; trusted: the state is `Deliver` of the old state, where every `off` needs `ipcMain` |
| Legacy.IpcController.Invoke | src/IpcController.ts:237-239 | fails with the surface's error when refused; otherwise sends and unwraps the reply |
| Legacy.IpcController.Send | src/IpcController.ts:278-280 | throws exactly when refused; otherwise one message on the event channel |
| Legacy.IpcController.Register | src/IpcController.ts:285-287 | the name is in the registry afterwards |
| Legacy.IpcController.Unregister | src/IpcController.ts:292-294 | the name is out of the registry afterwards |

## Left out

- The Electron transport is abstract state (`transport.dfy`): raw listeners per channel, one invoke handler per channel, logs of what was sent. Emission and the invoke round trip over the wire are not modelled; the dispatchers are called directly with the delivered event.
- Whether `ipcMain.handle` refuses a second handler on a channel is Electron's behaviour; the model overwrites the slot.
- Promise scheduling is collapsed: trust handlers, getters and handlers are given as their awaited outcome, and a delivery runs to completion atomically.
- Legacy.IpcController.Invoke: the source's `invoke` is not `async`, so a missing global surface or the surface's RangeError for an unregistered name is a synchronous throw, whereas the client controller's `async invoke` rejects; the model gives both the same `Failure` and does not distinguish a throw from a rejection.
- Listener side effects are limited to returning, throwing, and calling `off` for the event being delivered; other re-entrant calls (`on`, other events, other controllers) are not modelled.
- `ErrorHandler.serialize` / `deserialize` (the serialize-error package) are uninterpreted functions supplied by the caller.
- `debug`, `isDebug` and every `console.error` call: logging only.
- The proxy sugar (`clientEvents`, `functions`, `serverEvents`, `callers`, `handlers` proxies) only forwards to the modelled methods.
- src/index.ts and src/preload.ts only wire options and `exposeInMainWorld`; `exposeInMainWorld` is modelled where the legacy `preloadInit` calls it, as filling the global slot.
- The build and test harness and the compile-time type tests.
- Server.IpcServerController.HandleInvoke: the trust handler receives the controller's name rather than the controller object itself.
- Server.IpcServerController.Dispatch: the trust handler receives the controller's name rather than the controller object itself.
- The envelope tag is `type` in src/common.ts and the server but `status` in the client; the model uses one tag, so the client sees the server's envelope as intended.
- src/IpcController.ts and src/IpcBroadcastController.ts import `isNull` and `TrustHandler`, which src/common.ts does not define; `isNull` is read as `assertIsNull`, and the legacy default trust handler is a field of `LegacyDefaults`. The controllers make these null checks inline (`global.surface.None?`, `defaults.ipcMain.None?`) and return the same TypeError that `Common.AssertIsNull` states.
- Server.IpcServerController.SetHandlers: `None` stands for `undefined`; setting `handlers` to `null` (which the source stores and then fails on when it enumerates the properties of `null`) is not modelled.
- Server.IpcServerController.SetHandlers: the prototype level is whatever the caller supplies as `proto`; for a plain object the source also enumerates the function members of `Object.prototype` and registers them, which the model captures only when they are supplied there.
- Server.IpcServerController.SetHandlers: the handler object is taken as a value when it is assigned. The source keeps a live reference, so adding or deleting a function on that object before the next assignment changes which names the next setter call removes; the model removes the names the object held when it was assigned.
- Server.IpcServerController.SetHandlers: the setter visits names in enumeration order; the model proves the final state for any order, and without a transport reports the throw of the first pass that has a name to process.
