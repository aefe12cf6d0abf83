/**
 * `IpcClientController` (src/IpcClientController.ts), the renderer-side
 * controller, and the global surface `preloadInit` builds for it in the
 * preload script. The controller reaches `ipcRenderer` only through that
 * surface, which refuses controllers missing from the registry.
 */
module Client {
  import opened Common
  import opened Transport
  import opened Multiplexer

  const BlankName: Exception := SyntaxError("IpcClientController: \"name\" cannot be an empty string.")

  const GlobalMissing: Exception :=
    TypeError("IpcClientController: Can't find the \"globalThis.$IpcClientController\", Forgot to use \"preloadInit\" in the preload script?")

  /** The key `preloadInit` asks the preload script to expose the surface under. */
  const GlobalKey: string := "$IpcClientController"

  /** `IpcClientControllerRegistered`, the module-level set of controller names. */
  class ClientRegistry {
    var names: set<string>

    constructor ()
      ensures names == {}
    {
      names := {};
    }
  }

  /** The object `preloadInit(ipcRenderer, autoRegister)` returns as `api`.
      Every operation but `register` refuses an unregistered controller. */
  class ClientSurface {
    const registry: ClientRegistry
    const ipc: IpcRenderer
    /** `register` is deleted from the surface unless `autoRegister` was set. */
    const hasRegister: bool

    constructor (registry: ClientRegistry, ipc: IpcRenderer, hasRegister: bool)
      ensures this.registry == registry && this.ipc == ipc && this.hasRegister == hasRegister
    {
      this.registry := registry;
      this.ipc := ipc;
      this.hasRegister := hasRegister;
    }

    /** `invoke(controllerName, name, ...args)`: the request leaves on the invoke channel. */
    method Invoke(controller: string, op: string, args: seq<Value>) returns (thrown: Option<Exception>)
      modifies ipc
      ensures thrown.Some? <==> controller !in registry.names
      ensures thrown.Some? ==> thrown.value == NotRegistered("invoke", controller) && ipc.sent == old(ipc.sent)
      ensures thrown.None? ==> ipc.sent == old(ipc.sent) + [InvokeMessage(ChannelGenerator(controller, op, ChannelType.Invoke), args)]
      ensures ipc.listeners == old(ipc.listeners)
    {
      if controller !in registry.names {
        return Some(NotRegistered("invoke", controller));
      }
      ipc.Invoke(ChannelGenerator(controller, op, ChannelType.Invoke), args);
      return None;
    }

    /** `off(controllerName, event, listener)` */
    method Off(controller: string, event: string, l: RawListener) returns (thrown: Option<Exception>)
      modifies ipc
      ensures thrown.Some? <==> controller !in registry.names
      ensures thrown.Some? ==> thrown.value == NotRegistered("off", controller)
      ensures ipc.listeners == if thrown.None? then Detach(old(ipc.listeners), ChannelGenerator(controller, event, ClientEvent), l)
                               else old(ipc.listeners)
      ensures ipc.sent == old(ipc.sent)
    {
      if controller !in registry.names {
        return Some(NotRegistered("off", controller));
      }
      ipc.Off(ChannelGenerator(controller, event, ClientEvent), l);
      return None;
    }

    /** `on(controllerName, event, listener)` */
    method On(controller: string, event: string, l: RawListener) returns (thrown: Option<Exception>)
      modifies ipc
      ensures thrown.Some? <==> controller !in registry.names
      ensures thrown.Some? ==> thrown.value == NotRegistered("on", controller)
      ensures ipc.listeners == if thrown.Some? then old(ipc.listeners)
                               else var ch := ChannelGenerator(controller, event, ClientEvent);
                                    old(ipc.listeners)[ch := Attached(old(ipc.listeners), ch) + [l]]
      ensures ipc.sent == old(ipc.sent)
    {
      if controller !in registry.names {
        return Some(NotRegistered("on", controller));
      }
      ipc.On(ChannelGenerator(controller, event, ClientEvent), l);
      return None;
    }

    /** `register(name)`: adds a non-blank name. */
    method Register(name: string)
      requires hasRegister
      modifies registry
      ensures registry.names == if IsBlank(name) then old(registry.names) else old(registry.names) + {name}
    {
      if !IsBlank(name) && name !in registry.names {
        registry.names := registry.names + {name};
      }
    }

    /** `send(controllerName, event, ...args)`: the event leaves on the server-event channel. */
    method Send(controller: string, event: string, args: seq<Value>) returns (thrown: Option<Exception>)
      modifies ipc
      ensures thrown.Some? <==> controller !in registry.names
      ensures thrown.Some? ==> thrown.value == NotRegistered("send", controller) && ipc.sent == old(ipc.sent)
      ensures thrown.None? ==> ipc.sent == old(ipc.sent) + [SendMessage(ChannelGenerator(controller, event, ServerEvent), args)]
      ensures ipc.listeners == old(ipc.listeners)
    {
      if controller !in registry.names {
        return Some(NotRegistered("send", controller));
      }
      ipc.Send(ChannelGenerator(controller, event, ServerEvent), args);
      return None;
    }
  }

  /** `preloadInit(ipcRenderer, autoRegister)`: the surface and the global key
      to expose it under. */
  method PreloadInit(ipc: IpcRenderer, autoRegister: bool, registry: ClientRegistry) returns (api: ClientSurface, key: string)
    ensures fresh(api) && api.ipc == ipc && api.registry == registry
    ensures api.hasRegister <==> autoRegister
    ensures key == GlobalKey
  {
    api := new ClientSurface(registry, ipc, autoRegister);
    key := GlobalKey;
  }

  /** The `globalThis.$IpcClientController` slot of the renderer's main world. */
  class ClientGlobal {
    var surface: Option<ClientSurface>

    constructor ()
      ensures surface.None?
    {
      surface := None;
    }
  }

  class IpcClientController {
    const name: string
    /** The module-level registry `register()` and `unregister()` change. */
    const registry: ClientRegistry
    const global: ClientGlobal
    /** `#ipcRendererEventListeners` */
    var bindings: map<string, RawListener>
    /** `#eventsListeners` */
    var lists: map<string, seq<Entry>>

    constructor (name: string, registry: ClientRegistry, global: ClientGlobal)
      requires !IsBlank(name)
      ensures this.name == name && this.registry == registry && this.global == global
      ensures bindings == map[] && lists == map[] && Valid()
    {
      this.name := name;
      this.registry := registry;
      this.global := global;
      bindings := map[];
      lists := map[];
    }

    /** `new IpcClientController(name)`: a blank name throws; otherwise the
        controller registers itself through the surface's `register` when
        that member is present. */
    static method Create(name: string, registry: ClientRegistry, global: ClientGlobal) returns (r: Result<IpcClientController, Exception>)
      modifies if global.surface.Some? then {global.surface.value.registry} else {}
      ensures r.Failure? <==> IsBlank(name)
      ensures r.Failure? ==> r.error == BlankName
      ensures r.Success? ==> fresh(r.value) && r.value.name == name && r.value.registry == registry && r.value.global == global
                              && r.value.bindings == map[] && r.value.lists == map[] && r.value.Valid()
      ensures global.surface.Some? ==>
                global.surface.value.registry.names ==
                  if r.Success? && global.surface.value.hasRegister then old(global.surface.value.registry.names) + {name}
                  else old(global.surface.value.registry.names)
    {
      if IsBlank(name) {
        return Failure(BlankName);
      }
      var c := new IpcClientController(name, registry, global);
      if global.surface.Some? && global.surface.value.hasRegister {
        global.surface.value.Register(name);
      }
      return Success(c);
    }

    function State(): Tables
      reads this`bindings, this`lists
    {
      Tables(bindings, lists)
    }

    /** Every event with entries has its raw listener bound. */
    ghost predicate Valid()
      reads this`bindings, this`lists
    {
      Multiplexer.Valid(State())
    }

    function Renderer(): IpcRenderer
      requires global.surface.Some?
      reads global
    {
      global.surface.value.ipc
    }

    function RendererFrame(): set<object>
      reads global
    {
      if global.surface.Some? then {global.surface.value.ipc} else {}
    }

    function RegistryFrame(): set<object>
      reads global
    {
      if global.surface.Some? then {global.surface.value.registry} else {}
    }

    /** Whether the surface lets this controller through. */
    predicate Reachable()
      reads global, RegistryFrame()
    {
      global.surface.Some? && name in global.surface.value.registry.names
    }

    /** What a surface call throws when the controller cannot get through. */
    function TransportError(op: string): Exception
      reads global
    {
      if global.surface.None? then GlobalMissing else NotRegistered(op, name)
    }

    function DeliveryConfig(): Config
      reads global, RegistryFrame()
    {
      Config(KeepBinding, Lazy, Reachable())
    }

    function ClientEventChannel(event: string): string
    {
      ChannelGenerator(name, event, ClientEvent)
    }

    /** `#addEventListener(event, listener, once)` */
    method AddEventListener(event: string, listener: ListenerId, once: bool) returns (thrown: Option<Exception>)
      requires Valid()
      modifies this`bindings, this`lists, RendererFrame()
      ensures Valid()
      ensures thrown.Some? <==> event !in old(bindings) && !Reachable()
      ensures thrown.Some? ==> thrown.value == TransportError("on") && State() == old(State())
      ensures thrown.None? ==> event in bindings && State() == Add(old(State()), event, Entry(listener, once), bindings[event]).tables
      ensures global.surface.Some? ==>
                Renderer().listeners ==
                  if thrown.None? && event !in old(bindings) then
                    old(Renderer().listeners)[ClientEventChannel(event) :=
                      Attached(old(Renderer().listeners), ClientEventChannel(event)) + [bindings[event]]]
                  else old(Renderer().listeners)
      ensures thrown.None? && event !in old(bindings) ==> fresh(bindings[event]) && bindings[event].event == event
      ensures global.surface.Some? ==> Renderer().sent == old(Renderer().sent)
    {
      if event !in bindings {
        if global.surface.None? {
          return Some(GlobalMissing);
        }
        var raw := new RawListener(event);
        var t := global.surface.value.On(name, event, raw);
        if t.Some? {
          return t;
        }
        bindings := bindings[event := raw];
      }
      lists := lists[event := ListOf(State(), event) + [Entry(listener, once)]];
      return None;
    }

    /** `on(event, listener)` */
    method On(event: string, listener: ListenerId) returns (thrown: Option<Exception>)
      requires Valid()
      modifies this`bindings, this`lists, RendererFrame()
      ensures Valid()
      ensures thrown.Some? <==> event !in old(bindings) && !Reachable()
      ensures thrown.Some? ==> thrown.value == TransportError("on") && State() == old(State())
      ensures thrown.None? ==> event in bindings && State() == Add(old(State()), event, Entry(listener, false), bindings[event]).tables
      ensures global.surface.Some? ==>
                Renderer().listeners ==
                  if thrown.None? && event !in old(bindings) then
                    old(Renderer().listeners)[ClientEventChannel(event) :=
                      Attached(old(Renderer().listeners), ClientEventChannel(event)) + [bindings[event]]]
                  else old(Renderer().listeners)
      ensures thrown.None? && event !in old(bindings) ==> fresh(bindings[event]) && bindings[event].event == event
      ensures global.surface.Some? ==> Renderer().sent == old(Renderer().sent)
    {
      thrown := AddEventListener(event, listener, false);
    }

    /** `once(event, listener)` */
    method Once(event: string, listener: ListenerId) returns (thrown: Option<Exception>)
      requires Valid()
      modifies this`bindings, this`lists, RendererFrame()
      ensures Valid()
      ensures thrown.Some? <==> event !in old(bindings) && !Reachable()
      ensures thrown.Some? ==> thrown.value == TransportError("on") && State() == old(State())
      ensures thrown.None? ==> event in bindings && State() == Add(old(State()), event, Entry(listener, true), bindings[event]).tables
      ensures global.surface.Some? ==>
                Renderer().listeners ==
                  if thrown.None? && event !in old(bindings) then
                    old(Renderer().listeners)[ClientEventChannel(event) :=
                      Attached(old(Renderer().listeners), ClientEventChannel(event)) + [bindings[event]]]
                  else old(Renderer().listeners)
      ensures thrown.None? && event !in old(bindings) ==> fresh(bindings[event]) && bindings[event].event == event
      ensures global.surface.Some? ==> Renderer().sent == old(Renderer().sent)
    {
      thrown := AddEventListener(event, listener, true);
    }

    /** `off(event, listener?)`: removing the last entry takes the raw
        listener off the transport but keeps the binding entry. */
    method Off(event: string, listener: Option<ListenerId>) returns (thrown: Option<Exception>)
      requires Valid()
      modifies this`lists, RendererFrame()
      ensures Valid()
      ensures var s := Multiplexer.Off(old(State()), KeepBinding, event, listener);
              && (thrown.Some? <==> Blocked(DeliveryConfig(), s))
              && (thrown.Some? ==> thrown.value == TransportError("off") && State() == old(State()))
              && (thrown.None? ==> State() == s.tables)
              && (global.surface.Some? ==>
                    Renderer().listeners ==
                    if thrown.None? && s.detach.Some? then Detach(old(Renderer().listeners), ClientEventChannel(event), s.detach.value)
                    else old(Renderer().listeners))
      ensures global.surface.Some? ==> Renderer().sent == old(Renderer().sent)
    {
      var rest := Remaining(State(), event, listener);
      if rest == [] {
        if event in bindings {
          if global.surface.None? {
            return Some(GlobalMissing);
          }
          var t := global.surface.value.Off(name, event, bindings[event]);
          if t.Some? {
            return t;
          }
        }
        lists := lists - {event};
      } else {
        lists := lists[event := rest];
      }
      return None;
    }

    /** The tables and the transport during a delivery that started from
        `t0`, with the renderer then holding `listeners0` and `sent0`. */
    ghost predicate Follows(t0: Tables, listeners0: map<string, seq<RawListener>>, sent0: seq<Outgoing>,
                            event: string, detached: bool)
      reads this`bindings, this`lists, global, RendererFrame()
    {
      && (detached ==> event in t0.bindings)
      && bindings == t0.bindings
      && (global.surface.Some? ==> Renderer().sent == sent0)
      && (global.surface.Some? ==>
            Renderer().listeners ==
            if detached then Detach(listeners0, ClientEventChannel(event), t0.bindings[event]) else listeners0)
    }

    /** One `off` call made during a delivery, as `OffRun` describes it. */
    method DeliveryOff(event: string, listener: Option<ListenerId>, ghost cfg: Config, ghost t0: Tables,
                       ghost listeners0: map<string, seq<RawListener>>, ghost sent0: seq<Outgoing>, ghost r: Run)
      returns (thrown: Option<Exception>, ghost r': Run)
      requires cfg == DeliveryConfig()
      requires !r.escaped && r.tables == State() && Follows(t0, listeners0, sent0, event, r.detached)
      requires Valid()
      modifies this`lists, RendererFrame()
      ensures Valid()
      ensures r' == OffRun(r, cfg, event, listener, true)
      ensures thrown.Some? == r'.escaped
      ensures State() == r'.tables && Follows(t0, listeners0, sent0, event, r'.detached)
    {
      if global.surface.Some? && r.detached {
        DetachIdempotent(listeners0, ClientEventChannel(event), t0.bindings[event]);
      }
      thrown := Off(event, listener);
      r' := OffRun(r, cfg, event, listener, true);
    }

    /** Calling one entry: a throw is swallowed, and an `off` it makes takes
        effect (or throws, swallowed too). */
    method CallEntry(event: string, item: Entry, react: ListenerId -> Reaction, ghost cfg: Config, ghost t0: Tables,
                     ghost listeners0: map<string, seq<RawListener>>, ghost sent0: seq<Outgoing>, ghost done: seq<Entry>, ghost run: Run)
      returns (ghost run': Run)
      requires cfg == DeliveryConfig()
      requires run == React(Run(t0, false, false), cfg, event, done, react)
      requires !run.escaped && State() == run.tables && Follows(t0, listeners0, sent0, event, run.detached)
      requires Valid()
      modifies this`lists, RendererFrame()
      ensures Valid()
      ensures run' == React(Run(t0, false, false), cfg, event, done + [item], react)
      ensures !run'.escaped && State() == run'.tables && Follows(t0, listeners0, sent0, event, run'.detached)
    {
      ReactStep(Run(t0, false, false), cfg, event, done, item, react);
      run' := run;
      match react(item.listener) {
        case CallsOff(l) =>
          var ignored: Option<Exception>;
          ghost var r': Run;
          ignored, r' := DeliveryOff(event, l, cfg, t0, listeners0, sent0, run);
          run' := Run(r'.tables, r'.detached, false);
        case _ =>
      }
    }

    /** The `filter` pass of a delivery: call each entry of the snapshot in
        order, collecting the `once` entries. */
    method CallListeners(event: string, snapshot: seq<Entry>, react: ListenerId -> Reaction, ghost cfg: Config, ghost t0: Tables,
                         ghost listeners0: map<string, seq<RawListener>>, ghost sent0: seq<Outgoing>)
      returns (called: seq<ListenerId>, onces: seq<Entry>, ghost run: Run)
      requires cfg == DeliveryConfig()
      requires State() == t0 && Follows(t0, listeners0, sent0, event, false)
      requires Valid()
      modifies this`lists, RendererFrame()
      ensures Valid()
      ensures called == Listeners(snapshot) && onces == OnceEntries(snapshot)
      ensures run == React(Run(t0, false, false), cfg, event, snapshot, react)
      ensures State() == run.tables && Follows(t0, listeners0, sent0, event, run.detached)
    {
      called, onces := [], [];
      run := Run(t0, false, false);
      var i := 0;
      while i < |snapshot|
        invariant 0 <= i <= |snapshot|
        invariant called == Listeners(snapshot[..i])
        invariant onces == OnceEntries(snapshot[..i])
        invariant run == React(Run(t0, false, false), cfg, event, snapshot[..i], react)
        invariant !run.escaped && State() == run.tables && Valid() && Follows(t0, listeners0, sent0, event, run.detached)
      {
        var item := snapshot[i];
        assert snapshot[..i + 1] == snapshot[..i] + [item];
        called := called + [item.listener];
        if item.once {
          onces := onces + [item];
        }
        run := CallEntry(event, item, react, cfg, t0, listeners0, sent0, snapshot[..i], run);
        i := i + 1;
      }
      assert snapshot[..i] == snapshot;
    }

    /** `for (const item of onceListeners) this.off(event, item.listener)` */
    method RemoveOnceListeners(event: string, onces: seq<Entry>, ghost cfg: Config, ghost t0: Tables,
                               ghost listeners0: map<string, seq<RawListener>>, ghost sent0: seq<Outgoing>, ghost reacted: Run)
      returns (escaped: bool, ghost run: Run)
      requires cfg == DeliveryConfig()
      requires !reacted.escaped && State() == reacted.tables && Follows(t0, listeners0, sent0, event, reacted.detached)
      requires Valid()
      modifies this`lists, RendererFrame()
      ensures Valid()
      ensures run == RemoveOnce(reacted, cfg, event, onces) && escaped == run.escaped
      ensures State() == run.tables && Follows(t0, listeners0, sent0, event, run.detached)
    {
      escaped := false;
      run := reacted;
      var j := 0;
      while j < |onces| && !escaped
        invariant 0 <= j <= |onces|
        invariant run == RemoveOnce(reacted, cfg, event, onces[..j])
        invariant escaped == run.escaped
        invariant State() == run.tables && Valid() && Follows(t0, listeners0, sent0, event, run.detached)
      {
        assert onces[..j + 1] == onces[..j] + [onces[j]];
        RemoveOnceStep(reacted, cfg, event, onces[..j], onces[j]);
        var thrown;
        thrown, run := DeliveryOff(event, Some(onces[j].listener), cfg, t0, listeners0, sent0, run);
        escaped := thrown.Some?;
        j := j + 1;
      }
      RemoveOnceStops(reacted, cfg, event, onces, j);
    }

    /** `#ipcRendererEventListener(event, eventObj, ...args)`: no trust gate
        on this side; otherwise as the server's delivery. */
    method Dispatch(event: string, react: ListenerId -> Reaction) returns (called: seq<ListenerId>, escaped: bool)
      requires Valid()
      modifies this`lists, RendererFrame()
      ensures Valid()
      ensures var r := Deliver(old(State()), DeliveryConfig(), event, react);
              && called == Listeners(ListOf(old(State()), event))
              && State() == r.tables && escaped == r.escaped
              && (r.detached ==> event in old(bindings))
              && (global.surface.Some? ==>
                    Renderer().listeners ==
                    (if r.detached then Detach(old(Renderer().listeners), ClientEventChannel(event), old(bindings)[event])
                     else old(Renderer().listeners)))
      ensures global.surface.Some? ==> Renderer().sent == old(Renderer().sent)
    {
      ghost var t0 := State();
      ghost var listeners0 := if global.surface.Some? then Renderer().listeners else map[];
      ghost var sent0 := if global.surface.Some? then Renderer().sent else [];
      ghost var cfg := DeliveryConfig();
      var snapshot := ListOf(State(), event);
      var onces;
      ghost var reacted, run;
      called, onces, reacted := CallListeners(event, snapshot, react, cfg, t0, listeners0, sent0);
      escaped, run := RemoveOnceListeners(event, onces, cfg, t0, listeners0, sent0, reacted);
      assert run == Deliver(t0, cfg, event, react);
    }

    /** `invoke(name, ...args)`: the request goes through the surface; the
        main process's reply envelope then resolves to its value or rejects
        with the deserialized error. */
    method Invoke(op: string, args: seq<Value>, reply: Envelope, codec: ErrorHandler) returns (r: Result<Value, Exception>)
      modifies RendererFrame()
      ensures !Reachable() ==> r == Failure(TransportError("invoke"))
      ensures Reachable() ==> r == Unwrap(reply, codec)
      ensures global.surface.Some? ==>
                Renderer().sent ==
                  if Reachable() then old(Renderer().sent) + [InvokeMessage(ChannelGenerator(name, op, ChannelType.Invoke), args)]
                  else old(Renderer().sent)
      ensures global.surface.Some? ==> Renderer().listeners == old(Renderer().listeners)
    {
      if global.surface.None? {
        return Failure(GlobalMissing);
      }
      var t := global.surface.value.Invoke(name, op, args);
      if t.Some? {
        return Failure(t.value);
      }
      return Unwrap(reply, codec);
    }

    /** `send(event, ...args)` */
    method Send(event: string, args: seq<Value>) returns (thrown: Option<Exception>)
      modifies RendererFrame()
      ensures thrown.Some? <==> !Reachable()
      ensures thrown.Some? ==> thrown.value == TransportError("send")
      ensures global.surface.Some? ==>
                Renderer().sent ==
                  if thrown.None? then old(Renderer().sent) + [SendMessage(ChannelGenerator(name, event, ServerEvent), args)]
                  else old(Renderer().sent)
      ensures global.surface.Some? ==> Renderer().listeners == old(Renderer().listeners)
    {
      if global.surface.None? {
        return Some(GlobalMissing);
      }
      thrown := global.surface.value.Send(name, event, args);
    }

    /** `register()`: no blank check here. */
    method Register()
      modifies registry
      ensures registry.names == old(registry.names) + {name}
    {
      registry.names := registry.names + {name};
    }

    /** `unregister()` */
    method Unregister()
      modifies registry
      ensures registry.names == old(registry.names) - {name}
    {
      registry.names := registry.names - {name};
    }
  }
}
