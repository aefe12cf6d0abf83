/**
 * `IpcController` (src/IpcController.ts), the older single-class
 * controller: the main-process half answers invocations and multiplexes
 * renderer events through the static `ipcMain`, behind a trust handler;
 * the renderer half invokes and sends through the global surface that
 * `preloadInit` exposes, which refuses controllers missing from the
 * registry. Every main-process operation checks `ipcMain` before anything
 * else.
 */
module Legacy {
  import opened Common
  import opened Transport
  import opened Multiplexer
  import Broadcast

  const BlankName: Exception := SyntaxError("IpcController: \"name\" cannot be an empty string.")

  /** `ipcMainIsNull`: the check every main-process operation starts with. */
  const IpcMainNull: Exception := TypeError("IpcController: ipcMain is null.")

  const GlobalMissing: Exception :=
    TypeError("IpcController: Can't find the \"globalThis.$IpcController\", Forgot to use \"preloadInit\" in the preload script?")

  /** The error a blocked invocation rejects with, before serialization (the
      colon is U+FF1A, as written in the source). */
  const BlockedError: Value := ErrorObject("Error", "InvokeController\U{FF1A}Blocked by trust handler")

  const GlobalKey: string := "$IpcController"

  const LegacyPrefix: string := "IpcController:"
  const EventSuffix: string := ":event"
  const InvokeSuffix: string := ":invoke"

  /** `channelGenerator(controller, name)` of this file. */
  function LegacyChannel(controller: string, name: string): (ch: string)
    ensures |ch| == |LegacyPrefix| + |controller| + 1 + |name|
    ensures ch[..|LegacyPrefix|] == LegacyPrefix
    ensures ch[|LegacyPrefix|..] == controller + ":" + name
  {
    LegacyPrefix + controller + ":" + name
  }

  function EventChannel(controller: string, event: string): string
  {
    LegacyChannel(controller, event) + EventSuffix
  }

  function InvokeChannel(controller: string, op: string): string
  {
    LegacyChannel(controller, op) + InvokeSuffix
  }

  /** An event channel is never an invoke channel: the suffixes end differently. */
  lemma EventInvokeApart(c1: string, e1: string, c2: string, op: string)
    ensures EventChannel(c1, e1) != InvokeChannel(c2, op)
  {
    var ev, inv := EventChannel(c1, e1), InvokeChannel(c2, op);
    assert ev[|ev| - 1] == 't';
    assert inv[|inv| - 1] == 'e';
  }

  /** With a fixed suffix, a channel determines the controller and the name
      when controller names contain no `:`. */
  lemma LegacyChannelInjective(c1: string, n1: string, c2: string, n2: string, suffix: string)
    requires ':' !in c1 && ':' !in c2
    requires LegacyChannel(c1, n1) + suffix == LegacyChannel(c2, n2) + suffix
    ensures c1 == c2 && n1 == n2
  {
    var ch1, ch2 := LegacyChannel(c1, n1), LegacyChannel(c2, n2);
    assert ch1 == (ch1 + suffix)[..|ch1 + suffix| - |suffix|] == (ch2 + suffix)[..|ch2 + suffix| - |suffix|] == ch2;
    assert c1 + ":" + n1 == ch1[|LegacyPrefix|..] == ch2[|LegacyPrefix|..] == c2 + ":" + n2;
    SplitAtSeparator(":", c1, n1, c2, n2);
  }

  /** The constructor does not refuse `:` in a name, and two different
      controller/event pairs then share an event channel. */
  lemma LegacyChannelCollision()
    ensures EventChannel("a:b", "c") == EventChannel("a", "b:c")
  {
  }

  /** The legacy channels never meet the broadcast channels nor the channels
      of the server and client controllers. */
  lemma LegacyChannelsApart(c1: string, n1: string, suffix: string, c2: string, n2: string, t: ChannelType)
    ensures LegacyChannel(c1, n1) + suffix != Broadcast.BroadcastChannel(c2, n2)
    ensures LegacyChannel(c1, n1) + suffix != ChannelGenerator(c2, n2, t)
  {
    var ch := LegacyChannel(c1, n1) + suffix;
    assert ch[3] == LegacyPrefix[3] == 'C';
    assert Broadcast.BroadcastChannel(c2, n2)[3] == Broadcast.BroadcastPrefix[3] == 'B';
    assert ChannelGenerator(c2, n2, t)[0] == ChannelPrefix[0] == '$';
  }

  /** `#tryPromise(result)`: follows a chain of promises down to the value
      or rejection at its end. */
  function TryPromise(c: Completion): (r: Completion)
    ensures !r.Pending?
    ensures Settle(r) == Settle(c)
  {
    match c
    case Pending(next) => TryPromise(next)
    case _ => c
  }

  /** However deeply the handler's value is nested in promises, `#tryPromise`
      reaches the innermost one. */
  lemma {:induction false} TryPromiseNest(depth: nat, leaf: Completion)
    requires !leaf.Pending?
    ensures TryPromise(Nest(depth, leaf)) == leaf
  {
    if depth > 0 {
      TryPromiseNest(depth - 1, leaf);
    }
  }

  /** The static members: `IpcController.ipcMain` and the shared
      `TrustHandler` the instances fall back on. */
  class LegacyDefaults {
    var ipcMain: Option<IpcMain>
    var trustHandler: TrustHandler

    constructor (trustHandler: TrustHandler)
      ensures ipcMain.None? && this.trustHandler == trustHandler
    {
      ipcMain := None;
      this.trustHandler := trustHandler;
    }
  }

  /** `IpcControllerRegistered` */
  class LegacyRegistry {
    var names: set<string>

    constructor ()
      ensures names == {}
    {
      names := {};
    }
  }

  /** The object `preloadInit` exposes as `$IpcController`. */
  class LegacySurface {
    const registry: LegacyRegistry
    const ipc: IpcRenderer
    /** `register` is deleted from the surface unless `autoRegister` was set. */
    const hasRegister: bool

    constructor (registry: LegacyRegistry, ipc: IpcRenderer, hasRegister: bool)
      ensures this.registry == registry && this.ipc == ipc && this.hasRegister == hasRegister
    {
      this.registry := registry;
      this.ipc := ipc;
      this.hasRegister := hasRegister;
    }

    /** `invoke(controllerName, name, ...args)`: refuses an unregistered
        controller before sending; the reply's status decides between the
        value and the deserialized error. */
    method Invoke(controller: string, op: string, args: seq<Value>, reply: Envelope, codec: ErrorHandler)
      returns (r: Result<Value, Exception>)
      modifies ipc
      ensures controller !in registry.names ==> r == Failure(NotRegistered("invoke", controller)) && ipc.sent == old(ipc.sent)
      ensures controller in registry.names ==>
                r == Unwrap(reply, codec) && ipc.sent == old(ipc.sent) + [InvokeMessage(InvokeChannel(controller, op), args)]
      ensures ipc.listeners == old(ipc.listeners)
    {
      if controller !in registry.names {
        return Failure(NotRegistered("invoke", controller));
      }
      ipc.Invoke(InvokeChannel(controller, op), args);
      return Unwrap(reply, codec);
    }

    /** `register(name)`: adds a non-blank name. */
    method Register(name: string)
      requires hasRegister
      modifies registry
      ensures registry.names == if IsBlank(name) then old(registry.names) else old(registry.names) + {name}
    {
      if !IsBlank(name) && name !in registry.names {
        registry.names := registry.names + {name};
      }
    }

    /** `send(controllerName, name, ...args)` */
    method Send(controller: string, event: string, args: seq<Value>) returns (thrown: Option<Exception>)
      modifies ipc
      ensures thrown.Some? <==> controller !in registry.names
      ensures thrown.Some? ==> thrown.value == NotRegistered("send", controller) && ipc.sent == old(ipc.sent)
      ensures thrown.None? ==> ipc.sent == old(ipc.sent) + [SendMessage(EventChannel(controller, event), args)]
      ensures ipc.listeners == old(ipc.listeners)
    {
      if controller !in registry.names {
        return Some(NotRegistered("send", controller));
      }
      ipc.Send(EventChannel(controller, event), args);
      return None;
    }
  }

  /** The `$IpcController` slot of the renderer's main world. */
  class LegacyGlobal {
    var surface: Option<LegacySurface>

    constructor ()
      ensures surface.None?
    {
      surface := None;
    }
  }

  /** `preloadInit(contextBridge, ipcRenderer, autoRegister)`: builds the
      surface and exposes it in the main world. */
  method PreloadInit(global: LegacyGlobal, ipc: IpcRenderer, registry: LegacyRegistry, autoRegister: bool)
    modifies global
    ensures global.surface.Some? && fresh(global.surface.value)
    ensures global.surface.value.ipc == ipc && global.surface.value.registry == registry
    ensures global.surface.value.hasRegister <==> autoRegister
  {
    var api := new LegacySurface(registry, ipc, autoRegister);
    global.surface := Some(api);
  }

  class IpcController {
    const name: string
    const defaults: LegacyDefaults
    const registry: LegacyRegistry
    const global: LegacyGlobal
    var trustHandler: Option<TrustHandler>
    /** `#ipcMainEventListeners` */
    var bindings: map<string, RawListener>
    /** `#eventsListeners` */
    var lists: map<string, seq<Entry>>

    constructor (name: string, defaults: LegacyDefaults, registry: LegacyRegistry, global: LegacyGlobal)
      requires !IsBlank(name)
      ensures this.name == name && this.defaults == defaults && this.registry == registry && this.global == global
      ensures trustHandler.None? && bindings == map[] && lists == map[] && Valid()
    {
      this.name := name;
      this.defaults := defaults;
      this.registry := registry;
      this.global := global;
      trustHandler := None;
      bindings := map[];
      lists := map[];
    }

    /** `new IpcController(name)`: a blank name throws; otherwise the
        controller registers itself through the global surface's `register`
        when that member is present. */
    static method Create(name: string, defaults: LegacyDefaults, registry: LegacyRegistry, global: LegacyGlobal)
      returns (r: Result<IpcController, Exception>)
      modifies if global.surface.Some? then {global.surface.value.registry} else {}
      ensures r.Failure? <==> IsBlank(name)
      ensures r.Failure? ==> r.error == BlankName
      ensures r.Success? ==> fresh(r.value) && r.value.name == name && r.value.defaults == defaults
                              && r.value.registry == registry && r.value.global == global
                              && r.value.bindings == map[] && r.value.lists == map[] && r.value.Valid()
                              && r.value.trustHandler.None?
      ensures global.surface.Some? ==>
                global.surface.value.registry.names ==
                  if r.Success? && global.surface.value.hasRegister then old(global.surface.value.registry.names) + {name}
                  else old(global.surface.value.registry.names)
    {
      if IsBlank(name) {
        return Failure(BlankName);
      }
      var c := new IpcController(name, defaults, registry, global);
      if global.surface.Some? && global.surface.value.hasRegister {
        global.surface.value.Register(name);
      }
      return Success(c);
    }

    function State(): Tables
      reads this`bindings, this`lists
    {
      Tables(bindings, lists)
    }

    /** Every event with entries has its raw listener bound. */
    ghost predicate Valid()
      reads this`bindings, this`lists
    {
      Multiplexer.Valid(State())
    }

    function IpcFrame(): set<object>
      reads defaults`ipcMain
    {
      if defaults.ipcMain.Some? then {defaults.ipcMain.value} else {}
    }

    function Trust(): TrustHandler
      reads this`trustHandler, defaults`trustHandler
    {
      if trustHandler.Some? then trustHandler.value else defaults.trustHandler
    }

    /** Every `off`, even one with nothing to detach, needs `ipcMain`. */
    function DeliveryConfig(): Config
      reads defaults`ipcMain
    {
      Config(KeepBinding, Eager, defaults.ipcMain.Some?)
    }

    function Renderer(): IpcRenderer
      requires global.surface.Some?
      reads global
    {
      global.surface.value.ipc
    }

    function RendererFrame(): set<object>
      reads global
    {
      if global.surface.Some? then {global.surface.value.ipc} else {}
    }

    function RegistryFrame(): set<object>
      reads global
    {
      if global.surface.Some? then {global.surface.value.registry} else {}
    }

    /** Whether the renderer's surface lets this controller through. */
    predicate Reachable()
      reads global, RegistryFrame()
    {
      global.surface.Some? && name in global.surface.value.registry.names
    }

    function TransportError(op: string): Exception
      reads global
    {
      if global.surface.None? then GlobalMissing else NotRegistered(op, name)
    }

    /** `#addEventListener(event, listener, once)`: `ipcMain` is checked first. */
    method AddEventListener(event: string, listener: ListenerId, once: bool) returns (thrown: Option<Exception>)
      requires Valid()
      modifies this`bindings, this`lists, IpcFrame()
      ensures Valid()
      ensures thrown.Some? <==> defaults.ipcMain.None?
      ensures thrown.Some? ==> thrown.value == IpcMainNull && State() == old(State())
      ensures thrown.None? ==> event in bindings && State() == Add(old(State()), event, Entry(listener, once), bindings[event]).tables
      ensures thrown.None? ==>
                var ipc := defaults.ipcMain.value;
                && ipc.handlers == old(ipc.handlers)
                && ipc.listeners ==
                   if event in old(bindings) then old(ipc.listeners)
                   else old(ipc.listeners)[EventChannel(name, event) :=
                          Attached(old(ipc.listeners), EventChannel(name, event)) + [bindings[event]]]
      ensures thrown.None? && event !in old(bindings) ==> fresh(bindings[event]) && bindings[event].event == event
    {
      if defaults.ipcMain.None? {
        return Some(IpcMainNull);
      }
      var ipc := defaults.ipcMain.value;
      if event !in bindings {
        var raw := new RawListener(event);
        ipc.On(EventChannel(name, event), raw);
        bindings := bindings[event := raw];
      }
      lists := lists[event := ListOf(State(), event) + [Entry(listener, once)]];
      return None;
    }

    /** `on(event, listener)` */
    method On(event: string, listener: ListenerId) returns (thrown: Option<Exception>)
      requires Valid()
      modifies this`bindings, this`lists, IpcFrame()
      ensures Valid()
      ensures thrown.Some? <==> defaults.ipcMain.None?
      ensures thrown.Some? ==> thrown.value == IpcMainNull && State() == old(State())
      ensures thrown.None? ==> event in bindings && State() == Add(old(State()), event, Entry(listener, false), bindings[event]).tables
      ensures thrown.None? ==>
                var ipc := defaults.ipcMain.value;
                && ipc.handlers == old(ipc.handlers)
                && ipc.listeners ==
                   if event in old(bindings) then old(ipc.listeners)
                   else old(ipc.listeners)[EventChannel(name, event) :=
                          Attached(old(ipc.listeners), EventChannel(name, event)) + [bindings[event]]]
      ensures thrown.None? && event !in old(bindings) ==> fresh(bindings[event]) && bindings[event].event == event
    {
      thrown := AddEventListener(event, listener, false);
    }

    /** `once(event, listener)` */
    method Once(event: string, listener: ListenerId) returns (thrown: Option<Exception>)
      requires Valid()
      modifies this`bindings, this`lists, IpcFrame()
      ensures Valid()
      ensures thrown.Some? <==> defaults.ipcMain.None?
      ensures thrown.Some? ==> thrown.value == IpcMainNull && State() == old(State())
      ensures thrown.None? ==> event in bindings && State() == Add(old(State()), event, Entry(listener, true), bindings[event]).tables
      ensures thrown.None? ==>
                var ipc := defaults.ipcMain.value;
                && ipc.handlers == old(ipc.handlers)
                && ipc.listeners ==
                   if event in old(bindings) then old(ipc.listeners)
                   else old(ipc.listeners)[EventChannel(name, event) :=
                          Attached(old(ipc.listeners), EventChannel(name, event)) + [bindings[event]]]
      ensures thrown.None? && event !in old(bindings) ==> fresh(bindings[event]) && bindings[event].event == event
    {
      thrown := AddEventListener(event, listener, true);
    }

    /** `off(event, listener?)`: `ipcMain` is checked first; removing the
        last entry detaches the raw listener but keeps the binding entry. */
    method Off(event: string, listener: Option<ListenerId>) returns (thrown: Option<Exception>)
      requires Valid()
      modifies this`lists, IpcFrame()
      ensures Valid()
      ensures var s := Multiplexer.Off(old(State()), KeepBinding, event, listener);
              && (thrown.Some? <==> Blocked(DeliveryConfig(), s))
              && (thrown.Some? ==> thrown.value == IpcMainNull && State() == old(State()))
              && (thrown.None? ==> State() == s.tables)
              && (defaults.ipcMain.Some? ==>
                    var ipc := defaults.ipcMain.value;
                    && ipc.handlers == old(ipc.handlers)
                    && ipc.listeners ==
                       if s.detach.Some? then Detach(old(ipc.listeners), EventChannel(name, event), s.detach.value)
                       else old(ipc.listeners))
    {
      if defaults.ipcMain.None? {
        return Some(IpcMainNull);
      }
      var ipc := defaults.ipcMain.value;
      var rest := Remaining(State(), event, listener);
      if rest == [] {
        if event in bindings {
          ipc.RemoveListener(EventChannel(name, event), bindings[event]);
        }
        lists := lists - {event};
      } else {
        lists := lists[event := rest];
      }
      return None;
    }

    /** `#handle(channel, name, passEvent, func, event, ...args)`: the trust
        handler decides first (a throw from it counts as a refusal); then the
        handler's value, followed through `#tryPromise`, becomes a result,
        and its throw or rejection a serialized error. */
    function HandleInvoke(b: InvokeBinding, event: Value, args: seq<Value>, codec: ErrorHandler): (r: Invocation)
      reads this`trustHandler, defaults`trustHandler
      ensures r.handlerRan <==> Trust()(name, b.name, InvokeOperation, event) == Trusted
      ensures r.reply.tag == ResultTag <==>
                r.handlerRan && Settle(b.handler(CallArguments(b.passEvent, event, args))).Fulfilled?
      ensures r.reply.tag == ResultTag ==> r.reply.value == Settle(b.handler(CallArguments(b.passEvent, event, args))).value
      ensures r.reply.tag == ErrorTag ==>
                r.reply.value == codec.serialize(if r.handlerRan then Settle(b.handler(CallArguments(b.passEvent, event, args))).reason
                                                 else BlockedError)
    {
      if Trust()(name, b.name, InvokeOperation, event) != Trusted then
        Invocation(Envelope(ErrorTag, codec.serialize(BlockedError)), false)
      else
        var settled := TryPromise(b.handler(CallArguments(b.passEvent, event, args)));
        if settled.Return? then Invocation(Envelope(ResultTag, settled.value), true)
        else Invocation(Envelope(ErrorTag, codec.serialize(settled.error)), true)
    }

    /** `handle(name, handler)` */
    method Handle(op: string, handler: Handler) returns (thrown: Option<Exception>)
      modifies IpcFrame()
      ensures thrown.Some? <==> defaults.ipcMain.None?
      ensures thrown.Some? ==> thrown.value == IpcMainNull
      ensures thrown.None? ==>
                var ipc := defaults.ipcMain.value;
                && ipc.handlers == old(ipc.handlers)[InvokeChannel(name, op) := InvokeBinding(op, false, handler)]
                && ipc.listeners == old(ipc.listeners)
    {
      if defaults.ipcMain.None? {
        return Some(IpcMainNull);
      }
      defaults.ipcMain.value.Handle(InvokeChannel(name, op), InvokeBinding(op, false, handler));
      return None;
    }

    /** `handleWithEvent(name, handler)`: as `handle`, passing the event object first. */
    method HandleWithEvent(op: string, handler: Handler) returns (thrown: Option<Exception>)
      modifies IpcFrame()
      ensures thrown.Some? <==> defaults.ipcMain.None?
      ensures thrown.Some? ==> thrown.value == IpcMainNull
      ensures thrown.None? ==>
                var ipc := defaults.ipcMain.value;
                && ipc.handlers == old(ipc.handlers)[InvokeChannel(name, op) := InvokeBinding(op, true, handler)]
                && ipc.listeners == old(ipc.listeners)
    {
      if defaults.ipcMain.None? {
        return Some(IpcMainNull);
      }
      defaults.ipcMain.value.Handle(InvokeChannel(name, op), InvokeBinding(op, true, handler));
      return None;
    }

    ghost predicate Follows(t0: Tables, listeners0: map<string, seq<RawListener>>, handlers0: map<string, InvokeBinding>,
                            event: string, detached: bool)
      reads this`bindings, this`lists, defaults`ipcMain, IpcFrame()
    {
      && (detached ==> event in t0.bindings)
      && bindings == t0.bindings
      && (defaults.ipcMain.Some? ==> defaults.ipcMain.value.handlers == handlers0)
      && (defaults.ipcMain.Some? ==>
            defaults.ipcMain.value.listeners ==
            if detached then Detach(listeners0, EventChannel(name, event), t0.bindings[event]) else listeners0)
    }

    method DeliveryOff(event: string, listener: Option<ListenerId>, ghost cfg: Config, ghost t0: Tables,
                       ghost listeners0: map<string, seq<RawListener>>, ghost handlers0: map<string, InvokeBinding>, ghost r: Run)
      returns (thrown: Option<Exception>, ghost r': Run)
      requires cfg == DeliveryConfig()
      requires !r.escaped && r.tables == State() && Follows(t0, listeners0, handlers0, event, r.detached)
      requires Valid()
      modifies this`lists, IpcFrame()
      ensures Valid()
      ensures r' == OffRun(r, cfg, event, listener, true)
      ensures thrown.Some? == r'.escaped
      ensures State() == r'.tables && Follows(t0, listeners0, handlers0, event, r'.detached)
    {
      if defaults.ipcMain.Some? && r.detached {
        DetachIdempotent(listeners0, EventChannel(name, event), t0.bindings[event]);
      }
      thrown := Off(event, listener);
      r' := OffRun(r, cfg, event, listener, true);
    }

    method CallEntry(event: string, item: Entry, react: ListenerId -> Reaction, ghost cfg: Config, ghost t0: Tables,
                     ghost listeners0: map<string, seq<RawListener>>, ghost handlers0: map<string, InvokeBinding>, ghost done: seq<Entry>, ghost run: Run)
      returns (ghost run': Run)
      requires cfg == DeliveryConfig()
      requires run == React(Run(t0, false, false), cfg, event, done, react)
      requires !run.escaped && State() == run.tables && Follows(t0, listeners0, handlers0, event, run.detached)
      requires Valid()
      modifies this`lists, IpcFrame()
      ensures Valid()
      ensures run' == React(Run(t0, false, false), cfg, event, done + [item], react)
      ensures !run'.escaped && State() == run'.tables && Follows(t0, listeners0, handlers0, event, run'.detached)
    {
      ReactStep(Run(t0, false, false), cfg, event, done, item, react);
      run' := run;
      match react(item.listener) {
        case CallsOff(l) =>
          var ignored: Option<Exception>;
          ghost var r': Run;
          ignored, r' := DeliveryOff(event, l, cfg, t0, listeners0, handlers0, run);
          run' := Run(r'.tables, r'.detached, false);
        case _ =>
      }
    }

    method CallListeners(event: string, snapshot: seq<Entry>, react: ListenerId -> Reaction, ghost cfg: Config, ghost t0: Tables,
                         ghost listeners0: map<string, seq<RawListener>>, ghost handlers0: map<string, InvokeBinding>)
      returns (called: seq<ListenerId>, onces: seq<Entry>, ghost run: Run)
      requires cfg == DeliveryConfig()
      requires State() == t0 && Follows(t0, listeners0, handlers0, event, false)
      requires Valid()
      modifies this`lists, IpcFrame()
      ensures Valid()
      ensures called == Listeners(snapshot) && onces == OnceEntries(snapshot)
      ensures run == React(Run(t0, false, false), cfg, event, snapshot, react)
      ensures State() == run.tables && Follows(t0, listeners0, handlers0, event, run.detached)
    {
      called, onces := [], [];
      run := Run(t0, false, false);
      var i := 0;
      while i < |snapshot|
        invariant 0 <= i <= |snapshot|
        invariant called == Listeners(snapshot[..i])
        invariant onces == OnceEntries(snapshot[..i])
        invariant run == React(Run(t0, false, false), cfg, event, snapshot[..i], react)
        invariant !run.escaped && State() == run.tables && Valid() && Follows(t0, listeners0, handlers0, event, run.detached)
      {
        var item := snapshot[i];
        assert snapshot[..i + 1] == snapshot[..i] + [item];
        called := called + [item.listener];
        if item.once {
          onces := onces + [item];
        }
        run := CallEntry(event, item, react, cfg, t0, listeners0, handlers0, snapshot[..i], run);
        i := i + 1;
      }
      assert snapshot[..i] == snapshot;
    }

    /** `onceListeners.forEach((item) => this.off(name, item.listener))` */
    method RemoveOnceListeners(event: string, onces: seq<Entry>, ghost cfg: Config, ghost t0: Tables,
                               ghost listeners0: map<string, seq<RawListener>>, ghost handlers0: map<string, InvokeBinding>,
                               ghost reacted: Run)
      returns (escaped: bool, ghost run: Run)
      requires cfg == DeliveryConfig()
      requires !reacted.escaped && State() == reacted.tables && Follows(t0, listeners0, handlers0, event, reacted.detached)
      requires Valid()
      modifies this`lists, IpcFrame()
      ensures Valid()
      ensures run == RemoveOnce(reacted, cfg, event, onces) && escaped == run.escaped
      ensures State() == run.tables && Follows(t0, listeners0, handlers0, event, run.detached)
    {
      escaped := false;
      run := reacted;
      var j := 0;
      while j < |onces| && !escaped
        invariant 0 <= j <= |onces|
        invariant run == RemoveOnce(reacted, cfg, event, onces[..j])
        invariant escaped == run.escaped
        invariant State() == run.tables && Valid() && Follows(t0, listeners0, handlers0, event, run.detached)
      {
        assert onces[..j + 1] == onces[..j] + [onces[j]];
        escaped, run := RemoveOneOnce(event, onces[..j], onces[j], cfg, t0, listeners0, handlers0, reacted, run);
        j := j + 1;
      }
      RemoveOnceStops(reacted, cfg, event, onces, j);
    }

    /** One step of that pass: `off` for one `once` entry. */
    method RemoveOneOnce(event: string, done: seq<Entry>, item: Entry, ghost cfg: Config, ghost t0: Tables,
                         ghost listeners0: map<string, seq<RawListener>>, ghost handlers0: map<string, InvokeBinding>,
                         ghost reacted: Run, ghost run: Run)
      returns (escaped: bool, ghost run': Run)
      requires cfg == DeliveryConfig()
      requires run == RemoveOnce(reacted, cfg, event, done) && !run.escaped
      requires State() == run.tables && Follows(t0, listeners0, handlers0, event, run.detached)
      requires Valid()
      modifies this`lists, IpcFrame()
      ensures Valid()
      ensures run' == RemoveOnce(reacted, cfg, event, done + [item]) && escaped == run'.escaped
      ensures State() == run'.tables && Follows(t0, listeners0, handlers0, event, run'.detached)
    {
      RemoveOnceStep(reacted, cfg, event, done, item);
      var thrown;
      thrown, run' := DeliveryOff(event, Some(item.listener), cfg, t0, listeners0, handlers0, run);
      escaped := thrown.Some?;
    }

    /** A delivery that passed the trust gate, as in the other controllers;
        here every `off` of it needs `ipcMain`. */
    method DeliverTrusted(event: string, react: ListenerId -> Reaction) returns (called: seq<ListenerId>, escaped: bool)
      requires Valid()
      modifies this`lists, IpcFrame()
      ensures Valid()
      ensures var r := Deliver(old(State()), DeliveryConfig(), event, react);
              && called == Listeners(ListOf(old(State()), event))
              && State() == r.tables && escaped == r.escaped
              && (r.detached ==> event in old(bindings))
              && (defaults.ipcMain.Some? ==>
                    defaults.ipcMain.value.listeners ==
                    (if r.detached then Detach(old(defaults.ipcMain.value.listeners), EventChannel(name, event), old(bindings)[event])
                     else old(defaults.ipcMain.value.listeners)))
      ensures defaults.ipcMain.Some? ==> defaults.ipcMain.value.handlers == old(defaults.ipcMain.value.handlers)
    {
      ghost var t0 := State();
      ghost var listeners0 := if defaults.ipcMain.Some? then defaults.ipcMain.value.listeners else map[];
      ghost var handlers0 := if defaults.ipcMain.Some? then defaults.ipcMain.value.handlers else map[];
      ghost var cfg := DeliveryConfig();
      var snapshot := ListOf(State(), event);
      var onces;
      ghost var reacted, run;
      called, onces, reacted := CallListeners(event, snapshot, react, cfg, t0, listeners0, handlers0);
      escaped, run := RemoveOnceListeners(event, onces, cfg, t0, listeners0, handlers0, reacted);
      assert run == Deliver(t0, cfg, event, react);
      assert cfg == DeliveryConfig() && t0 == old(State());
    }

    /** `#ipcMainEventListener(channel, name, event, ...args)`: the trust
        handler decides first (a throw from it counts as a refusal); a trusted
        event is delivered, an untrusted one changes nothing. */
    method Dispatch(event: string, eventObj: Value, react: ListenerId -> Reaction) returns (called: seq<ListenerId>, escaped: bool)
      requires Valid()
      modifies this`lists, IpcFrame()
      ensures Valid()
      ensures Trust()(name, event, EventOperation, eventObj) != Trusted ==>
                called == [] && !escaped && State() == old(State())
                && (defaults.ipcMain.Some? ==> defaults.ipcMain.value.listeners == old(defaults.ipcMain.value.listeners))
      ensures Trust()(name, event, EventOperation, eventObj) == Trusted ==>
                var r := Deliver(old(State()), DeliveryConfig(), event, react);
                && called == Listeners(ListOf(old(State()), event))
                && State() == r.tables && escaped == r.escaped
                && (r.detached ==> event in old(bindings))
                && (defaults.ipcMain.Some? ==>
                      defaults.ipcMain.value.listeners ==
                      (if r.detached then Detach(old(defaults.ipcMain.value.listeners), EventChannel(name, event), old(bindings)[event])
                       else old(defaults.ipcMain.value.listeners)))
      ensures defaults.ipcMain.Some? ==> defaults.ipcMain.value.handlers == old(defaults.ipcMain.value.handlers)
    {
      if Trust()(name, event, EventOperation, eventObj) != Trusted {
        return [], false;
      }
      called, escaped := DeliverTrusted(event, react);
    }

    /** `invoke(name, ...args)`: through the global surface. */
    method Invoke(op: string, args: seq<Value>, reply: Envelope, codec: ErrorHandler) returns (r: Result<Value, Exception>)
      modifies RendererFrame()
      ensures !Reachable() ==> r == Failure(TransportError("invoke"))
      ensures Reachable() ==> r == Unwrap(reply, codec)
      ensures global.surface.Some? ==>
                Renderer().sent ==
                  if Reachable() then old(Renderer().sent) + [InvokeMessage(InvokeChannel(name, op), args)]
                  else old(Renderer().sent)
      ensures global.surface.Some? ==> Renderer().listeners == old(Renderer().listeners)
    {
      if global.surface.None? {
        return Failure(GlobalMissing);
      }
      r := global.surface.value.Invoke(name, op, args, reply, codec);
    }

    /** `send(event, ...args)` */
    method Send(event: string, args: seq<Value>) returns (thrown: Option<Exception>)
      modifies RendererFrame()
      ensures thrown.Some? <==> !Reachable()
      ensures thrown.Some? ==> thrown.value == TransportError("send")
      ensures global.surface.Some? ==>
                Renderer().sent ==
                  if thrown.None? then old(Renderer().sent) + [SendMessage(EventChannel(name, event), args)]
                  else old(Renderer().sent)
      ensures global.surface.Some? ==> Renderer().listeners == old(Renderer().listeners)
    {
      if global.surface.None? {
        return Some(GlobalMissing);
      }
      thrown := global.surface.value.Send(name, event, args);
    }

    /** `register()` */
    method Register()
      modifies registry
      ensures registry.names == old(registry.names) + {name}
    {
      registry.names := registry.names + {name};
    }

    /** `unregister()` */
    method Unregister()
      modifies registry
      ensures registry.names == old(registry.names) - {name}
    {
      registry.names := registry.names - {name};
    }
  }

  /** The legacy invoke round trip as the renderer sees it: the value a
      trusted handler fulfils with, or the deserialized serialized error. */
  lemma InvokeRoundTrip(c: IpcController, b: InvokeBinding, event: Value, args: seq<Value>, codec: ErrorHandler)
    ensures var outcome := Settle(b.handler(CallArguments(b.passEvent, event, args)));
            var trusted := c.Trust()(c.name, b.name, InvokeOperation, event) == Trusted;
            var r := Unwrap(c.HandleInvoke(b, event, args, codec).reply, codec);
            && (r.Success? <==> trusted && outcome.Fulfilled?)
            && (r.Success? ==> r.value == outcome.value)
            && (!trusted ==> r == Failure(Thrown(codec.deserialize(codec.serialize(BlockedError)))))
            && (trusted && outcome.Rejected? ==> r == Failure(Thrown(codec.deserialize(codec.serialize(outcome.reason)))))
  {
  }
}
