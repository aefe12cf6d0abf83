/**
 * `IpcServerController` (src/IpcServerController.ts), the main-process
 * controller: it answers invocations through `ipcMain.handle`, multiplexes
 * renderer events through one raw `ipcMain` listener per event, gates both
 * with a trust handler, and fans events out to renderers.
 */
module Server {
  import opened Common
  import opened Transport
  import opened Multiplexer
  import opened FanOut

  const BlankName: Exception := SyntaxError("IpcServerController: \"name\" cannot be an empty string.")

  const IpcMissing: Exception := TypeError("IpcServerController: static.IpcMain or instance.ipcMain must be set")

  /** The error a blocked invocation rejects with, before serialization. */
  const BlockedError: Value := ErrorObject("Error", "Blocked by trust handler")

  /** `static TrustHandler = () => true` */
  function TrustAll(controller: string, name: string, kind: OperationKind, event: Value): Verdict
  {
    Trusted
  }

  /** The static members every instance falls back on. */
  class ServerDefaults {
    var trustHandler: TrustHandler
    var webContentsGetter: Option<WebContentsGetter>
    var ipcMain: Option<IpcMain>

    constructor ()
      ensures forall c, n, k, e :: trustHandler(c, n, k, e) == Trusted
      ensures webContentsGetter.None? && ipcMain.None?
    {
      trustHandler := TrustAll;
      webContentsGetter := None;
      ipcMain := None;
    }
  }

  /** A property of the object given to the `handlers` setter. */
  datatype Member = Function(handler: Handler) | NonFunction

  /** The object given to the `handlers` setter: its own properties and those
      of its prototype, the two levels whose names the setter enumerates. */
  datatype HandlerObject = HandlerObject(own: map<string, Member>, proto: map<string, Member>)

  /** `object[key]`: an own property shadows the prototype's. */
  function Lookup(o: HandlerObject, key: string): (r: Option<Member>)
    ensures r.Some? <==> key in o.own || key in o.proto
    ensures key in o.own ==> r == Some(o.own[key])
  {
    if key in o.own then Some(o.own[key])
    else if key in o.proto then Some(o.proto[key])
    else None
  }

  /** The names the setter enumerates (own and prototype property names
      except `constructor`) whose value is a function. */
  function FunctionKeys(o: Option<HandlerObject>): (keys: set<string>)
    ensures forall k :: k in keys <==>
              o.Some? && k != "constructor" && Lookup(o.value, k).Some? && Lookup(o.value, k).value.Function?
  {
    if o.None? then {}
    else set k | k in o.value.own.Keys + o.value.proto.Keys && k != "constructor" && Lookup(o.value, k).value.Function?
  }

  lemma UpdateUnion<K, V>(a: map<K, V>, b: map<K, V>, k: K, v: V)
    ensures (a + b)[k := v] == a + b[k := v]
  {
  }

  class IpcServerController {
    const name: string
    const defaults: ServerDefaults
    var ipcMain: Option<IpcMain>
    var trustHandler: Option<TrustHandler>
    var webContentsGetter: Option<WebContentsGetter>
    /** `#ipcMainEventListeners` */
    var bindings: map<string, RawListener>
    /** `#eventsListeners` */
    var lists: map<string, seq<Entry>>
    /** `#handlers` */
    var handlers: Option<HandlerObject>

    constructor (name: string, defaults: ServerDefaults)
      requires !IsBlank(name)
      ensures this.name == name && this.defaults == defaults
      ensures ipcMain.None? && trustHandler.None? && webContentsGetter.None? && handlers.None?
      ensures bindings == map[] && lists == map[] && Valid()
    {
      this.name := name;
      this.defaults := defaults;
      ipcMain := None;
      trustHandler := None;
      webContentsGetter := None;
      bindings := map[];
      lists := map[];
      handlers := None;
    }

    /** `new IpcServerController(name)`: a blank name throws. */
    static method Create(name: string, defaults: ServerDefaults) returns (r: Result<IpcServerController, Exception>)
      ensures r.Failure? <==> IsBlank(name)
      ensures r.Failure? ==> r.error == BlankName
      ensures r.Success? ==> fresh(r.value) && r.value.name == name && r.value.defaults == defaults
                              && r.value.bindings == map[] && r.value.lists == map[] && r.value.Valid()
      ensures r.Success? ==> r.value.ipcMain.None? && r.value.trustHandler.None?
                              && r.value.webContentsGetter.None? && r.value.handlers.None?
    {
      if IsBlank(name) {
        return Failure(BlankName);
      }
      var c := new IpcServerController(name, defaults);
      return Success(c);
    }

    function State(): Tables
      reads this`bindings, this`lists
    {
      Tables(bindings, lists)
    }

    /** Every event with entries has its raw listener bound. */
    ghost predicate Valid()
      reads this`bindings, this`lists
    {
      Multiplexer.Valid(State())
    }

    /** `#ipc` without its throw: the instance's ipcMain, else the static one. */
    function Ipc(): (r: Option<IpcMain>)
      reads this`ipcMain, defaults`ipcMain
      ensures ipcMain.Some? ==> r == ipcMain
      ensures ipcMain.None? ==> r == defaults.ipcMain
    {
      if ipcMain.Some? then ipcMain else defaults.ipcMain
    }

    function IpcFrame(): set<object>
      reads this`ipcMain, defaults`ipcMain
    {
      if Ipc().Some? then {Ipc().value} else {}
    }

    /** `#trustHandler` */
    function Trust(): TrustHandler
      reads this`trustHandler, defaults`trustHandler
    {
      if trustHandler.Some? then trustHandler.value else defaults.trustHandler
    }

    function Getter(): WebContentsGetter
      reads this`webContentsGetter, defaults`webContentsGetter
    {
      ResolveGetter(webContentsGetter, defaults.webContentsGetter)
    }

    /** How this controller's `off` behaves inside a delivery. */
    function DeliveryConfig(): Config
      reads this`ipcMain, defaults`ipcMain
    {
      Config(DropBinding, Lazy, Ipc().Some?)
    }

    function ClientEventChannel(event: string): string
    {
      ChannelGenerator(name, event, ClientEvent)
    }

    function InvokeChannel(op: string): string
    {
      ChannelGenerator(name, op, Invoke)
    }

    function ServerEventChannel(event: string): string
    {
      ChannelGenerator(name, event, ServerEvent)
    }

    /** `#addEventListener(event, listener, once)`: the transport is needed
        only to install the raw listener of a first registration. */
    method AddEventListener(event: string, listener: ListenerId, once: bool) returns (thrown: Option<Exception>)
      requires Valid()
      modifies this`bindings, this`lists, IpcFrame()
      ensures Valid()
      ensures thrown.Some? <==> event !in old(bindings) && Ipc().None?
      ensures thrown.Some? ==> thrown.value == IpcMissing && State() == old(State())
      ensures thrown.None? ==> event in bindings && State() == Add(old(State()), event, Entry(listener, once), bindings[event]).tables
      ensures thrown.None? && event !in old(bindings) ==>
                fresh(bindings[event]) && bindings[event].event == event
                && Ipc().value.listeners == old(Ipc().value.listeners)[ServerEventChannel(event) :=
                     Attached(old(Ipc().value.listeners), ServerEventChannel(event)) + [bindings[event]]]
      ensures Ipc().Some? && event in old(bindings) ==> Ipc().value.listeners == old(Ipc().value.listeners)
      ensures Ipc().Some? ==> Ipc().value.handlers == old(Ipc().value.handlers)
    {
      if event !in bindings {
        var ipc := Ipc();
        if ipc.None? {
          return Some(IpcMissing);
        }
        var raw := new RawListener(event);
        ipc.value.On(ServerEventChannel(event), raw);
        bindings := bindings[event := raw];
      }
      lists := lists[event := ListOf(State(), event) + [Entry(listener, once)]];
      return None;
    }

    /** `on(event, listener)` */
    method On(event: string, listener: ListenerId) returns (thrown: Option<Exception>)
      requires Valid()
      modifies this`bindings, this`lists, IpcFrame()
      ensures Valid()
      ensures thrown.Some? <==> event !in old(bindings) && Ipc().None?
      ensures thrown.Some? ==> thrown.value == IpcMissing && State() == old(State())
      ensures thrown.None? ==> event in bindings && State() == Add(old(State()), event, Entry(listener, false), bindings[event]).tables
      ensures thrown.None? && event !in old(bindings) ==>
                fresh(bindings[event]) && bindings[event].event == event
                && Ipc().value.listeners == old(Ipc().value.listeners)[ServerEventChannel(event) :=
                     Attached(old(Ipc().value.listeners), ServerEventChannel(event)) + [bindings[event]]]
      ensures Ipc().Some? && event in old(bindings) ==> Ipc().value.listeners == old(Ipc().value.listeners)
      ensures Ipc().Some? ==> Ipc().value.handlers == old(Ipc().value.handlers)
    {
      thrown := AddEventListener(event, listener, false);
    }

    /** `once(event, listener)` */
    method Once(event: string, listener: ListenerId) returns (thrown: Option<Exception>)
      requires Valid()
      modifies this`bindings, this`lists, IpcFrame()
      ensures Valid()
      ensures thrown.Some? <==> event !in old(bindings) && Ipc().None?
      ensures thrown.Some? ==> thrown.value == IpcMissing && State() == old(State())
      ensures thrown.None? ==> event in bindings && State() == Add(old(State()), event, Entry(listener, true), bindings[event]).tables
      ensures thrown.None? && event !in old(bindings) ==>
                fresh(bindings[event]) && bindings[event].event == event
                && Ipc().value.listeners == old(Ipc().value.listeners)[ServerEventChannel(event) :=
                     Attached(old(Ipc().value.listeners), ServerEventChannel(event)) + [bindings[event]]]
      ensures Ipc().Some? && event in old(bindings) ==> Ipc().value.listeners == old(Ipc().value.listeners)
      ensures Ipc().Some? ==> Ipc().value.handlers == old(Ipc().value.handlers)
    {
      thrown := AddEventListener(event, listener, true);
    }

    /** `off(event, listener?)`: an unbound event returns at once; removing
        the last entry detaches and forgets the raw listener, which needs the
        transport. */
    method Off(event: string, listener: Option<ListenerId>) returns (thrown: Option<Exception>)
      requires Valid()
      modifies this`bindings, this`lists, IpcFrame()
      ensures Valid()
      ensures var s := Multiplexer.Off(old(State()), DropBinding, event, listener);
              && (thrown.Some? <==> Blocked(DeliveryConfig(), s))
              && (thrown.Some? ==> thrown.value == IpcMissing && State() == old(State()))
              && (thrown.None? ==> State() == s.tables)
              && (Ipc().Some? ==>
                    Ipc().value.listeners ==
                    if s.detach.Some? then Detach(old(Ipc().value.listeners), ServerEventChannel(event), s.detach.value)
                    else old(Ipc().value.listeners))
      ensures Ipc().Some? ==> Ipc().value.handlers == old(Ipc().value.handlers)
    {
      if event !in bindings {
        return None;
      }
      var rest := Remaining(State(), event, listener);
      if rest == [] {
        var raw := bindings[event];
        var ipc := Ipc();
        if ipc.None? {
          return Some(IpcMissing);
        }
        ipc.value.RemoveListener(ServerEventChannel(event), raw);
        bindings := bindings - {event};
        lists := lists - {event};
      } else {
        lists := lists[event := rest];
      }
      return None;
    }

    /** Distinct operation names get distinct invoke channels, so the setter's
        `handle` calls never overwrite one another. */
    lemma InvokeChannelsInjective()
      ensures forall op1, op2 :: InvokeChannel(op1) == InvokeChannel(op2) ==> op1 == op2
    {
      forall op1, op2 | InvokeChannel(op1) == InvokeChannel(op2) ensures op1 == op2 {
        assert op1 == (name + "||" + op1)[|name| + 2..];
        assert op2 == (name + "||" + op2)[|name| + 2..];
      }
    }

    function InvokeChannels(ops: set<string>): set<string>
    {
      set op | op in ops :: InvokeChannel(op)
    }

    /** The `ipcMain.handle` registrations the setter makes for the names in
        `ops` that hold functions in `o`. */
    function Installed(o: Option<HandlerObject>, ops: set<string>): (m: map<string, InvokeBinding>)
      ensures forall op :: op in ops && op in FunctionKeys(o) ==>
                InvokeChannel(op) in m && m[InvokeChannel(op)] == InvokeBinding(op, false, Lookup(o.value, op).value.handler)
      ensures m.Keys == InvokeChannels(ops * FunctionKeys(o))
    {
      InvokeChannelsInjective();
      map op | op in ops && op in FunctionKeys(o) :: InvokeChannel(op) := InvokeBinding(op, false, Lookup(o.value, op).value.handler)
    }

    /** `#handle(name, passEvent, func, event, ...args)`: the trust handler
        decides first; a blocked call never reaches the handler and replies
        with the serialized "Blocked by trust handler" error; otherwise the
        handler's settled outcome becomes a result or a serialized error. */
    function HandleInvoke(b: InvokeBinding, event: Value, args: seq<Value>, codec: ErrorHandler): (r: Invocation)
      reads this`trustHandler, defaults`trustHandler
      ensures r.handlerRan <==> Trust()(name, b.name, InvokeOperation, event) == Trusted
      ensures r.reply.tag == ResultTag <==>
                r.handlerRan && Settle(b.handler(CallArguments(b.passEvent, event, args))).Fulfilled?
      ensures r.reply.tag == ResultTag ==> r.reply.value == Settle(b.handler(CallArguments(b.passEvent, event, args))).value
      ensures r.reply.tag == ErrorTag ==>
                r.reply.value == codec.serialize(if r.handlerRan then Settle(b.handler(CallArguments(b.passEvent, event, args))).reason
                                                 else BlockedError)
    {
      if Trust()(name, b.name, InvokeOperation, event) != Trusted then
        Invocation(Envelope(ErrorTag, codec.serialize(BlockedError)), false)
      else
        match Settle(b.handler(CallArguments(b.passEvent, event, args)))
        case Fulfilled(v) => Invocation(Envelope(ResultTag, v), true)
        case Rejected(e) => Invocation(Envelope(ErrorTag, codec.serialize(e)), true)
    }

    /** `handle(name, handler)`: the invoke channel's slot now calls the
        handler without the event object. */
    method Handle(op: string, handler: Handler) returns (thrown: Option<Exception>)
      modifies IpcFrame()
      ensures thrown.Some? <==> Ipc().None?
      ensures thrown.Some? ==> thrown.value == IpcMissing
      ensures Ipc().Some? ==>
                && Ipc().value.handlers == old(Ipc().value.handlers)[InvokeChannel(op) := InvokeBinding(op, false, handler)]
                && Ipc().value.listeners == old(Ipc().value.listeners)
    {
      var ipc := Ipc();
      if ipc.None? {
        return Some(IpcMissing);
      }
      ipc.value.Handle(InvokeChannel(op), InvokeBinding(op, false, handler));
      return None;
    }

    /** `handleWithEvent(name, handler)`: as `handle`, passing the event object first. */
    method HandleWithEvent(op: string, handler: Handler) returns (thrown: Option<Exception>)
      modifies IpcFrame()
      ensures thrown.Some? <==> Ipc().None?
      ensures thrown.Some? ==> thrown.value == IpcMissing
      ensures Ipc().Some? ==>
                && Ipc().value.handlers == old(Ipc().value.handlers)[InvokeChannel(op) := InvokeBinding(op, true, handler)]
                && Ipc().value.listeners == old(Ipc().value.listeners)
    {
      var ipc := Ipc();
      if ipc.None? {
        return Some(IpcMissing);
      }
      ipc.value.Handle(InvokeChannel(op), InvokeBinding(op, true, handler));
      return None;
    }

    /** `removeHandler(name)` */
    method RemoveHandler(op: string) returns (thrown: Option<Exception>)
      modifies IpcFrame()
      ensures thrown.Some? <==> Ipc().None?
      ensures thrown.Some? ==> thrown.value == IpcMissing
      ensures Ipc().Some? ==>
                && Ipc().value.handlers == old(Ipc().value.handlers) - {InvokeChannel(op)}
                && Ipc().value.listeners == old(Ipc().value.listeners)
    {
      var ipc := Ipc();
      if ipc.None? {
        return Some(IpcMissing);
      }
      ipc.value.RemoveHandler(InvokeChannel(op));
      return None;
    }

    /** The setter's first pass: `removeHandler` for each name in `ops`. */
    method RemoveHandlers(ipc: IpcMain, ops: set<string>)
      modifies ipc
      ensures ipc.handlers == old(ipc.handlers) - InvokeChannels(ops)
      ensures ipc.listeners == old(ipc.listeners)
    {
      var rest := ops;
      ghost var done: set<string> := {};
      while rest != {}
        invariant rest <= ops && done == ops - rest
        invariant ipc.handlers == old(ipc.handlers) - InvokeChannels(done)
        invariant ipc.listeners == old(ipc.listeners)
        decreases |rest|
      {
        var op :| op in rest;
        ipc.RemoveHandler(InvokeChannel(op));
        assert InvokeChannels(done + {op}) == InvokeChannels(done) + {InvokeChannel(op)};
        rest := rest - {op};
        done := done + {op};
      }
    }

    /** Installing one more name adds exactly its registration. */
    lemma InstalledStep(value: Option<HandlerObject>, done: set<string>, op: string)
      requires op in FunctionKeys(value)
      ensures Installed(value, done + {op}) ==
              Installed(value, done)[InvokeChannel(op) := InvokeBinding(op, false, Lookup(value.value, op).value.handler)]
    {
      InvokeChannelsInjective();
      var lhs := Installed(value, done + {op});
      var rhs := Installed(value, done)[InvokeChannel(op) := InvokeBinding(op, false, Lookup(value.value, op).value.handler)];
      assert lhs.Keys == rhs.Keys;
    }

    /** One `handle` call of the setter's second pass. */
    method InstallOne(ipc: IpcMain, value: Option<HandlerObject>, ghost base: map<string, InvokeBinding>,
                      ghost done: set<string>, op: string)
      requires op in FunctionKeys(value)
      requires ipc.handlers == base + Installed(value, done)
      modifies ipc
      ensures ipc.handlers == base + Installed(value, done + {op})
      ensures ipc.listeners == old(ipc.listeners)
    {
      var b := InvokeBinding(op, false, Lookup(value.value, op).value.handler);
      ipc.Handle(InvokeChannel(op), b);
      InstalledStep(value, done, op);
      UpdateUnion(base, Installed(value, done), InvokeChannel(op), b);
    }

    /** The setter's second pass: `handle` for each function name of `value`. */
    method InstallHandlers(ipc: IpcMain, value: Option<HandlerObject>)
      modifies ipc
      ensures ipc.handlers == old(ipc.handlers) + Installed(value, FunctionKeys(value))
      ensures ipc.listeners == old(ipc.listeners)
    {
      var ops := FunctionKeys(value);
      var rest := ops;
      ghost var done: set<string> := {};
      while rest != {}
        invariant rest <= ops && done == ops - rest
        invariant ipc.handlers == old(ipc.handlers) + Installed(value, done)
        invariant ipc.listeners == old(ipc.listeners)
        decreases |rest|
      {
        var op :| op in rest;
        InstallOne(ipc, value, old(ipc.handlers), done, op);
        rest := rest - {op};
        done := done + {op};
      }
      assert done == ops;
    }

    /** The `handlers` setter: remove the invoke handler of every function
        name of the previous object, store the new object, then `handle`
        every function name of it. Without a transport the first
        `removeHandler` or `handle` throws. */
    method SetHandlers(value: Option<HandlerObject>) returns (thrown: Option<Exception>)
      modifies this`handlers, IpcFrame()
      ensures thrown.Some? ==> thrown.value == IpcMissing
      ensures Ipc().None? ==>
                && (thrown.Some? <==> FunctionKeys(old(handlers)) != {} || FunctionKeys(value) != {})
                && handlers == if FunctionKeys(old(handlers)) != {} then old(handlers) else value
      ensures Ipc().Some? ==>
                && thrown.None? && handlers == value
                && Ipc().value.handlers ==
                     (old(Ipc().value.handlers) - InvokeChannels(FunctionKeys(old(handlers)))) + Installed(value, FunctionKeys(value))
                && Ipc().value.listeners == old(Ipc().value.listeners)
    {
      var oldOps := FunctionKeys(handlers);
      if Ipc().None? {
        if oldOps != {} {
          return Some(IpcMissing);
        }
        handlers := value;
        if FunctionKeys(value) != {} {
          return Some(IpcMissing);
        }
        return None;
      }
      var ipc := Ipc().value;
      RemoveHandlers(ipc, oldOps);
      handlers := value;
      InstallHandlers(ipc, value);
      return None;
    }

    /** `send(event, ...args)`: every renderer the getter lists receives the
        event on its client-event channel. */
    method Send(event: string, args: seq<Value>, outbox: Outbox)
      modifies outbox
      ensures outbox.log == old(outbox.log) + Sent(Getter()(), None, ClientEventChannel(event), args)
    {
      Broadcast(Getter(), None, ClientEventChannel(event), args, outbox);
    }

    /** `sendToFrame(frameId, event, ...args)` */
    method SendToFrame(frame: FrameId, event: string, args: seq<Value>, outbox: Outbox)
      modifies outbox
      ensures outbox.log == old(outbox.log) + Sent(Getter()(), Some(frame), ClientEventChannel(event), args)
    {
      Broadcast(Getter(), Some(frame), ClientEventChannel(event), args, outbox);
    }

    /** The tables and the transport during a delivery that started from
        `t0`, with the transport then holding `listeners0` and `handlers0`:
        at most the event's raw listener has left the transport. */
    ghost predicate Follows(t0: Tables, listeners0: map<string, seq<RawListener>>, handlers0: map<string, InvokeBinding>,
                            event: string, detached: bool)
      reads this`bindings, this`lists, this`ipcMain, defaults`ipcMain, IpcFrame()
    {
      && (detached ==> event in t0.bindings)
      && (bindings == t0.bindings || bindings == t0.bindings - {event})
      && (Ipc().Some? ==> Ipc().value.handlers == handlers0)
      && (Ipc().Some? ==>
            Ipc().value.listeners ==
            if detached then Detach(listeners0, ServerEventChannel(event), t0.bindings[event]) else listeners0)
    }

    /** One `off` call made during a delivery, as `OffRun` describes it. */
    method DeliveryOff(event: string, listener: Option<ListenerId>, ghost cfg: Config, ghost t0: Tables,
                       ghost listeners0: map<string, seq<RawListener>>, ghost handlers0: map<string, InvokeBinding>, ghost r: Run)
      returns (thrown: Option<Exception>, ghost r': Run)
      requires cfg == DeliveryConfig()
      requires !r.escaped && r.tables == State() && Valid() && Follows(t0, listeners0, handlers0, event, r.detached)
      modifies this`bindings, this`lists, IpcFrame()
      ensures Valid()
      ensures r' == OffRun(r, cfg, event, listener, true)
      ensures thrown.Some? == r'.escaped
      ensures State() == r'.tables && Follows(t0, listeners0, handlers0, event, r'.detached)
    {
      if Ipc().Some? && r.detached {
        DetachIdempotent(listeners0, ServerEventChannel(event), t0.bindings[event]);
      }
      thrown := Off(event, listener);
      r' := OffRun(r, cfg, event, listener, true);
    }

    /** Calling one entry: a throw is swallowed, and an `off` it makes takes
        effect (or throws, swallowed too). */
    method CallEntry(event: string, item: Entry, react: ListenerId -> Reaction, ghost cfg: Config, ghost t0: Tables,
                     ghost listeners0: map<string, seq<RawListener>>, ghost handlers0: map<string, InvokeBinding>, ghost done: seq<Entry>, ghost run: Run)
      returns (ghost run': Run)
      requires cfg == DeliveryConfig()
      requires run == React(Run(t0, false, false), cfg, event, done, react)
      requires !run.escaped && State() == run.tables && Valid() && Follows(t0, listeners0, handlers0, event, run.detached)
      modifies this`bindings, this`lists, IpcFrame()
      ensures Valid()
      ensures run' == React(Run(t0, false, false), cfg, event, done + [item], react)
      ensures !run'.escaped && State() == run'.tables && Follows(t0, listeners0, handlers0, event, run'.detached)
    {
      ReactStep(Run(t0, false, false), cfg, event, done, item, react);
      run' := run;
      match react(item.listener) {
        case CallsOff(l) =>
          var ignored: Option<Exception>;
          ghost var r': Run;
          ignored, r' := DeliveryOff(event, l, cfg, t0, listeners0, handlers0, run);
          run' := Run(r'.tables, r'.detached, false);
        case _ =>
      }
    }

    /** The `filter` pass of a delivery: call each entry of the snapshot in
        order, collecting the `once` entries. */
    method CallListeners(event: string, snapshot: seq<Entry>, react: ListenerId -> Reaction, ghost cfg: Config, ghost t0: Tables,
                         ghost listeners0: map<string, seq<RawListener>>, ghost handlers0: map<string, InvokeBinding>)
      returns (called: seq<ListenerId>, onces: seq<Entry>, ghost run: Run)
      requires cfg == DeliveryConfig()
      requires State() == t0 && Valid() && Follows(t0, listeners0, handlers0, event, false)
      modifies this`bindings, this`lists, IpcFrame()
      ensures Valid()
      ensures called == Listeners(snapshot) && onces == OnceEntries(snapshot)
      ensures run == React(Run(t0, false, false), cfg, event, snapshot, react)
      ensures State() == run.tables && Follows(t0, listeners0, handlers0, event, run.detached)
    {
      called, onces := [], [];
      run := Run(t0, false, false);
      var i := 0;
      while i < |snapshot|
        invariant 0 <= i <= |snapshot|
        invariant called == Listeners(snapshot[..i])
        invariant onces == OnceEntries(snapshot[..i])
        invariant run == React(Run(t0, false, false), cfg, event, snapshot[..i], react)
        invariant !run.escaped && State() == run.tables && Valid() && Follows(t0, listeners0, handlers0, event, run.detached)
      {
        var item := snapshot[i];
        assert snapshot[..i + 1] == snapshot[..i] + [item];
        called := called + [item.listener];
        if item.once {
          onces := onces + [item];
        }
        run := CallEntry(event, item, react, cfg, t0, listeners0, handlers0, snapshot[..i], run);
        i := i + 1;
      }
      assert snapshot[..i] == snapshot;
    }

    /** `for (const item of onceListeners) this.off(event, item.listener)` */
    method RemoveOnceListeners(event: string, onces: seq<Entry>, ghost cfg: Config, ghost t0: Tables,
                               ghost listeners0: map<string, seq<RawListener>>, ghost handlers0: map<string, InvokeBinding>,
                               ghost reacted: Run)
      returns (escaped: bool, ghost run: Run)
      requires cfg == DeliveryConfig()
      requires !reacted.escaped && State() == reacted.tables && Valid() && Follows(t0, listeners0, handlers0, event, reacted.detached)
      modifies this`bindings, this`lists, IpcFrame()
      ensures Valid()
      ensures run == RemoveOnce(reacted, cfg, event, onces) && escaped == run.escaped
      ensures State() == run.tables && Follows(t0, listeners0, handlers0, event, run.detached)
    {
      escaped := false;
      run := reacted;
      var j := 0;
      while j < |onces| && !escaped
        invariant 0 <= j <= |onces|
        invariant run == RemoveOnce(reacted, cfg, event, onces[..j])
        invariant escaped == run.escaped
        invariant State() == run.tables && Valid() && Follows(t0, listeners0, handlers0, event, run.detached)
      {
        assert onces[..j + 1] == onces[..j] + [onces[j]];
        RemoveOnceStep(reacted, cfg, event, onces[..j], onces[j]);
        var thrown;
        thrown, run := DeliveryOff(event, Some(onces[j].listener), cfg, t0, listeners0, handlers0, run);
        escaped := thrown.Some?;
        j := j + 1;
      }
      RemoveOnceStops(reacted, cfg, event, onces, j);
    }

    /** A delivery that passed the trust gate: call every listener of the
        snapshot in order (swallowing throws), then `off` each `once` entry
        of the snapshot; an exception of that last pass escapes and ends it. */
    method DeliverTrusted(event: string, react: ListenerId -> Reaction) returns (called: seq<ListenerId>, escaped: bool)
      requires Valid()
      modifies this`bindings, this`lists, IpcFrame()
      ensures Valid()
      ensures var r := Deliver(old(State()), DeliveryConfig(), event, react);
              && called == Listeners(ListOf(old(State()), event))
              && State() == r.tables && escaped == r.escaped
              && (r.detached ==> event in old(bindings))
              && (Ipc().Some? ==>
                    Ipc().value.listeners ==
                    (if r.detached then Detach(old(Ipc().value.listeners), ServerEventChannel(event), old(bindings)[event])
                     else old(Ipc().value.listeners)))
      ensures Ipc().Some? ==> Ipc().value.handlers == old(Ipc().value.handlers)
    {
      ghost var t0 := State();
      ghost var listeners0 := if Ipc().Some? then Ipc().value.listeners else map[];
      ghost var handlers0 := if Ipc().Some? then Ipc().value.handlers else map[];
      ghost var cfg := DeliveryConfig();
      var snapshot := ListOf(State(), event);
      var onces;
      ghost var reacted, run;
      called, onces, reacted := CallListeners(event, snapshot, react, cfg, t0, listeners0, handlers0);
      escaped, run := RemoveOnceListeners(event, onces, cfg, t0, listeners0, handlers0, reacted);
      assert run == Deliver(t0, cfg, event, react);
      assert cfg == DeliveryConfig() && t0 == old(State());
    }

    /** `#ipcMainEventListener(event, eventObj, ...args)`: consult the trust
        handler; a trusted event is delivered, an untrusted one changes nothing. */
    method Dispatch(event: string, eventObj: Value, react: ListenerId -> Reaction) returns (called: seq<ListenerId>, escaped: bool)
      requires Valid()
      modifies this`bindings, this`lists, IpcFrame()
      ensures Valid()
      ensures Trust()(name, event, EventOperation, eventObj) != Trusted ==>
                called == [] && !escaped && State() == old(State())
                && (Ipc().Some? ==> Ipc().value.listeners == old(Ipc().value.listeners))
      ensures Trust()(name, event, EventOperation, eventObj) == Trusted ==>
                var r := Deliver(old(State()), DeliveryConfig(), event, react);
                && called == Listeners(ListOf(old(State()), event))
                && State() == r.tables && escaped == r.escaped
                && (r.detached ==> event in old(bindings))
                && (Ipc().Some? ==>
                      Ipc().value.listeners ==
                      (if r.detached then Detach(old(Ipc().value.listeners), ServerEventChannel(event), old(bindings)[event])
                       else old(Ipc().value.listeners)))
      ensures Ipc().Some? ==> Ipc().value.handlers == old(Ipc().value.handlers)
    {
      if Trust()(name, event, EventOperation, eventObj) != Trusted {
        return [], false;
      }
      called, escaped := DeliverTrusted(event, react);
    }
  }

  /** The invoke round trip as the renderer sees it: the reply `#handle`
      builds, unwrapped on the client side, resolves to exactly what a
      trusted handler fulfilled with, and otherwise rejects with the
      deserialized form of the serialized rejection reason (or of the
      trust handler's "Blocked" error). */
  lemma InvokeRoundTrip(c: IpcServerController, b: InvokeBinding, event: Value, args: seq<Value>, codec: ErrorHandler)
    ensures var outcome := Settle(b.handler(CallArguments(b.passEvent, event, args)));
            var trusted := c.Trust()(c.name, b.name, InvokeOperation, event) == Trusted;
            var r := Unwrap(c.HandleInvoke(b, event, args, codec).reply, codec);
            && (r.Success? <==> trusted && outcome.Fulfilled?)
            && (r.Success? ==> r.value == outcome.value)
            && (!trusted ==> r == Failure(Thrown(codec.deserialize(codec.serialize(BlockedError)))))
            && (trusted && outcome.Rejected? ==> r == Failure(Thrown(codec.deserialize(codec.serialize(outcome.reason)))))
  {
  }
}
