/**
 * `IpcBroadcastController` (src/IpcBroadcastController.ts): the main
 * process fans events out to renderers; each renderer multiplexes them
 * through one raw `ipcRenderer` listener per event, reached through the
 * global surface `preloadInit` builds. No trust handler and no registry.
 */
module Broadcast {
  import opened Common
  import opened Transport
  import opened Multiplexer
  import opened FanOut

  const BlankName: Exception := SyntaxError("IpcBroadcastController: \"name\" cannot be an empty string.")

  const NameWithColon: Exception := SyntaxError("IpcBroadcastController: \"name\" cannot contain \":\".")

  const GlobalMissing: Exception :=
    TypeError("IpcBroadcastController: Can't find the \"globalThis.$IpcBroadcastController\", Forgot to use \"preloadInit\" in the preload script?")

  const GlobalKey: string := "$IpcBroadcastController"

  const BroadcastPrefix: string := "IpcBroadcastController:"

  /** `channelGenerator(controller, name)` of this file. */
  function BroadcastChannel(controller: string, event: string): (ch: string)
    ensures |ch| == |BroadcastPrefix| + |controller| + 1 + |event|
    ensures ch[..|BroadcastPrefix|] == BroadcastPrefix
    ensures ch[|BroadcastPrefix|..] == controller + ":" + event
  {
    BroadcastPrefix + controller + ":" + event
  }

  /** The constructor's ban on `:` is what makes a channel name determine
      the controller and the event. */
  lemma BroadcastChannelInjective(c1: string, e1: string, c2: string, e2: string)
    requires ':' !in c1 && ':' !in c2
    requires BroadcastChannel(c1, e1) == BroadcastChannel(c2, e2)
    ensures c1 == c2 && e1 == e2
  {
    assert c1 + ":" + e1 == BroadcastChannel(c1, e1)[|BroadcastPrefix|..] == c2 + ":" + e2;
    SplitAtSeparator(":", c1, e1, c2, e2);
  }

  /** Broadcast channels never meet the channels of the server and client
      controllers, whatever the names. */
  lemma BroadcastChannelsApart(c1: string, e1: string, c2: string, e2: string, t: ChannelType)
    ensures BroadcastChannel(c1, e1) != ChannelGenerator(c2, e2, t)
  {
    assert BroadcastChannel(c1, e1)[0] == 'I';
    assert ChannelGenerator(c2, e2, t)[..|ChannelPrefix|] == ChannelPrefix;
    assert ChannelGenerator(c2, e2, t)[0] == '$';
  }

  /** `static WebContentsGetter` */
  class BroadcastDefaults {
    var webContentsGetter: Option<WebContentsGetter>

    constructor ()
      ensures webContentsGetter.None?
    {
      webContentsGetter := None;
    }
  }

  /** The object `preloadInit(ipcRenderer)` returns as `api`: it attaches and
      detaches raw listeners with no check of its own. */
  class BroadcastSurface {
    const ipc: IpcRenderer

    constructor (ipc: IpcRenderer)
      ensures this.ipc == ipc
    {
      this.ipc := ipc;
    }

    method Off(controller: string, event: string, l: RawListener)
      modifies ipc
      ensures ipc.listeners == Detach(old(ipc.listeners), BroadcastChannel(controller, event), l)
      ensures ipc.sent == old(ipc.sent)
    {
      ipc.Off(BroadcastChannel(controller, event), l);
    }

    method On(controller: string, event: string, l: RawListener)
      modifies ipc
      ensures var ch := BroadcastChannel(controller, event);
              ipc.listeners == old(ipc.listeners)[ch := Attached(old(ipc.listeners), ch) + [l]]
      ensures ipc.sent == old(ipc.sent)
    {
      ipc.On(BroadcastChannel(controller, event), l);
    }
  }

  /** `preloadInit(ipcRenderer)`: the surface and the global key to expose it under. */
  method PreloadInit(ipc: IpcRenderer) returns (api: BroadcastSurface, key: string)
    ensures fresh(api) && api.ipc == ipc
    ensures key == GlobalKey
  {
    api := new BroadcastSurface(ipc);
    key := GlobalKey;
  }

  /** The `globalThis.$IpcBroadcastController` slot of a renderer. */
  class BroadcastGlobal {
    var surface: Option<BroadcastSurface>

    constructor ()
      ensures surface.None?
    {
      surface := None;
    }
  }

  class IpcBroadcastController {
    const name: string
    /** The class itself, holding the static getter. */
    const defaults: BroadcastDefaults
    /** The renderer's global slot (used only on the renderer side). */
    const global: BroadcastGlobal
    var webContentsGetter: Option<WebContentsGetter>
    /** `#ipcRendererEventListeners` */
    var bindings: map<string, RawListener>
    /** `#eventsListeners` */
    var lists: map<string, seq<Entry>>

    constructor (name: string, defaults: BroadcastDefaults, global: BroadcastGlobal)
      requires !IsBlank(name) && ':' !in name
      ensures this.name == name && this.defaults == defaults && this.global == global
      ensures webContentsGetter.None? && bindings == map[] && lists == map[] && Valid()
    {
      this.name := name;
      this.defaults := defaults;
      this.global := global;
      webContentsGetter := None;
      bindings := map[];
      lists := map[];
    }

    /** `new IpcBroadcastController(name)`: a blank name is refused first,
        then a name containing `:`. */
    static method Create(name: string, defaults: BroadcastDefaults, global: BroadcastGlobal) returns (r: Result<IpcBroadcastController, Exception>)
      ensures r.Failure? <==> IsBlank(name) || ':' in name
      ensures r.Failure? ==> r.error == if IsBlank(name) then BlankName else NameWithColon
      ensures r.Success? ==> fresh(r.value) && r.value.name == name && r.value.defaults == defaults && r.value.global == global
                              && r.value.webContentsGetter.None? && r.value.bindings == map[] && r.value.lists == map[] && r.value.Valid()
    {
      if IsBlank(name) {
        return Failure(BlankName);
      }
      if ':' in name {
        return Failure(NameWithColon);
      }
      var c := new IpcBroadcastController(name, defaults, global);
      return Success(c);
    }

    function State(): Tables
      reads this`bindings, this`lists
    {
      Tables(bindings, lists)
    }

    /** Every event with entries has its raw listener bound. */
    ghost predicate Valid()
      reads this`bindings, this`lists
    {
      Multiplexer.Valid(State())
    }

    function Renderer(): IpcRenderer
      requires global.surface.Some?
      reads global
    {
      global.surface.value.ipc
    }

    function RendererFrame(): set<object>
      reads global
    {
      if global.surface.Some? then {global.surface.value.ipc} else {}
    }

    function Getter(): WebContentsGetter
      reads this`webContentsGetter, defaults`webContentsGetter
    {
      ResolveGetter(webContentsGetter, defaults.webContentsGetter)
    }

    function DeliveryConfig(): Config
      reads global
    {
      Config(KeepBinding, Lazy, global.surface.Some?)
    }

    function Channel(event: string): string
    {
      BroadcastChannel(name, event)
    }

    /** `#addEventListener(event, listener, once)` */
    method AddEventListener(event: string, listener: ListenerId, once: bool) returns (thrown: Option<Exception>)
      requires Valid()
      modifies this`bindings, this`lists, RendererFrame()
      ensures Valid()
      ensures thrown.Some? <==> event !in old(bindings) && global.surface.None?
      ensures thrown.Some? ==> thrown.value == GlobalMissing && State() == old(State())
      ensures thrown.None? ==> event in bindings && State() == Add(old(State()), event, Entry(listener, once), bindings[event]).tables
      ensures global.surface.Some? ==>
                Renderer().listeners ==
                  if event !in old(bindings) then
                    old(Renderer().listeners)[Channel(event) := Attached(old(Renderer().listeners), Channel(event)) + [bindings[event]]]
                  else old(Renderer().listeners)
      ensures thrown.None? && event !in old(bindings) ==> fresh(bindings[event]) && bindings[event].event == event
      ensures global.surface.Some? ==> Renderer().sent == old(Renderer().sent)
    {
      if event !in bindings {
        if global.surface.None? {
          return Some(GlobalMissing);
        }
        var raw := new RawListener(event);
        global.surface.value.On(name, event, raw);
        bindings := bindings[event := raw];
      }
      lists := lists[event := ListOf(State(), event) + [Entry(listener, once)]];
      return None;
    }

    /** `on(event, listener)` */
    method On(event: string, listener: ListenerId) returns (thrown: Option<Exception>)
      requires Valid()
      modifies this`bindings, this`lists, RendererFrame()
      ensures Valid()
      ensures thrown.Some? <==> event !in old(bindings) && global.surface.None?
      ensures thrown.Some? ==> thrown.value == GlobalMissing && State() == old(State())
      ensures thrown.None? ==> event in bindings && State() == Add(old(State()), event, Entry(listener, false), bindings[event]).tables
      ensures global.surface.Some? ==>
                Renderer().listeners ==
                  if event !in old(bindings) then
                    old(Renderer().listeners)[Channel(event) := Attached(old(Renderer().listeners), Channel(event)) + [bindings[event]]]
                  else old(Renderer().listeners)
      ensures thrown.None? && event !in old(bindings) ==> fresh(bindings[event]) && bindings[event].event == event
      ensures global.surface.Some? ==> Renderer().sent == old(Renderer().sent)
    {
      thrown := AddEventListener(event, listener, false);
    }

    /** `once(event, listener)` */
    method Once(event: string, listener: ListenerId) returns (thrown: Option<Exception>)
      requires Valid()
      modifies this`bindings, this`lists, RendererFrame()
      ensures Valid()
      ensures thrown.Some? <==> event !in old(bindings) && global.surface.None?
      ensures thrown.Some? ==> thrown.value == GlobalMissing && State() == old(State())
      ensures thrown.None? ==> event in bindings && State() == Add(old(State()), event, Entry(listener, true), bindings[event]).tables
      ensures global.surface.Some? ==>
                Renderer().listeners ==
                  if event !in old(bindings) then
                    old(Renderer().listeners)[Channel(event) := Attached(old(Renderer().listeners), Channel(event)) + [bindings[event]]]
                  else old(Renderer().listeners)
      ensures thrown.None? && event !in old(bindings) ==> fresh(bindings[event]) && bindings[event].event == event
      ensures global.surface.Some? ==> Renderer().sent == old(Renderer().sent)
    {
      thrown := AddEventListener(event, listener, true);
    }

    /** `off(event, listener?)`: as the client's, the binding entry stays. */
    method Off(event: string, listener: Option<ListenerId>) returns (thrown: Option<Exception>)
      requires Valid()
      modifies this`lists, RendererFrame()
      ensures Valid()
      ensures var s := Multiplexer.Off(old(State()), KeepBinding, event, listener);
              && (thrown.Some? <==> Blocked(DeliveryConfig(), s))
              && (thrown.Some? ==> thrown.value == GlobalMissing && State() == old(State()))
              && (thrown.None? ==> State() == s.tables)
              && (global.surface.Some? ==>
                    Renderer().listeners ==
                    if s.detach.Some? then Detach(old(Renderer().listeners), Channel(event), s.detach.value)
                    else old(Renderer().listeners))
      ensures global.surface.Some? ==> Renderer().sent == old(Renderer().sent)
    {
      var rest := Remaining(State(), event, listener);
      if rest == [] {
        if event in bindings {
          if global.surface.None? {
            return Some(GlobalMissing);
          }
          global.surface.value.Off(name, event, bindings[event]);
        }
        lists := lists - {event};
      } else {
        lists := lists[event := rest];
      }
      return None;
    }

    /** `send(event, ...args)`: to every renderer the getter lists. */
    method Send(event: string, args: seq<Value>, outbox: Outbox)
      modifies outbox
      ensures outbox.log == old(outbox.log) + Sent(Getter()(), None, Channel(event), args)
    {
      Broadcast(Getter(), None, Channel(event), args, outbox);
    }

    /** `sendToFrame(frameId, event, ...args)` */
    method SendToFrame(frame: FrameId, event: string, args: seq<Value>, outbox: Outbox)
      modifies outbox
      ensures outbox.log == old(outbox.log) + Sent(Getter()(), Some(frame), Channel(event), args)
    {
      Broadcast(Getter(), Some(frame), Channel(event), args, outbox);
    }

    ghost predicate Follows(t0: Tables, listeners0: map<string, seq<RawListener>>, sent0: seq<Outgoing>,
                            event: string, detached: bool)
      reads this`bindings, this`lists, global, RendererFrame()
    {
      && (detached ==> event in t0.bindings)
      && bindings == t0.bindings
      && (global.surface.Some? ==> Renderer().sent == sent0)
      && (global.surface.Some? ==>
            Renderer().listeners ==
            if detached then Detach(listeners0, Channel(event), t0.bindings[event]) else listeners0)
    }

    method DeliveryOff(event: string, listener: Option<ListenerId>, ghost cfg: Config, ghost t0: Tables,
                       ghost listeners0: map<string, seq<RawListener>>, ghost sent0: seq<Outgoing>, ghost r: Run)
      returns (thrown: Option<Exception>, ghost r': Run)
      requires cfg == DeliveryConfig()
      requires !r.escaped && r.tables == State() && Follows(t0, listeners0, sent0, event, r.detached)
      requires Valid()
      modifies this`lists, RendererFrame()
      ensures Valid()
      ensures r' == OffRun(r, cfg, event, listener, true)
      ensures thrown.Some? == r'.escaped
      ensures State() == r'.tables && Follows(t0, listeners0, sent0, event, r'.detached)
    {
      if global.surface.Some? && r.detached {
        DetachIdempotent(listeners0, Channel(event), t0.bindings[event]);
      }
      thrown := Off(event, listener);
      r' := OffRun(r, cfg, event, listener, true);
    }

    method CallEntry(event: string, item: Entry, react: ListenerId -> Reaction, ghost cfg: Config, ghost t0: Tables,
                     ghost listeners0: map<string, seq<RawListener>>, ghost sent0: seq<Outgoing>, ghost done: seq<Entry>, ghost run: Run)
      returns (ghost run': Run)
      requires cfg == DeliveryConfig()
      requires run == React(Run(t0, false, false), cfg, event, done, react)
      requires !run.escaped && State() == run.tables && Follows(t0, listeners0, sent0, event, run.detached)
      requires Valid()
      modifies this`lists, RendererFrame()
      ensures Valid()
      ensures run' == React(Run(t0, false, false), cfg, event, done + [item], react)
      ensures !run'.escaped && State() == run'.tables && Follows(t0, listeners0, sent0, event, run'.detached)
    {
      ReactStep(Run(t0, false, false), cfg, event, done, item, react);
      run' := run;
      match react(item.listener) {
        case CallsOff(l) =>
          var ignored: Option<Exception>;
          ghost var r': Run;
          ignored, r' := DeliveryOff(event, l, cfg, t0, listeners0, sent0, run);
          run' := Run(r'.tables, r'.detached, false);
        case _ =>
      }
    }

    method CallListeners(event: string, snapshot: seq<Entry>, react: ListenerId -> Reaction, ghost cfg: Config, ghost t0: Tables,
                         ghost listeners0: map<string, seq<RawListener>>, ghost sent0: seq<Outgoing>)
      returns (called: seq<ListenerId>, onces: seq<Entry>, ghost run: Run)
      requires cfg == DeliveryConfig()
      requires State() == t0 && Follows(t0, listeners0, sent0, event, false)
      requires Valid()
      modifies this`lists, RendererFrame()
      ensures Valid()
      ensures called == Listeners(snapshot) && onces == OnceEntries(snapshot)
      ensures run == React(Run(t0, false, false), cfg, event, snapshot, react)
      ensures State() == run.tables && Follows(t0, listeners0, sent0, event, run.detached)
    {
      called, onces := [], [];
      run := Run(t0, false, false);
      var i := 0;
      while i < |snapshot|
        invariant 0 <= i <= |snapshot|
        invariant called == Listeners(snapshot[..i])
        invariant onces == OnceEntries(snapshot[..i])
        invariant run == React(Run(t0, false, false), cfg, event, snapshot[..i], react)
        invariant !run.escaped && State() == run.tables && Valid() && Follows(t0, listeners0, sent0, event, run.detached)
      {
        var item := snapshot[i];
        assert snapshot[..i + 1] == snapshot[..i] + [item];
        called := called + [item.listener];
        if item.once {
          onces := onces + [item];
        }
        run := CallEntry(event, item, react, cfg, t0, listeners0, sent0, snapshot[..i], run);
        i := i + 1;
      }
      assert snapshot[..i] == snapshot;
    }

    method RemoveOnceListeners(event: string, onces: seq<Entry>, ghost cfg: Config, ghost t0: Tables,
                               ghost listeners0: map<string, seq<RawListener>>, ghost sent0: seq<Outgoing>, ghost reacted: Run)
      returns (escaped: bool, ghost run: Run)
      requires cfg == DeliveryConfig()
      requires !reacted.escaped && State() == reacted.tables && Follows(t0, listeners0, sent0, event, reacted.detached)
      requires Valid()
      modifies this`lists, RendererFrame()
      ensures Valid()
      ensures run == RemoveOnce(reacted, cfg, event, onces) && escaped == run.escaped
      ensures State() == run.tables && Follows(t0, listeners0, sent0, event, run.detached)
    {
      escaped := false;
      run := reacted;
      var j := 0;
      while j < |onces| && !escaped
        invariant 0 <= j <= |onces|
        invariant run == RemoveOnce(reacted, cfg, event, onces[..j])
        invariant escaped == run.escaped
        invariant State() == run.tables && Valid() && Follows(t0, listeners0, sent0, event, run.detached)
      {
        assert onces[..j + 1] == onces[..j] + [onces[j]];
        RemoveOnceStep(reacted, cfg, event, onces[..j], onces[j]);
        var thrown;
        thrown, run := DeliveryOff(event, Some(onces[j].listener), cfg, t0, listeners0, sent0, run);
        escaped := thrown.Some?;
        j := j + 1;
      }
      RemoveOnceStops(reacted, cfg, event, onces, j);
    }

    /** `#ipcRendererEventListener(channel, name, event, ...args)` */
    method Dispatch(event: string, react: ListenerId -> Reaction) returns (called: seq<ListenerId>, escaped: bool)
      requires Valid()
      modifies this`lists, RendererFrame()
      ensures Valid()
      ensures var r := Deliver(old(State()), DeliveryConfig(), event, react);
              && called == Listeners(ListOf(old(State()), event))
              && State() == r.tables && escaped == r.escaped
              && (r.detached ==> event in old(bindings))
              && (global.surface.Some? ==>
                    Renderer().listeners ==
                    (if r.detached then Detach(old(Renderer().listeners), Channel(event), old(bindings)[event])
                     else old(Renderer().listeners)))
      ensures global.surface.Some? ==> Renderer().sent == old(Renderer().sent)
    {
      ghost var t0 := State();
      ghost var listeners0 := if global.surface.Some? then Renderer().listeners else map[];
      ghost var sent0 := if global.surface.Some? then Renderer().sent else [];
      ghost var cfg := DeliveryConfig();
      var snapshot := ListOf(State(), event);
      var onces;
      ghost var reacted, run;
      called, onces, reacted := CallListeners(event, snapshot, react, cfg, t0, listeners0, sent0);
      escaped, run := RemoveOnceListeners(event, onces, cfg, t0, listeners0, sent0, reacted);
      assert run == Deliver(t0, cfg, event, react);
    }
  }
}
