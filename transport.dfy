/**
 * The Electron side of the boundary, reduced to the state the controllers
 * touch: `ipcMain` (raw listeners per channel and one invoke handler per
 * channel), `ipcRenderer` (raw listeners per channel and a log of what it
 * sent), and the messages `webContents.send`/`sendToFrame` push to renderers.
 * Emission of events and the invoke round trip are not modelled here; the
 * controllers' dispatchers are called directly instead.
 */
module Transport {
  import opened Common

  /** A listener function a controller installs on the raw transport
      (`#ipcMainEventListener.bind(this, event)` and its siblings). Each
      binding is a fresh function object: identity is the reference. */
  class RawListener {
    const event: string

    constructor (event: string)
      ensures this.event == event
    {
      this.event := event;
    }
  }

  /** What `ipcMain.handle` stores for an invoke channel: `#handle` bound to
      the operation name, the event-passing flag and the user handler. */
  datatype InvokeBinding = InvokeBinding(name: string, passEvent: bool, handler: Handler)

  /** `webContents.sendToFrame` takes a frame id or a [process id, frame id] pair. */
  datatype FrameId = Frame(frameId: int) | ProcessFrame(processId: int, frameId: int)

  /** A renderer a broadcast may target; sending to a destroyed one throws. */
  datatype WebContents = WebContents(id: nat, destroyed: bool)

  /** One message pushed to a renderer: `frame` is None for `send` and the
      frame for `sendToFrame`. */
  datatype Message = Message(target: nat, frame: Option<FrameId>, channel: string, args: seq<Value>)

  /** What the renderer's `ipcRenderer` sent to the main process. */
  datatype Outgoing = SendMessage(channel: string, args: seq<Value>) | InvokeMessage(channel: string, args: seq<Value>)

  function Attached(listeners: map<string, seq<RawListener>>, channel: string): seq<RawListener>
  {
    if channel in listeners then listeners[channel] else []
  }

  /** Every occurrence of `l` taken out of a listener list. */
  function Drop(ls: seq<RawListener>, l: RawListener): (r: seq<RawListener>)
    ensures l !in r
    ensures forall i :: 0 <= i < |r| ==> r[i] in ls
    ensures forall i :: 0 <= i < |ls| && ls[i] != l ==> ls[i] in r
    ensures l !in ls ==> r == ls
  {
    if ls == [] then []
    else if ls[|ls| - 1] == l then Drop(ls[..|ls| - 1], l)
    else Drop(ls[..|ls| - 1], l) + [ls[|ls| - 1]]
  }

  /** `removeListener(channel, l)` / `off(channel, l)`. */
  function Detach(listeners: map<string, seq<RawListener>>, channel: string, l: RawListener): map<string, seq<RawListener>>
  {
    if channel in listeners then listeners[channel := Drop(listeners[channel], l)] else listeners
  }

  /** Removing a listener twice is removing it once. */
  lemma DetachIdempotent(listeners: map<string, seq<RawListener>>, channel: string, l: RawListener)
    ensures Detach(Detach(listeners, channel, l), channel, l) == Detach(listeners, channel, l)
  {
    if channel in listeners {
      var once := Drop(listeners[channel], l);
      assert Drop(once, l) == once;
    }
  }

  /** `ipcMain`, shared by every main-process controller. */
  class IpcMain {
    var listeners: map<string, seq<RawListener>>
    var handlers: map<string, InvokeBinding>

    constructor ()
      ensures listeners == map[] && handlers == map[]
    {
      listeners := map[];
      handlers := map[];
    }

    /** `ipcMain.on(channel, l)`: appends the listener. */
    method On(channel: string, l: RawListener)
      modifies this
      ensures listeners == old(listeners)[channel := Attached(old(listeners), channel) + [l]]
      ensures handlers == old(handlers)
    {
      listeners := listeners[channel := Attached(listeners, channel) + [l]];
    }

    /** `ipcMain.removeListener(channel, l)` / `ipcMain.off(channel, l)`. */
    method RemoveListener(channel: string, l: RawListener)
      modifies this
      ensures listeners == Detach(old(listeners), channel, l)
      ensures handlers == old(handlers)
    {
      listeners := Detach(listeners, channel, l);
    }

    /** `ipcMain.handle(channel, fn)`: the one handler slot of the channel
        now holds `b`. */
    method Handle(channel: string, b: InvokeBinding)
      modifies this
      ensures handlers == old(handlers)[channel := b]
      ensures listeners == old(listeners)
    {
      handlers := handlers[channel := b];
    }

    /** `ipcMain.removeHandler(channel)`. */
    method RemoveHandler(channel: string)
      modifies this
      ensures handlers == old(handlers) - {channel}
      ensures listeners == old(listeners)
    {
      handlers := handlers - {channel};
    }
  }

  /** `ipcRenderer` of one renderer process. */
  class IpcRenderer {
    var listeners: map<string, seq<RawListener>>
    var sent: seq<Outgoing>

    constructor ()
      ensures listeners == map[] && sent == []
    {
      listeners := map[];
      sent := [];
    }

    method On(channel: string, l: RawListener)
      modifies this
      ensures listeners == old(listeners)[channel := Attached(old(listeners), channel) + [l]]
      ensures sent == old(sent)
    {
      listeners := listeners[channel := Attached(listeners, channel) + [l]];
    }

    method Off(channel: string, l: RawListener)
      modifies this
      ensures listeners == Detach(old(listeners), channel, l)
      ensures sent == old(sent)
    {
      listeners := Detach(listeners, channel, l);
    }

    /** `ipcRenderer.send(channel, ...args)` */
    method Send(channel: string, args: seq<Value>)
      modifies this
      ensures sent == old(sent) + [SendMessage(channel, args)]
      ensures listeners == old(listeners)
    {
      sent := sent + [SendMessage(channel, args)];
    }

    /** `ipcRenderer.invoke(channel, ...args)`: the request leaves here; the
        reply envelope is supplied by the caller of the controller. */
    method Invoke(channel: string, args: seq<Value>)
      modifies this
      ensures sent == old(sent) + [InvokeMessage(channel, args)]
      ensures listeners == old(listeners)
    {
      sent := sent + [InvokeMessage(channel, args)];
    }
  }

  /** The messages renderers have received through `webContents.send` and
      `webContents.sendToFrame`, in order. */
  class Outbox {
    var log: seq<Message>

    constructor ()
      ensures log == []
    {
      log := [];
    }

    /** `webContents.send` / `sendToFrame`: throws for a destroyed renderer
        (nothing is delivered), otherwise delivers one message. */
    method Deliver(w: WebContents, frame: Option<FrameId>, channel: string, args: seq<Value>) returns (ok: bool)
      modifies this
      ensures ok <==> !w.destroyed
      ensures log == if ok then old(log) + [Message(w.id, frame, channel, args)] else old(log)
    {
      ok := !w.destroyed;
      if ok {
        log := log + [Message(w.id, frame, channel, args)];
      }
    }
  }
}
