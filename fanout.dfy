/**
 * Broadcast fan-out shared by `IpcServerController.#send` and
 * `IpcBroadcastController.#send`: resolve the webContents getter (instance,
 * then static, then "no renderers"), call it, and push one message to each
 * listed renderer in order, skipping (and logging) any renderer whose send
 * throws.
 */
module FanOut {
  import opened Common
  import opened Transport

  /** What calling a getter comes to once awaited: the renderers, or a
      throw / rejection (which is logged and ends the send). */
  datatype GetterOutcome = Yields(items: seq<WebContents>) | Fails(error: Value)

  type WebContentsGetter = () -> GetterOutcome

  /** `this.webContentsGetter ?? Class.WebContentsGetter ?? (() => [])` */
  function ResolveGetter(instance: Option<WebContentsGetter>, shared: Option<WebContentsGetter>): (g: WebContentsGetter)
    ensures instance.Some? ==> g == instance.value
    ensures instance.None? && shared.Some? ==> g == shared.value
    ensures instance.None? && shared.None? ==> g() == Yields([])
  {
    if instance.Some? then instance.value
    else if shared.Some? then shared.value
    else () => Yields([])
  }

  /** The messages one send delivers when the getter lists `items`. */
  function FanOut(items: seq<WebContents>, frame: Option<FrameId>, channel: string, args: seq<Value>): (r: seq<Message>)
    ensures |r| <= |items|
    ensures forall i :: 0 <= i < |r| ==> r[i].frame == frame && r[i].channel == channel && r[i].args == args
    decreases |items|
  {
    if items == [] then []
    else
      var w := items[|items| - 1];
      FanOut(items[..|items| - 1], frame, channel, args)
        + (if w.destroyed then [] else [Message(w.id, frame, channel, args)])
  }

  /** What a send delivers for a getter outcome: nothing when the getter fails. */
  function Sent(outcome: GetterOutcome, frame: Option<FrameId>, channel: string, args: seq<Value>): seq<Message>
  {
    match outcome
    case Fails(_) => []
    case Yields(items) => FanOut(items, frame, channel, args)
  }

  /** The shared `#send` loop: appends `Sent` to the renderers' log. */
  method Broadcast(getter: WebContentsGetter, frame: Option<FrameId>, channel: string, args: seq<Value>, outbox: Outbox)
    modifies outbox
    ensures outbox.log == old(outbox.log) + Sent(getter(), frame, channel, args)
  {
    var outcome := getter();
    if outcome.Fails? {
      return;
    }
    var items := outcome.items;
    var i := 0;
    while i < |items|
      invariant 0 <= i <= |items|
      invariant outbox.log == old(outbox.log) + FanOut(items[..i], frame, channel, args)
    {
      var ok := outbox.Deliver(items[i], frame, channel, args);
      assert items[..i + 1][..i] == items[..i];
      i := i + 1;
    }
    assert items[..i] == items;
  }

  /** The ids of the live renderers in a getter's list, front to back. */
  function LiveIds(items: seq<WebContents>): seq<nat>
    decreases |items|
  {
    if items == [] then []
    else (if items[0].destroyed then [] else [items[0].id]) + LiveIds(items[1..])
  }

  /** The renderers a sequence of messages is addressed to, in order. */
  function Targets(msgs: seq<Message>): seq<nat>
  {
    seq(|msgs|, i requires 0 <= i < |msgs| => msgs[i].target)
  }

  lemma {:induction false} LiveIdsSnoc(items: seq<WebContents>, w: WebContents)
    ensures LiveIds(items + [w]) == LiveIds(items) + (if w.destroyed then [] else [w.id])
    decreases |items|
  {
    if items == [] {
      assert items + [w] == [w];
      assert [w][1..] == [];
    } else {
      assert (items + [w])[1..] == items[1..] + [w];
      LiveIdsSnoc(items[1..], w);
    }
  }

  /** A send addresses the live renderers the getter lists, each once per
      listing and in the order listed. */
  lemma {:induction false} FanOutOrder(items: seq<WebContents>, frame: Option<FrameId>, channel: string, args: seq<Value>)
    ensures Targets(FanOut(items, frame, channel, args)) == LiveIds(items)
    decreases |items|
  {
    if items != [] {
      var init, w := items[..|items| - 1], items[|items| - 1];
      var prefix := FanOut(init, frame, channel, args);
      var tail := if w.destroyed then [] else [Message(w.id, frame, channel, args)];
      FanOutOrder(init, frame, channel, args);
      assert Targets(prefix + tail) == Targets(prefix) + Targets(tail);
      LiveIdsSnoc(init, w);
      assert init + [w] == items;
    }
  }

  /** Messages addressed to renderer `id`. */
  function CountTo(msgs: seq<Message>, id: nat): nat
  {
    if msgs == [] then 0
    else CountTo(msgs[..|msgs| - 1], id) + (if msgs[|msgs| - 1].target == id then 1 else 0)
  }

  /** Live entries for renderer `id` in a getter's list. */
  function CountLive(items: seq<WebContents>, id: nat): nat
  {
    if items == [] then 0
    else CountLive(items[..|items| - 1], id) + (if items[|items| - 1].id == id && !items[|items| - 1].destroyed then 1 else 0)
  }

  lemma {:induction false} CountToConcat(a: seq<Message>, b: seq<Message>, id: nat)
    ensures CountTo(a + b, id) == CountTo(a, id) + CountTo(b, id)
    decreases |b|
  {
    if b == [] {
      assert a + b == a;
    } else {
      assert (a + b)[..|a + b| - 1] == a + b[..|b| - 1];
      CountToConcat(a, b[..|b| - 1], id);
    }
  }

  /** Every live renderer the getter lists receives the message once per
      listing, and no other renderer receives it. */
  lemma {:induction false} FanOutCounts(items: seq<WebContents>, frame: Option<FrameId>, channel: string, args: seq<Value>, id: nat)
    ensures CountTo(FanOut(items, frame, channel, args), id) == CountLive(items, id)
    decreases |items|
  {
    if items != [] {
      var w := items[|items| - 1];
      var prefix := FanOut(items[..|items| - 1], frame, channel, args);
      var tail := if w.destroyed then [] else [Message(w.id, frame, channel, args)];
      FanOutCounts(items[..|items| - 1], frame, channel, args, id);
      CountToConcat(prefix, tail, id);
      if tail != [] {
        assert [] + tail == tail;
        assert CountTo(tail, id) == CountTo([], id) + (if w.id == id then 1 else 0);
      }
    }
  }

  /** Without a getter anywhere, a send reaches no renderer. */
  lemma NoGetterNoMessages(frame: Option<FrameId>, channel: string, args: seq<Value>)
    ensures Sent(ResolveGetter(None, None)(), frame, channel, args) == []
  {
  }

  /** A send reaches the renderers the getter lists, in the order listed:
      with two open windows and an instance getter listing only the second,
      the first window receives nothing. */
  lemma InstanceGetterSelectsRenderers(shared: Option<WebContentsGetter>, frame: Option<FrameId>, channel: string, args: seq<Value>)
    ensures var w1, w2 := WebContents(1, false), WebContents(2, false);
            var sent := Sent(ResolveGetter(Some(() => Yields([w2])), shared)(), frame, channel, args);
            && sent == [Message(2, frame, channel, args)]
            && CountTo(sent, 1) == 0
  {
    var w2 := WebContents(2, false);
    assert [w2][..0] == [];
    var sent := Sent(ResolveGetter(Some(() => Yields([w2])), shared)(), frame, channel, args);
    assert sent == [] + [Message(2, frame, channel, args)];
    assert sent[..0] == [];
  }
}
