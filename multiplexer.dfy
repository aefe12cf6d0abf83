/**
 * The listener multiplexer all four controllers re-implement: per event, a
 * binding map holding the one raw listener the controller installed
 * (`#ipcMainEventListeners` / `#ipcRendererEventListeners`) and the list of
 * local `{listener, once}` entries (`#eventsListeners`).
 *
 * The functions here are the specification the controllers' methods are
 * proved against: `Add` is `#addEventListener`, `Off` is `off`, and
 * `Deliver` is a raw delivery once it has passed the trust gate (the
 * snapshot is called in order, listener side effects are applied, then every
 * `once` entry of the snapshot is removed with `off`).
 */
module Multiplexer {
  import opened Common
  import opened Transport

  /** A local listener, identified as JavaScript compares functions: by identity. */
  type ListenerId = nat

  datatype Entry = Entry(listener: ListenerId, once: bool)

  /** One controller's bookkeeping. */
  datatype Tables = Tables(bindings: map<string, RawListener>, lists: map<string, seq<Entry>>)

  /** Entries only exist for events the controller has bound. */
  ghost predicate Valid(t: Tables)
  {
    t.lists.Keys <= t.bindings.Keys
  }

  /** `this.#eventsListeners.get(event) ?? []` */
  function ListOf(t: Tables, event: string): seq<Entry>
  {
    if event in t.lists then t.lists[event] else []
  }

  /** The listeners a delivery over `entries` calls, in order. */
  function Listeners(entries: seq<Entry>): (r: seq<ListenerId>)
    ensures |r| == |entries|
    ensures forall i :: 0 <= i < |entries| ==> r[i] == entries[i].listener
  {
    if entries == [] then [] else Listeners(entries[..|entries| - 1]) + [entries[|entries| - 1].listener]
  }

  /** `listeners.filter(item => item.once)`, in order. */
  function OnceEntries(entries: seq<Entry>): (r: seq<Entry>)
    ensures forall e :: e in r <==> e in entries && e.once
  {
    if entries == [] then []
    else if entries[|entries| - 1].once then OnceEntries(entries[..|entries| - 1]) + [entries[|entries| - 1]]
    else OnceEntries(entries[..|entries| - 1])
  }

  /** The once filter keeps the registration order: filtering a list made
      of two parts gives the filtered parts one after the other. */
  lemma {:induction false} OnceEntriesConcat(a: seq<Entry>, b: seq<Entry>)
    ensures OnceEntries(a + b) == OnceEntries(a) + OnceEntries(b)
    decreases |b|
  {
    if b == [] {
      assert a + b == a;
    } else {
      assert (a + b)[..|a + b| - 1] == a + b[..|b| - 1];
      OnceEntriesConcat(a, b[..|b| - 1]);
    }
  }

  /** `entries.filter(item => item.listener !== listener)` */
  function Without(entries: seq<Entry>, listener: ListenerId): (r: seq<Entry>)
    ensures |r| <= |entries|
    ensures forall e :: e in r <==> e in entries && e.listener != listener
    ensures (forall e :: e in entries ==> e.listener != listener) ==> r == entries
  {
    if entries == [] then []
    else if entries[|entries| - 1].listener == listener then Without(entries[..|entries| - 1], listener)
    else Without(entries[..|entries| - 1], listener) + [entries[|entries| - 1]]
  }

  /** Filtering keeps the registration order: it distributes over concatenation. */
  lemma {:induction false} WithoutConcat(a: seq<Entry>, b: seq<Entry>, listener: ListenerId)
    ensures Without(a + b, listener) == Without(a, listener) + Without(b, listener)
    decreases |b|
  {
    if b == [] {
      assert a + b == a;
    } else {
      assert (a + b)[..|a + b| - 1] == a + b[..|b| - 1];
      WithoutConcat(a, b[..|b| - 1], listener);
    }
  }

  /** The list `off(event, listener?)` computes before deciding anything:
      empty when no listener is given, otherwise the other entries. */
  function Remaining(t: Tables, event: string, listener: Option<ListenerId>): seq<Entry>
  {
    if listener.None? then [] else Without(ListOf(t, event), listener.value)
  }

  /** What `off` does to the binding map when the last entry goes:
      `IpcServerController` deletes the binding (and returns early when the
      event is unbound); the three other controllers keep it. */
  datatype Policy = DropBinding | KeepBinding

  /** The new tables, and the raw listener `off` takes off the transport. */
  datatype OffStep = OffStep(tables: Tables, detach: Option<RawListener>)

  /** `off(event, listener?)` */
  function Off(t: Tables, policy: Policy, event: string, listener: Option<ListenerId>): (s: OffStep)
    // unbound event on the server: nothing happens
    ensures policy == DropBinding && event !in t.bindings ==> s == OffStep(t, None)
    // `off(event)`, or `off(event, L)` taking the last entry: the list goes,
    // the bound raw listener leaves the transport, and the server unbinds it
    ensures (policy == KeepBinding || event in t.bindings) && Remaining(t, event, listener) == [] ==>
              && event !in s.tables.lists
              && s.detach == (if event in t.bindings then Some(t.bindings[event]) else None)
              && s.tables.bindings == (if policy == DropBinding then t.bindings - {event} else t.bindings)
    // entries remain: they stay in their order and multiplicity, and nothing is detached
    ensures (policy == KeepBinding || event in t.bindings) && Remaining(t, event, listener) != [] ==>
              s == OffStep(Tables(t.bindings, t.lists[event := Remaining(t, event, listener)]), None)
    // `off(event, L)`: no entry of L remains, every other entry stays
    ensures Valid(t) && listener.Some? ==> forall e :: e in ListOf(s.tables, event) ==> e.listener != listener.value
    ensures listener.Some? && (policy == KeepBinding || event in t.bindings) ==>
              forall e :: e in ListOf(t, event) && e.listener != listener.value ==> e in ListOf(s.tables, event)
    // no match: the list is unchanged
    ensures listener.Some? && ListOf(t, event) != [] && (forall e :: e in ListOf(t, event) ==> e.listener != listener.value) ==>
              s == OffStep(t, None)
    // `off` never adds an entry
    ensures forall e :: e in ListOf(s.tables, event) ==> e in ListOf(t, event)
    // the raw listener leaves only with the last entry, and it is the bound one
    ensures s.detach.Some? ==> event in t.bindings && s.detach.value == t.bindings[event] && event !in s.tables.lists
    ensures policy == KeepBinding ==> s.tables.bindings == t.bindings
    ensures s.tables.bindings == t.bindings || s.tables.bindings == t.bindings - {event}
    // other events are untouched
    ensures forall other :: other != event ==> ListOf(s.tables, other) == ListOf(t, other)
    ensures Valid(t) ==> Valid(s.tables)
  {
    if policy == DropBinding && event !in t.bindings then OffStep(t, None)
    else
      var rest := Remaining(t, event, listener);
      if rest == [] then
        OffStep(Tables(if policy == DropBinding then t.bindings - {event} else t.bindings, t.lists - {event}),
                if event in t.bindings then Some(t.bindings[event]) else None)
      else
        OffStep(Tables(t.bindings, t.lists[event := rest]), None)
  }

  /** The new tables, and whether a raw listener had to be installed. */
  datatype AddStep = AddStep(tables: Tables, install: bool)

  /** `#addEventListener(event, listener, once)` with `raw` the freshly bound
      dispatcher it would install. */
  function Add(t: Tables, event: string, entry: Entry, raw: RawListener): (s: AddStep)
    ensures s.install <==> event !in t.bindings
    ensures ListOf(s.tables, event) == ListOf(t, event) + [entry]
    ensures event in s.tables.bindings
    ensures s.tables.bindings == if s.install then t.bindings[event := raw] else t.bindings
    ensures forall other :: other != event ==> ListOf(s.tables, other) == ListOf(t, other)
    ensures Valid(t) ==> Valid(s.tables)
  {
    var install := event !in t.bindings;
    AddStep(Tables(if install then t.bindings[event := raw] else t.bindings,
                   t.lists[event := ListOf(t, event) + [entry]]),
            install)
  }

  // ---------------------------------------------------------------------
  // Delivery

  /** Whether the transport can be reached when `off` needs it: `Lazy`
      controllers touch it only to remove the raw listener, `Eager` ones
      (`IpcController`) check it first thing. */
  datatype Access = Lazy | Eager

  datatype Config = Config(policy: Policy, access: Access, reachable: bool)

  /** `off` throws instead of completing. */
  predicate Blocked(cfg: Config, s: OffStep)
  {
    !cfg.reachable && (cfg.access == Eager || s.detach.Some?)
  }

  /** State threaded through a delivery: the tables, whether the raw
      listener was removed, and whether an exception escaped. */
  datatype Run = Run(tables: Tables, detached: bool, escaped: bool)

  /** One `off` call during a delivery; a throw leaves the tables as they
      were and, when `propagate`, ends the delivery. */
  function OffRun(r: Run, cfg: Config, event: string, listener: Option<ListenerId>, propagate: bool): (r': Run)
    ensures !propagate ==> r'.escaped == r.escaped
  {
    if r.escaped then r
    else
      var s := Off(r.tables, cfg.policy, event, listener);
      if Blocked(cfg, s) then Run(r.tables, r.detached, propagate)
      else Run(s.tables, r.detached || s.detach.Some?, false)
  }

  /** What a local listener does when called: return, throw (swallowed by
      the dispatcher), or call `off` for the event being delivered. */
  datatype Reaction = Returns | Throws | CallsOff(listener: Option<ListenerId>)

  /** The effects of calling the snapshot entries `called`, in order. */
  function React(r: Run, cfg: Config, event: string, called: seq<Entry>, react: ListenerId -> Reaction): (r': Run)
    ensures r'.escaped == r.escaped
    decreases |called|
  {
    if called == [] then r
    else
      var before := React(r, cfg, event, called[..|called| - 1], react);
      match react(called[|called| - 1].listener)
      case CallsOff(l) => OffRun(before, cfg, event, l, false)
      case _ => before
  }

  /** Calling one more entry: its reaction, if an `off`, applies last. */
  lemma ReactStep(r: Run, cfg: Config, event: string, called: seq<Entry>, e: Entry, react: ListenerId -> Reaction)
    ensures React(r, cfg, event, called + [e], react) ==
            if react(e.listener).CallsOff? then OffRun(React(r, cfg, event, called, react), cfg, event, react(e.listener).listener, false)
            else React(r, cfg, event, called, react)
  {
    assert (called + [e])[..|called + [e]| - 1] == called;
  }

  /** Removing one more `once` entry. */
  lemma RemoveOnceStep(r: Run, cfg: Config, event: string, onces: seq<Entry>, e: Entry)
    ensures RemoveOnce(r, cfg, event, onces + [e]) == OffRun(RemoveOnce(r, cfg, event, onces), cfg, event, Some(e.listener), true)
  {
    assert (onces + [e])[..|onces + [e]| - 1] == onces;
  }

  /** `for (const item of onceListeners) this.off(event, item.listener)` */
  function RemoveOnce(r: Run, cfg: Config, event: string, onces: seq<Entry>): Run
    decreases |onces|
  {
    if onces == [] then r
    else OffRun(RemoveOnce(r, cfg, event, onces[..|onces| - 1]), cfg, event, Some(onces[|onces| - 1].listener), true)
  }

  /** Once an `off` of the once-removal pass has thrown, the rest of the
      pass does nothing. */
  lemma {:induction false} RemoveOnceStops(r: Run, cfg: Config, event: string, onces: seq<Entry>, k: nat)
    requires k <= |onces|
    requires k < |onces| ==> RemoveOnce(r, cfg, event, onces[..k]).escaped
    ensures RemoveOnce(r, cfg, event, onces) == RemoveOnce(r, cfg, event, onces[..k])
    decreases |onces| - k
  {
    if k == |onces| {
      assert onces[..k] == onces;
    } else {
      var prefix := onces[..|onces| - 1];
      assert prefix[..k] == onces[..k];
      RemoveOnceStops(r, cfg, event, prefix, k);
    }
  }

  /** A delivery of `event` that passed the trust gate. */
  function Deliver(t: Tables, cfg: Config, event: string, react: ListenerId -> Reaction): Run
  {
    var snapshot := ListOf(t, event);
    RemoveOnce(React(Run(t, false, false), cfg, event, snapshot, react), cfg, event, OnceEntries(snapshot))
  }

  /** The bookkeeping invariant holds throughout a delivery's `off` calls. */
  lemma {:induction false} ReactValid(r: Run, cfg: Config, event: string, called: seq<Entry>, react: ListenerId -> Reaction)
    requires Valid(r.tables)
    ensures Valid(React(r, cfg, event, called, react).tables)
    decreases |called|
  {
    if called != [] {
      ReactValid(r, cfg, event, called[..|called| - 1], react);
    }
  }

  /** The bookkeeping invariant holds through the once-removal pass, whether
      or not its `off` calls can reach the transport. */
  lemma {:induction false} RemoveOnceValid(r: Run, cfg: Config, event: string, onces: seq<Entry>)
    requires Valid(r.tables)
    ensures Valid(RemoveOnce(r, cfg, event, onces).tables)
    decreases |onces|
  {
    if onces != [] {
      RemoveOnceValid(r, cfg, event, onces[..|onces| - 1]);
    }
  }

  /** A delivery keeps the bookkeeping invariant, for every controller's
      configuration and whatever its listeners do. */
  lemma DeliverValid(t: Tables, cfg: Config, event: string, react: ListenerId -> Reaction)
    requires Valid(t)
    ensures Valid(Deliver(t, cfg, event, react).tables)
  {
    var snapshot := ListOf(t, event);
    ReactValid(Run(t, false, false), cfg, event, snapshot, react);
    RemoveOnceValid(React(Run(t, false, false), cfg, event, snapshot, react), cfg, event, OnceEntries(snapshot));
  }

  /** After the once-removal pass over a reachable transport, none of the
      removed listeners has an entry left, and nothing escaped. */
  lemma {:induction false} RemoveOnceClears(r: Run, cfg: Config, event: string, onces: seq<Entry>)
    requires Valid(r.tables) && cfg.reachable && !r.escaped
    ensures var r' := RemoveOnce(r, cfg, event, onces);
            && !r'.escaped && Valid(r'.tables)
            && forall e, x :: e in onces && x in ListOf(r'.tables, event) ==> x.listener != e.listener
    decreases |onces|
  {
    if onces != [] {
      var prefix := onces[..|onces| - 1];
      var last := onces[|onces| - 1];
      RemoveOnceClears(r, cfg, event, prefix);
      var before := RemoveOnce(r, cfg, event, prefix);
      var s := Off(before.tables, cfg.policy, event, Some(last.listener));
      if cfg.policy == DropBinding && event !in before.tables.bindings {
        assert ListOf(before.tables, event) == [];
      }
      forall e, x | e in onces && x in ListOf(s.tables, event) ensures x.listener != e.listener {
        if e != last {
          assert e in prefix;
        }
      }
    }
  }

  /** Every `once` listener of the snapshot is gone after a delivery over a
      reachable transport, so it fires on exactly one delivery. */
  lemma OnceRemovedAfterDelivery(t: Tables, cfg: Config, event: string, react: ListenerId -> Reaction)
    requires Valid(t) && cfg.reachable
    ensures var r := Deliver(t, cfg, event, react);
            && !r.escaped && Valid(r.tables)
            && forall e, x :: e in ListOf(t, event) && e.once && x in ListOf(r.tables, event) ==> x.listener != e.listener
  {
    var snapshot := ListOf(t, event);
    var reacted := React(Run(t, false, false), cfg, event, snapshot, react);
    ReactValid(Run(t, false, false), cfg, event, snapshot, react);
    RemoveOnceClears(reacted, cfg, event, OnceEntries(snapshot));
  }

  /** `once(event, L)` followed by two deliveries calls L on the first and
      not on the second. */
  lemma OnceFiresOnce(t: Tables, cfg: Config, event: string, l: ListenerId, react: ListenerId -> Reaction)
    requires Valid(t) && cfg.reachable
    requires Entry(l, true) in ListOf(t, event)
    ensures l in Listeners(ListOf(t, event))
    ensures l !in Listeners(ListOf(Deliver(t, cfg, event, react).tables, event))
  {
    var snapshot := ListOf(t, event);
    var i :| 0 <= i < |snapshot| && snapshot[i] == Entry(l, true);
    assert Listeners(snapshot)[i] == l;
    OnceRemovedAfterDelivery(t, cfg, event, react);
  }

  /** `on(event, L)` on an event with no entries, then `off(event, L)`:
      the entry was the last one, so the raw listener bound for the event
      leaves the transport, and the server's policy also unbinds it. */
  lemma OnThenOffDetaches(t: Tables, policy: Policy, event: string, l: ListenerId, once: bool, raw: RawListener)
    requires Valid(t) && ListOf(t, event) == []
    ensures var added := Add(t, event, Entry(l, once), raw).tables;
            var s := Off(added, policy, event, Some(l));
            && s.detach == Some(added.bindings[event])
            && event !in s.tables.lists
            && (policy == DropBinding ==> event !in s.tables.bindings)
  {
  }

  /** `on(event, L)` then `off(event, L)`: no later delivery calls L. */
  lemma OnThenOffNeverDelivers(t: Tables, policy: Policy, event: string, l: ListenerId, once: bool, raw: RawListener)
    requires Valid(t)
    ensures var added := Add(t, event, Entry(l, once), raw).tables;
            l !in Listeners(ListOf(Off(added, policy, event, Some(l)).tables, event))
  {
  }

  /** With the server's policy, `off(event)` unbinds, so a later `on`
      installs a fresh raw listener. */
  lemma DropBindingRebinds(t: Tables, event: string, e1: Entry, e2: Entry, raw1: RawListener, raw2: RawListener)
    requires Valid(t)
    ensures var s1 := Add(t, event, e1, raw1);
            var s2 := Off(s1.tables, DropBinding, event, None);
            var s3 := Add(s2.tables, event, e2, raw2);
            && s2.detach == Some(s1.tables.bindings[event])
            && s3.install
            && s3.tables.bindings[event] == raw2
            && ListOf(s3.tables, event) == [e2]
  {
  }

  /** With the policy of the client, broadcast and legacy controllers,
      `off(event)` takes the raw listener off the transport but keeps the
      binding entry, so a later `on` for a previously unbound event installs
      nothing: the new entry sits behind the raw listener `off` detached. */
  lemma KeepBindingLosesLaterListeners(t: Tables, event: string, e1: Entry, e2: Entry,
                                       raw1: RawListener, raw2: RawListener)
    requires Valid(t) && event !in t.bindings
    ensures var s1 := Add(t, event, e1, raw1);
            var s2 := Off(s1.tables, KeepBinding, event, None);
            var s3 := Add(s2.tables, event, e2, raw2);
            && s1.install && s2.detach == Some(raw1)
            && !s3.install
            && s3.tables.bindings[event] == raw1
            && ListOf(s3.tables, event) == [e2]
  {
  }
}
