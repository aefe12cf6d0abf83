/**
 * Shared vocabulary of electron-ipc-flow (src/common.ts): channel names,
 * the invoke envelope, the JavaScript values and exceptions the controllers
 * pass around, `String.prototype.trim` as used by every name check, and
 * the settling of a handler's (possibly nested) promise.
 */
module Common {

  datatype Option<+T> = None | Some(value: T)

  datatype Result<+T, +E> = Success(value: T) | Failure(error: E)

  // ---------------------------------------------------------------------
  // Values, exceptions, envelopes

  /** A JavaScript value crossing the IPC boundary. Payloads other than
      error objects and Electron event objects are opaque tokens. */
  datatype Value =
    | Undefined
    | ErrorObject(name: string, message: string)
    | EventObject(id: nat)
    | Data(token: nat)

  /** The exceptions the controllers throw, and any other thrown value. */
  datatype Exception =
    | TypeError(message: string)
    | SyntaxError(message: string)
    | RangeError(message: string)
    | Thrown(value: Value)

  /** `InvokeReturnType` / `Status`: the tag of an invoke envelope. */
  datatype Tag = ErrorTag | ResultTag

  /** `InvokeReturnObject`: the one envelope every invocation produces. */
  datatype Envelope = Envelope(tag: Tag, value: Value)

  /** An invocation's reply, and whether the user handler was called. */
  datatype Invocation = Invocation(reply: Envelope, handlerRan: bool)

  /** `ErrorHandler`: serialize is used in the main process, deserialize in
      the renderer. Both are supplied by the caller (the serialize-error
      package by default) and are not interpreted here. */
  datatype ErrorHandler = ErrorHandler(serialize: Value -> Value, deserialize: Value -> Value)

  /** What a trust handler call comes to once awaited: a truthy value,
      a falsy value, or a throw / rejection. */
  datatype Verdict = Trusted | Distrusted | Failed

  datatype OperationKind = EventOperation | InvokeOperation

  /** A trust handler, called with (controller name, operation name, kind, event object). */
  type TrustHandler = (string, string, OperationKind, Value) -> Verdict

  /** A user handler: its argument list determines what it returns or throws. */
  type Handler = seq<Value> -> Completion

  /** What calling a function produces: a plain value, a synchronous throw,
      or a promise that later settles into another completion. */
  datatype Completion = Return(value: Value) | Throw(error: Value) | Pending(next: Completion)

  datatype Settled = Fulfilled(value: Value) | Rejected(reason: Value)

  /** `await` on a completion: promises are followed until a plain value or a throw. */
  function Settle(c: Completion): Settled
  {
    match c
    case Return(v) => Fulfilled(v)
    case Throw(e) => Rejected(e)
    case Pending(next) => Settle(next)
  }

  /** A completion wrapped in `depth` layers of promises. */
  function Nest(depth: nat, leaf: Completion): Completion
  {
    if depth == 0 then leaf else Pending(Nest(depth - 1, leaf))
  }

  /** However many promises a handler's value is wrapped in, awaiting it
      yields the first non-promise value (or the rejection). */
  lemma {:induction false} SettleNest(depth: nat, leaf: Completion)
    requires !leaf.Pending?
    ensures Settle(Nest(depth, leaf)) == (if leaf.Return? then Fulfilled(leaf.value) else Rejected(leaf.error))
  {
    if depth > 0 {
      SettleNest(depth - 1, leaf);
    }
  }

  /** The arguments a handler receives: the event object first iff it was
      registered with `handleWithEvent`. */
  function CallArguments(passEvent: bool, event: Value, args: seq<Value>): (r: seq<Value>)
    ensures passEvent ==> |r| == |args| + 1 && r[0] == event && r[1..] == args
    ensures !passEvent ==> r == args
  {
    if passEvent then [event] + args else args
  }

  /** Unwrapping an envelope in the renderer: an error envelope rejects with
      the deserialized value, any other resolves to its value. */
  function Unwrap(reply: Envelope, codec: ErrorHandler): (r: Result<Value, Exception>)
    ensures r.Failure? <==> reply.tag == ErrorTag
    ensures r.Failure? ==> r.error == Thrown(codec.deserialize(reply.value))
    ensures r.Success? ==> r.value == reply.value
  {
    if reply.tag == ErrorTag then Failure(Thrown(codec.deserialize(reply.value))) else Success(reply.value)
  }

  /** `assertIsNull(message, value)`: throws a TypeError carrying `message`
      exactly when the value is undefined or null. */
  function AssertIsNull<T>(message: string, value: Option<T>): (r: Result<T, Exception>)
    ensures r.Failure? <==> value.None?
    ensures r.Failure? ==> r.error == TypeError(message)
    ensures r.Success? ==> r.value == value.value
  {
    match value
    case None => Failure(TypeError(message))
    case Some(v) => Success(v)
  }

  /** The RangeError of the renderer-side global surfaces for a controller
      name missing from the registry. */
  function NotRegistered(operation: string, controller: string): Exception
  {
    RangeError("GlobalIpcController." + operation + ": " + controller + ": controller not registered.")
  }

  // ---------------------------------------------------------------------
  // Channel names

  /** `ChannelTypes`: events to the renderer ('c'), invocations ('i'),
      events to the main process ('s'). */
  datatype ChannelType = ClientEvent | Invoke | ServerEvent

  function TypeChar(t: ChannelType): char
  {
    match t
    case ClientEvent => 'c'
    case Invoke => 'i'
    case ServerEvent => 's'
  }

  const ChannelPrefix: string := "$electron-ipc-flow$||"

  /** `channelGenerator`: the type character sits at a fixed offset after
      the prefix, followed by the controller and the event, `||`-separated. */
  function ChannelGenerator(controller: string, event: string, t: ChannelType): (ch: string)
    ensures |ch| == |ChannelPrefix| + 5 + |controller| + |event|
    ensures ch[..|ChannelPrefix|] == ChannelPrefix
    ensures ch[|ChannelPrefix|] == TypeChar(t)
    ensures ch[|ChannelPrefix| + 1..|ChannelPrefix| + 3] == "||"
    ensures ch[|ChannelPrefix| + 3..] == controller + "||" + event
  {
    ChannelPrefix + [TypeChar(t)] + "||" + controller + "||" + event
  }

  /** The three channel kinds never share a channel, whatever the names. */
  lemma ChannelKindsDistinct(c1: string, e1: string, t1: ChannelType, c2: string, e2: string, t2: ChannelType)
    requires t1 != t2
    ensures ChannelGenerator(c1, e1, t1) != ChannelGenerator(c2, e2, t2)
  {
    var ch1, ch2 := ChannelGenerator(c1, e1, t1), ChannelGenerator(c2, e2, t2);
    assert ch1[|ChannelPrefix|] != ch2[|ChannelPrefix|];
  }

  lemma SeparatorAt(c: string, sep: string, r: string)
    ensures sep != [] ==> (c + sep + r)[|c|] == sep[0]
    ensures forall k :: 0 <= k < |c| ==> (c + sep + r)[k] == c[k] && c[k] in c
  {
  }

  /** `controller + sep + rest` splits uniquely at the first character of
      `sep` when the controller names do not contain it. */
  lemma {:induction false} SplitAtSeparator(sep: string, c1: string, r1: string, c2: string, r2: string)
    requires sep != [] && sep[0] !in c1 && sep[0] !in c2
    requires c1 + sep + r1 == c2 + sep + r2
    ensures c1 == c2 && r1 == r2
  {
    var s1, s2 := c1 + sep + r1, c2 + sep + r2;
    SeparatorAt(c1, sep, r1);
    SeparatorAt(c2, sep, r2);
    if |c1| < |c2| {
      assert false;
    } else if |c2| < |c1| {
      assert false;
    } else {
      assert c1 == s1[..|c1|] == s2[..|c2|] == c2;
      assert r1 == s1[|c1| + |sep|..] == s2[|c2| + |sep|..] == r2;
    }
  }

  /** When controller names contain no `|`, a channel determines its
      type, controller and event. */
  lemma ChannelInjective(c1: string, e1: string, t1: ChannelType, c2: string, e2: string, t2: ChannelType)
    requires '|' !in c1 && '|' !in c2
    requires ChannelGenerator(c1, e1, t1) == ChannelGenerator(c2, e2, t2)
    ensures c1 == c2 && e1 == e2 && t1 == t2
  {
    var ch1, ch2 := ChannelGenerator(c1, e1, t1), ChannelGenerator(c2, e2, t2);
    assert ch1[|ChannelPrefix|] == ch2[|ChannelPrefix|];
    if t1 != t2 {
      ChannelKindsDistinct(c1, e1, t1, c2, e2, t2);
    }
    assert c1 + "||" + e1 == ch1[|ChannelPrefix| + 3..] == ch2[|ChannelPrefix| + 3..] == c2 + "||" + e2;
    SplitAtSeparator("||", c1, e1, c2, e2);
  }

  /** Without that restriction the generator is not injective: nothing in the
      controllers rejects a `|` in a name, and these two pairs share a channel. */
  lemma ChannelCollisionWithPipe()
    ensures ChannelGenerator("a|", "b", ServerEvent) == ChannelGenerator("a", "|b", ServerEvent)
  {
  }

  // ---------------------------------------------------------------------
  // `String.prototype.trim` and blank names

  /** The characters `trim` removes: ECMAScript WhiteSpace (tab, vertical tab,
      form feed, ZWNBSP and every Zs space) and LineTerminator. */
  predicate IsWhitespace(c: char)
  {
    c in {'\t', '\n', '\U{000B}', '\U{000C}', '\r', ' ', '\U{00A0}', '\U{1680}',
          '\U{2000}', '\U{2001}', '\U{2002}', '\U{2003}', '\U{2004}', '\U{2005}',
          '\U{2006}', '\U{2007}', '\U{2008}', '\U{2009}', '\U{200A}', '\U{2028}',
          '\U{2029}', '\U{202F}', '\U{205F}', '\U{3000}', '\U{FEFF}'}
  }

  ghost predicate AllWhitespace(s: string)
  {
    forall i :: 0 <= i < |s| ==> IsWhitespace(s[i])
  }

  function TrimStart(s: string): (r: string)
    ensures r != [] ==> !IsWhitespace(r[0])
  {
    if s != [] && IsWhitespace(s[0]) then TrimStart(s[1..]) else s
  }

  function TrimEnd(s: string): (r: string)
    ensures r != [] ==> !IsWhitespace(r[|r| - 1])
  {
    if s != [] && IsWhitespace(s[|s| - 1]) then TrimEnd(s[..|s| - 1]) else s
  }

  /** `s.trim()` */
  function Trim(s: string): string
  {
    TrimEnd(TrimStart(s))
  }

  /** `name.trim() === ''`, the test every controller constructor applies. */
  predicate IsBlank(name: string)
  {
    Trim(name) == ""
  }

  lemma {:induction false} TrimStartEmpty(s: string)
    ensures TrimStart(s) == [] <==> AllWhitespace(s)
    decreases |s|
  {
    if s != [] && IsWhitespace(s[0]) {
      TrimStartEmpty(s[1..]);
      assert AllWhitespace(s) <==> AllWhitespace(s[1..]) by {
        if AllWhitespace(s[1..]) {
          forall i | 0 <= i < |s| ensures IsWhitespace(s[i]) {
            if i > 0 { assert s[i] == s[1..][i - 1]; }
          }
        }
      }
    }
  }

  lemma {:induction false} TrimEndEmpty(s: string)
    ensures TrimEnd(s) == [] <==> AllWhitespace(s)
    decreases |s|
  {
    if s != [] && IsWhitespace(s[|s| - 1]) {
      var p := s[..|s| - 1];
      TrimEndEmpty(p);
      assert AllWhitespace(s) <==> AllWhitespace(p) by {
        if AllWhitespace(p) {
          forall i | 0 <= i < |s| ensures IsWhitespace(s[i]) {
            if i < |s| - 1 { assert s[i] == p[i]; }
          }
        }
      }
    }
  }

  /** A name is blank exactly when every character is whitespace (the empty
      name included). */
  lemma BlankIffAllWhitespace(name: string)
    ensures IsBlank(name) <==> AllWhitespace(name)
  {
    var t := TrimStart(name);
    TrimStartEmpty(name);
    TrimEndEmpty(t);
    if t != [] {
      assert !IsWhitespace(t[0]);
    }
  }
}
