/** websocket/WebSocketBuilder.kt: the receiver of the `websocket(url) { }`
    block. Five optional callbacks, each replaced by its own registration,
    and the insertion-ordered handshake headers. */
module WebSocketBuilding {
  import opened Base
  import opened LinkedMaps
  import HeaderDsl

  /** The five callbacks a session is given; `None` is Kotlin's `null`. */
  datatype Callbacks = Callbacks(
    onOpen: Option<Handler>,
    onMessage: Option<Handler>,
    onBinary: Option<Handler>,
    onClose: Option<Handler>,
    onError: Option<Handler>)

  const NoCallbacks := Callbacks(None, None, None, None, None)

  /** Which of the five callbacks a registration sets. */
  datatype Slot = OpenSlot | MessageSlot | BinarySlot | CloseSlot | ErrorSlot

  function HandlerIn(cb: Callbacks, slot: Slot): Option<Handler> {
    match slot
    case OpenSlot => cb.onOpen
    case MessageSlot => cb.onMessage
    case BinarySlot => cb.onBinary
    case CloseSlot => cb.onClose
    case ErrorSlot => cb.onError
  }

  /** Registering `h` in `slot`: that slot holds `h`, the other four keep
      what they held. */
  function Register(cb: Callbacks, slot: Slot, h: Handler): (r: Callbacks)
    ensures HandlerIn(r, slot) == Some(h)
    ensures forall other :: other != slot ==> HandlerIn(r, other) == HandlerIn(cb, other)
  {
    match slot
    case OpenSlot => cb.(onOpen := Some(h))
    case MessageSlot => cb.(onMessage := Some(h))
    case BinarySlot => cb.(onBinary := Some(h))
    case CloseSlot => cb.(onClose := Some(h))
    case ErrorSlot => cb.(onError := Some(h))
  }

  class WebSocketBuilder {
    var onOpen: Option<Handler>
    var onMessage: Option<Handler>
    var onBinary: Option<Handler>
    var onClose: Option<Handler>
    var onError: Option<Handler>
    var headers: LinkedMap<string, string>

    function Registered(): Callbacks
      reads this
    {
      Callbacks(onOpen, onMessage, onBinary, onClose, onError)
    }

    ghost predicate Valid()
      reads this
    {
      Distinct(headers)
    }

    constructor ()
      ensures Valid() && Registered() == NoCallbacks && headers == []
    {
      onOpen, onMessage, onBinary, onClose, onError := None, None, None, None, None;
      headers := [];
    }

    /** `onOpen(block)`. */
    method OnOpen(h: Handler)
      requires Valid()
      modifies this
      ensures Valid() && Registered() == Register(old(Registered()), OpenSlot, h) && headers == old(headers)
    {
      onOpen := Some(h);
    }

    /** `onMessage(block)`. */
    method OnMessage(h: Handler)
      requires Valid()
      modifies this
      ensures Valid() && Registered() == Register(old(Registered()), MessageSlot, h) && headers == old(headers)
    {
      onMessage := Some(h);
    }

    /** `onBinary(block)`. */
    method OnBinary(h: Handler)
      requires Valid()
      modifies this
      ensures Valid() && Registered() == Register(old(Registered()), BinarySlot, h) && headers == old(headers)
    {
      onBinary := Some(h);
    }

    /** `onClose(block)`. */
    method OnClose(h: Handler)
      requires Valid()
      modifies this
      ensures Valid() && Registered() == Register(old(Registered()), CloseSlot, h) && headers == old(headers)
    {
      onClose := Some(h);
    }

    /** `onError(block)`. */
    method OnError(h: Handler)
      requires Valid()
      modifies this
      ensures Valid() && Registered() == Register(old(Registered()), ErrorSlot, h) && headers == old(headers)
    {
      onError := Some(h);
    }

    /** `headers { ... }`: the block's entries merged in with `putAll`. */
    method Headers(block: seq<HeaderDsl.HeaderCall>)
      requires Valid()
      modifies this
      ensures Valid() && Registered() == old(Registered())
      ensures headers == PutAll(old(headers), PutAll([], HeaderDsl.Entries(block)))
    {
      var entries := HeaderDsl.Run(block);
      headers := PutAll(headers, entries);
    }

    /** `header(name, value)`. */
    method Header(name: string, value: string)
      requires Valid()
      modifies this
      ensures Valid() && Registered() == old(Registered())
      ensures headers == Put(old(headers), name, value)
    {
      headers := Put(headers, name, value);
    }
  }

  /** One statement of a `websocket { }` block. */
  datatype BuilderCall =
    | RegisterCall(slot: Slot, handler: Handler)
    | HeaderCall(name: string, value: string)
    | HeadersCall(block: seq<HeaderDsl.HeaderCall>)

  /** The callbacks a block leaves. */
  function CallbacksOf(block: seq<BuilderCall>): Callbacks
    decreases |block|
  {
    if block == [] then NoCallbacks
    else
      var prev := CallbacksOf(block[..|block| - 1]);
      match block[|block| - 1]
      case RegisterCall(slot, h) => Register(prev, slot, h)
      case _ => prev
  }

  /** The handshake headers a block leaves. */
  function HeadersOf(block: seq<BuilderCall>): (r: LinkedMap<string, string>)
    ensures Distinct(r)
    decreases |block|
  {
    if block == [] then []
    else
      var prev := HeadersOf(block[..|block| - 1]);
      match block[|block| - 1]
      case RegisterCall(_, _) => prev
      case HeaderCall(n, v) => Put(prev, n, v)
      case HeadersCall(hb) => PutAll(prev, PutAll([], HeaderDsl.Entries(hb)))
  }

  /** `WebSocketBuilder().apply(block)`. */
  method Configure(block: seq<BuilderCall>) returns (b: WebSocketBuilder)
    ensures fresh(b) && b.Valid()
    ensures b.Registered() == CallbacksOf(block) && b.headers == HeadersOf(block)
  {
    b := new WebSocketBuilder();
    for i := 0 to |block|
      invariant b.Valid()
      invariant b.Registered() == CallbacksOf(block[..i]) && b.headers == HeadersOf(block[..i])
    {
      assert block[..i + 1][..i] == block[..i];
      match block[i]
      case RegisterCall(slot, h) => {
        match slot
        case OpenSlot => b.OnOpen(h);
        case MessageSlot => b.OnMessage(h);
        case BinarySlot => b.OnBinary(h);
        case CloseSlot => b.OnClose(h);
        case ErrorSlot => b.OnError(h);
      }
      case HeaderCall(n, v) => b.Header(n, v);
      case HeadersCall(hb) => b.Headers(hb);
    }
    assert block[..|block|] == block;
  }

  /** The handler of the last registration of `slot` in a block. */
  function LastRegistration(block: seq<BuilderCall>, slot: Slot): (r: Option<Handler>)
    ensures r.None? <==> forall i :: 0 <= i < |block| ==> !(block[i].RegisterCall? && block[i].slot == slot)
    decreases |block|
  {
    if block == [] then None
    else
      var last := block[|block| - 1];
      if last.RegisterCall? && last.slot == slot then Some(last.handler)
      else
        var r := LastRegistration(block[..|block| - 1], slot);
        assert forall i :: 0 <= i < |block| - 1 ==> block[..|block| - 1][i] == block[i];
        r
  }

  /** Each callback is the one registered last for it, whatever else the
      block registers or writes, and `null` if it was never registered. */
  lemma {:induction false} RegistrationLastWins(block: seq<BuilderCall>, slot: Slot)
    ensures HandlerIn(CallbacksOf(block), slot) == LastRegistration(block, slot)
    decreases |block|
  {
    if block != [] {
      RegistrationLastWins(block[..|block| - 1], slot);
    }
  }

  /** The value a block writes last for a handshake header. */
  function LastHeader(block: seq<BuilderCall>, name: string): Option<string>
    decreases |block|
  {
    if block == [] then None
    else
      var prev := LastHeader(block[..|block| - 1], name);
      match block[|block| - 1]
      case RegisterCall(_, _) => prev
      case HeaderCall(n, v) => if n == name then Some(v) else prev
      case HeadersCall(hb) => if HeaderDsl.LastWrite(hb, name).Some? then HeaderDsl.LastWrite(hb, name) else prev
  }

  /** Handshake headers are last-write-wins across `header` and `headers { }`,
      and registering callbacks never touches them. */
  lemma {:induction false} HandshakeHeaderLastWins(block: seq<BuilderCall>, name: string)
    ensures Get(HeadersOf(block), name) == LastHeader(block, name)
    decreases |block|
  {
    if block != [] {
      var init := block[..|block| - 1];
      HandshakeHeaderLastWins(init, name);
      match block[|block| - 1]
      case HeadersCall(hb) =>
        PutAllGet(HeadersOf(init), PutAll([], HeaderDsl.Entries(hb)), name);
        HeaderDsl.RunLastWriteWins(hb, name);
      case _ =>
    }
  }
}
