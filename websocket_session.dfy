/** websocket/WebSocketSession.kt: an open WebSocket connection. The JDK
    delivers events to a listener; the listener reassembles fragmented text
    and binary messages (section 5.4 of RFC 6455), asks for one more frame
    after each delivered one, calls the user's callbacks, and resolves the
    one-shot `done` signal on close (normally) or on error (exceptionally).
    The sender writes whole messages and closes with status 1000, normal
    closure (section 7.4.1 of RFC 6455).

    The connection and its events are inputs. What the session does in
    response is recorded, in order, in a log of effects: callbacks invoked
    and calls made on the connection. */
module WebSocketSessions {
  import opened Base
  import opened LinkedMaps
  import opened WebSocketBuilding

  /** A JDK `WebSocket`, known by its identity. */
  datatype Conn = Conn(id: nat)

  /** The state of the `done` future. */
  datatype Done = Pending | Completed | CompletedExceptionally(cause: Cause)

  /** `WebSocket.NORMAL_CLOSURE`. */
  const NormalClosure: Int32 := 1000

  /** A call the session makes on the connection. */
  datatype WireCall =
    | Request(conn: Conn, n: nat)
    | SendText(conn: Conn, text: string, last: bool)
    | SendBinary(conn: Conn, bytes: Bytes, last: bool)
    | SendClose(conn: Conn, code: Int32, reason: string)

  /** A user callback being invoked, with its arguments. */
  datatype Invocation =
    | Opened(h: Handler)
    | Message(h: Handler, text: string)
    | BinaryMessage(h: Handler, bytes: Bytes)
    | Closed(h: Handler, code: Int32, reason: string)
    | Errored(h: Handler, cause: Cause)

  datatype Effect =
    | Handshake(url: string, headers: LinkedMap<string, string>)
    | Invoked(invocation: Invocation)
    | Wire(call: WireCall)

  /** A use of the `WebSocketSender`. */
  datatype SenderOp = SendTextOp(text: string) | SendBytesOp(bytes: Bytes) | CloseOp

  /** What the JDK delivers to the listener. For `Open`, `actions` are what
      the user's `onOpen` callback does with the sender it is given. */
  datatype Event =
    | Open(conn: Conn, actions: seq<SenderOp>)
    | Text(conn: Conn, data: string, last: bool)
    | Binary(conn: Conn, bytes: Bytes, final: bool)
    | Close(conn: Conn, code: Int32, reason: string)
    | Error(conn: Conn, cause: Cause)

  /** Everything the session holds: the callbacks, the `lateinit ws`
      (`None` until open), the text and binary buffers, `done`, and the log. */
  datatype Session = Session(
    callbacks: Callbacks,
    ws: Option<Conn>,
    text: string,
    binary: seq<Bytes>,
    done: Done,
    effects: seq<Effect>)

  /** A new session: the handshake has been started, nothing else. */
  function Initial(url: string, headers: LinkedMap<string, string>, callbacks: Callbacks): Session {
    Session(callbacks, None, "", [], Pending, [Handshake(url, headers)])
  }

  /** The one call a sender operation makes on the connection. */
  function WireOf(c: Conn, op: SenderOp): WireCall {
    match op
    case SendTextOp(t) => SendText(c, t, true)
    case SendBytesOp(b) => SendBinary(c, b, true)
    case CloseOp => SendClose(c, NormalClosure, "")
  }

  /** A sender operation: `None` when `ws` is not yet initialised (Kotlin
      throws), otherwise the one wire call is made. */
  function Perform(s: Session, op: SenderOp): Option<Session> {
    match s.ws
    case None => None
    case Some(c) => Some(s.(effects := s.effects + [Wire(WireOf(c, op))]))
  }

  /** The wire calls of a sequence of sender operations on `c`. */
  function WiresOf(c: Conn, ops: seq<SenderOp>): (r: seq<Effect>)
    ensures |r| == |ops| && forall i :: 0 <= i < |ops| ==> r[i] == Wire(WireOf(c, ops[i]))
  {
    seq(|ops|, i requires 0 <= i < |ops| => Wire(WireOf(c, ops[i])))
  }

  /** `CompletableFuture.complete`/`completeExceptionally`: only a pending
      future changes. */
  function Resolve(d: Done, outcome: Done): Done {
    if d.Pending? then outcome else d
  }

  /** The listener's reaction to one event. */
  function Step(s: Session, e: Event): Session {
    match e
    case Open(c, actions) =>
      var invoked := if s.callbacks.onOpen.Some?
        then [Invoked(Opened(s.callbacks.onOpen.value))] + WiresOf(c, actions) else [];
      s.(ws := Some(c), effects := s.effects + invoked + [Wire(Request(c, 1))])
    case Text(c, data, last) =>
      var buffered := s.text + data;
      if last then
        s.(text := "", effects := s.effects + (if s.callbacks.onMessage.Some? then [Invoked(Message(s.callbacks.onMessage.value, buffered))] else []) + [Wire(Request(c, 1))])
      else
        s.(text := buffered, effects := s.effects + [Wire(Request(c, 1))])
    case Binary(c, data, last) =>
      var fragments := s.binary + [data];
      if last then
        s.(binary := [], effects := s.effects + (if s.callbacks.onBinary.Some? then [Invoked(BinaryMessage(s.callbacks.onBinary.value, Flatten(fragments)))] else []) + [Wire(Request(c, 1))])
      else
        s.(binary := fragments, effects := s.effects + [Wire(Request(c, 1))])
    case Close(c, code, reason) =>
      s.(done := Resolve(s.done, Completed), effects := s.effects + (if s.callbacks.onClose.Some? then [Invoked(Closed(s.callbacks.onClose.value, code, reason))] else []))
    case Error(c, cause) =>
      s.(done := Resolve(s.done, CompletedExceptionally(cause)), effects := s.effects + (if s.callbacks.onError.Some? then [Invoked(Errored(s.callbacks.onError.value, cause))] else []))
  }

  /** Events delivered in order. */
  function Run(s: Session, events: seq<Event>): Session
    decreases |events|
  {
    if events == [] then s else Step(Run(s, events[..|events| - 1]), events[|events| - 1])
  }

  /** What `join()` does in a given state. `CompletableFuture.join()` does not
      rethrow an exceptional completion's cause as it is: it throws a
      `CompletionException` carrying that cause, which `ThrowsCompletion`
      records. */
  datatype JoinResult = Blocks | Returns | ThrowsCompletion(cause: Cause)

  function JoinOf(d: Done): (r: JoinResult)
    ensures r == Blocks <==> d.Pending?
    ensures r == Returns <==> d.Completed?
    ensures r.ThrowsCompletion? <==> d.CompletedExceptionally?
    ensures r.ThrowsCompletion? ==> r.cause == d.cause
  {
    match d
    case Pending => Blocks
    case Completed => Returns
    case CompletedExceptionally(cause) => ThrowsCompletion(cause)
  }

  // ---------------------------------------------------------------------------
  // Properties of the listener

  /** A non-final text fragment is buffered: no callback, one pull, nothing
      else changes. */
  lemma NonFinalTextBuffers(s: Session, c: Conn, data: string)
    ensures var r := Step(s, Text(c, data, false));
      r.text == s.text + data && r.binary == s.binary && r.done == s.done &&
      r.ws == s.ws && r.callbacks == s.callbacks &&
      r.effects == s.effects + [Wire(Request(c, 1))]
  {
  }

  /** A final text fragment delivers the buffer plus the fragment (`whole`)
      once, to `onMessage` if registered, empties the buffer, and pulls once. */
  lemma FinalTextDelivers(s: Session, c: Conn, data: string, whole: string)
    requires whole == s.text + data
    ensures var r := Step(s, Text(c, data, true));
      r.text == "" && r.binary == s.binary && r.done == s.done && r.ws == s.ws &&
      r.effects == s.effects +
        (if s.callbacks.onMessage.Some? then [Invoked(Message(s.callbacks.onMessage.value, whole))] else []) +
        [Wire(Request(c, 1))]
  {
  }

  function Pulls(c: Conn, n: nat): (r: seq<Effect>)
    ensures |r| == n && forall i :: 0 <= i < n ==> r[i] == Wire(Request(c, 1))
  {
    seq(n, _ => Wire(Request(c, 1)))
  }

  /** The events of a fragmented text message: only the last one is final. */
  function TextFrames(c: Conn, fragments: seq<string>): (r: seq<Event>)
    ensures |r| == |fragments|
  {
    seq(|fragments|, i requires 0 <= i < |fragments| => Text(c, fragments[i], i == |fragments| - 1))
  }

  function BinaryFrames(c: Conn, fragments: seq<Bytes>): (r: seq<Event>)
    ensures |r| == |fragments|
  {
    seq(|fragments|, i requires 0 <= i < |fragments| => Binary(c, fragments[i], i == |fragments| - 1))
  }

  lemma {:induction false} TextPrefix(s: Session, c: Conn, fragments: seq<string>, k: nat)
    requires k < |fragments|
    ensures var r := Run(s, TextFrames(c, fragments)[..k]);
      r == s.(text := s.text + Flatten(fragments[..k]), effects := s.effects + Pulls(c, k))
  {
    if k == 0 {
      assert s.text + Flatten(fragments[..0]) == s.text;
      assert s.effects + Pulls(c, 0) == s.effects;
    } else {
      var evs := TextFrames(c, fragments)[..k];
      assert evs[..k - 1] == TextFrames(c, fragments)[..k - 1];
      TextPrefix(s, c, fragments, k - 1);
      assert fragments[..k][..k - 1] == fragments[..k - 1];
      assert s.text + Flatten(fragments[..k - 1]) + fragments[k - 1] == s.text + Flatten(fragments[..k]);
      assert s.effects + Pulls(c, k - 1) + [Wire(Request(c, 1))] == s.effects + Pulls(c, k);
    }
  }

  /** Text fragments f1..fn of which only fn is final reach `onMessage` once,
      as f1 + ... + fn in arrival order (after what was buffered before), with
      one pull per fragment, and leave the buffer empty. */
  lemma TextReassembly(s: Session, c: Conn, fragments: seq<string>)
    requires |fragments| >= 1
    ensures var r := Run(s, TextFrames(c, fragments));
      r.text == "" && r.binary == s.binary && r.done == s.done && r.ws == s.ws &&
      r.effects == s.effects + Pulls(c, |fragments| - 1) +
        (if s.callbacks.onMessage.Some? then [Invoked(Message(s.callbacks.onMessage.value, s.text + Flatten(fragments)))] else []) +
        [Wire(Request(c, 1))]
  {
    var n := |fragments| - 1;
    var evs := TextFrames(c, fragments);
    TextPrefix(s, c, fragments, n);
    var mid := Run(s, evs[..n]);
    assert evs[n] == Text(c, fragments[n], true);
    FlattenLast(s.text, fragments);
    FinalTextDelivers(mid, c, fragments[n], s.text + Flatten(fragments));
  }

  lemma {:induction false} BinaryPrefix(s: Session, c: Conn, fragments: seq<Bytes>, k: nat)
    requires k < |fragments|
    ensures var r := Run(s, BinaryFrames(c, fragments)[..k]);
      r == s.(binary := s.binary + fragments[..k], effects := s.effects + Pulls(c, k))
  {
    if k == 0 {
      assert s.binary + fragments[..0] == s.binary;
      assert s.effects + Pulls(c, 0) == s.effects;
    } else {
      var evs := BinaryFrames(c, fragments)[..k];
      assert evs[..k - 1] == BinaryFrames(c, fragments)[..k - 1];
      BinaryPrefix(s, c, fragments, k - 1);
      assert s.binary + fragments[..k - 1] + [fragments[k - 1]] == s.binary + fragments[..k];
      assert s.effects + Pulls(c, k - 1) + [Wire(Request(c, 1))] == s.effects + Pulls(c, k);
    }
  }

  /** A final binary fragment delivers the list plus the fragment, joined,
      once, to `onBinary` if registered, empties the list, and pulls once. */
  lemma FinalBinaryDelivers(s: Session, c: Conn, data: Bytes)
    ensures var r := Step(s, Binary(c, data, true));
      r.binary == [] && r.text == s.text && r.done == s.done && r.ws == s.ws &&
      r.effects == s.effects +
        (if s.callbacks.onBinary.Some? then [Invoked(BinaryMessage(s.callbacks.onBinary.value, Flatten(s.binary + [data])))] else []) +
        [Wire(Request(c, 1))]
  {
  }

  /** Binary fragments are kept in arrival order after whatever the list
      already held; the final one delivers the exact concatenation of it
      all, once, to `onBinary` if registered, and the list is emptied. */
  lemma BinaryReassembly(s: Session, c: Conn, fragments: seq<Bytes>)
    requires |fragments| >= 1
    ensures var r := Run(s, BinaryFrames(c, fragments));
      r.binary == [] && r.text == s.text && r.done == s.done && r.ws == s.ws &&
      r.effects == s.effects + Pulls(c, |fragments| - 1) +
        (if s.callbacks.onBinary.Some? then [Invoked(BinaryMessage(s.callbacks.onBinary.value, Flatten(s.binary + fragments)))] else []) +
        [Wire(Request(c, 1))]
  {
    var n := |fragments| - 1;
    var evs := BinaryFrames(c, fragments);
    BinaryPrefix(s, c, fragments, n);
    var mid := Run(s, evs[..n]);
    assert evs[..|evs| - 1] == evs[..n];
    assert Run(s, evs) == Step(mid, evs[n]);
    assert evs[n] == Binary(c, fragments[n], true);
    FinalBinaryDelivers(mid, c, fragments[n]);
    assert fragments[..n] + [fragments[n]] == fragments;
    assert mid.binary + [fragments[n]] == s.binary + fragments;
  }

  /** The three bytes of a message split 1 | 2 3 arrive as one array 1 2 3. */
  lemma BinaryExample(s: Session, c: Conn, h: Handler)
    requires s.binary == [] && s.callbacks.onBinary == Some(h)
    ensures Run(s, BinaryFrames(c, [[1], [2, 3]])).effects ==
      s.effects + [Wire(Request(c, 1)), Invoked(BinaryMessage(h, [1, 2, 3])), Wire(Request(c, 1))]
  {
    var fragments: seq<Bytes> := [[1], [2, 3]];
    BinaryReassembly(s, c, fragments);
    assert fragments[..1] == [[1]];
    assert fragments[..1][..0] == [];
    assert s.binary + fragments == fragments;
    assert Flatten(fragments) == [1, 2, 3];
  }

  /** "Hel" then "lo" (final) gives one "Hello". */
  lemma HelloInTwoFragments(s: Session, c: Conn, h: Handler)
    requires s.text == "" && s.callbacks.onMessage == Some(h)
    ensures Run(s, TextFrames(c, ["Hel", "lo"])).effects ==
      s.effects + [Wire(Request(c, 1)), Invoked(Message(h, "Hello")), Wire(Request(c, 1))]
  {
    var fragments := ["Hel", "lo"];
    TextReassembly(s, c, fragments);
    assert fragments[..1] == ["Hel"];
    assert fragments[..1][..0] == [];
    assert Flatten(fragments[..1]) == "Hel";
    assert s.text + Flatten(fragments) == "Hello";
    assert Pulls(c, 1) == [Wire(Request(c, 1))];
  }

  /** How many pulls (`request(1)`) a log holds. */
  function PullCount(effects: seq<Effect>): nat
    decreases |effects|
  {
    if effects == [] then 0
    else PullCount(effects[..|effects| - 1]) + (if effects[|effects| - 1].Wire? && effects[|effects| - 1].call.Request? then 1 else 0)
  }

  lemma {:induction false} PullCountAppend(a: seq<Effect>, b: seq<Effect>)
    ensures PullCount(a + b) == PullCount(a) + PullCount(b)
    decreases |b|
  {
    if b == [] {
      assert a + b == a;
    } else {
      assert (a + b)[..|a + b| - 1] == a + b[..|b| - 1];
      PullCountAppend(a, b[..|b| - 1]);
    }
  }

  lemma {:induction false} WiresHaveNoPull(c: Conn, ops: seq<SenderOp>)
    ensures PullCount(WiresOf(c, ops)) == 0
    decreases |ops|
  {
    if ops != [] {
      assert WiresOf(c, ops)[..|ops| - 1] == WiresOf(c, ops[..|ops| - 1]);
      WiresHaveNoPull(c, ops[..|ops| - 1]);
    }
  }

  predicate NoPulls(xs: seq<Effect>) {
    forall i :: 0 <= i < |xs| ==> !(xs[i].Wire? && xs[i].call.Request?)
  }

  lemma {:induction false} NoPullsCount(xs: seq<Effect>)
    requires NoPulls(xs)
    ensures PullCount(xs) == 0
    decreases |xs|
  {
    if xs != [] {
      NoPullsCount(xs[..|xs| - 1]);
    }
  }

  /** Appending effects that hold no pull, then `tail`, adds the pulls of `tail`. */
  lemma PullCountChunk(a: seq<Effect>, xs: seq<Effect>, tail: seq<Effect>)
    requires NoPulls(xs)
    ensures PullCount(a + xs + tail) == PullCount(a) + PullCount(tail)
  {
    PullCountAppend(a + xs, tail);
    PullCountAppend(a, xs);
    NoPullsCount(xs);
  }

  lemma OnePull(c: Conn)
    ensures PullCount([Wire(Request(c, 1))]) == 1
  {
    assert [Wire(Request(c, 1))][..0] == [];
  }

  /** Exactly one pull per delivered frame, final or not, and one on open
      (after the `onOpen` callback and whatever it sends); close and error
      pull nothing. */
  lemma OnePullPerFrame(s: Session, e: Event)
    ensures PullCount(Step(s, e).effects) ==
      PullCount(s.effects) + (if e.Open? || e.Text? || e.Binary? then 1 else 0)
  {
    var r := Step(s, e);
    match e
    case Open(c, actions) =>
      var xs := if s.callbacks.onOpen.Some? then [Invoked(Opened(s.callbacks.onOpen.value))] + WiresOf(c, actions) else [];
      assert r.effects == s.effects + xs + [Wire(Request(c, 1))];
      PullCountChunk(s.effects, xs, [Wire(Request(c, 1))]);
      OnePull(c);
    case Text(c, data, last) =>
      var xs := if last then (if s.callbacks.onMessage.Some? then [Invoked(Message(s.callbacks.onMessage.value, s.text + data))] else []) else [];
      assert r.effects == s.effects + xs + [Wire(Request(c, 1))];
      PullCountChunk(s.effects, xs, [Wire(Request(c, 1))]);
      OnePull(c);
    case Binary(c, data, last) =>
      var xs := if last then (if s.callbacks.onBinary.Some? then [Invoked(BinaryMessage(s.callbacks.onBinary.value, Flatten(s.binary + [data])))] else []) else [];
      assert r.effects == s.effects + xs + [Wire(Request(c, 1))];
      PullCountChunk(s.effects, xs, [Wire(Request(c, 1))]);
      OnePull(c);
    case Close(c, code, reason) =>
      var xs := if s.callbacks.onClose.Some? then [Invoked(Closed(s.callbacks.onClose.value, code, reason))] else [];
      assert r.effects == s.effects + xs + [];
      PullCountChunk(s.effects, xs, []);
    case Error(c, cause) =>
      var xs := if s.callbacks.onError.Some? then [Invoked(Errored(s.callbacks.onError.value, cause))] else [];
      assert r.effects == s.effects + xs + [];
      PullCountChunk(s.effects, xs, []);
  }

  /** `onOpen` stores the connection before the callback runs, so the
      sender works inside it: each of its operations reaches the wire, after
      the callback is invoked and before the pull. */
  lemma SenderUsableInOnOpen(s: Session, c: Conn, actions: seq<SenderOp>, h: Handler)
    requires s.callbacks.onOpen == Some(h)
    ensures var r := Step(s, Open(c, actions));
      r.ws == Some(c) &&
      r.effects == s.effects + [Invoked(Opened(h))] + WiresOf(c, actions) + [Wire(Request(c, 1))]
  {
  }

  /** Before open the sender fails (`ws` is not initialised) and nothing is
      sent; after open every operation makes exactly its one wire call:
      text and bytes as one final frame, close as 1000 with an empty reason. */
  lemma SenderNeedsOpen(s: Session, op: SenderOp)
    ensures Perform(s, op).None? <==> s.ws.None?
    ensures s.ws.Some? ==> Perform(s, op) == Some(s.(effects := s.effects + [Wire(WireOf(s.ws.value, op))]))
    ensures s.ws.Some? && op == CloseOp ==> WireOf(s.ws.value, op) == SendClose(s.ws.value, 1000, "")
    ensures s.ws.Some? && op.SendTextOp? ==> WireOf(s.ws.value, op) == SendText(s.ws.value, op.text, true)
    ensures s.ws.Some? && op.SendBytesOp? ==> WireOf(s.ws.value, op) == SendBinary(s.ws.value, op.bytes, true)
  {
  }

  /** Close calls `onClose(code, reason)` and completes `done` normally; error
      calls `onError` and completes it exceptionally; once resolved, `done`
      never changes again. */
  lemma TerminalEvents(s: Session, e: Event)
    requires e.Close? || e.Error?
    ensures var r := Step(s, e);
      r.text == s.text && r.binary == s.binary && r.ws == s.ws &&
      (!s.done.Pending? ==> r.done == s.done) &&
      (s.done.Pending? && e.Close? ==> r.done == Completed) &&
      (s.done.Pending? && e.Error? ==> r.done == CompletedExceptionally(e.cause)) &&
      (e.Close? ==> r.effects == s.effects + (if s.callbacks.onClose.Some? then [Invoked(Closed(s.callbacks.onClose.value, e.code, e.reason))] else [])) &&
      (e.Error? ==> r.effects == s.effects + (if s.callbacks.onError.Some? then [Invoked(Errored(s.callbacks.onError.value, e.cause))] else []))
  {
  }

  /** The first close or error among the events. */
  function FirstTerminal(events: seq<Event>): (r: Option<Event>)
    ensures r.Some? ==> r.value.Close? || r.value.Error?
    decreases |events|
  {
    if events == [] then None
    else
      var earlier := FirstTerminal(events[..|events| - 1]);
      if earlier.Some? then earlier
      else if events[|events| - 1].Close? || events[|events| - 1].Error? then Some(events[|events| - 1])
      else None
  }

  /** Only the first terminal event decides how `done` ends: normally after a
      close, exceptionally (with its cause) after an error, and still pending
      when there has been neither, whatever follows. */
  lemma {:induction false} FirstResolutionWins(s: Session, events: seq<Event>)
    requires s.done.Pending?
    ensures Run(s, events).done ==
      match FirstTerminal(events)
      case None => Pending
      case Some(e) => if e.Close? then Completed else CompletedExceptionally(e.cause)
    decreases |events|
  {
    if events != [] {
      FirstResolutionWins(s, events[..|events| - 1]);
    }
  }

  /** `done` waits for the listener: while no close or error has arrived,
      `join()` blocks. This includes a handshake that fails, since the
      future of `buildAsync` is dropped and the listener never hears of it,
      so no event arrives at all. */
  lemma JoinBlocksWithoutTerminal(url: string, headers: LinkedMap<string, string>, callbacks: Callbacks, events: seq<Event>)
    requires FirstTerminal(events).None?
    ensures JoinOf(Run(Initial(url, headers, callbacks), events).done) == Blocks
  {
    FirstResolutionWins(Initial(url, headers, callbacks), events);
  }

  /** No event but close and error touches `done`. */
  lemma OnlyTerminalEventsResolve(s: Session, e: Event)
    requires !(e.Close? || e.Error?)
    ensures Step(s, e).done == s.done && Step(s, e).callbacks == s.callbacks
  {
  }

  /** An invocation of `onClose` or `onError`. */
  predicate IsTerminalCallback(e: Effect) {
    e.Invoked? && (e.invocation.Closed? || e.invocation.Errored?)
  }

  /** How many `onClose`/`onError` invocations a log holds. */
  function TerminalCallbacks(effects: seq<Effect>): nat
    decreases |effects|
  {
    if effects == [] then 0
    else TerminalCallbacks(effects[..|effects| - 1]) + (if IsTerminalCallback(effects[|effects| - 1]) then 1 else 0)
  }

  /** How many close and error events a sequence holds. */
  function TerminalEventCount(events: seq<Event>): nat
    decreases |events|
  {
    if events == [] then 0
    else TerminalEventCount(events[..|events| - 1]) + (if events[|events| - 1].Close? || events[|events| - 1].Error? then 1 else 0)
  }

  lemma {:induction false} TerminalCallbacksAppend(a: seq<Effect>, b: seq<Effect>)
    ensures TerminalCallbacks(a + b) == TerminalCallbacks(a) + TerminalCallbacks(b)
    decreases |b|
  {
    if b == [] {
      assert a + b == a;
    } else {
      assert (a + b)[..|a + b| - 1] == a + b[..|b| - 1];
      TerminalCallbacksAppend(a, b[..|b| - 1]);
    }
  }

  lemma {:induction false} NoTerminalCallbacks(xs: seq<Effect>)
    requires forall i :: 0 <= i < |xs| ==> !IsTerminalCallback(xs[i])
    ensures TerminalCallbacks(xs) == 0
    decreases |xs|
  {
    if xs != [] {
      NoTerminalCallbacks(xs[..|xs| - 1]);
    }
  }

  /** Appending effects none of which is a terminal callback keeps the count. */
  lemma NoTerminalChunk(a: seq<Effect>, xs: seq<Effect>)
    requires forall i :: 0 <= i < |xs| ==> !IsTerminalCallback(xs[i])
    ensures TerminalCallbacks(a + xs) == TerminalCallbacks(a)
  {
    NoTerminalCallbacks(xs);
    TerminalCallbacksAppend(a, xs);
  }

  /** Appending one effect adds one exactly when it is a terminal callback. */
  lemma OneMoreEffect(a: seq<Effect>, x: Effect)
    ensures TerminalCallbacks(a + [x]) == TerminalCallbacks(a) + (if IsTerminalCallback(x) then 1 else 0)
  {
    assert (a + [x])[..|a|] == a;
  }

  /** Open invokes `onOpen` and makes wire calls, none of them terminal. */
  lemma OpenInvokesNoTerminal(s: Session, c: Conn, actions: seq<SenderOp>)
    ensures TerminalCallbacks(Step(s, Open(c, actions)).effects) == TerminalCallbacks(s.effects)
  {
    var xs := (if s.callbacks.onOpen.Some? then [Invoked(Opened(s.callbacks.onOpen.value))] + WiresOf(c, actions) else []) + [Wire(Request(c, 1))];
    assert Step(s, Open(c, actions)).effects == s.effects + xs;
    assert forall i :: 0 <= i < |xs| ==> !IsTerminalCallback(xs[i]);
    NoTerminalChunk(s.effects, xs);
  }

  /** Open, text and binary frames invoke neither `onClose` nor `onError`. */
  lemma DataEventsInvokeNoTerminal(s: Session, e: Event)
    requires !(e.Close? || e.Error?)
    ensures TerminalCallbacks(Step(s, e).effects) == TerminalCallbacks(s.effects)
  {
    var r := Step(s, e);
    match e
    case Open(c, actions) =>
      OpenInvokesNoTerminal(s, c, actions);
    case Text(c, data, last) =>
      var xs := r.effects[|s.effects|..];
      assert r.effects == s.effects + xs;
      NoTerminalChunk(s.effects, xs);
    case Binary(c, data, last) =>
      var xs := r.effects[|s.effects|..];
      assert r.effects == s.effects + xs;
      NoTerminalChunk(s.effects, xs);
  }

  /** Close invokes `onClose` and error invokes `onError`, each when
      registered; no other event invokes either. */
  lemma TerminalCallbackPerEvent(s: Session, e: Event)
    ensures TerminalCallbacks(Step(s, e).effects) == TerminalCallbacks(s.effects) +
      (if (e.Close? && s.callbacks.onClose.Some?) || (e.Error? && s.callbacks.onError.Some?) then 1 else 0)
  {
    match e
    case Close(c, code, reason) =>
      if s.callbacks.onClose.Some? {
        OneMoreEffect(s.effects, Invoked(Closed(s.callbacks.onClose.value, code, reason)));
      } else {
        assert Step(s, e).effects == s.effects + [] == s.effects;
      }
    case Error(c, cause) =>
      if s.callbacks.onError.Some? {
        OneMoreEffect(s.effects, Invoked(Errored(s.callbacks.onError.value, cause)));
      } else {
        assert Step(s, e).effects == s.effects + [] == s.effects;
      }
    case _ =>
      DataEventsInvokeNoTerminal(s, e);
  }

  /** Over a run, `onClose` and `onError` together are invoked at most once
      per close or error event. */
  lemma {:induction false} TerminalCallbacksBounded(s: Session, events: seq<Event>)
    ensures TerminalCallbacks(Run(s, events).effects) <= TerminalCallbacks(s.effects) + TerminalEventCount(events)
    decreases |events|
  {
    if events != [] {
      var pre := events[..|events| - 1];
      TerminalCallbacksBounded(s, pre);
      TerminalCallbackPerEvent(Run(s, pre), events[|events| - 1]);
    }
  }

  /** The JDK ends a listener's life with one close or one error; then the
      session invokes `onClose` or `onError` at most once, never both. */
  lemma AtMostOneTerminalCallback(s: Session, events: seq<Event>)
    requires TerminalCallbacks(s.effects) == 0
    requires TerminalEventCount(events) <= 1
    ensures TerminalCallbacks(Run(s, events).effects) <= 1
  {
    TerminalCallbacksBounded(s, events);
  }

  /** Which message, if any, is left unfinished by a sequence of frames: a
      non-final frame starts or continues one, a final frame ends it. */
  datatype Unfinished = Neither | TextUnfinished | BinaryUnfinished

  function UnfinishedAfter(events: seq<Event>): Unfinished
    decreases |events|
  {
    if events == [] then Neither
    else match events[|events| - 1]
      case Text(_, _, last) => if last then Neither else TextUnfinished
      case Binary(_, _, final) => if final then Neither else BinaryUnfinished
      case _ => UnfinishedAfter(events[..|events| - 1])
  }

  /** The fragments of one message are not interleaved with those of
      another (section 5.4 of RFC 6455): no binary frame arrives inside an
      unfinished text message, and no text frame inside a binary one. */
  predicate NotInterleaved(events: seq<Event>) {
    forall k :: 0 <= k < |events| ==>
      (events[k].Binary? ==> UnfinishedAfter(events[..k]) != TextUnfinished) &&
      (events[k].Text? ==> UnfinishedAfter(events[..k]) != BinaryUnfinished)
  }

  /** Starting with empty buffers, the text buffer holds something only
      inside an unfinished text message and the binary list only inside an
      unfinished binary one. */
  lemma {:induction false} BuffersFollowFrames(s: Session, events: seq<Event>)
    requires s.text == "" && s.binary == []
    requires NotInterleaved(events)
    ensures var r := Run(s, events);
      (r.text != "" ==> UnfinishedAfter(events) == TextUnfinished) &&
      (r.binary != [] ==> UnfinishedAfter(events) == BinaryUnfinished)
    decreases |events|
  {
    if events != [] {
      var pre := events[..|events| - 1];
      forall k | 0 <= k < |pre|
        ensures pre[k] == events[k] && pre[..k] == events[..k]
      {
      }
      BuffersFollowFrames(s, pre);
      assert events[..|pre|] == pre;
    }
  }

  /** Starting with empty buffers and with frames not interleaved, the text
      buffer and the binary list are never both in use. */
  lemma NeverBothBuffered(s: Session, events: seq<Event>)
    requires s.text == "" && s.binary == []
    requires NotInterleaved(events)
    ensures var r := Run(s, events); r.text == "" || r.binary == []
  {
    BuffersFollowFrames(s, events);
  }

  // ---------------------------------------------------------------------------
  // The session object

  class WebSocketSession {
    const url: string
    const headers: LinkedMap<string, string>
    const callbacks: Callbacks
    var done: Done
    var textBuffer: string
    var binaryBuffer: seq<Bytes>
    var ws: Option<Conn>
    ghost var effects: seq<Effect>

    ghost function State(): Session
      reads this
    {
      Session(callbacks, ws, textBuffer, binaryBuffer, done, effects)
    }

    /** The constructor's `init`: the handshake is started with the headers
        in insertion order and the listener below. */
    constructor (url: string, headers: LinkedMap<string, string>, callbacks: Callbacks)
      ensures State() == Initial(url, headers, callbacks)
      ensures this.url == url && this.headers == headers
    {
      this.url, this.headers, this.callbacks := url, headers, callbacks;
      done, textBuffer, binaryBuffer, ws := Pending, "", [], None;
      effects := [Handshake(url, headers)];
    }

    /** The sender's operations. */
    method Sender(op: SenderOp) returns (ok: bool)
      modifies this
      ensures ok <==> old(ws).Some?
      ensures old(Perform(State(), op)).Some? ==> State() == old(Perform(State(), op)).value
      ensures old(Perform(State(), op)).None? ==> State() == old(State())
    {
      if ws.None? {
        return false;
      }
      effects := effects + [Wire(WireOf(ws.value, op))];
      ok := true;
    }

    /** Listener `onOpen`: store the connection, run the user callback with
        the sender, then pull one frame. */
    method OnOpen(c: Conn, actions: seq<SenderOp>)
      modifies this
      ensures State() == Step(old(State()), Open(c, actions))
    {
      ws := Some(c);
      if callbacks.onOpen.Some? {
        effects := effects + [Invoked(Opened(callbacks.onOpen.value))];
        ghost var before := effects;
        for i := 0 to |actions|
          invariant ws == Some(c)
          invariant effects == before + WiresOf(c, actions[..i])
          invariant textBuffer == old(textBuffer) && binaryBuffer == old(binaryBuffer) && done == old(done)
        {
          assert WiresOf(c, actions[..i + 1]) == WiresOf(c, actions[..i]) + [Wire(WireOf(c, actions[i]))];
          var ok := Sender(actions[i]);
        }
        assert actions[..|actions|] == actions;
      }
      effects := effects + [Wire(Request(c, 1))];
    }

    /** Listener `onText`. */
    method OnText(c: Conn, data: string, last: bool)
      modifies this
      ensures State() == Step(old(State()), Text(c, data, last))
    {
      textBuffer := textBuffer + data;
      if last {
        if callbacks.onMessage.Some? {
          effects := effects + [Invoked(Message(callbacks.onMessage.value, textBuffer))];
        }
        textBuffer := "";
      }
      effects := effects + [Wire(Request(c, 1))];
    }

    /** Listener `onBinary`: the fragment's bytes are copied into the list;
        on the final one the list is folded into one array. */
    method OnBinary(c: Conn, data: Bytes, last: bool)
      modifies this
      ensures State() == Step(old(State()), Binary(c, data, last))
    {
      binaryBuffer := binaryBuffer + [data];
      if last {
        var full := Flatten(binaryBuffer);
        if callbacks.onBinary.Some? {
          effects := effects + [Invoked(BinaryMessage(callbacks.onBinary.value, full))];
        }
        binaryBuffer := [];
      }
      effects := effects + [Wire(Request(c, 1))];
    }

    /** Listener `onClose`. */
    method OnClose(c: Conn, code: Int32, reason: string)
      modifies this
      ensures State() == Step(old(State()), Event.Close(c, code, reason))
    {
      if callbacks.onClose.Some? {
        effects := effects + [Invoked(Closed(callbacks.onClose.value, code, reason))];
      }
      if done.Pending? {
        done := Completed;
      }
    }

    /** Listener `onError`. */
    method OnError(c: Conn, cause: Cause)
      modifies this
      ensures State() == Step(old(State()), Error(c, cause))
    {
      if callbacks.onError.Some? {
        effects := effects + [Invoked(Errored(callbacks.onError.value, cause))];
      }
      if done.Pending? {
        done := CompletedExceptionally(cause);
      }
    }

    /** `send(text)`: one final text frame; fails before open. */
    method Send(text: string) returns (ok: bool)
      modifies this
      ensures ok <==> old(ws).Some?
      ensures ok ==> State() == old(State()).(effects := old(effects) + [Wire(SendText(old(ws).value, text, true))])
      ensures !ok ==> State() == old(State())
    {
      ok := Sender(SendTextOp(text));
    }

    /** `send(bytes)`: one final binary frame; fails before open. */
    method SendBytes(bytes: Bytes) returns (ok: bool)
      modifies this
      ensures ok <==> old(ws).Some?
      ensures ok ==> State() == old(State()).(effects := old(effects) + [Wire(SendBinary(old(ws).value, bytes, true))])
      ensures !ok ==> State() == old(State())
    {
      ok := Sender(SendBytesOp(bytes));
    }

    /** `close()`: status 1000 and an empty reason; fails before open. */
    method Close() returns (ok: bool)
      modifies this
      ensures ok <==> old(ws).Some?
      ensures ok ==> State() == old(State()).(effects := old(effects) + [Wire(SendClose(old(ws).value, NormalClosure, ""))])
      ensures !ok ==> State() == old(State())
    {
      ok := Sender(CloseOp);
    }

    /** `join()`: blocks while `done` is pending, returns after a normal
        close, and after an error throws a `CompletionException` carrying
        the error as its cause. */
    method Join() returns (r: JoinResult)
      ensures r == JoinOf(done)
      ensures r == Returns <==> done == Completed
    {
      r := match done
        case Pending => Blocks
        case Completed => Returns
        case CompletedExceptionally(cause) => ThrowsCompletion(cause);
    }
  }

  /** `websocket(url) { ... }` (WebSocket.kt): the session gets the block's
      headers and callbacks. */
  method Connect(url: string, block: seq<BuilderCall>) returns (s: WebSocketSession)
    ensures fresh(s)
    ensures s.State() == Initial(url, HeadersOf(block), CallbacksOf(block))
  {
    var b := Configure(block);
    s := new WebSocketSession(url, b.headers, b.Registered());
  }
}
