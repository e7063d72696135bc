/**
 * The gated client of `com.bwc.tul.websocket`: a four-state lifecycle in
 * which audio flows only once the server has acknowledged the setup
 * message. OkHttp's socket callbacks are the methods `OnOpen`, `OnMessage`,
 * `OnClosing` and `OnFailure`, applied one at a time.
 */
module TulWebSocket {
  import opened Options
  import opened Strings
  import opened Base64
  import opened Transport
  import opened Setup

  datatype ClientState = Idle | Connecting | AwaitingSetupComplete | Ready

  /** The calls the client makes on its `WebSocketListener`. */
  datatype Event =
    | ConnectionOpen
    | SetupComplete
    | Message(text: string)
    | Closed(reason: string)
    | Error(message: string)

  /** The warnings the client writes to the Android log. */
  datatype Warning = AlreadyConnecting | NotReady | UnexpectedDuringSetup(text: string)

  const NormalClosure: int := 1000
  const DisconnectReason: string := "User disconnected"
  const UnknownError: string := "Unknown WebSocket error"

  /** Every audio frame sent on a socket comes after a setup frame on that same socket. */
  ghost predicate HandshakeFirst(calls: seq<Call>, setup: Frame) {
    forall i :: 0 <= i < |calls| && IsBinarySend(calls[i]) ==> SentBefore(calls, calls[i].socket, setup, i)
  }

  /** Every audio frame comes after a setup frame on some socket. */
  ghost predicate SetupBeforeAudio(calls: seq<Call>, setup: Frame) {
    forall i :: 0 <= i < |calls| && IsBinarySend(calls[i]) ==> SentOnSomeSocketBefore(calls, setup, i)
  }

  class Client {
    const config: WebSocketConfig
    /** The socket `connect` last opened; `null` after `disconnect`. */
    var webSocket: Option<SocketId>
    var state: ClientState
    /** The id the transport gives the next socket it opens. */
    var nextSocket: SocketId
    /** Every call made on the transport, in order. */
    var calls: seq<Call>
    /** Every listener callback, in order. */
    var events: seq<Event>
    var warnings: seq<Warning>
    /**
     * Whether `onOpen` ever fired for a socket other than the one held in
     * `webSocket` (one that `disconnect` or a later `connect` let go of).
     */
    ghost var staleOpenSeen: bool

    /** The serialized setup message, as a frame. */
    function SetupFrame(): Frame {
      Text(SetupMessage(config))
    }

    ghost predicate Valid()
      reads this
    {
      && (forall i :: 0 <= i < |calls| ==> calls[i].socket < nextSocket)
      && (webSocket.Some? ==> webSocket.value < nextSocket)
      && SetupBeforeAudio(calls, SetupFrame())
      && (state == AwaitingSetupComplete || state == Ready ==> SentOnSomeSocketBefore(calls, SetupFrame(), |calls|))
      && (!staleOpenSeen ==>
            && HandshakeFirst(calls, SetupFrame())
            && (state == AwaitingSetupComplete || state == Ready ==>
                  webSocket.Some? && SentBefore(calls, webSocket.value, SetupFrame(), |calls|)))
    }

    constructor (config: WebSocketConfig)
      ensures Valid()
      ensures this.config == config && state == Idle && webSocket == None
      ensures calls == [] && events == [] && warnings == [] && nextSocket == 0 && !staleOpenSeen
    {
      this.config := config;
      webSocket := None;
      state := Idle;
      nextSocket := 0;
      calls := [];
      events := [];
      warnings := [];
      staleOpenSeen := false;
    }

    /**
     * `connect`: from `IDLE`, moves to `CONNECTING` and opens exactly one,
     * fresh, socket; in any other state changes nothing but the log.
     * `urlAccepted` says whether `HttpUrl.Builder` accepts the configured
     * host: when it does not, the builder throws after the state is already
     * `CONNECTING`, the exception leaves `connect`, and no socket is opened,
     * so every later `connect` only warns until `disconnect` or a callback
     * returns the client to `IDLE`.
     */
    method Connect(urlAccepted: bool)
      requires Valid()
      modifies this
      ensures Valid()
      ensures old(state) != Idle ==>
                && state == old(state) && webSocket == old(webSocket) && calls == old(calls)
                && nextSocket == old(nextSocket) && warnings == old(warnings) + [AlreadyConnecting]
      ensures old(state) == Idle && !urlAccepted ==>
                && state == Connecting && webSocket == old(webSocket) && calls == old(calls)
                && nextSocket == old(nextSocket) && warnings == old(warnings)
      ensures old(state) == Idle && urlAccepted ==>
                && state == Connecting && webSocket == Some(old(nextSocket))
                && calls == old(calls) + [Open(old(nextSocket), None)]
                && nextSocket == old(nextSocket) + 1 && warnings == old(warnings)
                && forall i :: 0 <= i < |old(calls)| ==> old(calls)[i].socket != old(nextSocket)
      ensures events == old(events) && staleOpenSeen == old(staleOpenSeen)
    {
      if state != Idle {
        warnings := warnings + [AlreadyConnecting];
        return;
      }
      state := Connecting;
      if !urlAccepted {
        return;
      }
      var ws := nextSocket;
      nextSocket := nextSocket + 1;
      calls := calls + [Open(ws, None)];
      webSocket := Some(ws);
      AppendKeepsHandshake(old(calls), Open(ws, None), SetupFrame());
      AppendKeepsSends(old(calls), Open(ws, None));
    }

    /**
     * `sendAudio`: in `READY` the bytes go out as one binary frame on the
     * held socket; in any other state nothing is sent and the drop is
     * logged. Without a stale `onOpen`, `READY` always holds a socket, so a
     * frame is sent exactly when the state is `READY`.
     */
    method SendAudio(data: seq<Byte>)
      requires Valid()
      modifies this
      ensures Valid()
      ensures calls == if old(state) == Ready && old(webSocket).Some?
                       then old(calls) + [Send(old(webSocket).value, Binary(data))]
                       else old(calls)
      ensures !staleOpenSeen ==> (|calls| > |old(calls)| <==> old(state) == Ready)
      ensures warnings == if old(state) == Ready then old(warnings) else old(warnings) + [NotReady]
      ensures state == old(state) && webSocket == old(webSocket) && nextSocket == old(nextSocket)
      ensures events == old(events) && staleOpenSeen == old(staleOpenSeen)
    {
      if state != Ready {
        warnings := warnings + [NotReady];
        return;
      }
      if webSocket.Some? {
        var ws := webSocket.value;
        AppendKeepsHandshake(calls, Send(ws, Binary(data)), SetupFrame());
        AppendKeepsSends(calls, Send(ws, Binary(data)));
        calls := calls + [Send(ws, Binary(data))];
      }
    }

    /**
     * `disconnect`: back to `IDLE`; the held socket, if any, is closed with
     * code 1000 and let go of, so a second `disconnect` closes nothing.
     */
    method Disconnect()
      requires Valid()
      modifies this
      ensures Valid()
      ensures state == Idle && webSocket == None
      ensures calls == match old(webSocket)
                       case Some(ws) => old(calls) + [Close(ws, NormalClosure, DisconnectReason)]
                       case None => old(calls)
      ensures nextSocket == old(nextSocket) && events == old(events) && warnings == old(warnings)
      ensures staleOpenSeen == old(staleOpenSeen)
    {
      state := Idle;
      if webSocket.Some? {
        var ws := webSocket.value;
        AppendKeepsHandshake(calls, Close(ws, NormalClosure, DisconnectReason), SetupFrame());
        AppendKeepsSends(calls, Close(ws, NormalClosure, DisconnectReason));
        calls := calls + [Close(ws, NormalClosure, DisconnectReason)];
      }
      webSocket := None;
    }

    /**
     * `SocketListener.onOpen` for socket `ws`: tells the listener, then
     * sends the setup message on `ws` (`sendSetupMessage`).
     */
    method OnOpen(ws: SocketId)
      requires Valid() && ws < nextSocket
      modifies this
      ensures Valid()
      ensures state == AwaitingSetupComplete
      ensures calls == old(calls) + [Send(ws, SetupFrame())]
      ensures events == old(events) + [ConnectionOpen]
      ensures webSocket == old(webSocket) && nextSocket == old(nextSocket) && warnings == old(warnings)
      ensures staleOpenSeen == (old(staleOpenSeen) || old(webSocket) != Some(ws))
    {
      events := events + [ConnectionOpen];
      staleOpenSeen := staleOpenSeen || webSocket != Some(ws);
      SendSetupMessage(ws);
    }

    /**
     * `sendSetupMessage`: enters `AWAITING_SETUP_COMPLETE`, then sends
     * exactly one frame, the setup message, on `ws`.
     */
    method SendSetupMessage(ws: SocketId)
      requires Valid() && ws < nextSocket
      requires staleOpenSeen || webSocket == Some(ws)
      modifies this
      ensures Valid()
      ensures state == AwaitingSetupComplete
      ensures calls == old(calls) + [Send(ws, SetupFrame())]
      ensures webSocket == old(webSocket) && nextSocket == old(nextSocket)
      ensures events == old(events) && warnings == old(warnings) && staleOpenSeen == old(staleOpenSeen)
    {
      state := AwaitingSetupComplete;
      var frame := SetupFrame();
      AppendKeepsHandshake(calls, Send(ws, frame), frame);
      AppendKeepsSends(calls, Send(ws, frame));
      calls := calls + [Send(ws, frame)];
      assert calls[|calls| - 1] == Send(ws, frame);
    }

    /**
     * `SocketListener.onMessage`: while awaiting the acknowledgement, a text
     * holding the marker moves to `READY` and is reported once as setup
     * complete, and any other text is dropped with a warning; in every other
     * state the text is passed on unchanged and the state stays.
     */
    method OnMessage(text: string)
      requires Valid()
      modifies this
      ensures Valid()
      ensures old(state) == AwaitingSetupComplete && Contains(text, SetupCompleteMarker) ==>
                state == Ready && events == old(events) + [SetupComplete] && warnings == old(warnings)
      ensures old(state) == AwaitingSetupComplete && !Contains(text, SetupCompleteMarker) ==>
                state == old(state) && events == old(events) && warnings == old(warnings) + [UnexpectedDuringSetup(text)]
      ensures old(state) != AwaitingSetupComplete ==>
                state == old(state) && events == old(events) + [Message(text)] && warnings == old(warnings)
      ensures calls == old(calls) && webSocket == old(webSocket) && nextSocket == old(nextSocket)
      ensures staleOpenSeen == old(staleOpenSeen)
    {
      if state == AwaitingSetupComplete {
        if Contains(text, SetupCompleteMarker) {
          state := Ready;
          events := events + [SetupComplete];
        } else {
          warnings := warnings + [UnexpectedDuringSetup(text)];
        }
      } else {
        events := events + [Message(text)];
      }
    }

    /** `SocketListener.onClosing`: back to `IDLE`, and the listener hears the reason. */
    method OnClosing(code: int, reason: string)
      requires Valid()
      modifies this
      ensures Valid()
      ensures state == Idle && events == old(events) + [Closed(reason)]
      ensures calls == old(calls) && webSocket == old(webSocket) && nextSocket == old(nextSocket)
      ensures warnings == old(warnings) && staleOpenSeen == old(staleOpenSeen)
    {
      state := Idle;
      events := events + [Closed(reason)];
    }

    /**
     * `SocketListener.onFailure`: back to `IDLE`, and the listener hears the
     * throwable's message, or "Unknown WebSocket error" when it has none.
     */
    method OnFailure(message: Option<string>)
      requires Valid()
      modifies this
      ensures Valid()
      ensures state == Idle
      ensures events == old(events) + [Error(if message.Some? then message.value else UnknownError)]
      ensures calls == old(calls) && webSocket == old(webSocket) && nextSocket == old(nextSocket)
      ensures warnings == old(warnings) && staleOpenSeen == old(staleOpenSeen)
    {
      state := Idle;
      events := events + [Error(message.GetOr(UnknownError))];
    }
  }

  /** Appending a call keeps every earlier send where it was. */
  lemma AppendKeepsSends(before: seq<Call>, c: Call)
    ensures forall s, f, i :: SentBefore(before, s, f, i) ==> SentBefore(before + [c], s, f, i)
    ensures forall f, i :: SentOnSomeSocketBefore(before, f, i) ==> SentOnSomeSocketBefore(before + [c], f, i)
  {
    forall s, f, i | SentBefore(before, s, f, i) ensures SentBefore(before + [c], s, f, i) {
      var j :| 0 <= j < i && j < |before| && before[j] == Send(s, f);
      assert (before + [c])[j] == before[j];
    }
    forall f, i | SentOnSomeSocketBefore(before, f, i) ensures SentOnSomeSocketBefore(before + [c], f, i) {
      var j :| 0 <= j < i && j < |before| && before[j].Send? && before[j].frame == f;
      assert (before + [c])[j] == before[j];
    }
  }

  /**
   * Appending a call keeps the handshake ordering, provided an appended
   * audio frame follows a setup frame on its socket (for `HandshakeFirst`)
   * or on some socket (for `SetupBeforeAudio`).
   */
  lemma AppendKeepsHandshake(before: seq<Call>, c: Call, setup: Frame)
    ensures (HandshakeFirst(before, setup) && (IsBinarySend(c) ==> SentBefore(before, c.socket, setup, |before|)))
              ==> HandshakeFirst(before + [c], setup)
    ensures (SetupBeforeAudio(before, setup) && (IsBinarySend(c) ==> SentOnSomeSocketBefore(before, setup, |before|)))
              ==> SetupBeforeAudio(before + [c], setup)
  {
    var after := before + [c];
    AppendKeepsSends(before, c);
    assert forall i :: 0 <= i < |before| ==> after[i] == before[i];
  }

  /**
   * Before the acknowledgement: audio offered while connecting is dropped,
   * and the setup frame is the first frame on the socket.
   */
  method HandshakeScenario(config: WebSocketConfig, audio: seq<Byte>)
  {
    var c := new Client(config);
    var setup := c.SetupFrame();
    c.Connect(true);
    c.SendAudio(audio);
    assert c.calls == [Open(0, None)] && c.warnings == [NotReady];
    c.OnOpen(0);
    assert c.state == AwaitingSetupComplete && c.events == [ConnectionOpen];
    assert c.calls == [Open(0, None), Send(0, setup)];
  }

  /** The acknowledgement opens the gate: the next audio goes out on the socket, after the setup frame. */
  method ReadyScenario(config: WebSocketConfig, audio: seq<Byte>, ack: string)
    requires Contains(ack, SetupCompleteMarker)
  {
    var c := new Client(config);
    var setup := c.SetupFrame();
    c.Connect(true);
    c.OnOpen(0);
    assert c.calls == [Open(0, None), Send(0, setup)] && c.webSocket == Some(0);
    c.OnMessage(ack);
    assert c.state == Ready && c.events == [ConnectionOpen, SetupComplete];
    c.SendAudio(audio);
    assert c.calls == [Open(0, None), Send(0, setup), Send(0, Binary(audio))];
  }

  /** The handshake completed by the server's own `{"setupComplete":{}}` reply. */
  method AckScenario(config: WebSocketConfig, audio: seq<Byte>)
  {
    SetupAckHasMarker();
    ReadyScenario(config, audio, SetupAck);
  }

  /**
   * A host the URL builder rejects leaves the client `CONNECTING` with no
   * socket, and the next `connect` only warns.
   */
  method RejectedHostScenario(config: WebSocketConfig)
  {
    var c := new Client(config);
    c.Connect(false);
    c.Connect(true);
    assert c.state == Connecting && c.webSocket == None;
    assert c.calls == [] && c.warnings == [AlreadyConnecting];
  }

  /** A failure returns the client to `IDLE`, and a second `disconnect` closes nothing. */
  method TeardownScenario(config: WebSocketConfig)
  {
    var c := new Client(config);
    c.Connect(true);
    c.OnFailure(None);
    assert c.state == Idle && c.events == [Error(UnknownError)];
    c.Disconnect();
    c.Disconnect();
    assert c.calls == [Open(0, None), Close(0, NormalClosure, DisconnectReason)];
  }

  /**
   * `onOpen` does not check which socket it comes from. When the socket
   * abandoned by `disconnect` opens after a new `connect`, its setup frame
   * makes the client `READY`, and audio then goes out on the new socket,
   * which never received a setup frame.
   */
  method StaleOpenScenario(config: WebSocketConfig, audio: seq<Byte>, ack: string)
    requires Contains(ack, SetupCompleteMarker)
  {
    var c := new Client(config);
    var setup := c.SetupFrame();
    c.Connect(true);
    c.Disconnect();
    assert c.calls == [Open(0, None), Close(0, NormalClosure, DisconnectReason)];
    c.Connect(true);
    assert c.calls == [Open(0, None), Close(0, NormalClosure, DisconnectReason), Open(1, None)];
    assert c.webSocket == Some(1);
    c.OnOpen(0);
    assert c.calls == [Open(0, None), Close(0, NormalClosure, DisconnectReason), Open(1, None), Send(0, setup)];
    c.OnMessage(ack);
    assert c.state == Ready && c.webSocket == Some(1);
    c.SendAudio(audio);
    assert c.calls == [Open(0, None), Close(0, NormalClosure, DisconnectReason), Open(1, None),
                       Send(0, setup), Send(1, Binary(audio))];
    StaleLogHasNoSetupOnNewSocket(setup, audio);
    assert c.calls[4] == Send(1, Binary(audio)) && !SentBefore(c.calls, 1, setup, 4);
  }

  /** In the log of `StaleOpenScenario`, socket 1 had no setup frame before its audio. */
  lemma StaleLogHasNoSetupOnNewSocket(setup: Frame, audio: seq<Byte>)
    ensures var log := [Open(0, None), Close(0, NormalClosure, DisconnectReason), Open(1, None),
                        Send(0, setup), Send(1, Binary(audio))];
            log[4] == Send(1, Binary(audio)) && !SentBefore(log, 1, setup, 4)
  {
    var log := [Open(0, None), Close(0, NormalClosure, DisconnectReason), Open(1, None),
                Send(0, setup), Send(1, Binary(audio))];
    assert !log[0].Send? && !log[1].Send? && !log[2].Send? && log[3].socket == 0;
  }
}
