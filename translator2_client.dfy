/**
 * The flag-based client of `com.bwc.translator2.network`: two booleans,
 * `isConnected` and `isSetupComplete`, gate the session instead of a state
 * machine. The wire formats it builds (the audio envelope and the socket
 * URL) are pure functions here; the client itself is a class whose methods
 * update its fields.
 */
module Translator2Network {
  import opened Options
  import opened Json
  import opened Strings
  import opened Base64
  import opened Transport
  import opened Setup

  /** The MIME tag of every audio chunk: 16-bit PCM at 16 kHz. */
  const AudioMime: string := "audio/pcm;rate=16000"

  /**
   * `createAudioMessage`: `{"realtimeInput": {"audio": {"data": ..., "mime_type": ...}}}`,
   * where `data` is the padded, unwrapped base64 of the bytes (four
   * characters per started group of three) and `mime_type` the fixed PCM tag.
   */
  function AudioMessage(data: seq<Byte>): (msg: Json)
    ensures At(msg, ["realtimeInput", "audio", "data"]) == Some(JString(Encode(data)))
    ensures At(msg, ["realtimeInput", "audio", "mime_type"]) == Some(JString(AudioMime))
    ensures |Encode(data)| == 4 * ((|data| + 2) / 3)
  {
    var msg := JObject([("realtimeInput", JObject([("audio", JObject([
      ("data", JString(Encode(data))),
      ("mime_type", JString(AudioMime))]))]))]);
    AtConcat(msg, ["realtimeInput", "audio"], ["data"]);
    AtConcat(msg, ["realtimeInput", "audio"], ["mime_type"]);
    assert ["realtimeInput", "audio"] + ["data"] == ["realtimeInput", "audio", "data"];
    assert ["realtimeInput", "audio"] + ["mime_type"] == ["realtimeInput", "audio", "mime_type"];
    msg
  }

  /** What a receiver reads back from an audio envelope: the decoded `data` field. */
  function AudioPayload(msg: Json): (r: Option<seq<Byte>>)
    ensures r.Some? ==> At(msg, ["realtimeInput", "audio", "data"]).Some?
  {
    match At(msg, ["realtimeInput", "audio", "data"])
    case Some(JString(text)) => Decode(text)
    case _ => None
  }

  /** Decoding the envelope gives back exactly the bytes it was built from. */
  lemma AudioRoundTrip(data: seq<Byte>)
    ensures AudioPayload(AudioMessage(data)) == Some(data)
  {
    DecodeEncode(data);
  }

  /** Two envelopes are equal only when they carry the same bytes. */
  lemma AudioMessageInjective(a: seq<Byte>, b: seq<Byte>)
    requires AudioMessage(a) == AudioMessage(b)
    ensures a == b
  {
    AudioRoundTrip(a);
    AudioRoundTrip(b);
  }

  const UrlScheme: string := "wss://"
  const UrlService: string := "/ws/google.ai.generativelanguage."
  const UrlMethod: string := ".GenerativeService.BidiGenerateContent?key="

  /**
   * `buildWebSocketUrl`: the scheme, then the host, then the service path
   * naming the API version, and the key as the last query value.
   */
  function BuildUrl(c: WebSocketConfig): (url: string)
    ensures HasAt(url, UrlScheme, 0) && HasAt(url, c.host, |UrlScheme|)
    ensures HasAt(url, UrlService, |UrlScheme| + |c.host|)
    ensures HasAt(url, c.apiVersion, |UrlScheme| + |c.host| + |UrlService|)
    ensures HasAt(url, UrlMethod, |UrlScheme| + |c.host| + |UrlService| + |c.apiVersion|)
    ensures |url| == |UrlScheme| + |c.host| + |UrlService| + |c.apiVersion| + |UrlMethod| + |c.apiKey|
    ensures url[|url| - |c.apiKey|..] == c.apiKey
  {
    LayoutPieces(UrlScheme, c.host, UrlService, c.apiVersion, UrlMethod, c.apiKey);
    UrlScheme + c.host + UrlService + c.apiVersion + UrlMethod + c.apiKey
  }

  /** Where each of six concatenated pieces sits in the whole. */
  lemma LayoutPieces(scheme: string, host: string, service: string, version: string, tail: string, key: string)
    ensures var url := scheme + host + service + version + tail + key;
            && HasAt(url, scheme, 0) && HasAt(url, host, |scheme|)
            && HasAt(url, service, |scheme| + |host|)
            && HasAt(url, version, |scheme| + |host| + |service|)
            && HasAt(url, tail, |scheme| + |host| + |service| + |version|)
            && url[|url| - |key|..] == key
  {
    var u1 := scheme + host;
    HasAtPrefix(scheme, host);
    HasAtSuffix(scheme, host);
    var u2 := u1 + service;
    HasAtExtend(u1, service, scheme, 0);
    HasAtExtend(u1, service, host, |scheme|);
    HasAtSuffix(u1, service);
    var u3 := u2 + version;
    HasAtExtend(u2, version, scheme, 0);
    HasAtExtend(u2, version, host, |scheme|);
    HasAtExtend(u2, version, service, |u1|);
    HasAtSuffix(u2, version);
    var u4 := u3 + tail;
    HasAtExtend(u3, tail, scheme, 0);
    HasAtExtend(u3, tail, host, |scheme|);
    HasAtExtend(u3, tail, service, |u1|);
    HasAtExtend(u3, tail, version, |u2|);
    HasAtSuffix(u3, tail);
    HasAtExtend(u4, key, scheme, 0);
    HasAtExtend(u4, key, host, |scheme|);
    HasAtExtend(u4, key, service, |u1|);
    HasAtExtend(u4, key, version, |u2|);
    HasAtExtend(u4, key, tail, |u3|);
    HasAtSuffix(u4, key);
  }

  lemma HasAtPrefix(x: string, y: string)
    ensures HasAt(x + y, x, 0)
  {
    assert (x + y)[..|x|] == x;
  }

  lemma HasAtSuffix(x: string, y: string)
    ensures HasAt(x + y, y, |x|) && (x + y)[|x + y| - |y|..] == y
  {
    assert (x + y)[|x|..] == y;
  }

  lemma HasAtExtend(x: string, y: string, p: string, at: nat)
    requires HasAt(x, p, at)
    ensures HasAt(x + y, p, at)
  {
    assert (x + y)[at..at + |p|] == x[at..at + |p|];
  }

  /** The position of the first `ch` in `s`, or `|s|` when there is none. */
  function IndexOf(s: string, ch: char, from: nat): (i: nat)
    requires from <= |s|
    ensures from <= i <= |s|
    ensures i < |s| ==> s[i] == ch
    decreases |s| - from
  {
    if from == |s| || s[from] == ch then from else IndexOf(s, ch, from + 1)
  }

  /** A `ch` at `i` with none between `from` and `i` is the one `IndexOf` finds. */
  lemma {:induction false} IndexOfFirst(s: string, ch: char, from: nat, i: nat)
    requires from <= i < |s| && s[i] == ch
    requires forall k :: from <= k < i ==> s[k] != ch
    ensures IndexOf(s, ch, from) == i
    decreases i - from
  {
    if from < i {
      IndexOfFirst(s, ch, from + 1, i);
    }
  }

  /** `s` begins with `p` at position `at`. */
  predicate HasAt(s: string, p: string, at: nat) {
    at + |p| <= |s| && s[at..at + |p|] == p
  }

  /**
   * Reads host, API version and key back out of a socket URL: the host
   * runs up to the first `/`, the version up to the next `.`, and the key
   * is the rest.
   */
  function ParseUrl(url: string): (r: Option<(string, string, string)>)
    ensures r.Some? ==> HasAt(url, UrlScheme, 0)
  {
    SplitLayout(url, UrlScheme, UrlService, UrlMethod)
  }

  /**
   * `ParseUrl` for any scheme, service path and method text `tail`: the host
   * ends at the first `/` after the scheme, where the service path must
   * start; the version ends at the next `.`.
   */
  function SplitLayout(url: string, scheme: string, service: string, tail: string): (r: Option<(string, string, string)>)
    ensures r.Some? ==> HasAt(url, scheme, 0)
  {
    if !HasAt(url, scheme, 0) then None
    else
      var hostEnd := IndexOf(url, '/', |scheme|);
      if !HasAt(url, service, hostEnd) then None
      else
        var versionStart := hostEnd + |service|;
        Cut(url, |scheme|, hostEnd, versionStart, IndexOf(url, '.', versionStart), tail)
  }

  /**
   * The pieces of `url` once the host and version are delimited: `tail`
   * must follow the version, and the key is what comes after it.
   */
  function Cut(url: string, hostStart: nat, hostEnd: nat, versionStart: nat, versionEnd: nat, tail: string): (r: Option<(string, string, string)>)
    requires hostStart <= hostEnd <= versionStart <= versionEnd <= |url|
    ensures r.Some? <==> HasAt(url, tail, versionEnd)
  {
    if !HasAt(url, tail, versionEnd) then None
    else Some((url[hostStart..hostEnd], url[versionStart..versionEnd], url[versionEnd + |tail|..]))
  }

  /**
   * The URL determines the host, version and key it was built from, as
   * long as the host holds no `/` and the version no `.` (otherwise the
   * concatenation is ambiguous).
   */
  lemma UrlRoundTrip(c: WebSocketConfig)
    requires '/' !in c.host && '.' !in c.apiVersion
    ensures ParseUrl(BuildUrl(c)) == Some((c.host, c.apiVersion, c.apiKey))
  {
    assert UrlService[0] == '/' && UrlMethod[0] == '.';
    LayoutRoundTrip(BuildUrl(c), UrlScheme, c.host, UrlService, c.apiVersion, UrlMethod, c.apiKey);
  }

  /**
   * `SplitLayout` recovers host, version and key from a URL laid out as
   * scheme, host, service path, version, `tail`, key, when the service
   * path starts with the `/` that ends the host and `tail` with the `.`
   * that ends the version.
   */
  lemma LayoutRoundTrip(url: string, scheme: string, host: string, service: string, version: string, tail: string, key: string)
    requires HasAt(url, scheme, 0) && HasAt(url, host, |scheme|)
    requires HasAt(url, service, |scheme| + |host|)
    requires HasAt(url, version, |scheme| + |host| + |service|)
    requires HasAt(url, tail, |scheme| + |host| + |service| + |version|)
    requires |url| == |scheme| + |host| + |service| + |version| + |tail| + |key|
    requires url[|url| - |key|..] == key
    requires '/' !in host && '.' !in version
    requires |service| > 0 && service[0] == '/' && |tail| > 0 && tail[0] == '.'
    ensures SplitLayout(url, scheme, service, tail) == Some((host, version, key))
  {
    var hostEnd := |scheme| + |host|;
    var versionStart := hostEnd + |service|;
    var versionEnd := versionStart + |version|;
    assert url[hostEnd] == url[hostEnd..versionStart][0];
    PieceEndsAt(url, '/', |scheme|, host);
    assert url[versionEnd] == url[versionEnd..versionEnd + |tail|][0];
    PieceEndsAt(url, '.', versionStart, version);
    SplitAt(url, scheme, service, tail, hostEnd, versionEnd);
    assert url[versionEnd + |tail|..] == key;
  }

  /** `SplitLayout` once both delimiters have been located. */
  lemma SplitAt(url: string, scheme: string, service: string, tail: string, hostEnd: nat, versionEnd: nat)
    requires HasAt(url, scheme, 0) && IndexOf(url, '/', |scheme|) == hostEnd
    requires HasAt(url, service, hostEnd) && IndexOf(url, '.', hostEnd + |service|) == versionEnd
    ensures SplitLayout(url, scheme, service, tail) == Cut(url, |scheme|, hostEnd, hostEnd + |service|, versionEnd, tail)
  {
  }

  /** A piece free of `ch` and followed by `ch` ends where `IndexOf` stops. */
  lemma PieceEndsAt(url: string, ch: char, from: nat, piece: string)
    requires HasAt(url, piece, from) && ch !in piece
    requires from + |piece| < |url| && url[from + |piece|] == ch
    ensures IndexOf(url, ch, from) == from + |piece|
  {
    assert forall k :: from <= k < from + |piece| ==> url[k] == url[from..from + |piece|][k - from] == piece[k - from];
    IndexOfFirst(url, ch, from, from + |piece|);
  }

  /** Two configurations give the same URL only when host, version and key agree (under the same conditions). */
  lemma UrlInjective(c: WebSocketConfig, d: WebSocketConfig)
    requires '/' !in c.host && '.' !in c.apiVersion && '/' !in d.host && '.' !in d.apiVersion
    requires BuildUrl(c) == BuildUrl(d)
    ensures c.host == d.host && c.apiVersion == d.apiVersion && c.apiKey == d.apiKey
  {
    UrlRoundTrip(c);
    UrlRoundTrip(d);
  }

  /** The calls the client makes on the listener it was given. */
  datatype Event =
    | Failure          // `onFailure(null, e, null)` when the session log cannot be opened
    | SetupComplete
    | Message(text: string)

  /** The lines the client writes through `logMessage`. */
  datatype LogEntry = AudioDropped | OutgoingAudio(size: nat) | ConfigSent

  /** Close code 1001 ("going away") and the reason sent with it. */
  const GoingAway: int := 1001
  const DisconnectReason: string := "Client disconnected"

  class Client {
    const config: WebSocketConfig
    var webSocket: Option<SocketId>
    var isSetupComplete: bool
    var isConnected: bool
    /** Whether a session log file is open (`logFileWriter != null`). */
    var logOpen: bool
    var nextSocket: SocketId
    var calls: seq<Call>
    var events: seq<Event>
    var log: seq<LogEntry>

    ghost predicate Valid()
      reads this
    {
      && (forall i :: 0 <= i < |calls| ==> calls[i].socket < nextSocket)
      && (webSocket.Some? ==> webSocket.value < nextSocket)
    }

    constructor (config: WebSocketConfig)
      ensures Valid()
      ensures this.config == config && webSocket == None
      ensures !isSetupComplete && !isConnected && !logOpen
      ensures nextSocket == 0 && calls == [] && events == [] && log == []
    {
      this.config := config;
      webSocket := None;
      isSetupComplete := false;
      isConnected := false;
      logOpen := false;
      nextSocket := 0;
      calls := [];
      events := [];
      log := [];
    }

    /**
     * `connect`: a no-op while connected; otherwise opens the session log
     * (`loggingOk` says whether the file could be created; when it cannot,
     * the listener hears a failure and connecting goes on) and then opens
     * a fresh socket on `buildWebSocketUrl()`, replacing the one held
     * without closing it. `urlAccepted` says whether OkHttp accepts that
     * URL; when it does not, the request builder throws, the exception
     * leaves `connect`, and no socket is opened (the log stays open).
     * Neither flag is touched.
     */
    method Connect(loggingOk: bool, urlAccepted: bool)
      requires Valid()
      modifies this
      ensures Valid()
      ensures old(isConnected) ==>
                && webSocket == old(webSocket) && calls == old(calls) && nextSocket == old(nextSocket)
                && events == old(events) && logOpen == old(logOpen)
      ensures !old(isConnected) ==>
                && events == old(events) + (if loggingOk then [] else [Failure])
                && logOpen == (old(logOpen) || loggingOk)
      ensures !old(isConnected) && urlAccepted ==>
                && webSocket == Some(old(nextSocket)) && nextSocket == old(nextSocket) + 1
                && calls == old(calls) + [Open(old(nextSocket), Some(BuildUrl(config)))]
                && (forall i :: 0 <= i < |old(calls)| ==> old(calls)[i].socket != old(nextSocket))
      ensures !old(isConnected) && !urlAccepted ==>
                webSocket == old(webSocket) && calls == old(calls) && nextSocket == old(nextSocket)
      ensures isConnected == old(isConnected) && isSetupComplete == old(isSetupComplete) && log == old(log)
    {
      if isConnected {
        return;
      }
      InitializeLogging(loggingOk);
      InitializeWebSocket(urlAccepted);
    }

    /** `initializeLogging`: opens the log file, or reports the failure to the listener. */
    method InitializeLogging(loggingOk: bool)
      modifies this
      ensures logOpen == (old(logOpen) || loggingOk)
      ensures events == old(events) + (if loggingOk then [] else [Failure])
      ensures webSocket == old(webSocket) && calls == old(calls) && nextSocket == old(nextSocket)
      ensures isConnected == old(isConnected) && isSetupComplete == old(isSetupComplete) && log == old(log)
    {
      if loggingOk {
        logOpen := true;
      } else {
        events := events + [Failure];
      }
    }

    /**
     * `initializeWebSocket`: opens a fresh socket on the built URL and holds
     * it; when OkHttp rejects the URL (`!urlAccepted`) the request builder
     * throws before any socket exists, and nothing changes.
     */
    method InitializeWebSocket(urlAccepted: bool)
      requires Valid()
      modifies this
      ensures Valid()
      ensures urlAccepted ==>
                && webSocket == Some(old(nextSocket)) && nextSocket == old(nextSocket) + 1
                && calls == old(calls) + [Open(old(nextSocket), Some(BuildUrl(config)))]
                && forall i :: 0 <= i < |old(calls)| ==> old(calls)[i].socket != old(nextSocket)
      ensures !urlAccepted ==> webSocket == old(webSocket) && calls == old(calls) && nextSocket == old(nextSocket)
      ensures events == old(events) && logOpen == old(logOpen) && log == old(log)
      ensures isConnected == old(isConnected) && isSetupComplete == old(isSetupComplete)
    {
      if !urlAccepted {
        return;
      }
      var ws := nextSocket;
      nextSocket := nextSocket + 1;
      calls := calls + [Open(ws, Some(BuildUrl(config)))];
      webSocket := Some(ws);
    }

    /**
     * `disconnect`: a no-op unless connected; otherwise closes the held
     * socket with 1001 and releases everything (`cleanupResources`).
     */
    method Disconnect()
      requires Valid()
      modifies this
      ensures Valid()
      ensures !old(isConnected) ==>
                && webSocket == old(webSocket) && calls == old(calls) && logOpen == old(logOpen)
                && isSetupComplete == old(isSetupComplete)
      ensures old(isConnected) ==>
                && webSocket == None && !isSetupComplete && !logOpen
                && calls == match old(webSocket)
                            case Some(ws) => old(calls) + [Close(ws, GoingAway, DisconnectReason)]
                            case None => old(calls)
      ensures !isConnected
      ensures nextSocket == old(nextSocket) && events == old(events) && log == old(log)
    {
      if !isConnected {
        return;
      }
      if webSocket.Some? {
        calls := calls + [Close(webSocket.value, GoingAway, DisconnectReason)];
      }
      CleanupResources();
    }

    /**
     * `sendAudio`: one audio envelope goes out on the held socket exactly
     * when both flags are set and a socket is held; when either flag is
     * clear nothing is sent and the drop is logged.
     */
    method SendAudio(data: seq<Byte>)
      requires Valid()
      modifies this
      ensures Valid()
      ensures calls == if old(isConnected) && old(isSetupComplete) && old(webSocket).Some?
                       then old(calls) + [Send(old(webSocket).value, Text(AudioMessage(data)))]
                       else old(calls)
      ensures log == old(log) + [if old(isConnected) && old(isSetupComplete) then OutgoingAudio(|data|) else AudioDropped]
      ensures webSocket == old(webSocket) && nextSocket == old(nextSocket) && events == old(events)
      ensures isConnected == old(isConnected) && isSetupComplete == old(isSetupComplete) && logOpen == old(logOpen)
    {
      if !isConnected || !isSetupComplete {
        log := log + [AudioDropped];
        return;
      }
      if webSocket.Some? {
        calls := calls + [Send(webSocket.value, Text(AudioMessage(data)))];
      }
      log := log + [OutgoingAudio(|data|)];
    }

    /**
     * `cleanupResources`: a no-op unless connected; otherwise clears both
     * flags, lets go of the socket and closes the log. A second call
     * therefore changes nothing.
     */
    method CleanupResources()
      requires Valid()
      modifies this
      ensures Valid()
      ensures !old(isConnected) ==>
                && webSocket == old(webSocket) && isSetupComplete == old(isSetupComplete) && logOpen == old(logOpen)
      ensures old(isConnected) ==> webSocket == None && !isSetupComplete && !logOpen
      ensures !isConnected
      ensures calls == old(calls) && nextSocket == old(nextSocket) && events == old(events) && log == old(log)
    {
      if !isConnected {
        return;
      }
      isConnected := false;
      isSetupComplete := false;
      webSocket := None;
      logOpen := false;
    }

    /**
     * `processMessage`: the setup flag is raised and the listener told,
     * exactly when the text holds the setup marker; the text is passed on
     * afterwards in every case.
     */
    method ProcessMessage(message: string)
      requires Valid()
      modifies this
      ensures Valid()
      ensures isSetupComplete == (old(isSetupComplete) || Contains(message, SetupCompleteMarker))
      ensures events == old(events) + (if Contains(message, SetupCompleteMarker) then [SetupComplete] else [])
                                    + [Message(message)]
      ensures webSocket == old(webSocket) && calls == old(calls) && nextSocket == old(nextSocket)
      ensures isConnected == old(isConnected) && logOpen == old(logOpen) && log == old(log)
    {
      if Contains(message, SetupCompleteMarker) {
        isSetupComplete := true;
        events := events + [SetupComplete];
      }
      events := events + [Message(message)];
    }

    /**
     * `sendConfiguration`: sends the setup message on the held socket, if
     * any, and raises the setup flag without waiting for an acknowledgement.
     */
    method SendConfiguration()
      requires Valid()
      modifies this
      ensures Valid()
      ensures calls == match old(webSocket)
                       case Some(ws) => old(calls) + [Send(ws, Text(SetupMessage(config)))]
                       case None => old(calls)
      ensures isSetupComplete
      ensures log == old(log) + [ConfigSent]
      ensures webSocket == old(webSocket) && nextSocket == old(nextSocket) && events == old(events)
      ensures isConnected == old(isConnected) && logOpen == old(logOpen)
    {
      log := log + [ConfigSent];
      if webSocket.Some? {
        calls := calls + [Send(webSocket.value, Text(SetupMessage(config)))];
      }
      isSetupComplete := true;
    }
  }

  /**
   * Nothing in the class ever sets `isConnected`: after construction,
   * `connect` and `sendConfiguration`, audio is still dropped and
   * `disconnect` closes nothing.
   */
  method NeverConnectedScenario(config: WebSocketConfig, audio: seq<Byte>)
  {
    var c := new Client(config);
    c.Connect(true, true);
    c.SendConfiguration();
    c.SendAudio(audio);
    c.Disconnect();
    assert c.isSetupComplete && !c.isConnected;
    assert c.calls == [Open(0, Some(BuildUrl(config))), Send(0, Text(SetupMessage(config)))];
    assert c.log == [ConfigSent, AudioDropped];
  }

  /** A second `connect` opens a second socket and leaves the first one open. */
  method ReconnectScenario(config: WebSocketConfig)
  {
    var c := new Client(config);
    c.Connect(false, true);
    c.Connect(true, true);
    c.CleanupResources();
    assert c.calls == [Open(0, Some(BuildUrl(config))), Open(1, Some(BuildUrl(config)))];
    assert c.webSocket == Some(1) && c.logOpen && c.events == [Failure];
  }
}
