# Live-audio WebSocket clients, modelled in Dafny

The Android app talks to a live generative-audio service over one WebSocket.
There are two versions of its client class:

- `com.bwc.tul.websocket.WebSocketClient` is a gated state machine
  (`IDLE → CONNECTING → AWAITING_SETUP_COMPLETE → READY`). It sends a
  setup (handshake) message as soon as the socket opens. It lets raw audio
  frames through only once the server's reply contains the
  `"setupComplete"` marker.
- `com.bwc.translator2.network.WebSocketClient` gates the session on two
  flags, `isConnected` and `isSetupComplete`. It sends audio as a JSON
  `realtimeInput` envelope carrying base64 text, and it builds its own
  socket URL.

Both versions build the same setup message from a `WebSocketConfig`.

## How the model is organised

| module (file) | what it holds |
|---|---|
| `Options` (options.dfy) | `Option`, for Kotlin's nullable values |
| `Json` (json.dfy) | A JSON tree. Objects are ordered member lists, as Kotlin's insertion-ordered maps are. Also field lookup and path access. |
| `Strings` (strings.dfy) | Kotlin's `String.contains`, `String.trim()` (whitespace as `Char.isWhitespace` defines it), and `split(Regex("\n\n+"))`, which keeps leading and trailing empty pieces |
| `Base64` (base64.dfy) | The RFC 4648 section 4 encoder with padding and without line breaks (Android's `NO_WRAP`), plus a decoder, against which the round trip is proved |
| `Transport` (transport.dfy) | The OkHttp socket as a log of `Open`, `Send` and `Close` calls. Each call names its socket. |
| `Setup` (setup.dfy) | `WebSocketConfig`, the system-instruction parts and the setup message, with one lemma per field |
| `TulWebSocket` (tul_client.dfy) | The gated client as a class over `state`, `webSocket` and the call log |
| `Translator2Network` (translator2_client.dfy) | The flag client as a class, plus the audio envelope and the URL builder |

The socket callbacks are methods applied one at a time: `onOpen`,
`onMessage`, `onClosing` and `onFailure` are `OnOpen`, `OnMessage`,
`OnClosing` and `OnFailure`.

The listener calls and the log warnings are sequences that the methods
append to. A frame carries a `Json` value rather than Gson's text.

`Client.Valid()` in the gated client keeps two ordering properties:

- Every audio frame follows some setup frame.
- Every audio frame follows a setup frame on its own socket, unless an
  `onOpen` has arrived from a socket the client no longer holds. The ghost
  field `staleOpenSeen` records whether that has happened.

Two behaviours of the source show up in the proofs:

- **Gated client: a stale `onOpen`.** `onOpen` sends the setup on the
  socket that opened, while `sendAudio` uses the socket the client holds.
  Suppose a socket is dropped by `disconnect` and then opens after a new
  `connect`. Its `onOpen` makes the client wait for an acknowledgement,
  that acknowledgement makes it `READY`, and audio then goes out on the
  new socket, which never got a setup frame. `TulWebSocket.StaleOpenScenario`
  plays this through. The sequence is reachable in a transport that records
  calls, not deliveries. In OkHttp, `send` on a socket that was closed returns
  false, so the setup sent to the dropped socket never reaches a server, and
  the acknowledgement would have to arrive unprompted. `SetupBeforeAudio`
  still counts such a refused send as "some setup frame".
- **Flag client: `isConnected` is never set to true.** It is written
  `false` in its declaration and in `cleanupResources`, and nowhere else.
  Every method of `Translator2Network.Client` either leaves the flag
  unchanged or clears it. As a result `sendAudio` always drops and
  `disconnect` always returns early. `Translator2Network.NeverConnectedScenario`
  plays this through.

## Model

| member | source | states |
|---|---|---|
| Strings.Contains | app/src/main/java/com/bwc/tul/websocket/WebSocketClient.kt:101 | True exactly when the text occurs somewhere in the string as a contiguous block (`String.contains`). |
| Strings.Trim | app/src/main/java/com/bwc/tul/websocket/WebSocketClient.kt:156 | The result is the string with its leading and trailing whitespace cut off. What is removed is all whitespace, and the result neither begins nor ends with whitespace. |
| Strings.TrimIdempotent | app/src/main/java/com/bwc/tul/websocket/WebSocketClient.kt:156 | Trimming a trimmed string changes nothing. |
| Strings.SplitParagraphs | app/src/main/java/com/bwc/tul/websocket/WebSocketClient.kt:155 | Splitting on `\n\n+` always gives at least one piece. |
| Strings.SplitParagraphsSound | app/src/main/java/com/bwc/tul/websocket/WebSocketClient.kt:155 | The pieces, rejoined with their separators, give back the text. Every separator is a run of two or more line feeds. No piece holds a blank line. The separator runs are maximal: no piece but the last ends with `\n`, and no piece but the first starts with one. |
| Setup.InstructionParts | app/src/main/java/com/bwc/tul/websocket/WebSocketClient.kt:155-157 | One `{"text": trimmed piece}` object per piece, in the same order. |
| Setup.SystemInstructionParts | app/src/main/java/com/bwc/tul/websocket/WebSocketClient.kt:153-158 | `createSystemInstruction` has as many parts as the instruction has paragraphs, and at least one. Part `k` is paragraph `k`, trimmed. No part contains a blank line. |
| Setup.TrimmedParagraphsHaveNoBlankLine | app/src/main/java/com/bwc/translator2/network/WebSocketClient.kt:181-185 | No trimmed paragraph contains two consecutive line feeds. |
| Setup.SystemInstruction | app/src/main/java/com/bwc/tul/websocket/WebSocketClient.kt:153-158 | `createSystemInstruction` is an object whose only key is `parts`, with one part per paragraph of the instruction. |
| Setup.SetupMessage | app/src/main/java/com/bwc/tul/websocket/WebSocketClient.kt:130-146 | The message is an object whose only key is `setup`. Its keys are the seven fixed ones, in insertion order, followed by `sessionResumption` exactly when there is a session handle. |
| Setup.SetupFields | app/src/main/java/com/bwc/tul/websocket/WebSocketClient.kt:130-146 | The keys of the `setup` object, in insertion order, are `model`, `generationConfig`, `systemInstruction`, `inputAudioTranscription`, `outputAudioTranscription`, `contextWindowCompression` and `realtimeInputConfig`. They are followed by `sessionResumption` exactly when there is a session handle. |
| Setup.SetupFieldsDistinct | app/src/main/java/com/bwc/translator2/network/WebSocketClient.kt:165-178 | No key is put twice, so each path in the message names exactly one value. |
| Setup.SetupModel | app/src/main/java/com/bwc/tul/websocket/WebSocketClient.kt:131-132 | `setup.model` is `"models/" + modelName`, and `setup.generationConfig.responseModalities` is `["AUDIO"]`. |
| Setup.SetupInstruction | app/src/main/java/com/bwc/tul/websocket/WebSocketClient.kt:133-134 | `setup.systemInstruction` is the instruction built from the configured text. |
| Setup.SetupTranscription | app/src/main/java/com/bwc/tul/websocket/WebSocketClient.kt:135-138 | Both transcription entries are empty objects, and `contextWindowCompression.slidingWindow` is an empty object. |
| Setup.SetupSilence | app/src/main/java/com/bwc/tul/websocket/WebSocketClient.kt:139-142 | `realtimeInputConfig.automaticActivityDetection.silenceDurationMs` is `vadSilenceMs`. |
| Setup.SetupResumption | app/src/main/java/com/bwc/tul/websocket/WebSocketClient.kt:143-145 | `sessionResumption` is present exactly when `sessionHandle` is non-null, and then its `handle` is that value. |
| Setup.SetupAckHasMarker | app/src/main/java/com/bwc/tul/websocket/WebSocketClient.kt:100-104 | The server's `{"setupComplete":{}}` reply contains the marker that both clients look for, so `TulWebSocket.AckScenario` can complete the handshake with it. |
| TulWebSocket.Client.constructor | app/src/main/java/com/bwc/tul/websocket/WebSocketClient.kt:30-31 | A new client is `IDLE`, holds no socket and has made no call. |
| TulWebSocket.Client.Connect | app/src/main/java/com/bwc/tul/websocket/WebSocketClient.kt:49-70 | Outside `IDLE`: only a warning is logged, and no state change or call is made. From `IDLE`: the state becomes `CONNECTING` first. If the URL builder accepts the configured host (`urlAccepted`), exactly one socket is opened, fresh and held. If it rejects it, the builder throws after the state change: no socket is opened and nothing else changes, so the client stays in `CONNECTING`, where `connect` only warns. |
| TulWebSocket.Client.SendAudio | app/src/main/java/com/bwc/tul/websocket/WebSocketClient.kt:72-83 | One binary frame of the bytes goes out on the held socket exactly when the state is `READY` and a socket is held. Otherwise nothing is sent and "not ready" is logged. When no stale open has happened, a frame is sent if and only if the state is `READY`. The state never changes. |
| TulWebSocket.Client.Disconnect | app/src/main/java/com/bwc/tul/websocket/WebSocketClient.kt:85-89 | The state becomes `IDLE`. The held socket, if any, is closed with 1000 "User disconnected" and released, so a second call closes nothing. |
| TulWebSocket.Client.OnOpen | app/src/main/java/com/bwc/tul/websocket/WebSocketClient.kt:92-96 | The listener hears the open. The state becomes `AWAITING_SETUP_COMPLETE`, and exactly one frame, the setup message, goes to the socket that opened. |
| TulWebSocket.Client.SendSetupMessage | app/src/main/java/com/bwc/tul/websocket/WebSocketClient.kt:127-151 | The state is entered before the send, and the setup frame is the only call made. |
| TulWebSocket.Client.OnMessage | app/src/main/java/com/bwc/tul/websocket/WebSocketClient.kt:98-112 | While awaiting setup: a text with the marker moves the state to `READY` and fires `onSetupComplete` once, and any other text is only logged, not forwarded. In every other state the text is forwarded unchanged and the state stays. |
| TulWebSocket.Client.OnClosing | app/src/main/java/com/bwc/tul/websocket/WebSocketClient.kt:114-118 | The state becomes `IDLE`, and the listener hears the reason. |
| TulWebSocket.Client.OnFailure | app/src/main/java/com/bwc/tul/websocket/WebSocketClient.kt:120-124 | The state becomes `IDLE`. The listener hears the throwable's message, or "Unknown WebSocket error" when there is none. |
| Base64.Encode | app/src/main/java/com/bwc/translator2/network/WebSocketClient.kt:102 | The encoding has 4·⌈n/3⌉ characters, all of them from the base64 alphabet or the `=` pad. |
| Base64.DecodeEncode | app/src/main/java/com/bwc/translator2/network/WebSocketClient.kt:102 | Decoding the encoding gives back the bytes. |
| Base64.EncodeInjective | app/src/main/java/com/bwc/translator2/network/WebSocketClient.kt:102 | Different byte strings have different encodings. |
| Translator2Network.AudioMessage | app/src/main/java/com/bwc/translator2/network/WebSocketClient.kt:98-107 | `realtimeInput.audio.data` is the base64 of the bytes, 4·⌈n/3⌉ characters long. `realtimeInput.audio.mime_type` is `"audio/pcm;rate=16000"`. |
| Translator2Network.AudioRoundTrip | app/src/main/java/com/bwc/translator2/network/WebSocketClient.kt:98-107 | Reading `data` back out of the envelope and decoding it gives the original bytes. |
| Translator2Network.AudioMessageInjective | app/src/main/java/com/bwc/translator2/network/WebSocketClient.kt:98-107 | Different audio chunks give different envelopes. |
| Translator2Network.BuildUrl | app/src/main/java/com/bwc/translator2/network/WebSocketClient.kt:128-131 | The URL is laid out as `wss://`, the host, `/ws/google.ai.generativelanguage.`, the API version, `.GenerativeService.BidiGenerateContent?key=` and the key, each piece at its own offset, and nothing else. |
| Translator2Network.UrlRoundTrip | app/src/main/java/com/bwc/translator2/network/WebSocketClient.kt:128-131 | The URL is `wss://` + host + `/ws/google.ai.generativelanguage.` + version + `.GenerativeService.BidiGenerateContent?key=` + key. When the host holds no `/` and the API version no `.`, parsing it returns exactly the host, version and key. |
| Translator2Network.UrlInjective | app/src/main/java/com/bwc/translator2/network/WebSocketClient.kt:128-131 | When the host holds no `/` and the API version no `.` in both configurations, they give the same URL only when host, version and key agree. |
| Translator2Network.Client.constructor | app/src/main/java/com/bwc/translator2/network/WebSocketClient.kt:24-30 | Both flags start false. There is no socket and no log file. |
| Translator2Network.Client.Connect | app/src/main/java/com/bwc/translator2/network/WebSocketClient.kt:38-42 | A no-op while connected. Otherwise it opens the session log, and a logging failure is reported to `onFailure` without stopping the connect. It then opens one fresh socket on the built URL when OkHttp accepts that URL (`urlAccepted`). When it rejects it, `Request.Builder().url` throws after `initializeLogging` has run: no socket is opened and the held one is kept. Neither flag changes. |
| Translator2Network.Client.InitializeLogging | app/src/main/java/com/bwc/translator2/network/WebSocketClient.kt:62-74 | The log file is open after success. A failure leaves it as it was and is reported to the listener. |
| Translator2Network.Client.InitializeWebSocket | app/src/main/java/com/bwc/translator2/network/WebSocketClient.kt:76-82 | When OkHttp accepts the URL (`urlAccepted`), opens exactly one fresh socket on `buildWebSocketUrl()` and holds it in place of the old one. When it rejects it, the builder throws: no call is made and the held socket is kept. |
| Translator2Network.Client.Disconnect | app/src/main/java/com/bwc/translator2/network/WebSocketClient.kt:44-50 | A no-op unless connected. Otherwise the held socket is closed with 1001 "Client disconnected", then both flags are cleared and the socket and log are released. |
| Translator2Network.Client.SendAudio | app/src/main/java/com/bwc/translator2/network/WebSocketClient.kt:52-60 | The audio envelope goes out on the held socket exactly when both flags are set and a socket is held. When either flag is clear, nothing is sent and "audio dropped" is logged. No flag changes. |
| Translator2Network.Client.CleanupResources | app/src/main/java/com/bwc/translator2/network/WebSocketClient.kt:84-96 | A no-op unless connected. Otherwise: `isConnected` and `isSetupComplete` are false, the socket is null and the log is closed. Afterwards `isConnected` is false, so a second call changes nothing. |
| Translator2Network.Client.ProcessMessage | app/src/main/java/com/bwc/translator2/network/WebSocketClient.kt:109-119 | `isSetupComplete` is raised, and `onSetupComplete` fired, if and only if the text contains the marker. The text is always forwarded afterwards. |
| Translator2Network.Client.SendConfiguration | app/src/main/java/com/bwc/translator2/network/WebSocketClient.kt:121-126 | Exactly the setup message is sent on the held socket, if any. Then `isSetupComplete` is true, whatever any reply says. |

## Left out

- Whether OkHttp accepts a URL (`HttpUrl.Builder().host` in the gated client, `Request.Builder().url` in the flag client) is the `urlAccepted` parameter of `Connect` and `InitializeWebSocket`, because it depends on OkHttp's URL grammar. A rejection is modelled as leaving `connect` at the point where the builder throws. The thrown exception itself, which reaches the caller of `connect`, is not.
- OkHttp itself is not modelled: its threads, request objects and real socket lifecycle are out. The transport is a log of calls, and socket callbacks arrive only when a method is called.
- The gated client's `HttpUrl.Builder` URL is not modelled. Its `Open` call carries no URL, since building that URL is OkHttp's job. The flag client's string URL is modelled in full.
- Gson's text rendering (escaping, number and key formatting) is not modelled. Frames carry the JSON tree that Gson would serialise.
- `SetupCompleteMarker` is matched against the raw frame text, as in the source. Whether a reply holds it inside a string value, rather than as a key, is not distinguished.
- File and Android logging (`WebSocketLogger`, `logMessage`, `logError`, the `PrintWriter` lines) are I/O. Only the warning or drop lines that record a decision are kept. `WebSocketLogger` and `WebSocketInterceptor` are not part of this model.
- `scope.launch` and `@Volatile` are left out because they are concurrency. The launched logging bodies are dropped. The flag client's `disconnect` runs its close and `cleanupResources` as one step.
- `Translator2Network.Client.ProcessMessage`: the source's `try`/`catch` only guards listener exceptions, and listener calls are not modelled as throwing. The source also never calls `processMessage`, because the socket delivers messages straight to the external listener. It is modelled on its own.
- `Translator2Network.Client.InitializeLogging`: whether creating the log file succeeds is the `loggingOk` parameter, because it depends on the file system.
- `Setup.WebSocketConfig`: `vadSilenceMs` is a Kotlin `Int`, bounded as a 32-bit value. The client does no arithmetic on it.
- `Base64.Encode` makes no claim about Android's `Base64` class itself. It is RFC 4648 section 4 with padding, which is what `NO_WRAP` produces.
- The UI, the view model, the settings dialog and `MainActivity` are outside this model. So are transcript aggregation and resumption-token handling, which no client file implements.
