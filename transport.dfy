/**
 * The OkHttp socket, seen from the client: a log of the calls the client
 * makes on it. `newWebSocket` hands out a fresh socket; `send` and `close`
 * name the socket they act on.
 */
module Transport {
  import opened Options
  import opened Json
  import opened Base64

  type SocketId = nat

  /** A frame on the wire: a JSON text frame (as Gson renders it) or raw bytes. */
  datatype Frame = Text(body: Json) | Binary(bytes: seq<Byte>)

  datatype Call =
    | Open(socket: SocketId, url: Option<string>)
    | Send(socket: SocketId, frame: Frame)
    | Close(socket: SocketId, code: int, reason: string)

  /** Frame `f` was sent on socket `s` before position `i` of the log. */
  ghost predicate SentBefore(calls: seq<Call>, s: SocketId, f: Frame, i: int) {
    exists j :: 0 <= j < i && j < |calls| && calls[j] == Send(s, f)
  }

  /** Frame `f` was sent, on some socket, before position `i` of the log. */
  ghost predicate SentOnSomeSocketBefore(calls: seq<Call>, f: Frame, i: int) {
    exists j :: 0 <= j < i && j < |calls| && calls[j].Send? && calls[j].frame == f
  }

  /** An audio frame of the gated client: raw bytes. */
  predicate IsBinarySend(c: Call) {
    c.Send? && c.frame.Binary?
  }
}
