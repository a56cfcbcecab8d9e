/** Values exchanged between the connection facade, its two transports and
    the TLS negotiation that may hand an HTTP/2 socket back mid-request. */
module Types {

  datatype Option<+T> = None | Some(value: T)

  datatype Result<+T, +E> = Ok(value: T) | Err(error: E)

  /** A Python keyword-argument value: None, a bool, an int, a string, or an
      opaque object (a flow-control window-manager class, for example). */
  datatype Value = PyNone | PyBool(b: bool) | PyInt(i: int) | PyStr(s: string) | PyObject(id: nat)

  /** A `**kwargs` dictionary. */
  type Kwargs = map<string, Value>

  /** The live, already TLS-wrapped socket produced by the handshake, known
      only by its identity. */
  datatype Socket = Socket(id: nat)

  /** A request body: absent, a byte string, or a readable file-like object. */
  datatype Body = NoBody | Bytes(data: seq<bv8>) | Readable(id: nat)

  type Headers = map<string, string>

  /** The four arguments of `request`, kept together so that a replay can be
      compared with the original call as a whole. */
  datatype HttpRequest = HttpRequest(verb: string, url: string, body: Body, headers: Headers)

  /** The facade's active transport. Both transports are opaque: only the
      arguments they were built from and, for HTTP/2, the installed socket
      are observable. */
  datatype Transport =
    | H11(host: string, port: Value, cfg: Kwargs)
    | H20(host: string, port: Value, cfg: Kwargs, sock: Option<Socket>)

  /** The side effects the facade causes, in the order it causes them. */
  datatype Event =
    | BuildH11(host: string, port: Value, cfg: Kwargs)
    | BuildH20(host: string, port: Value, cfg: Kwargs)
    | InstallSocket(sock: Socket)
    | SendPreamble(sock: Socket)
    | H11Request(req: HttpRequest)
    | H20Request(req: HttpRequest)
  {
    /** True of every effect that touches an HTTP/2 transport. */
    predicate IsHttp2() {
      BuildH20? || InstallSocket? || SendPreamble? || H20Request?
    }
  }

  /** What the HTTP/1.1 transport's `request` does: return None, raise the
      `TLSUpgrade` signal with the negotiated protocol and socket, or raise
      any other error. */
  datatype H11Reply = H11Done | H11Upgrade(negotiated: string, sock: Socket) | H11Failed(error: string)

  /** What the HTTP/2 transport's `request` does: return a stream id or raise
      an error. It never raises `TLSUpgrade`. */
  datatype H20Reply = H20Stream(streamId: nat) | H20Failed(error: string)

  /** An exception leaving the facade's `request`. */
  datatype Failure = AssertionFailed(negotiated: string) | TransportError(error: string)

  /** How the facade's `request` ends: it returns a stream id (HTTP/2) or
      None (HTTP/1.1), or it raises. */
  datatype Outcome = Returned(streamId: Option<nat>) | Raised(failure: Failure)
}
