/** The `HTTPConnection` facade of hyper/common/connection.py: it holds the
    options for both protocols, starts on an HTTP/1.1 transport, swaps in an
    HTTP/2 transport the first time the handshake signals h2, and forwards
    everything else to whichever transport is active. */
module Connection {
  import opened Types
  import opened Config
  import opened Dispatch

  /** What a forwarded attribute read yields: the transport's attribute, or
      the transport's own AttributeError. */
  datatype AttrResult = Found(value: Value) | AttributeError(name: string)

  /** The names the facade itself defines; Python reads these directly and
      never passes them to `__getattr__`. */
  const FacadeAttributes: set<string> :=
    {"__init__", "request", "__getattr__", "_host", "_port", "_h1_kwargs", "_h2_kwargs", "_conn"}

  class HTTPConnection {
    /** `H2_NPN_PROTOCOLS`, the protocol names the upgrade accepts; a module
        constant of hyper's TLS layer, so fixed for the facade's lifetime. */
    const h2Protocols: set<string>
    var host: string
    var port: Value
    var h1Kwargs: Kwargs
    var h2Kwargs: Kwargs
    /** The active transport (`self._conn`). */
    var conn: Transport
    /** Every transport construction, socket install, preamble and request
        the facade has caused, oldest first. */
    var trace: seq<Event>

    /** The object invariant: the trace starts with the one HTTP/1.1
        construction; the slot is that transport until an HTTP/2 transport,
        built from the stored host, port and HTTP/2 options and holding a
        socket, has replaced it; and the trace shows exactly one HTTP/2
        construction once upgraded and none before. */
    ghost predicate Valid()
      reads this
    {
      && |trace| > 0 && trace[0] == BuildH11(host, port, h1Kwargs)
      && (conn.H11? ==> conn == H11(host, port, h1Kwargs))
      && (conn.H20? ==> conn.host == host && conn.port == port && conn.cfg == h2Kwargs && conn.sock.Some?)
      && Upgrades(trace) == if conn.H20? then 1 else 0
    }

    /** The lifecycle state: Fresh (HTTP/1.1) or Upgraded (HTTP/2). */
    predicate Upgraded()
      reads this
    {
      conn.H20?
    }

    /** `__init__`: stores host and port unchanged, splits the options, and
        builds the HTTP/1.1 transport and nothing else. */
    constructor (h2Protocols: set<string>, host: string, port: Value,
                 secure: Value, windowManager: Value, enablePush: Value, extras: Kwargs)
      ensures Valid() && !Upgraded()
      ensures this.h2Protocols == h2Protocols
      ensures this.host == host && this.port == port
      ensures h1Kwargs == H1Kwargs(secure, extras)
      ensures h2Kwargs == H2Kwargs(windowManager, enablePush, extras)
      ensures conn == H11(host, port, h1Kwargs)
      ensures trace == [BuildH11(host, port, h1Kwargs)]
    {
      this.h2Protocols := h2Protocols;
      this.host := host;
      this.port := port;
      var h1 := map[Secure := secure];
      var h2 := map[WindowManager := windowManager, EnablePush := enablePush];
      // Any unexpected keyword goes into both dictionaries.
      h1 := h1 + extras;
      h2 := h2 + extras;
      h1Kwargs := h1;
      h2Kwargs := h2;
      conn := H11(host, port, h1);
      trace := [BuildH11(host, port, h1)];
      new;
      assert trace[1..] == [];
    }

    /** `request`: forwards to the active transport; when the HTTP/1.1
        transport signals that the handshake picked a protocol in
        `h2Protocols`, swaps in an HTTP/2 transport on the signal's socket,
        sends the preamble and replays the request once. */
    method Request(req: HttpRequest, h11: H11Reply, h20: H20Reply) returns (out: Outcome)
      requires Valid()
      modifies this
      ensures Valid()
      ensures host == old(host) && port == old(port)
      ensures h1Kwargs == old(h1Kwargs) && h2Kwargs == old(h2Kwargs)
      ensures var s := Step(h2Protocols, host, port, h2Kwargs, old(conn), req, h11, h20);
        conn == s.conn && out == s.out && trace == old(trace) + s.events
      ensures old(Upgraded()) ==> Upgraded() && conn == old(conn)
    {
      ghost var before := trace;
      ghost var step := Step(h2Protocols, host, port, h2Kwargs, conn, req, h11, h20);
      match conn {
        case H20(_, _, _, _) =>
          trace := trace + [H20Request(req)];
          out := H20Outcome(h20);
        case H11(_, _, _) =>
          trace := trace + [H11Request(req)];
          match h11 {
            case H11Done =>
              out := Returned(None);
            case H11Failed(e) =>
              out := Raised(TransportError(e));
            case H11Upgrade(negotiated, sock) =>
              if negotiated !in h2Protocols {
                out := Raised(AssertionFailed(negotiated));
              } else {
                conn := H20(host, port, h2Kwargs, None);
                trace := trace + [BuildH20(host, port, h2Kwargs)];
                conn := conn.(sock := Some(sock));
                trace := trace + [InstallSocket(sock)];
                // The normal connect path was skipped, so the preamble is sent here.
                trace := trace + [SendPreamble(conn.sock.value)];
                trace := trace + [H20Request(req)];
                out := H20Outcome(h20);
              }
          }
      }
      assert trace == before + step.events;
      UpgradesAppend(before, step.events);
    }

    /** `__getattr__`: an attribute the facade lacks is read from the
        transport active at the time of the read, failure included. */
    method GetAttr(name: string, lookup: (Transport, string) -> AttrResult) returns (r: AttrResult)
      requires name !in FacadeAttributes
      ensures r == lookup(conn, name)
    {
      r := lookup(conn, name);
    }
  }

  /** A facade built with `secure=True`, a window manager, `enable_push=True`
      and one extra option; `request('GET', '/a', headers={'X': '1'})` meets
      an h2 signal on socket 7 and HTTP/2 assigns stream 1. The caller gets
      stream 1, the trace is the construction, the swap and a replay of the
      identical request, and a later attribute read reaches the HTTP/2
      transport on socket 7. */
  method UpgradeScenario(lookup: (Transport, string) -> AttrResult)
    returns (out: Outcome, events: seq<Event>, attr: AttrResult)
    ensures var get := HttpRequest("GET", "/a", NoBody, map["X" := "1"]);
      var h1 := map[Secure := PyBool(true), "extra_key" := PyStr("v")];
      var h2 := map[WindowManager := PyObject(1), EnablePush := PyBool(true), "extra_key" := PyStr("v")];
      && out == Returned(Some(1))
      && events == [BuildH11("http2bin.org", PyNone, h1), H11Request(get), BuildH20("http2bin.org", PyNone, h2),
                    InstallSocket(Socket(7)), SendPreamble(Socket(7)), H20Request(get)]
      && attr == lookup(H20("http2bin.org", PyNone, h2, Some(Socket(7))), "get_pushes")
  {
    var extras := map["extra_key" := PyStr("v")];
    var h1 := map[Secure := PyBool(true), "extra_key" := PyStr("v")];
    var h2 := map[WindowManager := PyObject(1), EnablePush := PyBool(true), "extra_key" := PyStr("v")];
    assert H1Kwargs(PyBool(true), extras) == h1;
    assert H2Kwargs(PyObject(1), PyBool(true), extras) == h2;
    var c := new HTTPConnection({"h2"}, "http2bin.org", PyNone, PyBool(true), PyObject(1), PyBool(true), extras);
    assert c.trace == [BuildH11("http2bin.org", PyNone, h1)] && c.h2Kwargs == h2;
    var get := HttpRequest("GET", "/a", NoBody, map["X" := "1"]);
    out := c.Request(get, H11Upgrade("h2", Socket(7)), H20Stream(1));
    events := c.trace;
    attr := c.GetAttr("get_pushes", lookup);
  }

  /** A signal naming a protocol outside the allowed set raises at the
      assertion: no HTTP/2 transport, no socket install, no preamble, no
      replay, and the facade stays on HTTP/1.1. */
  method RejectedProtocolScenario(negotiated: string, sock: Socket, req: HttpRequest, h20: H20Reply)
    returns (out: Outcome, events: seq<Event>, upgraded: bool)
    requires negotiated != "h2"
    ensures out == Raised(AssertionFailed(negotiated))
    ensures events == [BuildH11("example.org", PyInt(443), map[Secure := PyNone]), H11Request(req)]
    ensures !upgraded
  {
    var c := new HTTPConnection({"h2"}, "example.org", PyInt(443), PyNone, PyNone, PyBool(false), map[]);
    out := c.Request(req, H11Upgrade(negotiated, sock), h20);
    events := c.trace;
    upgraded := c.Upgraded();
    assert c.h1Kwargs == map[Secure := PyNone];
  }

  /** Two successive `request` calls on a fresh facade return, in order,
      what `Dispatch.Run` gives for the same two calls from the HTTP/1.1
      transport, and leave the trace of that run after the construction. */
  method TwoRequests(h2Protocols: set<string>, host: string, port: Value, secure: Value,
                     windowManager: Value, enablePush: Value, extras: Kwargs, first: Call, second: Call)
    returns (outs: seq<Outcome>, events: seq<Event>, upgraded: bool)
    ensures var r := Run(h2Protocols, host, port, H2Kwargs(windowManager, enablePush, extras),
                         H11(host, port, H1Kwargs(secure, extras)), [first, second]);
      && outs == r.outs
      && events == [BuildH11(host, port, H1Kwargs(secure, extras))] + r.events
      && upgraded == r.conn.H20?
  {
    var c := new HTTPConnection(h2Protocols, host, port, secure, windowManager, enablePush, extras);
    var o1 := c.Request(first.req, first.h11, first.h20);
    var o2 := c.Request(second.req, second.h11, second.h20);
    outs := [o1, o2];
    events := c.trace;
    upgraded := c.Upgraded();
    ghost var h1, h2 := H1Kwargs(secure, extras), H2Kwargs(windowManager, enablePush, extras);
    ghost var s1 := Step(h2Protocols, host, port, h2, H11(host, port, h1), first.req, first.h11, first.h20);
    ghost var s2 := Step(h2Protocols, host, port, h2, s1.conn, second.req, second.h11, second.h20);
    assert [first, second][1..] == [second];
    assert [second][1..] == [];
    assert Run(h2Protocols, host, port, h2, s1.conn, [second]) == RunResult(s2.conn, [s2.out], s2.events + []);
    assert Run(h2Protocols, host, port, h2, H11(host, port, h1), [first, second])
        == RunResult(s2.conn, [s1.out] + [s2.out], s1.events + (s2.events + []));
  }
}
