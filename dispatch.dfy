/** The request dispatch and one-shot HTTP/2 upgrade of
    `HTTPConnection.request` (hyper/common/connection.py:66-104) as a pure
    step on the active transport, and the lifetime of a facade as a sequence
    of such steps. */
module Dispatch {
  import opened Types

  /** The `except TLSUpgrade` branch runs to the swap: the HTTP/1.1
      transport is active, it raised the signal, and the negotiated protocol
      passes the assertion at line 91. */
  predicate IsUpgrade(h2Protocols: set<string>, conn: Transport, reply: H11Reply) {
    conn.H11? && reply.H11Upgrade? && reply.negotiated in h2Protocols
  }

  /** What an HTTP/2 `request` hands back to the facade's caller. */
  function H20Outcome(reply: H20Reply): Outcome {
    match reply
    case H20Stream(id) => Returned(Some(id))
    case H20Failed(e) => Raised(TransportError(e))
  }

  /** The number of HTTP/2 transports built in a trace. */
  function Upgrades(events: seq<Event>): nat {
    if events == [] then 0
    else (if events[0].BuildH20? then 1 else 0) + Upgrades(events[1..])
  }

  lemma {:induction false} UpgradesAppend(a: seq<Event>, b: seq<Event>)
    ensures Upgrades(a + b) == Upgrades(a) + Upgrades(b)
  {
    if a == [] {
      assert a + b == b;
    } else {
      assert (a + b)[1..] == a[1..] + b;
      UpgradesAppend(a[1..], b);
    }
  }

  lemma {:induction false} NoUpgrades(events: seq<Event>)
    requires forall i :: 0 <= i < |events| ==> !events[i].BuildH20?
    ensures Upgrades(events) == 0
  {
    if events != [] {
      NoUpgrades(events[1..]);
    }
  }

  datatype StepResult = StepResult(conn: Transport, out: Outcome, events: seq<Event>)

  /** One call `request(req)` on a facade built for `host`, `port` with HTTP/2
      options `h2Kwargs` whose active transport is `conn`. `h11` and `h20` say
      how the transports answer; only the one the call reaches is used. */
  function Step(h2Protocols: set<string>, host: string, port: Value, h2Kwargs: Kwargs,
                conn: Transport, req: HttpRequest, h11: H11Reply, h20: H20Reply): (s: StepResult)
    // The slot becomes HTTP/2 exactly on a valid upgrade and stays HTTP/2.
    ensures s.conn.H20? <==> conn.H20? || IsUpgrade(h2Protocols, conn, h11)
    ensures !IsUpgrade(h2Protocols, conn, h11) ==> s.conn == conn
    // Without the signal the call is forwarded unchanged and its result returned.
    ensures conn.H20? ==> s.events == [H20Request(req)] && s.out == H20Outcome(h20)
    ensures conn.H11? && h11.H11Done? ==> s.events == [H11Request(req)] && s.out == Returned(None)
    ensures conn.H11? && h11.H11Failed? ==> s.events == [H11Request(req)] && s.out == Raised(TransportError(h11.error))
    // A protocol outside the allowed set fails the assertion before any HTTP/2 work.
    ensures conn.H11? && h11.H11Upgrade? && h11.negotiated !in h2Protocols ==>
      && s.out == Raised(AssertionFailed(h11.negotiated))
      && forall i :: 0 <= i < |s.events| ==> !s.events[i].IsHttp2()
    // On a valid upgrade: same host, port and HTTP/2 options, the signal's own
    // socket, the preamble on that socket, then one replay of the very same
    // request whose result is returned.
    ensures IsUpgrade(h2Protocols, conn, h11) ==>
      && s.conn == H20(host, port, h2Kwargs, Some(h11.sock))
      && s.events == [H11Request(req), BuildH20(host, port, h2Kwargs), InstallSocket(h11.sock),
                      SendPreamble(h11.sock), H20Request(req)]
      && s.out == H20Outcome(h20)
    ensures Upgrades(s.events) == if IsUpgrade(h2Protocols, conn, h11) then 1 else 0
  {
    match conn
    case H20(_, _, _, _) => StepResult(conn, H20Outcome(h20), [H20Request(req)])
    case H11(_, _, _) =>
      var first := [H11Request(req)];
      match h11
      case H11Done => StepResult(conn, Returned(None), first)
      case H11Failed(e) => StepResult(conn, Raised(TransportError(e)), first)
      case H11Upgrade(negotiated, sock) =>
        if negotiated !in h2Protocols then StepResult(conn, Raised(AssertionFailed(negotiated)), first)
        else
          var built := H20(host, port, h2Kwargs, None);
          var installed := built.(sock := Some(sock));
          var swap := [BuildH20(host, port, h2Kwargs), InstallSocket(sock), SendPreamble(sock)];
          var events := first + swap + [H20Request(req)];
          assert Upgrades(events) == 1 by {
            var tail := [InstallSocket(sock), SendPreamble(sock), H20Request(req)];
            assert events[1..][1..] == tail;
            NoUpgrades(tail);
          }
          StepResult(installed, H20Outcome(h20), events)
  }

  /** Replay fidelity and ordering, read off a valid upgrade's trace: the
      HTTP/2 transport sees exactly one request, the original one, as the
      call's last effect, and the preamble goes out on the signal's socket
      strictly before it. */
  lemma ReplayAfterPreamble(h2Protocols: set<string>, host: string, port: Value, h2Kwargs: Kwargs,
                            conn: Transport, req: HttpRequest, h11: H11Reply, h20: H20Reply)
    requires IsUpgrade(h2Protocols, conn, h11)
    ensures var e := Step(h2Protocols, host, port, h2Kwargs, conn, req, h11, h20).events;
      && (forall j :: 0 <= j < |e| && e[j].H20Request? ==>
            (e[j].req == req && exists i :: 0 <= i < j && e[i] == SendPreamble(h11.sock)))
      && (forall i, j :: 0 <= i < j < |e| && e[i].H20Request? ==> !e[j].H20Request?)
      && |e| > 0 && e[|e| - 1] == H20Request(req)
  {
    var e := Step(h2Protocols, host, port, h2Kwargs, conn, req, h11, h20).events;
    assert e[3] == SendPreamble(h11.sock);
  }

  /** One call of a caller's sequence: the request and how the transports
      answer it. */
  datatype Call = Call(req: HttpRequest, h11: H11Reply, h20: H20Reply)

  datatype RunResult = RunResult(conn: Transport, outs: seq<Outcome>, events: seq<Event>)

  /** A sequence of `request` calls on one facade, each seeing the slot the
      previous one left. */
  function Run(h2Protocols: set<string>, host: string, port: Value, h2Kwargs: Kwargs,
               conn: Transport, calls: seq<Call>): (r: RunResult)
    ensures |r.outs| == |calls|
    decreases |calls|
  {
    if calls == [] then RunResult(conn, [], [])
    else
      var s := Step(h2Protocols, host, port, h2Kwargs, conn, calls[0].req, calls[0].h11, calls[0].h20);
      var rest := Run(h2Protocols, host, port, h2Kwargs, s.conn, calls[1..]);
      RunResult(rest.conn, [s.out] + rest.outs, s.events + rest.events)
  }

  /** The lifecycle Fresh then Upgraded: once HTTP/2 is active it stays the
      same transport, every later call goes to it and returns its answer, and
      nothing builds another one; from HTTP/1.1 at most one HTTP/2 transport
      is ever built, and one is built exactly when the slot ends up HTTP/2. */
  lemma {:induction false} UpgradeAtMostOnce(h2Protocols: set<string>, host: string, port: Value,
                                             h2Kwargs: Kwargs, conn: Transport, calls: seq<Call>)
    ensures var r := Run(h2Protocols, host, port, h2Kwargs, conn, calls);
      && (conn.H20? ==> r.conn == conn && Upgrades(r.events) == 0)
      && (conn.H20? ==> forall i :: 0 <= i < |r.events| ==> r.events[i].H20Request?)
      && (conn.H20? ==> forall i :: 0 <= i < |calls| ==> r.outs[i] == H20Outcome(calls[i].h20))
      && (conn.H11? ==> Upgrades(r.events) <= 1 && (r.conn.H20? <==> Upgrades(r.events) == 1))
    decreases |calls|
  {
    var r := Run(h2Protocols, host, port, h2Kwargs, conn, calls);
    if calls != [] {
      var s := Step(h2Protocols, host, port, h2Kwargs, conn, calls[0].req, calls[0].h11, calls[0].h20);
      var rest := Run(h2Protocols, host, port, h2Kwargs, s.conn, calls[1..]);
      UpgradeAtMostOnce(h2Protocols, host, port, h2Kwargs, s.conn, calls[1..]);
      UpgradesAppend(s.events, rest.events);
      assert r.events == s.events + rest.events;
      if conn.H20? {
        forall i | 0 <= i < |calls|
          ensures r.outs[i] == H20Outcome(calls[i].h20)
        {
          if i > 0 {
            assert r.outs[i] == rest.outs[i - 1];
            assert calls[1..][i - 1] == calls[i];
          }
        }
      }
    }
  }
}
