# hyper `HTTPConnection`: a verified model of the HTTP/1.1 to HTTP/2 facade

hyper's `HTTPConnection` stands for one logical client connection. The
caller does not know in advance whether the server speaks HTTP/1.1 or
HTTP/2.

- At construction the facade splits its options into a map for HTTP/1.1
  (`secure` plus the extra keywords) and a map for HTTP/2 (`window_manager`,
  `enable_push` plus the extra keywords). It then builds only an HTTP/1.1
  transport.
- `request` forwards to the active transport. The TLS handshake may pick h2
  through NPN/ALPN (section 3 of RFC 7301). The HTTP/1.1 transport then
  raises `TLSUpgrade`, which carries the negotiated protocol name and the
  open socket. The facade handles it in this order:
  1. It asserts that the protocol name is allowed.
  2. It builds an HTTP/2 transport from the same host, port and HTTP/2 map.
  3. It installs the signal's socket in that transport.
  4. It sends the HTTP/2 connection preface (section 3.5 of RFC 7540).
  5. It replays the original request once and returns that result.
- Every other attribute is read from the transport active at that moment.

The Dafny project has four modules:

- `Types` (types.dfy) holds the values. The transport slot is a sum type
  `H11 | H20`. Sockets are opaque tokens. `Event` records each construction,
  socket install, preamble and request the facade causes.
- `Config` (config.dfy) holds the keyword binding of the constructor and the
  split into the two maps.
- `Dispatch` (dispatch.dfy) holds `Step`, a pure specification of one
  `request` call. It also holds `Run`, a facade's lifetime as a sequence of
  calls, and the lemmas about both.
- `Connection` (connection.dfy) holds the class `HTTPConnection`. Its fields
  are host, port, the two maps, the mutable transport slot `conn` and the
  event `trace`. `Request` is proved to change the state exactly as `Step`
  says. The object invariant `Valid` ties the slot to the trace: one HTTP/2
  construction once upgraded, none before.

The transports are oracles. The HTTP/1.1 answer is an input: `H11Done`,
`H11Upgrade(negotiated, sock)` or `H11Failed(error)`. The HTTP/2 answer is
also an input: `H20Stream(id)` or `H20Failed(error)`. The HTTP/2 transport
cannot raise `TLSUpgrade` in this model. The `except TLSUpgrade` at
hyper/common/connection.py:87 does not check which transport is active, so
"at most one upgrade per lifetime" rests on that assumption.

The docstring at hyper/common/connection.py:25-29 allows a `host:port`
string, but this file does not split it. Lines 51-52 store `host` and `port`
unchanged, and any splitting happens inside the transports. The model
follows the code.

## Model

| member | source | states |
|---|---|---|
| Config.BindKeywords | hyper/common/connection.py:43-49 | A call `HTTPConnection(host, **kw)` fails with "multiple values" exactly when `kw` also names `self` or `host`, and the error names one of them. Otherwise `port`, `secure`, `window_manager` and `enable_push` each take the caller's keyword value when given and their defaults (None, None, None, False) when not. The extras are exactly the keywords that are not named parameters, with their values, so they never hold a named key. |
| Config.H1Kwargs | hyper/common/connection.py:53-59 | `_h1_kwargs` has the keys `secure` plus the extras. Every extra keeps its value. `secure` maps to the argument even when it is None. |
| Config.H2Kwargs | hyper/common/connection.py:54-60 | `_h2_kwargs` has the keys `window_manager`, `enable_push` plus the extras. Every extra keeps its value. The named keys map to their arguments even when None or False. |
| Config.Partition | hyper/common/connection.py:43-60 | For extras without named keys: `secure` is only in the HTTP/1.1 map. `window_manager` and `enable_push` are only in the HTTP/2 map. The keys both maps share are exactly the extras, with the same values in both. Removing the named keys from either map leaves exactly the extras. |
| Config.KeywordsPreserved | hyper/common/connection.py:43-60 | Every keyword a caller passes, other than `port`, ends up in at least one of the two maps with the caller's value. |
| Connection.HTTPConnection.constructor | hyper/common/connection.py:43-64 | The allowed protocol set is fixed for the facade's lifetime. Host and port are stored unchanged. The two maps are `H1Kwargs` and `H2Kwargs` of the arguments. The slot is an HTTP/1.1 transport built from the stored host, port and HTTP/1.1 map. The trace holds exactly that one construction, and the facade is not upgraded. |
| Dispatch.Step | hyper/common/connection.py:83-104 | The slot becomes HTTP/2 iff it already was HTTP/2 or a signal with an allowed protocol arrives. Once HTTP/2, the slot never changes. Without a signal, the unchanged request goes to the active transport, its result (None, a stream id or an error) is returned and the slot stays. A disallowed protocol raises an assertion failure with no HTTP/2 effect. A valid upgrade builds HTTP/2 from the same host, port and HTTP/2 map on the signal's own socket. It sends the preamble on that socket, then replays the identical request once and returns the replay's result. A step builds one HTTP/2 transport on a valid upgrade and none otherwise. |
| Dispatch.ReplayAfterPreamble | hyper/common/connection.py:93-104 | On a valid upgrade the HTTP/2 transport receives exactly one request: the call's last effect is the original request sent to HTTP/2, and no other HTTP/2 request occurs. Every HTTP/2 request is the original one, and the preamble on the signal's socket comes strictly before it. |
| Dispatch.Run | hyper/common/connection.py:66-104 | A sequence of calls on one facade, each call seeing the slot the previous one left, yields one outcome per call. |
| Dispatch.UpgradeAtMostOnce | hyper/common/connection.py:83-104 | Once the slot is HTTP/2, it stays the same transport for the rest of the lifetime. Every later call goes to it and returns its answer, and no other HTTP/2 transport is built. Starting from HTTP/1.1, at most one HTTP/2 transport is ever built, and one is built exactly when the lifetime ends upgraded. |
| Connection.HTTPConnection.Request | hyper/common/connection.py:83-104 | The method keeps the object invariant and leaves host, port and both maps unchanged. The new slot, the result and the events appended to the trace are exactly those of `Dispatch.Step` on the old slot, with the facade's fixed protocol set. An upgraded facade stays upgraded on the same transport. |
| Connection.HTTPConnection.GetAttr | hyper/common/connection.py:107-108 | For a name the facade does not define itself (Python calls `__getattr__` only then), the attribute is read from the transport in the slot at the time of the read. The transport's own AttributeError comes back unchanged. |
| Connection.TwoRequests | hyper/common/connection.py:43-104 | Two successive `request` calls on a freshly built facade return the outcomes `Dispatch.Run` gives for those two calls from the HTTP/1.1 transport. The facade's trace is the construction followed by that run's events, and the facade ends upgraded exactly when the run does. |
| Connection.UpgradeScenario | hyper/common/connection.py:53-108 | The facade gets `secure=True`, a window manager, `enable_push=True` and `extra_key='v'`. Then `request('GET', '/a', headers={'X': '1'})` meets an h2 signal on socket 7. The caller gets HTTP/2's stream id. The trace is: the HTTP/1.1 construction with `{secure, extra_key}`, the HTTP/1.1 request, the HTTP/2 construction with `{window_manager, enable_push, extra_key}`, the socket install, the preamble and the identical replay. A later attribute read goes to that HTTP/2 transport. |
| Connection.RejectedProtocolScenario | hyper/common/connection.py:87-91 | A signal naming a protocol outside the allowed set makes `request` raise the assertion failure. The trace holds only the construction and the HTTP/1.1 request, and the facade is not upgraded. |

## Left out

- The internals of `HTTP11Connection` and `HTTP20Connection` are not modelled: framing, chunked bodies, Content-Length, HPACK, flow control, server push and the preamble bytes. Each transport is an opaque value, and its answers are inputs.
- The TLS handshake and the NPN/ALPN exchange are not modelled. The socket is an opaque token.
- `H2_NPN_PROTOCOLS` is defined in hyper/tls.py, which is not part of this model. The facade receives the allowed set at construction and keeps it as a constant; `Step` takes it as a parameter.
- Running under `python -O` removes the `assert` at line 91. The upgrade would then go ahead for any protocol name. The model keeps the assertion, as the code is written.
- Failures raised by the HTTP/2 constructor or by `_send_preamble` are not modelled. Those operations are external, and here they always succeed.
- Connection.HTTPConnection.constructor: a failure raised by the `HTTP11Connection` constructor (lines 62-64), which would make `__init__` fail, is not modelled. Construction of the HTTP/1.1 transport always succeeds here.
- Dispatch.Step: the value a normal HTTP/1.1 `request` returns is fixed to None, as the docstring at lines 80-81 promises. Line 84 returns whatever `HTTP11Connection.request` returns; the model does not carry an arbitrary HTTP/1.1 return value.
- The HTTP/2 transport raising `TLSUpgrade` is excluded by the type of its answer. Under that assumption, at most one upgrade happens per lifetime.
- The port defaulting to 443, the `secure` defaulting and the `host:port` splitting are not modelled. They happen inside the transports.
- Python's dynamic `__getattr__` over arbitrary attribute names is modelled as one forwarding read. The transports' attributes are given as a lookup function. The names the facade defines are excluded from it; names inherited from `object` (the dunder methods) are not listed.
- The old HTTP/1.1 transport is not closed or released after the swap. The source simply drops its reference.
- Concurrency is not modelled: one caller at a time, as the source assumes.
- The mutable default `headers={}` is not modelled. Headers are a value.
- Config.BindKeywords: binds `host` positionally and every other argument by keyword. Positional `port`, `secure` and so on are not modelled.
- Dispatch.Run: its own contract states only that each call yields one outcome. Its lifetime properties are stated by Dispatch.UpgradeAtMostOnce.
