# anonymizer: a verified model of the two-hop proxy's connection core

anonymizer is a two-hop HTTP proxy written in Python 2. The **local hop**
(`client.py`) accepts a browser's connection. It admits only addresses on its
white list, opens a mutually authenticated TLS connection to the remote hop,
and relays bytes both ways. The **remote hop** (`server.py`) is an HTTP request
handler. It screens its peer against its own white list. For `CONNECT` it
opens a tunnel. For other verbs it rewrites a plain HTTP request, sends it to
the target, and relays the answer.

This project models the deterministic logic inside the two handlers. It then
proves what that logic promises.

- `wire.dfy` (module `Wire`):
  - `str.find` and `str.rfind`;
  - Python 2 `int()` on a string, and the text of the `ValueError` it raises, with the `repr` of the offending text;
  - the `"name: value\r\n"` header-line format, with the parser that reads it back.
- `relay.dfy` (module `Relay`): the `_read_write` relay loop that both hops share.
  - It is an imperative method over a trace of poll results.
  - The method is proved equal to a declarative specification `Relay`.
  - The `select`/`recv` results are the trace; everything sent is one output string per direction.
- `remote.dfy` (module `RemoteProxy`): the remote hop's handlers.
  - A session is the sequence of effects it has on its sockets.
  - The `ProxyHandler` class object is a Dafny class. Its `setup` and `handle` attributes are overwritten in place on the first connection.
- `local.dfy` (module `LocalProxy`): the local hop's handler.
  - The handler is a class with the remote socket's state and a log of effects.
  - It is proved equal to a specification function `Session`.

What the sockets, the TLS library, `urlparse` and the HTTP request parser return are inputs.

Behaviour of the code a reader might not expect:

- The local hop has no allow-all case: an empty white list rejects everyone (`client.py:52`).
- An empty read (the peer has closed) does not end the relay. It also does not reset the idle counter. The relay ends only on an error from `select`, a raised exception, or the idle limit (`server.py:124-137`).
- The local hop wraps the socket for TLS *before* it connects (`client.py:87-93`).
- The local hop's error page also reports exceptions raised while relaying, not only during connect (`client.py:56-65`).
- The local hop's rejection is the plain-text note sent after the same `500` head, not an HTML page (`client.py:53`).
- The forwarded request line keeps `;params` as well as the path and query (`server.py:103-105`).

## Model

| member | source | states |
|---|---|---|
| Wire.ParseInt | server.py:70 | the definition of Python 2 `int()` on the port text: surrounding whitespace ignored, one optional sign, then decimal digits; anything else is the `ValueError` (None). `ParseDecimal`, `ParseIntAlphabet` and `SameTrim` state its properties |
| Wire.IntError | server.py:70 | the definition of the `ValueError` text: the NUL complaint when a number precedes a NUL, otherwise `repr` of at most 200 bytes of the stripped text. `IntErrorCapped` and `IntErrorSkipsSpaces` state its properties |
| Wire.FormatHeaders | server.py:109-110 | the definition of the header lines the loop sends: one `"k: v\r\n"` per item, in order. `FormatHeadersSnoc` and `HeadersRoundTrip` state its properties |
| Wire.ParseHead | server.py:102-111 | the reader of a message head on the receiving side (start line, header lines up to the blank line, body), used as the inverse of what the hops send. `HeadRoundTrip` states that it undoes them |
| Wire.Find | server.py:68 | the result is the index of the first `c`, or -1 exactly when `c` does not occur |
| Wire.ParseDecimal | server.py:70 | `int()` reads back the decimal spelling of every natural number |
| Wire.ParseIntAlphabet | server.py:70 | `int()` succeeds only on strings made of whitespace, signs and digits that contain a digit; any other character makes it raise |
| Wire.RFind | server.py:93 | `rfind`: the index of the last `c`, with no `c` after it, or -1 exactly when `c` does not occur |
| Wire.RFindBefore | server.py:93 | text appended without `c` does not move the last `c` |
| Wire.UpToNul | server.py:70 | the text `int()`'s C parser sees is the argument up to its first NUL: a NUL-free prefix that is all of it when it holds none, and otherwise is followed by a NUL |
| Wire.Repr | server.py:70 | `repr` of a byte string is at least two bytes longer than it and starts and ends with its quote |
| Wire.ReprPlain | server.py:70 | printable text without a backslash and without both kinds of quote is quoted verbatim: in double quotes iff it holds a single quote |
| Wire.IntErrorCapped | server.py:70 | for a text without NUL that does not start with whitespace, the `ValueError` text quotes at most its first 200 bytes |
| Wire.IntErrorSkipsSpaces | server.py:70 | leading whitespace is skipped before anything is quoted: a text with whitespace in front fails with the same message as the text alone |
| Wire.FormatHeadersSnoc | server.py:109-110 | sending one more header item appends exactly its `"k: v\r\n"` line |
| Wire.HeadersRoundTrip | server.py:109-111 | header lines followed by a blank line read back as the same items in the same order, followed by the untouched rest |
| Wire.HeadRoundTrip | server.py:102-111 | a start line, header lines and a blank line read back as the start line, the items and the body |
| Relay.Relay | server.py:120-137 | the definition of `_read_write`'s run on a trace: the passes up to the first halting one, its exit reason, and what was sent each way. `ReadWrite` is proved equal to it |
| Relay.IdleRun | server.py:123-135 | the definition of the `idling` counter: the number of trailing passes that forwarded nothing. `IdleRunSpan` and `QuietRunGrows` state its properties |
| Relay.Passes | server.py:124-137 | the loop runs up to and including the first pass that halts it (a raised exception, an error from `select`, or the idle counter reaching the limit), or the whole trace |
| Relay.ReadWrite | server.py:120-137 | the loop with `timeout_max = timeout / tick` computes exactly the specification `Relay`: same exit reason, pass count and bytes sent each way |
| Relay.OnePass | client.py:100-116 | one pass counts itself and stops on an error before reading; otherwise it appends what it read to the other side's output, resets the counter iff some read returned data, and stops iff the counter equals the limit; a raise mid-pass stops it after forwarding the reads completed before the raise |
| Relay.Drain | client.py:106-114 | the reads of one pass append each chunk to the peer socket's output in order; the counter is reset iff some chunk was non-empty |
| Relay.IdleRunSpan | server.py:125-135 | the idle counter equals the number of trailing passes that forwarded nothing, and the pass before them forwarded |
| Relay.IdleTimeoutIsExact | server.py:121-137 | with a limit of at least 1, an idle timeout comes after exactly `timeout_max` consecutive quiet passes. Those passes follow a forwarding pass or the start. No earlier pass raised or signalled an error |
| Relay.ErrorEndsRelay | server.py:126-128 | an error reported by `select` ends the relay at that pass, and nothing is sent in that pass |
| Relay.EmptyReadsDoNotReset | server.py:133-135 | a pass whose reads all came back empty increments the idle counter and sends nothing |
| Relay.QuietPassesTimeOut | client.py:96-116 | `max` quiet passes at the start end the relay by idle timeout after exactly `max` passes, with nothing sent either way |
| Relay.RunningBelowLimit | server.py:121-137 | while the relay is still running, the idle counter is below the limit |
| Relay.QuietRunGrows | server.py:125-135 | each quiet pass raises the idle counter by exactly one |
| Relay.QuietRunTimesOut | server.py:121-137 | from any pass at which the relay is still running, `max` quiet passes end it by idle timeout, after exactly as many of them as the counter had left before the limit |
| Relay.ChunkForwarded | client.py:106-114 | every chunk read from a socket appears unmodified in the other socket's output, at the offset of all earlier reads from its socket |
| Relay.ChunkRelayedIntact | server.py:129-135 | every chunk read during the relay reaches the other socket unmodified and in order |
| Relay.ZeroLimitStopsOnlyAfterForward | server.py:121-137 | when `timeout < tick`, so the limit is 0, only a pass that forwarded data can end the relay by the idle check; quiet passes never do |
| RemoteProxy.OriginForm | server.py:102-105 | the definition of `urlunparse(('', '', path, params, query, ''))`: path, then `;params` and `?query` when present. `OriginFormRoundTrip` states what it keeps |
| RemoteProxy.RequestLine | server.py:102-106 | the definition of the forwarded request line `"<command> <target> <version>"`. `RequestLineRoundTrip` states that it splits back |
| RemoteProxy.HeadWrites | server.py:102-111 | the definition of `do_GET`'s sends to the target: the request line, one send per rewritten header item, the blank line. `SendHead` is proved equal to it; `HeadWritesData` states what they put on the target |
| RemoteProxy.ForwardedHead | server.py:102-111 | the definition of the bytes those sends carry together. `ForwardedHeadReadsBack` states that they read back |
| RemoteProxy.Dial | server.py:67-75 | the definition of the shared connect step inside the handlers' `try`/`finally`: a parse or connect error is the 404 with its text, and the target socket is closed in every case. `DialOutcomes` states its properties |
| RemoteProxy.ThenRelay | server.py:80-89 | the definition of what follows a good connect: the writes, then the relay, with the exception of a raising write or of the relay answered by a 404. `ThenRelayOutcomes` states its properties |
| RemoteProxy.Answer | server.py:80-82 | the definition of `do_CONNECT`'s three answer writes, from `send_response` to `end_headers` |
| RemoteProxy.Tunnelled | server.py:80-85 | the definition of the tunnel after a good connect: the answer writes, then the relay. `TunnelledOutcomes` states its properties |
| RemoteProxy.DoConnect | server.py:78-89 | the definition of `do_CONNECT`'s session. `TunnelOutcomes` and `ConnectCodes` state its properties |
| RemoteProxy.DoGet | server.py:92-116 | the definition of `do_GET`'s session. `BadUrlRejected`, `ForwardOutcomes`, `ForwardSendsHead` and `GetCodes` state its properties |
| RemoteProxy.Respond | server.py:42-48 | the definition of the dispatch on the verb table, with the 501 for a verb the class does not have. `DispatchTable` and `HandlerCodes` state its properties |
| RemoteProxy.Rejection | server.py:56-58 | the definition of the answer to a peer outside the white list: the 403 and the note |
| RemoteProxy.Handle | server.py:52-60 | the definition of the screening `handle`. `AdmissionGate` states its properties |
| RemoteProxy.Serve | server.py:52-64 | the definition of a connection with every connection screened, closed by `finish`. `AdmissionGate` states its properties |
| RemoteProxy.SplitHostPort | server.py:67-72 | no `:` gives the whole text and port 80; otherwise the host is everything before the first `:` and the port is `int()` of the rest; a suffix `int()` rejects gives its `ValueError` text (NUL handling, the skipped leading whitespace, the 200-byte cap and `repr` as in `Wire.IntError`) |
| RemoteProxy.SplitHostPortRoundTrip | server.py:67-72 | `host:port` written the usual way splits back into the same host and port |
| RemoteProxy.SplitParamsJoined | server.py:92-93 | params joined to a path `urlparse` could return split off again at the first `;` after the last `/` |
| RemoteProxy.OriginFormRoundTrip | server.py:103-105 | the rewritten request target keeps exactly path, params and query and drops scheme, host and fragment: splitting it as an origin-form receiver does (query at the first `?`, then `urlparse`'s params rule) gives the three back, when each `;` of the path is followed by a later `/` and params and query hold no `?` (params no `/` either) |
| RemoteProxy.RequestLineRoundTrip | server.py:102-106 | the request line `"<command> <target> <version>"` splits back into its three parts |
| RemoteProxy.RewriteHeaders | server.py:107-108 | after the rewrite `connection` is `close` and `proxy-connection` is absent, whether or not it was present; every other header is kept unchanged and nothing else is added |
| RemoteProxy.RewriteIdempotent | server.py:107-108 | rewriting the rewritten headers again changes nothing |
| RemoteProxy.Items | server.py:109 | every item sent is a header of the rewritten map with its value |
| RemoteProxy.ItemsMap | server.py:109-110 | the items sent rebuild exactly the headers whose names the iteration order lists |
| RemoteProxy.SendItems | server.py:109-110 | one send per header item, in order, each the item's `"k: v\r\n"` line; the loop stops after the send that raises and reports its text, and otherwise makes every send |
| RemoteProxy.SendHead | server.py:102-111 | the sends are the request line, one per rewritten header item and the blank line, in order, cut after the one that raises, with its text; when none raises they put exactly the forwarded head on the target socket |
| RemoteProxy.Writes | server.py:79-116 | the writes made are a prefix of those attempted; an exception is reported iff the raising write was among them, and then the prefix ends with it |
| RemoteProxy.HeadWritesData | server.py:102-111 | the sends of `do_GET` together put exactly the forwarded head on the target |
| RemoteProxy.TargetDataPrefix | server.py:102-111 | any prefix of the sends puts a prefix of what all of them put |
| RemoteProxy.ThenRelayOutcomes | server.py:80-89 | after a good connect no connection is opened and only 404 is answered, iff a write or the relay raised; with no raise, the writes then the relay; with write `k` raising, the writes up to `k` then the 404 with its text |
| RemoteProxy.ForwardedHeadReadsBack | server.py:102-111 | when the iteration order lists each rewritten header name once, what the target receives reads back as the original command, the stripped target and the version. The headers are exactly the rewritten map. The blank line follows and nothing else |
| RemoteProxy.ProxyHandlerClass.Setup | server.py:42-49 | after `setup` the class binds PUT, POST, HEAD, DELETE and OPTIONS to the handler of GET, and the overriding `setup` is gone |
| RemoteProxy.ProxyHandlerClass.Session | server.py:52-64 | a connection is screened only while the overriding `handle` is still in the class; after the first connection every peer is dispatched unscreened; the connection is closed last |
| RemoteProxy.VerbsBound | server.py:43-48 | GET and its five aliases are bound to the forward handler, CONNECT to the tunnel, and no other verb is bound |
| RemoteProxy.DispatchTable | server.py:43-48 | the five aliases behave exactly as GET, CONNECT runs the tunnel, and any other verb gets `501` with the message `Unsupported method (<repr of the verb>)` |
| RemoteProxy.DialOutcomes | server.py:98-116 | the target socket is closed last. A connect is attempted iff the target parsed. A 404 is sent iff parsing or the connect failed or what followed sent one. A target that does not parse gives exactly the 404 with the parse error's text and the close; a failed connect gives the connect, the 404 with the connection error's text and the close. After a good connect, what follows comes whole and in order |
| RemoteProxy.DialAnswers | server.py:113-114 | the connect step adds no error code other than 404 |
| RemoteProxy.DialThenRelay | server.py:80-116 | the connect step followed by writes and the relay closes the target last, connects iff the target parsed, and answers 404 iff parsing, the connect, a write or the relay failed |
| RemoteProxy.TunnelledOutcomes | server.py:82-87 | after a good CONNECT no further connection is opened; the only error is a 404, sent iff one of the three answer writes or the relay raised |
| RemoteProxy.ProxiedOutcomes | server.py:102-114 | after a good connect in `do_GET` no further connection is opened; the only error is a 404, sent iff one of the sends of the head or the relay raised |
| RemoteProxy.ConnectCodes | server.py:78-89 | `do_CONNECT` answers errors only with 404 |
| RemoteProxy.GetCodes | server.py:92-116 | `do_GET` answers errors only with 400 or 404 |
| RemoteProxy.HandlerCodes | server.py:78-116 | the dispatched handlers send only 400, 404 and 501, never 403 |
| RemoteProxy.AdmissionGate | server.py:56-60 | a connection is admitted iff the white list is empty or holds the address exactly. A rejected peer gets only the 403 and the note before the close, and no target is contacted. An admitted one is dispatched |
| RemoteProxy.BadUrlRejected | server.py:95-98 | a URL that is not `http`, has a fragment or has no host gets `400 bad url <path>` and nothing else: no target socket exists; any other URL is not answered that way |
| RemoteProxy.TunnelShape | server.py:80-89 | for any target, write failure and relay outcome the tunnel closes the target last. It connects iff the target parsed. It answers 404 iff parsing, connect, an answer write or the relay failed. After a good connect with no raising write it sends the 200, the Proxy-agent header, end of headers and the relay, in that order; when answer write `k` raises, the answer up to `k`, then the 404 with its text and the close; a target that does not parse gives only the 404 with its error text and the close, and a failed connect the connect, the 404 with the connection error's text and the close |
| RemoteProxy.TunnelOutcomes | server.py:78-89 | `do_CONNECT` sends `200 Connection established` with `Proxy-agent: SimpleAnonymizer 1.0` after a good connect, then relays with limit 300 / 3 = 100 idle passes. Any failure, including a raising answer write, is a 404, and the target socket is closed in every case. A bad `host:port` gives only the 404 carrying `int()`'s `ValueError` text and the close; a failed connect gives the connect, the 404 carrying the connection error and the close |
| RemoteProxy.ForwardOutcomes | server.py:98-116 | `do_GET` on a good URL closes the target last. It connects iff the host parses. It answers 404 iff the port does not parse, the connect fails, a send of the head raises or the relay (limit 60 / 3 = 20) raises. A bad port gives only the 404 carrying `int()`'s `ValueError` text and the close; a failed connect gives the connect, the 404 carrying the connection error and the close |
| RemoteProxy.ForwardSendsHead | server.py:100-116 | after a good connect with no raising send, the sends of the head, the relay with limit 20, the relay's 404 if it raised and the close, and the target receives exactly the forwarded head; when a send raises, the target receives a prefix of the head and the session ends with the 404 carrying its text and the close |
| RemoteProxy.TunnelDials | server.py:67-75 | a CONNECT to a host without a port dials that host on port 80 |
| RemoteProxy.SecondPeerBypassesWhiteList | server.py:52-60 | in one process, a peer outside a non-empty white list goes through the 403 path on its first connection and no target is contacted; on its second it is served, with no 403 and its target dialled |
| LocalProxy.ErrorResponse | client.py:73-81 | the definition of what `_send_error(info)` sends: the fixed head, the info and CRLF. `ErrorHeadLayout` and `ErrorResponseReadsBack` state its properties |
| LocalProxy.ErrorPage | client.py:62-65 | the definition of the error page for exception text `e`. `ErrorPageReadsBack` states its properties |
| LocalProxy.Dialled | client.py:85-93 | the definition of `_connect_remote`: the wrap unless TLS is off, then the connect, and the exception raised, if any. `ConnectRemote` is proved to follow it; `WrapBeforeConnect` states its properties |
| LocalProxy.Failure | client.py:56-65 | the definition of the exception that reaches `handle`'s `except`: from the wrap, the connect or the relay, whichever comes first. `FailureReported` states its properties |
| LocalProxy.Handled | client.py:49-65 | the definition of `handle`'s effects. `LocalProxyHandler.Handle` is proved to follow it; `AdmissionGate`, `WrapBeforeConnect`, `FailureReported` and `ConnectedRelays` state its properties through `Session` |
| LocalProxy.Session | client.py:43-70 | the definition of a whole connection: `handle`, then `finish`. `Serve` is proved equal to it; `FinishCloses` and `SendFailureSwallowed` state its properties |
| LocalProxy.LocalProxyHandler.constructor | client.py:43-46 | `setup` copies the remote address from the configuration and creates a plain, unconnected remote socket |
| LocalProxy.LocalProxyHandler.SendError | client.py:73-81 | `_send_error` makes exactly one send of the fixed head, the info and CRLF; a failed send changes nothing else |
| LocalProxy.LocalProxyHandler.ConnectRemote | client.py:85-93 | wrap for TLS unless switched off, then connect to the configured address. A wrap failure stops before the connect. The socket is TLS iff the wrap happened, and it is connected iff nothing raised |
| LocalProxy.LocalProxyHandler.Handle | client.py:49-65 | the handler's log grows by exactly the specification `Handled`; afterwards the remote socket is TLS iff the peer was admitted, TLS is on and the wrap succeeded, and connected iff the peer was admitted and `_connect_remote` raised nothing; neither socket is closed by it |
| LocalProxy.LocalProxyHandler.Finish | client.py:68-70 | `finish` closes the remote socket, then the client socket |
| LocalProxy.Serve | client.py:43-70 | setup, handle and finish together produce exactly the specification `Session` |
| LocalProxy.AdmissionGate | client.py:51-54 | a peer is answered with the rejection notice iff it is not on the white list, so an empty list rejects everyone; a rejected peer's session is that notice and the two closes, with no TLS wrap and no connect |
| LocalProxy.WrapBeforeConnect | client.py:85-93 | the remote socket is wrapped iff TLS is on, and the wrap comes first. The connect is attempted unless the wrap failed, and it goes to the configured remote hop |
| LocalProxy.ShippedAdmitsLoopback | client.py:28-31 | with the shipped configuration a peer other than `127.0.0.1` gets only the rejection notice and the closes; loopback gets the TLS wrap first and then a connect to `129.79.247.5:50000` |
| LocalProxy.FinishCloses | client.py:68-70 | whatever happened, the session ends with closing the remote and then the client socket, and neither is closed earlier |
| LocalProxy.FailureReported | client.py:56-65 | an exception from the wrap, the connect or the relay is answered with the error page carrying its text, the last thing before `finish`; without one, an admitted client is sent nothing by the handler |
| LocalProxy.ConnectedRelays | client.py:96-97 | after a good connect the relay runs with limit 180 / 3 = 60 idle passes |
| LocalProxy.SilentClientTimesOut | client.py:96-116 | sixty quiet passes after a good connect end the relay by idle timeout with nothing sent either way |
| LocalProxy.SendFailureSwallowed | client.py:78-81 | whether or not sends to the client fail, the session does the same things in the same order; only the delivery marks differ |
| LocalProxy.ErrorPageReadsBack | client.py:63-65 | the error page is the fixed prefix, the exception text and the fixed suffix, so the text can be read back |
| LocalProxy.ErrorHeadLayout | client.py:74-77 | the fixed head is the status line `HTTP/1.1 500 Remote Proxy Error`, the `Cache-Control`, `Connection` and `Content-Type` lines and the blank line |
| LocalProxy.ErrorResponseReadsBack | client.py:73-79 | an error response reads back as status `HTTP/1.1 500 Remote Proxy Error`, the three fixed headers in order, and a body of the info plus CRLF |

## Left out

- Sockets, `select`, `recv`, `send`, `ssl.wrap_socket` and `connect` are not modelled as real I/O. What they return, including the text of any exception (`str(e)`), is an input: the poll trace and the `Env` values. A send is a full write appended to the output. Short writes are not modelled.
- `recv(buflen)` with `buflen = 8192`: the bound on a chunk's size lies in the input trace, not in a constraint of the model.
- `ThreadingTCPServer`, daemon threads, `serve_forever` and the listener's TLS setup are left out, because they are concurrency and process lifecycle. Sessions of one process are modelled one after another through the one class object.
- `argparse`, `main`, `print` and `log_request` are left out: they are bootstrap and logging only.
- `urlparse.urlparse` is not modelled: its six-tuple is an input. `urlunparse` of path, params and query is the concatenation rule `path[;params][?query]`.
- `BaseHTTPRequestHandler` internals are not modelled: parsing the request line and headers, the HTML body of `send_error`, and the bytes of `send_response`/`send_header`. Each is one effect. The 501 for an unknown verb is the `send_error` attempt with its message, `Unsupported method (` then the `repr` of the verb then `)`; the HTML page built from that message is not modelled.
- The order of `headers.items()` is an input (`Env.headerOrder`), because it is the order of a Python dict.
- Only one request per connection is modelled. The server speaks HTTP/1.0, so the base `handle` serves a single request.
- The writes before the relay (`send_response`, `send_header`, `end_headers` in `do_CONNECT`; each `target.send` of the head in `do_GET`) may raise: `Env.writeError` says which one and with what text. Whether a raising write delivered some of its bytes is not modelled: the effect is the attempt.
- `send_error` is recorded as an attempt. If it raises itself, the exception leaves the handler. The model's effect log does not change for that, and what follows the raise in the source (the `finally` close, `finish`) is still recorded.
- Creating the target socket (`socket.socket`) is assumed to succeed.
- `Wire.ParseInt`: `int()` gives a Python `long` for large values, and the model's integers are unbounded, so the two agree. The split accepts a port outside 0 to 65535; the error raised for it at `connect` is an input.
- Wire.ParseInt: a sign followed by whitespace and then a magnitude above `sys.maxint` is accepted by the model, but Python 2's fallback to `long` does not skip that whitespace and raises, with a message naming `long()`. Ports that large fail at `connect` either way.
- `Wire.Repr`: a character above `0xff` is not a byte; the model writes its `\xhh` escape from its value modulo 256.
- SecondPeerBypassesWhiteList: the first connection's rejection is modelled as `send_error(403)` and the note. Python 2.7's `send_error` logs through `log_request`, which reads `requestline`, and that is only set once the request has been parsed. The overriding `handle` calls it before parsing, so as written the first rejected peer most likely receives nothing before `finish` closes the connection. Either way no target is contacted on the first connection, and the bypass on the second is unaffected.
- RemoteProxy.AdmissionGate: the rejection sends `403` and the note, as the intended screening would; the as-written exception from an unparsed request is not modelled (see the line above).
- The TLS certificate and key paths, and the certificate checks, are left out: they belong to the TLS library.

## Findings

| source | as written | input that shows it | evidently intended | confidence | as-written member | corrected member |
|---|---|---|---|---|---|---|
| server.py:52-60 | the overriding `handle` replaces itself in the class with the base `handle` (line 53) before testing the white list, so only the first connection the process serves is screened | a process whose white list is non-empty; a peer outside it connects twice with `CONNECT host`: the first goes through the 403 path (see "Left out") and contacts no target, the second is served | every connection is screened: a peer outside a non-empty list is always rejected and no target is contacted | not executed | RemoteProxy.SecondPeerBypassesWhiteList | RemoteProxy.AdmissionGate |

In the shipped configuration the remote hop's white list is empty, so every
peer is admitted anyway and the defect is latent. `RemoteProxy.Serve` is the
corrected session, with every connection screened. `RemoteProxy.AdmissionGate`
proves the intended admission property about it.
