/** The remote hop (server.py): an HTTP request handler that screens the
    peer against a white list, then either opens a CONNECT tunnel or forwards
    a plain HTTP request after rewriting its request line and headers, and in
    both cases relays bytes until the relay loop stops.

    A session is modelled by the effects it has on its two sockets, in order.
    What the sockets, `urlparse` and the header parser return comes in as
    inputs: the parsed request and an environment value (`Env`). */
module RemoteProxy {

  import opened Wire
  import opened Relay

  const Version := "1.0"

  /** `Config.timeout`, read when `_read_write` is defined: its default timeout. */
  const DefaultTimeout: nat := 60

  /** The timeout `do_CONNECT` relays with. */
  const TunnelTimeout: nat := 300

  /** The default `tick` of `_read_write`, in seconds. */
  const Tick: nat := 3

  /** The port `_connect_target` uses when the target names none. */
  const DefaultPort := 80

  // ---------------------------------------------------------------------
  // Admission

  /** The test in `handle`: rejected when the white list is non-empty and
      does not hold the peer's address. */
  predicate Admitted(whiteList: set<string>, ip: string)
  {
    !(|whiteList| > 0 && ip !in whiteList)
  }

  // ---------------------------------------------------------------------
  // Targets: `host[:port]`

  datatype Target = Target(host: string, port: int)

  /** `_connect_target`'s split: at the first `:`, with int() of the rest as
      the port, or the whole text and port 80 when there is no `:`. int()'s
      ValueError is the error. */
  function SplitHostPort(s: string): (r: Result<Target, string>)
    ensures ':' !in s ==> r == Ok(Target(s, DefaultPort))
    ensures r.Ok? ==> ':' !in r.value.host
    ensures r.Ok? && ':' in s ==>
      var h := r.value.host;
      |h| < |s| && s[..|h|] == h && s[|h|] == ':' && ParseInt(s[|h| + 1..]) == Some(r.value.port)
    ensures r.Err? ==> ':' in s && var i := Find(s, ':');
      ParseInt(s[i + 1..]).None? && r.error == IntError(s[i + 1..])
  {
    var i := Find(s, ':');
    if i > -1 then
      assert s == s[..i] + ":" + s[i + 1..];
      match ParseInt(s[i + 1..])
      case Some(port) => Ok(Target(s[..i], port))
      case None => Err(IntError(s[i + 1..]))
    else Ok(Target(s, DefaultPort))
  }

  /** Writing a host and a port the usual way and splitting it gives them back. */
  lemma SplitHostPortRoundTrip(host: string, port: nat)
    requires ':' !in host
    ensures SplitHostPort(host + ":" + Decimal(port)) == Ok(Target(host, port))
  {
    var s := host + ":" + Decimal(port);
    assert s == host + [':'] + Decimal(port);
    FindAtJoin(host, ':', Decimal(port));
    assert s[|host| + 1..] == Decimal(port);
    assert s[..|host|] == host;
    ParseDecimal(port);
  }

  // ---------------------------------------------------------------------
  // Request targets and the forwarded request line

  /** The six parts `urlparse.urlparse(path, 'http')` splits a target into. */
  datatype Url = Url(scheme: string, netloc: string, path: string, params: string, query: string, fragment: string)

  /** `do_GET` forwards only `http` URLs that name a host and carry no fragment. */
  predicate Forwardable(u: Url)
  {
    !(u.scheme != "http" || u.fragment != "" || u.netloc == "")
  }

  /** `urlunparse(('', '', path, params, query, ''))`: the target without
      scheme, host and fragment. */
  function OriginForm(u: Url): string
  {
    u.path + (if u.params != "" then ";" + u.params else "") + (if u.query != "" then "?" + u.query else "")
  }

  /** Splits `t` at the first `c`; all of `t` and nothing when it has none. */
  function Cut(t: string, c: char): (string, string)
  {
    var i := Find(t, c);
    if i < 0 then (t, "") else (t[..i], t[i + 1..])
  }

  /** `urlparse`'s split of the params off a path: at the first `;` after
      the last `/`, or at the first `;` when there is no `/`. */
  function SplitParams(t: string): (string, string)
  {
    if '/' in t then SplitAfter(t, RFind(t, '/')) else Cut(t, ';')
  }

  /** Splits `t` at the first `;` from index `r` on. */
  function SplitAfter(t: string, r: nat): (string, string)
    requires r <= |t|
  {
    var j := Find(t[r..], ';');
    if j < 0 then (t, "") else (t[..r + j], t[r + j + 1..])
  }

  /** Splits an origin-form target back into path, params and query, as
      `urlparse` does: the query at the first `?`, then the params. */
  function SplitOriginForm(t: string): (string, string, string)
  {
    var (left, query) := Cut(t, '?');
    var (path, params) := SplitParams(left);
    (path, params, query)
  }

  /** A path `urlparse` can return: every `;` in it has a `/` after it. */
  predicate ParamFree(path: string)
  {
    forall i :: 0 <= i < |path| && path[i] == ';' ==> '/' in path[i + 1..]
  }

  /** Joining with `c` only when the second part is non-empty, then cutting
      at the first `c`, gives both parts back. */
  lemma CutJoined(a: string, c: char, b: string)
    requires c !in a
    ensures Cut(a + (if b != "" then [c] + b else ""), c) == (a, b)
  {
    var t := a + (if b != "" then [c] + b else "");
    if b != "" {
      assert t == a + [c] + b;
      FindAtJoin(a, c, b);
      assert t[..|a|] == a;
      assert t[|a| + 1..] == b;
    } else {
      assert t == a;
    }
  }

  /** Joining params to a path `urlparse` could return, then splitting them
      off again, gives both back. */
  lemma SplitParamsJoined(path: string, params: string)
    requires ParamFree(path) && '/' !in params
    ensures SplitParams(path + (if params != "" then [';'] + params else "")) == (path, params)
  {
    var tail := if params != "" then [';'] + params else "";
    assert '/' !in tail;
    if '/' in path {
      SlashedJoined(path, tail, params);
    } else {
      NoSeparator(path);
      assert '/' !in path + tail;
      CutJoined(path, ';', params);
    }
  }

  lemma SlashedJoined(path: string, tail: string, params: string)
    requires ParamFree(path) && '/' in path && '/' !in params
    requires tail == if params != "" then [';'] + params else ""
    ensures SplitParams(path + tail) == (path, params)
  {
    var r := RFind(path, '/');
    assert RFind(path + tail, '/') == r by {
      assert '/' !in tail;
      RFindBefore(path, '/', tail);
    }
    assert ';' !in path[r..] by {
      LastSegment(path);
    }
    if params != "" {
      var t := path + [';'] + params;
      var k := |path|;
      assert t == path + tail;
      assert t[r] == '/' && t[k] == ';' && t[r..k] == path[r..] && t[..k] == path && t[k + 1..] == params;
      ParamsAfterSlash(t, r, k);
    } else {
      assert path + tail == path;
      assert Find(path[r..], ';') == -1;
    }
  }

  /** The first `;` from `r` on is found at its offset from `r`. */
  lemma ParamsAfterSlash(t: string, r: nat, k: nat)
    requires r < k < |t| && t[k] == ';' && ';' !in t[r..k]
    ensures SplitAfter(t, r) == (t[..k], t[k + 1..])
  {
    assert t[r..][..k - r] == t[r..k];
    FindIs(t[r..], ';', k - r);
  }

  /** A `c` with none before it is the one `find` returns. */
  lemma FindIs(s: string, c: char, i: nat)
    requires i < |s| && s[i] == c && c !in s[..i]
    ensures Find(s, c) == i
  {
  }

  /** No `;` follows the last `/` of such a path. */
  lemma LastSegment(path: string)
    requires ParamFree(path) && '/' in path
    ensures ';' !in path[RFind(path, '/')..]
  {
    var r := RFind(path, '/');
    forall i | r <= i < |path| ensures path[i] != ';' {
    }
  }

  /** Such a path without a `/` has no `;`. */
  lemma NoSeparator(path: string)
    requires ParamFree(path) && '/' !in path
    ensures ';' !in path
  {
  }

  /** The rewritten target keeps exactly path, params and query: splitting it
      gives them back whenever `urlparse` could have produced them (no `?` in
      the path or the params, no `;` after the path's last `/`, no `/` in the
      params). */
  lemma OriginFormRoundTrip(u: Url)
    requires ParamFree(u.path) && '?' !in u.path && '?' !in u.params && '/' !in u.params
    ensures SplitOriginForm(OriginForm(u)) == (u.path, u.params, u.query)
  {
    var left := u.path + (if u.params != "" then [';'] + u.params else "");
    assert '?' !in left;
    assert OriginForm(u) == left + (if u.query != "" then ['?'] + u.query else "");
    CutJoined(left, '?', u.query);
    SplitParamsJoined(u.path, u.params);
  }

  /** The request line sent to the target, without its CRLF. */
  function RequestLine(command: string, u: Url, version: string): string
  {
    command + " " + OriginForm(u) + " " + version
  }

  /** Splits a request line at its first two spaces. */
  function SplitRequestLine(line: string): Option<(string, string, string)>
  {
    var i := Find(line, ' ');
    if i < 0 then None
    else
      var rest := line[i + 1..];
      var j := Find(rest, ' ');
      if j < 0 then None else Some((line[..i], rest[..j], rest[j + 1..]))
  }

  lemma RequestLineRoundTrip(command: string, target: string, version: string)
    requires ' ' !in command && ' ' !in target
    ensures SplitRequestLine(command + " " + target + " " + version) == Some((command, target, version))
  {
    var line := command + " " + target + " " + version;
    var rest := target + " " + version;
    assert line == command + [' '] + rest;
    FindAtJoin(command, ' ', rest);
    assert line[..|command|] == command;
    assert line[|command| + 1..] == rest;
    assert rest == target + [' '] + version;
    FindAtJoin(target, ' ', version);
    assert rest[..|target|] == target;
    assert rest[|target| + 1..] == version;
  }

  // ---------------------------------------------------------------------
  // Headers

  /** The request headers, keyed by lower-cased name as the header parser
      stores them. */
  type Headers = map<string, string>

  /** `self.headers['Connection'] = 'close'` then
      `del self.headers['Proxy-Connection']` (a no-op when absent). */
  function RewriteHeaders(h: Headers): (r: Headers)
    ensures "connection" in r && r["connection"] == "close"
    ensures "proxy-connection" !in r
    ensures forall k :: k in h && k != "connection" && k != "proxy-connection" ==> k in r && r[k] == h[k]
    ensures forall k :: k in r ==> k in h || k == "connection"
  {
    h["connection" := "close"] - {"proxy-connection"}
  }

  /** Rewriting an already rewritten header map changes nothing. */
  lemma RewriteIdempotent(h: Headers)
    ensures RewriteHeaders(RewriteHeaders(h)) == RewriteHeaders(h)
  {
    var r := RewriteHeaders(h);
    var rr := RewriteHeaders(r);
    assert rr.Keys == r.Keys;
  }

  /** The header items in the order `headers.items()` yields their names. */
  function Items(h: Headers, order: seq<string>): (items: seq<(string, string)>)
    ensures forall i :: 0 <= i < |items| ==> items[i].0 in h && items[i].1 == h[items[i].0]
  {
    if order == [] then []
    else (if order[0] in h then [(order[0], h[order[0]])] else []) + Items(h, order[1..])
  }

  /** The map a receiver builds from header items. */
  function ToMap(items: seq<(string, string)>): map<string, string>
  {
    if items == [] then map[] else ToMap(items[1..])[items[0].0 := items[0].1]
  }

  /** `order` lists every header name once, as `dict.items()` does. */
  predicate Enumerates(order: seq<string>, names: set<string>)
  {
    && (forall k :: k in names ==> k in order)
    && (forall i :: 0 <= i < |order| ==> order[i] in names)
    && (forall i, j :: 0 <= i < j < |order| ==> order[i] != order[j])
  }

  lemma {:induction false} ItemsMap(h: Headers, order: seq<string>)
    ensures ToMap(Items(h, order)) == map k | k in h && k in order :: h[k]
  {
    if order != [] {
      ItemsMap(h, order[1..]);
      var tail := map k | k in h && k in order[1..] :: h[k];
      RestrictStep(h, order);
      if order[0] in h {
        assert Items(h, order) == [(order[0], h[order[0]])] + Items(h, order[1..]);
        assert ToMap(Items(h, order)) == tail[order[0] := h[order[0]]];
      } else {
        assert Items(h, order) == Items(h, order[1..]);
      }
    }
  }

  /** `h` restricted to `order` grows by the first name of `order`. */
  lemma RestrictStep(h: Headers, order: seq<string>)
    requires order != []
    ensures var tail := map k | k in h && k in order[1..] :: h[k];
      (map k | k in h && k in order :: h[k]) == if order[0] in h then tail[order[0] := h[order[0]]] else tail
  {
  }

  /** The header block sent to the target. */
  function HeaderBlock(h: Headers, order: seq<string>): string
  {
    FormatHeaders(Items(RewriteHeaders(h), order)) + "\r\n"
  }

  // ---------------------------------------------------------------------
  // The request as parsed by the HTTP server, and the session's world

  /** What `BaseHTTPRequestHandler` parsed from the request (`command`,
      `path`, `request_version`, `headers`) and `urlparse(path, 'http')`. */
  datatype Request = Request(command: string, path: string, version: string, headers: Headers, url: Url)

  /** What the sockets do: the text of the error `target.connect` raises
      (None when it connects); which write before the relay raises, counted
      from 0, with the exception's text (in `do_CONNECT` the status line, the
      header and the end of the headers; in `do_GET` the request line, each
      header line and the blank line; None, or a count past the last write,
      when none raises); the order `headers.items()` yields; and what the
      relay loop sees. */
  datatype Env = Env(connectError: Option<string>, writeError: Option<(nat, string)>, headerOrder: seq<string>, trace: seq<Poll>)

  /** Everything a session does to its sockets. Each effect is an attempt,
      made whether or not it succeeds. */
  datatype Effect =
    | SendError(code: nat, message: Option<string>)   // send_error; None: the standard reason
    | SendResponse(code: nat, reason: string)          // send_response
    | SendHeader(name: string, value: string)          // send_header
    | EndHeaders                                       // end_headers
    | WriteClient(data: string)                        // wfile.write
    | Connect(host: string, port: int)                 // target.connect
    | SendTarget(data: string)                         // target.send
    | Relayed(outcome: Outcome)                        // _read_write
    | CloseTarget                                      // target.close
    | CloseConnection                                  // finish: connection.close

  /** Some effect attempts a connection to a target. */
  predicate Opens(effects: seq<Effect>)
  {
    exists i :: 0 <= i < |effects| && effects[i].Connect?
  }

  /** Some effect is a 404 response. */
  predicate Reports404(effects: seq<Effect>)
  {
    exists i :: 0 <= i < |effects| && effects[i].SendError? && effects[i].code == 404
  }

  /** The 404 the `except` clause sends when the relay raised. */
  function RelayError(o: Outcome): seq<Effect>
  {
    if o.exit.Raised? then [SendError(404, Some(o.exit.message))] else []
  }

  /** The request line, the rewritten headers and the blank line, as
      `do_GET` sends them to the target. */
  function ForwardedHead(req: Request, order: seq<string>): string
  {
    RequestLine(req.command, req.url, req.version) + "\r\n" + HeaderBlock(req.headers, order)
  }

  /** One send to the target per header item, in order. */
  function HeaderSends(items: seq<(string, string)>): (r: seq<Effect>)
    ensures |r| == |items|
    ensures forall i :: 0 <= i < |items| ==> r[i] == SendTarget(HeaderLine(items[i].0, items[i].1))
  {
    if items == [] then [] else [SendTarget(HeaderLine(items[0].0, items[0].1))] + HeaderSends(items[1..])
  }

  /** `do_GET`'s sends to the target: the request line, one send per item
      of the rewritten headers, the blank line. */
  function HeadWrites(req: Request, order: seq<string>): seq<Effect>
  {
    [SendTarget(RequestLine(req.command, req.url, req.version) + "\r\n")]
    + HeaderSends(Items(RewriteHeaders(req.headers), order))
    + [SendTarget("\r\n")]
  }

  /** Everything the sends among `effects` put on the target socket. */
  function TargetData(effects: seq<Effect>): string
  {
    if effects == [] then ""
    else (if effects[0].SendTarget? then effects[0].data else "") + TargetData(effects[1..])
  }

  /** The writes `attempts` up to the one that raises, and the exception's
      text; all of them and no exception when none raises. */
  function Writes(attempts: seq<Effect>, w: Option<(nat, string)>): (r: (seq<Effect>, Option<string>))
    ensures r.0 <= attempts
    ensures r.1.Some? <==> w.Some? && w.value.0 < |attempts|
    ensures r.1.Some? ==> |r.0| == w.value.0 + 1 && r.1.value == w.value.1
    ensures r.1.None? ==> r.0 == attempts
  {
    if w.Some? && w.value.0 < |attempts| then (attempts[..w.value.0 + 1], Some(w.value.1)) else (attempts, None)
  }

  /** `do_GET`'s sends as it makes them: the request line, the in-place
      rewrite of the header map, one send per header item in the order
      `headers.items()` yields them, then the blank line; a send that raises
      ends the sequence. `sent` is every send attempted, in order. */
  method SendHead(req: Request, order: seq<string>, w: Option<(nat, string)>)
    returns (sent: seq<Effect>, error: Option<string>)
    ensures (sent, error) == Writes(HeadWrites(req, order), w)
    ensures error.None? ==> TargetData(sent) == ForwardedHead(req, order)
  {
    ghost var all := HeadWrites(req, order);
    var line := RequestLine(req.command, req.url, req.version) + "\r\n";
    sent := [SendTarget(line)];
    HeadWritesShape(req, order);
    Snoc(all, 0);
    if w.Some? && w.value.0 == 0 {
      WritesCut(all, w, sent);
      return sent, Some(w.value.1);
    }
    var headers := req.headers;
    headers := headers["connection" := "close"];
    headers := headers - {"proxy-connection"};
    var items := Items(headers, order);
    RewrittenInPlace(req.headers, headers);
    sent, error := SendItems(items, w, all, sent);
    if error.Some? {
      return;
    }
    Snoc(all, |items| + 1);
    sent := sent + [SendTarget("\r\n")];
    if w.Some? && w.value.0 == |items| + 1 {
      WritesCut(all, w, sent);
      return sent, Some(w.value.1);
    }
    error := None;
    WritesAll(all, w, sent);
    HeadWritesData(req, order);
  }

  /** The loop over `headers.items()`: one send per item after the first
      of `all`'s writes, stopping at the send that raises. */
  method SendItems(items: seq<(string, string)>, w: Option<(nat, string)>, ghost all: seq<Effect>, first: seq<Effect>)
    returns (sent: seq<Effect>, error: Option<string>)
    requires |all| == |items| + 2 && first == all[..1]
    requires forall i :: 0 <= i < |items| ==> all[i + 1] == SendTarget(HeaderLine(items[i].0, items[i].1))
    requires w.None? || w.value.0 > 0
    ensures error.Some? ==> (sent, error) == Writes(all, w)
    ensures error.None? ==> sent == all[..|items| + 1] && (w.None? || w.value.0 > |items|)
  {
    sent := first;
    for i := 0 to |items|
      invariant sent == all[..i + 1]
      invariant w.None? || w.value.0 > i
    {
      Snoc(all, i + 1);
      sent := sent + [SendTarget(HeaderLine(items[i].0, items[i].1))];
      if w.Some? && w.value.0 == i + 1 {
        WritesCut(all, w, sent);
        return sent, Some(w.value.1);
      }
    }
    error := None;
  }

  /** The in-place rewrite of the header map gives `RewriteHeaders`. */
  lemma RewrittenInPlace(h: Headers, headers: Headers)
    requires headers == h["connection" := "close"] - {"proxy-connection"}
    ensures headers == RewriteHeaders(h)
  {
  }

  /** The write that raises is the last one made. */
  lemma WritesCut(all: seq<Effect>, w: Option<(nat, string)>, sent: seq<Effect>)
    requires w.Some? && w.value.0 < |all| && sent == all[..w.value.0 + 1]
    ensures Writes(all, w) == (sent, Some(w.value.1))
  {
  }

  /** One more write extends the prefix of writes made by that write. */
  lemma Snoc(all: seq<Effect>, n: nat)
    requires n < |all|
    ensures all[..n + 1] == all[..n] + [all[n]]
  {
  }

  /** When no write raises, all of them are made. */
  lemma WritesAll(all: seq<Effect>, w: Option<(nat, string)>, sent: seq<Effect>)
    requires !RaisesWithin(w, |all|) && sent == all[..|all|]
    ensures Writes(all, w) == (sent, None)
  {
    assert sent == all;
  }

  /** Where each send sits among `do_GET`'s writes. */
  lemma HeadWritesShape(req: Request, order: seq<string>)
    ensures var items := Items(RewriteHeaders(req.headers), order);
      var all := HeadWrites(req, order);
      && |all| == |items| + 2
      && all[0] == SendTarget(RequestLine(req.command, req.url, req.version) + "\r\n")
      && (forall i :: 0 <= i < |items| ==> all[i + 1] == SendTarget(HeaderLine(items[i].0, items[i].1)))
      && all[|items| + 1] == SendTarget("\r\n")
  {
    var mid := HeaderSends(Items(RewriteHeaders(req.headers), order));
    Framed(SendTarget(RequestLine(req.command, req.url, req.version) + "\r\n"), mid, SendTarget("\r\n"));
  }

  /** Where each element of `[first] + mid + [last]` sits. */
  lemma Framed(first: Effect, mid: seq<Effect>, last: Effect)
    ensures var all := [first] + mid + [last];
      && |all| == |mid| + 2 && all[0] == first && all[|mid| + 1] == last
      && (forall i :: 0 <= i < |mid| ==> all[i + 1] == mid[i])
  {
  }

  /** What the sends put on the target concatenates. */
  lemma {:induction false} TargetDataAppend(a: seq<Effect>, b: seq<Effect>)
    ensures TargetData(a + b) == TargetData(a) + TargetData(b)
  {
    if a == [] {
      assert a + b == b;
    } else {
      assert (a + b)[0] == a[0] && (a + b)[1..] == a[1..] + b;
      TargetDataAppend(a[1..], b);
    }
  }

  /** The header sends put exactly the header lines on the target. */
  lemma {:induction false} HeaderSendsData(items: seq<(string, string)>)
    ensures TargetData(HeaderSends(items)) == FormatHeaders(items)
  {
    if items != [] {
      var first := [SendTarget(HeaderLine(items[0].0, items[0].1))];
      assert HeaderSends(items) == first + HeaderSends(items[1..]);
      TargetDataAppend(first, HeaderSends(items[1..]));
      HeaderSendsData(items[1..]);
    }
  }

  /** All of `do_GET`'s sends put exactly the forwarded head on the target. */
  lemma HeadWritesData(req: Request, order: seq<string>)
    ensures TargetData(HeadWrites(req, order)) == ForwardedHead(req, order)
  {
    var line := [SendTarget(RequestLine(req.command, req.url, req.version) + "\r\n")];
    var headers := HeaderSends(Items(RewriteHeaders(req.headers), order));
    var blank := [SendTarget("\r\n")];
    TargetDataAppend(line + headers, blank);
    TargetDataAppend(line, headers);
    HeaderSendsData(Items(RewriteHeaders(req.headers), order));
    assert TargetData(blank) == "\r\n";
    assert TargetData(line) == RequestLine(req.command, req.url, req.version) + "\r\n";
  }

  /** Whatever raises, the target has received a prefix of the head. */
  lemma {:induction false} TargetDataPrefix(effects: seq<Effect>, n: nat)
    requires n <= |effects|
    ensures TargetData(effects[..n]) <= TargetData(effects)
  {
    if n > 0 {
      assert effects[..n][1..] == effects[1..][..n - 1];
      TargetDataPrefix(effects[1..], n - 1);
    }
  }

  // ---------------------------------------------------------------------
  // The handlers

  /** The part both handlers share: the target socket exists, a connection
      is attempted when the target parsed; a parse or connect error becomes a
      404 with its text; `connected` is what follows a good connect; the
      target socket is closed in every case. */
  function Dial(target: Result<Target, string>, env: Env, connected: seq<Effect>): seq<Effect>
  {
    match target
    case Err(e) => [SendError(404, Some(e)), CloseTarget]
    case Ok(t) =>
      [Connect(t.host, t.port)]
      + (match env.connectError case Some(e) => [SendError(404, Some(e))] case None => connected)
      + [CloseTarget]
  }

  /** After a good connect: the writes `attempts`, then the relay with a 404
      if it raised; a write that raises skips the relay and gets the 404. */
  function ThenRelay(attempts: seq<Effect>, w: Option<(nat, string)>, o: Outcome): seq<Effect>
  {
    var (done, error) := Writes(attempts, w);
    done + match error
      case Some(e) => [SendError(404, Some(e))]
      case None => [Relayed(o)] + RelayError(o)
  }

  /** `do_CONNECT`'s answer: status 200, the Proxy-agent header, the end of
      the headers. */
  function Answer(): seq<Effect>
  {
    [SendResponse(200, "Connection established"),
     SendHeader("Proxy-agent", "SimpleAnonymizer " + Version),
     EndHeaders]
  }

  /** The tunnel after a good connect: answer 200 with a Proxy-agent header,
      then relay. */
  function Tunnelled(w: Option<(nat, string)>, o: Outcome): seq<Effect>
  {
    ThenRelay(Answer(), w, o)
  }

  /** `do_CONNECT`: connect to `path`, answer 200, relay for up to 300
      seconds of silence. */
  function DoConnect(path: string, env: Env): seq<Effect>
  {
    Dial(SplitHostPort(path), env, Tunnelled(env.writeError, Relay.Relay(env.trace, TunnelTimeout / Tick)))
  }

  /** `do_GET` (and its aliases): reject a bad URL with 400 before any socket
      exists; otherwise connect to the URL's host, send the rewritten request
      line and headers, relay with the default timeout. */
  function DoGet(req: Request, env: Env): seq<Effect>
  {
    if !Forwardable(req.url) then [SendError(400, Some("bad url " + req.path))]
    else Dial(SplitHostPort(req.url.netloc), env,
              ThenRelay(HeadWrites(req, env.headerOrder), env.writeError, Relay.Relay(env.trace, DefaultTimeout / Tick)))
  }

  /** The two handler bodies a verb can be bound to. */
  datatype Handler = Forward | Tunnel

  /** The class's `do_<VERB>` attributes as written in the class body. */
  function BaseVerbs(): map<string, Handler>
  {
    map["GET" := Forward, "CONNECT" := Tunnel]
  }

  /** The verbs `setup` binds to `do_GET`. */
  const Aliases: seq<string> := ["PUT", "POST", "HEAD", "DELETE", "OPTIONS"]

  /** The dispatch table once `setup` has run. */
  function Verbs(): map<string, Handler>
  {
    BaseVerbs() + map a | a in Aliases :: BaseVerbs()["GET"]
  }

  /** The table `setup` leaves, one alias at a time. */
  lemma VerbsInOrder()
    ensures Verbs() == BaseVerbs()["PUT" := Forward]["POST" := Forward]["HEAD" := Forward]["DELETE" := Forward]["OPTIONS" := Forward]
  {
  }

  /** `handle_one_request`'s dispatch: `do_<command>` if the class has it,
      else 501. */
  function Respond(verbs: map<string, Handler>, req: Request, env: Env): seq<Effect>
  {
    if req.command in verbs then
      match verbs[req.command]
      case Forward => DoGet(req, env)
      case Tunnel => DoConnect(req.path, env)
    else [SendError(501, Some("Unsupported method (" + Repr(req.command) + ")"))]
  }

  /** The answer to a peer outside the white list. */
  function Rejection(ip: string): seq<Effect>
  {
    [SendError(403, None), WriteClient("Your ip [" + ip + "] is not in white list")]
  }

  /** The screening `handle`: rejected peers get a 403 and a note, the
      others are dispatched. */
  function Handle(whiteList: set<string>, ip: string, req: Request, env: Env): seq<Effect>
  {
    if Admitted(whiteList, ip) then Respond(Verbs(), req, env) else Rejection(ip)
  }

  /** One connection with every connection screened: `handle`, then
      `finish`, which closes the connection. */
  function Serve(whiteList: set<string>, ip: string, req: Request, env: Env): seq<Effect>
  {
    Handle(whiteList, ip, req, env) + [CloseConnection]
  }

  // ---------------------------------------------------------------------
  // The class object, whose attributes `setup` and `handle` overwrite

  /** The mutable state of the `ProxyHandler` class: whether `setup` and
      `handle` are still the overriding versions, and its `do_<VERB>`
      attributes. Every connection gets a new handler instance of this one
      class. */
  class ProxyHandlerClass {
    var setupOverridden: bool
    var handleOverridden: bool
    var verbs: map<string, Handler>

    ghost predicate Valid()
      reads this
    {
      verbs == if setupOverridden then BaseVerbs() else Verbs()
    }

    constructor ()
      ensures Valid() && setupOverridden && handleOverridden
    {
      setupOverridden, handleOverridden := true, true;
      verbs := BaseVerbs();
    }

    /** `setup`: on its first run it puts the base `setup` back in the class
        and binds PUT, POST, HEAD, DELETE and OPTIONS to `do_GET`; every run
        then does the base setup (opening the socket files, not modelled). */
    method Setup()
      requires Valid()
      modifies this
      ensures Valid() && !setupOverridden && handleOverridden == old(handleOverridden)
      ensures verbs == Verbs()
    {
      if setupOverridden {
        setupOverridden := false;
        verbs := verbs["PUT" := verbs["GET"]];
        verbs := verbs["POST" := verbs["GET"]];
        verbs := verbs["HEAD" := verbs["GET"]];
        verbs := verbs["DELETE" := verbs["GET"]];
        verbs := verbs["OPTIONS" := verbs["GET"]];
        VerbsInOrder();
      }
    }

    /** One connection as the source runs it: setup, handle, finish. The
        overriding `handle` puts the base `handle` back in the class before
        it tests the white list, so only the first connection the process
        serves is screened. */
    method Session(whiteList: set<string>, ip: string, req: Request, env: Env) returns (effects: seq<Effect>)
      requires Valid()
      modifies this
      ensures Valid() && !setupOverridden && !handleOverridden
      ensures effects == (if old(handleOverridden) then Handle(whiteList, ip, req, env) else Respond(Verbs(), req, env)) + [CloseConnection]
    {
      Setup();
      if handleOverridden {
        handleOverridden := false;
        if Admitted(whiteList, ip) {
          effects := Respond(verbs, req, env);
        } else {
          effects := Rejection(ip);
        }
      } else {
        effects := Respond(verbs, req, env);
      }
      effects := effects + [CloseConnection];
    }
  }

  // ---------------------------------------------------------------------
  // What the hop promises

  /** The codes of every error response among `effects` lie in `codes`. */
  predicate Answers(effects: seq<Effect>, codes: set<nat>)
  {
    forall i :: 0 <= i < |effects| && effects[i].SendError? ==> effects[i].code in codes
  }

  /** After setup, GET and its five aliases are bound to the forward
      handler, CONNECT to the tunnel, and no other verb is bound. */
  lemma VerbsBound(c: string)
    ensures c in {"GET", "PUT", "POST", "HEAD", "DELETE", "OPTIONS"} ==> c in Verbs() && Verbs()[c] == Forward
    ensures c == "CONNECT" ==> c in Verbs() && Verbs()[c] == Tunnel
    ensures c !in {"GET", "PUT", "POST", "HEAD", "DELETE", "OPTIONS", "CONNECT"} ==> c !in Verbs()
  {
  }

  /** PUT, POST, HEAD, DELETE and OPTIONS are handled exactly as GET,
      CONNECT by its own handler, and every other verb gets a 501. */
  lemma DispatchTable(req: Request, env: Env)
    ensures req.command in {"GET", "PUT", "POST", "HEAD", "DELETE", "OPTIONS"} ==> Respond(Verbs(), req, env) == DoGet(req, env)
    ensures req.command == "CONNECT" ==> Respond(Verbs(), req, env) == DoConnect(req.path, env)
    ensures req.command !in {"GET", "PUT", "POST", "HEAD", "DELETE", "OPTIONS", "CONNECT"} ==>
      Respond(Verbs(), req, env) == [SendError(501, Some("Unsupported method (" + Repr(req.command) + ")"))]
  {
    VerbsBound(req.command);
  }

  /** The shared connect step: the target socket is closed last; a connection
      is attempted iff the target parsed (when what follows opens none); a
      404 is sent iff the target does not parse, the connect fails or what
      follows a good connect sends one; after a good connect `connected`
      comes, whole and in order; no other error code is added. */
  lemma DialOutcomes(target: Result<Target, string>, env: Env, connected: seq<Effect>)
    ensures var e := Dial(target, env, connected); |e| >= 2 && e[|e| - 1] == CloseTarget
    ensures !Opens(connected) ==> (Opens(Dial(target, env, connected)) <==> target.Ok?)
    ensures Reports404(Dial(target, env, connected)) <==>
      target.Err? || env.connectError.Some? || Reports404(connected)
    ensures target.Ok? && env.connectError.None? ==>
      Dial(target, env, connected) == [Connect(target.value.host, target.value.port)] + connected + [CloseTarget]
    ensures target.Err? ==> Dial(target, env, connected) == [SendError(404, Some(target.error)), CloseTarget]
    ensures target.Ok? && env.connectError.Some? ==>
      Dial(target, env, connected) ==
        [Connect(target.value.host, target.value.port), SendError(404, Some(env.connectError.value)), CloseTarget]
  {
    var e := Dial(target, env, connected);
    match target
    case Err(_) =>
      assert e[0].SendError? && e[0].code == 404;
    case Ok(t) =>
      assert e[0].Connect?;
      match env.connectError {
        case Some(_) =>
          assert e[1].SendError? && e[1].code == 404;
        case None =>
          assert forall i :: 0 <= i < |connected| ==> e[i + 1] == connected[i];
          assert forall i :: 0 < i < |e| - 1 ==> e[i] == connected[i - 1];
          if Opens(e) {
            var i :| 0 <= i < |e| && e[i].Connect?;
          }
          if Reports404(e) {
            var i :| 0 <= i < |e| && e[i].SendError? && e[i].code == 404;
            assert connected[i - 1].SendError?;
          }
          if Reports404(connected) {
            var i :| 0 <= i < |connected| && connected[i].SendError? && connected[i].code == 404;
            assert e[i + 1].SendError?;
          }
      }
  }

  /** The shared connect step adds no error code but 404. */
  lemma DialAnswers(target: Result<Target, string>, env: Env, connected: seq<Effect>, codes: set<nat>)
    requires Answers(connected, codes) && 404 in codes
    ensures Answers(Dial(target, env, connected), codes)
  {
    var e := Dial(target, env, connected);
    if target.Ok? && env.connectError.None? {
      assert forall i :: 0 < i < |e| - 1 ==> e[i] == connected[i - 1];
    }
  }

  /** A write raises somewhere among the first `n` writes. */
  predicate RaisesWithin(w: Option<(nat, string)>, n: nat)
  {
    w.Some? && w.value.0 < n
  }

  /** Writes that neither connect nor answer an error. */
  predicate WritesOnly(effects: seq<Effect>)
  {
    forall i :: 0 <= i < |effects| ==> !effects[i].Connect? && !effects[i].SendError?
  }

  /** After a good connect: no further connection is opened, only 404 is
      answered, and it is answered iff one of the writes or the relay
      raised; the writes come first, cut after the one that raises. */
  lemma ThenRelayOutcomes(attempts: seq<Effect>, w: Option<(nat, string)>, o: Outcome)
    requires WritesOnly(attempts)
    ensures var e := ThenRelay(attempts, w, o); !Opens(e) && Answers(e, {404})
    ensures Reports404(ThenRelay(attempts, w, o)) <==> RaisesWithin(w, |attempts|) || o.exit.Raised?
    ensures !RaisesWithin(w, |attempts|) ==> ThenRelay(attempts, w, o) == attempts + [Relayed(o)] + RelayError(o)
    ensures RaisesWithin(w, |attempts|) ==>
      ThenRelay(attempts, w, o) == attempts[..w.value.0 + 1] + [SendError(404, Some(w.value.1))]
  {
    var e := ThenRelay(attempts, w, o);
    var (done, error) := Writes(attempts, w);
    assert forall i :: 0 <= i < |done| ==> e[i] == attempts[i];
    if error.Some? {
      assert e[|done|].SendError?;
    } else if o.exit.Raised? {
      assert e[|done| + 1].SendError?;
    }
  }

  /** The tunnel after a good connect opens no further connection, answers
      only 404 to errors, and does so iff one of the three answer writes or
      the relay raised. */
  lemma TunnelledOutcomes(w: Option<(nat, string)>, o: Outcome)
    ensures !Opens(Tunnelled(w, o)) && Answers(Tunnelled(w, o), {404})
    ensures Reports404(Tunnelled(w, o)) <==> RaisesWithin(w, 3) || o.exit.Raised?
  {
    ThenRelayOutcomes(Answer(), w, o);
  }

  /** Likewise for a forwarded request after a good connect, whose writes
      are the request line, one per header and the blank line. */
  lemma ProxiedOutcomes(req: Request, order: seq<string>, w: Option<(nat, string)>, o: Outcome)
    ensures var e := ThenRelay(HeadWrites(req, order), w, o); !Opens(e) && Answers(e, {404})
    ensures Reports404(ThenRelay(HeadWrites(req, order), w, o)) <==>
      RaisesWithin(w, |HeadWrites(req, order)|) || o.exit.Raised?
  {
    HeadWritesShape(req, order);
    ThenRelayOutcomes(HeadWrites(req, order), w, o);
  }

  /** The tunnel handler answers errors only with 404. */
  lemma ConnectCodes(path: string, env: Env)
    ensures Answers(DoConnect(path, env), {404})
  {
    var o := Relay.Relay(env.trace, TunnelTimeout / Tick);
    TunnelledOutcomes(env.writeError, o);
    DialAnswers(SplitHostPort(path), env, Tunnelled(env.writeError, o), {404});
  }

  /** The forward handler answers errors only with 400 or 404. */
  lemma GetCodes(req: Request, env: Env)
    ensures Answers(DoGet(req, env), {400, 404})
  {
    if Forwardable(req.url) {
      var o := Relay.Relay(env.trace, DefaultTimeout / Tick);
      var connected := ThenRelay(HeadWrites(req, env.headerOrder), env.writeError, o);
      ProxiedOutcomes(req, env.headerOrder, env.writeError, o);
      assert Answers(connected, {400, 404});
      DialAnswers(SplitHostPort(req.url.netloc), env, connected, {400, 404});
    }
  }

  /** The only error codes the dispatched handlers send are 400, 404 and
      501; in particular none answers 403, which comes only from screening. */
  lemma HandlerCodes(req: Request, env: Env)
    ensures Answers(Respond(Verbs(), req, env), {400, 404, 501})
    ensures SendError(403, None) !in Respond(Verbs(), req, env)
  {
    var r := Respond(Verbs(), req, env);
    DispatchTable(req, env);
    if req.command in {"GET", "PUT", "POST", "HEAD", "DELETE", "OPTIONS"} {
      GetCodes(req, env);
    } else if req.command == "CONNECT" {
      ConnectCodes(req.path, env);
    }
    assert Answers(r, {400, 404, 501});
    NotAnswered(r, {400, 404, 501}, 403);
  }

  /** A code outside `codes` is never sent. */
  lemma NotAnswered(effects: seq<Effect>, codes: set<nat>, code: nat)
    requires Answers(effects, codes) && code !in codes
    ensures forall m :: SendError(code, m) !in effects
  {
  }

  /** Admission: a peer is served iff the white list is empty or holds its
      address exactly. A rejected peer gets only the 403 and the note before
      its connection is closed: no target is ever contacted for it. */
  lemma AdmissionGate(whiteList: set<string>, ip: string, req: Request, env: Env)
    ensures SendError(403, None) in Serve(whiteList, ip, req, env) <==> !(whiteList == {} || ip in whiteList)
    ensures !(whiteList == {} || ip in whiteList) ==>
      Serve(whiteList, ip, req, env) == [SendError(403, None), WriteClient("Your ip [" + ip + "] is not in white list"), CloseConnection]
      && !Opens(Serve(whiteList, ip, req, env))
    ensures (whiteList == {} || ip in whiteList) ==> Serve(whiteList, ip, req, env) == Respond(Verbs(), req, env) + [CloseConnection]
  {
    var e := Serve(whiteList, ip, req, env);
    assert Admitted(whiteList, ip) <==> (whiteList == {} || ip in whiteList) by {
      assert whiteList == {} <==> |whiteList| == 0;
    }
    if Admitted(whiteList, ip) {
      var r := Respond(Verbs(), req, env);
      assert e == r + [CloseConnection];
      assert SendError(403, None) !in r by { HandlerCodes(req, env); }
    } else {
      assert e == Rejection(ip) + [CloseConnection];
    }
  }

  /** A URL that is not `http`, has a fragment or names no host gets
      `400 bad url <path>` and nothing else: no socket is opened or closed;
      every other URL is not answered that way. */
  lemma BadUrlRejected(req: Request, env: Env)
    ensures DoGet(req, env) == [SendError(400, Some("bad url " + req.path))] <==> !Forwardable(req.url)
    ensures !Forwardable(req.url) ==> !Opens(DoGet(req, env))
  {
    if Forwardable(req.url) {
      var o := Relay.Relay(env.trace, DefaultTimeout / Tick);
      DialOutcomes(SplitHostPort(req.url.netloc), env, ThenRelay(HeadWrites(req, env.headerOrder), env.writeError, o));
    }
  }

  /** The tunnel for any target, write failure and relay outcome: the target
      socket is closed last; a connection is attempted iff the target parsed;
      a 404 is sent iff the target does not parse, the connect fails, one of
      the three answer writes raises or the relay raises; after a good
      connect come the 200 answer, its header, the end of the headers and the
      relay, and when answer write `k` raises, the answer up to that write
      and the 404 carrying its text. */
  lemma TunnelShape(target: Result<Target, string>, env: Env, o: Outcome)
    ensures var e := Dial(target, env, Tunnelled(env.writeError, o)); |e| >= 2 && e[|e| - 1] == CloseTarget
    ensures Opens(Dial(target, env, Tunnelled(env.writeError, o))) <==> target.Ok?
    ensures Reports404(Dial(target, env, Tunnelled(env.writeError, o))) <==>
      target.Err? || env.connectError.Some? || RaisesWithin(env.writeError, 3) || o.exit.Raised?
    ensures target.Ok? && env.connectError.None? && !RaisesWithin(env.writeError, 3) ==>
      Dial(target, env, Tunnelled(env.writeError, o))[..5] ==
        [Connect(target.value.host, target.value.port),
         SendResponse(200, "Connection established"),
         SendHeader("Proxy-agent", "SimpleAnonymizer 1.0"),
         EndHeaders,
         Relayed(o)]
    ensures target.Ok? && env.connectError.None? && RaisesWithin(env.writeError, 3) ==>
      Dial(target, env, Tunnelled(env.writeError, o)) ==
        [Connect(target.value.host, target.value.port)] + Answer()[..env.writeError.value.0 + 1]
        + [SendError(404, Some(env.writeError.value.1)), CloseTarget]
    ensures target.Err? ==> Dial(target, env, Tunnelled(env.writeError, o)) == [SendError(404, Some(target.error)), CloseTarget]
    ensures target.Ok? && env.connectError.Some? ==>
      Dial(target, env, Tunnelled(env.writeError, o)) ==
        [Connect(target.value.host, target.value.port), SendError(404, Some(env.connectError.value)), CloseTarget]
  {
    var w := env.writeError;
    ThenRelayOutcomes(Answer(), w, o);
    TunnelledOutcomes(w, o);
    DialOutcomes(target, env, Tunnelled(w, o));
    if target.Ok? && env.connectError.None? && !RaisesWithin(w, 3) {
      var e := Dial(target, env, Tunnelled(w, o));
      assert "SimpleAnonymizer " + Version == "SimpleAnonymizer 1.0";
      assert e[..5] == [Connect(target.value.host, target.value.port)] + Tunnelled(w, o)[..4];
    }
  }

  /** do_CONNECT: the target socket is closed last whatever happens; a
      connection is attempted iff the target parses; a 404 is sent iff the
      port does not parse, the connect fails, an answer write raises or the
      relay raises; after a good connect the 200 answer with the Proxy-agent
      header precedes a relay limited to 300 / 3 = 100 idle passes. */
  lemma TunnelOutcomes(path: string, env: Env)
    ensures var e := DoConnect(path, env); |e| >= 2 && e[|e| - 1] == CloseTarget
    ensures Opens(DoConnect(path, env)) <==> SplitHostPort(path).Ok?
    ensures Reports404(DoConnect(path, env)) <==>
      SplitHostPort(path).Err? || env.connectError.Some? || RaisesWithin(env.writeError, 3)
      || Relay.Relay(env.trace, 100).exit.Raised?
    ensures SplitHostPort(path).Ok? && env.connectError.None? && !RaisesWithin(env.writeError, 3) ==>
      var t := SplitHostPort(path).value;
      DoConnect(path, env)[..5] ==
        [Connect(t.host, t.port),
         SendResponse(200, "Connection established"),
         SendHeader("Proxy-agent", "SimpleAnonymizer 1.0"),
         EndHeaders,
         Relayed(Relay.Relay(env.trace, 100))]
    ensures SplitHostPort(path).Err? ==> DoConnect(path, env) == [SendError(404, Some(SplitHostPort(path).error)), CloseTarget]
    ensures SplitHostPort(path).Ok? && env.connectError.Some? ==>
      var t := SplitHostPort(path).value;
      DoConnect(path, env) == [Connect(t.host, t.port), SendError(404, Some(env.connectError.value)), CloseTarget]
  {
    var o := Relay.Relay(env.trace, 100);
    assert DoConnect(path, env) == Dial(SplitHostPort(path), env, Tunnelled(env.writeError, o));
    TunnelShape(SplitHostPort(path), env, o);
  }

  /** do_GET on a forwardable URL: the target socket is closed last; a
      connection is attempted iff the host parses; a 404 is sent iff the port
      does not parse, the connect fails, one of the sends of the head raises
      or the relay raises. */
  lemma ForwardOutcomes(req: Request, env: Env)
    requires Forwardable(req.url)
    ensures var e := DoGet(req, env); |e| >= 2 && e[|e| - 1] == CloseTarget
    ensures Opens(DoGet(req, env)) <==> SplitHostPort(req.url.netloc).Ok?
    ensures Reports404(DoGet(req, env)) <==>
      SplitHostPort(req.url.netloc).Err? || env.connectError.Some?
      || RaisesWithin(env.writeError, |HeadWrites(req, env.headerOrder)|)
      || Relay.Relay(env.trace, 20).exit.Raised?
    ensures SplitHostPort(req.url.netloc).Err? ==>
      DoGet(req, env) == [SendError(404, Some(SplitHostPort(req.url.netloc).error)), CloseTarget]
    ensures SplitHostPort(req.url.netloc).Ok? && env.connectError.Some? ==>
      var t := SplitHostPort(req.url.netloc).value;
      DoGet(req, env) == [Connect(t.host, t.port), SendError(404, Some(env.connectError.value)), CloseTarget]
  {
    DoGetDials(req, env);
    DoGetFails(req, env);
  }

  /** do_GET's shape, its connect and its 404s. */
  lemma DoGetDials(req: Request, env: Env)
    requires Forwardable(req.url)
    ensures var e := DoGet(req, env); |e| >= 2 && e[|e| - 1] == CloseTarget
    ensures Opens(DoGet(req, env)) <==> SplitHostPort(req.url.netloc).Ok?
    ensures Reports404(DoGet(req, env)) <==>
      SplitHostPort(req.url.netloc).Err? || env.connectError.Some?
      || RaisesWithin(env.writeError, |HeadWrites(req, env.headerOrder)|)
      || Relay.Relay(env.trace, 20).exit.Raised?
  {
    var o := Relay.Relay(env.trace, 20);
    var all := HeadWrites(req, env.headerOrder);
    var target := SplitHostPort(req.url.netloc);
    assert DoGet(req, env) == Dial(target, env, ThenRelay(all, env.writeError, o));
    ProxiedOutcomes(req, env.headerOrder, env.writeError, o);
    DialThenRelay(target, env, all, o);
  }

  /** do_GET's answer when the port does not parse or the connect fails. */
  lemma DoGetFails(req: Request, env: Env)
    requires Forwardable(req.url)
    ensures SplitHostPort(req.url.netloc).Err? ==>
      DoGet(req, env) == [SendError(404, Some(SplitHostPort(req.url.netloc).error)), CloseTarget]
    ensures SplitHostPort(req.url.netloc).Ok? && env.connectError.Some? ==>
      var t := SplitHostPort(req.url.netloc).value;
      DoGet(req, env) == [Connect(t.host, t.port), SendError(404, Some(env.connectError.value)), CloseTarget]
  {
    var target := SplitHostPort(req.url.netloc);
    var connected := ThenRelay(HeadWrites(req, env.headerOrder), env.writeError, Relay.Relay(env.trace, DefaultTimeout / Tick));
    assert DoGet(req, env) == Dial(target, env, connected);
    DialOutcomes(target, env, connected);
  }

  /** The connect step followed by writes and the relay. */
  lemma DialThenRelay(target: Result<Target, string>, env: Env, all: seq<Effect>, o: Outcome)
    requires !Opens(ThenRelay(all, env.writeError, o))
    requires Reports404(ThenRelay(all, env.writeError, o)) <==> RaisesWithin(env.writeError, |all|) || o.exit.Raised?
    ensures var e := Dial(target, env, ThenRelay(all, env.writeError, o)); |e| >= 2 && e[|e| - 1] == CloseTarget
    ensures Opens(Dial(target, env, ThenRelay(all, env.writeError, o))) <==> target.Ok?
    ensures Reports404(Dial(target, env, ThenRelay(all, env.writeError, o))) <==>
      target.Err? || env.connectError.Some? || RaisesWithin(env.writeError, |all|) || o.exit.Raised?
    ensures target.Err? ==> Dial(target, env, ThenRelay(all, env.writeError, o)) == [SendError(404, Some(target.error)), CloseTarget]
    ensures target.Ok? && env.connectError.Some? ==>
      Dial(target, env, ThenRelay(all, env.writeError, o)) ==
        [Connect(target.value.host, target.value.port), SendError(404, Some(env.connectError.value)), CloseTarget]
  {
    DialOutcomes(target, env, ThenRelay(all, env.writeError, o));
  }

  /** do_GET after a good connect: the sends of the head come between the
      connect and the relay, limited to 60 / 3 = 20 idle passes; when none
      raises the target receives exactly the rewritten head before the
      relay, and when one raises it receives a prefix of the head and the
      client the 404 carrying the exception's text. */
  lemma ForwardSendsHead(req: Request, env: Env)
    requires Forwardable(req.url) && SplitHostPort(req.url.netloc).Ok? && env.connectError.None?
    ensures var t := SplitHostPort(req.url.netloc).value;
      var o := Relay.Relay(env.trace, 20);
      !RaisesWithin(env.writeError, |HeadWrites(req, env.headerOrder)|) ==>
        DoGet(req, env) == [Connect(t.host, t.port)] + HeadWrites(req, env.headerOrder) + [Relayed(o)] + RelayError(o) + [CloseTarget]
    ensures !RaisesWithin(env.writeError, |HeadWrites(req, env.headerOrder)|) ==>
      TargetData(DoGet(req, env)) == ForwardedHead(req, env.headerOrder)
    ensures RaisesWithin(env.writeError, |HeadWrites(req, env.headerOrder)|) ==>
      TargetData(DoGet(req, env)) <= ForwardedHead(req, env.headerOrder)
      && DoGet(req, env)[|DoGet(req, env)| - 2..] == [SendError(404, Some(env.writeError.value.1)), CloseTarget]
  {
    var o := Relay.Relay(env.trace, 20);
    var all := HeadWrites(req, env.headerOrder);
    var t := SplitHostPort(req.url.netloc).value;
    assert DoGet(req, env) == Dial(Ok(t), env, ThenRelay(all, env.writeError, o));
    WritesThenRelay(t, env, all, o);
    HeadWritesData(req, env.headerOrder);
    if RaisesWithin(env.writeError, |all|) {
      TargetDataPrefix(all, env.writeError.value.0 + 1);
    }
  }

  /** A good connect followed by writes and the relay: what the socket
      sees, and that only the completed writes reach the target. */
  lemma WritesThenRelay(t: Target, env: Env, all: seq<Effect>, o: Outcome)
    requires env.connectError.None?
    ensures var e := Dial(Ok(t), env, ThenRelay(all, env.writeError, o));
      && TargetData(e) == TargetData(Writes(all, env.writeError).0)
      && (!RaisesWithin(env.writeError, |all|) ==> e == [Connect(t.host, t.port)] + all + [Relayed(o)] + RelayError(o) + [CloseTarget])
      && (RaisesWithin(env.writeError, |all|) ==> e[|e| - 2..] == [SendError(404, Some(env.writeError.value.1)), CloseTarget])
  {
    var connected := ThenRelay(all, env.writeError, o);
    var e := Dial(Ok(t), env, connected);
    assert e == [Connect(t.host, t.port)] + connected + [CloseTarget];
    TargetDataAppend([Connect(t.host, t.port)] + connected, [CloseTarget]);
    TargetDataAppend([Connect(t.host, t.port)], connected);
    NoSends([CloseTarget]);
    NoSends([Connect(t.host, t.port)]);
    ThenRelayData(all, env.writeError, o);
  }

  /** Only the writes put anything on the target: the relay's own traffic
      is not counted here and a 404 goes to the client. */
  lemma ThenRelayData(attempts: seq<Effect>, w: Option<(nat, string)>, o: Outcome)
    ensures TargetData(ThenRelay(attempts, w, o)) == TargetData(Writes(attempts, w).0)
  {
    var (done, error) := Writes(attempts, w);
    var tail := ThenRelay(attempts, w, o)[|done|..];
    assert ThenRelay(attempts, w, o) == done + tail;
    TargetDataAppend(done, tail);
    NoSends(tail);
  }

  /** Effects that send nothing to the target put nothing on it. */
  lemma {:induction false} NoSends(effects: seq<Effect>)
    requires forall i :: 0 <= i < |effects| ==> !effects[i].SendTarget?
    ensures TargetData(effects) == ""
  {
    if effects != [] {
      NoSends(effects[1..]);
    }
  }

  /** What the target receives before the relay reads back as the original
      command, the target stripped to path, params and query, and the
      original version; then exactly the rewritten headers (`connection:
      close`, no `proxy-connection`, every other header unchanged); then the
      blank line and nothing more. */
  lemma ForwardedHeadReadsBack(req: Request, order: seq<string>)
    requires ' ' !in req.command && ' ' !in OriginForm(req.url)
    requires '\r' !in req.command && '\r' !in OriginForm(req.url) && '\r' !in req.version
    requires CleanHeaders(req.headers)
    requires Enumerates(order, RewriteHeaders(req.headers).Keys)
    ensures ParseHead(ForwardedHead(req, order)).Some?
    ensures var (start, items, body) := ParseHead(ForwardedHead(req, order)).value;
      && SplitRequestLine(start) == Some((req.command, OriginForm(req.url), req.version))
      && ToMap(items) == RewriteHeaders(req.headers)
      && body == ""
  {
    var h := RewriteHeaders(req.headers);
    var items := Items(h, order);
    var start := RequestLine(req.command, req.url, req.version);
    RewriteKeepsClean(req.headers);
    ItemsClean(h, order);
    assert '\r' !in start;
    assert ForwardedHead(req, order) == start + "\r\n" + FormatHeaders(items) + "\r\n" + "";
    HeadRoundTrip(start, items, "");
    RequestLineRoundTrip(req.command, OriginForm(req.url), req.version);
    ItemsCover(h, order);
  }

  /** Header names free of `:` and CR, values free of CR. */
  predicate CleanHeaders(h: Headers)
  {
    forall k :: k in h ==> ':' !in k && '\r' !in k && '\r' !in h[k]
  }

  lemma RewriteKeepsClean(h: Headers)
    requires CleanHeaders(h)
    ensures CleanHeaders(RewriteHeaders(h))
  {
  }

  lemma ItemsClean(h: Headers, order: seq<string>)
    requires CleanHeaders(h)
    ensures Clean(Items(h, order))
  {
    var items := Items(h, order);
    forall i | 0 <= i < |items|
      ensures ':' !in items[i].0 && '\r' !in items[i].0 && '\r' !in items[i].1
    {
      assert items[i].0 in h;
    }
  }

  /** When the order lists every name, the items rebuild the whole map. */
  lemma ItemsCover(h: Headers, order: seq<string>)
    requires forall k :: k in h ==> k in order
    ensures ToMap(Items(h, order)) == h
  {
    ItemsMap(h, order);
    assert (map k | k in h && k in order :: h[k]) == h;
  }

  /** A CONNECT to a host with no port dials that host on port 80 once the
      connect succeeds. */
  lemma TunnelDials(host: string, env: Env)
    requires ':' !in host && env.connectError.None?
    ensures Connect(host, DefaultPort) in DoConnect(host, env)
  {
    assert SplitHostPort(host) == Ok(Target(host, DefaultPort));
    assert DoConnect(host, env)[0] == Connect(host, DefaultPort);
  }

  /** Two connections, one process: a peer outside a non-empty white list
      that sends a CONNECT is refused with a 403 the first time, and the
      second time it is served and its target is dialled, because the first
      connection removed the screening `handle` from the class. */
  method SecondPeerBypassesWhiteList(whiteList: set<string>, ip: string, host: string, env: Env)
    returns (first: seq<Effect>, second: seq<Effect>)
    requires |whiteList| > 0 && ip !in whiteList
    requires ':' !in host && env.connectError.None?
    ensures first == Rejection(ip) + [CloseConnection] && !Opens(first)
    ensures SendError(403, None) !in second && Connect(host, DefaultPort) in second
  {
    var req := Request("CONNECT", host, "HTTP/1.1", map[], Url("", "", "", "", "", ""));
    var cls := new ProxyHandlerClass();
    first := cls.Session(whiteList, ip, req, env);
    second := cls.Session(whiteList, ip, req, env);
    AdmissionGate(whiteList, ip, req, env);
    assert first == Serve(whiteList, ip, req, env);
    HandlerCodes(req, env);
    DispatchTable(req, env);
    TunnelDials(host, env);
  }
}
