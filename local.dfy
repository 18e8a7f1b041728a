/** The local hop (client.py): a TCP request handler that admits only peers
    on its white list, opens a connection to the remote hop (wrapped in mutual
    TLS unless that is switched off), relays bytes both ways until the relay
    loop stops, and answers any failure with a fixed 500 response. Its
    sockets are closed when the handler finishes, whatever happened.

    The handler instance is a class whose fields are its sockets' states and
    the log of what it did to them; what the sockets and the TLS library do
    comes in as an environment value (`Env`). */
module LocalProxy {

  import opened Wire
  import opened Relay

  /** `Config.timeout`: the relay's default timeout, in seconds. */
  const Timeout: nat := 180

  /** The default `tick` of `_read_write`, in seconds. */
  const Tick: nat := 3

  /** What the handler reads from the configuration object. */
  datatype Config = Config(whiteList: set<string>, sslOff: bool, remoteHost: string, remotePort: int)

  /** The configuration as shipped: only loopback is admitted, TLS is on. */
  const Shipped := Config({"127.0.0.1"}, false, "129.79.247.5", 50000)

  /** What the world does: whether sends to the client fail, the error (if
      any) `ssl.wrap_socket` and `connect` raise, and what the relay loop
      sees (Inbound: the client socket, Outbound: the remote hop). */
  datatype Env = Env(sendFails: bool, wrapError: Option<string>, connectError: Option<string>, trace: seq<Poll>)

  /** Everything a session does to its sockets. WrapTls and Connect
      are attempts, made whether or not they succeed. */
  datatype Effect =
    | SendClient(data: string, delivered: bool)   // request.send, failures swallowed
    | WrapTls                                     // ssl.wrap_socket(remote, ...)
    | Connect(host: string, port: int)            // remote.connect
    | Relayed(outcome: Outcome)                   // _read_write
    | CloseRemote                                 // remote.close
    | CloseClient                                 // request.close

  // ---------------------------------------------------------------------
  // Responses to the client

  /** The status line and headers of every error response, with the blank
      line after them. */
  const ErrorHead := "HTTP/1.1 500 Remote Proxy Error\r\n" + "Cache-Control: no-cache\r\n" + "Connection: close\r\n" + "Content-Type: text/html\r\n\r\n"

  /** What `_send_error(info)` sends. */
  function ErrorResponse(info: string): string
  {
    ErrorHead + info + "\r\n"
  }

  /** The note a peer outside the white list gets. */
  function RejectionNotice(ip: string): string
  {
    "Your ip [" + ip + "] are not allowed to connect this proxy."
  }

  const PagePrefix := "<html><body><h1>Remote Proxy Error</h1>Please check your configuration or try later.</br>"
  const PageSuffix := "</body></html>"

  /** The page sent when connecting or relaying raised `e`. */
  function ErrorPage(e: string): string
  {
    PagePrefix + e + PageSuffix
  }

  /** One `_send_error`: the attempt, and whether it reached the client. */
  function Reply(info: string, env: Env): Effect
  {
    SendClient(ErrorResponse(info), !env.sendFails)
  }

  // ---------------------------------------------------------------------
  // The session, as a specification

  /** `_connect_remote`: its effects and the exception it raises, if any. */
  function Dialled(config: Config, env: Env): (seq<Effect>, Option<string>)
  {
    if !config.sslOff && env.wrapError.Some? then ([WrapTls], env.wrapError)
    else ((if config.sslOff then [] else [WrapTls]) + [Connect(config.remoteHost, config.remotePort)], env.connectError)
  }

  /** The exception that reaches `handle`'s `except` clause, if any: from
      the wrap, the connect or the relay, whichever comes first. */
  function Failure(config: Config, env: Env): Option<string>
  {
    match Dialled(config, env).1
    case Some(e) => Some(e)
    case None =>
      var o := Relay.Relay(env.trace, Timeout / Tick);
      if o.exit.Raised? then Some(o.exit.message) else None
  }

  /** `handle`: reject peers off the white list; otherwise connect, relay,
      and report any exception with the error page. */
  function Handled(config: Config, env: Env, ip: string): seq<Effect>
  {
    if ip !in config.whiteList then [Reply(RejectionNotice(ip), env)]
    else
      var (attempt, error) := Dialled(config, env);
      match error
      case Some(e) => attempt + [Reply(ErrorPage(e), env)]
      case None =>
        var o := Relay.Relay(env.trace, Timeout / Tick);
        attempt + [Relayed(o)] + (if o.exit.Raised? then [Reply(ErrorPage(o.exit.message), env)] else [])
  }

  /** A whole connection: `handle`, then `finish`. */
  function Session(config: Config, env: Env, ip: string): seq<Effect>
  {
    Handled(config, env, ip) + [CloseRemote, CloseClient]
  }

  // ---------------------------------------------------------------------
  // The handler instance

  /** The state of the remote socket. */
  datatype Socket = Socket(tls: bool, connected: bool, closed: bool)

  class LocalProxyHandler {
    const config: Config
    const remoteHost: string
    const remotePort: int
    var remote: Socket
    var clientClosed: bool
    var log: seq<Effect>

    /** Construction runs `setup`: copy the remote address from the
        configuration and create the (plain, unconnected) remote socket. */
    constructor (config: Config)
      ensures this.config == config
      ensures remoteHost == config.remoteHost && remotePort == config.remotePort
      ensures remote == Socket(false, false, false) && !clientClosed && log == []
    {
      this.config := config;
      remoteHost := config.remoteHost;
      remotePort := config.remotePort;
      remote := Socket(false, false, false);
      clientClosed := false;
      log := [];
    }

    /** `_send_error`: one send to the client; a failure is swallowed. */
    method SendError(info: string, env: Env)
      modifies this
      ensures log == old(log) + [Reply(info, env)]
      ensures remote == old(remote) && clientClosed == old(clientClosed)
    {
      log := log + [SendClient(ErrorResponse(info), !env.sendFails)];
    }

    /** `_connect_remote`: wrap for TLS unless switched off, then connect;
        `error` is the exception raised, if any. */
    method ConnectRemote(env: Env) returns (error: Option<string>)
      requires remoteHost == config.remoteHost && remotePort == config.remotePort
      requires remote == Socket(false, false, false)
      modifies this
      ensures log == old(log) + Dialled(config, env).0 && error == Dialled(config, env).1
      ensures remote.tls <==> !config.sslOff && env.wrapError.None?
      ensures remote.connected <==> error.None?
      ensures !remote.closed && clientClosed == old(clientClosed)
    {
      if !config.sslOff {
        log := log + [WrapTls];
        if env.wrapError.Some? {
          return env.wrapError;
        }
        remote := remote.(tls := true);
      }
      log := log + [Connect(remoteHost, remotePort)];
      if env.connectError.Some? {
        return env.connectError;
      }
      remote := remote.(connected := true);
      error := None;
    }

    /** `handle`. */
    method Handle(ip: string, env: Env)
      requires remoteHost == config.remoteHost && remotePort == config.remotePort
      requires remote == Socket(false, false, false)
      modifies this
      ensures log == old(log) + Handled(config, env, ip)
      ensures remote.tls <==> ip in config.whiteList && !config.sslOff && env.wrapError.None?
      ensures remote.connected <==> ip in config.whiteList && Dialled(config, env).1.None?
      ensures !remote.closed && clientClosed == old(clientClosed)
    {
      if ip !in config.whiteList {
        SendError(RejectionNotice(ip), env);
        return;
      }
      var error := ConnectRemote(env);
      if error.None? {
        var o := Relay.ReadWrite(env.trace, Timeout, Tick);
        log := log + [Relayed(o)];
        if o.exit.Raised? {
          error := Some(o.exit.message);
        }
      }
      if error.Some? {
        SendError(ErrorPage(error.value), env);
      }
    }

    /** `finish`: close the remote socket, then the client socket. */
    method Finish()
      modifies this
      ensures remote == old(remote).(closed := true) && clientClosed
      ensures log == old(log) + [CloseRemote, CloseClient]
    {
      remote := remote.(closed := true);
      log := log + [CloseRemote];
      clientClosed := true;
      log := log + [CloseClient];
    }
  }

  /** One connection as the socket server runs it: construct the handler
      (which runs `setup`), `handle`, then `finish`. */
  method Serve(config: Config, ip: string, env: Env) returns (log: seq<Effect>)
    ensures log == Session(config, env, ip)
  {
    var handler := new LocalProxyHandler(config);
    handler.Handle(ip, env);
    handler.Finish();
    log := handler.log;
  }

  // ---------------------------------------------------------------------
  // What the hop promises

  /** A connection to the remote hop is attempted. */
  predicate Dials(effects: seq<Effect>)
  {
    exists i :: 0 <= i < |effects| && effects[i].Connect?
  }

  /** A TLS wrap is attempted. */
  predicate Wraps(effects: seq<Effect>)
  {
    exists i :: 0 <= i < |effects| && effects[i] == WrapTls
  }

  /** Admission: a peer is served iff it is on the white list, so an empty
      list rejects everyone. A rejected peer gets the rejection notice and its
      connection is finished: the remote hop is never wrapped or dialled. */
  lemma AdmissionGate(config: Config, env: Env, ip: string)
    ensures Session(config, env, ip)[0] == Reply(RejectionNotice(ip), env) <==> ip !in config.whiteList
    ensures ip !in config.whiteList ==>
      Session(config, env, ip) == [Reply(RejectionNotice(ip), env), CloseRemote, CloseClient]
      && !Dials(Session(config, env, ip)) && !Wraps(Session(config, env, ip))
    ensures config.whiteList == {} ==> Session(config, env, ip)[0] == Reply(RejectionNotice(ip), env)
  {
    var s := Session(config, env, ip);
    if ip in config.whiteList {
      assert s[0] == Dialled(config, env).0[0];
    }
  }

  /** The remote socket is wrapped for TLS exactly when TLS is on, and the
      wrap comes first; the connect is attempted unless the wrap failed, and
      it goes to the configured remote hop. */
  lemma WrapBeforeConnect(config: Config, env: Env, ip: string)
    requires ip in config.whiteList
    ensures Wraps(Session(config, env, ip)) <==> !config.sslOff
    ensures Dials(Session(config, env, ip)) <==> config.sslOff || env.wrapError.None?
    ensures !config.sslOff ==> Session(config, env, ip)[0] == WrapTls
    ensures !config.sslOff && env.wrapError.None? ==>
      Session(config, env, ip)[1] == Connect(config.remoteHost, config.remotePort)
    ensures config.sslOff ==> Session(config, env, ip)[0] == Connect(config.remoteHost, config.remotePort)
  {
    var s := Session(config, env, ip);
    var attempt := Dialled(config, env).0;
    assert s[..|attempt|] == attempt;
    assert forall i :: |attempt| <= i < |s| ==> s[i] != WrapTls && !s[i].Connect?;
    if Wraps(s) {
      var i :| 0 <= i < |s| && s[i] == WrapTls;
      assert attempt[i] == WrapTls;
    }
    if Dials(s) {
      var i :| 0 <= i < |s| && s[i].Connect?;
      assert attempt[i].Connect?;
    }
    if !config.sslOff {
      assert s[0] == attempt[0];
    }
    if config.sslOff || env.wrapError.None? {
      assert s[|attempt| - 1] == attempt[|attempt| - 1];
    }
  }

  /** As shipped, only loopback peers are served; for them the remote socket
      is wrapped for TLS first and then dialled at the remote hop's address
      and port, unless the wrap fails. */
  lemma ShippedAdmitsLoopback(env: Env, ip: string)
    ensures ip != "127.0.0.1" ==>
      Session(Shipped, env, ip) == [Reply(RejectionNotice(ip), env), CloseRemote, CloseClient]
    ensures ip == "127.0.0.1" ==> Session(Shipped, env, ip)[0] == WrapTls
    ensures ip == "127.0.0.1" && env.wrapError.None? ==>
      Session(Shipped, env, ip)[1] == Connect("129.79.247.5", 50000)
  {
    AdmissionGate(Shipped, env, ip);
    if ip == "127.0.0.1" {
      WrapBeforeConnect(Shipped, env, ip);
    }
  }

  /** Whatever happens, `finish` closes the remote socket and then the client
      socket, each once, and nothing follows. */
  lemma FinishCloses(config: Config, env: Env, ip: string)
    ensures var s := Session(config, env, ip);
      |s| >= 3 && s[|s| - 2..] == [CloseRemote, CloseClient]
      && CloseRemote !in s[..|s| - 2] && CloseClient !in s[..|s| - 2]
  {
    var s := Session(config, env, ip);
    var h := Handled(config, env, ip);
    assert s[..|s| - 2] == h;
    HandlerClosesNothing(config, env, ip);
  }

  lemma HandlerClosesNothing(config: Config, env: Env, ip: string)
    ensures CloseRemote !in Handled(config, env, ip) && CloseClient !in Handled(config, env, ip)
  {
    var attempt := Dialled(config, env).0;
    assert CloseRemote !in attempt && CloseClient !in attempt;
  }

  /** Any exception from the wrap, the connect or the relay is reported to
      the client with the error page as the last thing before `finish`; when
      none is raised, an admitted client is sent nothing by the handler. */
  lemma FailureReported(config: Config, env: Env, ip: string)
    requires ip in config.whiteList
    ensures var s := Session(config, env, ip);
      Failure(config, env).Some? ==> s[|s| - 3] == Reply(ErrorPage(Failure(config, env).value), env)
    ensures Failure(config, env).None? ==>
      forall i :: 0 <= i < |Session(config, env, ip)| ==> !Session(config, env, ip)[i].SendClient?
  {
    var s := Session(config, env, ip);
    var h := Handled(config, env, ip);
    assert s[|s| - 3] == h[|h| - 1];
    var attempt := Dialled(config, env).0;
    assert forall i :: 0 <= i < |attempt| ==> !attempt[i].SendClient?;
  }

  /** After a good connect the client and the remote hop are relayed with a
      limit of 180 / 3 = 60 idle passes. */
  lemma ConnectedRelays(config: Config, env: Env, ip: string)
    requires ip in config.whiteList && Dialled(config, env).1.None?
    ensures Session(config, env, ip)[|Dialled(config, env).0|] == Relayed(Relay.Relay(env.trace, 60))
  {
  }

  /** Sixty silent passes (three minutes of ticks) end a connected session
      with nothing forwarded either way. */
  lemma SilentClientTimesOut(config: Config, env: Env, ip: string)
    requires ip in config.whiteList && Dialled(config, env).1.None?
    requires 60 <= |env.trace| && forall k :: 0 <= k < 60 ==> Quiet(env.trace[k])
    ensures Session(config, env, ip)[|Dialled(config, env).0|] == Relayed(Outcome(IdleTimeout, 60, "", ""))
  {
    QuietPassesTimeOut(env.trace, 60);
    ConnectedRelays(config, env, ip);
  }

  /** An effect with its delivery mark dropped. */
  function Mute(e: Effect): Effect
  {
    if e.SendClient? then SendClient(e.data, false) else e
  }

  /** A failing send to the client changes nothing else: the session is the
      same, effect by effect, up to whether its sends were delivered. */
  lemma SendFailureSwallowed(config: Config, env: Env, ip: string)
    ensures var s, s' := Session(config, env, ip), Session(config, env.(sendFails := !env.sendFails), ip);
      |s| == |s'| && forall i :: 0 <= i < |s| ==> Mute(s[i]) == Mute(s'[i])
  {
    var env' := env.(sendFails := !env.sendFails);
    var s, s' := Session(config, env, ip), Session(config, env', ip);
    assert Dialled(config, env') == Dialled(config, env);
    var attempt := Dialled(config, env).0;
    if ip in config.whiteList {
      assert s[..|attempt|] == attempt == s'[..|attempt|];
      assert forall i :: 0 <= i < |attempt| ==> s[i] == attempt[i] == s'[i];
    }
  }

  /** The exception text sits between the fixed prefix and suffix of the
      page, so it can be read back. */
  lemma ErrorPageReadsBack(e: string)
    ensures var page := ErrorPage(e);
      |page| == |PagePrefix| + |e| + |PageSuffix|
      && page[..|PagePrefix|] == PagePrefix
      && page[|PagePrefix|..|page| - |PageSuffix|] == e
      && page[|page| - |PageSuffix|..] == PageSuffix
  {
    var page := ErrorPage(e);
    assert page == PagePrefix + e + PageSuffix;
    assert page[..|PagePrefix|] == PagePrefix;
    assert page[|PagePrefix|..|page| - |PageSuffix|] == e;
  }

  /** The header items of every error response. */
  const ErrorItems: seq<(string, string)> := [("Cache-Control", "no-cache"), ("Connection", "close"), ("Content-Type", "text/html")]

  /** The status line of every error response. */
  const ErrorStatus := "HTTP/1.1 500 Remote Proxy Error"

  /** The fixed head is the status line, the three header lines and the
      blank line. */
  lemma ErrorHeadLayout()
    ensures ErrorHead == ErrorStatus + "\r\n" + FormatHeaders(ErrorItems) + "\r\n"
  {
    ErrorItemLines();
    assert "Content-Type: text/html\r\n" + "\r\n" == "Content-Type: text/html\r\n\r\n";
    assert ErrorStatus + "\r\n" == "HTTP/1.1 500 Remote Proxy Error\r\n";
  }

  /** The three fixed header lines. */
  lemma ErrorItemLines()
    ensures FormatHeaders(ErrorItems) == "Cache-Control: no-cache\r\n" + "Connection: close\r\n" + "Content-Type: text/html\r\n"
  {
    assert HeaderLine("Cache-Control", "no-cache") == "Cache-Control: no-cache\r\n";
    assert HeaderLine("Connection", "close") == "Connection: close\r\n";
    assert HeaderLine("Content-Type", "text/html") == "Content-Type: text/html\r\n";
    var a, b, c := ErrorItems[0], ErrorItems[1], ErrorItems[2];
    assert ErrorItems[2..] == [c] && ErrorItems[1..] == [b, c] && ErrorItems[1..][1..] == [c];
    assert FormatHeaders([c]) == HeaderLine(c.0, c.1);
    assert FormatHeaders([b, c]) == HeaderLine(b.0, b.1) + HeaderLine(c.0, c.1);
    assert FormatHeaders(ErrorItems) == HeaderLine(a.0, a.1) + HeaderLine(b.0, b.1) + HeaderLine(c.0, c.1);
  }

  lemma ErrorLiteralsClean()
    ensures Clean(ErrorItems) && '\r' !in ErrorStatus
  {
  }

  /** An error response reads back as status line `HTTP/1.1 500 Remote Proxy
      Error`, the three fixed headers in order, and the info followed by CRLF
      as its body. */
  lemma ErrorResponseReadsBack(info: string)
    ensures ParseHead(ErrorResponse(info)) == Some((ErrorStatus, ErrorItems, info + "\r\n"))
  {
    assert ErrorResponse(info) == ErrorStatus + "\r\n" + FormatHeaders(ErrorItems) + "\r\n" + (info + "\r\n") by {
      ErrorHeadLayout();
    }
    assert Clean(ErrorItems) && '\r' !in ErrorStatus by {
      ErrorLiteralsClean();
    }
    HeadRoundTrip(ErrorStatus, ErrorItems, info + "\r\n");
  }
}
