/** `proxyConnection` and `ReverseProxy` (reverse-proxy/reverse-proxy.go):
    one backend and the request rewrite done for it, and the proxy that
    registers backends, installs the DNS override, switches logging and
    dispatches requests. The round-robin scheduler is outside this model:
    the backend a request goes to is given as an index into the registered
    connections. */
module Proxy {
  import opened Wrappers
  import opened Http
  import opened ClientAddress
  import opened StatusCapture
  import opened DnsOverride

  /** The `http.Transport` settings a connection installs for itself on every
      request (timeouts in seconds). */
  datatype TransportConfig = TransportConfig(
    dialTimeout: int, keepAlive: int, dualStack: bool, maxIdleConns: int,
    idleConnTimeout: int, tlsHandshakeTimeout: int, expectContinueTimeout: int)

  const BackendTransport := TransportConfig(10, 10, true, 10, 30, 5, 1)

  /** One backend: its URL and weight, and the transport its forwarder uses
      (None: `http.DefaultTransport`, which `NewSingleHostReverseProxy`
      leaves in place). */
  class ProxyConnection {
    const target: Url
    const weight: int
    var transport: Option<TransportConfig>

    /** `newProxyConnection(target, weight)`. */
    constructor (target: Url, weight: int)
      ensures this.target == target && this.weight == weight && transport == None
    {
      this.target := target;
      this.weight := weight;
      transport := None;
    }

    /** `proxyConnection.ServeHTTP`, up to the hand-off to the forwarder:
        the request is pointed at the backend, `X-Forwarded-Host` is set to
        the value of the header map's "Host" entry (not `r.Host`), nothing
        else in the request changes, and a fresh fixed transport replaces
        the forwarder's. */
    method ServeHTTP(r: Request)
      modifies this, r
      ensures r.url == old(r.url).(host := target.host, scheme := target.scheme)
      ensures r.host == target.host
      ensures r.header == HeaderSet(old(r.header), "X-Forwarded-Host", HeaderGet(old(r.header), "Host"))
      ensures r.verb == old(r.verb) && r.remoteAddr == old(r.remoteAddr)
      ensures transport == Some(BackendTransport)
    {
      r.url := r.url.(host := target.host);
      r.url := r.url.(scheme := target.scheme);
      r.host := target.host;
      r.header := HeaderSet(r.header, "X-Forwarded-Host", HeaderGet(r.header, "Host"));
      transport := Some(BackendTransport);
    }

    /** How the forwarder dials the backend: with the connection's own
        transport, directly; with none installed, through the default
        transport. ServeHTTP installs its own transport before it forwards,
        so no backend dial ever goes through the default transport and its
        DNS override. */
    function BackendDial(dt: DefaultTransport, network: string, addr: string,
                         parseIP: string -> Option<string>,
                         lookup: (seq<string>, int, string) -> Lookup): DialOutcome
      reads this, dt
    {
      match transport
      case Some(_) => Dialed(network, addr)
      case None => dt.Dial(network, addr, parseIP, lookup)
    }
  }

  /** The DNS override does not reach backends: once a connection has its
      own transport, dialing a canonical-IP `host:port` goes to `host`
      itself, where the installed hook would have dialed the looked-up
      address instead. */
  lemma OverrideBypassed(c: ProxyConnection, dt: DefaultTransport, network: string,
                         host: string, port: string,
                         parseIP: string -> Option<string>,
                         lookup: (seq<string>, int, string) -> Lookup)
    requires c.transport.Some? && dt.dnsServers.Some?
    requires ':' !in host && IsCanonicalIP(parseIP, host)
    requires lookup(dt.dnsServers.value, ResolverRetryTimes, host).Resolved?
    requires lookup(dt.dnsServers.value, ResolverRetryTimes, host).ips != []
    requires lookup(dt.dnsServers.value, ResolverRetryTimes, host).ips[0] != host
    ensures c.BackendDial(dt, network, host + ":" + port, parseIP, lookup) == Dialed(network, host + ":" + port)
    ensures c.BackendDial(dt, network, host + ":" + port, parseIP, lookup) !=
            dt.Dial(network, host + ":" + port, parseIP, lookup)
  {
    var servers := dt.dnsServers.value;
    var ip := lookup(servers, ResolverRetryTimes, host).ips[0];
    DialKeepsPort(servers, network, host, port, parseIP, lookup);
    var viaHook, direct := ip + ":" + port, host + ":" + port;
    DistinctHosts(ip, host, port);
    assert dt.Dial(network, direct, parseIP, lookup) == Dialed(network, viaHook);
    assert c.BackendDial(dt, network, direct, parseIP, lookup) == Dialed(network, direct);
  }

  /** Different hosts on the same port are different addresses. */
  lemma DistinctHosts(a: string, b: string, port: string)
    requires a != b
    ensures a + ":" + port != b + ":" + port
  {
    var x, y := a + ":" + port, b + ":" + port;
    assert x[..|a|] == a && y[..|b|] == b;
    assert |x| - |y| == |a| - |b|;
  }

  /** The path written to the log line: the query, when there is one, is
      appended after a '?'. */
  function LoggedPath(u: Url): (p: string)
    ensures u.rawQuery == "" ==> p == u.path
    ensures u.rawQuery != "" ==> |p| == |u.path| + 1 + |u.rawQuery| && p[|u.path|] == '?'
    ensures u.rawQuery != "" ==> p[..|u.path|] == u.path && p[|u.path| + 1..] == u.rawQuery
  {
    if u.rawQuery != "" then u.path + "?" + u.rawQuery else u.path
  }

  /** Reading a logged path back: the text before the first '?' and the text
      after it. */
  function ParseLoggedPath(p: string): (pq: (string, string))
  {
    var path := GoStrings.Split(p, '?')[0];
    (path, if |path| < |p| then p[|path| + 1..] else "")
  }

  /** The logged path loses nothing when the path has no '?': path and
      query are recovered from it, so distinct requests log distinct paths. */
  lemma LoggedPathRoundTrip(u: Url)
    requires '?' !in u.path
    ensures ParseLoggedPath(LoggedPath(u)) == (u.path, u.rawQuery)
  {
    var p := LoggedPath(u);
    if u.rawQuery != "" {
      assert p == u.path + ("?" + u.rawQuery);
      GoStrings.SplitFirst(u.path, "?" + u.rawQuery, '?');
      assert p[|u.path| + 1..] == u.rawQuery;
    } else {
      assert p == u.path + "";
      GoStrings.SplitFirst(u.path, "", '?');
    }
  }

  /** The fields of one log line, without the latency. */
  datatype LogEntry = LogEntry(status: int, clientIP: string, verb: string, path: string, backend: Url)

  /** What `ListenAndServe` does: refuse to start, or serve on `addr`. */
  datatype ServeOutcome = Refused(msg: string) | Serving(addr: string)

  class ReverseProxy {
    /** The scheduler's registered connections, in registration order. */
    var conns: seq<ProxyConnection>
    var log: bool

    /** `New()`. */
    constructor ()
      ensures conns == [] && !log
    {
      conns := [];
      log := false;
    }

    /** `ChangeDNS(domainServers...)`: with no servers nothing changes;
        otherwise the default transport dials through the hook for exactly
        these servers, replacing any earlier hook. */
    method ChangeDNS(domainServers: seq<string>, dt: DefaultTransport)
      modifies if domainServers == [] then {} else {dt}
      ensures domainServers == [] ==> dt.dnsServers == old(dt.dnsServers)
      ensures domainServers != [] ==> dt.dnsServers == Some(domainServers)
    {
      if |domainServers| == 0 {
        return;
      }
      dt.dnsServers := Some(domainServers);
    }

    /** `Log(mode)`. */
    method Log(mode: bool)
      modifies this`log
      ensures log == mode
    {
      log := mode;
    }

    /** `Add(target, weight)`: one new connection for `target` and `weight`
        is appended; the earlier ones stay as they were. */
    method Add(target: Url, weight: int)
      modifies this`conns
      ensures |conns| == |old(conns)| + 1 && conns[..|old(conns)|] == old(conns)
      ensures fresh(conns[|conns| - 1])
      ensures conns[|conns| - 1].target == target && conns[|conns| - 1].weight == weight
      ensures conns[|conns| - 1].transport == None
    {
      var c := new ProxyConnection(target, weight);
      conns := conns + [c];
    }

    /** `ListenAndServe(addr)`: refuses exactly when no connection has been
        registered. */
    method ListenAndServe(addr: string) returns (res: ServeOutcome)
      ensures res.Refused? <==> conns == []
      ensures res.Refused? ==> res.msg == "not enough remote addresses"
      ensures res.Serving? ==> res.addr == addr
    {
      if |conns| == 0 {
        return Refused("not enough remote addresses");
      }
      return Serving(addr);
    }

    /** `ReverseProxy.ServeHTTP` for the connection the scheduler picked and
        the backend's `response` (the writer calls the forwarder makes). The
        client receives the backend's calls unchanged; with logging on, the
        entry holds the status the response
        set, the client address, the method and the path with its query. */
    method ServeHTTP(w: Sink, r: Request, pick: nat, response: seq<WriterCall>,
                     splitHostPort: string -> Option<string>) returns (entry: Option<LogEntry>)
      requires pick < |conns|
      modifies w, r, conns[pick]
      ensures r.url == old(r.url).(host := conns[pick].target.host, scheme := conns[pick].target.scheme)
      ensures r.host == conns[pick].target.host
      ensures r.header == HeaderSet(old(r.header), "X-Forwarded-Host", HeaderGet(old(r.header), "Host"))
      ensures r.verb == old(r.verb) && r.remoteAddr == old(r.remoteAddr)
      ensures conns[pick].transport == Some(BackendTransport)
      ensures w.calls == old(w.calls) + response
      ensures !log ==> entry == None
      ensures log ==> entry == Some(LogEntry(
        Captured(response),
        ClientIP(old(r.header), old(r.remoteAddr), splitHostPort),
        old(r.verb),
        LoggedPath(old(r.url)),
        conns[pick].target))
    {
      var proxy := conns[pick];
      if log {
        var path := r.url.path;
        var raw := r.url.rawQuery;
        var sw := new StatusWriter(w);
        proxy.ServeHTTP(r);
        ForwardThrough(sw, response);
        assert sw.calls == response;
        ClientIPIgnoresOtherHeaders(old(r.header), "X-Forwarded-Host",
          HeaderGet(old(r.header), "Host"), r.remoteAddr, splitHostPort);
        var ip := ClientIP(r.header, r.remoteAddr, splitHostPort);
        if raw != "" {
          path := path + "?" + raw;
        }
        assert path == LoggedPath(old(r.url));
        return Some(LogEntry(sw.status, ip, r.verb, path, proxy.target));
      }
      proxy.ServeHTTP(r);
      ForwardDirect(w, response);
      return None;
    }
  }
}
