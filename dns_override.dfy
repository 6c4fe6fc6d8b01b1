/** The dial hook that `ReverseProxy.ChangeDNS` installs on
    `http.DefaultTransport` (reverse-proxy/reverse-proxy.go), and the
    transport's dialing with and without it.

    The hook splits the dial address on ':' and, when the first piece is
    already the canonical text of a literal IP address, replaces that piece
    with the first address a lookup against the configured servers returns.
    This is the trigger as written: a host name is dialed unchanged and never
    looked up. */
module DnsOverride {
  import opened Wrappers
  import opened GoStrings

  /** `resolver.RetryTimes`, set on every resolver the hook creates. */
  const ResolverRetryTimes := 5

  /** The outcome of `resolver.LookupHost`, with the addresses as text. */
  datatype Lookup = Resolved(ips: seq<string>) | LookupFailed(err: string)

  /** What the hook does with a dial request: dial `addr` on `network`,
      return the lookup error without dialing, or panic on `ip[0]` when the
      lookup succeeded with no address. */
  datatype DialOutcome = Dialed(network: string, addr: string) | DialFailed(err: string) | IndexPanic

  /** `net.ParseIP(x).String()`. `parseIP` gives the canonical text of the
      parsed address, or None where Go's `ParseIP` returns nil, whose
      `String()` is "<nil>". */
  function ParsedText(parseIP: string -> Option<string>, x: string): string
  {
    match parseIP(x)
    case Some(text) => text
    case None => "<nil>"
  }

  /** The hook's trigger: `net.ParseIP(x).String() == x`. */
  predicate IsCanonicalIP(parseIP: string -> Option<string>, x: string)
  {
    ParsedText(parseIP, x) == x
  }

  /** The body of the installed `DialContext` for `servers`. The lookup
      `lookup(servers, retries, host)` stands for `dns_resolver.New(servers)`
      with `RetryTimes` set, followed by `LookupHost(host)`.

      The result is stated on the text itself: the host is the text before
      the first ':'; it is either left alone, with the whole address dialed
      as given, or replaced by the first resolved address, with everything
      from the first ':' on (the port, and any further ':' pieces) kept. */
  function DialAddress(servers: seq<string>, network: string, addr: string,
                       parseIP: string -> Option<string>,
                       lookup: (seq<string>, int, string) -> Lookup): (d: DialOutcome)
    ensures !IsCanonicalIP(parseIP, Split(addr, ':')[0]) ==> d == Dialed(network, addr)
    ensures IsCanonicalIP(parseIP, Split(addr, ':')[0]) ==>
      var res := lookup(servers, ResolverRetryTimes, Split(addr, ':')[0]);
      && (res.LookupFailed? ==> d == DialFailed(res.err))
      && (res.Resolved? && res.ips == [] ==> d == IndexPanic)
      && (res.Resolved? && res.ips != [] ==> d == Dialed(network, res.ips[0] + addr[|Split(addr, ':')[0]|..]))
  {
    var remote := Split(addr, ':');
    JoinSplit(addr, ':');
    if ParsedText(parseIP, remote[0]) == remote[0] then
      match lookup(servers, ResolverRetryTimes, remote[0])
      case LookupFailed(e) => DialFailed(e)
      case Resolved(ips) =>
        if ips == [] then IndexPanic
        else
          JoinReplaceHead(remote, ips[0], ':');
          Dialed(network, Join([ips[0]] + remote[1..], ':'))
    else
      Dialed(network, Join(remote, ':'))
  }

  /** For an address `host:port` whose host is a canonical literal IP that
      resolves, the hook dials the first resolved address on the same port. */
  lemma DialKeepsPort(servers: seq<string>, network: string, host: string, port: string,
                      parseIP: string -> Option<string>,
                      lookup: (seq<string>, int, string) -> Lookup)
    requires ':' !in host && IsCanonicalIP(parseIP, host)
    requires lookup(servers, ResolverRetryTimes, host).Resolved?
    requires lookup(servers, ResolverRetryTimes, host).ips != []
    ensures DialAddress(servers, network, host + ":" + port, parseIP, lookup) ==
      Dialed(network, lookup(servers, ResolverRetryTimes, host).ips[0] + ":" + port)
  {
    var addr := host + ":" + port;
    assert addr == host + (":" + port);
    SplitFirst(host, ":" + port, ':');
    var ips := lookup(servers, ResolverRetryTimes, host).ips;
    assert Split(addr, ':')[0] == host;
    var d := DialAddress(servers, network, addr, parseIP, lookup);
    assert d == Dialed(network, ips[0] + addr[|host|..]);
    assert addr[|host|..] == ":" + port;
    assert ips[0] + ":" + port == ips[0] + (":" + port);
  }

  /** The text "<nil>", which no parser accepts as an address, passes the
      trigger: it is what a nil `net.IP` prints as. */
  lemma NilTextTriggers(parseIP: string -> Option<string>)
    requires parseIP("<nil>").None?
    ensures IsCanonicalIP(parseIP, "<nil>")
  {
  }

  /** A host name (any host that does not parse as an address, other than
      the text "<nil>") is never looked up: the hook dials `host:port` as
      given. */
  lemma HostNameDialedUnchanged(servers: seq<string>, network: string, host: string, port: string,
                                parseIP: string -> Option<string>,
                                lookup: (seq<string>, int, string) -> Lookup)
    requires ':' !in host && parseIP(host).None? && host != "<nil>"
    ensures DialAddress(servers, network, host + ":" + port, parseIP, lookup) == Dialed(network, host + ":" + port)
  {
    assert host + ":" + port == host + (":" + port);
    SplitFirst(host, ":" + port, ':');
  }

  /** Replacing a ':'-free host by a ':'-free address leaves every
      ':'-separated piece after the host as it was. */
  lemma ReplacedHostKeepsPieces(host: string, ip: string, port: string)
    requires ':' !in host && ':' !in ip
    ensures Split(ip + ":" + port, ':')[1..] == Split(host + ":" + port, ':')[1..]
  {
    assert ip + ":" + port == ip + [':'] + port;
    assert host + ":" + port == host + [':'] + port;
    SplitPrefix(ip, port, ':');
    SplitPrefix(host, port, ':');
  }

  /** `http.DefaultTransport`, as far as dialing goes: either the stock
      dialer or the hook installed for a list of DNS servers. */
  class DefaultTransport {
    var dnsServers: Option<seq<string>>

    constructor ()
      ensures dnsServers == None
    {
      dnsServers := None;
    }

    /** Dialing through the default transport: unchanged without a hook,
        through the hook otherwise. */
    function Dial(network: string, addr: string, parseIP: string -> Option<string>,
                  lookup: (seq<string>, int, string) -> Lookup): DialOutcome
      reads this
    {
      match dnsServers
      case None => Dialed(network, addr)
      case Some(servers) => DialAddress(servers, network, addr, parseIP, lookup)
    }
  }
}
