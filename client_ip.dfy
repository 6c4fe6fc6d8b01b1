/** `clientIP` (reverse-proxy/reverse-proxy.go): the address logged as the
    request's origin, taken from the forwarding headers before the peer
    address. */
module ClientAddress {
  import opened Wrappers
  import opened GoStrings
  import opened Http

  const ForwardedFor := "X-Forwarded-For"
  const RealIp := "X-Real-Ip"

  /** The first comma-separated entry of `X-Forwarded-For`, trimmed. */
  function ForwardedEntry(h: Header): (entry: string)
    ensures IsTrimmed(entry)
    ensures entry == "" <==> AllSpace(Split(HeaderGet(h, ForwardedFor), ',')[0])
  {
    TrimSpace(Split(HeaderGet(h, ForwardedFor), ',')[0])
  }

  /** `clientIP(r)`. `splitHostPort` stands for `net.SplitHostPort` and gives
      the host part, or None when the address does not parse. */
  function ClientIP(h: Header, remoteAddr: string, splitHostPort: string -> Option<string>): (ip: string)
    ensures ip == "" ==>
      ForwardedEntry(h) == "" && TrimSpace(HeaderGet(h, RealIp)) == "" &&
      (splitHostPort(TrimSpace(remoteAddr)).None? || splitHostPort(TrimSpace(remoteAddr)) == Some(""))
  {
    var forwarded := ForwardedEntry(h);
    var ip := if forwarded == "" then TrimSpace(HeaderGet(h, RealIp)) else forwarded;
    if ip != "" then ip
    else
      match splitHostPort(TrimSpace(remoteAddr))
      case Some(host) => host
      case None => ""
  }

  /** When the text before the first comma of `X-Forwarded-For` holds
      anything besides white space, that text, trimmed, is the client
      address; `X-Real-Ip` and the peer address are not consulted. */
  lemma ForwardedForWins(h: Header, entry: string, tail: string, remoteAddr: string,
                         splitHostPort: string -> Option<string>)
    requires HeaderGet(h, ForwardedFor) == entry + tail
    requires ',' !in entry && (tail == [] || tail[0] == ',')
    requires !AllSpace(entry)
    ensures ClientIP(h, remoteAddr, splitHostPort) == TrimSpace(entry)
    ensures ClientIP(h, remoteAddr, splitHostPort) != "" && IsTrimmed(ClientIP(h, remoteAddr, splitHostPort))
  {
    SplitFirst(entry, tail, ',');
  }

  /** When the first entry of `X-Forwarded-For` is blank (or the header is
      absent), a non-blank `X-Real-Ip`, trimmed, is the client address, even
      if later `X-Forwarded-For` entries are not blank. */
  lemma RealIpSecond(h: Header, entry: string, tail: string, remoteAddr: string,
                     splitHostPort: string -> Option<string>)
    requires HeaderGet(h, ForwardedFor) == entry + tail
    requires ',' !in entry && (tail == [] || tail[0] == ',')
    requires AllSpace(entry)
    requires !AllSpace(HeaderGet(h, RealIp))
    ensures ClientIP(h, remoteAddr, splitHostPort) == TrimSpace(HeaderGet(h, RealIp))
    ensures ClientIP(h, remoteAddr, splitHostPort) != "" && IsTrimmed(ClientIP(h, remoteAddr, splitHostPort))
  {
    SplitFirst(entry, tail, ',');
  }

  /** With both headers blank, the client address is the host part of the
      trimmed peer address, or "" when that does not split. */
  lemma RemoteAddrLast(h: Header, entry: string, tail: string, remoteAddr: string,
                       splitHostPort: string -> Option<string>)
    requires HeaderGet(h, ForwardedFor) == entry + tail
    requires ',' !in entry && (tail == [] || tail[0] == ',')
    requires AllSpace(entry) && AllSpace(HeaderGet(h, RealIp))
    ensures ClientIP(h, remoteAddr, splitHostPort) ==
      match splitHostPort(TrimSpace(remoteAddr))
      case Some(host) => host
      case None => ""
  {
    SplitFirst(entry, tail, ',');
  }

  /** Setting any header other than the two it reads leaves the client
      address as it was; in particular the `X-Forwarded-Host` that the
      backend rewrite sets before the address is computed. */
  lemma ClientIPIgnoresOtherHeaders(h: Header, key: string, v: string, remoteAddr: string,
                                    splitHostPort: string -> Option<string>)
    requires key != ForwardedFor && key != RealIp
    ensures ClientIP(HeaderSet(h, key, v), remoteAddr, splitHostPort) == ClientIP(h, remoteAddr, splitHostPort)
  {
    var h' := HeaderSet(h, key, v);
    HeaderSetGet(h, key, v, ForwardedFor);
    HeaderSetGet(h, key, v, RealIp);
    assert ForwardedEntry(h') == ForwardedEntry(h);
    assert HeaderGet(h', RealIp) == HeaderGet(h, RealIp);
  }
}
