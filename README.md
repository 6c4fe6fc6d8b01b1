# Request bookkeeping of a load-balancing reverse proxy

This project models, in Dafny, the request-handling rules of the Go package
`rp` (`reverse-proxy/reverse-proxy.go`). The package forwards each inbound
HTTP request to one of several weighted backends. The model covers:

- **Client address** (`ClientAddress`): `clientIP` takes the first
  comma-separated entry of `X-Forwarded-For`, trimmed. If that is empty it
  takes `X-Real-Ip`, trimmed. If that is empty too, it takes the host part of
  the trimmed peer address, or `""`. `Split`, `Join` and `TrimSpace` follow
  Go's `strings` package (`GoStrings`).
- **Status capture** (`StatusCapture`): `statusWriter` remembers the
  response status. `WriteHeader` always records its code. `Write` records
  200 only while nothing is recorded (status 0). Both pass the call through
  to the server's writer unchanged. The recorded status after any sequence
  of calls is characterised by two lemmas.
- **DNS override hook** (`DnsOverride`): the `DialContext` closure that
  `ChangeDNS` installs. It splits the address on `':'`. When the first piece
  is already the canonical text of a literal IP, it is replaced with the
  first address the lookup returns, and the pieces are joined again. This is
  the trigger as written: host names are never looked up.
- **Backend rewrite and orchestration** (`Proxy`): `proxyConnection.ServeHTTP`
  points the request at the backend and sets `X-Forwarded-Host`.
  `ReverseProxy` provides `Add`, `Log`, `ChangeDNS`, the `ListenAndServe`
  start check, and `ServeHTTP` with its log entry.

Objects that the Go code updates in place are classes: the request, the
status writer, the connection, the proxy and the default transport. The
string and address computations are functions with lemmas.

Foreign calls are parameters. These are `net.ParseIP(..).String()`, the
resolver's `LookupHost`, `net.SplitHostPort`, and the calls the HTTP
forwarder makes on the response writer.

Three points where the code differs from a plain reading of its design:

- `net.ParseIP(x)` returns nil for a host name, and nil prints as `"<nil>"`.
  So the hook fires for literal IPs and never for host names
  (`DnsOverride.HostNameDialedUnchanged`). It also fires for the literal text
  `"<nil>"` (`DnsOverride.NilTextTriggers`).
- When a lookup succeeds with no address, `ip[0]` panics
  (`DnsOverride.DialOutcome.IndexPanic`).
- `proxyConnection.ServeHTTP` installs a fresh `http.Transport` with its own
  dialer before every forward (lines 33-43). So backend connections never go
  through the hook that `ChangeDNS` puts on `http.DefaultTransport`
  (`Proxy.OverrideBypassed`). In the same way, `X-Forwarded-Host`
  gets the header map's `"Host"` entry (line 31), not `r.Host`. The model
  follows the code on both points.

## Model

| member | source | states |
|---|---|---|
| `GoStrings.Split` | reverse-proxy/reverse-proxy.go:80 | there is at least one piece; no piece contains the separator; the first piece is the prefix up to the first separator; there is one piece exactly when the separator does not occur |
| `GoStrings.Join` | reverse-proxy/reverse-proxy.go:90 | the first piece begins the result and, when there are more pieces, is followed by the separator |
| `GoStrings.JoinSplit` | reverse-proxy/reverse-proxy.go:80-90 | joining the pieces of a split with the same separator gives back the original address |
| `GoStrings.SplitJoin` | reverse-proxy/reverse-proxy.go:80-90 | splitting a join of separator-free pieces gives back the pieces |
| `GoStrings.SplitFirst` | reverse-proxy/reverse-proxy.go:162 | the first piece is the separator-free text before the first separator, or the whole string |
| `GoStrings.JoinReplaceHead` | reverse-proxy/reverse-proxy.go:88-90 | replacing the first piece changes only the text before the first separator |
| `GoStrings.IsSpace` | reverse-proxy/reverse-proxy.go:162-164 | definition of `unicode.IsSpace`: tab, newline, vertical tab, form feed, carriage return, space, U+0085, U+00A0 and the Unicode White_Space characters above Latin-1; its use is stated by the `TrimSpace` rows |
| `GoStrings.TrimSpace` | reverse-proxy/reverse-proxy.go:162-164 | the result starts and ends with non-space; it is empty exactly when the input is all white space |
| `GoStrings.TrimSpaceExact` | reverse-proxy/reverse-proxy.go:162-164 | for any split of the input into all-space prefix, trimmed non-empty middle and all-space suffix, TrimSpace returns the middle |
| `GoStrings.TrimSpaceIdempotent` | reverse-proxy/reverse-proxy.go:162-164 | trimming twice equals trimming once |
| `Http.HeaderGet` | reverse-proxy/reverse-proxy.go:161 | definition of `Header.Get`: the first value under the key, or `""`; what it returns after a Set is stated by `Http.HeaderSetGet` |
| `Http.HeaderSet` | reverse-proxy/reverse-proxy.go:31 | the key is present afterwards and no other key is added or removed |
| `Http.HeaderSetGet` | reverse-proxy/reverse-proxy.go:31 | after `Header.Set`, `Get` of that key returns the value set, and every other key is unchanged |
| `ClientAddress.ForwardedEntry` | reverse-proxy/reverse-proxy.go:161-162 | the entry is trimmed, and it is empty exactly when the text before the first comma of `X-Forwarded-For` is all white space |
| `ClientAddress.ClientIP` | reverse-proxy/reverse-proxy.go:160-175 | the result is `""` only when both header candidates trim to empty and the peer address gives no host, or an empty one |
| `ClientAddress.ForwardedForWins` | reverse-proxy/reverse-proxy.go:161-168 | a non-blank first `X-Forwarded-For` entry, trimmed, is the result; `X-Real-Ip` and the peer address are not consulted; the result is non-empty and trimmed |
| `ClientAddress.RealIpSecond` | reverse-proxy/reverse-proxy.go:162-168 | if the first `X-Forwarded-For` entry is blank, a non-blank `X-Real-Ip`, trimmed, is the result, even when later entries are not blank |
| `ClientAddress.RemoteAddrLast` | reverse-proxy/reverse-proxy.go:162-174 | if both headers are blank, the result is the host from `SplitHostPort(TrimSpace(RemoteAddr))`, or `""` when that fails |
| `ClientAddress.ClientIPIgnoresOtherHeaders` | reverse-proxy/reverse-proxy.go:129-134 | setting any header other than the two that are read (such as `X-Forwarded-Host` in the rewrite) leaves the client address unchanged |
| `StatusCapture.Captured` | reverse-proxy/reverse-proxy.go:108-116 | the recorded status is never invented: it is 0, the 200 default, or a code that some WriteHeader call passed |
| `StatusCapture.CapturedWithoutHeader` | reverse-proxy/reverse-proxy.go:113-116 | without WriteHeader calls, the status is 0 before any write and 200 after one |
| `StatusCapture.CapturedAfterLastHeader` | reverse-proxy/reverse-proxy.go:108-116 | the status is the code of the last WriteHeader call, overriding a defaulted 200; a code of 0 followed by a Write becomes 200 |
| `StatusCapture.StatusWriter.constructor` | reverse-proxy/reverse-proxy.go:128 | wraps the given writer with status 0 |
| `StatusCapture.StatusWriter.WriteHeader` | reverse-proxy/reverse-proxy.go:108-111 | records `s` whatever was recorded before, and forwards `s` unchanged to the inner writer |
| `StatusCapture.StatusWriter.Write` | reverse-proxy/reverse-proxy.go:113-119 | sets 200 only when the status is still 0, otherwise keeps it; forwards the bytes; returns exactly the inner writer's `(n, err)` |
| `StatusCapture.ForwardThrough` | reverse-proxy/reverse-proxy.go:129 | the backend's calls reach the client's writer unchanged and in order; the recorded status is that of the whole call sequence |
| `StatusCapture.ForwardDirect` | reverse-proxy/reverse-proxy.go:150 | without logging, the backend's calls reach the client's writer unchanged and in order |
| `DnsOverride.IsCanonicalIP` | reverse-proxy/reverse-proxy.go:81 | definition of the trigger `net.ParseIP(x).String() == x`, with a failed parse printing as `"<nil>"`; its consequences are stated by `NilTextTriggers` and `HostNameDialedUnchanged` |
| `DnsOverride.NilTextTriggers` | reverse-proxy/reverse-proxy.go:81 | the text `"<nil>"`, which does not parse, still passes the trigger, because a nil address prints as `"<nil>"` |
| `DnsOverride.HostNameDialedUnchanged` | reverse-proxy/reverse-proxy.go:80-91 | a host name (any host other than `"<nil>"` that does not parse as an address) is never looked up: `host:port` is dialed as given |
| `DnsOverride.DialAddress` | reverse-proxy/reverse-proxy.go:79-92 | a host that is not canonical IP text is dialed unchanged; otherwise a lookup error is returned without dialing, an empty answer panics, and a non-empty answer replaces the host with its first address and keeps everything from the first `':'` on |
| `DnsOverride.DialKeepsPort` | reverse-proxy/reverse-proxy.go:80-91 | for `host:port` with a canonical IP host that resolves, the hook dials the first resolved address on the same port |
| `DnsOverride.ReplacedHostKeepsPieces` | reverse-proxy/reverse-proxy.go:88-90 | replacing the host leaves every `':'`-separated piece after it as it was |
| `Proxy.ProxyConnection.constructor` | reverse-proxy/reverse-proxy.go:48-54 | the connection carries the given target and weight and starts on the default transport |
| `Proxy.ProxyConnection.ServeHTTP` | reverse-proxy/reverse-proxy.go:27-43 | URL host and `Host` become the target host; URL scheme becomes the target scheme; `X-Forwarded-Host` becomes the prior `"Host"` header-map value; nothing else in the request changes; a fixed transport is installed |
| `Proxy.OverrideBypassed` | reverse-proxy/reverse-proxy.go:33-45 | once a connection's own transport is installed, a backend whose canonical IP host the DNS override would rewrite to a different address is dialed at its own `host:port`, which differs from what the default transport with the override would dial |
| `Proxy.LoggedPath` | reverse-proxy/reverse-proxy.go:125-138 | the logged path is `Path` when the query is empty; otherwise it is exactly `Path`, then `'?'`, then the query, with nothing else |
| `Proxy.LoggedPathRoundTrip` | reverse-proxy/reverse-proxy.go:136-138 | when `Path` has no `'?'`, path and query are recovered from the logged path |
| `Proxy.ReverseProxy.constructor` | reverse-proxy/reverse-proxy.go:61-65 | a new proxy has no connections and logging off |
| `Proxy.ReverseProxy.ChangeDNS` | reverse-proxy/reverse-proxy.go:67-92 | an empty server list changes nothing; otherwise the default transport dials through the hook for exactly these servers |
| `Proxy.ReverseProxy.Log` | reverse-proxy/reverse-proxy.go:95-97 | the logging flag becomes `mode` |
| `Proxy.ReverseProxy.Add` | reverse-proxy/reverse-proxy.go:99-101 | appends exactly one fresh connection with the given target and weight; earlier connections stay as they were |
| `Proxy.ReverseProxy.ListenAndServe` | reverse-proxy/reverse-proxy.go:153-158 | refuses with "not enough remote addresses" exactly when no connection is registered |
| `Proxy.ReverseProxy.ServeHTTP` | reverse-proxy/reverse-proxy.go:121-151 | the request is rewritten for the chosen backend, with its method and peer address left as they were; the client's writer receives the backend's calls unchanged; with logging on, the entry holds the captured status, the client address of the original headers, the method, the logged path and the backend; with logging off, there is no entry |

## Left out

- The round-robin scheduler (`roundRobin`, `newRoundRobin`, `Add`, `Get`) is outside this model. Its connection list is the `conns` field. The backend `Get` returns is an index argument of `ServeHTTP`. Weights are stored but not used.
- Proxy.ReverseProxy.ServeHTTP: requires the chosen index to be a registered connection. This stands for the scheduler returning a registered backend. What `Get` does on an empty list is not modelled; the scheduler is outside this model.
- Proxy.ReverseProxy.ServeHTTP: the forwarder is assumed to make the same writer calls on the status wrapper as on the client's writer. `Flush` and `Hijack` are not modelled. With logging on, the wrapper embeds only the `http.ResponseWriter` interface (reverse-proxy/reverse-proxy.go:103-106), so it hides them: protocol upgrades and streaming flushes are not covered.
- `httputil.ReverseProxy` forwarding is not modelled: its Director, connection pooling and copying. The backend's response is a parameter, the sequence of writer calls the forwarder makes.
- The `http.Transport` settings are recorded only as a constant (`Proxy.BackendTransport`). The transport's behaviour and timeouts are library code.
- The DNS lookup, `net.Dialer`, `net.ParseIP` and `net.SplitHostPort` are function parameters. Dialing is an outcome value (`DialOutcome.Dialed`), not a connection.
- The hook's `ctx` argument is not modelled. `http.DefaultTransport` is an explicit object passed to `ChangeDNS`, not process-global state.
- `time.Now`, the latency and the formatting of `log.Printf` and `log.Println` are left out. The log entry holds the fields, without the latency.
- `http.ListenAndServe` is network I/O. It is the `Serving` outcome.
- `proxyConnection.String` (URL serialisation) is left out. The log entry carries the target URL itself.
- Header names are assumed to be canonical already: `CanonicalMIMEHeaderKey` is not modelled. Every name the code uses is canonical.
- Strings are sequences of Unicode characters, not UTF-8 bytes. Invalid UTF-8 handling in `TrimSpace` is not modelled.
- `r.URL` is a pointer in Go. Here it is a value field of the request, so aliasing between the request URL and the target URL is not modelled.
- The server's `ResponseWriter` is a recorder (`Http.Sink`). Only the `io.Writer` contract is promised for its replies. Panics on invalid status codes are not modelled.
- Concurrent request handling is not modelled. This includes the unsynchronised reassignment of the forwarder's transport on every request.
- `main.go` (command-line glue) and `extra/probe.go` (a standalone health-check client) are not part of this model.
