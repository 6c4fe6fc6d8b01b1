/** The parts of Go's `net/http` and `net/url` that the proxy reads and
    writes: the request URL, the header map, the request itself (updated in
    place by the proxy) and the response writer handed to it by the server. */
module Http {
  import opened Wrappers

  newtype byte = x: int | 0 <= x < 256

  /** The fields of `url.URL` the proxy uses. */
  datatype Url = Url(scheme: string, host: string, path: string, rawQuery: string)

  /** `http.Header`: canonical header name to its list of values. Keys are
      taken to be in canonical form already, as every name the proxy uses is. */
  type Header = map<string, seq<string>>

  /** `Header.Get`: the first value stored under `key`, or "" when there is none. */
  function HeaderGet(h: Header, key: string): string
  {
    if key in h && h[key] != [] then h[key][0] else ""
  }

  /** `Header.Set`: `key` now holds the single value `v`. */
  function HeaderSet(h: Header, key: string, v: string): (h': Header)
    ensures h'.Keys == h.Keys + {key}
  {
    h[key := [v]]
  }

  /** After a Set, Get of that key gives the value set and Get of every other
      key is unaffected. */
  lemma HeaderSetGet(h: Header, key: string, v: string, other: string)
    ensures HeaderGet(HeaderSet(h, key, v), key) == v
    ensures other != key ==> HeaderGet(HeaderSet(h, key, v), other) == HeaderGet(h, other)
  {
  }

  /** `http.Request`, reduced to the fields the proxy reads or changes. */
  class Request {
    var url: Url
    var host: string
    var header: Header
    var verb: string  // `Request.Method`
    var remoteAddr: string

    constructor (url: Url, host: string, header: Header, verb: string, remoteAddr: string)
      ensures this.url == url && this.host == host && this.header == header
      ensures this.verb == verb && this.remoteAddr == remoteAddr
    {
      this.url := url;
      this.host := host;
      this.header := header;
      this.verb := verb;
      this.remoteAddr := remoteAddr;
    }
  }

  /** One call made on a response writer. */
  datatype WriterCall = WriteHeaderCall(status: int) | WriteCall(body: seq<byte>)

  /** What one `Write` returned. */
  datatype WriteReply = WriteReply(n: int, err: Option<string>)

  /** The server's `http.ResponseWriter`, seen from outside: every call made
      on it, and every reply its `Write` gave, in order. */
  class Sink {
    var calls: seq<WriterCall>
    var replies: seq<WriteReply>

    constructor ()
      ensures calls == [] && replies == []
    {
      calls := [];
      replies := [];
    }

    method WriteHeader(status: int)
      modifies this
      ensures calls == old(calls) + [WriteHeaderCall(status)]
      ensures replies == old(replies)
    {
      calls := calls + [WriteHeaderCall(status)];
    }

    /** Only the `io.Writer` contract is promised: at most `|b|` bytes are
        reported written, and a short write comes with an error. */
    method Write(b: seq<byte>) returns (n: int, err: Option<string>)
      modifies this
      ensures calls == old(calls) + [WriteCall(b)]
      ensures replies == old(replies) + [WriteReply(n, err)]
      ensures 0 <= n <= |b|
      ensures n < |b| ==> err.Some?
    {
      n, err := |b|, None;
      calls := calls + [WriteCall(b)];
      replies := replies + [WriteReply(n, err)];
    }
  }
}
