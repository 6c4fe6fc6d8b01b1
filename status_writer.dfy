/** `statusWriter` (reverse-proxy/reverse-proxy.go): a response writer that
    passes every call through to the server's writer and remembers the
    status code of the response for the log line. */
module StatusCapture {
  import opened Wrappers
  import opened Http

  /** The recorded status after one more call, starting from `status`:
      WriteHeader records its code, Write defaults a still-unset (0)
      status to 200. */
  function Step(status: int, call: WriterCall): int
  {
    match call
    case WriteHeaderCall(s) => s
    case WriteCall(_) => if status == 0 then 200 else status
  }

  /** The recorded status after `calls`, starting from the zero value: it
      is never invented, only the zero value, the 200 default or a code some
      WriteHeader call passed. */
  function Captured(calls: seq<WriterCall>): (status: int)
    ensures status == 0 || status == 200 ||
      exists k :: 0 <= k < |calls| && calls[k] == WriteHeaderCall(status)
  {
    if calls == [] then 0 else Step(Captured(calls[..|calls| - 1]), calls[|calls| - 1])
  }

  /** Without any WriteHeader call the recorded status is 0 if nothing was
      written and 200 once anything was. */
  lemma {:induction false} CapturedWithoutHeader(calls: seq<WriterCall>)
    requires forall j :: 0 <= j < |calls| ==> calls[j].WriteCall?
    ensures Captured(calls) == if calls == [] then 0 else 200
  {
    if calls != [] {
      var init := calls[..|calls| - 1];
      CapturedWithoutHeader(init);
    }
  }

  /** The recorded status is that of the last WriteHeader call, whatever was
      recorded before it (a defaulted 200 included); only a code of 0
      followed by a Write turns into 200. */
  lemma {:induction false} CapturedAfterLastHeader(calls: seq<WriterCall>, k: nat)
    requires k < |calls| && calls[k].WriteHeaderCall?
    requires forall j :: k < j < |calls| ==> calls[j].WriteCall?
    ensures Captured(calls) ==
      if calls[k].status == 0 && k < |calls| - 1 then 200 else calls[k].status
  {
    if k < |calls| - 1 {
      var init := calls[..|calls| - 1];
      CapturedAfterLastHeader(init, k);
    }
  }

  class StatusWriter {
    /** The embedded `http.ResponseWriter`. */
    const inner: Sink
    var status: int
    /** Every call made on this writer so far. */
    ghost var calls: seq<WriterCall>

    ghost predicate Valid()
      reads this
    {
      status == Captured(calls)
    }

    /** `&statusWriter{ResponseWriter: w}`: status starts at Go's zero value. */
    constructor (w: Sink)
      ensures Valid() && inner == w && status == 0 && calls == []
    {
      inner := w;
      status := 0;
      calls := [];
    }

    /** Records `s`, overwriting any earlier status, and forwards it. */
    method WriteHeader(s: int)
      requires Valid()
      modifies this, inner
      ensures Valid() && calls == old(calls) + [WriteHeaderCall(s)]
      ensures status == s
      ensures inner.calls == old(inner.calls) + [WriteHeaderCall(s)]
      ensures inner.replies == old(inner.replies)
    {
      status := s;
      calls := calls + [WriteHeaderCall(s)];
      inner.WriteHeader(s);
    }

    /** Defaults the status to 200 when none is recorded yet, forwards the
        bytes and returns exactly what the inner writer returned. */
    method Write(b: seq<byte>) returns (n: int, err: Option<string>)
      requires Valid()
      modifies this, inner
      ensures Valid() && calls == old(calls) + [WriteCall(b)]
      ensures status == if old(status) == 0 then 200 else old(status)
      ensures inner.calls == old(inner.calls) + [WriteCall(b)]
      ensures inner.replies == old(inner.replies) + [WriteReply(n, err)]
    {
      if status == 0 {
        status := 200;
      }
      calls := calls + [WriteCall(b)];
      assert calls[..|calls| - 1] == old(calls);
      n, err := inner.Write(b);
    }
  }

  /** The HTTP forwarding of one response through a status writer: the
      backend's response, given as the calls it makes, is played onto `sw`
      in order (what `httputil.ReverseProxy.ServeHTTP(sw, r)` does). */
  method ForwardThrough(sw: StatusWriter, response: seq<WriterCall>)
    requires sw.Valid()
    modifies sw, sw.inner
    ensures sw.Valid() && sw.calls == old(sw.calls) + response
    ensures sw.inner.calls == old(sw.inner.calls) + response
    ensures |sw.inner.replies| >= |old(sw.inner.replies)|
  {
    var i := 0;
    while i < |response|
      invariant 0 <= i <= |response|
      invariant sw.Valid() && sw.calls == old(sw.calls) + response[..i]
      invariant sw.inner.calls == old(sw.inner.calls) + response[..i]
      invariant |sw.inner.replies| >= |old(sw.inner.replies)|
    {
      match response[i] {
        case WriteHeaderCall(s) =>
          sw.WriteHeader(s);
        case WriteCall(b) =>
          var n, err := sw.Write(b);
      }
      assert response[..i + 1] == response[..i] + [response[i]];
      i := i + 1;
    }
    assert response[..i] == response;
  }

  /** The same forwarding straight onto the server's writer. */
  method ForwardDirect(w: Sink, response: seq<WriterCall>)
    modifies w
    ensures w.calls == old(w.calls) + response
    ensures |w.replies| >= |old(w.replies)|
  {
    var i := 0;
    while i < |response|
      invariant 0 <= i <= |response|
      invariant w.calls == old(w.calls) + response[..i]
      invariant |w.replies| >= |old(w.replies)|
    {
      match response[i] {
        case WriteHeaderCall(s) =>
          w.WriteHeader(s);
        case WriteCall(b) =>
          var n, err := w.Write(b);
      }
      assert response[..i + 1] == response[..i] + [response[i]];
      i := i + 1;
    }
    assert response[..i] == response;
  }
}
