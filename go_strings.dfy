/** The three functions of Go's `strings` package that the proxy relies on:
    `Split` and `Join` with a one-character separator, and `TrimSpace`.
    Strings are sequences of Unicode scalar values (Go's UTF-8 decoding is
    not modelled). */
module GoStrings {

  /** `unicode.IsSpace`: the Latin-1 spaces and the Unicode White_Space
      characters outside Latin-1. */
  predicate IsSpace(c: char)
  {
    var n := c as int;
    n == 0x09 || n == 0x0A || n == 0x0B || n == 0x0C || n == 0x0D || n == 0x20 ||
    n == 0x85 || n == 0xA0 || n == 0x1680 || (0x2000 <= n <= 0x200A) ||
    n == 0x2028 || n == 0x2029 || n == 0x202F || n == 0x205F || n == 0x3000
  }

  predicate AllSpace(s: string)
  {
    forall i :: 0 <= i < |s| ==> IsSpace(s[i])
  }

  /** Neither begins nor ends with white space. */
  predicate IsTrimmed(s: string)
  {
    s == [] || (!IsSpace(s[0]) && !IsSpace(s[|s| - 1]))
  }

  /** The number of white-space characters at the front of `s`. */
  function LeadingSpace(s: string): (k: nat)
    ensures k <= |s|
    ensures forall i :: 0 <= i < k ==> IsSpace(s[i])
    ensures k < |s| ==> !IsSpace(s[k])
  {
    if s == [] || !IsSpace(s[0]) then 0
    else 1 + LeadingSpace(s[1..])
  }

  /** The number of white-space characters at the end of `s`. */
  function TrailingSpace(s: string): (k: nat)
    ensures k <= |s|
    ensures forall i :: |s| - k <= i < |s| ==> IsSpace(s[i])
    ensures k < |s| ==> !IsSpace(s[|s| - k - 1])
  {
    if s == [] || !IsSpace(s[|s| - 1]) then 0
    else 1 + TrailingSpace(s[..|s| - 1])
  }

  /** `strings.TrimSpace`: `s` without its leading and trailing white space. */
  function TrimSpace(s: string): (r: string)
    ensures IsTrimmed(r)
    ensures |r| <= |s|
    ensures r == [] <==> AllSpace(s)
  {
    var i := LeadingSpace(s);
    var t := s[i..];
    var j := TrailingSpace(t);
    assert i < |s| ==> !IsSpace(t[0]) && t[|t| - |t|..] == t;
    assert AllSpace(s) ==> i == |s|;
    assert i == |s| ==> s == s[..i];
    t[..|t| - j]
  }

  /** TrimSpace removes exactly the white space around the text: whenever
      `s` is some all-space prefix, a trimmed non-empty middle and an
      all-space suffix, the middle is what TrimSpace returns. */
  lemma TrimSpaceExact(pre: string, mid: string, post: string)
    requires AllSpace(pre) && AllSpace(post)
    requires mid != [] && IsTrimmed(mid)
    ensures TrimSpace(pre + mid + post) == mid
  {
    var s := pre + mid + post;
    var i := LeadingSpace(s);
    assert s[|pre|] == mid[0];
    assert i == |pre|;
    var t := s[i..];
    assert t == mid + post;
    var j := TrailingSpace(t);
    assert t[|t| - |post| - 1] == mid[|mid| - 1];
    assert j == |post|;
    assert t[..|t| - j] == mid;
  }

  /** Trimming twice is trimming once. */
  lemma TrimSpaceIdempotent(s: string)
    ensures TrimSpace(TrimSpace(s)) == TrimSpace(s)
  {
  }

  /** `strings.Split(s, string(sep))`: the pieces of `s` between occurrences
      of `sep`; there is always at least one piece. */
  function Split(s: string, sep: char): (parts: seq<string>)
    ensures |parts| >= 1
    ensures forall i :: 0 <= i < |parts| ==> sep !in parts[i]
    ensures parts[0] <= s
    ensures |parts[0]| < |s| ==> s[|parts[0]|] == sep
    ensures |parts| == 1 <==> sep !in s
  {
    if s == [] then [""]
    else
      var rest := Split(s[1..], sep);
      if s[0] == sep then [""] + rest
      else
        [[s[0]] + rest[0]] + rest[1..]
  }

  /** `strings.Join(parts, string(sep))`. */
  function Join(parts: seq<string>, sep: char): (s: string)
    requires |parts| >= 1
    ensures parts[0] <= s
    ensures |parts| > 1 ==> |parts[0]| < |s| && s[|parts[0]|] == sep
  {
    if |parts| == 1 then parts[0]
    else parts[0] + [sep] + Join(parts[1..], sep)
  }

  /** Joining the pieces of a split with the same separator gives the
      original string back. */
  lemma {:induction false} JoinSplit(s: string, sep: char)
    ensures Join(Split(s, sep), sep) == s
  {
    if s != [] {
      var rest := Split(s[1..], sep);
      JoinSplit(s[1..], sep);
      if s[0] == sep {
        assert Split(s, sep)[1..] == rest;
      } else {
        var parts := Split(s, sep);
        if |rest| > 1 {
          assert parts[1..] == rest[1..];
          assert Join(rest, sep) == rest[0] + [sep] + Join(rest[1..], sep);
        }
      }
    }
  }

  /** Splitting a join of separator-free pieces gives the pieces back. */
  lemma {:induction false} SplitJoin(parts: seq<string>, sep: char)
    requires |parts| >= 1
    requires forall i :: 0 <= i < |parts| ==> sep !in parts[i]
    ensures Split(Join(parts, sep), sep) == parts
  {
    var h := parts[0];
    if |parts| == 1 {
      SplitFree(h, sep);
    } else {
      SplitJoin(parts[1..], sep);
      SplitPrefix(h, Join(parts[1..], sep), sep);
      assert Join(parts, sep) == h + ([sep] + Join(parts[1..], sep));
    }
  }

  /** The first piece of a split is the text up to the first separator:
      whatever separator-free `head` is followed by the separator or by
      nothing. */
  lemma SplitFirst(head: string, tail: string, sep: char)
    requires sep !in head
    requires tail == [] || tail[0] == sep
    ensures Split(head + tail, sep)[0] == head
  {
    var s := head + tail;
    var p := Split(s, sep)[0];
    assert forall k :: 0 <= k < |head| ==> s[k] == head[k];
    assert |head| < |s| ==> s[|head|] == sep;
    assert forall k :: 0 <= k < |p| ==> p[k] == s[k];
  }

  /** A string without the separator splits into itself alone. */
  lemma {:induction false} SplitFree(s: string, sep: char)
    requires sep !in s
    ensures Split(s, sep) == [s]
  {
    var parts := Split(s, sep);
    assert |parts| == 1;
    assert parts[0] == s;
  }

  /** Split of a string that starts with a character other than the
      separator: the character joins the first piece. */
  lemma SplitCons(c: char, t: string, sep: char)
    requires c != sep
    ensures Split([c] + t, sep) == [[c] + Split(t, sep)[0]] + Split(t, sep)[1..]
  {
    assert ([c] + t)[1..] == t;
  }

  /** Split of a string that starts with the separator: an empty first
      piece. */
  lemma SplitSep(t: string, sep: char)
    ensures Split([sep] + t, sep) == [""] + Split(t, sep)
  {
    assert ([sep] + t)[1..] == t;
  }

  /** A separator-free prefix followed by the separator becomes the first
      piece, and the rest splits as it would alone. */
  lemma {:induction false} SplitPrefix(h: string, tail: string, sep: char)
    requires sep !in h
    ensures Split(h + [sep] + tail, sep) == [h] + Split(tail, sep)
  {
    if h == [] {
      assert h + [sep] + tail == [sep] + tail;
      SplitSep(tail, sep);
    } else {
      var t := h[1..] + [sep] + tail;
      assert h + [sep] + tail == [h[0]] + t;
      SplitPrefix(h[1..], tail, sep);
      SplitCons(h[0], t, sep);
      assert [h[0]] + h[1..] == h;
    }
  }

  /** Replacing the first piece of a join replaces exactly the text before
      the first separator and keeps everything from there on. */
  lemma JoinReplaceHead(parts: seq<string>, h: string, sep: char)
    requires |parts| >= 1
    ensures Join([h] + parts[1..], sep) == h + Join(parts, sep)[|parts[0]|..]
  {
  }
}
