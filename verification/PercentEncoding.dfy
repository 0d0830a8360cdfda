/** `urlencode` and the path of a cancel request (sections 2.1 and 2.3 of RFC 3986). */
module PercentEncoding {
  import opened Common
  import opened Text
  import opened Utf8

  predicate Unreserved(b: Byte) {
    || 'A' as int <= b <= 'Z' as int
    || 'a' as int <= b <= 'z' as int
    || '0' as int <= b <= '9' as int
    || b == '-' as int || b == '.' as int || b == '_' as int || b == '~' as int
  }

  /** Section 2.3 of RFC 3986, character by character. */
  lemma UnreservedListed(c: char)
    requires c as int < 256
    ensures Unreserved(c as int) <==> c in {
      'A', 'B', 'C', 'D', 'E', 'F', 'G', 'H', 'I', 'J', 'K', 'L', 'M', 'N', 'O', 'P', 'Q', 'R', 'S', 'T', 'U', 'V', 'W',
      'X', 'Y', 'Z', 'a', 'b', 'c', 'd', 'e', 'f', 'g', 'h', 'i', 'j', 'k', 'l', 'm', 'n', 'o', 'p', 'q', 'r', 's', 't',
      'u', 'v', 'w', 'x', 'y', 'z', '0', '1', '2', '3', '4', '5', '6', '7', '8', '9', '-', '.', '_', '~' }
  {
  }

  function HexDigit(n: nat): char
    requires n < 16
  {
    if n < 10 then ('0' as int + n) as char else ('A' as int + n - 10) as char
  }

  function EncodeByte(b: Byte): string {
    if Unreserved(b) then [b as char] else ['%', HexDigit(b / 16), HexDigit(b % 16)]
  }

  function UrlEncode(s: Bytes): string {
    if s == [] then "" else EncodeByte(s[0]) + UrlEncode(s[1..])
  }

  function HexValue(c: char): Option<nat> {
    if '0' <= c <= '9' then Some(c as int - '0' as int)
    else if 'A' <= c <= 'F' then Some(c as int - 'A' as int + 10)
    else if 'a' <= c <= 'f' then Some(c as int - 'a' as int + 10)
    else None
  }

  /** Percent-decoding as a server does it. */
  function Decode(s: string): Option<Bytes>
    decreases |s|
  {
    if s == "" then Some([])
    else if s[0] == '%' then
      if |s| < 3 || HexValue(s[1]).None? || HexValue(s[2]).None? then None
      else
        var rest := Decode(s[3..]);
        if rest.None? then None else Some([16 * HexValue(s[1]).value + HexValue(s[2]).value] + rest.value)
    else if s[0] as int >= 128 then None
    else
      var rest := Decode(s[1..]);
      if rest.None? then None else Some([s[0] as int] + rest.value)
  }

  /** Unreserved characters and upper-case %XX triples, nothing else. */
  predicate Encoded(s: string)
    decreases |s|
  {
    s == "" ||
    (if s[0] == '%' then
       |s| >= 3 && HexValue(s[1]).Some? && HexValue(s[2]).Some?
       && !('a' <= s[1] <= 'f') && !('a' <= s[2] <= 'f') && Encoded(s[3..])
     else
       s[0] as int < 128 && Unreserved(s[0] as int) && Encoded(s[1..]))
  }

  /** Encoding is lossless for every byte string. */
  lemma {:induction false} DecodeUrlEncode(s: Bytes)
    ensures Decode(UrlEncode(s)) == Some(s)
  {
    if s != [] {
      DecodeUrlEncode(s[1..]);
      var rest := UrlEncode(s[1..]);
      var one := EncodeByte(s[0]);
      assert (one + rest)[|one|..] == rest;
      if !Unreserved(s[0]) {
        assert 16 * (s[0] / 16) + s[0] % 16 == s[0];
      }
      assert [s[0]] + s[1..] == s;
    }
  }

  lemma {:induction false} UrlEncodeAlphabet(s: Bytes)
    ensures Encoded(UrlEncode(s))
    ensures '/' !in UrlEncode(s)
  {
    if s != [] {
      UrlEncodeAlphabet(s[1..]);
      var one := EncodeByte(s[0]);
      assert (one + UrlEncode(s[1..]))[|one|..] == UrlEncode(s[1..]);
    }
  }

  function TrimEndSlashes(s: string): (r: string)
    ensures r <= s && (r == "" || r[|r| - 1] != '/')
    ensures forall k :: |r| <= k < |s| ==> s[k] == '/'
  {
    if s != "" && s[|s| - 1] == '/' then TrimEndSlashes(s[..|s| - 1]) else s
  }

  /** The path behind the base address, as the format string writes it. */
  function CancelPath(apytti: Bytes, backend: Bytes, session: Bytes): string {
    "/registry/" + UrlEncode(apytti) + "/proxy/backends/" + UrlEncode(backend)
    + "/sessions/" + UrlEncode(session) + "/cancel"
  }

  function CancelUrl(base: string, apytti: Bytes, backend: Bytes, session: Bytes): string {
    TrimEndSlashes(base) + CancelPath(apytti, backend, session)
  }

  function CancelSegments(apytti: Bytes, backend: Bytes, session: Bytes): seq<string> {
    ["", "registry", UrlEncode(apytti), "proxy", "backends", UrlEncode(backend), "sessions", UrlEncode(session),
        "cancel"]
  }

  lemma JoinFrom(parts: seq<string>, k: nat)
    requires k + 1 < |parts|
    ensures Join(parts[k..], "/") == parts[k] + ("/" + Join(parts[k + 1..], "/"))
  {
    assert parts[k..][1..] == parts[k + 1..];
    var rest := Join(parts[k + 1..], "/");
    assert parts[k] + "/" + rest == parts[k] + ("/" + rest);
  }

  lemma JoinNine(p: seq<string>)
    requires |p| == 9
    ensures Join(p, "/") == p[0] + ("/" + (p[1] + ("/" + (p[2] + ("/" + (p[3] + ("/" + (p[4] + ("/" + (p[5] + ("/"
                            + (p[6] + ("/" + (p[7] + ("/" + p[8])))))))))))))))
  {
    var j8 := p[8];
    assert Join(p[8..], "/") == j8;
    var j7 := p[7] + ("/" + j8);
    assert Join(p[7..], "/") == j7 by { JoinFrom(p, 7); }
    var j6 := p[6] + ("/" + j7);
    assert Join(p[6..], "/") == j6 by { JoinFrom(p, 6); }
    var j5 := p[5] + ("/" + j6);
    assert Join(p[5..], "/") == j5 by { JoinFrom(p, 5); }
    var j4 := p[4] + ("/" + j5);
    assert Join(p[4..], "/") == j4 by { JoinFrom(p, 4); }
    var j3 := p[3] + ("/" + j4);
    assert Join(p[3..], "/") == j3 by { JoinFrom(p, 3); }
    var j2 := p[2] + ("/" + j3);
    assert Join(p[2..], "/") == j2 by { JoinFrom(p, 2); }
    var j1 := p[1] + ("/" + j2);
    assert Join(p[1..], "/") == j1 by { JoinFrom(p, 1); }
    var j0 := p[0] + ("/" + j1);
    assert Join(p[0..], "/") == j0 by { JoinFrom(p, 0); }
    assert p[0..] == p;
  }

  /** A word of the path with the slash behind it. */
  lemma Word(word: string, slashed: string, rest: string)
    requires slashed == word + "/"
    ensures word + ("/" + rest) == slashed + rest
  {
  }

  lemma CancelPathJoins(apytti: Bytes, backend: Bytes, session: Bytes)
    ensures CancelPath(apytti, backend, session) == Join(CancelSegments(apytti, backend, session), "/")
  {
    var a, b, s := UrlEncode(apytti), UrlEncode(backend), UrlEncode(session);
    JoinNine(CancelSegments(apytti, backend, session));
    CancelPathText(a, b, s);
    var t6 := s + "/cancel";
    assert "/" + "cancel" == "/cancel";
    Word("sessions", "sessions/", t6);
    var t5 := b + ("/" + ("sessions/" + t6));
    Word("backends", "backends/", t5);
    Word("proxy", "proxy/", "backends/" + t5);
    var t2 := a + ("/" + ("proxy/" + ("backends/" + t5)));
    Word("registry", "registry/", t2);
    Word("", "/", "registry/" + t2);
  }

  lemma CancelPathText(a: string, b: string, s: string)
    ensures "/registry/" + a + "/proxy/backends/" + b + "/sessions/" + s + "/cancel"
         == "/" + ("registry/" + (a + ("/"
             + ("proxy/" + ("backends/" + (b + ("/" + ("sessions/" + (s + "/cancel")))))))))
  {
    var tail := b + ("/" + ("sessions/" + (s + "/cancel")));
    assert b + "/sessions/" + s + "/cancel" == tail;
    var mid := a + ("/" + ("proxy/" + ("backends/" + tail)));
    assert a + "/proxy/backends/" + tail == mid;
    assert "/registry/" + a + "/proxy/backends/" + b + "/sessions/" + s + "/cancel"
        == "/registry/" + (a + "/proxy/backends/" + (b + "/sessions/" + s + "/cancel"));
  }

  /** No segment holds a slash. */
  lemma SegmentsLackSlash(apytti: Bytes, backend: Bytes, session: Bytes)
    ensures forall k :: 0 <= k < 9 ==> '/' !in CancelSegments(apytti, backend, session)[k]
  {
    UrlEncodeAlphabet(apytti);
    UrlEncodeAlphabet(backend);
    UrlEncodeAlphabet(session);
  }

  /** Splitting the path gives back the segments. */
  lemma CancelPathSplits(apytti: Bytes, backend: Bytes, session: Bytes)
    ensures Split(CancelPath(apytti, backend, session), '/') == CancelSegments(apytti, backend, session)
  {
    CancelPathJoins(apytti, backend, session);
    SegmentsLackSlash(apytti, backend, session);
    SplitJoin(CancelSegments(apytti, backend, session), '/');
  }

  /** Whatever bytes the three names hold, a server that splits the path on '/' and
      decodes the segments gets exactly these three names back. */
  lemma CancelPathRecovers(apytti: Bytes, backend: Bytes, session: Bytes)
    ensures var parts := Split(CancelPath(apytti, backend, session), '/');
            && |parts| == 9
            && parts[0] == "" && parts[1] == "registry" && parts[3] == "proxy" && parts[4] == "backends"
            && parts[6] == "sessions" && parts[8] == "cancel"
            && Decode(parts[2]) == Some(apytti) && Decode(parts[5]) == Some(backend)
                 && Decode(parts[7]) == Some(session)
  {
    CancelPathSplits(apytti, backend, session);
    DecodeUrlEncode(apytti);
    DecodeUrlEncode(backend);
    DecodeUrlEncode(session);
  }

  /** Behind any base address, with or without trailing slashes, the segments come last. */
  lemma CancelUrlRecovers(base: string, apytti: Bytes, backend: Bytes, session: Bytes)
    ensures Split(CancelUrl(base, apytti, backend, session), '/')
         == Split(TrimEndSlashes(base), '/') + CancelSegments(apytti, backend, session)[1..]
  {
    CancelPathSplits(apytti, backend, session);
    PathStart(apytti, backend, session);
    SplitRooted(TrimEndSlashes(base), CancelPath(apytti, backend, session));
  }

  lemma PathStart(apytti: Bytes, backend: Bytes, session: Bytes)
    ensures CancelPath(apytti, backend, session) != "" && CancelPath(apytti, backend, session)[0] == '/'
  {
  }

  lemma SplitRooted(front: string, path: string)
    requires path != "" && path[0] == '/'
    ensures Split(front + path, '/') == Split(front, '/') + Split(path, '/')[1..]
  {
    SplitAround(front, path[1..], '/');
    assert front + path == front + ['/'] + path[1..];
  }
}
