/** Well-formed UTF-8 (section 4 of RFC 3629) and cutting it at character boundaries. */
module Utf8 {
  import opened Text

  type Byte = b: int | 0 <= b < 256
  type Bytes = seq<Byte>

  const NEWLINE: Byte := 10

  predicate IsTail(b: Byte) { 0x80 <= b <= 0xBF }

  /** Length of the well-formed character at the start of `s`, or 0 when there is none. */
  function CharLen(s: Bytes): (n: nat)
    ensures n <= |s| && n <= 4
    ensures forall k :: 0 < k < n ==> IsTail(s[k])
    ensures n > 0 ==> !IsTail(s[0])
    ensures n > 1 ==> s[0] >= 0xC2
  {
    if |s| >= 1 && s[0] <= 0x7F then 1
    else if |s| >= 2 && 0xC2 <= s[0] <= 0xDF && IsTail(s[1]) then 2
    else if |s| >= 3 && IsTail(s[1]) && IsTail(s[2])
      && (|| (s[0] == 0xE0 && s[1] >= 0xA0)
          || 0xE1 <= s[0] <= 0xEC
          || (s[0] == 0xED && s[1] <= 0x9F)
          || 0xEE <= s[0] <= 0xEF) then 3
    else if |s| >= 4 && IsTail(s[1]) && IsTail(s[2]) && IsTail(s[3])
      && (|| (s[0] == 0xF0 && s[1] >= 0x90)
          || 0xF1 <= s[0] <= 0xF3
          || (s[0] == 0xF4 && s[1] <= 0x8F)) then 4
    else 0
  }

  predicate Valid(s: Bytes) {
    s == [] || (CharLen(s) > 0 && Valid(s[CharLen(s)..]))
  }

  // --- What well-formed means ---

  /** A Unicode scalar value, and its encoding (section 3 of RFC 3629). */
  type Scalar = c: int | 0 <= c < 0xD800 || 0xE000 <= c < 0x110000

  function Encode(c: Scalar): Bytes {
    if c < 0x80 then [c]
    else if c < 0x800 then [0xC0 + c / 64, 0x80 + c % 64]
    else if c < 0x10000 then [0xE0 + c / 64 / 64, 0x80 + c / 64 % 64, 0x80 + c % 64]
    else [0xF0 + c / 64 / 64 / 64, 0x80 + c / 64 / 64 % 64, 0x80 + c / 64 % 64, 0x80 + c % 64]
  }

  function EncodeAll(cs: seq<Scalar>): Bytes {
    if cs == [] then [] else Encode(cs[0]) + EncodeAll(cs[1..])
  }

  /** Every encoded character is recognised, and no longer or shorter one. */
  lemma EncodedChar(c: Scalar, rest: Bytes)
    ensures CharLen(Encode(c) + rest) == |Encode(c)| > 0
  {
  }

  /** One more tail byte. */
  function Tailed(high: int, b: Byte): (r: int)
    requires IsTail(b)
    ensures r / 64 == high && 0x80 + r % 64 == b
  {
    high * 64 + (b - 0x80)
  }

  lemma Encoded2(a: Byte, b: Byte) returns (c: Scalar)
    requires 0xC2 <= a <= 0xDF && IsTail(b)
    ensures Encode(c) == [a, b]
  {
    c := Tailed(a as int - 0xC0, b);
  }

  lemma Encoded3(s: Bytes) returns (c: Scalar)
    requires |s| == 3 && CharLen(s) == 3
    ensures Encode(c) == s
  {
    c := Tailed(Tailed(s[0] as int - 0xE0, s[1]), s[2]);
  }

  lemma Encoded4(s: Bytes) returns (c: Scalar)
    requires |s| == 4 && CharLen(s) == 4
    ensures Encode(c) == s
  {
    c := Tailed(Tailed(Tailed(s[0] as int - 0xF0, s[1]), s[2]), s[3]);
  }

  /** And whatever is recognised is an encoded character. */
  lemma CharEncoded(s: Bytes) returns (c: Scalar)
    requires CharLen(s) > 0
    ensures Encode(c) == s[..CharLen(s)]
  {
    var n := CharLen(s);
    if n == 1 {
      c := s[0];
    } else if n == 2 {
      c := Encoded2(s[0], s[1]);
    } else if n == 3 {
      c := Encoded3(s[..3]);
    } else {
      c := Encoded4(s[..4]);
    }
  }

  lemma {:induction false} EncodedValid(cs: seq<Scalar>)
    ensures Valid(EncodeAll(cs))
  {
    if cs != [] {
      var rest := EncodeAll(cs[1..]);
      EncodedValid(cs[1..]);
      EncodedChar(cs[0], rest);
      assert (Encode(cs[0]) + rest)[|Encode(cs[0])|..] == rest;
    }
  }

  lemma {:induction false} ValidEncoded(s: Bytes) returns (cs: seq<Scalar>)
    requires Valid(s)
    ensures s == EncodeAll(cs)
    decreases |s|
  {
    if s == [] {
      cs := [];
    } else {
      var n := CharLen(s);
      var c := CharEncoded(s);
      var rest := ValidEncoded(s[n..]);
      cs := [c] + rest;
      assert cs[1..] == rest && s == s[..n] + s[n..];
    }
  }

  /** Bytes are well-formed if and only if they encode some scalar values. */
  lemma ValidExactly(s: Bytes)
    ensures Valid(s) <==> exists cs :: s == EncodeAll(cs)
  {
    if Valid(s) {
      var cs := ValidEncoded(s);
    } else if exists cs :: s == EncodeAll(cs) {
      var cs :| s == EncodeAll(cs);
      EncodedValid(cs);
    }
  }

  predicate Boundary(s: Bytes, i: nat) {
    i == 0 || i == |s| || (i < |s| && !IsTail(s[i]))
  }

  /** The greatest boundary at or below `i`. */
  function FloorBoundary(s: Bytes, i: nat): (r: nat)
    ensures r <= |s| && r <= i && Boundary(s, r)
    ensures forall k :: r < k <= i && k <= |s| ==> !Boundary(s, k)
  {
    if i >= |s| then |s|
    else if i == 0 || !IsTail(s[i]) then i
    else FloorBoundary(s, i - 1)
  }

  lemma CharLenLocal(s: Bytes, t: Bytes)
    requires CharLen(s) > 0
    ensures CharLen(s[..CharLen(s)] + t) == CharLen(s)
  {
  }

  /** Well-formed text cut at a boundary is two well-formed texts. */
  lemma {:induction false} CutValid(s: Bytes, i: nat)
    requires Valid(s) && i <= |s| && Boundary(s, i)
    ensures Valid(s[..i]) && Valid(s[i..])
    decreases |s|
  {
    if i == 0 {
      assert s[0..] == s && s[..0] == [];
    } else {
      var n := CharLen(s);
      var rest := s[n..][..i - n];
      CutValid(s[n..], i - n);
      assert s[n..][i - n..] == s[i..];
      assert s[..i] == s[..n] + rest;
      CharLenLocal(s, rest);
      assert CharLen(s[..i]) == n && s[..i][n..] == rest;
    }
  }

  /** A boundary is never more than three bytes away. */
  lemma {:induction false} BoundaryNear(s: Bytes, i: nat)
    requires Valid(s) && i < |s|
    ensures FloorBoundary(s, i) + 3 >= i
    decreases |s|
  {
    var n := CharLen(s);
    if i >= n {
      BoundaryNear(s[n..], i - n);
      var r := FloorBoundary(s[n..], i - n);
      assert Boundary(s, n + r) by {
        if r == 0 && n < |s| { assert s[n..][0] == s[n]; assert CharLen(s[n..]) > 0; }
      }
    }
  }

  /** Lines of well-formed text are well-formed. */
  lemma {:induction false} LinesValid(s: Bytes)
    requires Valid(s)
    ensures forall k :: 0 <= k < |Split(s, NEWLINE)| ==> Valid(Split(s, NEWLINE)[k])
    decreases |s|
  {
    if s != [] {
      var n := CharLen(s);
      LinesValid(s[n..]);
      if s[0] != NEWLINE {
        assert s[..n] + s[n..] == s;
        SplitGlue(s[..n], s[n..], NEWLINE);
        var first := Split(s[n..], NEWLINE)[0];
        CharLenLocal(s, first);
        assert (s[..n] + first)[n..] == first;
      }
    }
  }
}
