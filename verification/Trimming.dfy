/** Trimming white space the way two languages do it; they disagree on two characters. */
module Trimming {
  /** `Both` stands for the white space on which the two languages agree. */
  datatype Language = JavaScript | Rust | Both

  predicate IsSpace(l: Language, c: char) {
    || '\t' <= c <= '\r' || c == ' ' || c == '\U{A0}' || c == '\U{1680}'
    || '\U{2000}' <= c <= '\U{200A}' || c == '\U{2028}' || c == '\U{2029}'
    || c == '\U{202F}' || c == '\U{205F}' || c == '\U{3000}'
    || (l == JavaScript && c == '\U{FEFF}')
    || (l == Rust && c == '\U{85}')
  }

  /** White space in both: the characters with the property White_Space but for U+0085. */
  const COMMON_SPACE := "\t\n\U{B}\U{C}\r \U{A0}\U{1680}\U{2000}\U{2001}\U{2002}\U{2003}\U{2004}\U{2005}\U{2006}"
    + "\U{2007}\U{2008}\U{2009}\U{200A}\U{2028}\U{2029}\U{202F}\U{205F}\U{3000}"

  lemma SpacesListed(c: char)
    ensures IsSpace(Both, c) <==> c in COMMON_SPACE
    ensures IsSpace(Rust, c) <==> c in COMMON_SPACE || c == '\U{85}'
    ensures IsSpace(JavaScript, c) <==> c in COMMON_SPACE || c == '\U{FEFF}'
  {
  }

  /** White space in one of the languages only. */
  predicate Odd(c: char) { c == '\U{85}' || c == '\U{FEFF}' }

  function TrimStart(l: Language, s: string): (r: string)
    ensures r == "" || !IsSpace(l, r[0])
  {
    if s != "" && IsSpace(l, s[0]) then TrimStart(l, s[1..]) else s
  }

  function TrimEnd(l: Language, s: string): (r: string)
    ensures r <= s
    ensures r == "" || !IsSpace(l, r[|r| - 1])
  {
    if s != "" && IsSpace(l, s[|s| - 1]) then TrimEnd(l, s[..|s| - 1]) else s
  }

  function Trim(l: Language, s: string): (r: string)
    ensures r == "" || (!IsSpace(l, r[0]) && !IsSpace(l, r[|r| - 1]))
  {
    TrimEnd(l, TrimStart(l, s))
  }

  predicate AllSpace(l: Language, s: string) {
    forall k :: 0 <= k < |s| ==> IsSpace(l, s[k])
  }

  lemma {:induction false} StartParts(l: Language, s: string) returns (a: string)
    ensures s == a + TrimStart(l, s) && AllSpace(l, a)
  {
    if s != "" && IsSpace(l, s[0]) {
      var b := StartParts(l, s[1..]);
      a := [s[0]] + b;
      assert s == [s[0]] + s[1..];
    } else {
      a := "";
    }
  }

  lemma {:induction false} EndParts(l: Language, s: string) returns (b: string)
    ensures s == TrimEnd(l, s) + b && AllSpace(l, b)
  {
    if s != "" && IsSpace(l, s[|s| - 1]) {
      var front, last := s[..|s| - 1], s[|s| - 1];
      var c := EndParts(l, front);
      b := c + [last];
      assert s == front + [last] == TrimEnd(l, front) + c + [last];
    } else {
      b := "";
    }
  }

  lemma {:induction false} StartSkips(l: Language, a: string, t: string)
    requires AllSpace(l, a)
    ensures TrimStart(l, a + t) == TrimStart(l, t)
  {
    if a == "" {
      assert a + t == t;
    } else {
      assert (a + t)[1..] == a[1..] + t;
      StartSkips(l, a[1..], t);
    }
  }

  lemma {:induction false} EndSkips(l: Language, t: string, b: string)
    requires AllSpace(l, b)
    ensures TrimEnd(l, t + b) == TrimEnd(l, t)
    decreases |b|
  {
    if b == "" {
      assert t + b == t;
    } else {
      assert (t + b)[..|t + b| - 1] == t + b[..|b| - 1];
      EndSkips(l, t, b[..|b| - 1]);
    }
  }

  /** Trimming the end keeps a first character that is no white space. */
  lemma {:induction false} TrimEndStart(l: Language, s: string)
    requires s != "" && !IsSpace(l, s[0])
    ensures TrimEnd(l, s) != "" && TrimEnd(l, s)[0] == s[0]
  {
    if IsSpace(l, s[|s| - 1]) {
      TrimEndStart(l, s[..|s| - 1]);
    }
  }

  lemma TrimAround(l: Language, a: string, core: string, b: string)
    requires AllSpace(l, a) && AllSpace(l, b)
    ensures core == "" ==> Trim(l, a + core + b) == ""
    ensures core != "" && !IsSpace(l, core[0]) ==>
            Trim(l, a + core + b) == TrimEnd(l, core) != "" && Trim(l, a + core + b)[0] == core[0]
  {
    assert a + core + b == a + (core + b);
    StartSkips(l, a, core + b);
    if core == "" {
      assert core + b == b + "";
      StartSkips(l, b, "");
    } else if !IsSpace(l, core[0]) {
      EndSkips(l, core, b);
      TrimEndStart(l, core);
    }
  }

  /** What both languages leave at least: between white space on which they agree. */
  lemma CoreOf(s: string) returns (a: string, core: string, b: string)
    ensures s == a + core + b && core == Trim(Both, s) && AllSpace(Both, a) && AllSpace(Both, b)
  {
    a := StartParts(Both, s);
    b := EndParts(Both, TrimStart(Both, s));
    core := Trim(Both, s);
    assert s == a + (core + b);
  }

  /** Neither end, behind white space on which the languages agree, is one of the two characters. */
  predicate PlainEnds(s: string) {
    var core := Trim(Both, s);
    core == "" || (!Odd(core[0]) && !Odd(core[|core| - 1]))
  }

  /** The languages trim alike exactly if neither end is one of the two characters. */
  lemma TrimsAgree(s: string)
    ensures Trim(Rust, s) == Trim(JavaScript, s) <==> PlainEnds(s)
  {
    var a, core, b := CoreOf(s);
    TrimAround(Rust, a, core, b);
    TrimAround(JavaScript, a, core, b);
  }

  /** Only white space can be trimmed away. */
  lemma TrimmedAway(l: Language, s: string, k: nat)
    requires Trim(l, s) == "" && k < |s|
    ensures IsSpace(l, s[k])
  {
    var a := StartParts(l, s);
    var b := EndParts(l, TrimStart(l, s));
    assert s == a + b;
  }

  lemma TrimInside(l: Language, s: string, k: nat) returns (j: nat)
    requires k < |Trim(l, s)|
    ensures j < |s| && s[j] == Trim(l, s)[k]
  {
    var a := StartParts(l, s);
    j := |a| + k;
  }
}
