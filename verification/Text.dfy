/** Splitting, joining and concatenating sequences. */
module Text {

  /** The pieces one after another with `sep` between neighbours. */
  function Join<T>(parts: seq<seq<T>>, sep: seq<T>): seq<T> {
    if |parts| == 0 then []
    else if |parts| == 1 then parts[0]
    else parts[0] + sep + Join(parts[1..], sep)
  }

  /** Cut at every occurrence of `c`; n occurrences give n + 1 pieces. */
  function Split<T(==)>(s: seq<T>, c: T): (r: seq<seq<T>>)
    ensures |r| >= 1
  {
    if s == [] then [[]]
    else
      var r := Split(s[1..], c);
      if s[0] == c then [[]] + r else [[s[0]] + r[0]] + r[1..]
  }

  function Concat<T>(parts: seq<seq<T>>): seq<T> {
    if parts == [] then [] else parts[0] + Concat(parts[1..])
  }

  lemma {:induction false} ConcatAppend<T>(a: seq<seq<T>>, b: seq<seq<T>>)
    ensures Concat(a + b) == Concat(a) + Concat(b)
  {
    if a == [] {
      assert a + b == b;
    } else {
      assert (a + b)[1..] == a[1..] + b;
      ConcatAppend(a[1..], b);
    }
  }

  lemma ConcatSnoc<T>(a: seq<seq<T>>, x: seq<T>)
    ensures Concat(a + [x]) == Concat(a) + x
  {
    ConcatAppend(a, [x]);
    assert Concat([x]) == x;
  }

  /** A record that starts empty is all that was added to it, in order. */
  lemma {:induction false} Accumulates<T>(record: seq<seq<T>>, added: seq<seq<T>>, k: nat)
    requires |record| == |added| + 1 && record[0] == [] && k < |record|
    requires forall j :: 0 <= j < |added| ==> record[j + 1] == record[j] + added[j]
    ensures record[k] == Concat(added[..k])
  {
    if k > 0 {
      Accumulates(record, added, k - 1);
      assert added[..k] == added[..k - 1] + [added[k - 1]];
      ConcatSnoc(added[..k - 1], added[k - 1]);
    }
  }

  lemma {:induction false} JoinAppend<T>(a: seq<seq<T>>, b: seq<seq<T>>, sep: seq<T>)
    requires a != [] && b != []
    ensures Join(a + b, sep) == Join(a, sep) + sep + Join(b, sep)
  {
    if |a| == 1 {
      assert (a + b)[1..] == b;
    } else {
      assert (a + b)[1..] == a[1..] + b;
      JoinAppend(a[1..], b, sep);
    }
  }

  /** Joining undoes splitting. */
  lemma {:induction false} JoinSplit<T>(s: seq<T>, c: T)
    ensures Join(Split(s, c), [c]) == s
  {
    if s != [] {
      var r := Split(s[1..], c);
      JoinSplit(s[1..], c);
      if s[0] == c {
        assert ([[]] + r)[1..] == r;
      } else {
        var t := [[s[0]] + r[0]] + r[1..];
        assert t[1..] == r[1..];
      }
    }
  }

  lemma {:induction false} SplitPiecesLack<T>(s: seq<T>, c: T)
    ensures forall k :: 0 <= k < |Split(s, c)| ==> c !in Split(s, c)[k]
  {
    if s != [] {
      SplitPiecesLack(s[1..], c);
    }
  }

  /** A piece without the separator glues onto the first piece of the rest. */
  lemma {:induction false} SplitGlue<T>(p: seq<T>, s: seq<T>, c: T)
    requires c !in p
    ensures var r := Split(s, c); Split(p + s, c) == [p + r[0]] + r[1..]
  {
    if p == [] {
      assert p + s == s;
      assert p + Split(s, c)[0] == Split(s, c)[0];
    } else {
      assert (p + s)[1..] == p[1..] + s;
      SplitGlue(p[1..], s, c);
      var r := Split(s, c);
      assert [p[0]] + (p[1..] + r[0]) == p + r[0];
      assert ([p[1..] + r[0]] + r[1..])[1..] == r[1..];
    }
  }

  /** Splitting undoes joining when no piece holds the separator. */
  lemma {:induction false} SplitJoin<T>(parts: seq<seq<T>>, c: T)
    requires parts != []
    requires forall k :: 0 <= k < |parts| ==> c !in parts[k]
    ensures Split(Join(parts, [c]), c) == parts
  {
    if |parts| == 1 {
      SplitGlue(parts[0], [], c);
      assert parts[0] + [] == parts[0];
    } else {
      var rest := Join(parts[1..], [c]);
      SplitJoin(parts[1..], c);
      assert ([c] + rest)[1..] == rest;
      SplitGlue(parts[0], [c] + rest, c);
      assert parts[0] + [c] + rest == parts[0] + ([c] + rest);
      assert Split([c] + rest, c) == [[]] + parts[1..];
      assert parts[0] + [] == parts[0];
      assert Split([c] + rest, c)[1..] == parts[1..];
    }
  }

  /** A separator between two texts is a cut between their pieces. */
  lemma {:induction false} SplitAround<T>(a: seq<T>, b: seq<T>, c: T)
    ensures Split(a + [c] + b, c) == Split(a, c) + Split(b, c)
  {
    if a == [] {
      assert a + [c] + b == [c] + b && ([c] + b)[1..] == b;
    } else {
      assert (a + [c] + b)[1..] == a[1..] + [c] + b;
      SplitAround(a[1..], b, c);
    }
  }

  /** Where the text holds "\n\n" at position k. */
  predicate BreakAt(s: string, k: int) {
    0 <= k < |s| - 1 && s[k] == '\n' && s[k + 1] == '\n'
  }

  ghost predicate NoBreak(s: string) {
    forall k :: !BreakAt(s, k)
  }

  /** Cut at "\n\n", leftmost first and without overlap. */
  function SplitBreaks(s: string): (r: seq<string>)
    ensures |r| >= 1
    decreases |s|
  {
    if s == "" then [""]
    else if BreakAt(s, 0) then [""] + SplitBreaks(s[2..])
    else
      var r := SplitBreaks(s[1..]);
      [[s[0]] + r[0]] + r[1..]
  }

  lemma {:induction false} JoinSplitBreaks(s: string)
    ensures Join(SplitBreaks(s), "\n\n") == s
    decreases |s|
  {
    if s == "" {
    } else if BreakAt(s, 0) {
      JoinSplitBreaks(s[2..]);
      assert ([""] + SplitBreaks(s[2..]))[1..] == SplitBreaks(s[2..]);
    } else {
      var r := SplitBreaks(s[1..]);
      JoinSplitBreaks(s[1..]);
      assert ([[s[0]] + r[0]] + r[1..])[1..] == r[1..];
    }
  }

  /** No piece holds a break, and only the last piece may end in a newline. */
  lemma {:induction false} SplitBreaksPieces(s: string)
    ensures var r := SplitBreaks(s);
            && (forall k :: 0 <= k < |r| ==> NoBreak(r[k]))
            && (forall k :: 0 <= k < |r| - 1 && r[k] != "" ==> r[k][|r[k]| - 1] != '\n')
            && (r[0] != "" ==> r[0][0] == s[0] && s != "")
    decreases |s|
  {
    if s == "" {
    } else if BreakAt(s, 0) {
      SplitBreaksPieces(s[2..]);
    } else {
      SplitBreaksPieces(s[1..]);
      var r := SplitBreaks(s[1..]);
      var first := [s[0]] + r[0];
      forall k ensures !BreakAt(first, k) {
        if k > 0 && BreakAt(first, k) {
          assert BreakAt(r[0], k - 1);
        }
      }
      if |r| > 1 && r[0] == "" {
        // the remainder starts with a break, so this character is no newline
        assert BreakAt(s[1..], 0);
      }
    }
  }

  lemma {:induction false} SplitBreaksWhole(s: string)
    requires NoBreak(s)
    ensures SplitBreaks(s) == [s]
  {
    if s != "" {
      forall k ensures !BreakAt(s[1..], k) {
        assert !BreakAt(s, k + 1);
      }
      SplitBreaksWhole(s[1..]);
      assert [s[0]] + s[1..] == s;
    }
  }

  /** Without "\n\n" only the first line can be empty, unless the text ends in a newline. */
  lemma {:induction false} LinesNonempty(s: string)
    requires NoBreak(s) && (s == "" || s[|s| - 1] != '\n')
    ensures forall k :: 1 <= k < |Split(s, '\n')| ==> Split(s, '\n')[k] != ""
  {
    if s != "" {
      forall k ensures !BreakAt(s[1..], k) {
        assert !BreakAt(s, k + 1);
      }
      LinesNonempty(s[1..]);
      if s[0] == '\n' && s[1..] != "" {
        assert !BreakAt(s, 0);
      }
    }
  }
}
