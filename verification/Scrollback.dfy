/** The bounded scrollback of a session and the unbounded log it stands for. */
module Scrollback {
  import opened Text
  import opened Utf8

  const MAX_LINE_LEN := 4096

  /** ESC and "[HERMYTT_EXIT]". */
  const PTY_EXIT_SENTINEL: Bytes := [27, 91, 72, 69, 82, 77, 89, 84, 84, 95, 69, 88, 73, 84, 93]

  function Truncate(line: Bytes): Bytes {
    if |line| > MAX_LINE_LEN then line[..FloorBoundary(line, MAX_LINE_LEN)] else line
  }

  /** A truncated line is a well-formed prefix that lost as little as UTF-8 allows. */
  lemma TruncateKeeps(line: Bytes)
    requires Valid(line)
    ensures Valid(Truncate(line)) && Truncate(line) <= line
    ensures |line| <= MAX_LINE_LEN ==> Truncate(line) == line
    ensures |line| > MAX_LINE_LEN ==> 4093 <= |Truncate(line)| <= 4096
  {
    if |line| > MAX_LINE_LEN {
      BoundaryNear(line, MAX_LINE_LEN);
      CutValid(line, FloorBoundary(line, MAX_LINE_LEN));
    }
  }

  function TruncateAll(lines: seq<Bytes>): (r: seq<Bytes>)
    ensures |r| == |lines|
    ensures forall k :: 0 <= k < |r| ==> r[k] == Truncate(lines[k])
  {
    seq(|lines|, i requires 0 <= i < |lines| => Truncate(lines[i]))
  }

  /** The lines of all pushes, in order. */
  function LinesOf(pushes: seq<Bytes>): seq<Bytes> {
    if pushes == [] then []
    else LinesOf(pushes[..|pushes| - 1]) + Split(pushes[|pushes| - 1], NEWLINE)
  }

  function Log(pushes: seq<Bytes>): seq<Bytes> { TruncateAll(LinesOf(pushes)) }

  /** A capacity of zero still keeps one line: the pop comes before the push. */
  function Limit(capacity: nat): nat { if capacity == 0 then 1 else capacity }

  function Recent<T>(log: seq<T>, limit: nat): seq<T> {
    if |log| <= limit then log else log[|log| - limit..]
  }

  class ScrollbackBuffer {
    var lines: seq<Bytes>
    const capacity: nat
    ghost var pushes: seq<Bytes>

    ghost predicate Invariant()
      reads this
    {
      lines == Recent(Log(pushes), Limit(capacity))
    }

    constructor (capacity: nat)
      ensures Invariant() && pushes == [] && this.capacity == capacity
    {
      this.capacity := capacity;
      lines, pushes := [], [];
    }

    method Push(data: Bytes)
      requires Invariant()
      modifies this
      ensures Invariant() && pushes == old(pushes) + [data]
    {
      ghost var log := Log(pushes);
      var pieces := Split(data, NEWLINE);
      for i := 0 to |pieces|
        invariant pushes == old(pushes)
        invariant lines == Recent(log + TruncateAll(pieces[..i]), Limit(capacity))
      {
        PushOne(log, pieces, i, capacity);
        if |lines| >= capacity && lines != [] {
          lines := lines[1..];
        }
        var end := if |pieces[i]| > MAX_LINE_LEN then FloorBoundary(pieces[i], MAX_LINE_LEN) else |pieces[i]|;
        lines := lines + [pieces[i][..end]];
        assert pieces[i][..end] == Truncate(pieces[i]);
      }
      assert pieces[..|pieces|] == pieces;
      pushes := pushes + [data];
      LogSnoc(old(pushes), data);
    }

    method GetAll() returns (all: seq<Bytes>)
      requires Invariant()
      ensures all == Recent(Log(pushes), Limit(capacity))
      ensures AllValid(pushes) ==> AllValid(all) && forall k :: 0 <= k < |all| ==> |all[k]| <= MAX_LINE_LEN
    {
      if AllValid(pushes) {
        LogWellFormed(pushes);
      }
      all := lines;
    }

    method Len() returns (n: nat)
      requires Invariant()
      ensures n == if |Log(pushes)| < Limit(capacity) then |Log(pushes)| else Limit(capacity)
    {
      n := |lines|;
    }
  }

  /** Dropping the oldest line when full keeps exactly the most recent lines. */
  lemma RecentSnoc<T>(log: seq<T>, x: T, capacity: nat)
    ensures var r := Recent(log, Limit(capacity));
            Recent(log + [x], Limit(capacity)) == (if |r| >= capacity && r != [] then r[1..] else r) + [x]
  {
  }

  lemma PushOne(log: seq<Bytes>, pieces: seq<Bytes>, i: nat, capacity: nat)
    requires i < |pieces|
    ensures var r := Recent(log + TruncateAll(pieces[..i]), Limit(capacity));
            Recent(log + TruncateAll(pieces[..i + 1]), Limit(capacity))
            == (if |r| >= capacity && r != [] then r[1..] else r) + [Truncate(pieces[i])]
  {
    var sofar := log + TruncateAll(pieces[..i]);
    assert TruncateAll(pieces[..i + 1]) == TruncateAll(pieces[..i]) + [Truncate(pieces[i])];
    assert log + TruncateAll(pieces[..i + 1]) == sofar + [Truncate(pieces[i])];
    RecentSnoc(sofar, Truncate(pieces[i]), capacity);
  }

  lemma LinesSnoc(pushes: seq<Bytes>, data: Bytes)
    ensures LinesOf(pushes + [data]) == LinesOf(pushes) + Split(data, NEWLINE)
  {
    assert (pushes + [data])[..|pushes|] == pushes;
  }

  lemma LogSnoc(pushes: seq<Bytes>, data: Bytes)
    ensures Log(pushes + [data]) == Log(pushes) + TruncateAll(Split(data, NEWLINE))
  {
    LinesSnoc(pushes, data);
  }

  lemma {:induction false} LinesAppend(a: seq<Bytes>, b: seq<Bytes>)
    ensures LinesOf(a + b) == LinesOf(a) + LinesOf(b)
    decreases |b|
  {
    if b == [] {
      assert a + b == a;
    } else {
      assert (a + b)[..|a + b| - 1] == a + b[..|b| - 1];
      LinesAppend(a, b[..|b| - 1]);
    }
  }

  lemma {:induction false} JoinLines(pushes: seq<Bytes>)
    requires pushes != []
    ensures LinesOf(pushes) != [] && Join(LinesOf(pushes), [NEWLINE]) == Join(pushes, [NEWLINE])
    decreases |pushes|
  {
    var n := |pushes| - 1;
    JoinSplit(pushes[n], NEWLINE);
    if n == 0 {
      assert LinesOf(pushes) == Split(pushes[0], NEWLINE);
    } else {
      JoinLines(pushes[..n]);
      JoinAppend(LinesOf(pushes[..n]), Split(pushes[n], NEWLINE), [NEWLINE]);
      assert pushes[..n] + [pushes[n]] == pushes;
      JoinAppend(pushes[..n], [pushes[n]], [NEWLINE]);
    }
  }

  ghost predicate ShortLines(data: Bytes) {
    forall k :: 0 <= k < |Split(data, NEWLINE)| ==> |Split(data, NEWLINE)[k]| <= MAX_LINE_LEN
  }

  lemma {:induction false} ShortLog(pushes: seq<Bytes>)
    requires forall k :: 0 <= k < |pushes| ==> ShortLines(pushes[k])
    ensures Log(pushes) == LinesOf(pushes)
    decreases |pushes|
  {
    if pushes != [] {
      var n := |pushes| - 1;
      ShortLog(pushes[..n]);
      assert pushes[..n] + [pushes[n]] == pushes;
      LogSnoc(pushes[..n], pushes[n]);
      assert ShortLines(pushes[n]);
    }
  }

  ghost predicate AllValid(texts: seq<Bytes>) {
    forall k :: 0 <= k < |texts| ==> Valid(texts[k])
  }

  lemma {:induction false} LinesWellFormed(pushes: seq<Bytes>)
    requires AllValid(pushes)
    ensures AllValid(LinesOf(pushes))
    decreases |pushes|
  {
    if pushes != [] {
      LinesWellFormed(pushes[..|pushes| - 1]);
      LinesValid(pushes[|pushes| - 1]);
    }
  }

  /** Of well-formed text every entry is well-formed and within the line limit. */
  lemma LogWellFormed(pushes: seq<Bytes>)
    requires AllValid(pushes)
    ensures AllValid(Log(pushes)) && forall k :: 0 <= k < |Log(pushes)| ==> |Log(pushes)[k]| <= MAX_LINE_LEN
  {
    LinesWellFormed(pushes);
    forall k | 0 <= k < |Log(pushes)| ensures Valid(Log(pushes)[k]) && |Log(pushes)[k]| <= MAX_LINE_LEN {
      TruncateKeeps(LinesOf(pushes)[k]);
    }
  }

  /** A capacity of zero is exceeded by the first line. */
  lemma ZeroCapacityKeepsOne(line: Bytes)
    requires NEWLINE !in line && |line| <= MAX_LINE_LEN
    ensures Recent(Log([line]), Limit(0)) == [line]
  {
    SplitGlue(line, [], NEWLINE);
    assert line + [] == line && Split(line, NEWLINE) == [line];
    assert LinesOf([line]) == Split(line, NEWLINE);
    assert Log([line]) == [line];
  }

  /** No other capacity ever is. */
  lemma CapacityKept(capacity: nat)
    ensures (forall pushes :: |Recent(Log(pushes), Limit(capacity))| <= capacity) <==> capacity >= 1
  {
    ZeroCapacityKeepsOne([]);
    assert |Recent(Log([[]]), Limit(0))| == 1;
  }

  /** What a client is sent as history. */
  function History(pushes: seq<Bytes>, capacity: nat): Bytes {
    Join(Recent(Log(pushes), Limit(capacity)), [NEWLINE])
  }

  /** With nothing evicted or truncated the history is the pushes themselves. */
  lemma HistoryComplete(pushes: seq<Bytes>, capacity: nat)
    requires pushes != [] && |LinesOf(pushes)| <= Limit(capacity)
    requires forall k :: 0 <= k < |pushes| ==> ShortLines(pushes[k])
    ensures History(pushes, capacity) == Join(pushes, [NEWLINE])
  {
    ShortLog(pushes);
    JoinLines(pushes);
  }

  /** Push number p is still whole in the history: no line of it evicted or truncated. */
  ghost predicate Retained(pushes: seq<Bytes>, p: nat, capacity: nat)
    requires p < |pushes|
  {
    && ShortLines(pushes[p])
    && |LinesOf(pushes[..p])| + Limit(capacity) >= |LinesOf(pushes)|
  }

  lemma JoinAround(front: seq<Bytes>, mid: seq<Bytes>, back: seq<Bytes>) returns (before: Bytes, after: Bytes)
    requires mid != []
    ensures Join(front + mid + back, [NEWLINE]) == before + Join(mid, [NEWLINE]) + after
  {
    before, after := [], [];
    var core := Join(mid, [NEWLINE]);
    if back == [] {
      assert mid + back == mid;
      assert core + [] == core;
    } else {
      JoinAppend(mid, back, [NEWLINE]);
      after := [NEWLINE] + Join(back, [NEWLINE]);
      assert core + [NEWLINE] + Join(back, [NEWLINE]) == core + after;
    }
    assert front + mid + back == front + (mid + back);
    if front == [] {
      assert front + (mid + back) == mid + back;
      assert [] + core + after == core + after;
    } else {
      JoinAppend(front, mid + back, [NEWLINE]);
      before := Join(front, [NEWLINE]) + [NEWLINE];
      assert before + (core + after) == before + core + after;
    }
  }

  lemma Around<T>(s: seq<T>, p: nat)
    requires p < |s|
    ensures s[..p] + [s[p]] + s[p + 1..] == s
  {
  }

  lemma LinesAround(pushes: seq<Bytes>, p: nat)
    requires p < |pushes|
    ensures LinesOf(pushes) == LinesOf(pushes[..p]) + Split(pushes[p], NEWLINE) + LinesOf(pushes[p + 1..])
  {
    LinesSnoc(pushes[..p], pushes[p]);
    LinesAppend(pushes[..p] + [pushes[p]], pushes[p + 1..]);
    Around(pushes, p);
  }

  lemma TruncateAround(a: seq<Bytes>, m: seq<Bytes>, b: seq<Bytes>)
    requires forall k :: 0 <= k < |m| ==> |m[k]| <= MAX_LINE_LEN
    ensures TruncateAll(a + m + b) == TruncateAll(a) + m + TruncateAll(b)
  {
  }

  /** The log around a push whose lines are short. */
  lemma LogAround(pushes: seq<Bytes>, p: nat) returns (a: seq<Bytes>, b: seq<Bytes>)
    requires p < |pushes| && ShortLines(pushes[p])
    ensures Log(pushes) == a + Split(pushes[p], NEWLINE) + b
    ensures |LinesOf(pushes)| == |LinesOf(pushes[..p])| + |Split(pushes[p], NEWLINE)| + |b|
  {
    LinesAround(pushes, p);
    TruncateAround(LinesOf(pushes[..p]), Split(pushes[p], NEWLINE), LinesOf(pushes[p + 1..]));
    a, b := TruncateAll(LinesOf(pushes[..p])), TruncateAll(LinesOf(pushes[p + 1..]));
  }

  lemma RecentAround<T>(a: seq<T>, m: seq<T>, b: seq<T>, limit: nat)
    requires |m| + |b| <= limit
    ensures exists cut :: 0 <= cut <= |a| && Recent(a + m + b, limit) == a[cut..] + m + b
  {
    var all := a + m + b;
    var cut := if |all| <= limit then 0 else |all| - limit;
    assert Recent(all, limit) == a[cut..] + m + b;
  }

  /** A retained push stands in the history byte for byte. */
  lemma RetainedInHistory(pushes: seq<Bytes>, p: nat, capacity: nat) returns (before: Bytes, after: Bytes)
    requires p < |pushes| && Retained(pushes, p, capacity)
    ensures History(pushes, capacity) == before + pushes[p] + after
  {
    var m := Split(pushes[p], NEWLINE);
    var a, b := LogAround(pushes, p);
    RecentAround(a, m, b, Limit(capacity));
    var cut :| 0 <= cut <= |a| && Recent(a + m + b, Limit(capacity)) == a[cut..] + m + b;
    before, after := JoinAround(a[cut..], m, b);
    JoinSplit(pushes[p], NEWLINE);
  }
}
