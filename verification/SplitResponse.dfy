/** `split_response`: pack a long reply into Telegram-sized messages, cutting at
    paragraphs, then at lines, then between characters. */
module SplitResponse {
  import opened Common
  import opened Text

  /** The two locals of the loop: finished chunks and the one being filled. */
  datatype Packing = Packing(chunks: seq<string>, current: string)

  function TrimEndNewlines(s: string): (r: string)
    ensures r <= s
    ensures r == "" || r[|r| - 1] != '\n'
    ensures forall k :: |r| <= k < |s| ==> s[k] == '\n'
  {
    if s != "" && s[|s| - 1] == '\n' then TrimEndNewlines(s[..|s| - 1]) else s
  }

  function Separator(current: string, sep: string): string {
    if current == "" then "" else sep
  }

  function Flush(p: Packing): seq<string> {
    if p.current == "" then p.chunks else p.chunks + [p.current]
  }

  function HardCut(chunks: seq<string>, buf: string, rest: string, max: nat): Packing
    decreases |rest|
  {
    if rest == "" then Packing(chunks, buf)
    else if |buf| == max then HardCut(chunks + [buf], [rest[0]], rest[1..], max)
    else HardCut(chunks, buf + [rest[0]], rest[1..], max)
  }

  function AddLine(p: Packing, line: string, max: nat): Packing {
    var sep := Separator(p.current, "\n");
    if |p.current| + |sep| + |line| <= max then p.(current := p.current + sep + line)
    else if |line| <= max then Packing(Flush(p), line)
    else HardCut(Flush(p), "", line, max)
  }

  function AddLines(p: Packing, lines: seq<string>, max: nat): Packing {
    if lines == [] then p
    else AddLine(AddLines(p, lines[..|lines| - 1], max), lines[|lines| - 1], max)
  }

  function AddParagraph(p: Packing, paragraph: string, max: nat): Packing {
    var para := TrimEndNewlines(paragraph);
    var sep := Separator(p.current, "\n\n");
    if |p.current| + |sep| + |para| <= max then p.(current := p.current + sep + para)
    else if |para| <= max then Packing(Flush(p), para)
    else AddLines(Packing(Flush(p), ""), Split(para, '\n'), max)
  }

  function AddParagraphs(p: Packing, paragraphs: seq<string>, max: nat): Packing {
    if paragraphs == [] then p
    else AddParagraph(AddParagraphs(p, paragraphs[..|paragraphs| - 1], max), paragraphs[|paragraphs| - 1], max)
  }

  /** What the method below computes. */
  function Chunks(text: string, max: nat): seq<string> {
    Flush(AddParagraphs(Packing([], ""), SplitBreaks(text), max))
  }

  method SplitResponse(text: string, max: nat) returns (chunks: seq<string>)
    ensures chunks == Chunks(text, max)
    ensures max >= 1 ==> Deletes(text, Concat(chunks))
    ensures max >= 1 ==> forall k :: 0 <= k < |chunks| ==> |chunks[k]| <= max && HasInk(chunks[k])
    ensures max >= 2 ==> |chunks| <= 3 * (|text| / (max - 1)) + 2
    ensures |text| <= max ==> chunks == if Canonical(text) == "" then [] else [Canonical(text)]
  {
    chunks := [];
    var current := "";
    var paragraphs := SplitBreaks(text);
    for i := 0 to |paragraphs|
      invariant Packing(chunks, current) == AddParagraphs(Packing([], ""), paragraphs[..i], max)
    {
      ghost var before := Packing(chunks, current);
      assert paragraphs[..i + 1][..i] == paragraphs[..i];
      var para := TrimEndNewlines(paragraphs[i]);
      var separator := if current == "" then "" else "\n\n";
      if |current| + |separator| + |para| <= max {
        current := current + separator + para;
        continue;
      }
      if current != "" {
        chunks, current := chunks + [current], "";
      }
      if |para| <= max {
        current := para;
        continue;
      }
      chunks, current := PackLines(chunks, para, max);
    }
    assert paragraphs[..|paragraphs|] == paragraphs;
    if current != "" {
      chunks := chunks + [current];
    }
    if max >= 1 {
      ChunksDeleteOnlyNewlines(text, max);
      ChunksSized(text, max);
    }
    if max >= 2 {
      ChunkCount(text, max);
    }
    if |text| <= max {
      ShortText(text, max);
    }
  }

  /** The inner loops: an oversized paragraph by lines, an oversized line by characters. */
  method PackLines(done: seq<string>, para: string, max: nat) returns (chunks: seq<string>, current: string)
    ensures Packing(chunks, current) == AddLines(Packing(done, ""), Split(para, '\n'), max)
  {
    chunks, current := done, "";
    var lines := Split(para, '\n');
    for i := 0 to |lines|
      invariant Packing(chunks, current) == AddLines(Packing(done, ""), lines[..i], max)
    {
      assert lines[..i + 1][..i] == lines[..i];
      var line := lines[i];
      var sep := if current == "" then "" else "\n";
      if |current| + |sep| + |line| <= max {
        current := current + sep + line;
        continue;
      }
      if current != "" {
        chunks, current := chunks + [current], "";
      }
      if |line| <= max {
        current := line;
      } else {
        ghost var flushed := chunks;
        var buf := "";
        for j := 0 to |line|
          invariant HardCut(chunks, buf, line[j..], max) == HardCut(flushed, "", line, max)
        {
          assert line[j..][1..] == line[j + 1..];
          if |buf| == max {
            chunks, buf := chunks + [buf], "";
            assert [line[j]] == buf + [line[j]];
          }
          buf := buf + [line[j]];
        }
        current := buf;
      }
    }
    assert lines[..|lines|] == lines;
  }

  // --- Only newlines are lost ---

  /** `o` is `t` with some newlines removed: nothing reordered, nothing inserted. */
  ghost predicate Deletes(t: string, o: string) {
    if t == "" then o == ""
    else
      || (o != "" && o[0] == t[0] && Deletes(t[1..], o[1..]))
      || (t[0] == '\n' && Deletes(t[1..], o))
  }

  lemma {:induction false} DeletesNothing(t: string)
    ensures Deletes(t, t)
  {
    if t != "" {
      DeletesNothing(t[1..]);
    }
  }

  lemma {:induction false} DeletesAppend(t: string, o: string, u: string, v: string)
    requires Deletes(t, o) && Deletes(u, v)
    ensures Deletes(t + u, o + v)
  {
    if t == "" {
      assert t + u == u && o + v == v;
    } else {
      assert (t + u)[1..] == t[1..] + u;
      if o != "" && o[0] == t[0] && Deletes(t[1..], o[1..]) {
        assert (o + v)[1..] == o[1..] + v;
        DeletesAppend(t[1..], o[1..], u, v);
      } else {
        DeletesAppend(t[1..], o, u, v);
      }
    }
  }

  lemma {:induction false} DeletesLength(t: string, o: string)
    requires Deletes(t, o)
    ensures |o| <= |t|
  {
    if t != "" {
      if o != "" && o[0] == t[0] && Deletes(t[1..], o[1..]) {
        DeletesLength(t[1..], o[1..]);
      } else {
        DeletesLength(t[1..], o);
      }
    }
  }

  lemma {:induction false} DeletesNewlines(t: string)
    requires forall k :: 0 <= k < |t| ==> t[k] == '\n'
    ensures Deletes(t, "")
  {
    if t != "" {
      DeletesNewlines(t[1..]);
    }
  }

  lemma DeletesTrim(s: string)
    ensures Deletes(s, TrimEndNewlines(s))
  {
    var r := TrimEndNewlines(s);
    DeletesNothing(r);
    DeletesNewlines(s[|r|..]);
    DeletesAppend(r, r, s[|r|..], "");
    assert r + s[|r|..] == s && r + "" == r;
  }

  /** The newlines `lead` before a piece may be kept or dropped. */
  lemma DeletesPiece(t: string, o: string, lead: string, u: string, v: string)
    requires Deletes(t, o) && Deletes(u, v)
    requires forall k :: 0 <= k < |lead| ==> lead[k] == '\n'
    ensures Deletes(t + lead + u, o + v)
    ensures Deletes(t + lead + u, o + lead + v)
  {
    DeletesNothing(lead);
    DeletesNewlines(lead);
    DeletesAppend(t, o, lead, "");
    DeletesAppend(t, o, lead, lead);
    assert o + "" == o;
    DeletesAppend(t + lead, o, u, v);
    DeletesAppend(t + lead, o + lead, u, v);
  }

  /** All characters packed so far. */
  function Packed(p: Packing): string { Concat(p.chunks) + p.current }

  lemma FlushKeeps(p: Packing)
    ensures Concat(Flush(p)) == Packed(p)
  {
    ConcatSnoc(p.chunks, p.current);
  }

  lemma {:induction false} HardCutKeeps(chunks: seq<string>, buf: string, rest: string, max: nat)
    ensures Packed(HardCut(chunks, buf, rest, max)) == Concat(chunks) + buf + rest
    decreases |rest|
  {
    if rest != "" {
      assert [rest[0]] + rest[1..] == rest;
      if |buf| == max {
        HardCutKeeps(chunks + [buf], [rest[0]], rest[1..], max);
        ConcatSnoc(chunks, buf);
      } else {
        HardCutKeeps(chunks, buf + [rest[0]], rest[1..], max);
        assert Concat(chunks) + (buf + [rest[0]]) + rest[1..] == Concat(chunks) + buf + rest;
      }
    }
  }

  /** A piece is packed behind either nothing or the newlines that stood before it. */
  lemma AddLineKeeps(p: Packing, line: string, max: nat)
    ensures var q := AddLine(p, line, max);
            Packed(q) == Packed(p) + line || (p.current != "" && Packed(q) == Packed(p) + "\n" + line)
  {
    FlushKeeps(p);
    var sep := Separator(p.current, "\n");
    if |p.current| + |sep| + |line| <= max {
      assert Packed(AddLine(p, line, max)) == Packed(p) + sep + line;
      assert sep == "" ==> Packed(p) + sep == Packed(p);
    } else if |line| > max {
      HardCutKeeps(Flush(p), "", line, max);
    }
  }

  lemma AddLineDeletes(p: Packing, t: string, line: string, max: nat)
    requires Deletes(t, Packed(p))
    ensures Deletes(t + "\n" + line, Packed(AddLine(p, line, max)))
    ensures p.current == "" ==> Deletes(t + line, Packed(AddLine(p, line, max)))
  {
    AddLineKeeps(p, line, max);
    DeletesNothing(line);
    DeletesPiece(t, Packed(p), "\n", line, line);
    DeletesAppend(t, Packed(p), line, line);
  }

  lemma {:induction false} AddLinesDelete(p: Packing, t: string, lines: seq<string>, max: nat)
    requires p.current == "" && Deletes(t, Packed(p)) && lines != []
    ensures Deletes(t + Join(lines, "\n"), Packed(AddLines(p, lines, max)))
    decreases |lines|
  {
    var n := |lines| - 1;
    if n == 0 {
      AddLineDeletes(p, t, lines[0], max);
    } else {
      var u := t + Join(lines[..n], "\n");
      assert u + "\n" + lines[n] == t + Join(lines, "\n") by {
        JoinAppend(lines[..n], [lines[n]], "\n");
        assert lines[..n] + [lines[n]] == lines;
      }
      AddLinesDelete(p, t, lines[..n], max);
      AddLineDeletes(AddLines(p, lines[..n], max), u, lines[n], max);
    }
  }

  lemma AddParagraphDeletes(p: Packing, t: string, paragraph: string, max: nat)
    requires Deletes(t, Packed(p))
    ensures Deletes(t + "\n\n" + paragraph, Packed(AddParagraph(p, paragraph, max)))
    ensures p.current == "" ==> Deletes(t + paragraph, Packed(AddParagraph(p, paragraph, max)))
  {
    var para := TrimEndNewlines(paragraph);
    var sep := Separator(p.current, "\n\n");
    DeletesTrim(paragraph);
    DeletesPiece(t, Packed(p), "\n\n", paragraph, para);
    DeletesAppend(t, Packed(p), paragraph, para);
    if |p.current| + |sep| + |para| <= max {
      AppendPacked(p, sep, para);
    } else if |para| <= max {
      FlushKeeps(p);
    } else {
      BreakDeletes(t, Packed(p));
      OversizedDeletes(p, t + "\n\n", paragraph, max);
      OversizedDeletes(p, t, paragraph, max);
    }
  }

  lemma AppendPacked(p: Packing, sep: string, para: string)
    ensures Packed(p.(current := p.current + sep + para)) == Packed(p) + sep + para
    ensures sep == "" ==> Packed(p) + sep + para == Packed(p) + para
  {
  }

  lemma BreakDeletes(t: string, o: string)
    requires Deletes(t, o)
    ensures Deletes(t + "\n\n", o)
  {
    DeletesNewlines("\n\n");
    DeletesAppend(t, o, "\n\n", "");
    assert o + "" == o;
  }

  lemma OversizedDeletes(p: Packing, t: string, paragraph: string, max: nat)
    requires Deletes(t, Packed(p))
    ensures var para := TrimEndNewlines(paragraph);
            Deletes(t + paragraph, Packed(AddLines(Packing(Flush(p), ""), Split(para, '\n'), max)))
  {
    var para := TrimEndNewlines(paragraph);
    FlushKeeps(p);
    assert Packed(Packing(Flush(p), "")) == Packed(p);
    AddLinesDelete(Packing(Flush(p), ""), t, Split(para, '\n'), max);
    JoinSplit(para, '\n');
    var out := Packed(AddLines(Packing(Flush(p), ""), Split(para, '\n'), max));
    DeletesNewlines(paragraph[|para|..]);
    DeletesAppend(t + para, out, paragraph[|para|..], "");
    assert t + para + paragraph[|para|..] == t + paragraph && out + "" == out;
  }

  lemma {:induction false} AddParagraphsDelete(paragraphs: seq<string>, max: nat)
    requires paragraphs != []
    ensures Deletes(Join(paragraphs, "\n\n"), Packed(AddParagraphs(Packing([], ""), paragraphs, max)))
    decreases |paragraphs|
  {
    var n := |paragraphs| - 1;
    var init := Packing([], "");
    if n == 0 {
      AddParagraphDeletes(init, "", paragraphs[0], max);
      assert "" + paragraphs[0] == paragraphs[0];
    } else {
      AddParagraphsDelete(paragraphs[..n], max);
      assert paragraphs[..n] + [paragraphs[n]] == paragraphs;
      JoinAppend(paragraphs[..n], [paragraphs[n]], "\n\n");
      AddParagraphDeletes(AddParagraphs(init, paragraphs[..n], max), Join(paragraphs[..n], "\n\n"), paragraphs[n], max);
    }
  }

  /** The chunks put together are the text with some newlines missing. */
  lemma ChunksDeleteOnlyNewlines(text: string, max: nat)
    ensures Deletes(text, Concat(Chunks(text, max)))
  {
    AddParagraphsDelete(SplitBreaks(text), max);
    JoinSplitBreaks(text);
    FlushKeeps(AddParagraphs(Packing([], ""), SplitBreaks(text), max));
  }

  // --- Chunk sizes ---

  ghost predicate HasInk(s: string) {
    exists k :: 0 <= k < |s| && s[k] != '\n'
  }

  lemma InkGrows(a: string, b: string)
    requires HasInk(a) || HasInk(b)
    ensures HasInk(a + b)
  {
    if HasInk(a) {
      var k :| 0 <= k < |a| && a[k] != '\n';
      assert (a + b)[k] == a[k];
    } else {
      var k :| 0 <= k < |b| && b[k] != '\n';
      assert (a + b)[|a| + k] == b[k];
    }
  }

  ghost predicate Sized(p: Packing, max: nat) {
    && (forall k :: 0 <= k < |p.chunks| ==> |p.chunks[k]| <= max && HasInk(p.chunks[k]))
    && |p.current| <= max
    && (p.current == "" || HasInk(p.current))
  }

  lemma {:induction false} HardCutSized(chunks: seq<string>, buf: string, rest: string, max: nat)
    requires max >= 1 && '\n' !in rest && Sized(Packing(chunks, buf), max)
    ensures Sized(HardCut(chunks, buf, rest, max), max)
    decreases |rest|
  {
    if rest != "" {
      assert HasInk([rest[0]]) by { assert [rest[0]][0] != '\n'; }
      if |buf| == max {
        HardCutSized(chunks + [buf], [rest[0]], rest[1..], max);
      } else {
        InkGrows(buf, [rest[0]]);
        HardCutSized(chunks, buf + [rest[0]], rest[1..], max);
      }
    }
  }

  lemma AddLineSized(p: Packing, line: string, max: nat)
    requires max >= 1 && Sized(p, max) && '\n' !in line
    ensures Sized(AddLine(p, line, max), max)
  {
    var sep := Separator(p.current, "\n");
    assert line != "" ==> HasInk(line) by { assert line != "" ==> line[0] != '\n'; }
    if |p.current| + |sep| + |line| <= max {
      if p.current != "" {
        InkGrows(p.current, sep);
        InkGrows(p.current + sep, line);
      } else {
        assert p.current + sep + line == line;
      }
    } else if |line| > max {
      HardCutSized(Flush(p), "", line, max);
    }
  }

  lemma {:induction false} AddLinesSized(p: Packing, lines: seq<string>, max: nat)
    requires max >= 1 && Sized(p, max) && forall k :: 0 <= k < |lines| ==> '\n' !in lines[k]
    ensures Sized(AddLines(p, lines, max), max)
    decreases |lines|
  {
    if lines != [] {
      AddLinesSized(p, lines[..|lines| - 1], max);
      AddLineSized(AddLines(p, lines[..|lines| - 1], max), lines[|lines| - 1], max);
    }
  }

  lemma AddParagraphSized(p: Packing, paragraph: string, max: nat)
    requires max >= 1 && Sized(p, max)
    ensures Sized(AddParagraph(p, paragraph, max), max)
  {
    var para := TrimEndNewlines(paragraph);
    var sep := Separator(p.current, "\n\n");
    assert para != "" ==> HasInk(para) by { assert para != "" ==> para[|para| - 1] != '\n'; }
    if |p.current| + |sep| + |para| <= max {
      if p.current != "" {
        InkGrows(p.current, sep);
        InkGrows(p.current + sep, para);
      } else {
        assert p.current + sep + para == para;
      }
    } else if |para| > max {
      SplitPiecesLack(para, '\n');
      AddLinesSized(Packing(Flush(p), ""), Split(para, '\n'), max);
    }
  }

  lemma {:induction false} AddParagraphsSized(paragraphs: seq<string>, max: nat)
    requires max >= 1
    ensures Sized(AddParagraphs(Packing([], ""), paragraphs, max), max)
    decreases |paragraphs|
  {
    if paragraphs != [] {
      var n := |paragraphs| - 1;
      AddParagraphsSized(paragraphs[..n], max);
      AddParagraphSized(AddParagraphs(Packing([], ""), paragraphs[..n], max), paragraphs[n], max);
    }
  }

  /** No chunk is longer than the limit, and none is only newlines. */
  lemma ChunksSized(text: string, max: nat)
    requires max >= 1
    ensures forall k :: 0 <= k < |Chunks(text, max)| ==> |Chunks(text, max)[k]| <= max && HasInk(Chunks(text, max)[k])
  {
    AddParagraphsSized(SplitBreaks(text), max);
  }

  /** With a limit of zero the hard cut emits an empty chunk and then an oversized one. */
  lemma ZeroLimitOverflows(c: char)
    requires c != '\n'
    ensures Chunks([c], 0) == ["", [c]]
  {
    SplitBreaksWhole([c]);
    SplitJoin([[c]], '\n');
    var cut := HardCut([], "", [c], 0);
    assert [c][1..] == "" && [] + [""] == [""];
    assert cut == HardCut([""], [c], "", 0);
    assert [[c]][..0] == [];
    assert AddLines(Packing([], ""), [[c]], 0) == AddLine(Packing([], ""), [c], 0) == cut;
    assert AddParagraphs(Packing([], ""), [[c]], 0) == AddParagraph(Packing([], ""), [c], 0);
  }

  /** Every other limit is kept by every chunk of every text. */
  lemma LimitKept(max: nat)
    ensures (forall text, k :: 0 <= k < |Chunks(text, max)| ==> |Chunks(text, max)[k]| <= max) <==> max >= 1
  {
    if max >= 1 {
      forall text, k | 0 <= k < |Chunks(text, max)| ensures |Chunks(text, max)[k]| <= max {
        ChunksSized(text, max);
      }
    } else {
      ZeroLimitOverflows('x');
      assert |Chunks(['x'], 0)[1]| == 1;
    }
  }

  // --- Packing bound ---

  /** Two neighbours that could not have been one chunk. */
  ghost predicate Tight(a: string, b: string, max: nat) {
    |a| + |b| + 1 >= max
  }

  /** Of any two adjacent pairs of finished chunks, one is tight. */
  ghost predicate Dense(chunks: seq<string>, max: nat) {
    forall k :: 0 <= k < |chunks| - 2 ==>
        Tight(chunks[k], chunks[k + 1], max) || Tight(chunks[k + 1], chunks[k + 2], max)
  }

  ghost predicate LastTight(chunks: seq<string>, current: string, max: nat) {
    |chunks| >= 1 ==> Tight(chunks[|chunks| - 1], current, max)
  }

  /** Between paragraphs: the chunk being filled is tight against the last finished one. */
  ghost predicate Settled(p: Packing, max: nat) {
    Dense(p.chunks, max) && LastTight(p.chunks, p.current, max)
  }

  /** Inside an oversized paragraph nothing may have been finished yet; then the chunk
      being filled holds all of the `seen` characters of the paragraph but one newline. */
  ghost predicate Opening(p: Packing, seen: nat, max: nat) {
    && Dense(p.chunks, max)
    && (|p.chunks| >= 2 ==> Tight(p.chunks[|p.chunks| - 2], p.chunks[|p.chunks| - 1], max))
    && |p.current| + 1 >= seen
  }

  lemma {:induction false} HardCutSettled(chunks: seq<string>, buf: string, rest: string, max: nat)
    requires max >= 1 && Settled(Packing(chunks, buf), max)
    ensures Settled(HardCut(chunks, buf, rest, max), max)
    decreases |rest|
  {
    if rest != "" {
      if |buf| == max {
        HardCutSettled(chunks + [buf], [rest[0]], rest[1..], max);
      } else {
        HardCutSettled(chunks, buf + [rest[0]], rest[1..], max);
      }
    }
  }

  /** The first character of an oversized line forces a cut before the line ends. */
  lemma HardCutFirst(chunks: seq<string>, line: string, max: nat)
    requires max >= 1 && |line| > max
    ensures HardCut(chunks, "", line, max) == HardCut(chunks + [line[..max]], [line[max]], line[max + 1..], max)
  {
    HardCutRun(chunks, "", line, max);
    assert "" + line[..max] == line[..max];
    assert line[max..][1..] == line[max + 1..];
  }

  lemma {:induction false} HardCutRun(chunks: seq<string>, buf: string, rest: string, max: nat)
    requires |buf| <= max && |buf| + |rest| > max
    ensures var k := max - |buf|;
            HardCut(chunks, buf, rest, max) == HardCut(chunks, buf + rest[..k], rest[k..], max)
    decreases |rest|
  {
    var k := max - |buf|;
    if k == 0 {
      assert buf + rest[..0] == buf && rest[0..] == rest;
    } else {
      HardCutRun(chunks, buf + [rest[0]], rest[1..], max);
      assert buf + [rest[0]] + rest[1..][..k - 1] == buf + rest[..k];
      assert rest[1..][k - 1..] == rest[k..];
    }
  }

  lemma AddLineSettled(p: Packing, line: string, seen: nat, seen': nat, max: nat)
    requires max >= 2
    requires Settled(p, max) || Opening(p, seen, max)
    requires seen' <= |line| + 1 + (if p.current == "" then 0 else seen)
    ensures var q := AddLine(p, line, max); Settled(q, max) || Opening(q, seen', max)
  {
    var sep := Separator(p.current, "\n");
    if |p.current| + |sep| + |line| > max {
      var done := Flush(p);
      assert p.current != "" ==> Dense(done, max);
      if |line| > max {
        HardCutFirst(done, line, max);
        HardCutSettled(done + [line[..max]], [line[max]], line[max + 1..], max);
      }
    }
  }

  lemma {:induction false} HardCutOpen(chunks: seq<string>, buf: string, rest: string, max: nat)
    requires buf != "" || rest != ""
    ensures HardCut(chunks, buf, rest, max).current != ""
    decreases |rest|
  {
    if rest != "" {
      if |buf| == max {
        HardCutOpen(chunks + [buf], [rest[0]], rest[1..], max);
      } else {
        HardCutOpen(chunks, buf + [rest[0]], rest[1..], max);
      }
    }
  }

  lemma AddLineOpen(p: Packing, line: string, max: nat)
    requires line != ""
    ensures AddLine(p, line, max).current != ""
  {
    if |line| > max {
      HardCutOpen(Flush(p), "", line, max);
    }
  }

  /** Lines leave the chunk being filled empty only if they are a single empty line. */
  lemma AddLinesOpen(p: Packing, lines: seq<string>, max: nat)
    requires lines != [] && forall k :: 1 <= k < |lines| ==> lines[k] != ""
    ensures AddLines(p, lines, max).current == "" ==> lines == [""]
  {
    var n := |lines| - 1;
    if lines[n] != "" {
      AddLineOpen(AddLines(p, lines[..n], max), lines[n], max);
    }
  }

  lemma {:induction false} AddLinesSettled(p: Packing, lines: seq<string>, max: nat)
    requires max >= 2 && p.current == "" && lines != []
    requires Settled(p, max) || Opening(p, 0, max)
    requires forall k :: 1 <= k < |lines| ==> lines[k] != ""
    ensures var q := AddLines(p, lines, max); Settled(q, max) || Opening(q, |Join(lines, "\n")|, max)
    decreases |lines|
  {
    var n := |lines| - 1;
    var front, line := lines[..n], lines[n];
    if n == 0 {
      assert front == [] && AddLines(p, front, max) == p;
      AddLineSettled(p, line, 0, |line|, max);
    } else {
      AddLinesSettled(p, front, max);
      AddLinesOpen(p, front, max);
      JoinedLength(lines);
      AddLineSettled(AddLines(p, front, max), line, |Join(front, "\n")|, |Join(lines, "\n")|, max);
    }
  }

  lemma JoinedLength(lines: seq<string>)
    requires |lines| > 1
    ensures var n := |lines| - 1;
            && |Join(lines, "\n")| == |Join(lines[..n], "\n")| + 1 + |lines[n]|
            && (lines[..n] == [""] ==> |Join(lines[..n], "\n")| == 0)
  {
    var n := |lines| - 1;
    assert lines[..n] + [lines[n]] == lines;
    JoinAppend(lines[..n], [lines[n]], "\n");
  }

  lemma AddParagraphSettled(p: Packing, paragraph: string, max: nat)
    requires max >= 2 && Settled(p, max) && NoBreak(paragraph)
    ensures Settled(AddParagraph(p, paragraph, max), max)
  {
    var para := TrimEndNewlines(paragraph);
    var sep := Separator(p.current, "\n\n");
    if |p.current| + |sep| + |para| > max && |para| > max {
      forall k ensures !BreakAt(para, k) {
        assert !BreakAt(paragraph, k);
      }
      LinesNonempty(para);
      JoinSplit(para, '\n');
      AddLinesSettled(Packing(Flush(p), ""), Split(para, '\n'), max);
    }
  }

  lemma {:induction false} AddParagraphsSettled(paragraphs: seq<string>, max: nat)
    requires max >= 2 && forall k :: 0 <= k < |paragraphs| ==> NoBreak(paragraphs[k])
    ensures Settled(AddParagraphs(Packing([], ""), paragraphs, max), max)
    decreases |paragraphs|
  {
    if paragraphs != [] {
      var n := |paragraphs| - 1;
      AddParagraphsSettled(paragraphs[..n], max);
      AddParagraphSettled(AddParagraphs(Packing([], ""), paragraphs[..n], max), paragraphs[n], max);
    }
  }

  /** Any three chunks in a row hold at least max - 1 characters. */
  lemma ThreeChunks(text: string, max: nat, k: nat)
    requires max >= 2 && k + 2 < |Chunks(text, max)|
    ensures var c := Chunks(text, max); |c[k]| + |c[k + 1]| + |c[k + 2]| >= max - 1
  {
    SplitBreaksPieces(text);
    AddParagraphsSettled(SplitBreaks(text), max);
    var p := AddParagraphs(Packing([], ""), SplitBreaks(text), max);
    assert Dense(Flush(p), max);
  }

  lemma ConcatThree(chunks: seq<string>)
    requires |chunks| >= 3
    ensures |Concat(chunks)| == |chunks[0]| + |chunks[1]| + |chunks[2]| + |Concat(chunks[3..])|
  {
    assert chunks[1..][1..] == chunks[2..];
    assert chunks[2..][1..] == chunks[3..];
    assert Concat(chunks[1..]) == chunks[1] + Concat(chunks[2..]);
    assert Concat(chunks[2..]) == chunks[2] + Concat(chunks[3..]);
  }

  lemma {:induction false} CountByThrees(chunks: seq<string>, max: nat)
    requires max >= 2
    requires forall k {:trigger chunks[k]} :: 0 <= k < |chunks| - 2 ==>
            |chunks[k]| + |chunks[k + 1]| + |chunks[k + 2]| >= max - 1
    ensures |Concat(chunks)| >= (|chunks| / 3) * (max - 1)
    decreases |chunks|
  {
    if |chunks| >= 3 {
      var rest := chunks[3..];
      ConcatThree(chunks);
      CountByThrees(rest, max);
      assert |chunks| / 3 == |rest| / 3 + 1;
      assert (|rest| / 3 + 1) * (max - 1) == (|rest| / 3) * (max - 1) + (max - 1);
    }
  }

  lemma QuotientBound(n: nat, len: nat, m: nat)
    requires m >= 1 && n * m <= len
    ensures n <= len / m
  {
    var q := len / m;
    assert q * m + len % m == len;
    if n >= q + 1 {
      MulMonotone(q + 1, n, m);
      assert false;
    }
  }

  /** The number of messages a reply is cut into is bounded by its length. */
  lemma ChunkCount(text: string, max: nat)
    requires max >= 2
    ensures |Chunks(text, max)| <= 3 * (|text| / (max - 1)) + 2
  {
    var c := Chunks(text, max);
    forall k {:trigger c[k]} | 0 <= k < |c| - 2 ensures |c[k]| + |c[k + 1]| + |c[k + 2]| >= max - 1 {
      ThreeChunks(text, max, k);
    }
    CountByThrees(c, max);
    ChunksDeleteOnlyNewlines(text, max);
    DeletesLength(text, Concat(c));
    QuotientBound(|c| / 3, |text|, max - 1);
  }

  // --- Short texts ---

  function TrailingRun(s: string): nat {
    if s != "" && s[|s| - 1] == '\n' then 1 + TrailingRun(s[..|s| - 1]) else 0
  }

  /** The one chunk a short text becomes: leading breaks dropped, an odd trailing run made even. */
  function Canonical(text: string): string
    decreases |text|
  {
    if BreakAt(text, 0) then Canonical(text[2..])
    else if TrailingRun(text) % 2 == 1 then text[..|text| - 1]
    else text
  }

  /** The paragraphs pushed one after another into an empty chunk. */
  function Glue(paragraphs: seq<string>): string {
    if paragraphs == [] then ""
    else
      var g := Glue(paragraphs[..|paragraphs| - 1]);
      g + Separator(g, "\n\n") + TrimEndNewlines(paragraphs[|paragraphs| - 1])
  }

  lemma {:induction false} ShortPacks(paragraphs: seq<string>, max: nat)
    requires |Join(paragraphs, "\n\n")| <= max
    ensures AddParagraphs(Packing([], ""), paragraphs, max) == Packing([], Glue(paragraphs))
    ensures |Glue(paragraphs)| <= |Join(paragraphs, "\n\n")|
    decreases |paragraphs|
  {
    if paragraphs != [] {
      var n := |paragraphs| - 1;
      assert paragraphs[..n] + [paragraphs[n]] == paragraphs;
      if n > 0 {
        JoinAppend(paragraphs[..n], [paragraphs[n]], "\n\n");
      }
      ShortPacks(paragraphs[..n], max);
    }
  }

  lemma {:induction false} GlueDropsEmpty(paragraphs: seq<string>)
    ensures Glue([""] + paragraphs) == Glue(paragraphs)
    decreases |paragraphs|
  {
    var all := [""] + paragraphs;
    var n := |paragraphs|;
    if n == 0 {
      assert all[..0] == [];
    } else {
      assert all[..n] == [""] + paragraphs[..n - 1];
      GlueDropsEmpty(paragraphs[..n - 1]);
    }
  }

  lemma TrimKeeps(s: string)
    requires s == "" || s[|s| - 1] != '\n'
    ensures TrimEndNewlines(s) == s
  {
  }

  function Last(parts: seq<string>): string
    requires parts != []
  {
    parts[|parts| - 1]
  }

  function Front(parts: seq<string>): string
    requires parts != []
  {
    if |parts| == 1 then "" else Join(parts[..|parts| - 1], "\n\n") + "\n\n"
  }

  lemma JoinLast(parts: seq<string>)
    requires parts != []
    ensures Join(parts, "\n\n") == Front(parts) + Last(parts)
  {
    var n := |parts| - 1;
    var front, last := parts[..n], parts[n];
    if n == 0 {
      assert Join(parts, "\n\n") == last == "" + last;
    } else {
      assert Join([last], "\n\n") == last;
      JoinAppend(front, [last], "\n\n");
      assert front + [last] == parts;
      assert Front(parts) == Join(front, "\n\n") + "\n\n";
    }
  }

  lemma {:induction false} GlueJoins(paragraphs: seq<string>)
    requires paragraphs != [] && paragraphs[0] != ""
    requires forall k :: 0 <= k < |paragraphs| && paragraphs[k] != "" ==> paragraphs[k][|paragraphs[k]| - 1] != '\n'
    ensures Glue(paragraphs) == Join(paragraphs, "\n\n") != ""
    decreases |paragraphs|
  {
    var n := |paragraphs| - 1;
    JoinLast(paragraphs);
    TrimKeeps(paragraphs[n]);
    if n == 0 {
      assert Glue(paragraphs[..0]) == "" && "" + "" + paragraphs[0] == paragraphs[0];
    } else {
      GlueJoins(paragraphs[..n]);
      assert Glue(paragraphs) == Glue(paragraphs[..n]) + "\n\n" + paragraphs[n];
    }
  }

  lemma {:induction false} TrailingRunCons(c: char, s: string)
    ensures TrailingRun([c] + s) == if TrailingRun(s) == |s| && c == '\n' then |s| + 1 else TrailingRun(s)
    ensures TrailingRun(s) <= |s|
  {
    if s == "" {
      assert [c] + s == [c] && [c][..0] == "";
    } else {
      var t := [c] + s;
      assert t[..|t| - 1] == [c] + s[..|s| - 1];
      TrailingRunCons(c, s[..|s| - 1]);
    }
  }

  predicate EndsInNewline(s: string) {
    s != "" && s[|s| - 1] == '\n'
  }

  lemma {:induction false} RunIsNewlines(s: string)
    ensures TrailingRun(s) <= |s|
    ensures forall k :: |s| - TrailingRun(s) <= k < |s| ==> s[k] == '\n'
  {
    if EndsInNewline(s) {
      RunIsNewlines(s[..|s| - 1]);
    }
  }

  lemma RunAfterBreak(text: string)
    requires BreakAt(text, 0)
    ensures TrailingRun(text) % 2 == TrailingRun(text[2..]) % 2
  {
    assert text[1..] == [text[1]] + text[2..];
    assert text == [text[0]] + text[1..];
    TrailingRunCons(text[1], text[2..]);
    TrailingRunCons(text[0], text[1..]);
  }

  lemma RunAfterChar(text: string)
    requires |text| > 1 && !BreakAt(text, 0)
    ensures TrailingRun(text) == TrailingRun(text[1..])
  {
    assert text == [text[0]] + text[1..];
    TrailingRunCons(text[0], text[1..]);
    RunIsNewlines(text[1..]);
  }

  lemma {:induction false} TrailingRunParity(text: string)
    ensures TrailingRun(text) % 2 == 1 <==> EndsInNewline(Last(SplitBreaks(text)))
    decreases |text|
  {
    if |text| <= 1 {
      SplitBreaksWhole(text);
      assert text != "" ==> TrailingRun(text[..0]) == 0;
    } else if BreakAt(text, 0) {
      RunAfterBreak(text);
      TrailingRunParity(text[2..]);
      LastAfterBreak(text);
    } else {
      RunAfterChar(text);
      TrailingRunParity(text[1..]);
      LastAfterChar(text);
    }
  }

  lemma LastAfterBreak(text: string)
    requires BreakAt(text, 0)
    ensures Last(SplitBreaks(text)) == Last(SplitBreaks(text[2..]))
  {
  }

  lemma LastAfterChar(text: string)
    requires |text| > 1 && !BreakAt(text, 0)
    ensures EndsInNewline(Last(SplitBreaks(text))) <==> EndsInNewline(Last(SplitBreaks(text[1..])))
  {
    var r := SplitBreaks(text[1..]);
    if |r| == 1 {
      assert r[0] == text[1..] by { JoinSplitBreaks(text[1..]); }
      assert Last(SplitBreaks(text)) == [text[0]] + r[0];
    } else {
      assert Last(SplitBreaks(text)) == Last(r);
    }
  }

  lemma FirstPieceNonempty(text: string)
    requires !BreakAt(text, 0) && |SplitBreaks(text)| > 1
    ensures SplitBreaks(text)[0] != ""
  {
  }

  lemma TrimOne(s: string)
    requires NoBreak(s)
    ensures TrimEndNewlines(s) == if EndsInNewline(s) then s[..|s| - 1] else s
  {
    if EndsInNewline(s) {
      assert !BreakAt(s, |s| - 2);
      TrimKeeps(s[..|s| - 1]);
    }
  }

  /** Glueing differs from joining only in how the last piece is trimmed. */
  lemma GlueLast(parts: seq<string>)
    requires parts != []
    requires |parts| > 1 ==> parts[0] != ""
    requires forall k :: 0 <= k < |parts| - 1 && parts[k] != "" ==> parts[k][|parts[k]| - 1] != '\n'
    ensures Glue(parts) == Front(parts) + TrimEndNewlines(Last(parts))
  {
    var n := |parts| - 1;
    var front := parts[..n];
    if n == 0 {
      assert Glue(front) == "" && "" + "" + TrimEndNewlines(Last(parts)) == "" + TrimEndNewlines(Last(parts));
    } else {
      GlueJoins(front);
      assert Glue(parts) == Glue(front) + "\n\n" + TrimEndNewlines(Last(parts));
    }
  }

  lemma TrimEndOf(front: string, last: string)
    requires NoBreak(last)
    ensures var s := front + last; front + TrimEndNewlines(last) == if EndsInNewline(last) then s[..|s| - 1] else s
  {
    TrimOne(last);
  }

  lemma GlueUnbroken(text: string, parts: seq<string>)
    requires parts != [] && text == Join(parts, "\n\n") && NoBreak(Last(parts))
    requires |parts| > 1 ==> parts[0] != ""
    requires forall k :: 0 <= k < |parts| - 1 && parts[k] != "" ==> parts[k][|parts[k]| - 1] != '\n'
    ensures EndsInNewline(Last(parts)) ==> text != "" && Glue(parts) == text[..|text| - 1]
    ensures !EndsInNewline(Last(parts)) ==> Glue(parts) == text
  {
    JoinLast(parts);
    GlueLast(parts);
    TrimEndOf(Front(parts), Last(parts));
  }

  lemma GlueOfUnbroken(text: string)
    requires !BreakAt(text, 0)
    ensures var last := Last(SplitBreaks(text));
            && (EndsInNewline(last) ==> text != "" && Glue(SplitBreaks(text)) == text[..|text| - 1])
            && (!EndsInNewline(last) ==> Glue(SplitBreaks(text)) == text)
  {
    var parts := SplitBreaks(text);
    SplitBreaksPieces(text);
    JoinSplitBreaks(text);
    if |parts| > 1 {
      FirstPieceNonempty(text);
    }
    assert NoBreak(parts[|parts| - 1]);
    GlueUnbroken(text, parts);
  }

  lemma {:induction false} GlueIsCanonical(text: string)
    ensures Glue(SplitBreaks(text)) == Canonical(text)
    decreases |text|
  {
    if BreakAt(text, 0) {
      var rest := text[2..];
      assert SplitBreaks(text) == [""] + SplitBreaks(rest);
      GlueDropsEmpty(SplitBreaks(rest));
      GlueIsCanonical(rest);
    } else {
      GlueOfUnbroken(text);
      TrailingRunParity(text);
    }
  }

  /** A text within the limit becomes at most one chunk, and which one is known. */
  lemma ShortText(text: string, max: nat)
    requires |text| <= max
    ensures Chunks(text, max) == if Canonical(text) == "" then [] else [Canonical(text)]
  {
    JoinSplitBreaks(text);
    ShortPacks(SplitBreaks(text), max);
    GlueIsCanonical(text);
  }

  lemma {:induction false} CanonicalShorter(text: string)
    ensures |Canonical(text)| <= |text|
    ensures BreakAt(text, 0) ==> |Canonical(text)| < |text|
    decreases |text|
  {
    if BreakAt(text, 0) {
      CanonicalShorter(text[2..]);
    }
  }

  /** Exactly when a short text is sent unchanged as one message. */
  lemma SentUnchanged(text: string, max: nat)
    requires |text| <= max
    ensures Chunks(text, max) == [text] <==> text != "" && !BreakAt(text, 0) && TrailingRun(text) % 2 == 0
  {
    ShortText(text, max);
    CanonicalShorter(text);
  }

  /** Two texts that fit and are yet not sent as they are. */
  lemma ShortTextChanged(max: nat)
    requires max >= 3
    ensures Chunks("\n\na", max) == ["a"] && Chunks("a\n", max) == ["a"]
  {
    ShortText("\n\na", max);
    ShortText("a\n", max);
    var t, u := "\n\na", "a\n";
    assert t[2..] == "a" && u[..1] == "a" && "a"[0] == 'a';
    assert TrailingRun("a") == 0 && TrailingRun(u) == 1;
    assert Canonical("a") == "a";
  }
}
