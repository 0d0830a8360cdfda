/** Where `split_response` cuts: the packing of paragraphs, lines and characters is one greedy
    pass over pieces that are never cut. */
module SplitPieces {
  import opened Text
  import opened SplitResponse

  /** A piece of the text that stays whole: a paragraph that fits, else a line that fits, else a
      stretch of a line. `para` and `line` say where it stands; `starts`: it never stands behind
      another one. */
  datatype Piece = Piece(text: string, para: nat, line: nat, starts: bool)

  /** The stretches of a line, of `max` characters each but for the last one. */
  function Stretches(line: string, max: nat): seq<string>
    requires max >= 1
    decreases |line|
  {
    if |line| <= max then [line] else [line[..max]] + Stretches(line[max..], max)
  }

  /** A line that fits is one piece; every stretch of a longer one starts a chunk. */
  function LinePieces(line: string, para: nat, n: nat, max: nat): seq<Piece>
    requires max >= 1
  {
    var parts := Stretches(line, max);
    seq(|parts|, k requires 0 <= k < |parts| => Piece(parts[k], para, n, n == 0 || |line| > max))
  }

  /** The pieces of the lines from number n on. */
  function LinesPieces(lines: seq<string>, para: nat, max: nat): seq<Piece>
    requires max >= 1
  {
    if lines == [] then []
    else LinesPieces(lines[..|lines| - 1], para, max) + LinePieces(lines[|lines| - 1], para, |lines| - 1, max)
  }

  /** A paragraph that fits, without the newlines at its end, is one piece. */
  function ParagraphPieces(paragraph: string, para: nat, max: nat): seq<Piece>
    requires max >= 1
  {
    var trimmed := TrimEndNewlines(paragraph);
    if |trimmed| <= max then [Piece(trimmed, para, 0, false)] else LinesPieces(Split(trimmed, '\n'), para, max)
  }

  function Pieces(paragraphs: seq<string>, max: nat): seq<Piece>
    requires max >= 1
  {
    if paragraphs == [] then []
    else
      var n := |paragraphs| - 1;
      Pieces(paragraphs[..n], max) + ParagraphPieces(paragraphs[n], n, max)
  }

  /** What stands between two pieces in a chunk. */
  function Between(a: Piece, b: Piece): string { if a.para == b.para then "\n" else "\n\n" }

  /** The chunk that holds these pieces. Nothing stands before the first one that has any text. */
  function Laid(pieces: seq<Piece>): string {
    if pieces == [] then ""
    else
      var n := |pieces| - 1;
      var front := Laid(pieces[..n]);
      front + (if front == "" then "" else Between(pieces[n - 1], pieces[n])) + pieces[n].text
  }

  /** The chunks that hold these groups; a group without text makes none. */
  function Shown(groups: seq<seq<Piece>>): seq<string> {
    if groups == [] then []
    else
      var n := |groups| - 1;
      var last := Laid(groups[n]);
      if last == "" then Shown(groups[..n]) else Shown(groups[..n]) + [last]
  }

  /** The next piece joins the last group if it may and fits, else it opens a group. */
  function Place(groups: seq<seq<Piece>>, b: Piece, max: nat): seq<seq<Piece>>
    requires groups != []
    ensures Place(groups, b, max) != []
  {
    var n := |groups| - 1;
    if !b.starts && |Laid(groups[n] + [b])| <= max then groups[n := groups[n] + [b]] else groups + [[b]]
  }

  /** Before the first piece. */
  const NOTHING: seq<seq<Piece>> := [[]]

  function PlaceAll(groups: seq<seq<Piece>>, pieces: seq<Piece>, max: nat): seq<seq<Piece>>
    requires groups != []
    ensures PlaceAll(groups, pieces, max) != []
  {
    if pieces == [] then groups
    else Place(PlaceAll(groups, pieces[..|pieces| - 1], max), pieces[|pieces| - 1], max)
  }

  // --- The packing is that pass ---

  /** The finished chunks and the one being filled are what the groups hold. */
  ghost predicate Built(p: Packing, groups: seq<seq<Piece>>) {
    groups != [] && p.current == Laid(groups[|groups| - 1]) && p.chunks == Shown(groups[..|groups| - 1])
  }

  /** The last group is empty, or its last piece is of this paragraph, or of an earlier one. */
  predicate EndsBy(groups: seq<seq<Piece>>, para: int) {
    groups != [] && var g := groups[|groups| - 1]; g == [] || g[|g| - 1].para <= para
  }

  predicate EndsIn(groups: seq<seq<Piece>>, para: nat) {
    groups != [] && var g := groups[|groups| - 1]; g != [] && g[|g| - 1].para == para
  }

  lemma LaidSnoc(g: seq<Piece>, b: Piece)
    ensures Laid(g + [b]) == Laid(g) + (if Laid(g) == "" then "" else Between(g[|g| - 1], b)) + b.text
    ensures Laid([b]) == b.text
  {
    assert (g + [b])[..|g|] == g;
    assert [b][..0] == [];
    assert "" + "" + b.text == b.text;
  }

  lemma FlushShown(p: Packing, groups: seq<seq<Piece>>)
    requires Built(p, groups)
    ensures Flush(p) == Shown(groups)
  {
  }

  /** A piece that opens a group. */
  lemma OpensGroup(p: Packing, groups: seq<seq<Piece>>, b: Piece)
    requires Built(p, groups)
    ensures Built(Packing(Flush(p), b.text), groups + [[b]])
  {
    FlushShown(p, groups);
    LaidSnoc([], b);
    assert (groups + [[b]])[..|groups|] == groups;
  }

  /** A piece that may stand behind another one. */
  lemma JoinsGroup(p: Packing, groups: seq<seq<Piece>>, b: Piece, sep: string, max: nat)
    requires Built(p, groups) && !b.starts
    requires var g := groups[|groups| - 1]; g == [] || Between(g[|g| - 1], b) == sep
    ensures var size := |p.current| + |Separator(p.current, sep)| + |b.text|;
            Built(if size <= max then p.(current := p.current + Separator(p.current, sep) + b.text)
                  else Packing(Flush(p), b.text), Place(groups, b, max))
  {
    var n := |groups| - 1;
    LaidSnoc(groups[n], b);
    OpensGroup(p, groups, b);
    assert groups[n := groups[n] + [b]][..n] == groups[..n];
  }

  lemma HardCutShort(done: seq<string>, buf: string, rest: string, max: nat)
    requires |buf| + |rest| <= max
    ensures HardCut(done, buf, rest, max) == Packing(done, buf + rest)
    decreases |rest|
  {
    if rest == "" {
      assert buf + rest == buf;
    } else {
      HardCutShort(done, buf + [rest[0]], rest[1..], max);
      assert buf + [rest[0]] + rest[1..] == buf + rest;
    }
  }

  lemma {:induction false} HardCutStretches(done: seq<string>, line: string, max: nat)
    requires max >= 1
    ensures var parts := Stretches(line, max);
            && parts != []
            && HardCut(done, "", line, max) == Packing(done + parts[..|parts| - 1], parts[|parts| - 1])
    decreases |line|
  {
    if |line| <= max {
      HardCutShort(done, "", line, max);
      assert "" + line == line && done + [line][..0] == done;
    } else {
      var more := done + [line[..max]];
      var parts := Stretches(line[max..], max);
      HardCutFirst(done, line, max);
      HardCutStretches(more, line[max..], max);
      HardCutNext(more, line[max..], max);
      assert line[max..][1..] == line[max + 1..];
      assert ([line[..max]] + parts)[..|parts|] == [line[..max]] + parts[..|parts| - 1];
      assert more + parts[..|parts| - 1] == done + ([line[..max]] + parts[..|parts| - 1]);
    }
  }

  lemma HardCutNext(done: seq<string>, rest: string, max: nat)
    requires max >= 1 && rest != ""
    ensures HardCut(done, "", rest, max) == HardCut(done, [rest[0]], rest[1..], max)
  {
    assert "" + [rest[0]] == [rest[0]];
  }

  lemma PlaceSnoc(groups: seq<seq<Piece>>, pieces: seq<Piece>, b: Piece, max: nat)
    requires groups != []
    ensures PlaceAll(groups, pieces + [b], max) == Place(PlaceAll(groups, pieces, max), b, max)
  {
    assert (pieces + [b])[..|pieces|] == pieces;
  }

  lemma {:induction false} PlaceAppend(groups: seq<seq<Piece>>, a: seq<Piece>, b: seq<Piece>, max: nat)
    requires groups != []
    ensures PlaceAll(groups, a + b, max) == PlaceAll(PlaceAll(groups, a, max), b, max)
    decreases |b|
  {
    if b == [] {
      assert a + b == a;
    } else {
      assert (a + b)[..|a + b| - 1] == a + b[..|b| - 1];
      PlaceAppend(groups, a, b[..|b| - 1], max);
    }
  }

  /** All but the last of these are finished behind what was packed. */
  function Cuts(p: Packing, texts: seq<string>): Packing
    requires texts != []
  {
    Packing(Flush(p) + texts[..|texts| - 1], texts[|texts| - 1])
  }

  lemma CutsNext(p: Packing, texts: seq<string>, n: nat)
    requires 0 < n < |texts| && texts[n - 1] != ""
    ensures Cuts(p, texts[..n + 1]) == Packing(Flush(Cuts(p, texts[..n])), texts[n])
  {
    assert texts[..n + 1][..n] == texts[..n] == texts[..n - 1] + [texts[n - 1]];
    assert texts[..n][..n - 1] == texts[..n - 1];
    assert Flush(p) + texts[..n] == Flush(p) + texts[..n - 1] + [texts[n - 1]];
  }

  lemma OpensAfter(p: Packing, groups: seq<seq<Piece>>, b: Piece, max: nat)
    requires Built(p, groups) && b.starts
    ensures Built(Packing(Flush(p), b.text), Place(groups, b, max)) && EndsIn(Place(groups, b, max), b.para)
  {
    OpensGroup(p, groups, b);
  }

  /** Pieces that all start a chunk. */
  lemma {:induction false} StartsPlaced(p: Packing, groups: seq<seq<Piece>>, pieces: seq<Piece>, texts: seq<string>,
      max: nat)
    requires Built(p, groups) && pieces != [] && |texts| == |pieces|
    requires forall k :: 0 <= k < |pieces| ==> pieces[k].starts && pieces[k].text == texts[k] != ""
    ensures var placed := PlaceAll(groups, pieces, max);
            Built(Cuts(p, texts), placed) && EndsIn(placed, pieces[|pieces| - 1].para)
    decreases |pieces|
  {
    var n := |pieces| - 1;
    var front := pieces[..n];
    if n == 0 {
      assert PlaceAll(groups, front, max) == groups;
      OpensAfter(p, groups, pieces[0], max);
      assert Flush(p) + texts[..0] == Flush(p);
    } else {
      StartsPlaced(p, groups, front, texts[..n], max);
      OpensAfter(Cuts(p, texts[..n]), PlaceAll(groups, front, max), pieces[n], max);
      CutsNext(p, texts, n);
      assert texts[..n + 1] == texts;
    }
  }

  lemma {:induction false} StretchesNonempty(line: string, max: nat)
    requires max >= 1 && line != ""
    ensures forall k :: 0 <= k < |Stretches(line, max)| ==> Stretches(line, max)[k] != ""
    decreases |line|
  {
    if |line| > max {
      StretchesNonempty(line[max..], max);
    }
  }

  /** The first line of an oversized paragraph. */
  lemma FirstLinePlaced(p: Packing, groups: seq<seq<Piece>>, line: string, para: nat, max: nat)
    requires max >= 1 && Built(p, groups)
    ensures var placed := PlaceAll(groups, LinePieces(line, para, 0, max), max);
            Built(AddLine(Packing(Flush(p), ""), line, max), placed) && EndsIn(placed, para)
  {
    var pieces := LinePieces(line, para, 0, max);
    if |line| > max {
      StretchesNonempty(line, max);
      StartsPlaced(p, groups, pieces, Stretches(line, max), max);
      HardCutStretches(Flush(p), line, max);
    } else {
      var b := Piece(line, para, 0, true);
      assert pieces == [b] && [b] == [] + [b];
      PlaceSnoc(groups, [], b, max);
      OpensGroup(p, groups, b);
      assert "" + "" + line == line;
    }
  }

  /** Any other line of it. */
  lemma NextLinePlaced(p: Packing, groups: seq<seq<Piece>>, line: string, para: nat, n: nat, max: nat)
    requires max >= 1 && Built(p, groups) && n > 0 && EndsIn(groups, para)
    ensures var placed := PlaceAll(groups, LinePieces(line, para, n, max), max);
            Built(AddLine(p, line, max), placed) && EndsIn(placed, para)
  {
    var pieces := LinePieces(line, para, n, max);
    if |line| > max {
      StretchesNonempty(line, max);
      StartsPlaced(p, groups, pieces, Stretches(line, max), max);
      HardCutStretches(Flush(p), line, max);
    } else {
      var b := Piece(line, para, n, false);
      assert pieces == [b] && [b] == [] + [b];
      PlaceSnoc(groups, [], b, max);
      JoinsGroup(p, groups, b, "\n", max);
    }
  }

  /** All lines of an oversized paragraph. */
  lemma {:induction false} LinesPlaced(p: Packing, groups: seq<seq<Piece>>, lines: seq<string>, para: nat, max: nat)
    requires max >= 1 && Built(p, groups) && lines != []
    ensures var placed := PlaceAll(groups, LinesPieces(lines, para, max), max);
            Built(AddLines(Packing(Flush(p), ""), lines, max), placed) && EndsIn(placed, para)
    decreases |lines|
  {
    var n := |lines| - 1;
    var front := LinesPieces(lines[..n], para, max);
    PlaceAppend(groups, front, LinePieces(lines[n], para, n, max), max);
    if n == 0 {
      assert front == [] && lines[..0] == [];
      FirstLinePlaced(p, groups, lines[0], para, max);
    } else {
      LinesPlaced(p, groups, lines[..n], para, max);
      NextLinePlaced(AddLines(Packing(Flush(p), ""), lines[..n], max), PlaceAll(groups, front, max), lines[n], para, n,
          max);
    }
  }

  lemma ShortPlaced(p: Packing, groups: seq<seq<Piece>>, trimmed: string, para: nat, max: nat)
    requires max >= 1 && Built(p, groups) && EndsBy(groups, para - 1) && |trimmed| <= max
    ensures var placed := PlaceAll(groups, [Piece(trimmed, para, 0, false)], max);
            var size := |p.current| + |Separator(p.current, "\n\n")| + |trimmed|;
            && Built(if size <= max then p.(current := p.current + Separator(p.current, "\n\n") + trimmed)
                     else Packing(Flush(p), trimmed), placed)
            && EndsBy(placed, para)
  {
    var b := Piece(trimmed, para, 0, false);
    assert [b] == [] + [b];
    PlaceSnoc(groups, [], b, max);
    JoinsGroup(p, groups, b, "\n\n", max);
  }

  lemma ParagraphPlaced(p: Packing, groups: seq<seq<Piece>>, paragraph: string, para: nat, max: nat)
    requires max >= 1 && Built(p, groups) && EndsBy(groups, para - 1)
    ensures var placed := PlaceAll(groups, ParagraphPieces(paragraph, para, max), max);
            Built(AddParagraph(p, paragraph, max), placed) && EndsBy(placed, para)
  {
    var trimmed := TrimEndNewlines(paragraph);
    if |trimmed| <= max {
      ShortPlaced(p, groups, trimmed, para, max);
    } else {
      LinesPlaced(p, groups, Split(trimmed, '\n'), para, max);
    }
  }

  lemma {:induction false} ParagraphsPlaced(paragraphs: seq<string>, max: nat)
    requires max >= 1
    ensures var placed := PlaceAll(NOTHING, Pieces(paragraphs, max), max);
            Built(AddParagraphs(Packing([], ""), paragraphs, max), placed) && EndsBy(placed, |paragraphs| - 1)
    decreases |paragraphs|
  {
    if paragraphs == [] {
      assert NOTHING[..0] == [];
    } else {
      var n := |paragraphs| - 1;
      ParagraphsPlaced(paragraphs[..n], max);
      PlaceAppend(NOTHING, Pieces(paragraphs[..n], max), ParagraphPieces(paragraphs[n], n, max), max);
      ParagraphPlaced(AddParagraphs(Packing([], ""), paragraphs[..n], max),
          PlaceAll(NOTHING, Pieces(paragraphs[..n], max), max), paragraphs[n], n, max);
    }
  }

  /** The groups of a text: one greedy pass over its pieces. */
  function Groups(text: string, max: nat): seq<seq<Piece>>
    requires max >= 1
  {
    PlaceAll(NOTHING, Pieces(SplitBreaks(text), max), max)
  }

  /** The three levels of packing give exactly the chunks of that pass. */
  lemma PacksGreedily(text: string, max: nat)
    requires max >= 1
    ensures Chunks(text, max) == Shown(Groups(text, max))
  {
    ParagraphsPlaced(SplitBreaks(text), max);
    FlushShown(AddParagraphs(Packing([], ""), SplitBreaks(text), max), Groups(text, max));
  }

  // --- What the pass cuts, and where ---

  /** All pieces in their order; only the first of a group may be one that starts a chunk; and a
      group ends only where the next piece must start one or would not fit. */
  ghost predicate Greedy(groups: seq<seq<Piece>>, pieces: seq<Piece>, max: nat) {
    && Concat(groups) == pieces
    && (forall j :: 1 <= j < |groups| ==> Opened(groups[j - 1], groups[j], max))
    && (forall j, k :: 0 <= j < |groups| && 1 <= k < |groups[j]| ==> !groups[j][k].starts)
  }

  predicate Opened(before: seq<Piece>, group: seq<Piece>, max: nat) {
    group != [] && (group[0].starts || |Laid(before + [group[0]])| > max)
  }

  lemma PlaceGreedy(groups: seq<seq<Piece>>, pieces: seq<Piece>, b: Piece, max: nat)
    requires groups != [] && Greedy(groups, pieces, max)
    ensures Greedy(Place(groups, b, max), pieces + [b], max)
  {
    var n := |groups| - 1;
    assert groups == groups[..n] + [groups[n]];
    ConcatSnoc(groups[..n], groups[n]);
    ConcatSnoc(groups[..n], groups[n] + [b]);
    ConcatSnoc(groups, [b]);
    assert groups[n := groups[n] + [b]] == groups[..n] + [groups[n] + [b]];
    assert Concat(groups[..n]) + (groups[n] + [b]) == Concat(groups[..n]) + groups[n] + [b];
  }

  lemma {:induction false} PlacesGreedily(pieces: seq<Piece>, max: nat)
    ensures Greedy(PlaceAll(NOTHING, pieces, max), pieces, max)
    decreases |pieces|
  {
    if pieces == [] {
      assert Concat(NOTHING) == [];
    } else {
      var n := |pieces| - 1;
      PlacesGreedily(pieces[..n], max);
      PlaceGreedy(PlaceAll(NOTHING, pieces[..n], max), pieces[..n], pieces[n], max);
      assert pieces[..n] + [pieces[n]] == pieces;
    }
  }

  /** A piece is cut out of its paragraph only if that does not fit, and out of its line only
      if that does not. */
  ghost predicate Cut(paragraphs: seq<string>, a: Piece, b: Piece, max: nat) {
    && a.para <= b.para < |paragraphs|
    && (a.para == b.para ==>
          var trimmed := TrimEndNewlines(paragraphs[a.para]);
          && |trimmed| > max && a.line <= b.line < |Split(trimmed, '\n')|
          && (a.line == b.line ==> |Split(trimmed, '\n')[a.line]| > max && b.starts))
  }

  lemma {:induction false} LinesCut(lines: seq<string>, para: nat, max: nat, j: nat)
    requires max >= 1 && j < |LinesPieces(lines, para, max)|
    ensures var b := LinesPieces(lines, para, max)[j]; b.para == para && b.line < |lines|
    ensures forall i :: 0 <= i < j ==>
              var a, b := LinesPieces(lines, para, max)[i], LinesPieces(lines, para, max)[j];
              a.line <= b.line && (a.line == b.line ==> |lines[a.line]| > max && b.starts)
    decreases |lines|
  {
    var n := |lines| - 1;
    var front := LinesPieces(lines[..n], para, max);
    forall i | 0 <= i < |front| ensures front[i].para == para && front[i].line < n {
      LinesCut(lines[..n], para, max, i);
    }
    if j < |front| {
      LinesCut(lines[..n], para, max, j);
    }
  }

  lemma ParagraphCut(paragraph: string, para: nat, max: nat, i: nat, j: nat)
    requires max >= 1 && i <= j < |ParagraphPieces(paragraph, para, max)|
    ensures var pieces, trimmed := ParagraphPieces(paragraph, para, max), TrimEndNewlines(paragraph);
            && pieces[i].para == para == pieces[j].para
            && (i < j ==>
                  && |trimmed| > max && pieces[i].line <= pieces[j].line < |Split(trimmed, '\n')|
                  && (pieces[i].line == pieces[j].line ==>
                        |Split(trimmed, '\n')[pieces[i].line]| > max && pieces[j].starts))
  {
    var trimmed := TrimEndNewlines(paragraph);
    if |trimmed| > max {
      LinesCut(Split(trimmed, '\n'), para, max, i);
      LinesCut(Split(trimmed, '\n'), para, max, j);
    }
  }

  lemma {:induction false} PiecesPara(paragraphs: seq<string>, max: nat, j: nat)
    requires max >= 1 && j < |Pieces(paragraphs, max)|
    ensures Pieces(paragraphs, max)[j].para < |paragraphs|
    decreases |paragraphs|
  {
    var n := |paragraphs| - 1;
    var front := Pieces(paragraphs[..n], max);
    if j < |front| {
      PiecesPara(paragraphs[..n], max, j);
    } else {
      ParagraphCut(paragraphs[n], n, max, j - |front|, j - |front|);
    }
  }

  lemma SameParagraphCut(paragraphs: seq<string>, n: nat, max: nat, i: nat, j: nat)
    requires max >= 1 && n < |paragraphs| && i < j < |ParagraphPieces(paragraphs[n], n, max)|
    ensures Cut(paragraphs, ParagraphPieces(paragraphs[n], n, max)[i], ParagraphPieces(paragraphs[n], n, max)[j], max)
  {
    ParagraphCut(paragraphs[n], n, max, i, j);
  }

  lemma LaterParagraphCut(paragraphs: seq<string>, n: nat, max: nat, a: Piece, j: nat)
    requires max >= 1 && n < |paragraphs| && a.para < n && j < |ParagraphPieces(paragraphs[n], n, max)|
    ensures Cut(paragraphs, a, ParagraphPieces(paragraphs[n], n, max)[j], max)
  {
    ParagraphCut(paragraphs[n], n, max, j, j);
  }

  lemma {:induction false} PiecesCut(paragraphs: seq<string>, max: nat, i: nat, j: nat)
    requires max >= 1 && i < j < |Pieces(paragraphs, max)|
    ensures Cut(paragraphs, Pieces(paragraphs, max)[i], Pieces(paragraphs, max)[j], max)
    decreases |paragraphs|
  {
    var n := |paragraphs| - 1;
    var front, last := Pieces(paragraphs[..n], max), ParagraphPieces(paragraphs[n], n, max);
    var pieces := Pieces(paragraphs, max);
    assert pieces == front + last;
    if j < |front| {
      assert pieces[i] == front[i] && pieces[j] == front[j];
      PiecesCut(paragraphs[..n], max, i, j);
      CutMore(paragraphs, n, front[i], front[j], max);
    } else if i < |front| {
      assert pieces[i] == front[i] && pieces[j] == last[j - |front|];
      PiecesPara(paragraphs[..n], max, i);
      LaterParagraphCut(paragraphs, n, max, front[i], j - |front|);
    } else {
      assert pieces[i] == last[i - |front|] && pieces[j] == last[j - |front|];
      SameParagraphCut(paragraphs, n, max, i - |front|, j - |front|);
    }
  }

  lemma CutMore(paragraphs: seq<string>, n: nat, a: Piece, b: Piece, max: nat)
    requires n <= |paragraphs| && Cut(paragraphs[..n], a, b, max)
    ensures Cut(paragraphs, a, b, max)
  {
  }

  lemma ConcatAt(groups: seq<seq<Piece>>, j: nat, k: nat) returns (i: nat)
    requires j < |groups| && k < |groups[j]|
    ensures i == |Concat(groups[..j])| + k < |Concat(groups)| && Concat(groups)[i] == groups[j][k]
  {
    i := |Concat(groups[..j])| + k;
    assert groups == groups[..j] + groups[j..];
    ConcatAppend(groups[..j], groups[j..]);
    assert groups[j..] == [groups[j]] + groups[j + 1..];
    assert Concat(groups[j..]) == groups[j] + Concat(groups[j + 1..]);
  }

  /** The chunks of a text are its pieces, in order, laid one behind another. Two of them are cut
      apart only where the second would not fit behind the first, or has to start a chunk because
      its paragraph or its line does not fit in one; a cut falls inside a paragraph only if the
      paragraph does not fit, and inside a line only if the line does not. */
  lemma CutsPrefer(text: string, max: nat, j: nat)
    requires max >= 1 && 0 < j < |Groups(text, max)|
    ensures Chunks(text, max) == Shown(Groups(text, max))
    ensures Concat(Groups(text, max)) == Pieces(SplitBreaks(text), max)
    ensures Opened(Groups(text, max)[j - 1], Groups(text, max)[j], max)
    ensures var before, group := Groups(text, max)[j - 1], Groups(text, max)[j];
            before != [] ==> Cut(SplitBreaks(text), before[|before| - 1], group[0], max)
  {
    PacksGreedily(text, max);
    PlacesGreedily(Pieces(SplitBreaks(text), max), max);
    if Groups(text, max)[j - 1] != [] {
      BoundaryCut(SplitBreaks(text), Groups(text, max), max, j);
    }
  }

  lemma BoundaryCut(paragraphs: seq<string>, groups: seq<seq<Piece>>, max: nat, j: nat)
    requires max >= 1 && Concat(groups) == Pieces(paragraphs, max) && 0 < j < |groups|
    requires groups[j - 1] != [] && groups[j] != []
    ensures Cut(paragraphs, groups[j - 1][|groups[j - 1]| - 1], groups[j][0], max)
  {
    var before := groups[j - 1];
    var i := ConcatAt(groups, j - 1, |before| - 1);
    var k := ConcatAt(groups, j, 0);
    assert groups[..j] == groups[..j - 1] + [before];
    ConcatSnoc(groups[..j - 1], before);
    PiecesCut(paragraphs, max, i, k);
  }

  /** What stands between two neighbours in one chunk: nothing before the first text of the
      chunk, else one newline within a paragraph, and a break between two. */
  lemma LaidNext(g: seq<Piece>, k: nat)
    requires 0 < k < |g|
    ensures Laid(g[..k + 1])
         == Laid(g[..k]) + (if Laid(g[..k]) == "" then "" else if g[k - 1].para == g[k].para then "\n" else "\n\n")
            + g[k].text
  {
    assert g[..k + 1] == g[..k] + [g[k]];
    LaidSnoc(g[..k], g[k]);
  }

  lemma GroupsCut(paragraphs: seq<string>, groups: seq<seq<Piece>>, max: nat, j: nat, k: nat)
    requires max >= 1 && Concat(groups) == Pieces(paragraphs, max) && j < |groups| && 0 < k < |groups[j]|
    ensures Cut(paragraphs, groups[j][k - 1], groups[j][k], max)
  {
    var i, g := |Concat(groups[..j])|, groups[j];
    var m := ConcatAt(groups, j, k - 1);
    var n := ConcatAt(groups, j, k);
    assert m == i + k - 1 && n == i + k;
    PiecesCut(paragraphs, max, m, n);
  }

  /** Neighbours in one chunk belong to different paragraphs, or are lines of one that does not fit. */
  lemma NeighboursApart(text: string, max: nat, j: nat, k: nat)
    requires max >= 1 && j < |Groups(text, max)| && 0 < k < |Groups(text, max)[j]|
    ensures var a, b := Groups(text, max)[j][k - 1], Groups(text, max)[j][k];
            && a.para <= b.para < |SplitBreaks(text)|
            && (a.para == b.para ==>
                  a.line < b.line && |TrimEndNewlines(SplitBreaks(text)[a.para])| > max)
  {
    PlacesGreedily(Pieces(SplitBreaks(text), max), max);
    GroupsCut(SplitBreaks(text), Groups(text, max), max, j, k);
    assert !Groups(text, max)[j][k].starts;
  }

  /** The stretches of a line are that line, in full pieces but for the last. */
  lemma {:induction false} StretchesWhole(line: string, max: nat)
    requires max >= 1
    ensures var parts := Stretches(line, max);
            && Concat(parts) == line
            && (forall k :: 0 <= k < |parts| - 1 ==> |parts[k]| == max) && |parts[|parts| - 1]| <= max
    decreases |line|
  {
    if |line| > max {
      StretchesWhole(line[max..], max);
      var parts := Stretches(line[max..], max);
      assert ([line[..max]] + parts)[1..] == parts;
      assert line[..max] + line[max..] == line;
    } else {
      assert [line][1..] == [] && line + [] == line;
    }
  }
}
