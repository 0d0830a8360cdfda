/** On plain streams the bridge and the browser see the same events. */
module EventStreamAgreement {
  import opened Common
  import opened Text
  import opened Trimming
  import opened EventStream

  function SpacesEach(values: seq<string>): (r: seq<string>)
    ensures |r| == |values| && forall k :: 0 <= k < |r| ==> r[k] == DropSpaces(values[k])
  {
    seq(|values|, k requires 0 <= k < |values| => DropSpaces(values[k]))
  }

  /** At most one space before each piece of data. */
  ghost predicate PlainData(values: seq<string>) {
    forall k :: 0 <= k < |values| ==> !StartsWith(values[k], "  ")
  }

  /** A block that both readers take the same way. Its data lines start with at most one space;
      the last event name, if there is data, has ends that both languages trim alike; and
      without data, that name, which the bridge keeps for later blocks, trims to nothing or to
      "message". */
  ghost predicate PlainBlock(block: string) {
    var names, values := EventNames(Split(block, '\n')), DataValues(Split(block, '\n'));
    && PlainData(values)
    && (if Joined(OneSpaceEach(values)) == "" then Quiet(Named(names, Rust, ""))
        else names == [] || PlainEnds(names[|names| - 1]))
  }

  /** Names under which an event counts as unnamed. */
  predicate Quiet(name: string) { name == "" || name == "message" }

  /** Every complete block is plain; what follows the last one does not matter. */
  ghost predicate PlainBlocks(text: string)
    decreases |text|
  {
    var i := FirstBreak(text);
    i != -1 ==> PlainBlock(text[..i]) && PlainBlocks(text[i + 2..])
  }

  /** The bridge calls an unnamed event "", the browser "message". */
  function Unnamed(e: Event): Event { if e.name == "message" then Event("", e.data) else e }

  function UnnamedAll(events: seq<Event>): (r: seq<Event>)
    ensures |r| == |events|
  {
    if events == [] then [] else [Unnamed(events[0])] + UnnamedAll(events[1..])
  }

  lemma {:induction false} UnnamedAppend(a: seq<Event>, b: seq<Event>)
    ensures UnnamedAll(a + b) == UnnamedAll(a) + UnnamedAll(b)
  {
    if a == [] {
      assert a + b == b;
    } else {
      assert (a + b)[1..] == a[1..] + b;
      UnnamedAppend(a[1..], b);
    }
  }

  /** The events up to and including the first done or error. */
  function UpToTerminal(events: seq<Event>): seq<Event> {
    if events == [] then []
    else if Terminal(events[0].name) then [events[0]]
    else [events[0]] + UpToTerminal(events[1..])
  }

  predicate HasTerminal(events: seq<Event>) {
    exists k :: 0 <= k < |events| && Terminal(events[k].name)
  }

  // --- Cutting the lines of a stream at its blocks ---

  function DropEmptyLast(pieces: seq<string>): seq<string>
    requires pieces != []
  {
    if pieces[|pieces| - 1] == "" then pieces[..|pieces| - 1] else pieces
  }

  lemma DropEmptyLastAppend(a: seq<string>, b: seq<string>)
    requires b != []
    ensures DropEmptyLast(a + b) == a + DropEmptyLast(b)
  {
    assert (a + b)[..|a| + |b| - 1] == a + b[..|b| - 1];
  }

  lemma NoReturnLines(text: string)
    requires '\r' !in text
    ensures StreamLines(text) == DropEmptyLast(Split(text, '\n'))
  {
    var pieces := Split(text, '\n');
    var n := |pieces| - 1;
    NoReturns(text, pieces);
    forall i | 0 <= i < n ensures StripReturn(pieces[..n][i]) == pieces[..n][i] {
      assert pieces[..n][i] == pieces[i];
    }
    StripNone(pieces[..n]);
    assert pieces[..n] + [pieces[n]] == pieces;
  }

  lemma StripNone(lines: seq<string>)
    requires forall k :: 0 <= k < |lines| ==> StripReturn(lines[k]) == lines[k]
    ensures StripEach(lines) == lines
  {
  }

  lemma NoReturns(text: string, pieces: seq<string>)
    requires '\r' !in text && pieces == Split(text, '\n')
    ensures forall i :: 0 <= i < |pieces| ==> StripReturn(pieces[i]) == pieces[i]
  {
    PiecesFrom(text);
    forall i | 0 <= i < |pieces| ensures StripReturn(pieces[i]) == pieces[i] {
      if pieces[i] != "" {
        assert pieces[i][|pieces[i]| - 1] in pieces[i];
      }
    }
  }

  lemma {:induction false} PiecesFrom(text: string)
    ensures forall k, c :: 0 <= k < |Split(text, '\n')| && c in Split(text, '\n')[k] ==> c in text
  {
    if text != "" {
      PiecesFrom(text[1..]);
      var pieces, rest := Split(text, '\n'), Split(text[1..], '\n');
      forall k, c | 0 <= k < |pieces| && c in pieces[k] ensures c in text {
        assert text == [text[0]] + text[1..];
        if text[0] == '\n' {
          assert pieces[k] == if k == 0 then "" else rest[k - 1];
        } else if k > 0 {
          assert pieces[k] == rest[k];
        }
      }
    }
  }

  lemma SplitAtBreak(block: string, rest: string)
    ensures Split(block + "\n\n" + rest, '\n') == Split(block, '\n') + [""] + Split(rest, '\n')
  {
    assert Split("\n" + rest, '\n') == [""] + Split(rest, '\n') by {
      assert ("\n" + rest)[1..] == rest;
    }
    SplitAround(block, "\n" + rest, '\n');
    assert block + "\n\n" + rest == block + "\n" + ("\n" + rest);
  }

  lemma LinesOfBlock(text: string, block: string, rest: string)
    requires text == block + "\n\n" + rest && '\r' !in text
    ensures StreamLines(text) == Split(block, '\n') + [""] + StreamLines(rest)
  {
    SplitAtBreak(block, rest);
    NoReturnLines(text);
    NoReturnLines(rest);
    DropEmptyLastAppend(Split(block, '\n') + [""], Split(rest, '\n'));
  }

  lemma BlockShape(text: string)
    requires FirstBreak(text) != -1
    ensures var block := text[..FirstBreak(text)]; NoBreak(block) && (block == "" || block[|block| - 1] != '\n')
  {
    var i := FirstBreak(text);
    forall k ensures !BreakAt(text[..i], k) {
      assert k < i ==> !BreakAt(text, k);
    }
    assert i > 0 ==> !BreakAt(text, i - 1);
  }

  // --- One block ---

  /** What the bridge has gathered from the lines of a block. */
  lemma {:induction false} BridgeFields(name: string, events: seq<Event>, lines: seq<string>, parses: string -> bool)
    requires forall k :: 1 <= k < |lines| ==> lines[k] != ""
    ensures BridgeLines(LineState(name, "", false, events), lines, parses)
         == LineState(Named(EventNames(lines), Rust, name), Joined(SpacesEach(DataValues(lines))), false, events)
    decreases |lines|
  {
    if lines != [] {
      var n := |lines| - 1;
      var values := DataValues(lines[..n]);
      BridgeFields(name, events, lines[..n], parses);
      if n == 0 {
        assert lines[..0] == [] && values == [] && Joined(SpacesEach([])) == "";
      }
      if StartsWith(lines[n], "data:") {
        assert !StartsWith(lines[n], "event:") by { assert lines[n][0] == 'd'; }
        assert SpacesEach(values + [lines[n][5..]]) == SpacesEach(values) + [DropSpaces(lines[n][5..])];
        JoinedSnoc(SpacesEach(values), DropSpaces(lines[n][5..]));
      }
    }
  }

  /** Dropping one space and dropping all is the same exactly without two of them. */
  lemma {:induction false} OneSpace(s: string)
    ensures DropSpaces(s) == DropOneSpace(s) <==> !StartsWith(s, "  ")
    ensures |DropSpaces(s)| <= |DropOneSpace(s)|
  {
    if |s| >= 2 && s[0] == ' ' {
      assert s[..2] == [s[0], s[1]];
      OneSpace(s[1..]);
      assert s[1] == ' ' ==> s[1..][0] == ' ';
    }
  }

  /** Pieces that are nowhere longer join to nothing longer, and to less if one is shorter. */
  lemma {:induction false} ShorterPieces(u: seq<string>, v: seq<string>)
    requires |u| == |v| && forall k :: 0 <= k < |u| ==> |u[k]| <= |v[k]|
    ensures |Joined(u)| <= |Joined(v)|
    ensures (exists k :: 0 <= k < |u| && |u[k]| < |v[k]|) ==> |Joined(u)| < |Joined(v)|
    decreases |u|
  {
    if u != [] {
      var n := |u| - 1;
      ShorterPieces(u[..n], v[..n]);
      assert u[..n] + [u[n]] == u && v[..n] + [v[n]] == v;
      JoinedSnoc(u[..n], u[n]);
      JoinedSnoc(v[..n], v[n]);
      if k :| 0 <= k < |u| && |u[k]| < |v[k]| && k < n {
        assert u[..n][k] == u[k] && v[..n][k] == v[k];
      }
    }
  }

  /** The readers see the same data exactly if no line of it starts with two spaces. */
  lemma SameData(values: seq<string>)
    ensures Joined(SpacesEach(values)) == Joined(OneSpaceEach(values)) <==> PlainData(values)
    ensures !PlainData(values) ==> Joined(OneSpaceEach(values)) != ""
  {
    var u, v := SpacesEach(values), OneSpaceEach(values);
    forall k | 0 <= k < |values| ensures (u[k] == v[k] <==> !StartsWith(values[k], "  ")) && |u[k]| <= |v[k]| {
      OneSpace(values[k]);
    }
    if PlainData(values) {
      assert u == v;
    } else {
      var k :| 0 <= k < |values| && StartsWith(values[k], "  ");
      ShorterLonger(values[k]);
      ShorterPieces(u, v);
    }
  }

  lemma ShorterLonger(s: string)
    requires StartsWith(s, "  ")
    ensures |DropSpaces(s)| < |DropOneSpace(s)|
  {
    assert s[..2] == "  " && s[0] == ' ' && s[1..][0] == ' ';
    SpacesShorten(s[1..][1..]);
  }

  lemma {:induction false} SpacesShorten(s: string)
    ensures |DropSpaces(s)| <= |s|
  {
    if StartsWith(s, " ") {
      SpacesShorten(s[1..]);
    }
  }

  /** The two names count as the same exactly if the languages trim alike. */
  lemma SameName(name: string)
    ensures Unnamed(Event(Trim(Rust, name), "")) == Unnamed(Event(Trim(JavaScript, name), "")) <==> PlainEnds(name)
  {
    TrimsAgree(name);
    NeverMessage(Rust, JavaScript, name);
    NeverMessage(JavaScript, Rust, name);
  }

  lemma NeverMessage(l: Language, m: Language, name: string)
    ensures !(Trim(l, name) == "" && Trim(m, name) == "message")
  {
    if Trim(l, name) == "" && Trim(m, name) == "message" {
      var j := TrimInside(m, name, 0);
      TrimmedAway(l, name, j);
      assert false;
    }
  }

  /** A block and its blank line, from a bridge with a quiet name left over. */
  lemma BlockState(name: string, block: string, events: seq<Event>, parses: string -> bool)
    requires NoBreak(block) && (block == "" || block[|block| - 1] != '\n')
    ensures var names, values := EventNames(Split(block, '\n')), DataValues(Split(block, '\n'));
            BridgeLines(LineState(name, "", false, events), Split(block, '\n') + [""], parses)
            == BridgeLine(LineState(Named(names, Rust, name), Joined(SpacesEach(values)), false, events), "", parses)
    ensures var names, data := EventNames(Split(block, '\n')), Joined(OneSpaceEach(DataValues(Split(block, '\n'))));
            BlockEvents(block, parses) == if data == "" || !parses(data) then []
                else [Event(Named(names, JavaScript, "message"), data)]
  {
    var lines := Split(block, '\n');
    LinesNonempty(block);
    BridgeFields(name, events, lines, parses);
    BrowserFields("message", lines);
    assert (lines + [""])[..|lines|] == lines;
  }

  /** The bridge at the blank line behind a block, and what the browser made of that block. */
  ghost predicate TakenAlike(st: LineState, before: seq<Event>, seen: seq<Event>) {
    && Quiet(st.event) && st.data == ""
    && UnnamedAll(st.events) == UnnamedAll(before) + UnnamedAll(seen)
    && |seen| <= 1 && st.done == (seen != [] && Terminal(seen[0].name))
  }

  /** With the same data, and names that count as the same, the blank line dispatches the same. */
  lemma BlankLine(rust: string, js: string, data: string, events: seq<Event>, parses: string -> bool)
    requires data != "" && (rust == js || (Quiet(rust) && js == "message"))
    ensures TakenAlike(BridgeLine(LineState(rust, data, false, events), "", parses), events,
                       if parses(data) then [Event(js, data)] else [])
  {
    if parses(data) {
      UnnamedAppend(events, [Event(rust, data)]);
      OneSeen(Event(rust, data));
      OneSeen(Event(js, data));
    } else {
      assert UnnamedAll(events) + [] == UnnamedAll(events);
    }
  }

  /** What a blank line makes of the names and the data of a plain block. */
  lemma FieldsAgree(name: string, names: seq<string>, data: string, events: seq<Event>, parses: string -> bool)
    requires Quiet(name)
    requires if data == "" then Quiet(Named(names, Rust, "")) else names == [] || PlainEnds(names[|names| - 1])
    ensures TakenAlike(BridgeLine(LineState(Named(names, Rust, name), data, false, events), "", parses), events,
                       if data == "" || !parses(data) then [] else [Event(Named(names, JavaScript, "message"), data)])
  {
    if data == "" {
      assert UnnamedAll(events) + [] == UnnamedAll(events);
    } else {
      if names != [] {
        TrimsAgree(names[|names| - 1]);
      }
      BlankLine(Named(names, Rust, name), Named(names, JavaScript, "message"), data, events, parses);
    }
  }

  /** Both readers dispatch the same, and the bridge is left with a quiet name. */
  lemma BlockAgrees(name: string, block: string, events: seq<Event>, parses: string -> bool)
    requires Quiet(name) && PlainBlock(block) && NoBreak(block) && (block == "" || block[|block| - 1] != '\n')
    ensures TakenAlike(BridgeLines(LineState(name, "", false, events), Split(block, '\n') + [""], parses), events,
                       BlockEvents(block, parses))
  {
    var names, values := EventNames(Split(block, '\n')), DataValues(Split(block, '\n'));
    BlockState(name, block, events, parses);
    SameData(values);
    FieldsAgree(name, names, Joined(OneSpaceEach(values)), events, parses);
  }

  lemma OneSeen(e: Event)
    ensures UpToTerminal([e]) == [e] && UnnamedAll([e]) == [Unnamed(e)]
  {
    assert [e][1..] == [];
    assert UpToTerminal([]) == [] && UnnamedAll([]) == [];
  }

  /** Behind the last complete block the bridge dispatches nothing either. */
  lemma LeftoverSilent(name: string, text: string, events: seq<Event>, parses: string -> bool)
    requires '\r' !in text && NoBreak(text)
    ensures var st := BridgeLines(LineState(name, "", false, events), StreamLines(text), parses);
            st.events == events && !st.done
  {
    NoReturnLines(text);
    LeftoverLines(text);
    Silent(name, events, StreamLines(text), parses);
  }

  lemma LeftoverLines(text: string)
    requires NoBreak(text)
    ensures var p := Split(text, '\n'); forall k :: 1 <= k < |p| - 1 ==> p[k] != ""
  {
    if text != "" && text[|text| - 1] == '\n' {
      var front := text[..|text| - 1];
      forall k ensures !BreakAt(front, k) {
        assert !BreakAt(text, k);
      }
      assert !BreakAt(text, |text| - 2);
      LinesNonempty(front);
      assert text == front + "\n" + "";
      SplitAround(front, "", '\n');
      assert Split("", '\n') == [""];
    } else {
      LinesNonempty(text);
    }
  }

  lemma {:induction false} Silent(name: string, events: seq<Event>, lines: seq<string>, parses: string -> bool)
    requires forall k :: 1 <= k < |lines| ==> lines[k] != ""
    ensures var st := BridgeLines(LineState(name, "", false, events), lines, parses);
            st.events == events && !st.done && (lines == [] ==> st.data == "")
    decreases |lines|
  {
    if lines != [] {
      Silent(name, events, lines[..|lines| - 1], parses);
      assert |lines| == 1 ==> lines[..0] == [];
    }
  }

  // --- The whole stream ---

  /** From `before` on, the bridge added exactly what the browser saw in `all` up to the end. */
  ghost predicate Matches(st: LineState, before: seq<Event>, all: seq<Event>) {
    && UnnamedAll(st.events) == UnnamedAll(before) + UnnamedAll(UpToTerminal(all))
    && st.done == HasTerminal(all)
  }

  lemma Combine(mid: LineState, end: LineState, before: seq<Event>, seen: seq<Event>, rest: seq<Event>)
    requires |seen| <= 1 && mid.done == (seen != [] && Terminal(seen[0].name))
    requires UnnamedAll(mid.events) == UnnamedAll(before) + UnnamedAll(seen)
    requires if mid.done then end == mid else Matches(end, mid.events, rest)
    ensures Matches(end, before, seen + rest)
  {
    if mid.done {
      StopsHere(seen, rest);
    } else {
      OneMore(seen, rest);
      Regroup(UnnamedAll(before), UnnamedAll(seen), UnnamedAll(UpToTerminal(rest)));
    }
  }

  /** The bridge up to and including the blank line behind the first block. */
  lemma FirstBlock(name: string, text: string, before: seq<Event>, parses: string -> bool) returns (mid: LineState)
    requires Quiet(name) && '\r' !in text && PlainBlocks(text) && FirstBreak(text) != -1
    ensures var i := FirstBreak(text); var seen := BlockEvents(text[..i], parses);
            && mid == LineState(mid.event, "", mid.done, mid.events) && Quiet(mid.event)
            && |seen| <= 1 && mid.done == (seen != [] && Terminal(seen[0].name))
            && UnnamedAll(mid.events) == UnnamedAll(before) + UnnamedAll(seen)
            && BridgeLines(LineState(name, "", false, before), StreamLines(text), parses)
               == BridgeLines(mid, StreamLines(text[i + 2..]), parses)
  {
    var i := FirstBreak(text);
    var block, rest := text[..i], text[i + 2..];
    var clean := LineState(name, "", false, before);
    mid := BridgeLines(clean, Split(block, '\n') + [""], parses);
    BlockShape(text);
    BlockAgrees(name, block, before, parses);
    LinesOfBlock(text, block, rest);
    BridgeAppend(clean, Split(block, '\n') + [""], StreamLines(rest), parses);
  }

  lemma {:induction false} AgreesFrom(name: string, text: string, before: seq<Event>, parses: string -> bool)
    requires Quiet(name) && '\r' !in text && PlainBlocks(text)
    ensures Matches(BridgeLines(LineState(name, "", false, before), StreamLines(text), parses), before,
            Events(text, parses))
    decreases |text|
  {
    var i := FirstBreak(text);
    if i == -1 {
      LeftoverSilent(name, text, before, parses);
      assert UnnamedAll(before) + [] == UnnamedAll(before);
    } else {
      var rest := text[i + 2..];
      var mid := FirstBlock(name, text, before, parses);
      var end := BridgeLines(mid, StreamLines(rest), parses);
      if mid.done {
        BridgeStops(mid, StreamLines(rest), parses);
      } else {
        AgreesFrom(mid.event, rest, mid.events, parses);
      }
      Combine(mid, end, before, BlockEvents(text[..i], parses), Events(rest, parses));
    }
  }

  lemma StopsHere(first: seq<Event>, rest: seq<Event>)
    requires |first| == 1 && Terminal(first[0].name)
    ensures UpToTerminal(first + rest) == first && HasTerminal(first + rest)
  {
    assert Terminal((first + rest)[0].name);
  }

  lemma OneMore(first: seq<Event>, rest: seq<Event>)
    requires |first| <= 1 && (first != [] ==> !Terminal(first[0].name))
    ensures UnnamedAll(UpToTerminal(first + rest)) == UnnamedAll(first) + UnnamedAll(UpToTerminal(rest))
    ensures HasTerminal(first + rest) == HasTerminal(rest)
  {
    if first == [] {
      assert first + rest == rest;
      assert UnnamedAll(first) + UnnamedAll(UpToTerminal(rest)) == UnnamedAll(UpToTerminal(rest));
    } else {
      assert (first + rest)[1..] == rest;
      assert first == [first[0]] && first[1..] == [];
      assert UpToTerminal(first + rest) == first + UpToTerminal(rest);
      UnnamedAppend(first, UpToTerminal(rest));
      if HasTerminal(rest) {
        var k :| 0 <= k < |rest| && Terminal(rest[k].name);
        assert Terminal((first + rest)[k + 1].name);
      }
    }
  }

  /** The bridge's events are the browser's up to the first final one, and the bridge
      reports success exactly when there is a final one. */
  ghost predicate Agree(text: string, parses: string -> bool) {
    var st := BridgeLines(START, StreamLines(text), parses);
    && UnnamedAll(st.events) == UnnamedAll(UpToTerminal(Events(text, parses)))
    && st.done == HasTerminal(Events(text, parses))
  }

  lemma ReadersAgree(text: string, parses: string -> bool)
    requires '\r' !in text && PlainBlocks(text)
    ensures Agree(text, parses)
  {
    AgreesFrom("", text, [], parses);
    assert UnnamedAll([]) + UnnamedAll(UpToTerminal(Events(text, parses)))
        == UnnamedAll(UpToTerminal(Events(text, parses)));
  }

  // --- What makes a block plain is needed ---

  /** A block, its blank line, and what comes behind. */
  function Followed(block: string, rest: string): string { block + "\n\n" + rest }

  /** A text that can be a block: what precedes the first break of a stream. */
  ghost predicate IsBlock(block: string) {
    NoBreak(block) && (block == "" || block[|block| - 1] != '\n') && '\r' !in block
  }

  /** Cutting the block off again. */
  lemma BreakBehind(block: string, rest: string)
    requires IsBlock(block)
    ensures var text := Followed(block, rest);
            FirstBreak(text) == |block| && text[..|block|] == block && text[|block| + 2..] == rest
  {
    var text := Followed(block, rest);
    assert BreakAt(text, |block|);
    forall k | k < |block| ensures !BreakAt(text, k) {
      assert !BreakAt(block, k);
    }
  }

  lemma BlockThen(block: string, rest: string, parses: string -> bool)
    requires IsBlock(block) && '\r' !in rest
    ensures Events(Followed(block, rest), parses) == BlockEvents(block, parses) + Events(rest, parses)
    ensures BridgeLines(START, StreamLines(Followed(block, rest)), parses)
         == BridgeLines(BridgeLines(START, Split(block, '\n') + [""], parses), StreamLines(rest), parses)
  {
    BreakBehind(block, rest);
    LinesOfBlock(Followed(block, rest), block, rest);
    BridgeAppend(START, Split(block, '\n') + [""], StreamLines(rest), parses);
  }

  lemma BlockAlone(block: string, parses: string -> bool)
    requires IsBlock(block)
    ensures Events(Followed(block, ""), parses) == BlockEvents(block, parses)
    ensures BridgeLines(START, StreamLines(Followed(block, "")), parses)
            == BridgeLines(START, Split(block, '\n') + [""], parses)
  {
    BlockThen(block, "", parses);
    assert StreamLines("") == [] && Events("", parses) == [];
  }

  /** A lone piece of data. */
  function Probe(): string { Followed("data:1", "") }

  lemma SplitWhole(s: string)
    requires '\n' !in s
    ensures Split(s, '\n') == [s]
  {
    SplitGlue(s, "", '\n');
    assert s + "" == s;
  }

  lemma ProbeBlock() returns (block: string)
    ensures block == "data:1" && IsBlock(block) && Split(block, '\n') == [block]
    ensures EventNames([block]) == [] && DataValues([block]) == ["1"]
  {
    block := "data:1";
    assert forall k :: 0 <= k < |block| ==> block[k] != '\n' && block[k] != '\r';
    SplitWhole(block);
    assert block[..5] == "data:" && block[5..] == "1" && !StartsWith(block, "event:") by { assert block[0] == 'd'; }
    assert [block][..0] == [];
    assert EventNames([]) == [] && DataValues([]) == [];
  }

  lemma OneValue(value: string)
    requires value != "" && value[0] != ' '
    ensures Joined(OneSpaceEach([value])) == value && Joined(SpacesEach([value])) == value
  {
    assert !StartsWith(value, " ");
    assert OneSpaceEach([value]) == [value] && SpacesEach([value]) == [value] && DropEmpty([value]) == [value];
  }

  /** The bridge gives it the name it kept, the browser none. */
  lemma ProbeSeen(name: string, events: seq<Event>, parses: string -> bool)
    requires parses("1")
    ensures '\r' !in Probe() && PlainBlocks(Probe()) && Events(Probe(), parses) == [Event("message", "1")]
    ensures BridgeLines(LineState(name, "", false, events), StreamLines(Probe()), parses)
         == LineState("", "", Terminal(name), events + [Event(name, "1")])
  {
    var block := ProbeBlock();
    ProbeLines(block);
    ProbeTaken(block, name, events, parses);
    BlockAlone(block, parses);
    BreakBehind(block, "");
    assert Followed(block, "")[|block| + 2..] == "" && PlainBlocks("");
  }

  lemma ProbeTaken(block: string, name: string, events: seq<Event>, parses: string -> bool)
    requires IsBlock(block) && parses("1")
    requires EventNames(Split(block, '\n')) == [] && DataValues(Split(block, '\n')) == ["1"]
    ensures PlainBlock(block) && BlockEvents(block, parses) == [Event("message", "1")]
    ensures BridgeLines(LineState(name, "", false, events), Split(block, '\n') + [""], parses)
         == LineState("", "", Terminal(name), events + [Event(name, "1")])
  {
    OneValue("1");
    BlockState(name, block, events, parses);
    assert !StartsWith("1", "  ");
  }

  lemma ProbeLines(block: string)
    requires block == "data:1" && IsBlock(block)
    ensures StreamLines(Followed(block, "")) == Split(block, '\n') + [""] && '\r' !in Followed(block, "")
  {
    LinesOfBlock(Followed(block, ""), block, "");
    assert StreamLines("") == [];
  }

  /** One event for the browser, and for the bridge another one or none. */
  lemma Differ(text: string, parses: string -> bool, browser: Event, bridge: seq<Event>)
    requires Events(text, parses) == [browser] && BridgeLines(START, StreamLines(text), parses).events == bridge
    requires |bridge| <= 1 && (bridge != [] ==> Unnamed(bridge[0]) != Unnamed(browser))
    ensures !Agree(text, parses)
  {
    OneSeen(browser);
    assert bridge == [] || bridge == [bridge[0]];
    if bridge != [] {
      OneSeen(bridge[0]);
    }
  }

  /** What the bridge makes of a block from the start. */
  function Gathered(block: string): LineState {
    var names, values := EventNames(Split(block, '\n')), DataValues(Split(block, '\n'));
    LineState(Named(names, Rust, ""), Joined(SpacesEach(values)), false, [])
  }

  function BrowserData(block: string): string { Joined(OneSpaceEach(DataValues(Split(block, '\n')))) }

  /** The event the browser makes of a block with data. */
  function BrowserEvent(block: string): Event {
    Event(Named(EventNames(Split(block, '\n')), JavaScript, "message"), BrowserData(block))
  }

  /** A block alone, as either reader takes it. */
  lemma BlockSeen(block: string, parses: string -> bool)
    requires IsBlock(block)
    ensures Events(Followed(block, ""), parses)
         == if BrowserData(block) == "" || !parses(BrowserData(block)) then [] else [BrowserEvent(block)]
    ensures BridgeLines(START, StreamLines(Followed(block, "")), parses) == BridgeLine(Gathered(block), "", parses)
  {
    BlockState("", block, [], parses);
    BlockAlone(block, parses);
  }

  /** A name that the bridge keeps shows on the next data. */
  lemma NameLeaks(block: string, parses: string -> bool)
    requires IsBlock(block) && parses("1") && BrowserData(block) == "" && !Quiet(Gathered(block).event)
    ensures var name := Gathered(block).event;
            BridgeLines(START, StreamLines(Followed(block, Probe())), parses)
                == LineState("", "", Terminal(name), [Event(name, "1")])
    ensures Events(Followed(block, Probe()), parses) == [Event("message", "1")]
    ensures !Agree(Followed(block, Probe()), parses)
  {
    var name := Gathered(block).event;
    BlockState("", block, [], parses);
    SameData(DataValues(Split(block, '\n')));
    assert BridgeLines(START, Split(block, '\n') + [""], parses) == LineState(name, "", false, []);
    ProbeSeen(name, [], parses);
    BlockThen(block, Probe(), parses);
    Differ(Followed(block, Probe()), parses, Event("message", "1"), [Event(name, "1")]);
  }

  /** Other data or another name shows at once. */
  lemma BlockDiffers(block: string, parses: string -> bool)
    requires IsBlock(block) && !PlainBlock(block) && BrowserData(block) != "" && forall s :: parses(s)
    ensures !Agree(Followed(block, ""), parses)
  {
    BlockSeen(block, parses);
    EventsDiffer(block);
    AtOnce(Followed(block, ""), parses, BrowserEvent(block), Gathered(block));
  }

  lemma AtOnce(text: string, parses: string -> bool, browser: Event, st: LineState)
    requires st.events == [] && !st.done && (st.data != "" ==> parses(st.data))
    requires Unnamed(Event(st.event, st.data)) != Unnamed(browser)
    requires Events(text, parses) == [browser]
            && BridgeLines(START, StreamLines(text), parses) == BridgeLine(st, "", parses)
    ensures !Agree(text, parses)
  {
    assert [] + [Event(st.event, st.data)] == [Event(st.event, st.data)];
    Differ(text, parses, browser, if st.data == "" then [] else [Event(st.event, st.data)]);
  }

  lemma EventsDiffer(block: string)
    requires !PlainBlock(block) && BrowserData(block) != ""
    ensures Unnamed(Event(Gathered(block).event, Gathered(block).data)) != Unnamed(BrowserEvent(block))
  {
    var names, values := EventNames(Split(block, '\n')), DataValues(Split(block, '\n'));
    SameData(values);
    if PlainData(values) {
      SameName(names[|names| - 1]);
    }
  }

  /** A block is plain if and only if the readers agree on it whatever plain text follows,
      and whichever data parses. */
  lemma PlainExactly(block: string)
    requires IsBlock(block)
    ensures PlainBlock(block) <==>
            forall rest, parses :: PlainBlocks(rest) && '\r' !in rest ==> Agree(Followed(block, rest), parses)
  {
    if PlainBlock(block) {
      forall rest, parses | PlainBlocks(rest) && '\r' !in rest ensures Agree(Followed(block, rest), parses) {
        BreakBehind(block, rest);
        ReadersAgree(Followed(block, rest), parses);
      }
    } else {
      NotPlain(block);
    }
  }

  /** Otherwise they differ on the block alone, or on data behind it. */
  lemma NotPlain(block: string)
    requires IsBlock(block) && !PlainBlock(block)
    ensures exists rest, parses :: PlainBlocks(rest) && '\r' !in rest && !Agree(Followed(block, rest), parses)
  {
    var all: string -> bool := s => true;
    if BrowserData(block) == "" {
      SameData(DataValues(Split(block, '\n')));
      ProbeSeen("", [], all);
      NameLeaks(block, all);
    } else {
      BlockDiffers(block, all);
      assert PlainBlocks("");
    }
  }

  // --- Streams on which they differ ---

  lemma NamedLines(name: string, value: string)
    ensures EventNames(["event:" + name, "data:" + value]) == [name]
            && DataValues(["event:" + name, "data:" + value]) == [value]
  {
    var a: string, b: string := "event:" + name, "data:" + value;
    assert [a, b][..1] == [a] && [a][..0] == [];
    assert a[..6] == "event:" && a[6..] == name && b[..5] == "data:" && b[5..] == value;
    assert !StartsWith(a, "data:") by { assert a[0] == 'e'; }
    assert !StartsWith(b, "event:") by { assert b[0] == 'd'; }
    assert EventNames([a]) == [] + [name] && DataValues([a]) == [];
    assert EventNames([a, b]) == EventNames([a]) && DataValues([a, b]) == [] + [value];
  }

  /** A block of one name and one piece of data. */
  function NamedBlock(name: string, value: string): string { ("event:" + name) + "\n" + ("data:" + value) }

  lemma NamedBlockLines(name: string, value: string)
    requires forall c :: c in name || c in value ==> c != '\n' && c != '\r'
    ensures IsBlock(NamedBlock(name, value))
            && Split(NamedBlock(name, value), '\n') == ["event:" + name, "data:" + value]
  {
    var a, b := "event:" + name, "data:" + value;
    SplitWhole(a);
    SplitWhole(b);
    SplitAround(a, b, '\n');
    assert forall j :: 0 <= j < |NamedBlock(name, value)| && j != |a| ==> NamedBlock(name, value)[j] != '\n';
  }

  lemma NamedBlockParts(name: string, value: string)
    requires forall c :: c in name || c in value ==> c != '\n' && c != '\r'
    requires value != "" && value[0] != ' '
    ensures var block := NamedBlock(name, value);
            && IsBlock(block) && BrowserData(block) == value
                 && BrowserEvent(block) == Event(Trim(JavaScript, name), value)
            && Gathered(block) == LineState(Trim(Rust, name), value, false, [])
  {
    NamedBlockLines(name, value);
    NamedLines(name, value);
    OneValue(value);
  }

  /** What either reader takes it for. */
  lemma NamedBlockSeen(name: string, value: string, parses: string -> bool)
    requires forall c :: c in name || c in value ==> c != '\n' && c != '\r'
    requires value != "" && value[0] != ' ' && parses(value)
    ensures var text := Followed(NamedBlock(name, value), "");
            && Events(text, parses) == [Event(Trim(JavaScript, name), value)]
            && BridgeLines(START, StreamLines(text), parses)
               == LineState("", "", Terminal(Trim(Rust, name)), [Event(Trim(Rust, name), value)])
  {
    NamedBlockParts(name, value);
    BlockSeen(NamedBlock(name, value), parses);
  }

  /** The bridge stops at an event if and only if it is called "done" or "error"; after any other
      it goes on with what follows. */
  lemma StopsAt(name: string, value: string, rest: string, parses: string -> bool)
    requires forall c :: c in name || c in value ==> c != '\n' && c != '\r'
    requires Trim(Rust, name) == name && value != "" && value[0] != ' ' && parses(value) && '\r' !in rest
    ensures var st := BridgeLines(START, StreamLines(Followed(NamedBlock(name, value), rest)), parses);
            st == if name == "done" || name == "error" then LineState("", "", true, [Event(name, value)])
                  else BridgeLines(LineState("", "", false, [Event(name, value)]), StreamLines(rest), parses)
  {
    var block := NamedBlock(name, value);
    NamedBlockSeen(name, value, parses);
    NamedBlockLines(name, value);
    BlockAlone(block, parses);
    BlockThen(block, rest, parses);
    if name == "done" || name == "error" {
      BridgeStops(LineState("", "", true, [Event(name, value)]), StreamLines(rest), parses);
    }
  }

  /** An event name that only Rust trims: the bridge reports success, the browser sees nothing final. */
  lemma OddName(parses: string -> bool)
    requires parses("1")
    ensures var text := Followed(NamedBlock("\U{85}done", "1"), "");
            && BridgeLines(START, StreamLines(text), parses) == LineState("", "", true, [Event("done", "1")])
            && Events(text, parses) == [Event("\U{85}done", "1")] && !Agree(text, parses)
  {
    var name := "\U{85}done";
    OddTrims(name);
    NamedBlockSeen(name, "1", parses);
    Differ(Followed(NamedBlock(name, "1"), ""), parses, Event(name, "1"), [Event("done", "1")]);
  }

  /** And one that only JavaScript trims: the browser sees the end, the bridge fails. */
  lemma OtherOddName(parses: string -> bool)
    requires parses("1")
    ensures var text := Followed(NamedBlock("\U{FEFF}done", "1"), "");
            && BridgeLines(START, StreamLines(text), parses) == LineState("", "", false, [Event("\U{FEFF}done", "1")])
            && Events(text, parses) == [Event("done", "1")] && !Agree(text, parses)
  {
    var name := "\U{FEFF}done";
    OddTrims(name);
    NamedBlockSeen(name, "1", parses);
    Differ(Followed(NamedBlock(name, "1"), ""), parses, Event("done", "1"), [Event(name, "1")]);
  }

  lemma DoneStays(l: Language)
    ensures TrimEnd(l, "done") == TrimStart(l, "done") == "done"
  {
    assert "done"[0] == 'd' && "done"[3] == 'e';
  }

  lemma OddTrims(name: string)
    requires |name| == 5 && Odd(name[0]) && name[1..] == "done"
    ensures Trim(Rust, name) == if name[0] == '\U{85}' then "done" else name
    ensures Trim(JavaScript, name) == if name[0] == '\U{85}' then name else "done"
  {
    DoneStays(Rust);
    DoneStays(JavaScript);
    assert name[4] == name[1..][3] == 'e';
  }

  /** A name without data: the bridge keeps it for the next block, the browser forgets it. */
  lemma KeptName(parses: string -> bool)
    requires parses("1")
    ensures var text := Followed("event: done", Probe());
            && BridgeLines(START, StreamLines(text), parses) == LineState("", "", true, [Event("done", "1")])
            && Events(text, parses) == [Event("message", "1")] && !Agree(text, parses)
  {
    var block: string := "event: done";
    KeptLines(block);
    NameLeaks(block, parses);
  }

  lemma SpaceDone(name: string)
    requires name == " done"
    ensures Trim(Rust, name) == "done"
  {
    assert name[1..] == "done";
    DoneStays(Rust);
  }

  lemma KeptLines(block: string)
    requires block == "event: done"
    ensures IsBlock(block) && Gathered(block) == LineState("done", "", false, []) && BrowserData(block) == ""
  {
    assert forall k :: 0 <= k < |block| ==> block[k] != '\n' && block[k] != '\r';
    SplitWhole(block);
    var name := " done";
    assert block[..6] == "event:" && block[6..] == name;
    assert Trim(Rust, name) == "done" by { SpaceDone(name); }
    assert !StartsWith(block, "data:") by { assert block[0] == 'e'; }
    NameOnly(block, name);
    assert Joined(OneSpaceEach([])) == "" && Joined(SpacesEach([])) == "";
  }

  lemma NameOnly(line: string, name: string)
    requires StartsWith(line, "event:") && line[6..] == name && !StartsWith(line, "data:")
    ensures EventNames([line]) == [name] && DataValues([line]) == []
  {
    assert [line][..0] == [];
    assert EventNames([line]) == [] + [name];
  }

  /** Two spaces before data: the browser keeps one of them. */
  lemma TwoSpaces(parses: string -> bool)
    requires parses("1") && parses(" 1")
    ensures var text := Followed("data:  1", "");
            && BridgeLines(START, StreamLines(text), parses) == LineState("", "", false, [Event("", "1")])
            && Events(text, parses) == [Event("message", " 1")] && !Agree(text, parses)
  {
    var block: string := "data:  1";
    SpacedLines(block);
    BlockSeen(block, parses);
    AtOnce(Followed(block, ""), parses, Event("message", " 1"), LineState("", "1", false, []));
    assert [] + [Event("", "1")] == [Event("", "1")];
  }

  lemma SpacedLines(block: string)
    requires block == "data:  1"
    ensures IsBlock(block) && Gathered(block) == LineState("", "1", false, [])
    ensures BrowserData(block) == " 1" && BrowserEvent(block) == Event("message", " 1")
  {
    assert forall k :: 0 <= k < |block| ==> block[k] != '\n' && block[k] != '\r';
    SplitWhole(block);
    var value := "  1";
    assert block[..5] == "data:" && block[5..] == value;
    assert !StartsWith(block, "event:") by { assert block[0] == 'd'; }
    DataOnly(block, value);
    SpacedValue(value);
  }

  lemma DataOnly(line: string, value: string)
    requires StartsWith(line, "data:") && line[5..] == value && !StartsWith(line, "event:")
    ensures EventNames([line]) == [] && DataValues([line]) == [value]
  {
    assert [line][..0] == [];
    assert DataValues([line]) == [] + [value];
  }

  lemma SpacedValue(v: string)
    requires v == "  1"
    ensures Joined(OneSpaceEach([v])) == " 1" && Joined(SpacesEach([v])) == "1"
  {
    assert v[..1] == " " && v[1..] == " 1" && " 1"[..1] == " " && " 1"[1..] == "1";
    assert !StartsWith("1", " ") by { assert "1"[0] == '1'; }
    assert OneSpaceEach([v]) == [" 1"] && DropEmpty([" 1"]) == [" 1"];
    assert DropSpaces("1") == "1" && DropSpaces(" 1") == DropSpaces("1") && DropSpaces(v) == DropSpaces(" 1");
    assert SpacesEach([v]) == ["1"] && DropEmpty(["1"]) == ["1"];
  }

  // --- Carriage returns ---

  /** The same stream with CRLF line ends. */
  function Crlf(text: string): string {
    if text == "" then "" else (if text[0] == '\n' then "\r\n" else [text[0]]) + Crlf(text[1..])
  }

  /** Every line but the last with a carriage return behind it. */
  function Returned(lines: seq<string>): (r: seq<string>)
    requires lines != []
    ensures |r| == |lines|
    ensures forall k :: 0 <= k < |r| ==> r[k] == if k < |r| - 1 then lines[k] + "\r" else lines[k]
  {
    seq(|lines|, k requires 0 <= k < |lines| => if k < |lines| - 1 then lines[k] + "\r" else lines[k])
  }

  lemma ReturnedCons(r: seq<string>)
    requires r != []
    ensures Returned([""] + r) == ["\r"] + Returned(r)
  {
    assert "" + "\r" == "\r";
  }

  lemma ReturnedGlue(c: char, r: seq<string>)
    requires r != []
    ensures Returned([[c] + r[0]] + r[1..]) == [[c] + Returned(r)[0]] + Returned(r)[1..]
  {
    Regroup([c], r[0], "\r");
  }

  lemma SplitReturn(rest: string)
    ensures Split("\r\n" + rest, '\n') == ["\r"] + Split(rest, '\n')
  {
    SplitAround("\r", rest, '\n');
    SplitWhole("\r");
    assert "\r\n" + rest == "\r" + ['\n'] + rest;
  }

  lemma {:induction false} CrlfPieces(text: string)
    ensures Split(Crlf(text), '\n') == Returned(Split(text, '\n'))
  {
    if text != "" {
      var r := Split(text[1..], '\n');
      CrlfPieces(text[1..]);
      if text[0] == '\n' {
        SplitReturn(Crlf(text[1..]));
        ReturnedCons(r);
      } else {
        assert Crlf(text)[1..] == Crlf(text[1..]);
        ReturnedGlue(text[0], r);
      }
    }
  }

  lemma StripsReturned(lines: seq<string>)
    requires lines != []
    ensures StripEach(Returned(lines)[..|lines| - 1]) == lines[..|lines| - 1]
  {
    forall k | 0 <= k < |lines| - 1 ensures StripReturn(Returned(lines)[k]) == lines[k] {
      assert (lines[k] + "\r")[..|lines[k]|] == lines[k];
    }
  }

  /** The bridge reads a stream with CRLF line ends as the one with LF. */
  lemma CrlfSame(text: string)
    requires '\r' !in text
    ensures StreamLines(Crlf(text)) == StreamLines(text)
  {
    var pieces := Split(text, '\n');
    var n := |pieces| - 1;
    CrlfPieces(text);
    StripsReturned(pieces);
    NoReturns(text, pieces);
    StripNone(pieces[..n]);
    assert Returned(pieces)[n] == pieces[n];
  }

  lemma {:induction false} CrlfEnds(text: string)
    ensures Crlf(text) == "" || Crlf(text)[0] != '\n'
    ensures forall k :: !BreakAt(Crlf(text), k)
  {
    if text != "" {
      var rest := Crlf(text[1..]);
      CrlfEnds(text[1..]);
      var head := if text[0] == '\n' then "\r\n" else [text[0]];
      forall k ensures !BreakAt(Crlf(text), k) {
        assert Crlf(text) == head + rest;
        if k >= |head| {
          assert !BreakAt(rest, k - |head|);
        }
      }
    }
  }

  /** The browser, which looks for two newlines in a row, sees nothing at all in it. */
  lemma CrlfUnseen(text: string, parses: string -> bool)
    ensures Events(Crlf(text), parses) == [] && Leftover(Crlf(text)) == Crlf(text)
  {
    CrlfEnds(text);
  }
}
