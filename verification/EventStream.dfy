/** The two readers of the event stream format (section 9.2.6 of the WHATWG HTML
    Standard): the browser's, driven by blocks, and the bridge's, driven by lines. */
module EventStream {
  import opened Common
  import opened Text
  import opened Trimming

  datatype Event = Event(name: string, data: string)
  datatype Fields = Fields(event: string, data: string)

  predicate StartsWith(s: string, prefix: string) { prefix <= s }

  function DropOneSpace(s: string): string { if StartsWith(s, " ") then s[1..] else s }

  function DropSpaces(s: string): string { if StartsWith(s, " ") then DropSpaces(s[1..]) else s }

  function AppendData(data: string, value: string): string {
    data + (if data == "" then "" else "\n") + value
  }

  // --- The browser: blocks out of a buffer ---

  /** `indexOf("\n\n")`. */
  function FirstBreak(s: string): (i: int)
    ensures i == -1 ==> NoBreak(s)
    ensures i != -1 ==> BreakAt(s, i) && forall k :: k < i ==> !BreakAt(s, k)
  {
    if |s| < 2 then -1
    else if BreakAt(s, 0) then 0
    else
      var i := FirstBreak(s[1..]);
      assert forall k :: k >= 1 ==> (BreakAt(s, k) <==> BreakAt(s[1..], k - 1));
      if i == -1 then -1 else i + 1
  }

  function BrowserLine(f: Fields, line: string): Fields {
    if StartsWith(line, "event:") then f.(event := Trim(JavaScript, line[6..]))
    else if StartsWith(line, "data:") then f.(data := AppendData(f.data, DropOneSpace(line[5..])))
    else f
  }

  function BrowserLines(f: Fields, lines: seq<string>): Fields {
    if lines == [] then f else BrowserLine(BrowserLines(f, lines[..|lines| - 1]), lines[|lines| - 1])
  }

  /** What stands behind "event:" in these lines. */
  function EventNames(lines: seq<string>): seq<string> {
    if lines == [] then []
    else
      var last, rest := lines[|lines| - 1], EventNames(lines[..|lines| - 1]);
      if StartsWith(last, "event:") then rest + [last[6..]] else rest
  }

  /** What stands behind "data:" in these lines. */
  function DataValues(lines: seq<string>): seq<string> {
    if lines == [] then []
    else
      var last, rest := lines[|lines| - 1], DataValues(lines[..|lines| - 1]);
      if StartsWith(last, "data:") then rest + [last[5..]] else rest
  }

  function DropEmpty(values: seq<string>): (r: seq<string>)
    ensures r == [] || r[0] != ""
  {
    if values != [] && values[0] == "" then DropEmpty(values[1..]) else values
  }

  /** The values on lines of their own, empty ones at the front left out. */
  function Joined(values: seq<string>): string { Join(DropEmpty(values), "\n") }

  function OneSpaceEach(values: seq<string>): (r: seq<string>)
    ensures |r| == |values| && forall k :: 0 <= k < |r| ==> r[k] == DropOneSpace(values[k])
  {
    seq(|values|, k requires 0 <= k < |values| => DropOneSpace(values[k]))
  }

  lemma {:induction false} DropEmptySnoc(values: seq<string>, v: string)
    ensures DropEmpty(values + [v]) == if DropEmpty(values) == [] && v == "" then [] else DropEmpty(values) + [v]
  {
    if values == [] {
      assert values + [v] == [v] && [v][1..] == [];
    } else if values[0] == "" {
      assert (values + [v])[1..] == values[1..] + [v];
      DropEmptySnoc(values[1..], v);
    }
  }

  lemma JoinedSnoc(values: seq<string>, v: string)
    ensures Joined(values + [v]) == AppendData(Joined(values), v)
  {
    var w := DropEmpty(values);
    DropEmptySnoc(values, v);
    if w != [] {
      JoinAppend(w, [v], "\n");
    }
  }

  /** The name and the data of a block, said without going through its lines one by one. */
  function Named(names: seq<string>, l: Language, default: string): string {
    if names == [] then default else Trim(l, names[|names| - 1])
  }

  lemma {:induction false} BrowserFields(name: string, lines: seq<string>)
    ensures BrowserLines(Fields(name, ""), lines)
         == Fields(Named(EventNames(lines), JavaScript, name), Joined(OneSpaceEach(DataValues(lines))))
    decreases |lines|
  {
    if lines != [] {
      var n := |lines| - 1;
      var values := DataValues(lines[..n]);
      BrowserFields(name, lines[..n]);
      if StartsWith(lines[n], "data:") {
        assert !StartsWith(lines[n], "event:") by { assert lines[n][0] == 'd'; }
        assert OneSpaceEach(values + [lines[n][5..]]) == OneSpaceEach(values) + [DropOneSpace(lines[n][5..])];
        JoinedSnoc(OneSpaceEach(values), DropOneSpace(lines[n][5..]));
      }
    }
  }

  function BlockEvents(block: string, parses: string -> bool): seq<Event> {
    var f := BrowserLines(Fields("message", ""), Split(block, '\n'));
    if f.data == "" || !parses(f.data) then [] else [Event(f.event, f.data)]
  }

  /** The events of the complete blocks of `text`. */
  function Events(text: string, parses: string -> bool): seq<Event>
    decreases |text|
  {
    var i := FirstBreak(text);
    if i == -1 then [] else BlockEvents(text[..i], parses) + Events(text[i + 2..], parses)
  }

  /** What stays in the buffer behind the last complete block. */
  function Leftover(text: string): (r: string)
    ensures NoBreak(r)
    decreases |text|
  {
    var i := FirstBreak(text);
    if i == -1 then text else Leftover(text[i + 2..])
  }

  class BlockReader {
    var buf: string
    var dispatched: seq<Event>
    const parses: string -> bool
    ghost var text: string

    ghost predicate Valid()
      reads this
    {
      dispatched == Events(text, parses) && buf == Leftover(text)
    }

    constructor (parses: string -> bool)
      ensures Valid() && text == "" && this.parses == parses
    {
      this.parses := parses;
      buf, dispatched, text := "", [], "";
    }

    /** One read from the network. */
    method Read(value: string)
      requires Valid()
      modifies this
      ensures Valid() && text == old(text) + value
    {
      EventsAppend(text, value, parses);
      var events, rest := Drain(buf + value, parses);
      dispatched, buf := dispatched + events, rest;
      text := text + value;
    }
  }

  /** The inner loop: cut complete blocks off the buffer until none is left. */
  method Drain(all: string, parses: string -> bool) returns (events: seq<Event>, buf: string)
    ensures events == Events(all, parses) && buf == Leftover(all)
  {
    events, buf := [], all;
    while FirstBreak(buf) != -1
      invariant Events(all, parses) == events + Events(buf, parses)
      invariant Leftover(all) == Leftover(buf)
      decreases |buf|
    {
      var i := FirstBreak(buf);
      var block, rest := buf[..i], buf[i + 2..];
      var dispatched := DispatchBlock(block, parses);
      Regroup(events, dispatched, Events(rest, parses));
      events, buf := events + dispatched, rest;
    }
  }

  /** The loop over the lines of one block. */
  method DispatchBlock(block: string, parses: string -> bool) returns (events: seq<Event>)
    ensures events == BlockEvents(block, parses)
    ensures var lines := Split(block, '\n');
            var data := Joined(OneSpaceEach(DataValues(lines)));
            events == if data == "" || !parses(data) then []
                else [Event(Named(EventNames(lines), JavaScript, "message"), data)]
  {
    BrowserFields("message", Split(block, '\n'));
    var lines := Split(block, '\n');
    var event, data := "message", "";
    for i := 0 to |lines|
      invariant Fields(event, data) == BrowserLines(Fields("message", ""), lines[..i])
    {
      assert lines[..i + 1][..i] == lines[..i];
      if StartsWith(lines[i], "event:") {
        event := Trim(JavaScript, lines[i][6..]);
      } else if StartsWith(lines[i], "data:") {
        data := data + (if data == "" then "" else "\n") + DropOneSpace(lines[i][5..]);
      }
    }
    assert lines[..|lines|] == lines;
    if data == "" || !parses(data) {
      return [];
    }
    events := [Event(event, data)];
  }

  lemma FirstBreakAppend(s: string, more: string)
    requires FirstBreak(s) != -1
    ensures FirstBreak(s + more) == FirstBreak(s)
  {
    var i, j := FirstBreak(s), FirstBreak(s + more);
    assert BreakAt(s + more, i);
    assert BreakAt(s, j);
  }

  /** Text that arrives later only ever continues the leftover. */
  lemma {:induction false} EventsAppend(text: string, more: string, parses: string -> bool)
    ensures Events(text + more, parses) == Events(text, parses) + Events(Leftover(text) + more, parses)
    ensures Leftover(text + more) == Leftover(Leftover(text) + more)
    decreases |text|
  {
    var i := FirstBreak(text);
    if i != -1 {
      var rest := text[i + 2..];
      BreakAppend(text, more);
      EventsAppend(rest, more, parses);
      var first := BlockEvents(text[..i], parses);
      assert Events(text, parses) == first + Events(rest, parses);
      assert Events(text + more, parses) == first + Events(rest + more, parses);
      Regroup(first, Events(rest, parses), Events(Leftover(rest) + more, parses));
    }
  }

  lemma BreakAppend(text: string, more: string)
    requires FirstBreak(text) != -1
    ensures var i := FirstBreak(text);
            && FirstBreak(text + more) == i && (text + more)[..i] == text[..i]
                 && (text + more)[i + 2..] == text[i + 2..] + more
  {
    FirstBreakAppend(text, more);
  }

  /** Feeding reads one by one, as `(events so far, buffer)`. */
  function Feed(received: seq<string>, parses: string -> bool): (seq<Event>, string) {
    if received == [] then ([], "")
    else
      var (events, buf) := Feed(received[..|received| - 1], parses);
      var all := buf + received[|received| - 1];
      (events + Events(all, parses), Leftover(all))
  }

  lemma ConcatLast(received: seq<string>)
    requires received != []
    ensures Concat(received) == Concat(received[..|received| - 1]) + received[|received| - 1]
  {
    var n := |received| - 1;
    ConcatSnoc(received[..n], received[n]);
    assert received[..n] + [received[n]] == received;
  }

  /** However the stream is cut into reads, the events are those of the whole text. */
  lemma {:induction false} ChunkIndependence(received: seq<string>, parses: string -> bool)
    ensures Feed(received, parses) == (Events(Concat(received), parses), Leftover(Concat(received)))
    decreases |received|
  {
    if received != [] {
      var n := |received| - 1;
      var front, last := received[..n], received[n];
      ChunkIndependence(front, parses);
      EventsAppend(Concat(front), last, parses);
      ConcatLast(received);
    }
  }

  // --- The bridge: line by line, stopping at the first done or error ---

  datatype LineState = LineState(event: string, data: string, done: bool, events: seq<Event>)

  const START := LineState("", "", false, [])

  function StripReturn(line: string): string {
    if line != "" && line[|line| - 1] == '\r' then line[..|line| - 1] else line
  }

  function StripEach(lines: seq<string>): (r: seq<string>)
    ensures |r| == |lines| && forall k :: 0 <= k < |r| ==> r[k] == StripReturn(lines[k])
  {
    seq(|lines|, k requires 0 <= k < |lines| => StripReturn(lines[k]))
  }

  /** `BufRead::lines`: the terminator goes, with a carriage return before it; an
      unterminated last line is still a line. */
  function StreamLines(text: string): seq<string> {
    var pieces := Split(text, '\n');
    var n := |pieces| - 1;
    var terminated := StripEach(pieces[..n]);
    if pieces[n] == "" then terminated else terminated + [pieces[n]]
  }

  predicate Terminal(name: string) { name == "done" || name == "error" }

  function BridgeLine(st: LineState, line: string, parses: string -> bool): LineState {
    if st.done then st
    else if line == "" then
      if st.data == "" then st
      else if parses(st.data) then LineState("", "", Terminal(st.event), st.events + [Event(st.event, st.data)])
      else LineState("", "", false, st.events)
    else if StartsWith(line, "event:") then st.(event := Trim(Rust, line[6..]))
    else if StartsWith(line, "data:") then st.(data := AppendData(st.data, DropSpaces(line[5..])))
    else st
  }

  function BridgeLines(st: LineState, lines: seq<string>, parses: string -> bool): LineState {
    if lines == [] then st
    else BridgeLine(BridgeLines(st, lines[..|lines| - 1], parses), lines[|lines| - 1], parses)
  }

  /** The read loop: `done` says whether a final event arrived before the stream ended. */
  method ForwardStreaming(text: string, parses: string -> bool) returns (done: bool, events: seq<Event>)
    ensures var st := BridgeLines(START, StreamLines(text), parses); done == st.done && events == st.events
    ensures forall k :: 0 <= k < |events| - 1 ==> !Terminal(events[k].name)
    ensures done <==> events != [] && Terminal(events[|events| - 1].name)
  {
    OnlyLastIsFinal(StreamLines(text), parses);
    var lines := StreamLines(text);
    var event, data := "", "";
    done, events := false, [];
    for i := 0 to |lines|
      invariant !done && LineState(event, data, done, events) == BridgeLines(START, lines[..i], parses)
    {
      BridgeNext(lines, i, parses);
      var line := lines[i];
      if line == "" {
        if data != "" {
          if parses(data) {
            events := events + [Event(event, data)];
            done := Terminal(event);
          }
          event, data := "", "";
        }
        if done {
          BridgeIgnoresRest(lines, i + 1, parses);
          return;
        }
        continue;
      }
      if StartsWith(line, "event:") {
        event := Trim(Rust, line[6..]);
      } else if StartsWith(line, "data:") {
        if data != "" {
          data := data + "\n";
        }
        data := data + DropSpaces(line[5..]);
      }
    }
    assert lines[..|lines|] == lines;
  }

  /** Only the last event can be final, and `done` says whether it is. */
  ghost predicate FinalLast(st: LineState) {
    && (forall k :: 0 <= k < |st.events| - 1 ==> !Terminal(st.events[k].name))
    && (st.done <==> st.events != [] && Terminal(st.events[|st.events| - 1].name))
  }

  lemma {:induction false} OnlyLastIsFinal(lines: seq<string>, parses: string -> bool)
    ensures FinalLast(BridgeLines(START, lines, parses))
    decreases |lines|
  {
    if lines != [] {
      OnlyLastIsFinal(lines[..|lines| - 1], parses);
    }
  }

  lemma BridgeNext(lines: seq<string>, i: nat, parses: string -> bool)
    requires i < |lines|
    ensures BridgeLines(START, lines[..i + 1], parses)
            == BridgeLine(BridgeLines(START, lines[..i], parses), lines[i], parses)
  {
    assert lines[..i + 1][..i] == lines[..i];
  }

  /** Nothing behind the line that ended the loop matters. */
  lemma BridgeIgnoresRest(lines: seq<string>, k: nat, parses: string -> bool)
    requires k <= |lines| && BridgeLines(START, lines[..k], parses).done
    ensures BridgeLines(START, lines, parses) == BridgeLines(START, lines[..k], parses)
  {
    BridgeStops(BridgeLines(START, lines[..k], parses), lines[k..], parses);
    BridgeAppend(START, lines[..k], lines[k..], parses);
    assert lines[..k] + lines[k..] == lines;
  }

  lemma {:induction false} BridgeAppend(st: LineState, a: seq<string>, b: seq<string>, parses: string -> bool)
    ensures BridgeLines(st, a + b, parses) == BridgeLines(BridgeLines(st, a, parses), b, parses)
    decreases |b|
  {
    if b == [] {
      assert a + b == a;
    } else {
      assert (a + b)[..|a + b| - 1] == a + b[..|b| - 1];
      BridgeAppend(st, a, b[..|b| - 1], parses);
    }
  }

  lemma {:induction false} BridgeStops(st: LineState, lines: seq<string>, parses: string -> bool)
    requires st.done
    ensures BridgeLines(st, lines, parses) == st
    decreases |lines|
  {
    if lines != [] {
      BridgeStops(st, lines[..|lines| - 1], parses);
    }
  }
}
