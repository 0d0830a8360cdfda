/** The live status line: which tools ran, and how they are shown. */
module Progress {
  import opened Common
  import opened Text
  import opened Trimming

  const TELEGRAM_MAX := 4000
  const THINKING := "\U{1F527} thinking\U{2026}"

  datatype Tool = Tool(name: string, arg: string)
  datatype Verbosity = Minimal | Kind | KindAndArg | Progressive

  datatype Event = ToolUse(tool: Tool) | ToolResult

  /** The shared state: finished tools and the one in flight. */
  datatype ProgressState = ProgressState(completed: seq<Tool>, current: Option<Tool>) {
    function Shown(): seq<Tool> {
      completed + (if current.Some? then [current.value] else [])
    }
  }

  function Clip(s: string, max: nat): (r: string)
    ensures |s| <= max ==> r == s
    ensures |s| > max ==> |r| == max + 1 && r[..max] == s[..max] && r[max] == '\U{2026}'
  {
    if |s| <= max then s else s[..max] + "\U{2026}"
  }

  function DoneLine(t: Tool, max: nat): string {
    if t.arg == "" then "\U{2713} " + t.name else "\U{2713} " + t.name + ": " + Clip(t.arg, max)
  }

  function RunningLine(t: Tool, max: nat): string {
    if t.arg == "" then "\U{1F527} " + t.name + "\U{2026}"
        else "\U{1F527} " + t.name + ": " + Clip(t.arg, max) + "\U{2026}"
  }

  function DoneLines(tools: seq<Tool>): string {
    if tools == [] then "" else DoneLines(tools[..|tools| - 1]) + DoneLine(tools[|tools| - 1], 50) + "\n"
  }

  function LastTwenty(tools: seq<Tool>): seq<Tool> {
    if |tools| <= 20 then tools else tools[|tools| - 20..]
  }

  function RenderProgressive(p: ProgressState): string {
    var s := DoneLines(LastTwenty(p.completed));
    if p.current.Some? then s + RunningLine(p.current.value, 50)
    else if s == "" then THINKING
    else TrimEnd(Rust, s)
  }

  /** The status text at each verbosity. */
  function Rendering(p: ProgressState, v: Verbosity): string {
    match v
    case Minimal => THINKING
    case Kind =>
      if p.current.Some? then RunningLine(p.current.value.(arg := ""), 0)
      else if p.completed != [] then DoneLine(p.completed[|p.completed| - 1].(arg := ""), 0)
      else THINKING
    case KindAndArg =>
      if p.current.Some? then RunningLine(p.current.value, 60)
      else if p.completed != [] then DoneLine(p.completed[|p.completed| - 1], 60)
      else THINKING
    case Progressive => RenderProgressive(p)
  }

  /** The running tool, else the last finished one. */
  function Latest(p: ProgressState): Option<Tool> {
    if p.current.Some? then p.current
    else if p.completed != [] then Some(p.completed[|p.completed| - 1]) else None
  }

  /** A running tool between a wrench and an ellipsis, a finished one behind a tick. */
  function Marked(p: ProgressState, s: string): string {
    if p.current.Some? then "\U{1F527} " + s + "\U{2026}" else "\U{2713} " + s
  }

  /** What is shown of an argument: its first `max` characters, and nothing if it is empty. */
  function ArgShown(arg: string, max: nat): string {
    if arg == "" then "" else ": " + (if |arg| <= max then arg else arg[..max] + "\U{2026}")
  }

  class StatusHandle {
    var state: ProgressState
    ghost var events: seq<Event>

    ghost predicate Valid()
      reads this
    {
      state.Shown() == Uses(events)
    }

    constructor ()
      ensures Valid() && events == [] && state == ProgressState([], None)
    {
      state := ProgressState([], None);
      events := [];
    }

    method OnToolUse(name: string, arg: string)
      requires Valid()
      modifies this
      ensures Valid() && events == old(events) + [ToolUse(Tool(name, arg))]
      ensures state.current == Some(Tool(name, arg)) && state.completed == old(state.Shown())
    {
      if state.current.Some? {
        state := ProgressState(state.completed + [state.current.value], None);
      }
      state := state.(current := Some(Tool(name, arg)));
      events := events + [ToolUse(Tool(name, arg))];
    }

    method OnToolResult(name: string)
      requires Valid()
      modifies this
      ensures Valid() && events == old(events) + [ToolResult]
      ensures state.current == None && state.completed == old(state.Shown())
    {
      if state.current.Some? {
        state := ProgressState(state.completed + [state.current.value], None);
      }
      events := events + [ToolResult];
    }

    /** A running tool is named behind what was done; between two tools the text tells of a
        finished one; and the text fits in a message while tool names are not too long. */
    method Render(v: Verbosity) returns (s: string)
      ensures NamesWithin(state, 134) ==> |s| <= TELEGRAM_MAX
      ensures v == Minimal ==> s == THINKING
      ensures state.current.Some? && v != Minimal ==> NamesRunning(s, state.current.value)
      ensures state.current.None? ==> (s == THINKING <==> v == Minimal || state.completed == [])
      ensures state.current.None? && state.completed != [] && v != Minimal ==> s != "" && s[0] == TICK
      ensures state.current.None? && state.completed != [] && v in {Kind, KindAndArg} ==>
                NamesDone(s, state.completed[|state.completed| - 1])
      ensures v == Kind && Latest(state).Some? ==> s == Marked(state, Latest(state).value.name)
      ensures v == KindAndArg && Latest(state).Some? ==>
                s == Marked(state, Latest(state).value.name + ArgShown(Latest(state).value.arg, 60))
      ensures v == Progressive && (state.current.Some? || state.completed != []) ==> s == Join(StatusLines(state), "\n")
      ensures s == Rendering(state, v)
    {
      RenderingMeans(state, v);
      if v == Minimal {
        s := THINKING;
      } else if v == Kind || v == KindAndArg {
        var shown := state.current;
        if shown.None? && state.completed != [] {
          shown := Some(state.completed[|state.completed| - 1]);
        }
        if shown.None? {
          s := THINKING;
        } else {
          s := if state.current.Some? then "\U{1F527} " + shown.value.name else "\U{2713} " + shown.value.name;
          if v == KindAndArg && shown.value.arg != "" {
            s := s + ": " + Clip(shown.value.arg, 60);
          }
          if state.current.Some? {
            s := s + "\U{2026}";
          }
        }
      } else {
        s := RenderList();
      }
    }

    /** The Progressive text, line by line. */
    method RenderList() returns (s: string)
      ensures s == Rendering(state, Progressive)
    {
      s := "";
      var shown := LastTwenty(state.completed);
      for i := 0 to |shown|
        invariant s == DoneLines(shown[..i])
      {
        assert shown[..i + 1][..i] == shown[..i];
        s := s + DoneLine(shown[i], 50) + "\n";
      }
      assert shown[..|shown|] == shown;
      if state.current.Some? {
        s := s + RunningLine(state.current.value, 50);
      } else if s == "" {
        s := THINKING;
      } else {
        s := TrimEnd(Rust, s);
      }
    }
  }

  /** The tools announced by a sequence of events, in order. */
  function Uses(events: seq<Event>): seq<Tool> {
    if events == [] then []
    else
      var rest := Uses(events[..|events| - 1]);
      match events[|events| - 1]
      case ToolUse(t) => rest + [t]
      case ToolResult => rest
  }

  ghost predicate NamesWithin(p: ProgressState, n: nat) {
    forall k :: 0 <= k < |p.Shown()| ==> |p.Shown()[k].name| <= n
  }

  lemma {:induction false} DoneLinesBound(tools: seq<Tool>, n: nat)
    requires forall k :: 0 <= k < |tools| ==> |tools[k].name| <= n
    ensures |DoneLines(tools)| <= |tools| * (n + 56)
  {
    if tools != [] {
      DoneLinesBound(tools[..|tools| - 1], n);
      LineBounds(tools[|tools| - 1], 50);
      assert |tools| * (n + 56) == (|tools| - 1) * (n + 56) + (n + 56);
    }
  }

  lemma LineBounds(t: Tool, max: nat)
    ensures |DoneLine(t, max)| <= |t.name| + max + 5
    ensures |RunningLine(t, max)| <= |t.name| + max + 6
  {
  }

  lemma LastTwentyBound(p: ProgressState, n: nat)
    requires NamesWithin(p, n)
    ensures |DoneLines(LastTwenty(p.completed))| <= 20 * (n + 56)
  {
    var shown := LastTwenty(p.completed);
    forall k | 0 <= k < |shown| ensures |shown[k].name| <= n {
      assert shown[k] == p.Shown()[|p.completed| - |shown| + k];
    }
    DoneLinesBound(shown, n);
    MulMonotone(|shown|, 20, n + 56);
  }

  lemma CurrentBound(p: ProgressState, n: nat)
    requires NamesWithin(p, n) && p.current.Some?
    ensures |p.current.value.name| <= n
  {
    assert p.Shown()[|p.completed|] == p.current.value;
  }

  lemma ProgressiveFits(p: ProgressState, n: nat)
    requires NamesWithin(p, n)
    ensures |RenderProgressive(p)| <= 21 * (n + 56)
  {
    LastTwentyBound(p, n);
    assert |THINKING| == 11;
    if p.current.Some? {
      CurrentBound(p, n);
      LineBounds(p.current.value, 50);
    }
  }

  lemma RenderingFits(p: ProgressState, v: Verbosity, n: nat)
    requires NamesWithin(p, n)
    ensures |Rendering(p, v)| <= 21 * (n + 56)
  {
    if p.current.Some? {
      CurrentBound(p, n);
      LineBounds(p.current.value, 60);
      LineBounds(p.current.value.(arg := ""), 0);
    } else if p.completed != [] {
      var last := p.completed[|p.completed| - 1];
      assert p.Shown()[|p.completed| - 1] == last;
      LineBounds(last, 60);
      LineBounds(last.(arg := ""), 0);
    }
    ProgressiveFits(p, n);
  }

  function Repeat<T>(x: T, n: nat): (r: seq<T>)
    ensures |r| == n && forall k :: 0 <= k < n ==> r[k] == x
  {
    seq(n, _ => x)
  }

  lemma {:induction false} DoneLinesSame(t: Tool, n: nat)
    ensures |DoneLines(Repeat(t, n))| == n * (|DoneLine(t, 50)| + 1)
  {
    if n > 0 {
      DoneLinesSame(t, n - 1);
      assert n * (|DoneLine(t, 50)| + 1) == (n - 1) * (|DoneLine(t, 50)| + 1) + (|DoneLine(t, 50)| + 1);
      assert Repeat(t, n)[..n - 1] == Repeat(t, n - 1);
    }
  }

  /** Twenty finished tools and one running, all with names of length n and long arguments. */
  function Crowded(n: nat): ProgressState {
    var t := Tool(Repeat('n', n), Repeat('a', 51));
    ProgressState(Repeat(t, 20), Some(t))
  }

  lemma CrowdedLength(n: nat)
    ensures NamesWithin(Crowded(n), n) && |RenderProgressive(Crowded(n))| == 21 * (n + 56)
  {
    var t := Tool(Repeat('n', n), Repeat('a', 51));
    DoneLinesSame(t, 20);
  }

  /** A status never outgrows a Telegram message exactly when tool names keep to 134 characters. */
  lemma StatusFitsExactly(n: nat)
    ensures (forall p, v :: NamesWithin(p, n) ==> |Rendering(p, v)| <= TELEGRAM_MAX) <==> n <= 134
  {
    forall p, v | NamesWithin(p, n) && n <= 134 ensures |Rendering(p, v)| <= TELEGRAM_MAX {
      RenderingFits(p, v, n);
    }
    CrowdedLength(n);
    if n > 134 {
      assert |Rendering(Crowded(n), Progressive)| > TELEGRAM_MAX;
    }
  }

  // --- Between two tools ---

  const TICK := '\U{2713}'

  lemma {:induction false} DoneLinesStart(tools: seq<Tool>)
    requires tools != []
    ensures DoneLines(tools) != "" && DoneLines(tools)[0] == TICK
  {
    if |tools| > 1 {
      DoneLinesStart(tools[..|tools| - 1]);
    } else {
      assert DoneLines(tools[..0]) == "";
    }
  }

  /** While no tool runs, the status falls back to "thinking" only before the first tool has
      finished; afterwards, unless minimal, it shows what was done. */
  lemma ShowsWhatWasDone(p: ProgressState, v: Verbosity)
    requires p.current.None?
    ensures Rendering(p, v) == THINKING <==> v == Minimal || p.completed == []
    ensures v != Minimal && p.completed != [] ==> Rendering(p, v) != "" && Rendering(p, v)[0] == TICK
  {
    assert THINKING[0] != TICK;
    if v == Progressive && p.completed != [] {
      DoneLinesStart(LastTwenty(p.completed));
      TrimEndStart(Rust, DoneLines(LastTwenty(p.completed)));
    }
  }

  // --- The lines of the list ---

  function LinesOf(tools: seq<Tool>): (r: seq<string>)
    ensures |r| == |tools| && forall k :: 0 <= k < |r| ==> r[k] == DoneLine(tools[k], 50)
  {
    seq(|tools|, k requires 0 <= k < |tools| => DoneLine(tools[k], 50))
  }

  /** One line for each of the last twenty finished tools, in order, and one for the running
      tool; without one, the last line loses the white space at its end. */
  function StatusLines(p: ProgressState): seq<string>
    requires p.current.Some? || p.completed != []
  {
    var lines := LinesOf(LastTwenty(p.completed));
    if p.current.Some? then lines + [RunningLine(p.current.value, 50)]
    else lines[..|lines| - 1] + [TrimEnd(Rust, lines[|lines| - 1])]
  }

  lemma {:induction false} DoneLinesJoin(tools: seq<Tool>, last: string)
    ensures DoneLines(tools) + last == Join(LinesOf(tools) + [last], "\n")
    decreases |tools|
  {
    if tools == [] {
      assert LinesOf(tools) + [last] == [last];
      assert "" + last == last;
    } else {
      var n := |tools| - 1;
      var line := DoneLine(tools[n], 50);
      DoneLinesJoin(tools[..n], line);
      assert LinesOf(tools[..n]) + [line] == LinesOf(tools);
      JoinAppend(LinesOf(tools), [last], "\n");
    }
  }

  /** Trimming a text whose end is not all white space leaves the front alone. */
  lemma {:induction false} TrimBehind(front: string, back: string)
    requires TrimEnd(Rust, back) != ""
    ensures TrimEnd(Rust, front + back) == front + TrimEnd(Rust, back)
    decreases |back|
  {
    var n := |back| - 1;
    assert (front + back)[|front + back| - 1] == back[n];
    if IsSpace(Rust, back[n]) {
      assert (front + back)[..|front + back| - 1] == front + back[..n];
      TrimBehind(front, back[..n]);
    }
  }

  lemma LastLine(t: Tool)
    ensures TrimEnd(Rust, DoneLine(t, 50) + "\n") == TrimEnd(Rust, DoneLine(t, 50)) != ""
  {
    EndSkips(Rust, DoneLine(t, 50), "\n");
    assert DoneLine(t, 50)[0] == TICK;
    TrimEndStart(Rust, DoneLine(t, 50));
  }

  lemma ProgressiveLines(p: ProgressState)
    requires p.current.Some? || p.completed != []
    ensures RenderProgressive(p) == Join(StatusLines(p), "\n")
  {
    var shown := LastTwenty(p.completed);
    if p.current.Some? {
      DoneLinesJoin(shown, RunningLine(p.current.value, 50));
    } else {
      var n := |shown| - 1;
      var line := DoneLine(shown[n], 50);
      DoneLinesStart(shown);
      LastLine(shown[n]);
      assert DoneLines(shown) == DoneLines(shown[..n]) + (line + "\n");
      TrimBehind(DoneLines(shown[..n]), line + "\n");
      DoneLinesJoin(shown[..n], TrimEnd(Rust, line));
      assert LinesOf(shown)[..n] == LinesOf(shown[..n]);
    }
  }

  /** What is left of the last line names the tool, but for white space at the end of its name. */
  lemma LastLineNames(t: Tool)
    ensures TrimEnd(Rust, "\U{2713} " + t.name) <= TrimEnd(Rust, DoneLine(t, 50))
    ensures t.arg != "" ==> "\U{2713} " + t.name + ":" <= TrimEnd(Rust, DoneLine(t, 50))
  {
    if t.arg != "" {
      var head := "\U{2713} " + t.name + ":";
      var rest := " " + Clip(t.arg, 50);
      assert DoneLine(t, 50) == head + rest;
      TrimKeepsFront(head, rest);
      assert TrimEnd(Rust, "\U{2713} " + t.name) <= "\U{2713} " + t.name <= head;
    }
  }

  lemma {:induction false} TrimKeepsFront(front: string, back: string)
    requires front != "" && !IsSpace(Rust, front[|front| - 1])
    ensures front <= TrimEnd(Rust, front + back)
    decreases |back|
  {
    if back == "" {
      assert front + back == front;
    } else if IsSpace(Rust, back[|back| - 1]) {
      assert (front + back)[..|front + back| - 1] == front + back[..|back| - 1];
      TrimKeepsFront(front, back[..|back| - 1]);
    }
  }

  /** The text ends by naming the running tool. */
  ghost predicate NamesRunning(s: string, t: Tool) {
    exists before, after :: s == before + ("\U{1F527} " + t.name) + after && after != ""
        && after[|after| - 1] == '\U{2026}'
  }

  /** The text starts by naming the finished tool. */
  ghost predicate NamesDone(s: string, t: Tool) { "\U{2713} " + t.name <= s }

  lemma Tail(a: string, b: string, c: string, d: string)
    ensures a + b + c + d == a + (b + c + d)
  {
  }

  lemma RunningParts(t: Tool, max: nat) returns (after: string)
    ensures RunningLine(t, max) == ("\U{1F527} " + t.name) + after
    ensures after != "" && after[|after| - 1] == '\U{2026}'
  {
    after := if t.arg == "" then "\U{2026}" else ": " + Clip(t.arg, max) + "\U{2026}";
    Tail("\U{1F527} " + t.name, ": ", Clip(t.arg, max), "\U{2026}");
  }

  lemma RunningNamed(front: string, t: Tool, max: nat)
    ensures NamesRunning(front + RunningLine(t, max), t)
  {
    var after := RunningParts(t, max);
    Regroup(front, "\U{1F527} " + t.name, after);
  }

  lemma RenderingMeans(p: ProgressState, v: Verbosity)
    ensures NamesWithin(p, 134) ==> |Rendering(p, v)| <= TELEGRAM_MAX
    ensures p.current.Some? && v != Minimal ==> NamesRunning(Rendering(p, v), p.current.value)
    ensures p.current.None? ==> (Rendering(p, v) == THINKING <==> v == Minimal || p.completed == [])
    ensures p.current.None? && p.completed != [] && v != Minimal ==> Rendering(p, v) != "" && Rendering(p, v)[0] == TICK
    ensures p.current.None? && p.completed != [] && v in {Kind, KindAndArg} ==>
              NamesDone(Rendering(p, v), p.completed[|p.completed| - 1])
    ensures v == Kind && Latest(p).Some? ==> Rendering(p, v) == Marked(p, Latest(p).value.name)
    ensures v == KindAndArg && Latest(p).Some? ==>
              Rendering(p, v) == Marked(p, Latest(p).value.name + ArgShown(Latest(p).value.arg, 60))
    ensures v == Progressive && (p.current.Some? || p.completed != []) ==> Rendering(p, v) == Join(StatusLines(p), "\n")
  {
    if Latest(p).Some? {
      OneToolShown(p, Latest(p).value);
    }
    if v == Progressive && (p.current.Some? || p.completed != []) {
      ProgressiveLines(p);
    }
    if NamesWithin(p, 134) {
      RenderingFits(p, v, 134);
    }
    if p.current.None? {
      ShowsWhatWasDone(p, v);
    } else if v != Minimal {
      RunningShown(p, v);
    }
  }

  lemma OneToolShown(p: ProgressState, t: Tool)
    requires Latest(p) == Some(t)
    ensures Rendering(p, Kind) == Marked(p, t.name)
    ensures Rendering(p, KindAndArg) == Marked(p, t.name + ArgShown(t.arg, 60))
  {
    assert t.arg == "" ==> t.name + ArgShown(t.arg, 60) == t.name;
    assert t.arg != "" ==>
        "\U{2713} " + (t.name + (": " + Clip(t.arg, 60))) == "\U{2713} " + t.name + ": " + Clip(t.arg, 60);
    assert t.arg != "" ==>
        "\U{1F527} " + (t.name + (": " + Clip(t.arg, 60))) == "\U{1F527} " + t.name + ": " + Clip(t.arg, 60);
  }

  lemma RunningShown(p: ProgressState, v: Verbosity)
    requires p.current.Some? && v != Minimal
    ensures NamesRunning(Rendering(p, v), p.current.value)
  {
    var t := p.current.value;
    if v == Progressive {
      RunningNamed(DoneLines(LastTwenty(p.completed)), t, 50);
    } else if v == Kind {
      RunningNamed("", t.(arg := ""), 0);
      assert "" + RunningLine(t.(arg := ""), 0) == RunningLine(t.(arg := ""), 0);
    } else {
      RunningNamed("", t, 60);
      assert "" + RunningLine(t, 60) == RunningLine(t, 60);
    }
  }
}
