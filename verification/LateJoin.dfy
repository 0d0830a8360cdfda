/** The output of one session object: producers that push to the scrollback and then
    broadcast, and WebSocket clients that subscribe, take the history, and go live. */
module LateJoin {
  import opened Common
  import opened Utf8
  import opened Scrollback

  /** How far a receiver may fall behind before the broadcast channel skips it ahead. */
  const BROADCAST_CAPACITY := 256

  datatype Stage = NeedsPush | NeedsSend | Sent

  /** One piece of output on its way through a producer. PTY readers and Data handlers push
      well-formed UTF-8 before they send; the internal pipe and exit sentinels only send. */
  datatype Message = Message(bytes: Bytes, pushes: bool, stage: Stage)

  /** A client: where its subscription starts, how much had been pushed when it took the
      history, what that was, and what it has received live. */
  datatype Client = Client(sub: nat, snap: Option<nat>, history: Bytes, at: nat, got: seq<nat>, open: bool)

  /** `pushed` and `sent` list messages in the order of their pushes and sends. */
  datatype Output = Output(capacity: nat, messages: seq<Message>, pushed: seq<nat>, sent: seq<nat>,
      clients: seq<Client>)

  datatype Action =
    | Produce(bytes: Bytes, silent: bool)
    | Push(m: nat)
    | Send(m: nat)
    | Subscribe
    | Snapshot(c: nat)
    | Receive(c: nat)
    | Leave(c: nat)

  function Texts(s: Output, ids: seq<nat>): (r: seq<Bytes>)
    ensures |r| == |ids|
  {
    seq(|ids|, k requires 0 <= k < |ids| => if ids[k] < |s.messages| then s.messages[ids[k]].bytes else [])
  }

  function SetStage(s: Output, m: nat, stage: Stage): Output
    requires m < |s.messages|
  {
    s.(messages := s.messages[m := s.messages[m].(stage := stage)])
  }

  function SetClient(s: Output, c: nat, x: Client): Output
    requires c < |s.clients|
  {
    s.(clients := s.clients[c := x])
  }

  predicate StageIs(s: Output, m: nat, stage: Stage) { m < |s.messages| && s.messages[m].stage == stage }

  function Step(s: Output, a: Action): Output {
    match a
    case Produce(bytes, silent) =>
      var pushes := !silent && Valid(bytes);
      s.(messages := s.messages + [Message(bytes, pushes, if pushes then NeedsPush else NeedsSend)])
    case Push(m) => if StageIs(s, m, NeedsPush) then SetStage(s, m, NeedsSend).(pushed := s.pushed + [m]) else s
    case Send(m) => if StageIs(s, m, NeedsSend) then SetStage(s, m, Stage.Sent).(sent := s.sent + [m]) else s
    case Subscribe => s.(clients := s.clients + [Client(|s.sent|, None, [], |s.sent|, [], true)])
    case Snapshot(c) =>
      if c < |s.clients| && s.clients[c].snap.None? then
        SetClient(s, c, s.clients[c].(snap := Some(|s.pushed|), history := History(Texts(s, s.pushed), s.capacity)))
      else s
    case Receive(c) =>
      if c < |s.clients| && s.clients[c].open && s.clients[c].snap.Some? && s.clients[c].at < |s.sent| then
        var x := s.clients[c];
        var m := s.sent[x.at];
        // a client that fell behind, or that sees the exit sentinel, is disconnected
        if |s.sent| - x.at > BROADCAST_CAPACITY then SetClient(s, c, x.(open := false))
        else if m < |s.messages| && s.messages[m].bytes == PTY_EXIT_SENTINEL then SetClient(s, c, x.(open := false))
        else SetClient(s, c, x.(at := x.at + 1, got := x.got + [m]))
      else s
    case Leave(c) => if c < |s.clients| then SetClient(s, c, s.clients[c].(open := false)) else s
  }

  ghost predicate Run(states: seq<Output>, actions: seq<Action>) {
    && |states| == |actions| + 1
    && states[0] == Output(states[0].capacity, [], [], [], [])
    && forall k :: 0 <= k < |actions| ==> states[k + 1] == Step(states[k], actions[k])
  }

  // --- Messages ---

  ghost predicate NoRepeats(ids: seq<nat>) {
    forall i, j :: 0 <= i < j < |ids| ==> ids[i] != ids[j]
  }

  /** A message is pushed once, unless it is not to be pushed, and only then sent, once. */
  ghost predicate Ordered(s: Output) {
    && (forall k :: 0 <= k < |s.pushed| ==> s.pushed[k] < |s.messages|)
    && (forall k :: 0 <= k < |s.sent| ==> s.sent[k] < |s.messages|)
    && NoRepeats(s.pushed) && NoRepeats(s.sent)
    && (forall m :: 0 <= m < |s.messages| ==> Listed(s, m))
  }

  /** A message is listed exactly when its stage says so. */
  ghost predicate Listed(s: Output, m: nat)
    requires m < |s.messages|
  {
    && (m in s.pushed <==> s.messages[m].pushes && s.messages[m].stage != NeedsPush)
    && (m in s.sent <==> s.messages[m].stage == Stage.Sent)
    && (s.messages[m].stage == NeedsPush ==> s.messages[m].pushes)
  }

  lemma ListedKept(s: Output, a: Action, m: nat)
    requires (m < |s.messages| ==> Listed(s, m)) && m < |Step(s, a).messages|
    requires m >= |s.messages| ==> m !in s.pushed && m !in s.sent
    ensures Listed(Step(s, a), m)
  {
    var t := Step(s, a);
    assert m in t.pushed <==> m in s.pushed || (a == Push(m) && StageIs(s, m, NeedsPush));
    assert m in t.sent <==> m in s.sent || (a == Send(m) && StageIs(s, m, NeedsSend));
  }

  lemma AddsOne(ids: seq<nat>, m: nat)
    requires NoRepeats(ids) && m !in ids
    ensures NoRepeats(ids + [m])
  {
  }

  lemma OrderedKept(s: Output, a: Action)
    requires Ordered(s)
    ensures Ordered(Step(s, a))
  {
    var t := Step(s, a);
    forall m | 0 <= m < |t.messages| ensures Listed(t, m) {
      if m < |s.messages| {
        assert Listed(s, m);
      }
      ListedKept(s, a, m);
    }
    if t.pushed != s.pushed {
      assert Listed(s, a.m);
      AddsOne(s.pushed, a.m);
    }
    if t.sent != s.sent {
      assert Listed(s, a.m);
      AddsOne(s.sent, a.m);
    }
  }

  // --- Clients ---

  predicate Pushes(s: Output, m: nat) { m < |s.messages| && s.messages[m].pushes }

  /** The client has received exactly a stretch of the broadcast. */
  ghost predicate LiveSound(s: Output, x: Client) {
    && x.sub <= x.at <= |s.sent| && x.got == s.sent[x.sub..x.at]
    && (x.snap.Some? ==> x.snap.value <= |s.pushed|)
  }

  /** Its history is what the scrollback stood for when it was taken. */
  ghost predicate HistorySound(s: Output, x: Client) {
    x.snap.Some? && x.snap.value <= |s.pushed| ==> x.history == History(Texts(s, s.pushed[..x.snap.value]), s.capacity)
  }

  /** Every message that is to be pushed and stands before `sub` in the broadcast was among the first n pushes. */
  ghost predicate Covers(s: Output, sub: nat, n: nat) {
    forall k :: 0 <= k < sub && k < |s.sent| && Pushes(s, s.sent[k]) ==>
        exists p :: 0 <= p < n && p < |s.pushed| && s.pushed[p] == s.sent[k]
  }

  ghost predicate ClientSound(s: Output, x: Client) {
    LiveSound(s, x) && HistorySound(s, x) && (x.snap.Some? ==> Covers(s, x.sub, x.snap.value))
  }

  ghost predicate Sound(s: Output) {
    Ordered(s) && forall c :: 0 <= c < |s.clients| ==> ClientSound(s, s.clients[c])
  }

  /** The records only grow, and messages keep their contents. */
  lemma RecordsGrow(s: Output, a: Action)
    ensures var t := Step(s, a);
      && s.pushed <= t.pushed && s.sent <= t.sent && |s.messages| <= |t.messages| && t.capacity == s.capacity
      && (forall m :: 0 <= m < |s.messages| ==>
           t.messages[m].bytes == s.messages[m].bytes && t.messages[m].pushes == s.messages[m].pushes)
  {
  }

  lemma TextsStay(s: Output, a: Action, n: nat)
    requires Ordered(s) && n <= |s.pushed|
    ensures n <= |Step(s, a).pushed| && Texts(Step(s, a), Step(s, a).pushed[..n]) == Texts(s, s.pushed[..n])
  {
    RecordsGrow(s, a);
    assert Step(s, a).pushed[..n] == s.pushed[..n];
  }

  lemma LiveKept(s: Output, a: Action, c: nat)
    requires c < |Step(s, a).clients| && (c < |s.clients| ==> LiveSound(s, s.clients[c]))
    ensures LiveSound(Step(s, a), Step(s, a).clients[c])
  {
    RecordsGrow(s, a);
    if c < |s.clients| {
      ClientStays(s, a, c);
      ClientReads(s, a, c);
      var x := s.clients[c];
      Stretch(s.sent, Step(s, a).sent, x.sub, x.at);
    } else {
      FreshClient(s, a, c);
    }
  }

  /** A client reads at most the next message of the broadcast. */
  lemma ClientReads(s: Output, a: Action, c: nat)
    requires c < |s.clients|
    ensures c < |Step(s, a).clients|
    ensures var x := s.clients[c]; var t := Step(s, a); var y := t.clients[c];
            || (y.at == x.at && y.got == x.got)
            || (t.sent == s.sent && x.at < |s.sent| && y.at == x.at + 1 && y.got == x.got + [s.sent[x.at]])
  {
  }

  lemma Stretch(front: seq<nat>, all: seq<nat>, i: nat, j: nat)
    requires front <= all && i <= j <= |front|
    ensures all[i..j] == front[i..j]
    ensures j < |front| ==> front[i..j + 1] == front[i..j] + [front[j]]
  {
  }

  lemma FreshClient(s: Output, a: Action, c: nat)
    requires |s.clients| <= c < |Step(s, a).clients|
    ensures Step(s, a).clients[c] == Client(|s.sent|, None, [], |s.sent|, [], true) && Step(s, a).sent == s.sent
  {
  }

  lemma CoversKept(s: Output, a: Action, sub: nat, n: nat)
    requires Ordered(s) && sub <= |s.sent| && Covers(s, sub, n)
    ensures Covers(Step(s, a), sub, n)
  {
    RecordsGrow(s, a);
    var t := Step(s, a);
    forall k | 0 <= k < sub && k < |t.sent| && Pushes(t, t.sent[k])
      ensures exists p :: 0 <= p < n && p < |t.pushed| && t.pushed[p] == t.sent[k]
    {
      assert Pushes(s, s.sent[k]);
      var p :| 0 <= p < n && p < |s.pushed| && s.pushed[p] == s.sent[k];
      assert t.pushed[p] == t.sent[k];
    }
  }

  /** Push before send: whatever was broadcast is in the scrollback already. */
  lemma CoversNow(s: Output, sub: nat)
    requires Ordered(s)
    ensures Covers(s, sub, |s.pushed|)
  {
    forall k | 0 <= k < |s.sent| && Pushes(s, s.sent[k])
      ensures exists p :: 0 <= p < |s.pushed| && s.pushed[p] == s.sent[k]
    {
      assert s.sent[k] in s.sent;
      assert Listed(s, s.sent[k]) && s.sent[k] in s.pushed;
    }
  }

  /** What a step does to the fields of a client that record its subscription and snapshot. */
  lemma ClientStays(s: Output, a: Action, c: nat)
    requires c < |s.clients|
    ensures var t := Step(s, a); c < |t.clients| && t.clients[c].sub == s.clients[c].sub
    ensures var t := Step(s, a);
            var taken := a == Snapshot(c) && s.clients[c].snap.None?;
            && t.clients[c].snap == (if taken then Some(|s.pushed|) else s.clients[c].snap)
            && t.clients[c].history == (if taken then History(Texts(s, s.pushed), s.capacity) else s.clients[c].history)
  {
  }

  lemma HistoryKept(s: Output, a: Action, c: nat)
    requires Ordered(s) && c < |s.clients| && LiveSound(s, s.clients[c]) && HistorySound(s, s.clients[c])
    ensures c < |Step(s, a).clients| && HistorySound(Step(s, a), Step(s, a).clients[c])
  {
    var x := s.clients[c];
    var n := if x.snap.Some? then x.snap.value else |s.pushed|;
    ClientStays(s, a, c);
    RecordsGrow(s, a);
    TextsStay(s, a, n);
    assert s.pushed[..|s.pushed|] == s.pushed;
  }

  lemma SnapKept(s: Output, a: Action, c: nat)
    requires Ordered(s) && c < |s.clients| && LiveSound(s, s.clients[c])
    requires var x := s.clients[c]; x.snap.Some? ==> Covers(s, x.sub, x.snap.value)
    ensures c < |Step(s, a).clients|
    ensures var y := Step(s, a).clients[c]; y.snap.Some? ==> Covers(Step(s, a), y.sub, y.snap.value)
  {
    var x := s.clients[c];
    ClientStays(s, a, c);
    CoversNow(s, x.sub);
    CoversKept(s, a, x.sub, if x.snap.Some? then x.snap.value else |s.pushed|);
  }

  lemma ClientKept(s: Output, a: Action, c: nat)
    requires Sound(s) && c < |Step(s, a).clients|
    ensures ClientSound(Step(s, a), Step(s, a).clients[c])
  {
    if c < |s.clients| {
      assert ClientSound(s, s.clients[c]);
      SnapKept(s, a, c);
      HistoryKept(s, a, c);
    } else {
      FreshClient(s, a, c);
    }
    LiveKept(s, a, c);
  }

  lemma {:induction false} RunSound(states: seq<Output>, actions: seq<Action>, k: nat)
    requires Run(states, actions) && k < |states|
    ensures Sound(states[k])
  {
    if k > 0 {
      RunSound(states, actions, k - 1);
      OrderedKept(states[k - 1], actions[k - 1]);
      forall c | 0 <= c < |states[k].clients| ensures ClientSound(states[k], states[k].clients[c]) {
        ClientKept(states[k - 1], actions[k - 1], c);
      }
    }
  }

  // --- What a client sees ---

  /** Every message was made by one `Produce`; it is to be pushed exactly if that was not a
      silent producer and the bytes are well-formed. */
  lemma {:induction false} MadeOnce(states: seq<Output>, actions: seq<Action>, k: nat, m: nat) returns (j: nat)
    requires Run(states, actions) && k < |states| && m < |states[k].messages|
    ensures j < k && actions[j].Produce? && |states[j].messages| == m
    ensures states[k].messages[m].bytes == actions[j].bytes
    ensures states[k].messages[m].pushes <==> !actions[j].silent && Valid(actions[j].bytes)
  {
    if k > 0 && m < |states[k - 1].messages| {
      RecordsGrow(states[k - 1], actions[k - 1]);
      j := MadeOnce(states, actions, k - 1, m);
    } else {
      j := k - 1;
    }
  }

  /** And every `Produce` makes one. */
  lemma {:induction false} MessageOf(states: seq<Output>, actions: seq<Action>, j: nat, k: nat)
    requires Run(states, actions) && j < k < |states| && actions[j].Produce?
    ensures var m := |states[j].messages|;
            && m < |states[k].messages| && states[k].messages[m].bytes == actions[j].bytes
            && (states[k].messages[m].pushes <==> !actions[j].silent && Valid(actions[j].bytes))
    decreases k
  {
    if j + 1 < k {
      MessageOf(states, actions, j, k - 1);
      RecordsGrow(states[k - 1], actions[k - 1]);
    }
  }

  /** No gap: well-formed output of a producer that pushes, once it is broadcast, was pushed
      before the client took its history, or is in the client's live stream: already
      received, or next in line behind what was. */
  lemma NoGap(states: seq<Output>, actions: seq<Action>, j: nat, k: nat, c: nat)
    requires Run(states, actions) && j < k < |states|
    requires actions[j].Produce? && !actions[j].silent && Valid(actions[j].bytes)
    requires |states[j].messages| in states[k].sent
    requires c < |states[k].clients| && states[k].clients[c].snap.Some?
    ensures var s := states[k]; var x := s.clients[c]; var m := |states[j].messages|;
            && m < |s.messages| && s.messages[m].bytes == actions[j].bytes
            && x.snap.value <= |s.pushed| && x.sub <= x.at <= |s.sent|
            && x.got == s.sent[x.sub..x.at]
            && (m in s.pushed[..x.snap.value] || m in x.got || m in s.sent[x.at..])
  {
    RunSound(states, actions, k);
    MessageOf(states, actions, j, k);
    var s, x := states[k], states[k].clients[c];
    assert ClientSound(s, x);
    InOnePart(s, x, |states[j].messages|);
  }

  /** What a step pushes and sends: each message once, and none that is to be pushed is sent
      before it was. */
  lemma RecordsStep(s: Output, a: Action)
    requires Ordered(s)
    ensures Step(s, a).pushed == s.pushed +
              (if a.Push? && Pushes(s, a.m) && a.m !in s.pushed then [a.m] else [])
    ensures Step(s, a).sent == s.sent +
              (if a.Send? && a.m < |s.messages| && a.m !in s.sent && (Pushes(s, a.m) ==> a.m in s.pushed)
               then [a.m] else [])
  {
    if (a.Push? || a.Send?) && a.m < |s.messages| {
      assert Listed(s, a.m);
    }
  }

  // --- When a client is disconnected ---

  /** A client with its history turns to the next message of the broadcast. */
  predicate Looks(s: Output, a: Action, c: nat) {
    && a == Receive(c) && c < |s.clients| && s.clients[c].open && s.clients[c].snap.Some?
    && s.clients[c].at < |s.sent|
  }

  /** It has fallen more than 256 messages behind, or what it gets is the exit sentinel. */
  predicate Refused(s: Output, c: nat)
    requires c < |s.clients| && s.clients[c].at < |s.sent|
  {
    || |s.sent| > s.clients[c].at + 256
    || (s.sent[s.clients[c].at] < |s.messages| && s.messages[s.sent[s.clients[c].at]].bytes == PTY_EXIT_SENTINEL)
  }

  predicate Drops(s: Output, a: Action, c: nat) {
    c < |s.clients| && s.clients[c].open && (a == Leave(c) || (Looks(s, a, c) && Refused(s, c)))
  }

  lemma ClientStep(s: Output, a: Action, c: nat)
    requires c < |s.clients|
    ensures var t, x := Step(s, a), s.clients[c];
            && c < |t.clients|
            && (t.clients[c].open <==> x.open && !Drops(s, a, c))
            && (if Looks(s, a, c) && !Refused(s, c)
                then t.clients[c].at == x.at + 1 && t.clients[c].got == x.got + [s.sent[x.at]]
                else t.clients[c].at == x.at && t.clients[c].got == x.got)
  {
  }

  ghost predicate WasDropped(states: seq<Output>, actions: seq<Action>, k: nat, c: nat)
    requires k <= |actions| < |states|
  {
    exists j :: 0 <= j < k && Drops(states[j], actions[j], c)
  }

  lemma DroppedNext(states: seq<Output>, actions: seq<Action>, k: nat, c: nat)
    requires 0 < k <= |actions| < |states|
    ensures WasDropped(states, actions, k, c)
       <==> WasDropped(states, actions, k - 1, c) || Drops(states[k - 1], actions[k - 1], c)
  {
    if WasDropped(states, actions, k - 1, c) {
      var j :| 0 <= j < k - 1 && Drops(states[j], actions[j], c);
      assert Drops(states[j], actions[j], c) && j < k;
    }
  }

  /** A client is disconnected if and only if it left, fell behind, or saw the session end. */
  lemma {:induction false} DisconnectedExactly(states: seq<Output>, actions: seq<Action>, k: nat, c: nat)
    requires Run(states, actions) && k < |states| && c < |states[k].clients|
    ensures !states[k].clients[c].open <==> WasDropped(states, actions, k, c)
  {
    if k > 0 {
      DroppedNext(states, actions, k, c);
      if c < |states[k - 1].clients| {
        DisconnectedExactly(states, actions, k - 1, c);
        ClientStep(states[k - 1], actions[k - 1], c);
      } else {
        FreshClient(states[k - 1], actions[k - 1], c);
        NotYetDropped(states, actions, k - 1, c);
      }
    }
  }

  lemma {:induction false} NotYetDropped(states: seq<Output>, actions: seq<Action>, k: nat, c: nat)
    requires Run(states, actions) && k < |states| && c >= |states[k].clients|
    ensures !WasDropped(states, actions, k, c)
  {
    if k > 0 {
      ClientsGrow(states[k - 1], actions[k - 1]);
      NotYetDropped(states, actions, k - 1, c);
      DroppedNext(states, actions, k, c);
    }
  }

  lemma ClientsGrow(s: Output, a: Action)
    ensures |s.clients| <= |Step(s, a).clients| <= |s.clients| + 1
  {
  }

  // --- Catching up ---

  function ReceiveTimes(s: Output, c: nat, n: nat): Output {
    if n == 0 then s else Step(ReceiveTimes(s, c, n - 1), Receive(c))
  }

  /** What the client has when it has received n more messages. */
  function Further(s: Output, x: Client, n: nat): Client
    requires x.sub <= x.at && x.at + n <= |s.sent|
  {
    x.(at := x.at + n, got := s.sent[x.sub..x.at + n])
  }

  /** Nothing in this stretch of the broadcast is the exit sentinel. */
  ghost predicate Plain(s: Output, from: nat) {
    forall i :: from <= i < |s.sent| ==> s.sent[i] < |s.messages| && s.messages[s.sent[i]].bytes != PTY_EXIT_SENTINEL
  }

  lemma TakesNext(s: Output, c: nat, y: Client)
    requires c < |s.clients| && y.open && y.snap.Some? && y.at < |s.sent| <= y.at + 256 && Plain(s, y.at)
    ensures Step(SetClient(s, c, y), Receive(c)) == SetClient(s, c, y.(at := y.at + 1, got := y.got + [s.sent[y.at]]))
  {
    var t := SetClient(s, c, y);
    assert Looks(t, Receive(c), c) && !Refused(t, c);
    assert s.clients[c := y][c := y.(at := y.at + 1, got := y.got + [s.sent[y.at]])]
        == s.clients[c := y.(at := y.at + 1, got := y.got + [s.sent[y.at]])];
  }

  lemma OneFurther(s: Output, x: Client, n: nat)
    requires x.sub <= x.at && x.at + n < |s.sent|
    ensures var y := Further(s, x, n); Further(s, x, n + 1) == y.(at := y.at + 1, got := y.got + [s.sent[y.at]])
  {
  }

  /** A connected client with its history, that is not too far behind, receives all that was
      broadcast since its subscription when it just goes on receiving. */
  lemma {:induction false} CatchesUp(s: Output, c: nat, n: nat)
    requires c < |s.clients| && s.clients[c].open && s.clients[c].snap.Some? && LiveSound(s, s.clients[c])
    requires s.clients[c].at + n <= |s.sent| <= s.clients[c].at + 256 && Plain(s, s.clients[c].at)
    ensures ReceiveTimes(s, c, n) == SetClient(s, c, Further(s, s.clients[c], n))
  {
    if n == 0 {
      NoFurther(s, c);
    } else {
      CatchesUp(s, c, n - 1);
      StepFurther(s, c, n - 1);
    }
  }

  lemma NoFurther(s: Output, c: nat)
    requires c < |s.clients| && LiveSound(s, s.clients[c])
    ensures SetClient(s, c, Further(s, s.clients[c], 0)) == s
  {
    assert s.clients[c := s.clients[c]] == s.clients;
  }

  lemma StepFurther(s: Output, c: nat, n: nat)
    requires c < |s.clients| && s.clients[c].open && s.clients[c].snap.Some? && s.clients[c].sub <= s.clients[c].at
    requires s.clients[c].at + n < |s.sent| <= s.clients[c].at + 256 && Plain(s, s.clients[c].at)
    ensures Step(SetClient(s, c, Further(s, s.clients[c], n)), Receive(c))
         == SetClient(s, c, Further(s, s.clients[c], n + 1))
  {
    OneFurther(s, s.clients[c], n);
    TakesNext(s, c, Further(s, s.clients[c], n));
  }

  lemma InOnePart(s: Output, x: Client, m: nat)
    requires LiveSound(s, x) && x.snap.Some? && Covers(s, x.sub, x.snap.value) && Pushes(s, m) && m in s.sent
    ensures m in s.pushed[..x.snap.value] || m in x.got || m in s.sent[x.at..]
  {
    var i :| 0 <= i < |s.sent| && s.sent[i] == m;
    if i < x.sub {
      var p :| 0 <= p < x.snap.value && p < |s.pushed| && s.pushed[p] == s.sent[i];
      assert s.pushed[..x.snap.value][p] == m;
    } else if i < x.at {
      assert x.got[i - x.sub] == m;
    } else {
      assert s.sent[x.at..][i - x.at] == m;
    }
  }

  /** And if it was pushed before, and no line of it was evicted or truncated, the bytes the
      client got as history contain it. */
  lemma HistoryHolds(states: seq<Output>, actions: seq<Action>, k: nat, c: nat, p: nat)
      returns (before: Bytes, after: Bytes)
    requires Run(states, actions) && k < |states|
    requires c < |states[k].clients| && states[k].clients[c].snap.Some? && p < states[k].clients[c].snap.value
    requires var s := states[k]; var n := s.clients[c].snap.value;
             n <= |s.pushed| && Retained(Texts(s, s.pushed[..n]), p, s.capacity)
    ensures var s := states[k];
            p < |s.pushed| && s.pushed[p] < |s.messages|
            && s.clients[c].history == before + s.messages[s.pushed[p]].bytes + after
  {
    RunSound(states, actions, k);
    var s, x := states[k], states[k].clients[c];
    assert ClientSound(s, x);
    before, after := RetainedInHistory(Texts(s, s.pushed[..x.snap.value]), p, s.capacity);
  }

  lemma {:induction false} RunGrows(states: seq<Output>, actions: seq<Action>, j: nat, k: nat)
    requires Run(states, actions) && j <= k < |states|
    ensures states[j].pushed <= states[k].pushed && states[j].sent <= states[k].sent
    decreases k - j
  {
    if j < k {
      RunGrows(states, actions, j, k - 1);
      RecordsGrow(states[k - 1], actions[k - 1]);
    }
  }

  lemma {:induction false} ClientFixed(states: seq<Output>, actions: seq<Action>, j: nat, k: nat, c: nat)
    requires Run(states, actions) && j <= k < |states| && c < |states[j].clients|
    ensures c < |states[k].clients| && states[k].clients[c].sub == states[j].clients[c].sub
    ensures states[j].clients[c].snap.Some? ==> states[k].clients[c].snap == states[j].clients[c].snap
    decreases k - j
  {
    if j < k {
      ClientFixed(states, actions, j, k - 1, c);
      ClientStays(states[k - 1], actions[k - 1], c);
    }
  }

  /** The overlap is exact: with the subscription at step `sub` and the history taken at
      step `snap`, a message is in the history part if and only if it was pushed by `snap`,
      and in the live part if and only if it was sent, but not before `sub`. */
  lemma OverlapExactly(states: seq<Output>, actions: seq<Action>, k: nat, c: nat, sub: nat, snap: nat, m: nat)
    requires Run(states, actions) && sub < snap < k < |states|
    requires actions[sub] == Subscribe && c == |states[sub].clients|
    requires actions[snap] == Snapshot(c) && c < |states[snap].clients| && states[snap].clients[c].snap.None?
    ensures var s := states[k];
            && c < |s.clients| && s.clients[c].snap.Some? && s.clients[c].snap.value <= |s.pushed|
                 && s.clients[c].sub <= |s.sent|
            && (m in s.pushed[..s.clients[c].snap.value] <==> m in states[snap].pushed)
            && (m in s.sent[s.clients[c].sub..] <==> m in s.sent && m !in states[sub].sent)
  {
    var s := states[k];
    assert states[sub + 1].clients[c].sub == |states[sub].sent|;
    ClientFixed(states, actions, sub + 1, k, c);
    assert states[snap + 1].clients[c].snap == Some(|states[snap].pushed|);
    ClientFixed(states, actions, snap + 1, k, c);
    RunGrows(states, actions, snap, k);
    RunGrows(states, actions, sub, k);
    assert s.pushed[..|states[snap].pushed|] == states[snap].pushed;
    RunSound(states, actions, k);
    SentApart(s.sent, states[sub].sent, m);
  }

  lemma SentApart(all: seq<nat>, front: seq<nat>, m: nat)
    requires front <= all && NoRepeats(all)
    ensures m in all[|front|..] <==> m in all && m !in front
  {
    assert all == front + all[|front|..];
    if m in all[|front|..] {
      var i :| 0 <= i < |all| - |front| && all[|front|..][i] == m;
      assert all[|front| + i] == m;
      forall j | 0 <= j < |front| ensures front[j] != m {
        assert front[j] == all[j];
      }
    }
  }
}
