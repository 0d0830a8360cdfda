/** `BufferedOutput`: batching the output of a session within a time window. */
module Coalescer {
  import opened Common
  import opened Utf8

  /** What the broadcast receiver yields, in order; after `Closed` it yields only that. */
  datatype Item = Data(bytes: Bytes) | Lagged | Closed

  /** One wake-up of the waiting task: the clock, and whether the next item has arrived. */
  datatype Wake = Wake(at: Time, arrived: bool)

  datatype Outcome = Chunk(bytes: Bytes) | Ended | Pending

  datatype Received = Received(bytes: Bytes, at: Time)

  function Payload(messages: seq<Received>): Bytes {
    if messages == [] then [] else Payload(messages[..|messages| - 1]) + messages[|messages| - 1].bytes
  }

  function Flatten(batches: seq<seq<Received>>): seq<Received> {
    if batches == [] then [] else Flatten(batches[..|batches| - 1]) + batches[|batches| - 1]
  }

  function Bodies(messages: seq<Received>): seq<Bytes> {
    if messages == [] then [] else Bodies(messages[..|messages| - 1]) + [messages[|messages| - 1].bytes]
  }

  /** The messages still to come. */
  function Coming(items: seq<Item>): seq<Bytes> {
    if items == [] || items[0].Closed? then []
    else if items[0].Lagged? then Coming(items[1..])
    else [items[0].bytes] + Coming(items[1..])
  }

  /** The fields of the buffer, and which messages they stand for: `open` is being
      filled, `batches` were returned, `ends` says when. */
  datatype Batcher = Batcher(rx: seq<Item>, buf: Bytes, deadline: Option<Time>, open: seq<Received>,
      batches: seq<seq<Received>>, ends: seq<Time>)

  function Next(rx: seq<Item>, w: Wake): Option<Item> {
    if w.arrived && rx != [] then Some(rx[0]) else None
  }

  function Flush(b: Batcher, at: Time): Batcher {
    b.(buf := [], deadline := None, open := [], batches := b.batches + [b.open], ends := b.ends + [at])
  }

  /** The next message joins the batch; the first bytes start the clock. */
  function Take(b: Batcher, bytes: Bytes, at: Time, window: Time): Batcher
    requires b.rx != []
  {
    var deadline := if b.buf == [] then Some(at + window) else b.deadline;
    b.(rx := b.rx[1..], buf := b.buf + bytes, deadline := deadline, open := b.open + [Received(bytes, at)])
  }

  /** One turn of the loop at one wake-up. The deadline branch of the select comes first. */
  function Poll(window: Time, max: nat, b: Batcher, w: Wake): (Batcher, Outcome) {
    if window == 0 then
      match Next(b.rx, w)
      case Some(Data(bytes)) =>
        (b.(rx := b.rx[1..], batches := b.batches + [[Received(bytes, w.at)]], ends := b.ends + [w.at]), Chunk(bytes))
      case Some(Closed) => (b, Ended)
      case Some(Lagged) => (b.(rx := b.rx[1..]), Pending)
      case None => (b, Pending)
    else if b.buf != [] && b.deadline.Some? && b.deadline.value <= w.at then (Flush(b, w.at), Chunk(b.buf))
    else
      match Next(b.rx, w)
      case Some(Data(bytes)) =>
        var c := Take(b, bytes, w.at, window);
        if |c.buf| >= max then (Flush(c, w.at), Chunk(c.buf)) else (c, Pending)
      case Some(Closed) => if b.buf == [] then (b, Ended) else (Flush(b, w.at), Chunk(b.buf))
      case Some(Lagged) => (b.(rx := b.rx[1..]), Pending)
      case None => (b, Pending)
  }

  class BufferedOutput {
    const window: Time
    const maxBytes: nat
    var rx: seq<Item>
    var buf: Bytes
    var deadline: Option<Time>
    ghost var open: seq<Received>
    ghost var batches: seq<seq<Received>>
    ghost var ends: seq<Time>
    /** The wake-ups so far. */
    ghost var seen: seq<Wake>

    ghost function Model(): Batcher
      reads this
    {
      Batcher(rx, buf, deadline, open, batches, ends)
    }

    ghost predicate Valid()
      reads this
    {
      maxBytes > 0 && Sound(window, maxBytes, Model())
    }

    constructor (rx: seq<Item>, window: Time)
      ensures Valid() && Model() == Batcher(rx, [], None, [], [], []) && this.window == window && maxBytes == 16384
    {
      this.rx, this.window, maxBytes := rx, window, 16384;
      buf, deadline, open, batches, ends, seen := [], None, [], [], [], [];
      new;
      assert Payload([]) == [];
    }

    /** One `recv`, suspended whenever the schedule of wake-ups runs out: everything the
        loop needs is in the fields, so a later call goes on where this one waited. */
    method Recv(wakes: seq<Wake>) returns (out: Outcome, used: nat)
      requires Valid()
      modifies this
      ensures Valid() && used <= |wakes| && (out == Pending ==> used == |wakes|) && (out != Pending ==> used > 0)
      ensures PollAll(window, maxBytes, old(Model()), wakes[..used]) == (Model(), out)
      ensures out.Chunk? ==> exists g :: batches == old(batches) + [g] && out.bytes == Payload(g)
      ensures out.Chunk? ==> used > 0 && ends == old(ends) + [wakes[used - 1].at]
      ensures !out.Chunk? ==> batches == old(batches) && ends == old(ends)
      ensures Account(Model()) == old(Account(Model()))
      ensures seen == old(seen) + wakes[..used]
      ensures out == Ended ==> buf == [] && Over(rx) && Coming(rx) == []
    {
      out, used := Pending, 0;
      while used < |wakes| && out == Pending
        invariant used <= |wakes| && Valid() && (out != Pending ==> used > 0)
        invariant PollAll(window, maxBytes, old(Model()), wakes[..used]) == (Model(), out)
        invariant out.Chunk? ==> exists g :: batches == old(batches) + [g] && out.bytes == Payload(g)
        invariant out.Chunk? ==> ends == old(ends) + [wakes[used - 1].at]
        invariant !out.Chunk? ==> batches == old(batches) && ends == old(ends)
        invariant seen == old(seen) + wakes[..used]
        invariant out == Ended ==> Over(rx)
        decreases |wakes| - used
      {
        PollAllNext(window, maxBytes, old(Model()), wakes, used);
        SliceNext(old(seen), wakes, used);
        TurnExactly(window, maxBytes, Model(), wakes[used]);
        PollReturns(window, maxBytes, Model(), wakes[used]);
        PollSound(window, maxBytes, Model(), wakes[used]);
        out := Turn(wakes[used]);
        used := used + 1;
      }
      RunConserves(window, maxBytes, old(Model()), wakes[..used]);
    }

    /** The body of the loop. */
    method Turn(w: Wake) returns (out: Outcome)
      modifies this
      ensures Poll(window, maxBytes, old(Model()), w) == (Model(), out)
      ensures seen == old(seen) + [w]
    {
      seen := seen + [w];
      var item := Next(rx, w);
      if window == 0 {
        match item
        case Some(Data(bytes)) =>
          rx, batches, ends := rx[1..], batches + [[Received(bytes, w.at)]], ends + [w.at];
          return Chunk(bytes);
        case Some(Closed) => return Ended;
        case Some(Lagged) => rx := rx[1..]; return Pending;
        case None => return Pending;
      }
      if buf != [] && deadline.Some? && deadline.value <= w.at {
        var chunk := FlushBuf(w.at);
        return Chunk(chunk);
      }
      match item
      case Some(Data(bytes)) =>
        if buf == [] {
          deadline := Some(w.at + window);
        }
        rx, buf, open := rx[1..], buf + bytes, open + [Received(bytes, w.at)];
        if |buf| >= maxBytes {
          var chunk := FlushBuf(w.at);
          return Chunk(chunk);
        }
        return Pending;
      case Some(Closed) =>
        if buf == [] {
          return Ended;
        }
        var chunk := FlushBuf(w.at);
        return Chunk(chunk);
      case Some(Lagged) => rx := rx[1..]; return Pending;
      case None => return Pending;
    }

    method FlushBuf(ghost at: Time) returns (chunk: Bytes)
      modifies this`buf, this`deadline, this`open, this`batches, this`ends
      ensures chunk == old(buf) && Model() == Flush(old(Model()), at)
    {
      chunk := buf;
      deadline, buf := None, [];
      batches, open, ends := batches + [open], [], ends + [at];
    }
  }

  /** Wake-ups one after another until one returns. */
  function PollAll(window: Time, max: nat, b: Batcher, wakes: seq<Wake>): (Batcher, Outcome) {
    if wakes == [] then (b, Pending)
    else
      var (c, out) := PollAll(window, max, b, wakes[..|wakes| - 1]);
      if out == Pending then Poll(window, max, c, wakes[|wakes| - 1]) else (c, out)
  }

  lemma PollAllNext(window: Time, max: nat, b: Batcher, wakes: seq<Wake>, used: nat)
    requires used < |wakes|
    ensures var (c, out) := PollAll(window, max, b, wakes[..used]);
            PollAll(window, max, b, wakes[..used + 1])
            == if out == Pending then Poll(window, max, c, wakes[used]) else (c, out)
  {
    assert wakes[..used + 1][..used] == wakes[..used];
  }

  lemma SliceNext(was: seq<Wake>, wakes: seq<Wake>, used: nat)
    requires used < |wakes|
    ensures was + wakes[..used] + [wakes[used]] == was + wakes[..used + 1]
  {
  }

  /** How many messages at the front of a batch are empty; the next one starts the clock. */
  function Leading(messages: seq<Received>): (n: nat)
    ensures n <= |messages|
  {
    if messages == [] || messages[0].bytes != [] then 0 else 1 + Leading(messages[1..])
  }

  lemma {:induction false} LeadingMeans(messages: seq<Received>)
    ensures var n := Leading(messages);
            && (n < |messages| ==> messages[n].bytes != [])
            && (forall k :: 0 <= k < n ==> messages[k].bytes == [])
  {
    if messages != [] && messages[0].bytes == [] {
      LeadingMeans(messages[1..]);
    }
  }

  lemma {:induction false} LeadingSnoc(messages: seq<Received>, r: Received)
    ensures Leading(messages + [r]) == if Leading(messages) < |messages| || r.bytes != [] then Leading(messages)
            else |messages| + 1
  {
    if messages != [] {
      assert (messages + [r])[1..] == messages[1..] + [r];
      LeadingSnoc(messages[1..], r);
    }
  }

  lemma PayloadSnoc(messages: seq<Received>, r: Received)
    ensures Payload(messages + [r]) == Payload(messages) + r.bytes
  {
    assert (messages + [r])[..|messages|] == messages;
  }

  lemma {:induction false} PayloadEmpty(messages: seq<Received>)
    ensures Payload(messages) == [] <==> Leading(messages) == |messages|
    decreases |messages|
  {
    if messages != [] {
      var n := |messages| - 1;
      PayloadEmpty(messages[..n]);
      assert messages[..n] + [messages[n]] == messages;
      LeadingSnoc(messages[..n], messages[n]);
    }
  }

  /** No message joins a batch once the window of its first nonempty message is over. */
  ghost predicate InTime(window: Time, messages: seq<Received>) {
    var n := Leading(messages);
    forall k :: n < k < |messages| ==> messages[k].at < messages[n].at + window
  }

  /** What every returned batch satisfies. */
  ghost predicate SoundBatch(window: Time, max: nat, g: seq<Received>) {
    && g != []
    && (window == 0 ==> |g| == 1)
    && (window > 0 ==> Payload(g) != [] && |Payload(g[..|g| - 1])| < max && InTime(window, g))
  }

  /** The batch being filled: its bytes, its size and its deadline. */
  ghost predicate SoundOpen(window: Time, max: nat, b: Batcher) {
    && b.buf == Payload(b.open) && InTime(window, b.open)
    && (window == 0 ==> b.open == [])
    && (b.buf != [] ==>
          && Leading(b.open) < |b.open| && b.deadline == Some(b.open[Leading(b.open)].at + window)
          && |Payload(b.open[..|b.open| - 1])| < max)
  }

  predicate Over(rx: seq<Item>) { rx != [] && rx[0].Closed? }

  /** Why a batch is returned and not filled any further: it is full, or the window of its
      first nonempty message is over, or the channel has closed. */
  ghost predicate MustEnd(window: Time, max: nat, g: seq<Received>, at: Time, over: bool) {
    || |Payload(g)| >= max
    || (Leading(g) < |g| && g[Leading(g)].at + window <= at)
    || over
  }

  /** Every batch was returned for one of these reasons, and only the last for the third. */
  ghost predicate SoundEnds(window: Time, max: nat, b: Batcher) {
    && |b.ends| == |b.batches|
    && (window > 0 ==> forall k :: 0 <= k < |b.batches| ==>
          MustEnd(window, max, b.batches[k], b.ends[k], k == |b.batches| - 1 && Over(b.rx) && b.buf == []))
  }

  ghost predicate SoundBatches(window: Time, max: nat, b: Batcher) {
    SoundEnds(window, max, b) && forall k :: 0 <= k < |b.batches| ==> SoundBatch(window, max, b.batches[k])
  }

  ghost predicate Sound(window: Time, max: nat, b: Batcher) {
    SoundOpen(window, max, b) && |b.buf| < max && SoundBatches(window, max, b)
  }

  lemma TakeInTime(window: Time, open: seq<Received>, r: Received)
    requires InTime(window, open)
    requires Leading(open) < |open| ==> r.at < open[Leading(open)].at + window
    ensures InTime(window, open + [r])
  {
    LeadingSnoc(open, r);
  }

  lemma TakeSound(window: Time, max: nat, b: Batcher, bytes: Bytes, at: Time)
    requires window > 0 && max > 0 && SoundOpen(window, max, b) && |b.buf| < max && b.rx != []
    requires b.buf != [] ==> at < b.deadline.value
    ensures SoundOpen(window, max, Take(b, bytes, at, window))
  {
    var r := Received(bytes, at);
    LeadingSnoc(b.open, r);
    PayloadSnoc(b.open, r);
    PayloadEmpty(b.open);
    TakeInTime(window, b.open, r);
    assert (b.open + [r])[..|b.open|] == b.open;
  }

  lemma FlushSound(window: Time, max: nat, b: Batcher, at: Time)
    requires window > 0 && max > 0 && SoundOpen(window, max, b) && b.buf != [] && SoundBatches(window, max, b)
    requires MustEnd(window, max, b.open, at, Over(b.rx))
    ensures Sound(window, max, Flush(b, at))
  {
    assert Payload([]) == [];
    assert SoundBatch(window, max, b.open);
    var c := Flush(b, at);
    forall k | 0 <= k < |c.batches|
      ensures MustEnd(window, max, c.batches[k], c.ends[k], k == |c.batches| - 1 && Over(c.rx) && c.buf == [])
    {
      if k < |b.batches| {
        assert MustEnd(window, max, b.batches[k], b.ends[k], false);
      }
    }
  }

  /** Every turn keeps the buffer, the deadline and the returned batches in order. */
  lemma PollSound(window: Time, max: nat, b: Batcher, w: Wake)
    requires Sound(window, max, b) && max > 0
    ensures Sound(window, max, Poll(window, max, b, w).0)
  {
    var c := Poll(window, max, b, w).0;
    var item := Next(b.rx, w);
    if window == 0 {
      assert Payload([]) == [];
      if item.Some? && item.value.Data? {
        assert SoundBatch(window, max, [Received(item.value.bytes, w.at)]);
      }
    } else if b.buf != [] && b.deadline.value <= w.at {
      FlushSound(window, max, b, w.at);
      assert c == Flush(b, w.at);
    } else if item.Some? && item.value.Data? {
      TakeTurnSound(window, max, b, item.value.bytes, w.at);
    } else if item.Some? && item.value.Closed? && b.buf != [] {
      FlushSound(window, max, b, w.at);
      assert c == Flush(b, w.at);
    } else {
      QuietSound(window, max, b, c);
    }
  }

  lemma QuietSound(window: Time, max: nat, b: Batcher, c: Batcher)
    requires Sound(window, max, b) && c == b.(rx := c.rx) && (Over(b.rx) ==> c.rx == b.rx)
    ensures Sound(window, max, c)
  {
  }

  /** The next message joins the batch, which is returned at once if that fills it. */
  lemma TakeTurnSound(window: Time, max: nat, b: Batcher, bytes: Bytes, at: Time)
    requires window > 0 && max > 0 && Sound(window, max, b) && b.rx != [] && b.rx[0] == Data(bytes)
    requires b.buf != [] ==> at < b.deadline.value
    ensures var t := Take(b, bytes, at, window); Sound(window, max, if |t.buf| >= max then Flush(t, at) else t)
  {
    var t := Take(b, bytes, at, window);
    TakeSound(window, max, b, bytes, at);
    forall k | 0 <= k < |t.batches| ensures MustEnd(window, max, t.batches[k], t.ends[k], false) {
      assert MustEnd(window, max, b.batches[k], b.ends[k], false);
    }
    if |t.buf| >= max {
      FlushSound(window, max, t, at);
    }
  }

  /** When a call returns and when it goes on waiting, and what it takes from the channel. */
  lemma TurnExactly(window: Time, max: nat, b: Batcher, w: Wake)
    requires Sound(window, max, b) && max > 0
    ensures var (c, out) := Poll(window, max, b, w);
            var late := b.buf != [] && b.deadline.value <= w.at;
            var more := w.arrived && b.rx != [] && b.rx[0].Data? && !late;
            && (out.Chunk? <==> late || (more && (window == 0 || |b.buf + b.rx[0].bytes| >= max))
                                || (w.arrived && Over(b.rx) && b.buf != []))
            && (out == Ended <==> w.arrived && Over(b.rx) && b.buf == [])
            && c.rx == (if w.arrived && b.rx != [] && !Over(b.rx) && !late then b.rx[1..] else b.rx)
  {
    assert window == 0 ==> b.buf == Payload([]);
  }

  /** Exactly a returned chunk closes a batch, and it is that batch's bytes. */
  lemma PollReturns(window: Time, max: nat, b: Batcher, w: Wake)
    requires Sound(window, max, b) && max > 0
    ensures var (c, out) := Poll(window, max, b, w);
            if out.Chunk? then
              c.ends == b.ends + [w.at] && exists g :: c.batches == b.batches + [g] && out.bytes == Payload(g)
            else c.batches == b.batches && c.ends == b.ends
  {
    var (c, out) := Poll(window, max, b, w);
    if out.Chunk? {
      var g := c.batches[|b.batches|];
      if window == 0 {
        assert g == [Received(out.bytes, w.at)] && g[..0] == [];
        assert [] + out.bytes == out.bytes;
      } else if Next(b.rx, w).Some? && Next(b.rx, w).value.Data? && g != b.open {
        PayloadSnoc(b.open, Received(Next(b.rx, w).value.bytes, w.at));
      }
      assert c.batches == b.batches + [g];
    }
  }

  // --- Conservation ---

  /** Every message received so far, in the order of reception. */
  function Consumed(b: Batcher): seq<Received> { Flatten(b.batches) + b.open }

  lemma BodiesSnoc(messages: seq<Received>, r: Received)
    ensures Bodies(messages + [r]) == Bodies(messages) + [r.bytes]
  {
    assert (messages + [r])[..|messages|] == messages;
  }

  lemma FlattenSnoc(batches: seq<seq<Received>>, g: seq<Received>)
    ensures Flatten(batches + [g]) == Flatten(batches) + g
  {
    assert (batches + [g])[..|batches|] == batches;
  }

  /** All messages: those consumed and those still in the channel. */
  function Account(b: Batcher): seq<Bytes> { Bodies(Consumed(b)) + Coming(b.rx) }

  lemma FlushConserves(b: Batcher, at: Time)
    ensures Account(Flush(b, at)) == Account(b)
  {
    FlattenSnoc(b.batches, b.open);
    assert Consumed(Flush(b, at)) == Consumed(b);
  }

  lemma TakeConserves(b: Batcher, c: Batcher, r: Received)
    requires b.rx != [] && b.rx[0] == Data(r.bytes) && c.rx == b.rx[1..] && Consumed(c) == Consumed(b) + [r]
    ensures Account(c) == Account(b)
  {
    BodiesSnoc(Consumed(b), r);
    assert Coming(b.rx) == [r.bytes] + Coming(c.rx);
  }

  lemma RawConserves(max: nat, b: Batcher, w: Wake)
    requires b.open == []
    ensures Account(Poll(0, max, b, w).0) == Account(b)
  {
    var item := Next(b.rx, w);
    var c := Poll(0, max, b, w).0;
    if item.Some? && item.value.Data? {
      var r := Received(item.value.bytes, w.at);
      FlattenSnoc(b.batches, [r]);
      assert Consumed(c) == Flatten(b.batches) + [r] + [] == Consumed(b) + [r];
      TakeConserves(b, c, r);
    } else {
      assert Consumed(c) == Consumed(b) && Coming(c.rx) == Coming(b.rx);
    }
  }

  /** A turn moves at most one message from the channel to the end of what was consumed. */
  lemma PollConserves(window: Time, max: nat, b: Batcher, w: Wake)
    requires window == 0 ==> b.open == []
    ensures Account(Poll(window, max, b, w).0) == Account(b)
  {
    var item := Next(b.rx, w);
    var c := Poll(window, max, b, w).0;
    if window == 0 {
      RawConserves(max, b, w);
    } else if c == Flush(b, w.at) {
      FlushConserves(b, w.at);
    } else if item.Some? && item.value.Data? {
      var r := Received(item.value.bytes, w.at);
      var t := Take(b, r.bytes, r.at, window);
      assert Consumed(t) == Consumed(b) + [r];
      TakeConserves(b, t, r);
      FlushConserves(t, w.at);
    } else {
      assert Consumed(c) == Consumed(b) && Coming(c.rx) == Coming(b.rx);
    }
  }

  lemma PollEnds(window: Time, max: nat, b: Batcher, w: Wake)
    requires Sound(window, max, b) && Poll(window, max, b, w).1 == Ended
    ensures Poll(window, max, b, w).0 == b && b.buf == [] && Coming(b.rx) == []
  {
    assert window == 0 ==> b.buf == Payload([]);
  }

  /** Over any run nothing is lost, duplicated or reordered, every invariant holds
      throughout, and when the end is reported nothing is left over. */
  lemma {:induction false} RunConserves(window: Time, max: nat, b: Batcher, wakes: seq<Wake>)
    requires Sound(window, max, b) && max > 0
    ensures var c := PollAll(window, max, b, wakes).0;
            Sound(window, max, c) && Account(c) == Account(b)
    ensures PollAll(window, max, b, wakes).1 == Ended ==>
              var c := PollAll(window, max, b, wakes).0; c.buf == [] && Coming(c.rx) == []
    decreases |wakes|
  {
    if wakes != [] {
      var n := |wakes| - 1;
      RunConserves(window, max, b, wakes[..n]);
      var c := PollAll(window, max, b, wakes[..n]).0;
      PollSound(window, max, c, wakes[n]);
      PollConserves(window, max, c, wakes[n]);
      if Poll(window, max, c, wakes[n]).1 == Ended {
        PollEnds(window, max, c, wakes[n]);
      }
    }
  }

  /** A batch is never held back: while a call is still waiting, no wake-up has come at or
      after the deadline of the bytes it holds, and those bytes stay where they are. */
  lemma {:induction false} WaitsWithinWindow(window: Time, max: nat, b: Batcher, wakes: seq<Wake>)
    requires window > 0 && max > 0 && Sound(window, max, b) && b.buf != []
    requires PollAll(window, max, b, wakes).1 == Pending
    ensures forall k :: 0 <= k < |wakes| ==> wakes[k].at < b.deadline.value
    ensures var c := PollAll(window, max, b, wakes).0;
            c.batches == b.batches && b.open <= c.open && b.buf <= c.buf && c.deadline == b.deadline
    decreases |wakes|
  {
    if wakes != [] {
      var n := |wakes| - 1;
      WaitsWithinWindow(window, max, b, wakes[..n]);
      assert forall k :: 0 <= k < n ==> wakes[..n][k] == wakes[k];
    }
  }

  /** The clock of a nonempty batch was started by its first message that was not empty, and
      everything behind it came before the clock ran out. */
  lemma DeadlineIsFirst(window: Time, max: nat, b: Batcher) returns (n: nat)
    requires Sound(window, max, b) && b.buf != []
    ensures n < |b.open| && b.open[n].bytes != [] && b.deadline == Some(b.open[n].at + window)
    ensures forall k :: 0 <= k < n ==> b.open[k].bytes == []
    ensures forall k :: n < k < |b.open| ==> b.open[k].at < b.deadline.value
  {
    n := Leading(b.open);
    LeadingMeans(b.open);
  }

  // --- Nothing stays behind ---

  /** What wake-ups make of the buffer when the caller asks again after every chunk. */
  function PollOn(window: Time, max: nat, b: Batcher, wakes: seq<Wake>): Batcher
    decreases |wakes|
  {
    if wakes == [] then b else PollOn(window, max, Poll(window, max, b, wakes[0]).0, wakes[1..])
  }

  /** How many items stand before the close. */
  function Ahead(rx: seq<Item>): nat { if rx == [] || Over(rx) then 0 else 1 + Ahead(rx[1..]) }

  function WakesLeft(b: Batcher): nat { 2 * Ahead(b.rx) + (if b.buf == [] then 0 else 1) }

  lemma {:induction false} ClosedStays(rx: seq<Item>)
    requires Closed in rx
    ensures !Over(rx) ==> rx != [] && Closed in rx[1..] && Ahead(rx) == 1 + Ahead(rx[1..])
    ensures Over(rx) <==> Ahead(rx) == 0
  {
    if !Over(rx) {
      var i :| 0 <= i < |rx| && rx[i] == Closed;
      assert rx[1..][i - 1] == Closed;
    }
  }

  lemma TurnAdvances(window: Time, max: nat, b: Batcher, w: Wake)
    requires Sound(window, max, b) && max > 0 && Closed in b.rx && w.arrived
    ensures var c := Poll(window, max, b, w).0;
            Closed in c.rx && if WakesLeft(b) == 0 then c == b else WakesLeft(c) < WakesLeft(b)
  {
    ClosedStays(b.rx);
    TurnExactly(window, max, b, w);
    var c := Poll(window, max, b, w).0;
    if c.rx == b.rx {
      assert WakesLeft(b) > 0 ==> c.buf == [];
    }
  }

  /** Of a channel that closes, everything is returned after two wake-ups with an arrival for
      every item, and one more; and then the end is reported. */
  lemma {:induction false} EverythingReturned(window: Time, max: nat, b: Batcher, wakes: seq<Wake>)
    requires Sound(window, max, b) && max > 0 && Closed in b.rx
    requires forall k :: 0 <= k < |wakes| ==> wakes[k].arrived
    requires |wakes| >= WakesLeft(b)
    ensures var c := PollOn(window, max, b, wakes);
            && c.buf == [] && Payload(c.open) == [] && Bodies(Flatten(c.batches) + c.open) == Account(b)
            && forall w: Wake :: w.arrived ==> Poll(window, max, c, w) == (c, Ended)
    decreases |wakes|
  {
    if wakes == [] {
      NothingLeft(window, max, b);
    } else {
      var c := Poll(window, max, b, wakes[0]).0;
      TurnAdvances(window, max, b, wakes[0]);
      PollSound(window, max, b, wakes[0]);
      PollConserves(window, max, b, wakes[0]);
      EverythingReturned(window, max, c, wakes[1..]);
    }
  }

  lemma NothingLeft(window: Time, max: nat, b: Batcher)
    requires Sound(window, max, b) && max > 0 && Closed in b.rx && WakesLeft(b) == 0
    ensures b.buf == [] && Payload(b.open) == [] && Bodies(Flatten(b.batches) + b.open) == Account(b)
    ensures forall w: Wake :: w.arrived ==> Poll(window, max, b, w) == (b, Ended)
  {
    ClosedStays(b.rx);
    assert Account(b) == Bodies(Consumed(b)) + [];
  }
}
