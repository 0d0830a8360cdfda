/** The MQTT output forwarder of one session, on top of the batching buffer. */
module MqttForwarder {
  import opened Common
  import opened Text
  import opened Utf8
  import opened Coalescer
  import opened Scrollback

  datatype Stop = Exited | ChannelEnded | PublishFailed | Waiting

  predicate EndsWith(s: Bytes, suffix: Bytes) {
    |suffix| <= |s| && s[|s| - |suffix|..] == suffix
  }

  /** The broker client took each of the first n publishes. */
  ghost predicate AllTaken(accepts: nat -> bool, n: nat) { forall k :: 0 <= k < n ==> accepts(k) }

  lemma EndsWithMeans(s: Bytes, suffix: Bytes)
    ensures EndsWith(s, suffix) <==> exists front :: s == front + suffix
  {
    if EndsWith(s, suffix) {
      assert s == s[..|s| - |suffix|] + suffix;
    }
  }

  function Payloads(batches: seq<seq<Received>>): (r: seq<Bytes>)
    ensures |r| == |batches| && forall k :: 0 <= k < |r| ==> r[k] == Payload(batches[k])
  {
    seq(|batches|, k requires 0 <= k < |batches| => Payload(batches[k]))
  }

  ghost predicate SentinelFree(batches: seq<seq<Received>>) {
    forall k :: 0 <= k < |batches| ==> !EndsWith(Payload(batches[k]), PTY_EXIT_SENTINEL)
  }

  lemma SentinelFreeSnoc(batches: seq<seq<Received>>, g: seq<Received>)
    ensures SentinelFree(batches + [g]) <==> SentinelFree(batches) && !EndsWith(Payload(g), PTY_EXIT_SENTINEL)
    ensures Payloads(batches + [g]) == Payloads(batches) + [Payload(g)]
    ensures (batches + [g])[..|batches|] == batches
  {
    var all := batches + [g];
    assert all[|batches|] == g;
    assert forall k :: 0 <= k < |batches| ==> all[k] == batches[k];
  }

  /** What the task has done when it stops: it published all finished batches in order, but for
      the last one if that ended in the sentinel or was refused, and it says which. */
  ghost predicate Reported(window: Time, max: nat, b: Batcher, published: seq<Bytes>, stop: Stop,
      accepts: nat -> bool)
  {
    && Concat(published) <= Concat(Account(b))
    && |published| <= |b.batches| <= |published| + 1
    && published == Payloads(b.batches[..|published|]) && SentinelFree(b.batches[..|published|])
    && (stop == Exited <==> |b.batches| > |published| && !SentinelFree(b.batches))
    && (stop == PublishFailed <==> |b.batches| > |published| && SentinelFree(b.batches))
    && AllTaken(accepts, |published|) && (stop == PublishFailed ==> !accepts(|published|))
    && (stop == Exited ==> BoundedLoss(window, max, b, Concat(published)))
  }

  /** The spawned task: publish chunk after chunk until one ends in the sentinel.
      `accepts(k)` says whether the broker client takes the k-th publish. */
  method Forward(output: BufferedOutput, wakes: seq<Wake>, accepts: nat -> bool)
      returns (published: seq<Bytes>, stop: Stop, used: nat)
    requires output.Valid() && output.batches == []
    modifies output
    ensures output.Valid() && Account(output.Model()) == old(Account(output.Model()))
    ensures Reported(output.window, output.maxBytes, output.Model(), published, stop, accepts)
    ensures used <= |wakes| && output.seen == old(output.seen) + wakes[..used] && (stop == Waiting ==> used == |wakes|)
    ensures stop == ChannelEnded ==> output.buf == [] && Over(output.rx) && Coming(output.rx) == []
  {
    published, used := [], 0;
    ghost var was := output.seen;
    while true
      invariant used <= |wakes| && output.seen == was + wakes[..used]
      invariant output.Valid() && Account(output.Model()) == old(Account(output.Model()))
      invariant published == Payloads(output.batches) && SentinelFree(output.batches)
      invariant AllTaken(accepts, |published|)
      decreases |wakes| - used
    {
      ghost var before := output.batches;
      var out, next := RecvFrom(output, wakes, used);
      SliceMore(was, wakes, used, next);
      used := next;
      if !out.Chunk? {
        stop := if out.Pending? then Waiting else ChannelEnded;
        AllPublished(output.window, output.maxBytes, output.Model(), published, stop, accepts);
        return;
      }
      ghost var g :| output.batches == before + [g] && out.bytes == Payload(g);
      OneMore(output.window, output.maxBytes, output.Model(), before, g, published, accepts);
      if EndsWith(out.bytes, PTY_EXIT_SENTINEL) {
        return published, Exited, used;
      }
      if !accepts(|published|) {
        return published, PublishFailed, used;
      }
      TakenMore(accepts, |published|);
      published := published + [out.bytes];
    }
  }

  lemma TakenMore(accepts: nat -> bool, n: nat)
    requires AllTaken(accepts, n) && accepts(n)
    ensures AllTaken(accepts, n + 1)
  {
  }

  lemma SliceMore<T>(was: seq<T>, s: seq<T>, i: nat, j: nat)
    requires i <= j <= |s|
    ensures was + s[..i] + s[i..j] == was + s[..j]
  {
    assert s[..i] + s[i..j] == s[..j];
  }

  /** `recv`, on the wake-ups that are left. */
  method RecvFrom(output: BufferedOutput, wakes: seq<Wake>, next: nat) returns (out: Outcome, end: nat)
    requires output.Valid() && next <= |wakes|
    modifies output
    ensures output.Valid() && Account(output.Model()) == old(Account(output.Model()))
    ensures next <= end <= |wakes| && output.seen == old(output.seen) + wakes[next..end]
    ensures out == Pending ==> end == |wakes|
    ensures out.Chunk? ==>
              end > next && exists g :: output.batches == old(output.batches) + [g] && out.bytes == Payload(g)
    ensures !out.Chunk? ==> output.batches == old(output.batches)
    ensures out == Ended ==> output.buf == [] && Over(output.rx) && Coming(output.rx) == []
  {
    var used;
    out, used := output.Recv(wakes[next..]);
    end := next + used;
    assert wakes[next..][..used] == wakes[next..end];
  }

  lemma AllPublished(window: Time, max: nat, b: Batcher, published: seq<Bytes>, stop: Stop, accepts: nat -> bool)
    requires published == Payloads(b.batches) && SentinelFree(b.batches) && AllTaken(accepts, |published|)
    requires stop == Waiting || stop == ChannelEnded
    ensures Reported(window, max, b, published, stop, accepts)
  {
    assert b.batches[..|published|] == b.batches;
    PublishedIsPrefix(b, |published|);
  }

  /** A new batch behind those that were published. */
  lemma OneMore(window: Time, max: nat, b: Batcher, before: seq<seq<Received>>, g: seq<Received>, published: seq<Bytes>,
      accepts: nat -> bool)
    requires Sound(window, max, b) && b.batches == before + [g] && published == Payloads(before) && SentinelFree(before)
    requires AllTaken(accepts, |published|)
    ensures SentinelFree(b.batches) <==> !EndsWith(Payload(g), PTY_EXIT_SENTINEL)
    ensures Payloads(b.batches) == published + [Payload(g)]
    ensures !SentinelFree(b.batches) ==> Reported(window, max, b, published, Exited, accepts)
    ensures SentinelFree(b.batches) && !accepts(|published|) ==>
              Reported(window, max, b, published, PublishFailed, accepts)
  {
    SentinelFreeSnoc(before, g);
    PublishedIsPrefix(b, |published|);
    assert b.batches[..|published|] == before;
    if !SentinelFree(b.batches) {
      ExitBounded(window, max, b, published);
    }
  }

  lemma {:induction false} PayloadIsConcat(messages: seq<Received>)
    ensures Payload(messages) == Concat(Bodies(messages))
    decreases |messages|
  {
    if messages != [] {
      var n := |messages| - 1;
      PayloadIsConcat(messages[..n]);
      ConcatSnoc(Bodies(messages[..n]), messages[n].bytes);
    }
  }

  lemma {:induction false} BodiesAppend(a: seq<Received>, b: seq<Received>)
    ensures Bodies(a + b) == Bodies(a) + Bodies(b)
    ensures |Bodies(b)| == |b|
    decreases |b|
  {
    if b == [] {
      assert a + b == a;
    } else {
      assert (a + b)[..|a + b| - 1] == a + b[..|b| - 1];
      BodiesAppend(a, b[..|b| - 1]);
    }
  }

  lemma {:induction false} PublishedIsFlat(batches: seq<seq<Received>>)
    ensures Concat(Payloads(batches)) == Concat(Bodies(Flatten(batches)))
    decreases |batches|
  {
    if batches != [] {
      var n := |batches| - 1;
      PublishedIsFlat(batches[..n]);
      assert Payloads(batches) == Payloads(batches[..n]) + [Payload(batches[n])];
      ConcatSnoc(Payloads(batches[..n]), Payload(batches[n]));
      PayloadIsConcat(batches[n]);
      BodiesAppend(Flatten(batches[..n]), batches[n]);
      ConcatAppend(Bodies(Flatten(batches[..n])), Bodies(batches[n]));
    }
  }

  lemma AccountUpTo(b: Batcher, n: nat) returns (rest: seq<Bytes>)
    requires n <= |b.batches|
    ensures Account(b) == Bodies(Flatten(b.batches[..n])) + rest
  {
    if n == 0 {
      rest := Account(b);
      assert Bodies(Flatten(b.batches[..0])) == [];
    } else {
      rest := AccountFrom(b, n);
      BodiesAppend(Flatten(b.batches[..n - 1]), b.batches[n - 1]);
      assert b.batches[..n][..n - 1] == b.batches[..n - 1];
    }
  }

  /** Whatever batches were published, their bytes are a prefix of all output. */
  lemma PublishedIsPrefix(b: Batcher, n: nat)
    requires n <= |b.batches|
    ensures Concat(Payloads(b.batches[..n])) <= Concat(Account(b))
  {
    var rest := AccountUpTo(b, n);
    PublishedIsFlat(b.batches[..n]);
    ConcatAppend(Bodies(Flatten(b.batches[..n])), rest);
  }

  /** A batch whose last message is the sentinel ends in the sentinel. */
  lemma EndsInLast(g: seq<Received>)
    requires g != [] && g[|g| - 1].bytes == PTY_EXIT_SENTINEL
    ensures EndsWith(Payload(g), PTY_EXIT_SENTINEL)
  {
  }

  ghost predicate OnlySentinels(messages: seq<Bytes>) {
    forall k :: 0 <= k < |messages| ==> messages[k] == PTY_EXIT_SENTINEL
  }

  /** What the channel delivers: ordinary output, then sentinels; and no batch made of
      ordinary output alone happens to end in the sentinel bytes. */
  ghost predicate CleanExit(b: Batcher, ordinary: seq<Bytes>, sentinels: seq<Bytes>) {
    && Account(b) == ordinary + sentinels && OnlySentinels(sentinels)
    && (forall k :: 0 <= k < |b.batches| && |Flatten(b.batches[..k + 1])| <= |ordinary| ==>
          !EndsWith(Payload(b.batches[k]), PTY_EXIT_SENTINEL))
  }

  /** A nonempty batch wholly behind the ordinary output ends in the sentinel. */
  lemma LateBatchEnds(front: seq<Bytes>, g: seq<Received>, rest: seq<Bytes>, ordinary: seq<Bytes>,
      sentinels: seq<Bytes>)
    requires front + Bodies(g) + rest == ordinary + sentinels && OnlySentinels(sentinels)
    requires g != [] && |front| + |g| > |ordinary|
    ensures EndsWith(Payload(g), PTY_EXIT_SENTINEL)
  {
    BodiesAppend([], g);
    var k := |front| + |g| - 1;
    assert (front + Bodies(g) + rest)[k] == Bodies(g)[|g| - 1] == g[|g| - 1].bytes;
    assert (ordinary + sentinels)[k] == sentinels[k - |ordinary|];
    EndsInLast(g);
  }

  /** When the forwarder exits it has published a prefix of the ordinary output and
      withholds fewer than `max` bytes of it, none at all without a window. */
  lemma ExitLoss(window: Time, max: nat, b: Batcher, ordinary: seq<Bytes>, sentinels: seq<Bytes>)
    requires Sound(window, max, b) && CleanExit(b, ordinary, sentinels)
    requires b.batches != []
    requires var n := |b.batches| - 1; SentinelFree(b.batches[..n]) && !SentinelFree(b.batches)
    ensures LossWithin(window, max, Concat(ordinary), Concat(Payloads(b.batches[..|b.batches| - 1])))
  {
    var n := |b.batches| - 1;
    var g := b.batches[n];
    var front := Flatten(b.batches[..n]);
    var rest := AccountFrom(b, n + 1);
    PublishedIsFlat(b.batches[..n]);
    FrontIsOrdinary(window, max, b, ordinary, sentinels);
    assert |Flatten(b.batches)| == |front| + |g|;
    assert SoundBatch(window, max, g);
    SplitOrdinary(front, g, rest, ordinary, sentinels);
  }

  predicate LossWithin(window: Time, max: nat, all: Bytes, out: Bytes) {
    && out <= all
    && (window > 0 ==> |all| - |out| < max)
    && (window == 0 ==> out == all)
  }

  /** However the messages part into ordinary output and sentinels, the bytes published are a
      prefix of the ordinary output that is short of it by less than the limit. */
  ghost predicate BoundedLoss(window: Time, max: nat, b: Batcher, out: Bytes) {
    forall ordinary, sentinels :: CleanExit(b, ordinary, sentinels) ==> LossWithin(window, max, Concat(ordinary), out)
  }

  lemma ExitBounded(window: Time, max: nat, b: Batcher, published: seq<Bytes>)
    requires Sound(window, max, b) && b.batches != [] && !SentinelFree(b.batches)
    requires var front := b.batches[..|b.batches| - 1]; SentinelFree(front) && published == Payloads(front)
    ensures BoundedLoss(window, max, b, Concat(published))
  {
    forall ordinary, sentinels | CleanExit(b, ordinary, sentinels)
      ensures LossWithin(window, max, Concat(ordinary), Concat(published))
    {
      ExitLoss(window, max, b, ordinary, sentinels);
    }
  }

  /** The ordinary messages are those of the published batches and some of the last
      batch, but never the last message of that batch. */
  lemma SplitOrdinary(front: seq<Received>, g: seq<Received>, rest: seq<Bytes>, ordinary: seq<Bytes>,
      sentinels: seq<Bytes>)
    requires Bodies(front) + Bodies(g) + rest == ordinary + sentinels
    requires |front| <= |ordinary| < |front| + |g|
    ensures Concat(Bodies(front)) <= Concat(ordinary)
    ensures |Concat(ordinary)| - |Concat(Bodies(front))| <= |Payload(g[..|g| - 1])|
    ensures |g| == 1 ==> ordinary == Bodies(front)
  {
    var tail := ordinary[|front|..];
    var kept := g[..|g| - 1];
    BodiesAppend([], front);
    BodiesAppend([], kept);
    assert Bodies(g) == Bodies(kept) + [g[|g| - 1].bytes];
    SamePrefix(Bodies(front), Bodies(g) + rest, ordinary, sentinels);
    assert Bodies(front) + Bodies(g) + rest == Bodies(front) + (Bodies(g) + rest);
    assert tail <= Bodies(kept);
    ConcatAppend(Bodies(front), tail);
    ConcatPrefix(tail, Bodies(kept));
    PayloadIsConcat(kept);
  }

  lemma SamePrefix<T>(a: seq<T>, b: seq<T>, c: seq<T>, d: seq<T>)
    requires a + b == c + d && |a| <= |c| <= |a| + |b|
    ensures c == a + c[|a|..] && c[|a|..] <= b
  {
    assert (a + b)[..|c|] == a + b[..|c| - |a|];
    assert (c + d)[..|c|] == c;
    assert c[|a|..] == b[..|c| - |a|];
  }

  lemma ConcatPrefix(a: seq<Bytes>, b: seq<Bytes>)
    requires a <= b
    ensures Concat(a) <= Concat(b)
  {
    ConcatAppend(a, b[|a|..]);
    assert a + b[|a|..] == b;
  }

  lemma LastEnds(batches: seq<seq<Received>>)
    requires batches != [] && SentinelFree(batches[..|batches| - 1]) && !SentinelFree(batches)
    ensures EndsWith(Payload(batches[|batches| - 1]), PTY_EXIT_SENTINEL)
  {
    var n := |batches| - 1;
    SentinelFreeSnoc(batches[..n], batches[n]);
    assert batches[..n] + [batches[n]] == batches;
  }

  /** The last batch ends in the sentinel, so it is not made of ordinary output alone. */
  lemma LastReachesPast(b: Batcher, ordinary: seq<Bytes>, sentinels: seq<Bytes>)
    requires CleanExit(b, ordinary, sentinels) && b.batches != []
    requires SentinelFree(b.batches[..|b.batches| - 1]) && !SentinelFree(b.batches)
    ensures |ordinary| < |Flatten(b.batches)|
  {
    var n := |b.batches| - 1;
    LastEnds(b.batches);
    assert b.batches[..n + 1] == b.batches;
  }

  /** The published batches hold ordinary output only, and the last one reaches past it. */
  lemma FrontIsOrdinary(window: Time, max: nat, b: Batcher, ordinary: seq<Bytes>, sentinels: seq<Bytes>)
    requires Sound(window, max, b) && CleanExit(b, ordinary, sentinels) && b.batches != []
    requires var n := |b.batches| - 1; SentinelFree(b.batches[..n]) && !SentinelFree(b.batches)
    ensures |Flatten(b.batches[..|b.batches| - 1])| <= |ordinary| < |Flatten(b.batches)|
  {
    var n := |b.batches| - 1;
    LastReachesPast(b, ordinary, sentinels);
    if n > 0 {
      assert SoundBatch(window, max, b.batches[n - 1]);
      assert b.batches[..n][n - 1] == b.batches[n - 1];
      FrontShort(b, n, ordinary, sentinels);
    }
  }

  lemma FrontShort(b: Batcher, n: nat, ordinary: seq<Bytes>, sentinels: seq<Bytes>)
    requires 0 < n < |b.batches| && b.batches[n - 1] != []
    requires Account(b) == ordinary + sentinels && OnlySentinels(sentinels)
    requires !EndsWith(Payload(b.batches[..n][n - 1]), PTY_EXIT_SENTINEL)
    ensures |Flatten(b.batches[..n])| <= |ordinary|
  {
    var g, front := b.batches[n - 1], Flatten(b.batches[..n - 1]);
    assert b.batches[..n][..n - 1] == b.batches[..n - 1];
    BodiesAppend([], front);
    var rest := AccountFrom(b, n);
    if |front| + |g| > |ordinary| {
      LateBatchEnds(Bodies(front), g, rest, ordinary, sentinels);
      assert false;
    }
  }

  /** The messages up to batch n - 1, and the rest. */
  lemma {:induction false} AccountFrom(b: Batcher, n: nat) returns (rest: seq<Bytes>)
    requires 0 < n <= |b.batches|
    ensures Account(b) == Bodies(Flatten(b.batches[..n - 1])) + Bodies(b.batches[n - 1]) + rest
    decreases |b.batches| - n
  {
    var before, last := Bodies(Flatten(b.batches[..n - 1])), Bodies(b.batches[n - 1]);
    assert b.batches[..n][..n - 1] == b.batches[..n - 1];
    BodiesAppend(Flatten(b.batches[..n - 1]), b.batches[n - 1]);
    assert Bodies(Flatten(b.batches[..n])) == before + last;
    if n == |b.batches| {
      assert b.batches[..n] == b.batches;
      BodiesAppend(Flatten(b.batches), b.open);
      rest := Bodies(b.open) + Coming(b.rx);
      Regroup(before + last, Bodies(b.open), Coming(b.rx));
    } else {
      var more := AccountFrom(b, n + 1);
      rest := Bodies(b.batches[n]) + more;
      Regroup(before + last, Bodies(b.batches[n]), more);
    }
  }
}
