/** What a forwarder and its loop can do by themselves to bring writes to the socket. */
module StdinProgress {
  import opened Common
  import opened StdinFlow
  import opened StdinDelivery

  /** Forwarder f has not broken, and loop l serves its queue with nothing in hand. */
  predicate Serving(x: Flow, f: nat, l: nat) {
    && f < |x.forwarders| && !x.forwarders[f].pc.Stopped?
    && x.forwarders[f].owner < |x.stdins| && x.stdins[x.forwarders[f].owner].open
    && l < |x.channels| && x.channels[l].open && !x.channels[l].broken && x.channels[l].hand.None?
  }

  lemma ServingFollows(x: Flow, f: nat, l: nat)
    requires Delivery(x) && f < |x.forwarders| && !x.forwarders[f].pc.Stopped?
    requires l < |x.channels| && x.channels[l].open && !x.channels[l].broken && x.channels[l].hand.None?
    ensures Serving(x, f, l)
  {
  }

  function Source(x: Flow, f: nat): Stdin
    requires f < |x.forwarders| && x.forwarders[f].owner < |x.stdins|
  {
    x.stdins[x.forwarders[f].owner]
  }

  /** What is left to do. */
  function Outstanding(x: Flow, f: nat, l: nat): nat
    requires Serving(x, f, l)
  {
    |x.channels[l].queue| + (if x.forwarders[f].pc.Holding? then 2 else 0) + 3 * |Source(x, f).queue|
  }

  /** Less is left to do, nothing new was written, and all that was handed over went to l. */
  ghost predicate Closer(x: Flow, y: Flow, f: nat, l: nat) {
    && Serving(x, f, l) && Serving(y, f, l) && Outstanding(y, f, l) < Outstanding(x, f, l)
    && y.forwarders[f].owner == x.forwarders[f].owner && y.forwarders[f].host == x.forwarders[f].host
    && Source(y, f).writes == Source(x, f).writes && RestTo(Source(x, f).handed, Source(y, f).handed, l)
  }

  lemma ReadsOne(x: Flow, f: nat, l: nat)
    requires Serving(x, f, l) && x.forwarders[f].pc.Receiving? && Source(x, f).queue != []
    ensures Closer(x, FlowStep(x, ForwarderReads(f)), f, l)
  {
  }

  lemma HandsOne(x: Flow, f: nat, l: nat, sid: SessionId)
    requires Serving(x, f, l) && x.forwarders[f].pc.Holding? && x.channels[l].queue == []
    ensures Closer(x, FlowStep(x, HandOver(f, Some(l), sid)), f, l)
  {
  }

  lemma SendsOne(x: Flow, f: nat, l: nat)
    requires Serving(x, f, l) && x.channels[l].queue != []
    ensures Closer(x, FlowStep(FlowStep(x, Dequeue(l)), SocketTakes(l, true)), f, l)
  {
  }

  lemma CloserStill(x: Flow, y: Flow, z: Flow, f: nat, l: nat)
    requires (x == y && Serving(x, f, l)) || Closer(x, y, f, l)
    requires Closer(y, z, f, l)
    ensures Closer(x, z, f, l)
  {
  }
}
