/** The bounded receive queue of a radio backend: at most four sample buffers;
    when it is full, the oldest buffer is discarded to make room for the new one
    and its samples are counted as dropped. Written once, as a pure step, and
    used by the backend's transfer handler. */
module StreamQueue {

  /** `MAX_QUEUE_SIZE`. */
  const MaxQueueSize: nat := 4

  /** The part of a `SignalBuffer` the backend reads: `elements()`, counted as
      dropped when the buffer is discarded, and `limit()`, returned by a read. */
  datatype SignalBuffer = SignalBuffer(elements: nat, limit: nat)

  /** The samples held by a run of buffers. */
  function SumElements(buffers: seq<SignalBuffer>): nat
  {
    if buffers == [] then 0 else buffers[0].elements + SumElements(buffers[1..])
  }

  lemma {:induction false} SumElementsConcat(a: seq<SignalBuffer>, b: seq<SignalBuffer>)
    ensures SumElements(a + b) == SumElements(a) + SumElements(b)
  {
    if a == [] {
      assert a + b == b;
    } else {
      assert (a + b)[0] == a[0];
      assert (a + b)[1..] == a[1..] + b;
      SumElementsConcat(a[1..], b);
    }
  }

  /** The queue after one buffer is offered: how many buffers were evicted and
      how many samples they held. */
  datatype Offered = Offered(queue: seq<SignalBuffer>, evicted: nat, dropped: nat)

  /** One delivery into the queue: evict the oldest buffer when the queue holds
      `MaxQueueSize` or more, then push the new one at the back. Nothing but the
      oldest buffers leaves, the order is kept, and the lost samples are counted. */
  function Offer(queue: seq<SignalBuffer>, buffer: SignalBuffer): (r: Offered)
    ensures |queue| <= MaxQueueSize ==> |r.queue| <= MaxQueueSize
    ensures r.evicted == (if |queue| >= MaxQueueSize then 1 else 0)
    ensures r.evicted <= |queue|
    ensures r.queue == (queue + [buffer])[r.evicted..]
    ensures r.dropped == SumElements(queue[..r.evicted])
  {
    if |queue| >= MaxQueueSize then Offered(queue[1..] + [buffer], 1, queue[0].elements)
    else Offered(queue + [buffer], 0, 0)
  }

  /** Several deliveries in a row, with no reader in between. */
  function OfferAll(queue: seq<SignalBuffer>, buffers: seq<SignalBuffer>): Offered
    decreases |buffers|
  {
    if buffers == [] then Offered(queue, 0, 0)
    else
      var first := Offer(queue, buffers[0]);
      var rest := OfferAll(first.queue, buffers[1..]);
      Offered(rest.queue, first.evicted + rest.evicted, first.dropped + rest.dropped)
  }

  /** How many buffers a queue of `n` would have to shed to fit. */
  function Excess(n: nat): nat
  {
    if n > MaxQueueSize then n - MaxQueueSize else 0
  }

  /** After any run of deliveries into a queue that fits, the queue holds exactly
      the newest `MaxQueueSize` buffers in arrival order; every older buffer was
      evicted once, and the dropped count is the sum of their samples. */
  lemma {:induction false} OfferAllKeepsNewest(queue: seq<SignalBuffer>, buffers: seq<SignalBuffer>)
    requires |queue| <= MaxQueueSize
    ensures var all := queue + buffers;
      var r := OfferAll(queue, buffers);
      && r.evicted == Excess(|all|)
      && r.queue == all[Excess(|all|)..]
      && r.dropped == SumElements(all[..Excess(|all|)])
    decreases |buffers|
  {
    var all := queue + buffers;
    if buffers == [] {
      assert all == queue;
    } else {
      var first := Offer(queue, buffers[0]);
      var tail := buffers[1..];
      var rest := OfferAll(first.queue, tail);
      assert OfferAll(queue, buffers) ==
        Offered(rest.queue, first.evicted + rest.evicted, first.dropped + rest.dropped);
      OfferAllKeepsNewest(first.queue, tail);
      var e0 := first.evicted;
      var all' := first.queue + tail;
      var e1 := Excess(|all'|);
      AfterFirstOffer(queue, buffers, e0, e1);
      assert all' == all[e0..];
      SliceOfSuffix(all, e0, e1);
      assert rest.queue == all[e0 + e1..];
      assert rest.dropped == SumElements(all[e0..e0 + e1]);
      assert first.dropped == SumElements(all[..e0]);
      SumElementsConcat(all[..e0], all[e0..e0 + e1]);
    }
  }

  lemma SliceOfSuffix(s: seq<SignalBuffer>, a: nat, b: nat)
    requires a + b <= |s|
    ensures s[a..][..b] == s[a..a + b]
    ensures s[a..][b..] == s[a + b..]
    ensures s[..a + b] == s[..a] + s[a..a + b]
  {
  }

  /** The bookkeeping of one step of OfferAllKeepsNewest: the first delivery
      evicts `e0` buffers and the rest evict `e1`; together they shed the
      excess of the whole run. */
  lemma AfterFirstOffer(queue: seq<SignalBuffer>, buffers: seq<SignalBuffer>, e0: nat, e1: nat)
    requires |queue| <= MaxQueueSize && buffers != []
    requires e0 == Offer(queue, buffers[0]).evicted
    requires e1 == Excess(|Offer(queue, buffers[0]).queue| + |buffers| - 1)
    ensures e0 + e1 == Excess(|queue| + |buffers|)
    ensures Offer(queue, buffers[0]).queue + buffers[1..] == (queue + buffers)[e0..]
    ensures queue[..e0] == (queue + buffers)[..e0]
  {
    var all := queue + buffers;
    var q1 := Offer(queue, buffers[0]).queue;
    assert q1 == (queue + [buffers[0]])[e0..];
    assert queue + buffers == (queue + [buffers[0]]) + buffers[1..];
  }

  /** Delivering K buffers into an empty queue with no reader evicts K - 4 of
      them when K exceeds the capacity, and the dropped samples are exactly the
      samples of the K - 4 oldest. */
  lemma OverflowFromEmpty(buffers: seq<SignalBuffer>)
    requires |buffers| > MaxQueueSize
    ensures var r := OfferAll([], buffers);
      && r.evicted == |buffers| - MaxQueueSize
      && r.queue == buffers[|buffers| - MaxQueueSize..]
      && r.dropped == SumElements(buffers[..|buffers| - MaxQueueSize])
  {
    var empty: seq<SignalBuffer> := [];
    OfferAllKeepsNewest(empty, buffers);
    assert empty + buffers == buffers;
    assert Excess(|buffers|) == |buffers| - MaxQueueSize;
  }
}
