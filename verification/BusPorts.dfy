/** Around the bus: the real queues behind its registers and the skid buffers at its ports. */
module BusPorts {
  import opened Streams
  import opened Stages
  import opened BusParts
  import Queues

  // ----- a lane with the single-clock queue behind its register -----

  datatype QueueLane<T> = QueueLane(reg: Option<T>, queue: Queues.Queue<T>)

  /** A queue in reset: only the output data moves. */
  function HeldInReset<T>(q: Queues.Queue<T>, txReady: bool): Queues.Queue<T> {
    Queues.ResetQueue(q.memory, q.data, if txReady then q.data else q.out)
  }

  ghost predicate InReset<T>(q: Queues.Queue<T>) {
    q == Queues.ResetQueue(q.memory, q.data, q.out)
  }

  predicate LaneShape<T>(l: QueueLane<T>) {
    Queues.WellFormed(l.queue)
  }

  /** Every queue leaves reset by its own synchronizer, two clocks after the registers. */
  ghost predicate LaneInv<T>(l: QueueLane<T>, released: bool) {
    Queues.Inv(l.queue) && (!released ==> InReset(l.queue))
  }

  function Abstract<T>(l: QueueLane<T>): Lane<T>
    requires LaneShape(l)
  {
    Lane(l.reg, Queues.Held(l.queue))
  }

  /** What the queue shows to the mux. */
  function Head<T>(l: QueueLane<T>): Option<T> {
    if l.queue.valid then Some(l.queue.out) else None
  }

  /** The ready signal the mux shows to a queue. */
  predicate TakenOrIdle<T>(l: QueueLane<T>, taken: bool) {
    !l.queue.valid || taken
  }

  /** The data signal of a register without a word is of no account. */
  function QueueLaneNext<T>(l: QueueLane<T>, released: bool, load: Option<T>, txReady: bool): (l': QueueLane<T>)
    requires LaneShape(l)
    ensures LaneShape(l')
  {
    QueueLane(
      if l.queue.ready then load else l.reg,
      if released then
        Queues.QueueNext(l.queue, l.reg.Some?, if l.reg.Some? then l.reg.value else l.queue.out, txReady)
      else HeldInReset(l.queue, txReady))
  }

  lemma HeadIsShown<T>(l: QueueLane<T>)
    requires LaneShape(l)
    ensures Head(l) == Shown(Abstract(l), l.queue.valid)
  {
  }

  lemma RunningLane<T>(l: QueueLane<T>, load: Option<T>, txReady: bool)
    requires Queues.Inv(l.queue)
    ensures var l' := QueueLaneNext(l, true, load, txReady);
            && Queues.Inv(l'.queue)
            && Abstract(l') == LaneNext(Abstract(l), l.queue.ready, load, l.queue.valid && txReady)
  {
    var data := if l.reg.Some? then l.reg.value else l.queue.out;
    Queues.StepInv(l.queue, l.reg.Some?, data, txReady);
    QueueServesLane(l.queue, l.reg.Some?, data, txReady);
  }

  lemma HeldLane<T>(l: QueueLane<T>, load: Option<T>, txReady: bool)
    requires LaneShape(l) && InReset(l.queue)
    ensures var l' := QueueLaneNext(l, false, load, txReady);
            && InReset(l'.queue) && Queues.Inv(l'.queue)
            && Abstract(l') == LaneNext(Abstract(l), l.queue.ready, load, l.queue.valid && txReady)
  {
    Queues.ResetInv(l.queue.memory, l.queue.data, if txReady then l.queue.data else l.queue.out);
  }

  /** The register and its queue, in reset or out of it, make the step of an abstract lane whose input
      ready is the queue's and whose head shows while the queue is valid. */
  lemma LaneRefines<T>(l: QueueLane<T>, released: bool, released': bool, load: Option<T>, txReady: bool)
    requires LaneShape(l) && LaneInv(l, released) && (released ==> released')
    ensures var l' := QueueLaneNext(l, released, load, txReady);
            && LaneInv(l', released')
            && Abstract(l') == LaneNext(Abstract(l), l.queue.ready, load, l.queue.valid && txReady)
  {
    if released {
      RunningLane(l, load, txReady);
    } else {
      HeldLane(l, load, txReady);
    }
  }

  ghost predicate StartLane<T>(l: QueueLane<T>) {
    l.reg.None? && |l.queue.memory| >= 2 && InReset(l.queue)
  }

  function EmptyLane<T>(word: T): QueueLane<T> {
    QueueLane(None, Queues.ResetQueue([word, word], word, word))
  }

  lemma StartLaneInv<T>(l: QueueLane<T>)
    requires StartLane(l)
    ensures LaneShape(l) && LaneInv(l, false) && Abstract(l) == Lane(None, [])
  {
    Queues.ResetInv(l.queue.memory, l.queue.data, l.queue.out);
  }

  // ----- skid buffers -----

  ghost predicate BufferInv<T>(b: Buffer<T>) {
    b.buffered ==> !b.ready
  }

  /** The word a buffer shows, and the word it keeps. */
  function Seen<T>(b: Buffer<T>, rx: Offer<T>): Option<T> {
    var out := BufferOut(b, rx);
    if out.valid then Some(out.data) else None
  }

  function Inside<T>(b: Buffer<T>): seq<T> {
    Word(b.buffered, b.data)
  }

  /** What entered a buffer is what left it and what is inside. */
  lemma BufferPasses<T>(b: Buffer<T>, rx: Offer<T>, txReady: bool, entered: seq<T>, left: seq<T>)
    requires BufferInv(b) && entered == left + Inside(b)
    ensures var b' := BufferNext(b, rx, txReady);
            && BufferInv(b')
            && entered + Handshake(rx, b.ready) == (left + (if txReady then Pending(Seen(b, rx)) else [])) + Inside(b')
  {
    StageConserves(BufferStage(b), rx, txReady);
    var leaves := if txReady then Pending(Seen(b, rx)) else [];
    assert leaves == Handshake(BufferOut(b, rx), txReady);
    Append(left, Inside(b), leaves, Inside(BufferNext(b, rx, txReady)), Handshake(rx, b.ready));
  }

  // ----- the response buffers of all slaves -----

  function SeenAll<B>(bs: seq<Buffer<B>>, rx: seq<Offer<B>>): (answers: seq<Option<B>>)
    requires |bs| == |rx|
    ensures |answers| == |bs|
  {
    seq(|bs|, k requires 0 <= k < |bs| => Seen(bs[k], rx[k]))
  }

  /** A slave's answer is taken when the response queue is ready and the next id selects the slave. */
  function BuffersNext<B>(bs: seq<Buffer<B>>, rx: seq<Offer<B>>, id: Option<Id>, ready: bool): (bs': seq<Buffer<B>>)
    requires |bs| == |rx|
    ensures |bs'| == |bs|
  {
    seq(|bs|, k requires 0 <= k < |bs| =>
      BufferNext(bs[k], rx[k], Seen(bs[k], rx[k]).None? || (ready && id == Some(Some(k)))))
  }

  function GivenNext<B>(given: seq<seq<B>>, bs: seq<Buffer<B>>, rx: seq<Offer<B>>): (given': seq<seq<B>>)
    requires |given| == |bs| == |rx|
    ensures |given'| == |given|
  {
    seq(|bs|, k requires 0 <= k < |bs| => given[k] + Handshake(rx[k], bs[k].ready))
  }

  /** What a slave gave at its port is what the mux took from it and what its buffer keeps. */
  ghost predicate Given<B>(given: seq<seq<B>>, bs: seq<Buffer<B>>, taken: seq<seq<B>>) {
    && |given| == |bs| == |taken|
    && forall k :: 0 <= k < |bs| ==> BufferInv(bs[k]) && given[k] == taken[k] + Inside(bs[k])
  }

  lemma GivenStep<B>(given: seq<seq<B>>, bs: seq<Buffer<B>>, taken: seq<seq<B>>, rx: seq<Offer<B>>, id: Option<Id>,
                     ready: bool)
    requires Given(given, bs, taken) && |rx| == |bs|
    ensures Given(GivenNext(given, bs, rx), BuffersNext(bs, rx, id, ready),
                  AnswersNext(taken, id, SeenAll(bs, rx), ready))
  {
    forall k | 0 <= k < |bs|
      ensures BufferInv(BuffersNext(bs, rx, id, ready)[k])
      ensures GivenNext(given, bs, rx)[k]
           == AnswersNext(taken, id, SeenAll(bs, rx), ready)[k] + Inside(BuffersNext(bs, rx, id, ready)[k])
    {
      BufferPasses(bs[k], rx[k], Seen(bs[k], rx[k]).None? || (ready && id == Some(Some(k))), given[k], taken[k]);
    }
  }

  lemma TakenInOrder<A(!new), B(!new)>(sent: seq<seq<A>>, given: seq<seq<B>>, bs: seq<Buffer<B>>, taken: seq<seq<B>>,
                                       good: (nat, A, B) -> bool)
    requires Given(given, bs, taken) && AnswersInOrder(sent, given, good)
    ensures AnswersInOrder(sent, taken, good)
  {
    forall k | 0 <= k < |sent|
      ensures |taken[k]| <= |sent[k]| && forall j :: 0 <= j < |taken[k]| ==> good(k, sent[k][j], taken[k][j])
    {
      assert given[k] == taken[k] + Inside(bs[k]);
      forall j | 0 <= j < |taken[k]| ensures good(k, sent[k][j], taken[k][j]) {
        assert given[k][j] == taken[k][j];
      }
    }
  }
}
