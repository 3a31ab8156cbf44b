/** The state of the write half of the bus in which data waits for ids and ids wait for data. */
module BusWriteChoke {
  import opened BusParts
  import opened BusPorts
  import opened BusWrite
  import opened BusWritePort
  import opened BusWaits
  import opened Streams
  import Queues

  predicate RunShape<P, D, B>(t: PortTracked<P, D, B>) {
    PortShape(t.port) && Shape(t.track) && |t.track.sentAw| == |t.port.responses| == |t.given|
  }

  /** No data word is behind the decoder, and the queue that ids wait in for data is full and closed. */
  ghost predicate Choked<P, D, B>(p: WritePort<P, D, B>) {
    && PortShape(p) && LanesInv(p) && p.released[0]
    && Contents(Abstract(p.w)) == []
    && !p.wId.queue.ready && |Queues.Held(p.wId.queue)| > |p.wId.queue.memory|
  }

  /** Data passes the decoder only while the queues of the ids are open, and they are closed for want of data. */
  lemma ChokedStep<P, D, B>(p: WritePort<P, D, B>, i: PortInput<P, D, B>, regions: seq<Region>, unmapped: B)
    requires Choked(p) && PortFits(p, i)
    ensures Choked(PortNext(p, i, regions, unmapped))
    ensures EnteredAw(InnerInput(p, i)) == [] && EnteredW(InnerInput(p, i)) == []
  {
    PortRefines(p, i, regions, unmapped);
    assert Head(p.w).None?;
    var reg := p.wId.reg;
    var data := if reg.Some? then reg.value else p.wId.queue.out;
    Queues.CapacityStep(p.wId.queue, reg.Some?, data, TakenOrIdle(p.wId, false));
    Queues.FlagsAreExact(p.wId.queue, reg.Some?);
  }

  lemma ChokedClock<P, D, B>(t: PortTracked<P, D, B>, i: PortInput<P, D, B>, regions: seq<Region>, unmapped: B)
    requires RunShape(t) && PortFits(t.port, i) && Choked(t.port)
    ensures var t' := PortTrackedNext(t, i, regions, unmapped);
            Choked(t'.port) && t'.track.requests == t.track.requests && t'.track.data == t.track.data
  {
    ChokedStep(t.port, i, regions, unmapped);
  }

  /** A choked write half hangs for ever: in no run does another address or data word pass the decoder. */
  lemma {:induction false} ChokedForEver<P, D, B(!new)>(
    t: PortTracked<P, D, B>, inputs: seq<PortInput<P, D, B>>, regions: seq<Region>, unmapped: B)
    requires RunShape(t) && AllPortsFit(inputs, |t.port.responses|) && Choked(t.port)
    ensures var t' := PortRun(t, inputs, regions, unmapped);
            Choked(t'.port) && t'.track.requests == t.track.requests && t'.track.data == t.track.data
  {
    if inputs != [] {
      var n := |inputs| - 1;
      ChokedForEver(t, inputs[..n], regions, unmapped);
      var t' := PortRun(t, inputs[..n], regions, unmapped);
      ChokedClock(t', inputs[n], regions, unmapped);
      assert PortRun(t, inputs, regions, unmapped) == PortTrackedNext(t', inputs[n], regions, unmapped);
    }
  }

  // ----- how soon a queue opens, or closes for good -----

  /** Clocks until a closed queue that is not full opens. */
  function OpensIn<T>(q: Queues.Queue<T>): nat {
    if q.capacity + 2 <= |q.memory| then 1 else q.capacity + 3 - |q.memory|
  }

  /** A closed queue from which nothing is taken fills its front registers and opens. */
  lemma ClosedQueueOpens<T>(q: Queues.Queue<T>, valid: bool, data: T)
    requires Queues.Inv(q) && !q.ready && |Queues.Held(q)| <= |q.memory|
    ensures OpensIn(q) <= 3
    ensures var q' := Queues.QueueNext(q, valid, data, !q.valid);
            q'.ready || (OpensIn(q') < OpensIn(q) && |Queues.Held(q')| <= |q'.memory|)
  {
    Queues.CapacityStep(q, valid, data, !q.valid);
    Queues.FlagsAreExact(q, valid);
  }

  /** Clocks until a queue that holds too many ids is closed and full. */
  function ChokeWait<T>(q: Queues.Queue<T>): nat
    requires |q.memory| > 0
  {
    if q.ready then (if q.capacity + 1 >= |q.memory| then 1 else 2)
    else if |Queues.Held(q)| > |q.memory| then 0 else OpensIn(q) + 2
  }

  lemma ChokeStep<T>(l: QueueLane<T>, load: Option<T>)
    requires Queues.Inv(l.queue) && Load(l) > |l.queue.memory|
    ensures var l' := QueueLaneNext(l, true, load, !l.queue.valid);
            && ChokeWait(l.queue) <= 5 && |l'.queue.memory| == |l.queue.memory|
            && (ChokeWait(l.queue) > 0 ==> ChokeWait(l'.queue) < ChokeWait(l.queue))
  {
    var data := if l.reg.Some? then l.reg.value else l.queue.out;
    Queues.FlagsAreExact(l.queue, l.reg.Some?);
    Queues.CapacityStep(l.queue, l.reg.Some?, data, !l.queue.valid);
  }
}
