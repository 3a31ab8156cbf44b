/** Read half of the bus at its own ports: upstream skid buffer, decoder, queues, mux, response buffers. */
module BusReadPort {
  import opened Streams
  import opened Stages
  import opened BusParts
  import opened BusPorts
  import opened BusRead

  /** released is the reset synchronizer all queues have alike. */
  datatype ReadPort<P, B> = ReadPort(
    released: seq<bool>, front: Buffer<Request<P>>,
    ar: QueueLane<Request<P>>, arId: QueueLane<Id>, rId: QueueLane<Id>,
    toSlave: seq<Option<Request<P>>>, responses: seq<Buffer<B>>, r: QueueLane<B>)

  /** Signals at the ports: the request offered upstream, each slave's ready and the response it
      offers, and the upstream ready for responses. */
  datatype PortInput<P, B> = PortInput(
    request: Offer<Request<P>>, slaveReady: seq<bool>, responses: seq<Offer<B>>, masterReady: bool)

  predicate PortShape<P, B>(p: ReadPort<P, B>) {
    && |p.released| == 2 && LaneShape(p.ar) && LaneShape(p.arId) && LaneShape(p.rId) && LaneShape(p.r)
    && |p.toSlave| == |p.responses|
  }

  predicate PortFits<P, B>(p: ReadPort<P, B>, i: PortInput<P, B>) {
    |i.slaveReady| == |i.responses| == |p.responses|
  }

  /** The decoder takes the request the buffer shows. */
  predicate IdsReady<P, B>(p: ReadPort<P, B>) {
    p.ar.queue.ready && p.arId.queue.ready && p.rId.queue.ready
  }

  /** What the mux does at a clock: a request leaves its queue with its id, an answer is collected. */
  predicate RoutesAr<P, B>(p: ReadPort<P, B>, i: PortInput<P, B>) {
    Routes(Head(p.ar), Head(p.arId), i.slaveReady)
  }

  predicate CollectsAnswer<P, B>(p: ReadPort<P, B>, i: PortInput<P, B>)
    requires PortFits(p, i)
  {
    Collects(Head(p.rId), SeenAll(p.responses, i.responses), p.r.queue.ready)
  }

  /** The id decoded from the request the buffer shows. */
  function IdSeen<P, B>(p: ReadPort<P, B>, i: PortInput<P, B>, regions: seq<Region>): Option<Id> {
    var request := Seen(p.front, i.request);
    if request.Some? then Some(Decode(regions, request.value.address)) else None
  }

  function ArNext<P, B>(p: ReadPort<P, B>, i: PortInput<P, B>): (l: QueueLane<Request<P>>)
    requires PortShape(p) && PortFits(p, i)
    ensures LaneShape(l)
  {
    var load := if p.arId.queue.ready && p.rId.queue.ready then Seen(p.front, i.request) else None;
    QueueLaneNext(p.ar, p.released[0], load, TakenOrIdle(p.ar, RoutesAr(p, i)))
  }

  function ArIdNext<P, B>(p: ReadPort<P, B>, i: PortInput<P, B>, regions: seq<Region>): (l: QueueLane<Id>)
    requires PortShape(p) && PortFits(p, i)
    ensures LaneShape(l)
  {
    var load := if p.ar.queue.ready && p.rId.queue.ready then IdSeen(p, i, regions) else None;
    QueueLaneNext(p.arId, p.released[0], load, TakenOrIdle(p.arId, RoutesAr(p, i)))
  }

  function RIdNext<P, B>(p: ReadPort<P, B>, i: PortInput<P, B>, regions: seq<Region>): (l: QueueLane<Id>)
    requires PortShape(p) && PortFits(p, i)
    ensures LaneShape(l)
  {
    var load := if p.ar.queue.ready && p.arId.queue.ready then IdSeen(p, i, regions) else None;
    QueueLaneNext(p.rId, p.released[0], load, TakenOrIdle(p.rId, CollectsAnswer(p, i)))
  }

  function RNext<P, B>(p: ReadPort<P, B>, i: PortInput<P, B>, unmapped: B): (l: QueueLane<B>)
    requires PortShape(p) && PortFits(p, i)
    ensures LaneShape(l)
  {
    var load := CollectorLoad(Head(p.rId), SeenAll(p.responses, i.responses), unmapped);
    QueueLaneNext(p.r, p.released[0], load, i.masterReady)
  }

  function PortNext<P, B>(
    p: ReadPort<P, B>, i: PortInput<P, B>, regions: seq<Region>, unmapped: B): (p': ReadPort<P, B>)
    requires PortShape(p) && PortFits(p, i)
    ensures PortShape(p') && |p'.responses| == |p.responses|
  {
    ReadPort(
      p.released[1..] + [true],
      BufferNext(p.front, i.request, Seen(p.front, i.request).None? || IdsReady(p)),
      ArNext(p, i), ArIdNext(p, i, regions), RIdNext(p, i, regions),
      RouterNext(p.toSlave, i.slaveReady, Head(p.ar), Head(p.arId)),
      BuffersNext(p.responses, i.responses, Head(p.rId), p.r.queue.ready),
      RNext(p, i, unmapped))
  }

  /** The handshake rule at the outputs of the bus: a response shown upstream, and a request shown to a slave, stay
      until they are taken. */
  lemma OutputsStay<P, B>(p: ReadPort<P, B>, i: PortInput<P, B>, regions: seq<Region>, unmapped: B)
    requires PortShape(p) && PortFits(p, i) && p.released[0]
    ensures var p' := PortNext(p, i, regions, unmapped);
            && (Head(p.r).Some? && !i.masterReady ==> Head(p'.r) == Head(p.r))
            && (forall k :: 0 <= k < |p.toSlave| && p.toSlave[k].Some? && !i.slaveReady[k] ==>
                  p'.toSlave[k] == p.toSlave[k])
  {
  }

  // ----- the bus between the buffers -----

  function Inner<P, B>(p: ReadPort<P, B>): ReadBus<P, B>
    requires PortShape(p)
  {
    ReadBus(Abstract(p.ar), Abstract(p.arId), Abstract(p.rId), p.toSlave, Abstract(p.r))
  }

  function InnerInput<P, B>(p: ReadPort<P, B>, i: PortInput<P, B>): ReadInput<P, B>
    requires PortFits(p, i)
  {
    ReadInput(Seen(p.front, i.request), p.ar.queue.ready, p.arId.queue.ready, p.rId.queue.ready, p.r.queue.ready,
              p.ar.queue.valid, p.arId.queue.valid, p.rId.queue.valid, p.r.queue.valid,
              i.slaveReady, SeenAll(p.responses, i.responses), i.masterReady)
  }

  ghost predicate LanesInv<P, B>(p: ReadPort<P, B>) {
    && |p.released| == 2 && (p.released[0] ==> p.released[1])
    && LaneInv(p.ar, p.released[0]) && LaneInv(p.arId, p.released[0])
    && LaneInv(p.rId, p.released[0]) && LaneInv(p.r, p.released[0])
  }

  /** The mux does the same with the real queues and the abstract ones. */
  lemma SignalsAgree<P, B>(p: ReadPort<P, B>, i: PortInput<P, B>)
    requires PortShape(p) && PortFits(p, i)
    ensures var s, inner := Inner(p), InnerInput(p, i);
            && Shown(s.ar, inner.showAr) == Head(p.ar) && Shown(s.arId, inner.showArId) == Head(p.arId)
            && Shown(s.rId, inner.showRId) == Head(p.rId) && Shown(s.r, inner.showR) == Head(p.r)
            && RoutesAr(p, i) == Sends(s, inner)
  {
    HeadIsShown(p.ar);
    HeadIsShown(p.arId);
    HeadIsShown(p.rId);
    HeadIsShown(p.r);
  }

  lemma RequestLane<P, B>(p: ReadPort<P, B>, i: PortInput<P, B>, regions: seq<Region>, unmapped: B)
    requires PortShape(p) && PortFits(p, i) && LanesInv(p)
    ensures var l', s' := ArNext(p, i), BusNext(Inner(p), InnerInput(p, i), regions, unmapped);
            LaneInv(l', p.released[1]) && Abstract(l') == s'.ar
  {
    SignalsAgree(p, i);
    LaneRefines(p.ar, p.released[0], p.released[1],
                if p.arId.queue.ready && p.rId.queue.ready then Seen(p.front, i.request) else None,
                TakenOrIdle(p.ar, RoutesAr(p, i)));
  }

  lemma RequestIdLane<P, B>(p: ReadPort<P, B>, i: PortInput<P, B>, regions: seq<Region>, unmapped: B)
    requires PortShape(p) && PortFits(p, i) && LanesInv(p)
    ensures var l', s' := ArIdNext(p, i, regions), BusNext(Inner(p), InnerInput(p, i), regions, unmapped);
            LaneInv(l', p.released[1]) && Abstract(l') == s'.arId
  {
    SignalsAgree(p, i);
    LaneRefines(p.arId, p.released[0], p.released[1],
                if p.ar.queue.ready && p.rId.queue.ready then IdSeen(p, i, regions) else None,
                TakenOrIdle(p.arId, RoutesAr(p, i)));
  }

  lemma ResponseIdLane<P, B>(p: ReadPort<P, B>, i: PortInput<P, B>, regions: seq<Region>, unmapped: B)
    requires PortShape(p) && PortFits(p, i) && LanesInv(p)
    ensures var l', s' := RIdNext(p, i, regions), BusNext(Inner(p), InnerInput(p, i), regions, unmapped);
            LaneInv(l', p.released[1]) && Abstract(l') == s'.rId
  {
    SignalsAgree(p, i);
    LaneRefines(p.rId, p.released[0], p.released[1],
                if p.ar.queue.ready && p.arId.queue.ready then IdSeen(p, i, regions) else None,
                TakenOrIdle(p.rId, CollectsAnswer(p, i)));
  }

  lemma ResponseLane<P, B>(p: ReadPort<P, B>, i: PortInput<P, B>, regions: seq<Region>, unmapped: B)
    requires PortShape(p) && PortFits(p, i) && LanesInv(p)
    ensures var l', s' := RNext(p, i, unmapped), BusNext(Inner(p), InnerInput(p, i), regions, unmapped);
            LaneInv(l', p.released[1]) && Abstract(l') == s'.r
  {
    SignalsAgree(p, i);
    LaneRefines(p.r, p.released[0], p.released[1],
                CollectorLoad(Head(p.rId), SeenAll(p.responses, i.responses), unmapped), i.masterReady);
  }

  /** One clock of registers and real queues is one clock of the bus with abstract queues. */
  lemma PortRefines<P, B>(p: ReadPort<P, B>, i: PortInput<P, B>, regions: seq<Region>, unmapped: B)
    requires PortShape(p) && PortFits(p, i) && LanesInv(p)
    ensures LanesInv(PortNext(p, i, regions, unmapped))
    ensures Inner(PortNext(p, i, regions, unmapped)) == BusNext(Inner(p), InnerInput(p, i), regions, unmapped)
  {
    SignalsAgree(p, i);
    RequestLane(p, i, regions, unmapped);
    RequestIdLane(p, i, regions, unmapped);
    ResponseIdLane(p, i, regions, unmapped);
    ResponseLane(p, i, regions, unmapped);
  }

  // ----- histories at the ports -----

  /** accepted are the requests taken at the upstream port, given the responses taken at each slave's port;
      track is the bus between the buffers. */
  datatype PortTracked<P, B> = PortTracked(
    port: ReadPort<P, B>, track: Tracked<P, B>, accepted: seq<Request<P>>, given: seq<seq<B>>)

  function PortTrackedNext<P, B>(t: PortTracked<P, B>, i: PortInput<P, B>, regions: seq<Region>,
                                 unmapped: B): PortTracked<P, B>
    requires PortShape(t.port) && PortFits(t.port, i) && Shape(t.track)
    requires |t.track.sent| == |t.port.responses| == |t.given|
  {
    PortTracked(
      PortNext(t.port, i, regions, unmapped),
      TrackedNext(t.track, InnerInput(t.port, i), regions, unmapped),
      t.accepted + Handshake(i.request, t.port.front.ready),
      GivenNext(t.given, t.port.responses, i.responses))
  }

  ghost predicate PortInv<P, B(!new)>(t: PortTracked<P, B>, regions: seq<Region>, unmapped: B) {
    && PortShape(t.port) && LanesInv(t.port) && BufferInv(t.port.front)
    && t.track.bus == Inner(t.port) && Inv(t.track, regions, unmapped)
    && t.accepted == t.track.requests + Inside(t.port.front)
    && Given(t.given, t.port.responses, t.track.taken)
  }

  /** Power up: every queue in reset, whatever its memory holds, and nothing in the buffers. */
  ghost predicate PortStart<P, B>(t: PortTracked<P, B>, slaves: nat) {
    && t.port.released == [false, false]
    && StartLane(t.port.ar) && StartLane(t.port.arId) && StartLane(t.port.rId) && StartLane(t.port.r)
    && !t.port.front.buffered && |t.port.responses| == slaves
    && (forall k :: 0 <= k < slaves ==> !t.port.responses[k].buffered)
    && t.port.toSlave == EmptyBus<P, B>(slaves).toSlave
    && t.track == Start(slaves) && t.accepted == [] && t.given == seq(slaves, _ => [])
  }

  /** Such states exist for any number of slaves. */
  lemma PortsStart<P, B>(request: Request<P>, response: B, slaves: nat)
    ensures exists t: PortTracked<P, B> :: PortStart(t, slaves) && PortShape(t.port)
  {
    var port := ReadPort(
      [false, false], Buffer(false, false, request), EmptyLane(request), EmptyLane(None), EmptyLane(None),
      EmptyBus<P, B>(slaves).toSlave, seq(slaves, _ => Buffer(false, false, response)), EmptyLane(response));
    var t := PortTracked(port, Start(slaves), [], seq(slaves, _ => []));
    assert PortStart(t, slaves) && PortShape(t.port);
  }

  lemma PortStartInv<P, B(!new)>(t: PortTracked<P, B>, regions: seq<Region>, unmapped: B)
    requires PortStart(t, |regions|)
    ensures PortInv(t, regions, unmapped)
  {
    StartLaneInv(t.port.ar);
    StartLaneInv(t.port.arId);
    StartLaneInv(t.port.rId);
    StartLaneInv(t.port.r);
    StartInv<P, B>(|regions|, regions, unmapped);
    forall k | 0 <= k < |regions| ensures t.given[k] == t.track.taken[k] + Inside(t.port.responses[k]) {
    }
  }

  lemma FrontStep<P, B(!new)>(t: PortTracked<P, B>, i: PortInput<P, B>, regions: seq<Region>, unmapped: B)
    requires PortInv(t, regions, unmapped) && PortFits(t.port, i)
    ensures var t' := PortTrackedNext(t, i, regions, unmapped);
            BufferInv(t'.port.front) && t'.accepted == t'.track.requests + Inside(t'.port.front)
  {
    var request := Seen(t.port.front, i.request);
    var ready := request.None? || IdsReady(t.port);
    BufferPasses(t.port.front, i.request, ready, t.accepted, t.track.requests);
    assert (if ready then Pending(request) else []) == Entered(InnerInput(t.port, i));
  }

  lemma BackStep<P, B(!new)>(t: PortTracked<P, B>, i: PortInput<P, B>, regions: seq<Region>, unmapped: B)
    requires PortInv(t, regions, unmapped) && PortFits(t.port, i)
    ensures var t' := PortTrackedNext(t, i, regions, unmapped); Given(t'.given, t'.port.responses, t'.track.taken)
  {
    HeadIsShown(t.port.rId);
    GivenStep(t.given, t.port.responses, t.track.taken, i.responses, Head(t.port.rId), t.port.r.queue.ready);
  }

  lemma PortStepInv<P, B(!new)>(t: PortTracked<P, B>, i: PortInput<P, B>, regions: seq<Region>, unmapped: B)
    requires PortInv(t, regions, unmapped) && PortFits(t.port, i)
    ensures PortInv(PortTrackedNext(t, i, regions, unmapped), regions, unmapped)
  {
    PortRefines(t.port, i, regions, unmapped);
    StepInv(t.track, InnerInput(t.port, i), regions, unmapped);
    FrontStep(t, i, regions, unmapped);
    BackStep(t, i, regions, unmapped);
  }

  // ----- whole runs -----

  predicate AllPortsFit<P, B>(inputs: seq<PortInput<P, B>>, slaves: nat) {
    forall n :: 0 <= n < |inputs| ==> |inputs[n].slaveReady| == |inputs[n].responses| == slaves
  }

  function PortRun<P, B>(t: PortTracked<P, B>, inputs: seq<PortInput<P, B>>, regions: seq<Region>,
                         unmapped: B): (t': PortTracked<P, B>)
    requires PortShape(t.port) && Shape(t.track) && |t.track.sent| == |t.port.responses| == |t.given|
    requires AllPortsFit(inputs, |t.port.responses|)
    ensures PortShape(t'.port) && Shape(t'.track) && |t'.track.sent| == |t'.port.responses| == |t'.given| == |t.given|
  {
    if inputs == [] then t else
    PortTrackedNext(PortRun(t, inputs[..|inputs| - 1], regions, unmapped), inputs[|inputs| - 1], regions, unmapped)
  }

  lemma {:induction false} PortRunInv<P, B(!new)>(t: PortTracked<P, B>, inputs: seq<PortInput<P, B>>,
                                                  regions: seq<Region>, unmapped: B)
    requires PortInv(t, regions, unmapped) && AllPortsFit(inputs, |t.port.responses|)
    ensures PortInv(PortRun(t, inputs, regions, unmapped), regions, unmapped)
  {
    if inputs != [] {
      var n := |inputs| - 1;
      PortRunInv(t, inputs[..n], regions, unmapped);
      var t' := PortRun(t, inputs[..n], regions, unmapped);
      PortStepInv(t', inputs[n], regions, unmapped);
      assert PortRun(t, inputs, regions, unmapped) == PortTrackedNext(t', inputs[n], regions, unmapped);
    }
  }

  /** Response i at the upstream port matches request i accepted at that port. */
  ghost predicate AnsweredAtPort<P, B(!new)>(t: PortTracked<P, B>, regions: seq<Region>, unmapped: B,
                                             good: (nat, Request<P>, B) -> bool, i: nat) {
    && i < |t.accepted| && i < |t.track.returned|
    && (Unowned(regions, t.accepted[i].address) ==> t.track.returned[i] == unmapped)
    && (forall k: nat :: Owns(regions, t.accepted[i].address, k) ==> good(k, t.accepted[i], t.track.returned[i]))
  }

  lemma PortAnswer<P(!new), B(!new)>(t: PortTracked<P, B>, regions: seq<Region>, unmapped: B,
                                     good: (nat, Request<P>, B) -> bool, i: nat)
    requires PortInv(t, regions, unmapped) && AnswersInOrder(t.track.sent, t.given, good) && i < |t.track.returned|
    ensures AnsweredAtPort(t, regions, unmapped, good, i)
  {
    TakenInOrder(t.track.sent, t.given, t.port.responses, t.track.taken, good);
    ResponseIsGood(t.track, regions, unmapped, good, i);
    assert t.accepted[i] == t.track.requests[i];
    DecodeFindsOwner(regions, t.accepted[i].address);
  }

  /** Main result for reads at the ports of the bus: from power up, for any number of slaves, any map and
      any handshakes, if every slave's responses at its port answer, in order, the requests it received,
      then response i at the upstream port answers the i-th request accepted there. */
  lemma PortReadsAreAnswered<P(!new), B(!new)>(
    start: PortTracked<P, B>, inputs: seq<PortInput<P, B>>, regions: seq<Region>, unmapped: B,
    good: (nat, Request<P>, B) -> bool, i: nat)
    requires PortStart(start, |regions|) && AllPortsFit(inputs, |regions|)
    requires PortShape(start.port)
    requires var t := PortRun(start, inputs, regions, unmapped);
             AnswersInOrder(t.track.sent, t.given, good) && i < |t.track.returned|
    ensures AnsweredAtPort(PortRun(start, inputs, regions, unmapped), regions, unmapped, good, i)
  {
    PortStartInv(start, regions, unmapped);
    PortRunInv(start, inputs, regions, unmapped);
    PortAnswer(PortRun(start, inputs, regions, unmapped), regions, unmapped, good, i);
  }
}
