/** Write half of the bus at its own ports: upstream skid buffers, decoder, queues, mux, response buffers. */
module BusWritePort {
  import opened Streams
  import opened Stages
  import opened BusParts
  import opened BusPorts
  import opened BusWrite

  /** released is the reset synchronizer all queues have alike. */
  datatype WritePort<P, D, B> = WritePort(
    released: seq<bool>, frontAw: Buffer<Request<P>>, frontW: Buffer<D>,
    aw: QueueLane<Request<P>>, w: QueueLane<D>, awId: QueueLane<Id>, wId: QueueLane<Id>, bId: QueueLane<Id>,
    toSlaveAw: seq<Option<Request<P>>>, toSlaveW: seq<Option<D>>, responses: seq<Buffer<B>>, b: QueueLane<B>)

  /** Signals at the ports: address and data offered upstream, each slave's ready signals and the
      response it offers, and the upstream ready for responses. */
  datatype PortInput<P, D, B> = PortInput(
    request: Offer<Request<P>>, data: Offer<D>, slaveAwReady: seq<bool>, slaveWReady: seq<bool>,
    responses: seq<Offer<B>>, masterReady: bool)

  predicate PortShape<P, D, B>(p: WritePort<P, D, B>) {
    && |p.released| == 2
    && LaneShape(p.aw) && LaneShape(p.w) && LaneShape(p.awId) && LaneShape(p.wId) && LaneShape(p.bId) && LaneShape(p.b)
    && |p.toSlaveAw| == |p.toSlaveW| == |p.responses|
  }

  predicate PortFits<P, D, B>(p: WritePort<P, D, B>, i: PortInput<P, D, B>) {
    |i.slaveAwReady| == |i.slaveWReady| == |i.responses| == |p.responses|
  }

  /** The id lanes gate addresses and data alike. */
  predicate LanesReady<P, D, B>(p: WritePort<P, D, B>) {
    p.awId.queue.ready && p.wId.queue.ready && p.bId.queue.ready
  }

  /** What the mux does at a clock: an address or a data word leaves its queue with its id, an answer is collected. */
  predicate RoutesAw<P, D, B>(p: WritePort<P, D, B>, i: PortInput<P, D, B>) {
    Routes(Head(p.aw), Head(p.awId), i.slaveAwReady)
  }

  predicate RoutesW<P, D, B>(p: WritePort<P, D, B>, i: PortInput<P, D, B>) {
    Routes(Head(p.w), Head(p.wId), i.slaveWReady)
  }

  predicate CollectsAnswer<P, D, B>(p: WritePort<P, D, B>, i: PortInput<P, D, B>)
    requires PortFits(p, i)
  {
    Collects(Head(p.bId), SeenAll(p.responses, i.responses), p.b.queue.ready)
  }

  /** The id decoded from the address the buffer shows. */
  function IdSeen<P, D, B>(p: WritePort<P, D, B>, i: PortInput<P, D, B>, regions: seq<Region>): Option<Id> {
    var request := Seen(p.frontAw, i.request);
    if request.Some? then Some(Decode(regions, request.value.address)) else None
  }

  function AwNext<P, D, B>(p: WritePort<P, D, B>, i: PortInput<P, D, B>): (l: QueueLane<Request<P>>)
    requires PortShape(p) && PortFits(p, i)
    ensures LaneShape(l)
  {
    var load := if LanesReady(p) then Seen(p.frontAw, i.request) else None;
    QueueLaneNext(p.aw, p.released[0], load, TakenOrIdle(p.aw, RoutesAw(p, i)))
  }

  function WNext<P, D, B>(p: WritePort<P, D, B>, i: PortInput<P, D, B>): (l: QueueLane<D>)
    requires PortShape(p) && PortFits(p, i)
    ensures LaneShape(l)
  {
    var load := if LanesReady(p) then Seen(p.frontW, i.data) else None;
    QueueLaneNext(p.w, p.released[0], load, TakenOrIdle(p.w, RoutesW(p, i)))
  }

  function AwIdNext<P, D, B>(p: WritePort<P, D, B>, i: PortInput<P, D, B>, regions: seq<Region>): (l: QueueLane<Id>)
    requires PortShape(p) && PortFits(p, i)
    ensures LaneShape(l)
  {
    var load := if p.aw.queue.ready && p.wId.queue.ready && p.bId.queue.ready then IdSeen(p, i, regions) else None;
    QueueLaneNext(p.awId, p.released[0], load, TakenOrIdle(p.awId, RoutesAw(p, i)))
  }

  function WIdNext<P, D, B>(p: WritePort<P, D, B>, i: PortInput<P, D, B>, regions: seq<Region>): (l: QueueLane<Id>)
    requires PortShape(p) && PortFits(p, i)
    ensures LaneShape(l)
  {
    var load := if p.aw.queue.ready && p.awId.queue.ready && p.bId.queue.ready then IdSeen(p, i, regions) else None;
    QueueLaneNext(p.wId, p.released[0], load, TakenOrIdle(p.wId, RoutesW(p, i)))
  }

  function BIdNext<P, D, B>(p: WritePort<P, D, B>, i: PortInput<P, D, B>, regions: seq<Region>): (l: QueueLane<Id>)
    requires PortShape(p) && PortFits(p, i)
    ensures LaneShape(l)
  {
    var load := if p.aw.queue.ready && p.awId.queue.ready && p.wId.queue.ready then IdSeen(p, i, regions) else None;
    QueueLaneNext(p.bId, p.released[0], load, TakenOrIdle(p.bId, CollectsAnswer(p, i)))
  }

  function BNext<P, D, B>(p: WritePort<P, D, B>, i: PortInput<P, D, B>, unmapped: B): (l: QueueLane<B>)
    requires PortShape(p) && PortFits(p, i)
    ensures LaneShape(l)
  {
    var load := CollectorLoad(Head(p.bId), SeenAll(p.responses, i.responses), unmapped);
    QueueLaneNext(p.b, p.released[0], load, i.masterReady)
  }

  function PortNext<P, D, B>(
    p: WritePort<P, D, B>, i: PortInput<P, D, B>, regions: seq<Region>, unmapped: B): (p': WritePort<P, D, B>)
    requires PortShape(p) && PortFits(p, i)
    ensures PortShape(p') && |p'.responses| == |p.responses|
  {
    WritePort(
      p.released[1..] + [true],
      BufferNext(p.frontAw, i.request, Seen(p.frontAw, i.request).None? || (p.aw.queue.ready && LanesReady(p))),
      BufferNext(p.frontW, i.data, Seen(p.frontW, i.data).None? || (p.w.queue.ready && LanesReady(p))),
      AwNext(p, i), WNext(p, i), AwIdNext(p, i, regions), WIdNext(p, i, regions), BIdNext(p, i, regions),
      RouterNext(p.toSlaveAw, i.slaveAwReady, Head(p.aw), Head(p.awId)),
      RouterNext(p.toSlaveW, i.slaveWReady, Head(p.w), Head(p.wId)),
      BuffersNext(p.responses, i.responses, Head(p.bId), p.b.queue.ready),
      BNext(p, i, unmapped))
  }

  /** The handshake rule at the outputs of the bus: a response shown upstream, and an address or a data word shown to
      a slave, stay until they are taken. */
  lemma OutputsStay<P, D, B>(p: WritePort<P, D, B>, i: PortInput<P, D, B>, regions: seq<Region>, unmapped: B)
    requires PortShape(p) && PortFits(p, i) && p.released[0]
    ensures var p' := PortNext(p, i, regions, unmapped);
            && (Head(p.b).Some? && !i.masterReady ==> Head(p'.b) == Head(p.b))
            && (forall k :: 0 <= k < |p.toSlaveAw| && p.toSlaveAw[k].Some? && !i.slaveAwReady[k] ==>
                  p'.toSlaveAw[k] == p.toSlaveAw[k])
            && (forall k :: 0 <= k < |p.toSlaveW| && p.toSlaveW[k].Some? && !i.slaveWReady[k] ==>
                  p'.toSlaveW[k] == p.toSlaveW[k])
  {
  }

  // ----- the bus between the buffers -----

  function Inner<P, D, B>(p: WritePort<P, D, B>): WriteBus<P, D, B>
    requires PortShape(p)
  {
    WriteBus(Abstract(p.aw), Abstract(p.w), Abstract(p.awId), Abstract(p.wId), Abstract(p.bId),
             p.toSlaveAw, p.toSlaveW, Abstract(p.b))
  }

  function InnerInput<P, D, B>(p: WritePort<P, D, B>, i: PortInput<P, D, B>): WriteInput<P, D, B>
    requires PortFits(p, i)
  {
    WriteInput(Seen(p.frontAw, i.request), Seen(p.frontW, i.data),
               p.aw.queue.ready, p.w.queue.ready, p.awId.queue.ready,
               p.wId.queue.ready, p.bId.queue.ready, p.b.queue.ready,
               p.aw.queue.valid, p.w.queue.valid, p.awId.queue.valid,
               p.wId.queue.valid, p.bId.queue.valid, p.b.queue.valid,
               i.slaveAwReady, i.slaveWReady, SeenAll(p.responses, i.responses), i.masterReady)
  }

  ghost predicate LanesInv<P, D, B>(p: WritePort<P, D, B>) {
    && |p.released| == 2 && (p.released[0] ==> p.released[1])
    && LaneInv(p.aw, p.released[0]) && LaneInv(p.w, p.released[0])
    && LaneInv(p.awId, p.released[0]) && LaneInv(p.wId, p.released[0])
    && LaneInv(p.bId, p.released[0]) && LaneInv(p.b, p.released[0])
  }

  /** The mux does the same with the real queues and the abstract ones. */
  lemma SignalsAgree<P, D, B>(p: WritePort<P, D, B>, i: PortInput<P, D, B>)
    requires PortShape(p) && PortFits(p, i)
    ensures var s, inner := Inner(p), InnerInput(p, i);
            && Shown(s.aw, inner.showAw) == Head(p.aw) && Shown(s.awId, inner.showAwId) == Head(p.awId)
            && Shown(s.w, inner.showW) == Head(p.w) && Shown(s.wId, inner.showWId) == Head(p.wId)
            && Shown(s.bId, inner.showBId) == Head(p.bId) && Shown(s.b, inner.showB) == Head(p.b)
    ensures RoutesAw(p, i) == SendsAw(Inner(p), InnerInput(p, i)) && RoutesW(p, i) == SendsW(Inner(p), InnerInput(p, i))
    ensures CollectsAnswer(p, i) == CollectsB(Inner(p), InnerInput(p, i))
  {
    HeadIsShown(p.aw);
    HeadIsShown(p.awId);
    HeadIsShown(p.w);
    HeadIsShown(p.wId);
    HeadIsShown(p.bId);
    HeadIsShown(p.b);
  }

  lemma AddressLane<P, D, B>(p: WritePort<P, D, B>, i: PortInput<P, D, B>, regions: seq<Region>, unmapped: B)
    requires PortShape(p) && PortFits(p, i) && LanesInv(p)
    ensures var l', s' := AwNext(p, i), BusNext(Inner(p), InnerInput(p, i), regions, unmapped);
            LaneInv(l', p.released[1]) && Abstract(l') == s'.aw
  {
    SignalsAgree(p, i);
    LaneRefines(p.aw, p.released[0], p.released[1], if LanesReady(p) then Seen(p.frontAw, i.request) else None,
                TakenOrIdle(p.aw, RoutesAw(p, i)));
  }

  lemma DataLane<P, D, B>(p: WritePort<P, D, B>, i: PortInput<P, D, B>, regions: seq<Region>, unmapped: B)
    requires PortShape(p) && PortFits(p, i) && LanesInv(p)
    ensures var l', s' := WNext(p, i), BusNext(Inner(p), InnerInput(p, i), regions, unmapped);
            LaneInv(l', p.released[1]) && Abstract(l') == s'.w
  {
    SignalsAgree(p, i);
    LaneRefines(p.w, p.released[0], p.released[1], if LanesReady(p) then Seen(p.frontW, i.data) else None,
                TakenOrIdle(p.w, RoutesW(p, i)));
  }

  lemma AddressIdLane<P, D, B>(p: WritePort<P, D, B>, i: PortInput<P, D, B>, regions: seq<Region>, unmapped: B)
    requires PortShape(p) && PortFits(p, i) && LanesInv(p)
    ensures var l', s' := AwIdNext(p, i, regions), BusNext(Inner(p), InnerInput(p, i), regions, unmapped);
            LaneInv(l', p.released[1]) && Abstract(l') == s'.awId
  {
    SignalsAgree(p, i);
    LaneRefines(p.awId, p.released[0], p.released[1],
                if p.aw.queue.ready && p.wId.queue.ready && p.bId.queue.ready then IdSeen(p, i, regions) else None,
                TakenOrIdle(p.awId, RoutesAw(p, i)));
  }

  lemma DataIdLane<P, D, B>(p: WritePort<P, D, B>, i: PortInput<P, D, B>, regions: seq<Region>, unmapped: B)
    requires PortShape(p) && PortFits(p, i) && LanesInv(p)
    ensures var l', s' := WIdNext(p, i, regions), BusNext(Inner(p), InnerInput(p, i), regions, unmapped);
            LaneInv(l', p.released[1]) && Abstract(l') == s'.wId
  {
    SignalsAgree(p, i);
    LaneRefines(p.wId, p.released[0], p.released[1],
                if p.aw.queue.ready && p.awId.queue.ready && p.bId.queue.ready then IdSeen(p, i, regions) else None,
                TakenOrIdle(p.wId, RoutesW(p, i)));
  }

  lemma ResponseIdLane<P, D, B>(p: WritePort<P, D, B>, i: PortInput<P, D, B>, regions: seq<Region>, unmapped: B)
    requires PortShape(p) && PortFits(p, i) && LanesInv(p)
    ensures var l', s' := BIdNext(p, i, regions), BusNext(Inner(p), InnerInput(p, i), regions, unmapped);
            LaneInv(l', p.released[1]) && Abstract(l') == s'.bId
  {
    SignalsAgree(p, i);
    LaneRefines(p.bId, p.released[0], p.released[1],
                if p.aw.queue.ready && p.awId.queue.ready && p.wId.queue.ready then IdSeen(p, i, regions) else None,
                TakenOrIdle(p.bId, CollectsAnswer(p, i)));
  }

  lemma ResponseLane<P, D, B>(p: WritePort<P, D, B>, i: PortInput<P, D, B>, regions: seq<Region>, unmapped: B)
    requires PortShape(p) && PortFits(p, i) && LanesInv(p)
    ensures var l', s' := BNext(p, i, unmapped), BusNext(Inner(p), InnerInput(p, i), regions, unmapped);
            LaneInv(l', p.released[1]) && Abstract(l') == s'.b
  {
    SignalsAgree(p, i);
    LaneRefines(p.b, p.released[0], p.released[1],
                CollectorLoad(Head(p.bId), SeenAll(p.responses, i.responses), unmapped), i.masterReady);
  }

  /** One clock of registers and real queues is one clock of the bus with abstract queues. */
  lemma PortRefines<P, D, B>(p: WritePort<P, D, B>, i: PortInput<P, D, B>, regions: seq<Region>, unmapped: B)
    requires PortShape(p) && PortFits(p, i) && LanesInv(p)
    ensures LanesInv(PortNext(p, i, regions, unmapped))
    ensures Inner(PortNext(p, i, regions, unmapped)) == BusNext(Inner(p), InnerInput(p, i), regions, unmapped)
  {
    SignalsAgree(p, i);
    AddressLane(p, i, regions, unmapped);
    DataLane(p, i, regions, unmapped);
    AddressIdLane(p, i, regions, unmapped);
    DataIdLane(p, i, regions, unmapped);
    ResponseIdLane(p, i, regions, unmapped);
    ResponseLane(p, i, regions, unmapped);
  }

  // ----- histories at the ports -----

  /** Addresses and data taken at the upstream ports, responses taken at each slave's port; track is the
      bus between the buffers. */
  datatype PortTracked<P, D, B> = PortTracked(
    port: WritePort<P, D, B>, track: Tracked<P, D, B>, addresses: seq<Request<P>>, data: seq<D>, given: seq<seq<B>>)

  function PortTrackedNext<P, D, B>(t: PortTracked<P, D, B>, i: PortInput<P, D, B>, regions: seq<Region>,
                                    unmapped: B): PortTracked<P, D, B>
    requires PortShape(t.port) && PortFits(t.port, i) && Shape(t.track)
    requires |t.track.sentAw| == |t.port.responses| == |t.given|
  {
    PortTracked(
      PortNext(t.port, i, regions, unmapped),
      TrackedNext(t.track, InnerInput(t.port, i), regions, unmapped),
      t.addresses + Handshake(i.request, t.port.frontAw.ready),
      t.data + Handshake(i.data, t.port.frontW.ready),
      GivenNext(t.given, t.port.responses, i.responses))
  }

  ghost predicate FrontInv<P, D, B>(t: PortTracked<P, D, B>) {
    && BufferInv(t.port.frontAw) && t.addresses == t.track.requests + Inside(t.port.frontAw)
    && BufferInv(t.port.frontW) && t.data == t.track.data + Inside(t.port.frontW)
  }

  ghost predicate PortInv<P, D, B(!new)>(t: PortTracked<P, D, B>, regions: seq<Region>, unmapped: B) {
    && PortShape(t.port) && LanesInv(t.port)
    && t.track.bus == Inner(t.port) && Inv(t.track, regions, unmapped)
    && FrontInv(t)
    && Given(t.given, t.port.responses, t.track.taken)
  }

  /** Power up: every queue in reset, whatever its memory holds, and nothing in the buffers. */
  ghost predicate PortStart<P, D, B>(t: PortTracked<P, D, B>, slaves: nat) {
    && t.port.released == [false, false]
    && StartLane(t.port.aw) && StartLane(t.port.w) && StartLane(t.port.awId)
    && StartLane(t.port.wId) && StartLane(t.port.bId) && StartLane(t.port.b)
    && !t.port.frontAw.buffered && !t.port.frontW.buffered && |t.port.responses| == slaves
    && (forall k :: 0 <= k < slaves ==> !t.port.responses[k].buffered)
    && t.port.toSlaveAw == EmptyBus<P, D, B>(slaves).toSlaveAw && t.port.toSlaveW == EmptyBus<P, D, B>(slaves).toSlaveW
    && t.track == Start(slaves) && t.addresses == [] && t.data == [] && t.given == seq(slaves, _ => [])
  }

  /** Such states exist for any number of slaves. */
  lemma PortsStart<P, D, B>(request: Request<P>, data: D, response: B, slaves: nat)
    ensures exists t: PortTracked<P, D, B> :: PortStart(t, slaves) && PortShape(t.port)
  {
    var port := WritePort(
      [false, false], Buffer(false, false, request), Buffer(false, false, data),
      EmptyLane(request), EmptyLane(data), EmptyLane(None), EmptyLane(None), EmptyLane(None),
      EmptyBus<P, D, B>(slaves).toSlaveAw, EmptyBus<P, D, B>(slaves).toSlaveW,
      seq(slaves, _ => Buffer(false, false, response)), EmptyLane(response));
    var t := PortTracked(port, Start(slaves), [], [], seq(slaves, _ => []));
    assert PortStart(t, slaves) && PortShape(t.port);
  }

  lemma PortStartInv<P, D, B(!new)>(t: PortTracked<P, D, B>, regions: seq<Region>, unmapped: B)
    requires PortStart(t, |regions|)
    ensures PortInv(t, regions, unmapped)
  {
    StartLaneInv(t.port.aw);
    StartLaneInv(t.port.w);
    StartLaneInv(t.port.awId);
    StartLaneInv(t.port.wId);
    StartLaneInv(t.port.bId);
    StartLaneInv(t.port.b);
    StartInv<P, D, B>(|regions|, regions, unmapped);
    forall k | 0 <= k < |regions| ensures t.given[k] == t.track.taken[k] + Inside(t.port.responses[k]) {
    }
  }

  lemma FrontAddressStep<P, D, B>(p: WritePort<P, D, B>, i: PortInput<P, D, B>, regions: seq<Region>, unmapped: B,
                                  entered: seq<Request<P>>, left: seq<Request<P>>)
    requires PortShape(p) && PortFits(p, i) && BufferInv(p.frontAw) && entered == left + Inside(p.frontAw)
    ensures var b' := PortNext(p, i, regions, unmapped).frontAw;
            && BufferInv(b')
            && entered + Handshake(i.request, p.frontAw.ready) == (left + EnteredAw(InnerInput(p, i))) + Inside(b')
  {
    var request := Seen(p.frontAw, i.request);
    var ready := request.None? || (p.aw.queue.ready && LanesReady(p));
    BufferPasses(p.frontAw, i.request, ready, entered, left);
    assert (if ready then Pending(request) else []) == EnteredAw(InnerInput(p, i));
  }

  lemma FrontDataStep<P, D, B>(p: WritePort<P, D, B>, i: PortInput<P, D, B>, regions: seq<Region>, unmapped: B,
                               entered: seq<D>, left: seq<D>)
    requires PortShape(p) && PortFits(p, i) && BufferInv(p.frontW) && entered == left + Inside(p.frontW)
    ensures var b' := PortNext(p, i, regions, unmapped).frontW;
            && BufferInv(b')
            && entered + Handshake(i.data, p.frontW.ready) == (left + EnteredW(InnerInput(p, i))) + Inside(b')
  {
    var data := Seen(p.frontW, i.data);
    var ready := data.None? || (p.w.queue.ready && LanesReady(p));
    BufferPasses(p.frontW, i.data, ready, entered, left);
    assert (if ready then Pending(data) else []) == EnteredW(InnerInput(p, i));
  }

  lemma BackStep<P, D, B(!new)>(t: PortTracked<P, D, B>, i: PortInput<P, D, B>, regions: seq<Region>, unmapped: B)
    requires PortInv(t, regions, unmapped) && PortFits(t.port, i)
    ensures var t' := PortTrackedNext(t, i, regions, unmapped); Given(t'.given, t'.port.responses, t'.track.taken)
  {
    HeadIsShown(t.port.bId);
    GivenStep(t.given, t.port.responses, t.track.taken, i.responses, Head(t.port.bId), t.port.b.queue.ready);
  }

  lemma PortStepInv<P, D, B(!new)>(t: PortTracked<P, D, B>, i: PortInput<P, D, B>, regions: seq<Region>, unmapped: B)
    requires PortInv(t, regions, unmapped) && PortFits(t.port, i)
    ensures PortInv(PortTrackedNext(t, i, regions, unmapped), regions, unmapped)
  {
    PortRefines(t.port, i, regions, unmapped);
    StepInv(t.track, InnerInput(t.port, i), regions, unmapped);
    FrontAddressStep(t.port, i, regions, unmapped, t.addresses, t.track.requests);
    FrontDataStep(t.port, i, regions, unmapped, t.data, t.track.data);
    BackStep(t, i, regions, unmapped);
  }

  // ----- whole runs -----

  predicate AllPortsFit<P, D, B>(inputs: seq<PortInput<P, D, B>>, slaves: nat) {
    forall n :: 0 <= n < |inputs| ==>
      |inputs[n].slaveAwReady| == |inputs[n].slaveWReady| == |inputs[n].responses| == slaves
  }

  function PortRun<P, D, B>(t: PortTracked<P, D, B>, inputs: seq<PortInput<P, D, B>>, regions: seq<Region>,
                            unmapped: B): (t': PortTracked<P, D, B>)
    requires PortShape(t.port) && Shape(t.track) && |t.track.sentAw| == |t.port.responses| == |t.given|
    requires AllPortsFit(inputs, |t.port.responses|)
    ensures PortShape(t'.port) && Shape(t'.track) && |t'.track.sentAw| == |t'.port.responses| == |t'.given| == |t.given|
  {
    if inputs == [] then t else
    PortTrackedNext(PortRun(t, inputs[..|inputs| - 1], regions, unmapped), inputs[|inputs| - 1], regions, unmapped)
  }

  lemma {:induction false} PortRunInv<P, D, B(!new)>(t: PortTracked<P, D, B>, inputs: seq<PortInput<P, D, B>>,
                                                     regions: seq<Region>, unmapped: B)
    requires PortInv(t, regions, unmapped) && AllPortsFit(inputs, |t.port.responses|)
    ensures PortInv(PortRun(t, inputs, regions, unmapped), regions, unmapped)
  {
    if inputs != [] {
      var n := |inputs| - 1;
      PortRunInv(t, inputs[..n], regions, unmapped);
      var t' := PortRun(t, inputs[..n], regions, unmapped);
      PortStepInv(t', inputs[n], regions, unmapped);
      assert PortRun(t, inputs, regions, unmapped) == PortTrackedNext(t', inputs[n], regions, unmapped);
    }
  }

  lemma TakenAnswers<A(!new), D(!new), B(!new)>(
    sentAw: seq<seq<A>>, sentW: seq<seq<D>>, given: seq<seq<B>>, bs: seq<Buffer<B>>, taken: seq<seq<B>>,
    good: (nat, A, D, B) -> bool)
    requires Given(given, bs, taken) && WritesAnswered(sentAw, sentW, given, good)
    ensures WritesAnswered(sentAw, sentW, taken, good)
  {
    forall k | 0 <= k < |taken|
      ensures |taken[k]| <= |sentAw[k]| && |taken[k]| <= |sentW[k]|
      ensures forall j :: 0 <= j < |taken[k]| ==> good(k, sentAw[k][j], sentW[k][j], taken[k][j])
    {
      assert given[k] == taken[k] + Inside(bs[k]);
      forall j | 0 <= j < |taken[k]| ensures good(k, sentAw[k][j], sentW[k][j], taken[k][j]) {
        assert given[k][j] == taken[k][j];
      }
    }
  }

  /** Response i at the upstream port matches address i and data word i accepted at those ports. */
  ghost predicate AnsweredAtPort<P, D, B(!new)>(t: PortTracked<P, D, B>, regions: seq<Region>, unmapped: B,
                                                good: (nat, Request<P>, D, B) -> bool, i: nat) {
    && i < |t.addresses| && i < |t.track.returned|
    && (Unowned(regions, t.addresses[i].address) ==> t.track.returned[i] == unmapped)
    && (forall k: nat :: Owns(regions, t.addresses[i].address, k) ==>
          i < |t.data| && good(k, t.addresses[i], t.data[i], t.track.returned[i]))
  }

  lemma PortAnswer<P(!new), D(!new), B(!new)>(t: PortTracked<P, D, B>, regions: seq<Region>, unmapped: B,
                                              good: (nat, Request<P>, D, B) -> bool, i: nat)
    requires PortInv(t, regions, unmapped) && i < |t.track.returned|
    requires WritesAnswered(t.track.sentAw, t.track.sentW, t.given, good)
    ensures AnsweredAtPort(t, regions, unmapped, good, i)
  {
    TakenAnswers(t.track.sentAw, t.track.sentW, t.given, t.port.responses, t.track.taken, good);
    ResponseIsGood(t.track, regions, unmapped, good, i);
    assert t.addresses[i] == t.track.requests[i];
    DecodeFindsOwner(regions, t.addresses[i].address);
    assert i < |t.track.data| ==> t.data[i] == t.track.data[i];
  }

  /** Main result for writes at the ports of the bus: from power up, for any number of slaves, any map
      and any handshakes, data before or after its address, if every slave's responses at its port answer,
      in order, the writes it received, then response i at the upstream port answers the i-th address
      accepted there with the i-th data word. */
  lemma PortWritesAreAnswered<P(!new), D(!new), B(!new)>(
    start: PortTracked<P, D, B>, inputs: seq<PortInput<P, D, B>>, regions: seq<Region>, unmapped: B,
    good: (nat, Request<P>, D, B) -> bool, i: nat)
    requires PortStart(start, |regions|) && AllPortsFit(inputs, |regions|)
    requires PortShape(start.port)
    requires var t := PortRun(start, inputs, regions, unmapped);
             WritesAnswered(t.track.sentAw, t.track.sentW, t.given, good) && i < |t.track.returned|
    ensures AnsweredAtPort(PortRun(start, inputs, regions, unmapped), regions, unmapped, good, i)
  {
    PortStartInv(start, regions, unmapped);
    PortRunInv(start, inputs, regions, unmapped);
    PortAnswer(PortRun(start, inputs, regions, unmapped), regions, unmapped, good, i);
  }
}
