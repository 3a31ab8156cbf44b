/** When the write half of the bus hangs: addresses too far ahead of their data. */
module BusWriteHang {
  import opened Wrapping
  import opened Streams
  import opened Stages
  import opened BusParts
  import opened BusPorts
  import opened BusWritePort
  import opened BusWaits
  import opened BusWriteChoke
  import opened BusWriteProgress
  import Queues

  // ----- addresses too far ahead of data -----

  /** It is choked as soon as depth + 3 more addresses than data words have passed the decoder. */
  lemma OverrunChokes<P, D, B(!new)>(t: PortTracked<P, D, B>, regions: seq<Region>, unmapped: B)
    requires PortInv(t, regions, unmapped) && t.port.released[0]
    requires |t.track.requests| >= |t.track.data| + |t.port.wId.queue.memory| + 3
    ensures Choked(t.port)
  {
    assert |Contents(Abstract(t.port.wId))| == |t.track.requests| - t.track.routedW;
    assert |Contents(Abstract(t.port.w))| == |t.track.data| - t.track.routedW;
  }

  // ----- closed for good, or not -----

  /** The queue of ids that wait for data has no data to give its words to. */
  ghost predicate Starved<P, D, B>(p: WritePort<P, D, B>) {
    PortShape(p) && LanesInv(p) && p.released[0] && Contents(Abstract(p.w)) == []
  }

  lemma StarvedQueueStep<P, D, B>(p: WritePort<P, D, B>, i: PortInput<P, D, B>, regions: seq<Region>, unmapped: B)
    requires Starved(p) && PortFits(p, i) && !p.wId.queue.ready
    ensures var p' := PortNext(p, i, regions, unmapped); var q, q' := p.wId.queue, p'.wId.queue;
            && Starved(p')
            && (|Queues.Held(q)| <= |q.memory| ==>
                  q'.ready || (OpensIn(q') < OpensIn(q) && |Queues.Held(q')| <= |q'.memory|))
  {
    PortRefines(p, i, regions, unmapped);
    assert Head(p.w).None?;
    var q, reg := p.wId.queue, p.wId.reg;
    var data := if reg.Some? then reg.value else q.out;
    if |Queues.Held(q)| <= |q.memory| {
      ClosedQueueOpens(q, reg.Some?, data);
    }
  }

  /** everOpen says that the queue of the ids that wait for data has been open at some clock so far. */
  datatype Observed<P, D, B> = Observed(state: PortTracked<P, D, B>, everOpen: bool)

  function ObservedNext<P, D, B>(
    o: Observed<P, D, B>, i: PortInput<P, D, B>, regions: seq<Region>, unmapped: B): (o': Observed<P, D, B>)
    requires RunShape(o.state) && PortFits(o.state.port, i)
    ensures RunShape(o'.state) && |o'.state.port.responses| == |o.state.port.responses|
  {
    var t' := PortTrackedNext(o.state, i, regions, unmapped);
    Observed(t', o.everOpen || t'.port.wId.queue.ready)
  }

  function Observe<P, D, B>(start: PortTracked<P, D, B>, inputs: seq<PortInput<P, D, B>>, regions: seq<Region>,
                            unmapped: B): (o: Observed<P, D, B>)
    requires RunShape(start) && AllPortsFit(inputs, |start.port.responses|)
    ensures RunShape(o.state) && |o.state.port.responses| == |start.port.responses|
  {
    if inputs == [] then Observed(start, start.port.wId.queue.ready) else
    ObservedNext(Observe(start, inputs[..|inputs| - 1], regions, unmapped), inputs[|inputs| - 1], regions, unmapped)
  }

  lemma {:induction false} ChokedStaysClosed<P, D, B(!new)>(
    start: PortTracked<P, D, B>, inputs: seq<PortInput<P, D, B>>, regions: seq<Region>, unmapped: B)
    requires RunShape(start) && AllPortsFit(inputs, |start.port.responses|) && Choked(start.port)
    ensures var o := Observe(start, inputs, regions, unmapped); Choked(o.state.port) && !o.everOpen
  {
    if inputs != [] {
      var n := |inputs| - 1;
      ChokedStaysClosed(start, inputs[..n], regions, unmapped);
      var o := Observe(start, inputs[..n], regions, unmapped);
      ChokedClock(o.state, inputs[n], regions, unmapped);
      assert Observe(start, inputs, regions, unmapped) == ObservedNext(o, inputs[n], regions, unmapped);
    }
  }

  /** Until it opens, a queue that is not full comes closer to it. */
  ghost predicate OpensSoon<P, D, B>(o: Observed<P, D, B>, clocks: nat, limit: nat) {
    !o.everOpen ==>
      && Starved(o.state.port) && !o.state.port.wId.queue.ready
      && |Queues.Held(o.state.port.wId.queue)| <= |o.state.port.wId.queue.memory|
      && OpensIn(o.state.port.wId.queue) + clocks <= limit
  }

  lemma OpensSoonStep<P, D, B>(
    o: Observed<P, D, B>, i: PortInput<P, D, B>, regions: seq<Region>, unmapped: B, clocks: nat, limit: nat)
    requires RunShape(o.state) && PortFits(o.state.port, i) && OpensSoon(o, clocks, limit)
    ensures OpensSoon(ObservedNext(o, i, regions, unmapped), clocks + 1, limit)
  {
    if !o.everOpen {
      StarvedQueueStep(o.state.port, i, regions, unmapped);
    }
  }

  lemma {:induction false} OpensSoonRun<P, D, B(!new)>(
    start: PortTracked<P, D, B>, inputs: seq<PortInput<P, D, B>>, regions: seq<Region>, unmapped: B, limit: nat)
    requires RunShape(start) && AllPortsFit(inputs, |start.port.responses|)
    requires OpensSoon(Observe(start, [], regions, unmapped), 0, limit)
    ensures OpensSoon(Observe(start, inputs, regions, unmapped), |inputs|, limit)
  {
    if inputs != [] {
      var n := |inputs| - 1;
      OpensSoonRun(start, inputs[..n], regions, unmapped, limit);
      var o := Observe(start, inputs[..n], regions, unmapped);
      OpensSoonStep(o, inputs[n], regions, unmapped, n, limit);
      assert Observe(start, inputs, regions, unmapped) == ObservedNext(o, inputs[n], regions, unmapped);
    }
  }

  /** In every run of three clocks or more from a state that has no data behind the decoder and whose gate for
      data is closed, the gate opens at some clock if and only if the state is not choked. */
  lemma OpensIffNotChoked<P, D, B(!new)>(
    start: PortTracked<P, D, B>, inputs: seq<PortInput<P, D, B>>, regions: seq<Region>, unmapped: B)
    requires RunShape(start) && AllPortsFit(inputs, |start.port.responses|) && |inputs| >= 3
    requires Starved(start.port) && !start.port.wId.queue.ready
    ensures Observe(start, inputs, regions, unmapped).everOpen <==> !Choked(start.port)
  {
    var q := start.port.wId.queue;
    if Choked(start.port) {
      ChokedStaysClosed(start, inputs, regions, unmapped);
    } else {
      ClosedQueueOpens(q, false, q.out);
      OpensSoonRun(start, inputs, regions, unmapped, OpensIn(q));
    }
  }

  // ----- choked without another address -----

  /** The number of ids that wait for data. */
  function Waiting<P, D, B>(t: PortTracked<P, D, B>): nat {
    Left(|t.track.requests|, t.track.routedW)
  }

  /** Neither an address nor a data word is offered upstream. */
  predicate Quiet<P, D, B>(i: PortInput<P, D, B>) {
    !i.request.valid && !i.data.valid
  }

  /** Nor does one wait there, and no data word is behind the decoder. */
  ghost predicate Dry<P, D, B(!new)>(t: PortTracked<P, D, B>, regions: seq<Region>, unmapped: B) {
    && Live(t, regions, unmapped) && !t.port.frontAw.buffered && !t.port.frontW.buffered
    && t.track.routedW == |t.track.data|
  }

  /** Overfull with ids: choked, or closer to it. */
  ghost predicate Choking<P, D, B(!new)>(t: PortTracked<P, D, B>, regions: seq<Region>, unmapped: B, clocks: nat)
    requires Dry(t, regions, unmapped)
  {
    Waiting(t) > |t.port.wId.queue.memory| ==> Choked(t.port) || ChokeWait(t.port.wId.queue) + clocks <= 5
  }

  lemma QuietCounts<P, D, B(!new)>(
    t: PortTracked<P, D, B>, i: PortInput<P, D, B>, regions: seq<Region>, unmapped: B)
    requires Dry(t, regions, unmapped) && PortFits(t.port, i) && Quiet(i)
    ensures var t' := PortTrackedNext(t, i, regions, unmapped);
            Dry(t', regions, unmapped) && Waiting(t') == Waiting(t)
  {
    LiveStep(t, i, regions, unmapped);
    NoDataRouted(t, i, regions, unmapped);
    SignalsAgree(t.port, i);
  }

  lemma QuietStep<P, D, B(!new)>(
    t: PortTracked<P, D, B>, i: PortInput<P, D, B>, regions: seq<Region>, unmapped: B, clocks: nat)
    requires Dry(t, regions, unmapped) && PortFits(t.port, i) && Quiet(i) && Choking(t, regions, unmapped, clocks)
    ensures var t' := PortTrackedNext(t, i, regions, unmapped);
            && Dry(t', regions, unmapped) && Waiting(t') == Waiting(t)
            && |t'.port.wId.queue.memory| == |t.port.wId.queue.memory|
            && Choking(t', regions, unmapped, clocks + 1)
  {
    QuietCounts(t, i, regions, unmapped);
    ReleasedStep(t, i, regions, unmapped);
    if Choked(t.port) {
      ChokedClock(t, i, regions, unmapped);
    } else if Waiting(t) > |t.port.wId.queue.memory| {
      Holdings(t, regions, unmapped);
      OverfullStep(t, i, regions, unmapped);
    }
  }

  predicate AllQuiet<P, D, B>(inputs: seq<PortInput<P, D, B>>) {
    forall n :: 0 <= n < |inputs| ==> Quiet(inputs[n])
  }

  lemma {:induction false} QuietRun<P, D, B(!new)>(
    start: PortTracked<P, D, B>, inputs: seq<PortInput<P, D, B>>, regions: seq<Region>, unmapped: B)
    requires RunShape(start) && AllPortsFit(inputs, |start.port.responses|) && AllQuiet(inputs)
    requires Dry(start, regions, unmapped) && Choking(start, regions, unmapped, 0)
    ensures var t := PortRun(start, inputs, regions, unmapped);
            && Dry(t, regions, unmapped) && Waiting(t) == Waiting(start)
            && |t.port.wId.queue.memory| == |start.port.wId.queue.memory|
            && Choking(t, regions, unmapped, |inputs|)
  {
    if inputs != [] {
      var n := |inputs| - 1;
      QuietRun(start, inputs[..n], regions, unmapped);
      var t := PortRun(start, inputs[..n], regions, unmapped);
      QuietStep(t, inputs[n], regions, unmapped, n);
      assert PortRun(start, inputs, regions, unmapped) == PortTrackedNext(t, inputs[n], regions, unmapped);
    }
  }

  lemma StartsChoking<P, D, B(!new)>(t: PortTracked<P, D, B>, regions: seq<Region>, unmapped: B)
    requires Dry(t, regions, unmapped)
    ensures Choking(t, regions, unmapped, 0)
  {
    if Waiting(t) > |t.port.wId.queue.memory| {
      Holdings(t, regions, unmapped);
      ChokeStep(t.port.wId, None);
    }
  }

  lemma ChokedOrFits<P, D, B(!new)>(t: PortTracked<P, D, B>, regions: seq<Region>, unmapped: B, clocks: nat)
    requires Dry(t, regions, unmapped) && Choking(t, regions, unmapped, clocks) && clocks > 5
    ensures Choked(t.port) <==> Waiting(t) > |t.port.wId.queue.memory|
  {
    if Choked(t.port) {
      ChokedCounts(t, regions, unmapped);
    }
  }

  /** Exactly when a write half without data chokes by itself: after five clocks or more in which neither an
      address nor data is offered it is choked if and only if more ids wait for data than their queue holds. */
  lemma ChokesIffOverfull<P, D, B(!new)>(
    start: PortTracked<P, D, B>, inputs: seq<PortInput<P, D, B>>, regions: seq<Region>, unmapped: B)
    requires RunShape(start) && AllPortsFit(inputs, |start.port.responses|) && AllQuiet(inputs) && |inputs| > 5
    requires Dry(start, regions, unmapped)
    ensures Choked(PortRun(start, inputs, regions, unmapped).port)
       <==> Waiting(start) > |start.port.wId.queue.memory|
  {
    StartsChoking(start, regions, unmapped);
    QuietRun(start, inputs, regions, unmapped);
    ChokedOrFits(PortRun(start, inputs, regions, unmapped), regions, unmapped, |inputs|);
  }

  // ----- addresses without data choke any write half -----

  /** The slaves take addresses and data, and the upstream port takes responses. */
  predicate Eager<P, D, B>(i: PortInput<P, D, B>) {
    && i.masterReady
    && (forall k :: 0 <= k < |i.slaveAwReady| ==> i.slaveAwReady[k])
    && (forall k :: 0 <= k < |i.slaveWReady| ==> i.slaveWReady[k])
  }

  /** The upstream port offers no data, and an address unless one waits already or more ids wait for data than
      a queue holds. */
  predicate Overruns<P, D, B>(t: PortTracked<P, D, B>, i: PortInput<P, D, B>) {
    && Eager(i) && !i.data.valid
    && (i.request.valid || t.port.frontAw.buffered || Waiting(t) > |t.port.wId.queue.memory|)
  }

  lemma NoneRefused<P, D, B(!new)>(
    t: PortTracked<P, D, B>, i: PortInput<P, D, B>, regions: seq<Region>, unmapped: B)
    requires Live(t, regions, unmapped) && PortFits(t.port, i) && Eager(i)
    ensures !RefusedAw(t.port, i) && !RefusedW(t.port, i)
  {
  }

  /** No data word is in the buffer or behind the decoder, and no write with its data waits for an answer. */
  ghost predicate Ahead<P, D, B(!new)>(t: PortTracked<P, D, B>, regions: seq<Region>, unmapped: B) {
    && Live(t, regions, unmapped) && !t.port.frontW.buffered
    && t.track.routedW == |t.track.data| <= t.track.collected
  }

  lemma StaysAhead<P, D, B(!new)>(
    t: PortTracked<P, D, B>, i: PortInput<P, D, B>, regions: seq<Region>, unmapped: B)
    requires Ahead(t, regions, unmapped) && PortFits(t.port, i) && Overruns(t, i)
    ensures Ahead(PortTrackedNext(t, i, regions, unmapped), regions, unmapped)
  {
    LiveStep(t, i, regions, unmapped);
    Counts(t, i, regions, unmapped);
    NoDataRouted(t, i, regions, unmapped);
  }

  lemma DepthStays<P, D, B>(p: WritePort<P, D, B>, i: PortInput<P, D, B>, regions: seq<Region>)
    requires PortShape(p) && PortFits(p, i) && p.released[0]
    ensures |WIdNext(p, i, regions).queue.memory| == |p.wId.queue.memory|
  {
  }

  lemma WaitingStep<P, D, B(!new)>(
    t: PortTracked<P, D, B>, i: PortInput<P, D, B>, regions: seq<Region>, unmapped: B)
    requires Ahead(t, regions, unmapped) && PortFits(t.port, i) && Overruns(t, i)
    ensures Waiting(PortTrackedNext(t, i, regions, unmapped)) == Waiting(t) + Bit(TakesAw(t.port, i))
  {
    Counts(t, i, regions, unmapped);
    NoDataRouted(t, i, regions, unmapped);
    Holdings(t, regions, unmapped);
  }

  lemma AheadStep<P, D, B(!new)>(
    t: PortTracked<P, D, B>, i: PortInput<P, D, B>, regions: seq<Region>, unmapped: B)
    requires Ahead(t, regions, unmapped) && PortFits(t.port, i) && Overruns(t, i)
    ensures var t' := PortTrackedNext(t, i, regions, unmapped);
            && Ahead(t', regions, unmapped) && Waiting(t') == Waiting(t) + Bit(TakesAw(t.port, i))
            && |t'.port.wId.queue.memory| == |t.port.wId.queue.memory|
  {
    StaysAhead(t, i, regions, unmapped);
    WaitingStep(t, i, regions, unmapped);
    DepthStays(t.port, i, regions);
  }

  /** Until an address passes the decoder. */
  function AddressWait<P, D, B>(p: WritePort<P, D, B>): nat
    requires PortShape(p)
  {
    AddressGateWait(GateWait(p.aw, RouteAwWait(p)), GateWait(p.awId, RouteAwWait(p)), p.wId, p.bId, p.frontAw)
  }

  function AddressGateWait<A>(aw: nat, awId: nat, wId: QueueLane<Id>, bId: QueueLane<Id>, front: Buffer<A>): nat {
    Max(Max(aw, awId), Max(Max(Settle(wId), Settle(bId)), BufferWait(front)))
  }

  lemma AddressReady<P, D, B>(p: WritePort<P, D, B>, i: PortInput<P, D, B>)
    requires PortShape(p) && AddressWait(p) == 0 && (i.request.valid || p.frontAw.buffered)
    ensures TakesAw(p, i)
  {
  }

  lemma AwLaneStep<P, D, B(!new)>(
    t: PortTracked<P, D, B>, i: PortInput<P, D, B>, regions: seq<Region>, unmapped: B)
    requires Live(t, regions, unmapped) && PortFits(t.port, i) && Eager(i) && !TakesAw(t.port, i)
    ensures var p := t.port; var route' := Max(Await(AwNext(p, i)), Await(AwIdNext(p, i, regions)));
            var wait := GateWait(p.aw, RouteAwWait(p));
            GateWait(AwNext(p, i), route') <= (if wait == 0 then 0 else wait - 1)
  {
    var p := t.port;
    var route' := Max(Await(AwNext(p, i)), Await(AwIdNext(p, i, regions)));
    Holdings(t, regions, unmapped);
    NoneRefused(t, i, regions, unmapped);
    assert AwNext(p, i) == QueueLaneNext(p.aw, true, None, TakenOrIdle(p.aw, RoutesAw(p, i)));
    if !RoutesAw(p, i) && Load(p.aw) > |p.aw.queue.memory| {
      RouteAwStep(t, i, regions, unmapped);
    }
    GateStep(p.aw, RouteAwWait(p), route', RoutesAw(p, i));
  }

  lemma FrontStep<T>(b: Buffer<T>, rx: Offer<T>)
    ensures BufferWait(BufferNext(b, rx, Seen(b, rx).None?)) == 0
  {
  }

  lemma AddressGateStep<P, D, B>(
    p: WritePort<P, D, B>, i: PortInput<P, D, B>, regions: seq<Region>, aw': nat, awId': nat,
    front': Buffer<Request<P>>)
    requires PortShape(p) && PortFits(p, i) && p.released[0] && !TakesAw(p, i)
    requires i.request.valid || p.frontAw.buffered
    requires Queues.Inv(p.wId.queue) && Load(p.wId) <= |p.wId.queue.memory|
    requires Queues.Inv(p.bId.queue) && Load(p.bId) <= |p.bId.queue.memory|
    requires var aw := GateWait(p.aw, RouteAwWait(p)); aw' <= (if aw == 0 then 0 else aw - 1)
    requires var awId := GateWait(p.awId, RouteAwWait(p)); awId' <= (if awId == 0 then 0 else awId - 1)
    requires BufferWait(front') == 0
    ensures AddressGateWait(aw', awId', WIdNext(p, i, regions), BIdNext(p, i, regions), front') < AddressWait(p)
  {
    SettleIdLanes(p, i, regions);
    if AddressWait(p) == 0 {
      AddressReady(p, i);
    }
  }

  lemma AddressCloser<P, D, B(!new)>(
    t: PortTracked<P, D, B>, i: PortInput<P, D, B>, regions: seq<Region>, unmapped: B)
    requires Ahead(t, regions, unmapped) && PortFits(t.port, i) && Overruns(t, i) && !TakesAw(t.port, i)
    requires Waiting(t) <= |t.port.wId.queue.memory|
    ensures AddressWait(PortNext(t.port, i, regions, unmapped)) < AddressWait(t.port)
  {
    var p := t.port;
    var route' := Max(Await(AwNext(p, i)), Await(AwIdNext(p, i, regions)));
    var front' := BufferNext(p.frontAw, i.request, Seen(p.frontAw, i.request).None?);
    Holdings(t, regions, unmapped);
    NoneRefused(t, i, regions, unmapped);
    AwGateStep(t, i, regions, unmapped);
    AwLaneStep(t, i, regions, unmapped);
    FrontStep(p.frontAw, i.request);
    AddressGateStep(p, i, regions, GateWait(AwNext(p, i), route'), GateWait(AwIdNext(p, i, regions), route'), front');
  }

  lemma AddressBound<P, D, B(!new)>(t: PortTracked<P, D, B>, regions: seq<Region>, unmapped: B)
    requires Ahead(t, regions, unmapped)
    requires Waiting(t) <= |t.port.wId.queue.memory|
    ensures AddressWait(t.port) <= 24
  {
    var p := t.port;
    Holdings(t, regions, unmapped);
    SettleBound(p.wId);
    SettleBound(p.bId);
    GateBound(p.aw, RouteAwWait(p));
    GateBound(p.awId, RouteAwWait(p));
  }

  lemma ChokeBound<P, D, B(!new)>(t: PortTracked<P, D, B>, regions: seq<Region>, unmapped: B)
    requires Ahead(t, regions, unmapped)
    requires Waiting(t) > |t.port.wId.queue.memory|
    ensures ChokeWait(t.port.wId.queue) <= 5
  {
    Holdings(t, regions, unmapped);
    ChokeStep(t.port.wId, None);
  }

  /** Clocks until an overrun write half is choked: n ids wait for data at a queue of this depth, an address
      passes within address clocks, and a queue with enough of them is closed within choke clocks. */
  function HangClocks(n: nat, depth: nat, address: nat, choke: nat): nat {
    if n <= depth then 26 * (depth + 1 - n) + 6 + address else choke
  }

  lemma HangLess(n: nat, depth: nat, address: nat, choke: nat, taken: bool, address': nat, choke': nat)
    requires n <= depth && taken && n + 1 <= depth ==> address' <= 24
    requires n <= depth && taken && n + 1 > depth ==> choke' <= 5
    requires n <= depth && !taken ==> address' < address
    requires n > depth ==> choke' < choke
    ensures HangClocks(n + Bit(taken), depth, address', choke') < HangClocks(n, depth, address, choke)
  {
  }

  /** Fewer addresses than fill the queue: one more passes, or comes closer. */
  lemma FillFacts<P, D, B(!new)>(
    t: PortTracked<P, D, B>, i: PortInput<P, D, B>, regions: seq<Region>, unmapped: B,
    t': PortTracked<P, D, B>, n: nat, depth: nat)
    requires Ahead(t, regions, unmapped) && PortFits(t.port, i) && Overruns(t, i) && RunShape(t)
    requires n == Waiting(t) <= depth == |t.port.wId.queue.memory|
    requires t' == PortTrackedNext(t, i, regions, unmapped)
    ensures TakesAw(t.port, i) && n + 1 <= depth ==> AddressWait(t'.port) <= 24
    ensures TakesAw(t.port, i) && n + 1 > depth ==> ChokeWait(t'.port.wId.queue) <= 5
    ensures !TakesAw(t.port, i) ==> AddressWait(t'.port) < AddressWait(t.port)
  {
    AheadStep(t, i, regions, unmapped);
    if !TakesAw(t.port, i) {
      AddressCloser(t, i, regions, unmapped);
    } else if n + 1 <= depth {
      AddressBound(t', regions, unmapped);
    } else {
      ChokeBound(t', regions, unmapped);
    }
  }

  lemma CloseStep<P, D, B(!new)>(
    t: PortTracked<P, D, B>, i: PortInput<P, D, B>, regions: seq<Region>, unmapped: B, t': PortTracked<P, D, B>)
    requires Ahead(t, regions, unmapped) && PortFits(t.port, i) && !Choked(t.port) && RunShape(t)
    requires Waiting(t) > |t.port.wId.queue.memory| && t' == PortTrackedNext(t, i, regions, unmapped)
    ensures ChokeWait(t'.port.wId.queue) < ChokeWait(t.port.wId.queue)
  {
    Holdings(t, regions, unmapped);
    OverfullStep(t, i, regions, unmapped);
  }

  lemma HangsCloser<P, D, B(!new)>(
    t: PortTracked<P, D, B>, i: PortInput<P, D, B>, regions: seq<Region>, unmapped: B,
    t': PortTracked<P, D, B>, n: nat, depth: nat)
    requires RunShape(t) && RunShape(t') && PortFits(t.port, i)
    requires n == Waiting(t) && depth == |t.port.wId.queue.memory|
    requires Waiting(t') == n + Bit(TakesAw(t.port, i)) && |t'.port.wId.queue.memory| == depth
    requires n <= depth && TakesAw(t.port, i) && n + 1 <= depth ==> AddressWait(t'.port) <= 24
    requires n <= depth && TakesAw(t.port, i) && n + 1 > depth ==> ChokeWait(t'.port.wId.queue) <= 5
    requires n <= depth && !TakesAw(t.port, i) ==> AddressWait(t'.port) < AddressWait(t.port)
    requires n > depth ==> ChokeWait(t'.port.wId.queue) < ChokeWait(t.port.wId.queue)
    ensures ClocksToHang(t') < ClocksToHang(t)
  {
    HangLess(n, depth, AddressWait(t.port), ChokeWait(t.port.wId.queue), TakesAw(t.port, i),
             AddressWait(t'.port), ChokeWait(t'.port.wId.queue));
  }

  function ClocksToHang<P, D, B>(t: PortTracked<P, D, B>): nat
    requires PortShape(t.port)
  {
    HangClocks(Waiting(t), |t.port.wId.queue.memory|, AddressWait(t.port), ChokeWait(t.port.wId.queue))
  }

  lemma HangNears<P, D, B(!new)>(
    t: PortTracked<P, D, B>, i: PortInput<P, D, B>, regions: seq<Region>, unmapped: B)
    requires RunShape(t) && PortFits(t.port, i) && Overruns(t, i) && !Choked(t.port) && Ahead(t, regions, unmapped)
    ensures ClocksToHang(PortTrackedNext(t, i, regions, unmapped)) < ClocksToHang(t)
  {
    var t' := PortTrackedNext(t, i, regions, unmapped);
    AheadStep(t, i, regions, unmapped);
    if Waiting(t) <= |t.port.wId.queue.memory| {
      FillFacts(t, i, regions, unmapped, t', Waiting(t), |t.port.wId.queue.memory|);
    } else {
      CloseStep(t, i, regions, unmapped, t');
    }
    HangsCloser(t, i, regions, unmapped, t', Waiting(t), |t.port.wId.queue.memory|);
  }

  lemma HangBound<P, D, B(!new)>(t: PortTracked<P, D, B>, regions: seq<Region>, unmapped: B)
    requires Ahead(t, regions, unmapped)
    ensures ClocksToHang(t) <= 26 * |t.port.wId.queue.memory| + 56
  {
    Holdings(t, regions, unmapped);
    if Waiting(t) <= |t.port.wId.queue.memory| {
      AddressBound(t, regions, unmapped);
    } else {
      ChokeBound(t, regions, unmapped);
    }
  }

  /** Without data upstream none gets behind the decoder. */
  lemma NoDataStep<P, D, B(!new)>(
    t: PortTracked<P, D, B>, i: PortInput<P, D, B>, regions: seq<Region>, unmapped: B)
    requires PortInv(t, regions, unmapped) && PortFits(t.port, i) && !i.data.valid
    requires !t.port.frontW.buffered && t.track.data == []
    ensures var t' := PortTrackedNext(t, i, regions, unmapped); !t'.port.frontW.buffered && t'.track.data == []
  {
  }

  /** Still in reset, without data. */
  ghost predicate Dark<P, D, B(!new)>(t: PortTracked<P, D, B>, regions: seq<Region>, unmapped: B) {
    && PortInv(t, regions, unmapped) && !t.port.released[0] && |t.port.responses| == |regions|
    && |t.port.bId.queue.memory| == |t.port.wId.queue.memory|
    && t.track.data == [] && !t.port.frontW.buffered
  }

  function DarkClocks<P, D, B>(t: PortTracked<P, D, B>): nat {
    26 * |t.port.wId.queue.memory| + (if t.port.released == [false, true] then 57 else 58)
  }

  lemma IsAhead<P, D, B(!new)>(t: PortTracked<P, D, B>, regions: seq<Region>, unmapped: B)
    requires Live(t, regions, unmapped) && t.track.data == [] && !t.port.frontW.buffered
    ensures Ahead(t, regions, unmapped)
  {
    Holdings(t, regions, unmapped);
  }

  /** The synchronizer of the resets has moved on. */
  lemma DarkNext<P, D, B(!new)>(
    t: PortTracked<P, D, B>, t': PortTracked<P, D, B>, regions: seq<Region>, unmapped: B)
    requires |t.port.released| == 2 && t'.port.released == t.port.released[1..] + [true] && !t.port.released[0]
    requires |t'.port.bId.queue.memory| == |t'.port.wId.queue.memory| == |t.port.wId.queue.memory|
    requires PortInv(t', regions, unmapped) && |t'.port.responses| == |regions|
    requires t'.track.data == [] && !t'.port.frontW.buffered
    ensures if t.port.released[1] then Ahead(t', regions, unmapped) && ClocksToHang(t') < DarkClocks(t)
            else Dark(t', regions, unmapped) && DarkClocks(t') < DarkClocks(t)
  {
    if t.port.released[1] {
      IsAhead(t', regions, unmapped);
      HangBound(t', regions, unmapped);
    }
  }

  lemma DarkStep<P, D, B(!new)>(
    t: PortTracked<P, D, B>, i: PortInput<P, D, B>, regions: seq<Region>, unmapped: B)
    requires Dark(t, regions, unmapped) && RunShape(t) && PortFits(t.port, i) && !i.data.valid
    ensures var t' := PortTrackedNext(t, i, regions, unmapped);
            if t.port.released[1] then Ahead(t', regions, unmapped) && ClocksToHang(t') < DarkClocks(t)
            else Dark(t', regions, unmapped) && DarkClocks(t') < DarkClocks(t)
  {
    PortStepInv(t, i, regions, unmapped);
    ReleasedStep(t, i, regions, unmapped);
    NoDataStep(t, i, regions, unmapped);
    DarkNext(t, PortTrackedNext(t, i, regions, unmapped), regions, unmapped);
  }

  /** Choked, or still on the way there. */
  ghost predicate Hanging<P, D, B(!new)>(t: PortTracked<P, D, B>, regions: seq<Region>, unmapped: B,
                                         elapsed: nat, limit: nat) {
    || Choked(t.port)
    || (Ahead(t, regions, unmapped) && ClocksToHang(t) + elapsed <= limit)
    || (Dark(t, regions, unmapped) && DarkClocks(t) + elapsed <= limit)
  }

  lemma HangStep<P, D, B(!new)>(
    t: PortTracked<P, D, B>, i: PortInput<P, D, B>, regions: seq<Region>, unmapped: B, elapsed: nat, limit: nat)
    requires RunShape(t) && PortFits(t.port, i) && Overruns(t, i) && Hanging(t, regions, unmapped, elapsed, limit)
    ensures Hanging(PortTrackedNext(t, i, regions, unmapped), regions, unmapped, elapsed + 1, limit)
  {
    if Choked(t.port) {
      ChokedClock(t, i, regions, unmapped);
    } else if Dark(t, regions, unmapped) {
      DarkStep(t, i, regions, unmapped);
    } else {
      StaysAhead(t, i, regions, unmapped);
      HangNears(t, i, regions, unmapped);
    }
  }

  /** How far the addresses are ahead of data. */
  function LeadNow<P, D, B>(t: PortTracked<P, D, B>): nat {
    Left(|t.addresses|, |t.data|)
  }

  /** What the upstream port has done so far: overruns says that it has overrun the write half at every clock,
      lead is the furthest the addresses have been ahead of data. */
  datatype Upstream<P, D, B> = Upstream(state: PortTracked<P, D, B>, overruns: bool, lead: nat)

  function UpstreamNext<P, D, B>(
    u: Upstream<P, D, B>, i: PortInput<P, D, B>, regions: seq<Region>, unmapped: B): (u': Upstream<P, D, B>)
    requires RunShape(u.state) && PortFits(u.state.port, i)
    ensures RunShape(u'.state) && |u'.state.port.responses| == |u.state.port.responses|
  {
    var t' := PortTrackedNext(u.state, i, regions, unmapped);
    Upstream(t', u.overruns && Overruns(u.state, i), Max(u.lead, LeadNow(t')))
  }

  /** A run with the account of its upstream port. */
  function Follow<P, D, B>(start: PortTracked<P, D, B>, inputs: seq<PortInput<P, D, B>>, regions: seq<Region>,
                           unmapped: B): (u: Upstream<P, D, B>)
    requires RunShape(start) && AllPortsFit(inputs, |start.port.responses|)
    ensures RunShape(u.state) && |u.state.port.responses| == |start.port.responses|
  {
    if inputs == [] then Upstream(start, true, LeadNow(start)) else
    UpstreamNext(Follow(start, inputs[..|inputs| - 1], regions, unmapped), inputs[|inputs| - 1], regions, unmapped)
  }

  lemma {:induction false} FollowIsRun<P, D, B>(start: PortTracked<P, D, B>, inputs: seq<PortInput<P, D, B>>,
                                                regions: seq<Region>, unmapped: B)
    requires RunShape(start) && AllPortsFit(inputs, |start.port.responses|)
    ensures Follow(start, inputs, regions, unmapped).state == PortRun(start, inputs, regions, unmapped)
  {
    if inputs != [] {
      var n := |inputs| - 1;
      var u := Follow(start, inputs[..n], regions, unmapped);
      FollowIsRun(start, inputs[..n], regions, unmapped);
      assert Follow(start, inputs, regions, unmapped) == UpstreamNext(u, inputs[n], regions, unmapped);
      assert PortRun(start, inputs, regions, unmapped) == PortTrackedNext(u.state, inputs[n], regions, unmapped);
    }
  }

  ghost predicate OverrunHanging<P, D, B(!new)>(u: Upstream<P, D, B>, regions: seq<Region>, unmapped: B,
                                                elapsed: nat, limit: nat) {
    u.overruns ==> Hanging(u.state, regions, unmapped, elapsed, limit)
  }

  lemma OverrunHangStep<P, D, B(!new)>(
    u: Upstream<P, D, B>, i: PortInput<P, D, B>, u': Upstream<P, D, B>, regions: seq<Region>, unmapped: B,
    elapsed: nat, limit: nat)
    requires RunShape(u.state) && PortFits(u.state.port, i) && u' == UpstreamNext(u, i, regions, unmapped)
    requires OverrunHanging(u, regions, unmapped, elapsed, limit)
    ensures OverrunHanging(u', regions, unmapped, elapsed + 1, limit)
  {
    if u.overruns && Overruns(u.state, i) {
      HangStep(u.state, i, regions, unmapped, elapsed, limit);
    }
  }

  lemma {:induction false} HangRun<P, D, B(!new)>(
    start: PortTracked<P, D, B>, inputs: seq<PortInput<P, D, B>>, regions: seq<Region>, unmapped: B, limit: nat)
    requires RunShape(start) && AllPortsFit(inputs, |start.port.responses|)
    requires OverrunHanging(Follow(start, [], regions, unmapped), regions, unmapped, 0, limit)
    ensures OverrunHanging(Follow(start, inputs, regions, unmapped), regions, unmapped, |inputs|, limit)
  {
    if inputs == [] {
      assert Follow(start, inputs, regions, unmapped) == Follow(start, [], regions, unmapped);
    } else {
      var n := |inputs| - 1;
      HangRun(start, inputs[..n], regions, unmapped, limit);
      var u, u' := Follow(start, inputs[..n], regions, unmapped), Follow(start, inputs, regions, unmapped);
      assert u' == UpstreamNext(u, inputs[n], regions, unmapped);
      OverrunHangStep(u, inputs[n], u', regions, unmapped, n, limit);
    }
  }

  lemma HangEnd<P, D, B(!new)>(
    u: Upstream<P, D, B>, regions: seq<Region>, unmapped: B, elapsed: nat, limit: nat)
    requires OverrunHanging(u, regions, unmapped, elapsed, limit) && u.overruns && elapsed > limit
    ensures Choked(u.state.port)
  {
  }

  lemma OverrunLong<P, D, B(!new)>(
    start: PortTracked<P, D, B>, inputs: seq<PortInput<P, D, B>>, regions: seq<Region>, unmapped: B, limit: nat)
    requires RunShape(start) && AllPortsFit(inputs, |start.port.responses|) && |inputs| > limit
    requires Hanging(start, regions, unmapped, 0, limit) && Follow(start, inputs, regions, unmapped).overruns
    ensures Choked(PortRun(start, inputs, regions, unmapped).port)
  {
    assert Follow(start, [], regions, unmapped) == Upstream(start, true, LeadNow(start));
    HangRun(start, inputs, regions, unmapped, limit);
    HangEnd(Follow(start, inputs, regions, unmapped), regions, unmapped, |inputs|, limit);
    FollowIsRun(start, inputs, regions, unmapped);
  }

  lemma StartHanging<P, D, B(!new)>(t: PortTracked<P, D, B>, regions: seq<Region>, unmapped: B, limit: nat)
    requires PortStart(t, |regions|) && RunShape(t) && |t.port.bId.queue.memory| == |t.port.wId.queue.memory|
    requires limit == 26 * |t.port.wId.queue.memory| + 58
    ensures Hanging(t, regions, unmapped, 0, limit)
  {
    PortStartInv(t, regions, unmapped);
  }

  /** From any such state an upstream port that offers addresses and no data, until more of them wait than a
      queue holds, chokes the write half. */
  lemma OverrunHangs<P, D, B(!new)>(
    start: PortTracked<P, D, B>, inputs: seq<PortInput<P, D, B>>, regions: seq<Region>, unmapped: B)
    requires Ahead(start, regions, unmapped) && RunShape(start) && AllPortsFit(inputs, |regions|)
    requires Follow(start, inputs, regions, unmapped).overruns
    requires |inputs| >= 26 * |start.port.wId.queue.memory| + 57
    ensures Choked(PortRun(start, inputs, regions, unmapped).port)
  {
    HangBound(start, regions, unmapped);
    OverrunLong(start, inputs, regions, unmapped, 26 * |start.port.wId.queue.memory| + 56);
  }

  /** Main result on the failure of progress: from power up, with slaves that take everything at once, an
      upstream port that offers addresses and no data, until more of them wait than a queue holds, chokes the
      write half within 26 clocks per place of a queue and 59 more, whatever its capacity and map; data offered
      later never gets through. */
  lemma PowerUpHangs<P, D, B(!new)>(
    start: PortTracked<P, D, B>, inputs: seq<PortInput<P, D, B>>, regions: seq<Region>, unmapped: B)
    requires PortStart(start, |regions|) && RunShape(start) && AllPortsFit(inputs, |regions|)
    requires |start.port.bId.queue.memory| == |start.port.wId.queue.memory|
    requires Follow(start, inputs, regions, unmapped).overruns
    requires |inputs| >= 26 * |start.port.wId.queue.memory| + 59
    ensures Choked(PortRun(start, inputs, regions, unmapped).port)
  {
    StartHanging(start, regions, unmapped, 26 * |start.port.wId.queue.memory| + 58);
    OverrunLong(start, inputs, regions, unmapped, 26 * |start.port.wId.queue.memory| + 58);
  }
}
