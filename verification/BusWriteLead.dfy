/** How far addresses may be ahead of data: by one queue they are safe, by one more they can hang the write half. */
module BusWriteLead {
  import opened Wrapping
  import opened Streams
  import opened Stages
  import opened BusParts
  import opened BusPorts
  import opened BusWritePort
  import opened BusWaits
  import opened BusWriteChoke
  import opened BusWriteProgress
  import opened BusWriteHang
  import Queues

  /** All queues have one capacity. */
  predicate SameDepth<P, D, B>(p: WritePort<P, D, B>, depth: nat) {
    |p.w.queue.memory| == |p.wId.queue.memory| == |p.bId.queue.memory| == depth
  }

  lemma DepthsStay<P, D, B>(p: WritePort<P, D, B>, i: PortInput<P, D, B>, regions: seq<Region>, unmapped: B, depth: nat)
    requires PortShape(p) && PortFits(p, i) && SameDepth(p, depth)
    ensures SameDepth(PortNext(p, i, regions, unmapped), depth)
  {
  }

  // ----- a lead of one queue -----

  /** A queue is refused only near full, counting what has just left its memory. */
  lemma OpenOrFull<T>(l: QueueLane<T>, load: Option<T>, txReady: bool)
    requires Queues.Inv(l.queue)
    ensures var l' := QueueLaneNext(l, true, load, txReady); l'.queue.ready || Load(l') + 1 >= |l.queue.memory|
  {
    var data := if l.reg.Some? then l.reg.value else l.queue.out;
    Queues.FlagsAreExact(l.queue, l.reg.Some?);
    Queues.CapacityStep(l.queue, l.reg.Some?, data, txReady);
  }

  /** While ids pass, the lane for data takes a word unless it is nearly full. */
  predicate Awake<P, D, B>(p: WritePort<P, D, B>, depth: nat) {
    p.wId.queue.ready ==> p.w.queue.ready || Load(p.w) + 1 >= depth
  }

  lemma AwakeSoon<P, D, B>(p: WritePort<P, D, B>, i: PortInput<P, D, B>, regions: seq<Region>, unmapped: B, depth: nat)
    requires PortShape(p) && PortFits(p, i) && LanesInv(p) && SameDepth(p, depth)
    ensures Awake(PortNext(p, i, regions, unmapped), depth)
  {
    if p.released[0] {
      OpenOrFull(p.w, if LanesReady(p) then Seen(p.frontW, i.data) else None, TakenOrIdle(p.w, RoutesW(p, i)));
    }
  }

  /** No more ids wait for data than their queue holds. */
  ghost predicate Abreast<P, D, B(!new)>(t: PortTracked<P, D, B>, regions: seq<Region>, unmapped: B, depth: nat) {
    && PortInv(t, regions, unmapped) && SameDepth(t.port, depth) && Awake(t.port, depth)
    && |t.track.requests| <= |t.track.data| + depth
  }

  lemma AbreastIsNotChoked<P, D, B(!new)>(t: PortTracked<P, D, B>, regions: seq<Region>, unmapped: B, depth: nat)
    requires Abreast(t, regions, unmapped, depth)
    ensures !Choked(t.port)
  {
    if Choked(t.port) {
      ChokedCounts(t, regions, unmapped);
    }
  }

  lemma Passing<P, D, B(!new)>(t: PortTracked<P, D, B>, i: PortInput<P, D, B>, regions: seq<Region>, unmapped: B)
    requires PortInv(t, regions, unmapped) && PortFits(t.port, i)
    ensures var b' := PortTrackedNext(t, i, regions, unmapped).track;
            && |b'.requests| == |t.track.requests| + Bit(TakesAw(t.port, i))
            && |b'.data| == |t.track.data| + Bit(TakesW(t.port, i))
  {
  }

  /** With the gate open and as many ids waiting for data as their queue holds, the lane for data is not nearly full. */
  lemma RoomForData<P, D, B(!new)>(t: PortTracked<P, D, B>, regions: seq<Region>, unmapped: B, depth: nat)
    requires Abreast(t, regions, unmapped, depth) && depth >= 4
    requires |t.track.requests| == |t.track.data| + depth && t.port.wId.queue.ready
    ensures t.port.w.queue.ready
  {
    Holdings(t, regions, unmapped);
  }

  /** A data word in the buffer passes with the address that fills the queue. */
  lemma PassesAlong<P, D, B>(p: WritePort<P, D, B>, i: PortInput<P, D, B>, regions: seq<Region>, unmapped: B)
    requires PortShape(p) && PortFits(p, i) && TakesAw(p, i) && p.w.queue.ready
    ensures !PortNext(p, i, regions, unmapped).frontW.buffered
  {
  }

  lemma LeadStep<P, D, B(!new)>(
    t: PortTracked<P, D, B>, i: PortInput<P, D, B>, regions: seq<Region>, unmapped: B, depth: nat)
    requires Abreast(t, regions, unmapped, depth) && RunShape(t) && PortFits(t.port, i) && depth >= 4
    requires LeadNow(PortTrackedNext(t, i, regions, unmapped)) <= depth
    ensures var b' := PortTrackedNext(t, i, regions, unmapped).track; |b'.requests| <= |b'.data| + depth
  {
    var t' := PortTrackedNext(t, i, regions, unmapped);
    Passing(t, i, regions, unmapped);
    if |t'.track.requests| > |t'.track.data| + depth {
      PortStepInv(t, i, regions, unmapped);
      Holdings(t', regions, unmapped);
      RoomForData(t, regions, unmapped, depth);
      PassesAlong(t.port, i, regions, unmapped);
      assert false;
    }
  }

  lemma AbreastStep<P, D, B(!new)>(
    t: PortTracked<P, D, B>, i: PortInput<P, D, B>, regions: seq<Region>, unmapped: B, depth: nat)
    requires Abreast(t, regions, unmapped, depth) && RunShape(t) && PortFits(t.port, i) && depth >= 4
    requires LeadNow(PortTrackedNext(t, i, regions, unmapped)) <= depth
    ensures Abreast(PortTrackedNext(t, i, regions, unmapped), regions, unmapped, depth)
  {
    PortStepInv(t, i, regions, unmapped);
    DepthsStay(t.port, i, regions, unmapped, depth);
    AwakeSoon(t.port, i, regions, unmapped, depth);
    LeadStep(t, i, regions, unmapped, depth);
  }

  ghost predicate AbreastSoFar<P, D, B(!new)>(u: Upstream<P, D, B>, regions: seq<Region>, unmapped: B, depth: nat) {
    u.lead <= depth ==> Abreast(u.state, regions, unmapped, depth)
  }

  lemma AbreastSoFarStep<P, D, B(!new)>(
    u: Upstream<P, D, B>, i: PortInput<P, D, B>, u': Upstream<P, D, B>, regions: seq<Region>, unmapped: B, depth: nat)
    requires AbreastSoFar(u, regions, unmapped, depth) && RunShape(u.state) && PortFits(u.state.port, i) && depth >= 4
    requires u' == UpstreamNext(u, i, regions, unmapped)
    ensures AbreastSoFar(u', regions, unmapped, depth)
  {
    if u'.lead <= depth {
      AbreastStep(u.state, i, regions, unmapped, depth);
    }
  }

  lemma {:induction false} AbreastRun<P, D, B(!new)>(
    start: PortTracked<P, D, B>, inputs: seq<PortInput<P, D, B>>, regions: seq<Region>, unmapped: B, depth: nat)
    requires RunShape(start) && AllPortsFit(inputs, |start.port.responses|) && depth >= 4
    requires AbreastSoFar(Follow(start, [], regions, unmapped), regions, unmapped, depth)
    ensures AbreastSoFar(Follow(start, inputs, regions, unmapped), regions, unmapped, depth)
  {
    if inputs == [] {
      assert Follow(start, inputs, regions, unmapped) == Follow(start, [], regions, unmapped);
    } else {
      var n := |inputs| - 1;
      AbreastRun(start, inputs[..n], regions, unmapped, depth);
      var u, u' := Follow(start, inputs[..n], regions, unmapped), Follow(start, inputs, regions, unmapped);
      assert u' == UpstreamNext(u, inputs[n], regions, unmapped);
      AbreastSoFarStep(u, inputs[n], u', regions, unmapped, depth);
    }
  }

  lemma StartAbreast<P, D, B(!new)>(t: PortTracked<P, D, B>, regions: seq<Region>, unmapped: B, depth: nat)
    requires PortStart(t, |regions|) && PortShape(t.port) && SameDepth(t.port, depth)
    ensures Abreast(t, regions, unmapped, depth)
  {
    PortStartInv(t, regions, unmapped);
  }

  /** From power up, with addresses never more than a queue ahead of data, the write half is never choked. */
  lemma LeadIsSafe<P, D, B(!new)>(
    start: PortTracked<P, D, B>, inputs: seq<PortInput<P, D, B>>, regions: seq<Region>, unmapped: B, depth: nat)
    requires PortStart(start, |regions|) && RunShape(start) && SameDepth(start.port, depth) && depth >= 4
    requires AllPortsFit(inputs, |regions|) && Follow(start, inputs, regions, unmapped).lead <= depth
    ensures Abreast(PortRun(start, inputs, regions, unmapped), regions, unmapped, depth)
    ensures !Choked(PortRun(start, inputs, regions, unmapped).port)
  {
    StartAbreast(start, regions, unmapped, depth);
    AbreastRun(start, inputs, regions, unmapped, depth);
    FollowIsRun(start, inputs, regions, unmapped);
    AbreastIsNotChoked(PortRun(start, inputs, regions, unmapped), regions, unmapped, depth);
  }

  /** At any time of such a run all complete writes are answered in the time of ServedOrChoked. */
  lemma LeadIsServed<P, D, B(!new)>(
    start: PortTracked<P, D, B>, before: seq<PortInput<P, D, B>>, inputs: seq<PortInput<P, D, B>>,
    regions: seq<Region>, unmapped: B, depth: nat, most: nat, n: nat)
    requires PortStart(start, |regions|) && RunShape(start) && SameDepth(start.port, depth) && depth >= 4
    requires AllPortsFit(before, |regions|) && Follow(start, before, regions, unmapped).lead <= depth
    requires var t := PortRun(start, before, regions, unmapped);
             && RunShape(t) && Live(t, regions, unmapped) && AllPortsFit(inputs, |regions|)
             && Follow(t, inputs, regions, unmapped).lead <= depth
             && Watch(t, inputs, regions, unmapped).tally.longest <= most
             && n == Outstanding(t) && |inputs| >= Allowance(156 + most, n)
    ensures var t := PortRun(start, before, regions, unmapped);
            |PortRun(t, inputs, regions, unmapped).track.returned| >= Complete(t)
  {
    LeadIsSafe(start, before, regions, unmapped, depth);
    StaysServed(PortRun(start, before, regions, unmapped), inputs, regions, unmapped, depth, most, n);
  }

  lemma StaysServed<P, D, B(!new)>(
    t: PortTracked<P, D, B>, inputs: seq<PortInput<P, D, B>>, regions: seq<Region>, unmapped: B, depth: nat,
    most: nat, n: nat)
    requires Abreast(t, regions, unmapped, depth) && depth >= 4 && RunShape(t) && Live(t, regions, unmapped)
    requires AllPortsFit(inputs, |regions|)
    requires Follow(t, inputs, regions, unmapped).lead <= depth
    requires Watch(t, inputs, regions, unmapped).tally.longest <= most
    requires n == Outstanding(t) && |inputs| >= Allowance(156 + most, n)
    ensures |PortRun(t, inputs, regions, unmapped).track.returned| >= Complete(t)
  {
    ServedOrChoked(t, inputs, regions, unmapped, most, n);
    AbreastRun(t, inputs, regions, unmapped, depth);
    FollowIsRun(t, inputs, regions, unmapped);
    AbreastIsNotChoked(PortRun(t, inputs, regions, unmapped), regions, unmapped, depth);
  }

  // ----- a lead of one more -----

  /** The slaves take everything and answer nothing. */
  function Silent<P, D, B>(request: Offer<Request<P>>, data: Offer<D>, response: B, slaves: nat): PortInput<P, D, B> {
    PortInput(request, data, seq(slaves, _ => true), seq(slaves, _ => true),
              seq(slaves, _ => Offer(false, response)), true)
  }

  /** No data, and depth + 1 addresses at most. */
  function Press<P, D, B>(t: PortTracked<P, D, B>, request: Request<P>, data: D, response: B): PortInput<P, D, B> {
    Silent(Offer(|t.addresses| <= |t.port.wId.queue.memory|, request), Offer(false, data), response, |t.port.responses|)
  }

  function Presses<P, D, B>(start: PortTracked<P, D, B>, n: nat, request: Request<P>, data: D, regions: seq<Region>,
                            unmapped: B): (inputs: seq<PortInput<P, D, B>>)
    requires RunShape(start)
    ensures |inputs| == n && AllPortsFit(inputs, |start.port.responses|)
  {
    if n == 0 then [] else
    var inputs := Presses(start, n - 1, request, data, regions, unmapped);
    inputs + [Press(Follow(start, inputs, regions, unmapped).state, request, data, unmapped)]
  }

  /** Only addresses have come, all the same, and at most depth + 1. */
  ghost predicate Pressed<P, D, B(!new)>(t: PortTracked<P, D, B>, request: Request<P>, regions: seq<Region>,
                                         unmapped: B, depth: nat) {
    && PortInv(t, regions, unmapped) && SameDepth(t.port, depth)
    && t.track.data == [] && !t.port.frontW.buffered
    && |t.addresses| <= depth + 1 && AllEqual(t.addresses, request)
  }

  ghost predicate AllEqual<T>(s: seq<T>, word: T) {
    forall k :: 0 <= k < |s| ==> s[k] == word
  }

  lemma PressOverruns<P, D, B(!new)>(
    t: PortTracked<P, D, B>, request: Request<P>, data: D, regions: seq<Region>, unmapped: B, depth: nat)
    requires Pressed(t, request, regions, unmapped, depth)
    ensures Overruns(t, Press(t, request, data, unmapped))
  {
    Holdings(t, regions, unmapped);
  }

  lemma PressAddresses<T>(addresses: seq<T>, word: T, ready: bool, most: nat)
    requires |addresses| <= most + 1 && AllEqual(addresses, word)
    ensures var addresses' := addresses + Handshake(Offer(|addresses| <= most, word), ready);
            |addresses'| <= most + 1 && AllEqual(addresses', word)
  {
  }

  lemma PressStep<P, D, B(!new)>(
    t: PortTracked<P, D, B>, i: PortInput<P, D, B>, request: Request<P>, data: D, regions: seq<Region>, unmapped: B,
    depth: nat)
    requires Pressed(t, request, regions, unmapped, depth) && RunShape(t) && PortFits(t.port, i)
    requires i == Press(t, request, data, unmapped)
    ensures Pressed(PortTrackedNext(t, i, regions, unmapped), request, regions, unmapped, depth)
  {
    PortStepInv(t, i, regions, unmapped);
    DepthsStay(t.port, i, regions, unmapped, depth);
    NoDataStep(t, i, regions, unmapped);
    PressAddresses(t.addresses, request, t.port.frontAw.ready, depth);
  }

  ghost predicate PressedSoFar<P, D, B(!new)>(u: Upstream<P, D, B>, request: Request<P>, regions: seq<Region>,
                                              unmapped: B, depth: nat) {
    Pressed(u.state, request, regions, unmapped, depth) && u.overruns && u.lead <= depth + 1
  }

  lemma PressSoFarStep<P, D, B(!new)>(
    u: Upstream<P, D, B>, i: PortInput<P, D, B>, request: Request<P>, data: D, regions: seq<Region>, unmapped: B,
    depth: nat)
    requires PressedSoFar(u, request, regions, unmapped, depth) && RunShape(u.state) && PortFits(u.state.port, i)
    requires i == Press(u.state, request, data, unmapped)
    ensures PressedSoFar(UpstreamNext(u, i, regions, unmapped), request, regions, unmapped, depth)
  {
    PressOverruns(u.state, request, data, regions, unmapped, depth);
    PressStep(u.state, i, request, data, regions, unmapped, depth);
  }

  lemma {:induction false} PressRun<P, D, B(!new)>(
    start: PortTracked<P, D, B>, n: nat, request: Request<P>, data: D, regions: seq<Region>, unmapped: B, depth: nat)
    requires RunShape(start) && PressedSoFar(Follow(start, [], regions, unmapped), request, regions, unmapped, depth)
    ensures var u := Follow(start, Presses(start, n, request, data, regions, unmapped), regions, unmapped);
            PressedSoFar(u, request, regions, unmapped, depth)
  {
    if n > 0 {
      PressRun(start, n - 1, request, data, regions, unmapped, depth);
      var inputs := Presses(start, n - 1, request, data, regions, unmapped);
      var u := Follow(start, inputs, regions, unmapped);
      var i := Press(u.state, request, data, unmapped);
      PressSoFarStep(u, i, request, data, regions, unmapped, depth);
      FollowMore(start, inputs, i, regions, unmapped);
    }
  }

  lemma FollowMore<P, D, B>(
    start: PortTracked<P, D, B>, inputs: seq<PortInput<P, D, B>>, i: PortInput<P, D, B>, regions: seq<Region>,
    unmapped: B)
    requires RunShape(start) && AllPortsFit(inputs, |start.port.responses|) && PortFits(start.port, i)
    ensures AllPortsFit(inputs + [i], |start.port.responses|)
    ensures Follow(start, inputs + [i], regions, unmapped)
         == UpstreamNext(Follow(start, inputs, regions, unmapped), i, regions, unmapped)
  {
    assert (inputs + [i])[..|inputs|] == inputs;
  }

  /** Choked with addresses only, or with the first data word in the buffer. */
  ghost predicate Blocked<P, D, B(!new)>(u: Upstream<P, D, B>, request: Request<P>, regions: seq<Region>, unmapped: B,
                                         depth: nat) {
    && RunShape(u.state) && PortInv(u.state, regions, unmapped) && Choked(u.state.port) && u.lead <= depth + 1
    && u.state.track.data == [] && 0 < |u.state.addresses| <= depth + 1 && AllEqual(u.state.addresses, request)
  }

  lemma DataArrives<P, D, B(!new)>(
    t: PortTracked<P, D, B>, i: PortInput<P, D, B>, regions: seq<Region>, unmapped: B)
    requires RunShape(t) && PortFits(t.port, i) && i.data.valid
    ensures var t' := PortTrackedNext(t, i, regions, unmapped);
            && |t'.data| >= |t.data| && (t.port.frontW.ready ==> |t'.data| > 0)
            && (t.port.frontW.buffered || t.port.frontW.ready || t'.port.frontW.ready)
  {
  }

  lemma NoAddress<P, D, B(!new)>(
    t: PortTracked<P, D, B>, i: PortInput<P, D, B>, regions: seq<Region>, unmapped: B)
    requires RunShape(t) && PortFits(t.port, i) && !i.request.valid
    ensures PortTrackedNext(t, i, regions, unmapped).addresses == t.addresses
  {
  }

  lemma BlockedNext<P, D, B(!new)>(
    u: Upstream<P, D, B>, u': Upstream<P, D, B>, request: Request<P>, regions: seq<Region>, unmapped: B, depth: nat)
    requires Blocked(u, request, regions, unmapped, depth) && u'.lead == Max(u.lead, LeadNow(u'.state))
    requires RunShape(u'.state) && PortInv(u'.state, regions, unmapped) && Choked(u'.state.port)
    requires u'.state.addresses == u.state.addresses && u'.state.track.data == u.state.track.data
    ensures Blocked(u', request, regions, unmapped, depth)
  {
  }

  lemma BlockedStep<P, D, B(!new)>(
    u: Upstream<P, D, B>, i: PortInput<P, D, B>, request: Request<P>, regions: seq<Region>, unmapped: B, depth: nat)
    requires Blocked(u, request, regions, unmapped, depth) && PortFits(u.state.port, i) && !i.request.valid
    ensures Blocked(UpstreamNext(u, i, regions, unmapped), request, regions, unmapped, depth)
  {
    PortStepInv(u.state, i, regions, unmapped);
    ChokedClock(u.state, i, regions, unmapped);
    NoAddress(u.state, i, regions, unmapped);
    BlockedNext(u, UpstreamNext(u, i, regions, unmapped), request, regions, unmapped, depth);
  }

  /** Two clocks bring a data word into the buffer. */
  lemma BlockedSoon<P, D, B(!new)>(
    u: Upstream<P, D, B>, i: PortInput<P, D, B>, request: Request<P>, regions: seq<Region>, unmapped: B, depth: nat)
    requires Blocked(u, request, regions, unmapped, depth) && PortFits(u.state.port, i)
    requires !i.request.valid && i.data.valid
    ensures var u' := UpstreamNext(UpstreamNext(u, i, regions, unmapped), i, regions, unmapped);
            Blocked(u', request, regions, unmapped, depth) && |u'.state.data| > 0
  {
    var u' := UpstreamNext(u, i, regions, unmapped);
    BlockedStep(u, i, request, regions, unmapped, depth);
    BlockedStep(u', i, request, regions, unmapped, depth);
    DataArrives(u.state, i, regions, unmapped);
    DataArrives(u'.state, i, regions, unmapped);
    Holdings(u.state, regions, unmapped);
  }

  lemma BlockedIsStuck<P, D, B(!new)>(
    u: Upstream<P, D, B>, request: Request<P>, regions: seq<Region>, unmapped: B, depth: nat)
    requires Blocked(u, request, regions, unmapped, depth) && |u.state.data| > 0
    requires Decode(regions, request.address).Some?
    ensures Complete(u.state) == 1 && Stuck(u.state, regions, 1)
  {
    Holdings(u.state, regions, unmapped);
  }

  lemma PressedIsBlocked<P, D, B(!new)>(
    u: Upstream<P, D, B>, request: Request<P>, regions: seq<Region>, unmapped: B, depth: nat)
    requires RunShape(u.state) && PressedSoFar(u, request, regions, unmapped, depth) && Choked(u.state.port)
    ensures Blocked(u, request, regions, unmapped, depth)
  {
    ChokedCounts(u.state, regions, unmapped);
  }

  lemma StartPressed<P, D, B(!new)>(
    start: PortTracked<P, D, B>, request: Request<P>, regions: seq<Region>, unmapped: B, depth: nat)
    requires PortStart(start, |regions|) && RunShape(start) && SameDepth(start.port, depth)
    ensures PressedSoFar(Follow(start, [], regions, unmapped), request, regions, unmapped, depth)
  {
    PortStartInv(start, regions, unmapped);
  }

  lemma PressedBlocks<P, D, B(!new)>(
    start: PortTracked<P, D, B>, inputs: seq<PortInput<P, D, B>>, request: Request<P>, regions: seq<Region>,
    unmapped: B, depth: nat)
    requires PortStart(start, |regions|) && RunShape(start) && SameDepth(start.port, depth)
    requires AllPortsFit(inputs, |regions|) && |inputs| >= 26 * depth + 59
    requires PressedSoFar(Follow(start, inputs, regions, unmapped), request, regions, unmapped, depth)
    ensures Blocked(Follow(start, inputs, regions, unmapped), request, regions, unmapped, depth)
  {
    PowerUpHangs(start, inputs, regions, unmapped);
    FollowIsRun(start, inputs, regions, unmapped);
    PressedIsBlocked(Follow(start, inputs, regions, unmapped), request, regions, unmapped, depth);
  }

  lemma PressesBlock<P, D, B(!new)>(
    start: PortTracked<P, D, B>, request: Request<P>, data: D, regions: seq<Region>, unmapped: B, depth: nat)
    returns (inputs: seq<PortInput<P, D, B>>)
    requires PortStart(start, |regions|) && RunShape(start) && SameDepth(start.port, depth)
    ensures AllPortsFit(inputs, |regions|)
    ensures Blocked(Follow(start, inputs, regions, unmapped), request, regions, unmapped, depth)
  {
    var n := 26 * depth + 59;
    StartPressed(start, request, regions, unmapped, depth);
    PressRun(start, n, request, data, regions, unmapped, depth);
    inputs := Presses(start, n, request, data, regions, unmapped);
    PressedBlocks(start, inputs, request, regions, unmapped, depth);
  }

  /** Whatever capacity and map, depth + 1 addresses ahead of the first data word can leave their first write
      stuck. */
  lemma LeadHangs<P, D, B(!new)>(
    start: PortTracked<P, D, B>, request: Request<P>, data: D, regions: seq<Region>, unmapped: B, depth: nat)
    returns (inputs: seq<PortInput<P, D, B>>)
    requires PortStart(start, |regions|) && RunShape(start) && SameDepth(start.port, depth)
    requires Decode(regions, request.address).Some?
    ensures AllPortsFit(inputs, |regions|) && Follow(start, inputs, regions, unmapped).lead <= depth + 1
    ensures var t := PortRun(start, inputs, regions, unmapped); Complete(t) == 1 && Stuck(t, regions, 1)
  {
    var before := PressesBlock(start, request, data, regions, unmapped, depth);
    var i := Silent(Offer(false, request), Offer(true, data), unmapped, |regions|);
    var u := Follow(start, before, regions, unmapped);
    FollowMore(start, before, i, regions, unmapped);
    FollowMore(start, before + [i], i, regions, unmapped);
    inputs := before + [i] + [i];
    BlockedSoon(u, i, request, regions, unmapped, depth);
    BlockedIsStuck(Follow(start, inputs, regions, unmapped), request, regions, unmapped, depth);
    FollowIsRun(start, inputs, regions, unmapped);
  }

  // ----- both -----

  /** No run with at most such a lead leaves the last complete write stuck. */
  ghost predicate NeverStuck<P(!new), D(!new), B(!new)>(
    start: PortTracked<P, D, B>, regions: seq<Region>, unmapped: B, lead: nat)
    requires RunShape(start)
  {
    forall inputs: seq<PortInput<P, D, B>> ::
      AllPortsFit(inputs, |start.port.responses|) && Follow(start, inputs, regions, unmapped).lead <= lead ==>
        var t := PortRun(start, inputs, regions, unmapped); !Stuck(t, regions, Complete(t))
  }

  /** Main result on the lead of addresses: from power up, for any map with a mapped address, no run whose
      addresses are at most so many ahead of data leaves a write stuck if and only if that is at most the
      capacity of a queue. */
  lemma LeadIff<P(!new), D(!new), B(!new)>(
    start: PortTracked<P, D, B>, request: Request<P>, data: D, regions: seq<Region>, unmapped: B, depth: nat, lead: nat)
    requires PortStart(start, |regions|) && RunShape(start) && SameDepth(start.port, depth) && depth >= 4
    requires Decode(regions, request.address).Some?
    ensures NeverStuck(start, regions, unmapped, lead) <==> lead <= depth
  {
    if lead <= depth {
      forall inputs: seq<PortInput<P, D, B>> |
        AllPortsFit(inputs, |start.port.responses|) && Follow(start, inputs, regions, unmapped).lead <= lead
        ensures var t := PortRun(start, inputs, regions, unmapped); !Stuck(t, regions, Complete(t))
      {
        LeadIsSafe(start, inputs, regions, unmapped, depth);
      }
    } else {
      var inputs := LeadHangs(start, request, data, regions, unmapped, depth);
      assert AllPortsFit(inputs, |start.port.responses|);
      assert Follow(start, inputs, regions, unmapped).lead <= lead;
    }
  }
}
