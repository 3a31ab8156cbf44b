/** Progress of the write half of the bus at its ports: how soon the accepted writes are answered. */
module BusWriteProgress {
  import opened Wrapping
  import opened Streams
  import opened BusParts
  import opened BusPorts
  import opened BusWrite
  import opened BusWritePort
  import opened BusWaits
  import opened BusWriteChoke
  import Queues

  // ----- what a clock does to the counts -----

  /** A state out of reset; all queues have the same capacity. */
  ghost predicate Live<P, D, B(!new)>(t: PortTracked<P, D, B>, regions: seq<Region>, unmapped: B) {
    && PortInv(t, regions, unmapped) && t.port.released[0] && |t.port.responses| == |regions|
    && |t.port.bId.queue.memory| == |t.port.wId.queue.memory|
  }

  /** The upstream port is less than a whole queue of addresses ahead of data. */
  predicate Paced<P, D, B>(t: PortTracked<P, D, B>) {
    |t.addresses| < |t.data| + |t.port.wId.queue.memory|
  }

  lemma ReleasedStep<P, D, B>(t: PortTracked<P, D, B>, i: PortInput<P, D, B>, regions: seq<Region>, unmapped: B)
    requires RunShape(t) && PortFits(t.port, i)
    ensures var p' := PortTrackedNext(t, i, regions, unmapped).port;
            && p'.released == t.port.released[1..] + [true]
            && |p'.wId.queue.memory| == |t.port.wId.queue.memory|
            && |p'.bId.queue.memory| == |t.port.bId.queue.memory|
  {
  }

  lemma LiveStep<P, D, B(!new)>(t: PortTracked<P, D, B>, i: PortInput<P, D, B>, regions: seq<Region>, unmapped: B)
    requires Live(t, regions, unmapped) && PortFits(t.port, i)
    ensures Live(PortTrackedNext(t, i, regions, unmapped), regions, unmapped)
  {
    PortStepInv(t, i, regions, unmapped);
    ReleasedStep(t, i, regions, unmapped);
  }

  /** Two clocks bring every state of the port invariant, the power-up states among them, out of reset. */
  lemma LiveSoon<P, D, B(!new)>(t: PortTracked<P, D, B>, i: PortInput<P, D, B>, j: PortInput<P, D, B>,
                                regions: seq<Region>, unmapped: B)
    requires PortInv(t, regions, unmapped) && |t.port.responses| == |regions|
    requires |t.port.bId.queue.memory| == |t.port.wId.queue.memory|
    requires PortFits(t.port, i) && PortFits(t.port, j)
    ensures var t' := PortTrackedNext(t, i, regions, unmapped);
            && RunShape(t') && PortFits(t'.port, j)
            && Live(PortTrackedNext(t', j, regions, unmapped), regions, unmapped)
  {
    PortStepInv(t, i, regions, unmapped);
    ReleasedStep(t, i, regions, unmapped);
    var t' := PortTrackedNext(t, i, regions, unmapped);
    PortStepInv(t', j, regions, unmapped);
    ReleasedStep(t', j, regions, unmapped);
  }

  /** Lanes and front buffers hold what has passed one point and not yet the next. */
  lemma Holdings<P, D, B(!new)>(t: PortTracked<P, D, B>, regions: seq<Region>, unmapped: B)
    requires PortInv(t, regions, unmapped)
    ensures t.track.routedAw <= |t.track.requests| && t.track.routedW <= |t.track.requests|
    ensures t.track.routedW <= |t.track.data| && |t.track.returned| <= t.track.collected <= |t.track.requests|
    ensures Load(t.port.aw) == |Contents(Abstract(t.port.aw))| == |t.track.requests| - t.track.routedAw
    ensures Load(t.port.awId) == |Contents(Abstract(t.port.awId))| == |t.track.requests| - t.track.routedAw
    ensures Load(t.port.w) == |Contents(Abstract(t.port.w))| == |t.track.data| - t.track.routedW
    ensures Load(t.port.wId) == |Contents(Abstract(t.port.wId))| == |t.track.requests| - t.track.routedW
    ensures Load(t.port.bId) == |Contents(Abstract(t.port.bId))| == |t.track.requests| - t.track.collected
    ensures |Contents(Abstract(t.port.b))| == t.track.collected - |t.track.returned|
    ensures |t.addresses| == |t.track.requests| + Bit(t.port.frontAw.buffered)
    ensures |t.data| == |t.track.data| + Bit(t.port.frontW.buffered)
  {
    LoadIsContents(t.port.aw);
    LoadIsContents(t.port.awId);
    LoadIsContents(t.port.w);
    LoadIsContents(t.port.wId);
    LoadIsContents(t.port.bId);
  }

  lemma HeadIds<P, D, B(!new)>(t: PortTracked<P, D, B>, regions: seq<Region>, unmapped: B)
    requires PortInv(t, regions, unmapped)
    ensures Head(t.port.bId).Some? ==>
              && t.track.collected < |t.track.requests|
              && Head(t.port.bId).value == Decode(regions, t.track.requests[t.track.collected].address)
    ensures Head(t.port.awId).Some? ==>
              && t.track.routedAw < |t.track.requests|
              && Head(t.port.awId).value == Decode(regions, t.track.requests[t.track.routedAw].address)
    ensures Head(t.port.wId).Some? ==>
              && t.track.routedW < |t.track.requests|
              && Head(t.port.wId).value == Decode(regions, t.track.requests[t.track.routedW].address)
  {
    var ids := Ids(regions, t.track.requests);
    HeadIsShown(t.port.bId);
    HeadOf(Abstract(t.port.bId), t.port.bId.queue.valid, ids, t.track.collected);
    HeadIsShown(t.port.awId);
    HeadOf(Abstract(t.port.awId), t.port.awId.queue.valid, ids, t.track.routedAw);
    HeadIsShown(t.port.wId);
    HeadOf(Abstract(t.port.wId), t.port.wId.queue.valid, ids, t.track.routedW);
  }

  /** The decoder takes the address, or the data word, that its buffer shows. */
  predicate TakesAw<P, D, B>(p: WritePort<P, D, B>, i: PortInput<P, D, B>) {
    Seen(p.frontAw, i.request).Some? && p.aw.queue.ready && LanesReady(p)
  }

  predicate TakesW<P, D, B>(p: WritePort<P, D, B>, i: PortInput<P, D, B>) {
    Seen(p.frontW, i.data).Some? && p.w.queue.ready && LanesReady(p)
  }

  lemma Counts<P, D, B(!new)>(t: PortTracked<P, D, B>, i: PortInput<P, D, B>, regions: seq<Region>, unmapped: B)
    requires PortInv(t, regions, unmapped) && PortFits(t.port, i)
    ensures var b, b' := t.track, PortTrackedNext(t, i, regions, unmapped).track;
            && b.requests <= b'.requests
            && |b'.requests| == |b.requests| + Bit(TakesAw(t.port, i))
            && |b'.data| == |b.data| + Bit(TakesW(t.port, i))
            && b'.routedAw == b.routedAw + Bit(RoutesAw(t.port, i))
            && b'.routedW == b.routedW + Bit(RoutesW(t.port, i))
            && b'.collected == b.collected + Bit(CollectsAnswer(t.port, i))
            && |b'.returned| == |b.returned| + Bit(Head(t.port.b).Some? && i.masterReady)
  {
    SignalsAgree(t.port, i);
  }

  // ----- the lanes come closer -----

  function RouteAwWait<P, D, B>(p: WritePort<P, D, B>): (n: nat)
    ensures n <= 4
  {
    Max(Await(p.aw), Await(p.awId))
  }

  function RouteWWait<P, D, B>(p: WritePort<P, D, B>): (n: nat)
    ensures n <= 4
  {
    Max(Await(p.w), Await(p.wId))
  }

  function CollectWait<P, D, B>(p: WritePort<P, D, B>): (n: nat)
    ensures n <= 4
  {
    Max(Await(p.bId), AwaitReady(p.b))
  }

  /** Until a data word passes the decoder: first its lane is ready, then the lanes of the ids. */
  function EnterDataWait<P, D, B>(p: WritePort<P, D, B>): nat
    requires PortShape(p)
  {
    DataGateWait(p.w, p.wId, p.bId, GateWait(p.awId, RouteAwWait(p)))
  }

  function DataGateWait<D>(w: QueueLane<D>, wId: QueueLane<Id>, bId: QueueLane<Id>, gate: nat): nat {
    if !w.queue.ready then 25 else Max(Max(Settle(wId), Settle(bId)), gate)
  }

  /** Until a data word passes the decoder or, if more ids wait for data than a queue holds, until that queue
      is closed for good. */
  function DataWait<P, D, B>(p: WritePort<P, D, B>): nat
    requires PortShape(p)
  {
    if Load(p.wId) <= |p.wId.queue.memory| then EnterDataWait(p) else ChokeWait(p.wId.queue)
  }

  /** A slave refuses the address, or the data word, that is shown to it. */
  predicate RefusedAw<P, D, B>(p: WritePort<P, D, B>, i: PortInput<P, D, B>) {
    Head(p.aw).Some? && RefusedBy(Head(p.awId), i.slaveAwReady)
  }

  predicate RefusedW<P, D, B>(p: WritePort<P, D, B>, i: PortInput<P, D, B>) {
    Head(p.w).Some? && RefusedBy(Head(p.wId), i.slaveWReady)
  }

  lemma AwStep<P, D, B>(p: WritePort<P, D, B>, i: PortInput<P, D, B>, regions: seq<Region>)
    requires PortShape(p) && PortFits(p, i) && p.released[0] && !RoutesAw(p, i)
    requires Queues.Inv(p.aw.queue) && Contents(Abstract(p.aw)) != []
    requires Queues.Inv(p.awId.queue) && Contents(Abstract(p.awId)) != []
    ensures Await(AwNext(p, i)) <= (if Await(p.aw) == 0 then 0 else Await(p.aw) - 1)
    ensures Await(AwIdNext(p, i, regions)) <= (if Await(p.awId) == 0 then 0 else Await(p.awId) - 1)
  {
    AwaitStep(p.aw, if LanesReady(p) then Seen(p.frontAw, i.request) else None, !p.aw.queue.valid);
    AwaitStep(p.awId,
              if p.aw.queue.ready && p.wId.queue.ready && p.bId.queue.ready then IdSeen(p, i, regions) else None,
              !p.awId.queue.valid);
  }

  lemma WStep<P, D, B>(p: WritePort<P, D, B>, i: PortInput<P, D, B>, regions: seq<Region>)
    requires PortShape(p) && PortFits(p, i) && p.released[0] && !RoutesW(p, i)
    requires Queues.Inv(p.w.queue) && Contents(Abstract(p.w)) != []
    requires Queues.Inv(p.wId.queue) && Contents(Abstract(p.wId)) != []
    ensures Await(WNext(p, i)) <= (if Await(p.w) == 0 then 0 else Await(p.w) - 1)
    ensures Await(WIdNext(p, i, regions)) <= (if Await(p.wId) == 0 then 0 else Await(p.wId) - 1)
  {
    AwaitStep(p.w, if LanesReady(p) then Seen(p.frontW, i.data) else None, !p.w.queue.valid);
    AwaitStep(p.wId,
              if p.aw.queue.ready && p.awId.queue.ready && p.bId.queue.ready then IdSeen(p, i, regions) else None,
              !p.wId.queue.valid);
  }

  lemma RouteAwStep<P, D, B(!new)>(
    t: PortTracked<P, D, B>, i: PortInput<P, D, B>, regions: seq<Region>, unmapped: B)
    requires Live(t, regions, unmapped) && PortFits(t.port, i)
    requires t.track.routedAw < |t.track.requests| && !RoutesAw(t.port, i)
    ensures var wait, wait' := RouteAwWait(t.port), Max(Await(AwNext(t.port, i)), Await(AwIdNext(t.port, i, regions)));
            wait' < wait || (RefusedAw(t.port, i) && wait' <= wait)
  {
    Holdings(t, regions, unmapped);
    HeadIds(t, regions, unmapped);
    AwStep(t.port, i, regions);
  }

  lemma RouteWStep<P, D, B(!new)>(
    t: PortTracked<P, D, B>, i: PortInput<P, D, B>, regions: seq<Region>, unmapped: B)
    requires Live(t, regions, unmapped) && PortFits(t.port, i)
    requires t.track.routedW < |t.track.requests| && t.track.routedW < |t.track.data| && !RoutesW(t.port, i)
    ensures var wait, wait' := RouteWWait(t.port), Max(Await(WNext(t.port, i)), Await(WIdNext(t.port, i, regions)));
            wait' < wait || (RefusedW(t.port, i) && wait' <= wait)
  {
    Holdings(t, regions, unmapped);
    HeadIds(t, regions, unmapped);
    WStep(t.port, i, regions);
  }

  /** Nothing is collected: the id and the response register come closer. */
  lemma CollectStep<P, D, B(!new)>(
    t: PortTracked<P, D, B>, i: PortInput<P, D, B>, regions: seq<Region>, unmapped: B)
    requires Live(t, regions, unmapped) && PortFits(t.port, i)
    requires |t.track.returned| == t.track.collected < |t.track.requests| && !CollectsAnswer(t.port, i)
    ensures var p' := PortNext(t.port, i, regions, unmapped);
            CollectWait(p') <= (if CollectWait(t.port) == 0 then 0 else CollectWait(t.port) - 1)
  {
    var p := t.port;
    Holdings(t, regions, unmapped);
    AwaitStep(p.bId,
              if p.aw.queue.ready && p.awId.queue.ready && p.wId.queue.ready then IdSeen(p, i, regions) else None,
              !p.bId.queue.valid);
    ReadyStep(p.b, CollectorLoad(Head(p.bId), SeenAll(p.responses, i.responses), unmapped), i.masterReady);
  }

  lemma RespondStep<P, D, B(!new)>(
    t: PortTracked<P, D, B>, i: PortInput<P, D, B>, regions: seq<Region>, unmapped: B)
    requires Live(t, regions, unmapped) && PortFits(t.port, i)
    requires |t.track.returned| < t.track.collected && (Head(t.port.b).None? || !i.masterReady)
    ensures Await(BNext(t.port, i, unmapped)) < Await(t.port.b)
         || (!i.masterReady && Await(BNext(t.port, i, unmapped)) <= Await(t.port.b))
  {
    Holdings(t, regions, unmapped);
    var load := CollectorLoad(Head(t.port.bId), SeenAll(t.port.responses, i.responses), unmapped);
    if i.masterReady {
      AwaitStep(t.port.b, load, true);
    } else {
      AwaitStays(t.port.b, load);
    }
  }

  /** With all lanes of ids and addresses empty an address passes within a clock. */
  lemma EnterStep<P, D, B(!new)>(
    t: PortTracked<P, D, B>, i: PortInput<P, D, B>, regions: seq<Region>, unmapped: B)
    requires Live(t, regions, unmapped) && PortFits(t.port, i)
    requires t.track.routedAw == t.track.routedW == t.track.collected == |t.track.requests|
    ensures var p' := PortNext(t.port, i, regions, unmapped); p'.aw.queue.ready && LanesReady(p')
  {
    var p := t.port;
    Holdings(t, regions, unmapped);
    ReadyStep(p.aw, if LanesReady(p) then Seen(p.frontAw, i.request) else None, TakenOrIdle(p.aw, RoutesAw(p, i)));
    ReadyStep(p.awId,
              if p.aw.queue.ready && p.wId.queue.ready && p.bId.queue.ready then IdSeen(p, i, regions) else None,
              TakenOrIdle(p.awId, RoutesAw(p, i)));
    ReadyStep(p.wId,
              if p.aw.queue.ready && p.awId.queue.ready && p.bId.queue.ready then IdSeen(p, i, regions) else None,
              TakenOrIdle(p.wId, RoutesW(p, i)));
    ReadyStep(p.bId,
              if p.aw.queue.ready && p.awId.queue.ready && p.wId.queue.ready then IdSeen(p, i, regions) else None,
              TakenOrIdle(p.bId, CollectsAnswer(p, i)));
  }

  /** The ids at the three lanes when no address passes the decoder. */
  lemma NoAddressPasses<P, D, B>(p: WritePort<P, D, B>, i: PortInput<P, D, B>, regions: seq<Region>)
    requires PortShape(p) && PortFits(p, i) && p.released[0] && !TakesAw(p, i)
    ensures AwIdNext(p, i, regions) == QueueLaneNext(p.awId, true, None, TakenOrIdle(p.awId, RoutesAw(p, i)))
    ensures WIdNext(p, i, regions) == QueueLaneNext(p.wId, true, None, TakenOrIdle(p.wId, RoutesW(p, i)))
    ensures BIdNext(p, i, regions) == QueueLaneNext(p.bId, true, None, TakenOrIdle(p.bId, CollectsAnswer(p, i)))
  {
  }

  // ----- a data word comes closer to the decoder -----

  lemma SettleIdLanes<P, D, B>(p: WritePort<P, D, B>, i: PortInput<P, D, B>, regions: seq<Region>)
    requires PortShape(p) && PortFits(p, i) && p.released[0] && !TakesAw(p, i)
    requires Queues.Inv(p.wId.queue) && Load(p.wId) <= |p.wId.queue.memory|
    requires Queues.Inv(p.bId.queue) && Load(p.bId) <= |p.bId.queue.memory|
    ensures Settle(WIdNext(p, i, regions)) <= (if Settle(p.wId) == 0 then 0 else Settle(p.wId) - 1)
    ensures Settle(BIdNext(p, i, regions)) <= (if Settle(p.bId) == 0 then 0 else Settle(p.bId) - 1)
  {
    NoAddressPasses(p, i, regions);
    SettleStep(p.wId, TakenOrIdle(p.wId, RoutesW(p, i)));
    SettleStep(p.bId, TakenOrIdle(p.bId, CollectsAnswer(p, i)));
  }

  lemma AwGateStep<P, D, B(!new)>(
    t: PortTracked<P, D, B>, i: PortInput<P, D, B>, regions: seq<Region>, unmapped: B)
    requires Live(t, regions, unmapped) && PortFits(t.port, i) && !TakesAw(t.port, i)
    ensures var p, l' := t.port, AwIdNext(t.port, i, regions);
            var wait, wait' := GateWait(p.awId, RouteAwWait(p)), GateWait(l', Max(Await(AwNext(p, i)), Await(l')));
            wait' <= (if wait == 0 then 0 else wait - 1) || (RefusedAw(p, i) && wait' <= wait)
  {
    var p := t.port;
    var route' := Max(Await(AwNext(p, i)), Await(AwIdNext(p, i, regions)));
    Holdings(t, regions, unmapped);
    NoAddressPasses(p, i, regions);
    if !RoutesAw(p, i) && Load(p.awId) > |p.awId.queue.memory| {
      RouteAwStep(t, i, regions, unmapped);
    }
    if RefusedAw(p, i) && Load(p.awId) > |p.awId.queue.memory| && route' == RouteAwWait(p) {
      GateStays(p.awId, RouteAwWait(p));
    } else {
      GateStep(p.awId, RouteAwWait(p), route', RoutesAw(p, i));
    }
  }

  /** The lanes of ids that wait for data hold no more than their queues. */
  predicate IdsFit<P, D, B>(t: PortTracked<P, D, B>) {
    && |t.track.requests| <= |t.track.data| + |t.port.wId.queue.memory|
    && t.track.routedW == |t.track.data| && t.track.routedW < |t.track.requests|
    && (t.track.routedW <= t.track.collected || t.track.collected == |t.track.requests|)
  }

  lemma EnterDataBound<P, D, B(!new)>(t: PortTracked<P, D, B>, regions: seq<Region>, unmapped: B)
    requires Live(t, regions, unmapped) && IdsFit(t)
    ensures EnterDataWait(t.port) <= 25 && (t.port.w.queue.ready ==> EnterDataWait(t.port) <= 24)
  {
    var p := t.port;
    Holdings(t, regions, unmapped);
    SettleBound(p.wId);
    SettleBound(p.bId);
    GateBound(p.awId, RouteAwWait(p));
  }

  /** Lanes that have settled are open. */
  lemma SettledAreReady<P, D, B>(p: WritePort<P, D, B>)
    requires PortShape(p) && p.w.queue.ready && EnterDataWait(p) == 0
    ensures LanesReady(p)
  {
  }

  lemma DataLaneOpens<P, D, B>(p: WritePort<P, D, B>, i: PortInput<P, D, B>)
    requires PortShape(p) && PortFits(p, i) && p.released[0]
    requires Queues.Inv(p.w.queue) && Contents(Abstract(p.w)) == []
    ensures WNext(p, i).queue.ready
  {
    ReadyStep(p.w, if LanesReady(p) then Seen(p.frontW, i.data) else None, TakenOrIdle(p.w, RoutesW(p, i)));
  }

  lemma DataGateStep<P, D, B>(p: WritePort<P, D, B>, i: PortInput<P, D, B>, regions: seq<Region>, gate': nat)
    requires PortShape(p) && PortFits(p, i) && p.released[0] && p.w.queue.ready && !LanesReady(p)
    requires Queues.Inv(p.w.queue) && Contents(Abstract(p.w)) == []
    requires Queues.Inv(p.wId.queue) && Load(p.wId) <= |p.wId.queue.memory|
    requires Queues.Inv(p.bId.queue) && Load(p.bId) <= |p.bId.queue.memory|
    requires gate' <= GateWait(p.awId, RouteAwWait(p))
    ensures var gate, wait' := GateWait(p.awId, RouteAwWait(p)),
                               DataGateWait(WNext(p, i), WIdNext(p, i, regions), BIdNext(p, i, regions), gate');
            && wait' <= EnterDataWait(p)
            && (gate' <= (if gate == 0 then 0 else gate - 1) ==> wait' < EnterDataWait(p))
  {
    DataLaneOpens(p, i);
    SettleIdLanes(p, i, regions);
    if EnterDataWait(p) == 0 {
      SettledAreReady(p);
    }
  }

  /** The lane for data is ready, but one of the lanes of ids is not. */
  lemma EnterDataCloser<P, D, B(!new)>(
    t: PortTracked<P, D, B>, i: PortInput<P, D, B>, regions: seq<Region>, unmapped: B)
    requires Live(t, regions, unmapped) && PortFits(t.port, i) && IdsFit(t)
    requires t.port.w.queue.ready && !LanesReady(t.port)
    ensures var wait, wait' := EnterDataWait(t.port), EnterDataWait(PortNext(t.port, i, regions, unmapped));
            wait' < wait || (RefusedAw(t.port, i) && wait' <= wait)
  {
    var p, l' := t.port, AwIdNext(t.port, i, regions);
    Holdings(t, regions, unmapped);
    AwGateStep(t, i, regions, unmapped);
    DataGateStep(p, i, regions, GateWait(l', Max(Await(AwNext(p, i)), Await(l'))));
  }

  /** A data word in the front buffer passes, or comes closer, while the ids that wait for data fit their queue
      and no slave refuses an address. */
  lemma EnterDataStep<P, D, B(!new)>(
    t: PortTracked<P, D, B>, i: PortInput<P, D, B>, regions: seq<Region>, unmapped: B)
    requires Live(t, regions, unmapped) && PortFits(t.port, i) && IdsFit(t)
    requires t.port.frontW.buffered && !TakesW(t.port, i)
    requires var t' := PortTrackedNext(t, i, regions, unmapped); Live(t', regions, unmapped) && IdsFit(t')
    ensures var wait, wait' := EnterDataWait(t.port), EnterDataWait(PortNext(t.port, i, regions, unmapped));
            wait' < wait || (RefusedAw(t.port, i) && wait' <= wait)
  {
    var p := t.port;
    if p.w.queue.ready {
      EnterDataCloser(t, i, regions, unmapped);
    } else {
      Holdings(t, regions, unmapped);
      DataLaneOpens(p, i);
      EnterDataBound(PortTrackedNext(t, i, regions, unmapped), regions, unmapped);
    }
  }

  // ----- what the oldest unanswered write waits for -----

  /** The slave of the oldest write without a collected answer, if it has one. */
  function Awaited<P, D, B>(t: PortTracked<P, D, B>, regions: seq<Region>): Id
    requires t.track.collected < |t.track.requests|
  {
    Decode(regions, t.track.requests[t.track.collected].address)
  }

  /** Among the writes the oldest one waits for, some address has yet to go to its slave. */
  predicate AddressToGo<P, D, B>(b: Tracked<P, D, B>) {
    b.routedAw < |b.requests| && (b.routedAw <= b.collected || b.collected == |b.requests|)
  }

  predicate DataToGo<P, D, B>(b: Tracked<P, D, B>) {
    b.routedW < |b.requests| && (b.routedW <= b.collected || b.collected == |b.requests|)
  }

  /** A write with its slave: address and data have been routed to slave k. */
  predicate WithSlave<P, D, B>(t: PortTracked<P, D, B>, regions: seq<Region>, k: nat) {
    && |t.track.returned| == t.track.collected < |t.track.requests| && Awaited(t, regions) == Some(k)
    && t.track.routedAw > t.track.collected && t.track.routedW > t.track.collected
  }

  /** Slave k has taken the address and the data word of the oldest unanswered write. */
  predicate HasWrite<P, D, B>(t: PortTracked<P, D, B>, k: nat)
    requires RunShape(t) && k < |t.port.responses|
  {
    |t.track.sentAw[k]| > |t.track.taken[k]| && |t.track.sentW[k]| > |t.track.taken[k]|
  }

  /** Slave k does not take the address or the data word in its register, or does not offer the answer it owes. */
  predicate KeptWaiting<P, D, B>(t: PortTracked<P, D, B>, i: PortInput<P, D, B>, k: nat)
    requires RunShape(t) && PortFits(t.port, i) && k < |t.port.responses|
  {
    if HasWrite(t, k) then !t.port.responses[k].buffered && !i.responses[k].valid
    else (|| (|t.track.sentAw[k]| <= |t.track.taken[k]| && !i.slaveAwReady[k])
          || (|t.track.sentW[k]| <= |t.track.taken[k]| && !i.slaveWReady[k]))
  }

  /** At this clock a slave keeps the oldest unanswered write waiting or, once its answer is collected, the
      upstream port does. */
  predicate Stalled<P, D, B>(t: PortTracked<P, D, B>, i: PortInput<P, D, B>, regions: seq<Region>)
    requires RunShape(t) && PortFits(t.port, i)
  {
    if |t.track.returned| < t.track.collected then !i.masterReady else
    && !CollectsAnswer(t.port, i)
    && (|| (AddressToGo(t.track) && RefusedAw(t.port, i))
        || (DataToGo(t.track) && (RefusedAw(t.port, i) || RefusedW(t.port, i)))
        || exists k :: 0 <= k < |t.port.responses| && WithSlave(t, regions, k) && KeptWaiting(t, i, k))
  }

  /** The wait for a slave whose number is k. */
  function AnswerWait<P, D, B>(t: PortTracked<P, D, B>, k: nat): (n: nat)
    requires RunShape(t) && k < |t.port.responses|
    ensures n <= 5
  {
    if HasWrite(t, k) then Max(CollectWait(t.port), BufferWait(t.port.responses[k])) else 5
  }

  /** Clocks until a count moves on, unless the bus is kept waiting. */
  ghost function Wait<P, D, B(!new)>(t: PortTracked<P, D, B>, regions: seq<Region>, unmapped: B): nat
    requires Live(t, regions, unmapped)
  {
    var p, b := t.port, t.track;
    if |b.returned| < b.collected then Await(p.b)
    else if b.collected < |b.requests| && Awaited(t, regions).None? then CollectWait(p)
    else if AddressToGo(b) then RouteAwWait(p)
    else if DataToGo(b) then (if b.routedW < |b.data| then RouteWWait(p) else DataWait(p))
    else if b.collected == |b.requests| then (if p.aw.queue.ready && LanesReady(p) then 0 else 1)
    else AnswerWait(t, Awaited(t, regions).value)
  }

  /** A count the oldest unanswered write depends on has moved on. */
  predicate Moved<P, D, B>(b: Tracked<P, D, B>, b': Tracked<P, D, B>) {
    || |b'.returned| > |b.returned|
    || (|b.returned| == b.collected
        && (|| b'.collected > b.collected
            || (AddressToGo(b) && b'.routedAw > b.routedAw)
            || (DataToGo(b) && b'.routedW > b.routedW)
            || (DataToGo(b) && b.routedW == |b.data| && |b'.data| > |b.data|)
            || (b.collected == |b.requests| && |b'.requests| > |b.requests|)))
  }

  lemma RespondPhase<P, D, B(!new)>(
    t: PortTracked<P, D, B>, i: PortInput<P, D, B>, regions: seq<Region>, unmapped: B)
    requires Live(t, regions, unmapped) && PortFits(t.port, i)
    requires |t.track.returned| < t.track.collected
    ensures var t' := PortTrackedNext(t, i, regions, unmapped);
            && Live(t', regions, unmapped)
            && (|| Moved(t.track, t'.track)
                || Wait(t', regions, unmapped) < Wait(t, regions, unmapped)
                || (Stalled(t, i, regions) && Wait(t', regions, unmapped) <= Wait(t, regions, unmapped)))
  {
    LiveStep(t, i, regions, unmapped);
    Counts(t, i, regions, unmapped);
    if Head(t.port.b).None? || !i.masterReady {
      RespondStep(t, i, regions, unmapped);
    }
  }

  lemma WaitIsCollectWait<P, D, B(!new)>(t: PortTracked<P, D, B>, regions: seq<Region>, unmapped: B)
    requires Live(t, regions, unmapped)
    requires |t.track.returned| == t.track.collected < |t.track.requests| && Awaited(t, regions).None?
    ensures Wait(t, regions, unmapped) == CollectWait(t.port)
  {
  }

  lemma UnmappedCollected<P, D, B(!new)>(
    t: PortTracked<P, D, B>, i: PortInput<P, D, B>, regions: seq<Region>, unmapped: B)
    requires Live(t, regions, unmapped) && PortFits(t.port, i)
    requires t.track.collected < |t.track.requests| && Awaited(t, regions).None? && CollectWait(t.port) == 0
    ensures CollectsAnswer(t.port, i)
  {
    HeadIds(t, regions, unmapped);
  }

  /** An unmapped write waits for its id and the response register only. */
  lemma UnmappedPhase<P, D, B(!new)>(
    t: PortTracked<P, D, B>, i: PortInput<P, D, B>, regions: seq<Region>, unmapped: B)
    requires Live(t, regions, unmapped) && PortFits(t.port, i)
    requires |t.track.returned| == t.track.collected < |t.track.requests| && Awaited(t, regions).None?
    ensures var t' := PortTrackedNext(t, i, regions, unmapped);
            && Live(t', regions, unmapped)
            && (Moved(t.track, t'.track) || Wait(t', regions, unmapped) < Wait(t, regions, unmapped))
  {
    LiveStep(t, i, regions, unmapped);
    Counts(t, i, regions, unmapped);
    if !CollectsAnswer(t.port, i) && Head(t.port.b).None? {
      CollectStep(t, i, regions, unmapped);
      if CollectWait(t.port) == 0 {
        UnmappedCollected(t, i, regions, unmapped);
      }
      WaitIsCollectWait(t, regions, unmapped);
      WaitIsCollectWait(PortTrackedNext(t, i, regions, unmapped), regions, unmapped);
    }
  }

  /** The oldest write, if any, has a slave. */
  predicate Mapped<P, D, B>(t: PortTracked<P, D, B>, regions: seq<Region>) {
    && |t.track.returned| == t.track.collected
    && (t.track.collected < |t.track.requests| ==> Awaited(t, regions).Some?)
  }

  lemma WaitIsRouteAwWait<P, D, B(!new)>(t: PortTracked<P, D, B>, regions: seq<Region>, unmapped: B)
    requires Live(t, regions, unmapped) && Mapped(t, regions) && AddressToGo(t.track)
    ensures Wait(t, regions, unmapped) == RouteAwWait(t.port)
  {
  }

  lemma RouteAwPhase<P, D, B(!new)>(
    t: PortTracked<P, D, B>, i: PortInput<P, D, B>, regions: seq<Region>, unmapped: B)
    requires Live(t, regions, unmapped) && PortFits(t.port, i)
    requires Mapped(t, regions) && AddressToGo(t.track)
    ensures var t' := PortTrackedNext(t, i, regions, unmapped);
            && Live(t', regions, unmapped)
            && (|| Moved(t.track, t'.track)
                || Wait(t', regions, unmapped) < Wait(t, regions, unmapped)
                || (Stalled(t, i, regions) && Wait(t', regions, unmapped) <= Wait(t, regions, unmapped)))
  {
    LiveStep(t, i, regions, unmapped);
    Counts(t, i, regions, unmapped);
    if !Moved(t.track, PortTrackedNext(t, i, regions, unmapped).track) {
      RouteAwStep(t, i, regions, unmapped);
      WaitIsRouteAwWait(t, regions, unmapped);
      WaitIsRouteAwWait(PortTrackedNext(t, i, regions, unmapped), regions, unmapped);
    }
  }

  lemma WaitIsRouteWWait<P, D, B(!new)>(t: PortTracked<P, D, B>, regions: seq<Region>, unmapped: B)
    requires Live(t, regions, unmapped) && Mapped(t, regions)
    requires !AddressToGo(t.track) && DataToGo(t.track) && t.track.routedW < |t.track.data|
    ensures Wait(t, regions, unmapped) == RouteWWait(t.port)
  {
  }

  lemma RouteWPhase<P, D, B(!new)>(
    t: PortTracked<P, D, B>, i: PortInput<P, D, B>, regions: seq<Region>, unmapped: B)
    requires Live(t, regions, unmapped) && PortFits(t.port, i) && Mapped(t, regions)
    requires !AddressToGo(t.track) && DataToGo(t.track) && t.track.routedW < |t.track.data|
    ensures var t' := PortTrackedNext(t, i, regions, unmapped);
            && Live(t', regions, unmapped)
            && (|| Moved(t.track, t'.track)
                || Wait(t', regions, unmapped) < Wait(t, regions, unmapped)
                || (Stalled(t, i, regions) && Wait(t', regions, unmapped) <= Wait(t, regions, unmapped)))
  {
    LiveStep(t, i, regions, unmapped);
    Counts(t, i, regions, unmapped);
    if !Moved(t.track, PortTrackedNext(t, i, regions, unmapped).track) {
      RouteWStep(t, i, regions, unmapped);
      WaitIsRouteWWait(t, regions, unmapped);
      WaitIsRouteWWait(PortTrackedNext(t, i, regions, unmapped), regions, unmapped);
    }
  }

  // ----- a data word passes -----

  lemma LoadFits<P, D, B(!new)>(t: PortTracked<P, D, B>, regions: seq<Region>, unmapped: B)
    requires Live(t, regions, unmapped) && Load(t.port.wId) <= |t.port.wId.queue.memory|
    requires DataToGo(t.track) && t.track.routedW == |t.track.data|
    ensures IdsFit(t)
  {
    Holdings(t, regions, unmapped);
  }

  lemma WaitIsDataWait<P, D, B(!new)>(t: PortTracked<P, D, B>, regions: seq<Region>, unmapped: B)
    requires Live(t, regions, unmapped) && Mapped(t, regions)
    requires !AddressToGo(t.track) && DataToGo(t.track) && t.track.routedW == |t.track.data|
    ensures Wait(t, regions, unmapped) == DataWait(t.port)
  {
  }

  /** The lane for data is empty: none is routed. */
  lemma NoDataRouted<P, D, B(!new)>(
    t: PortTracked<P, D, B>, i: PortInput<P, D, B>, regions: seq<Region>, unmapped: B)
    requires PortInv(t, regions, unmapped) && t.track.routedW == |t.track.data|
    ensures !RoutesW(t.port, i)
  {
    Holdings(t, regions, unmapped);
    HeadIsShown(t.port.w);
  }

  /** Each count grows by at most one. */
  predicate OneStep<P, D, B>(b: Tracked<P, D, B>, b': Tracked<P, D, B>) {
    && |b.requests| <= |b'.requests| <= |b.requests| + 1 && |b.data| <= |b'.data| <= |b.data| + 1
    && b.routedAw <= b'.routedAw <= b.routedAw + 1 && b.routedW <= b'.routedW <= b.routedW + 1
    && b.collected <= b'.collected <= b.collected + 1 && |b.returned| <= |b'.returned| <= |b.returned| + 1
  }

  lemma CountsStep<P, D, B(!new)>(
    t: PortTracked<P, D, B>, i: PortInput<P, D, B>, regions: seq<Region>, unmapped: B)
    requires PortInv(t, regions, unmapped) && PortFits(t.port, i)
    ensures OneStep(t.track, PortTrackedNext(t, i, regions, unmapped).track)
    ensures t.track.requests <= PortTrackedNext(t, i, regions, unmapped).track.requests
  {
    Counts(t, i, regions, unmapped);
  }

  /** A data word that has not moved on is still the next one to pass. */
  lemma StillToPass<P, D, B>(b: Tracked<P, D, B>, b': Tracked<P, D, B>)
    requires OneStep(b, b') && !Moved(b, b') && b'.routedAw <= |b'.requests| && |b'.returned| <= b'.collected
    requires |b.returned| == b.collected <= |b.requests| && !AddressToGo(b) && DataToGo(b)
    requires b.routedW == |b.data| && b'.routedW == b.routedW
    ensures |b'.returned| == b'.collected == b.collected && !AddressToGo(b') && DataToGo(b')
    ensures b'.routedW == |b'.data| && (b'.collected < |b'.requests| ==> b.collected < |b.requests|)
  {
  }

  /** One more id than fits: an address has passed, and data has not because its lane is closed. */
  lemma OverfullSoon<P, D, B(!new)>(
    t: PortTracked<P, D, B>, i: PortInput<P, D, B>, regions: seq<Region>, unmapped: B)
    requires Live(t, regions, unmapped) && PortFits(t.port, i)
    requires TakesAw(t.port, i) && t.port.frontW.buffered && !TakesW(t.port, i)
    requires Load(t.port.wId) <= |t.port.wId.queue.memory|
    requires Load(WIdNext(t.port, i, regions)) > |WIdNext(t.port, i, regions).queue.memory|
    requires Queues.Inv(WIdNext(t.port, i, regions).queue)
    ensures DataWait(PortNext(t.port, i, regions, unmapped)) < DataWait(t.port)
  {
    ChokeStep(WIdNext(t.port, i, regions), None);
  }

  /** More ids than fit: their queue comes closer to being closed for good. */
  lemma OverfullStep<P, D, B(!new)>(
    t: PortTracked<P, D, B>, i: PortInput<P, D, B>, regions: seq<Region>, unmapped: B)
    requires Live(t, regions, unmapped) && PortFits(t.port, i) && !Choked(t.port)
    requires t.track.routedW == |t.track.data| && Load(t.port.wId) > |t.port.wId.queue.memory|
    ensures ChokeWait(WIdNext(t.port, i, regions).queue) < ChokeWait(t.port.wId.queue)
  {
    var p := t.port;
    Holdings(t, regions, unmapped);
    NoDataRouted(t, i, regions, unmapped);
    var load := if p.aw.queue.ready && p.awId.queue.ready && p.bId.queue.ready then IdSeen(p, i, regions) else None;
    assert WIdNext(p, i, regions) == QueueLaneNext(p.wId, true, load, !p.wId.queue.valid);
    ChokeStep(p.wId, load);
  }

  lemma EnterDataStays<P, D, B(!new)>(
    t: PortTracked<P, D, B>, i: PortInput<P, D, B>, regions: seq<Region>, unmapped: B)
    requires Live(t, regions, unmapped) && PortFits(t.port, i) && Mapped(t, regions)
    requires !AddressToGo(t.track) && DataToGo(t.track) && t.track.routedW == |t.track.data| < |t.data|
    requires !Moved(t.track, PortTrackedNext(t, i, regions, unmapped).track)
    ensures var t' := PortTrackedNext(t, i, regions, unmapped); var b' := t'.track;
            && |b'.returned| == b'.collected == t.track.collected && !AddressToGo(b') && DataToGo(b')
            && b'.routedW == |b'.data| && (b'.collected < |b'.requests| ==> t.track.collected < |t.track.requests|)
            && t.port.frontW.buffered && !TakesW(t.port, i)
            && Load(t'.port.wId) == Load(t.port.wId) + Bit(TakesAw(t.port, i))
  {
    var t' := PortTrackedNext(t, i, regions, unmapped);
    LiveStep(t, i, regions, unmapped);
    Counts(t, i, regions, unmapped);
    Holdings(t, regions, unmapped);
    Holdings(t', regions, unmapped);
    NoDataRouted(t, i, regions, unmapped);
    StillToPass(t.track, t'.track);
  }

  /** The ids still fit. */
  lemma FittingStep<P, D, B(!new)>(
    t: PortTracked<P, D, B>, i: PortInput<P, D, B>, regions: seq<Region>, unmapped: B, t': PortTracked<P, D, B>)
    requires Live(t, regions, unmapped) && PortFits(t.port, i) && RunShape(t)
    requires t' == PortTrackedNext(t, i, regions, unmapped) && Live(t', regions, unmapped)
    requires DataToGo(t.track) && t.track.routedW == |t.track.data| && DataToGo(t'.track)
    requires t'.track.routedW == |t'.track.data| && t.port.frontW.buffered && !TakesW(t.port, i)
    requires Load(t.port.wId) <= |t.port.wId.queue.memory| && Load(t'.port.wId) <= |t'.port.wId.queue.memory|
    ensures var wait, wait' := DataWait(t.port), DataWait(t'.port);
            wait' < wait || (RefusedAw(t.port, i) && wait' <= wait)
  {
    LoadFits(t, regions, unmapped);
    LoadFits(t', regions, unmapped);
    EnterDataStep(t, i, regions, unmapped);
  }

  /** A data word that waits comes closer, or the queue that it waits for comes closer to being closed. */
  lemma DataWaitStep<P, D, B(!new)>(
    t: PortTracked<P, D, B>, i: PortInput<P, D, B>, regions: seq<Region>, unmapped: B, t': PortTracked<P, D, B>)
    requires Live(t, regions, unmapped) && PortFits(t.port, i) && RunShape(t) && !Choked(t.port)
    requires t' == PortTrackedNext(t, i, regions, unmapped) && Live(t', regions, unmapped)
    requires |t'.port.wId.queue.memory| == |t.port.wId.queue.memory|
    requires DataToGo(t.track) && t.track.routedW == |t.track.data| && DataToGo(t'.track)
    requires t'.track.routedW == |t'.track.data| && t.port.frontW.buffered && !TakesW(t.port, i)
    requires Load(t'.port.wId) == Load(t.port.wId) + Bit(TakesAw(t.port, i))
    ensures var wait, wait' := DataWait(t.port), DataWait(t'.port);
            wait' < wait || (RefusedAw(t.port, i) && wait' <= wait)
  {
    if Load(t'.port.wId) <= |t.port.wId.queue.memory| {
      FittingStep(t, i, regions, unmapped, t');
    } else if Load(t.port.wId) <= |t.port.wId.queue.memory| {
      OverfullSoon(t, i, regions, unmapped);
    } else {
      OverfullStep(t, i, regions, unmapped);
    }
  }

  lemma EnterDataPhase<P, D, B(!new)>(
    t: PortTracked<P, D, B>, i: PortInput<P, D, B>, regions: seq<Region>, unmapped: B)
    requires Live(t, regions, unmapped) && PortFits(t.port, i) && Mapped(t, regions)
    requires !AddressToGo(t.track) && DataToGo(t.track) && t.track.routedW == |t.track.data| < |t.data|
    requires !Choked(t.port)
    ensures var t' := PortTrackedNext(t, i, regions, unmapped);
            && Live(t', regions, unmapped)
            && (|| Moved(t.track, t'.track)
                || Wait(t', regions, unmapped) < Wait(t, regions, unmapped)
                || (Stalled(t, i, regions) && Wait(t', regions, unmapped) <= Wait(t, regions, unmapped)))
  {
    var t' := PortTrackedNext(t, i, regions, unmapped);
    LiveStep(t, i, regions, unmapped);
    CountsStep(t, i, regions, unmapped);
    if !Moved(t.track, t'.track) {
      EnterDataStays(t, i, regions, unmapped);
      ReleasedStep(t, i, regions, unmapped);
      DataWaitStep(t, i, regions, unmapped, t');
      WaitIsDataWait(t, regions, unmapped);
      WaitIsDataWait(t', regions, unmapped);
    }
  }

  // ----- an address passes -----

  predicate AllRouted<P, D, B>(b: Tracked<P, D, B>) {
    |b.returned| == b.collected == |b.requests| == b.routedAw == b.routedW
  }

  lemma WaitIsEnterWait<P, D, B(!new)>(t: PortTracked<P, D, B>, regions: seq<Region>, unmapped: B)
    requires Live(t, regions, unmapped) && AllRouted(t.track)
    ensures Wait(t, regions, unmapped) == if t.port.aw.queue.ready && LanesReady(t.port) then 0 else 1
  {
  }

  lemma EnterPhase<P, D, B(!new)>(
    t: PortTracked<P, D, B>, i: PortInput<P, D, B>, regions: seq<Region>, unmapped: B)
    requires Live(t, regions, unmapped) && PortFits(t.port, i)
    requires AllRouted(t.track) && |t.track.requests| < |t.addresses|
    ensures var t' := PortTrackedNext(t, i, regions, unmapped);
            && Live(t', regions, unmapped)
            && (Moved(t.track, t'.track) || Wait(t', regions, unmapped) < Wait(t, regions, unmapped))
  {
    var t' := PortTrackedNext(t, i, regions, unmapped);
    LiveStep(t, i, regions, unmapped);
    Counts(t, i, regions, unmapped);
    if !Moved(t.track, t'.track) {
      Holdings(t, regions, unmapped);
      Holdings(t', regions, unmapped);
      EnterStep(t, i, regions, unmapped);
      WaitIsEnterWait(t, regions, unmapped);
      WaitIsEnterWait(t', regions, unmapped);
    }
  }

  // ----- a slave answers -----

  lemma WriteIsSent<P, D, B(!new)>(b: Tracked<P, D, B>, regions: seq<Region>, unmapped: B, k: nat)
    requires Inv(b, regions, unmapped) && k < |b.sentAw|
    requires b.collected < b.routedAw && b.collected < b.routedW && b.collected < |b.requests|
    requires Decode(regions, b.requests[b.collected].address) == Some(k)
    ensures |b.sentAw| == |b.sentW| == |b.taken| == |b.bus.toSlaveAw| == |b.bus.toSlaveW|
    ensures |b.sentAw[k]| + |Pending(b.bus.toSlaveAw[k])| > |b.taken[k]|
    ensures |b.sentW[k]| + |Pending(b.bus.toSlaveW[k])| > |b.taken[k]|
  {
    var ids := Ids(regions, b.requests);
    RoutedIsSent(b.sentAw, b.bus.toSlaveAw, b.requests, ids, b.routedAw, b.collected, k);
    RoutedIsSent(b.sentW, b.bus.toSlaveW, b.data, ids, b.routedW, b.collected, k);
    assert |b.taken[k]| == Count(ids[..b.collected], k);
  }

  lemma TakenStays<P, D, B(!new)>(
    t: PortTracked<P, D, B>, i: PortInput<P, D, B>, regions: seq<Region>, unmapped: B, k: nat)
    requires Live(t, regions, unmapped) && PortFits(t.port, i) && k < |regions|
    requires t.track.collected < |t.track.requests| && Awaited(t, regions) == Some(k) && !CollectsAnswer(t.port, i)
    ensures PortTrackedNext(t, i, regions, unmapped).track.taken[k] == t.track.taken[k]
  {
    HeadIds(t, regions, unmapped);
    SignalsAgree(t.port, i);
  }

  /** A routed write is sent as soon as its slave is ready. */
  lemma SendStep<P, D, B(!new)>(
    t: PortTracked<P, D, B>, i: PortInput<P, D, B>, regions: seq<Region>, unmapped: B, k: nat)
    requires Live(t, regions, unmapped) && PortFits(t.port, i) && k < |regions|
    requires t.track.collected < |t.track.requests| && Awaited(t, regions) == Some(k)
    requires t.track.routedAw > t.track.collected && t.track.routedW > t.track.collected
    requires !CollectsAnswer(t.port, i)
    ensures var b, b' := t.track, PortTrackedNext(t, i, regions, unmapped).track;
            && |b'.sentAw| == |b'.sentW| == |b'.taken| == |regions| && |b'.taken[k]| == |b.taken[k]|
            && (i.slaveAwReady[k] || |b.sentAw[k]| > |b.taken[k]| ==> |b'.sentAw[k]| > |b'.taken[k]|)
            && (i.slaveWReady[k] || |b.sentW[k]| > |b.taken[k]| ==> |b'.sentW[k]| > |b'.taken[k]|)
  {
    WriteIsSent(t.track, regions, unmapped, k);
    TakenStays(t, i, regions, unmapped, k);
    if i.slaveAwReady[k] {
      SentGrows(t.track.sentAw, t.track.bus.toSlaveAw, i.slaveAwReady, k);
    }
    if i.slaveWReady[k] {
      SentGrows(t.track.sentW, t.track.bus.toSlaveW, i.slaveWReady, k);
    }
  }

  lemma BufferStep<P, D, B(!new)>(
    t: PortTracked<P, D, B>, i: PortInput<P, D, B>, regions: seq<Region>, unmapped: B, k: nat)
    requires Live(t, regions, unmapped) && PortFits(t.port, i) && k < |regions|
    requires t.track.collected < |t.track.requests| && Awaited(t, regions) == Some(k) && !CollectsAnswer(t.port, i)
    ensures BufferWait(PortNext(t.port, i, regions, unmapped).responses[k]) == 0
  {
    HeadIds(t, regions, unmapped);
    AnswerStep(t.port.responses[k], i.responses[k]);
  }

  /** Id, response register and answer are all there, or the answer is not offered. */
  lemma StallsOnly<P, D, B(!new)>(
    t: PortTracked<P, D, B>, i: PortInput<P, D, B>, regions: seq<Region>, unmapped: B, k: nat)
    requires Live(t, regions, unmapped) && PortFits(t.port, i) && k < |regions|
    requires WithSlave(t, regions, k) && !CollectsAnswer(t.port, i)
    requires CollectWait(t.port) == 0 && BufferWait(t.port.responses[k]) == 0
    ensures !t.port.responses[k].buffered && !i.responses[k].valid
  {
    HeadIds(t, regions, unmapped);
    NotOffered(Head(t.port.bId), t.port.responses, i.responses, t.port.b.queue.ready, k);
  }

  /** A write that is not sent yet is sent, unless the slave keeps it waiting. */
  lemma UnsentStep<P, D, B(!new)>(
    t: PortTracked<P, D, B>, i: PortInput<P, D, B>, regions: seq<Region>, unmapped: B, k: nat)
    requires RunShape(t) && Live(t, regions, unmapped) && PortFits(t.port, i) && k < |regions|
    requires WithSlave(t, regions, k) && !CollectsAnswer(t.port, i) && !HasWrite(t, k)
    ensures var t' := PortTrackedNext(t, i, regions, unmapped);
            && RunShape(t') && |t'.port.responses| == |regions|
            && (HasWrite(t', k) || KeptWaiting(t, i, k))
  {
    SendStep(t, i, regions, unmapped, k);
  }

  /** A write that is sent is answered, then collected, unless the slave keeps it waiting. */
  lemma SentStep<P, D, B(!new)>(
    t: PortTracked<P, D, B>, i: PortInput<P, D, B>, regions: seq<Region>, unmapped: B, k: nat)
    requires RunShape(t) && Live(t, regions, unmapped) && PortFits(t.port, i) && k < |regions|
    requires WithSlave(t, regions, k) && !CollectsAnswer(t.port, i) && HasWrite(t, k)
    ensures var t' := PortTrackedNext(t, i, regions, unmapped);
            && RunShape(t') && |t'.port.responses| == |regions| && HasWrite(t', k)
            && (|| AnswerWait(t', k) < AnswerWait(t, k)
                || (AnswerWait(t', k) == AnswerWait(t, k) && KeptWaiting(t, i, k)))
  {
    CollectStep(t, i, regions, unmapped);
    SendStep(t, i, regions, unmapped, k);
    BufferStep(t, i, regions, unmapped, k);
    if CollectWait(t.port) == 0 && BufferWait(t.port.responses[k]) == 0 {
      StallsOnly(t, i, regions, unmapped, k);
    }
  }

  lemma AnswerLess<P, D, B>(t: PortTracked<P, D, B>, t': PortTracked<P, D, B>, k: nat, kept: bool)
    requires RunShape(t) && RunShape(t') && k < |t.port.responses| == |t'.port.responses|
    requires HasWrite(t', k) || (!HasWrite(t, k) && kept)
    requires HasWrite(t, k) && HasWrite(t', k) ==>
               AnswerWait(t', k) < AnswerWait(t, k) || (AnswerWait(t', k) == AnswerWait(t, k) && kept)
    ensures AnswerWait(t', k) < AnswerWait(t, k) || (kept && AnswerWait(t', k) <= AnswerWait(t, k))
  {
  }

  lemma AnswerStepWait<P, D, B(!new)>(
    t: PortTracked<P, D, B>, i: PortInput<P, D, B>, regions: seq<Region>, unmapped: B, k: nat)
    requires RunShape(t) && Live(t, regions, unmapped) && PortFits(t.port, i) && k < |regions|
    requires WithSlave(t, regions, k) && !CollectsAnswer(t.port, i)
    ensures var t' := PortTrackedNext(t, i, regions, unmapped);
            && RunShape(t') && |t'.port.responses| == |regions|
            && (|| AnswerWait(t', k) < AnswerWait(t, k)
                || (KeptWaiting(t, i, k) && AnswerWait(t', k) <= AnswerWait(t, k)))
  {
    if HasWrite(t, k) {
      SentStep(t, i, regions, unmapped, k);
    } else {
      UnsentStep(t, i, regions, unmapped, k);
    }
    AnswerLess(t, PortTrackedNext(t, i, regions, unmapped), k, KeptWaiting(t, i, k));
  }

  lemma WaitIsAnswerWait<P, D, B(!new)>(t: PortTracked<P, D, B>, regions: seq<Region>, unmapped: B, k: nat)
    requires Live(t, regions, unmapped) && WithSlave(t, regions, k)
    ensures Wait(t, regions, unmapped) == AnswerWait(t, k)
  {
  }

  lemma AnswerPhase<P, D, B(!new)>(
    t: PortTracked<P, D, B>, i: PortInput<P, D, B>, regions: seq<Region>, unmapped: B, k: nat)
    requires Live(t, regions, unmapped) && PortFits(t.port, i) && WithSlave(t, regions, k)
    ensures var t' := PortTrackedNext(t, i, regions, unmapped);
            && Live(t', regions, unmapped)
            && (|| Moved(t.track, t'.track)
                || Wait(t', regions, unmapped) < Wait(t, regions, unmapped)
                || (Stalled(t, i, regions) && Wait(t', regions, unmapped) <= Wait(t, regions, unmapped)))
  {
    LiveStep(t, i, regions, unmapped);
    Counts(t, i, regions, unmapped);
    if !CollectsAnswer(t.port, i) && Head(t.port.b).None? {
      AnswerStepWait(t, i, regions, unmapped, k);
      WaitIsAnswerWait(t, regions, unmapped, k);
      WaitIsAnswerWait(PortTrackedNext(t, i, regions, unmapped), regions, unmapped, k);
    }
  }

  // ----- clocks until all writes of a run so far are answered -----

  lemma WaitBound<P, D, B(!new)>(t: PortTracked<P, D, B>, regions: seq<Region>, unmapped: B)
    requires Live(t, regions, unmapped)
    ensures Wait(t, regions, unmapped) <= 25
  {
    if DataToGo(t.track) && t.track.routedW == |t.track.data| {
      DataWaitBound(t, regions, unmapped);
    }
  }

  lemma DataWaitBound<P, D, B(!new)>(t: PortTracked<P, D, B>, regions: seq<Region>, unmapped: B)
    requires Live(t, regions, unmapped) && DataToGo(t.track) && t.track.routedW == |t.track.data|
    ensures DataWait(t.port) <= 25
  {
    if Load(t.port.wId) <= |t.port.wId.queue.memory| {
      LoadFits(t, regions, unmapped);
      EnterDataBound(t, regions, unmapped);
    } else {
      ChokeStep(t.port.wId, None);
    }
  }

  /** The last of the first m writes has a slave, and its data is kept from it by ids that wait for data. */
  ghost predicate Stuck<P, D, B>(t: PortTracked<P, D, B>, regions: seq<Region>, m: nat) {
    && Choked(t.port) && |t.track.data| < m <= |t.addresses|
    && Decode(regions, t.addresses[m - 1].address).Some?
  }

  lemma ChokedCounts<P, D, B(!new)>(t: PortTracked<P, D, B>, regions: seq<Region>, unmapped: B)
    requires PortInv(t, regions, unmapped) && Choked(t.port)
    ensures t.track.routedW == |t.track.data|
    ensures |t.track.requests| > |t.track.data| + |t.port.wId.queue.memory|
    ensures |t.addresses| >= |t.track.requests| && |t.track.data| + 1 >= |t.data|
  {
    Holdings(t, regions, unmapped);
  }

  lemma PassedAddress<P, D, B(!new)>(t: PortTracked<P, D, B>, regions: seq<Region>, unmapped: B, n: nat)
    requires PortInv(t, regions, unmapped) && n < |t.track.requests|
    ensures n < |t.addresses| && t.addresses[n] == t.track.requests[n]
  {
  }

  /** Data can only be kept for good from the last of the complete writes. */
  lemma ChokedIsStuck<P, D, B(!new)>(t: PortTracked<P, D, B>, regions: seq<Region>, unmapped: B, m: nat)
    requires Live(t, regions, unmapped) && Mapped(t, regions) && Choked(t.port)
    requires DataToGo(t.track) && |t.track.returned| < m <= |t.data|
    ensures Stuck(t, regions, m)
  {
    ChokedCounts(t, regions, unmapped);
    assert m - 1 == t.track.collected;
    PassedAddress(t, regions, unmapped, t.track.collected);
  }

  lemma StuckStep<P, D, B>(t: PortTracked<P, D, B>, i: PortInput<P, D, B>, regions: seq<Region>, unmapped: B, m: nat)
    requires RunShape(t) && PortFits(t.port, i) && Stuck(t, regions, m)
    ensures Stuck(PortTrackedNext(t, i, regions, unmapped), regions, m)
  {
    ChokedClock(t, i, regions, unmapped);
  }

  /** Unless the last of the first m writes is stuck, some count moves on, the wait gets shorter, or the bus is
      kept waiting. */
  lemma WaitStep<P, D, B(!new)>(
    t: PortTracked<P, D, B>, i: PortInput<P, D, B>, regions: seq<Region>, unmapped: B, m: nat)
    requires Live(t, regions, unmapped) && PortFits(t.port, i)
    requires |t.track.returned| < m <= |t.addresses| && m <= |t.data| && !Stuck(t, regions, m)
    ensures var t' := PortTrackedNext(t, i, regions, unmapped);
            && Live(t', regions, unmapped)
            && (|| Moved(t.track, t'.track)
                || Wait(t', regions, unmapped) < Wait(t, regions, unmapped)
                || (Stalled(t, i, regions) && Wait(t', regions, unmapped) <= Wait(t, regions, unmapped)))
  {
    Holdings(t, regions, unmapped);
    if |t.track.returned| < t.track.collected {
      RespondPhase(t, i, regions, unmapped);
    } else if t.track.collected < |t.track.requests| && Awaited(t, regions).None? {
      UnmappedPhase(t, i, regions, unmapped);
    } else if AddressToGo(t.track) {
      RouteAwPhase(t, i, regions, unmapped);
    } else if DataToGo(t.track) {
      if t.track.routedW < |t.track.data| {
        RouteWPhase(t, i, regions, unmapped);
      } else {
        if Choked(t.port) {
          ChokedIsStuck(t, regions, unmapped, m);
        }
        EnterDataPhase(t, i, regions, unmapped);
      }
    } else if t.track.collected == |t.track.requests| {
      EnterPhase(t, i, regions, unmapped);
    } else {
      AnswerPhase(t, i, regions, unmapped, Awaited(t, regions).value);
    }
  }

  /** Steps the first m writes have yet to make: address and data into the lanes and to a slave, the answer
      to the response lane and out. */
  function Remaining<P, D, B>(b: Tracked<P, D, B>, m: nat): nat {
    Left(m, |b.requests|) + Left(m, |b.data|) + Left(m, b.routedAw) + Left(m, b.routedW)
    + Left(m, b.collected) + Left(m, |b.returned|)
  }

  ghost function Clocks<P, D, B(!new)>(t: PortTracked<P, D, B>, m: nat, regions: seq<Region>, unmapped: B): nat
    requires Live(t, regions, unmapped)
  {
    26 * Remaining(t.track, m) + Wait(t, regions, unmapped)
  }

  lemma MovesCount<P, D, B>(b: Tracked<P, D, B>, b': Tracked<P, D, B>, m: nat)
    requires OneStep(b, b') && |b.returned| < m && |b.returned| <= b.collected
    ensures Remaining(b', m) <= Remaining(b, m) && (Moved(b, b') ==> Remaining(b', m) < Remaining(b, m))
  {
    LeftStep(m, |b.requests|, |b'.requests|);
    LeftStep(m, |b.data|, |b'.data|);
    LeftStep(m, b.routedAw, b'.routedAw);
    LeftStep(m, b.routedW, b'.routedW);
    LeftStep(m, b.collected, b'.collected);
    LeftStep(m, |b.returned|, |b'.returned|);
  }

  lemma RemainingStep<P, D, B(!new)>(
    t: PortTracked<P, D, B>, i: PortInput<P, D, B>, regions: seq<Region>, unmapped: B, m: nat)
    requires Live(t, regions, unmapped) && PortFits(t.port, i) && |t.track.returned| < m
    ensures var b, b' := t.track, PortTrackedNext(t, i, regions, unmapped).track;
            Remaining(b', m) <= Remaining(b, m) && (Moved(b, b') ==> Remaining(b', m) < Remaining(b, m))
  {
    Counts(t, i, regions, unmapped);
    Holdings(t, regions, unmapped);
    MovesCount(t.track, PortTrackedNext(t, i, regions, unmapped).track, m);
  }

  /** Every clock in which the bus is not kept waiting brings the answers of the first m writes closer, unless the
      last of them is stuck. */
  lemma ClocksStep<P, D, B(!new)>(
    t: PortTracked<P, D, B>, i: PortInput<P, D, B>, regions: seq<Region>, unmapped: B, m: nat)
    requires Live(t, regions, unmapped) && PortFits(t.port, i)
    requires |t.track.returned| < m <= |t.addresses| && m <= |t.data| && !Stuck(t, regions, m)
    ensures var t' := PortTrackedNext(t, i, regions, unmapped);
            && Live(t', regions, unmapped)
            && Clocks(t', m, regions, unmapped)
               <= Clocks(t, m, regions, unmapped) - (if Stalled(t, i, regions) then 0 else 1)
  {
    WaitStep(t, i, regions, unmapped, m);
    RemainingStep(t, i, regions, unmapped, m);
    WaitBound(PortTrackedNext(t, i, regions, unmapped), regions, unmapped);
  }

  // ----- whole runs -----

  datatype Watched<P, D, B> = Watched(state: PortTracked<P, D, B>, tally: Tally)

  function WatchedNext<P, D, B>(
    w: Watched<P, D, B>, i: PortInput<P, D, B>, regions: seq<Region>, unmapped: B): (w': Watched<P, D, B>)
    requires RunShape(w.state) && PortFits(w.state.port, i)
    ensures RunShape(w'.state) && |w'.state.port.responses| == |w.state.port.responses|
  {
    var t, t' := w.state, PortTrackedNext(w.state, i, regions, unmapped);
    Watched(t', TallyNext(w.tally, Stalled(t, i, regions), |t'.track.returned| > |t.track.returned|))
  }

  /** A run with the account of the clocks in which it is kept waiting. */
  function Watch<P, D, B>(start: PortTracked<P, D, B>, inputs: seq<PortInput<P, D, B>>, regions: seq<Region>,
                          unmapped: B): (w: Watched<P, D, B>)
    requires RunShape(start) && AllPortsFit(inputs, |start.port.responses|)
    ensures RunShape(w.state) && |w.state.port.responses| == |start.port.responses|
  {
    if inputs == [] then Watched(start, Tally(0, 0, 0)) else
    WatchedNext(Watch(start, inputs[..|inputs| - 1], regions, unmapped), inputs[|inputs| - 1], regions, unmapped)
  }

  lemma {:induction false} WatchIsRun<P, D, B>(start: PortTracked<P, D, B>, inputs: seq<PortInput<P, D, B>>,
                                               regions: seq<Region>, unmapped: B)
    requires RunShape(start) && AllPortsFit(inputs, |start.port.responses|)
    ensures Watch(start, inputs, regions, unmapped).state == PortRun(start, inputs, regions, unmapped)
  {
    if inputs != [] {
      var n := |inputs| - 1;
      var w := Watch(start, inputs[..n], regions, unmapped);
      WatchIsRun(start, inputs[..n], regions, unmapped);
      assert Watch(start, inputs, regions, unmapped) == WatchedNext(w, inputs[n], regions, unmapped);
      assert PortRun(start, inputs, regions, unmapped) == PortTrackedNext(w.state, inputs[n], regions, unmapped);
    }
  }

  lemma CountsGrow<P, D, B(!new)>(
    t: PortTracked<P, D, B>, i: PortInput<P, D, B>, regions: seq<Region>, unmapped: B)
    requires Live(t, regions, unmapped) && PortFits(t.port, i)
    ensures var t' := PortTrackedNext(t, i, regions, unmapped);
            && |t.track.returned| <= |t'.track.returned| <= |t.track.returned| + 1
            && (Stalled(t, i, regions) ==> |t'.track.returned| == |t.track.returned|)
            && |t'.addresses| >= |t.addresses| && |t'.data| >= |t.data|
  {
    Counts(t, i, regions, unmapped);
    HeadIsShown(t.port.b);
    Holdings(t, regions, unmapped);
  }

  ghost predicate SoundWrite<P, D, B(!new)>(w: Watched<P, D, B>, regions: seq<Region>, unmapped: B, elapsed: nat,
                                            m: nat, most: nat, course: nat, budget: nat) {
    var t := w.state;
    && Live(t, regions, unmapped) && m <= |t.addresses| && m <= |t.data|
    && (!Stuck(t, regions, m) ==>
          Sound(w.tally, |t.track.returned|, Clocks(t, m, regions, unmapped), elapsed,
                m, most, course, budget))
  }

  lemma SoundWriteStep<P, D, B(!new)>(
    w: Watched<P, D, B>, i: PortInput<P, D, B>, w': Watched<P, D, B>, regions: seq<Region>, unmapped: B, elapsed: nat,
    m: nat, most: nat, course: nat, budget: nat)
    requires SoundWrite(w, regions, unmapped, elapsed, m, most, course, budget) && RunShape(w.state)
    requires PortFits(w.state.port, i) && w' == WatchedNext(w, i, regions, unmapped)
    ensures SoundWrite(w', regions, unmapped, elapsed + 1, m, most, course, budget)
  {
    var t, t' := w.state, PortTrackedNext(w.state, i, regions, unmapped);
    LiveStep(t, i, regions, unmapped);
    CountsGrow(t, i, regions, unmapped);
    if Stuck(t, regions, m) {
      StuckStep(t, i, regions, unmapped, m);
    } else {
      if |t.track.returned| < m {
        ClocksStep(t, i, regions, unmapped, m);
      }
      SoundStep(w.tally, Stalled(t, i, regions), |t.track.returned|, Clocks(t, m, regions, unmapped),
                |t'.track.returned|, Clocks(t', m, regions, unmapped), elapsed, m, most, course, budget);
    }
  }

  lemma {:induction false} SoundWriteRun<P, D, B(!new)>(
    start: PortTracked<P, D, B>, inputs: seq<PortInput<P, D, B>>, regions: seq<Region>, unmapped: B,
    m: nat, most: nat, course: nat, budget: nat)
    requires RunShape(start) && AllPortsFit(inputs, |start.port.responses|)
    requires SoundWrite(Watch(start, [], regions, unmapped), regions, unmapped, 0, m, most, course, budget)
    ensures SoundWrite(Watch(start, inputs, regions, unmapped), regions, unmapped, |inputs|, m, most, course, budget)
  {
    if inputs == [] {
      assert Watch(start, inputs, regions, unmapped) == Watch(start, [], regions, unmapped);
    } else {
      var n := |inputs| - 1;
      SoundWriteRun(start, inputs[..n], regions, unmapped, m, most, course, budget);
      var w, w' := Watch(start, inputs[..n], regions, unmapped), Watch(start, inputs, regions, unmapped);
      assert w' == WatchedNext(w, inputs[n], regions, unmapped);
      SoundWriteStep(w, inputs[n], w', regions, unmapped, n, m, most, course, budget);
    }
  }

  /** The writes of which both address and data have been accepted. */
  function Complete<P, D, B>(t: PortTracked<P, D, B>): nat {
    Min(|t.addresses|, |t.data|)
  }

  /** Complete writes not yet passed on, address and data, and answered. */
  function Outstanding<P, D, B>(t: PortTracked<P, D, B>): nat {
    Left(Complete(t), Min(Min(t.track.routedAw, t.track.routedW), |t.track.returned|))
  }

  lemma RemainingBound<P, D, B>(b: Tracked<P, D, B>, m: nat, n: nat)
    requires b.routedAw <= |b.requests| && b.routedW <= |b.data| && |b.returned| <= b.collected
    requires n == Left(m, Min(Min(b.routedAw, b.routedW), |b.returned|))
    ensures Remaining(b, m) <= 6 * n && Left(m, |b.returned|) <= n
  {
  }

  lemma OutstandingBounds<P, D, B(!new)>(
    t: PortTracked<P, D, B>, regions: seq<Region>, unmapped: B, m: nat, n: nat)
    requires Live(t, regions, unmapped) && m == Complete(t) && n == Outstanding(t)
    ensures Left(m, |t.track.returned|) <= n
    ensures Clocks(t, m, regions, unmapped) <= 156 * n + 25
  {
    Holdings(t, regions, unmapped);
    RemainingBound(t.track, m, n);
    WaitBound(t, regions, unmapped);
  }

  lemma SoundStart<P, D, B(!new)>(t: PortTracked<P, D, B>, n: nat, regions: seq<Region>, unmapped: B, most: nat)
    requires RunShape(t) && Live(t, regions, unmapped) && n == Outstanding(t)
    ensures SoundWrite(Watch(t, [], regions, unmapped), regions, unmapped, 0, Complete(t), most,
                       156 * n + 25, Allowance(most, n))
  {
    OutstandingBounds(t, regions, unmapped, Complete(t), n);
    AllowanceGrows(most, Left(Complete(t), |t.track.returned|), n);
  }

  lemma SoundWriteEnd<P, D, B(!new)>(w: Watched<P, D, B>, regions: seq<Region>, unmapped: B, elapsed: nat, m: nat,
                                     most: nat, n: nat, budget: nat)
    requires SoundWrite(w, regions, unmapped, elapsed, m, most, 156 * n + 25, budget)
    requires w.tally.longest <= most && elapsed >= 156 * n + budget
    ensures |w.state.track.returned| >= m || Stuck(w.state, regions, m)
  {
  }

  lemma ServedRun<P, D, B(!new)>(
    start: PortTracked<P, D, B>, inputs: seq<PortInput<P, D, B>>, regions: seq<Region>, unmapped: B, most: nat,
    n: nat, m: nat, budget: nat)
    requires RunShape(start) && AllPortsFit(inputs, |start.port.responses|)
    requires Watch(start, inputs, regions, unmapped).tally.longest <= most
    requires SoundWrite(Watch(start, [], regions, unmapped), regions, unmapped, 0, m, most,
                        156 * n + 25, budget)
    requires |inputs| >= 156 * n + budget
    ensures var t := Watch(start, inputs, regions, unmapped).state;
            |t.track.returned| >= m || Stuck(t, regions, m)
  {
    SoundWriteRun(start, inputs, regions, unmapped, m, most, 156 * n + 25, budget);
    SoundWriteEnd(Watch(start, inputs, regions, unmapped), regions, unmapped, |inputs|, m, most, n, budget);
  }

  lemma {:induction false} EnoughClocks(clocks: nat, most: nat, n: nat)
    requires clocks >= Allowance(156 + most, n)
    ensures clocks >= 156 * n + Allowance(most, n)
  {
    if n > 0 {
      EnoughClocks(clocks - 156 - most, most, n - 1);
    }
  }

  lemma ServedInTime<P, D, B(!new)>(
    start: PortTracked<P, D, B>, inputs: seq<PortInput<P, D, B>>, regions: seq<Region>, unmapped: B, most: nat,
    n: nat)
    requires Live(start, regions, unmapped) && AllPortsFit(inputs, |regions|)
    requires Watch(start, inputs, regions, unmapped).tally.longest <= most
    requires n == Outstanding(start) && |inputs| >= 156 * n + Allowance(most, n)
    ensures var t := PortRun(start, inputs, regions, unmapped);
            |t.track.returned| >= Complete(start) || Stuck(t, regions, Complete(start))
  {
    SoundStart(start, n, regions, unmapped, most);
    ServedRun(start, inputs, regions, unmapped, most, n, Complete(start), Allowance(most, n));
    WatchIsRun(start, inputs, regions, unmapped);
  }

  /** If slaves, by refusing addresses or data or by not answering, and the upstream port, by not taking
      responses, keep no write waiting for more than most clocks in all, n outstanding writes with address and
      data are all answered within 156 + most clocks for each of them, or the last of them is stuck. */
  lemma ServedOrStuck<P, D, B(!new)>(
    start: PortTracked<P, D, B>, inputs: seq<PortInput<P, D, B>>, regions: seq<Region>, unmapped: B, most: nat,
    n: nat)
    requires Live(start, regions, unmapped) && AllPortsFit(inputs, |regions|)
    requires Watch(start, inputs, regions, unmapped).tally.longest <= most
    requires n == Outstanding(start) && |inputs| >= Allowance(156 + most, n)
    ensures var t := PortRun(start, inputs, regions, unmapped);
            |t.track.returned| >= Complete(start) || Stuck(t, regions, Complete(start))
  {
    EnoughClocks(|inputs|, most, n);
    ServedInTime(start, inputs, regions, unmapped, most, n);
  }

  /** Such a run ends served or choked, with no condition on what the upstream port sends; a choked write half
      stays so for ever. */
  lemma ServedOrChoked<P, D, B(!new)>(
    start: PortTracked<P, D, B>, inputs: seq<PortInput<P, D, B>>, regions: seq<Region>, unmapped: B, most: nat,
    n: nat)
    requires Live(start, regions, unmapped) && AllPortsFit(inputs, |regions|)
    requires Watch(start, inputs, regions, unmapped).tally.longest <= most
    requires n == Outstanding(start) && |inputs| >= Allowance(156 + most, n)
    ensures var t := PortRun(start, inputs, regions, unmapped);
            |t.track.returned| >= Complete(start) || Choked(t.port)
  {
    ServedOrStuck(start, inputs, regions, unmapped, most, n);
  }

  // ----- stuck for ever -----

  /** A slave cannot have answered a write whose data it has not received. */
  lemma AnsweredHasData<P(!new), D(!new), B(!new)>(
    t: PortTracked<P, D, B>, regions: seq<Region>, unmapped: B, good: (nat, Request<P>, D, B) -> bool, n: nat)
    requires PortInv(t, regions, unmapped) && n < |t.track.returned|
    requires WritesAnswered(t.track.sentAw, t.track.sentW, t.given, good)
    ensures n < |t.addresses| && (Decode(regions, t.addresses[n].address).Some? ==> n < |t.track.data|)
  {
    TakenAnswers(t.track.sentAw, t.track.sentW, t.given, t.port.responses, t.track.taken, good);
    ResponseIsGood(t.track, regions, unmapped, good, n);
    PassedAddress(t, regions, unmapped, n);
  }

  lemma StuckIsUnanswered<P(!new), D(!new), B(!new)>(
    t: PortTracked<P, D, B>, regions: seq<Region>, unmapped: B, good: (nat, Request<P>, D, B) -> bool, m: nat)
    requires PortInv(t, regions, unmapped) && Stuck(t, regions, m)
    requires WritesAnswered(t.track.sentAw, t.track.sentW, t.given, good)
    ensures |t.track.returned| < m
  {
    if |t.track.returned| >= m {
      AnsweredHasData(t, regions, unmapped, good, m - 1);
    }
  }

  lemma {:induction false} StuckRun<P, D, B(!new)>(
    t: PortTracked<P, D, B>, inputs: seq<PortInput<P, D, B>>, regions: seq<Region>, unmapped: B, m: nat)
    requires RunShape(t) && AllPortsFit(inputs, |t.port.responses|) && Stuck(t, regions, m)
    ensures Stuck(PortRun(t, inputs, regions, unmapped), regions, m)
  {
    if inputs != [] {
      var n := |inputs| - 1;
      StuckRun(t, inputs[..n], regions, unmapped, m);
      var t' := PortRun(t, inputs[..n], regions, unmapped);
      StuckStep(t', inputs[n], regions, unmapped, m);
      assert PortRun(t, inputs, regions, unmapped) == PortTrackedNext(t', inputs[n], regions, unmapped);
    }
  }

  /** A stuck write stays unanswered for ever, whatever the ports do, unless its slave answers a write it has
      not received. */
  lemma StuckForEver<P(!new), D(!new), B(!new)>(
    t: PortTracked<P, D, B>, inputs: seq<PortInput<P, D, B>>, regions: seq<Region>, unmapped: B,
    good: (nat, Request<P>, D, B) -> bool, m: nat)
    requires PortInv(t, regions, unmapped) && |t.port.responses| == |regions| && AllPortsFit(inputs, |regions|)
    requires RunShape(t) && Stuck(t, regions, m)
    requires var t' := PortRun(t, inputs, regions, unmapped);
             WritesAnswered(t'.track.sentAw, t'.track.sentW, t'.given, good)
    ensures var t' := PortRun(t, inputs, regions, unmapped); Stuck(t', regions, m) && |t'.track.returned| < m
  {
    StuckRun(t, inputs, regions, unmapped, m);
    PortRunInv(t, inputs, regions, unmapped);
    StuckIsUnanswered(PortRun(t, inputs, regions, unmapped), regions, unmapped, good, m);
  }

  /** Main result on progress of writes: with slaves that answer writes they have received, after enough clocks
      all writes that were complete at the start are answered if and only if the last of them is not stuck. */
  lemma ServedIffNotStuck<P(!new), D(!new), B(!new)>(
    start: PortTracked<P, D, B>, inputs: seq<PortInput<P, D, B>>, regions: seq<Region>, unmapped: B,
    good: (nat, Request<P>, D, B) -> bool, most: nat, n: nat)
    requires Live(start, regions, unmapped) && AllPortsFit(inputs, |regions|)
    requires Watch(start, inputs, regions, unmapped).tally.longest <= most
    requires n == Outstanding(start) && |inputs| >= Allowance(156 + most, n)
    requires var t := PortRun(start, inputs, regions, unmapped);
             WritesAnswered(t.track.sentAw, t.track.sentW, t.given, good)
    ensures var t := PortRun(start, inputs, regions, unmapped);
            |t.track.returned| >= Complete(start) <==> !Stuck(t, regions, Complete(start))
  {
    var t := PortRun(start, inputs, regions, unmapped);
    ServedOrStuck(start, inputs, regions, unmapped, most, n);
    PortRunInv(start, inputs, regions, unmapped);
    if Stuck(t, regions, Complete(start)) {
      StuckIsUnanswered(t, regions, unmapped, good, Complete(start));
    }
  }

  // ----- a paced upstream port -----

  lemma PacedIsNotChoked<P, D, B(!new)>(t: PortTracked<P, D, B>, regions: seq<Region>, unmapped: B)
    requires PortInv(t, regions, unmapped) && Paced(t)
    ensures !Choked(t.port)
  {
    if Choked(t.port) {
      ChokedCounts(t, regions, unmapped);
    }
  }

  /** All of them are answered if the run ends less than a whole queue of addresses ahead of data. */
  lemma WritesAreServed<P, D, B(!new)>(
    start: PortTracked<P, D, B>, inputs: seq<PortInput<P, D, B>>, regions: seq<Region>, unmapped: B, most: nat,
    n: nat)
    requires Live(start, regions, unmapped) && AllPortsFit(inputs, |regions|)
    requires Watch(start, inputs, regions, unmapped).tally.longest <= most
    requires n == Outstanding(start) && |inputs| >= Allowance(156 + most, n)
    requires Paced(PortRun(start, inputs, regions, unmapped))
    ensures |PortRun(start, inputs, regions, unmapped).track.returned| >= Complete(start)
  {
    ServedOrChoked(start, inputs, regions, unmapped, most, n);
    PortRunInv(start, inputs, regions, unmapped);
    PacedIsNotChoked(PortRun(start, inputs, regions, unmapped), regions, unmapped);
  }

  // ----- new addresses -----

  /** After any clock the upstream port is ready for an address, or for data, unless it holds one. */
  lemma ReadyOrHolding<P, D, B>(p: WritePort<P, D, B>, i: PortInput<P, D, B>, regions: seq<Region>, unmapped: B)
    requires PortShape(p) && PortFits(p, i)
    ensures var p' := PortNext(p, i, regions, unmapped); BufferWait(p'.frontAw) == BufferWait(p'.frontW) == 0
  {
  }

  lemma ReadyAfterRun<P, D, B>(
    start: PortTracked<P, D, B>, inputs: seq<PortInput<P, D, B>>, regions: seq<Region>, unmapped: B)
    requires RunShape(start) && AllPortsFit(inputs, |start.port.responses|) && inputs != []
    ensures BufferWait(PortRun(start, inputs, regions, unmapped).port.frontAw) == 0
  {
    var n := |inputs| - 1;
    var t := PortRun(start, inputs[..n], regions, unmapped);
    assert PortRun(start, inputs, regions, unmapped) == PortTrackedNext(t, inputs[n], regions, unmapped);
    ReadyOrHolding(t.port, inputs[n], regions, unmapped);
  }

  lemma {:induction false} AddressesGrow<P, D, B>(
    start: PortTracked<P, D, B>, inputs: seq<PortInput<P, D, B>>, regions: seq<Region>, unmapped: B)
    requires RunShape(start) && AllPortsFit(inputs, |start.port.responses|)
    ensures |PortRun(start, inputs, regions, unmapped).addresses| >= |start.addresses|
  {
    if inputs != [] {
      var n := |inputs| - 1;
      AddressesGrow(start, inputs[..n], regions, unmapped);
      var t := PortRun(start, inputs[..n], regions, unmapped);
      assert PortRun(start, inputs, regions, unmapped) == PortTrackedNext(t, inputs[n], regions, unmapped);
    }
  }

  lemma TakesAddress<P, D, B(!new)>(
    t: PortTracked<P, D, B>, i: PortInput<P, D, B>, regions: seq<Region>, unmapped: B, n: nat)
    requires PortInv(t, regions, unmapped) && RunShape(t) && PortFits(t.port, i) && i.request.valid
    requires BufferWait(t.port.frontAw) == 0 && |t.track.returned| >= n && |t.addresses| >= n
    ensures |PortTrackedNext(t, i, regions, unmapped).addresses| > n
  {
    Holdings(t, regions, unmapped);
  }

  /** The port does not shut itself unless it chokes: one clock after the time in which all complete writes are
      answered, an address that is offered has been accepted beyond those of the complete writes. */
  lemma AddressesAreTaken<P, D, B(!new)>(
    start: PortTracked<P, D, B>, inputs: seq<PortInput<P, D, B>>, last: PortInput<P, D, B>, regions: seq<Region>,
    unmapped: B, most: nat, n: nat)
    requires Live(start, regions, unmapped) && AllPortsFit(inputs, |regions|) && inputs != []
    requires Watch(start, inputs, regions, unmapped).tally.longest <= most
    requires n == Outstanding(start) && |inputs| >= Allowance(156 + most, n)
    requires PortFits(start.port, last) && last.request.valid
    ensures var t := PortRun(start, inputs, regions, unmapped);
            Choked(t.port) || |PortTrackedNext(t, last, regions, unmapped).addresses| > Complete(start)
  {
    ServedOrChoked(start, inputs, regions, unmapped, most, n);
    PortRunInv(start, inputs, regions, unmapped);
    ReadyAfterRun(start, inputs, regions, unmapped);
    AddressesGrow(start, inputs, regions, unmapped);
    if !Choked(PortRun(start, inputs, regions, unmapped).port) {
      TakesAddress(PortRun(start, inputs, regions, unmapped), last, regions, unmapped, Complete(start));
    }
  }
}
