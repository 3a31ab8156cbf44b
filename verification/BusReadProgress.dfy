/** Progress of the read half of the bus at its ports: how soon the accepted requests are answered. */
module BusReadProgress {
  import opened Wrapping
  import opened Streams
  import opened BusParts
  import opened BusPorts
  import opened BusRead
  import opened BusReadPort
  import opened BusWaits
  import Queues

  // ----- what a clock does to the counts -----

  /** A state out of reset. */
  ghost predicate Live<P, B(!new)>(t: PortTracked<P, B>, regions: seq<Region>, unmapped: B) {
    PortInv(t, regions, unmapped) && t.port.released[0] && |t.port.responses| == |regions|
  }

  lemma LiveStep<P, B(!new)>(t: PortTracked<P, B>, i: PortInput<P, B>, regions: seq<Region>, unmapped: B)
    requires Live(t, regions, unmapped) && PortFits(t.port, i)
    ensures Live(PortTrackedNext(t, i, regions, unmapped), regions, unmapped)
  {
    PortStepInv(t, i, regions, unmapped);
  }

  /** Lanes and front buffer hold what has passed one point and not yet the next. */
  lemma Holdings<P, B(!new)>(t: PortTracked<P, B>, regions: seq<Region>, unmapped: B)
    requires PortInv(t, regions, unmapped)
    ensures t.track.routed <= |t.track.requests| && |t.track.returned| <= t.track.collected <= |t.track.requests|
    ensures Contents(Abstract(t.port.ar)) == [] <==> t.track.routed == |t.track.requests|
    ensures Contents(Abstract(t.port.arId)) == [] <==> t.track.routed == |t.track.requests|
    ensures Contents(Abstract(t.port.rId)) == [] <==> t.track.collected == |t.track.requests|
    ensures Contents(Abstract(t.port.r)) == [] <==> |t.track.returned| == t.track.collected
    ensures |t.accepted| == |t.track.requests| + Bit(t.port.front.buffered)
  {
  }

  lemma HeadIds<P, B(!new)>(t: PortTracked<P, B>, regions: seq<Region>, unmapped: B)
    requires PortInv(t, regions, unmapped)
    ensures Head(t.port.rId).Some? ==>
              && t.track.collected < |t.track.requests|
              && Head(t.port.rId).value == Decode(regions, t.track.requests[t.track.collected].address)
    ensures Head(t.port.arId).Some? ==>
              && t.track.routed < |t.track.requests|
              && Head(t.port.arId).value == Decode(regions, t.track.requests[t.track.routed].address)
  {
    var ids := Ids(regions, t.track.requests);
    HeadIsShown(t.port.rId);
    HeadOf(Abstract(t.port.rId), t.port.rId.queue.valid, ids, t.track.collected);
    HeadIsShown(t.port.arId);
    HeadOf(Abstract(t.port.arId), t.port.arId.queue.valid, ids, t.track.routed);
  }

  lemma Counts<P, B(!new)>(t: PortTracked<P, B>, i: PortInput<P, B>, regions: seq<Region>, unmapped: B)
    requires PortInv(t, regions, unmapped) && PortFits(t.port, i)
    ensures var b, b' := t.track, PortTrackedNext(t, i, regions, unmapped).track;
            && b.requests <= b'.requests
            && |b'.requests| == |b.requests| + Bit(Seen(t.port.front, i.request).Some? && IdsReady(t.port))
            && b'.routed == b.routed + Bit(RoutesAr(t.port, i))
            && b'.collected == b.collected + Bit(CollectsAnswer(t.port, i))
            && |b'.returned| == |b.returned| + Bit(Head(t.port.r).Some? && i.masterReady)
  {
    SignalsAgree(t.port, i);
  }

  // ----- what the oldest unanswered request waits for -----

  function RouteWait<P, B>(p: ReadPort<P, B>): (n: nat)
    ensures n <= 4
  {
    Max(Await(p.ar), Await(p.arId))
  }

  function CollectWait<P, B>(p: ReadPort<P, B>): (n: nat)
    ensures n <= 4
  {
    Max(Await(p.rId), AwaitReady(p.r))
  }

  /** The slave of the oldest request without a collected answer, if it has one. */
  function Awaited<P, B>(t: PortTracked<P, B>, regions: seq<Region>): Id
    requires t.track.collected < |t.track.requests|
  {
    Decode(regions, t.track.requests[t.track.collected].address)
  }

  predicate RunShape<P, B>(t: PortTracked<P, B>) {
    PortShape(t.port) && Shape(t.track) && |t.track.sent| == |t.port.responses| == |t.given|
  }

  /** Clocks until a count moves on, unless the bus is kept waiting. */
  ghost function Wait<P, B(!new)>(t: PortTracked<P, B>, regions: seq<Region>, unmapped: B): (n: nat)
    requires Live(t, regions, unmapped)
    ensures n <= 5
  {
    var p, b := t.port, t.track;
    if |b.returned| < b.collected then Await(p.r)
    else if b.collected == |b.requests| then
      if b.routed < |b.requests| then RouteWait(p) else if IdsReady(p) then 0 else 1
    else match Awaited(t, regions)
      case None => CollectWait(p)
      case Some(k) =>
        if b.routed <= b.collected then RouteWait(p)
        else if |b.sent[k]| <= |b.taken[k]| then 5
        else Max(CollectWait(p), BufferWait(p.responses[k]))
  }

  /** A slave refuses the request that is shown to it. */
  predicate Refused<P, B>(p: ReadPort<P, B>, i: PortInput<P, B>) {
    Head(p.ar).Some? && RefusedBy(Head(p.arId), i.slaveReady)
  }

  /** The oldest request without a collected answer has been routed to slave k. */
  predicate WithSlave<P, B>(t: PortTracked<P, B>, regions: seq<Region>, k: nat) {
    && |t.track.returned| == t.track.collected < |t.track.requests| && Awaited(t, regions) == Some(k)
    && t.track.routed > t.track.collected
  }

  /** Slave k does not take the request in its register, or does not offer the answer it owes. */
  predicate KeptWaiting<P, B>(t: PortTracked<P, B>, i: PortInput<P, B>, k: nat)
    requires RunShape(t) && PortFits(t.port, i) && k < |t.port.responses|
  {
    if |t.track.sent[k]| <= |t.track.taken[k]| then !i.slaveReady[k]
    else !t.port.responses[k].buffered && !i.responses[k].valid
  }

  /** The oldest request without a collected answer, if there is one, has not been routed. */
  predicate ToRoute<P, B>(b: Tracked<P, B>) {
    b.routed <= b.collected || b.collected == |b.requests|
  }

  /** At this clock a slave keeps the oldest unanswered request waiting or, once its answer is collected, the
      upstream port does. */
  predicate Stalled<P, B>(t: PortTracked<P, B>, i: PortInput<P, B>, regions: seq<Region>)
    requires RunShape(t) && PortFits(t.port, i)
  {
    if |t.track.returned| < t.track.collected then !i.masterReady else
    && !CollectsAnswer(t.port, i)
    && (|| (ToRoute(t.track) && Refused(t.port, i))
        || exists k :: 0 <= k < |t.port.responses| && WithSlave(t, regions, k) && KeptWaiting(t, i, k))
  }

  // ----- each kind of wait ends -----

  lemma RespondStep<P, B(!new)>(t: PortTracked<P, B>, i: PortInput<P, B>, regions: seq<Region>, unmapped: B)
    requires Live(t, regions, unmapped) && PortFits(t.port, i)
    requires |t.track.returned| < t.track.collected && (Head(t.port.r).None? || !i.masterReady)
    ensures Await(RNext(t.port, i, unmapped)) < Await(t.port.r)
         || (!i.masterReady && Await(RNext(t.port, i, unmapped)) <= Await(t.port.r))
  {
    Holdings(t, regions, unmapped);
    var load := CollectorLoad(Head(t.port.rId), SeenAll(t.port.responses, i.responses), unmapped);
    if i.masterReady {
      AwaitStep(t.port.r, load, true);
    } else {
      AwaitStays(t.port.r, load);
    }
  }

  lemma ArStep<P, B>(p: ReadPort<P, B>, i: PortInput<P, B>)
    requires PortShape(p) && PortFits(p, i) && Queues.Inv(p.ar.queue) && p.released[0]
    requires Contents(Abstract(p.ar)) != [] && !RoutesAr(p, i)
    ensures Await(ArNext(p, i)) <= (if Await(p.ar) == 0 then 0 else Await(p.ar) - 1)
  {
    AwaitStep(p.ar, if p.arId.queue.ready && p.rId.queue.ready then Seen(p.front, i.request) else None,
              !p.ar.queue.valid);
  }

  lemma ArIdStep<P, B>(p: ReadPort<P, B>, i: PortInput<P, B>, regions: seq<Region>)
    requires PortShape(p) && PortFits(p, i) && Queues.Inv(p.arId.queue) && p.released[0]
    requires Contents(Abstract(p.arId)) != [] && !RoutesAr(p, i)
    ensures Await(ArIdNext(p, i, regions)) <= (if Await(p.arId) == 0 then 0 else Await(p.arId) - 1)
  {
    AwaitStep(p.arId, if p.ar.queue.ready && p.rId.queue.ready then IdSeen(p, i, regions) else None,
              !p.arId.queue.valid);
  }

  lemma OnlyRefused<P, B(!new)>(t: PortTracked<P, B>, i: PortInput<P, B>, regions: seq<Region>, unmapped: B)
    requires Live(t, regions, unmapped) && PortFits(t.port, i)
    requires Head(t.port.ar).Some? && Head(t.port.arId).Some? && !RoutesAr(t.port, i)
    ensures Refused(t.port, i)
  {
    HeadIds(t, regions, unmapped);
  }

  /** A request that is not routed comes closer, or its slave refuses it. */
  lemma RouteStep<P, B(!new)>(t: PortTracked<P, B>, i: PortInput<P, B>, regions: seq<Region>, unmapped: B)
    requires Live(t, regions, unmapped) && PortFits(t.port, i)
    requires t.track.routed < |t.track.requests| && !RoutesAr(t.port, i)
    ensures var wait, wait' := RouteWait(t.port), RouteWait(PortNext(t.port, i, regions, unmapped));
            wait' < wait || (Refused(t.port, i) && wait' <= wait)
  {
    Holdings(t, regions, unmapped);
    ArStep(t.port, i);
    ArIdStep(t.port, i, regions);
    if RouteWait(t.port) == 0 {
      OnlyRefused(t, i, regions, unmapped);
    }
  }

  lemma EnterStep<P, B(!new)>(t: PortTracked<P, B>, i: PortInput<P, B>, regions: seq<Region>, unmapped: B)
    requires Live(t, regions, unmapped) && PortFits(t.port, i)
    requires t.track.routed == t.track.collected == |t.track.requests|
    ensures IdsReady(PortNext(t.port, i, regions, unmapped))
  {
    var p := t.port;
    Holdings(t, regions, unmapped);
    ReadyStep(p.ar, if p.arId.queue.ready && p.rId.queue.ready then Seen(p.front, i.request) else None,
              TakenOrIdle(p.ar, RoutesAr(p, i)));
    ReadyStep(p.arId, if p.ar.queue.ready && p.rId.queue.ready then IdSeen(p, i, regions) else None,
              TakenOrIdle(p.arId, RoutesAr(p, i)));
    ReadyStep(p.rId, if p.ar.queue.ready && p.arId.queue.ready then IdSeen(p, i, regions) else None,
              TakenOrIdle(p.rId, CollectsAnswer(p, i)));
  }

  /** Nothing is collected: the id and the response register come closer. */
  lemma CollectStep<P, B(!new)>(t: PortTracked<P, B>, i: PortInput<P, B>, regions: seq<Region>, unmapped: B)
    requires Live(t, regions, unmapped) && PortFits(t.port, i)
    requires |t.track.returned| == t.track.collected < |t.track.requests| && !CollectsAnswer(t.port, i)
    ensures var p' := PortNext(t.port, i, regions, unmapped);
            CollectWait(p') <= (if CollectWait(t.port) == 0 then 0 else CollectWait(t.port) - 1)
  {
    var p := t.port;
    Holdings(t, regions, unmapped);
    AwaitStep(p.rId, if p.ar.queue.ready && p.arId.queue.ready then IdSeen(p, i, regions) else None,
              !p.rId.queue.valid);
    ReadyStep(p.r, CollectorLoad(Head(p.rId), SeenAll(p.responses, i.responses), unmapped), i.masterReady);
  }

  lemma RequestIsSent<P, B(!new)>(b: Tracked<P, B>, regions: seq<Region>, unmapped: B, k: nat)
    requires Inv(b, regions, unmapped) && k < |b.sent| == |b.taken|
    requires b.collected < b.routed && Decode(regions, b.requests[b.collected].address) == Some(k)
    ensures |b.sent[k]| + |Pending(b.bus.toSlave[k])| > |b.taken[k]|
  {
    var ids := Ids(regions, b.requests);
    RoutedIsSent(b.sent, b.bus.toSlave, b.requests, ids, b.routed, b.collected, k);
    assert |b.taken[k]| == Count(ids[..b.collected], k);
  }

  lemma TakenStays<P, B(!new)>(t: PortTracked<P, B>, i: PortInput<P, B>, regions: seq<Region>, unmapped: B, k: nat)
    requires Live(t, regions, unmapped) && PortFits(t.port, i) && k < |regions|
    requires t.track.collected < |t.track.requests| && Awaited(t, regions) == Some(k) && !CollectsAnswer(t.port, i)
    ensures PortTrackedNext(t, i, regions, unmapped).track.taken[k] == t.track.taken[k]
  {
    HeadIds(t, regions, unmapped);
    SignalsAgree(t.port, i);
  }

  /** A routed request is sent as soon as its slave is ready. */
  lemma SendStep<P, B(!new)>(t: PortTracked<P, B>, i: PortInput<P, B>, regions: seq<Region>, unmapped: B, k: nat)
    requires Live(t, regions, unmapped) && PortFits(t.port, i) && k < |regions|
    requires t.track.collected < |t.track.requests| && Awaited(t, regions) == Some(k)
    requires t.track.routed > t.track.collected && !CollectsAnswer(t.port, i)
    ensures var b' := PortTrackedNext(t, i, regions, unmapped).track;
            && |b'.sent| == |b'.taken| == |regions| && |b'.taken[k]| == |t.track.taken[k]|
            && (i.slaveReady[k] || |t.track.sent[k]| > |t.track.taken[k]| ==> |b'.sent[k]| > |b'.taken[k]|)
  {
    RequestIsSent(t.track, regions, unmapped, k);
    TakenStays(t, i, regions, unmapped, k);
    if i.slaveReady[k] {
      SentGrows(t.track.sent, t.track.bus.toSlave, i.slaveReady, k);
    }
  }

  // ----- one clock -----

  /** A count the oldest unanswered request depends on has moved on. */
  predicate Moved<P, B>(b: Tracked<P, B>, b': Tracked<P, B>) {
    || |b'.returned| > |b.returned|
    || (|b.returned| == b.collected && b'.collected > b.collected)
    || (|b.returned| == b.collected && b'.routed > b.routed && ToRoute(b))
    || (|b.returned| == b.collected == |b.requests| && |b'.requests| > |b.requests|)
  }

  lemma RespondPhase<P, B(!new)>(t: PortTracked<P, B>, i: PortInput<P, B>, regions: seq<Region>, unmapped: B)
    requires Live(t, regions, unmapped) && PortFits(t.port, i)
    requires |t.track.returned| < t.track.collected
    ensures var t' := PortTrackedNext(t, i, regions, unmapped);
            && Live(t', regions, unmapped)
            && (|| Moved(t.track, t'.track)
                || Wait(t', regions, unmapped) < Wait(t, regions, unmapped)
                || (Stalled(t, i, regions) && Wait(t', regions, unmapped) <= Wait(t, regions, unmapped)))
  {
    LiveStep(t, i, regions, unmapped);
    Counts(t, i, regions, unmapped);
    if Head(t.port.r).None? || !i.masterReady {
      RespondStep(t, i, regions, unmapped);
    }
  }

  lemma WaitIsLastRoute<P, B(!new)>(t: PortTracked<P, B>, regions: seq<Region>, unmapped: B)
    requires Live(t, regions, unmapped)
    requires |t.track.returned| == t.track.collected == |t.track.requests| && t.track.routed < |t.track.requests|
    ensures Wait(t, regions, unmapped) == RouteWait(t.port)
  {
  }

  /** All answers are collected, but some request has yet to leave its queue. */
  lemma LastRoutePhase<P, B(!new)>(t: PortTracked<P, B>, i: PortInput<P, B>, regions: seq<Region>, unmapped: B)
    requires Live(t, regions, unmapped) && PortFits(t.port, i)
    requires |t.track.returned| == t.track.collected == |t.track.requests| && t.track.routed < |t.track.requests|
    ensures var t' := PortTrackedNext(t, i, regions, unmapped);
            && Live(t', regions, unmapped)
            && (|| Moved(t.track, t'.track)
                || Wait(t', regions, unmapped) < Wait(t, regions, unmapped)
                || (Stalled(t, i, regions) && Wait(t', regions, unmapped) <= Wait(t, regions, unmapped)))
  {
    LiveStep(t, i, regions, unmapped);
    Counts(t, i, regions, unmapped);
    Holdings(t, regions, unmapped);
    HeadIds(t, regions, unmapped);
    if !RoutesAr(t.port, i) && |PortTrackedNext(t, i, regions, unmapped).track.requests| == |t.track.requests| {
      Holdings(PortTrackedNext(t, i, regions, unmapped), regions, unmapped);
      RouteStep(t, i, regions, unmapped);
      WaitIsLastRoute(t, regions, unmapped);
      WaitIsLastRoute(PortTrackedNext(t, i, regions, unmapped), regions, unmapped);
    }
  }

  lemma WaitIsEnterWait<P, B(!new)>(t: PortTracked<P, B>, regions: seq<Region>, unmapped: B)
    requires Live(t, regions, unmapped)
    requires |t.track.returned| == t.track.collected == |t.track.requests| == t.track.routed
    ensures Wait(t, regions, unmapped) == if IdsReady(t.port) then 0 else 1
  {
  }

  lemma EnterPhase<P, B(!new)>(t: PortTracked<P, B>, i: PortInput<P, B>, regions: seq<Region>, unmapped: B)
    requires Live(t, regions, unmapped) && PortFits(t.port, i)
    requires |t.track.returned| == t.track.collected == |t.track.requests| == t.track.routed < |t.accepted|
    ensures var t' := PortTrackedNext(t, i, regions, unmapped);
            && Live(t', regions, unmapped)
            && (Moved(t.track, t'.track) || Wait(t', regions, unmapped) < Wait(t, regions, unmapped))
  {
    LiveStep(t, i, regions, unmapped);
    Counts(t, i, regions, unmapped);
    if |PortTrackedNext(t, i, regions, unmapped).track.requests| == |t.track.requests| {
      Holdings(t, regions, unmapped);
      Holdings(PortTrackedNext(t, i, regions, unmapped), regions, unmapped);
      EnterStep(t, i, regions, unmapped);
      WaitIsEnterWait(t, regions, unmapped);
      WaitIsEnterWait(PortTrackedNext(t, i, regions, unmapped), regions, unmapped);
    }
  }

  lemma WaitIsRouteWait<P, B(!new)>(t: PortTracked<P, B>, regions: seq<Region>, unmapped: B)
    requires Live(t, regions, unmapped)
    requires |t.track.returned| == t.track.collected < |t.track.requests| && t.track.routed <= t.track.collected
    requires Awaited(t, regions).Some?
    ensures Wait(t, regions, unmapped) == RouteWait(t.port)
  {
  }

  lemma RoutePhase<P, B(!new)>(t: PortTracked<P, B>, i: PortInput<P, B>, regions: seq<Region>, unmapped: B)
    requires Live(t, regions, unmapped) && PortFits(t.port, i)
    requires |t.track.returned| == t.track.collected < |t.track.requests| && t.track.routed <= t.track.collected
    requires Awaited(t, regions).Some?
    ensures var t' := PortTrackedNext(t, i, regions, unmapped);
            && Live(t', regions, unmapped)
            && (|| Moved(t.track, t'.track)
                || Wait(t', regions, unmapped) < Wait(t, regions, unmapped)
                || (Stalled(t, i, regions) && Wait(t', regions, unmapped) <= Wait(t, regions, unmapped)))
  {
    LiveStep(t, i, regions, unmapped);
    Counts(t, i, regions, unmapped);
    if !RoutesAr(t.port, i) && !CollectsAnswer(t.port, i) && Head(t.port.r).None? {
      RouteStep(t, i, regions, unmapped);
      WaitIsRouteWait(t, regions, unmapped);
      WaitIsRouteWait(PortTrackedNext(t, i, regions, unmapped), regions, unmapped);
    }
  }

  lemma WaitIsCollectWait<P, B(!new)>(t: PortTracked<P, B>, regions: seq<Region>, unmapped: B)
    requires Live(t, regions, unmapped)
    requires |t.track.returned| == t.track.collected < |t.track.requests| && Awaited(t, regions).None?
    ensures Wait(t, regions, unmapped) == CollectWait(t.port)
  {
  }

  lemma UnmappedCollected<P, B(!new)>(t: PortTracked<P, B>, i: PortInput<P, B>, regions: seq<Region>, unmapped: B)
    requires Live(t, regions, unmapped) && PortFits(t.port, i)
    requires t.track.collected < |t.track.requests| && Awaited(t, regions).None? && CollectWait(t.port) == 0
    requires |t.track.returned| == t.track.collected
    ensures CollectsAnswer(t.port, i)
  {
    Holdings(t, regions, unmapped);
    HeadIds(t, regions, unmapped);
  }

  /** An unmapped request waits for its id and the response register only. */
  lemma UnmappedPhase<P, B(!new)>(t: PortTracked<P, B>, i: PortInput<P, B>, regions: seq<Region>, unmapped: B)
    requires Live(t, regions, unmapped) && PortFits(t.port, i)
    requires |t.track.returned| == t.track.collected < |t.track.requests| && Awaited(t, regions).None?
    ensures var t' := PortTrackedNext(t, i, regions, unmapped);
            && Live(t', regions, unmapped)
            && (Moved(t.track, t'.track) || Wait(t', regions, unmapped) < Wait(t, regions, unmapped))
  {
    LiveStep(t, i, regions, unmapped);
    Counts(t, i, regions, unmapped);
    if !CollectsAnswer(t.port, i) && Head(t.port.r).None? {
      CollectStep(t, i, regions, unmapped);
      if CollectWait(t.port) == 0 {
        UnmappedCollected(t, i, regions, unmapped);
      }
      WaitIsCollectWait(t, regions, unmapped);
      WaitIsCollectWait(PortTrackedNext(t, i, regions, unmapped), regions, unmapped);
    }
  }

  /** The wait for a slave whose number is k. */
  function AnswerWait<P, B>(t: PortTracked<P, B>, k: nat): (n: nat)
    requires k < |t.port.responses| && k < |t.track.sent| && k < |t.track.taken|
    ensures n <= 5
  {
    if |t.track.sent[k]| <= |t.track.taken[k]| then 5
    else Max(CollectWait(t.port), BufferWait(t.port.responses[k]))
  }

  /** The wait of a routed request for its slave. */
  lemma WaitIsAnswerWait<P, B(!new)>(t: PortTracked<P, B>, regions: seq<Region>, unmapped: B, k: nat)
    requires Live(t, regions, unmapped)
    requires |t.track.returned| == t.track.collected < |t.track.requests| && t.track.routed > t.track.collected
    requires Awaited(t, regions) == Some(k)
    ensures Wait(t, regions, unmapped) == AnswerWait(t, k)
  {
  }

  lemma BufferStep<P, B(!new)>(
    t: PortTracked<P, B>, i: PortInput<P, B>, regions: seq<Region>, unmapped: B, k: nat)
    requires Live(t, regions, unmapped) && PortFits(t.port, i) && k < |regions|
    requires t.track.collected < |t.track.requests| && Awaited(t, regions) == Some(k) && !CollectsAnswer(t.port, i)
    ensures BufferWait(PortNext(t.port, i, regions, unmapped).responses[k]) == 0
  {
    HeadIds(t, regions, unmapped);
    AnswerStep(t.port.responses[k], i.responses[k]);
  }

  /** Id, response register and answer are all there, or the answer is not offered. */
  lemma StallsOnly<P, B(!new)>(
    t: PortTracked<P, B>, i: PortInput<P, B>, regions: seq<Region>, unmapped: B, k: nat)
    requires Live(t, regions, unmapped) && PortFits(t.port, i) && k < |regions|
    requires WithSlave(t, regions, k) && !CollectsAnswer(t.port, i)
    requires CollectWait(t.port) == 0 && BufferWait(t.port.responses[k]) == 0
    ensures !t.port.responses[k].buffered && !i.responses[k].valid
  {
    HeadIds(t, regions, unmapped);
    NotOffered(Head(t.port.rId), t.port.responses, i.responses, t.port.r.queue.ready, k);
  }

  /** A request that is sent is answered, then collected, unless the slave keeps it waiting. */
  lemma SentStep<P, B(!new)>(
    t: PortTracked<P, B>, i: PortInput<P, B>, regions: seq<Region>, unmapped: B, k: nat)
    requires RunShape(t) && Live(t, regions, unmapped) && PortFits(t.port, i) && k < |regions|
    requires WithSlave(t, regions, k) && !CollectsAnswer(t.port, i) && |t.track.sent[k]| > |t.track.taken[k]|
    ensures var t' := PortTrackedNext(t, i, regions, unmapped);
            && |t'.port.responses| == |t'.track.sent| == |t'.track.taken| == |regions|
            && |t'.track.sent[k]| > |t'.track.taken[k]|
            && (AnswerWait(t', k) < AnswerWait(t, k) || (AnswerWait(t', k) == AnswerWait(t, k) && KeptWaiting(t, i, k)))
  {
    CollectStep(t, i, regions, unmapped);
    SendStep(t, i, regions, unmapped, k);
    BufferStep(t, i, regions, unmapped, k);
    if AnswerWait(t, k) == 0 {
      StallsOnly(t, i, regions, unmapped, k);
    }
  }

  /** A request that is not sent yet is sent, unless the slave keeps it waiting. */
  lemma UnsentStep<P, B(!new)>(
    t: PortTracked<P, B>, i: PortInput<P, B>, regions: seq<Region>, unmapped: B, k: nat)
    requires RunShape(t) && Live(t, regions, unmapped) && PortFits(t.port, i) && k < |regions|
    requires WithSlave(t, regions, k) && !CollectsAnswer(t.port, i) && |t.track.sent[k]| <= |t.track.taken[k]|
    ensures var t' := PortTrackedNext(t, i, regions, unmapped);
            && |t'.port.responses| == |t'.track.sent| == |t'.track.taken| == |regions|
            && (|t'.track.sent[k]| > |t'.track.taken[k]| || KeptWaiting(t, i, k))
  {
    SendStep(t, i, regions, unmapped, k);
  }

  lemma AnswerLess<P, B>(t: PortTracked<P, B>, t': PortTracked<P, B>, k: nat, kept: bool)
    requires k < |t.port.responses| && k < |t.track.sent| && k < |t.track.taken|
    requires k < |t'.port.responses| && k < |t'.track.sent| && k < |t'.track.taken|
    requires |t'.track.sent[k]| > |t'.track.taken[k]| || (|t.track.sent[k]| <= |t.track.taken[k]| && kept)
    requires |t.track.sent[k]| > |t.track.taken[k]| ==>
               AnswerWait(t', k) < AnswerWait(t, k) || (AnswerWait(t', k) == AnswerWait(t, k) && kept)
    ensures AnswerWait(t', k) < AnswerWait(t, k) || (kept && AnswerWait(t', k) <= AnswerWait(t, k))
  {
  }

  /** The request of a slave is sent, then answered, then collected, unless the slave keeps it waiting. */
  lemma AnswerStepWait<P, B(!new)>(
    t: PortTracked<P, B>, i: PortInput<P, B>, regions: seq<Region>, unmapped: B, k: nat)
    requires RunShape(t) && Live(t, regions, unmapped) && PortFits(t.port, i) && k < |regions|
    requires WithSlave(t, regions, k) && !CollectsAnswer(t.port, i)
    ensures var t' := PortTrackedNext(t, i, regions, unmapped);
            && |t'.port.responses| == |t'.track.sent| == |t'.track.taken| == |regions|
            && (|| AnswerWait(t', k) < AnswerWait(t, k)
                || (KeptWaiting(t, i, k) && AnswerWait(t', k) <= AnswerWait(t, k)))
  {
    if |t.track.sent[k]| > |t.track.taken[k]| {
      SentStep(t, i, regions, unmapped, k);
    } else {
      UnsentStep(t, i, regions, unmapped, k);
    }
    AnswerLess(t, PortTrackedNext(t, i, regions, unmapped), k, KeptWaiting(t, i, k));
  }

  lemma AnswerPhase<P, B(!new)>(
    t: PortTracked<P, B>, i: PortInput<P, B>, regions: seq<Region>, unmapped: B, k: nat)
    requires Live(t, regions, unmapped) && PortFits(t.port, i)
    requires WithSlave(t, regions, k)
    ensures var t' := PortTrackedNext(t, i, regions, unmapped);
            && Live(t', regions, unmapped)
            && (|| Moved(t.track, t'.track)
                || Wait(t', regions, unmapped) < Wait(t, regions, unmapped)
                || (Stalled(t, i, regions) && Wait(t', regions, unmapped) <= Wait(t, regions, unmapped)))
  {
    LiveStep(t, i, regions, unmapped);
    Counts(t, i, regions, unmapped);
    if !CollectsAnswer(t.port, i) && Head(t.port.r).None? {
      AnswerStepWait(t, i, regions, unmapped, k);
      WaitIsAnswerWait(t, regions, unmapped, k);
      WaitIsAnswerWait(PortTrackedNext(t, i, regions, unmapped), regions, unmapped, k);
    }
  }

  // ----- clocks until all requests of a run so far are answered -----

  /** Steps the first m requests have yet to make: into the lanes, to a slave, to the response lane, out. */
  function Remaining<P, B>(b: Tracked<P, B>, m: nat): nat {
    Left(m, |b.requests|) + Left(m, b.routed) + Left(m, b.collected) + Left(m, |b.returned|)
  }

  ghost function Clocks<P, B(!new)>(t: PortTracked<P, B>, m: nat, regions: seq<Region>, unmapped: B): nat
    requires Live(t, regions, unmapped)
  {
    6 * Remaining(t.track, m) + Wait(t, regions, unmapped)
  }

  /** Some count moves on, the wait gets shorter, or the bus is kept waiting. */
  lemma WaitStep<P, B(!new)>(t: PortTracked<P, B>, i: PortInput<P, B>, regions: seq<Region>, unmapped: B)
    requires Live(t, regions, unmapped) && PortFits(t.port, i) && |t.track.returned| < |t.accepted|
    ensures var t' := PortTrackedNext(t, i, regions, unmapped);
            && Live(t', regions, unmapped)
            && (|| Moved(t.track, t'.track)
                || Wait(t', regions, unmapped) < Wait(t, regions, unmapped)
                || (Stalled(t, i, regions) && Wait(t', regions, unmapped) <= Wait(t, regions, unmapped)))
  {
    Holdings(t, regions, unmapped);
    if |t.track.returned| < t.track.collected {
      RespondPhase(t, i, regions, unmapped);
    } else if t.track.collected == |t.track.requests| {
      if t.track.routed < |t.track.requests| {
        LastRoutePhase(t, i, regions, unmapped);
      } else {
        EnterPhase(t, i, regions, unmapped);
      }
    } else if Awaited(t, regions).None? {
      UnmappedPhase(t, i, regions, unmapped);
    } else if t.track.routed <= t.track.collected {
      RoutePhase(t, i, regions, unmapped);
    } else {
      AnswerPhase(t, i, regions, unmapped, Awaited(t, regions).value);
    }
  }

  lemma RemainingStep<P, B(!new)>(t: PortTracked<P, B>, i: PortInput<P, B>, regions: seq<Region>, unmapped: B, m: nat)
    requires Live(t, regions, unmapped) && PortFits(t.port, i) && |t.track.returned| < m
    ensures var b, b' := t.track, PortTrackedNext(t, i, regions, unmapped).track;
            Remaining(b', m) <= Remaining(b, m) && (Moved(b, b') ==> Remaining(b', m) < Remaining(b, m))
  {
    var b, b' := t.track, PortTrackedNext(t, i, regions, unmapped).track;
    Counts(t, i, regions, unmapped);
    Holdings(t, regions, unmapped);
    LeftStep(m, |b.requests|, |b'.requests|);
    LeftStep(m, b.routed, b'.routed);
    LeftStep(m, b.collected, b'.collected);
    LeftStep(m, |b.returned|, |b'.returned|);
  }

  /** Every clock in which the bus is not kept waiting brings the answers of the first m requests closer. */
  lemma ClocksStep<P, B(!new)>(t: PortTracked<P, B>, i: PortInput<P, B>, regions: seq<Region>, unmapped: B, m: nat)
    requires Live(t, regions, unmapped) && PortFits(t.port, i)
    requires |t.track.returned| < m <= |t.accepted|
    ensures var t' := PortTrackedNext(t, i, regions, unmapped);
            && Live(t', regions, unmapped)
            && Clocks(t', m, regions, unmapped)
               <= Clocks(t, m, regions, unmapped) - (if Stalled(t, i, regions) then 0 else 1)
  {
    WaitStep(t, i, regions, unmapped);
    RemainingStep(t, i, regions, unmapped, m);
  }

  // ----- whole runs -----

  datatype Watched<P, B> = Watched(state: PortTracked<P, B>, tally: Tally)

  function WatchedNext<P, B>(
    w: Watched<P, B>, i: PortInput<P, B>, regions: seq<Region>, unmapped: B): (w': Watched<P, B>)
    requires RunShape(w.state) && PortFits(w.state.port, i)
    ensures RunShape(w'.state) && |w'.state.port.responses| == |w.state.port.responses|
  {
    var t, t' := w.state, PortTrackedNext(w.state, i, regions, unmapped);
    Watched(t', TallyNext(w.tally, Stalled(t, i, regions), |t'.track.returned| > |t.track.returned|))
  }

  /** A run with the account of the clocks in which it is kept waiting. */
  function Watch<P, B>(start: PortTracked<P, B>, inputs: seq<PortInput<P, B>>, regions: seq<Region>,
                       unmapped: B): (w: Watched<P, B>)
    requires RunShape(start) && AllPortsFit(inputs, |start.port.responses|)
    ensures RunShape(w.state) && |w.state.port.responses| == |start.port.responses|
  {
    if inputs == [] then Watched(start, Tally(0, 0, 0)) else
    WatchedNext(Watch(start, inputs[..|inputs| - 1], regions, unmapped), inputs[|inputs| - 1], regions, unmapped)
  }

  lemma {:induction false} WatchIsRun<P, B>(start: PortTracked<P, B>, inputs: seq<PortInput<P, B>>,
                                            regions: seq<Region>, unmapped: B)
    requires RunShape(start) && AllPortsFit(inputs, |start.port.responses|)
    ensures Watch(start, inputs, regions, unmapped).state == PortRun(start, inputs, regions, unmapped)
  {
    if inputs != [] {
      var n := |inputs| - 1;
      var w := Watch(start, inputs[..n], regions, unmapped);
      WatchIsRun(start, inputs[..n], regions, unmapped);
      assert Watch(start, inputs, regions, unmapped) == WatchedNext(w, inputs[n], regions, unmapped);
      assert PortRun(start, inputs, regions, unmapped) == PortTrackedNext(w.state, inputs[n], regions, unmapped);
    }
  }

  lemma CountsGrow<P, B(!new)>(
    t: PortTracked<P, B>, i: PortInput<P, B>, regions: seq<Region>, unmapped: B)
    requires Live(t, regions, unmapped) && PortFits(t.port, i)
    ensures var t' := PortTrackedNext(t, i, regions, unmapped);
            && |t.track.returned| <= |t'.track.returned| <= |t.track.returned| + 1
            && (Stalled(t, i, regions) ==> |t'.track.returned| == |t.track.returned|)
            && |t'.accepted| >= |t.accepted|
  {
    Counts(t, i, regions, unmapped);
    HeadIsShown(t.port.r);
    Holdings(t, regions, unmapped);
  }

  ghost predicate SoundRead<P, B(!new)>(w: Watched<P, B>, regions: seq<Region>, unmapped: B, elapsed: nat,
                                        m: nat, most: nat, course: nat, budget: nat) {
    var t := w.state;
    && Live(t, regions, unmapped) && m <= |t.accepted|
    && Sound(w.tally, |t.track.returned|, Clocks(t, m, regions, unmapped), elapsed,
             m, most, course, budget)
  }

  lemma SoundReadStep<P, B(!new)>(
    w: Watched<P, B>, i: PortInput<P, B>, w': Watched<P, B>, regions: seq<Region>, unmapped: B, elapsed: nat,
    m: nat, most: nat, course: nat, budget: nat)
    requires SoundRead(w, regions, unmapped, elapsed, m, most, course, budget)
    requires PortFits(w.state.port, i) && RunShape(w.state) && w' == WatchedNext(w, i, regions, unmapped)
    ensures SoundRead(w', regions, unmapped, elapsed + 1, m, most, course, budget)
  {
    var t, t' := w.state, PortTrackedNext(w.state, i, regions, unmapped);
    LiveStep(t, i, regions, unmapped);
    CountsGrow(t, i, regions, unmapped);
    if |t.track.returned| < m {
      ClocksStep(t, i, regions, unmapped, m);
    }
    SoundStep(w.tally, Stalled(t, i, regions), |t.track.returned|, Clocks(t, m, regions, unmapped),
              |t'.track.returned|, Clocks(t', m, regions, unmapped), elapsed, m, most, course, budget);
  }

  lemma {:induction false} SoundReadRun<P, B(!new)>(
    start: PortTracked<P, B>, inputs: seq<PortInput<P, B>>, regions: seq<Region>, unmapped: B,
    m: nat, most: nat, course: nat, budget: nat)
    requires RunShape(start) && AllPortsFit(inputs, |start.port.responses|)
    requires SoundRead(Watch(start, [], regions, unmapped), regions, unmapped, 0, m, most, course, budget)
    ensures SoundRead(Watch(start, inputs, regions, unmapped), regions, unmapped, |inputs|, m, most, course, budget)
  {
    if inputs == [] {
      assert Watch(start, inputs, regions, unmapped) == Watch(start, [], regions, unmapped);
    } else {
      var n := |inputs| - 1;
      SoundReadRun(start, inputs[..n], regions, unmapped, m, most, course, budget);
      var w, w' := Watch(start, inputs[..n], regions, unmapped), Watch(start, inputs, regions, unmapped);
      assert w' == WatchedNext(w, inputs[n], regions, unmapped);
      SoundReadStep(w, inputs[n], w', regions, unmapped, n, m, most, course, budget);
    }
  }

  /** Requests accepted and not yet both passed on and answered. */
  function Outstanding<P, B>(t: PortTracked<P, B>): nat {
    Left(|t.accepted|, if t.track.routed < |t.track.returned| then t.track.routed else |t.track.returned|)
  }

  lemma OutstandingBounds<P, B(!new)>(t: PortTracked<P, B>, regions: seq<Region>, unmapped: B)
    requires Live(t, regions, unmapped)
    ensures var m, n := |t.accepted|, Outstanding(t);
            Clocks(t, m, regions, unmapped) <= 24 * n + 5 && Left(m, |t.track.returned|) <= n
  {
    Holdings(t, regions, unmapped);
  }

  lemma SoundStart<P, B(!new)>(t: PortTracked<P, B>, n: nat, regions: seq<Region>, unmapped: B, most: nat)
    requires RunShape(t) && Live(t, regions, unmapped) && n == Outstanding(t)
    ensures SoundRead(Watch(t, [], regions, unmapped), regions, unmapped, 0, |t.accepted|, most,
                      24 * n + 5, Allowance(most, n))
  {
    OutstandingBounds(t, regions, unmapped);
    AllowanceGrows(most, Left(|t.accepted|, |t.track.returned|), n);
  }

  lemma SoundReadEnd<P, B(!new)>(w: Watched<P, B>, regions: seq<Region>, unmapped: B, elapsed: nat, m: nat,
                                 most: nat, n: nat, budget: nat)
    requires SoundRead(w, regions, unmapped, elapsed, m, most, 24 * n + 5, budget) && w.tally.longest <= most
    requires elapsed >= 24 * n + budget
    ensures |w.state.track.returned| >= m
  {
  }

  lemma ServedRun<P, B(!new)>(
    start: PortTracked<P, B>, inputs: seq<PortInput<P, B>>, regions: seq<Region>, unmapped: B, most: nat,
    n: nat, m: nat, budget: nat)
    requires RunShape(start) && AllPortsFit(inputs, |start.port.responses|)
    requires Watch(start, inputs, regions, unmapped).tally.longest <= most
    requires SoundRead(Watch(start, [], regions, unmapped), regions, unmapped, 0, m, most, 24 * n + 5, budget)
    requires |inputs| >= 24 * n + budget
    ensures |Watch(start, inputs, regions, unmapped).state.track.returned| >= m
  {
    SoundReadRun(start, inputs, regions, unmapped, m, most, 24 * n + 5, budget);
    SoundReadEnd(Watch(start, inputs, regions, unmapped), regions, unmapped, |inputs|, m, most, n, budget);
  }

  lemma {:induction false} EnoughClocks(clocks: nat, most: nat, n: nat)
    requires clocks >= Allowance(24 + most, n)
    ensures clocks >= 24 * n + Allowance(most, n)
  {
    if n > 0 {
      EnoughClocks(clocks - 24 - most, most, n - 1);
    }
  }

  lemma ServedInTime<P, B(!new)>(
    start: PortTracked<P, B>, inputs: seq<PortInput<P, B>>, regions: seq<Region>, unmapped: B, most: nat, n: nat)
    requires Live(start, regions, unmapped) && AllPortsFit(inputs, |regions|)
    requires Watch(start, inputs, regions, unmapped).tally.longest <= most
    requires n == Outstanding(start) && |inputs| >= 24 * n + Allowance(most, n)
    ensures |PortRun(start, inputs, regions, unmapped).track.returned| >= |start.accepted|
  {
    SoundStart(start, n, regions, unmapped, most);
    ServedRun(start, inputs, regions, unmapped, most, n, |start.accepted|, Allowance(most, n));
    WatchIsRun(start, inputs, regions, unmapped);
  }

  /** Main result on progress of reads: if slaves, by refusing requests or by not answering, and the upstream
      port, by not taking responses, keep no request waiting for more than most clocks in all, n outstanding
      requests are all answered within 24 + most clocks for each of them. */
  lemma ReadsAreServed<P, B(!new)>(
    start: PortTracked<P, B>, inputs: seq<PortInput<P, B>>, regions: seq<Region>, unmapped: B, most: nat, n: nat)
    requires Live(start, regions, unmapped) && AllPortsFit(inputs, |regions|)
    requires Watch(start, inputs, regions, unmapped).tally.longest <= most
    requires n == Outstanding(start) && |inputs| >= Allowance(24 + most, n)
    ensures |PortRun(start, inputs, regions, unmapped).track.returned| >= |start.accepted|
  {
    EnoughClocks(|inputs|, most, n);
    ServedInTime(start, inputs, regions, unmapped, most, n);
  }

  // ----- new requests -----

  /** After any clock the upstream port is ready unless it holds a request. */
  lemma ReadyOrHolding<P, B>(p: ReadPort<P, B>, i: PortInput<P, B>, regions: seq<Region>, unmapped: B)
    requires PortShape(p) && PortFits(p, i)
    ensures BufferWait(PortNext(p, i, regions, unmapped).front) == 0
  {
  }

  lemma ReadyAfterRun<P, B>(
    start: PortTracked<P, B>, inputs: seq<PortInput<P, B>>, regions: seq<Region>, unmapped: B)
    requires RunShape(start) && AllPortsFit(inputs, |start.port.responses|) && inputs != []
    ensures BufferWait(PortRun(start, inputs, regions, unmapped).port.front) == 0
  {
    var n := |inputs| - 1;
    var t := PortRun(start, inputs[..n], regions, unmapped);
    assert PortRun(start, inputs, regions, unmapped) == PortTrackedNext(t, inputs[n], regions, unmapped);
    ReadyOrHolding(t.port, inputs[n], regions, unmapped);
  }

  lemma {:induction false} AcceptedGrows<P, B>(
    start: PortTracked<P, B>, inputs: seq<PortInput<P, B>>, regions: seq<Region>, unmapped: B)
    requires RunShape(start) && AllPortsFit(inputs, |start.port.responses|)
    ensures |PortRun(start, inputs, regions, unmapped).accepted| >= |start.accepted|
  {
    if inputs != [] {
      var n := |inputs| - 1;
      AcceptedGrows(start, inputs[..n], regions, unmapped);
      var t := PortRun(start, inputs[..n], regions, unmapped);
      assert PortRun(start, inputs, regions, unmapped) == PortTrackedNext(t, inputs[n], regions, unmapped);
    }
  }

  lemma TakesOffer<P, B(!new)>(
    t: PortTracked<P, B>, i: PortInput<P, B>, regions: seq<Region>, unmapped: B, n: nat)
    requires PortInv(t, regions, unmapped) && RunShape(t) && PortFits(t.port, i) && i.request.valid
    requires BufferWait(t.port.front) == 0 && |t.track.returned| >= n && |t.accepted| >= n
    ensures |PortTrackedNext(t, i, regions, unmapped).accepted| > n
  {
    Holdings(t, regions, unmapped);
  }

  /** The port does not shut itself: one clock after the time in which all outstanding requests are answered, a
      request that is offered has been accepted, then or before. */
  lemma RequestsAreTaken<P, B(!new)>(
    start: PortTracked<P, B>, inputs: seq<PortInput<P, B>>, last: PortInput<P, B>, regions: seq<Region>, unmapped: B,
    most: nat, n: nat)
    requires Live(start, regions, unmapped) && AllPortsFit(inputs, |regions|) && inputs != []
    requires Watch(start, inputs, regions, unmapped).tally.longest <= most
    requires n == Outstanding(start) && |inputs| >= Allowance(24 + most, n)
    requires PortFits(start.port, last) && last.request.valid
    ensures var t := PortRun(start, inputs, regions, unmapped);
            |PortTrackedNext(t, last, regions, unmapped).accepted| > |start.accepted|
  {
    ReadsAreServed(start, inputs, regions, unmapped, most, n);
    PortRunInv(start, inputs, regions, unmapped);
    ReadyAfterRun(start, inputs, regions, unmapped);
    AcceptedGrows(start, inputs, regions, unmapped);
    TakesOffer(PortRun(start, inputs, regions, unmapped), last, regions, unmapped, |start.accepted|);
  }

  lemma ReleasedStep<P, B>(t: PortTracked<P, B>, i: PortInput<P, B>, regions: seq<Region>, unmapped: B)
    requires RunShape(t) && PortFits(t.port, i)
    ensures PortTrackedNext(t, i, regions, unmapped).port.released == t.port.released[1..] + [true]
  {
  }

  /** Two clocks bring every state of the port invariant, the power-up states among them, out of reset. */
  lemma LiveSoon<P, B(!new)>(t: PortTracked<P, B>, i: PortInput<P, B>, j: PortInput<P, B>, regions: seq<Region>,
                             unmapped: B)
    requires PortInv(t, regions, unmapped) && |t.port.responses| == |regions|
    requires PortFits(t.port, i) && PortFits(t.port, j)
    ensures var t' := PortTrackedNext(t, i, regions, unmapped);
            && RunShape(t') && PortFits(t'.port, j)
            && Live(PortTrackedNext(t', j, regions, unmapped), regions, unmapped)
  {
    PortStepInv(t, i, regions, unmapped);
    ReleasedStep(t, i, regions, unmapped);
    var t' := PortTrackedNext(t, i, regions, unmapped);
    PortStepInv(t', j, regions, unmapped);
    ReleasedStep(t', j, regions, unmapped);
  }
}
