/** Write half of the one-to-many AXI4-Lite bus: addresses and data travel apart and meet again at each slave. */
module BusWrite {
  import opened Streams
  import opened BusParts

  /** Decoder registers and queues for addresses, data and three copies of the decoded id; mux
      registers of every slave; response register and queue. */
  datatype WriteBus<P, D, B> = WriteBus(
    aw: Lane<Request<P>>, w: Lane<D>, awId: Lane<Id>, wId: Lane<Id>, bId: Lane<Id>,
    toSlaveAw: seq<Option<Request<P>>>, toSlaveW: seq<Option<D>>, b: Lane<B>)

  datatype WriteInput<P, D, B> = WriteInput(
    request: Option<Request<P>>, data: Option<D>,
    awReady: bool, wReady: bool, awIdReady: bool, wIdReady: bool, bIdReady: bool, bReady: bool,
    showAw: bool, showW: bool, showAwId: bool, showWId: bool, showBId: bool, showB: bool,
    slaveAwReady: seq<bool>, slaveWReady: seq<bool>, answers: seq<Option<B>>, masterReady: bool)

  predicate Fits<P, D, B>(s: WriteBus<P, D, B>, i: WriteInput<P, D, B>) {
    |i.slaveAwReady| == |i.slaveWReady| == |i.answers| == |s.toSlaveAw| == |s.toSlaveW|
  }

  function EmptyBus<P, D, B>(slaves: nat): WriteBus<P, D, B> {
    WriteBus(Lane(None, []), Lane(None, []), Lane(None, []), Lane(None, []), Lane(None, []),
             seq(slaves, _ => None), seq(slaves, _ => None), Lane(None, []))
  }

  /** The three id queues gate the address channel and the data channel alike. */
  predicate IdsReady<P, D, B>(i: WriteInput<P, D, B>) {
    i.awIdReady && i.wIdReady && i.bIdReady
  }

  function EnteredAw<P, D, B>(i: WriteInput<P, D, B>): seq<Request<P>> {
    if i.request.Some? && i.awReady && IdsReady(i) then [i.request.value] else []
  }

  function EnteredW<P, D, B>(i: WriteInput<P, D, B>): seq<D> {
    if i.data.Some? && i.wReady && IdsReady(i) then [i.data.value] else []
  }

  predicate SendsAw<P, D, B>(s: WriteBus<P, D, B>, i: WriteInput<P, D, B>): (r: bool)
    ensures r ==> s.aw.queue != [] && s.awId.queue != []
  {
    Routes(Shown(s.aw, i.showAw), Shown(s.awId, i.showAwId), i.slaveAwReady)
  }

  predicate SendsW<P, D, B>(s: WriteBus<P, D, B>, i: WriteInput<P, D, B>): (r: bool)
    ensures r ==> s.w.queue != [] && s.wId.queue != []
  {
    Routes(Shown(s.w, i.showW), Shown(s.wId, i.showWId), i.slaveWReady)
  }

  predicate CollectsB<P, D, B>(s: WriteBus<P, D, B>, i: WriteInput<P, D, B>): (r: bool)
    ensures r ==> s.bId.queue != []
  {
    Collects(Shown(s.bId, i.showBId), i.answers, i.bReady)
  }

  predicate Responds<P, D, B>(s: WriteBus<P, D, B>, i: WriteInput<P, D, B>): (r: bool)
    ensures r ==> s.b.queue != []
  {
    Shown(s.b, i.showB).Some? && i.masterReady
  }

  function IdOf<P, D, B>(i: WriteInput<P, D, B>, regions: seq<Region>): Option<Id> {
    if i.request.Some? then Some(Decode(regions, i.request.value.address)) else None
  }

  function BusNext<P, D, B>(s: WriteBus<P, D, B>, i: WriteInput<P, D, B>, regions: seq<Region>,
                            unmapped: B): (s': WriteBus<P, D, B>)
    requires Fits(s, i)
    ensures |s'.toSlaveAw| == |s.toSlaveAw| && |s'.toSlaveW| == |s.toSlaveW|
  {
    var id := IdOf(i, regions);
    var sendsAw, sendsW, collects, responds := SendsAw(s, i), SendsW(s, i), CollectsB(s, i), Responds(s, i);
    var toSlaveAw := RouterNext(s.toSlaveAw, i.slaveAwReady, Shown(s.aw, i.showAw), Shown(s.awId, i.showAwId));
    var toSlaveW := RouterNext(s.toSlaveW, i.slaveWReady, Shown(s.w, i.showW), Shown(s.wId, i.showWId));
    WriteBus(
      LaneNext(s.aw, i.awReady, if IdsReady(i) then i.request else None, sendsAw),
      LaneNext(s.w, i.wReady, if IdsReady(i) then i.data else None, sendsW),
      LaneNext(s.awId, i.awIdReady, if i.awReady && i.wIdReady && i.bIdReady then id else None, sendsAw),
      LaneNext(s.wId, i.wIdReady, if i.awReady && i.awIdReady && i.bIdReady then id else None, sendsW),
      LaneNext(s.bId, i.bIdReady, if i.awReady && i.awIdReady && i.wIdReady then id else None, collects),
      toSlaveAw,
      toSlaveW,
      LaneNext(s.b, i.bReady, CollectorLoad(Shown(s.bId, i.showBId), i.answers, unmapped), responds))
  }

  /** The bus with what has crossed its boundaries; the counts are ids consumed by the mux. */
  datatype Tracked<P, D, B> = Tracked(
    bus: WriteBus<P, D, B>, requests: seq<Request<P>>, data: seq<D>,
    sentAw: seq<seq<Request<P>>>, sentW: seq<seq<D>>, taken: seq<seq<B>>, returned: seq<B>,
    routedAw: nat, routedW: nat, collected: nat)

  function Start<P, D, B>(slaves: nat): Tracked<P, D, B> {
    Tracked(EmptyBus(slaves), [], [], seq(slaves, _ => []), seq(slaves, _ => []), seq(slaves, _ => []), [], 0, 0, 0)
  }

  predicate Shape<P, D, B>(t: Tracked<P, D, B>) {
    |t.sentAw| == |t.sentW| == |t.taken| == |t.bus.toSlaveAw| == |t.bus.toSlaveW|
  }

  function TrackedNext<P, D, B>(t: Tracked<P, D, B>, i: WriteInput<P, D, B>, regions: seq<Region>,
                                unmapped: B): (t': Tracked<P, D, B>)
    requires Shape(t) && Fits(t.bus, i)
    ensures Shape(t') && |t'.sentAw| == |t.sentAw|
  {
    var s := t.bus;
    Tracked(
      BusNext(s, i, regions, unmapped),
      t.requests + EnteredAw(i),
      t.data + EnteredW(i),
      SentNext(t.sentAw, s.toSlaveAw, i.slaveAwReady),
      SentNext(t.sentW, s.toSlaveW, i.slaveWReady),
      AnswersNext(t.taken, Shown(s.bId, i.showBId), i.answers, i.bReady),
      t.returned + (if Responds(s, i) then [s.b.queue[0]] else []),
      if SendsAw(s, i) then t.routedAw + 1 else t.routedAw,
      if SendsW(s, i) then t.routedW + 1 else t.routedW,
      if CollectsB(s, i) then t.collected + 1 else t.collected)
  }

  /** The lanes hold what was accepted and not yet consumed; data may be ahead of addresses or behind. */
  ghost predicate Lanes<P, D, B>(t: Tracked<P, D, B>, ids: seq<Id>) {
    && Shape(t)
    && t.routedAw <= |t.requests| == |ids| && t.routedW <= |t.data| && t.routedW <= |ids| && t.collected <= |ids|
    && Contents(t.bus.aw) == t.requests[t.routedAw..]
    && Contents(t.bus.w) == t.data[t.routedW..]
    && Contents(t.bus.awId) == ids[t.routedAw..]
    && Contents(t.bus.wId) == ids[t.routedW..]
    && Contents(t.bus.bId) == ids[t.collected..]
  }

  ghost predicate Inv<P, D, B(!new)>(t: Tracked<P, D, B>, regions: seq<Region>, unmapped: B) {
    var ids := Ids(regions, t.requests);
    && Lanes(t, ids)
    && Routed(t.sentAw, t.bus.toSlaveAw, t.requests, ids, t.routedAw)
    && Routed(t.sentW, t.bus.toSlaveW, t.data, ids, t.routedW)
    && Collected(t.returned + Contents(t.bus.b), t.taken, ids, t.collected, unmapped)
  }

  lemma StartInv<P, D, B(!new)>(slaves: nat, regions: seq<Region>, unmapped: B)
    ensures Inv(Start<P, D, B>(slaves), regions, unmapped)
  {
  }

  /** The id that enters with an address. */
  lemma EnteredIds<P, D, B>(i: WriteInput<P, D, B>, regions: seq<Region>)
    ensures Ids(regions, EnteredAw(i))
         == if IdOf(i, regions).Some? && i.awReady && IdsReady(i) then [IdOf(i, regions).value] else []
  {
  }

  /** The address lane and the data lane. */
  lemma PayloadLanesStep<P, D, B>(t: Tracked<P, D, B>, i: WriteInput<P, D, B>, regions: seq<Region>, unmapped: B,
                                  ids: seq<Id>)
    requires Lanes(t, ids) && Fits(t.bus, i)
    ensures var t' := TrackedNext(t, i, regions, unmapped);
            && t'.routedAw <= |t'.requests| && Contents(t'.bus.aw) == t'.requests[t'.routedAw..]
            && t'.routedW <= |t'.data| && Contents(t'.bus.w) == t'.data[t'.routedW..]
  {
    LockStep(t.bus.aw, i.awReady, IdsReady(i), i.request, SendsAw(t.bus, i), t.requests, t.routedAw, EnteredAw(i));
    LockStep(t.bus.w, i.wReady, IdsReady(i), i.data, SendsW(t.bus, i), t.data, t.routedW, EnteredW(i));
  }

  /** An id lane that loads if it and all the others are ready. */
  lemma IdLaneStep<P, D, B>(l: Lane<Id>, i: WriteInput<P, D, B>, regions: seq<Region>, ready: bool, others: bool,
                            pop: bool, ids: seq<Id>, from: nat, entered: seq<Id>)
    requires (pop ==> l.queue != []) && from <= |ids| && Contents(l) == ids[from..]
    requires ready && others <==> i.awReady && IdsReady(i)
    requires entered == Ids(regions, EnteredAw(i))
    ensures var from' := if pop then from + 1 else from;
            && from' <= |ids + entered|
            && Contents(LaneNext(l, ready, if others then IdOf(i, regions) else None, pop)) == (ids + entered)[from'..]
  {
    EnteredIds(i, regions);
    LockStep(l, ready, others, IdOf(i, regions), pop, ids, from, entered);
  }

  /** The id lanes that run ahead with addresses and data, in lock step with the address lane. */
  lemma ForwardIdsStep<P, D, B>(t: Tracked<P, D, B>, i: WriteInput<P, D, B>, regions: seq<Region>, unmapped: B,
                                ids: seq<Id>)
    requires Lanes(t, ids) && Fits(t.bus, i)
    ensures var t' := TrackedNext(t, i, regions, unmapped); var ids' := ids + Ids(regions, EnteredAw(i));
            && t'.routedAw <= |ids'| && Contents(t'.bus.awId) == ids'[t'.routedAw..]
            && t'.routedW <= |ids'| && Contents(t'.bus.wId) == ids'[t'.routedW..]
  {
    var s, entered := t.bus, Ids(regions, EnteredAw(i));
    IdLaneStep(s.awId, i, regions, i.awIdReady, i.awReady && i.wIdReady && i.bIdReady,
               SendsAw(s, i), ids, t.routedAw, entered);
    IdLaneStep(s.wId, i, regions, i.wIdReady, i.awReady && i.awIdReady && i.bIdReady,
               SendsW(s, i), ids, t.routedW, entered);
  }

  lemma CollectorIdStep<P, D, B>(t: Tracked<P, D, B>, i: WriteInput<P, D, B>, regions: seq<Region>, unmapped: B,
                                 ids: seq<Id>)
    requires Lanes(t, ids) && Fits(t.bus, i)
    ensures var t' := TrackedNext(t, i, regions, unmapped); var ids' := ids + Ids(regions, EnteredAw(i));
            t'.collected <= |ids'| && Contents(t'.bus.bId) == ids'[t'.collected..]
  {
    IdLaneStep(t.bus.bId, i, regions, i.bIdReady, i.awReady && i.awIdReady && i.wIdReady, CollectsB(t.bus, i),
               ids, t.collected, Ids(regions, EnteredAw(i)));
  }

  lemma LanesStep<P, D, B>(t: Tracked<P, D, B>, i: WriteInput<P, D, B>, regions: seq<Region>, unmapped: B, ids: seq<Id>)
    requires Lanes(t, ids) && Fits(t.bus, i)
    ensures Lanes(TrackedNext(t, i, regions, unmapped), ids + Ids(regions, EnteredAw(i)))
  {
    PayloadLanesStep(t, i, regions, unmapped, ids);
    ForwardIdsStep(t, i, regions, unmapped, ids);
    CollectorIdStep(t, i, regions, unmapped, ids);
  }

  lemma AddressStep<P, D, B(!new)>(t: Tracked<P, D, B>, i: WriteInput<P, D, B>, regions: seq<Region>, unmapped: B)
    requires Inv(t, regions, unmapped) && Fits(t.bus, i)
    ensures var t' := TrackedNext(t, i, regions, unmapped);
            Routed(t'.sentAw, t'.bus.toSlaveAw, t'.requests, Ids(regions, t'.requests), t'.routedAw)
  {
    var s, ids := t.bus, Ids(regions, t.requests);
    IdsAppend(regions, t.requests, EnteredAw(i));
    HeadOf(s.aw, i.showAw, t.requests, t.routedAw);
    HeadOf(s.awId, i.showAwId, ids, t.routedAw);
    RouterTracks(t.sentAw, s.toSlaveAw, t.requests, ids, t.routedAw, i.slaveAwReady,
                 Shown(s.aw, i.showAw), Shown(s.awId, i.showAwId));
    var t' := TrackedNext(t, i, regions, unmapped);
    RoutedGrows(t'.sentAw, t'.bus.toSlaveAw, t.requests, ids, t'.routedAw, EnteredAw(i), Ids(regions, EnteredAw(i)));
  }

  lemma DataStep<P, D, B(!new)>(t: Tracked<P, D, B>, i: WriteInput<P, D, B>, regions: seq<Region>, unmapped: B)
    requires Inv(t, regions, unmapped) && Fits(t.bus, i)
    ensures var t' := TrackedNext(t, i, regions, unmapped);
            Routed(t'.sentW, t'.bus.toSlaveW, t'.data, Ids(regions, t'.requests), t'.routedW)
  {
    var s, ids := t.bus, Ids(regions, t.requests);
    IdsAppend(regions, t.requests, EnteredAw(i));
    HeadOf(s.w, i.showW, t.data, t.routedW);
    HeadOf(s.wId, i.showWId, ids, t.routedW);
    RouterTracks(t.sentW, s.toSlaveW, t.data, ids, t.routedW, i.slaveWReady,
                 Shown(s.w, i.showW), Shown(s.wId, i.showWId));
    var t' := TrackedNext(t, i, regions, unmapped);
    RoutedGrows(t'.sentW, t'.bus.toSlaveW, t.data, ids, t'.routedW, EnteredW(i), Ids(regions, EnteredAw(i)));
  }

  lemma ResponseStep<P, D, B(!new)>(t: Tracked<P, D, B>, i: WriteInput<P, D, B>, regions: seq<Region>, unmapped: B)
    requires Inv(t, regions, unmapped) && Fits(t.bus, i)
    ensures var t' := TrackedNext(t, i, regions, unmapped);
            Collected(t'.returned + Contents(t'.bus.b), t'.taken, Ids(regions, t'.requests), t'.collected, unmapped)
  {
    var s, ids := t.bus, Ids(regions, t.requests);
    var t' := TrackedNext(t, i, regions, unmapped);
    var bId := Shown(s.bId, i.showBId);
    HeadOf(s.bId, i.showBId, ids, t.collected);
    CollectorLaneTracks(s.b, t.returned, t.taken, ids, t.collected, unmapped, bId, i.answers, i.bReady, Responds(s, i));
    IdsAppend(regions, t.requests, EnteredAw(i));
    CollectedGrows(t'.returned + Contents(t'.bus.b), t'.taken, ids, t'.collected, unmapped, Ids(regions, EnteredAw(i)));
  }

  lemma StepInv<P, D, B(!new)>(t: Tracked<P, D, B>, i: WriteInput<P, D, B>, regions: seq<Region>, unmapped: B)
    requires Inv(t, regions, unmapped) && Fits(t.bus, i)
    ensures Inv(TrackedNext(t, i, regions, unmapped), regions, unmapped)
  {
    LanesStep(t, i, regions, unmapped, Ids(regions, t.requests));
    IdsAppend(regions, t.requests, EnteredAw(i));
    AddressStep(t, i, regions, unmapped);
    DataStep(t, i, regions, unmapped);
    ResponseStep(t, i, regions, unmapped);
  }

  // ----- whole runs -----

  predicate AllFit<P, D, B>(inputs: seq<WriteInput<P, D, B>>, slaves: nat) {
    forall n :: 0 <= n < |inputs| ==>
      |inputs[n].slaveAwReady| == |inputs[n].slaveWReady| == |inputs[n].answers| == slaves
  }

  function Run<P, D, B>(regions: seq<Region>, unmapped: B, inputs: seq<WriteInput<P, D, B>>): (t: Tracked<P, D, B>)
    requires AllFit(inputs, |regions|)
    ensures Shape(t) && |t.sentAw| == |regions|
  {
    if inputs == [] then Start(|regions|) else
    TrackedNext(Run(regions, unmapped, inputs[..|inputs| - 1]), inputs[|inputs| - 1], regions, unmapped)
  }

  lemma {:induction false} RunInv<P, D, B(!new)>(regions: seq<Region>, unmapped: B, inputs: seq<WriteInput<P, D, B>>)
    requires AllFit(inputs, |regions|)
    ensures Inv(Run(regions, unmapped, inputs), regions, unmapped)
  {
    if inputs == [] {
      StartInv<P, D, B>(|regions|, regions, unmapped);
    } else {
      var before := inputs[..|inputs| - 1];
      RunInv(regions, unmapped, before);
      StepInv(Run(regions, unmapped, before), inputs[|inputs| - 1], regions, unmapped);
    }
  }

  /** Slave k's j-th address and j-th data word are those of one and the same upstream write, the
      j-th one decoded to k, whether data or address came first. */
  ghost predicate SameWrite<P, D, B>(t: Tracked<P, D, B>, ids: seq<Id>, k: nat, j: nat)
    requires k < |t.sentAw| && k < |t.sentW|
  {
    && (j < |t.sentAw[k]| ==> j < Count(ids, k) && Origin(ids, k, j) < |t.requests|
                              && t.sentAw[k][j] == t.requests[Origin(ids, k, j)])
    && (j < |t.sentW[k]| ==> j < Count(ids, k) && Origin(ids, k, j) < |t.data|
                             && t.sentW[k][j] == t.data[Origin(ids, k, j)])
  }

  lemma WriteRouting<P, D, B(!new)>(regions: seq<Region>, unmapped: B, inputs: seq<WriteInput<P, D, B>>, k: nat, j: nat)
    requires AllFit(inputs, |regions|) && k < |regions|
    ensures var t := Run(regions, unmapped, inputs); SameWrite(t, Ids(regions, t.requests), k, j)
  {
    RunInv(regions, unmapped, inputs);
    var t := Run(regions, unmapped, inputs);
    RoutingIn(t, Ids(regions, t.requests), k, j);
  }

  lemma RoutingIn<P, D, B>(t: Tracked<P, D, B>, ids: seq<Id>, k: nat, j: nat)
    requires Lanes(t, ids) && k < |t.sentAw|
    requires Routed(t.sentAw, t.bus.toSlaveAw, t.requests, ids, t.routedAw)
    requires Routed(t.sentW, t.bus.toSlaveW, t.data, ids, t.routedW)
    ensures SameWrite(t, ids, k, j)
  {
    if j < |t.sentAw[k]| {
      ReceivedFromOrigin(t.sentAw, t.bus.toSlaveAw, t.requests, ids, t.routedAw, k, j);
    }
    if j < |t.sentW[k]| {
      ReceivedFromOrigin(t.sentW, t.bus.toSlaveW, t.data, ids, t.routedW, k, j);
    }
  }

  /** What holds of a write bus at every clock: responses are those of the decoded slaves in the order of
      the requests, and address and data words of a slave belong to the same writes. */
  lemma InvOrders<P, D, B(!new)>(t: Tracked<P, D, B>, regions: seq<Region>, unmapped: B)
    requires Inv(t, regions, unmapped)
    ensures InRequestOrder(t.returned, Ids(regions, t.requests), t.taken, unmapped)
    ensures forall k, j :: 0 <= k < |t.sentAw| && 0 <= j ==> SameWrite(t, Ids(regions, t.requests), k, j)
  {
    var ids, done := Ids(regions, t.requests), t.returned + Contents(t.bus.b);
    assert |done| <= |ids|;
    forall i | 0 <= i < |t.returned| ensures IsAnswer(t.returned[i], ids, i, t.taken, unmapped) {
      assert IsAnswer(done[i], ids, i, t.taken, unmapped);
    }
    forall k, j | 0 <= k < |t.sentAw| && 0 <= j ensures SameWrite(t, ids, k, j) {
      RoutingIn(t, ids, k, j);
    }
  }

  /** Data words sent, waiting in slave registers or dropped: everything routed has its place. */
  lemma NothingMisrouted<P, D, B(!new)>(regions: seq<Region>, unmapped: B, inputs: seq<WriteInput<P, D, B>>, k: nat)
    requires AllFit(inputs, |regions|) && k < |regions|
    ensures var t := Run(regions, unmapped, inputs); var ids := Ids(regions, t.requests);
            && t.routedW <= |t.data| && t.routedW <= |ids| && t.routedAw <= |ids|
            && t.sentW[k] + Pending(t.bus.toSlaveW[k]) == Share(t.data[..t.routedW], ids[..t.routedW], k)
            && t.sentAw[k] + Pending(t.bus.toSlaveAw[k]) == Share(t.requests[..t.routedAw], ids[..t.routedAw], k)
  {
    RunInv(regions, unmapped, inputs);
  }

  /** Every slave answers its own writes one by one, each after it took address and data. */
  ghost predicate WritesAnswered<A(!new), D(!new), B(!new)>(
    sentAw: seq<seq<A>>, sentW: seq<seq<D>>, taken: seq<seq<B>>, good: (nat, A, D, B) -> bool) {
    |taken| == |sentAw| == |sentW| &&
    forall k :: 0 <= k < |taken| ==>
      && |taken[k]| <= |sentAw[k]| && |taken[k]| <= |sentW[k]|
      && forall j :: 0 <= j < |taken[k]| ==> good(k, sentAw[k][j], sentW[k][j], taken[k][j])
  }

  ghost predicate Answered<P, D, B(!new)>(t: Tracked<P, D, B>, regions: seq<Region>, unmapped: B,
                                          good: (nat, Request<P>, D, B) -> bool, i: nat) {
    && i < |t.requests| && i < |t.returned|
    && match Decode(regions, t.requests[i].address)
       case None => t.returned[i] == unmapped
       case Some(k) => i < |t.data| && good(k, t.requests[i], t.data[i], t.returned[i])
  }

  lemma ResponseIsGood<P(!new), D(!new), B(!new)>(
    t: Tracked<P, D, B>, regions: seq<Region>, unmapped: B, good: (nat, Request<P>, D, B) -> bool, i: nat)
    requires Inv(t, regions, unmapped) && WritesAnswered(t.sentAw, t.sentW, t.taken, good) && i < |t.returned|
    ensures Answered(t, regions, unmapped, good, i)
  {
    var ids := Ids(regions, t.requests);
    var done := t.returned + Contents(t.bus.b);
    assert IsAnswer(done[i], ids, i, t.taken, unmapped);
    if ids[i].Some? {
      var k, p := ids[i].value, Place(ids, i);
      assert good(k, t.sentAw[k][p], t.sentW[k][p], t.taken[k][p]);
      ReceivedAtPlace(t.sentAw, t.bus.toSlaveAw, t.requests, ids, t.routedAw, i);
      ReceivedAtPlace(t.sentW, t.bus.toSlaveW, t.data, ids, t.routedW, i);
    }
  }

  /** Main result for writes: response i answers address i and data word i, at the slave decoded
      from address i; where no region covers it, it is the error word. */
  lemma WritesAreAnswered<P(!new), D(!new), B(!new)>(
    regions: seq<Region>, unmapped: B, inputs: seq<WriteInput<P, D, B>>, good: (nat, Request<P>, D, B) -> bool, i: nat)
    requires AllFit(inputs, |regions|)
    requires var t := Run(regions, unmapped, inputs);
             WritesAnswered(t.sentAw, t.sentW, t.taken, good) && i < |t.returned|
    ensures Answered(Run(regions, unmapped, inputs), regions, unmapped, good, i)
  {
    RunInv(regions, unmapped, inputs);
    ResponseIsGood(Run(regions, unmapped, inputs), regions, unmapped, good, i);
  }
}
