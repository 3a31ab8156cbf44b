/** Read half of the one-to-many AXI4-Lite bus: decoder, queues, mux, for any number of slaves. */
module BusRead {
  import opened Streams
  import opened BusParts

  /** Decoder registers with the queues behind them, the mux register of every slave, and the
      mux response register with the queue behind it. */
  datatype ReadBus<P, B> = ReadBus(
    ar: Lane<Request<P>>, arId: Lane<Id>, rId: Lane<Id>, toSlave: seq<Option<Request<P>>>, r: Lane<B>)

  /** Signals from outside at one clock: the request offered upstream, the ready and valid signals of
      the queues, the slaves' ready signals and answers, and the upstream ready for responses. */
  datatype ReadInput<P, B> = ReadInput(
    request: Option<Request<P>>, arReady: bool, arIdReady: bool, rIdReady: bool, rReady: bool,
    showAr: bool, showArId: bool, showRId: bool, showR: bool,
    slaveReady: seq<bool>, answers: seq<Option<B>>, masterReady: bool)

  predicate Fits<P, B>(s: ReadBus<P, B>, i: ReadInput<P, B>) {
    |i.slaveReady| == |i.answers| == |s.toSlave|
  }

  function EmptyBus<P, B>(slaves: nat): ReadBus<P, B> {
    ReadBus(Lane(None, []), Lane(None, []), Lane(None, []), seq(slaves, _ => None), Lane(None, []))
  }

  /** The handshake on the upstream address channel: all three lanes load together. */
  predicate Accepts<P, B>(i: ReadInput<P, B>) {
    i.request.Some? && i.arReady && i.arIdReady && i.rIdReady
  }

  predicate Sends<P, B>(s: ReadBus<P, B>, i: ReadInput<P, B>): (r: bool)
    ensures r ==> s.ar.queue != [] && s.arId.queue != []
  {
    Routes(Shown(s.ar, i.showAr), Shown(s.arId, i.showArId), i.slaveReady)
  }

  /** The handshake on the upstream response channel. */
  predicate Responds<P, B>(s: ReadBus<P, B>, i: ReadInput<P, B>): (r: bool)
    ensures r ==> s.r.queue != []
  {
    Shown(s.r, i.showR).Some? && i.masterReady
  }

  function BusNext<P, B>(s: ReadBus<P, B>, i: ReadInput<P, B>, regions: seq<Region>, unmapped: B): (s': ReadBus<P, B>)
    requires Fits(s, i)
    ensures |s'.toSlave| == |s.toSlave|
  {
    var id := if i.request.Some? then Some(Decode(regions, i.request.value.address)) else None;
    var rId := Shown(s.rId, i.showRId);
    ReadBus(
      LaneNext(s.ar, i.arReady, if i.arIdReady && i.rIdReady then i.request else None, Sends(s, i)),
      LaneNext(s.arId, i.arIdReady, if i.arReady && i.rIdReady then id else None, Sends(s, i)),
      LaneNext(s.rId, i.rIdReady, if i.arReady && i.arIdReady then id else None, Collects(rId, i.answers, i.rReady)),
      RouterNext(s.toSlave, i.slaveReady, Shown(s.ar, i.showAr), Shown(s.arId, i.showArId)),
      LaneNext(s.r, i.rReady, CollectorLoad(rId, i.answers, unmapped), Responds(s, i)))
  }

  /** The bus with what has crossed its boundaries: requests accepted, requests sent to and answers
      taken from each slave, responses returned; routed and collected count ids consumed by the mux. */
  datatype Tracked<P, B> = Tracked(
    bus: ReadBus<P, B>, requests: seq<Request<P>>, sent: seq<seq<Request<P>>>, taken: seq<seq<B>>,
    returned: seq<B>, routed: nat, collected: nat)

  function Start<P, B>(slaves: nat): Tracked<P, B> {
    Tracked(EmptyBus(slaves), [], seq(slaves, _ => []), seq(slaves, _ => []), [], 0, 0)
  }

  predicate Shape<P, B>(t: Tracked<P, B>) {
    |t.sent| == |t.taken| == |t.bus.toSlave|
  }

  function TrackedNext<P, B>(t: Tracked<P, B>, i: ReadInput<P, B>, regions: seq<Region>,
                             unmapped: B): (t': Tracked<P, B>)
    requires Shape(t) && Fits(t.bus, i)
    ensures Shape(t') && |t'.sent| == |t.sent|
  {
    var s := t.bus;
    var rId := Shown(s.rId, i.showRId);
    Tracked(
      BusNext(s, i, regions, unmapped),
      t.requests + Entered(i),
      SentNext(t.sent, s.toSlave, i.slaveReady),
      AnswersNext(t.taken, rId, i.answers, i.rReady),
      t.returned + (if Responds(s, i) then [s.r.queue[0]] else []),
      if Sends(s, i) then t.routed + 1 else t.routed,
      if Collects(rId, i.answers, i.rReady) then t.collected + 1 else t.collected)
  }

  /** The lanes hold what was accepted and not yet consumed. */
  ghost predicate Lanes<P, B>(t: Tracked<P, B>, ids: seq<Id>) {
    && Shape(t)
    && t.routed <= |t.requests| == |ids| && t.collected <= |ids|
    && Contents(t.bus.ar) == t.requests[t.routed..]
    && Contents(t.bus.arId) == ids[t.routed..]
    && Contents(t.bus.rId) == ids[t.collected..]
  }

  /** Router and collector follow the ids. */
  ghost predicate Inv<P, B(!new)>(t: Tracked<P, B>, regions: seq<Region>, unmapped: B) {
    var ids := Ids(regions, t.requests);
    && Lanes(t, ids)
    && Routed(t.sent, t.bus.toSlave, t.requests, ids, t.routed)
    && Collected(t.returned + Contents(t.bus.r), t.taken, ids, t.collected, unmapped)
  }

  lemma StartInv<P, B(!new)>(slaves: nat, regions: seq<Region>, unmapped: B)
    ensures Inv(Start<P, B>(slaves), regions, unmapped)
  {
  }

  function Entered<P, B>(i: ReadInput<P, B>): seq<Request<P>> {
    if Accepts(i) then [i.request.value] else []
  }

  /** The id that enters with a request. */
  lemma EnteredIds<P, B>(i: ReadInput<P, B>, regions: seq<Region>)
    ensures Ids(regions, Entered(i))
         == if Accepts(i) then [Decode(regions, i.request.value.address)] else []
  {
  }

  lemma CollectorIdStep<P, B>(t: Tracked<P, B>, i: ReadInput<P, B>, regions: seq<Region>, unmapped: B, ids: seq<Id>)
    requires Lanes(t, ids) && Fits(t.bus, i)
    ensures var t' := TrackedNext(t, i, regions, unmapped); var ids' := ids + Ids(regions, Entered(i));
            t'.collected <= |ids'| && Contents(t'.bus.rId) == ids'[t'.collected..]
  {
    var id := if i.request.Some? then Some(Decode(regions, i.request.value.address)) else None;
    EnteredIds(i, regions);
    LockStep(t.bus.rId, i.rIdReady, i.arReady && i.arIdReady, id,
             Collects(Shown(t.bus.rId, i.showRId), i.answers, i.rReady), ids, t.collected, Ids(regions, Entered(i)));
  }

  /** The three lanes loaded by a request advance in lock step. */
  lemma LanesStep<P, B>(t: Tracked<P, B>, i: ReadInput<P, B>, regions: seq<Region>, unmapped: B, ids: seq<Id>)
    requires Lanes(t, ids) && Fits(t.bus, i)
    ensures Lanes(TrackedNext(t, i, regions, unmapped), ids + Ids(regions, Entered(i)))
  {
    var s, entered, enteredIds := t.bus, Entered(i), Ids(regions, Entered(i));
    var id := if i.request.Some? then Some(Decode(regions, i.request.value.address)) else None;
    EnteredIds(i, regions);
    LockStep(s.ar, i.arReady, i.arIdReady && i.rIdReady, i.request, Sends(s, i), t.requests, t.routed, entered);
    LockStep(s.arId, i.arIdReady, i.arReady && i.rIdReady, id, Sends(s, i), ids, t.routed, enteredIds);
    CollectorIdStep(t, i, regions, unmapped, ids);
  }

  /** Requests reach the slaves the ids select. */
  lemma RequestStep<P, B(!new)>(t: Tracked<P, B>, i: ReadInput<P, B>, regions: seq<Region>, unmapped: B)
    requires Inv(t, regions, unmapped) && Fits(t.bus, i)
    ensures var t' := TrackedNext(t, i, regions, unmapped);
            Routed(t'.sent, t'.bus.toSlave, t'.requests, Ids(regions, t'.requests), t'.routed)
  {
    var s, ids := t.bus, Ids(regions, t.requests);
    IdsAppend(regions, t.requests, Entered(i));
    HeadOf(s.ar, i.showAr, t.requests, t.routed);
    HeadOf(s.arId, i.showArId, ids, t.routed);
    RouterTracks(t.sent, s.toSlave, t.requests, ids, t.routed, i.slaveReady,
                 Shown(s.ar, i.showAr), Shown(s.arId, i.showArId));
    var t' := TrackedNext(t, i, regions, unmapped);
    RoutedGrows(t'.sent, t'.bus.toSlave, t.requests, ids, t'.routed, Entered(i), Ids(regions, Entered(i)));
  }

  /** The collector and the response lane. */
  lemma ResponseStep<P, B(!new)>(t: Tracked<P, B>, i: ReadInput<P, B>, regions: seq<Region>, unmapped: B)
    requires Inv(t, regions, unmapped) && Fits(t.bus, i)
    ensures var t' := TrackedNext(t, i, regions, unmapped);
            Collected(t'.returned + Contents(t'.bus.r), t'.taken, Ids(regions, t'.requests), t'.collected, unmapped)
  {
    var s, ids := t.bus, Ids(regions, t.requests);
    var t' := TrackedNext(t, i, regions, unmapped);
    var rId := Shown(s.rId, i.showRId);
    HeadOf(s.rId, i.showRId, ids, t.collected);
    CollectorLaneTracks(s.r, t.returned, t.taken, ids, t.collected, unmapped, rId, i.answers, i.rReady, Responds(s, i));
    IdsAppend(regions, t.requests, Entered(i));
    CollectedGrows(t'.returned + Contents(t'.bus.r), t'.taken, ids, t'.collected, unmapped, Ids(regions, Entered(i)));
  }

  lemma StepInv<P, B(!new)>(t: Tracked<P, B>, i: ReadInput<P, B>, regions: seq<Region>, unmapped: B)
    requires Inv(t, regions, unmapped) && Fits(t.bus, i)
    ensures Inv(TrackedNext(t, i, regions, unmapped), regions, unmapped)
  {
    LanesStep(t, i, regions, unmapped, Ids(regions, t.requests));
    IdsAppend(regions, t.requests, Entered(i));
    RequestStep(t, i, regions, unmapped);
    ResponseStep(t, i, regions, unmapped);
  }

  // ----- whole runs -----

  predicate AllFit<P, B>(inputs: seq<ReadInput<P, B>>, slaves: nat) {
    forall n :: 0 <= n < |inputs| ==> |inputs[n].slaveReady| == |inputs[n].answers| == slaves
  }

  function Run<P, B>(regions: seq<Region>, unmapped: B, inputs: seq<ReadInput<P, B>>): (t: Tracked<P, B>)
    requires AllFit(inputs, |regions|)
    ensures Shape(t) && |t.sent| == |regions|
  {
    if inputs == [] then Start(|regions|) else
    TrackedNext(Run(regions, unmapped, inputs[..|inputs| - 1]), inputs[|inputs| - 1], regions, unmapped)
  }

  lemma {:induction false} RunInv<P, B(!new)>(regions: seq<Region>, unmapped: B, inputs: seq<ReadInput<P, B>>)
    requires AllFit(inputs, |regions|)
    ensures Inv(Run(regions, unmapped, inputs), regions, unmapped)
  {
    if inputs == [] {
      StartInv<P, B>(|regions|, regions, unmapped);
    } else {
      var before := inputs[..|inputs| - 1];
      RunInv(regions, unmapped, before);
      StepInv(Run(regions, unmapped, before), inputs[|inputs| - 1], regions, unmapped);
    }
  }

  /** Each slave receives, in order, exactly the requests whose address it decodes. */
  lemma ReadRouting<P, B(!new)>(regions: seq<Region>, unmapped: B, inputs: seq<ReadInput<P, B>>, k: nat)
    requires AllFit(inputs, |regions|) && k < |regions|
    ensures var t := Run(regions, unmapped, inputs);
            && t.routed <= |t.requests|
            && t.sent[k] <= Share(t.requests[..t.routed], Ids(regions, t.requests)[..t.routed], k)
            && |Share(t.requests[..t.routed], Ids(regions, t.requests)[..t.routed], k)| <= |t.sent[k]| + 1
  {
    RunInv(regions, unmapped, inputs);
    var t := Run(regions, unmapped, inputs);
    assert t.sent[k] + Pending(t.bus.toSlave[k])
        == Share(t.requests[..t.routed], Ids(regions, t.requests)[..t.routed], k);
  }

  lemma ResponseIsAnswer<P, B(!new)>(t: Tracked<P, B>, regions: seq<Region>, unmapped: B, i: nat)
    requires Inv(t, regions, unmapped) && i < |t.returned|
    ensures i < |t.requests| && IsAnswer(t.returned[i], Ids(regions, t.requests), i, t.taken, unmapped)
  {
    var done := t.returned + Contents(t.bus.r);
    assert IsAnswer(done[i], Ids(regions, t.requests), i, t.taken, unmapped);
  }

  lemma ReturnedInOrder<P, B(!new)>(t: Tracked<P, B>, regions: seq<Region>, unmapped: B)
    requires Inv(t, regions, unmapped)
    ensures InRequestOrder(t.returned, Ids(regions, t.requests), t.taken, unmapped)
  {
    forall i | 0 <= i < |t.returned|
      ensures i < |t.requests| && IsAnswer(t.returned[i], Ids(regions, t.requests), i, t.taken, unmapped)
    {
      ResponseIsAnswer(t, regions, unmapped, i);
    }
    assert |t.returned + Contents(t.bus.r)| <= |t.requests|;
  }

  /** Main result for reads: response i returned upstream is the error word if no region covers
      request i, and otherwise the answer of the decoded slave to its own request of that place. */
  lemma ReadOrdering<P, B(!new)>(regions: seq<Region>, unmapped: B, inputs: seq<ReadInput<P, B>>, i: nat)
    requires AllFit(inputs, |regions|)
    requires i < |Run(regions, unmapped, inputs).returned|
    ensures var t := Run(regions, unmapped, inputs); var ids := Ids(regions, t.requests);
            i < |t.requests| && IsAnswer(t.returned[i], ids, i, t.taken, unmapped)
  {
    RunInv(regions, unmapped, inputs);
    ResponseIsAnswer(Run(regions, unmapped, inputs), regions, unmapped, i);
  }

  /** A response matches its request: the error word, or a good answer of the decoded slave. */
  ghost predicate Answered<P, B(!new)>(t: Tracked<P, B>, regions: seq<Region>, unmapped: B,
                                       good: (nat, Request<P>, B) -> bool, i: nat) {
    && i < |t.requests| && i < |t.returned|
    && match Decode(regions, t.requests[i].address)
       case None => t.returned[i] == unmapped
       case Some(k) => good(k, t.requests[i], t.returned[i])
  }

  lemma ResponseIsGood<P(!new), B(!new)>(t: Tracked<P, B>, regions: seq<Region>, unmapped: B,
                                         good: (nat, Request<P>, B) -> bool, i: nat)
    requires Inv(t, regions, unmapped) && AnswersInOrder(t.sent, t.taken, good) && i < |t.returned|
    ensures Answered(t, regions, unmapped, good, i)
  {
    var ids := Ids(regions, t.requests);
    ResponseIsAnswer(t, regions, unmapped, i);
    if ids[i].Some? {
      GoodAnswer(t.sent, t.bus.toSlave, t.requests, ids, t.routed, t.taken, good, i, t.returned[i], unmapped);
    }
  }

  /** Hence, whatever a good answer is: if every slave answers its own requests in order, every
      response returned upstream is a good answer of the decoded slave to the request of the same number. */
  lemma ReadsAreAnswered<P(!new), B(!new)>(regions: seq<Region>, unmapped: B, inputs: seq<ReadInput<P, B>>,
                                           good: (nat, Request<P>, B) -> bool, i: nat)
    requires AllFit(inputs, |regions|)
    requires var t := Run(regions, unmapped, inputs); AnswersInOrder(t.sent, t.taken, good) && i < |t.returned|
    ensures Answered(Run(regions, unmapped, inputs), regions, unmapped, good, i)
  {
    RunInv(regions, unmapped, inputs);
    ResponseIsGood(Run(regions, unmapped, inputs), regions, unmapped, good, i);
  }
}
