/** Decoder and mux of the AXI4-Lite bus as objects whose registers are updated in place. */
module BusUnits {
  import opened Streams
  import opened BusParts
  import R = BusRead
  import W = BusWrite

  /** Registers towards the slaves: loaded one by one, the ready signals OR-ed together. */
  method ClockRouter<P>(regs: array<Option<P>>, slaveReady: seq<bool>, payload: Option<P>,
                        id: Option<Id>) returns (taken: bool)
    requires |slaveReady| == regs.Length
    modifies regs
    ensures regs[..] == RouterNext(old(regs[..]), slaveReady, payload, id)
    ensures taken == Routes(payload, id, slaveReady)
  {
    var anyReady := false;
    for k := 0 to regs.Length
      invariant anyReady <==> id.Some? && id.value.Some? && id.value.value < k && slaveReady[id.value.value]
      invariant forall j :: 0 <= j < k ==> regs[j] == RouterNext(old(regs[..]), slaveReady, payload, id)[j]
      invariant forall j :: k <= j < regs.Length ==> regs[j] == old(regs[j])
    {
      var selected := id == Some(Some(k));
      if slaveReady[k] {
        regs[k] := if selected then payload else None;
      }
      anyReady := anyReady || (slaveReady[k] && selected);
    }
    taken := payload.Some? && id.Some? && (id.value.None? || anyReady);
  }

  /** What a response register loads, the valid signals of the slaves OR-ed together. */
  method Gather<B>(id: Option<Id>, answers: seq<Option<B>>, unmapped: B) returns (load: Option<B>)
    ensures load == CollectorLoad(id, answers, unmapped)
  {
    load := None;
    if id.Some? && id.value.None? {
      load := Some(unmapped);
    }
    for k := 0 to |answers|
      invariant load == if id.Some? && id.value.None? then Some(unmapped)
                        else if id.Some? && id.value.value < k && answers[id.value.value].Some?
                        then answers[id.value.value] else None
    {
      if id == Some(Some(k)) && answers[k].Some? {
        load := answers[k];
      }
    }
  }

  /** One clock of an output register and the queue it feeds. */
  method ClockLane<T>(l: Lane<T>, ready: bool, load: Option<T>, pop: bool) returns (l': Lane<T>)
    requires pop ==> l.queue != []
    ensures l' == LaneNext(l, ready, load, pop)
  {
    var reg, words := l.reg, l.queue;
    if pop {
      words := words[1..];
    }
    if ready {
      if reg.Some? {
        words := words + [reg.value];
      }
      reg := load;
    }
    l' := Lane(reg, words);
  }

  /** The read half: decoder lanes, mux registers, response lane. */
  class ReadPath<P, B(!new)> {
    const regions: seq<Region>
    const unmapped: B
    const toSlave: array<Option<Request<P>>>
    var ar: Lane<Request<P>>
    var arId: Lane<Id>
    var rId: Lane<Id>
    var r: Lane<B>
    ghost var track: R.Tracked<P, B>

    /** track is what has crossed the boundaries; routing and order hold of it. */
    ghost predicate Valid()
      reads this, toSlave
    {
      R.Shape(track) && track.bus == State() && R.Inv(track, regions, unmapped)
    }

    function State(): R.ReadBus<P, B>
      reads this, toSlave
    {
      R.ReadBus(ar, arId, rId, toSlave[..], r)
    }

    constructor (regions: seq<Region>, unmapped: B)
      ensures Valid() && this.regions == regions && this.unmapped == unmapped && fresh(toSlave)
      ensures State() == R.EmptyBus(|regions|) && track == R.Start(|regions|)
    {
      this.regions, this.unmapped := regions, unmapped;
      toSlave := new Option<Request<P>>[|regions|](_ => None);
      ar, arId, rId, r := Lane(None, []), Lane(None, []), Lane(None, []), Lane(None, []);
      track := R.Start(|regions|);
      new;
      R.StartInv<P, B>(|regions|, regions, unmapped);
      assert toSlave[..] == R.EmptyBus<P, B>(|regions|).toSlave;
    }

    /** One clock: the histories grow by what crosses at it, and the responses returned so far are the
        answers of the decoded slaves in the order of the requests. */
    method Clock(i: R.ReadInput<P, B>)
      requires Valid() && R.Fits(State(), i)
      modifies this, toSlave
      ensures Valid() && State() == R.BusNext(old(State()), i, regions, unmapped)
      ensures track == R.TrackedNext(old(track), i, regions, unmapped)
      ensures InRequestOrder(track.returned, Ids(regions, track.requests), track.taken, unmapped)
    {
      Update(i);
      R.StepInv(track, i, regions, unmapped);
      track := R.TrackedNext(track, i, regions, unmapped);
      R.ReturnedInOrder(track, regions, unmapped);
    }

    method Update(i: R.ReadInput<P, B>)
      requires R.Fits(State(), i)
      modifies `ar, `arId, `rId, `r, toSlave
      ensures State() == R.BusNext(old(State()), i, regions, unmapped)
    {
      var taken, collected := ClockMux(i);
      ClockDecoder(i, taken, collected);
    }

    /** Registers towards the slaves and towards upstream; says which queue outputs were taken. */
    method ClockMux(i: R.ReadInput<P, B>) returns (taken: bool, collected: bool)
      requires R.Fits(State(), i)
      modifies `r, toSlave
      ensures var s, s' := old(State()), R.BusNext(old(State()), i, regions, unmapped);
              && r == s'.r && toSlave[..] == s'.toSlave
              && taken == R.Sends(s, i) && collected == Collects(Shown(s.rId, i.showRId), i.answers, i.rReady)
    {
      var load := Gather(Shown(rId, i.showRId), i.answers, unmapped);
      taken := ClockRouter(toSlave, i.slaveReady, Shown(ar, i.showAr), Shown(arId, i.showArId));
      collected := i.rReady && load.Some?;
      r := ClockLane(r, i.rReady, load, Shown(r, i.showR).Some? && i.masterReady);
    }

    /** A decoder register follows its own ready and loads if the others are ready too. */
    method ClockDecoder(i: R.ReadInput<P, B>, taken: bool, collected: bool)
      requires (taken ==> ar.queue != [] && arId.queue != []) && (collected ==> rId.queue != [])
      modifies `ar, `arId, `rId
      ensures var id := if i.request.Some? then Some(Decode(regions, i.request.value.address)) else None;
              && ar == LaneNext(old(ar), i.arReady, if i.arIdReady && i.rIdReady then i.request else None, taken)
              && arId == LaneNext(old(arId), i.arIdReady, if i.arReady && i.rIdReady then id else None, taken)
              && rId == LaneNext(old(rId), i.rIdReady, if i.arReady && i.arIdReady then id else None, collected)
    {
      var id: Option<Id> := None;
      if i.request.Some? {
        var slave := Lookup(regions, i.request.value.address);
        id := Some(slave);
      }
      ar := ClockLane(ar, i.arReady, if i.arIdReady && i.rIdReady then i.request else None, taken);
      arId := ClockLane(arId, i.arIdReady, if i.arReady && i.rIdReady then id else None, taken);
      rId := ClockLane(rId, i.rIdReady, if i.arReady && i.arIdReady then id else None, collected);
    }
  }

  /** The write half: addresses and data in lanes of their own, three lanes of ids. */
  class WritePath<P, D, B(!new)> {
    const regions: seq<Region>
    const unmapped: B
    const toSlaveAw: array<Option<Request<P>>>
    const toSlaveW: array<Option<D>>
    var aw: Lane<Request<P>>
    var w: Lane<D>
    var awId: Lane<Id>
    var wId: Lane<Id>
    var bId: Lane<Id>
    var b: Lane<B>
    ghost var track: W.Tracked<P, D, B>

    ghost predicate Apart() {
      toSlaveAw as object != toSlaveW
    }

    ghost predicate Valid()
      reads this, toSlaveAw, toSlaveW
    {
      Apart() && W.Shape(track) && track.bus == State() && W.Inv(track, regions, unmapped)
    }

    function State(): W.WriteBus<P, D, B>
      reads this, toSlaveAw, toSlaveW
    {
      W.WriteBus(aw, w, awId, wId, bId, toSlaveAw[..], toSlaveW[..], b)
    }

    constructor (regions: seq<Region>, unmapped: B)
      ensures Valid() && this.regions == regions && this.unmapped == unmapped
      ensures fresh(toSlaveAw) && fresh(toSlaveW) && State() == W.EmptyBus(|regions|) && track == W.Start(|regions|)
    {
      this.regions, this.unmapped := regions, unmapped;
      toSlaveAw := new Option<Request<P>>[|regions|](_ => None);
      toSlaveW := new Option<D>[|regions|](_ => None);
      aw, w, awId, wId, bId, b :=
        Lane(None, []), Lane(None, []), Lane(None, []), Lane(None, []), Lane(None, []), Lane(None, []);
      track := W.Start(|regions|);
      new;
      W.StartInv<P, D, B>(|regions|, regions, unmapped);
      assert toSlaveAw[..] == W.EmptyBus<P, D, B>(|regions|).toSlaveAw;
      assert toSlaveW[..] == W.EmptyBus<P, D, B>(|regions|).toSlaveW;
    }

    /** One clock: the histories grow by what crosses at it; responses keep the order of the requests,
        and the address and data words of a slave belong to the same writes. */
    method Clock(i: W.WriteInput<P, D, B>)
      requires Valid() && W.Fits(State(), i)
      modifies this, toSlaveAw, toSlaveW
      ensures Valid() && State() == W.BusNext(old(State()), i, regions, unmapped)
      ensures track == W.TrackedNext(old(track), i, regions, unmapped)
      ensures InRequestOrder(track.returned, Ids(regions, track.requests), track.taken, unmapped)
      ensures forall k, j :: 0 <= k < |track.sentAw| && 0 <= j ==>
                W.SameWrite(track, Ids(regions, track.requests), k, j)
    {
      Update(i);
      W.StepInv(track, i, regions, unmapped);
      track := W.TrackedNext(track, i, regions, unmapped);
      W.InvOrders(track, regions, unmapped);
    }

    method Update(i: W.WriteInput<P, D, B>)
      requires Apart() && W.Fits(State(), i)
      modifies `aw, `w, `awId, `wId, `bId, `b, toSlaveAw, toSlaveW
      ensures State() == W.BusNext(old(State()), i, regions, unmapped)
    {
      var awTaken, wTaken, collected := ClockMux(i);
      ClockDecoder(i, awTaken, wTaken, collected);
    }

    /** The five decoder registers and the queues behind them. */
    method ClockDecoder(i: W.WriteInput<P, D, B>, awTaken: bool, wTaken: bool, collected: bool)
      requires (awTaken ==> aw.queue != [] && awId.queue != []) && (wTaken ==> w.queue != [] && wId.queue != [])
      requires collected ==> bId.queue != []
      modifies `aw, `w, `awId, `wId, `bId
      ensures var id := W.IdOf(i, regions);
              && aw == LaneNext(old(aw), i.awReady, if W.IdsReady(i) then i.request else None, awTaken)
              && w == LaneNext(old(w), i.wReady, if W.IdsReady(i) then i.data else None, wTaken)
              && awId == LaneNext(old(awId), i.awIdReady,
                                  if i.awReady && i.wIdReady && i.bIdReady then id else None, awTaken)
              && wId == LaneNext(old(wId), i.wIdReady,
                                 if i.awReady && i.awIdReady && i.bIdReady then id else None, wTaken)
              && bId == LaneNext(old(bId), i.bIdReady,
                                 if i.awReady && i.awIdReady && i.wIdReady then id else None, collected)
    {
      ClockPayloads(i, awTaken, wTaken);
      ClockIds(i, awTaken, wTaken, collected);
    }

    method ClockMux(i: W.WriteInput<P, D, B>) returns (awTaken: bool, wTaken: bool, collected: bool)
      requires Apart() && W.Fits(State(), i)
      modifies `b, toSlaveAw, toSlaveW
      ensures var s, s' := old(State()), W.BusNext(old(State()), i, regions, unmapped);
              && b == s'.b && toSlaveAw[..] == s'.toSlaveAw && toSlaveW[..] == s'.toSlaveW
              && awTaken == W.SendsAw(s, i) && wTaken == W.SendsW(s, i) && collected == W.CollectsB(s, i)
    {
      awTaken, wTaken := ClockRouters(i);
      collected := ClockResponse(i);
    }

    method ClockRouters(i: W.WriteInput<P, D, B>) returns (awTaken: bool, wTaken: bool)
      requires Apart() && |i.slaveAwReady| == toSlaveAw.Length && |i.slaveWReady| == toSlaveW.Length
      modifies toSlaveAw, toSlaveW
      ensures toSlaveAw[..]
           == RouterNext(old(toSlaveAw[..]), i.slaveAwReady, Shown(aw, i.showAw), Shown(awId, i.showAwId))
      ensures toSlaveW[..] == RouterNext(old(toSlaveW[..]), i.slaveWReady, Shown(w, i.showW), Shown(wId, i.showWId))
      ensures awTaken == Routes(Shown(aw, i.showAw), Shown(awId, i.showAwId), i.slaveAwReady)
      ensures wTaken == Routes(Shown(w, i.showW), Shown(wId, i.showWId), i.slaveWReady)
    {
      awTaken := ClockRouter(toSlaveAw, i.slaveAwReady, Shown(aw, i.showAw), Shown(awId, i.showAwId));
      wTaken := ClockRouter(toSlaveW, i.slaveWReady, Shown(w, i.showW), Shown(wId, i.showWId));
    }

    method ClockResponse(i: W.WriteInput<P, D, B>) returns (collected: bool)
      modifies `b
      ensures collected == Collects(Shown(bId, i.showBId), i.answers, i.bReady)
      ensures b == LaneNext(old(b), i.bReady, CollectorLoad(Shown(bId, i.showBId), i.answers, unmapped),
                            Shown(old(b), i.showB).Some? && i.masterReady)
    {
      var load := Gather(Shown(bId, i.showBId), i.answers, unmapped);
      collected := i.bReady && load.Some?;
      b := ClockLane(b, i.bReady, load, Shown(b, i.showB).Some? && i.masterReady);
    }

    /** Data waits for the id queues as well as addresses do, but loads no id. */
    method ClockPayloads(i: W.WriteInput<P, D, B>, awTaken: bool, wTaken: bool)
      requires (awTaken ==> aw.queue != []) && (wTaken ==> w.queue != [])
      modifies `aw, `w
      ensures aw == LaneNext(old(aw), i.awReady, if W.IdsReady(i) then i.request else None, awTaken)
      ensures w == LaneNext(old(w), i.wReady, if W.IdsReady(i) then i.data else None, wTaken)
    {
      var idsReady := i.awIdReady && i.wIdReady && i.bIdReady;
      aw := ClockLane(aw, i.awReady, if idsReady then i.request else None, awTaken);
      w := ClockLane(w, i.wReady, if idsReady then i.data else None, wTaken);
    }

    /** Each id lane loads if the address lane and the two other id lanes are ready. */
    method ClockIds(i: W.WriteInput<P, D, B>, awTaken: bool, wTaken: bool, collected: bool)
      requires (awTaken ==> awId.queue != []) && (wTaken ==> wId.queue != []) && (collected ==> bId.queue != [])
      modifies `awId, `wId, `bId
      ensures var id := W.IdOf(i, regions);
              && awId == LaneNext(old(awId), i.awIdReady,
                                  if i.awReady && i.wIdReady && i.bIdReady then id else None, awTaken)
              && wId == LaneNext(old(wId), i.wIdReady,
                                 if i.awReady && i.awIdReady && i.bIdReady then id else None, wTaken)
              && bId == LaneNext(old(bId), i.bIdReady,
                                 if i.awReady && i.awIdReady && i.wIdReady then id else None, collected)
    {
      var id: Option<Id> := None;
      if i.request.Some? {
        var slave := Lookup(regions, i.request.value.address);
        id := Some(slave);
      }
      awId := ClockLane(awId, i.awIdReady, if i.awReady && i.wIdReady && i.bIdReady then id else None, awTaken);
      wId := ClockLane(wId, i.wIdReady, if i.awReady && i.awIdReady && i.bIdReady then id else None, wTaken);
      bId := ClockLane(bId, i.bIdReady, if i.awReady && i.awIdReady && i.wIdReady then id else None, collected);
    }
  }
}
