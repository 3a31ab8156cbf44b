/** AXI4-Stream test agents: the driver cuts an item into transfers, the monitor puts packets together. */
module StreamAgent {
  import opened Wrapping
  import opened Streams

  /** Byte types and their TKEEP and TSTRB flags (AMBA 4 AXI4-Stream, section 2.4.3). */
  datatype ByteType = DATA_BYTE | NULL_BYTE | POSITION_BYTE | RESERVED

  datatype TypedByte = TypedByte(data: bv8, kind: ByteType)

  /** One byte lane of the bus. */
  datatype BusByte = BusByte(keep: bool, strb: bool, data: bv8)

  datatype Beat<U, I> = Beat(bytes: seq<BusByte>, user: U, id: I, last: bool)

  datatype Bus<U, I> = Bus(valid: bool, beat: Beat<U, I>)

  /** id stands for tid and tdest together; blank is the user signal where the item gives none. */
  datatype Item<U, I> = Item(data: seq<TypedByte>, user: seq<U>, id: I, blank: U, timeout: nat)

  datatype Packet<U, I> = Packet(data: seq<TypedByte>, user: seq<U>, id: I, busSize: nat)

  function Encode(b: TypedByte): BusByte {
    BusByte(b.kind == DATA_BYTE || b.kind == POSITION_BYTE, b.kind == DATA_BYTE || b.kind == RESERVED, b.data)
  }

  function DecodeByte(b: BusByte): TypedByte {
    TypedByte(b.data,
      if b.keep && b.strb then DATA_BYTE
      else if b.keep && !b.strb then POSITION_BYTE
      else if !b.keep && b.strb then RESERVED
      else NULL_BYTE)
  }

  const PADDING := BusByte(false, false, 0)
  const NULL := TypedByte(0, NULL_BYTE)

  /** The four byte types of the standard have the flags it gives them, and no two of them the same. */
  lemma TypesSurviveTheBus(b: TypedByte, lane: BusByte)
    ensures b.kind == DATA_BYTE ==> Encode(b) == BusByte(true, true, b.data)
    ensures b.kind == POSITION_BYTE ==> Encode(b) == BusByte(true, false, b.data)
    ensures b.kind == NULL_BYTE ==> Encode(b) == BusByte(false, false, b.data)
    ensures b.kind == RESERVED ==> Encode(b) == BusByte(false, true, b.data)
    ensures DecodeByte(Encode(b)) == b
    ensures Encode(DecodeByte(lane)) == lane
  {
    assert lane.keep || !lane.keep;
  }

  // ----- driver -----

  /** Loop variables of a data transfer and the bus signals it drives; expired marks the timeout error. */
  datatype Driver<U, I> = Driver(
    running: bool, expired: bool, idle: nat, timeout: nat, transfer: nat, index: nat, bus: Bus<U, I>)

  /** One clock: the ready signal seen by the driver, the idle count it would draw, and the reset. */
  datatype Tick = Tick(ready: bool, idle: nat, inReset: bool)

  predicate NoReset(ticks: seq<Tick>) {
    forall k :: 0 <= k < |ticks| ==> !ticks[k].inReset
  }

  /** The byte lanes of the transfer that starts at index. */
  function Chunk(data: seq<TypedByte>, index: nat, size: nat): (lanes: seq<BusByte>)
    ensures |lanes| == size
  {
    seq(size, i requires 0 <= i < size => if index + i < |data| then Encode(data[index + i]) else PADDING)
  }

  function Advance(data: seq<TypedByte>, index: nat, size: nat): nat
    requires index < |data|
  {
    if size == 0 then index + 1 else if index + size < |data| then index + size else |data|
  }

  function UserAt<U, I>(item: Item<U, I>, transfer: nat): U {
    if transfer < |item.user| then item.user[transfer] else item.blank
  }

  function BeatAt<U, I>(item: Item<U, I>, size: nat, index: nat, transfer: nat): Beat<U, I>
    requires index < |item.data|
  {
    Beat(Chunk(item.data, index, size), UserAt(item, transfer), item.id, Advance(item.data, index, size) >= |item.data|)
  }

  function DriverStart<U, I>(item: Item<U, I>, idle: nat, bus: Bus<U, I>): Driver<U, I> {
    Driver(|item.data| > 0, false, idle, item.timeout, 0, 0, bus)
  }

  /** What follows the loop: valid is taken back. */
  function Released<U, I>(d: Driver<U, I>): Driver<U, I> {
    d.(bus := d.bus.(valid := false))
  }

  /** One turn of the transfer loop, or what follows it. */
  function DriverNext<U, I>(d: Driver<U, I>, item: Item<U, I>, size: nat, t: Tick): Driver<U, I> {
    if !d.running then Released(d)
    else if t.inReset then Released(d).(running := false)
    else if t.ready then
      var released := Released(d).(timeout := item.timeout);
      if d.index >= |item.data| then released.(running := false)
      else if d.idle == 0 then
        released.(idle := t.idle, transfer := d.transfer + 1, index := Advance(item.data, d.index, size),
                  bus := Bus(true, BeatAt(item, size, d.index, d.transfer)))
      else released.(idle := d.idle - 1)
    else if item.timeout != 0 then
      if d.timeout != 0 then d.(timeout := d.timeout - 1) else d.(running := false, expired := true)
    else d
  }

  function DriverRun<U, I>(d: Driver<U, I>, item: Item<U, I>, size: nat, ticks: seq<Tick>): Driver<U, I> {
    if ticks == [] then d else
    DriverNext(DriverRun(d, item, size, ticks[..|ticks| - 1]), item, size, ticks[|ticks| - 1])
  }

  /** The inner loop: byte lanes are set one by one while the item lasts. */
  method SetLanes(data: seq<TypedByte>, start: nat, size: nat) returns (lanes: seq<BusByte>, index: nat)
    requires start < |data|
    ensures lanes == Chunk(data, start, size) && index == Advance(data, start, size)
  {
    lanes, index := [], start;
    for i := 0 to size
      invariant lanes == Chunk(data, start, i)
      invariant index == if start + i < |data| then start + i else |data|
    {
      var lane := PADDING;
      if index < |data| {
        match data[index].kind {
          case DATA_BYTE => lane := BusByte(true, true, data[index].data);
          case POSITION_BYTE => lane := BusByte(true, false, data[index].data);
          case RESERVED => lane := BusByte(false, true, data[index].data);
          case NULL_BYTE => lane := BusByte(false, false, data[index].data);
        }
        index := index + 1;
      }
      assert lane == if start + i < |data| then Encode(data[start + i]) else PADDING;
      lanes := lanes + [lane];
      assert lanes == Chunk(data, start, i + 1);
    }
    if size == 0 {
      index := index + 1;
    }
  }

  /** The transfer loop over a schedule of clocks, then valid is taken back. */
  method DataTransfer<U, I>(item: Item<U, I>, size: nat, firstIdle: nat, ticks: seq<Tick>, initial: Bus<U, I>)
    returns (d: Driver<U, I>, clocks: nat)
    ensures clocks <= |ticks|
    ensures var last := DriverRun(DriverStart(item, firstIdle, initial), item, size, ticks[..clocks]);
            d == if clocks < |ticks| then DriverNext(last, item, size, ticks[clocks])
                 else if last.running then last else Released(last)
    ensures clocks < |ticks| ==> !d.running
  {
    var idle: nat, timeout: nat, transfer: nat, index: nat := firstIdle, item.timeout, 0, 0;
    var running, expired := |item.data| > 0, false;
    var bus := initial;
    ghost var start := DriverStart(item, firstIdle, initial);
    clocks := 0;
    while running && clocks < |ticks| && !ticks[clocks].inReset
      invariant clocks <= |ticks|
      invariant Driver(running, expired, idle, timeout, transfer, index, bus)
             == DriverRun(start, item, size, ticks[..clocks])
    {
      var tick := ticks[clocks];
      assert ticks[..clocks + 1][..clocks] == ticks[..clocks];
      if tick.ready {
        bus := bus.(valid := false);
        timeout := item.timeout;
        if index >= |item.data| {
          running := false;
        } else if idle == 0 {
          idle := tick.idle;
          var lanes, next := SetLanes(item.data, index, size);
          index := next;
          var user := if transfer < |item.user| then item.user[transfer] else item.blank;
          transfer := transfer + 1;
          bus := Bus(true, Beat(lanes, user, item.id, index >= |item.data|));
        } else {
          idle := idle - 1;
        }
      } else if item.timeout != 0 {
        if timeout != 0 {
          timeout := timeout - 1;
        } else {
          running, expired := false, true;
        }
      }
      clocks := clocks + 1;
    }
    if !running || clocks < |ticks| {
      running, bus := false, bus.(valid := false);
    }
    d := Driver(running, expired, idle, timeout, transfer, index, bus);
  }

  // ----- idle clocks between transfers -----

  function ReadyCount(ticks: seq<Tick>): nat {
    if ticks == [] then 0 else ReadyCount(ticks[..|ticks| - 1]) + (if ticks[|ticks| - 1].ready then 1 else 0)
  }

  /** A ready clock takes an idle count down and offers nothing; what was offered stays until the first one. */
  lemma {:induction false} IdleRun<U, I>(d: Driver<U, I>, item: Item<U, I>, size: nat, ticks: seq<Tick>)
    requires d.index < |item.data| && NoReset(ticks) && ReadyCount(ticks) <= d.idle
    requires DriverRun(d, item, size, ticks).running
    ensures var d' := DriverRun(d, item, size, ticks);
            && d'.transfer == d.transfer && d'.index == d.index && d'.idle == d.idle - ReadyCount(ticks)
            && (if ReadyCount(ticks) == 0 then d'.bus == d.bus else !d'.bus.valid)
  {
    if ticks != [] {
      IdleRun(d, item, size, ticks[..|ticks| - 1]);
    }
  }

  /** Two transfers are apart by exactly the number of ready clocks that was drawn: with bytes left, the ready clock
      behind so many ready clocks offers the next transfer, and none of them offers any. */
  lemma TransfersAreSpaced<U, I>(d: Driver<U, I>, item: Item<U, I>, size: nat, gap: seq<Tick>, t: Tick)
    requires d.index < |item.data| && NoReset(gap) && ReadyCount(gap) <= d.idle
    requires DriverRun(d, item, size, gap).running && t.ready && !t.inReset
    ensures var d' := DriverNext(DriverRun(d, item, size, gap), item, size, t);
            && (d'.bus.valid <==> ReadyCount(gap) == d.idle)
            && d'.transfer == d.transfer + (if ReadyCount(gap) == d.idle then 1 else 0)
            && (d'.bus.valid ==> d'.idle == t.idle)
  {
    IdleRun(d, item, size, gap);
  }

  // ----- how long a transfer is offered -----

  /** The clocks at the end of a schedule that were not ready, one after the other. */
  function Stalled(ticks: seq<Tick>): nat {
    if ticks == [] || ticks[|ticks| - 1].ready then 0 else Stalled(ticks[..|ticks| - 1]) + 1
  }

  /** The driver's patience is a matter of the schedule alone: one clock for every unit of the timeout, and one more. */
  predicate Patient<U, I>(item: Item<U, I>, stalled: nat) {
    item.timeout == 0 || stalled <= item.timeout + 1
  }

  lemma {:induction false} StallState<U, I>(item: Item<U, I>, size: nat, idle: nat, beat: Beat<U, I>, ticks: seq<Tick>)
    requires NoReset(ticks)
    ensures var d, s := DriverRun(DriverStart(item, idle, Bus(false, beat)), item, size, ticks), Stalled(ticks);
            && (d.bus.valid && item.timeout == 0 ==> d.running)
            && (d.bus.valid && item.timeout > 0 ==>
                  Patient(item, s) && (d.running <==> s <= item.timeout)
                  && (d.running ==> d.timeout == item.timeout - s))
  {
    if ticks != [] {
      StallState(item, size, idle, beat, ticks[..|ticks| - 1]);
    }
  }

  /** The handshake rule of AXI4-Stream section 2.2.1: an offered transfer that is not taken stays on the
      bus unchanged. The driver keeps it at a clock exactly if the ready signal has not been down for
      more than timeout + 1 clocks, or there is no timeout. */
  lemma HeldWhilePatient<U, I>(item: Item<U, I>, size: nat, idle: nat, beat: Beat<U, I>, ticks: seq<Tick>, t: Tick)
    requires NoReset(ticks) && !t.inReset
    ensures var d := DriverRun(DriverStart(item, idle, Bus(false, beat)), item, size, ticks);
            d.bus.valid && !t.ready ==>
              (DriverNext(d, item, size, t).bus == d.bus <==> Patient(item, Stalled(ticks + [t])))
  {
    StallState(item, size, idle, beat, ticks);
    assert (ticks + [t])[..|ticks|] == ticks;
  }

  /** The driver at clock n of a run offers a transfer that is not taken, and offers the same after it. */
  predicate Offers<U, I>(start: Driver<U, I>, item: Item<U, I>, size: nat, ticks: seq<Tick>, n: nat)
    requires n < |ticks|
  {
    DriverRun(start, item, size, ticks[..n]).bus.valid && !ticks[n].ready
  }

  ghost predicate Keeps<U, I>(start: Driver<U, I>, item: Item<U, I>, size: nat, ticks: seq<Tick>, n: nat)
    requires n < |ticks|
  {
    DriverRun(start, item, size, ticks[..n + 1]).bus == DriverRun(start, item, size, ticks[..n]).bus
  }

  predicate PatientAt<U, I>(item: Item<U, I>, ticks: seq<Tick>, n: nat)
    requires n < |ticks|
  {
    Patient(item, Stalled(ticks[..n + 1]))
  }

  lemma KeepsAt<U, I>(item: Item<U, I>, size: nat, idle: nat, beat: Beat<U, I>, ticks: seq<Tick>, n: nat)
    requires NoReset(ticks) && n < |ticks|
    ensures var start := DriverStart(item, idle, Bus(false, beat));
            Offers(start, item, size, ticks, n) ==>
              (Keeps(start, item, size, ticks, n) <==> PatientAt(item, ticks, n))
  {
    HeldWhilePatient(item, size, idle, beat, ticks[..n], ticks[n]);
    assert ticks[..n + 1][..n] == ticks[..n] && ticks[..n] + [ticks[n]] == ticks[..n + 1];
  }

  /** Over a whole run: the rule is kept exactly if no offered transfer is left waiting too long; hence
      on every schedule without a stall of more than timeout + 1 clocks, and always without a timeout. */
  lemma HandshakeKept<U, I>(item: Item<U, I>, size: nat, idle: nat, beat: Beat<U, I>, ticks: seq<Tick>)
    requires NoReset(ticks)
    ensures var start := DriverStart(item, idle, Bus(false, beat));
            (forall n :: 0 <= n < |ticks| && Offers(start, item, size, ticks, n) ==> Keeps(start, item, size, ticks, n))
            <==> (forall n :: 0 <= n < |ticks| && Offers(start, item, size, ticks, n) ==> PatientAt(item, ticks, n))
    ensures (forall n :: 0 <= n < |ticks| ==> PatientAt(item, ticks, n)) ==>
              var start := DriverStart(item, idle, Bus(false, beat));
              forall n :: 0 <= n < |ticks| && Offers(start, item, size, ticks, n) ==> Keeps(start, item, size, ticks, n)
  {
    forall n | 0 <= n < |ticks|
      ensures var start := DriverStart(item, idle, Bus(false, beat));
              Offers(start, item, size, ticks, n) ==>
                (Keeps(start, item, size, ticks, n) <==> PatientAt(item, ticks, n))
    {
      KeepsAt(item, size, idle, beat, ticks, n);
    }
  }

  /** A stall of any length, from its first clock on: the transfer survives exactly timeout + 1 clocks. */
  lemma {:induction false} StallIsHeld<U, I>(d: Driver<U, I>, item: Item<U, I>, size: nat, ticks: seq<Tick>)
    requires d.running && d.bus.valid && d.timeout == item.timeout && NoReset(ticks)
    requires forall k :: 0 <= k < |ticks| ==> !ticks[k].ready
    ensures var d', n := DriverRun(d, item, size, ticks), |ticks|;
            if item.timeout == 0 then d' == d
            else if n <= item.timeout then d' == d.(timeout := item.timeout - n)
            else !d'.running && d'.bus == (if n == item.timeout + 1 then d.bus else d.bus.(valid := false))
    ensures DriverRun(d, item, size, ticks).bus == d.bus <==> Patient(item, |ticks|)
  {
    if ticks != [] {
      StallIsHeld(d, item, size, ticks[..|ticks| - 1]);
    }
  }

  /** One byte, a timeout of one clock: offered at the first clock, it waits for three and is withdrawn untaken. */
  lemma WithdrawnTransfer(beat: Beat<nat, nat>)
    ensures var item := Item([TypedByte(1, DATA_BYTE)], [], 0, 0, 1);
            var go, wait := Tick(true, 0, false), Tick(false, 0, false);
            var start := DriverStart(item, 0, Bus(false, beat));
            && DriverRun(start, item, 1, [go]).bus.valid
            && DriverRun(start, item, 1, [go, wait, wait]).bus == DriverRun(start, item, 1, [go]).bus
            && !DriverRun(start, item, 1, [go, wait, wait, wait]).bus.valid
  {
    var item := Item([TypedByte(1, DATA_BYTE)], [], 0, 0, 1);
    var go, wait := Tick(true, 0, false), Tick(false, 0, false);
    var start := DriverStart(item, 0, Bus(false, beat));
    assert [go][..0] == [] && [go, wait][..1] == [go] && [go, wait, wait][..2] == [go, wait];
    assert [go, wait, wait, wait][..3] == [go, wait, wait];
    assert DriverRun(start, item, 1, []) == start;
    assert DriverRun(start, item, 1, [go]) == DriverNext(start, item, 1, go);
    assert DriverRun(start, item, 1, [go, wait]) == DriverNext(DriverNext(start, item, 1, go), item, 1, wait);
  }

  // ----- monitor -----

  /** Packet ids never compare as different, so there is one packet under construction at most. */
  datatype Monitor<U, I> = Monitor(open: Option<Packet<U, I>>, published: seq<Packet<U, I>>)

  function Decoded(lanes: seq<BusByte>): (data: seq<TypedByte>)
    ensures |data| == |lanes|
  {
    seq(|lanes|, i requires 0 <= i < |lanes| => DecodeByte(lanes[i]))
  }

  /** One transfer taken by a handshake. */
  function Capture<U, I>(m: Monitor<U, I>, b: Beat<U, I>): Monitor<U, I> {
    var p := if m.open.Some? then m.open.value else Packet([], [], b.id, |b.bytes|);
    var grown := p.(data := p.data + Decoded(b.bytes), user := p.user + [b.user], busSize := |b.bytes|);
    if b.last then Monitor(None, m.published + [grown]) else m.(open := Some(grown))
  }

  function MonitorNext<U, I>(m: Monitor<U, I>, resetReleased: bool, bus: Bus<U, I>, ready: bool): Monitor<U, I> {
    if !resetReleased then m.(open := None)
    else if bus.valid && ready then Capture(m, bus.beat)
    else m
  }

  // ----- which transfers make a packet -----

  /** What the monitor sees at a clock edge. */
  datatype Observation<U, I> = Observation(resetReleased: bool, bus: Bus<U, I>, ready: bool)

  predicate IsTaken<U, I>(o: Observation<U, I>) {
    o.resetReleased && o.bus.valid && o.ready
  }

  function MonitorRun<U, I>(m: Monitor<U, I>, seen: seq<Observation<U, I>>): Monitor<U, I> {
    if seen == [] then m else
    var o := seen[|seen| - 1];
    MonitorNext(MonitorRun(m, seen[..|seen| - 1]), o.resetReleased, o.bus, o.ready)
  }

  /** The transfers of the packet under construction after one more clock. */
  function Going<U, I>(beats: seq<Beat<U, I>>, o: Observation<U, I>): seq<Beat<U, I>> {
    if !o.resetReleased || (IsTaken(o) && o.bus.beat.last) then []
    else if IsTaken(o) then beats + [o.bus.beat] else beats
  }

  /** The transfers taken since the last reset and the last end of a packet. */
  function Current<U, I>(seen: seq<Observation<U, I>>): seq<Beat<U, I>> {
    if seen == [] then [] else Going(Current(seen[..|seen| - 1]), seen[|seen| - 1])
  }

  function AllBytes<U, I>(beats: seq<Beat<U, I>>): seq<TypedByte> {
    if beats == [] then [] else AllBytes(beats[..|beats| - 1]) + Decoded(beats[|beats| - 1].bytes)
  }

  function AllUsers<U, I>(beats: seq<Beat<U, I>>): seq<U> {
    if beats == [] then [] else AllUsers(beats[..|beats| - 1]) + [beats[|beats| - 1].user]
  }

  /** The packet some transfers make: all their bytes and user signals in order. */
  function Together<U, I>(beats: seq<Beat<U, I>>): Packet<U, I>
    requires beats != []
  {
    Packet(AllBytes(beats), AllUsers(beats), beats[0].id, |beats[|beats| - 1].bytes|)
  }

  /** A packet ends with each transfer that is the last of one. */
  function Ends<U, I>(beats: seq<Beat<U, I>>, o: Observation<U, I>): seq<Packet<U, I>> {
    if IsTaken(o) && o.bus.beat.last then [Together(beats + [o.bus.beat])] else []
  }

  function Packets<U, I>(seen: seq<Observation<U, I>>): seq<Packet<U, I>> {
    if seen == [] then [] else
    Packets(seen[..|seen| - 1]) + Ends(Current(seen[..|seen| - 1]), seen[|seen| - 1])
  }

  lemma OneMore<U, I>(seen: seq<Observation<U, I>>, o: Observation<U, I>)
    ensures Packets(seen + [o]) == Packets(seen) + Ends(Current(seen), o)
    ensures Current(seen + [o]) == Going(Current(seen), o)
  {
    assert (seen + [o])[..|seen|] == seen;
  }

  /** The monitor with the packet begun by some transfers. */
  function Holding<U, I>(beats: seq<Beat<U, I>>, published: seq<Packet<U, I>>): Monitor<U, I> {
    Monitor(if beats == [] then None else Some(Together(beats)), published)
  }

  lemma CaptureMore<U, I>(beats: seq<Beat<U, I>>, published: seq<Packet<U, I>>, b: Beat<U, I>)
    ensures Capture(Holding(beats, published), b)
         == if b.last then Monitor(None, published + [Together(beats + [b])]) else Holding(beats + [b], published)
  {
    var more := beats + [b];
    assert more[..|beats|] == beats;
    assert AllBytes(more) == AllBytes(beats) + Decoded(b.bytes) && AllUsers(more) == AllUsers(beats) + [b.user];
  }

  /** Over any run the monitor publishes exactly the packets of the transfers taken, and holds the one begun. */
  lemma {:induction false} MonitorGroups<U, I>(seen: seq<Observation<U, I>>)
    ensures MonitorRun(Monitor(None, []), seen) == Holding(Current(seen), Packets(seen))
  {
    if seen != [] {
      var before, o := seen[..|seen| - 1], seen[|seen| - 1];
      MonitorGroups(before);
      CaptureMore(Current(before), Packets(before), o.bus.beat);
      assert Packets(before) + [] == Packets(before);
    }
  }

  lemma SameFromHere<U, I>(
    start: seq<Observation<U, I>>, after: seq<Observation<U, I>>, o: Observation<U, I>, packets: seq<Packet<U, I>>)
    requires Packets(start + after) == packets + Packets(after) && Current(start + after) == Current(after)
    ensures Packets((start + after) + [o]) == packets + Packets(after + [o])
    ensures Current((start + after) + [o]) == Current(after + [o])
  {
    OneMore(start + after, o);
    OneMore(after, o);
    Regroup(packets, Packets(after), Ends(Current(after), o));
  }

  lemma {:induction false} FreshFromHere<U, I>(start: seq<Observation<U, I>>, after: seq<Observation<U, I>>)
    requires Current(start) == []
    ensures Packets(start + after) == Packets(start) + Packets(after) && Current(start + after) == Current(after)
  {
    if after == [] {
      assert start + after == start && Packets(start) + [] == Packets(start);
    } else {
      var n := |after| - 1;
      var head, o := after[..n], after[n];
      assert after == head + [o] && start + after == (start + head) + [o];
      FreshFromHere(start, head);
      SameFromHere(start, head, o, Packets(start));
    }
  }

  /** A packet published after a reset holds only transfers taken since. */
  lemma ResetDiscards<U, I>(
    before: seq<Observation<U, I>>, reset: Observation<U, I>, after: seq<Observation<U, I>>)
    requires !reset.resetReleased
    ensures Packets((before + [reset]) + after) == Packets(before) + Packets(after)
    ensures Current((before + [reset]) + after) == Current(after)
  {
    OneMore(before, reset);
    assert Packets(before) + [] == Packets(before);
    FreshFromHere(before + [reset], after);
  }

  class MonitorAgent<U, I> {
    var open: Option<Packet<U, I>>
    var published: seq<Packet<U, I>>

    function State(): Monitor<U, I>
      reads this
    {
      Monitor(open, published)
    }

    constructor ()
      ensures State() == Monitor(None, [])
    {
      open, published := None, [];
    }

    /** One clock edge of the run phase. */
    method Sample(resetReleased: bool, bus: Bus<U, I>, ready: bool)
      modifies this
      ensures State() == MonitorNext(old(State()), resetReleased, bus, ready)
    {
      if !resetReleased {
        open := None;
      } else if bus.valid && ready {
        var lanes := bus.beat.bytes;
        var p := if open.Some? then open.value else Packet([], [], bus.beat.id, |lanes|);
        var data := p.data;
        for i := 0 to |lanes|
          invariant data == p.data + Decoded(lanes[..i])
        {
          var kind := RESERVED;
          if lanes[i].keep && lanes[i].strb {
            kind := DATA_BYTE;
          } else if lanes[i].keep && !lanes[i].strb {
            kind := POSITION_BYTE;
          } else if !lanes[i].keep && lanes[i].strb {
            kind := RESERVED;
          } else {
            kind := NULL_BYTE;
          }
          assert Decoded(lanes[..i + 1]) == Decoded(lanes[..i]) + [DecodeByte(lanes[i])];
          data := data + [TypedByte(lanes[i].data, kind)];
        }
        assert lanes[..|lanes|] == lanes;
        p := p.(data := data, user := p.user + [bus.beat.user], busSize := |lanes|);
        if bus.beat.last {
          published := published + [p];
          open := None;
        } else {
          open := Some(p);
        }
      }
    }
  }

  // ----- driver and monitor together -----

  /** Both agents at a clock edge see the signals before it; captured lists the transfers taken. */
  datatype Bench<U, I> = Bench(driver: Driver<U, I>, monitor: Monitor<U, I>, captured: seq<Beat<U, I>>)

  function BenchStart<U, I>(item: Item<U, I>, idle: nat, beat: Beat<U, I>): Bench<U, I> {
    Bench(DriverStart(item, idle, Bus(false, beat)), Monitor(None, []), [])
  }

  function BenchNext<U, I>(b: Bench<U, I>, item: Item<U, I>, size: nat, t: Tick): Bench<U, I> {
    Bench(
      DriverNext(b.driver, item, size, t),
      MonitorNext(b.monitor, !t.inReset, b.driver.bus, t.ready),
      b.captured + Word(b.driver.bus.valid && t.ready, b.driver.bus.beat))
  }

  function BenchRun<U, I>(b: Bench<U, I>, item: Item<U, I>, size: nat, ticks: seq<Tick>): Bench<U, I> {
    if ticks == [] then b else
    BenchNext(BenchRun(b, item, size, ticks[..|ticks| - 1]), item, size, ticks[|ticks| - 1])
  }

  /** The transfers an item still has to be cut into. */
  function Beats<U, I>(item: Item<U, I>, size: nat, index: nat, transfer: nat): (beats: seq<Beat<U, I>>)
    ensures index < |item.data| ==> beats != []
    decreases |item.data| - index
  {
    if index >= |item.data| then [] else
    [BeatAt(item, size, index, transfer)] + Beats(item, size, Advance(item.data, index, size), transfer + 1)
  }

  function CaptureAll<U, I>(m: Monitor<U, I>, beats: seq<Beat<U, I>>): Monitor<U, I> {
    if beats == [] then m else Capture(CaptureAll(m, beats[..|beats| - 1]), beats[|beats| - 1])
  }

  /** The transfers a driver has not got rid of: the one offered and those to come. */
  function Outstanding<U, I>(d: Driver<U, I>, item: Item<U, I>, size: nat): seq<Beat<U, I>> {
    Word(d.bus.valid, d.bus.beat) + Beats(item, size, d.index, d.transfer)
  }

  /** What was captured and what is outstanding make up the whole item. */
  ghost predicate DriverInv<U, I>(d: Driver<U, I>, captured: seq<Beat<U, I>>, item: Item<U, I>, size: nat) {
    && (d.expired ==> !d.running)
    && (!d.expired ==> captured + Outstanding(d, item, size) == Beats(item, size, 0, 0))
    && (!d.running && !d.expired ==> Outstanding(d, item, size) == [])
  }

  lemma DriverStep<U, I>(d: Driver<U, I>, item: Item<U, I>, size: nat, t: Tick)
    requires !t.inReset
    ensures var d', taken := DriverNext(d, item, size, t), Word(d.bus.valid && t.ready, d.bus.beat);
            if d.running then d'.expired || taken + Outstanding(d', item, size) == Outstanding(d, item, size)
            else d' == Released(d)
    ensures d.running && !DriverNext(d, item, size, t).running && !DriverNext(d, item, size, t).expired ==>
              Outstanding(DriverNext(d, item, size, t), item, size) == []
  {
  }

  lemma DriverKeeps<U, I>(d: Driver<U, I>, captured: seq<Beat<U, I>>, item: Item<U, I>, size: nat, t: Tick)
    requires DriverInv(d, captured, item, size) && !t.inReset
    ensures DriverInv(DriverNext(d, item, size, t), captured + Word(d.bus.valid && t.ready, d.bus.beat), item, size)
  {
    var d', taken := DriverNext(d, item, size, t), Word(d.bus.valid && t.ready, d.bus.beat);
    DriverStep(d, item, size, t);
    if d.running {
      Regroup(captured, taken, Outstanding(d', item, size));
    } else if !d.expired {
      assert !d.bus.valid;
      Regroup(captured, taken, []);
    }
  }

  ghost predicate BenchInv<U, I>(b: Bench<U, I>, item: Item<U, I>, size: nat) {
    b.monitor == CaptureAll(Monitor(None, []), b.captured) && DriverInv(b.driver, b.captured, item, size)
  }

  lemma BenchStep<U, I>(b: Bench<U, I>, item: Item<U, I>, size: nat, t: Tick)
    requires BenchInv(b, item, size) && !t.inReset
    ensures BenchInv(BenchNext(b, item, size, t), item, size)
  {
    DriverKeeps(b.driver, b.captured, item, size, t);
    var bus := b.driver.bus;
    if bus.valid && t.ready {
      assert (b.captured + [bus.beat])[..|b.captured|] == b.captured;
    } else {
      assert b.captured + [] == b.captured;
    }
  }

  lemma {:induction false} BenchRunInv<U, I>(item: Item<U, I>, size: nat, idle: nat, beat: Beat<U, I>, ticks: seq<Tick>)
    requires NoReset(ticks)
    ensures BenchInv(BenchRun(BenchStart(item, idle, beat), item, size, ticks), item, size)
  {
    if ticks != [] {
      BenchRunInv(item, size, idle, beat, ticks[..|ticks| - 1]);
      BenchStep(BenchRun(BenchStart(item, idle, beat), item, size, ticks[..|ticks| - 1]), item, size,
                ticks[|ticks| - 1]);
    }
  }

  // ----- the packet an item becomes -----

  function Transfers(n: nat, size: nat): nat
    requires size > 0
  {
    (n + size - 1) / size
  }

  function Nulls(n: nat): (s: seq<TypedByte>)
    ensures |s| == n
  {
    seq(n, _ => NULL)
  }

  lemma TransfersStep(n: nat, size: nat)
    requires size > 0
    ensures Transfers(n, size) == if n == 0 then 0 else if n <= size then 1 else Transfers(n - size, size) + 1
  {
    if n == 0 {
      DivModUnique(size - 1, size, 0, size - 1);
    } else if n <= size {
      DivModUnique(n + size - 1, size, 1, n - 1);
    } else {
      var x := n - 1;
      assert x == size * (x / size) + x % size;
      assert size * (x / size + 1) == size * (x / size) + size;
      DivModUnique(n + size - 1, size, x / size + 1, x % size);
    }
  }

  /** The bytes of the item, filled up with null bytes to whole transfers. */
  function Padded(data: seq<TypedByte>, size: nat): seq<TypedByte>
    requires size > 0
    decreases |data|
  {
    if data == [] then [] else
    if |data| <= size then data + Nulls(size - |data|) else data[..size] + Padded(data[size..], size)
  }

  lemma PaddingStep(n: nat, size: nat)
    requires size > 0
    ensures size * Transfers(n, size) >= n
    ensures size * Transfers(n, size) - n
         == if n == 0 then 0 else if n <= size then size - n else size * Transfers(n - size, size) - (n - size)
  {
    var x := n + size - 1;
    assert x == size * (x / size) + x % size;
    TransfersStep(n, size);
    if n > size {
      var k := Transfers(n - size, size);
      assert size * (k + 1) == size * k + size;
    }
  }

  lemma {:induction false} PaddedLength(data: seq<TypedByte>, size: nat)
    requires size > 0
    ensures size * Transfers(|data|, size) >= |data|
    ensures Padded(data, size) == data + Nulls(size * Transfers(|data|, size) - |data|)
    decreases |data|
  {
    PaddingStep(|data|, size);
    if |data| > size {
      var head, tail := data[..size], data[size..];
      PaddedLength(tail, size);
      assert data == head + tail;
      Regroup(head, tail, Nulls(size * Transfers(|tail|, size) - |tail|));
    }
  }

  /** The user signals of n transfers in a row. */
  function Users<U, I>(item: Item<U, I>, from: nat, n: nat): (s: seq<U>)
    ensures |s| == n
  {
    seq(n, i requires 0 <= i < n => UserAt(item, from + i))
  }

  lemma {:induction false} CaptureFirst<U, I>(m: Monitor<U, I>, b: Beat<U, I>, rest: seq<Beat<U, I>>)
    ensures CaptureAll(m, [b] + rest) == CaptureAll(Capture(m, b), rest)
  {
    if rest == [] {
      assert [b] + rest == [b];
    } else {
      var n := |rest| - 1;
      assert ([b] + rest)[..n + 1] == [b] + rest[..n];
      CaptureFirst(m, b, rest[..n]);
    }
  }

  lemma DecodedChunk(data: seq<TypedByte>, index: nat, size: nat)
    requires index < |data| && size > 0
    ensures var next := Advance(data, index, size);
            Decoded(Chunk(data, index, size)) == data[index..next] + Nulls(size - (next - index))
  {
    forall i | 0 <= i < size && index + i < |data| ensures Decoded(Chunk(data, index, size))[i] == data[index + i] {
      TypesSurviveTheBus(data[index + i], PADDING);
    }
  }

  /** The packet under construction after some transfers, given the bytes and users so far. */
  function Opened<U, I>(m: Monitor<U, I>, id: I, size: nat): Packet<U, I> {
    if m.open.Some? then m.open.value else Packet([], [], id, size)
  }

  lemma PaddedStep(data: seq<TypedByte>, index: nat, size: nat)
    requires size > 0 && index < |data|
    ensures var next := Advance(data, index, size);
            Padded(data[index..], size) == if next < |data| then data[index..next] + Padded(data[next..], size)
                                           else data[index..] + Nulls(size - (|data| - index))
  {
    var next := Advance(data, index, size);
    if next < |data| {
      assert data[index..][..size] == data[index..next] && data[index..][size..] == data[next..];
    } else if |data| - index == size {
      assert data[index..] + Nulls(0) == data[index..];
    }
  }

  /** The packet after one more transfer. */
  function Grown<U, I>(m: Monitor<U, I>, item: Item<U, I>, size: nat, index: nat, transfer: nat): Packet<U, I>
    requires index < |item.data|
  {
    var p := Opened(m, item.id, size);
    Packet(p.data + Decoded(Chunk(item.data, index, size)), p.user + [UserAt(item, transfer)], p.id, size)
  }

  lemma CaptureGrows<U, I>(m: Monitor<U, I>, item: Item<U, I>, size: nat, index: nat, transfer: nat)
    requires index < |item.data|
    ensures Capture(m, BeatAt(item, size, index, transfer))
         == if Advance(item.data, index, size) < |item.data|
            then Monitor(Some(Grown(m, item, size, index, transfer)), m.published)
            else Monitor(None, m.published + [Grown(m, item, size, index, transfer)])
  {
  }

  /** The packet once all transfers from index on are in. */
  function Completed<U, I>(m: Monitor<U, I>, item: Item<U, I>, size: nat, index: nat, transfer: nat): Packet<U, I>
    requires size > 0 && index < |item.data|
  {
    var p := Opened(m, item.id, size);
    Packet(p.data + Padded(item.data[index..], size),
           p.user + Users(item, transfer, Transfers(|item.data| - index, size)), p.id, size)
  }

  lemma OneTransfer(n: nat, size: nat)
    requires 0 < n <= size
    ensures Transfers(n, size) == 1
  {
    TransfersStep(n, size);
  }

  lemma LastBytes(data: seq<TypedByte>, index: nat, size: nat)
    requires size > 0 && index < |data| <= Advance(data, index, size)
    ensures Padded(data[index..], size) == Decoded(Chunk(data, index, size))
  {
    PaddedStep(data, index, size);
    DecodedChunk(data, index, size);
    assert data[index..|data|] == data[index..];
  }

  lemma CompletedLast<U, I>(m: Monitor<U, I>, item: Item<U, I>, size: nat, index: nat, transfer: nat)
    requires size > 0 && index < |item.data| <= Advance(item.data, index, size)
    ensures Completed(m, item, size, index, transfer) == Grown(m, item, size, index, transfer)
  {
    LastBytes(item.data, index, size);
    OneTransfer(|item.data| - index, size);
    assert Users(item, transfer, 1) == [UserAt(item, transfer)];
  }

  lemma BytesMore(p: seq<TypedByte>, data: seq<TypedByte>, index: nat, size: nat)
    requires size > 0 && index < |data| && Advance(data, index, size) < |data|
    ensures (p + Decoded(Chunk(data, index, size))) + Padded(data[Advance(data, index, size)..], size)
         == p + Padded(data[index..], size)
  {
    var next := Advance(data, index, size);
    PaddedStep(data, index, size);
    DecodedChunk(data, index, size);
    assert data[index..next] + Nulls(0) == data[index..next];
    Regroup(p, data[index..next], Padded(data[next..], size));
  }

  lemma UsersMore<U, I>(p: seq<U>, item: Item<U, I>, transfer: nat, n: nat)
    ensures (p + [UserAt(item, transfer)]) + Users(item, transfer + 1, n) == p + Users(item, transfer, n + 1)
  {
    UsersFirst(item, transfer, n + 1);
    Regroup(p, [UserAt(item, transfer)], Users(item, transfer + 1, n));
  }

  lemma CompletedMore<U, I>(m: Monitor<U, I>, item: Item<U, I>, size: nat, index: nat, transfer: nat)
    requires size > 0 && index < |item.data| && Advance(item.data, index, size) < |item.data|
    ensures var m' := Monitor(Some(Grown(m, item, size, index, transfer)), m.published);
            Completed(m', item, size, Advance(item.data, index, size), transfer + 1)
            == Completed(m, item, size, index, transfer)
  {
    var p, left := Opened(m, item.id, size), |item.data| - index;
    BytesMore(p.data, item.data, index, size);
    UsersMore(p.user, item, transfer, Transfers(left - size, size));
    TransfersStep(left, size);
  }

  /** Capturing all remaining transfers publishes one packet: what was open, then the padded rest. */
  lemma {:induction false} Assemble<U, I>(m: Monitor<U, I>, item: Item<U, I>, size: nat, index: nat, transfer: nat)
    requires size > 0 && index < |item.data|
    ensures CaptureAll(m, Beats(item, size, index, transfer))
         == Monitor(None, m.published + [Completed(m, item, size, index, transfer)])
    decreases |item.data| - index
  {
    var beat, next := BeatAt(item, size, index, transfer), Advance(item.data, index, size);
    CaptureFirst(m, beat, Beats(item, size, next, transfer + 1));
    CaptureGrows(m, item, size, index, transfer);
    if next < |item.data| {
      Assemble(Capture(m, beat), item, size, next, transfer + 1);
      CompletedMore(m, item, size, index, transfer);
    } else {
      CompletedLast(m, item, size, index, transfer);
    }
  }

  lemma UsersFirst<U, I>(item: Item<U, I>, from: nat, n: nat)
    requires n > 0
    ensures Users(item, from, n) == [UserAt(item, from)] + Users(item, from + 1, n - 1)
  {
  }

  function PacketOf<U, I>(item: Item<U, I>, size: nat): Packet<U, I>
    requires size > 0
  {
    Packet(Padded(item.data, size), Users(item, 0, Transfers(|item.data|, size)), item.id, size)
  }

  lemma AllBeatsMakeThePacket<U, I>(item: Item<U, I>, size: nat)
    requires size > 0 && |item.data| > 0
    ensures CaptureAll(Monitor(None, []), Beats(item, size, 0, 0)) == Monitor(None, [PacketOf(item, size)])
  {
    Assemble(Monitor(None, []), item, size, 0, 0);
    assert item.data[0..] == item.data;
    var data, user := Padded(item.data, size), Users(item, 0, Transfers(|item.data|, size));
    assert [] + data == data && [] + user == user;
    assert [] + [PacketOf(item, size)] == [PacketOf(item, size)];
  }

  lemma EndedBenchPublished<U, I>(b: Bench<U, I>, item: Item<U, I>, size: nat)
    requires size > 0 && |item.data| > 0
    requires BenchInv(b, item, size) && !b.driver.running && !b.driver.expired
    ensures b.monitor == Monitor(None, [PacketOf(item, size)])
  {
    assert b.captured + [] == b.captured;
    AllBeatsMakeThePacket(item, size);
  }

  /** Main result: for every ready schedule and every choice of idle clocks, a transfer that ends
      without timeout has made the monitor publish exactly one packet and leaves none open: the item's
      typed bytes filled up with null bytes to ceil(n / size) whole transfers, with their user signals. */
  lemma DriverMonitorRoundTrip<U, I>(item: Item<U, I>, size: nat, idle: nat, beat: Beat<U, I>, ticks: seq<Tick>)
    requires size > 0 && |item.data| > 0 && NoReset(ticks)
    ensures var b := BenchRun(BenchStart(item, idle, beat), item, size, ticks);
            !b.driver.running && !b.driver.expired ==> b.monitor == Monitor(None, [PacketOf(item, size)])
    ensures var p, n := PacketOf(item, size), Transfers(|item.data|, size);
            && size * n >= |item.data| && p.data == item.data + Nulls(size * n - |item.data|)
            && |p.user| == n && p.id == item.id && p.busSize == size
            && forall k :: 0 <= k < n ==> p.user[k] == if k < |item.user| then item.user[k] else item.blank
  {
    var b := BenchRun(BenchStart(item, idle, beat), item, size, ticks);
    BenchRunInv(item, size, idle, beat, ticks);
    PaddedLength(item.data, size);
    if !b.driver.running && !b.driver.expired {
      EndedBenchPublished(b, item, size);
    }
  }

  // ----- what the bus carries -----

  /** Byte n of the item with the flags of its type, or a null byte behind the last. */
  predicate CarriesByte(lane: BusByte, data: seq<TypedByte>, n: nat) {
    if n < |data| then
      && lane.data == data[n].data
      && (lane.keep <==> data[n].kind == DATA_BYTE || data[n].kind == POSITION_BYTE)
      && (lane.strb <==> data[n].kind == DATA_BYTE || data[n].kind == RESERVED)
    else lane == BusByte(false, false, 0)
  }

  ghost predicate CarriesFrom(lanes: seq<BusByte>, data: seq<TypedByte>, from: nat) {
    forall i :: 0 <= i < |lanes| ==> CarriesByte(lanes[i], data, from + i)
  }

  lemma ChunkCarries(data: seq<TypedByte>, index: nat, size: nat)
    ensures CarriesFrom(Chunk(data, index, size), data, index)
  {
    forall i | 0 <= i < size ensures CarriesByte(Chunk(data, index, size)[i], data, index + i) {
      if index + i < |data| {
        TypesSurviveTheBus(data[index + i], PADDING);
      }
    }
  }

  /** How far a transfer advances; on a bus without data bytes each one stands for a byte. */
  function Stride(size: nat): nat {
    if size == 0 then 1 else size
  }

  /** Transfer k of an item. */
  ghost predicate Carries<U, I>(b: Beat<U, I>, item: Item<U, I>, size: nat, k: nat) {
    && |b.bytes| == size && CarriesFrom(b.bytes, item.data, k * Stride(size))
    && b.user == (if k < |item.user| then item.user[k] else item.blank)
    && b.id == item.id && (b.last <==> (k + 1) * Stride(size) >= |item.data|)
  }

  lemma {:induction false} BeatsAt<U, I>(item: Item<U, I>, size: nat, index: nat, transfer: nat, k: nat)
    requires k < |Beats(item, size, index, transfer)|
    ensures index + k * Stride(size) < |item.data|
    ensures Beats(item, size, index, transfer)[k] == BeatAt(item, size, index + k * Stride(size), transfer + k)
    decreases k
  {
    if k > 0 {
      var next := Advance(item.data, index, size);
      BeatsAt(item, size, next, transfer + 1, k - 1);
      assert next == index + Stride(size);
      assert (k - 1) * Stride(size) + Stride(size) == k * Stride(size);
    }
  }

  lemma BeatCarries<U, I>(item: Item<U, I>, size: nat, k: nat)
    requires k < |Beats(item, size, 0, 0)|
    ensures Carries(Beats(item, size, 0, 0)[k], item, size, k)
  {
    BeatsAt(item, size, 0, 0, k);
    ChunkCarries(item.data, k * Stride(size), size);
    assert (k + 1) * Stride(size) == k * Stride(size) + Stride(size);
  }

  /** At any time before a timeout the transfers taken are the first ones of the item: byte lanes, user signals,
      id, and last on the one that reaches the end of its data. */
  lemma TransfersOnTheBus<U, I>(item: Item<U, I>, size: nat, idle: nat, beat: Beat<U, I>, ticks: seq<Tick>, k: nat)
    requires NoReset(ticks)
    requires var b := BenchRun(BenchStart(item, idle, beat), item, size, ticks);
             !b.driver.expired && k < |b.captured|
    ensures Carries(BenchRun(BenchStart(item, idle, beat), item, size, ticks).captured[k], item, size, k)
  {
    var b := BenchRun(BenchStart(item, idle, beat), item, size, ticks);
    BenchRunInv(item, size, idle, beat, ticks);
    assert b.captured[k] == (b.captured + Outstanding(b.driver, item, size))[k];
    BeatCarries(item, size, k);
  }

  // ----- reset -----

  /** A reset ends the transfer: from that clock on nothing is offered. */
  lemma {:induction false} ResetEndsTransfer<U, I>(
    d: Driver<U, I>, item: Item<U, I>, size: nat, ticks: seq<Tick>, n: nat)
    requires n < |ticks| && ticks[n].inReset
    ensures var d' := DriverRun(d, item, size, ticks); !d'.running && !d'.bus.valid
  {
    if n < |ticks| - 1 {
      ResetEndsTransfer(d, item, size, ticks[..|ticks| - 1], n);
    }
  }

  // ----- termination -----

  function Times(a: nat, b: nat): nat {
    a * b
  }

  /** Ready clocks still needed if no idle draw exceeds most. */
  function ReadyClocks<U, I>(d: Driver<U, I>, item: Item<U, I>, size: nat, most: nat): (n: nat)
    ensures n > 0
  {
    var left := |Beats(item, size, d.index, d.transfer)|;
    if left == 0 then 1 else d.idle + 2 + Times(left - 1, most + 1)
  }

  /** Clocks still needed: each ready clock may be preceded by a full timeout. */
  function Clocks<U, I>(d: Driver<U, I>, item: Item<U, I>, size: nat, most: nat): nat {
    if !d.running then 0
    else Times(ReadyClocks(d, item, size, most) - 1, item.timeout + 1) + d.timeout + 1
  }

  lemma ReadyStep<U, I>(d: Driver<U, I>, item: Item<U, I>, size: nat, most: nat, t: Tick)
    requires d.running && t.ready && t.idle <= most
    ensures var d' := DriverNext(d, item, size, t);
            d'.running ==> ReadyClocks(d', item, size, most) < ReadyClocks(d, item, size, most)
  {
    var d' := DriverNext(d, item, size, t);
    var left := |Beats(item, size, d.index, d.transfer)|;
    if d.index < |item.data| && d.idle == 0 && !t.inReset {
      assert |Beats(item, size, d'.index, d'.transfer)| == left - 1;
      if left > 1 {
        assert (left - 1) * (most + 1) == (left - 2) * (most + 1) + (most + 1);
      } else {
        assert (left - 1) * (most + 1) == 0;
      }
    }
  }

  lemma MeasureFalls(r: nat, r': nat, k: nat, timeout: nat)
    requires 1 <= r' < r && k > 0
    ensures (r' - 1) * k + k < (r - 1) * k + timeout + 1
  {
    assert (r - 1) * k == r' * k + (r - 1 - r') * k;
    assert (r - 1 - r') * k >= 0;
    assert r' * k == (r' - 1) * k + k;
  }

  lemma ClocksStep<U, I>(d: Driver<U, I>, item: Item<U, I>, size: nat, most: nat, t: Tick)
    requires d.running && t.idle <= most && item.timeout > 0
    ensures Clocks(DriverNext(d, item, size, t), item, size, most) < Clocks(d, item, size, most)
  {
    var d' := DriverNext(d, item, size, t);
    if t.ready && d'.running {
      ReadyStep(d, item, size, most, t);
      MeasureFalls(ReadyClocks(d, item, size, most), ReadyClocks(d', item, size, most), item.timeout + 1, d.timeout);
    }
  }

  lemma {:induction false} ClocksRun<U, I>(d: Driver<U, I>, item: Item<U, I>, size: nat, most: nat, ticks: seq<Tick>)
    requires item.timeout > 0 && forall k :: 0 <= k < |ticks| ==> ticks[k].idle <= most
    ensures var d' := DriverRun(d, item, size, ticks);
            d'.running ==> Clocks(d', item, size, most) + |ticks| <= Clocks(d, item, size, most)
  {
    if ticks != [] {
      var n := |ticks| - 1;
      ClocksRun(d, item, size, most, ticks[..n]);
      var before := DriverRun(d, item, size, ticks[..n]);
      if before.running {
        ClocksStep(before, item, size, most, ticks[n]);
      }
    }
  }

  lemma {:induction false} BeatCount<U, I>(item: Item<U, I>, size: nat, index: nat, transfer: nat)
    requires size > 0 && index <= |item.data|
    ensures |Beats(item, size, index, transfer)| == Transfers(|item.data| - index, size)
    decreases |item.data| - index
  {
    TransfersStep(|item.data| - index, size);
    if index < |item.data| {
      var next := Advance(item.data, index, size);
      BeatCount(item, size, next, transfer + 1);
      TransfersStep(|item.data| - next, size);
    }
  }

  lemma BoundHolds(left: nat, idle: nat, most: nat, timeout: nat)
    requires left > 0 && idle <= most
    ensures (idle + 2 + (left - 1) * (most + 1) - 1) * (timeout + 1) + timeout + 1
         <= (left * (most + 1) + 1) * (timeout + 1)
  {
    var r, bound, k := idle + 2 + (left - 1) * (most + 1), left * (most + 1) + 1, timeout + 1;
    assert left * (most + 1) == (left - 1) * (most + 1) + (most + 1);
    assert (bound - r) * k >= 0;
    assert bound * k == (r - 1) * k + k + (bound - r) * k;
  }

  lemma StartClocks<U, I>(item: Item<U, I>, size: nat, idle: nat, bus: Bus<U, I>, most: nat)
    requires size > 0 && idle <= most
    ensures Clocks(DriverStart(item, idle, bus), item, size, most)
         <= (Transfers(|item.data|, size) * (most + 1) + 1) * (item.timeout + 1)
  {
    BeatCount(item, size, 0, 0);
    TransfersStep(|item.data|, size);
    if item.data != [] {
      BoundHolds(Transfers(|item.data|, size), idle, most, item.timeout);
    }
  }

  /** With a timeout and idle draws of at most most, a transfer of n bytes ends within
      (ceil(n / size) * (most + 1) + 1) * (timeout + 1) clocks, whatever the ready schedule. */
  lemma DriverTerminates<U, I>(item: Item<U, I>, size: nat, idle: nat, bus: Bus<U, I>, most: nat, ticks: seq<Tick>)
    requires size > 0 && item.timeout > 0 && idle <= most
    requires forall k :: 0 <= k < |ticks| ==> ticks[k].idle <= most
    requires |ticks| >= (Transfers(|item.data|, size) * (most + 1) + 1) * (item.timeout + 1)
    ensures !DriverRun(DriverStart(item, idle, bus), item, size, ticks).running
  {
    var d := DriverStart(item, idle, bus);
    ClocksRun(d, item, size, most, ticks);
    StartClocks(item, size, idle, bus, most);
  }

  // ----- a schedule that lets the transfer through -----

  /** No stall is longer than the timeout, or there is none. */
  predicate NoLongStall<U, I>(item: Item<U, I>, ticks: seq<Tick>) {
    item.timeout == 0 || forall n :: 0 <= n < |ticks| ==> StalledAt(ticks, n) <= item.timeout
  }

  function StalledAt(ticks: seq<Tick>, n: nat): nat
    requires n < |ticks|
  {
    Stalled(ticks[..n + 1])
  }

  lemma NoLongStallBefore<U, I>(item: Item<U, I>, ticks: seq<Tick>)
    requires NoLongStall(item, ticks) && ticks != []
    ensures NoLongStall(item, ticks[..|ticks| - 1])
    ensures item.timeout > 0 ==> Stalled(ticks) <= item.timeout
  {
    var before := ticks[..|ticks| - 1];
    if item.timeout > 0 {
      forall n | 0 <= n < |before| ensures StalledAt(before, n) <= item.timeout {
        assert before[..n + 1] == ticks[..n + 1] && StalledAt(ticks, n) <= item.timeout;
      }
      assert ticks[..|ticks|] == ticks && StalledAt(ticks, |ticks| - 1) <= item.timeout;
    }
  }

  /** Without a long stall the timeout never expires: it counts the stall down. */
  lemma {:induction false} NeverExpires<U, I>(item: Item<U, I>, size: nat, idle: nat, bus: Bus<U, I>, ticks: seq<Tick>)
    requires NoReset(ticks) && NoLongStall(item, ticks)
    ensures var d := DriverRun(DriverStart(item, idle, bus), item, size, ticks);
            !d.expired && (item.timeout > 0 && d.running ==> d.timeout + Stalled(ticks) == item.timeout)
  {
    if ticks != [] {
      NoLongStallBefore(item, ticks);
      NeverExpires(item, size, idle, bus, ticks[..|ticks| - 1]);
    }
  }

  /** Every ready clock brings a running driver closer to its end. */
  lemma {:induction false} ReadyRun<U, I>(d: Driver<U, I>, item: Item<U, I>, size: nat, most: nat, ticks: seq<Tick>)
    requires forall k :: 0 <= k < |ticks| ==> ticks[k].idle <= most
    ensures var d' := DriverRun(d, item, size, ticks);
            d'.running ==> ReadyClocks(d', item, size, most) + ReadyCount(ticks) <= ReadyClocks(d, item, size, most)
  {
    if ticks != [] {
      var n := |ticks| - 1;
      var before := DriverRun(d, item, size, ticks[..n]);
      ReadyRun(d, item, size, most, ticks[..n]);
      if before.running && ticks[n].ready {
        ReadyStep(before, item, size, most, ticks[n]);
      }
    }
  }

  lemma StartReadyClocks<U, I>(item: Item<U, I>, size: nat, idle: nat, bus: Bus<U, I>, most: nat)
    requires size > 0 && idle <= most
    ensures ReadyClocks(DriverStart(item, idle, bus), item, size, most) <= Transfers(|item.data|, size) * (most + 1) + 1
  {
    BeatCount(item, size, 0, 0);
    var left := Transfers(|item.data|, size);
    if left > 0 {
      assert left * (most + 1) == (left - 1) * (most + 1) + (most + 1);
    }
  }

  lemma {:induction false} BenchDriver<U, I>(item: Item<U, I>, size: nat, idle: nat, beat: Beat<U, I>, ticks: seq<Tick>)
    ensures BenchRun(BenchStart(item, idle, beat), item, size, ticks).driver
         == DriverRun(DriverStart(item, idle, Bus(false, beat)), item, size, ticks)
  {
    if ticks != [] {
      BenchDriver(item, size, idle, beat, ticks[..|ticks| - 1]);
    }
  }

  /** The round trip as a matter of the schedule alone: with idle draws of at most most, no stall longer
      than the timeout and ceil(n / size) * (most + 1) + 1 ready clocks, the item has been published as
      exactly one packet. */
  lemma ScheduleDelivers<U, I>(item: Item<U, I>, size: nat, idle: nat, beat: Beat<U, I>, most: nat, ticks: seq<Tick>)
    requires size > 0 && |item.data| > 0 && idle <= most
    requires NoReset(ticks) && NoLongStall(item, ticks) && forall k :: 0 <= k < |ticks| ==> ticks[k].idle <= most
    requires ReadyCount(ticks) >= Transfers(|item.data|, size) * (most + 1) + 1
    ensures BenchRun(BenchStart(item, idle, beat), item, size, ticks).monitor == Monitor(None, [PacketOf(item, size)])
  {
    var bus := Bus(false, beat);
    NeverExpires(item, size, idle, bus, ticks);
    ReadyRun(DriverStart(item, idle, bus), item, size, most, ticks);
    StartReadyClocks(item, size, idle, bus, most);
    BenchDriver(item, size, idle, beat, ticks);
    DriverMonitorRoundTrip(item, size, idle, beat, ticks);
  }
}
