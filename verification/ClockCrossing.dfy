/**
 Dual-clock FIFO: what one edge of the write clock, of the read clock, or of both does to the
 registers. Every register is computed from the values before the edge.
 */
module ClockCrossing {
  import opened Wrapping
  import opened GrayCode
  import opened Streams
  import opened PointerCrossing

  /** Registers of the write service, and the write domain's reset synchronizer. */
  datatype WriteDomain = WriteDomain(reset: seq<bool>, difference: nat, ready: bool, pointer: nat)

  /** Registers of the read service, the memory's read register, and the reset synchronizer.
      busy is the state FSM_DATA. */
  datatype ReadDomain<T> = ReadDomain(
    reset: seq<bool>, difference: nat, almostEmpty: bool, busy: bool, pointer: nat,
    data: T, valid: bool, out: T)

  datatype Fifo<T> = Fifo(
    write: WriteDomain, read: ReadDomain<T>, toRead: Crossing, toWrite: Crossing, memory: seq<T>)

  /** sample is what the first synchronizer stage captures at this edge. */
  datatype WriteInput<T> = WriteInput(valid: bool, data: T, sample: Bits)

  /** clash is what the memory returns if the slot read is being written at this very edge. */
  datatype ReadInput<T> = ReadInput(ready: bool, sample: Bits, clash: T)

  /** Reset asserts the common reset; Clock is an edge of the clocks whose input is present. */
  datatype Edge<T> = Reset | Clock(write: Option<WriteInput<T>>, read: Option<ReadInput<T>>)

  const HELD_IN_RESET := [false, false]

  function ReleaseStep(reset: seq<bool>): seq<bool>
    requires |reset| > 0
  {
    reset[1..] + [true]
  }

  function ResetWrite(): WriteDomain {
    WriteDomain(HELD_IN_RESET, 0, false, 0)
  }

  /** The memory's read register and the data output have no reset. */
  function ResetRead<T>(data: T, out: T): ReadDomain<T> {
    ReadDomain(HELD_IN_RESET, 0, true, false, 0, data, false, out)
  }

  function ResetFifo<T>(memory: seq<T>, data: T, out: T, w: nat): Fifo<T> {
    Fifo(ResetWrite(), ResetRead(data, out), ResetCrossing(w), ResetCrossing(w), memory)
  }

  predicate WellFormed<T>(s: Fifo<T>, w: nat) {
    && w >= 3 && |s.memory| == Pow2(w)
    && s.write.pointer < Pow2(w) && s.read.pointer < Pow2(w)
    && |s.write.reset| == |s.read.reset| == 2
    && |s.toRead.chain| > 0 && |s.toWrite.chain| > 0
  }

  predicate WriteEnable(d: WriteDomain, valid: bool) {
    valid && d.ready
  }

  function WriteNext(d: WriteDomain, readSynced: nat, valid: bool, depth: nat): WriteDomain
    requires depth > 0 && |d.reset| > 0
  {
    if !d.reset[0] then d.(reset := ReleaseStep(d.reset)) else
    WriteDomain(
      ReleaseStep(d.reset),
      (d.pointer - readSynced) % depth,
      !(d.difference >= depth - 3),
      if WriteEnable(d, valid) then (d.pointer + 1) % depth else d.pointer)
  }

  /** The cheap flag: a stale comparison and the low three bits of the pointers. */
  predicate Empty<T>(d: ReadDomain<T>, writeSynced: nat) {
    d.almostEmpty && writeSynced % 8 == d.pointer % 8
  }

  predicate ReadEnable<T>(d: ReadDomain<T>, writeSynced: nat, ready: bool) {
    !Empty(d, writeSynced) && (d.busy ==> ready)
  }

  function ReadNext<T>(d: ReadDomain<T>, writeSynced: nat, ready: bool, word: T, depth: nat): ReadDomain<T>
    requires depth > 0 && |d.reset| > 0
  {
    var enable := ReadEnable(d, writeSynced, ready);
    var empty := Empty(d, writeSynced);
    var moved := d.(
      reset := ReleaseStep(d.reset),
      data := if enable then word else d.data,
      out := if ready then d.data else d.out);
    if !d.reset[0] then moved else
    moved.(
      difference := (writeSynced - d.pointer) % depth,
      almostEmpty := d.difference <= 2,
      busy := if d.busy then !(ready && empty) else !empty,
      pointer := if enable then (d.pointer + 1) % depth else d.pointer,
      valid := if ready then d.busy else d.valid)
  }

  predicate Writes<T>(s: Fifo<T>, e: Edge<T>) {
    e.Clock? && e.write.Some? && WriteEnable(s.write, e.write.value.valid)
  }

  predicate Reads<T>(s: Fifo<T>, e: Edge<T>) {
    e.Clock? && e.read.Some? && ReadEnable(s.read, s.toRead.synced, e.read.value.ready)
  }

  /** The word the memory returns. */
  function ReadWord<T>(s: Fifo<T>, e: Edge<T>): T
    requires s.read.pointer < |s.memory| && e.Clock? && e.read.Some?
  {
    if Writes(s, e) && s.write.pointer == s.read.pointer then e.read.value.clash else s.memory[s.read.pointer]
  }

  /** The pointer loaded into the gray register at this edge, if its domain is clocked out of reset. */
  function ToReadPointer<T>(s: Fifo<T>, e: Edge<T>): Option<nat>
    requires |s.write.reset| > 0 && e.Clock?
  {
    if e.write.Some? && s.write.reset[0] then Some(s.write.pointer) else None
  }

  function ToReadSample<T>(s: Fifo<T>, e: Edge<T>): Option<Bits>
    requires |s.read.reset| > 0 && e.Clock?
  {
    if e.read.Some? && s.read.reset[0] then Some(e.read.value.sample) else None
  }

  function ToWritePointer<T>(s: Fifo<T>, e: Edge<T>): Option<nat>
    requires |s.read.reset| > 0 && e.Clock?
  {
    if e.read.Some? && s.read.reset[0] then Some(s.read.pointer) else None
  }

  function ToWriteSample<T>(s: Fifo<T>, e: Edge<T>): Option<Bits>
    requires |s.write.reset| > 0 && e.Clock?
  {
    if e.write.Some? && s.write.reset[0] then Some(e.write.value.sample) else None
  }

  /** Samples may only be torn between the gray code before and after the edge. */
  predicate Legal<T>(s: Fifo<T>, e: Edge<T>, w: nat)
    requires WellFormed(s, w)
  {
    e.Clock? ==>
      && (ToReadSample(s, e).Some? ==>
            Torn(ToReadSample(s, e).value, s.toRead.gray, CrossingNext(s.toRead, w, ToReadPointer(s, e), None).gray))
      && (ToWriteSample(s, e).Some? ==>
            Torn(ToWriteSample(s, e).value, s.toWrite.gray,
                 CrossingNext(s.toWrite, w, ToWritePointer(s, e), None).gray))
  }

  function Next<T>(s: Fifo<T>, e: Edge<T>, w: nat): (s': Fifo<T>)
    requires WellFormed(s, w)
    ensures WellFormed(s', w)
  {
    match e
    case Reset => ResetFifo(s.memory, s.read.data, s.read.out, w)
    case Clock(wi, ri) =>
      Fifo(
        if wi.Some? then WriteNext(s.write, s.toWrite.synced, wi.value.valid, Pow2(w)) else s.write,
        if ri.Some? then ReadNext(s.read, s.toRead.synced, ri.value.ready, ReadWord(s, e), Pow2(w)) else s.read,
        CrossingNext(s.toRead, w, ToReadPointer(s, e), ToReadSample(s, e)),
        CrossingNext(s.toWrite, w, ToWritePointer(s, e), ToWriteSample(s, e)),
        if Writes(s, e) then s.memory[s.write.pointer := wi.value.data] else s.memory)
  }
}
