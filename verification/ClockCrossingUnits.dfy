/** The dual-clock FIFO as objects whose registers are updated in place. */
module ClockCrossingUnits {
  import opened Wrapping
  import opened GrayCode
  import opened Streams
  import opened PointerCrossing
  import opened ClockCrossing
  import Proof = ClockCrossingProof

  class WriteService {
    const depth: nat
    var reset: seq<bool>
    var difference: nat
    var ready: bool
    var pointer: nat

    ghost predicate Valid()
      reads this
    {
      depth > 3 && pointer < depth && |reset| == 2
    }

    function State(): WriteDomain
      reads this
    {
      WriteDomain(reset, difference, ready, pointer)
    }

    constructor (depth: nat)
      requires depth > 3
      ensures Valid() && this.depth == depth && State() == ResetWrite()
    {
      this.depth := depth;
      reset, difference, ready, pointer := HELD_IN_RESET, 0, false, 0;
    }

    method Reset()
      requires Valid()
      modifies this
      ensures Valid() && State() == ResetWrite()
    {
      reset, difference, ready, pointer := HELD_IN_RESET, 0, false, 0;
    }

    method Clock(valid: bool, readSynced: nat)
      requires Valid()
      modifies this
      ensures Valid() && State() == WriteNext(old(State()), readSynced, valid, depth)
    {
      var enable := valid && ready;
      var almostFull := difference >= depth - 3;
      if reset[0] {
        difference := (pointer - readSynced) % depth;
        ready := !almostFull;
        if enable {
          pointer := (pointer + 1) % depth;
        }
      }
      reset := ReleaseStep(reset);
    }
  }

  class ReadService<T> {
    const depth: nat
    var reset: seq<bool>
    var difference: nat
    var almostEmpty: bool
    var busy: bool
    var pointer: nat
    var data: T
    var valid: bool
    var out: T

    ghost predicate Valid()
      reads this
    {
      depth > 3 && pointer < depth && |reset| == 2
    }

    function State(): ReadDomain<T>
      reads this
    {
      ReadDomain(reset, difference, almostEmpty, busy, pointer, data, valid, out)
    }

    constructor (depth: nat, data: T, out: T)
      requires depth > 3
      ensures Valid() && this.depth == depth && State() == ResetRead(data, out)
    {
      this.depth := depth;
      reset, difference, almostEmpty, busy, pointer, valid := HELD_IN_RESET, 0, true, false, 0, false;
      this.data, this.out := data, out;
    }

    method Reset()
      requires Valid()
      modifies this
      ensures Valid() && State() == ResetRead(old(data), old(out))
    {
      reset, difference, almostEmpty, busy, pointer, valid := HELD_IN_RESET, 0, true, false, 0, false;
    }

    /** word is what the memory shows for the slot at pointer. */
    method Clock(ready: bool, writeSynced: nat, word: T)
      requires Valid()
      modifies this
      ensures Valid() && State() == ReadNext(old(State()), writeSynced, ready, word, depth)
    {
      var empty := almostEmpty && writeSynced % 8 == pointer % 8;
      var enable := if busy then !empty && ready else !empty;
      if ready {
        out := data;
      }
      if reset[0] {
        if ready {
          valid := busy;
        }
        if !busy {
          busy := !empty;
        } else if ready && empty {
          busy := false;
        }
        almostEmpty := difference <= 2;
        difference := (writeSynced - pointer) % depth;
        if enable {
          pointer := (pointer + 1) % depth;
        }
      }
      if enable {
        data := word;
      }
      reset := ReleaseStep(reset);
    }
  }

  class DualClockFifo<T(0)> {
    const width: nat
    const writeService: WriteService
    const readService: ReadService<T>
    const readSync: PointerSync
    const writeSync: PointerSync
    const memory: array<T>

    ghost const Repr: set<object>

    // the unbounded counts behind the pointers, and the words that crossed since the last reset
    ghost var track: Proof.Tracked<T>
    ghost var accepted: seq<T>
    ghost var delivered: seq<T>

    ghost predicate Shape()
      reads Repr
    {
      && width >= 3 && this !in Repr
      && Repr == {writeService, readService, readSync, readSync.synchronizer.q,
                  writeSync, writeSync.synchronizer.q, memory}
      && memory.Length == Pow2(width) > 3
      && readSync != writeSync && readSync.synchronizer.q != writeSync.synchronizer.q
      && memory as object != readSync.synchronizer.q && memory as object != writeSync.synchronizer.q
      && writeService.Valid() && writeService.depth == Pow2(width)
      && readService.Valid() && readService.depth == Pow2(width)
      && readSync.Valid() && readSync.width == width
      && writeSync.Valid() && writeSync.width == width
    }

    ghost function State(): Fifo<T>
      requires Shape()
      reads Repr
    {
      Fifo(writeService.State(), readService.State(), readSync.State(), writeSync.State(), memory[..])
    }

    /** The counts are those of a reachable state, and what was accepted is what was delivered and what is inside. */
    ghost predicate Valid()
      reads this, Repr
    {
      && Shape()
      && track.fifo == State() && Proof.Inv(track, width)
      && accepted == delivered + Proof.Held(State())
    }

    constructor (width: nat, data: T, out: T)
      requires width >= 3
      ensures Valid() && this.width == width && fresh(Repr)
      ensures State() == ResetFifo(memory[..], data, out, width) && accepted == delivered == []
    {
      Pow2Eight(width);
      this.width := width;
      var write := new WriteService(Pow2(width));
      var read := new ReadService(Pow2(width), data, out);
      var toRead := new PointerSync(width);
      var toWrite := new PointerSync(width);
      var cells := new T[Pow2(width)];
      writeService, readService, readSync, writeSync, memory := write, read, toRead, toWrite, cells;
      Repr := {write, read, toRead, toRead.synchronizer.q, toWrite, toWrite.synchronizer.q, cells};
      accepted, delivered := [], [];
      track := Proof.Start(cells[..], data, out, width);
      new;
      assert Shape() && State() == ResetFifo(memory[..], data, out, width);
      Proof.StartInv(memory[..], data, out, width);
      Proof.NothingHeld(memory[..], data, out, width);
    }

    /** The common reset reaches both domains at once; memory words survive it. */
    method Reset()
      requires Valid()
      modifies Repr, `track, `accepted, `delivered
      ensures Valid() && State() == Next(old(State()), Edge.Reset, width)
      ensures track == Proof.TrackedNext(old(track), Edge.Reset, width) && accepted == delivered == []
    {
      ghost var s := State();
      ResetUnits();
      track := Proof.TrackedNext(track, Edge.Reset, width);
      accepted, delivered := [], [];
      Proof.StartInv(s.memory, s.read.data, s.read.out, width);
      Proof.NothingHeld(s.memory, s.read.data, s.read.out, width);
    }

    method ResetUnits()
      requires Shape()
      modifies Repr
      ensures Shape() && State() == Next(old(State()), Edge.Reset, width)
    {
      writeService.Reset();
      readService.Reset();
      readSync.Reset();
      writeSync.Reset();
    }

    /** The services and the memory, given the synced pointers before the edge. */
    method ClockServices(write: Option<WriteInput<T>>, read: Option<ReadInput<T>>)
      requires Shape()
      modifies writeService, readService, memory
      ensures Shape() && readSync.State() == old(readSync.State()) && writeSync.State() == old(writeSync.State())
      ensures var s' := Next(old(State()), Edge.Clock(write, read), width);
              writeService.State() == s'.write && readService.State() == s'.read && memory[..] == s'.memory
    {
      var writePointer, readPointer := writeService.pointer, readService.pointer;
      var writeEnable := write.Some? && write.value.valid && writeService.ready;
      if read.Some? {
        var word := if writeEnable && writePointer == readPointer then read.value.clash else memory[readPointer];
        readService.Clock(read.value.ready, readSync.synced, word);
      }
      if write.Some? {
        writeService.Clock(write.value.valid, writeSync.synced);
      }
      if writeEnable {
        memory[writePointer] := write.value.data;
      }
    }

    /** Both pointer crossings. */
    method ClockSyncs(writePointer: Option<nat>, toRead: Option<Bits>, readPointer: Option<nat>, toWrite: Option<Bits>)
      requires Shape()
      requires (toRead.Some? ==> |toRead.value| == width) && (toWrite.Some? ==> |toWrite.value| == width)
      modifies readSync, readSync.synchronizer.q, writeSync, writeSync.synchronizer.q
      ensures Shape() && writeService.State() == old(writeService.State())
      ensures readService.State() == old(readService.State()) && memory[..] == old(memory[..])
      ensures readSync.State() == CrossingNext(old(readSync.State()), width, writePointer, toRead)
      ensures writeSync.State() == CrossingNext(old(writeSync.State()), width, readPointer, toWrite)
    {
      readSync.Clock(writePointer, toRead);
      writeSync.Clock(readPointer, toWrite);
    }

    /** An edge of one clock, or of both at once. No word is lost, duplicated or reordered, and the
        counts behind the pointers stay in order within one turn. */
    method Clock(write: Option<WriteInput<T>>, read: Option<ReadInput<T>>)
      requires Valid() && Legal(State(), Edge.Clock(write, read), width)
      modifies Repr, `track, `accepted, `delivered
      ensures Valid() && State() == Next(old(State()), Edge.Clock(write, read), width)
      ensures track == Proof.TrackedNext(old(track), Edge.Clock(write, read), width)
      ensures var s, e := old(track.fifo), Edge.Clock(write, read);
              && accepted == old(accepted) + Proof.Accepts(s, e) && delivered == old(delivered) + Proof.Delivers(s, e)
              && Proof.Delivers(s, e) + Proof.Held(State()) == Proof.Held(s) + Proof.Accepts(s, e)
      ensures track.toWrite.synced <= track.toWrite.source <= track.toRead.synced
           <= track.toRead.source < track.toWrite.synced + Pow2(width)
      ensures old(readService.valid) && (read.Some? ==> !read.value.ready) ==>
                readService.valid && readService.out == old(readService.out)
    {
      ghost var before := State();
      Update(write, read);
      Record(Edge.Clock(write, read));
      if before.read.valid && (read.Some? ==> !read.value.ready) {
        Proof.StalledWordStays(before, Edge.Clock(write, read), width);
      }
    }

    /** The histories follow the units. */
    ghost method Record(e: Edge<T>)
      requires Shape() && Proof.Inv(track, width) && Legal(track.fifo, e, width) && e.Clock?
      requires State() == Next(track.fifo, e, width) && accepted == delivered + Proof.Held(track.fifo)
      modifies `track, `accepted, `delivered
      ensures Valid() && track == Proof.TrackedNext(old(track), e, width)
      ensures var s := old(track.fifo);
              && accepted == old(accepted) + Proof.Accepts(s, e) && delivered == old(delivered) + Proof.Delivers(s, e)
              && Proof.Delivers(s, e) + Proof.Held(track.fifo) == Proof.Held(s) + Proof.Accepts(s, e)
      ensures track.toWrite.synced <= track.toWrite.source <= track.toRead.synced
           <= track.toRead.source < track.toWrite.synced + Pow2(width)
    {
      var t := track;
      Proof.EdgeKeeps(t, e, accepted, delivered, width);
      track := Proof.TrackedNext(t, e, width);
      accepted, delivered := accepted + Proof.Accepts(t.fifo, e), delivered + Proof.Delivers(t.fifo, e);
    }

    /** The units one after the other; every unit sees the values before the edge. */
    method Update(write: Option<WriteInput<T>>, read: Option<ReadInput<T>>)
      requires Shape() && Legal(State(), Edge.Clock(write, read), width)
      modifies Repr
      ensures Shape() && State() == Next(old(State()), Edge.Clock(write, read), width)
    {
      var writePointer := if write.Some? && writeService.reset[0] then Some(writeService.pointer) else None;
      var readPointer := if read.Some? && readService.reset[0] then Some(readService.pointer) else None;
      var toRead := if read.Some? && readService.reset[0] then Some(read.value.sample) else None;
      var toWrite := if write.Some? && writeService.reset[0] then Some(write.value.sample) else None;
      ClockServices(write, read);
      ClockSyncs(writePointer, toRead, readPointer, toWrite);
    }
  }
}
