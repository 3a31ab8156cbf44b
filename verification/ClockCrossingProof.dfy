/** The dual-clock FIFO keeps order, loses nothing and never overflows, for every interleaving of its clocks. */
module ClockCrossingProof {
  import opened Wrapping
  import opened Streams
  import opened Ring
  import opened PointerCrossing
  import opened ClockCrossing

  /** A FIFO with the unbounded counts behind its pointers: toRead.source words were written,
      toWrite.source words were read, and the synced counts are what the other side knows. */
  datatype Tracked<T> = Tracked(fifo: Fifo<T>, toRead: Counts, toWrite: Counts)

  function Start<T>(memory: seq<T>, data: T, out: T, w: nat): Tracked<T> {
    Tracked(ResetFifo(memory, data, out, w), RESET_COUNTS, RESET_COUNTS)
  }

  function TrackedNext<T>(t: Tracked<T>, e: Edge<T>, w: nat): (t': Tracked<T>)
    requires WellFormed(t.fifo, w) && |t.toRead.chain| > 0 && |t.toWrite.chain| > 0
    ensures WellFormed(t'.fifo, w) && |t'.toRead.chain| > 0 && |t'.toWrite.chain| > 0
  {
    var s := t.fifo;
    if e.Reset? then Start(s.memory, s.read.data, s.read.out, w) else
    Tracked(
      Next(s, e, w),
      CountsNext(t.toRead, w, ToReadPointer(s, e), Writes(s, e), ToReadSample(s, e)),
      CountsNext(t.toWrite, w, ToWritePointer(s, e), Reads(s, e), ToWriteSample(s, e)))
  }

  /** Facts about the write domain: w, r are the words written and the synced count of words read. */
  ghost predicate WriteSafe(d: WriteDomain, written: int, readSynced: int, depth: int)
    requires depth > 0
  {
    && |d.reset| == 2 && (d.reset[0] ==> d.reset[1])
    && (d.ready ==> d.reset[0])
    && (!d.reset[0] ==> written == 0)
    && written - readSynced <= depth - 1
    && written - readSynced <= d.difference + 1
    && (d.ready ==> written - readSynced <= depth - 2)
    && d.pointer == written % depth
  }

  ghost predicate ReadSafe<T>(d: ReadDomain<T>, writeSynced: int, read: int, depth: int)
    requires depth > 0
  {
    && |d.reset| == 2 && (d.reset[0] ==> d.reset[1])
    && (!d.reset[0] ==> d.almostEmpty && writeSynced == 0 && read == 0 && !d.busy && !d.valid)
    && read <= writeSynced
    && d.difference - 1 <= writeSynced - read
    && (!d.almostEmpty ==> read < writeSynced)
    && d.pointer == read % depth
  }

  /** What every reachable state satisfies. */
  ghost predicate Inv<T>(t: Tracked<T>, w: nat) {
    var s := t.fifo;
    && WellFormed(s, w)
    && Aligned(s.toRead, t.toRead, w)
    && Aligned(s.toWrite, t.toWrite, w)
    && WriteSafe(s.write, t.toRead.source, t.toWrite.synced, Pow2(w))
    && ReadSafe(s.read, t.toRead.synced, t.toWrite.source, Pow2(w))
  }

  lemma StartInv<T>(memory: seq<T>, data: T, out: T, w: nat)
    requires w >= 3 && |memory| == Pow2(w)
    ensures Inv(Start(memory, data, out, w), w)
  {
    ResetAligned(w);
    Pow2Eight(w);
  }

  /** A full turn of the low three bits fits the depth. */
  lemma LowBits(n: nat, pointer: nat, w: nat)
    requires w >= 3 && pointer == n % Pow2(w)
    ensures pointer % 8 == n % 8
  {
    Pow2Eight(w);
    WrapNested(n, 8, Pow2(w - 3));
  }

  /** The write service decides on a difference that is two write clocks old; the synced count may
      meanwhile have moved from synced to synced'. */
  lemma WriteDomainStep(d: WriteDomain, written: nat, synced: nat, synced': nat, valid: bool, depth: nat)
    requires depth >= 8 && WriteSafe(d, written, synced, depth)
    requires synced <= written < synced + depth && synced <= synced'
    ensures WriteSafe(WriteNext(d, synced % depth, valid, depth),
                      written + (if WriteEnable(d, valid) then 1 else 0), synced', depth)
  {
    WrapSub(written, synced, depth);
    WrapAdd(written, 1, depth);
  }

  lemma ReadDomainStep<T>(d: ReadDomain<T>, read: nat, synced: nat, synced': nat, ready: bool, word: T, depth: nat)
    requires depth >= 8 && ReadSafe(d, synced, read, depth)
    requires synced < read + depth && synced <= synced' && (!d.reset[0] ==> synced' == synced)
    requires ReadEnable(d, synced % depth, ready) ==> d.reset[0] && read < synced
    ensures ReadSafe(ReadNext(d, synced % depth, ready, word, depth), synced',
                     read + (if ReadEnable(d, synced % depth, ready) then 1 else 0), depth)
  {
    WrapSub(synced, read, depth);
    WrapAdd(read, 1, depth);
  }

  // ----- what each side needs to know -----

  ghost predicate WriteView<T>(t: Tracked<T>, w: nat) {
    && WellFormed(t.fifo, w) && |t.toRead.chain| > 0 && |t.toWrite.chain| > 0
    && WriteSafe(t.fifo.write, t.toRead.source, t.toWrite.synced, Pow2(w))
    && t.toWrite.synced <= t.toRead.source < t.toWrite.synced + Pow2(w)
    && t.fifo.toWrite.synced == t.toWrite.synced % Pow2(w)
  }

  ghost predicate ReadView<T>(t: Tracked<T>, w: nat) {
    && WellFormed(t.fifo, w) && |t.toRead.chain| > 0 && |t.toWrite.chain| > 0
    && ReadSafe(t.fifo.read, t.toRead.synced, t.toWrite.source, Pow2(w))
    && t.toWrite.source <= t.toRead.synced < t.toWrite.source + Pow2(w)
    && t.fifo.toRead.synced == t.toRead.synced % Pow2(w)
  }

  /** The counts in the order in which they run ahead of each other, all within one turn. */
  lemma Order<T>(t: Tracked<T>, w: nat)
    requires Inv(t, w)
    ensures t.toWrite.synced <= t.toWrite.source <= t.toRead.synced <= t.toRead.source < t.toWrite.synced + Pow2(w)
  {
    assert t.toRead.synced <= t.toRead.chain[0] <= t.toRead.gray;
    assert t.toWrite.synced <= t.toWrite.chain[0] <= t.toWrite.gray;
  }

  lemma Views<T>(t: Tracked<T>, w: nat)
    requires Inv(t, w)
    ensures WriteView(t, w) && ReadView(t, w)
  {
    Order(t, w);
  }

  /** An enabled read happens out of reset and finds a word. */
  lemma ReadIsSafe<T>(t: Tracked<T>, ready: bool, w: nat)
    requires ReadView(t, w) && ReadEnable(t.fifo.read, t.fifo.toRead.synced, ready)
    ensures t.fifo.read.reset[0] && t.toWrite.source < t.toRead.synced
  {
    if !t.fifo.read.reset[0] {
      DivModUnique(0, Pow2(w), 0, 0);
    }
    LowBits(t.toRead.synced, t.fifo.toRead.synced, w);
    LowBits(t.toWrite.source, t.fifo.read.pointer, w);
  }

  /** The cheap flag is never down when the synced count says there is nothing to read. */
  lemma ReadNeverUnderflows<T>(t: Tracked<T>, ready: bool, w: nat)
    requires Inv(t, w) && ReadEnable(t.fifo.read, t.fifo.toRead.synced, ready)
    ensures t.toWrite.source < t.toRead.synced
  {
    Views(t, w);
    ReadIsSafe(t, ready, w);
  }

  lemma ReadsOutOfReset<T>(t: Tracked<T>, ready: bool, w: nat)
    requires Inv(t, w) && ReadEnable(t.fifo.read, t.fifo.toRead.synced, ready)
    ensures t.fifo.read.reset[0]
  {
    Views(t, w);
    ReadIsSafe(t, ready, w);
  }

  lemma ToReadStep<T>(t: Tracked<T>, e: Edge<T>, w: nat)
    requires Inv(t, w) && Legal(t.fifo, e, w) && e.Clock?
    ensures var t' := TrackedNext(t, e, w);
            Aligned(t'.fifo.toRead, t'.toRead, w) && t.toRead.synced <= t'.toRead.synced
  {
    var s := t.fifo;
    CrossingStep(s.toRead, t.toRead, w, ToReadPointer(s, e), Writes(s, e), ToReadSample(s, e));
  }

  /** A read only happens out of reset. */
  lemma ToWriteStep<T>(t: Tracked<T>, e: Edge<T>, w: nat)
    requires Inv(t, w) && Legal(t.fifo, e, w) && e.Clock?
    ensures var t' := TrackedNext(t, e, w);
            Aligned(t'.fifo.toWrite, t'.toWrite, w) && t.toWrite.synced <= t'.toWrite.synced
  {
    var s := t.fifo;
    if Reads(s, e) {
      ReadsOutOfReset(t, e.read.value.ready, w);
    }
    CrossingStep(s.toWrite, t.toWrite, w, ToWritePointer(s, e), Reads(s, e), ToWriteSample(s, e));
  }

  lemma WriteSideStep<T>(t: Tracked<T>, e: Edge<T>, w: nat)
    requires WriteView(t, w) && e.Clock? && t.toWrite.synced <= TrackedNext(t, e, w).toWrite.synced
    ensures var t' := TrackedNext(t, e, w);
            WriteSafe(t'.fifo.write, t'.toRead.source, t'.toWrite.synced, Pow2(w))
  {
    var t' := TrackedNext(t, e, w);
    if e.write.Some? {
      var valid := e.write.value.valid;
      Pow2Eight(w);
      WriteDomainStep(t.fifo.write, t.toRead.source, t.toWrite.synced, t'.toWrite.synced, valid, Pow2(w));
      assert t'.fifo.write == WriteNext(t.fifo.write, t.fifo.toWrite.synced, valid, Pow2(w));
      assert t'.toRead.source == t.toRead.source + (if WriteEnable(t.fifo.write, valid) then 1 else 0);
    } else {
      assert t'.fifo.write == t.fifo.write && t'.toRead.source == t.toRead.source;
      assert t'.toWrite.synced == t.toWrite.synced;
    }
  }

  lemma ReadSideStep<T>(t: Tracked<T>, e: Edge<T>, w: nat)
    requires ReadView(t, w) && e.Clock? && t.toRead.synced <= TrackedNext(t, e, w).toRead.synced
    ensures var t' := TrackedNext(t, e, w);
            ReadSafe(t'.fifo.read, t'.toRead.synced, t'.toWrite.source, Pow2(w))
  {
    var t' := TrackedNext(t, e, w);
    if e.read.Some? {
      var ready, word := e.read.value.ready, ReadWord(t.fifo, e);
      if ReadEnable(t.fifo.read, t.fifo.toRead.synced, ready) {
        ReadIsSafe(t, ready, w);
      }
      Pow2Eight(w);
      ReadDomainStep(t.fifo.read, t.toWrite.source, t.toRead.synced, t'.toRead.synced, ready, word, Pow2(w));
      assert t'.fifo.read == ReadNext(t.fifo.read, t.fifo.toRead.synced, ready, word, Pow2(w));
      assert t'.toWrite.source
          == t.toWrite.source + (if ReadEnable(t.fifo.read, t.fifo.toRead.synced, ready) then 1 else 0);
    } else {
      assert t'.fifo.read == t.fifo.read && t'.toWrite.source == t.toWrite.source;
      assert t'.toRead.synced == t.toRead.synced;
    }
  }

  lemma StepInv<T>(t: Tracked<T>, e: Edge<T>, w: nat)
    requires Inv(t, w) && Legal(t.fifo, e, w)
    ensures Inv(TrackedNext(t, e, w), w)
  {
    if e.Reset? {
      StartInv(t.fifo.memory, t.fifo.read.data, t.fifo.read.out, w);
    } else {
      ToReadStep(t, e, w);
      ToWriteStep(t, e, w);
      Views(t, w);
      WriteSideStep(t, e, w);
      ReadSideStep(t, e, w);
    }
  }

  // ----- content -----

  /** The number of words in the memory, as far as the wrapped pointers tell. */
  function Occupancy<T>(s: Fifo<T>): nat
    requires |s.memory| > 0
  {
    (s.write.pointer - s.read.pointer) % |s.memory|
  }

  /** Every word inside: output register, memory read register, memory. */
  function Held<T>(s: Fifo<T>): seq<T>
    requires |s.memory| > 0
  {
    Word(s.read.valid, s.read.out) + Word(s.read.busy, s.read.data)
    + Slice(s.memory, s.read.pointer, Occupancy(s))
  }

  /** The word that enters by a handshake at this edge. */
  function Accepts<T>(s: Fifo<T>, e: Edge<T>): seq<T> {
    if e.Clock? && e.write.Some? && e.write.value.valid && s.write.ready then [e.write.value.data] else []
  }

  /** The word that leaves by a handshake at this edge. */
  function Delivers<T>(s: Fifo<T>, e: Edge<T>): seq<T> {
    if e.Clock? && e.read.Some? && e.read.value.ready && s.read.valid then [s.read.out] else []
  }

  lemma OccupancyIsExact<T>(t: Tracked<T>, w: nat)
    requires Inv(t, w)
    ensures Occupancy(t.fifo) == t.toRead.source - t.toWrite.source < Pow2(w)
    ensures t.fifo.write.pointer == Slot(t.fifo.read.pointer, Occupancy(t.fifo), Pow2(w))
  {
    Order(t, w);
    WrapSub(t.toRead.source, t.toWrite.source, Pow2(w));
    WrapAdd(t.toWrite.source, t.toRead.source - t.toWrite.source, Pow2(w));
  }

  /** Although both sides decide on stale pointers, the memory never holds more than 2^w - 1 words,
      and a write and a read at the same instant address different slots. */
  lemma OccupancyBound<T>(t: Tracked<T>, e: Edge<T>, w: nat)
    requires Inv(t, w)
    ensures 0 <= t.toRead.source - t.toWrite.source <= t.toRead.source - t.toWrite.synced <= Pow2(w) - 1
    ensures Writes(t.fifo, e) ==> t.toRead.source - t.toWrite.source <= Pow2(w) - 2
    ensures Writes(t.fifo, e) && Reads(t.fifo, e) ==> t.fifo.write.pointer != t.fifo.read.pointer
  {
    Order(t, w);
    OccupancyIsExact(t, w);
    if Reads(t.fifo, e) {
      ReadNeverUnderflows(t, e.read.value.ready, w);
      SlotZero(t.fifo.read.pointer, Pow2(w));
      SlotsApart(t.fifo.read.pointer, 0, Occupancy(t.fifo), Pow2(w));
    }
  }

  lemma OccupancyStep<T>(t: Tracked<T>, e: Edge<T>, w: nat)
    requires Inv(t, w) && Legal(t.fifo, e, w) && e.Clock?
    ensures var s, s' := t.fifo, Next(t.fifo, e, w);
            Occupancy(s') == Occupancy(s) + |Accepts(s, e)| - (if Reads(s, e) then 1 else 0)
  {
    StepInv(t, e, w);
    OccupancyIsExact(t, w);
    OccupancyIsExact(TrackedNext(t, e, w), w);
  }

  lemma MemoryRegisters<T>(s: Fifo<T>, s': Fifo<T>, e: Edge<T>, w: nat)
    requires WellFormed(s, w) && e.Clock? && s' == Next(s, e, w)
    requires Reads(s, e) ==> s.read.reset[0]
    ensures s'.memory == if Writes(s, e) then s.memory[s.write.pointer := e.write.value.data] else s.memory
    ensures s'.read.pointer == if Reads(s, e) then Slot(s.read.pointer, 1, Pow2(w)) else s.read.pointer
  {
  }

  /** The memory gives up its first word exactly when a read is enabled. */
  lemma MemoryStep<T>(s: Fifo<T>, s': Fifo<T>, e: Edge<T>, w: nat)
    requires WellFormed(s, w) && e.Clock? && s' == Next(s, e, w)
    requires s.write.pointer == Slot(s.read.pointer, Occupancy(s), Pow2(w))
    requires Writes(s, e) ==> Occupancy(s) < Pow2(w)
    requires Reads(s, e) ==> s.read.reset[0] && Occupancy(s) > 0
    requires Writes(s, e) && Reads(s, e) ==> s.write.pointer != s.read.pointer
    requires Occupancy(s') == Occupancy(s) + |Accepts(s, e)| - (if Reads(s, e) then 1 else 0)
    ensures (if Reads(s, e) then [ReadWord(s, e)] else []) + Slice(s'.memory, s'.read.pointer, Occupancy(s'))
         == Slice(s.memory, s.read.pointer, Occupancy(s)) + Accepts(s, e)
  {
    var push := if Writes(s, e) then Some(e.write.value.data) else None;
    var pop, n := Reads(s, e), Occupancy(s);
    RingStep(s.memory, s.read.pointer, n, push, pop);
    MemoryRegisters(s, s', e, w);
  }

  /** The prefetch register and the output register pass words on in order. */
  lemma OutputStep<T>(d: ReadDomain<T>, writeSynced: nat, ready: bool, word: T, depth: nat)
    requires depth > 0 && |d.reset| > 0
    requires !d.reset[0] ==> Empty(d, writeSynced) && !d.busy && !d.valid
    ensures var d' := ReadNext(d, writeSynced, ready, word, depth);
            (if ready then Word(d.valid, d.out) else []) + (Word(d'.valid, d'.out) + Word(d'.busy, d'.data))
            == Word(d.valid, d.out) + Word(d.busy, d.data) + Word(ReadEnable(d, writeSynced, ready), word)
  {
  }

  /** The registers of a composite state follow from those of its parts. */
  lemma HeldStep<T>(s: Fifo<T>, s': Fifo<T>, e: Edge<T>, w: nat)
    requires WellFormed(s, w) && e.Clock? && s' == Next(s, e, w)
    requires !s.read.reset[0] ==> Empty(s.read, s.toRead.synced) && !s.read.busy && !s.read.valid
    requires (if Reads(s, e) then [ReadWord(s, e)] else []) + Slice(s'.memory, s'.read.pointer, Occupancy(s'))
          == Slice(s.memory, s.read.pointer, Occupancy(s)) + Accepts(s, e)
    ensures Delivers(s, e) + Held(s') == Held(s) + Accepts(s, e)
  {
    var rest, rest' := Slice(s.memory, s.read.pointer, Occupancy(s)), Slice(s'.memory, s'.read.pointer, Occupancy(s'));
    var pre := Word(s.read.valid, s.read.out) + Word(s.read.busy, s.read.data);
    var pre' := Word(s'.read.valid, s'.read.out) + Word(s'.read.busy, s'.read.data);
    var moved := if Reads(s, e) then [ReadWord(s, e)] else [];
    assert Delivers(s, e) + pre' == pre + moved by {
      if e.read.Some? {
        OutputStep(s.read, s.toRead.synced, e.read.value.ready, ReadWord(s, e), Pow2(w));
      }
    }
    InSeries(Delivers(s, e), pre, pre', moved, rest, rest', Accepts(s, e));
  }

  /** No edge loses, duplicates or reorders a word. */
  lemma Conservation<T>(t: Tracked<T>, e: Edge<T>, w: nat)
    requires Inv(t, w) && Legal(t.fifo, e, w) && e.Clock?
    ensures Delivers(t.fifo, e) + Held(Next(t.fifo, e, w)) == Held(t.fifo) + Accepts(t.fifo, e)
  {
    var s, s' := t.fifo, Next(t.fifo, e, w);
    OccupancyStep(t, e, w);
    OccupancyBound(t, e, w);
    OccupancyIsExact(t, w);
    Order(t, w);
    if Reads(s, e) {
      ReadsOutOfReset(t, e.read.value.ready, w);
      ReadNeverUnderflows(t, e.read.value.ready, w);
    }
    MemoryStep(s, s', e, w);
    if !s.read.reset[0] {
      DivModUnique(0, Pow2(w), 0, 0);
    }
    HeldStep(s, s', e, w);
  }

  /** What an edge keeps, for an observer who has counted the words since the last reset. */
  lemma EdgeKeeps<T>(t: Tracked<T>, e: Edge<T>, accepted: seq<T>, delivered: seq<T>, w: nat)
    requires Inv(t, w) && Legal(t.fifo, e, w) && e.Clock? && accepted == delivered + Held(t.fifo)
    ensures var t' := TrackedNext(t, e, w);
            && Inv(t', w)
            && Delivers(t.fifo, e) + Held(t'.fifo) == Held(t.fifo) + Accepts(t.fifo, e)
            && accepted + Accepts(t.fifo, e) == (delivered + Delivers(t.fifo, e)) + Held(t'.fifo)
            && t'.toWrite.synced <= t'.toWrite.source <= t'.toRead.synced <= t'.toRead.source
            && t'.toRead.source < t'.toWrite.synced + Pow2(w)
  {
    StepInv(t, e, w);
    Order(TrackedNext(t, e, w), w);
    Conservation(t, e, w);
    Append(delivered, Held(t.fifo), Delivers(t.fifo, e), Held(Next(t.fifo, e, w)), Accepts(t.fifo, e));
  }

  // ----- whole runs -----

  function Run<T>(t: Tracked<T>, es: seq<Edge<T>>, w: nat): (t': Tracked<T>)
    requires WellFormed(t.fifo, w) && |t.toRead.chain| > 0 && |t.toWrite.chain| > 0
    ensures WellFormed(t'.fifo, w) && |t'.toRead.chain| > 0 && |t'.toWrite.chain| > 0
  {
    if es == [] then t else TrackedNext(Run(t, es[..|es| - 1], w), es[|es| - 1], w)
  }

  /** Every edge of the run is legal in the state it meets. */
  predicate LegalRun<T>(t: Tracked<T>, es: seq<Edge<T>>, w: nat)
    requires WellFormed(t.fifo, w) && |t.toRead.chain| > 0 && |t.toWrite.chain| > 0
  {
    es == [] ||
    (LegalRun(t, es[..|es| - 1], w) && Legal(Run(t, es[..|es| - 1], w).fifo, es[|es| - 1], w))
  }

  /** The words accepted since the last reset. */
  function Accepted<T>(t: Tracked<T>, es: seq<Edge<T>>, w: nat): seq<T>
    requires WellFormed(t.fifo, w) && |t.toRead.chain| > 0 && |t.toWrite.chain| > 0
  {
    if es == [] || es[|es| - 1].Reset? then [] else
    Accepted(t, es[..|es| - 1], w) + Accepts(Run(t, es[..|es| - 1], w).fifo, es[|es| - 1])
  }

  /** The words delivered since the last reset. */
  function Delivered<T>(t: Tracked<T>, es: seq<Edge<T>>, w: nat): seq<T>
    requires WellFormed(t.fifo, w) && |t.toRead.chain| > 0 && |t.toWrite.chain| > 0
  {
    if es == [] || es[|es| - 1].Reset? then [] else
    Delivered(t, es[..|es| - 1], w) + Delivers(Run(t, es[..|es| - 1], w).fifo, es[|es| - 1])
  }

  lemma {:induction false} RunInv<T>(t: Tracked<T>, es: seq<Edge<T>>, w: nat)
    requires Inv(t, w) && LegalRun(t, es, w)
    ensures Inv(Run(t, es, w), w)
  {
    if es != [] {
      RunInv(t, es[..|es| - 1], w);
      StepInv(Run(t, es[..|es| - 1], w), es[|es| - 1], w);
    }
  }

  lemma NothingHeld<T>(memory: seq<T>, data: T, out: T, w: nat)
    requires w >= 3 && |memory| == Pow2(w)
    ensures Held(ResetFifo(memory, data, out, w)) == []
  {
    DivModUnique(0, Pow2(w), 0, 0);
  }

  lemma {:induction false} RunConserves<T>(t: Tracked<T>, es: seq<Edge<T>>, w: nat)
    requires Inv(t, w) && Held(t.fifo) == [] && LegalRun(t, es, w)
    ensures Delivered(t, es, w) + Held(Run(t, es, w).fifo) == Accepted(t, es, w)
  {
    if es != [] {
      var before, e := es[..|es| - 1], es[|es| - 1];
      var s := Run(t, before, w).fifo;
      RunInv(t, before, w);
      if e.Reset? {
        NothingHeld(s.memory, s.read.data, s.read.out, w);
      } else {
        RunConserves(t, before, w);
        Conservation(Run(t, before, w), e, w);
        Append(Delivered(t, before, w), Held(s), Delivers(s, e), Held(Next(s, e, w)), Accepts(s, e));
      }
    }
  }

  /** Main result: from power up, whatever the two clocks, the torn samples, the handshakes and the
      order in which the domains leave reset, the words accepted since the last reset are the words
      delivered followed by the words inside; and the pointers stay within one turn of each other. */
  lemma CrossingIsFifo<T>(memory: seq<T>, data: T, out: T, es: seq<Edge<T>>, w: nat)
    requires w >= 3 && |memory| == Pow2(w)
    requires LegalRun(Start(memory, data, out, w), es, w)
    ensures var start := Start(memory, data, out, w); var t := Run(start, es, w);
            && Accepted(start, es, w) == Delivered(start, es, w) + Held(t.fifo)
            && t.toWrite.synced <= t.toWrite.source <= t.toRead.synced <= t.toRead.source < t.toWrite.synced + Pow2(w)
            && |Slice(t.fifo.memory, t.fifo.read.pointer, Occupancy(t.fifo))| == t.toRead.source - t.toWrite.source
  {
    var start := Start(memory, data, out, w);
    StartInv(memory, data, out, w);
    NothingHeld(memory, data, out, w);
    RunConserves(start, es, w);
    RunInv(start, es, w);
    Order(Run(start, es, w), w);
    OccupancyIsExact(Run(start, es, w), w);
  }

  // ----- the write side does not starve -----

  predicate IsWrite<T>(e: Edge<T>) {
    e.Clock? && e.write.Some?
  }

  function WriteEdges<T>(es: seq<Edge<T>>): nat {
    if es == [] then 0 else WriteEdges(es[..|es| - 1]) + (if IsWrite(es[|es| - 1]) then 1 else 0)
  }

  /** n write clocks, the first one at s, have carried the occupancy known at s that far. */
  ghost predicate Carried(known: nat, d: WriteDomain, n: nat, depth: nat)
    requires |d.reset| == 2
  {
    && d.reset[0] && d.reset[1]
    && (n == 1 ==> d.difference == known)
    && (n == 2 ==> (d.ready <==> known < depth - 3))
  }

  lemma CarriedStep<T>(known: nat, s: Fifo<T>, n: nat, e: Edge<T>, w: nat)
    requires WellFormed(s, w) && e.Clock? && Carried(known, s.write, n, Pow2(w)) && n > 0
    ensures !IsWrite(e) ==> Carried(known, Next(s, e, w).write, n, Pow2(w))
    ensures IsWrite(e) && n == 1 ==> Carried(known, Next(s, e, w).write, 2, Pow2(w))
  {
  }

  lemma {:induction false} ReadyCarries<T>(t: Tracked<T>, es: seq<Edge<T>>, w: nat)
    requires WellFormed(t.fifo, w) && |t.toRead.chain| > 0 && |t.toWrite.chain| > 0
    requires NoReset(es) && es != [] && IsWrite(es[0]) && WriteEdges(es) <= 2
    requires t.fifo.write.reset[0] && t.fifo.write.reset[1]
    ensures WriteEdges(es) > 0
    ensures Carried((t.fifo.write.pointer - t.fifo.toWrite.synced) % Pow2(w),
                    Run(t, es, w).fifo.write, WriteEdges(es), Pow2(w))
  {
    var before, e := es[..|es| - 1], es[|es| - 1];
    var known := (t.fifo.write.pointer - t.fifo.toWrite.synced) % Pow2(w);
    var t' := Run(t, before, w);
    assert Run(t, es, w) == TrackedNext(t', e, w) && TrackedNext(t', e, w).fifo == Next(t'.fifo, e, w);
    if before == [] {
      assert t' == t && WriteEdges(before) == 0 && e == es[0];
      assert Next(t.fifo, e, w).write
          == WriteNext(t.fifo.write, t.fifo.toWrite.synced, e.write.value.valid, Pow2(w));
    } else {
      ReadyCarries(t, before, w);
      CarriedStep(known, t'.fifo, WriteEdges(before), e, w);
    }
  }

  lemma KnownIsExact<T>(t: Tracked<T>, w: nat)
    requires Inv(t, w)
    ensures (t.fifo.write.pointer - t.fifo.toWrite.synced) % Pow2(w) == t.toRead.source - t.toWrite.synced
    ensures t.fifo.write.reset[0] ==> t.fifo.write.reset[1]
  {
    Order(t, w);
    WrapSub(t.toRead.source, t.toWrite.synced, Pow2(w));
  }

  /** Exactly when the writer is refused: ready after a write clock and the next one tells whether the
      words not known to be read at the first of them were fewer than 2^w - 3, however the read
      clock runs meanwhile. */
  lemma ReadyIsTwoClocksOld<T>(t: Tracked<T>, es: seq<Edge<T>>, w: nat)
    requires Inv(t, w) && NoReset(es) && es != [] && IsWrite(es[0]) && WriteEdges(es) == 2
    requires t.fifo.write.reset[0]
    ensures Run(t, es, w).fifo.write.ready <==> t.toRead.source - t.toWrite.synced < Pow2(w) - 3
  {
    KnownIsExact(t, w);
    ReadyCarries(t, es, w);
  }

  // ----- the read side does not starve -----

  predicate IsRead<T>(e: Edge<T>) {
    e.Clock? && e.read.Some?
  }

  function ReadEdges<T>(es: seq<Edge<T>>): nat {
    if es == [] then 0 else ReadEdges(es[..|es| - 1]) + (if IsRead(es[|es| - 1]) then 1 else 0)
  }

  predicate NoReset<T>(es: seq<Edge<T>>) {
    forall i :: 0 <= i < |es| ==> es[i].Clock?
  }

  /** n read clocks after s the comparison has caught up that far. */
  ghost predicate Catching<T>(s: Fifo<T>, s': Fifo<T>, n: nat)
    requires |s.read.reset| == |s'.read.reset| == 2
  {
    && s'.read.reset[0] && s'.read.reset[1]
    && (n == 0 ==> s'.read == s.read && s'.toRead.synced == s.toRead.synced)
    && (n == 1 ==> s'.read.difference >= 8)
    && (n == 2 ==> !s'.read.almostEmpty)
  }

  /** Read-domain registers move on read edges only. */
  lemma CatchingStep<T>(s: Fifo<T>, s': Fifo<T>, n: nat, e: Edge<T>, w: nat)
    requires WellFormed(s, w) && WellFormed(s', w) && e.Clock? && Catching(s, s', n)
    requires (s.toRead.synced - s.read.pointer) % Pow2(w) >= 8
    ensures !IsRead(e) ==> Catching(s, Next(s', e, w), n)
    ensures IsRead(e) && n < 2 ==> Catching(s, Next(s', e, w), n + 1)
  {
    var next := Next(s', e, w);
    if IsRead(e) {
      assert next.read == ReadNext(s'.read, s'.toRead.synced, e.read.value.ready, ReadWord(s', e), Pow2(w));
    } else {
      assert next.read == s'.read && next.toRead.synced == s'.toRead.synced;
    }
  }

  lemma EightApart(a: nat, b: nat, d: nat)
    requires a == b + d && d > 0 && a % 8 == b % 8
    ensures d >= 8
  {
  }

  lemma EightOrMore(a: nat, b: nat, depth: nat)
    requires b < a < b + depth && a % 8 == b % 8
    ensures a - b >= 8 && (a % depth - b % depth) % depth >= 8
  {
    EightApart(a, b, a - b);
    WrapSub(a, b, depth);
  }

  lemma SameLowBits(a: nat, b: nat, synced: nat, pointer: nat, w: nat)
    requires w >= 3 && synced == a % Pow2(w) && pointer == b % Pow2(w) && synced % 8 == pointer % 8
    requires b < a < b + Pow2(w)
    ensures a - b >= 8 && (synced - pointer) % Pow2(w) >= 8
  {
    LowBits(a, synced, w);
    LowBits(b, pointer, w);
    EightOrMore(a, b, Pow2(w));
  }

  /** If words are known to be there and yet the flag says empty, at least eight of them wait. */
  lemma EightKnown<T>(t: Tracked<T>, w: nat)
    requires ReadView(t, w) && t.toWrite.source < t.toRead.synced && Empty(t.fifo.read, t.fifo.toRead.synced)
    ensures t.toRead.synced - t.toWrite.source >= 8
    ensures (t.fifo.toRead.synced - t.fifo.read.pointer) % Pow2(w) >= 8
  {
    SameLowBits(t.toRead.synced, t.toWrite.source, t.fifo.toRead.synced, t.fifo.read.pointer, w);
  }

  lemma EightBehind<T>(t: Tracked<T>, w: nat)
    requires Inv(t, w) && t.toWrite.source < t.toRead.synced && Empty(t.fifo.read, t.fifo.toRead.synced)
    ensures t.toRead.synced - t.toWrite.source >= 8
    ensures (t.fifo.toRead.synced - t.fifo.read.pointer) % Pow2(w) >= 8
  {
    Views(t, w);
    EightKnown(t, w);
  }

  /** While the flag wrongly says empty no read happens, so the stale comparison catches up. */
  lemma {:induction false} FlagCatchesUp<T>(t: Tracked<T>, es: seq<Edge<T>>, w: nat)
    requires WellFormed(t.fifo, w) && |t.toRead.chain| > 0 && |t.toWrite.chain| > 0
    requires NoReset(es) && ReadEdges(es) <= 2
    requires t.fifo.read.reset[0] && t.fifo.read.reset[1]
    requires (t.fifo.toRead.synced - t.fifo.read.pointer) % Pow2(w) >= 8
    ensures Catching(t.fifo, Run(t, es, w).fifo, ReadEdges(es))
  {
    if es != [] {
      var before, e := es[..|es| - 1], es[|es| - 1];
      FlagCatchesUp(t, before, w);
      CatchingStep(t.fifo, Run(t, before, w).fifo, ReadEdges(before), e, w);
    }
  }

  /** Whenever the synced count is ahead, the empty flag is down now or after two read clocks,
      however the write clock runs meanwhile; and it is never down when the counts are equal. */
  lemma EmptyIsShortLived<T>(t: Tracked<T>, es: seq<Edge<T>>, w: nat)
    requires Inv(t, w) && LegalRun(t, es, w) && NoReset(es) && ReadEdges(es) == 2
    ensures t.toRead.synced == t.toWrite.source ==> Empty(t.fifo.read, t.fifo.toRead.synced)
    ensures t.toRead.synced != t.toWrite.source && Empty(t.fifo.read, t.fifo.toRead.synced) ==>
              var t' := Run(t, es, w); !Empty(t'.fifo.read, t'.fifo.toRead.synced)
  {
    Order(t, w);
    if t.toWrite.source < t.toRead.synced && Empty(t.fifo.read, t.fifo.toRead.synced) {
      EightBehind(t, w);
      FlagCatchesUp(t, es, w);
    }
  }

  lemma LowBitsApart(a: nat, b: nat)
    requires b <= a
    ensures a % 8 == b % 8 <==> (a - b) % 8 == 0
  {
  }

  /** The empty flag is down whenever the number of known words is no multiple of eight, and up when none is known. */
  lemma KnownWords<T>(t: Tracked<T>, w: nat)
    requires Inv(t, w)
    ensures (t.toRead.synced - t.toWrite.source) % 8 != 0 ==> !Empty(t.fifo.read, t.fifo.toRead.synced)
    ensures t.toRead.synced == t.toWrite.source ==> Empty(t.fifo.read, t.fifo.toRead.synced)
  {
    Order(t, w);
    LowBits(t.toWrite.source, t.fifo.read.pointer, w);
    LowBits(t.toRead.synced, t.fifo.toRead.synced, w);
    LowBitsApart(t.toRead.synced, t.toWrite.source);
  }

  /** Then a read clock out of reset reads a word exactly if the prefetch register is free or its word moves on. */
  lemma ReadsWhenKnown<T>(t: Tracked<T>, e: Edge<T>, w: nat)
    requires Inv(t, w) && e.Clock? && e.read.Some? && t.fifo.read.reset[0]
    ensures var known := t.toRead.synced - t.toWrite.source;
            && (known % 8 != 0 ==> (Reads(t.fifo, e) <==> !t.fifo.read.busy || e.read.value.ready))
            && (known == 0 ==> !Reads(t.fifo, e))
  {
    KnownWords(t, w);
  }

  // ----- a word that is not taken -----

  /** The handshake rule of AXI4-Stream section 2.2.1 at the output: a valid word that is not taken stays. */
  lemma StalledWordStays<T>(s: Fifo<T>, e: Edge<T>, w: nat)
    requires WellFormed(s, w) && e.Clock? && s.read.valid && (e.read.Some? ==> !e.read.value.ready)
    ensures Next(s, e, w).read.valid && Next(s, e, w).read.out == s.read.out
  {
  }

  predicate NoReadyRead<T>(es: seq<Edge<T>>) {
    forall k :: 0 <= k < |es| ==> es[k].Clock? && (es[k].read.Some? ==> !es[k].read.value.ready)
  }

  /** For as long as it is not taken, whatever both clocks do; the next ready read clock delivers it. */
  lemma {:induction false} StalledRun<T>(t: Tracked<T>, es: seq<Edge<T>>, w: nat)
    requires WellFormed(t.fifo, w) && |t.toRead.chain| > 0 && |t.toWrite.chain| > 0
    requires t.fifo.read.valid && NoReadyRead(es)
    ensures var read := Run(t, es, w).fifo.read; read.valid && read.out == t.fifo.read.out
  {
    if es != [] {
      var n := |es| - 1;
      StalledRun(t, es[..n], w);
      StalledWordStays(Run(t, es[..n], w).fifo, es[n], w);
    }
  }
}
