/** Progress of the dual-clock FIFO: how many clocks deliver every word accepted so far. */
module ClockCrossingDrain {
  import opened Wrapping
  import opened PointerCrossing
  import opened ClockCrossing
  import opened ClockCrossingProof

  // ----- read clocks until the first target words are delivered, while downstream is ready -----

  /** Clocks until the read domain has left reset. */
  function ReleaseClocks<T>(d: ReadDomain<T>): (n: nat)
    requires |d.reset| == 2
    ensures n <= 2
  {
    if d.reset[0] then 0 else if d.reset[1] then 1 else 2
  }

  /** Clocks until the synced count has reached a target the gray register holds already. */
  function SyncClocks(k: Counts, target: nat): (n: nat)
    requires |k.chain| == 2
    ensures n <= 3
  {
    if k.synced >= target then 0 else if k.chain[1] >= target then 1 else if k.chain[0] >= target then 2 else 3
  }

  /** Clocks until the next read, if a word is known to be there. */
  function WaitClocks<T>(d: ReadDomain<T>, synced: nat): (n: nat)
    ensures 1 <= n <= 3
  {
    if !Empty(d, synced) then 1 else if d.difference > 2 then 2 else 3
  }

  /** Clocks until the memory has been read up to the target. */
  function ReadClocks<T>(t: Tracked<T>, target: nat): nat
    requires |t.toRead.chain| == 2
  {
    if t.toWrite.source >= target then 0
    else if t.toRead.synced < target then SyncClocks(t.toRead, target) + 3 * (target - t.toWrite.source)
    else 3 * (target - t.toWrite.source - 1) + WaitClocks(t.fifo.read, t.fifo.toRead.synced)
  }

  /** The words handed over downstream: those read from memory but for the two registers. */
  function DeliveredCount<T>(t: Tracked<T>): int {
    t.toWrite.source - (if t.fifo.read.busy then 1 else 0) - (if t.fifo.read.valid then 1 else 0)
  }

  /** Clocks until the two registers have passed the last of the target words on. */
  function FrontClocks<T>(t: Tracked<T>, target: nat): (n: nat)
    ensures n <= 2
  {
    if t.toWrite.source < target then 2
    else if DeliveredCount(t) >= target then 0
    else if t.fifo.read.busy && t.toWrite.source == target then 2
    else 1
  }

  function Remaining<T>(t: Tracked<T>, target: nat): nat
    requires |t.fifo.read.reset| == 2 && |t.toRead.chain| == 2
  {
    ReleaseClocks(t.fifo.read) + ReadClocks(t, target) + FrontClocks(t, target)
  }

  /** Two synchronizer stages in both directions, as in the reset state. */
  predicate TwoStages<T>(t: Tracked<T>) {
    |t.toRead.chain| == |t.toWrite.chain| == 2
  }

  lemma StagesStay<T>(t: Tracked<T>, e: Edge<T>, w: nat)
    requires WellFormed(t.fifo, w) && TwoStages(t)
    ensures TwoStages(TrackedNext(t, e, w))
  {
  }

  // ----- what one edge does to these counts -----

  predicate ReadyRead<T>(e: Edge<T>) {
    e.Clock? && e.read.Some? && e.read.value.ready
  }

  /** Only read clocks matter. */
  lemma OtherEdges<T>(t: Tracked<T>, e: Edge<T>, target: nat, w: nat)
    requires Inv(t, w) && TwoStages(t) && e.Clock? && e.read.None?
    ensures var t' := TrackedNext(t, e, w); |t'.toRead.chain| == 2 && Remaining(t', target) == Remaining(t, target)
  {
  }

  /** The counts never fall, nor do the gray registers; a clock out of reset loads its own. */
  lemma SourceGrows<T>(t: Tracked<T>, e: Edge<T>, w: nat)
    requires Inv(t, w) && e.Clock?
    ensures var t' := TrackedNext(t, e, w);
            && t.toRead.gray <= t'.toRead.gray && t.toRead.source <= t'.toRead.source
            && t.toWrite.source <= t'.toWrite.source
            && t.toWrite.gray <= t'.toWrite.gray
            && (e.write.Some? && t.fifo.write.reset[0] ==> t'.toRead.gray == t.toRead.source)
            && (e.read.Some? && t.fifo.read.reset[0] ==> t'.toWrite.gray == t.toWrite.source)
  {
  }

  /** Held in reset, a read clock only moves the reset synchronizer. */
  lemma ReleaseStep<T>(t: Tracked<T>, e: Edge<T>, target: nat, w: nat)
    requires Inv(t, w) && TwoStages(t) && ReadyRead(e) && !t.fifo.read.reset[0]
    ensures var t' := TrackedNext(t, e, w);
            && t'.toRead.chain == t.toRead.chain && t'.toRead.synced == t.toRead.synced && t'.toWrite.source == 0
            && ReleaseClocks(t'.fifo.read) < ReleaseClocks(t.fifo.read)
            && DeliveredCount(t') == DeliveredCount(t) == 0
            && t'.fifo.read.(reset := [], data := t.fifo.read.data, out := t.fifo.read.out) == t.fifo.read.(reset := [])
            && t'.fifo.toRead.synced == t.fifo.toRead.synced
  {
    if Reads(t.fifo, e) {
      ReadsOutOfReset(t, true, w);
    }
  }

  /** Out of reset, the registers of a read clock. */
  lemma ReadRegisters<T>(t: Tracked<T>, e: Edge<T>, w: nat)
    requires Inv(t, w) && TwoStages(t) && ReadyRead(e) && t.fifo.read.reset[0]
    ensures var d, d', t' := t.fifo.read, TrackedNext(t, e, w).fifo.read, TrackedNext(t, e, w);
            && d'.reset[0]
            && d'.difference == (t.fifo.toRead.synced - d.pointer) % Pow2(w)
            && d'.almostEmpty == (d.difference <= 2)
            && d'.busy == !Empty(d, t.fifo.toRead.synced) && d'.valid == d.busy
            && t'.toWrite.source == t.toWrite.source + (if Empty(d, t.fifo.toRead.synced) then 0 else 1)
  {
  }

  lemma SyncRegisters<T>(t: Tracked<T>, e: Edge<T>, target: nat, w: nat)
    requires Inv(t, w) && TwoStages(t) && ReadyRead(e) && t.fifo.read.reset[0] && target <= t.toRead.gray
    ensures var k, k' := t.toRead, TrackedNext(t, e, w).toRead;
            && |k'.chain| == 2 && k'.chain[0] >= target && k'.chain[1] == k.chain[0] && k'.synced == k.chain[1]
            && k.chain[1] >= k.synced
            && (k.synced < target ==> SyncClocks(k', target) < SyncClocks(k, target))
  {
  }

  lemma ReadStep<T>(t: Tracked<T>, e: Edge<T>, target: nat, w: nat)
    requires Inv(t, w) && TwoStages(t) && ReadyRead(e) && t.fifo.read.reset[0] && target <= t.toRead.gray
    ensures var t' := TrackedNext(t, e, w);
            && |t'.toRead.chain| == 2 && ReadClocks(t', target) <= ReadClocks(t, target)
            && (ReadClocks(t, target) > 0 ==> ReadClocks(t', target) < ReadClocks(t, target))
  {
    ReadRegisters(t, e, w);
    SyncRegisters(t, e, target, w);
    Order(t, w);
    if !Empty(t.fifo.read, t.fifo.toRead.synced) {
      ReadNeverUnderflows(t, true, w);
    } else if t.toWrite.source < target <= t.toRead.synced {
      EightBehind(t, w);
    }
  }

  lemma FrontStep<T>(t: Tracked<T>, e: Edge<T>, target: nat, w: nat)
    requires Inv(t, w) && TwoStages(t) && ReadyRead(e) && t.fifo.read.reset[0]
    ensures var t' := TrackedNext(t, e, w);
            && FrontClocks(t', target) <= FrontClocks(t, target)
            && (t.toWrite.source >= target && FrontClocks(t, target) > 0 ==>
                  FrontClocks(t', target) < FrontClocks(t, target))
  {
    ReadRegisters(t, e, w);
  }

  lemma RunningStep<T>(t: Tracked<T>, e: Edge<T>, target: nat, w: nat)
    requires Inv(t, w) && TwoStages(t) && ReadyRead(e) && target <= t.toRead.gray && t.fifo.read.reset[0]
    ensures var t' := TrackedNext(t, e, w);
            && TwoStages(t') && |t'.fifo.read.reset| == 2
            && Remaining(t', target) <= Remaining(t, target)
            && (Remaining(t, target) > 0 ==> Remaining(t', target) < Remaining(t, target))
  {
    StagesStay(t, e, w);
    ReadRegisters(t, e, w);
    ReadStep(t, e, target, w);
    FrontStep(t, e, target, w);
  }

  lemma HeldStep<T>(t: Tracked<T>, e: Edge<T>, target: nat, w: nat)
    requires Inv(t, w) && TwoStages(t) && ReadyRead(e) && !t.fifo.read.reset[0]
    ensures var t' := TrackedNext(t, e, w);
            && TwoStages(t') && |t'.fifo.read.reset| == 2
            && Remaining(t', target) < Remaining(t, target)
  {
    StagesStay(t, e, w);
    ReleaseStep(t, e, target, w);
  }

  /** Every read clock with downstream ready brings the delivery of the target words closer. */
  lemma DrainStep<T>(t: Tracked<T>, e: Edge<T>, target: nat, w: nat)
    requires Inv(t, w) && TwoStages(t) && ReadyRead(e) && target <= t.toRead.gray
    ensures var t' := TrackedNext(t, e, w);
            && TwoStages(t') && |t'.fifo.read.reset| == 2
            && Remaining(t', target) <= Remaining(t, target)
            && (Remaining(t, target) > 0 ==> Remaining(t', target) < Remaining(t, target))
  {
    if t.fifo.read.reset[0] {
      RunningStep(t, e, target, w);
    } else {
      HeldStep(t, e, target, w);
    }
  }

  // ----- whole runs -----

  predicate AllReady<T>(es: seq<Edge<T>>) {
    forall i :: 0 <= i < |es| && IsRead(es[i]) ==> es[i].read.value.ready
  }

  lemma {:induction false} DrainRun<T>(t: Tracked<T>, es: seq<Edge<T>>, target: nat, w: nat)
    requires Inv(t, w) && TwoStages(t) && LegalRun(t, es, w) && NoReset(es) && AllReady(es) && target <= t.toRead.gray
    ensures var t' := Run(t, es, w);
            && Inv(t', w) && TwoStages(t') && target <= t'.toRead.gray
            && (Remaining(t', target) == 0 || Remaining(t', target) + ReadEdges(es) <= Remaining(t, target))
  {
    if es != [] {
      var before, e := es[..|es| - 1], es[|es| - 1];
      DrainRun(t, before, target, w);
      var s := Run(t, before, w);
      StepInv(s, e, w);
      SourceGrows(s, e, w);
      StagesStay(s, e, w);
      if IsRead(e) {
        DrainStep(s, e, target, w);
      } else {
        OtherEdges(s, e, target, w);
      }
    }
  }

  /** One write clock loads the gray register with every write so far. */
  lemma {:induction false} LoadRun<T>(t: Tracked<T>, es: seq<Edge<T>>, w: nat)
    requires Inv(t, w) && TwoStages(t) && LegalRun(t, es, w) && NoReset(es)
    ensures var t' := Run(t, es, w);
            && Inv(t', w) && TwoStages(t')
            && t.toWrite.source <= t'.toWrite.source && t.toRead.source <= t'.toRead.source
            && (t.fifo.write.reset[0] ==> t'.fifo.write.reset[0])
            && (WriteEdges(es) > 0 ==> t'.toRead.gray >= t.toRead.source)
  {
    if es != [] {
      var before, e := es[..|es| - 1], es[|es| - 1];
      LoadRun(t, before, w);
      var s := Run(t, before, w);
      StepInv(s, e, w);
      SourceGrows(s, e, w);
      StagesStay(s, e, w);
    }
  }

  lemma {:induction false} RunSplit<T>(t: Tracked<T>, a: seq<Edge<T>>, b: seq<Edge<T>>, w: nat)
    requires WellFormed(t.fifo, w) && |t.toRead.chain| > 0 && |t.toWrite.chain| > 0 && LegalRun(t, a + b, w)
    ensures LegalRun(t, a, w) && LegalRun(Run(t, a, w), b, w) && Run(t, a + b, w) == Run(Run(t, a, w), b, w)
  {
    if b == [] {
      assert a + b == a;
    } else {
      var n := |b| - 1;
      assert (a + b)[..|a + b| - 1] == a + b[..n];
      RunSplit(t, a, b[..n], w);
    }
  }

  lemma {:induction false} AcceptedGrows<T>(t: Tracked<T>, a: seq<Edge<T>>, b: seq<Edge<T>>, w: nat)
    requires WellFormed(t.fifo, w) && |t.toRead.chain| > 0 && |t.toWrite.chain| > 0 && NoReset(b)
    ensures Accepted(t, a, w) <= Accepted(t, a + b, w)
  {
    if b == [] {
      assert a + b == a;
    } else {
      var n := |b| - 1;
      assert (a + b)[..|a + b| - 1] == a + b[..n];
      AcceptedGrows(t, a, b[..n], w);
    }
  }

  lemma {:induction false} AcceptedCount<T>(t: Tracked<T>, es: seq<Edge<T>>, w: nat)
    requires WellFormed(t.fifo, w) && |t.toRead.chain| > 0 && |t.toWrite.chain| > 0 && t.toRead.source == 0
    ensures |Accepted(t, es, w)| == Run(t, es, w).toRead.source
  {
    if es != [] {
      AcceptedCount(t, es[..|es| - 1], w);
    }
  }

  lemma {:induction false} StagesRun<T>(t: Tracked<T>, es: seq<Edge<T>>, w: nat)
    requires WellFormed(t.fifo, w) && TwoStages(t)
    ensures TwoStages(Run(t, es, w))
  {
    if es != [] {
      StagesRun(t, es[..|es| - 1], w);
      StagesStay(Run(t, es[..|es| - 1], w), es[|es| - 1], w);
    }
  }

  lemma HeldCount<T>(t: Tracked<T>, w: nat)
    requires Inv(t, w)
    ensures |Held(t.fifo)| == t.toRead.source - DeliveredCount(t) >= t.toRead.source - t.toWrite.source
  {
    OccupancyIsExact(t, w);
  }

  /** The count tells how many words a run has delivered. */
  lemma DeliveredIsCounted<T>(memory: seq<T>, data: T, out: T, es: seq<Edge<T>>, w: nat)
    requires w >= 3 && |memory| == Pow2(w) && LegalRun(Start(memory, data, out, w), es, w)
    ensures |Delivered(Start(memory, data, out, w), es, w)| == DeliveredCount(Run(Start(memory, data, out, w), es, w))
  {
    var start := Start(memory, data, out, w);
    CrossingIsFifo(memory, data, out, es, w);
    StartInv(memory, data, out, w);
    RunInv(start, es, w);
    HeldCount(Run(start, es, w), w);
    AcceptedCount(start, es, w);
    var d, h := Delivered(start, es, w), Held(Run(start, es, w).fifo);
    assert |d + h| == |d| + |h|;
  }

  lemma PrefixByLength<T>(first: seq<T>, all: seq<T>, d: seq<T>, h: seq<T>)
    requires first <= all && all == d + h && |first| <= |d|
    ensures first <= d
  {
    assert first == all[..|first|] == d[..|first|];
  }

  lemma RemainingBound<T>(t: Tracked<T>, target: nat, n: nat)
    requires |t.fifo.read.reset| == 2 && |t.toRead.chain| == 2 && target <= t.toWrite.source + n
    ensures Remaining(t, target) <= 3 * n + 7
    ensures Remaining(t, target) == 0 ==> DeliveredCount(t) >= target
  {
  }

  /** After a run that let one write clock pass and then enough ready read clocks, the target is delivered. */
  lemma DrainedCount<T>(t: Tracked<T>, a: seq<Edge<T>>, b: seq<Edge<T>>, w: nat)
    requires Inv(t, w) && TwoStages(t) && LegalRun(t, a, w) && LegalRun(Run(t, a, w), b, w)
    requires NoReset(a) && NoReset(b) && WriteEdges(a) >= 1 && AllReady(b)
    requires ReadEdges(b) >= 3 * |Held(t.fifo)| + 7
    ensures DeliveredCount(Run(Run(t, a, w), b, w)) >= t.toRead.source
  {
    var target, s := t.toRead.source, Run(t, a, w);
    LoadRun(t, a, w);
    HeldCount(t, w);
    RemainingBound(s, target, |Held(t.fifo)|);
    DrainRun(s, b, target, w);
    var t' := Run(s, b, w);
    RemainingBound(t', target, target);
  }

  /** Main result: whatever came before, one write clock and then 3n + 7 read clocks with downstream
      ready deliver every word accepted so far, n being the number of words inside; the clocks may
      interleave in any way, and the writer and the sampled bits may do what they like. */
  lemma CrossingDrains<T>(memory: seq<T>, data: T, out: T, es: seq<Edge<T>>, a: seq<Edge<T>>, b: seq<Edge<T>>, w: nat)
    requires w >= 3 && |memory| == Pow2(w) && LegalRun(Start(memory, data, out, w), (es + a) + b, w)
    requires NoReset(a) && NoReset(b) && WriteEdges(a) >= 1 && AllReady(b)
    requires ReadEdges(b) >= 3 * |Held(Run(Start(memory, data, out, w), es, w).fifo)| + 7
    ensures Accepted(Start(memory, data, out, w), es, w) <= Delivered(Start(memory, data, out, w), (es + a) + b, w)
  {
    var start, all := Start(memory, data, out, w), (es + a) + b;
    RunSplit(start, es + a, b, w);
    RunSplit(start, es, a, w);
    StartInv(memory, data, out, w);
    RunInv(start, es, w);
    StagesRun(start, es, w);
    DrainedCount(Run(start, es, w), a, b, w);
    DeliveredIsCounted(memory, data, out, all, w);
    AcceptedCount(start, es, w);
    AcceptedGrows(start, es, a, w);
    AcceptedGrows(start, es + a, b, w);
    CrossingIsFifo(memory, data, out, all, w);
    PrefixByLength(Accepted(start, es, w), Accepted(start, all, w), Delivered(start, all, w),
                   Held(Run(start, all, w).fifo));
  }

  // ----- the way back: write clocks until a refused writer is let in again -----

  function WriteReleaseClocks(d: WriteDomain): (n: nat)
    requires |d.reset| == 2
    ensures n <= 2
  {
    if d.reset[0] then 0 else if d.reset[1] then 1 else 2
  }

  /** Clocks until ready, once the writer knows that the first target words have been read. */
  function ReopenClocks(d: WriteDomain, depth: nat): (n: nat)
    ensures n <= 2 && (n == 0 <==> d.ready)
  {
    if d.ready then 0 else if d.difference < depth - 3 then 1 else 2
  }

  function Reopen<T>(t: Tracked<T>, target: nat, w: nat): (n: nat)
    requires |t.fifo.write.reset| == 2 && |t.toWrite.chain| == 2
    ensures n <= 7 && (n == 0 ==> t.fifo.write.ready)
  {
    WriteReleaseClocks(t.fifo.write)
    + (if t.toWrite.synced < target then SyncClocks(t.toWrite, target) + 2 else ReopenClocks(t.fifo.write, Pow2(w)))
  }

  /** The writer is refused, and so few words are in the memory that it should not be for long. */
  ghost predicate Refused<T>(t: Tracked<T>, target: nat, w: nat) {
    && Inv(t, w) && TwoStages(t) && !t.fifo.write.ready
    && target <= t.toWrite.gray && t.toRead.source <= target + Pow2(w) - 4
  }

  lemma WriteRegisters<T>(t: Tracked<T>, e: Edge<T>, w: nat)
    requires Inv(t, w) && TwoStages(t) && e.Clock? && e.write.Some? && t.fifo.write.reset[0]
    ensures var d, d', t' := t.fifo.write, TrackedNext(t, e, w).fifo.write, TrackedNext(t, e, w);
            && d'.reset[0] && d'.ready == !(d.difference >= Pow2(w) - 3)
            && d'.difference == t.toRead.source - t.toWrite.synced
  {
    KnownIsExact(t, w);
    assert TrackedNext(t, e, w).fifo.write
        == WriteNext(t.fifo.write, t.fifo.toWrite.synced, e.write.value.valid, Pow2(w));
  }

  lemma WriteSyncRegisters<T>(t: Tracked<T>, e: Edge<T>, target: nat, w: nat)
    requires Inv(t, w) && TwoStages(t) && e.Clock? && e.write.Some? && t.fifo.write.reset[0] && target <= t.toWrite.gray
    ensures var k, k' := t.toWrite, TrackedNext(t, e, w).toWrite;
            && |k'.chain| == 2 && k'.synced == k.chain[1] >= k.synced
            && (k.synced < target ==> SyncClocks(k', target) < SyncClocks(k, target))
  {
  }

  lemma ReopenRunning<T>(t: Tracked<T>, e: Edge<T>, target: nat, w: nat)
    requires Refused(t, target, w) && e.Clock? && e.write.Some? && t.fifo.write.reset[0]
    ensures var t' := TrackedNext(t, e, w);
            TwoStages(t') && |t'.fifo.write.reset| == 2 && Reopen(t', target, w) < Reopen(t, target, w)
  {
    StagesStay(t, e, w);
    WriteRegisters(t, e, w);
    WriteSyncRegisters(t, e, target, w);
  }

  lemma ReopenHeld<T>(t: Tracked<T>, e: Edge<T>, target: nat, w: nat)
    requires Refused(t, target, w) && e.Clock? && e.write.Some? && !t.fifo.write.reset[0]
    ensures var t' := TrackedNext(t, e, w);
            TwoStages(t') && |t'.fifo.write.reset| == 2 && Reopen(t', target, w) < Reopen(t, target, w)
  {
    StagesStay(t, e, w);
    assert TrackedNext(t, e, w).fifo.write == t.fifo.write.(reset := ClockCrossing.ReleaseStep(t.fifo.write.reset));
  }

  lemma ReopenIdle<T>(t: Tracked<T>, e: Edge<T>, target: nat, w: nat)
    requires Refused(t, target, w) && e.Clock? && e.write.None?
    ensures var t' := TrackedNext(t, e, w);
            TwoStages(t') && |t'.fifo.write.reset| == 2 && Reopen(t', target, w) == Reopen(t, target, w)
  {
    StagesStay(t, e, w);
    assert TrackedNext(t, e, w).fifo.write == t.fifo.write;
  }

  /** Every write clock brings the next ready closer, and nothing is written meanwhile. */
  lemma ReopenStep<T>(t: Tracked<T>, e: Edge<T>, target: nat, w: nat)
    requires Refused(t, target, w) && Legal(t.fifo, e, w) && e.Clock?
    ensures var t' := TrackedNext(t, e, w);
            && TwoStages(t') && |t'.fifo.write.reset| == 2
            && Reopen(t', target, w) + (if e.write.Some? then 1 else 0) <= Reopen(t, target, w)
            && (t'.fifo.write.ready || Refused(t', target, w))
  {
    if e.write.None? {
      ReopenIdle(t, e, target, w);
    } else if t.fifo.write.reset[0] {
      ReopenRunning(t, e, target, w);
    } else {
      ReopenHeld(t, e, target, w);
    }
    StepInv(t, e, w);
    SourceGrows(t, e, w);
    assert TrackedNext(t, e, w).toRead.source == t.toRead.source;
  }

  /** The writer is ready at some time of a run. */
  ghost predicate ReadyWithin<T>(t: Tracked<T>, es: seq<Edge<T>>, w: nat)
    requires WellFormed(t.fifo, w) && |t.toRead.chain| > 0 && |t.toWrite.chain| > 0
  {
    exists n :: 0 <= n <= |es| && ReadyAt(t, es, n, w)
  }

  ghost predicate ReadyAt<T>(t: Tracked<T>, es: seq<Edge<T>>, n: nat, w: nat)
    requires WellFormed(t.fifo, w) && |t.toRead.chain| > 0 && |t.toWrite.chain| > 0 && n <= |es|
  {
    Run(t, es[..n], w).fifo.write.ready
  }

  lemma ReadyLater<T>(t: Tracked<T>, es: seq<Edge<T>>, w: nat)
    requires WellFormed(t.fifo, w) && |t.toRead.chain| > 0 && |t.toWrite.chain| > 0 && es != []
    requires ReadyWithin(t, es[..|es| - 1], w)
    ensures ReadyWithin(t, es, w)
  {
    var before := es[..|es| - 1];
    var n :| 0 <= n <= |before| && ReadyAt(t, before, n, w);
    assert before[..n] == es[..n];
    assert ReadyAt(t, es, n, w);
  }

  lemma {:induction false} ReopenRun<T>(t: Tracked<T>, es: seq<Edge<T>>, target: nat, w: nat)
    requires Refused(t, target, w) && LegalRun(t, es, w) && NoReset(es)
    ensures var t' := Run(t, es, w);
            ReadyWithin(t, es, w)
            || (Refused(t', target, w) && Reopen(t', target, w) + WriteEdges(es) <= Reopen(t, target, w))
  {
    if es != [] {
      var before, e := es[..|es| - 1], es[|es| - 1];
      ReopenRun(t, before, target, w);
      if ReadyWithin(t, before, w) {
        ReadyLater(t, es, w);
      } else {
        ReopenStep(Run(t, before, w), e, target, w);
        assert es[..|es|] == es;
        assert Run(t, es, w).fifo.write.ready ==> ReadyAt(t, es, |es|, w);
      }
    }
  }

  /** One read clock loads the gray register with every read so far. */
  lemma {:induction false} LoadReads<T>(t: Tracked<T>, es: seq<Edge<T>>, w: nat)
    requires Inv(t, w) && TwoStages(t) && LegalRun(t, es, w) && NoReset(es)
    ensures var t' := Run(t, es, w);
            && Inv(t', w) && TwoStages(t')
            && t.toWrite.source <= t'.toWrite.source && (t.fifo.read.reset[0] ==> t'.fifo.read.reset[0])
            && (ReadEdges(es) > 0 ==> t'.toWrite.gray >= t.toWrite.source)
  {
    if es != [] {
      var before, e := es[..|es| - 1], es[|es| - 1];
      LoadReads(t, before, w);
      var s := Run(t, before, w);
      StepInv(s, e, w);
      SourceGrows(s, e, w);
      StagesStay(s, e, w);
    }
  }

  /** The way back: if, after any run, one read clock has passed and at most 2^w - 4 words have been
      written beyond those read before it, then within seven write clocks the writer is ready, however
      the read clock runs meanwhile. */
  lemma WriterIsReadmitted<T>(
    memory: seq<T>, data: T, out: T, es: seq<Edge<T>>, a: seq<Edge<T>>, b: seq<Edge<T>>, w: nat)
    requires w >= 3 && |memory| == Pow2(w) && LegalRun(Start(memory, data, out, w), (es + a) + b, w)
    requires NoReset(a) && NoReset(b) && ReadEdges(a) >= 1 && WriteEdges(b) >= 7
    requires var start := Start(memory, data, out, w);
             Run(start, es + a, w).toRead.source <= Run(start, es, w).toWrite.source + Pow2(w) - 4
    ensures ReadyWithin(Run(Start(memory, data, out, w), es + a, w), b, w)
  {
    var start := Start(memory, data, out, w);
    RunSplit(start, es + a, b, w);
    RunSplit(start, es, a, w);
    StartInv(memory, data, out, w);
    RunInv(start, es, w);
    StagesRun(start, es, w);
    var t, s := Run(start, es, w), Run(start, es + a, w);
    LoadReads(t, a, w);
    if s.fifo.write.ready {
      assert b[..0] == [];
      assert ReadyAt(s, b, 0, w);
    } else {
      ReopenRun(s, b, t.toWrite.source, w);
    }
  }
}
