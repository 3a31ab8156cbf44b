/**
 A pointer carried from the clock domain that increments it to the other one:
 gray code, a register in the source domain, a synchronizer chain sampled by the
 sink clock, back to binary, and a register in the sink domain.
 */
module PointerCrossing {
  import opened Wrapping
  import opened GrayCode
  import opened Streams

  /** The registers. chain[0] is the stage that samples the gray register. */
  datatype Crossing = Crossing(gray: Bits, chain: seq<Bits>, synced: nat)

  /** What the unbounded counts behind the registers are. */
  datatype Counts = Counts(source: nat, gray: nat, chain: seq<nat>, synced: nat)

  /** The pointer crossings use a synchronizer of two stages. */
  function ResetCrossing(w: nat): Crossing {
    Crossing(Zeros(w), [Zeros(w), Zeros(w)], 0)
  }

  const RESET_COUNTS := Counts(0, 0, [0, 0], 0)

  /** pointer is present at an edge of the source clock, sample at an edge of the sink clock. */
  function CrossingNext(c: Crossing, w: nat, pointer: Option<nat>, sample: Option<Bits>): Crossing
    requires |c.chain| > 0
  {
    var last := |c.chain| - 1;
    Crossing(
      if pointer.Some? then Code(pointer.value, w) else c.gray,
      if sample.Some? then [sample.value] + c.chain[..last] else c.chain,
      if sample.Some? then Number(Ungray(c.chain[last])) else c.synced)
  }

  function CountsNext(k: Counts, w: nat, pointer: Option<nat>, increment: bool, sample: Option<Bits>): Counts
    requires |k.chain| > 0
  {
    var last := |k.chain| - 1;
    var gray := if pointer.Some? then k.source else k.gray;
    Counts(
      if increment then k.source + 1 else k.source,
      gray,
      if sample.Some? then [if sample.value == Code(gray, w) then gray else k.gray] + k.chain[..last] else k.chain,
      if sample.Some? then k.chain[last] else k.synced)
  }

  /** The stages hold codes of counts between low and high, younger samples first. */
  ghost predicate Follows(chain: seq<Bits>, n: seq<nat>, w: nat, low: nat, high: nat) {
    && |chain| == |n| > 0
    && (forall i :: 0 <= i < |n| ==> chain[i] == Code(n[i], w))
    && (forall i :: 0 <= i < |n| ==> low <= n[i] <= high)
    && (forall i, j :: 0 <= i <= j < |n| ==> n[j] <= n[i])
  }

  /** Every register holds the code of its count, and counts only fall behind along the path. */
  ghost predicate Aligned(c: Crossing, k: Counts, w: nat) {
    && k.gray <= k.source <= k.gray + 1
    && c.gray == Code(k.gray, w)
    && Follows(c.chain, k.chain, w, k.synced, k.gray)
    && c.synced == k.synced % Pow2(w)
  }

  lemma {:induction false} BitsOfWrapped(n: nat, w: nat)
    ensures ToBits(n % Pow2(w), w) == ToBits(n, w)
  {
    if w > 0 {
      BitsOfWrapped(n / 2, w - 1);
      WrapHalf(n, Pow2(w - 1));
    }
  }

  lemma {:induction false} CodeOfZero(w: nat)
    ensures Code(0, w) == Zeros(w)
  {
    if w > 0 {
      CodeOfZero(w - 1);
      assert ToBits(0, w)[1..] == ToBits(0, w - 1);
    }
  }

  lemma ResetAligned(w: nat)
    ensures Aligned(ResetCrossing(w), RESET_COUNTS, w)
  {
    CodeOfZero(w);
  }

  /** A sample of the gray register is the code of its count before or after the edge. */
  lemma SampleIsCode(k: Counts, w: nat, gray: nat, sample: Bits)
    requires w > 0 && k.gray <= gray <= k.gray + 1
    requires Torn(sample, Code(k.gray, w), Code(gray, w))
    ensures sample == Code(if sample == Code(gray, w) then gray else k.gray, w)
  {
    if gray == k.gray + 1 {
      TornStep(sample, k.gray, w);
    } else {
      assert sample == Code(gray, w);
    }
  }

  /** Shifting a chain keeps its stages aligned with their counts. */
  lemma ShiftFollows(chain: seq<Bits>, n: seq<nat>, w: nat, low: nat, high: nat, sample: Bits, first: nat)
    requires Follows(chain, n, w, low, high) && high <= first && sample == Code(first, w)
    ensures low <= n[|n| - 1] <= high
    ensures Follows([sample] + chain[..|n| - 1], [first] + n[..|n| - 1], w, n[|n| - 1], first)
  {
    assert n[|n| - 1] <= n[0];
  }

  lemma FollowsWeaken(chain: seq<Bits>, n: seq<nat>, w: nat, low: nat, high: nat, top: nat)
    requires Follows(chain, n, w, low, high) && high <= top
    ensures Follows(chain, n, w, low, top) && low <= high
  {
    assert low <= n[0] <= high;
  }

  /**
   One edge of either clock, or of both at once. The sink may sample each gray bit before or
   after the source changes it; still the synced count never runs backwards and never runs
   ahead of the pointer.
   */
  lemma CrossingStep(c: Crossing, k: Counts, w: nat, pointer: Option<nat>, increment: bool, sample: Option<Bits>)
    requires w > 0 && Aligned(c, k, w)
    requires pointer.Some? ==> pointer.value == k.source % Pow2(w)
    requires increment ==> pointer.Some?
    requires sample.Some? ==> Torn(sample.value, c.gray, CrossingNext(c, w, pointer, None).gray)
    ensures var k' := CountsNext(k, w, pointer, increment, sample);
            && Aligned(CrossingNext(c, w, pointer, sample), k', w)
            && k.synced <= k'.synced <= k'.source
  {
    var k' := CountsNext(k, w, pointer, increment, sample);
    assert CrossingNext(c, w, pointer, None).gray == Code(k'.gray, w) by {
      BitsOfWrapped(k.source, w);
    }
    FollowsWeaken(c.chain, k.chain, w, k.synced, k.gray, k'.gray);
    if sample.Some? {
      SampleIsCode(k, w, k'.gray, sample.value);
      var first := k'.chain[0];
      ShiftFollows(c.chain, k.chain, w, k.synced, k.gray, sample.value, first);
      FollowsWeaken([sample.value] + c.chain[..|c.chain| - 1], k'.chain, w, k'.synced, first, k'.gray);
      DecodeCode(k'.synced, w);
    }
  }

  /** The synchronizer: a register array shifted at every edge of its clock. */
  class Synchronizer {
    const q: array<Bits>

    constructor (stages: nat, width: nat)
      requires stages > 0
      ensures fresh(q) && q[..] == seq(stages, _ => Zeros(width))
    {
      q := new Bits[stages](_ => Zeros(width));
    }

    method Reset(width: nat)
      modifies q
      ensures q[..] == seq(q.Length, _ => Zeros(width))
    {
      for k := 0 to q.Length
        invariant forall j :: 0 <= j < k ==> q[j] == Zeros(width)
      {
        q[k] := Zeros(width);
      }
    }

    method Clock(i: Bits)
      requires q.Length > 0
      modifies q
      ensures q[..] == [i] + old(q[..q.Length - 1])
    {
      ShiftIn(q, i);
    }
  }

  /** The whole path of one pointer; both directions use it. */
  class PointerSync {
    const width: nat
    const synchronizer: Synchronizer
    var gray: Bits
    var synced: nat

    ghost predicate Valid()
      reads this, synchronizer.q
    {
      width > 0 && |gray| == width && synchronizer.q.Length == 2
      && forall i :: 0 <= i < 2 ==> |synchronizer.q[i]| == width
    }

    ghost function State(): Crossing
      reads this, synchronizer.q
    {
      Crossing(gray, synchronizer.q[..], synced)
    }

    constructor (width: nat)
      requires width > 0
      ensures Valid() && fresh(synchronizer.q) && this.width == width && State() == ResetCrossing(width)
    {
      this.width := width;
      synchronizer := new Synchronizer(2, width);
      gray := Zeros(width);
      synced := 0;
    }

    method Reset()
      requires Valid()
      modifies this, synchronizer.q
      ensures Valid() && State() == ResetCrossing(width)
    {
      synchronizer.Reset(width);
      gray := Zeros(width);
      synced := 0;
    }

    method Clock(pointer: Option<nat>, sample: Option<Bits>)
      requires Valid() && (sample.Some? ==> |sample.value| == width)
      modifies this, synchronizer.q
      ensures Valid() && State() == CrossingNext(old(State()), width, pointer, sample)
    {
      if sample.Some? {
        var binary := GrayToBinary(synchronizer.q[1]);
        synced := Number(binary);
        synchronizer.Clock(sample.value);
      }
      if pointer.Some? {
        gray := BinaryToGray(ToBits(pointer.value, width));
      }
    }
  }
}
