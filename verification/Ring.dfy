/** A circular memory read as a list. */
module Ring {
  import opened Wrapping
  import opened Streams

  /** The slot n places after slot r. */
  function Slot(r: nat, n: nat, depth: nat): (s: nat)
    requires depth > 0
    ensures s < depth
  {
    (r + n) % depth
  }

  /** The n words that start at slot r. */
  function Slice<T>(m: seq<T>, r: nat, n: nat): (s: seq<T>)
    requires |m| > 0
    ensures |s| == n
  {
    seq(n, j requires 0 <= j < n => m[Slot(r, j, |m|)])
  }

  lemma SlotStep(r: nat, n: nat, depth: nat)
    requires depth > 0
    ensures Slot(Slot(r, 1, depth), n, depth) == Slot(r, n + 1, depth)
    ensures Slot(Slot(r, n, depth), 1, depth) == Slot(r, n + 1, depth)
  {
    WrapAdd(r + 1, n, depth);
    WrapAdd(r + n, 1, depth);
  }

  /** Slots less than a full turn apart are different slots. */
  lemma SlotsApart(r: nat, i: nat, j: nat, depth: nat)
    requires i < j < i + depth
    ensures Slot(r, i, depth) != Slot(r, j, depth)
  {
    if Slot(r, i, depth) == Slot(r, j, depth) {
      WrapInjective(r + i, r + j, depth);
    }
  }

  lemma SlotZero(r: nat, depth: nat)
    requires r < depth
    ensures Slot(r, 0, depth) == r
  {
    DivModUnique(r, depth, 0, r);
  }

  /** Advancing the start slot drops the first word. */
  lemma SlicePop<T>(m: seq<T>, r: nat, n: nat)
    requires r < |m| && n > 0
    ensures Slice(m, r, n) == [m[r]] + Slice(m, Slot(r, 1, |m|), n - 1)
  {
    SlotZero(r, |m|);
    var rest := Slice(m, Slot(r, 1, |m|), n - 1);
    forall j | 0 <= j < n - 1 ensures Slice(m, r, n)[j + 1] == rest[j] {
      SlotStep(r, j, |m|);
    }
    assert Slice(m, r, n)[1..] == rest;
  }

  /** Writing the slot behind the last word appends it and disturbs no other word. */
  lemma SlicePush<T>(m: seq<T>, r: nat, n: nat, x: T)
    requires n < |m|
    ensures Slice(m[Slot(r, n, |m|) := x], r, n + 1) == Slice(m, r, n) + [x]
  {
    forall j | 0 <= j < n ensures Slot(r, j, |m|) != Slot(r, n, |m|) {
      SlotsApart(r, j, n, |m|);
    }
  }

  /** One clock of a circular memory: a word may be appended and the first word may be taken. */
  lemma RingStep<T>(m: seq<T>, r: nat, n: nat, push: Option<T>, pop: bool)
    requires r < |m| && n <= |m|
    requires push.Some? ==> n < |m|
    requires pop ==> n > 0
    ensures push.Some? && pop ==> Slot(r, n, |m|) != r
    ensures var m' := if push.Some? then m[Slot(r, n, |m|) := push.value] else m;
            var grown := if push.Some? then n + 1 else n;
            (if pop then [m[r]] + Slice(m', Slot(r, 1, |m|), grown - 1) else Slice(m', r, grown))
            == Slice(m, r, n) + Pending(push)
  {
    SlotZero(r, |m|);
    var m', grown := m, n;
    if push.Some? {
      m', grown := m[Slot(r, n, |m|) := push.value], n + 1;
      SlicePush(m, r, n, push.value);
      if n > 0 {
        SlotsApart(r, 0, n, |m|);
      }
    }
    assert Slice(m', r, grown) == Slice(m, r, n) + Pending(push);
    if pop {
      SlicePop(m', r, grown);
    }
  }
}
