/**
 Gray conversion of pointers that cross a clock boundary.
 A vector of bits is a sequence with the least significant bit first.
 */
module GrayCode {
  import opened Wrapping

  type Bits = seq<bool>

  function Zeros(w: nat): (b: Bits)
    ensures |b| == w
  {
    seq(w, _ => false)
  }

  /** The low w bits of a count. */
  function ToBits(n: nat, w: nat): (b: Bits)
    ensures |b| == w
  {
    if w == 0 then [] else [n % 2 == 1] + ToBits(n / 2, w - 1)
  }

  /** The unsigned value of a vector. */
  function Number(b: Bits): (n: nat)
    ensures n < Pow2(|b|)
  {
    if b == [] then 0 else (if b[0] then 1 else 0) + 2 * Number(b[1..])
  }

  /** Each bit is combined with its upper neighbour; the top bit is kept. */
  function Gray(b: Bits): (g: Bits)
    ensures |g| == |b|
  {
    if |b| <= 1 then b else [b[0] != b[1]] + Gray(b[1..])
  }

  /** Each bit is combined with all the bits above it. */
  function Ungray(g: Bits): (b: Bits)
    ensures |b| == |g|
  {
    if |g| <= 1 then g else [g[0] != Ungray(g[1..])[0]] + Ungray(g[1..])
  }

  /** The code word in which a count crosses the boundary. */
  function Code(n: nat, w: nat): (g: Bits)
    ensures |g| == w
  {
    Gray(ToBits(n, w))
  }

  lemma {:induction false} GrayAt(b: Bits, k: nat)
    requires k < |b|
    ensures Gray(b)[k] == (if k == |b| - 1 then b[k] else b[k] != b[k + 1])
  {
    if |b| > 1 && k > 0 {
      GrayAt(b[1..], k - 1);
    }
  }

  lemma {:induction false} UngrayAt(g: Bits, k: nat)
    requires k < |g|
    ensures Ungray(g)[k] == (if k == |g| - 1 then g[k] else g[k] != Ungray(g)[k + 1])
  {
    if |g| > 1 && k > 0 {
      UngrayAt(g[1..], k - 1);
    }
  }

  /** The converter's loop, writing the output bits upwards. */
  method BinaryToGray(i: Bits) returns (o: Bits)
    requires |i| > 0
    ensures o == Gray(i)
  {
    var width := |i|;
    o := seq(width, _ => false);
    o := o[width - 1 := i[width - 1]];
    for k := 0 to width - 1
      invariant |o| == width && o[width - 1] == i[width - 1]
      invariant forall j :: 0 <= j < k ==> o[j] == (i[j] != i[j + 1])
    {
      o := o[k := i[k] != i[k + 1]];
    }
    forall j | 0 <= j < width ensures o[j] == Gray(i)[j] {
      GrayAt(i, j);
    }
  }

  /** The converter's loop, reading output bits that were written before. */
  method GrayToBinary(i: Bits) returns (o: Bits)
    requires |i| > 0
    ensures o == Ungray(i)
  {
    var width := |i|;
    o := seq(width, _ => false);
    o := o[width - 1 := i[width - 1]];
    UngrayAt(i, width - 1);
    for k := width - 1 downto 0
      invariant |o| == width
      invariant forall j :: k <= j < width ==> o[j] == Ungray(i)[j]
    {
      UngrayAt(i, k);
      o := o[k := i[k] != o[k + 1]];
    }
  }

  lemma {:induction false} GrayRoundTrip(b: Bits)
    ensures Ungray(Gray(b)) == b
    ensures Gray(Ungray(b)) == b
  {
    if |b| > 1 {
      GrayRoundTrip(b[1..]);
      assert Gray(b)[1..] == Gray(b[1..]);
      assert Ungray(b)[1..] == Ungray(b[1..]);
    }
  }

  lemma {:induction false} NumberOfBits(n: nat, w: nat)
    ensures Number(ToBits(n, w)) == n % Pow2(w)
  {
    if w > 0 {
      NumberOfBits(n / 2, w - 1);
      assert ToBits(n, w)[1..] == ToBits(n / 2, w - 1);
      WrapHalf(n, Pow2(w - 1));
    }
  }

  /** A count that crosses as a code word is read back modulo 2^w. */
  lemma DecodeCode(n: nat, w: nat)
    ensures Number(Ungray(Code(n, w))) == n % Pow2(w)
  {
    GrayRoundTrip(ToBits(n, w));
    NumberOfBits(n, w);
  }

  /** The only bit of the code word that changes when the count steps: one above the trailing ones. */
  function Flipped(n: nat, w: nat): (j: nat)
    requires w > 0
    ensures j < w
  {
    if w == 1 || n % 2 == 0 then 0 else 1 + Flipped(n / 2, w - 1)
  }

  /** The lowest bit of a code word compares the two lowest bits of the count. */
  lemma CodeUnfold(n: nat, w: nat)
    requires w > 1
    ensures Code(n, w) == [(n % 2 == 1) != ((n / 2) % 2 == 1)] + Code(n / 2, w - 1)
  {
    assert ToBits(n, w)[1..] == ToBits(n / 2, w - 1);
  }

  /** Flipping a bit of the upper part flips that bit of the whole. */
  lemma FlipBehind(c: Bits, c': Bits, head: bool, tail: Bits, j: nat)
    requires j < |tail| && c == [head] + tail && c' == [head] + tail[j := !tail[j]]
    ensures c' == c[j + 1 := !c[j + 1]]
  {
  }

  lemma FlipHead(c: Bits, c': Bits, head: bool, tail: Bits)
    requires c == [head] + tail && c' == [!head] + tail
    ensures c' == c[0 := !c[0]]
  {
  }

  lemma CodeStepEven(n: nat, w: nat)
    requires w > 1 && n % 2 == 0
    ensures Code(n + 1, w) == Code(n, w)[0 := !Code(n, w)[0]]
  {
    assert (n + 1) / 2 == n / 2;
    CodeUnfold(n, w);
    CodeUnfold(n + 1, w);
    FlipHead(Code(n, w), Code(n + 1, w), (n / 2) % 2 == 1, Code(n / 2, w - 1));
  }

  lemma CodeStepOdd(n: nat, w: nat, j: nat)
    requires w > 1 && n % 2 == 1 && j < w - 1
    requires Code(n / 2 + 1, w - 1) == Code(n / 2, w - 1)[j := !Code(n / 2, w - 1)[j]]
    ensures Code(n + 1, w) == Code(n, w)[j + 1 := !Code(n, w)[j + 1]]
  {
    assert (n + 1) / 2 == n / 2 + 1;
    CodeUnfold(n, w);
    CodeUnfold(n + 1, w);
    FlipBehind(Code(n, w), Code(n + 1, w), (n / 2) % 2 == 0, Code(n / 2, w - 1), j);
  }

  /** Consecutive counts, the wrap from 2^w - 1 to 0 included, have code words one bit apart. */
  lemma {:induction false} CodeStep(n: nat, w: nat)
    requires w > 0
    ensures var j := Flipped(n, w);
            Code(n + 1, w) == Code(n, w)[j := !Code(n, w)[j]]
  {
    if w > 1 {
      if n % 2 == 0 {
        CodeStepEven(n, w);
      } else {
        CodeStep(n / 2, w - 1);
        CodeStepOdd(n, w, Flipped(n / 2, w - 1));
      }
    }
  }

  /** A sample taken while its source changes: every bit is the old or the new one. */
  predicate Torn(sample: Bits, was: Bits, now: Bits) {
    && |sample| == |was| == |now|
    && forall k :: 0 <= k < |sample| ==> sample[k] == was[k] || sample[k] == now[k]
  }

  /** Tearing a code word that steps by one still yields the old or the new code word. */
  lemma TornStep(sample: Bits, n: nat, w: nat)
    requires w > 0 && Torn(sample, Code(n, w), Code(n + 1, w))
    ensures sample == Code(n, w) || sample == Code(n + 1, w)
  {
    CodeStep(n, w);
    var j := Flipped(n, w);
    if sample[j] == Code(n, w)[j] {
      assert sample == Code(n, w);
    } else {
      assert sample == Code(n + 1, w);
    }
  }
}
