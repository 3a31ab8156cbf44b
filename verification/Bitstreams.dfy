/** A stream of bits kept in bytes: numbers are written and read byte by byte, single bits through references. */
module Bitstreams {
  import opened Wrapping
  import opened GrayCode
  import opened Streams

  // ----- bytes as vectors of eight bits -----

  function And(a: Bits, b: Bits): (r: Bits)
    requires |a| == |b|
    ensures |r| == |a|
  {
    seq(|a|, i requires 0 <= i < |a| => a[i] && b[i])
  }

  function Or(a: Bits, b: Bits): (r: Bits)
    requires |a| == |b|
    ensures |r| == |a|
  {
    seq(|a|, i requires 0 <= i < |a| => a[i] || b[i])
  }

  function Not(a: Bits): (r: Bits)
    ensures |r| == |a|
  {
    seq(|a|, i requires 0 <= i < |a| => !a[i])
  }

  /** The mask ~(0xFF << n) of the low n bits. */
  function LowMask(n: nat): (m: Bits)
    ensures |m| == 8
  {
    seq(8, i => i < n)
  }

  /** The mask 1 << n. */
  function OneMask(n: nat): (m: Bits)
    ensures |m| == 8
  {
    seq(8, i => i == n)
  }

  function Bytes(size: nat): nat {
    (size + 7) / 8
  }

  predicate AreBytes(bytes: seq<Bits>) {
    forall i :: 0 <= i < |bytes| ==> |bytes[i]| == 8
  }

  /** The bits of a buffer in order. */
  function Flat(bytes: seq<Bits>): (f: Bits)
    requires AreBytes(bytes)
    ensures |f| == 8 * |bytes|
  {
    if bytes == [] then [] else bytes[0] + Flat(bytes[1..])
  }

  lemma {:induction false} FlatAt(bytes: seq<Bits>, i: nat)
    requires AreBytes(bytes) && i < 8 * |bytes|
    ensures Flat(bytes)[i] == bytes[i / 8][i % 8]
  {
    if i >= 8 {
      FlatAt(bytes[1..], i - 8);
    }
  }

  lemma {:induction false} FlatAppend(a: seq<Bits>, b: seq<Bits>)
    requires AreBytes(a) && AreBytes(b)
    ensures AreBytes(a + b) && Flat(a + b) == Flat(a) + Flat(b)
  {
    if a == [] {
      assert a + b == b;
    } else {
      assert (a + b)[1..] == a[1..] + b;
      FlatAppend(a[1..], b);
    }
  }

  // ----- numbers -----

  /** The operator v >> n. */
  function Shift(v: nat, n: nat): nat {
    if n == 0 then v else Shift(v / 2, n - 1)
  }

  lemma {:induction false} ShiftTwice(v: nat, a: nat, b: nat)
    ensures Shift(Shift(v, a), b) == Shift(v, a + b)
  {
    if a > 0 {
      ShiftTwice(v / 2, a - 1, b);
    }
  }

  lemma HalfOfQuotient(v: nat, p: nat)
    requires p > 0
    ensures 2 * p > 0 && (v / 2) / p == v / (2 * p)
  {
    var h := v / 2;
    var k, r := h / p, h % p;
    assert h == p * k + r;
    assert (2 * p) * k == 2 * (p * k);
    DivModUnique(v, 2 * p, k, 2 * r + v % 2);
  }

  lemma {:induction false} ShiftDivides(v: nat, n: nat)
    ensures Shift(v, n) == v / Pow2(n)
  {
    if n > 0 {
      ShiftDivides(v / 2, n - 1);
      HalfOfQuotient(v, Pow2(n - 1));
    }
  }

  lemma {:induction false} BitsSplit(v: nat, a: nat, b: nat)
    ensures ToBits(v, a + b) == ToBits(v, a) + ToBits(Shift(v, a), b)
  {
    if a > 0 {
      BitsSplit(v / 2, a - 1, b);
    }
  }

  /** Bit i of a vector is bit i of the number. */
  lemma {:induction false} BitOf(v: nat, w: nat, i: nat)
    requires i < w
    ensures ToBits(v, w)[i] == (Shift(v, i) % 2 == 1)
  {
    if i > 0 {
      BitOf(v / 2, w - 1, i - 1);
    }
  }

  lemma Doubled(bit: nat, x: nat, p: nat, n: nat)
    ensures bit + 2 * (x + p * n) == (bit + 2 * x) + (2 * p) * n
  {
  }

  lemma {:induction false} NumberAppend(a: Bits, b: Bits)
    ensures Number(a + b) == Number(a) + Pow2(|a|) * Number(b)
  {
    if a == [] {
      assert a + b == b;
    } else {
      var rest := a[1..];
      assert (a + b)[1..] == rest + b;
      NumberAppend(rest, b);
      Doubled(if a[0] then 1 else 0, Number(rest), Pow2(|rest|), Number(b));
      assert Pow2(|a|) == 2 * Pow2(|rest|);
    }
  }

  lemma {:induction false} NumberOfZeros(z: Bits)
    requires forall i :: 0 <= i < |z| ==> !z[i]
    ensures Number(z) == 0
  {
    if z != [] {
      NumberOfZeros(z[1..]);
    }
  }

  lemma FlatCons(byte: Bits, rest: seq<Bits>)
    requires |byte| == 8 && AreBytes(rest)
    ensures AreBytes([byte] + rest) && Flat([byte] + rest) == byte + Flat(rest)
  {
    assert ([byte] + rest)[1..] == rest;
  }

  lemma FlatOne(byte: Bits)
    requires |byte| == 8
    ensures Flat([byte]) == byte
  {
  }

  // ----- the 64-bit word a number is read into -----

  const WIDTH := 64

  /** A word whose low bits are given; the others are zero. */
  function Widen(low: Bits): (w: Bits)
    requires |low| <= WIDTH
    ensures |w| == WIDTH
  {
    low + Zeros(WIDTH - |low|)
  }

  /** The operator uintmax_t(byte) << offset: bits beyond the word are lost. */
  function ShiftLeft(byte: Bits, offset: nat): (w: Bits)
    ensures |w| == WIDTH
  {
    (Zeros(offset) + byte + Zeros(WIDTH))[..WIDTH]
  }

  lemma NumberOfPadded(low: Bits, zeros: Bits)
    requires forall i :: 0 <= i < |zeros| ==> !zeros[i]
    ensures Number(low + zeros) == Number(low)
  {
    NumberAppend(low, zeros);
    NumberOfZeros(zeros);
    assert Pow2(|low|) * 0 == 0;
  }

  lemma NumberOfWidened(low: Bits)
    requires |low| <= WIDTH
    ensures Number(Widen(low)) == Number(low)
  {
    NumberOfPadded(low, Zeros(WIDTH - |low|));
  }

  /** A shifted byte only meets zeros, so it is placed above the bits read so far. */
  lemma OrOntoZeros(low: Bits, byte: Bits)
    requires |low| + |byte| <= WIDTH
    ensures Or(Widen(low), ShiftLeft(byte, |low|)) == Widen(low + byte)
  {
  }

  /** There the bitwise OR is an addition. */
  lemma OrIsSum(low: Bits, byte: Bits)
    requires |low| + |byte| <= WIDTH
    ensures Number(Or(Widen(low), ShiftLeft(byte, |low|))) == Number(Widen(low)) + Pow2(|low|) * Number(byte)
  {
    OrOntoZeros(low, byte);
    NumberOfWidened(low);
    NumberOfWidened(low + byte);
    NumberAppend(low, byte);
  }

  lemma WidenMasked(low: Bits, byte: Bits, n: nat)
    requires |byte| == 8 && n <= 8 && |low| + 8 <= WIDTH
    ensures Widen(low + And(LowMask(n), byte)) == Widen(low + byte[..n])
  {
    var l, r := Widen(low + And(LowMask(n), byte)), Widen(low + byte[..n]);
    forall i | 0 <= i < WIDTH ensures l[i] == r[i] {
    }
  }

  lemma TakeMore(a: Bits, b: Bits, c: Bits, n: nat)
    requires n <= |b|
    ensures (a + (b + c))[..|a| + n] == a + b[..n]
  {
  }

  /** The low bits of a buffer are its first bytes and part of the next. */
  lemma LowBits(bytes: seq<Bits>, k: nat, left: nat)
    requires AreBytes(bytes) && left < 8 && (if left > 0 then k < |bytes| else k <= |bytes|)
    ensures Flat(bytes)[..8 * k + left] == Flat(bytes[..k]) + (if left > 0 then bytes[k][..left] else [])
  {
    assert bytes == bytes[..k] + bytes[k..];
    FlatAppend(bytes[..k], bytes[k..]);
    if left > 0 {
      var rest := bytes[k..];
      assert Flat(rest) == rest[0] + Flat(rest[1..]);
      TakeMore(Flat(bytes[..k]), rest[0], Flat(rest[1..]), left);
    }
  }

  lemma NextByte(done: seq<Bits>, val: nat, k: nat)
    requires AreBytes(done) && Flat(done) == ToBits(val, 8 * k)
    ensures var byte := ToBits(Shift(val, 8 * k), 8);
            AreBytes(done + [byte]) && Flat(done + [byte]) == ToBits(val, 8 * (k + 1))
    ensures Shift(Shift(val, 8 * k), 8) == Shift(val, 8 * (k + 1))
  {
    var byte := ToBits(Shift(val, 8 * k), 8);
    FlatAppend(done, [byte]);
    FlatOne(byte);
    BitsSplit(val, 8 * k, 8);
    ShiftTwice(val, 8 * k, 8);
  }

  lemma MergeMasked(byte: Bits, low: Bits, n: nat)
    requires |byte| == |low| == 8 && n <= 8
    ensures Or(And(byte, Not(LowMask(n))), And(LowMask(n), low)) == low[..n] + byte[n..]
  {
  }

  /** The masked byte holds the low bits of the number below and its own bits above. */
  lemma MergedByte(byte: Bits, v: nat, n: nat)
    requires |byte| == 8 && n <= 8
    ensures Or(And(byte, Not(LowMask(n))), And(LowMask(n), ToBits(v, 8))) == ToBits(v, n) + byte[n..]
  {
    BitsSplit(v, n, 8 - n);
    MergeMasked(byte, ToBits(v, 8), n);
  }

  /** What lies beyond the bytes already written is what was there before. */
  lemma Kept(before: seq<Bits>, after: seq<Bits>, k: nat, left: nat)
    requires AreBytes(before) && AreBytes(after) && |before| == |after| && k <= |before|
    requires before[k..] == after[k..] && left <= 8 * (|before| - k)
    ensures Flat(before)[8 * k + left..] == Flat(after[k..])[left..]
  {
    FlatAppend(before[..k], before[k..]);
    assert before == before[..k] + before[k..];
  }

  lemma Merge(done: seq<Bits>, merged: Bits, rest: seq<Bits>, n: nat, low: Bits, part: Bits)
    requires AreBytes(done) && AreBytes(rest) && rest != [] && n <= 8 && |part| == n
    requires merged == part + rest[0][n..] && Flat(done) == low
    ensures AreBytes(done + ([merged] + rest[1..]))
    ensures Flat(done + ([merged] + rest[1..])) == (low + part) + Flat(rest)[n..]
  {
    var own, tail := rest[0][n..], Flat(rest[1..]);
    FlatCons(merged, rest[1..]);
    FlatAppend(done, [merged] + rest[1..]);
    assert Flat(rest)[n..] == own + tail;
    Regroup(part, own, tail);
    Regroup(low, part, own + tail);
  }

  /** On the bits alone: with a number put into the low bits, reading that count of bits gives the number modulo
      two to that count, bit i read back is bit i of the number, and higher bits are unchanged. */
  lemma ViewsAgree(before: Bits, val: nat, count: nat, size: nat)
    requires size <= |before|
    ensures var n := Min(count, size); var after := ToBits(val, n) + before[n..];
            && Number(after[..n]) == val % Pow2(n)
            && (forall i :: 0 <= i < n ==> after[i] == ((val / Pow2(i)) % 2 == 1))
            && (forall i :: n <= i < |before| ==> after[i] == before[i])
  {
    var n := Min(count, size);
    var after := ToBits(val, n) + before[n..];
    assert after[..n] == ToBits(val, n);
    NumberOfBits(val, n);
    forall i | 0 <= i < n ensures after[i] == ((val / Pow2(i)) % 2 == 1) {
      BitOf(val, n, i);
      ShiftDivides(val, i);
    }
  }

  // ----- the stream -----

  class Bitstream {
    const bits: array<Bits>
    const size: nat

    ghost predicate Valid()
      reads bits
    {
      bits.Length == Bytes(size) && AreBytes(bits[..])
    }

    /** All stored bits, those above size included. */
    ghost function Contents(): (f: Bits)
      requires Valid()
      reads bits
      ensures |f| >= size
    {
      Flat(bits[..])
    }

    constructor (size: nat)
      ensures Valid() && fresh(bits) && this.size == size && size <= 8 * bits.Length < size + 8
      ensures forall i :: 0 <= i < |Contents()| ==> !Contents()[i]
    {
      this.size := size;
      bits := new Bits[Bytes(size)](_ => LowMask(0));
      new;
      forall i | 0 <= i < |Contents()| ensures !Contents()[i] {
        FlatAt(bits[..], i);
      }
    }

    /** Writes the low bits of val, whole bytes first, then a masked byte. */
    method Assign(val: nat, count: nat)
      requires Valid()
      modifies bits
      ensures Valid()
      ensures var n := Min(count, size); Contents() == ToBits(val, n) + old(Contents())[n..]
    {
      var n := if size < count then size else count;
      ghost var before := bits[..];
      var k, v, left := AssignBytes(val, n);
      Kept(before, bits[..], k, left);
      BitsSplit(val, 8 * k, left);
      if left > 0 {
        AssignPart(k, v, left, ToBits(val, 8 * k));
      } else {
        FlatAppend(bits[..k], bits[k..]);
        assert bits[..] == bits[..k] + bits[k..];
      }
    }

    /** The last byte takes the low bits of the number below and keeps its own bits above. */
    method AssignPart(k: nat, v: nat, left: nat, ghost low: Bits)
      requires Valid() && 0 < left < 8 && k < bits.Length && Flat(bits[..k]) == low
      modifies bits
      ensures Valid() && Contents() == (low + ToBits(v, left)) + Flat(old(bits[k..]))[left..]
    {
      ghost var done, rest := bits[..k], bits[k..];
      var mask := LowMask(left);
      var byte := And(bits[k], Not(mask));
      byte := Or(byte, And(mask, ToBits(v, 8)));
      MergedByte(rest[0], v, left);
      bits[k] := byte;
      Merge(done, byte, rest, left, low, ToBits(v, left));
      assert bits[..] == done + ([byte] + rest[1..]);
    }

    /** The loop over whole bytes: the number is shifted down byte by byte. */
    method AssignBytes(val: nat, n: nat) returns (k: nat, v: nat, left: nat)
      requires Valid() && n <= size
      modifies bits
      ensures Valid() && n == 8 * k + left && left < 8 && k <= bits.Length && v == Shift(val, 8 * k)
      ensures Flat(bits[..k]) == ToBits(val, 8 * k) && bits[k..] == old(bits[k..])
    {
      k, v, left := 0, val, n;
      while left >= 8
        invariant n == 8 * k + left && k <= bits.Length && Valid()
        invariant v == Shift(val, 8 * k)
        invariant Flat(bits[..k]) == ToBits(val, 8 * k)
        invariant bits[k..] == old(bits[..])[k..]
      {
        ghost var done := bits[..k];
        bits[k] := ToBits(v, 8);
        assert bits[..k + 1] == done + [ToBits(v, 8)];
        NextByte(done, val, k);
        v := Shift(v, 8);
        left := left - 8;
        k := k + 1;
      }
    }

    /** Reads the low bits as a number, byte by byte into a 64-bit word. */
    method Value(count: nat) returns (val: nat)
      requires Valid() && Min(count, size) <= WIDTH
      ensures val == Number(Contents()[..Min(count, size)])
    {
      var n := if size < count then size else count;
      var left: nat, k: nat, word := n, 0, Zeros(WIDTH);
      while left >= 8
        invariant n == 8 * k + left && k <= bits.Length
        invariant word == Widen(Flat(bits[..k]))
      {
        assert bits[..k + 1] == bits[..k] + [bits[k]];
        FlatAppend(bits[..k], [bits[k]]);
        FlatOne(bits[k]);
        OrOntoZeros(Flat(bits[..k]), bits[k]);
        word := Or(word, ShiftLeft(bits[k], 8 * k));
        left := left - 8;
        k := k + 1;
      }
      LowBits(bits[..], k, left);
      if left > 0 {
        var masked := And(LowMask(left), bits[k]);
        OrOntoZeros(Flat(bits[..k]), masked);
        WidenMasked(Flat(bits[..k]), bits[k], left);
        word := Or(word, ShiftLeft(masked, 8 * k));
      }
      assert word == Widen(Contents()[..n]);
      NumberOfWidened(Contents()[..n]);
      val := Number(word);
    }

    /** Writing through a reference changes the one bit. */
    method SetBit(index: nat, value: bool)
      requires Valid() && index < size
      modifies bits
      ensures Valid() && Contents() == old(Contents())[index := value]
    {
      var k, mask := index / 8, OneMask(index % 8);
      ghost var before := bits[..];
      bits[k] := if value then Or(bits[k], mask) else And(bits[k], Not(mask));
      forall i | 0 <= i < 8 * |before| ensures Contents()[i] == Flat(before)[index := value][i] {
        FlatAt(bits[..], i);
        FlatAt(before, i);
      }
    }

    method GetBit(index: nat) returns (value: bool)
      requires Valid() && index < size
      ensures value == Contents()[index]
    {
      var mask := OneMask(index % 8);
      FlatAt(bits[..], index);
      value := And(bits[index / 8], mask) == mask;
      assert And(bits[index / 8], mask)[index % 8] == bits[index / 8][index % 8];
      if bits[index / 8][index % 8] {
        assert And(bits[index / 8], mask) == mask;
      }
    }
  }

  /** Main result: the views of one object agree: a number is assigned, read back, and one bit is looked at. */
  method AssignAndRead(b: Bitstream, val: nat, count: nat, index: nat) returns (number: nat, bit: bool)
    requires b.Valid() && Min(count, b.size) <= WIDTH && index < b.size
    modifies b.bits
    ensures b.Valid()
    ensures var n := Min(count, b.size);
            && number == val % Pow2(n)
            && bit == (if index < n then (val / Pow2(index)) % 2 == 1 else old(b.Contents())[index])
            && b.Contents()[n..] == old(b.Contents())[n..]
  {
    ViewsAgree(b.Contents(), val, count, b.size);
    b.Assign(val, count);
    number := b.Value(count);
    bit := b.GetBit(index);
  }
}
