/** Bit fields of a HID input report, and the mouse layout built from them. */
module HidReport {
  import opened Common

  /** A field of `bits` bits at bit `offset`, with logical limits. `bits == 0` means the layout lacks it. */
  datatype Field = Field(offset: int, bits: int, minimum: int, maximum: int)

  const Absent: Field := Field(0, 0, 0, 0)

  datatype Command = Command(x: int, y: int, wheel: int, pan: int, buttons: bv8)

  datatype Profile = Profile(
    id: int, size: int,
    x: Field, y: Field, wheel: Field, pan: Field,
    buttons: map<int, Field>,
    relative: seq<Field>)

  // ---------------------------------------------------------------- bits

  function Pow2(n: nat): (r: int)
    ensures r >= 1
  {
    if n == 0 then 1 else 2 * Pow2(n - 1)
  }

  /** Arithmetic right shift by `n`, which is what the two's complement bit pattern yields. */
  function Shift(v: int, n: nat): int {
    if n == 0 then v else Shift(v, n - 1) / 2
  }

  predicate BitOf(v: int, i: nat) {
    Shift(v, i) % 2 == 1
  }

  function BitMask(i: int): bv8
    requires 0 <= i < 8
  {
    ButtonBit(i + 1)
  }

  predicate TestBit(c: bv8, k: int)
    requires 0 <= k < 8
  {
    c & BitMask(k) != 0
  }

  function WithBit(c: bv8, k: int, b: bool): bv8
    requires 0 <= k < 8
  {
    (c & !BitMask(k)) | (if b then BitMask(k) else 0)
  }

  lemma BitWritten(c: bv8, i: int, b: bool, j: int)
    requires 0 <= i < 8 && 0 <= j < 8
    ensures TestBit(WithBit(c, i, b), j) == if i == j then b else TestBit(c, j)
  {
  }

  predicate BitAt(s: seq<byte>, i: int)
    requires 0 <= i < 8 * |s|
  {
    TestBit(s[i / 8], i % 8)
  }

  function SetBit(s: seq<byte>, i: int, b: bool): (r: seq<byte>)
    requires 0 <= i < 8 * |s|
    ensures |r| == |s|
  {
    s[i / 8 := WithBit(s[i / 8], i % 8, b)]
  }

  lemma SetBitAt(s: seq<byte>, i: int, b: bool, j: int)
    requires 0 <= i < 8 * |s| && 0 <= j < 8 * |s|
    ensures BitAt(SetBit(s, i, b), j) == if i == j then b else BitAt(s, j)
  {
    hide TestBit, WithBit;
    if i / 8 == j / 8 {
      assert i == j <==> i % 8 == j % 8;
      BitWritten(s[i / 8], i % 8, b, j % 8);
    }
  }

  // ---------------------------------------------------------------- fields

  /** Bits `offset .. offset + n`, least significant first, as a natural number. */
  function Bits(s: seq<byte>, offset: int, n: nat): (v: int)
    requires 0 <= offset && offset + n <= 8 * |s|
    ensures 0 <= v < Pow2(n)
  {
    if n == 0 then 0
    else Bits(s, offset, n - 1) + (if BitAt(s, offset + n - 1) then Pow2(n - 1) else 0)
  }

  function PutBits(s: seq<byte>, offset: int, n: nat, value: int): (r: seq<byte>)
    requires 0 <= offset && offset + n <= 8 * |s|
    ensures |r| == |s|
  {
    if n == 0 then s
    else SetBit(PutBits(s, offset, n - 1, value), offset + n - 1, BitOf(value, n - 1))
  }

  /** The field is absent, or lies inside a report of `size` bytes. */
  predicate Inside(f: Field, size: int) {
    f.bits == 0 || (0 <= f.offset && 0 < f.bits && f.offset + f.bits <= 8 * size)
  }

  /** Logical limits around zero that the field's bits can represent. */
  predicate WellFormed(f: Field) {
    if f.bits == 0 then f.minimum == 0 == f.maximum
    else
      && 1 <= f.bits <= 16
      && f.minimum <= 0 <= f.maximum
      && f.minimum < f.maximum
      && (f.minimum < 0 ==> -Pow2(f.bits - 1) <= f.minimum && f.maximum < Pow2(f.bits - 1))
      && f.maximum < Pow2(f.bits)
  }

  predicate Disjoint(f: Field, g: Field) {
    f.bits == 0 || g.bits == 0 || f.offset + f.bits <= g.offset || g.offset + g.bits <= f.offset
  }

  predicate Covers(f: Field, bit: int) {
    f.offset <= bit < f.offset + f.bits
  }

  /** What `put` reports: whether it writes the value (or has nothing to write). */
  predicate Accepts(f: Field, value: int) {
    if f.bits == 0 then value == 0 else f.minimum <= value <= f.maximum
  }

  /** The value `get` decodes. */
  function Load(s: seq<byte>, f: Field): int
    requires Inside(f, |s|)
  {
    if f.bits == 0 then 0
    else
      var v := Bits(s, f.offset, f.bits);
      if f.minimum < 0 && v >= Pow2(f.bits - 1) then v - Pow2(f.bits) else v
  }

  /** The buffer `put` leaves: a refused value leaves it as it was. */
  function Store(s: seq<byte>, f: Field, value: int): (r: seq<byte>)
    requires Inside(f, |s|)
    ensures |r| == |s|
  {
    if f.bits == 0 || !Accepts(f, value) then s else PutBits(s, f.offset, f.bits, value)
  }

  method Get(f: Field, p: array<byte>) returns (value: int)
    requires Inside(f, p.Length)
    ensures value == Load(p[..], f)
  {
    hide TestBit;
    if f.bits == 0 {
      return 0;
    }
    var v := 0;
    var weight := 1;
    for i := 0 to f.bits
      invariant v == Bits(p[..], f.offset, i)
      invariant weight == Pow2(i)
    {
      if TestBit(p[(f.offset + i) / 8], (f.offset + i) % 8) {
        v := v + weight;
      }
      weight := 2 * weight;
    }
    if f.minimum < 0 && v >= weight / 2 {
      return v - weight;
    }
    return v;
  }

  method Put(f: Field, p: array<byte>, value: int) returns (ok: bool)
    requires Inside(f, p.Length)
    modifies p
    ensures ok == Accepts(f, value)
    ensures p[..] == Store(old(p[..]), f, value)
  {
    hide SetBit;
    if f.bits == 0 {
      return value == 0;
    }
    if value < f.minimum || value > f.maximum {
      return false;
    }
    var rest := value;
    for i := 0 to f.bits
      invariant rest == Shift(value, i)
      invariant p[..] == PutBits(old(p[..]), f.offset, i, value)
    {
      WriteBit(p, f.offset + i, rest % 2 == 1);
      rest := rest / 2;
    }
    return true;
  }

  method WriteBit(p: array<byte>, i: int, b: bool)
    requires 0 <= i < 8 * p.Length
    modifies p
    ensures p[..] == SetBit(old(p[..]), i, b)
  {
    hide WithBit;
    var k := i / 8;
    p[k] := WithBit(p[k], i % 8, b);
    assert p[..] == old(p[..])[k := p[k]];
  }

  lemma {:induction false} PutBitsAt(s: seq<byte>, offset: int, n: nat, value: int, j: int)
    requires 0 <= offset && offset + n <= 8 * |s| && 0 <= j < 8 * |s|
    ensures BitAt(PutBits(s, offset, n, value), j)
         == if offset <= j < offset + n then BitOf(value, j - offset) else BitAt(s, j)
  {
    hide BitAt, SetBit;
    if n > 0 {
      PutBitsAt(s, offset, n - 1, value, j);
      SetBitAt(PutBits(s, offset, n - 1, value), offset + n - 1, BitOf(value, n - 1), j);
    }
  }

  /** Decoding reads nothing but the field's own bits. */
  lemma {:induction false} BitsAgree(s: seq<byte>, t: seq<byte>, offset: int, n: nat)
    requires |s| == |t| && 0 <= offset && offset + n <= 8 * |s|
    requires forall j :: offset <= j < offset + n ==> BitAt(s, j) == BitAt(t, j)
    ensures Bits(s, offset, n) == Bits(t, offset, n)
  {
    hide BitAt;
    if n > 0 {
      BitsAgree(s, t, offset, n - 1);
    }
  }

  function LowBits(v: int, n: nat): int {
    if n == 0 then 0 else LowBits(v, n - 1) + (if BitOf(v, n - 1) then Pow2(n - 1) else 0)
  }

  lemma {:induction false} LowBitsSplit(v: int, n: nat)
    ensures LowBits(v, n) + Shift(v, n) * Pow2(n) == v
    ensures 0 <= LowBits(v, n) < Pow2(n)
  {
    if n > 0 {
      LowBitsSplit(v, n - 1);
      Halving(Shift(v, n - 1), Shift(v, n), Pow2(n - 1));
    }
  }

  lemma Halving(q: int, h: int, w: int)
    requires h == q / 2
    ensures q * w == h * (2 * w) + (if q % 2 == 1 then w else 0)
  {
    var b := q % 2;
    assert q == 2 * h + b;
    calc {
      q * w;
      (2 * h + b) * w;
      (2 * h) * w + b * w;
      h * (2 * w) + b * w;
    }
  }

  lemma {:induction false} BitsOfPut(s: seq<byte>, offset: int, n: nat, m: nat, value: int)
    requires n <= m && 0 <= offset && offset + m <= 8 * |s|
    ensures Bits(PutBits(s, offset, m, value), offset, n) == LowBits(value, n)
  {
    hide BitAt, SetBit;
    if n > 0 {
      BitsOfPut(s, offset, n - 1, m, value);
      PutBitsAt(s, offset, m, value, offset + n - 1);
    }
  }

  /** Round trip: an accepted value of a well-formed field is read back. */
  lemma LoadStore(s: seq<byte>, f: Field, value: int)
    requires Inside(f, |s|) && WellFormed(f) && Accepts(f, value)
    ensures Load(Store(s, f, value), f) == value
  {
    hide PutBits;
    if f.bits > 0 {
      BitsOfPut(s, f.offset, f.bits, f.bits, value);
      LowBitsSplit(value, f.bits);
      HighPart(LowBits(value, f.bits), Shift(value, f.bits), Pow2(f.bits), value);
    }
  }

  /** The quotient left above a full-width pattern is 0, or -1 for a negative value. */
  lemma HighPart(low: int, high: int, w: int, value: int)
    requires 0 <= low < w && low + high * w == value && -w <= value < w
    ensures high == if value < 0 then -1 else 0
  {
    Scaled(high, w);
  }

  lemma Scaled(k: int, w: int)
    requires w > 0
    ensures k >= 1 ==> k * w >= w
    ensures k <= -2 ==> k * w <= -2 * w
  {
    if k <= -2 {
      assert (-2 - k) * w >= 0;
    }
  }

  /** Writing one field leaves every bit outside it. */
  lemma StoreFrame(s: seq<byte>, f: Field, value: int, j: int)
    requires Inside(f, |s|) && 0 <= j < 8 * |s| && (f.bits == 0 || !Covers(f, j))
    ensures BitAt(Store(s, f, value), j) == BitAt(s, j)
  {
    hide BitAt;
    if f.bits > 0 {
      PutBitsAt(s, f.offset, f.bits, value, j);
    }
  }

  lemma LoadStoreOther(s: seq<byte>, f: Field, value: int, g: Field)
    requires Inside(f, |s|) && Inside(g, |s|) && Disjoint(f, g)
    ensures Load(Store(s, f, value), g) == Load(s, g)
  {
    hide BitAt, PutBits;
    if f.bits > 0 && g.bits > 0 {
      forall j | g.offset <= j < g.offset + g.bits
        ensures BitAt(Store(s, f, value), j) == BitAt(s, j)
      {
        StoreFrame(s, f, value, j);
      }
      BitsAgree(Store(s, f, value), s, g.offset, g.bits);
    }
  }
}
