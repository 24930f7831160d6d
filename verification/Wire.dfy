/** Fixed-width big-endian fields, one behind another: the shape of every packet. */
module Wire {
  import opened Common

  type Bytes = seq<octet>

  function Pow256(width: nat): nat {
    if width == 0 then 1 else 0x100 * Pow256(width - 1)
  }

  /** `put16`, `put32`, `put64`. */
  function PutBig(n: nat, width: nat): Bytes
    decreases width
  {
    if width == 0 then [] else PutBig(n / 0x100, width - 1) + [n % 0x100]
  }

  /** `get16`, `get32`, `get64`. */
  function GetBig(b: Bytes): nat {
    if b == [] then 0 else GetBig(b[..|b| - 1]) * 0x100 + b[|b| - 1]
  }

  function Total(widths: seq<nat>): nat {
    if widths == [] then 0 else widths[0] + Total(widths[1..])
  }

  function Encode(values: seq<nat>, widths: seq<nat>): Bytes
    requires |values| == |widths|
  {
    if widths == [] then [] else PutBig(values[0], widths[0]) + Encode(values[1..], widths[1..])
  }

  function Decode(b: Bytes, widths: seq<nat>): seq<nat>
    requires |b| == Total(widths)
  {
    if widths == [] then [] else [GetBig(b[..widths[0]])] + Decode(b[widths[0]..], widths[1..])
  }

  /** Every value fits its field. */
  ghost predicate Fits(values: seq<nat>, widths: seq<nat>) {
    |values| == |widths| && forall i :: 0 <= i < |values| ==> values[i] < Pow256(widths[i])
  }

  // ---------------------------------------------------------------- one field

  lemma {:induction false} PutLength(n: nat, width: nat)
    ensures |PutBig(n, width)| == width
    decreases width
  {
    if width > 0 {
      PutLength(n / 0x100, width - 1);
    }
  }

  lemma {:induction false} GetPut(n: nat, width: nat)
    requires n < Pow256(width)
    ensures GetBig(PutBig(n, width)) == n
    decreases width
  {
    if width > 0 {
      GetPut(n / 0x100, width - 1);
      PutLength(n / 0x100, width - 1);
      var b := PutBig(n, width);
      assert b[..|b| - 1] == PutBig(n / 0x100, width - 1);
    }
  }

  lemma {:induction false} PutGet(b: Bytes)
    ensures PutBig(GetBig(b), |b|) == b && GetBig(b) < Pow256(|b|)
    decreases |b|
  {
    if b != [] {
      var front := b[..|b| - 1];
      PutGet(front);
      assert GetBig(b) / 0x100 == GetBig(front);
      assert b == front + [b[|b| - 1]];
    }
  }

  // ---------------------------------------------------------------- whole packets

  lemma {:induction false} EncodeLength(values: seq<nat>, widths: seq<nat>)
    requires |values| == |widths|
    ensures |Encode(values, widths)| == Total(widths)
  {
    if widths != [] {
      PutLength(values[0], widths[0]);
      EncodeLength(values[1..], widths[1..]);
    }
  }

  /** Decoding what was encoded gives the values back. */
  lemma {:induction false} DecodeEncode(values: seq<nat>, widths: seq<nat>)
    requires Fits(values, widths)
    ensures |Encode(values, widths)| == Total(widths) && Decode(Encode(values, widths), widths) == values
  {
    EncodeLength(values, widths);
    if widths != [] {
      var b := Encode(values, widths);
      PutLength(values[0], widths[0]);
      GetPut(values[0], widths[0]);
      DecodeEncode(values[1..], widths[1..]);
      assert b[..widths[0]] == PutBig(values[0], widths[0]);
      assert b[widths[0]..] == Encode(values[1..], widths[1..]);
      assert values == [values[0]] + values[1..];
    }
  }

  /** Encoding what was decoded gives the bytes back. */
  lemma {:induction false} EncodeDecode(b: Bytes, widths: seq<nat>)
    requires |b| == Total(widths)
    ensures Fits(Decode(b, widths), widths) && Encode(Decode(b, widths), widths) == b
  {
    if widths != [] {
      var values := Decode(b, widths);
      PutGet(b[..widths[0]]);
      EncodeDecode(b[widths[0]..], widths[1..]);
      assert values[1..] == Decode(b[widths[0]..], widths[1..]);
      assert b == b[..widths[0]] + b[widths[0]..];
      forall i | 0 <= i < |values|
        ensures values[i] < Pow256(widths[i])
      {
        if i > 0 {
          assert values[i] == values[1..][i - 1] && widths[i] == widths[1..][i - 1];
        }
      }
    }
  }

  lemma PutLast(n: nat, width: nat)
    requires width > 0
    ensures PutBig(n, width) == PutBig(n / 0x100, width - 1) + [n % 0x100]
  {
  }

  lemma FrontOf(all: Bytes, i: nat, front: Bytes, last: octet)
    requires 0 < i <= |all| && all[..i] == front + [last]
    ensures all[..i - 1] == front && all[i - 1] == last
  {
    assert all[..i - 1] == all[..i][..i - 1];
    assert all[i - 1] == all[..i][i - 1];
  }

  // ---------------------------------------------------------------- in place

  /** Writes one field: lowest octet last, from the back. */
  method StoreBig(buffer: array<octet>, at: nat, n: nat, width: nat)
    requires at + width <= buffer.Length
    modifies buffer
    ensures buffer[..] == old(buffer[..at]) + PutBig(n, width) + old(buffer[at + width..])
  {
    hide PutBig;
    ghost var was := buffer[..];
    ghost var all := PutBig(n, width);
    PutLength(n, width);
    var rest: nat, i: nat := n, width;
    assert all[..width] == all;
    while i > 0
      invariant i <= width && |all| == width && all[..i] == PutBig(rest, i)
      invariant forall k :: 0 <= k < at + i || at + width <= k < buffer.Length ==> buffer[k] == was[k]
      invariant forall k :: i <= k < width ==> buffer[at + k] == all[k]
    {
      PutLast(rest, i);
      FrontOf(all, i, PutBig(rest / 0x100, i - 1), rest % 0x100);
      i := i - 1;
      buffer[at + i] := rest % 0x100;
      rest := rest / 0x100;
    }
    ghost var whole := was[..at] + all + was[at + width..];
    assert forall k :: 0 <= k < buffer.Length ==> buffer[k] == whole[k];
  }

  /** Reads one field. */
  method LoadBig(b: Bytes, at: nat, width: nat) returns (n: nat)
    requires at + width <= |b|
    ensures n == GetBig(b[at..at + width])
  {
    n := 0;
    var i := 0;
    while i < width
      invariant i <= width && n == GetBig(b[at..at + i])
    {
      assert b[at..at + i + 1][..i] == b[at..at + i];
      n := n * 0x100 + b[at + i];
      i := i + 1;
    }
  }

  /** Builds a packet field by field in one buffer. */
  method WritePacket(values: seq<nat>, widths: seq<nat>) returns (buffer: array<octet>)
    requires |values| == |widths|
    ensures fresh(buffer) && buffer[..] == Encode(values, widths)
  {
    hide PutBig;
    buffer := new octet[Total(widths)](_ => 0);
    EncodeLength(values, widths);
    var i, at: nat := 0, 0;
    while i < |widths|
      invariant 0 <= i <= |widths| && at + Total(widths[i..]) == buffer.Length
      invariant buffer[..at] + Encode(values[i..], widths[i..]) == Encode(values, widths)
    {
      assert widths[i..][1..] == widths[i + 1..] && values[i..][1..] == values[i + 1..];
      PutLength(values[i], widths[i]);
      ghost var front := buffer[..at];
      StoreBig(buffer, at, values[i], widths[i]);
      assert buffer[..at + widths[i]] == front + PutBig(values[i], widths[i]);
      at := at + widths[i];
      i := i + 1;
    }
    assert buffer[..at] == buffer[..];
  }

  /** Reads a packet field by field. */
  method ReadPacket(b: Bytes, widths: seq<nat>) returns (values: seq<nat>)
    requires |b| == Total(widths)
    ensures values == Decode(b, widths)
  {
    hide GetBig;
    values := [];
    var i, at: nat := 0, 0;
    while i < |widths|
      invariant 0 <= i <= |widths| && at + Total(widths[i..]) == |b|
      invariant values + Decode(b[at..], widths[i..]) == Decode(b, widths)
    {
      assert widths[i..][1..] == widths[i + 1..];
      assert b[at..][..widths[i]] == b[at..at + widths[i]] && b[at..][widths[i]..] == b[at + widths[i]..];
      var n := LoadBig(b, at, widths[i]);
      assert Decode(b[at..], widths[i..]) == [n] + Decode(b[at + widths[i]..], widths[i + 1..]);
      values := values + [n];
      at := at + widths[i];
      i := i + 1;
    }
  }
}
