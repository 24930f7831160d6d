/** Mouse report layouts: writing and reading whole reports through their fields. */
module MouseLayout {
  import opened Common
  import opened HidReport

  const BUTTONS := 8

  predicate ValidField(f: Field, size: int) {
    Inside(f, size) && WellFormed(f)
  }

  /** The four injectable axes are pairwise disjoint. */
  predicate AxesDisjoint(p: Profile) {
    && Disjoint(p.x, p.y) && Disjoint(p.x, p.wheel) && Disjoint(p.x, p.pan)
    && Disjoint(p.y, p.wheel) && Disjoint(p.y, p.pan) && Disjoint(p.wheel, p.pan)
  }

  predicate ButtonsApart(p: Profile, f: Field) {
    forall k :: k in p.buttons ==> Disjoint(p.buttons[k], f)
  }

  /** What every layout the descriptor parser returns satisfies. */
  ghost predicate ValidProfile(p: Profile) {
    && 0 <= p.size && 0 <= p.id <= 255
    && ValidField(p.x, p.size) && ValidField(p.y, p.size)
    && ValidField(p.wheel, p.size) && ValidField(p.pan, p.size)
    && AxesDisjoint(p)
    && ButtonsApart(p, p.x) && ButtonsApart(p, p.y) && ButtonsApart(p, p.wheel) && ButtonsApart(p, p.pan)
    && (forall k :: k in p.buttons ==>
          1 <= k <= BUTTONS && p.buttons[k].bits == 1 && ValidField(p.buttons[k], p.size))
    && (forall j, k :: j in p.buttons && k in p.buttons && j != k ==> Disjoint(p.buttons[j], p.buttons[k]))
    && (forall i :: 0 <= i < |p.relative| ==> p.relative[i].bits > 0 && ValidField(p.relative[i], p.size))
    && (forall i, j :: 0 <= i < j < |p.relative| ==> Disjoint(p.relative[i], p.relative[j]))
    && (forall f :: f in {p.x, p.y, p.wheel, p.pan} && f.bits > 0 ==> f in p.relative)
  }

  /** The report ID byte is no part of any field. */
  ghost predicate PastReportId(p: Profile) {
    p.id != 0 ==>
      && (forall f :: f in {p.x, p.y, p.wheel, p.pan} && f.bits > 0 ==> f.offset >= 8)
      && (forall k :: k in p.buttons ==> p.buttons[k].offset >= 8)
      && (forall i :: 0 <= i < |p.relative| ==> p.relative[i].offset >= 8)
  }

  /** Buttons whose logical range is 0..1, for which both states can be written. */
  predicate BinaryButtons(p: Profile) {
    forall k :: k in p.buttons ==> p.buttons[k].minimum == 0 && p.buttons[k].maximum == 1
  }

  function DeclaredBit(p: Profile, k: int): bv8 {
    if k in p.buttons then ButtonBit(k) else 0
  }

  /** The union of the masks `bit(1) .. bit(k)`. */
  function UnionUpTo(bit: int -> bv8, k: nat): bv8 {
    if k == 0 then 0 else UnionUpTo(bit, k - 1) | bit(k)
  }

  /** The declared usages among 1..k. */
  function Supported(p: Profile, k: nat): bv8 {
    UnionUpTo(b => DeclaredBit(p, b), k)
  }

  predicate Fits(p: Profile, s: seq<byte>) {
    |s| == p.size
  }

  function ReadBit(s: seq<byte>, p: Profile, k: int): bv8 {
    if k in p.buttons && Inside(p.buttons[k], |s|) && Load(s, p.buttons[k]) != 0 then ButtonBit(k) else 0
  }

  /** `button_mask`: the pressed buttons among usages 1..k. */
  function ButtonMask(s: seq<byte>, p: Profile, k: nat): bv8 {
    UnionUpTo(b => ReadBit(s, p, b), k)
  }

  /** The usages of the buttons that read as pressed, as a mask. */
  function Pressed(s: seq<byte>, p: Profile): bv8 {
    ButtonMask(s, p, BUTTONS)
  }

  /** The mask of every declared usage. */
  function AllButtons(p: Profile): bv8 {
    Supported(p, BUTTONS)
  }

  function StoreButtons(s: seq<byte>, p: Profile, mask: bv8, k: nat): (r: seq<byte>)
    requires k <= BUTTONS
    requires forall j :: j in p.buttons ==> Inside(p.buttons[j], |s|)
    ensures |r| == |s|
  {
    if k == 0 then s
    else
      var t := StoreButtons(s, p, mask, k - 1);
      if k in p.buttons then Store(t, p.buttons[k], if mask & ButtonBit(k) != 0 then 1 else 0) else t
  }

  /** `put_buttons`. */
  function WithButtons(s: seq<byte>, p: Profile, mask: bv8): (r: seq<byte>)
    requires forall j :: j in p.buttons ==> Inside(p.buttons[j], |s|)
    ensures |r| == |s|
  {
    StoreButtons(s, p, mask, BUTTONS)
  }

  function ZeroRelative(s: seq<byte>, p: Profile, n: nat): (r: seq<byte>)
    requires n <= |p.relative|
    requires forall i :: 0 <= i < |p.relative| ==> Inside(p.relative[i], |s|)
    ensures |r| == |s|
  {
    if n == 0 then s else Store(ZeroRelative(s, p, n - 1), p.relative[n - 1], 0)
  }

  predicate AxesAccept(p: Profile, c: Command) {
    Accepts(p.x, c.x) && Accepts(p.y, c.y) && Accepts(p.wheel, c.wheel) && Accepts(p.pan, c.pan)
  }

  /** Writes the axes in order; the first refusal stops the rest, as `&&` does. */
  function StoreAxesWhileAccepted(s: seq<byte>, p: Profile, c: Command): (r: seq<byte>)
    requires Inside(p.x, |s|) && Inside(p.y, |s|) && Inside(p.wheel, |s|) && Inside(p.pan, |s|)
    ensures |r| == |s|
  {
    if !Accepts(p.x, c.x) then s
    else
      var sx := Store(s, p.x, c.x);
      if !Accepts(p.y, c.y) then sx
      else
        var sy := Store(sx, p.y, c.y);
        if !Accepts(p.wheel, c.wheel) then sy
        else Store(Store(sy, p.wheel, c.wheel), p.pan, c.pan)
  }

  function StoreAxes(s: seq<byte>, p: Profile, c: Command): (r: seq<byte>)
    requires Inside(p.x, |s|) && Inside(p.y, |s|) && Inside(p.wheel, |s|) && Inside(p.pan, |s|)
    ensures |r| == |s|
  {
    Store(Store(Store(Store(s, p.x, c.x), p.y, c.y), p.wheel, c.wheel), p.pan, c.pan)
  }

  function Encoded(s: seq<byte>, p: Profile, c: Command): (r: seq<byte>)
    requires ValidProfile(p) && Fits(p, s)
    ensures |r| == |s|
  {
    StoreAxesWhileAccepted(WithButtons(ZeroRelative(s, p, |p.relative|), p, c.buttons), p, c)
  }

  /** `apply_known_fields`: axes and buttons are rewritten, every other bit is kept. */
  function Applied(s: seq<byte>, p: Profile, c: Command): (r: seq<byte>)
    requires ValidProfile(p) && Fits(p, s)
    ensures |r| == |s|
  {
    WithButtons(StoreAxes(s, p, c), p, c.buttons)
  }

  function Decoded(s: seq<byte>, p: Profile): (c: Command)
    requires ValidProfile(p) && Fits(p, s)
  {
    Command(Load(s, p.x), Load(s, p.y), Load(s, p.wheel), Load(s, p.pan), Pressed(s, p))
  }

  /** A bit no axis and no button owns. */
  ghost predicate Unowned(p: Profile, j: int) {
    && (forall f :: f in {p.x, p.y, p.wheel, p.pan} && f.bits > 0 ==> !Covers(f, j))
    && (forall k :: k in p.buttons ==> !Covers(p.buttons[k], j))
  }

  // ---------------------------------------------------------------- imperative forms

  method PutButtons(p: Profile, buffer: array<byte>, mask: bv8)
    requires forall j :: j in p.buttons ==> Inside(p.buttons[j], buffer.Length)
    modifies buffer
    ensures buffer[..] == WithButtons(old(buffer[..]), p, mask)
  {
    for k := 1 to BUTTONS + 1
      invariant buffer[..] == StoreButtons(old(buffer[..]), p, mask, k - 1)
    {
      if k in p.buttons {
        var _ := Put(p.buttons[k], buffer, if mask & ButtonBit(k) != 0 then 1 else 0);
      }
    }
  }

  method Encode(p: Profile, c: Command, buffer: array<byte>) returns (ok: bool)
    requires ValidProfile(p) && buffer.Length == p.size
    modifies buffer
    ensures ok == AxesAccept(p, c)
    ensures buffer[..] == Encoded(old(buffer[..]), p, c)
  {
    for i := 0 to |p.relative|
      invariant buffer[..] == ZeroRelative(old(buffer[..]), p, i)
    {
      var _ := Put(p.relative[i], buffer, 0);
    }
    PutButtons(p, buffer, c.buttons);
    ok := Put(p.x, buffer, c.x);
    if ok {
      ok := Put(p.y, buffer, c.y);
    }
    if ok {
      ok := Put(p.wheel, buffer, c.wheel);
    }
    if ok {
      ok := Put(p.pan, buffer, c.pan);
    }
  }

  method ReadButtons(p: Profile, buffer: array<byte>) returns (mask: bv8)
    requires forall j :: j in p.buttons ==> Inside(p.buttons[j], buffer.Length)
    ensures mask == Pressed(buffer[..], p)
  {
    mask := 0;
    var k := 1;
    while k <= BUTTONS
      invariant 1 <= k <= BUTTONS + 1
      invariant mask == ButtonMask(buffer[..], p, k - 1)
    {
      var bit := ReadButton(p, buffer, k);
      mask := mask | bit;
      k := k + 1;
    }
  }

  method ReadButton(p: Profile, buffer: array<byte>, k: int) returns (bit: bv8)
    requires k in p.buttons ==> Inside(p.buttons[k], buffer.Length)
    ensures bit == ReadBit(buffer[..], p, k)
  {
    bit := 0;
    if k in p.buttons {
      var state := Get(p.buttons[k], buffer);
      bit := if state != 0 then ButtonBit(k) else 0;
    }
  }

  // ---------------------------------------------------------------- frames

  lemma {:induction false} ButtonsKeepBit(s: seq<byte>, p: Profile, mask: bv8, k: nat, j: int)
    requires k <= BUTTONS && 0 <= j < 8 * |s|
    requires forall b :: b in p.buttons ==> Inside(p.buttons[b], |s|) && !Covers(p.buttons[b], j)
    ensures BitAt(StoreButtons(s, p, mask, k), j) == BitAt(s, j)
  {
    if k > 0 {
      ButtonsKeepBit(s, p, mask, k - 1, j);
      if k in p.buttons {
        StoreFrame(StoreButtons(s, p, mask, k - 1), p.buttons[k], if mask & ButtonBit(k) != 0 then 1 else 0, j);
      }
    }
  }

  lemma {:induction false} ButtonsKeepField(s: seq<byte>, p: Profile, mask: bv8, k: nat, f: Field)
    requires k <= BUTTONS && Inside(f, |s|)
    requires forall b :: b in p.buttons ==> Inside(p.buttons[b], |s|) && Disjoint(p.buttons[b], f)
    ensures Load(StoreButtons(s, p, mask, k), f) == Load(s, f)
  {
    if k > 0 {
      ButtonsKeepField(s, p, mask, k - 1, f);
      if k in p.buttons {
        LoadStoreOther(StoreButtons(s, p, mask, k - 1), p.buttons[k], if mask & ButtonBit(k) != 0 then 1 else 0, f);
      }
    }
  }

  lemma {:induction false} RelativeKeepsBit(s: seq<byte>, p: Profile, n: nat, j: int)
    requires n <= |p.relative| && 0 <= j < 8 * |s|
    requires forall i :: 0 <= i < |p.relative| ==> Inside(p.relative[i], |s|) && !Covers(p.relative[i], j)
    ensures BitAt(ZeroRelative(s, p, n), j) == BitAt(s, j)
  {
    if n > 0 {
      RelativeKeepsBit(s, p, n - 1, j);
      StoreFrame(ZeroRelative(s, p, n - 1), p.relative[n - 1], 0, j);
    }
  }

  lemma {:induction false} RelativeZeroed(s: seq<byte>, p: Profile, n: nat, i: nat)
    requires i < n <= |p.relative|
    requires forall k :: 0 <= k < |p.relative| ==> Inside(p.relative[k], |s|) && WellFormed(p.relative[k])
    requires forall a, b :: 0 <= a < b < |p.relative| ==> Disjoint(p.relative[a], p.relative[b])
    ensures Load(ZeroRelative(s, p, n), p.relative[i]) == 0
  {
    hide Load, Store;
    if i == n - 1 {
      LoadStore(ZeroRelative(s, p, n - 1), p.relative[i], 0);
    } else {
      RelativeZeroed(s, p, n - 1, i);
      LoadStoreOther(ZeroRelative(s, p, n - 1), p.relative[n - 1], 0, p.relative[i]);
    }
  }

  lemma AxisStored(s: seq<byte>, f: Field, value: int)
    requires ValidField(f, |s|)
    ensures Load(Store(s, f, value), f) == if Accepts(f, value) then value else Load(s, f)
  {
    if Accepts(f, value) {
      LoadStore(s, f, value);
    }
  }

  /** Each axis reads back its accepted value; a refused value leaves the field's own reading. */
  lemma StoreAxesReadback(s: seq<byte>, p: Profile, c: Command)
    requires ValidField(p.x, |s|) && ValidField(p.y, |s|) && ValidField(p.wheel, |s|) && ValidField(p.pan, |s|)
    requires AxesDisjoint(p)
    ensures var r := StoreAxes(s, p, c);
      && Load(r, p.x) == (if Accepts(p.x, c.x) then c.x else Load(s, p.x))
      && Load(r, p.y) == (if Accepts(p.y, c.y) then c.y else Load(s, p.y))
      && Load(r, p.wheel) == (if Accepts(p.wheel, c.wheel) then c.wheel else Load(s, p.wheel))
      && Load(r, p.pan) == (if Accepts(p.pan, c.pan) then c.pan else Load(s, p.pan))
  {
    var s1 := Store(s, p.x, c.x);
    var s2 := Store(s1, p.y, c.y);
    var s3 := Store(s2, p.wheel, c.wheel);
    AxisStored(s, p.x, c.x);
    LoadStoreOther(s1, p.y, c.y, p.x);
    LoadStoreOther(s2, p.wheel, c.wheel, p.x);
    LoadStoreOther(s3, p.pan, c.pan, p.x);
    AxisStored(s1, p.y, c.y);
    LoadStoreOther(s, p.x, c.x, p.y);
    LoadStoreOther(s2, p.wheel, c.wheel, p.y);
    LoadStoreOther(s3, p.pan, c.pan, p.y);
    AxisStored(s2, p.wheel, c.wheel);
    LoadStoreOther(s, p.x, c.x, p.wheel);
    LoadStoreOther(s1, p.y, c.y, p.wheel);
    LoadStoreOther(s3, p.pan, c.pan, p.wheel);
    AxisStored(s3, p.pan, c.pan);
    LoadStoreOther(s, p.x, c.x, p.pan);
    LoadStoreOther(s1, p.y, c.y, p.pan);
    LoadStoreOther(s2, p.wheel, c.wheel, p.pan);
  }

  lemma StoreAxesFrame(s: seq<byte>, p: Profile, c: Command, g: Field)
    requires Inside(p.x, |s|) && Inside(p.y, |s|) && Inside(p.wheel, |s|) && Inside(p.pan, |s|)
    requires Inside(g, |s|)
    requires Disjoint(p.x, g) && Disjoint(p.y, g) && Disjoint(p.wheel, g) && Disjoint(p.pan, g)
    ensures Load(StoreAxes(s, p, c), g) == Load(s, g)
  {
    var s1 := Store(s, p.x, c.x);
    var s2 := Store(s1, p.y, c.y);
    LoadStoreOther(s, p.x, c.x, g);
    LoadStoreOther(s1, p.y, c.y, g);
    LoadStoreOther(s2, p.wheel, c.wheel, g);
    LoadStoreOther(Store(s2, p.wheel, c.wheel), p.pan, c.pan, g);
  }

  lemma StoreAxesKeepsBit(s: seq<byte>, p: Profile, c: Command, j: int)
    requires Inside(p.x, |s|) && Inside(p.y, |s|) && Inside(p.wheel, |s|) && Inside(p.pan, |s|)
    requires 0 <= j < 8 * |s|
    requires forall f :: f in {p.x, p.y, p.wheel, p.pan} && f.bits > 0 ==> !Covers(f, j)
    ensures BitAt(StoreAxes(s, p, c), j) == BitAt(s, j)
  {
    var s1 := Store(s, p.x, c.x);
    var s2 := Store(s1, p.y, c.y);
    StoreFrame(s, p.x, c.x, j);
    StoreFrame(s1, p.y, c.y, j);
    StoreFrame(s2, p.wheel, c.wheel, j);
    StoreFrame(Store(s2, p.wheel, c.wheel), p.pan, c.pan, j);
  }

  /** Writing a mask over 0..1 buttons makes each declared button read as its mask bit. */
  lemma {:induction false} ButtonStored(s: seq<byte>, p: Profile, mask: bv8, k: nat, b: int)
    requires k <= BUTTONS && 1 <= b <= k && b in p.buttons
    requires forall j :: j in p.buttons ==> Inside(p.buttons[j], |s|) && WellFormed(p.buttons[j]) && p.buttons[j].bits == 1
    requires BinaryButtons(p)
    requires forall i, j :: i in p.buttons && j in p.buttons && i != j ==> Disjoint(p.buttons[i], p.buttons[j])
    ensures (Load(StoreButtons(s, p, mask, k), p.buttons[b]) != 0) == (mask & ButtonBit(b) != 0)
  {
    hide Load, Store, ButtonBit;
    var t := StoreButtons(s, p, mask, k - 1);
    var bit := if mask & ButtonBit(k) != 0 then 1 else 0;
    if b == k {
      LoadStore(t, p.buttons[k], bit);
    } else {
      ButtonStored(s, p, mask, k - 1, b);
      if k in p.buttons {
        LoadStoreOther(t, p.buttons[k], bit, p.buttons[b]);
      }
    }
  }

  // ---------------------------------------------------------------- main results

  /** `apply_known_fields` round trip: accepted axes and all buttons read back, other bits pass through. */
  lemma AppliedReadback(s: seq<byte>, p: Profile, c: Command)
    requires ValidProfile(p) && Fits(p, s)
    ensures var d := Decoded(Applied(s, p, c), p);
      && d.x == (if Accepts(p.x, c.x) then c.x else Load(s, p.x))
      && d.y == (if Accepts(p.y, c.y) then c.y else Load(s, p.y))
      && d.wheel == (if Accepts(p.wheel, c.wheel) then c.wheel else Load(s, p.wheel))
      && d.pan == (if Accepts(p.pan, c.pan) then c.pan else Load(s, p.pan))
    ensures BinaryButtons(p) ==> ButtonsRead(Applied(s, p, c), p, c.buttons)
    ensures forall j :: 0 <= j < 8 * |s| && Unowned(p, j) ==> BitAt(Applied(s, p, c), j) == BitAt(s, j)
  {
    hide StoreButtons, StoreAxes, Load, Pressed;
    var t := StoreAxes(s, p, c);
    StoreAxesReadback(s, p, c);
    ButtonsKeepField(t, p, c.buttons, BUTTONS, p.x);
    ButtonsKeepField(t, p, c.buttons, BUTTONS, p.y);
    ButtonsKeepField(t, p, c.buttons, BUTTONS, p.wheel);
    ButtonsKeepField(t, p, c.buttons, BUTTONS, p.pan);
    if BinaryButtons(p) {
      StoredButtonsRead(t, p, c.buttons);
    }
    forall j | 0 <= j < 8 * |s| && Unowned(p, j)
      ensures BitAt(Applied(s, p, c), j) == BitAt(s, j)
    {
      StoreAxesKeepsBit(s, p, c, j);
      ButtonsKeepBit(t, p, c.buttons, BUTTONS, j);
    }
  }

  /** Every declared 0..1 button reads as its bit of the written mask. */
  ghost predicate ButtonsRead(s: seq<byte>, p: Profile, mask: bv8)
    requires ValidProfile(p) && Fits(p, s)
  {
    forall b :: b in p.buttons ==> (Load(s, p.buttons[b]) != 0) == (mask & ButtonBit(b) != 0)
  }

  lemma StoredButtonsRead(s: seq<byte>, p: Profile, mask: bv8)
    requires ValidProfile(p) && Fits(p, s) && BinaryButtons(p)
    ensures ButtonsRead(WithButtons(s, p, mask), p, mask)
  {
    forall b | b in p.buttons
      ensures (Load(WithButtons(s, p, mask), p.buttons[b]) != 0) == (mask & ButtonBit(b) != 0)
    {
      ButtonStored(s, p, mask, BUTTONS, b);
    }
  }

  /** The axis list is untouched by the order in which accepted values are written. */
  lemma AcceptedAxesAreAllWritten(s: seq<byte>, p: Profile, c: Command)
    requires Inside(p.x, |s|) && Inside(p.y, |s|) && Inside(p.wheel, |s|) && Inside(p.pan, |s|)
    requires AxesAccept(p, c)
    ensures StoreAxesWhileAccepted(s, p, c) == StoreAxes(s, p, c)
  {
  }

  lemma StoreAxesKeepButtons(s: seq<byte>, p: Profile, c: Command, mask: bv8)
    requires ValidProfile(p) && Fits(p, s) && ButtonsRead(s, p, mask)
    ensures ButtonsRead(StoreAxes(s, p, c), p, mask)
  {
    forall b | b in p.buttons
      ensures Load(StoreAxes(s, p, c), p.buttons[b]) == Load(s, p.buttons[b])
    {
      StoreAxesFrame(s, p, c, p.buttons[b]);
    }
  }

  /** Encode then decode returns an in-range command and the supported buttons. */
  lemma EncodedReadback(s: seq<byte>, p: Profile, c: Command)
    requires ValidProfile(p) && Fits(p, s) && AxesAccept(p, c)
    ensures var d := Decoded(Encoded(s, p, c), p);
      && d.x == c.x && d.y == c.y && d.wheel == c.wheel && d.pan == c.pan
    ensures BinaryButtons(p) ==> ButtonsRead(Encoded(s, p, c), p, c.buttons)
  {
    var b := WithButtons(ZeroRelative(s, p, |p.relative|), p, c.buttons);
    AcceptedAxesAreAllWritten(b, p, c);
    StoreAxesReadback(b, p, c);
    if BinaryButtons(p) {
      StoredButtonsRead(ZeroRelative(s, p, |p.relative|), p, c.buttons);
      StoreAxesKeepButtons(b, p, c, c.buttons);
    }
  }

  /** A relative field that is neither axis nor button comes out of `encode` as zero. */
  lemma EncodedZeroesOtherRelative(s: seq<byte>, p: Profile, c: Command, i: nat)
    requires ValidProfile(p) && Fits(p, s) && AxesAccept(p, c) && i < |p.relative|
    requires var g := p.relative[i]; g !in {p.x, p.y, p.wheel, p.pan} && ButtonsApart(p, g)
    ensures Load(Encoded(s, p, c), p.relative[i]) == 0
  {
    var g := p.relative[i];
    var z := ZeroRelative(s, p, |p.relative|);
    RelativeZeroed(s, p, |p.relative|, i);
    ButtonsKeepField(z, p, c.buttons, BUTTONS, g);
    var b := WithButtons(z, p, c.buttons);
    AcceptedAxesAreAllWritten(b, p, c);
    OtherRelativeApart(p, p.x, i);
    OtherRelativeApart(p, p.y, i);
    OtherRelativeApart(p, p.wheel, i);
    OtherRelativeApart(p, p.pan, i);
    StoreAxesFrame(b, p, c, g);
  }

  lemma OtherRelativeApart(p: Profile, f: Field, i: nat)
    requires ValidProfile(p) && i < |p.relative| && f in {p.x, p.y, p.wheel, p.pan} && f != p.relative[i]
    ensures Disjoint(f, p.relative[i])
  {
    if f.bits > 0 {
      var j :| 0 <= j < |p.relative| && p.relative[j] == f;
      if j < i {
        assert Disjoint(p.relative[j], p.relative[i]);
      } else {
        assert Disjoint(p.relative[i], p.relative[j]);
      }
    }
  }

  /** `encode` changes no bit outside the relative fields, the axes and the buttons. */
  lemma EncodedKeepsOtherBits(s: seq<byte>, p: Profile, c: Command, j: int)
    requires ValidProfile(p) && Fits(p, s) && AxesAccept(p, c) && 0 <= j < 8 * |s|
    requires Unowned(p, j) && forall i :: 0 <= i < |p.relative| ==> !Covers(p.relative[i], j)
    ensures BitAt(Encoded(s, p, c), j) == BitAt(s, j)
  {
    var z := ZeroRelative(s, p, |p.relative|);
    RelativeKeepsBit(s, p, |p.relative|, j);
    ButtonsKeepBit(z, p, c.buttons, BUTTONS, j);
    var b := WithButtons(z, p, c.buttons);
    AcceptedAxesAreAllWritten(b, p, c);
    StoreAxesKeepsBit(b, p, c, j);
  }

  /** A one-bit button reads back as written exactly when its range allows 1, or the bit was already set. */
  lemma ButtonReadsBackIff(s: seq<byte>, f: Field, down: bool)
    requires f.bits == 1 && WellFormed(f) && Inside(f, |s|) && f.minimum <= 0 <= f.maximum
    ensures var value := if down then 1 else 0;
      (Load(Store(s, f, value), f) != 0) == down <==> value <= f.maximum || Load(s, f) != 0
  {
    var value := if down then 1 else 0;
    if Accepts(f, value) {
      LoadStore(s, f, value);
      hide Load, Store;
    } else {
      assert Store(s, f, value) == s;
      hide Load;
    }
  }
}
