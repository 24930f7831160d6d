/** A mouse whose button has the logical range -1..0: its report descriptor is accepted, and its button never goes down. */
module SignedButtons {
  import opened Common
  import opened HidReport
  import opened MouseLayout
  import opened Descriptor

  /** A short item with one byte of data. */
  datatype Short = Short(prefix: octet, value: octet)

  function Bytes(items: seq<Short>): seq<octet> {
    if items == [] then [] else [items[0].prefix, items[0].value] + Bytes(items[1..])
  }

  /** What the items make of the parser. */
  function After(s: Parser, items: seq<Short>): Option<Parser>
    decreases |items|
  {
    if items == [] then Some(s)
    else
      var next := Item(s, items[0].prefix, items[0].value, 1);
      if next.None? then None else After(next.value, items[1..])
  }

  predicate AllShort(items: seq<Short>) {
    forall i :: 0 <= i < |items| ==> items[i].prefix % 4 == 1
  }

  lemma {:induction false} BytesAreItems(s: Parser, items: seq<Short>)
    requires AllShort(items) && After(s, items).Some?
    ensures Items(s, Bytes(items), 0) == After(s, items)
    decreases |items|
  {
    hide Item, Items;
    if items == [] {
      NoItems(s);
    } else {
      var prefix, value, rest := items[0].prefix, items[0].value, items[1..];
      OneItem(s, prefix, [value]);
      OneByte(value);
      assert [prefix] + [value] == [prefix, value];
      BytesAreItems(Item(s, prefix, value, 1).value, rest);
      ItemsJoin(s, [prefix, value], Bytes(rest), 0);
    }
  }

  lemma NoItems(s: Parser)
    ensures Items(s, [], 0) == Some(s)
  {
  }

  lemma OneByte(value: octet)
    ensures ItemValue([value]) == value
  {
    assert [value][1..] == [];
  }

  lemma {:induction false} AfterBoth(s: Parser, a: seq<Short>, b: seq<Short>)
    requires After(s, a).Some?
    ensures After(s, a + b) == After(After(s, a).value, b)
    decreases |a|
  {
    hide Item;
    if a == [] {
      assert a + b == b;
    } else {
      assert (a + b)[1..] == a[1..] + b;
      AfterBoth(Item(s, a[0].prefix, a[0].value, 1).value, a[1..], b);
    }
  }

  // ---------------------------------------------------------------- the descriptor

  /** Generic desktop, mouse, application collection. */
  function Opening(): seq<Short> { [Short(0x05, 0x01), Short(0x09, 0x02), Short(0xa1, 0x01)] }

  /** Button page, button 1, range -1..0, one bit. */
  function ButtonSetup(): seq<Short> {
    [Short(0x05, 0x09), Short(0x09, 0x01), Short(0x15, 0xff), Short(0x25, 0x00), Short(0x75, 0x01), Short(0x95, 0x01)]
  }

  /** X and Y, range -127..127, two fields of eight bits. */
  function AxisSetup(): seq<Short> {
    [Short(0x05, 0x01), Short(0x09, 0x30), Short(0x09, 0x31), Short(0x15, 0x81), Short(0x25, 0x7f), Short(0x75, 0x08),
     Short(0x95, 0x02)]
  }

  /** Input: data, variable, absolute; input: data, variable, relative. */
  function ButtonInput(): seq<Short> { [Short(0x81, 0x02)] }

  function AxisInput(): seq<Short> { [Short(0x81, 0x06)] }

  function Description(): seq<octet> {
    Bytes(Opening() + ButtonSetup() + ButtonInput() + AxisSetup() + AxisInput()) + [0xc0]
  }

  function SignedButton(): Field { Field(0, 1, -1, 0) }

  function MouseX(): Field { Field(1, 8, -127, 127) }

  function MouseY(): Field { Field(9, 8, -127, 127) }

  function SignedMouse(): Profile {
    Profile(0, 3, MouseX(), MouseY(), Absent, Absent, map[1 := SignedButton()], [MouseX(), MouseY()])
  }

  // ---------------------------------------------------------------- what the parser makes of it

  function InCollection(): Parser { Start.(g := NoGlobals.(page := 1), collections := [true]) }

  lemma Opens()
    ensures After(Start, Opening()) == Some(InCollection())
  {
    var s1 := Start.(g := NoGlobals.(page := 1));
    var s2 := s1.(usages := NoUsages.(listed := [GENERIC_MOUSE]));
    assert [] + [GENERIC_MOUSE] == [GENERIC_MOUSE] && [] + [true] == [true];
    assert Item(Start, 0x05, 0x01, 1) == Some(s1);
    assert Item(s1, 0x09, 0x02, 1) == Some(s2);
    assert Item(s2, 0xa1, 0x01, 1) == Some(InCollection());
    hide Item;
    ThreeItems(Start, Short(0x05, 0x01), Short(0x09, 0x02), Short(0xa1, 0x01));
  }

  lemma ThreeItems(s: Parser, a: Short, b: Short, c: Short)
    ensures var s1 := Item(s, a.prefix, a.value, 1);
      s1.Some? ==>
        var s2 := Item(s1.value, b.prefix, b.value, 1);
        s2.Some? ==> Item(s2.value, c.prefix, c.value, 1).Some? ==>
          After(s, [a, b, c]) == Item(s2.value, c.prefix, c.value, 1)
  {
    hide Item;
    assert [a, b, c][1..] == [b, c] && [b, c][1..] == [c] && [c][1..] == [];
    var s1 := Item(s, a.prefix, a.value, 1);
    if s1.Some? {
      var s2 := Item(s1.value, b.prefix, b.value, 1);
      if s2.Some? && Item(s2.value, c.prefix, c.value, 1).Some? {
        assert After(s2.value, [c]) == Item(s2.value, c.prefix, c.value, 1);
        assert After(s1.value, [b, c]) == After(s2.value, [c]);
      }
    }
  }

  function ButtonGlobals(): Globals { Globals(9, 1, 1, 0, -1, 0) }

  function ButtonReady(): Parser {
    InCollection().(g := ButtonGlobals(), usages := NoUsages.(listed := [0x90001]))
  }

  lemma ButtonIsSetUp()
    ensures After(InCollection(), ButtonSetup()) == Some(ButtonReady())
  {
    var s0 := InCollection();
    var s1 := s0.(g := s0.g.(page := 9));
    var s2 := s1.(usages := NoUsages.(listed := [0x90001]));
    var s3 := s2.(g := s2.g.(min := -1));
    var s4 := s3.(g := s3.g.(max := 0));
    var s5 := s4.(g := s4.g.(size := 1));
    assert [] + [0x90001] == [0x90001];
    assert Item(s0, 0x05, 0x09, 1) == Some(s1);
    assert Item(s1, 0x09, 0x01, 1) == Some(s2);
    assert Item(s2, 0x15, 0xff, 1) == Some(s3);
    assert Item(s3, 0x25, 0x00, 1) == Some(s4);
    assert Item(s4, 0x75, 0x01, 1) == Some(s5);
    assert Item(s5, 0x95, 0x01, 1) == Some(ButtonReady());
    hide Item;
    ThreeItems(s0, Short(0x05, 0x09), Short(0x09, 0x01), Short(0x15, 0xff));
    ThreeItems(s3, Short(0x25, 0x00), Short(0x75, 0x01), Short(0x95, 0x01));
    var a, b := [Short(0x05, 0x09), Short(0x09, 0x01), Short(0x15, 0xff)], [Short(0x25, 0x00), Short(0x75, 0x01), Short(0x95, 0x01)];
    AfterBoth(s0, a, b);
    assert ButtonSetup() == a + b;
  }

  function ButtonRead(): Parser {
    InCollection().(g := ButtonGlobals(), offsets := map[0 := 1],
                    profiles := map[0 := Profile(0, 1, Absent, Absent, Absent, Absent, map[1 := SignedButton()], [])])
  }

  lemma Powers()
    ensures Pow2(0) == 1 && Pow2(1) == 2 && Pow2(7) == 128 && Pow2(8) == 256
  {
    assert Pow2(2) == 4 && Pow2(3) == 8 && Pow2(4) == 16 && Pow2(5) == 32 && Pow2(6) == 64;
  }

  /** The parser takes the button: its limits fit the two's complement of one bit. */
  lemma ButtonIsRead()
    ensures After(ButtonReady(), ButtonInput()) == Some(ButtonRead())
  {
    var s, v := ButtonReady(), 2;
    Powers();
    hide Pow2;
    var empty := Profile(0, 0, Absent, Absent, Absent, Absent, map[], []);
    var r := empty.(buttons := map[1 := SignedButton()]);
    assert AddOne(empty, s.g, v, 0x90001, true, 0) == Some(r);
    assert UsageAt(s.usages, 0) == 0x90001;
    OneField(empty, s.g, v, s.usages, 0);
    hide AddOne, UsageAt, AddFields;
    assert map[][0 := r.(size := 1)] == map[0 := r.(size := 1)] && map[][0 := 1] == map[0 := 1];
    assert s.shared + {} == {};
    assert InputItem(s, v) == Some(ButtonRead().(usages := s.usages));
    hide InputItem;
    assert Item(s, 0x81, 0x02, 1) == Some(ButtonRead());
    hide Item;
    OneStep(s, Short(0x81, 0x02));
  }

  lemma OneStep(s: Parser, a: Short)
    ensures Item(s, a.prefix, a.value, 1).Some? ==> After(s, [a]) == Item(s, a.prefix, a.value, 1)
  {
    hide Item;
    assert [a][1..] == [];
  }

  lemma OneField(r: Profile, g: Globals, v: int, u: Usages, off: int)
    ensures AddFields(r, g, v, u, true, off, 1) == AddOne(r, g, v, UsageAt(u, 0), true, off)
  {
    hide AddOne;
    assert g.size * 0 == 0;
    assert AddFields(r, g, v, u, true, off, 0) == Some(r);
  }

  function AxisGlobals(): Globals { Globals(1, 8, 2, 0, -127, 127) }

  function AxesReady(): Parser {
    ButtonRead().(g := AxisGlobals(), usages := NoUsages.(listed := [USAGE_X, USAGE_Y]))
  }

  lemma AxesAreSetUp()
    ensures After(ButtonRead(), AxisSetup()) == Some(AxesReady())
  {
    var s0 := ButtonRead();
    var s1 := s0.(g := s0.g.(page := 1));
    var s2 := s1.(usages := NoUsages.(listed := [USAGE_X]));
    var s3 := s2.(usages := NoUsages.(listed := [USAGE_X, USAGE_Y]));
    var s4 := s3.(g := s3.g.(min := -127));
    var s5 := s4.(g := s4.g.(max := 127));
    var s6 := s5.(g := s5.g.(size := 8));
    assert [] + [USAGE_X] == [USAGE_X] && [USAGE_X] + [USAGE_Y] == [USAGE_X, USAGE_Y];
    assert Item(s0, 0x05, 0x01, 1) == Some(s1);
    assert Item(s1, 0x09, 0x30, 1) == Some(s2);
    assert Item(s2, 0x09, 0x31, 1) == Some(s3);
    assert Item(s3, 0x15, 0x81, 1) == Some(s4);
    assert Item(s4, 0x25, 0x7f, 1) == Some(s5);
    assert Item(s5, 0x75, 0x08, 1) == Some(s6);
    assert Item(s6, 0x95, 0x02, 1) == Some(AxesReady());
    hide Item;
    ThreeItems(s0, Short(0x05, 0x01), Short(0x09, 0x30), Short(0x09, 0x31));
    ThreeItems(s3, Short(0x15, 0x81), Short(0x25, 0x7f), Short(0x75, 0x08));
    OneStep(s6, Short(0x95, 0x02));
    var a, b := [Short(0x05, 0x01), Short(0x09, 0x30), Short(0x09, 0x31)], [Short(0x15, 0x81), Short(0x25, 0x7f), Short(0x75, 0x08)];
    AfterBoth(s0, a, b);
    AfterBoth(s0, a + b, [Short(0x95, 0x02)]);
    assert AxisSetup() == a + b + [Short(0x95, 0x02)];
  }

  function AllRead(): Parser {
    InCollection().(g := AxisGlobals(), offsets := map[0 := 17], profiles := map[0 := SignedMouse()])
  }

  lemma AxesAreRead()
    ensures After(AxesReady(), AxisInput()) == Some(AllRead())
  {
    var s, v := AxesReady(), 6;
    Powers();
    hide Pow2;
    var r0 := ButtonRead().profiles[0];
    var r1 := r0.(x := MouseX(), relative := [MouseX()]);
    var r2 := r1.(y := MouseY(), relative := [MouseX(), MouseY()]);
    assert [] + [MouseX()] == [MouseX()] && [MouseX()] + [MouseY()] == [MouseX(), MouseY()];
    assert AddOne(r0, s.g, v, USAGE_X, true, 1) == Some(r1);
    assert AddOne(r1, s.g, v, USAGE_Y, true, 9) == Some(r2);
    assert UsageAt(s.usages, 0) == USAGE_X && UsageAt(s.usages, 1) == USAGE_Y;
    hide AddOne, UsageAt;
    TwoFields(r0, s.g, v, s.usages, 1, r1);
    hide AddFields;
    assert s.profiles[0 := r2.(size := 3)] == map[0 := SignedMouse()];
    assert s.offsets[0 := 17] == map[0 := 17];
    assert s.shared + {} == {};
    assert InputItem(s, v) == Some(AllRead().(usages := s.usages));
    hide InputItem;
    assert Item(s, 0x81, 0x06, 1) == Some(AllRead());
    hide Item;
    OneStep(s, Short(0x81, 0x06));
  }

  lemma TwoFields(r: Profile, g: Globals, v: int, u: Usages, off: int, r1: Profile)
    requires AddOne(r, g, v, UsageAt(u, 0), true, off) == Some(r1) && g.size == 8
    ensures AddFields(r, g, v, u, true, off, 2) == AddOne(r1, g, v, UsageAt(u, 1), true, off + 8)
  {
    OneField(r, g, v, u, off);
    hide AddOne;
  }

  // ---------------------------------------------------------------- what comes of it

  lemma DescriptionIsRead()
    ensures Items(Start, Description(), 0) == Some(AllRead().(collections := []))
  {
    hide Items, Item, After, Bytes;
    Opens();
    ButtonIsSetUp();
    ButtonIsRead();
    AxesAreSetUp();
    AxesAreRead();
    AfterBoth(Start, Opening(), ButtonSetup());
    AfterBoth(Start, Opening() + ButtonSetup(), ButtonInput());
    AfterBoth(Start, Opening() + ButtonSetup() + ButtonInput(), AxisSetup());
    AfterBoth(Start, Opening() + ButtonSetup() + ButtonInput() + AxisSetup(), AxisInput());
    var items := Opening() + ButtonSetup() + ButtonInput() + AxisSetup() + AxisInput();
    BytesAreItems(Start, items);
    ItemsJoin(Start, Bytes(items), [0xc0], 0);
    Closes();
  }

  lemma Closes()
    ensures Items(AllRead(), [0xc0], 0) == Some(AllRead().(collections := []))
  {
    hide Items, Item;
    OneItem(AllRead(), 0xc0, []);
    assert [0xc0] + [] == [0xc0];
    CloseMeans();
  }

  lemma CloseMeans()
    ensures Item(AllRead(), 0xc0, ItemValue([]), ItemLength(0xc0)) == Some(AllRead().(collections := []))
  {
    assert [true][..0] == [];
  }

  lemma {:induction false} OneLayout(s: Parser, p: Profile, n: nat)
    requires s.profiles == map[0 := p] && Selectable(s, 0) && n > 0
    ensures Select(s, n) == [p]
  {
    hide Selectable;
    if n > 1 {
      OneLayout(s, p, n - 1);
      OnlyZero(s, p, n - 1);
    } else {
      assert Select(s, 0) == [];
    }
  }

  lemma OnlyZero(s: Parser, p: Profile, id: int)
    requires s.profiles == map[0 := p] && id != 0
    ensures !Selectable(s, id)
  {
  }

  /** The descriptor is accepted, and its one layout has the button. */
  lemma SignedMouseIsParsed()
    ensures Parse(Description()) == [SignedMouse()]
  {
    hide Items, Description;
    DescriptionIsRead();
    var s := AllRead().(collections := []);
    ButtonIsDeclared(s);
    OneLayout(s, SignedMouse(), 256);
    hide Select;
  }

  lemma ButtonIsDeclared(s: Parser)
    requires s == AllRead().(collections := [])
    ensures Selectable(s, 0)
  {
    assert 1 in SignedMouse().buttons;
  }

  /** Whatever mask is written, the button of that layout keeps its bit: up stays up, although 1 was asked for. */
  lemma SignedButtonStaysUp(s: seq<byte>, mask: bv8)
    requires |s| == 3
    ensures SignedMouse() in Parse(Description())
    ensures forall j :: j in SignedMouse().buttons ==> Inside(SignedMouse().buttons[j], |s|)
    ensures Load(s, SignedButton()) == 0 ==> Load(WithButtons(s, SignedMouse(), mask), SignedButton()) == 0
  {
    SignedMouseIsParsed();
    hide Parse, Description;
    var p := SignedMouse();
    assert forall j :: j in p.buttons ==> j == 1;
    OnlyButtonStored(s, p, mask, BUTTONS);
    if mask & ButtonBit(1) == 0 {
      ButtonReadsBackIff(s, SignedButton(), false);
    } else {
      ButtonReadsBackIff(s, SignedButton(), true);
    }
    hide Load, Store;
  }

  lemma {:induction false} OnlyButtonStored(s: seq<byte>, p: Profile, mask: bv8, k: nat)
    requires 1 <= k <= BUTTONS && p.buttons.Keys == {1} && Inside(p.buttons[1], |s|)
    ensures forall j :: j in p.buttons ==> j == 1
    ensures StoreButtons(s, p, mask, k) == Store(s, p.buttons[1], if mask & ButtonBit(1) != 0 then 1 else 0)
  {
    assert forall j :: j in p.buttons ==> j in {1};
    if k > 1 {
      OnlyButtonStored(s, p, mask, k - 1);
    } else {
      assert StoreButtons(s, p, mask, 0) == s;
    }
    hide Store;
  }
}
