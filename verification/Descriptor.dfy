/** The HID report descriptor parser: short items, global push/pop, report IDs, usages, collections. */
module Descriptor {
  import opened Common
  import opened HidReport
  import opened MouseLayout

  datatype Globals = Globals(page: int, size: int, count: int, id: int, min: int, max: int)

  const GENERIC_MOUSE := 0x10002
  const USAGE_X := 0x10030
  const USAGE_Y := 0x10031
  const USAGE_WHEEL := 0x10038
  const USAGE_PAN := 0xc0238
  const BUTTON_PAGE := 9
  const MAX_REPORT_BITS := 32768
  const WORD := 0x1_0000_0000

  const NoGlobals: Globals := Globals(0, 0, 0, 0, 0, 0)

  /** `int(v)` of a 32-bit pattern. */
  function Signed32(v: int): int {
    if v < 0x8000_0000 then v else v - WORD
  }

  /** The item value sign-extended from its own length. */
  function SignedItem(v: int, length: int): int {
    if length == 1 && v >= 0x80 then v - 0x100
    else if length == 2 && v >= 0x8000 then v - 0x10000
    else Signed32(v)
  }

  function ItemLength(prefix: octet): int {
    if prefix % 4 == 3 then 4 else prefix % 4
  }

  /** Little-endian value of up to four bytes. */
  function ItemValue(data: seq<octet>): (v: int)
    ensures 0 <= v
  {
    if data == [] then 0 else data[0] + 0x100 * ItemValue(data[1..])
  }

  function UsageOf(page: int, v: int, length: int): int {
    if length == 4 then v else (page % 0x10000) * 0x10000 + v
  }

  datatype Usages = Usages(listed: seq<int>, low: int, high: int, range: bool)

  const NoUsages: Usages := Usages([], 0, 0, false)

  /** The usage of the `i`-th field of a main item. */
  function UsageAt(u: Usages, i: nat): int {
    if i < |u.listed| then u.listed[i]
    else if u.range && (u.low + i) % WORD <= u.high then (u.low + i) % WORD else 0
  }

  predicate Flag(v: int, bit: int)
    requires bit > 0
  {
    (v / bit) % 2 == 1
  }

  predicate Relative(v: int) { Flag(v, 4) }

  predicate Variable(v: int) { Flag(v, 2) }

  predicate Constant(v: int) { Flag(v, 1) }

  /** Limits and width a usable field must have. */
  predicate Usable(g: Globals) {
    1 <= g.size <= 16 && g.min <= 0 <= g.max && g.min < g.max
  }

  /** The limits fit the two's complement or unsigned range of `size` bits. */
  predicate Representable(g: Globals)
    requires 1 <= g.size <= 16
  {
    if g.min < 0 then -Pow2(g.size - 1) <= g.min && g.max <= Pow2(g.size - 1) - 1
    else g.max <= Pow2(g.size) - 1
  }

  /** Adds one usable data field of a mouse item to the layout; `None` rejects a second X or Y. */
  function AddField(r: Profile, usage: int, f: Field, relative: bool): Option<Profile> {
    var r1 := if relative then r.(relative := r.relative + [f]) else r;
    if relative && usage == USAGE_X then
      if r1.x.bits != 0 then None else Some(r1.(x := f))
    else if relative && usage == USAGE_Y then
      if r1.y.bits != 0 then None else Some(r1.(y := f))
    else if relative && usage == USAGE_WHEEL then Some(r1.(wheel := f))
    else if relative && usage == USAGE_PAN then Some(r1.(pan := f))
    else if usage / 0x10000 == BUTTON_PAGE && 1 <= usage % 0x10000 <= BUTTONS && f.bits == 1 then
      Some(r1.(buttons := r1.buttons[usage % 0x10000 := f]))
    else Some(r1)
  }

  function FirstBit(id: int): int {
    if id == 0 then 0 else 8
  }

  // ---------------------------------------------------------------- partial layouts

  predicate Within(f: Field, low: int, bound: int) {
    f == Absent || (f.bits > 0 && WellFormed(f) && low <= f.offset && f.offset + f.bits <= bound)
  }

  /** A layout under construction whose fields all lie in `low .. bound`. */
  ghost predicate Building(r: Profile, low: int, bound: int) {
    && Within(r.x, low, bound) && Within(r.y, low, bound)
    && Within(r.wheel, low, bound) && Within(r.pan, low, bound)
    && AxesDisjoint(r)
    && ButtonsApart(r, r.x) && ButtonsApart(r, r.y) && ButtonsApart(r, r.wheel) && ButtonsApart(r, r.pan)
    && (forall k :: k in r.buttons ==>
          1 <= k <= BUTTONS && r.buttons[k].bits == 1 && Within(r.buttons[k], low, bound))
    && (forall j, k :: j in r.buttons && k in r.buttons && j != k ==> Disjoint(r.buttons[j], r.buttons[k]))
    && (forall i :: 0 <= i < |r.relative| ==> r.relative[i].bits > 0 && Within(r.relative[i], low, bound))
    && (forall i, j :: 0 <= i < j < |r.relative| ==> Disjoint(r.relative[i], r.relative[j]))
    && (r.x.bits > 0 ==> r.x in r.relative) && (r.y.bits > 0 ==> r.y in r.relative)
    && (r.wheel.bits > 0 ==> r.wheel in r.relative) && (r.pan.bits > 0 ==> r.pan in r.relative)
  }

  lemma EmptyIsBuilding(id: int, low: int, bound: int)
    ensures Building(Profile(id, 0, Absent, Absent, Absent, Absent, map[], []), low, bound)
  {
  }

  lemma BuildingGrows(r: Profile, low: int, bound: int, wider: int)
    requires Building(r, low, bound) && bound <= wider
    ensures Building(r, low, wider)
  {
  }

  /** `f` is a proper field past everything below `bound`. */
  predicate Next(f: Field, low: int, bound: int) {
    low <= bound <= f.offset && f.bits > 0 && WellFormed(f)
  }

  function Append(r: Profile, f: Field): Profile {
    r.(relative := r.relative + [f])
  }

  lemma NextIsBeyond(f: Field, low: int, bound: int)
    requires Next(f, low, bound)
    ensures bound <= f.offset + f.bits
  {
  }

  lemma BelowNext(g: Field, f: Field, low: int, bound: int)
    requires Within(g, low, bound) && Next(f, low, bound)
    ensures Disjoint(g, f) && Within(f, low, f.offset + f.bits)
  {
  }

  lemma AppendBuilds(r: Profile, low: int, bound: int, f: Field)
    requires Building(r, low, bound) && Next(f, low, bound)
    ensures Building(Append(r, f), low, f.offset + f.bits)
  {
    hide WellFormed, Disjoint, Within, Next, ButtonsApart, AxesDisjoint;
    NextIsBeyond(f, low, bound);
    BuildingGrows(r, low, bound, f.offset + f.bits);
    BelowNext(r.x, f, low, bound);
    var next := Append(r, f);
    forall i | 0 <= i < |r.relative|
      ensures Disjoint(r.relative[i], f)
    {
      BelowNext(r.relative[i], f, low, bound);
    }
    assert forall i :: 0 <= i < |r.relative| ==> next.relative[i] == r.relative[i];
    forall i | 0 <= i < |next.relative|
      ensures next.relative[i].bits > 0 && Within(next.relative[i], low, f.offset + f.bits)
    {
      NextHasBits(f, low, bound);
    }
    forall g | g in r.relative
      ensures g in next.relative
    {
    }
    SameButtons(r, next);
  }

  lemma NextHasBits(f: Field, low: int, bound: int)
    requires Next(f, low, bound)
    ensures f.bits > 0
  {
  }

  lemma SameButtons(r: Profile, next: Profile)
    requires next == r.(relative := next.relative)
    ensures AxesDisjoint(next) == AxesDisjoint(r) && forall f :: ButtonsApart(next, f) == ButtonsApart(r, f)
  {
  }

  lemma SetXBuilds(r: Profile, low: int, bound: int, f: Field)
    requires Building(r, low, bound) && Next(f, low, bound)
    ensures Building(Append(r, f).(x := f), low, f.offset + f.bits)
  {
    hide WellFormed;
    AppendBuilds(r, low, bound, f);
    assert f == Append(r, f).relative[|r.relative|];
  }

  lemma SetYBuilds(r: Profile, low: int, bound: int, f: Field)
    requires Building(r, low, bound) && Next(f, low, bound)
    ensures Building(Append(r, f).(y := f), low, f.offset + f.bits)
  {
    hide WellFormed;
    AppendBuilds(r, low, bound, f);
    assert f == Append(r, f).relative[|r.relative|];
  }

  lemma SetWheelBuilds(r: Profile, low: int, bound: int, f: Field)
    requires Building(r, low, bound) && Next(f, low, bound)
    ensures Building(Append(r, f).(wheel := f), low, f.offset + f.bits)
  {
    hide WellFormed;
    AppendBuilds(r, low, bound, f);
    assert f == Append(r, f).relative[|r.relative|];
  }

  lemma SetPanBuilds(r: Profile, low: int, bound: int, f: Field)
    requires Building(r, low, bound) && Next(f, low, bound)
    ensures Building(Append(r, f).(pan := f), low, f.offset + f.bits)
  {
    hide WellFormed;
    AppendBuilds(r, low, bound, f);
    assert f == Append(r, f).relative[|r.relative|];
  }

  lemma SetButtonBuilds(r: Profile, low: int, bound: int, f: Field, k: int)
    requires Building(r, low, bound) && Next(f, low, bound) && f.bits == 1 && 1 <= k <= BUTTONS
    ensures Building(r.(buttons := r.buttons[k := f]), low, f.offset + f.bits)
  {
    hide WellFormed, Disjoint, Within, Next, AxesDisjoint;
    NextIsBeyond(f, low, bound);
    BuildingGrows(r, low, bound, f.offset + f.bits);
    BelowNext(r.x, f, low, bound);
    ApartFromNext(r.x, f, low, bound);
    ApartFromNext(r.y, f, low, bound);
    ApartFromNext(r.wheel, f, low, bound);
    ApartFromNext(r.pan, f, low, bound);
    forall j | j in r.buttons
      ensures Disjoint(r.buttons[j], f) && Disjoint(f, r.buttons[j])
    {
      ApartFromNext(r.buttons[j], f, low, bound);
    }
    SameButtons(r, r.(relative := r.relative));
    AxesStay(r, r.(buttons := r.buttons[k := f]));
  }

  lemma ApartFromNext(g: Field, f: Field, low: int, bound: int)
    requires Within(g, low, bound) && Next(f, low, bound)
    ensures Disjoint(g, f) && Disjoint(f, g)
  {
    hide WellFormed;
  }

  lemma AxesStay(r: Profile, next: Profile)
    requires next == r.(buttons := next.buttons)
    ensures AxesDisjoint(next) == AxesDisjoint(r)
  {
  }

  lemma SetRelativeButtonBuilds(r: Profile, low: int, bound: int, f: Field, k: int)
    requires Building(r, low, bound) && Next(f, low, bound) && f.bits == 1 && 1 <= k <= BUTTONS
    ensures Building(Append(r, f).(buttons := r.buttons[k := f]), low, f.offset + f.bits)
  {
    hide WellFormed;
    AppendBuilds(r, low, bound, f);
    SetButtonBuilds(r, low, bound, f, k);
  }

  /** A relative field that becomes an axis, or none. */
  lemma AddRelativeBuilds(r: Profile, low: int, bound: int, usage: int, f: Field)
    requires Building(r, low, bound) && Next(f, low, bound)
    ensures var next := AddField(r, usage, f, true);
      next.Some? ==> Building(next.value, low, f.offset + f.bits) && next.value.id == r.id
  {
    hide Building, Next;
    AppendBuilds(r, low, bound, f);
    SetXBuilds(r, low, bound, f);
    SetYBuilds(r, low, bound, f);
    SetWheelBuilds(r, low, bound, f);
    SetPanBuilds(r, low, bound, f);
    var k := usage % 0x10000;
    if f.bits == 1 && 1 <= k <= BUTTONS {
      SetRelativeButtonBuilds(r, low, bound, f, k);
    }
  }

  /** A field placed past everything seen so far keeps the layout's fields apart. */
  lemma AddFieldBuilds(r: Profile, low: int, bound: int, usage: int, f: Field, relative: bool)
    requires Building(r, low, bound) && Next(f, low, bound)
    ensures var next := AddField(r, usage, f, relative);
      next.Some? ==> Building(next.value, low, f.offset + f.bits) && next.value.id == r.id
  {
    hide Building, Next;
    if relative {
      AddRelativeBuilds(r, low, bound, usage, f);
    } else {
      NextIsBeyond(f, low, bound);
      BuildingGrows(r, low, bound, f.offset + f.bits);
      var k := usage % 0x10000;
      if f.bits == 1 && 1 <= k <= BUTTONS {
        SetButtonBuilds(r, low, bound, f, k);
      }
    }
  }

  lemma UsableIsWellFormed(g: Globals, offset: int)
    requires Usable(g) && Representable(g)
    ensures WellFormed(Field(offset, g.size, g.min, g.max))
  {
    assert Pow2(g.size) == 2 * Pow2(g.size - 1);
  }

  lemma FinishedIsValid(r: Profile, bound: int)
    requires 0 <= r.id <= 255 && Building(r, FirstBit(r.id), bound)
    requires 0 <= bound && r.size == (bound + 7) / 8
    ensures ValidProfile(r) && PastReportId(r)
  {
    hide WellFormed;
    assert bound <= 8 * r.size;
    assert forall f {:trigger Within(f, FirstBit(r.id), bound)} ::
        Within(f, FirstBit(r.id), bound) ==> ValidField(f, r.size) by {
      AbsentIsWellFormed();
    }
  }

  lemma AbsentIsWellFormed()
    ensures WellFormed(Absent)
  {
  }

  // ---------------------------------------------------------------- items

  /** Everything the parser carries from one item to the next. */
  datatype Parser = Parser(
    g: Globals, stack: seq<Globals>, collections: seq<bool>,
    profiles: map<int, Profile>, offsets: map<int, int>, shared: set<int>, usages: Usages)

  const Start: Parser := Parser(NoGlobals, [], [], map[], map[], {}, NoUsages)

  function GlobalItem(g: Globals, tag: int, v: int, length: int): Globals {
    var sv := SignedItem(v, length);
    if tag == 0 then g.(page := Signed32(v))
    else if tag == 1 then g.(min := sv)
    else if tag == 2 then g.(max := if g.min < 0 then sv else Signed32(v))
    else if tag == 7 then g.(size := Signed32(v))
    else if tag == 8 then g.(id := Signed32(v))
    else if tag == 9 then g.(count := Signed32(v))
    else g
  }

  function LocalItem(u: Usages, tag: int, usage: int): Usages {
    if tag == 0 then u.(listed := u.listed + [usage])
    else if tag == 1 then u.(low := usage, range := true)
    else if tag == 2 then u.(high := usage)
    else u
  }

  function InMouse(collections: seq<bool>): bool {
    collections != [] && collections[|collections| - 1]
  }

  /** One field of an Input item; anything but usable mouse data only takes up room. */
  function AddOne(r: Profile, g: Globals, v: int, usage: int, mouse: bool, at: int): Option<Profile> {
    if mouse && !Constant(v) && Variable(v) && Usable(g) then
      if Representable(g) then AddField(r, usage, Field(at, g.size, g.min, g.max), Relative(v)) else None
    else Some(r)
  }

  /** The first `n` fields of an Input item that starts at bit `offset`. */
  function AddFields(r: Profile, g: Globals, v: int, usages: Usages, mouse: bool, offset: int, n: nat)
    : Option<Profile>
  {
    if n == 0 then Some(r)
    else
      var before := AddFields(r, g, v, usages, mouse, offset, n - 1);
      if before.None? then None
      else AddOne(before.value, g, v, UsageAt(usages, n - 1), mouse, offset + g.size * (n - 1))
  }

  function Cursor(offsets: map<int, int>, id: int): int {
    var off := if id in offsets then offsets[id] else 0;
    if off == 0 && id != 0 then 8 else off
  }

  function ProfileFor(profiles: map<int, Profile>, id: int): Profile {
    if id in profiles then profiles[id] else Profile(id, 0, Absent, Absent, Absent, Absent, map[], [])
  }

  function InputItem(s: Parser, v: int): Option<Parser> {
    var g := s.g;
    if g.size < 0 || g.size > 32 || g.count < 0 || g.count > 4096 then None
    else
      var off := Cursor(s.offsets, g.id);
      var end := off + g.size * g.count;
      var mouse := InMouse(s.collections);
      if end > MAX_REPORT_BITS then None
      else if mouse && !Constant(v) && Relative(v) && (!Variable(v) || !Usable(g)) then None
      else
        var r := AddFields(ProfileFor(s.profiles, g.id), g, v, s.usages, mouse, off, g.count);
        if r.None? then None
        else Some(s.(
          profiles := s.profiles[g.id := r.value.(size := (end + 7) / 8)],
          offsets := s.offsets[g.id := end],
          shared := s.shared + if !mouse && !Constant(v) then {g.id} else {}))
  }

  function MainItem(s: Parser, tag: int, v: int): Option<Parser> {
    if tag == 10 then
      var mouse := if v == 1 then s.usages.listed != [] && s.usages.listed[0] == GENERIC_MOUSE
                   else InMouse(s.collections);
      Some(s.(collections := s.collections + [mouse]))
    else if tag == 12 then
      if s.collections == [] then None else Some(s.(collections := s.collections[..|s.collections| - 1]))
    else if tag == 8 then InputItem(s, v)
    else Some(s)
  }

  /** One short item; `None` rejects the descriptor. */
  function Item(s: Parser, prefix: octet, v: int, length: int): Option<Parser> {
    var kind, tag := (prefix / 4) % 4, prefix / 16;
    if kind == 1 then
      if tag == 8 && (v == 0 || v > 255) then None
      else if tag == 10 then Some(s.(stack := s.stack + [s.g]))
      else if tag == 11 then
        if s.stack == [] then None
        else Some(s.(g := s.stack[|s.stack| - 1], stack := s.stack[..|s.stack| - 1]))
      else Some(s.(g := GlobalItem(s.g, tag, v, length)))
    else if kind == 2 then
      Some(s.(usages := LocalItem(s.usages, tag, UsageOf(s.g.page, v, length))))
    else if kind == 0 then
      var next := MainItem(s, tag, v);
      if next.None? then None else Some(next.value.(usages := NoUsages))
    else Some(s)
  }

  /** The items of `data` from byte `pos` on. */
  function Items(s: Parser, data: seq<octet>, pos: nat): Option<Parser>
    requires pos <= |data|
    decreases |data| - pos
  {
    if pos == |data| then Some(s)
    else
      var prefix := data[pos];
      var end := pos + 1 + ItemLength(prefix);
      if prefix == 0xfe || end > |data| then None
      else
        var next := Item(s, prefix, ItemValue(data[pos + 1..end]), ItemLength(prefix));
        if next.None? then None else Items(next.value, data, end)
  }

  /** A layout worth returning: both axes, a button, and no other application sharing the report. */
  predicate Selectable(s: Parser, id: int) {
    && id in s.profiles && id !in s.shared
    && s.profiles[id].x.bits != 0 && s.profiles[id].y.bits != 0 && s.profiles[id].buttons != map[]
  }

  /** The selectable layouts of report IDs below `n`, ascending. */
  function Select(s: Parser, n: nat): seq<Profile> {
    if n == 0 then []
    else Select(s, n - 1) + if Selectable(s, n - 1) then [s.profiles[n - 1]] else []
  }

  function Parse(data: seq<octet>): seq<Profile> {
    var s := Items(Start, data, 0);
    if s.None? || s.value.collections != [] || s.value.stack != [] then [] else Select(s.value, 256)
  }

  // ---------------------------------------------------------------- imperative parser

  method ParseMouseDescriptor(data: seq<octet>) returns (result: seq<Profile>)
    ensures result == Parse(data)
  {
    hide Item, Select;
    var s := Start;
    var pos := 0;
    while pos < |data|
      invariant 0 <= pos <= |data|
      invariant Items(Start, data, 0) == Items(s, data, pos)
      decreases |data| - pos
    {
      var prefix := data[pos];
      var length := ItemLength(prefix);
      if prefix == 0xfe || pos + 1 + length > |data| {
        return [];
      }
      var v := ItemValue(data[pos + 1..pos + 1 + length]);
      var next := ProcessItem(s, prefix, v, length);
      if next.None? {
        return [];
      }
      s := next.value;
      pos := pos + 1 + length;
    }
    if s.collections != [] || s.stack != [] {
      return [];
    }
    result := [];
    NextSelected(s, 0);
    for id := 0 to 256
      invariant result == Select(s, id)
    {
      NextSelected(s, id);
      if Selectable(s, id) {
        result := result + [s.profiles[id]];
      }
    }
  }

  lemma NextSelected(s: Parser, id: nat)
    ensures Select(s, 0) == []
    ensures Select(s, id + 1) == Select(s, id) + if Selectable(s, id) then [s.profiles[id]] else []
  {
  }

  /** One short item, by its kind; each kind changes its own part of the parser. */
  method ProcessItem(s: Parser, prefix: octet, v: int, length: int) returns (next: Option<Parser>)
    ensures next == Item(s, prefix, v, length)
  {
    hide InputItem;
    var kind, tag := (prefix / 4) % 4, prefix / 16;
    if kind == 1 {
      var g, stack, ok := ProcessGlobal(s.g, s.stack, tag, v, length);
      assert ok && tag == 11 ==> stack == s.stack[..|s.stack| - 1];
      return if ok then Some(s.(g := g, stack := stack)) else None;
    }
    if kind == 2 {
      var usages := ProcessLocal(s.usages, tag, UsageOf(s.g.page, v, length));
      return Some(s.(usages := usages));
    }
    if kind != 0 {
      return Some(s);
    }
    if tag == 8 {
      next := ProcessInput(s, v);
    } else {
      var collections, ok := ProcessCollection(s.collections, s.usages, tag, v);
      assert ok && tag == 10 ==> collections == s.collections + [collections[|s.collections|]];
      next := if ok then Some(s.(collections := collections)) else None;
    }
    if next.Some? {
      next := Some(next.value.(usages := NoUsages));
    }
  }

  /** The global state and the stack it is pushed on and popped from. */
  method ProcessGlobal(before: Globals, saved: seq<Globals>, tag: int, v: int, length: int)
    returns (g: Globals, stack: seq<Globals>, ok: bool)
    ensures ok <==> !(tag == 8 && (v == 0 || v > 255)) && !(tag == 11 && saved == [])
    ensures ok && tag == 10 ==> g == before && stack == saved + [before]
    ensures ok && tag == 11 ==> saved == stack + [g]
    ensures ok && tag != 10 && tag != 11 ==> g == GlobalItem(before, tag, v, length) && stack == saved
  {
    g, stack, ok := before, saved, true;
    var sv := SignedItem(v, length);
    if tag == 0 {
      g := g.(page := Signed32(v));
    } else if tag == 1 {
      g := g.(min := sv);
    } else if tag == 2 {
      g := g.(max := if g.min < 0 then sv else Signed32(v));
    } else if tag == 7 {
      g := g.(size := Signed32(v));
    } else if tag == 8 {
      if v == 0 || v > 255 {
        return g, stack, false;
      }
      g := g.(id := Signed32(v));
    } else if tag == 9 {
      g := g.(count := Signed32(v));
    } else if tag == 10 {
      stack := stack + [g];
    } else if tag == 11 {
      if stack == [] {
        return g, stack, false;
      }
      g := stack[|stack| - 1];
      stack := stack[..|stack| - 1];
    }
  }

  method ProcessLocal(before: Usages, tag: int, usage: int) returns (u: Usages)
    ensures u == LocalItem(before, tag, usage)
  {
    u := before;
    if tag == 0 {
      u := u.(listed := u.listed + [usage]);
    }
    if tag == 1 {
      u := u.(low := usage, range := true);
    }
    if tag == 2 {
      u := u.(high := usage);
    }
  }

  /** Opening and closing collections; other main items leave them. */
  method ProcessCollection(before: seq<bool>, usages: Usages, tag: int, v: int)
    returns (collections: seq<bool>, ok: bool)
    ensures ok <==> !(tag == 12 && before == [])
    ensures ok && tag == 10 ==>
      && |collections| == |before| + 1 && collections[..|before|] == before
      && collections[|before|] == (if v == 1 then usages.listed != [] && usages.listed[0] == GENERIC_MOUSE
                                   else before != [] && before[|before| - 1])
    ensures ok && tag == 12 ==> |collections| == |before| - 1 && collections == before[..|before| - 1]
    ensures ok && tag != 10 && tag != 12 ==> collections == before
  {
    collections, ok := before, true;
    if tag == 10 {
      var mouse := InMouse(collections);
      if v == 1 {
        mouse := usages.listed != [] && usages.listed[0] == GENERIC_MOUSE;
      }
      collections := collections + [mouse];
    } else if tag == 12 {
      if collections == [] {
        return collections, false;
      }
      collections := collections[..|collections| - 1];
    }
  }

  method ProcessInput(s: Parser, v: int) returns (next: Option<Parser>)
    ensures next == InputItem(s, v)
  {
    hide AddOne;
    var g := s.g;
    if g.size < 0 || g.size > 32 || g.count < 0 || g.count > 4096 {
      return None;
    }
    var off := Cursor(s.offsets, g.id);
    var end := off + g.size * g.count;
    if end > MAX_REPORT_BITS {
      return None;
    }
    var mouse := InMouse(s.collections);
    if mouse && !Constant(v) && Relative(v) && (!Variable(v) || !Usable(g)) {
      return None;
    }
    var r := Some(ProfileFor(s.profiles, g.id));
    for i := 0 to g.count
      invariant r == AddFields(ProfileFor(s.profiles, g.id), g, v, s.usages, mouse, off, i)
    {
      if r.Some? {
        r := AddOne(r.value, g, v, UsageAt(s.usages, i), mouse, off + g.size * i);
      }
    }
    if r.None? {
      return None;
    }
    return Some(s.(
      profiles := s.profiles[g.id := r.value.(size := (end + 7) / 8)],
      offsets := s.offsets[g.id := end],
      shared := s.shared + if !mouse && !Constant(v) then {g.id} else {}));
  }

  // ---------------------------------------------------------------- items in sequence

  lemma SameItem(a: seq<octet>, b: seq<octet>, pos: nat, end: nat)
    requires pos <= end <= |b|
    ensures (a + b)[|a| + pos..|a| + end] == b[pos..end]
  {
  }

  lemma {:induction false} ItemsShift(s: Parser, a: seq<octet>, b: seq<octet>, pos: nat)
    requires pos <= |b|
    ensures Items(s, a + b, |a| + pos) == Items(s, b, pos)
    decreases |b| - pos
  {
    hide Item;
    if pos < |b| {
      var prefix := b[pos];
      var end := pos + 1 + ItemLength(prefix);
      if prefix != 0xfe && end <= |b| {
        SameItem(a, b, pos + 1, end);
        var next := Item(s, prefix, ItemValue(b[pos + 1..end]), ItemLength(prefix));
        if next.Some? {
          ItemsShift(next.value, a, b, end);
        }
      }
    }
  }

  lemma {:induction false} ItemsJoin(s: Parser, a: seq<octet>, b: seq<octet>, pos: nat)
    requires pos <= |a| && Items(s, a, pos).Some?
    ensures Items(s, a + b, pos) == Items(Items(s, a, pos).value, b, 0)
    decreases |a| - pos
  {
    hide Item;
    if pos < |a| {
      var prefix := a[pos];
      var end := pos + 1 + ItemLength(prefix);
      assert (a + b)[pos + 1..end] == a[pos + 1..end];
      ItemsJoin(Item(s, prefix, ItemValue(a[pos + 1..end]), ItemLength(prefix)).value, a, b, end);
    } else {
      ItemsShift(s, a, b, 0);
    }
  }

  /** One item alone. */
  lemma OneItem(s: Parser, prefix: octet, body: seq<octet>)
    requires prefix != 0xfe && |body| == ItemLength(prefix)
    ensures Items(s, [prefix] + body, 0) == Item(s, prefix, ItemValue(body), ItemLength(prefix))
  {
    var data := [prefix] + body;
    assert data[1..|data|] == body;
    hide Item;
  }

  const PUSH: octet := 0xa4
  const POP: octet := 0xb4

  /** Whatever stands between a push and its pop, the global state is then as it was before; all else stays done. */
  lemma PopRestoresGlobals(s: Parser, body: seq<octet>)
    requires var t := Items(s.(stack := s.stack + [s.g]), body, 0); t.Some? && t.value.stack == s.stack + [s.g]
    ensures var t := Items(s.(stack := s.stack + [s.g]), body, 0).value;
      Items(s, [PUSH] + body + [POP], 0) == Some(t.(g := s.g, stack := s.stack))
  {
    hide Item, Items;
    var pushed := s.(stack := s.stack + [s.g]);
    PushItem(s);
    ItemsJoin(s, [PUSH], body, 0);
    PopItem(Items(pushed, body, 0).value, s);
    ItemsJoin(s, [PUSH] + body, [POP], 0);
  }

  lemma PushItem(s: Parser)
    ensures Items(s, [PUSH], 0) == Some(s.(stack := s.stack + [s.g]))
  {
    hide Items, Item;
    OneItem(s, PUSH, []);
    assert [PUSH] + [] == [PUSH];
    PushMeans(s);
  }

  lemma PushMeans(s: Parser)
    ensures Item(s, PUSH, ItemValue([]), ItemLength(PUSH)) == Some(s.(stack := s.stack + [s.g]))
  {
    hide MainItem, LocalItem, GlobalItem;
  }

  lemma PopItem(t: Parser, s: Parser)
    requires t.stack == s.stack + [s.g]
    ensures Items(t, [POP], 0) == Some(t.(g := s.g, stack := s.stack))
  {
    hide Items, Item;
    OneItem(t, POP, []);
    assert [POP] + [] == [POP];
    PopMeans(t, s);
  }

  lemma PopMeans(t: Parser, s: Parser)
    requires t.stack == s.stack + [s.g]
    ensures Item(t, POP, ItemValue([]), ItemLength(POP)) == Some(t.(g := s.g, stack := s.stack))
  {
    hide MainItem, LocalItem, GlobalItem;
    assert t.stack[..|t.stack| - 1] == s.stack;
  }

  // ---------------------------------------------------------------- every layout is well formed

  /** The layouts and bit cursors collected so far are consistent, report ID by report ID. */
  ghost predicate Table(profiles: map<int, Profile>, offsets: map<int, int>) {
    && (forall id :: id in offsets ==> FirstBit(id) <= offsets[id])
    && (forall id :: id in profiles ==>
          && 0 <= id <= 255 && profiles[id].id == id && id in offsets
          && profiles[id].size == (offsets[id] + 7) / 8
          && Building(profiles[id], FirstBit(id), offsets[id]))
  }

  ghost predicate ParserInv(s: Parser) {
    && 0 <= s.g.id <= 255 && (forall k :: 0 <= k < |s.stack| ==> 0 <= s.stack[k].id <= 255)
    && Table(s.profiles, s.offsets)
  }

  lemma {:induction false} AddFieldsBuilds(r: Profile, g: Globals, v: int, usages: Usages, mouse: bool,
                                           offset: int, n: nat)
    requires 0 <= g.size && FirstBit(r.id) <= offset && Building(r, FirstBit(r.id), offset)
    ensures var next := AddFields(r, g, v, usages, mouse, offset, n);
      next.Some? ==> Building(next.value, FirstBit(r.id), offset + g.size * n) && next.value.id == r.id
  {
    hide Building, AddOne, UsageAt;
    if n > 0 {
      AddFieldsBuilds(r, g, v, usages, mouse, offset, n - 1);
      var before := AddFields(r, g, v, usages, mouse, offset, n - 1);
      if before.Some? {
        var at := offset + g.size * (n - 1);
        Product(g.size, n - 1);
        Advance(offset, g.size, n - 1);
        AddOneBuilds(before.value, g, v, UsageAt(usages, n - 1), mouse, FirstBit(r.id), at);
      }
    }
  }

  lemma AddOneBuilds(r: Profile, g: Globals, v: int, usage: int, mouse: bool, low: int, at: int)
    requires 0 <= g.size && low <= at && Building(r, low, at)
    ensures var next := AddOne(r, g, v, usage, mouse, at);
      next.Some? ==> Building(next.value, low, at + g.size) && next.value.id == r.id
  {
    hide Building, AddField, WellFormed;
    if mouse && !Constant(v) && Variable(v) && Usable(g) && Representable(g) {
      UsableIsWellFormed(g, at);
      AddFieldBuilds(r, low, at, usage, Field(at, g.size, g.min, g.max), Relative(v));
    } else {
      BuildingGrows(r, low, at, at + g.size);
    }
  }

  lemma Advance(offset: int, size: int, i: int)
    ensures offset + size * i + size == offset + size * (i + 1)
  {
  }

  lemma Product(a: int, b: int)
    requires a >= 0 && b >= 0
    ensures a * b >= 0
  {
  }

  lemma ResizeBuilds(r: Profile, low: int, bound: int)
    requires Building(r, low, bound)
    ensures Building(r.(size := (bound + 7) / 8), low, bound)
  {
  }

  lemma InputKeepsTable(s: Parser, v: int)
    requires ParserInv(s) && InputItem(s, v).Some?
    ensures ParserInv(InputItem(s, v).value)
  {
    hide Building;
    var g := s.g;
    var off := Cursor(s.offsets, g.id);
    var end := off + g.size * g.count;
    var r := ProfileFor(s.profiles, g.id);
    EmptyIsBuilding(g.id, FirstBit(g.id), off);
    AddFieldsBuilds(r, g, v, s.usages, InMouse(s.collections), off, g.count);
    var added := AddFields(r, g, v, s.usages, InMouse(s.collections), off, g.count);
    ResizeBuilds(added.value, FirstBit(g.id), end);
    Product(g.size, g.count);
  }

  lemma ItemKeepsTable(s: Parser, prefix: octet, v: int, length: int)
    requires ParserInv(s) && 0 <= v && Item(s, prefix, v, length).Some?
    ensures ParserInv(Item(s, prefix, v, length).value)
  {
    hide Table, InputItem;
    if (prefix / 4) % 4 == 0 && prefix / 16 == 8 {
      InputKeepsTable(s, v);
    }
  }

  lemma {:induction false} ItemsKeepTable(s: Parser, data: seq<octet>, pos: nat)
    requires pos <= |data| && ParserInv(s) && Items(s, data, pos).Some?
    ensures ParserInv(Items(s, data, pos).value)
    decreases |data| - pos
  {
    hide ParserInv, Item;
    if pos < |data| {
      var prefix := data[pos];
      var end := pos + 1 + ItemLength(prefix);
      var v := ItemValue(data[pos + 1..end]);
      ItemKeepsTable(s, prefix, v, ItemLength(prefix));
      ItemsKeepTable(Item(s, prefix, v, ItemLength(prefix)).value, data, end);
    }
  }

  lemma {:induction false} SelectIsValid(s: Parser, n: nat)
    requires Table(s.profiles, s.offsets)
    ensures forall i :: 0 <= i < |Select(s, n)| ==>
      && ValidProfile(Select(s, n)[i]) && PastReportId(Select(s, n)[i])
      && Select(s, n)[i].id < n && Selectable(s, Select(s, n)[i].id) && s.profiles[Select(s, n)[i].id] == Select(s, n)[i]
    ensures forall i, j :: 0 <= i < j < |Select(s, n)| ==> Select(s, n)[i].id < Select(s, n)[j].id
  {
    hide ValidProfile, PastReportId, Building;
    if n > 0 {
      SelectIsValid(s, n - 1);
      if Selectable(s, n - 1) {
        FinishedIsValid(s.profiles[n - 1], s.offsets[n - 1]);
      }
    }
  }

  /** Every layout the parser returns is well formed, usable, past the report ID, and no two share an ID. */
  lemma ParsedProfilesAreValid(data: seq<octet>)
    ensures forall i :: 0 <= i < |Parse(data)| ==>
      && ValidProfile(Parse(data)[i]) && PastReportId(Parse(data)[i])
      && Parse(data)[i].x.bits > 0 && Parse(data)[i].y.bits > 0 && Parse(data)[i].buttons != map[]
    ensures forall i, j :: 0 <= i < j < |Parse(data)| ==> Parse(data)[i].id < Parse(data)[j].id
  {
    hide PastReportId, Item, Table;
    var s := Items(Start, data, 0);
    if s.Some? && Parse(data) != [] {
      EmptyTable();
      ItemsKeepTable(Start, data, 0);
      SelectIsValid(s.value, 256);
    }
  }

  lemma EmptyTable()
    ensures Table(map[], map[])
  {
  }
}
