/**
 One registered mouse endpoint: the physical FIFO, the report templates, and how a report is chosen,
 composed and completed. The functions describe each locked operation; `MouseEndpoint` performs it in place.
 */
module Endpoint {
  import opened Common
  import opened HidReport
  import opened MouseLayout
  import opened Splitting
  import opened Mixer

  /** Physical reports that must succeed between two standalone reports competing with them. */
  const CREDITS := 3

  /** What the physical reader decoded; `matched` says that a known layout describes the report. */
  datatype Physical = Physical(matched: bool, buttons: bv8, motion: Command)

  datatype Report = Report(
    data: seq<byte>, generation: nat, instance: nat,
    physical: Option<Physical>, overlay: Option<Overlay>, final: bv8, competing: bool)

  datatype State = State(
    core: Core, layouts: seq<Profile>, profile: Profile,
    latest: seq<byte>, template: seq<byte>, fifo: seq<Report>,
    physicalButtons: bv8, submittedButtons: bv8, credits: nat, instance: nat)

  const NoProfile: Profile := Profile(0, 0, Absent, Absent, Absent, Absent, map[], [])

  // ---------------------------------------------------------------- invariants

  ghost predicate ValidLayouts(layouts: seq<Profile>) {
    && (forall i :: 0 <= i < |layouts| ==> ValidProfile(layouts[i]) && layouts[i].size > 0)
    && (forall i, j :: 0 <= i < j < |layouts| ==> layouts[i].id != layouts[j].id)
  }

  predicate Matches(p: Profile, data: seq<byte>) {
    |data| == p.size && (p.id == 0 || (|data| > 0 && data[0] as int == p.id))
  }

  predicate Current(s: State, r: Report) {
    r.physical.Some? && r.physical.value.matched && r.generation == s.core.generation
  }

  /** The axes of a decoded report. */
  predicate SameMotion(a: Command, b: Command) {
    a.x == b.x && a.y == b.y && a.wheel == b.wheel && a.pan == b.pan
  }

  /** A physical report of the current layout decodes to the motion it was stamped with. */
  ghost predicate Stamped(s: State, r: Report) {
    Current(s, r) ==> ValidProfile(s.profile) && s.latest != [] && |r.data| == s.profile.size
                      && SameMotion(Decoded(r.data, s.profile), r.physical.value.motion)
  }

  ghost predicate ValidState(s: State) {
    && CoreInv(s.core) && ValidLayouts(s.layouts) && ValidProfile(s.profile)
    && (s.latest != [] ==> s.profile in s.layouts && |s.latest| == s.profile.size)
    && (s.template != [] ==> s.latest != [] && |s.template| == s.profile.size)
    && (forall i :: 0 <= i < |s.fifo| ==> Stamped(s, s.fifo[i]) && s.fifo[i].overlay.None?
                                          && s.fifo[i].physical.Some? && !s.fifo[i].competing)
    && s.credits <= CREDITS
  }

  /** A freshly registered endpoint. */
  function Registered(layouts: seq<Profile>, generation: nat, instance: nat): State {
    State(Core([], 0, 0, None, 1, generation, 0, 0, 0), layouts, NoProfile, [], [], [], 0, 0, 0, instance)
  }

  // ---------------------------------------------------------------- operations

  function FindLayout(layouts: seq<Profile>, data: seq<byte>, any: bool, id: int): (r: Option<Profile>)
    ensures r.Some? ==> r.value in layouts && Matches(r.value, data) && (any || r.value.id == id)
  {
    if layouts == [] then None
    else if Matches(layouts[0], data) && (any || layouts[0].id == id) then Some(layouts[0])
    else FindLayout(layouts[1..], data, any, id)
  }

  /** `queue_physical_mouse_report`: learns the layout, stamps the report and counts physical activity. */
  function Observe(s: State, data: seq<byte>): (State, Report)
    requires ValidState(s)
  {
    var found := FindLayout(s.layouts, data, s.latest == [], s.profile.id);
    match found
    case None =>
      (s.(core := Arrive(s.core, false)),
       Report(data, s.core.generation, s.instance, Some(Physical(false, 0, Still)), None, 0, false))
    case Some(p) =>
      var seen := Decoded(data, p);
      var changed := !NoMotion(seen) || s.physicalButtons != seen.buttons;
      (s.(core := Arrive(s.core, changed), profile := if s.latest == [] then p else s.profile,
          latest := data, physicalButtons := seen.buttons),
       Report(data, s.core.generation, s.instance, Some(Physical(true, seen.buttons, seen)), None, 0, false))
  }

  /** The reader hands the stamped report to the endpoint's FIFO. */
  function Push(s: State, r: Report): State {
    s.(fifo := s.fifo + [r])
  }

  predicate Splittable(s: State, r: Request) {
    Split(s.profile, r.command.(buttons := Either(r.persistent, r.scheduled))) != []
  }

  function EnqueueOn(s: State, r: Request, now: nat): (State, EnqueueResult) {
    var (c, result) := Enqueue(s.core, r, s.latest != [], Splittable(s, r), now);
    (s.(core := c), result)
  }

  function ClearOn(s: State): State {
    s.(core := Clear(s.core))
  }

  /** A new report descriptor or protocol: everything encoded for the prior layout is dropped. */
  function Relayout(s: State, layouts: seq<Profile>, generation: nat): State {
    s.(core := Invalidate(s.core, generation), layouts := layouts, latest := [], template := [])
  }

  predicate FieldFits(f: Field, physical: int, synthetic: int) {
    synthetic == 0 || (f.bits != 0 && f.minimum <= physical + synthetic <= f.maximum)
  }

  predicate MotionFits(p: Profile, physical: Command, c: Command) {
    && FieldFits(p.x, physical.x, c.x) && FieldFits(p.y, physical.y, c.y)
    && FieldFits(p.wheel, physical.wheel, c.wheel) && FieldFits(p.pan, physical.pan, c.pan)
  }

  /** The motion a fused report would add: a transaction uses one greedy part, anything else all of it. */
  function FusionMotion(p: Profile, item: Item): Command {
    if IsTransaction(item.kind) && Split(p, item.remaining) != [] then Split(p, item.remaining)[0]
    else item.remaining
  }

  /** What the writer's next opportunity is used for. */
  datatype Choice =
    | Nothing
    | Passthrough
    | Fused(applied: Command)
    | Standalone(applied: Command, competing: bool)

  function ChooseStandalone(s: State, competing: bool): Choice
    requires s.core.queue != []
  {
    var item := s.core.queue[0];
    var parts := Split(s.profile, item.remaining.(buttons := Either(item.persistent, item.scheduled)));
    if (s.template == [] && s.latest == []) || parts == [] then Nothing else Standalone(parts[0], competing)
  }

  /** Decides on a state whose front has been expired. */
  function Choose(s: State): Choice {
    if s.fifo == [] then
      if FrontUsable(s.core) then ChooseStandalone(s, false) else Nothing
    else if !FrontUsable(s.core) || !Current(s, s.fifo[0]) then
      if FrontUsable(s.core) && |s.fifo| == 1 && s.template != [] && s.credits >= CREDITS
      then ChooseStandalone(s, true) else Passthrough
    else
      var item := s.core.queue[0];
      var motion := FusionMotion(s.profile, item);
      if MotionFits(s.profile, s.fifo[0].physical.value.motion, motion) then Fused(motion)
      else if NeedsButtons(s.core, item) then Fused(Still)
      else if |s.fifo| == 1 && s.template != [] && s.credits >= CREDITS then ChooseStandalone(s, true)
      else Passthrough
  }

  predicate Blocks(s: State, item: Item) {
    && (item.kind.ClickPress? || item.kind.TransactionPress?) && item.button != 0
    && Either(s.submittedButtons, Either(s.core.persistent, s.core.scheduled)) & ButtonBit(item.button) != 0
  }

  function FrontOverlay(s: State, applied: Command): Overlay
    requires s.core.queue != []
  {
    OverlayOf(s.core.queue[0], applied, Blocks(s, s.core.queue[0]))
  }

  /** The head of the FIFO, rewritten when the current layout describes it. */
  function ComposePhysical(s: State, overlay: Option<Overlay>): Report
    requires ValidState(s) && s.fifo != []
  {
    var head := s.fifo[0];
    if !Current(s, head) then head
    else
      var seen := head.physical.value;
      var applied := if overlay.Some? then overlay.value.applied else Still;
      var persistent := if overlay.Some? then overlay.value.persistent else s.core.persistent;
      var scheduled := if overlay.Some? then overlay.value.scheduled else s.core.scheduled;
      var final := Either(seen.buttons, Either(persistent, scheduled));
      head.(data := Applied(head.data, s.profile, Plus(seen.motion, applied).(buttons := final)),
            overlay := overlay, final := final)
  }

  function ComposeStandalone(s: State, applied: Command, competing: bool): Report
    requires ValidState(s) && s.core.queue != [] && s.latest != []
  {
    var o := FrontOverlay(s, applied);
    var base := if s.template == [] then s.latest else s.template;
    var final := Either(s.submittedButtons, Either(o.persistent, o.scheduled));
    var encoded := Encoded(ZeroRelative(base, s.profile, |s.profile.relative|), s.profile, applied);
    Report(WithButtons(encoded, s.profile, final), s.core.generation, s.instance,
           None, Some(o), final, competing)
  }

  lemma ChoiceIsPossible(s: State)
    ensures Choose(s).Fused? ==> s.fifo != [] && s.core.queue != [] && Current(s, s.fifo[0])
    ensures Choose(s).Passthrough? ==> s.fifo != []
    ensures Choose(s).Standalone? ==> s.core.queue != [] && (s.template != [] || s.latest != [])
  {
  }

  /** Carries out a choice. */
  function Perform(s: State, choice: Choice): (State, Option<Report>)
    requires ValidState(s) && choice == Choose(s)
  {
    ChoiceIsPossible(s);
    match choice
    case Nothing => (s, None)
    case Passthrough => (s.(fifo := s.fifo[1..]), Some(ComposePhysical(s, None)))
    case Fused(applied) =>
      (s.(fifo := s.fifo[1..], core := MarkInflight(s.core)),
       Some(ComposePhysical(s, Some(FrontOverlay(s, applied)))))
    case Standalone(applied, competing) =>
      (s.(core := MarkInflight(s.core)), Some(ComposeStandalone(s, applied, competing)))
  }

  /** `take_mouse_report`. */
  function Take(s: State, now: nat): (State, Option<Report>)
    requires ValidState(s)
  {
    if s.core.inflight.Some? then (s, None)
    else
      ExpireKeepsInv(s.core, now);
      var e := s.(core := Expire(s.core, now));
      ExpireShape(s.core, now);
      Perform(e, Choose(e))
  }

  /** A report this endpoint's writer may hold. */
  ghost predicate Writable(s: State, r: Report) {
    Current(s, r) ==> ValidProfile(s.profile) && s.latest != [] && |r.data| == s.profile.size
  }

  /** The physical part of a completion: order credits and the template for standalone reports. */
  function NotePhysical(s: State, r: Report, success: bool): State
    requires Writable(s, r)
  {
    if !success || r.physical.None? then s
    else
      var seen := r.physical.value;
      var t := s.(credits := Min(CREDITS, s.credits + 1));
      if !seen.matched then t
      else
        var u := t.(submittedButtons := seen.buttons);
        if !Current(s, r) then u
        else u.(template := Applied(r.data, s.profile, seen.motion.(buttons := seen.buttons)))
  }

  /** `notify_mouse_report_written`. */
  function Notify(s: State, r: Report, success: bool, written: nat): (State, Option<WriterEvent>)
    requires r.instance == s.instance ==> Writable(s, r)
  {
    if r.instance != s.instance then (s, None)
    else
      var t := NotePhysical(s, r, success);
      var u := if success && r.competing then t.(credits := 0) else t;
      var (c, finished) := Complete(u.core, r.generation, r.overlay, success);
      (u.(core := c),
       if r.generation == s.core.generation && Reported(KindOf(r.overlay), success)
       then Some(EventOf(r.generation, r.overlay, r.final, success, finished, written)) else None)
  }

  // ---------------------------------------------------------------- every operation keeps the invariant

  lemma {:induction false} LayoutIsUnique(layouts: seq<Profile>, data: seq<byte>, p: Profile)
    requires ValidLayouts(layouts) && p in layouts
    ensures var found := FindLayout(layouts, data, false, p.id); found.Some? ==> found.value == p
  {
    var found := FindLayout(layouts, data, false, p.id);
    if found.Some? {
      var i :| 0 <= i < |layouts| && layouts[i] == p;
      var j :| 0 <= j < |layouts| && layouts[j] == found.value;
      if i < j {
        assert layouts[i].id != layouts[j].id;
      } else if j < i {
        assert layouts[j].id != layouts[i].id;
      }
    }
  }

  lemma ObserveKeepsValid(s: State, data: seq<byte>)
    requires ValidState(s)
    ensures var (t, r) := Observe(s, data);
      ValidState(t) && Stamped(t, r) && r.overlay.None? && r.physical.Some? && !r.competing
  {
    hide ValidProfile, Decoded, FindLayout, CoreInv;
    ArriveKeepsInv(s.core);
    var any := s.latest == [];
    var found := FindLayout(s.layouts, data, any, s.profile.id);
    if found.Some? && !any {
      LayoutIsUnique(s.layouts, data, s.profile);
    }
    if found.Some? {
      var (t, r) := Observe(s, data);
      forall i | 0 <= i < |t.fifo|
        ensures Stamped(t, t.fifo[i])
      {
        assert Stamped(s, s.fifo[i]);
      }
    }
  }

  lemma ArriveKeepsInv(c: Core)
    requires CoreInv(c)
    ensures CoreInv(Arrive(c, true)) && CoreInv(Arrive(c, false))
  {
  }

  lemma PushKeepsValid(s: State, r: Report)
    requires ValidState(s) && Stamped(s, r) && r.overlay.None? && r.physical.Some? && !r.competing
    ensures ValidState(Push(s, r))
  {
    hide CoreInv, ValidProfile, ValidLayouts, Decoded;
    var t := Push(s, r);
    forall i | 0 <= i < |t.fifo|
      ensures Stamped(t, t.fifo[i]) && t.fifo[i].overlay.None? && t.fifo[i].physical.Some? && !t.fifo[i].competing
    {
      if i < |s.fifo| {
        assert Stamped(s, s.fifo[i]);
      } else {
        assert Stamped(s, r);
      }
    }
  }

  /** Replacing the synthetic side leaves everything said about the physical side. */
  lemma CoreSwapKeepsValid(s: State, c: Core)
    requires ValidState(s) && CoreInv(c) && c.generation == s.core.generation
    ensures ValidState(s.(core := c))
  {
    hide CoreInv, ValidProfile, ValidLayouts, Decoded;
    var t := s.(core := c);
    forall i | 0 <= i < |t.fifo|
      ensures Stamped(t, t.fifo[i])
    {
      assert Stamped(s, s.fifo[i]);
    }
  }

  lemma EnqueueKeepsValid(s: State, r: Request, now: nat)
    requires ValidState(s)
    ensures ValidState(EnqueueOn(s, r, now).0)
  {
    EnqueueKeepsInv(s.core, r, s.latest != [], Splittable(s, r), now);
    SupersedeShape(s.core, r.persistent);
    hide CoreInv, Supersede;
    CoreSwapKeepsValid(s, Enqueue(s.core, r, s.latest != [], Splittable(s, r), now).0);
  }

  lemma ClearKeepsValid(s: State)
    requires ValidState(s)
    ensures ValidState(ClearOn(s))
  {
    CoreSwapKeepsValid(s, Clear(s.core));
  }

  lemma RelayoutKeepsValid(s: State, layouts: seq<Profile>, generation: nat)
    requires ValidState(s) && ValidLayouts(layouts) && generation > s.core.generation
    requires forall i :: 0 <= i < |s.fifo| ==> s.fifo[i].generation <= s.core.generation
    ensures ValidState(Relayout(s, layouts, generation))
  {
    hide ValidProfile, ValidLayouts, Decoded;
  }

  lemma PerformKeepsValid(s: State)
    requires ValidState(s)
    ensures ValidState(Perform(s, Choose(s)).0)
  {
    ChoiceIsPossible(s);
    hide Choose, ComposePhysical, ComposeStandalone, ValidProfile, ValidLayouts, Decoded;
    var t := Perform(s, Choose(s)).0;
    if s.core.queue != [] {
      MarkKeepsInv(s.core);
    }
    forall i | 0 <= i < |t.fifo|
      ensures Stamped(t, t.fifo[i]) && t.fifo[i].overlay.None? && t.fifo[i].physical.Some? && !t.fifo[i].competing
    {
      assert Stamped(s, s.fifo[if t.fifo == s.fifo then i else i + 1]);
    }
  }

  lemma TakeKeepsValid(s: State, now: nat)
    requires ValidState(s)
    ensures ValidState(Take(s, now).0)
  {
    hide CoreInv, Perform, ValidProfile, ValidLayouts, Stamped;
    if s.core.inflight.None? {
      ExpireKeepsInv(s.core, now);
      ExpireShape(s.core, now);
      CoreSwapKeepsValid(s, Expire(s.core, now));
      PerformKeepsValid(s.(core := Expire(s.core, now)));
    }
  }

  lemma NotePhysicalKeepsValid(s: State, r: Report, success: bool)
    requires ValidState(s) && Writable(s, r)
    ensures ValidState(NotePhysical(s, r, success)) && NotePhysical(s, r, success).core == s.core
  {
    hide CoreInv, ValidProfile, ValidLayouts, Decoded;
    var t := NotePhysical(s, r, success);
    forall i | 0 <= i < |t.fifo|
      ensures Stamped(t, t.fifo[i])
    {
      assert Stamped(s, s.fifo[i]);
    }
  }

  /** The overlay of a report whose item is still at the front carries that item's masks. */
  predicate OverlayAgrees(c: Core, generation: nat, overlay: Option<Overlay>) {
    overlay.Some? && CarriesFront(c, generation, overlay.value) ==>
      && overlay.value.persistent == c.queue[0].persistent
      && overlay.value.scheduled == c.queue[0].scheduled
  }

  lemma NotifyKeepsValid(s: State, r: Report, success: bool, written: nat)
    requires ValidState(s) && (r.instance == s.instance ==> Writable(s, r))
    requires OverlayAgrees(s.core, r.generation, r.overlay)
    ensures ValidState(Notify(s, r, success, written).0)
  {
    if r.instance == s.instance {
      NotePhysicalKeepsValid(s, r, success);
      CompleteKeepsInv(s.core, r.generation, r.overlay, success);
      hide CoreInv, ValidProfile, ValidLayouts, Decoded, NotePhysical, Writable, Complete;
      var t := NotePhysical(s, r, success);
      var u := if success && r.competing then t.(credits := 0) else t;
      assert ValidState(u) by {
        forall i | 0 <= i < |u.fifo|
          ensures Stamped(u, u.fifo[i])
        {
          assert Stamped(t, t.fifo[i]);
        }
      }
      CompleteKeepsGeneration(u.core, r.generation, r.overlay, success);
      CoreSwapKeepsValid(u, Complete(u.core, r.generation, r.overlay, success).0);
    }
  }

  lemma CompleteKeepsGeneration(c: Core, generation: nat, overlay: Option<Overlay>, success: bool)
    ensures Complete(c, generation, overlay, success).0.generation == c.generation
  {
  }
}
