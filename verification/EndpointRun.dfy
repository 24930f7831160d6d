/**
 Whole runs of one endpoint: physical arrivals, enqueues, clears, layout changes, new registrations at the same
 address, and a writer that takes a report and later completes or fails it, in every order.
 */
module EndpointRun {
  import opened Common
  import opened HidReport
  import opened MouseLayout
  import opened Splitting
  import opened Mixer
  import opened Endpoint
  import Descriptor

  // ---------------------------------------------------------------- what one take hands to the writer

  function AppliedBy(r: Report): Command {
    if r.overlay.Some? then r.overlay.value.applied else Still
  }

  function SeenBy(r: Report): Command {
    if r.physical.Some? then r.physical.value.motion else Still
  }

  /** The current layout describes the report: it is synthetic, or a matched physical report. */
  predicate Described(s: State, r: Report) {
    r.generation == s.core.generation && (r.physical.Some? ==> r.physical.value.matched)
  }

  /** The axes the host decodes are the physical motion plus the applied synthetic motion. */
  ghost predicate Faithful(s: State, r: Report) {
    Described(s, r) ==>
      && ValidProfile(s.profile) && s.latest != [] && |r.data| == s.profile.size
      && SameMotion(Decoded(r.data, s.profile), Plus(SeenBy(r), AppliedBy(r)))
  }

  lemma AxisSum(data: seq<byte>, f: Field, seen: int, applied: int)
    requires Inside(f, |data|) && Load(data, f) == seen && FieldFits(f, seen, applied)
    ensures (if Accepts(f, seen + applied) then seen + applied else Load(data, f)) == seen + applied
  {
  }

  lemma PhysicalIsFaithful(s: State, overlay: Option<Overlay>)
    requires ValidState(s) && s.fifo != []
    requires overlay.Some? ==> Current(s, s.fifo[0])
    requires overlay.Some? ==> MotionFits(s.profile, s.fifo[0].physical.value.motion, overlay.value.applied)
    ensures var r := ComposePhysical(s, overlay);
      && Faithful(s, r) && r.overlay == (if Current(s, s.fifo[0]) then overlay else None)
      && r.physical == s.fifo[0].physical && r.generation == s.fifo[0].generation && !r.competing
  {
    var head := s.fifo[0];
    assert Stamped(s, head) && head.overlay.None? && head.physical.Some?;
    if Current(s, head) {
      var seen := head.physical.value.motion;
      var applied := if overlay.Some? then overlay.value.applied else Still;
      var r := ComposePhysical(s, overlay);
      var c := Plus(seen, applied).(buttons := r.final);
      assert r.data == Applied(head.data, s.profile, c);
      AppliedReadback(head.data, s.profile, c);
      AxisSum(head.data, s.profile.x, seen.x, applied.x);
      AxisSum(head.data, s.profile.y, seen.y, applied.y);
      AxisSum(head.data, s.profile.wheel, seen.wheel, applied.wheel);
      AxisSum(head.data, s.profile.pan, seen.pan, applied.pan);
      hide Applied, Load, WellFormed;
    }
  }

  lemma StillFits(p: Profile, seen: Command)
    ensures MotionFits(p, seen, Still)
  {
  }

  lemma SynthesizedReadback(p: Profile, base: seq<byte>, applied: Command, final: bv8)
    requires ValidProfile(p) && Fits(p, base) && AxesAccept(p, applied)
    ensures var data := WithButtons(Encoded(ZeroRelative(base, p, |p.relative|), p, applied), p, final);
      |data| == p.size && SameMotion(Decoded(data, p), applied)
  {
    hide StoreButtons, Encoded, ZeroRelative, Load, Pressed, WellFormed;
    var z := ZeroRelative(base, p, |p.relative|);
    var encoded := Encoded(z, p, applied);
    EncodedReadback(z, p, applied);
    ButtonsKeepField(encoded, p, final, BUTTONS, p.x);
    ButtonsKeepField(encoded, p, final, BUTTONS, p.y);
    ButtonsKeepField(encoded, p, final, BUTTONS, p.wheel);
    ButtonsKeepField(encoded, p, final, BUTTONS, p.pan);
  }

  lemma StandaloneIsFaithful(s: State, applied: Command, competing: bool)
    requires ValidState(s) && s.core.queue != [] && s.latest != [] && AxesAccept(s.profile, applied)
    ensures Faithful(s, ComposeStandalone(s, applied, competing))
  {
    hide WithButtons, Encoded, ZeroRelative, Decoded, ValidProfile, Stamped, CoreInv, ValidLayouts, Blocks, Either;
    var r := ComposeStandalone(s, applied, competing);
    SynthesizedReadback(s.profile, if s.template == [] then s.latest else s.template, applied, r.final);
  }

  /** Everything a report taken from `s` says about the front item it carries. */
  ghost predicate CarriesOf(c: Core, r: Report) {
    r.overlay.Some? ==>
      && c.queue != [] && r.generation == c.generation
      && r.overlay.value == OverlayOf(c.queue[0], r.overlay.value.applied, r.overlay.value.blocked)
      && MayCarry(c.queue[0], r.overlay.value.applied)
  }

  /** One take from the expired state `s`: which physical report left, which item is carried and marked. */
  ghost predicate TakenFrom(s: State, t: State, r: Report) {
    && Faithful(s, r) && CarriesOf(s.core, r)
    && t.core == s.core.(inflight := if r.overlay.Some? then Some(r.overlay.value.id) else None)
    && t == s.(core := t.core, fifo := t.fifo)
    && (r.physical.Some? ==>
          && s.fifo != [] && t.fifo == s.fifo[1..] && !r.competing
          && r.physical == s.fifo[0].physical && r.generation == s.fifo[0].generation
          && r.instance == s.fifo[0].instance)
    && (r.physical.None? ==>
          && t.fifo == s.fifo && r.overlay.Some? && r.instance == s.instance
          && (s.fifo != [] ==> r.competing)
          && (r.competing ==> |s.fifo| == 1 && s.credits >= CREDITS))
  }

  lemma PartMayBeCarried(p: Profile, c: Command)
    requires SplittableAxes(p) && Split(p, c) != []
    ensures AxesAccept(p, Split(p, c)[0])
    ensures Towards(Split(p, c)[0].x, c.x) && Towards(Split(p, c)[0].y, c.y)
    ensures Towards(Split(p, c)[0].wheel, c.wheel) && Towards(Split(p, c)[0].pan, c.pan)
  {
    SplitIsExact(p, c);
    assert PartOf(p, Split(p, c)[0], c);
    hide Split, AxesAccept, Towards;
  }

  lemma FusionMayBeCarried(p: Profile, item: Item)
    requires ValidProfile(p)
    ensures MayCarry(item, FusionMotion(p, item))
  {
    if IsTransaction(item.kind) && Split(p, item.remaining) != [] {
      PartMayBeCarried(p, item.remaining);
    }
    hide Split;
  }

  lemma StandaloneMayBeCarried(s: State, competing: bool)
    requires ValidState(s) && s.core.queue != [] && ChooseStandalone(s, competing).Standalone?
    ensures var choice := ChooseStandalone(s, competing);
      && MayCarry(s.core.queue[0], choice.applied) && AxesAccept(s.profile, choice.applied)
      && choice.competing == competing && s.latest != []
  {
    var item := s.core.queue[0];
    PartMayBeCarried(s.profile, item.remaining.(buttons := Either(item.persistent, item.scheduled)));
    hide Split, ValidProfile, AxesAccept;
  }

  /** What a choice implies about the state it was made in. */
  ghost predicate ChoiceFits(s: State, choice: Choice) {
    match choice
    case Nothing => |s.fifo| <= 1
    case Passthrough => s.fifo != []
    case Fused(applied) =>
      && s.fifo != [] && s.core.queue != [] && FrontUsable(s.core) && Current(s, s.fifo[0])
      && MayCarry(s.core.queue[0], applied)
      && MotionFits(s.profile, s.fifo[0].physical.value.motion, applied)
    case Standalone(applied, competing) =>
      && s.core.queue != [] && FrontUsable(s.core) && s.latest != []
      && MayCarry(s.core.queue[0], applied) && AxesAccept(s.profile, applied)
      && (s.fifo != [] ==> competing) && (competing ==> |s.fifo| == 1 && s.credits >= CREDITS)
  }

  lemma ChoiceIsFitting(s: State)
    requires ValidState(s)
    ensures ChoiceFits(s, Choose(s))
  {
    hide AxesAccept, MotionFits, NeedsButtons, FusionMotion, Split, MayCarry, Stamped, CoreInv, ValidLayouts, ValidProfile;
    if s.core.queue != [] {
      FusionMayBeCarried(s.profile, s.core.queue[0]);
      if ChooseStandalone(s, true).Standalone? {
        StandaloneMayBeCarried(s, true);
      }
      if ChooseStandalone(s, false).Standalone? {
        StandaloneMayBeCarried(s, false);
      }
      if s.fifo != [] && s.fifo[0].physical.Some? {
        StillFits(s.profile, s.fifo[0].physical.value.motion);
      }
    }
    if s.core.queue != [] {
      StillMayBeCarried(s.core.queue[0]);
    }
  }

  lemma StillMayBeCarried(item: Item)
    ensures MayCarry(item, Still)
  {
  }

  lemma FirstPartShortens(p: Profile, item: Item, c: Command)
    requires SplittableAxes(p) && Split(p, c) != [] && c == item.remaining.(buttons := c.buttons)
    ensures Shortens(p, item, Split(p, c)[0])
  {
    hide ButtonsSupported, SplittableAxes, Longest, Clamp, CanTakeAll;
    LongestStep(p, item.remaining);
    SameAxes(p, c, item.remaining);
    assert Split(p, c)[0] == FirstPart(p, c);
  }

  lemma SameAxes(p: Profile, c: Command, d: Command)
    requires c == d.(buttons := c.buttons)
    ensures CanTakeAll(p, c) == CanTakeAll(p, d) && Minus(d, FirstPart(p, c)) == Minus(d, FirstPart(p, d))
  {
    hide Clamp;
  }

  lemma WholeShortens(p: Profile, item: Item)
    ensures Shortens(p, item, item.remaining)
  {
  }

  lemma StillShortens(p: Profile, item: Item)
    ensures !item.committed ==> Shortens(p, item, Still)
  {
  }

  /** Whatever report the front transaction item is put on, once written the item is shorter, or done. */
  lemma ChoiceShortens(s: State)
    requires ValidState(s) && s.core.queue != [] && IsTransaction(s.core.queue[0].kind)
    ensures Choose(s).Fused? ==> Shortens(s.profile, s.core.queue[0], Choose(s).applied)
    ensures Choose(s).Standalone? ==> Shortens(s.profile, s.core.queue[0], Choose(s).applied)
  {
    hide CoreInv, ValidLayouts, Stamped;
    var item := s.core.queue[0];
    AxesAreSplittable(s.profile);
    WholeShortens(s.profile, item);
    StillShortens(s.profile, item);
    hide ValidState, ValidProfile;
    var masked := item.remaining.(buttons := Either(item.persistent, item.scheduled));
    if Split(s.profile, item.remaining) != [] {
      FirstPartShortens(s.profile, item, item.remaining);
    }
    if Split(s.profile, masked) != [] {
      FirstPartShortens(s.profile, item, masked);
    }
    ChosenMotion(s);
    hide Split, Shortens, SplittableAxes, Either, Choose;
  }

  lemma AxesAreSplittable(p: Profile)
    requires ValidProfile(p)
    ensures SplittableAxes(p)
  {
  }

  /** The motion of a chosen report: the first part, all that remains, or none under masks still to be applied. */
  lemma ChosenMotion(s: State)
    requires s.core.queue != [] && IsTransaction(s.core.queue[0].kind)
    ensures var item, choice := s.core.queue[0], Choose(s);
      var masked := item.remaining.(buttons := Either(item.persistent, item.scheduled));
      && (choice.Standalone? ==> Split(s.profile, masked) != [] && choice.applied == Split(s.profile, masked)[0])
      && (choice.Fused? ==>
            || (!item.committed && choice.applied == Still)
            || (if Split(s.profile, item.remaining) != [] then choice.applied == Split(s.profile, item.remaining)[0]
                else choice.applied == item.remaining))
  {
    hide Split, MotionFits, Either;
  }

  lemma PassthroughTaken(s: State)
    requires ValidState(s) && s.core.inflight.None? && s.fifo != []
    ensures TakenFrom(s, s.(fifo := s.fifo[1..]), ComposePhysical(s, None))
  {
    PhysicalIsFaithful(s, None);
    assert s.fifo[0].physical.Some? && s.fifo[0].overlay.None?;
    hide Faithful, ValidState, Applied, Either;
  }

  lemma FusedTaken(s: State, applied: Command)
    requires ValidState(s) && ChoiceFits(s, Fused(applied))
    ensures TakenFrom(s, s.(fifo := s.fifo[1..], core := MarkInflight(s.core)),
                      ComposePhysical(s, Some(FrontOverlay(s, applied))))
  {
    hide ValidState, Faithful, Applied, Blocks, MayCarry, MotionFits, Either;
    PhysicalIsFaithful(s, Some(FrontOverlay(s, applied)));
  }

  lemma StandaloneTaken(s: State, applied: Command, competing: bool)
    requires ValidState(s) && ChoiceFits(s, Standalone(applied, competing))
    ensures TakenFrom(s, s.(core := MarkInflight(s.core)), ComposeStandalone(s, applied, competing))
  {
    hide ValidState, Faithful, AxesAccept, Blocks, MayCarry, WithButtons, Encoded, ZeroRelative, Either;
    StandaloneIsFaithful(s, applied, competing);
  }

  lemma PerformTakes(s: State)
    requires ValidState(s) && s.core.inflight.None?
    ensures var (t, r) := Perform(s, Choose(s));
      if r.None? then t == s && |s.fifo| <= 1 else TakenFrom(s, t, r.value)
  {
    ChoiceIsFitting(s);
    var choice := Choose(s);
    if choice.Passthrough? {
      PassthroughTaken(s);
    } else if choice.Fused? {
      FusedTaken(s, choice.applied);
    } else if choice.Standalone? {
      StandaloneTaken(s, choice.applied, choice.competing);
    }
    hide Choose, TakenFrom, ValidState, ComposePhysical, ComposeStandalone, Blocks, MayCarry, MotionFits;
  }

  /** `take_mouse_report` after expiry; with two physical reports waiting it always yields one. */
  lemma TakeTakes(s: State, now: nat)
    requires ValidState(s) && s.core.inflight.None?
    ensures var e := s.(core := Expire(s.core, now));
      var (t, r) := Take(s, now);
      && ValidState(e)
      && (if r.None? then t == e && |s.fifo| <= 1 else TakenFrom(e, t, r.value))
    ensures |s.fifo| >= 2 ==> Take(s, now).1.Some? && Take(s, now).1.value.physical == s.fifo[0].physical
  {
    ExpireKeepsInv(s.core, now);
    ExpireShape(s.core, now);
    hide CoreInv;
    CoreSwapKeepsValid(s, Expire(s.core, now));
    var e := s.(core := Expire(s.core, now));
    PerformTakes(e);
    assert e.fifo != [] ==> e.fifo[0].physical.Some?;
    hide ValidState, Perform, Faithful, CarriesOf, Choose;
  }

  // ---------------------------------------------------------------- runs

  /**
   `live` says that no clear or layout change happened since the report in the writer was taken.
   The rest is history: stamped arrivals, physical reports handed to the writer, successful reports by
   kind, decoded and applied motion of successful reports, and per item what was asked and what was written.
   Since the last layout change the items are those from `first` on, and `earlier` is what was applied before.
   `strays` are reports still being written for registrations that were replaced since.
   */
  datatype World = World(
    s: State, arriving: Option<Report>, writer: Option<Report>, live: bool,
    arrivals: seq<Report>, sent: seq<Option<Physical>>,
    physicalDone: nat, competingDone: nat,
    output: Command, physicalSum: Command, syntheticSum: Command,
    asked: map<nat, Command>, written: map<nat, Command>, exact: set<nat>,
    first: nat, earlier: Command, strays: seq<Report>)

  datatype Label =
    | Arrival(data: seq<byte>)
    | PushArrival
    | EnqueueItem(request: Request, now: nat)
    | ClearItems
    | ChangeLayout(layouts: seq<Profile>, generation: nat)
    | Register(layouts: seq<Profile>, generation: nat, instance: nat)
    | TakeReport(now: nat)
    | CompleteReport(success: bool, now: nat)
    | CompleteStray(i: nat, success: bool, now: nat)

  function Begin(layouts: seq<Profile>, generation: nat, instance: nat): World {
    World(Registered(layouts, generation, instance), None, None, false, [], [], 0, 0,
          Still, Still, Still, map[], map[], {}, 1, Still, [])
  }

  ghost predicate Possible(w: World, l: Label) {
    match l
    case Arrival(data) => w.arriving.None?
    case PushArrival => w.arriving.Some?
    case EnqueueItem(request, now) => true
    case ClearItems => true
    case ChangeLayout(layouts, generation) => ValidLayouts(layouts) && generation > w.s.core.generation
    case Register(layouts, generation, instance) =>
      ValidLayouts(layouts) && generation > w.s.core.generation && instance > w.s.instance
    case TakeReport(now) => w.writer.None?
    case CompleteReport(success, now) => w.writer.Some?
    case CompleteStray(i, success, now) => i < |w.strays|
  }

  function RecordedFor(m: map<nat, Command>, id: nat): Command {
    if id in m then m[id] else Still
  }

  function EnqueueStep(w: World, r: Request, now: nat): World {
    var (s, result) := EnqueueOn(w.s, r, now);
    var id := w.s.core.nextItem;
    if result.Accepted? then w.(s := s, asked := w.asked[id := r.command], written := w.written[id := Still])
    else w.(s := s)
  }

  function TakeStep(w: World, now: nat): World
    requires ValidState(w.s)
  {
    var (s, r) := Take(w.s, now);
    if r.None? then w.(s := s)
    else w.(s := s, writer := r, live := true,
            sent := if r.value.physical.Some? then w.sent + [r.value.physical] else w.sent)
  }

  /** What a successful report adds to the ledgers. */
  function Account(w: World, r: Report): World
    requires Described(w.s, r) ==> ValidProfile(w.s.profile) && |r.data| == w.s.profile.size
  {
    var v := if Described(w.s, r)
             then w.(output := Plus(w.output, Decoded(r.data, w.s.profile)),
                     physicalSum := Plus(w.physicalSum, SeenBy(r)),
                     syntheticSum := Plus(w.syntheticSum, AppliedBy(r)))
             else w;
    v.(written := if r.overlay.Some?
                  then w.written[r.overlay.value.id := Plus(RecordedFor(w.written, r.overlay.value.id), AppliedBy(r))]
                  else w.written,
       physicalDone := w.physicalDone + (if r.physical.Some? then 1 else 0),
       competingDone := w.competingDone + (if r.competing then 1 else 0))
  }

  /** The item an event reports as finished, unless it is newest-correction movement. */
  function NewlyExact(s: State, r: Report, success: bool): set<nat> {
    if Complete(s.core, r.generation, r.overlay, success).1 && s.core.queue != [] && s.core.queue[0].deadline == 0
    then {s.core.queue[0].id} else {}
  }

  function CompleteStep(w: World, success: bool, now: nat): World
    requires w.writer.Some? && Writable(w.s, w.writer.value)
    requires Described(w.s, w.writer.value) ==>
               ValidProfile(w.s.profile) && |w.writer.value.data| == w.s.profile.size
  {
    var r := w.writer.value;
    var v := if success then Account(w, r) else w;
    v.(s := Notify(w.s, r, success, now).0, writer := None, live := false,
       exact := w.exact + NewlyExact(w.s, r, success))
  }

  // ---------------------------------------------------------------- the invariant

  /** The writer holds a faithful report; its overlay is live exactly while it carries the front item. */
  ghost predicate WriterInv(w: World) {
    && (w.writer.None? ==> w.s.core.inflight.None?)
    && (w.writer.Some? ==>
          var r := w.writer.value;
          && Faithful(w.s, r) && r.instance == w.s.instance && r.generation <= w.s.core.generation
          && (r.physical.None? ==> r.overlay.Some?)
          && (w.s.core.inflight.Some? <==> w.live && r.overlay.Some?)
          && (w.live && r.overlay.Some? ==> CarriesOf(w.s.core, r) && CarriesFront(w.s.core, r.generation, r.overlay.value))
          && (r.competing ==> w.s.credits == CREDITS && r.physical.None?))
  }

  ghost predicate FifoInv(w: World) {
    && (w.arriving.Some? ==>
          && Stamped(w.s, w.arriving.value) && w.arriving.value.overlay.None?
          && w.arriving.value.physical.Some? && !w.arriving.value.competing
          && w.arriving.value.generation <= w.s.core.generation && w.arriving.value.instance == w.s.instance)
    && (forall i :: 0 <= i < |w.s.fifo| ==>
          w.s.fifo[i].generation <= w.s.core.generation && w.s.fifo[i].instance == w.s.instance)
  }

  /** Arrival order: what was handed to the writer, what waits and what is being queued are the arrivals. */
  ghost predicate OrderInv(w: World) {
    && |w.sent| + |w.s.fifo| + (if w.arriving.Some? then 1 else 0) == |w.arrivals|
    && (forall i :: 0 <= i < |w.sent| ==> w.sent[i] == w.arrivals[i].physical)
    && w.s.fifo == w.arrivals[|w.sent|..|w.sent| + |w.s.fifo|]
    && (w.arriving.Some? ==> w.arriving.value == w.arrivals[|w.arrivals| - 1])
  }

  ghost predicate FairInv(w: World) {
    3 * w.competingDone + w.s.credits <= w.physicalDone
  }

  ghost predicate SumInv(w: World) {
    SameMotion(w.output, Plus(w.physicalSum, w.syntheticSum))
  }

  /** Every axis of `part` lies between nothing and `whole`. */
  predicate TowardsAll(part: Command, whole: Command) {
    && Towards(part.x, whole.x) && Towards(part.y, whole.y)
    && Towards(part.wheel, whole.wheel) && Towards(part.pan, whole.pan)
  }

  /** Written plus remaining is what was asked; only newest-correction movement may lose its remainder. */
  predicate ItemLedger(asked: Command, written: Command, item: Item) {
    && TowardsAll(written, asked)
    && (SameMotion(Plus(written, item.remaining), asked) || (item.deadline != 0 && NoMotion(item.remaining)))
  }

  ghost predicate LedgerInv(w: World) {
    && w.asked.Keys == w.written.Keys
    && (forall id :: id in w.asked ==> id < w.s.core.nextItem && TowardsAll(w.written[id], w.asked[id]))
    && (forall i :: 0 <= i < |w.s.core.queue| ==>
          var item := w.s.core.queue[i];
          item.id in w.asked && ItemLedger(w.asked[item.id], w.written[item.id], item))
    && (w.writer.Some? && w.writer.value.overlay.Some? ==>
          var o := w.writer.value.overlay.value;
          && o.id in w.asked && TowardsAll(Plus(w.written[o.id], o.applied), w.asked[o.id])
          && (!w.live ==> forall i :: 0 <= i < |w.s.core.queue| ==> w.s.core.queue[i].id != o.id))
    && (forall id :: id in w.exact ==>
          && id in w.asked && SameMotion(w.written[id], w.asked[id])
          && (forall i :: 0 <= i < |w.s.core.queue| ==> w.s.core.queue[i].id != id)
          && (w.writer.Some? && w.writer.value.overlay.Some? ==> w.writer.value.overlay.value.id != id))
  }

  /** What the items from `lo` up to `hi` wrote together. */
  function ItemSum(written: map<nat, Command>, lo: nat, hi: nat): Command
    decreases hi
  {
    if hi <= lo then Still else Plus(ItemSum(written, lo, hi - 1), RecordedFor(written, hi - 1))
  }

  /** Since the last layout change the applied motion is the sum over that layout's items. */
  ghost predicate TotalInv(w: World) {
    && w.first <= w.s.core.nextItem
    && SameMotion(w.syntheticSum, Plus(w.earlier, ItemSum(w.written, w.first, w.s.core.nextItem)))
    && (forall i :: 0 <= i < |w.s.core.queue| ==> w.first <= w.s.core.queue[i].id < w.s.core.nextItem)
    && (w.writer.Some? && w.writer.value.overlay.Some? ==>
          var r := w.writer.value;
          && r.overlay.value.id < w.s.core.nextItem && (r.physical.Some? ==> r.physical.value.matched)
          && (r.overlay.value.id >= w.first <==> r.generation == w.s.core.generation))
  }

  /** What still comes in for earlier registrations names them. */
  ghost predicate StrayInv(w: World) {
    forall i :: 0 <= i < |w.strays| ==> w.strays[i].instance < w.s.instance
  }

  ghost predicate MainInv(w: World) {
    ValidState(w.s) && WriterInv(w) && FifoInv(w) && OrderInv(w) && FairInv(w) && SumInv(w) && LedgerInv(w)
  }

  ghost predicate Inv(w: World) {
    MainInv(w) && TotalInv(w) && StrayInv(w)
  }

  lemma BeginInv(layouts: seq<Profile>, generation: nat, instance: nat)
    requires ValidLayouts(layouts)
    ensures Inv(Begin(layouts, generation, instance))
  {
    hide ValidLayouts, ValidState, WriterInv, FifoInv, OrderInv, FairInv, SumInv, LedgerInv, TotalInv, ItemSum;
    RegisteredIsValid(layouts, generation, instance);
    BeginLedgers(layouts, generation, instance);
    NoItems(Begin(layouts, generation, instance));
  }

  lemma NoItems(w: World)
    requires w.first == w.s.core.nextItem && w.syntheticSum == w.earlier && w.s.core.queue == [] && w.writer.None?
    ensures TotalInv(w)
  {
    AddStill(w.earlier);
  }

  lemma BeginLedgers(layouts: seq<Profile>, generation: nat, instance: nat)
    ensures var w := Begin(layouts, generation, instance);
      WriterInv(w) && FifoInv(w) && OrderInv(w) && FairInv(w) && SumInv(w) && LedgerInv(w)
  {
    hide SumInv;
    NothingSums(Begin(layouts, generation, instance));
  }

  lemma NothingSums(w: World)
    requires w.output == w.physicalSum == w.syntheticSum == Still
    ensures SumInv(w)
  {
  }

  lemma RegisteredIsValid(layouts: seq<Profile>, generation: nat, instance: nat)
    requires ValidLayouts(layouts)
    ensures ValidState(Registered(layouts, generation, instance))
  {
    hide ValidLayouts, WellFormed;
    NoProfileIsValid();
    hide ValidProfile;
  }

  lemma NoProfileIsValid()
    ensures ValidProfile(NoProfile)
  {
  }

  // ---------------------------------------------------------------- arrivals

  lemma FaithfulFrame(s: State, t: State, r: Report)
    requires Faithful(s, r) && t.core.generation == s.core.generation
    requires s.latest != [] ==> t.latest != [] && t.profile == s.profile
    ensures Faithful(t, r)
  {
  }

  lemma ObserveShape(s: State, data: seq<byte>)
    requires ValidState(s)
    ensures var (t, r) := Observe(s, data);
      && t.core == s.core.(barrier := t.core.barrier, activity := t.core.activity)
      && t == s.(core := t.core, profile := t.profile, latest := t.latest, physicalButtons := t.physicalButtons)
      && (s.latest != [] ==> t.latest != [] && t.profile == s.profile)
      && r.generation == s.core.generation && r.instance == s.instance
  {
    ObserveKeepsValid(s, data);
    hide ValidProfile, Decoded, CoreInv;
  }

  function ArrivalStep(w: World, data: seq<byte>): World
    requires ValidState(w.s)
  {
    var (s, r) := Observe(w.s, data);
    w.(s := s, arriving := Some(r), arrivals := w.arrivals + [r])
  }

  lemma ArrivalKeepsInv(w: World, data: seq<byte>)
    requires MainInv(w) && w.arriving.None?
    ensures MainInv(ArrivalStep(w, data))
  {
    hide ValidState, Observe, Stamped, Faithful, CarriesOf, CarriesFront, ItemLedger;
    ObserveShape(w.s, data);
    ObserveKeepsValid(w.s, data);
    var v := ArrivalStep(w, data);
    if w.writer.Some? {
      FaithfulFrame(w.s, v.s, w.writer.value);
      CarriesFrame(w.s.core, v.s.core, w.writer.value);
    }
  }

  lemma CarriesFrame(c: Core, d: Core, r: Report)
    requires d.queue == c.queue && d.generation == c.generation && d.inflight == c.inflight
    ensures CarriesOf(c, r) == CarriesOf(d, r)
    ensures r.overlay.Some? ==>
      CarriesFront(c, r.generation, r.overlay.value) == CarriesFront(d, r.generation, r.overlay.value)
  {
  }

  function PushStep(w: World): World
    requires w.arriving.Some?
  {
    w.(s := Push(w.s, w.arriving.value), arriving := None)
  }

  lemma PushKeepsInv(w: World)
    requires MainInv(w) && w.arriving.Some?
    ensures MainInv(PushStep(w))
  {
    hide ValidState, Stamped, Faithful, CarriesOf, CarriesFront, ItemLedger;
    PushKeepsValid(w.s, w.arriving.value);
    var v := PushStep(w);
    if w.writer.Some? {
      FaithfulFrame(w.s, v.s, w.writer.value);
    }
  }

  // ---------------------------------------------------------------- the server's side

  lemma EnqueueShape(c: Core, r: Request, ready: bool, supported: bool, now: nat)
    ensures var (d, result) := Enqueue(c, r, ready, supported, now);
      && d == c.(queue := d.queue, nextItem := d.nextItem, superseded := d.superseded)
      && (result.Accepted? ==>
            && d.nextItem == c.nextItem + 1 && d.queue != [] && |d.queue| - 1 <= |c.queue|
            && d.queue[..|d.queue| - 1] == c.queue[..|d.queue| - 1]
            && d.queue[|d.queue| - 1] == NewItem(c, r, now))
      && (!result.Accepted? ==>
            d.nextItem == c.nextItem && |d.queue| <= |c.queue| && d.queue == c.queue[..|d.queue|])
  {
    hide Supersede, Expected;
    SupersedeShape(c, r.persistent);
  }

  lemma EnqueueKeepsWriter(w: World, r: Request, now: nat)
    requires CoreInv(w.s.core) && WriterInv(w)
    ensures WriterInv(EnqueueStep(w, r, now))
  {
    hide CoreInv, Faithful, Enqueue, Splittable, Expected, MayCarry;
    var v := EnqueueStep(w, r, now);
    EnqueueShape(w.s.core, r, w.s.latest != [], Splittable(w.s, r), now);
    if w.writer.Some? {
      FaithfulFrame(w.s, v.s, w.writer.value);
      if w.s.core.inflight.Some? {
        InflightSurvivesEnqueue(w.s.core, r, w.s.latest != [], Splittable(w.s, r), now);
      }
    }
  }

  /** Dropping items from the tail leaves every ledger as it is. */
  lemma LedgerShrinks(w: World, v: World)
    requires LedgerInv(w) && v == w.(s := v.s) && v.s.core.nextItem == w.s.core.nextItem
    requires |v.s.core.queue| <= |w.s.core.queue| && v.s.core.queue == w.s.core.queue[..|v.s.core.queue|]
    ensures LedgerInv(v)
  {
    hide ItemLedger, TowardsAll, SameMotion;
  }

  /** A new item opens its own ledger. */
  lemma LedgerGrows(w: World, v: World, c: Command)
    requires LedgerInv(w) && v.s.core.nextItem == w.s.core.nextItem + 1 && v.s.core.queue != []
    requires var id := w.s.core.nextItem; v == w.(s := v.s, asked := w.asked[id := c], written := w.written[id := Still])
    requires var n := |v.s.core.queue| - 1;
      && n <= |w.s.core.queue| && v.s.core.queue[..n] == w.s.core.queue[..n]
      && v.s.core.queue[n].id == w.s.core.nextItem && ItemLedger(c, Still, v.s.core.queue[n])
    requires TowardsAll(Still, c)
    ensures LedgerInv(v)
  {
    hide ItemLedger, TowardsAll, SameMotion;
    var n := |v.s.core.queue| - 1;
    forall i | 0 <= i < n
      ensures v.s.core.queue[i] == w.s.core.queue[i] && v.s.core.queue[i].id in w.asked
    {
      assert v.s.core.queue[i] == v.s.core.queue[..n][i];
    }
  }

  lemma EnqueueKeepsLedger(w: World, r: Request, now: nat)
    requires LedgerInv(w)
    ensures LedgerInv(EnqueueStep(w, r, now))
  {
    hide LedgerInv, Enqueue, Splittable, TowardsAll, ItemLedger, NewItem;
    EnqueueShape(w.s.core, r, w.s.latest != [], Splittable(w.s, r), now);
    NewLedger(w.s.core, r, now);
    var v := EnqueueStep(w, r, now);
    if Enqueue(w.s.core, r, w.s.latest != [], Splittable(w.s, r), now).1.Accepted? {
      LedgerGrows(w, v, r.command);
    } else {
      LedgerShrinks(w, v);
    }
  }

  /** The invariants about the physical side and the totals. */
  ghost predicate SideInv(w: World) {
    FifoInv(w) && OrderInv(w) && FairInv(w) && SumInv(w)
  }

  /** A step that only touches the synthetic side keeps everything about the physical side. */
  lemma SideFrame(w: World, v: World)
    requires SideInv(w) && v.s == w.s.(core := v.s.core) && v.s.core.generation == w.s.core.generation
    requires v == w.(s := v.s, live := v.live, asked := v.asked, written := v.written)
    ensures SideInv(v)
  {
    hide Decoded, ValidProfile;
  }

  lemma EnqueueKeepsInv(w: World, r: Request, now: nat)
    requires MainInv(w)
    ensures MainInv(EnqueueStep(w, r, now))
  {
    assert CoreInv(w.s.core);
    hide ValidState, CoreInv, WriterInv, LedgerInv, FifoInv, OrderInv, SumInv, Enqueue, Splittable;
    EnqueueShape(w.s.core, r, w.s.latest != [], Splittable(w.s, r), now);
    EnqueueKeepsValid(w.s, r, now);
    EnqueueKeepsWriter(w, r, now);
    EnqueueKeepsLedger(w, r, now);
    SideFrame(w, EnqueueStep(w, r, now));
  }

  lemma NewLedger(c: Core, r: Request, now: nat)
    ensures TowardsAll(Still, r.command) && ItemLedger(r.command, Still, NewItem(c, r, now))
    ensures NewItem(c, r, now).id == c.nextItem
  {
  }

  /** Supersession never drops the item in the writer, so an overlay keeps carrying the front. */
  lemma InflightSurvivesEnqueue(c: Core, r: Request, ready: bool, supported: bool, now: nat)
    requires CoreInv(c) && c.inflight.Some?
    ensures var d := Enqueue(c, r, ready, supported, now).0; d.queue != [] && d.queue[0] == c.queue[0]
  {
    hide Supersede, Expected, NewItem;
    SupersedeShape(c, r.persistent);
  }

  function ClearStep(w: World): World {
    w.(s := ClearOn(w.s), live := false)
  }

  lemma ClearKeepsInv(w: World)
    requires MainInv(w)
    ensures MainInv(ClearStep(w))
  {
    ClearKeepsValid(w.s);
    hide ValidState, FifoInv, OrderInv, SumInv, Faithful, TowardsAll;
    SideFrame(w, ClearStep(w));
    if w.writer.Some? {
      FaithfulFrame(w.s, ClearStep(w).s, w.writer.value);
    }
  }

  function LayoutStep(w: World, layouts: seq<Profile>, generation: nat): World {
    w.(s := Relayout(w.s, layouts, generation), live := false,
       first := w.s.core.nextItem, earlier := w.syntheticSum)
  }

  /** A new registration at the same address starts afresh; what is being written for the old one becomes stray. */
  function RegisterStep(w: World, layouts: seq<Profile>, generation: nat, instance: nat): World {
    Begin(layouts, generation, instance).(
      strays := if w.writer.Some? then w.strays + [w.writer.value] else w.strays)
  }

  /** The completion of a stray report, at the endpoint that took its address. */
  function StrayStep(w: World, i: nat, success: bool, now: nat): World
    requires i < |w.strays| && (w.strays[i].instance == w.s.instance ==> Writable(w.s, w.strays[i]))
  {
    w.(s := Notify(w.s, w.strays[i], success, now).0, strays := w.strays[..i] + w.strays[i + 1..])
  }

  lemma LayoutKeepsInv(w: World, layouts: seq<Profile>, generation: nat)
    requires MainInv(w) && ValidLayouts(layouts) && generation > w.s.core.generation
    ensures MainInv(LayoutStep(w, layouts, generation))
  {
    RelayoutKeepsValid(w.s, layouts, generation);
    hide ValidState, OrderInv, SumInv, TowardsAll, Decoded, ValidLayouts;
    var v := LayoutStep(w, layouts, generation);
    assert OrderInv(v) by {
      LayoutKeepsOrder(w, layouts, generation);
    }
    assert SumInv(v) by {
      LayoutKeepsOrder(w, layouts, generation);
    }
  }

  lemma LayoutKeepsOrder(w: World, layouts: seq<Profile>, generation: nat)
    requires OrderInv(w) && SumInv(w)
    ensures OrderInv(LayoutStep(w, layouts, generation)) && SumInv(LayoutStep(w, layouts, generation))
  {
  }

  // ---------------------------------------------------------------- the writer takes a report

  lemma TakeKeepsWriter(w: World, now: nat)
    requires ValidState(w.s) && w.s.credits <= CREDITS && WriterInv(w) && FifoInv(w) && w.writer.None?
    ensures WriterInv(TakeStep(w, now))
  {
    hide ValidState, Stamped, Faithful, Take, Expire, MayCarry;
    TakeTakes(w.s, now);
    ExpireShape(w.s.core, now);
    var (t, r) := Take(w.s, now);
    if r.Some? {
      var e := w.s.(core := Expire(w.s.core, now));
      FaithfulFrame(e, t, r.value);
    }
  }

  lemma AgedLedger(asked: Command, written: Command, item: Item, now: nat)
    requires ItemLedger(asked, written, item)
    ensures ItemLedger(asked, written, Aged(item, now)) && Aged(item, now).id == item.id
  {
  }

  /** Carrying between nothing and the whole remainder keeps what is written between nothing and what was asked. */
  lemma CarryLedger(asked: Command, written: Command, item: Item, applied: Command)
    requires ItemLedger(asked, written, item) && MayCarry(item, applied)
    ensures TowardsAll(Plus(written, applied), asked)
  {
  }

  lemma TakeKeepsLedger(w: World, now: nat)
    requires ValidState(w.s) && w.s.core.inflight.None? && LedgerInv(w) && w.writer.None?
    ensures LedgerInv(TakeStep(w, now))
  {
    hide ValidState, Faithful, Take, Expire, MayCarry, TowardsAll, ItemLedger, CoreInv;
    TakeTakes(w.s, now);
    ExpireShape(w.s.core, now);
    var q := Expire(w.s.core, now).queue;
    var k := |w.s.core.queue| - |q|;
    forall i | 0 <= i < |q|
      ensures q[i].id == w.s.core.queue[i + k].id && q[i].id in w.asked
      ensures ItemLedger(w.asked[q[i].id], w.written[q[i].id], q[i])
    {
      AgedLedger(w.asked[w.s.core.queue[i + k].id], w.written[w.s.core.queue[i + k].id], w.s.core.queue[i + k], now);
    }
    var (t, r) := Take(w.s, now);
    if r.Some? && r.value.overlay.Some? {
      CarryLedger(w.asked[q[0].id], w.written[q[0].id], q[0], r.value.overlay.value.applied);
    }
  }

  lemma HeadLeaves(w: World)
    requires OrderInv(w) && w.s.fifo != []
    ensures OrderInv(w.(s := w.s.(fifo := w.s.fifo[1..]), sent := w.sent + [w.s.fifo[0].physical]))
  {
    var at := |w.sent|;
    assert w.s.fifo[0] == w.arrivals[at];
    assert w.s.fifo[1..] == w.arrivals[at + 1..at + |w.s.fifo|];
  }

  lemma SameOrder(w: World, v: World)
    requires OrderInv(w) && v.s.fifo == w.s.fifo && v.sent == w.sent && v.arrivals == w.arrivals && v.arriving == w.arriving
    ensures OrderInv(v)
  {
  }

  lemma TakeKeepsOrder(w: World, now: nat)
    requires ValidState(w.s) && w.s.core.inflight.None? && OrderInv(w) && w.writer.None?
    ensures OrderInv(TakeStep(w, now))
  {
    hide ValidState, Faithful, CarriesOf, Take, Expire, OrderInv;
    TakeTakes(w.s, now);
    var v := TakeStep(w, now);
    if v.writer.Some? && v.writer.value.physical.Some? {
      HeadLeaves(w);
      SameOrder(w.(s := w.s.(fifo := w.s.fifo[1..]), sent := w.sent + [w.s.fifo[0].physical]), v);
    } else {
      SameOrder(w, v);
    }
  }

  lemma TakeKeepsFifo(w: World, now: nat)
    requires ValidState(w.s) && w.s.core.inflight.None? && FifoInv(w) && w.writer.None?
    ensures FifoInv(TakeStep(w, now))
  {
    hide ValidState, Faithful, CarriesOf, Take, Expire, Decoded, ValidProfile;
    TakeTakes(w.s, now);
    ExpireShape(w.s.core, now);
  }

  lemma TakeKeepsTotals(w: World, now: nat)
    requires ValidState(w.s) && w.s.core.inflight.None? && FairInv(w) && SumInv(w) && w.writer.None?
    ensures FairInv(TakeStep(w, now)) && SumInv(TakeStep(w, now))
  {
    hide ValidState, Faithful, CarriesOf, Take, Expire, SameMotion, Plus;
    TakeTakes(w.s, now);
  }

  lemma TakeKeepsInv(w: World, now: nat)
    requires MainInv(w) && w.writer.None?
    ensures MainInv(TakeStep(w, now))
  {
    assert w.s.credits <= CREDITS;
    hide ValidState, LedgerInv, FifoInv, OrderInv, SumInv, Faithful, CarriesOf;
    assert w.s.core.inflight.None?;
    hide WriterInv;
    TakeKeepsValid(w.s, now);
    TakeKeepsWriter(w, now);
    TakeKeepsLedger(w, now);
    TakeKeepsOrder(w, now);
    TakeKeepsFifo(w, now);
    TakeKeepsTotals(w, now);
  }

  // ---------------------------------------------------------------- the writer completes a report

  lemma FaithfulIsWritable(s: State, r: Report)
    requires Faithful(s, r) && (r.physical.None? ==> r.overlay.Some?)
    ensures Writable(s, r)
    ensures Described(s, r) ==> ValidProfile(s.profile) && |r.data| == s.profile.size
  {
  }

  /** A completion touches the synthetic side only through the item it carries. */
  lemma NotifyShape(s: State, r: Report, success: bool, now: nat)
    requires r.instance == s.instance && Writable(s, r)
    ensures var t := Notify(s, r, success, now).0;
      && t.core == Complete(s.core, r.generation, r.overlay, success).0
      && t == s.(core := t.core, credits := t.credits, submittedButtons := t.submittedButtons, template := t.template)
      && t.credits == (if !success then s.credits
                       else if r.competing then 0
                       else if r.physical.Some? then Min(CREDITS, s.credits + 1) else s.credits)
  {
    hide Complete, Applied, Reported;
  }

  lemma CompleteKeepsWriter(w: World, success: bool, now: nat)
    requires CoreInv(w.s.core) && WriterInv(w) && w.writer.Some? && Writable(w.s, w.writer.value)
    requires Described(w.s, w.writer.value) ==>
               ValidProfile(w.s.profile) && |w.writer.value.data| == w.s.profile.size
    ensures WriterInv(CompleteStep(w, success, now))
  {
    hide CoreInv, Faithful, Writable, Notify, Account, Complete, Described, NewlyExact;
    var r := w.writer.value;
    NotifyShape(w.s, r, success, now);
    CompleteShape(w.s.core, r.generation, r.overlay, success);
  }

  lemma CompleteKeepsFair(w: World, success: bool, now: nat)
    requires WriterInv(w) && FairInv(w) && w.writer.Some? && Writable(w.s, w.writer.value)
    requires Described(w.s, w.writer.value) ==>
               ValidProfile(w.s.profile) && |w.writer.value.data| == w.s.profile.size
    ensures FairInv(CompleteStep(w, success, now))
  {
    hide Faithful, Writable, Notify, Complete, Described, NewlyExact, CarriesOf, CarriesFront, Decoded, Plus;
    NotifyShape(w.s, w.writer.value, success, now);
  }

  lemma SumsAdd(a: Command, b: Command, c: Command, d: Command, e: Command, f: Command)
    requires SameMotion(a, Plus(b, c)) && SameMotion(d, Plus(e, f))
    ensures SameMotion(Plus(a, d), Plus(Plus(b, e), Plus(c, f)))
  {
  }

  lemma CompleteKeepsSum(w: World, success: bool, now: nat)
    requires w.writer.Some? && Faithful(w.s, w.writer.value) && SumInv(w) && Writable(w.s, w.writer.value)
    ensures SumInv(CompleteStep(w, success, now))
  {
    var r := w.writer.value;
    if Described(w.s, r) {
      SumsAdd(w.output, w.physicalSum, w.syntheticSum, Decoded(r.data, w.s.profile), SeenBy(r), AppliedBy(r));
    }
    hide Decoded, Notify, SameMotion, Plus, ValidProfile, NewlyExact;
  }

  lemma CompleteKeepsOrder(w: World, success: bool, now: nat)
    requires OrderInv(w) && FifoInv(w) && w.writer.Some? && Writable(w.s, w.writer.value)
    requires w.writer.value.instance == w.s.instance
    requires Described(w.s, w.writer.value) ==>
               ValidProfile(w.s.profile) && |w.writer.value.data| == w.s.profile.size
    ensures OrderInv(CompleteStep(w, success, now)) && FifoInv(CompleteStep(w, success, now))
  {
    hide Writable, Notify, Complete, Described, Account, NewlyExact, Decoded, ValidProfile;
    NotifyShape(w.s, w.writer.value, success, now);
    CompleteKeepsGeneration(w.s.core, w.writer.value.generation, w.writer.value.overlay, success);
    AccountKeeps(w, w.writer.value);
  }

  lemma AccountKeeps(w: World, r: Report)
    requires Described(w.s, r) ==> ValidProfile(w.s.profile) && |r.data| == w.s.profile.size
    ensures var v := Account(w, r);
      v.s == w.s && v.arriving == w.arriving && v.arrivals == w.arrivals && v.sent == w.sent
      && v.asked == w.asked && v.exact == w.exact
      && v.written == (if r.overlay.Some?
                       then w.written[r.overlay.value.id := Plus(RecordedFor(w.written, r.overlay.value.id), AppliedBy(r))]
                       else w.written)
  {
    hide Decoded, Plus;
  }

  lemma CommitLedger(asked: Command, written: Command, item: Item, o: Overlay)
    requires ItemLedger(asked, written, item) && MayCarry(item, o.applied)
    ensures ItemLedger(asked, Plus(written, o.applied), Committed(item, o))
    ensures Finished(Committed(item, o)) && item.deadline == 0 ==> SameMotion(Plus(written, o.applied), asked)
    ensures Committed(item, o).id == item.id && Committed(item, o).deadline == item.deadline
  {
  }

  function AfterWrite(written: map<nat, Command>, r: Report): map<nat, Command> {
    if r.overlay.Some?
    then written[r.overlay.value.id := Plus(RecordedFor(written, r.overlay.value.id), AppliedBy(r))] else written
  }

  ghost predicate ItemsLedger(queue: seq<Item>, asked: map<nat, Command>, written: map<nat, Command>, exact: set<nat>) {
    forall i :: 0 <= i < |queue| ==>
      && queue[i].id in asked && queue[i].id in written && queue[i].id !in exact
      && ItemLedger(asked[queue[i].id], written[queue[i].id], queue[i])
  }

  lemma OthersUntouched(queue: seq<Item>, asked: map<nat, Command>, written: map<nat, Command>, exact: set<nat>,
                        id: nat, total: Command)
    requires ItemsLedger(queue, asked, written, exact)
    requires forall i :: 0 <= i < |queue| ==> queue[i].id != id
    ensures ItemsLedger(queue, asked, written[id := total], exact + {id})
    ensures ItemsLedger(queue, asked, written[id := total], exact)
  {
    hide ItemLedger;
  }

  lemma CarriedItemSettles(c: Core, r: Report, asked: map<nat, Command>, written: map<nat, Command>, exact: set<nat>)
    requires CoreInv(c) && ItemsLedger(c.queue, asked, written, exact)
    requires r.overlay.Some? && CarriesOf(c, r) && CarriesFront(c, r.generation, r.overlay.value)
    ensures var (d, finished) := Complete(c, r.generation, r.overlay, true);
      ItemsLedger(d.queue, asked, AfterWrite(written, r), if finished then exact + {c.queue[0].id} else exact)
  {
    var o, front, rest := r.overlay.value, c.queue[0], c.queue[1..];
    CompleteShape(c, r.generation, r.overlay, true);
    CommitLedger(asked[front.id], written[front.id], front, o);
    assert forall i :: 0 <= i < |rest| ==> rest[i].id != front.id;
    hide CoreInv, ItemLedger, Complete, MayCarry, Committed, Finished, Plus;
    OthersUntouched(rest, asked, written, exact, front.id, Plus(written[front.id], o.applied));
    var item := Committed(front, o);
    assert ([item] + rest)[1..] == rest;
  }

  lemma CompleteKeepsItems(w: World, success: bool)
    requires CoreInv(w.s.core) && WriterInv(w) && LedgerInv(w) && w.writer.Some?
    ensures var r := w.writer.value;
      ItemsLedger(Complete(w.s.core, r.generation, r.overlay, success).0.queue, w.asked,
                  if success then AfterWrite(w.written, r) else w.written,
                  w.exact + NewlyExact(w.s, r, success))
  {
    hide Faithful, ItemLedger, TowardsAll, MayCarry, Plus;
    var r := w.writer.value;
    var c := w.s.core;
    assert ItemsLedger(c.queue, w.asked, w.written, w.exact);
    if success && w.live && r.overlay.Some? {
      CarriedItemSettles(c, r, w.asked, w.written, w.exact);
    } else {
      CompleteShape(c, r.generation, r.overlay, success);
      if success && r.overlay.Some? {
        OthersUntouched(c.queue, w.asked, w.written, w.exact, r.overlay.value.id,
                        Plus(RecordedFor(w.written, r.overlay.value.id), AppliedBy(r)));
      }
    }
    hide Complete;
  }

  lemma CompleteKeepsAccounts(w: World, success: bool)
    requires CoreInv(w.s.core) && WriterInv(w) && LedgerInv(w) && w.writer.Some?
    ensures var r := w.writer.value;
      var written := if success then AfterWrite(w.written, r) else w.written;
      && written.Keys == w.asked.Keys
      && (forall id :: id in w.asked ==> TowardsAll(written[id], w.asked[id]))
      && (forall id :: id in w.exact + NewlyExact(w.s, r, success) ==>
            id in w.asked && SameMotion(written[id], w.asked[id]))
  {
    hide Faithful, TowardsAll, Complete;
    var r := w.writer.value;
    var c := w.s.core;
    CompleteShape(c, r.generation, r.overlay, success);
    if success && w.live && r.overlay.Some? {
      CommitLedger(w.asked[c.queue[0].id], w.written[c.queue[0].id], c.queue[0], r.overlay.value);
    }
    hide CoreInv, MayCarry, Committed, Finished, Plus, SameMotion, ItemLedger;
  }

  lemma CompleteKeepsLedger(w: World, success: bool, now: nat)
    requires CoreInv(w.s.core) && WriterInv(w) && LedgerInv(w) && w.writer.Some? && Writable(w.s, w.writer.value)
    requires Described(w.s, w.writer.value) ==>
               ValidProfile(w.s.profile) && |w.writer.value.data| == w.s.profile.size
    ensures LedgerInv(CompleteStep(w, success, now))
  {
    var r := w.writer.value;
    CompleteKeepsItems(w, success);
    CompleteKeepsAccounts(w, success);
    AccountKeeps(w, r);
    CompleteShape(w.s.core, r.generation, r.overlay, success);
    NotifyShape(w.s, r, success, now);
    hide CoreInv, WriterInv, Writable, Described, Notify, Account, Complete, NewlyExact, AfterWrite;
    hide ItemLedger, TowardsAll, SameMotion, ValidProfile;
  }

  lemma WriterIsWritable(w: World)
    requires WriterInv(w) && w.writer.Some?
    ensures Writable(w.s, w.writer.value)
    ensures Described(w.s, w.writer.value) ==>
              ValidProfile(w.s.profile) && |w.writer.value.data| == w.s.profile.size
    ensures OverlayAgrees(w.s.core, w.writer.value.generation, w.writer.value.overlay)
  {
    hide Faithful;
    FaithfulIsWritable(w.s, w.writer.value);
    hide Writable, Described;
  }

  lemma CompleteKeepsInv(w: World, success: bool, now: nat)
    requires MainInv(w) && w.writer.Some?
    ensures WriterInv(w) && Writable(w.s, w.writer.value)
    ensures Described(w.s, w.writer.value) ==>
              ValidProfile(w.s.profile) && |w.writer.value.data| == w.s.profile.size
    ensures MainInv(CompleteStep(w, success, now))
  {
    WriterIsWritable(w);
    assert CoreInv(w.s.core);
    hide ValidState, CoreInv, FifoInv, OrderInv, FairInv, SumInv, LedgerInv, Writable, Described;
    NotifyKeepsValid(w.s, w.writer.value, success, now);
    CompleteKeepsWriter(w, success, now);
    CompleteKeepsFair(w, success, now);
    CompleteKeepsSum(w, success, now);
    CompleteKeepsOrder(w, success, now);
    CompleteKeepsLedger(w, success, now);
    hide WriterInv, Notify, Account, NewlyExact;
  }

  // ---------------------------------------------------------------- the sum over the items of a layout

  lemma {:induction false} ItemSumFrame(a: map<nat, Command>, b: map<nat, Command>, lo: nat, hi: nat)
    requires forall id :: lo <= id < hi ==> RecordedFor(a, id) == RecordedFor(b, id)
    ensures ItemSum(a, lo, hi) == ItemSum(b, lo, hi)
    decreases hi
  {
    hide RecordedFor, Plus;
    if hi > lo {
      ItemSumFrame(a, b, lo, hi - 1);
    }
  }

  /** Writing more for one item of the layout adds just that to the sum. */
  lemma {:induction false} ItemSumAdds(a: map<nat, Command>, lo: nat, hi: nat, id: nat, c: Command)
    requires lo <= id < hi
    ensures SameMotion(ItemSum(a[id := Plus(RecordedFor(a, id), c)], lo, hi), Plus(ItemSum(a, lo, hi), c))
    decreases hi
  {
    hide SameMotion, Plus, RecordedFor;
    var b := a[id := Plus(RecordedFor(a, id), c)];
    var before := ItemSum(a, lo, hi - 1);
    RecordedNow(a, id, Plus(RecordedFor(a, id), c));
    if id == hi - 1 {
      ItemSumFrame(a, b, lo, hi - 1);
      Regroup(before, before, RecordedFor(a, id), c);
    } else {
      ItemSumAdds(a, lo, hi - 1, id, c);
      Regroup(ItemSum(b, lo, hi - 1), before, RecordedFor(a, hi - 1), c);
    }
  }

  lemma RecordedNow(a: map<nat, Command>, id: nat, c: Command)
    ensures RecordedFor(a[id := c], id) == c
    ensures forall k: nat :: k != id ==> RecordedFor(a[id := c], k) == RecordedFor(a, k)
  {
  }

  lemma Regroup(a: Command, b: Command, r: Command, c: Command)
    ensures SameMotion(Plus(b, Plus(r, c)), Plus(Plus(b, r), c))
    ensures SameMotion(a, Plus(b, c)) ==> SameMotion(Plus(a, r), Plus(Plus(b, r), c))
  {
  }

  /** A step that writes nothing and adds no item. */
  lemma SameTotal(w: World, v: World)
    requires TotalInv(w) && v.first == w.first && v.earlier == w.earlier && v.syntheticSum == w.syntheticSum
    requires v.written == w.written && v.s.core.nextItem == w.s.core.nextItem && v.s.core.generation == w.s.core.generation
    requires forall i :: 0 <= i < |v.s.core.queue| ==> w.first <= v.s.core.queue[i].id < w.s.core.nextItem
    requires v.writer.None? || v.writer == w.writer
    ensures TotalInv(v)
  {
    hide ItemSum, SameMotion, Plus;
  }

  lemma ArrivalKeepsTotal(w: World, data: seq<byte>)
    requires ValidState(w.s) && TotalInv(w) && StrayInv(w)
    ensures TotalInv(ArrivalStep(w, data)) && StrayInv(ArrivalStep(w, data))
  {
    ObserveShape(w.s, data);
    hide ValidState, Observe;
    SameTotal(w, ArrivalStep(w, data));
  }

  lemma PushKeepsTotal(w: World)
    requires TotalInv(w) && StrayInv(w) && w.arriving.Some?
    ensures TotalInv(PushStep(w)) && StrayInv(PushStep(w))
  {
    SameTotal(w, PushStep(w));
  }

  lemma ClearKeepsTotal(w: World)
    requires TotalInv(w) && StrayInv(w)
    ensures TotalInv(ClearStep(w)) && StrayInv(ClearStep(w))
  {
    SameTotal(w, ClearStep(w));
  }

  lemma EnqueueKeepsTotal(w: World, r: Request, now: nat)
    requires TotalInv(w) && StrayInv(w)
    ensures TotalInv(EnqueueStep(w, r, now)) && StrayInv(EnqueueStep(w, r, now))
  {
    var v := EnqueueStep(w, r, now);
    EnqueueShape(w.s.core, r, w.s.latest != [], Splittable(w.s, r), now);
    hide Enqueue, Splittable, SameMotion, Plus, NewItem;
    if v.s.core.nextItem == w.s.core.nextItem {
      SameTotal(w, v);
    } else {
      var id := w.s.core.nextItem;
      NewLedger(w.s.core, r, now);
      ItemSumFrame(w.written, v.written, w.first, id);
      AddStill(ItemSum(w.written, w.first, id));
      var n := |v.s.core.queue| - 1;
      forall i | 0 <= i < |v.s.core.queue|
        ensures w.first <= v.s.core.queue[i].id < v.s.core.nextItem
      {
        if i < n {
          assert v.s.core.queue[i] == v.s.core.queue[..n][i] == w.s.core.queue[i];
        }
      }
    }
  }

  lemma AddStill(c: Command)
    ensures Plus(c, Still) == c
  {
  }

  lemma LayoutKeepsTotal(w: World, layouts: seq<Profile>, generation: nat)
    requires TotalInv(w) && StrayInv(w) && WriterInv(w) && generation > w.s.core.generation
    ensures TotalInv(LayoutStep(w, layouts, generation)) && StrayInv(LayoutStep(w, layouts, generation))
  {
    hide Faithful, CarriesOf, CarriesFront;
    AddStill(w.syntheticSum);
    var n := w.s.core.nextItem;
    assert ItemSum(w.written, n, n) == Still;
    hide ItemSum;
  }

  lemma RegisterKeepsInv(w: World, layouts: seq<Profile>, generation: nat, instance: nat)
    requires Inv(w) && ValidLayouts(layouts) && instance > w.s.instance
    ensures Inv(RegisterStep(w, layouts, generation, instance))
  {
    hide ValidLayouts, MainInv, TotalInv, Begin;
    BeginInv(layouts, generation, instance);
    StraysKeep(Begin(layouts, generation, instance), RegisterStep(w, layouts, generation, instance));
    WriterIsOurs(w);
    BeginInstance(layouts, generation, instance);
  }

  lemma BeginInstance(layouts: seq<Profile>, generation: nat, instance: nat)
    ensures var w := Begin(layouts, generation, instance); w.s.instance == instance && w.strays == []
  {
  }

  lemma WriterIsOurs(w: World)
    requires MainInv(w)
    ensures w.writer.Some? ==> w.writer.value.instance == w.s.instance
  {
  }

  lemma StraysKeep(w: World, v: World)
    requires MainInv(w) && TotalInv(w) && v == w.(strays := v.strays)
    ensures MainInv(v) && TotalInv(v)
  {
    hide ValidState, Faithful, CarriesOf, CarriesFront, ItemLedger, TowardsAll, SameMotion, ItemSum, Plus, Stamped;
  }

  lemma StrayKeepsInv(w: World, i: nat, success: bool, now: nat)
    requires Inv(w) && i < |w.strays|
    ensures Inv(StrayStep(w, i, success, now))
  {
    hide MainInv, TotalInv;
    StraysKeep(w, StrayStep(w, i, success, now));
  }

  lemma TakeKeepsTotal(w: World, now: nat)
    requires ValidState(w.s) && w.s.core.inflight.None? && TotalInv(w) && StrayInv(w) && w.writer.None?
    ensures TotalInv(TakeStep(w, now)) && StrayInv(TakeStep(w, now))
  {
    hide ValidState, Faithful, Take, Expire, MayCarry, CoreInv, SameMotion, ItemSum, Plus;
    TakeTakes(w.s, now);
    TakenIsMatched(w.s, now);
    ExpireShape(w.s.core, now);
    var q := Expire(w.s.core, now).queue;
    var k := |w.s.core.queue| - |q|;
    forall i | 0 <= i < |q|
      ensures q[i].id == w.s.core.queue[i + k].id
    {
      AgedKeepsId(w.s.core.queue[i + k], now);
    }
  }

  lemma AgedKeepsId(item: Item, now: nat)
    ensures Aged(item, now).id == item.id
  {
  }

  /** Synthetic content rides only on physical reports that the layout describes. */
  lemma TakenIsMatched(s: State, now: nat)
    requires ValidState(s) && s.core.inflight.None?
    ensures var r := Take(s, now).1;
      r.Some? && r.value.overlay.Some? && r.value.physical.Some? ==> r.value.physical.value.matched
  {
    ExpireKeepsInv(s.core, now);
    ExpireShape(s.core, now);
    hide CoreInv;
    CoreSwapKeepsValid(s, Expire(s.core, now));
    var e := s.(core := Expire(s.core, now));
    hide Expire;
    ChoiceIsPossible(e);
    MatchedIfCarried(e);
    hide ValidState, Choose, ComposePhysical;
  }

  lemma MatchedIfCarried(s: State)
    requires ValidState(s)
    ensures s.fifo != [] ==>
      forall o: Option<Overlay> :: (o.Some? ==> Current(s, s.fifo[0])) && ComposePhysical(s, o).overlay.Some? ==>
        ComposePhysical(s, o).physical.value.matched
  {
    hide Applied, Either, Plus, ValidProfile, ValidLayouts, CoreInv, Decoded;
  }

  lemma CompleteKeepsTotal(w: World, success: bool, now: nat)
    requires CoreInv(w.s.core) && WriterInv(w) && w.writer.Some? && Writable(w.s, w.writer.value)
    requires Described(w.s, w.writer.value) ==>
               ValidProfile(w.s.profile) && |w.writer.value.data| == w.s.profile.size
    requires TotalInv(w) && StrayInv(w)
    ensures TotalInv(CompleteStep(w, success, now)) && StrayInv(CompleteStep(w, success, now))
  {
    var r := w.writer.value;
    var v := CompleteStep(w, success, now);
    NotifyShape(w.s, r, success, now);
    CompleteShape(w.s.core, r.generation, r.overlay, success);
    CompleteKeepsIds(w.s.core, r, success);
    hide CoreInv, Faithful, Writable, Notify, Complete, NewlyExact, Decoded, ValidProfile, ItemSum, CarriesOf, CarriesFront;
    if success {
      CompletedTotal(w, r);
    }
    hide WriterInv, Account, SameMotion, Plus;
  }

  /** The items of `b` are the last ones of `a`, by id. */
  predicate LastIds(a: seq<Item>, b: seq<Item>) {
    |b| <= |a| && forall i :: 0 <= i < |b| ==> b[i].id == a[|a| - |b| + i].id
  }

  lemma CompleteKeepsIds(c: Core, r: Report, success: bool)
    requires CoreInv(c)
    ensures var d := Complete(c, r.generation, r.overlay, success).0;
      d.nextItem == c.nextItem && d.generation == c.generation && LastIds(c.queue, d.queue)
  {
    hide Complete, Finished, CoreInv, Committed, LastIds;
    CompleteShape(c, r.generation, r.overlay, success);
    SettledIds(c.queue, c.queue);
    if r.overlay.Some? && CarriesFront(c, r.generation, r.overlay.value) && success {
      SettledIds(c.queue, c.queue[1..]);
      CommittedId(c.queue[0], r.overlay.value);
      SettledIds(c.queue, [Committed(c.queue[0], r.overlay.value)] + c.queue[1..]);
    }
  }

  lemma CommittedId(item: Item, o: Overlay)
    ensures Committed(item, o).id == item.id
  {
  }

  lemma SettledIds(a: seq<Item>, b: seq<Item>)
    requires b == a || (a != [] && b == a[1..]) || (a != [] && b != [] && b[1..] == a[1..] && b[0].id == a[0].id)
    ensures LastIds(a, b)
  {
    if b != a && b != [] && a != [] && b[1..] == a[1..] {
      forall i | 1 <= i < |b|
        ensures b[i] == a[i]
      {
        assert b[1..][i - 1] == a[1..][i - 1];
      }
    }
  }

  /** What a successful report adds to the applied motion it adds to its item. */
  lemma CompletedTotal(w: World, r: Report)
    requires TotalInv(w) && w.writer == Some(r)
    requires Described(w.s, r) ==> ValidProfile(w.s.profile) && |r.data| == w.s.profile.size
    ensures var v := Account(w, r);
      SameMotion(v.syntheticSum, Plus(w.earlier, ItemSum(v.written, w.first, w.s.core.nextItem)))
  {
    hide Decoded, ValidProfile;
    if r.overlay.Some? {
      var id := r.overlay.value.id;
      if id >= w.first {
        ItemSumAdds(w.written, w.first, w.s.core.nextItem, id, AppliedBy(r));
      } else {
        ItemSumFrame(w.written, Account(w, r).written, w.first, w.s.core.nextItem);
      }
      hide ItemSum;
    }
  }

  /** One step; a label that is not possible leaves the world as it is. */
  ghost function Step(w: World, l: Label): World
    requires Inv(w)
  {
    if !Possible(w, l) then w
    else
      match l
      case Arrival(data) => ArrivalStep(w, data)
      case PushArrival => PushStep(w)
      case EnqueueItem(request, now) => EnqueueStep(w, request, now)
      case ClearItems => ClearStep(w)
      case ChangeLayout(layouts, generation) => LayoutStep(w, layouts, generation)
      case Register(layouts, generation, instance) => RegisterStep(w, layouts, generation, instance)
      case TakeReport(now) => TakeStep(w, now)
      case CompleteReport(success, now) => WriterIsWritable(w); CompleteStep(w, success, now)
      case CompleteStray(i, success, now) => StrayStep(w, i, success, now)
  }

  lemma PartsOfInv(w: World)
    requires Inv(w)
    ensures ValidState(w.s) && CoreInv(w.s.core) && WriterInv(w) && (w.writer.None? ==> w.s.core.inflight.None?)
  {
  }

  lemma StepKeepsInv(w: World, l: Label)
    requires Inv(w)
    ensures Inv(Step(w, l))
  {
    PartsOfInv(w);
    hide MainInv, ValidState, WriterInv, TotalInv, StrayInv, ArrivalStep, PushStep, EnqueueStep, ClearStep, LayoutStep,
         RegisterStep, TakeStep;
    if Possible(w, l) {
      match l
      case Arrival(data) => ArrivalKeepsInv(w, data); ArrivalKeepsTotal(w, data);
      case PushArrival => PushKeepsInv(w); PushKeepsTotal(w);
      case EnqueueItem(request, now) => EnqueueKeepsInv(w, request, now); EnqueueKeepsTotal(w, request, now);
      case ClearItems => ClearKeepsInv(w); ClearKeepsTotal(w);
      case ChangeLayout(layouts, generation) =>
        LayoutKeepsInv(w, layouts, generation);
        LayoutKeepsTotal(w, layouts, generation);
      case Register(layouts, generation, instance) => RegisterKeepsInv(w, layouts, generation, instance);
      case TakeReport(now) => TakeKeepsInv(w, now); TakeKeepsTotal(w, now);
      case CompleteReport(success, now) =>
        WriterIsWritable(w);
        CompleteKeepsInv(w, success, now);
        CompleteKeepsTotal(w, success, now);
      case CompleteStray(i, success, now) => StrayKeepsInv(w, i, success, now);
    }
  }

  ghost function Run(w: World, labels: seq<Label>): World
    requires Inv(w)
    decreases |labels|
  {
    if labels == [] then w
    else
      StepKeepsInv(w, labels[0]);
      Run(Step(w, labels[0]), labels[1..])
  }

  lemma {:induction false} RunKeepsInv(w: World, labels: seq<Label>)
    requires Inv(w)
    ensures Inv(Run(w, labels))
    decreases |labels|
  {
    hide Inv, Step;
    if labels != [] {
      StepKeepsInv(w, labels[0]);
      RunKeepsInv(Step(w, labels[0]), labels[1..]);
    }
  }

  /** The world after any sequence of labels on a freshly registered endpoint. */
  ghost function Reached(layouts: seq<Profile>, generation: nat, instance: nat, labels: seq<Label>): World
    requires ValidLayouts(layouts)
  {
    BeginInv(layouts, generation, instance);
    Run(Begin(layouts, generation, instance), labels)
  }

  lemma ReachedInv(layouts: seq<Profile>, generation: nat, instance: nat, labels: seq<Label>)
    requires ValidLayouts(layouts)
    ensures Inv(Reached(layouts, generation, instance, labels))
  {
    hide ValidLayouts, Inv;
    BeginInv(layouts, generation, instance);
    RunKeepsInv(Begin(layouts, generation, instance), labels);
  }

  // ---------------------------------------------------------------- main results

  /** Displacement conservation: what the host decoded is the physical motion plus the applied synthetic motion. */
  lemma DisplacementIsConserved(layouts: seq<Profile>, generation: nat, instance: nat, labels: seq<Label>)
    requires ValidLayouts(layouts)
    ensures var w := Reached(layouts, generation, instance, labels);
      SameMotion(w.output, Plus(w.physicalSum, w.syntheticSum))
  {
    hide ValidLayouts, ValidState, WriterInv, FifoInv, OrderInv, FairInv, LedgerInv, Reached;
    ReachedInv(layouts, generation, instance, labels);
  }

  predicate ChangesLayout(l: Label) {
    l.ChangeLayout? || l.Register?
  }

  /** In every layout the applied motion is what its items wrote, each counted once. */
  lemma AppliedIsItems(layouts: seq<Profile>, generation: nat, instance: nat, labels: seq<Label>)
    requires ValidLayouts(layouts)
    ensures var w := Reached(layouts, generation, instance, labels);
      SameMotion(w.syntheticSum, Plus(w.earlier, ItemSum(w.written, w.first, w.s.core.nextItem)))
  {
    hide ValidLayouts, MainInv, Reached, SameMotion, ItemSum;
    ReachedInv(layouts, generation, instance, labels);
  }

  lemma StepKeepsFirst(w: World, l: Label)
    requires Inv(w) && !ChangesLayout(l)
    ensures Step(w, l).first == w.first && Step(w, l).earlier == w.earlier
  {
    hide Inv, Notify, Take, Observe, EnqueueOn, Decoded, Plus;
  }

  lemma {:induction false} RunKeepsFirst(w: World, labels: seq<Label>)
    requires Inv(w) && forall i :: 0 <= i < |labels| ==> !ChangesLayout(labels[i])
    ensures Run(w, labels).first == w.first && Run(w, labels).earlier == w.earlier
    decreases |labels|
  {
    hide Inv, Step;
    if labels != [] {
      StepKeepsInv(w, labels[0]);
      StepKeepsFirst(w, labels[0]);
      RunKeepsFirst(Step(w, labels[0]), labels[1..]);
    }
  }

  /** While the layout stands, the host decoded the physical motion plus what every item wrote. */
  lemma HostSeesPhysicalPlusItems(layouts: seq<Profile>, generation: nat, instance: nat, labels: seq<Label>)
    requires ValidLayouts(layouts) && forall i :: 0 <= i < |labels| ==> !ChangesLayout(labels[i])
    ensures var w := Reached(layouts, generation, instance, labels);
      SameMotion(w.output, Plus(w.physicalSum, ItemSum(w.written, 1, w.s.core.nextItem)))
  {
    hide ValidLayouts, Inv, ItemSum;
    BeginInv(layouts, generation, instance);
    RunKeepsFirst(Begin(layouts, generation, instance), labels);
    AppliedIsItems(layouts, generation, instance, labels);
    DisplacementIsConserved(layouts, generation, instance, labels);
    var w := Reached(layouts, generation, instance, labels);
    assert w.first == 1 && w.earlier == Still;
    hide Reached, Run;
    FromStill(w.output, w.physicalSum, w.syntheticSum, ItemSum(w.written, 1, w.s.core.nextItem));
  }

  lemma FromStill(output: Command, physical: Command, synthetic: Command, items: Command)
    requires SameMotion(output, Plus(physical, synthetic)) && SameMotion(synthetic, Plus(Still, items))
    ensures SameMotion(output, Plus(physical, items))
  {
  }

  /** The generation never falls, and within one generation the layout learnt stays. */
  ghost predicate SameLayout(s: State, t: State) {
    && t.core.generation >= s.core.generation
    && (t.core.generation == s.core.generation && s.latest != [] ==> t.latest != [] && t.profile == s.profile)
  }

  lemma TakeKeepsLayout(w: World, now: nat)
    requires ValidState(w.s) && w.s.core.inflight.None?
    ensures SameLayout(w.s, TakeStep(w, now).s)
  {
    hide ValidState, Expire, Take;
    TakeTakes(w.s, now);
    ExpireShape(w.s.core, now);
    hide TakenFrom;
    var (t, r) := Take(w.s, now);
    assert r.Some? ==> TakenFrom(w.s.(core := Expire(w.s.core, now)), t, r.value);
    TakenKeepsLayout(w.s.(core := Expire(w.s.core, now)), t, r);
  }

  lemma TakenKeepsLayout(s: State, t: State, r: Option<Report>)
    requires if r.None? then t == s else TakenFrom(s, t, r.value)
    ensures SameLayout(s, t)
  {
    hide Faithful, CarriesOf;
  }

  lemma CompleteKeepsLayout(w: World, success: bool, now: nat)
    requires Inv(w) && w.writer.Some? && Writable(w.s, w.writer.value)
    requires Described(w.s, w.writer.value) ==>
               ValidProfile(w.s.profile) && |w.writer.value.data| == w.s.profile.size
    ensures SameLayout(w.s, CompleteStep(w, success, now).s)
  {
    WriterIsOurs(w);
    hide Inv, Notify, Complete, Account, Writable, Described, NewlyExact;
    NotifyShape(w.s, w.writer.value, success, now);
    CompleteKeepsGeneration(w.s.core, w.writer.value.generation, w.writer.value.overlay, success);
  }

  lemma ArrivalKeepsLayout(w: World, data: seq<byte>)
    requires ValidState(w.s)
    ensures SameLayout(w.s, ArrivalStep(w, data).s)
  {
    ObserveShape(w.s, data);
    hide ValidState, Observe;
  }

  lemma EnqueueKeepsLayout(w: World, r: Request, now: nat)
    ensures SameLayout(w.s, EnqueueStep(w, r, now).s)
  {
    EnqueueShape(w.s.core, r, w.s.latest != [], Splittable(w.s, r), now);
    hide Enqueue, Splittable;
  }

  lemma StepKeepsLayout(w: World, l: Label)
    requires Inv(w)
    ensures SameLayout(w.s, Step(w, l).s)
  {
    hide TakeStep, CompleteStep, StrayStep, ArrivalStep, EnqueueStep, ValidLayouts, CoreInv, ValidState, WriterInv,
         MainInv, TotalInv, StrayInv, Writable, Described;
    PartsOfInv(w);
    match l
    case Arrival(data) => ArrivalKeepsLayout(w, data);
    case EnqueueItem(request, now) => EnqueueKeepsLayout(w, request, now);
    case TakeReport(now) =>
      if w.writer.None? {
        TakeKeepsLayout(w, now);
      }
    case CompleteReport(success, now) =>
      if w.writer.Some? {
        WriterIsWritable(w);
        CompleteKeepsLayout(w, success, now);
      }
    case CompleteStray(i, success, now) =>
      if i < |w.strays| {
        StrayIsOld(w, i, success, now);
      }
    case _ =>
  }

  lemma StrayIsOld(w: World, i: nat, success: bool, now: nat)
    requires StrayInv(w) && i < |w.strays|
    ensures StrayStep(w, i, success, now).s == w.s
  {
  }

  lemma {:induction false} LayoutStays(w: World, labels: seq<Label>)
    requires Inv(w)
    ensures SameLayout(w.s, Run(w, labels).s)
    decreases |labels|
  {
    hide Inv, Step;
    if labels != [] {
      StepKeepsInv(w, labels[0]);
      StepKeepsLayout(w, labels[0]);
      LayoutStays(Step(w, labels[0]), labels[1..]);
    }
  }

  /** No item ever writes past what was asked, and every finished ordered item wrote exactly that. */
  lemma ItemsWriteWhatWasAsked(layouts: seq<Profile>, generation: nat, instance: nat, labels: seq<Label>)
    requires ValidLayouts(layouts)
    ensures var w := Reached(layouts, generation, instance, labels);
      && (forall id :: id in w.written ==> id in w.asked && TowardsAll(w.written[id], w.asked[id]))
      && (forall id :: id in w.exact ==> id in w.asked && id in w.written && SameMotion(w.written[id], w.asked[id]))
  {
    hide ValidLayouts, ValidState, WriterInv, FifoInv, OrderInv, FairInv, SumInv, Reached, TowardsAll, SameMotion;
    ReachedInv(layouts, generation, instance, labels);
  }

  /** Among successful reports, at most one competing standalone report to every three physical ones. */
  lemma PhysicalReportsComeFirst(layouts: seq<Profile>, generation: nat, instance: nat, labels: seq<Label>)
    requires ValidLayouts(layouts)
    ensures var w := Reached(layouts, generation, instance, labels);
      3 * w.competingDone <= w.physicalDone
  {
    hide ValidLayouts, ValidState, WriterInv, FifoInv, OrderInv, SumInv, LedgerInv, Reached;
    ReachedInv(layouts, generation, instance, labels);
  }

  /** Physical reports leave once each, in arrival order; none overtakes and none is skipped. */
  lemma PhysicalReportsKeepOrder(layouts: seq<Profile>, generation: nat, instance: nat, labels: seq<Label>)
    requires ValidLayouts(layouts)
    ensures var w := Reached(layouts, generation, instance, labels);
      && |w.sent| + |w.s.fifo| + (if w.arriving.Some? then 1 else 0) == |w.arrivals|
      && (forall i :: 0 <= i < |w.sent| ==> w.sent[i] == w.arrivals[i].physical)
      && w.s.fifo == w.arrivals[|w.sent|..|w.sent| + |w.s.fifo|]
  {
    hide ValidLayouts, ValidState, WriterInv, FifoInv, FairInv, SumInv, LedgerInv, Reached;
    ReachedInv(layouts, generation, instance, labels);
  }

  /** In every reachable state the queue is bounded and ordered, and an overlay in the writer is the front's. */
  lemma QueueIsOrderedAndBounded(layouts: seq<Profile>, generation: nat, instance: nat, labels: seq<Label>)
    requires ValidLayouts(layouts)
    ensures var c := Reached(layouts, generation, instance, labels).s.core;
      && |c.queue| <= MAX_ITEMS && Ordered(c.queue)
      && (c.inflight.Some? ==> c.queue != [] && c.queue[0].id == c.inflight.value)
  {
    hide ValidLayouts, WriterInv, FifoInv, OrderInv, FairInv, SumInv, LedgerInv, Reached, Stamped, ValidProfile;
    ReachedInv(layouts, generation, instance, labels);
  }

  /** After a clear or a layout change, the completion of a report taken before moves no mask and no item. */
  lemma StaleCompletionIsHarmless(w: World, success: bool, now: nat)
    requires Inv(w) && w.writer.Some? && !w.live
    ensures Step(w, CompleteReport(success, now)).s.core == w.s.core
  {
    hide ValidState, FifoInv, OrderInv, FairInv, SumInv, LedgerInv, TotalInv, StrayInv, Notify, Account, NewlyExact,
         Writable, Faithful, Described;
    assert Possible(w, CompleteReport(success, now));
    WriterIsWritable(w);
    WriterIsOurs(w);
    NotifyShape(w.s, w.writer.value, success, now);
    StrayIsNotCarried(w);
  }

  lemma StrayIsNotCarried(w: World)
    requires WriterInv(w) && w.writer.Some? && !w.live
    ensures forall success :: Complete(w.s.core, w.writer.value.generation, w.writer.value.overlay, success).0 == w.s.core
  {
    hide Faithful;
  }

  /** A report taken before its endpoint was registered anew completes without a trace, whatever has started since. */
  lemma ReplacedEndpointIsIgnored(w: World, i: nat, success: bool, now: nat)
    requires Inv(w) && i < |w.strays|
    ensures w.strays[i].instance < w.s.instance
    ensures Step(w, CompleteStray(i, success, now)) == w.(strays := w.strays[..i] + w.strays[i + 1..])
    ensures Notify(w.s, w.strays[i], success, now).1.None?
  {
    hide MainInv, TotalInv;
    StrayIsOld(w, i, success, now);
  }

  /** The report in the writer becomes such a stray when the endpoint is registered anew. */
  lemma RegistrationLeavesStray(w: World, layouts: seq<Profile>, generation: nat, instance: nat)
    requires Inv(w) && w.writer.Some? && Possible(w, Register(layouts, generation, instance))
    ensures var v := Step(w, Register(layouts, generation, instance));
      && v.strays == w.strays + [w.writer.value] && v.writer.None?
      && v.s == Registered(layouts, generation, instance)
  {
    hide ValidLayouts, Inv;
  }

  /** Bits that no axis and no button owns leave exactly as the physical mouse sent them. */
  lemma UnknownBitsPassThrough(s: State, overlay: Option<Overlay>)
    requires ValidState(s) && s.fifo != []
    ensures var head, r := s.fifo[0], ComposePhysical(s, overlay);
      && |r.data| == |head.data|
      && (!Current(s, head) ==> r.data == head.data)
      && (Current(s, head) ==>
            forall j :: 0 <= j < 8 * |r.data| && Unowned(s.profile, j) ==> BitAt(r.data, j) == BitAt(head.data, j))
  {
    var head := s.fifo[0];
    assert Stamped(s, head);
    if Current(s, head) {
      var seen := head.physical.value;
      var applied := if overlay.Some? then overlay.value.applied else Still;
      AppliedReadback(head.data, s.profile,
                      Plus(seen.motion, applied).(buttons := ComposePhysical(s, overlay).final));
    }
    hide ValidState, Applied, BitAt, Unowned, Decoded;
  }

  // ---------------------------------------------------------------- layouts come from descriptors

  /** Whatever a report descriptor declares, the layouts read from it are what every operation asks for. */
  lemma ParsedLayoutsAreValid(data: seq<octet>)
    ensures ValidLayouts(Descriptor.Parse(data))
  {
    Descriptor.ParsedProfilesAreValid(data);
    var layouts := Descriptor.Parse(data);
    hide Descriptor.Parse;
    forall i | 0 <= i < |layouts|
      ensures layouts[i].size > 0
    {
      XIsInside(layouts[i]);
    }
  }

  lemma XIsInside(p: Profile)
    requires ValidProfile(p) && p.x.bits > 0
    ensures p.size > 0
  {
  }
}
