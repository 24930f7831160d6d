/**
 A transaction's press over a button that is still down on the host: a run of the endpoint and the executor that ends
 as ButtonActive with the press's mask applied and no release owed. It is the one exception to the release obligation.
 */
module BlockedPress {
  import opened Common
  import opened HidReport
  import opened MouseLayout
  import opened Splitting
  import opened MoveTypes
  import opened Mixer
  import opened Executor
  import opened Endpoint
  import opened Admission
  import ClickMasks
  import ClickScheduler
  import Server
  import T = ClickTypes
  import Run = EndpointRun

  /** One report with the button down and one with nothing, as the layout decodes them. */
  ghost predicate Clicks(p: Profile, down: seq<byte>, up: seq<byte>, button: nat) {
    && ValidProfile(p) && p.size > 0 && 1 <= button <= 8
    && Matches(p, down) && Decoded(down, p) == Still.(buttons := ButtonBit(button))
    && Matches(p, up) && Decoded(up, p) == Still
    && ButtonsSupported(p, ButtonBit(button))
  }

  // ---------------------------------------------------------------- the endpoint, step by step

  /** The press of the physical button is learnt, taken and written. */
  function PressedState(p: Profile, down: seq<byte>, template: seq<byte>, button: nat): State {
    var s := Registered([p], 1, 1);
    s.(core := s.core.(barrier := 1, activity := 1), profile := p, latest := down, template := template,
       physicalButtons := ButtonBit(button), submittedButtons := ButtonBit(button), credits := 1)
  }

  /** Its release is observed, and about to be queued. */
  function LiftedState(p: Profile, down: seq<byte>, up: seq<byte>, template: seq<byte>, button: nat): State {
    var s := PressedState(p, down, template, button);
    s.(core := s.core.(barrier := 2, activity := 2), latest := up, physicalButtons := 0)
  }

  function LiftReport(up: seq<byte>): Report {
    Report(up, 1, 1, Some(Physical(true, 0, Still)), None, 0, false)
  }

  lemma OnlyLayout(p: Profile, data: seq<byte>, any: bool)
    requires Matches(p, data)
    ensures FindLayout([p], data, any, p.id) == Some(p)
    ensures any ==> forall id :: FindLayout([p], data, any, id) == Some(p)
  {
  }

  lemma OneLayoutIsValid(p: Profile)
    requires ValidProfile(p) && p.size > 0
    ensures ValidLayouts([p])
  {
    hide ValidProfile;
  }

  /** A world whose endpoint is `s`, with a report observed but not queued, and one in the writer. */
  ghost predicate At(w: Run.World, s: State, arriving: Option<Report>, writer: Option<Report>) {
    Run.Inv(w) && ValidState(w.s) && w.s == s && w.arriving == arriving && w.writer == writer
  }

  lemma Stays(w: Run.World, l: Run.Label)
    requires Run.Inv(w)
    ensures Run.Inv(Run.Step(w, l)) && ValidState(Run.Step(w, l).s)
  {
    hide Run.MainInv, Run.TotalInv, Run.StrayInv, Run.Step;
    Run.StepKeepsInv(w, l);
    Run.PartsOfInv(Run.Step(w, l));
  }

  lemma Arrives(w: Run.World, s: State, writer: Option<Report>, data: seq<byte>)
    requires At(w, s, None, writer)
    ensures var (t, r) := Observe(s, data); At(Run.Step(w, Run.Arrival(data)), t, Some(r), writer)
  {
    hide ValidState, Run.Inv, Observe;
    Stays(w, Run.Arrival(data));
  }

  lemma Pushes(w: Run.World, s: State, r: Report, writer: Option<Report>)
    requires At(w, s, Some(r), writer)
    ensures At(Run.Step(w, Run.PushArrival), Push(s, r), None, writer)
  {
    hide ValidState, Run.Inv;
    Stays(w, Run.PushArrival);
  }

  lemma Takes(w: Run.World, s: State, arriving: Option<Report>, now: nat)
    requires At(w, s, arriving, None)
    ensures var (t, r) := Take(s, now); At(Run.Step(w, Run.TakeReport(now)), t, arriving, r)
  {
    hide ValidState, Run.Inv, Take;
    Stays(w, Run.TakeReport(now));
  }

  lemma Completes(w: Run.World, s: State, arriving: Option<Report>, r: Report, now: nat)
    requires At(w, s, arriving, Some(r))
    ensures Writable(s, r)
    ensures At(Run.Step(w, Run.CompleteReport(true, now)), Notify(s, r, true, now).0, arriving, None)
  {
    hide ValidState, Run.Inv, Run.Account, Run.NewlyExact, Run.Described, Notify, Writable;
    Stays(w, Run.CompleteReport(true, now));
    WriterIs(w);
    Run.AccountKeeps(w, r);
  }

  lemma WriterIs(w: Run.World)
    requires Run.Inv(w) && w.writer.Some?
    ensures Writable(w.s, w.writer.value)
    ensures Run.Described(w.s, w.writer.value) ==>
              ValidProfile(w.s.profile) && |w.writer.value.data| == w.s.profile.size
  {
    hide ValidState, Run.TotalInv, Run.StrayInv, Writable, Run.Described;
    Run.WriterIsWritable(w);
  }

  lemma Enqueues(w: Run.World, s: State, arriving: Option<Report>, writer: Option<Report>, r: Request, now: nat)
    requires At(w, s, arriving, writer)
    ensures At(Run.Step(w, Run.EnqueueItem(r, now)), EnqueueOn(s, r, now).0, arriving, writer)
  {
    hide ValidState, Run.Inv, EnqueueOn;
    Stays(w, Run.EnqueueItem(r, now));
  }

  // ---------------------------------------------------------------- the physical press

  function Down(button: nat): Command {
    Still.(buttons := ButtonBit(button))
  }

  /** The physical press as it goes to the host. */
  function PressReport(p: Profile, down: seq<byte>, button: nat): Report
    requires ValidProfile(p) && |down| == p.size
  {
    Report(Applied(down, p, Down(button)), 1, 1, Some(Physical(true, ButtonBit(button), Down(button))), None,
           ButtonBit(button), false)
  }

  function Template(p: Profile, down: seq<byte>, button: nat): seq<byte>
    requires ValidProfile(p) && |down| == p.size
  {
    Applied(Applied(down, p, Down(button)), p, Down(button))
  }

  function Observed(p: Profile, down: seq<byte>, button: nat): State {
    PressedState(p, down, [], button).(submittedButtons := 0, credits := 0)
  }

  function ArrivedPress(down: seq<byte>, button: nat): Report {
    Report(down, 1, 1, Some(Physical(true, ButtonBit(button), Down(button))), None, 0, false)
  }

  lemma PressArrives(p: Profile, down: seq<byte>, up: seq<byte>, button: nat)
    requires Clicks(p, down, up, button) && ValidState(Registered([p], 1, 1))
    ensures Observe(Registered([p], 1, 1), down) == (Observed(p, down, button), ArrivedPress(down, button))
  {
    hide ValidProfile, Decoded, ValidState;
    OnlyLayout(p, down, true);
    BitIsSet(button);
    hide FindLayout, Matches, ButtonBit;
  }

  lemma BitIsSet(button: nat)
    requires 1 <= button <= 8
    ensures ButtonBit(button) != 0 && ButtonBit(button) & ButtonBit(button) != 0
  {
  }

  lemma PressIsTaken(p: Profile, down: seq<byte>, up: seq<byte>, button: nat)
    requires Clicks(p, down, up, button)
    requires ValidState(Push(Observed(p, down, button), ArrivedPress(down, button)))
    ensures |down| == p.size
    ensures Take(Push(Observed(p, down, button), ArrivedPress(down, button)), 0)
            == (Observed(p, down, button), Some(PressReport(p, down, button)))
  {
    hide ValidProfile, Decoded, Applied, ButtonBit, ValidState;
    var s := Push(Observed(p, down, button), ArrivedPress(down, button));
    assert Expire(s.core, 0) == s.core;
    assert s.(core := s.core) == s;
    assert Choose(s) == Passthrough;
    NoMasks(ButtonBit(button));
    assert s.fifo[1..] == [];
  }

  lemma NoMasks(mask: bv8)
    ensures Either(mask, Either(0, 0)) == mask && Either(0, mask) == mask
  {
  }

  lemma PressIsWritten(p: Profile, down: seq<byte>, up: seq<byte>, button: nat)
    requires Clicks(p, down, up, button) && |down| == p.size
    requires Writable(Observed(p, down, button), PressReport(p, down, button))
    ensures Notify(Observed(p, down, button), PressReport(p, down, button), true, 0).0
            == PressedState(p, down, Template(p, down, button), button)
  {
    hide ValidProfile, Decoded, Applied, ButtonBit;
  }

  lemma LiftArrives(p: Profile, down: seq<byte>, up: seq<byte>, template: seq<byte>, button: nat)
    requires Clicks(p, down, up, button) && down != [] && ValidState(PressedState(p, down, template, button))
    ensures Observe(PressedState(p, down, template, button), up)
            == (LiftedState(p, down, up, template, button), LiftReport(up))
  {
    hide ValidProfile, Decoded, ValidState;
    OnlyLayout(p, up, false);
    BitIsSet(button);
    hide FindLayout, Matches, ButtonBit;
  }

  // ---------------------------------------------------------------- the transaction

  /** A click without movement. */
  function ClickMove(button: nat): MoveRequest {
    MoveRequest(Execute, false, button, Key(1, 1), 1, 1, 0, 0, 0, 10000, 0, 2000000, 1000000)
  }

  lemma SupportedBit(mask: bv8, button: nat)
    requires 1 <= button <= 8 && ButtonBit(button) & !mask == 0
    ensures mask & ButtonBit(button) != 0
  {
  }

  /** What a fresh server asks of an idle endpoint for that click. */
  lemma IdleIsAdmitted(e: Snapshot, button: nat)
    requires e.ready && e.generation == 1 && e.syntheticPending == 0 && e.outputQueue == 0 && e.poll == 1000
    requires e.physical == 0 && e.persistent == 0 && e.scheduled == 0
    requires button != 0 && e.supported & ButtonBit(button) != 0
    ensures Server.MoveObstacle(Server.Begin(1), ClickMove(button), e).None?
  {
    NothingMasked(ButtonBit(button));
    NoRounds(e);
    hide ButtonBit, Server.Rounds;
  }

  lemma NoRounds(e: Snapshot)
    ensures Server.Rounds(e, 0, 0) == 0
  {
  }

  lemma NothingMasked(mask: bv8)
    ensures 0 & mask == 0
  {
  }

  /** No physical button is down any more, so the transaction is admitted. */
  lemma ClickIsAdmitted(p: Profile, down: seq<byte>, up: seq<byte>, template: seq<byte>, button: nat)
    requires Clicks(p, down, up, button) && up != []
    ensures var sight := SnapshotOf(LiftedState(p, down, up, template, button), 1, 1000, 0);
      Server.MoveObstacle(Server.Begin(1), ClickMove(button), sight).None?
  {
    hide ValidProfile, Decoded, AllButtons, ButtonBit, Matches, Server.MoveObstacle;
    SupportedBit(AllButtons(p), button);
    IdleIsAdmitted(SnapshotOf(LiftedState(p, down, up, template, button), 1, 1000, 0), button);
  }

  function AtPress(button: nat): Exec {
    var e := Started(ClickMove(button), 2, 0);
    e.(ack := e.ack.(stage := Pressing))
  }

  function PressRequest(button: nat): Request {
    TransactionRequest(AtPress(button), 0, 0, ButtonBit(button), TransactionPress)
  }

  /** Three ticks lead the transaction to its press. */
  lemma ThreeTicks(sight: Snapshot, button: nat)
    requires sight.ready && sight.generation == 1 && sight.activity == 2 && button != 0
    ensures var first := Planned(Started(ClickMove(button), 2, 0), sight, 0);
      && first.Rest?
      && var second := Planned(first.e, sight, 0); second == Rest(AtPress(button))
    ensures Planned(AtPress(button), sight, 0) == Submit(AtPress(button), PressRequest(button))
  {
    hide ButtonBit;
  }

  function PressItem(button: nat): Item {
    Item(1, 0, 2, Key(1, 1), 0, Down(button), 0, ButtonBit(button), button, Some(2), TransactionPress, false, false)
  }

  /** The press waits, and the release report of the physical button before it. */
  function WaitingState(p: Profile, down: seq<byte>, up: seq<byte>, template: seq<byte>, button: nat): State {
    var s := LiftedState(p, down, up, template, button);
    s.(core := s.core.(queue := [PressItem(button)], nextItem := 2))
  }

  lemma PressIsQueued(p: Profile, down: seq<byte>, up: seq<byte>, template: seq<byte>, button: nat)
    requires Clicks(p, down, up, button) && up != []
    ensures EnqueueOn(LiftedState(p, down, up, template, button), PressRequest(button), 0)
            == (WaitingState(p, down, up, template, button), Mixer.Accepted)
  {
    var s := LiftedState(p, down, up, template, button);
    hide Decoded, ButtonBit, Matches, Split, ButtonsSupported;
    EdgeSplits(p, ButtonBit(button));
    NoMasks(ButtonBit(button));
    hide ValidProfile;
    assert s.core.queue + [PressItem(button)] == [PressItem(button)];
  }

  /** The overlay of the press: the button it presses is down on the host. */
  function BlockedOverlay(button: nat): Overlay {
    OverlayOf(PressItem(button), Down(button), true)
  }

  function FusedReport(p: Profile, up: seq<byte>, button: nat): Report
    requires ValidProfile(p) && |up| == p.size
  {
    LiftReport(up).(data := Applied(up, p, Down(button)), overlay := Some(BlockedOverlay(button)), final := ButtonBit(button))
  }

  function InFlight(p: Profile, down: seq<byte>, up: seq<byte>, template: seq<byte>, button: nat): State {
    var s := WaitingState(p, down, up, template, button);
    s.(core := s.core.(inflight := Some(1)))
  }

  lemma StillIsOnePart(p: Profile, button: nat)
    requires SplittableAxes(p)
    ensures Split(p, Down(button)) != [] ==> Split(p, Down(button))[0] == Down(button)
  {
    hide ButtonsSupported;
  }

  lemma PressStays(button: nat, s: State)
    requires s.core.queue == [PressItem(button)]
    ensures Expire(s.core, 0) == s.core
  {
  }

  lemma PressFits(p: Profile, button: nat)
    requires SplittableAxes(p)
    ensures FusionMotion(p, PressItem(button)) == Down(button) && MotionFits(p, Still, Down(button))
  {
    StillIsOnePart(p, button);
    hide Split, SplittableAxes;
  }

  lemma FusesPress(p: Profile, down: seq<byte>, up: seq<byte>, template: seq<byte>, button: nat)
    requires SplittableAxes(p) && 1 <= button <= 8
    ensures var s := Push(WaitingState(p, down, up, template, button), LiftReport(up));
      Expire(s.core, 0) == s.core && Choose(s) == Fused(Down(button)) && Blocks(s, PressItem(button))
  {
    hide SplittableAxes, ButtonBit, FusionMotion, MotionFits, Expire;
    PressStays(button, Push(WaitingState(p, down, up, template, button), LiftReport(up)));
    PressFits(p, button);
    BitIsSet(button);
    NoMasks(ButtonBit(button));
  }

  lemma PressIsFused(p: Profile, down: seq<byte>, up: seq<byte>, template: seq<byte>, button: nat)
    requires Clicks(p, down, up, button) && |up| == p.size
    requires ValidState(Push(WaitingState(p, down, up, template, button), LiftReport(up)))
    ensures Take(Push(WaitingState(p, down, up, template, button), LiftReport(up)), 0)
            == (InFlight(p, down, up, template, button), Some(FusedReport(p, up, button)))
  {
    AxesAre(p);
    hide ValidProfile, Decoded, ButtonBit, Matches, Split, Choose, Expire, Applied, ValidState, Blocks, SplittableAxes;
    FusesPress(p, down, up, template, button);
    var s := Push(WaitingState(p, down, up, template, button), LiftReport(up));
    assert s.(core := s.core) == s;
    assert s.fifo[1..] == [];
    NoMasks(ButtonBit(button));
  }

  lemma AxesAre(p: Profile)
    requires ValidProfile(p)
    ensures SplittableAxes(p)
  {
  }

  /** The press as the server hears of it. */
  function BlockedEvent(button: nat): WriterEvent {
    EventOf(1, Some(BlockedOverlay(button)), ButtonBit(button), true, true, 0)
  }

  lemma FusedIsWritten(p: Profile, down: seq<byte>, up: seq<byte>, template: seq<byte>, button: nat)
    requires Clicks(p, down, up, button) && |up| == p.size
    requires Writable(InFlight(p, down, up, template, button), FusedReport(p, up, button))
    ensures var (t, ev) := Notify(InFlight(p, down, up, template, button), FusedReport(p, up, button), true, 0);
      && t.core.queue == [] && t.core.inflight.None? && t.core.persistent == 0 && t.core.scheduled == ButtonBit(button)
      && ev == Some(BlockedEvent(button))
  {
    hide ValidProfile, Decoded, ButtonBit, Matches, Applied, NotePhysical;
    NoteKeepsCore(InFlight(p, down, up, template, button), FusedReport(p, up, button));
    var item := Committed(PressItem(button), BlockedOverlay(button));
    assert Finished(item);
    assert [PressItem(button)][1..] == [];
    assert RemoveFinished([item] + []) == [] by {
      assert ([item] + [])[1..] == [];
    }
  }

  lemma NoteKeepsCore(s: State, r: Report)
    requires Writable(s, r)
    ensures NotePhysical(s, r, true).core == s.core
  {
    hide Applied;
  }

  /** What the executor makes of it. */
  lemma PressEndsBlocked(button: nat)
    ensures var e := Delivered(Answered(AtPress(button), Mixer.Accepted, 0).0, BlockedEvent(button));
      && e.ack.status.ButtonActive? && e.ack.stage.Done? && !e.ack.pressed && !e.ack.released && !e.ack.uncertain
  {
    hide ButtonBit;
  }

  // ---------------------------------------------------------------- the run

  /** The physical button is pressed and written, and its release observed. */
  function PhysicalClick(down: seq<byte>, up: seq<byte>): seq<Run.Label> {
    [Run.Arrival(down), Run.PushArrival, Run.TakeReport(0), Run.CompleteReport(true, 0), Run.Arrival(up)]
  }

  /** The press of the transaction is queued, and leaves on the report of that release. */
  function PressOverIt(button: nat): seq<Run.Label> {
    [Run.EnqueueItem(PressRequest(button), 0), Run.PushArrival, Run.TakeReport(0)]
  }

  lemma Unrolls(w: Run.World, l: Run.Label, rest: seq<Run.Label>)
    requires Run.Inv(w)
    ensures Run.Inv(Run.Step(w, l)) && Run.Run(w, [l] + rest) == Run.Run(Run.Step(w, l), rest)
  {
    hide Run.Inv, Run.Step;
    Run.StepKeepsInv(w, l);
    assert ([l] + rest)[1..] == rest;
  }

  lemma Ends(w: Run.World)
    requires Run.Inv(w)
    ensures Run.Run(w, []) == w
  {
  }

  lemma Begins(p: Profile)
    requires ValidProfile(p) && p.size > 0
    ensures ValidLayouts([p]) && At(Run.Begin([p], 1, 1), Registered([p], 1, 1), None, None)
  {
    hide ValidProfile, ValidLayouts, ValidState, Run.Inv, Run.Begin, Registered;
    OneLayoutIsValid(p);
    Run.BeginInv([p], 1, 1);
    BeginIsValid(p);
    BeginFields(p);
  }

  lemma BeginFields(p: Profile)
    ensures var w := Run.Begin([p], 1, 1); w.s == Registered([p], 1, 1) && w.arriving.None? && w.writer.None?
  {
  }

  lemma BeginIsValid(p: Profile)
    requires ValidLayouts([p])
    ensures ValidState(Registered([p], 1, 1))
  {
    Run.RegisteredIsValid([p], 1, 1);
  }

  /** After the physical click everything is written but its release, which is not even queued. */
  lemma AfterPhysicalClick(p: Profile, down: seq<byte>, up: seq<byte>, button: nat)
    requires Clicks(p, down, up, button)
    ensures ValidLayouts([p]) && |down| == p.size
    ensures At(Run.Reached([p], 1, 1, PhysicalClick(down, up)),
               LiftedState(p, down, up, Template(p, down, button), button), Some(LiftReport(up)), None)
  {
    hide Clicks, Run.Inv, ValidState, Run.Step, Run.Run, Observe, Take, Notify, Template, ValidLayouts, Registered, Observed,
         PressedState, LiftedState, ArrivedPress, PressReport, LiftReport, Push, Run.Begin, Writable, Run.Reached, ValidProfile;
    SizesFit(p, down, up, button);
    var template := Template(p, down, button);
    Begins(p);
    var w0 := Run.Begin([p], 1, 1);
    Arrives(w0, Registered([p], 1, 1), None, down);
    PressArrives(p, down, up, button);
    var w1 := Run.Step(w0, Run.Arrival(down));
    Pushes(w1, Observed(p, down, button), ArrivedPress(down, button), None);
    var w2 := Run.Step(w1, Run.PushArrival);
    Takes(w2, Push(Observed(p, down, button), ArrivedPress(down, button)), None, 0);
    PressIsTaken(p, down, up, button);
    var w3 := Run.Step(w2, Run.TakeReport(0));
    Completes(w3, Observed(p, down, button), None, PressReport(p, down, button), 0);
    PressIsWritten(p, down, up, button);
    var w4 := Run.Step(w3, Run.CompleteReport(true, 0));
    Arrives(w4, PressedState(p, down, template, button), None, up);
    LiftArrives(p, down, up, template, button);
    FiveSteps(w0, PhysicalClick(down, up));
    ReachedRuns(p, PhysicalClick(down, up));
  }

  lemma SizesFit(p: Profile, down: seq<byte>, up: seq<byte>, button: nat)
    requires Clicks(p, down, up, button)
    ensures |down| == p.size == |up| && down != [] && up != [] && ValidProfile(p) && p.size > 0 && 1 <= button <= 8
  {
  }

  lemma ReachedRuns(p: Profile, labels: seq<Run.Label>)
    requires ValidLayouts([p]) && Run.Inv(Run.Begin([p], 1, 1))
    ensures Run.Reached([p], 1, 1, labels) == Run.Run(Run.Begin([p], 1, 1), labels)
  {
  }

  lemma FiveSteps(w: Run.World, l: seq<Run.Label>)
    requires Run.Inv(w) && |l| == 5
    ensures Run.Inv(Run.Step(w, l[0]))
    ensures var w1 := Run.Step(w, l[0]);
      Run.Inv(w1) && Run.Inv(Run.Step(w1, l[1]))
      && var w2 := Run.Step(w1, l[1]);
         Run.Inv(Run.Step(w2, l[2]))
         && var w3 := Run.Step(w2, l[2]);
            Run.Inv(Run.Step(w3, l[3]))
            && var w4 := Run.Step(w3, l[3]);
               Run.Run(w, l) == Run.Step(w4, l[4])
  {
    hide Run.Inv, Run.Step, Run.Run;
    Unrolls(w, l[0], l[1..]);
    ThreeSteps(Run.Step(w, l[0]), l[1..4]);
    assert l == [l[0]] + l[1..];
    var w1 := Run.Step(w, l[0]);
    Unrolls(w1, l[1], l[2..]);
    assert l[1..] == [l[1]] + l[2..];
    var w2 := Run.Step(w1, l[1]);
    Unrolls(w2, l[2], l[3..]);
    assert l[2..] == [l[2]] + l[3..];
    var w3 := Run.Step(w2, l[2]);
    Unrolls(w3, l[3], l[4..]);
    assert l[3..] == [l[3]] + l[4..];
    var w4 := Run.Step(w3, l[3]);
    Unrolls(w4, l[4], []);
    assert l[4..] == [l[4]] + [];
    Ends(Run.Step(w4, l[4]));
  }

  lemma ThreeSteps(w: Run.World, l: seq<Run.Label>)
    requires Run.Inv(w) && |l| == 3
    ensures Run.Inv(Run.Step(w, l[0]))
    ensures var w1 := Run.Step(w, l[0]);
      Run.Inv(Run.Step(w1, l[1]))
      && var w2 := Run.Step(w1, l[1]);
         Run.Run(w, l) == Run.Step(w2, l[2])
  {
    hide Run.Inv, Run.Step, Run.Run;
    Unrolls(w, l[0], l[1..]);
    assert l == [l[0]] + l[1..];
    var w1 := Run.Step(w, l[0]);
    Unrolls(w1, l[1], l[2..]);
    assert l[1..] == [l[1]] + l[2..];
    var w2 := Run.Step(w1, l[1]);
    Unrolls(w2, l[2], []);
    assert l[2..] == [l[2]] + [];
    Ends(Run.Step(w2, l[2]));
  }

  /** Then the press of the transaction is on its way, over a button the host still sees down. */
  lemma AfterPress(p: Profile, down: seq<byte>, up: seq<byte>, button: nat, w: Run.World)
    requires Clicks(p, down, up, button) && |down| == p.size == |up|
    requires At(w, LiftedState(p, down, up, Template(p, down, button), button), Some(LiftReport(up)), None)
    ensures At(Run.Run(w, PressOverIt(button)), InFlight(p, down, up, Template(p, down, button), button), None,
               Some(FusedReport(p, up, button)))
  {
    SizesFit(p, down, up, button);
    var template := Template(p, down, button);
    hide Clicks, Run.Inv, ValidState, Run.Step, Run.Run, Take, EnqueueOn, Template;
    Enqueues(w, LiftedState(p, down, up, template, button), Some(LiftReport(up)), None, PressRequest(button), 0);
    PressIsQueued(p, down, up, template, button);
    var w6 := Run.Step(w, Run.EnqueueItem(PressRequest(button), 0));
    Pushes(w6, WaitingState(p, down, up, template, button), LiftReport(up), None);
    var w7 := Run.Step(w6, Run.PushArrival);
    Takes(w7, Push(WaitingState(p, down, up, template, button), LiftReport(up)), None, 0);
    PressIsFused(p, down, up, template, button);
    ThreeSteps(w, PressOverIt(button));
  }

  /**
   The whole run, for every layout that can press the button: the click is admitted and started, two ticks lead it to
   its press and the third asks for it, it is accepted and written, its event says blocked, the transaction ends as
   ButtonActive and certain, and its mask stays applied with nothing queued that would take it away.
   */
  lemma BlockedPressKeepsItsMask(p: Profile, down: seq<byte>, up: seq<byte>, button: nat)
    requires Clicks(p, down, up, button)
    ensures ValidLayouts([p])
    ensures var w5 := Run.Reached([p], 1, 1, PhysicalClick(down, up));
      var sight := SnapshotOf(w5.s, 1, 1000, |w5.s.fifo|);
      && Server.MoveObstacle(Server.Begin(1), ClickMove(button), sight).None?
      && (var start := Started(ClickMove(button), sight.activity, 0);
          && Planned(start, sight, 0).Rest?
          && Planned(Planned(start, sight, 0).e, sight, 0) == Rest(AtPress(button)))
      && Planned(AtPress(button), sight, 0) == Submit(AtPress(button), PressRequest(button))
      && EnqueueOn(w5.s, PressRequest(button), 0).1 == Mixer.Accepted
      && Run.Inv(w5)
    ensures var w5 := Run.Reached([p], 1, 1, PhysicalClick(down, up));
      var w8 := Run.Run(w5, PressOverIt(button));
      && w8.writer.Some? && Writable(w8.s, w8.writer.value)
      && var (t, ev) := Notify(w8.s, w8.writer.value, true, 0);
      && ev == Some(BlockedEvent(button))
      && t.core.scheduled == ButtonBit(button) && t.core.queue == [] && t.core.inflight.None?
    ensures var e := Delivered(Answered(AtPress(button), Mixer.Accepted, 0).0, BlockedEvent(button));
      && e.ack.status.ButtonActive? && e.ack.stage.Done? && !e.ack.pressed && !e.ack.released && !e.ack.uncertain
  {
    SizesFit(p, down, up, button);
    AfterPhysicalClick(p, down, up, button);
    var template := Template(p, down, button);
    hide Clicks, Run.Inv, ValidState, Run.Step, Run.Run, EnqueueOn, Template, Run.Reached, Notify, Server.MoveObstacle, Planned,
         Delivered, ValidLayouts, SnapshotOf, Writable;
    var w5 := Run.Reached([p], 1, 1, PhysicalClick(down, up));
    var s5 := LiftedState(p, down, up, template, button);
    ClickIsAdmitted(p, down, up, template, button);
    SightOfLifted(p, down, up, template, button);
    ThreeTicks(SnapshotOf(s5, 1, 1000, 0), button);
    PressIsQueued(p, down, up, template, button);
    AfterPress(p, down, up, button, w5);
    var w8 := Run.Run(w5, PressOverIt(button));
    Completes(w8, InFlight(p, down, up, template, button), None, FusedReport(p, up, button), 0);
    FusedIsWritten(p, down, up, template, button);
    PressEndsBlocked(button);
  }

  lemma SightOfLifted(p: Profile, down: seq<byte>, up: seq<byte>, template: seq<byte>, button: nat)
    requires up != []
    ensures var sight := SnapshotOf(LiftedState(p, down, up, template, button), 1, 1000, 0);
      sight.ready && sight.generation == 1 && sight.activity == 2
    ensures LiftedState(p, down, up, template, button).fifo == []
  {
    hide AllButtons;
  }

  // ---------------------------------------------------------------- the click after it

  /** A single click of the same button, from another session. */
  function NextClick(button: nat): T.Request {
    T.Request(T.Schedule, button, Key(2, 1), 1, 10000, 20000, T.VERSION1)
  }

  /** The scheduler with that click alone. */
  function NextWork(button: nat): ClickScheduler.Sched {
    ClickScheduler.NoWork.(work := [Server.NewClick(NextClick(button), 0)], tracked := 1)
  }

  function NextPress(button: nat): Request {
    ClickScheduler.EdgeRequest(NextWork(button), ClickPress, ButtonBit(button))
  }

  /** What the transaction left: its mask applied, nothing queued, no physical button down. */
  predicate Masked(s: State, p: Profile, button: nat) {
    && s.latest != [] && s.profile == p && s.fifo == [] && s.physicalButtons == 0
    && s.core.queue == [] && s.core.inflight.None? && s.core.generation == 1
    && s.core.persistent == 0 && s.core.scheduled == ButtonBit(button)
  }

  lemma FusedLeavesMask(p: Profile, down: seq<byte>, up: seq<byte>, template: seq<byte>, button: nat)
    requires Clicks(p, down, up, button) && |up| == p.size
    requires Writable(InFlight(p, down, up, template, button), FusedReport(p, up, button))
    ensures Masked(Notify(InFlight(p, down, up, template, button), FusedReport(p, up, button), true, 0).0, p, button)
  {
    FusedIsWritten(p, down, up, template, button);
    Run.NotifyShape(InFlight(p, down, up, template, button), FusedReport(p, up, button), true, 0);
    CompletedGeneration(InFlight(p, down, up, template, button).core, FusedReport(p, up, button));
    hide ValidProfile, Decoded, ButtonBit, Applied, Notify, Complete;
  }

  lemma CompletedGeneration(c: Core, r: Report)
    ensures Complete(c, r.generation, r.overlay, true).0.generation == c.generation
  {
    hide RemoveFinished, Committed, Finished;
  }

  /** No obstacle stands against the click, and the scheduler asks for its press. */
  lemma NextIsAsked(e: Snapshot, button: nat)
    requires e.ready && e.generation == 1 && e.physical == 0 && e.poll == 1000
    requires 1 <= button <= 8 && e.supported & ButtonBit(button) != 0
    ensures Server.ClickObstacle(Server.Begin(1), NextClick(button), e).None?
    ensures ClickScheduler.PlanTick(NextWork(button), e, 0) == ClickScheduler.AskPress(NextPress(button))
  {
    NothingMasked(ButtonBit(button));
    NoMasks(ButtonBit(button));
    assert ClickScheduler.PlusButton(0, button) == ButtonBit(button);
    hide ButtonBit;
  }

  lemma NextIsQueued(s: State, p: Profile, button: nat)
    requires ValidProfile(p) && ButtonsSupported(p, ButtonBit(button)) && Masked(s, p, button)
    ensures EnqueueOn(s, NextPress(button), 0).1 == Mixer.Accepted
    ensures EnqueueOn(s, NextPress(button), 0).0
            == s.(core := Enqueue(s.core, NextPress(button), true, true, 0).0)
  {
    AxesAre(p);
    hide ButtonBit, Split, ButtonsSupported, NewItem;
    EdgeSplits(p, ButtonBit(button));
    NoMasks(ButtonBit(button));
  }

  /** It is dropped at the next take, since its masks are the applied ones: nothing of it reaches the host. */
  lemma NextIsDropped(s: State, p: Profile, button: nat)
    requires Masked(s, p, button) && Enqueue(s.core, NextPress(button), true, true, 0).1.Accepted?
    requires ValidState(s.(core := Enqueue(s.core, NextPress(button), true, true, 0).0))
    ensures var (t, r) := Take(s.(core := Enqueue(s.core, NextPress(button), true, true, 0).0), 0);
      t.core.queue == [] && t.core.scheduled == ButtonBit(button) && t.core.persistent == 0 && r.None?
  {
    hide ButtonBit, ValidState, NewItem, Expected;
    ClickMasks.LoneEdgeExpiresIff(s.core, NextPress(button), true, true, 0, 0);
    var c := Enqueue(s.core, NextPress(button), true, true, 0).0;
    ExpireShape(c, 0);
    hide Expire;
    assert c.inflight.None? && c.scheduled == s.core.scheduled && c.persistent == s.core.persistent;
  }

  /** A click of the button is admitted, its press asked for and accepted, and dropped at the next take. */
  ghost predicate LosesClick(w: Run.World, button: nat)
    requires Run.Inv(w)
  {
    var sight := SnapshotOf(w.s, 1, 1000, |w.s.fifo|);
    var v := Run.Step(w, Run.EnqueueItem(NextPress(button), 0));
    && Server.ClickObstacle(Server.Begin(1), NextClick(button), sight).None?
    && ClickScheduler.PlanTick(NextWork(button), sight, 0) == ClickScheduler.AskPress(NextPress(button))
    && EnqueueOn(w.s, NextPress(button), 0).1 == Mixer.Accepted
    && Run.Inv(v)
    && var u := Run.Step(v, Run.TakeReport(0));
       u.s.core.queue == [] && u.writer.None? && u.s.core.scheduled == ButtonBit(button)
  }

  /**
   The run goes on: a click of the same button is admitted, its press is asked for and accepted, and then dropped unsent,
   while the scheduler waits for its completion.
   */
  lemma BlockedPressLosesClick(p: Profile, down: seq<byte>, up: seq<byte>, button: nat)
    requires Clicks(p, down, up, button)
    ensures ValidLayouts([p])
    ensures Run.Inv(Run.Reached([p], 1, 1, PhysicalClick(down, up)))
    ensures Run.Inv(Run.Run(Run.Reached([p], 1, 1, PhysicalClick(down, up)), PressOverIt(button)))
    ensures var w8 := Run.Run(Run.Reached([p], 1, 1, PhysicalClick(down, up)), PressOverIt(button));
      var w9 := Run.Step(w8, Run.CompleteReport(true, 0));
      Run.Inv(w9) && w9.s.core.queue == [] && LosesClick(w9, button)
  {
    hide Clicks, Run.Inv, ValidState, Run.Step, Run.Run, EnqueueOn, Template, Run.Reached, Notify, ValidLayouts, SnapshotOf,
         Writable, Masked, Enqueue, Take, ButtonBit, Server.ClickObstacle, ClickScheduler.PlanTick, ValidProfile, InFlight,
         FusedReport, NextPress, ButtonsSupported;
    SizesFit(p, down, up, button);
    SupportOf(p, down, up, button);
    AfterPhysicalClick(p, down, up, button);
    var template := Template(p, down, button);
    var w5 := Run.Reached([p], 1, 1, PhysicalClick(down, up));
    AfterPress(p, down, up, button, w5);
    var w8 := Run.Run(w5, PressOverIt(button));
    Completes(w8, InFlight(p, down, up, template, button), None, FusedReport(p, up, button), 0);
    FusedLeavesMask(p, down, up, template, button);
    var w9 := Run.Step(w8, Run.CompleteReport(true, 0));
    MaskedSight(w9.s, p, button);
    MaskedQueue(w9.s, p, button);
    NextIsAsked(SnapshotOf(w9.s, 1, 1000, |w9.s.fifo|), button);
    NextIsQueued(w9.s, p, button);
    Enqueues(w9, w9.s, None, None, NextPress(button), 0);
    var w10 := Run.Step(w9, Run.EnqueueItem(NextPress(button), 0));
    AcceptedCore(w9.s, NextPress(button));
    NextIsDropped(w9.s, p, button);
    Takes(w10, w10.s, None, 0);
  }

  lemma SupportOf(p: Profile, down: seq<byte>, up: seq<byte>, button: nat)
    requires Clicks(p, down, up, button)
    ensures ButtonsSupported(p, ButtonBit(button)) && AllButtons(p) & ButtonBit(button) != 0
  {
    hide ValidProfile, Decoded, AllButtons, ButtonBit, Matches;
    SupportedBit(AllButtons(p), button);
  }

  lemma MaskedSight(s: State, p: Profile, button: nat)
    requires Masked(s, p, button) && AllButtons(p) & ButtonBit(button) != 0
    ensures var e := SnapshotOf(s, 1, 1000, |s.fifo|);
      e.ready && e.generation == 1 && e.physical == 0 && e.poll == 1000 && e.supported & ButtonBit(button) != 0
  {
    hide AllButtons, ButtonBit;
  }

  lemma MaskedQueue(s: State, p: Profile, button: nat)
    requires Masked(s, p, button)
    ensures s.core.queue == []
  {
  }

  lemma AcceptedCore(s: State, r: Request)
    requires EnqueueOn(s, r, 0).1 == Mixer.Accepted && EnqueueOn(s, r, 0).0 == s.(core := Enqueue(s.core, r, true, true, 0).0)
    ensures Enqueue(s.core, r, true, true, 0).1.Accepted?
  {
    hide Insert, Expected, Splittable;
  }

  // ---------------------------------------------------------------- a mouse it happens with

  const BOOT_X: Field := Field(8, 8, -127, 127)
  const BOOT_Y: Field := Field(16, 8, -127, 127)

  /** The layout of the HID boot protocol, as `set_mouse_protocol` builds it. */
  function BootMouse(): Profile {
    Profile(0, 3, BOOT_X, BOOT_Y, Absent, Absent,
            map[1 := Field(0, 1, 0, 1), 2 := Field(1, 1, 0, 1), 3 := Field(2, 1, 0, 1)], [BOOT_X, BOOT_Y])
  }

  lemma Powers()
    ensures Pow2(7) == 128 && Pow2(8) == 256 && Pow2(1) == 2 && Pow2(0) == 1
  {
    assert Pow2(2) == 4 && Pow2(3) == 8 && Pow2(4) == 16 && Pow2(5) == 32 && Pow2(6) == 64;
  }

  lemma BootMouseIsValid()
    ensures ValidProfile(BootMouse())
  {
    Powers();
    hide Pow2;
  }

  /** A field over zero bits reads zero. */
  lemma {:induction false} ZeroBits(s: seq<byte>, offset: int, n: nat)
    requires 0 <= offset && offset + n <= 8 * |s|
    requires forall i :: offset <= i < offset + n ==> !BitAt(s, i)
    ensures Bits(s, offset, n) == 0
    decreases n
  {
    hide BitAt;
    if n > 0 {
      ZeroBits(s, offset, n - 1);
    }
  }

  lemma ZeroByte(s: seq<byte>, at: nat)
    requires at < |s| && s[at] == 0
    ensures forall i :: 8 * at <= i < 8 * at + 8 ==> !BitAt(s, i)
  {
    forall i | 8 * at <= i < 8 * at + 8
      ensures !BitAt(s, i)
    {
      assert i / 8 == at;
      NothingMasked(BitMask(i % 8));
      hide BitMask;
    }
  }

  lemma FirstBits(b: byte)
    requires b == 0 || b == 1
    ensures BitAt([b, 0, 0], 0) == (b == 1) && !BitAt([b, 0, 0], 1) && !BitAt([b, 0, 0], 2)
  {
  }

  lemma OneBit(s: seq<byte>, offset: int)
    requires 0 <= offset < 8 * |s|
    ensures Bits(s, offset, 1) == if BitAt(s, offset) then 1 else 0
  {
    assert Bits(s, offset, 0) == 0;
    Powers();
  }

  /** The button mask of a boot report whose first byte is 0 or 1. */
  lemma BootButtons(b: byte)
    requires b == 0 || b == 1
    ensures Pressed([b, 0, 0], BootMouse()) == b
  {
    var s, p := [b, 0, 0], BootMouse();
    FirstBits(b);
    OneBit(s, 0);
    OneBit(s, 1);
    OneBit(s, 2);
    hide Bits, BitAt;
    var bit := k => ReadBit(s, p, k);
    assert ReadBit(s, p, 1) == b && ReadBit(s, p, 2) == 0 && ReadBit(s, p, 3) == 0;
    assert forall k :: k > 3 ==> ReadBit(s, p, k) == 0;
    hide ReadBit;
    assert ButtonMask(s, p, 1) == b;
    assert ButtonMask(s, p, 3) == b;
    assert ButtonMask(s, p, 5) == b;
    assert ButtonMask(s, p, 7) == b;
  }

  lemma BootDecodes(b: byte)
    requires (b == 0 || b == 1) && ValidProfile(BootMouse())
    ensures Decoded([b, 0, 0], BootMouse()) == Still.(buttons := b)
  {
    var s := [b, 0, 0];
    hide ValidProfile;
    BootButtons(b);
    ZeroByte(s, 1);
    ZeroByte(s, 2);
    ZeroBits(s, 8, 8);
    ZeroBits(s, 16, 8);
    Powers();
    hide Bits, BitAt, Pressed, Pow2;
  }

  lemma BootSupports()
    ensures ButtonsSupported(BootMouse(), 1)
  {
    var p := BootMouse();
    assert DeclaredBit(p, 1) == 1;
    assert Supported(p, 1) & 1 == 1;
    assert Supported(p, 3) & 1 == 1;
    assert Supported(p, 5) & 1 == 1;
    assert Supported(p, 7) & 1 == 1;
    assert Supported(p, 8) & 1 == 1;
  }

  /** So a boot mouse whose left button goes down and up, with a click between, ends like that. */
  lemma BootMouseClicks()
    ensures Clicks(BootMouse(), [1, 0, 0], [0, 0, 0], 1)
  {
    BootMouseIsValid();
    BootDecodes(1);
    BootDecodes(0);
    BootSupports();
    hide ValidProfile, Decoded, ButtonsSupported;
  }
}
