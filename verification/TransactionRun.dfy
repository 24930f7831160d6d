/**
 What every run of the transaction loop guarantees: balanced completion, a sound uncertainty flag, whole
 movements that the layout can split, and writer steps that are the endpoint's own.
 */
module TransactionRun {
  import opened Common
  import opened HidReport
  import opened MoveTypes
  import opened Mixer
  import opened Executor
  import opened TransactionLoop
  import opened TransactionSteps
  import MouseLayout
  import Endpoint
  import EndpointRun

  // ---------------------------------------------------------------- every run

  lemma StepKeepsInv(w: World, l: Label)
    requires Inv(w)
    ensures Inv(Step(w, l))
  {
    hide Inv, TickStep, TurnStep, DeliverStep, StartStep, MotionStep, TakeStep, FinishStep, Reset, Proceeded, Cancelling;
    if Possible(w, l) {
      match l
      case Tick(snapshot, now, ready, supported) => TickKeepsInv(w, snapshot, now, ready, supported);
      case ReadEvents => ReadKeepsInv(w);
      case DeliverOne(now) => DeliverKeepsInv(w, now);
      case CheckOverflow(now) => OverflowKeepsInv(w, now);
      case ClickTurn(snapshot, now, ready, supported) => TurnKeepsInv(w, snapshot, now, ready, supported);
      case ResetAll(now) => ResetKeepsInv(w, now);
      case AcceptRelease(key, now) => AcceptReleaseKeepsInv(w, key, now);
      case AcceptClick(click) => AcceptKeepsInv(w, click);
      case StartMove(request, activity, now) => StartKeepsInv(w, request, activity, now);
      case ProceedMove => ProceedKeepsInv(w);
      case CancelMove => ProceedKeepsInv(w);
      case Motion(command, next, latest, ready, supported, now) =>
        MotionKeepsInv(w, command, next, latest, ready, supported, now);
      case Adopt => AdoptKeepsInv(w);
      case Arrival(changed) => ArrivalKeepsInv(w, changed);
      case Layout(generation) => LayoutKeepsInv(w, generation);
      case Learn(layout) => LearnKeepsInv(w, layout);
      case Take(grab, now) => TakeKeepsInv(w, grab, now);
      case Finish(success, now) => FinishKeepsInv(w, success, now);
    }
  }

  lemma ResetKeepsInv(w: World, now: nat)
    requires Inv(w)
    ensures Inv(Reset(w, None, now))
  {
    hide Inv, LinkInv, UsedInv, OverInv, SchedInv, Quiet;
    PartsOfInv(w);
    ResetEnds(w, None, now);
  }

  lemma {:induction false} RunKeepsInv(w: World, labels: seq<Label>)
    requires Inv(w)
    ensures Inv(Run(w, labels))
    decreases |labels|
  {
    hide Inv, Step;
    if labels != [] {
      StepKeepsInv(w, labels[0]);
      RunKeepsInv(Step(w, labels[0]), labels[1..]);
    }
  }

  lemma {:induction false} RunParts(w: World, a: seq<Label>, b: seq<Label>)
    ensures Run(w, a + b) == Run(Run(w, a), b)
    decreases |a|
  {
    hide Step;
    if a == [] {
      assert a + b == b;
    } else {
      assert (a + b)[1..] == a[1..] + b;
      RunParts(Step(w, a[0]), a[1..], b);
    }
  }

  function Reached(generation: nat, labels: seq<Label>): World {
    Run(Begin(generation), labels)
  }

  lemma ReachedInv(generation: nat, labels: seq<Label>)
    ensures Inv(Reached(generation, labels))
  {
    BeginInv(generation);
    RunKeepsInv(Begin(generation), labels);
  }

  /** A completed transaction went exactly the way it was asked, came back exactly, and pressed once if at all. */
  lemma CompletedIsBalanced(generation: nat, labels: seq<Label>)
    ensures var w := Reached(generation, labels);
      w.exec.ack.status.Completed? ==>
        var a, r := w.exec.ack, w.exec.request;
        && a.outX == r.dx && a.outY == r.dy && a.returnX == -r.dx && a.returnY == -r.dy
        && a.residualX == 0 && a.residualY == 0 && !a.uncertain
        && a.pressed == a.released == (r.button != 0)
        && w.wrote == Tally(r.dx, r.dy, -r.dx, -r.dy, if r.button != 0 then 1 else 0, if r.button != 0 then 1 else 0)
  {
    ReachedInv(generation, labels);
  }

  /** Once over and not flagged uncertain, the acknowledged displacement is exactly what was written. */
  lemma UncertainFlagIsSound(generation: nat, labels: seq<Label>)
    ensures var w := Reached(generation, labels);
      var a := w.exec.ack;
      !IsActive(w.exec) && w.exec.request.key != NoKey && !a.uncertain ==>
        && a.outX == w.wrote.outX && a.outY == w.wrote.outY
        && a.returnX == w.wrote.backX && a.returnY == w.wrote.backY
  {
    ReachedInv(generation, labels);
  }

  /** What a lost completion leads to. */
  predicate EndsUncertain(v: World) {
    !IsActive(v.exec) && v.exec.ack.uncertain && v.core.queue == [] && v.sched.releasePending && !v.sched.releaseInflight
  }

  /**
   While a completion is lost no unread event finishes the item: the overflow check that follows, or under a new
   layout the next tick that sees it, ends the transaction as uncertain in a reset.
   */
  lemma LostEventForcesReset(generation: nat, labels: seq<Label>, snapshot: Snapshot, now: nat, ready: bool, supported: bool)
    ensures var w := Reached(generation, labels);
      IsActive(w.exec) && w.lost ==>
        && (w.overflow || w.core.generation != w.exec.request.generation)
        && Unfinished(w.exec, w.batch) && (!w.reading ==> Unfinished(w.exec, w.queue))
        && (w.overflow && w.reading && w.batch == [] ==> EndsUncertain(Step(w, CheckOverflow(now))))
        && (!w.reading && snapshot.generation == w.core.generation != w.exec.request.generation ==>
              EndsUncertain(Step(w, Tick(snapshot, now, ready, supported))))
  {
    ReachedInv(generation, labels);
    var w := Reached(generation, labels);
    hide Run, Reached, LinkInv, UsedInv, ExecInv, StageEvents, StageItem, Remains, OverInv, SchedInv;
    StoppedShape(w.exec, Cancelled, now);
    StoppedShape(w.exec, EndpointChanged, now);
    StoppedShape(Stopped(w.exec, EndpointChanged, now), Cancelled, now);
    hide Stopped, Redirected, Advance;
  }

  // ---------------------------------------------------------------- what is asked of the mixer

  /** A request of the transaction: the whole way out, the whole way back, or an edge without motion. */
  predicate AsksWhole(m: MoveRequest, r: Request) {
    && IsTransaction(r.kind) && r.persistent == 0 && r.expectedGeneration == m.generation
    && r.command == (if r.kind.TransactionOut? then Command(m.dx, m.dy, 0, 0, 0)
                     else if r.kind.TransactionReturn? then Command(-m.dx, -m.dy, 0, 0, 0)
                     else Still)
    && r.scheduled == (if r.kind.TransactionPress? then ButtonBit(m.button) else 0)
  }

  /** Motion is only ever asked for as the whole way out or the whole way back, for the layout of the request. */
  lemma MotionIsWhole(generation: nat, labels: seq<Label>, snapshot: Snapshot, now: nat)
    ensures var w := Reached(generation, labels);
      var plan := Planned(w.exec, snapshot, now);
      plan.Submit? ==> w.exec.request.generation != 0 && AsksWhole(w.exec.request, plan.request)
  {
    ReachedInv(generation, labels);
    var w := Reached(generation, labels);
    hide Run, Reached, LinkInv, UsedInv, ActiveInv, OverInv, SchedInv;
    if Planned(w.exec, snapshot, now).Submit? {
      SubmitsWhole(w.exec, now);
    }
  }

  lemma SubmitsWhole(e: Exec, now: nat)
    requires ExecInv(e) && IsActive(e) && !e.pending
    ensures var plan := Advance(Redirected(e, now), now);
      plan.Submit? ==> e.request.generation != 0 && AsksWhole(e.request, plan.request)
  {
    RedirectedMoves(e, now);
    var f := Redirected(e, now);
    hide Redirected, ButtonBit;
    if f.ack.stage.Returning? {
      assert -f.ack.residualX == -f.request.dx && -f.ack.residualY == -f.request.dy;
    }
    hide ExecInv, Moves;
  }

  // ---------------------------------------------------------------- the writer's steps are the endpoint's

  function GrabOf(r: Option<Endpoint.Report>): Grab {
    match r
    case None => Skip
    case Some(report) =>
      if report.overlay.None? then Plain(report.generation, report.final)
      else Carry(report.overlay.value.applied, report.overlay.value.blocked, report.final)
  }

  function InWriter(r: Option<Endpoint.Report>): Option<Carried> {
    match r
    case None => None
    case Some(report) => Some(Carried(report.generation, report.overlay, report.final))
  }

  /** What a take from the expired state `s` does to the synthetic side. */
  ghost predicate Grabbed(s: Endpoint.State, c: Core, r: Option<Endpoint.Report>) {
    if r.None? || r.value.overlay.None? then c == s.core
    else
      var o := r.value.overlay.value;
      && FrontUsable(s.core) && MayCarry(s.core.queue[0], o.applied)
      && c == MarkInflight(s.core) && r.value.generation == s.core.generation
      && o == OverlayOf(s.core.queue[0], o.applied, o.blocked)
  }

  lemma FusedIsGrabbed(s: Endpoint.State, applied: Command)
    requires Endpoint.ValidState(s) && EndpointRun.ChoiceFits(s, Endpoint.Fused(applied))
    ensures Grabbed(s, MarkInflight(s.core), Some(Endpoint.ComposePhysical(s, Some(Endpoint.FrontOverlay(s, applied)))))
  {
    hide Endpoint.ValidState, Endpoint.Blocks, Endpoint.ComposePhysical, EndpointRun.Faithful, Endpoint.MotionFits, MayCarry;
    EndpointRun.PhysicalIsFaithful(s, Some(Endpoint.FrontOverlay(s, applied)));
  }

  lemma StandaloneIsGrabbed(s: Endpoint.State, applied: Command, competing: bool)
    requires Endpoint.ValidState(s) && EndpointRun.ChoiceFits(s, Endpoint.Standalone(applied, competing))
    ensures Grabbed(s, MarkInflight(s.core), Some(Endpoint.ComposeStandalone(s, applied, competing)))
  {
    hide Endpoint.ValidState, Endpoint.Blocks, MouseLayout.WithButtons, MouseLayout.Encoded, MouseLayout.ZeroRelative,
         MayCarry, MouseLayout.AxesAccept, Either;
  }

  lemma PassthroughIsGrabbed(s: Endpoint.State)
    requires Endpoint.ValidState(s) && s.fifo != []
    ensures Endpoint.ComposePhysical(s, None).overlay.None?
  {
    hide Endpoint.ValidState, Endpoint.ComposePhysical, EndpointRun.Faithful;
    EndpointRun.PhysicalIsFaithful(s, None);
  }

  lemma PerformIsGrabbed(s: Endpoint.State)
    requires Endpoint.ValidState(s)
    ensures var (t, r) := Endpoint.Perform(s, Endpoint.Choose(s)); Grabbed(s, t.core, r)
  {
    hide Endpoint.ValidState, Endpoint.Choose, Endpoint.ComposePhysical, Endpoint.ComposeStandalone, Grabbed;
    EndpointRun.ChoiceIsFitting(s);
    var choice := Endpoint.Choose(s);
    if choice.Passthrough? {
      PassthroughIsGrabbed(s);
      PlainIsGrabbed(s, Some(Endpoint.ComposePhysical(s, None)));
    } else if choice.Fused? {
      FusedIsGrabbed(s, choice.applied);
    } else if choice.Standalone? {
      StandaloneIsGrabbed(s, choice.applied, choice.competing);
    } else {
      PlainIsGrabbed(s, None);
    }
  }

  lemma PlainIsGrabbed(s: Endpoint.State, r: Option<Endpoint.Report>)
    requires r.None? || r.value.overlay.None?
    ensures Grabbed(s, s.core, r)
  {
  }

  lemma ExpiredIsValid(s: Endpoint.State, now: nat)
    requires Endpoint.ValidState(s) && s.core.inflight.None?
    ensures Endpoint.ValidState(s.(core := Expire(s.core, now)))
  {
    ExpireKeepsInv(s.core, now);
    ExpireKeepsInflight(s.core, now);
    hide Expire, CoreInv;
    Endpoint.CoreSwapKeepsValid(s, Expire(s.core, now));
  }

  /** A transaction's item is carried in parts of the endpoint's layout, or to put its masks in force. */
  lemma PerformCarriesPart(s: Endpoint.State, layout: Profile)
    requires Endpoint.ValidState(s) && (s.core.queue != [] ==> layout == s.profile)
    ensures var r := Endpoint.Perform(s, Endpoint.Choose(s)).1;
      GrabOf(r).Carry? && s.core.queue != [] && IsTransaction(s.core.queue[0].kind) ==>
        Shortens(layout, s.core.queue[0], GrabOf(r).applied)
  {
    hide Endpoint.ValidState, Endpoint.Choose, Endpoint.ComposePhysical, Endpoint.ComposeStandalone, Shortens;
    EndpointRun.ChoiceIsFitting(s);
    var choice := Endpoint.Choose(s);
    if s.core.queue != [] && IsTransaction(s.core.queue[0].kind) {
      EndpointRun.ChoiceShortens(s);
    }
    if choice.Passthrough? {
      PassthroughIsGrabbed(s);
    } else if choice.Fused? {
      CarriedByPhysical(s, choice.applied);
    } else if choice.Standalone? {
      CarriedAlone(s, choice.applied, choice.competing);
    }
  }

  lemma CarriedByPhysical(s: Endpoint.State, applied: Command)
    requires Endpoint.ValidState(s) && EndpointRun.ChoiceFits(s, Endpoint.Fused(applied))
    ensures var r := Endpoint.ComposePhysical(s, Some(Endpoint.FrontOverlay(s, applied)));
      r.overlay.Some? && r.overlay.value.applied == applied
  {
    hide Endpoint.ValidState, Endpoint.Blocks, Endpoint.ComposePhysical, EndpointRun.Faithful, Endpoint.MotionFits, MayCarry;
    EndpointRun.PhysicalIsFaithful(s, Some(Endpoint.FrontOverlay(s, applied)));
  }

  lemma CarriedAlone(s: Endpoint.State, applied: Command, competing: bool)
    requires Endpoint.ValidState(s) && s.core.queue != [] && s.latest != []
    ensures var r := Endpoint.ComposeStandalone(s, applied, competing);
      r.overlay.Some? && r.overlay.value.applied == applied
  {
    hide Endpoint.ValidState, Endpoint.Blocks, MouseLayout.WithButtons, MouseLayout.Encoded, MouseLayout.ZeroRelative, Either;
  }

  /** Whatever the endpoint's take does to its synthetic side is one of this loop's take steps. */
  lemma EndpointTakeIsAStep(w: World, s: Endpoint.State, now: nat)
    requires Endpoint.ValidState(s) && w.core == s.core && w.writer.None? && w.core.inflight.None?
    requires w.core.queue != [] ==> w.layout == s.profile
    requires forall i :: 0 <= i < |s.fifo| ==> s.fifo[i].generation <= s.core.generation
    ensures var (t, r) := Endpoint.Take(s, now);
      && Possible(w, Take(GrabOf(r), now))
      && Step(w, Take(GrabOf(r), now)) == w.(core := t.core, writer := InWriter(r))
  {
    hide Endpoint.Perform, Endpoint.Choose, Endpoint.ValidState, Expire, MayCarry, FrontUsable, CoreInv, Shortens;
    ExpireKeepsInflight(s.core, now);
    ExpiredIsValid(s, now);
    ExpireShape(s.core, now);
    var e := s.(core := Expire(s.core, now));
    PerformIsGrabbed(e);
    PerformCarriesPart(e, w.layout);
    PlainGeneration(e);
  }

  lemma PlainGeneration(s: Endpoint.State)
    requires Endpoint.ValidState(s) && forall i :: 0 <= i < |s.fifo| ==> s.fifo[i].generation <= s.core.generation
    ensures var grab := GrabOf(Endpoint.Perform(s, Endpoint.Choose(s)).1);
      grab.Plain? ==> grab.generation <= s.core.generation
  {
    hide Endpoint.ValidState, Endpoint.Choose, Endpoint.ComposePhysical, Endpoint.ComposeStandalone, EndpointRun.Faithful;
    EndpointRun.ChoiceIsFitting(s);
    var choice := Endpoint.Choose(s);
    if choice.Passthrough? {
      EndpointRun.PhysicalIsFaithful(s, None);
    } else if choice.Fused? {
      CarriedByPhysical(s, choice.applied);
    } else if choice.Standalone? {
      CarriedAlone(s, choice.applied, choice.competing);
    }
  }

  lemma ExpireKeepsInflight(c: Core, now: nat)
    ensures Expire(c, now).inflight == c.inflight && Expire(c, now).generation == c.generation
  {
    ExpireShape(c, now);
    hide Expire;
  }

  /** The endpoint's completion is this loop's completion, with the same event. */
  lemma EndpointNotifyIsAStep(w: World, s: Endpoint.State, r: Endpoint.Report, success: bool, now: nat)
    requires Endpoint.Writable(s, r) && r.instance == s.instance
    requires w.core == s.core && w.writer == InWriter(Some(r))
    ensures var (t, ev) := Endpoint.Notify(s, r, success, now);
      var v := FinishStep(w, success, now);
      && v.core == t.core && v.writer.None?
      && (ev.None? ==> v.queue == w.queue && v.overflow == w.overflow)
      && (ev.Some? && |w.queue| >= MAX_EVENTS ==> v.queue == w.queue && v.overflow)
      && (ev.Some? && |w.queue| < MAX_EVENTS ==> v.queue == w.queue + [ev.value])
  {
    NoteKeepsCore(s, r, success);
    hide Endpoint.NotePhysical, Complete, Endpoint.Writable, Add, Writes;
  }

  lemma NoteKeepsCore(s: Endpoint.State, r: Endpoint.Report, success: bool)
    requires Endpoint.Writable(s, r)
    ensures Endpoint.NotePhysical(s, r, success).core == s.core
  {
  }
}
