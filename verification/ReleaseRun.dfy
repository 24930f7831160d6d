/**
 The release obligation in every run, transactions included: a press that was written is released, or its release is
 owed, unless the physical button blocked it; and a ReleaseAll completes only once its report was fully written.
 */
module ReleaseRun {
  import opened Common
  import opened HidReport
  import opened MoveTypes
  import opened Mixer
  import opened Executor
  import opened ClickScheduler
  import opened TransactionLoop
  import opened TransactionSteps
  import opened TransactionRun
  import opened TransactionProgress

  // ---------------------------------------------------------------- how a transaction ends

  /** A release is owed, with nothing queued before it. */
  predicate Owed(w: World) {
    w.sched.releasePending && !w.sched.releaseInflight && w.core.queue == []
  }

  /** The step reads that the transaction's press is written over a button that was already down. */
  predicate ReadsBlockedPress(w: World, l: Label) {
    && l.DeliverOne? && Possible(w, l)
    && Mine(w.exec, w.batch[0]) && w.batch[0].success && w.batch[0].finished
    && w.batch[0].kind.TransactionPress? && w.batch[0].blocked
  }

  predicate Even(t: Tally) {
    t.presses == t.releases
  }

  /** How the transaction ends, if it does: with a release owed, or with every press released, unless blocked. */
  predicate EndsWell(w: World, v: World, blocked: bool) {
    !IsActive(v.exec) ==>
      && (v.sched.releasePending ==> Owed(v) && !blocked)
      && (!v.sched.releasePending ==> (Even(v.wrote) <==> !blocked))
  }

  lemma ResetEndsWell(w: World, attach: Option<Key>, now: nat)
    ensures forall u: World :: EndsWell(u, Reset(w, attach, now), false)
  {
    hide Stopped, Even;
  }

  lemma AcknowledgedEdges(e: Exec)
    ensures Acknowledged(e).presses == (if e.ack.pressed then 1 else 0)
    ensures Acknowledged(e).releases == (if e.ack.released then 1 else 0)
  {
  }

  lemma AdvanceEndsReleased(e: Exec, now: nat)
    requires ExecInv(e) && IsActive(e) && !e.pending
    ensures var plan := Advance(Redirected(e, now), now);
      && !plan.Abort? && (plan.Submit? ==> IsActive(plan.e))
      && (!IsActive(plan.e) ==> plan.Rest? && e.ack.pressed == e.ack.released)
  {
    hide TransactionRequest;
  }

  lemma TickEndsWell(w: World, snapshot: Snapshot, now: nat, ready: bool, supported: bool)
    requires Inv(w) && IsActive(w.exec)
    ensures EndsWell(w, TickStep(w, snapshot, now, ready, supported), false)
  {
    hide Inv, Stopped, Enqueue, Redirected, Advance, Even;
    ExecOfInv(w);
    var plan := Planned(w.exec, snapshot, now);
    ResetEndsWell(w.(exec := plan.e), None, now);
    if !w.exec.pending {
      AdvanceEndsReleased(w.exec, now);
      if plan.Submit? {
        var (c, result) := Enqueue(w.core, plan.request, ready, supported, now);
        ResetEndsWell(w.(exec := Answered(plan.e, result, now).0, core := c), None, now);
      } else if plan.Rest? && !IsActive(plan.e) {
        QuietIsEven(w);
      }
    }
    hide Reset;
  }

  lemma QuietIsEven(w: World)
    requires Inv(w) && IsActive(w.exec) && !w.exec.pending
    ensures w.exec.ack.pressed == w.exec.ack.released ==> Even(w.wrote)
    ensures !w.sched.releasePending
  {
    AcknowledgedEdges(w.exec);
    hide LinkInv, UsedInv, ExecInv, OverInv, Acknowledged;
  }

  /** The finishing report of the stage: what it says of presses and releases, and whether it ends the transaction. */
  lemma FinishingEdges(e: Exec, ev: WriterEvent, wrote: Tally)
    requires ExecInv(e) && IsActive(e) && e.pending && ev.kind == KindAt(e.ack.stage) && IsTransaction(ev.kind)
    requires Mine(e, ev) && ev.success && wrote == Add(Acknowledged(e), Unacknowledged(e, ev))
    ensures var f := ItemDone(Credited(e, ev), ev);
      !IsActive(f) ==> (Even(wrote) <==> !(ev.kind.TransactionPress? && ev.blocked))
    ensures ev.kind.TransactionPress? && ev.blocked ==> !IsActive(ItemDone(Credited(e, ev), ev))
  {
    CreditedLedger(e, ev);
    ItemDoneStage(Credited(e, ev), ev);
    AcknowledgedEdges(e);
    hide Credited, ItemDone, Mine;
  }

  lemma DeliverEndsWell(w: World, now: nat)
    requires Inv(w) && w.reading && w.batch != [] && IsActive(w.exec)
    ensures EndsWell(w, DeliverStep(w, now), ReadsBlockedPress(w, DeliverOne(now)))
  {
    hide Inv, Stopped, Mine, Even, Acknowledged, Unacknowledged, Add, Settled;
    ExecOfInv(w);
    var e, ev := w.exec, w.batch[0];
    NothingOwed(w);
    SettledIsOnward(w.sched, ev);
    ResetEndsWell(w.(exec := Delivered(e, ev), batch := w.batch[1..]), None, now);
    hide Reset;
    if ev.success && Mine(e, ev) {
      KindOfMine(w);
      FirstOfStage(w);
      PendingOfMine(w);
      if ev.finished {
        AccountOfMine(w);
        FinishingEdges(e, ev, w.wrote);
        hide Credited, ItemDone;
      } else {
        CreditedFrame(e, ev);
        hide Credited;
      }
    }
  }

  lemma NothingOwed(w: World)
    requires Inv(w) && IsActive(w.exec)
    ensures !w.sched.releasePending
  {
  }

  lemma PendingOfMine(w: World)
    requires Inv(w) && IsActive(w.exec) && w.batch != [] && Mine(w.exec, w.batch[0])
    ensures w.exec.pending
  {
    MineIsPending(w);
  }

  lemma AccountOfMine(w: World)
    requires Inv(w) && IsActive(w.exec) && w.batch != [] && Mine(w.exec, w.batch[0]) && w.batch[0].finished
    ensures w.wrote == Add(Acknowledged(w.exec), Unacknowledged(w.exec, w.batch[0]))
  {
    MineIsPending(w);
    hide LinkInv, UsedInv, ExecInv, OverInv, SchedInv, Mine, KindAt;
    StageOfEvent(w);
  }

  lemma StillActive(w: World, v: World)
    ensures IsActive(v.exec) ==> EndsWell(w, v, false)
  {
  }

  lemma StepEndsWell(w: World, l: Label)
    requires Inv(w) && IsActive(w.exec)
    ensures EndsWell(w, Step(w, l), ReadsBlockedPress(w, l))
  {
    hide Inv, EndsWell, Reset, TickStep, TurnStep, DeliverStep, MotionStep, TakeStep, FinishStep;
    StillActive(w, Step(w, l));
    if Possible(w, l) {
      match l
      case Tick(snapshot, now, ready, supported) => TickEndsWell(w, snapshot, now, ready, supported);
      case ClickTurn(snapshot, now, ready, supported) => TurnWaits(w, snapshot, now, ready, supported);
      case DeliverOne(now) => DeliverEndsWell(w, now);
      case CheckOverflow(now) => ResetEndsWell(w.(reading := false, overflow := false), None, now);
      case ResetAll(now) => ResetEndsWell(w, None, now);
      case AcceptRelease(key, now) => ResetEndsWell(w.(used := w.used + {key}), Some(key), now);
      case Take(grab, now) => SameExec(w, l);
      case Finish(success, now) => SameExec(w, l);
      case Motion(command, next, latest, ready, supported, now) => SameExec(w, l);
      case _ =>
    }
  }

  lemma BlockedPressEnds(w: World, now: nat)
    requires Inv(w) && IsActive(w.exec) && ReadsBlockedPress(w, DeliverOne(now))
    ensures !IsActive(DeliverStep(w, now).exec) && DeliverStep(w, now).exec.ack.status.ButtonActive?
  {
    hide Inv, Mine, Settled, Stopped;
    ExecOfInv(w);
    KindOfMine(w);
    FirstOfStage(w);
    PendingOfMine(w);
    CreditedLedger(w.exec, w.batch[0]);
    ItemDoneStage(Credited(w.exec, w.batch[0]), w.batch[0]);
    hide Credited, ItemDone;
  }

  /**
   However a running transaction ends: it leaves a release owed with nothing before it, or every press it wrote is
   released, but for one case, and exactly that: the server reads that its press went over a button already down.
   */
  lemma PressIsNeverForgotten(generation: nat, labels: seq<Label>, l: Label)
    requires IsActive(Reached(generation, labels).exec)
    ensures var w := Reached(generation, labels);
      var v := Step(w, l);
      && (!IsActive(v.exec) && v.sched.releasePending ==> Owed(v))
      && (!IsActive(v.exec) && !v.sched.releasePending && v.wrote.presses != v.wrote.releases <==> ReadsBlockedPress(w, l))
  {
    ReachedInv(generation, labels);
    var w := Reached(generation, labels);
    hide Inv, Reached, Run, Step;
    StepEndsWell(w, l);
    if ReadsBlockedPress(w, l) {
      BlockedPressEnds(w, l.now);
      DeliveringIs(w, l.now);
      StepEndsWell(w, DeliverOne(l.now));
    }
    hide ReadsBlockedPress;
  }

  lemma DeliveringIs(w: World, now: nat)
    requires Possible(w, DeliverOne(now))
    ensures Step(w, DeliverOne(now)) == DeliverStep(w, now)
  {
    hide DeliverStep;
  }

  // ---------------------------------------------------------------- how a release ends

  predicate Clean(x: Item) {
    x.kind.ReleaseAll? ==> x.persistent == 0 && x.scheduled == 0
  }

  /** Releases ask for no button, and only accepted keys are written. */
  ghost predicate ReleaseInv(w: World) {
    && (forall x :: x in w.core.queue ==> Clean(x))
    && (w.writer.Some? && w.writer.value.overlay.Some? ==>
          var o := w.writer.value.overlay.value; o.kind.ReleaseAll? ==> o.persistent == 0 && o.scheduled == 0)
    && (forall key :: key in w.released ==> Known(w, key))
  }

  lemma EnqueueKeepsClean(c: Core, r: Request, ready: bool, supported: bool, now: nat)
    requires (forall x :: x in c.queue ==> Clean(x)) && (r.kind.ReleaseAll? ==> r.persistent == 0 && r.scheduled == 0)
    ensures forall x :: x in Enqueue(c, r, ready, supported, now).0.queue ==> Clean(x)
  {
    hide Supersede, Either, Expected;
    SupersedeShape(c, r.persistent);
  }

  /** A step that asks the mixer for something, or drops everything, and writes nothing. */
  lemma AskKeepsReleases(w: World, v: World, r: Request, ready: bool, supported: bool, now: nat)
    requires ReleaseInv(w) && (r.kind.ReleaseAll? ==> r.persistent == 0 && r.scheduled == 0)
    requires v.core.queue == w.core.queue || v.core == Enqueue(w.core, r, ready, supported, now).0 || v.core.queue == []
    requires v.writer == w.writer && v.batch == w.batch && v.queue == w.queue && v.released == w.released
    requires w.used <= v.used
    ensures ReleaseInv(v)
  {
    EnqueueKeepsClean(w.core, r, ready, supported, now);
    hide Enqueue, Clean;
  }

  lemma TickKeepsReleases(w: World, snapshot: Snapshot, now: nat, ready: bool, supported: bool)
    requires ReleaseInv(w)
    ensures ReleaseInv(TickStep(w, snapshot, now, ready, supported))
  {
    hide ReleaseInv, Enqueue, Answered, Stopped;
    var plan := Planned(w.exec, snapshot, now);
    PlansNoRelease(w.exec, snapshot, now);
    hide Planned;
    AskKeepsReleases(w, TickStep(w, snapshot, now, ready, supported),
                     if plan.Submit? then plan.request else ReleaseRequest(w.sched), ready, supported, now);
  }

  lemma PlansNoRelease(e: Exec, snapshot: Snapshot, now: nat)
    ensures var plan := Planned(e, snapshot, now); plan.Submit? ==> IsTransaction(plan.request.kind)
  {
    hide ButtonBit, Stopped, Redirected;
  }

  lemma TurnKeepsReleases(w: World, snapshot: Snapshot, now: nat, ready: bool, supported: bool)
    requires ReleaseInv(w)
    ensures ReleaseInv(TurnStep(w, snapshot, now, ready, supported))
  {
    hide ReleaseInv, Enqueue, PlanTick, TurnAnswered, FinishFront, Stopped;
    var turn := PlanTick(w.sched, snapshot, now);
    TurnShape(w.sched, snapshot, now, Mixer.Accepted);
    var asks := turn.AskRelease? || turn.AskPress? || turn.AskLift?;
    AskKeepsReleases(w, TurnStep(w, snapshot, now, ready, supported),
                     if asks then turn.request else ReleaseRequest(w.sched), ready, supported, now);
  }

  lemma TakeKeepsReleases(w: World, grab: Grab, now: nat)
    requires ReleaseInv(w)
    ensures ReleaseInv(TakeStep(w, grab, now))
  {
    ExpireShape(w.core, now);
    var d := Expire(w.core, now);
    hide Expire, MayCarry;
    var k := |w.core.queue| - |d.queue|;
    forall i | 0 <= i < |d.queue|
      ensures Clean(d.queue[i])
    {
      AgedKeepsMasks(w.core.queue[k + i], now);
      assert w.core.queue[k + i] in w.core.queue;
    }
    if d.queue != [] {
      assert d.queue[0] in d.queue;
    }
  }

  lemma AgedKeepsMasks(item: Item, now: nat)
    ensures var a := Aged(item, now);
      a.kind == item.kind && a.persistent == item.persistent && a.scheduled == item.scheduled
  {
  }

  lemma FinishKeepsReleases(w: World, success: bool, now: nat)
    requires ReleaseInv(w) && LinkInv(w) && UsedInv(w) && w.writer.Some?
    ensures ReleaseInv(FinishStep(w, success, now))
  {
    var v := FinishStep(w, success, now);
    FinishShape(w, success, now);
    PostShape(w, success, now);
    FinishReleased(w, success, now);
    LeftIsClean(w, success);
    hide FinishStep, LinkInv, Complete, PostedEvent, QueueAfter, Reported, KindOf, Clean;
  }

  lemma FinishReleased(w: World, success: bool, now: nat)
    requires w.writer.Some?
    ensures var v := FinishStep(w, success, now);
      v.released == if success && CarriesRelease(w) then w.released + {w.writer.value.overlay.value.key} else w.released
  {
    hide Complete, Posted, CarriesRelease;
  }

  lemma LeftIsClean(w: World, success: bool)
    requires LinkInv(w) && forall x :: x in w.core.queue ==> Clean(x)
    ensures forall x :: x in QueueAfter(w, success) ==> Clean(x)
  {
    if w.core.queue != [] {
      assert w.core.queue[0] in w.core.queue;
    }
    hide CoreInv, MayCarry, Finished;
  }

  /** Nothing new is queued, carried or written. */
  predicate Fewer(w: World, v: World) {
    && (forall x :: x in v.core.queue ==> x in w.core.queue)
    && v.writer == w.writer && v.released == w.released && w.used <= v.used
  }

  lemma FewerKeepsReleases(w: World, v: World)
    requires ReleaseInv(w) && Fewer(w, v)
    ensures ReleaseInv(v)
  {
    hide Clean;
  }

  lemma ResetIsFewer(w: World, attach: Option<Key>, now: nat)
    ensures Fewer(w, Reset(w, attach, now))
  {
    hide Stopped;
  }

  lemma FewerTwice(w: World, v: World, u: World)
    requires Fewer(w, v) && Fewer(v, u)
    ensures Fewer(w, u)
  {
  }

  lemma PlainIsFewer(w: World, l: Label)
    requires Plainly(l)
    ensures Fewer(w, Step(w, l))
  {
    hide Stopped, Settled, Delivered, ResetSched, FreshClick, Proceeded, Cancelling, Started, Reset, DeliverStep;
    match l
    case CheckOverflow(now) => ResetIsFewer(w.(reading := false, overflow := false), None, now);
    case ResetAll(now) => ResetIsFewer(w, None, now);
    case AcceptRelease(key, now) =>
      var v := w.(used := w.used + {key});
      ResetIsFewer(v, Some(key), now);
      FewerTwice(w, v, Reset(v, Some(key), now));
    case DeliverOne(now) =>
      if w.batch != [] {
        DeliverIsFewer(w, now);
      }
    case _ =>
  }

  lemma DeliverIsFewer(w: World, now: nat)
    requires w.batch != []
    ensures Fewer(w, DeliverStep(w, now))
  {
    hide Settled, Delivered, Reset;
    var v := w.(exec := Delivered(w.exec, w.batch[0]), batch := w.batch[1..]);
    ResetIsFewer(v, None, now);
    FewerTwice(w, v, Reset(v, None, now));
  }

  lemma StepKeepsReleases(w: World, l: Label)
    requires Inv(w) && ReleaseInv(w)
    ensures ReleaseInv(Step(w, l))
  {
    hide Inv, ReleaseInv, TickStep, TurnStep, MotionStep, TakeStep, FinishStep, LinkInv, UsedInv, OverInv, SchedInv, Quiet,
         Fewer, Reset, DeliverStep, StartStep, Enqueue;
    PartsOfInv(w);
    if Plainly(l) {
      PlainIsFewer(w, l);
      FewerKeepsReleases(w, Step(w, l));
    } else if Possible(w, l) {
      CompletionNeedsReport(w, l);
      hide Possible;
      match l
      case Tick(snapshot, now, ready, supported) => TickKeepsReleases(w, snapshot, now, ready, supported);
      case ClickTurn(snapshot, now, ready, supported) => TurnKeepsReleases(w, snapshot, now, ready, supported);
      case Motion(command, next, latest, ready, supported, now) =>
        MotionOutcome(w, command, next, latest, ready, supported, now);
        MotionWrites(w, command, next, latest, ready, supported, now);
        AskKeepsReleases(w, MotionStep(w, command, next, latest, ready, supported, now),
                         MotionRequest(w.sched, command, next, latest), ready, supported, now);
      case Take(grab, now) => TakeKeepsReleases(w, grab, now);
      case Finish(success, now) => FinishKeepsReleases(w, success, now);
    }
  }

  lemma MotionWrites(w: World, c: Command, next: bv8, latest: bool, ready: bool, supported: bool, now: nat)
    ensures var v := MotionStep(w, c, next, latest, ready, supported, now);
      v == w.(core := v.core, sched := v.sched)
  {
    hide Enqueue, MotionRequest;
  }

  lemma {:induction false} RunKeepsReleases(w: World, labels: seq<Label>)
    requires Inv(w) && ReleaseInv(w)
    ensures ReleaseInv(Run(w, labels))
    decreases |labels|
  {
    hide Inv, ReleaseInv, Step;
    if labels != [] {
      StepKeepsInv(w, labels[0]);
      StepKeepsReleases(w, labels[0]);
      RunKeepsReleases(Step(w, labels[0]), labels[1..]);
    }
  }

  lemma BeginReleases(generation: nat)
    ensures ReleaseInv(TransactionLoop.Begin(generation))
  {
  }

  lemma ReachedReleases(generation: nat, labels: seq<Label>)
    ensures ReleaseInv(Reached(generation, labels))
  {
    hide Inv, ReleaseInv;
    BeginInv(generation);
    BeginReleases(generation);
    RunKeepsReleases(TransactionLoop.Begin(generation), labels);
  }

  /** A ReleaseAll starts unwritten: no report with its key was ever written, and the transaction is over. */
  lemma ReleaseStartsUnwritten(generation: nat, labels: seq<Label>, key: Key, now: nat)
    requires Possible(Reached(generation, labels), AcceptRelease(key, now))
    ensures var v := Step(Reached(generation, labels), AcceptRelease(key, now));
      key !in v.released && Owed(v) && v.sched.releaseKey == key && v.sched.work == [] && !IsActive(v.exec)
  {
    ReachedReleases(generation, labels);
    var w := Reached(generation, labels);
    hide Reached, Stopped, Clean;
    StopIsEnd(w.exec, now);
  }

  /** The next event read ends the release owed. */
  predicate EndsOwedRelease(w: World) {
    && w.reading && w.batch != [] && w.batch[0].success && w.sched.releasePending
    && !Settled(w.sched, w.batch[0]).0.releasePending
  }

  /** What is owed stays owed until an event that ends it is read. */
  lemma OwedStays(generation: nat, labels: seq<Label>, l: Label)
    requires Reached(generation, labels).sched.releasePending
    ensures var w := Reached(generation, labels);
      !Step(w, l).sched.releasePending ==> l.DeliverOne? && EndsOwedRelease(w)
  {
    hide Reached;
    PendingStays(Reached(generation, labels), l);
  }

  lemma PendingStays(w: World, l: Label)
    requires w.sched.releasePending
    ensures !Step(w, l).sched.releasePending ==> l.DeliverOne? && EndsOwedRelease(w)
  {
    hide TickStep, TurnStep, MotionStep, TakeStep, FinishStep, Settled, Delivered, Stopped;
    match l
    case Tick(snapshot, now, ready, supported) => TickKeepsOwed(w, snapshot, now, ready, supported);
    case ClickTurn(snapshot, now, ready, supported) => TurnKeepsOwed(w, snapshot, now, ready, supported);
    case Motion(command, next, latest, ready, supported, now) => MotionKeepsOwed(w, command, next, latest, ready, supported, now);
    case Take(grab, now) => TakeKeepsOwed(w, grab, now);
    case Finish(success, now) =>
      if w.writer.Some? {
        FinishKeepsOwed(w, success, now);
      }
    case _ =>
  }

  lemma TickKeepsOwed(w: World, snapshot: Snapshot, now: nat, ready: bool, supported: bool)
    requires w.sched.releasePending
    ensures TickStep(w, snapshot, now, ready, supported).sched.releasePending
  {
    hide Planned, Enqueue, Answered, Stopped;
  }

  lemma TurnKeepsOwed(w: World, snapshot: Snapshot, now: nat, ready: bool, supported: bool)
    requires w.sched.releasePending
    ensures TurnStep(w, snapshot, now, ready, supported).sched.releasePending
  {
    hide Enqueue, Stopped;
  }

  lemma MotionKeepsOwed(w: World, c: Command, next: bv8, latest: bool, ready: bool, supported: bool, now: nat)
    requires w.sched.releasePending
    ensures MotionStep(w, c, next, latest, ready, supported, now).sched.releasePending
  {
    hide Enqueue, MotionRequest;
  }

  lemma TakeKeepsOwed(w: World, grab: Grab, now: nat)
    ensures TakeStep(w, grab, now).sched == w.sched
  {
    hide Taken;
  }

  lemma FinishKeepsOwed(w: World, success: bool, now: nat)
    requires w.writer.Some?
    ensures FinishStep(w, success, now).sched == w.sched
  {
    hide Complete, Posted;
  }
}
