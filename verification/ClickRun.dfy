/**
 What every step of the click loop keeps: the scheduler's phase and mask, the layout it works for, and the queue and
 writer.
 */
module ClickRun {
  import opened Common
  import opened HidReport
  import opened Splitting
  import opened MoveTypes
  import opened Mixer
  import opened ClickScheduler
  import opened ClickLoop
  import opened ClickMasks
  import T = ClickTypes

  /** The server's idea of the layout, and what a layout change leaves until it looks. */
  predicate LayoutInv(w: World) {
    && w.core.generation >= 1 && w.sched.tracked <= w.core.generation
    && (!w.torn ==> w.sched.tracked == 0 || w.sched.tracked == w.core.generation)
    && (w.torn ==>
          && (w.sched.tracked == 0 || w.sched.tracked < w.core.generation)
          && w.core.queue == [] && !w.reading)
  }

  ghost predicate Inv(w: World) {
    Linked(w.core, w.writer) && SchedInv(w.sched) && LayoutInv(w) && StillInv(w.core.queue)
  }

  lemma BeginInv(generation: nat)
    requires generation >= 1
    ensures Inv(ClickLoop.Begin(generation))
  {
  }

  lemma ResetKeepsInv(w: World, attach: Option<Key>)
    requires Linked(w.core, w.writer) && w.core.generation >= 1
    requires w.torn ==> !w.reading
    ensures Inv(Reset(w, attach).(torn := false)) && (!w.torn ==> Inv(Reset(w, attach)))
  {
    ClearKeepsLink(w.core, w.writer);
  }

  lemma TopKeepsInv(w: World, ready: bool)
    requires Inv(w) && !w.reading
    ensures Inv(TopStep(w, ready))
  {
    hide Linked, WorkInv;
    var v := if w.sched.tracked == 0 && ready then w.(sched := w.sched.(tracked := w.core.generation)) else w;
    ResetKeepsInv(v, None);
    hide Reset;
  }

  lemma DeliverKeepsInv(w: World)
    requires Inv(w) && w.reading && w.batch != []
    ensures Inv(DeliverStep(w))
  {
    hide Linked, WorkInv, Settled;
    var ev := w.batch[0];
    ResetKeepsInv(w.(batch := w.batch[1..]), None);
    hide Reset;
    if ev.success {
      SettledKeepsSched(w.sched, ev);
      hide SchedInv;
    }
  }

  lemma MotionKeepsInv(w: World, c: Command, next: bv8, latest: bool, ready: bool, supported: bool)
    requires Inv(w) && !w.torn
    ensures Inv(MotionStep(w, c, next, latest, ready, supported))
  {
    hide WorkInv, Enqueue, Linked, MotionStep, StillInv;
    MotionShape(w, c, next, latest, ready, supported);
    var r := MotionRequest(w.sched, c, next, latest);
    MotionKeepsLink(w, c, next, latest, ready, supported);
    EnqueueKeepsGeneration(w.core, r, ready, supported, w.clock);
    EnqueueKeepsStill(w.core, r, ready, supported, w.clock);
  }

  lemma TurnKeepsInv(w: World, seen: bool, physical: bv8, ready: bool, supported: bool)
    requires Inv(w) && !w.torn
    ensures Inv(TurnStep(w, seen, physical, ready, supported))
  {
    hide WorkInv, Enqueue, Linked, PlanTick, TurnAnswered, ResetSched, FinishFront;
    var sight := Sight(w, seen, physical);
    var turn := PlanTick(w.sched, sight, w.clock);
    AskedRequests(w.sched, sight, w.clock);
    TurnKeepsLink(w, seen, physical, ready, supported);
    TurnKeepsSched(w.sched, sight, w.clock, Mixer.Accepted);
    if turn.NeedReset? {
      ResetKeepsInv(w, None);
    } else if turn.FinishActive? {
      FinishKeepsSched(w.sched, T.ButtonActive);
      FinishedMask(w.sched, T.ButtonActive);
      hide SchedInv;
    } else if !turn.Wait? {
      AskKeepsInv(w, turn, sight, ready, supported);
    }
  }

  lemma AskKeepsInv(w: World, turn: Turn, sight: Snapshot, ready: bool, supported: bool)
    requires Inv(w) && !w.torn && turn == PlanTick(w.sched, sight, w.clock) && sight.generation == w.core.generation
    requires turn.AskRelease? || turn.AskPress? || turn.AskLift?
    ensures var (core, result) := Enqueue(w.core, turn.request, ready, supported, w.clock);
      if AnswerResets(turn, result) then Inv(Reset(w.(core := core), None))
      else Inv(w.(core := core, sched := TurnAnswered(w.sched, turn, result)))
  {
    hide WorkInv, Enqueue, Linked, PlanTick, ResetSched;
    var r := turn.request;
    var (core, result) := Enqueue(w.core, r, ready, supported, w.clock);
    AskedRequests(w.sched, sight, w.clock);
    EnqueueKeepsLink(w.core, w.writer, r, ready, supported, w.clock);
    EnqueueKeepsGeneration(w.core, r, ready, supported, w.clock);
    TurnKeepsSched(w.sched, sight, w.clock, result);
    EnqueueKeepsStill(w.core, r, ready, supported, w.clock);
    ResetKeepsInv(w.(core := core), None);
    AnsweredMask(w.sched, turn, result);
    hide SchedInv, TurnAnswered, Reset;
  }

  lemma TakeKeepsInv(w: World, grab: Grab)
    requires Inv(w) && w.writer.None? && w.core.inflight.None?
    ensures Inv(TakeStep(w, grab))
  {
    hide SchedInv, Linked, Taken;
    TakeKeepsLink(w.core, w.writer, grab, w.clock);
    TakenMasks(w.core, grab, w.clock, w.sched.scheduled, w.writer);
    TakenKeepsStill(w.core, grab, w.clock);
  }

  lemma FinishKeepsInv(w: World, success: bool)
    requires Inv(w) && w.writer.Some?
    ensures Inv(FinishStep(w, success))
  {
    hide SchedInv, Linked, Complete, Posted;
    var r := w.writer.value;
    FinishKeepsLink(w.core, r, success);
    LinkedCore(w.core, w.writer);
    CompletedFields(w.core, r, success);
    CompleteKeepsStill(w.core, r, success);
  }

  lemma LayoutKeepsInv(w: World, generation: nat)
    requires Inv(w) && !w.reading && generation > w.core.generation
    ensures Inv(w.(core := Invalidate(w.core, generation), torn := true))
  {
    InvalidateKeepsLink(w.core, w.writer, generation);
    hide Linked, WorkInv;
  }

  lemma ArrivalKeepsInv(w: World, changed: bool)
    requires Inv(w)
    ensures Inv(w.(core := Arrive(w.core, changed)))
  {
    ArriveKeepsLink(w.core, w.writer, changed);
    hide Linked, SchedInv;
  }

  lemma AcceptKeepsInv(w: World, click: Click)
    requires Inv(w) && !w.torn && FreshClick(click) && |w.sched.work| < MAX_CLICK_COMMANDS
    ensures Inv(w.(sched := w.sched.(work := w.sched.work + [click], tracked := w.core.generation)))
  {
    hide Linked, ButtonBit;
    var v := w.(sched := w.sched.(work := w.sched.work + [click], tracked := w.core.generation));
    assert SchedInv(v.sched);
    hide SchedInv;
  }

  lemma SameInv(w: World, v: World)
    requires Inv(w) && v.core == w.core && v.writer == w.writer && v.sched == w.sched && v.torn == w.torn
    requires w.torn ==> !v.reading
    ensures Inv(v)
  {
    hide Linked, SchedInv;
  }

  lemma StepKeepsInv(w: World, l: Label)
    requires Inv(w)
    ensures Inv(Step(w, l))
  {
    hide Inv, Linked, TopStep, DeliverStep, MotionStep, TurnStep, TakeStep, FinishStep, TransactionStep, Reset;
    if Possible(w, l) {
      InvFacts(w);
      match l
      case Top(ready) => TopKeepsInv(w, ready);
      case ReadEvents => SameInv(w, Step(w, l));
      case DeliverOne => DeliverKeepsInv(w);
      case CheckOverflow =>
        var v := w.(reading := false, overflow := false);
        SameInv(w, v);
        ResetKeepsInv(v, None);
      case ResetAll => ResetKeepsInv(w, None);
      case AcceptRelease(key) => ResetKeepsInv(w.(used := w.used + {key}), Some(key));
      case AcceptClick(click) =>
        AcceptKeepsInv(w, click);
        SameInv(w.(sched := w.sched.(work := w.sched.work + [click], tracked := w.core.generation)), Step(w, l));
      case Motion(command, next, latest, ready, supported, wait) =>
        SameInv(w, Later(w, wait));
        MotionKeepsInv(Later(w, wait), command, next, latest, ready, supported);
      case TransactionItem(request, ready, supported, wait) =>
        SameInv(w, Later(w, wait));
        TransactionKeepsInv(Later(w, wait), request, ready, supported);
      case ClickTurn(seen, physical, ready, supported, wait) =>
        SameInv(w, Later(w, wait));
        TurnKeepsInv(Later(w, wait), seen, physical, ready, supported);
      case Arrival(changed) => ArrivalKeepsInv(w, changed);
      case Layout(generation) => LayoutKeepsInv(w, generation);
      case Take(grab, wait) =>
        SameInv(w, Later(w, wait));
        TakeKeepsInv(Later(w, wait), grab);
      case Finish(success, wait) =>
        SameInv(w, Later(w, wait));
        FinishKeepsInv(Later(w, wait), success);
    }
  }

  lemma TransactionKeepsInv(w: World, r: Request, ready: bool, supported: bool)
    requires Inv(w) && !w.torn && IsTransaction(r.kind)
    ensures Inv(TransactionStep(w, r, ready, supported))
  {
    hide SchedInv, Linked, Enqueue, StillInv;
    EnqueueKeepsLink(w.core, w.writer, r, ready, supported, w.clock);
    EnqueueKeepsGeneration(w.core, r, ready, supported, w.clock);
    EnqueueKeepsStill(w.core, r, ready, supported, w.clock);
  }

  lemma InvFacts(w: World)
    requires Inv(w)
    ensures Linked(w.core, w.writer) && w.core.generation >= 1
    ensures w.torn ==> !w.reading
  {
  }

  lemma FrontClickIsStill(w: World)
    requires Inv(w) && w.core.queue != [] && ClickKind(w.core.queue[0].kind)
    ensures NoMotion(w.core.queue[0].remaining) && CoreInv(w.core)
  {
  }

  lemma TornHasNone(w: World)
    requires Inv(w)
    ensures w.torn ==> w.core.queue == []
  {
  }

  lemma WorkFacts(w: World)
    requires Inv(w)
    ensures WorkInv(w.sched.work)
  {
  }

  lemma ReadingIsWhole(w: World)
    requires Inv(w) && w.reading
    ensures !w.torn
  {
  }

  /** Unless the next look resets, nothing is down. */
  lemma TrackedIsCurrent(w: World)
    requires Inv(w)
    ensures w.torn && (w.sched.tracked == 0 || w.sched.tracked == w.core.generation) ==>
      w.sched.tracked == 0 && (w.sched.work == [] || w.sched.work[0].phase.AwaitPress?)
  {
  }
}
