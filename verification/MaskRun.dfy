/**
 Click edges are never lost to expiry, in every run of the full loop: clicks, movement, transactions and releases. Two
 things must hold of the run: the server looks at the layout before it acts, and it never reads that a transaction's
 press went over a button already down.
 */
module MaskRun {
  import opened Common
  import opened HidReport
  import opened MoveTypes
  import opened Mixer
  import opened Executor
  import opened ClickScheduler
  import opened TransactionLoop
  import opened TransactionSteps
  import opened TransactionRun
  import opened TransactionProgress
  import opened ReleaseRun
  import M = ClickMasks
  import T = ClickTypes

  // ---------------------------------------------------------------- the runs

  /** The server works for the layout in force, or for none yet. */
  predicate Current(w: World) {
    w.sched.tracked == 0 || w.sched.tracked == w.core.generation
  }

  /** The server acts for the layout in force; after a change it resets first. */
  predicate Looks(w: World, l: Label) {
    match l
    case ResetAll(now) => true
    case Arrival(changed) => true
    case Layout(generation) => true
    case Learn(layout) => true
    case Take(grab, now) => true
    case Finish(success, now) => true
    case StartMove(request, activity, now) => Current(w) && request.generation == w.core.generation
    case _ => Current(w)
  }

  predicate Orderly(w: World, labels: seq<Label>)
    decreases |labels|
  {
    labels == []
    || (Looks(w, labels[0]) && !ReadsBlockedPress(w, labels[0]) && Orderly(Step(w, labels[0]), labels[1..]))
  }

  // ---------------------------------------------------------------- the masks

  /** The press is asked for, and its release is not. */
  predicate Presses(e: Exec) {
    var s := e.ack.stage;
    s.Hold? || (s.Pressing? && e.pending) || (s.Releasing? && !e.pending)
  }

  /** The mask that a running transaction has asked for last. */
  function Lent(e: Exec): bv8 {
    if Presses(e) then ButtonBit(e.request.button) else 0
  }

  /** The mask asked for last: the transaction's while one runs, the click scheduler's otherwise. */
  function Last(w: World): bv8 {
    if IsActive(w.exec) then Lent(w.exec) else w.sched.scheduled
  }

  ghost predicate Masks(w: World) {
    if !Current(w) then w.core.queue == []
    else if w.sched.releasePending && !w.sched.releaseInflight then M.Owing(w.core)
    else M.Chain(w.core, Last(w))
  }

  ghost predicate MaskInv(w: World) {
    && M.SchedInv(w.sched) && Masks(w)
    && w.core.generation >= 1 && w.sched.tracked <= w.core.generation
    && (w.sched.tracked == 0 ==> w.sched.work == [] && !IsActive(w.exec))
  }

  lemma BeginMasks(generation: nat)
    requires generation >= 1
    ensures MaskInv(TransactionLoop.Begin(generation))
  {
  }

  lemma ResetKeepsMasks(w: World, attach: Option<Key>, now: nat)
    requires w.core.generation >= 1
    ensures MaskInv(Reset(w, attach, now))
  {
    hide Stopped;
    StopIsEnd(w.exec, now);
  }

  // ---------------------------------------------------------------- the transaction

  lemma RedirectLends(e: Exec, now: nat)
    requires ExecInv(e) && IsActive(e) && !e.pending
    ensures var f := Redirected(e, now);
      IsActive(f) && !f.pending && f.request == e.request && Lent(f) == Lent(e)
  {
    hide ButtonBit;
  }

  lemma EarlyRestPresses(e: Exec, now: nat)
    requires IsActive(e) && !e.pending && Before(e.ack.stage)
    ensures var plan := Advance(e, now);
      plan.Rest? ==>
        plan.e.request == e.request && if IsActive(plan.e) then Presses(plan.e) == Presses(e) else !Presses(e)
  {
    hide TransactionRequest;
  }

  lemma LateRestPresses(e: Exec, now: nat)
    requires IsActive(e) && !e.pending && !Before(e.ack.stage)
    ensures var plan := Advance(e, now);
      plan.Rest? ==>
        plan.e.request == e.request && if IsActive(plan.e) then Presses(plan.e) == Presses(e) else !Presses(e)
  {
    hide TransactionRequest;
  }

  lemma RestLends(e: Exec, now: nat)
    requires IsActive(e) && !e.pending
    ensures var plan := Advance(e, now);
      plan.Rest? ==> if IsActive(plan.e) then Lent(plan.e) == Lent(e) else Lent(e) == 0
  {
    hide ButtonBit, Advance, Presses;
    if Before(e.ack.stage) {
      EarlyRestPresses(e, now);
    } else {
      LateRestPresses(e, now);
    }
  }

  lemma SubmitLends(e: Exec, now: nat)
    requires !e.pending
    ensures var plan := Advance(e, now);
      && !plan.Abort?
      && (plan.Submit? ==>
            && plan.e == e && IsTransaction(plan.request.kind) && !plan.request.latest
            && Lent(e.(pending := true)) == plan.request.scheduled)
  {
    hide ButtonBit, AtStage;
  }

  /** Between two items a transaction only moves on with the mask it asked for, and a submission asks for the next. */
  lemma PlanLends(e: Exec, now: nat)
    requires ExecInv(e) && IsActive(e) && !e.pending
    ensures var plan := Advance(Redirected(e, now), now);
      && !plan.Abort?
      && (if IsActive(plan.e) then Lent(plan.e) == Lent(e) else plan.Rest? && Lent(e) == 0)
      && (plan.Submit? ==>
            && IsActive(plan.e) && IsTransaction(plan.request.kind) && !plan.request.latest
            && Lent(plan.e.(pending := true)) == plan.request.scheduled)
  {
    hide Redirected, Advance, Lent, ExecInv;
    RedirectLends(e, now);
    RestLends(Redirected(e, now), now);
    SubmitLends(Redirected(e, now), now);
  }

  lemma IdleMask(w: World)
    requires Inv(w) && M.SchedInv(w.sched) && IsActive(w.exec)
    ensures w.sched.scheduled == 0 && w.sched.work == [] && !w.sched.releasePending
  {
    hide LinkInv, UsedInv, ExecInv, ActiveInv, OverInv, M.WorkInv;
  }

  lemma TickKeepsMasks(w: World, snapshot: Snapshot, now: nat, ready: bool, supported: bool)
    requires Inv(w) && MaskInv(w) && Current(w)
    ensures MaskInv(TickStep(w, snapshot, now, ready, supported))
  {
    hide Inv, M.SchedInv, M.Chain, M.Owing, Lent, Stopped, Enqueue, Redirected, Advance;
    var plan := Planned(w.exec, snapshot, now);
    ResetKeepsMasks(w.(exec := plan.e), None, now);
    if IsActive(w.exec) {
      IdleMask(w);
      ExecOfInv(w);
      if !w.exec.pending {
        PlanLends(w.exec, now);
        if plan.Submit? {
          SubmitKeepsMasks(w, plan.e, plan.request, ready, supported, now);
        }
      }
    }
    hide Reset;
  }

  lemma SubmitKeepsMasks(w: World, e: Exec, r: Request, ready: bool, supported: bool, now: nat)
    requires MaskInv(w) && Current(w) && IsActive(w.exec) && !w.sched.releasePending
    requires IsActive(e) && Lent(e) == Lent(w.exec) && Lent(e.(pending := true)) == r.scheduled
    requires IsTransaction(r.kind) && !r.latest
    ensures var (c, result) := Enqueue(w.core, r, ready, supported, now);
      var (f, reset) := Answered(e, result, now);
      if reset then MaskInv(Reset(w.(exec := f, core := c), None, now)) else MaskInv(w.(exec := f, core := c))
  {
    hide M.SchedInv, M.Chain, M.Owing, Lent, Stopped, Enqueue;
    var (c, result) := Enqueue(w.core, r, ready, supported, now);
    M.EnqueueKeepsGeneration(w.core, r, ready, supported, now);
    M.ChainEnqueuedTransaction(w.core, r, ready, supported, now, Last(w));
    ResetKeepsMasks(w.(exec := Answered(e, result, now).0, core := c), None, now);
    hide Reset;
  }

  /** A report read moves the transaction on with its mask, unless its press was blocked. */
  lemma ReadLends(e: Exec, ev: WriterEvent)
    requires ExecInv(e) && IsActive(e) && e.pending && ev.kind == KindAt(e.ack.stage) && IsTransaction(ev.kind)
    requires Mine(e, ev) && ev.success && !(ev.finished && ev.kind.TransactionPress? && ev.blocked)
    ensures var f := Delivered(e, ev);
      if IsActive(f) then Lent(f) == Lent(e) else Lent(e) == 0
  {
    CreditedFrame(e, ev);
    CreditedStage(e, ev);
    hide Credited, ButtonBit, Mine;
  }

  lemma DeliverKeepsMasks(w: World, now: nat)
    requires Inv(w) && MaskInv(w) && Current(w) && w.reading && w.batch != []
    requires !ReadsBlockedPress(w, DeliverOne(now))
    ensures MaskInv(DeliverStep(w, now))
  {
    hide Inv, M.SchedInv, M.Chain, M.Owing, Lent, Settled, Stopped, Delivered, Mine;
    var e, ev := w.exec, w.batch[0];
    ResetKeepsMasks(w.(exec := Delivered(e, ev), batch := w.batch[1..]), None, now);
    hide Reset;
    if ev.success {
      M.SettledKeepsSched(w.sched, ev);
      M.SettledRelease(w.sched, ev);
      if w.sched.work == [] {
        SettledFewer(w.sched, ev);
      }
      if IsActive(e) {
        ActiveRead(w, now);
      } else {
        OtherRead(e, ev);
        M.DeliveredMasks(w.core, w.sched, Settled(w.sched, ev).0);
      }
    }
  }

  lemma SettledFewer(s: Sched, ev: WriterEvent)
    requires s.work == []
    ensures Settled(s, ev).0.work == []
  {
  }

  /** An event of another command, or after the end, tells the transaction nothing. */
  lemma OtherRead(e: Exec, ev: WriterEvent)
    ensures !IsActive(e) || !Mine(e, ev) ==> Delivered(e, ev) == e
  {
    hide Mine;
  }

  lemma ActiveRead(w: World, now: nat)
    requires Inv(w) && MaskInv(w) && IsActive(w.exec) && w.reading && w.batch != [] && w.batch[0].success
    requires !ReadsBlockedPress(w, DeliverOne(now))
    ensures var f := Delivered(w.exec, w.batch[0]);
      && !w.sched.releasePending && w.sched.scheduled == 0
      && (if IsActive(f) then Lent(f) == Lent(w.exec) else Lent(w.exec) == 0)
  {
    hide Inv, M.SchedInv, Masks, Mine, Lent;
    IdleMask(w);
    ExecOfInv(w);
    OtherRead(w.exec, w.batch[0]);
    if Mine(w.exec, w.batch[0]) {
      KindOfMine(w);
      FirstOfStage(w);
      PendingOfMine(w);
      ReadLends(w.exec, w.batch[0]);
    }
    hide Delivered;
  }

  // ---------------------------------------------------------------- the click scheduler

  lemma TurnKeepsMasks(w: World, snapshot: Snapshot, now: nat, ready: bool, supported: bool)
    requires Inv(w) && MaskInv(w) && Current(w)
    ensures MaskInv(TurnStep(w, snapshot, now, ready, supported))
  {
    hide Inv, M.Chain, M.Owing, M.WorkInv, Enqueue, PlanTick, TurnAnswered, ResetSched, FinishFront, Reset, Stopped;
    var turn := PlanTick(w.sched, snapshot, now);
    if IsActive(w.exec) {
      TurnWaits(w, snapshot, now, ready, supported);
    } else {
      M.TurnKeepsSched(w.sched, snapshot, now, Mixer.Accepted);
      if turn.NeedReset? {
        ResetKeepsMasks(w, None, now);
      } else if turn.FinishActive? {
        M.FinishKeepsSched(w.sched, T.ButtonActive);
        M.FinishedMask(w.sched, T.ButtonActive);
        M.AwaitingMask(w.sched, snapshot, now);
        hide M.SchedInv;
      } else if !turn.Wait? {
        AskKeepsMasks(w, turn, snapshot, now, ready, supported);
      }
    }
  }

  lemma AskKeepsMasks(w: World, turn: Turn, snapshot: Snapshot, now: nat, ready: bool, supported: bool)
    requires MaskInv(w) && Current(w) && !IsActive(w.exec) && turn == PlanTick(w.sched, snapshot, now)
    requires turn.AskRelease? || turn.AskPress? || turn.AskLift?
    ensures var (c, result) := Enqueue(w.core, turn.request, ready, supported, now);
      if AnswerResets(turn, result) then MaskInv(Reset(w.(core := c), None, now))
      else MaskInv(w.(core := c, sched := TurnAnswered(w.sched, turn, result)))
  {
    hide M.Chain, M.Owing, M.WorkInv, Enqueue, PlanTick, ResetSched, Stopped;
    var r := turn.request;
    var (c, result) := Enqueue(w.core, r, ready, supported, now);
    M.AskedRequests(w.sched, snapshot, now);
    M.EnqueueKeepsGeneration(w.core, r, ready, supported, now);
    M.TurnKeepsSched(w.sched, snapshot, now, result);
    ResetKeepsMasks(w.(core := c), None, now);
    hide Reset;
    if turn.AskRelease? {
      M.ReleaseEnqueued(w.core, r, ready, supported, now);
    } else {
      M.ChainEnqueuedClick(w.core, r, ready, supported, now, w.sched.scheduled);
    }
    M.AnsweredMask(w.sched, turn, result);
    if w.sched.work == [] {
      AnsweredNone(w.sched, turn, result);
    }
    hide M.SchedInv, TurnAnswered;
  }

  lemma AnsweredNone(s: Sched, turn: Turn, result: EnqueueResult)
    requires s.work == [] && !turn.AskPress? && !turn.AskLift?
    ensures TurnAnswered(s, turn, result).work == []
  {
  }

  lemma AcceptKeepsMasks(w: World, click: Click)
    requires MaskInv(w) && Current(w) && !IsActive(w.exec) && FreshClick(click) && |w.sched.work| < MAX_CLICK_COMMANDS
    ensures var s := w.sched.(work := w.sched.work + [click], tracked := w.core.generation);
      MaskInv(w.(sched := s, used := w.used + {click.key}))
  {
    hide M.Chain, M.Owing, ButtonBit;
    var s := w.sched.(work := w.sched.work + [click], tracked := w.core.generation);
    assert M.SchedInv(s);
    hide M.SchedInv;
  }

  lemma MotionKeepsMasks(w: World, c: Command, next: bv8, latest: bool, ready: bool, supported: bool, now: nat)
    requires MaskInv(w) && Current(w) && !IsActive(w.exec)
    ensures MaskInv(MotionStep(w, c, next, latest, ready, supported, now))
  {
    hide M.Chain, M.Owing, M.WorkInv, Enqueue;
    var r := MotionRequest(w.sched, c, next, latest);
    M.EnqueueKeepsGeneration(w.core, r, ready, supported, now);
    if w.sched.releasePending && !w.sched.releaseInflight {
      M.OwingEnqueuedMotion(w.core, r, ready, supported, now);
    } else {
      M.ChainEnqueuedMotion(w.core, r, ready, supported, now, w.sched.scheduled);
    }
  }

  // ---------------------------------------------------------------- starts, layouts and the writer

  lemma StartKeepsMasks(w: World, r: MoveRequest, activity: nat, now: nat)
    requires MaskInv(w) && Current(w) && r.generation == w.core.generation
    requires !IsActive(w.exec) && w.sched.work == [] && !w.sched.releasePending && w.core.queue == []
    ensures MaskInv(StartStep(w, r, activity, now))
  {
    hide M.WorkInv;
  }

  lemma LayoutKeepsMasks(w: World, generation: nat)
    requires MaskInv(w) && generation > w.core.generation
    ensures MaskInv(w.(core := Invalidate(w.core, generation)))
  {
    hide M.WorkInv;
  }

  lemma ArrivalKeepsMasks(w: World, changed: bool)
    requires MaskInv(w)
    ensures MaskInv(w.(core := Arrive(w.core, changed)))
  {
    hide M.SchedInv, M.Chain, Lent;
    if M.Chain(w.core, Last(w)) {
      M.SameQueueChain(w.core, Arrive(w.core, changed), Last(w));
    }
  }

  lemma TakeKeepsMasks(w: World, grab: Grab, now: nat)
    requires MaskInv(w) && LinkInv(w)
    ensures MaskInv(TakeStep(w, grab, now))
  {
    hide M.SchedInv, M.Chain, M.Owing, Linked, Taken, Lent;
    M.TakenMasks(w.core, grab, now, Last(w), w.writer);
  }

  lemma FinishKeepsMasks(w: World, success: bool, now: nat)
    requires MaskInv(w) && LinkInv(w) && w.writer.Some?
    ensures MaskInv(FinishStep(w, success, now))
  {
    hide M.SchedInv, M.Chain, M.Owing, Linked, Complete, Posted, Lent;
    var r := w.writer.value;
    M.LinkedCore(w.core, w.writer);
    M.CompletedFields(w.core, r, success);
    if M.Chain(w.core, Last(w)) {
      M.ChainCompleted(w.core, r, success, Last(w));
    }
    if M.Owing(w.core) {
      M.OwingCompleted(w.core, r, success);
    }
  }

  lemma SameMasks(w: World, v: World)
    requires MaskInv(w) && v.core == w.core && v.sched == w.sched && IsActive(v.exec) == IsActive(w.exec)
    requires Lent(v.exec) == Lent(w.exec)
    ensures MaskInv(v)
  {
    hide M.SchedInv, M.Chain, M.Owing, Lent;
  }

  lemma AdoptKeepsMasks(w: World)
    requires MaskInv(w) && Current(w)
    ensures MaskInv(w.(sched := w.sched.(tracked := w.core.generation)))
  {
    hide M.WorkInv, M.Chain, M.Owing, Lent;
  }

  lemma HeedKeepsMasks(w: World)
    requires MaskInv(w)
    ensures MaskInv(w.(exec := Proceeded(w.exec))) && MaskInv(w.(exec := Cancelling(w.exec)))
  {
    SameMasks(w, w.(exec := Proceeded(w.exec)));
    SameMasks(w, w.(exec := Cancelling(w.exec)));
    hide MaskInv;
  }

  // ---------------------------------------------------------------- every run

  /** The steps of the server's loop. */
  predicate Serves(l: Label) {
    l.Tick? || l.ClickTurn? || l.ReadEvents? || l.DeliverOne? || l.CheckOverflow? || l.ResetAll? || l.AcceptRelease?
  }

  lemma ServeKeepsMasks(w: World, l: Label)
    requires Inv(w) && MaskInv(w) && Looks(w, l) && !ReadsBlockedPress(w, l) && Serves(l)
    ensures MaskInv(Step(w, l))
  {
    hide Inv, MaskInv, TickStep, TurnStep, DeliverStep, Reset, ReadsBlockedPress;
    if Possible(w, l) {
      LayoutPositive(w);
      match l
      case Tick(snapshot, now, ready, supported) => TickKeepsMasks(w, snapshot, now, ready, supported);
      case ClickTurn(snapshot, now, ready, supported) => TurnKeepsMasks(w, snapshot, now, ready, supported);
      case ReadEvents => SameMasks(w, Step(w, l));
      case DeliverOne(now) => DeliverKeepsMasks(w, now);
      case CheckOverflow(now) =>
        SameMasks(w, w.(reading := false, overflow := false));
        ResetKeepsMasks(w.(reading := false, overflow := false), None, now);
      case ResetAll(now) => ResetKeepsMasks(w, None, now);
      case AcceptRelease(key, now) => ResetKeepsMasks(w.(used := w.used + {key}), Some(key), now);
    }
  }

  lemma StepKeepsMasks(w: World, l: Label)
    requires Inv(w) && MaskInv(w) && Looks(w, l) && !ReadsBlockedPress(w, l)
    ensures MaskInv(Step(w, l))
  {
    hide Inv, MaskInv, TickStep, TurnStep, DeliverStep, StartStep, MotionStep, TakeStep, FinishStep, Reset, Proceeded,
         Cancelling, FreshClick, ReadsBlockedPress, LinkInv, UsedInv, OverInv, SchedInv, Quiet, Invalidate, Arrive;
    PartsOfInv(w);
    if Serves(l) {
      hide Step, Possible, Looks;
      ServeKeepsMasks(w, l);
    } else if Possible(w, l) {
      match l
      case AcceptClick(click) => AcceptKeepsMasks(w, click);
      case StartMove(request, activity, now) => StartKeepsMasks(w, request, activity, now);
      case ProceedMove => HeedKeepsMasks(w);
      case CancelMove => HeedKeepsMasks(w);
      case Motion(command, next, latest, ready, supported, now) =>
        MotionKeepsMasks(w, command, next, latest, ready, supported, now);
      case Adopt => AdoptKeepsMasks(w);
      case Arrival(changed) => ArrivalKeepsMasks(w, changed);
      case Layout(generation) => LayoutKeepsMasks(w, generation);
      case Learn(layout) => SameMasks(w, Step(w, l));
      case Take(grab, now) => TakeKeepsMasks(w, grab, now);
      case Finish(success, now) => FinishKeepsMasks(w, success, now);
    }
  }

  lemma LayoutPositive(w: World)
    requires MaskInv(w)
    ensures w.core.generation >= 1
  {
  }

  lemma {:induction false} RunKeepsMasks(w: World, labels: seq<Label>)
    requires Inv(w) && MaskInv(w) && Orderly(w, labels)
    ensures Inv(Run(w, labels)) && MaskInv(Run(w, labels))
    decreases |labels|
  {
    hide Inv, MaskInv, Step, Looks, ReadsBlockedPress;
    if labels != [] {
      StepKeepsInv(w, labels[0]);
      StepKeepsMasks(w, labels[0]);
      RunKeepsMasks(Step(w, labels[0]), labels[1..]);
    }
  }

  lemma ReachedMasks(generation: nat, labels: seq<Label>)
    requires generation >= 1 && Orderly(TransactionLoop.Begin(generation), labels)
    ensures Inv(Reached(generation, labels)) && MaskInv(Reached(generation, labels))
  {
    hide Inv, MaskInv, Orderly;
    BeginInv(generation);
    BeginMasks(generation);
    RunKeepsMasks(TransactionLoop.Begin(generation), labels);
  }

  // ---------------------------------------------------------------- the theorems

  lemma ClicksAreChained(w: World, i: nat)
    requires MaskInv(w) && i < |w.core.queue| && ClickKind(w.core.queue[i].kind)
    ensures M.Chain(w.core, Last(w))
  {
    hide M.Chain, M.SchedInv, Last;
  }

  /** An edge that reaches the front of the queue asks for another mask than the one in force. */
  lemma FrontEdgeDiffers(generation: nat, labels: seq<Label>)
    requires generation >= 1 && Orderly(TransactionLoop.Begin(generation), labels)
    ensures var c := Reached(generation, labels).core;
      c.queue != [] && ClickKind(c.queue[0].kind) ==> c.queue[0].scheduled != c.scheduled
  {
    hide Reached, Inv, MaskInv, Orderly, Last;
    ReachedMasks(generation, labels);
    var w := Reached(generation, labels);
    if w.core.queue != [] && ClickKind(w.core.queue[0].kind) {
      ClicksAreChained(w, 0);
      assert M.Link(w.core, 0);
    }
  }

  lemma EdgeStays(c: Core, last: bv8, now: nat, i: nat)
    requires CoreInv(c) && M.Chain(c, last) && i < |c.queue| && ClickKind(c.queue[i].kind)
    ensures var left := Expire(c, now).queue;
      i >= |c.queue| - |left| && left[i - (|c.queue| - |left|)].id == c.queue[i].id
  {
    hide M.Chain, Expire, Aged, CoreInv;
    ExpireShape(c, now);
    if i < |c.queue| - |Expire(c, now).queue| {
      M.ClicksStay(c, last, now, i);
    }
    M.AgedKeepsLink(c.queue[i], now);
  }

  /** However late the writer comes, expiry never drops a click edge, wherever it is queued. */
  lemma ClickEdgesNeverExpire(generation: nat, labels: seq<Label>, now: nat, i: nat)
    requires generation >= 1 && Orderly(TransactionLoop.Begin(generation), labels)
    requires i < |Reached(generation, labels).core.queue|
    requires ClickKind(Reached(generation, labels).core.queue[i].kind)
    ensures var c := Reached(generation, labels).core;
      var left := Expire(c, now).queue;
      && i >= |c.queue| - |left|
      && left[i - (|c.queue| - |left|)].id == c.queue[i].id
  {
    hide Reached, Inv, MaskInv, Orderly, Expire, M.Chain, Linked, Last;
    ReachedMasks(generation, labels);
    var w := Reached(generation, labels);
    CoreOfInv(w);
    ClicksAreChained(w, i);
    EdgeStays(w.core, Last(w), now, i);
  }

  lemma CoreOfInv(w: World)
    requires Inv(w)
    ensures CoreInv(w.core)
  {
    PartsOfInv(w);
    M.LinkedCore(w.core, w.writer);
    hide Linked, Inv;
  }
}
