/**
 Progress of the transaction: its stage never falls, and one lexicographic measure falls with every step that does
 work for it: a tick that need not wait, a report of it that is written, an event of it that is read.
 */
module TransactionProgress {
  import opened Common
  import opened HidReport
  import opened Splitting
  import opened MoveTypes
  import opened Mixer
  import opened Executor
  import opened ClickScheduler
  import opened TransactionLoop
  import opened TransactionSteps
  import opened TransactionRun

  // ---------------------------------------------------------------- stages

  function StageNumber(s: Stage): nat {
    match s
    case Idle => 0
    case Outward => 1
    case Settle => 2
    case Waiting => 3
    case Pressing => 4
    case Hold => 5
    case Releasing => 6
    case ReturnDelay => 7
    case Returning => 8
    case Done => 9
  }

  function StageOf(w: World): nat {
    StageNumber(w.exec.ack.stage)
  }

  predicate Later(e: Exec, f: Exec) {
    StageNumber(e.ack.stage) <= StageNumber(f.ack.stage)
  }

  lemma StoppedIsLater(e: Exec, reason: Status, now: nat)
    ensures Later(e, Stopped(e, reason, now))
  {
  }

  lemma AdvanceIsLater(e: Exec, now: nat)
    requires ExecInv(e) && IsActive(e) && !e.pending
    ensures Later(e, Redirected(e, now)) && Later(e, Advance(Redirected(e, now), now).e)
  {
    hide ButtonBit;
  }

  lemma DeliveredIsLater(e: Exec, ev: WriterEvent)
    requires IsActive(e) && Mine(e, ev) ==> ev.kind == KindAt(e.ack.stage)
    ensures Later(e, Delivered(e, ev))
  {
    if IsActive(e) && Mine(e, ev) {
      if !ev.success {
        StoppedIsLater(e, WriterFailed, ev.written);
      } else if IsTransaction(ev.kind) && ev.finished {
        CreditedLedger(e, ev);
        ItemDoneStage(Credited(e, ev), ev);
        CreditedStage(e, ev);
        hide Credited, ItemDone, Stopped;
      } else {
        CreditedStage(e, ev);
        hide Credited, ItemDone, Stopped;
      }
    }
  }

  lemma CreditedStage(e: Exec, ev: WriterEvent)
    ensures Credited(e, ev).ack.stage == e.ack.stage
  {
  }

  lemma DeliverIsLater(w: World, now: nat)
    requires Inv(w) && w.batch != []
    ensures Later(w.exec, DeliverStep(w, now).exec)
  {
    hide LinkInv, UsedInv, ExecInv, OverInv, Delivered, Mine, Stopped, Sum, Remains, StageItem, KindAt, StageNumber;
    if IsActive(w.exec) && Mine(w.exec, w.batch[0]) {
      MineIsPending(w);
      StageOfEvent(w);
    }
    DeliveredIsLater(w.exec, w.batch[0]);
    StoppedIsLater(Delivered(w.exec, w.batch[0]), Cancelled, now);
  }

  lemma MineIsPending(w: World)
    requires ActiveInv(w) && IsActive(w.exec) && w.batch != [] && Mine(w.exec, w.batch[0])
    ensures w.exec.pending
  {
  }

  lemma ExecOfInv(w: World)
    requires Inv(w)
    ensures ExecInv(w.exec)
  {
  }

  lemma LaterTwice(e: Exec, f: Exec, g: Exec)
    ensures Later(e, e) && (Later(e, f) && Later(f, g) ==> Later(e, g))
  {
  }

  lemma PlannedIsLater(e: Exec, snapshot: Snapshot, now: nat)
    requires ExecInv(e)
    ensures Later(e, Planned(e, snapshot, now).e)
  {
    StoppedIsLater(e, EndpointChanged, now);
    StoppedIsLater(e, Interrupted, now);
    StoppedIsLater(e, Timeout, now);
    if IsActive(e) && !e.pending {
      AdvanceIsLater(e, now);
    }
    hide Stopped, Redirected, Advance, ExecInv;
  }

  lemma AnsweredIsLater(e: Exec, result: EnqueueResult, now: nat)
    ensures Later(e, Answered(e, result, now).0)
  {
    StoppedIsLater(e, EndpointChanged, now);
    hide Stopped;
  }

  lemma TickIsLater(w: World, snapshot: Snapshot, now: nat, ready: bool, supported: bool)
    requires Inv(w)
    ensures Later(w.exec, TickStep(w, snapshot, now, ready, supported).exec)
  {
    ExecOfInv(w);
    var e := w.exec;
    var plan := Planned(e, snapshot, now);
    PlannedIsLater(e, snapshot, now);
    StoppedIsLater(plan.e, Cancelled, now);
    LaterTwice(e, plan.e, Stopped(plan.e, Cancelled, now));
    hide Inv, ExecInv, Planned, Stopped, Enqueue, Answered, Later;
    if plan.Submit? {
      var result := Enqueue(w.core, plan.request, ready, supported, now).1;
      var f := Answered(plan.e, result, now).0;
      AnsweredIsLater(plan.e, result, now);
      StoppedIsLater(f, Cancelled, now);
      LaterTwice(e, plan.e, f);
      LaterTwice(e, f, Stopped(f, Cancelled, now));
    }
  }

  /** No step but a start takes the transaction back a stage. */
  lemma StepIsLater(w: World, l: Label)
    requires Inv(w) && !l.StartMove?
    ensures StageOf(w) <= StageOf(Step(w, l))
  {
    hide Inv, TickStep, TurnStep, DeliverStep, MotionStep, TakeStep, FinishStep, Stopped, StageNumber;
    match l
    case Tick(snapshot, now, ready, supported) => TickIsLater(w, snapshot, now, ready, supported);
    case ClickTurn(snapshot, now, ready, supported) => TurnIsLater(w, snapshot, now, ready, supported);
    case DeliverOne(now) =>
      if w.batch != [] {
        DeliverIsLater(w, now);
      }
    case CheckOverflow(now) => StoppedIsLater(w.exec, Cancelled, now);
    case ResetAll(now) => StoppedIsLater(w.exec, Cancelled, now);
    case AcceptRelease(key, now) => StoppedIsLater(w.exec, Cancelled, now);
    case Motion(command, next, latest, ready, supported, now) => hide Enqueue, MotionRequest; SameExec(w, l);
    case Take(grab, now) => SameExec(w, l);
    case Finish(success, now) => SameExec(w, l);
    case _ =>
  }

  lemma SameExec(w: World, l: Label)
    requires l.Motion? || l.Take? || l.Finish?
    ensures Step(w, l).exec == w.exec
  {
    hide Enqueue, Taken, Complete, Posted, Possible;
  }

  lemma TurnIsLater(w: World, snapshot: Snapshot, now: nat, ready: bool, supported: bool)
    ensures Later(w.exec, TurnStep(w, snapshot, now, ready, supported).exec)
  {
    StoppedIsLater(w.exec, Cancelled, now);
    hide PlanTick, Enqueue, TurnAnswered, FinishFront, Stopped, Later, ResetSched;
    LaterTwice(w.exec, w.exec, w.exec);
    hide Clear;
  }

  /** The stage number never falls between two starts, so Done is final. */
  lemma {:induction false} StageNeverFalls(generation: nat, before: seq<Label>, after: seq<Label>)
    requires forall i :: 0 <= i < |after| ==> !after[i].StartMove?
    ensures StageOf(Reached(generation, before)) <= StageOf(Run(Reached(generation, before), after))
  {
    ReachedInv(generation, before);
    hide Inv, Reached, StageNumber;
    RunIsLater(Reached(generation, before), after);
  }

  lemma {:induction false} RunIsLater(w: World, labels: seq<Label>)
    requires Inv(w) && forall i :: 0 <= i < |labels| ==> !labels[i].StartMove?
    ensures StageOf(w) <= StageOf(Run(w, labels))
    decreases |labels|
  {
    hide Inv, Step, StageNumber;
    if labels != [] {
      StepIsLater(w, labels[0]);
      StepKeepsInv(w, labels[0]);
      RunIsLater(Step(w, labels[0]), labels[1..]);
    }
  }

  // ---------------------------------------------------------------- the measure

  /** What is left of a transaction: stages, steps of the stage, reports of its item, and events to be read. */
  datatype Rank = Rank(stages: nat, phase: nat, segments: nat, uncommitted: nat, unread: nat)

  predicate Below(a: Rank, b: Rank) {
    || a.stages < b.stages
    || (a.stages == b.stages
        && (|| a.phase < b.phase
            || (a.phase == b.phase
                && (|| a.segments < b.segments
                    || (a.segments == b.segments
                        && (|| a.uncommitted < b.uncommitted
                            || (a.uncommitted == b.uncommitted && a.unread < b.unread)))))))
  }

  predicate AtMost(a: Rank, b: Rank) {
    a == b || Below(a, b)
  }

  /** Unread reports of the transaction, up to the first that failed. */
  function Heard(e: Exec, events: seq<WriterEvent>): nat {
    if events == [] then 0
    else if !Mine(e, events[0]) then Heard(e, events[1..])
    else if !events[0].success then 0
    else 1 + Heard(e, events[1..])
  }

  function Left(layout: Profile, queue: seq<Item>): nat {
    if queue == [] then 0 else Max(0, Longest(layout, queue[0].remaining))
  }

  function RankOf(w: World): Rank {
    if !IsActive(w.exec) then Rank(0, 0, 0, 0, 0)
    else
      var waiting := w.exec.pending && w.core.queue != [];
      Rank(9 - StageNumber(w.exec.ack.stage),
           if !w.exec.pending then 2 else if waiting then 1 else 0,
           if waiting then Left(w.layout, w.core.queue) else 0,
           if waiting && !w.core.queue[0].committed then 1 else 0,
           Heard(w.exec, Unread(w)))
  }

  /** A tick at which the stage has nothing to do before its due time. */
  predicate MustWait(e: Exec, now: nat) {
    var f := Redirected(e, now);
    && now < f.due
    && (f.ack.stage.Settle? || (f.ack.stage.Waiting? && !f.resumed) || f.ack.stage.Hold? || f.ack.stage.ReturnDelay?)
  }

  /** The steps that work for the transaction, or end it. */
  predicate Works(w: World, l: Label) {
    match l
    case Tick(snapshot, now, ready, supported) =>
      || !snapshot.ready || snapshot.generation != w.exec.request.generation || snapshot.activity != w.exec.activity
      || now >= w.exec.deadline || (!w.exec.pending && !MustWait(w.exec, now))
    case DeliverOne(now) => w.batch != [] && (Mine(w.exec, w.batch[0]) || !w.batch[0].success)
    case CheckOverflow(now) => w.overflow
    case ResetAll(now) => true
    case AcceptRelease(key, now) => true
    case Finish(success, now) => success && CarriesMine(w) && w.core.inflight.Some?
    case _ => false
  }

  /** A report in the writer shortens the transaction's item, and the layout is one that can be split. */
  ghost predicate ShortInv(w: World) {
    && SplittableAxes(w.layout)
    && (w.core.inflight.Some? && w.core.queue != [] && IsTransaction(w.core.queue[0].kind)
        && w.writer.Some? && w.writer.value.overlay.Some? ==>
          Shortens(w.layout, w.core.queue[0], w.writer.value.overlay.value.applied))
  }

  // ---------------------------------------------------------------- reports in the writer

  lemma EnqueueKeepsShort(w: World, v: World, r: Request, ready: bool, supported: bool, now: nat)
    requires ShortInv(w) && CoreInv(w.core) && v.core == Enqueue(w.core, r, ready, supported, now).0
    requires v.writer == w.writer && v.layout == w.layout
    ensures ShortInv(v)
  {
    EnqueueKeepsFront(w.core, r, ready, supported, now);
    hide Enqueue, Shortens, CoreInv, SplittableAxes;
  }

  lemma EmptyIsShort(w: World)
    requires SplittableAxes(w.layout) && w.core.inflight.None?
    ensures ShortInv(w)
  {
  }

  lemma TakeKeepsShort(w: World, grab: Grab, now: nat)
    requires ShortInv(w) && Possible(w, Take(grab, now))
    ensures ShortInv(TakeStep(w, grab, now))
  {
    ExpireKeepsInflight(w.core, now);
    hide Expire, Shortens, MayCarry, SplittableAxes, FrontUsable;
    CarryNeedsFront(Expire(w.core, now));
  }

  /** A step that asks the mixer for something, or drops everything. */
  lemma AskKeepsShort(w: World, v: World, r: Request, ready: bool, supported: bool, now: nat)
    requires ShortInv(w) && CoreInv(w.core) && v.layout == w.layout && v.writer == w.writer
    requires v.core == w.core || v.core == Enqueue(w.core, r, ready, supported, now).0 || v.core.inflight.None?
    ensures ShortInv(v)
  {
    hide SplittableAxes, Shortens, Enqueue, CoreInv;
    if v.core == Enqueue(w.core, r, ready, supported, now).0 {
      EnqueueKeepsShort(w, v, r, ready, supported, now);
    }
  }

  lemma TickKeepsShort(w: World, snapshot: Snapshot, now: nat, ready: bool, supported: bool)
    requires ShortInv(w) && CoreInv(w.core)
    ensures ShortInv(TickStep(w, snapshot, now, ready, supported))
  {
    hide ShortInv, Enqueue, CoreInv, Planned, Answered, Stopped;
    var plan := Planned(w.exec, snapshot, now);
    AskKeepsShort(w, TickStep(w, snapshot, now, ready, supported),
                  if plan.Submit? then plan.request else ReleaseRequest(w.sched), ready, supported, now);
  }

  lemma TurnKeepsShort(w: World, snapshot: Snapshot, now: nat, ready: bool, supported: bool)
    requires ShortInv(w) && CoreInv(w.core)
    ensures ShortInv(TurnStep(w, snapshot, now, ready, supported))
  {
    hide ShortInv, Enqueue, CoreInv, PlanTick, TurnAnswered, FinishFront, Stopped;
    var turn := PlanTick(w.sched, snapshot, now);
    var asks := turn.AskRelease? || turn.AskPress? || turn.AskLift?;
    AskKeepsShort(w, TurnStep(w, snapshot, now, ready, supported),
                  if asks then turn.request else ReleaseRequest(w.sched), ready, supported, now);
  }

  /** The steps that neither ask the mixer nor concern the writer. */
  predicate Plainly(l: Label) {
    !l.Tick? && !l.ClickTurn? && !l.Motion? && !l.Take? && !l.Finish?
  }

  lemma PlainKeepsShort(w: World, l: Label)
    requires ShortInv(w) && (w.core.queue == [] ==> w.core.inflight.None?) && Plainly(l)
    ensures ShortInv(Step(w, l))
  {
    hide Stopped, Settled, Delivered, Shortens, SplittableAxes, ResetSched, FreshClick, Proceeded, Cancelling, Started;
  }

  lemma StepKeepsShort(w: World, l: Label)
    requires Inv(w) && ShortInv(w)
    ensures ShortInv(Step(w, l))
  {
    hide Inv, ShortInv, CoreInv, TickStep, TurnStep, MotionStep, TakeStep, FinishStep;
    CoreOfInv(w);
    if Plainly(l) {
      PlainKeepsShort(w, l);
    } else if Possible(w, l) {
      CompletionNeedsReport(w, l);
      hide Possible, Reset, DeliverStep, StartStep, Arrive, Invalidate, Proceeded, Cancelling;
      match l
      case Tick(snapshot, now, ready, supported) => TickKeepsShort(w, snapshot, now, ready, supported);
      case ClickTurn(snapshot, now, ready, supported) => TurnKeepsShort(w, snapshot, now, ready, supported);
      case Motion(command, next, latest, ready, supported, now) =>
        var v := MotionStep(w, command, next, latest, ready, supported, now);
        MotionOutcome(w, command, next, latest, ready, supported, now);
        AskKeepsShort(w, v, MotionRequest(w.sched, command, next, latest), ready, supported, now);
      case Take(grab, now) => TakeKeepsShort(w, grab, now);
      case Finish(success, now) =>
        FinishLeavesNone(w, success, now);
        LayoutOfShort(w);
        EmptyIsShort(FinishStep(w, success, now));
    }
  }

  lemma CompletionNeedsReport(w: World, l: Label)
    ensures Possible(w, l) && l.Finish? ==> w.writer.Some?
  {
  }

  lemma LayoutOfShort(w: World)
    requires ShortInv(w)
    ensures SplittableAxes(w.layout)
  {
  }

  lemma MotionOutcome(w: World, c: Command, next: bv8, latest: bool, ready: bool, supported: bool, now: nat)
    ensures var v := MotionStep(w, c, next, latest, ready, supported, now);
      && v.layout == w.layout && v.writer == w.writer
      && (v.core == w.core || v.core == Enqueue(w.core, MotionRequest(w.sched, c, next, latest), ready, supported, now).0)
  {
    hide Enqueue, MotionRequest;
  }

  lemma FinishLeavesNone(w: World, success: bool, now: nat)
    requires Inv(w) && w.writer.Some?
    ensures var v := FinishStep(w, success, now); v.core.inflight.None? && v.layout == w.layout
  {
    FinishShape(w, success, now);
    hide LinkInv, Complete, Posted, QueueAfter;
  }

  lemma CoreOfInv(w: World)
    requires Inv(w)
    ensures CoreInv(w.core) && (w.core.queue == [] ==> w.core.inflight.None?)
  {
  }

  // ---------------------------------------------------------------- comparing ranks

  lemma HeardSame(e: Exec, f: Exec, events: seq<WriterEvent>)
    requires e.request == f.request
    ensures Heard(e, events) == Heard(f, events)
  {
  }

  /** The stage number of an active transaction. */
  lemma ActiveStage(e: Exec)
    requires ExecInv(e) && IsActive(e)
    ensures 1 <= StageNumber(e.ack.stage) <= 8
  {
  }

  lemma EndedIsBelow(w: World, v: World)
    requires ExecInv(w.exec) && IsActive(w.exec) && !IsActive(v.exec)
    ensures Below(RankOf(v), RankOf(w))
  {
    ActiveStage(w.exec);
    hide ExecInv, StageNumber, Heard, Longest;
  }

  lemma LaterIsBelow(w: World, v: World)
    requires IsActive(w.exec) && IsActive(v.exec) && StageOf(w) < StageOf(v)
    ensures Below(RankOf(v), RankOf(w))
  {
    NineStages(v.exec.ack.stage);
    hide StageNumber, Heard, Longest;
  }

  lemma NineStages(s: Stage)
    ensures StageNumber(s) <= 9
  {
  }

  /** The same transaction in the same stage, between items or not, with as many reports to be read. */
  predicate SameStage(w: World, v: World) {
    && IsActive(w.exec) && IsActive(v.exec) && v.exec.request == w.exec.request
    && v.exec.ack.stage == w.exec.ack.stage && v.exec.pending == w.exec.pending
  }

  lemma SameRank(w: World, v: World)
    requires SameStage(w, v) && v.core.queue == w.core.queue && Unread(v) == Unread(w)
    requires v.layout == w.layout || w.core.queue == []
    ensures RankOf(v) == RankOf(w)
  {
    HeardSame(w.exec, v.exec, Unread(w));
    hide StageNumber, Heard, Longest, Unread;
  }

  // ---------------------------------------------------------------- ticks

  lemma AdvanceStage(e: Exec, now: nat)
    requires ExecInv(e) && IsActive(e) && !e.pending
    ensures var plan := Advance(Redirected(e, now), now);
      && !plan.Abort? && plan.e.request == e.request && !plan.e.pending
      && (plan.Rest? ==>
            || !IsActive(plan.e) || StageNumber(e.ack.stage) < StageNumber(plan.e.ack.stage)
            || (plan.e.ack.stage == e.ack.stage && MustWait(e, now)))
      && (plan.Submit? ==>
            && IsActive(plan.e) && Submission(plan.e, plan.request)
            && (plan.e.ack.stage == e.ack.stage || StageNumber(e.ack.stage) < StageNumber(plan.e.ack.stage)))
  {
    RedirectedMoves(e, now);
    AdvanceMoves(Redirected(e, now), now);
    AdvanceStages(e, now);
    hide Advance, Redirected, MustWait, ExecInv, Submission;
  }

  lemma AdvanceStages(e: Exec, now: nat)
    requires ExecInv(e) && IsActive(e) && !e.pending
    ensures var plan := Advance(Redirected(e, now), now);
      && (plan.Rest? ==>
            || !IsActive(plan.e) || StageNumber(e.ack.stage) < StageNumber(plan.e.ack.stage)
            || (plan.e.ack.stage == e.ack.stage && MustWait(e, now)))
      && (plan.Submit? ==>
            && IsActive(plan.e)
            && (plan.e.ack.stage == e.ack.stage || StageNumber(e.ack.stage) < StageNumber(plan.e.ack.stage)))
  {
    hide TransactionRequest;
  }

  /** What the stage submits finds an empty queue: it is taken, or the endpoint has changed. */
  lemma SubmitIsTaken(w: World, f: Exec, r: Request, ready: bool, supported: bool, now: nat)
    requires w.core.queue == [] && IsActive(w.exec) && !w.exec.pending && ExecInv(w.exec)
    requires f.request == w.exec.request && !f.pending && IsActive(f) && Submission(f, r) && f.request.generation != 0
    requires f.ack.stage == w.exec.ack.stage || StageOf(w) < StageNumber(f.ack.stage)
    ensures var (c, result) := Enqueue(w.core, r, ready, supported, now);
      var (g, reset) := Answered(f, result, now);
      var v := w.(exec := g, core := c);
      Below(RankOf(if reset then Reset(v, None, now) else v), RankOf(w))
  {
    var (c, result) := Enqueue(w.core, r, ready, supported, now);
    NeverFull(w.core, r, ready, supported, now);
    InsertInto(w.core, r, ready, supported, now);
    hide Enqueue, Submission, StageNumber, Longest, Heard;
    StoppedShape(f, EndpointChanged, now);
    StoppedShape(Stopped(f, EndpointChanged, now), Cancelled, now);
    hide Stopped;
    NineStages(f.ack.stage);
    if result.Accepted? {
      var v := w.(exec := f.(pending := true), core := c);
      assert RankOf(v).phase < RankOf(w).phase;
    } else {
      EndedIsBelow(w, Reset(w.(exec := Stopped(f, EndpointChanged, now), core := c), None, now));
    }
  }

  lemma NeverFull(c: Core, r: Request, ready: bool, supported: bool, now: nat)
    requires c.queue == [] && !r.latest
    ensures Enqueue(c, r, ready, supported, now).1 != Mixer.QueueFull
  {
    hide NewItem, Expected;
  }

  lemma TickLowers(w: World, snapshot: Snapshot, now: nat, ready: bool, supported: bool)
    requires Inv(w) && IsActive(w.exec)
    ensures var v := TickStep(w, snapshot, now, ready, supported);
      && AtMost(RankOf(v), RankOf(w))
      && (Works(w, Tick(snapshot, now, ready, supported)) ==> Below(RankOf(v), RankOf(w)))
  {
    hide Inv, ExecInv, Enqueue, Redirected, Advance, MustWait, RankOf, Below, Answered, StageNumber, Stopped, Submission;
    ExecOfInv(w);
    var e := w.exec;
    var v := TickStep(w, snapshot, now, ready, supported);
    StopsOf(e, now);
    var plan := Planned(e, snapshot, now);
    if !e.pending {
      AdvanceStage(e, now);
    }
    if plan.Abort? {
      EndedIsBelow(w, v);
    } else if !e.pending {
      if plan.Submit? {
        QueueIsQuiet(w);
        SubmitIsTaken(w, plan.e, plan.request, ready, supported, now);
      } else if !IsActive(plan.e) {
        EndedIsBelow(w, v);
      } else if StageNumber(e.ack.stage) < StageNumber(plan.e.ack.stage) {
        LaterIsBelow(w, v);
      } else {
        SameRank(w, v);
      }
    }
  }

  lemma QueueIsQuiet(w: World)
    requires Inv(w) && IsActive(w.exec) && !w.exec.pending
    ensures w.core.queue == [] && w.exec.request.generation != 0
  {
  }

  lemma StopsOf(e: Exec, now: nat)
    requires IsActive(e)
    ensures !IsActive(Stopped(e, EndpointChanged, now)) && !IsActive(Stopped(e, Interrupted, now))
    ensures !IsActive(Stopped(e, Timeout, now))
    ensures !IsActive(Stopped(Stopped(e, EndpointChanged, now), Cancelled, now))
    ensures !IsActive(Stopped(Stopped(e, Interrupted, now), Cancelled, now))
    ensures !IsActive(Stopped(Stopped(e, Timeout, now), Cancelled, now))
  {
  }

  // ---------------------------------------------------------------- events

  lemma HeardFirst(w: World)
    requires w.batch != []
    ensures Unread(w)[1..] == w.batch[1..] + w.queue && Unread(w)[0] == w.batch[0]
  {
  }

  /** A report that does not finish its item is read: one event less. */
  lemma CreditLowers(w: World, v: World)
    requires w.batch != [] && Mine(w.exec, w.batch[0]) && w.batch[0].success && IsActive(w.exec)
    requires v == w.(exec := Credited(w.exec, w.batch[0]), sched := v.sched, batch := w.batch[1..])
    ensures Below(RankOf(v), RankOf(w))
  {
    HeardFirst(w);
    CreditedStage(w.exec, w.batch[0]);
    CreditedFrame(w.exec, w.batch[0]);
    HeardSame(w.exec, v.exec, w.batch[1..] + w.queue);
    hide Credited, StageNumber, Longest;
  }

  lemma CreditedFrame(e: Exec, ev: WriterEvent)
    ensures var f := Credited(e, ev); f.request == e.request && f.pending == e.pending && f.ack.status == e.ack.status
  {
  }

  /** The finishing report ends the stage. */
  lemma DoneIsLater(e: Exec, ev: WriterEvent)
    requires ExecInv(e) && IsActive(e) && ev.kind == KindAt(e.ack.stage) && IsTransaction(ev.kind)
    ensures var f := ItemDone(Credited(e, ev), ev);
      !IsActive(f) || StageNumber(e.ack.stage) < StageNumber(f.ack.stage)
  {
    CreditedLedger(e, ev);
    CreditedStage(e, ev);
    ItemDoneStage(Credited(e, ev), ev);
    hide Credited, ItemDone;
  }

  lemma DeliverLowers(w: World, now: nat)
    requires Inv(w) && IsActive(w.exec) && w.reading && w.batch != []
    ensures var v := DeliverStep(w, now);
      && AtMost(RankOf(v), RankOf(w)) && (Works(w, DeliverOne(now)) ==> Below(RankOf(v), RankOf(w)))
  {
    hide Inv, RankOf, Below, Settled, Stopped, Mine, StageNumber;
    ExecOfInv(w);
    var e, ev := w.exec, w.batch[0];
    var v := DeliverStep(w, now);
    if !ev.success {
      DeliveredStops(e, ev, now);
      hide Delivered;
      EndedIsBelow(w, v);
    } else if !Mine(e, ev) {
      SkipIsSame(w, v);
    } else {
      KindOfMine(w);
      FirstOfStage(w);
      if ev.finished {
        DoneIsLater(e, ev);
        hide Credited, ItemDone;
        if IsActive(v.exec) {
          LaterIsBelow(w, v);
        } else {
          EndedIsBelow(w, v);
        }
      } else {
        CreditLowers(w, v);
      }
    }
  }

  lemma DeliveredStops(e: Exec, ev: WriterEvent, now: nat)
    requires !ev.success
    ensures !IsActive(Stopped(Delivered(e, ev), Cancelled, now))
  {
  }

  lemma FirstOfStage(w: World)
    requires Inv(w) && IsActive(w.exec) && w.batch != [] && Mine(w.exec, w.batch[0])
    ensures w.batch[0].kind == KindAt(w.exec.ack.stage)
  {
    MineIsPending(w);
    hide LinkInv, UsedInv, ExecInv, OverInv, SchedInv, Mine, KindAt;
    StageOfEvent(w);
  }

  lemma SkipIsSame(w: World, v: World)
    requires w.batch != [] && !Mine(w.exec, w.batch[0]) && IsActive(w.exec)
    requires v == w.(sched := v.sched, batch := w.batch[1..])
    ensures RankOf(v) == RankOf(w)
  {
    HeardFirst(w);
    hide StageNumber, Longest, Mine;
  }

  // ---------------------------------------------------------------- completions

  /** A new event counts only if it is the transaction's own success, with no failure before it. */
  lemma {:induction false} HeardMore(e: Exec, events: seq<WriterEvent>, ev: WriterEvent)
    ensures !(Mine(e, ev) && ev.success) ==> Heard(e, events + [ev]) == Heard(e, events)
  {
    hide Mine;
    if events == [] {
      assert [] + [ev] == [ev] && [ev][1..] == [];
    } else {
      assert (events + [ev])[1..] == events[1..] + [ev];
      HeardMore(e, events[1..], ev);
    }
  }

  /** The completion of anything but a written report of the transaction's item leaves its rank. */
  lemma OtherFinishIsSame(w: World, success: bool, now: nat)
    requires Inv(w) && IsActive(w.exec) && w.writer.Some? && !(success && CarriesMine(w) && w.core.inflight.Some?)
    ensures RankOf(FinishStep(w, success, now)) == RankOf(w)
  {
    hide Inv, FinishStep, LinkInv, Complete, PostedEvent, Reported, KindOf, StageNumber, Longest, Heard, FinishesItem;
    PartsOfInv(w);
    WriterOfActive(w);
    hide UsedInv, OverInv, SchedInv;
    var v := FinishStep(w, success, now);
    FinishShape(w, success, now);
    PostShape(w, success, now);
    PostedKey(w, success, now);
    PostedSuccess(w, success, now);
    FinishLayout(w, success, now);
    var ev := PostedEvent(w, success, now);
    HeardMore(w.exec, Unread(w), ev);
    if v.queue != w.queue {
      assert Unread(v) == Unread(w) + [ev];
    } else {
      assert Unread(v) == Unread(w);
    }
  }

  lemma FinishLayout(w: World, success: bool, now: nat)
    requires w.writer.Some?
    ensures FinishStep(w, success, now).layout == w.layout
  {
    hide Complete, Posted;
  }

  lemma PostedSuccess(w: World, success: bool, now: nat)
    requires LinkInv(w) && w.writer.Some?
    ensures PostedEvent(w, success, now).success == success
  {
  }

  /** A transaction's report that is not in flight belongs to an older layout, and is not reported. */
  lemma WriterOfActive(w: World)
    requires Inv(w) && IsActive(w.exec) && w.writer.Some?
    ensures w.exec.request.key != NoKey
    ensures CarriesMine(w) && w.core.inflight.None? ==> w.writer.value.generation != w.core.generation
    ensures CarriesMine(w) ==> w.exec.pending
    ensures w.core.inflight.Some? ==> CarriesMine(w)
  {
    hide UsedInv, OverInv, SchedInv, CoreInv, StageEvents, Remains, MayCarry;
  }

  lemma MineLowers(w: World, now: nat)
    requires Inv(w) && ShortInv(w) && IsActive(w.exec) && w.writer.Some? && CarriesMine(w) && w.core.inflight.Some?
    ensures Below(RankOf(FinishStep(w, true, now)), RankOf(w))
  {
    var v := FinishStep(w, true, now);
    PartsOfInv(w);
    CarriedItem(w);
    FinishShape(w, true, now);
    PostShape(w, true, now);
    FinishLayout(w, true, now);
    ShorterItem(w.layout, w.core.queue[0], w.writer.value.overlay.value);
    hide FinishStep, LinkInv, UsedInv, OverInv, SchedInv, ActiveInv, ExecInv, Complete, PostedEvent, Reported, KindOf,
         StageNumber, Longest, Heard, Finished, Committed, Shortens, SplittableAxes;
  }

  lemma CarriedItem(w: World)
    requires Inv(w) && ShortInv(w) && IsActive(w.exec) && w.writer.Some? && CarriesMine(w) && w.core.inflight.Some?
    ensures w.exec.pending && |w.core.queue| == 1
    ensures Shortens(w.layout, w.core.queue[0], w.writer.value.overlay.value.applied) && SplittableAxes(w.layout)
  {
    WriterOfActive(w);
    PendingKind(w.exec);
    hide UsedInv, OverInv, SchedInv, StageEvents, Remains, MayCarry, Shortens, SplittableAxes, ExecInv;
  }

  /** What the item has left once the report that carries it is written. */
  lemma ShorterItem(p: Profile, item: Item, o: Overlay)
    requires Shortens(p, item, o.applied) && SplittableAxes(p)
    ensures var next := Committed(item, o);
      Finished(next) || Left(p, [next]) < Left(p, [item]) || (Left(p, [next]) == Left(p, [item]) && !item.committed && next.committed)
  {
    LongestStep(p, item.remaining);
    LongestStep(p, Minus(item.remaining, o.applied));
    hide SplittableAxes, Longest, CanTakeAll, FirstPart, NoMotion;
  }

  // ---------------------------------------------------------------- every step

  lemma FlagsAreSame(w: World, v: World)
    requires IsActive(w.exec) && (v == w.(exec := Proceeded(w.exec)) || v == w.(exec := Cancelling(w.exec)))
    ensures RankOf(v) == RankOf(w)
  {
    SameRank(w, v);
  }

  /** The other steps: they end the transaction, drop its item, or leave its rank. */
  lemma RestLowers(w: World, l: Label)
    requires Inv(w) && IsActive(w.exec) && Possible(w, l)
    requires !l.Tick? && !l.DeliverOne? && !l.Finish? && !l.StartMove? && !l.ClickTurn? && !l.Take?
    ensures var v := Step(w, l);
      AtMost(RankOf(v), RankOf(w)) && (Works(w, l) ==> Below(RankOf(v), RankOf(w)))
  {
    hide Inv, RankOf, Below, Stopped, StageNumber;
    ExecOfInv(w);
    StopsOf(w.exec, 0);
    var v := Step(w, l);
    match l
    case ReadEvents =>
      BatchIsRead(w);
      SameRank(w, v);
    case CheckOverflow(now) =>
      StopIsEnd(w.exec, now);
      if w.overflow {
        EndedIsBelow(w, v);
      } else {
        SameRank(w, v);
      }
    case ResetAll(now) => StopIsEnd(w.exec, now); EndedIsBelow(w, v);
    case AcceptRelease(key, now) => StopIsEnd(w.exec, now); EndedIsBelow(w, v);
    case ProceedMove => FlagsAreSame(w, v);
    case CancelMove => FlagsAreSame(w, v);
    case Adopt => SameRank(w, v);
    case Arrival(changed) => SameRank(w, v);
    case Layout(generation) => DroppedIsLower(w, v);
    case Learn(layout) => SameRank(w, v);
    case _ =>
  }

  lemma BatchIsRead(w: World)
    requires Inv(w) && !w.reading
    ensures Unread(w.(batch := w.queue, queue := [], reading := true)) == Unread(w)
  {
    assert w.batch == [];
  }

  lemma StopIsEnd(e: Exec, now: nat)
    ensures !IsActive(Stopped(e, Cancelled, now))
  {
  }

  lemma DroppedIsLower(w: World, v: World)
    requires IsActive(w.exec) && v == w.(core := v.core) && v.core.queue == []
    ensures AtMost(RankOf(v), RankOf(w))
  {
    hide StageNumber, Heard, Longest;
    assert Unread(v) == Unread(w);
    hide Unread;
  }

  lemma TurnWaits(w: World, snapshot: Snapshot, now: nat, ready: bool, supported: bool)
    requires Inv(w) && IsActive(w.exec)
    ensures TurnStep(w, snapshot, now, ready, supported) == w
  {
    hide LinkInv, UsedInv, ExecInv, ActiveInv, OverInv, Enqueue, TurnAnswered, FinishFront, Reset;
  }

  lemma TakeIsSame(w: World, grab: Grab, now: nat)
    requires Inv(w) && IsActive(w.exec)
    ensures RankOf(TakeStep(w, grab, now)) == RankOf(w)
  {
    NothingExpires(w, now);
    hide Inv, Expire, RankOf, FrontUsable, MayCarry;
    CarryNeedsFront(w.core);
    SameRank(w, TakeStep(w, grab, now));
  }

  /** No step raises the rank of a running transaction, and every working step lowers it. */
  lemma StepLowers(w: World, l: Label)
    requires Inv(w) && ShortInv(w) && IsActive(w.exec)
    ensures var v := Step(w, l);
      AtMost(RankOf(v), RankOf(w)) && (Possible(w, l) && Works(w, l) ==> Below(RankOf(v), RankOf(w)))
  {
    hide Inv, ShortInv, RankOf, Below, TickStep, TurnStep, DeliverStep, TakeStep, FinishStep;
    if Possible(w, l) {
      match l
      case Tick(snapshot, now, ready, supported) => TickLowers(w, snapshot, now, ready, supported);
      case ClickTurn(snapshot, now, ready, supported) => TurnWaits(w, snapshot, now, ready, supported);
      case DeliverOne(now) => DeliverLowers(w, now);
      case Take(grab, now) => TakeIsSame(w, grab, now);
      case Finish(success, now) =>
        if success && CarriesMine(w) && w.core.inflight.Some? {
          MineLowers(w, now);
        } else {
          OtherFinishIsSame(w, success, now);
        }
      case StartMove(request, activity, now) => assert false;
      case _ => hide Step; RestLowers(w, l);
    }
  }

  lemma {:induction false} RunKeepsShort(w: World, labels: seq<Label>)
    requires Inv(w) && ShortInv(w)
    ensures ShortInv(Run(w, labels))
    decreases |labels|
  {
    hide Inv, ShortInv, Step;
    if labels != [] {
      StepKeepsInv(w, labels[0]);
      StepKeepsShort(w, labels[0]);
      RunKeepsShort(Step(w, labels[0]), labels[1..]);
    }
  }

  lemma ReachedShort(generation: nat, labels: seq<Label>)
    ensures ShortInv(Reached(generation, labels))
  {
    BeginInv(generation);
    BeginShort(generation);
    hide Inv, ShortInv;
    RunKeepsShort(TransactionLoop.Begin(generation), labels);
  }

  lemma BeginShort(generation: nat)
    ensures ShortInv(TransactionLoop.Begin(generation))
  {
    hide Longest;
  }

  /** In every run: whatever happens the rank of a transaction only falls, and it falls with every step that works. */
  lemma WorkIsProgress(generation: nat, labels: seq<Label>, l: Label)
    requires IsActive(Reached(generation, labels).exec)
    ensures var w := Reached(generation, labels);
      var v := Step(w, l);
      AtMost(RankOf(v), RankOf(w)) && (Possible(w, l) && Works(w, l) ==> Below(RankOf(v), RankOf(w)))
  {
    ReachedInv(generation, labels);
    ReachedShort(generation, labels);
    hide Inv, ShortInv, Reached, RankOf, Below, Step, Possible, Works;
    StepLowers(Reached(generation, labels), l);
  }

  /** The rank is a measure: nothing is below itself, and what lies below a rank below lies below. */
  lemma BelowIsOrder(a: Rank, b: Rank, c: Rank)
    ensures !Below(a, a) && (Below(a, b) && Below(b, c) ==> Below(a, c))
  {
  }

  // ---------------------------------------------------------------- unbounded runs

  /** The world after `n` steps of an unbounded run. */
  function After(w: World, run: nat -> Label, n: nat): World {
    if n == 0 then w else Step(After(w, run, n - 1), run(n - 1))
  }

  /** The transaction runs after `n` steps. */
  predicate Runs(w: World, run: nat -> Label, n: nat) {
    IsActive(After(w, run, n).exec)
  }

  /** Step `n` works for a transaction that runs. */
  predicate Working(w: World, run: nat -> Label, n: nat) {
    var v := After(w, run, n);
    Possible(v, run(n)) && Works(v, run(n))
  }

  lemma {:induction false} AfterKeepsInv(w: World, run: nat -> Label, n: nat)
    requires Inv(w) && ShortInv(w)
    ensures Inv(After(w, run, n)) && ShortInv(After(w, run, n))
  {
    hide Inv, ShortInv, Step;
    if n > 0 {
      AfterKeepsInv(w, run, n - 1);
      StepKeepsInv(After(w, run, n - 1), run(n - 1));
      StepKeepsShort(After(w, run, n - 1), run(n - 1));
    }
  }

  /** Over any stretch of the run of a transaction the rank ends no higher. */
  lemma {:induction false} RankFalls(w: World, run: nat -> Label, n: nat, m: nat)
    requires Inv(w) && ShortInv(w) && n <= m && forall k: nat :: Runs(w, run, k)
    ensures AtMost(RankOf(After(w, run, m)), RankOf(After(w, run, n)))
    decreases m - n
  {
    hide Inv, ShortInv, Step, RankOf, Below, Works, Possible;
    if n < m {
      RankFalls(w, run, n, m - 1);
      var v := After(w, run, m - 1);
      AfterKeepsInv(w, run, m - 1);
      assert Runs(w, run, m - 1);
      StepLowers(v, run(m - 1));
      BelowIsOrder(RankOf(Step(v, run(m - 1))), RankOf(v), RankOf(After(w, run, n)));
    }
  }

  /** A working step leaves the rank below what it was at any time before. */
  lemma WorkingFalls(w: World, run: nat -> Label, n: nat, m: nat)
    requires Inv(w) && ShortInv(w) && n <= m && (forall k: nat :: Runs(w, run, k)) && Working(w, run, m)
    ensures Below(RankOf(After(w, run, m + 1)), RankOf(After(w, run, n)))
  {
    hide Inv, ShortInv, Step, RankOf, Below, Works, Possible;
    RankFalls(w, run, n, m);
    var v := After(w, run, m);
    AfterKeepsInv(w, run, m);
    assert Runs(w, run, m);
    StepLowers(v, run(m));
    BelowIsOrder(RankOf(After(w, run, m + 1)), RankOf(v), RankOf(After(w, run, n)));
  }

  /** Were a transaction to run for ever, from some step on no step would work for it any more. */
  lemma {:induction false} WorkEnds(w: World, run: nat -> Label, n: nat) returns (last: nat)
    requires Inv(w) && ShortInv(w) && forall k: nat :: Runs(w, run, k)
    ensures last >= n && forall k: nat :: k >= last ==> !Working(w, run, k)
    decreases RankOf(After(w, run, n)).stages, RankOf(After(w, run, n)).phase, RankOf(After(w, run, n)).segments,
              RankOf(After(w, run, n)).uncommitted, RankOf(After(w, run, n)).unread
  {
    hide Inv, ShortInv, RankOf, Working, After;
    if m: nat :| m >= n && Working(w, run, m) {
      WorkingFalls(w, run, n, m);
      last := WorkEnds(w, run, m + 1);
    } else {
      last := n;
    }
  }

  /** After step `n` the transaction is over some time, or worked for. */
  ghost predicate KeepsMoving(w: World, run: nat -> Label, n: nat) {
    exists m: nat :: m >= n && (Working(w, run, m) || !Runs(w, run, m))
  }

  lemma NothingMoves(w: World, run: nat -> Label, n: nat)
    requires forall k: nat :: Runs(w, run, k) && (k >= n ==> !Working(w, run, k))
    ensures !KeepsMoving(w, run, n)
  {
  }

  /** In every unbounded run that never stops working for it, a transaction ends. */
  lemma TransactionEnds(generation: nat, labels: seq<Label>, run: nat -> Label)
    requires forall n: nat :: KeepsMoving(Reached(generation, labels), run, n)
    ensures exists m: nat :: !Runs(Reached(generation, labels), run, m)
  {
    hide Inv, ShortInv, Reached, Working, Runs, KeepsMoving;
    var w := Reached(generation, labels);
    ReachedInv(generation, labels);
    ReachedShort(generation, labels);
    if forall m: nat :: Runs(w, run, m) {
      var last := WorkEnds(w, run, 0);
      NothingMoves(w, run, last);
    }
  }
}
