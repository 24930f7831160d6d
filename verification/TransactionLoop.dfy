/**
 The closed loop of server and writer: the executor's ticks, the click scheduler and the release it owes, movement
 datagrams, the mixer queue, the report in the writer, and the bounded event queue the server drains, interleaved in
 every order. Snapshots and clock readings handed to the server's steps are arbitrary, and the layout may change
 between any two steps.
 */
module TransactionLoop {
  import opened Common
  import opened HidReport
  import opened Splitting
  import opened MoveTypes
  import opened Mixer
  import opened Executor
  import opened ClickScheduler
  import T = ClickTypes

  /** Displacement and edges written, acknowledged or still unread for the current transaction. */
  datatype Tally = Tally(outX: int, outY: int, backX: int, backY: int, presses: int, releases: int)

  const Nought: Tally := Tally(0, 0, 0, 0, 0, 0)

  /**
   `layout` is the endpoint's profile, and `reading` says that the server is between fetching the events (`batch`)
   and the overflow check. `used` are the keys ever accepted; `wrote` is what successful reports of the current
   transaction wrote, `lost` that one of them was not reported to the server, and `released` are the keys of fully
   written ReleaseAll reports without a synthetic button.
   */
  datatype World = World(
    exec: Exec, sched: Sched, core: Core, layout: Profile, batch: seq<WriterEvent>, queue: seq<WriterEvent>,
    overflow: bool, reading: bool, writer: Option<Carried>, used: set<Key>, wrote: Tally, lost: bool,
    released: set<Key>)

  datatype Label =
    | Tick(snapshot: Snapshot, now: nat, ready: bool, supported: bool)
    | ClickTurn(snapshot: Snapshot, now: nat, ready: bool, supported: bool)
    | ReadEvents
    | DeliverOne(now: nat)
    | CheckOverflow(now: nat)
    | ResetAll(now: nat)
    | AcceptRelease(key: Key, now: nat)
    | AcceptClick(click: Click)
    | StartMove(request: MoveRequest, activity: nat, now: nat)
    | ProceedMove
    | CancelMove
    | Motion(command: Command, next: bv8, latest: bool, ready: bool, supported: bool, now: nat)
    | Adopt
    | Arrival(changed: bool)
    | Layout(generation: nat)
    | Learn(layout: Profile)
    | Take(grab: Grab, now: nat)
    | Finish(success: bool, now: nat)

  const NoLayout: Profile := Profile(0, 0, Absent, Absent, Absent, Absent, map[], [])

  function Begin(generation: nat): World {
    World(NoTransaction, NoWork, Core([], 0, 0, None, 1, generation, 0, 0, 0), NoLayout, [], [], false, false, None, {},
          Nought, false, {})
  }

  // ---------------------------------------------------------------- tallies

  function Add(a: Tally, b: Tally): Tally {
    Tally(a.outX + b.outX, a.outY + b.outY, a.backX + b.backX, a.backY + b.backY,
          a.presses + b.presses, a.releases + b.releases)
  }

  /** What a successful report of kind `k` with motion (x, y) writes. */
  function Writes(k: Kind, x: int, y: int): Tally {
    match k
    case TransactionOut => Nought.(outX := x, outY := y)
    case TransactionReturn => Nought.(backX := x, backY := y)
    case TransactionPress => Nought.(presses := 1)
    case TransactionRelease => Nought.(releases := 1)
    case _ => Nought
  }

  function Unacknowledged(e: Exec, ev: WriterEvent): Tally {
    if Mine(e, ev) && ev.success then Writes(ev.kind, ev.dx, ev.dy) else Nought
  }

  function Sum(e: Exec, events: seq<WriterEvent>): Tally {
    if events == [] then Nought else Add(Unacknowledged(e, events[0]), Sum(e, events[1..]))
  }

  function Acknowledged(e: Exec): Tally {
    Tally(e.ack.outX, e.ack.outY, e.ack.returnX, e.ack.returnY,
          if e.ack.pressed then 1 else 0, if e.ack.released then 1 else 0)
  }

  lemma {:induction false} SumAppend(e: Exec, events: seq<WriterEvent>, ev: WriterEvent)
    ensures Sum(e, events + [ev]) == Add(Sum(e, events), Unacknowledged(e, ev))
  {
    hide Unacknowledged;
    if events != [] {
      SumAppend(e, events[1..], ev);
      assert (events + [ev])[1..] == events[1..] + [ev];
    }
  }

  lemma {:induction false} SumNone(e: Exec, events: seq<WriterEvent>)
    requires forall i :: 0 <= i < |events| ==> events[i].key != e.request.key
    ensures Sum(e, events) == Nought
  {
    if events != [] {
      SumNone(e, events[1..]);
    }
  }

  lemma {:induction false} SumSameRequest(e: Exec, f: Exec, events: seq<WriterEvent>)
    requires e.request == f.request
    ensures Sum(e, events) == Sum(f, events)
  {
    if events != [] {
      SumSameRequest(e, f, events[1..]);
    }
  }

  // ---------------------------------------------------------------- steps

  function Unread(w: World): seq<WriterEvent> {
    w.batch + w.queue
  }

  predicate CarriesMine(w: World) {
    && w.writer.Some? && w.writer.value.overlay.Some?
    && w.writer.value.overlay.value.key == w.exec.request.key
  }

  /** `begin_reset`: the transaction stops, every synthetic item is dropped, and a release is owed. */
  function Reset(w: World, attach: Option<Key>, now: nat): World {
    w.(exec := Stopped(w.exec, Cancelled, now), sched := ResetSched(w.sched, attach, w.core.generation),
       core := Clear(w.core))
  }

  function TickStep(w: World, snapshot: Snapshot, now: nat, ready: bool, supported: bool): World {
    var plan := Planned(w.exec, snapshot, now);
    match plan
    case Rest(e) => w.(exec := e)
    case Abort(e) => Reset(w.(exec := e), None, now)
    case Submit(e, r) =>
      var (c, result) := Enqueue(w.core, r, ready, supported, now);
      var (f, reset) := Answered(e, result, now);
      if reset then Reset(w.(exec := f, core := c), None, now) else w.(exec := f, core := c)
  }

  /** `scheduler_tick`: the owed release first, then the front click's next edge. */
  function TurnStep(w: World, snapshot: Snapshot, now: nat, ready: bool, supported: bool): World {
    var turn := PlanTick(w.sched, snapshot, now);
    if turn.NeedReset? then Reset(w, None, now)
    else if turn.FinishActive? then w.(sched := FinishFront(w.sched, T.ButtonActive).0)
    else if turn.Wait? then w
    else
      var (c, result) := Enqueue(w.core, turn.request, ready, supported, now);
      if AnswerResets(turn, result) then Reset(w.(core := c), None, now)
      else w.(core := c, sched := TurnAnswered(w.sched, turn, result))
  }

  function DeliverStep(w: World, now: nat): World
    requires w.batch != []
  {
    var ev := w.batch[0];
    var v := w.(exec := Delivered(w.exec, ev), batch := w.batch[1..]);
    if ev.success then v.(sched := Settled(v.sched, ev).0) else Reset(v, None, now)
  }

  function StartStep(w: World, r: MoveRequest, activity: nat, now: nat): World {
    w.(exec := Started(r, activity, now), sched := w.sched.(tracked := r.generation), used := w.used + {r.key},
       wrote := Nought, lost := false)
  }

  function MotionStep(w: World, c: Command, next: bv8, latest: bool, ready: bool, supported: bool, now: nat): World {
    var (core, result) := Enqueue(w.core, MotionRequest(w.sched, c, next, latest), ready, supported, now);
    w.(core := core,
       sched := if result.Accepted? then w.sched.(persistent := next, tracked := w.core.generation) else w.sched)
  }

  function TakeStep(w: World, grab: Grab, now: nat): World {
    var (c, report) := Taken(w.core, grab, now);
    w.(core := c, writer := if report.Some? then report else w.writer)
  }

  /** The completion's event, when there is one, is queued or lost. */
  function Post(w: World, r: Carried, success: bool, finished: bool, now: nat): World {
    var (queue, overflow) := Posted(w.queue, w.overflow, w.core.generation, r, success, finished, now);
    w.(queue := queue, overflow := overflow)
  }

  predicate CarriesRelease(w: World) {
    && w.writer.Some? && w.writer.value.overlay.Some? && w.writer.value.overlay.value.kind.ReleaseAll?
    && w.writer.value.overlay.value.persistent == 0 && w.writer.value.overlay.value.scheduled == 0
  }

  function FinishStep(w: World, success: bool, now: nat): World
    requires w.writer.Some?
  {
    var r := w.writer.value;
    var (c, finished) := Complete(w.core, r.generation, r.overlay, success);
    var v := Post(w, r, success, finished, now);
    var counted := success && CarriesMine(w);
    v.(core := c, writer := None,
       wrote := if counted then Add(w.wrote, Writes(r.overlay.value.kind, r.overlay.value.applied.x,
                                                    r.overlay.value.applied.y)) else w.wrote,
       lost := w.lost || (counted && v.queue == w.queue),
       released := if success && CarriesRelease(w) then w.released + {r.overlay.value.key} else w.released)
  }

  /** A take that carries a transaction's item writes a part of it, or commits its masks. */
  predicate CarriesPart(w: World, grab: Grab, now: nat) {
    var c := Expire(w.core, now);
    grab.Carry? && c.queue != [] && IsTransaction(c.queue[0].kind) ==> Shortens(w.layout, c.queue[0], grab.applied)
  }

  predicate Possible(w: World, l: Label) {
    match l
    case Tick(snapshot, now, ready, supported) => !w.reading
    case ClickTurn(snapshot, now, ready, supported) => !w.reading
    case ReadEvents => !w.reading
    case DeliverOne(now) => w.reading && w.batch != []
    case CheckOverflow(now) => w.reading && w.batch == []
    case ResetAll(now) => !w.reading
    case AcceptRelease(key, now) => !w.reading && key.session != 0 && key !in w.used
    case AcceptClick(click) =>
      && !w.reading && !IsActive(w.exec) && FreshClick(click) && |w.sched.work| < MAX_CLICK_COMMANDS
      && (click.binary ==> click.key !in w.used)
    case StartMove(request, activity, now) =>
      && !w.reading && !IsActive(w.exec) && w.sched.work == [] && !w.sched.releasePending && w.core.queue == []
      && request.key != NoKey && request.key !in w.used && request.generation != 0
    case ProceedMove => !w.reading
    case CancelMove => !w.reading
    case Motion(command, next, latest, ready, supported, now) => !w.reading && !IsActive(w.exec)
    case Adopt => !w.reading
    case Arrival(changed) => true
    case Layout(generation) => generation > w.core.generation
    case Learn(layout) => w.core.queue == [] && SplittableAxes(layout)
    case Take(grab, now) =>
      && w.writer.None? && w.core.inflight.None? && CarriesPart(w, grab, now)
      && (grab.Plain? ==> grab.generation <= w.core.generation)
    case Finish(success, now) => w.writer.Some?
  }

  /** One step; a label that is not possible leaves the world as it is. */
  function Step(w: World, l: Label): World {
    if !Possible(w, l) then w
    else
      match l
      case Tick(snapshot, now, ready, supported) => TickStep(w, snapshot, now, ready, supported)
      case ClickTurn(snapshot, now, ready, supported) => TurnStep(w, snapshot, now, ready, supported)
      case ReadEvents => w.(batch := w.queue, queue := [], reading := true)
      case DeliverOne(now) => DeliverStep(w, now)
      case CheckOverflow(now) =>
        var v := w.(reading := false, overflow := false);
        if w.overflow then Reset(v, None, now) else v
      case ResetAll(now) => Reset(w, None, now)
      case AcceptRelease(key, now) => Reset(w.(used := w.used + {key}), Some(key), now)
      case AcceptClick(click) =>
        w.(sched := w.sched.(work := w.sched.work + [click], tracked := w.core.generation), used := w.used + {click.key})
      case StartMove(request, activity, now) => StartStep(w, request, activity, now)
      case ProceedMove => w.(exec := Proceeded(w.exec))
      case CancelMove => w.(exec := Cancelling(w.exec))
      case Motion(command, next, latest, ready, supported, now) =>
        MotionStep(w, command, next, latest, ready, supported, now)
      case Adopt => w.(sched := w.sched.(tracked := w.core.generation))
      case Arrival(changed) => w.(core := Arrive(w.core, changed))
      case Layout(generation) => w.(core := Invalidate(w.core, generation))
      case Learn(layout) => w.(layout := layout)
      case Take(grab, now) => TakeStep(w, grab, now)
      case Finish(success, now) => FinishStep(w, success, now)
  }

  function Run(w: World, labels: seq<Label>): World
    decreases |labels|
  {
    if labels == [] then w else Run(Step(w, labels[0]), labels[1..])
  }

  // ---------------------------------------------------------------- the executor's own invariant

  predicate Before(s: Stage) {
    s.Outward? || s.Settle? || s.Waiting? || s.Pressing?
  }

  /** The item kind a stage submits. */
  function KindAt(s: Stage): Kind {
    match s
    case Outward => TransactionOut
    case Pressing => TransactionPress
    case Releasing => TransactionRelease
    case Returning => TransactionReturn
    case _ => NoKind
  }

  /** The way out is written in full. */
  predicate WholeWay(e: Exec) {
    e.ack.outX == e.request.dx && e.ack.outY == e.request.dy
  }

  /** What an active transaction's stage says about its ledger and flags. */
  predicate ExecInv(e: Exec) {
    IsActive(e) ==>
      var a := e.ack;
      && !a.stage.Idle? && !a.stage.Done? && !a.uncertain && e.request.key != NoKey && e.request.generation != 0
      && a.residualX == a.outX + a.returnX && a.residualY == a.outY + a.returnY
      && (!a.stage.Returning? ==> a.returnX == 0 && a.returnY == 0)
      && (Before(a.stage) ==> !a.pressed && !a.released)
      && (a.stage.Hold? || a.stage.Releasing? ==> a.pressed && !a.released)
      && (a.stage.ReturnDelay? || a.stage.Returning? ==> a.pressed == a.released)
      && (e.request.button == 0 ==> !a.pressed && !a.stage.Pressing?)
      && (e.pending ==> IsTransaction(KindAt(a.stage)))
      && (!a.stage.Outward? ==> WholeWay(e) || (e.cancelled && a.outX == 0 && a.outY == 0))
      && (a.stage.Returning? ==> WholeWay(e))
      && (!e.cancelled && (a.stage.ReturnDelay? || a.stage.Returning?) ==> a.pressed == (e.request.button != 0))
      && (a.stage.Outward? && !e.pending ==> a.outX == 0 && a.outY == 0)
      && (a.stage.Returning? && !e.pending ==> a.returnX == 0 && a.returnY == 0)
  }

  // ---------------------------------------------------------------- the joint invariant

  ghost predicate LinkInv(w: World) {
    Linked(w.core, w.writer) && (w.writer.Some? ==> w.writer.value.generation <= w.core.generation)
  }

  predicate Known(w: World, key: Key) {
    key == NoKey || key in w.used
  }

  /** Keys are fresh until a transaction or another enqueue uses them. */
  ghost predicate UsedInv(w: World) {
    && (forall i :: 0 <= i < |w.core.queue| ==> Known(w, w.core.queue[i].key))
    && (w.writer.Some? && w.writer.value.overlay.Some? ==> Known(w, w.writer.value.overlay.value.key))
    && (forall i :: 0 <= i < |w.batch| ==> Known(w, w.batch[i].key))
    && (forall i :: 0 <= i < |w.queue| ==> Known(w, w.queue[i].key))
    && (w.exec.request.key != NoKey ==> w.exec.request.key in w.used)
    && (w.overflow && !w.reading ==> |w.queue| >= MAX_EVENTS)
    && (!w.reading ==> w.batch == [])
  }

  /** No event of the transaction in `events` finishes an item. */
  predicate Unfinished(e: Exec, events: seq<WriterEvent>) {
    forall i :: 0 <= i < |events| && Mine(e, events[i]) ==> !events[i].finished
  }

  predicate NoneMine(e: Exec, events: seq<WriterEvent>) {
    forall i :: 0 <= i < |events| ==> events[i].key != e.request.key
  }

  predicate IsButtonEdge(k: Kind) {
    k.TransactionPress? || k.TransactionRelease?
  }

  /** Unread events belong to the current stage's item, and a finishing one is the last of them. */
  predicate StageEvents(e: Exec, events: seq<WriterEvent>) {
    && (forall i :: 0 <= i < |events| && Mine(e, events[i]) ==>
          && events[i].kind == KindAt(e.ack.stage) && (events[i].finished ==> events[i].success)
          && (events[i].success && IsButtonEdge(events[i].kind) ==> events[i].finished))
    && (forall i, j :: 0 <= i < j < |events| && Mine(e, events[i]) && events[j].key == e.request.key ==>
          !events[i].finished)
  }

  /** The item the stage submitted, as it waits in the queue. */
  predicate StageItem(e: Exec, item: Item) {
    && item.key == e.request.key && item.kind == KindAt(e.ack.stage) && item.deadline == 0 && !item.latest
    && !Finished(item) && item.remaining.wheel == 0 && item.remaining.pan == 0
    && (IsButtonEdge(item.kind) ==> item.remaining.x == 0 && item.remaining.y == 0)
  }

  /** What the stage's item still has to write, over what it was asked to. */
  predicate Remains(e: Exec, wrote: Tally, x: int, y: int) {
    && (e.ack.stage.Outward? ==> wrote.outX + x == e.request.dx && wrote.outY + y == e.request.dy)
    && (e.ack.stage.Returning? ==>
          wrote.backX + x == -e.ack.outX && wrote.backY + y == -e.ack.outY)
  }

  /** Between items: nothing of the transaction is anywhere on the way. */
  ghost predicate Quiet(w: World) {
    && w.core.queue == [] && !CarriesMine(w) && !w.lost
    && NoneMine(w.exec, w.batch) && NoneMine(w.exec, w.queue)
    && w.wrote == Acknowledged(w.exec)
  }

  /** While an item is pending: it waits or is in the writer, or its finishing event is unread or lost. */
  ghost predicate Underway(w: World) {
    var e := w.exec;
    && StageEvents(e, Unread(w)) && |w.core.queue| <= 1 && e.request.generation <= w.core.generation
    && (w.core.queue != [] ==> StageItem(e, w.core.queue[0]) && w.core.generation == e.request.generation)
    && (CarriesMine(w) ==>
          w.writer.value.overlay.value.kind == KindAt(e.ack.stage) && w.writer.value.generation == e.request.generation)
    && (CarriesMine(w) && w.core.inflight.None? ==> w.core.generation != e.request.generation)
    && (w.core.queue != [] || CarriesMine(w) ==> Unfinished(e, w.batch) && Unfinished(e, w.queue))
    && (w.lost ==>
          && Unfinished(e, w.batch)
          && ((w.overflow && (w.reading || Unfinished(e, w.queue)))
              || (w.core.generation != e.request.generation && Unfinished(e, w.queue))))
    && (!w.lost ==>
          && w.wrote == Add(Acknowledged(e), Sum(e, Unread(w)))
          && (w.core.queue != [] ==> Remains(e, w.wrote, w.core.queue[0].remaining.x, w.core.queue[0].remaining.y))
          && (!(Unfinished(e, w.batch) && Unfinished(e, w.queue)) ==> Remains(e, w.wrote, 0, 0)))
  }

  ghost predicate ActiveInv(w: World) {
    IsActive(w.exec) ==> if w.exec.pending then Underway(w) else Quiet(w)
  }

  /** The final account of a completed transaction. */
  predicate Balanced(e: Exec, wrote: Tally) {
    var a, r := e.ack, e.request;
    && !a.uncertain && a.outX == r.dx && a.outY == r.dy && a.returnX == -r.dx && a.returnY == -r.dy
    && a.residualX == 0 && a.residualY == 0
    && a.pressed == a.released == (r.button != 0)
    && wrote.presses == wrote.releases == (if r.button != 0 then 1 else 0)
  }

  /** After the end: unless flagged uncertain, the acknowledged displacement is what was written, for good. */
  ghost predicate OverInv(w: World) {
    !IsActive(w.exec) ==>
      && (w.exec.request.key != NoKey ==>
            && (forall i :: 0 <= i < |w.core.queue| ==> w.core.queue[i].key != w.exec.request.key)
            && (!w.exec.ack.uncertain ==>
                  && !CarriesMine(w)
                  && w.wrote.outX == w.exec.ack.outX && w.wrote.outY == w.exec.ack.outY
                  && w.wrote.backX == w.exec.ack.returnX && w.wrote.backY == w.exec.ack.returnY))
      && (w.exec.ack.status.Completed? ==> w.exec.request.key != NoKey && Balanced(w.exec, w.wrote))
  }

  /** A key the scheduler works for is used, and not the transaction's. */
  predicate Apart(w: World, key: Key) {
    key == NoKey || (key in w.used && key != w.exec.request.key)
  }

  /** Clicks, releases and the transaction have their own keys; while a transaction runs nothing else is owed. */
  ghost predicate SchedInv(w: World) {
    && (forall i :: 0 <= i < |w.sched.work| ==> Apart(w, w.sched.work[i].key))
    && Apart(w, w.sched.releaseKey)
    && (IsActive(w.exec) ==> w.sched.work == [] && !w.sched.releasePending)
    && (w.sched.releaseInflight ==> w.sched.releasePending)
  }

  ghost predicate Inv(w: World) {
    LinkInv(w) && UsedInv(w) && ExecInv(w.exec) && ActiveInv(w) && OverInv(w) && SchedInv(w)
  }

  lemma BeginInv(generation: nat)
    ensures Inv(Begin(generation))
  {
  }
}
