/**
 The closed loop around the click scheduler: clicks, movement datagrams, releases and what transactions ask for, the
 mixer queue, the writer and the event queue, under one clock that never runs back. The layout changes only between
 two iterations of the server's loop.
 */
module ClickLoop {
  import opened Common
  import opened HidReport
  import opened Splitting
  import opened MoveTypes
  import opened Mixer
  import opened ClickScheduler
  import T = ClickTypes

  /** A click edge that left in a fully written report. */
  datatype Edge = Edge(press: bool, index: nat, at: nat)

  /**
   `torn` says that the layout changed and the server has not looked since. `used` are the keys ever accepted, and
   `edges` the written edges of the command in front.
   */
  datatype World = World(
    sched: Sched, core: Core, batch: seq<WriterEvent>, queue: seq<WriterEvent>, overflow: bool, reading: bool,
    writer: Option<Carried>, clock: nat, torn: bool, used: set<Key>, edges: seq<Edge>)

  datatype Label =
    | Top(ready: bool)
    | ReadEvents
    | DeliverOne
    | CheckOverflow
    | ResetAll
    | AcceptRelease(key: Key)
    | AcceptClick(click: Click)
    | Motion(command: Command, next: bv8, latest: bool, ready: bool, supported: bool, wait: nat)
    | TransactionItem(request: Request, ready: bool, supported: bool, wait: nat)
    | ClickTurn(seen: bool, physical: bv8, ready: bool, supported: bool, wait: nat)
    | Arrival(changed: bool)
    | Layout(generation: nat)
    | Take(grab: Grab, wait: nat)
    | Finish(success: bool, wait: nat)

  function Begin(generation: nat): World {
    World(NoWork, Core([], 0, 0, None, 1, generation, 0, 0, 0), [], [], false, false, None, 0, false, {}, [])
  }

  // ---------------------------------------------------------------- steps

  function Unread(w: World): seq<WriterEvent> {
    w.batch + w.queue
  }

  /** `begin_reset`. */
  function Reset(w: World, attach: Option<Key>): World {
    w.(sched := ResetSched(w.sched, attach, w.core.generation), core := Clear(w.core), edges := [])
  }

  function TopStep(w: World, ready: bool): World {
    var v := if w.sched.tracked == 0 && ready then w.(sched := w.sched.(tracked := w.core.generation)) else w;
    var u := if v.sched.tracked != 0 && w.core.generation != v.sched.tracked then Reset(v, None) else v;
    u.(torn := false)
  }

  /** The scheduler after a move that may have finished the command in front. */
  function WithSched(w: World, s: Sched): World {
    w.(sched := s, edges := if |s.work| < |w.sched.work| then [] else w.edges)
  }

  function DeliverStep(w: World): World
    requires w.batch != []
  {
    var ev := w.batch[0];
    var v := w.(batch := w.batch[1..]);
    if ev.success then WithSched(v, Settled(v.sched, ev).0) else Reset(v, None)
  }

  function MotionStep(w: World, c: Command, next: bv8, latest: bool, ready: bool, supported: bool): World {
    var transition := next != w.sched.persistent;
    if !transition && NoMotion(c) then w.(sched := w.sched.(tracked := w.core.generation))
    else
      var r := MotionRequest(w.sched, c, next, latest);
      var (core, result) := Enqueue(w.core, r, ready, supported, w.clock);
      w.(core := core,
         sched := if result.Accepted? then w.sched.(persistent := next, tracked := w.core.generation) else w.sched)
  }

  /** A transaction asks for its item. */
  function TransactionStep(w: World, r: Request, ready: bool, supported: bool): World {
    w.(core := Enqueue(w.core, r, ready, supported, w.clock).0, used := w.used + {r.key})
  }

  /** What the server sees when the scheduler looks. */
  function Sight(w: World, seen: bool, physical: bv8): Snapshot {
    Snapshot(seen, w.core.generation, w.core.activity, 0, physical, w.core.persistent, w.core.scheduled, 0, 0, 0, 0, 0,
             0, |w.core.queue|)
  }

  function TurnStep(w: World, seen: bool, physical: bv8, ready: bool, supported: bool): World {
    var turn := PlanTick(w.sched, Sight(w, seen, physical), w.clock);
    if turn.NeedReset? then Reset(w, None)
    else if turn.FinishActive? then WithSched(w, FinishFront(w.sched, T.ButtonActive).0)
    else if turn.Wait? then w
    else
      var (core, result) := Enqueue(w.core, turn.request, ready, supported, w.clock);
      if AnswerResets(turn, result) then Reset(w.(core := core), None)
      else w.(core := core, sched := TurnAnswered(w.sched, turn, result))
  }

  function TakeStep(w: World, grab: Grab): World {
    var (c, report) := Taken(w.core, grab, w.clock);
    w.(core := c, writer := if report.Some? then report else w.writer)
  }

  /** The writer carries an edge of the command in front. */
  predicate CarriesEdge(w: World) {
    && w.sched.work != [] && w.writer.Some? && w.writer.value.overlay.Some?
    && ClickKind(w.writer.value.overlay.value.kind) && w.writer.value.overlay.value.key == w.sched.work[0].key
  }

  function FinishStep(w: World, success: bool): World
    requires w.writer.Some?
  {
    var r := w.writer.value;
    var (c, finished) := Complete(w.core, r.generation, r.overlay, success);
    var (queue, overflow) := Posted(w.queue, w.overflow, w.core.generation, r, success, finished, w.clock);
    w.(core := c, queue := queue, overflow := overflow, writer := None,
       edges := if success && CarriesEdge(w)
                then w.edges + [Edge(r.overlay.value.kind.ClickPress?, r.overlay.value.index, w.clock)] else w.edges)
  }

  predicate Possible(w: World, l: Label) {
    match l
    case Top(ready) => !w.reading
    case ReadEvents => !w.reading && !w.torn
    case DeliverOne => w.reading && w.batch != []
    case CheckOverflow => w.reading && w.batch == []
    case ResetAll => !w.reading && !w.torn
    case AcceptRelease(key) => !w.reading && !w.torn && key.session != 0 && key !in w.used
    case AcceptClick(click) =>
      && !w.reading && !w.torn && FreshClick(click) && |w.sched.work| < MAX_CLICK_COMMANDS
      && (click.binary ==> click.key !in w.used)
    case Motion(command, next, latest, ready, supported, wait) => !w.reading && !w.torn
    case TransactionItem(request, ready, supported, wait) =>
      !w.reading && !w.torn && w.sched.work == [] && IsTransaction(request.kind) && request.key != NoKey
    case ClickTurn(seen, physical, ready, supported, wait) => !w.reading && !w.torn
    case Arrival(changed) => true
    case Layout(generation) => !w.reading && generation > w.core.generation
    case Take(grab, wait) =>
      w.writer.None? && w.core.inflight.None? && (grab.Plain? ==> grab.generation <= w.core.generation)
    case Finish(success, wait) => w.writer.Some?
  }

  function Later(w: World, wait: nat): World {
    w.(clock := w.clock + wait)
  }

  /** One step; a label that is not possible leaves the world as it is. */
  function Step(w: World, l: Label): World {
    if !Possible(w, l) then w
    else
      match l
      case Top(ready) => TopStep(w, ready)
      case ReadEvents => w.(batch := w.queue, queue := [], reading := true)
      case DeliverOne => DeliverStep(w)
      case CheckOverflow =>
        var v := w.(reading := false, overflow := false);
        if w.overflow then Reset(v, None) else v
      case ResetAll => Reset(w, None)
      case AcceptRelease(key) => Reset(w.(used := w.used + {key}), Some(key))
      case AcceptClick(click) =>
        w.(sched := w.sched.(work := w.sched.work + [click], tracked := w.core.generation),
           used := if click.binary then w.used + {click.key} else w.used)
      case Motion(command, next, latest, ready, supported, wait) =>
        MotionStep(Later(w, wait), command, next, latest, ready, supported)
      case TransactionItem(request, ready, supported, wait) => TransactionStep(Later(w, wait), request, ready, supported)
      case ClickTurn(seen, physical, ready, supported, wait) => TurnStep(Later(w, wait), seen, physical, ready, supported)
      case Arrival(changed) => w.(core := Arrive(w.core, changed))
      case Layout(generation) => w.(core := Invalidate(w.core, generation), torn := true)
      case Take(grab, wait) => TakeStep(Later(w, wait), grab)
      case Finish(success, wait) => FinishStep(Later(w, wait), success)
  }

  function Run(w: World, labels: seq<Label>): World
    decreases |labels|
  {
    if labels == [] then w else Run(Step(w, labels[0]), labels[1..])
  }

  function Reached(generation: nat, labels: seq<Label>): World {
    Run(Begin(generation), labels)
  }

  // ---------------------------------------------------------------- what every run keeps of queue and writer

  lemma ResetKeepsLink(w: World, attach: Option<Key>)
    requires Linked(w.core, w.writer)
    ensures Linked(Reset(w, attach).core, Reset(w, attach).writer)
  {
    ClearKeepsLink(w.core, w.writer);
  }

  /** The steps that ask the mixer for nothing and do not concern the writer. */
  predicate Plainly(l: Label) {
    !l.Motion? && !l.TransactionItem? && !l.ClickTurn? && !l.Take? && !l.Finish? && !l.Layout? && !l.Arrival?
  }

  lemma PlainKeepsLink(w: World, l: Label)
    requires Linked(w.core, w.writer) && Plainly(l)
    ensures Linked(Step(w, l).core, Step(w, l).writer)
  {
    hide Linked, Settled, ResetSched, Clear, FreshClick;
    ResetKeepsLink(w, None);
  }

  lemma StepKeepsLink(w: World, l: Label)
    requires Linked(w.core, w.writer)
    ensures Linked(Step(w, l).core, Step(w, l).writer)
  {
    hide Linked, TurnStep, MotionStep, DeliverStep, TopStep, Reset, Enqueue, Complete, Taken, Posted, FreshClick;
    if Plainly(l) {
      PlainKeepsLink(w, l);
    } else if Possible(w, l) {
      match l
      case Motion(command, next, latest, ready, supported, wait) =>
        MotionKeepsLink(Later(w, wait), command, next, latest, ready, supported);
      case TransactionItem(request, ready, supported, wait) =>
        EnqueueKeepsLink(w.core, w.writer, request, ready, supported, w.clock + wait);
      case ClickTurn(seen, physical, ready, supported, wait) =>
        TurnKeepsLink(Later(w, wait), seen, physical, ready, supported);
      case Arrival(changed) => ArriveKeepsLink(w.core, w.writer, changed);
      case Layout(generation) => InvalidateKeepsLink(w.core, w.writer, generation);
      case Take(grab, wait) => TakeKeepsLink(w.core, w.writer, grab, w.clock + wait);
      case Finish(success, wait) => FinishKeepsLink(w.core, w.writer.value, success);
    }
  }

  lemma MotionKeepsLink(w: World, c: Command, next: bv8, latest: bool, ready: bool, supported: bool)
    requires Linked(w.core, w.writer)
    ensures var v := MotionStep(w, c, next, latest, ready, supported); Linked(v.core, v.writer)
  {
    hide Linked, Enqueue;
    var r := MotionRequest(w.sched, c, next, latest);
    EnqueueKeepsLink(w.core, w.writer, r, ready, supported, w.clock);
  }

  lemma TurnKeepsLink(w: World, seen: bool, physical: bv8, ready: bool, supported: bool)
    requires Linked(w.core, w.writer)
    ensures var v := TurnStep(w, seen, physical, ready, supported); Linked(v.core, v.writer)
  {
    hide Linked, Enqueue, PlanTick, FinishFront, TurnAnswered, ResetSched, Clear;
    var turn := PlanTick(w.sched, Sight(w, seen, physical), w.clock);
    ClearKeepsLink(w.core, w.writer);
    if turn.AskRelease? || turn.AskPress? || turn.AskLift? {
      EnqueueKeepsLink(w.core, w.writer, turn.request, ready, supported, w.clock);
      ClearKeepsLink(Enqueue(w.core, turn.request, ready, supported, w.clock).0, w.writer);
    }
  }

  /** A movement datagram enqueues at most once and touches nothing else but its own mask. */
  lemma MotionShape(w: World, c: Command, next: bv8, latest: bool, ready: bool, supported: bool)
    ensures var v := MotionStep(w, c, next, latest, ready, supported);
      && v == w.(core := v.core, sched := v.sched)
      && v.sched == w.sched.(persistent := v.sched.persistent, tracked := v.sched.tracked)
      && (v.sched.tracked == w.sched.tracked || v.sched.tracked == w.core.generation)
      && (v.core == w.core
          || v.core == Enqueue(w.core, MotionRequest(w.sched, c, next, latest), ready, supported, w.clock).0)
  {
    hide Enqueue, MotionRequest, NoMotion;
  }
}
