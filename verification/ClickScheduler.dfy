/** The values of the click protocol. */
module ClickTypes {
  import opened Common

  const VERSION1 := 1
  const VERSION2 := 2

  datatype Operation = Schedule | ReleaseEverything

  datatype Status =
    | Accepted | Duplicate | Completed | Busy | QueueFull | UnsupportedButton | Invalid | Cancelled
    | ButtonActive | NotReady | StaleCommand

  /** Durations are in microseconds. */
  datatype Request = Request(
    operation: Operation, button: nat, key: Key, count: nat, press: nat, interval: nat, version: nat)
}

/**
 The click scheduler and the release obligation: which edge is asked of the mixer next, and what a completed
 report means for the command in front.
 */
module ClickScheduler {
  import opened Common
  import opened HidReport
  import opened MoveTypes
  import opened Mixer
  import Executor
  import T = ClickTypes

  const MAX_CLICK_COMMANDS := 64

  datatype Phase = AwaitPress | PressInflight | Holding | AwaitRelease | ReleaseInflight

  datatype Click = Click(
    key: Key, button: nat, count: nat, press: nat, interval: nat, index: nat,
    pressWritten: nat, due: nat, phase: Phase, version: nat, blocked: bool, binary: bool)

  datatype Sched = Sched(
    work: seq<Click>, persistent: bv8, scheduled: bv8, tracked: nat,
    releasePending: bool, releaseInflight: bool, releaseKey: Key)

  const NoWork: Sched := Sched([], 0, 0, 0, false, false, NoKey)

  /** What the command cache is told: how a command ended, or how many of its clicks are complete. */
  datatype Mark = Ended(key: Key, status: T.Status) | Progressed(key: Key, completed: nat)

  // ---------------------------------------------------------------- reset

  function CancelMarks(work: seq<Click>): seq<Mark> {
    if work == [] then []
    else (if work[0].binary then [Ended(work[0].key, T.Cancelled)] else []) + CancelMarks(work[1..])
  }

  /** `begin_reset` with the key of a ReleaseAll, or with none. */
  function ResetMarks(s: Sched, attach: Option<Key>): seq<Mark> {
    (if attach.Some? && s.releaseKey.session != 0 && s.releaseKey != attach.value
     then [Ended(s.releaseKey, T.Cancelled)] else [])
    + CancelMarks(s.work)
  }

  function ResetSched(s: Sched, attach: Option<Key>, generation: nat): Sched {
    Sched([], 0, 0, generation, true, false, if attach.Some? then attach.value else s.releaseKey)
  }

  // ---------------------------------------------------------------- ticks

  function FrontAs(s: Sched, front: Click): Sched
    requires s.work != []
  {
    s.(work := [front] + s.work[1..])
  }

  function FinishFront(s: Sched, status: T.Status): (Sched, seq<Mark>)
    requires s.work != []
  {
    (s.(work := s.work[1..], scheduled := 0), if s.work[0].binary then [Ended(s.work[0].key, status)] else [])
  }

  /** Movement with the masks in force; only pure movement may be the newest correction. */
  function MotionRequest(s: Sched, c: Command, next: bv8, latest: bool): Request {
    var transition := next != s.persistent;
    Request(c, next, s.scheduled, if transition then Persistent else Movement, latest && !transition, NoKey, 0, 0, None, 0)
  }

  /** A command as the server queues it. */
  predicate FreshClick(c: Click) {
    && c.phase.AwaitPress? && c.index == 0 && !c.blocked && 1 <= c.button <= 8 && c.count >= 1
    && (c.binary ==> c.key.session != 0) && (!c.binary ==> c.key == NoKey)
  }

  datatype Turn =
    | Wait
    | NeedReset
    | FinishActive
    | AskRelease(request: Request)
    | AskPress(request: Request)
    | AskLift(request: Request)

  function ReleaseRequest(s: Sched): Request {
    Request(Still, 0, 0, ReleaseAll, false, s.releaseKey, 0, 0, None, 0)
  }

  /** The mask with a button added, or taken away. */
  function PlusButton(mask: bv8, button: nat): bv8 { Either(mask, ButtonBit(button)) }

  function MinusButton(mask: bv8, button: nat): bv8 { mask & !ButtonBit(button) }

  predicate HasButton(mask: bv8, button: nat) { mask & ButtonBit(button) != 0 }

  function EdgeRequest(s: Sched, kind: Kind, scheduled: bv8): Request
    requires s.work != []
  {
    var f := s.work[0];
    Request(Still, s.persistent, scheduled, kind, false, f.key, f.index, f.button, None, 0)
  }

  /** `scheduler_tick` up to its one enqueue: the release first, then the front command's next edge. */
  function PlanTick(s: Sched, snapshot: Snapshot, now: nat): Turn {
    if s.releasePending then
      if s.releaseInflight then Wait else AskRelease(ReleaseRequest(s))
    else if s.work == [] then Wait
    else
      var f := s.work[0];
      if f.phase.AwaitPress? && now >= f.due then
        if !snapshot.ready || snapshot.generation != s.tracked then NeedReset
        else if HasButton(Either(snapshot.physical, Either(s.persistent, s.scheduled)), f.button) then FinishActive
        else AskPress(EdgeRequest(s, ClickPress, PlusButton(s.scheduled, f.button)))
      else if (f.phase.Holding? || f.phase.AwaitRelease?) && now >= f.due then
        AskLift(EdgeRequest(s, ClickRelease, MinusButton(s.scheduled, f.button)))
      else Wait
  }

  /** What the mixer's answer does to the scheduler when it asks for no reset. */
  function TurnAnswered(s: Sched, turn: Turn, result: EnqueueResult): Sched
    requires turn.AskPress? || turn.AskLift? ==> s.work != []
  {
    match turn
    case AskRelease(_) => if result.Accepted? then s.(releaseInflight := true) else s
    case AskPress(r) =>
      if result.Accepted? then FrontAs(s, s.work[0].(phase := PressInflight)).(scheduled := r.scheduled) else s
    case AskLift(r) =>
      if result.Accepted? then FrontAs(s, s.work[0].(phase := ReleaseInflight)).(scheduled := r.scheduled)
      else FrontAs(s, s.work[0].(phase := AwaitRelease))
    case _ => s
  }

  predicate AnswerResets(turn: Turn, result: EnqueueResult) {
    (turn.AskPress? || turn.AskLift?) && result.Unsupported?
  }

  // ---------------------------------------------------------------- writer events

  predicate EndsRelease(s: Sched, ev: WriterEvent) {
    ev.kind.ReleaseAll? && s.releaseInflight && ev.key == s.releaseKey
  }

  function Pressed(f: Click, ev: WriterEvent): Click {
    f.(pressWritten := ev.written, blocked := ev.blocked,
       due := if ev.blocked then ev.written else ev.written + f.press * Executor.MICROSECOND,
       phase := if ev.blocked then AwaitRelease else Holding)
  }

  /** The command after a completed click that was not its last. */
  function Rearmed(f: Click, ev: WriterEvent): Click {
    var base := if f.version == T.VERSION2 then ev.written else f.pressWritten;
    f.(index := f.index + 1, phase := AwaitPress, blocked := false, due := base + f.interval * Executor.MICROSECOND)
  }

  /** A successful report's event. */
  function Settled(s: Sched, ev: WriterEvent): (Sched, seq<Mark>) {
    if EndsRelease(s, ev) then
      (s.(releasePending := false, releaseInflight := false, releaseKey := NoKey),
       if s.releaseKey.session != 0 then [Ended(s.releaseKey, T.Completed)] else [])
    else if s.work == [] || ev.key != s.work[0].key || ev.index != s.work[0].index then (s, [])
    else
      var f := s.work[0];
      if ev.kind.ClickPress? && f.phase.PressInflight? then (FrontAs(s, Pressed(f, ev)), [])
      else if ev.kind.ClickRelease? && f.phase.ReleaseInflight? then
        if f.blocked || HasButton(ev.final, f.button) then FinishFront(s, T.ButtonActive)
        else if f.index + 1 >= f.count then
          var (t, marks) := FinishFront(s, T.Completed);
          (t, [Progressed(f.key, f.index + 1)] + marks)
        else (FrontAs(s, Rearmed(f, ev)), [Progressed(f.key, f.index + 1)])
      else (s, [])
  }
}
