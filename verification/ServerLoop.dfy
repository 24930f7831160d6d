/**
 The server's handlers are steps of the full loop. Where what a handler is told of the endpoint is true, the executor
 and the click scheduler it leaves are those of the loop's step, so what holds in every run of the loop holds of the
 server.
 */
module ServerLoop {
  import opened Common
  import opened HidReport
  import opened MoveTypes
  import opened Mixer
  import opened Executor
  import opened ClickScheduler
  import opened TransactionLoop
  import opened TransactionRun
  import R = ServerRun
  import S = Server
  import T = ClickTypes

  /** The server's executor and scheduler are the loop's. */
  predicate Mirrors(s: S.State, w: World) {
    s.mover == w.exec && s.sched == w.sched
  }

  // ---------------------------------------------------------------- the composed system

  datatype Pair = Pair(server: R.World, loop: World)

  /**
   A turn of the server, with what the mixer's answer depends on and the command of a text report; or a step around
   it: the writer, the physical mouse, the layout, and the two ends of reading the events.
   */
  datatype Turn =
    | Serve(l: R.Label, ready: bool, supported: bool, command: Command)
    | Around(step: Label)

  predicate IsAround(w: World, l: Label) {
    || l.Arrival? || l.Layout? || l.Learn? || l.Take? || l.Finish? || l.ReadEvents?
    || (l.CheckOverflow? && !w.overflow)
  }

  predicate IsLatest(c: Command) {
    (c.x != 0 || c.y != 0) && c.wheel == 0 && c.pan == 0
  }

  /** The steps of the loop that a handler takes. */
  function Does(s: S.State, l: R.Label, ready: bool, supported: bool, command: Command): seq<Label> {
    match l
    case Top(seen, generation, now, cleared, again) =>
      if s.sched.tracked == 0 then if seen then [Adopt] else []
      else if generation != s.sched.tracked then [ResetAll(now)] else []
    case Event(ev, now, cleared) => [DeliverOne(now)]
    case Overflow(now, cleared) => [CheckOverflow(now)]
    case LeaseCheck(now, cleared) => if s.owner.Some? && now > s.seen + S.LEASE then [ResetAll(now)] else []
    case MoverTurn(e, now, result, cleared) => [Tick(e, now, ready, supported)]
    case ClickTurn(e, now, result, cleared) => [ClickTurn(e, now, ready, supported)]
    case MovePacket(r, from, e, clock) =>
      var (t, key) := R.Next(s, l);
      if key.Some? then [StartMove(r, e.activity, clock.start)]
      else if t.mover == s.mover then []
      else if t.mover == Proceeded(s.mover) then [ProceedMove] else [CancelMove]
    case ClickPacket(r, from, e, now, due, cleared) =>
      if R.Next(s, l).1.None? then []
      else if r.operation.ReleaseEverything? then [AcceptRelease(r.key, now)] else [AcceptClick(S.NewClick(r, due))]
    case MotionPacket(from, sequence, c, next, e, now, result) =>
      var plan := S.PlanMotion(s, from, sequence, c, next, e, now);
      if plan.Dropped? then []
      else if plan.Free? then [Adopt] else [Motion(c, next, IsLatest(c), ready, supported, now)]
    case TextClick(from, button, e, now, due) =>
      var work := R.Next(s, l).0.sched.work;
      if |work| == |s.sched.work| || work == [] then [] else [AcceptClick(work[|work| - 1])]
    case TextRelease(from, now, cleared) => if S.Foreign(s, from) then [] else [ResetAll(now)]
    case TextReport(from, next, e, now, result) =>
      if S.Foreign(s, from) || IsActive(s.mover) || !e.ready || next & !e.supported != 0 then []
      else [Motion(command, next, false, ready, supported, now)]
  }

  function Step(p: Pair, t: Turn): Pair {
    match t
    case Serve(l, ready, supported, command) =>
      Pair(R.Step(p.server, l), Run(p.loop, Does(p.server.s, l, ready, supported, command)))
    case Around(l) => p.(loop := TransactionLoop.Step(p.loop, l))
  }

  /** What a handler is told of the endpoint, the events and the mixer is so. */
  predicate Informed(s: S.State, w: World, l: R.Label, ready: bool, supported: bool, command: Command) {
    var generation := w.core.generation;
    && (w.reading <==> l.Event? || l.Overflow?)
    && match l
       case Top(seen, g, now, cleared, again) => g == generation && cleared == generation && again == generation
       case Event(ev, now, cleared) => w.batch != [] && ev == w.batch[0] && cleared == generation
       case Overflow(now, cleared) => w.batch == [] && w.overflow && cleared == generation
       case LeaseCheck(now, cleared) => cleared == generation
       case MoverTurn(e, now, result, cleared) =>
         var plan := Planned(s.mover, e, now);
         && cleared == generation
         && (plan.Submit? ==> result == Enqueue(w.core, plan.request, ready, supported, now).1)
       case ClickTurn(e, now, result, cleared) =>
         var turn := PlanTick(s.sched, e, now);
         && cleared == generation
         && (turn.AskRelease? || turn.AskPress? || turn.AskLift? ==>
               result == Enqueue(w.core, turn.request, ready, supported, now).1)
       case MovePacket(r, from, e, clock) =>
         e.generation == generation && e.syntheticPending == |w.core.queue| && r.generation != 0
       case ClickPacket(r, from, e, now, due, cleared) => e.generation == generation && cleared == generation
       case MotionPacket(from, sequence, c, next, e, now, result) =>
         && e.generation == generation
         && result == Enqueue(w.core, MotionRequest(s.sched, c, next, IsLatest(c)), ready, supported, now).1
       case TextClick(from, button, e, now, due) => e.generation == generation
       case TextRelease(from, now, cleared) => cleared == generation
       case TextReport(from, next, e, now, result) =>
         && e.generation == generation
         && result == Enqueue(w.core, MotionRequest(s.sched, command, next, false), ready, supported, now).1
  }

  /** A command that starts belongs to a session whose mark was kept. */
  predicate Remembers(before: R.World, after: R.World) {
    |after.started| > |before.started| ==> after.started[|after.started| - 1].session !in after.history.dropped
  }

  predicate Allowed(p: Pair, t: Turn) {
    match t
    case Serve(l, ready, supported, command) =>
      Informed(p.server.s, p.loop, l, ready, supported, command) && Remembers(p.server, R.Step(p.server, l))
    case Around(l) => IsAround(p.loop, l)
  }

  predicate Faithful(p: Pair, turns: seq<Turn>)
    decreases |turns|
  {
    turns == [] || (Allowed(p, turns[0]) && Faithful(Step(p, turns[0]), turns[1..]))
  }

  function RunPair(p: Pair, turns: seq<Turn>): Pair
    decreases |turns|
  {
    if turns == [] then p else RunPair(Step(p, turns[0]), turns[1..])
  }

  function Start(epoch: nat, generation: nat): Pair {
    Pair(R.World(S.Begin(epoch), R.S.Begin, []), Begin(generation))
  }

  // ---------------------------------------------------------------- one handler, one step

  lemma OneStep(w: World, l: Label)
    ensures Run(w, [l]) == TransactionLoop.Step(w, l) && Run(w, []) == w
  {
    assert [l][1..] == [];
    hide TransactionLoop.Step;
  }

  lemma ResetMirrors(s: S.State, w: World, attach: Option<Key>, now: nat)
    requires Mirrors(s, w)
    ensures Mirrors(S.Reset(s, attach, now, w.core.generation), Reset(w, attach, now))
  {
    hide S.ApplyMarks, ResetMarks, Stopped, S.SyncCache;
  }

  lemma EventIsAStep(s: S.State, w: World, now: nat)
    requires Mirrors(s, w) && w.batch != []
    ensures Mirrors(S.Deliver(s, w.batch[0], now, w.core.generation), DeliverStep(w, now))
  {
    hide S.ApplyMarks, ResetMarks, Stopped, S.SyncCache, Settled, Delivered, S.Reset, Reset;
    var ev := w.batch[0];
    ResetMirrors(S.Synced(s.(mover := Delivered(s.mover, ev))),
                 w.(exec := Delivered(w.exec, ev), batch := w.batch[1..]), None, now);
  }

  lemma MoverTickIsAStep(s: S.State, w: World, e: Snapshot, now: nat, ready: bool, supported: bool, result: EnqueueResult)
    requires Mirrors(s, w)
    requires var plan := Planned(s.mover, e, now);
      plan.Submit? ==> result == Enqueue(w.core, plan.request, ready, supported, now).1
    ensures Mirrors(S.MoverTick(s, e, now, result, w.core.generation), TickStep(w, e, now, ready, supported))
  {
    hide S.SyncCache, S.Reset, Reset, Planned, Enqueue, Stopped;
    var plan := Planned(s.mover, e, now);
    if plan.Submit? {
      var (c, answer) := Enqueue(w.core, plan.request, ready, supported, now);
      var g := Answered(plan.e, answer, now).0;
      EnqueuedGeneration(w.core, plan.request, ready, supported, now);
      ResetMirrors(S.Synced(s.(mover := g)), w.(exec := g, core := c), None, now);
    } else {
      ResetMirrors(S.Synced(s.(mover := plan.e)), w.(exec := plan.e), None, now);
    }
    hide Answered;
  }

  lemma EnqueuedGeneration(c: Core, r: Request, ready: bool, supported: bool, now: nat)
    ensures Enqueue(c, r, ready, supported, now).0.generation == c.generation
  {
    hide Supersede, NewItem, Expected;
    SupersedeShape(c, r.persistent);
  }

  lemma WaitIsRest(s: Sched, turn: ClickScheduler.Turn, result: EnqueueResult)
    requires turn.Wait?
    ensures TurnAnswered(s, turn, result) == s && !AnswerResets(turn, result)
  {
  }

  lemma AskIsAStep(s: S.State, w: World, e: Snapshot, now: nat, ready: bool, supported: bool, result: EnqueueResult)
    requires Mirrors(s, w)
    requires var turn := PlanTick(s.sched, e, now);
      && (turn.AskRelease? || turn.AskPress? || turn.AskLift?)
      && result == Enqueue(w.core, turn.request, ready, supported, now).1
    ensures Mirrors(S.SchedTick(s, e, now, result, w.core.generation), TurnStep(w, e, now, ready, supported))
  {
    hide S.ApplyMarks, S.Reset, Reset, PlanTick, Enqueue, FinishFront, TurnAnswered;
    var turn := PlanTick(s.sched, e, now);
    EnqueuedGeneration(w.core, turn.request, ready, supported, now);
    ResetMirrors(s, w.(core := Enqueue(w.core, turn.request, ready, supported, now).0), None, now);
  }

  lemma SchedTickIsAStep(s: S.State, w: World, e: Snapshot, now: nat, ready: bool, supported: bool, result: EnqueueResult)
    requires Mirrors(s, w)
    requires var turn := PlanTick(s.sched, e, now);
      turn.AskRelease? || turn.AskPress? || turn.AskLift? ==>
        result == Enqueue(w.core, turn.request, ready, supported, now).1
    ensures Mirrors(S.SchedTick(s, e, now, result, w.core.generation), TurnStep(w, e, now, ready, supported))
  {
    hide S.ApplyMarks, S.Reset, Reset, PlanTick, Enqueue, FinishFront, TurnAnswered;
    var turn := PlanTick(s.sched, e, now);
    if turn.AskRelease? || turn.AskPress? || turn.AskLift? {
      AskIsAStep(s, w, e, now, ready, supported, result);
    } else if turn.Wait? {
      WaitIsRest(s.sched, turn, result);
    } else {
      ResetMirrors(s, w, None, now);
    }
  }

  /** A transaction that starts over a true view of the endpoint finds it idle, and is the loop's to start. */
  lemma MoveIsAStep(s: S.State, w: World, r: MoveRequest, from: S.Peer, e: Snapshot, c: S.Clock)
    requires Mirrors(s, w) && !w.reading && e.generation == w.core.generation && e.syntheticPending == |w.core.queue|
    requires r.generation != 0 && r.key != NoKey
    requires S.HandleMove(s, r, from, e, c).2.Some?
    ensures !IsActive(w.exec) && w.sched.work == [] && !w.sched.releasePending && w.core.queue == []
    ensures r.key !in w.used ==>
      var start := StartMove(r, e.activity, c.start);
      Possible(w, start) && Mirrors(S.HandleMove(s, r, from, e, c).0, TransactionLoop.Step(w, start))
  {
    hide S.Rounds, S.LeastTime, HasButton, S.RemoveOld, S.Protected, S.MoveRejection;
  }

  /** Any other packet of a transaction at most resumes or cancels the one that runs. */
  lemma MoveHeeded(s: S.State, r: MoveRequest, from: S.Peer, e: Snapshot, c: S.Clock)
    ensures var (t, reply, key) := S.HandleMove(s, r, from, e, c);
      key.None? ==>
        && t.sched == s.sched
        && (t.mover == s.mover || t.mover == Proceeded(s.mover) || t.mover == Cancelling(s.mover))
  {
    hide S.MoveObstacle, S.RemoveOld, S.Protected, S.MoveRejection, Proceeded, Cancelling;
  }

  /** What a click packet leaves to the scheduler: nothing, a reset with its key, or one more command. */
  lemma ClickOutcome(s: S.State, r: T.Request, from: S.Peer, e: Snapshot, now: nat, due: nat, cleared: nat)
    ensures var (t, reply, key) := S.HandleClick(s, r, from, e, now, due, cleared);
      && (key.None? ==> t.mover == s.mover && t.sched == s.sched)
      && (key.Some? && r.operation.ReleaseEverything? ==>
            t.mover == Stopped(s.mover, Cancelled, now) && t.sched == ResetSched(s.sched, Some(r.key), cleared))
      && (key.Some? && r.operation.Schedule? ==>
            && S.ClickObstacle(s, r, e).None? && t.mover == s.mover
            && t.sched == s.sched.(work := s.sched.work + [S.NewClick(r, due)], tracked := e.generation))
  {
    hide S.ApplyMarks, ResetMarks, Stopped, S.SyncCache, S.RemoveOld, S.Protected, S.ClickObstacle, ResetSched, S.NewClick;
  }

  lemma ClickIsAStep(s: S.State, w: World, r: T.Request, from: S.Peer, e: Snapshot, now: nat, due: nat)
    requires Mirrors(s, w) && !w.reading && e.generation == w.core.generation && r.key.session != 0
    ensures var (t, reply, key) := S.HandleClick(s, r, from, e, now, due, w.core.generation);
      && (key.None? ==> Mirrors(t, w))
      && (key.Some? && r.key !in w.used ==>
            var l := if r.operation.ReleaseEverything? then AcceptRelease(r.key, now) else AcceptClick(S.NewClick(r, due));
            Possible(w, l) && Mirrors(t, TransactionLoop.Step(w, l)))
  {
    ClickOutcome(s, r, from, e, now, due, w.core.generation);
    hide S.HandleClick, Stopped, HasButton, Either;
  }

  lemma PlanFrame(s: S.State, from: S.Peer, sequence: nat, c: Command, next: bv8, e: Snapshot, now: nat)
    ensures var plan := S.PlanMotion(s, from, sequence, c, next, e, now);
      && plan.s.mover == s.mover && plan.s.sched == s.sched
      && (plan.Free? ==> next == s.sched.persistent)
      && (plan.AskMotion? ==> !IsActive(s.mover) && plan.request == MotionRequest(s.sched, c, next, IsLatest(c)))
  {
    hide MotionRequest;
  }

  lemma MotionIsAStep(s: S.State, w: World, from: S.Peer, sequence: nat, c: Command, next: bv8, e: Snapshot, now: nat,
                      ready: bool, supported: bool)
    requires Mirrors(s, w) && e.generation == w.core.generation
    ensures var result := Enqueue(w.core, MotionRequest(s.sched, c, next, IsLatest(c)), ready, supported, now).1;
      var plan := S.PlanMotion(s, from, sequence, c, next, e, now);
      var t := S.HandleMotion(s, from, sequence, c, next, e, now, result);
      && (plan.Dropped? ==> Mirrors(t, w))
      && (plan.Free? ==> Mirrors(t, w.(sched := w.sched.(tracked := w.core.generation))))
      && (plan.AskMotion? ==>
            !IsActive(w.exec) && Mirrors(t, MotionStep(w, c, next, IsLatest(c), ready, supported, now)))
  {
    PlanFrame(s, from, sequence, c, next, e, now);
    hide Enqueue, MotionRequest, S.PlanMotion;
  }

  lemma TextClickIsAStep(s: S.State, w: World, from: S.Peer, button: nat, e: Snapshot, now: nat, due: nat)
    requires Mirrors(s, w) && !w.reading && e.generation == w.core.generation
    ensures var t := S.HandleTextClick(s, from, button, e, now, due);
      || (t.sched.work == s.sched.work && Mirrors(t, w))
      || (&& |t.sched.work| == |s.sched.work| + 1
          && var l := AcceptClick(t.sched.work[|t.sched.work| - 1]);
             Possible(w, l) && Mirrors(t, TransactionLoop.Step(w, l)))
  {
    hide HasButton, Either;
  }

  lemma TextReportIsAStep(s: S.State, w: World, from: S.Peer, c: Command, next: bv8, e: Snapshot, now: nat, ready: bool,
                          supported: bool)
    requires Mirrors(s, w) && e.generation == w.core.generation
    ensures var result := Enqueue(w.core, MotionRequest(s.sched, c, next, false), ready, supported, now).1;
      var t := S.HandleTextReport(s, from, next, e, now, result);
      if S.Foreign(s, from) || IsActive(s.mover) || !e.ready || next & !e.supported != 0 then Mirrors(t, w)
      else !IsActive(w.exec) && Mirrors(t, MotionStep(w, c, next, false, ready, supported, now))
  {
    hide Enqueue;
  }

  // ---------------------------------------------------------------- keys

  /** Keys the loop has used are of commands the server started. */
  ghost predicate Keyed(p: Pair) {
    forall key :: key in p.loop.used ==> key == NoKey || key in p.server.started
  }

  function KeysOf(l: Label): set<Key> {
    match l
    case StartMove(request, activity, now) => {request.key}
    case AcceptRelease(key, now) => {key}
    case AcceptClick(click) => {click.key}
    case _ => {}
  }

  lemma UsedGrows(w: World, l: Label)
    ensures TransactionLoop.Step(w, l).used <= w.used + KeysOf(l)
  {
    hide Possible, Enqueue, Planned, Answered, PlanTick, TurnAnswered, FinishFront, Settled, Delivered, Taken, Complete,
         Posted, Started, Stopped, ResetSched;
  }

  /** A command that starts in a session with its mark has a key that never started. */
  lemma StartsFresh(w: R.World, l: R.Label)
    requires R.SessionInv(w) && Remembers(w, R.Step(w, l))
    ensures R.Next(w.s, l).1.Some? ==> R.Next(w.s, l).1.value !in w.started
  {
    hide R.StartInv, R.Next, R.Asks;
    R.StepKeepsSessions(w, l);
    var v := R.Step(w, l);
    StartedAscend(v);
    var n := |w.started|;
    if R.Next(w.s, l).1.Some? {
      forall i | 0 <= i < n
        ensures w.started[i] != v.started[n]
      {
        assert v.started[i] == w.started[i];
      }
    }
  }

  lemma StartedAscend(w: R.World)
    requires R.SessionInv(w)
    ensures R.Ascending(w.started, w.history.dropped)
  {
  }

  lemma StartedKey(w: R.World, l: R.Label)
    requires R.SessionInv(w) && R.Next(w.s, l).1.Some?
    ensures var key := R.Next(w.s, l).1.value;
      || (l.MovePacket? && R.Proper(l.move.key) && key == l.move.key)
      || (l.ClickPacket? && R.Proper(l.click.key) && key == l.click.key)
  {
    hide R.StartInv, S.HandleMove, S.HandleClick, R.MoveAsks, R.ClickAsks;
    match l
    case MovePacket(r, from, e, clock) => R.MoveKeepsStarts(w, r, from, e, clock);
    case ClickPacket(r, from, e, now, due, cleared) => R.ClickKeepsStarts(w, r, from, e, now, due, cleared);
    case _ => R.OthersKeepSessions(w.s, l); hide R.Next;
  }

  // ---------------------------------------------------------------- every turn

  lemma TopIsAStep(s: S.State, w: World, seen: bool, now: nat)
    requires Mirrors(s, w) && !w.reading
    ensures var generation := w.core.generation;
      Mirrors(S.Track(s, seen, generation, now, generation, generation),
              Run(w, Does(s, R.Top(seen, generation, now, generation, generation), false, false, Still)))
  {
    hide S.Reset, Reset, Run, TransactionLoop.Step;
    OneStep(w, Adopt);
    OneStep(w, ResetAll(now));
    PlainSteps(w, Still, 0, false, false, false, now);
    ResetMirrors(s, w, None, now);
    ResetTracks(s, now, w.core.generation);
  }

  lemma ResetTracks(s: S.State, now: nat, generation: nat)
    ensures S.Reset(s, None, now, generation).sched.tracked == generation
  {
    hide S.ApplyMarks, ResetMarks, Stopped, S.SyncCache;
  }

  /** The turns that do not read a packet. */
  predicate Inner(l: R.Label) {
    l.Top? || l.Event? || l.Overflow? || l.LeaseCheck? || l.MoverTurn? || l.ClickTurn?
  }

  lemma ReadingSteps(w: World, now: nat)
    requires w.reading
    ensures w.batch != [] ==> TransactionLoop.Step(w, DeliverOne(now)) == DeliverStep(w, now)
    ensures w.batch == [] && w.overflow ==>
      TransactionLoop.Step(w, CheckOverflow(now)) == Reset(w.(reading := false, overflow := false), None, now)
  {
    hide DeliverStep, Reset;
  }

  lemma TurnSteps(w: World, e: Snapshot, now: nat, ready: bool, supported: bool)
    requires !w.reading
    ensures TransactionLoop.Step(w, Tick(e, now, ready, supported)) == TickStep(w, e, now, ready, supported)
    ensures TransactionLoop.Step(w, TransactionLoop.ClickTurn(e, now, ready, supported)) == TurnStep(w, e, now, ready, supported)
  {
    hide TickStep, TurnStep;
  }

  lemma InnerIsSteps(s: S.State, w: World, l: R.Label, ready: bool, supported: bool, command: Command)
    requires Mirrors(s, w) && Informed(s, w, l, ready, supported, command) && Inner(l)
    ensures Mirrors(R.Next(s, l).0, Run(w, Does(s, l, ready, supported, command)))
  {
    hide Run, Reset, S.Reset, S.Deliver, S.MoverTick, S.SchedTick, DeliverStep, TickStep, TurnStep, S.Track,
         TransactionLoop.Step;
    var labels := Does(s, l, ready, supported, command);
    if labels != [] {
      OneStep(w, labels[0]);
    }
    match l
    case Top(seen, g, now, cleared, again) => TopIsAStep(s, w, seen, now);
    case Event(ev, now, cleared) =>
      ReadingSteps(w, now);
      EventIsAStep(s, w, now);
    case Overflow(now, cleared) =>
      ReadingSteps(w, now);
      ResetMirrors(s, w.(reading := false, overflow := false), None, now);
    case LeaseCheck(now, cleared) =>
      OneStep(w, ResetAll(now));
      PlainSteps(w, Still, 0, false, ready, supported, now);
      ResetMirrors(s, w, None, now);
    case MoverTurn(e, now, result, cleared) =>
      TurnSteps(w, e, now, ready, supported);
      MoverTickIsAStep(s, w, e, now, ready, supported, result);
    case ClickTurn(e, now, result, cleared) =>
      TurnSteps(w, e, now, ready, supported);
      SchedTickIsAStep(s, w, e, now, ready, supported, result);
  }

  lemma PacketIsSteps(s: S.State, w: World, l: R.Label, ready: bool, supported: bool, command: Command)
    requires Mirrors(s, w) && Informed(s, w, l, ready, supported, command) && !Inner(l)
    requires var key := R.Next(s, l).1; key.Some? ==>
      && key.value !in w.used
      && ((l.MovePacket? && R.Proper(l.move.key) && key.value == l.move.key)
          || (l.ClickPacket? && R.Proper(l.click.key) && key.value == l.click.key))
    ensures Mirrors(R.Next(s, l).0, Run(w, Does(s, l, ready, supported, command)))
  {
    hide Run, Reset, S.Reset, MotionStep, S.HandleMove, S.HandleClick, S.HandleMotion, S.PlanMotion, S.HandleTextClick,
         S.HandleTextReport, FreshClick, S.NewClick, Started, Proceeded, Cancelling, TransactionLoop.Step;
    var labels := Does(s, l, ready, supported, command);
    if labels != [] {
      OneStep(w, labels[0]);
    }
    OneStep(w, Adopt);
    match l
    case MovePacket(r, from, e, clock) => MoveIsSteps(s, w, r, from, e, clock);
    case ClickPacket(r, from, e, now, due, cleared) =>
      if R.Proper(r.key) {
        ClickIsAStep(s, w, r, from, e, now, due);
      }
    case MotionPacket(from, sequence, c, next, e, now, result) =>
      MotionIsAStep(s, w, from, sequence, c, next, e, now, ready, supported);
      PlainSteps(w, c, next, IsLatest(c), ready, supported, now);
    case TextClick(from, button, e, now, due) => TextClickIsAStep(s, w, from, button, e, now, due);
    case TextRelease(from, now, cleared) =>
      ResetMirrors(s, w, None, now);
      PlainSteps(w, command, 0, false, ready, supported, now);
    case TextReport(from, next, e, now, result) =>
      TextReportIsAStep(s, w, from, command, next, e, now, ready, supported);
      PlainSteps(w, command, next, false, ready, supported, now);
  }

  lemma PlainSteps(w: World, c: Command, next: bv8, latest: bool, ready: bool, supported: bool, now: nat)
    requires !w.reading
    ensures TransactionLoop.Step(w, Adopt) == w.(sched := w.sched.(tracked := w.core.generation))
    ensures TransactionLoop.Step(w, ResetAll(now)) == Reset(w, None, now)
    ensures !IsActive(w.exec) ==>
      TransactionLoop.Step(w, Motion(c, next, latest, ready, supported, now))
      == MotionStep(w, c, next, latest, ready, supported, now)
  {
    hide MotionStep, Reset;
  }

  lemma MoveIsSteps(s: S.State, w: World, r: MoveRequest, from: S.Peer, e: Snapshot, c: S.Clock)
    requires Mirrors(s, w) && !w.reading && e.generation == w.core.generation && e.syntheticPending == |w.core.queue|
    requires r.generation != 0
    requires var key := R.Next(s, R.MovePacket(r, from, e, c)).1;
      key.Some? ==> key.value !in w.used && R.Proper(r.key) && key.value == r.key
    ensures var l := R.MovePacket(r, from, e, c);
      Mirrors(R.Next(s, l).0, Run(w, Does(s, l, false, false, Still)))
  {
    hide Run, S.HandleMove, Started, Proceeded, Cancelling, Possible;
    var l := R.MovePacket(r, from, e, c);
    OneStep(w, StartMove(r, e.activity, c.start));
    OneStep(w, ProceedMove);
    OneStep(w, CancelMove);
    MoveHeeded(s, r, from, e, c);
    HeedSteps(w);
    if R.Next(s, l).1.Some? {
      MoveIsAStep(s, w, r, from, e, c);
    }
    hide TransactionLoop.Step;
  }

  lemma HeedSteps(w: World)
    requires !w.reading
    ensures TransactionLoop.Step(w, ProceedMove) == w.(exec := Proceeded(w.exec))
    ensures TransactionLoop.Step(w, CancelMove) == w.(exec := Cancelling(w.exec))
  {
    hide Proceeded, Cancelling;
  }

  lemma AroundMirrors(s: S.State, w: World, l: Label)
    requires Mirrors(s, w) && IsAround(w, l)
    ensures Mirrors(s, TransactionLoop.Step(w, l))
  {
    hide Taken, Complete, Posted, Reset, CarriesPart;
  }

  lemma ServeKeepsMirror(p: Pair, l: R.Label, ready: bool, supported: bool, command: Command)
    requires Mirrors(p.server.s, p.loop) && Keyed(p) && R.SessionInv(p.server)
    requires Allowed(p, Serve(l, ready, supported, command))
    ensures var q := Step(p, Serve(l, ready, supported, command)); Mirrors(q.server.s, q.loop)
  {
    hide Informed, R.SessionInv, R.Next, Does, Run, Mirrors, R.Asks, R.Proper;
    var key := R.Next(p.server.s, l).1;
    if key.Some? {
      StartsFresh(p.server, l);
      StartedKey(p.server, l);
      ProperIsSome(key.value);
    }
    if Inner(l) {
      InnerIsSteps(p.server.s, p.loop, l, ready, supported, command);
    } else {
      PacketIsSteps(p.server.s, p.loop, l, ready, supported, command);
    }
    hide Inner, Remembers;
  }

  lemma ProperIsSome(key: Key)
    ensures R.Proper(key) ==> key != NoKey
  {
  }

  lemma ServeKeepsKeys(p: Pair, l: R.Label, ready: bool, supported: bool, command: Command)
    requires Keyed(p) && R.SessionInv(p.server)
    ensures Keyed(Step(p, Serve(l, ready, supported, command)))
  {
    hide Run, R.SessionInv, R.Asks, R.Next, TransactionLoop.Step, Does;
    var labels := Does(p.server.s, l, ready, supported, command);
    DoesKeys(p.server.s, l, ready, supported, command);
    if labels != [] {
      assert labels == [labels[0]];
      OneStep(p.loop, labels[0]);
      UsedGrows(p.loop, labels[0]);
    } else {
      OneStep(p.loop, Adopt);
    }
    if R.Next(p.server.s, l).1.Some? {
      StartedKey(p.server, l);
    }
    hide KeysOf;
    var q := Step(p, Serve(l, ready, supported, command));
    forall key | key in q.loop.used
      ensures key == NoKey || key in q.server.started
    {
      if key in p.loop.used && key != NoKey {
        var i :| 0 <= i < |p.server.started| && p.server.started[i] == key;
        assert q.server.started[i] == key;
      } else if key != NoKey {
        assert q.server.started[|q.server.started| - 1] == key;
      }
    }
  }

  /** A handler takes one step at most, and only a command that starts brings a key. */
  lemma DoesKeys(s: S.State, l: R.Label, ready: bool, supported: bool, command: Command)
    ensures var labels := Does(s, l, ready, supported, command);
      && |labels| <= 1
      && (labels != [] ==> forall key :: key in KeysOf(labels[0]) ==>
            || key == NoKey
            || (R.Next(s, l).1.Some? && ((l.MovePacket? && key == l.move.key) || (l.ClickPacket? && key == l.click.key))))
  {
    hide S.HandleMove, S.HandleClick, S.HandleTextClick, S.PlanMotion;
    match l
    case TextClick(from, button, e, now, due) => TextClickHasNoKey(s, from, button, e, now, due);
    case _ =>
  }

  lemma TextClickHasNoKey(s: S.State, from: S.Peer, button: nat, e: Snapshot, now: nat, due: nat)
    ensures var work := S.HandleTextClick(s, from, button, e, now, due).sched.work;
      |work| == |s.sched.work| || (work != [] && work[|work| - 1].key == NoKey)
  {
    hide HasButton, Either;
  }

  lemma TurnKeepsMirror(p: Pair, t: Turn)
    requires Mirrors(p.server.s, p.loop) && Keyed(p) && R.SessionInv(p.server) && Allowed(p, t)
    ensures var q := Step(p, t); Mirrors(q.server.s, q.loop) && Keyed(q) && R.SessionInv(q.server)
  {
    hide Mirrors, Keyed, R.SessionInv, R.Step, Run, TransactionLoop.Step, Does, Informed, IsAround;
    match t
    case Serve(l, ready, supported, command) =>
      ServeKeepsMirror(p, l, ready, supported, command);
      ServeKeepsKeys(p, l, ready, supported, command);
      R.StepKeepsSessions(p.server, l);
    case Around(l) =>
      AroundMirrors(p.server.s, p.loop, l);
      AroundKeepsKeys(p, l);
  }

  lemma AroundKeepsKeys(p: Pair, l: Label)
    requires Keyed(p) && IsAround(p.loop, l)
    ensures Keyed(p.(loop := TransactionLoop.Step(p.loop, l)))
  {
    hide TransactionLoop.Step;
    UsedGrows(p.loop, l);
  }

  // ---------------------------------------------------------------- every run

  /** What the loop does in a run of the composed system. */
  function Trace(p: Pair, turns: seq<Turn>): seq<Label>
    decreases |turns|
  {
    if turns == [] then []
    else
      var t := turns[0];
      (if t.Serve? then Does(p.server.s, t.l, t.ready, t.supported, t.command) else [t.step])
      + Trace(Step(p, t), turns[1..])
  }

  lemma {:induction false} RunKeepsMirror(p: Pair, turns: seq<Turn>)
    requires Mirrors(p.server.s, p.loop) && Keyed(p) && R.SessionInv(p.server) && Faithful(p, turns)
    ensures Mirrors(RunPair(p, turns).server.s, RunPair(p, turns).loop)
    decreases |turns|
  {
    hide Mirrors, Keyed, R.SessionInv, Step, Allowed;
    if turns != [] {
      TurnKeepsMirror(p, turns[0]);
      RunKeepsMirror(Step(p, turns[0]), turns[1..]);
    }
  }

  lemma {:induction false} RunTraces(p: Pair, turns: seq<Turn>)
    ensures RunPair(p, turns).loop == Run(p.loop, Trace(p, turns))
    decreases |turns|
  {
    hide Run, Does, R.Step, TransactionLoop.Step;
    if turns != [] {
      var t := turns[0];
      var head := if t.Serve? then Does(p.server.s, t.l, t.ready, t.supported, t.command) else [t.step];
      if t.Around? {
        OneStep(p.loop, t.step);
      }
      RunTraces(Step(p, t), turns[1..]);
      RunParts(p.loop, head, Trace(Step(p, t), turns[1..]));
    } else {
      OneStep(p.loop, Adopt);
    }
  }

  lemma StartMirrors(epoch: nat, generation: nat)
    ensures var p := Start(epoch, generation); Mirrors(p.server.s, p.loop) && Keyed(p) && R.SessionInv(p.server)
  {
    R.S.BeginInv();
  }

  /**
   Every run of the server over an endpoint that it is truly told of is a run of the loop: its executor and its
   scheduler are the loop's, as long as no command starts in a session whose mark was dropped.
   */
  lemma ServerRunsTheLoop(epoch: nat, generation: nat, turns: seq<Turn>)
    requires Faithful(Start(epoch, generation), turns)
    ensures var p := RunPair(Start(epoch, generation), turns);
      && Mirrors(p.server.s, p.loop)
      && p.loop == TransactionRun.Reached(generation, Trace(Start(epoch, generation), turns))
  {
    hide Run, Trace, RunPair, Faithful, Mirrors, Keyed, R.SessionInv;
    StartMirrors(epoch, generation);
    RunKeepsMirror(Start(epoch, generation), turns);
    RunTraces(Start(epoch, generation), turns);
  }

  /** So the server's own ledger of a completed transaction balances, and the writer wrote just that. */
  lemma ServedTransactionIsBalanced(epoch: nat, generation: nat, turns: seq<Turn>)
    requires Faithful(Start(epoch, generation), turns)
    ensures var p := RunPair(Start(epoch, generation), turns);
      p.server.s.mover.ack.status.Completed? ==>
        var a, r := p.server.s.mover.ack, p.server.s.mover.request;
        var edges := if r.button != 0 then 1 else 0;
        && a.outX == r.dx && a.outY == r.dy && a.residualX == 0 && a.residualY == 0 && !a.uncertain
        && a.pressed == a.released == (r.button != 0)
        && p.loop.wrote == Tally(r.dx, r.dy, -r.dx, -r.dy, edges, edges)
  {
    hide Run, Trace, RunPair, Faithful;
    ServerRunsTheLoop(epoch, generation, turns);
    CompletedIsBalanced(generation, Trace(Start(epoch, generation), turns));
    hide TransactionRun.Reached;
  }
}
