/** The server object: the handlers of `Server` performed in place, over the endpoint it drives. */
module ServerObject {
  import opened Common
  import opened HidReport
  import opened Splitting
  import opened MoveTypes
  import opened Mixer
  import opened Executor
  import opened ClickScheduler
  import opened Server
  import opened MouseEndpointObject
  import T = ClickTypes
  import Sessions
  import Replay = MotionReplay
  import Endpoint

  // ---------------------------------------------------------------- marks in sequence

  lemma {:induction false} MarksInTurn(cache: seq<Record>, a: seq<Mark>, b: seq<Mark>)
    ensures ApplyMarks(cache, a + b) == ApplyMarks(ApplyMarks(cache, a), b)
    decreases |a|
  {
    if a == [] {
      assert a + b == b;
    } else {
      assert (a + b)[1..] == a[1..] + b;
      MarksInTurn(ApplyMark(cache, a[0]), a[1..], b);
    }
  }

  lemma OneMark(cache: seq<Record>, mark: Mark)
    ensures ApplyMarks(cache, [mark]) == ApplyMark(cache, mark)
  {
    assert [mark][1..] == [];
  }

  lemma {:induction false} SameKeysSameFind(a: seq<Record>, b: seq<Record>, key: Key)
    requires |a| == |b| && forall i :: 0 <= i < |a| ==> a[i].key == b[i].key
    ensures FindCache(a, key) == FindCache(b, key)
  {
  }

  /** The record of an ended transaction already says so. */
  predicate InStep(cache: seq<Record>, ack: Ack) {
    var i := FindCache(cache, ack.key);
    i < |cache| ==> cache[i].ack == ack && cache[i].terminal
  }

  lemma {:induction false} MarksKeepStep(cache: seq<Record>, marks: seq<Mark>, ack: Ack)
    requires InStep(cache, ack)
    ensures InStep(ApplyMarks(cache, marks), ack)
    decreases |marks|
  {
    if marks != [] {
      SameKeysSameFind(cache, ApplyMark(cache, marks[0]), ack.key);
      MarksKeepStep(ApplyMark(cache, marks[0]), marks[1..], ack);
    }
  }

  /** Following a stopped executor a second time changes nothing. */
  lemma SecondSync(cache: seq<Record>, ack: Ack, marks: seq<Mark>)
    requires Terminal(ack.status) && ack.key.session != 0
    ensures var synced := ApplyMarks(SyncCache(cache, ack), marks); SyncCache(synced, ack) == synced
  {
    SameKeysSameFind(cache, SyncCache(cache, ack), ack.key);
    MarksKeepStep(SyncCache(cache, ack), marks, ack);
  }

  /** Only a ReleaseAll that starts clears the endpoint. */
  function AfterClick(s: Endpoint.State, r: T.Request, started: Option<Key>): Endpoint.State {
    if started.Some? && r.operation.ReleaseEverything? then Endpoint.ClearOn(s) else s
  }

  /** The first `n` events hold a failure. */
  predicate SomeFailed(events: seq<WriterEvent>, n: nat)
    requires n <= |events|
  {
    exists i :: 0 <= i < n && !events[i].success
  }

  lemma OneMoreFailed(events: seq<WriterEvent>, n: nat)
    requires n < |events|
    ensures SomeFailed(events, n + 1) <==> SomeFailed(events, n) || !events[n].success
  {
    if !events[n].success {
      assert 0 <= n < n + 1;
    }
  }

  class UdpServer {
    var cache: seq<Record>
    var work: seq<Click>
    var persistentButtons: bv8
    var scheduledButtons: bv8
    var trackedGeneration: nat
    var releasePending: bool
    var releaseInflight: bool
    var releaseKey: Key
    var owner: Option<Peer>
    var last: nat
    const epoch: nat
    const mover: MoveExecutor
    const sessions: Sessions.Tracker
    const replay: Replay.Tracker

    function SchedView(): Sched
      reads this
    {
      Sched(work, persistentButtons, scheduledButtons, trackedGeneration, releasePending, releaseInflight, releaseKey)
    }

    function View(): State
      reads this, mover, sessions, replay
    {
      State(cache, SchedView(), mover.View(), sessions.View(), replay.entries, owner, last, epoch)
    }

    constructor (epoch: nat)
      ensures View() == Begin(epoch) && fresh(mover) && fresh(sessions) && fresh(replay)
    {
      this.epoch := epoch;
      cache, work, owner, last := [], [], None, 0;
      persistentButtons, scheduledButtons, trackedGeneration := 0, 0, 0;
      releasePending, releaseInflight, releaseKey := false, false, NoKey;
      mover := new MoveExecutor();
      sessions := new Sessions.Tracker();
      replay := new Replay.Tracker();
    }

    // -------------------------------------------------------------- cache

    method FindRecord(key: Key) returns (i: nat)
      ensures i == FindCache(cache, key)
    {
      i := 0;
      while i < |cache| && cache[i].key != key
        invariant i <= |cache|
        invariant FindCache(cache, key) == i + FindCache(cache[i..], key)
      {
        i := i + 1;
      }
    }

    method Terminate(key: Key, status: T.Status)
      modifies this`cache
      ensures cache == ApplyMarks(old(cache), [Ended(key, status)])
    {
      OneMark(cache, Ended(key, status));
      var i := FindRecord(key);
      if i < |cache| {
        cache := cache[i := cache[i].(status := status, terminal := true)];
      }
    }

    method SyncMove()
      modifies this`cache
      ensures cache == SyncCache(old(cache), mover.ack)
    {
      if mover.ack.key.session == 0 {
        return;
      }
      var i := FindRecord(mover.ack.key);
      if i < |cache| {
        cache := cache[i := cache[i].(ack := mover.ack, terminal := Terminal(mover.ack.status))];
      }
    }

    method CancelWork()
      modifies this`cache, this`work, this`scheduledButtons
      ensures cache == ApplyMarks(old(cache), CancelMarks(old(work))) && work == [] && scheduledButtons == 0
    {
      while work != []
        invariant ApplyMarks(cache, CancelMarks(work)) == ApplyMarks(old(cache), CancelMarks(old(work)))
        decreases |work|
      {
        var click := work[0];
        work := work[1..];
        if click.binary {
          MarksInTurn(cache, [Ended(click.key, T.Cancelled)], CancelMarks(work));
          Terminate(click.key, T.Cancelled);
        } else {
          assert [] + CancelMarks(work) == CancelMarks(work);
        }
      }
      scheduledButtons := 0;
    }

    method RemoveOldCache()
      modifies this`cache
      ensures cache == RemoveOld(old(cache))
    {
      while |cache| >= MAX_CACHE_RECORDS
        invariant RemoveOld(cache) == RemoveOld(old(cache))
        decreases |cache|
      {
        var i := FindFinished();
        if i == |cache| {
          break;
        }
        cache := cache[..i] + cache[i + 1..];
      }
    }

    method FindFinished() returns (i: nat)
      ensures i == FirstTerminal(cache)
    {
      i := 0;
      while i < |cache| && !cache[i].terminal
        invariant i <= |cache|
        invariant FirstTerminal(cache) == i + FirstTerminal(cache[i..])
      {
        i := i + 1;
      }
    }

    // -------------------------------------------------------------- reset

    method StopMover(now: nat)
      modifies mover, this`cache
      ensures mover.View() == Stopped(old(mover.View()), Cancelled, now)
      ensures cache == SyncCache(old(cache), mover.ack)
    {
      hide Stopped;
      mover.Stop(Cancelled, now);
      SyncMove();
    }

    /** The transaction and all commands end; the record of a replaced ReleaseAll is finished in between. */
    method EndEverything(attach: Option<Key>, now: nat)
      modifies mover, this`cache, this`work, this`scheduledButtons
      ensures mover.View() == Stopped(old(mover.View()), Cancelled, now)
      ensures cache == ApplyMarks(SyncCache(old(cache), mover.ack), ResetMarks(old(SchedView()), attach))
      ensures work == [] && scheduledButtons == 0
    {
      hide Stopped, CancelMarks, SyncCache, ApplyMarks;
      StoppedForGood(mover.View(), now);
      StopMover(now);
      ghost var synced := cache;
      ghost var release: seq<Mark> := [];
      NoMarks(synced);
      if attach.Some? && releaseKey.session != 0 && releaseKey != attach.value {
        release := [Ended(releaseKey, T.Cancelled)];
        Terminate(releaseKey, T.Cancelled);
      }
      if mover.ack.key.session != 0 {
        SecondSync(old(cache), mover.ack, release);
      } else {
        NoSessionNoSync(cache, mover.ack);
      }
      StopMover(now);
      MarksInTurn(synced, release, CancelMarks(work));
      CancelWork();
    }

    method BeginReset(attach: Option<Key>, now: nat, endpoint: MouseEndpoint)
      modifies this, mover, endpoint`synthetic, endpoint`inflight
      ensures View() == Reset(old(View()), attach, now, endpoint.generation)
      ensures endpoint.View() == Endpoint.ClearOn(old(endpoint.View()))
    {
      hide Stopped, ResetMarks, SyncCache, ApplyMarks;
      EndEverything(attach, now);
      persistentButtons := 0;
      endpoint.ClearSyntheticState();
      trackedGeneration := endpoint.generation;
      releaseInflight, releasePending := false, true;
      if attach.Some? {
        releaseKey := attach.value;
      }
    }

    method Abandon(now: nat, endpoint: MouseEndpoint)
      modifies this, mover, endpoint`synthetic, endpoint`inflight
      ensures View() == Server.Abandon(old(View()), now, endpoint.generation)
      ensures endpoint.View() == Endpoint.ClearOn(old(endpoint.View()))
    {
      BeginReset(None, now, endpoint);
      owner := None;
    }

    // -------------------------------------------------------------- the loop

    /** The layout check at the top of the loop. */
    method TrackLayout(ready: bool, generation: nat, now: nat, endpoint: MouseEndpoint)
      modifies this, mover, endpoint`synthetic, endpoint`inflight
      ensures View() == Track(old(View()), ready, generation, now, endpoint.generation, endpoint.generation)
      ensures var tracked := if old(trackedGeneration) == 0 && ready then generation else old(trackedGeneration);
        endpoint.View() == if tracked != 0 && generation != tracked then Endpoint.ClearOn(old(endpoint.View()))
                           else old(endpoint.View())
    {
      hide Server.Abandon;
      if trackedGeneration == 0 && ready {
        trackedGeneration := generation;
      }
      if trackedGeneration != 0 && generation != trackedGeneration {
        Abandon(now, endpoint);
        trackedGeneration := endpoint.generation;
      }
    }

    method CheckLease(now: nat, endpoint: MouseEndpoint)
      modifies this, mover, endpoint`synthetic, endpoint`inflight
      ensures View() == Watchdog(old(View()), now, endpoint.generation)
      ensures endpoint.View() == if old(owner).Some? && now > old(last) + LEASE then Endpoint.ClearOn(old(endpoint.View()))
                                 else old(endpoint.View())
    {
      hide Server.Abandon;
      if owner.Some? && now > last + LEASE {
        Abandon(now, endpoint);
      }
    }

    method FinishFrontCommand(status: T.Status)
      requires work != []
      modifies this`cache, this`work, this`scheduledButtons
      ensures var (sched, marks) := FinishFront(old(SchedView()), status);
        SchedView() == sched && cache == ApplyMarks(old(cache), marks)
    {
      hide ApplyMarks;
      var click := work[0];
      work := work[1..];
      scheduledButtons := 0;
      NoMarks(cache);
      if click.binary {
        Terminate(click.key, status);
      }
    }

    /** A success for the release owed or for the command in front. */
    method SettleEvent(ev: WriterEvent)
      modifies this`cache, this`work, this`scheduledButtons, this`releasePending, this`releaseInflight, this`releaseKey
      ensures var (sched, marks) := Settled(old(SchedView()), ev);
        SchedView() == sched && cache == ApplyMarks(old(cache), marks)
    {
      hide ApplyMarks, Pressed, Rearmed, HasButton;
      NoMarks(cache);
      if ev.kind.ReleaseAll? && releaseInflight && ev.key == releaseKey {
        releaseInflight, releasePending := false, false;
        if releaseKey.session != 0 {
          Terminate(releaseKey, T.Completed);
        }
        releaseKey := NoKey;
        return;
      }
      if work == [] || ev.key != work[0].key || ev.index != work[0].index {
        return;
      }
      var click := work[0];
      if ev.kind.ClickPress? && click.phase.PressInflight? {
        work := [Pressed(click, ev)] + work[1..];
      } else if ev.kind.ClickRelease? && click.phase.ReleaseInflight? {
        if click.blocked || HasButton(ev.final, click.button) {
          FinishFrontCommand(T.ButtonActive);
        } else {
          CountClick(click, ev);
        }
      }
    }

    /** A click is complete: the command goes on to its next press, or ends. */
    method CountClick(click: Click, ev: WriterEvent)
      requires work != [] && click == work[0]
      modifies this`cache, this`work, this`scheduledButtons
      ensures var progress := Progressed(click.key, click.index + 1);
        if click.index + 1 >= click.count then
          var (sched, marks) := FinishFront(old(SchedView()), T.Completed);
          SchedView() == sched && cache == ApplyMarks(old(cache), [progress] + marks)
        else
          SchedView() == FrontAs(old(SchedView()), Rearmed(click, ev)) && cache == ApplyMarks(old(cache), [progress])
    {
      hide ApplyMarks, Rearmed;
      ghost var progress := Progressed(click.key, click.index + 1);
      MarksInTurn(cache, [progress], FinishFront(SchedView(), T.Completed).1);
      RecordProgress(click.key, click.index + 1);
      if click.index + 1 >= click.count {
        FinishFrontCommand(T.Completed);
      } else {
        work := [Rearmed(click, ev)] + work[1..];
      }
    }

    method RecordProgress(key: Key, completed: nat)
      modifies this`cache
      ensures cache == ApplyMarks(old(cache), [Progressed(key, completed)])
    {
      OneMark(cache, Progressed(key, completed));
      var i := FindRecord(key);
      if i < |cache| {
        cache := cache[i := cache[i].(completed := completed)];
      }
    }

    method ProcessEvent(ev: WriterEvent, now: nat, endpoint: MouseEndpoint)
      modifies this, mover, endpoint`synthetic, endpoint`inflight
      ensures View() == Deliver(old(View()), ev, now, endpoint.generation)
      ensures endpoint.View() == if ev.success then old(endpoint.View()) else Endpoint.ClearOn(old(endpoint.View()))
    {
      hide Delivered, Settled, ApplyMarks, SyncCache, Server.Abandon;
      mover.Event(ev);
      SyncMove();
      if !ev.success {
        Abandon(now, endpoint);
        return;
      }
      SettleEvent(ev);
    }

    /** The executor's tick; the second look at its record after a reset finds nothing new. */
    method MoverTurn(e: Snapshot, now: nat, endpoint: MouseEndpoint)
      modifies this, mover, endpoint`synthetic, endpoint`superseded, endpoint`nextItem, endpoint`inflight
      ensures var plan := Planned(old(mover.View()), e, now);
        var (s, result) := if plan.Submit? then Endpoint.EnqueueOn(old(endpoint.View()), plan.request, now)
                           else (old(endpoint.View()), Mixer.Accepted);
        var reset := plan.Abort? || (plan.Submit? && Answered(plan.e, result, now).1);
        && View() == MoverTick(old(View()), e, now, result, endpoint.generation)
        && endpoint.View() == (if reset then Endpoint.ClearOn(s) else s)
    {
      hide Planned, Endpoint.EnqueueOn, Reset, SyncCache;
      var reset := mover.Tick(endpoint, e, now);
      if reset {
        SyncMove();
        ghost var before := View();
        BeginReset(None, now, endpoint);
        ResetInStep(before, now, endpoint.generation);
      }
      SyncMove();
    }

    /** `scheduler_tick`: at most one enqueue, and a reset where an edge is unsupported or the layout moved. */
    method SchedulerTick(e: Snapshot, now: nat, endpoint: MouseEndpoint)
      modifies this, mover, endpoint`synthetic, endpoint`superseded, endpoint`nextItem, endpoint`inflight
      ensures var turn := PlanTick(old(SchedView()), e, now);
        var asks := turn.AskRelease? || turn.AskPress? || turn.AskLift?;
        var (s, result) := if asks then Endpoint.EnqueueOn(old(endpoint.View()), turn.request, now)
                           else (old(endpoint.View()), Mixer.Accepted);
        && View() == SchedTick(old(View()), e, now, result, endpoint.generation)
        && endpoint.View() == (if turn.NeedReset? || AnswerResets(turn, result) then Endpoint.ClearOn(s) else s)
    {
      hide Endpoint.EnqueueOn, Reset, ApplyMarks, HasButton, PlusButton, MinusButton;
      var turn := NextTurn(e, now);
      if turn.NeedReset? {
        BeginReset(None, now, endpoint);
      } else if turn.FinishActive? {
        FinishFrontCommand(T.ButtonActive);
      } else if !turn.Wait? {
        var result := endpoint.EnqueueReport(turn.request, now);
        if AnswerResets(turn, result) {
          BeginReset(None, now, endpoint);
        } else {
          TakeAnswer(turn, result);
        }
      }
    }

    method NextTurn(e: Snapshot, now: nat) returns (turn: Turn)
      ensures turn == PlanTick(SchedView(), e, now)
    {
      hide HasButton, PlusButton, MinusButton;
      if releasePending && !releaseInflight {
        return AskRelease(ReleaseRequest(SchedView()));
      }
      if work == [] || releasePending {
        return Wait;
      }
      var click := work[0];
      if click.phase.AwaitPress? && now >= click.due {
        if !e.ready || e.generation != trackedGeneration {
          return NeedReset;
        }
        if HasButton(Either(e.physical, Either(persistentButtons, scheduledButtons)), click.button) {
          return FinishActive;
        }
        return AskPress(EdgeRequest(SchedView(), ClickPress, PlusButton(scheduledButtons, click.button)));
      }
      if (click.phase.Holding? || click.phase.AwaitRelease?) && now >= click.due {
        return AskLift(EdgeRequest(SchedView(), ClickRelease, MinusButton(scheduledButtons, click.button)));
      }
      turn := Wait;
    }

    method TakeAnswer(turn: Turn, result: EnqueueResult)
      requires turn.AskRelease? || ((turn.AskPress? || turn.AskLift?) && work != [])
      modifies this`work, this`scheduledButtons, this`releaseInflight
      ensures SchedView() == TurnAnswered(old(SchedView()), turn, result)
    {
      if turn.AskRelease? {
        releaseInflight := releaseInflight || result.Accepted?;
      } else if result.Accepted? {
        scheduledButtons := turn.request.scheduled;
        work := [work[0].(phase := if turn.AskPress? then PressInflight else ReleaseInflight)] + work[1..];
      } else if turn.AskLift? {
        work := [work[0].(phase := AwaitRelease)] + work[1..];
      }
    }

    /** `process_writer_events`: the batch in order, through every reset a failure causes; each reads the clock anew. */
    method ProcessWriterEvents(events: seq<WriterEvent>, readings: seq<nat>, endpoint: MouseEndpoint)
      requires |readings| == |events|
      modifies this, mover, endpoint`synthetic, endpoint`inflight
      ensures View() == DeliverAll(old(View()), events, readings, endpoint.generation)
      ensures endpoint.View() == if SomeFailed(events, |events|) then Endpoint.ClearOn(old(endpoint.View()))
                                 else old(endpoint.View())
    {
      hide Deliver;
      var i := 0;
      while i < |events|
        invariant i <= |events|
        invariant endpoint.View() == if SomeFailed(events, i) then Endpoint.ClearOn(old(endpoint.View()))
                                     else old(endpoint.View())
        invariant endpoint.generation == old(endpoint.generation)
        invariant DeliverAll(View(), events[i..], readings[i..], endpoint.generation)
                  == DeliverAll(old(View()), events, readings, endpoint.generation)
      {
        assert events[i..][1..] == events[i + 1..] && readings[i..][1..] == readings[i + 1..];
        ProcessEvent(events[i], readings[i], endpoint);
        OneMoreFailed(events, i);
        i := i + 1;
      }
    }

    // -------------------------------------------------------------- packets

    /** Room in the cache and admission of the session; true lets a fresh command start. */
    method Admit(key: Key, now: nat, force: bool) returns (ok: bool)
      modifies this`cache, sessions
      ensures var cleaned := RemoveOld(old(cache));
        && cache == cleaned
        && (if |cleaned| >= MAX_CACHE_RECORDS then !ok && sessions.View() == old(sessions.View())
            else (sessions.View(), ok) == Sessions.Admit(Sessions.PrunedTable(old(sessions.View()), now), key.session, now,
                                                         force, Protected(cleaned)))
    {
      hide Sessions.Admit, Sessions.PrunedTable, RemoveOld;
      RemoveOldCache();
      if |cache| >= MAX_CACHE_RECORDS {
        return false;
      }
      ok := sessions.AdmitSession(key.session, now, force, set c | c in cache && !c.terminal :: c.key.session);
    }

    method BeginMove(r: MoveRequest, from: Peer, e: Snapshot, c: Clock) returns (reply: Ack, started: Option<Key>)
      modifies this, mover, sessions
      ensures (View(), reply, started) == StartMove(old(View()), r, from, e, c)
    {
      hide Sessions.Admit, Sessions.Accept, RemoveOld, Protected, Started, MoveRejection, Sessions.PrunedTable;
      RejectionIsFixed(View(), r, e, MoveTypes.QueueFull);
      ghost var s := View();
      var ok := Admit(r.key, c.admit, false);
      if !ok {
        return MoveRejection(View(), r, e, MoveTypes.QueueFull), None;
      }
      mover.Start(r, e, c.start);
      cache := cache + [MoveRecord(r, mover.ack, from)];
      sessions.AcceptCommand(r.key.session, r.key.command, c.accept);
      owner, last, trackedGeneration := Some(from), c.accept, e.generation;
      return mover.ack, Some(r.key);
    }

    /** The UPM1 handler for a parsed request. */
    method MovePacket(r: MoveRequest, from: Peer, e: Snapshot, c: Clock) returns (reply: Ack, started: Option<Key>)
      modifies this, mover, sessions
      ensures (View(), reply, started) == HandleMove(old(View()), r, from, e, c)
    {
      hide StartMove, MoveObstacle, MoveRejection, Proceeded, Cancelling, Sessions.PrunedTable, Sessions.Stale;
      if Foreign(View(), from) {
        return MoveRejection(View(), r, e, MoveTypes.Busy), None;
      }
      if r.epoch != epoch {
        return MoveRejection(View(), r, e, MoveTypes.EndpointChanged), None;
      }
      var i := FindRecord(r.key);
      if i < |cache| {
        reply := RepeatMove(i, r, from, e, c);
        return reply, None;
      }
      if !r.operation.Execute? {
        return MoveRejection(View(), r, e, MoveTypes.Stale), None;
      }
      reply, started := FreshMove(r, from, e, c);
    }

    /** A repeated request steers the running transaction, or is answered from the cache. */
    method RepeatMove(i: nat, r: MoveRequest, from: Peer, e: Snapshot, c: Clock) returns (reply: Ack)
      requires i < |cache|
      modifies this`cache, this`owner, this`last, mover`resumed, mover`cancelled
      ensures var s := old(View());
        var prior := s.cache[i];
        if !prior.movement || !SameMove(prior.move, r) then
          View() == s && reply == MoveRejection(s, r, e, MoveTypes.Invalid)
        else
          var f := if prior.terminal then s.mover
                   else if r.operation.Continue? then Proceeded(s.mover)
                   else if r.operation.Cancel? then Cancelling(s.mover) else s.mover;
          && View() == Own(s.(mover := f, cache := s.cache[i := prior.(peer := from)]), from, c.accept)
          && reply == prior.ack
    {
      hide Proceeded, Cancelling, MoveRejection;
      var prior := cache[i];
      if !prior.movement || !SameMove(prior.move, r) {
        return MoveRejection(View(), r, e, MoveTypes.Invalid);
      }
      if !prior.terminal {
        if r.operation.Continue? {
          mover.Proceed();
        } else if r.operation.Cancel? {
          mover.Cancel();
        }
      }
      cache := cache[i := prior.(peer := from)];
      owner, last := Some(from), c.accept;
      reply := prior.ack;
    }

    method FreshMove(r: MoveRequest, from: Peer, e: Snapshot, c: Clock) returns (reply: Ack, started: Option<Key>)
      modifies this, mover, sessions
      ensures var s := old(View());
        var t := s.(sessions := Sessions.PrunedTable(s.sessions, c.stale));
        if Sessions.Stale(t.sessions, r.key.session, r.key.command) then
          (View(), reply, started) == (t, MoveRejection(s, r, e, MoveTypes.Stale), None)
        else if MoveObstacle(s, r, e).Some? then
          (View(), reply, started) == (t, MoveRejection(s, r, e, MoveObstacle(s, r, e).value), None)
        else (View(), reply, started) == StartMove(t, r, from, e, c)
    {
      hide StartMove, MoveObstacle, Sessions.PrunedTable, Sessions.Stale;
      ghost var s := View();
      ObstacleIsFixed(s, s.(sessions := Sessions.PrunedTable(s.sessions, c.stale)), r, e);
      var stale := sessions.IsStale(r.key.session, r.key.command, c.stale);
      if stale {
        return MoveRejection(View(), r, e, MoveTypes.Stale), None;
      }
      var obstacle := MoveObstacle(View(), r, e);
      if obstacle.Some? {
        return MoveRejection(View(), r, e, obstacle.value), None;
      }
      reply, started := BeginMove(r, from, e, c);
    }

    method BeginClick(r: T.Request, from: Peer, e: Snapshot, now: nat, due: nat, endpoint: MouseEndpoint)
      returns (reply: ClickReply, started: Option<Key>)
      modifies this, mover, sessions, endpoint`synthetic, endpoint`inflight
      ensures (View(), reply, started) == StartClick(old(View()), r, from, e, now, due, endpoint.generation)
      ensures endpoint.View() == AfterClick(old(endpoint.View()), r, started)
    {
      hide Sessions.Admit, Sessions.Accept, RemoveOld, Protected, Reset, Sessions.PrunedTable;
      var ok := Admit(r.key, now, r.operation.ReleaseEverything?);
      if !ok {
        return ClickReply(T.QueueFull, 0, 0), None;
      }
      cache := cache + [ClickRecord(r, from)];
      sessions.AcceptCommand(r.key.session, r.key.command, now);
      owner, last := Some(from), now;
      if r.operation.Schedule? {
        work := work + [NewClick(r, due)];
        trackedGeneration := e.generation;
        return ClickReply(T.Accepted, r.count, 0), Some(r.key);
      }
      BeginReset(Some(r.key), now, endpoint);
      return ClickReply(T.Accepted, 0, 0), Some(r.key);
    }

    /** The UPC1 handler for a parsed request. */
    method ClickPacket(r: T.Request, from: Peer, e: Snapshot, now: nat, due: nat, endpoint: MouseEndpoint)
      returns (reply: ClickReply, started: Option<Key>)
      modifies this, mover, sessions, endpoint`synthetic, endpoint`inflight
      ensures (View(), reply, started) == HandleClick(old(View()), r, from, e, now, due, endpoint.generation)
      ensures endpoint.View() == AfterClick(old(endpoint.View()), r, started)
    {
      hide StartClick, ClickObstacle, Sessions.PrunedTable, Sessions.Stale;
      if Foreign(View(), from) {
        return ClickReply(T.Busy, 0, 0), None;
      }
      var i := FindRecord(r.key);
      if i < |cache| {
        var prior := cache[i];
        if prior.movement || !SameClick(prior.click, r) {
          return ClickReply(T.Invalid, 0, 0), None;
        }
        owner, last := Some(from), now;
        cache := cache[i := prior.(peer := from)];
        return ClickReply(if prior.terminal then prior.status else T.Duplicate, prior.accepted, prior.completed), None;
      }
      reply, started := FreshClickPacket(r, from, e, now, due, endpoint);
    }

    method FreshClickPacket(r: T.Request, from: Peer, e: Snapshot, now: nat, due: nat, endpoint: MouseEndpoint)
      returns (reply: ClickReply, started: Option<Key>)
      modifies this, mover, sessions, endpoint`synthetic, endpoint`inflight
      ensures var s := old(View());
        var t := s.(sessions := Sessions.PrunedTable(s.sessions, now));
        if Sessions.Stale(t.sessions, r.key.session, r.key.command) then
          (View(), reply, started) == (t, ClickReply(T.StaleCommand, 0, 0), None)
        else if r.operation.Schedule? && ClickObstacle(s, r, e).Some? then
          (View(), reply, started) == (t, ClickReply(ClickObstacle(s, r, e).value, 0, 0), None)
        else (View(), reply, started) == StartClick(t, r, from, e, now, due, endpoint.generation)
      ensures endpoint.View() == AfterClick(old(endpoint.View()), r, started)
    {
      hide StartClick, ClickObstacle, Sessions.PrunedTable, Sessions.Stale;
      ghost var s := View();
      ClickObstacleIsFixed(s, s.(sessions := Sessions.PrunedTable(s.sessions, now)), r, e);
      var stale := sessions.IsStale(r.key.session, r.key.command, now);
      if stale {
        return ClickReply(T.StaleCommand, 0, 0), None;
      }
      if r.operation.Schedule? {
        var obstacle := ClickObstacle(View(), r, e);
        if obstacle.Some? {
          return ClickReply(obstacle.value, 0, 0), None;
        }
      }
      reply, started := BeginClick(r, from, e, now, due, endpoint);
    }

    /** Filters a movement datagram and says what it asks for. */
    method DecideMotion(from: Peer, sequence: nat, c: Command, next: bv8, e: Snapshot, now: nat)
      returns (turn: MotionTurn)
      modifies this`owner, this`last, replay
      ensures turn == PlanMotion(old(View()), from, sequence, c, next, e, now) && View() == turn.s
    {
      hide Replay.Prune, Replay.Stale, JudgeMotion;
      if Foreign(View(), from) {
        return Dropped(View());
      }
      var stale := replay.IsStale(from, sequence, now);
      if stale || !e.ready || next & !e.supported != 0 {
        return Dropped(View());
      }
      turn := WeighMotion(from, c, next, now);
    }

    method WeighMotion(from: Peer, c: Command, next: bv8, now: nat) returns (turn: MotionTurn)
      modifies this`owner, this`last
      ensures turn == JudgeMotion(old(View()), from, c, next, now) && View() == turn.s
    {
      if IsActive(mover.View()) {
        if NoMotion(c) && next == 0 {
          owner, last := Some(from), now;
        }
        return Dropped(View());
      }
      var transition := next != persistentButtons;
      if transition || !NoMotion(c) {
        var latest := (c.x != 0 || c.y != 0) && c.wheel == 0 && c.pan == 0;
        return AskMotion(View(), MotionRequest(SchedView(), c, next, latest));
      }
      turn := Free(View());
    }

    method TakeMotion(from: Peer, sequence: nat, next: bv8, e: Snapshot, now: nat)
      modifies this`persistentButtons, this`trackedGeneration, this`owner, this`last, replay
      ensures View() == MotionTaken(old(View()), from, sequence, next, e, now)
    {
      hide Replay.Prune, Replay.Accept;
      persistentButtons := next;
      replay.AcceptSequence(from, sequence, now);
      owner, last, trackedGeneration := Some(from), now, e.generation;
    }

    /** The UPX1 handler; at most one enqueue. */
    method MotionPacket(from: Peer, sequence: nat, c: Command, next: bv8, e: Snapshot, now: nat, endpoint: MouseEndpoint)
      modifies this`persistentButtons, this`trackedGeneration, this`owner, this`last, replay,
               endpoint`synthetic, endpoint`superseded, endpoint`nextItem
      ensures var turn := PlanMotion(old(View()), from, sequence, c, next, e, now);
        var (s, result) := if turn.AskMotion? then Endpoint.EnqueueOn(old(endpoint.View()), turn.request, now)
                           else (old(endpoint.View()), Mixer.Accepted);
        View() == HandleMotion(old(View()), from, sequence, c, next, e, now, result) && endpoint.View() == s
    {
      hide Endpoint.EnqueueOn, PlanMotion, MotionTaken;
      var turn := DecideMotion(from, sequence, c, next, e, now);
      if turn.Dropped? {
        return;
      }
      if turn.AskMotion? {
        var result := endpoint.EnqueueReport(turn.request, now);
        if !result.Accepted? {
          return;
        }
      }
      TakeMotion(from, sequence, next, e, now);
    }

    // -------------------------------------------------------------- text commands

    method TextClick(from: Peer, button: nat, e: Snapshot, now: nat, due: nat)
      modifies this`work, this`trackedGeneration, this`owner, this`last
      ensures View() == HandleTextClick(old(View()), from, button, e, now, due)
    {
      hide HasButton;
      if Foreign(View(), from) || IsActive(mover.View()) || !e.ready || button < 1 || button > 8
         || !HasButton(e.supported, button) || HasButton(Either(e.physical, persistentButtons), button)
         || |work| >= MAX_CLICK_COMMANDS {
        return;
      }
      var press := Max(10000, e.poll);
      work := work + [Click(NoKey, button, 1, press, press + e.poll, 0, 0, due, AwaitPress, T.VERSION1, false, false)];
      owner, last, trackedGeneration := Some(from), now, e.generation;
    }

    method TextRelease(from: Peer, now: nat, endpoint: MouseEndpoint)
      modifies this, mover, endpoint`synthetic, endpoint`inflight
      ensures View() == HandleTextRelease(old(View()), from, now, endpoint.generation)
      ensures endpoint.View() == if Foreign(old(View()), from) then old(endpoint.View())
                                 else Endpoint.ClearOn(old(endpoint.View()))
    {
      hide Reset;
      if Foreign(View(), from) {
        return;
      }
      BeginReset(None, now, endpoint);
      owner, last := Some(from), now;
    }
  }

  lemma ObstacleIsFixed(s: State, t: State, r: MoveRequest, e: Snapshot)
    requires t.mover == s.mover && t.sched == s.sched && t.epoch == s.epoch
    ensures MoveObstacle(t, r, e) == MoveObstacle(s, r, e)
    ensures forall status :: MoveRejection(t, r, e, status) == MoveRejection(s, r, e, status)
  {
  }

  lemma ClickObstacleIsFixed(s: State, t: State, r: T.Request, e: Snapshot)
    requires t.mover == s.mover && t.sched == s.sched
    ensures ClickObstacle(t, r, e) == ClickObstacle(s, r, e)
  {
  }

  lemma RejectionIsFixed(s: State, r: MoveRequest, e: Snapshot, status: MoveTypes.Status)
    ensures forall t: State :: t.epoch == s.epoch ==> MoveRejection(t, r, e, status) == MoveRejection(s, r, e, status)
  {
  }

  lemma ResetInStep(s: State, now: nat, generation: nat)
    ensures var t := Reset(s, None, now, generation); SyncCache(t.cache, t.mover.ack) == t.cache
  {
    StoppedForGood(s.mover, now);
    hide Stopped, ApplyMarks;
    var mover := Stopped(s.mover, Cancelled, now);
    if mover.ack.key.session != 0 {
      SecondSync(s.cache, mover.ack, ResetMarks(s.sched, None));
    }
    hide SyncCache;
    assert mover.ack.key.session == 0 ==> Reset(s, None, now, generation).mover.ack.key.session == 0;
    NoSessionNoSync(Reset(s, None, now, generation).cache, mover.ack);
  }

  lemma NoSessionNoSync(cache: seq<Record>, ack: Ack)
    ensures ack.key.session == 0 ==> SyncCache(cache, ack) == cache
  {
  }

  lemma StoppedForGood(e: Exec, now: nat)
    ensures var f := Stopped(e, Cancelled, now); Terminal(f.ack.status) && Stopped(f, Cancelled, now) == f
  {
  }
}
