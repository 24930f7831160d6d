/** Every step of the transaction loop keeps its invariant. */
module TransactionSteps {
  import opened Common
  import opened HidReport
  import opened Splitting
  import opened MoveTypes
  import opened Mixer
  import opened Executor
  import opened ClickScheduler
  import T = ClickTypes
  import opened TransactionLoop

  // ---------------------------------------------------------------- steps that leave the mixer alone

  lemma ReadKeepsInv(w: World)
    requires Inv(w) && !w.reading
    ensures Inv(w.(batch := w.queue, queue := [], reading := true))
  {
    hide CoreInv, ExecInv, StageItem, Remains, Balanced, CarriesFront, MayCarry;
    var v := w.(batch := w.queue, queue := [], reading := true);
    assert w.batch == [];
    assert Unread(v) == Unread(w);
  }

  lemma StoppedShape(e: Exec, reason: Status, now: nat)
    ensures var f := Stopped(e, reason, now);
      && f == e.(ack := f.ack, pending := f.pending)
      && (!IsActive(e) ==> f == e)
      && (IsActive(e) && Terminal(reason) ==>
            && f.ack == e.ack.(status := reason, stage := Done, written := now,
                               uncertain := e.ack.uncertain || e.pending)
            && !IsActive(f) && !f.pending)
  {
  }

  /** A ReleaseAll that a reset takes over has a key of its own. */
  predicate MayAttach(w: World, attach: Option<Key>) {
    attach.Some? ==> Apart(w, attach.value)
  }

  /** Stopping and dropping the queue ends a transaction with a sound account. */
  lemma StopEnds(w: World, reason: Status, attach: Option<Key>, now: nat)
    requires LinkInv(w) && UsedInv(w) && OverInv(w) && SchedInv(w) && MayAttach(w, attach)
    requires IsActive(w.exec) && !w.exec.pending ==> Quiet(w)
    requires Terminal(reason) && !reason.Completed? && (IsActive(w.exec) ==> !w.exec.ack.uncertain)
    ensures var v := w.(exec := Stopped(w.exec, reason, now), sched := ResetSched(w.sched, attach, w.core.generation),
                        core := Clear(w.core));
      Inv(v) && !IsActive(v.exec)
  {
    StoppedShape(w.exec, reason, now);
    hide Stopped, StageEvents, StageItem, Remains, Mine, Unfinished, CarriesFront, MayCarry;
    var v := w.(exec := Stopped(w.exec, reason, now), sched := ResetSched(w.sched, attach, w.core.generation),
                core := Clear(w.core));
    assert LinkInv(v);
    hide LinkInv;
  }

  lemma ResetEnds(w: World, attach: Option<Key>, now: nat)
    requires LinkInv(w) && UsedInv(w) && OverInv(w) && SchedInv(w) && MayAttach(w, attach)
    requires IsActive(w.exec) && !w.exec.pending ==> Quiet(w)
    requires IsActive(w.exec) ==> !w.exec.ack.uncertain
    ensures Inv(Reset(w, attach, now)) && !IsActive(Reset(w, attach, now).exec)
  {
    hide LinkInv, UsedInv, OverInv, SchedInv, Quiet, Inv, Stopped;
    StopEnds(w, Cancelled, attach, now);
  }

  // ---------------------------------------------------------------- reading events

  lemma SkipKeepsBusy(w: World)
    requires Underway(w) && w.batch != [] && !Mine(w.exec, w.batch[0])
    ensures Underway(w.(batch := w.batch[1..]))
  {
    hide StageItem, Remains, KindAt, Acknowledged;
    var v := w.(batch := w.batch[1..]);
    assert Unread(v) == Unread(w)[1..];
    assert Unread(w)[0] == w.batch[0];
    SumFirst(w.exec, Unread(w));
    NoughtAdds(Sum(w.exec, Unread(v)));
    hide Sum, Add;
  }

  lemma NoughtAdds(a: Tally)
    ensures Add(Nought, a) == a
  {
  }

  /** An event of something else changes nothing for the transaction. */
  lemma SkipKeepsInv(w: World)
    requires Inv(w) && w.reading && w.batch != [] && (IsActive(w.exec) ==> !Mine(w.exec, w.batch[0]))
    ensures Inv(w.(batch := w.batch[1..]))
  {
    hide CoreInv, CarriesFront, MayCarry, ExecInv, Underway, Balanced, Mine;
    if IsActive(w.exec) && w.exec.pending {
      SkipKeepsBusy(w);
    }
  }

  /** A failed report of the transaction ends it as uncertain. */
  lemma FailureEnds(w: World, now: nat)
    requires Inv(w) && w.reading && w.batch != [] && IsActive(w.exec)
    requires Mine(w.exec, w.batch[0]) && !w.batch[0].success
    ensures Inv(Reset(w.(exec := Delivered(w.exec, w.batch[0]), batch := w.batch[1..]), None, now))
  {
    assert w.exec.pending;
    var v := w.(exec := Stopped(w.exec, WriterFailed, w.batch[0].written), batch := w.batch[1..]);
    StoppedShape(w.exec, WriterFailed, w.batch[0].written);
    hide Stopped, StageEvents, StageItem, Remains, Unfinished, CarriesFront, MayCarry, Underway, Quiet;
    assert LinkInv(v);
    assert OverInv(Reset(v, None, now));
  }

  /** What crediting a report to the ledger changes. */
  lemma CreditedShape(e: Exec, ev: WriterEvent)
    requires Mine(e, ev) && ev.success && (IsButtonEdge(ev.kind) ==> !ev.finished)
    ensures var f := Credited(e, ev);
      && f == e.(ack := f.ack)
      && f.ack == e.ack.(outX := f.ack.outX, outY := f.ack.outY, returnX := f.ack.returnX, returnY := f.ack.returnY,
                         residualX := f.ack.outX + f.ack.returnX, residualY := f.ack.outY + f.ack.returnY,
                         written := ev.written)
      && (!IsButtonEdge(ev.kind) ==> Acknowledged(f) == Add(Acknowledged(e), Unacknowledged(e, ev)))
      && (!ev.kind.TransactionOut? ==> f.ack.outX == e.ack.outX && f.ack.outY == e.ack.outY)
      && (!ev.kind.TransactionReturn? ==> f.ack.returnX == e.ack.returnX && f.ack.returnY == e.ack.returnY)
  {
  }

  lemma AddAssociates(a: Tally, b: Tally, c: Tally)
    ensures Add(Add(a, b), c) == Add(a, Add(b, c))
  {
  }

  lemma SumFirst(e: Exec, events: seq<WriterEvent>)
    requires events != []
    ensures Sum(e, events) == Add(Unacknowledged(e, events[0]), Sum(e, events[1..]))
  {
  }

  lemma CreditedKeepsExecInv(e: Exec, ev: WriterEvent)
    requires ExecInv(e) && IsActive(e) && e.pending && ev.kind == KindAt(e.ack.stage) && !IsButtonEdge(ev.kind)
    ensures ExecInv(Credited(e, ev)) && IsActive(Credited(e, ev)) && Credited(e, ev).pending
  {
  }

  /** A report that does not finish its item moves its displacement from the unread to the acknowledged side. */
  lemma CreditKeepsBusy(w: World)
    requires Underway(w) && w.reading && w.batch != [] && IsTransaction(KindAt(w.exec.ack.stage))
    requires Mine(w.exec, w.batch[0]) && w.batch[0].success && !w.batch[0].finished
    ensures Underway(w.(exec := Credited(w.exec, w.batch[0]), batch := w.batch[1..]))
  {
    var e, ev := w.exec, w.batch[0];
    assert Unread(w)[0] == ev;
    assert ev.kind == KindAt(e.ack.stage) && !IsButtonEdge(ev.kind);
    var f := Credited(e, ev);
    var v := w.(exec := f, batch := w.batch[1..]);
    CreditedShape(e, ev);
    assert Unread(v) == Unread(w)[1..];
    SumFirst(e, Unread(w));
    SumSameRequest(e, f, Unread(v));
    AddAssociates(Acknowledged(e), Unacknowledged(e, ev), Sum(e, Unread(v)));
    hide Credited, Sum, Add, Acknowledged, Unacknowledged, Finished, NoMotion;
  }

  lemma CreditKeepsInv(w: World)
    requires Inv(w) && w.reading && w.batch != [] && IsActive(w.exec)
    requires Mine(w.exec, w.batch[0]) && w.batch[0].success && !w.batch[0].finished
    ensures Inv(w.(exec := Credited(w.exec, w.batch[0]), batch := w.batch[1..]))
  {
    hide CoreInv, CarriesFront, MayCarry, ExecInv, StageEvents, StageItem, Remains, Balanced, KindAt, Credited;
    assert w.exec.pending;
    PendingKind(w.exec);
    StageOfEvent(w);
    CreditedKeepsExecInv(w.exec, w.batch[0]);
    CreditedShape(w.exec, w.batch[0]);
    hide Quiet;
    CreditKeepsBusy(w);
    hide Underway;
  }

  lemma PendingKind(e: Exec)
    requires ExecInv(e) && IsActive(e) && e.pending
    ensures IsTransaction(KindAt(e.ack.stage)) && e.request.key != NoKey
  {
  }

  /** The first unread event belongs to the stage; a finishing one closes the account, with nothing after it. */
  lemma StageOfEvent(w: World)
    requires Underway(w) && w.batch != [] && Mine(w.exec, w.batch[0])
    ensures var ev := w.batch[0];
      && ev.kind == KindAt(w.exec.ack.stage)
      && (ev.success && IsButtonEdge(ev.kind) ==> ev.finished)
      && (ev.finished ==>
            && ev.success && w.core.queue == [] && !CarriesMine(w) && !w.lost
            && NoneMine(w.exec, w.batch[1..]) && NoneMine(w.exec, w.queue)
            && Remains(w.exec, w.wrote, 0, 0)
            && w.wrote == Add(Acknowledged(w.exec), Unacknowledged(w.exec, ev)))
  {
    var ev := w.batch[0];
    hide StageItem, Remains, Mine, Acknowledged, Unacknowledged, KindAt, Sum, Add;
    assert Unread(w)[0] == ev;
    if ev.finished {
      FinishingIsLast(w.exec, w.batch, w.queue);
      SumLast(w.exec, Unread(w));
    }
  }

  lemma FinishingIsLast(e: Exec, batch: seq<WriterEvent>, queue: seq<WriterEvent>)
    requires StageEvents(e, batch + queue) && batch != [] && Mine(e, batch[0]) && batch[0].finished
    ensures NoneMine(e, (batch + queue)[1..]) && NoneMine(e, batch[1..]) && NoneMine(e, queue)
  {
    hide Mine, KindAt;
    var all := batch + queue;
    assert all[0] == batch[0];
    forall i | 0 <= i < |queue|
      ensures queue[i].key != e.request.key
    {
      assert all[|batch| + i] == queue[i];
    }
    forall i | 0 <= i < |batch| - 1
      ensures batch[1..][i].key != e.request.key
    {
      assert all[i + 1] == batch[1..][i];
    }
  }

  lemma SumLast(e: Exec, events: seq<WriterEvent>)
    requires events != [] && NoneMine(e, events[1..])
    ensures Sum(e, events) == Unacknowledged(e, events[0])
  {
    SumNone(e, events[1..]);
    SumFirst(e, events);
    AddNought(Unacknowledged(e, events[0]));
    hide Sum, Add, Unacknowledged;
  }

  predicate OutAndBackMatch(e: Exec, wrote: Tally) {
    && wrote.outX == e.ack.outX && wrote.outY == e.ack.outY
    && wrote.backX == e.ack.returnX && wrote.backY == e.ack.returnY
  }

  /** What a finishing report must leave behind. */
  predicate Accounted(e: Exec, g: Exec, wrote: Tally) {
    && g.request == e.request && ExecInv(g) && !g.pending
    && (IsActive(g) ==> wrote == Acknowledged(g))
    && (!IsActive(g) ==> !g.ack.uncertain && OutAndBackMatch(g, wrote))
    && (g.ack.status.Completed? ==> Balanced(g, wrote))
  }

  predicate FinishingEvent(e: Exec, ev: WriterEvent, wrote: Tally) {
    && ExecInv(e) && IsActive(e) && e.pending && Mine(e, ev) && ev.success && ev.kind == KindAt(e.ack.stage)
    && Remains(e, wrote, 0, 0) && wrote == Add(Acknowledged(e), Unacknowledged(e, ev))
  }

  predicate SameAccountOf(e: Exec, g: Exec) {
    && g.request == e.request && g.cancelled == e.cancelled && g.ack.uncertain == e.ack.uncertain
    && g.ack.outX == e.ack.outX && g.ack.outY == e.ack.outY
    && g.ack.returnX == e.ack.returnX && g.ack.returnY == e.ack.returnY
    && g.ack.residualX == e.ack.residualX && g.ack.residualY == e.ack.residualY
  }

  lemma ItemDoneKeepsAccount(f: Exec, ev: WriterEvent)
    requires IsActive(f) && IsTransaction(ev.kind)
    ensures SameAccountOf(f, ItemDone(f, ev)) && !ItemDone(f, ev).pending
  {
    if ev.kind.TransactionPress? && ev.blocked {
      StoppedShape(f.(pending := false), ButtonActive, ev.written);
      hide Stopped;
    } else if ev.kind.TransactionOut? {
      hide Stopped;
    } else if ev.kind.TransactionReturn? {
      hide Stopped;
    } else {
      hide Stopped;
    }
  }

  lemma ItemDoneStage(f: Exec, ev: WriterEvent)
    requires IsActive(f) && IsTransaction(ev.kind)
    ensures var g := ItemDone(f, ev);
      && g.ack.pressed == (f.ack.pressed || (ev.kind.TransactionPress? && !ev.blocked))
      && g.ack.released == (f.ack.released || ev.kind.TransactionRelease?)
      && (if ev.kind.TransactionReturn? then
            g.ack.stage.Done? && g.ack.status == (if f.cancelled then Cancelled else Completed)
          else if ev.kind.TransactionPress? && ev.blocked then g.ack.stage.Done? && g.ack.status.ButtonActive?
          else
            && g.ack.status == f.ack.status
            && g.ack.stage == (if ev.kind.TransactionOut? then Settle
                               else if ev.kind.TransactionPress? then Hold else ReturnDelay))
  {
    if ev.kind.TransactionPress? && ev.blocked {
      StoppedShape(f.(pending := false), ButtonActive, ev.written);
    }
  }

  lemma CreditedLedger(e: Exec, ev: WriterEvent)
    ensures var f := Credited(e, ev);
      var a := Writes(ev.kind, ev.dx, ev.dy);
      && f.request == e.request && f.cancelled == e.cancelled && f.ack.status == e.ack.status
      && f.ack.uncertain == e.ack.uncertain && f.ack.pressed == e.ack.pressed && f.ack.released == e.ack.released
      && f.ack.outX == e.ack.outX + a.outX && f.ack.outY == e.ack.outY + a.outY
      && f.ack.returnX == e.ack.returnX + a.backX && f.ack.returnY == e.ack.returnY + a.backY
      && f.ack.residualX == f.ack.outX + f.ack.returnX && f.ack.residualY == f.ack.outY + f.ack.returnY
  {
  }

  lemma ItemDoneShape(e: Exec, ev: WriterEvent)
    requires IsActive(e) && IsTransaction(ev.kind)
    ensures var g := ItemDone(Credited(e, ev), ev);
      var a := Writes(ev.kind, ev.dx, ev.dy);
      && g.request == e.request && !g.pending && g.cancelled == e.cancelled
      && g.ack.outX == e.ack.outX + a.outX && g.ack.outY == e.ack.outY + a.outY
      && g.ack.returnX == e.ack.returnX + a.backX && g.ack.returnY == e.ack.returnY + a.backY
      && g.ack.residualX == g.ack.outX + g.ack.returnX && g.ack.residualY == g.ack.outY + g.ack.returnY
      && g.ack.uncertain == e.ack.uncertain
  {
    CreditedLedger(e, ev);
    ItemDoneKeepsAccount(Credited(e, ev), ev);
    hide ItemDone, Credited, Writes;
  }

  lemma OutDone(e: Exec, ev: WriterEvent, wrote: Tally)
    requires FinishingEvent(e, ev, wrote) && e.ack.stage.Outward?
    ensures Accounted(e, ItemDone(Credited(e, ev), ev), wrote)
  {
    ItemDoneShape(e, ev);
    CreditedLedger(e, ev);
    ItemDoneStage(Credited(e, ev), ev);
    hide ItemDone, Credited, Balanced;
  }

  lemma PressedInv(e: Exec, g: Exec)
    requires ExecInv(e) && IsActive(e) && e.ack.stage.Pressing? && SameAccountOf(e, g)
    requires g.ack.stage.Hold? && !g.pending && g.ack.pressed && g.ack.released == e.ack.released
    ensures ExecInv(g)
  {
  }

  lemma PressTally(e: Exec, ev: WriterEvent)
    requires ExecInv(e) && IsActive(e) && e.ack.stage.Pressing? && ev.kind.TransactionPress? && ev.success && Mine(e, ev)
    ensures !e.ack.pressed && !e.ack.uncertain && Unacknowledged(e, ev) == Nought.(presses := 1)
    ensures Writes(ev.kind, ev.dx, ev.dy) == Nought.(presses := 1)
    ensures e.ack.residualX == e.ack.outX + e.ack.returnX && e.ack.residualY == e.ack.outY + e.ack.returnY
  {
  }

  lemma PressDone(e: Exec, ev: WriterEvent, wrote: Tally)
    requires FinishingEvent(e, ev, wrote) && e.ack.stage.Pressing?
    ensures Accounted(e, ItemDone(Credited(e, ev), ev), wrote)
  {
    hide ItemDone, Credited, Balanced, Remains, WholeWay, Mine, Writes, ExecInv;
    ItemDoneShape(e, ev);
    CreditedLedger(e, ev);
    ItemDoneStage(Credited(e, ev), ev);
    PressTally(e, ev);
    if !ev.blocked {
      PressedInv(e, ItemDone(Credited(e, ev), ev));
    }
    assert ev.blocked ==> ExecInv(ItemDone(Credited(e, ev), ev)) by {
      InactiveInv(ItemDone(Credited(e, ev), ev));
    }
  }

  lemma InactiveInv(e: Exec)
    ensures !IsActive(e) ==> ExecInv(e)
  {
  }

  lemma ReleasedInv(e: Exec, g: Exec)
    requires ExecInv(e) && IsActive(e) && e.ack.stage.Releasing? && SameAccountOf(e, g)
    requires g.ack.status == e.ack.status && g.ack.stage.ReturnDelay? && !g.pending && g.ack.pressed && g.ack.released
    ensures ExecInv(g)
  {
  }

  lemma ReleaseTally(e: Exec, ev: WriterEvent)
    requires ExecInv(e) && IsActive(e) && e.ack.stage.Releasing? && ev.kind.TransactionRelease? && ev.success && Mine(e, ev)
    ensures e.ack.pressed && !e.ack.released && Unacknowledged(e, ev) == Nought.(releases := 1)
    ensures Writes(ev.kind, ev.dx, ev.dy) == Nought.(releases := 1)
    ensures e.ack.residualX == e.ack.outX + e.ack.returnX && e.ack.residualY == e.ack.outY + e.ack.returnY
  {
  }

  lemma ReleaseDone(e: Exec, ev: WriterEvent, wrote: Tally)
    requires FinishingEvent(e, ev, wrote) && e.ack.stage.Releasing?
    ensures Accounted(e, ItemDone(Credited(e, ev), ev), wrote)
  {
    hide ItemDone, Credited, Balanced, ExecInv, Remains, WholeWay, Mine, Writes;
    ItemDoneShape(e, ev);
    CreditedLedger(e, ev);
    ItemDoneStage(Credited(e, ev), ev);
    ReleaseTally(e, ev);
    ReleasedInv(e, ItemDone(Credited(e, ev), ev));
  }

  lemma ReturnDone(e: Exec, ev: WriterEvent, wrote: Tally)
    requires FinishingEvent(e, ev, wrote) && e.ack.stage.Returning?
    ensures Accounted(e, ItemDone(Credited(e, ev), ev), wrote)
  {
    ItemDoneShape(e, ev);
    CreditedLedger(e, ev);
    ItemDoneStage(Credited(e, ev), ev);
    hide ItemDone, Credited;
  }

  /** The finishing report closes the stage's account. */
  lemma ItemDoneAccount(e: Exec, ev: WriterEvent, wrote: Tally)
    requires FinishingEvent(e, ev, wrote)
    ensures Accounted(e, ItemDone(Credited(e, ev), ev), wrote)
  {
    PendingKind(e);
    hide ItemDone, Credited, Accounted, Remains, Acknowledged, Unacknowledged, Add;
    if e.ack.stage.Outward? {
      OutDone(e, ev, wrote);
    } else if e.ack.stage.Returning? {
      ReturnDone(e, ev, wrote);
    } else if e.ack.stage.Pressing? {
      PressDone(e, ev, wrote);
    } else {
      ReleaseDone(e, ev, wrote);
    }
  }

  lemma ItemDoneKeepsInv(w: World)
    requires Inv(w) && w.reading && w.batch != [] && IsActive(w.exec)
    requires Mine(w.exec, w.batch[0]) && w.batch[0].success && w.batch[0].finished
    ensures Inv(w.(exec := ItemDone(Credited(w.exec, w.batch[0]), w.batch[0]), batch := w.batch[1..]))
  {
    hide CoreInv, CarriesFront, MayCarry, ExecInv, StageEvents, StageItem, Remains, Balanced, KindAt, Credited, ItemDone,
         Acknowledged, Unacknowledged, Sum, Add;
    assert w.exec.pending;
    PendingKind(w.exec);
    StageOfEvent(w);
    ItemDoneAccount(w.exec, w.batch[0], w.wrote);
    hide Underway;
  }

  /** The scheduler works on for the same commands, or for all but the first. */
  predicate Onward(s: Sched, t: Sched) {
    && (|t.work| == |s.work| || |t.work| == |s.work| - 1)
    && (forall i :: 0 <= i < |t.work| ==> t.work[i].key == s.work[i + |s.work| - |t.work|].key)
    && (t.releaseKey == s.releaseKey || t.releaseKey == NoKey)
    && (t.releasePending ==> s.releasePending)
    && ((s.releaseInflight ==> s.releasePending) ==> (t.releaseInflight ==> t.releasePending))
  }

  lemma FrontIsOnward(s: Sched, front: Click)
    requires s.work != [] && front.key == s.work[0].key
    ensures Onward(s, FrontAs(s, front))
    ensures forall mask: bv8 :: Onward(s, FrontAs(s, front).(scheduled := mask))
  {
  }

  lemma FinishIsOnward(s: Sched, status: T.Status)
    requires s.work != []
    ensures Onward(s, FinishFront(s, status).0)
  {
  }

  lemma SameIsOnward(s: Sched)
    ensures Onward(s, s) && Onward(s, s.(releasePending := false, releaseInflight := false, releaseKey := NoKey))
    ensures s.releasePending ==> Onward(s, s.(releaseInflight := true))
  {
  }

  lemma SettledIsOnward(s: Sched, ev: WriterEvent)
    ensures Onward(s, Settled(s, ev).0)
  {
    if s.work != [] {
      FrontIsOnward(s, Pressed(s.work[0], ev));
      FrontIsOnward(s, Rearmed(s.work[0], ev));
      FinishIsOnward(s, T.ButtonActive);
      FinishIsOnward(s, T.Completed);
    }
    SameIsOnward(s);
    hide HasButton, FrontAs, FinishFront, Onward, Pressed, Rearmed;
  }

  lemma SettledKeepsInv(w: World, ev: WriterEvent)
    requires Inv(w)
    ensures Inv(w.(sched := Settled(w.sched, ev).0))
  {
    hide Settled;
    SettledIsOnward(w.sched, ev);
    OnwardKeepsInv(w, Settled(w.sched, ev).0);
  }

  /** The scheduler's state is no part of what queue, writer and transaction say about one another. */
  lemma SchedSwap(w: World, s: Sched)
    ensures var v := w.(sched := s);
      && LinkInv(v) == LinkInv(w) && UsedInv(v) == UsedInv(w) && OverInv(v) == OverInv(w)
      && Underway(v) == Underway(w) && Quiet(v) == Quiet(w)
  {
    var v := w.(sched := s);
    assert Unread(v) == Unread(w);
    hide StageEvents, StageItem, Remains, MayCarry, CarriesFront, CoreInv, Sum, Add;
  }

  lemma OnwardKeepsInv(w: World, s: Sched)
    requires Inv(w) && Onward(w.sched, s)
    ensures Inv(w.(sched := s))
  {
    hide LinkInv, UsedInv, ExecInv, Underway, Quiet, OverInv;
    SchedSwap(w, s);
  }

  lemma DeliverKeepsInv(w: World, now: nat)
    requires Inv(w) && w.reading && w.batch != []
    ensures Inv(DeliverStep(w, now))
  {
    hide Inv, Credited, ItemDone, Stopped, Settled;
    var e, ev := w.exec, w.batch[0];
    if !IsActive(e) || !Mine(e, ev) {
      SkipKeepsInv(w);
      if !ev.success {
        PartsOfInv(w.(batch := w.batch[1..]));
        ResetEnds(w.(batch := w.batch[1..]), None, now);
      }
    } else if !ev.success {
      FailureEnds(w, now);
    } else {
      KindOfMine(w);
      if ev.finished {
        ItemDoneKeepsInv(w);
      } else {
        CreditKeepsInv(w);
      }
    }
    if ev.success {
      SettledKeepsInv(w.(exec := Delivered(e, ev), batch := w.batch[1..]), ev);
    }
  }

  lemma PartsOfInv(w: World)
    requires Inv(w)
    ensures LinkInv(w) && UsedInv(w) && OverInv(w) && SchedInv(w)
    ensures IsActive(w.exec) ==> (!w.exec.pending ==> Quiet(w)) && !w.exec.ack.uncertain
  {
  }

  lemma KindOfMine(w: World)
    requires Inv(w) && w.batch != [] && IsActive(w.exec) && Mine(w.exec, w.batch[0])
    ensures IsTransaction(w.batch[0].kind)
  {
    hide LinkInv, UsedInv, ExecInv, StageEvents, StageItem, Remains, KindAt;
    assert w.exec.pending;
    PendingKind(w.exec);
    StageOfEvent(w);
  }

  /** A lost completion is followed by the overflow check's reset. */
  lemma OverflowKeepsInv(w: World, now: nat)
    requires Inv(w) && w.reading && w.batch == []
    ensures Inv(Step(w, CheckOverflow(now)))
    ensures w.overflow ==> !IsActive(Step(w, CheckOverflow(now)).exec)
  {
    hide CoreInv, CarriesFront, MayCarry, ExecInv, StageEvents, StageItem, Remains, Balanced, KindAt, Reset;
    var v := w.(reading := false, overflow := false);
    assert Unread(v) == Unread(w);
    PartsOfInv(w);
    if w.overflow {
      assert LinkInv(v) && UsedInv(v) && OverInv(v) && SchedInv(v);
      ResetEnds(v, None, now);
    }
  }

  // ---------------------------------------------------------------- ticks

  /** The moves a tick may make without the mixer: the ledger stands, unless the transaction completes. */
  predicate Moves(e: Exec, f: Exec) {
    && f.request == e.request && !f.pending && ExecInv(f)
    && Acknowledged(f) == Acknowledged(e) && f.ack.uncertain == e.ack.uncertain
    && (f.ack.status.Completed? ==> Balanced(f, Acknowledged(f)))
  }

  lemma RedirectedMoves(e: Exec, now: nat)
    requires ExecInv(e) && IsActive(e) && !e.pending
    ensures Moves(e, Redirected(e, now)) && IsActive(Redirected(e, now))
  {
  }

  lemma AdvanceMoves(e: Exec, now: nat)
    requires ExecInv(e) && IsActive(e) && !e.pending
    ensures var plan := Advance(e, now);
      && !plan.Abort? && Moves(e, plan.e)
      && (plan.Submit? ==> plan.e == e && Submission(e, plan.request))
  {
    if e.ack.stage.ReturnDelay? {
      AdvanceFromReturnDelay(e, now);
      hide Advance, ExecInv;
    } else {
      hide Balanced, ButtonBit;
    }
  }

  lemma AdvanceFromReturnDelay(e: Exec, now: nat)
    requires ExecInv(e) && IsActive(e) && !e.pending && e.ack.stage.ReturnDelay?
    ensures var plan := Advance(e, now); plan.Rest? && Moves(e, plan.e)
  {
  }

  /** What a stage submits: the whole way out, an edge, or everything still owed on the way back. */
  predicate Submission(e: Exec, r: Request) {
    && IsTransaction(KindAt(e.ack.stage)) && r.kind == KindAt(e.ack.stage)
    && r.key == e.request.key && r.expectedGeneration == e.request.generation && !r.latest
    && r.command.wheel == 0 && r.command.pan == 0
    && (IsButtonEdge(r.kind) ==> r.command.x == 0 && r.command.y == 0)
    && (e.ack.stage.Outward? ==> r.command.x == e.request.dx && r.command.y == e.request.dy)
    && (e.ack.stage.Returning? ==> r.command.x == -e.ack.outX && r.command.y == -e.ack.outY)
  }

  lemma RestKeepsInv(w: World, f: Exec)
    requires Inv(w) && IsActive(w.exec) && !w.exec.pending && Moves(w.exec, f)
    ensures Inv(w.(exec := f)) && (IsActive(f) ==> Quiet(w.(exec := f)))
  {
    hide LinkInv, ExecInv, Underway, Balanced, Acknowledged;
    assert w.exec.request.key != NoKey && !w.exec.ack.uncertain by {
      ActiveHasKey(w.exec);
    }
    assert OutAndBackMatch(f, w.wrote) by {
      SameLedger(w.exec, f);
    }
    KeepsLink(w, f);
  }

  lemma ActiveHasKey(e: Exec)
    requires ExecInv(e) && IsActive(e)
    ensures e.request.key != NoKey && e.request.generation != 0 && !e.ack.uncertain
  {
  }

  lemma SameLedger(e: Exec, f: Exec)
    requires Acknowledged(f) == Acknowledged(e)
    ensures OutAndBackMatch(f, Acknowledged(e))
  {
  }

  lemma KeepsLink(w: World, f: Exec)
    requires LinkInv(w)
    ensures LinkInv(w.(exec := f))
  {
  }

  /** The queue item a submission becomes. */
  lemma SubmittedItem(c: Core, e: Exec, r: Request, now: nat)
    requires Submission(e, r)
    ensures StageItem(e, NewItem(c, r, now)) && NewItem(c, r, now).id == c.nextItem
    ensures NewItem(c, r, now).key == e.request.key
    ensures NewItem(c, r, now).remaining.x == r.command.x && NewItem(c, r, now).remaining.y == r.command.y
  {
    hide Either;
  }

  lemma InsertInto(c: Core, r: Request, ready: bool, supported: bool, now: nat)
    requires c.queue == [] && !r.latest && r.expectedGeneration != 0
    ensures var (d, result) := Enqueue(c, r, ready, supported, now);
      && (result.Accepted? ==>
            && d == c.(queue := [NewItem(c, r, now)], nextItem := c.nextItem + 1)
            && c.generation == r.expectedGeneration)
      && (!result.Accepted? ==> d == c)
  {
    hide NewItem;
  }

  lemma FreshBalance(e: Exec, r: Request)
    requires ExecInv(e) && IsActive(e) && !e.pending && Submission(e, r)
    ensures Remains(e, Acknowledged(e), r.command.x, r.command.y)
  {
  }

  lemma NothingUnread(w: World)
    requires NoneMine(w.exec, w.batch) && NoneMine(w.exec, w.queue)
    ensures NoneMine(w.exec, Unread(w))
  {
  }

  lemma AddNought(a: Tally)
    ensures Add(a, Nought) == a
  {
  }

  lemma SubmitKeepsInv(w: World, r: Request, ready: bool, supported: bool, now: nat)
    requires Inv(w) && IsActive(w.exec) && !w.exec.pending && Submission(w.exec, r)
    ensures var (c, result) := Enqueue(w.core, r, ready, supported, now);
      && (result.Accepted? ==> Inv(w.(exec := w.exec.(pending := true), core := c)))
      && (!result.Accepted? ==> c == w.core)
  {
    hide ExecInv, StageItem, Balanced, Acknowledged, KindAt, NewItem, Remains, MayCarry, Enqueue, Add;
    ActiveHasKey(w.exec);
    InsertInto(w.core, r, ready, supported, now);
    var (c, result) := Enqueue(w.core, r, ready, supported, now);
    if result.Accepted? {
      var f := w.exec.(pending := true);
      var v := w.(exec := f, core := c);
      EnqueueKeepsInv(w.core, r, ready, supported, now);
      SubmittedItem(w.core, f, r, now);
      FreshBalance(w.exec, r);
      NothingUnread(v);
      SumNone(f, Unread(v));
      AddNought(w.wrote);
      SameAccount(w.exec, f, r);
      assert w.core.inflight.None?;
      assert LinkInv(v);
      hide LinkInv;
      assert Underway(v);
    }
  }

  lemma SameAccount(e: Exec, f: Exec, r: Request)
    requires f == e.(pending := true) && Submission(e, r)
    ensures Acknowledged(f) == Acknowledged(e) && (ExecInv(e) ==> ExecInv(f))
    ensures Remains(e, Acknowledged(e), r.command.x, r.command.y) ==>
              Remains(f, Acknowledged(f), r.command.x, r.command.y)
  {
  }

  lemma ResetOfStopped(w: World, reason: Status, now: nat)
    requires Inv(w) && IsActive(w.exec) && Terminal(reason) && !reason.Completed?
    ensures Inv(Reset(w.(exec := Stopped(w.exec, reason, now)), None, now))
  {
    PartsOfInv(w);
    StoppedShape(w.exec, reason, now);
    hide LinkInv, UsedInv, OverInv, SchedInv, Quiet, Inv;
    StopEnds(w, reason, None, now);
    StoppedShape(Stopped(w.exec, reason, now), Cancelled, now);
    hide Stopped;
  }

  lemma TickKeepsInv(w: World, snapshot: Snapshot, now: nat, ready: bool, supported: bool)
    requires Inv(w)
    ensures Inv(TickStep(w, snapshot, now, ready, supported))
  {
    hide Inv, Reset, Stopped, Enqueue, Redirected, Advance, Moves;
    var e := w.exec;
    var plan := Planned(e, snapshot, now);
    if IsActive(e) {
      ResetOfStopped(w, EndpointChanged, now);
      ResetOfStopped(w, Interrupted, now);
      ResetOfStopped(w, Timeout, now);
      if !e.pending {
        AdvanceKeepsInv(w, now, ready, supported);
      }
    }
  }

  /** The part of a tick that may submit the stage's item. */
  lemma AdvanceKeepsInv(w: World, now: nat, ready: bool, supported: bool)
    requires Inv(w) && IsActive(w.exec) && !w.exec.pending
    ensures var plan := Advance(Redirected(w.exec, now), now);
      && !plan.Abort?
      && (plan.Rest? ==> Inv(w.(exec := plan.e)))
      && (plan.Submit? ==>
            var (c, result) := Enqueue(w.core, plan.request, ready, supported, now);
            var (f, reset) := Answered(plan.e, result, now);
            Inv(if reset then Reset(w.(exec := f, core := c), None, now) else w.(exec := f, core := c)))
  {
    hide Redirected, Advance, Reset, Stopped, Enqueue, LinkInv, UsedInv, OverInv, Quiet, Underway, ExecInv;
    assert ExecInv(w.exec);
    RedirectedMoves(w.exec, now);
    var e := Redirected(w.exec, now);
    var v := w.(exec := e);
    RestKeepsInv(w, e);
    var plan := Advance(e, now);
    AdvanceMoves(e, now);
    if plan.Rest? {
      RestKeepsInv(v, plan.e);
      hide Inv, Moves;
    } else {
      SubmitKeepsInv(v, plan.request, ready, supported, now);
      hide Inv, Moves, Submission;
      var result := Enqueue(w.core, plan.request, ready, supported, now).1;
      if !result.Accepted? && !result.QueueFull? {
        ResetOfStopped(v, EndpointChanged, now);
      }
    }
  }

  lemma StartKeepsInv(w: World, r: MoveRequest, activity: nat, now: nat)
    requires Inv(w) && Possible(w, StartMove(r, activity, now))
    ensures Inv(StartStep(w, r, activity, now))
  {
    hide CoreInv, CarriesFront, MayCarry, Balanced, Underway;
  }

  lemma ProceedKeepsInv(w: World)
    requires Inv(w)
    ensures Inv(w.(exec := Proceeded(w.exec))) && Inv(w.(exec := Cancelling(w.exec)))
  {
    FlagKeepsInv(w, Proceeded(w.exec));
    FlagKeepsInv(w, Cancelling(w.exec));
  }

  lemma FlagKeepsInv(w: World, f: Exec)
    requires Inv(w) && f == w.exec.(resumed := f.resumed, cancelled := f.cancelled)
    requires IsActive(w.exec) && w.exec.cancelled ==> f.cancelled
    requires !IsActive(w.exec) ==> f == w.exec
    ensures Inv(w.(exec := f))
  {
    hide CoreInv, CarriesFront, MayCarry, Balanced, Underway;
    if IsActive(w.exec) && w.exec.pending {
      FlagKeepsBusy(w, f);
    }
  }

  lemma FlagKeepsBusy(w: World, f: Exec)
    requires Underway(w) && f == w.exec.(resumed := f.resumed, cancelled := f.cancelled)
    ensures Underway(w.(exec := f))
  {
    SumSameRequest(w.exec, f, Unread(w));
    hide Sum, Finished, KindAt, Add;
  }

  // ---------------------------------------------------------------- other enqueues and the endpoint

  /** While no transaction runs, anything else may be asked of the mixer. */
  lemma OtherKeepsInv(w: World, r: Request, ready: bool, supported: bool, now: nat)
    requires Inv(w) && !IsActive(w.exec) && Apart(w, r.key)
    ensures Inv(w.(core := Enqueue(w.core, r, ready, supported, now).0))
  {
    hide ExecInv, Balanced, Underway, Quiet, Supersede, MayCarry, Expected, SchedInv;
    EnqueueKeepsInv(w.core, r, ready, supported, now);
    SupersedeShape(w.core, r.persistent);
    OtherShape(w.core, r, ready, supported, now);
    hide Enqueue, CoreInv;
    assert SchedInv(w.(core := Enqueue(w.core, r, ready, supported, now).0)) by {
      CoreSwap(w, Enqueue(w.core, r, ready, supported, now).0);
    }
  }

  lemma CoreSwap(w: World, c: Core)
    ensures SchedInv(w.(core := c)) == SchedInv(w)
  {
  }

  lemma MotionKeepsInv(w: World, c: Command, next: bv8, latest: bool, ready: bool, supported: bool, now: nat)
    requires Inv(w) && !IsActive(w.exec)
    ensures Inv(MotionStep(w, c, next, latest, ready, supported, now))
  {
    hide Inv, Enqueue, Onward;
    var r := MotionRequest(w.sched, c, next, latest);
    OtherKeepsInv(w, r, ready, supported, now);
    var v := w.(core := Enqueue(w.core, r, ready, supported, now).0);
    OnwardIfMasks(v.sched, next, w.core.generation);
    OnwardKeepsInv(v, v.sched.(persistent := next, tracked := w.core.generation));
  }

  lemma OnwardIfMasks(s: Sched, next: bv8, generation: nat)
    ensures Onward(s, s.(persistent := next, tracked := generation)) && Onward(s, s.(tracked := generation))
  {
  }

  lemma AdoptKeepsInv(w: World)
    requires Inv(w)
    ensures Inv(w.(sched := w.sched.(tracked := w.core.generation)))
  {
    hide Inv;
    OnwardIfMasks(w.sched, 0, w.core.generation);
    OnwardKeepsInv(w, w.sched.(tracked := w.core.generation));
  }

  /** What a turn asks for, or finishes, is the scheduler's own work. */
  lemma TurnShape(s: Sched, snapshot: Snapshot, now: nat, result: EnqueueResult)
    ensures var turn := PlanTick(s, snapshot, now);
      && (turn.AskRelease? ==>
            s.releasePending && !s.releaseInflight && turn.request == ReleaseRequest(s))
      && (turn.AskPress? || turn.AskLift? ==> s.work != [] && !s.releasePending && turn.request.key == s.work[0].key
                                              && ClickKind(turn.request.kind))
      && (turn.FinishActive? || turn.NeedReset? ==> s.work != [])
      && Onward(s, TurnAnswered(s, turn, result)) && (turn.FinishActive? ==> Onward(s, FinishFront(s, T.ButtonActive).0))
  {
    hide PlusButton, MinusButton, HasButton;
    if s.work != [] {
      FrontIsOnward(s, s.work[0].(phase := PressInflight));
      FrontIsOnward(s, s.work[0].(phase := ReleaseInflight));
      FrontIsOnward(s, s.work[0].(phase := AwaitRelease));
      FinishIsOnward(s, T.ButtonActive);
    }
    SameIsOnward(s);
    hide FrontAs, FinishFront, Onward;
  }

  lemma TurnKeepsInv(w: World, snapshot: Snapshot, now: nat, ready: bool, supported: bool)
    requires Inv(w)
    ensures Inv(TurnStep(w, snapshot, now, ready, supported))
  {
    hide LinkInv, UsedInv, ExecInv, OverInv, Underway, Quiet, PlanTick, Enqueue, TurnAnswered, FinishFront;
    var turn := PlanTick(w.sched, snapshot, now);
    TurnShape(w.sched, snapshot, now, Mixer.Accepted);
    PartsOfInv(w);
    if turn.NeedReset? {
      hide SchedInv;
      ResetEnds(w, None, now);
    } else if turn.FinishActive? {
      OnwardKeepsInv(w, FinishFront(w.sched, T.ButtonActive).0);
    } else if !turn.Wait? {
      AskKeepsInv(w, turn, snapshot, now, ready, supported);
    }
    hide Inv;
  }

  lemma AskKeepsInv(w: World, turn: Turn, snapshot: Snapshot, now: nat, ready: bool, supported: bool)
    requires Inv(w) && turn == PlanTick(w.sched, snapshot, now)
    requires turn.AskRelease? || turn.AskPress? || turn.AskLift?
    ensures var (c, result) := Enqueue(w.core, turn.request, ready, supported, now);
      if AnswerResets(turn, result) then Inv(Reset(w.(core := c), None, now))
      else Inv(w.(core := c, sched := TurnAnswered(w.sched, turn, result)))
  {
    hide LinkInv, UsedInv, ExecInv, OverInv, Underway, Quiet, PlanTick, Enqueue, TurnAnswered;
    var (c, result) := Enqueue(w.core, turn.request, ready, supported, now);
    TurnShape(w.sched, snapshot, now, result);
    OtherKeepsInv(w, turn.request, ready, supported, now);
    PartsOfInv(w.(core := c));
    OnwardKeepsInv(w.(core := c), TurnAnswered(w.sched, turn, result));
    hide SchedInv, Inv;
    ResetEnds(w.(core := c), None, now);
  }

  lemma AcceptKeepsInv(w: World, click: Click)
    requires Inv(w) && Possible(w, AcceptClick(click))
    ensures Inv(Step(w, AcceptClick(click)))
  {
    hide CoreInv, CarriesFront, MayCarry, Balanced, ExecInv;
  }

  lemma AcceptReleaseKeepsInv(w: World, key: Key, now: nat)
    requires Inv(w) && Possible(w, AcceptRelease(key, now))
    ensures Inv(Step(w, AcceptRelease(key, now)))
  {
    PartsOfInv(w);
    var v := w.(used := w.used + {key});
    UseKeepsParts(w, key);
    hide LinkInv, UsedInv, OverInv, SchedInv, Inv, Quiet;
    ResetEnds(v, Some(key), now);
  }

  lemma UseKeepsParts(w: World, key: Key)
    requires LinkInv(w) && UsedInv(w) && OverInv(w) && SchedInv(w)
    requires IsActive(w.exec) && !w.exec.pending ==> Quiet(w)
    requires key !in w.used && key != NoKey
    ensures var v := w.(used := w.used + {key});
      && LinkInv(v) && UsedInv(v) && OverInv(v) && SchedInv(v) && MayAttach(v, Some(key))
      && (IsActive(v.exec) && !v.exec.pending ==> Quiet(v))
  {
    hide CoreInv, CarriesFront, MayCarry, Balanced;
  }

  lemma LearnKeepsInv(w: World, layout: Profile)
    requires Inv(w)
    ensures Inv(w.(layout := layout))
  {
    hide CoreInv, CarriesFront, MayCarry, Balanced, ExecInv, StageEvents, StageItem, Remains, Sum;
    assert Unread(w.(layout := layout)) == Unread(w);
  }

  /** An enqueue keeps a prefix of the queue and may add the new item. */
  lemma OtherShape(c: Core, r: Request, ready: bool, supported: bool, now: nat)
    requires CoreInv(c)
    ensures var d := Enqueue(c, r, ready, supported, now).0;
      && d.generation == c.generation && d.inflight == c.inflight
      && (forall i :: 0 <= i < |d.queue| ==> d.queue[i] in c.queue || d.queue[i].key == r.key)
      && (c.inflight.Some? ==> d.queue != [] && c.queue != [] && d.queue[0] == c.queue[0])
  {
    hide Supersede, Either, Expected;
    SupersedeShape(c, r.persistent);
    var d := if r.latest then Supersede(c, r.persistent) else c;
    assert c.inflight.Some? ==> |d.queue| > 0;
  }

  lemma ArrivalKeepsInv(w: World, changed: bool)
    requires Inv(w)
    ensures Inv(w.(core := Arrive(w.core, changed)))
  {
    hide ExecInv, Balanced, StageItem, StageEvents, Remains, MayCarry, Sum;
    var v := w.(core := Arrive(w.core, changed));
    assert Unread(v) == Unread(w);
  }

  lemma LayoutKeepsInv(w: World, generation: nat)
    requires Inv(w) && generation > w.core.generation
    ensures Inv(w.(core := Invalidate(w.core, generation)))
  {
    hide ExecInv, Balanced, StageItem, StageEvents, Remains, MayCarry, Sum;
    var v := w.(core := Invalidate(w.core, generation));
    assert Unread(v) == Unread(w);
  }

  /** The queue a transaction is pending on, or has been quiet over, never expires. */
  lemma NothingExpires(w: World, now: nat)
    requires LinkInv(w) && ExecInv(w.exec) && ActiveInv(w) && IsActive(w.exec)
    ensures Expire(w.core, now) == w.core
  {
    hide CoreInv, CarriesFront, MayCarry, StageEvents, Remains, NoMotion, Sum;
    if w.core.queue != [] {
      assert w.exec.pending && StageItem(w.exec, w.core.queue[0]);
      PendingKind(w.exec);
      var front := Aged(w.core.queue[0], now);
      assert front == w.core.queue[0];
    }
  }

  /** Expiry keeps keys: what is left of the queue was there before. */
  lemma ExpireKeepsKeys(c: Core, now: nat)
    ensures var d := Expire(c, now);
      && d == c.(queue := d.queue) && |d.queue| <= |c.queue|
      && (forall i :: 0 <= i < |d.queue| ==> d.queue[i].key == c.queue[|c.queue| - |d.queue| + i].key)
  {
    ExpireShape(c, now);
    hide Expire, NeedsButtons, NoMotion;
  }

  lemma ExpiryKeepsInv(w: World, now: nat)
    requires Inv(w) && w.core.inflight.None?
    ensures Inv(w.(core := Expire(w.core, now)))
  {
    hide ExecInv, Balanced, StageEvents, StageItem, Remains, MayCarry, CarriesFront, Sum, CoreInv, Expire, Underway, Quiet;
    if IsActive(w.exec) {
      NothingExpires(w, now);
    } else {
      ExpireKeepsKeys(w.core, now);
      ExpireKeepsInv(w.core, now);
    }
  }

  lemma TakeKeepsInv(w: World, grab: Grab, now: nat)
    requires Inv(w) && Possible(w, Take(grab, now))
    ensures Inv(TakeStep(w, grab, now))
  {
    hide Inv, Expire, FrontUsable, MayCarry;
    ExpireKeepsKeys(w.core, now);
    ExpiryKeepsInv(w, now);
    var v := w.(core := Expire(w.core, now));
    if grab.Plain? {
      PlainKeepsInv(v, grab.generation, grab.unmerged);
    } else if grab.Carry? && v.core.queue != [] && MayCarry(v.core.queue[0], grab.applied) {
      CarryKeepsInv(v, grab.applied, grab.blocked, grab.final);
    }
    CarryNeedsFront(v.core);
  }

  lemma CarryNeedsFront(c: Core)
    ensures FrontUsable(c) ==> c.queue != []
  {
  }

  lemma PlainKeepsInv(w: World, generation: nat, final: bv8)
    requires Inv(w) && w.writer.None? && w.core.inflight.None? && generation <= w.core.generation
    ensures Inv(w.(writer := Some(Carried(generation, None, final))))
  {
    hide ExecInv, Balanced, StageEvents, StageItem, Remains, MayCarry, Sum, CoreInv;
    var v := w.(writer := Some(Carried(generation, None, final)));
    assert Unread(v) == Unread(w);
  }

  lemma CarryKeepsInv(w: World, applied: Command, blocked: bool, final: bv8)
    requires Inv(w) && w.writer.None? && w.core.inflight.None? && w.core.queue != []
    requires MayCarry(w.core.queue[0], applied)
    ensures Inv(w.(core := MarkInflight(w.core),
                   writer := Some(Carried(w.core.generation, Some(OverlayOf(w.core.queue[0], applied, blocked)), final))))
  {
    var v := w.(core := MarkInflight(w.core),
                writer := Some(Carried(w.core.generation, Some(OverlayOf(w.core.queue[0], applied, blocked)), final)));
    assert CoreInv(v.core) by {
      MarkKeepsInv(w.core);
    }
    hide ExecInv, Balanced, StageEvents, Remains, MayCarry, Sum, CoreInv, Finished, NoMotion;
    assert LinkInv(v);
    hide LinkInv;
    assert Unread(v) == Unread(w);
  }

  // ---------------------------------------------------------------- completions

  /** The queue after a completion. */
  function QueueAfter(w: World, success: bool): seq<Item>
    requires LinkInv(w)
  {
    if w.core.inflight.None? || !success then w.core.queue
    else
      var item := Committed(w.core.queue[0], w.writer.value.overlay.value);
      if Finished(item) then w.core.queue[1..] else [item] + w.core.queue[1..]
  }

  predicate FinishesItem(w: World, success: bool)
    requires LinkInv(w)
  {
    success && w.core.inflight.Some? && Finished(Committed(w.core.queue[0], w.writer.value.overlay.value))
  }

  lemma FinishShape(w: World, success: bool, now: nat)
    requires LinkInv(w) && w.writer.Some?
    ensures var v := FinishStep(w, success, now);
      && LinkInv(v) && v.core.inflight.None? && v.writer.None? && v.core.generation == w.core.generation
      && v.core.queue == QueueAfter(w, success)
      && Complete(w.core, w.writer.value.generation, w.writer.value.overlay, success) == (v.core, FinishesItem(w, success))
  {
    var r := w.writer.value;
    CompleteShape(w.core, r.generation, r.overlay, success);
    CompleteKeepsInv(w.core, r.generation, r.overlay, success);
    hide Complete, CoreInv, Committed, Finished, MayCarry;
  }

  /** The event a completion posts, if it is posted. */
  function PostedEvent(w: World, success: bool, now: nat): WriterEvent
    requires LinkInv(w) && w.writer.Some?
  {
    var r := w.writer.value;
    EventOf(r.generation, r.overlay, r.final, success, FinishesItem(w, success), now)
  }

  lemma PostShape(w: World, success: bool, now: nat)
    requires LinkInv(w) && w.writer.Some?
    ensures var v := FinishStep(w, success, now);
      && v.exec == w.exec && v.batch == w.batch && v.reading == w.reading && v.used == w.used
      && (if w.writer.value.generation != w.core.generation || !Reported(KindOf(w.writer.value.overlay), success) then
            v.queue == w.queue && v.overflow == w.overflow
          else if |w.queue| >= MAX_EVENTS then v.queue == w.queue && v.overflow
          else v.queue == w.queue + [PostedEvent(w, success, now)] && v.overflow == w.overflow)
      && v.lost == (w.lost || (success && CarriesMine(w) && v.queue == w.queue))
      && (!(success && CarriesMine(w)) ==> v.wrote == w.wrote)
      && (success && CarriesMine(w) ==>
            var o := w.writer.value.overlay.value; v.wrote == Add(w.wrote, Writes(o.kind, o.applied.x, o.applied.y)))
  {
    FinishShape(w, success, now);
    hide LinkInv, Complete, Reported, EventOf, Add, Writes;
  }

  lemma PostedKey(w: World, success: bool, now: nat)
    requires LinkInv(w) && w.writer.Some?
    ensures var key := PostedEvent(w, success, now).key;
      key == if w.writer.value.overlay.Some? then w.writer.value.overlay.value.key else NoKey
  {
  }

  lemma QueueAfterKeys(w: World, success: bool)
    requires LinkInv(w)
    ensures var left := QueueAfter(w, success);
      && |w.core.queue| - 1 <= |left| <= |w.core.queue|
      && forall i :: 0 <= i < |left| ==> left[i].key == w.core.queue[|w.core.queue| - |left| + i].key
  {
    hide Finished, MayCarry, CoreInv;
    if w.core.inflight.Some? && success {
      var left := QueueAfter(w, success);
      assert left == w.core.queue[1..]
             || left == [Committed(w.core.queue[0], w.writer.value.overlay.value)] + w.core.queue[1..];
    }
  }

  lemma FinishKeepsUsed(w: World, success: bool, now: nat)
    requires LinkInv(w) && UsedInv(w) && w.writer.Some?
    ensures UsedInv(FinishStep(w, success, now))
  {
    FinishShape(w, success, now);
    PostShape(w, success, now);
    PostedKey(w, success, now);
    QueueAfterKeys(w, success);
    hide FinishStep, LinkInv, QueueAfter, PostedEvent, Reported, KindOf;
  }

  /** After the end only an uncertain transaction's report may still be in the writer. */
  lemma FinishKeepsOver(w: World, success: bool, now: nat)
    requires LinkInv(w) && OverInv(w) && w.writer.Some?
    ensures OverInv(FinishStep(w, success, now))
  {
    FinishShape(w, success, now);
    PostShape(w, success, now);
    QueueAfterKeys(w, success);
    hide FinishStep, LinkInv, QueueAfter, PostedEvent, Reported, KindOf, Balanced, Complete;
  }

  lemma FinishKeepsQuiet(w: World, success: bool, now: nat)
    requires LinkInv(w) && Quiet(w) && w.writer.Some? && w.exec.request.key != NoKey
    ensures Quiet(FinishStep(w, success, now))
  {
    FinishShape(w, success, now);
    PostShape(w, success, now);
    PostedKey(w, success, now);
    hide FinishStep, PostedEvent, Reported, KindOf, Complete, CoreInv, MayCarry, CarriesFront, Acknowledged;
  }

  lemma AppendOther(e: Exec, events: seq<WriterEvent>, ev: WriterEvent)
    requires StageEvents(e, events) && ev.key != e.request.key
    ensures StageEvents(e, events + [ev]) && Sum(e, events + [ev]) == Sum(e, events)
  {
    SumAppend(e, events, ev);
    AddNought(Sum(e, events));
    hide Sum, Add, KindAt;
  }

  /** A report of something else, or a plain one, completes while the transaction's item waits. */
  lemma FinishOther(w: World, success: bool, now: nat)
    requires LinkInv(w) && UsedInv(w) && Underway(w) && w.writer.Some? && !CarriesMine(w) && w.exec.request.key != NoKey
    ensures Underway(FinishStep(w, success, now))
  {
    NotMineNotInflight(w);
    FinishShape(w, success, now);
    PostShape(w, success, now);
    PostedKey(w, success, now);
    var v := FinishStep(w, success, now);
    var ev := PostedEvent(w, success, now);
    hide FinishStep, PostedEvent, Reported, KindOf, Complete, LinkInv, StageItem, Remains, Acknowledged, UsedInv,
         Sum, Add, StageEvents;
    if v.queue == w.queue {
      assert Unread(v) == Unread(w);
    } else {
      assert Unread(v) == Unread(w) + [ev];
      AppendOther(w.exec, Unread(w), ev);
    }
  }

  lemma NotMineNotInflight(w: World)
    requires LinkInv(w) && Underway(w) && !CarriesMine(w)
    ensures w.core.inflight.None?
  {
    hide CoreInv, MayCarry, StageEvents, Remains;
  }

  /** A completion for an older layout is not reported; its displacement is lost, and the layout says so. */
  lemma FinishStale(w: World, success: bool, now: nat)
    requires LinkInv(w) && Underway(w) && CarriesMine(w) && w.core.inflight.None?
    ensures Underway(FinishStep(w, success, now))
  {
    FinishShape(w, success, now);
    PostShape(w, success, now);
    var v := FinishStep(w, success, now);
    hide FinishStep, PostedEvent, Reported, KindOf, Complete, LinkInv, StageItem, Remains, Acknowledged, Sum, Add,
         StageEvents;
    assert Unread(v) == Unread(w);
    assert w.core.queue == [];
  }

  /** What the transaction's report in the writer settles when it succeeds. */
  lemma FrontSettles(e: Exec, item: Item, o: Overlay)
    requires StageItem(e, item) && MayCarry(item, o.applied) && o == OverlayOf(item, o.applied, o.blocked)
    ensures var next := Committed(item, o);
      && (!Finished(next) ==> StageItem(e, next) && !IsButtonEdge(item.kind))
      && (Finished(next) ==> o.applied.x == item.remaining.x && o.applied.y == item.remaining.y)
      && next.remaining.x == item.remaining.x - o.applied.x && next.remaining.y == item.remaining.y - o.applied.y
  {
  }

  /** The event such a report posts. */
  lemma FrontEvent(w: World, success: bool, now: nat)
    requires LinkInv(w) && Underway(w) && CarriesMine(w) && w.core.inflight.Some?
    ensures var ev := PostedEvent(w, success, now);
      var o := w.writer.value.overlay.value;
      && w.core.queue == [w.core.queue[0]] && StageItem(w.exec, w.core.queue[0])
      && MayCarry(w.core.queue[0], o.applied) && o == OverlayOf(w.core.queue[0], o.applied, o.blocked)
      && Mine(w.exec, ev) && ev.kind == KindAt(w.exec.ack.stage) == o.kind && ev.success == success
      && ev.dx == o.applied.x && ev.dy == o.applied.y && ev.finished == FinishesItem(w, success)
      && w.core.generation == w.writer.value.generation
  {
    hide CoreInv, StageEvents, Remains, Finished, Sum, KindAt;
  }

  predicate PostsMine(w: World) {
    IsTransaction(KindAt(w.exec.ack.stage))
  }

  /** A failed report of the transaction: the item waits again and the failure is unread, or overflows. */
  lemma FrontFails(w: World, now: nat)
    requires LinkInv(w) && UsedInv(w) && Underway(w) && CarriesMine(w) && w.core.inflight.Some? && PostsMine(w)
    ensures Underway(FinishStep(w, false, now))
  {
    hide FinishStep, PostedEvent, Reported, KindOf, Complete, LinkInv, StageItem, Remains, Acknowledged, UsedInv,
         MayCarry, KindAt, Sum, Add;
    FrontEvent(w, false, now);
    FinishShape(w, false, now);
    PostShape(w, false, now);
    var v := FinishStep(w, false, now);
    var ev := PostedEvent(w, false, now);
    if v.queue == w.queue {
      assert Unread(v) == Unread(w);
    } else {
      assert Unread(v) == Unread(w) + [ev];
      SumAppend(w.exec, Unread(w), ev);
      AddNought(Sum(w.exec, Unread(w)));
      AppendStageEvent(w.exec, Unread(w), ev);
      hide StageEvents;
    }
  }

  lemma AppendStageEvent(e: Exec, events: seq<WriterEvent>, ev: WriterEvent)
    requires StageEvents(e, events) && Unfinished(e, events) && Mine(e, ev) && ev.kind == KindAt(e.ack.stage)
    requires (ev.finished ==> ev.success) && (ev.success && IsButtonEdge(ev.kind) ==> ev.finished)
    ensures StageEvents(e, events + [ev])
  {
    hide KindAt;
  }

  lemma RemainsAfter(e: Exec, wrote: Tally, x: int, y: int, ax: int, ay: int)
    requires Remains(e, wrote, x, y)
    ensures Remains(e, Add(wrote, Writes(KindAt(e.ack.stage), ax, ay)), x - ax, y - ay)
  {
  }

  /** The transaction's report is written but its event overflows: the displacement is lost until the reset. */
  lemma FrontIsLost(w: World, now: nat)
    requires LinkInv(w) && UsedInv(w) && Underway(w) && CarriesMine(w) && w.core.inflight.Some? && PostsMine(w)
    requires |w.queue| >= MAX_EVENTS
    ensures Underway(FinishStep(w, true, now))
  {
    FrontEvent(w, true, now);
    FinishShape(w, true, now);
    PostShape(w, true, now);
    FrontSettles(w.exec, w.core.queue[0], w.writer.value.overlay.value);
    var v := FinishStep(w, true, now);
    hide FinishStep, PostedEvent, Complete, StageItem, Remains, Acknowledged, UsedInv, MayCarry, KindAt,
         Sum, StageEvents, CoreInv, Committed, Finished;
    assert Unread(v) == Unread(w);
  }

  /** The transaction's report is written and its event is queued. */
  lemma FrontIsReported(w: World, now: nat)
    requires LinkInv(w) && UsedInv(w) && Underway(w) && CarriesMine(w) && w.core.inflight.Some? && PostsMine(w)
    requires |w.queue| < MAX_EVENTS
    ensures Underway(FinishStep(w, true, now))
  {
    FrontEvent(w, true, now);
    FinishShape(w, true, now);
    PostShape(w, true, now);
    var o := w.writer.value.overlay.value;
    var item := w.core.queue[0];
    FrontSettles(w.exec, item, o);
    var v := FinishStep(w, true, now);
    var ev := PostedEvent(w, true, now);
    assert v.queue == w.queue + [ev];
    assert Unread(v) == Unread(w) + [ev];
    assert Unfinished(w.exec, Unread(w));
    SumAppend(w.exec, Unread(w), ev);
    AppendStageEvent(w.exec, Unread(w), ev);
    AddAssociates(Acknowledged(w.exec), Sum(w.exec, Unread(w)), Unacknowledged(w.exec, ev));
    if !w.lost {
      RemainsAfter(w.exec, w.wrote, item.remaining.x, item.remaining.y, o.applied.x, o.applied.y);
    }
    hide FinishStep, PostedEvent, Complete, StageItem, Remains, Acknowledged, MayCarry, KindAt,
         Sum, Add, StageEvents, CoreInv, Finished, Writes;
  }

  lemma FinishKeepsInv(w: World, success: bool, now: nat)
    requires Inv(w) && w.writer.Some?
    ensures Inv(FinishStep(w, success, now))
  {
    FinishKeepsUsed(w, success, now);
    FinishKeepsOver(w, success, now);
    FinishShape(w, success, now);
    PostShape(w, success, now);
    hide FinishStep, UsedInv, LinkInv, OverInv, Quiet, Underway, Complete, QueueAfter, PostedEvent, ExecInv;
    if IsActive(w.exec) {
      ActiveHasKey(w.exec);
      if !w.exec.pending {
        FinishKeepsQuiet(w, success, now);
      } else {
        PendingKind(w.exec);
        if !CarriesMine(w) {
          FinishOther(w, success, now);
        } else if w.core.inflight.None? {
          FinishStale(w, success, now);
        } else if !success {
          FrontFails(w, now);
        } else if |w.queue| >= MAX_EVENTS {
          FrontIsLost(w, now);
        } else {
          FrontIsReported(w, now);
        }
      }
    }
  }
}
