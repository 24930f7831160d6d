/**
 What ends an owed release: a report with its key, fully written since the release became owed. The one exception is
 a success of an earlier release with the same key, posted but not read when it became owed.
 */
module OwedRelease {
  import opened Common
  import opened MoveTypes
  import opened Mixer
  import opened Executor
  import opened ClickScheduler
  import opened TransactionLoop
  import opened TransactionSteps
  import opened TransactionRun
  import opened ReleaseRun
  import T = ClickTypes

  /** An event that ends a release owed under a key, once its report is asked for. */
  predicate Ends(ev: WriterEvent, key: Key) {
    ev.kind.ReleaseAll? && ev.success && ev.key == key
  }

  /** The step fully writes a report of the release, without a synthetic button. */
  predicate WritesRelease(w: World, l: Label, key: Key) {
    l.Finish? && l.success && CarriesRelease(w) && w.writer.value.overlay.value.key == key
  }

  /** Some step of the run from `w` does. */
  ghost predicate WrittenIn(w: World, labels: seq<Label>, key: Key) {
    exists i :: 0 <= i < |labels| && WritesRelease(Run(w, labels[..i]), labels[i], key)
  }

  /** An event before place `i` failed, and reading it resets. */
  predicate Shielded(events: seq<WriterEvent>, i: nat)
    requires i <= |events|
  {
    exists j :: 0 <= j < i && !events[j].success
  }

  /** A success for the key that nothing before it makes void. */
  predicate Stale(events: seq<WriterEvent>, key: Key) {
    exists i :: 0 <= i < |events| && Ends(events[i], key) && !Shielded(events, i)
  }

  /** No success that is still unread can end a release owed under the key. */
  ghost predicate Spent(w: World, key: Key) {
    && (w.sched.releaseInflight && w.sched.releaseKey == key ==> !Stale(w.batch, key))
    && !Stale(w.queue, key)
  }

  // ---------------------------------------------------------------- every step keeps it

  lemma NothingStale(key: Key)
    ensures !Stale([], key)
  {
  }

  lemma TailIsStale(events: seq<WriterEvent>, key: Key)
    requires events != [] && events[0].success && Stale(events[1..], key)
    ensures Stale(events, key)
  {
    var i :| 0 <= i < |events| - 1 && Ends(events[1..][i], key) && !Shielded(events[1..], i);
    assert events[i + 1] == events[1..][i];
    forall j | 0 <= j < i + 1
      ensures events[j].success
    {
      assert j > 0 ==> events[1..][j - 1] == events[j];
    }
  }

  lemma FirstIsStale(events: seq<WriterEvent>, key: Key)
    requires events != [] && Ends(events[0], key)
    ensures Stale(events, key)
  {
    assert !Shielded(events, 0);
  }

  lemma PostedIsStale(events: seq<WriterEvent>, ev: WriterEvent, key: Key)
    requires Stale(events + [ev], key) && !Ends(ev, key)
    ensures Stale(events, key)
  {
    var all := events + [ev];
    var i :| 0 <= i < |all| && Ends(all[i], key) && !Shielded(all, i);
    assert i < |events| && all[i] == events[i];
    assert forall j :: 0 <= j < i ==> all[j] == events[j];
  }

  /** What reading a success does to the release owed. */
  lemma SettledRelease(s: Sched, ev: WriterEvent)
    ensures var t := Settled(s, ev).0;
      if EndsRelease(s, ev) then !t.releasePending && !t.releaseInflight && t.releaseKey == NoKey
      else t.releasePending == s.releasePending && t.releaseInflight == s.releaseInflight && t.releaseKey == s.releaseKey
  {
    hide HasButton, Pressed, Rearmed;
  }

  lemma DeliverKeepsSpent(w: World, now: nat, key: Key)
    requires Spent(w, key) && w.batch != []
    ensures Spent(DeliverStep(w, now), key)
  {
    hide Delivered, Settled, Stopped, Stale;
    var ev := w.batch[0];
    SettledRelease(w.sched, ev);
    if ev.success && w.sched.releaseInflight && w.sched.releaseKey == key && Stale(w.batch[1..], key) {
      TailIsStale(w.batch, key);
    }
  }

  /** The steps that read nothing and complete nothing. */
  predicate Silent(l: Label) {
    !l.ReadEvents? && !l.DeliverOne? && !l.Finish?
  }

  /** They leave the unread events, and ask for a release only when nothing is being read. */
  lemma SilentKeeps(w: World, l: Label)
    requires Silent(l) && (!w.reading ==> w.batch == [])
    ensures var v := Step(w, l);
      && v.batch == w.batch && v.queue == w.queue
      && (w.batch != [] ==> v.sched == w.sched || !v.sched.releaseInflight)
  {
    hide TickStep, TurnStep, MotionStep, TakeStep, Reset, Stopped, FreshClick;
    if Possible(w, l) {
      match l
      case Tick(snapshot, now, ready, supported) => TickReadsNothing(w, snapshot, now, ready, supported);
      case ClickTurn(snapshot, now, ready, supported) => TurnReadsNothing(w, snapshot, now, ready, supported);
      case Motion(command, next, latest, ready, supported, now) =>
        MotionWrites(w, command, next, latest, ready, supported, now);
      case CheckOverflow(now) => ResetReadsNothing(w.(reading := false, overflow := false), None, now);
      case ResetAll(now) => ResetReadsNothing(w, None, now);
      case AcceptRelease(k, now) => ResetReadsNothing(w.(used := w.used + {k}), Some(k), now);
      case Take(grab, now) => TakeReadsNothing(w, grab, now);
      case _ =>
    }
  }

  lemma ResetReadsNothing(w: World, attach: Option<Key>, now: nat)
    ensures var v := Reset(w, attach, now); v.batch == w.batch && v.queue == w.queue && !v.sched.releaseInflight
  {
    hide Stopped;
  }

  lemma TickReadsNothing(w: World, snapshot: Snapshot, now: nat, ready: bool, supported: bool)
    ensures var v := TickStep(w, snapshot, now, ready, supported); v.batch == w.batch && v.queue == w.queue
  {
    hide Planned, Enqueue, Answered, Stopped;
  }

  lemma TurnReadsNothing(w: World, snapshot: Snapshot, now: nat, ready: bool, supported: bool)
    ensures var v := TurnStep(w, snapshot, now, ready, supported); v.batch == w.batch && v.queue == w.queue
  {
    hide PlanTick, Enqueue, TurnAnswered, FinishFront, Stopped;
  }

  lemma TakeReadsNothing(w: World, grab: Grab, now: nat)
    ensures var v := TakeStep(w, grab, now); v.batch == w.batch && v.queue == w.queue && v.sched == w.sched
  {
    hide Taken;
  }

  /** A completion posts a success for the key only when it writes the release. */
  lemma FinishKeepsSpent(w: World, success: bool, now: nat, key: Key)
    requires LinkInv(w) && ReleaseInv(w) && Spent(w, key) && w.writer.Some?
    requires !WritesRelease(w, Finish(success, now), key)
    ensures Spent(FinishStep(w, success, now), key)
  {
    var v := FinishStep(w, success, now);
    PostShape(w, success, now);
    FinishKeepsOwed(w, success, now);
    var ev := PostedEvent(w, success, now);
    PostedIsOther(w, success, now, key);
    hide FinishStep, LinkInv, PostedEvent, Reported, KindOf, Ends, Stale;
    if v.queue == w.queue + [ev] && Stale(v.queue, key) {
      PostedIsStale(w.queue, ev, key);
    }
  }

  lemma PostedIsOther(w: World, success: bool, now: nat, key: Key)
    requires LinkInv(w) && ReleaseInv(w) && w.writer.Some? && !WritesRelease(w, Finish(success, now), key)
    ensures !Ends(PostedEvent(w, success, now), key)
  {
    hide FinishesItem, LinkInv;
  }

  lemma StepKeepsSpent(w: World, l: Label, key: Key)
    requires Inv(w) && ReleaseInv(w) && Spent(w, key) && !WritesRelease(w, l, key)
    ensures Spent(Step(w, l), key)
  {
    hide Inv, LinkInv, UsedInv, OverInv, SchedInv, Quiet, ReleaseInv, Stale, DeliverStep, FinishStep, WritesRelease;
    PartsOfInv(w);
    BatchIsEmpty(w);
    NothingStale(key);
    if Silent(l) {
      SilentKeeps(w, l);
      hide Step;
      if w.batch == [] {
        assert !Stale(w.batch, key);
      }
    } else if Possible(w, l) {
      match l
      case ReadEvents =>
      case DeliverOne(now) => DeliverKeepsSpent(w, now, key);
      case Finish(success, now) => FinishKeepsSpent(w, success, now, key);
    }
  }

  lemma BatchIsEmpty(w: World)
    requires Inv(w)
    ensures !w.reading ==> w.batch == []
  {
  }

  // ---------------------------------------------------------------- every run

  lemma FirstWrites(w: World, labels: seq<Label>, key: Key)
    requires labels != []
    ensures WritesRelease(w, labels[0], key) ==> WrittenIn(w, labels, key)
    ensures WrittenIn(Step(w, labels[0]), labels[1..], key) ==> WrittenIn(w, labels, key)
  {
    hide Step, WritesRelease;
    if WritesRelease(w, labels[0], key) {
      assert labels[..0] == [];
      assert WritesRelease(Run(w, labels[..0]), labels[0], key);
    }
    var rest := labels[1..];
    if i :| 0 <= i < |rest| && WritesRelease(Run(Step(w, labels[0]), rest[..i]), rest[i], key) {
      assert labels[..i + 1] == [labels[0]] + rest[..i];
      assert labels[..i + 1][1..] == rest[..i];
      assert WritesRelease(Run(w, labels[..i + 1]), labels[i + 1], key);
    }
  }

  lemma {:induction false} RunKeepsSpent(w: World, labels: seq<Label>, key: Key)
    requires Inv(w) && ReleaseInv(w) && Spent(w, key) && !WrittenIn(w, labels, key)
    ensures Spent(Run(w, labels), key)
    decreases |labels|
  {
    hide Inv, ReleaseInv, Spent, Step, WritesRelease, WrittenIn;
    if labels != [] {
      FirstWrites(w, labels, key);
      StepKeepsInv(w, labels[0]);
      StepKeepsReleases(w, labels[0]);
      StepKeepsSpent(w, labels[0], key);
      RunKeepsSpent(Step(w, labels[0]), labels[1..], key);
    }
  }

  /** The event that ends an owed release is a success for its key, read while its report was asked for. */
  lemma EndIsStale(w: World, key: Key)
    requires EndsOwedRelease(w) && w.sched.releaseKey == key
    ensures w.sched.releaseInflight && Stale(w.batch, key)
    ensures key.session != 0 ==> Settled(w.sched, w.batch[0]).1 == [Ended(key, T.Completed)]
  {
    SettledRelease(w.sched, w.batch[0]);
    FirstIsStale(w.batch, key);
  }

  /**
   In every run, for a ReleaseAll and for what a reset owes: unless a success for the key is still unread, the release
   ends only after a report with its key, and without a synthetic button, was fully written since.
   */
  lemma OwedIsWrittenSince(generation: nat, before: seq<Label>, after: seq<Label>, key: Key)
    requires Spent(Reached(generation, before), key)
    requires var v := Run(Reached(generation, before), after); EndsOwedRelease(v) && v.sched.releaseKey == key
    ensures WrittenIn(Reached(generation, before), after, key)
  {
    hide Inv, ReleaseInv, Reached, Run, WrittenIn, EndsOwedRelease;
    var w := Reached(generation, before);
    ReachedInv(generation, before);
    ReachedReleases(generation, before);
    EndIsStale(Run(w, after), key);
    if !WrittenIn(w, after, key) {
      RunKeepsSpent(w, after, key);
    }
  }

  lemma NothingUnreadIsSpent(w: World, key: Key)
    requires forall ev :: ev in Unread(w) ==> !Ends(ev, key)
    ensures Spent(w, key)
  {
    hide Ends;
    assert forall i :: 0 <= i < |w.batch| ==> w.batch[i] in Unread(w);
    assert forall i :: 0 <= i < |w.queue| ==> w.queue[i] == Unread(w)[|w.batch| + i];
  }

  /** So a ReleaseAll ends only after its report was written since it was accepted: its key is fresh. */
  lemma ReleaseCompletesWritten(generation: nat, before: seq<Label>, key: Key, now: nat, after: seq<Label>)
    requires Possible(Reached(generation, before), AcceptRelease(key, now))
    requires var v := Run(Step(Reached(generation, before), AcceptRelease(key, now)), after);
      EndsOwedRelease(v) && v.sched.releaseKey == key
    ensures WrittenIn(Step(Reached(generation, before), AcceptRelease(key, now)), after, key)
  {
    hide Reached, Run, Step, Possible, Spent, WrittenIn, EndsOwedRelease, Inv;
    var l := AcceptRelease(key, now);
    ReachedInv(generation, before);
    FreshIsSpent(Reached(generation, before), key, now);
    SameReached(generation, before, l);
    OwedIsWrittenSince(generation, before + [l], after, key);
  }

  lemma SameReached(generation: nat, before: seq<Label>, l: Label)
    ensures Reached(generation, before + [l]) == Step(Reached(generation, before), l)
  {
    hide Step;
    RunParts(TransactionLoop.Begin(generation), before, [l]);
    assert [l][1..] == [];
  }

  lemma FreshIsSpent(w: World, key: Key, now: nat)
    requires Inv(w) && Possible(w, AcceptRelease(key, now))
    ensures Spent(Step(w, AcceptRelease(key, now)), key)
  {
    var v := Step(w, AcceptRelease(key, now));
    hide LinkInv, ExecInv, ActiveInv, OverInv, SchedInv, Stopped;
    assert v.batch == w.batch == [] && v.queue == w.queue;
    assert forall ev :: ev in Unread(v) ==> !Ends(ev, key);
    NothingUnreadIsSpent(v, key);
  }

  // ---------------------------------------------------------------- the exception

  /** Nothing active, and a release owed under the key. */
  predicate Waiting(w: World, key: Key) {
    Owed(w) && w.sched.releaseKey == key && !IsActive(w.exec)
  }

  lemma InactiveHears(e: Exec, ev: WriterEvent)
    requires !IsActive(e)
    ensures Delivered(e, ev) == e
  {
  }

  lemma ResetWaits(w: World, now: nat)
    requires !IsActive(w.exec)
    ensures Waiting(Reset(w, None, now), w.sched.releaseKey)
  {
  }

  function Deliveries(n: nat): seq<Label> {
    if n == 0 then [] else [DeliverOne(0)] + Deliveries(n - 1)
  }

  predicate CompletesNothing(labels: seq<Label>) {
    forall i :: 0 <= i < |labels| ==> !labels[i].Finish?
  }

  lemma {:induction false} DeliveriesComplete(n: nat)
    ensures |Deliveries(n)| == n && CompletesNothing(Deliveries(n))
  {
    if n > 0 {
      DeliveriesComplete(n - 1);
    }
  }

  lemma DeliverWaits(w: World, key: Key)
    requires w.reading && w.batch != [] && Waiting(w, key)
    ensures var v := Step(w, DeliverOne(0));
      Waiting(v, key) && v.reading && v.batch == w.batch[1..] && v.queue == w.queue
  {
    hide Delivered, Settled, Reset;
    InactiveHears(w.exec, w.batch[0]);
    SettledRelease(w.sched, w.batch[0]);
    var u := w.(exec := Delivered(w.exec, w.batch[0]), batch := w.batch[1..]);
    ResetWaits(u, 0);
    ResetReadsNothing(u, None, 0);
    ResetKeepsReading(u, 0);
  }

  lemma ResetKeepsReading(w: World, now: nat)
    ensures Reset(w, None, now).reading == w.reading
  {
    hide Stopped;
  }

  /** Whatever was fetched before is read in vain: no report of the new release was asked for yet. */
  lemma {:induction false} BatchIsVain(w: World, key: Key)
    requires w.reading && Waiting(w, key)
    ensures var v := Run(w, Deliveries(|w.batch|));
      Waiting(v, key) && v.reading && v.batch == [] && v.queue == w.queue
    decreases |w.batch|
  {
    hide Step, Waiting;
    if w.batch != [] {
      DeliverWaits(w, key);
      var rest := Deliveries(|w.batch| - 1);
      assert ([DeliverOne(0)] + rest)[1..] == rest;
      BatchIsVain(Step(w, DeliverOne(0)), key);
    }
  }

  /** The end of the pass in which the release became owed. */
  function EndOfPass(w: World): seq<Label> {
    if w.reading then Deliveries(|w.batch|) + [CheckOverflow(0)] else []
  }

  lemma PassEnds(w: World, key: Key)
    requires Waiting(w, key) && (!w.reading ==> w.batch == [])
    ensures var v := Run(w, EndOfPass(w));
      Waiting(v, key) && !v.reading && v.batch == [] && v.queue == w.queue
    ensures CompletesNothing(EndOfPass(w))
  {
    hide Waiting, Step;
    if w.reading {
      BatchIsVain(w, key);
      DeliveriesComplete(|w.batch|);
      var u := Run(w, Deliveries(|w.batch|));
      RunParts(w, Deliveries(|w.batch|), [CheckOverflow(0)]);
      RunsOne(u, CheckOverflow(0));
      CheckWaits(u, key);
    }
  }

  lemma RunsOne(w: World, l: Label)
    ensures Run(w, [l]) == Step(w, l)
  {
    hide Step;
    assert [l][1..] == [];
  }

  lemma CheckWaits(w: World, key: Key)
    requires Waiting(w, key) && w.reading && w.batch == []
    ensures var v := Step(w, CheckOverflow(0)); Waiting(v, key) && !v.reading && v.batch == [] && v.queue == w.queue
  {
    hide Reset;
    var u := w.(reading := false, overflow := false);
    ResetWaits(u, 0);
    ResetReadsNothing(u, None, 0);
    ResetKeepsReading(u, 0);
  }

  const SEEN: Snapshot := Snapshot(true, 1, 0, 0, 0, 0, 0, 0, 0, 0, 0, 0, 0, 0)

  /** The report of the release is asked for, and the next pass fetches the events. */
  lemma AskedAndFetched(w: World, key: Key)
    requires Waiting(w, key) && !w.reading && w.batch == []
    ensures var v := Run(w, [ClickTurn(SEEN, 0, true, true), ReadEvents]);
      && v.reading && v.batch == w.queue && !IsActive(v.exec)
      && v.sched.releasePending && v.sched.releaseInflight && v.sched.releaseKey == key
  {
    var u := Step(w, ClickTurn(SEEN, 0, true, true));
    assert PlanTick(w.sched, SEEN, 0) == AskRelease(ReleaseRequest(w.sched));
    TakenUp(w.core, w.sched);
    hide Enqueue, PlanTick;
    assert u.sched == w.sched.(releaseInflight := true) && u.exec == w.exec && u.queue == w.queue && !u.reading;
    hide Step;
    assert [ClickTurn(SEEN, 0, true, true), ReadEvents][1..] == [ReadEvents];
    RunsOne(u, ReadEvents);
    ReadsAll(u);
  }

  lemma TakenUp(c: Core, s: Sched)
    requires c.queue == []
    ensures Enqueue(c, ReleaseRequest(s), true, true, 0).1.Accepted?
  {
    hide NewItem;
  }

  lemma ReadsAll(w: World)
    requires !w.reading
    ensures Step(w, ReadEvents) == w.(batch := w.queue, queue := [], reading := true)
  {
  }

  /** Successes of other things are read, up to the old success. */
  lemma {:induction false} OthersAreRead(w: World, key: Key, n: nat)
    requires w.reading && n <= |w.batch| && !IsActive(w.exec)
    requires w.sched.releasePending && w.sched.releaseInflight && w.sched.releaseKey == key
    requires forall j :: 0 <= j < n ==> w.batch[j].success && !Ends(w.batch[j], key)
    ensures var v := Run(w, Deliveries(n));
      && v.reading && v.batch == w.batch[n..] && v.sched.releasePending && v.sched.releaseInflight
      && v.sched.releaseKey == key
    decreases n
  {
    if n > 0 {
      var v := Step(w, DeliverOne(0));
      InactiveHears(w.exec, w.batch[0]);
      SettledRelease(w.sched, w.batch[0]);
      hide Delivered, Settled, Ends;
      assert v.batch == w.batch[1..] && v.exec == w.exec;
      hide Step;
      OthersAreRead(v, key, n - 1);
      var rest := Deliveries(n - 1);
      assert ([DeliverOne(0)] + rest)[1..] == rest;
      assert w.batch[1..][n - 1..] == w.batch[n..];
    }
  }

  /** The first stale success. */
  lemma FirstStale(events: seq<WriterEvent>, key: Key) returns (i: nat)
    requires Stale(events, key)
    ensures i < |events| && Ends(events[i], key)
    ensures forall j :: 0 <= j < i ==> events[j].success && !Ends(events[j], key)
  {
    i :| 0 <= i < |events| && Ends(events[i], key) && !Shielded(events, i);
    assert forall j :: 0 <= j < i ==> events[j].success;
    ghost var n := i;
    i := 0;
    while !Ends(events[i], key)
      invariant i <= n && forall j :: 0 <= j < i ==> !Ends(events[j], key)
      decreases n - i
    {
      i := i + 1;
    }
  }

  lemma StaleEnds(w: World, key: Key)
    requires Waiting(w, key) && (!w.reading ==> w.batch == []) && Stale(w.queue, key)
    ensures exists after: seq<Label> ::
      && CompletesNothing(after) && EndsOwedRelease(Run(w, after)) && Run(w, after).sched.releaseKey == key
  {
    hide Waiting, Step, Run, Stale;
    var i := FirstStale(w.queue, key);
    PassEnds(w, key);
    var u := Run(w, EndOfPass(w));
    var ask := [ClickTurn(SEEN, 0, true, true), ReadEvents];
    AskedAndFetched(u, key);
    var v := Run(u, ask);
    OthersAreRead(v, key, i);
    DeliveriesComplete(i);
    var x := Run(v, Deliveries(i));
    assert x.batch[0] == w.queue[i];
    SettledRelease(x.sched, x.batch[0]);
    RunParts(w, EndOfPass(w), ask);
    RunParts(w, EndOfPass(w) + ask, Deliveries(i));
    var after := EndOfPass(w) + ask + Deliveries(i);
    assert Run(w, after) == x;
    assert CompletesNothing(after);
  }

  lemma CompletingNothingWritesNothing(w: World, labels: seq<Label>, key: Key)
    requires CompletesNothing(labels)
    ensures !WrittenIn(w, labels, key)
  {
    hide Run;
  }

  /**
   The exception, exactly: a release that just became owed can end without a report of it written since if and only if
   a success for its key is posted but not fetched, with no failure before it.
   */
  lemma OwedEndsUnwrittenIff(generation: nat, before: seq<Label>)
    requires Owed(Reached(generation, before))
    ensures var w := Reached(generation, before);
      var key := w.sched.releaseKey;
      (exists after: seq<Label> ::
         EndsOwedRelease(Run(w, after)) && Run(w, after).sched.releaseKey == key && !WrittenIn(w, after, key))
      <==> Stale(w.queue, key)
  {
    hide Inv, ReleaseInv, Reached, Run, WrittenIn, EndsOwedRelease, Stale;
    var w := Reached(generation, before);
    var key := w.sched.releaseKey;
    ReachedInv(generation, before);
    BatchIsEmpty(w);
    OwedIsIdle(w);
    if Stale(w.queue, key) {
      StaleEnds(w, key);
      var after: seq<Label> :|
        && CompletesNothing(after) && EndsOwedRelease(Run(w, after)) && Run(w, after).sched.releaseKey == key;
      CompletingNothingWritesNothing(w, after, key);
    } else {
      forall after: seq<Label> | EndsOwedRelease(Run(w, after)) && Run(w, after).sched.releaseKey == key
        ensures WrittenIn(w, after, key)
      {
        OwedIsWrittenSince(generation, before, after, key);
      }
    }
  }

  lemma OwedIsIdle(w: World)
    requires Inv(w) && Owed(w)
    ensures Waiting(w, w.sched.releaseKey)
  {
    hide LinkInv, UsedInv, ExecInv, ActiveInv, OverInv;
  }

  // ---------------------------------------------------------------- a run that is the exception

  /**
   A release is owed and asked for; in the next pass its report is completed just after the events were fetched, and
   then the watchdog resets: a new release is owed.
   */
  const LATE_SUCCESS: seq<Label> := [
    ResetAll(0), ReadEvents, CheckOverflow(0), ClickTurn(SEEN, 0, true, true), Take(Carry(Still, false, 0), 0),
    ReadEvents, Finish(true, 0), CheckOverflow(0), ResetAll(0)]

  /** The same pass asks for the new report, and the next one fetches the old success. */
  const NEXT_FETCH: seq<Label> := [ClickTurn(SEEN, 0, true, true), ReadEvents]

  function FirstRelease(): Item {
    Item(1, 0, 0, NoKey, 0, Still, 0, 0, 0, None, ReleaseAll, false, false)
  }

  function OldSuccess(): WriterEvent {
    EventOf(1, Some(OverlayOf(FirstRelease(), Still, false)), 0, true, true, 0)
  }

  lemma ReleaseIsAsked(w: World)
    requires w.sched.releasePending && !w.sched.releaseInflight && w.sched.releaseKey == NoKey && !w.reading
    requires w.core.queue == [] && w.core.nextItem == 1 && w.core.barrier == 0
    ensures Step(w, ClickTurn(SEEN, 0, true, true))
            == w.(core := w.core.(queue := [FirstRelease()], nextItem := 2), sched := w.sched.(releaseInflight := true))
  {
    assert PlanTick(w.sched, SEEN, 0) == AskRelease(ReleaseRequest(w.sched));
    assert Either(0, 0) == 0;
    assert NewItem(w.core, ReleaseRequest(w.sched), 0) == FirstRelease();
    assert w.core.queue + [FirstRelease()] == [FirstRelease()];
  }

  lemma ReleaseIsTaken(w: World)
    requires w.core.queue == [FirstRelease()] && w.writer.None? && w.core.inflight.None?
    ensures Step(w, Take(Carry(Still, false, 0), 0))
            == w.(core := w.core.(inflight := Some(1)),
                  writer := Some(Carried(w.core.generation, Some(OverlayOf(FirstRelease(), Still, false)), 0)))
  {
    assert Expire(w.core, 0) == w.core;
    hide Expire;
  }

  lemma ReleaseIsCompleted(w: World)
    requires w.core.queue == [FirstRelease()] && w.core.inflight == Some(1) && w.core.generation == 1 && w.queue == []
    requires w.writer == Some(Carried(1, Some(OverlayOf(FirstRelease(), Still, false)), 0)) && w.exec == NoTransaction
    requires w.core.persistent == 0 && w.core.scheduled == 0
    ensures var v := Step(w, Finish(true, 0));
      && v.core.queue == [] && v.queue == [OldSuccess()] && v.exec == w.exec && v.sched == w.sched
      && v.batch == w.batch && v.reading == w.reading && v.overflow == w.overflow
  {
    var o := OverlayOf(FirstRelease(), Still, false);
    var item := Committed(FirstRelease(), o);
    assert Finished(item);
    assert RemoveFinished([item] + []) == [] by {
      assert ([item] + [])[1..] == [];
    }
    assert [FirstRelease()][1..] == [];
    assert Complete(w.core, 1, Some(o), true).0.queue == [] && Complete(w.core, 1, Some(o), true).1;
    hide Complete, Add, Writes, CarriesMine, CarriesRelease;
    assert w.queue + [OldSuccess()] == [OldSuccess()];
  }

  /** The new release is owed, and the old success waits unread. */
  lemma LateSuccessIsStale()
    ensures var w := Reached(1, LATE_SUCCESS);
      Owed(w) && w.sched.releaseKey == NoKey && w.queue == [OldSuccess()] && Stale(w.queue, NoKey)
      && w.batch == [] && !w.reading && !IsActive(w.exec) && w.core.inflight.None?
  {
    var w0 := TransactionLoop.Begin(1);
    var w1 := Step(w0, LATE_SUCCESS[0]);
    var w2 := Step(w1, LATE_SUCCESS[1]);
    var w3 := Step(w2, LATE_SUCCESS[2]);
    assert w3 == w0.(sched := ResetSched(NoWork, None, 1), core := Clear(w0.core));
    ReleaseIsAsked(w3);
    var w4 := Step(w3, LATE_SUCCESS[3]);
    ReleaseIsTaken(w4);
    var w5 := Step(w4, LATE_SUCCESS[4]);
    var w6 := Step(w5, LATE_SUCCESS[5]);
    assert w6 == w5.(reading := true);
    ReleaseIsCompleted(w6);
    var w7 := Step(w6, LATE_SUCCESS[6]);
    hide Complete, Posted, Expire;
    var w8 := Step(w7, LATE_SUCCESS[7]);
    var w9 := Step(w8, LATE_SUCCESS[8]);
    assert Owed(w9) && w9.sched.releaseKey == NoKey && w9.queue == [OldSuccess()];
    assert w9.batch == [] && !w9.reading && !IsActive(w9.exec) && w9.core.inflight.None?;
    FirstIsStale(w9.queue, NoKey);
    hide Step, Run, Stale, Owed;
    RunsNine(w0, LATE_SUCCESS);
  }

  lemma RunsFirst(w: World, labels: seq<Label>)
    requires labels != []
    ensures Run(w, labels) == Run(Step(w, labels[0]), labels[1..])
  {
    hide Step;
  }

  lemma RunsNine(w: World, l: seq<Label>)
    requires |l| == 9
    ensures Run(w, l)
            == Step(Step(Step(Step(Step(Step(Step(Step(Step(w, l[0]), l[1]), l[2]), l[3]), l[4]), l[5]), l[6]), l[7]), l[8])
  {
    hide Step, Run;
    RunsThree(w, l[..3]);
    var u := Run(w, l[..3]);
    RunsThree(u, l[3..6]);
    var v := Run(u, l[3..6]);
    RunsThree(v, l[6..]);
    RunParts(w, l[..3], l[3..6]);
    RunParts(w, l[..3] + l[3..6], l[6..]);
    assert l == l[..3] + l[3..6] + l[6..];
  }

  lemma RunsThree(w: World, l: seq<Label>)
    requires |l| == 3
    ensures Run(w, l) == Step(Step(Step(w, l[0]), l[1]), l[2])
  {
    hide Step, Run;
    RunsFirst(w, l);
    RunsFirst(Step(w, l[0]), l[1..]);
    assert l[1..][1..] == [l[2]];
    RunsOne(Step(Step(w, l[0]), l[1]), l[2]);
  }

  /** The old success ends the new release, whose own report still waits unwritten. */
  lemma LateSuccessEndsRelease()
    ensures var w := Reached(1, LATE_SUCCESS);
      var v := Run(w, NEXT_FETCH);
      && Owed(w) && w.sched.releaseKey == NoKey
      && EndsOwedRelease(v) && v.sched.releaseKey == NoKey && !WrittenIn(w, NEXT_FETCH, NoKey)
      && |v.core.queue| == 1 && v.core.queue[0].kind.ReleaseAll? && v.core.inflight.None?
  {
    LateSuccessIsStale();
    var w := Reached(1, LATE_SUCCESS);
    hide Reached, Stale, WrittenIn, Step;
    assert Waiting(w, NoKey);
    AskedAndFetched(w, NoKey);
    var v := Run(w, NEXT_FETCH);
    assert v.batch == [OldSuccess()];
    SettledRelease(v.sched, v.batch[0]);
    CompletingNothingWritesNothing(w, NEXT_FETCH, NoKey);
    AskedWaits(w, NoKey);
  }

  /** What was asked for waits in the queue. */
  lemma AskedWaits(w: World, key: Key)
    requires Waiting(w, key) && !w.reading && w.batch == []
    ensures var v := Run(w, [ClickTurn(SEEN, 0, true, true), ReadEvents]);
      |v.core.queue| == 1 && v.core.queue[0].kind.ReleaseAll? && v.core.inflight == w.core.inflight
  {
    var u := Step(w, ClickTurn(SEEN, 0, true, true));
    assert PlanTick(w.sched, SEEN, 0) == AskRelease(ReleaseRequest(w.sched));
    assert u.core.queue == w.core.queue + [NewItem(w.core, ReleaseRequest(w.sched), 0)];
    hide Enqueue, PlanTick;
    assert !u.reading;
    hide Step;
    assert [ClickTurn(SEEN, 0, true, true), ReadEvents][1..] == [ReadEvents];
    RunsOne(u, ReadEvents);
    ReadsAll(u);
  }

  // ---------------------------------------------------------------- the press of a transaction

  /**
   A transaction that ends with its press unreleased owes a release, and that ends only after a report without a
   synthetic button was fully written since; blocked presses and an unread success of an earlier release apart.
   */
  lemma UnreleasedPressIsReleased(generation: nat, before: seq<Label>, l: Label, after: seq<Label>)
    requires IsActive(Reached(generation, before).exec) && !ReadsBlockedPress(Reached(generation, before), l)
    requires var v := Reached(generation, before + [l]);
      && !IsActive(v.exec) && v.wrote.presses != v.wrote.releases && !Stale(v.queue, v.sched.releaseKey)
    ensures var v := Reached(generation, before + [l]);
      var u := Run(v, after);
      && Owed(v)
      && (EndsOwedRelease(u) && u.sched.releaseKey == v.sched.releaseKey ==> WrittenIn(v, after, v.sched.releaseKey))
  {
    SameReached(generation, before, l);
    PressIsNeverForgotten(generation, before, l);
    hide Reached, Run, Step, Stale, ReadsBlockedPress, EndsOwedRelease, WrittenIn;
    var v := Reached(generation, before + [l]);
    if EndsOwedRelease(Run(v, after)) && Run(v, after).sched.releaseKey == v.sched.releaseKey {
      OwedIsWrittenSince(generation, before + [l], after, v.sched.releaseKey);
    }
  }
}
