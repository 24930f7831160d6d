/**
 Every completed click command counted what it was accepted for: the record of a queued command says how many of its
 clicks are done, over both protocols and any environment, unless the mark of its session was dropped.
 */
module ClickCounts {
  import opened Common
  import opened HidReport
  import opened MoveTypes
  import opened Mixer
  import opened Executor
  import opened ClickScheduler
  import opened Server
  import opened ServerRun
  import CacheRun
  import T = ClickTypes
  import Sessions
  import S = SessionHistory

  predicate Scheduled(c: Record) {
    !c.movement && c.click.operation.Schedule?
  }

  /** A record that is complete says so with its count. */
  predicate Complete(c: Record) {
    c.status.Completed? ==> c.completed == c.accepted
  }

  /** The record of a queued command. */
  predicate Follows(c: Record, x: Click) {
    Scheduled(c) && c.accepted == x.count && c.completed == x.index && !c.status.Completed?
  }

  predicate Names(c: Record, x: Click, dropped: set<nat>) {
    x.binary && c.key == x.key && c.key.session !in dropped
  }

  /** Outside the sessions in `dropped`: records of clicks are not the release owed, and follow their commands. */
  ghost predicate Counted(cache: seq<Record>, s: Sched, dropped: set<nat>) {
    && (forall i :: 0 <= i < |cache| && Scheduled(cache[i]) && cache[i].key.session !in dropped ==>
          Complete(cache[i]) && (s.releaseKey.session != 0 ==> cache[i].key != s.releaseKey))
    && (forall i, k :: 0 <= i < |cache| && 0 <= k < |s.work| && Names(cache[i], s.work[k], dropped) ==>
          Follows(cache[i], s.work[k]))
    && (forall k, m :: 0 <= k < m < |s.work| && s.work[k].binary && s.work[m].binary && s.work[k].key == s.work[m].key ==>
          s.work[k].key.session in dropped)
    && (forall k :: 0 <= k < |s.work| && s.work[k].binary ==> s.work[k].index < s.work[k].count)
    && (forall k :: 0 <= k < |s.work| && !s.work[k].binary ==> s.work[k].key == NoKey)
  }

  /** Everything remembered or queued under a key was started under it. */
  ghost predicate Begun(cache: seq<Record>, s: Sched, started: seq<Key>) {
    && (forall i :: 0 <= i < |cache| ==> cache[i].key in started)
    && (forall k :: 0 <= k < |s.work| && s.work[k].binary ==> s.work[k].key in started)
    && (s.releaseKey.session != 0 ==> s.releaseKey in started)
  }

  ghost predicate CountInv(s: State, started: seq<Key>, dropped: set<nat>) {
    && Counted(s.cache, s.sched, dropped) && Begun(s.cache, s.sched, started)
    && CacheRun.DistinctKeys(s.cache)
  }

  // ---------------------------------------------------------------- marks

  /** Same records in the same places, but for outcome, progress, terminal flag, reply address and ack. */
  predicate Alike(a: Record, b: Record) {
    b == a.(status := b.status, completed := b.completed, terminal := b.terminal, peer := b.peer, ack := b.ack)
  }

  /** Nothing of the outcome changed, or it ended as something else than Completed. */
  predicate NoCompletion(a: seq<Record>, b: seq<Record>) {
    && |a| == |b|
    && (forall i :: 0 <= i < |a| ==>
          && Alike(a[i], b[i]) && b[i].completed == a[i].completed
          && (b[i].status == a[i].status || !b[i].status.Completed?))
  }

  lemma NoCompletionCounts(a: seq<Record>, b: seq<Record>, s: Sched, t: Sched, dropped: set<nat>, started: seq<Key>)
    requires Counted(a, s, dropped) && Begun(a, s, started) && CacheRun.DistinctKeys(a) && NoCompletion(a, b)
    requires SameWork(s, t)
    ensures Counted(b, t, dropped) && Begun(b, t, started) && CacheRun.DistinctKeys(b)
  {
  }

  /** The work of `t` is that of `s`, or all but its first commands; the release key is the same, or none. */
  predicate SameWork(s: Sched, t: Sched) {
    && (t.releaseKey == s.releaseKey || t.releaseKey == NoKey) && |t.work| <= |s.work|
    && (forall k :: 0 <= k < |t.work| ==>
          var x := s.work[k + |s.work| - |t.work|];
          && t.work[k].key == x.key && t.work[k].binary == x.binary
          && t.work[k].index == x.index && t.work[k].count == x.count)
  }

  lemma SyncIsNoCompletion(cache: seq<Record>, ack: Ack)
    ensures NoCompletion(cache, SyncCache(cache, ack))
  {
  }

  lemma NoCompletionTwice(a: seq<Record>, b: seq<Record>, c: seq<Record>)
    requires NoCompletion(a, b) && NoCompletion(b, c)
    ensures NoCompletion(a, c)
  {
  }

  predicate Cancels(m: Mark) {
    m.Ended? && !m.status.Completed?
  }

  lemma {:induction false} CancelsComplete(cache: seq<Record>, marks: seq<Mark>)
    requires forall m :: m in marks ==> Cancels(m)
    ensures NoCompletion(cache, ApplyMarks(cache, marks))
    decreases |marks|
  {
    if marks != [] {
      assert marks[0] in marks;
      var a := ApplyMark(cache, marks[0]);
      assert NoCompletion(cache, a);
      assert forall m :: m in marks[1..] ==> m in marks;
      CancelsComplete(a, marks[1..]);
      NoCompletionTwice(cache, a, ApplyMarks(a, marks[1..]));
    }
  }

  lemma {:induction false} CancelMarksCancel(work: seq<Click>)
    ensures forall m :: m in CancelMarks(work) ==> Cancels(m)
  {
    if work != [] {
      CancelMarksCancel(work[1..]);
    }
  }

  lemma ResetCounts(s: State, attach: Option<Key>, now: nat, generation: nat, started: seq<Key>, dropped: set<nat>)
    requires CountInv(s, started, dropped)
    requires attach.Some? ==>
      && attach.value in started
      && (forall i :: 0 <= i < |s.cache| && s.cache[i].key == attach.value && attach.value.session !in dropped ==>
            !Scheduled(s.cache[i]))
    ensures CountInv(Reset(s, attach, now, generation), started, dropped)
  {
    hide Stopped, SyncCache, ApplyMarks, CancelMarks;
    var mover := Stopped(s.mover, Cancelled, now);
    var synced := SyncCache(s.cache, mover.ack);
    var marks := ResetMarks(s.sched, attach);
    SyncIsNoCompletion(s.cache, mover.ack);
    CancelMarksCancel(s.sched.work);
    CancelsComplete(synced, marks);
    NoCompletionTwice(s.cache, synced, ApplyMarks(synced, marks));
    var t := Reset(s, attach, now, generation);
    assert NoCompletion(s.cache, t.cache);
    hide NoCompletion;
    NoCompletionCounts(s.cache, t.cache, s.sched, s.sched, dropped, started);
    KeysAlike(s.cache, t.cache);
    hide Complete, Follows;
  }

  lemma KeysAlike(a: seq<Record>, b: seq<Record>)
    requires NoCompletion(a, b)
    ensures |a| == |b| && forall i :: 0 <= i < |a| ==> b[i].key == a[i].key && Scheduled(b[i]) == Scheduled(a[i])
  {
  }

  // ---------------------------------------------------------------- events

  lemma FinishWork(s: Sched, status: T.Status)
    requires s.work != []
    ensures SameWork(s, FinishFront(s, status).0)
  {
  }

  /** The front command goes on with its next click, and its record with it. */
  lemma ProgressCounts(s: State, f: Click, started: seq<Key>, dropped: set<nat>)
    requires CountInv(s, started, dropped) && s.sched.work != []
    requires f == s.sched.work[0].(index := f.index, phase := f.phase, due := f.due, blocked := f.blocked)
    requires f.index == s.sched.work[0].index + 1 && f.index < f.count
    requires forall i :: 0 <= i < |s.cache| ==> s.cache[i].key != NoKey
    ensures CountInv(s.(sched := FrontAs(s.sched, f), cache := ApplyMark(s.cache, Progressed(f.key, f.index))), started, dropped)
  {
    var cache := ApplyMark(s.cache, Progressed(f.key, f.index));
    var work := FrontAs(s.sched, f).work;
    MarkShape(s.cache, Progressed(f.key, f.index));
    hide ApplyMark, CacheRun.DistinctKeys;
    forall i, k | 0 <= i < |cache| && 0 <= k < |work| && Names(cache[i], work[k], dropped)
      ensures Follows(cache[i], work[k])
    {
      assert Names(s.cache[i], s.sched.work[k], dropped);
    }
    forall i | 0 <= i < |cache| && Scheduled(cache[i]) && cache[i].key.session !in dropped
      ensures Complete(cache[i])
    {
      if cache[i].key == f.key {
        assert Names(s.cache[i], s.sched.work[0], dropped);
      }
    }
  }

  /** `b` is `a` with the record of `f` completed. */
  predicate Finished(a: seq<Record>, b: seq<Record>, f: Click) {
    && |b| == |a|
    && (forall i :: 0 <= i < |a| ==>
          b[i] == (if a[i].key == f.key
                   then a[i].(completed := f.index + 1, status := T.Completed, terminal := true) else a[i]))
  }

  lemma FinishedRecords(a: seq<Record>, b: seq<Record>, s: Sched, dropped: set<nat>)
    requires Counted(a, s, dropped) && s.work != [] && s.work[0].binary && Finished(a, b, s.work[0])
    requires s.work[0].index + 1 >= s.work[0].count
    ensures forall i :: 0 <= i < |b| && Scheduled(b[i]) && b[i].key.session !in dropped ==>
      Complete(b[i]) && (s.releaseKey.session != 0 ==> b[i].key != s.releaseKey)
  {
    forall i | 0 <= i < |b| && Scheduled(b[i]) && b[i].key.session !in dropped
      ensures Complete(b[i])
    {
      assert Names(a[i], s.work[0], dropped) || b[i] == a[i];
    }
  }

  lemma FinishedFollows(a: seq<Record>, b: seq<Record>, s: Sched, dropped: set<nat>)
    requires Counted(a, s, dropped) && s.work != [] && s.work[0].binary && Finished(a, b, s.work[0])
    ensures forall i, k :: 0 <= i < |b| && 0 <= k < |s.work| - 1 && Names(b[i], s.work[1..][k], dropped) ==>
      Follows(b[i], s.work[1..][k])
  {
    hide Follows, Complete;
    forall i, k | 0 <= i < |b| && 0 <= k < |s.work| - 1 && Names(b[i], s.work[1..][k], dropped)
      ensures Follows(b[i], s.work[1..][k])
    {
      assert s.work[0].key != s.work[k + 1].key;
      assert Names(a[i], s.work[k + 1], dropped);
    }
  }

  /** The last click of the front command completes it, with its whole count. */
  lemma CompletionCounts(s: State, started: seq<Key>, dropped: set<nat>)
    requires CountInv(s, started, dropped) && s.sched.work != [] && s.sched.work[0].binary
    requires s.sched.work[0].index + 1 >= s.sched.work[0].count
    ensures var f := s.sched.work[0];
      CountInv(s.(sched := FinishFront(s.sched, T.Completed).0,
                  cache := ApplyMarks(s.cache, [Progressed(f.key, f.index + 1), Ended(f.key, T.Completed)])), started, dropped)
  {
    hide ApplyMarks, CacheRun.DistinctKeys, Follows, Complete, Scheduled;
    var f := s.sched.work[0];
    var cache := ApplyMarks(s.cache, [Progressed(f.key, f.index + 1), Ended(f.key, T.Completed)]);
    CompletedCache(s.cache, f);
    FinishedRecords(s.cache, cache, s.sched, dropped);
    FinishedFollows(s.cache, cache, s.sched, dropped);
  }

  /** A text click has no record. */
  lemma TextCompletionCounts(s: State, started: seq<Key>, dropped: set<nat>)
    requires CountInv(s, started, dropped) && s.sched.work != [] && !s.sched.work[0].binary
    requires forall i :: 0 <= i < |s.cache| ==> s.cache[i].key != NoKey
    ensures var f := s.sched.work[0];
      CountInv(s.(sched := FinishFront(s.sched, T.Completed).0,
                  cache := ApplyMarks(s.cache, [Progressed(f.key, f.index + 1)])), started, dropped)
  {
    var mark := Progressed(NoKey, s.sched.work[0].index + 1);
    OneMark(s.cache, mark);
    MarkShape(s.cache, mark);
    assert ApplyMark(s.cache, mark) == s.cache;
    FinishWork(s.sched, T.Completed);
    SameCounts(s, s.cache, FinishFront(s.sched, T.Completed).0, started, dropped);
  }

  function Marked(c: Record, mark: Mark): Record {
    if c.key != mark.key then c
    else if mark.Ended? then c.(status := mark.status, terminal := true)
    else c.(completed := mark.completed)
  }

  /** A mark changes the one record with its key. */
  lemma MarkShape(cache: seq<Record>, mark: Mark)
    requires CacheRun.DistinctKeys(cache)
    ensures var b := ApplyMark(cache, mark);
      && |b| == |cache| && CacheRun.DistinctKeys(b)
      && (forall i :: 0 <= i < |cache| ==> b[i] == Marked(cache[i], mark))
  {
    forall i | 0 <= i < |cache|
      ensures FindCache(cache, cache[i].key) == i
    {
      CacheRun.FindDistinct(cache, i);
    }
  }

  /** What the two marks of a completion make of the cache. */
  lemma CompletedCache(cache: seq<Record>, f: Click)
    requires CacheRun.DistinctKeys(cache) && f.binary
    ensures var b := ApplyMarks(cache, [Progressed(f.key, f.index + 1), Ended(f.key, T.Completed)]);
      && |b| == |cache| && CacheRun.DistinctKeys(b)
      && (forall i :: 0 <= i < |cache| ==>
            b[i] == (if cache[i].key == f.key
                     then cache[i].(completed := f.index + 1, status := T.Completed, terminal := true) else cache[i]))
  {
    var marks := [Progressed(f.key, f.index + 1), Ended(f.key, T.Completed)];
    var a := ApplyMark(cache, marks[0]);
    MarkShape(cache, marks[0]);
    MarkShape(a, marks[1]);
    assert marks[1..] == [marks[1]];
    OneMark(a, marks[1]);
    hide ApplyMark, CacheRun.DistinctKeys;
  }

  /** The owed release completes: no record of clicks is its own. */
  lemma ReleaseCounts(s: State, started: seq<Key>, dropped: set<nat>)
    requires CountInv(s, started, dropped) && s.sched.releaseKey.session != 0
    ensures CountInv(s.(sched := s.sched.(releasePending := false, releaseInflight := false, releaseKey := NoKey),
                        cache := ApplyMark(s.cache, Ended(s.sched.releaseKey, T.Completed))), started, dropped)
  {
    var key := s.sched.releaseKey;
    var cache := ApplyMark(s.cache, Ended(key, T.Completed));
    var j := FindCache(s.cache, key);
    forall i, k | 0 <= i < |cache| && 0 <= k < |s.sched.work| && Names(cache[i], s.sched.work[k], dropped)
      ensures Follows(cache[i], s.sched.work[k])
    {
      assert Names(s.cache[i], s.sched.work[k], dropped);
    }
  }

  lemma OneMark(cache: seq<Record>, mark: Mark)
    ensures ApplyMarks(cache, [mark]) == ApplyMark(cache, mark)
  {
    assert [mark][1..] == [];
  }

  lemma CompletionMarks(f: Click)
    ensures [Progressed(f.key, f.index + 1)] + [Ended(f.key, T.Completed)]
            == [Progressed(f.key, f.index + 1), Ended(f.key, T.Completed)]
    ensures [Progressed(f.key, f.index + 1)] + [] == [Progressed(f.key, f.index + 1)]
  {
  }

  lemma SettledCounts(s: State, ev: WriterEvent, started: seq<Key>, dropped: set<nat>)
    requires CountInv(s, started, dropped) && forall i :: 0 <= i < |s.cache| ==> s.cache[i].key != NoKey
    ensures var (t, marks) := Settled(s.sched, ev);
      CountInv(s.(sched := t, cache := ApplyMarks(s.cache, marks)), started, dropped)
  {
    hide CountInv, ApplyMarks, ApplyMark, HasButton, FrontAs;
    var (t, marks) := Settled(s.sched, ev);
    NoMarks(s.cache);
    if EndsRelease(s.sched, ev) {
      if s.sched.releaseKey.session != 0 {
        ReleaseCounts(s, started, dropped);
        OneMark(s.cache, Ended(s.sched.releaseKey, T.Completed));
      } else {
        SameCounts(s, s.cache, t, started, dropped);
      }
    } else if s.sched.work != [] {
      var f := s.sched.work[0];
      FrontWork(s.sched, Pressed(f, ev));
      SameCounts(s, s.cache, FrontAs(s.sched, Pressed(f, ev)), started, dropped);
      CancelledCounts(s, started, dropped);
      CompletionMarks(f);
      if f.index + 1 >= f.count && f.binary {
        CompletionCounts(s, started, dropped);
      } else if f.index + 1 >= f.count {
        TextCompletionCounts(s, started, dropped);
      } else {
        ProgressCounts(s, Rearmed(f, ev), started, dropped);
        OneMark(s.cache, Progressed(f.key, f.index + 1));
      }
    }
  }

  lemma FrontWork(s: Sched, front: Click)
    requires s.work != [] && front.key == s.work[0].key && front.binary == s.work[0].binary
    requires front.index == s.work[0].index && front.count == s.work[0].count
    ensures SameWork(s, FrontAs(s, front)) && SameWork(s, s)
  {
  }

  /** The scheduler moves on without finishing anything. */
  lemma SameCounts(s: State, cache: seq<Record>, t: Sched, started: seq<Key>, dropped: set<nat>)
    requires CountInv(s, started, dropped) && cache == s.cache
    ensures SameWork(s.sched, t) ==> CountInv(s.(sched := t, cache := cache), started, dropped)
  {
    assert NoCompletion(s.cache, cache);
    hide NoCompletion;
    if SameWork(s.sched, t) {
      NoCompletionCounts(s.cache, cache, s.sched, t, dropped, started);
    }
  }

  /** The front command is refused or ends over a button that is down. */
  lemma CancelledCounts(s: State, started: seq<Key>, dropped: set<nat>)
    requires CountInv(s, started, dropped) && s.sched.work != []
    ensures var (t, marks) := FinishFront(s.sched, T.ButtonActive);
      CountInv(s.(sched := t, cache := ApplyMarks(s.cache, marks)), started, dropped)
  {
    var (t, marks) := FinishFront(s.sched, T.ButtonActive);
    CancelsComplete(s.cache, marks);
    FinishWork(s.sched, T.ButtonActive);
    hide ApplyMarks;
    NoCompletionCounts(s.cache, ApplyMarks(s.cache, marks), s.sched, t, dropped, started);
  }

  // ---------------------------------------------------------------- handlers

  ghost predicate NoNoKeys(cache: seq<Record>) {
    forall i :: 0 <= i < |cache| ==> cache[i].key != NoKey
  }

  /** Only cache and scheduler matter. */
  lemma OnlyThese(s: State, t: State, started: seq<Key>, dropped: set<nat>)
    requires CountInv(s, started, dropped) && t.cache == s.cache && SameWork(s.sched, t.sched)
    ensures CountInv(t, started, dropped)
  {
    SameCounts(s, s.cache, t.sched, started, dropped);
    hide SameWork, Counted, Begun;
  }

  lemma SyncedCounts(s: State, f: Exec, started: seq<Key>, dropped: set<nat>)
    requires CountInv(s, started, dropped)
    ensures CountInv(Synced(s.(mover := f)), started, dropped)
  {
    SyncIsNoCompletion(s.cache, f.ack);
    FrontSame(s.sched);
    hide SyncCache, NoCompletion, SameWork;
    NoCompletionCounts(s.cache, SyncCache(s.cache, f.ack), s.sched, s.sched, dropped, started);
  }

  lemma FrontSame(s: Sched)
    ensures SameWork(s, s)
    ensures forall mask: bv8, generation: nat :: SameWork(s, s.(persistent := mask, tracked := generation))
  {
  }

  lemma AbandonCounts(s: State, now: nat, generation: nat, started: seq<Key>, dropped: set<nat>)
    requires CountInv(s, started, dropped)
    ensures CountInv(Abandon(s, now, generation), started, dropped)
  {
    ResetCounts(s, None, now, generation, started, dropped);
    hide Reset, Counted, Begun;
  }

  lemma DeliverCounts(s: State, ev: WriterEvent, now: nat, cleared: nat, started: seq<Key>, dropped: set<nat>)
    requires CountInv(s, started, dropped) && NoNoKeys(s.cache)
    ensures CountInv(Deliver(s, ev, now, cleared), started, dropped)
  {
    hide CountInv, Delivered, Abandon, Settled, ApplyMarks;
    SyncKeepsKeys(s.cache, Delivered(s.mover, ev).ack);
    hide SyncCache;
    var t := Synced(s.(mover := Delivered(s.mover, ev)));
    SyncedCounts(s, Delivered(s.mover, ev), started, dropped);
    AbandonCounts(t, now, cleared, started, dropped);
    SettledCounts(t, ev, started, dropped);
  }

  lemma SyncKeepsKeys(cache: seq<Record>, ack: Ack)
    requires NoNoKeys(cache)
    ensures NoNoKeys(SyncCache(cache, ack))
  {
  }

  lemma MoverTickCounts(s: State, e: Snapshot, now: nat, result: EnqueueResult, cleared: nat, started: seq<Key>, dropped: set<nat>)
    requires CountInv(s, started, dropped)
    ensures CountInv(MoverTick(s, e, now, result, cleared), started, dropped)
  {
    hide CountInv, Planned, Answered, Reset, SyncCache, Synced;
    var plan := Planned(s.mover, e, now);
    SyncedCounts(s, plan.e, started, dropped);
    ResetCounts(Synced(s.(mover := plan.e)), None, now, cleared, started, dropped);
    if plan.Submit? {
      var f := Answered(plan.e, result, now).0;
      SyncedCounts(s, f, started, dropped);
      ResetCounts(Synced(s.(mover := f)), None, now, cleared, started, dropped);
    }
  }

  lemma SchedTickCounts(s: State, e: Snapshot, now: nat, result: EnqueueResult, cleared: nat, started: seq<Key>, dropped: set<nat>)
    requires CountInv(s, started, dropped)
    ensures CountInv(SchedTick(s, e, now, result, cleared), started, dropped)
  {
    hide CountInv, Reset, ApplyMarks, FinishFront, SameWork, FrontAs;
    var turn := PlanTick(s.sched, e, now);
    ResetCounts(s, None, now, cleared, started, dropped);
    FrontSame(s.sched);
    if s.sched.work != [] {
      CancelledCounts(s, started, dropped);
      FrontWork(s.sched, s.sched.work[0].(phase := PressInflight));
      FrontWork(s.sched, s.sched.work[0].(phase := ReleaseInflight));
      FrontWork(s.sched, s.sched.work[0].(phase := AwaitRelease));
    }
    AnsweredWork(s.sched, turn, result);
    if !turn.NeedReset? && !AnswerResets(turn, result) && !turn.FinishActive? {
      OnlyThese(s, s.(sched := TurnAnswered(s.sched, turn, result)), started, dropped);
    }
  }

  lemma AnsweredWork(s: Sched, turn: Turn, result: EnqueueResult)
    requires turn.AskPress? || turn.AskLift? ==> s.work != []
    ensures SameWork(s, TurnAnswered(s, turn, result))
  {
  }

  lemma TrackCounts(s: State, ready: bool, generation: nat, now: nat, cleared: nat, again: nat, started: seq<Key>, dropped: set<nat>)
    requires CountInv(s, started, dropped)
    ensures CountInv(Track(s, ready, generation, now, cleared, again), started, dropped)
  {
    hide CountInv, Abandon;
    var t := s.(sched := s.sched.(tracked := generation));
    AbandonCounts(s, now, cleared, started, dropped);
    TrackedCounts(s, generation, started, dropped);
    AbandonCounts(t, now, cleared, started, dropped);
    TrackedCounts(Abandon(s, now, cleared), again, started, dropped);
    TrackedCounts(Abandon(t, now, cleared), again, started, dropped);
  }

  lemma TrackedCounts(s: State, generation: nat, started: seq<Key>, dropped: set<nat>)
    requires CountInv(s, started, dropped)
    ensures CountInv(s.(sched := s.sched.(tracked := generation)), started, dropped)
  {
    OnlyThese(s, s.(sched := s.sched.(tracked := generation)), started, dropped);
    hide CountInv;
  }

  // ---------------------------------------------------------------- what starts

  /** A key that is started anew is not one of those before, unless its session's mark was dropped. */
  lemma FreshKey(started: seq<Key>, key: Key, dropped: set<nat>)
    requires Ascending(started + [key], dropped) && key.session !in dropped
    ensures key !in started
  {
    var all := started + [key];
    assert all[|started|] == key;
    forall i | 0 <= i < |started|
      ensures started[i] != key
    {
      assert all[i] == started[i];
    }
  }

  /** Eviction keeps what is said of the rest. */
  lemma EvictedCounts(s: State, cache: seq<Record>, started: seq<Key>, dropped: set<nat>)
    requires CountInv(s, started, dropped) && CacheRun.DistinctKeys(cache) && forall c :: c in cache ==> c in s.cache
    ensures CountInv(s.(cache := cache), started, dropped)
  {
    hide CacheRun.DistinctKeys, Follows, Complete, Scheduled;
    forall i | 0 <= i < |cache|
      ensures exists j :: 0 <= j < |s.cache| && s.cache[j] == cache[i]
    {
      assert cache[i] in s.cache;
    }
  }

  lemma MoreStarted(s: State, started: seq<Key>, dropped: set<nat>, key: Key, more: set<nat>)
    requires CountInv(s, started, dropped) && dropped <= more
    ensures CountInv(s, started, more) && CountInv(s, started + [key], more)
  {
    hide CacheRun.DistinctKeys, Follows, Complete, Scheduled;
    assert forall k :: k in started ==> k in started + [key];
    assert forall i, k :: 0 <= i < |s.cache| && 0 <= k < |s.sched.work| && Names(s.cache[i], s.sched.work[k], more) ==>
      Names(s.cache[i], s.sched.work[k], dropped);
  }

  /** A fresh record under a key that nothing else has. */
  lemma AppendedCounts(s: State, c: Record, started: seq<Key>, dropped: set<nat>)
    requires CountInv(s, started, dropped) && c.key in started && c.key.session != 0
    requires forall i :: 0 <= i < |s.cache| ==> s.cache[i].key != c.key
    requires c.key.session !in dropped ==>
      && (forall k :: 0 <= k < |s.sched.work| && s.sched.work[k].binary ==> s.sched.work[k].key != c.key)
      && (s.sched.releaseKey.session != 0 ==> s.sched.releaseKey != c.key)
    requires c.status.Accepted?
    ensures CountInv(s.(cache := s.cache + [c]), started, dropped)
  {
    hide Follows;
    var cache := s.cache + [c];
    forall i, k | 0 <= i < |cache| && 0 <= k < |s.sched.work| && Names(cache[i], s.sched.work[k], dropped)
      ensures Follows(cache[i], s.sched.work[k])
    {
      if i < |s.cache| {
        assert Names(s.cache[i], s.sched.work[k], dropped);
      }
    }
  }

  /** A command is queued behind its fresh record. */
  lemma QueuedCounts(s: State, x: Click, started: seq<Key>, dropped: set<nat>)
    requires CountInv(s, started, dropped) && x.index < x.count
    requires x.binary ==>
      && x.key in started
      && (forall i :: 0 <= i < |s.cache| && Names(s.cache[i], x, dropped) ==> Follows(s.cache[i], x))
      && (x.key.session !in dropped ==> forall k :: 0 <= k < |s.sched.work| && s.sched.work[k].binary ==> s.sched.work[k].key != x.key)
    requires !x.binary ==> x.key == NoKey
    ensures CountInv(s.(sched := s.sched.(work := s.sched.work + [x])), started, dropped)
  {
    hide Follows, Complete, Scheduled, CacheRun.DistinctKeys;
    var work := s.sched.work + [x];
    forall i, k | 0 <= i < |s.cache| && 0 <= k < |work| && Names(s.cache[i], work[k], dropped)
      ensures Follows(s.cache[i], work[k])
    {
      if k < |s.sched.work| {
        assert Names(s.cache[i], s.sched.work[k], dropped);
      }
    }
  }

  lemma NotCached(cache: seq<Record>, key: Key)
    requires !Cached(cache, key)
    ensures forall i :: 0 <= i < |cache| ==> cache[i].key != key
  {
  }

  /** What a started key finds: nothing of its own, unless its session's mark was dropped. */
  lemma NothingOfIt(s: State, key: Key, started: seq<Key>, dropped: set<nat>)
    requires CountInv(s, started, dropped) && (key.session !in dropped ==> key !in started)
    ensures key.session !in dropped ==>
      && (forall k :: 0 <= k < |s.sched.work| && s.sched.work[k].binary ==> s.sched.work[k].key != key)
      && (s.sched.releaseKey.session != 0 ==> s.sched.releaseKey != key)
  {
    hide Counted, CacheRun.DistinctKeys;
  }

  /** Room is made and the fresh record appended. */
  lemma RecordedCounts(s: State, c: Record, started: seq<Key>, dropped: set<nat>, more: set<nat>)
    requires CountInv(s, started, dropped) && dropped <= more && !Cached(s.cache, c.key) && c.key.session != 0
    requires c.status.Accepted? && (c.key.session !in more ==> c.key !in started)
    ensures CountInv(s.(cache := RemoveOld(s.cache) + [c]), started + [c.key], more)
    ensures forall i :: 0 <= i < |RemoveOld(s.cache)| ==> RemoveOld(s.cache)[i].key != c.key
    ensures c.key.session !in more ==>
      forall k :: 0 <= k < |s.sched.work| && s.sched.work[k].binary ==> s.sched.work[k].key != c.key
  {
    DistinctOf(s, started, dropped);
    CacheRun.RemoveOldKeeps(s.cache);
    var cache := RemoveOld(s.cache);
    NotCached(s.cache, c.key);
    hide RemoveOld, CountInv, CacheRun.DistinctKeys;
    EvictedCounts(s, cache, started, dropped);
    var t := s.(cache := cache);
    MoreStarted(t, started, dropped, c.key, more);
    NothingOfIt(t, c.key, started, more);
    forall i | 0 <= i < |cache|
      ensures cache[i].key != c.key
    {
      assert cache[i] in s.cache;
    }
    AppendedCounts(t, c, started + [c.key], more);
  }

  lemma DistinctOf(s: State, started: seq<Key>, dropped: set<nat>)
    requires CountInv(s, started, dropped)
    ensures CacheRun.DistinctKeys(s.cache)
  {
  }

  /** Room is made, but nothing starts. */
  lemma RefusedCounts(s: State, started: seq<Key>, dropped: set<nat>, more: set<nat>)
    requires CountInv(s, started, dropped) && dropped <= more
    ensures CountInv(s.(cache := RemoveOld(s.cache)), started, more) && CountInv(s, started, more)
  {
    DistinctOf(s, started, dropped);
    CacheRun.RemoveOldKeeps(s.cache);
    hide RemoveOld, CountInv, CacheRun.DistinctKeys;
    EvictedCounts(s, RemoveOld(s.cache), started, dropped);
    MoreStarted(s.(cache := RemoveOld(s.cache)), started, dropped, NoKey, more);
    MoreStarted(s, started, dropped, NoKey, more);
  }

  lemma StartMoveCounts(s: State, r: MoveRequest, from: Peer, e: Snapshot, c: Clock, started: seq<Key>, dropped: set<nat>,
                        more: set<nat>)
    requires CountInv(s, started, dropped) && dropped <= more && !Cached(s.cache, r.key) && r.key.session != 0
    requires StartMove(s, r, from, e, c).2.Some? && r.key.session !in more ==> r.key !in started
    ensures var (t, reply, key) := StartMove(s, r, from, e, c);
      CountInv(t, if key.Some? then started + [r.key] else started, more)
  {
    hide CountInv, RemoveOld, Protected, Sessions.Admit, Sessions.Accept, Sessions.PrunedTable, SameWork;
    var (t, reply, key) := StartMove(s, r, from, e, c);
    FrontSame(s.sched);
    RefusedCounts(s, started, dropped, more);
    if key.Some? {
      var record := MoveRecord(r, t.mover.ack, from);
      RecordedCounts(s, record, started, dropped, more);
      OnlyThese(s.(cache := RemoveOld(s.cache) + [record]), t, started + [r.key], more);
    } else {
      OnlyThese(s.(cache := RemoveOld(s.cache)), t, started, more);
    }
  }

  lemma StartClickCounts(s: State, r: T.Request, from: Peer, e: Snapshot, now: nat, due: nat, cleared: nat,
                         started: seq<Key>, dropped: set<nat>, more: set<nat>)
    requires CountInv(s, started, dropped) && dropped <= more && !Cached(s.cache, r.key) && r.key.session != 0
    requires r.operation.Schedule? ==> r.count >= 1
    requires StartClick(s, r, from, e, now, due, cleared).2.Some? && r.key.session !in more ==> r.key !in started
    ensures var (t, reply, key) := StartClick(s, r, from, e, now, due, cleared);
      CountInv(t, if key.Some? then started + [r.key] else started, more)
  {
    hide CountInv, RemoveOld, Protected, Sessions.Admit, Sessions.Accept, Sessions.PrunedTable, SameWork, Reset;
    var (t, reply, key) := StartClick(s, r, from, e, now, due, cleared);
    FrontSame(s.sched);
    RefusedCounts(s, started, dropped, more);
    if key.Some? {
      var c := ClickRecord(r, from);
      var u := s.(cache := RemoveOld(s.cache) + [c]);
      RecordedCounts(s, c, started, dropped, more);
      if r.operation.Schedule? {
        var x := NewClick(r, due);
        NamedIsNew(RemoveOld(s.cache), c, x, more);
        QueuedCounts(u, x, started + [r.key], more);
        var v := u.(sched := u.sched.(work := u.sched.work + [x]));
        FrontSame(v.sched);
        OnlyThese(v, t, started + [r.key], more);
      } else {
        ReleasedCounts(s, u, c, r.key, started + [r.key], more);
        OwnedCounts(s, r, from, e, now, due, cleared, u, started + [r.key], more);
      }
    } else {
      OnlyThese(s.(cache := RemoveOld(s.cache)), t, started, more);
    }
  }

  lemma NamedIsNew(cache: seq<Record>, c: Record, x: Click, dropped: set<nat>)
    requires (forall i :: 0 <= i < |cache| ==> cache[i].key != c.key) && x.key == c.key && Follows(c, x)
    ensures forall i :: 0 <= i < |cache + [c]| && Names((cache + [c])[i], x, dropped) ==> Follows((cache + [c])[i], x)
  {
  }

  lemma ReleasedCounts(s: State, u: State, c: Record, key: Key, started: seq<Key>, dropped: set<nat>)
    requires u.cache == RemoveOld(s.cache) + [c] && c.key == key && !Scheduled(c)
    requires forall i :: 0 <= i < |RemoveOld(s.cache)| ==> RemoveOld(s.cache)[i].key != key
    ensures forall i :: 0 <= i < |u.cache| && u.cache[i].key == key && key.session !in dropped ==> !Scheduled(u.cache[i])
  {
  }

  /** The reset of a ReleaseAll, over its fresh record. */
  lemma OwnedCounts(s: State, r: T.Request, from: Peer, e: Snapshot, now: nat, due: nat, cleared: nat, u: State,
                    started: seq<Key>, dropped: set<nat>)
    requires r.operation.ReleaseEverything? && StartClick(s, r, from, e, now, due, cleared).2.Some?
    requires u == s.(cache := RemoveOld(s.cache) + [ClickRecord(r, from)]) && CountInv(u, started, dropped) && r.key in started
    requires forall i :: 0 <= i < |u.cache| && u.cache[i].key == r.key && r.key.session !in dropped ==> !Scheduled(u.cache[i])
    ensures CountInv(StartClick(s, r, from, e, now, due, cleared).0, started, dropped)
  {
    hide CountInv, RemoveOld, Protected, Sessions.Admit, Sessions.Accept, Sessions.PrunedTable, SameWork, Reset;
    var sessions := Sessions.Accept(Sessions.Admit(Sessions.PrunedTable(s.sessions, now), r.key.session, now, true,
                                                   Protected(RemoveOld(s.cache))).0, r.key.session, r.key.command, now);
    var v := Own(u.(sessions := sessions), from, now);
    FrontSame(u.sched);
    OnlyThese(u, v, started, dropped);
    ResetCounts(v, Some(r.key), now, cleared, started, dropped);
  }

  // ---------------------------------------------------------------- every step

  /** A repeated command only turns its replies, and may nudge the executor. */
  lemma RepeatCounts(s: State, i: nat, from: Peer, mover: Exec, now: nat, started: seq<Key>, dropped: set<nat>)
    requires CountInv(s, started, dropped) && i < |s.cache|
    ensures CountInv(Own(s.(mover := mover, cache := s.cache[i := s.cache[i].(peer := from)]), from, now), started, dropped)
  {
    var cache := s.cache[i := s.cache[i].(peer := from)];
    assert NoCompletion(s.cache, cache);
    FrontSame(s.sched);
    hide NoCompletion, SameWork;
    NoCompletionCounts(s.cache, cache, s.sched, s.sched, dropped, started);
  }

  lemma MoveCounts(s: State, r: MoveRequest, from: Peer, e: Snapshot, c: Clock, started: seq<Key>, dropped: set<nat>,
                   more: set<nat>)
    requires CountInv(s, started, dropped) && dropped <= more && Proper(r.key)
    requires HandleMove(s, r, from, e, c).2.Some? && r.key.session !in more ==> r.key !in started
    ensures var (t, reply, key) := HandleMove(s, r, from, e, c);
      CountInv(t, if key.Some? then started + [r.key] else started, more)
  {
    hide CountInv, MoveObstacle, StartMove, MoveRejection, Sessions.PrunedTable, Sessions.Stale, SameWork;
    var i := FindCache(s.cache, r.key);
    var p := s.(sessions := Sessions.PrunedTable(s.sessions, c.stale));
    FrontSame(s.sched);
    RefusedCounts(s, started, dropped, more);
    OnlyThese(s, p, started, more);
    OnlyThese(s, p, started, dropped);
    if i < |s.cache| {
      RepeatCounts(s, i, from, s.mover, c.accept, started, more);
      RepeatCounts(s, i, from, Proceeded(s.mover), c.accept, started, more);
      RepeatCounts(s, i, from, Cancelling(s.mover), c.accept, started, more);
    } else if HandleMove(s, r, from, e, c) == StartMove(p, r, from, e, c) {
      StartMoveCounts(p, r, from, e, c, started, dropped, more);
    }
  }

  lemma ClickCounting(s: State, r: T.Request, from: Peer, e: Snapshot, now: nat, due: nat, cleared: nat,
                      started: seq<Key>, dropped: set<nat>, more: set<nat>)
    requires CountInv(s, started, dropped) && dropped <= more && Proper(r.key)
    requires HandleClick(s, r, from, e, now, due, cleared).2.Some? && r.key.session !in more ==> r.key !in started
    ensures var (t, reply, key) := HandleClick(s, r, from, e, now, due, cleared);
      CountInv(t, if key.Some? then started + [r.key] else started, more)
  {
    CountIsPositive(s, r, e);
    hide CountInv, ClickObstacle, StartClick, Sessions.PrunedTable, Sessions.Stale, SameWork;
    var i := FindCache(s.cache, r.key);
    var p := s.(sessions := Sessions.PrunedTable(s.sessions, now));
    FrontSame(s.sched);
    RefusedCounts(s, started, dropped, more);
    OnlyThese(s, p, started, more);
    OnlyThese(s, p, started, dropped);
    if i < |s.cache| {
      RepeatCounts(s, i, from, s.mover, now, started, more);
    } else if HandleClick(s, r, from, e, now, due, cleared) == StartClick(p, r, from, e, now, due, cleared)
              && (r.operation.Schedule? ==> ClickObstacle(s, r, e).None?) {
      StartClickCounts(p, r, from, e, now, due, cleared, started, dropped, more);
    }
  }

  lemma CountIsPositive(s: State, r: T.Request, e: Snapshot)
    ensures ClickObstacle(s, r, e).None? ==> r.count >= 1
  {
  }

  lemma TextClickCounts(s: State, from: Peer, button: nat, e: Snapshot, now: nat, due: nat, started: seq<Key>, dropped: set<nat>)
    requires CountInv(s, started, dropped)
    ensures CountInv(HandleTextClick(s, from, button, e, now, due), started, dropped)
  {
    hide CountInv, HasButton, SameWork;
    var t := HandleTextClick(s, from, button, e, now, due);
    if t != s && t.sched.work != s.sched.work {
      var x := t.sched.work[|t.sched.work| - 1];
      QueuedCounts(s, x, started, dropped);
      var v := s.(sched := s.sched.(work := s.sched.work + [x]));
      FrontSame(v.sched);
      OnlyThese(v, t, started, dropped);
    }
  }

  lemma OthersCount(s: State, l: Label, started: seq<Key>, dropped: set<nat>)
    requires CountInv(s, started, dropped) && NoNoKeys(s.cache) && !l.MovePacket? && !l.ClickPacket?
    ensures CountInv(Next(s, l).0, started, dropped)
  {
    hide CountInv, SameWork, Track, Deliver, Abandon, MoverTick, SchedTick, HandleTextClick, Reset, PlanMotion;
    FrontSame(s.sched);
    match l
    case Top(ready, generation, now, cleared, again) => TrackCounts(s, ready, generation, now, cleared, again, started, dropped);
    case Event(ev, now, cleared) => DeliverCounts(s, ev, now, cleared, started, dropped);
    case Overflow(now, cleared) => AbandonCounts(s, now, cleared, started, dropped);
    case LeaseCheck(now, cleared) => AbandonCounts(s, now, cleared, started, dropped);
    case MoverTurn(e, now, result, cleared) => MoverTickCounts(s, e, now, result, cleared, started, dropped);
    case ClickTurn(e, now, result, cleared) => SchedTickCounts(s, e, now, result, cleared, started, dropped);
    case MotionPacket(from, sequence, motion, next, e, now, result) =>
      MotionFrame(s, from, sequence, motion, next, e, now, result);
      OnlyThese(s, Next(s, l).0, started, dropped);
    case TextClick(from, button, e, now, due) => TextClickCounts(s, from, button, e, now, due, started, dropped);
    case TextRelease(from, now, cleared) =>
      ResetCounts(s, None, now, cleared, started, dropped);
      var t := Reset(s, None, now, cleared);
      FrontSame(t.sched);
      OnlyThese(t, Own(t, from, now), started, dropped);
    case TextReport(from, next, e, now, result) => OnlyThese(s, Next(s, l).0, started, dropped);
  }

  lemma MotionFrame(s: State, from: Peer, sequence: nat, c: Command, next: bv8, e: Snapshot, now: nat, result: EnqueueResult)
    ensures var t := HandleMotion(s, from, sequence, c, next, e, now, result);
      t.cache == s.cache && t.sched == s.sched.(persistent := t.sched.persistent, tracked := t.sched.tracked)
  {
  }

  lemma {:induction false} HistoryGrows(h: S.World, labels: seq<S.Label>)
    ensures h.dropped <= S.Run(h, labels).dropped
    decreases |labels|
  {
    hide S.Step;
    if labels != [] {
      StepGrows(h, labels[0]);
      HistoryGrows(S.Step(h, labels[0]), labels[1..]);
    }
  }

  ghost predicate Inv(w: World) {
    SessionInv(w) && CacheRun.CacheInv(w.s) && CountInv(w.s, w.started, w.history.dropped)
  }

  lemma KeysOfInv(w: World)
    requires CacheRun.CacheInv(w.s)
    ensures NoNoKeys(w.s.cache)
  {
  }

  lemma StartsAscend(w: World)
    requires SessionInv(w)
    ensures Ascending(w.started, w.history.dropped)
  {
  }

  lemma StepCounts(w: World, l: Label)
    requires Inv(w)
    ensures Inv(Step(w, l))
  {
    hide CountInv, SessionInv, CacheRun.CacheInv, HandleMove, HandleClick, Asks;
    var v := Step(w, l);
    StepKeepsSessions(w, l);
    CacheRun.StepKeepsCache(w.s, l);
    HistoryGrows(w.history, Asks(w.s, l));
    StartsAscend(v);
    KeysOfInv(w);
    var more := v.history.dropped;
    match l
    case MovePacket(r, from, e, clock) =>
      if Proper(r.key) {
        MoveKey(w, r, from, e, clock);
        if v.started == w.started + [r.key] && r.key.session !in more {
          FreshKey(w.started, r.key, more);
        }
        MoveCounts(w.s, r, from, e, clock, w.started, w.history.dropped, more);
      } else {
        RefusedCounts(w.s, w.started, w.history.dropped, more);
      }
    case ClickPacket(r, from, e, now, due, cleared) =>
      if Proper(r.key) {
        ClickKey(w, r, from, e, now, due, cleared);
        if v.started == w.started + [r.key] && r.key.session !in more {
          FreshKey(w.started, r.key, more);
        }
        ClickCounting(w.s, r, from, e, now, due, cleared, w.started, w.history.dropped, more);
      } else {
        RefusedCounts(w.s, w.started, w.history.dropped, more);
      }
    case _ =>
      OthersKeepSessions(w.s, l);
      OthersCount(w.s, l, w.started, w.history.dropped);
      hide Next;
      RefusedCounts(v.s, w.started, w.history.dropped, more);
  }

  lemma MoveKey(w: World, r: MoveRequest, from: Peer, e: Snapshot, c: Clock)
    requires SessionInv(w)
    ensures var key := HandleMove(w.s, r, from, e, c).2; key.Some? ==> key.value == r.key
  {
    MoveKeepsStarts(w, r, from, e, c);
    hide StartInv, HandleMove, MoveAsks;
  }

  lemma ClickKey(w: World, r: T.Request, from: Peer, e: Snapshot, now: nat, due: nat, cleared: nat)
    requires SessionInv(w)
    ensures var key := HandleClick(w.s, r, from, e, now, due, cleared).2; key.Some? ==> key.value == r.key
  {
    ClickKeepsStarts(w, r, from, e, now, due, cleared);
    hide StartInv, HandleClick, ClickAsks;
  }

  lemma {:induction false} RunCounts(w: World, labels: seq<Label>)
    requires Inv(w)
    ensures Inv(Run(w, labels))
    decreases |labels|
  {
    hide Inv, Step;
    if labels != [] {
      StepCounts(w, labels[0]);
      RunCounts(Step(w, labels[0]), labels[1..]);
    }
  }

  lemma ReachedCounts(epoch: nat, labels: seq<Label>)
    ensures Inv(Reached(epoch, labels))
  {
    hide Inv;
    BeginCounts(epoch);
    RunCounts(Reached(epoch, []), labels);
  }

  lemma BeginCounts(epoch: nat)
    ensures Inv(Reached(epoch, []))
  {
    ReachedSessions(epoch, []);
    CacheRun.ReachedCache(epoch, []);
  }

  /** A click command whose record says Completed completed exactly the clicks it was accepted for. */
  lemma CompletedEqualsAccepted(epoch: nat, labels: seq<Label>, i: nat)
    requires var w := Reached(epoch, labels);
      i < |w.s.cache| && Scheduled(w.s.cache[i]) && w.s.cache[i].key.session !in w.history.dropped
    ensures var c := Reached(epoch, labels).s.cache[i];
      c.status.Completed? ==> c.completed == c.accepted
  {
    ReachedCounts(epoch, labels);
    hide Reached, CacheRun.CacheInv, SessionInv, Begun, CacheRun.DistinctKeys, Follows;
  }

  /** While it is queued its record holds the count it is to reach and the clicks it has completed, fewer than that. */
  lemma QueuedIsCounted(epoch: nat, labels: seq<Label>, i: nat, k: nat)
    requires var w := Reached(epoch, labels);
      && i < |w.s.cache| && k < |w.s.sched.work| && w.s.sched.work[k].binary
      && w.s.cache[i].key == w.s.sched.work[k].key && w.s.cache[i].key.session !in w.history.dropped
    ensures var w := Reached(epoch, labels);
      var c, x := w.s.cache[i], w.s.sched.work[k];
      Scheduled(c) && c.accepted == x.count && c.completed == x.index && c.completed < c.accepted && !c.status.Completed?
  {
    ReachedCounts(epoch, labels);
    var w := Reached(epoch, labels);
    assert Names(w.s.cache[i], w.s.sched.work[k], w.history.dropped);
    hide Reached, CacheRun.CacheInv, SessionInv, Begun, CacheRun.DistinctKeys;
  }
}
