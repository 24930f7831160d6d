/**
 The command cache under an arbitrary environment: an unfinished record always stands for live work, so few records
 are unfinished, a full cache always has one to evict, and a release is never refused for want of room.
 */
module CacheRun {
  import opened Common
  import opened HidReport
  import opened MoveTypes
  import opened Mixer
  import opened Executor
  import opened ClickScheduler
  import opened Server
  import opened ServerRun
  import T = ClickTypes
  import Sessions

  // ---------------------------------------------------------------- invariant

  function BinaryKeys(work: seq<Click>): set<Key> {
    set x | x in work && x.binary :: x.key
  }

  ghost predicate DistinctKeys(cache: seq<Record>) {
    && (forall i, j :: 0 <= i < j < |cache| ==> cache[i].key != cache[j].key)
    && (forall i :: 0 <= i < |cache| ==> cache[i].key.session != 0)
  }

  predicate IsRelease(c: Record) {
    !c.movement && c.click.operation.ReleaseEverything?
  }

  /** The live work an unfinished record stands for. */
  predicate Live(sched: Sched, mover: Exec, c: Record) {
    if c.movement then IsActive(mover) && mover.ack.key == c.key
    else if IsRelease(c) then sched.releasePending && sched.releaseKey == c.key
    else c.key in BinaryKeys(sched.work)
  }

  ghost predicate AllLive(cache: seq<Record>, sched: Sched, mover: Exec) {
    forall i :: 0 <= i < |cache| && !cache[i].terminal ==> Live(sched, mover, cache[i])
  }

  /** While a transaction runs, its key names no other kind of record. */
  ghost predicate MoverKeyed(cache: seq<Record>, mover: Exec) {
    IsActive(mover) ==> forall i :: 0 <= i < |cache| && cache[i].key == mover.ack.key ==> cache[i].movement
  }

  ghost predicate CacheInv(s: State) {
    && DistinctKeys(s.cache) && |s.cache| <= MAX_CACHE_RECORDS && |s.sched.work| <= MAX_CLICK_COMMANDS
    && AllLive(s.cache, s.sched, s.mover) && MoverKeyed(s.cache, s.mover)
  }

  // ---------------------------------------------------------------- operations on the cache

  lemma FindDistinct(cache: seq<Record>, i: nat)
    requires DistinctKeys(cache) && i < |cache|
    ensures FindCache(cache, cache[i].key) == i
  {
  }

  /** Same records, in place, but for outcome, progress and reply address; none becomes unfinished. */
  ghost predicate Follows(a: seq<Record>, b: seq<Record>) {
    && |a| == |b|
    && (forall i :: 0 <= i < |a| ==>
          && b[i].key == a[i].key && b[i].movement == a[i].movement && b[i].click == a[i].click
          && (a[i].terminal ==> b[i].terminal))
  }

  lemma FollowsKeeps(a: seq<Record>, b: seq<Record>, mover: Exec)
    requires Follows(a, b) && DistinctKeys(a)
    ensures DistinctKeys(b) && (MoverKeyed(a, mover) ==> MoverKeyed(b, mover))
  {
  }

  predicate Ends(marks: seq<Mark>, key: Key) {
    exists m :: m in marks && m.Ended? && m.key == key
  }

  /** Marks finish exactly what they name. */
  lemma {:induction false} MarksFinish(cache: seq<Record>, marks: seq<Mark>)
    requires DistinctKeys(cache)
    ensures var b := ApplyMarks(cache, marks);
      && Follows(cache, b)
      && (forall i :: 0 <= i < |cache| ==> (b[i].terminal <==> cache[i].terminal || Ends(marks, cache[i].key)))
    decreases |marks|
  {
    if marks != [] {
      var a := ApplyMark(cache, marks[0]);
      assert Follows(cache, a);
      FollowsKeeps(cache, a, NoTransaction);
      MarksFinish(a, marks[1..]);
      var b := ApplyMarks(cache, marks);
      forall i | 0 <= i < |cache|
        ensures b[i].terminal <==> cache[i].terminal || Ends(marks, cache[i].key)
      {
        FindDistinct(cache, i);
        EndsSplit(marks, cache[i].key);
      }
    }
  }

  lemma EndsSplit(marks: seq<Mark>, key: Key)
    requires marks != []
    ensures Ends(marks, key) <==> (marks[0].Ended? && marks[0].key == key) || Ends(marks[1..], key)
  {
    assert marks == [marks[0]] + marks[1..];
    if Ends(marks[1..], key) {
      var m :| m in marks[1..] && m.Ended? && m.key == key;
      assert m in marks;
    }
    if marks[0].Ended? && marks[0].key == key {
      assert marks[0] in marks;
    }
    if Ends(marks, key) && !(marks[0].Ended? && marks[0].key == key) {
      var m :| m in marks && m.Ended? && m.key == key;
      assert m in marks[1..];
    }
  }

  lemma {:induction false} CancelEndsAll(work: seq<Click>, key: Key)
    ensures Ends(CancelMarks(work), key) <==> key in BinaryKeys(work)
    decreases |work|
  {
    if work != [] {
      CancelEndsAll(work[1..], key);
      assert work == [work[0]] + work[1..];
      var marks := CancelMarks(work);
      if work[0].binary {
        EndsSplit(marks, key);
        assert marks[1..] == CancelMarks(work[1..]);
      } else {
        assert marks == CancelMarks(work[1..]);
      }
    }
  }

  lemma EndsEither(a: seq<Mark>, b: seq<Mark>, key: Key)
    ensures Ends(a + b, key) <==> Ends(a, key) || Ends(b, key)
  {
    if Ends(a, key) {
      var m :| m in a && m.Ended? && m.key == key;
      assert m in a + b;
    }
    if Ends(b, key) {
      var m :| m in b && m.Ended? && m.key == key;
      assert m in a + b;
    }
  }

  /** The executor's record follows it; nothing else changes. */
  lemma SyncFollows(cache: seq<Record>, ack: Ack)
    requires DistinctKeys(cache)
    ensures var b := SyncCache(cache, ack);
      && |b| == |cache| && DistinctKeys(b)
      && (forall i :: 0 <= i < |cache| ==>
            && b[i].key == cache[i].key && b[i].movement == cache[i].movement && b[i].click == cache[i].click
            && (b[i].terminal <==> if cache[i].key == ack.key then Terminal(ack.status) else cache[i].terminal))
  {
    forall i | 0 <= i < |cache|
      ensures FindCache(cache, cache[i].key) == i
    {
      FindDistinct(cache, i);
    }
  }

  /** Eviction drops finished records only, and keeps the rest in order. */
  lemma {:induction false} RemoveOldKeeps(cache: seq<Record>)
    requires DistinctKeys(cache)
    ensures var b := RemoveOld(cache);
      && DistinctKeys(b) && |b| <= |cache|
      && (forall c :: c in b ==> c in cache) && (forall c :: c in cache && !c.terminal ==> c in b)
    decreases |cache|
  {
    var i := FirstTerminal(cache);
    if |cache| >= MAX_CACHE_RECORDS && i < |cache| {
      var less := cache[..i] + cache[i + 1..];
      forall c | c in cache && !c.terminal
        ensures c in less
      {
        var k :| 0 <= k < |cache| && cache[k] == c;
        assert less[if k < i then k else k - 1] == c;
      }
      RemoveOldKeeps(less);
    }
  }

  // ---------------------------------------------------------------- handlers

  /** Every unfinished record is live, but for the ReleaseAll record a reset is about to take over. */
  ghost predicate LiveBut(s: State, attach: Option<Key>) {
    && DistinctKeys(s.cache)
    && (forall i :: 0 <= i < |s.cache| && !s.cache[i].terminal ==>
          || Live(s.sched, s.mover, s.cache[i])
          || (attach == Some(s.cache[i].key) && IsRelease(s.cache[i])))
  }

  lemma StoppedMover(e: Exec, now: nat)
    ensures var f := Stopped(e, Cancelled, now); !IsActive(f) && f.ack.key == e.ack.key && Terminal(f.ack.status)
  {
  }

  lemma ResetEnds(s: State, attach: Option<Key>, key: Key)
    ensures Ends(ResetMarks(s.sched, attach), key) <==>
      || (attach.Some? && s.sched.releaseKey.session != 0 && s.sched.releaseKey != attach.value && key == s.sched.releaseKey)
      || key in BinaryKeys(s.sched.work)
  {
    var release := if attach.Some? && s.sched.releaseKey.session != 0 && s.sched.releaseKey != attach.value
                   then [Ended(s.sched.releaseKey, T.Cancelled)] else [];
    EndsEither(release, CancelMarks(s.sched.work), key);
    CancelEndsAll(s.sched.work, key);
    if release != [] {
      assert release[0] in release;
    }
  }

  /** A reset finishes every record but that of the release it owes. */
  lemma ResetKeepsCache(s: State, attach: Option<Key>, now: nat, generation: nat)
    requires LiveBut(s, attach) && |s.cache| <= MAX_CACHE_RECORDS
    ensures var t := Reset(s, attach, now, generation);
      && CacheInv(t) && |t.cache| == |s.cache| && t.sched.releasePending && !IsActive(t.mover)
      && (forall i :: 0 <= i < |s.cache| ==> t.cache[i].key == s.cache[i].key)
  {
    hide Stopped, SyncCache, ApplyMarks, ResetMarks, CancelMarks;
    var mover := Stopped(s.mover, Cancelled, now);
    StoppedMover(s.mover, now);
    SyncFollows(s.cache, mover.ack);
    var synced := SyncCache(s.cache, mover.ack);
    MarksFinish(synced, ResetMarks(s.sched, attach));
    FollowsKeeps(synced, ApplyMarks(synced, ResetMarks(s.sched, attach)), mover);
    var t := Reset(s, attach, now, generation);
    forall i | 0 <= i < |t.cache| && !t.cache[i].terminal
      ensures Live(t.sched, t.mover, t.cache[i])
    {
      ResetEnds(s, attach, s.cache[i].key);
      hide Ends;
    }
  }

  lemma AbandonKeepsCache(s: State, now: nat, generation: nat)
    requires CacheInv(s)
    ensures CacheInv(Abandon(s, now, generation))
  {
    ResetKeepsCache(s, None, now, generation);
    hide Reset;
  }

  /** The executor moves on within one transaction, and its record with it. */
  lemma SyncedKeepsCache(s: State, f: Exec)
    requires CacheInv(s) && SameMover(s.mover, f)
    ensures CacheInv(Synced(s.(mover := f)))
  {
    hide SyncCache;
    SyncFollows(s.cache, f.ack);
  }

  /** The executor still works on the same transaction, or has ended it. */
  predicate SameMover(e: Exec, f: Exec) {
    f.ack.key == e.ack.key && (IsActive(f) ==> IsActive(e))
  }

  lemma StoppedSame(e: Exec, reason: MoveTypes.Status, now: nat)
    ensures Stopped(e, reason, now).ack.key == e.ack.key
    ensures Terminal(reason) ==> SameMover(e, Stopped(e, reason, now))
  {
  }

  lemma CreditedSame(e: Exec, ev: WriterEvent)
    ensures Credited(e, ev).ack.key == e.ack.key && Credited(e, ev).ack.status == e.ack.status
  {
  }

  lemma ItemDoneSame(e: Exec, ev: WriterEvent)
    requires IsActive(e)
    ensures ItemDone(e, ev).ack.key == e.ack.key
  {
    hide Stopped, AtStage;
    StagesSame();
    StoppedSame(e.(pending := false), MoveTypes.ButtonActive, ev.written);
  }

  lemma DeliveredSame(e: Exec, ev: WriterEvent)
    ensures SameMover(e, Delivered(e, ev))
  {
    StoppedSame(e, WriterFailed, ev.written);
    CreditedSame(e, ev);
    if IsActive(e) {
      ItemDoneSame(Credited(e, ev), ev);
    }
    hide Stopped, Credited, ItemDone;
  }

  lemma RedirectedSame(e: Exec, now: nat)
    ensures SameMover(e, Redirected(e, now))
  {
  }

  lemma StagesSame()
    ensures forall e: Exec, stage: Stage, now: nat ::
              var f := AtStage(e, stage, now); f.ack.key == e.ack.key && f.ack.status == e.ack.status
  {
  }

  lemma AdvanceSame(e: Exec, now: nat)
    requires IsActive(e)
    ensures SameMover(e, Advance(e, now).e)
  {
    StagesSame();
    hide TransactionRequest, ButtonBit, AtStage;
  }

  lemma PlannedSame(e: Exec, snapshot: Snapshot, now: nat, result: EnqueueResult)
    ensures var plan := Planned(e, snapshot, now);
      SameMover(e, plan.e) && (plan.Submit? ==> SameMover(e, Answered(plan.e, result, now).0))
  {
    hide Stopped, Redirected, Advance;
    StoppedSame(e, EndpointChanged, now);
    StoppedSame(e, Interrupted, now);
    StoppedSame(e, Timeout, now);
    var plan := Planned(e, snapshot, now);
    RedirectedSame(e, now);
    if IsActive(Redirected(e, now)) {
      AdvanceSame(Redirected(e, now), now);
    }
    StoppedSame(plan.e, EndpointChanged, now);
    RedirectedActive(e, now);
  }

  lemma RedirectedActive(e: Exec, now: nat)
    ensures IsActive(Redirected(e, now)) == IsActive(e)
  {
  }

  lemma MoverTickKeepsCache(s: State, e: Snapshot, now: nat, result: EnqueueResult, cleared: nat)
    requires CacheInv(s)
    ensures CacheInv(MoverTick(s, e, now, result, cleared))
  {
    hide Planned, Answered, Reset, Synced, CacheInv;
    PlannedSame(s.mover, e, now, result);
    var plan := Planned(s.mover, e, now);
    SyncedKeepsCache(s, plan.e);
    InvIsLive(Synced(s.(mover := plan.e)));
    ResetKeepsCache(Synced(s.(mover := plan.e)), None, now, cleared);
    if plan.Submit? {
      var f := Answered(plan.e, result, now).0;
      SyncedKeepsCache(s, f);
      InvIsLive(Synced(s.(mover := f)));
      ResetKeepsCache(Synced(s.(mover := f)), None, now, cleared);
    }
  }

  lemma InvIsLive(s: State)
    requires CacheInv(s)
    ensures LiveBut(s, None) && |s.cache| <= MAX_CACHE_RECORDS
  {
  }

  /** The scheduler moves on: what it stops working for, it marks as ended. */
  lemma SchedKeepsCache(s: State, sched: Sched, marks: seq<Mark>)
    requires CacheInv(s) && |sched.work| <= MAX_CLICK_COMMANDS
    requires forall k :: k in BinaryKeys(s.sched.work) ==> k in BinaryKeys(sched.work) || Ends(marks, k)
    requires s.sched.releasePending && s.sched.releaseKey.session != 0 ==>
      (sched.releasePending && sched.releaseKey == s.sched.releaseKey) || Ends(marks, s.sched.releaseKey)
    ensures CacheInv(s.(sched := sched, cache := ApplyMarks(s.cache, marks)))
  {
    hide ApplyMarks, Ends, BinaryKeys;
    MarksFinish(s.cache, marks);
    FollowsKeeps(s.cache, ApplyMarks(s.cache, marks), s.mover);
  }

  lemma FrontKeys(work: seq<Click>, front: Click)
    requires work != [] && front.key == work[0].key && front.binary == work[0].binary
    ensures BinaryKeys([front] + work[1..]) == BinaryKeys(work)
  {
    assert work == [work[0]] + work[1..];
  }

  lemma DroppedFrontKeys(work: seq<Click>)
    requires work != []
    ensures forall k :: k in BinaryKeys(work) ==> k in BinaryKeys(work[1..]) || (work[0].binary && k == work[0].key)
  {
    assert work == [work[0]] + work[1..];
  }

  lemma EndsHere(mark: Mark, marks: seq<Mark>)
    requires mark.Ended? && mark in marks
    ensures Ends(marks, mark.key)
  {
  }

  /** What the scheduler must mark when it goes from one state to another. */
  ghost predicate Covers(s: Sched, t: Sched, marks: seq<Mark>) {
    && |t.work| <= |s.work|
    && (forall k :: k in BinaryKeys(s.work) ==> k in BinaryKeys(t.work) || Ends(marks, k))
    && (s.releasePending && s.releaseKey.session != 0 ==>
          (t.releasePending && t.releaseKey == s.releaseKey) || Ends(marks, s.releaseKey))
  }

  lemma FinishCovers(s: Sched, status: T.Status, before: seq<Mark>)
    requires s.work != []
    ensures var (t, marks) := FinishFront(s, status); Covers(s, t, marks) && Covers(s, t, before + marks)
  {
    var (t, marks) := FinishFront(s, status);
    DroppedFrontKeys(s.work);
    if s.work[0].binary {
      EndsHere(marks[0], marks);
      EndsHere(marks[0], before + marks);
    }
    hide Ends, BinaryKeys;
  }

  lemma FrontCovers(s: Sched, front: Click, marks: seq<Mark>)
    requires s.work != [] && front.key == s.work[0].key && front.binary == s.work[0].binary
    ensures Covers(s, FrontAs(s, front), marks)
  {
    FrontKeys(s.work, front);
    hide Ends, BinaryKeys;
  }

  /** A settled event marks whatever it stops working for. */
  lemma SettledMarks(s: Sched, ev: WriterEvent)
    ensures var (t, marks) := Settled(s, ev); Covers(s, t, marks)
  {
    var (t, marks) := Settled(s, ev);
    if EndsRelease(s, ev) {
      if s.releaseKey.session != 0 {
        EndsHere(Ended(s.releaseKey, T.Completed), marks);
      }
    } else if s.work != [] {
      FrontCovers(s, Pressed(s.work[0], ev), marks);
      FrontCovers(s, Rearmed(s.work[0], ev), marks);
      FinishCovers(s, T.ButtonActive, []);
      FinishCovers(s, T.Completed, [Progressed(s.work[0].key, s.work[0].index + 1)]);
      assert [] + FinishFront(s, T.ButtonActive).1 == FinishFront(s, T.ButtonActive).1;
      hide FinishFront, FrontAs, Pressed, Rearmed, HasButton, Covers;
      NothingCovers(s, marks);
    }
    hide Ends, BinaryKeys;
  }

  lemma NothingCovers(s: Sched, marks: seq<Mark>)
    ensures Covers(s, s, marks)
  {
  }

  lemma DeliverKeepsCache(s: State, ev: WriterEvent, now: nat, cleared: nat)
    requires CacheInv(s)
    ensures CacheInv(Deliver(s, ev, now, cleared))
  {
    hide Delivered, Synced, CacheInv, Abandon, Settled, ApplyMarks;
    DeliveredSame(s.mover, ev);
    var t := Synced(s.(mover := Delivered(s.mover, ev)));
    SyncedKeepsCache(s, Delivered(s.mover, ev));
    AbandonKeepsCache(t, now, cleared);
    SettledMarks(t.sched, ev);
    WorkIsShort(t);
    SchedKeepsCache(t, Settled(t.sched, ev).0, Settled(t.sched, ev).1);
  }

  lemma WorkIsShort(s: State)
    requires CacheInv(s)
    ensures |s.sched.work| <= MAX_CLICK_COMMANDS && |s.cache| <= MAX_CACHE_RECORDS
  {
  }

  lemma SchedTickKeepsCache(s: State, e: Snapshot, now: nat, result: EnqueueResult, cleared: nat)
    requires CacheInv(s)
    ensures CacheInv(SchedTick(s, e, now, result, cleared))
  {
    hide CacheInv, Reset, ApplyMarks, Ends, BinaryKeys;
    var turn := PlanTick(s.sched, e, now);
    WorkIsShort(s);
    if turn.NeedReset? || AnswerResets(turn, result) {
      InvIsLive(s);
      ResetKeepsCache(s, None, now, cleared);
    } else if turn.FinishActive? {
      var (sched, marks) := FinishFront(s.sched, T.ButtonActive);
      DroppedFrontKeys(s.sched.work);
      if s.sched.work[0].binary {
        EndsHere(marks[0], marks);
      }
      SchedKeepsCache(s, sched, marks);
    } else {
      if s.sched.work != [] {
        FrontKeys(s.sched.work, s.sched.work[0].(phase := PressInflight));
        FrontKeys(s.sched.work, s.sched.work[0].(phase := ReleaseInflight));
        FrontKeys(s.sched.work, s.sched.work[0].(phase := AwaitRelease));
      }
      var sched := TurnAnswered(s.sched, turn, result);
      NoMarks(s.cache);
      SchedKeepsCache(s, sched, []);
    }
  }

  lemma TrackKeepsCache(s: State, ready: bool, generation: nat, now: nat, cleared: nat, again: nat)
    requires CacheInv(s)
    ensures CacheInv(Track(s, ready, generation, now, cleared, again))
  {
    hide Abandon, Live;
    var t := s.(sched := s.sched.(tracked := generation));
    TrackedKeeps(s, generation);
    AbandonKeepsCache(s, now, cleared);
    AbandonKeepsCache(t, now, cleared);
    TrackedKeeps(Abandon(s, now, cleared), again);
    TrackedKeeps(Abandon(t, now, cleared), again);
    hide CacheInv;
  }

  lemma TrackedKeeps(s: State, generation: nat)
    requires CacheInv(s)
    ensures CacheInv(s.(sched := s.sched.(tracked := generation)))
  {
    hide BinaryKeys;
  }

  // ---------------------------------------------------------------- packets

  /** A fresh record, live in the new state, over a cache with room. */
  lemma AppendKeepsCache(s: State, t: State, c: Record, attach: Option<Key>)
    requires CacheInv(s) && !Cached(s.cache, c.key) && c.key.session != 0
    requires t.cache == RemoveOld(s.cache) + [c]
    requires Live(t.sched, t.mover, c) || (attach == Some(c.key) && IsRelease(c))
    requires forall d :: d in s.cache && !d.terminal && Live(s.sched, s.mover, d) ==> Live(t.sched, t.mover, d)
    ensures LiveBut(t, attach)
    ensures |RemoveOld(s.cache)| <= |s.cache|
    ensures forall d :: d in RemoveOld(s.cache) ==> d.key != c.key
  {
    hide RemoveOld, Live;
    RemoveOldKeeps(s.cache);
    var cache := RemoveOld(s.cache);
    forall d | d in cache
      ensures d.key != c.key && (!d.terminal ==> Live(t.sched, t.mover, d))
    {
      var k :| 0 <= k < |s.cache| && s.cache[k] == d;
    }
    forall i | 0 <= i < |cache|
      ensures cache[i].key != c.key
    {
      assert cache[i] in cache;
    }
    forall i | 0 <= i < |cache| && !cache[i].terminal
      ensures Live(t.sched, t.mover, cache[i])
    {
      assert cache[i] in cache;
    }
  }

  lemma StartMoveKeepsCache(s: State, r: MoveRequest, from: Peer, e: Snapshot, c: Clock)
    requires CacheInv(s) && !Cached(s.cache, r.key) && r.key.session != 0 && !IsActive(s.mover)
    ensures CacheInv(StartMove(s, r, from, e, c).0)
  {
    hide RemoveOld, Protected, BinaryKeys;
    RemoveOldKeeps(s.cache);
    var (t, reply, key) := StartMove(s, r, from, e, c);
    if key.None? {
      FewerKeepCache(s, RemoveOld(s.cache));
      OnlyCacheMatters(s.(cache := RemoveOld(s.cache)), t);
    } else {
      AppendKeepsCache(s, t, MoveRecord(r, t.mover.ack, from), None);
    }
  }

  lemma OnlyCacheMatters(s: State, t: State)
    requires CacheInv(s) && t.cache == s.cache && t.sched == s.sched && t.mover == s.mover
    ensures CacheInv(t)
  {
  }

  lemma FewerKeepCache(s: State, cache: seq<Record>)
    requires CacheInv(s) && DistinctKeys(cache) && |cache| <= |s.cache| && forall c :: c in cache ==> c in s.cache
    ensures CacheInv(s.(cache := cache))
  {
    hide Live;
    forall i | 0 <= i < |cache|
      ensures !cache[i].terminal ==> Live(s.sched, s.mover, cache[i])
      ensures IsActive(s.mover) && cache[i].key == s.mover.ack.key ==> cache[i].movement
    {
      assert cache[i] in cache;
      var k :| 0 <= k < |s.cache| && s.cache[k] == cache[i];
    }
  }

  /** Answering a repeated command changes only where replies go, and flags of the executor. */
  lemma RepeatKeepsCache(s: State, i: nat, from: Peer, mover: Exec, now: nat)
    requires CacheInv(s) && i < |s.cache| && SameMover(s.mover, mover) && IsActive(mover) == IsActive(s.mover)
    ensures CacheInv(Own(s.(mover := mover, cache := s.cache[i := s.cache[i].(peer := from)]), from, now))
  {
    hide BinaryKeys;
  }

  lemma MoveKeepsCache(s: State, r: MoveRequest, from: Peer, e: Snapshot, c: Clock)
    requires CacheInv(s) && Proper(r.key)
    ensures CacheInv(HandleMove(s, r, from, e, c).0)
  {
    hide CacheInv, MoveObstacle, StartMove, MoveRejection;
    var i := FindCache(s.cache, r.key);
    var p := s.(sessions := Sessions.PrunedTable(s.sessions, c.stale));
    OnlyCacheMatters(s, p);
    if i < |s.cache| {
      RepeatKeepsCache(s, i, from, s.mover, c.accept);
      RepeatKeepsCache(s, i, from, Proceeded(s.mover), c.accept);
      RepeatKeepsCache(s, i, from, Cancelling(s.mover), c.accept);
    } else if MoveObstacle(s, r, e).None? {
      NoObstacle(s, r, e);
      StartMoveKeepsCache(p, r, from, e, c);
    }
  }

  lemma NoObstacle(s: State, r: MoveRequest, e: Snapshot)
    requires MoveObstacle(s, r, e).None?
    ensures !IsActive(s.mover) && s.sched.work == [] && !s.sched.releasePending
  {
  }

  lemma AppendedWork(work: seq<Click>, click: Click)
    ensures BinaryKeys(work) <= BinaryKeys(work + [click])
    ensures click.binary ==> click.key in BinaryKeys(work + [click])
  {
    assert forall x :: x in work + [click] <==> x in work || x == click;
  }

  lemma WorkGrows(s: State, t: State, click: Click)
    requires t.mover == s.mover && t.sched.work == s.sched.work + [click]
    requires t.sched.releasePending == s.sched.releasePending && t.sched.releaseKey == s.sched.releaseKey
    ensures forall d :: Live(s.sched, s.mover, d) ==> Live(t.sched, t.mover, d)
  {
    AppendedWork(s.sched.work, click);
    hide BinaryKeys;
  }

  lemma ScheduleKeepsCache(s: State, r: T.Request, from: Peer, e: Snapshot, now: nat, due: nat, cleared: nat)
    requires CacheInv(s) && !Cached(s.cache, r.key) && Proper(r.key) && r.operation.Schedule?
    requires !IsActive(s.mover) && |s.sched.work| < MAX_CLICK_COMMANDS
    ensures CacheInv(StartClick(s, r, from, e, now, due, cleared).0)
  {
    hide RemoveOld, Protected, BinaryKeys;
    RemoveOldKeeps(s.cache);
    var (t, reply, key) := StartClick(s, r, from, e, now, due, cleared);
    if key.None? {
      FewerKeepCache(s, RemoveOld(s.cache));
      OnlyCacheMatters(s.(cache := RemoveOld(s.cache)), t);
    } else {
      WorkGrows(s, t, NewClick(r, due));
      AppendedWork(s.sched.work, NewClick(r, due));
      AppendKeepsCache(s, t, ClickRecord(r, from), None);
    }
  }

  lemma ReleaseKeepsCache(s: State, r: T.Request, from: Peer, e: Snapshot, now: nat, due: nat, cleared: nat)
    requires CacheInv(s) && !Cached(s.cache, r.key) && Proper(r.key) && r.operation.ReleaseEverything?
    ensures CacheInv(StartClick(s, r, from, e, now, due, cleared).0)
  {
    hide RemoveOld, Protected, BinaryKeys, Reset, Live;
    RemoveOldKeeps(s.cache);
    var cache := RemoveOld(s.cache);
    var (t, reply, key) := StartClick(s, r, from, e, now, due, cleared);
    if key.None? {
      FewerKeepCache(s, cache);
      OnlyCacheMatters(s.(cache := cache), t);
    } else {
      var sessions := Sessions.Admit(Sessions.PrunedTable(s.sessions, now), r.key.session, now, true, Protected(cache)).0;
      var u := Own(s.(cache := cache + [ClickRecord(r, from)],
                      sessions := Sessions.Accept(sessions, r.key.session, r.key.command, now)), from, now);
      AppendKeepsCache(s, u, ClickRecord(r, from), Some(r.key));
      ResetKeepsCache(u, Some(r.key), now, cleared);
    }
  }

  lemma ClickKeepsCache(s: State, r: T.Request, from: Peer, e: Snapshot, now: nat, due: nat, cleared: nat)
    requires CacheInv(s) && Proper(r.key)
    ensures CacheInv(HandleClick(s, r, from, e, now, due, cleared).0)
  {
    hide CacheInv, StartClick;
    var i := FindCache(s.cache, r.key);
    var p := s.(sessions := Sessions.PrunedTable(s.sessions, now));
    OnlyCacheMatters(s, p);
    if i < |s.cache| {
      RepeatKeepsCache(s, i, from, s.mover, now);
    } else if r.operation.ReleaseEverything? {
      ReleaseKeepsCache(p, r, from, e, now, due, cleared);
    } else if ClickObstacle(s, r, e).None? {
      ScheduleKeepsCache(p, r, from, e, now, due, cleared);
    }
  }

  lemma MotionKeepsCache(s: State, from: Peer, sequence: nat, c: Command, next: bv8, e: Snapshot, now: nat,
                         result: EnqueueResult)
    requires CacheInv(s)
    ensures CacheInv(HandleMotion(s, from, sequence, c, next, e, now, result))
  {
    hide BinaryKeys, AllLive, DistinctKeys, MoverKeyed;
    var t := HandleMotion(s, from, sequence, c, next, e, now, result);
    assert t.cache == s.cache && t.mover == s.mover;
    assert t.sched == s.sched.(persistent := t.sched.persistent, tracked := t.sched.tracked);
    MasksKeepCache(s, t);
  }

  lemma MasksKeepCache(s: State, t: State)
    requires CacheInv(s) && t.cache == s.cache && t.mover == s.mover
    requires t.sched == s.sched.(persistent := t.sched.persistent, tracked := t.sched.tracked)
    ensures CacheInv(t)
  {
    hide BinaryKeys;
  }

  lemma TextReleaseKeepsCache(s: State, from: Peer, now: nat, cleared: nat)
    requires CacheInv(s)
    ensures CacheInv(HandleTextRelease(s, from, now, cleared))
  {
    ResetKeepsCache(s, None, now, cleared);
    OnlyCacheMatters(Reset(s, None, now, cleared), Own(Reset(s, None, now, cleared), from, now));
    hide Reset, CacheInv;
  }

  lemma TextReportKeepsCache(s: State, from: Peer, next: bv8, e: Snapshot, now: nat, result: EnqueueResult)
    requires CacheInv(s)
    ensures CacheInv(HandleTextReport(s, from, next, e, now, result))
  {
    hide CacheInv;
    MasksKeepCache(s, HandleTextReport(s, from, next, e, now, result));
  }

  lemma TextClickKeepsCache(s: State, from: Peer, button: nat, e: Snapshot, now: nat, due: nat)
    requires CacheInv(s)
    ensures CacheInv(HandleTextClick(s, from, button, e, now, due))
  {
    hide BinaryKeys, HasButton;
    var t := HandleTextClick(s, from, button, e, now, due);
    if t != s {
      WorkGrows(s, t, t.sched.work[|t.sched.work| - 1]);
    }
    hide Live, HandleTextClick;
  }

  // ---------------------------------------------------------------- every run

  lemma StepKeepsCache(s: State, l: Label)
    requires CacheInv(s)
    ensures CacheInv(Next(s, l).0)
  {
    hide CacheInv, Track, Deliver, Abandon, Watchdog, MoverTick, SchedTick, HandleMove, HandleClick, HandleMotion,
         HandleTextClick, HandleTextRelease, HandleTextReport;
    match l
    case Top(ready, generation, now, cleared, again) => TrackKeepsCache(s, ready, generation, now, cleared, again);
    case Event(ev, now, cleared) => DeliverKeepsCache(s, ev, now, cleared);
    case Overflow(now, cleared) => AbandonKeepsCache(s, now, cleared);
    case LeaseCheck(now, cleared) => WatchdogKeepsCache(s, now, cleared);
    case MoverTurn(e, now, result, cleared) => MoverTickKeepsCache(s, e, now, result, cleared);
    case ClickTurn(e, now, result, cleared) => SchedTickKeepsCache(s, e, now, result, cleared);
    case MovePacket(r, from, e, clock) =>
      if Proper(r.key) {
        MoveKeepsCache(s, r, from, e, clock);
      }
    case ClickPacket(r, from, e, now, due, cleared) =>
      if Proper(r.key) {
        ClickKeepsCache(s, r, from, e, now, due, cleared);
      }
    case MotionPacket(from, sequence, motion, next, e, now, result) =>
      MotionKeepsCache(s, from, sequence, motion, next, e, now, result);
    case TextClick(from, button, e, now, due) => TextClickKeepsCache(s, from, button, e, now, due);
    case TextRelease(from, now, cleared) => TextReleaseKeepsCache(s, from, now, cleared);
    case TextReport(from, next, e, now, result) => TextReportKeepsCache(s, from, next, e, now, result);
  }

  lemma WatchdogKeepsCache(s: State, now: nat, cleared: nat)
    requires CacheInv(s)
    ensures CacheInv(Watchdog(s, now, cleared))
  {
    AbandonKeepsCache(s, now, cleared);
    hide CacheInv, Abandon;
  }

  lemma {:induction false} RunKeepsCache(w: World, labels: seq<Label>)
    requires CacheInv(w.s)
    ensures CacheInv(Run(w, labels).s)
    decreases |labels|
  {
    hide CacheInv, Next;
    if labels != [] {
      StepKeepsCache(w.s, labels[0]);
      RunKeepsCache(Step(w, labels[0]), labels[1..]);
    }
  }

  lemma ReachedCache(epoch: nat, labels: seq<Label>)
    ensures CacheInv(Reached(epoch, labels).s)
  {
    RunKeepsCache(Reached(epoch, []), labels);
  }

  /** An unfinished record is the running transaction, the release owed, or a queued click command. */
  lemma UnfinishedIsLive(epoch: nat, labels: seq<Label>, i: nat)
    requires i < |Reached(epoch, labels).s.cache| && !Reached(epoch, labels).s.cache[i].terminal
    ensures var s := Reached(epoch, labels).s;
      var c := s.cache[i];
      if c.movement then IsActive(s.mover) && s.mover.ack.key == c.key
      else if IsRelease(c) then s.sched.releasePending && s.sched.releaseKey == c.key
      else exists k :: 0 <= k < |s.sched.work| && s.sched.work[k].binary && s.sched.work[k].key == c.key
  {
    ReachedCache(epoch, labels);
    var s := Reached(epoch, labels).s;
    hide Reached;
    assert Live(s.sched, s.mover, s.cache[i]);
    if !s.cache[i].movement && !IsRelease(s.cache[i]) {
      var x :| x in s.sched.work && x.binary && x.key == s.cache[i].key;
    }
  }

  /** At most one ReleaseAll is unfinished, and it is the one the server owes. */
  lemma OneReleaseIsOwed(epoch: nat, labels: seq<Label>, i: nat, j: nat)
    requires i < |Reached(epoch, labels).s.cache| && j < |Reached(epoch, labels).s.cache|
    requires var cache := Reached(epoch, labels).s.cache;
      IsRelease(cache[i]) && !cache[i].terminal && IsRelease(cache[j]) && !cache[j].terminal
    ensures i == j
  {
    ReachedCache(epoch, labels);
    var s := Reached(epoch, labels).s;
    hide Reached;
    assert Live(s.sched, s.mover, s.cache[i]) && Live(s.sched, s.mover, s.cache[j]);
  }

  function Unfinished(cache: seq<Record>): nat {
    if cache == [] then 0 else (if cache[0].terminal then 0 else 1) + Unfinished(cache[1..])
  }

  function UnfinishedKeys(cache: seq<Record>): set<Key> {
    set c | c in cache && !c.terminal :: c.key
  }

  lemma HeadKeyIsNew(cache: seq<Record>)
    requires DistinctKeys(cache) && cache != []
    ensures DistinctKeys(cache[1..]) && cache[0].key !in UnfinishedKeys(cache[1..])
  {
    forall c | c in cache[1..]
      ensures c.key != cache[0].key
    {
      var k :| 0 <= k < |cache| - 1 && cache[1..][k] == c;
      assert cache[k + 1] == c;
    }
  }

  lemma {:induction false} UnfinishedCount(cache: seq<Record>)
    requires DistinctKeys(cache)
    ensures Unfinished(cache) == |UnfinishedKeys(cache)|
  {
    hide DistinctKeys;
    if cache != [] {
      var rest := cache[1..];
      HeadKeyIsNew(cache);
      UnfinishedCount(rest);
      assert cache == [cache[0]] + rest;
      if cache[0].terminal {
        assert UnfinishedKeys(cache) == UnfinishedKeys(rest);
      } else {
        assert UnfinishedKeys(cache) == UnfinishedKeys(rest) + {cache[0].key};
      }
    }
  }

  lemma {:induction false} KeysAreFew(work: seq<Click>)
    ensures |BinaryKeys(work)| <= |work|
  {
    if work != [] {
      KeysAreFew(work[1..]);
      assert work == [work[0]] + work[1..];
      assert BinaryKeys(work) <= BinaryKeys(work[1..]) + {work[0].key};
      Subsets(BinaryKeys(work), BinaryKeys(work[1..]) + {work[0].key});
    }
  }

  lemma {:induction false} Subsets(a: set<Key>, b: set<Key>)
    requires a <= b
    ensures |a| <= |b|
    decreases |a|
  {
    if a != {} {
      var x :| x in a;
      Subsets(a - {x}, b - {x});
    }
  }

  lemma FewUnfinished(s: State)
    requires CacheInv(s)
    ensures Unfinished(s.cache) <= MAX_CLICK_COMMANDS + 2
  {
    UnfinishedCount(s.cache);
    KeysAreFew(s.sched.work);
    var live := BinaryKeys(s.sched.work) + {s.sched.releaseKey} + {s.mover.ack.key};
    forall k | k in UnfinishedKeys(s.cache)
      ensures k in live
    {
      var c :| c in s.cache && !c.terminal && c.key == k;
      assert Live(s.sched, s.mover, c);
    }
    Subsets(UnfinishedKeys(s.cache), live);
  }

  /** At most 66 records are ever unfinished: 64 clicks, one release, one transaction. */
  lemma UnfinishedAreFew(epoch: nat, labels: seq<Label>)
    ensures Unfinished(Reached(epoch, labels).s.cache) <= 66
  {
    ReachedCache(epoch, labels);
    FewUnfinished(Reached(epoch, labels).s);
    hide Reached;
  }

  lemma {:induction false} AllUnfinished(cache: seq<Record>)
    requires FirstTerminal(cache) == |cache|
    ensures Unfinished(cache) == |cache|
  {
    if cache != [] {
      AllUnfinished(cache[1..]);
    }
  }

  lemma {:induction false} EvictionKeepsCount(cache: seq<Record>, i: nat)
    requires i < |cache| && cache[i].terminal
    ensures Unfinished(cache[..i] + cache[i + 1..]) == Unfinished(cache)
    decreases i
  {
    if i == 0 {
      assert cache[..0] + cache[1..] == cache[1..];
    } else {
      EvictionKeepsCount(cache[1..], i - 1);
      var less := cache[..i] + cache[i + 1..];
      assert less[1..] == cache[1..][..i - 1] + cache[1..][i..];
    }
  }

  lemma {:induction false} RoomFor(cache: seq<Record>)
    requires Unfinished(cache) < MAX_CACHE_RECORDS
    ensures |RemoveOld(cache)| < MAX_CACHE_RECORDS
    decreases |cache|
  {
    var i := FirstTerminal(cache);
    if |cache| >= MAX_CACHE_RECORDS {
      if i == |cache| {
        AllUnfinished(cache);
      } else {
        EvictionKeepsCount(cache, i);
        RoomFor(cache[..i] + cache[i + 1..]);
      }
    }
  }

  /** A full cache always has a finished record to evict, so every fresh command finds room. */
  lemma EvictionMakesRoom(epoch: nat, labels: seq<Label>)
    ensures |RemoveOld(Reached(epoch, labels).s.cache)| < MAX_CACHE_RECORDS
  {
    UnfinishedAreFew(epoch, labels);
    RoomFor(Reached(epoch, labels).s.cache);
  }

  /** A fresh ReleaseAll of the owner is accepted, whatever is queued, cached or tracked, and is then owed. */
  lemma ReleaseIsNeverRefused(epoch: nat, labels: seq<Label>, r: T.Request, from: Peer, e: Snapshot,
                              now: nat, due: nat, cleared: nat)
    requires Proper(r.key) && r.operation.ReleaseEverything?
    requires var s := Reached(epoch, labels).s;
      && !Foreign(s, from) && !Cached(s.cache, r.key)
      && !Sessions.Stale(Sessions.PrunedTable(s.sessions, now), r.key.session, r.key.command)
    ensures var (t, reply, key) := HandleClick(Reached(epoch, labels).s, r, from, e, now, due, cleared);
      && reply.status.Accepted? && key == Some(r.key)
      && t.sched.releasePending && !t.sched.releaseInflight && t.sched.releaseKey == r.key
      && t.sched.work == [] && t.sched.persistent == 0 && t.sched.scheduled == 0 && !IsActive(t.mover)
  {
    EvictionMakesRoom(epoch, labels);
    var s := Reached(epoch, labels).s;
    hide Reached;
    var cache := RemoveOld(s.cache);
    var p := Sessions.PrunedTable(s.sessions, now);
    var u := s.(sessions := p);
    ForcedAdmission(Sessions.PrunedTable(p, now), r.key.session, now, Protected(cache));
    StoppedMover(s.mover, now);
    hide RemoveOld, Protected, Sessions.Admit, Sessions.Accept, Sessions.PrunedTable, Sessions.Stale, ApplyMarks, SyncCache,
         ResetMarks, Stopped, FindCache;
  }

  lemma ForcedAdmission(t: Sessions.Table, session: nat, now: nat, protected: set<nat>)
    ensures Sessions.Admit(t, session, now, true, protected).1
  {
  }

  // ---------------------------------------------------------------- exactly when a command starts

  /** A session can be taken up: it is active, there is room, or an active session has nothing unfinished. */
  predicate MayEnter(t: Sessions.Table, session: nat, protected: set<nat>) {
    || Sessions.Has(t.active, session) || |t.active| < Sessions.MAX_ACTIVE
    || exists i :: 0 <= i < |t.active| && t.active[i].session !in protected
  }

  lemma AdmissionIff(t: Sessions.Table, session: nat, now: nat, protected: set<nat>)
    ensures Sessions.Admit(t, session, now, false, protected).1 <==> MayEnter(t, session, protected)
  {
    var i := Sessions.FirstFree(t.active, protected);
    assert i < |t.active| <==> exists k :: 0 <= k < |t.active| && t.active[k].session !in protected;
  }

  lemma {:induction false} PrunedOnce(entries: seq<Sessions.Entry>, now: nat)
    ensures Sessions.Pruned(Sessions.Pruned(entries, now), now) == Sessions.Pruned(entries, now)
  {
    if entries != [] {
      PrunedOnce(entries[1..], now);
      var kept := Sessions.Pruned(entries, now);
      if !Sessions.Expired(entries[0], now) {
        assert kept[1..] == Sessions.Pruned(entries[1..], now);
      }
    }
  }

  /** In every reachable state a ReleaseAll starts if and only if it is the owner's, unknown, and above its session's mark. */
  lemma ReleaseStartsIff(epoch: nat, labels: seq<Label>, r: T.Request, from: Peer, e: Snapshot,
                         now: nat, due: nat, cleared: nat)
    requires Proper(r.key) && r.operation.ReleaseEverything?
    ensures var s := Reached(epoch, labels).s;
      HandleClick(s, r, from, e, now, due, cleared).2 == Some(r.key)
      <==> !Foreign(s, from) && !Cached(s.cache, r.key)
           && !Sessions.Stale(Sessions.PrunedTable(s.sessions, now), r.key.session, r.key.command)
  {
    var s := Reached(epoch, labels).s;
    if !Foreign(s, from) && !Cached(s.cache, r.key)
       && !Sessions.Stale(Sessions.PrunedTable(s.sessions, now), r.key.session, r.key.command) {
      ReleaseIsNeverRefused(epoch, labels, r, from, e, now, due, cleared);
    }
    hide Reached, StartClick, Sessions.Stale, Sessions.PrunedTable, FindCache;
  }

  /** A click command starts if and only if, besides, nothing stands against it and its session can be taken up. */
  lemma ClickStartsIff(epoch: nat, labels: seq<Label>, r: T.Request, from: Peer, e: Snapshot,
                       now: nat, due: nat, cleared: nat)
    requires Proper(r.key) && r.operation.Schedule?
    ensures var s := Reached(epoch, labels).s;
      var t := Sessions.PrunedTable(s.sessions, now);
      HandleClick(s, r, from, e, now, due, cleared).2 == Some(r.key)
      <==> !Foreign(s, from) && !Cached(s.cache, r.key) && !Sessions.Stale(t, r.key.session, r.key.command)
           && ClickObstacle(s, r, e).None? && MayEnter(t, r.key.session, Protected(RemoveOld(s.cache)))
  {
    EvictionMakesRoom(epoch, labels);
    var s := Reached(epoch, labels).s;
    hide Reached;
    var t := Sessions.PrunedTable(s.sessions, now);
    PrunedOnce(s.sessions.retired, now);
    assert Sessions.PrunedTable(t, now) == t;
    AdmissionIff(t, r.key.session, now, Protected(RemoveOld(s.cache)));
    hide Sessions.Stale, Sessions.PrunedTable, FindCache, ClickObstacle, RemoveOld, Protected, Sessions.Admit,
         Sessions.Accept, MayEnter;
  }

  /** So does a transaction of the server's epoch; its session may be looked up at two times. */
  lemma MoveStartsIff(epoch: nat, labels: seq<Label>, r: MoveRequest, from: Peer, e: Snapshot, c: Clock)
    requires Proper(r.key)
    ensures var s := Reached(epoch, labels).s;
      var t := Sessions.PrunedTable(s.sessions, c.stale);
      HandleMove(s, r, from, e, c).2 == Some(r.key)
      <==> !Foreign(s, from) && r.epoch == s.epoch && !Cached(s.cache, r.key) && r.operation.Execute?
           && !Sessions.Stale(t, r.key.session, r.key.command) && MoveObstacle(s, r, e).None?
           && MayEnter(Sessions.PrunedTable(t, c.admit), r.key.session, Protected(RemoveOld(s.cache)))
  {
    EvictionMakesRoom(epoch, labels);
    var s := Reached(epoch, labels).s;
    hide Reached;
    var t := Sessions.PrunedTable(s.sessions, c.stale);
    AdmissionIff(Sessions.PrunedTable(t, c.admit), r.key.session, c.admit, Protected(RemoveOld(s.cache)));
    hide Sessions.Stale, Sessions.PrunedTable, FindCache, MoveObstacle, MoveRejection, RemoveOld, Protected, Sessions.Admit,
         Sessions.Accept, MayEnter, Started;
  }
}
