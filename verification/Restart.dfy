/**
 A command that starts twice: one ReleaseAll each from 289 sessions pushes the first session's record out of the
 cache and its mark out of the tracker, and the first command is then accepted again.
 */
module Restart {
  import opened Common
  import opened MoveTypes
  import opened Executor
  import opened ClickScheduler
  import opened Server
  import opened ServerRun
  import CacheRun
  import ClickCounts
  import T = ClickTypes
  import Sessions
  import S = SessionHistory
  import Replay = MotionReplay

  const CONTROLLER: Peer := Replay.Peer(1, 1)

  const SIGHT: Snapshot := Snapshot(true, 1, 0, 1000, 0, 0, 0, 0, 0, 0, 0, 0, 0, 0)

  /** How many sessions it takes: 32 active ones, 256 tombstones, and one more. */
  const SESSIONS: nat := 289

  function ReleaseOf(session: nat): T.Request {
    T.Request(T.ReleaseEverything, 0, Key(session, 1), 0, 0, 0, T.VERSION1)
  }

  function Packet(session: nat): Label {
    ClickPacket(ReleaseOf(session), CONTROLLER, SIGHT, 0, 0, 1)
  }

  /** The first command of each of the sessions 1..n. */
  function Flood(n: nat): seq<Label> {
    if n == 0 then [] else Flood(n - 1) + [Packet(n)]
  }

  // ---------------------------------------------------------------- the state after n sessions

  /** Entries of consecutive sessions, up to `last`. */
  predicate Row(entries: seq<Sessions.Entry>, last: nat, limit: nat) {
    && |entries| == (if last < limit then last else limit)
    && (forall i :: 0 <= i < |entries| ==>
          entries[i].session == last - |entries| + 1 + i && entries[i].stamp == 0)
  }

  function Least(a: nat, b: nat): nat { if a < b then a else b }

  predicate FloodedTable(t: Sessions.Table, n: nat) {
    && Row(t.active, n, Sessions.MAX_ACTIVE)
    && Row(t.retired, n - Least(n, Sessions.MAX_ACTIVE), Sessions.MAX_RETIRED)
  }

  /** Records of the last sessions; all but the very last are finished. */
  predicate FloodedCache(cache: seq<Record>, n: nat) {
    && |cache| == Least(n, MAX_CACHE_RECORDS)
    && (forall i :: 0 <= i < |cache| ==>
          && cache[i].key == Key(n - |cache| + 1 + i, 1)
          && (i < |cache| - 1 ==> cache[i].terminal))
  }

  predicate Flooded(s: State, n: nat) {
    && FloodedCache(s.cache, n) && FloodedTable(s.sessions, n)
    && s.sched.work == [] && s.sched.releaseKey == (if n == 0 then NoKey else Key(n, 1))
    && s.mover == NoTransaction && !Foreign(s, CONTROLLER)
  }

  // ---------------------------------------------------------------- sessions

  lemma {:induction false} NothingExpires(entries: seq<Sessions.Entry>)
    requires forall i :: 0 <= i < |entries| ==> entries[i].stamp == 0
    ensures Sessions.Pruned(entries, 0) == entries
  {
    if entries != [] {
      NothingExpires(entries[1..]);
    }
  }

  lemma NotInRow(entries: seq<Sessions.Entry>, last: nat, limit: nat, session: nat)
    requires Row(entries, last, limit) && (session > last || session <= last - |entries|)
    ensures Sessions.IndexOf(entries, session) == |entries|
  {
  }

  lemma TableIsPruned(t: Sessions.Table, n: nat)
    requires FloodedTable(t, n)
    ensures Sessions.PrunedTable(t, 0) == t
  {
    NothingExpires(t.retired);
  }

  /** A new session is not known. */
  lemma NewIsUnknown(t: Sessions.Table, n: nat)
    requires FloodedTable(t, n)
    ensures !Sessions.Has(t.active, n + 1) && !Sessions.Has(t.retired, n + 1)
    ensures Sessions.Mark(t, n + 1).None? && !Sessions.Stale(t, n + 1, 1)
  {
    NotInRow(t.active, n, Sessions.MAX_ACTIVE, n + 1);
    NotInRow(t.retired, n - Least(n, Sessions.MAX_ACTIVE), Sessions.MAX_RETIRED, n + 1);
  }

  lemma RowGrows(entries: seq<Sessions.Entry>, last: nat, limit: nat, e: Sessions.Entry)
    requires Row(entries, last, limit) && e.session == last + 1 && e.stamp == 0 && limit > 0
    ensures var more := entries + [e];
      Row(if |more| > limit then more[|more| - limit..] else more, last + 1, limit)
  {
  }

  /** The new session becomes active; from the 33rd on the oldest active one is retired for it. */
  lemma AdmitGrows(t: Sessions.Table, n: nat, protected: set<nat>)
    requires FloodedTable(t, n) && (forall s :: s in protected ==> s == n)
    ensures var (u, ok) := Sessions.Admit(t, n + 1, 0, true, protected);
      ok && FloodedTable(u, n + 1)
      && u.active != [] && u.active[|u.active| - 1] == Sessions.Entry(n + 1, 0, 0)
  {
    hide Row, Sessions.Retire, Sessions.IndexOf, Sessions.FirstFree;
    NewIsUnknown(t, n);
    NothingTakenUp(t, n + 1);
    var newest := Sessions.Entry(n + 1, 0, 0);
    assert Sessions.Revived(t, n + 1, 0) == newest;
    RowGrows(t.active, n, Sessions.MAX_ACTIVE, newest);
    RowLength(t.active, n, Sessions.MAX_ACTIVE);
    if |t.active| == Sessions.MAX_ACTIVE {
      OldestIsFree(t.active, n, protected);
      OldestRetires(t, n);
      assert (t.active + [newest])[1..] == t.active[1..] + [newest];
    } else {
      Sessions.RetireNobody(t, |t.active|, 0);
    }
  }

  lemma NothingTakenUp(t: Sessions.Table, session: nat)
    requires !Sessions.Has(t.retired, session)
    ensures t.(retired := Sessions.Without(t.retired, Sessions.IndexOf(t.retired, session))) == t
  {
  }

  lemma RowLength(entries: seq<Sessions.Entry>, last: nat, limit: nat)
    requires Row(entries, last, limit)
    ensures |entries| == Least(last, limit)
  {
  }

  lemma OldestIsFree(active: seq<Sessions.Entry>, n: nat, protected: set<nat>)
    requires Row(active, n, Sessions.MAX_ACTIVE) && |active| == Sessions.MAX_ACTIVE
    requires forall s :: s in protected ==> s == n
    ensures Sessions.FirstFree(active, protected) == 0
  {
    assert active[0].session == n - Sessions.MAX_ACTIVE + 1;
  }

  /** The oldest active session becomes the newest tombstone. */
  lemma OldestRetires(t: Sessions.Table, n: nat)
    requires FloodedTable(t, n) && |t.active| == Sessions.MAX_ACTIVE
    ensures var u := Sessions.Retire(t, 0, 0);
      u.active == t.active[1..] && Row(u.retired, n + 1 - Sessions.MAX_ACTIVE, Sessions.MAX_RETIRED)
  {
    var oldest := t.active[0];
    assert oldest.session == n - Sessions.MAX_ACTIVE + 1 && oldest.(stamp := 0) == oldest;
    NotInRow(t.retired, n - Sessions.MAX_ACTIVE, Sessions.MAX_RETIRED, oldest.session);
    RowGrows(t.retired, n - Sessions.MAX_ACTIVE, Sessions.MAX_RETIRED, oldest);
    hide Row;
    assert Sessions.Without(t.retired, |t.retired|) == t.retired;
    assert Sessions.Without(t.active, 0) == t.active[1..];
  }

  /** Accepting the command raises the mark of the last active session, where it stays. */
  lemma AcceptStays(t: Sessions.Table, n: nat)
    requires FloodedTable(t, n) && n > 0
    ensures FloodedTable(Sessions.Accept(t, n, 1, 0), n)
  {
    var last := |t.active| - 1;
    assert Sessions.IndexOf(t.active, n) == last by {
      assert t.active[last].session == n;
    }
    assert Sessions.Without(t.active, last) == t.active[..last];
  }

  // ---------------------------------------------------------------- the cache

  lemma FirstIsFinished(cache: seq<Record>, n: nat)
    requires FloodedCache(cache, n) && |cache| == MAX_CACHE_RECORDS
    ensures FirstTerminal(cache) == 0
  {
    assert cache[0].terminal;
  }

  /** Of a full cache the oldest record goes. */
  lemma OldestGoes(cache: seq<Record>, n: nat)
    requires FloodedCache(cache, n)
    ensures RemoveOld(cache) == if |cache| == MAX_CACHE_RECORDS then cache[1..] else cache
  {
    if |cache| == MAX_CACHE_RECORDS {
      FirstIsFinished(cache, n);
      assert cache[..0] + cache[1..] == cache[1..];
      assert |cache[1..]| < MAX_CACHE_RECORDS;
      assert RemoveOld(cache) == RemoveOld(cache[1..]);
    }
  }

  lemma NotAmong(cache: seq<Record>, n: nat, session: nat)
    requires FloodedCache(cache, n) && (session > n || session <= n - |cache|)
    ensures !Cached(cache, Key(session, 1))
  {
  }

  lemma OnlyLastIsProtected(cache: seq<Record>, n: nat)
    requires FloodedCache(cache, n)
    ensures forall s :: s in Protected(RemoveOld(cache)) ==> s == n
  {
    OldestGoes(cache, n);
    var left := RemoveOld(cache);
    hide RemoveOld;
    forall c | c in left && !c.terminal
      ensures c.key.session == n
    {
      var i :| 0 <= i < |cache| && cache[i] == c;
    }
  }

  /** The new record joins, and the one before it is finished. */
  lemma CacheGrows(cache: seq<Record>, n: nat, c: Record)
    requires FloodedCache(cache, n) && c.key == Key(n + 1, 1)
    ensures var marks := if n == 0 then [] else [Ended(Key(n, 1), T.Cancelled)];
      FloodedCache(ApplyMarks(RemoveOld(cache) + [c], marks), n + 1)
  {
    hide RemoveOld, ApplyMarks, ApplyMark;
    OldestGoes(cache, n);
    var all := RemoveOld(cache) + [c];
    Joined(cache, n, c);
    if n == 0 {
      NoMarks(all);
    } else {
      var mark := Ended(Key(n, 1), T.Cancelled);
      assert CacheRun.DistinctKeys(all);
      ClickCounts.OneMark(all, mark);
      ClickCounts.MarkShape(all, mark);
      hide CacheRun.DistinctKeys;
      assert forall i :: 0 <= i < |all| - 2 ==> ClickCounts.Marked(all[i], mark).terminal;
    }
  }

  lemma Joined(cache: seq<Record>, n: nat, c: Record)
    requires FloodedCache(cache, n) && c.key == Key(n + 1, 1)
    ensures var all := (if |cache| == MAX_CACHE_RECORDS then cache[1..] else cache) + [c];
      && |all| == Least(n + 1, MAX_CACHE_RECORDS)
      && (forall i :: 0 <= i < |all| ==> all[i].key == Key(n + 1 - |all| + 1 + i, 1))
      && (forall i :: 0 <= i < |all| - 2 ==> all[i].terminal)
  {
  }

  // ---------------------------------------------------------------- one more session

  lemma NoTransactionStays(now: nat)
    ensures Stopped(NoTransaction, Cancelled, now) == NoTransaction
  {
  }

  lemma NoSync(cache: seq<Record>)
    ensures SyncCache(cache, NoTransaction.ack) == cache
  {
  }

  /** The marks of the reset finish the release owed before. */
  lemma ResetsOwed(s: Sched, n: nat)
    requires s.work == [] && s.releaseKey == (if n == 0 then NoKey else Key(n, 1))
    ensures ResetMarks(s, Some(Key(n + 1, 1))) == if n == 0 then [] else [Ended(Key(n, 1), T.Cancelled)]
  {
    assert CancelMarks([]) == [];
  }

  lemma ReleaseArrives(s: State, n: nat)
    requires Flooded(s, n)
    ensures var (t, reply, key) := HandleClick(s, ReleaseOf(n + 1), CONTROLLER, SIGHT, 0, 0, 1);
      Flooded(t, n + 1) && key == Some(Key(n + 1, 1))
  {
    hide FloodedTable, FloodedCache, Sessions.Admit, Sessions.Accept, Sessions.PrunedTable, RemoveOld, Protected, ApplyMarks,
         SyncCache, Stopped, ResetMarks, FindCache, Sessions.Stale;
    NotAmong(s.cache, n, n + 1);
    TableIsPruned(s.sessions, n);
    NewIsUnknown(s.sessions, n);
    OnlyLastIsProtected(s.cache, n);
    AdmitGrows(s.sessions, n, Protected(RemoveOld(s.cache)));
    AcceptStays(Sessions.Admit(s.sessions, n + 1, 0, true, Protected(RemoveOld(s.cache))).0, n + 1);
    RoomIsMade(s.cache, n);
    var c := ClickRecord(ReleaseOf(n + 1), CONTROLLER);
    CacheGrows(s.cache, n, c);
    NoSync(RemoveOld(s.cache) + [c]);
    ResetsOwed(s.sched, n);
    NoTransactionStays(0);
  }

  lemma RoomIsMade(cache: seq<Record>, n: nat)
    requires FloodedCache(cache, n)
    ensures |RemoveOld(cache)| < MAX_CACHE_RECORDS
  {
    OldestGoes(cache, n);
    hide RemoveOld;
  }

  // ---------------------------------------------------------------- the run

  lemma {:induction false} RunThen(w: World, labels: seq<Label>, l: Label)
    ensures Run(w, labels + [l]) == Step(Run(w, labels), l)
    decreases |labels|
  {
    hide Step;
    if labels == [] {
      assert [] + [l] == [l] && [l][1..] == [];
    } else {
      assert (labels + [l])[1..] == labels[1..] + [l];
      RunThen(Step(w, labels[0]), labels[1..], l);
    }
  }

  lemma PacketStep(w: World, session: nat)
    requires session > 0
    ensures var (t, reply, key) := HandleClick(w.s, ReleaseOf(session), CONTROLLER, SIGHT, 0, 0, 1);
      var v := Step(w, Packet(session));
      v.s == t && v.started == if key.Some? then w.started + [key.value] else w.started
  {
    hide HandleClick, Asks, S.Run;
    assert Proper(ReleaseOf(session).key);
  }

  lemma {:induction false} FloodReaches(n: nat)
    ensures var w := Reached(1, Flood(n));
      Flooded(w.s, n) && |w.started| == n && (n > 0 ==> w.started[0] == Key(1, 1))
  {
    hide Run, Step, Flooded, HandleClick;
    if n > 0 {
      var before := Reached(1, Flood(n - 1));
      FloodReaches(n - 1);
      FloodThen(n - 1, n);
      ReleaseArrives(before.s, n - 1);
      PacketStep(before, n);
    } else {
      NothingFlooded();
    }
  }

  /** After 289 sessions nothing remembers the first. */
  lemma FirstIsForgotten(s: State)
    requires Flooded(s, SESSIONS)
    ensures !Cached(s.cache, Key(1, 1)) && !Sessions.Stale(Sessions.PrunedTable(s.sessions, 0), 1, 1)
  {
    NotAmong(s.cache, SESSIONS, 1);
    TableIsPruned(s.sessions, SESSIONS);
    NotInRow(s.sessions.active, SESSIONS, Sessions.MAX_ACTIVE, 1);
    NotInRow(s.sessions.retired, SESSIONS - Sessions.MAX_ACTIVE, Sessions.MAX_RETIRED, 1);
    hide FloodedCache, FindCache, Row;
  }

  /** The first command of the first session starts a second time, and its mark was dropped in between. */
  lemma FirstCommandRestarts()
    ensures var w := Reached(1, Flood(SESSIONS) + [Packet(1)]);
      && |w.started| == SESSIONS + 1
      && w.started[0] == Key(1, 1) && w.started[SESSIONS] == Key(1, 1)
      && 1 in w.history.dropped
  {
    var n := SESSIONS;
    hide Run, Step, Flood, Flooded, Reached;
    FloodReaches(n);
    var w := Reached(1, Flood(n));
    FirstIsForgotten(w.s);
    CacheRun.ReleaseStartsIff(1, Flood(n), ReleaseOf(1), CONTROLLER, SIGHT, 0, 0, 1);
    NotForeign(w.s, n);
    FloodThen(n, 1);
    PacketStep(w, 1);
    CommandsStartOnce(1, Flood(n) + [Packet(1)]);
  }

  lemma NotForeign(s: State, n: nat)
    requires Flooded(s, n)
    ensures !Foreign(s, CONTROLLER)
  {
  }

  lemma FloodThen(n: nat, session: nat)
    ensures Reached(1, Flood(n) + [Packet(session)]) == Step(Reached(1, Flood(n)), Packet(session))
  {
    hide Step, Run, Flood;
    RunThen(World(Begin(1), S.Begin, []), Flood(n), Packet(session));
  }

  lemma NothingFlooded()
    ensures var w := Reached(1, []); Flooded(w.s, 0) && w.started == []
  {
  }
}
