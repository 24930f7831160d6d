/**
 Runs of the server under an arbitrary environment: any datagrams in any order and number, any writer events, any
 snapshots, clock readings and mixer answers.
 */
module ServerRun {
  import opened Common
  import opened HidReport
  import opened MoveTypes
  import opened Mixer
  import opened Executor
  import opened ClickScheduler
  import opened Server
  import T = ClickTypes
  import Sessions
  import S = SessionHistory

  /** `history` follows the session tracker's own operations; `started` are the commands started, in order. */
  datatype World = World(s: State, history: S.World, started: seq<Key>)

  datatype Label =
    | Top(ready: bool, generation: nat, now: nat, cleared: nat, again: nat)
    | Event(ev: WriterEvent, now: nat, cleared: nat)
    | Overflow(now: nat, cleared: nat)
    | LeaseCheck(now: nat, cleared: nat)
    | MoverTurn(e: Snapshot, now: nat, result: EnqueueResult, cleared: nat)
    | ClickTurn(e: Snapshot, now: nat, result: EnqueueResult, cleared: nat)
    | MovePacket(move: MoveRequest, from: Peer, e: Snapshot, clock: Clock)
    | ClickPacket(click: T.Request, from: Peer, e: Snapshot, now: nat, due: nat, cleared: nat)
    | MotionPacket(from: Peer, sequence: nat, motion: Command, next: bv8, e: Snapshot, now: nat, result: EnqueueResult)
    | TextClick(from: Peer, button: nat, e: Snapshot, now: nat, due: nat)
    | TextRelease(from: Peer, now: nat, cleared: nat)
    | TextReport(from: Peer, next: bv8, e: Snapshot, now: nat, result: EnqueueResult)

  /** Packets whose session or command is zero are not parsed. */
  predicate Proper(key: Key) {
    key.session != 0 && key.command != 0
  }

  // ---------------------------------------------------------------- what a handler asks of the session tracker

  function AdmissionAsks(s: State, key: Key, admit: nat, force: bool, accept: nat): seq<S.Label> {
    var cache := RemoveOld(s.cache);
    if |cache| >= MAX_CACHE_RECORDS then []
    else
      var ask := S.AskAdmit(key.session, admit, force, Protected(cache));
      var ok := Sessions.Admit(Sessions.PrunedTable(s.sessions, admit), key.session, admit, force, Protected(cache)).1;
      if ok then [ask, S.TellAccept(key.session, key.command, accept)] else [ask]
  }

  function MoveAsks(s: State, r: MoveRequest, from: Peer, e: Snapshot, c: Clock): seq<S.Label> {
    if Foreign(s, from) || r.epoch != s.epoch || Cached(s.cache, r.key) || !r.operation.Execute? then []
    else
      var t := s.(sessions := Sessions.PrunedTable(s.sessions, c.stale));
      var ask := S.AskStale(r.key.session, r.key.command, c.stale);
      if Sessions.Stale(t.sessions, r.key.session, r.key.command) || MoveObstacle(s, r, e).Some? then [ask]
      else [ask] + AdmissionAsks(t, r.key, c.admit, false, c.accept)
  }

  function ClickAsks(s: State, r: T.Request, from: Peer, e: Snapshot, now: nat): seq<S.Label> {
    if Foreign(s, from) || Cached(s.cache, r.key) then []
    else
      var t := s.(sessions := Sessions.PrunedTable(s.sessions, now));
      var ask := S.AskStale(r.key.session, r.key.command, now);
      if Sessions.Stale(t.sessions, r.key.session, r.key.command)
         || (r.operation.Schedule? && ClickObstacle(s, r, e).Some?) then [ask]
      else [ask] + AdmissionAsks(t, r.key, now, r.operation.ReleaseEverything?, now)
  }

  function Asks(s: State, l: Label): seq<S.Label> {
    if l.MovePacket? && Proper(l.move.key) then MoveAsks(s, l.move, l.from, l.e, l.clock)
    else if l.ClickPacket? && Proper(l.click.key) then ClickAsks(s, l.click, l.from, l.e, l.now)
    else []
  }

  // ---------------------------------------------------------------- steps

  /** The server's state after a step, and the key of the command it starts. */
  function Next(s: State, l: Label): (State, Option<Key>) {
    match l
    case Top(ready, generation, now, cleared, again) => (Track(s, ready, generation, now, cleared, again), None)
    case Event(ev, now, cleared) => (Deliver(s, ev, now, cleared), None)
    case Overflow(now, cleared) => (Abandon(s, now, cleared), None)
    case LeaseCheck(now, cleared) => (Watchdog(s, now, cleared), None)
    case MoverTurn(e, now, result, cleared) => (MoverTick(s, e, now, result, cleared), None)
    case ClickTurn(e, now, result, cleared) => (SchedTick(s, e, now, result, cleared), None)
    case MovePacket(r, from, e, clock) =>
      if !Proper(r.key) then (s, None)
      else
        var (t, reply, key) := HandleMove(s, r, from, e, clock);
        (t, key)
    case ClickPacket(r, from, e, now, due, cleared) =>
      if !Proper(r.key) then (s, None)
      else
        var (t, reply, key) := HandleClick(s, r, from, e, now, due, cleared);
        (t, key)
    case MotionPacket(from, sequence, motion, next, e, now, result) =>
      (HandleMotion(s, from, sequence, motion, next, e, now, result), None)
    case TextClick(from, button, e, now, due) => (HandleTextClick(s, from, button, e, now, due), None)
    case TextRelease(from, now, cleared) => (HandleTextRelease(s, from, now, cleared), None)
    case TextReport(from, next, e, now, result) => (HandleTextReport(s, from, next, e, now, result), None)
  }

  function Step(w: World, l: Label): World {
    var (t, key) := Next(w.s, l);
    World(t, S.Run(w.history, Asks(w.s, l)), if key.Some? then w.started + [key.value] else w.started)
  }

  function Run(w: World, labels: seq<Label>): World
    decreases |labels|
  {
    if labels == [] then w else Run(Step(w, labels[0]), labels[1..])
  }

  function Reached(epoch: nat, labels: seq<Label>): World {
    Run(World(Begin(epoch), S.Begin, []), labels)
  }

  // ---------------------------------------------------------------- sessions

  /** Within a session whose mark was never dropped every started command is higher than those before. */
  ghost predicate Ascending(started: seq<Key>, dropped: set<nat>) {
    forall i, j :: 0 <= i < j < |started| ==>
      started[i].session == started[j].session && started[i].session !in dropped ==>
        started[i].command < started[j].command
  }

  ghost predicate StartInv(history: S.World, started: seq<Key>) {
    && S.Inv(history)
    && (forall i :: 0 <= i < |started| ==>
          && started[i].session in history.known && started[i].command <= history.known[started[i].session])
    && Ascending(started, history.dropped)
  }

  /** Marks in the unbounded map never fall, and dropped sessions stay dropped. */
  ghost predicate Grows(a: S.World, b: S.World) {
    && (forall s :: s in a.known ==> s in b.known && a.known[s] <= b.known[s])
    && a.dropped <= b.dropped
  }

  lemma StepGrows(h: S.World, l: S.Label)
    ensures Grows(h, S.Step(h, l))
  {
  }

  lemma StepKeepsStarts(h: S.World, l: S.Label, started: seq<Key>)
    requires StartInv(h, started)
    ensures StartInv(S.Step(h, l), started)
  {
    StepGrows(h, l);
    S.StepKeepsInv(h, l);
    hide S.Inv, S.Step;
  }

  lemma AdmittedIsActive(h: S.World, ask: S.Label)
    requires S.Inv(h) && ask.AskAdmit?
    requires Sessions.Admit(Sessions.PrunedTable(h.table, ask.now), ask.session, ask.now, ask.force, ask.protected).1
    ensures var after := S.Step(h, ask);
      Sessions.Has(after.table.active, ask.session) && ask.session in after.known
  {
    S.StepKeepsInv(h, ask);
    S.StepIsTracker(h, ask);
    S.PruneKeepsInv(h, ask.now);
    var t := Sessions.PrunedTable(h.table, ask.now);
    LastIsActive(t, ask);
    var after := S.Step(h, ask);
    assert S.Tracked(after.table, ask.session);
    hide Sessions.Admit, S.Step;
  }

  lemma LastIsActive(t: Sessions.Table, ask: S.Label)
    requires ask.AskAdmit?
    ensures var (u, ok) := Sessions.Admit(t, ask.session, ask.now, ask.force, ask.protected);
      ok ==> Sessions.Has(u.active, ask.session)
  {
    var (u, ok) := Sessions.Admit(t, ask.session, ask.now, ask.force, ask.protected);
    if ok {
      assert u.active[|u.active| - 1].session == ask.session;
    }
  }

  lemma AcceptRaises(h: S.World, key: Key, now: nat)
    requires Sessions.Has(h.table.active, key.session) && key.session in h.known
    ensures var after := S.Step(h, S.TellAccept(key.session, key.command, now));
      key.session in after.known && key.command <= after.known[key.session]
  {
  }

  /** A command that is not stale lies above its session's mark. */
  lemma NotStaleIsAbove(h: S.World, key: Key)
    requires S.Inv(h) && !Sessions.Stale(h.table, key.session, key.command)
    ensures key.session in h.known && key.session !in h.dropped ==> h.known[key.session] < key.command
  {
  }

  /** A fresh command that is not stale lies above everything its session ever started. */
  lemma FreshStart(h: S.World, started: seq<Key>, key: Key, stale: nat, ask: S.Label, accept: nat)
    requires StartInv(h, started) && ask.AskAdmit? && ask.session == key.session
    requires var t := S.Step(h, S.AskStale(key.session, key.command, stale)).table;
      && !Sessions.Stale(t, key.session, key.command)
      && Sessions.Admit(Sessions.PrunedTable(t, ask.now), ask.session, ask.now, ask.force, ask.protected).1
    ensures var h1 := S.Step(h, S.AskStale(key.session, key.command, stale));
      var h2 := S.Step(h1, ask);
      StartInv(S.Step(h2, S.TellAccept(key.session, key.command, accept)), started + [key])
  {
    hide S.Inv, S.Step, Sessions.Admit, Sessions.Stale;
    var tell := S.TellAccept(key.session, key.command, accept);
    var h1 := S.Step(h, S.AskStale(key.session, key.command, stale));
    var h2 := S.Step(h1, ask);
    var h3 := S.Step(h2, tell);
    StepKeepsStarts(h, S.AskStale(key.session, key.command, stale), started);
    NotStaleIsAbove(h1, key);
    AdmittedIsActive(h1, ask);
    StepKeepsStarts(h1, ask, started);
    StepKeepsStarts(h2, tell, started);
    AcceptRaises(h2, key, accept);
    StepGrows(h1, ask);
    StepGrows(h2, tell);
    forall i | 0 <= i < |started| && started[i].session == key.session && key.session !in h3.dropped
      ensures started[i].command < key.command
    {
      assert started[i].session in h1.known;
    }
  }

  lemma RunOne(h: S.World, a: S.Label)
    ensures S.Run(h, [a]) == S.Step(h, a)
  {
    assert [a][1..] == [];
  }

  lemma RunTwo(h: S.World, a: S.Label, b: S.Label)
    ensures S.Run(h, [a, b]) == S.Step(S.Step(h, a), b)
  {
    assert [a, b][1..] == [b];
    RunOne(S.Step(h, a), b);
  }

  lemma RunThree(h: S.World, a: S.Label, b: S.Label, c: S.Label)
    ensures S.Run(h, [a, b, c]) == S.Step(S.Step(S.Step(h, a), b), c)
  {
    assert [a, b, c][1..] == [b, c];
    RunTwo(S.Step(h, a), b, c);
  }

  /** What a fresh command's handler does to the session table, and what it leaves to be started. */
  predicate AdmissionMatches(h: S.World, s: State, key: Key, admit: nat, force: bool, accept: nat,
                             after: Sessions.Table, starts: bool) {
    var cache := RemoveOld(s.cache);
    if |cache| >= MAX_CACHE_RECORDS then after == s.sessions && !starts
    else
      var (u, ok) := Sessions.Admit(Sessions.PrunedTable(s.sessions, admit), key.session, admit, force, Protected(cache));
      after == (if ok then Sessions.Accept(u, key.session, key.command, accept) else u) && starts == ok
  }

  lemma AdmissionKeepsStarts(h: S.World, s: State, started: seq<Key>, key: Key, stale: nat, admit: nat, force: bool,
                             accept: nat, after: Sessions.Table, starts: bool)
    requires StartInv(h, started) && s.sessions == Sessions.PrunedTable(h.table, stale)
    requires !Sessions.Stale(s.sessions, key.session, key.command)
    requires AdmissionMatches(h, s, key, admit, force, accept, after, starts)
    ensures var ask := S.AskStale(key.session, key.command, stale);
      var end := S.Run(h, [ask] + AdmissionAsks(s, key, admit, force, accept));
      end.table == after && StartInv(end, if starts then started + [key] else started)
  {
    hide StartInv, Sessions.Admit, Sessions.Stale, RemoveOld, Protected, Sessions.Accept, Sessions.PrunedTable;
    var ask := S.AskStale(key.session, key.command, stale);
    var h1 := S.Step(h, ask);
    S.StepIsTracker(h, ask);
    StepKeepsStarts(h, ask, started);
    var cache := RemoveOld(s.cache);
    if |cache| >= MAX_CACHE_RECORDS {
      assert [ask] + [] == [ask];
      RunOne(h, ask);
      hide S.Step, S.Run;
    } else {
      var enter := S.AskAdmit(key.session, admit, force, Protected(cache));
      var tell := S.TellAccept(key.session, key.command, accept);
      var h2 := S.Step(h1, enter);
      S.StepIsTracker(h1, enter);
      S.StepIsTracker(h2, tell);
      if starts {
        assert [ask] + [enter, tell] == [ask, enter, tell];
        RunThree(h, ask, enter, tell);
        FreshStart(h, started, key, stale, enter, accept);
      } else {
        assert [ask] + [enter] == [ask, enter];
        RunTwo(h, ask, enter);
        StepKeepsStarts(h1, enter, started);
      }
      hide S.Step, S.Run;
    }
  }

  lemma MoveKeepsStarts(w: World, r: MoveRequest, from: Peer, e: Snapshot, c: Clock)
    requires StartInv(w.history, w.started) && w.history.table == w.s.sessions
    ensures var (t, reply, key) := HandleMove(w.s, r, from, e, c);
      var end := S.Run(w.history, MoveAsks(w.s, r, from, e, c));
      && end.table == t.sessions && (key.Some? ==> key.value == r.key)
      && StartInv(end, if key.Some? then w.started + [key.value] else w.started)
  {
    hide StartInv, Sessions.Admit, Sessions.Stale, RemoveOld, Protected, Sessions.Accept, Sessions.PrunedTable,
         MoveObstacle, MoveRejection, Started, AdmissionAsks;
    var (t, reply, key) := HandleMove(w.s, r, from, e, c);
    if !Foreign(w.s, from) && r.epoch == w.s.epoch && !Cached(w.s.cache, r.key) && r.operation.Execute? {
      var ask := S.AskStale(r.key.session, r.key.command, c.stale);
      RunOne(w.history, ask);
      S.StepIsTracker(w.history, ask);
      StepKeepsStarts(w.history, ask, w.started);
      var p := w.s.(sessions := Sessions.PrunedTable(w.s.sessions, c.stale));
      hide S.Step, S.Run;
      if !Sessions.Stale(p.sessions, r.key.session, r.key.command) && MoveObstacle(w.s, r, e).None? {
        AdmissionKeepsStarts(w.history, p, w.started, r.key, c.stale, c.admit, false, c.accept, t.sessions, key.Some?);
      }
    }
  }

  lemma ClickKeepsStarts(w: World, r: T.Request, from: Peer, e: Snapshot, now: nat, due: nat, cleared: nat)
    requires StartInv(w.history, w.started) && w.history.table == w.s.sessions
    ensures var (t, reply, key) := HandleClick(w.s, r, from, e, now, due, cleared);
      var end := S.Run(w.history, ClickAsks(w.s, r, from, e, now));
      && end.table == t.sessions && (key.Some? ==> key.value == r.key)
      && StartInv(end, if key.Some? then w.started + [key.value] else w.started)
  {
    hide StartInv, Sessions.Admit, Sessions.Stale, RemoveOld, Protected, Sessions.Accept, Sessions.PrunedTable,
         ClickObstacle, AdmissionAsks, ApplyMarks, ResetMarks, ResetSched, Stopped, SyncCache;
    var (t, reply, key) := HandleClick(w.s, r, from, e, now, due, cleared);
    if !Foreign(w.s, from) && !Cached(w.s.cache, r.key) {
      var ask := S.AskStale(r.key.session, r.key.command, now);
      RunOne(w.history, ask);
      S.StepIsTracker(w.history, ask);
      StepKeepsStarts(w.history, ask, w.started);
      var p := w.s.(sessions := Sessions.PrunedTable(w.s.sessions, now));
      hide S.Step, S.Run;
      if !Sessions.Stale(p.sessions, r.key.session, r.key.command)
         && !(r.operation.Schedule? && ClickObstacle(w.s, r, e).Some?) {
        AdmissionKeepsStarts(w.history, p, w.started, r.key, now, now, r.operation.ReleaseEverything?, now,
                             t.sessions, key.Some?);
      }
    }
  }

  lemma OthersKeepSessions(s: State, l: Label)
    requires !l.MovePacket? && !l.ClickPacket?
    ensures Next(s, l).0.sessions == s.sessions && Next(s, l).1.None?
  {
    hide ApplyMarks, ResetMarks, ResetSched, Stopped, SyncCache, Settled, Delivered, Planned, Answered, PlanTick,
         TurnAnswered, FinishFront;
  }

  ghost predicate SessionInv(w: World) {
    StartInv(w.history, w.started) && w.history.table == w.s.sessions
  }

  lemma StepKeepsSessions(w: World, l: Label)
    requires SessionInv(w)
    ensures SessionInv(Step(w, l))
  {
    hide StartInv, HandleMove, HandleClick, MoveAsks, ClickAsks;
    match l
    case MovePacket(r, from, e, clock) =>
      if Proper(r.key) {
        MoveKeepsStarts(w, r, from, e, clock);
      }
    case ClickPacket(r, from, e, now, due, cleared) =>
      if Proper(r.key) {
        ClickKeepsStarts(w, r, from, e, now, due, cleared);
      }
    case _ => OthersKeepSessions(w.s, l); hide Next;
  }

  lemma {:induction false} RunKeepsSessions(w: World, labels: seq<Label>)
    requires SessionInv(w)
    ensures SessionInv(Run(w, labels))
    decreases |labels|
  {
    hide SessionInv, Step;
    if labels != [] {
      StepKeepsSessions(w, labels[0]);
      RunKeepsSessions(Step(w, labels[0]), labels[1..]);
    }
  }

  lemma ReachedSessions(epoch: nat, labels: seq<Label>)
    ensures SessionInv(Reached(epoch, labels))
  {
    S.BeginInv();
    RunKeepsSessions(World(Begin(epoch), S.Begin, []), labels);
  }

  /** No command of a session starts twice, over both protocols, unless the session's mark was dropped in between. */
  lemma CommandsStartOnce(epoch: nat, labels: seq<Label>)
    ensures var w := Reached(epoch, labels);
      && Ascending(w.started, w.history.dropped)
      && forall i, j :: 0 <= i < j < |w.started| && w.started[i] == w.started[j] ==>
           w.started[i].session in w.history.dropped
  {
    ReachedSessions(epoch, labels);
    hide Reached;
  }
}
