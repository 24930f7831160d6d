/**
 The UDP server's state and its handlers: the idempotent command cache, session marks, the click scheduler, the
 transaction executor and the movement filter. Endpoint snapshots, clock readings and the mixer's answers are
 parameters, so every handler is described for whatever the endpoint does in between.
 */
module Server {
  import opened Common
  import opened HidReport
  import opened Splitting
  import opened MoveTypes
  import opened Mixer
  import opened Executor
  import opened ClickScheduler
  import T = ClickTypes
  import Sessions
  import Replay = MotionReplay

  const MAX_CACHE_RECORDS := 256
  /** 250 ms without a controller packet, in nanoseconds. */
  const LEASE := 250000000

  type Peer = Replay.Peer

  /** A remembered command and its outcome so far; `movement` tells transactions from clicks and releases. */
  datatype Record = Record(
    key: Key, click: T.Request, accepted: nat, completed: nat, status: T.Status, terminal: bool, peer: Peer,
    movement: bool, move: MoveRequest, ack: Ack)

  datatype State = State(
    cache: seq<Record>, sched: Sched, mover: Exec, sessions: Sessions.Table, replay: seq<Replay.Entry>,
    owner: Option<Peer>, seen: nat, epoch: nat)

  const NoClick: T.Request := T.Request(T.Schedule, 0, NoKey, 0, 0, 0, T.VERSION1)

  function Begin(epoch: nat): State {
    State([], NoWork, NoTransaction, Sessions.Empty, [], None, 0, epoch)
  }

  // ---------------------------------------------------------------- the cache

  /** The first record with a key, or the length of the cache. */
  function FindCache(cache: seq<Record>, key: Key): (i: nat)
    ensures i <= |cache| && (i < |cache| ==> cache[i].key == key)
    ensures forall j :: 0 <= j < i ==> cache[j].key != key
  {
    if cache == [] || cache[0].key == key then 0 else 1 + FindCache(cache[1..], key)
  }

  predicate Cached(cache: seq<Record>, key: Key) {
    FindCache(cache, key) < |cache|
  }

  function ApplyMark(cache: seq<Record>, mark: Mark): seq<Record> {
    var i := FindCache(cache, mark.key);
    if i >= |cache| then cache
    else if mark.Ended? then cache[i := cache[i].(status := mark.status, terminal := true)]
    else cache[i := cache[i].(completed := mark.completed)]
  }

  function ApplyMarks(cache: seq<Record>, marks: seq<Mark>): seq<Record>
    decreases |marks|
  {
    if marks == [] then cache else ApplyMarks(ApplyMark(cache, marks[0]), marks[1..])
  }

  lemma NoMarks(cache: seq<Record>)
    ensures ApplyMarks(cache, []) == cache
  {
  }

  function FirstTerminal(cache: seq<Record>): (i: nat)
    ensures i <= |cache| && (i < |cache| ==> cache[i].terminal)
    ensures forall j :: 0 <= j < i ==> !cache[j].terminal
  {
    if cache == [] || cache[0].terminal then 0 else 1 + FirstTerminal(cache[1..])
  }

  /** `remove_old_cache`: evicts the oldest finished records while the cache is full. */
  function RemoveOld(cache: seq<Record>): seq<Record>
    decreases |cache|
  {
    var i := FirstTerminal(cache);
    if |cache| < MAX_CACHE_RECORDS || i == |cache| then cache else RemoveOld(cache[..i] + cache[i + 1..])
  }

  /** Sessions with unfinished commands do not give way to others. */
  function Protected(cache: seq<Record>): set<nat> {
    set c | c in cache && !c.terminal :: c.key.session
  }

  /** `sync_move`: the transaction's record follows the executor. */
  function SyncCache(cache: seq<Record>, ack: Ack): seq<Record> {
    var i := FindCache(cache, ack.key);
    if ack.key.session == 0 || i == |cache| then cache
    else cache[i := cache[i].(ack := ack, terminal := Terminal(ack.status))]
  }

  function Synced(s: State): State {
    s.(cache := SyncCache(s.cache, s.mover.ack))
  }

  function Own(s: State, from: Peer, now: nat): State {
    s.(owner := Some(from), seen := now)
  }

  predicate Foreign(s: State, from: Peer) {
    s.owner.Some? && s.owner.value != from
  }

  /** `begin_reset`; `generation` is what clearing the endpoint reported. */
  function Reset(s: State, attach: Option<Key>, now: nat, generation: nat): State {
    var t := Synced(s.(mover := Stopped(s.mover, Cancelled, now)));
    t.(cache := ApplyMarks(t.cache, ResetMarks(t.sched, attach)), sched := ResetSched(t.sched, attach, generation))
  }

  function Abandon(s: State, now: nat, generation: nat): State {
    Reset(s, None, now, generation).(owner := None)
  }

  // ---------------------------------------------------------------- the loop

  /** The layout check at the top of the loop; `again` is the generation read after a reset. */
  function Track(s: State, ready: bool, generation: nat, now: nat, cleared: nat, again: nat): State {
    var t := if s.sched.tracked == 0 && ready then s.(sched := s.sched.(tracked := generation)) else s;
    if t.sched.tracked != 0 && generation != t.sched.tracked then
      var u := Abandon(t, now, cleared);
      u.(sched := u.sched.(tracked := again))
    else t
  }

  function Deliver(s: State, ev: WriterEvent, now: nat, cleared: nat): State {
    var t := Synced(s.(mover := Delivered(s.mover, ev)));
    if !ev.success then Abandon(t, now, cleared)
    else
      var (sched, marks) := Settled(t.sched, ev);
      t.(sched := sched, cache := ApplyMarks(t.cache, marks))
  }

  /** A batch of events in order; `readings` are the clock readings at each, `cleared` what every reset reports. */
  function DeliverAll(s: State, events: seq<WriterEvent>, readings: seq<nat>, cleared: nat): State
    requires |readings| == |events|
    decreases |events|
  {
    if events == [] then s
    else DeliverAll(Deliver(s, events[0], readings[0], cleared), events[1..], readings[1..], cleared)
  }

  function Watchdog(s: State, now: nat, cleared: nat): State {
    if s.owner.Some? && now > s.seen + LEASE then Abandon(s, now, cleared) else s
  }

  /** The executor's tick; `result` is the mixer's answer where the tick asks for an enqueue. */
  function MoverTick(s: State, e: Snapshot, now: nat, result: EnqueueResult, cleared: nat): State {
    var plan := Planned(s.mover, e, now);
    match plan
    case Rest(f) => Synced(s.(mover := f))
    case Abort(f) => Reset(Synced(s.(mover := f)), None, now, cleared)
    case Submit(f, r) =>
      var (g, reset) := Answered(f, result, now);
      var t := Synced(s.(mover := g));
      if reset then Reset(t, None, now, cleared) else t
  }

  function SchedTick(s: State, e: Snapshot, now: nat, result: EnqueueResult, cleared: nat): State {
    var turn := PlanTick(s.sched, e, now);
    if turn.NeedReset? || AnswerResets(turn, result) then Reset(s, None, now, cleared)
    else if turn.FinishActive? then
      var (sched, marks) := FinishFront(s.sched, T.ButtonActive);
      s.(sched := sched, cache := ApplyMarks(s.cache, marks))
    else s.(sched := TurnAnswered(s.sched, turn, result))
  }

  // ---------------------------------------------------------------- transactions

  /** The clock readings one transaction request takes. */
  datatype Clock = Clock(stale: nat, admit: nat, start: nat, accept: nat)

  predicate SameMove(a: MoveRequest, b: MoveRequest) {
    a.(operation := Execute) == b.(operation := Execute)
  }

  /** Reports the whole way out and back need at least. */
  function Rounds(e: Snapshot, dx: int, dy: int): int {
    Max(Segments(dx, e.xmin, e.xmax), Segments(dy, e.ymin, e.ymax))
  }

  function LeastTime(r: MoveRequest, e: Snapshot): int {
    (Rounds(e, r.dx, r.dy) + Rounds(e, -r.dx, -r.dy) + if r.button != 0 then 2 else 0) * e.poll
    + r.settle + r.back + if r.button != 0 then r.press else 0
  }

  /** Why a fresh transaction is turned away before it touches cache or sessions. */
  function MoveObstacle(s: State, r: MoveRequest, e: Snapshot): Option<MoveTypes.Status> {
    if !e.ready then Some(MoveTypes.NotReady)
    else if e.generation != r.generation then Some(MoveTypes.EndpointChanged)
    else if IsActive(s.mover) || s.sched.work != [] || s.sched.releasePending || e.syntheticPending != 0
            || e.outputQueue != 0 then Some(MoveTypes.Busy)
    else if (if r.button != 0 then HasButton(e.physical, r.button) else e.physical != 0)
            || s.sched.persistent != 0 || s.sched.scheduled != 0 || e.persistent != 0 || e.scheduled != 0
    then Some(MoveTypes.ButtonActive)
    else if r.button != 0 && (!HasButton(e.supported, r.button) || r.press < e.poll) then Some(MoveTypes.Invalid)
    else if Rounds(e, r.dx, r.dy) > MAX_PARTS || Rounds(e, -r.dx, -r.dy) > MAX_PARTS || LeastTime(r, e) >= r.budget
    then Some(MoveTypes.Range)
    else None
  }

  function MoveRejection(s: State, r: MoveRequest, e: Snapshot, status: MoveTypes.Status): Ack {
    NoAck.(status := status, key := r.key, epoch := s.epoch, generation := e.generation)
  }

  function MoveRecord(r: MoveRequest, ack: Ack, from: Peer): Record {
    Record(r.key, NoClick, 0, 0, T.Accepted, false, from, true, r, ack)
  }

  /** The UPM1 handler: the new state, the reply, and the key if the command starts. */
  function HandleMove(s: State, r: MoveRequest, from: Peer, e: Snapshot, c: Clock): (State, Ack, Option<Key>) {
    var i := FindCache(s.cache, r.key);
    if Foreign(s, from) then (s, MoveRejection(s, r, e, MoveTypes.Busy), None)
    else if r.epoch != s.epoch then (s, MoveRejection(s, r, e, MoveTypes.EndpointChanged), None)
    else if i < |s.cache| then
      var prior := s.cache[i];
      if !prior.movement || !SameMove(prior.move, r) then (s, MoveRejection(s, r, e, MoveTypes.Invalid), None)
      else
        var mover := if prior.terminal then s.mover
                     else if r.operation.Continue? then Proceeded(s.mover)
                     else if r.operation.Cancel? then Cancelling(s.mover) else s.mover;
        (Own(s.(mover := mover, cache := s.cache[i := prior.(peer := from)]), from, c.accept), prior.ack, None)
    else if !r.operation.Execute? then (s, MoveRejection(s, r, e, MoveTypes.Stale), None)
    else
      var t := s.(sessions := Sessions.PrunedTable(s.sessions, c.stale));
      if Sessions.Stale(t.sessions, r.key.session, r.key.command) then
        (t, MoveRejection(s, r, e, MoveTypes.Stale), None)
      else
        var obstacle := MoveObstacle(s, r, e);
        if obstacle.Some? then (t, MoveRejection(s, r, e, obstacle.value), None) else StartMove(t, r, from, e, c)
  }

  /** Admission of a fresh transaction, and its start. */
  function StartMove(s: State, r: MoveRequest, from: Peer, e: Snapshot, c: Clock): (State, Ack, Option<Key>) {
    var cache := RemoveOld(s.cache);
    var t := s.(cache := cache);
    if |cache| >= MAX_CACHE_RECORDS then (t, MoveRejection(s, r, e, MoveTypes.QueueFull), None)
    else
      var (sessions, ok) := Sessions.Admit(Sessions.PrunedTable(s.sessions, c.admit), r.key.session, c.admit, false,
                                           Protected(cache));
      var u := t.(sessions := sessions);
      if !ok then (u, MoveRejection(s, r, e, MoveTypes.QueueFull), None)
      else
        var mover := Started(r, e.activity, c.start);
        var v := u.(mover := mover, cache := cache + [MoveRecord(r, mover.ack, from)],
                    sessions := Sessions.Accept(sessions, r.key.session, r.key.command, c.accept),
                    sched := s.sched.(tracked := e.generation));
        (Own(v, from, c.accept), mover.ack, Some(r.key))
  }

  // ---------------------------------------------------------------- clicks and releases

  datatype ClickReply = ClickReply(status: T.Status, accepted: nat, completed: nat)

  predicate SameClick(a: T.Request, b: T.Request) {
    && a.version == b.version && a.operation == b.operation && a.button == b.button
    && a.count == b.count && a.press == b.press && a.interval == b.interval
  }

  predicate BadTiming(r: T.Request, e: Snapshot) {
    || r.count == 0 || r.count > 10000 || r.press < e.poll || r.press > 5000000 || r.interval > 60000000
    || (r.version == T.VERSION1 && r.interval < r.press + e.poll)
  }

  /** Why a fresh click command is turned away before it touches cache or sessions. */
  function ClickObstacle(s: State, r: T.Request, e: Snapshot): Option<T.Status> {
    if IsActive(s.mover) then Some(T.Busy)
    else if !e.ready then Some(T.NotReady)
    else if r.button < 1 || r.button > 8 || !HasButton(e.supported, r.button) then Some(T.UnsupportedButton)
    else if BadTiming(r, e) then Some(T.Invalid)
    else if HasButton(Either(e.physical, s.sched.persistent), r.button) then Some(T.ButtonActive)
    else if |s.sched.work| >= MAX_CLICK_COMMANDS then Some(T.QueueFull)
    else None
  }

  function ClickRecord(r: T.Request, from: Peer): Record {
    Record(r.key, r, if r.operation.Schedule? then r.count else 0, 0, T.Accepted, false, from, false, NoRequest, NoAck)
  }

  function NewClick(r: T.Request, now: nat): Click {
    Click(r.key, r.button, r.count, r.press, r.interval, 0, 0, now, AwaitPress, r.version, false, true)
  }

  /** The UPC1 handler for a parsed request; `due` is when a scheduled click may first be pressed. */
  function HandleClick(s: State, r: T.Request, from: Peer, e: Snapshot, now: nat, due: nat, cleared: nat)
    : (State, ClickReply, Option<Key>)
  {
    var i := FindCache(s.cache, r.key);
    if Foreign(s, from) then (s, ClickReply(T.Busy, 0, 0), None)
    else if i < |s.cache| then
      var prior := s.cache[i];
      if prior.movement || !SameClick(prior.click, r) then (s, ClickReply(T.Invalid, 0, 0), None)
      else
        (Own(s.(cache := s.cache[i := prior.(peer := from)]), from, now),
         ClickReply(if prior.terminal then prior.status else T.Duplicate, prior.accepted, prior.completed), None)
    else
      var t := s.(sessions := Sessions.PrunedTable(s.sessions, now));
      if Sessions.Stale(t.sessions, r.key.session, r.key.command) then (t, ClickReply(T.StaleCommand, 0, 0), None)
      else if r.operation.Schedule? && ClickObstacle(s, r, e).Some? then
        (t, ClickReply(ClickObstacle(s, r, e).value, 0, 0), None)
      else StartClick(t, r, from, e, now, due, cleared)
  }

  /** Admission of a fresh click command or ReleaseAll; only a ReleaseAll may push out a busy session. */
  function StartClick(s: State, r: T.Request, from: Peer, e: Snapshot, now: nat, due: nat, cleared: nat)
    : (State, ClickReply, Option<Key>)
  {
    var cache := RemoveOld(s.cache);
    var t := s.(cache := cache);
    if |cache| >= MAX_CACHE_RECORDS then (t, ClickReply(T.QueueFull, 0, 0), None)
    else
      var (sessions, ok) := Sessions.Admit(Sessions.PrunedTable(s.sessions, now), r.key.session, now,
                                           r.operation.ReleaseEverything?, Protected(cache));
      if !ok then (t.(sessions := sessions), ClickReply(T.QueueFull, 0, 0), None)
      else
        var u := Own(t.(cache := cache + [ClickRecord(r, from)],
                        sessions := Sessions.Accept(sessions, r.key.session, r.key.command, now)), from, now);
        var v := if r.operation.ReleaseEverything? then Reset(u, Some(r.key), now, cleared)
                 else u.(sched := u.sched.(work := u.sched.work + [NewClick(r, due)], tracked := e.generation));
        (v, ClickReply(T.Accepted, if r.operation.Schedule? then r.count else 0, 0), Some(r.key))
  }

  // ---------------------------------------------------------------- movement and text commands

  /** What a movement datagram leads to: nothing more, acceptance without a report, or one enqueue. */
  datatype MotionTurn = Dropped(s: State) | Free(s: State) | AskMotion(s: State, request: Mixer.Request)

  /** What a fresh movement datagram asks for; a transaction only lets an idle one renew the lease. */
  function JudgeMotion(s: State, from: Peer, c: Command, next: bv8, now: nat): MotionTurn {
    var transition := next != s.sched.persistent;
    var moves := c.x != 0 || c.y != 0;
    if IsActive(s.mover) then Dropped(if NoMotion(c) && next == 0 then Own(s, from, now) else s)
    else if transition || !NoMotion(c) then
      AskMotion(s, MotionRequest(s.sched, c, next, moves && c.wheel == 0 && c.pan == 0))
    else Free(s)
  }

  /** The UPX1 handler up to its enqueue. */
  function PlanMotion(s: State, from: Peer, sequence: nat, c: Command, next: bv8, e: Snapshot, now: nat): MotionTurn {
    if Foreign(s, from) then Dropped(s)
    else
      var t := s.(replay := Replay.Prune(s.replay, now));
      if Replay.Stale(t.replay, from, sequence) || !e.ready || next & !e.supported != 0 then Dropped(t)
      else JudgeMotion(t, from, c, next, now)
  }

  function MotionTaken(s: State, from: Peer, sequence: nat, next: bv8, e: Snapshot, now: nat): State {
    var t := s.(replay := Replay.Accept(Replay.Prune(s.replay, now), from, sequence, now),
                sched := s.sched.(persistent := next, tracked := e.generation));
    Own(t, from, now)
  }

  function HandleMotion(s: State, from: Peer, sequence: nat, c: Command, next: bv8, e: Snapshot, now: nat,
                        result: EnqueueResult): State {
    match PlanMotion(s, from, sequence, c, next, e, now)
    case Dropped(t) => t
    case Free(t) => MotionTaken(t, from, sequence, next, e, now)
    case AskMotion(t, r) => if result.Accepted? then MotionTaken(t, from, sequence, next, e, now) else t
  }

  /** A text click: queued without a record. */
  function HandleTextClick(s: State, from: Peer, button: nat, e: Snapshot, now: nat, due: nat): State {
    if Foreign(s, from) || IsActive(s.mover) || !e.ready || button < 1 || button > 8 || !HasButton(e.supported, button)
       || HasButton(Either(e.physical, s.sched.persistent), button) || |s.sched.work| >= MAX_CLICK_COMMANDS then s
    else
      var press := Max(10000, e.poll);
      var click := Click(NoKey, button, 1, press, press + e.poll, 0, 0, due, AwaitPress, T.VERSION1, false, false);
      Own(s.(sched := s.sched.(work := s.sched.work + [click], tracked := e.generation)), from, now)
  }

  function HandleTextRelease(s: State, from: Peer, now: nat, cleared: nat): State {
    if Foreign(s, from) then s else Own(Reset(s, None, now, cleared), from, now)
  }

  /** A text movement or button command; `next` is the persistent mask it asks for. */
  function HandleTextReport(s: State, from: Peer, next: bv8, e: Snapshot, now: nat, result: EnqueueResult): State {
    if Foreign(s, from) || IsActive(s.mover) || !e.ready || next & !e.supported != 0 || !result.Accepted? then s
    else Own(s.(sched := s.sched.(persistent := next, tracked := e.generation)), from, now)
  }
}
