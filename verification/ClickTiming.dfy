/** What completed commands guarantee: a click command's written edges alternate and keep their distances. */
module ClickTiming {
  import opened Common
  import opened HidReport
  import opened MoveTypes
  import opened Mixer
  import opened ClickScheduler
  import opened ClickLoop
  import Executor
  import ClickMasks
  import ClickRun
  import T = ClickTypes

  // ---------------------------------------------------------------- keys

  predicate Known(used: set<Key>, key: Key) {
    key == NoKey || key in used
  }

  function ItemKeys(queue: seq<Item>): set<Key> {
    set x | x in queue :: x.key
  }

  function EventKeys(events: seq<WriterEvent>): set<Key> {
    set x | x in events :: x.key
  }

  function WriterKeys(writer: Option<Carried>): set<Key> {
    if writer.Some? && writer.value.overlay.Some? then {writer.value.overlay.value.key} else {}
  }

  /** The keys of everything queued, in the writer, or unread. */
  function Around(w: World): set<Key> {
    ItemKeys(w.core.queue) + WriterKeys(w.writer) + EventKeys(w.batch) + EventKeys(w.queue)
  }

  ghost predicate KeyInv(w: World) {
    && (forall k :: k in Around(w) ==> Known(w.used, k))
    && Known(w.used, w.sched.releaseKey)
  }

  ghost predicate WorkKeys(s: Sched, used: set<Key>) {
    && (forall i :: 0 <= i < |s.work| && s.work[i].binary ==>
          s.work[i].key in used && s.work[i].key.session != 0 && s.work[i].key != s.releaseKey)
    && (forall i :: 0 <= i < |s.work| && !s.work[i].binary ==> s.work[i].key == NoKey)
    && (forall i, j :: 0 <= i < j < |s.work| && s.work[i].binary && s.work[j].binary ==> s.work[i].key != s.work[j].key)
  }

  // ---------------------------------------------------------------- timing

  /** Where the next press may not come before: the last press or the last release, by protocol version. */
  function PressBase(f: Click, edges: seq<Edge>, k: nat): nat
    requires 2 <= k <= |edges|
  {
    if f.version == T.VERSION2 then edges[k - 1].at else edges[k - 2].at
  }

  /** Edges alternate, count up and keep their distances; only a blocked last click may be shorter. */
  ghost predicate Timed(f: Click, edges: seq<Edge>) {
    && (forall k :: 0 <= k < |edges| ==> edges[k].press == (k % 2 == 0) && edges[k].index == k / 2)
    && (forall k :: 2 <= k < |edges| && edges[k].press ==>
          edges[k].at >= PressBase(f, edges, k) + f.interval * Executor.MICROSECOND)
    && (forall k :: 1 <= k < |edges| && !edges[k].press && (k < 2 * f.index || !f.blocked) ==>
          edges[k].at >= edges[k - 1].at + f.press * Executor.MICROSECOND)
  }

  /** Between edges: the press time and the due time the command holds are those of its written edges. */
  ghost predicate Rested(f: Click, edges: seq<Edge>) {
    if f.phase.AwaitPress? then
      && |edges| == 2 * f.index && !f.blocked
      && (f.index > 0 ==> f.due == PressBase(f, edges, |edges|) + f.interval * Executor.MICROSECOND)
    else
      && |edges| == 2 * f.index + 1 && f.pressWritten == edges[2 * f.index].at
      && (!f.blocked ==> f.due == f.pressWritten + f.press * Executor.MICROSECOND)
  }

  /** How many edges are written before the one in flight. */
  function Written(f: Click): nat {
    2 * f.index + if f.phase.ReleaseInflight? then 1 else 0
  }

  predicate EdgeKind(f: Click, k: Kind) {
    if f.phase.PressInflight? then k.ClickPress? else k.ClickRelease?
  }

  /** Unread events of the command are of its edge in flight, and nothing of it follows a success. */
  ghost predicate EdgeEvents(f: Click, edges: seq<Edge>, events: seq<WriterEvent>) {
    && (forall i :: 0 <= i < |events| && events[i].key == f.key && events[i].success ==>
          && |edges| == Written(f) + 1 && EdgeKind(f, events[i].kind) && events[i].index == f.index
          && events[i].written == edges[Written(f)].at)
    && (forall i, j :: 0 <= i < j < |events| && events[i].key == f.key && events[i].success ==> events[j].key != f.key)
  }

  /** At most one item of the command is queued, and only before its edge is written. */
  ghost predicate EdgeItems(f: Click, edges: seq<Edge>, queue: seq<Item>) {
    && (forall i :: 0 <= i < |queue| && queue[i].key == f.key ==>
          |edges| == Written(f) && EdgeKind(f, queue[i].kind) && queue[i].index == f.index)
    && (forall i, j :: 0 <= i < j < |queue| && queue[i].key == f.key ==> queue[j].key != f.key)
  }

  predicate EdgeWriter(f: Click, edges: seq<Edge>, c: Core, writer: Option<Carried>) {
    f.key in WriterKeys(writer) ==> |edges| == Written(f) && c.inflight.Some?
  }

  /** The edge in flight was asked for when it was due. */
  ghost predicate EdgeDue(f: Click, edges: seq<Edge>, clock: nat) {
    && Written(f) <= |edges| <= Written(f) + 1
    && clock >= f.due && (|edges| == Written(f) + 1 ==> edges[Written(f)].at >= f.due)
    && (f.phase.PressInflight? ==>
          && !f.blocked
          && (f.index > 0 ==> f.due == PressBase(f, edges, 2 * f.index) + f.interval * Executor.MICROSECOND))
    && (f.phase.ReleaseInflight? ==>
          && f.pressWritten == edges[2 * f.index].at
          && (!f.blocked ==> f.due == f.pressWritten + f.press * Executor.MICROSECOND))
  }

  /** One edge is on its way: queued, in the writer, or written with its event unread or lost. */
  ghost predicate Flying(w: World, f: Click) {
    && EdgeDue(f, w.edges, w.clock) && EdgeEvents(f, w.edges, Unread(w))
    && EdgeItems(f, w.edges, w.core.queue) && EdgeWriter(f, w.edges, w.core, w.writer)
  }

  /** After a layout change only a report in the writer may still write the edge. */
  ghost predicate Loose(w: World, f: Click) {
    && EdgeDue(f, w.edges, w.clock)
    && (f.key in WriterKeys(w.writer) ==>
          |w.edges| == Written(f) && EdgeKind(f, w.writer.value.overlay.value.kind)
          && w.writer.value.overlay.value.index == f.index)
  }

  predicate Inflight(p: Phase) {
    p.PressInflight? || p.ReleaseInflight?
  }

  ghost predicate FrontInv(w: World) {
    w.sched.work != [] && w.sched.work[0].binary ==>
      var f := w.sched.work[0];
      if Inflight(f.phase) then Timed(f, w.edges) && (if w.torn then Loose(w, f) else Flying(w, f))
      else Timed(f, w.edges) && f.key !in Around(w) && Rested(f, w.edges)
  }

  ghost predicate RestInv(w: World) {
    && (forall i :: 1 <= i < |w.sched.work| && w.sched.work[i].binary ==> w.sched.work[i].key !in Around(w))
    && (w.sched.work == [] ==> w.edges == [])
    && (!w.reading ==> w.batch == [])
  }

  ghost predicate Inv(w: World) {
    && KeyInv(w) && WorkKeys(w.sched, w.used) && FrontInv(w) && RestInv(w)
  }

  lemma BeginInv(generation: nat)
    ensures Inv(ClickLoop.Begin(generation))
  {
  }

  // ---------------------------------------------------------------- keys of every step

  lemma {:induction false} SupersededKeys(c: Core, persistent: bv8)
    ensures ItemKeys(Supersede(c, persistent).queue) <= ItemKeys(c.queue)
  {
    SupersedeShape(c, persistent);
    hide Supersede;
  }

  lemma EnqueuedKeys(c: Core, r: Request, ready: bool, supported: bool, now: nat)
    ensures var (d, result) := Enqueue(c, r, ready, supported, now);
      && ItemKeys(d.queue) <= ItemKeys(c.queue) + {r.key}
      && (!result.Accepted? ==> ItemKeys(d.queue) <= ItemKeys(c.queue))
  {
    hide Supersede, Either, Expected;
    SupersededKeys(c, r.persistent);
  }

  lemma TakenKeys(c: Core, grab: Grab, now: nat)
    ensures var (d, report) := Taken(c, grab, now);
      ItemKeys(d.queue) <= ItemKeys(c.queue) && WriterKeys(report) <= ItemKeys(c.queue)
  {
    ExpireShape(c, now);
    var e := Expire(c, now);
    hide Expire, MayCarry;
    var k := |c.queue| - |e.queue|;
    forall x | x in e.queue
      ensures x.key in ItemKeys(c.queue)
    {
      var i :| 0 <= i < |e.queue| && e.queue[i] == x;
      ClickMasks.AgedKeepsLink(c.queue[k + i], now);
      assert c.queue[k + i] in c.queue;
    }
    assert ItemKeys(e.queue) <= ItemKeys(c.queue);
    if e.queue != [] {
      assert e.queue[0] in e.queue;
    }
  }

  lemma CompletedKeys(c: Core, r: Carried, success: bool)
    requires CoreInv(c)
    ensures ItemKeys(Complete(c, r.generation, r.overlay, success).0.queue) <= ItemKeys(c.queue)
  {
    CompleteShape(c, r.generation, r.overlay, success);
    var d := Complete(c, r.generation, r.overlay, success).0;
    hide Complete;
    if c.queue != [] {
      assert c.queue[0] in c.queue;
    }
  }

  lemma PostedKeys(queue: seq<WriterEvent>, overflow: bool, generation: nat, r: Carried, success: bool,
                   finished: bool, now: nat)
    ensures EventKeys(Posted(queue, overflow, generation, r, success, finished, now).0)
            <= EventKeys(queue) + WriterKeys(Some(r)) + {NoKey}
  {
    hide Reported;
  }

  /** A step brings around only keys that were there, no key, or the key it enqueues. */
  predicate Brings(w: World, v: World, key: Key) {
    Around(v) <= Around(w) + {NoKey, key}
  }

  lemma MotionBrings(w: World, c: Command, next: bv8, latest: bool, ready: bool, supported: bool)
    ensures Brings(w, MotionStep(w, c, next, latest, ready, supported), NoKey)
  {
    hide Enqueue, ItemKeys, EventKeys, WriterKeys, MotionStep;
    MotionShape(w, c, next, latest, ready, supported);
    EnqueuedKeys(w.core, MotionRequest(w.sched, c, next, latest), ready, supported, w.clock);
  }

  lemma TakeBrings(w: World, grab: Grab)
    ensures Brings(w, TakeStep(w, grab), NoKey)
  {
    TakenKeys(w.core, grab, w.clock);
    hide Taken, ItemKeys, EventKeys, WriterKeys;
  }

  lemma FinishBrings(w: World, success: bool)
    requires CoreInv(w.core) && w.writer.Some?
    ensures Brings(w, FinishStep(w, success), NoKey)
  {
    var r := w.writer.value;
    CompletedKeys(w.core, r, success);
    var (c, finished) := Complete(w.core, r.generation, r.overlay, success);
    PostedKeys(w.queue, w.overflow, w.core.generation, r, success, finished, w.clock);
    assert WriterKeys(None) == {};
    hide Complete, Posted, ItemKeys, EventKeys, WriterKeys;
  }

  lemma UnreadKeys(w: World)
    ensures EventKeys(Unread(w)) == EventKeys(w.batch) + EventKeys(w.queue)
  {
  }

  lemma TailKeys(w: World)
    requires w.batch != []
    ensures EventKeys(w.batch[1..]) <= EventKeys(w.batch) && w.batch[0].key in EventKeys(w.batch)
  {
    assert w.batch[0] in w.batch;
  }

  // ---------------------------------------------------------------- keys, releases and waiting commands

  ghost predicate Base(w: World) {
    KeyInv(w) && WorkKeys(w.sched, w.used) && RestInv(w)
  }

  /** Keys stay in order when a step brings only a known key that no waiting command owns. */
  lemma BroughtBase(w: World, v: World, key: Key)
    requires Base(w) && Brings(w, v, key) && v.used == w.used && Known(w.used, key)
    requires v.sched.work == w.sched.work && v.sched.releaseKey == w.sched.releaseKey
    requires forall i :: 1 <= i < |w.sched.work| && w.sched.work[i].binary ==> w.sched.work[i].key != key
    requires v.batch == w.batch && v.reading == w.reading && (w.sched.work == [] ==> v.edges == w.edges)
    ensures KeyInv(v) && WorkKeys(v.sched, v.used) && RestInv(v)
  {
    hide Around;
  }

  /** The front command's key is its own. */
  lemma FrontKeyIsOwn(s: Sched, used: set<Key>)
    requires WorkKeys(s, used) && s.work != []
    ensures forall i :: 1 <= i < |s.work| && s.work[i].binary ==> s.work[i].key != s.work[0].key
    ensures Known(used, s.work[0].key)
    ensures forall i :: 0 <= i < |s.work| && s.work[i].binary ==> s.work[i].key != s.releaseKey && s.work[i].key != NoKey
  {
  }

  lemma MotionKeepsBase(w: World, c: Command, next: bv8, latest: bool, ready: bool, supported: bool)
    requires Base(w)
    ensures Base(MotionStep(w, c, next, latest, ready, supported))
  {
    hide Enqueue, Around, MotionStep;
    var v := MotionStep(w, c, next, latest, ready, supported);
    MotionShape(w, c, next, latest, ready, supported);
    MotionBrings(w, c, next, latest, ready, supported);
    KeysAreSessions(w);
    BroughtBase(w, v, NoKey);
  }

  lemma KeysAreSessions(w: World)
    requires WorkKeys(w.sched, w.used)
    ensures forall i :: 0 <= i < |w.sched.work| && w.sched.work[i].binary ==> w.sched.work[i].key != NoKey
  {
  }

  lemma TakeKeepsBase(w: World, grab: Grab)
    requires Base(w) && w.writer.None?
    ensures Base(TakeStep(w, grab))
  {
    var v := TakeStep(w, grab);
    TakeBrings(w, grab);
    KeysAreSessions(w);
    hide Taken, Around;
    BroughtBase(w, v, NoKey);
  }

  lemma FinishKeepsBase(w: World, success: bool)
    requires Base(w) && Linked(w.core, w.writer) && w.writer.Some?
    ensures Base(FinishStep(w, success))
  {
    var v := FinishStep(w, success);
    FinishBrings(w, success);
    KeysAreSessions(w);
    assert w.sched.work == [] ==> v.edges == w.edges;
    hide FinishStep, Around;
    FinishFields(w, success);
    BroughtBase(w, v, NoKey);
  }

  lemma FinishFields(w: World, success: bool)
    requires w.writer.Some?
    ensures var v := FinishStep(w, success);
      v.sched == w.sched && v.batch == w.batch && v.reading == w.reading && v.used == w.used && v.torn == w.torn
      && v.writer.None? && v.clock == w.clock
  {
    hide Complete, Posted;
  }

  lemma ResetKeepsBase(w: World, attach: Option<Key>)
    requires KeyInv(w)  && (!w.reading ==> w.batch == [])
    requires attach.Some? ==> Known(w.used, attach.value)
    ensures Base(Reset(w, attach)) && FrontInv(Reset(w, attach))
  {
    var v := Reset(w, attach);
    assert Around(v) <= Around(w);
    hide Around;
  }

  /** What is left of the work after an event or a refusal: the same commands, or all but the first. */
  predicate Shortened(s: Sched, t: Sched) {
    && (t.releaseKey == s.releaseKey || t.releaseKey == NoKey)
    && (t.work == s.work
        || (s.work != [] && t.work == s.work[1..])
        || (s.work != [] && t.work != [] && t.work[1..] == s.work[1..]
            && t.work[0].key == s.work[0].key && t.work[0].binary == s.work[0].binary))
  }

  lemma SettledShortens(s: Sched, ev: WriterEvent)
    ensures Shortened(s, Settled(s, ev).0)
  {
    hide HasButton, Shortened, FrontAs, FinishFront, Pressed, Rearmed;
    SameIsShortened(s);
    if s.work != [] {
      FrontIsShortened(s, s.work[0], Pressed(s.work[0], ev));
      FrontIsShortened(s, s.work[0], Rearmed(s.work[0], ev));
      RestIsShortened(s, T.ButtonActive);
      RestIsShortened(s, T.Completed);
      EdgesKeepKeys(s.work[0], ev);
    }
  }

  lemma SameIsShortened(s: Sched)
    ensures Shortened(s, s)
    ensures Shortened(s, s.(releasePending := false, releaseInflight := false, releaseKey := NoKey))
  {
  }

  lemma FrontIsShortened(s: Sched, f: Click, g: Click)
    requires s.work != [] && f == s.work[0]
    ensures g.key == f.key && g.binary == f.binary ==> Shortened(s, FrontAs(s, g))
  {
    assert ([g] + s.work[1..])[1..] == s.work[1..];
  }

  lemma RestIsShortened(s: Sched, status: T.Status)
    requires s.work != []
    ensures Shortened(s, FinishFront(s, status).0)
  {
  }

  lemma EdgesKeepKeys(f: Click, ev: WriterEvent)
    ensures Pressed(f, ev).key == f.key && Pressed(f, ev).binary == f.binary
    ensures Rearmed(f, ev).key == f.key && Rearmed(f, ev).binary == f.binary
  {
  }

  lemma ShortenedKeepsBase(w: World, v: World)
    requires Base(w) && Shortened(w.sched, v.sched) && Around(v) <= Around(w)
    requires v.used == w.used
    requires v.edges == (if |v.sched.work| < |w.sched.work| then [] else w.edges)
    requires !v.reading ==> v.batch == []
    ensures KeyInv(v) && WorkKeys(v.sched, v.used) && RestInv(v)
  {
    hide Around;
    KeysAreSessions(w);
    forall i | 0 <= i < |v.sched.work|
      ensures var j := i + |w.sched.work| - |v.sched.work|;
        v.sched.work[i].key == w.sched.work[j].key && v.sched.work[i].binary == w.sched.work[j].binary
    {
      if i > 0 && |v.sched.work| == |w.sched.work| {
        assert v.sched.work[1..][i - 1] == w.sched.work[1..][i - 1];
      }
    }
  }

  lemma DeliverKeepsBase(w: World)
    requires Base(w) && w.reading && w.batch != []
    ensures Base(DeliverStep(w))
  {
    var ev := w.batch[0];
    var u := w.(batch := w.batch[1..]);
    TailKeys(w);
    assert Around(u) <= Around(w);
    hide Around, Settled;
    if ev.success {
      SettledShortens(w.sched, ev);
      var v := DeliverStep(w);
      SameAround(u, v);
      ShortenedKeepsBase(w, v);
    } else {
      ResetKeepsBase(u, None);
    }
  }

  lemma SameAround(w: World, v: World)
    requires v.core.queue == w.core.queue && v.writer == w.writer && v.batch == w.batch && v.queue == w.queue
    ensures Around(v) == Around(w)
  {
  }

  lemma TurnKeepsBase(w: World, seen: bool, physical: bv8, ready: bool, supported: bool)
    requires Base(w) && !w.reading
    ensures Base(TurnStep(w, seen, physical, ready, supported))
  {
    hide Around, PlanTick, Enqueue, TurnAnswered, ResetSched, FinishFront;
    var sight := Sight(w, seen, physical);
    var turn := PlanTick(w.sched, sight, w.clock);
    var v := TurnStep(w, seen, physical, ready, supported);
    ResetKeepsBase(w, None);
    if turn.FinishActive? {
      FinishShortens(w.sched, sight, w.clock);
      SameAround(w, v);
      ShortenedKeepsBase(w, v);
    } else if turn.AskRelease? || turn.AskPress? || turn.AskLift? {
      AskKeepsBase(w, turn, sight, ready, supported);
    }
  }

  lemma FinishShortens(s: Sched, sight: Snapshot, now: nat)
    requires PlanTick(s, sight, now).FinishActive?
    ensures s.work != [] && Shortened(s, FinishFront(s, T.ButtonActive).0)
    ensures |FinishFront(s, T.ButtonActive).0.work| < |s.work|
  {
    hide HasButton;
  }

  /** The key of what the scheduler asks for. */
  lemma AskedKey(s: Sched, sight: Snapshot, now: nat)
    ensures var turn := PlanTick(s, sight, now);
      && (turn.AskRelease? ==> turn.request.key == s.releaseKey && turn.request.persistent == 0 && turn.request.scheduled == 0)
      && (turn.AskPress? || turn.AskLift? ==>
            && s.work != [] && turn.request.key == s.work[0].key && turn.request.index == s.work[0].index
            && turn.request.kind == (if turn.AskPress? then ClickPress else ClickRelease))
  {
    hide HasButton, PlusButton, MinusButton;
  }

  lemma AnsweredShape(s: Sched, turn: Turn, result: EnqueueResult)
    requires turn.AskPress? || turn.AskLift? ==> s.work != []
    ensures var t := TurnAnswered(s, turn, result);
      && t.releaseKey == s.releaseKey && |t.work| == |s.work| && Shortened(s, t)
      && (s.work != [] ==> t.work[0] == s.work[0].(phase := t.work[0].phase))
  {
    if s.work != [] {
      assert forall f: Click :: ([f] + s.work[1..])[1..] == s.work[1..];
    }
  }

  lemma AskKeepsBase(w: World, turn: Turn, sight: Snapshot, ready: bool, supported: bool)
    requires Base(w) && !w.reading && turn == PlanTick(w.sched, sight, w.clock)
    requires turn.AskRelease? || turn.AskPress? || turn.AskLift?
    ensures var (core, result) := Enqueue(w.core, turn.request, ready, supported, w.clock);
      && (AnswerResets(turn, result) ==> Base(Reset(w.(core := core), None)))
      && (!AnswerResets(turn, result) ==> Base(w.(core := core, sched := TurnAnswered(w.sched, turn, result))))
  {
    hide PlanTick, Enqueue, TurnAnswered, ResetSched;
    var r := turn.request;
    var (core, result) := Enqueue(w.core, r, ready, supported, w.clock);
    AskedKey(w.sched, sight, w.clock);
    EnqueuedKeys(w.core, r, ready, supported, w.clock);
    var u := w.(core := core);
    assert Brings(w, u, r.key);
    if w.sched.work != [] {
      FrontKeyIsOwn(w.sched, w.used);
    }
    hide Around;
    BroughtBase(w, u, r.key);
    ResetKeepsBase(u, None);
    var v := u.(sched := TurnAnswered(w.sched, turn, result));
    AnsweredShape(w.sched, turn, result);
    SameAround(u, v);
    ShortenedKeepsBase(u, v);
  }

  lemma AcceptKeepsBase(w: World, click: Click)
    requires Base(w) && !w.reading && FreshClick(click) && (click.binary ==> click.key !in w.used)
    ensures Base(Step(w, AcceptClick(click)))
  {
    var v := Step(w, AcceptClick(click));
    SameAround(w, v);
    hide Around;
  }

  // ---------------------------------------------------------------- the command in front

  lemma MotionKeepsFront(w: World, c: Command, next: bv8, latest: bool, ready: bool, supported: bool)
    requires FrontInv(w) && WorkKeys(w.sched, w.used) && CoreInv(w.core)
    ensures FrontInv(MotionStep(w, c, next, latest, ready, supported))
  {
    hide Enqueue, Around, EdgeItems, EdgeEvents, EdgeDue, Timed, Rested, CoreInv, MotionStep;
    var r := MotionRequest(w.sched, c, next, latest);
    MotionShape(w, c, next, latest, ready, supported);
    MotionBrings(w, c, next, latest, ready, supported);
    KeysAreSessions(w);
    if w.sched.work != [] && w.sched.work[0].binary {
      var f := w.sched.work[0];
      EnqueueKeepsFront(w.core, r, ready, supported, w.clock);
      if Inflight(f.phase) && !w.torn {
        EdgeItemsEnqueued(f, w.edges, w.core, r, ready, supported, w.clock);
      }
    }
  }

  /** An enqueue for another key leaves the command's items as they are. */
  lemma EdgeItemsEnqueued(f: Click, edges: seq<Edge>, c: Core, r: Request, ready: bool, supported: bool, now: nat)
    requires EdgeItems(f, edges, c.queue) && r.key != f.key
    ensures EdgeItems(f, edges, Enqueue(c, r, ready, supported, now).0.queue)
  {
    hide Supersede, Either, Expected, EdgeKind, Written;
    SupersedeShape(c, r.persistent);
  }

  lemma TakeKeepsFront(w: World, grab: Grab)
    requires FrontInv(w) && WorkKeys(w.sched, w.used) && w.writer.None? && (w.torn ==> w.core.queue == [])
    ensures FrontInv(TakeStep(w, grab))
  {
    var v := TakeStep(w, grab);
    TakeBrings(w, grab);
    KeysAreSessions(w);
    if w.sched.work != [] && w.sched.work[0].binary {
      var f := w.sched.work[0];
      if Inflight(f.phase) && !w.torn {
        EdgeItemsTaken(f, w.edges, w.core, grab, w.clock);
      }
      hide Taken, Around, EdgeItems, EdgeEvents, EdgeDue, Timed, Rested;
    }
  }

  lemma EdgeItemsTaken(f: Click, edges: seq<Edge>, c: Core, grab: Grab, now: nat)
    requires EdgeItems(f, edges, c.queue)
    ensures var (d, report) := Taken(c, grab, now);
      EdgeItems(f, edges, d.queue) && (report.Some? ==> EdgeWriter(f, edges, d, report))
  {
    ExpireShape(c, now);
    var e := Expire(c, now);
    var k := |c.queue| - |e.queue|;
    forall i | 0 <= i < |e.queue|
      ensures e.queue[i].key == c.queue[k + i].key && e.queue[i].kind == c.queue[k + i].kind
      ensures e.queue[i].index == c.queue[k + i].index
    {
      ClickMasks.AgedKeepsLink(c.queue[k + i], now);
    }
    hide Expire, MayCarry, Aged, EdgeKind, Written;
    assert EdgeItems(f, edges, e.queue);
  }

  /** A completion that writes no edge of the front command. */
  lemma FinishElseKeepsFront(w: World, success: bool)
    requires FrontInv(w) && WorkKeys(w.sched, w.used) && Linked(w.core, w.writer) && w.writer.Some?
    requires !(success && CarriesEdge(w))
    ensures FrontInv(FinishStep(w, success))
  {
    var v := FinishStep(w, success);
    FinishBrings(w, success);
    KeysAreSessions(w);
    FinishFields(w, success);
    if w.sched.work != [] && w.sched.work[0].binary {
      var f := w.sched.work[0];
      if Inflight(f.phase) && !w.torn {
        EdgeItemsCompleted(f, w.edges, w.core, w.writer.value, success);
        if f.key in WriterKeys(w.writer) {
          CarriedIsEdge(w, f);
        }
        ElseEvents(w, success, f);
      }
      hide Complete, Around, EdgeItems, EdgeEvents, EdgeDue, Timed, Rested, Posted;
    }
  }

  lemma EdgeItemsCompleted(f: Click, edges: seq<Edge>, c: Core, r: Carried, success: bool)
    requires EdgeItems(f, edges, c.queue) && CoreInv(c)
    ensures EdgeItems(f, edges, Complete(c, r.generation, r.overlay, success).0.queue)
  {
    CompleteShape(c, r.generation, r.overlay, success);
    hide Complete, Finished, EdgeKind, Written;
  }

  /** What the writer carries of the front command is its edge in flight. */
  lemma CarriedIsEdge(w: World, f: Click)
    requires Linked(w.core, w.writer) && w.sched.work != [] && f == w.sched.work[0] && Inflight(f.phase)
    requires EdgeItems(f, w.edges, w.core.queue) && EdgeWriter(f, w.edges, w.core, w.writer) && f.key in WriterKeys(w.writer)
    ensures CarriesEdge(w) && |w.edges| == Written(f)
    ensures var r := w.writer.value;
      && CarriesFront(w.core, r.generation, r.overlay.value) && w.core.queue[0].key == f.key
      && EdgeKind(f, r.overlay.value.kind) && r.overlay.value.index == f.index
      && MayCarry(w.core.queue[0], r.overlay.value.applied) && r.overlay.value.kind == w.core.queue[0].kind
  {
    hide CoreInv, MayCarry;
  }

  /** Events that are not a success of the command change nothing it waits for. */
  lemma ElseEvents(w: World, success: bool, f: Click)
    requires w.writer.Some? && f.key != NoKey && EdgeEvents(f, w.edges, Unread(w))
    requires f.key in WriterKeys(w.writer) ==> !success && |w.edges| == Written(f)
    ensures EdgeEvents(f, w.edges, Unread(FinishStep(w, success)))
  {
    var v := FinishStep(w, success);
    var r := w.writer.value;
    var (c, finished) := Complete(w.core, r.generation, r.overlay, success);
    hide Complete, Reported, EdgeKind, Written;
    if v.queue == w.queue {
      assert Unread(v) == Unread(w);
    } else {
      var ev := EventOf(r.generation, r.overlay, r.final, success, finished, w.clock);
      assert Unread(v) == Unread(w) + [ev];
      assert ev.key == f.key ==> !ev.success && f.key in WriterKeys(w.writer);
    }
  }

  // ---------------------------------------------------------------- an edge is written

  function Departure(f: Click, clock: nat): Edge {
    Edge(f.phase.PressInflight?, f.index, clock)
  }

  lemma PatternGrows(f: Click, edges: seq<Edge>, clock: nat)
    requires Timed(f, edges) && |edges| == Written(f) && Inflight(f.phase)
    ensures var more := edges + [Departure(f, clock)];
      forall k :: 0 <= k < |more| ==> more[k].press == (k % 2 == 0) && more[k].index == k / 2
  {
    hide PressBase;
  }

  lemma PressesGrow(f: Click, edges: seq<Edge>, clock: nat)
    requires Timed(f, edges) && EdgeDue(f, edges, clock) && |edges| == Written(f) && Inflight(f.phase)
    ensures var more := edges + [Departure(f, clock)];
      forall k :: 2 <= k < |more| && more[k].press ==>
        more[k].at >= PressBase(f, more, k) + f.interval * Executor.MICROSECOND
  {
    var more := edges + [Departure(f, clock)];
    forall k | 2 <= k < |more| && more[k].press
      ensures more[k].at >= PressBase(f, more, k) + f.interval * Executor.MICROSECOND
    {
      assert more[k - 1] == edges[k - 1] && more[k - 2] == edges[k - 2];
      assert PressBase(f, more, k) == PressBase(f, edges, k);
    }
  }

  lemma ReleasesGrow(f: Click, edges: seq<Edge>, clock: nat)
    requires Timed(f, edges) && EdgeDue(f, edges, clock) && |edges| == Written(f) && Inflight(f.phase)
    ensures var more := edges + [Departure(f, clock)];
      forall k :: 1 <= k < |more| && !more[k].press && (k < 2 * f.index || !f.blocked) ==>
        more[k].at >= more[k - 1].at + f.press * Executor.MICROSECOND
  {
    var more := edges + [Departure(f, clock)];
    hide PressBase;
    forall k | 1 <= k < |more| && !more[k].press && (k < 2 * f.index || !f.blocked)
      ensures more[k].at >= more[k - 1].at + f.press * Executor.MICROSECOND
    {
      assert more[k - 1] == edges[k - 1];
    }
  }

  lemma DueGrows(f: Click, edges: seq<Edge>, clock: nat)
    requires EdgeDue(f, edges, clock) && |edges| == Written(f) && Inflight(f.phase)
    ensures EdgeDue(f, edges + [Departure(f, clock)], clock)
  {
    var more := edges + [Departure(f, clock)];
    if f.phase.PressInflight? && f.index > 0 {
      assert PressBase(f, more, 2 * f.index) == PressBase(f, edges, 2 * f.index);
    }
  }

  /** The edge leaves now, after it was due: the written edges stay timed. */
  lemma TimedGrows(f: Click, edges: seq<Edge>, clock: nat)
    requires Timed(f, edges) && EdgeDue(f, edges, clock) && |edges| == Written(f) && Inflight(f.phase)
    ensures var more := edges + [Departure(f, clock)]; Timed(f, more) && EdgeDue(f, more, clock)
  {
    PatternGrows(f, edges, clock);
    PressesGrow(f, edges, clock);
    ReleasesGrow(f, edges, clock);
    DueGrows(f, edges, clock);
    hide PressBase, EdgeDue;
  }

  /** The written item leaves the queue, and with it everything of the command. */
  lemma EdgeLeaves(w: World, f: Click)
    requires ClickRun.Inv(w) && !w.torn && w.writer.Some? && w.sched.work != [] && f == w.sched.work[0]
    requires Inflight(f.phase) && Flying(w, f) && CarriesEdge(w)
    ensures var d := Complete(w.core, w.writer.value.generation, w.writer.value.overlay, true).0;
      && d.queue == w.core.queue[1..] && |w.edges| == Written(f)
      && (forall i :: 0 <= i < |d.queue| ==> d.queue[i].key != f.key)
  {
    CarriedIsEdge(w, f);
    var r := w.writer.value;
    CompleteShape(w.core, r.generation, r.overlay, true);
    ClickRun.FrontClickIsStill(w);
    ClickMasks.StillFinishes(w.core.queue[0], r.overlay.value);
    hide Complete, Committed, MayCarry, Finished, EdgeDue, EdgeEvents, EdgeKind, Written, Linked;
  }

  /** The event of the written edge, if it is queued. */
  lemma EdgePosted(w: World, f: Click)
    requires w.writer.Some? && w.sched.work != [] && f == w.sched.work[0] && Inflight(f.phase)
    requires EdgeEvents(f, w.edges, Unread(w)) && |w.edges| == Written(f) && CarriesEdge(w)
    requires EdgeKind(f, w.writer.value.overlay.value.kind) && w.writer.value.overlay.value.index == f.index
    ensures var v := FinishStep(w, true); EdgeEvents(f, v.edges, Unread(v))
  {
    var v := FinishStep(w, true);
    var r := w.writer.value;
    var (c, finished) := Complete(w.core, r.generation, r.overlay, true);
    hide Complete, Reported;
    if v.queue == w.queue {
      assert Unread(v) == Unread(w);
    } else {
      var ev := EventOf(r.generation, r.overlay, r.final, true, finished, w.clock);
      assert Unread(v) == Unread(w) + [ev];
      hide Posted;
    }
  }

  lemma FinishEdgeKeepsFront(w: World)
    requires FrontInv(w) && ClickRun.Inv(w) && w.writer.Some? && CarriesEdge(w) && WorkKeys(w.sched, w.used)
    ensures FrontInv(FinishStep(w, true))
  {
    var v := FinishStep(w, true);
    FinishFields(w, true);
    var f := w.sched.work[0];
    hide Complete, EdgeItems, EdgeEvents, EdgeDue, Timed, Rested, Posted, ClickRun.Inv;
    if f.binary {
      assert f.key in Around(w);
      hide Around;
      if !w.torn {
        ClickRun.InvFacts(w);
        CarriedIsEdge(w, f);
        EdgeLeaves(w, f);
        EdgePosted(w, f);
        TimedGrows(f, w.edges, w.clock);
        NoItems(f, v.edges, v.core.queue);
        assert v.edges == w.edges + [Departure(f, w.clock)];
      } else {
        TimedGrows(f, w.edges, w.clock);
        assert v.edges == w.edges + [Departure(f, w.clock)];
      }
    }
  }

  lemma NoItems(f: Click, edges: seq<Edge>, queue: seq<Item>)
    requires forall i :: 0 <= i < |queue| ==> queue[i].key != f.key
    ensures EdgeItems(f, edges, queue)
  {
  }

  // ---------------------------------------------------------------- events are read

  /** A command that moved up to the front: untouched, and nothing of it anywhere. */
  lemma NewFront(w: World, v: World)
    requires RestInv(w) && ClickMasks.WorkInv(w.sched.work) && w.sched.work != []
    requires v.sched.work == w.sched.work[1..] && v.edges == [] && Around(v) <= Around(w)
    ensures FrontInv(v)
  {
    hide Around;
  }

  /** An event that does not concern the front command leaves it as it is. */
  lemma UnreadTail(w: World, f: Click)
    requires w.batch != []
    ensures var v := w.(batch := w.batch[1..]);
      && Unread(w) == [w.batch[0]] + Unread(v)
      && (EdgeEvents(f, w.edges, Unread(w)) ==> EdgeEvents(f, w.edges, Unread(v)))
  {
    var v := w.(batch := w.batch[1..]);
    assert Unread(v) == Unread(w)[1..];
    hide EdgeKind, Written;
  }

  lemma SkipKeepsFront(w: World)
    requires FrontInv(w) && w.batch != []
    ensures FrontInv(w.(batch := w.batch[1..]))
  {
    var v := w.(batch := w.batch[1..]);
    TailKeys(w);
    assert Around(v) <= Around(w);
    if w.sched.work != [] {
      UnreadTail(w, w.sched.work[0]);
    }
    hide Around, EdgeItems, EdgeEvents, EdgeDue, Timed, Rested;
  }

  /** An event of the front command with its index, at last: it is of the edge in flight, and the last of it. */
  lemma EdgeArrives(w: World)
    requires FrontInv(w) && w.batch != [] && !w.torn && w.sched.work != [] && w.sched.work[0].binary
    requires w.batch[0].key == w.sched.work[0].key && w.batch[0].success
    ensures var f, ev := w.sched.work[0], w.batch[0];
      var v := w.(batch := w.batch[1..]);
      && Inflight(f.phase) && EdgeKind(f, ev.kind) && ev.index == f.index
      && |w.edges| == Written(f) + 1 && ev.written == w.edges[Written(f)].at
      && f.key !in Around(v) && Timed(f, w.edges) && EdgeDue(f, w.edges, w.clock)
  {
    var f, ev := w.sched.work[0], w.batch[0];
    var v := w.(batch := w.batch[1..]);
    TailKeys(w);
    assert Inflight(f.phase);
    UnreadTail(w, f);
    assert Unread(w)[0] == ev;
    assert |w.edges| == Written(f) + 1;
    forall i | 0 <= i < |Unread(v)|
      ensures Unread(v)[i].key != f.key
    {
      assert Unread(w)[i + 1] == Unread(v)[i];
    }
    hide Timed, EdgeDue, Rested;
    NotAround(v, f.key);
  }

  lemma NotAround(w: World, key: Key)
    requires forall i :: 0 <= i < |w.core.queue| ==> w.core.queue[i].key != key
    requires key !in WriterKeys(w.writer)
    requires forall i :: 0 <= i < |Unread(w)| ==> Unread(w)[i].key != key
    ensures key !in Around(w)
  {
    UnreadKeys(w);
    hide WriterKeys;
  }

  /** The press is written: the command rests with its button down. */
  lemma PressRests(f: Click, edges: seq<Edge>, clock: nat, ev: WriterEvent)
    requires f.phase.PressInflight? && Timed(f, edges) && EdgeDue(f, edges, clock)
    requires |edges| == Written(f) + 1 && ev.written == edges[Written(f)].at
    ensures Timed(Pressed(f, ev), edges) && Rested(Pressed(f, ev), edges) && !Inflight(Pressed(f, ev).phase)
  {
  }

  /** Timing only depends on the command's intervals, once no click of it is blocked. */
  lemma TimedStays(f: Click, g: Click, edges: seq<Edge>)
    requires Timed(f, edges) && !f.blocked
    requires g.version == f.version && g.interval == f.interval && g.press == f.press
    ensures Timed(g, edges)
  {
    forall k | 2 <= k < |edges|
      ensures PressBase(g, edges, k) == PressBase(f, edges, k)
    {
    }
    hide PressBase;
  }

  /** The release is written: the command rests until its next press. */
  lemma ReleaseRests(f: Click, edges: seq<Edge>, clock: nat, ev: WriterEvent)
    requires f.phase.ReleaseInflight? && Timed(f, edges) && EdgeDue(f, edges, clock) && !f.blocked
    requires |edges| == Written(f) + 1 && ev.written == edges[Written(f)].at
    ensures Timed(Rearmed(f, ev), edges) && Rested(Rearmed(f, ev), edges)
  {
    TimedStays(f, Rearmed(f, ev), edges);
    hide Timed;
  }

  lemma DeliverKeepsFront(w: World)
    requires FrontInv(w) && Base(w) && ClickRun.Inv(w) && w.reading && w.batch != []
    ensures FrontInv(DeliverStep(w))
  {
    var ev := w.batch[0];
    var u := w.(batch := w.batch[1..]);
    var v := DeliverStep(w);
    SkipKeepsFront(w);
    if ev.success && w.sched.work != [] {
      SettledCases(w, ev);
      TailKeys(w);
      assert Around(u) <= Around(w);
      SameAround(u, v);
      if |v.sched.work| < |w.sched.work| {
        ClickRun.WorkFacts(w);
        NewFront(w, v);
      } else if w.sched.work[0].binary && v.sched.work != w.sched.work {
        ClickRun.ReadingIsWhole(w);
        EdgeArrives(w);
        if w.sched.work[0].phase.PressInflight? {
          PressRests(w.sched.work[0], w.edges, w.clock, ev);
        } else {
          ReleaseRests(w.sched.work[0], w.edges, w.clock, ev);
        }
      }
      hide Around, Settled, Timed, Rested, EdgeDue, EdgeItems, EdgeEvents, Pressed, Rearmed;
    }
  }

  /** What a success does to the command in front. */
  lemma SettledCases(w: World, ev: WriterEvent)
    requires w.sched.work != []
    ensures var f := w.sched.work[0];
      var t := Settled(w.sched, ev).0;
      || t.work == w.sched.work
      || t.work == w.sched.work[1..]
      || (ev.key == f.key && f.phase.PressInflight? && t.work == [Pressed(f, ev)] + w.sched.work[1..])
      || (ev.key == f.key && f.phase.ReleaseInflight? && !f.blocked && t.work == [Rearmed(f, ev)] + w.sched.work[1..])
  {
    hide HasButton, Pressed, Rearmed;
  }

  // ---------------------------------------------------------------- turns

  /** An accepted edge flies. */
  lemma EdgeTakesOff(w: World, f: Click, g: Click, r: Request, core: Core, now: nat)
    requires !Inflight(f.phase) && Timed(f, w.edges) && f.key !in Around(w) && Rested(f, w.edges)
    requires g == f.(phase := g.phase) && now >= f.due && CoreInv(w.core)
    requires (f.phase.AwaitPress? && g.phase.PressInflight?) || (!f.phase.AwaitPress? && g.phase.ReleaseInflight?)
    requires r.key == f.key && r.index == f.index && EdgeKind(g, r.kind) && !r.latest
    requires core == w.core.(queue := w.core.queue + [NewItem(w.core, r, now)], nextItem := w.core.nextItem + 1)
    ensures var v := w.(core := core, clock := now); Timed(g, w.edges) && Flying(v, g)
  {
    var v := w.(core := core, clock := now);
    assert forall k :: 2 <= k <= |w.edges| ==> PressBase(g, w.edges, k) == PressBase(f, w.edges, k);
    AroundMeans(w, f.key);
    assert Unread(v) == Unread(w);
    hide Around, Either;
  }

  lemma AroundMeans(w: World, key: Key)
    requires key !in Around(w)
    ensures forall i :: 0 <= i < |w.core.queue| ==> w.core.queue[i].key != key
    ensures key !in WriterKeys(w.writer)
    ensures forall i :: 0 <= i < |Unread(w)| ==> Unread(w)[i].key != key
  {
    UnreadKeys(w);
    forall i | 0 <= i < |w.core.queue|
      ensures w.core.queue[i].key != key
    {
      assert w.core.queue[i] in w.core.queue;
    }
    forall i | 0 <= i < |Unread(w)|
      ensures Unread(w)[i].key != key
    {
      assert Unread(w)[i].key in EventKeys(Unread(w)) by {
        assert Unread(w)[i] in Unread(w);
      }
    }
  }

  /** When the scheduler asks for an edge, and what it asks for. */
  lemma AskedEdge(s: Sched, sight: Snapshot, now: nat)
    ensures var turn := PlanTick(s, sight, now);
      && (turn.AskPress? ==> s.work != [] && s.work[0].phase.AwaitPress? && now >= s.work[0].due && !turn.request.latest)
      && (turn.AskLift? ==> s.work != [] && (s.work[0].phase.Holding? || s.work[0].phase.AwaitRelease?)
                            && now >= s.work[0].due && !turn.request.latest)
  {
    hide HasButton, PlusButton, MinusButton;
  }

  lemma EdgeEnqueued(c: Core, r: Request, ready: bool, supported: bool, now: nat)
    requires !r.latest
    ensures var (d, result) := Enqueue(c, r, ready, supported, now);
      if result.Accepted? then d == c.(queue := c.queue + [NewItem(c, r, now)], nextItem := c.nextItem + 1) else d == c
  {
    hide NewItem, Expected;
  }

  /** The scheduler's question leaves the front command resting, or its edge flying. */
  lemma AskKeepsFront(w: World, turn: Turn, sight: Snapshot, ready: bool, supported: bool)
    requires FrontInv(w) && WorkKeys(w.sched, w.used) && CoreInv(w.core) && !w.torn
    requires turn == PlanTick(w.sched, sight, w.clock) && (turn.AskRelease? || turn.AskPress? || turn.AskLift?)
    ensures var (core, result) := Enqueue(w.core, turn.request, ready, supported, w.clock);
      !AnswerResets(turn, result) ==> FrontInv(w.(core := core, sched := TurnAnswered(w.sched, turn, result)))
  {
    hide Enqueue, PlanTick, EdgeItems, EdgeEvents, EdgeDue, Timed, Rested, CoreInv, ItemKeys, EventKeys, WriterKeys;
    var r := turn.request;
    var (core, result) := Enqueue(w.core, r, ready, supported, w.clock);
    AskedKey(w.sched, sight, w.clock);
    AskedEdge(w.sched, sight, w.clock);
    var v := w.(core := core, sched := TurnAnswered(w.sched, turn, result));
    if w.sched.work != [] && w.sched.work[0].binary {
      var f := w.sched.work[0];
      FrontKeyIsOwn(w.sched, w.used);
      AnsweredShape(w.sched, turn, result);
      EnqueuedKeys(w.core, r, ready, supported, w.clock);
      EnqueueKeepsFront(w.core, r, ready, supported, w.clock);
      if turn.AskRelease? {
        assert v.sched.work == w.sched.work;
        if Inflight(f.phase) {
          EdgeItemsEnqueued(f, w.edges, w.core, r, ready, supported, w.clock);
        }
        assert Around(v) <= Around(w) + {r.key};
      } else {
        EdgeEnqueued(w.core, r, ready, supported, w.clock);
        if result.Accepted? {
          EdgeTakesOff(w, f, v.sched.work[0], r, core, w.clock);
        } else {
          SameAround(w, v);
          StillRests(f, v.sched.work[0], w.edges);
        }
      }
    }
  }

  lemma StillRests(f: Click, g: Click, edges: seq<Edge>)
    requires Timed(f, edges) && Rested(f, edges) && g == f.(phase := g.phase)
    requires g.phase == f.phase || (!f.phase.AwaitPress? && !g.phase.AwaitPress?)
    ensures Timed(g, edges) && Rested(g, edges)
  {
    assert forall k :: 2 <= k <= |edges| ==> PressBase(g, edges, k) == PressBase(f, edges, k);
  }

  lemma TurnKeepsFront(w: World, seen: bool, physical: bv8, ready: bool, supported: bool)
    requires FrontInv(w) && Base(w) && ClickRun.Inv(w) && !w.torn && !w.reading
    ensures FrontInv(TurnStep(w, seen, physical, ready, supported))
  {
    hide Around, PlanTick, Enqueue, TurnAnswered, ResetSched, FrontInv, Flying, KeyInv;
    var sight := Sight(w, seen, physical);
    var turn := PlanTick(w.sched, sight, w.clock);
    ResetKeepsBase(w, None);
    ClickRun.InvFacts(w);
    ClickRun.WorkFacts(w);
    ClickMasks.LinkedCore(w.core, w.writer);
    if turn.FinishActive? {
      FinishShortens(w.sched, sight, w.clock);
      var v := TurnStep(w, seen, physical, ready, supported);
      SameAround(w, v);
      NewFront(w, v);
    } else if turn.AskRelease? || turn.AskPress? || turn.AskLift? {
      AskKeepsFront(w, turn, sight, ready, supported);
      AskKeepsBase(w, turn, sight, ready, supported);
      ResetHasNoFront(w.(core := Enqueue(w.core, turn.request, ready, supported, w.clock).0));
    }
  }

  lemma ResetHasNoFront(w: World)
    ensures FrontInv(Reset(w, None))
  {
  }

  lemma AcceptKeepsFront(w: World, click: Click)
    requires FrontInv(w) && Base(w) && !w.reading && FreshClick(click) && (click.binary ==> click.key !in w.used)
    ensures FrontInv(Step(w, AcceptClick(click)))
  {
    var v := Step(w, AcceptClick(click));
    SameAround(w, v);
    if w.sched.work != [] {
      assert v.sched.work == w.sched.work || v.sched.work[0] == w.sched.work[0];
    }
    hide Around, EdgeItems, EdgeEvents, EdgeDue;
  }

  lemma LayoutKeepsTiming(w: World, generation: nat)
    requires Base(w) && FrontInv(w) && Linked(w.core, w.writer)
    ensures var v := w.(core := Invalidate(w.core, generation), torn := true); Base(v) && FrontInv(v)
  {
    var v := w.(core := Invalidate(w.core, generation), torn := true);
    assert Around(v) <= Around(w);
    if w.sched.work != [] && Inflight(w.sched.work[0].phase) && w.sched.work[0].key in WriterKeys(w.writer)
       && w.sched.work[0].binary && !w.torn {
      CarriedIsEdge(w, w.sched.work[0]);
    }
    hide Around, Timed, Rested, EdgeDue, EdgeItems, EdgeEvents, WriterKeys, Linked;
  }

  /** A look that finds the layout unchanged. */
  lemma CalmTop(w: World, v: World)
    requires Base(w) && FrontInv(w)
    requires v == w.(sched := w.sched.(tracked := v.sched.tracked), torn := false)
    requires w.torn ==> w.sched.work == [] || w.sched.work[0].phase.AwaitPress?
    ensures Base(v) && FrontInv(v)
  {
    SameAround(w, v);
    assert Unread(v) == Unread(w);
    hide Around, Timed, Rested, EdgeItems, EdgeEvents, EdgeDue;
  }

  /** A look that resets. */
  lemma ResetTop(w: World)
    requires KeyInv(w)  && !w.reading && w.batch == []
    ensures Base(Reset(w, None).(torn := false)) && FrontInv(Reset(w, None).(torn := false))
  {
    ResetKeepsBase(w, None);
    var v := Reset(w, None);
    SameAround(v, v.(torn := false));
    ResetHasNoWork(w);
    hide Around, Reset;
  }

  /** Looking at the layout resets, or finds nothing in flight. */
  lemma TopKeepsTiming(w: World, ready: bool)
    requires Base(w) && FrontInv(w) && ClickRun.Inv(w) && !w.reading
    ensures Base(TopStep(w, ready)) && FrontInv(TopStep(w, ready))
  {
    ClickRun.TrackedIsCurrent(w);
    hide ClickRun.Inv, FrontInv, Reset, Around;
    var v := if w.sched.tracked == 0 && ready then w.(sched := w.sched.(tracked := w.core.generation)) else w;
    if v.sched.tracked != 0 && w.core.generation != v.sched.tracked {
      ResetTop(v);
    } else {
      CalmTop(w, v.(torn := false));
    }
    hide Base;
  }

  lemma ResetHasNoWork(w: World)
    ensures var v := Reset(w, None); v.sched.work == [] && v.edges == []
  {
  }

  /** Time passing, or only flags of reading changing, concerns nothing. */
  lemma LaterKeeps(w: World, wait: nat)
    requires Base(w) && FrontInv(w) && ClickRun.Inv(w)
    ensures Base(Later(w, wait)) && FrontInv(Later(w, wait)) && ClickRun.Inv(Later(w, wait))
  {
    ClickRun.SameInv(w, Later(w, wait));
    SameAround(w, Later(w, wait));
    assert Unread(Later(w, wait)) == Unread(w);
    hide Around, Timed, Rested, EdgeItems, EdgeEvents;
  }

  lemma ArrivalKeepsTiming(w: World, changed: bool)
    requires Base(w) && FrontInv(w)
    ensures var v := w.(core := Arrive(w.core, changed)); Base(v) && FrontInv(v)
  {
    var v := w.(core := Arrive(w.core, changed));
    SameAround(w, v);
    assert Unread(v) == Unread(w);
    hide Around, Timed, Rested, EdgeItems, EdgeEvents;
  }

  lemma ReadKeepsTiming(w: World)
    requires Base(w) && FrontInv(w) && !w.reading
    ensures var v := w.(batch := w.queue, queue := [], reading := true); Base(v) && FrontInv(v)
  {
    var v := w.(batch := w.queue, queue := [], reading := true);
    assert w.batch == [];
    assert Unread(v) == Unread(w);
    assert EventKeys([]) == {};
    assert Around(v) == Around(w);
    hide Around, Timed, Rested, EdgeItems, EdgeEvents;
  }

  lemma CheckKeepsTiming(w: World)
    requires Base(w) && FrontInv(w) && w.reading && w.batch == []
    ensures Base(Step(w, CheckOverflow)) && FrontInv(Step(w, CheckOverflow))
  {
    var v := w.(reading := false, overflow := false);
    SameAround(w, v);
    assert Unread(v) == Unread(w);
    hide Around, Timed, Rested, EdgeItems, EdgeEvents, Reset;
    assert Base(v) && FrontInv(v);
    ResetKeepsBase(v, None);
  }

  lemma FinishKeepsTiming(w: World, success: bool)
    requires Base(w) && FrontInv(w) && ClickRun.Inv(w) && w.writer.Some?
    ensures Base(FinishStep(w, success)) && FrontInv(FinishStep(w, success))
  {
    hide FrontInv, FinishStep, ClickRun.Inv, KeyInv, RestInv;
    ClickRun.InvFacts(w);
    FinishKeepsBase(w, success);
    if success && CarriesEdge(w) {
      FinishEdgeKeepsFront(w);
    } else {
      FinishElseKeepsFront(w, success);
    }
  }

  ghost predicate Everything(w: World) {
    ClickRun.Inv(w) && Base(w) && FrontInv(w)
  }

  lemma ReleaseKeepsTiming(w: World, key: Key)
    requires Base(w)
    ensures Base(Step(w, AcceptRelease(key))) || !Possible(w, AcceptRelease(key))
    ensures FrontInv(Step(w, AcceptRelease(key))) || !Possible(w, AcceptRelease(key))
  {
    var v := w.(used := w.used + {key});
    SameAround(w, v);
    hide Around, Reset;
    ResetKeepsBase(v, Some(key));
  }

  /** A transaction's item comes only when no command is queued, and concerns none. */
  lemma TransactionKeepsTiming(w: World, r: Request, ready: bool, supported: bool)
    requires Base(w) && w.sched.work == []
    ensures Base(TransactionStep(w, r, ready, supported)) && FrontInv(TransactionStep(w, r, ready, supported))
  {
    var v := TransactionStep(w, r, ready, supported);
    EnqueuedKeys(w.core, r, ready, supported, w.clock);
    hide Enqueue, ItemKeys, EventKeys, WriterKeys;
    assert Around(v) <= Around(w) + {r.key};
    hide Around;
  }

  lemma StepKeepsTiming(w: World, l: Label)
    requires Everything(w)
    ensures Everything(Step(w, l))
  {
    hide ClickRun.Inv, Base, FrontInv, TopStep, DeliverStep, MotionStep, TurnStep, TakeStep, FinishStep, Reset,
         TransactionStep, KeyInv, WorkKeys, CoreInv;
    ClickRun.StepKeepsInv(w, l);
    if Possible(w, l) {
      RestFacts(w);
      match l
      case Top(ready) => TopKeepsTiming(w, ready);
      case ReadEvents => ReadKeepsTiming(w);
      case DeliverOne => DeliverKeepsBase(w); DeliverKeepsFront(w);
      case CheckOverflow => CheckKeepsTiming(w);
      case ResetAll => ResetKeepsBase(w, None);
      case AcceptRelease(key) => ReleaseKeepsTiming(w, key);
      case AcceptClick(click) => AcceptKeepsBase(w, click); AcceptKeepsFront(w, click);
      case Motion(command, next, latest, ready, supported, wait) =>
        LaterKeeps(w, wait);
        RestFacts(Later(w, wait));
        MotionKeepsBase(Later(w, wait), command, next, latest, ready, supported);
        MotionKeepsFront(Later(w, wait), command, next, latest, ready, supported);
      case TransactionItem(request, ready, supported, wait) =>
        LaterKeeps(w, wait);
        TransactionKeepsTiming(Later(w, wait), request, ready, supported);
      case ClickTurn(seen, physical, ready, supported, wait) =>
        LaterKeeps(w, wait);
        TurnKeepsBase(Later(w, wait), seen, physical, ready, supported);
        TurnKeepsFront(Later(w, wait), seen, physical, ready, supported);
      case Arrival(changed) => ArrivalKeepsTiming(w, changed);
      case Layout(generation) => ClickRun.InvFacts(w); LayoutKeepsTiming(w, generation);
      case Take(grab, wait) =>
        LaterKeeps(w, wait);
        RestFacts(Later(w, wait));
        ClickRun.TornHasNone(w);
        TakeKeepsBase(Later(w, wait), grab);
        TakeKeepsFront(Later(w, wait), grab);
      case Finish(success, wait) =>
        LaterKeeps(w, wait);
        FinishKeepsTiming(Later(w, wait), success);
    }
  }

  lemma RestFacts(w: World)
    requires Everything(w)
    ensures KeyInv(w)  && WorkKeys(w.sched, w.used) && CoreInv(w.core) && (!w.reading ==> w.batch == [])
  {
    ClickMasks.LinkedCore(w.core, w.writer);
  }

  // ---------------------------------------------------------------- every run

  lemma {:induction false} RunKeepsTiming(w: World, labels: seq<Label>)
    requires Everything(w)
    ensures Everything(Run(w, labels))
    decreases |labels|
  {
    hide Everything, Step;
    if labels != [] {
      StepKeepsTiming(w, labels[0]);
      RunKeepsTiming(Step(w, labels[0]), labels[1..]);
    }
  }

  lemma ReachedTiming(generation: nat, labels: seq<Label>)
    requires generation >= 1
    ensures Everything(Reached(generation, labels))
  {
    BeginInv(generation);
    ClickRun.BeginInv(generation);
    RunKeepsTiming(ClickLoop.Begin(generation), labels);
  }

  /** The next event read completes the binary command in front. */
  predicate CompletesFront(w: World) {
    && w.reading && w.batch != [] && w.batch[0].success && w.sched.work != [] && w.sched.work[0].binary
    && Ended(w.sched.work[0].key, T.Completed) in Settled(w.sched, w.batch[0]).1
  }

  /** The distance a version asks for between two presses. */
  function PressStep(f: Click): nat {
    (f.interval + if f.version == T.VERSION2 then f.press else 0) * Executor.MICROSECOND
  }

  /** From one press to the next. */
  lemma OnePressOn(f: Click, edges: seq<Edge>, k: nat)
    requires Timed(f, edges) && !f.blocked && 0 < k && 2 * k < |edges|
    ensures edges[2 * k].at >= edges[2 * k - 2].at + PressStep(f)
  {
    assert edges[2 * k].press && !edges[2 * k - 1].press;
    assert edges[2 * k - 1].at >= edges[2 * k - 2].at + f.press * Executor.MICROSECOND;
  }

  lemma {:induction false} PressesSpread(f: Click, edges: seq<Edge>, k: nat)
    requires Timed(f, edges) && !f.blocked && 2 * k < |edges|
    ensures edges[2 * k].at >= edges[0].at + k * PressStep(f)
    decreases k
  {
    hide Timed, PressStep;
    if k > 0 {
      PressesSpread(f, edges, k - 1);
      OnePressOn(f, edges, k);
      assert k * PressStep(f) == (k - 1) * PressStep(f) + PressStep(f);
    }
  }

  /** What a completion of the front command says about it and its edges. */
  lemma CompletionShape(w: World)
    requires Everything(w) && CompletesFront(w)
    ensures var f := w.sched.work[0];
      && Settled(w.sched, w.batch[0]).1 == [Progressed(f.key, f.count), Ended(f.key, T.Completed)]
      && f.phase.ReleaseInflight? && !f.blocked && f.index + 1 == f.count
      && |w.edges| == 2 * f.count && Timed(f, w.edges)
  {
    ClickRun.ReadingIsWhole(w);
    ClickRun.WorkFacts(w);
    SettledMarks(w.sched, w.batch[0], w.used);
    EdgeArrives(w);
    hide Timed, EdgeDue, Around, FrontInv, Base, Settled, ClickRun.Inv;
  }

  lemma SettledMarks(s: Sched, ev: WriterEvent, used: set<Key>)
    requires WorkKeys(s, used) && ClickMasks.WorkInv(s.work) && s.work != [] && s.work[0].binary
    requires Ended(s.work[0].key, T.Completed) in Settled(s, ev).1
    ensures var f := s.work[0];
      && Settled(s, ev).1 == [Progressed(f.key, f.count), Ended(f.key, T.Completed)]
      && ev.key == f.key && f.phase.ReleaseInflight? && !f.blocked && f.index + 1 == f.count
  {
    hide HasButton;
  }

  /** Written edges of one command strictly alternate press and release, with rising index. */
  lemma EdgesAlternate(generation: nat, labels: seq<Label>, k: nat)
    requires generation >= 1
    ensures var w := Reached(generation, labels);
      w.sched.work != [] && w.sched.work[0].binary && k < |w.edges| ==>
        w.edges[k].press == (k % 2 == 0) && w.edges[k].index == k / 2
  {
    ReachedTiming(generation, labels);
    hide Reached, Around, ClickRun.Inv, Base, Flying, Rested;
  }

  /** A completed n-click command wrote n presses and n releases, at the distances its version asks for. */
  lemma CompletedClicksKeepTheirTiming(generation: nat, labels: seq<Label>)
    requires generation >= 1 && CompletesFront(Reached(generation, labels))
    ensures var w := Reached(generation, labels);
      var f := w.sched.work[0];
      && Settled(w.sched, w.batch[0]).1 == [Progressed(f.key, f.count), Ended(f.key, T.Completed)]
      && f.count >= 1 && |w.edges| == 2 * f.count
      && (forall k :: 0 <= k < 2 * f.count ==> w.edges[k].press == (k % 2 == 0) && w.edges[k].index == k / 2)
      && w.edges[2 * f.count - 1].at - w.edges[0].at
         >= (if f.version == T.VERSION2 then f.count * f.press else f.press) * Executor.MICROSECOND
            + (f.count - 1) * f.interval * Executor.MICROSECOND
  {
    ReachedTiming(generation, labels);
    var w := Reached(generation, labels);
    hide Reached, Everything, Settled;
    CompletionShape(w);
    hide CompletesFront;
    LastRelease(w.sched.work[0], w.edges);
  }

  lemma LastRelease(f: Click, edges: seq<Edge>)
    requires Timed(f, edges) && !f.blocked && f.count >= 1 && |edges| == 2 * f.count
    ensures edges[2 * f.count - 1].at - edges[0].at
            >= (if f.version == T.VERSION2 then f.count * f.press else f.press) * Executor.MICROSECOND
               + (f.count - 1) * f.interval * Executor.MICROSECOND
  {
    var n := f.count;
    PressesSpread(f, edges, n - 1);
    assert !edges[2 * n - 1].press;
    assert edges[2 * n - 1].at >= edges[2 * n - 2].at + f.press * Executor.MICROSECOND;
    hide Timed;
    SpanOf(n, f.interval, f.press);
  }

  lemma SpanOf(n: nat, interval: nat, press: nat)
    requires n >= 1
    ensures (n - 1) * (interval * Executor.MICROSECOND) == (n - 1) * interval * Executor.MICROSECOND
    ensures (n - 1) * ((interval + press) * Executor.MICROSECOND) + press * Executor.MICROSECOND
            == n * press * Executor.MICROSECOND + (n - 1) * interval * Executor.MICROSECOND
  {
    assert (n - 1) * (interval + press) == (n - 1) * interval + (n - 1) * press;
    assert n * press == (n - 1) * press + press;
    Regroup(n - 1, interval);
    Regroup(n - 1, interval + press);
  }

  lemma Regroup(n: nat, a: nat)
    ensures n * (a * Executor.MICROSECOND) == n * a * Executor.MICROSECOND
  {
  }
}
