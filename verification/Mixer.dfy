/**
 The synthetic side of one mouse endpoint: a bounded queue of overlay items, the masks the last
 successful USB write applied, and the item a report in the writer carries.
 */
module Mixer {
  import opened Common
  import opened HidReport
  import opened Splitting

  const MAX_ITEMS := 8
  const MAX_EVENTS := 32
  /** How long newest-correction movement stays usable: 25 ms. */
  const LATEST_LIFETIME := 25000000

  datatype Kind =
    | NoKind | Movement | Persistent | ClickPress | ClickRelease | ReleaseAll
    | TransactionOut | TransactionPress | TransactionRelease | TransactionReturn

  predicate IsTransaction(k: Kind) {
    k.TransactionOut? || k.TransactionPress? || k.TransactionRelease? || k.TransactionReturn?
  }

  predicate ClickKind(k: Kind) {
    k.ClickPress? || k.ClickRelease?
  }

  datatype Item = Item(
    id: nat, deadline: nat, barrier: nat, key: Key, index: nat, remaining: Command,
    persistent: bv8, scheduled: bv8, button: nat, guard: Option<nat>,
    kind: Kind, latest: bool, committed: bool)

  /** `inflight` names the item whose overlay the report in the writer carries. */
  datatype Core = Core(
    queue: seq<Item>, persistent: bv8, scheduled: bv8, inflight: Option<nat>, nextItem: nat,
    generation: nat, barrier: nat, activity: nat, superseded: nat)

  datatype Request = Request(
    command: Command, persistent: bv8, scheduled: bv8, kind: Kind, latest: bool, key: Key,
    index: nat, button: nat, expectedActivity: Option<nat>, expectedGeneration: nat)

  datatype EnqueueResult = Accepted | NotReady | Unsupported | QueueFull

  /** What a report carries of an item; every overlay applies the item's masks. */
  datatype Overlay = Overlay(
    id: nat, key: Key, index: nat, button: nat, kind: Kind,
    persistent: bv8, scheduled: bv8, applied: Command, blocked: bool)

  datatype WriterEvent = WriterEvent(
    key: Key, generation: nat, written: nat, index: nat, kind: Kind, button: nat,
    blocked: bool, final: bv8, success: bool, dx: int, dy: int, finished: bool)

  const Still: Command := Command(0, 0, 0, 0, 0)

  // ---------------------------------------------------------------- queue operations

  predicate Superseded(c: Core, tail: Item, persistent: bv8) {
    && c.inflight != Some(tail.id) && tail.latest && tail.kind.Movement?
    && tail.persistent == persistent && tail.barrier == c.barrier
  }

  /** Drops unsent newest-correction movement from the tail. */
  function Supersede(c: Core, persistent: bv8): Core
    decreases |c.queue|
  {
    if c.queue == [] || !Superseded(c, c.queue[|c.queue| - 1], persistent) then c
    else Supersede(c.(queue := c.queue[..|c.queue| - 1], superseded := c.superseded + 1), persistent)
  }

  function NewItem(c: Core, r: Request, now: nat): Item {
    Item(c.nextItem, if r.latest then now + LATEST_LIFETIME else 0, c.barrier, r.key, r.index,
         r.command.(buttons := Either(r.persistent, r.scheduled)), r.persistent, r.scheduled, r.button,
         r.expectedActivity, r.kind, r.latest, false)
  }

  predicate Expected(c: Core, r: Request) {
    && (r.expectedGeneration == 0 || r.expectedGeneration == c.generation)
    && (r.expectedActivity.None? || r.expectedActivity.value == c.activity)
  }

  /** `enqueue_report`: `ready` is a usable report template, `supported` a command the layout can split. */
  function Enqueue(c: Core, r: Request, ready: bool, supported: bool, now: nat): (Core, EnqueueResult) {
    if !ready || !Expected(c, r) then (c, NotReady)
    else if !supported then (c, Unsupported)
    else Insert(c, r, now)
  }

  function Insert(c: Core, r: Request, now: nat): (Core, EnqueueResult) {
    var d := if r.latest then Supersede(c, r.persistent) else c;
    if |d.queue| >= MAX_ITEMS then (d, QueueFull)
    else (d.(queue := d.queue + [NewItem(d, r, now)], nextItem := d.nextItem + 1), Accepted)
  }

  predicate NeedsButtons(c: Core, item: Item) {
    && !item.committed
    && (item.persistent != c.persistent || item.scheduled != c.scheduled
        || item.kind.ReleaseAll? || IsTransaction(item.kind))
  }

  function Aged(item: Item, now: nat): Item {
    if item.deadline != 0 && now > item.deadline
    then item.(remaining := Command(0, 0, 0, 0, item.remaining.buttons)) else item
  }

  /** `expire_front`: zeroes overdue movement and drops front items with nothing left to do. */
  function Expire(c: Core, now: nat): Core
    decreases |c.queue|
  {
    if c.queue == [] then c
    else
      var front := Aged(c.queue[0], now);
      if NoMotion(front.remaining) && !NeedsButtons(c, front) then Expire(c.(queue := c.queue[1..]), now)
      else c.(queue := c.queue[0 := front])
  }

  predicate Finished(item: Item) {
    NoMotion(item.remaining) && item.committed
  }

  function RemoveFinished(queue: seq<Item>): seq<Item> {
    if queue != [] && Finished(queue[0]) then RemoveFinished(queue[1..]) else queue
  }

  /** The front item may be put on a report only while its guard still matches the physical activity. */
  predicate FrontUsable(c: Core) {
    c.queue != [] && (c.queue[0].guard.None? || c.queue[0].guard.value == c.activity)
  }

  /** Motion that a report may carry for an item: on every axis something between nothing and all of it. */
  predicate MayCarry(item: Item, applied: Command) {
    && Towards(applied.x, item.remaining.x) && Towards(applied.y, item.remaining.y)
    && Towards(applied.wheel, item.remaining.wheel) && Towards(applied.pan, item.remaining.pan)
  }

  /** Carrying `applied` leaves the item done, or short of a report more, or committed where it was not. */
  predicate Shortens(p: Profile, item: Item, applied: Command) {
    var rest := Minus(item.remaining, applied);
    || NoMotion(rest) || Longest(p, rest) < Longest(p, item.remaining)
    || (rest == item.remaining && !item.committed)
  }

  function OverlayOf(item: Item, applied: Command, blocked: bool): Overlay {
    Overlay(item.id, item.key, item.index, item.button, item.kind,
            item.persistent, item.scheduled, applied, blocked)
  }

  /** The writer holds a report that carries the front item. */
  function MarkInflight(c: Core): Core
    requires c.queue != []
  {
    c.(inflight := Some(c.queue[0].id))
  }

  predicate CarriesFront(c: Core, generation: nat, o: Overlay) {
    && generation == c.generation && c.inflight == Some(o.id)
    && c.queue != [] && c.queue[0].id == o.id
  }

  function Committed(item: Item, o: Overlay): Item {
    item.(committed := true, remaining := Minus(item.remaining, o.applied))
  }

  /** The effect of a completion on queue and masks; the flag says that it finished the item. */
  function Complete(c: Core, generation: nat, overlay: Option<Overlay>, success: bool): (Core, bool) {
    if overlay.None? || !CarriesFront(c, generation, overlay.value) then (c, false)
    else if !success then (c.(inflight := None), false)
    else
      var o := overlay.value;
      var item := Committed(c.queue[0], o);
      (c.(queue := RemoveFinished([item] + c.queue[1..]), inflight := None,
          persistent := o.persistent, scheduled := o.scheduled),
       Finished(item))
  }

  function KindOf(overlay: Option<Overlay>): Kind {
    if overlay.Some? then overlay.value.kind else NoKind
  }

  /** Edge, release and transaction reports always tell the server; other reports only when they fail. */
  predicate Reported(kind: Kind, success: bool) {
    kind.ClickPress? || kind.ClickRelease? || kind.ReleaseAll? || IsTransaction(kind) || !success
  }

  function EventOf(generation: nat, overlay: Option<Overlay>, final: bv8, success: bool,
                   finished: bool, written: nat): WriterEvent {
    match overlay
    case None => WriterEvent(NoKey, generation, written, 0, NoKind, 0, false, final, success, 0, 0, finished)
    case Some(o) => WriterEvent(o.key, generation, written, o.index, o.kind, o.button, o.blocked, final,
                                success, o.applied.x, o.applied.y, finished)
  }

  /** The report in the writer: its generation, the overlay it carries, and its button byte. */
  datatype Carried = Carried(generation: nat, overlay: Option<Overlay>, final: bv8)

  /** What the writer takes: nothing, a report without synthetic content, or one that carries the front item. */
  datatype Grab = Skip | Plain(generation: nat, unmerged: bv8) | Carry(applied: Command, blocked: bool, final: bv8)

  /** The synthetic side of a take: expiry, and the front item marked when the report carries it. */
  function Taken(core: Core, grab: Grab, now: nat): (Core, Option<Carried>) {
    var c := Expire(core, now);
    match grab
    case Skip => (c, None)
    case Plain(generation, final) => (c, Some(Carried(generation, None, final)))
    case Carry(applied, blocked, final) =>
      if FrontUsable(c) && MayCarry(c.queue[0], applied)
      then (MarkInflight(c), Some(Carried(c.generation, Some(OverlayOf(c.queue[0], applied, blocked)), final)))
      else (c, None)
  }

  /** A completion's event joins the bounded event queue, or sets the overflow flag. */
  function Posted(queue: seq<WriterEvent>, overflow: bool, generation: nat, r: Carried, success: bool,
                  finished: bool, now: nat): (seq<WriterEvent>, bool) {
    if r.generation != generation || !Reported(KindOf(r.overlay), success) then (queue, overflow)
    else if |queue| >= MAX_EVENTS then (queue, true)
    else (queue + [EventOf(r.generation, r.overlay, r.final, success, finished, now)], overflow)
  }

  function Clear(c: Core): Core {
    c.(queue := [], inflight := None)
  }

  function Invalidate(c: Core, generation: nat): Core {
    c.(queue := [], persistent := 0, scheduled := 0, inflight := None, generation := generation)
  }

  function Arrive(c: Core, changed: bool): Core {
    c.(barrier := c.barrier + 1, activity := if changed then c.activity + 1 else c.activity)
  }

  // ---------------------------------------------------------------- what every operation keeps

  ghost predicate Ordered(queue: seq<Item>) {
    forall i, j :: 0 <= i < j < |queue| ==> queue[i].id < queue[j].id
  }

  /** Ids rise along the bounded queue, an overlay in the writer belongs to the front item,
      and an item counts as committed only at the front while its masks are the applied ones. */
  ghost predicate CoreInv(c: Core) {
    && Ordered(c.queue) && |c.queue| <= MAX_ITEMS
    && (forall i :: 0 <= i < |c.queue| ==> 1 <= c.queue[i].id < c.nextItem)
    && (c.inflight.Some? ==> c.queue != [] && c.queue[0].id == c.inflight.value)
    && (forall i :: 0 <= i < |c.queue| && c.queue[i].committed ==>
          i == 0 && c.queue[i].persistent == c.persistent && c.queue[i].scheduled == c.scheduled
          && !NoMotion(c.queue[i].remaining))
    && c.nextItem >= 1
  }

  lemma {:induction false} SupersedeShape(c: Core, persistent: bv8)
    ensures var d := Supersede(c, persistent);
      && |d.queue| <= |c.queue| && d.queue == c.queue[..|d.queue|]
      && d == c.(queue := d.queue, superseded := d.superseded)
      && (forall i :: |d.queue| <= i < |c.queue| ==> Superseded(c, c.queue[i], persistent))
    decreases |c.queue|
  {
    if c.queue != [] && Superseded(c, c.queue[|c.queue| - 1], persistent) {
      SupersedeShape(c.(queue := c.queue[..|c.queue| - 1], superseded := c.superseded + 1), persistent);
    }
  }

  lemma EnqueueKeepsInv(c: Core, r: Request, ready: bool, supported: bool, now: nat)
    requires CoreInv(c)
    ensures CoreInv(Enqueue(c, r, ready, supported, now).0)
  {
    hide Supersede, NewItem, Expected;
    SupersedeShape(c, r.persistent);
    var d := if r.latest then Supersede(c, r.persistent) else c;
    assert CoreInv(d);
    AppendKeepsInv(d, NewItem(d, r, now));
    NewItemIsFresh(d, r, now);
  }

  lemma NewItemIsFresh(c: Core, r: Request, now: nat)
    ensures NewItem(c, r, now).id == c.nextItem && !NewItem(c, r, now).committed
  {
  }

  lemma AppendKeepsInv(c: Core, item: Item)
    requires CoreInv(c)
    ensures |c.queue| < MAX_ITEMS && item.id == c.nextItem && !item.committed ==>
      CoreInv(c.(queue := c.queue + [item], nextItem := c.nextItem + 1))
  {
  }

  /** Expiry only drops a prefix of the queue and at most zeroes the new front's overdue motion. */
  lemma {:induction false} ExpireShape(c: Core, now: nat)
    ensures var d := Expire(c, now);
      && |d.queue| <= |c.queue|
      && d == c.(queue := d.queue)
      && (d.queue != [] ==>
            d.queue == c.queue[|c.queue| - |d.queue|..][0 := Aged(c.queue[|c.queue| - |d.queue|], now)])
      && (forall i :: 0 <= i < |c.queue| - |d.queue| ==>
            NoMotion(Aged(c.queue[i], now).remaining) && !NeedsButtons(c, c.queue[i]))
      && (d.queue != [] ==> !(NoMotion(d.queue[0].remaining) && !NeedsButtons(d, d.queue[0])))
    decreases |c.queue|
  {
    if c.queue != [] {
      var front := Aged(c.queue[0], now);
      if NoMotion(front.remaining) && !NeedsButtons(c, front) {
        ExpireShape(c.(queue := c.queue[1..]), now);
      }
    }
  }

  lemma ExpireKeepsInv(c: Core, now: nat)
    requires CoreInv(c) && c.inflight.None?
    ensures CoreInv(Expire(c, now))
  {
    ExpireShape(c, now);
    hide Expire;
  }

  /** What a completion does: nothing, or it settles the front item it carries. */
  lemma CompleteShape(c: Core, generation: nat, overlay: Option<Overlay>, success: bool)
    requires CoreInv(c)
    ensures var (d, finished) := Complete(c, generation, overlay, success);
      && d == c.(queue := d.queue, inflight := d.inflight, persistent := d.persistent, scheduled := d.scheduled)
      && (if overlay.Some? && CarriesFront(c, generation, overlay.value) && success then
            var item := Committed(c.queue[0], overlay.value);
            && d.inflight.None? && finished == Finished(item)
            && d.queue == (if finished then c.queue[1..] else [item] + c.queue[1..])
          else
            && d.queue == c.queue && !finished
            && d.persistent == c.persistent && d.scheduled == c.scheduled
            && (overlay.Some? && CarriesFront(c, generation, overlay.value) ==> d.inflight.None?)
            && (overlay.None? || !CarriesFront(c, generation, overlay.value) ==> d == c))
  {
    if overlay.Some? && CarriesFront(c, generation, overlay.value) && success {
      RemoveOneFinished(Committed(c.queue[0], overlay.value), c.queue[1..]);
    }
  }

  lemma RemoveOneFinished(item: Item, rest: seq<Item>)
    requires forall i :: 0 <= i < |rest| ==> !rest[i].committed
    ensures RemoveFinished([item] + rest) == if Finished(item) then rest else [item] + rest
  {
    assert ([item] + rest)[1..] == rest;
  }

  lemma CompleteKeepsInv(c: Core, generation: nat, overlay: Option<Overlay>, success: bool)
    requires CoreInv(c)
    requires overlay.Some? && CarriesFront(c, generation, overlay.value) ==>
      overlay.value.persistent == c.queue[0].persistent && overlay.value.scheduled == c.queue[0].scheduled
    ensures CoreInv(Complete(c, generation, overlay, success).0)
  {
    CompleteShape(c, generation, overlay, success);
    hide Complete;
  }

  // ---------------------------------------------------------------- queue and writer together

  /** While an item is in flight the writer carries it, with the masks the item asks for. */
  ghost predicate Linked(c: Core, writer: Option<Carried>) {
    && CoreInv(c)
    && (c.inflight.Some? ==>
          && writer.Some? && writer.value.overlay.Some?
          && var o := writer.value.overlay.value;
             && CarriesFront(c, writer.value.generation, o) && MayCarry(c.queue[0], o.applied)
             && o == OverlayOf(c.queue[0], o.applied, o.blocked))
  }

  /** An enqueue keeps a prefix of the queue, at least the item in flight. */
  lemma EnqueueKeepsLink(c: Core, writer: Option<Carried>, r: Request, ready: bool, supported: bool, now: nat)
    requires Linked(c, writer)
    ensures Linked(Enqueue(c, r, ready, supported, now).0, writer)
  {
    EnqueueKeepsInv(c, r, ready, supported, now);
    EnqueueKeepsFront(c, r, ready, supported, now);
    hide Enqueue, CoreInv, MayCarry;
  }

  lemma EnqueueKeepsFront(c: Core, r: Request, ready: bool, supported: bool, now: nat)
    requires CoreInv(c)
    ensures var d := Enqueue(c, r, ready, supported, now).0;
      && d.generation == c.generation && d.inflight == c.inflight
      && d.persistent == c.persistent && d.scheduled == c.scheduled
      && (c.inflight.Some? ==> d.queue != [] && c.queue != [] && d.queue[0] == c.queue[0])
  {
    hide Supersede, Either, Expected;
    SupersedeShape(c, r.persistent);
    var d := if r.latest then Supersede(c, r.persistent) else c;
    assert c.inflight.Some? ==> |d.queue| > 0;
  }

  lemma MarkKeepsInv(c: Core)
    requires CoreInv(c) && c.queue != []
    ensures CoreInv(MarkInflight(c))
  {
  }

  lemma TakeKeepsLink(c: Core, writer: Option<Carried>, grab: Grab, now: nat)
    requires Linked(c, writer) && c.inflight.None?
    ensures var (d, report) := Taken(c, grab, now); Linked(d, if report.Some? then report else writer)
  {
    ExpireKeepsInv(c, now);
    ExpireShape(c, now);
    var e := Expire(c, now);
    if e.queue != [] {
      MarkKeepsInv(e);
    }
    hide Expire, CoreInv, MayCarry;
  }

  lemma FinishKeepsLink(c: Core, r: Carried, success: bool)
    requires Linked(c, Some(r))
    ensures var d := Complete(c, r.generation, r.overlay, success).0; Linked(d, None) && d.inflight.None?
  {
    CompleteShape(c, r.generation, r.overlay, success);
    CompleteKeepsInv(c, r.generation, r.overlay, success);
    hide Complete, CoreInv, MayCarry;
  }

  lemma ClearKeepsLink(c: Core, writer: Option<Carried>)
    requires Linked(c, writer)
    ensures Linked(Clear(c), writer)
  {
  }

  lemma InvalidateKeepsLink(c: Core, writer: Option<Carried>, generation: nat)
    requires Linked(c, writer)
    ensures Linked(Invalidate(c, generation), writer)
  {
  }

  lemma ArriveKeepsLink(c: Core, writer: Option<Carried>, changed: bool)
    requires Linked(c, writer)
    ensures Linked(Arrive(c, changed), writer)
  {
  }
}
