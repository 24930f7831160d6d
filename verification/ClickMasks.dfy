/**
 Click edges are never lost to expiry: along the queue every click edge asks for a scheduled mask that differs from
 the one before it, and the last mask asked for is the scheduler's own.
 */
module ClickMasks {
  import opened Common
  import opened Splitting
  import opened MoveTypes
  import opened Mixer
  import opened ClickScheduler
  import T = ClickTypes

  // ---------------------------------------------------------------- the scheduler

  /** The front command's button is down, or on its way down. */
  predicate Down(p: Phase) {
    p.PressInflight? || p.Holding? || p.AwaitRelease?
  }

  predicate WorkInv(work: seq<Click>) {
    && |work| <= MAX_CLICK_COMMANDS
    && (forall i :: 0 <= i < |work| ==> 1 <= work[i].button <= 8 && work[i].index < work[i].count)
    && (forall i :: 1 <= i < |work| ==> work[i].phase.AwaitPress? && work[i].index == 0 && !work[i].blocked)
  }

  /** The scheduled mask is the front command's button while that is down, and empty otherwise. */
  predicate SchedInv(s: Sched) {
    && WorkInv(s.work)
    && s.scheduled == (if s.work != [] && Down(s.work[0].phase) then ButtonBit(s.work[0].button) else 0)
    && (s.releasePending || s.tracked == 0 ==> s.work == [] || s.work[0].phase.AwaitPress?)
    && (s.releasePending ==> s.tracked != 0)
    && (s.releaseInflight ==> s.releasePending)
  }

  lemma ButtonMasks(button: int)
    requires 1 <= button <= 8
    ensures ButtonBit(button) != 0 && PlusButton(0, button) == ButtonBit(button)
    ensures MinusButton(ButtonBit(button), button) == 0
  {
  }

  lemma FrontKeepsWork(work: seq<Click>, front: Click)
    requires WorkInv(work) && work != []
    requires front.button == work[0].button && front.index < front.count
    ensures WorkInv([front] + work[1..])
  {
  }

  lemma TailKeepsWork(work: seq<Click>)
    requires WorkInv(work) && work != []
    ensures WorkInv(work[1..]) && (work[1..] != [] ==> work[1..][0].phase.AwaitPress?)
  {
  }

  lemma SettledKeepsSched(s: Sched, ev: WriterEvent)
    requires SchedInv(s)
    ensures SchedInv(Settled(s, ev).0) && Settled(s, ev).0.scheduled == s.scheduled
    ensures Settled(s, ev).0.tracked == s.tracked
  {
    hide WorkInv, ButtonBit, HasButton;
    if s.work != [] {
      TailKeepsWork(s.work);
      IndexInRange(s.work);
      FrontKeepsWork(s.work, Pressed(s.work[0], ev));
      if s.work[0].index + 1 < s.work[0].count {
        FrontKeepsWork(s.work, Rearmed(s.work[0], ev));
      }
    }
  }

  lemma IndexInRange(work: seq<Click>)
    requires WorkInv(work) && work != []
    ensures work[0].index < work[0].count && 1 <= work[0].button <= 8
  {
  }

  lemma FinishKeepsSched(s: Sched, status: T.Status)
    requires SchedInv(s) && s.work != []
    ensures SchedInv(FinishFront(s, status).0)
  {
    hide WorkInv, ButtonBit;
    TailKeepsWork(s.work);
  }

  /** The turn's answer; the masks an edge asks for always change the scheduled mask. */
  lemma TurnKeepsSched(s: Sched, snapshot: Snapshot, now: nat, result: EnqueueResult)
    requires SchedInv(s) && (s.work == [] || s.tracked != 0 || snapshot.generation != 0)
    ensures var turn := PlanTick(s, snapshot, now);
      && SchedInv(TurnAnswered(s, turn, result))
      && (turn.AskPress? || turn.AskLift? ==> turn.request.scheduled != s.scheduled)
      && (turn.AskRelease? ==> s.scheduled == 0 && s.releasePending && !s.releaseInflight)
      && (turn.AskPress? || turn.AskLift? || turn.FinishActive? || turn.NeedReset? ==> !s.releasePending && s.work != [])
  {
    hide WorkInv;
    if s.work != [] {
      IndexInRange(s.work);
      ButtonMasks(s.work[0].button);
      FrontKeepsWork(s.work, s.work[0].(phase := PressInflight));
      FrontKeepsWork(s.work, s.work[0].(phase := ReleaseInflight));
      FrontKeepsWork(s.work, s.work[0].(phase := AwaitRelease));
    }
    hide ButtonBit, PlusButton, MinusButton, HasButton;
  }

  // ---------------------------------------------------------------- the chain of masks

  /** The scheduled mask in force before item `i`. */
  function Before(c: Core, i: nat): bv8
    requires i <= |c.queue|
  {
    if i == 0 then c.scheduled else c.queue[i - 1].scheduled
  }

  /** No release of everything waits at or behind place `i`. */
  predicate PastReleases(queue: seq<Item>, i: nat) {
    forall j :: i <= j < |queue| ==> !queue[j].kind.ReleaseAll?
  }

  /**
   Clicks change the mask, movement keeps it, a release empties it, and a transaction asks for what it likes; `last` is
   the mask at the end.
   */
  ghost predicate Chain(c: Core, last: bv8) {
    && (forall i :: 0 <= i < |c.queue| ==> Link(c, i))
    && Before(c, |c.queue|) == last
  }

  predicate Link(c: Core, i: nat)
    requires i < |c.queue|
  {
    var item := c.queue[i];
    if ClickKind(item.kind) then
      item.scheduled != Before(c, i) && NoMotion(item.remaining) && PastReleases(c.queue, i)
    else if item.kind.ReleaseAll? then item.scheduled == 0
    else if IsTransaction(item.kind) then true
    else PastReleases(c.queue, i) ==> item.scheduled == Before(c, i)
  }

  /** While a release is owed but not queued, only movement with an empty scheduled mask may be queued. */
  ghost predicate Owing(c: Core) {
    forall i :: 0 <= i < |c.queue| ==>
      !ClickKind(c.queue[i].kind) && !c.queue[i].kind.ReleaseAll? && c.queue[i].scheduled == 0
  }

  /** Click edges carry no motion. */
  predicate StillInv(queue: seq<Item>) {
    forall i :: 0 <= i < |queue| && ClickKind(queue[i].kind) ==> NoMotion(queue[i].remaining)
  }

  // ---------------------------------------------------------------- expiry

  /** Whatever expires asked for the mask already applied. */
  lemma ExpiredAsksNothing(c: Core, now: nat, i: nat)
    requires CoreInv(c) && i < |c.queue| - |Expire(c, now).queue|
    ensures c.queue[i].scheduled == c.scheduled
  {
    ExpireShape(c, now);
    hide Expire;
    assert !NeedsButtons(c, c.queue[i]);
  }

  /** No click edge expires. */
  lemma ClicksStay(c: Core, last: bv8, now: nat, i: nat)
    requires CoreInv(c) && Chain(c, last) && i < |c.queue| - |Expire(c, now).queue|
    ensures !ClickKind(c.queue[i].kind)
  {
    ExpireShape(c, now);
    assert Link(c, i);
    ExpiredAsksNothing(c, now, i);
    if i > 0 {
      ExpiredAsksNothing(c, now, i - 1);
    }
    hide Expire;
  }

  lemma AgedKeepsLink(item: Item, now: nat)
    ensures var a := Aged(item, now);
      && a.kind == item.kind && a.scheduled == item.scheduled && (NoMotion(item.remaining) ==> NoMotion(a.remaining))
      && a.id == item.id && a.key == item.key && a.index == item.index && a.button == item.button
      && a.persistent == item.persistent
  {
  }

  lemma ChainExpired(c: Core, last: bv8, now: nat)
    requires CoreInv(c) && Chain(c, last)
    ensures Chain(Expire(c, now), last)
  {
    ExpireShape(c, now);
    var d := Expire(c, now);
    var k := |c.queue| - |d.queue|;
    if k > 0 {
      ExpiredAsksNothing(c, now, k - 1);
    }
    assert Before(c, k) == d.scheduled;
    hide Expire;
    forall i | 0 <= i < |d.queue|
      ensures Link(d, i) && d.queue[i].scheduled == c.queue[k + i].scheduled
    {
      assert Link(c, k + i);
      AgedKeepsLink(c.queue[k + i], now);
      if i > 0 {
        AgedKeepsLink(c.queue[k + i - 1], now);
      }
      SuffixReleases(c.queue, d.queue, k, i, now);
      hide Aged, NoMotion;
    }
  }

  lemma SuffixReleases(a: seq<Item>, b: seq<Item>, k: nat, i: nat, now: nat)
    requires |a| == k + |b| && i < |b|
    requires b == a[k..][0 := Aged(a[k], now)]
    ensures PastReleases(b, i) <==> PastReleases(a, k + i)
  {
    AgedKeepsLink(a[k], now);
    hide Aged;
    forall j | 0 <= j < |b|
      ensures b[j].kind == a[k + j].kind
    {
    }
    if PastReleases(b, i) {
      forall j | k + i <= j < |a|
        ensures !a[j].kind.ReleaseAll?
      {
        assert b[j - k].kind == a[j].kind;
      }
    }
  }

  lemma OwingExpired(c: Core, now: nat)
    requires Owing(c)
    ensures Owing(Expire(c, now))
  {
    ExpireShape(c, now);
    var d := Expire(c, now);
    hide Expire;
    var k := |c.queue| - |d.queue|;
    forall i | 0 <= i < |d.queue|
      ensures d.queue[i].kind == c.queue[k + i].kind && d.queue[i].scheduled == c.queue[k + i].scheduled
    {
      AgedKeepsLink(c.queue[k + i], now);
    }
  }

  // ---------------------------------------------------------------- enqueues

  lemma PrefixReleases(queue: seq<Item>, n: nat, i: nat)
    requires i < n <= |queue| && forall j :: n <= j < |queue| ==> !queue[j].kind.ReleaseAll?
    ensures PastReleases(queue[..n], i) <==> PastReleases(queue, i)
  {
    if PastReleases(queue[..n], i) {
      forall j | i <= j < |queue|
        ensures !queue[j].kind.ReleaseAll?
      {
        if j < n {
          assert queue[..n][j] == queue[j];
        }
      }
    }
  }

  /** Taking movement off the tail keeps the chain and its end. */
  lemma ChainWithoutTail(c: Core, last: bv8)
    requires Chain(c, last) && c.queue != []
    requires c.queue[|c.queue| - 1].kind.Movement?
    ensures Chain(c.(queue := c.queue[..|c.queue| - 1]), last)
  {
    var n := |c.queue| - 1;
    var d := c.(queue := c.queue[..n]);
    assert Link(c, n);
    assert PastReleases(c.queue, n);
    forall i | 0 <= i < n
      ensures Link(d, i)
    {
      assert Link(c, i);
      PrefixReleases(c.queue, n, i);
    }
  }

  lemma {:induction false} ChainSuperseded(c: Core, last: bv8, persistent: bv8)
    requires Chain(c, last)
    ensures Chain(Supersede(c, persistent), last)
    decreases |c.queue|
  {
    if c.queue != [] && Superseded(c, c.queue[|c.queue| - 1], persistent) {
      ChainWithoutTail(c, last);
      var d := c.(queue := c.queue[..|c.queue| - 1]);
      var e := d.(superseded := c.superseded + 1);
      SameQueueChain(d, e, last);
      ChainSuperseded(e, last, persistent);
    }
  }

  lemma SameQueueChain(c: Core, d: Core, last: bv8)
    requires Chain(c, last) && d.queue == c.queue && d.scheduled == c.scheduled
    ensures Chain(d, last)
  {
    forall i | 0 <= i < |d.queue|
      ensures Link(d, i)
    {
      assert Link(c, i);
    }
  }

  /** A new item at the end of the chain. */
  lemma ChainAppended(c: Core, item: Item, last: bv8)
    requires Chain(c, last)
    requires ClickKind(item.kind) ==> item.scheduled != last && NoMotion(item.remaining)
    requires !ClickKind(item.kind) ==>
      !item.kind.ReleaseAll? && (item.scheduled == last || IsTransaction(item.kind))
    ensures Chain(c.(queue := c.queue + [item], nextItem := c.nextItem + 1), item.scheduled)
  {
    var d := c.(queue := c.queue + [item], nextItem := c.nextItem + 1);
    var n := |c.queue|;
    assert d.queue[n] == item && Before(d, n) == last;
    forall i | 0 <= i < n
      ensures Link(d, i)
    {
      assert Link(c, i);
      assert d.queue[..n] == c.queue;
      PrefixReleases(d.queue, n, i);
    }
    assert Link(d, n);
  }

  /** A movement enqueue keeps the chain and its end. */
  lemma ChainEnqueuedMotion(c: Core, r: Request, ready: bool, supported: bool, now: nat, last: bv8)
    requires Chain(c, last) && (r.kind.Movement? || r.kind.Persistent?) && r.scheduled == last
    ensures Chain(Enqueue(c, r, ready, supported, now).0, last)
  {
    hide Chain, Supersede, Either, Expected;
    ChainSuperseded(c, last, r.persistent);
    var d := if r.latest then Supersede(c, r.persistent) else c;
    ChainAppended(d, NewItem(d, r, now), last);
  }

  /** A click enqueue extends the chain by the mask it asks for. */
  lemma ChainEnqueuedClick(c: Core, r: Request, ready: bool, supported: bool, now: nat, last: bv8)
    requires Chain(c, last) && ClickKind(r.kind) && !r.latest && r.scheduled != last && NoMotion(r.command)
    ensures var (d, result) := Enqueue(c, r, ready, supported, now);
      Chain(d, if result.Accepted? then r.scheduled else last)
  {
    hide Chain, Either, Expected;
    ChainAppended(c, NewItem(c, r, now), last);
  }

  /** A transaction's item puts its own mask at the end of the chain. */
  lemma ChainEnqueuedTransaction(c: Core, r: Request, ready: bool, supported: bool, now: nat, last: bv8)
    requires Chain(c, last) && IsTransaction(r.kind) && !r.latest
    ensures var (d, result) := Enqueue(c, r, ready, supported, now);
      Chain(d, if result.Accepted? then r.scheduled else last)
  {
    hide Chain, Either, Expected;
    ChainAppended(c, NewItem(c, r, now), last);
  }

  lemma OwingEnqueuedMotion(c: Core, r: Request, ready: bool, supported: bool, now: nat)
    requires Owing(c) && (r.kind.Movement? || r.kind.Persistent?) && r.scheduled == 0
    ensures Owing(Enqueue(c, r, ready, supported, now).0)
  {
    hide Supersede, Either, Expected;
    SupersedeShape(c, r.persistent);
  }

  /** The owed release ends whatever mask was in force. */
  lemma ReleaseEnqueued(c: Core, r: Request, ready: bool, supported: bool, now: nat)
    requires Owing(c) && r.kind.ReleaseAll? && r.scheduled == 0 && !r.latest
    ensures var (d, result) := Enqueue(c, r, ready, supported, now);
      if result.Accepted? then Chain(d, 0) else d == c
  {
    hide Either, Expected;
    var (d, result) := Enqueue(c, r, ready, supported, now);
    if result.Accepted? {
      var n := |c.queue|;
      assert d.queue[n].kind.ReleaseAll?;
      forall i | 0 <= i <= n
        ensures Link(d, i)
      {
        assert i < n ==> d.queue[i] == c.queue[i];
      }
    }
  }

  // ---------------------------------------------------------------- completions

  lemma StillFinishes(item: Item, o: Overlay)
    requires NoMotion(item.remaining) && MayCarry(item, o.applied)
    ensures Finished(Committed(item, o))
  {
  }

  /** A completion that settles the front item puts its mask in force. */
  lemma ChainCompleted(c: Core, r: Carried, success: bool, last: bv8)
    requires Linked(c, Some(r)) && Chain(c, last)
    ensures Chain(Complete(c, r.generation, r.overlay, success).0, last)
  {
    CompleteShape(c, r.generation, r.overlay, success);
    var (d, finished) := Complete(c, r.generation, r.overlay, success);
    hide Complete;
    if r.overlay.Some? && CarriesFront(c, r.generation, r.overlay.value) && success {
      var o := r.overlay.value;
      assert Link(c, 0);
      if ClickKind(c.queue[0].kind) {
        StillFinishes(c.queue[0], o);
      }
      assert d.scheduled == c.queue[0].scheduled;
      SettledFront(c, d, Committed(c.queue[0], o), finished, last);
    } else {
      SameQueueChain(c, d, last);
    }
  }

  lemma SettledFront(c: Core, d: Core, item: Item, finished: bool, last: bv8)
    requires Chain(c, last) && c.queue != [] && d.scheduled == c.queue[0].scheduled
    requires item.kind == c.queue[0].kind && item.scheduled == c.queue[0].scheduled
    requires d.queue == (if finished then c.queue[1..] else [item] + c.queue[1..])
    requires !finished ==> !ClickKind(item.kind)
    ensures Chain(d, last)
  {
    var shift := if finished then 1 else 0;
    assert Before(c, |c.queue|) == last;
    forall i | 0 <= i < |d.queue|
      ensures Link(d, i)
    {
      assert Link(c, i + shift);
      assert PastReleases(d.queue, i) <==> PastReleases(c.queue, i + shift) by {
        ShiftedReleases(c.queue, d.queue, shift, i);
      }
    }
  }

  lemma ShiftedReleases(a: seq<Item>, b: seq<Item>, shift: nat, i: nat)
    requires |a| == |b| + shift && forall j :: 0 <= j < |b| ==> b[j].kind == a[j + shift].kind
    ensures PastReleases(b, i) <==> PastReleases(a, i + shift)
  {
    if PastReleases(b, i) {
      forall j | i + shift <= j < |a|
        ensures !a[j].kind.ReleaseAll?
      {
        assert b[j - shift].kind == a[j].kind;
      }
    }
  }

  lemma OwingCompleted(c: Core, r: Carried, success: bool)
    requires CoreInv(c) && Owing(c)
    ensures Owing(Complete(c, r.generation, r.overlay, success).0)
  {
    CompleteShape(c, r.generation, r.overlay, success);
    hide Complete, Finished;
  }

  // ---------------------------------------------------------------- edges carry no motion

  lemma EnqueueKeepsStill(c: Core, r: Request, ready: bool, supported: bool, now: nat)
    requires StillInv(c.queue) && (ClickKind(r.kind) ==> r.command == Still)
    ensures StillInv(Enqueue(c, r, ready, supported, now).0.queue)
  {
    hide Supersede, Either, Expected;
    SupersedeShape(c, r.persistent);
  }

  lemma TakenKeepsStill(c: Core, grab: Grab, now: nat)
    requires StillInv(c.queue)
    ensures StillInv(Taken(c, grab, now).0.queue)
  {
    ExpireShape(c, now);
    var d := Expire(c, now);
    hide Expire, MayCarry, NeedsButtons;
    var k := |c.queue| - |d.queue|;
    forall i | 0 <= i < |d.queue| && ClickKind(d.queue[i].kind)
      ensures NoMotion(d.queue[i].remaining)
    {
      AgedKeepsLink(c.queue[k + i], now);
    }
  }

  lemma CompleteKeepsStill(c: Core, r: Carried, success: bool)
    requires Linked(c, Some(r)) && StillInv(c.queue)
    ensures StillInv(Complete(c, r.generation, r.overlay, success).0.queue)
  {
    CompleteShape(c, r.generation, r.overlay, success);
    var (d, finished) := Complete(c, r.generation, r.overlay, success);
    hide Complete;
    if r.overlay.Some? && CarriesFront(c, r.generation, r.overlay.value) && success && ClickKind(c.queue[0].kind) {
      StillFinishes(c.queue[0], r.overlay.value);
    }
    hide Finished, MayCarry, CoreInv;
  }

  // ---------------------------------------------------------------- what the scheduler asks, and what it hears

  /** An event ends an owed release only once it was queued. */
  lemma SettledRelease(s: Sched, ev: WriterEvent)
    ensures var t := Settled(s, ev).0;
      || (t.releasePending == s.releasePending && t.releaseInflight == s.releaseInflight)
      || (s.releaseInflight && !t.releasePending && !t.releaseInflight)
  {
    hide Pressed, Rearmed, HasButton;
  }

  lemma DeliveredMasks(c: Core, s: Sched, t: Sched)
    requires t.scheduled == s.scheduled
    requires || (t.releasePending == s.releasePending && t.releaseInflight == s.releaseInflight)
             || (s.releaseInflight && !t.releasePending && !t.releaseInflight)
    requires if s.releasePending && !s.releaseInflight then Owing(c) else Chain(c, s.scheduled)
    ensures if t.releasePending && !t.releaseInflight then Owing(c) else Chain(c, t.scheduled)
  {
  }

  lemma EnqueueKeepsGeneration(c: Core, r: Request, ready: bool, supported: bool, now: nat)
    ensures Enqueue(c, r, ready, supported, now).0.generation == c.generation
  {
    hide Supersede, NewItem, Expected;
    SupersedeShape(c, r.persistent);
  }

  /** What the scheduler asks of the mixer. */
  lemma AskedRequests(s: Sched, snapshot: Snapshot, now: nat)
    ensures var turn := PlanTick(s, snapshot, now);
      && (turn.AskRelease? ==> turn.request.kind.ReleaseAll? && turn.request.scheduled == 0 && !turn.request.latest)
      && (turn.AskPress? ==> turn.request.kind.ClickPress? && !turn.request.latest && turn.request.command == Still)
      && (turn.AskLift? ==> turn.request.kind.ClickRelease? && !turn.request.latest && turn.request.command == Still)
  {
    hide PlusButton, MinusButton, HasButton;
  }

  lemma FinishedMask(s: Sched, status: T.Status)
    requires s.work != []
    ensures var t := FinishFront(s, status).0;
      && t.scheduled == 0 && t.tracked == s.tracked
      && t.releasePending == s.releasePending && t.releaseInflight == s.releaseInflight
  {
  }

  /** A command refused before its press has nothing down. */
  lemma AwaitingMask(s: Sched, snapshot: Snapshot, now: nat)
    requires SchedInv(s) && PlanTick(s, snapshot, now).FinishActive?
    ensures s.scheduled == 0 && s.work != [] && !s.releasePending
  {
  }

  lemma FrontAsKeeps(s: Sched, front: Click)
    requires s.work != []
    ensures FrontAs(s, front) == s.(work := FrontAs(s, front).work)
  {
  }

  lemma AnsweredMask(s: Sched, turn: Turn, result: EnqueueResult)
    requires turn.AskPress? || turn.AskLift? ==> s.work != []
    ensures var t := TurnAnswered(s, turn, result);
      && t.releasePending == s.releasePending && t.tracked == s.tracked
      && t.releaseInflight == (s.releaseInflight || (turn.AskRelease? && result.Accepted?))
      && t.scheduled == (if (turn.AskPress? || turn.AskLift?) && result.Accepted? then turn.request.scheduled
                         else s.scheduled)
  {
    if s.work != [] {
      FrontAsKeeps(s, s.work[0].(phase := PressInflight));
      FrontAsKeeps(s, s.work[0].(phase := ReleaseInflight));
      FrontAsKeeps(s, s.work[0].(phase := AwaitRelease));
    }
    hide FrontAs;
  }

  lemma TakenMasks(c: Core, grab: Grab, now: nat, last: bv8, writer: Option<Carried>)
    requires Linked(c, writer)
    ensures var d := Taken(c, grab, now).0;
      && (Chain(c, last) ==> Chain(d, last)) && (Owing(c) ==> Owing(d))
      && d.generation == c.generation && d.scheduled == c.scheduled && (c.queue == [] ==> d.queue == [])
  {
    var e := Expire(c, now);
    var d := Taken(c, grab, now).0;
    ExpireShape(c, now);
    if Chain(c, last) {
      ChainExpired(c, last, now);
      SameQueueChain(e, d, last);
    }
    if Owing(c) {
      OwingExpired(c, now);
    }
    hide Expire, MayCarry;
  }

  lemma LinkedCore(c: Core, writer: Option<Carried>)
    requires Linked(c, writer)
    ensures CoreInv(c)
  {
  }

  lemma CompletedFields(c: Core, r: Carried, success: bool)
    requires CoreInv(c)
    ensures var d := Complete(c, r.generation, r.overlay, success).0;
      && d.generation == c.generation && (c.queue == [] ==> d.queue == [] && d.scheduled == c.scheduled)
  {
    CompleteShape(c, r.generation, r.overlay, success);
    hide Complete;
  }

  // ---------------------------------------------------------------- the exact condition

  /** A click edge queued over an idle endpoint is dropped unsent exactly when its masks are already the applied ones. */
  lemma LoneEdgeExpiresIff(c: Core, r: Request, ready: bool, supported: bool, asked: nat, taken: nat)
    requires c.queue == [] && ClickKind(r.kind) && !r.latest && r.command == Still
    requires Enqueue(c, r, ready, supported, asked).1.Accepted?
    ensures Expire(Enqueue(c, r, ready, supported, asked).0, taken).queue == []
            <==> r.persistent == c.persistent && r.scheduled == c.scheduled
  {
    hide Either, Expected;
    var d := Enqueue(c, r, ready, supported, asked).0;
    assert d.queue == [NewItem(c, r, asked)];
    assert d.queue[1..] == [];
    assert Aged(d.queue[0], taken) == d.queue[0];
  }
}
