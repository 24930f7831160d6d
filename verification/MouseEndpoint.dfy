/** The endpoint object: the locked operations performed on its fields, each proved against its function. */
module MouseEndpointObject {
  import opened Common
  import opened HidReport
  import opened MouseLayout
  import opened Splitting
  import opened Mixer
  import opened Endpoint

  class MouseEndpoint {
    var layouts: seq<Profile>
    var profile: Profile
    var latest: seq<byte>
    var template: seq<byte>
    var fifo: seq<Report>
    var physicalButtons: bv8
    var submittedButtons: bv8
    var credits: nat
    const instance: nat
    var synthetic: seq<Item>
    var persistentButtons: bv8
    var scheduledButtons: bv8
    var inflight: Option<nat>
    var nextItem: nat
    var generation: nat
    var barrier: nat
    var activity: nat
    var superseded: nat

    function CoreView(): Core
      reads this
    {
      Core(synthetic, persistentButtons, scheduledButtons, inflight, nextItem, generation, barrier, activity, superseded)
    }

    function View(): State
      reads this
    {
      State(CoreView(), layouts, profile, latest, template, fifo, physicalButtons, submittedButtons, credits, instance)
    }

    constructor (layouts: seq<Profile>, generation: nat, instance: nat)
      ensures View() == Registered(layouts, generation, instance)
    {
      this.layouts, this.profile := layouts, NoProfile;
      latest, template, fifo := [], [], [];
      physicalButtons, submittedButtons, credits := 0, 0, 0;
      this.instance := instance;
      synthetic, persistentButtons, scheduledButtons := [], 0, 0;
      inflight, nextItem, this.generation := None, 1, generation;
      barrier, activity, superseded := 0, 0, 0;
    }

    method MatchingProfile(data: seq<byte>) returns (found: Option<Profile>)
      ensures found == FindLayout(layouts, data, latest == [], profile.id)
    {
      hide Matches;
      for i := 0 to |layouts|
        invariant FindLayout(layouts, data, latest == [], profile.id)
               == FindLayout(layouts[i..], data, latest == [], profile.id)
      {
        if Matches(layouts[i], data) && (latest == [] || layouts[i].id == profile.id) {
          return Some(layouts[i]);
        }
      }
      return None;
    }

    method QueuePhysicalReport(data: seq<byte>) returns (r: Report)
      requires ValidState(View())
      modifies this
      ensures (View(), r) == Observe(old(View()), data)
    {
      hide ValidProfile, CoreInv, FindLayout, Decoded, Arrive, Stamped, NoMotion;
      r := Report(data, generation, instance, Some(Physical(false, 0, Still)), None, 0, false);
      var found := MatchingProfile(data);
      if found.None? {
        NotePhysicalActivity(false);
        return;
      }
      var seen := Decode(found.value, data);
      NotePhysicalActivity(!NoMotion(seen) || physicalButtons != seen.buttons);
      Learn(found.value, data, seen.buttons);
      r := r.(physical := Some(Physical(true, seen.buttons, seen)));
    }

    method NotePhysicalActivity(changed: bool)
      modifies this`barrier, this`activity
      ensures CoreView() == Arrive(old(CoreView()), changed)
    {
      barrier := barrier + 1;
      if changed {
        activity := activity + 1;
      }
    }

    method Learn(p: Profile, data: seq<byte>, buttons: bv8)
      modifies this`profile, this`latest, this`physicalButtons
      ensures profile == if old(latest) == [] then p else old(profile)
      ensures latest == data && physicalButtons == buttons
    {
      if latest == [] {
        profile := p;
      }
      latest, physicalButtons := data, buttons;
    }

    method PushPhysical(r: Report)
      modifies this`fifo
      ensures View() == Push(old(View()), r)
    {
      fifo := fifo + [r];
    }

    method EnqueueReport(r: Request, now: nat) returns (result: EnqueueResult)
      modifies this`synthetic, this`superseded, this`nextItem
      ensures (View(), result) == EnqueueOn(old(View()), r, now)
    {
      hide Splittable, Expected, Insert;
      if latest == [] || !Expected(CoreView(), r) {
        return NotReady;
      }
      var supported := Supports(r);
      if !supported {
        return Unsupported;
      }
      result := InsertItem(r, now);
    }

    method Supports(r: Request) returns (ok: bool)
      ensures ok == Splittable(View(), r)
    {
      hide Split;
      var parts := SplitMouseCommand(profile, r.command.(buttons := Either(r.persistent, r.scheduled)));
      ok := parts != [];
    }

    method InsertItem(r: Request, now: nat) returns (result: EnqueueResult)
      modifies this`synthetic, this`superseded, this`nextItem
      ensures (CoreView(), result) == Insert(old(CoreView()), r, now)
    {
      hide NewItem, Supersede;
      if r.latest {
        DropSuperseded(r.persistent);
      }
      if |synthetic| >= MAX_ITEMS {
        return QueueFull;
      }
      Append(r, now);
      return Accepted;
    }

    method Append(r: Request, now: nat)
      modifies this`synthetic, this`nextItem
      ensures synthetic == old(synthetic) + [NewItem(old(CoreView()), r, now)]
      ensures nextItem == old(nextItem) + 1
    {
      var item := NewItem(CoreView(), r, now);
      synthetic, nextItem := synthetic + [item], nextItem + 1;
    }

    method DropSuperseded(persistent: bv8)
      modifies this`synthetic, this`superseded
      ensures CoreView() == Supersede(old(CoreView()), persistent)
    {
      hide Superseded;
      while synthetic != [] && Superseded(CoreView(), synthetic[|synthetic| - 1], persistent)
        invariant Supersede(CoreView(), persistent) == Supersede(old(CoreView()), persistent)
        decreases |synthetic|
      {
        synthetic, superseded := synthetic[..|synthetic| - 1], superseded + 1;
      }
    }

    method ClearSyntheticState()
      modifies this`synthetic, this`inflight
      ensures View() == ClearOn(old(View()))
    {
      synthetic, inflight := [], None;
    }

    method InvalidateInterface(layouts: seq<Profile>, generation: nat)
      modifies this
      ensures View() == Relayout(old(View()), layouts, generation)
    {
      ResetOverlays(generation);
      latest, template, this.layouts := [], [], layouts;
    }

    method ResetOverlays(generation: nat)
      modifies this`synthetic, this`persistentButtons, this`scheduledButtons, this`inflight, this`generation
      ensures CoreView() == Invalidate(old(CoreView()), generation)
    {
      synthetic, persistentButtons, scheduledButtons := [], 0, 0;
      inflight, this.generation := None, generation;
    }

    method ExpireFront(now: nat)
      modifies this`synthetic
      ensures CoreView() == Expire(old(CoreView()), now)
    {
      hide NeedsButtons;
      while synthetic != []
        invariant Expire(CoreView(), now) == Expire(old(CoreView()), now)
        decreases |synthetic|
      {
        var front := Aged(synthetic[0], now);
        if NoMotion(front.remaining) && !NeedsButtons(CoreView(), front) {
          synthetic := synthetic[1..];
        } else {
          synthetic := synthetic[0 := front];
          break;
        }
      }
    }

    method RemoveFinishedFront()
      modifies this`synthetic
      ensures synthetic == RemoveFinished(old(synthetic))
    {
      hide Finished;
      while synthetic != [] && Finished(synthetic[0])
        invariant RemoveFinished(synthetic) == RemoveFinished(old(synthetic))
        decreases |synthetic|
      {
        synthetic := synthetic[1..];
      }
    }

    method ChooseNext() returns (choice: Choice)
      ensures choice == Choose(View())
    {
      hide Split, FieldFits;
      var haveSynthetic := FrontUsable(CoreView());
      if fifo == [] {
        if !haveSynthetic {
          return Nothing;
        }
        choice := StandaloneChoice(false);
        return;
      }
      if haveSynthetic {
        var item, candidate := synthetic[0], fifo[0];
        if Current(View(), candidate) {
          var motion := item.remaining;
          if IsTransaction(item.kind) {
            var parts := SplitMouseCommand(profile, item.remaining);
            if parts != [] {
              motion := parts[0];
            }
          }
          if MotionFits(profile, candidate.physical.value.motion, motion) {
            return Fused(motion);
          }
          if NeedsButtons(CoreView(), item) {
            return Fused(Still);
          }
        }
        if |fifo| == 1 && template != [] && credits >= CREDITS {
          choice := StandaloneChoice(true);
          return;
        }
      }
      return Passthrough;
    }

    method StandaloneChoice(competing: bool) returns (choice: Choice)
      requires synthetic != []
      ensures choice == ChooseStandalone(View(), competing)
    {
      hide Split;
      if template == [] && latest == [] {
        return Nothing;
      }
      var item := synthetic[0];
      var parts := SplitMouseCommand(profile, item.remaining.(buttons := Either(item.persistent, item.scheduled)));
      return if parts == [] then Nothing else Standalone(parts[0], competing);
    }

    method TakeMouseReport(now: nat) returns (report: Option<Report>)
      requires ValidState(View())
      modifies this
      ensures (View(), report) == Take(old(View()), now)
    {
      if inflight.Some? {
        return None;
      }
      ghost var before := View();
      ExpireFront(now);
      ExpireKeepsInv(before.core, now);
      ExpireShape(before.core, now);
      CoreSwapKeepsValid(before, Expire(before.core, now));
      hide Choose, ValidState, Perform;
      assert View() == before.(core := Expire(before.core, now));
      var choice := ChooseNext();
      report := PerformChoice(choice);
    }

    method PerformChoice(choice: Choice) returns (report: Option<Report>)
      requires ValidState(View()) && choice == Choose(View())
      modifies this`fifo, this`inflight
      ensures (View(), report) == Perform(old(View()), choice)
    {
      ChoiceIsPossible(View());
      assert template != [] ==> latest != [];
      hide Choose, ValidState, ValidProfile;
      match choice {
        case Nothing =>
          return None;
        case Passthrough =>
          var r := RewriteHead(None);
          fifo := fifo[1..];
          return Some(r);
        case Fused(applied) =>
          var r := RewriteHead(Some(FrontOverlay(View(), applied)));
          fifo, inflight := fifo[1..], Some(synthetic[0].id);
          return Some(r);
        case Standalone(applied, competing) =>
          var r := ComposeStandaloneReport(View(), applied, competing);
          inflight := Some(synthetic[0].id);
          return Some(r);
      }
    }

    method RewriteHead(overlay: Option<Overlay>) returns (r: Report)
      requires ValidState(View()) && fifo != []
      ensures r == ComposePhysical(View(), overlay)
    {
      r := fifo[0];
      if !Current(View(), r) {
        return;
      }
      assert Stamped(View(), fifo[0]);
      hide ValidProfile, Decoded, CoreInv, Either;
      var seen := r.physical.value;
      var applied, persistent, scheduled := Still, persistentButtons, scheduledButtons;
      if overlay.Some? {
        applied, persistent, scheduled := overlay.value.applied, overlay.value.persistent, overlay.value.scheduled;
      }
      var final := Either(seen.buttons, Either(persistent, scheduled));
      var data := ApplyKnownFields(profile, r.data, Plus(seen.motion, applied).(buttons := final));
      r := r.(data := data, overlay := overlay, final := final);
    }

    method NotifyWritten(r: Report, success: bool, written: nat) returns (event: Option<WriterEvent>)
      requires ValidState(View()) && (r.instance == instance ==> Writable(View(), r))
      modifies this
      ensures (View(), event) == Notify(old(View()), r, success, written)
    {
      hide ValidState, ValidProfile, Reported;
      if r.instance != instance {
        return None;
      }
      NotePhysicalWritten(r, success);
      if success && r.competing {
        credits := 0;
      }
      var finished := CompleteOverlay(r.generation, r.overlay, success);
      if r.generation == generation && Reported(KindOf(r.overlay), success) {
        return Some(EventOf(r.generation, r.overlay, r.final, success, finished, written));
      }
      return None;
    }

    method NotePhysicalWritten(r: Report, success: bool)
      requires Writable(View(), r)
      modifies this`credits, this`submittedButtons, this`template
      ensures View() == NotePhysical(old(View()), r, success)
    {
      hide ValidProfile;
      if !success || r.physical.None? {
        return;
      }
      var seen := r.physical.value;
      credits := Min(CREDITS, credits + 1);
      if seen.matched {
        submittedButtons := seen.buttons;
        if r.generation == generation {
          var data := ApplyKnownFields(profile, r.data, seen.motion.(buttons := seen.buttons));
          template := data;
        }
      }
    }

    method CompleteOverlay(reportGeneration: nat, overlay: Option<Overlay>, success: bool) returns (finished: bool)
      modifies this`synthetic, this`inflight, this`persistentButtons, this`scheduledButtons
      ensures (CoreView(), finished) == Complete(old(CoreView()), reportGeneration, overlay, success)
    {
      finished := false;
      if overlay.None? || !CarriesFront(CoreView(), reportGeneration, overlay.value) {
        return;
      }
      if success {
        var o := overlay.value;
        persistentButtons, scheduledButtons := o.persistent, o.scheduled;
        var item := Committed(synthetic[0], o);
        finished := Finished(item);
        synthetic := [item] + synthetic[1..];
      }
      inflight := None;
      if success {
        RemoveFinishedFront();
      }
    }
  }

  method Copy(s: seq<byte>) returns (buffer: array<byte>)
    ensures fresh(buffer) && buffer[..] == s
  {
    buffer := new byte[|s|](i requires 0 <= i < |s| => s[i]);
  }

  method ComposeStandaloneReport(s: State, applied: Command, competing: bool) returns (r: Report)
    requires ValidState(s) && s.core.queue != [] && s.latest != []
    ensures r == ComposeStandalone(s, applied, competing)
  {
    hide CoreInv, ValidLayouts, ValidProfile, Blocks, WithButtons, Encoded, Stamped, Either;
    var o := FrontOverlay(s, applied);
    var final := Either(s.submittedButtons, Either(o.persistent, o.scheduled));
    var data := SynthesizeReport(s.profile, if s.template == [] then s.latest else s.template, applied, final);
    r := Report(data, s.core.generation, s.instance, None, Some(o), final, competing);
  }

  method SynthesizeReport(p: Profile, base: seq<byte>, applied: Command, final: bv8) returns (data: seq<byte>)
    requires ValidProfile(p) && Fits(p, base)
    ensures data == WithButtons(Encoded(ZeroRelative(base, p, |p.relative|), p, applied), p, final)
  {
    hide WithButtons, Encoded, Store, WellFormed, Disjoint;
    var buffer := Copy(base);
    ClearRelative(p, buffer);
    var _ := Encode(p, applied, buffer);
    PutButtons(p, buffer, final);
    data := buffer[..];
  }

  method ClearRelative(p: Profile, buffer: array<byte>)
    requires forall i :: 0 <= i < |p.relative| ==> Inside(p.relative[i], buffer.Length)
    modifies buffer
    ensures buffer[..] == ZeroRelative(old(buffer[..]), p, |p.relative|)
  {
    hide Store, Inside;
    ghost var base := buffer[..];
    for i := 0 to |p.relative|
      invariant buffer[..] == ZeroRelative(base, p, i)
    {
      var _ := Put(p.relative[i], buffer, 0);
    }
  }

  method Decode(p: Profile, data: seq<byte>) returns (c: Command)
    requires ValidProfile(p) && Fits(p, data)
    ensures c == Decoded(data, p)
  {
    var buffer := Copy(data);
    var x := Get(p.x, buffer);
    var y := Get(p.y, buffer);
    var wheel := Get(p.wheel, buffer);
    var pan := Get(p.pan, buffer);
    var buttons := ReadButtons(p, buffer);
    c := Command(x, y, wheel, pan, buttons);
  }

  method ApplyKnownFields(p: Profile, data: seq<byte>, c: Command) returns (result: seq<byte>)
    requires ValidProfile(p) && Fits(p, data)
    ensures result == Applied(data, p, c)
  {
    var buffer := Copy(data);
    var _ := Put(p.x, buffer, c.x);
    var _ := Put(p.y, buffer, c.y);
    var _ := Put(p.wheel, buffer, c.wheel);
    var _ := Put(p.pan, buffer, c.pan);
    PutButtons(p, buffer, c.buttons);
    result := buffer[..];
  }

  /** The bounded queue of completions the server reads; what does not fit only raises a flag. */
  class WriterEvents {
    var events: seq<WriterEvent>
    var overflow: bool

    constructor ()
      ensures events == [] && !overflow
    {
      events, overflow := [], false;
    }

    method Post(event: WriterEvent)
      modifies this
      ensures events == (if |old(events)| >= MAX_EVENTS then old(events) else old(events) + [event])
      ensures overflow == (old(overflow) || |old(events)| >= MAX_EVENTS)
    {
      if |events| >= MAX_EVENTS {
        overflow := true;
      } else {
        events := events + [event];
      }
    }

    method TakeEvents() returns (result: seq<WriterEvent>)
      modifies this`events
      ensures result == old(events) && events == []
    {
      result, events := events, [];
    }

    method TakeOverflow() returns (result: bool)
      modifies this`overflow
      ensures result == old(overflow) && !overflow
    {
      result, overflow := overflow, false;
    }
  }
}
