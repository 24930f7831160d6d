/** The move/click/return transaction: its stage machine and the ledger it keeps from writer events. */
module Executor {
  import opened Common
  import opened HidReport
  import opened MoveTypes
  import opened Mixer
  import opened MouseEndpointObject
  import Endpoint

  const MICROSECOND := 1000

  datatype Exec = Exec(
    request: MoveRequest, ack: Ack, due: nat, deadline: nat, activity: nat,
    pending: bool, resumed: bool, cancelled: bool)

  const NoTransaction: Exec := Exec(NoRequest, NoAck, 0, 0, 0, false, false, false)

  predicate IsActive(e: Exec) {
    e.ack.status.Active? || e.ack.status.Accepted?
  }

  function AtStage(e: Exec, stage: Stage, now: nat): Exec {
    e.(ack := e.ack.(stage := stage, written := now))
  }

  function Started(r: MoveRequest, activity: nat, now: nat): Exec {
    Exec(r,
         NoAck.(status := Active, stage := Outward, key := r.key, epoch := r.epoch,
                generation := r.generation, written := now),
         now, now + r.budget * MICROSECOND, activity, false, false, false)
  }

  function Stopped(e: Exec, reason: Status, now: nat): Exec {
    if !IsActive(e) then e
    else
      var f := if e.pending then e.(ack := e.ack.(uncertain := true), pending := false) else e;
      AtStage(f.(ack := f.ack.(status := reason)), Done, now)
  }

  function Proceeded(e: Exec): Exec {
    if IsActive(e) && e.ack.stage.Waiting? then e.(resumed := true) else e
  }

  function Cancelling(e: Exec): Exec {
    if IsActive(e) then e.(cancelled := true) else e
  }

  // ---------------------------------------------------------------- writer events

  predicate Mine(e: Exec, ev: WriterEvent) {
    ev.key == e.request.key && ev.generation == e.request.generation
  }

  /** The ledger after a successful report of the transaction. */
  function Credited(e: Exec, ev: WriterEvent): Exec {
    var a := if ev.kind.TransactionOut? then e.ack.(outX := e.ack.outX + ev.dx, outY := e.ack.outY + ev.dy)
             else if ev.kind.TransactionReturn? then
               e.ack.(returnX := e.ack.returnX + ev.dx, returnY := e.ack.returnY + ev.dy)
             else e.ack;
    e.(ack := a.(residualX := a.outX + a.returnX, residualY := a.outY + a.returnY, written := ev.written))
  }

  function ItemDone(e: Exec, ev: WriterEvent): Exec {
    var t := ev.written;
    var f := e.(pending := false);
    match ev.kind
    case TransactionOut => AtStage(f, Settle, t).(due := t + e.request.settle * MICROSECOND)
    case TransactionPress =>
      if ev.blocked then Stopped(f, ButtonActive, t)
      else AtStage(f.(ack := f.ack.(pressed := true)), Hold, t).(due := t + e.request.press * MICROSECOND)
    case TransactionRelease =>
      AtStage(f.(ack := f.ack.(released := true)), ReturnDelay, t).(due := t + e.request.back * MICROSECOND)
    case _ => AtStage(f.(ack := f.ack.(status := if e.cancelled then Cancelled else Completed)), Done, t)
  }

  function Delivered(e: Exec, ev: WriterEvent): Exec {
    if !IsActive(e) || !Mine(e, ev) then e
    else if !ev.success then Stopped(e, WriterFailed, ev.written)
    else if !IsTransaction(ev.kind) then e
    else
      var f := Credited(e, ev);
      if ev.finished then ItemDone(f, ev) else f
  }

  // ---------------------------------------------------------------- ticks

  /** What a tick asks for: nothing, a reset, or one enqueue whose answer `Answered` takes. */
  datatype Plan = Rest(e: Exec) | Abort(e: Exec) | Submit(e: Exec, request: Request)

  function TransactionRequest(e: Exec, x: int, y: int, scheduled: bv8, kind: Kind): Request {
    Request(Command(x, y, 0, 0, 0), 0, scheduled, kind, false, e.request.key, 0, e.request.button,
            Some(e.activity), e.request.generation)
  }

  /** Cancellation leads an idle transaction to its release, or to its return. */
  function Redirected(e: Exec, now: nat): Exec {
    if !e.cancelled || e.ack.stage.Returning? then e
    else if e.ack.pressed && !e.ack.released then AtStage(e, Releasing, now)
    else AtStage(e, ReturnDelay, now).(due := now)
  }

  function Advance(e: Exec, now: nat): Plan {
    var r := e.request;
    match e.ack.stage
    case Outward =>
      if r.dx == 0 && r.dy == 0 then Rest(AtStage(e, Settle, now).(due := now + r.settle * MICROSECOND))
      else Submit(e, TransactionRequest(e, r.dx, r.dy, 0, TransactionOut))
    case Settle =>
      if now < e.due then Rest(e)
      else if r.midpoint then Rest(AtStage(e, Waiting, now).(due := now + r.wait * MICROSECOND))
      else Rest(AtStage(e, if r.button != 0 then Pressing else ReturnDelay, now).(due := now + r.back * MICROSECOND))
    case Waiting =>
      if !e.resumed && now < e.due then Rest(e)
      else
        var f := e.(cancelled := e.cancelled || !e.resumed);
        Rest(AtStage(f, if !f.cancelled && r.button != 0 then Pressing else ReturnDelay, now).(due := now))
    case Pressing => Submit(e, TransactionRequest(e, 0, 0, ButtonBit(r.button), TransactionPress))
    case Hold => if now < e.due then Rest(e) else Rest(AtStage(e, Releasing, now))
    case Releasing => Submit(e, TransactionRequest(e, 0, 0, 0, TransactionRelease))
    case ReturnDelay =>
      if now < e.due then Rest(e)
      else if e.ack.residualX == 0 && e.ack.residualY == 0 then
        Rest(AtStage(e.(ack := e.ack.(status := if e.cancelled then Cancelled else Completed)), Done, now))
      else Rest(AtStage(e, Returning, now))
    case Returning =>
      Submit(e, TransactionRequest(e, -e.ack.residualX, -e.ack.residualY, 0, TransactionReturn))
    case _ => Rest(e)
  }

  function Planned(e: Exec, snapshot: Snapshot, now: nat): Plan {
    if !IsActive(e) then Rest(e)
    else if !snapshot.ready || snapshot.generation != e.request.generation then
      Abort(Stopped(e, EndpointChanged, now))
    else if snapshot.activity != e.activity then Abort(Stopped(e, Interrupted, now))
    else if now >= e.deadline then Abort(Stopped(e, Timeout, now))
    else if e.pending then Rest(e)
    else Advance(Redirected(e, now), now)
  }

  /** The tick's outcome once the mixer answered; the flag asks the server for a reset. */
  function Answered(e: Exec, result: EnqueueResult, now: nat): (Exec, bool) {
    if result.Accepted? then (e.(pending := true), false)
    else if result.QueueFull? then (e, false)
    else (Stopped(e, EndpointChanged, now), true)
  }

  // ---------------------------------------------------------------- the object

  class MoveExecutor {
    var request: MoveRequest
    var ack: Ack
    var due: nat
    var deadline: nat
    var activity: nat
    var pending: bool
    var resumed: bool
    var cancelled: bool

    function View(): Exec
      reads this
    {
      Exec(request, ack, due, deadline, activity, pending, resumed, cancelled)
    }

    constructor ()
      ensures View() == NoTransaction
    {
      request, ack, due, deadline, activity := NoRequest, NoAck, 0, 0, 0;
      pending, resumed, cancelled := false, false, false;
    }

    method Start(r: MoveRequest, snapshot: Snapshot, now: nat)
      modifies this
      ensures View() == Started(r, snapshot.activity, now)
    {
      request := r;
      ack := NoAck.(status := Active, stage := Outward, key := r.key, epoch := r.epoch,
                    generation := r.generation, written := now);
      pending, resumed, cancelled := false, false, false;
      deadline, due, activity := now + r.budget * MICROSECOND, now, snapshot.activity;
    }

    method SetStage(stage: Stage, now: nat)
      modifies this`ack
      ensures View() == AtStage(old(View()), stage, now)
    {
      ack := ack.(stage := stage, written := now);
    }

    method Stop(reason: Status, now: nat)
      modifies this`ack, this`pending
      ensures View() == Stopped(old(View()), reason, now)
    {
      if !IsActive(View()) {
        return;
      }
      if pending {
        ack, pending := ack.(uncertain := true), false;
      }
      ack := ack.(status := reason);
      SetStage(Done, now);
    }

    method Proceed()
      modifies this`resumed
      ensures View() == Proceeded(old(View()))
    {
      if IsActive(View()) && ack.stage.Waiting? {
        resumed := true;
      }
    }

    method Cancel()
      modifies this`cancelled
      ensures View() == Cancelling(old(View()))
    {
      if IsActive(View()) {
        cancelled := true;
      }
    }

    method Event(ev: WriterEvent)
      modifies this
      ensures View() == Delivered(old(View()), ev)
    {
      if !IsActive(View()) || !Mine(View(), ev) {
        return;
      }
      if !ev.success {
        Stop(WriterFailed, ev.written);
        return;
      }
      if !IsTransaction(ev.kind) {
        return;
      }
      Credit(ev);
      if ev.finished {
        FinishItem(ev);
      }
    }

    method Credit(ev: WriterEvent)
      modifies this`ack
      ensures View() == Credited(old(View()), ev)
    {
      if ev.kind.TransactionOut? {
        ack := ack.(outX := ack.outX + ev.dx, outY := ack.outY + ev.dy);
      } else if ev.kind.TransactionReturn? {
        ack := ack.(returnX := ack.returnX + ev.dx, returnY := ack.returnY + ev.dy);
      }
      ack := ack.(residualX := ack.outX + ack.returnX, residualY := ack.outY + ack.returnY, written := ev.written);
    }

    method FinishItem(ev: WriterEvent)
      requires IsTransaction(ev.kind)
      modifies this
      ensures View() == ItemDone(old(View()), ev)
    {
      pending := false;
      if ev.kind.TransactionOut? {
        SetStage(Settle, ev.written);
        due := ev.written + request.settle * MICROSECOND;
      } else if ev.kind.TransactionPress? {
        if ev.blocked {
          Stop(ButtonActive, ev.written);
          return;
        }
        ack := ack.(pressed := true);
        SetStage(Hold, ev.written);
        due := ev.written + request.press * MICROSECOND;
      } else if ev.kind.TransactionRelease? {
        ack := ack.(released := true);
        SetStage(ReturnDelay, ev.written);
        due := ev.written + request.back * MICROSECOND;
      } else {
        ack := ack.(status := if cancelled then Cancelled else Completed);
        SetStage(Done, ev.written);
      }
    }

    /** One tick against the endpoint; true asks the server for its release and reset. */
    method Tick(endpoint: MouseEndpoint, snapshot: Snapshot, now: nat) returns (reset: bool)
      modifies this, endpoint`synthetic, endpoint`superseded, endpoint`nextItem
      ensures var plan := Planned(old(View()), snapshot, now);
        match plan
        case Rest(e) => View() == e && !reset && endpoint.View() == old(endpoint.View())
        case Abort(e) => View() == e && reset && endpoint.View() == old(endpoint.View())
        case Submit(e, r) =>
          var (s, result) := Endpoint.EnqueueOn(old(endpoint.View()), r, now);
          endpoint.View() == s && (View(), reset) == Answered(e, result, now)
    {
      if !IsActive(View()) {
        return false;
      }
      if !snapshot.ready || snapshot.generation != request.generation {
        Stop(EndpointChanged, now);
        return true;
      }
      if snapshot.activity != activity {
        Stop(Interrupted, now);
        return true;
      }
      if now >= deadline {
        Stop(Timeout, now);
        return true;
      }
      if pending {
        return false;
      }
      Redirect(now);
      var submission := NextStep(now);
      if submission.None? {
        return false;
      }
      reset := SubmitTo(endpoint, submission.value, now);
    }

    method Redirect(now: nat)
      modifies this`ack, this`due
      ensures View() == Redirected(old(View()), now)
    {
      if cancelled && !ack.stage.Returning? {
        if ack.pressed && !ack.released {
          SetStage(Releasing, now);
        } else {
          SetStage(ReturnDelay, now);
          due := now;
        }
      }
    }

    method NextStep(now: nat) returns (submission: Option<Request>)
      modifies this`ack, this`due, this`cancelled
      ensures var plan := Advance(old(View()), now);
        && View() == plan.e
        && submission == (if plan.Submit? then Some(plan.request) else None)
        && !plan.Abort?
    {
      hide AtStage, TransactionRequest, ButtonBit;
      submission := None;
      match ack.stage {
        case Outward =>
          if request.dx == 0 && request.dy == 0 {
            SetStage(Settle, now);
            due := now + request.settle * MICROSECOND;
          } else {
            submission := Some(TransactionRequest(View(), request.dx, request.dy, 0, TransactionOut));
          }
        case Settle =>
          if now >= due {
            if request.midpoint {
              SetStage(Waiting, now);
              due := now + request.wait * MICROSECOND;
            } else {
              SetStage(if request.button != 0 then Pressing else ReturnDelay, now);
              due := now + request.back * MICROSECOND;
            }
          }
        case Waiting =>
          if resumed || now >= due {
            if !resumed {
              cancelled := true;
            }
            SetStage(if !cancelled && request.button != 0 then Pressing else ReturnDelay, now);
            due := now;
          }
        case Pressing =>
          submission := Some(TransactionRequest(View(), 0, 0, ButtonBit(request.button), TransactionPress));
        case Hold =>
          if now >= due {
            SetStage(Releasing, now);
          }
        case Releasing =>
          submission := Some(TransactionRequest(View(), 0, 0, 0, TransactionRelease));
        case ReturnDelay =>
          if now >= due {
            if ack.residualX == 0 && ack.residualY == 0 {
              ack := ack.(status := if cancelled then Cancelled else Completed);
              SetStage(Done, now);
            } else {
              SetStage(Returning, now);
            }
          }
        case Returning =>
          submission := Some(TransactionRequest(View(), -ack.residualX, -ack.residualY, 0, TransactionReturn));
        case _ =>
      }
    }

    method SubmitTo(endpoint: MouseEndpoint, r: Request, now: nat) returns (reset: bool)
      modifies this`pending, this`ack, endpoint`synthetic, endpoint`superseded, endpoint`nextItem
      ensures var (s, result) := Endpoint.EnqueueOn(old(endpoint.View()), r, now);
        endpoint.View() == s && (View(), reset) == Answered(old(View()), result, now)
    {
      hide Endpoint.EnqueueOn;
      var result := endpoint.EnqueueReport(r, now);
      reset := false;
      if result.Accepted? {
        pending := true;
      } else if !result.QueueFull? {
        Stop(EndpointChanged, now);
        reset := true;
      }
    }
  }
}
