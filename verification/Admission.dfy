/**
 The server's admission test, made over a snapshot, against the endpoint it is a snapshot of: a transaction that was
 admitted never asks for a report the layout cannot make.
 */
module Admission {
  import opened Common
  import opened HidReport
  import opened MouseLayout
  import opened Splitting
  import opened MoveTypes
  import opened Mixer
  import opened Executor
  import ClickScheduler
  import Server
  import Endpoint
  import EndpointRun
  import TransactionLoop
  import TransactionRun

  /**
   `endpoint_snapshot` of an endpoint, ready once a report was learnt: `next` is the registry's generation counter,
   `poll` the polling interval, `waiting` the length of the physical queue.
   */
  function SnapshotOf(s: Endpoint.State, next: nat, poll: nat, waiting: nat): Snapshot {
    if s.latest == [] then Snapshot(false, next, 0, 0, 0, 0, 0, 0, 0, 0, 0, 0, 0, 0)
    else Snapshot(true, s.core.generation, s.core.activity, poll, s.physicalButtons, s.core.persistent, s.core.scheduled,
                  AllButtons(s.profile), s.profile.x.minimum, s.profile.x.maximum, s.profile.y.minimum, s.profile.y.maximum,
                  waiting, |s.core.queue|)
  }

  lemma HasIsSupported(p: Profile, button: nat)
    ensures button == 0 || ClickScheduler.HasButton(AllButtons(p), button) ==> ButtonsSupported(p, ButtonBit(button))
  {
    hide AllButtons;
    MaskedBit(AllButtons(p), button);
  }

  lemma MaskedBit(mask: bv8, button: nat)
    ensures button == 0 || mask & ButtonBit(button) != 0 ==> ButtonBit(button) & !mask == 0
  {
  }

  /** What admission over an endpoint's snapshot says about its layout; a refusal for range is not for nothing. */
  lemma AdmissionFitsLayout(server: Server.State, r: MoveRequest, s: Endpoint.State, next: nat, poll: nat, waiting: nat)
    ensures var e := SnapshotOf(s, next, poll, waiting);
      var obstacle := Server.MoveObstacle(server, r, e);
      && (obstacle.None? ==>
            && s.latest != [] && r.generation == s.core.generation
            && AdmittedSegments(s.profile, r.dx, r.dy) && ButtonsSupported(s.profile, ButtonBit(r.button)))
      && (obstacle == Some(MoveTypes.Range) ==>
            !AdmittedSegments(s.profile, r.dx, r.dy) || Server.LeastTime(r, e) >= r.budget)
  {
    HasIsSupported(s.profile, r.button);
    hide AllButtons, Segments, ButtonBit, ClickScheduler.HasButton, ButtonsSupported, Server.LeastTime;
  }

  /** What the mixer answers a transaction under the layout it was admitted for. */
  lemma AnswerUnderLayout(s: Endpoint.State, m: MoveRequest, r: Request, now: nat)
    requires Endpoint.ValidState(s) && TransactionRun.AsksWhole(m, r)
    requires AdmittedSegments(s.profile, m.dx, m.dy) && ButtonsSupported(s.profile, ButtonBit(m.button))
    ensures Endpoint.EnqueueOn(s, r, now).1 != Unsupported
  {
    hide AdmittedSegments, ButtonsSupported, ButtonBit, Split;
    AxesOfState(s);
    hide Endpoint.ValidState;
    AdmissionIsExact(s.profile, m.dx, m.dy);
    EdgeSplits(s.profile, ButtonBit(m.button));
    EdgeSplits(s.profile, 0);
    NoButtonsSupported(s.profile);
    EitherNothing(r.scheduled);
  }

  lemma AxesOfState(s: Endpoint.State)
    requires Endpoint.ValidState(s)
    ensures SplittableAxes(s.profile)
  {
  }

  lemma EdgeSplits(p: Profile, mask: bv8)
    requires SplittableAxes(p)
    ensures ButtonsSupported(p, mask) ==> Split(p, Still.(buttons := mask)) != []
  {
    hide ButtonsSupported;
    SplitCount(p, Still.(buttons := mask));
    SplitCount(p, Still);
    LongestOfMove(p, 0, 0);
  }

  lemma EitherNothing(mask: bv8)
    ensures Either(0, mask) == mask
  {
  }

  /**
   From the admission on, over any run of the endpoint, no enqueue of the transaction is answered Unsupported:
   under the same generation the layout is the same, and under a later one the answer is NotReady.
   */
  lemma AdmittedIsNeverUnsupported(generation: nat, labels: seq<TransactionLoop.Label>, snapshot: Snapshot, now: nat,
                                   server: Server.State, w: EndpointRun.World, later: seq<EndpointRun.Label>,
                                   next: nat, poll: nat, waiting: nat)
    requires EndpointRun.Inv(w)
    requires Server.MoveObstacle(server, TransactionRun.Reached(generation, labels).exec.request,
                                 SnapshotOf(w.s, next, poll, waiting)).None?
    ensures var plan := Planned(TransactionRun.Reached(generation, labels).exec, snapshot, now);
      plan.Submit? ==> Endpoint.EnqueueOn(EndpointRun.Run(w, later).s, plan.request, now).1 != Unsupported
  {
    hide TransactionRun.Reached, Planned, EndpointRun.Run, EndpointRun.Inv, Server.MoveObstacle, AdmittedSegments,
         ButtonsSupported, ButtonBit, Split, Endpoint.ValidState;
    var exec := TransactionRun.Reached(generation, labels).exec;
    var plan := Planned(exec, snapshot, now);
    TransactionRun.MotionIsWhole(generation, labels, snapshot, now);
    AdmissionFitsLayout(server, exec.request, w.s, next, poll, waiting);
    EndpointRun.LayoutStays(w, later);
    EndpointRun.RunKeepsInv(w, later);
    ValidOf(EndpointRun.Run(w, later));
    var s := EndpointRun.Run(w, later).s;
    if plan.Submit? && s.core.generation == exec.request.generation {
      AnswerUnderLayout(s, exec.request, plan.request, now);
    }
  }

  lemma ValidOf(w: EndpointRun.World)
    requires EndpointRun.Inv(w)
    ensures Endpoint.ValidState(w.s)
  {
  }
}
