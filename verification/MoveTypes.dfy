/** The values of the move/click/return protocol. */
module MoveTypes {
  import opened Common

  datatype Operation = Execute | Continue | Cancel | Query

  datatype Status =
    | Accepted | Active | Completed | Busy | QueueFull | Invalid | NotReady | Stale | ButtonActive
    | Interrupted | Cancelled | Timeout | WriterFailed | EndpointChanged | Range

  datatype Stage =
    | Idle | Outward | Settle | Waiting | Pressing | Hold | Releasing | ReturnDelay | Returning | Done

  predicate Terminal(s: Status) {
    !s.Accepted? && !s.Active?
  }

  /** Durations are in microseconds; `midpoint` asks for a bounded wait before the action. */
  datatype MoveRequest = MoveRequest(
    operation: Operation, midpoint: bool, button: nat, key: Key, epoch: nat, generation: nat,
    dx: int, dy: int, settle: nat, press: nat, back: nat, budget: nat, wait: nat)

  /** `uncertain`, `pressed` and `released` are the flag bits 1, 2 and 4. */
  datatype Ack = Ack(
    status: Status, stage: Stage, uncertain: bool, pressed: bool, released: bool,
    key: Key, epoch: nat, generation: nat, outX: int, outY: int, returnX: int, returnY: int,
    residualX: int, residualY: int, written: nat)

  const NoAck: Ack := Ack(Invalid, Idle, false, false, false, NoKey, 0, 0, 0, 0, 0, 0, 0, 0, 0)

  const NoRequest: MoveRequest :=
    MoveRequest(Execute, false, 0, NoKey, 0, 0, 0, 0, 1000, 10000, 0, 2000000, 1000000)

  /** What the server sees of the endpoint; any handler may hold an outdated one. */
  datatype Snapshot = Snapshot(
    ready: bool, generation: nat, activity: nat, poll: nat,
    physical: bv8, persistent: bv8, scheduled: bv8, supported: bv8,
    xmin: int, xmax: int, ymin: int, ymax: int, outputQueue: nat, syntheticPending: nat)
}
