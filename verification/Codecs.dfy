/** The packets of the transaction and click protocols. */
module Codecs {
  import opened Common
  import opened Wire
  import M = MoveTypes
  import C = ClickTypes

  const U8 := 0x100
  const U16 := 0x1_0000
  const U32 := 0x1_0000_0000
  const U64 := 0x1_0000_0000_0000_0000

  /** The four letters that open a packet, as one number. */
  const UPM1 := 0x5550_4D31
  const UPR1 := 0x5550_5231
  const UPC1 := 0x5550_4331
  const UPA1 := 0x5550_4131

  lemma Powers()
    ensures Pow256(1) == U8 && Pow256(2) == U16 && Pow256(4) == U32 && Pow256(8) == U64
    ensures Pow256(12) >= 1 && Pow256(24) >= 1
  {
    assert Pow256(3) == 0x100 * U16;
    assert Pow256(5) == 0x100 * U32 && Pow256(6) == 0x1_0000 * U32 && Pow256(7) == 0x100_0000 * U32;
    PowerIsPositive(12);
    PowerIsPositive(24);
  }

  lemma {:induction false} PowerIsPositive(width: nat)
    ensures Pow256(width) >= 1
  {
    if width > 0 {
      PowerIsPositive(width - 1);
    }
  }

  /** Two's complement in 32 bits, and back. */
  function Unsigned(n: int): nat {
    n % U32
  }

  function Signed(n: nat): int {
    if n <= 0x7fff_ffff then n else n - U32
  }

  predicate InInt32(n: int) {
    -0x8000_0000 <= n <= 0x7fff_ffff
  }

  lemma SignedUnsigned(n: int)
    requires InInt32(n)
    ensures Unsigned(n) < U32 && Signed(Unsigned(n)) == n
  {
  }

  lemma UnsignedSigned(n: nat)
    requires n < U32
    ensures InInt32(Signed(n)) && Unsigned(Signed(n)) == n
  {
  }

  // ---------------------------------------------------------------- transaction requests

  const MOVE_WIDTHS: seq<nat> := [4, 1, 1, 1, 1, 8, 8, 8, 8, 4, 4, 4, 4, 4, 4, 4, 12]

  function OperationCode(o: M.Operation): nat {
    match o
    case Execute => 1
    case Continue => 2
    case Cancel => 3
    case Query => 4
  }

  function OperationOf(code: nat): M.Operation {
    if code == 1 then M.Execute else if code == 2 then M.Continue else if code == 3 then M.Cancel else M.Query
  }

  function MoveValues(r: M.MoveRequest): seq<nat> {
    [UPM1, 1, OperationCode(r.operation), if r.midpoint then 1 else 0, r.button,
     r.key.session, r.key.command, r.epoch, r.generation, Unsigned(r.dx), Unsigned(r.dy),
     r.settle, r.press, r.back, r.budget, r.wait, 0]
  }

  /** What a request must satisfy to be accepted off the wire. */
  predicate ValidMove(r: M.MoveRequest) {
    && r.button <= 8 && 1 <= r.key.session < U64 && 1 <= r.key.command < U64
    && 1 <= r.epoch < U64 && 1 <= r.generation < U64
    && -32767 <= r.dx <= 32767 && -32767 <= r.dy <= 32767
    && r.settle <= 1000000 && r.press <= 1000000 && r.back <= 1000000
    && 1000 <= r.budget <= 5000000 && r.wait <= 2000000 && (r.midpoint ==> r.wait > 0)
  }

  function MoveOf(v: seq<nat>): M.MoveRequest
    requires |v| == |MOVE_WIDTHS|
  {
    M.MoveRequest(OperationOf(v[2]), v[3] == 1, v[4], Key(v[5], v[6]), v[7], v[8], Signed(v[9]), Signed(v[10]),
                  v[11], v[12], v[13], v[14], v[15])
  }

  /** The packet form of a request: every fixed octet and every code in range. */
  predicate MoveForm(v: seq<nat>) {
    |v| == |MOVE_WIDTHS| && v[0] == UPM1 && v[1] == 1 && 1 <= v[2] <= 4 && v[3] <= 1 && v[4] <= 8 && v[16] == 0
  }

  /** `parse` of a UPM1 packet. */
  function ParseMove(b: Bytes): Option<M.MoveRequest> {
    if |b| != Total(MOVE_WIDTHS) then None
    else
      var v := Decode(b, MOVE_WIDTHS);
      if !MoveForm(v) then None
      else
        var r := MoveOf(v);
        if ValidMove(r) then Some(r) else None
  }

  /** A request whose every field has a place on the wire. */
  predicate Encodable(r: M.MoveRequest) {
    && r.button < U8 && r.key.session < U64 && r.key.command < U64 && r.epoch < U64 && r.generation < U64
    && InInt32(r.dx) && InInt32(r.dy)
    && r.settle < U32 && r.press < U32 && r.back < U32 && r.budget < U32 && r.wait < U32
  }

  /** `packet` of a request. */
  function MovePacket(r: M.MoveRequest): Bytes
    requires Encodable(r)
  {
    Encode(MoveValues(r), MOVE_WIDTHS)
  }

  lemma MoveFits(r: M.MoveRequest)
    requires Encodable(r)
    ensures Fits(MoveValues(r), MOVE_WIDTHS)
  {
    Powers();
    SignedUnsigned(r.dx);
    SignedUnsigned(r.dy);
    hide Pow256, Unsigned, OperationCode;
    assert OperationCode(r.operation) <= 4 by {
      CodeRange(r.operation);
    }
  }

  lemma CodeRange(o: M.Operation)
    ensures 1 <= OperationCode(o) <= 4 && OperationOf(OperationCode(o)) == o
  {
  }

  lemma MoveOfValues(r: M.MoveRequest)
    requires Encodable(r)
    ensures MoveOf(MoveValues(r)) == r
  {
    SignedUnsigned(r.dx);
    SignedUnsigned(r.dy);
    CodeRange(r.operation);
    hide Unsigned, Signed, OperationCode, OperationOf;
  }

  lemma ValuesOfMove(v: seq<nat>)
    requires MoveForm(v) && Fits(v, MOVE_WIDTHS)
    ensures MoveValues(MoveOf(v)) == v && Encodable(MoveOf(v))
  {
    hide Unsigned, Signed, Fits, Encodable;
    MoveRanges(v);
    UnsignedSigned(v[9]);
    UnsignedSigned(v[10]);
    MoveFieldsFit(v);
  }

  lemma MoveRanges(v: seq<nat>)
    requires |v| == |MOVE_WIDTHS| && Fits(v, MOVE_WIDTHS)
    ensures v[4] < U8 && v[5] < U64 && v[6] < U64 && v[7] < U64 && v[8] < U64
    ensures v[9] < U32 && v[10] < U32 && v[11] < U32 && v[12] < U32 && v[13] < U32 && v[14] < U32 && v[15] < U32
  {
    Powers();
    hide Pow256;
    assert forall i :: 0 <= i < |v| ==> v[i] < Pow256(MOVE_WIDTHS[i]);
  }

  lemma MoveFieldsFit(v: seq<nat>)
    requires |v| == |MOVE_WIDTHS| && Fits(v, MOVE_WIDTHS) && MoveForm(v)
    ensures Encodable(MoveOf(v))
  {
    hide Unsigned, Signed, Fits;
    MoveRanges(v);
    UnsignedSigned(v[9]);
    UnsignedSigned(v[10]);
  }

  /** Parsing accepts exactly the packets of valid requests: the two directions of the round trip. */
  lemma ParseMoveIsExact(b: Bytes, r: M.MoveRequest)
    ensures ParseMove(b) == Some(r) <==> ValidMove(r) && Encodable(r) && b == MovePacket(r)
  {
    hide Encode, Decode, MoveOf, MoveValues, ValidMove, Encodable, Total;
    if ParseMove(b) == Some(r) {
      EncodeDecode(b, MOVE_WIDTHS);
      ValuesOfMove(Decode(b, MOVE_WIDTHS));
    }
    if ValidMove(r) && Encodable(r) && b == MovePacket(r) {
      MoveFits(r);
      DecodeEncode(MoveValues(r), MOVE_WIDTHS);
      MoveOfValues(r);
      FormOfMove(r);
    }
  }

  lemma FormOfMove(r: M.MoveRequest)
    requires Encodable(r) && ValidMove(r)
    ensures Fits(MoveValues(r), MOVE_WIDTHS) && MoveForm(MoveValues(r))
  {
    MoveFits(r);
    CodeRange(r.operation);
    hide Pow256, Unsigned, OperationCode, Fits;
  }

  /** `same`: two requests have the same packet, but for the operation, exactly when all other fields agree. */
  lemma SameIffFieldsAgree(a: M.MoveRequest, b: M.MoveRequest)
    requires Encodable(a) && Encodable(b)
    ensures MovePacket(a.(operation := M.Execute)) == MovePacket(b.(operation := M.Execute))
            <==> a.(operation := M.Execute) == b.(operation := M.Execute)
  {
    hide Encode, Decode, MoveOf, MoveValues, Total;
    var x, y := a.(operation := M.Execute), b.(operation := M.Execute);
    MoveFits(x);
    MoveFits(y);
    DecodeEncode(MoveValues(x), MOVE_WIDTHS);
    DecodeEncode(MoveValues(y), MOVE_WIDTHS);
    MoveOfValues(x);
    MoveOfValues(y);
  }

  // ---------------------------------------------------------------- transaction replies

  const REPLY_WIDTHS: seq<nat> := [4, 1, 1, 1, 1, 8, 8, 8, 8, 4, 4, 4, 4, 4, 4, 8, 24]

  function StatusCode(s: M.Status): nat {
    match s
    case Accepted => 1
    case Active => 2
    case Completed => 3
    case Busy => 4
    case QueueFull => 5
    case Invalid => 6
    case NotReady => 7
    case Stale => 8
    case ButtonActive => 9
    case Interrupted => 10
    case Cancelled => 11
    case Timeout => 12
    case WriterFailed => 13
    case EndpointChanged => 14
    case Range => 15
  }

  const STATUSES: seq<M.Status> := [
    M.Accepted, M.Active, M.Completed, M.Busy, M.QueueFull, M.Invalid, M.NotReady, M.Stale, M.ButtonActive,
    M.Interrupted, M.Cancelled, M.Timeout, M.WriterFailed, M.EndpointChanged, M.Range]

  function StageCode(s: M.Stage): nat {
    match s
    case Idle => 0
    case Outward => 1
    case Settle => 2
    case Waiting => 3
    case Pressing => 4
    case Hold => 5
    case Releasing => 6
    case ReturnDelay => 7
    case Returning => 8
    case Done => 9
  }

  const STAGES: seq<M.Stage> := [
    M.Idle, M.Outward, M.Settle, M.Waiting, M.Pressing, M.Hold, M.Releasing, M.ReturnDelay, M.Returning, M.Done]

  lemma CodesAreExact()
    ensures forall s: M.Status :: 1 <= StatusCode(s) <= 15 && STATUSES[StatusCode(s) - 1] == s
    ensures forall i :: 0 <= i < 15 ==> StatusCode(STATUSES[i]) == i + 1
    ensures forall s: M.Stage :: StageCode(s) <= 9 && STAGES[StageCode(s)] == s
    ensures forall i :: 0 <= i < 10 ==> StageCode(STAGES[i]) == i
  {
  }

  function Flags(a: M.Ack): nat {
    (if a.uncertain then 1 else 0) + (if a.pressed then 2 else 0) + if a.released then 4 else 0
  }

  function ReplyValues(a: M.Ack): seq<nat> {
    [UPR1, 1, StatusCode(a.status), StageCode(a.stage), Flags(a), a.key.session, a.key.command, a.epoch, a.generation,
     Unsigned(a.outX), Unsigned(a.outY), Unsigned(a.returnX), Unsigned(a.returnY),
     Unsigned(a.residualX), Unsigned(a.residualY), a.written, 0]
  }

  predicate ReplyEncodable(a: M.Ack) {
    && a.key.session < U64 && a.key.command < U64 && a.epoch < U64 && a.generation < U64 && a.written < U64
    && InInt32(a.outX) && InInt32(a.outY) && InInt32(a.returnX) && InInt32(a.returnY)
    && InInt32(a.residualX) && InInt32(a.residualY)
  }

  predicate ReplyForm(v: seq<nat>) {
    |v| == |REPLY_WIDTHS| && v[0] == UPR1 && v[1] == 1 && 1 <= v[2] <= 15 && v[3] <= 9 && v[4] <= 7 && v[16] == 0
  }

  function ReplyOf(v: seq<nat>): M.Ack
    requires ReplyForm(v)
  {
    M.Ack(STATUSES[v[2] - 1], STAGES[v[3]], v[4] % 2 == 1, v[4] / 2 % 2 == 1, v[4] / 4 == 1,
          Key(v[5], v[6]), v[7], v[8], Signed(v[9]), Signed(v[10]), Signed(v[11]), Signed(v[12]),
          Signed(v[13]), Signed(v[14]), v[15])
  }

  function ReplyPacket(a: M.Ack): Bytes {
    Encode(ReplyValues(a), REPLY_WIDTHS)
  }

  /** `parse_ack` of a UPR1 packet. */
  function ParseReply(b: Bytes): Option<M.Ack> {
    if |b| != Total(REPLY_WIDTHS) then None
    else
      var v := Decode(b, REPLY_WIDTHS);
      if !ReplyForm(v) then None
      else
        var a := ReplyOf(v);
        if a.key.session != 0 && a.key.command != 0 && a.epoch != 0 then Some(a) else None
  }

  lemma ReplyFits(a: M.Ack)
    requires ReplyEncodable(a)
    ensures Fits(ReplyValues(a), REPLY_WIDTHS) && ReplyForm(ReplyValues(a))
  {
    Powers();
    CodesAreExact();
    hide Pow256, Unsigned, StatusCode, StageCode;
    forall n | InInt32(n)
      ensures Unsigned(n) < U32
    {
      SignedUnsigned(n);
    }
  }

  lemma FlagsBack(a: M.Ack)
    ensures Flags(a) <= 7 && (Flags(a) % 2 == 1) == a.uncertain && (Flags(a) / 2 % 2 == 1) == a.pressed
    ensures (Flags(a) / 4 == 1) == a.released
  {
  }

  lemma ReplyOfValues(a: M.Ack)
    requires ReplyEncodable(a)
    ensures ReplyForm(ReplyValues(a)) && ReplyOf(ReplyValues(a)) == a
  {
    ReplyFits(a);
    CodesAreExact();
    FlagsBack(a);
    SignedUnsigned(a.outX);
    SignedUnsigned(a.outY);
    SignedUnsigned(a.returnX);
    SignedUnsigned(a.returnY);
    SignedUnsigned(a.residualX);
    SignedUnsigned(a.residualY);
    hide Unsigned, Signed, StatusCode, StageCode, Flags;
  }

  lemma FlagsForth(v: seq<nat>)
    requires ReplyForm(v)
    ensures Flags(ReplyOf(v)) == v[4]
  {
    hide Signed;
  }

  lemma ReplyRanges(v: seq<nat>)
    requires ReplyForm(v) && Fits(v, REPLY_WIDTHS)
    ensures v[5] < U64 && v[6] < U64 && v[7] < U64 && v[8] < U64 && v[15] < U64
    ensures v[9] < U32 && v[10] < U32 && v[11] < U32 && v[12] < U32 && v[13] < U32 && v[14] < U32
  {
    Powers();
    hide Pow256;
  }

  lemma ValuesOfReply(v: seq<nat>)
    requires ReplyForm(v) && Fits(v, REPLY_WIDTHS)
    ensures ReplyValues(ReplyOf(v)) == v && ReplyEncodable(ReplyOf(v))
  {
    hide Unsigned, Signed, StatusCode, StageCode, Flags, Fits;
    CodesAreExact();
    FlagsForth(v);
    ReplyRanges(v);
    UnsignedSigned(v[9]);
    UnsignedSigned(v[10]);
    UnsignedSigned(v[11]);
    UnsignedSigned(v[12]);
    UnsignedSigned(v[13]);
    UnsignedSigned(v[14]);
  }

  /** Parsing accepts exactly the reply packets with a session, a command and an epoch. */
  lemma ParseReplyIsExact(b: Bytes, a: M.Ack)
    ensures ParseReply(b) == Some(a) <==>
              ReplyEncodable(a) && a.key.session != 0 && a.key.command != 0 && a.epoch != 0 && b == ReplyPacket(a)
  {
    hide Encode, Decode, ReplyOf, ReplyValues, ReplyEncodable, Total, ReplyForm;
    if ParseReply(b) == Some(a) {
      EncodeDecode(b, REPLY_WIDTHS);
      ValuesOfReply(Decode(b, REPLY_WIDTHS));
    }
    if ReplyEncodable(a) && b == ReplyPacket(a) {
      ReplyFits(a);
      DecodeEncode(ReplyValues(a), REPLY_WIDTHS);
      ReplyOfValues(a);
    }
  }

  // ---------------------------------------------------------------- click requests

  const CLICK_WIDTHS: seq<nat> := [4, 1, 1, 1, 1, 8, 8, 4, 4, 4, 4]

  function ClickValues(r: C.Request): seq<nat> {
    [UPC1, r.version, if r.operation.Schedule? then 1 else 2, r.button, 0,
     r.key.session, r.key.command, r.count, r.press, r.interval, 0]
  }

  predicate ClickForm(v: seq<nat>) {
    && |v| == |CLICK_WIDTHS| && v[0] == UPC1 && (v[1] == C.VERSION1 || v[1] == C.VERSION2)
    && (v[2] == 1 || v[2] == 2) && v[4] == 0 && v[10] == 0
  }

  function ClickOf(v: seq<nat>): C.Request
    requires |v| == |CLICK_WIDTHS|
  {
    C.Request(if v[2] == 1 then C.Schedule else C.ReleaseEverything, v[3], Key(v[5], v[6]), v[7], v[8], v[9], v[1])
  }

  /** What a click request must satisfy to be accepted off the wire; a ReleaseAll carries nothing else. */
  predicate ValidClick(r: C.Request) {
    && (r.version == C.VERSION1 || r.version == C.VERSION2)
    && r.button < U8 && 1 <= r.key.session < U64 && 1 <= r.key.command < U64
    && r.count < U32 && r.press < U32 && r.interval < U32
    && (r.operation.ReleaseEverything? ==> r.button == 0 && r.count == 0 && r.press == 0 && r.interval == 0)
  }

  function ClickPacket(r: C.Request): Bytes {
    Encode(ClickValues(r), CLICK_WIDTHS)
  }

  /** `parse` of a UPC1 packet. */
  function ParseClick(b: Bytes): Option<C.Request> {
    if |b| != Total(CLICK_WIDTHS) then None
    else
      var v := Decode(b, CLICK_WIDTHS);
      if !ClickForm(v) then None
      else
        var r := ClickOf(v);
        if r.key.session == 0 || r.key.command == 0 then None
        else if r.operation.ReleaseEverything? && (r.button != 0 || r.count != 0 || r.press != 0 || r.interval != 0)
        then None
        else Some(r)
  }

  lemma ClickFits(r: C.Request)
    requires ValidClick(r)
    ensures Fits(ClickValues(r), CLICK_WIDTHS) && ClickForm(ClickValues(r)) && ClickOf(ClickValues(r)) == r
  {
    Powers();
    hide Pow256;
  }

  lemma ValuesOfClick(v: seq<nat>)
    requires ClickForm(v) && Fits(v, CLICK_WIDTHS)
    ensures ClickValues(ClickOf(v)) == v
    ensures v[3] < U8 && v[5] < U64 && v[6] < U64 && v[7] < U32 && v[8] < U32 && v[9] < U32
  {
    Powers();
    assert v[3] < U8 && v[5] < U64 && v[6] < U64 && v[7] < U32 && v[8] < U32 && v[9] < U32;
    hide Pow256;
  }

  /** Parsing accepts exactly the packets of valid click requests. */
  lemma ParseClickIsExact(b: Bytes, r: C.Request)
    ensures ParseClick(b) == Some(r) <==> ValidClick(r) && b == ClickPacket(r)
  {
    hide Encode, Decode, ClickValues, Total;
    if ParseClick(b) == Some(r) {
      EncodeDecode(b, CLICK_WIDTHS);
      ValuesOfClick(Decode(b, CLICK_WIDTHS));
    }
    if ValidClick(r) && b == ClickPacket(r) {
      ClickFits(r);
      DecodeEncode(ClickValues(r), CLICK_WIDTHS);
    }
  }

  // ---------------------------------------------------------------- click replies

  datatype ClickAck = ClickAck(
    version: nat, status: C.Status, button: nat, key: Key, accepted: nat, completed: nat, epoch: nat, depth: nat)

  const ACK_WIDTHS: seq<nat> := [4, 1, 1, 1, 1, 8, 8, 4, 4, 8, 2, 2, 4]

  function ClickStatusCode(s: C.Status): nat {
    match s
    case Accepted => 1
    case Duplicate => 2
    case Completed => 3
    case Busy => 4
    case QueueFull => 5
    case UnsupportedButton => 6
    case Invalid => 7
    case Cancelled => 8
    case ButtonActive => 9
    case NotReady => 10
    case StaleCommand => 11
  }

  const CLICK_STATUSES: seq<C.Status> := [
    C.Accepted, C.Duplicate, C.Completed, C.Busy, C.QueueFull, C.UnsupportedButton, C.Invalid, C.Cancelled,
    C.ButtonActive, C.NotReady, C.StaleCommand]

  lemma ClickCodesAreExact()
    ensures forall s: C.Status :: 1 <= ClickStatusCode(s) <= 11 && CLICK_STATUSES[ClickStatusCode(s) - 1] == s
    ensures forall i :: 0 <= i < 11 ==> ClickStatusCode(CLICK_STATUSES[i]) == i + 1
  {
  }

  function AckValues(a: ClickAck): seq<nat> {
    [UPA1, a.version, ClickStatusCode(a.status), a.button, 0, a.key.session, a.key.command,
     a.accepted, a.completed, a.epoch, a.depth, 0, 0]
  }

  predicate AckForm(v: seq<nat>) {
    && |v| == |ACK_WIDTHS| && v[0] == UPA1 && (v[1] == C.VERSION1 || v[1] == C.VERSION2)
    && 1 <= v[2] <= 11 && v[4] == 0 && v[11] == 0 && v[12] == 0
  }

  function AckOf(v: seq<nat>): ClickAck
    requires AckForm(v)
  {
    ClickAck(v[1], CLICK_STATUSES[v[2] - 1], v[3], Key(v[5], v[6]), v[7], v[8], v[9], v[10])
  }

  predicate ValidAck(a: ClickAck) {
    && (a.version == C.VERSION1 || a.version == C.VERSION2)
    && a.button < U8 && a.key.session < U64 && a.key.command < U64
    && a.accepted < U32 && a.completed < U32 && a.epoch < U64 && a.depth < U16
  }

  function AckPacket(a: ClickAck): Bytes {
    Encode(AckValues(a), ACK_WIDTHS)
  }

  /** `parse_ack` of a UPA1 packet. */
  function ParseAck(b: Bytes): Option<ClickAck> {
    if |b| != Total(ACK_WIDTHS) then None
    else
      var v := Decode(b, ACK_WIDTHS);
      if AckForm(v) then Some(AckOf(v)) else None
  }

  lemma AckFits(a: ClickAck)
    requires ValidAck(a)
    ensures Fits(AckValues(a), ACK_WIDTHS) && AckForm(AckValues(a)) && AckOf(AckValues(a)) == a
  {
    Powers();
    ClickCodesAreExact();
    hide Pow256, ClickStatusCode;
  }

  lemma ValuesOfAck(v: seq<nat>)
    requires AckForm(v) && Fits(v, ACK_WIDTHS)
    ensures AckValues(AckOf(v)) == v && ValidAck(AckOf(v))
  {
    Powers();
    ClickCodesAreExact();
    assert v[3] < U8 && v[5] < U64 && v[6] < U64 && v[7] < U32 && v[8] < U32 && v[9] < U64 && v[10] < U16;
    hide Pow256, ClickStatusCode;
  }

  /** Parsing accepts exactly the packets of well-formed click replies. */
  lemma ParseAckIsExact(b: Bytes, a: ClickAck)
    ensures ParseAck(b) == Some(a) <==> ValidAck(a) && b == AckPacket(a)
  {
    hide Encode, Decode, AckValues, AckOf, Total, AckForm;
    if ParseAck(b) == Some(a) {
      EncodeDecode(b, ACK_WIDTHS);
      ValuesOfAck(Decode(b, ACK_WIDTHS));
    }
    if ValidAck(a) && b == AckPacket(a) {
      AckFits(a);
      DecodeEncode(AckValues(a), ACK_WIDTHS);
    }
  }
}
