/** Splitting a relative command into reports that respect the native field limits. */
module Splitting {
  import opened Common
  import opened HidReport
  import MouseLayout

  const MAX_PARTS := 32
  /** The segment count the server assumes for a direction an axis cannot move in. */
  const UNREACHABLE := 1000000

  /** Axes as the descriptor parser and the boot layout produce them. */
  predicate SplittableAxes(p: Profile) {
    WellFormed(p.x) && WellFormed(p.y) && WellFormed(p.wheel) && WellFormed(p.pan)
  }

  predicate NoMotion(c: Command) {
    c.x == 0 && c.y == 0 && c.wheel == 0 && c.pan == 0
  }

  function Clamp(f: Field, n: int): int {
    if f.bits == 0 then 0 else Max(f.minimum, Min(f.maximum, n))
  }

  /** The axis is idle, or at least one step of it can be taken. */
  predicate CanTake(f: Field, n: int) {
    n == 0 || (f.bits != 0 && Clamp(f, n) != 0)
  }

  predicate CanTakeAll(p: Profile, c: Command) {
    CanTake(p.x, c.x) && CanTake(p.y, c.y) && CanTake(p.wheel, c.wheel) && CanTake(p.pan, c.pan)
  }

  function FirstPart(p: Profile, c: Command): Command {
    Command(Clamp(p.x, c.x), Clamp(p.y, c.y), Clamp(p.wheel, c.wheel), Clamp(p.pan, c.pan), c.buttons)
  }

  function Plus(a: Command, b: Command): Command {
    Command(a.x + b.x, a.y + b.y, a.wheel + b.wheel, a.pan + b.pan, a.buttons)
  }

  function Minus(a: Command, b: Command): Command {
    Command(a.x - b.x, a.y - b.y, a.wheel - b.wheel, a.pan - b.pan, a.buttons)
  }

  /** A failure further on is a failure of the whole. */
  function Extend(parts: seq<Command>, tail: seq<Command>): seq<Command> {
    if tail == [] then [] else parts + tail
  }

  /** Greedy parts using at most `budget` reports; empty when the command does not fit. */
  function Parts(p: Profile, c: Command, budget: nat): seq<Command>
    decreases budget
  {
    if budget == 0 || !CanTakeAll(p, c) then []
    else
      var first := FirstPart(p, c);
      var rest := Minus(c, first);
      if NoMotion(rest) then [first] else Extend([first], Parts(p, rest, budget - 1))
  }

  lemma ExtendTwice(a: seq<Command>, b: seq<Command>, tail: seq<Command>)
    ensures Extend(a, Extend(b, tail)) == Extend(a + b, tail)
  {
    assert a + (b + tail) == a + b + tail;
  }

  predicate ButtonsSupported(p: Profile, mask: bv8) {
    mask & !MouseLayout.AllButtons(p) == 0
  }

  function Split(p: Profile, c: Command): seq<Command> {
    if ButtonsSupported(p, c.buttons) then Parts(p, c, MAX_PARTS) else []
  }

  method SplitMouseCommand(p: Profile, command: Command) returns (result: seq<Command>)
    ensures result == Split(p, command)
  {
    hide ButtonsSupported, Parts;
    if !ButtonsSupported(p, command.buttons) {
      return [];
    }
    result := TakeParts(p, command, MAX_PARTS);
  }

  method TakeParts(p: Profile, command: Command, limit: nat) returns (result: seq<Command>)
    requires limit > 0
    ensures result == Parts(p, command, limit)
  {
    hide CanTakeAll, FirstPart, Minus, NoMotion, Extend;
    var c := command;
    result := [];
    assert Extend([], Parts(p, c, limit)) == Parts(p, c, limit) by {
      EmptyExtend(Parts(p, c, limit));
    }
    while true
      invariant |result| < limit
      invariant Parts(p, command, limit) == Extend(result, Parts(p, c, limit - |result|))
      decreases limit - |result|
    {
      if !CanTakeAll(p, c) {
        EmptyExtend(result);
        return [];
      }
      var part := FirstPart(p, c);
      var rest := Minus(c, part);
      ExtendTwice(result, [part], Parts(p, rest, limit - |result| - 1));
      ExtendOne(result, part);
      EmptyExtend(result + [part]);
      c := rest;
      result := result + [part];
      if NoMotion(c) {
        return;
      }
      if |result| == limit {
        return [];
      }
    }
  }

  lemma EmptyExtend(s: seq<Command>)
    ensures Extend([], s) == s && Extend(s, []) == []
  {
    assert [] + s == s;
  }

  lemma ExtendOne(s: seq<Command>, part: Command)
    ensures Extend(s, [part]) == s + [part]
  {
  }

  // ---------------------------------------------------------------- the sum of the parts

  function Total(parts: seq<Command>, buttons: bv8): Command {
    if parts == [] then Command(0, 0, 0, 0, buttons)
    else Plus(Total(parts[1..], buttons), parts[0]).(buttons := buttons)
  }

  lemma {:induction false} PartsSum(p: Profile, c: Command, budget: nat)
    requires Parts(p, c, budget) != []
    ensures Total(Parts(p, c, budget), c.buttons) == c
    decreases budget
  {
    var first := FirstPart(p, c);
    var rest := Minus(c, first);
    if !NoMotion(rest) {
      PartsSum(p, rest, budget - 1);
      assert ([first] + Parts(p, rest, budget - 1))[1..] == Parts(p, rest, budget - 1);
    }
  }

  /** Moves from zero towards `n` without passing it. */
  predicate Towards(step: int, n: int) {
    0 <= step <= n || n <= step <= 0
  }

  predicate PartOf(p: Profile, part: Command, c: Command) {
    && MouseLayout.AxesAccept(p, part) && part.buttons == c.buttons
    && Towards(part.x, c.x) && Towards(part.y, c.y) && Towards(part.wheel, c.wheel) && Towards(part.pan, c.pan)
  }

  lemma FirstPartFits(p: Profile, c: Command)
    requires SplittableAxes(p) && CanTakeAll(p, c)
    ensures PartOf(p, FirstPart(p, c), c)
    ensures !NoMotion(c) ==> !NoMotion(FirstPart(p, c))
  {
  }

  lemma {:induction false} PartsFit(p: Profile, c: Command, budget: nat, i: nat)
    requires SplittableAxes(p) && i < |Parts(p, c, budget)|
    ensures PartOf(p, Parts(p, c, budget)[i], c)
    decreases budget
  {
    FirstPartFits(p, c);
    if i > 0 {
      PartsFit(p, Minus(c, FirstPart(p, c)), budget - 1, i - 1);
    }
  }

  /** Parts sum to the command, respect the field limits and never overshoot. */
  lemma SplitIsExact(p: Profile, c: Command)
    requires SplittableAxes(p) && Split(p, c) != []
    ensures Total(Split(p, c), c.buttons) == c
    ensures forall i :: 0 <= i < |Split(p, c)| ==> PartOf(p, Split(p, c)[i], c)
  {
    hide ButtonsSupported;
    PartsSum(p, c, MAX_PARTS);
    forall i | 0 <= i < |Split(p, c)|
      ensures PartOf(p, Split(p, c)[i], c)
    {
      PartsFit(p, c, MAX_PARTS, i);
    }
  }

  // ---------------------------------------------------------------- how many parts

  /** The server's `segments`: reports needed to move `n` counts within the limits. */
  function Segments(n: int, minimum: int, maximum: int): int {
    if n == 0 then 0
    else
      var span := if n > 0 then maximum else -minimum;
      if span > 0 then ((if n > 0 then n else -n) + span - 1) / span else UNREACHABLE
  }

  function AxisSegments(f: Field, n: int): int {
    Segments(n, f.minimum, f.maximum)
  }

  function Longest(p: Profile, c: Command): int {
    Max(Max(AxisSegments(p.x, c.x), AxisSegments(p.y, c.y)),
        Max(AxisSegments(p.wheel, c.wheel), AxisSegments(p.pan, c.pan)))
  }

  lemma CeilingStep(n: int, s: int)
    requires s > 0 && n > 0
    ensures n <= s ==> (n + s - 1) / s == 1
    ensures n > s ==> (n + s - 1) / s == (n - s + s - 1) / s + 1
    ensures (n + s - 1) / s >= 1
  {
    if n <= s {
      QuotientUnique(n + s - 1, s, 1, n - 1);
    } else {
      var q, r := (n - 1) / s, (n - 1) % s;
      QuotientUnique(n + s - 1, s, q + 1, r);
      Scaled(q, s);
    }
  }

  lemma QuotientUnique(a: int, s: int, q: int, r: int)
    requires s > 0 && 0 <= r < s && a == q * s + r
    ensures a / s == q
  {
    var d := a / s - q;
    assert d * s == r - a % s;
    Scaled(d - 1, s);
    Scaled(d, s);
  }

  /** One greedy step lowers an axis's segment count by exactly one. */
  lemma AxisStep(f: Field, n: int)
    requires WellFormed(f)
    ensures CanTake(f, n) <==> n == 0 || (if n > 0 then f.maximum > 0 else f.minimum < 0)
    ensures CanTake(f, n) && n != 0 ==>
      AxisSegments(f, n - Clamp(f, n)) == AxisSegments(f, n) - 1
    ensures AxisSegments(f, n) >= 0 && (AxisSegments(f, n) == 0 <==> n == 0)
    ensures !CanTake(f, n) ==> AxisSegments(f, n) == UNREACHABLE
  {
    hide WellFormed;
    Range(f);
    if n > 0 && f.maximum > 0 {
      CeilingStep(n, f.maximum);
    } else if n < 0 && f.minimum < 0 {
      CeilingStep(-n, -f.minimum);
    }
  }

  lemma Range(f: Field)
    requires WellFormed(f)
    ensures f.minimum <= 0 <= f.maximum
    ensures f.bits == 0 ==> f.minimum == 0 == f.maximum
  {
  }

  lemma LongestStep(p: Profile, c: Command)
    requires SplittableAxes(p)
    ensures NoMotion(c) <==> Longest(p, c) == 0
    ensures Longest(p, c) >= 0
    ensures !CanTakeAll(p, c) ==> Longest(p, c) >= UNREACHABLE
    ensures CanTakeAll(p, c) && !NoMotion(c) ==> Longest(p, Minus(c, FirstPart(p, c))) == Longest(p, c) - 1
    ensures CanTakeAll(p, c) && NoMotion(c) ==> NoMotion(Minus(c, FirstPart(p, c)))
  {
    AxisStep(p.x, c.x);
    AxisStep(p.y, c.y);
    AxisStep(p.wheel, c.wheel);
    AxisStep(p.pan, c.pan);
    Range(p.x);
    Range(p.y);
    Range(p.wheel);
    Range(p.pan);
    hide WellFormed, AxisSegments;
  }

  lemma {:induction false} PartsCount(p: Profile, c: Command, budget: nat)
    requires SplittableAxes(p) && budget < UNREACHABLE
    ensures Parts(p, c, budget) != [] <==> budget >= 1 && Longest(p, c) <= budget
    ensures Parts(p, c, budget) != [] ==> |Parts(p, c, budget)| == Max(1, Longest(p, c))
    decreases budget
  {
    LongestStep(p, c);
    hide CanTakeAll, FirstPart, Longest, SplittableAxes, NoMotion, Minus;
    if budget > 0 && CanTakeAll(p, c) {
      var rest := Minus(c, FirstPart(p, c));
      LongestStep(p, rest);
      if !NoMotion(rest) {
        PartsCount(p, rest, budget - 1);
      }
    }
  }

  /** A command splits exactly when no axis needs more than 32 reports, and then into the most any axis needs. */
  lemma SplitCount(p: Profile, c: Command)
    requires SplittableAxes(p)
    ensures Split(p, c) != [] <==> ButtonsSupported(p, c.buttons) && Longest(p, c) <= MAX_PARTS
    ensures Split(p, c) != [] ==> |Split(p, c)| == Max(1, Longest(p, c))
  {
    hide ButtonsSupported, Longest;
    PartsCount(p, c, MAX_PARTS);
  }

  /** Greedy decomposition: what remains after the first part splits into the remaining parts. */
  lemma SplitTail(p: Profile, c: Command)
    requires SplittableAxes(p) && |Split(p, c)| > 1
    ensures Split(p, Minus(c, Split(p, c)[0])) == Split(p, c)[1..]
  {
    hide ButtonsSupported;
    var rest := Minus(c, FirstPart(p, c));
    assert Split(p, c)[1..] == Parts(p, rest, MAX_PARTS - 1);
    BudgetMonotone(p, rest, MAX_PARTS - 1);
  }

  lemma {:induction false} BudgetMonotone(p: Profile, c: Command, budget: nat)
    requires Parts(p, c, budget) != []
    ensures Parts(p, c, budget + 1) == Parts(p, c, budget)
    decreases budget
  {
    var rest := Minus(c, FirstPart(p, c));
    if !NoMotion(rest) {
      BudgetMonotone(p, rest, budget - 1);
    }
  }

  /** The server's admission test over the out and return counts of a transaction. */
  predicate AdmittedSegments(p: Profile, dx: int, dy: int) {
    && Max(AxisSegments(p.x, dx), AxisSegments(p.y, dy)) <= MAX_PARTS
    && Max(AxisSegments(p.x, -dx), AxisSegments(p.y, -dy)) <= MAX_PARTS
  }

  /** Admission makes both movement commands of a transaction splittable, and nothing weaker does. */
  lemma AdmissionIsExact(p: Profile, dx: int, dy: int)
    requires SplittableAxes(p)
    ensures AdmittedSegments(p, dx, dy) <==>
      && Split(p, Command(dx, dy, 0, 0, 0)) != []
      && Split(p, Command(-dx, -dy, 0, 0, 0)) != []
  {
    hide ButtonsSupported, Split, AxisSegments, SplittableAxes, Longest;
    NoButtonsSupported(p);
    SplitCount(p, Command(dx, dy, 0, 0, 0));
    SplitCount(p, Command(-dx, -dy, 0, 0, 0));
    LongestOfMove(p, dx, dy);
    LongestOfMove(p, -dx, -dy);
  }

  lemma LongestOfMove(p: Profile, dx: int, dy: int)
    requires SplittableAxes(p)
    ensures Longest(p, Command(dx, dy, 0, 0, 0)) == Max(AxisSegments(p.x, dx), AxisSegments(p.y, dy))
  {
    hide AxisSegments, WellFormed, CanTake;
    AxisStep(p.x, dx);
    AxisStep(p.y, dy);
    AxisStep(p.wheel, 0);
    AxisStep(p.pan, 0);
  }

  lemma NoButtonsSupported(p: Profile)
    ensures ButtonsSupported(p, 0)
  {
  }
}
