/**
 Which sessions the server remembers, and the highest command it accepted in each. Up to 32 sessions are active;
 a session that gives way to a new one leaves a tombstone with its mark.
 */
module Sessions {
  import opened Common

  const MAX_ACTIVE := 32
  const MAX_RETIRED := 256
  /** Ten minutes, in nanoseconds. */
  const RETENTION := 600000000000

  datatype Entry = Entry(session: nat, highest: nat, stamp: nat)

  /** Active sessions, least recently used first, and tombstones, oldest retirement first. */
  datatype Table = Table(active: seq<Entry>, retired: seq<Entry>)

  const Empty: Table := Table([], [])

  // ---------------------------------------------------------------- lists of entries

  /** The first place of a session, or the length of the list. */
  function IndexOf(entries: seq<Entry>, session: nat): (i: nat)
    ensures i <= |entries|
    ensures i < |entries| ==> entries[i].session == session
    ensures forall j :: 0 <= j < i ==> entries[j].session != session
  {
    if entries == [] || entries[0].session == session then 0 else 1 + IndexOf(entries[1..], session)
  }

  predicate Has(entries: seq<Entry>, session: nat) {
    IndexOf(entries, session) < |entries|
  }

  function Without<T>(s: seq<T>, i: nat): seq<T> {
    if i < |s| then s[..i] + s[i + 1..] else s
  }

  predicate Expired(e: Entry, now: nat) {
    now >= e.stamp && now - e.stamp > RETENTION
  }

  function Pruned(entries: seq<Entry>, now: nat): seq<Entry> {
    if entries == [] then []
    else if Expired(entries[0], now) then Pruned(entries[1..], now)
    else [entries[0]] + Pruned(entries[1..], now)
  }

  /** The last `MAX_RETIRED` of a list. */
  function Newest<T>(s: seq<T>): seq<T> {
    if |s| > MAX_RETIRED then s[|s| - MAX_RETIRED..] else s
  }

  // ---------------------------------------------------------------- operations

  function PrunedTable(t: Table, now: nat): Table {
    t.(retired := Pruned(t.retired, now))
  }

  /** The mark a tracked session carries. */
  function Mark(t: Table, session: nat): Option<nat> {
    var a, r := IndexOf(t.active, session), IndexOf(t.retired, session);
    if a < |t.active| then Some(t.active[a].highest)
    else if r < |t.retired| then Some(t.retired[r].highest)
    else None
  }

  predicate Stale(t: Table, session: nat, command: nat) {
    Mark(t, session).Some? && command <= Mark(t, session).value
  }

  /** The first active session that nothing protects, or the length of the list. */
  function FirstFree(active: seq<Entry>, protected: set<nat>): (i: nat)
    ensures i <= |active|
    ensures i < |active| ==> active[i].session !in protected
    ensures forall j :: 0 <= j < i ==> active[j].session in protected
  {
    if active == [] || active[0].session !in protected then 0 else 1 + FirstFree(active[1..], protected)
  }

  /** The active session that must give way, if any; `None` answers that all are protected. */
  function Victim(t: Table, force: bool, protected: set<nat>): Option<nat> {
    if |t.active| < MAX_ACTIVE then Some(|t.active|)
    else
      var i := FirstFree(t.active, protected);
      if i < |t.active| then Some(i) else if force then Some(0) else None
  }

  /** Moves active entry `i` behind the tombstones; an index past the end retires nobody. */
  function Retire(t: Table, i: nat, now: nat): Table {
    if i >= |t.active| then t
    else
      var e := t.active[i];
      var others := Without(t.retired, IndexOf(t.retired, e.session));
      Table(Without(t.active, i), Newest(others + [e.(stamp := now)]))
  }

  /** The entry a session gets when it becomes active. */
  function Revived(t: Table, session: nat, now: nat): Entry {
    Entry(session, if Mark(t, session).Some? then Mark(t, session).value else 0, now)
  }

  function Touched(t: Table, session: nat, highest: nat, now: nat): Table {
    var i := IndexOf(t.active, session);
    if i < |t.active| then t.(active := Without(t.active, i) + [Entry(session, highest, now)]) else t
  }

  /** `admit` on a pruned table. */
  function Admit(t: Table, session: nat, now: nat, force: bool, protected: set<nat>): (Table, bool) {
    if Has(t.active, session) then (Touched(t, session, Mark(t, session).value, now), true)
    else
      var victim := Victim(t, force, protected);
      if victim.None? then (t, false)
      else
        var u := t.(retired := Without(t.retired, IndexOf(t.retired, session)));
        var v := Retire(u, victim.value, now);
        (v.(active := v.active + [Revived(t, session, now)]), true)
  }

  function Accept(t: Table, session: nat, command: nat, now: nat): Table {
    if Has(t.active, session) then Touched(t, session, Max(Mark(t, session).value, command), now) else t
  }

  lemma RetireNobody(t: Table, i: nat, now: nat)
    requires i >= |t.active|
    ensures Retire(t, i, now) == t
  {
  }

  // ---------------------------------------------------------------- the object

  method FindEntry(entries: seq<Entry>, session: nat) returns (i: nat)
    ensures i == IndexOf(entries, session)
  {
    i := 0;
    while i < |entries| && entries[i].session != session
      invariant i <= |entries|
      invariant IndexOf(entries, session) == i + IndexOf(entries[i..], session)
    {
      i := i + 1;
    }
  }

  class Tracker {
    var active: seq<Entry>
    var retired: seq<Entry>

    function View(): Table
      reads this
    {
      Table(active, retired)
    }

    constructor ()
      ensures View() == Empty
    {
      active, retired := [], [];
    }

    method Prune(now: nat)
      modifies this`retired
      ensures View() == PrunedTable(old(View()), now)
    {
      var kept: seq<Entry> := [];
      var i := 0;
      while i < |retired|
        invariant i <= |retired| && retired == old(retired)
        invariant Pruned(retired, now) == kept + Pruned(retired[i..], now)
      {
        if !Expired(retired[i], now) {
          kept := kept + [retired[i]];
        }
        i := i + 1;
      }
      retired := kept;
    }

    method IsStale(session: nat, command: nat, now: nat) returns (stale: bool)
      modifies this`retired
      ensures View() == PrunedTable(old(View()), now)
      ensures stale == Stale(View(), session, command)
    {
      Prune(now);
      var i := FindEntry(active, session);
      if i < |active| {
        return command <= active[i].highest;
      }
      var j := FindEntry(retired, session);
      stale := j < |retired| && command <= retired[j].highest;
    }

    method RetireEntry(i: nat, now: nat)
      requires i < |active|
      modifies this
      ensures View() == Retire(old(View()), i, now)
    {
      hide Newest, IndexOf;
      var prior := FindEntry(retired, active[i].session);
      if prior < |retired| {
        retired := retired[..prior] + retired[prior + 1..];
      }
      var entry := active[i].(stamp := now);
      active := active[..i] + active[i + 1..];
      retired := retired + [entry];
      DropOldest();
    }

    method DropOldest()
      modifies this`retired
      ensures retired == Newest(old(retired))
    {
      ghost var all := retired;
      ghost var gone: nat := 0;
      while |retired| > MAX_RETIRED
        invariant gone <= |all| && retired == all[gone..]
        invariant gone == 0 || |all| - gone >= MAX_RETIRED
      {
        assert all[gone..][1..] == all[gone + 1..];
        retired := retired[1..];
        gone := gone + 1;
      }
    }

    method AdmitSession(session: nat, now: nat, force: bool, protected: set<nat>) returns (ok: bool)
      modifies this
      ensures (View(), ok) == Admit(PrunedTable(old(View()), now), session, now, force, protected)
    {
      hide Pruned, Retire, FirstFree;
      Prune(now);
      var i := FindEntry(active, session);
      if i < |active| {
        active := active[..i] + active[i + 1..] + [active[i].(stamp := now)];
        return true;
      }
      var victim := |active|;
      if |active| >= MAX_ACTIVE {
        victim := FindFree(protected);
        if victim == |active| {
          if !force {
            return false;
          }
          victim := 0;
        }
      }
      Revive(session, now, victim);
      ok := true;
    }

    method Revive(session: nat, now: nat, victim: nat)
      requires !Has(active, session)
      modifies this
      ensures var t := old(View());
        var v := Retire(t.(retired := Without(t.retired, IndexOf(t.retired, session))), victim, now);
        View() == v.(active := v.active + [Revived(t, session, now)])
    {
      hide Retire;
      var j := FindEntry(retired, session);
      var highest := 0;
      if j < |retired| {
        highest := retired[j].highest;
        retired := retired[..j] + retired[j + 1..];
      }
      if victim < |active| {
        RetireEntry(victim, now);
      } else {
        RetireNobody(View(), victim, now);
      }
      active := active + [Entry(session, highest, now)];
    }

    method FindFree(protected: set<nat>) returns (i: nat)
      ensures i == FirstFree(active, protected)
    {
      i := 0;
      while i < |active| && active[i].session in protected
        invariant i <= |active|
        invariant FirstFree(active, protected) == i + FirstFree(active[i..], protected)
      {
        i := i + 1;
      }
    }

    method AcceptCommand(session: nat, command: nat, now: nat)
      modifies this`active
      ensures View() == Accept(old(View()), session, command, now)
    {
      var i := FindEntry(active, session);
      if i == |active| {
        return;
      }
      var entry := Entry(session, Max(active[i].highest, command), now);
      active := active[..i] + active[i + 1..] + [entry];
    }
  }
}
