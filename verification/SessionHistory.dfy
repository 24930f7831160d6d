/**
 The session tracker against an unbounded map from session to highest accepted command: while no tombstone of a
 session was dropped the two agree, and a tombstone is dropped only when it is old or much retirement followed.
 */
module SessionHistory {
  import opened Common
  import opened Sessions

  /**
   `known` is the unbounded map, `dropped` the sessions whose mark was ever forgotten, `log` every retirement so
   far, and `places[i]` where the log holds tombstone `i`.
   */
  datatype World = World(
    table: Table, known: map<nat, nat>, dropped: set<nat>, log: seq<Entry>, places: seq<nat>)

  datatype Label =
    | AskStale(session: nat, command: nat, now: nat)
    | AskAdmit(session: nat, now: nat, force: bool, protected: set<nat>)
    | TellAccept(session: nat, command: nat, now: nat)

  const Begin: World := World(Empty, map[], {}, [], [])

  predicate Tracked(t: Table, session: nat) {
    Mark(t, session).Some?
  }

  // ---------------------------------------------------------------- steps

  function PrunedPlaces(retired: seq<Entry>, places: seq<nat>, now: nat): seq<nat> {
    if retired == [] || places == [] then []
    else if Expired(retired[0], now) then PrunedPlaces(retired[1..], places[1..], now)
    else [places[0]] + PrunedPlaces(retired[1..], places[1..], now)
  }

  /** Forgotten between two tables. */
  function Lost(known: map<nat, nat>, before: Table, after: Table): set<nat> {
    set s | s in known && Tracked(before, s) && !Tracked(after, s)
  }

  function PruneStep(w: World, now: nat): World
  {
    var t := PrunedTable(w.table, now);
    w.(table := t, places := PrunedPlaces(w.table.retired, w.places, now),
       dropped := w.dropped + Lost(w.known, w.table, t))
  }

  /** Admission of a session that is not active, over the chosen victim. */
  function ReviveStep(w: World, session: nat, now: nat, victim: nat): World
  {
    var j := IndexOf(w.table.retired, session);
    var u := w.table.(retired := Without(w.table.retired, j));
    var places := Without(w.places, j);
    var v := Retire(u, victim, now);
    var t := v.(active := v.active + [Revived(w.table, session, now)]);
    w.(table := t,
       known := if session in w.known then w.known else w.known[session := 0],
       dropped := w.dropped + Lost(w.known, w.table, t),
       log := if victim < |u.active| then w.log + [u.active[victim].(stamp := now)] else w.log,
       places := if victim < |u.active| then Newest(places + [|w.log|]) else places)
  }

  function AdmitStep(w: World, session: nat, now: nat, force: bool, protected: set<nat>): World
  {
    if Has(w.table.active, session) then w.(table := Touched(w.table, session, Mark(w.table, session).value, now))
    else
      var victim := Victim(w.table, force, protected);
      if victim.None? then w else ReviveStep(w, session, now, victim.value)
  }

  function AcceptStep(w: World, session: nat, command: nat, now: nat): World {
    w.(table := Accept(w.table, session, command, now),
       known := if session in w.known && Has(w.table.active, session)
                then w.known[session := Max(w.known[session], command)] else w.known)
  }

  function Step(w: World, l: Label): World
  {
    match l
    case AskStale(session, command, now) => PruneStep(w, now)
    case AskAdmit(session, now, force, protected) =>
      AdmitStep(PruneStep(w, now), session, now, force, protected)
    case TellAccept(session, command, now) => AcceptStep(w, session, command, now)
  }

  /** The table component of a step is the tracker's own operation. */
  lemma StepIsTracker(w: World, l: Label)
    ensures var t := Step(w, l).table;
      match l
      case AskStale(session, command, now) => t == PrunedTable(w.table, now)
      case AskAdmit(session, now, force, protected) =>
        t == Admit(PrunedTable(w.table, now), session, now, force, protected).0
      case TellAccept(session, command, now) => t == Accept(w.table, session, command, now)
  {
  }

  // ---------------------------------------------------------------- invariant

  ghost predicate Distinct(entries: seq<Entry>) {
    forall i, j :: 0 <= i < j < |entries| ==> entries[i].session != entries[j].session
  }

  ghost predicate Apart(a: seq<Entry>, b: seq<Entry>) {
    forall i, j :: 0 <= i < |a| && 0 <= j < |b| ==> a[i].session != b[j].session
  }

  ghost predicate ValidTable(t: Table) {
    && Distinct(t.active) && Distinct(t.retired) && Apart(t.active, t.retired)
    && |t.active| <= MAX_ACTIVE && |t.retired| <= MAX_RETIRED
  }

  /** Tombstones are, in order, the last retirements of their sessions. */
  ghost predicate Placed(retired: seq<Entry>, places: seq<nat>, log: seq<Entry>) {
    && |places| == |retired|
    && (forall i, j :: 0 <= i < j < |places| ==> places[i] < places[j])
    && (forall i :: 0 <= i < |places| ==>
          && places[i] < |log| && log[places[i]] == retired[i]
          && forall k :: places[i] < k < |log| ==> log[k].session != retired[i].session)
  }

  /** Marks agree with the unbounded map. */
  ghost predicate Agrees(t: Table, known: map<nat, nat>, dropped: set<nat>) {
    && (forall s :: Tracked(t, s) ==> s in known)
    && (forall s :: s in known && s !in dropped ==> Mark(t, s) == Some(known[s]))
  }

  ghost predicate Inv(w: World) {
    ValidTable(w.table) && Placed(w.table.retired, w.places, w.log) && Agrees(w.table, w.known, w.dropped)
  }

  // ---------------------------------------------------------------- members

  lemma {:induction false} PrunedMembers(entries: seq<Entry>, now: nat)
    ensures forall e :: e in Pruned(entries, now) <==> e in entries && !Expired(e, now)
    ensures |Pruned(entries, now)| <= |entries|
  {
    if entries != [] {
      PrunedMembers(entries[1..], now);
      assert entries == [entries[0]] + entries[1..];
    }
  }

  lemma {:induction false} PrunedDistinct(entries: seq<Entry>, now: nat)
    requires Distinct(entries)
    ensures Distinct(Pruned(entries, now))
  {
    if entries != [] {
      PrunedDistinct(entries[1..], now);
      PrunedMembers(entries[1..], now);
      forall e | e in entries[1..]
        ensures e.session != entries[0].session
      {
        var i :| 0 <= i < |entries| - 1 && entries[1..][i] == e;
        assert entries[i + 1] == e;
      }
      var rest := Pruned(entries[1..], now);
      forall i | 0 <= i < |rest|
        ensures rest[i].session != entries[0].session
      {
        assert rest[i] in rest;
      }
    }
  }

  lemma IndexOfMember(entries: seq<Entry>, e: Entry)
    requires Distinct(entries) && e in entries
    ensures IndexOf(entries, e.session) < |entries| && entries[IndexOf(entries, e.session)] == e
  {
    var i :| 0 <= i < |entries| && entries[i] == e;
    var k := IndexOf(entries, e.session);
    assert k == i;
  }

  /** An entry of the table. */
  predicate In(t: Table, e: Entry) {
    e in t.active || e in t.retired
  }

  lemma MarkOfMember(t: Table, e: Entry)
    requires ValidTable(t) && In(t, e)
    ensures Mark(t, e.session) == Some(e.highest)
  {
    if e in t.active {
      IndexOfMember(t.active, e);
    } else {
      IndexOfMember(t.retired, e);
      var k := IndexOf(t.retired, e.session);
      assert t.retired[k] == e;
      assert IndexOf(t.active, e.session) == |t.active|;
    }
  }

  /** The entry behind a mark. */
  function EntryOf(t: Table, session: nat): Entry
    requires Tracked(t, session)
  {
    var a := IndexOf(t.active, session);
    if a < |t.active| then t.active[a] else t.retired[IndexOf(t.retired, session)]
  }

  lemma EntryOfIsIn(t: Table, session: nat)
    requires Tracked(t, session)
    ensures In(t, EntryOf(t, session)) && EntryOf(t, session).session == session
    ensures Mark(t, session) == Some(EntryOf(t, session).highest)
  {
  }

  // ---------------------------------------------------------------- pruning

  lemma {:induction false} PrunedPlaced(retired: seq<Entry>, places: seq<nat>, log: seq<Entry>, now: nat)
    requires Placed(retired, places, log)
    ensures Placed(Pruned(retired, now), PrunedPlaces(retired, places, now), log)
    ensures forall p :: p in PrunedPlaces(retired, places, now) ==> p in places
  {
    if retired != [] {
      assert Placed(retired[1..], places[1..], log);
      PrunedPlaced(retired[1..], places[1..], log, now);
      var rest := PrunedPlaces(retired[1..], places[1..], now);
      forall i | 0 <= i < |rest|
        ensures places[0] < rest[i]
      {
        assert rest[i] in places[1..];
        var k :| 0 <= k < |places| - 1 && places[1..][k] == rest[i];
        assert places[k + 1] == rest[i];
      }
      assert places == [places[0]] + places[1..];
    }
  }

  lemma PruneKeepsValid(t: Table, now: nat)
    requires ValidTable(t)
    ensures ValidTable(PrunedTable(t, now))
    ensures forall e :: In(PrunedTable(t, now), e) ==> In(t, e)
    ensures forall e :: In(t, e) && !In(PrunedTable(t, now), e) ==> e in t.retired && Expired(e, now)
  {
    PrunedMembers(t.retired, now);
    PrunedDistinct(t.retired, now);
    var left := Pruned(t.retired, now);
    forall i, j | 0 <= i < |t.active| && 0 <= j < |left|
      ensures t.active[i].session != left[j].session
    {
      assert left[j] in t.retired;
      var k :| 0 <= k < |t.retired| && t.retired[k] == left[j];
    }
  }

  /** Marks survive wherever the entries do. */
  lemma FewerAgree(t: Table, u: Table, known: map<nat, nat>, dropped: set<nat>)
    requires ValidTable(t) && ValidTable(u) && Agrees(t, known, dropped)
    requires forall e :: In(u, e) ==> In(t, e)
    ensures Agrees(u, known, dropped + Lost(known, t, u))
  {
    forall s | Tracked(u, s)
      ensures s in known && Mark(u, s) == Mark(t, s)
    {
      EntryOfIsIn(u, s);
      MarkOfMember(t, EntryOf(u, s));
      assert Tracked(t, s);
    }
    forall s | s in known && s !in dropped + Lost(known, t, u)
      ensures Mark(u, s) == Some(known[s])
    {
      assert Mark(t, s) == Some(known[s]);
      assert Tracked(t, s);
      assert Tracked(u, s);
    }
  }

  lemma PruneKeepsInv(w: World, now: nat)
    requires Inv(w)
    ensures Inv(PruneStep(w, now))
  {
    PruneKeepsValid(w.table, now);
    PrunedPlaced(w.table.retired, w.places, w.log, now);
    FewerAgree(w.table, PrunedTable(w.table, now), w.known, w.dropped);
  }

  // ---------------------------------------------------------------- touching and reviving

  lemma WithoutMembers(entries: seq<Entry>, i: nat)
    requires Distinct(entries) && i < |entries|
    ensures Distinct(Without(entries, i))
    ensures forall e :: e in Without(entries, i) <==> e in entries && e.session != entries[i].session
  {
    var left := Without(entries, i);
    forall e | e in entries && e.session != entries[i].session
      ensures e in left
    {
      var k :| 0 <= k < |entries| && entries[k] == e;
      assert left[if k < i then k else k - 1] == e;
    }
    forall e | e in left
      ensures e in entries && e.session != entries[i].session
    {
      var k :| 0 <= k < |left| && left[k] == e;
      assert entries[if k < i then k else k + 1] == e;
    }
  }

  lemma Absent(entries: seq<Entry>, session: nat)
    requires !Has(entries, session)
    ensures forall e :: e in entries ==> e.session != session
  {
  }

  lemma NotHere(entries: seq<Entry>, session: nat)
    requires forall e :: e in entries ==> e.session != session
    ensures !Has(entries, session)
  {
  }

  lemma ApartOf(a: seq<Entry>, b: seq<Entry>)
    requires forall e, f :: e in a && f in b ==> e.session != f.session
    ensures Apart(a, b)
  {
  }

  lemma ApartMembers(a: seq<Entry>, b: seq<Entry>)
    requires Apart(a, b)
    ensures forall e, f :: e in a && f in b ==> e.session != f.session
  {
  }

  /** Every entry keeps the mark its session had, but for the entry `r`. */
  ghost predicate Similar(t: Table, u: Table, r: Entry) {
    forall e :: In(u, e) ==> e == r || (Tracked(t, e.session) && Mark(t, e.session).value == e.highest && e.session != r.session)
  }

  /** The unbounded map follows when `r` carries what it now says of its session. */
  lemma SimilarAgrees(t: Table, u: Table, r: Entry, known: map<nat, nat>, after: map<nat, nat>, dropped: set<nat>)
    requires ValidTable(u) && Agrees(t, known, dropped) && Similar(t, u, r) && In(u, r)
    requires r.session in after && (forall s :: s != r.session ==> (s in after <==> s in known))
    requires forall s :: s in known && s != r.session ==> after[s] == known[s]
    requires r.session !in dropped ==> r.highest == after[r.session]
    ensures Agrees(u, after, dropped + Lost(known, t, u))
  {
    MarkOfMember(u, r);
    forall s | Tracked(u, s)
      ensures s in after && (s != r.session ==> Mark(u, s) == Mark(t, s))
    {
      EntryOfIsIn(u, s);
    }
    forall s | s in after && s !in dropped + Lost(known, t, u)
      ensures Mark(u, s) == Some(after[s])
    {
      if s != r.session {
        assert Mark(t, s) == Some(known[s]);
        assert Tracked(t, s) && Tracked(u, s);
      }
    }
  }

  /** Replacing an active session's entry behind the others. */
  lemma TouchedValid(t: Table, session: nat, highest: nat, now: nat)
    requires ValidTable(t) && Has(t.active, session)
    ensures var u := Touched(t, session, highest, now);
      ValidTable(u) && Similar(t, u, Entry(session, highest, now)) && In(u, Entry(session, highest, now))
    ensures Touched(t, session, highest, now).retired == t.retired
  {
    var i := IndexOf(t.active, session);
    var r := Entry(session, highest, now);
    WithoutMembers(t.active, i);
    ApartMembers(t.active, t.retired);
    var u := Touched(t, session, highest, now);
    ApartOf(u.active, u.retired);
    forall e | In(u, e) && e != r
      ensures Tracked(t, e.session) && Mark(t, e.session).value == e.highest && e.session != session
    {
      MarkOfMember(t, e);
    }
  }

  lemma AcceptKeepsInv(w: World, session: nat, command: nat, now: nat)
    requires Inv(w)
    ensures Inv(AcceptStep(w, session, command, now))
  {
    if Has(w.table.active, session) {
      var mark := Mark(w.table, session).value;
      var r := Entry(session, Max(mark, command), now);
      TouchedValid(w.table, session, r.highest, now);
      var v := AcceptStep(w, session, command, now);
      assert Tracked(w.table, session);
      SimilarAgrees(w.table, v.table, r, w.known, v.known, w.dropped);
      NothingLost(w.known, w.table, v.table, r);
    }
  }

  lemma TouchForgetsNobody(t: Table, arriving: nat, highest: nat, now: nat, session: nat)
    requires ValidTable(t) && Has(t.active, arriving) && Tracked(t, session)
    ensures Tracked(Touched(t, arriving, highest, now), session)
  {
    WithoutMembers(t.active, IndexOf(t.active, arriving));
    var u := Touched(t, arriving, highest, now);
    TouchedValid(t, arriving, highest, now);
    EntryOfIsIn(t, session);
    var e := if session == arriving then Entry(arriving, highest, now) else EntryOf(t, session);
    assert In(u, e);
    MarkOfMember(u, e);
  }

  lemma NothingLost(known: map<nat, nat>, t: Table, u: Table, r: Entry)
    requires ValidTable(t) && Has(t.active, r.session) && u == Touched(t, r.session, r.highest, r.stamp)
    ensures Lost(known, t, u) == {}
  {
    forall s | Tracked(t, s)
      ensures Tracked(u, s)
    {
      TouchForgetsNobody(t, r.session, r.highest, r.stamp, s);
    }
  }

  /** A list without one place, with its places. */
  lemma WithoutPlaced(retired: seq<Entry>, places: seq<nat>, log: seq<Entry>, j: nat)
    requires Placed(retired, places, log)
    ensures Placed(Without(retired, j), Without(places, j), log)
  {
    var left, at := Without(retired, j), Without(places, j);
    forall i | 0 <= i < |at|
      ensures left[i] == retired[if i < j then i else i + 1] && at[i] == places[if i < j then i else i + 1]
    {
    }
  }

  lemma NewestPlaced(retired: seq<Entry>, places: seq<nat>, log: seq<Entry>)
    requires Placed(retired, places, log)
    ensures Placed(Newest(retired), Newest(places), log)
  {
    hide Placed;
    if |retired| > MAX_RETIRED {
      SuffixPlaced(retired, places, log, |retired| - MAX_RETIRED);
    }
    SameLength(retired, places, log);
  }

  lemma SameLength(retired: seq<Entry>, places: seq<nat>, log: seq<Entry>)
    requires Placed(retired, places, log)
    ensures |places| == |retired|
  {
  }

  lemma SuffixPlaced(retired: seq<Entry>, places: seq<nat>, log: seq<Entry>, n: nat)
    requires Placed(retired, places, log) && n <= |retired|
    ensures |places| == |retired| && Placed(retired[n..], places[n..], log)
  {
    var r, p := retired[n..], places[n..];
    assert forall i :: 0 <= i < |p| ==> p[i] == places[n + i] && r[i] == retired[n + i];
  }

  lemma AppendPlaced(retired: seq<Entry>, places: seq<nat>, log: seq<Entry>, e: Entry)
    requires Placed(retired, places, log) && forall f :: f in retired ==> f.session != e.session
    ensures Placed(retired + [e], places + [|log|], log + [e])
  {
    var all, at, longer := retired + [e], places + [|log|], log + [e];
    forall i | 0 <= i < |at|
      ensures at[i] < |longer| && longer[at[i]] == all[i]
      ensures forall k :: at[i] < k < |longer| ==> longer[k].session != all[i].session
    {
      if i < |places| {
        assert retired[i] in retired;
      }
    }
  }

  /** The table after a tombstone was taken up for revival. */
  function Unburied(t: Table, session: nat): Table {
    t.(retired := Without(t.retired, IndexOf(t.retired, session)))
  }

  lemma UnburiedValid(t: Table, session: nat)
    requires ValidTable(t) && !Has(t.active, session)
    ensures var u := Unburied(t, session);
      && ValidTable(u)
      && (forall e :: In(u, e) <==> In(t, e) && e.session != session)
  {
    Absent(t.active, session);
    if Has(t.retired, session) {
      WithoutMembers(t.retired, IndexOf(t.retired, session));
    } else {
      Absent(t.retired, session);
    }
    ApartMembers(t.active, t.retired);
    ApartOf(t.active, Unburied(t, session).retired);
  }

  lemma NewestMembers(s: seq<Entry>)
    requires Distinct(s)
    ensures Distinct(Newest(s)) && |Newest(s)| <= MAX_RETIRED
    ensures forall e :: e in Newest(s) ==> e in s
  {
  }

  lemma RetiredValid(u: Table, victim: nat, now: nat)
    requires ValidTable(u) && victim < |u.active|
    ensures var v := Retire(u, victim, now);
      var moved := u.active[victim].(stamp := now);
      && ValidTable(v) && |v.active| == |u.active| - 1
      && v.retired == Newest(u.retired + [moved])
      && (forall e :: In(v, e) ==> e == moved || In(u, e))
      && (forall e :: In(v, e) && e.session == moved.session ==> e == moved)
  {
    var e := u.active[victim];
    var moved := e.(stamp := now);
    ApartMembers(u.active, u.retired);
    assert e in u.active;
    NotHere(u.retired, e.session);
    WithoutMembers(u.active, victim);
    var all := u.retired + [moved];
    NewestMembers(all);
    var v := Retire(u, victim, now);
    assert v.retired == Newest(all);
    ApartOf(v.active, v.retired);
  }

  lemma AppendActive(v: Table, r: Entry)
    requires ValidTable(v) && |v.active| < MAX_ACTIVE && forall e :: In(v, e) ==> e.session != r.session
    ensures ValidTable(v.(active := v.active + [r]))
    ensures forall e :: In(v.(active := v.active + [r]), e) <==> e == r || In(v, e)
  {
    ApartMembers(v.active, v.retired);
    var t := v.(active := v.active + [r]);
    forall i | 0 <= i < |v.active|
      ensures v.active[i].session != r.session
    {
      assert In(v, v.active[i]);
    }
    ApartOf(t.active, t.retired);
  }

  /** What revival leaves: the revived entry, and entries with the marks they had. */
  lemma RevivedValid(t: Table, session: nat, now: nat, victim: nat)
    requires ValidTable(t) && !Has(t.active, session)
    requires victim <= |t.active| && (victim == |t.active| ==> |t.active| < MAX_ACTIVE)
    ensures var v := Retire(Unburied(t, session), victim, now);
      var r := Revived(t, session, now);
      var u := v.(active := v.active + [r]);
      ValidTable(u) && Similar(t, u, r) && In(u, r)
  {
    var b := Unburied(t, session);
    UnburiedValid(t, session);
    var r := Revived(t, session, now);
    var v := Retire(b, victim, now);
    if victim < |b.active| {
      RetiredValid(b, victim, now);
      assert In(b, b.active[victim]);
    }
    assert forall e :: In(v, e) ==> e.session != session;
    AppendActive(v, r);
    var u := v.(active := v.active + [r]);
    forall e | In(u, e) && e != r
      ensures Tracked(t, e.session) && Mark(t, e.session).value == e.highest && e.session != session
    {
      var f := if In(b, e) then e else b.active[victim];
      assert In(b, f);
      MarkOfMember(t, f);
    }
  }

  lemma ReviveKeepsInv(w: World, session: nat, now: nat, victim: nat)
    requires Inv(w) && !Has(w.table.active, session)
    requires victim <= |w.table.active| && (victim == |w.table.active| ==> |w.table.active| < MAX_ACTIVE)
    ensures Inv(ReviveStep(w, session, now, victim))
  {
    var j := IndexOf(w.table.retired, session);
    var v := ReviveStep(w, session, now, victim);
    var r := Revived(w.table, session, now);
    RevivedValid(w.table, session, now, victim);
    SimilarAgrees(w.table, v.table, r, w.known, v.known, w.dropped);
    WithoutPlaced(w.table.retired, w.places, w.log, j);
    var u := Unburied(w.table, session);
    UnburiedValid(w.table, session);
    if victim < |u.active| {
      var moved := u.active[victim].(stamp := now);
      RetiredValid(u, victim, now);
      ApartMembers(u.active, u.retired);
      AppendPlaced(u.retired, Without(w.places, j), w.log, moved);
      NewestPlaced(u.retired + [moved], Without(w.places, j) + [|w.log|], w.log + [moved]);
    }
  }

  // ---------------------------------------------------------------- every run

  lemma AdmitKeepsInv(w: World, session: nat, now: nat, force: bool, protected: set<nat>)
    requires Inv(w)
    ensures Inv(AdmitStep(w, session, now, force, protected))
  {
    if Has(w.table.active, session) {
      var r := Entry(session, Mark(w.table, session).value, now);
      assert Tracked(w.table, session);
      TouchedValid(w.table, session, r.highest, now);
      var v := AdmitStep(w, session, now, force, protected);
      SimilarAgrees(w.table, v.table, r, w.known, w.known, w.dropped);
      NothingLost(w.known, w.table, v.table, r);
    } else {
      var victim := Victim(w.table, force, protected);
      if victim.Some? {
        ReviveKeepsInv(w, session, now, victim.value);
      }
    }
  }

  lemma StepKeepsInv(w: World, l: Label)
    requires Inv(w)
    ensures Inv(Step(w, l))
  {
    hide Inv, PruneStep, AdmitStep, AcceptStep;
    match l
    case AskStale(session, command, now) => PruneKeepsInv(w, now);
    case AskAdmit(session, now, force, protected) =>
      PruneKeepsInv(w, now);
      AdmitKeepsInv(PruneStep(w, now), session, now, force, protected);
    case TellAccept(session, command, now) => AcceptKeepsInv(w, session, command, now);
  }

  function Run(w: World, labels: seq<Label>): World
    decreases |labels|
  {
    if labels == [] then w else Run(Step(w, labels[0]), labels[1..])
  }

  lemma BeginInv()
    ensures Inv(Begin)
  {
  }

  lemma {:induction false} RunKeepsInv(w: World, labels: seq<Label>)
    requires Inv(w)
    ensures Inv(Run(w, labels))
    decreases |labels|
  {
    hide Inv, Step;
    if labels != [] {
      StepKeepsInv(w, labels[0]);
      RunKeepsInv(Step(w, labels[0]), labels[1..]);
    }
  }

  function Reached(labels: seq<Label>): World {
    Run(Begin, labels)
  }

  lemma ReachedInv(labels: seq<Label>)
    ensures Inv(Reached(labels))
  {
    BeginInv();
    RunKeepsInv(Begin, labels);
  }

  /** Bounded, duplicate-free, disjoint lists, and marks equal to the unbounded map's wherever nothing was dropped. */
  lemma TrackerRefinesMap(labels: seq<Label>)
    ensures var w := Reached(labels);
      && ValidTable(w.table)
      && (forall s :: s !in w.dropped ==>
            (s in w.known <==> Tracked(w.table, s)) && (s in w.known ==> Mark(w.table, s) == Some(w.known[s])))
  {
    ReachedInv(labels);
  }

  /** The answer about staleness is the unbounded map's, for every session never dropped. */
  lemma StaleIsExact(labels: seq<Label>, session: nat, command: nat, now: nat)
    ensures var w := Step(Reached(labels), AskStale(session, command, now));
      session !in w.dropped ==>
        (Stale(PrunedTable(Reached(labels).table, now), session, command)
         <==> session in w.known && command <= w.known[session])
  {
    ReachedInv(labels);
    var w := Reached(labels);
    PruneKeepsInv(w, now);
    hide Run, Reached;
  }

  /** The tombstone's retirement is the session's last and lies at least `MAX_RETIRED` retirements back. */
  predicate Crowded(log: seq<Entry>, k: nat) {
    k < |log| && |log| - 1 - k >= MAX_RETIRED
  }

  ghost predicate LastRetirement(log: seq<Entry>, session: nat, k: nat) {
    k < |log| && log[k].session == session && forall j :: k < j < |log| ==> log[j].session != session
  }

  lemma {:induction false} IncreasingGap(places: seq<nat>)
    requires places != [] && forall i, j :: 0 <= i < j < |places| ==> places[i] < places[j]
    ensures places[0] + |places| - 1 <= places[|places| - 1]
  {
    if |places| > 1 {
      IncreasingGap(places[1..]);
    }
  }

  /** Whoever a prune forgets was retired longer than the retention ago. */
  lemma PruneForgetsOld(w: World, session: nat, now: nat) returns (k: nat)
    requires Inv(w) && Tracked(w.table, session) && !Tracked(PrunedTable(w.table, now), session)
    ensures LastRetirement(w.log, session, k) && Expired(w.log[k], now)
    ensures forall e :: e in w.table.active ==> e.session != session
  {
    PruneKeepsValid(w.table, now);
    EntryOfIsIn(w.table, session);
    var e := EntryOf(w.table, session);
    if In(PrunedTable(w.table, now), e) {
      MarkOfMember(PrunedTable(w.table, now), e);
    }
    var i := IndexOf(w.table.retired, session);
    Absent(w.table.active, session);
    k := w.places[i];
  }

  lemma LogGrows(log: seq<Entry>, more: Entry, session: nat, k: nat)
    requires LastRetirement(log, session, k) && more.session != session
    ensures LastRetirement(log + [more], session, k) && (log + [more])[k] == log[k]
  {
  }

  lemma StillThere(t: Table, e: Entry)
    requires ValidTable(t)
    ensures In(t, e) ==> Tracked(t, e.session)
  {
    if In(t, e) {
      MarkOfMember(t, e);
    }
  }

  lemma LastInNewest(retired: seq<Entry>, moved: Entry)
    ensures moved in Newest(retired + [moved])
  {
    var all := Newest(retired + [moved]);
    assert all[|all| - 1] == moved;
  }

  lemma OthersStay(retired: seq<Entry>, moved: Entry, i: nat)
    requires |retired| <= MAX_RETIRED && i < |retired|
    ensures i > 0 || |retired| < MAX_RETIRED ==> retired[i] in Newest(retired + [moved])
  {
    var all := retired + [moved];
    assert all[i] == retired[i];
    if |all| > MAX_RETIRED && i > 0 {
      assert Newest(all)[i - 1] == retired[i];
    }
  }

  /** Only the oldest of a full list of tombstones can go, and only for a session that has none. */
  lemma RevivalDropsOldest(t: Table, session: nat, now: nat, victim: nat, lost: nat)
    requires ValidTable(t) && !Has(t.active, session) && Tracked(t, lost)
    requires victim <= |t.active| && (victim == |t.active| ==> |t.active| < MAX_ACTIVE)
    requires var v := Retire(Unburied(t, session), victim, now);
      !Tracked(v.(active := v.active + [Revived(t, session, now)]), lost)
    ensures var u := Unburied(t, session);
      && victim < |u.active| && |u.retired| == MAX_RETIRED && u.retired[0].session == lost
      && u.active[victim].session != lost && !Has(t.retired, session)
  {
    var u := Unburied(t, session);
    var r := Revived(t, session, now);
    var v := Retire(u, victim, now);
    var end := v.(active := v.active + [r]);
    UnburiedValid(t, session);
    RevivedValid(t, session, now, victim);
    MarkOfMember(end, r);
    EntryOfIsIn(t, lost);
    var e := EntryOf(t, lost);
    StillThere(end, e);
    assert In(u, e);
    if victim < |u.active| {
      var moved := u.active[victim].(stamp := now);
      RetiredValid(u, victim, now);
      LastInNewest(u.retired, moved);
      StillThere(end, moved);
      WithoutMembers(u.active, victim);
      if e in u.retired {
        var i :| 0 <= i < |u.retired| && u.retired[i] == e;
        OthersStay(u.retired, moved, i);
      }
    }
  }

  /** Whoever a revival forgets was crowded out by as many later retirements as the tracker keeps. */
  lemma RevivalForgetsCrowded(w: World, session: nat, now: nat, victim: nat, lost: nat) returns (k: nat)
    requires Inv(w) && !Has(w.table.active, session)
    requires victim <= |w.table.active| && (victim == |w.table.active| ==> |w.table.active| < MAX_ACTIVE)
    requires Tracked(w.table, lost) && !Tracked(ReviveStep(w, session, now, victim).table, lost)
    ensures var v := ReviveStep(w, session, now, victim); LastRetirement(v.log, lost, k) && Crowded(v.log, k)
    ensures !Has(w.table.retired, session)
  {
    var j := IndexOf(w.table.retired, session);
    RevivalDropsOldest(w.table, session, now, victim, lost);
    var u := Unburied(w.table, session);
    UnburiedValid(w.table, session);
    var moved := u.active[victim].(stamp := now);
    var at := Without(w.places, j) + [|w.log|];
    WithoutPlaced(w.table.retired, w.places, w.log, j);
    ApartMembers(u.active, u.retired);
    AppendPlaced(u.retired, Without(w.places, j), w.log, moved);
    IncreasingGap(at);
    k := at[0];
    assert (u.retired + [moved])[0] == u.retired[0];
    hide Inv, Retire, Newest, Tracked;
  }

  /** A mark is forgotten only past its retention or behind as many later retirements as the tracker keeps. */
  lemma ForgottenOnlyWhenOldOrCrowded(labels: seq<Label>, l: Label, session: nat)
    requires Tracked(Reached(labels).table, session) && !Tracked(Step(Reached(labels), l).table, session)
    ensures var v := Step(Reached(labels), l);
      exists k: nat :: LastRetirement(v.log, session, k) && (Expired(v.log[k], l.now) || Crowded(v.log, k))
  {
    ReachedInv(labels);
    var w := Reached(labels);
    hide Reached;
    match l
    case AskStale(_, command, now) =>
      var k := PruneForgetsOld(w, session, now);
    case AskAdmit(arriving, now, force, protected) =>
      AdmitForgets(w, arriving, now, force, protected, session);
    case TellAccept(arriving, command, now) =>
      if Has(w.table.active, arriving) {
        var r := Entry(arriving, Max(Mark(w.table, arriving).value, command), now);
        TouchForgetsNobody(w.table, arriving, r.highest, now, session);
      }
  }

  lemma AdmitForgets(w: World, arriving: nat, now: nat, force: bool, protected: set<nat>, session: nat)
    requires Inv(w) && Tracked(w.table, session)
    requires !Tracked(Step(w, AskAdmit(arriving, now, force, protected)).table, session)
    ensures var v := Step(w, AskAdmit(arriving, now, force, protected));
      exists k: nat :: LastRetirement(v.log, session, k) && (Expired(v.log[k], now) || Crowded(v.log, k))
  {
    PruneKeepsInv(w, now);
    var p := PruneStep(w, now);
    var v := Step(w, AskAdmit(arriving, now, force, protected));
    assert v == AdmitStep(p, arriving, now, force, protected);
    if !Tracked(p.table, session) {
      var k := PruneForgetsOld(w, session, now);
      assert LastRetirement(v.log, session, k) && v.log[k] == p.log[k] by {
        AdmitLog(p, arriving, now, force, protected, session, k);
      }
    } else {
      hide PruneStep, Step;
      if Has(p.table.active, arriving) {
        TouchForgetsNobody(p.table, arriving, Mark(p.table, arriving).value, now, session);
      }
      var victim := Victim(p.table, force, protected);
      var k := RevivalForgetsCrowded(p, arriving, now, victim.value, session);
    }
  }

  /** Admission appends at most the victim, an active session, to the log. */
  lemma AdmitLog(w: World, arriving: nat, now: nat, force: bool, protected: set<nat>, session: nat, k: nat)
    requires Inv(w) && LastRetirement(w.log, session, k)
    requires forall e :: e in w.table.active ==> e.session != session
    ensures var v := AdmitStep(w, arriving, now, force, protected);
      LastRetirement(v.log, session, k) && v.log[k] == w.log[k]
  {
    var v := AdmitStep(w, arriving, now, force, protected);
    if |v.log| > |w.log| {
      var victim := Victim(w.table, force, protected).value;
      assert w.table.active[victim] in w.table.active;
      LogGrows(w.log, w.table.active[victim].(stamp := now), session, k);
    }
  }

  /** Taking up a tombstone keeps its mark and forgets no other session. */
  lemma RevivalKeepsEveryMark(labels: seq<Label>, session: nat, now: nat, force: bool, protected: set<nat>, other: nat)
    requires var t := PrunedTable(Reached(labels).table, now); Has(t.retired, session) && Tracked(t, other)
    ensures var t := PrunedTable(Reached(labels).table, now);
      Mark(Admit(t, session, now, force, protected).0, other) == Mark(t, other)
  {
    ReachedInv(labels);
    var w := PruneStep(Reached(labels), now);
    PruneKeepsInv(Reached(labels), now);
    hide Reached, Inv, Run;
    AdmitKeepsMarks(w, session, now, force, protected, other);
  }

  lemma AdmitKeepsMarks(w: World, session: nat, now: nat, force: bool, protected: set<nat>, other: nat)
    requires Inv(w) && Has(w.table.retired, session) && Tracked(w.table, other)
    ensures Mark(Admit(w.table, session, now, force, protected).0, other) == Mark(w.table, other)
  {
    var t := w.table;
    assert t.retired[IndexOf(t.retired, session)].session == session;
    assert !Has(t.active, session);
    var victim := Victim(t, force, protected);
    if victim.Some? {
      RevivedValid(t, session, now, victim.value);
      var u := Admit(t, session, now, force, protected).0;
      var r := Revived(t, session, now);
      assert u == ReviveStep(w, session, now, victim.value).table;
      if !Tracked(u, other) {
        RevivalDropsOldest(t, session, now, victim.value, other);
        assert false;
      }
      EntryOfIsIn(u, other);
      assert EntryOf(u, other) != r || other == session;
      hide Inv, Admit, Victim;
    }
  }
}
