/**
 The replay filter against a reference that never forgets: every peer's last acceptance, least recent first.
 Under a clock that never runs back the filter holds exactly the unexpired among the 256 most recent.
 */
module ReplayHistory {
  import opened MotionReplay

  /**
   `recent` has one entry per peer ever accepted, least recently accepted first; `chains` are the sequence
   numbers accepted of a peer since the filter last took it up anew.
   */
  datatype World = World(entries: seq<Entry>, recent: seq<Entry>, chains: map<Peer, seq<nat>>, clock: nat)

  /** A movement datagram arrives `wait` after the previous one; `queued` says that the mixer took it. */
  datatype Label = Offer(peer: Peer, sequence: nat, wait: nat, queued: bool)

  const Begin: World := World([], [], map[], 0)

  function Step(w: World, l: Label): World {
    var now := w.clock + l.wait;
    var pruned := Prune(w.entries, now);
    if Stale(pruned, l.peer, l.sequence) || !l.queued then w.(entries := pruned, clock := now)
    else
      var known := Find(pruned, l.peer) < |pruned|;
      World(Accept(Prune(pruned, now), l.peer, l.sequence, now),
            Without(w.recent, Find(w.recent, l.peer)) + [Entry(l.peer, l.sequence, now)],
            w.chains[l.peer := if known && l.peer in w.chains then w.chains[l.peer] + [l.sequence] else [l.sequence]],
            now)
  }

  function Run(w: World, labels: seq<Label>): World
    decreases |labels|
  {
    if labels == [] then w else Run(Step(w, labels[0]), labels[1..])
  }

  function Reached(labels: seq<Label>): World {
    Run(Begin, labels)
  }

  // ---------------------------------------------------------------- the reference

  function Unexpired(entries: seq<Entry>, now: nat): seq<Entry> {
    if entries == [] then []
    else if Expired(entries[0], now) then Unexpired(entries[1..], now)
    else [entries[0]] + Unexpired(entries[1..], now)
  }

  function MostRecent(entries: seq<Entry>): seq<Entry> {
    if |entries| > MAX_PEERS then entries[|entries| - MAX_PEERS..] else entries
  }

  // ---------------------------------------------------------------- invariant

  ghost predicate Sorted(entries: seq<Entry>) {
    forall i, j :: 0 <= i < j < |entries| ==> entries[i].stamp <= entries[j].stamp
  }

  ghost predicate Distinct(entries: seq<Entry>) {
    forall i, j :: 0 <= i < j < |entries| ==> entries[i].peer != entries[j].peer
  }

  ghost predicate Suffix(a: seq<Entry>, b: seq<Entry>) {
    |a| <= |b| && a == b[|b| - |a|..]
  }

  ghost predicate ListInv(entries: seq<Entry>, recent: seq<Entry>, clock: nat) {
    && Sorted(recent) && Distinct(recent)
    && (forall i :: 0 <= i < |recent| ==> recent[i].stamp <= clock)
    && Suffix(entries, recent) && |entries| <= MAX_PEERS
    && (forall i :: 0 <= i < |recent| - |entries| ==> Expired(recent[i], clock) || |recent| - i > MAX_PEERS)
  }

  /** A tracked peer's chain rises to the sequence number its entry holds. */
  ghost predicate ChainInv(entries: seq<Entry>, chains: map<Peer, seq<nat>>) {
    forall i :: 0 <= i < |entries| ==>
      && entries[i].peer in chains
      && var chain := chains[entries[i].peer];
         chain != [] && Rising(chain) && chain[|chain| - 1] == entries[i].sequence
  }

  ghost predicate Inv(w: World) {
    ListInv(w.entries, w.recent, w.clock) && ChainInv(w.entries, w.chains)
  }

  // ---------------------------------------------------------------- pruning

  lemma {:induction false} PruneSuffix(entries: seq<Entry>, now: nat)
    ensures Suffix(Prune(entries, now), entries)
    ensures forall i :: 0 <= i < |entries| - |Prune(entries, now)| ==> Expired(entries[i], now)
    ensures Prune(Prune(entries, now), now) == Prune(entries, now)
  {
    if entries != [] && Expired(entries[0], now) {
      PruneSuffix(entries[1..], now);
    }
  }

  /** Where stamps never fall, dropping from the front drops everything expired. */
  lemma {:induction false} PruneIsFilter(entries: seq<Entry>, now: nat)
    requires Sorted(entries)
    ensures Prune(entries, now) == Unexpired(entries, now)
  {
    if entries != [] {
      if Expired(entries[0], now) {
        PruneIsFilter(entries[1..], now);
      } else {
        NothingExpired(entries, now);
      }
    }
  }

  lemma {:induction false} NothingExpired(entries: seq<Entry>, now: nat)
    requires forall i :: 0 <= i < |entries| ==> !Expired(entries[i], now)
    ensures Unexpired(entries, now) == entries
  {
    if entries != [] {
      NothingExpired(entries[1..], now);
    }
  }

  lemma {:induction false} PruneSkips(entries: seq<Entry>, k: nat, now: nat)
    requires k <= |entries| && forall i :: 0 <= i < k ==> Expired(entries[i], now)
    ensures Prune(entries, now) == Prune(entries[k..], now)
    decreases k
  {
    if k > 0 {
      PruneSkips(entries[1..], k - 1, now);
      assert entries[1..][k - 1..] == entries[k..];
    } else {
      assert entries[0..] == entries;
    }
  }

  lemma PruneKeepsList(entries: seq<Entry>, recent: seq<Entry>, clock: nat, now: nat)
    requires ListInv(entries, recent, clock) && now >= clock
    ensures ListInv(Prune(entries, now), recent, now)
  {
    PruneSuffix(entries, now);
    var pruned := Prune(entries, now);
    var gone := |recent| - |entries|;
    forall i | 0 <= i < |recent| - |pruned|
      ensures Expired(recent[i], now) || |recent| - i > MAX_PEERS
    {
      if i >= gone {
        assert entries[i - gone] == recent[i];
      }
    }
  }

  lemma PruneKeepsChains(entries: seq<Entry>, chains: map<Peer, seq<nat>>, now: nat)
    requires ChainInv(entries, chains)
    ensures ChainInv(Prune(entries, now), chains)
  {
    PruneSuffix(entries, now);
  }

  // ---------------------------------------------------------------- accepting

  /** In duplicate-free lists a peer of the suffix has the same entry in both. */
  lemma FindInSuffix(entries: seq<Entry>, recent: seq<Entry>, peer: Peer)
    requires Distinct(recent) && Suffix(entries, recent)
    ensures var i, j := Find(entries, peer), Find(recent, peer);
      if i < |entries| then j == |recent| - |entries| + i else j == |recent| || j < |recent| - |entries|
  {
    var gone := |recent| - |entries|;
    var i, j := Find(entries, peer), Find(recent, peer);
    if i < |entries| {
      assert recent[gone + i] == entries[i];
    }
    assert forall k :: gone <= k < |recent| ==> recent[k] == entries[k - gone];
  }

  /** Moving a peer to the back keeps the reference sorted and duplicate-free. */
  lemma MovedToBack(recent: seq<Entry>, entry: Entry, clock: nat)
    requires Sorted(recent) && Distinct(recent) && entry.stamp == clock
    requires forall i :: 0 <= i < |recent| ==> recent[i].stamp <= clock
    ensures var moved := Without(recent, Find(recent, entry.peer)) + [entry];
      && Sorted(moved) && Distinct(moved)
      && (forall i :: 0 <= i < |moved| ==> moved[i].stamp <= clock)
  {
    var j := Find(recent, entry.peer);
    var left := Without(recent, j);
    forall i | 0 <= i < |left|
      ensures left[i] == recent[if i < j then i else i + 1] && left[i].peer != entry.peer
    {
    }
  }

  lemma SuffixOfBoth(a: seq<Entry>, b: seq<Entry>, i: nat)
    requires Suffix(a, b) && i < |a|
    ensures Suffix(Without(a, i), Without(b, |b| - |a| + i))
  {
  }

  lemma SuffixBehind(a: seq<Entry>, b: seq<Entry>, j: nat)
    requires Suffix(a, b) && (j < |b| - |a| || j == |b|)
    ensures Suffix(a, Without(b, j))
  {
  }

  lemma SuffixGrows(a: seq<Entry>, b: seq<Entry>, e: Entry)
    requires Suffix(a, b)
    ensures Suffix(a + [e], b + [e]) && (a != [] ==> Suffix(a[1..] + [e], b + [e]))
  {
  }

  /** The filter stays the back of the reference; it lets go of its front only when it is full. */
  lemma AcceptKeepsSuffix(entries: seq<Entry>, recent: seq<Entry>, entry: Entry)
    requires Distinct(recent) && Suffix(entries, recent) && |entries| <= MAX_PEERS
    ensures var after := Accept(entries, entry.peer, entry.sequence, entry.stamp);
      var j := Find(recent, entry.peer);
      var moved := Without(recent, j) + [entry];
      var gone := |recent| - |entries|;
      && Suffix(after, moved) && |after| <= MAX_PEERS
      && (|after| == MAX_PEERS || |moved| - |after| == if j < gone then gone - 1 else gone)
  {
    hide Find, Distinct, Suffix;
    FindInSuffix(entries, recent, entry.peer);
    var i, j := Find(entries, entry.peer), Find(recent, entry.peer);
    if i < |entries| {
      SuffixOfBoth(entries, recent, i);
      SuffixGrows(Without(entries, i), Without(recent, j), entry);
    } else {
      SuffixBehind(entries, recent, j);
      SuffixGrows(entries, Without(recent, j), entry);
    }
  }

  lemma AcceptKeepsList(entries: seq<Entry>, recent: seq<Entry>, entry: Entry)
    requires ListInv(entries, recent, entry.stamp)
    ensures ListInv(Accept(entries, entry.peer, entry.sequence, entry.stamp),
                    Without(recent, Find(recent, entry.peer)) + [entry], entry.stamp)
  {
    hide Accept, Sorted, Distinct, Suffix;
    var j := Find(recent, entry.peer);
    var after := Accept(entries, entry.peer, entry.sequence, entry.stamp);
    var moved := Without(recent, j) + [entry];
    MovedToBack(recent, entry, entry.stamp);
    AcceptKeepsSuffix(entries, recent, entry);
    var gone := |recent| - |entries|;
    forall k | 0 <= k < |moved| - |after|
      ensures Expired(moved[k], entry.stamp) || |moved| - k > MAX_PEERS
    {
      var at := if k < j then k else k + 1;
      if at < gone {
        assert moved[k] == recent[at];
      }
    }
  }

  lemma RisingAppend(chain: seq<nat>, next: nat)
    requires chain != [] && Rising(chain) && Newer(next, chain[|chain| - 1])
    ensures Rising(chain + [next])
  {
  }

  lemma AcceptKeepsChains(entries: seq<Entry>, chains: map<Peer, seq<nat>>, entry: Entry)
    requires ChainInv(entries, chains) && !Stale(entries, entry.peer, entry.sequence) && Distinct(entries)
    ensures var known := Find(entries, entry.peer) < |entries|;
      var chain := if known && entry.peer in chains then chains[entry.peer] + [entry.sequence] else [entry.sequence];
      ChainInv(Accept(entries, entry.peer, entry.sequence, entry.stamp), chains[entry.peer := chain])
  {
    var i := Find(entries, entry.peer);
    var after := Accept(entries, entry.peer, entry.sequence, entry.stamp);
    if i < |entries| {
      RisingAppend(chains[entry.peer], entry.sequence);
    }
    forall k | 0 <= k < |after| - 1
      ensures after[k] in entries && after[k].peer != entry.peer
    {
      var at := if i < |entries| && k >= i then k + 1 else if |after| == |entries| && i == |entries| then k + 1 else k;
      assert after[k] == entries[at];
    }
    assert after[|after| - 1] == entry;
  }

  lemma SuffixDistinct(entries: seq<Entry>, recent: seq<Entry>)
    requires Distinct(recent) && Suffix(entries, recent)
    ensures Distinct(entries)
  {
  }

  lemma StepKeepsInv(w: World, l: Label)
    requires Inv(w)
    ensures Inv(Step(w, l))
  {
    hide Stale, Accept, Find, Without, ChainInv;
    var now := w.clock + l.wait;
    var pruned := Prune(w.entries, now);
    PruneKeepsList(w.entries, w.recent, w.clock, now);
    PruneKeepsChains(w.entries, w.chains, now);
    PruneSuffix(w.entries, now);
    hide Prune;
    SuffixDistinct(pruned, w.recent);
    if !Stale(pruned, l.peer, l.sequence) && l.queued {
      var entry := Entry(l.peer, l.sequence, now);
      AcceptKeepsList(pruned, w.recent, entry);
      AcceptKeepsChains(pruned, w.chains, entry);
      hide ListInv;
    }
  }

  lemma {:induction false} RunKeepsInv(w: World, labels: seq<Label>)
    requires Inv(w)
    ensures Inv(Run(w, labels))
    decreases |labels|
  {
    hide Inv, Step;
    if labels != [] {
      StepKeepsInv(w, labels[0]);
      RunKeepsInv(Step(w, labels[0]), labels[1..]);
    }
  }

  lemma ReachedInv(labels: seq<Label>)
    ensures Inv(Reached(labels))
  {
    assert Inv(Begin);
    RunKeepsInv(Begin, labels);
  }

  // ---------------------------------------------------------------- every run

  /** Pruned at any later time, the filter is the unexpired part of the 256 most recently accepted peers. */
  lemma FilterIsMostRecent(labels: seq<Label>, now: nat)
    requires now >= Reached(labels).clock
    ensures var w := Reached(labels);
      Prune(w.entries, now) == Unexpired(MostRecent(w.recent), now)
  {
    ReachedInv(labels);
    var w := Reached(labels);
    hide Reached, ChainInv;
    var all := MostRecent(w.recent);
    var k := |all| - |w.entries|;
    assert all[k..] == w.entries;
    forall i | 0 <= i < k
      ensures Expired(all[i], now)
    {
      assert all[i] == w.recent[|w.recent| - |all| + i];
    }
    PruneSkips(all, k, now);
    PruneIsFilter(all, now);
  }

  /** Every entry older than a fully advanced chain of fewer than 2^31 is refused, in any order and after any delay. */
  lemma AcceptedSequencesStayStale(labels: seq<Label>, peer: Peer, i: nat, now: nat)
    requires var w := Reached(labels);
      && now >= w.clock && Find(Prune(w.entries, now), peer) < |Prune(w.entries, now)|
      && peer in w.chains && i < |w.chains[peer]| && Advance(w.chains[peer]) < HALF
    ensures var w := Reached(labels);
      Stale(Prune(w.entries, now), peer, w.chains[peer][i])
  {
    ReachedInv(labels);
    var w := Reached(labels);
    PruneKeepsChains(w.entries, w.chains, now);
    hide Reached;
    var pruned := Prune(w.entries, now);
    var at := Find(pruned, peer);
    assert pruned[at].peer == peer;
    EarlierIsNotNewer(w.chains[peer], i);
  }

  /** Exactly which accepted numbers of a tracked peer are refused: those the chain has not left by more than 2^31. */
  lemma AcceptedIsStaleIff(labels: seq<Label>, peer: Peer, i: nat, now: nat)
    requires var w := Reached(labels);
      && now >= w.clock && Find(Prune(w.entries, now), peer) < |Prune(w.entries, now)|
      && peer in w.chains && i < |w.chains[peer]|
    ensures var w := Reached(labels);
      Stale(Prune(w.entries, now), peer, w.chains[peer][i]) <==> Advance(w.chains[peer][i..]) % WRAP <= HALF
  {
    ReachedInv(labels);
    var w := Reached(labels);
    PruneKeepsChains(w.entries, w.chains, now);
    hide Reached;
    var pruned := Prune(w.entries, now);
    var at := Find(pruned, peer);
    assert pruned[at].peer == peer;
    StartIsRefused(w.chains[peer][i..]);
  }

  // ---------------------------------------------------------------- a number that comes back

  const SENDER: Peer := Peer(1, 1)

  /** Three datagrams of one peer that go more than halfway around the numbers. */
  const HALFWAY: seq<Label> := [
    Offer(SENDER, 0, 0, true), Offer(SENDER, HALF - 1, 0, true), Offer(SENDER, HALF + 1, 0, true)]

  /** What one newer datagram makes of the peer's entry and chain. */
  lemma Offered(w: World, sequence: nat, chain: seq<nat>)
    requires w.clock == 0 && w.recent == w.entries
    requires if chain == [] then w.entries == []
             else
               && w.entries == [Entry(SENDER, chain[|chain| - 1], 0)] && SENDER in w.chains && w.chains[SENDER] == chain
               && Newer(sequence, chain[|chain| - 1])
    ensures var v := Step(w, Offer(SENDER, sequence, 0, true));
      && v.clock == 0 && v.recent == v.entries && v.entries == [Entry(SENDER, sequence, 0)]
      && SENDER in v.chains && v.chains[SENDER] == chain + [sequence]
  {
  }

  lemma RunsThree(w: World, a: Label, b: Label, c: Label)
    ensures Run(w, [a, b, c]) == Step(Step(Step(w, a), b), c)
  {
    hide Step;
    assert [a, b, c][1..] == [b, c] && [b, c][1..] == [c] && [c][1..] == [];
    assert Run(w, [a, b, c]) == Run(Step(w, a), [b, c]) == Run(Step(Step(w, a), b), [c]);
  }

  /** After them the first number is taken for new: the datagram would move the mouse again. */
  lemma HalfwayLooksNew()
    ensures var w := Reached(HALFWAY);
      && SENDER in w.chains && w.chains[SENDER] == [0, HALF - 1, HALF + 1]
      && Find(Prune(w.entries, 0), SENDER) < |Prune(w.entries, 0)|
      && !Stale(Prune(w.entries, 0), SENDER, 0)
  {
    hide Step, Run;
    var w1 := Step(Begin, HALFWAY[0]);
    var w2 := Step(w1, HALFWAY[1]);
    Offered(Begin, 0, []);
    assert [] + [0] == [0];
    Offered(w1, HALF - 1, [0]);
    Offered(w2, HALF + 1, [0, HALF - 1]);
    RunsThree(Begin, HALFWAY[0], HALFWAY[1], HALFWAY[2]);
  }
}
