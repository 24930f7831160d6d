/**
 The replay filter for plain movement datagrams: the last accepted sequence number of up to 256 recent peers,
 compared by the serial number arithmetic of section 3.2 of RFC 1982.
 */
module MotionReplay {

  const MAX_PEERS := 256
  /** Ten minutes, in nanoseconds. */
  const RETENTION := 600000000000
  const WRAP := 0x1_0000_0000
  const HALF := 0x8000_0000

  datatype Peer = Peer(address: nat, port: nat)

  datatype Entry = Entry(peer: Peer, sequence: nat, stamp: nat)

  // ---------------------------------------------------------------- serial numbers

  /** How far `a` lies ahead of `b`, modulo 2^32. */
  function Ahead(a: nat, b: nat): nat {
    (a - b) % WRAP
  }

  /** `sequence_newer`. */
  predicate Newer(a: nat, b: nat) {
    0 < Ahead(a, b) < HALF
  }

  /** Each number of the chain is newer than the one before. */
  ghost predicate Rising(chain: seq<nat>) {
    forall i :: 0 <= i < |chain| - 1 ==> Newer(chain[i + 1], chain[i])
  }

  /** The total advance along a chain. */
  function Advance(chain: seq<nat>): nat {
    if |chain| <= 1 then 0 else Ahead(chain[1], chain[0]) + Advance(chain[1..])
  }

  lemma AheadAdds(a: nat, b: nat, c: nat)
    ensures Ahead(c, a) == (Ahead(c, b) + Ahead(b, a)) % WRAP
  {
    var k := (c - b) / WRAP;
    var l := (b - a) / WRAP;
    assert c - a == (k + l) * WRAP + (Ahead(c, b) + Ahead(b, a));
    ModShift(Ahead(c, b) + Ahead(b, a), k + l);
  }

  lemma ModShift(x: int, k: int)
    ensures (k * WRAP + x) % WRAP == x % WRAP
  {
    var q := x / WRAP;
    assert k * WRAP + x == (k + q) * WRAP + x % WRAP;
    QuotientIs(k * WRAP + x, k + q, x % WRAP);
  }

  lemma QuotientIs(n: int, q: int, r: int)
    requires n == q * WRAP + r && 0 <= r < WRAP
    ensures n % WRAP == r
  {
    assert (n / WRAP - q) * WRAP == r - n % WRAP;
  }

  lemma {:induction false} TailAdvance(chain: seq<nat>, i: nat)
    requires i < |chain|
    ensures Advance(chain[i..]) <= Advance(chain)
    decreases i
  {
    if i > 0 {
      TailAdvance(chain[1..], i - 1);
      assert chain[1..][i - 1..] == chain[i..];
    } else {
      assert chain[0..] == chain;
    }
  }

  /** The distance over a chain is its advance, wraps and all. */
  lemma {:induction false} WrappedDistance(chain: seq<nat>)
    requires chain != []
    ensures Ahead(chain[|chain| - 1], chain[0]) == Advance(chain) % WRAP
    decreases |chain|
  {
    if |chain| > 1 {
      var rest, first := Advance(chain[1..]), Ahead(chain[1], chain[0]);
      WrappedDistance(chain[1..]);
      AheadAdds(chain[0], chain[1], chain[|chain| - 1]);
      assert rest + first == rest / WRAP * WRAP + (rest % WRAP + first);
      ModShift(rest % WRAP + first, rest / WRAP);
    } else {
      assert chain[0] - chain[0] == 0;
    }
  }

  /** Exactly how far a chain must have gone for its start to be refused. */
  lemma StartIsRefused(chain: seq<nat>)
    requires chain != []
    ensures !Newer(chain[0], chain[|chain| - 1]) <==> Advance(chain) % WRAP <= HALF
  {
    var d := Advance(chain) % WRAP;
    var back := Ahead(chain[0], chain[|chain| - 1]);
    WrappedDistance(chain);
    AheadAdds(chain[0], chain[|chain| - 1], chain[0]);
    assert Ahead(chain[0], chain[0]) == 0;
    if 0 < back + d < WRAP {
      QuotientIs(back + d, 0, back + d);
    } else if back + d >= WRAP {
      QuotientIs(back + d, 1, back + d - WRAP);
    }
  }

  /** No number of a chain is newer than the chain's end while the total advance stays below 2^31. */
  lemma EarlierIsNotNewer(chain: seq<nat>, i: nat)
    requires i < |chain| && Advance(chain) < HALF
    ensures !Newer(chain[i], chain[|chain| - 1])
  {
    TailAdvance(chain, i);
    StartIsRefused(chain[i..]);
  }

  // ---------------------------------------------------------------- the tracker

  predicate Expired(e: Entry, now: nat) {
    now >= e.stamp && now - e.stamp > RETENTION
  }

  /** Drops expired entries from the front, up to the first that is not. */
  function Prune(entries: seq<Entry>, now: nat): seq<Entry> {
    if entries != [] && Expired(entries[0], now) then Prune(entries[1..], now) else entries
  }

  /** The place of a peer, searched from the back; the length of the list when it is absent. */
  function Find(entries: seq<Entry>, peer: Peer): (i: nat)
    ensures i <= |entries| && (i < |entries| ==> entries[i].peer == peer)
    ensures forall j :: i < j < |entries| ==> entries[j].peer != peer
    ensures i == |entries| ==> forall j :: 0 <= j < |entries| ==> entries[j].peer != peer
  {
    FindBefore(entries, |entries|, peer)
  }

  function FindBefore(entries: seq<Entry>, end: nat, peer: Peer): (i: nat)
    requires end <= |entries|
    ensures i <= |entries| && (i < |entries| ==> i < end && entries[i].peer == peer)
    ensures forall j :: i < j < end ==> entries[j].peer != peer
    ensures i == |entries| ==> forall j :: 0 <= j < end ==> entries[j].peer != peer
  {
    if end == 0 then |entries|
    else if entries[end - 1].peer == peer then end - 1 else FindBefore(entries, end - 1, peer)
  }

  function Without(entries: seq<Entry>, i: nat): seq<Entry> {
    if i < |entries| then entries[..i] + entries[i + 1..] else entries
  }

  predicate Stale(pruned: seq<Entry>, peer: Peer, sequence: nat) {
    var i := Find(pruned, peer);
    i < |pruned| && !Newer(sequence, pruned[i].sequence)
  }

  /** `accept` on a pruned list. */
  function Accept(pruned: seq<Entry>, peer: Peer, sequence: nat, now: nat): seq<Entry> {
    var i := Find(pruned, peer);
    var entry := Entry(peer, sequence, now);
    if i < |pruned| then Without(pruned, i) + [entry]
    else if |pruned| >= MAX_PEERS then pruned[1..] + [entry]
    else pruned + [entry]
  }

  class Tracker {
    var entries: seq<Entry>

    constructor ()
      ensures entries == []
    {
      entries := [];
    }

    method PruneEntries(now: nat)
      modifies this
      ensures entries == Prune(old(entries), now)
    {
      while entries != [] && Expired(entries[0], now)
        invariant Prune(entries, now) == Prune(old(entries), now)
        decreases |entries|
      {
        entries := entries[1..];
      }
    }

    method FindEntry(peer: Peer) returns (i: nat)
      ensures i == Find(entries, peer)
    {
      i := |entries|;
      while i > 0
        invariant i <= |entries|
        invariant Find(entries, peer) == FindBefore(entries, i, peer)
      {
        i := i - 1;
        if entries[i].peer == peer {
          return;
        }
      }
      i := |entries|;
    }

    method IsStale(peer: Peer, sequence: nat, now: nat) returns (stale: bool)
      modifies this
      ensures entries == Prune(old(entries), now) && stale == Stale(entries, peer, sequence)
    {
      PruneEntries(now);
      var i := FindEntry(peer);
      stale := i < |entries| && !Newer(sequence, entries[i].sequence);
    }

    method AcceptSequence(peer: Peer, sequence: nat, now: nat)
      modifies this
      ensures entries == Accept(Prune(old(entries), now), peer, sequence, now)
    {
      PruneEntries(now);
      var i := FindEntry(peer);
      if i < |entries| {
        entries := entries[..i] + entries[i + 1..] + [Entry(peer, sequence, now)];
        return;
      }
      if |entries| >= MAX_PEERS {
        entries := entries[1..];
      }
      entries := entries + [Entry(peer, sequence, now)];
    }
  }
}
