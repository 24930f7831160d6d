/** Reading a capture: hexadecimal payloads, and merging the descriptor replies recorded for each request. */
module Capture {
  import opened Common

  type Bytes = seq<octet>

  datatype Result<T> = Ok(value: T) | Err(reason: Failure)

  datatype Failure = BadLength | BadDigit | Conflict

  // ---------------------------------------------------------------- hexadecimal

  const MAX_HEX := 8192

  function Digit(c: char): (d: Option<octet>)
    ensures d.Some? ==> d.value < 16
  {
    if '0' <= c <= '9' then Some((c - '0') as int)
    else if 'a' <= c <= 'f' then Some((c - 'a') as int + 10)
    else if 'A' <= c <= 'F' then Some((c - 'A') as int + 10)
    else None
  }

  predicate AllDigits(s: string) {
    forall i :: 0 <= i < |s| ==> Digit(s[i]).Some?
  }

  /** `unhex`. */
  function Unhex(s: string): Result<Bytes> {
    if |s| % 2 != 0 || |s| > MAX_HEX then Err(BadLength)
    else if !AllDigits(s) then Err(BadDigit)
    else Ok(Pairs(s))
  }

  function Pairs(s: string): Bytes
    requires |s| % 2 == 0 && AllDigits(s)
  {
    if s == [] then [] else [Digit(s[0]).value * 16 + Digit(s[1]).value] + Pairs(s[2..])
  }

  lemma PairsStep(s: string, i: nat)
    requires |s| % 2 == 0 && i % 2 == 0 && AllDigits(s) && i <= |s|
    ensures if i == |s| then Pairs(s[i..]) == []
            else Pairs(s[i..]) == [Digit(s[i]).value * 16 + Digit(s[i + 1]).value] + Pairs(s[i + 2..])
  {
    if i < |s| {
      assert s[i..][2..] == s[i + 2..];
    }
  }

  method ReadHex(s: string) returns (r: Result<Bytes>)
    ensures r == Unhex(s)
  {
    hide Pairs, Digit;
    if |s| % 2 != 0 || |s| > MAX_HEX {
      return Err(BadLength);
    }
    var out: Bytes, i: nat := [], 0;
    assert s[0..] == s;
    while i < |s|
      invariant 0 <= i <= |s| && i % 2 == 0
      invariant forall k :: 0 <= k < i ==> Digit(s[k]).Some?
      invariant AllDigits(s) ==> out + Pairs(s[i..]) == Pairs(s)
    {
      if Digit(s[i]).None? || Digit(s[i + 1]).None? {
        return Err(BadDigit);
      }
      if AllDigits(s) {
        PairsStep(s, i);
      }
      out := out + [Digit(s[i]).value * 16 + Digit(s[i + 1]).value];
      i := i + 2;
    }
    PairsStep(s, i);
    assert out + [] == out;
    r := Ok(out);
  }

  function HexDigit(d: octet): char
    requires d < 16
  {
    if d < 10 then '0' + d as char else 'a' + (d - 10) as char
  }

  function Hex(b: Bytes): string {
    if b == [] then "" else [HexDigit(b[0] / 16), HexDigit(b[0] % 16)] + Hex(b[1..])
  }

  lemma DigitsBack(d: octet)
    requires d < 16
    ensures Digit(HexDigit(d)) == Some(d)
  {
  }

  lemma {:induction false} PairsOfHex(b: Bytes)
    ensures |Hex(b)| == 2 * |b| && AllDigits(Hex(b))
    ensures Pairs(Hex(b)) == b
  {
    if b != [] {
      PairsOfHex(b[1..]);
      DigitsBack(b[0] / 16);
      DigitsBack(b[0] % 16);
      var s := Hex(b);
      assert s[2..] == Hex(b[1..]);
      forall i | 0 <= i < |s|
        ensures Digit(s[i]).Some?
      {
        if i >= 2 {
          assert s[i] == Hex(b[1..])[i - 2];
        }
      }
    }
  }

  /** Every payload of up to 4096 octets survives being written in hexadecimal, and no longer one does. */
  lemma HexRoundTrip(b: Bytes)
    ensures Unhex(Hex(b)) == (if |b| <= MAX_HEX / 2 then Ok(b) else Err(BadLength))
  {
    hide Hex, Pairs, AllDigits;
    PairsOfHex(b);
  }

  // ---------------------------------------------------------------- merging replies

  /** A request: type, value and index of its setup packet. */
  datatype Request = Request(kind: nat, value: nat, index: nat)

  datatype Reply = Reply(request: Request, data: Bytes)

  type Stored = map<Request, Bytes>

  function StoredFor(m: Stored, k: Request): Bytes {
    if k in m then m[k] else []
  }

  /** One of two byte strings continues the other. */
  predicate Comparable(a: Bytes, b: Bytes) {
    a <= b || b <= a
  }

  function Longer(a: Bytes, b: Bytes): Bytes {
    if |b| > |a| then b else a
  }

  /** Short replies are prefixes of longer ones to the same request; anything else is a conflict. */
  function Merge(m: Stored, replies: seq<Reply>): Result<Stored>
    decreases |replies|
  {
    if replies == [] then Ok(m)
    else
      var r := replies[0];
      var stored := StoredFor(m, r.request);
      var n := Min(|stored|, |r.data|);
      if stored[..n] != r.data[..n] then Err(Conflict)
      else Merge(m[r.request := Longer(stored, r.data)], replies[1..])
  }

  method MergeReplies(replies: seq<Reply>) returns (result: Result<Stored>)
    ensures result == Merge(map[], replies)
  {
    var descriptors: Stored := map[];
    var i := 0;
    while i < |replies|
      invariant 0 <= i <= |replies|
      invariant Merge(descriptors, replies[i..]) == Merge(map[], replies)
    {
      assert replies[i..][1..] == replies[i + 1..];
      var r := replies[i];
      if r.request !in descriptors {
        ghost var before := descriptors;
        descriptors := descriptors[r.request := []];
        assert descriptors - {r.request} == before;
        SameFromEmpty(descriptors, replies[i..]);
      }
      var stored := descriptors[r.request];
      var n := Min(|stored|, |r.data|);
      if stored[..n] != r.data[..n] {
        return Err(Conflict);
      }
      assert descriptors[r.request := stored] == descriptors;
      if |r.data| > |stored| {
        descriptors := descriptors[r.request := r.data];
      }
      i := i + 1;
    }
    result := Ok(descriptors);
  }

  lemma SameFromEmpty(m: Stored, replies: seq<Reply>)
    requires replies != [] && replies[0].request in m && m[replies[0].request] == []
    ensures Merge(m, replies) == Merge(m - {replies[0].request}, replies)
  {
    var k := replies[0].request;
    assert (m - {k})[k := replies[0].data] == m[k := replies[0].data];
    assert (m - {k})[k := []] == m[k := []];
  }

  lemma ComparableMeans(a: Bytes, b: Bytes)
    ensures Comparable(a, b) <==> var n := Min(|a|, |b|); a[..n] == b[..n]
  {
  }

  /** What was stored only grows, and every reply merged is a prefix of what is stored for its request. */
  lemma {:induction false} MergedPrefixes(m: Stored, replies: seq<Reply>)
    requires Merge(m, replies).Ok?
    ensures var d := Merge(m, replies).value;
      && (forall k :: k in m ==> k in d && m[k] <= d[k])
      && (forall i :: 0 <= i < |replies| ==>
            replies[i].request in d && replies[i].data <= d[replies[i].request])
    decreases |replies|
  {
    if replies != [] {
      var r := replies[0];
      var next := m[r.request := Longer(StoredFor(m, r.request), r.data)];
      ComparableMeans(StoredFor(m, r.request), r.data);
      MergedPrefixes(next, replies[1..]);
      var d := Merge(m, replies).value;
      forall i | 0 <= i < |replies|
        ensures replies[i].request in d && replies[i].data <= d[replies[i].request]
      {
        if i > 0 {
          assert replies[1..][i - 1] == replies[i];
        }
      }
    }
  }

  /** In a capture that loads, every acknowledged reply is a prefix of the descriptor stored for its request. */
  lemma RepliesArePrefixes(replies: seq<Reply>, i: nat)
    requires i < |replies| && Merge(map[], replies).Ok?
    ensures var d := Merge(map[], replies).value;
      replies[i].request in d && replies[i].data <= d[replies[i].request]
  {
    MergedPrefixes(map[], replies);
  }

  lemma {:induction false} MergedIsAReply(m: Stored, replies: seq<Reply>, k: Request)
    requires Merge(m, replies).Ok? && k in Merge(m, replies).value
    ensures var d := Merge(m, replies).value;
      (k in m && d[k] == m[k]) || exists i :: 0 <= i < |replies| && replies[i] == Reply(k, d[k])
    decreases |replies|
  {
    if replies != [] {
      var r := replies[0];
      var next := m[r.request := Longer(StoredFor(m, r.request), r.data)];
      MergedIsAReply(next, replies[1..], k);
      var d := Merge(m, replies).value;
      if i :| 0 <= i < |replies| - 1 && replies[1..][i] == Reply(k, d[k]) {
        assert replies[i + 1] == Reply(k, d[k]);
      } else if k == r.request && d[k] == r.data {
        assert replies[0] == Reply(k, d[k]);
      }
    }
  }

  /** Nothing stored is invented: it is a reply to just that request. */
  lemma StoredIsAReply(replies: seq<Reply>, k: Request)
    requires Merge(map[], replies).Ok? && k in Merge(map[], replies).value
    ensures exists i :: 0 <= i < |replies| && replies[i] == Reply(k, Merge(map[], replies).value[k])
  {
    MergedIsAReply(map[], replies, k);
  }

  /** Replies agree when, for each request, of any two one continues the other. */
  ghost predicate Agree(replies: seq<Reply>) {
    forall i, j :: 0 <= i < |replies| && 0 <= j < |replies| && replies[i].request == replies[j].request ==>
      Comparable(replies[i].data, replies[j].data)
  }

  ghost predicate AgreeWith(m: Stored, replies: seq<Reply>) {
    forall i :: 0 <= i < |replies| ==> Comparable(StoredFor(m, replies[i].request), replies[i].data)
  }

  lemma {:induction false} AgreeingMerges(m: Stored, replies: seq<Reply>)
    requires Agree(replies) && AgreeWith(m, replies)
    ensures Merge(m, replies).Ok?
    decreases |replies|
  {
    if replies != [] {
      var r := replies[0];
      ComparableMeans(StoredFor(m, r.request), r.data);
      var next := m[r.request := Longer(StoredFor(m, r.request), r.data)];
      var rest := replies[1..];
      forall i | 0 <= i < |rest|
        ensures Comparable(StoredFor(next, rest[i].request), rest[i].data)
      {
        assert rest[i] == replies[i + 1];
        assert replies[0].request == replies[i + 1].request ==> Comparable(r.data, rest[i].data);
      }
      assert Agree(rest) by {
        forall i, j | 0 <= i < |rest| && 0 <= j < |rest| && rest[i].request == rest[j].request
          ensures Comparable(rest[i].data, rest[j].data)
        {
          assert rest[i] == replies[i + 1] && rest[j] == replies[j + 1];
        }
      }
      AgreeingMerges(next, rest);
    }
  }

  lemma PrefixesCompare(a: Bytes, b: Bytes, c: Bytes)
    requires a <= c && b <= c
    ensures Comparable(a, b)
  {
    if |a| <= |b| {
      assert a == c[..|a|] && b == c[..|b|];
      assert a == b[..|a|];
    } else {
      assert b == a[..|b|];
    }
  }

  /** A capture loads exactly when its replies to each request continue one another, in whatever order. */
  lemma LoadsIffRepliesAgree(replies: seq<Reply>)
    ensures Merge(map[], replies).Ok? <==> Agree(replies)
  {
    if Merge(map[], replies).Ok? {
      MergedPrefixes(map[], replies);
      var d := Merge(map[], replies).value;
      forall i, j | 0 <= i < |replies| && 0 <= j < |replies| && replies[i].request == replies[j].request
        ensures Comparable(replies[i].data, replies[j].data)
      {
        PrefixesCompare(replies[i].data, replies[j].data, d[replies[i].request]);
      }
    }
    if Agree(replies) {
      AgreeingMerges(map[], replies);
    }
  }
}
