/** `stream_blocks` and `sync_headers_from`: blocks of a range, asked for in chunks and
 * answered in any order, sent on in height order. */
module BlockStream {
  import opened Prelude
  import opened CatchUp

  type Hash = string

  datatype P2PError = HeightNotFound | BlockNotFound | Disconnected

  /** What a peer answers to a request for blocks. */
  datatype Message = Block(hash: Hash) | NotFound | Other

  function ConcatHashes(replies: seq<seq<Hash>>): seq<Hash> {
    if replies == [] then [] else ConcatHashes(replies[..|replies| - 1]) + replies[|replies| - 1]
  }

  /** `replies` are the header messages that come; running out of them is a read error. */
  method SyncHeaders(start: int, startHash: Hash, target: int, replies: seq<seq<Hash>>)
    returns (r: Result<seq<Hash>, P2PError>)
    requires start <= target
    ensures r.Ok? ==> |[startHash] + ConcatHashes(replies)| >= target - start + 1
                      && r.value == ([startHash] + ConcatHashes(replies))[..target - start + 1]
    ensures (forall i :: 0 <= i < |replies| ==> replies[i] != []) && |replies| >= target - start ==> r.Ok?
  {
    var hashes := [startHash];
    var needed, k := target - start, 0;
    while |hashes| <= needed
      invariant 0 <= k <= |replies| && hashes == [startHash] + ConcatHashes(replies[..k])
      invariant (forall i :: 0 <= i < k ==> replies[i] != []) && |hashes| >= k + 1
      decreases |replies| - k
    {
      if k == |replies| {
        return Err(Disconnected);
      }
      if replies[k] == [] {
        return Err(HeightNotFound);
      }
      assert replies[..k + 1][..k] == replies[..k];
      hashes := hashes + replies[k];
      k := k + 1;
    }
    ConcatPrefix(replies, k);
    r := Ok(hashes[..needed + 1]);
  }

  lemma {:induction false} ConcatPrefix(replies: seq<seq<Hash>>, k: nat)
    requires k <= |replies|
    ensures ConcatHashes(replies[..k]) <= ConcatHashes(replies)
    decreases |replies| - k
  {
    if k < |replies| {
      assert replies[..k + 1][..k] == replies[..k];
      ConcatPrefix(replies, k + 1);
    } else {
      assert replies[..k] == replies;
    }
  }

  // ------------------------------------------------------------------ one chunk

  /** The blocks among the messages, in the order they arrive. */
  function Arrivals(messages: seq<Message>): seq<Hash> {
    if messages == [] then [] else
      Arrivals(messages[..|messages| - 1])
        + match messages[|messages| - 1] { case Block(h) => [h] case _ => [] }
  }

  predicate Distinct<T(==)>(s: seq<T>) {
    forall i, j :: 0 <= i < j < |s| ==> s[i] != s[j]
  }

  /** The peer sends exactly the blocks asked for, each once, in any order, with other
   * traffic between. */
  ghost predicate Answers(chunk: seq<Hash>, messages: seq<Message>) {
    && NotFound !in messages
    && |Arrivals(messages)| == |chunk| && Distinct(Arrivals(messages))
    && forall h :: h in Arrivals(messages) <==> h in chunk
  }

  /** A peer that sends no block twice and none it was not asked for, though it may leave any
   * out, refuse, or hang up. */
  ghost predicate Honest(chunk: seq<Hash>, messages: seq<Message>) {
    Distinct(Arrivals(messages)) && forall h :: h in Arrivals(messages) ==> h in chunk
  }

  function HeightOf(heights: map<Hash, int>, start: int, h: Hash): int {
    if h in heights then heights[h] else start
  }

  function HeightsOf(heights: map<Hash, int>, start: int, hashes: seq<Hash>): (r: seq<int>)
    ensures |r| == |hashes| && forall i :: 0 <= i < |r| ==> r[i] == HeightOf(heights, start, hashes[i])
  {
    seq(|hashes|, i requires 0 <= i < |hashes| => HeightOf(heights, start, hashes[i]))
  }

  lemma {:induction false} ArrivalsPrefix(messages: seq<Message>, k: nat)
    requires k <= |messages|
    ensures Arrivals(messages[..k]) <= Arrivals(messages)
    decreases |messages| - k
  {
    if k < |messages| {
      assert messages[..k + 1][..k] == messages[..k];
      ArrivalsPrefix(messages, k + 1);
    } else {
      assert messages[..k] == messages;
    }
  }

  /** As many blocks as were asked for come before any refusal. */
  ghost predicate Delivers(count: nat, messages: seq<Message>) {
    exists k :: 0 <= k <= |messages| && NotFound !in messages[..k] && |Arrivals(messages[..k])| == count
  }

  /** Within the first `k` messages nothing was refused and too few blocks came; after that
   * nothing comes, or a refusal. */
  lemma {:induction false} NeverDelivers(count: nat, messages: seq<Message>, k: nat)
    requires k <= |messages| && |Arrivals(messages[..k])| < count
    requires k == |messages| || messages[k] == NotFound
    ensures !Delivers(count, messages)
  {
    forall j | k < j <= |messages| ensures NotFound in messages[..j] {
      assert messages[..j][k] == messages[k];
    }
    forall j | 0 <= j <= k ensures |Arrivals(messages[..j])| < count {
      assert messages[..k][..j] == messages[..j];
      ArrivalsPrefix(messages[..k], j);
    }
  }

  /** Receive until as many blocks are there as were asked for. */
  method Receive(count: nat, messages: seq<Message>) returns (r: Result<seq<Hash>, P2PError>)
    ensures r.Ok? ==> |r.value| == count && r.value <= Arrivals(messages)
    ensures r.Ok? <==> Delivers(count, messages)
    ensures NotFound !in messages && |Arrivals(messages)| >= count ==> r.Ok?
  {
    var batch: seq<Hash>, k := [], 0;
    while |batch| < count
      invariant 0 <= k <= |messages| && batch == Arrivals(messages[..k]) && |batch| <= count
      invariant NotFound !in messages[..k]
      decreases |messages| - k
    {
      if k == |messages| {
        assert messages[..k] == messages;
        NeverDelivers(count, messages, k);
        return Err(Disconnected);
      }
      assert messages[..k + 1][..k] == messages[..k];
      match messages[k] {
        case Block(h) => batch := batch + [h];
        case NotFound =>
          assert messages[k] in messages;
          NeverDelivers(count, messages, k);
          return Err(BlockNotFound);
        case Other =>
      }
      k := k + 1;
    }
    ArrivalsPrefix(messages, k);
    r := Ok(batch);
  }

  // ----------------------------------------------------------------- in order

  predicate SortedUp(s: seq<int>) {
    forall i, j :: 0 <= i < j < |s| ==> s[i] <= s[j]
  }

  function Placed(sorted: seq<int>, at: nat, x: int, i: int): int
    requires at <= |sorted| && 0 <= i <= |sorted|
  {
    if i < at then sorted[i] else if i == at then x else sorted[i - 1]
  }

  lemma {:induction false} PlacedElements(sorted: seq<int>, at: nat, x: int, r: seq<int>)
    requires at <= |sorted| && r == sorted[..at] + [x] + sorted[at..]
    ensures |r| == |sorted| + 1 && forall i :: 0 <= i < |r| ==> r[i] == Placed(sorted, at, x, i)
    ensures forall y :: y in r <==> y in sorted || y == x
  {
    forall y ensures y in r <==> y in sorted || y == x {
      assert sorted == sorted[..at] + sorted[at..];
    }
  }

  lemma {:induction false} PlacedBag(sorted: seq<int>, at: nat, x: int)
    requires at <= |sorted|
    ensures multiset(sorted[..at] + [x] + sorted[at..]) == multiset(sorted) + multiset{x}
  {
    assert sorted == sorted[..at] + sorted[at..];
  }

  lemma {:induction false} PlacedInOrder(sorted: seq<int>, at: nat, x: int, r: seq<int>)
    requires SortedUp(sorted) && at <= |sorted| && |r| == |sorted| + 1
    requires forall i :: 0 <= i < |r| ==> r[i] == Placed(sorted, at, x, i)
    requires (forall i :: at <= i < |sorted| ==> sorted[i] > x) && (at > 0 ==> sorted[at - 1] <= x)
    ensures SortedUp(r) && (Ascending(sorted) && x !in sorted ==> Ascending(r))
  {
    forall i, j | 0 <= i < j < |r|
      ensures r[i] <= r[j] && (Ascending(sorted) && x !in sorted ==> r[i] < r[j])
    {
      var p, q := Placed(sorted, at, x, i), Placed(sorted, at, x, j);
      assert r[i] == p && r[j] == q;
      if i < at && j == at {
        assert sorted[i] <= sorted[at - 1] && sorted[i] in sorted;
      }
    }
  }

  /** One height put in its place. */
  method Insert(sorted: seq<int>, x: int) returns (r: seq<int>)
    requires SortedUp(sorted)
    ensures SortedUp(r) && multiset(r) == multiset(sorted) + multiset{x}
    ensures |r| == |sorted| + 1 && forall y :: y in r <==> y in sorted || y == x
    ensures Ascending(sorted) && x !in sorted ==> Ascending(r)
  {
    var at := |sorted|;
    while at > 0 && sorted[at - 1] > x
      invariant 0 <= at <= |sorted| && forall i :: at <= i < |sorted| ==> sorted[i] > x
    {
      at := at - 1;
    }
    r := sorted[..at] + [x] + sorted[at..];
    PlacedBag(sorted, at, x);
    PlacedElements(sorted, at, x, r);
    PlacedInOrder(sorted, at, x, r);
  }

  /** `sort_by_key`. */
  method SortByHeight(batch: seq<int>) returns (sorted: seq<int>)
    ensures SortedUp(sorted) && multiset(sorted) == multiset(batch)
    ensures |sorted| == |batch| && forall y :: y in sorted <==> y in batch
    ensures Distinct(batch) ==> Ascending(sorted)
  {
    sorted := [];
    for n := 0 to |batch|
      invariant SortedUp(sorted) && |sorted| == n && multiset(sorted) == multiset(batch[..n])
      invariant forall y :: y in sorted <==> y in batch[..n]
      invariant Distinct(batch) ==> Ascending(sorted)
    {
      assert batch[..n + 1] == batch[..n] + [batch[n]];
      assert multiset(batch[..n + 1]) == multiset(batch[..n]) + multiset{batch[n]};
      sorted := Insert(sorted, batch[n]);
    }
    assert batch[..|batch|] == batch;
  }

  /** An ascending list is determined by what it lists. */
  lemma {:induction false} AscendingIsUnique(a: seq<int>, b: seq<int>)
    requires Ascending(a) && Ascending(b) && |a| == |b| && forall x :: x in a <==> x in b
    ensures a == b
  {
    if a != [] {
      var n := |a| - 1;
      assert a[n] in b && b[n] in a;
      var i, j :| 0 <= i < |b| && b[i] == a[n] && 0 <= j < |a| && a[j] == b[n];
      assert a[n] == b[n];
      forall x ensures x in a[..n] <==> x in b[..n] {
        InitHolds(a, x);
        InitHolds(b, x);
      }
      AscendingIsUnique(a[..n], b[..n]);
    }
  }

  lemma {:induction false} InitHolds(a: seq<int>, x: int)
    requires Ascending(a) && a != []
    ensures x in a[..|a| - 1] <==> x in a && x != a[|a| - 1]
  {
    assert a == a[..|a| - 1] + [a[|a| - 1]];
    if x in a[..|a| - 1] {
      var i :| 0 <= i < |a| - 1 && a[..|a| - 1][i] == x;
      assert a[i] < a[|a| - 1];
    }
  }

  // ---------------------------------------------------------------- the stream

  function HashToHeight(start: int, hashes: seq<Hash>): map<Hash, int> {
    if hashes == [] then map[] else
      HashToHeight(start, hashes[..|hashes| - 1])[hashes[|hashes| - 1] := start + |hashes| - 1]
  }

  lemma {:induction false} HeightAt(start: int, hashes: seq<Hash>, i: nat)
    requires Distinct(hashes) && i < |hashes|
    ensures hashes[i] in HashToHeight(start, hashes) && HashToHeight(start, hashes)[hashes[i]] == start + i
  {
    var last := |hashes| - 1;
    if i < last {
      HeightAt(start, hashes[..last], i);
    }
  }

  /** A block of the range counts at its own height, any other at the range's first. */
  lemma {:induction false} HeightIs(start: int, hashes: seq<Hash>, h: Hash)
    requires Distinct(hashes)
    ensures forall i :: 0 <= i < |hashes| && hashes[i] == h ==>
              HeightOf(HashToHeight(start, hashes), start, h) == start + i
    ensures h !in hashes ==> HeightOf(HashToHeight(start, hashes), start, h) == start
  {
    if i :| 0 <= i < |hashes| && hashes[i] == h {
      HeightAt(start, hashes, i);
    } else {
      NoHeight(start, hashes, h);
    }
  }

  lemma {:induction false} NoHeight(start: int, hashes: seq<Hash>, h: Hash)
    requires h !in hashes
    ensures h !in HashToHeight(start, hashes)
  {
    if hashes != [] {
      NoHeight(start, hashes[..|hashes| - 1], h);
    }
  }

  /** Every request is answered with exactly the requested blocks. */
  ghost predicate AllAnswered(hashes: seq<Hash>, batchSize: nat, answers: int -> seq<Message>)
    requires batchSize > 0
  {
    forall k :: 0 <= k && k * batchSize < |hashes| ==> Answers(Chunk(hashes, batchSize, k), answers(k))
  }

  ghost predicate AllHonest(hashes: seq<Hash>, batchSize: nat, answers: int -> seq<Message>)
    requires batchSize > 0
  {
    forall k :: 0 <= k && k * batchSize < |hashes| ==> Honest(Chunk(hashes, batchSize, k), answers(k))
  }

  function Chunk(hashes: seq<Hash>, batchSize: nat, k: nat): seq<Hash>
    requires batchSize > 0 && k * batchSize < |hashes|
  {
    hashes[k * batchSize..if (k + 1) * batchSize <= |hashes| then (k + 1) * batchSize else |hashes|]
  }

  ghost predicate DeliversBefore(hashes: seq<Hash>, batchSize: nat, answers: int -> seq<Message>, n: nat)
    requires batchSize > 0
  {
    forall k: nat :: k < n && k * batchSize < |hashes| ==> Delivers(|Chunk(hashes, batchSize, k)|, answers(k))
  }

  ghost predicate AllDelivered(hashes: seq<Hash>, batchSize: nat, answers: int -> seq<Message>)
    requires batchSize > 0
  {
    forall k: nat :: k * batchSize < |hashes| ==> Delivers(|Chunk(hashes, batchSize, k)|, answers(k))
  }

  /** `sent` blocks are those of all requests before the first that was not fully answered. */
  ghost predicate FailsAfter(hashes: seq<Hash>, batchSize: nat, answers: int -> seq<Message>, sent: nat)
    requires batchSize > 0
  {
    exists k: nat :: sent == k * batchSize < |hashes| && DeliversBefore(hashes, batchSize, answers, k)
                     && !Delivers(|Chunk(hashes, batchSize, k)|, answers(k))
  }

  /** Heights of a stretch of the range, asked for in one request. */
  lemma {:induction false} ChunkHeights(start: int, hashes: seq<Hash>, from: nat, to: nat)
    requires Distinct(hashes) && from <= to <= |hashes|
    ensures HeightsOf(HashToHeight(start, hashes), start, hashes[from..to]) == Range(start + from, to - from)
  {
    forall i | 0 <= i < to - from
      ensures HeightOf(HashToHeight(start, hashes), start, hashes[from..to][i]) == start + from + i
    {
      HeightAt(start, hashes, from + i);
    }
  }

  /** Whatever the order of arrival, the chunk's heights come out, each once. */
  lemma {:induction false} ArrivedHeights(start: int, hashes: seq<Hash>, from: nat, to: nat, arrived: seq<Hash>,
                                          sorted: seq<int>)
    requires Distinct(hashes) && from <= to <= |hashes| && Distinct(arrived) && |arrived| == to - from
    requires forall h :: h in arrived <==> h in hashes[from..to]
    requires var got := HeightsOf(HashToHeight(start, hashes), start, arrived);
             |sorted| == |got| && (forall y :: y in sorted <==> y in got) && (Distinct(got) ==> Ascending(sorted))
    ensures sorted == Range(start + from, to - from)
  {
    var heights := HashToHeight(start, hashes);
    var got, wanted := HeightsOf(heights, start, arrived), HeightsOf(heights, start, hashes[from..to]);
    ChunkHeights(start, hashes, from, to);
    forall i, j | 0 <= i < j < |got| ensures got[i] != got[j] {
      ArrivedAt(start, hashes, from, to, arrived, i);
      ArrivedAt(start, hashes, from, to, arrived, j);
    }
    forall y ensures y in sorted <==> y in wanted {
      SameHeights(heights, start, arrived, hashes[from..to], y);
      SameHeights(heights, start, hashes[from..to], arrived, y);
    }
    AscendingIsUnique(sorted, wanted);
  }

  lemma {:induction false} ArrivedAt(start: int, hashes: seq<Hash>, from: nat, to: nat, arrived: seq<Hash>, i: nat)
    requires Distinct(hashes) && from <= to <= |hashes| && i < |arrived|
    requires forall h :: h in arrived <==> h in hashes[from..to]
    ensures var y := HeightOf(HashToHeight(start, hashes), start, arrived[i]);
            start + from <= y < start + to && hashes[y - start] == arrived[i]
  {
    assert arrived[i] in hashes[from..to];
    var j :| 0 <= j < to - from && hashes[from..to][j] == arrived[i];
    HeightAt(start, hashes, from + j);
  }

  lemma {:induction false} SameHeights(heights: map<Hash, int>, start: int, a: seq<Hash>, b: seq<Hash>, y: int)
    requires forall h :: h in a ==> h in b
    ensures y in HeightsOf(heights, start, a) ==> y in HeightsOf(heights, start, b)
  {
    if y in HeightsOf(heights, start, a) {
      var i :| 0 <= i < |a| && HeightOf(heights, start, a[i]) == y;
      assert a[i] in b;
      var j :| 0 <= j < |b| && b[j] == a[i];
      assert HeightsOf(heights, start, b)[j] == y;
    }
  }

  /** As many different blocks as were asked for, all of them asked for: all of them. */
  lemma {:induction false} AllCome(arrived: seq<Hash>, chunk: seq<Hash>)
    requires Distinct(arrived) && Distinct(chunk) && |arrived| == |chunk| && forall h :: h in arrived ==> h in chunk
    ensures forall h :: h in arrived <==> h in chunk
  {
    var got, asked := (set h | h in arrived), set h | h in chunk;
    CountDistinct(arrived, got);
    CountDistinct(chunk, asked);
    SameSize(got, asked);
    assert forall h :: h in chunk ==> h in asked;
  }

  lemma {:induction false} SameSize(a: set<Hash>, b: set<Hash>)
    requires a <= b && |a| == |b|
    ensures a == b
  {
    assert b == a + (b - a) && |b| == |a| + |b - a|;
  }

  lemma {:induction false} CountDistinct(s: seq<Hash>, all: set<Hash>)
    requires Distinct(s) && forall h :: h in all <==> h in s
    ensures |all| == |s|
  {
    if s == [] {
      assert all == {};
    } else {
      var n := |s| - 1;
      assert s == s[..n] + [s[n]];
      CountDistinct(s[..n], all - {s[n]});
    }
  }

  /** One request: collect as many blocks as were asked for, sort, hand on. */
  method SendChunk(start: int, hashes: seq<Hash>, heights: map<Hash, int>, from: nat, to: nat, messages: seq<Message>)
    returns (r: Result<seq<int>, P2PError>)
    requires Distinct(hashes) && heights == HashToHeight(start, hashes) && from <= to <= |hashes|
    ensures r.Ok? ==> |r.value| == to - from && SortedUp(r.value)
    ensures r.Ok? ==> |Arrivals(messages)| >= to - from
                      && multiset(r.value) == multiset(HeightsOf(heights, start, Arrivals(messages)[..to - from]))
    ensures Honest(hashes[from..to], messages) && r.Ok? ==> r.value == Range(start + from, to - from)
    ensures r.Ok? <==> Delivers(to - from, messages)
    ensures Answers(hashes[from..to], messages) ==> r.Ok?
  {
    var received := Receive(to - from, messages);
    if received.Err? {
      return Err(received.error);
    }
    assert received.value == Arrivals(messages)[..to - from];
    var sorted := SortByHeight(HeightsOf(heights, start, received.value));
    if Honest(hashes[from..to], messages) {
      assert forall h :: h in received.value ==> h in Arrivals(messages);
      AllCome(received.value, hashes[from..to]);
      ArrivedHeights(start, hashes, from, to, received.value, sorted);
    }
    r := Ok(sorted);
  }

  lemma {:induction false} Product(k: nat, batchSize: nat)
    requires batchSize > 0
    ensures (k + 1) * batchSize == k * batchSize + batchSize && 0 * batchSize == 0
    ensures k * batchSize >= 0
  {
  }

  /** `stream_blocks`, whose receiver takes `room` blocks before it is dropped. An honest peer,
   * wherever it fails, leaves an exact prefix of the range behind; one that answers every
   * request, in whatever order, gets the whole range sent. */
  method StreamBlocks(start: int, hashes: seq<Hash>, batchSize: nat, answers: int -> seq<Message>, room: nat)
    returns (sent: seq<int>, failed: bool)
    requires batchSize > 0 && Distinct(hashes)
    ensures |sent| <= room && |sent| <= |hashes|
    ensures AllHonest(hashes, batchSize, answers) ==> sent == Range(start, |sent|)
    ensures !failed ==> |sent| == if room < |hashes| then room else |hashes|
    ensures failed ==> FailsAfter(hashes, batchSize, answers, |sent|)
    ensures AllDelivered(hashes, batchSize, answers) ==> !failed
    ensures AllAnswered(hashes, batchSize, answers) ==> !failed && sent == Range(start, |sent|)
  {
    var heights := HashToHeight(start, hashes);
    var k, from := 0, 0;
    sent := [];
    Product(0, batchSize);
    ghost var honest := AllHonest(hashes, batchSize, answers) || AllAnswered(hashes, batchSize, answers);
    while from < |hashes|
      invariant 0 <= k && 0 <= from <= |hashes| && (from < |hashes| ==> from == k * batchSize)
      invariant |sent| == from <= room && (honest ==> sent == Range(start, from))
      invariant from < |hashes| ==> DeliversBefore(hashes, batchSize, answers, k)
      decreases |hashes| - from
    {
      Product(k, batchSize);
      var to := if from + batchSize <= |hashes| then from + batchSize else |hashes|;
      assert hashes[from..to] == Chunk(hashes, batchSize, k);
      var r := SendChunk(start, hashes, heights, from, to, answers(k));
      if AllAnswered(hashes, batchSize, answers) {
        assert Answers(Chunk(hashes, batchSize, k), answers(k));
      }
      if r.Err? {
        assert FailsAfter(hashes, batchSize, answers, |sent|);
        return sent, true;
      }
      if honest {
        assert Honest(Chunk(hashes, batchSize, k), answers(k));
        RangesJoin(start, from, to - from);
      }
      if |sent| + |r.value| > room {
        sent := (sent + r.value)[..room];
        return sent, false;
      }
      sent := sent + r.value;
      from := to;
      k := k + 1;
    }
    failed := false;
  }

  lemma {:induction false} RangesJoin(start: int, n: nat, m: nat)
    ensures Range(start, n) + Range(start + n, m) == Range(start, n + m)
    ensures forall k :: 0 <= k <= n + m ==> Range(start, n + m)[..k] == Range(start, k)
  {
  }
}
