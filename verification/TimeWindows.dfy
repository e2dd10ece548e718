/** Weighing what happened on the chain over a window of time: by the definition, by
 * whole buckets of a rollup, and by the height range a time slice resolves to. */
module TimeWindows {
  import opened Prelude

  const HOUR_MS := 3_600_000
  const DAY_MS := 86_400_000

  /** A block's height and its time in seconds. */
  datatype Header = Header(height: int, time: int)

  /** Something confirmed in the block at `height`, mined at `time`, and what it counts for. */
  datatype Item = Item(height: int, time: int, weight: int)

  function Ms(time: int): int { 1000 * time }

  function Weigh(items: seq<Item>, p: Item -> bool): int {
    if items == [] then 0 else
      Weigh(items[..|items| - 1], p) + if p(items[|items| - 1]) then items[|items| - 1].weight else 0
  }

  function One(b: bool): int { if b then 1 else 0 }

  /** If every item falls under `whole` as often as under `p` and `q`, so do the sums. */
  lemma {:induction false} WeighSplit(items: seq<Item>, p: Item -> bool, q: Item -> bool, whole: Item -> bool)
    requires forall x :: x in items ==> One(p(x)) + One(q(x)) == One(whole(x))
    ensures Weigh(items, p) + Weigh(items, q) == Weigh(items, whole)
  {
    if items != [] {
      var before, last := items[..|items| - 1], items[|items| - 1];
      assert forall x :: x in before ==> x in items;
      WeighSplit(before, p, q, whole);
      assert last in items;
    }
  }

  lemma {:induction false} WeighSame(items: seq<Item>, p: Item -> bool, q: Item -> bool)
    requires forall x :: x in items ==> (p(x) <==> q(x))
    ensures Weigh(items, p) == Weigh(items, q)
  {
    if items != [] {
      var before := items[..|items| - 1];
      assert forall x :: x in before ==> x in items;
      WeighSame(before, p, q);
      assert items[|items| - 1] in items;
    }
  }

  lemma {:induction false} WeighNone(items: seq<Item>, p: Item -> bool)
    requires forall x :: x in items ==> !p(x)
    ensures Weigh(items, p) == 0
  {
    if items != [] {
      var before := items[..|items| - 1];
      assert forall x :: x in before ==> x in items;
      WeighNone(before, p);
      assert items[|items| - 1] in items;
    }
  }

  lemma {:induction false} WeighConcat(a: seq<Item>, b: seq<Item>, p: Item -> bool)
    ensures Weigh(a + b, p) == Weigh(a, p) + Weigh(b, p)
  {
    if b == [] {
      assert a + b == a;
    } else {
      assert (a + b)[..|a + b| - 1] == a + b[..|b| - 1];
      WeighConcat(a, b[..|b| - 1], p);
    }
  }

  // -------------------------------------------------------------------- buckets

  /** f(lo) + .. + f(lo + n - 1). */
  function SumOf(f: int -> int, lo: int, n: nat): int {
    if n == 0 then 0 else SumOf(f, lo, n - 1) + f(lo + n - 1)
  }

  lemma {:induction false} SumPlus(f: int -> int, g: int -> int, h: int -> int, lo: int, n: nat)
    requires forall d :: h(d) == f(d) + g(d)
    ensures SumOf(h, lo, n) == SumOf(f, lo, n) + SumOf(g, lo, n)
  {
    if n > 0 {
      SumPlus(f, g, h, lo, n - 1);
    }
  }

  lemma {:induction false} SumSingle(f: int -> int, day: int, x: int, lo: int, n: nat)
    requires forall d :: f(d) == if d == day then x else 0
    ensures SumOf(f, lo, n) == if lo <= day < lo + n then x else 0
  {
    if n > 0 {
      SumSingle(f, day, x, lo, n - 1);
    }
  }

  lemma {:induction false} SumSame(f: int -> int, g: int -> int, lo: int, n: nat)
    requires forall d :: f(d) == g(d)
    ensures SumOf(f, lo, n) == SumOf(g, lo, n)
  {
    if n > 0 {
      SumSame(f, g, lo, n - 1);
    }
  }

  lemma {:induction false} SumSplit(f: int -> int, lo: int, m: nat, n: nat)
    ensures SumOf(f, lo, m + n) == SumOf(f, lo, m) + SumOf(f, lo + m, n)
  {
    if n > 0 {
      SumSplit(f, lo, m, n - 1);
    }
  }

  /** A rollup that keeps one sum per bucket, summed over a stretch of buckets. */
  lemma {:induction false} BucketsSum(items: seq<Item>, bucketOf: int -> int, rows: int -> int, lo: int, n: nat)
    requires forall d :: rows(d) == Weigh(items, (x: Item) => bucketOf(x.time) == d)
    ensures SumOf(rows, lo, n) == Weigh(items, (x: Item) => lo <= bucketOf(x.time) < lo + n)
  {
    if items == [] {
      SumSingle(rows, lo, 0, lo, n);
    } else {
      var before, last := items[..|items| - 1], items[|items| - 1];
      var olds := d => Weigh(before, (x: Item) => bucketOf(x.time) == d);
      var mine := d => if d == bucketOf(last.time) then last.weight else 0;
      BucketsSum(before, bucketOf, olds, lo, n);
      SumPlus(olds, mine, rows, lo, n);
      SumSingle(mine, bucketOf(last.time), last.weight, lo, n);
    }
  }

  // ---------------------------------------------------------------- live slices

  predicate Inside(time: int, from: int, to: int) {
    from <= Ms(time) <= to
  }

  datatype Heights = Heights(min: int, max: int)

  /** SELECT MIN(height), MAX(height) .. WHERE timestamp BETWEEN from AND to. */
  function HeightsIn(headers: seq<Header>, from: int, to: int): Option<Heights> {
    if headers == [] then None else
      var before, last := HeightsIn(headers[..|headers| - 1], from, to), headers[|headers| - 1];
      if !Inside(last.time, from, to) then before
      else if before.None? then Some(Heights(last.height, last.height))
      else Some(Heights(if last.height < before.value.min then last.height else before.value.min,
                        if last.height > before.value.max then last.height else before.value.max))
  }

  predicate InHeights(range: Option<Heights>, height: int) {
    range.Some? && range.value.min <= height <= range.value.max
  }

  /** A live slice: everything in the height range its times resolve to. */
  function Live(headers: seq<Header>, items: seq<Item>, from: int, to: int): int {
    var range := HeightsIn(headers, from, to);
    Weigh(items, (x: Item) => InHeights(range, x.height))
  }

  /** Caught by the height range although its own time lies outside the slice. */
  predicate Stray(headers: seq<Header>, from: int, to: int, x: Item) {
    InHeights(HeightsIn(headers, from, to), x.height) && !Inside(x.time, from, to)
  }

  predicate OnChain(headers: seq<Header>, items: seq<Item>) {
    forall x :: x in items ==> Header(x.height, x.time) in headers
  }

  /** Block times never decrease with height. */
  predicate Monotone(headers: seq<Header>) {
    forall a, b :: a in headers && b in headers && a.height <= b.height ==> a.time <= b.time
  }

  lemma {:induction false} HeightsAre(headers: seq<Header>, from: int, to: int)
    ensures var r := HeightsIn(headers, from, to);
            && (forall b :: b in headers && Inside(b.time, from, to) ==> InHeights(r, b.height))
            && (r.Some? ==> AtHeight(headers, from, to, r.value.min) && AtHeight(headers, from, to, r.value.max))
  {
    if headers != [] {
      var before, last := headers[..|headers| - 1], headers[|headers| - 1];
      HeightsAre(before, from, to);
      assert headers == before + [last];
      var r0, r := HeightsIn(before, from, to), HeightsIn(headers, from, to);
      if r0.Some? {
        Wider(before, headers, from, to, r0.value.min);
        Wider(before, headers, from, to, r0.value.max);
      }
      if Inside(last.time, from, to) {
        assert last in headers && AtHeight(headers, from, to, last.height);
      }
    }
  }

  ghost predicate AtHeight(headers: seq<Header>, from: int, to: int, height: int) {
    exists b :: b in headers && b.height == height && Inside(b.time, from, to)
  }

  lemma {:induction false} Wider(before: seq<Header>, headers: seq<Header>, from: int, to: int, height: int)
    requires before <= headers && AtHeight(before, from, to, height)
    ensures AtHeight(headers, from, to, height)
  {
    var b :| b in before && b.height == height && Inside(b.time, from, to);
    assert b in headers;
  }

  /** For any block times: a live slice is the slice's own items and the strays. */
  lemma {:induction false} LiveIs(headers: seq<Header>, items: seq<Item>, from: int, to: int)
    requires OnChain(headers, items)
    ensures Live(headers, items, from, to) ==
            Weigh(items, (x: Item) => Inside(x.time, from, to)) + Weigh(items, (x: Item) => Stray(headers, from, to, x))
  {
    HeightsAre(headers, from, to);
    var range := HeightsIn(headers, from, to);
    WeighSplit(items, (x: Item) => Inside(x.time, from, to), (x: Item) => Stray(headers, from, to, x),
               (x: Item) => InHeights(range, x.height));
  }

  /** With monotone block times nothing strays. */
  lemma {:induction false} NothingStrays(headers: seq<Header>, from: int, to: int, x: Item)
    requires Monotone(headers) && Header(x.height, x.time) in headers
    ensures !Stray(headers, from, to, x)
  {
    HeightsAre(headers, from, to);
    var r := HeightsIn(headers, from, to);
    if InHeights(r, x.height) {
      var a :| a in headers && a.height == r.value.min && Inside(a.time, from, to);
      var b :| b in headers && b.height == r.value.max && Inside(b.time, from, to);
      var mine := Header(x.height, x.time);
      assert a.time <= mine.time <= b.time;
    }
  }

  lemma {:induction false} LiveIsExact(headers: seq<Header>, items: seq<Item>, from: int, to: int)
    requires OnChain(headers, items) && Monotone(headers)
    ensures Live(headers, items, from, to) == Weigh(items, (x: Item) => Inside(x.time, from, to))
  {
    LiveIs(headers, items, from, to);
    forall x | x in items ensures !Stray(headers, from, to, x) {
      NothingStrays(headers, from, to, x);
    }
    WeighNone(items, (x: Item) => Stray(headers, from, to, x));
  }

  // ------------------------------------------------------------ several slices

  datatype Slice = Slice(from: int, to: int)

  function Slicing(slices: seq<Slice>, time: int): int {
    if slices == [] then 0 else
      Slicing(slices[..|slices| - 1], time) + One(Inside(time, slices[|slices| - 1].from, slices[|slices| - 1].to))
  }

  lemma {:induction false} SlicingOf(time: int, a: seq<Slice>, s: Slice)
    ensures Slicing([], time) == 0
    ensures Slicing(a + [s], time) == Slicing(a, time) + One(Inside(time, s.from, s.to))
  {
    assert (a + [s])[..|a + [s]| - 1] == a;
  }

  function SlicesLive(headers: seq<Header>, items: seq<Item>, slices: seq<Slice>): int {
    if slices == [] then 0 else
      var s := slices[|slices| - 1];
      SlicesLive(headers, items, slices[..|slices| - 1]) + Live(headers, items, s.from, s.to)
  }

  function SlicesStray(headers: seq<Header>, items: seq<Item>, slices: seq<Slice>): int {
    if slices == [] then 0 else
      var s := slices[|slices| - 1];
      SlicesStray(headers, items, slices[..|slices| - 1]) + Weigh(items, (x: Item) => Stray(headers, s.from, s.to, x))
  }

  function SlicesInside(items: seq<Item>, slices: seq<Slice>): int {
    if slices == [] then 0 else
      var s := slices[|slices| - 1];
      SlicesInside(items, slices[..|slices| - 1]) + Weigh(items, (x: Item) => Inside(x.time, s.from, s.to))
  }

  lemma {:induction false} SlicesLiveAre(headers: seq<Header>, items: seq<Item>, slices: seq<Slice>)
    requires OnChain(headers, items)
    ensures SlicesLive(headers, items, slices) == SlicesStray(headers, items, slices) + SlicesInside(items, slices)
  {
    if slices != [] {
      var s := slices[|slices| - 1];
      SlicesLiveAre(headers, items, slices[..|slices| - 1]);
      LiveIs(headers, items, s.from, s.to);
    }
  }

  lemma {:induction false} NoItemsInside(slices: seq<Slice>)
    ensures SlicesInside([], slices) == 0
  {
    if slices != [] {
      NoItemsInside(slices[..|slices| - 1]);
    }
  }

  lemma {:induction false} LastInside(items: seq<Item>, slices: seq<Slice>)
    requires items != []
    ensures var before, last := items[..|items| - 1], items[|items| - 1];
            SlicesInside(items, slices) == SlicesInside(before, slices) + last.weight * Slicing(slices, last.time)
  {
    if slices != [] {
      LastInside(items, slices[..|slices| - 1]);
    }
  }

  /** Sums over parts that together hold every item of the whole exactly once. */
  lemma {:induction false} PartsWeigh(items: seq<Item>, slices: seq<Slice>, p: Item -> bool, whole: Item -> bool)
    requires forall x :: x in items ==> One(p(x)) + Slicing(slices, x.time) == One(whole(x))
    ensures Weigh(items, p) + SlicesInside(items, slices) == Weigh(items, whole)
  {
    if items == [] {
      NoItemsInside(slices);
    } else {
      var before, last := items[..|items| - 1], items[|items| - 1];
      assert forall x :: x in before ==> x in items;
      PartsWeigh(before, slices, p, whole);
      LastInside(items, slices);
      assert last in items;
    }
  }

  /** Live slices beside a part served otherwise: if together they hold every instant of
   * the window once, they weigh the window, and the strays. */
  lemma {:induction false} SlicesTile(headers: seq<Header>, items: seq<Item>, slices: seq<Slice>, p: Item -> bool,
                                      whole: Item -> bool)
    requires OnChain(headers, items)
    requires forall x :: x in items ==> One(p(x)) + Slicing(slices, x.time) == One(whole(x))
    ensures Weigh(items, p) + SlicesLive(headers, items, slices) ==
            Weigh(items, whole) + SlicesStray(headers, items, slices)
  {
    SlicesLiveAre(headers, items, slices);
    PartsWeigh(items, slices, p, whole);
  }

  /** With monotone block times no slice has strays. */
  lemma {:induction false} SlicesHaveNoStrays(headers: seq<Header>, items: seq<Item>, slices: seq<Slice>)
    requires OnChain(headers, items) && Monotone(headers)
    ensures SlicesStray(headers, items, slices) == 0
  {
    if slices != [] {
      var s := slices[|slices| - 1];
      SlicesHaveNoStrays(headers, items, slices[..|slices| - 1]);
      forall x | x in items ensures !Stray(headers, s.from, s.to, x) {
        NothingStrays(headers, s.from, s.to, x);
      }
      WeighNone(items, (x: Item) => Stray(headers, s.from, s.to, x));
    }
  }
}
