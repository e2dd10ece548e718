/** `getTransactionStats`: whole hours from the hourly rollup, the edges counted live. */
module StatsWindow {
  import opened Prelude
  import opened Rollups
  import opened Ledger
  import opened LedgerFacts
  import opened LedgerInvariants
  import opened LedgerRuns
  import opened LedgerTotals
  import opened LedgerBatching
  import opened TimeWindows

  /** What the counters tell apart. */
  datatype Kind = Special | CoinJoins | Multisig | Normal

  datatype Stats = Stats(special: int, coinjoin: int, multisig: int, normal: int)

  function KindOf(x: Tally, k: Kind): int {
    match k
    case Special => x.special
    case CoinJoins => x.coinjoin
    case Multisig => x.multisig
    case Normal => x.normal
  }

  function StatOf(x: Stats, k: Kind): int {
    match k
    case Special => x.special
    case CoinJoins => x.coinjoin
    case Multisig => x.multisig
    case Normal => x.normal
  }

  function AddStats(x: Stats, y: Stats): Stats {
    Stats(x.special + y.special, x.coinjoin + y.coinjoin, x.multisig + y.multisig, x.normal + y.normal)
  }

  // ------------------------------------------------------------------ the chain

  function Headers(blocks: seq<Block>): seq<Header> {
    seq(|blocks|, i requires 0 <= i < |blocks| => Header(blocks[i].height, blocks[i].time))
  }

  function TxItems(txs: seq<Tx>, height: int, time: int, k: Kind): seq<Item> {
    if txs == [] then [] else
      TxItems(txs[..|txs| - 1], height, time, k) + [Item(height, time, KindOf(HourTally(txs[|txs| - 1]), k))]
  }

  /** Every confirmed transaction, weighing 1 if it is of the kind. */
  function Items(blocks: seq<Block>, k: Kind): seq<Item> {
    if blocks == [] then [] else
      var b := blocks[|blocks| - 1];
      Items(blocks[..|blocks| - 1], k) + TxItems(b.txs, b.height, b.time, k)
  }

  lemma {:induction false} TxItemsAre(txs: seq<Tx>, height: int, time: int, k: Kind, x: Item)
    requires x in TxItems(txs, height, time, k)
    ensures x.height == height && x.time == time && 0 <= x.weight <= 1
  {
    if txs != [] && x in TxItems(txs[..|txs| - 1], height, time, k) {
      TxItemsAre(txs[..|txs| - 1], height, time, k, x);
    }
  }

  lemma {:induction false} ItemsAre(blocks: seq<Block>, k: Kind, x: Item)
    requires x in Items(blocks, k)
    ensures Header(x.height, x.time) in Headers(blocks) && 0 <= x.weight <= 1
  {
    var before, b := blocks[..|blocks| - 1], blocks[|blocks| - 1];
    if x in Items(before, k) {
      ItemsAre(before, k, x);
      var i :| 0 <= i < |before| && Headers(before)[i] == Header(x.height, x.time);
      assert Headers(blocks)[i] == Header(x.height, x.time);
    } else {
      TxItemsAre(b.txs, b.height, b.time, k, x);
      assert Headers(blocks)[|blocks| - 1] == Header(x.height, x.time);
    }
  }

  lemma {:induction false} ItemsOnChain(blocks: seq<Block>, k: Kind)
    ensures OnChain(Headers(blocks), Items(blocks, k))
  {
    forall x | x in Items(blocks, k) ensures Header(x.height, x.time) in Headers(blocks) {
      ItemsAre(blocks, k, x);
    }
  }

  /** The hourly table holds, per hour, what was mined in it. */
  ghost predicate HourlyAgrees(r: Rollups, blocks: seq<Block>) {
    forall h, k :: KindOf(At(r, HourStats(h)), k) == Weigh(Items(blocks, k), (x: Item) => HourOf(x.time) == h)
  }

  // ----------------------------------------------------------------- the windows

  function CeilDiv(x: int, d: int): int
    requires d > 0
  {
    -((-x) / d)
  }

  function FirstHour(start: int): int { CeilDiv(start, HOUR_MS) }

  function EndHour(end: int): int { end / HOUR_MS }

  predicate UsesRollup(start: int, end: int) { FirstHour(start) < EndHour(end) }

  function LiveSlices(start: int, end: int): seq<Slice> {
    if UsesRollup(start, end) then
      (if start < FirstHour(start) * HOUR_MS then [Slice(start, FirstHour(start) * HOUR_MS - 1)] else [])
      + (if EndHour(end) * HOUR_MS < end then [Slice(EndHour(end) * HOUR_MS, end)] else [])
    else [Slice(start, end)]
  }

  /** The closing instant is left out exactly when it is on an hour boundary and the window holds
   * the whole hour before it. */
  predicate ClosingLeftOut(start: int, end: int) {
    end % 3_600_000 == 0 && start <= end - 3_600_000
  }

  lemma {:induction false} ClosingWithRollup(start: int, end: int)
    ensures ClosingLeftOut(start, end) <==> UsesRollup(start, end) && end % HOUR_MS == 0
  {
  }

  predicate Covered(start: int, end: int, time: int) {
    start <= Ms(time) <= end && !(Ms(time) == end && ClosingLeftOut(start, end))
  }

  predicate InRollup(start: int, end: int, time: int) {
    UsesRollup(start, end) && FirstHour(start) <= HourOf(time) < EndHour(end)
  }

  lemma {:induction false} HourBounds(start: int, end: int, time: int)
    ensures FirstHour(start) <= HourOf(time) <==> FirstHour(start) * HOUR_MS <= Ms(time)
    ensures HourOf(time) < EndHour(end) <==> Ms(time) < EndHour(end) * HOUR_MS
    ensures FirstHour(start) * HOUR_MS - HOUR_MS < start <= FirstHour(start) * HOUR_MS
    ensures EndHour(end) * HOUR_MS <= end < EndHour(end) * HOUR_MS + HOUR_MS
    ensures end % HOUR_MS == 0 <==> end == EndHour(end) * HOUR_MS
  {
  }

  /** Hours and slices tile the window: each covered instant is in exactly one of
   * them, any other in none. */
  lemma {:induction false} EachInstantOnce(start: int, end: int, time: int)
    ensures One(InRollup(start, end, time)) + Slicing(LiveSlices(start, end), time) == One(Covered(start, end, time))
  {
    ClosingWithRollup(start, end);
    HourBounds(start, end, time);
    SlicesHold(start, end, time);
  }

  /** The live slices hold an instant of the window once, if it is in no rollup hour. */
  lemma {:induction false} SlicesHold(start: int, end: int, time: int)
    ensures Slicing(LiveSlices(start, end), time) ==
            if UsesRollup(start, end)
            then One(start < FirstHour(start) * HOUR_MS && Inside(time, start, FirstHour(start) * HOUR_MS - 1))
                 + One(EndHour(end) * HOUR_MS < end && Inside(time, EndHour(end) * HOUR_MS, end))
            else One(Inside(time, start, end))
  {
    var lo, hi := FirstHour(start) * HOUR_MS, EndHour(end) * HOUR_MS;
    var first: seq<Slice> := if start < lo then [Slice(start, lo - 1)] else [];
    SlicingOf(time, [], Slice(start, lo - 1));
    SlicingOf(time, first, Slice(hi, end));
    SlicingOf(time, [], Slice(start, end));
    assert [] + [Slice(start, lo - 1)] == [Slice(start, lo - 1)] && [] + [Slice(start, end)] == [Slice(start, end)];
    assert UsesRollup(start, end) ==> LiveSlices(start, end) == if hi < end then first + [Slice(hi, end)] else first;
  }

  // ------------------------------------------------------------------ the counts

  function SliceSum(blocks: seq<Block>, slices: seq<Slice>, k: Kind): int {
    SlicesLive(Headers(blocks), Items(blocks, k), slices)
  }

  /** What the live slices count although it was not mined inside them. */
  function Strays(blocks: seq<Block>, slices: seq<Slice>, k: Kind): int {
    SlicesStray(Headers(blocks), Items(blocks, k), slices)
  }

  method LiveRow(blocks: seq<Block>, from: int, to: int) returns (row: Stats)
    ensures forall k :: StatOf(row, k) == Live(Headers(blocks), Items(blocks, k), from, to)
  {
    row := Stats(Live(Headers(blocks), Items(blocks, Special), from, to),
                 Live(Headers(blocks), Items(blocks, CoinJoins), from, to),
                 Live(Headers(blocks), Items(blocks, Multisig), from, to),
                 Live(Headers(blocks), Items(blocks, Normal), from, to));
  }

  method RollupRow(r: Rollups, lo: int, n: nat) returns (row: Stats)
    ensures forall k :: StatOf(row, k) == SumOf(h => KindOf(At(r, HourStats(h)), k), lo, n)
  {
    row := Stats(SumOf(h => KindOf(At(r, HourStats(h)), Special), lo, n),
                 SumOf(h => KindOf(At(r, HourStats(h)), CoinJoins), lo, n),
                 SumOf(h => KindOf(At(r, HourStats(h)), Multisig), lo, n),
                 SumOf(h => KindOf(At(r, HourStats(h)), Normal), lo, n));
  }

  function RollupPart(blocks: seq<Block>, start: int, end: int, k: Kind): int {
    Weigh(Items(blocks, k), (x: Item) => InRollup(start, end, x.time))
  }

  /** Stitched counts are the window's own and the strays, for any block times. */
  lemma {:induction false} Stitched(blocks: seq<Block>, start: int, end: int, k: Kind)
    ensures RollupPart(blocks, start, end, k) + SliceSum(blocks, LiveSlices(start, end), k) ==
            Weigh(Items(blocks, k), (x: Item) => Covered(start, end, x.time))
              + Strays(blocks, LiveSlices(start, end), k)
  {
    var items := Items(blocks, k);
    ItemsOnChain(blocks, k);
    forall x | x in items
      ensures One(InRollup(start, end, x.time)) + Slicing(LiveSlices(start, end), x.time) ==
              One(Covered(start, end, x.time))
    {
      EachInstantOnce(start, end, x.time);
    }
    SlicesTile(Headers(blocks), items, LiveSlices(start, end), (x: Item) => InRollup(start, end, x.time),
               (x: Item) => Covered(start, end, x.time));
  }

  /** The full hours, from the rollup. */
  method AddRollup(totals0: Stats, r: Rollups, ghost blocks: seq<Block>, start: int, end: int) returns (totals: Stats)
    requires HourlyAgrees(r, blocks) && UsesRollup(start, end)
    ensures forall k :: StatOf(totals, k) == StatOf(totals0, k) + RollupPart(blocks, start, end, k)
  {
    var row := RollupRow(r, FirstHour(start), EndHour(end) - FirstHour(start));
    totals := AddStats(totals0, row);
    forall k ensures StatOf(row, k) == RollupPart(blocks, start, end, k) {
      RollupIs(r, blocks, start, end, k);
    }
  }

  /** The partial hours, from the transactions themselves. */
  method AddLive(totals0: Stats, blocks: seq<Block>, liveSlices: seq<Slice>) returns (totals: Stats)
    ensures forall k :: StatOf(totals, k) == StatOf(totals0, k) + SliceSum(blocks, liveSlices, k)
  {
    totals := totals0;
    for i := 0 to |liveSlices|
      invariant forall k :: StatOf(totals, k) == StatOf(totals0, k) + SliceSum(blocks, liveSlices[..i], k)
    {
      assert liveSlices[..i + 1][..i] == liveSlices[..i];
      var row := LiveRow(blocks, liveSlices[i].from, liveSlices[i].to);
      totals := AddStats(totals, row);
    }
    assert liveSlices[..|liveSlices|] == liveSlices;
  }

  lemma {:induction false} NothingRolled(blocks: seq<Block>, start: int, end: int)
    requires !UsesRollup(start, end)
    ensures forall k :: RollupPart(blocks, start, end, k) == 0
  {
    forall k ensures RollupPart(blocks, start, end, k) == 0 {
      WeighNone(Items(blocks, k), (x: Item) => InRollup(start, end, x.time));
    }
  }

  /** `getTransactionStats`, over any block times: what was confirmed in the window,
   * each instant counted once, and the strays of the live slices. */
  method GetTransactionStats(r: Rollups, blocks: seq<Block>, start: int, end: int) returns (totals: Stats)
    requires HourlyAgrees(r, blocks)
    ensures forall k :: StatOf(totals, k) ==
                        Weigh(Items(blocks, k), (x: Item) => Covered(start, end, x.time))
                          + Strays(blocks, LiveSlices(start, end), k)
  {
    var hourLo, hourHi := FirstHour(start), EndHour(end);
    var useRollup := hourLo < hourHi;
    var liveSlices: seq<Slice> := [];
    if useRollup {
      if start < hourLo * HOUR_MS {
        liveSlices := liveSlices + [Slice(start, hourLo * HOUR_MS - 1)];
      }
      if hourHi * HOUR_MS < end {
        liveSlices := liveSlices + [Slice(hourHi * HOUR_MS, end)];
      }
    } else {
      liveSlices := liveSlices + [Slice(start, end)];
    }
    assert liveSlices == LiveSlices(start, end);
    totals := Stats(0, 0, 0, 0);
    if useRollup {
      totals := AddRollup(totals, r, blocks, start, end);
    } else {
      NothingRolled(blocks, start, end);
    }
    totals := AddLive(totals, blocks, liveSlices);
    forall k ensures StatOf(totals, k) ==
                     Weigh(Items(blocks, k), (x: Item) => Covered(start, end, x.time))
                       + Strays(blocks, LiveSlices(start, end), k)
    {
      Stitched(blocks, start, end, k);
    }
  }

  lemma {:induction false} RollupIs(r: Rollups, blocks: seq<Block>, start: int, end: int, k: Kind)
    requires HourlyAgrees(r, blocks)
    ensures RollupPart(blocks, start, end, k) ==
            if UsesRollup(start, end)
            then SumOf(h => KindOf(At(r, HourStats(h)), k), FirstHour(start), EndHour(end) - FirstHour(start)) else 0
  {
    var items, lo, hi := Items(blocks, k), FirstHour(start), EndHour(end);
    if UsesRollup(start, end) {
      var rows := h => KindOf(At(r, HourStats(h)), k);
      var bucketOf: int -> int := HourOf;
      forall d ensures rows(d) == Weigh(items, (x: Item) => bucketOf(x.time) == d) {
        WeighSame(items, (x: Item) => HourOf(x.time) == d, (x: Item) => bucketOf(x.time) == d);
      }
      BucketsSum(items, bucketOf, rows, lo, hi - lo);
      SumSame(rows, h => KindOf(At(r, HourStats(h)), k), lo, hi - lo);
      WeighSame(items, (x: Item) => lo <= bucketOf(x.time) < lo + (hi - lo), (x: Item) => InRollup(start, end, x.time));
    } else {
      WeighNone(items, (x: Item) => InRollup(start, end, x.time));
    }
  }

  // ------------------------------------------------------------------- exactness

  predicate StraysFrom(blocks: seq<Block>, s: Slice, b: Block) {
    InHeights(HeightsIn(Headers(blocks), s.from, s.to), b.height) && !Inside(b.time, s.from, s.to)
  }

  /** No block with transactions is caught by the height range of a live slice while
   * its own time lies outside it. */
  predicate NoStrays(blocks: seq<Block>, slices: seq<Slice>) {
    forall s, b :: s in slices && b in blocks && b.txs != [] ==> !StraysFrom(blocks, s, b)
  }

  lemma {:induction false} ItemOfBlock(blocks: seq<Block>, k: Kind, x: Item)
    requires x in Items(blocks, k)
    ensures exists b :: b in blocks && b.txs != [] && x.height == b.height && x.time == b.time
  {
    var before, b := blocks[..|blocks| - 1], blocks[|blocks| - 1];
    if x in Items(before, k) {
      ItemOfBlock(before, k, x);
      var c :| c in before && c.txs != [] && x.height == c.height && x.time == c.time;
      assert c in blocks;
    } else {
      TxItemsAre(b.txs, b.height, b.time, k, x);
      assert b in blocks && b.txs != [];
    }
  }

  /** Every transaction is of at least one kind. */
  lemma {:induction false} SomeKind(tx: Tx)
    ensures exists k :: KindOf(HourTally(tx), k) == 1
  {
    if tx.txType > 0 {
      assert KindOf(HourTally(tx), Special) == 1;
    } else if CoinJoin(tx) {
      assert KindOf(HourTally(tx), CoinJoins) == 1;
    } else if tx.multisig {
      assert KindOf(HourTally(tx), Multisig) == 1;
    } else {
      assert KindOf(HourTally(tx), Normal) == 1;
    }
  }

  lemma {:induction false} BlockHasItem(blocks: seq<Block>, b: Block) returns (k: Kind)
    requires b in blocks && b.txs != []
    ensures Item(b.height, b.time, 1) in Items(blocks, k)
  {
    var n := |blocks| - 1;
    if b in blocks[..n] {
      k := BlockHasItem(blocks[..n], b);
    } else {
      SomeKind(b.txs[|b.txs| - 1]);
      k :| KindOf(HourTally(b.txs[|b.txs| - 1]), k) == 1;
      assert Item(b.height, b.time, 1) in TxItems(b.txs, b.height, b.time, k);
    }
  }

  lemma {:induction false} WeighAtLeast(items: seq<Item>, p: Item -> bool, x: Item)
    requires forall y :: y in items ==> y.weight >= 0
    ensures Weigh(items, p) >= 0
    ensures x in items && p(x) ==> Weigh(items, p) >= x.weight
  {
    if items != [] {
      var before := items[..|items| - 1];
      assert forall y :: y in before ==> y in items;
      WeighAtLeast(before, p, x);
      assert items[|items| - 1] in items;
    }
  }

  lemma {:induction false} StraysNonNegative(blocks: seq<Block>, slices: seq<Slice>, k: Kind)
    ensures Strays(blocks, slices, k) >= 0
  {
    if slices != [] {
      var s := slices[|slices| - 1];
      StraysNonNegative(blocks, slices[..|slices| - 1], k);
      forall y | y in Items(blocks, k) ensures y.weight >= 0 { ItemsAre(blocks, k, y); }
      WeighAtLeast(Items(blocks, k), (x: Item) => Stray(Headers(blocks), s.from, s.to, x), Item(0, 0, 0));
    }
  }

  lemma {:induction false} StrayCounts(blocks: seq<Block>, slices: seq<Slice>, s: Slice, b: Block) returns (k: Kind)
    requires s in slices && b in blocks && b.txs != [] && StraysFrom(blocks, s, b)
    ensures Strays(blocks, slices, k) > 0
  {
    var n := |slices| - 1;
    if s in slices[..n] {
      k := StrayCounts(blocks, slices[..n], s, b);
    } else {
      k := BlockHasItem(blocks, b);
      StraysNonNegative(blocks, slices[..n], k);
    }
    var last := slices[n];
    forall y | y in Items(blocks, k) ensures y.weight >= 0 { ItemsAre(blocks, k, y); }
    WeighAtLeast(Items(blocks, k), (x: Item) => Stray(Headers(blocks), last.from, last.to, x),
                 Item(b.height, b.time, 1));
  }

  lemma {:induction false} NoneStray(blocks: seq<Block>, slices: seq<Slice>, k: Kind)
    requires NoStrays(blocks, slices)
    ensures Strays(blocks, slices, k) == 0
  {
    if slices != [] {
      var s, before := slices[|slices| - 1], slices[..|slices| - 1];
      assert s in slices && forall x :: x in before ==> x in slices;
      NoneStray(blocks, before, k);
      forall x | x in Items(blocks, k) ensures !Stray(Headers(blocks), s.from, s.to, x) {
        ItemOfBlock(blocks, k, x);
        var b :| b in blocks && b.txs != [] && x.height == b.height && x.time == b.time;
        assert !StraysFrom(blocks, s, b);
      }
      WeighNone(Items(blocks, k), (x: Item) => Stray(Headers(blocks), s.from, s.to, x));
    }
  }

  /** The stitched counts are the window's own, in every column, if and only if no
   * block with transactions strays into a live slice. */
  lemma {:induction false} ExactIff(blocks: seq<Block>, start: int, end: int)
    ensures (forall k :: Strays(blocks, LiveSlices(start, end), k) == 0) <==> NoStrays(blocks, LiveSlices(start, end))
  {
    var slices := LiveSlices(start, end);
    if NoStrays(blocks, slices) {
      forall k ensures Strays(blocks, slices, k) == 0 { NoneStray(blocks, slices, k); }
    } else {
      var s, b :| s in slices && b in blocks && b.txs != [] && StraysFrom(blocks, s, b);
      var k := StrayCounts(blocks, slices, s, b);
    }
  }

  /** Non-decreasing block times leave no strays: the counts are exact. */
  lemma {:induction false} MonotoneIsExact(blocks: seq<Block>, start: int, end: int)
    requires Monotone(Headers(blocks))
    ensures NoStrays(blocks, LiveSlices(start, end))
    ensures forall k :: Strays(blocks, LiveSlices(start, end), k) == 0
  {
    forall s, b | s in LiveSlices(start, end) && b in blocks && b.txs != [] ensures !StraysFrom(blocks, s, b) {
      var i :| 0 <= i < |blocks| && blocks[i] == b;
      assert Headers(blocks)[i] == Header(b.height, b.time);
      NothingStrays(Headers(blocks), s.from, s.to, Item(b.height, b.time, 0));
    }
    ExactIff(blocks, start, end);
  }

  /** Three blocks whose times go back by an hour in the middle. */
  function Backwards(first: Tx, middle: Tx, last: Tx): seq<Block> {
    [Block(1, 7200, 0, [first]), Block(2, 3600, 0, [middle]), Block(3, 7300, 0, [last])]
  }

  lemma {:induction false} MoreItems(blocks: seq<Block>, height: int, time: int, tx: Tx, k: Kind)
    ensures Items(blocks + [Block(height, time, 0, [tx])], k) ==
            Items(blocks, k) + [Item(height, time, KindOf(HourTally(tx), k))]
  {
    var more, one := blocks + [Block(height, time, 0, [tx])], [tx];
    assert more[..|more| - 1] == blocks && one[..|one| - 1] == [];
    assert TxItems([], height, time, k) == [];
  }

  lemma {:induction false} BackwardsItems(blocks: seq<Block>, first: Tx, middle: Tx, last: Tx, k: Kind)
    requires blocks == Backwards(first, middle, last)
    ensures Items(blocks, k) ==
            [Item(1, 7200, KindOf(HourTally(first), k)), Item(2, 3600, KindOf(HourTally(middle), k)),
             Item(3, 7300, KindOf(HourTally(last), k))]
  {
    var one := [Block(1, 7200, 0, [first])];
    var two := one + [Block(2, 3600, 0, [middle])];
    assert one == [] + one && blocks == two + [Block(3, 7300, 0, [last])];
    MoreItems([], 1, 7200, first, k);
    MoreItems(one, 2, 3600, middle, k);
    MoreItems(two, 3, 7300, last, k);
  }

  lemma {:induction false} WeighMore(items: seq<Item>, x: Item, p: Item -> bool)
    ensures Weigh(items + [x], p) == Weigh(items, p) + if p(x) then x.weight else 0
  {
    var more := items + [x];
    assert more[..|more| - 1] == items;
  }

  lemma {:induction false} OfThree(x: Item, y: Item, z: Item, p: Item -> bool)
    requires x.weight == 0 && y.weight == 1 && z.weight == 0
    ensures Weigh([x, y, z], p) == One(p(y))
  {
    assert [x, y, z] == [x, y] + [z] && [x, y] == [x] + [y] && [x] == [] + [x];
    WeighMore([], x, p);
    WeighMore([x], y, p);
    WeighMore([x, y], z, p);
  }

  /** The live slice of the last, partial hour resolves to all three heights. */
  lemma {:induction false} MiddleStrays(blocks: seq<Block>, first: Tx, middle: Tx, last: Tx)
    requires blocks == Backwards(first, middle, last)
    ensures var headers := Headers(blocks);
            && LiveSlices(0, 7_400_000) == [Slice(7_200_000, 7_400_000)]
            && Stray(headers, 7_200_000, 7_400_000, Item(2, 3600, 1))
  {
    var headers := Headers(blocks);
    HeightsAre(headers, 7_200_000, 7_400_000);
    assert headers[0] == Header(1, 7200) && headers[2] == Header(3, 7300);
    assert headers[0] in headers && headers[2] in headers;
  }

  lemma {:induction false} OneSlice(headers: seq<Header>, items: seq<Item>, s: Slice)
    ensures SlicesStray(headers, items, [s]) == Weigh(items, (x: Item) => Stray(headers, s.from, s.to, x))
  {
    var slices := [s];
    assert slices[..|slices| - 1] == [];
    assert SlicesStray(headers, items, []) == 0;
  }

  lemma {:induction false} MiddleStraysOnce(headers: seq<Header>, items: seq<Item>, s: Slice, end: int, x: Item,
                                            y: Item, z: Item)
    requires items == [x, y, z] && x.weight == 0 && y.weight == 1 && z.weight == 0
    requires Covered(0, end, y.time) && Stray(headers, s.from, s.to, y)
    ensures Weigh(items, (i: Item) => Covered(0, end, i.time)) == 1 && SlicesStray(headers, items, [s]) == 1
  {
    OfThree(x, y, z, (i: Item) => Covered(0, end, i.time));
    OfThree(x, y, z, (i: Item) => Stray(headers, s.from, s.to, i));
    OneSlice(headers, items, s);
  }

  lemma {:induction false} MiddleItems(blocks: seq<Block>, first: Tx, middle: Tx, last: Tx, k: Kind)
    requires blocks == Backwards(first, middle, last)
    requires KindOf(HourTally(first), k) == KindOf(HourTally(last), k) == 0 && KindOf(HourTally(middle), k) == 1
    ensures Items(blocks, k) == [Item(1, 7200, 0), Item(2, 3600, 1), Item(3, 7300, 0)]
  {
    BackwardsItems(blocks, first, middle, last, k);
  }

  lemma {:induction false} MiddleTwice(blocks: seq<Block>, k: Kind)
    requires Items(blocks, k) == [Item(1, 7200, 0), Item(2, 3600, 1), Item(3, 7300, 0)]
    requires LiveSlices(0, 7_400_000) == [Slice(7_200_000, 7_400_000)]
    requires Stray(Headers(blocks), 7_200_000, 7_400_000, Item(2, 3600, 1))
    ensures Weigh(Items(blocks, k), (x: Item) => Covered(0, 7_400_000, x.time)) == 1
    ensures Strays(blocks, LiveSlices(0, 7_400_000), k) == 1
  {
    assert Covered(0, 7_400_000, 3600);
    MiddleStraysOnce(Headers(blocks), Items(blocks, k), Slice(7_200_000, 7_400_000), 7_400_000,
                     Item(1, 7200, 0), Item(2, 3600, 1), Item(3, 7300, 0));
  }

  /** The middle block is counted in its own hour, from the rollup, and once more in the last
   * hour's live slice: the only transaction of its kind is reported twice. */
  method BackwardsCountsTwice(r: Rollups, blocks: seq<Block>, first: Tx, middle: Tx, last: Tx, k: Kind)
    returns (totals: Stats)
    requires blocks == Backwards(first, middle, last) && HourlyAgrees(r, blocks)
    requires KindOf(HourTally(first), k) == KindOf(HourTally(last), k) == 0 && KindOf(HourTally(middle), k) == 1
    ensures StatOf(totals, k) == 2 && Weigh(Items(blocks, k), (x: Item) => Covered(0, 7_400_000, x.time)) == 1
  {
    MiddleItems(blocks, first, middle, last, k);
    MiddleStrays(blocks, first, middle, last);
    MiddleTwice(blocks, k);
    totals := GetTransactionStats(r, blocks, 0, 7_400_000);
  }

  // --------------------------------------------------------------- in every run

  lemma {:induction false} KindPlus(x: Tally, y: Tally, k: Kind)
    ensures KindOf(Plus(x, y), k) == KindOf(x, k) + KindOf(y, k)
  {
  }

  lemma {:induction false} TxsTotalWeighs(txs: seq<Tx>, height: int, time: int, h: int, k: Kind)
    ensures KindOf(TxsTotal(txs, time, HourStats(h)), k) ==
            Weigh(TxItems(txs, height, time, k), (x: Item) => HourOf(x.time) == h)
  {
    if txs != [] {
      var before, tx := txs[..|txs| - 1], txs[|txs| - 1];
      TxsTotalWeighs(before, height, time, h, k);
      KindPlus(TxsTotal(before, time, HourStats(h)), StatPart(tx, time, HourStats(h)), k);
      var items := TxItems(txs, height, time, k);
      assert items[..|items| - 1] == TxItems(before, height, time, k);
    }
  }

  lemma {:induction false} StatsTotalWeighs(blocks: seq<Block>, h: int, k: Kind)
    ensures KindOf(StatsTotal(blocks, HourStats(h)), k) == Weigh(Items(blocks, k), (x: Item) => HourOf(x.time) == h)
  {
    if blocks != [] {
      var before, b := blocks[..|blocks| - 1], blocks[|blocks| - 1];
      StatsTotalWeighs(before, h, k);
      TxsTotalWeighs(b.txs, b.height, b.time, h, k);
      WeighConcat(Items(before, k), TxItems(b.txs, b.height, b.time, k), (x: Item) => HourOf(x.time) == h);
      KindPlus(BlockPart(b, HourStats(h)), TxsTotal(b.txs, b.time, HourStats(h)), k);
      KindPlus(StatsTotal(before, HourStats(h)),
               Plus(BlockPart(b, HourStats(h)), TxsTotal(b.txs, b.time, HourStats(h))), k);
    }
  }

  lemma {:induction false} HourStep(w: World, rpc: Rpc, chain: seq<Mined>, k: RollupKey, before: seq<Mined>, m: Mined,
                                    res: seq<Resolved>)
    requires chain != [] && before == chain[..|chain| - 1] && m == chain[|chain| - 1]
             && res == ChainResolved(w, rpc, before, m.tx)
    requires k.HourStats? && WalkTotal(w, rpc, before, k) == ZERO
    ensures WalkTotal(w, rpc, chain, k) == ZERO
  {
    NoHourPart(m, res, k.hour);
  }

  lemma {:induction false} NoHourWalk(w: World, rpc: Rpc, chain: seq<Mined>, k: RollupKey)
    requires k.HourStats?
    ensures WalkTotal(w, rpc, chain, k) == ZERO
  {
    if chain != [] {
      var before, m := chain[..|chain| - 1], chain[|chain| - 1];
      NoHourWalk(w, rpc, before, k);
      HourStep(w, rpc, chain, k, before, m, ChainResolved(w, rpc, before, m.tx));
    }
  }

  lemma {:induction false} AccountedHourly(t: Tables, w: World, rpc: Rpc, history: seq<Block>)
    requires Accounted(t, w, rpc, history)
    ensures HourlyAgrees(t.rollups, history)
  {
    forall h, k ensures KindOf(At(t.rollups, HourStats(h)), k) ==
      Weigh(Items(history, k), (x: Item) => HourOf(x.time) == h) {
      NoHourWalk(w, rpc, Flatten(history), HourStats(h));
      KindPlus(ZERO, StatsTotal(history, HourStats(h)), k);
      StatsTotalWeighs(history, h, k);
    }
  }

  /** In every run the hourly table holds what the mined blocks hold. */
  lemma {:induction false} RunAgreesHourly(w: World, rpc: Rpc, events: seq<Event>)
    requires ValidRun(w, [], events) && Mining(w, events, rpc)
    ensures HourlyAgrees(Run(EMPTY, events).rollups, HistoryOf(events))
  {
    RunAccounted(w, rpc, events, Run(EMPTY, events));
    AccountedHourly(Run(EMPTY, events), w, rpc, HistoryOf(events));
  }
}
