/** The windows' answers from the tables of a run alone: rollup rows, and rows of transactions,
 * inputs and outputs. */
module LiveAnswers {
  import opened Prelude
  import opened Rollups
  import opened Ledger
  import opened LedgerFacts
  import opened LedgerInvariants
  import opened LedgerRuns
  import opened LedgerTotals
  import opened LedgerBalance
  import opened LedgerSums
  import opened TimeWindows
  import opened XpubHistory
  import opened LiveRows
  import StatsWindow
  import ActivityWindow
  import BalanceSeries

  // ------------------------------------------------------------ the blocks table

  /** The heights between which a slice's rows are read: MIN and MAX over the blocks table. */
  ghost predicate RangeOf(blocks: map<int, BlockRow>, from: int, to: int, range: Option<Heights>) {
    && (forall h :: h in blocks && Inside(blocks[h].time, from, to) ==> InHeights(range, h))
    && (range.Some? ==> InSlice(blocks, from, to, range.value.min) && InSlice(blocks, from, to, range.value.max))
  }

  predicate InSlice(blocks: map<int, BlockRow>, from: int, to: int, h: int) {
    h in blocks && Inside(blocks[h].time, from, to)
  }

  lemma {:induction false} PutFrom(history: seq<Block>, h: int)
    requires h in PutBlocks(map[], history)
    ensures Header(h, PutBlocks(map[], history)[h].time) in StatsWindow.Headers(history)
  {
    if history != [] {
      var before, b := history[..|history| - 1], history[|history| - 1];
      var headers := StatsWindow.Headers(history);
      assert headers[|before|] == Header(b.height, b.time);
      if h in PutBlocks(map[], before) {
        PutFrom(before, h);
        var i :| 0 <= i < |before| && StatsWindow.Headers(before)[i] == Header(h, PutBlocks(map[], before)[h].time);
        assert headers[i] == StatsWindow.Headers(before)[i];
      }
    }
  }

  /** With one block per height, the blocks table of a run has the height range that the blocks
   * written in it have. */
  lemma {:induction false} RunRange(events: seq<Event>, t: Tables, from: int, to: int)
    requires t == Run(EMPTY, events) && OneBlockEach(HistoryOf(events))
    ensures RangeOf(t.blocks, from, to, HeightsIn(StatsWindow.Headers(HistoryOf(events)), from, to))
  {
    var history := HistoryOf(events);
    var headers := StatsWindow.Headers(history);
    RunBlocks(EMPTY, events);
    HeightsAre(headers, from, to);
    forall h | InSlice(t.blocks, from, to, h) ensures InHeights(HeightsIn(headers, from, to), h) {
      PutFrom(history, h);
    }
    forall h | AtHeight(headers, from, to, h) ensures InSlice(t.blocks, from, to, h) {
      var b :| b in headers && b.height == h && Inside(b.time, from, to);
      var i :| 0 <= i < |headers| && headers[i] == b;
      BlockTime(history, i);
    }
  }

  // ------------------------------------------------------------------ statistics

  /** The live slices' counts of stored transactions. */
  function RowsLive(t: Tables, headers: seq<Header>, slices: seq<Slice>, k: StatsWindow.Kind): int {
    if slices == [] then 0 else
      var s := slices[|slices| - 1];
      RowsLive(t, headers, slices[..|slices| - 1], k)
        + |RowsWith(t.transactions, h => InHeights(HeightsIn(headers, s.from, s.to), h), OfKind(t.transactions, k))|
  }

  lemma {:induction false} RowsLiveAre(w: World, events: seq<Event>, t: Tables, slices: seq<Slice>, k: StatsWindow.Kind)
    requires ValidRun(w, [], events) && t == Run(EMPTY, events)
    ensures RowsLive(t, StatsWindow.Headers(HistoryOf(events)), slices, k) ==
            StatsWindow.SliceSum(HistoryOf(events), slices, k)
  {
    if slices != [] {
      var s, history := slices[|slices| - 1], HistoryOf(events);
      var range := HeightsIn(StatsWindow.Headers(history), s.from, s.to);
      RowsLiveAre(w, events, t, slices[..|slices| - 1], k);
      RunKindRows(w, events, t, k, h => InHeights(range, h));
      WeighSame(StatsWindow.Items(history, k), (x: Item) => ((h: int) => InHeights(range, h))(x.height),
                (x: Item) => InHeights(range, x.height));
    }
  }

  /** The transaction statistics from the tables of any run, whole hours from the rollup and
   * the rest counted: what was mined in the window, and the strays. */
  lemma {:induction false} RunStats(w: World, rpc: Rpc, events: seq<Event>, t: Tables, start: int, end: int,
                                    k: StatsWindow.Kind)
    requires ValidRun(w, [], events) && Mining(w, events, rpc) && t == Run(EMPTY, events)
    ensures var history, slices := HistoryOf(events), StatsWindow.LiveSlices(start, end);
            var lo, hi := StatsWindow.FirstHour(start), StatsWindow.EndHour(end);
            (if lo < hi then SumOf(h => StatsWindow.KindOf(At(t.rollups, HourStats(h)), k), lo, hi - lo) else 0)
            + RowsLive(t, StatsWindow.Headers(history), slices, k) ==
            Weigh(StatsWindow.Items(history, k), (x: Item) => StatsWindow.Covered(start, end, x.time))
            + StatsWindow.Strays(history, slices, k)
  {
    StatsWindow.RunAgreesHourly(w, rpc, events);
    StatsWindow.RollupIs(t.rollups, HistoryOf(events), start, end, k);
    RowsLiveAre(w, events, t, StatsWindow.LiveSlices(start, end), k);
    StatsWindow.Stitched(HistoryOf(events), start, end, k);
  }

  // -------------------------------------------------------------------- activity

  /** The live slices' counts of stored transactions with a row of the address. */
  function RowsTouching(t: Tables, headers: seq<Header>, slices: seq<Slice>, a: Address): int {
    if slices == [] then 0 else
      var s := slices[|slices| - 1];
      RowsTouching(t, headers, slices[..|slices| - 1], a)
        + |RowsWith(t.transactions, h => InHeights(HeightsIn(headers, s.from, s.to), h), HasRows(t, a))|
  }

  lemma {:induction false} RowsTouchingAre(t: Tables, w: World, chain: seq<Mined>, headers: seq<Header>,
                                           slices: seq<Slice>, a: Address)
    requires Inv(t, w, chain)
    ensures RowsTouching(t, headers, slices, a) == SlicesLive(headers, StoredHits(t, chain, a), slices)
  {
    if slices != [] {
      var s := slices[|slices| - 1];
      var range := HeightsIn(headers, s.from, s.to);
      RowsTouchingAre(t, w, chain, headers, slices[..|slices| - 1], a);
      TouchedRows(t, w, chain, a, h => InHeights(range, h));
      WeighSame(StoredHits(t, chain, a), (x: Item) => ((h: int) => InHeights(range, h))(x.height),
                (x: Item) => InHeights(range, x.height));
    }
  }

  /** The whole answer for one address. */
  function RowCount(t: Tables, headers: seq<Header>, start: int, end: int, a: Address): int {
    RowsTouching(t, headers, ActivityWindow.LiveWindows(start, end), a)
      + ActivityWindow.DailyPart(ActivityWindow.DayCount(t.rollups, a), ActivityWindow.DayWindows(start, end))
      + ActivityWindow.WeeklyPart(ActivityWindow.WeekCount(t.rollups, a), start, end)
  }

  /** What the thresholds leave out of the rollup rows. */
  function Lost(r: Rollups, start: int, end: int, a: Address): int {
    ActivityWindow.DailyLost(ActivityWindow.DayCount(r, a), ActivityWindow.DayWindows(start, end))
      + ActivityWindow.WeeklyLost(ActivityWindow.WeekCount(r, a), start, end)
  }

  lemma {:induction false} ItemsOnChain(history: seq<Block>, chain: seq<Mined>, items: seq<Item>)
    requires chain == Flatten(history) && |items| == |chain|
    requires forall i :: 0 <= i < |chain| ==> items[i].height == chain[i].height && items[i].time == chain[i].time
    ensures OnChain(StatsWindow.Headers(history), items)
  {
    forall x | x in items ensures Header(x.height, x.time) in StatsWindow.Headers(history) {
      var i :| 0 <= i < |items| && items[i] == x;
      var j := BlockOf(history, i);
      assert StatsWindow.Headers(history)[j] == Header(x.height, x.time);
    }
  }

  lemma {:induction false} HitsOnChain(w: World, rpc: Rpc, events: seq<Event>, a: Address)
    ensures OnChain(StatsWindow.Headers(HistoryOf(events)), ActivityWindow.Hits(w, rpc, ChainOf(events), a))
  {
    var chain, hits := ChainOf(events), ActivityWindow.Hits(w, rpc, ChainOf(events), a);
    ChainIsHistory(events);
    HitPerTx(w, rpc, chain, a);
    forall i | 0 <= i < |chain| ensures hits[i].height == chain[i].height && hits[i].time == chain[i].time {
      HitsAre(w, rpc, chain, a, i);
    }
    ItemsOnChain(HistoryOf(events), chain, hits);
  }

  /** By how many the live slices' stored rows exceed the touching transactions of their heights. */
  ghost function LiveExcess(t: Tables, w: World, rpc: Rpc, events: seq<Event>, start: int, end: int, a: Address): int {
    var headers, slices := StatsWindow.Headers(HistoryOf(events)), ActivityWindow.LiveWindows(start, end);
    SlicesLive(headers, StoredHits(t, ChainOf(events), a), slices)
      - SlicesLive(headers, ActivityWindow.Hits(w, rpc, ChainOf(events), a), slices)
  }

  /** An address's activity from the tables of any run under one RPC, daily and weekly rows from
   * the rollups and the rest counted: the window's touching transactions and the strays, less
   * what the thresholds leave out. In a sourced run nothing else is off, and with non-decreasing
   * block times the count is short by at most 2 per daily and 10 per weekly bucket. */
  lemma {:induction false} RunActivity(w: World, rpc: Rpc, events: seq<Event>, t: Tables, start: int, end: int,
                                       a: Address, hits: seq<Item>, headers: seq<Header>)
    requires ValidRun(w, [], events) && Mining(w, events, rpc) && t == Run(EMPTY, events)
    requires hits == ActivityWindow.Hits(w, rpc, ChainOf(events), a)
    requires headers == StatsWindow.Headers(HistoryOf(events))
    ensures RowCount(t, headers, start, end, a) ==
            ActivityWindow.TrueCount(hits, start, end)
            + SlicesStray(headers, hits, ActivityWindow.LiveWindows(start, end)) - Lost(t.rollups, start, end, a)
            + LiveExcess(t, w, rpc, events, start, end, a)
    ensures RowCount(t, headers, start, end, a) ==
            ActivityWindow.Counted(hits, start, end)
            + SlicesStray(headers, hits, ActivityWindow.LiveWindows(start, end))
            + LiveExcess(t, w, rpc, events, start, end, a)
    ensures Sources(w, rpc, events) ==> LiveExcess(t, w, rpc, events, start, end, a) == 0
    ensures Sources(w, rpc, events) && Monotone(headers) ==>
              RowCount(t, headers, start, end, a) == ActivityWindow.Counted(hits, start, end)
    ensures Sources(w, rpc, events) && Monotone(headers)
              && (ActivityWindow.AllBusy(hits, start, end) || end - start <= 259_200_000) ==>
              RowCount(t, headers, start, end, a) == ActivityWindow.TrueCount(hits, start, end)
    ensures Sources(w, rpc, events) && Monotone(headers) ==>
              ActivityWindow.TrueCount(hits, start, end)
              - ActivityWindow.DAILY_MIN * ActivityWindow.DailyBuckets(ActivityWindow.DayWindows(start, end))
              - ActivityWindow.WEEKLY_MIN * ActivityWindow.WeeklyBuckets(start, end)
              <= RowCount(t, headers, start, end, a) <= ActivityWindow.TrueCount(hits, start, end)
  {
    RunInv(w, events, t);
    RowsTouchingAre(t, w, ChainOf(events), headers, ActivityWindow.LiveWindows(start, end), a);
    HitsOnChain(w, rpc, events, a);
    ActivityWindow.RunAgreesActivity(w, rpc, events, a);
    ActivityWindow.PartsAre(t.rollups, a, headers, hits, start, end);
    ActivityWindow.CountedIs(t.rollups, a, headers, hits, start, end);
    if Sources(w, rpc, events) {
      RunTrueIndex(w, rpc, events, t);
      SourcedHits(t, w, rpc, ChainOf(events), a);
      if Monotone(headers) {
        ActivityWindow.ReportedWithin(t.rollups, a, headers, hits, start, end);
        ActivityWindow.ExactWhenBusy(hits, start, end);
      }
    }
  }

  // --------------------------------------------------------------------- balances

  ghost function BucketNet(t: Tables, a: Address, range: Option<Heights>, start: int, tos: seq<int>, i: nat): int
    requires i < |tos|
  {
    RowNet(t, a, range, ms => BalanceSeries.FromOf(tos, start, i) < ms <= tos[i])
  }

  /** A balance from the tables: the days before the window, its first partial day, and the
   * first `n` buckets. */
  ghost function RowBalance(t: Tables, a: Address, first: int, range: Option<Heights>, start: int, tos: seq<int>,
                            n: nat): int
    requires n <= |tos|
  {
    if n == 0
    then BalanceSeries.Opening(BalanceSeries.NetOf(t.rollups, a), first, start) + RowNet(t, a, range, ms => ms < start)
    else RowBalance(t, a, first, range, start, tos, n - 1) + BucketNet(t, a, range, start, tos, n - 1)
  }

  /** What the items of the window's heights move: before `start`, and after it up to an instant. */
  function InWindow(items: seq<Item>, range: Option<Heights>, start: int, upTo: int): int {
    Weigh(items, (x: Item) => InHeights(range, x.height) && (Ms(x.time) < start || start < Ms(x.time) <= upTo))
  }

  lemma {:induction false} InWindowFirst(items: seq<Item>, range: Option<Heights>, start: int)
    ensures InWindow(items, range, start, start) == BalanceSeries.BeforeStart(items, range, start)
  {
    WeighSame(items, (x: Item) => InHeights(range, x.height) && (Ms(x.time) < start || start < Ms(x.time) <= start),
              (x: Item) => InHeights(range, x.height) && Ms(x.time) < start);
  }

  lemma {:induction false} InWindowNext(items: seq<Item>, range: Option<Heights>, start: int, from: int, to: int)
    requires start <= from <= to
    ensures InWindow(items, range, start, to) ==
            InWindow(items, range, start, from) + BalanceSeries.NetChange(items, range, from, to)
  {
    WeighSplit(items, (x: Item) => InHeights(range, x.height) && (Ms(x.time) < start || start < Ms(x.time) <= from),
               (x: Item) => InHeights(range, x.height) && from < Ms(x.time) <= to,
               (x: Item) => InHeights(range, x.height) && (Ms(x.time) < start || start < Ms(x.time) <= to));
  }

  /** The rows a series reads, by their items. */
  ghost predicate RowsMove(t: Tables, a: Address, range: Option<Heights>, items: seq<Item>) {
    forall q: int -> bool ::
      RowNet(t, a, range, q) == Weigh(items, (x: Item) => InHeights(range, x.height) && q(Ms(x.time)))
  }

  lemma {:induction false} FirstRows(t: Tables, a: Address, range: Option<Heights>, items: seq<Item>, start: int)
    requires RowsMove(t, a, range, items)
    ensures RowNet(t, a, range, ms => ms < start) == InWindow(items, range, start, start)
  {
    var q := (ms: int) => ms < start;
    assert RowNet(t, a, range, q) == Weigh(items, (x: Item) => InHeights(range, x.height) && q(Ms(x.time)));
    WeighSame(items, (x: Item) => InHeights(range, x.height) && q(Ms(x.time)),
              (x: Item) => InHeights(range, x.height) && Ms(x.time) < start);
    InWindowFirst(items, range, start);
  }

  lemma {:induction false} BucketRows(t: Tables, a: Address, range: Option<Heights>, items: seq<Item>, start: int,
                                      tos: seq<int>, i: nat)
    requires RowsMove(t, a, range, items) && i < |tos|
    ensures BucketNet(t, a, range, start, tos, i) ==
            BalanceSeries.NetChange(items, range, BalanceSeries.FromOf(tos, start, i), tos[i])
  {
    var from, to := BalanceSeries.FromOf(tos, start, i), tos[i];
    var q := (ms: int) => BalanceSeries.FromOf(tos, start, i) < ms <= tos[i];
    assert RowNet(t, a, range, q) == Weigh(items, (x: Item) => InHeights(range, x.height) && q(Ms(x.time)));
    WeighSame(items, (x: Item) => InHeights(range, x.height) && q(Ms(x.time)),
              (x: Item) => InHeights(range, x.height) && from < Ms(x.time) <= to);
  }

  /** A balance from the tables is the days before the window and what the stored rows move. */
  lemma {:induction false} RowBalanceIs(t: Tables, a: Address, first: int, range: Option<Heights>, items: seq<Item>,
                                        start: int, end: int, tos: seq<int>, n: nat)
    requires RowsMove(t, a, range, items) && BalanceSeries.Series(tos, start, end) && n <= |tos|
    ensures RowBalance(t, a, first, range, start, tos, n) ==
            BalanceSeries.Opening(BalanceSeries.NetOf(t.rollups, a), first, start)
            + InWindow(items, range, start, BalanceSeries.FromOf(tos, start, n))
  {
    if n == 0 {
      FirstRows(t, a, range, items, start);
    } else {
      RowBalanceIs(t, a, first, range, items, start, end, tos, n - 1);
      BucketRows(t, a, range, items, start, tos, n - 1);
      InWindowNext(items, range, start, BalanceSeries.FromOf(tos, start, n - 1), tos[n - 1]);
    }
  }

  /** With the chain's own flows in the rows' place: the balance, off by one amount. */
  lemma {:induction false} FlowBalanceIs(net: int -> int, first: int, headers: seq<Header>, flows: seq<Item>,
                                         start: int, end: int, upTo: int)
    requires BalanceSeries.DailyAgrees(net, first, flows) && OnChain(headers, flows) && start <= upTo <= end
    ensures BalanceSeries.Opening(net, first, start)
            + InWindow(flows, BalanceSeries.WindowHeights(headers, start, end), start, upTo) ==
            BalanceSeries.BalanceAt(flows, upTo) + BalanceSeries.Off(headers, flows, start, end)
  {
    var range := BalanceSeries.WindowHeights(headers, start, end);
    BalanceSeries.InitialIs(net, first, headers, flows, start, end);
    BalanceSeries.BucketIs(headers, flows, start, end, start, upTo);
    InWindowFirst(flows, range, start);
    InWindowNext(flows, range, start, start, upTo);
  }

  lemma {:induction false} FlowsOnChain(w: World, rpc: Rpc, events: seq<Event>, a: Address)
    ensures OnChain(StatsWindow.Headers(HistoryOf(events)), BalanceSeries.Flows(w, rpc, ChainOf(events), a))
  {
    var chain, flows := ChainOf(events), BalanceSeries.Flows(w, rpc, ChainOf(events), a);
    ChainIsHistory(events);
    FlowPerTx(w, rpc, chain, a);
    forall i | 0 <= i < |chain| ensures flows[i].height == chain[i].height && flows[i].time == chain[i].time {
      FlowsAre(w, rpc, chain, a, i);
    }
    ItemsOnChain(HistoryOf(events), chain, flows);
  }

  /** The query's height range, from the blocks of the run. */
  function WindowOf(events: seq<Event>, start: int, end: int): Option<Heights> {
    BalanceSeries.WindowHeights(StatsWindow.Headers(HistoryOf(events)), start, end)
  }

  lemma {:induction false} RunRowsMove(w: World, events: seq<Event>, t: Tables, a: Address, range: Option<Heights>)
    requires ValidRun(w, [], events) && t == Run(EMPTY, events) && OneBlockEach(HistoryOf(events))
    ensures RowsMove(t, a, range, StoredFlows(t, ChainOf(events), a))
  {
    forall q: int -> bool
      ensures RowNet(t, a, range, q) ==
              Weigh(StoredFlows(t, ChainOf(events), a), (x: Item) => InHeights(range, x.height) && q(Ms(x.time)))
    {
      RunNetRows(w, events, t, a, range, q);
    }
  }

  lemma {:induction false} RunFlowBalance(w: World, rpc: Rpc, events: seq<Event>, t: Tables, a: Address, first: int,
                                          start: int, end: int, upTo: int, flows: seq<Item>)
    requires ValidRun(w, [], events) && Mining(w, events, rpc) && t == Run(EMPTY, events) && start <= upTo <= end
    requires flows == BalanceSeries.Flows(w, rpc, ChainOf(events), a)
    requires forall x :: x in flows ==> first <= DayOf(x.time)
    ensures BalanceSeries.Opening(BalanceSeries.NetOf(t.rollups, a), first, start)
            + InWindow(flows, WindowOf(events, start, end), start, upTo) ==
            BalanceSeries.BalanceAt(flows, upTo)
            + BalanceSeries.Off(StatsWindow.Headers(HistoryOf(events)), flows, start, end)
  {
    FlowsOnChain(w, rpc, events, a);
    BalanceSeries.RunAgreesDaily(w, rpc, events, a, first);
    FlowBalanceIs(BalanceSeries.NetOf(t.rollups, a), first, StatsWindow.Headers(HistoryOf(events)), flows, start, end,
                  upTo);
  }

  /** By how much the window's stored rows exceed what the chain moved there. */
  ghost function MovedExcess(t: Tables, w: World, rpc: Rpc, events: seq<Event>, a: Address, start: int, end: int,
                             upTo: int): int {
    InWindow(StoredFlows(t, ChainOf(events), a), WindowOf(events, start, end), start, upTo)
      - InWindow(BalanceSeries.Flows(w, rpc, ChainOf(events), a), WindowOf(events, start, end), start, upTo)
  }

  /** An address's balance from the tables of any run under one RPC, up to each bucket's end:
   * what the chain gives it, off by one amount whatever the bucket, and by what the window's
   * stored rows have too much. In a sourced run they have nothing too much. */
  lemma {:induction false} RunBalance(w: World, rpc: Rpc, events: seq<Event>, t: Tables, a: Address, first: int,
                                      start: int, end: int, tos: seq<int>, n: nat, flows: seq<Item>)
    requires ValidRun(w, [], events) && Mining(w, events, rpc) && t == Run(EMPTY, events)
    requires OneBlockEach(HistoryOf(events)) && flows == BalanceSeries.Flows(w, rpc, ChainOf(events), a)
    requires forall x :: x in flows ==> first <= DayOf(x.time)
    requires BalanceSeries.Series(tos, start, end) && n <= |tos| && start <= end
    ensures RowBalance(t, a, first, WindowOf(events, start, end), start, tos, n) ==
            BalanceSeries.BalanceAt(flows, BalanceSeries.FromOf(tos, start, n))
            + BalanceSeries.Off(StatsWindow.Headers(HistoryOf(events)), flows, start, end)
            + MovedExcess(t, w, rpc, events, a, start, end, BalanceSeries.FromOf(tos, start, n))
    ensures Sources(w, rpc, events) ==>
              MovedExcess(t, w, rpc, events, a, start, end, BalanceSeries.FromOf(tos, start, n)) == 0
  {
    var range := WindowOf(events, start, end);
    RunRowsMove(w, events, t, a, range);
    RowBalanceIs(t, a, first, range, StoredFlows(t, ChainOf(events), a), start, end, tos, n);
    RunFlowBalance(w, rpc, events, t, a, first, start, end, BalanceSeries.FromOf(tos, start, n), flows);
    if Sources(w, rpc, events) {
      RunSourcedFlows(w, rpc, events, t, a);
    }
  }
}
