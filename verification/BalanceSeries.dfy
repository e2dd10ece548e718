/** `getAddressBalanceSeries`: an address's balance over time, from the day rollup before
 * the window, the first partial day, and running bucket sums. */
module BalanceSeries {
  import opened Prelude
  import opened Rollups
  import opened Ledger
  import opened LedgerFacts
  import opened LedgerInvariants
  import opened LedgerRuns
  import opened LedgerTotals
  import opened LedgerSums
  import opened TimeWindows

  datatype Point = Point(from: int, balance: int)

  /** Bucket ends, as generate_series yields them: after `start`, ascending, up to `end`. */
  predicate Series(tos: seq<int>, start: int, end: int) {
    && (forall i :: 0 <= i < |tos| ==> start < tos[i] <= end)
    && (forall i, j :: 0 <= i < j < |tos| ==> tos[i] < tos[j])
  }

  /** LAG(date_to, 1, start). */
  function FromOf(tos: seq<int>, start: int, i: int): int
    requires 0 <= i <= |tos|
  {
    if i == 0 then start else tos[i - 1]
  }

  /** Confirmed received minus sent up to an instant. */
  function BalanceAt(flows: seq<Item>, ms: int): int {
    Weigh(flows, (x: Item) => Ms(x.time) <= ms)
  }

  /** The net flow of blocks at exactly an instant. */
  function FlowAt(flows: seq<Item>, ms: int): int {
    Weigh(flows, (x: Item) => Ms(x.time) == ms)
  }

  function StartDay(start: int): int { start / DAY_MS }

  /** The day rollup holds each day's net flow, and no flow is before day `first`. */
  ghost predicate DailyAgrees(net: int -> int, first: int, flows: seq<Item>) {
    && (forall day :: net(day) == Weigh(flows, (x: Item) => DayOf(x.time) == day))
    && (forall x :: x in flows ==> first <= DayOf(x.time))
  }

  /** SUM(received) - SUM(sent) over the days before the window's first. */
  function Opening(net: int -> int, first: int, start: int): int {
    SumOf(net, first, if first < StartDay(start) then StartDay(start) - first else 0)
  }

  /** window_txs: found by the height range of the window's days. */
  function WindowHeights(headers: seq<Header>, start: int, end: int): Option<Heights> {
    HeightsIn(headers, StartDay(start) * DAY_MS, end)
  }

  /** The first partial day, up to `start`. */
  function BeforeStart(flows: seq<Item>, range: Option<Heights>, start: int): int {
    Weigh(flows, (x: Item) => InHeights(range, x.height) && Ms(x.time) < start)
  }

  /** timestamp > date_from AND timestamp <= date_to. */
  function NetChange(flows: seq<Item>, range: Option<Heights>, from: int, to: int): int {
    Weigh(flows, (x: Item) => InHeights(range, x.height) && from < Ms(x.time) <= to)
  }

  lemma {:induction false} OpeningIs(net: int -> int, first: int, flows: seq<Item>, start: int)
    requires DailyAgrees(net, first, flows)
    ensures Opening(net, first, start) == Weigh(flows, (x: Item) => DayOf(x.time) < StartDay(start))
  {
    var n := if first < StartDay(start) then StartDay(start) - first else 0;
    var bucketOf: int -> int := DayOf;
    forall day ensures net(day) == Weigh(flows, (x: Item) => bucketOf(x.time) == day) {
      WeighSame(flows, (x: Item) => DayOf(x.time) == day, (x: Item) => bucketOf(x.time) == day);
    }
    BucketsSum(flows, bucketOf, net, first, n);
    WeighSame(flows, (x: Item) => first <= bucketOf(x.time) < first + n, (x: Item) => DayOf(x.time) < StartDay(start));
  }

  /** Caught by the window's heights although mined before its first day: the day rollup has
   * counted it already. */
  predicate Early(range: Option<Heights>, start: int, x: Item) {
    InHeights(range, x.height) && Ms(x.time) < StartDay(start) * DAY_MS
  }

  function CountedTwice(flows: seq<Item>, range: Option<Heights>, start: int): int {
    Weigh(flows, (x: Item) => Early(range, start, x))
  }

  /** Every flow inside the window's days up to `end` is in its height range. */
  lemma {:induction false} WindowInRange(headers: seq<Header>, flows: seq<Item>, start: int, end: int, x: Item)
    requires OnChain(headers, flows) && x in flows && Inside(x.time, StartDay(start) * DAY_MS, end)
    ensures InHeights(WindowHeights(headers, start, end), x.height)
  {
    HeightsAre(headers, StartDay(start) * DAY_MS, end);
    var b := Header(x.height, x.time);
    assert b in headers;
  }

  /** Non-decreasing block times count nothing twice. */
  lemma {:induction false} MonotoneCountsOnce(headers: seq<Header>, flows: seq<Item>, start: int, end: int)
    requires OnChain(headers, flows) && Monotone(headers)
    ensures CountedTwice(flows, WindowHeights(headers, start, end), start) == 0
  {
    forall x | x in flows ensures !Early(WindowHeights(headers, start, end), start, x) {
      NothingStrays(headers, StartDay(start) * DAY_MS, end, x);
    }
    WeighNone(flows, (x: Item) => Early(WindowHeights(headers, start, end), start, x));
  }

  lemma {:induction false} DayBefore(time: int, start: int)
    ensures DayOf(time) < StartDay(start) <==> Ms(time) < StartDay(start) * DAY_MS
    ensures StartDay(start) * DAY_MS <= start
  {
  }

  lemma {:induction false} FirstDayIs(headers: seq<Header>, flows: seq<Item>, start: int, end: int,
                                      range: Option<Heights>)
    requires OnChain(headers, flows) && start <= end && range == WindowHeights(headers, start, end)
    ensures BeforeStart(flows, range, start) == CountedTwice(flows, range, start)
            + Weigh(flows, (x: Item) => StartDay(start) * DAY_MS <= Ms(x.time) < start)
  {
    forall x | x in flows
      ensures One(Early(range, start, x)) + One(StartDay(start) * DAY_MS <= Ms(x.time) < start) ==
              One(InHeights(range, x.height) && Ms(x.time) < start)
    {
      DayBefore(x.time, start);
      if Inside(x.time, StartDay(start) * DAY_MS, end) {
        WindowInRange(headers, flows, start, end, x);
      }
    }
    WeighSplit(flows, (x: Item) => Early(range, start, x),
               (x: Item) => StartDay(start) * DAY_MS <= Ms(x.time) < start,
               (x: Item) => InHeights(range, x.height) && Ms(x.time) < start);
  }

  /** Rollup days and first partial day: everything strictly before `start`, and what is
   * counted twice. */
  lemma {:induction false} InitialIs(net: int -> int, first: int, headers: seq<Header>, flows: seq<Item>, start: int,
                                     end: int)
    requires DailyAgrees(net, first, flows) && OnChain(headers, flows) && start <= end
    ensures var range := WindowHeights(headers, start, end);
            Opening(net, first, start) + BeforeStart(flows, range, start) ==
            BalanceAt(flows, start) - FlowAt(flows, start) + CountedTwice(flows, range, start)
  {
    OpeningIs(net, first, flows, start);
    FirstDayIs(headers, flows, start, end, WindowHeights(headers, start, end));
    forall x | x in flows
      ensures One(DayOf(x.time) < StartDay(start)) + One(StartDay(start) * DAY_MS <= Ms(x.time) < start) ==
              One(Ms(x.time) < start)
    {
      DayBefore(x.time, start);
    }
    WeighSplit(flows, (x: Item) => DayOf(x.time) < StartDay(start),
               (x: Item) => StartDay(start) * DAY_MS <= Ms(x.time) < start, (x: Item) => Ms(x.time) < start);
    WeighSplit(flows, (x: Item) => Ms(x.time) < start, (x: Item) => Ms(x.time) == start,
               (x: Item) => Ms(x.time) <= start);
  }

  /** A bucket after `start` holds exactly its own flows. */
  lemma {:induction false} BucketIs(headers: seq<Header>, flows: seq<Item>, start: int, end: int, from: int, to: int)
    requires OnChain(headers, flows) && start <= from <= to <= end
    ensures BalanceAt(flows, from) + NetChange(flows, WindowHeights(headers, start, end), from, to) ==
            BalanceAt(flows, to)
  {
    var range := WindowHeights(headers, start, end);
    forall x | x in flows
      ensures One(Ms(x.time) <= from) + One(InHeights(range, x.height) && from < Ms(x.time) <= to) ==
              One(Ms(x.time) <= to)
    {
      DayBefore(x.time, start);
      if from < Ms(x.time) <= to {
        WindowInRange(headers, flows, start, end, x);
      }
    }
    WeighSplit(flows, (x: Item) => Ms(x.time) <= from,
               (x: Item) => InHeights(range, x.height) && from < Ms(x.time) <= to,
               (x: Item) => Ms(x.time) <= to);
  }

  /** How far every point is off: flows of blocks before the window's first day that its
   * heights catch are counted twice, those at exactly `start` not at all. */
  function Off(headers: seq<Header>, flows: seq<Item>, start: int, end: int): int {
    CountedTwice(flows, WindowHeights(headers, start, end), start) - FlowAt(flows, start)
  }

  /** `getAddressBalanceSeries`, over any block times. Every point is the balance at its
   * bucket's end, off by one and the same amount. */
  method GetBalanceSeries(net: int -> int, first: int, headers: seq<Header>, flows: seq<Item>, start: int, end: int,
                          tos: seq<int>)
    returns (points: seq<Point>)
    requires DailyAgrees(net, first, flows) && OnChain(headers, flows) && Series(tos, start, end)
    ensures |points| == |tos|
    ensures forall i :: 0 <= i < |tos| ==>
              points[i] == Point(FromOf(tos, start, i), BalanceAt(flows, tos[i]) + Off(headers, flows, start, end))
    ensures forall i :: 0 <= i < |tos| ==>
              (points[i].balance == BalanceAt(flows, tos[i]) <==>
               CountedTwice(flows, WindowHeights(headers, start, end), start) == FlowAt(flows, start))
    ensures Monotone(headers) ==> CountedTwice(flows, WindowHeights(headers, start, end), start) == 0
  {
    var range := WindowHeights(headers, start, end);
    if Monotone(headers) {
      MonotoneCountsOnce(headers, flows, start, end);
    }
    var balance := Opening(net, first, start) + BeforeStart(flows, range, start);
    if start <= end {
      InitialIs(net, first, headers, flows, start, end);
    }
    points := [];
    for i := 0 to |tos|
      invariant |points| == i
      invariant start <= end ==> balance == BalanceAt(flows, FromOf(tos, start, i)) + Off(headers, flows, start, end)
      invariant forall j :: 0 <= j < i ==>
                  points[j] == Point(FromOf(tos, start, j), BalanceAt(flows, tos[j]) + Off(headers, flows, start, end))
    {
      assert tos[i] <= end && start < tos[i];
      BucketIs(headers, flows, start, end, FromOf(tos, start, i), tos[i]);
      balance := balance + NetChange(flows, range, FromOf(tos, start, i), tos[i]);
      points := points + [Point(FromOf(tos, start, i), balance)];
    }
  }

  lemma {:induction false} OneFlow(x: Item, p: Item -> bool)
    ensures Weigh([x], p) == if p(x) then x.weight else 0
  {
    assert [x][..0] == [];
  }

  /** A chain of one block, at the opening instant: the address holds its coins ever since,
   * and no point of the series shows them. */
  method LostAtStart(height: int, time: int, value: int, end: int, tos: seq<int>) returns (points: seq<Point>)
    requires Series(tos, Ms(time), end)
    ensures |points| == |tos|
    ensures forall i :: 0 <= i < |tos| ==>
              points[i].balance == 0 && BalanceAt([Item(height, time, value)], tos[i]) == value
  {
    var headers, flows := [Header(height, time)], [Item(height, time, value)];
    var net := (day: int) => if day == DayOf(time) then value else 0;
    forall p: Item -> bool ensures Weigh(flows, p) == if p(flows[0]) then value else 0 {
      OneFlow(flows[0], p);
    }
    assert headers[0] in headers;
    points := GetBalanceSeries(net, DayOf(time), headers, flows, Ms(time), end, tos);
  }

  /** Three blocks of which the middle one was mined, by its time, the day before the window:
   * what it moved is in every point twice. */
  method BackwardsCountedTwice(value: int, tos: seq<int>) returns (points: seq<Point>)
    requires Series(tos, 2 * DAY_MS, 3 * DAY_MS)
    ensures |points| == |tos|
    ensures forall i :: 0 <= i < |tos| ==>
              points[i].balance == 2 * value && BalanceAt([Item(2, 86_400, value)], tos[i]) == value
  {
    var headers := [Header(1, 172_800), Header(2, 86_400), Header(3, 172_801)];
    var flows := [Item(2, 86_400, value)];
    var net := (day: int) => if day == 1 then value else 0;
    forall p: Item -> bool ensures Weigh(flows, p) == if p(flows[0]) then value else 0 {
      OneFlow(flows[0], p);
    }
    assert headers[0] in headers && headers[1] in headers && headers[2] in headers;
    HeightsAre(headers, StartDay(2 * DAY_MS) * DAY_MS, 3 * DAY_MS);
    points := GetBalanceSeries(net, 1, headers, flows, 2 * DAY_MS, 3 * DAY_MS, tos);
  }

  // --------------------------------------------------------------- in every run

  /** What every confirmed transaction pays to the address, less what it takes. */
  function Flows(w: World, rpc: Rpc, chain: seq<Mined>, a: Address): seq<Item> {
    if chain == [] then [] else
      var before, m := chain[..|chain| - 1], chain[|chain| - 1];
      Flows(w, rpc, before, a)
        + [Item(m.height, m.time, PaidTo(m.tx.vout, a) - SpentFrom(ChainResolved(w, rpc, before, m.tx), a))]
  }

  function NetOf(r: Rollups, a: Address): int -> int {
    day => NetTotal(At(r, AddressDay(a, day)))
  }

  function NetTotal(x: Tally): int { x.received - x.sent }

  lemma {:induction false} SharesOf(k: RollupKey, day: int, received: int, sent: int, touched: bool)
    requires k.AddressDay? || k.AddressTotal?
    ensures NetTotal(Share(k, day, received, sent, touched)) ==
            if k.AddressTotal? || k.day == day then received - sent else 0
  {
  }

  lemma {:induction false} PartNet(m: Mined, res: seq<Resolved>, k: RollupKey, a: Address, received: int, sent: int,
                                   touched: bool)
    requires (k.AddressDay? || k.AddressTotal?) && k.address == a
    requires received == PaidTo(m.tx.vout, a) && sent == SpentFrom(res, a) && touched == (a in Touched(m.tx, res))
    ensures NetTotal(WalkPart(m, res, k)) == if k.AddressTotal? || k.day == DayOf(m.time) then received - sent else 0
  {
    SharesOf(k, DayOf(m.time), received, sent, touched);
  }

  lemma {:induction false} NetStep(w: World, rpc: Rpc, chain: seq<Mined>, k: RollupKey, before: seq<Mined>, m: Mined,
                                   res: seq<Resolved>)
    requires chain != [] && before == chain[..|chain| - 1] && m == chain[|chain| - 1]
             && res == ChainResolved(w, rpc, before, m.tx)
    ensures NetTotal(WalkTotal(w, rpc, chain, k)) ==
            NetTotal(WalkTotal(w, rpc, before, k)) + NetTotal(WalkPart(m, res, k))
  {
    NetPlus(WalkTotal(w, rpc, before, k), WalkPart(m, res, k));
  }

  lemma {:induction false} NetPlus(x: Tally, y: Tally)
    ensures NetTotal(Plus(x, y)) == NetTotal(x) + NetTotal(y)
  {
  }

  lemma {:induction false} DayFlows(w: World, rpc: Rpc, chain: seq<Mined>, a: Address, day: int)
    ensures NetTotal(WalkTotal(w, rpc, chain, AddressDay(a, day))) ==
            Weigh(Flows(w, rpc, chain, a), (x: Item) => DayOf(x.time) == day)
  {
    if chain != [] {
      var before, m := chain[..|chain| - 1], chain[|chain| - 1];
      var flows := Flows(w, rpc, chain, a);
      DayFlows(w, rpc, before, a, day);
      assert flows[..|flows| - 1] == Flows(w, rpc, before, a);
      var res := ChainResolved(w, rpc, before, m.tx);
      NetStep(w, rpc, chain, AddressDay(a, day), before, m, res);
      PartNet(m, res, AddressDay(a, day), a, PaidTo(m.tx.vout, a), SpentFrom(res, a), a in Touched(m.tx, res));
    }
  }

  lemma {:induction false} AccountedDay(t: Tables, w: World, rpc: Rpc, history: seq<Block>, a: Address, day: int)
    requires Accounted(t, w, rpc, history)
    ensures NetTotal(At(t.rollups, AddressDay(a, day))) ==
            Weigh(Flows(w, rpc, Flatten(history), a), (x: Item) => DayOf(x.time) == day)
  {
    AddressRowIs(t, w, rpc, history, AddressDay(a, day));
    DayFlows(w, rpc, Flatten(history), a, day);
  }

  lemma {:induction false} AccountedDaily(t: Tables, w: World, rpc: Rpc, history: seq<Block>, a: Address)
    requires Accounted(t, w, rpc, history)
    ensures forall day :: NetTotal(At(t.rollups, AddressDay(a, day))) ==
                          Weigh(Flows(w, rpc, Flatten(history), a), (x: Item) => DayOf(x.time) == day)
  {
    forall day
      ensures NetTotal(At(t.rollups, AddressDay(a, day))) ==
              Weigh(Flows(w, rpc, Flatten(history), a), (x: Item) => DayOf(x.time) == day)
    {
      AccountedDay(t, w, rpc, history, a, day);
    }
  }

  /** In every run the daily deltas hold, per day, what the address received less what it
   * sent: the series is exact up to the opening instant. */
  lemma {:induction false} RunAgreesDaily(w: World, rpc: Rpc, events: seq<Event>, a: Address, first: int)
    requires ValidRun(w, [], events) && Mining(w, events, rpc)
    requires forall x :: x in Flows(w, rpc, ChainOf(events), a) ==> first <= DayOf(x.time)
    ensures DailyAgrees(NetOf(Run(EMPTY, events).rollups, a), first, Flows(w, rpc, ChainOf(events), a))
  {
    RunAccounted(w, rpc, events, Run(EMPTY, events));
    ChainIsHistory(events);
    AccountedDaily(Run(EMPTY, events), w, rpc, HistoryOf(events), a);
  }
}
