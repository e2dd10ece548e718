/** `getAddressesActivity`: a window stitched from live edges, daily rows and weekly rows,
 * rows below a threshold left out. The counts here are those of one address. */
module ActivityWindow {
  import opened Prelude
  import opened Rollups
  import opened Ledger
  import opened LedgerFacts
  import opened LedgerInvariants
  import opened LedgerRuns
  import opened LedgerDeltas
  import opened LedgerTotals
  import opened LedgerSums
  import opened TimeWindows

  const LOW_PRECISION_AFTER := 3 * DAY_MS
  const WEEKLY_AFTER := 8 * DAY_MS
  const DAILY_MIN := 2
  const WEEKLY_MIN := 10

  /** getUTCDay: 0 is Sunday. */
  function DayOfWeek(day: int): int { (day + 4) % 7 }

  function WeekOfTime(time: int): int { WeekOf(DayOf(time)) }

  // ----------------------------------------------------------------- the windows

  /** Days [from, to). */
  datatype Days = Days(from: int, to: int)

  predicate IsShort(start: int, end: int) { end - start <= LOW_PRECISION_AFTER }

  /** First whole day at or after `start`. */
  function DayLo(start: int): int { if start % DAY_MS == 0 then start / DAY_MS else start / DAY_MS + 1 }

  function EndDay(end: int): int { end / DAY_MS }

  /** First Monday at or after the first whole day. */
  function WeekLo(start: int): int { DayLo(start) + (8 - DayOfWeek(DayLo(start))) % 7 }

  /** Last Monday at or before the closing day. */
  function WeekHi(end: int): int { EndDay(end) - (DayOfWeek(EndDay(end)) + 6) % 7 }

  predicate UsesWeekly(start: int, end: int) {
    !IsShort(start, end) && end - start > WEEKLY_AFTER && WeekLo(start) < WeekHi(end)
  }

  function LiveWindows(start: int, end: int): seq<Slice> {
    if IsShort(start, end) then [Slice(start, end)]
    else (if start % DAY_MS != 0 then [Slice(start, DayLo(start) * DAY_MS - 1)] else [])
         + (if end > EndDay(end) * DAY_MS then [Slice(EndDay(end) * DAY_MS, end)] else [])
  }

  function DayWindows(start: int, end: int): seq<Days> {
    if IsShort(start, end) then []
    else if UsesWeekly(start, end) then
      (if DayLo(start) < WeekLo(start) then [Days(DayLo(start), WeekLo(start))] else [])
      + (if WeekHi(end) < EndDay(end) then [Days(WeekHi(end), EndDay(end))] else [])
    else if DayLo(start) < EndDay(end) then [Days(DayLo(start), EndDay(end))] else []
  }

  predicate InDaily(start: int, end: int, day: int) {
    !IsShort(start, end) && DayLo(start) <= day < EndDay(end)
    && (UsesWeekly(start, end) ==> day < WeekLo(start) || WeekHi(end) <= day)
  }

  predicate InWeeklyPart(start: int, end: int, day: int) {
    UsesWeekly(start, end) && WeekLo(start) <= WeekOf(day) < WeekHi(end)
  }

  /** A midnight `end` is itself left out, unless the window is at most three days. */
  predicate Covered(start: int, end: int, time: int) {
    start <= 1000 * time <= end && !(1000 * time == end && end - start > 259_200_000 && end % 86_400_000 == 0)
  }

  function DaysHold(windows: seq<Days>, day: int): int {
    if windows == [] then 0 else
      DaysHold(windows[..|windows| - 1], day) + One(windows[|windows| - 1].from <= day < windows[|windows| - 1].to)
  }

  lemma {:induction false} DaysHoldOf(day: int, a: seq<Days>, d: Days)
    ensures DaysHold([], day) == 0
    ensures DaysHold(a + [d], day) == DaysHold(a, day) + One(d.from <= day < d.to)
  {
    assert (a + [d])[..|a + [d]| - 1] == a;
  }

  /** Both ends of the weekly part are Mondays, inside the whole days. */
  lemma {:induction false} WeekBounds(start: int, end: int)
    ensures WeekOf(WeekLo(start)) == WeekLo(start) && DayLo(start) <= WeekLo(start) < DayLo(start) + 7
    ensures WeekOf(WeekHi(end)) == WeekHi(end) && EndDay(end) - 7 < WeekHi(end) <= EndDay(end)
  {
  }

  lemma {:induction false} MondayBounds(monday: int, day: int)
    requires WeekOf(monday) == monday
    ensures monday <= WeekOf(day) <==> monday <= day
  {
  }

  lemma {:induction false} DayBounds(start: int, end: int, time: int)
    ensures DayLo(start) <= DayOf(time) <==> DayLo(start) * DAY_MS <= Ms(time)
    ensures DayOf(time) < EndDay(end) <==> Ms(time) < EndDay(end) * DAY_MS
    ensures start <= DayLo(start) * DAY_MS < start + DAY_MS
    ensures start % DAY_MS == 0 <==> start == DayLo(start) * DAY_MS
    ensures EndDay(end) * DAY_MS <= end < EndDay(end) * DAY_MS + DAY_MS
    ensures end % DAY_MS == 0 <==> end == EndDay(end) * DAY_MS
  {
  }

  /** The daily windows are the whole days that the weekly part leaves. */
  lemma {:induction false} DailyTiles(start: int, end: int, day: int)
    ensures DaysHold(DayWindows(start, end), day) == One(InDaily(start, end, day))
    ensures DaysHold(DayWindows(start, end), day) + One(InWeeklyPart(start, end, day)) ==
            One(!IsShort(start, end) && DayLo(start) <= day < EndDay(end))
  {
    WeekBounds(start, end);
    MondayBounds(WeekLo(start), day);
    MondayBounds(WeekHi(end), day);
    var a, b, c := Days(DayLo(start), WeekLo(start)), Days(WeekHi(end), EndDay(end)), Days(DayLo(start), EndDay(end));
    var first: seq<Days> := if DayLo(start) < WeekLo(start) then [a] else [];
    DaysHoldOf(day, [], a);
    DaysHoldOf(day, first, b);
    DaysHoldOf(day, [], c);
    assert [] + [a] == [a] && [] + [c] == [c];
    if UsesWeekly(start, end) {
      assert DayWindows(start, end) == if WeekHi(end) < EndDay(end) then first + [b] else first;
    }
  }

  lemma {:induction false} LiveTiles(start: int, end: int, time: int)
    ensures Slicing(LiveWindows(start, end), time)
            + One(!IsShort(start, end) && DayLo(start) <= DayOf(time) < EndDay(end)) ==
            One(Covered(start, end, time))
  {
    DayBounds(start, end, time);
    var a, b := Slice(start, DayLo(start) * DAY_MS - 1), Slice(EndDay(end) * DAY_MS, end);
    var first: seq<Slice> := if start % DAY_MS != 0 then [a] else [];
    SlicingOf(time, [], a);
    SlicingOf(time, first, b);
    SlicingOf(time, [], Slice(start, end));
    assert [] + [a] == [a] && [] + [Slice(start, end)] == [Slice(start, end)];
    if !IsShort(start, end) {
      assert LiveWindows(start, end) == if end > EndDay(end) * DAY_MS then first + [b] else first;
    }
  }

  /** Live, daily and weekly windows tile the interval: every covered instant is in
   * exactly one of them, any other in none. */
  lemma {:induction false} EachInstantOnce(start: int, end: int, time: int)
    ensures Slicing(LiveWindows(start, end), time) + DaysHold(DayWindows(start, end), DayOf(time))
            + One(InWeeklyPart(start, end, DayOf(time))) == One(Covered(start, end, time))
  {
    LiveTiles(start, end, time);
    DailyTiles(start, end, DayOf(time));
  }

  // ------------------------------------------------------------------ the counts

  /** Stored counts of the address, per day and per week. */
  function DayCount(r: Rollups, a: Address): int -> int { day => At(r, DayActivity(day, a)).txs }

  function WeekCount(r: Rollups, a: Address): int -> int { week => At(r, WeekActivity(week, a)).txs }

  function Kept(count: int, min: int): int { if count > min then count else 0 }

  /** tx_count > min over a stretch of rows. */
  function KeptSum(rows: int -> int, min: int, lo: int, n: nat): int {
    SumOf(d => Kept(rows(d), min), lo, n)
  }

  function LostSum(rows: int -> int, min: int, lo: int, n: nat): int {
    SumOf(d => rows(d) - Kept(rows(d), min), lo, n)
  }

  lemma {:induction false} KeptAndLost(rows: int -> int, min: int, lo: int, n: nat)
    ensures KeptSum(rows, min, lo, n) + LostSum(rows, min, lo, n) == SumOf(rows, lo, n)
  {
    var kept, lost := d => Kept(rows(d), min), d => rows(d) - Kept(rows(d), min);
    SumPlus(kept, lost, rows, lo, n);
    SumSame(kept, d => Kept(rows(d), min), lo, n);
    SumSame(lost, d => rows(d) - Kept(rows(d), min), lo, n);
  }

  /** `hits`: the transactions that touch the address. The activity tables hold, per
   * day and per ISO week, how many there were. */
  ghost predicate ActivityAgrees(r: Rollups, a: Address, hits: seq<Item>) {
    && (forall day :: DayCount(r, a)(day) == Weigh(hits, (x: Item) => DayOf(x.time) == day))
    && (forall week :: WeekCount(r, a)(week) == Weigh(hits, (x: Item) => WeekOfTime(x.time) == week))
    && (forall x :: x in hits ==> x.weight >= 0)
  }

  function DailyPart(rows: int -> int, windows: seq<Days>): int {
    if windows == [] then 0 else
      var d := windows[|windows| - 1];
      DailyPart(rows, windows[..|windows| - 1]) + KeptSum(rows, DAILY_MIN, d.from, Span(d))
  }

  function WeeklyPart(rows: int -> int, start: int, end: int): int {
    if UsesWeekly(start, end) then KeptSum(rows, WEEKLY_MIN, WeekLo(start), WeekHi(end) - WeekLo(start)) else 0
  }

  /** What the thresholds leave out. */
  function DailyLost(rows: int -> int, windows: seq<Days>): int {
    if windows == [] then 0 else
      var d := windows[|windows| - 1];
      DailyLost(rows, windows[..|windows| - 1]) + LostSum(rows, DAILY_MIN, d.from, Span(d))
  }

  function WeeklyLost(rows: int -> int, start: int, end: int): int {
    if UsesWeekly(start, end) then LostSum(rows, WEEKLY_MIN, WeekLo(start), WeekHi(end) - WeekLo(start)) else 0
  }

  lemma {:induction false} DaysBucket(rows: int -> int, hits: seq<Item>, lo: int, n: nat)
    requires forall day :: rows(day) == Weigh(hits, (x: Item) => DayOf(x.time) == day)
    ensures SumOf(rows, lo, n) == Weigh(hits, (x: Item) => lo <= DayOf(x.time) < lo + n)
  {
    var bucketOf: int -> int := DayOf;
    forall day ensures rows(day) == Weigh(hits, (x: Item) => bucketOf(x.time) == day) {
      WeighSame(hits, (x: Item) => DayOf(x.time) == day, (x: Item) => bucketOf(x.time) == day);
    }
    BucketsSum(hits, bucketOf, rows, lo, n);
    WeighSame(hits, (x: Item) => lo <= bucketOf(x.time) < lo + n, (x: Item) => lo <= DayOf(x.time) < lo + n);
  }

  function Span(d: Days): nat { if d.from < d.to then d.to - d.from else 0 }

  lemma {:induction false} OneStretch(rows: int -> int, hits: seq<Item>, d: Days)
    requires forall day :: rows(day) == Weigh(hits, (x: Item) => DayOf(x.time) == day)
    ensures KeptSum(rows, DAILY_MIN, d.from, Span(d)) + LostSum(rows, DAILY_MIN, d.from, Span(d)) ==
            Weigh(hits, (x: Item) => d.from <= DayOf(x.time) < d.to)
  {
    var n := Span(d);
    KeptAndLost(rows, DAILY_MIN, d.from, n);
    DaysBucket(rows, hits, d.from, n);
    WeighSame(hits, (x: Item) => d.from <= DayOf(x.time) < d.from + n, (x: Item) => d.from <= DayOf(x.time) < d.to);
  }

  lemma {:induction false} DailyIs(rows: int -> int, hits: seq<Item>, windows: seq<Days>)
    requires forall day :: rows(day) == Weigh(hits, (x: Item) => DayOf(x.time) == day)
    ensures DailyPart(rows, windows) + DailyLost(rows, windows) == DaysWeigh(hits, windows)
  {
    if windows != [] {
      DailyIs(rows, hits, windows[..|windows| - 1]);
      OneStretch(rows, hits, windows[|windows| - 1]);
    }
  }

  function DaysWeigh(hits: seq<Item>, windows: seq<Days>): int {
    if windows == [] then 0 else
      var d := windows[|windows| - 1];
      DaysWeigh(hits, windows[..|windows| - 1]) + Weigh(hits, (x: Item) => d.from <= DayOf(x.time) < d.to)
  }

  lemma {:induction false} WeeksBucket(rows: int -> int, hits: seq<Item>, lo: int, n: nat)
    requires forall week :: rows(week) == Weigh(hits, (x: Item) => WeekOfTime(x.time) == week)
    ensures SumOf(rows, lo, n) == Weigh(hits, (x: Item) => lo <= WeekOfTime(x.time) < lo + n)
  {
    var bucketOf: int -> int := WeekOfTime;
    forall week ensures rows(week) == Weigh(hits, (x: Item) => bucketOf(x.time) == week) {
      WeighSame(hits, (x: Item) => WeekOfTime(x.time) == week, (x: Item) => bucketOf(x.time) == week);
    }
    BucketsSum(hits, bucketOf, rows, lo, n);
    WeighSame(hits, (x: Item) => lo <= bucketOf(x.time) < lo + n, (x: Item) => lo <= WeekOfTime(x.time) < lo + n);
  }

  lemma {:induction false} WeeklyStretch(rows: int -> int, hits: seq<Item>, lo: int, n: nat)
    requires forall week :: rows(week) == Weigh(hits, (x: Item) => WeekOfTime(x.time) == week)
    ensures KeptSum(rows, WEEKLY_MIN, lo, n) + LostSum(rows, WEEKLY_MIN, lo, n) ==
            Weigh(hits, (x: Item) => lo <= WeekOfTime(x.time) < lo + n)
  {
    KeptAndLost(rows, WEEKLY_MIN, lo, n);
    WeeksBucket(rows, hits, lo, n);
  }

  function WeeklyWeigh(hits: seq<Item>, start: int, end: int): int {
    Weigh(hits, (x: Item) => InWeeklyPart(start, end, DayOf(x.time)))
  }

  lemma {:induction false} NoWeekly(hits: seq<Item>, start: int, end: int)
    requires !UsesWeekly(start, end)
    ensures WeeklyWeigh(hits, start, end) == 0
  {
    WeighNone(hits, (x: Item) => InWeeklyPart(start, end, DayOf(x.time)));
  }

  lemma {:induction false} WeeklyInside(rows: int -> int, hits: seq<Item>, start: int, end: int, lo: int, n: nat)
    requires forall week :: rows(week) == Weigh(hits, (x: Item) => WeekOfTime(x.time) == week)
    requires UsesWeekly(start, end) && lo == WeekLo(start) && lo + n == WeekHi(end)
    ensures KeptSum(rows, WEEKLY_MIN, lo, n) + LostSum(rows, WEEKLY_MIN, lo, n) == WeeklyWeigh(hits, start, end)
  {
    WeeklyStretch(rows, hits, lo, n);
    WeighSame(hits, (x: Item) => lo <= WeekOfTime(x.time) < lo + n,
              (x: Item) => InWeeklyPart(start, end, DayOf(x.time)));
  }

  lemma {:induction false} WeeklyIs(rows: int -> int, hits: seq<Item>, start: int, end: int)
    requires forall week :: rows(week) == Weigh(hits, (x: Item) => WeekOfTime(x.time) == week)
    ensures WeeklyPart(rows, start, end) + WeeklyLost(rows, start, end) == WeeklyWeigh(hits, start, end)
  {
    if UsesWeekly(start, end) {
      WeeklyInside(rows, hits, start, end, WeekLo(start), WeekHi(end) - WeekLo(start));
    } else {
      NoWeekly(hits, start, end);
    }
  }

  /** The daily windows weigh the whole days they hold. */
  lemma {:induction false} DaysWeighTile(hits: seq<Item>, windows: seq<Days>, p: Item -> bool, whole: Item -> bool)
    requires forall x :: x in hits ==> DaysHold(windows, DayOf(x.time)) + One(p(x)) == One(whole(x))
    ensures DaysWeigh(hits, windows) + Weigh(hits, p) == Weigh(hits, whole)
  {
    if hits == [] {
      NoDays(windows);
    } else {
      var before, last := hits[..|hits| - 1], hits[|hits| - 1];
      assert forall x :: x in before ==> x in hits;
      DaysWeighTile(before, windows, p, whole);
      LastDays(hits, windows);
      assert last in hits;
    }
  }

  lemma {:induction false} NoDays(windows: seq<Days>)
    ensures DaysWeigh([], windows) == 0
  {
    if windows != [] {
      NoDays(windows[..|windows| - 1]);
    }
  }

  lemma {:induction false} LastDays(hits: seq<Item>, windows: seq<Days>)
    requires hits != []
    ensures var before, last := hits[..|hits| - 1], hits[|hits| - 1];
            DaysWeigh(hits, windows) == DaysWeigh(before, windows) + last.weight * DaysHold(windows, DayOf(last.time))
  {
    if windows != [] {
      LastDays(hits, windows[..|windows| - 1]);
    }
  }

  predicate WholeDays(start: int, end: int, time: int) {
    !IsShort(start, end) && DayLo(start) <= DayOf(time) < EndDay(end)
  }

  method BuildWindows(start: int, end: int) returns (liveWindows: seq<Slice>, dayWindows: seq<Days>, useWeekly: bool)
    ensures liveWindows == LiveWindows(start, end) && dayWindows == DayWindows(start, end)
    ensures useWeekly <==> UsesWeekly(start, end)
  {
    var isShort := end - start <= LOW_PRECISION_AFTER;
    var startsAtMidnight := start % DAY_MS == 0;
    var dayLo, endDay := DayLo(start), EndDay(end);
    var weekLo, weekHi := WeekLo(start), WeekHi(end);
    useWeekly := !isShort && end - start > WEEKLY_AFTER && weekLo < weekHi;
    liveWindows, dayWindows := [], [];
    if isShort {
      liveWindows := liveWindows + [Slice(start, end)];
    } else {
      if !startsAtMidnight {
        liveWindows := liveWindows + [Slice(start, dayLo * DAY_MS - 1)];
      }
      if end > endDay * DAY_MS {
        liveWindows := liveWindows + [Slice(endDay * DAY_MS, end)];
      }
      if useWeekly {
        if dayLo < weekLo {
          dayWindows := dayWindows + [Days(dayLo, weekLo)];
        }
        if weekHi < endDay {
          dayWindows := dayWindows + [Days(weekHi, endDay)];
        }
      } else if dayLo < endDay {
        dayWindows := dayWindows + [Days(dayLo, endDay)];
      }
    }
  }

  method SumParts(r: Rollups, a: Address, headers: seq<Header>, hits: seq<Item>, liveWindows: seq<Slice>,
                  dayWindows: seq<Days>)
    returns (count: int)
    ensures count == SlicesLive(headers, hits, liveWindows) + DailyPart(DayCount(r, a), dayWindows)
  {
    count := 0;
    for i := 0 to |liveWindows|
      invariant count == SlicesLive(headers, hits, liveWindows[..i])
    {
      assert liveWindows[..i + 1][..i] == liveWindows[..i];
      count := count + Live(headers, hits, liveWindows[i].from, liveWindows[i].to);
    }
    assert liveWindows[..|liveWindows|] == liveWindows;
    for i := 0 to |dayWindows|
      invariant count == SlicesLive(headers, hits, liveWindows) + DailyPart(DayCount(r, a), dayWindows[..i])
    {
      assert dayWindows[..i + 1][..i] == dayWindows[..i];
      count := count + KeptSum(DayCount(r, a), DAILY_MIN, dayWindows[i].from, Span(dayWindows[i]));
    }
    assert dayWindows[..|dayWindows|] == dayWindows;
  }

  lemma {:induction false} PartsAre(r: Rollups, a: Address, headers: seq<Header>, hits: seq<Item>, start: int, end: int)
    requires ActivityAgrees(r, a, hits) && OnChain(headers, hits)
    ensures SlicesLive(headers, hits, LiveWindows(start, end)) + DailyPart(DayCount(r, a), DayWindows(start, end))
            + WeeklyPart(WeekCount(r, a), start, end) ==
            TrueCount(hits, start, end) + SlicesStray(headers, hits, LiveWindows(start, end))
            - DailyLost(DayCount(r, a), DayWindows(start, end)) - WeeklyLost(WeekCount(r, a), start, end)
  {
    DailyIs(DayCount(r, a), hits, DayWindows(start, end));
    WeeklyIs(WeekCount(r, a), hits, start, end);
    forall x | x in hits
      ensures DaysHold(DayWindows(start, end), DayOf(x.time)) + One(InWeeklyPart(start, end, DayOf(x.time))) ==
              One(WholeDays(start, end, x.time))
      ensures One(WholeDays(start, end, x.time)) + Slicing(LiveWindows(start, end), x.time) ==
              One(Covered(start, end, x.time))
    {
      DailyTiles(start, end, DayOf(x.time));
      LiveTiles(start, end, x.time);
    }
    DaysWeighTile(hits, DayWindows(start, end), (x: Item) => InWeeklyPart(start, end, DayOf(x.time)),
                  (x: Item) => WholeDays(start, end, x.time));
    SlicesTile(headers, hits, LiveWindows(start, end), (x: Item) => WholeDays(start, end, x.time),
               (x: Item) => Covered(start, end, x.time));
  }

  // ------------------------------------------------------------------ the losses

  lemma {:induction false} SumBounds(f: int -> int, most: int, lo: int, n: nat)
    requires forall d :: 0 <= f(d) <= most
    ensures 0 <= SumOf(f, lo, n) <= most * n
  {
    if n > 0 {
      SumBounds(f, most, lo, n - 1);
    }
  }

  lemma {:induction false} RowsNonNegative(hits: seq<Item>, p: Item -> bool)
    requires forall x :: x in hits ==> x.weight >= 0
    ensures Weigh(hits, p) >= 0
  {
    if hits != [] {
      var before := hits[..|hits| - 1];
      assert forall x :: x in before ==> x in hits;
      RowsNonNegative(before, p);
      assert hits[|hits| - 1] in hits;
    }
  }

  function DailyBuckets(windows: seq<Days>): int {
    if windows == [] then 0 else
      var d := windows[|windows| - 1];
      DailyBuckets(windows[..|windows| - 1]) + Span(d)
  }

  function WeeklyBuckets(start: int, end: int): int {
    if UsesWeekly(start, end) then (WeekHi(end) - WeekLo(start)) / 7 else 0
  }

  lemma {:induction false} StretchLost(rows: int -> int, d: Days)
    requires forall day :: rows(day) >= 0
    ensures 0 <= LostSum(rows, DAILY_MIN, d.from, Span(d)) <= DAILY_MIN * Span(d)
  {
    SumBounds(day => rows(day) - Kept(rows(day), DAILY_MIN), DAILY_MIN, d.from, Span(d));
    SumSame(day => rows(day) - Kept(rows(day), DAILY_MIN), d => rows(d) - Kept(rows(d), DAILY_MIN), d.from, Span(d));
  }

  lemma {:induction false} DailyLostBounds(rows: int -> int, windows: seq<Days>)
    requires forall day :: rows(day) >= 0
    ensures 0 <= DailyLost(rows, windows) <= DAILY_MIN * DailyBuckets(windows)
  {
    if windows != [] {
      DailyLostBounds(rows, windows[..|windows| - 1]);
      StretchLost(rows, windows[|windows| - 1]);
    }
  }

  lemma {:induction false} WeeksLater(monday: int, weeks: nat)
    requires WeekOf(monday) == monday
    ensures WeekOf(monday + 7 * weeks) == monday + 7 * weeks
  {
  }

  /** Only Mondays carry weekly rows, so at most one row in seven loses. */
  lemma {:induction false} WeeksLost(lost: int -> int, monday: int, weeks: nat)
    requires WeekOf(monday) == monday
    requires forall d :: 0 <= lost(d) <= if WeekOf(d) == d then WEEKLY_MIN else 0
    ensures 0 <= SumOf(lost, monday, 7 * weeks) <= WEEKLY_MIN * weeks
  {
    if weeks > 0 {
      var last := monday + 7 * (weeks - 1);
      WeeksLost(lost, monday, weeks - 1);
      WeeksLater(monday, weeks - 1);
      SumSplit(lost, monday, 7 * (weeks - 1), 7);
      OneWeekLost(lost, last);
    }
  }

  lemma {:induction false} OneWeekLost(lost: int -> int, monday: int)
    requires WeekOf(monday) == monday
    requires forall d :: 0 <= lost(d) <= if WeekOf(d) == d then WEEKLY_MIN else 0
    ensures 0 <= SumOf(lost, monday, 7) <= WEEKLY_MIN
  {
    SumSplit(lost, monday, 1, 6);
    assert SumOf(lost, monday, 1) == SumOf(lost, monday, 0) + lost(monday);
    NoMondays(lost, monday, 6);
  }

  lemma {:induction false} NoMondays(lost: int -> int, monday: int, n: nat)
    requires WeekOf(monday) == monday && n <= 6
    requires forall d :: 0 <= lost(d) <= if WeekOf(d) == d then WEEKLY_MIN else 0
    ensures SumOf(lost, monday + 1, n) == 0
  {
    if n > 0 {
      NoMondays(lost, monday, n - 1);
      assert WeekOf(monday + n) != monday + n;
    }
  }

  lemma {:induction false} WeekRowLoses(rows: int -> int, hits: seq<Item>, d: int)
    requires rows(d) == Weigh(hits, (x: Item) => WeekOfTime(x.time) == d)
    requires forall x :: x in hits ==> x.weight >= 0
    ensures 0 <= rows(d) - Kept(rows(d), WEEKLY_MIN) <= if WeekOf(d) == d then WEEKLY_MIN else 0
  {
    RowsNonNegative(hits, (x: Item) => WeekOfTime(x.time) == d);
    if WeekOf(d) != d {
      WeighNone(hits, (x: Item) => WeekOfTime(x.time) == d);
    }
  }

  lemma {:induction false} LostInWeeks(rows: int -> int, hits: seq<Item>, monday: int, weeks: nat)
    requires forall week :: rows(week) == Weigh(hits, (x: Item) => WeekOfTime(x.time) == week)
    requires (forall x :: x in hits ==> x.weight >= 0) && WeekOf(monday) == monday
    ensures 0 <= LostSum(rows, WEEKLY_MIN, monday, 7 * weeks) <= WEEKLY_MIN * weeks
  {
    var lost := d => rows(d) - Kept(rows(d), WEEKLY_MIN);
    forall d ensures 0 <= lost(d) <= if WeekOf(d) == d then WEEKLY_MIN else 0 {
      WeekRowLoses(rows, hits, d);
    }
    WeeksLost(lost, monday, weeks);
    SumSame(lost, d => rows(d) - Kept(rows(d), WEEKLY_MIN), monday, 7 * weeks);
  }

  lemma {:induction false} WholeWeeks(start: int, end: int)
    requires UsesWeekly(start, end)
    ensures WeekHi(end) - WeekLo(start) == 7 * WeeklyBuckets(start, end)
  {
    WeekBounds(start, end);
    MondaysApart(WeekLo(start), WeekHi(end));
  }

  lemma {:induction false} MondaysApart(from: int, to: int)
    requires WeekOf(from) == from && WeekOf(to) == to
    ensures to - from == 7 * ((to - from) / 7)
  {
  }

  lemma {:induction false} WeeklyLostBounds(rows: int -> int, hits: seq<Item>, start: int, end: int)
    requires forall week :: rows(week) == Weigh(hits, (x: Item) => WeekOfTime(x.time) == week)
    requires forall x :: x in hits ==> x.weight >= 0
    ensures 0 <= WeeklyLost(rows, start, end) <= WEEKLY_MIN * WeeklyBuckets(start, end)
  {
    if UsesWeekly(start, end) {
      WeekBounds(start, end);
      WholeWeeks(start, end);
      LostInWeeks(rows, hits, WeekLo(start), WeeklyBuckets(start, end));
    }
  }

  lemma {:induction false} ReportedWithin(r: Rollups, a: Address, headers: seq<Header>, hits: seq<Item>, start: int,
                                          end: int)
    requires ActivityAgrees(r, a, hits) && OnChain(headers, hits) && Monotone(headers)
    ensures SlicesStray(headers, hits, LiveWindows(start, end)) == 0
    ensures 0 <= DailyLost(DayCount(r, a), DayWindows(start, end)) <= DAILY_MIN * DailyBuckets(DayWindows(start, end))
    ensures 0 <= WeeklyLost(WeekCount(r, a), start, end) <= WEEKLY_MIN * WeeklyBuckets(start, end)
  {
    SlicesHaveNoStrays(headers, hits, LiveWindows(start, end));
    forall day ensures DayCount(r, a)(day) >= 0 {
      RowsNonNegative(hits, (x: Item) => DayOf(x.time) == day);
    }
    DailyLostBounds(DayCount(r, a), DayWindows(start, end));
    WeeklyLostBounds(WeekCount(r, a), hits, start, end);
  }

  // ------------------------------------------------ which transactions are counted

  /** The window is over three days, and all of the day is in it. */
  predicate WholeDay(start: int, end: int, time: int) {
    end - start > 259_200_000 && start <= 86_400_000 * DayOf(time) && 86_400_000 * (DayOf(time) + 1) <= end
  }

  /** The window is over eight days, and all of the week, from its Monday on, is in it. */
  predicate WholeWeek(start: int, end: int, time: int) {
    var monday := WeekOf(DayOf(time));
    end - start > 691_200_000 && start <= 86_400_000 * monday && 86_400_000 * (monday + 7) <= end
  }

  function SameDay(hits: seq<Item>, day: int): int {
    Weigh(hits, (x: Item) => DayOf(x.time) == day)
  }

  function SameWeek(hits: seq<Item>, week: int): int {
    Weigh(hits, (x: Item) => WeekOfTime(x.time) == week)
  }

  /** More than 10 in its week if all of that is in the window, otherwise more than 2 on its day
   * if all of that is. */
  predicate Busy(hits: seq<Item>, start: int, end: int, time: int) {
    if WholeWeek(start, end, time) then SameWeek(hits, WeekOfTime(time)) > 10
    else WholeDay(start, end, time) ==> SameDay(hits, DayOf(time)) > 2
  }

  function Counted(hits: seq<Item>, start: int, end: int): int {
    Weigh(hits, (x: Item) => Covered(start, end, x.time) && Busy(hits, start, end, x.time))
  }

  lemma {:induction false} WeekInside(start: int, end: int, monday: int)
    requires WeekOf(monday) == monday
    ensures start <= 86_400_000 * monday <==> WeekLo(start) <= monday
    ensures 86_400_000 * (monday + 7) <= end <==> monday < WeekHi(end)
  {
    DayBounds(start, end, 0);
    WeekBounds(start, end);
    assert start <= 86_400_000 * monday <==> DayLo(start) <= monday;
    assert 86_400_000 * (monday + 7) <= end <==> monday + 7 <= EndDay(end);
    MondaysApart(WeekLo(start), monday);
    MondaysApart(monday, WeekHi(end));
  }

  lemma {:induction false} MondayOf(day: int)
    ensures WeekOf(WeekOf(day)) == WeekOf(day) <= day < WeekOf(day) + 7
  {
  }

  /** The weekly part is the whole weeks, the daily part the other whole days. */
  lemma {:induction false} PartsAreWhole(start: int, end: int, time: int)
    ensures InWeeklyPart(start, end, DayOf(time)) <==> WholeWeek(start, end, time)
    ensures InDaily(start, end, DayOf(time)) <==> WholeDay(start, end, time) && !WholeWeek(start, end, time)
    ensures WholeWeek(start, end, time) ==> WholeDay(start, end, time)
  {
    var day := DayOf(time);
    var monday := WeekOf(day);
    MondayOf(day);
    WeekInside(start, end, monday);
    DayInside(start, end, day);
    WeekBounds(start, end);
    MondayBounds(WeekLo(start), day);
    MondayBounds(WeekHi(end), day);
  }

  lemma {:induction false} DayInside(start: int, end: int, day: int)
    ensures start <= 86_400_000 * day <==> DayLo(start) <= day
    ensures 86_400_000 * (day + 1) <= end <==> day < EndDay(end)
  {
    DayBounds(start, end, 0);
  }

  /** The items that `busy` picks keep their weight. */
  function Sifted(hits: seq<Item>, busy: int -> bool): seq<Item> {
    seq(|hits|, i requires 0 <= i < |hits| => if busy(hits[i].time) then hits[i] else hits[i].(weight := 0))
  }

  lemma {:induction false} SiftedWeigh(hits: seq<Item>, busy: int -> bool, p: int -> bool)
    ensures Weigh(Sifted(hits, busy), (x: Item) => p(x.time)) == Weigh(hits, (x: Item) => p(x.time) && busy(x.time))
  {
    if hits != [] {
      var before := hits[..|hits| - 1];
      SiftedWeigh(before, busy, p);
      assert Sifted(hits, busy)[..|hits| - 1] == Sifted(before, busy);
    }
  }

  /** The items in buckets that hold more than `min`. */
  function InBig(hits: seq<Item>, bucketOf: int -> int, rows: int -> int, min: int): seq<Item> {
    Sifted(hits, time => rows(bucketOf(time)) > min)
  }

  /** A row adds its whole bucket or nothing. */
  lemma {:induction false} BucketKept(hits: seq<Item>, bucketOf: int -> int, rows: int -> int, min: int, b: int)
    requires rows(b) == Weigh(hits, (x: Item) => bucketOf(x.time) == b) && min >= 0
    ensures Kept(rows(b), min) == Weigh(InBig(hits, bucketOf, rows, min), (x: Item) => bucketOf(x.time) == b)
  {
    var busy, on := (time: int) => rows(bucketOf(time)) > min, (time: int) => bucketOf(time) == b;
    SiftedWeigh(hits, busy, on);
    WeighSame(Sifted(hits, busy), (x: Item) => on(x.time), (x: Item) => bucketOf(x.time) == b);
    if rows(b) > min {
      WeighSame(hits, (x: Item) => bucketOf(x.time) == b, (x: Item) => on(x.time) && busy(x.time));
    } else {
      WeighNone(hits, (x: Item) => on(x.time) && busy(x.time));
    }
    SiftedSame(hits, busy, time => rows(bucketOf(time)) > min);
  }

  lemma {:induction false} SiftedSame(hits: seq<Item>, p: int -> bool, q: int -> bool)
    requires forall time :: p(time) <==> q(time)
    ensures Sifted(hits, p) == Sifted(hits, q)
  {
  }

  lemma {:induction false} StretchKept(hits: seq<Item>, bucketOf: int -> int, rows: int -> int, min: int, lo: int,
                                       n: nat, big: seq<Item>)
    requires forall b :: rows(b) == Weigh(hits, (x: Item) => bucketOf(x.time) == b)
    requires min >= 0 && big == InBig(hits, bucketOf, rows, min)
    ensures KeptSum(rows, min, lo, n) == Weigh(big, (x: Item) => lo <= bucketOf(x.time) < lo + n)
  {
    var kept := d => Kept(rows(d), min);
    forall b ensures kept(b) == Weigh(big, (x: Item) => bucketOf(x.time) == b) {
      BucketKept(hits, bucketOf, rows, min, b);
    }
    BucketsSum(big, bucketOf, kept, lo, n);
    SumSame(kept, d => Kept(rows(d), min), lo, n);
  }

  lemma {:induction false} DaysKept(hits: seq<Item>, rows: int -> int, d: Days, big: seq<Item>)
    requires forall day :: rows(day) == Weigh(hits, (x: Item) => DayOf(x.time) == day)
    requires big == InBig(hits, DayOf, rows, DAILY_MIN)
    ensures KeptSum(rows, DAILY_MIN, d.from, Span(d)) == Weigh(big, (x: Item) => d.from <= DayOf(x.time) < d.to)
  {
    var bucketOf: int -> int := DayOf;
    forall b ensures rows(b) == Weigh(hits, (x: Item) => bucketOf(x.time) == b) {
      WeighSame(hits, (x: Item) => DayOf(x.time) == b, (x: Item) => bucketOf(x.time) == b);
    }
    StretchKept(hits, bucketOf, rows, DAILY_MIN, d.from, Span(d), big);
    WeighSame(big, (x: Item) => d.from <= bucketOf(x.time) < d.from + Span(d),
              (x: Item) => d.from <= DayOf(x.time) < d.to);
  }

  lemma {:induction false} DailyKept(hits: seq<Item>, rows: int -> int, windows: seq<Days>, big: seq<Item>)
    requires forall day :: rows(day) == Weigh(hits, (x: Item) => DayOf(x.time) == day)
    requires big == InBig(hits, DayOf, rows, DAILY_MIN)
    ensures DailyPart(rows, windows) == DaysWeigh(big, windows)
  {
    if windows != [] {
      DailyKept(hits, rows, windows[..|windows| - 1], big);
      DaysKept(hits, rows, windows[|windows| - 1], big);
    }
  }

  lemma {:induction false} WeeksKept(hits: seq<Item>, rows: int -> int, lo: int, n: nat, big: seq<Item>)
    requires forall week :: rows(week) == Weigh(hits, (x: Item) => WeekOfTime(x.time) == week)
    requires big == InBig(hits, WeekOfTime, rows, WEEKLY_MIN)
    ensures KeptSum(rows, WEEKLY_MIN, lo, n) == Weigh(big, (x: Item) => lo <= WeekOfTime(x.time) < lo + n)
  {
    var bucketOf: int -> int := WeekOfTime;
    forall b ensures rows(b) == Weigh(hits, (x: Item) => bucketOf(x.time) == b) {
      WeighSame(hits, (x: Item) => WeekOfTime(x.time) == b, (x: Item) => bucketOf(x.time) == b);
    }
    StretchKept(hits, bucketOf, rows, WEEKLY_MIN, lo, n, big);
    WeighSame(big, (x: Item) => lo <= bucketOf(x.time) < lo + n, (x: Item) => lo <= WeekOfTime(x.time) < lo + n);
  }

  lemma {:induction false} WeeklyInsideKept(hits: seq<Item>, rows: int -> int, start: int, end: int, big: seq<Item>,
                                            lo: int, n: nat)
    requires forall week :: rows(week) == Weigh(hits, (x: Item) => WeekOfTime(x.time) == week)
    requires big == InBig(hits, WeekOfTime, rows, WEEKLY_MIN)
    requires UsesWeekly(start, end) && lo == WeekLo(start) && lo + n == WeekHi(end)
    ensures KeptSum(rows, WEEKLY_MIN, lo, n) == WeeklyWeigh(big, start, end)
  {
    WeeksKept(hits, rows, lo, n, big);
    WeighSame(big, (x: Item) => lo <= WeekOfTime(x.time) < lo + n,
              (x: Item) => InWeeklyPart(start, end, DayOf(x.time)));
  }

  lemma {:induction false} WeeklyPartIs(rows: int -> int, start: int, end: int, lo: int, n: nat)
    requires UsesWeekly(start, end) && lo == WeekLo(start) && n == WeekHi(end) - WeekLo(start)
    ensures WeeklyPart(rows, start, end) == KeptSum(rows, WEEKLY_MIN, lo, n)
  {
  }

  lemma {:induction false} WeeklyKept(hits: seq<Item>, rows: int -> int, start: int, end: int, big: seq<Item>)
    requires forall week :: rows(week) == Weigh(hits, (x: Item) => WeekOfTime(x.time) == week)
    requires big == InBig(hits, WeekOfTime, rows, WEEKLY_MIN)
    ensures WeeklyPart(rows, start, end) == WeeklyWeigh(big, start, end)
  {
    if UsesWeekly(start, end) {
      var lo, n := WeekLo(start), WeekHi(end) - WeekLo(start);
      WeeklyPartIs(rows, start, end, lo, n);
      WeeklyInsideKept(hits, rows, start, end, big, lo, n);
    } else {
      NoWeekly(big, start, end);
    }
  }

  /** The transactions of the window that touch the address. */
  function TrueCount(hits: seq<Item>, start: int, end: int): int {
    Weigh(hits, (x: Item) => Covered(start, end, x.time))
  }

  // ----------------------------------------------------- the three parts together

  /** The window's transactions that count, and nothing of the others. */
  function BusyOnes(hits: seq<Item>, start: int, end: int): seq<Item> {
    Sifted(hits, time => Busy(hits, start, end, time))
  }

  lemma {:induction false} BusyWeigh(hits: seq<Item>, start: int, end: int)
    ensures Weigh(BusyOnes(hits, start, end), (x: Item) => Covered(start, end, x.time)) == Counted(hits, start, end)
  {
    SiftedWeigh(hits, time => Busy(hits, start, end, time), time => Covered(start, end, time));
    WeighSame(BusyOnes(hits, start, end), (x: Item) => Covered(start, end, x.time),
              (x: Item) => ((time: int) => Covered(start, end, time))(x.time));
    WeighSame(hits, (x: Item) => Covered(start, end, x.time) && Busy(hits, start, end, x.time),
              (x: Item) => ((time: int) => Covered(start, end, time))(x.time)
                           && ((time: int) => Busy(hits, start, end, time))(x.time));
  }

  /** Where two ways of sifting agree, they weigh the same. */
  lemma {:induction false} SiftedAgree(hits: seq<Item>, a: int -> bool, b: int -> bool, p: int -> bool)
    requires forall time :: p(time) ==> (a(time) <==> b(time))
    ensures Weigh(Sifted(hits, a), (x: Item) => p(x.time)) == Weigh(Sifted(hits, b), (x: Item) => p(x.time))
  {
    SiftedWeigh(hits, a, p);
    SiftedWeigh(hits, b, p);
    WeighSame(hits, (x: Item) => p(x.time) && a(x.time), (x: Item) => p(x.time) && b(x.time));
  }

  lemma {:induction false} HoldsDay(windows: seq<Days>, d: Days, day: int)
    ensures DaysHold(windows, day) >= 0
    ensures d in windows && d.from <= day < d.to ==> DaysHold(windows, day) >= 1
  {
    if windows != [] {
      var before := windows[..|windows| - 1];
      HoldsDay(before, d, day);
      assert d in windows ==> d in before || d == windows[|windows| - 1];
    }
  }

  lemma {:induction false} HoldsInstant(slices: seq<Slice>, s: Slice, time: int)
    ensures Slicing(slices, time) >= 0
    ensures s in slices && Inside(time, s.from, s.to) ==> Slicing(slices, time) >= 1
  {
    if slices != [] {
      var before := slices[..|slices| - 1];
      HoldsInstant(before, s, time);
      assert s in slices ==> s in before || s == slices[|slices| - 1];
    }
  }

  /** On the days of the daily part a transaction counts if its day's row does. */
  lemma {:induction false} BusyByDay(hits: seq<Item>, start: int, end: int, d: Days, time: int)
    requires d in DayWindows(start, end) && d.from <= DayOf(time) < d.to
    ensures Busy(hits, start, end, time) <==> SameDay(hits, DayOf(time)) > 2
  {
    HoldsDay(DayWindows(start, end), d, DayOf(time));
    DailyTiles(start, end, DayOf(time));
    PartsAreWhole(start, end, time);
  }

  /** In the live slices every transaction counts. */
  lemma {:induction false} BusyLive(hits: seq<Item>, start: int, end: int, s: Slice, time: int)
    requires s in LiveWindows(start, end) && Inside(time, s.from, s.to)
    ensures Busy(hits, start, end, time)
  {
    HoldsInstant(LiveWindows(start, end), s, time);
    LiveTiles(start, end, time);
    HoldsDay(DayWindows(start, end), Days(0, 0), DayOf(time));
    DailyTiles(start, end, DayOf(time));
    PartsAreWhole(start, end, time);
  }

  lemma {:induction false} DaysAgree(hits: seq<Item>, a: int -> bool, b: int -> bool, windows: seq<Days>)
    requires forall d, time :: d in windows && d.from <= DayOf(time) < d.to ==> (a(time) <==> b(time))
    ensures DaysWeigh(Sifted(hits, a), windows) == DaysWeigh(Sifted(hits, b), windows)
  {
    if windows != [] {
      var before, d := windows[..|windows| - 1], windows[|windows| - 1];
      assert forall x :: x in before ==> x in windows;
      DaysAgree(hits, a, b, before);
      var p := (time: int) => d.from <= DayOf(time) < d.to;
      assert d in windows;
      SiftedAgree(hits, a, b, p);
      WeighSame(Sifted(hits, a), (x: Item) => p(x.time), (x: Item) => d.from <= DayOf(x.time) < d.to);
      WeighSame(Sifted(hits, b), (x: Item) => p(x.time), (x: Item) => d.from <= DayOf(x.time) < d.to);
    }
  }

  lemma {:induction false} InsideAgree(hits: seq<Item>, busy: int -> bool, slices: seq<Slice>)
    requires forall s, time :: s in slices && Inside(time, s.from, s.to) ==> busy(time)
    ensures SlicesInside(Sifted(hits, busy), slices) == SlicesInside(hits, slices)
  {
    if slices != [] {
      var before, s := slices[..|slices| - 1], slices[|slices| - 1];
      assert forall x :: x in before ==> x in slices;
      InsideAgree(hits, busy, before);
      var p := (time: int) => Inside(time, s.from, s.to);
      assert s in slices;
      SiftedWeigh(hits, busy, p);
      WeighSame(Sifted(hits, busy), (x: Item) => p(x.time), (x: Item) => Inside(x.time, s.from, s.to));
      WeighSame(hits, (x: Item) => p(x.time) && busy(x.time), (x: Item) => Inside(x.time, s.from, s.to));
    }
  }

  lemma {:induction false} DailyBusy(hits: seq<Item>, rows: int -> int, start: int, end: int)
    requires forall day :: rows(day) == Weigh(hits, (x: Item) => DayOf(x.time) == day)
    ensures DailyPart(rows, DayWindows(start, end)) == DaysWeigh(BusyOnes(hits, start, end), DayWindows(start, end))
  {
    var windows, big := DayWindows(start, end), InBig(hits, DayOf, rows, DAILY_MIN);
    DailyKept(hits, rows, windows, big);
    var a, b := (time: int) => rows(DayOf(time)) > DAILY_MIN, (time: int) => Busy(hits, start, end, time);
    forall d, time | d in windows && d.from <= DayOf(time) < d.to ensures a(time) <==> b(time) {
      BusyByDay(hits, start, end, d, time);
    }
    DaysAgree(hits, a, b, windows);
    SiftedSame(hits, a, time => rows(DayOf(time)) > DAILY_MIN);
    SiftedSame(hits, b, time => Busy(hits, start, end, time));
    assert big == Sifted(hits, a);
  }

  lemma {:induction false} WeeklyBusy(hits: seq<Item>, rows: int -> int, start: int, end: int)
    requires forall week :: rows(week) == Weigh(hits, (x: Item) => WeekOfTime(x.time) == week)
    ensures WeeklyPart(rows, start, end) == WeeklyWeigh(BusyOnes(hits, start, end), start, end)
  {
    var big := InBig(hits, WeekOfTime, rows, WEEKLY_MIN);
    WeeklyKept(hits, rows, start, end, big);
    var a, b := (time: int) => rows(WeekOfTime(time)) > WEEKLY_MIN, (time: int) => Busy(hits, start, end, time);
    var p := (time: int) => InWeeklyPart(start, end, DayOf(time));
    forall time | p(time) ensures a(time) <==> b(time) {
      PartsAreWhole(start, end, time);
    }
    SiftedAgree(hits, a, b, p);
    assert big == Sifted(hits, a);
    var busy := BusyOnes(hits, start, end);
    assert busy == Sifted(hits, b);
    WeighSame(big, (x: Item) => p(x.time), (x: Item) => InWeeklyPart(start, end, DayOf(x.time)));
    WeighSame(busy, (x: Item) => p(x.time), (x: Item) => InWeeklyPart(start, end, DayOf(x.time)));
  }

  lemma {:induction false} LiveBusy(hits: seq<Item>, start: int, end: int)
    ensures SlicesInside(BusyOnes(hits, start, end), LiveWindows(start, end)) ==
            SlicesInside(hits, LiveWindows(start, end))
  {
    var busy := (time: int) => Busy(hits, start, end, time);
    forall s, time | s in LiveWindows(start, end) && Inside(time, s.from, s.to) ensures busy(time) {
      BusyLive(hits, start, end, s, time);
    }
    InsideAgree(hits, busy, LiveWindows(start, end));
    assert BusyOnes(hits, start, end) == Sifted(hits, busy);
  }

  /** The three parts hold each of any items once. */
  lemma {:induction false} PartsTile(items: seq<Item>, start: int, end: int)
    ensures SlicesInside(items, LiveWindows(start, end)) + DaysWeigh(items, DayWindows(start, end))
            + WeeklyWeigh(items, start, end) == Weigh(items, (x: Item) => Covered(start, end, x.time))
  {
    forall x | x in items
      ensures DaysHold(DayWindows(start, end), DayOf(x.time)) + One(InWeeklyPart(start, end, DayOf(x.time))) ==
              One(WholeDays(start, end, x.time))
      ensures One(WholeDays(start, end, x.time)) + Slicing(LiveWindows(start, end), x.time) ==
              One(Covered(start, end, x.time))
    {
      DailyTiles(start, end, DayOf(x.time));
      LiveTiles(start, end, x.time);
    }
    DaysWeighTile(items, DayWindows(start, end), (x: Item) => InWeeklyPart(start, end, DayOf(x.time)),
                  (x: Item) => WholeDays(start, end, x.time));
    PartsWeigh(items, LiveWindows(start, end), (x: Item) => WholeDays(start, end, x.time),
               (x: Item) => Covered(start, end, x.time));
  }

  /** What is reported: exactly the window's transactions that count, and the strays. */
  lemma {:induction false} CountedIs(r: Rollups, a: Address, headers: seq<Header>, hits: seq<Item>, start: int,
                                     end: int)
    requires ActivityAgrees(r, a, hits) && OnChain(headers, hits)
    ensures SlicesLive(headers, hits, LiveWindows(start, end)) + DailyPart(DayCount(r, a), DayWindows(start, end))
            + WeeklyPart(WeekCount(r, a), start, end) ==
            Counted(hits, start, end) + SlicesStray(headers, hits, LiveWindows(start, end))
  {
    SlicesLiveAre(headers, hits, LiveWindows(start, end));
    DailyBusy(hits, DayCount(r, a), start, end);
    WeeklyBusy(hits, WeekCount(r, a), start, end);
    LiveBusy(hits, start, end);
    PartsTile(BusyOnes(hits, start, end), start, end);
    BusyWeigh(hits, start, end);
  }

  /** Nothing is left out where every whole day has none or more than 2, and every whole week none
   * or more than 10, of them. */
  ghost predicate AllBusy(hits: seq<Item>, start: int, end: int) {
    && (forall time :: WholeDay(start, end, time) && !WholeWeek(start, end, time) ==>
          SameDay(hits, DayOf(time)) == 0 || SameDay(hits, DayOf(time)) > 2)
    && (forall time :: WholeWeek(start, end, time) ==>
          SameWeek(hits, WeekOfTime(time)) == 0 || SameWeek(hits, WeekOfTime(time)) > 10)
  }

  lemma {:induction false} SomeWeigh(hits: seq<Item>, p: Item -> bool, x: Item)
    requires x in hits && p(x) && forall y :: y in hits ==> y.weight >= 0
    ensures Weigh(hits, p) >= x.weight
  {
    var before := hits[..|hits| - 1];
    assert forall y :: y in before ==> y in hits;
    RowsNonNegative(before, p);
    if x in before {
      SomeWeigh(before, p, x);
      assert hits[|hits| - 1] in hits;
    }
  }

  /** An item that does not count, of a window in which nothing is left out, weighs nothing. */
  lemma {:induction false} AllBusyCounts(hits: seq<Item>, start: int, end: int, x: Item)
    requires AllBusy(hits, start, end) && x in hits && forall y :: y in hits ==> y.weight >= 0
    ensures x.weight > 0 ==> Busy(hits, start, end, x.time)
  {
    SomeWeigh(hits, (y: Item) => DayOf(y.time) == DayOf(x.time), x);
    SomeWeigh(hits, (y: Item) => WeekOfTime(y.time) == WeekOfTime(x.time), x);
    PartsAreWhole(start, end, x.time);
  }

  lemma {:induction false} WeighPositive(items: seq<Item>, p: Item -> bool, q: Item -> bool)
    requires forall x :: x in items && x.weight != 0 ==> (p(x) <==> q(x))
    ensures Weigh(items, p) == Weigh(items, q)
  {
    if items != [] {
      var before := items[..|items| - 1];
      assert forall x :: x in before ==> x in items;
      WeighPositive(before, p, q);
      assert items[|items| - 1] in items;
    }
  }

  /** Then the count is the true one; and in any window of at most three days. */
  lemma {:induction false} ExactWhenBusy(hits: seq<Item>, start: int, end: int)
    requires forall y :: y in hits ==> y.weight >= 0
    ensures AllBusy(hits, start, end) || end - start <= 259_200_000 ==>
              Counted(hits, start, end) == TrueCount(hits, start, end)
  {
    if AllBusy(hits, start, end) || end - start <= 259_200_000 {
      forall x | x in hits && x.weight != 0
        ensures Covered(start, end, x.time) && Busy(hits, start, end, x.time) <==> Covered(start, end, x.time)
      {
        if AllBusy(hits, start, end) {
          AllBusyCounts(hits, start, end, x);
        }
      }
      WeighPositive(hits, (x: Item) => Covered(start, end, x.time) && Busy(hits, start, end, x.time),
                    (x: Item) => Covered(start, end, x.time));
    }
  }

  /** A whole day with at most 2, outside the whole weeks, and a whole week with at most 10, add
   * nothing. */
  lemma {:induction false} FewAddNothing(hits: seq<Item>, start: int, end: int, time: int)
    ensures WholeDay(start, end, time) && !WholeWeek(start, end, time) && SameDay(hits, DayOf(time)) <= 2 ==>
              Weigh(hits, (x: Item) => DayOf(x.time) == DayOf(time) && Covered(start, end, x.time)
                                       && Busy(hits, start, end, x.time)) == 0
    ensures WholeWeek(start, end, time) && SameWeek(hits, WeekOfTime(time)) <= 10 ==>
              Weigh(hits, (x: Item) => WeekOfTime(x.time) == WeekOfTime(time) && Covered(start, end, x.time)
                                       && Busy(hits, start, end, x.time)) == 0
  {
    if WholeDay(start, end, time) && !WholeWeek(start, end, time) && SameDay(hits, DayOf(time)) <= 2 {
      WeighNone(hits, (x: Item) => DayOf(x.time) == DayOf(time) && Covered(start, end, x.time)
                                   && Busy(hits, start, end, x.time));
    }
    if WholeWeek(start, end, time) && SameWeek(hits, WeekOfTime(time)) <= 10 {
      WeighNone(hits, (x: Item) => WeekOfTime(x.time) == WeekOfTime(time) && Covered(start, end, x.time)
                                   && Busy(hits, start, end, x.time));
    }
  }

  /** The count reported for one address: the true one, the strays of the live slices,
   * and what the thresholds leave out. With non-decreasing block times it is at most
   * the true count, short by at most 2 per daily bucket and 10 per weekly bucket. */
  method ReportedCount(r: Rollups, a: Address, headers: seq<Header>, hits: seq<Item>, start: int, end: int)
    returns (count: int)
    requires ActivityAgrees(r, a, hits) && OnChain(headers, hits)
    ensures count == TrueCount(hits, start, end) + SlicesStray(headers, hits, LiveWindows(start, end))
                     - DailyLost(DayCount(r, a), DayWindows(start, end)) - WeeklyLost(WeekCount(r, a), start, end)
    ensures count == Counted(hits, start, end) + SlicesStray(headers, hits, LiveWindows(start, end))
    ensures Monotone(headers) ==>
              TrueCount(hits, start, end) - DAILY_MIN * DailyBuckets(DayWindows(start, end))
              - WEEKLY_MIN * WeeklyBuckets(start, end) <= count <= TrueCount(hits, start, end)
    ensures Monotone(headers) && (AllBusy(hits, start, end) || end - start <= 259_200_000) ==>
              count == TrueCount(hits, start, end)
  {
    var liveWindows, dayWindows, useWeekly := BuildWindows(start, end);
    count := SumParts(r, a, headers, hits, liveWindows, dayWindows);
    if useWeekly {
      count := count + KeptSum(WeekCount(r, a), WEEKLY_MIN, WeekLo(start), WeekHi(end) - WeekLo(start));
    }
    PartsAre(r, a, headers, hits, start, end);
    CountedIs(r, a, headers, hits, start, end);
    if Monotone(headers) {
      ReportedWithin(r, a, headers, hits, start, end);
      ExactWhenBusy(hits, start, end);
    }
  }

  // --------------------------------------------------------------- in every run

  /** The confirmed transactions, weighing 1 when they touch the address. */
  function Hits(w: World, rpc: Rpc, chain: seq<Mined>, a: Address): seq<Item> {
    if chain == [] then [] else
      var before, m := chain[..|chain| - 1], chain[|chain| - 1];
      Hits(w, rpc, before, a) + [Item(m.height, m.time, One(a in Touched(m.tx, ChainResolved(w, rpc, before, m.tx))))]
  }

  lemma {:induction false} DayHits(w: World, rpc: Rpc, chain: seq<Mined>, a: Address, day: int)
    ensures WalkTotal(w, rpc, chain, DayActivity(day, a)).txs ==
            Weigh(Hits(w, rpc, chain, a), (x: Item) => DayOf(x.time) == day)
  {
    if chain != [] {
      var hits := Hits(w, rpc, chain, a);
      DayHits(w, rpc, chain[..|chain| - 1], a, day);
      assert hits[..|hits| - 1] == Hits(w, rpc, chain[..|chain| - 1], a);
      DayTotalStep(w, rpc, chain, day, a);
    }
  }

  lemma {:induction false} WeekTotalStep(w: World, rpc: Rpc, chain: seq<Mined>, week: int, a: Address)
    requires chain != []
    ensures var before, m := chain[..|chain| - 1], chain[|chain| - 1];
            WalkTotal(w, rpc, chain, WeekActivity(week, a)).txs ==
            WalkTotal(w, rpc, before, WeekActivity(week, a)).txs
            + if week == WeekOfTime(m.time) && a in Touched(m.tx, ChainResolved(w, rpc, before, m.tx)) then 1 else 0
  {
  }

  lemma {:induction false} WeekHits(w: World, rpc: Rpc, chain: seq<Mined>, a: Address, week: int)
    ensures WalkTotal(w, rpc, chain, WeekActivity(week, a)).txs ==
            Weigh(Hits(w, rpc, chain, a), (x: Item) => WeekOfTime(x.time) == week)
  {
    if chain != [] {
      var hits := Hits(w, rpc, chain, a);
      WeekHits(w, rpc, chain[..|chain| - 1], a, week);
      assert hits[..|hits| - 1] == Hits(w, rpc, chain[..|chain| - 1], a);
      WeekTotalStep(w, rpc, chain, week, a);
    }
  }

  lemma {:induction false} HitsNonNegative(w: World, rpc: Rpc, chain: seq<Mined>, a: Address, x: Item)
    requires x in Hits(w, rpc, chain, a)
    ensures x.weight >= 0
  {
    if x in Hits(w, rpc, chain[..|chain| - 1], a) {
      HitsNonNegative(w, rpc, chain[..|chain| - 1], a, x);
    }
  }

  lemma {:induction false} AccountedActivity(t: Tables, w: World, rpc: Rpc, history: seq<Block>, a: Address)
    requires Accounted(t, w, rpc, history)
    ensures ActivityAgrees(t.rollups, a, Hits(w, rpc, Flatten(history), a))
  {
    var chain, hits := Flatten(history), Hits(w, rpc, Flatten(history), a);
    forall day ensures DayCount(t.rollups, a)(day) == Weigh(hits, (x: Item) => DayOf(x.time) == day) {
      AddressRowIs(t, w, rpc, history, DayActivity(day, a));
      DayHits(w, rpc, chain, a, day);
    }
    forall week ensures WeekCount(t.rollups, a)(week) == Weigh(hits, (x: Item) => WeekOfTime(x.time) == week) {
      AddressRowIs(t, w, rpc, history, WeekActivity(week, a));
      WeekHits(w, rpc, chain, a, week);
    }
    forall x | x in hits ensures x.weight >= 0 { HitsNonNegative(w, rpc, chain, a, x); }
  }

  /** In every run the activity tables hold, per day and per week, the confirmed
   * transactions that touch the address. */
  lemma {:induction false} RunAgreesActivity(w: World, rpc: Rpc, events: seq<Event>, a: Address)
    requires ValidRun(w, [], events) && Mining(w, events, rpc)
    ensures ActivityAgrees(Run(EMPTY, events).rollups, a, Hits(w, rpc, ChainOf(events), a))
  {
    RunAccounted(w, rpc, events, Run(EMPTY, events));
    ChainIsHistory(events);
    AccountedActivity(Run(EMPTY, events), w, rpc, HistoryOf(events), a);
  }
}
