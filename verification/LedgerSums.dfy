/** The rollups against each other and against the listings: totals are sums of days,
 * weeks are sums of days, and the address listing holds confirmed transactions. */
module LedgerSums {
  import opened Prelude
  import opened Rollups
  import opened Ledger
  import opened LedgerFacts
  import opened LedgerInvariants
  import opened LedgerMine
  import opened LedgerSee
  import opened LedgerRuns
  import opened LedgerDeltas
  import opened LedgerBatches
  import opened LedgerTotals
  import opened XpubHistory
  import opened TimeWindows

  // ------------------------------------------------------------ totals and days

  /** The columns of an address's totals. */
  datatype Column = Received | Sent | TxCount

  function Col(x: Tally, c: Column): int {
    match c
    case Received => x.received
    case Sent => x.sent
    case TxCount => x.txs
  }

  /** The daily row that holds the column: a balance delta or an activity count. */
  function DayKey(c: Column, a: Address, day: int): RollupKey {
    if c.TxCount? then DayActivity(day, a) else AddressDay(a, day)
  }

  function DaySum(r: Rollups, c: Column, a: Address, lo: int, n: nat): int {
    SumOf(d => Col(At(r, DayKey(c, a, d)), c), lo, n)
  }

  lemma {:induction false} ColPlus(x: Tally, y: Tally, c: Column)
    ensures Col(Plus(x, y), c) == Col(x, c) + Col(y, c)
  {
  }

  lemma {:induction false} ShareDay(c: Column, a: Address, day: int, d: int, received: int, sent: int, touched: bool)
    ensures Col(Share(DayKey(c, a, d), day, received, sent, touched), c) ==
            if d == day then Col(Share(AddressTotal(a), day, received, sent, touched), c) else 0
  {
  }

  lemma {:induction false} PartDay(m: Mined, res: seq<Resolved>, c: Column, a: Address, d: int, received: int,
                                   sent: int, touched: bool)
    requires received == PaidTo(m.tx.vout, a) && sent == SpentFrom(res, a) && touched == (a in Touched(m.tx, res))
    ensures Col(WalkPart(m, res, DayKey(c, a, d)), c) ==
            if d == DayOf(m.time) then Col(WalkPart(m, res, AddressTotal(a)), c) else 0
  {
    ShareDay(c, a, DayOf(m.time), d, received, sent, touched);
  }

  lemma {:induction false} ColStep(w: World, rpc: Rpc, chain: seq<Mined>, k: RollupKey, c: Column, before: seq<Mined>,
                                   m: Mined, res: seq<Resolved>)
    requires chain != [] && before == chain[..|chain| - 1] && m == chain[|chain| - 1]
    requires res == ChainResolved(w, rpc, before, m.tx)
    ensures Col(WalkTotal(w, rpc, chain, k), c) == Col(WalkTotal(w, rpc, before, k), c) + Col(WalkPart(m, res, k), c)
  {
    ColPlus(WalkTotal(w, rpc, before, k), WalkPart(m, res, k), c);
  }

  predicate Within(chain: seq<Mined>, lo: int, n: nat) {
    forall i :: 0 <= i < |chain| ==> lo <= DayOf(chain[i].time) < lo + n
  }

  lemma {:induction false} DaysAreTotal(w: World, rpc: Rpc, chain: seq<Mined>, c: Column, a: Address, lo: int, n: nat,
                                        days: int -> int)
    requires Within(chain, lo, n) && forall d :: days(d) == Col(WalkTotal(w, rpc, chain, DayKey(c, a, d)), c)
    ensures SumOf(days, lo, n) == Col(WalkTotal(w, rpc, chain, AddressTotal(a)), c)
  {
    if chain == [] {
      SumSingle(days, lo, 0, lo, n);
    } else {
      var before, m := chain[..|chain| - 1], chain[|chain| - 1];
      var res := ChainResolved(w, rpc, before, m.tx);
      var olds := d => Col(WalkTotal(w, rpc, before, DayKey(c, a, d)), c);
      var part := d => Col(WalkPart(m, res, DayKey(c, a, d)), c);
      assert forall i :: 0 <= i < |before| ==> before[i] == chain[i];
      DaysAreTotal(w, rpc, before, c, a, lo, n, olds);
      forall d ensures days(d) == olds(d) + part(d) {
        ColStep(w, rpc, chain, DayKey(c, a, d), c, before, m, res);
      }
      SumPlus(olds, part, days, lo, n);
      OnePart(m, res, c, a, lo, n, part);
      ColStep(w, rpc, chain, AddressTotal(a), c, before, m, res);
    }
  }

  lemma {:induction false} OnePart(m: Mined, res: seq<Resolved>, c: Column, a: Address, lo: int, n: nat,
                                   part: int -> int)
    requires lo <= DayOf(m.time) < lo + n && forall d :: part(d) == Col(WalkPart(m, res, DayKey(c, a, d)), c)
    ensures SumOf(part, lo, n) == Col(WalkPart(m, res, AddressTotal(a)), c)
  {
    var x := Col(WalkPart(m, res, AddressTotal(a)), c);
    forall d ensures part(d) == if d == DayOf(m.time) then x else 0 {
      PartDay(m, res, c, a, d, PaidTo(m.tx.vout, a), SpentFrom(res, a), a in Touched(m.tx, res));
    }
    SumSingle(part, DayOf(m.time), x, lo, n);
  }

  lemma {:induction false} TxsTotalSkips(txs: seq<Tx>, time: int, k: RollupKey)
    requires HasAddress(k)
    ensures TxsTotal(txs, time, k) == ZERO
  {
    if txs != [] {
      TxsTotalSkips(txs[..|txs| - 1], time, k);
    }
  }

  lemma {:induction false} StatsSkip(history: seq<Block>, k: RollupKey)
    requires HasAddress(k)
    ensures StatsTotal(history, k) == ZERO
  {
    if history != [] {
      var b := history[|history| - 1];
      StatsSkip(history[..|history| - 1], k);
      TxsTotalSkips(b.txs, b.time, k);
    }
  }

  lemma {:induction false} AddressRowIs(t: Tables, w: World, rpc: Rpc, history: seq<Block>, k: RollupKey)
    requires Accounted(t, w, rpc, history) && HasAddress(k)
    ensures At(t.rollups, k) == WalkTotal(w, rpc, Flatten(history), k)
  {
    StatsSkip(history, k);
    PlusLaws(WalkTotal(w, rpc, Flatten(history), k), ZERO, ZERO);
  }

  lemma {:induction false} DaySumIsTotal(t: Tables, w: World, rpc: Rpc, history: seq<Block>, c: Column, a: Address,
                                         lo: int, n: nat)
    requires Accounted(t, w, rpc, history) && Within(Flatten(history), lo, n)
    ensures DaySum(t.rollups, c, a, lo, n) == Col(At(t.rollups, AddressTotal(a)), c)
  {
    var days := d => Col(At(t.rollups, DayKey(c, a, d)), c);
    forall d ensures days(d) == Col(WalkTotal(w, rpc, Flatten(history), DayKey(c, a, d)), c) {
      AddressRowIs(t, w, rpc, history, DayKey(c, a, d));
    }
    DaysAreTotal(w, rpc, Flatten(history), c, a, lo, n, days);
    SumSame(days, d => Col(At(t.rollups, DayKey(c, a, d)), c), lo, n);
    AddressRowIs(t, w, rpc, history, AddressTotal(a));
  }

  /** In every run, received, sent and tx_count of an address are the sums of its daily
   * deltas and its daily activity over any stretch of days that covers the chain. */
  lemma {:induction false} TotalsAreDaySums(w: World, rpc: Rpc, events: seq<Event>, c: Column, a: Address, lo: int,
                                            n: nat)
    requires ValidRun(w, [], events) && Mining(w, events, rpc) && Within(ChainOf(events), lo, n)
    ensures Col(At(Run(EMPTY, events).rollups, AddressTotal(a)), c) == DaySum(Run(EMPTY, events).rollups, c, a, lo, n)
  {
    var t, history := Run(EMPTY, events), HistoryOf(events);
    RunAccounted(w, rpc, events, t);
    ChainIsHistory(events);
    DaySumIsTotal(t, w, rpc, history, c, a, lo, n);
  }

  // ------------------------------------------------------------- weeks and days

  function ChainWeek(w: World, rpc: Rpc, chain: seq<Mined>, week: int, a: Address): int {
    WalkTotal(w, rpc, chain, DayActivity(week, a)).txs + WalkTotal(w, rpc, chain, DayActivity(week + 1, a)).txs
    + WalkTotal(w, rpc, chain, DayActivity(week + 2, a)).txs + WalkTotal(w, rpc, chain, DayActivity(week + 3, a)).txs
    + WalkTotal(w, rpc, chain, DayActivity(week + 4, a)).txs + WalkTotal(w, rpc, chain, DayActivity(week + 5, a)).txs
    + WalkTotal(w, rpc, chain, DayActivity(week + 6, a)).txs
  }

  lemma {:induction false} DayTotalStep(w: World, rpc: Rpc, chain: seq<Mined>, day: int, a: Address)
    requires chain != []
    ensures var before, m := chain[..|chain| - 1], chain[|chain| - 1];
            WalkTotal(w, rpc, chain, DayActivity(day, a)).txs ==
            WalkTotal(w, rpc, before, DayActivity(day, a)).txs
            + if day == DayOf(m.time) && a in Touched(m.tx, ChainResolved(w, rpc, before, m.tx)) then 1 else 0
  {
  }

  lemma {:induction false} ChainWeekIs(w: World, rpc: Rpc, chain: seq<Mined>, week: int, a: Address)
    requires WeekOf(week) == week
    ensures WalkTotal(w, rpc, chain, WeekActivity(week, a)).txs == ChainWeek(w, rpc, chain, week, a)
  {
    if chain != [] {
      var before, m := chain[..|chain| - 1], chain[|chain| - 1];
      ChainWeekIs(w, rpc, before, week, a);
      WeekOfDayIn(week, DayOf(m.time));
      DayTotalStep(w, rpc, chain, week, a);
      DayTotalStep(w, rpc, chain, week + 1, a);
      DayTotalStep(w, rpc, chain, week + 2, a);
      DayTotalStep(w, rpc, chain, week + 3, a);
      DayTotalStep(w, rpc, chain, week + 4, a);
      DayTotalStep(w, rpc, chain, week + 5, a);
      DayTotalStep(w, rpc, chain, week + 6, a);
    }
  }

  lemma {:induction false} WeekRowIs(w: World, rpc: Rpc, week: int, a: Address, chain: seq<Mined>, r: Rollups)
    requires forall day :: At(r, DayActivity(day, a)).txs == WalkTotal(w, rpc, chain, DayActivity(day, a)).txs
    ensures WeekSum(r, week, a) == ChainWeek(w, rpc, chain, week, a)
  {
  }

  /** In every run, a weekly activity row is the sum of its seven daily rows. */
  lemma {:induction false} WeeksAreDaySums(w: World, rpc: Rpc, events: seq<Event>, week: int, a: Address)
    requires ValidRun(w, [], events) && Mining(w, events, rpc) && WeekOf(week) == week
    ensures At(Run(EMPTY, events).rollups, WeekActivity(week, a)).txs == WeekSum(Run(EMPTY, events).rollups, week, a)
  {
    var t, history := Run(EMPTY, events), HistoryOf(events);
    RunAccounted(w, rpc, events, t);
    ChainWeekIs(w, rpc, Flatten(history), week, a);
    AddressRowIs(t, w, rpc, history, WeekActivity(week, a));
    forall day ensures At(t.rollups, DayActivity(day, a)).txs ==
      WalkTotal(w, rpc, Flatten(history), DayActivity(day, a)).txs {
      AddressRowIs(t, w, rpc, history, DayActivity(day, a));
    }
    WeekRowIs(w, rpc, week, a, Flatten(history), t.rollups);
  }

  // -------------------------------------------------------- the address listing

  /** Every row of address_transactions is a confirmed transaction's, at its height. */
  ghost predicate ListsConfirmed(tr: TxTable, rows: map<AddrTx, int>) {
    forall k :: k in rows ==> ConfirmedAt(tr, k.txId, rows[k])
  }

  lemma {:induction false} StagedRowOf(tr: TxTable, outs: OutTable, rpc: Rpc, txs: seq<Mined>, k: AddrTx)
    requires AllKnown(tr, txs) && k in StagedAddressTxs(tr, outs, rpc, txs)
    ensures exists i :: 0 <= i < |txs| && tr[txs[i].tx.txid].id == k.txId
                        && StagedAddressTxs(tr, outs, rpc, txs)[k] == txs[i].height
  {
    if txs != [] {
      var n := |txs| - 1;
      var m := txs[n];
      var mine := TxAddressTxs(tr[m.tx.txid].id, m.height, Touched(m.tx, Resolve(tr, outs, rpc, m.tx)));
      if k in mine {
        assert tr[txs[n].tx.txid].id == k.txId;
      } else {
        StagedRowOf(tr, outs, rpc, txs[..n], k);
        var i :| 0 <= i < n && tr[txs[..n][i].tx.txid].id == k.txId
                 && StagedAddressTxs(tr, outs, rpc, txs[..n])[k] == txs[..n][i].height;
        assert txs[..n][i] == txs[i];
      }
    }
  }

  lemma {:induction false} MineListsConfirmed(t: Tables, w: World, chain: seq<Mined>, blocks: seq<Block>, rpc: Rpc,
                                              t': Tables, txs: seq<Mined>)
    requires Inv(t, w, chain) && Extends(w, chain, txs) && txs == Flatten(blocks) != []
    requires t' == Mine(t, blocks, rpc) && ListsConfirmed(t.transactions, t.addressTxs)
    ensures ListsConfirmed(t'.transactions, t'.addressTxs)
  {
    TailFacts(w, chain, txs);
    var tr, rows := BatchRows(t, blocks, rpc, t', txs);
    var headers := t.(blocks := PutBlocks(t.blocks, blocks));
    MineIsMineTxs(t, blocks, rpc, tr, txs, headers, t');
    MineTxsAddressTxs(headers, tr, blocks, txs, rpc, rows, t');
    MineFollows(t.transactions, t.nextTxId, w, chain, txs);
    NewRowsConfirmed(t.transactions, tr, t.nextTxId, w, chain, txs, rows + t.outputs, rpc, t.addressTxs);
  }

  lemma {:induction false} NewRowsConfirmed(tr: TxTable, tr': TxTable, next: int, w: World, chain: seq<Mined>,
                                            txs: seq<Mined>, outs: OutTable, rpc: Rpc, rows: map<AddrTx, int>)
    requires tr' == ConfirmTxs(tr, next, txs) && AllKnown(tr', txs) && Distinct(txs)
    requires Follows(tr', chain + txs) && ListsConfirmed(tr, rows)
    ensures ListsConfirmed(tr', StagedAddressTxs(tr', outs, rpc, txs) + rows)
  {
    ConfirmTxsRows(tr, next, txs);
    forall k | k in StagedAddressTxs(tr', outs, rpc, txs) + rows
      ensures ConfirmedAt(tr', k.txId, (StagedAddressTxs(tr', outs, rpc, txs) + rows)[k])
    {
      if k in rows {
        var h :| h in tr && tr[h].id == k.txId && tr[h].height == Some(rows[k]);
        assert Confirmed(tr, h) && tr'[h] == tr[h];
      } else {
        StagedRowOf(tr', outs, rpc, txs, k);
        var i :| 0 <= i < |txs| && tr'[txs[i].tx.txid].id == k.txId
                 && StagedAddressTxs(tr', outs, rpc, txs)[k] == txs[i].height;
        assert (chain + txs)[|chain| + i] == txs[i];
        var h := txs[i].tx.txid;
        assert h in tr' && tr'[h].height == Some(txs[i].height);
      }
    }
  }

  lemma {:induction false} StepListsConfirmed(t: Tables, w: World, chain: seq<Mined>, e: Event, t': Tables)
    requires Inv(t, w, chain) && ValidEvent(w, chain, e) && t' == Step(t, e)
    requires ListsConfirmed(t.transactions, t.addressTxs)
    ensures ListsConfirmed(t'.transactions, t'.addressTxs)
  {
    match e
    case Batch(blocks, rpc) =>
      if Flatten(blocks) != [] {
        MineListsConfirmed(t, w, chain, blocks, rpc, t', Flatten(blocks));
      }
    case Pending(tx, rpc) =>
      forall k | k in t'.addressTxs ensures ConfirmedAt(t'.transactions, k.txId, t'.addressTxs[k]) {
        var h :| h in t.transactions && t.transactions[h].id == k.txId
          && t.transactions[h].height == Some(t.addressTxs[k]);
        assert h in t'.transactions && t'.transactions[h] == t.transactions[h];
      }
  }

  lemma {:induction false} RunListsConfirmed(w: World, events: seq<Event>, t: Tables)
    requires ValidRun(w, [], events) && t == Run(EMPTY, events)
    ensures ListsConfirmed(t.transactions, t.addressTxs)
  {
    if events != [] {
      var before, e := events[..|events| - 1], events[|events| - 1];
      var mid := Run(EMPTY, before);
      RunListsConfirmed(w, before, mid);
      LastEvent(w, events, mid);
      RunInv(w, before, mid);
      StepListsConfirmed(mid, w, ChainOf(before), e, t);
    }
  }
}
