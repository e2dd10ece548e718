/** The rollups against their slow definition: recomputation over the chain. */
module LedgerTotals {
  import opened Prelude
  import opened Rollups
  import opened Ledger
  import opened LedgerFacts
  import opened LedgerInvariants
  import opened LedgerMine
  import opened LedgerSee
  import opened LedgerRuns
  import opened LedgerDeltas
  import opened LedgerBatches

  // ------------------------------------------------------- the slow definition

  /** What outputs pay to an address, every appearance counted. */
  function PaidTo(vout: seq<TxOut>, a: Address): int {
    if vout == [] then 0 else
      PaidTo(vout[..|vout| - 1], a) + if vout[|vout| - 1].address == Some(a) then vout[|vout| - 1].value else 0
  }

  function SpentFrom(res: seq<Resolved>, a: Address): int {
    if res == [] then 0 else
      SpentFrom(res[..|res| - 1], a) + if res[|res| - 1].address == Some(a) then Amount(res[|res| - 1]) else 0
  }

  /** A transaction's share of an address row: flows into and out of the address in
   * the row's day, and the transaction itself, once, if it touches the address. */
  function Share(k: RollupKey, day: int, received: int, sent: int, touched: bool): Tally {
    match k
    case AddressTotal(_) => ZERO.(received := received, sent := sent, txs := if touched then 1 else 0)
    case AddressDay(_, d) => if d == day then ZERO.(received := received, sent := sent) else ZERO
    case DayActivity(d, _) => if d == day && touched then ONE_TX else ZERO
    case WeekActivity(week, _) => if week == WeekOf(day) && touched then ONE_TX else ZERO
    case _ => ZERO
  }

  predicate HasAddress(k: RollupKey) {
    k.AddressTotal? || k.AddressDay? || k.DayActivity? || k.WeekActivity?
  }

  function WalkPart(m: Mined, res: seq<Resolved>, k: RollupKey): Tally {
    PartOf(m.tx.vout, res, Touched(m.tx, res), DayOf(m.time), k)
  }

  function PartOf(vout: seq<TxOut>, res: seq<Resolved>, touched: set<Address>, day: int, k: RollupKey): Tally {
    if HasAddress(k)
    then Share(k, day, PaidTo(vout, k.address), SpentFrom(res, k.address), k.address in touched)
    else ZERO
  }

  /** A transaction's share of an hour or of a type row. */
  function StatPart(tx: Tx, time: int, k: RollupKey): Tally {
    match k
    case HourStats(h) => if h == HourOf(time) then HourTally(tx) else ZERO
    case TypeCount(ty, cj, ms) => if ty == tx.txType && cj == CoinJoin(tx) && ms == tx.multisig then ONE_TX else ZERO
    case _ => ZERO
  }

  function BlockPart(b: Block, k: RollupKey): Tally {
    if k.HourStats? && k.hour == HourOf(b.time) then ZERO.(blocks := 1, size := b.size) else ZERO
  }

  predicate NamesParent(input: TxIn, before: seq<Mined>) {
    input.Spend? && Among(before, input.prevHash)
  }

  /** The spent outputs as the chain itself defines them: the parent's output when the
   * parent was mined before, otherwise what the RPC says. */
  function ChainResolved(w: World, rpc: Rpc, before: seq<Mined>, tx: Tx): seq<Resolved> {
    seq(|tx.vin|, k requires 0 <= k < |tx.vin| =>
      Canonical(if NamesParent(tx.vin[k], before) then Some(0) else None, w, rpc, tx.vin[k]))
  }

  /** One row of the address rollups, recomputed over the whole chain. */
  function WalkTotal(w: World, rpc: Rpc, chain: seq<Mined>, k: RollupKey): Tally {
    if chain == [] then ZERO else
      var before, m := chain[..|chain| - 1], chain[|chain| - 1];
      Plus(WalkTotal(w, rpc, before, k), WalkPart(m, ChainResolved(w, rpc, before, m.tx), k))
  }

  function TxsTotal(txs: seq<Tx>, time: int, k: RollupKey): Tally {
    if txs == [] then ZERO else
      Plus(TxsTotal(txs[..|txs| - 1], time, k), StatPart(txs[|txs| - 1], time, k))
  }

  /** One row of the block and type rollups, recomputed over every mined block. */
  function StatsTotal(history: seq<Block>, k: RollupKey): Tally {
    if history == [] then ZERO else
      var b := history[|history| - 1];
      Plus(StatsTotal(history[..|history| - 1], k), Plus(BlockPart(b, k), TxsTotal(b.txs, b.time, k)))
  }

  function Recomputed(w: World, rpc: Rpc, history: seq<Block>, k: RollupKey): Tally {
    Plus(WalkTotal(w, rpc, Flatten(history), k), StatsTotal(history, k))
  }

  // -------------------------------------------------------- values of the deltas

  function Paid(vout: seq<TxOut>, day: int, k: RollupKey): Tally {
    if IsFlowKey(k, day) then ZERO.(received := PaidTo(vout, k.address)) else ZERO
  }

  function PaidBy(o: TxOut, day: int, k: RollupKey): Tally {
    if IsFlowKey(k, day) && o.address == Some(k.address) then ZERO.(received := o.value) else ZERO
  }

  function Sent(res: seq<Resolved>, day: int, k: RollupKey): Tally {
    if IsFlowKey(k, day) then ZERO.(sent := SpentFrom(res, k.address)) else ZERO
  }

  function SentBy(r: Resolved, day: int, k: RollupKey): Tally {
    if IsFlowKey(k, day) && r.address == Some(k.address) then ZERO.(sent := Amount(r)) else ZERO
  }

  lemma {:induction false} AtOutDelta(o: TxOut, day: int, k: RollupKey)
    ensures At(OutDelta(o, day), k) == PaidBy(o, day, k)
  {
  }

  lemma {:induction false} AtInDelta(r: Resolved, day: int, k: RollupKey)
    ensures At(InDelta(r, day), k) == SentBy(r, day, k)
  {
  }

  lemma {:induction false} PaidStep(vout: seq<TxOut>, day: int, k: RollupKey)
    requires vout != []
    ensures Paid(vout, day, k) == Plus(Paid(vout[..|vout| - 1], day, k), PaidBy(vout[|vout| - 1], day, k))
  {
    if !IsFlowKey(k, day) {
      PlusLaws(ZERO, ZERO, ZERO);
    }
  }

  lemma {:induction false} SentStep(res: seq<Resolved>, day: int, k: RollupKey)
    requires res != []
    ensures Sent(res, day, k) == Plus(Sent(res[..|res| - 1], day, k), SentBy(res[|res| - 1], day, k))
  {
    if IsFlowKey(k, day) {
      SpentStep(res, k.address);
    } else {
      PlusLaws(ZERO, ZERO, ZERO);
    }
  }

  lemma {:induction false} SpentStep(res: seq<Resolved>, a: Address)
    requires res != []
    ensures SpentFrom(res, a) ==
            SpentFrom(res[..|res| - 1], a) + if res[|res| - 1].address == Some(a) then Amount(res[|res| - 1]) else 0
  {
  }

  lemma {:induction false} OutsDeltaStep(vout: seq<TxOut>, day: int, k: RollupKey)
    requires vout != []
    ensures At(OutsDelta(vout, day), k) ==
            Plus(At(OutsDelta(vout[..|vout| - 1], day), k), At(OutDelta(vout[|vout| - 1], day), k))
  {
    AtMerge(OutsDelta(vout[..|vout| - 1], day), OutDelta(vout[|vout| - 1], day), k);
  }

  lemma {:induction false} InsDeltaStep(res: seq<Resolved>, day: int, k: RollupKey)
    requires res != []
    ensures At(InsDelta(res, day), k) ==
            Plus(At(InsDelta(res[..|res| - 1], day), k), At(InDelta(res[|res| - 1], day), k))
  {
    AtMerge(InsDelta(res[..|res| - 1], day), InDelta(res[|res| - 1], day), k);
  }

  lemma {:induction false} AtOutsDelta(vout: seq<TxOut>, day: int, k: RollupKey)
    ensures At(OutsDelta(vout, day), k) == Paid(vout, day, k)
  {
    if vout != [] {
      AtOutsDelta(vout[..|vout| - 1], day, k);
      OutsDeltaStep(vout, day, k);
      AtOutDelta(vout[|vout| - 1], day, k);
      PaidStep(vout, day, k);
    }
  }

  lemma {:induction false} AtInsDelta(res: seq<Resolved>, day: int, k: RollupKey)
    ensures At(InsDelta(res, day), k) == Sent(res, day, k)
  {
    if res != [] {
      AtInsDelta(res[..|res| - 1], day, k);
      InsDeltaStep(res, day, k);
      AtInDelta(res[|res| - 1], day, k);
      SentStep(res, day, k);
    }
  }

  function TouchPart(addresses: set<Address>, day: int, k: RollupKey): Tally {
    if (k.AddressTotal? || (k.DayActivity? && k.day == day)) && k.address in addresses then ONE_TX else ZERO
  }

  lemma {:induction false} AtTouchDelta(addresses: set<Address>, day: int, k: RollupKey)
    ensures At(TouchDelta(addresses, day), k) == TouchPart(addresses, day, k)
  {
    TouchDeltaKeys(addresses, day, k);
  }

  /** The share without the weekly rows, which are regrouped afterwards. */
  function DailyPart(m: Mined, res: seq<Resolved>, k: RollupKey): Tally {
    Unless(k.WeekActivity?, WalkPart(m, res, k))
  }

  function Unless(b: bool, x: Tally): Tally {
    if b then ZERO else x
  }

  lemma {:induction false} UnlessSplit(b: bool, x: Tally)
    ensures x == Plus(Unless(b, x), Unless(!b, x))
  {
  }

  lemma {:induction false} ShareSum(k: RollupKey, day: int, received: int, sent: int, touched: bool)
    requires HasAddress(k) && !k.WeekActivity?
    ensures Share(k, day, received, sent, touched) ==
            Plus(Plus(if IsFlowKey(k, day) then ZERO.(received := received) else ZERO,
                      if IsFlowKey(k, day) then ZERO.(sent := sent) else ZERO),
                 if (k.AddressTotal? || (k.DayActivity? && k.day == day)) && touched then ONE_TX else ZERO)
  {
  }

  lemma {:induction false} DailyPartSum(vout: seq<TxOut>, res: seq<Resolved>, touched: set<Address>, day: int,
                                        k: RollupKey)
    ensures Unless(k.WeekActivity?, PartOf(vout, res, touched, day, k)) ==
            Plus(Plus(Paid(vout, day, k), Sent(res, day, k)), TouchPart(touched, day, k))
  {
    if HasAddress(k) && !k.WeekActivity? {
      ShareSum(k, day, PaidTo(vout, k.address), SpentFrom(res, k.address), k.address in touched);
    }
  }

  lemma {:induction false} WalkDeltaStep(m: Mined, res: seq<Resolved>, k: RollupKey)
    ensures At(WalkDelta(m, res), k) ==
            Plus(Plus(At(OutsDelta(m.tx.vout, DayOf(m.time)), k), At(InsDelta(res, DayOf(m.time)), k)),
                 At(TouchDelta(Touched(m.tx, res), DayOf(m.time)), k))
  {
    var day := DayOf(m.time);
    AtMergedTwice(OutsDelta(m.tx.vout, day), InsDelta(res, day), TouchDelta(Touched(m.tx, res), day), k);
  }

  lemma {:induction false} AtWalkDelta(m: Mined, res: seq<Resolved>, k: RollupKey)
    ensures At(WalkDelta(m, res), k) == DailyPart(m, res, k)
  {
    var day := DayOf(m.time);
    WalkDeltaStep(m, res, k);
    AtOutsDelta(m.tx.vout, day, k);
    AtInsDelta(res, day, k);
    AtTouchDelta(Touched(m.tx, res), day, k);
    DailyPartSum(m.tx.vout, res, Touched(m.tx, res), day, k);
  }

  lemma {:induction false} WeekOfDayIn(week: int, day: int)
    requires WeekOf(week) == week
    ensures WeekOf(day) == week <==> week <= day <= week + 6
  {
  }

  function WeeklyPart(m: Mined, res: seq<Resolved>, k: RollupKey): Tally {
    Unless(!k.WeekActivity?, WalkPart(m, res, k))
  }

  lemma {:induction false} DayTxs(m: Mined, res: seq<Resolved>, day: int, a: Address)
    ensures At(WalkDelta(m, res), DayActivity(day, a)).txs ==
            if day == DayOf(m.time) && a in Touched(m.tx, res) then 1 else 0
  {
    AtWalkDelta(m, res, DayActivity(day, a));
  }

  lemma {:induction false} OneWeekSum(m: Mined, res: seq<Resolved>, week: int, a: Address)
    requires WeekOf(week) == week
    ensures WeekSum(WalkDelta(m, res), week, a) ==
            if week == WeekOf(DayOf(m.time)) && a in Touched(m.tx, res) then 1 else 0
  {
    DayTxs(m, res, week, a);
    DayTxs(m, res, week + 1, a);
    DayTxs(m, res, week + 2, a);
    DayTxs(m, res, week + 3, a);
    DayTxs(m, res, week + 4, a);
    DayTxs(m, res, week + 5, a);
    DayTxs(m, res, week + 6, a);
    WeekOfDayIn(week, DayOf(m.time));
  }

  /** Only the week of the transaction's own day gets it. */
  lemma {:induction false} AtWeeklyDelta(m: Mined, res: seq<Resolved>, k: RollupKey)
    ensures At(Weekly(WalkDelta(m, res)), k) == WeeklyPart(m, res, k)
  {
    AtWeekly(WalkDelta(m, res), k);
    Mondays(DayOf(m.time), 0);
    if k.WeekActivity? && WeekOf(k.week) == k.week {
      OneWeekSum(m, res, k.week, k.address);
    }
  }

  function WalkSum(tr: TxTable, outs: OutTable, rpc: Rpc, txs: seq<Mined>, k: RollupKey): Tally {
    if txs == [] then ZERO else
      var m := txs[|txs| - 1];
      Plus(WalkSum(tr, outs, rpc, txs[..|txs| - 1], k), WalkPart(m, Resolve(tr, outs, rpc, m.tx), k))
  }

  lemma {:induction false} WalkStep(tr: TxTable, outs: OutTable, rpc: Rpc, txs: seq<Mined>, k: RollupKey)
    requires txs != []
    ensures var before, one := Walk(tr, outs, rpc, txs[..|txs| - 1]),
                               WalkDelta(txs[|txs| - 1], Resolve(tr, outs, rpc, txs[|txs| - 1].tx));
            && At(Walk(tr, outs, rpc, txs), k) == Plus(At(before, k), At(one, k))
            && At(Weekly(Walk(tr, outs, rpc, txs)), k) == Plus(At(Weekly(before), k), At(Weekly(one), k))
  {
    var before, one := Walk(tr, outs, rpc, txs[..|txs| - 1]),
                       WalkDelta(txs[|txs| - 1], Resolve(tr, outs, rpc, txs[|txs| - 1].tx));
    AtMerge(before, one, k);
    WeeklyMerge(before, one);
    AtMerge(Weekly(before), Weekly(one), k);
  }

  lemma {:induction false} PartSplit(m: Mined, res: seq<Resolved>, k: RollupKey)
    ensures WalkPart(m, res, k) == Plus(DailyPart(m, res, k), WeeklyPart(m, res, k))
  {
    UnlessSplit(k.WeekActivity?, WalkPart(m, res, k));
  }

  lemma {:induction false} PlusExchange(a: Tally, b: Tally, c: Tally, d: Tally)
    ensures Plus(Plus(a, b), Plus(c, d)) == Plus(Plus(a, c), Plus(b, d))
  {
  }

  /** The batch walk and its weekly regrouping, row by row. */
  lemma {:induction false} AtWalk(tr: TxTable, outs: OutTable, rpc: Rpc, txs: seq<Mined>, k: RollupKey)
    ensures Plus(At(Walk(tr, outs, rpc, txs), k), At(Weekly(Walk(tr, outs, rpc, txs)), k)) ==
            WalkSum(tr, outs, rpc, txs, k)
  {
    if txs == [] {
      AtWeekly(map[], k);
    } else {
      var before := txs[..|txs| - 1];
      var m := txs[|txs| - 1];
      var res := Resolve(tr, outs, rpc, m.tx);
      AtWalk(tr, outs, rpc, before, k);
      WalkStep(tr, outs, rpc, txs, k);
      AtWalkDelta(m, res, k);
      AtWeeklyDelta(m, res, k);
      PartSplit(m, res, k);
      PlusExchange(At(Walk(tr, outs, rpc, before), k), DailyPart(m, res, k),
                   At(Weekly(Walk(tr, outs, rpc, before)), k), WeeklyPart(m, res, k));
    }
  }

  lemma {:induction false} AtTxStats(tx: Tx, time: int, k: RollupKey)
    ensures At(TxStats(tx, time), k) == StatPart(tx, time, k)
  {
  }

  lemma {:induction false} AtTxsStats(txs: seq<Tx>, time: int, k: RollupKey)
    ensures At(TxsStats(txs, time), k) == TxsTotal(txs, time, k)
  {
    if txs != [] {
      AtTxsStats(txs[..|txs| - 1], time, k);
      AtTxStats(txs[|txs| - 1], time, k);
      TxsStatsStep(txs, time, k);
    }
  }

  lemma {:induction false} TxsStatsStep(txs: seq<Tx>, time: int, k: RollupKey)
    requires txs != []
    ensures At(TxsStats(txs, time), k) ==
            Plus(At(TxsStats(txs[..|txs| - 1], time), k), At(TxStats(txs[|txs| - 1], time), k))
  {
    AtMerge(TxsStats(txs[..|txs| - 1], time), TxStats(txs[|txs| - 1], time), k);
  }

  lemma {:induction false} AtBlockStats(b: Block, k: RollupKey)
    ensures At(BlockStats(b), k) == Plus(BlockPart(b, k), TxsTotal(b.txs, b.time, k))
  {
    var header: Rollups := map[HourStats(HourOf(b.time)) := ZERO.(blocks := 1, size := b.size)];
    assert At(header, k) == BlockPart(b, k);
    AtTxsStats(b.txs, b.time, k);
    AtMerge(header, TxsStats(b.txs, b.time), k);
  }

  lemma {:induction false} AtChainStats(blocks: seq<Block>, k: RollupKey)
    ensures At(ChainStats(blocks), k) == StatsTotal(blocks, k)
  {
    if blocks != [] {
      AtChainStats(blocks[..|blocks| - 1], k);
      AtBlockStats(blocks[|blocks| - 1], k);
      AtMerge(ChainStats(blocks[..|blocks| - 1]), BlockStats(blocks[|blocks| - 1]), k);
    }
  }

  lemma {:induction false} AtDelta(known: Rollups, walk: Rollups, stats: Rollups, k: RollupKey)
    requires At(known, k) == ZERO
    ensures At(Merge(known, Merge(Merge(walk, Weekly(walk)), stats)), k) ==
            Plus(Plus(At(walk, k), At(Weekly(walk), k)), At(stats, k))
  {
    AtMergedTwice(walk, Weekly(walk), stats, k);
    AtMerge(known, Merge(Merge(walk, Weekly(walk)), stats), k);
  }

  /** What a batch adds to one row. */
  lemma {:induction false} AtBatchDelta(tr: TxTable, outs: OutTable, rpc: Rpc, blocks: seq<Block>, txs: seq<Mined>,
                                        k: RollupKey)
    ensures At(BatchDelta(tr, outs, rpc, blocks, txs), k) ==
            Plus(WalkSum(tr, outs, rpc, txs, k), StatsTotal(blocks, k))
  {
    var o, r := KnownAddresses(BatchOutAddresses(txs)), KnownAddresses(BatchRpcAddresses(tr, outs, rpc, txs));
    KnownRows(BatchOutAddresses(txs), k);
    KnownRows(BatchRpcAddresses(tr, outs, rpc, txs), k);
    AtMerge(o, r, k);
    AtWalk(tr, outs, rpc, txs, k);
    AtChainStats(blocks, k);
    AtDelta(Merge(o, r), Walk(tr, outs, rpc, txs), ChainStats(blocks), k);
  }

  // ------------------------------------------------- the chain's own resolution

  /** Same address, same amount. */
  predicate SameFlow(a: seq<Resolved>, b: seq<Resolved>) {
    |a| == |b| && forall i :: 0 <= i < |a| ==> a[i].address == b[i].address && a[i].amount == b[i].amount
  }

  lemma {:induction false} SameFlowSpent(a: seq<Resolved>, b: seq<Resolved>, x: Address)
    requires SameFlow(a, b)
    ensures SpentFrom(a, x) == SpentFrom(b, x)
  {
    if a != [] {
      SameFlowSpent(a[..|a| - 1], b[..|b| - 1], x);
    }
  }

  lemma {:induction false} SameFlowAddresses(a: seq<Resolved>, b: seq<Resolved>)
    requires SameFlow(a, b)
    ensures InAddresses(a) == InAddresses(b)
  {
    forall x ensures x in InAddresses(a) <==> x in InAddresses(b) {
      if i :| 0 <= i < |a| && a[i].address == Some(x) {
        assert b[i].address == Some(x);
      }
      if i :| 0 <= i < |b| && b[i].address == Some(x) {
        assert a[i].address == Some(x);
      }
    }
  }

  lemma {:induction false} SameFlowPart(m: Mined, a: seq<Resolved>, b: seq<Resolved>, k: RollupKey)
    requires SameFlow(a, b)
    ensures WalkPart(m, a, k) == WalkPart(m, b, k)
  {
    SameFlowAddresses(a, b);
    if HasAddress(k) {
      SameFlowSpent(a, b, k.address);
    }
  }

  /** The RPC answers with the transaction itself for each parent that is neither mined
   * nor in the batch, although the index has it from the mempool. */
  ghost predicate ParentsAnswered(tr: TxTable, w: World, rpc: Rpc, txs: seq<Mined>) {
    forall i, k :: 0 <= i < |txs| && 0 <= k < |txs[i].tx.vin| && txs[i].tx.vin[k].Spend? ==>
      ParentAnswered(tr, w, rpc, txs, txs[i].tx.vin[k].prevHash)
  }

  ghost predicate ParentAnswered(tr: TxTable, w: World, rpc: Rpc, txs: seq<Mined>, h: Hash) {
    h in tr ==> Confirmed(tr, h) || Among(txs, h) || rpc(h) == Some(w(h))
  }

  /** Which parents phase 6 finds: those mined earlier, and some that the RPC answers too. */
  lemma {:induction false} KnownParents(t: Tables, tr: TxTable, w: World, rpc: Rpc, chain: seq<Mined>, txs: seq<Mined>,
                                        i: int, k: int)
    requires Inv(t, w, chain) && Extends(w, chain, txs) && Advances(t.transactions, tr, txs)
    requires ParentsAnswered(t.transactions, w, rpc, txs)
    requires 0 <= i < |txs| && 0 <= k < |txs[i].tx.vin| && txs[i].tx.vin[k].Spend?
    ensures var h := txs[i].tx.vin[k].prevHash;
            (h in tr <==> Among(chain + txs[..i], h)) || (h in tr && rpc(h) == Some(w(h)))
  {
    var h := txs[i].tx.vin[k].prevHash;
    var all := chain + txs;
    AmongConcat(chain, txs);
    AmongConcat(chain, txs[..i]);
    assert all[|chain| + i] == txs[i];
    if Among(txs, h) {
      var j :| 0 <= j < |txs| && txs[j].tx.txid == h;
      assert all[|chain| + j] == txs[j];
      assert j < i && txs[..i][j].tx.txid == h;
    }
    if Among(txs[..i], h) {
      var j :| 0 <= j < i && txs[..i][j].tx.txid == h;
      assert txs[j].tx.txid == h;
    }
    assert ParentAnswered(t.transactions, w, rpc, txs, h);
  }

  /** An answered parent may be left out: the flow is the same. */
  lemma {:induction false} AnsweredFlow(id: Option<int>, other: Option<int>, w: World, rpc: Rpc, input: TxIn)
    requires input.Spend? ==> (id.Some? <==> other.Some?) || rpc(input.prevHash) == Some(w(input.prevHash))
    ensures var a, b := Canonical(id, w, rpc, input), Canonical(other, w, rpc, input);
            a.address == b.address && a.amount == b.amount
  {
  }

  lemma {:induction false} BatchResolvesAsChain(t: Tables, t': Tables, w: World, rpc: Rpc, chain: seq<Mined>,
                                                txs: seq<Mined>, view: OutTable, i: int)
    requires Inv(t, w, chain) && Extends(w, chain, txs) && Advances(t.transactions, t'.transactions, txs)
    requires IdsOk(t'.transactions, t'.nextTxId) && OutsOk(t'.transactions, w, view) && 0 <= i < |txs|
    requires ParentsAnswered(t.transactions, w, rpc, txs)
    ensures SameFlow(Resolve(t'.transactions, view, rpc, txs[i].tx), ChainResolved(w, rpc, chain + txs[..i], txs[i].tx))
  {
    var tr := t'.transactions;
    forall k | 0 <= k < |txs[i].tx.vin|
      ensures var a, b := Lookup(tr, view, rpc, txs[i].tx.vin[k]),
              ChainResolved(w, rpc, chain + txs[..i], txs[i].tx)[k];
              a.address == b.address && a.amount == b.amount
    {
      var input := txs[i].tx.vin[k];
      LookupIsCanonical(tr, t'.nextTxId, w, view, rpc, input);
      if input.Spend? {
        KnownParents(t, tr, w, rpc, chain, txs, i, k);
        AnsweredFlow(IdOf(tr, input.prevHash), if NamesParent(input, chain + txs[..i]) then Some(0) else None, w, rpc,
                     input);
      }
    }
  }

  /** Phase 6 resolves every input of the batch as the chain itself defines it. */
  ghost predicate ResolvesAsChain(tr: TxTable, view: OutTable, w: World, rpc: Rpc, chain: seq<Mined>, txs: seq<Mined>) {
    forall i :: 0 <= i < |txs| ==>
      SameFlow(Resolve(tr, view, rpc, txs[i].tx), ChainResolved(w, rpc, chain + txs[..i], txs[i].tx))
  }

  lemma {:induction false} WalkTotalStep(w: World, rpc: Rpc, chain: seq<Mined>, m: Mined, k: RollupKey)
    ensures WalkTotal(w, rpc, chain + [m], k) ==
            Plus(WalkTotal(w, rpc, chain, k), WalkPart(m, ChainResolved(w, rpc, chain, m.tx), k))
  {
    assert (chain + [m])[..|chain + [m]| - 1] == chain;
  }

  lemma {:induction false} WalkSumStep(tr: TxTable, outs: OutTable, rpc: Rpc, txs: seq<Mined>, m: Mined, k: RollupKey)
    ensures WalkSum(tr, outs, rpc, txs + [m], k) ==
            Plus(WalkSum(tr, outs, rpc, txs, k), WalkPart(m, Resolve(tr, outs, rpc, m.tx), k))
  {
    assert (txs + [m])[..|txs + [m]| - 1] == txs;
  }

  lemma {:induction false} PrefixGrows(chain: seq<Mined>, txs: seq<Mined>, i: nat)
    requires i < |txs|
    ensures txs[..i + 1] == txs[..i] + [txs[i]] && chain + txs[..i + 1] == chain + txs[..i] + [txs[i]]
  {
  }

  lemma {:induction false} GrowsByOne(tr: TxTable, view: OutTable, w: World, rpc: Rpc, chain: seq<Mined>,
                                      txs: seq<Mined>, m: Mined, k: RollupKey, base: Tally)
    requires WalkTotal(w, rpc, chain, k) == Plus(base, WalkSum(tr, view, rpc, txs, k))
    requires SameFlow(Resolve(tr, view, rpc, m.tx), ChainResolved(w, rpc, chain, m.tx))
    ensures WalkTotal(w, rpc, chain + [m], k) == Plus(base, WalkSum(tr, view, rpc, txs + [m], k))
  {
    WalkTotalStep(w, rpc, chain, m, k);
    WalkSumStep(tr, view, rpc, txs, m, k);
    SameFlowPart(m, Resolve(tr, view, rpc, m.tx), ChainResolved(w, rpc, chain, m.tx), k);
    PlusLaws(base, WalkSum(tr, view, rpc, txs, k), WalkPart(m, Resolve(tr, view, rpc, m.tx), k));
  }

  lemma {:induction false} WalkTotalGrows(tr: TxTable, view: OutTable, w: World, rpc: Rpc, chain: seq<Mined>,
                                          txs: seq<Mined>, k: RollupKey, n: nat)
    requires ResolvesAsChain(tr, view, w, rpc, chain, txs) && n <= |txs|
    ensures WalkTotal(w, rpc, chain + txs[..n], k) ==
            Plus(WalkTotal(w, rpc, chain, k), WalkSum(tr, view, rpc, txs[..n], k))
  {
    if n == 0 {
      assert chain + txs[..n] == chain && txs[..n] == [];
      PlusLaws(WalkTotal(w, rpc, chain, k), ZERO, ZERO);
    } else {
      var i, m := n - 1, txs[n - 1];
      PrefixGrows(chain, txs, i);
      WalkTotalGrows(tr, view, w, rpc, chain, txs, k, i);
      GrowsByOne(tr, view, w, rpc, chain + txs[..i], txs[..i], m, k, WalkTotal(w, rpc, chain, k));
    }
  }

  lemma {:induction false} StatsTotalConcat(a: seq<Block>, b: seq<Block>, k: RollupKey)
    ensures StatsTotal(a + b, k) == Plus(StatsTotal(a, k), StatsTotal(b, k))
  {
    if b == [] {
      assert a + b == a;
      PlusLaws(StatsTotal(a, k), ZERO, ZERO);
    } else {
      var n := |b| - 1;
      assert (a + b)[..|a + b| - 1] == a + b[..n] && (a + b)[|a + b| - 1] == b[n];
      StatsTotalConcat(a, b[..n], k);
      PlusLaws(StatsTotal(a, k), StatsTotal(b[..n], k), Plus(BlockPart(b[n], k), TxsTotal(b[n].txs, b[n].time, k)));
    }
  }

  // --------------------------------------------------------------- whole runs

  /** Every block mined by a run. */
  function HistoryOf(events: seq<Event>): seq<Block> {
    if events == [] then [] else
      HistoryOf(events[..|events| - 1])
        + match events[|events| - 1] { case Batch(blocks, _) => blocks case Pending(_, _) => [] }
  }

  lemma {:induction false} ChainIsHistory(events: seq<Event>)
    ensures ChainOf(events) == Flatten(HistoryOf(events))
  {
    if events != [] {
      var before, e := events[..|events| - 1], events[|events| - 1];
      ChainIsHistory(before);
      match e {
        case Batch(blocks, _) => FlattenConcat(HistoryOf(before), blocks);
        case Pending(_, _) =>
          assert HistoryOf(before) + [] == HistoryOf(before);
          assert ChainOf(before) + [] == ChainOf(before);
      }
    }
  }

  /** Batches use one RPC, and no batch of blocks is without transactions (every
   * block has a coinbase). */
  ghost predicate OneRpc(events: seq<Event>, rpc: Rpc) {
    forall i | 0 <= i < |events| && events[i].Batch? ::
      events[i].rpc == rpc && (Flatten(events[i].blocks) == [] ==> events[i].blocks == [])
  }

  /** At every batch, the RPC knows the parents that the run has seen but not mined. */
  ghost predicate Answered(w: World, events: seq<Event>, rpc: Rpc) {
    forall i | 0 <= i < |events| && events[i].Batch? ::
      ParentsAnswered(Run(EMPTY, events[..i]).transactions, w, rpc, Flatten(events[i].blocks))
  }

  ghost predicate Mining(w: World, events: seq<Event>, rpc: Rpc) {
    OneRpc(events, rpc) && Answered(w, events, rpc)
  }

  /** The index agrees with recomputation, and every indexed address has its row. */
  ghost predicate Accounted(t: Tables, w: World, rpc: Rpc, history: seq<Block>) {
    && AddressesKnown(t.outputs, t.rollups)
    && forall k :: At(t.rollups, k) == Recomputed(w, rpc, history, k)
  }

  lemma {:induction false} MineAccounted(t: Tables, w: World, rpc: Rpc, history: seq<Block>, blocks: seq<Block>,
                                         t': Tables)
    requires Inv(t, w, Flatten(history)) && Accounted(t, w, rpc, history)
    requires Extends(w, Flatten(history), Flatten(blocks)) && t' == Mine(t, blocks, rpc)
    requires (Flatten(blocks) == [] ==> blocks == []) && ParentsAnswered(t.transactions, w, rpc, Flatten(blocks))
    ensures Accounted(t', w, rpc, history + blocks)
  {
    var chain, txs := Flatten(history), Flatten(blocks);
    FlattenConcat(history, blocks);
    MineAddressesKnown(t, blocks, rpc, t');
    if txs == [] {
      assert history + blocks == history;
      assert t'.rollups == t.rollups;
    } else {
      TailFacts(w, chain, txs);
      MineStructure(t, w, blocks, rpc, t', txs);
      var view := ViewOk(t, w, blocks, rpc, t', txs);
      forall i | 0 <= i < |txs|
        ensures SameFlow(Resolve(t'.transactions, view, rpc, txs[i].tx),
                         ChainResolved(w, rpc, chain + txs[..i], txs[i].tx))
      {
        BatchResolvesAsChain(t, t', w, rpc, chain, txs, view, i);
      }
      forall k ensures At(t'.rollups, k) == Recomputed(w, rpc, history + blocks, k) {
        AtBatchDelta(t'.transactions, view, rpc, blocks, txs, k);
        BatchRecomputed(t.rollups, BatchDelta(t'.transactions, view, rpc, blocks, txs), t'.transactions, view,
                        w, rpc, history, blocks, txs, k);
      }
    }
  }

  lemma {:induction false} AddBoth(r: Rollups, delta: Rollups, k: RollupKey, a: Tally, b: Tally, c: Tally, d: Tally)
    requires At(r, k) == Plus(a, b) && At(delta, k) == Plus(c, d)
    ensures At(Merge(r, delta), k) == Plus(Plus(a, c), Plus(b, d))
  {
    AtMerge(r, delta, k);
    PlusExchange(a, b, c, d);
  }

  lemma {:induction false} BatchRecomputed(r: Rollups, delta: Rollups, tr: TxTable, view: OutTable, w: World, rpc: Rpc,
                                           history: seq<Block>, blocks: seq<Block>, txs: seq<Mined>, k: RollupKey)
    requires ResolvesAsChain(tr, view, w, rpc, Flatten(history), txs)
    requires At(delta, k) == Plus(WalkSum(tr, view, rpc, txs, k), StatsTotal(blocks, k))
    requires At(r, k) == Recomputed(w, rpc, history, k) && Flatten(history + blocks) == Flatten(history) + txs
    ensures At(Merge(r, delta), k) == Recomputed(w, rpc, history + blocks, k)
  {
    var a, b := WalkTotal(w, rpc, Flatten(history), k), StatsTotal(history, k);
    var c, d := WalkSum(tr, view, rpc, txs, k), StatsTotal(blocks, k);
    AddBoth(r, delta, k, a, b, c, d);
    WholeBatchGrows(tr, view, w, rpc, Flatten(history), txs, k);
    StatsTotalConcat(history, blocks, k);
  }

  lemma {:induction false} WholeBatchGrows(tr: TxTable, view: OutTable, w: World, rpc: Rpc, chain: seq<Mined>,
                                           txs: seq<Mined>, k: RollupKey)
    requires ResolvesAsChain(tr, view, w, rpc, chain, txs)
    ensures WalkTotal(w, rpc, chain + txs, k) == Plus(WalkTotal(w, rpc, chain, k), WalkSum(tr, view, rpc, txs, k))
  {
    WalkTotalGrows(tr, view, w, rpc, chain, txs, k, |txs|);
    assert txs[..|txs|] == txs;
  }

  lemma {:induction false} KnownAddsNothing(r: Rollups, o: set<Address>, others: set<Address>, k: RollupKey)
    ensures At(Merge(Merge(r, KnownAddresses(o)), KnownAddresses(others)), k) == At(r, k)
  {
    AtMergedTwice(r, KnownAddresses(o), KnownAddresses(others), k);
    KnownRows(o, k);
    KnownRows(others, k);
  }

  lemma {:induction false} SeeAccounted(t: Tables, w: World, rpc: Rpc, history: seq<Block>, tx: Tx, rpc': Rpc,
                                        t': Tables)
    requires Accounted(t, w, rpc, history) && t' == See(t, tx, rpc')
    ensures Accounted(t', w, rpc, history)
  {
    SeeAddressesKnown(t, tx, rpc', t');
    if tx.txid !in t.transactions {
      var tr' := t.transactions[tx.txid := NewRow(t.nextTxId, None, tx)];
      var rows := TxOutputs(t.nextTxId, tx.vout);
      SeeRollups(t, tx, rpc', tr', rows);
      forall k ensures At(t'.rollups, k) == Recomputed(w, rpc, history, k) {
        KnownAddsNothing(t.rollups, OutAddresses(tx.vout), RpcAddresses(tr', rows + t.outputs, rpc', tx.vin), k);
      }
    } else {
      assert t'.rollups == t.rollups;
    }
  }

  lemma {:induction false} EmptyAccounted(w: World, rpc: Rpc)
    ensures Accounted(EMPTY, w, rpc, [])
  {
  }

  lemma {:induction false} PrefixMining(w: World, events: seq<Event>, rpc: Rpc)
    requires Mining(w, events, rpc) && events != []
    ensures Mining(w, events[..|events| - 1], rpc)
  {
    var before := events[..|events| - 1];
    forall i | 0 <= i < |before| && before[i].Batch?
      ensures ParentsAnswered(Run(EMPTY, before[..i]).transactions, w, rpc, Flatten(before[i].blocks))
    {
      assert before[i] == events[i] && before[..i] == events[..i];
    }
    assert forall i :: 0 <= i < |before| ==> before[i] == events[i];
  }

  lemma {:induction false} RunInv(w: World, events: seq<Event>, t: Tables)
    requires ValidRun(w, [], events) && t == Run(EMPTY, events)
    ensures Inv(t, w, Flatten(HistoryOf(events))) && ChainOf(events) == Flatten(HistoryOf(events))
  {
    EmptyInv(w);
    ChainIsHistory(events);
    assert [] + ChainOf(events) == ChainOf(events);
    RunKeepsFrom(EMPTY, w, [], events, t, Flatten(HistoryOf(events)));
  }

  /** In every state of every run, every row of all six rollups equals its
   * recomputation over the whole confirmed chain. */
  lemma {:induction false} RunAccounted(w: World, rpc: Rpc, events: seq<Event>, t: Tables)
    requires ValidRun(w, [], events) && Mining(w, events, rpc) && t == Run(EMPTY, events)
    ensures Accounted(t, w, rpc, HistoryOf(events))
  {
    if events == [] {
      EmptyAccounted(w, rpc);
    } else {
      var before, e := events[..|events| - 1], events[|events| - 1];
      var mid, history := Run(EMPTY, before), HistoryOf(events[..|events| - 1]);
      PrefixMining(w, events, rpc);
      RunAccounted(w, rpc, before, mid);
      RunInv(w, before, mid);
      LastEvent(w, events, mid);
      StepAccounted(mid, w, rpc, history, e, t, HistoryOf(events));
    }
  }

  lemma {:induction false} LastEvent(w: World, events: seq<Event>, mid: Tables)
    requires ValidRun(w, [], events) && events != [] && mid == Run(EMPTY, events[..|events| - 1])
    ensures ValidRun(w, [], events[..|events| - 1])
    ensures ValidEvent(w, ChainOf(events[..|events| - 1]), events[|events| - 1])
  {
    assert [] + ChainOf(events[..|events| - 1]) == ChainOf(events[..|events| - 1]);
  }

  lemma {:induction false} StepAccounted(t: Tables, w: World, rpc: Rpc, history: seq<Block>, e: Event, t': Tables,
                                         history': seq<Block>)
    requires Inv(t, w, Flatten(history)) && Accounted(t, w, rpc, history) && ValidEvent(w, Flatten(history), e)
    requires t' == Step(t, e)
             && history' == history + match e { case Batch(blocks, _) => blocks case Pending(_, _) => [] }
    requires e.Batch? ==> e.rpc == rpc && (Flatten(e.blocks) == [] ==> e.blocks == [])
    requires e.Batch? ==> ParentsAnswered(t.transactions, w, rpc, Flatten(e.blocks))
    ensures Accounted(t', w, rpc, history')
  {
    match e {
      case Batch(blocks, r) => MineAccounted(t, w, rpc, history, blocks, t');
      case Pending(tx, r) =>
        assert history' == history;
        SeeAccounted(t, w, rpc, history, tx, r, t');
    }
  }
}
