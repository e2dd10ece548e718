/** What a batch adds to the rollups, as one delta; how deltas of successive
 * batches combine; and what an input's resolution depends on. */
module LedgerDeltas {
  import opened Prelude
  import opened Rollups
  import opened Ledger
  import opened LedgerFacts
  import opened LedgerInvariants

  // ------------------------------------------------------------------- lookups

  /** A resolution as a function of the parent's id and contents alone. */
  function Canonical(id: Option<int>, w: World, rpc: Rpc, input: TxIn): Resolved {
    match input
    case Coinbase => Resolved(None, None, None)
    case Spend(h, v) =>
      var s := if id.Some? && 0 <= v < |w(h).vout| then Some(w(h).vout[v]) else None;
      if s.Some? && s.value.address.Some? then
        Resolved(id, s.value.address, Some(s.value.value))
      else
        var f := Fetched(rpc, h, v);
        Resolved(id,
                 if f.Some? then f.value.address else None,
                 if f.Some? then Some(f.value.value) else if s.Some? then Some(s.value.value) else None)
  }

  /** The stored output is the parent's own output, whatever else the tables hold. */
  lemma {:induction false} StoredIsOutput(tr: TxTable, w: World, outs: OutTable, h: Hash, v: int)
    requires OutsOk(tr, w, outs)
    ensures h in tr && 0 <= v < |w(h).vout| ==>
              Stored(tr, outs, h, v).Some? && SameOut(Stored(tr, outs, h, v).value, w(h).vout[v])
    ensures forall next :: IdsOk(tr, next) && !(h in tr && 0 <= v < |w(h).vout|) ==> Stored(tr, outs, h, v).None?
  {
    if h in tr {
      var o := Outpoint(tr[h].id, v);
      if 0 <= v < |w(h).vout| {
        assert Creates(tr, w, h, o);
      } else if o in outs {
        var g :| Creates(tr, w, g, o);
      }
    }
  }

  lemma {:induction false} LookupIsCanonical(tr: TxTable, next: int, w: World, outs: OutTable, rpc: Rpc, input: TxIn)
    requires IdsOk(tr, next) && OutsOk(tr, w, outs)
    ensures input.Spend? ==> Lookup(tr, outs, rpc, input) == Canonical(IdOf(tr, input.prevHash), w, rpc, input)
    ensures input.Coinbase? ==> Lookup(tr, outs, rpc, input) == Resolved(None, None, None)
    ensures input.Spend? ==>
              (StoredHasAddress(tr, outs, input.prevHash, input.prevVout) <==>
               input.prevHash in tr && 0 <= input.prevVout < |w(input.prevHash).vout|
               && w(input.prevHash).vout[input.prevVout].address.Some?)
  {
    if input.Spend? {
      StoredIsOutput(tr, w, outs, input.prevHash, input.prevVout);
    }
  }

  // ---------------------------------------------------------------- week sums

  lemma {:induction false} Mondays(day: int, i: int)
    requires 0 <= i <= 6
    ensures WeekOf(WeekOf(day) + i) == WeekOf(day)
    ensures WeekOf(day) <= day <= WeekOf(day) + 6
  {
  }

  /** A weekly row is the sum of its seven daily rows, present or not. */
  lemma {:induction false} AtWeekly(r: Rollups, k: RollupKey)
    ensures k.WeekActivity? && WeekOf(k.week) == k.week ==>
              At(Weekly(r), k) == ZERO.(txs := WeekSum(r, k.week, k.address))
    ensures !(k.WeekActivity? && WeekOf(k.week) == k.week) ==> k !in Weekly(r)
  {
    if k in Weekly(r) {
      var d :| d in r && d.DayActivity? && k == WeekActivity(WeekOf(d.day), d.address);
      Mondays(d.day, 0);
    } else if k.WeekActivity? && WeekOf(k.week) == k.week {
      NoDayInWeek(r, k, 0);
      NoDayInWeek(r, k, 1);
      NoDayInWeek(r, k, 2);
      NoDayInWeek(r, k, 3);
      NoDayInWeek(r, k, 4);
      NoDayInWeek(r, k, 5);
      NoDayInWeek(r, k, 6);
    }
  }

  lemma {:induction false} NoDayInWeek(r: Rollups, k: RollupKey, i: int)
    requires k !in Weekly(r) && k.WeekActivity? && WeekOf(k.week) == k.week && 0 <= i <= 6
    ensures DayActivity(k.week + i, k.address) !in r
  {
    Mondays(k.week, i);
    var d := DayActivity(k.week + i, k.address);
    if d in r {
      InWeekly(r, k);
    }
  }

  lemma {:induction false} WeekSumMerge(a: Rollups, b: Rollups, week: int, x: Address)
    ensures WeekSum(Merge(a, b), week, x) == WeekSum(a, week, x) + WeekSum(b, week, x)
  {
    forall i { AtMerge(a, b, DayActivity(week + i, x)); }
    AtMerge(a, b, DayActivity(week, x));
    AtMerge(a, b, DayActivity(week + 1, x));
    AtMerge(a, b, DayActivity(week + 2, x));
    AtMerge(a, b, DayActivity(week + 3, x));
    AtMerge(a, b, DayActivity(week + 4, x));
    AtMerge(a, b, DayActivity(week + 5, x));
    AtMerge(a, b, DayActivity(week + 6, x));
  }

  lemma {:induction false} InWeekly(r: Rollups, k: RollupKey)
    ensures k in Weekly(r) <==> exists d :: d in r && d.DayActivity? && k == WeekActivity(WeekOf(d.day), d.address)
  {
  }

  lemma {:induction false} WeeklyMergeAt(a: Rollups, b: Rollups, k: RollupKey)
    ensures k in Weekly(Merge(a, b)) <==> k in Weekly(a) || k in Weekly(b)
    ensures At(Weekly(Merge(a, b)), k) == Plus(At(Weekly(a), k), At(Weekly(b), k))
  {
    var m := Merge(a, b);
    InWeekly(a, k);
    InWeekly(b, k);
    InWeekly(m, k);
    AtWeekly(a, k);
    AtWeekly(b, k);
    AtWeekly(m, k);
    if k.WeekActivity? {
      WeekSumMerge(a, b, k.week, k.address);
    }
    forall d ensures d in m <==> d in a || d in b { AtMerge(a, b, d); }
  }

  /** Regrouping days into weeks commutes with adding. */
  lemma {:induction false} WeeklyMerge(a: Rollups, b: Rollups)
    ensures Weekly(Merge(a, b)) == Merge(Weekly(a), Weekly(b))
  {
    var left, right := Weekly(Merge(a, b)), Merge(Weekly(a), Weekly(b));
    assert forall k :: (k in left <==> k in right) && At(left, k) == At(right, k) by {
      forall k ensures (k in left <==> k in right) && At(left, k) == At(right, k) {
        WeeklyMergeAt(a, b, k);
        AtMerge(Weekly(a), Weekly(b), k);
      }
    }
    SameRollups(left, right);
  }

  // -------------------------------------------------------------- batch deltas

  /** Everything phases 4 to 7d add. */
  function BatchDelta(tr: TxTable, outs: OutTable, rpc: Rpc, blocks: seq<Block>, txs: seq<Mined>): Rollups {
    var walk := Walk(tr, outs, rpc, txs);
    var known := Merge(KnownAddresses(BatchOutAddresses(txs)), KnownAddresses(BatchRpcAddresses(tr, outs, rpc, txs)));
    Merge(known, Merge(Merge(walk, Weekly(walk)), ChainStats(blocks)))
  }

  /** Every address of a stored output has its row. */
  predicate AddressesKnown(outs: OutTable, r: Rollups) {
    forall o :: o in outs && outs[o].address.Some? ==> AddressTotal(outs[o].address.value) in r
  }

  /** Rows of the three tables the walk itself fills. */
  ghost predicate IsWalk(walk: Rollups) {
    forall k :: k in walk ==> k.AddressTotal? || k.DayActivity? || k.AddressDay?
  }

  lemma {:induction false} WeeklyOfActivity(walk: Rollups)
    ensures Weekly(Activity(walk)) == Weekly(walk)
  {
    forall k
      ensures k in Weekly(Activity(walk)) <==> k in Weekly(walk)
      ensures At(Weekly(Activity(walk)), k) == At(Weekly(walk), k)
    {
      InWeekly(walk, k);
      InWeekly(Activity(walk), k);
      AtWeekly(walk, k);
      AtWeekly(Activity(walk), k);
    }
    SameRollups(Weekly(Activity(walk)), Weekly(walk));
  }

  lemma {:induction false} AtUpdateExisting(r: Rollups, staged: Rollups, k: RollupKey)
    requires k in staged ==> k in r
    ensures At(UpdateExisting(r, staged), k) == Plus(At(r, k), At(staged, k))
    ensures k in UpdateExisting(r, staged) <==> k in r
  {
  }

  lemma {:induction false} WalkTables(walk: Rollups, k: RollupKey)
    requires IsWalk(walk)
    ensures At(walk, k) == Plus(Plus(At(Activity(walk), k), At(Totals(walk), k)), At(Balances(walk), k))
    ensures k in walk <==> k in Activity(walk) || k in Totals(walk) || k in Balances(walk)
    ensures k in Totals(walk) ==> k.AddressTotal?
  {
  }

  lemma {:induction false} AddTables(active: Rollups, b: Rollups, c: Rollups, k: RollupKey)
    requires k in b ==> k in active
    ensures k in Merge(UpdateExisting(active, b), c) <==> k in active || k in c
    ensures At(Merge(UpdateExisting(active, b), c), k) == Plus(Plus(At(active, k), At(b, k)), At(c, k))
  {
    AtUpdateExisting(active, b, k);
    AtMerge(UpdateExisting(active, b), c, k);
  }

  lemma {:induction false} Regroup(r: Tally, a: Tally, b: Tally, c: Tally, w: Tally)
    ensures Plus(Plus(Plus(Plus(r, a), w), b), c) == Plus(r, Plus(Plus(Plus(a, b), c), w))
  {
  }

  lemma {:induction false} AddWalkAt(r: Rollups, walk: Rollups, active: Rollups, week: Rollups, k: RollupKey)
    requires IsWalk(walk) && (k in walk && k.AddressTotal? ==> k in r)
    requires active == Merge(Merge(r, Activity(walk)), week)
    ensures k in Merge(UpdateExisting(active, Totals(walk)), Balances(walk)) <==> k in Merge(r, Merge(walk, week))
    ensures At(Merge(UpdateExisting(active, Totals(walk)), Balances(walk)), k) == At(Merge(r, Merge(walk, week)), k)
  {
    var a, b, c := Activity(walk), Totals(walk), Balances(walk);
    WalkTables(walk, k);
    AtMergedTwice(r, a, week, k);
    AddTables(active, b, c, k);
    AtMergedTwice(r, walk, week, k);
    Regroup(At(r, k), At(a, k), At(b, k), At(c, k), At(week, k));
  }

  /** With every row present, the UPDATE of the address columns adds like an upsert. */
  lemma {:induction false} AddWalkIsMerge(r: Rollups, walk: Rollups)
    requires IsWalk(walk) && forall k :: k in walk && k.AddressTotal? ==> k in r
    ensures AddWalk(r, walk) == Merge(r, Merge(walk, Weekly(walk)))
  {
    WeeklyOfActivity(walk);
    var active := Merge(Merge(r, Activity(walk)), Weekly(walk));
    var left := Merge(UpdateExisting(active, Totals(walk)), Balances(walk));
    assert left == AddWalk(r, walk);
    SameAddWalk(r, walk, active, Weekly(walk), left);
  }

  lemma {:induction false} SameAddWalk(r: Rollups, walk: Rollups, active: Rollups, week: Rollups, left: Rollups)
    requires IsWalk(walk) && forall k :: k in walk && k.AddressTotal? ==> k in r
    requires active == Merge(Merge(r, Activity(walk)), week)
    requires left == Merge(UpdateExisting(active, Totals(walk)), Balances(walk))
    ensures left == Merge(r, Merge(walk, week))
  {
    var right := Merge(r, Merge(walk, week));
    assert forall k :: (k in left <==> k in right) && At(left, k) == At(right, k) by {
      forall k ensures (k in left <==> k in right) && At(left, k) == At(right, k) {
        AddWalkAt(r, walk, active, week, k);
      }
    }
    SameRollups(left, right);
  }

  lemma {:induction false} WalkIsWalk(tr: TxTable, outs: OutTable, rpc: Rpc, txs: seq<Mined>)
    ensures IsWalk(Walk(tr, outs, rpc, txs))
  {
    if txs != [] {
      var n := |txs| - 1;
      var before, one := Walk(tr, outs, rpc, txs[..n]), WalkDelta(txs[n], Resolve(tr, outs, rpc, txs[n].tx));
      WalkIsWalk(tr, outs, rpc, txs[..n]);
      forall k | k in Merge(before, one) ensures k.AddressTotal? || k.DayActivity? || k.AddressDay? {
        AtMerge(before, one, k);
        WalkDeltaKeys(txs[n], Resolve(tr, outs, rpc, txs[n].tx), k);
      }
    }
  }

  lemma {:induction false} KnownRows(addresses: set<Address>, k: RollupKey)
    ensures k in KnownAddresses(addresses) <==> k.AddressTotal? && k.address in addresses
    ensures At(KnownAddresses(addresses), k) == ZERO
  {
  }

  lemma {:induction false} KnownUnion(a: set<Address>, b: set<Address>)
    ensures KnownAddresses(a + b) == Merge(KnownAddresses(a), KnownAddresses(b))
  {
    forall k
      ensures k in KnownAddresses(a + b) <==> k in Merge(KnownAddresses(a), KnownAddresses(b))
      ensures At(KnownAddresses(a + b), k) == At(Merge(KnownAddresses(a), KnownAddresses(b)), k)
    {
      KnownRows(a, k);
      KnownRows(b, k);
      KnownRows(a + b, k);
      AtMerge(KnownAddresses(a), KnownAddresses(b), k);
    }
    SameRollups(KnownAddresses(a + b), Merge(KnownAddresses(a), KnownAddresses(b)));
  }

  // --------------------------------------------------- addresses a walk touches

  lemma {:induction false} OutAddressesSplit(vout: seq<TxOut>, a: Address)
    requires vout != []
    ensures a in OutAddresses(vout) <==>
            (a in OutAddresses(vout[..|vout| - 1]) || vout[|vout| - 1].address == Some(a))
  {
    var before := vout[..|vout| - 1];
    if v :| 0 <= v < |vout| && vout[v].address == Some(a) {
      assert v < |before| ==> before[v].address == Some(a);
    }
    if v :| 0 <= v < |before| && before[v].address == Some(a) {
      assert vout[v].address == Some(a);
    }
  }

  lemma {:induction false} InAddressesSplit(res: seq<Resolved>, a: Address)
    requires res != []
    ensures a in InAddresses(res) <==>
            (a in InAddresses(res[..|res| - 1]) || res[|res| - 1].address == Some(a))
  {
    var before := res[..|res| - 1];
    if v :| 0 <= v < |res| && res[v].address == Some(a) {
      assert v < |before| ==> before[v].address == Some(a);
    }
    if v :| 0 <= v < |before| && before[v].address == Some(a) {
      assert res[v].address == Some(a);
    }
  }

  /** Rows that a flow on one day writes. */
  predicate IsFlowKey(k: RollupKey, day: int) {
    k.AddressTotal? || (k.AddressDay? && k.day == day)
  }

  lemma {:induction false} FlowDeltaKeys(a: Address, day: int, flow: Tally, k: RollupKey)
    ensures k in FlowDelta(a, day, flow) <==> IsFlowKey(k, day) && k.address == a
  {
  }

  lemma {:induction false} OutsDeltaKeys(vout: seq<TxOut>, day: int, k: RollupKey)
    ensures k in OutsDelta(vout, day) <==> IsFlowKey(k, day) && k.address in OutAddresses(vout)
  {
    if vout != [] {
      var n := |vout| - 1;
      var before, one := OutsDelta(vout[..n], day), OutDelta(vout[n], day);
      OutsDeltaKeys(vout[..n], day, k);
      assert OutsDelta(vout, day) == Merge(before, one);
      AtMerge(before, one, k);
      if IsFlowKey(k, day) { OutAddressesSplit(vout, k.address); }
      if vout[n].address.Some? { FlowDeltaKeys(vout[n].address.value, day, ZERO.(received := vout[n].value), k); }
    }
  }

  lemma {:induction false} InsDeltaKeys(res: seq<Resolved>, day: int, k: RollupKey)
    ensures k in InsDelta(res, day) <==> IsFlowKey(k, day) && k.address in InAddresses(res)
  {
    if res != [] {
      var n := |res| - 1;
      var before, one := InsDelta(res[..n], day), InDelta(res[n], day);
      InsDeltaKeys(res[..n], day, k);
      assert InsDelta(res, day) == Merge(before, one);
      AtMerge(before, one, k);
      if IsFlowKey(k, day) { InAddressesSplit(res, k.address); }
      if res[n].address.Some? { FlowDeltaKeys(res[n].address.value, day, ZERO.(sent := Amount(res[n])), k); }
    }
  }

  lemma {:induction false} TouchDeltaKeys(addresses: set<Address>, day: int, k: RollupKey)
    ensures k in TouchDelta(addresses, day) <==>
            (k.AddressTotal? || (k.DayActivity? && k.day == day)) && k.address in addresses
  {
  }

  lemma {:induction false} WalkDeltaParts(outs: Rollups, ins: Rollups, touch: Rollups, a: set<Address>, b: set<Address>,
                                          day: int, k: RollupKey)
    requires k in outs <==> IsFlowKey(k, day) && k.address in a
    requires k in ins <==> IsFlowKey(k, day) && k.address in b
    requires k in touch <==> (k.AddressTotal? || (k.DayActivity? && k.day == day)) && k.address in a + b
    ensures k in Merge(Merge(outs, ins), touch) <==>
            (k.AddressTotal? || ((k.AddressDay? || k.DayActivity?) && k.day == day)) && k.address in a + b
  {
    AtMergedTwice(outs, ins, touch, k);
  }

  /** The rows one transaction's walk writes: totals and the day's rows of the touched. */
  lemma {:induction false} WalkDeltaKeys(m: Mined, res: seq<Resolved>, k: RollupKey)
    ensures k in WalkDelta(m, res) <==>
            (k.AddressTotal? || ((k.AddressDay? || k.DayActivity?) && k.day == DayOf(m.time)))
            && k.address in Touched(m.tx, res)
  {
    var day := DayOf(m.time);
    var outs, ins, touch := OutsDelta(m.tx.vout, day), InsDelta(res, day), TouchDelta(Touched(m.tx, res), day);
    WalkDeltaParts(outs, ins, touch, OutAddresses(m.tx.vout), InAddresses(res), day, k) by {
      OutsDeltaKeys(m.tx.vout, day, k);
      InsDeltaKeys(res, day, k);
      TouchDeltaKeys(Touched(m.tx, res), day, k);
    }
  }

  /** An input's address is a stored output's, or one the RPC answered. */
  lemma {:induction false} ResolvedKnown(tr: TxTable, outs: OutTable, rpc: Rpc, vin: seq<TxIn>, r: Rollups, a: Address)
    requires AddressesKnown(outs, r)
    requires forall x :: x in RpcAddresses(tr, outs, rpc, vin) ==> AddressTotal(x) in r
    requires exists k :: 0 <= k < |vin| && Lookup(tr, outs, rpc, vin[k]).address == Some(a)
    ensures AddressTotal(a) in r
  {
    var k :| 0 <= k < |vin| && Lookup(tr, outs, rpc, vin[k]).address == Some(a);
    if StoredHasAddress(tr, outs, vin[k].prevHash, vin[k].prevVout) {
      var o := Outpoint(tr[vin[k].prevHash].id, vin[k].prevVout);
      assert o in outs && outs[o].address == Some(a);
    } else {
      assert a in RpcAddresses(tr, outs, rpc, vin);
    }
  }

  lemma {:induction false} WalkedKnown(tr: TxTable, outs: OutTable, rpc: Rpc, m: Mined, r: Rollups, k: RollupKey)
    requires AddressesKnown(outs, r) && k.AddressTotal? && k in WalkDelta(m, Resolve(tr, outs, rpc, m.tx))
    requires forall a :: a in OutAddresses(m.tx.vout) ==> AddressTotal(a) in r
    requires forall a :: a in RpcAddresses(tr, outs, rpc, m.tx.vin) ==> AddressTotal(a) in r
    ensures k in r
  {
    var res := Resolve(tr, outs, rpc, m.tx);
    WalkDeltaKeys(m, res, k);
    if k.address in InAddresses(res) {
      var v :| 0 <= v < |res| && res[v].address == Some(k.address);
      assert res[v] == Lookup(tr, outs, rpc, m.tx.vin[v]);
      ResolvedKnown(tr, outs, rpc, m.tx.vin, r, k.address);
    }
  }

  /** Every address a batch touches has its row by phase 7c. */
  lemma {:induction false} WalkTotalsKnown(tr: TxTable, outs: OutTable, rpc: Rpc, txs: seq<Mined>, r: Rollups,
                                           k: RollupKey)
    requires AddressesKnown(outs, r) && k.AddressTotal? && k in Walk(tr, outs, rpc, txs)
    requires forall i, a :: 0 <= i < |txs| && a in OutAddresses(txs[i].tx.vout) ==> AddressTotal(a) in r
    requires forall i, a :: 0 <= i < |txs| && a in RpcAddresses(tr, outs, rpc, txs[i].tx.vin) ==> AddressTotal(a) in r
    ensures k in r
  {
    var n := |txs| - 1;
    var m := txs[n];
    AtMerge(Walk(tr, outs, rpc, txs[..n]), WalkDelta(m, Resolve(tr, outs, rpc, m.tx)), k);
    if k in Walk(tr, outs, rpc, txs[..n]) {
      WalkTotalsKnown(tr, outs, rpc, txs[..n], r, k);
    } else {
      WalkedKnown(tr, outs, rpc, m, r, k);
    }
  }

  /** All of a batch's rollup writes amount to merging one delta. */
  lemma {:induction false} MinedRollupsAreDelta(r: Rollups, tr: TxTable, outs: OutTable, rows: OutTable, rpc: Rpc,
                                                blocks: seq<Block>, txs: seq<Mined>)
    requires AllKnown(tr, txs)
    requires rows == StagedOutputs(tr, txs)
    requires AddressesKnown(outs, r)
    ensures MinedRollups(r, tr, rows + outs, rpc, blocks, txs) ==
            Merge(r, BatchDelta(tr, rows + outs, rpc, blocks, txs))
  {
    var all := rows + outs;
    var walk := Walk(tr, all, rpc, txs);
    var a, b := KnownAddresses(BatchOutAddresses(txs)), KnownAddresses(BatchRpcAddresses(tr, all, rpc, txs));
    var known := Merge(Merge(r, a), b);
    assert AddressesKnown(all, known) by {
      forall o | o in all && all[o].address.Some? ensures AddressTotal(all[o].address.value) in known {
        if o !in outs {
          StagedAddresses(tr, txs, o);
        }
      }
    }
    forall k | k in walk && k.AddressTotal? ensures k in known {
      forall i, x | 0 <= i < |txs| && x in OutAddresses(txs[i].tx.vout) ensures AddressTotal(x) in known {
        KnownRows(BatchOutAddresses(txs), AddressTotal(x));
      }
      forall i, x | 0 <= i < |txs| && x in RpcAddresses(tr, all, rpc, txs[i].tx.vin) ensures AddressTotal(x) in known {
        KnownRows(BatchRpcAddresses(tr, all, rpc, txs), AddressTotal(x));
      }
      WalkTotalsKnown(tr, all, rpc, txs, known, k);
    }
    WalkIsWalk(tr, all, rpc, txs);
    AddWalkIsMerge(known, walk);
    var flow := Merge(walk, Weekly(walk));
    MergeAssociative(r, a, b);
    MergeAssociative(known, flow, ChainStats(blocks));
    MergeAssociative(r, Merge(a, b), Merge(flow, ChainStats(blocks)));
  }

  lemma {:induction false} StagedAddresses(tr: TxTable, txs: seq<Mined>, o: Outpoint)
    requires AllKnown(tr, txs)
    requires o in StagedOutputs(tr, txs)
    ensures StagedOutputs(tr, txs)[o].address.Some? ==>
              StagedOutputs(tr, txs)[o].address.value in BatchOutAddresses(txs)
  {
    var n := |txs| - 1;
    var last := txs[n].tx;
    if o in TxOutputs(tr[last.txid].id, last.vout) {
      if last.vout[o.vout].address.Some? {
        assert last.vout[o.vout].address.value in OutAddresses(txs[n].tx.vout);
      }
    } else {
      StagedAddresses(tr, txs[..n], o);
      if StagedOutputs(tr, txs)[o].address.Some? {
        var a := StagedOutputs(tr, txs)[o].address.value;
        var i :| 0 <= i < n && a in OutAddresses(txs[..n][i].tx.vout);
        assert a in OutAddresses(txs[i].tx.vout);
      }
    }
  }
}
