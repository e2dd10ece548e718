/** `write_batch` and `index_pending_transaction` as they run: loops filling maps,
 * tables updated phase by phase. Both are proved equal to the functions of Ledger,
 * `write_batch` for a cache of any capacity and contents that agree with the index. */
module BlockWriter {
  import opened Prelude
  import opened Rollups
  import opened Ledger
  import opened LedgerFacts
  import opened LedgerInvariants
  import opened LedgerDeltas
  import opened LedgerBatches
  import opened LedgerMine
  import opened UtxoCaching
  import opened Storage
  import opened BatchStaging
  import opened InputResolution

  // -------------------------------------------------------- phase 7: input rows

  ghost predicate TxReadsOff(tr: TxTable, view: OutTable, rpc: Rpc, f: Found6, tx: Tx) {
    forall k :: 0 <= k < |tx.vin| ==> ReadOff(f, tx.vin[k]) == Lookup(tr, view, rpc, tx.vin[k])
  }

  lemma {:induction false} TxInputsStep(id: int, vin: seq<TxIn>, res: seq<Resolved>, rows0: InTable, rows: InTable,
                                        j: int)
    requires 0 <= j < |vin| == |res| && rows == rows0 + TxInputs(id, vin[..j], res[..j])
    ensures rows[Slot(id, j) := InRow(vin[j], res[j].prevId, res[j].address, res[j].amount)] ==
            rows0 + TxInputs(id, vin[..j + 1], res[..j + 1])
  {
    assert TxInputs(id, vin[..j + 1], res[..j + 1]) ==
           TxInputs(id, vin[..j], res[..j])[Slot(id, j) := InRow(vin[j], res[j].prevId, res[j].address, res[j].amount)];
  }

  method StageTxInputs(tx: Tx, id: int, f: Found6, rows0: InTable, ghost tr: TxTable, ghost view: OutTable,
                       ghost rpc: Rpc)
    returns (rows: InTable)
    requires TxReadsOff(tr, view, rpc, f, tx)
    ensures rows == rows0 + TxInputs(id, tx.vin, Resolve(tr, view, rpc, tx))
  {
    rows := rows0;
    ghost var res := Resolve(tr, view, rpc, tx);
    for k := 0 to |tx.vin|
      invariant rows == rows0 + TxInputs(id, tx.vin[..k], res[..k])
    {
      var r := ReadOff(f, tx.vin[k]);
      TxInputsStep(id, tx.vin, res, rows0, rows, k);
      rows := rows[Slot(id, k) := InRow(tx.vin[k], r.prevId, r.address, r.amount)];
    }
    assert tx.vin[..|tx.vin|] == tx.vin && res[..|res|] == res;
  }

  method StageInputs(txs: seq<Mined>, txMap: map<Hash, int>, f: Found6, ghost tr: TxTable, ghost view: OutTable,
                     ghost rpc: Rpc)
    returns (rows: InTable)
    requires AllKnown(tr, txs) && txMap == IdMap(tr, txs) && ReadsOff(tr, view, rpc, f, txs)
    ensures rows == StagedInputs(tr, view, rpc, txs)
  {
    rows := map[];
    for i := 0 to |txs|
      invariant AllKnown(tr, txs[..i]) && rows == StagedInputs(tr, view, rpc, txs[..i])
    {
      ghost var longer := txs[..i + 1];
      assert longer[..|longer| - 1] == txs[..i] && txs[i] in txs;
      rows := StageTxInputs(txs[i].tx, txMap[txs[i].tx.txid], f, rows, tr, view, rpc);
    }
    assert txs[..|txs|] == txs;
  }

  // -------------------------------------------------------- phase 7b: spenders

  method StageTxMarks(tx: Tx, id: int, f: Found6, marks0: seq<Mark>, ghost tr: TxTable, ghost view: OutTable,
                      ghost rpc: Rpc)
    returns (marks: seq<Mark>)
    requires TxReadsOff(tr, view, rpc, f, tx)
    ensures marks == marks0 + MarksUpTo(tr, id, tx.vin)
  {
    marks := marks0;
    for k := 0 to |tx.vin|
      invariant marks == marks0 + MarksUpTo(tr, id, tx.vin[..k])
    {
      assert tx.vin[..k + 1][..k] == tx.vin[..k];
      assert ReadOff(f, tx.vin[k]) == Lookup(tr, view, rpc, tx.vin[k]);
      if tx.vin[k].Spend? && tx.vin[k].prevHash in f.prevIds {
        marks := marks + [Mark(Outpoint(f.prevIds[tx.vin[k].prevHash], tx.vin[k].prevVout), Slot(id, k))];
      }
    }
    assert tx.vin[..|tx.vin|] == tx.vin;
  }

  method StageMarks(txs: seq<Mined>, txMap: map<Hash, int>, f: Found6, ghost tr: TxTable, ghost view: OutTable,
                    ghost rpc: Rpc)
    returns (marks: seq<Mark>)
    requires AllKnown(tr, txs) && txMap == IdMap(tr, txs) && ReadsOff(tr, view, rpc, f, txs)
    ensures marks == Marks(tr, txs)
  {
    marks := [];
    for i := 0 to |txs|
      invariant AllKnown(tr, txs[..i]) && marks == Marks(tr, txs[..i])
    {
      ghost var longer := txs[..i + 1];
      assert longer[..|longer| - 1] == txs[..i] && txs[i] in txs;
      marks := StageTxMarks(txs[i].tx, txMap[txs[i].tx.txid], f, marks, tr, view, rpc);
    }
    assert txs[..|txs|] == txs;
  }

  // ---------------------------------------------------- phase 7c: address rollups

  /** One appearance of an address: its totals and its day both move by `flow`. */
  method Credit(acc0: Rollups, a: Address, day: int, flow: Tally) returns (acc: Rollups)
    ensures acc == Merge(acc0, FlowDelta(a, day, flow))
  {
    acc := AddTo(AddTo(acc0, AddressTotal(a), flow), AddressDay(a, day), flow);
    AddFlow(acc0, a, day, flow);
  }

  lemma {:induction false} OutsDeltaStep(acc0: Rollups, vout: seq<TxOut>, day: int, j: int)
    requires 0 <= j < |vout|
    ensures Merge(Merge(acc0, OutsDelta(vout[..j], day)), OutDelta(vout[j], day)) ==
            Merge(acc0, OutsDelta(vout[..j + 1], day))
  {
    assert vout[..j + 1][..j] == vout[..j];
    MergeAssociative(acc0, OutsDelta(vout[..j], day), OutDelta(vout[j], day));
  }

  method WalkOuts(tx: Tx, day: int, am: map<Vout, Address>, acc0: Rollups) returns (acc: Rollups, touched: set<Address>)
    requires forall v :: 0 <= v < |tx.vout| ==>
               tx.vout[v].address == if Vout(v, tx.txid) in am then Some(am[Vout(v, tx.txid)]) else None
    ensures acc == Merge(acc0, OutsDelta(tx.vout, day)) && touched == OutAddresses(tx.vout)
  {
    acc, touched := acc0, {};
    MergeEmpty(acc0);
    for v := 0 to |tx.vout|
      invariant acc == Merge(acc0, OutsDelta(tx.vout[..v], day)) && touched == OutAddresses(tx.vout[..v])
    {
      OutAddressesStep(tx.vout, v);
      OutsDeltaStep(acc0, tx.vout, day, v);
      MergeEmpty(acc);
      if Vout(v, tx.txid) in am {
        var a := am[Vout(v, tx.txid)];
        touched := touched + {a};
        acc := Credit(acc, a, day, ZERO.(received := tx.vout[v].value));
      }
    }
    assert tx.vout[..|tx.vout|] == tx.vout;
  }

  lemma {:induction false} InAddressesStep(res: seq<Resolved>, j: int)
    requires 0 <= j < |res|
    ensures InAddresses(res[..j + 1]) == InAddresses(res[..j])
            + if res[j].address.Some? then {res[j].address.value} else {}
  {
    var longer := res[..j + 1];
    assert longer[..|longer| - 1] == res[..j];
    forall a ensures a in InAddresses(longer) <==> a in InAddresses(res[..j]) || res[j].address == Some(a) {
      InAddressesSplit(longer, a);
    }
  }

  lemma {:induction false} InsDeltaStep(acc0: Rollups, res: seq<Resolved>, day: int, j: int)
    requires 0 <= j < |res|
    ensures Merge(Merge(acc0, InsDelta(res[..j], day)), InDelta(res[j], day)) ==
            Merge(acc0, InsDelta(res[..j + 1], day))
  {
    assert res[..j + 1][..j] == res[..j];
    MergeAssociative(acc0, InsDelta(res[..j], day), InDelta(res[j], day));
  }

  method WalkIns(tx: Tx, day: int, f: Found6, acc0: Rollups, touched0: set<Address>, ghost res: seq<Resolved>)
    returns (acc: Rollups, touched: set<Address>)
    requires |res| == |tx.vin| && forall k :: 0 <= k < |res| ==> ReadOff(f, tx.vin[k]) == res[k]
    ensures acc == Merge(acc0, InsDelta(res, day)) && touched == touched0 + InAddresses(res)
  {
    acc, touched := acc0, touched0;
    MergeEmpty(acc0);
    for k := 0 to |tx.vin|
      invariant acc == Merge(acc0, InsDelta(res[..k], day)) && touched == touched0 + InAddresses(res[..k])
    {
      InAddressesStep(res, k);
      InsDeltaStep(acc0, res, day, k);
      MergeEmpty(acc);
      var r := ReadOff(f, tx.vin[k]);
      if r.address.Some? {
        touched := touched + {r.address.value};
        acc := Credit(acc, r.address.value, day, ZERO.(sent := Amount(r)));
      }
    }
    assert res[..|res|] == res;
  }

  function TouchOne(day: int, a: Address): Rollups {
    map[DayActivity(day, a) := ONE_TX, AddressTotal(a) := ONE_TX]
  }

  method Touch(acc0: Rollups, day: int, a: Address) returns (acc: Rollups)
    ensures acc == Merge(acc0, TouchOne(day, a))
  {
    acc := AddTo(AddTo(acc0, DayActivity(day, a), ONE_TX), AddressTotal(a), ONE_TX);
    AddTwo(acc0, DayActivity(day, a), ONE_TX, AddressTotal(a), ONE_TX);
  }

  lemma {:induction false} AddTwo(acc: Rollups, j: RollupKey, x: Tally, k: RollupKey, y: Tally)
    requires j != k
    ensures AddTo(AddTo(acc, j, x), k, y) == Merge(acc, map[j := x, k := y])
  {
    var p: Rollups, q: Rollups := map[j := x], map[k := y];
    AddToIsMerge(acc, j, x);
    AddToIsMerge(Merge(acc, p), k, y);
    MergeAssociative(acc, p, q);
    SingleRows(j, x, k, y);
  }

  lemma {:induction false} SingleRows(j: RollupKey, x: Tally, k: RollupKey, y: Tally)
    requires j != k
    ensures Merge(map[j := x], map[k := y]) == map[j := x, k := y]
  {
    PlusLaws(x, ZERO, ZERO);
    PlusLaws(y, ZERO, ZERO);
  }

  lemma {:induction false} TouchGrowsAt(day: int, done: set<Address>, a: Address, k: RollupKey, before: Rollups,
                                        after: Rollups, one: Rollups)
    requires a !in done && before == TouchDelta(done, day) && after == TouchDelta(done + {a}, day)
             && one == TouchOne(day, a)
    ensures k in after <==> k in before || k in one
    ensures At(after, k) == Plus(At(before, k), At(one, k))
  {
    TouchDeltaKeys(done, day, k);
    TouchDeltaKeys(done + {a}, day, k);
    assert k in one <==> k == DayActivity(day, a) || k == AddressTotal(a);
  }

  lemma {:induction false} TouchGrows(day: int, done: set<Address>, a: Address)
    requires a !in done
    ensures TouchDelta(done + {a}, day) == Merge(TouchDelta(done, day), TouchOne(day, a))
  {
    var before, after, one := TouchDelta(done, day), TouchDelta(done + {a}, day), TouchOne(day, a);
    var merged := Merge(before, one);
    forall k ensures (k in after <==> k in merged) && At(after, k) == At(merged, k) {
      TouchGrowsAt(day, done, a, k, before, after, one);
      AtMerge(before, one, k);
    }
    SameRollups(after, merged);
  }

  lemma {:induction false} TouchStep(acc0: Rollups, day: int, done: set<Address>, a: Address)
    requires a !in done
    ensures Merge(Merge(acc0, TouchDelta(done, day)), TouchOne(day, a)) == Merge(acc0, TouchDelta(done + {a}, day))
  {
    MergeAssociative(acc0, TouchDelta(done, day), TouchOne(day, a));
    TouchGrows(day, done, a);
  }

  lemma {:induction false} AddressTxsStep(rows0: map<AddrTx, int>, id: int, height: int, done: set<Address>, a: Address)
    ensures (rows0 + TxAddressTxs(id, height, done))[AddrTx(a, id) := height] ==
            rows0 + TxAddressTxs(id, height, done + {a})
  {
  }

  lemma {:induction false} NothingTouched(acc: Rollups, day: int)
    ensures Merge(acc, TouchDelta({}, day)) == acc
  {
    assert TouchDelta({}, day) == map[];
    MergeEmpty(acc);
  }

  lemma {:induction false} NoAddressTxs(rows: map<AddrTx, int>, id: int, height: int)
    ensures rows + TxAddressTxs(id, height, {}) == rows
  {
  }

  method WalkTouched(m: Mined, id: int, touched: set<Address>, acc0: Rollups, addressTxs0: map<AddrTx, int>)
    returns (acc: Rollups, addressTxs: map<AddrTx, int>)
    ensures acc == Merge(acc0, TouchDelta(touched, DayOf(m.time)))
    ensures addressTxs == addressTxs0 + TxAddressTxs(id, m.height, touched)
  {
    acc, addressTxs := acc0, addressTxs0;
    var todo, day := touched, DayOf(m.time);
    ghost var done: set<Address> := {};
    NothingTouched(acc0, day);
    NoAddressTxs(addressTxs0, id, m.height);
    while todo != {}
      invariant done + todo == touched && done !! todo
      invariant acc == Merge(acc0, TouchDelta(done, day))
      invariant addressTxs == addressTxs0 + TxAddressTxs(id, m.height, done)
      decreases |todo|
    {
      var a :| a in todo;
      todo := todo - {a};
      TouchStep(acc0, day, done, a);
      acc := Touch(acc, day, a);
      AddressTxsStep(addressTxs0, id, m.height, done, a);
      addressTxs := addressTxs[AddrTx(a, id) := m.height];
      done := done + {a};
    }
    assert done == touched;
  }

  /** Phase 7c for one transaction. */
  method WalkTx(m: Mined, id: int, am: map<Vout, Address>, f: Found6, acc0: Rollups, addressTxs0: map<AddrTx, int>,
                ghost res: seq<Resolved>)
    returns (acc: Rollups, addressTxs: map<AddrTx, int>)
    requires forall v :: 0 <= v < |m.tx.vout| ==>
               m.tx.vout[v].address == if Vout(v, m.tx.txid) in am then Some(am[Vout(v, m.tx.txid)]) else None
    requires |res| == |m.tx.vin| && forall k :: 0 <= k < |res| ==> ReadOff(f, m.tx.vin[k]) == res[k]
    ensures acc == Merge(acc0, WalkDelta(m, res))
    ensures addressTxs == addressTxs0 + TxAddressTxs(id, m.height, Touched(m.tx, res))
  {
    var day := DayOf(m.time);
    var touched;
    acc, touched := WalkOuts(m.tx, day, am, acc0);
    acc, touched := WalkIns(m.tx, day, f, acc, touched, res);
    acc, addressTxs := WalkTouched(m, id, touched, acc, addressTxs0);
    MergeAssociative(acc0, OutsDelta(m.tx.vout, day), InsDelta(res, day));
    MergeAssociative(acc0, Merge(OutsDelta(m.tx.vout, day), InsDelta(res, day)), TouchDelta(touched, day));
  }

  method WalkBatch(txs: seq<Mined>, txMap: map<Hash, int>, am: map<Vout, Address>, f: Found6, ghost tr: TxTable,
                   ghost view: OutTable, ghost rpc: Rpc)
    returns (acc: Rollups, addressTxs: map<AddrTx, int>)
    requires AllKnown(tr, txs) && txMap == IdMap(tr, txs) && AddressesOf(am, txs) && ReadsOff(tr, view, rpc, f, txs)
    ensures acc == Walk(tr, view, rpc, txs) && addressTxs == StagedAddressTxs(tr, view, rpc, txs)
  {
    acc, addressTxs := map[], map[];
    for i := 0 to |txs|
      invariant AllKnown(tr, txs[..i])
      invariant acc == Walk(tr, view, rpc, txs[..i]) && addressTxs == StagedAddressTxs(tr, view, rpc, txs[..i])
    {
      ghost var longer := txs[..i + 1];
      assert longer[..|longer| - 1] == txs[..i] && txs[i] in txs;
      acc, addressTxs := WalkTx(txs[i], txMap[txs[i].tx.txid], am, f, acc, addressTxs,
                                Resolve(tr, view, rpc, txs[i].tx));
    }
    assert txs[..|txs|] == txs;
  }

  // ------------------------------------------------------ phase 7d: chain rollups

  method CountTx(tx: Tx) returns (bucket: Tally)
    ensures bucket == HourTally(tx)
  {
    bucket := ZERO.(txs := 1);
    if tx.txType > 0 {
      bucket := bucket.(special := 1);
    }
    if CoinJoin(tx) {
      bucket := bucket.(coinjoin := 1);
    }
    if tx.multisig {
      bucket := bucket.(multisig := 1);
    }
    if tx.txType == 0 && !CoinJoin(tx) && !tx.multisig {
      bucket := bucket.(normal := 1);
    }
  }

  method CountHour(acc0: Rollups, tx: Tx, time: int) returns (acc: Rollups)
    ensures acc == Merge(acc0, TxStats(tx, time))
  {
    var counted := CountTx(tx);
    acc := AddTo(AddTo(acc0, HourStats(HourOf(time)), counted), TypeCount(tx.txType, CoinJoin(tx), tx.multisig),
                 ONE_TX);
    AddTwo(acc0, HourStats(HourOf(time)), counted, TypeCount(tx.txType, CoinJoin(tx), tx.multisig), ONE_TX);
  }

  lemma {:induction false} TxsStatsStep(acc0: Rollups, txs: seq<Tx>, time: int, j: int)
    requires 0 <= j < |txs|
    ensures Merge(Merge(acc0, TxsStats(txs[..j], time)), TxStats(txs[j], time)) ==
            Merge(acc0, TxsStats(txs[..j + 1], time))
  {
    assert txs[..j + 1][..j] == txs[..j];
    MergeAssociative(acc0, TxsStats(txs[..j], time), TxStats(txs[j], time));
  }

  method HourlyBlock(b: Block, acc0: Rollups) returns (acc: Rollups)
    ensures acc == Merge(acc0, BlockStats(b))
  {
    var hour, header := HourStats(HourOf(b.time)), ZERO.(blocks := 1, size := b.size);
    AddToIsMerge(acc0, hour, header);
    acc := AddTo(acc0, hour, header);
    ghost var acc1 := acc;
    MergeEmpty(acc1);
    for i := 0 to |b.txs|
      invariant acc == Merge(acc1, TxsStats(b.txs[..i], b.time))
    {
      TxsStatsStep(acc1, b.txs, b.time, i);
      acc := CountHour(acc, b.txs[i], b.time);
    }
    assert b.txs[..|b.txs|] == b.txs;
    MergeAssociative(acc0, map[hour := header], TxsStats(b.txs, b.time));
  }

  method HourlyBatch(blocks: seq<Block>) returns (acc: Rollups)
    ensures acc == ChainStats(blocks)
  {
    acc := map[];
    for i := 0 to |blocks|
      invariant acc == ChainStats(blocks[..i])
    {
      assert blocks[..i + 1][..i] == blocks[..i];
      acc := HourlyBlock(blocks[i], acc);
    }
    assert blocks[..|blocks|] == blocks;
  }

  // ------------------------------------------------------------- write_batch

  lemma {:induction false} CoherentAfterInserts(c: Cache, tr: TxTable, tr': TxTable, outs: OutTable, rows: OutTable)
    requires Coherent(c, tr, outs)
    requires forall h :: h in tr ==> h in tr' && tr'[h].id == tr[h].id
    ensures Coherent(c, tr', rows + outs)
  {
  }

  lemma {:induction false} CoherentAfterMarks(c: Cache, tr: TxTable, outs: OutTable, marks: seq<Mark>, confirmed: bool)
    requires Coherent(c, tr, outs)
    ensures Coherent(c, tr, MarkSpent(outs, marks, confirmed))
  {
  }

  lemma {:induction false} BatchInView(tr: TxTable, w: World, view: OutTable, txs: seq<Mined>)
    requires OutsOk(tr, w, view) && Named(w, txs) && AllKnown(tr, txs)
    ensures forall i :: 0 <= i < |txs| ==> txs[i].tx.txid in tr && TxInView(view, tr[txs[i].tx.txid].id, txs[i].tx.vout)
  {
    forall i | 0 <= i < |txs| ensures txs[i].tx.txid in tr && TxInView(view, tr[txs[i].tx.txid].id, txs[i].tx.vout) {
      var h := txs[i].tx.txid;
      assert txs[i] in txs;
      forall v | 0 <= v < |txs[i].tx.vout|
        ensures Outpoint(tr[h].id, v) in view && SameOut(view[Outpoint(tr[h].id, v)], txs[i].tx.vout[v])
      {
        assert Creates(tr, w, h, Outpoint(tr[h].id, v));
      }
    }
  }

  /** Phase 2. */
  method InsertHeaders(blocks: seq<Block>, db: Database)
    modifies db`blocks
    ensures db.State() == old(db.State()).(blocks := PutBlocks(old(db.blocks), blocks))
  {
    for i := 0 to |blocks|
      invariant db.blocks == PutBlocks(old(db.blocks), blocks[..i])
      modifies db`blocks
    {
      assert blocks[..i + 1][..i] == blocks[..i];
      db.InsertBlock(blocks[i]);
    }
    assert blocks[..|blocks|] == blocks;
  }

  /** What phases 4 and 5 change, from `s` to `s'`. */
  ghost predicate Stores(s: Tables, s': Tables, txs: seq<Mined>)
    requires AllKnown(s.transactions, txs)
  {
    var rows := StagedOutputs(s.transactions, txs);
    s' == s.(outputs := rows + s.outputs,
             utxo := CoinsOf(rows) + s.utxo - PendingSpends(s.transactions, s.inputs, BatchIds(s.transactions, txs)),
             rollups := Merge(s.rollups, KnownAddresses(BatchOutAddresses(txs))))
  }

  /** Phases 4, 5 and 5b. */
  method StoreOutputs(txs: seq<Mined>, txMap: map<Hash, int>, db: Database) returns (am: map<Vout, Address>)
    requires Distinct(txs) && AllKnown(db.transactions, txs) && txMap == IdMap(db.transactions, txs)
    modifies db`rollups, db`outputs, db`utxo
    ensures AddressesOf(am, txs) && Stores(old(db.State()), db.State(), txs)
  {
    ghost var tr := db.transactions;
    var upserts;
    upserts, am := CollectAddresses(txs);
    db.UpsertAddressesBatch(upserts);
    var rows, coins := StageOutputs(txs, tr, txMap, am);
    db.InsertTxOutputsBatch(rows);
    db.InsertUtxoBatch(coins);
    var ids := txMap.Values;
    IdsOfMap(tr, txs, txMap);
    var mempoolSpent := db.SelectPendingSpends(ids);
    db.DeleteUtxoBatch(mempoolSpent);
  }

  /** Phases 4 and 5, then the in-batch index and the cache filled from the same outputs. */
  method WriteOutputs(txs: seq<Mined>, txMap: map<Hash, int>, cache: UtxoCache, db: Database, ghost w: World)
    returns (am: map<Vout, Address>, oc: map<Outpoint, Address>, ov: map<Outpoint, int>)
    requires Distinct(txs) && Named(w, txs) && AllKnown(db.transactions, txs) && txMap == IdMap(db.transactions, txs)
    requires OutsOk(db.transactions, w, StagedOutputs(db.transactions, txs) + db.outputs)
    requires Coherent(cache.State(), db.transactions, db.outputs)
    modifies cache, db`rollups, db`outputs, db`utxo
    ensures AddressesOf(am, txs) && SoundIndex(db.outputs, oc, ov)
    ensures Coherent(cache.State(), db.transactions, db.outputs)
    ensures Stores(old(db.State()), db.State(), txs)
  {
    ghost var tr, rows := db.transactions, StagedOutputs(db.transactions, txs);
    CoherentAfterInserts(cache.State(), tr, tr, db.outputs, rows);
    am := StoreOutputs(txs, txMap, db);
    BatchInView(tr, w, db.outputs, txs);
    MapHasIds(txMap, tr, txs);
    oc, ov := FillIndex(txs, txMap, cache, tr, db.outputs);
  }

  lemma {:induction false} IdsOfMap(tr: TxTable, txs: seq<Mined>, txMap: map<Hash, int>)
    requires AllKnown(tr, txs) && txMap == IdMap(tr, txs)
    ensures txMap.Values == BatchIds(tr, txs)
  {
    forall id | id in txMap.Values ensures id in BatchIds(tr, txs) {
      var h :| h in txMap && txMap[h] == id;
      var m :| m in txs && m.tx.txid == h;
      var i :| 0 <= i < |txs| && txs[i] == m;
      assert tr[txs[i].tx.txid].id == id;
    }
    forall id | id in BatchIds(tr, txs) ensures id in txMap.Values {
      var i :| 0 <= i < |txs| && txs[i].tx.txid in tr && tr[txs[i].tx.txid].id == id;
      assert txs[i] in txs && txMap[txs[i].tx.txid] == id;
    }
  }

  /** What phases 4 to 6 change, from `s` to `s'`. */
  ghost predicate Resolves(s: Tables, s': Tables, rpc: Rpc, txs: seq<Mined>)
    requires AllKnown(s.transactions, txs)
  {
    var rows := StagedOutputs(s.transactions, txs);
    s' == s.(outputs := rows + s.outputs,
             utxo := CoinsOf(rows) + s.utxo - PendingSpends(s.transactions, s.inputs, BatchIds(s.transactions, txs)),
             rollups := Merge(Merge(s.rollups, KnownAddresses(BatchOutAddresses(txs))),
                              KnownAddresses(BatchRpcAddresses(s.transactions, rows + s.outputs, rpc, txs))))
  }

  /** What phases 7 and 7b change. */
  ghost predicate Links(s: Tables, s': Tables, rpc: Rpc, txs: seq<Mined>)
    requires AllKnown(s.transactions, txs)
  {
    var marks := Marks(s.transactions, txs);
    s' == s.(inputs := StagedInputs(s.transactions, s.outputs, rpc, txs) + s.inputs,
             utxo := s.utxo - Targets(marks),
             outputs := MarkSpent(s.outputs, marks, true))
  }

  /** What phases 7c and 7d change; `view` is the outputs table of phase 6. */
  ghost predicate Counts(s: Tables, s': Tables, view: OutTable, rpc: Rpc, blocks: seq<Block>, txs: seq<Mined>)
    requires AllKnown(s.transactions, txs)
  {
    s' == s.(rollups := Merge(AddWalk(s.rollups, Walk(s.transactions, view, rpc, txs)), ChainStats(blocks)),
             addressTxs := StagedAddressTxs(s.transactions, view, rpc, txs) + s.addressTxs)
  }

  /** Phases 7 and 7b. */
  method WriteInputs(txs: seq<Mined>, txMap: map<Hash, int>, f: Found6, cache: UtxoCache, db: Database, ghost rpc: Rpc)
    requires AllKnown(db.transactions, txs) && txMap == IdMap(db.transactions, txs)
    requires ReadsOff(db.transactions, db.outputs, rpc, f, txs)
    requires Coherent(cache.State(), db.transactions, db.outputs)
    modifies db`inputs, db`utxo, db`outputs
    ensures Links(old(db.State()), db.State(), rpc, txs)
    ensures Coherent(cache.State(), db.transactions, db.outputs)
  {
    ghost var tr, view := db.transactions, db.outputs;
    var rows := StageInputs(txs, txMap, f, tr, view, rpc);
    db.InsertTxInputsBatch(rows);
    var marks := StageMarks(txs, txMap, f, tr, view, rpc);
    db.DeleteUtxoBatch(Targets(marks));
    CoherentAfterMarks(cache.State(), tr, view, marks, true);
    db.MarkOutputsSpentBatch(marks, true);
  }

  method WriteWalk(walk: Rollups, db: Database)
    modifies db`rollups
    ensures db.rollups == AddWalk(old(db.rollups), walk)
  {
    db.UpsertAddressActivityBatch(Activity(walk));
    db.BumpAddressStatsBatch(Totals(walk));
    db.UpsertRollupBatch(Balances(walk));
  }

  /** The writes of phases 7c and 7d. */
  method WriteRollups(walk: Rollups, addressTxs: map<AddrTx, int>, hourly: Rollups, db: Database)
    modifies db`rollups, db`addressTxs
    ensures db.rollups == Merge(AddWalk(old(db.rollups), walk), hourly)
    ensures db.addressTxs == addressTxs + old(db.addressTxs)
  {
    WriteWalk(walk, db);
    db.InsertAddressTransactionsBatch(addressTxs);
    db.UpsertRollupBatch(hourly);
  }

  lemma {:induction false} RollupsAre(r: Rollups, tr: TxTable, view: OutTable, rpc: Rpc, blocks: seq<Block>,
                                      txs: seq<Mined>, known: Rollups, final: Rollups)
    requires known ==
             Merge(Merge(r, KnownAddresses(BatchOutAddresses(txs))),
                   KnownAddresses(BatchRpcAddresses(tr, view, rpc, txs)))
    requires final == Merge(AddWalk(known, Walk(tr, view, rpc, txs)), ChainStats(blocks))
    ensures final == MinedRollups(r, tr, view, rpc, blocks, txs)
  {
  }

  /** `s` is what phases 4 to 7d make of `t`. */
  ghost predicate MinedFields(t: Tables, tr: TxTable, view: OutTable, rpc: Rpc, blocks: seq<Block>, txs: seq<Mined>,
                              s: Tables)
    requires AllKnown(tr, txs)
  {
    && s.outputs == MarkSpent(view, Marks(tr, txs), true)
    && s.inputs == StagedInputs(tr, view, rpc, txs) + t.inputs
    && s.utxo == MinedCoins(tr, StagedOutputs(tr, txs), t.utxo, t.inputs, txs)
    && s.rollups == MinedRollups(t.rollups, tr, view, rpc, blocks, txs)
    && s.addressTxs == StagedAddressTxs(tr, view, rpc, txs) + t.addressTxs
  }

  lemma {:induction false} MineTxsFields(t: Tables, tr: TxTable, blocks: seq<Block>, txs: seq<Mined>, rpc: Rpc,
                                         view: OutTable, s: Tables)
    requires AllKnown(tr, txs) && view == StagedOutputs(tr, txs) + t.outputs
    requires s.blocks == t.blocks && s.transactions == tr && s.nextTxId == t.nextTxId + |txs|
    requires MinedFields(t, tr, view, rpc, blocks, txs, s)
    ensures s == MineTxs(t, tr, blocks, txs, rpc)
  {
  }

  /** Phases 4 to 6: the outputs are in, every input is resolved. */
  lemma {:induction false} StoredAndResolved(s: Tables, s1: Tables, s2: Tables, rpc: Rpc, txs: seq<Mined>)
    requires AllKnown(s.transactions, txs) && Stores(s, s1, txs)
    requires s2 ==
             s1.(rollups := Merge(s1.rollups, KnownAddresses(BatchRpcAddresses(s1.transactions, s1.outputs, rpc, txs))))
    ensures Resolves(s, s2, rpc, txs)
  {
  }

  method WriteAndResolve(txs: seq<Mined>, txMap: map<Hash, int>, cache: UtxoCache, rpc: Rpc, db: Database,
                         ghost w: World)
    returns (am: map<Vout, Address>, f: Found6)
    requires Distinct(txs) && Named(w, txs) && AllKnown(db.transactions, txs) && txMap == IdMap(db.transactions, txs)
    requires OutsOk(db.transactions, w, StagedOutputs(db.transactions, txs) + db.outputs)
    requires Coherent(cache.State(), db.transactions, db.outputs)
    modifies cache, db`rollups, db`outputs, db`utxo
    ensures AddressesOf(am, txs) && ReadsOff(db.transactions, db.outputs, rpc, f, txs)
    ensures Resolves(old(db.State()), db.State(), rpc, txs)
    ensures Coherent(cache.State(), db.transactions, db.outputs)
  {
    KnownIds(db.transactions, txs, txMap);
    ghost var before := db.State();
    var oc, ov;
    am, oc, ov := WriteOutputs(txs, txMap, cache, db, w);
    ghost var stored := db.State();
    f := ResolveInputs(txs, txMap, oc, ov, cache, rpc, db);
    StoredAndResolved(before, stored, db.State(), rpc, txs);
  }

  /** The rollups of the batch: walked and counted, then written. */
  method WriteCounts(blocks: seq<Block>, txs: seq<Mined>, txMap: map<Hash, int>, am: map<Vout, Address>, f: Found6,
                     db: Database, ghost view: OutTable, ghost rpc: Rpc)
    requires AllKnown(db.transactions, txs) && txMap == IdMap(db.transactions, txs) && AddressesOf(am, txs)
    requires ReadsOff(db.transactions, view, rpc, f, txs)
    modifies db`rollups, db`addressTxs
    ensures Counts(old(db.State()), db.State(), view, rpc, blocks, txs)
  {
    var walk, addressTxs := WalkBatch(txs, txMap, am, f, db.transactions, view, rpc);
    var hourly := HourlyBatch(blocks);
    WriteRollups(walk, addressTxs, hourly, db);
  }

  /** Phases 4 to 7d. */
  method WriteTransactions(blocks: seq<Block>, txs: seq<Mined>, txMap: map<Hash, int>, cache: UtxoCache, rpc: Rpc,
                           db: Database, ghost w: World)
    returns (ghost resolved: Tables, ghost linked: Tables)
    requires Distinct(txs) && Named(w, txs) && AllKnown(db.transactions, txs) && txMap == IdMap(db.transactions, txs)
    requires OutsOk(db.transactions, w, StagedOutputs(db.transactions, txs) + db.outputs)
    requires Coherent(cache.State(), db.transactions, db.outputs)
    modifies cache, db`rollups, db`outputs, db`utxo, db`inputs, db`addressTxs
    ensures AllKnown(resolved.transactions, txs) && AllKnown(linked.transactions, txs)
    ensures Resolves(old(db.State()), resolved, rpc, txs) && Links(resolved, linked, rpc, txs)
    ensures Counts(linked, db.State(), resolved.outputs, rpc, blocks, txs)
    ensures Coherent(cache.State(), db.transactions, db.outputs)
  {
    var am, f := WriteAndResolve(txs, txMap, cache, rpc, db, w);
    resolved := db.State();
    WriteInputs(txs, txMap, f, cache, db, rpc);
    linked := db.State();
    WriteCounts(blocks, txs, txMap, am, f, db, resolved.outputs, rpc);
  }

  ghost predicate Ready(t: Tables, ready: Tables, blocks: seq<Block>, txs: seq<Mined>) {
    ready == t.(blocks := PutBlocks(t.blocks, blocks), nextTxId := t.nextTxId + |txs|,
                transactions := ConfirmTxs(t.transactions, t.nextTxId, txs))
  }

  /** Everything after phase 3. */
  method WriteRest(blocks: seq<Block>, txs: seq<Mined>, txMap: map<Hash, int>, cache: UtxoCache, rpc: Rpc, db: Database,
                   ghost w: World, ghost t: Tables)
    requires txs == Flatten(blocks) != [] && Ready(t, db.State(), blocks, txs)
    requires Distinct(txs) && Named(w, txs) && AllKnown(db.transactions, txs) && txMap == IdMap(db.transactions, txs)
    requires OutsOk(db.transactions, w, StagedOutputs(db.transactions, txs) + db.outputs)
    requires Coherent(cache.State(), db.transactions, db.outputs)
    modifies cache, db`rollups, db`outputs, db`utxo, db`inputs, db`addressTxs
    ensures db.State() == Mine(t, blocks, rpc)
    ensures Coherent(cache.State(), db.transactions, db.outputs)
  {
    ghost var ready := db.State();
    ghost var resolved, linked := WriteTransactions(blocks, txs, txMap, cache, rpc, db, w);
    StagesCompose(t, blocks, txs, rpc, ready, resolved, linked, db.State(), db.transactions);
  }

  lemma {:induction false} BatchReady(t: Tables, w: World, txs: seq<Mined>, ready: Tables, c: Cache)
    requires Structure(t, w) && Distinct(txs) && Named(w, txs)
    requires ready.transactions == ConfirmTxs(t.transactions, t.nextTxId, txs) && ready.outputs == t.outputs
    requires AllKnown(ready.transactions, txs) && Coherent(c, t.transactions, t.outputs)
    ensures OutsOk(ready.transactions, w, StagedOutputs(ready.transactions, txs) + ready.outputs)
    ensures Coherent(c, ready.transactions, ready.outputs)
  {
    var tr := ready.transactions;
    ConfirmTxsRows(t.transactions, t.nextTxId, txs);
    CoherentAfterInserts(c, t.transactions, tr, t.outputs, map[]);
    assert map[] + t.outputs == t.outputs;
    MineOuts(t.transactions, t.nextTxId, w, t.outputs, txs);
  }

  /** Phase 3 and everything after it. */
  method WriteTxs(blocks: seq<Block>, txs: seq<Mined>, cache: UtxoCache, rpc: Rpc, db: Database, ghost w: World,
                  ghost t: Tables)
    requires Structure(t, w) && txs == Flatten(blocks) != [] && Distinct(txs) && Named(w, txs)
    requires db.State() == t.(blocks := PutBlocks(t.blocks, blocks))
    requires Coherent(cache.State(), db.transactions, db.outputs)
    modifies db, cache
    ensures db.State() == Mine(t, blocks, rpc)
    ensures Coherent(cache.State(), db.transactions, db.outputs)
  {
    var txMap := db.InsertTransactionsBatch(txs);
    BatchReady(t, w, txs, db.State(), cache.State());
    WriteRest(blocks, txs, txMap, cache, rpc, db, w, t);
  }

  lemma {:induction false} HeadersOnly(t: Tables, blocks: seq<Block>, rpc: Rpc, s: Tables)
    requires Flatten(blocks) == [] && s == t.(blocks := PutBlocks(t.blocks, blocks))
    ensures s == Mine(t, blocks, rpc)
  {
  }

  /** `write_batch`. Whatever the cache holds and however much it may hold, the
   * tables afterwards are those of `Mine`, which has no cache. A txid repeated in
   * one batch is an error of the INSERT and not modelled. */
  method WriteBatch(blocks: seq<Block>, cache: UtxoCache, rpc: Rpc, db: Database, ghost w: World)
    requires Structure(db.State(), w) && Distinct(Flatten(blocks)) && Named(w, Flatten(blocks))
    requires Coherent(cache.State(), db.transactions, db.outputs)
    modifies db, cache
    ensures db.State() == Mine(old(db.State()), blocks, rpc)
    ensures Coherent(cache.State(), db.transactions, db.outputs)
  {
    ghost var before := db.State();
    if blocks == [] {
      HeadersOnly(before, blocks, rpc, before);
      return;
    }
    InsertHeaders(blocks, db);
    var txs := FlattenBlocks(blocks);
    if txs == [] {
      HeadersOnly(before, blocks, rpc, db.State());
      return;
    }
    WriteTxs(blocks, txs, cache, rpc, db, w, before);
  }

  /** The stages of a batch compose to `Mine`. */
  lemma {:induction false} FinalTables(t: Tables, blocks: seq<Block>, txs: seq<Mined>, rpc: Rpc, tr: TxTable,
                                       view: OutTable, known: Rollups, s: Tables)
    requires txs == Flatten(blocks) != []
    requires tr == ConfirmTxs(t.transactions, t.nextTxId, txs) && AllKnown(tr, txs)
    requires s.blocks == PutBlocks(t.blocks, blocks) && s.transactions == tr && s.nextTxId == t.nextTxId + |txs|
    requires view == StagedOutputs(tr, txs) + t.outputs
    requires s.outputs == MarkSpent(view, Marks(tr, txs), true)
    requires s.inputs == StagedInputs(tr, view, rpc, txs) + t.inputs
    requires s.utxo ==
             CoinsOf(StagedOutputs(tr, txs))
               + t.utxo - PendingSpends(tr, t.inputs, BatchIds(tr, txs)) - Targets(Marks(tr, txs))
    requires known == Merge(Merge(t.rollups, KnownAddresses(BatchOutAddresses(txs))),
                            KnownAddresses(BatchRpcAddresses(tr, view, rpc, txs)))
    requires s.rollups == Merge(AddWalk(known, Walk(tr, view, rpc, txs)), ChainStats(blocks))
    requires s.addressTxs == StagedAddressTxs(tr, view, rpc, txs) + t.addressTxs
    ensures s == Mine(t, blocks, rpc)
  {
    var headers := t.(blocks := PutBlocks(t.blocks, blocks));
    RollupsAre(t.rollups, tr, view, rpc, blocks, txs, known, s.rollups);
    MineTxsFields(headers, tr, blocks, txs, rpc, view, s);
    MineIsMineTxs(t, blocks, rpc, tr, txs, headers, Mine(t, blocks, rpc));
  }

  lemma {:induction false} StagesCompose(t: Tables, blocks: seq<Block>, txs: seq<Mined>, rpc: Rpc, ready: Tables,
                                         resolved: Tables, linked: Tables, s: Tables, tr: TxTable)
    requires txs == Flatten(blocks) != [] && Ready(t, ready, blocks, txs) && tr == ready.transactions
    requires AllKnown(tr, txs) && Resolves(ready, resolved, rpc, txs)
    requires resolved.transactions == tr && Links(resolved, linked, rpc, txs)
    requires linked.transactions == tr && Counts(linked, s, resolved.outputs, rpc, blocks, txs)
    ensures s == Mine(t, blocks, rpc)
  {
    FinalTables(t, blocks, txs, rpc, tr, resolved.outputs, resolved.rollups, s);
  }

  lemma {:induction false} KnownIds(tr: TxTable, txs: seq<Mined>, txMap: map<Hash, int>)
    requires AllKnown(tr, txs) && txMap == IdMap(tr, txs)
    ensures forall h :: h in txMap ==> IdOf(tr, h) == Some(txMap[h])
  {
  }

  // ---------------------------------------------- index_pending_transaction

  /** The inputs of a pending transaction: the tables first, then the RPC. */
  method ResolvePending(tx: Tx, rpc: Rpc, db: Database, ghost txs: seq<Mined>) returns (f: Found6)
    requires |txs| == 1 && txs[0].tx == tx
    modifies db`rollups
    ensures TxReadsOff(db.transactions, db.outputs, rpc, f, tx)
    ensures db.State() == old(db.State()).(
              rollups := Merge(old(db.rollups), KnownAddresses(RpcAddresses(db.transactions, db.outputs, rpc, tx.vin))))
  {
    var needed := CollectNeededTx(tx, map[]);
    NeedsOfOne(needed, txs);
    OneRpcAddresses(db.transactions, db.outputs, rpc, txs);
    f := Found6(map[], map[], map[]);
    if needed == map[] {
      NoInputs(db.transactions, db.outputs, rpc, txs, needed);
      MergeEmpty(db.rollups);
      assert KnownAddresses({}) == map[];
      assert ReadsOff(db.transactions, db.outputs, rpc, f, txs);
      return;
    }
    f := ResolveStored(needed, needed.Keys, db, f, map[], map[]);
    f := ResolveFetched(needed, rpc, db, f, txs);
  }

  lemma {:induction false} NeedsOfOne(needed: Needed, txs: seq<Mined>)
    requires |txs| == 1
    requires forall h, v :: Needs(needed, h, v) <==> SpentByTx(txs[0].tx.vin, h, v)
    requires forall h :: h in needed ==> needed[h] != []
    ensures NeedsOf(needed, txs)
  {
  }

  lemma {:induction false} OneRpcAddresses(tr: TxTable, outs: OutTable, rpc: Rpc, txs: seq<Mined>)
    requires |txs| == 1
    ensures BatchRpcAddresses(tr, outs, rpc, txs) == RpcAddresses(tr, outs, rpc, txs[0].tx.vin)
  {
    forall a | a in RpcAddresses(tr, outs, rpc, txs[0].tx.vin) ensures a in BatchRpcAddresses(tr, outs, rpc, txs) {
      assert a in RpcAddresses(tr, outs, rpc, txs[0].tx.vin);
    }
  }

  /** What writing a pending transaction's outputs changes. */
  ghost predicate AddsOutputs(s: Tables, s': Tables, id: int, tx: Tx) {
    var rows := TxOutputs(id, tx.vout);
    s' == s.(outputs := rows + s.outputs, utxo := CoinsOf(rows) + s.utxo,
             rollups := Merge(s.rollups, KnownAddresses(OutAddresses(tx.vout))))
  }

  /** What resolving and writing its inputs changes. */
  ghost predicate AddsInputs(s: Tables, s': Tables, id: int, tx: Tx, rpc: Rpc) {
    var marks := MarksUpTo(s.transactions, id, tx.vin);
    s' == s.(inputs := TxInputs(id, tx.vin, Resolve(s.transactions, s.outputs, rpc, tx)) + s.inputs,
             utxo := s.utxo - Targets(marks),
             outputs := MarkSpent(s.outputs, marks, false),
             rollups := Merge(s.rollups, KnownAddresses(RpcAddresses(s.transactions, s.outputs, rpc, tx.vin))))
  }

  /** Addresses to upsert, and rows for tx_outputs and utxo, of one transaction. */
  method CollectPending(tx: Tx, id: int) returns (upserts: set<Address>, rows: OutTable, coins: CoinTable)
    ensures upserts == OutAddresses(tx.vout) && rows == TxOutputs(id, tx.vout) && coins == CoinsOf(rows)
  {
    var am;
    upserts, am := CollectTx(tx, {}, map[]);
    rows, coins := StageTx(tx, id, am, map[], map[]);
    OntoNothing(TxOutputs(id, tx.vout));
  }

  lemma {:induction false} OntoNothing(rows: OutTable)
    ensures map[] + rows == rows
  {
  }

  method WritePendingOutputs(tx: Tx, id: int, db: Database)
    modifies db`rollups, db`outputs, db`utxo
    ensures AddsOutputs(old(db.State()), db.State(), id, tx)
  {
    ghost var s := db.State();
    var upserts, rows, coins := CollectPending(tx, id);
    db.UpsertAddressesBatch(upserts);
    db.InsertTxOutputsBatch(rows);
    db.InsertUtxoBatch(coins);
    OutputsAdded(s, db.State(), id, tx, upserts, rows, coins);
  }

  lemma {:induction false} OutputsAdded(s: Tables, s': Tables, id: int, tx: Tx, upserts: set<Address>, rows: OutTable,
                                        coins: CoinTable)
    requires upserts == OutAddresses(tx.vout) && rows == TxOutputs(id, tx.vout) && coins == CoinsOf(rows)
    requires s'.blocks == s.blocks && s'.transactions == s.transactions && s'.nextTxId == s.nextTxId
    requires s'.inputs == s.inputs && s'.addressTxs == s.addressTxs
    requires s'.outputs == rows + s.outputs && s'.utxo == coins + s.utxo
             && s'.rollups == Merge(s.rollups, KnownAddresses(upserts))
    ensures AddsOutputs(s, s', id, tx)
  {
  }

  method WritePendingInputs(tx: Tx, id: int, rpc: Rpc, db: Database)
    modifies db`rollups, db`inputs, db`utxo, db`outputs
    ensures AddsInputs(old(db.State()), db.State(), id, tx, rpc)
  {
    ghost var s, tr, view := db.State(), db.transactions, db.outputs;
    var f := ResolvePending(tx, rpc, db, [Mined(tx, 0, 0)]);
    var rows, marks := StagePending(tx, id, f, tr, view, rpc);
    db.InsertTxInputsBatch(rows);
    db.DeleteUtxoBatch(Targets(marks));
    db.MarkOutputsSpentBatch(marks, false);
    InputsAdded(s, db.State(), id, tx, rpc, rows, marks);
  }

  lemma {:induction false} InputsAdded(s: Tables, s': Tables, id: int, tx: Tx, rpc: Rpc, rows: InTable,
                                       marks: seq<Mark>)
    requires rows == TxInputs(id, tx.vin, Resolve(s.transactions, s.outputs, rpc, tx))
             && marks == MarksUpTo(s.transactions, id, tx.vin)
    requires s'.blocks == s.blocks && s'.transactions == s.transactions && s'.nextTxId == s.nextTxId
             && s'.addressTxs == s.addressTxs
    requires s'.inputs == rows + s.inputs && s'.utxo == s.utxo - Targets(marks)
             && s'.outputs == MarkSpent(s.outputs, marks, false)
    requires s'.rollups == Merge(s.rollups, KnownAddresses(RpcAddresses(s.transactions, s.outputs, rpc, tx.vin)))
    ensures AddsInputs(s, s', id, tx, rpc)
  {
  }

  method StagePending(tx: Tx, id: int, f: Found6, ghost tr: TxTable, ghost view: OutTable, ghost rpc: Rpc)
    returns (rows: InTable, marks: seq<Mark>)
    requires TxReadsOff(tr, view, rpc, f, tx)
    ensures rows == TxInputs(id, tx.vin, Resolve(tr, view, rpc, tx)) && marks == MarksUpTo(tr, id, tx.vin)
  {
    rows := StageTxInputs(tx, id, f, map[], tr, view, rpc);
    marks := StageTxMarks(tx, id, f, [], tr, view, rpc);
  }

  lemma {:induction false} PendingComposes(t: Tables, tx: Tx, rpc: Rpc, s: Tables, s1: Tables, s2: Tables)
    requires tx.txid !in t.transactions
    requires s ==
             t.(transactions := t.transactions[tx.txid := NewRow(t.nextTxId, None, tx)], nextTxId := t.nextTxId + 1)
    requires AddsOutputs(s, s1, t.nextTxId, tx) && AddsInputs(s1, s2, t.nextTxId, tx, rpc)
    ensures s2 == See(t, tx, rpc)
  {
  }

  /** `index_pending_transaction`; `added` is its boolean answer. */
  method IndexPending(tx: Tx, rpc: Rpc, db: Database) returns (added: bool)
    modifies db
    ensures added <==> tx.txid !in old(db.transactions)
    ensures db.State() == See(old(db.State()), tx, rpc)
  {
    ghost var before := db.State();
    var id := db.InsertPendingTransaction(tx);
    if id.None? {
      return false;
    }
    ghost var admitted := db.State();
    WritePendingOutputs(tx, id.value, db);
    ghost var paid := db.State();
    WritePendingInputs(tx, id.value, rpc, db);
    PendingComposes(before, tx, rpc, admitted, paid, db.State());
    return true;
  }
}
