/** Phases 3 to 5 of `write_batch`: collecting the transactions, addresses and
 * outputs of a commit batch. */
module BatchStaging {
  import opened Prelude
  import opened Rollups
  import opened Ledger
  import opened LedgerFacts
  import opened LedgerInvariants
  import opened LedgerDeltas
  import opened LedgerBatches
  import opened Storage

  /** An output named by its own transaction: key of addresses_map. */
  datatype Vout = Vout(index: int, txid: Hash)

  // ---------------------------------------------------------------- small steps

  function AddTo(acc: Rollups, k: RollupKey, x: Tally): Rollups {
    acc[k := Plus(At(acc, k), x)]
  }

  lemma {:induction false} AddToIsMerge(acc: Rollups, k: RollupKey, x: Tally)
    ensures AddTo(acc, k, x) == Merge(acc, map[k := x])
  {
  }

  lemma {:induction false} AddFlow(acc: Rollups, a: Address, day: int, flow: Tally)
    ensures AddTo(AddTo(acc, AddressTotal(a), flow), AddressDay(a, day), flow) == Merge(acc, FlowDelta(a, day, flow))
  {
    var x: Rollups, y: Rollups := map[AddressTotal(a) := flow], map[AddressDay(a, day) := flow];
    AddToIsMerge(acc, AddressTotal(a), flow);
    AddToIsMerge(Merge(acc, x), AddressDay(a, day), flow);
    MergeAssociative(acc, x, y);
    assert Merge(x, y) == FlowDelta(a, day, flow);
  }

  lemma {:induction false} TxOutputsStep(id: int, vout: seq<TxOut>, j: int)
    requires 0 <= j < |vout|
    ensures TxOutputs(id, vout[..j + 1]) ==
            TxOutputs(id, vout[..j])[Outpoint(id, j) := OutRow(vout[j].address, vout[j].value, None)]
  {
  }

  lemma {:induction false} UnionPut<K, V>(x: map<K, V>, y: map<K, V>, k: K, v: V)
    ensures (x + y)[k := v] == x + y[k := v]
  {
  }

  // -------------------------------------------------------- phases 3, 4 and 5

  method FlattenBlocks(blocks: seq<Block>) returns (txs: seq<Mined>)
    ensures txs == Flatten(blocks)
  {
    txs := [];
    for i := 0 to |blocks|
      invariant txs == Flatten(blocks[..i])
    {
      assert blocks[..i + 1][..i] == blocks[..i];
      var b := blocks[i];
      for j := 0 to |b.txs|
        invariant txs == Flatten(blocks[..i]) + MinedTxs(b)[..j]
      {
        txs := txs + [Mined(b.txs[j], b.height, b.time)];
      }
      assert MinedTxs(b)[..|b.txs|] == MinedTxs(b);
    }
    assert blocks[..|blocks|] == blocks;
  }

  /** addresses_map holds the address of every output that has one. */
  ghost predicate AddressesOf(am: map<Vout, Address>, txs: seq<Mined>) {
    forall i, v :: 0 <= i < |txs| && 0 <= v < |txs[i].tx.vout| ==>
      txs[i].tx.vout[v].address == if Vout(v, txs[i].tx.txid) in am then Some(am[Vout(v, txs[i].tx.txid)]) else None
  }

  lemma {:induction false} OutAddressesStep(vout: seq<TxOut>, j: int)
    requires 0 <= j < |vout|
    ensures OutAddresses(vout[..j + 1]) == OutAddresses(vout[..j])
            + if vout[j].address.Some? then {vout[j].address.value} else {}
  {
    var longer := vout[..j + 1];
    assert longer[..|longer| - 1] == vout[..j];
    forall a ensures a in OutAddresses(longer) <==> a in OutAddresses(vout[..j]) || vout[j].address == Some(a) {
      OutAddressesSplit(longer, a);
    }
  }

  lemma {:induction false} BatchAddressesStep(txs: seq<Mined>, i: int)
    requires 0 <= i < |txs|
    ensures BatchOutAddresses(txs[..i + 1]) == BatchOutAddresses(txs[..i]) + OutAddresses(txs[i].tx.vout)
  {
    assert txs[..i + 1] == txs[..i] + [txs[i]];
    OutAddressesConcat(txs[..i], [txs[i]]);
    assert BatchOutAddresses([txs[i]]) == OutAddresses(txs[i].tx.vout) by {
      forall a | a in OutAddresses(txs[i].tx.vout) ensures a in BatchOutAddresses([txs[i]]) {
        assert a in OutAddresses([txs[i]][0].tx.vout);
      }
    }
  }

  method CollectTx(tx: Tx, upserts0: set<Address>, am0: map<Vout, Address>)
    returns (upserts: set<Address>, am: map<Vout, Address>)
    requires forall v :: Vout(v, tx.txid) !in am0
    ensures upserts == upserts0 + OutAddresses(tx.vout)
    ensures forall k: Vout :: k.txid != tx.txid ==> (k in am <==> k in am0) && (k in am0 ==> am[k] == am0[k])
    ensures forall v :: 0 <= v < |tx.vout| ==>
              tx.vout[v].address == if Vout(v, tx.txid) in am then Some(am[Vout(v, tx.txid)]) else None
  {
    upserts, am := upserts0, am0;
    for j := 0 to |tx.vout|
      invariant upserts == upserts0 + OutAddresses(tx.vout[..j])
      invariant forall k: Vout :: k.txid != tx.txid ==> (k in am <==> k in am0) && (k in am0 ==> am[k] == am0[k])
      invariant forall v :: j <= v ==> Vout(v, tx.txid) !in am
      invariant forall v :: 0 <= v < j ==>
                  tx.vout[v].address == if Vout(v, tx.txid) in am then Some(am[Vout(v, tx.txid)]) else None
    {
      OutAddressesStep(tx.vout, j);
      if tx.vout[j].address.Some? {
        upserts := upserts + {tx.vout[j].address.value};
        am := am[Vout(j, tx.txid) := tx.vout[j].address.value];
      }
    }
    assert tx.vout[..|tx.vout|] == tx.vout;
  }

  method CollectAddresses(txs: seq<Mined>) returns (upserts: set<Address>, am: map<Vout, Address>)
    requires Distinct(txs)
    ensures upserts == BatchOutAddresses(txs) && AddressesOf(am, txs)
  {
    upserts, am := {}, map[];
    for i := 0 to |txs|
      invariant upserts == BatchOutAddresses(txs[..i])
      invariant AddressesOf(am, txs[..i])
      invariant forall k :: k in am ==> Among(txs[..i], k.txid)
    {
      var tx := txs[i].tx;
      ghost var longer := txs[..i + 1];
      assert longer[..|longer| - 1] == txs[..i];
      assert !Among(txs[..i], tx.txid);
      BatchAddressesStep(txs, i);
      ghost var before := am;
      upserts, am := CollectTx(tx, upserts, am);
      forall k | k in am ensures Among(longer, k.txid) {
        AmongPrefix(longer, k.txid);
      }
    }
    assert txs[..|txs|] == txs;
  }

  lemma {:induction false} StagePut(rows0: OutTable, rows: OutTable, id: int, vout: seq<TxOut>, j: int, row: OutRow)
    requires 0 <= j < |vout| && rows == rows0 + TxOutputs(id, vout[..j])
    requires row == OutRow(vout[j].address, vout[j].value, None)
    ensures rows[Outpoint(id, j) := row] == rows0 + TxOutputs(id, vout[..j + 1])
    ensures CoinsOf(rows[Outpoint(id, j) := row]) == CoinsOf(rows)[Outpoint(id, j) := Coin(row.address, row.value)]
  {
    TxOutputsStep(id, vout, j);
    UnionPut(rows0, TxOutputs(id, vout[..j]), Outpoint(id, j), row);
    CoinsPut(rows, Outpoint(id, j), row);
  }

  lemma {:induction false} CoinsPut(rows: OutTable, o: Outpoint, row: OutRow)
    ensures CoinsOf(rows[o := row]) == CoinsOf(rows)[o := Coin(row.address, row.value)]
  {
  }

  method StageTx(tx: Tx, id: int, am: map<Vout, Address>, rows0: OutTable, coins0: CoinTable)
    returns (rows: OutTable, coins: CoinTable)
    requires coins0 == CoinsOf(rows0)
    requires forall v :: 0 <= v < |tx.vout| ==>
               tx.vout[v].address == if Vout(v, tx.txid) in am then Some(am[Vout(v, tx.txid)]) else None
    ensures rows == rows0 + TxOutputs(id, tx.vout) && coins == CoinsOf(rows)
  {
    rows, coins := rows0, coins0;
    for j := 0 to |tx.vout|
      invariant rows == rows0 + TxOutputs(id, tx.vout[..j]) && coins == CoinsOf(rows)
    {
      var a := if Vout(j, tx.txid) in am then Some(am[Vout(j, tx.txid)]) else None;
      var row := OutRow(a, tx.vout[j].value, None);
      StagePut(rows0, rows, id, tx.vout, j, row);
      rows := rows[Outpoint(id, j) := row];
      coins := coins[Outpoint(id, j) := Coin(a, tx.vout[j].value)];
    }
    assert tx.vout[..|tx.vout|] == tx.vout;
  }

  /** Rows for tx_outputs and, with the same addresses and values, for utxo. */
  method StageOutputs(txs: seq<Mined>, ghost tr: TxTable, txMap: map<Hash, int>, am: map<Vout, Address>)
    returns (rows: OutTable, coins: CoinTable)
    requires AllKnown(tr, txs) && txMap == IdMap(tr, txs) && AddressesOf(am, txs)
    ensures rows == StagedOutputs(tr, txs) && coins == CoinsOf(rows)
  {
    rows, coins := map[], map[];
    for i := 0 to |txs|
      invariant AllKnown(tr, txs[..i]) && rows == StagedOutputs(tr, txs[..i]) && coins == CoinsOf(rows)
    {
      ghost var longer := txs[..i + 1];
      assert longer[..|longer| - 1] == txs[..i] && txs[i] in txs;
      rows, coins := StageTx(txs[i].tx, txMap[txs[i].tx.txid], am, rows, coins);
    }
    assert txs[..|txs|] == txs;
  }
}
