/** The index's tables and the statements that change them, in place. */
module Storage {
  import opened Prelude
  import opened Rollups
  import opened Ledger

  class Database {
    var blocks: map<int, BlockRow>
    var transactions: TxTable
    var nextTxId: int
    var outputs: OutTable
    var inputs: InTable
    var utxo: CoinTable
    var rollups: Rollups
    var addressTxs: map<AddrTx, int>

    function State(): Tables
      reads this
    {
      Tables(blocks, transactions, nextTxId, outputs, inputs, utxo, rollups, addressTxs)
    }

    constructor ()
      ensures State() == EMPTY
    {
      blocks, transactions, nextTxId := map[], map[], 1;
      outputs, inputs, utxo, rollups, addressTxs := map[], map[], map[], map[], map[];
    }

    method InsertBlock(b: Block)
      modifies this`blocks
      ensures State() == old(State()).(blocks := PutBlock(old(blocks), b))
    {
      if b.height !in blocks {
        blocks := blocks[b.height := BlockRow(b.time, b.size, |b.txs|)];
      }
    }

    /** One INSERT .. ON CONFLICT (hash) DO UPDATE .. RETURNING id, hash. */
    method InsertTransactionsBatch(txs: seq<Mined>) returns (txMap: map<Hash, int>)
      modifies this`transactions, this`nextTxId
      ensures State() == old(State()).(transactions := ConfirmTxs(old(transactions), old(nextTxId), txs),
                                       nextTxId := old(nextTxId) + |txs|)
      ensures AllKnown(transactions, txs)
      ensures txMap == IdMap(transactions, txs)
    {
      for i := 0 to |txs|
        invariant transactions == ConfirmTxs(old(transactions), old(nextTxId), txs[..i])
        invariant nextTxId == old(nextTxId) + i
      {
        assert txs[..i + 1][..i] == txs[..i];
        var tx := txs[i].tx;
        if tx.txid in transactions {
          var row := transactions[tx.txid];
          transactions := transactions[tx.txid :=
            row.(height := if row.height.Some? then row.height else Some(txs[i].height))];
        } else {
          transactions := transactions[tx.txid := NewRow(nextTxId, Some(txs[i].height), tx)];
        }
        nextTxId := nextTxId + 1;
      }
      assert txs[..|txs|] == txs;
      ConfirmedAreKnown(old(transactions), old(nextTxId), txs);
      txMap := map[];
      ghost var rows, next := transactions, nextTxId;
      for i := 0 to |txs|
        invariant transactions == rows && nextTxId == next
        invariant AllKnown(rows, txs[..i]) && txMap == IdMap(rows, txs[..i])
      {
        assert txs[i] in txs;
        IdMapStep(rows, txs, i);
        txMap := txMap[txs[i].tx.txid := transactions[txs[i].tx.txid].id];
      }
    }

    /** INSERT .. ON CONFLICT (hash) DO NOTHING RETURNING id: None if already known. */
    method InsertPendingTransaction(tx: Tx) returns (id: Option<int>)
      modifies this`transactions, this`nextTxId
      ensures id == if tx.txid in old(transactions) then None else Some(old(nextTxId))
      ensures State() == old(State()).(
                nextTxId := old(nextTxId) + 1,
                transactions := if tx.txid in old(transactions) then old(transactions)
                                else old(transactions)[tx.txid := NewRow(old(nextTxId), None, tx)])
    {
      nextTxId := nextTxId + 1;
      if tx.txid in transactions {
        return None;
      }
      transactions := transactions[tx.txid := NewRow(nextTxId - 1, None, tx)];
      return Some(nextTxId - 1);
    }

    method UpsertAddressesBatch(addresses: set<Address>)
      modifies this`rollups
      ensures State() == old(State()).(rollups := Merge(old(rollups), KnownAddresses(addresses)))
    {
      rollups := Merge(rollups, KnownAddresses(addresses));
    }

    /** INSERT .. SELECT FROM stage ON CONFLICT DO NOTHING. */
    method InsertTxOutputsBatch(stage: OutTable)
      modifies this`outputs
      ensures State() == old(State()).(outputs := stage + old(outputs))
    {
      outputs := stage + outputs;
    }

    method InsertUtxoBatch(stage: CoinTable)
      modifies this`utxo
      ensures State() == old(State()).(utxo := stage + old(utxo))
    {
      utxo := stage + utxo;
    }

    /** DELETE FROM utxo USING stage. */
    method DeleteUtxoBatch(stage: set<Outpoint>)
      modifies this`utxo
      ensures State() == old(State()).(utxo := old(utxo) - stage)
    {
      utxo := utxo - stage;
    }

    method InsertTxInputsBatch(stage: InTable)
      modifies this`inputs
      ensures State() == old(State()).(inputs := stage + old(inputs))
    {
      inputs := stage + inputs;
    }

    /** The inputs of still pending transactions that are linked to one of `ids`. */
    method SelectPendingSpends(ids: set<int>) returns (spent: set<Outpoint>)
      ensures spent == PendingSpends(transactions, inputs, ids)
    {
      spent := PendingSpends(transactions, inputs, ids);
    }

    /** transactions LEFT JOIN tx_outputs, for one hash. */
    method SelectOutputs(h: Hash) returns (id: Option<int>, rows: OutTable)
      ensures id == IdOf(transactions, h)
      ensures rows == if id.Some? then OutputsOf(outputs, id.value) else map[]
    {
      if h !in transactions {
        return None, map[];
      }
      var txId := transactions[h].id;
      return Some(txId), OutputsOf(outputs, txId);
    }

    /** DISTINCT ON collapses the stage to one spender per outpoint, then UPDATE. */
    method MarkOutputsSpentBatch(stage: seq<Mark>, confirmed: bool)
      modifies this`outputs
      ensures State() == old(State()).(outputs := MarkSpent(old(outputs), stage, confirmed))
    {
      var chosen: map<Outpoint, Slot> := map[];
      for i := 0 to |stage|
        invariant forall o :: o in chosen <==> Chosen(stage[..i], o).Some?
        invariant forall o :: o in chosen ==> Chosen(stage[..i], o) == Some(chosen[o])
      {
        assert stage[..i + 1][..i] == stage[..i];
        var m := stage[i];
        if m.outpoint !in chosen || m.spender.txId < chosen[m.outpoint].txId {
          chosen := chosen[m.outpoint := m.spender];
        }
      }
      assert stage[..|stage|] == stage;
      outputs := map o | o in outputs ::
        if o in chosen && (confirmed || outputs[o].spentBy.None?)
        then outputs[o].(spentBy := Some(chosen[o])) else outputs[o];
    }

    /** Per-day counts, and the same staged counts folded per ISO week. */
    method UpsertAddressActivityBatch(stage: Rollups)
      modifies this`rollups
      ensures State() == old(State()).(rollups := Merge(Merge(old(rollups), stage), Weekly(stage)))
    {
      rollups := Merge(rollups, stage);
      rollups := Merge(rollups, Weekly(stage));
    }

    method InsertAddressTransactionsBatch(stage: map<AddrTx, int>)
      modifies this`addressTxs
      ensures State() == old(State()).(addressTxs := stage + old(addressTxs))
    {
      addressTxs := stage + addressTxs;
    }

    /** UPDATE addresses .. FROM stage: only existing rows. */
    method BumpAddressStatsBatch(stage: Rollups)
      modifies this`rollups
      ensures State() == old(State()).(rollups := UpdateExisting(old(rollups), stage))
    {
      rollups := UpdateExisting(rollups, stage);
    }

    method UpsertRollupBatch(stage: Rollups)
      modifies this`rollups
      ensures State() == old(State()).(rollups := Merge(old(rollups), stage))
    {
      rollups := Merge(rollups, stage);
    }
  }

  function OutputsOf(outs: OutTable, id: int): OutTable {
    map o | o in outs && o.txId == id :: outs[o]
  }

  /** tx_map: the id of every transaction of the batch. */
  function IdMap(tr: TxTable, txs: seq<Mined>): map<Hash, int>
    requires AllKnown(tr, txs)
  {
    map m | m in txs :: m.tx.txid := tr[m.tx.txid].id
  }

  lemma {:induction false} IdMapStep(tr: TxTable, txs: seq<Mined>, i: int)
    requires 0 <= i < |txs| && AllKnown(tr, txs)
    ensures AllKnown(tr, txs[..i]) && AllKnown(tr, txs[..i + 1])
    ensures IdMap(tr, txs[..i + 1]) == IdMap(tr, txs[..i])[txs[i].tx.txid := tr[txs[i].tx.txid].id]
  {
    assert txs[..i + 1] == txs[..i] + [txs[i]];
  }
}
