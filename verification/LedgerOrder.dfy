/** Why the chain order matters: were a child of a pending transaction mined first and the
 * parent only later, a spent output would be handed back to the UTXO table. No valid chain
 * does that; the exact condition for any batch is LedgerMine.UtxoKeptIff. */
module LedgerOrder {
  import opened Prelude
  import opened Ledger
  import opened LedgerFacts
  import opened LedgerInvariants
  import opened LedgerMine
  import opened LedgerSee

  /** What one batch does to the tables, without the batch itself. */
  ghost predicate MinedFacts(t: Tables, w: World, txs: seq<Mined>, t': Tables) {
    && Structure(t', w) && Advances(t.transactions, t'.transactions, txs)
    && SpentAfter(t'.transactions, w, txs, t.outputs, t'.outputs)
    && (forall s :: s in t.inputs ==> s in t'.inputs && t'.inputs[s] == t.inputs[s])
    && CoinsPut(t'.transactions, w, txs, t.inputs, t'.utxo)
    && (t'.utxo == UtxoOf(t'.outputs) <==> RespentCovered(t'.transactions, w, txs, t.outputs, t.inputs))
  }

  /** A batch of one transaction. */
  predicate Alone(txs: seq<Mined>, tx: Tx) {
    |txs| == 1 && txs[0].tx == tx
  }

  lemma {:induction false} OneMined(w: World, txs: seq<Mined>, tx: Tx)
    requires Alone(txs, tx) && tx == w(tx.txid)
    ensures (forall h :: Among(txs, h) <==> h == tx.txid) && txs != [] && Distinct(txs) && Named(w, txs)
  {
    assert txs[0].tx.txid == tx.txid;
  }

  lemma {:induction false} MinedBatch(t: Tables, w: World, blocks: seq<Block>, rpc: Rpc, t': Tables, txs: seq<Mined>)
    requires Structure(t, w) && t.utxo == UtxoOf(t.outputs) && txs == Flatten(blocks) != [] && Distinct(txs)
             && Named(w, txs)
    requires t' == Mine(t, blocks, rpc)
    ensures MinedFacts(t, w, txs, t')
  {
    MineStructure(t, w, blocks, rpc, t', txs);
    MinePutsCoins(t, w, blocks, rpc, t', txs);
    UtxoKeptIff(t, w, blocks, rpc, t', txs);
  }

  /** Output `v` of the pending `parent` is free, and the unknown `child` spends it by input `k`. */
  ghost predicate Waits(t: Tables, w: World, parent: Tx, child: Tx, k: int, v: int) {
    && parent == w(parent.txid) && child == w(child.txid) && parent.txid != child.txid
    && parent.txid in t.transactions && t.transactions[parent.txid].height.None? && child.txid !in t.transactions
    && 0 <= v < |parent.vout| && 0 <= k < |child.vin| && child.vin[k] == Spend(parent.txid, v)
    && SparesItself(parent)
    && var o := Outpoint(t.transactions[parent.txid].id, v);
       o in t.outputs && t.outputs[o].spentBy.None?
  }

  /** No transaction can spend an output of its own. */
  predicate SparesItself(tx: Tx) {
    forall i :: 0 <= i < |tx.vin| && tx.vin[i].Spend? ==> tx.vin[i].prevHash != tx.txid
  }

  /** A transaction that was not known has no outputs stored. */
  lemma {:induction false} NewOutputs(t: Tables, t1: Tables, w: World, txs: seq<Mined>, h: Hash, p: Outpoint)
    requires OutsOk(t.transactions, w, t.outputs) && IdsOk(t1.transactions, t1.nextTxId)
             && Grows(t.transactions, t1.transactions, txs)
    requires h !in t.transactions && (forall g :: Among(txs, g) <==> g == h) && p in t.outputs
    ensures !CreatedBy(t1.transactions, w, txs, p)
  {
    var g :| Creates(t.transactions, w, g, p);
    assert g != h && t1.transactions[g].id == p.txId;
  }

  /** Mining the child first is still fine: its own outputs are new. */
  lemma {:induction false} ChildFine(t: Tables, w: World, txs: seq<Mined>, t1: Tables, child: Hash)
    requires Structure(t, w) && MinedFacts(t, w, txs, t1)
    requires child !in t.transactions && forall g :: Among(txs, g) <==> g == child
    ensures t1.utxo == UtxoOf(t1.outputs)
  {
    forall p | p in t.outputs ensures !CreatedBy(t1.transactions, w, txs, p) {
      NewOutputs(t, t1, w, txs, child, p);
    }
  }

  /** The recorded spender is an input of this transaction. */
  predicate SpentBy(row: OutRow, tr: TxTable, h: Hash) {
    row.spentBy.Some? && h in tr && row.spentBy.value.txId == tr[h].id
  }

  /** The child is now the recorded spender. */
  lemma {:induction false} ChildRecorded(t: Tables, w: World, txs: seq<Mined>, t1: Tables, parent: Tx, child: Tx,
                                         k: int, v: int, o: Outpoint)
    requires MinedFacts(t, w, txs, t1) && Waits(t, w, parent, child, k, v)
             && forall g :: Among(txs, g) <==> g == child.txid
    requires o == Outpoint(t.transactions[parent.txid].id, v)
    ensures o in t1.outputs && SpentBy(t1.outputs[o], t1.transactions, child.txid)
  {
    ChildSpends(t.transactions, t1.transactions, w, txs, parent, child, k, v, o);
    assert Creates(t1.transactions, w, parent.txid, o);
  }

  lemma {:induction false} ChildSpends(tr: TxTable, tr1: TxTable, w: World, txs: seq<Mined>, parent: Tx, child: Tx,
                                       k: int, v: int, o: Outpoint)
    requires Advances(tr, tr1, txs) && child == w(child.txid) && Among(txs, child.txid)
    requires 0 <= k < |child.vin| && child.vin[k] == Spend(parent.txid, v) && parent.txid in tr
    requires o == Outpoint(tr[parent.txid].id, v)
    ensures SpentByBatch(tr1, w, txs, o)
  {
    assert Confirmed(tr1, child.txid);
    assert Spends(tr1, w, child.txid, Slot(tr1[child.txid].id, k), o);
  }

  /** Of the pending inputs that are left, none is linked to the output. */
  lemma {:induction false} NobodyWaits(t: Tables, t1: Tables, t2: Tables, w: World, child: seq<Mined>,
                                       parent: seq<Mined>, ids: set<int>, o: Outpoint)
    requires Structure(t, w) && Structure(t1, w) && Structure(t2, w)
    requires Advances(t.transactions, t1.transactions, child) && Advances(t1.transactions, t2.transactions, parent)
    requires forall s :: s in t.inputs ==> s in t1.inputs && t1.inputs[s] == t.inputs[s]
    requires o in t.outputs && t.outputs[o].spentBy.None?
    ensures o !in PendingSpends(t2.transactions, t1.inputs, ids)
  {
    forall s | s in t1.inputs && t1.inputs[s].source.Spend? && t1.inputs[s].prevId.Some?
      && IsPendingId(t2.transactions, s.txId)
      ensures Outpoint(t1.inputs[s].prevId.value, t1.inputs[s].source.prevVout) != o
    {
      var h :| h in t2.transactions && t2.transactions[h].id == s.txId && t2.transactions[h].height.None?;
      var g :| Holds(t1.transactions, w, g, s);
      assert g == h && g in t1.transactions && !Confirmed(t1.transactions, g);
      PendingInputIsOld(t.transactions, t1.transactions, t1.nextTxId, w, child, t.inputs, t1.inputs, s);
      assert RecordedAt(t.transactions, t.outputs, t.inputs, s);
    }
  }

  lemma {:induction false} ParentSpares(tr: TxTable, next: int, w: World, parent: Tx, late: seq<Mined>, o: Outpoint)
    requires IdsOk(tr, next) && parent == w(parent.txid) && (forall h :: Among(late, h) <==> h == parent.txid)
    requires parent.txid in tr && o.txId == tr[parent.txid].id && SparesItself(parent)
    ensures !SpentByBatch(tr, w, late, o)
  {
    forall h, s | Among(late, h) ensures !Spends(tr, w, h, s, o) {
    }
  }

  lemma {:induction false} PutBack(tr: TxTable, w: World, txs: seq<Mined>, ins: InTable, coins: CoinTable,
                                   outs: OutTable, outs': OutTable, o: Outpoint)
    requires CoinsPut(tr, w, txs, ins, coins) && SpentAfter(tr, w, txs, outs, outs') && OutsOk(tr, w, outs')
    requires CreatedBy(tr, w, txs, o) && o !in PendingSpends(tr, ins, BatchIds(tr, txs)) && !SpentByBatch(tr, w, txs, o)
    requires o in outs
    ensures o in coins && o in outs' && outs'[o].spentBy == outs[o].spentBy
  {
  }

  lemma {:induction false} KnownAlone(tr: TxTable, txs: seq<Mined>, h: Hash)
    requires h in tr && forall g :: Among(txs, g) <==> g == h
    ensures AllKnown(tr, txs)
  {
    forall m | m in txs ensures m.tx.txid in tr {
      assert Among(txs, m.tx.txid);
    }
  }

  /** The parent's outputs are inserted again, and nothing takes the spent one out. */
  lemma {:induction false} ParentUncovers(t: Tables, t1: Tables, t2: Tables, w: World, early: seq<Mined>,
                                          late: seq<Mined>, parent: Tx, v: int, o: Outpoint)
    requires Structure(t, w) && Structure(t1, w) && MinedFacts(t, w, early, t1) && MinedFacts(t1, w, late, t2)
    requires parent == w(parent.txid) && parent.txid in t.transactions
             && o == Outpoint(t.transactions[parent.txid].id, v)
    requires (forall h :: Among(late, h) <==> h == parent.txid) && SparesItself(parent) && 0 <= v < |parent.vout|
    requires o in t.outputs && t.outputs[o].spentBy.None? && o in t1.outputs
    ensures o in t2.utxo && o in t2.outputs && t2.outputs[o].spentBy == t1.outputs[o].spentBy
    ensures parent.txid in t2.transactions && t2.transactions[parent.txid].id == o.txId
  {
    var tr := t2.transactions;
    assert Creates(tr, w, parent.txid, o) && CreatedBy(tr, w, late, o);
    ParentSpares(tr, t2.nextTxId, w, parent, late, o);
    KnownAlone(tr, late, parent.txid);
    NobodyWaits(t, t1, t2, w, early, late, BatchIds(tr, late), o);
    PutBack(tr, w, late, t1.inputs, t2.utxo, t1.outputs, t2.outputs, o);
  }

  lemma {:induction false} FirstStep(t: Tables, w: World, rpc: Rpc, first: seq<Block>, early: seq<Mined>, child: Tx,
                                     t1: Tables)
    requires Structure(t, w) && t.utxo == UtxoOf(t.outputs) && child == w(child.txid) && child.txid !in t.transactions
    requires early == Flatten(first) && Alone(early, child) && t1 == Mine(t, first, rpc)
    ensures Structure(t1, w) && t1.utxo == UtxoOf(t1.outputs) && MinedFacts(t, w, early, t1)
  {
    OneMined(w, early, child);
    MinedBatch(t, w, first, rpc, t1, early);
    ChildFine(t, w, early, t1, child.txid);
  }

  /** The UTXO table holds output `v` of the parent, which the child is recorded to have spent. */
  ghost predicate HandedBack(t: Tables, parent: Tx, child: Tx, v: int) {
    && parent.txid in t.transactions
    && var o := Outpoint(t.transactions[parent.txid].id, v);
       o in t.utxo && o in t.outputs && SpentBy(t.outputs[o], t.transactions, child.txid)
  }

  lemma {:induction false} BothSteps(t: Tables, w: World, early: seq<Mined>, late: seq<Mined>, parent: Tx, child: Tx,
                                     k: int, v: int, t1: Tables, t2: Tables)
    requires Structure(t, w) && Structure(t1, w) && Waits(t, w, parent, child, k, v) && Alone(early, child)
             && Alone(late, parent)
    requires MinedFacts(t, w, early, t1) && MinedFacts(t1, w, late, t2)
    ensures HandedBack(t2, parent, child, v)
  {
    var o := Outpoint(t.transactions[parent.txid].id, v);
    OneMined(w, early, child);
    OneMined(w, late, parent);
    ChildRecorded(t, w, early, t1, parent, child, k, v, o);
    ParentUncovers(t, t1, t2, w, early, late, parent, v, o);
  }

  /** From any consistent index: mine a child of a pending transaction, then the parent, and
   * the UTXO table holds the output that the child has spent. */
  lemma {:induction false} ChildBeforeParent(t: Tables, w: World, rpc: Rpc, first: seq<Block>, second: seq<Block>,
                                             parent: Tx, child: Tx, k: int, v: int, t1: Tables, t2: Tables)
    requires Structure(t, w) && t.utxo == UtxoOf(t.outputs) && Waits(t, w, parent, child, k, v)
    requires Alone(Flatten(first), child) && Alone(Flatten(second), parent)
    requires t1 == Mine(t, first, rpc) && t2 == Mine(t1, second, rpc)
    ensures HandedBack(t2, parent, child, v)
  {
    FirstStep(t, w, rpc, first, Flatten(first), child, t1);
    OneMined(w, Flatten(second), parent);
    MinedBatch(t1, w, second, rpc, t2, Flatten(second));
    BothSteps(t, w, Flatten(first), Flatten(second), parent, child, k, v, t1, t2);
  }

  lemma {:induction false} SeenRows(t0: Tables, w: World, parent: Tx, rpc: Rpc, t: Tables, tr: TxTable, mid: OutTable)
    requires Structure(t0, w) && parent == w(parent.txid) && parent.txid !in t0.transactions
             && t == See(t0, parent, rpc)
    requires tr == t0.transactions[parent.txid := NewRow(t0.nextTxId, None, parent)]
    requires mid == TxOutputs(t0.nextTxId, parent.vout) + t0.outputs
    ensures t.transactions == tr && RecordedIfFree(tr, w, parent, mid, t.outputs)
    ensures forall h :: h in tr && tr[h].id == t0.nextTxId ==> h == parent.txid
  {
    var rows := TxOutputs(t0.nextTxId, parent.vout);
    SeeTables(t0, parent, rpc, tr, rows);
    SeeStructure(t0, w, parent, rpc, tr, rows);
    SeenIds(t0.transactions, t0.nextTxId, parent, tr);
  }

  lemma {:induction false} StagedFree(id: int, vout: seq<TxOut>, outs: OutTable, mid: OutTable, v: int)
    requires mid == TxOutputs(id, vout) + outs && 0 <= v < |vout| && Outpoint(id, v) !in outs
    ensures Outpoint(id, v) in mid && mid[Outpoint(id, v)].spentBy.None?
  {
    assert Outpoint(id, v) in TxOutputs(id, vout);
  }

  /** The next id has no outputs yet. */
  lemma {:induction false} FreshId(tr: TxTable, next: int, w: World, outs: OutTable, v: int)
    requires IdsOk(tr, next) && OutsOk(tr, w, outs)
    ensures Outpoint(next, v) !in outs
  {
    forall h ensures !Creates(tr, w, h, Outpoint(next, v)) {
    }
  }

  /** A transaction seen by the mempool waits with its outputs free. */
  lemma {:induction false} SeenWaits(tr0: TxTable, id: int, w: World, parent: Tx, child: Tx, k: int, v: int, t: Tables,
                                     mid: OutTable)
    requires parent == w(parent.txid) && child == w(child.txid) && parent.txid != child.txid
    requires child.txid !in tr0 && SparesItself(parent)
    requires 0 <= v < |parent.vout| && 0 <= k < |child.vin| && child.vin[k] == Spend(parent.txid, v)
    requires t.transactions == tr0[parent.txid := NewRow(id, None, parent)]
    requires RecordedIfFree(t.transactions, w, parent, mid, t.outputs)
    requires forall h :: h in t.transactions && t.transactions[h].id == id ==> h == parent.txid
    requires Outpoint(id, v) in mid && mid[Outpoint(id, v)].spentBy.None?
    ensures Waits(t, w, parent, child, k, v)
  {
    SeenFree(t.transactions, w, parent, id, mid, t.outputs, Outpoint(id, v));
  }

  lemma {:induction false} SeenIds(tr0: TxTable, next: int, parent: Tx, tr: TxTable)
    requires IdsOk(tr0, next) && tr == tr0[parent.txid := NewRow(next, None, parent)]
    ensures forall h :: h in tr && tr[h].id == next ==> h == parent.txid
  {
  }

  lemma {:induction false} SeenFree(tr: TxTable, w: World, parent: Tx, id: int, mid: OutTable, outs: OutTable,
                                    o: Outpoint)
    requires RecordedIfFree(tr, w, parent, mid, outs) && parent == w(parent.txid) && SparesItself(parent)
    requires parent.txid in tr && tr[parent.txid].id == id
             && (forall h :: h in tr && tr[h].id == id ==> h == parent.txid)
    requires o.txId == id && o in mid && o in outs && mid[o].spentBy.None?
    ensures outs[o].spentBy.None?
  {
    forall s ensures !Spends(tr, w, parent.txid, s, o) {
    }
  }

  /** On any valid index: see a parent, mine its child, then mine the parent. */
  lemma {:induction false} OutOfOrder(t0: Tables, w: World, chain: seq<Mined>, rpc: Rpc, first: seq<Block>,
                                      second: seq<Block>, parent: Tx, child: Tx, k: int, v: int, t: Tables, t1: Tables,
                                      t2: Tables)
    requires Inv(t0, w, chain) && Alone(Flatten(first), child) && Alone(Flatten(second), parent)
    requires parent == w(parent.txid) && child == w(child.txid) && parent.txid != child.txid
    requires parent.txid !in t0.transactions && child.txid !in t0.transactions && SparesItself(parent)
    requires 0 <= v < |parent.vout| && 0 <= k < |child.vin| && child.vin[k] == Spend(parent.txid, v)
    requires t == See(t0, parent, rpc) && t1 == Mine(t, first, rpc) && t2 == Mine(t1, second, rpc)
    ensures HandedBack(t2, parent, child, v) && t2.utxo != UtxoOf(t2.outputs)
  {
    SeeKeeps(t0, w, chain, parent, rpc);
    var tr := t0.transactions[parent.txid := NewRow(t0.nextTxId, None, parent)];
    var mid := TxOutputs(t0.nextTxId, parent.vout) + t0.outputs;
    SeenRows(t0, w, parent, rpc, t, tr, mid);
    FreshId(t0.transactions, t0.nextTxId, w, t0.outputs, v);
    StagedFree(t0.nextTxId, parent.vout, t0.outputs, mid, v);
    SeenWaits(t0.transactions, t0.nextTxId, w, parent, child, k, v, t, mid);
    ChildBeforeParent(t, w, rpc, first, second, parent, child, k, v, t1, t2);
  }
}
