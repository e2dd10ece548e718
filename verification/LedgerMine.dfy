/** `write_batch` keeps the invariant of the index. */
module LedgerMine {
  import opened Prelude
  import opened Rollups
  import opened Ledger
  import opened LedgerFacts
  import opened LedgerInvariants

  /** Phase 3 as the later phases see it. */
  ghost predicate Advances(tr: TxTable, tr': TxTable, txs: seq<Mined>) {
    && Grows(tr, tr', txs)
    && (forall h :: Among(txs, h) ==> Confirmed(tr', h))
    && (forall h :: Confirmed(tr, h) ==> Confirmed(tr', h))
    && (forall h :: Confirmed(tr', h) ==> Confirmed(tr, h) || Among(txs, h))
  }

  lemma {:induction false} MineAdvances(tr: TxTable, next: int, txs: seq<Mined>)
    requires Distinct(txs)
    ensures Advances(tr, ConfirmTxs(tr, next, txs), txs)
  {
    ConfirmTxsRows(tr, next, txs);
  }

  /** The batch spends outpoint `o`. */
  ghost predicate SpentByBatch(tr: TxTable, w: World, txs: seq<Mined>, o: Outpoint) {
    exists h, s :: Among(txs, h) && Spends(tr, w, h, s, o)
  }

  ghost predicate SpenderInBatch(tr: TxTable, w: World, txs: seq<Mined>, s: Slot, o: Outpoint) {
    exists h :: Among(txs, h) && Spends(tr, w, h, s, o)
  }

  /** Spenders after phase 7b: the batch's own where it spends, otherwise as before. */
  ghost predicate SpentAfter(tr: TxTable, w: World, txs: seq<Mined>, before: OutTable, after: OutTable) {
    forall o :: o in after ==>
      if SpentByBatch(tr, w, txs, o)
      then after[o].spentBy.Some? && SpenderInBatch(tr, w, txs, after[o].spentBy.value, o)
      else after[o].spentBy == if o in before then before[o].spentBy else None
  }

  lemma {:induction false} TargetsAreSpent(tr: TxTable, next: int, w: World, txs: seq<Mined>, o: Outpoint)
    requires IdsOk(tr, next) && Named(w, txs) && AllKnown(tr, txs)
    ensures o in Targets(Marks(tr, txs)) <==> SpentByBatch(tr, w, txs, o)
  {
    var marks := Marks(tr, txs);
    if o in Targets(marks) {
      var i :| 0 <= i < |marks| && marks[i].outpoint == o;
      MarksOfBatch(tr, next, w, txs, marks[i]);
      var h :| Among(txs, h) && Spends(tr, w, h, marks[i].spender, o);
    }
    if h, s :| Among(txs, h) && Spends(tr, w, h, s, o) {
      MarksOfBatch(tr, next, w, txs, Mark(o, s));
      var i :| 0 <= i < |marks| && marks[i] == Mark(o, s);
      assert marks[i].outpoint == o;
    }
  }

  lemma {:induction false} MarkBatch(tr: TxTable, next: int, w: World, rows: OutTable, outs: OutTable, txs: seq<Mined>)
    requires IdsOk(tr, next) && Named(w, txs) && AllKnown(tr, txs)
    requires rows == StagedOutputs(tr, txs)
    ensures SpentAfter(tr, w, txs, outs, MarkSpent(rows + outs, Marks(tr, txs), true))
  {
    var marks := Marks(tr, txs);
    var after := MarkSpent(rows + outs, marks, true);
    forall o | o in after
      ensures if SpentByBatch(tr, w, txs, o)
              then after[o].spentBy.Some? && SpenderInBatch(tr, w, txs, after[o].spentBy.value, o)
              else after[o].spentBy == if o in outs then outs[o].spentBy else None
    {
      TargetsAreSpent(tr, next, w, txs, o);
      ChosenIsStaged(marks, o);
      if SpentByBatch(tr, w, txs, o) {
        MarksOfBatch(tr, next, w, txs, Mark(o, Chosen(marks, o).value));
      } else {
        StagedOutput(tr, next, w, txs, o);
      }
    }
  }

  /** Spenders recorded before the batch are still recorded, or overridden by the batch. */
  lemma {:induction false} MineSpendersReal(tr: TxTable, tr': TxTable, next: int, w: World, txs: seq<Mined>,
                                            outs: OutTable, outs': OutTable, ins: InTable, ins': InTable)
    requires IdsOk(tr', next) && Advances(tr, tr', txs) && SpentAfter(tr', w, txs, outs, outs')
    requires InsOk(tr', w, ins') && SpendersReal(tr, outs, ins)
    requires forall s :: s in ins ==> s in ins' && ins'[s] == ins[s]
    ensures SpendersReal(tr', outs', ins')
  {
    forall o | o in outs' && outs'[o].spentBy.Some?
      ensures SpenderOf(tr', ins', outs'[o].spentBy.value, o)
    {
      var s := outs'[o].spentBy.value;
      if SpentByBatch(tr', w, txs, o) {
        var h :| Among(txs, h) && Spends(tr', w, h, s, o);
        assert Holds(tr', w, h, s) && Confirmed(tr', h);
      } else {
        assert SpenderOf(tr, ins, s, o);
        if IsPendingId(tr', s.txId) {
          var h :| h in tr' && tr'[h].id == s.txId && tr'[h].height.None?;
          assert h in tr && tr[h].id == s.txId && !Confirmed(tr, h);
        }
      }
    }
  }

  lemma {:induction false} PendingInputIsOld(tr: TxTable, tr': TxTable, next: int, w: World, txs: seq<Mined>,
                                             ins: InTable, ins': InTable, s: Slot)
    requires IdsOk(tr', next) && Advances(tr, tr', txs)
    requires InsOk(tr, w, ins) && InsOk(tr', w, ins')
    requires s in ins' && IsPendingId(tr', s.txId)
    ensures s in ins && IsPendingId(tr, s.txId)
  {
    var h :| h in tr' && tr'[h].id == s.txId && tr'[h].height.None?;
    var g :| Holds(tr', w, g, s);
    assert g == h && h in tr && !Confirmed(tr, h);
    assert tr[h].id == s.txId && tr[h].height.None?;
    assert Holds(tr, w, h, s);
  }

  lemma {:induction false} LinkedOutputIsOld(tr: TxTable, tr': TxTable, next: int, w: World, txs: seq<Mined>,
                                             outs: OutTable, outs': OutTable, g: Hash, o: Outpoint)
    requires IdsOk(tr', next) && Grows(tr, tr', txs)
    requires OutsOk(tr, w, outs) && OutsOk(tr', w, outs')
    requires g in tr && tr[g].id == o.txId && o in outs'
    ensures o in outs && Creates(tr, w, g, o)
  {
    var f :| Creates(tr', w, f, o);
    assert f == g;
    assert Creates(tr, w, g, o);
  }

  lemma {:induction false} MinePendingRecorded(tr: TxTable, tr': TxTable, next: int, w: World, txs: seq<Mined>,
                                               outs: OutTable, outs': OutTable, ins: InTable, ins': InTable)
    requires IdsOk(tr', next) && Advances(tr, tr', txs) && SpentAfter(tr', w, txs, outs, outs')
    requires OutsOk(tr, w, outs) && OutsOk(tr', w, outs')
    requires InsOk(tr, w, ins) && InsOk(tr', w, ins') && PendingRecorded(tr, outs, ins)
    requires forall s :: s in ins ==> s in ins' && ins'[s] == ins[s]
    ensures PendingRecorded(tr', outs', ins')
  {
    forall s ensures RecordedAt(tr', outs', ins', s) {
      if s in ins' && ins'[s].source.Spend? && ins'[s].prevId.Some? && IsPendingId(tr', s.txId) {
        PendingInputIsOld(tr, tr', next, w, txs, ins, ins', s);
        var o := Outpoint(ins[s].prevId.value, ins[s].source.prevVout);
        if o in outs' {
          StillRecorded(tr, tr', next, w, txs, outs, outs', ins, s, o);
        }
      }
    }
  }

  lemma {:induction false} StillRecorded(tr: TxTable, tr': TxTable, next: int, w: World, txs: seq<Mined>,
                                         outs: OutTable, outs': OutTable, ins: InTable, s: Slot, o: Outpoint)
    requires IdsOk(tr', next) && Advances(tr, tr', txs) && SpentAfter(tr', w, txs, outs, outs')
    requires OutsOk(tr, w, outs) && OutsOk(tr', w, outs') && InsOk(tr, w, ins) && PendingRecorded(tr, outs, ins)
    requires s in ins && ins[s].source.Spend? && ins[s].prevId.Some? && IsPendingId(tr, s.txId)
    requires o == Outpoint(ins[s].prevId.value, ins[s].source.prevVout) && o in outs'
    ensures outs'[o].spentBy.Some?
  {
    LinkedOutputIsOld(tr, tr', next, w, txs, outs, outs', ins[s].source.prevHash, o);
    assert RecordedAt(tr, outs, ins, s);
  }

  /** Two chain inputs on one outpoint are the same input. */
  lemma {:induction false} SameSpender(tr: TxTable, next: int, w: World, chain: seq<Mined>, g: Hash, s: Slot, h: Hash,
                                       r: Slot, o: Outpoint)
    requires IdsOk(tr, next) && NoDoubleSpend(w, chain) && Among(chain, g) && Among(chain, h)
    requires Spends(tr, w, g, s, o) && Spends(tr, w, h, r, o)
    ensures g == h && s == r
  {
    assert w(g).vin[s.vin] == w(h).vin[r.vin];
  }

  lemma {:induction false} MineConfirmedRecorded(tr: TxTable, tr': TxTable, next: int, w: World, chain: seq<Mined>,
                                                 txs: seq<Mined>, outs: OutTable, outs': OutTable)
    requires IdsOk(tr', next) && Advances(tr, tr', txs) && SpentAfter(tr', w, txs, outs, outs')
    requires OutsOk(tr, w, outs) && OutsOk(tr', w, outs')
    requires ValidChain(w, chain + txs) && Follows(tr, chain)
    requires ConfirmedRecorded(tr, w, outs)
    ensures ConfirmedRecorded(tr', w, outs')
  {
    AmongConcat(chain, txs);
    forall h, s, o | Confirmed(tr', h) && Spends(tr', w, h, s, o) && o in outs'
                     && Confirmed(tr', w(h).vin[s.vin].prevHash)
      ensures outs'[o].spentBy == Some(s)
    {
      var g := w(h).vin[s.vin].prevHash;
      if SpentByBatch(tr', w, txs, o) {
        var r := outs'[o].spentBy.value;
        var f :| Among(txs, f) && Spends(tr', w, f, r, o);
        SameSpender(tr', next, w, chain + txs, h, s, f, r, o);
      } else {
        assert Confirmed(tr, h) && !Among(txs, h);
        assert Confirmed(tr, g) by {
          if !Confirmed(tr, g) {
            ParentNotLater(w, chain, txs, h, s.vin);
            assert false;
          }
        }
        LinkedOutputIsOld(tr, tr', next, w, txs, outs, outs', g, o);
        assert Spends(tr, w, h, s, o);
      }
    }
  }

  /** A chain transaction's parent is not a transaction mined after it. */
  lemma {:induction false} ParentNotLater(w: World, chain: seq<Mined>, txs: seq<Mined>, h: Hash, k: int)
    requires ValidChain(w, chain + txs) && Among(chain, h) && 0 <= k < |w(h).vin| && w(h).vin[k].Spend?
    ensures !Among(txs, w(h).vin[k].prevHash)
  {
    var all := chain + txs;
    var i :| 0 <= i < |chain| && chain[i].tx.txid == h;
    assert all[i] == chain[i] && all[i].tx == w(h);
    forall j | 0 <= j < |txs| ensures txs[j].tx.txid != w(h).vin[k].prevHash {
      assert all[|chain| + j] == txs[j];
    }
  }

  /** A batch transaction recorded as spender before the batch does spend the outpoint. */
  lemma {:induction false} RecordedIsSpent(tr: TxTable, tr': TxTable, next: int, w: World, txs: seq<Mined>,
                                           ins: InTable, h: Hash, s: Slot, o: Outpoint)
    requires IdsOk(tr', next) && Advances(tr, tr', txs) && InsOk(tr, w, ins)
    requires SpenderOf(tr, ins, s, o) && Among(txs, h) && tr'[h].id == s.txId
    ensures SpentByBatch(tr', w, txs, o)
  {
    var f :| Holds(tr, w, f, s);
    assert f == h;
    assert Spends(tr', w, h, s, o);
  }

  // ------------------------------------------------------------ the UTXO table

  /** Every output the batch re-inserts that already has a spender is taken out
   * again: by a pending input still linked to it, or by the batch itself. */
  ghost predicate RespentCovered(tr: TxTable, w: World, txs: seq<Mined>, outs: OutTable, ins: InTable) {
    forall o :: o in outs && outs[o].spentBy.Some? && CreatedBy(tr, w, txs, o) ==>
      o in PendingSpends(tr, ins, BatchIds(tr, txs)) || SpentByBatch(tr, w, txs, o)
  }

  /** The UTXO table agrees with its slow definition at one outpoint. */
  ghost predicate AgreeAt(coins: CoinTable, outs: OutTable, o: Outpoint) {
    && (o in coins <==> o in outs && outs[o].spentBy.None?)
    && (o in coins ==> coins[o] == Coin(outs[o].address, outs[o].value))
  }

  lemma {:induction false} AgreeEverywhere(coins: CoinTable, outs: OutTable)
    ensures (forall o :: AgreeAt(coins, outs, o)) <==> coins == UtxoOf(outs)
  {
    if forall o :: AgreeAt(coins, outs, o) {
      forall o ensures (o in coins <==> o in UtxoOf(outs)) && (o in coins ==> coins[o] == UtxoOf(outs)[o]) {
        assert AgreeAt(coins, outs, o);
      }
    }
  }

  lemma {:induction false} MineUtxoAt(tr: TxTable, next: int, w: World, txs: seq<Mined>, rows: OutTable, outs: OutTable,
                                      outs': OutTable, ins: InTable, o: Outpoint)
    requires IdsOk(tr, next) && Named(w, txs) && AllKnown(tr, txs)
    requires rows == StagedOutputs(tr, txs) && outs' == MarkSpent(rows + outs, Marks(tr, txs), true)
    requires SpentAfter(tr, w, txs, outs, outs') && PendingRecorded(tr, outs', ins)
    requires o in rows && o in outs ==> Coin(rows[o].address, rows[o].value) == Coin(outs[o].address, outs[o].value)
    ensures AgreeAt(MinedCoins(tr, rows, UtxoOf(outs), ins, txs), outs', o) <==>
            (o in outs && outs[o].spentBy.Some? && CreatedBy(tr, w, txs, o) ==>
               o in PendingSpends(tr, ins, BatchIds(tr, txs)) || SpentByBatch(tr, w, txs, o))
  {
    StagedOutput(tr, next, w, txs, o);
    TargetsAreSpent(tr, next, w, txs, o);
    var pending := PendingSpends(tr, ins, BatchIds(tr, txs));
    if o in pending && o in outs' {
      PendingSpendIsRecorded(tr, outs', ins, BatchIds(tr, txs), o);
    }
    CoinAgrees(rows, outs, outs', pending, Targets(Marks(tr, txs)), o);
  }

  lemma {:induction false} PendingSpendIsRecorded(tr: TxTable, outs: OutTable, ins: InTable, ids: set<int>, o: Outpoint)
    requires PendingRecorded(tr, outs, ins) && o in PendingSpends(tr, ins, ids) && o in outs
    ensures outs[o].spentBy.Some?
  {
    var s :| s in ins && ins[s].source.Spend? && ins[s].prevId.Some? && IsPendingId(tr, s.txId)
             && o == Outpoint(ins[s].prevId.value, ins[s].source.prevVout);
    assert RecordedAt(tr, outs, ins, s);
  }

  /** One outpoint through phases 5, 5b and 7b. */
  lemma {:induction false} CoinAgrees(rows: OutTable, outs: OutTable, outs': OutTable, pending: set<Outpoint>,
                                      targets: set<Outpoint>, o: Outpoint)
    requires o in outs' <==> o in rows || o in outs
    requires o in outs' ==> SameCoin(outs'[o], (rows + outs)[o])
    requires o in outs' ==> (o in targets ==> outs'[o].spentBy.Some?)
                            && (o !in targets ==> outs'[o].spentBy == if o in outs then outs[o].spentBy else None)
    requires o in outs' && o in pending ==> outs'[o].spentBy.Some?
    requires o in rows && o in outs ==> SameCoin(rows[o], outs[o])
    ensures AgreeAt(CoinsOf(rows) + UtxoOf(outs) - pending - targets, outs', o) <==>
            (o in outs && outs[o].spentBy.Some? && o in rows ==> o in pending || o in targets)
  {
  }

  predicate SameCoin(a: OutRow, b: OutRow) {
    a.address == b.address && a.value == b.value
  }

  /** The exact condition under which a batch leaves the UTXO table equal to its
   * slow definition; no assumption on the order of blocks is made. */
  lemma {:induction false} MineUtxoIff(tr: TxTable, next: int, w: World, txs: seq<Mined>, rows: OutTable,
                                       outs: OutTable, outs': OutTable, ins: InTable)
    requires IdsOk(tr, next) && Named(w, txs) && AllKnown(tr, txs)
    requires rows == StagedOutputs(tr, txs) && outs' == MarkSpent(rows + outs, Marks(tr, txs), true)
    requires SpentAfter(tr, w, txs, outs, outs') && PendingRecorded(tr, outs', ins)
    requires OutsOk(tr, w, rows + outs)
    ensures MinedCoins(tr, rows, UtxoOf(outs), ins, txs) == UtxoOf(outs') <==> RespentCovered(tr, w, txs, outs, ins)
  {
    var coins := MinedCoins(tr, rows, UtxoOf(outs), ins, txs);
    AgreeEverywhere(coins, outs');
    forall o
      ensures AgreeAt(coins, outs', o) <==>
              (o in outs && outs[o].spentBy.Some? && CreatedBy(tr, w, txs, o) ==>
                 o in PendingSpends(tr, ins, BatchIds(tr, txs)) || SpentByBatch(tr, w, txs, o))
    {
      StagedOutput(tr, next, w, txs, o);
      if o in rows && o in outs {
        var h :| Among(txs, h) && Creates(tr, w, h, o);
        assert SameOut((rows + outs)[o], w(h).vout[o.vout]);
      }
      MineUtxoAt(tr, next, w, txs, rows, outs, outs', ins, o);
    }
  }

  /** On a valid chain the condition always holds: a spender recorded on an output
   * that is mined now is pending and linked, or mined now as well. */
  lemma {:induction false} ValidIsCovered(tr: TxTable, tr': TxTable, next: int, w: World, chain: seq<Mined>,
                                          txs: seq<Mined>, outs: OutTable, ins: InTable)
    requires IdsOk(tr', next) && Advances(tr, tr', txs) && Follows(tr, chain) && ValidChain(w, chain + txs)
    requires InsOk(tr, w, ins) && SpendersReal(tr, outs, ins)
    ensures RespentCovered(tr', w, txs, outs, ins)
  {
    TailFacts(w, chain, txs);
    forall o | o in outs && outs[o].spentBy.Some? && CreatedBy(tr', w, txs, o)
      ensures o in PendingSpends(tr', ins, BatchIds(tr', txs)) || SpentByBatch(tr', w, txs, o)
    {
      var s := outs[o].spentBy.value;
      assert SpenderOf(tr, ins, s, o);
      var g :| Among(txs, g) && Creates(tr', w, g, o);
      var f :| Holds(tr, w, f, s);
      if Among(txs, f) {
        RecordedIsSpent(tr, tr', next, w, txs, ins, f, s, o);
      } else if Confirmed(tr, f) {
        ParentNotLater(w, chain, txs, f, s.vin);
        assert false;
      } else {
        assert tr[f].id == s.txId && tr[f].height.None?;
        assert tr'[f].id == s.txId && tr'[f].height.None?;
        assert IsPendingId(tr', s.txId) && IsPendingId(tr, s.txId);
        var i :| 0 <= i < |txs| && txs[i].tx.txid == g;
        assert tr'[txs[i].tx.txid].id == o.txId;
        assert o.txId in BatchIds(tr', txs);
        assert o == Outpoint(ins[s].prevId.value, ins[s].source.prevVout);
      }
    }
  }

  // ----------------------------------------------------------------- main step

  lemma {:induction false} MineIsMineTxs(t: Tables, blocks: seq<Block>, rpc: Rpc, tr: TxTable, txs: seq<Mined>,
                                         headers: Tables, t': Tables)
    requires txs == Flatten(blocks) != [] && tr == ConfirmTxs(t.transactions, t.nextTxId, txs) && AllKnown(tr, txs)
    requires headers == t.(blocks := PutBlocks(t.blocks, blocks)) && t' == Mine(t, blocks, rpc)
    ensures t' == MineTxs(headers, tr, blocks, txs, rpc)
  {
  }

  lemma {:induction false} MineTxsLedger(t: Tables, tr: TxTable, blocks: seq<Block>, txs: seq<Mined>, rpc: Rpc,
                                         rows: OutTable, t': Tables)
    requires AllKnown(tr, txs) && rows == StagedOutputs(tr, txs) && t' == MineTxs(t, tr, blocks, txs, rpc)
    ensures t'.transactions == tr && t'.nextTxId == t.nextTxId + |txs|
    ensures t'.outputs == MarkSpent(rows + t.outputs, Marks(tr, txs), true)
    ensures t'.utxo == MinedCoins(tr, rows, t.utxo, t.inputs, txs)
  {
  }

  lemma {:induction false} MineTxsInputs(t: Tables, tr: TxTable, blocks: seq<Block>, txs: seq<Mined>, rpc: Rpc,
                                         rows: OutTable, t': Tables)
    requires AllKnown(tr, txs) && rows == StagedOutputs(tr, txs) && t' == MineTxs(t, tr, blocks, txs, rpc)
    ensures t'.inputs == StagedInputs(tr, rows + t.outputs, rpc, txs) + t.inputs
  {
  }

  lemma {:induction false} MineTxsRollups(t: Tables, tr: TxTable, blocks: seq<Block>, txs: seq<Mined>, rpc: Rpc,
                                          rows: OutTable, t': Tables)
    requires AllKnown(tr, txs) && rows == StagedOutputs(tr, txs) && t' == MineTxs(t, tr, blocks, txs, rpc)
    ensures t'.rollups == MinedRollups(t.rollups, tr, rows + t.outputs, rpc, blocks, txs)
  {
  }

  lemma {:induction false} MineTxsAddressTxs(t: Tables, tr: TxTable, blocks: seq<Block>, txs: seq<Mined>, rpc: Rpc,
                                             rows: OutTable, t': Tables)
    requires AllKnown(tr, txs) && rows == StagedOutputs(tr, txs) && t' == MineTxs(t, tr, blocks, txs, rpc)
    ensures t'.addressTxs == StagedAddressTxs(tr, rows + t.outputs, rpc, txs) + t.addressTxs
  {
  }

  lemma {:induction false} MineTables(t: Tables, blocks: seq<Block>, rpc: Rpc, t': Tables, tr: TxTable, txs: seq<Mined>,
                                      rows: OutTable, headers: Tables)
    requires txs == Flatten(blocks) != [] && t' == Mine(t, blocks, rpc)
    requires tr == ConfirmTxs(t.transactions, t.nextTxId, txs) && AllKnown(tr, txs) && rows == StagedOutputs(tr, txs)
    requires headers == t.(blocks := PutBlocks(t.blocks, blocks))
    ensures t'.transactions == tr && t'.nextTxId == t.nextTxId + |txs|
    ensures t'.outputs == MarkSpent(rows + t.outputs, Marks(tr, txs), true)
    ensures t'.inputs == StagedInputs(tr, rows + t.outputs, rpc, txs) + t.inputs
    ensures t'.utxo == MinedCoins(tr, rows, t.utxo, t.inputs, txs)
  {
    MineIsMineTxs(t, blocks, rpc, tr, txs, headers, t');
    MineTxsLedger(headers, tr, blocks, txs, rpc, rows, t');
    MineTxsInputs(headers, tr, blocks, txs, rpc, rows, t');
  }

  lemma {:induction false} BatchStage(t: Tables, txs: seq<Mined>) returns (tr: TxTable, rows: OutTable)
    ensures tr == ConfirmTxs(t.transactions, t.nextTxId, txs)
    ensures AllKnown(tr, txs) && rows == StagedOutputs(tr, txs)
  {
    tr := ConfirmTxs(t.transactions, t.nextTxId, txs);
    ConfirmedAreKnown(t.transactions, t.nextTxId, txs);
    rows := StagedOutputs(tr, txs);
  }

  /** The tables a batch leaves, and the rows it stages. */
  lemma {:induction false} BatchRows(t: Tables, blocks: seq<Block>, rpc: Rpc, t': Tables, txs: seq<Mined>)
    returns (tr: TxTable, rows: OutTable)
    requires txs == Flatten(blocks) != [] && t' == Mine(t, blocks, rpc)
    ensures tr == ConfirmTxs(t.transactions, t.nextTxId, txs)
    ensures AllKnown(tr, txs) && rows == StagedOutputs(tr, txs)
    ensures t'.transactions == tr && t'.nextTxId == t.nextTxId + |txs|
    ensures t'.outputs == MarkSpent(rows + t.outputs, Marks(tr, txs), true)
    ensures t'.inputs == StagedInputs(tr, rows + t.outputs, rpc, txs) + t.inputs
    ensures t'.utxo == MinedCoins(tr, rows, t.utxo, t.inputs, txs)
  {
    tr, rows := BatchStage(t, txs);
    var headers := t.(blocks := PutBlocks(t.blocks, blocks));
    MineTables(t, blocks, rpc, t', tr, txs, rows, headers);
  }

  /** The structural part needs only distinct, well-named transactions. */
  lemma {:induction false} MineStructure(t: Tables, w: World, blocks: seq<Block>, rpc: Rpc, t': Tables, txs: seq<Mined>)
    requires Structure(t, w) && t' == Mine(t, blocks, rpc) && txs == Flatten(blocks) != []
    requires Distinct(txs) && Named(w, txs)
    ensures Structure(t', w)
    ensures Advances(t.transactions, t'.transactions, txs)
    ensures SpentAfter(t'.transactions, w, txs, t.outputs, t'.outputs)
    ensures forall s :: s in t.inputs ==> s in t'.inputs && t'.inputs[s] == t.inputs[s]
  {
    var tr, next' := t.transactions, t'.nextTxId;
    var tr', rows := BatchRows(t, blocks, rpc, t', txs);
    ConfirmTxsIds(tr, t.nextTxId, txs);
    MineAdvances(tr, t.nextTxId, txs);
    MineOuts(tr, t.nextTxId, w, t.outputs, txs);
    MarkOuts(tr', w, rows + t.outputs, Marks(tr', txs), true);
    MineIns(tr, t.nextTxId, w, rows + t.outputs, rpc, t.inputs, txs);
    MarkBatch(tr', next', w, rows, t.outputs, txs);
    MineSpendersReal(tr, tr', next', w, txs, t.outputs, t'.outputs, t.inputs, t'.inputs);
    MinePendingRecorded(tr, tr', next', w, txs, t.outputs, t'.outputs, t.inputs, t'.inputs);
  }

  /** For any batch at all on a consistent index: the UTXO table stays the set of
   * unspent outputs exactly when no re-inserted output keeps an old spender. */
  lemma {:induction false} UtxoKeptIff(t: Tables, w: World, blocks: seq<Block>, rpc: Rpc, t': Tables, txs: seq<Mined>)
    requires Structure(t, w) && t.utxo == UtxoOf(t.outputs)
    requires t' == Mine(t, blocks, rpc) && txs == Flatten(blocks) != []
    requires Distinct(txs) && Named(w, txs)
    ensures t'.utxo == UtxoOf(t'.outputs) <==> RespentCovered(t'.transactions, w, txs, t.outputs, t.inputs)
  {
    var tr', rows := BatchRows(t, blocks, rpc, t', txs);
    MineStructure(t, w, blocks, rpc, t', txs);
    ConfirmTxsIds(t.transactions, t.nextTxId, txs);
    MineOuts(t.transactions, t.nextTxId, w, t.outputs, txs);
    forall s ensures RecordedAt(tr', t'.outputs, t.inputs, s) {
      assert RecordedAt(tr', t'.outputs, t'.inputs, s);
    }
    MineUtxoIff(tr', t'.nextTxId, w, txs, rows, t.outputs, t'.outputs, t.inputs);
  }

  /** What the batch creates and nothing takes out is in the UTXO table. */
  ghost predicate CoinsPut(tr: TxTable, w: World, txs: seq<Mined>, ins: InTable, coins: CoinTable) {
    forall o :: CreatedBy(tr, w, txs, o) && o !in PendingSpends(tr, ins, BatchIds(tr, txs))
      && !SpentByBatch(tr, w, txs, o)
      ==> o in coins
  }

  lemma {:induction false} MinePutsCoins(t: Tables, w: World, blocks: seq<Block>, rpc: Rpc, t': Tables, txs: seq<Mined>)
    requires Structure(t, w) && t' == Mine(t, blocks, rpc) && txs == Flatten(blocks) != []
    requires Distinct(txs) && Named(w, txs)
    ensures CoinsPut(t'.transactions, w, txs, t.inputs, t'.utxo)
  {
    var tr', rows := BatchRows(t, blocks, rpc, t', txs);
    ConfirmTxsIds(t.transactions, t.nextTxId, txs);
    forall o ensures o in rows <==> CreatedBy(tr', w, txs, o) {
      StagedOutput(tr', t'.nextTxId, w, txs, o);
    }
    forall o ensures o in Targets(Marks(tr', txs)) <==> SpentByBatch(tr', w, txs, o) {
      TargetsAreSpent(tr', t'.nextTxId, w, txs, o);
    }
  }

  /** `write_batch` extends the chain and keeps every invariant. */
  lemma {:induction false} MineKeeps(t: Tables, w: World, chain: seq<Mined>, blocks: seq<Block>, rpc: Rpc, t': Tables,
                                     txs: seq<Mined>)
    requires Inv(t, w, chain) && Extends(w, chain, txs)
    requires t' == Mine(t, blocks, rpc) && txs == Flatten(blocks)
    ensures Inv(t', w, chain + txs)
  {
    if txs == [] {
      assert chain + txs == chain;
    } else {
      var tr := t.transactions;
      TailFacts(w, chain, txs);
      MineStructure(t, w, blocks, rpc, t', txs);
      var tr', rows := BatchRows(t, blocks, rpc, t', txs);
      MineFollows(tr, t.nextTxId, w, chain, txs);
      MineConfirmedRecorded(tr, tr', t'.nextTxId, w, chain, txs, t.outputs, t'.outputs);
      ValidIsCovered(tr, tr', t'.nextTxId, w, chain, txs, t.outputs, t.inputs);
      UtxoKeptIff(t, w, blocks, rpc, t', txs);
    }
  }
}
