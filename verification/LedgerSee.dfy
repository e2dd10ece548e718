/** `index_pending_transaction` keeps the invariant of the index, for any mempool
 * transaction: conflicting, orphaned or already known. */
module LedgerSee {
  import opened Prelude
  import opened Rollups
  import opened Ledger
  import opened LedgerFacts
  import opened LedgerInvariants

  /** The pending row takes the next id; nothing else changes. */
  ghost predicate Admits(tr: TxTable, tr': TxTable, next: int, tx: Tx) {
    tx.txid !in tr && tr' == tr[tx.txid := NewRow(next, None, tx)]
  }

  lemma {:induction false} SeeIds(tr: TxTable, tr': TxTable, next: int, w: World, tx: Tx, id: int)
    requires IdsOk(tr, next) && Admits(tr, tr', next, tx)
    ensures IdsOk(tr', next + 1)
    ensures forall h :: Confirmed(tr', h) <==> Confirmed(tr, h)
    ensures IsConfirmedId(tr', id) <==> IsConfirmedId(tr, id)
    ensures IsPendingId(tr', id) <==> IsPendingId(tr, id) || id == next
  {
    if h :| Confirmed(tr, h) && tr[h].id == id {
      assert Confirmed(tr', h) && tr'[h].id == id;
    }
    if h :| h in tr && tr[h].id == id && tr[h].height.None? {
      assert h in tr' && tr'[h].id == id && tr'[h].height.None?;
    }
    assert tx.txid in tr' && tr'[tx.txid].id == next && tr'[tx.txid].height.None?;
  }

  lemma {:induction false} SeeOuts(tr: TxTable, tr': TxTable, next: int, w: World, tx: Tx, outs: OutTable)
    requires IdsOk(tr, next) && Admits(tr, tr', next, tx) && tx == w(tx.txid) && OutsOk(tr, w, outs)
    ensures OutsOk(tr', w, TxOutputs(next, tx.vout) + outs)
    ensures forall o :: o in TxOutputs(next, tx.vout) ==> o !in outs
  {
    var outs' := TxOutputs(next, tx.vout) + outs;
    forall h, o | Creates(tr', w, h, o) ensures o in outs' && SameOut(outs'[o], w(h).vout[o.vout]) {
      if h == tx.txid {
        assert o == Outpoint(next, o.vout);
      } else {
        assert Creates(tr, w, h, o);
      }
    }
    forall o | o in outs' ensures exists h :: Creates(tr', w, h, o) {
      if o in outs {
        var h :| Creates(tr, w, h, o);
        assert Creates(tr', w, h, o);
      } else {
        assert Creates(tr', w, tx.txid, o);
      }
    }
  }

  lemma {:induction false} SeeIns(tr: TxTable, tr': TxTable, next: int, w: World, tx: Tx, outs: OutTable, rpc: Rpc,
                                  ins: InTable)
    requires IdsOk(tr, next) && Admits(tr, tr', next, tx) && tx == w(tx.txid) && InsOk(tr, w, ins)
    ensures InsOk(tr', w, TxInputs(next, tx.vin, Resolve(tr', outs, rpc, tx)) + ins)
    ensures forall s :: s in TxInputs(next, tx.vin, Resolve(tr', outs, rpc, tx)) ==> s !in ins
  {
    var ins' := TxInputs(next, tx.vin, Resolve(tr', outs, rpc, tx)) + ins;
    forall h, s | Holds(tr', w, h, s) ensures s in ins' && ins'[s].source == w(h).vin[s.vin] {
      if h == tx.txid {
        assert s == Slot(next, s.vin);
      } else {
        assert Holds(tr, w, h, s);
      }
    }
    forall s | s in ins'
      ensures exists h :: Holds(tr', w, h, s)
      ensures ins'[s].prevId.Some? ==> ins'[s].source.Spend? && IdOf(tr', ins'[s].source.prevHash) == ins'[s].prevId
    {
      if s in ins {
        var h :| Holds(tr, w, h, s);
        assert Holds(tr', w, h, s);
      } else {
        assert Holds(tr', w, tx.txid, s);
      }
    }
  }

  /** The pending transaction becomes the spender exactly where there was none. */
  ghost predicate RecordedIfFree(tr: TxTable, w: World, tx: Tx, before: OutTable, after: OutTable) {
    && (forall o :: o in before <==> o in after)
    && (forall o :: o in before ==>
          if before[o].spentBy.None? && (exists s :: Spends(tr, w, tx.txid, s, o))
          then after[o].spentBy.Some? && Spends(tr, w, tx.txid, after[o].spentBy.value, o)
          else after[o].spentBy == before[o].spentBy)
  }

  lemma {:induction false} SeeTarget(tr: TxTable, id: int, w: World, tx: Tx, marks: seq<Mark>, o: Outpoint)
    requires tx.txid in tr && tr[tx.txid].id == id && tx == w(tx.txid) && marks == MarksUpTo(tr, id, tx.vin)
    ensures o in Targets(marks) <==> exists s :: Spends(tr, w, tx.txid, s, o)
    ensures Chosen(marks, o).Some? <==> o in Targets(marks)
    ensures Chosen(marks, o).Some? ==> Spends(tr, w, tx.txid, Chosen(marks, o).value, o)
  {
    ChosenIsStaged(marks, o);
    if Chosen(marks, o).Some? {
      var s := Chosen(marks, o).value;
      MarksOfOne(tr, id, tx.vin, Mark(o, s));
      var k :| 0 <= k < |tx.vin| && tx.vin[k].Spend? && tx.vin[k].prevHash in tr
               && Mark(o, s) == Mark(Outpoint(tr[tx.vin[k].prevHash].id, tx.vin[k].prevVout), Slot(id, k));
      assert Spends(tr, w, tx.txid, s, o);
    }
    forall s | Spends(tr, w, tx.txid, s, o) ensures o in Targets(marks) {
      SpendIsMarked(tr, id, w, tx, marks, s, o);
    }
  }

  lemma {:induction false} SpendIsMarked(tr: TxTable, id: int, w: World, tx: Tx, marks: seq<Mark>, s: Slot, o: Outpoint)
    requires tx.txid in tr && tr[tx.txid].id == id && tx == w(tx.txid) && marks == MarksUpTo(tr, id, tx.vin)
    requires Spends(tr, w, tx.txid, s, o)
    ensures o in Targets(marks)
  {
    var m := Mark(o, Slot(id, s.vin));
    assert tx.vin[s.vin].Spend?;
    MarksOfOne(tr, id, tx.vin, m);
    var i :| 0 <= i < |marks| && marks[i] == m;
    assert marks[i].outpoint == o;
  }

  lemma {:induction false} SeeMarks(tr: TxTable, w: World, tx: Tx, outs: OutTable)
    requires tx.txid in tr && tx == w(tx.txid)
    ensures RecordedIfFree(tr, w, tx, outs, MarkSpent(outs, MarksUpTo(tr, tr[tx.txid].id, tx.vin), false))
  {
    forall o { SeeTarget(tr, tr[tx.txid].id, w, tx, MarksUpTo(tr, tr[tx.txid].id, tx.vin), o); }
  }

  /** The new output rows: the transaction's own, unspent. */
  ghost predicate AddsOuts(next: int, outs: OutTable, mid: OutTable) {
    && (forall o :: o in outs ==> o in mid && mid[o] == outs[o])
    && (forall o :: o in mid && o !in outs ==> o.txId == next && mid[o].spentBy.None?)
  }

  /** The new input rows: the transaction's own, linked to their parents where known. */
  ghost predicate AddsIns(tr: TxTable, w: World, tx: Tx, ins: InTable, ins': InTable) {
    && (forall s :: s in ins ==> s in ins' && ins'[s] == ins[s])
    && (forall s :: s in ins' && s !in ins ==>
          Holds(tr, w, tx.txid, s) && (ins'[s].source.Spend? ==> ins'[s].prevId == IdOf(tr, ins'[s].source.prevHash)))
  }

  lemma {:induction false} SeeAdds(tr: TxTable, tr': TxTable, next: int, w: World, tx: Tx, rpc: Rpc, outs: OutTable,
                                   ins: InTable)
    requires IdsOk(tr, next) && Admits(tr, tr', next, tx) && tx == w(tx.txid)
    ensures AddsOuts(next, outs, TxOutputs(next, tx.vout) + outs)
    ensures AddsIns(tr', w, tx, ins,
                    TxInputs(next, tx.vin, Resolve(tr', TxOutputs(next, tx.vout) + outs, rpc, tx)) + ins)
  {
  }

  /** An old input slot never carries the new id. */
  lemma {:induction false} OldSlot(tr: TxTable, tr': TxTable, next: int, w: World, tx: Tx, ins: InTable, s: Slot)
    requires IdsOk(tr, next) && Admits(tr, tr', next, tx) && InsOk(tr, w, ins) && s in ins
    ensures s.txId != next && (IsPendingId(tr', s.txId) ==> IsPendingId(tr, s.txId))
    ensures ins[s].source.Spend? && ins[s].source.prevHash in tr ==>
              IdOf(tr', ins[s].source.prevHash) == IdOf(tr, ins[s].source.prevHash)
  {
    var h :| Holds(tr, w, h, s);
    SeeIds(tr, tr', next, w, tx, s.txId);
  }

  lemma {:induction false} SeeSpendersReal(tr: TxTable, tr': TxTable, next: int, w: World, tx: Tx, outs: OutTable,
                                           mid: OutTable, outs': OutTable, ins: InTable, ins': InTable)
    requires IdsOk(tr, next) && Admits(tr, tr', next, tx)
    requires AddsOuts(next, outs, mid) && RecordedIfFree(tr', w, tx, mid, outs')
    requires InsOk(tr, w, ins) && InsOk(tr', w, ins') && SpendersReal(tr, outs, ins) && AddsIns(tr', w, tx, ins, ins')
    ensures SpendersReal(tr', outs', ins')
  {
    forall o | o in outs' && outs'[o].spentBy.Some?
      ensures SpenderOf(tr', ins', outs'[o].spentBy.value, o)
    {
      var s := outs'[o].spentBy.value;
      if mid[o].spentBy.Some? {
        assert o in outs && SpenderOf(tr, ins, s, o);
        OldSlot(tr, tr', next, w, tx, ins, s);
      } else {
        SeeNewSpender(tr, tr', next, w, tx, ins, ins', s, o);
      }
    }
  }

  lemma {:induction false} SeeNewSpender(tr: TxTable, tr': TxTable, next: int, w: World, tx: Tx, ins: InTable,
                                         ins': InTable, s: Slot, o: Outpoint)
    requires IdsOk(tr, next) && Admits(tr, tr', next, tx)
    requires InsOk(tr, w, ins) && InsOk(tr', w, ins') && AddsIns(tr', w, tx, ins, ins')
    requires Spends(tr', w, tx.txid, s, o)
    ensures SpenderOf(tr', ins', s, o)
  {
    assert Holds(tr', w, tx.txid, s);
    assert s in ins' && ins'[s].source == w(tx.txid).vin[s.vin];
    if s in ins {
      OldSlot(tr, tr', next, w, tx, ins, s);
    }
  }

  lemma {:induction false} SeeOldRecorded(tr: TxTable, tr': TxTable, next: int, w: World, tx: Tx, outs: OutTable,
                                          mid: OutTable, outs': OutTable, ins: InTable, s: Slot)
    requires IdsOk(tr, next) && Admits(tr, tr', next, tx) && InsOk(tr, w, ins) && s in ins
    requires AddsOuts(next, outs, mid) && RecordedIfFree(tr', w, tx, mid, outs')
    requires RecordedAt(tr, outs, ins, s)
    ensures RecordedAt(tr', outs', ins, s)
  {
    OldSlot(tr, tr', next, w, tx, ins, s);
    if ins[s].source.Spend? && ins[s].prevId.Some? {
      var o := Outpoint(ins[s].prevId.value, ins[s].source.prevVout);
      assert o.txId < next;
      assert o in outs' ==> o in outs && mid[o] == outs[o];
    }
  }

  lemma {:induction false} SeeNewRecorded(tr: TxTable, w: World, tx: Tx, mid: OutTable, outs': OutTable, ins: InTable,
                                          s: Slot)
    requires InsOk(tr, w, ins) && Holds(tr, w, tx.txid, s) && RecordedIfFree(tr, w, tx, mid, outs')
    ensures RecordedAt(tr, outs', ins, s)
  {
    if s in ins && ins[s].source.Spend? && ins[s].prevId.Some? {
      LinkSpends(tr, w, tx, ins, s, Outpoint(ins[s].prevId.value, ins[s].source.prevVout));
    }
  }

  lemma {:induction false} SeePendingRecorded(tr: TxTable, tr': TxTable, next: int, w: World, tx: Tx, outs: OutTable,
                                              mid: OutTable, outs': OutTable, ins: InTable, ins': InTable)
    requires IdsOk(tr, next) && Admits(tr, tr', next, tx)
    requires AddsOuts(next, outs, mid) && RecordedIfFree(tr', w, tx, mid, outs')
    requires InsOk(tr, w, ins) && InsOk(tr', w, ins') && PendingRecorded(tr, outs, ins)
             && AddsIns(tr', w, tx, ins, ins')
    ensures PendingRecorded(tr', outs', ins')
  {
    forall s ensures RecordedAt(tr', outs', ins', s) {
      if s in ins {
        assert RecordedAt(tr, outs, ins, s);
        SeeOldRecorded(tr, tr', next, w, tx, outs, mid, outs', ins, s);
        assert ins'[s] == ins[s];
      } else if s in ins' {
        SeeNewRecorded(tr', w, tx, mid, outs', ins', s);
      }
    }
  }

  lemma {:induction false} LinkSpends(tr: TxTable, w: World, tx: Tx, ins: InTable, s: Slot, o: Outpoint)
    requires InsOk(tr, w, ins) && s in ins && Holds(tr, w, tx.txid, s)
    requires ins[s].source.Spend? && ins[s].prevId == Some(o.txId) && ins[s].source.prevVout == o.vout
    ensures Spends(tr, w, tx.txid, s, o)
  {
  }

  lemma {:induction false} SeeConfirmed(tr: TxTable, tr': TxTable, next: int, w: World, tx: Tx, outs: OutTable,
                                        mid: OutTable, outs': OutTable)
    requires IdsOk(tr, next) && Admits(tr, tr', next, tx)
    requires AddsOuts(next, outs, mid) && RecordedIfFree(tr', w, tx, mid, outs')
    requires ConfirmedRecorded(tr, w, outs)
    ensures ConfirmedRecorded(tr', w, outs')
  {
    forall h, s, o | Confirmed(tr', h) && Spends(tr', w, h, s, o) && o in outs'
                     && Confirmed(tr', w(h).vin[s.vin].prevHash)
      ensures outs'[o].spentBy == Some(s)
    {
      assert Spends(tr, w, h, s, o) && o in outs;
    }
  }

  lemma {:induction false} SeeUtxo(tr: TxTable, w: World, tx: Tx, rows: OutTable, outs: OutTable, outs': OutTable)
    requires tx.txid in tr && tx == w(tx.txid)
    requires forall o :: o in rows ==> o !in outs && rows[o].spentBy.None?
    requires outs' == MarkSpent(rows + outs, MarksUpTo(tr, tr[tx.txid].id, tx.vin), false)
    ensures CoinsOf(rows) + UtxoOf(outs) - Targets(MarksUpTo(tr, tr[tx.txid].id, tx.vin)) == UtxoOf(outs')
  {
    var coins := CoinsOf(rows) + UtxoOf(outs) - Targets(MarksUpTo(tr, tr[tx.txid].id, tx.vin));
    forall o ensures (o in coins <==> o in UtxoOf(outs')) && (o in coins ==> coins[o] == UtxoOf(outs')[o]) {
      SeeTarget(tr, tr[tx.txid].id, w, tx, MarksUpTo(tr, tr[tx.txid].id, tx.vin), o);
    }
  }

  lemma {:induction false} SeeTables(t: Tables, tx: Tx, rpc: Rpc, tr: TxTable, rows: OutTable)
    requires tx.txid !in t.transactions
    requires tr == t.transactions[tx.txid := NewRow(t.nextTxId, None, tx)] && rows == TxOutputs(t.nextTxId, tx.vout)
    ensures See(t, tx, rpc).transactions == tr && See(t, tx, rpc).nextTxId == t.nextTxId + 1
    ensures See(t, tx, rpc).outputs == MarkSpent(rows + t.outputs, MarksUpTo(tr, t.nextTxId, tx.vin), false)
    ensures See(t, tx, rpc).inputs == TxInputs(t.nextTxId, tx.vin, Resolve(tr, rows + t.outputs, rpc, tx)) + t.inputs
    ensures See(t, tx, rpc).utxo == CoinsOf(rows) + t.utxo - Targets(MarksUpTo(tr, t.nextTxId, tx.vin))
  {
  }

  lemma {:induction false} SeeStructure(t: Tables, w: World, tx: Tx, rpc: Rpc, tr': TxTable, rows: OutTable)
    requires Structure(t, w) && tx == w(tx.txid) && tx.txid !in t.transactions
    requires tr' == t.transactions[tx.txid := NewRow(t.nextTxId, None, tx)] && rows == TxOutputs(t.nextTxId, tx.vout)
    ensures Structure(See(t, tx, rpc), w)
    ensures RecordedIfFree(tr', w, tx, rows + t.outputs, See(t, tx, rpc).outputs)
    ensures AddsOuts(t.nextTxId, t.outputs, rows + t.outputs)
    ensures forall o :: o in rows ==> o !in t.outputs && rows[o].spentBy.None?
    ensures forall s :: s in t.inputs ==> s in See(t, tx, rpc).inputs && See(t, tx, rpc).inputs[s] == t.inputs[s]
  {
    var t', tr, next, mid := See(t, tx, rpc), t.transactions, t.nextTxId, rows + t.outputs;
    SeeTables(t, tx, rpc, tr', rows);
    SeeIds(tr, tr', next, w, tx, next);
    SeeOuts(tr, tr', next, w, tx, t.outputs);
    SeeMarks(tr', w, tx, mid);
    MarkOuts(tr', w, mid, MarksUpTo(tr', next, tx.vin), false);
    SeeIns(tr, tr', next, w, tx, mid, rpc, t.inputs);
    SeeAdds(tr, tr', next, w, tx, rpc, t.outputs, t.inputs);
    SeeSpendersReal(tr, tr', next, w, tx, t.outputs, mid, t'.outputs, t.inputs, t'.inputs);
    SeePendingRecorded(tr, tr', next, w, tx, t.outputs, mid, t'.outputs, t.inputs, t'.inputs);
  }

  lemma {:induction false} SeeFollows(tr: TxTable, tr': TxTable, next: int, w: World, chain: seq<Mined>, tx: Tx)
    requires IdsOk(tr, next) && Admits(tr, tr', next, tx) && Follows(tr, chain)
    ensures Follows(tr', chain)
  {
    SeeIds(tr, tr', next, w, tx, next);
    forall i | 0 <= i < |chain|
      ensures chain[i].tx.txid in tr' && tr'[chain[i].tx.txid].height == Some(chain[i].height)
    {
      assert Among(chain, chain[i].tx.txid);
    }
  }

  /** Seeing a mempool transaction keeps every invariant; the chain is unchanged. */
  lemma {:induction false} SeeKeeps(t: Tables, w: World, chain: seq<Mined>, tx: Tx, rpc: Rpc)
    requires Inv(t, w, chain) && tx == w(tx.txid)
    ensures Inv(See(t, tx, rpc), w, chain)
  {
    if tx.txid !in t.transactions {
      var tr, next := t.transactions, t.nextTxId;
      var tr', rows := tr[tx.txid := NewRow(next, None, tx)], TxOutputs(next, tx.vout);
      var outs' := See(t, tx, rpc).outputs;
      SeeStructure(t, w, tx, rpc, tr', rows);
      SeeTables(t, tx, rpc, tr', rows);
      SeeFollows(tr, tr', next, w, chain, tx);
      SeeConfirmed(tr, tr', next, w, tx, t.outputs, rows + t.outputs, outs');
      SeeUtxo(tr', w, tx, rows, t.outputs, outs');
    }
  }
}
