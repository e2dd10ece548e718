/** What every reachable index satisfies, and that both steps keep it. */
module LedgerInvariants {
  import opened Prelude
  import opened Rollups
  import opened Ledger
  import opened LedgerFacts

  // ---------------------------------------------------------------- invariants

  ghost predicate IsConfirmedId(tr: TxTable, id: int) {
    exists h :: Confirmed(tr, h) && tr[h].id == id
  }

  /** The outputs table holds exactly the outputs of the known transactions. */
  ghost predicate OutsOk(tr: TxTable, w: World, outs: OutTable) {
    && (forall h, o :: Creates(tr, w, h, o) ==> o in outs && SameOut(outs[o], w(h).vout[o.vout]))
    && (forall o :: o in outs ==> exists h :: Creates(tr, w, h, o))
  }

  /** The inputs table holds exactly the inputs of the known transactions; a
   * linked one is linked to the transaction it names. */
  ghost predicate InsOk(tr: TxTable, w: World, ins: InTable) {
    && (forall h, s :: Holds(tr, w, h, s) ==> s in ins && ins[s].source == w(h).vin[s.vin])
    && (forall s :: s in ins ==> exists h :: Holds(tr, w, h, s))
    && (forall s :: s in ins && ins[s].prevId.Some? ==>
          ins[s].source.Spend? && IdOf(tr, ins[s].source.prevHash) == ins[s].prevId)
  }

  /** Slot `s` has an input on outpoint `o`, and is linked to it while pending. */
  ghost predicate SpenderOf(tr: TxTable, ins: InTable, s: Slot, o: Outpoint) {
    && s in ins
    && ins[s].source.Spend?
    && IdOf(tr, ins[s].source.prevHash) == Some(o.txId)
    && ins[s].source.prevVout == o.vout
    && (IsPendingId(tr, s.txId) ==> ins[s].prevId == Some(o.txId))
  }

  /** Every recorded spender really has an input on the outpoint. */
  ghost predicate SpendersReal(tr: TxTable, outs: OutTable, ins: InTable) {
    forall o :: o in outs && outs[o].spentBy.Some? ==> SpenderOf(tr, ins, outs[o].spentBy.value, o)
  }

  /** If slot `s` is a pending input linked to an output, that output has a spender. */
  ghost predicate RecordedAt(tr: TxTable, outs: OutTable, ins: InTable, s: Slot) {
    s in ins && ins[s].source.Spend? && ins[s].prevId.Some? && IsPendingId(tr, s.txId) ==>
      var o := Outpoint(ins[s].prevId.value, ins[s].source.prevVout);
      o in outs ==> outs[o].spentBy.Some?
  }

  ghost predicate PendingRecorded(tr: TxTable, outs: OutTable, ins: InTable) {
    forall s :: RecordedAt(tr, outs, ins, s)
  }

  /** A confirmed spend of a confirmed output is the recorded one. */
  ghost predicate ConfirmedRecorded(tr: TxTable, w: World, outs: OutTable) {
    forall h, s, o | Confirmed(tr, h) && Spends(tr, w, h, s, o) && o in outs
                     && Confirmed(tr, w(h).vin[s.vin].prevHash) :: outs[o].spentBy == Some(s)
  }

  /** The slow definition of the UTXO set: the outputs without a spender. */
  function UtxoOf(outs: OutTable): CoinTable {
    map o | o in outs && outs[o].spentBy.None? :: Coin(outs[o].address, outs[o].value)
  }

  // --------------------------------------------------------------- valid chain

  ghost predicate ParentsFirst(chain: seq<Mined>) {
    forall i, j, k :: 0 <= i <= j < |chain| && 0 <= k < |chain[i].tx.vin| && chain[i].tx.vin[k].Spend? ==>
      chain[i].tx.vin[k].prevHash != chain[j].tx.txid
  }

  ghost predicate NoDoubleSpend(w: World, chain: seq<Mined>) {
    forall g, h, k, l | Among(chain, g) && Among(chain, h) && 0 <= k < |w(g).vin| && 0 <= l < |w(h).vin|
                        && w(g).vin[k].Spend? && w(g).vin[k] == w(h).vin[l] :: g == h && k == l
  }

  /** Distinct txids, parents no later than children, no outpoint spent twice. */
  ghost predicate ValidChain(w: World, chain: seq<Mined>) {
    Distinct(chain) && Named(w, chain) && ParentsFirst(chain) && NoDoubleSpend(w, chain)
  }

  /** The confirmed transactions are exactly those of the chain. */
  ghost predicate Follows(tr: TxTable, chain: seq<Mined>) {
    && (forall h :: Confirmed(tr, h) <==> Among(chain, h))
    && (forall i :: 0 <= i < |chain| ==>
          chain[i].tx.txid in tr && tr[chain[i].tx.txid].height == Some(chain[i].height))
  }

  /** Structure that needs no assumption on the chain. */
  ghost predicate Structure(t: Tables, w: World) {
    && IdsOk(t.transactions, t.nextTxId)
    && OutsOk(t.transactions, w, t.outputs)
    && InsOk(t.transactions, w, t.inputs)
    && SpendersReal(t.transactions, t.outputs, t.inputs)
    && PendingRecorded(t.transactions, t.outputs, t.inputs)
  }

  ghost predicate Inv(t: Tables, w: World, chain: seq<Mined>) {
    && Structure(t, w)
    && ValidChain(w, chain)
    && Follows(t.transactions, chain)
    && ConfirmedRecorded(t.transactions, w, t.outputs)
    && t.utxo == UtxoOf(t.outputs)
  }

  lemma {:induction false} EmptyInv(w: World)
    ensures Inv(EMPTY, w, [])
  {
    assert EMPTY.utxo == UtxoOf(EMPTY.outputs);
  }

  /** A batch that extends the chain. */
  ghost predicate Extends(w: World, chain: seq<Mined>, txs: seq<Mined>) {
    ValidChain(w, chain + txs)
  }

  lemma {:induction false} AmongConcat(a: seq<Mined>, b: seq<Mined>)
    ensures forall h :: Among(a + b, h) <==> Among(a, h) || Among(b, h)
  {
    forall h ensures Among(a + b, h) <==> Among(a, h) || Among(b, h) {
      if Among(a + b, h) {
        var i :| 0 <= i < |a + b| && (a + b)[i].tx.txid == h;
        assert if i < |a| then a[i].tx.txid == h else b[i - |a|].tx.txid == h;
      }
      if Among(a, h) {
        var i :| 0 <= i < |a| && a[i].tx.txid == h;
        assert (a + b)[i].tx.txid == h;
      }
      if Among(b, h) {
        var i :| 0 <= i < |b| && b[i].tx.txid == h;
        assert (a + b)[|a| + i].tx.txid == h;
      }
    }
  }

  /** The tail of a valid chain is distinct, named and disjoint from its start. */
  lemma {:induction false} TailFacts(w: World, chain: seq<Mined>, txs: seq<Mined>)
    requires ValidChain(w, chain + txs)
    ensures Distinct(txs) && Named(w, txs) && ValidChain(w, chain)
    ensures forall h :: !(Among(chain, h) && Among(txs, h))
  {
    var all := chain + txs;
    AmongConcat(chain, txs);
    assert forall i :: 0 <= i < |chain| ==> chain[i] == all[i];
    assert forall i :: 0 <= i < |txs| ==> txs[i] == all[|chain| + i];
  }

  // ------------------------------------------------- transactions and the chain

  lemma {:induction false} MineFollows(tr: TxTable, next: int, w: World, chain: seq<Mined>, txs: seq<Mined>)
    requires Follows(tr, chain) && ValidChain(w, chain + txs)
    ensures Follows(ConfirmTxs(tr, next, txs), chain + txs)
  {
    var tr' := ConfirmTxs(tr, next, txs);
    TailFacts(w, chain, txs);
    AmongConcat(chain, txs);
    ConfirmTxsRows(tr, next, txs);
    forall h ensures Confirmed(tr', h) <==> Among(chain + txs, h) {
      if Among(txs, h) {
        var i :| 0 <= i < |txs| && txs[i].tx.txid == h;
        assert Confirmed(tr', txs[i].tx.txid);
      }
    }
    forall i | 0 <= i < |chain + txs|
      ensures (chain + txs)[i].tx.txid in tr' && tr'[(chain + txs)[i].tx.txid].height == Some((chain + txs)[i].height)
    {
      if i < |chain| {
        assert Among(chain, chain[i].tx.txid);
      } else {
        var m := txs[i - |chain|];
        assert Among(txs, m.tx.txid);
        assert !Confirmed(tr, m.tx.txid);
      }
    }
  }

  /** Confirming never makes a transaction pending again. */
  lemma {:induction false} StillPending(tr: TxTable, next: int, txs: seq<Mined>, id: int)
    requires Distinct(txs) && IdsOk(tr, next)
    ensures IsPendingId(ConfirmTxs(tr, next, txs), id) ==> IsPendingId(tr, id)
    ensures IsConfirmedId(tr, id) ==> IsConfirmedId(ConfirmTxs(tr, next, txs), id)
  {
    var tr' := ConfirmTxs(tr, next, txs);
    ConfirmTxsRows(tr, next, txs);
    if h :| h in tr' && tr'[h].id == id && tr'[h].height.None? {
      assert h in tr && tr[h].id == id;
    }
    if h :| Confirmed(tr, h) && tr[h].id == id {
      assert Confirmed(tr', h);
    }
  }

  // ------------------------------------------------------------------- outputs

  lemma {:induction false} MineOuts(tr: TxTable, next: int, w: World, outs: OutTable, txs: seq<Mined>)
    requires IdsOk(tr, next) && OutsOk(tr, w, outs) && Distinct(txs) && Named(w, txs)
    requires AllKnown(ConfirmTxs(tr, next, txs), txs)
    ensures OutsOk(ConfirmTxs(tr, next, txs), w, StagedOutputs(ConfirmTxs(tr, next, txs), txs) + outs)
  {
    var tr' := ConfirmTxs(tr, next, txs);
    ConfirmTxsRows(tr, next, txs);
    ConfirmTxsIds(tr, next, txs);
    forall h, o | Creates(tr', w, h, o)
      ensures o in StagedOutputs(tr', txs) + outs
      ensures SameOut((StagedOutputs(tr', txs) + outs)[o], w(h).vout[o.vout])
    {
      StagedOutput(tr', next + |txs|, w, txs, o);
      if h in tr {
        assert Creates(tr, w, h, o);
      } else {
        assert Among(txs, h) && o !in outs;
      }
    }
    forall o | o in StagedOutputs(tr', txs) + outs ensures exists h :: Creates(tr', w, h, o) {
      StagedOutput(tr', next + |txs|, w, txs, o);
      if o in outs {
        var g :| Creates(tr, w, g, o);
        assert Creates(tr', w, g, o);
      }
    }
  }

  lemma {:induction false} MarkOuts(tr: TxTable, w: World, outs: OutTable, marks: seq<Mark>, confirmed: bool)
    requires OutsOk(tr, w, outs)
    ensures OutsOk(tr, w, MarkSpent(outs, marks, confirmed))
  {
  }

  // -------------------------------------------------------------------- inputs

  /** Between two transaction tables: ids are kept, and only `txs` are new. */
  ghost predicate Grows(tr: TxTable, tr': TxTable, txs: seq<Mined>) {
    && (forall h :: h in tr ==> h in tr' && tr'[h].id == tr[h].id)
    && (forall h :: h in tr' ==> h in tr || Among(txs, h))
  }

  lemma {:induction false} AddIns(tr: TxTable, tr': TxTable, next: int, w: World, outs: OutTable, rpc: Rpc,
                                  ins: InTable, staged: InTable, txs: seq<Mined>)
    requires IdsOk(tr', next) && Grows(tr, tr', txs) && InsOk(tr, w, ins)
    requires forall s :: s in staged ==> HeldBy(tr', w, txs, s)
    requires forall h, s :: Among(txs, h) && Holds(tr', w, h, s) ==>
               s in staged && staged[s] == ResolvedRow(tr', outs, rpc, w(h).vin[s.vin])
    ensures InsOk(tr', w, staged + ins)
  {
    var ins' := staged + ins;
    forall h, s | Holds(tr', w, h, s) ensures s in ins' && ins'[s].source == w(h).vin[s.vin] {
      HeldIsStored(tr, tr', next, w, outs, rpc, ins, staged, txs, h, s);
    }
    forall s | s in ins' ensures exists h :: Holds(tr', w, h, s) {
      if s in ins {
        var g :| Holds(tr, w, g, s);
        HeldIsStored(tr, tr', next, w, outs, rpc, ins, staged, txs, g, s);
      } else {
        var g :| Among(txs, g) && Holds(tr', w, g, s);
      }
    }
    forall s | s in ins' && ins'[s].prevId.Some?
      ensures ins'[s].source.Spend? && IdOf(tr', ins'[s].source.prevHash) == ins'[s].prevId
    {
      LinkIsId(tr, tr', w, outs, rpc, ins, staged, txs, s);
    }
  }

  lemma {:induction false} LinkIsId(tr: TxTable, tr': TxTable, w: World, outs: OutTable, rpc: Rpc, ins: InTable,
                                    staged: InTable, txs: seq<Mined>, s: Slot)
    requires Grows(tr, tr', txs) && InsOk(tr, w, ins)
    requires s in staged ==> HeldBy(tr', w, txs, s)
    requires forall h, s :: Among(txs, h) && Holds(tr', w, h, s) ==>
               s in staged && staged[s] == ResolvedRow(tr', outs, rpc, w(h).vin[s.vin])
    requires s in staged + ins && (staged + ins)[s].prevId.Some?
    ensures (staged + ins)[s].source.Spend? && IdOf(tr', (staged + ins)[s].source.prevHash) == (staged + ins)[s].prevId
  {
    if s in ins {
      assert (staged + ins)[s] == ins[s];
    } else {
      var g :| Among(txs, g) && Holds(tr', w, g, s);
    }
  }

  lemma {:induction false} HeldIsStored(tr: TxTable, tr': TxTable, next: int, w: World, outs: OutTable, rpc: Rpc,
                                        ins: InTable, staged: InTable, txs: seq<Mined>, h: Hash, s: Slot)
    requires IdsOk(tr', next) && Grows(tr, tr', txs) && InsOk(tr, w, ins)
    requires forall h, s :: Among(txs, h) && Holds(tr', w, h, s) ==>
               s in staged && staged[s] == ResolvedRow(tr', outs, rpc, w(h).vin[s.vin])
    requires Holds(tr, w, h, s) || Holds(tr', w, h, s)
    ensures Holds(tr', w, h, s) && s in staged + ins && (staged + ins)[s].source == w(h).vin[s.vin]
  {
    if s in ins {
      var g :| Holds(tr, w, g, s);
      assert Holds(tr', w, g, s) && g == h;
    } else {
      assert !Holds(tr, w, h, s);
    }
  }

  lemma {:induction false} MineIns(tr: TxTable, next: int, w: World, outs: OutTable, rpc: Rpc, ins: InTable,
                                   txs: seq<Mined>)
    requires IdsOk(tr, next) && InsOk(tr, w, ins) && Distinct(txs) && Named(w, txs)
    requires AllKnown(ConfirmTxs(tr, next, txs), txs)
    ensures InsOk(ConfirmTxs(tr, next, txs), w, StagedInputs(ConfirmTxs(tr, next, txs), outs, rpc, txs) + ins)
  {
    var tr' := ConfirmTxs(tr, next, txs);
    var staged := StagedInputs(tr', outs, rpc, txs);
    ConfirmTxsRows(tr, next, txs);
    ConfirmTxsIds(tr, next, txs);
    forall s
      ensures s in staged <==> HeldBy(tr', w, txs, s)
      ensures forall h :: Among(txs, h) && Holds(tr', w, h, s) ==>
                s in staged && staged[s] == ResolvedRow(tr', outs, rpc, w(h).vin[s.vin])
    {
      StagedInput(tr', next + |txs|, w, outs, rpc, txs, s);
    }
    AddIns(tr, tr', next + |txs|, w, outs, rpc, ins, staged, txs);
  }
}
