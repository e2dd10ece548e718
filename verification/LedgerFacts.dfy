/** What each table holds after a step, row by row. */
module LedgerFacts {
  import opened Prelude
  import opened Rollups
  import opened Ledger

  /** A txid names one transaction: the contents behind every hash. */
  type World = Hash -> Tx

  predicate Distinct(txs: seq<Mined>) {
    forall i, j :: 0 <= i < j < |txs| ==> txs[i].tx.txid != txs[j].tx.txid
  }

  predicate Among(txs: seq<Mined>, h: Hash) {
    exists i :: 0 <= i < |txs| && txs[i].tx.txid == h
  }

  ghost predicate Named(w: World, txs: seq<Mined>) {
    forall i :: 0 <= i < |txs| ==> txs[i].tx == w(txs[i].tx.txid)
  }

  predicate Confirmed(tr: TxTable, h: Hash) {
    h in tr && tr[h].height.Some?
  }

  predicate IdsOk(tr: TxTable, next: int) {
    && (forall h :: h in tr ==> tr[h].id < next)
    && (forall g, h :: g in tr && h in tr && tr[g].id == tr[h].id ==> g == h)
  }

  /** Output `o` is one that transaction `h` creates. */
  ghost predicate Creates(tr: TxTable, w: World, h: Hash, o: Outpoint) {
    h in tr && tr[h].id == o.txId && 0 <= o.vout < |w(h).vout|
  }

  /** Input slot `s` belongs to transaction `h`. */
  ghost predicate Holds(tr: TxTable, w: World, h: Hash, s: Slot) {
    h in tr && tr[h].id == s.txId && 0 <= s.vin < |w(h).vin|
  }

  predicate SameOut(row: OutRow, out: TxOut) {
    row.address == out.address && row.value == out.value
  }

  // -------------------------------------------------------------- transactions

  lemma {:induction false} AmongPrefix(txs: seq<Mined>, h: Hash)
    requires txs != []
    ensures Among(txs, h) <==> Among(txs[..|txs| - 1], h) || h == txs[|txs| - 1].tx.txid
  {
    var before := txs[..|txs| - 1];
    if Among(txs, h) {
      var i :| 0 <= i < |txs| && txs[i].tx.txid == h;
      assert i < |before| ==> before[i].tx.txid == h;
    }
    if Among(before, h) {
      var i :| 0 <= i < |before| && before[i].tx.txid == h;
      assert txs[i].tx.txid == h;
    }
  }

  /** What phase 3 leaves for hash `h`; `i` is its place in the batch, if it is there. */
  lemma {:induction false} ConfirmedRow(tr: TxTable, next: int, txs: seq<Mined>, h: Hash, i: int)
    requires Distinct(txs)
    requires Among(txs, h) ==> 0 <= i < |txs| && txs[i].tx.txid == h
    ensures !Among(txs, h) ==>
              (h in ConfirmTxs(tr, next, txs) <==> h in tr) && (h in tr ==> ConfirmTxs(tr, next, txs)[h] == tr[h])
    ensures Among(txs, h) ==>
              && h in ConfirmTxs(tr, next, txs)
              && ConfirmTxs(tr, next, txs)[h] ==
                 if h !in tr then NewRow(next + i, Some(txs[i].height), txs[i].tx)
                 else if tr[h].height.Some? then tr[h]
                 else tr[h].(height := Some(txs[i].height))
  {
    if txs != [] {
      var n := |txs| - 1;
      AmongPrefix(txs, h);
      assert !Among(txs[..n], txs[n].tx.txid);
      ConfirmedRow(tr, next, txs[..n], h, i);
    }
  }

  /** Phase 3: ids never change, new rows take the next ids in batch order, and
   * exactly the batch's transactions become confirmed. */
  lemma {:induction false} ConfirmTxsRows(tr: TxTable, next: int, txs: seq<Mined>)
    requires Distinct(txs)
    ensures forall h :: h in ConfirmTxs(tr, next, txs) <==> h in tr || Among(txs, h)
    ensures forall h :: h in tr ==> ConfirmTxs(tr, next, txs)[h].id == tr[h].id
    ensures forall h :: h in tr && !Among(txs, h) ==> ConfirmTxs(tr, next, txs)[h] == tr[h]
    ensures forall h :: Confirmed(tr, h) ==> ConfirmTxs(tr, next, txs)[h] == tr[h]
    ensures forall i :: 0 <= i < |txs| ==> Confirmed(ConfirmTxs(tr, next, txs), txs[i].tx.txid)
    ensures forall i :: 0 <= i < |txs| && txs[i].tx.txid !in tr ==>
              txs[i].tx.txid in ConfirmTxs(tr, next, txs) &&
              ConfirmTxs(tr, next, txs)[txs[i].tx.txid] == NewRow(next + i, Some(txs[i].height), txs[i].tx)
    ensures forall i :: 0 <= i < |txs| && txs[i].tx.txid in tr && tr[txs[i].tx.txid].height.None? ==>
              txs[i].tx.txid in ConfirmTxs(tr, next, txs) &&
              ConfirmTxs(tr, next, txs)[txs[i].tx.txid] == tr[txs[i].tx.txid].(height := Some(txs[i].height))
  {
    var tr' := ConfirmTxs(tr, next, txs);
    forall h
      ensures h in tr' <==> h in tr || Among(txs, h)
      ensures h in tr ==> tr'[h].id == tr[h].id
      ensures h in tr && !Among(txs, h) ==> tr'[h] == tr[h]
      ensures Confirmed(tr, h) ==> tr'[h] == tr[h]
    {
      if Among(txs, h) {
        var i :| 0 <= i < |txs| && txs[i].tx.txid == h;
        ConfirmedRow(tr, next, txs, h, i);
      } else {
        ConfirmedRow(tr, next, txs, h, 0);
      }
    }
    forall i | 0 <= i < |txs|
      ensures Confirmed(tr', txs[i].tx.txid)
      ensures txs[i].tx.txid !in tr ==> tr'[txs[i].tx.txid] == NewRow(next + i, Some(txs[i].height), txs[i].tx)
      ensures txs[i].tx.txid in tr && tr[txs[i].tx.txid].height.None? ==>
                tr'[txs[i].tx.txid] == tr[txs[i].tx.txid].(height := Some(txs[i].height))
    {
      ConfirmedRow(tr, next, txs, txs[i].tx.txid, i);
    }
  }

  lemma {:induction false} ConfirmTxsIds(tr: TxTable, next: int, txs: seq<Mined>)
    requires Distinct(txs) && IdsOk(tr, next)
    ensures IdsOk(ConfirmTxs(tr, next, txs), next + |txs|)
  {
    ConfirmTxsRows(tr, next, txs);
    var tr' := ConfirmTxs(tr, next, txs);
    forall g, h | g in tr' && h in tr' && tr'[g].id == tr'[h].id ensures g == h {
      if g !in tr {
        var i :| 0 <= i < |txs| && txs[i].tx.txid == g;
        assert tr'[g].id == next + i;
      }
      if h !in tr {
        var j :| 0 <= j < |txs| && txs[j].tx.txid == h;
        assert tr'[h].id == next + j;
      }
    }
    forall h | h in tr' ensures tr'[h].id < next + |txs| {
      if h !in tr {
        var j :| 0 <= j < |txs| && txs[j].tx.txid == h;
      }
    }
  }

  /** Phase 3 is a fold: the same rows and ids whichever way the batch is cut. */
  lemma {:induction false} ConfirmTxsConcat(tr: TxTable, next: int, a: seq<Mined>, b: seq<Mined>)
    ensures ConfirmTxs(tr, next, a + b) == ConfirmTxs(ConfirmTxs(tr, next, a), next + |a|, b)
  {
    if b == [] {
      assert a + b == a;
    } else {
      var n := |b| - 1;
      assert (a + b)[..|a + b| - 1] == a + b[..n];
      ConfirmTxsConcat(tr, next, a, b[..n]);
    }
  }

  // ------------------------------------------------------------------- outputs

  ghost predicate CreatedBy(tr: TxTable, w: World, txs: seq<Mined>, o: Outpoint) {
    exists h :: Among(txs, h) && Creates(tr, w, h, o)
  }

  /** Phase 5: exactly the outputs of the batch are staged, unspent. */
  lemma {:induction false} StagedOutput(tr: TxTable, next: int, w: World, txs: seq<Mined>, o: Outpoint)
    requires IdsOk(tr, next) && Named(w, txs) && AllKnown(tr, txs)
    ensures o in StagedOutputs(tr, txs) <==> CreatedBy(tr, w, txs, o)
    ensures forall h :: Among(txs, h) && Creates(tr, w, h, o) ==>
              StagedOutputs(tr, txs)[o] == OutRow(w(h).vout[o.vout].address, w(h).vout[o.vout].value, None)
  {
    if txs != [] {
      var n := |txs| - 1;
      var before, last := txs[..n], txs[n].tx;
      StagedOutput(tr, next, w, before, o);
      forall h ensures Among(txs, h) <==> Among(before, h) || h == last.txid { AmongPrefix(txs, h); }
      var id := tr[last.txid].id;
      assert o in TxOutputs(id, last.vout) <==> Creates(tr, w, last.txid, o) by {
        assert Creates(tr, w, last.txid, o) ==> o == Outpoint(id, o.vout);
      }
    }
  }

  // -------------------------------------------------------------------- inputs

  ghost predicate HeldBy(tr: TxTable, w: World, txs: seq<Mined>, s: Slot) {
    exists h :: Among(txs, h) && Holds(tr, w, h, s)
  }

  /** Phase 7: exactly the inputs of the batch are staged, each as `Lookup` resolves it. */
  lemma {:induction false} StagedInput(tr: TxTable, next: int, w: World, outs: OutTable, rpc: Rpc, txs: seq<Mined>,
                                       s: Slot)
    requires IdsOk(tr, next) && Named(w, txs) && AllKnown(tr, txs)
    ensures s in StagedInputs(tr, outs, rpc, txs) <==> HeldBy(tr, w, txs, s)
    ensures forall h :: Among(txs, h) && Holds(tr, w, h, s) ==>
              StagedInputs(tr, outs, rpc, txs)[s] == ResolvedRow(tr, outs, rpc, w(h).vin[s.vin])
  {
    if txs != [] {
      var n := |txs| - 1;
      var before, last := txs[..n], txs[n].tx;
      StagedInput(tr, next, w, outs, rpc, before, s);
      forall h ensures Among(txs, h) <==> Among(before, h) || h == last.txid { AmongPrefix(txs, h); }
      var id := tr[last.txid].id;
      assert s in TxInputs(id, last.vin, Resolve(tr, outs, rpc, last)) <==> Holds(tr, w, last.txid, s) by {
        assert Holds(tr, w, last.txid, s) ==> s == Slot(id, s.vin);
      }
    }
  }

  function ResolvedRow(tr: TxTable, outs: OutTable, rpc: Rpc, input: TxIn): InRow {
    var r := Lookup(tr, outs, rpc, input);
    InRow(input, r.prevId, r.address, r.amount)
  }

  // --------------------------------------------------------------------- marks

  /** Slot `s` of transaction `h` spends output `o`, an output of a known transaction. */
  ghost predicate Spends(tr: TxTable, w: World, h: Hash, s: Slot, o: Outpoint) {
    && Holds(tr, w, h, s)
    && w(h).vin[s.vin].Spend?
    && w(h).vin[s.vin].prevHash in tr
    && o == Outpoint(tr[w(h).vin[s.vin].prevHash].id, w(h).vin[s.vin].prevVout)
  }

  lemma {:induction false} MarksOfOne(tr: TxTable, id: int, vin: seq<TxIn>, m: Mark)
    ensures m in MarksUpTo(tr, id, vin) <==>
            exists k :: 0 <= k < |vin| && vin[k].Spend? && vin[k].prevHash in tr
                        && m == Mark(Outpoint(tr[vin[k].prevHash].id, vin[k].prevVout), Slot(id, k))
  {
    if vin != [] {
      var n := |vin| - 1;
      MarksOfOne(tr, id, vin[..n], m);
    }
  }

  /** Phase 7b: one mark per input whose parent is known, and no others. */
  lemma {:induction false} MarksOfBatch(tr: TxTable, next: int, w: World, txs: seq<Mined>, m: Mark)
    requires IdsOk(tr, next) && Named(w, txs) && AllKnown(tr, txs)
    ensures m in Marks(tr, txs) <==> exists h :: Among(txs, h) && Spends(tr, w, h, m.spender, m.outpoint)
  {
    if txs != [] {
      var n := |txs| - 1;
      var before := txs[..n];
      var last := txs[n].tx;
      MarksOfBatch(tr, next, w, before, m);
      MarksOfOne(tr, tr[last.txid].id, last.vin, m);
      assert m in MarksUpTo(tr, tr[last.txid].id, last.vin) <==> Spends(tr, w, last.txid, m.spender, m.outpoint) by {
        MarksOfLast(tr, w, last, m);
      }
      forall h ensures Among(txs, h) <==> Among(before, h) || h == last.txid { AmongPrefix(txs, h); }
    }
  }

  lemma {:induction false} MarksOfLast(tr: TxTable, w: World, tx: Tx, m: Mark)
    requires tx == w(tx.txid) && tx.txid in tr
    ensures m in MarksUpTo(tr, tr[tx.txid].id, tx.vin) <==> Spends(tr, w, tx.txid, m.spender, m.outpoint)
  {
    MarksOfOne(tr, tr[tx.txid].id, tx.vin, m);
    if Spends(tr, w, tx.txid, m.spender, m.outpoint) {
      var k := m.spender.vin;
      assert m == Mark(Outpoint(tr[tx.vin[k].prevHash].id, tx.vin[k].prevVout), Slot(tr[tx.txid].id, k));
    }
  }

  lemma {:induction false} ChosenIsStaged(marks: seq<Mark>, o: Outpoint)
    ensures Chosen(marks, o).Some? ==> Mark(o, Chosen(marks, o).value) in marks
    ensures Chosen(marks, o).Some? <==> o in Targets(marks)
  {
    if marks != [] {
      var n := |marks| - 1;
      ChosenIsStaged(marks[..n], o);
      if o in Targets(marks) {
        var i :| 0 <= i < |marks| && marks[i].outpoint == o;
        if i < n {
          assert marks[..n][i].outpoint == o;
        }
      }
      if o in Targets(marks[..n]) {
        var i :| 0 <= i < n && marks[..n][i].outpoint == o;
        assert marks[i].outpoint == o;
      }
    } else {
      assert o !in Targets(marks);
    }
  }

  /** The `i`th mark is on the outpoint, with the least transaction id of all that are, the first
   * staged among those. */
  predicate LeastAt(marks: seq<Mark>, o: Outpoint, i: int)
    requires 0 <= i < |marks|
  {
    && marks[i].outpoint == o
    && (forall j :: 0 <= j < |marks| && marks[j].outpoint == o ==> marks[i].spender.txId <= marks[j].spender.txId)
    && forall j :: 0 <= j < i && marks[j].outpoint == o ==> marks[i].spender.txId < marks[j].spender.txId
  }

  lemma {:induction false} LeastKept(marks: seq<Mark>, o: Outpoint, i: int, m: Mark)
    requires 0 <= i < |marks| && LeastAt(marks, o, i)
    ensures m.outpoint != o || marks[i].spender.txId <= m.spender.txId ==> LeastAt(marks + [m], o, i)
    ensures m.outpoint == o && m.spender.txId < marks[i].spender.txId ==> LeastAt(marks + [m], o, |marks|)
  {
    assert forall j :: 0 <= j < |marks| ==> (marks + [m])[j] == marks[j];
  }

  /** Of the staged spenders of an outpoint the least is taken; there is one exactly if the
   * outpoint was staged. */
  lemma {:induction false} LeastIsChosen(marks: seq<Mark>, o: Outpoint) returns (i: int)
    ensures if Chosen(marks, o).Some?
            then 0 <= i < |marks| && LeastAt(marks, o, i) && marks[i].spender == Chosen(marks, o).value
            else forall j :: 0 <= j < |marks| ==> marks[j].outpoint != o
  {
    i := 0;
    if marks != [] {
      var before, m := marks[..|marks| - 1], marks[|marks| - 1];
      i := LeastIsChosen(before, o);
      assert marks == before + [m];
      if Chosen(before, o).Some? {
        LeastKept(before, o, i, m);
        i := if m.outpoint == o && m.spender.txId < before[i].spender.txId then |before| else i;
      } else {
        i := |before|;
      }
    }
  }
}
