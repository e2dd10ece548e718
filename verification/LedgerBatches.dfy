/** Where batch boundaries fall makes no difference to the index. */
module LedgerBatches {
  import opened Prelude
  import opened Rollups
  import opened Ledger
  import opened LedgerFacts
  import opened LedgerInvariants
  import opened LedgerMine
  import opened LedgerSee
  import opened LedgerRuns
  import opened LedgerDeltas

  // ----------------------------------------------------- folds over two batches

  lemma {:induction false} FlattenConcat(a: seq<Block>, b: seq<Block>)
    ensures Flatten(a + b) == Flatten(a) + Flatten(b)
  {
    if b == [] {
      assert a + b == a;
    } else {
      var n := |b| - 1;
      assert (a + b)[..|a + b| - 1] == a + b[..n];
      FlattenConcat(a, b[..n]);
    }
  }

  lemma {:induction false} PutBlocksConcat(rows: map<int, BlockRow>, a: seq<Block>, b: seq<Block>)
    ensures PutBlocks(rows, a + b) == PutBlocks(PutBlocks(rows, a), b)
  {
    if b == [] {
      assert a + b == a;
    } else {
      var n := |b| - 1;
      assert (a + b)[..|a + b| - 1] == a + b[..n];
      PutBlocksConcat(rows, a, b[..n]);
    }
  }

  lemma {:induction false} ChainStatsConcat(a: seq<Block>, b: seq<Block>)
    ensures ChainStats(a + b) == Merge(ChainStats(a), ChainStats(b))
  {
    if b == [] {
      assert a + b == a;
      MergeEmpty(ChainStats(a));
    } else {
      var n := |b| - 1;
      assert (a + b)[..|a + b| - 1] == a + b[..n];
      ChainStatsConcat(a, b[..n]);
      MergeAssociative(ChainStats(a), ChainStats(b[..n]), BlockStats(b[n]));
    }
  }

  lemma {:induction false} WalkConcat(tr: TxTable, outs: OutTable, rpc: Rpc, a: seq<Mined>, b: seq<Mined>)
    ensures Walk(tr, outs, rpc, a + b) == Merge(Walk(tr, outs, rpc, a), Walk(tr, outs, rpc, b))
  {
    if b == [] {
      assert a + b == a;
      MergeEmpty(Walk(tr, outs, rpc, a));
    } else {
      var n := |b| - 1;
      assert (a + b)[..|a + b| - 1] == a + b[..n];
      WalkConcat(tr, outs, rpc, a, b[..n]);
      MergeAssociative(Walk(tr, outs, rpc, a), Walk(tr, outs, rpc, b[..n]),
                       WalkDelta(b[n], Resolve(tr, outs, rpc, b[n].tx)));
    }
  }

  lemma {:induction false} UnionAssociative<K, V>(x: map<K, V>, y: map<K, V>, z: map<K, V>)
    ensures x + (y + z) == x + y + z
  {
  }

  lemma {:induction false} StagedInputsConcat(tr: TxTable, outs: OutTable, rpc: Rpc, a: seq<Mined>, b: seq<Mined>)
    requires AllKnown(tr, a) && AllKnown(tr, b) && AllKnown(tr, a + b)
    ensures StagedInputs(tr, outs, rpc, a + b) == StagedInputs(tr, outs, rpc, a) + StagedInputs(tr, outs, rpc, b)
  {
    if b == [] {
      assert a + b == a;
    } else {
      var n := |b| - 1;
      assert (a + b)[..|a + b| - 1] == a + b[..n];
      assert (a + b)[|a + b| - 1] == b[n];
      StagedInputsConcat(tr, outs, rpc, a, b[..n]);
      UnionAssociative(StagedInputs(tr, outs, rpc, a), StagedInputs(tr, outs, rpc, b[..n]),
                       TxInputs(tr[b[n].tx.txid].id, b[n].tx.vin, Resolve(tr, outs, rpc, b[n].tx)));
    }
  }

  lemma {:induction false} StagedAddressTxsConcat(tr: TxTable, outs: OutTable, rpc: Rpc, a: seq<Mined>, b: seq<Mined>)
    requires AllKnown(tr, a) && AllKnown(tr, b) && AllKnown(tr, a + b)
    ensures StagedAddressTxs(tr, outs, rpc, a + b) ==
            StagedAddressTxs(tr, outs, rpc, a) + StagedAddressTxs(tr, outs, rpc, b)
  {
    if b == [] {
      assert a + b == a;
    } else {
      var n := |b| - 1;
      assert (a + b)[..|a + b| - 1] == a + b[..n];
      assert (a + b)[|a + b| - 1] == b[n];
      StagedAddressTxsConcat(tr, outs, rpc, a, b[..n]);
      UnionAssociative(StagedAddressTxs(tr, outs, rpc, a), StagedAddressTxs(tr, outs, rpc, b[..n]),
                       TxAddressTxs(tr[b[n].tx.txid].id, b[n].height,
                                    Touched(b[n].tx, Resolve(tr, outs, rpc, b[n].tx))));
    }
  }

  lemma {:induction false} OutAddressesConcat(a: seq<Mined>, b: seq<Mined>)
    ensures BatchOutAddresses(a + b) == BatchOutAddresses(a) + BatchOutAddresses(b)
  {
    forall x ensures x in BatchOutAddresses(a + b) <==> x in BatchOutAddresses(a) || x in BatchOutAddresses(b) {
      if i :| 0 <= i < |a + b| && x in OutAddresses((a + b)[i].tx.vout) {
        assert if i < |a| then x in OutAddresses(a[i].tx.vout) else x in OutAddresses(b[i - |a|].tx.vout);
      }
      if i :| 0 <= i < |a| && x in OutAddresses(a[i].tx.vout) {
        assert x in OutAddresses((a + b)[i].tx.vout);
      }
      if i :| 0 <= i < |b| && x in OutAddresses(b[i].tx.vout) {
        assert x in OutAddresses((a + b)[|a| + i].tx.vout);
      }
    }
  }

  lemma {:induction false} RpcAddressesConcat(tr: TxTable, outs: OutTable, rpc: Rpc, a: seq<Mined>, b: seq<Mined>)
    ensures BatchRpcAddresses(tr, outs, rpc, a + b) ==
            BatchRpcAddresses(tr, outs, rpc, a) + BatchRpcAddresses(tr, outs, rpc, b)
  {
    forall x
      ensures x in BatchRpcAddresses(tr, outs, rpc, a + b) <==>
              x in BatchRpcAddresses(tr, outs, rpc, a) || x in BatchRpcAddresses(tr, outs, rpc, b)
    {
      if i :| 0 <= i < |a + b| && x in RpcAddresses(tr, outs, rpc, (a + b)[i].tx.vin) {
        assert if i < |a| then x in RpcAddresses(tr, outs, rpc, a[i].tx.vin)
               else x in RpcAddresses(tr, outs, rpc, b[i - |a|].tx.vin);
      }
      if i :| 0 <= i < |a| && x in RpcAddresses(tr, outs, rpc, a[i].tx.vin) {
        assert x in RpcAddresses(tr, outs, rpc, (a + b)[i].tx.vin);
      }
      if i :| 0 <= i < |b| && x in RpcAddresses(tr, outs, rpc, b[i].tx.vin) {
        assert x in RpcAddresses(tr, outs, rpc, (a + b)[|a| + i].tx.vin);
      }
    }
  }

  /** The delta of two batches is the sum of their deltas, taken against one view. */
  lemma {:induction false} DeltaConcat(tr: TxTable, outs: OutTable, rpc: Rpc, a: seq<Block>, b: seq<Block>,
                                       f: seq<Mined>, g: seq<Mined>)
    ensures BatchDelta(tr, outs, rpc, a + b, f + g) ==
            Merge(BatchDelta(tr, outs, rpc, a, f), BatchDelta(tr, outs, rpc, b, g))
  {
    var o1, o2 := KnownAddresses(BatchOutAddresses(f)), KnownAddresses(BatchOutAddresses(g));
    var r1, r2 := KnownAddresses(BatchRpcAddresses(tr, outs, rpc, f)),
      KnownAddresses(BatchRpcAddresses(tr, outs, rpc, g));
    var w1, w2 := Walk(tr, outs, rpc, f), Walk(tr, outs, rpc, g);
    var c1, c2 := ChainStats(a), ChainStats(b);
    OutAddressesConcat(f, g);
    KnownUnion(BatchOutAddresses(f), BatchOutAddresses(g));
    RpcAddressesConcat(tr, outs, rpc, f, g);
    KnownUnion(BatchRpcAddresses(tr, outs, rpc, f), BatchRpcAddresses(tr, outs, rpc, g));
    WalkConcat(tr, outs, rpc, f, g);
    WeeklyMerge(w1, w2);
    ChainStatsConcat(a, b);
    MergeExchange(o1, o2, r1, r2);
    MergeExchange(w1, w2, Weekly(w1), Weekly(w2));
    MergeExchange(Merge(w1, Weekly(w1)), Merge(w2, Weekly(w2)), c1, c2);
    MergeExchange(Merge(o1, r1), Merge(o2, r2),
                  Merge(Merge(w1, Weekly(w1)), c1), Merge(Merge(w2, Weekly(w2)), c2));
  }

  // ------------------------------------------------------------ congruence

  /** Two views of the index that resolve a batch alike. */
  ghost predicate SameView(tr: TxTable, outs: OutTable, tr': TxTable, outs': OutTable, rpc: Rpc, txs: seq<Mined>) {
    forall i :: 0 <= i < |txs| ==>
      && txs[i].tx.txid in tr && txs[i].tx.txid in tr' && tr[txs[i].tx.txid].id == tr'[txs[i].tx.txid].id
      && Resolve(tr, outs, rpc, txs[i].tx) == Resolve(tr', outs', rpc, txs[i].tx)
      && RpcAddresses(tr, outs, rpc, txs[i].tx.vin) == RpcAddresses(tr', outs', rpc, txs[i].tx.vin)
  }

  lemma {:induction false} SameViewSame(tr: TxTable, outs: OutTable, tr': TxTable, outs': OutTable, rpc: Rpc,
                                        txs: seq<Mined>)
    requires SameView(tr, outs, tr', outs', rpc, txs) && AllKnown(tr, txs) && AllKnown(tr', txs)
    ensures StagedInputs(tr, outs, rpc, txs) == StagedInputs(tr', outs', rpc, txs)
    ensures StagedAddressTxs(tr, outs, rpc, txs) == StagedAddressTxs(tr', outs', rpc, txs)
    ensures Walk(tr, outs, rpc, txs) == Walk(tr', outs', rpc, txs)
  {
    if txs != [] {
      var n := |txs| - 1;
      assert SameView(tr, outs, tr', outs', rpc, txs[..n]) by {
        assert forall i :: 0 <= i < n ==> txs[..n][i] == txs[i];
      }
      SameViewSame(tr, outs, tr', outs', rpc, txs[..n]);
      assert txs[n].tx.txid in tr;
    }
  }

  lemma {:induction false} SameViewRpc(tr: TxTable, outs: OutTable, tr': TxTable, outs': OutTable, rpc: Rpc,
                                       txs: seq<Mined>)
    requires SameView(tr, outs, tr', outs', rpc, txs)
    ensures BatchRpcAddresses(tr, outs, rpc, txs) == BatchRpcAddresses(tr', outs', rpc, txs)
  {
    forall x
      ensures x in BatchRpcAddresses(tr, outs, rpc, txs) <==> x in BatchRpcAddresses(tr', outs', rpc, txs)
    {
    }
  }

  /** Views that agree on the ids of a transaction's parents resolve it alike. */
  lemma {:induction false} SameParents(tr: TxTable, next: int, outs: OutTable, tr': TxTable, next': int,
                                       outs': OutTable, w: World, rpc: Rpc, tx: Tx)
    requires IdsOk(tr, next) && OutsOk(tr, w, outs) && IdsOk(tr', next') && OutsOk(tr', w, outs')
    requires forall k :: 0 <= k < |tx.vin| && tx.vin[k].Spend? ==>
               IdOf(tr, tx.vin[k].prevHash) == IdOf(tr', tx.vin[k].prevHash)
    ensures Resolve(tr, outs, rpc, tx) == Resolve(tr', outs', rpc, tx)
    ensures RpcAddresses(tr, outs, rpc, tx.vin) == RpcAddresses(tr', outs', rpc, tx.vin)
  {
    forall k | 0 <= k < |tx.vin|
      ensures Lookup(tr, outs, rpc, tx.vin[k]) == Lookup(tr', outs', rpc, tx.vin[k])
      ensures tx.vin[k].Spend? ==>
                (StoredHasAddress(tr, outs, tx.vin[k].prevHash, tx.vin[k].prevVout) <==>
                 StoredHasAddress(tr', outs', tx.vin[k].prevHash, tx.vin[k].prevVout))
    {
      LookupIsCanonical(tr, next, w, outs, rpc, tx.vin[k]);
      LookupIsCanonical(tr', next', w, outs', rpc, tx.vin[k]);
    }
    assert Resolve(tr, outs, rpc, tx) == Resolve(tr', outs', rpc, tx);
  }

  // ----------------------------------------------------------- splitting a batch

  /** A batch in two parts is two batches, each extending the chain in turn. */
  lemma {:induction false} ExtendsSplit(w: World, chain: seq<Mined>, f: seq<Mined>, g: seq<Mined>)
    requires Extends(w, chain, f + g)
    ensures Extends(w, chain, f) && ValidChain(w, chain + f + g)
    ensures forall h :: !(Among(f, h) && Among(g, h))
    ensures ParentsOfFirst(w, f, g)
  {
    assert chain + (f + g) == chain + f + g;
    TailFacts(w, chain + f, g);
    AmongConcat(chain, f);
    AmongConcat(f, g);
    assert ParentsOfFirst(w, f, g) by {
      forall h, k | Among(f, h) && 0 <= k < |w(h).vin| && w(h).vin[k].Spend?
        ensures !Among(g, w(h).vin[k].prevHash)
      {
        ParentNotLater(w, chain + f, g, h, k);
      }
    }
  }

  /** No transaction of `f` spends one of `g`. */
  ghost predicate ParentsOfFirst(w: World, f: seq<Mined>, g: seq<Mined>) {
    forall h, k :: Among(f, h) && 0 <= k < |w(h).vin| && w(h).vin[k].Spend? ==> !Among(g, w(h).vin[k].prevHash)
  }

  /** The first part is resolved as if the second were not there yet. */
  lemma {:induction false} FirstPartSameView(tr1: TxTable, next1: int, outs1: OutTable, tr2: TxTable, next2: int,
                                             outs2: OutTable, w: World, rpc: Rpc, f: seq<Mined>, g: seq<Mined>)
    requires IdsOk(tr1, next1) && OutsOk(tr1, w, outs1) && IdsOk(tr2, next2) && OutsOk(tr2, w, outs2)
    requires Grows(tr1, tr2, g) && Named(w, f) && ParentsOfFirst(w, f, g)
    requires forall h :: Among(f, h) ==> h in tr1
    ensures SameView(tr2, outs2, tr1, outs1, rpc, f)
  {
    forall i | 0 <= i < |f|
      ensures f[i].tx.txid in tr1 && f[i].tx.txid in tr2 && tr1[f[i].tx.txid].id == tr2[f[i].tx.txid].id
      ensures Resolve(tr2, outs2, rpc, f[i].tx) == Resolve(tr1, outs1, rpc, f[i].tx)
      ensures RpcAddresses(tr2, outs2, rpc, f[i].tx.vin) == RpcAddresses(tr1, outs1, rpc, f[i].tx.vin)
    {
      assert Among(f, f[i].tx.txid);
      SameParents(tr2, next2, outs2, tr1, next1, outs1, w, rpc, f[i].tx);
    }
  }

  lemma {:induction false} SecondPartSameView(tr: TxTable, next: int, outs: OutTable, outs': OutTable, w: World,
                                              rpc: Rpc, g: seq<Mined>)
    requires IdsOk(tr, next) && OutsOk(tr, w, outs) && OutsOk(tr, w, outs')
    requires forall h :: Among(g, h) ==> h in tr
    ensures SameView(tr, outs, tr, outs', rpc, g)
  {
    forall i | 0 <= i < |g|
      ensures g[i].tx.txid in tr
      ensures Resolve(tr, outs, rpc, g[i].tx) == Resolve(tr, outs', rpc, g[i].tx)
      ensures RpcAddresses(tr, outs, rpc, g[i].tx.vin) == RpcAddresses(tr, outs', rpc, g[i].tx.vin)
    {
      assert Among(g, g[i].tx.txid);
      SameParents(tr, next, outs, tr, next, outs', w, rpc, g[i].tx);
    }
  }

  /** Two parts with no key in common may be added in either order. */
  lemma {:induction false} UnionSwap<K, V>(x: map<K, V>, y: map<K, V>, z: map<K, V>)
    requires x.Keys !! y.Keys
    ensures x + y + z == y + (x + z)
  {
  }

  lemma {:induction false} InputsDisjoint(tr: TxTable, next: int, w: World, outs: OutTable, rpc: Rpc, f: seq<Mined>,
                                          g: seq<Mined>)
    requires IdsOk(tr, next) && Named(w, f) && Named(w, g) && AllKnown(tr, f) && AllKnown(tr, g)
    requires forall h :: !(Among(f, h) && Among(g, h))
    ensures StagedInputs(tr, outs, rpc, f).Keys !! StagedInputs(tr, outs, rpc, g).Keys
  {
    forall s | s in StagedInputs(tr, outs, rpc, f) ensures s !in StagedInputs(tr, outs, rpc, g) {
      StagedInput(tr, next, w, outs, rpc, f, s);
      StagedInput(tr, next, w, outs, rpc, g, s);
    }
  }

  lemma {:induction false} AddressTxOfBatch(tr: TxTable, outs: OutTable, rpc: Rpc, txs: seq<Mined>, k: AddrTx)
    requires AllKnown(tr, txs) && k in StagedAddressTxs(tr, outs, rpc, txs)
    ensures exists h :: Among(txs, h) && h in tr && tr[h].id == k.txId
  {
    var n := |txs| - 1;
    if k in StagedAddressTxs(tr, outs, rpc, txs[..n]) {
      AddressTxOfBatch(tr, outs, rpc, txs[..n], k);
      var h :| Among(txs[..n], h) && h in tr && tr[h].id == k.txId;
      AmongPrefix(txs, h);
    } else {
      assert Among(txs, txs[n].tx.txid);
    }
  }

  lemma {:induction false} AddressTxsDisjoint(tr: TxTable, next: int, outs: OutTable, rpc: Rpc, f: seq<Mined>,
                                              g: seq<Mined>)
    requires IdsOk(tr, next) && AllKnown(tr, f) && AllKnown(tr, g)
    requires forall h :: !(Among(f, h) && Among(g, h))
    ensures StagedAddressTxs(tr, outs, rpc, f).Keys !! StagedAddressTxs(tr, outs, rpc, g).Keys
  {
    forall k | k in StagedAddressTxs(tr, outs, rpc, f) ensures k !in StagedAddressTxs(tr, outs, rpc, g) {
      AddressTxOfBatch(tr, outs, rpc, f, k);
      if k in StagedAddressTxs(tr, outs, rpc, g) {
        AddressTxOfBatch(tr, outs, rpc, g, k);
      }
    }
  }

  /** Outputs after a batch are determined by the transactions table, the spenders
   * before it, and which confirmed input spends what. */
  lemma {:induction false} SameOutputs(tr0: TxTable, tr1: TxTable, tr: TxTable, next: int, w: World, f: seq<Mined>,
                                       g: seq<Mined>, before: OutTable, mid: OutTable, joint: OutTable, split: OutTable)
    requires IdsOk(tr, next) && Grows(tr0, tr1, f) && Grows(tr1, tr, g)
    requires Advances(tr0, tr1, f)
    requires OutsOk(tr, w, joint) && OutsOk(tr, w, split) && OutsOk(tr1, w, mid) && OutsOk(tr0, w, before)
    requires NoDoubleSpend(w, f + g) && ParentsOfFirst(w, f, g)
    requires SpentAfter(tr, w, f + g, before, joint)
    requires SpentAfter(tr1, w, f, before, mid) && SpentAfter(tr, w, g, mid, split)
    ensures joint == split
  {
    AmongConcat(f, g);
    forall o ensures o in joint <==> o in split {
    }
    forall o | o in joint ensures joint[o] == split[o] {
      var c :| Creates(tr, w, c, o);
      assert SameOut(joint[o], w(c).vout[o.vout]) && SameOut(split[o], w(c).vout[o.vout]);
      SameSpentBy(tr0, tr1, tr, next, w, f, g, before, mid, joint, split, o);
    }
  }

  lemma {:induction false} SameSpentBy(tr0: TxTable, tr1: TxTable, tr: TxTable, next: int, w: World, f: seq<Mined>,
                                       g: seq<Mined>, before: OutTable, mid: OutTable, joint: OutTable, split: OutTable,
                                       o: Outpoint)
    requires IdsOk(tr, next) && Grows(tr0, tr1, f) && Grows(tr1, tr, g) && Advances(tr0, tr1, f)
    requires OutsOk(tr1, w, mid) && OutsOk(tr0, w, before) && OutsOk(tr, w, split)
    requires NoDoubleSpend(w, f + g) && ParentsOfFirst(w, f, g)
    requires forall h :: Among(f + g, h) <==> Among(f, h) || Among(g, h)
    requires SpentAfter(tr, w, f + g, before, joint)
    requires SpentAfter(tr1, w, f, before, mid) && SpentAfter(tr, w, g, mid, split)
    requires o in joint && o in split
    ensures joint[o].spentBy == split[o].spentBy
  {
    if SpentByBatch(tr, w, f + g, o) {
      var r := joint[o].spentBy.value;
      var q := SplitSpender(tr0, tr1, tr, next, w, f, g, before, mid, split, o);
      var h :| Among(f + g, h) && Spends(tr, w, h, r, o);
      var e :| Among(f + g, e) && Spends(tr, w, e, q, o);
      SameSpender(tr, next, w, f + g, h, r, e, q, o);
    } else {
      assert !SpentByBatch(tr, w, g, o);
      if o in mid {
        if SpentByBatch(tr1, w, f, o) {
          var h, s :| Among(f, h) && Spends(tr1, w, h, s, o);
          assert Spends(tr, w, h, s, o) && Among(f + g, h);
          assert false;
        }
      } else if o in before {
        var c :| Creates(tr0, w, c, o);
        assert Creates(tr1, w, c, o);
        assert false;
      }
    }
  }

  /** A spend by the first part does not wait for the second. */
  lemma {:induction false} SpendsBefore(tr1: TxTable, tr: TxTable, next: int, w: World, f: seq<Mined>, g: seq<Mined>,
                                        mid: OutTable, h: Hash, s: Slot, o: Outpoint, c: Hash)
    requires IdsOk(tr, next) && Grows(tr1, tr, g) && ParentsOfFirst(w, f, g) && OutsOk(tr1, w, mid) && h in tr1
    requires Among(f, h) && Spends(tr, w, h, s, o) && Creates(tr, w, c, o)
    ensures Spends(tr1, w, h, s, o) && o in mid
  {
    assert w(h).vin[s.vin].prevHash == c && c in tr1;
    assert Creates(tr1, w, c, o);
  }

  /** Written in two parts, an output that the batch spends is marked by the batch. */
  lemma {:induction false} SplitSpender(tr0: TxTable, tr1: TxTable, tr: TxTable, next: int, w: World, f: seq<Mined>,
                                        g: seq<Mined>, before: OutTable, mid: OutTable, split: OutTable, o: Outpoint)
    returns (q: Slot)
    requires IdsOk(tr, next) && Grows(tr1, tr, g) && Advances(tr0, tr1, f) && ParentsOfFirst(w, f, g)
    requires OutsOk(tr1, w, mid) && OutsOk(tr, w, split) && o in split
    requires forall h :: Among(f + g, h) <==> Among(f, h) || Among(g, h)
    requires SpentAfter(tr1, w, f, before, mid) && SpentAfter(tr, w, g, mid, split) && SpentByBatch(tr, w, f + g, o)
    ensures split[o].spentBy == Some(q) && SpenderInBatch(tr, w, f + g, q, o)
  {
    if SpentByBatch(tr, w, g, o) {
      q := split[o].spentBy.value;
      var e :| Among(g, e) && Spends(tr, w, e, q, o);
    } else {
      var h, s :| Among(f + g, h) && Spends(tr, w, h, s, o);
      var c :| Creates(tr, w, c, o);
      SpendsBefore(tr1, tr, next, w, f, g, mid, h, s, o, c);
      q := mid[o].spentBy.value;
      var e :| Among(f, e) && Spends(tr1, w, e, q, o);
      assert Spends(tr, w, e, q, o);
    }
  }

  /** Every row the batch and its parts write, once both resolve alike. */
  ghost predicate Parts(t: Tables, w: World, rpc: Rpc, a: seq<Block>, b: seq<Block>, t1: Tables, t2: Tables,
                        joint: Tables) {
    && t1 == Mine(t, a, rpc) && t2 == Mine(t1, b, rpc) && joint == Mine(t, a + b, rpc)
    && Flatten(a) != [] && Flatten(b) != [] && Flatten(a + b) == Flatten(a) + Flatten(b)
    && Structure(t1, w) && Structure(t2, w) && Structure(joint, w)
    && joint.transactions == t2.transactions && joint.nextTxId == t2.nextTxId
    && Grows(t1.transactions, t2.transactions, Flatten(b))
    && Named(w, Flatten(a)) && Named(w, Flatten(b)) && ParentsOfFirst(w, Flatten(a), Flatten(b))
    && (forall h :: Among(Flatten(a), h) ==> h in t1.transactions)
    && (forall h :: Among(Flatten(b), h) ==> h in t2.transactions)
    && (forall h :: !(Among(Flatten(a), h) && Among(Flatten(b), h)))
  }

  lemma {:induction false} KnownBatch(tr: TxTable, txs: seq<Mined>)
    requires forall h :: Among(txs, h) ==> h in tr
    ensures AllKnown(tr, txs)
  {
    forall m | m in txs ensures m.tx.txid in tr {
      assert Among(txs, m.tx.txid);
    }
  }

  /** The view phase 6 resolves against: every known output, marked or not. */
  lemma {:induction false} ViewOk(t: Tables, w: World, blocks: seq<Block>, rpc: Rpc, t': Tables, txs: seq<Mined>)
    returns (view: OutTable)
    requires Structure(t', w) && t' == Mine(t, blocks, rpc) && txs == Flatten(blocks) != []
    requires AddressesKnown(t.outputs, t.rollups)
    ensures AllKnown(t'.transactions, txs) && OutsOk(t'.transactions, w, view)
    ensures t'.inputs == StagedInputs(t'.transactions, view, rpc, txs) + t.inputs
    ensures t'.addressTxs == StagedAddressTxs(t'.transactions, view, rpc, txs) + t.addressTxs
    ensures t'.rollups == Merge(t.rollups, BatchDelta(t'.transactions, view, rpc, blocks, txs))
  {
    var tr, rows := BatchRows(t, blocks, rpc, t', txs);
    view := rows + t.outputs;
    UnmarkOuts(tr, w, view, Marks(tr, txs), true);
    MineRollups(t, blocks, rpc, t', tr, txs, rows);
    MinedRollupsAreDelta(t.rollups, tr, t.outputs, rows, rpc, blocks, txs);
  }

  lemma {:induction false} UnmarkOuts(tr: TxTable, w: World, outs: OutTable, marks: seq<Mark>, confirmed: bool)
    requires OutsOk(tr, w, MarkSpent(outs, marks, confirmed))
    ensures OutsOk(tr, w, outs)
  {
    forall h, o | Creates(tr, w, h, o) ensures o in outs && SameOut(outs[o], w(h).vout[o.vout]) {
      assert o in MarkSpent(outs, marks, confirmed);
    }
    forall o | o in outs ensures exists h :: Creates(tr, w, h, o) {
      assert o in MarkSpent(outs, marks, confirmed);
    }
  }

  lemma {:induction false} MineRollups(t: Tables, blocks: seq<Block>, rpc: Rpc, t': Tables, tr: TxTable,
                                       txs: seq<Mined>, rows: OutTable)
    requires txs == Flatten(blocks) != [] && tr == ConfirmTxs(t.transactions, t.nextTxId, txs)
             && t' == Mine(t, blocks, rpc)
    requires AllKnown(tr, txs) && rows == StagedOutputs(tr, txs)
    ensures t'.rollups == MinedRollups(t.rollups, tr, rows + t.outputs, rpc, blocks, txs)
    ensures t'.addressTxs == StagedAddressTxs(tr, rows + t.outputs, rpc, txs) + t.addressTxs
  {
    var headers := t.(blocks := PutBlocks(t.blocks, blocks));
    MineIsMineTxs(t, blocks, rpc, tr, txs, headers, t');
    MineTxsRollups(headers, tr, blocks, txs, rpc, rows, t');
    MineTxsAddressTxs(headers, tr, blocks, txs, rpc, rows, t');
  }

  lemma {:induction false} SplitStaged(t: Tables, w: World, rpc: Rpc, a: seq<Block>, b: seq<Block>, t1: Tables,
                                       t2: Tables, joint: Tables)
    requires Parts(t, w, rpc, a, b, t1, t2, joint)
    requires AddressesKnown(t.outputs, t.rollups) && AddressesKnown(t1.outputs, t1.rollups)
    ensures joint.inputs == t2.inputs && joint.addressTxs == t2.addressTxs && joint.rollups == t2.rollups
  {
    var f, g := Flatten(a), Flatten(b);
    var tr1, tr := t1.transactions, t2.transactions;
    var v1 := ViewOk(t, w, a, rpc, t1, f);
    var v2 := ViewOk(t1, w, b, rpc, t2, g);
    var v := ViewOk(t, w, a + b, rpc, joint, f + g);
    FirstPartSameView(tr1, t1.nextTxId, v1, tr, t2.nextTxId, v, w, rpc, f, g);
    SecondPartSameView(tr, t2.nextTxId, v, v2, w, rpc, g);
    KnownBatch(tr, f);
    SameViewSame(tr, v, tr1, v1, rpc, f);
    SameViewSame(tr, v, tr, v2, rpc, g);
    StagedInputsConcat(tr, v, rpc, f, g);
    InputsDisjoint(tr, t2.nextTxId, w, v, rpc, f, g);
    UnionSwap(StagedInputs(tr, v, rpc, f), StagedInputs(tr, v, rpc, g), t.inputs);
    StagedAddressTxsConcat(tr, v, rpc, f, g);
    AddressTxsDisjoint(tr, t2.nextTxId, v, rpc, f, g);
    UnionSwap(StagedAddressTxs(tr, v, rpc, f), StagedAddressTxs(tr, v, rpc, g), t.addressTxs);
    SameViewRpc(tr, v, tr1, v1, rpc, f);
    SameViewRpc(tr, v, tr, v2, rpc, g);
    DeltaConcat(tr, v, rpc, a, b, f, g);
    MergeAssociative(t.rollups, BatchDelta(tr1, v1, rpc, a, f), BatchDelta(tr, v2, rpc, b, g));
  }

  // ------------------------------------------------------------ address rows

  lemma {:induction false} MarkedAddress(outs: OutTable, marks: seq<Mark>, confirmed: bool, o: Outpoint)
    requires o in MarkSpent(outs, marks, confirmed)
    ensures o in outs && outs[o].address == MarkSpent(outs, marks, confirmed)[o].address
  {
  }

  /** Every indexed address has its row after a batch, too. */
  lemma {:induction false} MineAddressesKnown(t: Tables, blocks: seq<Block>, rpc: Rpc, t': Tables)
    requires AddressesKnown(t.outputs, t.rollups) && t' == Mine(t, blocks, rpc)
    ensures AddressesKnown(t'.outputs, t'.rollups)
  {
    var txs := Flatten(blocks);
    if txs != [] {
      var tr, rows := BatchRows(t, blocks, rpc, t', txs);
      MineRollups(t, blocks, rpc, t', tr, txs, rows);
      MinedRollupsAreDelta(t.rollups, tr, t.outputs, rows, rpc, blocks, txs);
      var delta := BatchDelta(tr, rows + t.outputs, rpc, blocks, txs);
      forall o | o in t'.outputs && t'.outputs[o].address.Some?
        ensures AddressTotal(t'.outputs[o].address.value) in t'.rollups
      {
        var k := AddressTotal(t'.outputs[o].address.value);
        MarkedAddress(rows + t.outputs, Marks(tr, txs), true, o);
        AtMerge(t.rollups, delta, k);
        if o !in t.outputs {
          StagedAddresses(tr, txs, o);
          DeltaKnows(tr, rows + t.outputs, rpc, blocks, txs, k);
        }
      }
    }
  }

  lemma {:induction false} DeltaKnows(tr: TxTable, outs: OutTable, rpc: Rpc, blocks: seq<Block>, txs: seq<Mined>,
                                      k: RollupKey)
    requires k.AddressTotal? && k.address in BatchOutAddresses(txs)
    ensures k in BatchDelta(tr, outs, rpc, blocks, txs)
  {
    var o, r := KnownAddresses(BatchOutAddresses(txs)), KnownAddresses(BatchRpcAddresses(tr, outs, rpc, txs));
    var walk := Walk(tr, outs, rpc, txs);
    KnownRows(BatchOutAddresses(txs), k);
    AtMerge(o, r, k);
    AtMerge(Merge(o, r), Merge(Merge(walk, Weekly(walk)), ChainStats(blocks)), k);
  }

  lemma {:induction false} SeeRollups(t: Tables, tx: Tx, rpc: Rpc, tr: TxTable, rows: OutTable)
    requires tx.txid !in t.transactions
    requires tr == t.transactions[tx.txid := NewRow(t.nextTxId, None, tx)] && rows == TxOutputs(t.nextTxId, tx.vout)
    ensures See(t, tx, rpc).rollups == Merge(Merge(t.rollups, KnownAddresses(OutAddresses(tx.vout))),
                                             KnownAddresses(RpcAddresses(tr, rows + t.outputs, rpc, tx.vin)))
  {
  }

  lemma {:induction false} SeeAddressesKnown(t: Tables, tx: Tx, rpc: Rpc, t': Tables)
    requires AddressesKnown(t.outputs, t.rollups) && t' == See(t, tx, rpc)
    ensures AddressesKnown(t'.outputs, t'.rollups)
  {
    if tx.txid !in t.transactions {
      var tr' := t.transactions[tx.txid := NewRow(t.nextTxId, None, tx)];
      var rows := TxOutputs(t.nextTxId, tx.vout);
      SeeTables(t, tx, rpc, tr', rows);
      SeeRollups(t, tx, rpc, tr', rows);
      SeenAddressesKnown(t.rollups, t.outputs, rows, t.nextTxId, tx, RpcAddresses(tr', rows + t.outputs, rpc, tx.vin));
      forall o | o in t'.outputs && t'.outputs[o].address.Some?
        ensures AddressTotal(t'.outputs[o].address.value) in t'.rollups
      {
        MarkedAddress(rows + t.outputs, MarksUpTo(tr', t.nextTxId, tx.vin), false, o);
      }
    }
  }

  lemma {:induction false} SeenAddress(r: Rollups, outs: OutTable, rows: OutTable, id: int, tx: Tx, o: Outpoint,
                                       a: Address)
    requires AddressesKnown(outs, r) && rows == TxOutputs(id, tx.vout)
    requires o in rows + outs && (rows + outs)[o].address == Some(a)
    ensures AddressTotal(a) in r || AddressTotal(a) in KnownAddresses(OutAddresses(tx.vout))
  {
    if o !in outs {
      assert tx.vout[o.vout].address == Some(a);
      KnownRows(OutAddresses(tx.vout), AddressTotal(a));
    }
  }

  lemma {:induction false} SeenAddressesKnown(r: Rollups, outs: OutTable, rows: OutTable, id: int, tx: Tx,
                                              others: set<Address>)
    requires AddressesKnown(outs, r) && rows == TxOutputs(id, tx.vout)
    ensures AddressesKnown(rows + outs, Merge(Merge(r, KnownAddresses(OutAddresses(tx.vout))), KnownAddresses(others)))
  {
    var r1, r2 := KnownAddresses(OutAddresses(tx.vout)), KnownAddresses(others);
    forall o | o in rows + outs && (rows + outs)[o].address.Some?
      ensures AddressTotal((rows + outs)[o].address.value) in Merge(Merge(r, r1), r2)
    {
      var a := (rows + outs)[o].address.value;
      SeenAddress(r, outs, rows, id, tx, o, a);
      AtMergedTwice(r, r1, r2, AddressTotal(a));
    }
  }

  // -------------------------------------------------------------- main results

  lemma {:induction false} TailOnce(w: World, chain: seq<Mined>, txs: seq<Mined>)
    requires NoDoubleSpend(w, chain + txs)
    ensures NoDoubleSpend(w, txs)
  {
    AmongConcat(chain, txs);
  }

  /** Both ways of writing the batch are steps over the same valid chain. */
  lemma {:induction false} SplitInv(t: Tables, w: World, chain: seq<Mined>, a: seq<Block>, b: seq<Block>, rpc: Rpc,
                                    t1: Tables, t2: Tables, joint: Tables, f: seq<Mined>, g: seq<Mined>)
    requires Inv(t, w, chain) && Extends(w, chain, f + g) && f == Flatten(a) != [] && g == Flatten(b) != []
    requires Flatten(a + b) == f + g
    requires t1 == Mine(t, a, rpc) && t2 == Mine(t1, b, rpc) && joint == Mine(t, a + b, rpc)
    ensures Inv(t1, w, chain + f) && Inv(t2, w, chain + f + g) && Inv(joint, w, chain + (f + g))
    ensures Extends(w, chain, f) && Extends(w, chain + f, g) && ParentsOfFirst(w, f, g)
    ensures forall h :: !(Among(f, h) && Among(g, h))
    ensures Advances(t.transactions, t1.transactions, f) && Distinct(f)
  {
    TailFacts(w, chain, f + g);
    FirstPartDistinct(f, g);
    var _, _ := BatchRows(t, a, rpc, t1, f);
    MineAdvances(t.transactions, t.nextTxId, f);
    ExtendsSplit(w, chain, f, g);
    MineKeeps(t, w, chain, a, rpc, t1, f);
    MineKeeps(t1, w, chain + f, b, rpc, t2, g);
    MineKeeps(t, w, chain, a + b, rpc, joint, f + g);
  }

  lemma {:induction false} FirstPartDistinct(f: seq<Mined>, g: seq<Mined>)
    requires Distinct(f + g)
    ensures Distinct(f)
  {
    assert forall i :: 0 <= i < |f| ==> (f + g)[i] == f[i];
  }

  lemma {:induction false} MineTransactions(t: Tables, blocks: seq<Block>, rpc: Rpc, t': Tables, txs: seq<Mined>)
    requires t' == Mine(t, blocks, rpc) && txs == Flatten(blocks) != []
    ensures t'.transactions == ConfirmTxs(t.transactions, t.nextTxId, txs) && t'.nextTxId == t.nextTxId + |txs|
  {
    var _, _ := BatchRows(t, blocks, rpc, t', txs);
  }

  lemma {:induction false} SplitTransactions(tr0: TxTable, next: int, tr1: TxTable, tr2: TxTable, joint: TxTable,
                                             f: seq<Mined>, g: seq<Mined>)
    requires tr1 == ConfirmTxs(tr0, next, f) && tr2 == ConfirmTxs(tr1, next + |f|, g)
    requires joint == ConfirmTxs(tr0, next, f + g) && Distinct(f + g) && Distinct(g)
    ensures joint == tr2 && Advances(tr1, tr2, g) && Advances(tr0, tr2, f + g)
  {
    ConfirmTxsConcat(tr0, next, f, g);
    MineAdvances(tr1, next + |f|, g);
    MineAdvances(tr0, next, f + g);
  }

  lemma {:induction false} SplitStep(t: Tables, w: World, chain: seq<Mined>, a: seq<Block>, b: seq<Block>, rpc: Rpc,
                                     t1: Tables, t2: Tables, joint: Tables, f: seq<Mined>, g: seq<Mined>)
    requires Inv(t, w, chain) && Extends(w, chain, f + g) && f == Flatten(a) != [] && g == Flatten(b) != []
    requires Flatten(a + b) == f + g
    requires t1 == Mine(t, a, rpc) && t2 == Mine(t1, b, rpc) && joint == Mine(t, a + b, rpc)
    ensures Parts(t, w, rpc, a, b, t1, t2, joint) && joint.outputs == t2.outputs && joint.utxo == t2.utxo
  {
    var tr0, tr1, tr2 := t.transactions, t1.transactions, t2.transactions;
    SplitInv(t, w, chain, a, b, rpc, t1, t2, joint, f, g);
    TailFacts(w, chain, f);
    TailFacts(w, chain + f, g);
    TailFacts(w, chain, f + g);
    MineTransactions(t, a, rpc, t1, f);
    MineTransactions(t1, b, rpc, t2, g);
    MineTransactions(t, a + b, rpc, joint, f + g);
    SplitTransactions(tr0, t.nextTxId, tr1, tr2, joint.transactions, f, g);
    MineStructure(t, w, a, rpc, t1, f);
    MineStructure(t1, w, b, rpc, t2, g);
    MineStructure(t, w, a + b, rpc, joint, f + g);
    TailOnce(w, chain, f + g);
    SameOutputs(tr0, tr1, tr2, t2.nextTxId, w, f, g, t.outputs, t1.outputs, joint.outputs, t2.outputs);
  }

  /** Batch-size independence: writing two runs of blocks in one batch leaves the
   * very same tables as writing them in two, ids included. */
  lemma {:induction false} MineSplits(t: Tables, w: World, chain: seq<Mined>, a: seq<Block>, b: seq<Block>, rpc: Rpc)
    requires Inv(t, w, chain) && AddressesKnown(t.outputs, t.rollups)
    requires Extends(w, chain, Flatten(a + b)) && Flatten(a) != [] && Flatten(b) != []
    ensures Mine(t, a + b, rpc) == Mine(Mine(t, a, rpc), b, rpc)
  {
    var t1 := Mine(t, a, rpc);
    var t2, joint := Mine(t1, b, rpc), Mine(t, a + b, rpc);
    FlattenConcat(a, b);
    SplitStep(t, w, chain, a, b, rpc, t1, t2, joint, Flatten(a), Flatten(b));
    MineAddressesKnown(t, a, rpc, t1);
    SplitStaged(t, w, rpc, a, b, t1, t2, joint);
    PutBlocksConcat(t.blocks, a, b);
    MineBlocks(t, a, rpc);
    MineBlocks(t1, b, rpc);
    MineBlocks(t, a + b, rpc);
  }

  lemma {:induction false} MineBlocks(t: Tables, blocks: seq<Block>, rpc: Rpc)
    ensures Mine(t, blocks, rpc).blocks == PutBlocks(t.blocks, blocks)
  {
  }
}
