/** Commit batches are invisible: however a stretch of blocks is cut into batches, the
 * tables come out the same, and exactly which cuts a block without transactions breaks. */
module LedgerBatching {
  import opened Prelude
  import opened Rollups
  import opened Ledger
  import opened LedgerFacts
  import opened LedgerInvariants
  import opened LedgerMine
  import opened LedgerDeltas
  import opened LedgerBatches
  import opened LedgerTotals

  function Concat(batches: seq<seq<Block>>): seq<Block> {
    if batches == [] then [] else Concat(batches[..|batches| - 1]) + batches[|batches| - 1]
  }

  /** One `write_batch` per batch. */
  function MineEach(t: Tables, batches: seq<seq<Block>>, rpc: Rpc): Tables {
    if batches == [] then t else Mine(MineEach(t, batches[..|batches| - 1], rpc), batches[|batches| - 1], rpc)
  }

  /** Every block has a coinbase. */
  predicate Coinbases(blocks: seq<Block>) {
    forall b :: b in blocks ==> b.txs != []
  }

  lemma {:induction false} CoinbasesFlatten(blocks: seq<Block>)
    requires Coinbases(blocks) && blocks != []
    ensures Flatten(blocks) != []
  {
    assert blocks[|blocks| - 1] in blocks;
    assert MinedTxs(blocks[|blocks| - 1]) != [];
  }

  lemma {:induction false} MineNothing(t: Tables, rpc: Rpc)
    ensures Mine(t, [], rpc) == t
  {
  }

  lemma {:induction false} CoinbasesSplit(a: seq<Block>, b: seq<Block>)
    requires Coinbases(a + b)
    ensures Coinbases(a) && Coinbases(b)
  {
    assert forall x :: x in a ==> x in a + b;
    assert forall x :: x in b ==> x in a + b;
  }

  lemma {:induction false} AnyCut(t: Tables, w: World, chain: seq<Mined>, a: seq<Block>, b: seq<Block>, rpc: Rpc)
    requires Inv(t, w, chain) && AddressesKnown(t.outputs, t.rollups)
    requires Extends(w, chain, Flatten(a + b)) && Coinbases(a + b)
    ensures Mine(t, a + b, rpc) == Mine(Mine(t, a, rpc), b, rpc)
  {
    CoinbasesSplit(a, b);
    if a == [] {
      assert a + b == b;
      MineNothing(t, rpc);
    } else if b == [] {
      assert a + b == a;
      MineNothing(Mine(t, a, rpc), rpc);
    } else {
      CoinbasesFlatten(a);
      CoinbasesFlatten(b);
      MineSplits(t, w, chain, a, b, rpc);
    }
  }

  lemma {:induction false} FirstExtends(w: World, chain: seq<Mined>, f: seq<Mined>, g: seq<Mined>)
    requires Extends(w, chain, f + g)
    ensures Extends(w, chain, f)
  {
    ExtendsSplit(w, chain, f, g);
  }

  /** Batch-size independence: any way of cutting the blocks into commit batches
   * leaves the tables that one batch of all of them leaves. */
  lemma {:induction false} AnyBatching(t: Tables, w: World, chain: seq<Mined>, batches: seq<seq<Block>>, rpc: Rpc)
    requires Inv(t, w, chain) && AddressesKnown(t.outputs, t.rollups)
    requires Extends(w, chain, Flatten(Concat(batches))) && Coinbases(Concat(batches))
    ensures MineEach(t, batches, rpc) == Mine(t, Concat(batches), rpc)
  {
    if batches == [] {
      MineNothing(t, rpc);
    } else {
      var before, last := batches[..|batches| - 1], batches[|batches| - 1];
      FlattenConcat(Concat(before), last);
      FirstExtends(w, chain, Flatten(Concat(before)), Flatten(last));
      CoinbasesSplit(Concat(before), last);
      AnyBatching(t, w, chain, before, rpc);
      AnyCut(t, w, chain, Concat(before), last, rpc);
    }
  }

  // ------------------------------------------------- blocks without transactions

  lemma {:induction false} NoHourPart(m: Mined, res: seq<Resolved>, h: int)
    ensures WalkPart(m, res, HourStats(h)) == ZERO
  {
    assert !HasAddress(HourStats(h));
  }

  lemma {:induction false} HourWalkIsZero(tr: TxTable, outs: OutTable, rpc: Rpc, txs: seq<Mined>, k: RollupKey)
    requires k.HourStats?
    ensures WalkSum(tr, outs, rpc, txs, k) == ZERO
  {
    if txs != [] {
      var before, m := txs[..|txs| - 1], txs[|txs| - 1];
      assert txs == before + [m];
      HourWalkIsZero(tr, outs, rpc, before, k);
      WalkSumStep(tr, outs, rpc, before, m, k);
      NoHourPart(m, Resolve(tr, outs, rpc, m.tx), k.hour);
    }
  }

  lemma {:induction false} TxsCountNoBlock(txs: seq<Tx>, time: int, h: int)
    ensures TxsTotal(txs, time, HourStats(h)).blocks == 0
  {
    if txs != [] {
      TxsCountNoBlock(txs[..|txs| - 1], time, h);
    }
  }

  lemma {:induction false} BlocksCounted(blocks: seq<Block>, h: int)
    ensures StatsTotal(blocks, HourStats(h)).blocks >= 0
    ensures blocks != [] && HourOf(blocks[|blocks| - 1].time) == h ==> StatsTotal(blocks, HourStats(h)).blocks > 0
  {
    if blocks != [] {
      var b := blocks[|blocks| - 1];
      BlocksCounted(blocks[..|blocks| - 1], h);
      TxsCountNoBlock(b.txs, b.time, h);
    }
  }

  lemma {:induction false} HourDelta(tr: TxTable, view: OutTable, rpc: Rpc, blocks: seq<Block>, txs: seq<Mined>, h: int)
    ensures At(BatchDelta(tr, view, rpc, blocks, txs), HourStats(h)).blocks == StatsTotal(blocks, HourStats(h)).blocks
  {
    AtBatchDelta(tr, view, rpc, blocks, txs, HourStats(h));
    HourWalkIsZero(tr, view, rpc, txs, HourStats(h));
  }

  lemma {:induction false} HourAdds(r: Rollups, r': Rollups, tr: TxTable, view: OutTable, rpc: Rpc, blocks: seq<Block>,
                                    txs: seq<Mined>, h: int)
    requires r' == Merge(r, BatchDelta(tr, view, rpc, blocks, txs))
    ensures At(r', HourStats(h)).blocks == At(r, HourStats(h)).blocks + StatsTotal(blocks, HourStats(h)).blocks
  {
    HourDelta(tr, view, rpc, blocks, txs, h);
    AtMerge(r, BatchDelta(tr, view, rpc, blocks, txs), HourStats(h));
  }

  /** A batch with a transaction counts all its blocks, one without counts none. */
  lemma {:induction false} HourAfter(t: Tables, w: World, blocks: seq<Block>, rpc: Rpc, t': Tables, h: int)
    requires Structure(t, w) && Distinct(Flatten(blocks)) && Named(w, Flatten(blocks))
    requires AddressesKnown(t.outputs, t.rollups) && t' == Mine(t, blocks, rpc)
    ensures At(t'.rollups, HourStats(h)).blocks ==
            At(t.rollups, HourStats(h)).blocks
              + if Flatten(blocks) == [] then 0 else StatsTotal(blocks, HourStats(h)).blocks
  {
    var txs := Flatten(blocks);
    if txs != [] {
      MineStructure(t, w, blocks, rpc, t', txs);
      var view := ViewOk(t, w, blocks, rpc, t', txs);
      HourAdds(t.rollups, t'.rollups, t'.transactions, view, rpc, blocks, txs, h);
    }
  }

  /** A batch of headers beside one of transactions loses its headers' count when it
   * is written alone. */
  ghost predicate LosesHeaders(a: seq<Block>, b: seq<Block>) {
    || (a != [] && Flatten(a) == [] && Flatten(b) != [])
    || (b != [] && Flatten(b) == [] && Flatten(a) != [])
  }

  lemma {:induction false} HeadersLost(t: Tables, w: World, chain: seq<Mined>, a: seq<Block>, b: seq<Block>, rpc: Rpc)
    requires Inv(t, w, chain) && AddressesKnown(t.outputs, t.rollups)
    requires Extends(w, chain, Flatten(a + b)) && LosesHeaders(a, b)
    ensures Mine(t, a + b, rpc) != Mine(Mine(t, a, rpc), b, rpc)
  {
    FlattenConcat(a, b);
    TailFacts(w, chain, Flatten(a + b));
    var t1 := Mine(t, a, rpc);
    var t2, joint := Mine(t1, b, rpc), Mine(t, a + b, rpc);
    var empty := if Flatten(a) == [] then a else b;
    var h := HourOf(empty[|empty| - 1].time);
    MineAddressesKnown(t, a, rpc, t1);
    StatsTotalConcat(a, b, HourStats(h));
    BlocksCounted(empty, h);
    HourAfter(t, w, a + b, rpc, joint, h);
    if Flatten(a) == [] {
      assert Flatten(a + b) == Flatten(b);
      HourAfter(t, w, a, rpc, t1, h);
      HourAfter(t1, w, b, rpc, t2, h);
    } else {
      assert Flatten(a + b) == Flatten(a);
      HourAfter(t, w, a, rpc, t1, h);
      MineStructure(t, w, a, rpc, t1, Flatten(a));
      HourAfter(t1, w, b, rpc, t2, h);
    }
  }

  /** For every batch that extends the chain: a cut is invisible if and only if it does
   * not set blocks without transactions apart from ones with. */
  lemma {:induction false} CutInvisibleIff(t: Tables, w: World, chain: seq<Mined>, a: seq<Block>, b: seq<Block>,
                                           rpc: Rpc)
    requires Inv(t, w, chain) && AddressesKnown(t.outputs, t.rollups) && Extends(w, chain, Flatten(a + b))
    ensures Mine(t, a + b, rpc) == Mine(Mine(t, a, rpc), b, rpc) <==> !LosesHeaders(a, b)
  {
    FlattenConcat(a, b);
    if LosesHeaders(a, b) {
      HeadersLost(t, w, chain, a, b, rpc);
    } else if a == [] {
      assert a + b == b;
      MineNothing(t, rpc);
    } else if b == [] {
      assert a + b == a;
      MineNothing(Mine(t, a, rpc), rpc);
    } else if Flatten(a) == [] {
      PutBlocksConcat(t.blocks, a, b);
    } else {
      MineSplits(t, w, chain, a, b, rpc);
    }
  }
}
