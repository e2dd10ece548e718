/** The imperative index over whole runs: for every cache capacity it ends in the
 * state of the cache-free specification. */
module IndexRuns {
  import opened Prelude
  import opened Ledger
  import opened LedgerFacts
  import opened LedgerInvariants
  import opened LedgerMine
  import opened LedgerSee
  import opened LedgerRuns
  import opened UtxoCaching
  import opened Storage
  import opened InputResolution
  import opened BlockWriter

  /** Txids name transactions, and none is repeated inside one commit batch. The
   * batches need not form a valid chain. */
  ghost predicate NamedEvent(w: World, e: Event) {
    match e
    case Batch(blocks, _) => Distinct(Flatten(blocks)) && Named(w, Flatten(blocks))
    case Pending(tx, _) => tx == w(tx.txid)
  }

  lemma {:induction false} MineKeepsStructure(t: Tables, w: World, blocks: seq<Block>, rpc: Rpc)
    requires Structure(t, w) && Distinct(Flatten(blocks)) && Named(w, Flatten(blocks))
    ensures Structure(Mine(t, blocks, rpc), w)
  {
    if Flatten(blocks) != [] {
      MineStructure(t, w, blocks, rpc, Mine(t, blocks, rpc), Flatten(blocks));
    }
  }

  lemma {:induction false} SeeKeepsStructure(t: Tables, w: World, tx: Tx, rpc: Rpc)
    requires Structure(t, w) && tx == w(tx.txid)
    ensures Structure(See(t, tx, rpc), w)
  {
    if tx.txid !in t.transactions {
      var tr := t.transactions[tx.txid := NewRow(t.nextTxId, None, tx)];
      SeeStructure(t, w, tx, rpc, tr, TxOutputs(t.nextTxId, tx.vout));
    }
  }

  /** A mempool step changes no id, address or value the cache may hold. */
  lemma {:induction false} SeeKeepsCoherent(c: Cache, t: Tables, tx: Tx, rpc: Rpc)
    requires Coherent(c, t.transactions, t.outputs)
    ensures Coherent(c, See(t, tx, rpc).transactions, See(t, tx, rpc).outputs)
  {
    if tx.txid !in t.transactions {
      var tr := t.transactions[tx.txid := NewRow(t.nextTxId, None, tx)];
      var rows := TxOutputs(t.nextTxId, tx.vout);
      CoherentAfterInserts(c, t.transactions, tr, t.outputs, rows);
      CoherentAfterMarks(c, tr, rows + t.outputs, MarksUpTo(tr, t.nextTxId, tx.vin), false);
    }
  }

  method IndexEvent(e: Event, cache: UtxoCache, db: Database, ghost w: World)
    requires Structure(db.State(), w) && NamedEvent(w, e) && Coherent(cache.State(), db.transactions, db.outputs)
    modifies db, cache
    ensures db.State() == Step(old(db.State()), e)
    ensures Structure(db.State(), w) && Coherent(cache.State(), db.transactions, db.outputs)
  {
    ghost var t := db.State();
    match e
    case Batch(blocks, rpc) =>
      MineKeepsStructure(t, w, blocks, rpc);
      WriteBatch(blocks, cache, rpc, db, w);
    case Pending(tx, rpc) =>
      SeeKeepsStructure(t, w, tx, rpc);
      SeeKeepsCoherent(cache.State(), t, tx, rpc);
      var added := IndexPending(tx, rpc, db);
  }

  /** The cache is invisible: from an empty index and an empty cache, any run ends in
   * the same tables whatever the capacity, those of the cache-free `Run`. */
  method IndexAll(events: seq<Event>, capacity: nat, ghost w: World) returns (db: Database)
    requires forall e :: e in events ==> NamedEvent(w, e)
    ensures fresh(db) && db.State() == Run(EMPTY, events)
  {
    db := new Database();
    var cache := new UtxoCache(capacity);
    EmptyInv(w);
    for i := 0 to |events|
      invariant fresh(db) && fresh(cache)
      invariant db.State() == Run(EMPTY, events[..i])
      invariant Structure(db.State(), w) && Coherent(cache.State(), db.transactions, db.outputs)
    {
      assert events[..i + 1][..i] == events[..i];
      IndexEvent(events[i], cache, db, w);
    }
    assert events[..|events|] == events;
  }
}
