/** The rollback in every run: also for blocks whose transactions the mempool showed first. */
module RollbackRuns {
  import opened Prelude
  import opened Rollups
  import opened Ledger
  import opened LedgerFacts
  import opened LedgerInvariants
  import opened LedgerMine
  import opened LedgerSee
  import opened LedgerRuns
  import opened LedgerDeltas
  import opened LedgerBatches
  import opened LedgerTotals
  import opened LedgerBalance
  import opened LedgerSums
  import opened LedgerListing
  import opened StoredTruth
  import opened Rollback

  lemma {:induction false} ConfirmKeepsFlags(tr: TxTable, next: int, w: World, txs: seq<Mined>)
    requires FlagsOk(tr, w) && Distinct(txs) && Named(w, txs)
    ensures FlagsOk(ConfirmTxs(tr, next, txs), w)
  {
    var tr1 := ConfirmTxs(tr, next, txs);
    ConfirmTxsRows(tr, next, txs);
    forall x | x in tr1
      ensures tr1[x].txType == w(x).txType && tr1[x].coinjoin == CoinJoin(w(x)) && tr1[x].multisig == w(x).multisig
    {
      if Among(txs, x) {
        var i :| 0 <= i < |txs| && txs[i].tx.txid == x;
        FlagsNow(tr, next, w, txs, i);
      }
    }
  }

  lemma {:induction false} MineKeepsFlags(t: Tables, w: World, chain: seq<Mined>, blocks: seq<Block>, rpc: Rpc,
                                          t': Tables, txs: seq<Mined>)
    requires FlagsOk(t.transactions, w) && txs == Flatten(blocks) != [] && ValidChain(w, chain + txs)
    requires t' == Mine(t, blocks, rpc)
    ensures FlagsOk(t'.transactions, w)
  {
    TailFacts(w, chain, txs);
    ConfirmKeepsFlags(t.transactions, t.nextTxId, w, txs);
    MineTransactions(t, blocks, rpc, t', txs);
  }

  lemma {:induction false} SeeKeepsFlags(t: Tables, w: World, tx: Tx, rpc: Rpc)
    requires FlagsOk(t.transactions, w) && tx == w(tx.txid)
    ensures FlagsOk(See(t, tx, rpc).transactions, w)
  {
    if tx.txid !in t.transactions {
      SeeTables(t, tx, rpc, t.transactions[tx.txid := NewRow(t.nextTxId, None, tx)], TxOutputs(t.nextTxId, tx.vout));
    }
  }

  lemma {:induction false} StepKeepsFlags(t: Tables, w: World, chain: seq<Mined>, e: Event, t': Tables)
    requires FlagsOk(t.transactions, w) && ValidEvent(w, chain, e) && t' == Step(t, e)
    ensures FlagsOk(t'.transactions, w)
  {
    match e
    case Batch(blocks, rpc) =>
      if Flatten(blocks) != [] { MineKeepsFlags(t, w, chain, blocks, rpc, t', Flatten(blocks)); }
    case Pending(tx, rpc) => SeeKeepsFlags(t, w, tx, rpc);
  }

  lemma {:induction false} RunKeepsFlags(w: World, events: seq<Event>)
    requires ValidRun(w, [], events)
    ensures FlagsOk(Run(EMPTY, events).transactions, w)
  {
    if events != [] {
      var before, e := events[..|events| - 1], events[|events| - 1];
      RunKeepsFlags(w, before);
      LastEvent(w, events, Run(EMPTY, before));
      StepKeepsFlags(Run(EMPTY, before), w, ChainOf(before), e, Run(EMPTY, events));
    }
  }

  // ------------------------------------------------------------ what rows carry

  ghost predicate CarriesAt(t1: Tables, view: OutTable, rpc: Rpc, input: TxIn, s: Slot) {
    s in t1.inputs ==>
      var row, found := t1.inputs[s], Lookup(t1.transactions, view, rpc, input);
      row.address == found.address && row.amount == found.amount
  }

  /** Of a transaction first stored with the block, the row is the resolution itself. */
  lemma {:induction false} FreshRow(t: Tables, w: World, rpc: Rpc, txs: seq<Mined>, t1: Tables, view: OutTable, x: Hash,
                                    s: Slot)
    requires Structure(t, w) && Structure(t1, w) && Named(w, txs) && AllKnown(t1.transactions, txs)
    requires t1.inputs == StagedInputs(t1.transactions, view, rpc, txs) + t.inputs
    requires forall y :: y in t.transactions ==> y in t1.transactions && t1.transactions[y].id == t.transactions[y].id
    requires x !in t.transactions && Among(txs, x) && Holds(t1.transactions, w, x, s)
    ensures CarriesAt(t1, view, rpc, w(x).vin[s.vin], s)
  {
    NotStoredBefore(t, w, t1.transactions, t1.nextTxId, x, s);
    StagedInput(t1.transactions, t1.nextTxId, w, view, rpc, txs, s);
  }

  /** Of a transaction seen before, the row and the resolution are both true. */
  lemma {:induction false} SeenRow(t: Tables, w: World, rpc: Rpc, t1: Tables, view: OutTable, xs: iset<Hash>, x: Hash,
                                   s: Slot, input: TxIn)
    requires InsOk(t.transactions, w, t.inputs) && IdsOk(t1.transactions, t1.nextTxId)
             && OutsOk(t1.transactions, w, view)
    requires RowsTrue(t, w, xs) && forall r :: r in t.inputs ==> r in t1.inputs && t1.inputs[r] == t.inputs[r]
    requires x in xs && x in t.transactions && x in t1.transactions && t1.transactions[x].id == t.transactions[x].id
    requires Holds(t1.transactions, w, x, s) && input == w(x).vin[s.vin] && Agrees(w, rpc)
             && Sourced(t1.transactions, w, rpc, input)
    ensures CarriesAt(t1, view, rpc, input, s)
  {
    OldRowTrue(t, t1, w, xs, x, s);
    SourcedIsTrue(t1.transactions, t1.nextTxId, w, view, rpc, input);
  }

  /** What the block's stored inputs need, for those of its transactions seen before. */
  ghost predicate SeenSourced(t: Tables, w: World, rpc: Rpc, txs: seq<Mined>, t1: Tables) {
    forall i :: 0 <= i < |txs| && txs[i].tx.txid in t.transactions ==> AllSourced(t1.transactions, w, rpc, txs[i].tx)
  }

  function Hashes(txs: seq<Mined>): iset<Hash> {
    iset i | 0 <= i < |txs| :: txs[i].tx.txid
  }

  lemma {:induction false} BlockCarries(t: Tables, w: World, rpc: Rpc, txs: seq<Mined>, t1: Tables, view: OutTable)
    requires Structure(t, w) && Structure(t1, w) && OutsOk(t1.transactions, w, view) && Named(w, txs)
    requires AllKnown(t1.transactions, txs) && view == StagedOutputs(t1.transactions, txs) + t.outputs
    requires t1.inputs == StagedInputs(t1.transactions, view, rpc, txs) + t.inputs
    requires forall y :: y in t.transactions ==> y in t1.transactions && t1.transactions[y].id == t.transactions[y].id
    requires forall r :: r in t.inputs ==> r in t1.inputs && t1.inputs[r] == t.inputs[r]
    requires RowsTrue(t, w, Hashes(txs)) && SeenSourced(t, w, rpc, txs, t1)
    ensures CarriesResolution(t, t1, rpc, txs)
  {
    forall i, k | 0 <= i < |txs| && 0 <= k < |txs[i].tx.vin|
      ensures CarriesAt(t1, view, rpc, txs[i].tx.vin[k], Slot(IdAt(t1.transactions, txs, i), k))
    {
      var x, s := txs[i].tx.txid, Slot(IdAt(t1.transactions, txs, i), k);
      assert txs[i] in txs && Among(txs, x) && Holds(t1.transactions, w, x, s);
      if x in t.transactions {
        SeenRow(t, w, rpc, t1, view, Hashes(txs), x, s, txs[i].tx.vin[k]);
      } else {
        FreshRow(t, w, rpc, txs, t1, view, x, s);
      }
    }
  }

  /** What resolution and the staged inputs of one block see. */
  lemma {:induction false} BlockStage(t: Tables, w: World, chain: seq<Mined>, b: Block, rpc: Rpc, t1: Tables,
                                      txs: seq<Mined>)
    returns (view: OutTable)
    requires Structure(t, w) && b.txs != [] && Extends(w, chain, txs) && txs == MinedTxs(b) && t1 == Mine(t, [b], rpc)
    ensures Structure(t, w) && Structure(t1, w) && Named(w, txs) && AllKnown(t1.transactions, txs)
    ensures view == StagedOutputs(t1.transactions, txs) + t.outputs && OutsOk(t1.transactions, w, view)
    ensures t1.inputs == StagedInputs(t1.transactions, view, rpc, txs) + t.inputs
    ensures forall y :: y in t.transactions ==> y in t1.transactions && t1.transactions[y].id == t.transactions[y].id
    ensures forall r :: r in t.inputs ==> r in t1.inputs && t1.inputs[r] == t.inputs[r]
  {
    OneBlock(b);
    TailFacts(w, chain, txs);
    assert MinedTxs(b) != [];
    var tr1, rows := BatchRows(t, [b], rpc, t1, txs);
    MineStructure(t, w, [b], rpc, t1, txs);
    UnmarkOuts(tr1, w, rows + t.outputs, Marks(tr1, txs), true);
    view := rows + t.outputs;
  }

  lemma {:induction false} BlockRows(t: Tables, w: World, chain: seq<Mined>, b: Block, rpc: Rpc, t1: Tables,
                                     txs: seq<Mined>)
    requires Inv(t, w, chain) && b.txs != [] && Extends(w, chain, txs) && txs == MinedTxs(b) && t1 == Mine(t, [b], rpc)
    requires RowsTrue(t, w, Hashes(txs)) && SeenSourced(t, w, rpc, txs, t1)
    ensures AllKnown(t1.transactions, txs) && CarriesResolution(t, t1, rpc, txs)
  {
    var view := BlockStage(t, w, chain, b, rpc, t1, txs);
    BlockCarries(t, w, rpc, txs, t1, view);
  }

  lemma {:induction false} RunReady(w: World, events: seq<Event>, t: Tables, b: Block)
    requires ValidRun(w, [], events) && t == Run(EMPTY, events)
    requires NothingAt(t, b.height) && b.txs != [] && Extends(w, ChainOf(events), MinedTxs(b))
    ensures ReadyFor(t, w, ChainOf(events), b)
  {
    RunInv(w, events, t);
    RunAddressesKnown(events, t);
    RunListsConfirmed(w, events, t);
    RunKeepsFlags(w, events);
  }

  /** After any run: index one more block, delete it, and all six rollups are as before. Its
   * transactions may have been pending: then they were stored, and are mined, with a truthful
   * RPC that answers for parents the index does not have. */
  lemma {:induction false} RunRollback(w: World, rpc: Rpc, events: seq<Event>, t: Tables, b: Block, t1: Tables,
                                       k: RollupKey)
    requires ValidRun(w, [], events) && t == Run(EMPTY, events)
    requires NothingAt(t, b.height) && b.txs != [] && Extends(w, ChainOf(events), MinedTxs(b))
             && t1 == Mine(t, [b], rpc)
    requires SourcedRun(w, events, Hashes(MinedTxs(b))) && SeenSourced(t, w, rpc, MinedTxs(b), t1)
    ensures At(Reversed(t1, b.height), k) == At(t.rollups, k)
  {
    RunReady(w, events, t, b);
    RunRowsTrue(w, events, Hashes(MinedTxs(b)), t);
    BlockRows(t, w, ChainOf(events), b, rpc, t1, MinedTxs(b));
    RollbackRestores(t, w, ChainOf(events), b, rpc, t1, k);
  }
}
