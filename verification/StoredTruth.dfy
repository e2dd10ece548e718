/** What the stored input rows say, in every run: with a truthful RPC that answers for the
 * parents the index does not have, each row carries its parent's own output. */
module StoredTruth {
  import opened Prelude
  import opened Ledger
  import opened LedgerFacts
  import opened LedgerInvariants
  import opened LedgerMine
  import opened LedgerSee
  import opened LedgerRuns
  import opened LedgerDeltas
  import opened LedgerBatches
  import opened LedgerTotals
  import opened LedgerBalance

  /** The row says what the spent output is; nothing for a coinbase or a missing output. */
  predicate TrueFlow(w: World, input: TxIn, address: Option<Address>, amount: Option<int>) {
    if input.Spend? && 0 <= input.prevVout < |w(input.prevHash).vout| then
      var o := w(input.prevHash).vout[input.prevVout];
      address == o.address && amount == Some(o.value)
    else address == None && amount == None
  }

  /** The parent is known, or the RPC answers for it. */
  ghost predicate Sourced(tr: TxTable, w: World, rpc: Rpc, input: TxIn) {
    input.Spend? ==> input.prevHash in tr || rpc(input.prevHash) == Some(w(input.prevHash))
  }

  ghost predicate AllSourced(tr: TxTable, w: World, rpc: Rpc, tx: Tx) {
    Agrees(w, rpc) && forall k :: 0 <= k < |tx.vin| ==> Sourced(tr, w, rpc, tx.vin[k])
  }

  /** The direct lookup of a sourced input finds the spent output itself. */
  lemma {:induction false} SourcedIsTrue(tr: TxTable, next: int, w: World, outs: OutTable, rpc: Rpc, input: TxIn)
    requires IdsOk(tr, next) && OutsOk(tr, w, outs) && Agrees(w, rpc) && Sourced(tr, w, rpc, input)
    ensures var r := Lookup(tr, outs, rpc, input); TrueFlow(w, input, r.address, r.amount)
  {
    LookupIsCanonical(tr, next, w, outs, rpc, input);
  }

  // -------------------------------------------------------------- over whole runs

  /** The stored rows of the transactions in `xs` are true. */
  ghost predicate RowsTrue(t: Tables, w: World, xs: iset<Hash>) {
    forall h, s :: h in xs && Holds(t.transactions, w, h, s) ==> RowTrue(t.inputs, w, w(h).vin[s.vin], s)
  }

  ghost predicate RowTrue(ins: InTable, w: World, input: TxIn, s: Slot) {
    s in ins && TrueFlow(w, input, ins[s].address, ins[s].amount)
  }

  /** When event `e` first stores a transaction of `xs`, its inputs are sourced. */
  ghost predicate StoresSourced(t: Tables, w: World, xs: iset<Hash>, e: Event, t': Tables) {
    match e
    case Pending(tx, rpc) => tx.txid in xs && tx.txid !in t.transactions ==> AllSourced(t'.transactions, w, rpc, tx)
    case Batch(blocks, rpc) =>
      forall i :: 0 <= i < |Flatten(blocks)| && Flatten(blocks)[i].tx.txid in xs
        && Flatten(blocks)[i].tx.txid !in t.transactions
        ==> AllSourced(t'.transactions, w, rpc, Flatten(blocks)[i].tx)
  }

  ghost predicate SourcedRun(w: World, events: seq<Event>, xs: iset<Hash>) {
    events == [] ||
    var before := events[..|events| - 1];
    SourcedRun(w, before, xs) && StoresSourced(Run(EMPTY, before), w, xs, events[|events| - 1], Run(EMPTY, events))
  }

  /** A row that stays, of a transaction that was there. */
  lemma {:induction false} OldRowTrue(t: Tables, t': Tables, w: World, xs: iset<Hash>, h: Hash, s: Slot)
    requires RowsTrue(t, w, xs) && InsOk(t.transactions, w, t.inputs) && h in xs && h in t.transactions
    requires Holds(t'.transactions, w, h, s) && t'.transactions[h].id == t.transactions[h].id
    requires forall r :: r in t.inputs ==> r in t'.inputs && t'.inputs[r] == t.inputs[r]
    ensures RowTrue(t'.inputs, w, w(h).vin[s.vin], s)
  {
    assert Holds(t.transactions, w, h, s);
    assert RowTrue(t.inputs, w, w(h).vin[s.vin], s);
  }

  /** The slots of a transaction that was not stored hold no input. */
  lemma {:induction false} NotStoredBefore(t: Tables, w: World, tr1: TxTable, next: int, x: Hash, s: Slot)
    requires InsOk(t.transactions, w, t.inputs) && IdsOk(tr1, next) && x !in t.transactions && Holds(tr1, w, x, s)
    requires forall y :: y in t.transactions ==> y in tr1 && tr1[y].id == t.transactions[y].id
    ensures s !in t.inputs
  {
    forall y ensures !Holds(t.transactions, w, y, s) {
      assert y in t.transactions && y != x ==> tr1[y].id != tr1[x].id;
    }
  }

  lemma {:induction false} NewRowTrue(t: Tables, t': Tables, w: World, view: OutTable, rpc: Rpc, txs: seq<Mined>,
                                      h: Hash, s: Slot)
    requires Structure(t, w) && Structure(t', w) && OutsOk(t'.transactions, w, view) && Named(w, txs)
    requires AllKnown(t'.transactions, txs) && t'.inputs == StagedInputs(t'.transactions, view, rpc, txs) + t.inputs
    requires forall y :: y in t.transactions ==> y in t'.transactions && t'.transactions[y].id == t.transactions[y].id
    requires h !in t.transactions && Among(txs, h) && Holds(t'.transactions, w, h, s)
             && AllSourced(t'.transactions, w, rpc, w(h))
    ensures RowTrue(t'.inputs, w, w(h).vin[s.vin], s)
  {
    NotStoredBefore(t, w, t'.transactions, t'.nextTxId, h, s);
    StagedInput(t'.transactions, t'.nextTxId, w, view, rpc, txs, s);
    assert Sourced(t'.transactions, w, rpc, w(h).vin[s.vin]);
    SourcedIsTrue(t'.transactions, t'.nextTxId, w, view, rpc, w(h).vin[s.vin]);
  }

  lemma {:induction false} BatchRowsTrue(t: Tables, w: World, blocks: seq<Block>, rpc: Rpc, t': Tables, txs: seq<Mined>,
                                         xs: iset<Hash>)
    requires Structure(t, w) && Distinct(txs) && Named(w, txs) && txs == Flatten(blocks) != []
             && t' == Mine(t, blocks, rpc)
    requires AddressesKnown(t.outputs, t.rollups) && RowsTrue(t, w, xs)
    requires forall i :: 0 <= i < |txs| && txs[i].tx.txid in xs && txs[i].tx.txid !in t.transactions
               ==> AllSourced(t'.transactions, w, rpc, txs[i].tx)
    ensures RowsTrue(t', w, xs)
  {
    MineStructure(t, w, blocks, rpc, t', txs);
    var view := ViewOk(t, w, blocks, rpc, t', txs);
    forall h, s | h in xs && Holds(t'.transactions, w, h, s) ensures RowTrue(t'.inputs, w, w(h).vin[s.vin], s) {
      if h in t.transactions {
        OldRowTrue(t, t', w, xs, h, s);
      } else {
        var i :| 0 <= i < |txs| && txs[i].tx.txid == h;
        NewRowTrue(t, t', w, view, rpc, txs, h, s);
      }
    }
  }

  lemma {:induction false} SeenRowTrue(t: Tables, w: World, tx: Tx, rpc: Rpc, tr: TxTable, view: OutTable, ins: InTable,
                                       s: Slot)
    requires IdsOk(tr, t.nextTxId + 1) && OutsOk(tr, w, view) && tx == w(tx.txid) && AllSourced(tr, w, rpc, tx)
    requires tx.txid in tr && tr[tx.txid].id == t.nextTxId && Holds(tr, w, tx.txid, s) && s !in t.inputs
    requires ins == TxInputs(t.nextTxId, tx.vin, Resolve(tr, view, rpc, tx)) + t.inputs
    ensures RowTrue(ins, w, w(tx.txid).vin[s.vin], s)
  {
    assert s == Slot(t.nextTxId, s.vin) && Sourced(tr, w, rpc, tx.vin[s.vin]);
    SourcedIsTrue(tr, t.nextTxId + 1, w, view, rpc, tx.vin[s.vin]);
    assert s in TxInputs(t.nextTxId, tx.vin, Resolve(tr, view, rpc, tx));
  }

  lemma {:induction false} SeeStage(t: Tables, w: World, tx: Tx, rpc: Rpc, t': Tables, tr: TxTable, view: OutTable)
    requires Structure(t, w) && tx == w(tx.txid) && t' == See(t, tx, rpc) && tx.txid !in t.transactions
    requires tr == t.transactions[tx.txid := NewRow(t.nextTxId, None, tx)]
             && view == TxOutputs(t.nextTxId, tx.vout) + t.outputs
    ensures t'.transactions == tr && t'.inputs == TxInputs(t.nextTxId, tx.vin, Resolve(tr, view, rpc, tx)) + t.inputs
    ensures IdsOk(tr, t.nextTxId + 1) && OutsOk(tr, w, view)
    ensures forall r :: r in t.inputs ==> r in t'.inputs && t'.inputs[r] == t.inputs[r]
  {
    var rows := TxOutputs(t.nextTxId, tx.vout);
    SeeTables(t, tx, rpc, tr, rows);
    SeeStructure(t, w, tx, rpc, tr, rows);
    SeeIds(t.transactions, tr, t.nextTxId, w, tx, 0);
    SeeOuts(t.transactions, tr, t.nextTxId, w, tx, t.outputs);
  }

  lemma {:induction false} SeenRowsTrue(t: Tables, w: World, tx: Tx, rpc: Rpc, t': Tables, xs: iset<Hash>,
                                        view: OutTable)
    requires InsOk(t.transactions, w, t.inputs) && tx == w(tx.txid) && tx.txid !in t.transactions && RowsTrue(t, w, xs)
    requires t'.transactions == t.transactions[tx.txid := NewRow(t.nextTxId, None, tx)]
    requires t'.inputs == TxInputs(t.nextTxId, tx.vin, Resolve(t'.transactions, view, rpc, tx)) + t.inputs
    requires IdsOk(t'.transactions, t.nextTxId + 1) && OutsOk(t'.transactions, w, view)
    requires forall r :: r in t.inputs ==> r in t'.inputs && t'.inputs[r] == t.inputs[r]
    requires tx.txid in xs ==> AllSourced(t'.transactions, w, rpc, tx)
    ensures RowsTrue(t', w, xs)
  {
    forall h, s | h in xs && Holds(t'.transactions, w, h, s) ensures RowTrue(t'.inputs, w, w(h).vin[s.vin], s) {
      if h in t.transactions {
        OldRowTrue(t, t', w, xs, h, s);
      } else {
        NotStoredBefore(t, w, t'.transactions, t.nextTxId + 1, h, s);
        SeenRowTrue(t, w, tx, rpc, t'.transactions, view, t'.inputs, s);
      }
    }
  }

  lemma {:induction false} SeeRowsTrue(t: Tables, w: World, tx: Tx, rpc: Rpc, t': Tables, xs: iset<Hash>)
    requires Structure(t, w) && tx == w(tx.txid) && t' == See(t, tx, rpc) && RowsTrue(t, w, xs)
    requires tx.txid in xs && tx.txid !in t.transactions ==> AllSourced(t'.transactions, w, rpc, tx)
    ensures RowsTrue(t', w, xs)
  {
    if tx.txid !in t.transactions {
      var tr := t.transactions[tx.txid := NewRow(t.nextTxId, None, tx)];
      var view := TxOutputs(t.nextTxId, tx.vout) + t.outputs;
      SeeStage(t, w, tx, rpc, t', tr, view);
      SeenRowsTrue(t, w, tx, rpc, t', xs, view);
    }
  }

  /** Every address that is stored has its row, in every run. */
  lemma {:induction false} RunAddressesKnown(events: seq<Event>, t: Tables)
    requires t == Run(EMPTY, events)
    ensures AddressesKnown(t.outputs, t.rollups)
  {
    if events != [] {
      var mid := Run(EMPTY, events[..|events| - 1]);
      RunAddressesKnown(events[..|events| - 1], mid);
      match events[|events| - 1] {
        case Batch(blocks, rpc) => MineAddressesKnown(mid, blocks, rpc, t);
        case Pending(tx, rpc) => SeeAddressesKnown(mid, tx, rpc, t);
      }
    }
  }

  lemma {:induction false} StepRowsTrue(t: Tables, w: World, chain: seq<Mined>, e: Event, t': Tables, xs: iset<Hash>)
    requires Inv(t, w, chain) && ValidEvent(w, chain, e) && t' == Step(t, e) && AddressesKnown(t.outputs, t.rollups)
    requires RowsTrue(t, w, xs) && StoresSourced(t, w, xs, e, t')
    ensures RowsTrue(t', w, xs)
  {
    match e {
      case Batch(blocks, rpc) =>
        if Flatten(blocks) != [] {
          TailFacts(w, chain, Flatten(blocks));
          BatchRowsTrue(t, w, blocks, rpc, t', Flatten(blocks), xs);
        }
      case Pending(tx, rpc) => SeeRowsTrue(t, w, tx, rpc, t', xs);
    }
  }

  /** In every run in which the transactions of `xs` were stored with a truthful RPC that
   * answered for unknown parents, their stored inputs carry the spent outputs themselves. */
  lemma {:induction false} RunRowsTrue(w: World, events: seq<Event>, xs: iset<Hash>, t: Tables)
    requires ValidRun(w, [], events) && SourcedRun(w, events, xs) && t == Run(EMPTY, events)
    ensures RowsTrue(t, w, xs)
  {
    if events != [] {
      var before, e := events[..|events| - 1], events[|events| - 1];
      var mid := Run(EMPTY, before);
      RunRowsTrue(w, before, xs, mid);
      LastEvent(w, events, mid);
      RunInv(w, before, mid);
      RunAddressesKnown(before, mid);
      StepRowsTrue(mid, w, ChainOf(before), e, t, xs);
    }
  }
}
