/** The address listing against the chain: address_transactions has a row for an address and
 * a transaction exactly when the transaction is confirmed and touches the address. */
module LedgerListing {
  import opened Prelude
  import opened Rollups
  import opened Ledger
  import opened LedgerFacts
  import opened LedgerInvariants
  import opened LedgerMine
  import opened LedgerSee
  import opened LedgerRuns
  import opened LedgerDeltas
  import opened LedgerBatches
  import opened LedgerTotals
  import opened LedgerSums
  import opened XpubHistory

  // ------------------------------------------------------------ the rows of a batch

  predicate Touches(tr: TxTable, view: OutTable, rpc: Rpc, m: Mined, a: Address) {
    a in Touched(m.tx, Resolve(tr, view, rpc, m.tx))
  }

  function IdAt(tr: TxTable, txs: seq<Mined>, i: int): int
    requires AllKnown(tr, txs) && 0 <= i < |txs|
  {
    assert txs[i] in txs;
    tr[txs[i].tx.txid].id
  }

  predicate ListsAt(tr: TxTable, view: OutTable, rpc: Rpc, txs: seq<Mined>, k: AddrTx, i: int)
    requires AllKnown(tr, txs)
  {
    0 <= i < |txs| && k.txId == IdAt(tr, txs, i) && Touches(tr, view, rpc, txs[i], k.address)
  }

  lemma {:induction false} OneListing(id: int, height: int, touched: set<Address>, k: AddrTx)
    ensures k in TxAddressTxs(id, height, touched) <==> k.txId == id && k.address in touched
  {
  }

  lemma {:induction false} StagedListing(tr: TxTable, view: OutTable, rpc: Rpc, txs: seq<Mined>, k: AddrTx)
    requires AllKnown(tr, txs)
    ensures k in StagedAddressTxs(tr, view, rpc, txs) <==> exists i :: ListsAt(tr, view, rpc, txs, k, i)
  {
    if txs != [] {
      var n := |txs| - 1;
      var before := txs[..n];
      assert txs[n] in txs;
      StagedListing(tr, view, rpc, before, k);
      OneListing(tr[txs[n].tx.txid].id, txs[n].height, Touched(txs[n].tx, Resolve(tr, view, rpc, txs[n].tx)), k);
      forall i ensures ListsAt(tr, view, rpc, before, k, i) <==> i < n && ListsAt(tr, view, rpc, txs, k, i) {
        ListsBefore(tr, view, rpc, txs, k, i, before);
      }
      assert ListsAt(tr, view, rpc, txs, k, n) <==>
             k in TxAddressTxs(tr[txs[n].tx.txid].id, txs[n].height,
                               Touched(txs[n].tx, Resolve(tr, view, rpc, txs[n].tx)));
    }
  }

  lemma {:induction false} ListsBefore(tr: TxTable, view: OutTable, rpc: Rpc, txs: seq<Mined>, k: AddrTx, i: int,
                                       before: seq<Mined>)
    requires AllKnown(tr, txs) && txs != [] && before == txs[..|txs| - 1]
    ensures ListsAt(tr, view, rpc, before, k, i) <==> i < |before| && ListsAt(tr, view, rpc, txs, k, i)
  {
  }

  // -------------------------------------------------------- the rows of the chain

  /** Which addresses the `i`th mined transaction touches, resolved as the chain defines. */
  function TouchedAt(w: World, rpc: Rpc, chain: seq<Mined>, i: int): set<Address>
    requires 0 <= i < |chain|
  {
    Touched(chain[i].tx, ChainResolved(w, rpc, chain[..i], chain[i].tx))
  }

  /** The `i`th mined transaction has the row's id and touches the row's address. */
  ghost predicate Lists(tr: TxTable, w: World, rpc: Rpc, chain: seq<Mined>, k: AddrTx, i: int) {
    && 0 <= i < |chain| && chain[i].tx.txid in tr && tr[chain[i].tx.txid].id == k.txId
    && k.address in TouchedAt(w, rpc, chain, i)
  }

  /** There is a row exactly for what the chain touches, at the height it was mined. */
  ghost predicate ListsChain(tr: TxTable, w: World, rpc: Rpc, chain: seq<Mined>, rows: map<AddrTx, int>) {
    && (forall k :: k in rows ==> exists i :: Lists(tr, w, rpc, chain, k, i))
    && (forall k, i :: Lists(tr, w, rpc, chain, k, i) ==> k in rows && rows[k] == chain[i].height)
  }

  lemma {:induction false} TouchedEarlier(w: World, rpc: Rpc, chain: seq<Mined>, txs: seq<Mined>, i: int)
    requires 0 <= i < |chain|
    ensures TouchedAt(w, rpc, chain + txs, i) == TouchedAt(w, rpc, chain, i)
  {
    assert (chain + txs)[..i] == chain[..i];
  }

  lemma {:induction false} TouchedNow(tr: TxTable, view: OutTable, w: World, rpc: Rpc, chain: seq<Mined>,
                                      txs: seq<Mined>, j: int)
    requires ResolvesAsChain(tr, view, w, rpc, chain, txs) && 0 <= j < |txs|
    ensures TouchedAt(w, rpc, chain + txs, |chain| + j) == Touched(txs[j].tx, Resolve(tr, view, rpc, txs[j].tx))
  {
    var i := |chain| + j;
    assert (chain + txs)[i] == txs[j] && (chain + txs)[..i] == chain + txs[..j];
    SameFlowAddresses(Resolve(tr, view, rpc, txs[j].tx), ChainResolved(w, rpc, chain + txs[..j], txs[j].tx));
  }

  /** Old rows keep their transaction and place in the longer chain. */
  lemma {:induction false} ListsOld(tr: TxTable, tr': TxTable, w: World, rpc: Rpc, chain: seq<Mined>, txs: seq<Mined>,
                                    k: AddrTx, i: int)
    requires Follows(tr, chain) && forall h :: h in tr ==> h in tr' && tr'[h].id == tr[h].id
    requires 0 <= i < |chain|
    ensures Lists(tr', w, rpc, chain + txs, k, i) <==> Lists(tr, w, rpc, chain, k, i)
  {
    TouchedEarlier(w, rpc, chain, txs, i);
    assert chain[i].tx.txid in tr && (chain + txs)[i] == chain[i];
  }

  lemma {:induction false} ListsNew(tr': TxTable, view: OutTable, w: World, rpc: Rpc, chain: seq<Mined>,
                                    txs: seq<Mined>, k: AddrTx, j: int)
    requires AllKnown(tr', txs) && ResolvesAsChain(tr', view, w, rpc, chain, txs) && 0 <= j < |txs|
    ensures Lists(tr', w, rpc, chain + txs, k, |chain| + j) <==> ListsAt(tr', view, rpc, txs, k, j)
  {
    TouchedNow(tr', view, w, rpc, chain, txs, j);
    assert (chain + txs)[|chain| + j] == txs[j] && txs[j] in txs;
  }

  lemma {:induction false} BatchListed(tr: TxTable, tr': TxTable, next: int, view: OutTable, w: World, rpc: Rpc,
                                       chain: seq<Mined>, txs: seq<Mined>, rows: map<AddrTx, int>, k: AddrTx)
    requires Follows(tr, chain) && (forall h :: h in tr ==> h in tr' && tr'[h].id == tr[h].id) && AllKnown(tr', txs)
    requires ResolvesAsChain(tr', view, w, rpc, chain, txs) && ListsChain(tr, w, rpc, chain, rows)
    requires k in StagedAddressTxs(tr', view, rpc, txs) + rows
    ensures exists i :: Lists(tr', w, rpc, chain + txs, k, i)
  {
    if k in rows {
      var i :| Lists(tr, w, rpc, chain, k, i);
      ListsOld(tr, tr', w, rpc, chain, txs, k, i);
      assert Lists(tr', w, rpc, chain + txs, k, i);
    } else {
      StagedListing(tr', view, rpc, txs, k);
      var j :| ListsAt(tr', view, rpc, txs, k, j);
      ListsNew(tr', view, w, rpc, chain, txs, k, j);
      assert Lists(tr', w, rpc, chain + txs, k, |chain| + j);
    }
  }

  /** Distinct transactions of the chain have distinct ids. */
  lemma {:induction false} OnePlace(tr: TxTable, next: int, chain: seq<Mined>, i: int, j: int)
    requires IdsOk(tr, next) && Distinct(chain) && 0 <= i < |chain| && 0 <= j < |chain|
    requires chain[i].tx.txid in tr && chain[j].tx.txid in tr
    ensures tr[chain[i].tx.txid].id == tr[chain[j].tx.txid].id ==> i == j
  {
  }

  lemma {:induction false} BatchHeights(tr: TxTable, tr': TxTable, next: int, view: OutTable, w: World, rpc: Rpc,
                                        chain: seq<Mined>, txs: seq<Mined>, rows: map<AddrTx, int>, k: AddrTx, i: int)
    requires Follows(tr, chain) && (forall h :: h in tr ==> h in tr' && tr'[h].id == tr[h].id) && AllKnown(tr', txs)
    requires IdsOk(tr', next) && Distinct(chain + txs)
    requires ResolvesAsChain(tr', view, w, rpc, chain, txs) && ListsChain(tr, w, rpc, chain, rows)
    requires Lists(tr', w, rpc, chain + txs, k, i)
    ensures var rows' := StagedAddressTxs(tr', view, rpc, txs) + rows; k in rows' && rows'[k] == (chain + txs)[i].height
  {
    if i < |chain| {
      ListsOld(tr, tr', w, rpc, chain, txs, k, i);
      assert k in rows && rows[k] == chain[i].height;
    } else {
      var j := i - |chain|;
      ListsNew(tr', view, w, rpc, chain, txs, k, j);
      NotListedYet(tr, tr', next, w, rpc, chain, txs, rows, k, i);
      NewHeight(tr', next, view, rpc, txs, k, j) by {
        TailDistinct(chain, txs);
      }
      assert (chain + txs)[i] == txs[j];
    }
  }

  lemma {:induction false} TailDistinct(chain: seq<Mined>, txs: seq<Mined>)
    requires Distinct(chain + txs)
    ensures Distinct(txs)
  {
    assert forall i :: 0 <= i < |txs| ==> (chain + txs)[|chain| + i] == txs[i];
  }

  lemma {:induction false} NewHeight(tr: TxTable, next: int, view: OutTable, rpc: Rpc, txs: seq<Mined>, k: AddrTx,
                                     j: int)
    requires AllKnown(tr, txs) && IdsOk(tr, next) && Distinct(txs) && ListsAt(tr, view, rpc, txs, k, j)
    ensures k in StagedAddressTxs(tr, view, rpc, txs) && StagedAddressTxs(tr, view, rpc, txs)[k] == txs[j].height
  {
    StagedListing(tr, view, rpc, txs, k);
    StagedRowOf(tr, view, rpc, txs, k);
    var e :| 0 <= e < |txs| && tr[txs[e].tx.txid].id == k.txId
      && StagedAddressTxs(tr, view, rpc, txs)[k] == txs[e].height;
    assert txs[e] in txs && txs[j] in txs;
    OnePlace(tr, next, txs, j, e);
  }

  lemma {:induction false} NotListedYet(tr: TxTable, tr': TxTable, next: int, w: World, rpc: Rpc, chain: seq<Mined>,
                                        txs: seq<Mined>, rows: map<AddrTx, int>, k: AddrTx, i: int)
    requires (forall h :: h in tr ==> h in tr' && tr'[h].id == tr[h].id) && IdsOk(tr', next) && Distinct(chain + txs)
    requires ListsChain(tr, w, rpc, chain, rows) && Lists(tr', w, rpc, chain + txs, k, i) && i >= |chain|
    ensures k !in rows
  {
    forall e ensures !Lists(tr, w, rpc, chain, k, e) {
      if 0 <= e < |chain| && chain[e].tx.txid in tr {
        assert (chain + txs)[e] == chain[e];
        OnePlace(tr', next, chain + txs, i, e);
      }
    }
  }

  lemma {:induction false} MineLists(t: Tables, w: World, rpc: Rpc, chain: seq<Mined>, blocks: seq<Block>,
                                     txs: seq<Mined>, t': Tables)
    requires Inv(t, w, chain) && Extends(w, chain, txs) && txs == Flatten(blocks) != [] && t' == Mine(t, blocks, rpc)
    requires ParentsAnswered(t.transactions, w, rpc, txs) && AddressesKnown(t.outputs, t.rollups)
    requires ListsChain(t.transactions, w, rpc, chain, t.addressTxs)
    ensures ListsChain(t'.transactions, w, rpc, chain + txs, t'.addressTxs)
  {
    var tr, tr', next := t.transactions, t'.transactions, t'.nextTxId;
    TailFacts(w, chain, txs);
    MineStructure(t, w, blocks, rpc, t', txs);
    var view := ViewOk(t, w, blocks, rpc, t', txs);
    BatchResolves(t, t', w, rpc, chain, txs, view);
    forall k | k in t'.addressTxs ensures exists i :: Lists(tr', w, rpc, chain + txs, k, i) {
      BatchListed(tr, tr', next, view, w, rpc, chain, txs, t.addressTxs, k);
    }
    forall k, i | Lists(tr', w, rpc, chain + txs, k, i)
      ensures k in t'.addressTxs && t'.addressTxs[k] == (chain + txs)[i].height {
      BatchHeights(tr, tr', next, view, w, rpc, chain, txs, t.addressTxs, k, i);
    }
  }

  lemma {:induction false} BatchResolves(t: Tables, t': Tables, w: World, rpc: Rpc, chain: seq<Mined>, txs: seq<Mined>,
                                         view: OutTable)
    requires Inv(t, w, chain) && Extends(w, chain, txs) && Advances(t.transactions, t'.transactions, txs)
    requires IdsOk(t'.transactions, t'.nextTxId) && OutsOk(t'.transactions, w, view)
             && ParentsAnswered(t.transactions, w, rpc, txs)
    ensures ResolvesAsChain(t'.transactions, view, w, rpc, chain, txs)
  {
    forall i | 0 <= i < |txs|
      ensures SameFlow(Resolve(t'.transactions, view, rpc, txs[i].tx),
                       ChainResolved(w, rpc, chain + txs[..i], txs[i].tx))
    {
      BatchResolvesAsChain(t, t', w, rpc, chain, txs, view, i);
    }
  }

  lemma {:induction false} SeeLists(t: Tables, w: World, rpc: Rpc, chain: seq<Mined>, tx: Tx, rpc': Rpc, t': Tables)
    requires Inv(t, w, chain) && t' == See(t, tx, rpc') && ListsChain(t.transactions, w, rpc, chain, t.addressTxs)
    ensures ListsChain(t'.transactions, w, rpc, chain, t'.addressTxs)
  {
    SeeKeepsRows(t, tx, rpc', t');
    SameIdsList(t.transactions, t'.transactions, w, rpc, chain, t.addressTxs);
  }

  lemma {:induction false} SameIdsList(tr: TxTable, tr': TxTable, w: World, rpc: Rpc, chain: seq<Mined>,
                                       rows: map<AddrTx, int>)
    requires Follows(tr, chain) && (forall h :: h in tr ==> h in tr' && tr'[h].id == tr[h].id)
    requires ListsChain(tr, w, rpc, chain, rows)
    ensures ListsChain(tr', w, rpc, chain, rows)
  {
    forall k, i ensures Lists(tr', w, rpc, chain, k, i) <==> Lists(tr, w, rpc, chain, k, i) {
      assert 0 <= i < |chain| ==> chain[i].tx.txid in tr;
    }
  }

  lemma {:induction false} SeeKeepsRows(t: Tables, tx: Tx, rpc: Rpc, t': Tables)
    requires t' == See(t, tx, rpc)
    ensures t'.addressTxs == t.addressTxs
    ensures forall h :: h in t.transactions ==> h in t'.transactions && t'.transactions[h].id == t.transactions[h].id
  {
  }

  lemma {:induction false} BatchLists(t: Tables, w: World, rpc: Rpc, chain: seq<Mined>, blocks: seq<Block>, t': Tables)
    requires Inv(t, w, chain) && Extends(w, chain, Flatten(blocks)) && t' == Mine(t, blocks, rpc)
    requires ParentsAnswered(t.transactions, w, rpc, Flatten(blocks)) && AddressesKnown(t.outputs, t.rollups)
    requires ListsChain(t.transactions, w, rpc, chain, t.addressTxs)
    ensures ListsChain(t'.transactions, w, rpc, chain + Flatten(blocks), t'.addressTxs)
  {
    if Flatten(blocks) == [] {
      assert chain + Flatten(blocks) == chain;
    } else {
      MineLists(t, w, rpc, chain, blocks, Flatten(blocks), t');
    }
  }

  lemma {:induction false} StepLists(t: Tables, w: World, rpc: Rpc, chain: seq<Mined>, e: Event, t': Tables,
                                     chain': seq<Mined>)
    requires Inv(t, w, chain) && ValidEvent(w, chain, e) && t' == Step(t, e) && AddressesKnown(t.outputs, t.rollups)
    requires e.Batch? ==> e.rpc == rpc && ParentsAnswered(t.transactions, w, rpc, Flatten(e.blocks))
    requires ListsChain(t.transactions, w, rpc, chain, t.addressTxs)
    requires chain' == chain + match e { case Batch(blocks, _) => Flatten(blocks) case Pending(_, _) => [] }
    ensures ListsChain(t'.transactions, w, rpc, chain', t'.addressTxs)
  {
    match e {
      case Batch(blocks, r) => BatchLists(t, w, rpc, chain, blocks, t');
      case Pending(tx, r) =>
        assert chain' == chain;
        SeeLists(t, w, rpc, chain, tx, r, t');
    }
  }

  /** In every run the listing is complete and exact: a row for an address and an id is there
   * if and only if a mined transaction with that id touches the address. */
  lemma {:induction false} RunListsChain(w: World, rpc: Rpc, events: seq<Event>, t: Tables)
    requires ValidRun(w, [], events) && Mining(w, events, rpc) && t == Run(EMPTY, events)
    ensures ListsChain(t.transactions, w, rpc, ChainOf(events), t.addressTxs)
  {
    if events != [] {
      var before, e := events[..|events| - 1], events[|events| - 1];
      var mid := Run(EMPTY, before);
      PrefixMining(w, events, rpc);
      RunListsChain(w, rpc, before, mid);
      LastEvent(w, events, mid);
      RunInv(w, before, mid);
      RunAccounted(w, rpc, before, mid);
      StepLists(mid, w, rpc, ChainOf(before), e, t, ChainOf(events));
    }
  }

  // ------------------------------------------------------------------- the pages

  /** Every mined transaction that touches one of the addresses. */
  ghost function ChainHistory(tr: TxTable, w: World, rpc: Rpc, chain: seq<Mined>, addresses: seq<Address>): set<Row> {
    set i | 0 <= i < |chain| && chain[i].tx.txid in tr
      && (exists a :: a in addresses && a in TouchedAt(w, rpc, chain, i))
      :: Row(Some(chain[i].height), tr[chain[i].tx.txid].id)
  }

  lemma {:induction false} HistoryIsChain(t: Tables, w: World, rpc: Rpc, chain: seq<Mined>, addresses: seq<Address>)
    requires ListsChain(t.transactions, w, rpc, chain, t.addressTxs)
    ensures History(t, addresses) == ChainHistory(t.transactions, w, rpc, chain, addresses)
  {
    var tr, all := t.transactions, ChainHistory(t.transactions, w, rpc, chain, addresses);
    forall x | x in History(t, addresses) ensures x in all {
      var k :| k in t.addressTxs && k.address in addresses && x == Row(Some(t.addressTxs[k]), k.txId);
      var i :| Lists(tr, w, rpc, chain, k, i);
      assert k.address in TouchedAt(w, rpc, chain, i);
    }
    forall x | x in all ensures x in History(t, addresses) {
      var i :| 0 <= i < |chain| && chain[i].tx.txid in tr
        && (exists a :: a in addresses && a in TouchedAt(w, rpc, chain, i))
               && x == Row(Some(chain[i].height), tr[chain[i].tx.txid].id);
      var a :| a in addresses && a in TouchedAt(w, rpc, chain, i);
      assert Lists(tr, w, rpc, chain, AddrTx(a, x.id), i);
    }
  }

  /** In every run and for any page size, following the cursors from the first page returns
   * exactly the mined transactions that touch the addresses, each once, newest first. */
  lemma {:induction false} RunPagesAreHistory(w: World, rpc: Rpc, events: seq<Event>, addresses: seq<Address>,
                                              limit: nat, t: Tables)
    requires ValidRun(w, [], events) && Mining(w, events, rpc) && t == Run(EMPTY, events) && addresses != []
             && limit >= 1
    ensures Indexed(t)
    ensures Follow(t, addresses, limit, None) == Desc(ChainHistory(t.transactions, w, rpc, ChainOf(events), addresses))
    ensures var rows, all := Follow(t, addresses, limit, None),
            ChainHistory(t.transactions, w, rpc, ChainOf(events), addresses);
            NewestFirst(rows) && |rows| == |all| && forall x :: x in rows <==> x in all
  {
    RunListsConfirmed(w, events, t);
    RunListsChain(w, rpc, events, t);
    RunInv(w, events, t);
    FollowIsHistory(t, addresses, limit);
    HistoryIsChain(t, w, rpc, ChainOf(events), addresses);
    DescElements(History(t, addresses));
    SortedIsNewestFirst(Follow(t, addresses, limit, None));
  }
}
