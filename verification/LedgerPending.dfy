/** What the first page shows above the tip: in every run, the transactions that were seen and not
 * mined and that pay or spend from the wallet. */
module LedgerPending {
  import opened Prelude
  import opened Ledger
  import opened LedgerFacts
  import opened LedgerInvariants
  import opened LedgerRuns
  import opened LedgerTotals
  import opened LedgerBalance
  import opened LedgerPaging
  import opened StoredTruth
  import opened XpubHistory

  // ------------------------------------------------------- what happened in a run

  /** Some event saw the transaction in the mempool. */
  predicate WasSeen(events: seq<Event>, h: Hash) {
    exists i :: 0 <= i < |events| && events[i].Pending? && events[i].tx.txid == h
  }

  predicate Carries(blocks: seq<Block>, h: Hash) {
    exists i, j :: 0 <= i < |blocks| && 0 <= j < |blocks[i].txs| && blocks[i].txs[j].txid == h
  }

  /** Some batch mined it. */
  predicate WasMined(events: seq<Event>, h: Hash) {
    exists i :: 0 <= i < |events| && events[i].Batch? && Carries(events[i].blocks, h)
  }

  lemma {:induction false} CarriesIff(blocks: seq<Block>, h: Hash)
    ensures Among(Flatten(blocks), h) <==> Carries(blocks, h)
  {
    if blocks != [] {
      var before, b := blocks[..|blocks| - 1], blocks[|blocks| - 1];
      CarriesIff(before, h);
      var chain, n := Flatten(blocks), |Flatten(before)|;
      assert chain == Flatten(before) + MinedTxs(b);
      if i, j :| 0 <= i < |blocks| && 0 <= j < |blocks[i].txs| && blocks[i].txs[j].txid == h {
        if i < |before| {
          assert before[i].txs[j].txid == h;
          var k :| 0 <= k < n && Flatten(before)[k].tx.txid == h;
          assert chain[k].tx.txid == h;
        } else {
          assert chain[n + j].tx.txid == h;
        }
      }
      if k :| 0 <= k < |chain| && chain[k].tx.txid == h {
        if k < n {
          assert Flatten(before)[k].tx.txid == h;
          var i, j :| 0 <= i < |before| && 0 <= j < |before[i].txs| && before[i].txs[j].txid == h;
          assert blocks[i].txs[j].txid == h;
        } else {
          assert blocks[|before|].txs[k - n].txid == h;
        }
      }
    }
  }

  lemma {:induction false} MinedNext(before: seq<Event>, e: Event, events: seq<Event>, h: Hash)
    requires events == before + [e]
    ensures WasMined(events, h) <==> WasMined(before, h) || (e.Batch? && Carries(e.blocks, h))
    ensures WasSeen(events, h) <==> WasSeen(before, h) || (e.Pending? && e.tx.txid == h)
  {
    var n := |before|;
    assert events[n] == e && forall i :: 0 <= i < n ==> events[i] == before[i];
    if i :| 0 <= i < n && before[i].Batch? && Carries(before[i].blocks, h) {
      assert events[i].Batch? && Carries(events[i].blocks, h);
    }
    if i :| 0 <= i < n && before[i].Pending? && before[i].tx.txid == h {
      assert events[i].Pending? && events[i].tx.txid == h;
    }
  }

  lemma {:induction false} AmongBoth(a: seq<Mined>, b: seq<Mined>, h: Hash)
    ensures Among(a + b, h) <==> Among(a, h) || Among(b, h)
  {
    var all := a + b;
    if i :| 0 <= i < |a| && a[i].tx.txid == h {
      assert all[i].tx.txid == h;
    }
    if i :| 0 <= i < |b| && b[i].tx.txid == h {
      assert all[|a| + i].tx.txid == h;
    }
    if i :| 0 <= i < |all| && all[i].tx.txid == h {
      assert if i < |a| then a[i].tx.txid == h else b[i - |a|].tx.txid == h;
    }
  }

  lemma {:induction false} ChainIsMined(events: seq<Event>, h: Hash)
    ensures Among(ChainOf(events), h) <==> WasMined(events, h)
  {
    if events != [] {
      var before, e := events[..|events| - 1], events[|events| - 1];
      assert events == before + [e];
      ChainIsMined(before, h);
      MinedNext(before, e, events, h);
      AmongBoth(ChainOf(before), MinedBy(e), h);
      if e.Batch? {
        CarriesIff(e.blocks, h);
      }
    }
  }

  lemma {:induction false} ConfirmedKeys(tr: TxTable, next: int, txs: seq<Mined>, h: Hash)
    ensures h in ConfirmTxs(tr, next, txs) <==> h in tr || Among(txs, h)
  {
    if txs != [] {
      ConfirmedKeys(tr, next, txs[..|txs| - 1], h);
      AmongPrefix(txs, h);
    }
  }

  lemma {:induction false} StepKnows(t: Tables, e: Event, h: Hash)
    ensures h in Step(t, e).transactions <==>
            h in t.transactions || (e.Batch? && Carries(e.blocks, h)) || (e.Pending? && e.tx.txid == h)
  {
    if e.Batch? {
      BatchKnows(t, e.blocks, e.rpc, Flatten(e.blocks), h);
    }
  }

  lemma {:induction false} BatchKnows(t: Tables, blocks: seq<Block>, rpc: Rpc, txs: seq<Mined>, h: Hash)
    requires txs == Flatten(blocks)
    ensures h in Mine(t, blocks, rpc).transactions <==> h in t.transactions || Carries(blocks, h)
  {
    CarriesIff(blocks, h);
    ConfirmedKeys(t.transactions, t.nextTxId, txs, h);
  }

  /** A run knows the transactions that it saw or mined. */
  lemma {:induction false} RunKnows(events: seq<Event>, h: Hash)
    ensures h in Run(EMPTY, events).transactions <==> WasSeen(events, h) || WasMined(events, h)
  {
    if events != [] {
      var before, e := events[..|events| - 1], events[|events| - 1];
      assert events == before + [e];
      RunKnows(before, h);
      MinedNext(before, e, events, h);
      StepKnows(Run(EMPTY, before), e, h);
    }
  }

  // ------------------------------------------------------------ whose they are

  /** An output pays one of the addresses. */
  predicate PaysOneOf(tx: Tx, addresses: seq<Address>) {
    exists v :: 0 <= v < |tx.vout| && tx.vout[v].address.Some? && tx.vout[v].address.value in addresses
  }

  /** An input's stored row has one of them. */
  predicate StoredFromOneOf(t: Tables, id: int, tx: Tx, addresses: seq<Address>) {
    exists k :: 0 <= k < |tx.vin| && StoredFrom(t, Slot(id, k), addresses)
  }

  predicate StoredFrom(t: Tables, s: Slot, addresses: seq<Address>) {
    s in t.inputs && t.inputs[s].address.Some? && t.inputs[s].address.value in addresses
  }

  /** An input spends an output whose own address is one of them. */
  predicate SpendsFromOneOf(w: World, tx: Tx, addresses: seq<Address>) {
    exists k :: 0 <= k < |tx.vin| && SpendsFrom(w, tx.vin[k], addresses)
  }

  predicate SpendsFrom(w: World, input: TxIn, addresses: seq<Address>) {
    && input.Spend? && 0 <= input.prevVout < |w(input.prevHash).vout|
    && var o := w(input.prevHash).vout[input.prevVout];
       o.address.Some? && o.address.value in addresses
  }

  lemma {:induction false} OwnedOutputs(t: Tables, w: World, h: Hash, addresses: seq<Address>)
    requires IdsOk(t.transactions, t.nextTxId) && OutsOk(t.transactions, w, t.outputs) && h in t.transactions
    ensures PaysOneOf(w(h), addresses) <==>
            exists o | o in t.outputs :: o.txId == t.transactions[h].id && t.outputs[o].address.Some?
                                         && t.outputs[o].address.value in addresses
  {
    var id := t.transactions[h].id;
    if v :| 0 <= v < |w(h).vout| && w(h).vout[v].address.Some? && w(h).vout[v].address.value in addresses {
      assert Creates(t.transactions, w, h, Outpoint(id, v));
    }
    if o :| o in t.outputs && o.txId == id && t.outputs[o].address.Some? && t.outputs[o].address.value in addresses {
      var y :| Creates(t.transactions, w, y, o);
      assert y == h;
    }
  }

  lemma {:induction false} OwnedInputs(t: Tables, w: World, h: Hash, addresses: seq<Address>)
    requires IdsOk(t.transactions, t.nextTxId) && InsOk(t.transactions, w, t.inputs) && h in t.transactions
    ensures StoredFromOneOf(t, t.transactions[h].id, w(h), addresses) <==>
            exists s | s in t.inputs :: s.txId == t.transactions[h].id && t.inputs[s].address.Some?
                                        && t.inputs[s].address.value in addresses
  {
    var id := t.transactions[h].id;
    if s :| s in t.inputs && s.txId == id && t.inputs[s].address.Some? && t.inputs[s].address.value in addresses {
      var y :| Holds(t.transactions, w, y, s);
      assert y == h && StoredFrom(t, Slot(id, s.vin), addresses);
    }
  }

  lemma {:induction false} SourcedSpends(t: Tables, w: World, h: Hash, addresses: seq<Address>)
    requires h in t.transactions && RowsTrue(t, w, iset{h})
    ensures StoredFromOneOf(t, t.transactions[h].id, w(h), addresses) <==> SpendsFromOneOf(w, w(h), addresses)
  {
    var id := t.transactions[h].id;
    forall k | 0 <= k < |w(h).vin|
      ensures StoredFrom(t, Slot(id, k), addresses) <==> SpendsFrom(w, w(h).vin[k], addresses)
    {
      assert Holds(t.transactions, w, h, Slot(id, k));
      assert RowTrue(t.inputs, w, w(h).vin[k], Slot(id, k));
    }
  }

  // ------------------------------------------------------------------- the page

  lemma {:induction false} StackIsNewestFirst(pending: seq<Row>, rows: seq<Row>)
    requires Sorted(pending) && Sorted(rows)
    requires (forall x :: x in pending ==> x.height.None?) && forall x :: x in rows ==> x.height.Some?
    ensures NewestFirst(pending + rows)
  {
    var all, n := pending + rows, |pending|;
    forall i, j | 0 <= i < j < |all| ensures Above(all[i], all[j]) {
      if j < n {
        assert Above(pending[i], pending[j]);
      } else if i < n {
        assert pending[i] in pending && rows[j - n] in rows;
      } else {
        assert Above(rows[i - n], rows[j - n]);
      }
    }
    SortedIsNewestFirst(all);
  }

  lemma {:induction false} PendingOf(t: Tables, h: Hash, addresses: seq<Address>)
    requires OneHash(t.transactions) && h in t.transactions
    ensures Row(None, t.transactions[h].id) in PendingRows(t, addresses) <==>
            t.transactions[h].height.None? && Owns(t, addresses, t.transactions[h].id)
  {
    var id := t.transactions[h].id;
    if id in PendingIds(t, addresses) {
      var g :| g in t.transactions && t.transactions[g].height.None? && Owns(t, addresses, t.transactions[g].id)
               && t.transactions[g].id == id;
      assert g == h;
    }
    assert id in PendingIds(t, addresses) <==> Row(None, id) in PendingRows(t, addresses);
  }

  lemma {:induction false} OwnsIff(t: Tables, w: World, h: Hash, addresses: seq<Address>)
    requires Structure(t, w) && h in t.transactions
    ensures Owns(t, addresses, t.transactions[h].id) <==>
            PaysOneOf(w(h), addresses) || StoredFromOneOf(t, t.transactions[h].id, w(h), addresses)
  {
    OwnedOutputs(t, w, h, addresses);
    OwnedInputs(t, w, h, addresses);
  }

  lemma {:induction false} TopConfirmed(t: Tables, addresses: seq<Address>, limit: nat)
    requires Indexed(t)
    ensures Sorted(Top(History(t, addresses), limit))
    ensures forall x :: x in Top(History(t, addresses), limit) ==> x.height.Some?
  {
    TopSorted(History(t, addresses), limit);
    forall x | x in Top(History(t, addresses), limit) ensures x.height.Some? {
      HistoryConfirmed(t, addresses, x);
    }
  }

  lemma {:induction false} FirstPage(t: Tables, addresses: seq<Address>, page: Page, limit: nat)
    requires Indexed(t) && page.pending == Desc(PendingRows(t, addresses))
    requires page.rows == Top(History(t, addresses), limit)
    ensures NewestFirst(page.pending + page.rows) && forall x :: x in page.rows ==> x.height.Some?
    ensures forall x :: x in page.pending <==> x in PendingRows(t, addresses)
  {
    DescElements(PendingRows(t, addresses));
    TopConfirmed(t, addresses, limit);
    StackIsNewestFirst(page.pending, page.rows);
  }

  /** In every run the first page shows, above the confirmed rows, exactly the transactions that
   * some event saw, that no batch mined, and that pay one of the addresses or have an input
   * stored as one's. If the transaction was stored with a truthful RPC that answers for unknown
   * parents, these are the inputs that spend an output of one of them. */
  lemma {:induction false} RunPending(w: World, events: seq<Event>, t: Tables, addresses: seq<Address>, limit: nat,
                                      h: Hash) returns (page: Page)
    requires ValidRun(w, [], events) && t == Run(EMPTY, events) && addresses != []
    ensures Indexed(t) && XpubPage(t, addresses, limit, None) == Ok(page)
    ensures (h in t.transactions && Row(None, t.transactions[h].id) in page.pending) <==>
            WasSeen(events, h) && !WasMined(events, h) && h in t.transactions
            && (PaysOneOf(w(h), addresses) || StoredFromOneOf(t, t.transactions[h].id, w(h), addresses))
    ensures SourcedRun(w, events, iset{h}) ==>
              ((h in t.transactions && Row(None, t.transactions[h].id) in page.pending) <==>
               WasSeen(events, h) && !WasMined(events, h)
               && (PaysOneOf(w(h), addresses) || SpendsFromOneOf(w, w(h), addresses)))
    ensures forall x :: x in page.pending ==>
              exists g :: g in t.transactions && x == Row(None, t.transactions[g].id)
    ensures NewestFirst(page.pending + page.rows) && forall x :: x in page.rows ==> x.height.Some?
  {
    RunIndexed(w, events, t);
    page := PageIs(t, addresses, limit, None, None, History(t, addresses));
    FirstPage(t, addresses, page, limit);
    RunInv(w, events, t);
    ChainIsMined(events, h);
    RunKnows(events, h);
    if h in t.transactions {
      PendingOf(t, h, addresses);
      OwnsIff(t, w, h, addresses);
      assert Confirmed(t.transactions, h) <==> Among(ChainOf(events), h);
      if SourcedRun(w, events, iset{h}) {
        RunRowsTrue(w, events, iset{h}, t);
        SourcedSpends(t, w, h, addresses);
      }
    }
  }
}
