/** Paging while the indexer runs: what comes below a cursor does not change when the chain
 * only grows above it. */
module LedgerPaging {
  import opened Prelude
  import opened Ledger
  import opened LedgerFacts
  import opened LedgerInvariants
  import opened LedgerMine
  import opened LedgerSee
  import opened LedgerRuns
  import opened LedgerBatches
  import opened LedgerTotals
  import opened LedgerSums
  import opened XpubHistory

  /** Known transactions keep their ids, confirmed ones their heights, and address rows stay;
   * new rows are above height `h`. */
  ghost predicate GrowsAbove(t: Tables, t': Tables, h: int) {
    KeepsTxs(t.transactions, t'.transactions) && RowsAbove(t.addressTxs, t'.addressTxs, h)
  }

  ghost predicate KeepsTxs(tr: TxTable, tr': TxTable) {
    forall x :: x in tr ==> x in tr' && tr'[x].id == tr[x].id && (tr[x].height.Some? ==> tr'[x].height == tr[x].height)
  }

  ghost predicate RowsAbove(rows: map<AddrTx, int>, rows': map<AddrTx, int>, h: int) {
    && (forall k :: k in rows ==> k in rows' && rows'[k] == rows[k])
    && (forall k :: k in rows' && k !in rows ==> rows'[k] > h)
  }

  ghost predicate AllAbove(txs: seq<Mined>, h: int) {
    forall i :: 0 <= i < |txs| ==> txs[i].height > h
  }

  /** Batches of blocks above height `h`; mempool transactions are arbitrary. */
  ghost predicate TipsAbove(events: seq<Event>, h: int) {
    forall i :: 0 <= i < |events| && events[i].Batch? ==> AllAbove(Flatten(events[i].blocks), h)
  }

  // ------------------------------------------------------------------ each step

  lemma {:induction false} ConfirmKeepsTxs(tr: TxTable, next: int, txs: seq<Mined>)
    ensures KeepsTxs(tr, ConfirmTxs(tr, next, txs))
  {
    if txs != [] {
      ConfirmKeepsTxs(tr, next, txs[..|txs| - 1]);
    }
  }

  lemma {:induction false} StagedAbove(tr: TxTable, view: OutTable, rpc: Rpc, txs: seq<Mined>, rows: map<AddrTx, int>,
                                       h: int)
    requires AllKnown(tr, txs) && AllAbove(txs, h)
    ensures RowsAbove(rows, StagedAddressTxs(tr, view, rpc, txs) + rows, h)
  {
    var staged := StagedAddressTxs(tr, view, rpc, txs);
    forall k | k in staged ensures staged[k] > h {
      StagedRowOf(tr, view, rpc, txs, k);
      var i :| 0 <= i < |txs| && tr[txs[i].tx.txid].id == k.txId && staged[k] == txs[i].height;
    }
  }

  lemma {:induction false} MineGrows(t: Tables, blocks: seq<Block>, rpc: Rpc, t': Tables, txs: seq<Mined>, h: int)
    requires t' == Mine(t, blocks, rpc) && txs == Flatten(blocks) && AllAbove(txs, h)
    ensures GrowsAbove(t, t', h)
  {
    if txs != [] {
      var tr, rows := BatchRows(t, blocks, rpc, t', txs);
      ConfirmKeepsTxs(t.transactions, t.nextTxId, txs);
      StagedAbove(tr, rows + t.outputs, rpc, txs, t.addressTxs, h);
    }
  }

  lemma {:induction false} SeeGrows(t: Tables, tx: Tx, rpc: Rpc, t': Tables, h: int)
    requires t' == See(t, tx, rpc)
    ensures GrowsAbove(t, t', h)
  {
  }

  lemma {:induction false} StepGrows(t: Tables, e: Event, t': Tables, h: int)
    requires t' == Step(t, e) && (e.Batch? ==> AllAbove(Flatten(e.blocks), h))
    ensures GrowsAbove(t, t', h)
  {
    match e
    case Batch(blocks, rpc) => MineGrows(t, blocks, rpc, t', Flatten(blocks), h);
    case Pending(tx, rpc) => SeeGrows(t, tx, rpc, t', h);
  }

  lemma {:induction false} GrowsOn(t: Tables, mid: Tables, t': Tables, h: int)
    requires GrowsAbove(t, mid, h) && GrowsAbove(mid, t', h)
    ensures GrowsAbove(t, t', h)
  {
  }

  lemma {:induction false} LastStep(t0: Tables, all: seq<Event>, before: seq<Event>, e: Event)
    requires all == before + [e]
    ensures Run(t0, all) == Step(Run(t0, before), e)
  {
    assert all[..|all| - 1] == before;
  }

  lemma {:induction false} SplitLast<T>(a: seq<T>, b: seq<T>)
    requires b != []
    ensures a + b == a + b[..|b| - 1] + [b[|b| - 1]]
  {
  }

  lemma {:induction false} RunStep(t0: Tables, events: seq<Event>, more: seq<Event>, mid: Tables)
    requires more != [] && mid == Run(t0, events + more[..|more| - 1])
    ensures Run(t0, events + more) == Step(mid, more[|more| - 1])
  {
    var before, all := events + more[..|more| - 1], events + more;
    SplitLast(events, more);
    LastStep(t0, all, before, more[|more| - 1]);
  }

  lemma {:induction false} RunGrows(t0: Tables, events: seq<Event>, more: seq<Event>, t: Tables, t': Tables, h: int)
    requires t == Run(t0, events) && t' == Run(t0, events + more) && TipsAbove(more, h)
    ensures GrowsAbove(t, t', h)
  {
    if more == [] {
      assert events + more == events;
    } else {
      var before, e := more[..|more| - 1], more[|more| - 1];
      var mid := Run(t0, events + before);
      RunStep(t0, events, more, mid);
      RunGrows(t0, events, before, t, mid, h);
      StepGrows(mid, e, t', h);
      GrowsOn(t, mid, t', h);
    }
  }

  // ---------------------------------------------------------------- below a cursor

  lemma {:induction false} BelowStays(t: Tables, t': Tables, addresses: seq<Address>, p: Position)
    requires RowsAbove(t.addressTxs, t'.addressTxs, p.height)
    ensures After(History(t', addresses), Some(p)) == After(History(t, addresses), Some(p))
  {
    forall x ensures x in After(History(t', addresses), Some(p)) <==> x in After(History(t, addresses), Some(p)) {
      if x in After(History(t', addresses), Some(p)) {
        var k :| k in t'.addressTxs && k.address in addresses && x == Row(Some(t'.addressTxs[k]), k.txId);
        assert k in t.addressTxs;
      }
      if x in After(History(t, addresses), Some(p)) {
        var k :| k in t.addressTxs && k.address in addresses && x == Row(Some(t.addressTxs[k]), k.txId);
        assert k in t'.addressTxs && t'.addressTxs[k] == t.addressTxs[k];
      }
    }
  }

  /** The two tables have the same next cursor, being the hash of the same row. */
  lemma {:induction false} SameCursor(tr: TxTable, tr': TxTable, a: Option<Hash>, b: Option<Hash>, p: Position)
    requires KeepsTxs(tr, tr') && OneHash(tr')
    requires PositionOf(tr, a) == Ok(Some(p)) && PositionOf(tr', b) == Ok(Some(p))
    ensures a == b
  {
  }

  lemma {:induction false} PageStays(t: Tables, t': Tables, addresses: seq<Address>, limit: nat, cursor: Option<Hash>,
                                     p: Position)
    requires Indexed(t) && Indexed(t') && addresses != [] && GrowsAbove(t, t', p.height)
    requires PositionOf(t.transactions, cursor) == Ok(Some(p))
    ensures PositionOf(t'.transactions, cursor) == Ok(Some(p))
    ensures XpubPage(t', addresses, limit, cursor) == XpubPage(t, addresses, limit, cursor)
  {
    var remaining := After(History(t, addresses), Some(p));
    BelowStays(t, t', addresses, p);
    var page := PageIs(t, addresses, limit, cursor, Some(p), remaining);
    var page' := PageIs(t', addresses, limit, cursor, Some(p), remaining);
    if page.nextCursor.Some? {
      var last := page.rows[limit - 1];
      SameCursor(t.transactions, t'.transactions, page.nextCursor, page'.nextCursor,
                 Position(last.id, last.height.value));
    }
  }

  lemma {:induction false} RunIndexed(w: World, events: seq<Event>, t: Tables)
    requires ValidRun(w, [], events) && t == Run(EMPTY, events)
    ensures Indexed(t)
  {
    RunListsConfirmed(w, events, t);
    RunInv(w, events, t);
  }

  /** In every run a cursor is refused if and only if it names no mined transaction: pending
   * and unknown ones alike. */
  lemma {:induction false} RunRefuses(w: World, events: seq<Event>, t: Tables, addresses: seq<Address>, limit: nat,
                                      cursor: Option<Hash>)
    requires ValidRun(w, [], events) && t == Run(EMPTY, events) && addresses != []
    ensures Indexed(t)
    ensures XpubPage(t, addresses, limit, cursor).Err? <==> cursor.Some? && !Among(ChainOf(events), cursor.value)
  {
    RunIndexed(w, events, t);
    RunInv(w, events, t);
    CursorRefused(t, addresses, limit, cursor);
    if cursor.Some? {
      assert Confirmed(t.transactions, cursor.value) <==> Among(ChainOf(events), cursor.value);
    }
  }

  lemma {:induction false} ValidBefore(w: World, events: seq<Event>, more: seq<Event>)
    requires ValidRun(w, [], events + more)
    ensures ValidRun(w, [], events)
  {
    if more == [] {
      assert events + more == events;
    } else {
      assert (events + more)[..|events + more| - 1] == events + more[..|more| - 1];
      ValidBefore(w, events, more[..|more| - 1]);
    }
  }

  /** A reader who holds a cursor sees one and the same listing below it, page by page, however
   * long the indexer goes on in between, as long as what it confirms is above the cursor. */
  lemma {:induction false} PagingIsStable(w: World, events: seq<Event>, more: seq<Event>, t: Tables, t': Tables,
                                          addresses: seq<Address>, limit: nat, cursor: Option<Hash>, p: Position)
    requires ValidRun(w, [], events + more) && t == Run(EMPTY, events) && t' == Run(EMPTY, events + more)
    requires addresses != [] && PositionOf(t.transactions, cursor) == Ok(Some(p)) && TipsAbove(more, p.height)
    ensures Indexed(t) && Indexed(t') && PositionOf(t'.transactions, cursor) == Ok(Some(p))
    ensures XpubPage(t', addresses, limit, cursor) == XpubPage(t, addresses, limit, cursor)
    ensures limit >= 1 ==> Follow(t', addresses, limit, cursor) == Follow(t, addresses, limit, cursor)
  {
    ValidBefore(w, events, more);
    RunIndexed(w, events, t);
    RunIndexed(w, events + more, t');
    RunGrows(EMPTY, events, more, t, t', p.height);
    PageStays(t, t', addresses, limit, cursor, p);
    if limit >= 1 {
      BelowStays(t, t', addresses, p);
      FollowFrom(t, addresses, limit, cursor, Some(p));
      FollowFrom(t', addresses, limit, cursor, Some(p));
    }
  }
}
