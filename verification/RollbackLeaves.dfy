/** What the rollback leaves behind when stored inputs do not carry the resolution of their
 * block: the exact difference, and a block for which there is one. */
module RollbackLeaves {
  import opened Prelude
  import opened Rollups
  import opened Ledger
  import opened LedgerFacts
  import opened LedgerInvariants
  import opened LedgerMine
  import opened LedgerSee
  import opened LedgerRuns
  import opened LedgerDeltas
  import opened LedgerBatches
  import opened LedgerTotals
  import opened LedgerSums
  import opened LedgerListing
  import opened StoredTruth
  import opened Rollback
  import opened RollbackRuns

  function StoredAt(ins: InTable, s: Slot): Resolved {
    if s in ins then Resolved(None, ins[s].address, ins[s].amount) else Resolved(None, None, None)
  }

  /** The resolution that the stored rows of a transaction carry. */
  function StoredRes(ins: InTable, id: int, n: nat): seq<Resolved> {
    seq(n, k => StoredAt(ins, Slot(id, k)))
  }

  function StoredOf(t: Tables, txs: seq<Mined>): seq<seq<Resolved>>
    requires AllKnown(t.transactions, txs)
  {
    seq(|txs|, i requires 0 <= i < |txs| => StoredRes(t.inputs, IdAt(t.transactions, txs, i), |txs[i].tx.vin|))
  }

  function Takes(stored: seq<seq<Resolved>>, a: Address): int -> int {
    i => if 0 <= i < |stored| then SpentFrom(stored[i], a) else 0
  }

  /** What the stored rows take out of an address. */
  function StoredSpent(stored: seq<seq<Resolved>>, a: Address): int {
    Total(Takes(stored, a), |stored|)
  }

  lemma {:induction false} StoredIns(t: Tables, w: World, h: int, txs: seq<Mined>)
    requires InsOk(t.transactions, w, t.inputs) && IdsOk(t.transactions, t.nextTxId) && Named(w, txs)
             && TxsOfHeight(t, h, txs)
    ensures InsOfHeight(t, txs, StoredOf(t, txs))
  {
    var tr := t.transactions;
    var res: seq<seq<Resolved>> := StoredOf(t, txs);
    forall i, k | 0 <= i < |txs|
      ensures var s := Slot(IdAt(tr, txs, i), k);
              && (s in t.inputs <==> 0 <= k < |res[i]|)
              && (s in t.inputs ==> t.inputs[s].address == res[i][k].address && t.inputs[s].amount == res[i][k].amount)
    {
      var x, s := txs[i].tx.txid, Slot(IdAt(tr, txs, i), k);
      assert txs[i] in txs && x in tr && tr[x].id == s.txId && w(x) == txs[i].tx;
      if s in t.inputs {
        var y :| Holds(tr, w, y, s);
        assert y == x;
      }
      if 0 <= k < |txs[i].tx.vin| {
        assert Holds(tr, w, x, s);
      }
    }
  }

  /** How many of the transactions touch an address, by their outputs and stored rows. */
  function StoredTouch(txs: seq<Mined>, stored: seq<seq<Resolved>>, a: Address): int
    requires |stored| == |txs|
  {
    Total(TouchBit(txs, stored, a), |txs|)
  }

  /** What an address is left with: resolved at write time, less what the stored rows say. */
  datatype Excess = Excess(sent: int, txs: int)

  function ExcessOf(t: Tables, t1: Tables, rpc: Rpc, txs: seq<Mined>, a: Address): Excess
    requires AllKnown(t1.transactions, txs)
  {
    var tr, view, stored := t1.transactions, StagedOutputs(t1.transactions, txs) + t.outputs, StoredOf(t1, txs);
    Excess(SpentSum(tr, view, rpc, txs, a) - StoredSpent(stored, a),
           TouchCount(tr, view, rpc, txs, a) - StoredTouch(txs, stored, a))
  }

  /** Which columns of which rows keep it: only the two UPDATEs that read input rows do. */
  function LeftAt(k: RollupKey, day: int, e: Excess): Tally {
    match k
    case AddressTotal(_) => ZERO.(sent := e.sent, txs := e.txs)
    case AddressDay(_, d) => if d == day then ZERO.(sent := e.sent) else ZERO
    case _ => ZERO
  }

  lemma {:induction false} StoredSums(t: Tables, w: World, h: int, txs: seq<Mined>, a: Address)
    requires InsOk(t.transactions, w, t.inputs) && IdsOk(t.transactions, t.nextTxId) && Named(w, txs)
    requires TxsOfHeight(t, h, txs) && OutsOfHeight(t, txs)
    ensures SumSet(OutRowsAt(t, h, a), ValueOf(t)) == PaidSum(txs, a)
    ensures SumSet(InRowsAt(t, h, a), AmountOf(t)) == StoredSpent(StoredOf(t, txs), a)
    ensures |TouchingIds(t, h, a)| == StoredTouch(txs, StoredOf(t, txs), a)
  {
    var stored: seq<seq<Resolved>> := StoredOf(t, txs);
    StoredIns(t, w, h, txs);
    ReceivedIs(t, h, txs, a);
    SentIs(t, h, txs, stored, a, Takes(stored, a));
    TouchingIs(t, h, txs, stored, a);
  }

  /** The listing was written with the resolution itself. */
  lemma {:induction false} ListedCount(t: Tables, b: Block, txs: seq<Mined>, res: seq<seq<Resolved>>, view: OutTable,
                                       rpc: Rpc, a: Address)
    requires HoldsBlock(t, b, txs, res) && ResolvedBy(t.transactions, view, rpc, txs, res)
    ensures |ListedAt(t, b.height, a)| == TouchCount(t.transactions, view, rpc, txs, a)
  {
    var tr, n := t.transactions, |txs|;
    ListedIs(t, b.height, txs, res, a);
    TouchTotal(tr, view, rpc, txs, a, n);
    TotalSame(TouchBit(txs, res, a), i => if 0 <= i < |txs| && Touches(tr, view, rpc, txs[i], a) then 1 else 0, n);
    assert txs[..n] == txs;
  }

  /** The subquery of an address row, from the sums it reads. */
  function RowShare(k: RollupKey, day: int, received: int, sent: int, touching: int, listed: int): Tally {
    match k
    case AddressTotal(_) => ZERO.(received := received, sent := sent, txs := touching)
    case AddressDay(_, d) => if d == day then ZERO.(received := received, sent := sent) else ZERO
    case DayActivity(d, _) => if d == day then ZERO.(txs := listed) else ZERO
    case WeekActivity(week, _) => if week == WeekOf(day) then ZERO.(txs := listed) else ZERO
    case _ => ZERO
  }

  lemma {:induction false} ShareIsRow(t: Tables, b: Block, k: RollupKey, received: int, sent: int, touching: int,
                                      listed: int)
    requires HasAddress(k) && b.height in t.blocks && t.blocks[b.height].time == b.time
    requires SumSet(OutRowsAt(t, b.height, k.address), ValueOf(t)) == received
    requires SumSet(InRowsAt(t, b.height, k.address), AmountOf(t)) == sent
    requires |TouchingIds(t, b.height, k.address)| == touching && |ListedAt(t, b.height, k.address)| == listed
    ensures ShareAt(t, b.height, k) == RowShare(k, DayOf(b.time), received, sent, touching, listed)
  {
  }

  /** What is subtracted and what is left make up what was added. */
  lemma {:induction false} SharePlusLeft(k: RollupKey, day: int, total: Tally, sent: int, touching: int, e: Excess)
    requires HasAddress(k) && total == ZERO.(received := total.received, sent := total.sent, txs := total.txs)
    requires sent + e.sent == total.sent && touching + e.txs == total.txs
    ensures Plus(RowShare(k, day, total.received, sent, touching, total.txs), LeftAt(k, day, e)) ==
            Project(k, day, total)
  {
  }

  lemma {:induction false} AddressLeft(t1: Tables, w: World, b: Block, txs: seq<Mined>, view: OutTable,
                                       res: seq<seq<Resolved>>, rpc: Rpc, k: RollupKey, total: Tally, e: Excess)
    requires HoldsBlock(t1, b, txs, res) && ResolvedBy(t1.transactions, view, rpc, txs, res) && HasAddress(k)
    requires Structure(t1, w) && Named(w, txs)
    requires total == WalkSum(t1.transactions, view, rpc, txs, AddressTotal(k.address))
    requires e.sent == SpentSum(t1.transactions, view, rpc, txs, k.address) - StoredSpent(StoredOf(t1, txs), k.address)
    requires e.txs ==
             TouchCount(t1.transactions, view, rpc, txs, k.address) - StoredTouch(txs, StoredOf(t1, txs), k.address)
    ensures Plus(ShareAt(t1, b.height, k), LeftAt(k, DayOf(b.time), e)) == Project(k, DayOf(b.time), total)
  {
    var sent, touching := StoredSpent(StoredOf(t1, txs), k.address), StoredTouch(txs, StoredOf(t1, txs), k.address);
    StoredSums(t1, w, b.height, txs, k.address);
    ListedCount(t1, b, txs, res, view, rpc, k.address);
    TotalRow(t1.transactions, view, rpc, txs, k.address, total);
    ShareIsRow(t1, b, k, total.received, sent, touching, total.txs);
    SharePlusLeft(k, DayOf(b.time), total, sent, touching, e);
  }

  lemma {:induction false} UndoneBut(r: Rollups, delta: Rollups, r1: Rollups, k: RollupKey, share: Tally, left: Tally)
    requires r1 == Merge(r, delta) && At(delta, k) == Plus(share, left)
    ensures (if k in r1 then Minus(r1[k], share) else ZERO) == Plus(At(r, k), if k in r1 then left else ZERO)
  {
    AtMerge(r, delta, k);
  }

  /** What the block added to a row is what its subquery gives and what is left. */
  lemma {:induction false} AddressAdded(t: Tables, w: World, chain: seq<Mined>, b: Block, rpc: Rpc, t1: Tables,
                                        k: RollupKey)
    returns (delta: Rollups, e: Excess)
    requires ReadyFor(t, w, chain, b) && t1 == Mine(t, [b], rpc) && HasAddress(k)
    ensures AllKnown(t1.transactions, MinedTxs(b)) && e == ExcessOf(t, t1, rpc, MinedTxs(b), k.address)
    ensures t1.rollups == Merge(t.rollups, delta)
    ensures At(delta, k) == Plus(ShareAt(t1, b.height, k), LeftAt(k, DayOf(b.time), e))
  {
    var txs := MinedTxs(b);
    var view, res := TipHeight(t, w, chain, b, rpc, t1, txs);
    var total := WalkSum(t1.transactions, view, rpc, txs, AddressTotal(k.address));
    e := ExcessOf(t, t1, rpc, txs, k.address);
    delta := BatchDelta(t1.transactions, view, rpc, [b], txs);
    AtBatchDelta(t1.transactions, view, rpc, [b], txs, k);
    AddressAddition(t1.transactions, view, rpc, b, txs, k, total);
    AddressLeft(t1, w, b, txs, view, res, rpc, k, total, e);
  }

  lemma {:induction false} StatsAdded(t: Tables, w: World, chain: seq<Mined>, b: Block, rpc: Rpc, t1: Tables,
                                      k: RollupKey)
    returns (delta: Rollups)
    requires ReadyFor(t, w, chain, b) && t1 == Mine(t, [b], rpc) && !HasAddress(k)
    ensures AllKnown(t1.transactions, MinedTxs(b)) && t1.rollups == Merge(t.rollups, delta)
    ensures At(delta, k) == ShareAt(t1, b.height, k)
  {
    var txs := MinedTxs(b);
    var view, res := TipHeight(t, w, chain, b, rpc, t1, txs);
    delta := BatchDelta(t1.transactions, view, rpc, [b], txs);
    AtBatchDelta(t1.transactions, view, rpc, [b], txs, k);
    StatsShare(t1, b, txs, res, view, rpc, k);
  }

  function LeftHere(r1: Rollups, k: RollupKey, day: int, e: Excess): Tally {
    if k in r1 then LeftAt(k, day, e) else ZERO
  }

  function LeftOf(t: Tables, t1: Tables, rpc: Rpc, b: Block, k: RollupKey): Tally
    requires AllKnown(t1.transactions, MinedTxs(b))
  {
    if HasAddress(k) then LeftHere(t1.rollups, k, DayOf(b.time), ExcessOf(t, t1, rpc, MinedTxs(b), k.address)) else ZERO
  }

  lemma {:induction false} AtReversed(t: Tables, h: int, k: RollupKey)
    ensures At(Reversed(t, h), k) == if k in t.rollups then Minus(t.rollups[k], ShareAt(t, h, k)) else ZERO
  {
  }

  lemma {:induction false} AddressBehind(t: Tables, w: World, chain: seq<Mined>, b: Block, rpc: Rpc, t1: Tables,
                                         k: RollupKey)
    returns (e: Excess)
    requires ReadyFor(t, w, chain, b) && t1 == Mine(t, [b], rpc) && HasAddress(k)
    ensures AllKnown(t1.transactions, MinedTxs(b)) && e == ExcessOf(t, t1, rpc, MinedTxs(b), k.address)
    ensures At(Reversed(t1, b.height), k) == Plus(At(t.rollups, k), LeftHere(t1.rollups, k, DayOf(b.time), e))
  {
    var delta;
    delta, e := AddressAdded(t, w, chain, b, rpc, t1, k);
    UndoneBut(t.rollups, delta, t1.rollups, k, ShareAt(t1, b.height, k), LeftAt(k, DayOf(b.time), e));
    AtReversed(t1, b.height, k);
  }

  lemma {:induction false} StatsBehind(t: Tables, w: World, chain: seq<Mined>, b: Block, rpc: Rpc, t1: Tables,
                                       k: RollupKey)
    requires ReadyFor(t, w, chain, b) && t1 == Mine(t, [b], rpc) && !HasAddress(k)
    ensures At(Reversed(t1, b.height), k) == At(t.rollups, k) && AllKnown(t1.transactions, MinedTxs(b))
  {
    var delta := StatsAdded(t, w, chain, b, rpc, t1, k);
    Undone(t.rollups, delta, t1.rollups, k, ShareAt(t1, b.height, k));
    AtReversed(t1, b.height, k);
  }

  /** After writing and deleting any tip block every row of all six rollups is what it was,
   * and what is left there. */
  lemma {:induction false} LeftBehind(t: Tables, w: World, chain: seq<Mined>, b: Block, rpc: Rpc, t1: Tables,
                                      k: RollupKey)
    requires ReadyFor(t, w, chain, b) && t1 == Mine(t, [b], rpc)
    ensures AllKnown(t1.transactions, MinedTxs(b))
    ensures At(Reversed(t1, b.height), k) == Plus(At(t.rollups, k), LeftOf(t, t1, rpc, b, k))
  {
    if HasAddress(k) {
      var e := AddressBehind(t, w, chain, b, rpc, t1, k);
    } else {
      StatsBehind(t, w, chain, b, rpc, t1, k);
      PlusLaws(At(t.rollups, k), ZERO, ZERO);
    }
  }

  /** The stored input rows spend from the address, and touch it, as was resolved at write
   * time: asked of the columns that have a row. */
  ghost predicate RowsAgree(t: Tables, t1: Tables, rpc: Rpc, b: Block, a: Address)
    requires AllKnown(t1.transactions, MinedTxs(b))
  {
    var e := ExcessOf(t, t1, rpc, MinedTxs(b), a);
    && (AddressTotal(a) in t1.rollups ==> e.sent == 0 && e.txs == 0)
    && (AddressDay(a, DayOf(b.time)) in t1.rollups ==> e.sent == 0)
  }

  lemma {:induction false} PlusZero(x: Tally, y: Tally)
    ensures Plus(x, y) == x <==> y == ZERO
  {
  }

  /** Deleting the tip block restores all six rollups if and only if, for every address with a
   * row, its stored input rows say what was resolved when it was written. */
  lemma {:induction false} RestoredIff(t: Tables, w: World, chain: seq<Mined>, b: Block, rpc: Rpc, t1: Tables)
    requires ReadyFor(t, w, chain, b) && t1 == Mine(t, [b], rpc)
    ensures AllKnown(t1.transactions, MinedTxs(b))
    ensures (forall k :: At(Reversed(t1, b.height), k) == At(t.rollups, k))
            <==> forall a :: RowsAgree(t, t1, rpc, b, a)
  {
    var view := TipStage(t, w, chain, b, rpc, t1, MinedTxs(b));
    forall k ensures At(Reversed(t1, b.height), k) == At(t.rollups, k) <==> LeftOf(t, t1, rpc, b, k) == ZERO {
      LeftBehind(t, w, chain, b, rpc, t1, k);
      PlusZero(At(t.rollups, k), LeftOf(t, t1, rpc, b, k));
    }
    NothingLeftIff(t, t1, rpc, b);
  }

  lemma {:induction false} NothingLeftIff(t: Tables, t1: Tables, rpc: Rpc, b: Block)
    requires AllKnown(t1.transactions, MinedTxs(b))
    ensures (forall k :: LeftOf(t, t1, rpc, b, k) == ZERO) <==> forall a :: RowsAgree(t, t1, rpc, b, a)
  {
    var day := DayOf(b.time);
    if forall k :: LeftOf(t, t1, rpc, b, k) == ZERO {
      forall a ensures RowsAgree(t, t1, rpc, b, a) {
        assert LeftOf(t, t1, rpc, b, AddressTotal(a)) == ZERO && LeftOf(t, t1, rpc, b, AddressDay(a, day)) == ZERO;
      }
    }
    if forall a :: RowsAgree(t, t1, rpc, b, a) {
      forall k ensures LeftOf(t, t1, rpc, b, k) == ZERO {
        assert HasAddress(k) ==> RowsAgree(t, t1, rpc, b, k.address);
      }
    }
  }

  // -------------------------------------------------------------------- a witness

  /** A parent that pays `v` to `a`, and the child that takes it. */
  predicate Pair(w: World, parent: Tx, child: Tx, a: Address, v: int) {
    && parent == w(parent.txid) && child == w(child.txid) && parent.txid != child.txid
    && parent.vin == [Coinbase] && parent.vout == [TxOut(Some(a), v)] && child.vin == [Spend(parent.txid, 0)]
  }

  lemma {:induction false} OneSpent(r: Resolved, a: Address)
    ensures SpentFrom([r], a) == if r.address == Some(a) then Amount(r) else 0
  {
    assert [r][..0] == [];
  }

  lemma {:induction false} SpentStep(tr: TxTable, view: OutTable, rpc: Rpc, before: seq<Mined>, m: Mined, a: Address)
    ensures SpentSum(tr, view, rpc, before + [m], a) ==
            SpentSum(tr, view, rpc, before, a) + SpentFrom(Resolve(tr, view, rpc, m.tx), a)
  {
    SumsGrow(tr, view, rpc, before, m, a, Resolve(tr, view, rpc, m.tx));
  }

  lemma {:induction false} TwoSpent(tr: TxTable, view: OutTable, rpc: Rpc, one: Mined, two: Mined, a: Address)
    ensures SpentSum(tr, view, rpc, [one, two], a) ==
            SpentFrom(Resolve(tr, view, rpc, one.tx), a) + SpentFrom(Resolve(tr, view, rpc, two.tx), a)
  {
    assert [one, two] == [one] + [two] && [one] == [] + [one];
    SpentStep(tr, view, rpc, [], one, a);
    SpentStep(tr, view, rpc, [one], two, a);
  }

  lemma {:induction false} TouchStep(tr: TxTable, view: OutTable, rpc: Rpc, before: seq<Mined>, m: Mined, a: Address)
    ensures TouchCount(tr, view, rpc, before + [m], a) ==
            TouchCount(tr, view, rpc, before, a) + if a in Touched(m.tx, Resolve(tr, view, rpc, m.tx)) then 1 else 0
  {
    SumsGrow(tr, view, rpc, before, m, a, Resolve(tr, view, rpc, m.tx));
  }

  lemma {:induction false} TwoTouch(tr: TxTable, view: OutTable, rpc: Rpc, one: Mined, two: Mined, a: Address)
    requires a in Touched(one.tx, Resolve(tr, view, rpc, one.tx))
             && a in Touched(two.tx, Resolve(tr, view, rpc, two.tx))
    ensures TouchCount(tr, view, rpc, [one, two], a) == 2
  {
    assert [one, two] == [one] + [two] && [one] == [] + [one];
    TouchStep(tr, view, rpc, [], one, a);
    TouchStep(tr, view, rpc, [one], two, a);
  }

  /** Mined together, the child's input resolves to the parent's output. */
  lemma {:induction false} PairResolved(t1: Tables, w: World, view: OutTable, rpc: Rpc, b: Block, parent: Tx, child: Tx,
                                        a: Address, v: int)
    requires Pair(w, parent, child, a, v) && b.txs == [parent, child]
    requires IdsOk(t1.transactions, t1.nextTxId) && OutsOk(t1.transactions, w, view) && parent.txid in t1.transactions
    ensures SpentSum(t1.transactions, view, rpc, MinedTxs(b), a) == v
    ensures TouchCount(t1.transactions, view, rpc, MinedTxs(b), a) == 2
  {
    var tr := t1.transactions;
    LookupIsCanonical(tr, t1.nextTxId, w, view, rpc, child.vin[0]);
    LookupIsCanonical(tr, t1.nextTxId, w, view, rpc, parent.vin[0]);
    var p, c := Resolved(None, None, None), Resolved(IdOf(tr, parent.txid), Some(a), Some(v));
    assert Resolve(tr, view, rpc, parent) == [p] && Resolve(tr, view, rpc, child) == [c];
    assert MinedTxs(b) == [Mined(parent, b.height, b.time), Mined(child, b.height, b.time)];
    TwoSpent(tr, view, rpc, Mined(parent, b.height, b.time), Mined(child, b.height, b.time), a);
    OneSpent(p, a);
    OneSpent(c, a);
    assert parent.vout[0].address == Some(a) && [c][0].address == Some(a);
    TwoTouch(tr, view, rpc, Mined(parent, b.height, b.time), Mined(child, b.height, b.time), a);
  }

  lemma {:induction false} BlankSpent(one: Resolved, two: Resolved, a: Address)
    requires one.address == None && two.address == None
    ensures StoredSpent([[one], [two]], a) == 0
  {
    var stored := [[one], [two]];
    var g := Takes(stored, a);
    OneSpent(one, a);
    OneSpent(two, a);
    assert stored[0] == [one] && stored[1] == [two] && g(0) == SpentFrom(stored[0], a)
           && g(1) == SpentFrom(stored[1], a);
    assert Total(g, 2) == Total(g, 1) + g(1) && Total(g, 1) == Total(g, 0) + g(0);
  }

  /** With blank rows only what a transaction pays touches the address. */
  lemma {:induction false} BlankTouch(txs: seq<Mined>, one: Resolved, two: Resolved, a: Address)
    requires |txs| == 2 && one.address == None && two.address == None && a in OutAddresses(txs[0].tx.vout)
    ensures StoredTouch(txs, [[one], [two]], a) == if a in OutAddresses(txs[1].tx.vout) then 2 else 1
  {
    var g := TouchBit(txs, [[one], [two]], a);
    assert InAddresses([one]) == {} && InAddresses([two]) == {};
    assert Total(g, 2) == Total(g, 1) + g(1) && Total(g, 1) == Total(g, 0) + g(0);
  }

  /** The parent's stored row is a coinbase's, without an address. */
  lemma {:induction false} CoinbaseBlank(t: Tables, w: World, rpc: Rpc, txs: seq<Mined>, t1: Tables, view: OutTable,
                                         parent: Tx)
    requires Structure(t, w) && Structure(t1, w) && Named(w, txs) && AllKnown(t1.transactions, txs)
    requires t1.inputs == StagedInputs(t1.transactions, view, rpc, txs) + t.inputs
    requires forall y :: y in t.transactions ==> y in t1.transactions && t1.transactions[y].id == t.transactions[y].id
    requires parent == w(parent.txid) && parent.vin == [Coinbase] && parent.txid !in t.transactions
             && Among(txs, parent.txid)
    requires parent.txid in t1.transactions
    ensures StoredAt(t1.inputs, Slot(t1.transactions[parent.txid].id, 0)).address == None
  {
    var s := Slot(t1.transactions[parent.txid].id, 0);
    assert Holds(t1.transactions, w, parent.txid, s);
    FreshRow(t, w, rpc, txs, t1, view, parent.txid, s);
  }

  lemma {:induction false} RowIfAdded(r: Rollups, delta: Rollups, r1: Rollups, k: RollupKey)
    requires r1 == Merge(r, delta)
    ensures k !in r1 ==> At(delta, k) == ZERO
  {
    AtMerge(r, delta, k);
  }

  lemma {:induction false} WalkSent(tr: TxTable, view: OutTable, rpc: Rpc, txs: seq<Mined>, a: Address, row: Tally)
    requires row == WalkSum(tr, view, rpc, txs, AddressTotal(a))
    ensures row.sent == SpentSum(tr, view, rpc, txs, a)
  {
    TotalRow(tr, view, rpc, txs, a, row);
  }

  lemma {:induction false} DayAdded(tr: TxTable, view: OutTable, rpc: Rpc, b: Block, txs: seq<Mined>, k: RollupKey,
                                    delta: Rollups, total: Tally)
    requires txs == MinedTxs(b) && delta == BatchDelta(tr, view, rpc, [b], txs) && k.AddressDay?
    requires total == WalkSum(tr, view, rpc, txs, AddressTotal(k.address))
    ensures At(delta, k) == Project(k, DayOf(b.time), total)
  {
    AtBatchDelta(tr, view, rpc, [b], txs, k);
    AddressAddition(tr, view, rpc, b, txs, k, total);
  }

  lemma {:induction false} DaySent(tr: TxTable, view: OutTable, rpc: Rpc, b: Block, txs: seq<Mined>, a: Address,
                                   delta: Rollups, total: Tally)
    requires txs == MinedTxs(b) && delta == BatchDelta(tr, view, rpc, [b], txs)
    requires total == WalkSum(tr, view, rpc, txs, AddressTotal(a))
    ensures At(delta, AddressDay(a, DayOf(b.time))).sent == SpentSum(tr, view, rpc, txs, a)
  {
    DayAdded(tr, view, rpc, b, txs, AddressDay(a, DayOf(b.time)), delta, total);
    WalkSent(tr, view, rpc, txs, a, total);
    ProjectedSent(a, DayOf(b.time), total);
  }

  lemma {:induction false} ProjectedSent(a: Address, day: int, total: Tally)
    ensures Project(AddressDay(a, day), day, total).sent == total.sent
  {
  }

  /** A day row of what the address spent exists, if it spent anything. */
  lemma {:induction false} DayHasRow(t: Tables, w: World, chain: seq<Mined>, b: Block, rpc: Rpc, t1: Tables, a: Address)
    returns (view: OutTable)
    requires ReadyFor(t, w, chain, b) && t1 == Mine(t, [b], rpc)
    ensures AllKnown(t1.transactions, MinedTxs(b)) && view == StagedOutputs(t1.transactions, MinedTxs(b)) + t.outputs
    ensures SpentSum(t1.transactions, view, rpc, MinedTxs(b), a) != 0 ==> AddressDay(a, DayOf(b.time)) in t1.rollups
  {
    view := TipStage(t, w, chain, b, rpc, t1, MinedTxs(b));
    var delta := BatchDelta(t1.transactions, view, rpc, [b], MinedTxs(b));
    DaySent(t1.transactions, view, rpc, b, MinedTxs(b), a, delta,
            WalkSum(t1.transactions, view, rpc, MinedTxs(b), AddressTotal(a)));
    RowIfAdded(t.rollups, delta, t1.rollups, AddressDay(a, DayOf(b.time)));
  }

  /** What the pair leaves of the child: its spending, and its count unless it pays `a` too. */
  function PairExcess(child: Tx, a: Address, v: int): Excess {
    Excess(v, if a in OutAddresses(child.vout) then 0 else 1)
  }

  /** The address's total and day rows before and after, differing by the excess. */
  predicate PairLeft(before: Rollups, after: Rollups, a: Address, day: int, e: Excess) {
    && At(after, AddressTotal(a)) == Plus(At(before, AddressTotal(a)), LeftAt(AddressTotal(a), day, e))
    && At(after, AddressDay(a, day)) == Plus(At(before, AddressDay(a, day)), LeftAt(AddressDay(a, day), day, e))
  }

  lemma {:induction false} LeftIsHere(r1: Rollups, k: RollupKey, day: int, e: Excess)
    requires k in r1 || LeftAt(k, day, e) == ZERO
    ensures LeftHere(r1, k, day, e) == LeftAt(k, day, e)
  {
  }

  lemma {:induction false} NoDayLeft(a: Address, day: int, e: Excess)
    requires e.sent == 0
    ensures LeftAt(AddressDay(a, day), day, e) == ZERO
  {
  }

  /** Whatever else the index holds: a child was stored while its parent was unknown and no
   * RPC answered, so its row is blank; the two are mined together, and deleted again. The
   * address keeps what the child spent in its two sent columns, and the child in its count. */
  lemma {:induction false} BlankRowLeaves(t: Tables, w: World, chain: seq<Mined>, b: Block, rpc: Rpc, t1: Tables,
                                          parent: Tx, child: Tx, a: Address, v: int)
    requires ReadyFor(t, w, chain, b) && Pair(w, parent, child, a, v) && b.txs == [parent, child]
             && t1 == Mine(t, [b], rpc)
    requires parent.txid !in t.transactions && child.txid in t.transactions
    requires StoredAt(t.inputs, Slot(t.transactions[child.txid].id, 0)).address == None
    ensures PairLeft(t.rollups, Reversed(t1, b.height), a, DayOf(b.time), PairExcess(child, a, v))
  {
    var day := DayOf(b.time);
    PairKeeps(t, w, chain, b, rpc, t1, parent, child, a, v);
    var e := AddressBehind(t, w, chain, b, rpc, t1, AddressTotal(a));
    var same := AddressBehind(t, w, chain, b, rpc, t1, AddressDay(a, day));
    PairLeftIs(t.rollups, t1.rollups, Reversed(t1, b.height), a, day, e);
  }

  lemma {:induction false} PairKeeps(t: Tables, w: World, chain: seq<Mined>, b: Block, rpc: Rpc, t1: Tables, parent: Tx,
                                     child: Tx, a: Address, v: int)
    requires ReadyFor(t, w, chain, b) && Pair(w, parent, child, a, v) && b.txs == [parent, child]
             && t1 == Mine(t, [b], rpc)
    requires parent.txid !in t.transactions && child.txid in t.transactions
    requires StoredAt(t.inputs, Slot(t.transactions[child.txid].id, 0)).address == None
    ensures AddressTotal(a) in t1.rollups && (v != 0 ==> AddressDay(a, DayOf(b.time)) in t1.rollups)
    ensures AllKnown(t1.transactions, MinedTxs(b))
    ensures ExcessOf(t, t1, rpc, MinedTxs(b), a) == PairExcess(child, a, v)
  {
    var txs := MinedTxs(b);
    PairFacts(t, w, chain, b, rpc, t1, txs, parent, child, a, v);
    var view := DayHasRow(t, w, chain, b, rpc, t1, a);
    PairViews(t, w, chain, b, rpc, t1, txs, view, parent, child, a, v);
    PairExcessIs(t, t1, rpc, txs, view, child, a, v);
  }

  lemma {:induction false} PairLeftIs(r: Rollups, r1: Rollups, reversed: Rollups, a: Address, day: int, e: Excess)
    requires AddressTotal(a) in r1 && (e.sent != 0 ==> AddressDay(a, day) in r1)
    requires At(reversed, AddressTotal(a)) == Plus(At(r, AddressTotal(a)), LeftHere(r1, AddressTotal(a), day, e))
    requires At(reversed, AddressDay(a, day)) ==
             Plus(At(r, AddressDay(a, day)), LeftHere(r1, AddressDay(a, day), day, e))
    ensures PairLeft(r, reversed, a, day, e)
  {
    LeftIsHere(r1, AddressTotal(a), day, e);
    if e.sent == 0 { NoDayLeft(a, day, e); }
    LeftIsHere(r1, AddressDay(a, day), day, e);
  }

  lemma {:induction false} PairTxs(b: Block, parent: Tx, child: Tx)
    requires b.txs == [parent, child]
    ensures var txs := MinedTxs(b);
            |txs| == 2 && txs[0].tx == parent && txs[1].tx == child && Among(txs, parent.txid) && Among(txs, child.txid)
  {
    assert MinedTxs(b)[0].tx.txid == parent.txid && MinedTxs(b)[1].tx.txid == child.txid;
  }

  /** The paid address has its row. */
  lemma {:induction false} PairFacts(t: Tables, w: World, chain: seq<Mined>, b: Block, rpc: Rpc, t1: Tables,
                                     txs: seq<Mined>, parent: Tx, child: Tx, a: Address, v: int)
    requires ReadyFor(t, w, chain, b) && Pair(w, parent, child, a, v) && b.txs == [parent, child]
             && t1 == Mine(t, [b], rpc)
    requires txs == MinedTxs(b)
    ensures AddressTotal(a) in t1.rollups && parent.txid in t1.transactions && child.txid in t1.transactions
  {
    PairTxs(b, parent, child);
    var view := BlockStage(t, w, chain, b, rpc, t1, txs);
    assert txs[0] in txs && txs[1] in txs;
    MineAddressesKnown(t, [b], rpc, t1);
    PaidHasRow(t1, w, parent, a);
  }

  lemma {:induction false} PaidHasRow(t1: Tables, w: World, parent: Tx, a: Address)
    requires OutsOk(t1.transactions, w, t1.outputs) && AddressesKnown(t1.outputs, t1.rollups)
    requires parent == w(parent.txid) && parent.txid in t1.transactions && |parent.vout| == 1
             && parent.vout[0].address == Some(a)
    ensures AddressTotal(a) in t1.rollups
  {
    var o := Outpoint(t1.transactions[parent.txid].id, 0);
    assert Creates(t1.transactions, w, parent.txid, o);
    assert SameOut(t1.outputs[o], parent.vout[0]);
  }

  lemma {:induction false} PairViews(t: Tables, w: World, chain: seq<Mined>, b: Block, rpc: Rpc, t1: Tables,
                                     txs: seq<Mined>, view: OutTable, parent: Tx, child: Tx, a: Address, v: int)
    requires ReadyFor(t, w, chain, b) && Pair(w, parent, child, a, v) && b.txs == [parent, child]
             && t1 == Mine(t, [b], rpc)
    requires txs == MinedTxs(b) && parent.txid !in t.transactions && child.txid in t.transactions
    requires AllKnown(t1.transactions, txs) && view == StagedOutputs(t1.transactions, txs) + t.outputs
    requires StoredAt(t.inputs, Slot(t.transactions[child.txid].id, 0)).address == None
    ensures SpentSum(t1.transactions, view, rpc, txs, a) == v
    ensures TouchCount(t1.transactions, view, rpc, txs, a) == 2 && StoredSpent(StoredOf(t1, txs), a) == 0
    ensures StoredTouch(txs, StoredOf(t1, txs), a) == if a in OutAddresses(child.vout) then 2 else 1
  {
    PairTxs(b, parent, child);
    var same := BlockStage(t, w, chain, b, rpc, t1, txs);
    PairResolved(t1, w, view, rpc, b, parent, child, a, v);
    CoinbaseBlank(t, w, rpc, txs, t1, view, parent);
    ChildBlank(t, w, t1, child);
    assert parent.vout[0].address == Some(a);
    PairStored(t1, txs, parent, child, a);
  }

  lemma {:induction false} PairExcessIs(t: Tables, t1: Tables, rpc: Rpc, txs: seq<Mined>, view: OutTable, child: Tx,
                                        a: Address, v: int)
    requires AllKnown(t1.transactions, txs) && view == StagedOutputs(t1.transactions, txs) + t.outputs
    requires SpentSum(t1.transactions, view, rpc, txs, a) == v
    requires TouchCount(t1.transactions, view, rpc, txs, a) == 2 && StoredSpent(StoredOf(t1, txs), a) == 0
    requires StoredTouch(txs, StoredOf(t1, txs), a) == if a in OutAddresses(child.vout) then 2 else 1
    ensures ExcessOf(t, t1, rpc, txs, a) == PairExcess(child, a, v)
  {
  }

  /** Blank rows: nothing spent, and only what pays the address touches it. */
  lemma {:induction false} PairStored(t1: Tables, txs: seq<Mined>, parent: Tx, child: Tx, a: Address)
    requires AllKnown(t1.transactions, txs) && |txs| == 2 && txs[0].tx == parent && txs[1].tx == child
    requires parent.txid in t1.transactions && child.txid in t1.transactions && a in OutAddresses(parent.vout)
    requires StoredAt(t1.inputs, Slot(t1.transactions[parent.txid].id, 0)).address == None
    requires StoredAt(t1.inputs, Slot(t1.transactions[child.txid].id, 0)).address == None
    requires |parent.vin| == 1 && |child.vin| == 1
    ensures StoredSpent(StoredOf(t1, txs), a) == 0
    ensures StoredTouch(txs, StoredOf(t1, txs), a) == if a in OutAddresses(child.vout) then 2 else 1
  {
    var one := StoredAt(t1.inputs, Slot(t1.transactions[parent.txid].id, 0));
    var two := StoredAt(t1.inputs, Slot(t1.transactions[child.txid].id, 0));
    StoredPair(t1, txs, parent, child);
    BlankSpent(one, two, a);
    BlankTouch(txs, one, two, a);
  }

  lemma {:induction false} ChildBlank(t: Tables, w: World, t1: Tables, child: Tx)
    requires InsOk(t.transactions, w, t.inputs) && child == w(child.txid) && |child.vin| == 1
             && child.txid in t.transactions
    requires child.txid in t1.transactions && t1.transactions[child.txid].id == t.transactions[child.txid].id
    requires forall r :: r in t.inputs ==> r in t1.inputs && t1.inputs[r] == t.inputs[r]
    requires StoredAt(t.inputs, Slot(t.transactions[child.txid].id, 0)).address == None
    ensures StoredAt(t1.inputs, Slot(t1.transactions[child.txid].id, 0)).address == None
  {
    assert Holds(t.transactions, w, child.txid, Slot(t.transactions[child.txid].id, 0));
  }

  lemma {:induction false} StoredPair(t1: Tables, txs: seq<Mined>, parent: Tx, child: Tx)
    requires AllKnown(t1.transactions, txs) && |txs| == 2 && txs[0].tx == parent && txs[1].tx == child
    requires |parent.vin| == 1 && |child.vin| == 1
    ensures parent.txid in t1.transactions && child.txid in t1.transactions
    ensures var one := StoredAt(t1.inputs, Slot(t1.transactions[parent.txid].id, 0));
            var two := StoredAt(t1.inputs, Slot(t1.transactions[child.txid].id, 0));
            StoredOf(t1, txs) == [[one], [two]]
  {
    assert txs[0] in txs && txs[1] in txs;
    var one := StoredAt(t1.inputs, Slot(t1.transactions[parent.txid].id, 0));
    var two := StoredAt(t1.inputs, Slot(t1.transactions[child.txid].id, 0));
    assert StoredRes(t1.inputs, IdAt(t1.transactions, txs, 0), 1) == [one];
    assert StoredRes(t1.inputs, IdAt(t1.transactions, txs, 1), 1) == [two];
  }

  /** Nothing is known of the spent output: the staged row is blank. */
  lemma {:induction false} SilentInput(tr: TxTable, view: OutTable, rpc: Rpc, child: Tx, id: int, parent: Hash, v: int,
                                       before: InTable, ins: InTable)
    requires child.vin == [Spend(parent, v)] && parent !in tr && rpc(parent) == None && Slot(id, 0) !in before
    requires ins == TxInputs(id, child.vin, Resolve(tr, view, rpc, child)) + before
    ensures StoredAt(ins, Slot(id, 0)).address == None
  {
    assert Resolve(tr, view, rpc, child)[0] == Resolved(None, None, None);
    assert Slot(id, 0) in TxInputs(id, child.vin, Resolve(tr, view, rpc, child));
  }

  /** Such a row comes about: the child is seen while its parent is unknown and no RPC answers. */
  lemma {:induction false} SilentRow(t0: Tables, w: World, child: Tx, parent: Hash, v: int, rpc: Rpc, t: Tables)
    requires Structure(t0, w) && child == w(child.txid) && child.vin == [Spend(parent, v)] && parent != child.txid
    requires child.txid !in t0.transactions && parent !in t0.transactions && rpc(parent) == None
             && t == See(t0, child, rpc)
    ensures child.txid in t.transactions && parent !in t.transactions
    ensures StoredAt(t.inputs, Slot(t.transactions[child.txid].id, 0)).address == None
  {
    var id := t0.nextTxId;
    var tr, view := t0.transactions[child.txid := NewRow(id, None, child)], TxOutputs(id, child.vout) + t0.outputs;
    SeeStage(t0, w, child, rpc, t, tr, view);
    assert Holds(tr, w, child.txid, Slot(id, 0));
    NotStoredBefore(t0, w, tr, id + 1, child.txid, Slot(id, 0));
    SilentInput(tr, view, rpc, child, id, parent, v, t0.inputs, t.inputs);
  }

  /** So after any run: the child is seen first, then mined with its parent, then deleted, and
   * the address is left with sent columns too high by what the child spends, and a count too
   * high by the child, unless it pays the address as well. */
  lemma {:induction false} SilentRollback(w: World, events: seq<Event>, t0: Tables, t: Tables, b: Block, rpc: Rpc,
                                          t1: Tables, parent: Tx, child: Tx, a: Address, v: int)
    requires ValidRun(w, [], events + [Pending(child, rpc)]) && t0 == Run(EMPTY, events) && t == See(t0, child, rpc)
    requires Pair(w, parent, child, a, v) && parent.txid !in t0.transactions && child.txid !in t0.transactions
    requires rpc(parent.txid) == None && b.txs == [parent, child] && t1 == Mine(t, [b], rpc)
    requires NothingAt(t, b.height) && Extends(w, ChainOf(events + [Pending(child, rpc)]), MinedTxs(b))
    ensures PairLeft(t.rollups, Reversed(t1, b.height), a, DayOf(b.time),
                     Excess(v, if a in OutAddresses(child.vout) then 0 else 1))
  {
    var all := events + [Pending(child, rpc)];
    LastEvent(w, all, t0);
    RunReady(w, all, t, b);
    RunInv(w, events, t0);
    SilentRow(t0, w, child, parent.txid, 0, rpc, t);
    BlankRowLeaves(t, w, ChainOf(all), b, rpc, t1, parent, child, a, v);
  }
}
