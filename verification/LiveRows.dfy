/** What the live halves of the windows read: in every run the stored rows of a stretch of
 * heights hold exactly what the chain mined there. */
module LiveRows {
  import opened Prelude
  import opened Rollups
  import opened Ledger
  import opened LedgerFacts
  import opened LedgerInvariants
  import opened LedgerRuns
  import opened LedgerBatches
  import opened LedgerTotals
  import opened LedgerBalance
  import opened LedgerSums
  import opened LedgerListing
  import opened StoredTruth
  import opened Rollback
  import opened RollbackRuns
  import opened TimeWindows
  import opened XpubHistory
  import StatsWindow
  import ActivityWindow
  import BalanceSeries

  // ------------------------------------------------- the rows of one transaction

  function OutRowsOf(t: Tables, id: int, a: Address): set<Outpoint> {
    set o | o in t.outputs && o.txId == id && t.outputs[o].address == Some(a)
  }

  function InRowsOf(t: Tables, id: int, a: Address): set<Slot> {
    set s | s in t.inputs && s.txId == id && t.inputs[s].address == Some(a)
  }

  /** SUM(value) of its outputs to the address, less SUM(amount) of its inputs from it. */
  ghost function RowFlow(t: Tables, id: int, a: Address): int {
    SumSet(OutRowsOf(t, id, a), ValueOf(t)) - SumSet(InRowsOf(t, id, a), AmountOf(t))
  }

  /** The RPC is truthful, and answers for every parent that the chain does not hold. */
  ghost predicate ParentsKnown(w: World, rpc: Rpc, chain: seq<Mined>) {
    Agrees(w, rpc)
      && forall i, k :: 0 <= i < |chain| && 0 <= k < |chain[i].tx.vin| ==>
           ParentKnown(w, rpc, chain, chain[i].tx.vin[k])
  }

  ghost predicate ParentKnown(w: World, rpc: Rpc, chain: seq<Mined>, input: TxIn) {
    input.Spend? ==> Among(chain, input.prevHash) || rpc(input.prevHash) == Some(w(input.prevHash))
  }

  /** An index whose stored inputs are true, over a chain whose parents are known. */
  ghost predicate TrueIndex(t: Tables, w: World, rpc: Rpc, chain: seq<Mined>) {
    Inv(t, w, chain) && RowsTrue(t, w, Hashes(chain)) && ParentsKnown(w, rpc, chain)
  }

  lemma {:induction false} OutRowsAre(t: Tables, w: World, x: Hash, a: Address)
    requires IdsOk(t.transactions, t.nextTxId) && OutsOk(t.transactions, w, t.outputs) && x in t.transactions
    ensures OutRowsOf(t, t.transactions[x].id, a) == Paying(t.transactions[x].id, w(x).vout, a)
    ensures SumSet(OutRowsOf(t, t.transactions[x].id, a), ValueOf(t)) == PaidTo(w(x).vout, a)
  {
    var tr, id := t.transactions, t.transactions[x].id;
    forall v | 0 <= v < |w(x).vout|
      ensures Outpoint(id, v) in t.outputs && SameOut(t.outputs[Outpoint(id, v)], w(x).vout[v]) {
      assert Creates(tr, w, x, Outpoint(id, v));
    }
    forall o | o in OutRowsOf(t, id, a) ensures o in Paying(id, w(x).vout, a) {
      var y :| Creates(tr, w, y, o);
      assert y == x && o == Outpoint(id, o.vout);
    }
    PayingSum(id, w(x).vout, a, ValueOf(t));
  }

  /** What the chain resolves an input to is the spent output itself. */
  lemma {:induction false} ResolvedTrue(w: World, rpc: Rpc, chain: seq<Mined>, i: int, k: int)
    requires ValidChain(w, chain) && ParentsKnown(w, rpc, chain) && 0 <= i < |chain| && 0 <= k < |chain[i].tx.vin|
    ensures var r := ChainResolved(w, rpc, chain[..i], chain[i].tx)[k];
            TrueFlow(w, chain[i].tx.vin[k], r.address, r.amount)
  {
    var input := chain[i].tx.vin[k];
    assert ParentKnown(w, rpc, chain, input);
    if input.Spend? && Among(chain, input.prevHash) {
      var j :| 0 <= j < |chain| && chain[j].tx.txid == input.prevHash;
      assert j < i && chain[..i][j].tx.txid == input.prevHash;
    }
  }

  lemma {:induction false} InRowsAre(t: Tables, w: World, rpc: Rpc, chain: seq<Mined>, i: int, a: Address,
                                     res: seq<Resolved>)
    requires TrueIndex(t, w, rpc, chain) && 0 <= i < |chain| && res == ChainResolved(w, rpc, chain[..i], chain[i].tx)
    ensures chain[i].tx.txid in t.transactions
    ensures InRowsOf(t, t.transactions[chain[i].tx.txid].id, a) == Taking(t.transactions[chain[i].tx.txid].id, res, a)
    ensures SumSet(InRowsOf(t, t.transactions[chain[i].tx.txid].id, a), AmountOf(t)) == SpentFrom(res, a)
  {
    var tr, x := t.transactions, chain[i].tx.txid;
    var id := tr[x].id;
    assert chain[i] in chain && w(x) == chain[i].tx && x in Hashes(chain);
    forall k | 0 <= k < |res|
      ensures Slot(id, k) in t.inputs && t.inputs[Slot(id, k)].address == res[k].address
              && t.inputs[Slot(id, k)].amount == res[k].amount
    {
      assert Holds(tr, w, x, Slot(id, k));
      assert RowTrue(t.inputs, w, w(x).vin[k], Slot(id, k));
      ResolvedTrue(w, rpc, chain, i, k);
    }
    forall s | s in InRowsOf(t, id, a) ensures s in Taking(id, res, a) {
      var y :| Holds(tr, w, y, s);
      assert y == x && s == Slot(id, s.vin);
    }
    TakingSum(id, res, a, AmountOf(t));
  }

  /** The rows of the `i`th mined transaction: what it pays to and takes from an address, and
   * whether there are any. */
  lemma {:induction false} RowsOfMined(t: Tables, w: World, rpc: Rpc, chain: seq<Mined>, i: int, a: Address)
    requires TrueIndex(t, w, rpc, chain) && 0 <= i < |chain|
    ensures var m := chain[i];
            && m.tx.txid in t.transactions && t.transactions[m.tx.txid].height == Some(m.height)
            && var id := t.transactions[m.tx.txid].id;
               && RowFlow(t, id, a) == PaidTo(m.tx.vout, a) - SpentFrom(ChainResolved(w, rpc, chain[..i], m.tx), a)
               && (a in TouchedAt(w, rpc, chain, i) <==> OutRowsOf(t, id, a) != {} || InRowsOf(t, id, a) != {})
  {
    var x, res := chain[i].tx.txid, ChainResolved(w, rpc, chain[..i], chain[i].tx);
    assert chain[i] in chain && w(x) == chain[i].tx;
    InRowsAre(t, w, rpc, chain, i, a, res);
    OutRowsAre(t, w, x, a);
    PayingSome(t.transactions[x].id, chain[i].tx.vout, a);
    TakingSome(t.transactions[x].id, res, a);
  }

  lemma {:induction false} PayingSome(id: int, vout: seq<TxOut>, a: Address)
    ensures a in OutAddresses(vout) <==> Paying(id, vout, a) != {}
  {
    if v :| 0 <= v < |vout| && vout[v].address == Some(a) {
      assert Outpoint(id, v) in Paying(id, vout, a);
    }
  }

  lemma {:induction false} TakingSome(id: int, res: seq<Resolved>, a: Address)
    ensures a in InAddresses(res) <==> Taking(id, res, a) != {}
  {
    if k :| 0 <= k < |res| && res[k].address == Some(a) {
      assert Slot(id, k) in Taking(id, res, a);
    }
  }

  // -------------------------------------------------------- flows over heights

  /** The address's rows of address_transactions at the heights that `p` picks. */
  function ListedWhere(t: Tables, a: Address, p: int -> bool): set<AddrTx> {
    set k | k in t.addressTxs && k.address == a && p(t.addressTxs[k])
  }

  ghost function FlowOf(t: Tables, a: Address): AddrTx -> int {
    (k: AddrTx) => RowFlow(t, k.txId, a)
  }

  predicate IdAmong(tr: TxTable, chain: seq<Mined>, n: int, id: int) {
    exists i :: 0 <= i < n && i < |chain| && chain[i].tx.txid in tr && tr[chain[i].tx.txid].id == id
  }

  /** Those of the first `n` mined transactions. */
  function ListedUpTo(t: Tables, chain: seq<Mined>, n: int, a: Address, p: int -> bool): set<AddrTx> {
    set k | k in ListedWhere(t, a, p) && IdAmong(t.transactions, chain, n, k.txId)
  }

  lemma {:induction false} IdAmongNext(tr: TxTable, next: int, chain: seq<Mined>, n: nat, id: int)
    requires IdsOk(tr, next) && Distinct(chain) && n < |chain| && chain[n].tx.txid in tr
    ensures IdAmong(tr, chain, n + 1, id) <==> IdAmong(tr, chain, n, id) || id == tr[chain[n].tx.txid].id
    ensures !IdAmong(tr, chain, n, tr[chain[n].tx.txid].id)
  {
    if i :| 0 <= i < n + 1 && i < |chain| && chain[i].tx.txid in tr && tr[chain[i].tx.txid].id == id {
      assert i < n ==> IdAmong(tr, chain, n, id);
    }
  }

  /** One more mined transaction brings its row, if it has one among those picked. */
  lemma {:induction false} ListedNext(t: Tables, chain: seq<Mined>, n: nat, a: Address, p: int -> bool, k: AddrTx)
    requires IdsOk(t.transactions, t.nextTxId) && Distinct(chain) && n < |chain| && chain[n].tx.txid in t.transactions
    requires k == AddrTx(a, t.transactions[chain[n].tx.txid].id)
    ensures ListedUpTo(t, chain, n + 1, a, p) == ListedUpTo(t, chain, n, a, p)
            + if k in ListedWhere(t, a, p) then {k} else {}
    ensures k !in ListedUpTo(t, chain, n, a, p)
  {
    forall j ensures IdAmong(t.transactions, chain, n + 1, j) <==> IdAmong(t.transactions, chain, n, j) || j == k.txId {
      IdAmongNext(t.transactions, t.nextTxId, chain, n, j);
    }
    IdAmongNext(t.transactions, t.nextTxId, chain, n, k.txId);
  }

  /** What the stored rows of a transaction move, if the address lists it. */
  ghost function ListedFlow(t: Tables, x: Hash, a: Address): int {
    if x in t.transactions && AddrTx(a, t.transactions[x].id) in t.addressTxs
    then RowFlow(t, t.transactions[x].id, a) else 0
  }

  /** One item per mined transaction, as the index stores it. */
  ghost function StoredFlows(t: Tables, chain: seq<Mined>, a: Address): seq<Item> {
    seq(|chain|, i requires 0 <= i < |chain| =>
      Item(chain[i].height, chain[i].time, ListedFlow(t, chain[i].tx.txid, a)))
  }

  /** An index that follows the chain and lists confirmed transactions. */
  ghost predicate ListedIndex(t: Tables, w: World, chain: seq<Mined>) {
    Inv(t, w, chain) && ListsConfirmed(t.transactions, t.addressTxs)
  }

  lemma {:induction false} ListedHeight(t: Tables, w: World, chain: seq<Mined>, n: nat, k: AddrTx)
    requires ListedIndex(t, w, chain) && n < |chain| && k in t.addressTxs
    ensures chain[n].tx.txid in t.transactions
    ensures t.transactions[chain[n].tx.txid].id == k.txId ==> t.addressTxs[k] == chain[n].height
  {
    assert ConfirmedAt(t.transactions, k.txId, t.addressTxs[k]);
  }

  /** What the `n`th mined transaction's rows move, if `p` picks its height. */
  ghost function MovedAt(t: Tables, chain: seq<Mined>, n: nat, a: Address, p: int -> bool): int
    requires n < |chain|
  {
    if p(chain[n].height) then ListedFlow(t, chain[n].tx.txid, a) else 0
  }

  ghost function MovedUpTo(t: Tables, chain: seq<Mined>, n: nat, a: Address, p: int -> bool): int
    requires n <= |chain|
  {
    if n == 0 then 0 else MovedUpTo(t, chain, n - 1, a, p) + MovedAt(t, chain, n - 1, a, p)
  }

  lemma {:induction false} MovedIs(t: Tables, chain: seq<Mined>, items: seq<Item>, n: nat, a: Address, p: int -> bool)
    requires n <= |chain| && items == StoredFlows(t, chain, a)
    ensures MovedUpTo(t, chain, n, a, p) == Weigh(items[..n], (x: Item) => p(x.height))
  {
    if n > 0 {
      MovedIs(t, chain, items, n - 1, a, p);
      assert items[..n][..n - 1] == items[..n - 1];
    }
  }

  ghost function SumUpTo(t: Tables, chain: seq<Mined>, n: nat, a: Address, p: int -> bool): int {
    SumSet(ListedUpTo(t, chain, n, a, p), FlowOf(t, a))
  }

  lemma {:induction false} FlowsUpTo(t: Tables, chain: seq<Mined>, n: nat, a: Address, p: int -> bool)
    requires n <= |chain| && SumUpTo(t, chain, 0, a, p) == 0
    requires forall i: nat :: i < |chain| ==>
               SumUpTo(t, chain, i + 1, a, p) == SumUpTo(t, chain, i, a, p) + MovedAt(t, chain, i, a, p)
    ensures SumUpTo(t, chain, n, a, p) == MovedUpTo(t, chain, n, a, p)
  {
    if n > 0 {
      FlowsUpTo(t, chain, n - 1, a, p);
    }
  }

  lemma {:induction false} SumPutIf<T>(s: set<T>, f: T -> int, x: T, put: bool)
    requires x !in s
    ensures SumSet(s + if put then {x} else {}, f) == SumSet(s, f) + if put then f(x) else 0
  {
    if put {
      SumPut(s, f, x);
    } else {
      assert s + {} == s;
    }
  }

  lemma {:induction false} SumNext(t: Tables, w: World, chain: seq<Mined>, n: nat, a: Address, p: int -> bool)
    requires ListedIndex(t, w, chain) && n < |chain|
    ensures SumUpTo(t, chain, n + 1, a, p) == SumUpTo(t, chain, n, a, p) + MovedAt(t, chain, n, a, p)
  {
    assert chain[n].tx.txid in t.transactions;
    var k := AddrTx(a, t.transactions[chain[n].tx.txid].id);
    ListedNext(t, chain, n, a, p, k);
    if k in t.addressTxs {
      ListedHeight(t, w, chain, n, k);
    }
    SumPutIf(ListedUpTo(t, chain, n, a, p), FlowOf(t, a), k, k in ListedWhere(t, a, p));
  }

  /** Joined with its outputs and inputs, the address's listing over any heights gives what the
   * rows of the transactions mined there move. */
  lemma {:induction false} ListedFlows(t: Tables, w: World, chain: seq<Mined>, a: Address, p: int -> bool)
    requires ListedIndex(t, w, chain)
    ensures SumSet(ListedWhere(t, a, p), FlowOf(t, a)) == Weigh(StoredFlows(t, chain, a), (x: Item) => p(x.height))
  {
    forall n: nat | n < |chain|
      ensures SumUpTo(t, chain, n + 1, a, p) == SumUpTo(t, chain, n, a, p) + MovedAt(t, chain, n, a, p)
    {
      SumNext(t, w, chain, n, a, p);
    }
    AllListed(t, w, chain, a, p);
    FlowsUpTo(t, chain, |chain|, a, p);
    MovedIs(t, chain, StoredFlows(t, chain, a), |chain|, a, p);
    assert StoredFlows(t, chain, a)[..|chain|] == StoredFlows(t, chain, a);
  }

  lemma {:induction false} AllListed(t: Tables, w: World, chain: seq<Mined>, a: Address, p: int -> bool)
    requires ListedIndex(t, w, chain)
    ensures SumUpTo(t, chain, 0, a, p) == 0 && ListedUpTo(t, chain, |chain|, a, p) == ListedWhere(t, a, p)
  {
    assert ListedUpTo(t, chain, 0, a, p) == {};
    forall k | k in ListedWhere(t, a, p) ensures IdAmong(t.transactions, chain, |chain|, k.txId) {
      assert ConfirmedAt(t.transactions, k.txId, t.addressTxs[k]);
      var h :| h in t.transactions && t.transactions[h].id == k.txId && t.transactions[h].height.Some?;
      assert Confirmed(t.transactions, h) && Among(chain, h);
    }
  }

  lemma {:induction false} FlowsAre(w: World, rpc: Rpc, chain: seq<Mined>, a: Address, i: int)
    requires 0 <= i < |chain|
    ensures |BalanceSeries.Flows(w, rpc, chain, a)| == |chain|
    ensures BalanceSeries.Flows(w, rpc, chain, a)[i] ==
            Item(chain[i].height, chain[i].time,
                 PaidTo(chain[i].tx.vout, a) - SpentFrom(ChainResolved(w, rpc, chain[..i], chain[i].tx), a))
  {
    var n := |chain| - 1;
    if i < n {
      FlowsAre(w, rpc, chain[..n], a, i);
      assert chain[..n][..i] == chain[..i];
    } else if n > 0 {
      FlowsAre(w, rpc, chain[..n], a, 0);
    }
  }

  /** The row is there exactly if the transaction touches the address; if it does not, nothing
   * flows. */
  lemma {:induction false} TrueFlowAt(t: Tables, w: World, rpc: Rpc, chain: seq<Mined>, n: nat, a: Address)
    requires TrueIndex(t, w, rpc, chain) && ListsChain(t.transactions, w, rpc, chain, t.addressTxs) && n < |chain|
    ensures ListedFlow(t, chain[n].tx.txid, a) ==
            PaidTo(chain[n].tx.vout, a) - SpentFrom(ChainResolved(w, rpc, chain[..n], chain[n].tx), a)
  {
    RowsOfMined(t, w, rpc, chain, n, a);
    var k := AddrTx(a, t.transactions[chain[n].tx.txid].id);
    assert a in TouchedAt(w, rpc, chain, n) <==> Lists(t.transactions, w, rpc, chain, k, n);
    if k in t.addressTxs {
      var i :| Lists(t.transactions, w, rpc, chain, k, i);
      OnePlace(t.transactions, t.nextTxId, chain, i, n);
    }
  }

  /** With true input rows the index stores the chain's own flows. */
  lemma {:induction false} SourcedFlows(t: Tables, w: World, rpc: Rpc, chain: seq<Mined>, a: Address)
    requires TrueIndex(t, w, rpc, chain) && ListsChain(t.transactions, w, rpc, chain, t.addressTxs)
    ensures StoredFlows(t, chain, a) == BalanceSeries.Flows(w, rpc, chain, a)
  {
    var stored, flows := StoredFlows(t, chain, a), BalanceSeries.Flows(w, rpc, chain, a);
    FlowPerTx(w, rpc, chain, a);
    forall i | 0 <= i < |chain| ensures stored[i] == flows[i] {
      FlowsAre(w, rpc, chain, a, i);
      TrueFlowAt(t, w, rpc, chain, i, a);
    }
  }

  lemma {:induction false} FlowPerTx(w: World, rpc: Rpc, chain: seq<Mined>, a: Address)
    ensures |BalanceSeries.Flows(w, rpc, chain, a)| == |chain|
  {
    if chain != [] {
      FlowsAre(w, rpc, chain, a, 0);
    }
  }

  // -------------------------------------------------------- counts over heights

  /** Confirmed transactions at the heights that `p` picks. */
  function RowsWith(tr: TxTable, p: int -> bool, fits: Hash -> bool): set<Hash> {
    set x | x in tr && tr[x].height.Some? && p(tr[x].height.value) && fits(x)
  }

  function RowsUpTo(tr: TxTable, chain: seq<Mined>, p: int -> bool, fits: Hash -> bool): set<Hash> {
    set x | x in RowsWith(tr, p, fits) && Among(chain, x)
  }

  /** One item per mined transaction, at its height, weighing 1 if it fits. */
  ghost predicate ItemsFit(chain: seq<Mined>, items: seq<Item>, fits: Hash -> bool) {
    |items| == |chain|
      && forall i :: 0 <= i < |chain| ==>
           items[i].height == chain[i].height && items[i].weight == One(fits(chain[i].tx.txid))
  }

  lemma {:induction false} CountUpTo(tr: TxTable, chain: seq<Mined>, items: seq<Item>, p: int -> bool,
                                     fits: Hash -> bool)
    requires Distinct(chain) && ItemsFit(chain, items, fits)
    requires forall i :: 0 <= i < |chain| ==>
               chain[i].tx.txid in tr && tr[chain[i].tx.txid].height == Some(chain[i].height)
    ensures |RowsUpTo(tr, chain, p, fits)| == Weigh(items, (x: Item) => p(x.height))
  {
    if chain == [] {
      assert RowsUpTo(tr, chain, p, fits) == {};
    } else {
      var n := |chain| - 1;
      var before, x := chain[..n], chain[n].tx.txid;
      CountUpTo(tr, before, items[..n], p, fits);
      assert chain == before + [chain[n]];
      RowsNext(tr, before, chain[n], chain, p, fits);
      CountPut(RowsUpTo(tr, before, p, fits), x, p(chain[n].height) && fits(x));
    }
  }

  function OneIf(x: Hash, put: bool): set<Hash> {
    if put then {x} else {}
  }

  lemma {:induction false} CountPut(s: set<Hash>, x: Hash, put: bool)
    requires x !in s
    ensures |s + OneIf(x, put)| == |s| + One(put)
  {
  }

  lemma {:induction false} RowsNext(tr: TxTable, before: seq<Mined>, m: Mined, chain: seq<Mined>, p: int -> bool,
                                    fits: Hash -> bool)
    requires chain == before + [m] && Distinct(chain) && m.tx.txid in tr && tr[m.tx.txid].height == Some(m.height)
    ensures RowsUpTo(tr, chain, p, fits) ==
            RowsUpTo(tr, before, p, fits) + OneIf(m.tx.txid, p(m.height) && fits(m.tx.txid))
    ensures m.tx.txid !in RowsUpTo(tr, before, p, fits)
  {
    var x := m.tx.txid;
    assert chain[|before|] == m && forall i :: 0 <= i < |before| ==> chain[i] == before[i];
    forall y ensures Among(chain, y) <==> Among(before, y) || y == x {
      AmongLast(before, m, y);
    }
    assert !Among(before, x);
  }

  lemma {:induction false} AmongLast(before: seq<Mined>, m: Mined, y: Hash)
    ensures Among(before + [m], y) <==> Among(before, y) || y == m.tx.txid
  {
    var all := before + [m];
    assert all[|before|] == m;
    if i :| 0 <= i < |before| && before[i].tx.txid == y {
      assert all[i].tx.txid == y;
    }
  }

  /** Counting rows of the transactions table over any heights counts the chain's items. */
  lemma {:induction false} CountRows(tr: TxTable, w: World, chain: seq<Mined>, items: seq<Item>, p: int -> bool,
                                     fits: Hash -> bool)
    requires ValidChain(w, chain) && Follows(tr, chain) && ItemsFit(chain, items, fits)
    ensures |RowsWith(tr, p, fits)| == Weigh(items, (x: Item) => p(x.height))
  {
    CountUpTo(tr, chain, items, p, fits);
    forall x | x in RowsWith(tr, p, fits) ensures Among(chain, x) {
      assert Confirmed(tr, x);
    }
    assert RowsUpTo(tr, chain, p, fits) == RowsWith(tr, p, fits);
  }

  /** The address has an output or an input row of the transaction. */
  function HasRows(t: Tables, a: Address): Hash -> bool {
    x => x in t.transactions
      && (OutRowsOf(t, t.transactions[x].id, a) != {} || InRowsOf(t, t.transactions[x].id, a) != {})
  }

  lemma {:induction false} HitsAre(w: World, rpc: Rpc, chain: seq<Mined>, a: Address, i: int)
    requires 0 <= i < |chain|
    ensures |ActivityWindow.Hits(w, rpc, chain, a)| == |chain|
    ensures ActivityWindow.Hits(w, rpc, chain, a)[i] ==
            Item(chain[i].height, chain[i].time, One(a in TouchedAt(w, rpc, chain, i)))
  {
    var n := |chain| - 1;
    if i < n {
      HitsAre(w, rpc, chain[..n], a, i);
      assert chain[..n][..i] == chain[..i];
    } else if n > 0 {
      HitsAre(w, rpc, chain[..n], a, 0);
    }
  }

  /** One item per mined transaction, weighing 1 if rows of the address are stored for it. */
  function StoredHits(t: Tables, chain: seq<Mined>, a: Address): seq<Item> {
    seq(|chain|, i requires 0 <= i < |chain| =>
      Item(chain[i].height, chain[i].time, One(HasRows(t, a)(chain[i].tx.txid))))
  }

  lemma {:induction false} TouchedRows(t: Tables, w: World, chain: seq<Mined>, a: Address, p: int -> bool)
    requires Inv(t, w, chain)
    ensures |RowsWith(t.transactions, p, HasRows(t, a))| == Weigh(StoredHits(t, chain, a), (x: Item) => p(x.height))
  {
    CountRows(t.transactions, w, chain, StoredHits(t, chain, a), p, HasRows(t, a));
  }

  /** With true input rows the stored rows touch what the chain touches. */
  lemma {:induction false} SourcedHits(t: Tables, w: World, rpc: Rpc, chain: seq<Mined>, a: Address)
    requires TrueIndex(t, w, rpc, chain)
    ensures StoredHits(t, chain, a) == ActivityWindow.Hits(w, rpc, chain, a)
  {
    var stored, hits := StoredHits(t, chain, a), ActivityWindow.Hits(w, rpc, chain, a);
    HitPerTx(w, rpc, chain, a);
    forall i | 0 <= i < |chain| ensures stored[i] == hits[i] {
      HitsAre(w, rpc, chain, a, i);
      TrueHitAt(t, w, rpc, chain, i, a);
    }
  }

  lemma {:induction false} TrueHitAt(t: Tables, w: World, rpc: Rpc, chain: seq<Mined>, i: int, a: Address)
    requires TrueIndex(t, w, rpc, chain) && 0 <= i < |chain|
    ensures HasRows(t, a)(chain[i].tx.txid) <==> a in TouchedAt(w, rpc, chain, i)
  {
    RowsOfMined(t, w, rpc, chain, i, a);
  }

  lemma {:induction false} HitPerTx(w: World, rpc: Rpc, chain: seq<Mined>, a: Address)
    ensures |ActivityWindow.Hits(w, rpc, chain, a)| == |chain|
  {
    if chain != [] {
      HitsAre(w, rpc, chain, a, 0);
    }
  }

  // ------------------------------------------------------------- kinds of blocks

  function FilterOf(k: StatsWindow.Kind): Filter {
    match k
    case Special => SpecialTx
    case CoinJoins => CoinJoinTx
    case Multisig => MultisigTx
    case Normal => NormalTx
  }

  /** The FILTER clause on a stored row. */
  function OfKind(tr: TxTable, k: StatsWindow.Kind): Hash -> bool {
    x => x in tr && RowFits(FilterOf(k), tr[x])
  }

  function KindItem(m: Mined, k: StatsWindow.Kind): Item {
    Item(m.height, m.time, StatsWindow.KindOf(HourTally(m.tx), k))
  }

  lemma {:induction false} TxItemAt(txs: seq<Tx>, height: int, time: int, k: StatsWindow.Kind, i: int)
    requires 0 <= i < |txs|
    ensures |StatsWindow.TxItems(txs, height, time, k)| == |txs|
    ensures StatsWindow.TxItems(txs, height, time, k)[i] == KindItem(Mined(txs[i], height, time), k)
  {
    var n := |txs| - 1;
    if i < n {
      TxItemAt(txs[..n], height, time, k, i);
    } else if n > 0 {
      TxItemAt(txs[..n], height, time, k, 0);
    }
  }

  lemma {:induction false} BlockItems(b: Block, k: StatsWindow.Kind)
    ensures StatsWindow.TxItems(b.txs, b.height, b.time, k) ==
            seq(|b.txs|, i requires 0 <= i < |b.txs| => KindItem(MinedTxs(b)[i], k))
  {
    assert b.txs == [] ==> StatsWindow.TxItems(b.txs, b.height, b.time, k) == [];
    assert |b.txs| > 0 ==> |StatsWindow.TxItems(b.txs, b.height, b.time, k)| == |b.txs| by {
      if |b.txs| > 0 { TxItemAt(b.txs, b.height, b.time, k, 0); }
    }
    forall i | 0 <= i < |b.txs|
      ensures |StatsWindow.TxItems(b.txs, b.height, b.time, k)| == |b.txs|
      ensures StatsWindow.TxItems(b.txs, b.height, b.time, k)[i] == KindItem(MinedTxs(b)[i], k)
    {
      TxItemAt(b.txs, b.height, b.time, k, i);
    }
  }

  lemma {:induction false} ItemsAreChain(history: seq<Block>, k: StatsWindow.Kind)
    ensures var items, chain := StatsWindow.Items(history, k), Flatten(history);
            |items| == |chain| && forall i :: 0 <= i < |chain| ==> items[i] == KindItem(chain[i], k)
  {
    if history != [] {
      var before, b := history[..|history| - 1], history[|history| - 1];
      ItemsAreChain(before, k);
      BlockItems(b, k);
      var items, chain, n := StatsWindow.Items(history, k), Flatten(history), |Flatten(before)|;
      forall i | 0 <= i < |chain| ensures items[i] == KindItem(chain[i], k) {
        if i >= n {
          assert chain[i] == MinedTxs(b)[i - n] && items[i] == StatsWindow.TxItems(b.txs, b.height, b.time, k)[i - n];
        } else {
          assert chain[i] == Flatten(before)[i] && items[i] == StatsWindow.Items(before, k)[i];
        }
      }
    }
  }

  lemma {:induction false} KindFits(tx: Tx, k: StatsWindow.Kind)
    ensures StatsWindow.KindOf(HourTally(tx), k) == One(TxFits(FilterOf(k), tx))
  {
    TallyFits(tx, FilterOf(k), CoinJoin(tx));
  }

  lemma {:induction false} KindRows(t: Tables, w: World, history: seq<Block>, k: StatsWindow.Kind, p: int -> bool)
    requires Inv(t, w, Flatten(history)) && FlagsOk(t.transactions, w)
    ensures |RowsWith(t.transactions, p, OfKind(t.transactions, k))| ==
            Weigh(StatsWindow.Items(history, k), (x: Item) => p(x.height))
  {
    var chain, items, tr := Flatten(history), StatsWindow.Items(history, k), t.transactions;
    ItemsAreChain(history, k);
    forall i | 0 <= i < |chain| ensures items[i].weight == One(OfKind(tr, k)(chain[i].tx.txid)) {
      assert chain[i] in chain && w(chain[i].tx.txid) == chain[i].tx && chain[i].tx.txid in tr;
      KindFits(chain[i].tx, k);
    }
    CountRows(tr, w, chain, items, p, OfKind(tr, k));
  }

  // --------------------------------------------------------------- in every run

  /** The live half of the statistics: counting stored transactions of a kind over any heights
   * counts the mined ones. */
  lemma {:induction false} RunKindRows(w: World, events: seq<Event>, t: Tables, k: StatsWindow.Kind, p: int -> bool)
    requires ValidRun(w, [], events) && t == Run(EMPTY, events)
    ensures |RowsWith(t.transactions, p, OfKind(t.transactions, k))| ==
            Weigh(StatsWindow.Items(HistoryOf(events), k), (x: Item) => p(x.height))
  {
    RunInv(w, events, t);
    RunKeepsFlags(w, events);
    KindRows(t, w, HistoryOf(events), k, p);
  }

  lemma {:induction false} RunTrueIndex(w: World, rpc: Rpc, events: seq<Event>, t: Tables)
    requires ValidRun(w, [], events) && t == Run(EMPTY, events)
    requires SourcedRun(w, events, Hashes(ChainOf(events))) && ParentsKnown(w, rpc, ChainOf(events))
    ensures TrueIndex(t, w, rpc, ChainOf(events))
  {
    RunInv(w, events, t);
    RunRowsTrue(w, events, Hashes(ChainOf(events)), t);
  }

  /** The mined transactions were stored with a truthful RPC that answered for the parents the
   * index did not have, and it answers for those the chain does not hold. */
  ghost predicate Sources(w: World, rpc: Rpc, events: seq<Event>) {
    SourcedRun(w, events, Hashes(ChainOf(events))) && ParentsKnown(w, rpc, ChainOf(events))
  }

  /** The live half of an address's activity, in any run: the transactions at any heights with
   * an output or input row of the address are counted, and these are the mined ones that touch
   * it if the run was sourced. */
  lemma {:induction false} RunTouchedRows(w: World, rpc: Rpc, events: seq<Event>, t: Tables, a: Address, p: int -> bool)
    requires ValidRun(w, [], events) && t == Run(EMPTY, events)
    ensures |RowsWith(t.transactions, p, HasRows(t, a))| ==
            Weigh(StoredHits(t, ChainOf(events), a), (x: Item) => p(x.height))
    ensures Sources(w, rpc, events) ==>
              StoredHits(t, ChainOf(events), a) == ActivityWindow.Hits(w, rpc, ChainOf(events), a)
  {
    RunInv(w, events, t);
    TouchedRows(t, w, ChainOf(events), a, p);
    if Sources(w, rpc, events) {
      RunTrueIndex(w, rpc, events, t);
      SourcedHits(t, w, rpc, ChainOf(events), a);
    }
  }

  // --------------------------------------------------------- the blocks table

  /** blocks.timestamp, joined on the height. */
  function TimeAt(blocks: map<int, BlockRow>, h: int): int {
    if h in blocks then blocks[h].time else 0
  }

  predicate OneBlockEach(history: seq<Block>) {
    forall i, j :: 0 <= i < j < |history| ==> history[i].height != history[j].height
  }

  lemma {:induction false} RunBlocks(t0: Tables, events: seq<Event>)
    ensures Run(t0, events).blocks == PutBlocks(t0.blocks, HistoryOf(events))
  {
    if events != [] {
      var before, e := events[..|events| - 1], events[|events| - 1];
      RunBlocks(t0, before);
      StepBlocks(Run(t0, before), e, Run(t0, events));
      HistoryNext(events, before, e);
      PutBlocksConcat(t0.blocks, HistoryOf(before), BlocksOf(e));
    }
  }

  function BlocksOf(e: Event): seq<Block> {
    match e
    case Batch(blocks, _) => blocks
    case Pending(_, _) => []
  }

  lemma {:induction false} HistoryNext(events: seq<Event>, before: seq<Event>, e: Event)
    requires events != [] && before == events[..|events| - 1] && e == events[|events| - 1]
    ensures HistoryOf(events) == HistoryOf(before) + BlocksOf(e)
  {
  }

  lemma {:induction false} StepBlocks(t: Tables, e: Event, t': Tables)
    requires t' == Step(t, e)
    ensures t'.blocks == PutBlocks(t.blocks, BlocksOf(e))
  {
  }

  /** With one block per height the table has each block's own time. */
  lemma {:induction false} BlockTime(history: seq<Block>, i: int)
    requires OneBlockEach(history) && 0 <= i < |history|
    ensures TimeAt(PutBlocks(map[], history), history[i].height) == history[i].time
    ensures history[i].height in PutBlocks(map[], history)
    ensures PutBlocks(map[], history)[history[i].height] ==
            BlockRow(history[i].time, history[i].size, |history[i].txs|)
  {
    var n := |history| - 1;
    if i < n {
      BlockTime(history[..n], i);
    } else {
      NotPutYet(history[..n], history[n].height);
    }
  }

  lemma {:induction false} NotPutYet(history: seq<Block>, h: int)
    requires forall i :: 0 <= i < |history| ==> history[i].height != h
    ensures h !in PutBlocks(map[], history)
  {
    if history != [] {
      NotPutYet(history[..|history| - 1], h);
    }
  }

  lemma {:induction false} BlockOf(history: seq<Block>, i: int) returns (j: int)
    requires 0 <= i < |Flatten(history)|
    ensures 0 <= j < |history| && history[j].height == Flatten(history)[i].height
    ensures history[j].time == Flatten(history)[i].time
  {
    var n := |history| - 1;
    if i < |Flatten(history[..n])| {
      j := BlockOf(history[..n], i);
    } else {
      j := n;
    }
  }

  /** Each transaction's time is its height's time in the blocks table. */
  predicate TimesOf(chain: seq<Mined>, blocks: map<int, BlockRow>) {
    forall i :: 0 <= i < |chain| ==> chain[i].time == TimeAt(blocks, chain[i].height)
  }

  lemma {:induction false} HistoryTimes(history: seq<Block>)
    requires OneBlockEach(history)
    ensures TimesOf(Flatten(history), PutBlocks(map[], history))
  {
    forall i | 0 <= i < |Flatten(history)|
      ensures Flatten(history)[i].time == TimeAt(PutBlocks(map[], history), Flatten(history)[i].height)
    {
      var j := BlockOf(history, i);
      BlockTime(history, j);
    }
  }

  /** What the address's listed rows in a height range, of blocks whose times `q` picks, move:
   * stored outputs less stored inputs. */
  ghost function RowNet(t: Tables, a: Address, range: Option<Heights>, q: int -> bool): int {
    SumSet(ListedWhere(t, a, h => InHeights(range, h) && q(Ms(TimeAt(t.blocks, h)))), FlowOf(t, a))
  }

  lemma {:induction false} RunListedIndex(w: World, events: seq<Event>, t: Tables)
    requires ValidRun(w, [], events) && t == Run(EMPTY, events)
    ensures ListedIndex(t, w, ChainOf(events))
  {
    RunInv(w, events, t);
    RunListsConfirmed(w, events, t);
  }

  /** The live half of the balance series, in any run with one block per height: those rows
   * move what the rows of the transactions mined there move. */
  lemma {:induction false} RunNetRows(w: World, events: seq<Event>, t: Tables, a: Address, range: Option<Heights>,
                                      q: int -> bool)
    requires ValidRun(w, [], events) && t == Run(EMPTY, events) && OneBlockEach(HistoryOf(events))
    ensures RowNet(t, a, range, q) ==
            Weigh(StoredFlows(t, ChainOf(events), a), (x: Item) => InHeights(range, x.height) && q(Ms(x.time)))
  {
    var chain, p := ChainOf(events), h => InHeights(range, h) && q(Ms(TimeAt(t.blocks, h)));
    var flows := StoredFlows(t, chain, a);
    RunListedIndex(w, events, t);
    ListedFlows(t, w, chain, a, p);
    RunTimes(events, t);
    WeighSame(flows, (x: Item) => p(x.height), (x: Item) => InHeights(range, x.height) && q(Ms(x.time)));
  }

  /** In a sourced run these are the chain's own flows. */
  lemma {:induction false} RunSourcedFlows(w: World, rpc: Rpc, events: seq<Event>, t: Tables, a: Address)
    requires ValidRun(w, [], events) && Mining(w, events, rpc) && Sources(w, rpc, events) && t == Run(EMPTY, events)
    ensures StoredFlows(t, ChainOf(events), a) == BalanceSeries.Flows(w, rpc, ChainOf(events), a)
  {
    RunTrueIndex(w, rpc, events, t);
    RunListsChain(w, rpc, events, t);
    SourcedFlows(t, w, rpc, ChainOf(events), a);
  }

  lemma {:induction false} RunTimes(events: seq<Event>, t: Tables)
    requires t == Run(EMPTY, events) && OneBlockEach(HistoryOf(events))
    ensures TimesOf(ChainOf(events), t.blocks)
  {
    RunBlocks(EMPTY, events);
    ChainIsHistory(events);
    HistoryTimes(HistoryOf(events));
  }
}
