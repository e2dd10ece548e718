/** `delete_block_at_height`, its rollup part: what the stored rows of a height say was
 * added is subtracted again. */
module Rollback {
  import opened Prelude
  import opened Rollups
  import opened Ledger
  import opened LedgerFacts
  import opened LedgerInvariants
  import opened LedgerMine
  import opened LedgerRuns
  import opened LedgerSee
  import opened LedgerDeltas
  import opened LedgerBatches
  import opened LedgerTotals
  import opened LedgerSums
  import opened LedgerListing
  import opened Storage

  // ------------------------------------------------------------- sums over rows

  /** SUM(f) over a set of rows. */
  ghost function SumSet<T>(s: set<T>, f: T -> int): int {
    if s == {} then 0 else
      var x :| x in s;
      f(x) + SumSet(s - {x}, f)
  }

  lemma {:induction false} SumTake<T>(s: set<T>, f: T -> int, x: T)
    requires x in s
    ensures SumSet(s, f) == f(x) + SumSet(s - {x}, f)
    decreases |s|
  {
    var y :| y in s && SumSet(s, f) == f(y) + SumSet(s - {y}, f);
    if y != x {
      SumTake(s - {y}, f, x);
      SumTake(s - {x}, f, y);
      assert s - {y} - {x} == s - {x} - {y};
    }
  }

  lemma {:induction false} SumPut<T>(s: set<T>, f: T -> int, x: T)
    requires x !in s
    ensures SumSet(s + {x}, f) == SumSet(s, f) + f(x)
  {
    SumTake(s + {x}, f, x);
    assert s + {x} - {x} == s;
  }

  lemma {:induction false} SumUnion<T>(a: set<T>, b: set<T>, f: T -> int)
    requires a !! b
    ensures SumSet(a + b, f) == SumSet(a, f) + SumSet(b, f)
    decreases |b|
  {
    if b == {} {
      assert a + b == a;
    } else {
      var x :| x in b;
      SumUnion(a, b - {x}, f);
      SumTake(b, f, x);
      assert a + (b - {x}) + {x} == a + b;
      SumPut(a + (b - {x}), f, x);
    }
  }

  // ------------------------------------------------- what is stored of a height

  function TxsAt(t: Tables, h: int): set<Hash> {
    set x | x in t.transactions && t.transactions[x].height == Some(h)
  }

  function IdsAt(t: Tables, h: int): set<int> {
    set x | x in TxsAt(t, h) :: t.transactions[x].id
  }

  function OutRowsAt(t: Tables, h: int, a: Address): set<Outpoint> {
    set o | o in t.outputs && o.txId in IdsAt(t, h) && t.outputs[o].address == Some(a)
  }

  function InRowsAt(t: Tables, h: int, a: Address): set<Slot> {
    set s | s in t.inputs && s.txId in IdsAt(t, h) && t.inputs[s].address == Some(a)
  }

  function ValueOf(t: Tables): Outpoint -> int {
    o => if o in t.outputs then t.outputs[o].value else 0
  }

  /** COALESCE(amount, 0). */
  function AmountOf(t: Tables): Slot -> int {
    s => if s in t.inputs && t.inputs[s].amount.Some? then t.inputs[s].amount.value else 0
  }

  /** COUNT(DISTINCT tx_id) over both sides. */
  function TouchingIds(t: Tables, h: int, a: Address): set<int> {
    (set o | o in OutRowsAt(t, h, a) :: o.txId) + (set s | s in InRowsAt(t, h, a) :: s.txId)
  }

  function ListedAt(t: Tables, h: int, a: Address): set<AddrTx> {
    set k | k in t.addressTxs && k.address == a && t.addressTxs[k] == h
  }

  /** The FILTER clauses. */
  datatype Filter =
    | Every | NormalTx | SpecialTx | CoinJoinTx | MultisigTx
    | OfType(txType: nat, coinjoin: bool, multisig: bool)

  predicate Fits(f: Filter, txType: nat, coinjoin: bool, multisig: bool) {
    match f
    case Every => true
    case NormalTx => txType == 0 && !coinjoin && !multisig
    case SpecialTx => txType > 0
    case CoinJoinTx => coinjoin
    case MultisigTx => multisig
    case OfType(ty, cj, ms) => ty == txType && cj == coinjoin && ms == multisig
  }

  predicate RowFits(f: Filter, r: TxRow) { Fits(f, r.txType, r.coinjoin, r.multisig) }

  predicate TxFits(f: Filter, tx: Tx) { Fits(f, tx.txType, CoinJoin(tx), tx.multisig) }

  function RowsWhere(t: Tables, h: int, f: Filter): set<Hash> {
    set x | x in TxsAt(t, h) && RowFits(f, t.transactions[x])
  }

  /** The six subqueries: what each UPDATE subtracts from the row with key `k`. */
  ghost function ShareAt(t: Tables, h: int, k: RollupKey): Tally {
    match k
    case AddressTotal(a) =>
      ZERO.(received := SumSet(OutRowsAt(t, h, a), ValueOf(t)), sent := SumSet(InRowsAt(t, h, a), AmountOf(t)),
            txs := |TouchingIds(t, h, a)|)
    case AddressDay(a, day) =>
      if h in t.blocks && DayOf(t.blocks[h].time) == day
      then ZERO.(received := SumSet(OutRowsAt(t, h, a), ValueOf(t)), sent := SumSet(InRowsAt(t, h, a), AmountOf(t)))
        else ZERO
    case DayActivity(day, a) =>
      if h in t.blocks && DayOf(t.blocks[h].time) == day then ZERO.(txs := |ListedAt(t, h, a)|) else ZERO
    case WeekActivity(week, a) =>
      if h in t.blocks && WeekOf(DayOf(t.blocks[h].time)) == week then ZERO.(txs := |ListedAt(t, h, a)|) else ZERO
    case HourStats(hour) =>
      if h in t.blocks && HourOf(t.blocks[h].time) == hour
      then Tally(0, 0, |RowsWhere(t, h, Every)|, 1, t.blocks[h].size, |RowsWhere(t, h, NormalTx)|,
                 |RowsWhere(t, h, SpecialTx)|, |RowsWhere(t, h, CoinJoinTx)|, |RowsWhere(t, h, MultisigTx)|)
      else ZERO
    case TypeCount(ty, cj, ms) => ZERO.(txs := |RowsWhere(t, h, OfType(ty, cj, ms))|)
  }

  // --------------------------------------------------------- what the block added

  function PaidSum(txs: seq<Mined>, a: Address): int {
    if txs == [] then 0 else PaidSum(txs[..|txs| - 1], a) + PaidTo(txs[|txs| - 1].tx.vout, a)
  }

  function SpentSum(tr: TxTable, view: OutTable, rpc: Rpc, txs: seq<Mined>, a: Address): int {
    if txs == [] then 0 else
      SpentSum(tr, view, rpc, txs[..|txs| - 1], a) + SpentFrom(Resolve(tr, view, rpc, txs[|txs| - 1].tx), a)
  }

  function TouchCount(tr: TxTable, view: OutTable, rpc: Rpc, txs: seq<Mined>, a: Address): int {
    if txs == [] then 0 else
      var m := txs[|txs| - 1];
      TouchCount(tr, view, rpc, txs[..|txs| - 1], a) + if a in Touched(m.tx, Resolve(tr, view, rpc, m.tx)) then 1 else 0
  }

  /** What an address's total row says about its other rows, for blocks of one day. */
  function Project(k: RollupKey, day: int, total: Tally): Tally {
    match k
    case AddressTotal(_) => total
    case AddressDay(_, d) => if d == day then FlowColumns(total) else ZERO
    case DayActivity(d, _) => if d == day then TxColumn(total) else ZERO
    case WeekActivity(week, _) => if week == WeekOf(day) then TxColumn(total) else ZERO
    case _ => ZERO
  }

  function FlowColumns(total: Tally): Tally { total.(txs := 0) }

  function TxColumn(total: Tally): Tally { ZERO.(txs := total.txs) }

  lemma {:induction false} ColumnsPlus(x: Tally, y: Tally)
    ensures FlowColumns(Plus(x, y)) == Plus(FlowColumns(x), FlowColumns(y)) && FlowColumns(ZERO) == ZERO
    ensures TxColumn(Plus(x, y)) == Plus(TxColumn(x), TxColumn(y)) && TxColumn(ZERO) == ZERO
    ensures Plus(ZERO, ZERO) == ZERO
  {
  }

  lemma {:induction false} ProjectPlus(k: RollupKey, day: int, x: Tally, y: Tally)
    ensures Project(k, day, Plus(x, y)) == Plus(Project(k, day, x), Project(k, day, y))
    ensures Project(k, day, ZERO) == ZERO
  {
    ColumnsPlus(x, y);
  }

  lemma {:induction false} ShareProjects(k: RollupKey, day: int, received: int, sent: int, touched: bool)
    requires HasAddress(k)
    ensures Share(k, day, received, sent, touched) ==
            Project(k, day, Share(AddressTotal(k.address), day, received, sent, touched))
  {
  }

  lemma {:induction false} PartProjects(m: Mined, res: seq<Resolved>, k: RollupKey, received: int, sent: int,
                                        touched: bool)
    requires HasAddress(k) && received == PaidTo(m.tx.vout, k.address) && sent == SpentFrom(res, k.address)
    requires touched == (k.address in Touched(m.tx, res))
    ensures WalkPart(m, res, k) == Project(k, DayOf(m.time), WalkPart(m, res, AddressTotal(k.address)))
    ensures WalkPart(m, res, AddressTotal(k.address)) ==
            ZERO.(received := received, sent := sent, txs := if touched then 1 else 0)
  {
    ShareProjects(k, DayOf(m.time), received, sent, touched);
  }

  lemma {:induction false} WalkSumProjects(tr: TxTable, view: OutTable, rpc: Rpc, txs: seq<Mined>, k: RollupKey,
                                           day: int)
    requires HasAddress(k) && forall i :: 0 <= i < |txs| ==> DayOf(txs[i].time) == day
    ensures WalkSum(tr, view, rpc, txs, k) == Project(k, day, WalkSum(tr, view, rpc, txs, AddressTotal(k.address)))
  {
    if txs == [] {
      ProjectPlus(k, day, ZERO, ZERO);
    } else {
      var before, m := txs[..|txs| - 1], txs[|txs| - 1];
      var total, res := AddressTotal(k.address), Resolve(tr, view, rpc, m.tx);
      assert txs == before + [m] && forall i :: 0 <= i < |before| ==> before[i] == txs[i];
      WalkSumProjects(tr, view, rpc, before, k, day);
      WalkSumStep(tr, view, rpc, before, m, k);
      WalkSumStep(tr, view, rpc, before, m, total);
      PartProjects(m, res, k, PaidTo(m.tx.vout, k.address), SpentFrom(res, k.address), k.address in Touched(m.tx, res));
      ProjectPlus(k, day, WalkSum(tr, view, rpc, before, total), WalkPart(m, res, total));
    }
  }

  lemma {:induction false} SumsGrow(tr: TxTable, view: OutTable, rpc: Rpc, before: seq<Mined>, m: Mined, a: Address,
                                    res: seq<Resolved>)
    requires res == Resolve(tr, view, rpc, m.tx)
    ensures PaidSum(before + [m], a) == PaidSum(before, a) + PaidTo(m.tx.vout, a)
    ensures SpentSum(tr, view, rpc, before + [m], a) == SpentSum(tr, view, rpc, before, a) + SpentFrom(res, a)
    ensures TouchCount(tr, view, rpc, before + [m], a) ==
            TouchCount(tr, view, rpc, before, a) + if a in Touched(m.tx, res) then 1 else 0
  {
    assert (before + [m])[..|before + [m]| - 1] == before;
  }

  predicate OnlyAddressColumns(x: Tally) {
    x.blocks == x.size == x.normal == x.special == x.coinjoin == x.multisig == 0
  }

  function Sums(tr: TxTable, view: OutTable, rpc: Rpc, txs: seq<Mined>, a: Address, c: Column): int {
    match c
    case Received => PaidSum(txs, a)
    case Sent => SpentSum(tr, view, rpc, txs, a)
    case TxCount => TouchCount(tr, view, rpc, txs, a)
  }

  lemma {:induction false} SumsStep(tr: TxTable, view: OutTable, rpc: Rpc, before: seq<Mined>, m: Mined, a: Address,
                                    c: Column, res: seq<Resolved>, part: Tally, received: int, sent: int, touched: bool)
    requires res == Resolve(tr, view, rpc, m.tx) && received == PaidTo(m.tx.vout, a) && sent == SpentFrom(res, a)
    requires touched == (a in Touched(m.tx, res))
    requires part == ZERO.(received := received, sent := sent, txs := if touched then 1 else 0)
    ensures Sums(tr, view, rpc, before + [m], a, c) == Sums(tr, view, rpc, before, a, c) + Col(part, c)
  {
    SumsGrow(tr, view, rpc, before, m, a, res);
  }

  lemma {:induction false} OnlyPlus(x: Tally, y: Tally)
    requires OnlyAddressColumns(x) && OnlyAddressColumns(y)
    ensures OnlyAddressColumns(Plus(x, y))
  {
  }

  /** The total row of the walk, column by column. */
  lemma {:induction false} TotalColumn(tr: TxTable, view: OutTable, rpc: Rpc, txs: seq<Mined>, a: Address, c: Column)
    ensures Col(WalkSum(tr, view, rpc, txs, AddressTotal(a)), c) == Sums(tr, view, rpc, txs, a, c)
    ensures OnlyAddressColumns(WalkSum(tr, view, rpc, txs, AddressTotal(a)))
  {
    if txs != [] {
      var before, m := txs[..|txs| - 1], txs[|txs| - 1];
      var res := Resolve(tr, view, rpc, m.tx);
      var received, sent, touched := PaidTo(m.tx.vout, a), SpentFrom(res, a), a in Touched(m.tx, res);
      var sum, part := WalkSum(tr, view, rpc, before, AddressTotal(a)), WalkPart(m, res, AddressTotal(a));
      assert txs == before + [m];
      TotalColumn(tr, view, rpc, before, a, c);
      WalkSumStep(tr, view, rpc, before, m, AddressTotal(a));
      PartProjects(m, res, AddressTotal(a), received, sent, touched);
      SumsStep(tr, view, rpc, before, m, a, c, res, part, received, sent, touched);
      ColPlus(sum, part, c);
      OnlyPlus(sum, part);
    }
  }

  lemma {:induction false} TotalRow(tr: TxTable, view: OutTable, rpc: Rpc, txs: seq<Mined>, a: Address, row: Tally)
    requires row == WalkSum(tr, view, rpc, txs, AddressTotal(a))
    ensures row == ZERO.(received := row.received, sent := row.sent, txs := row.txs)
    ensures row.received == Sums(tr, view, rpc, txs, a, Received) && row.sent == Sums(tr, view, rpc, txs, a, Sent)
    ensures row.txs == Sums(tr, view, rpc, txs, a, TxCount)
  {
    TotalColumn(tr, view, rpc, txs, a, Received);
    TotalColumn(tr, view, rpc, txs, a, Sent);
    TotalColumn(tr, view, rpc, txs, a, TxCount);
  }

  function CountFits(txs: seq<Tx>, f: Filter): int {
    if txs == [] then 0 else CountFits(txs[..|txs| - 1], f) + if TxFits(f, txs[|txs| - 1]) then 1 else 0
  }

  /** What the block's transactions add to its hour. */
  function HourSum(txs: seq<Tx>): Tally {
    if txs == [] then ZERO else Plus(HourSum(txs[..|txs| - 1]), HourTally(txs[|txs| - 1]))
  }

  function FilterCol(x: Tally, f: Filter): int {
    match f
    case Every => x.txs
    case NormalTx => x.normal
    case SpecialTx => x.special
    case CoinJoinTx => x.coinjoin
    case MultisigTx => x.multisig
    case OfType(_, _, _) => 0
  }

  lemma {:induction false} TallyFits(tx: Tx, f: Filter, cj: bool)
    requires !f.OfType? && cj == CoinJoin(tx)
    ensures FilterCol(HourTally(tx), f) == if TxFits(f, tx) then 1 else 0
    ensures HourTally(tx).received == HourTally(tx).sent == HourTally(tx).blocks == HourTally(tx).size == 0
  {
  }

  lemma {:induction false} FilterColPlus(x: Tally, y: Tally, f: Filter)
    ensures FilterCol(Plus(x, y), f) == FilterCol(x, f) + FilterCol(y, f)
  {
  }

  lemma {:induction false} HourColumn(txs: seq<Tx>, f: Filter)
    requires !f.OfType?
    ensures FilterCol(HourSum(txs), f) == CountFits(txs, f)
    ensures HourSum(txs).received == HourSum(txs).sent == HourSum(txs).blocks == HourSum(txs).size == 0
  {
    if txs != [] {
      var before, tx := txs[..|txs| - 1], txs[|txs| - 1];
      HourColumn(before, f);
      FilterColPlus(HourSum(before), HourTally(tx), f);
      TallyFits(tx, f, CoinJoin(tx));
    }
  }

  lemma {:induction false} HourTotalIs(txs: seq<Tx>, time: int, hour: int)
    ensures TxsTotal(txs, time, HourStats(hour)) == if hour == HourOf(time) then HourSum(txs) else ZERO
  {
    if txs != [] {
      HourTotalIs(txs[..|txs| - 1], time, hour);
    }
  }

  lemma {:induction false} TypePart(tx: Tx, time: int, k: RollupKey, cj: bool)
    requires k.TypeCount? && cj == CoinJoin(tx)
    ensures StatPart(tx, time, k) == if TxFits(OfType(k.txType, k.coinjoin, k.multisig), tx) then ONE_TX else ZERO
  {
  }

  lemma {:induction false} OneMore(n: int, more: bool)
    ensures Plus(ZERO.(txs := n), if more then ONE_TX else ZERO) == ZERO.(txs := n + if more then 1 else 0)
  {
  }

  lemma {:induction false} TypeTotalIs(txs: seq<Tx>, time: int, k: RollupKey, f: Filter)
    requires k.TypeCount? && f == OfType(k.txType, k.coinjoin, k.multisig)
    ensures TxsTotal(txs, time, k) == ZERO.(txs := CountFits(txs, f))
  {
    if txs != [] {
      var before, tx := txs[..|txs| - 1], txs[|txs| - 1];
      TypeTotalIs(before, time, k, f);
      TypePart(tx, time, k, CoinJoin(tx));
      OneMore(CountFits(before, f), TxFits(f, tx));
    }
  }

  // ------------------------------------------------------ rows, one tx at a time

  function UnionUpTo<T>(rows: int -> set<T>, n: nat): set<T> {
    if n == 0 then {} else UnionUpTo(rows, n - 1) + rows(n - 1)
  }

  function Total(g: int -> int, n: nat): int {
    if n == 0 then 0 else Total(g, n - 1) + g(n - 1)
  }

  lemma {:induction false} InUnion<T>(rows: int -> set<T>, n: nat, x: T)
    ensures x in UnionUpTo(rows, n) <==> exists i :: 0 <= i < n && x in rows(i)
  {
    if n > 0 {
      InUnion(rows, n - 1, x);
      if x in UnionUpTo(rows, n - 1) {
        var i :| 0 <= i < n - 1 && x in rows(i);
      }
    }
  }

  /** Rows that belong to one transaction each: their sum is the sum over transactions. */
  lemma {:induction false} SumFamily<T>(rows: int -> set<T>, f: T -> int, g: int -> int, n: nat)
    requires forall i, j :: 0 <= i < j < n ==> rows(i) !! rows(j)
    requires forall i :: 0 <= i < n ==> SumSet(rows(i), f) == g(i)
    ensures SumSet(UnionUpTo(rows, n), f) == Total(g, n)
  {
    if n > 0 {
      SumFamily(rows, f, g, n - 1);
      var before, last := UnionUpTo(rows, n - 1), rows(n - 1);
      forall x | x in before ensures x !in last {
        InUnion(rows, n - 1, x);
        var i :| 0 <= i < n - 1 && x in rows(i);
        assert rows(i) !! rows(n - 1);
      }
      SumUnion(before, last, f);
    }
  }

  lemma {:induction false} CountIsSum<T>(s: set<T>)
    ensures SumSet(s, (x: T) => 1) == |s|
    decreases |s|
  {
    if s != {} {
      var x :| x in s;
      CountIsSum(s - {x});
      SumTake(s, (x: T) => 1, x);
    }
  }

  lemma {:induction false} TotalSame(g: int -> int, h: int -> int, n: nat)
    requires forall i :: 0 <= i < n ==> g(i) == h(i)
    ensures Total(g, n) == Total(h, n)
  {
    if n > 0 {
      TotalSame(g, h, n - 1);
    }
  }

  lemma {:induction false} PaidTotal(txs: seq<Mined>, a: Address, n: nat)
    requires n <= |txs|
    ensures Total(i => if 0 <= i < |txs| then PaidTo(txs[i].tx.vout, a) else 0, n) == PaidSum(txs[..n], a)
  {
    if n > 0 {
      PaidTotal(txs, a, n - 1);
      assert txs[..n][..n - 1] == txs[..n - 1];
    }
  }

  lemma {:induction false} SpentTotal(tr: TxTable, view: OutTable, rpc: Rpc, txs: seq<Mined>, a: Address, n: nat)
    requires n <= |txs|
    ensures Total(i => if 0 <= i < |txs| then SpentFrom(Resolve(tr, view, rpc, txs[i].tx), a) else 0, n) ==
            SpentSum(tr, view, rpc, txs[..n], a)
  {
    if n > 0 {
      SpentTotal(tr, view, rpc, txs, a, n - 1);
      assert txs[..n][..n - 1] == txs[..n - 1];
    }
  }

  lemma {:induction false} TouchTotal(tr: TxTable, view: OutTable, rpc: Rpc, txs: seq<Mined>, a: Address, n: nat)
    requires n <= |txs|
    ensures Total(i => if 0 <= i < |txs| && Touches(tr, view, rpc, txs[i], a) then 1 else 0, n) ==
            TouchCount(tr, view, rpc, txs[..n], a)
  {
    if n > 0 {
      TouchTotal(tr, view, rpc, txs, a, n - 1);
      assert txs[..n][..n - 1] == txs[..n - 1];
    }
  }

  lemma {:induction false} FitsTotal(txs: seq<Tx>, f: Filter, n: nat)
    requires n <= |txs|
    ensures Total(i => if 0 <= i < |txs| && TxFits(f, txs[i]) then 1 else 0, n) == CountFits(txs[..n], f)
  {
    if n > 0 {
      FitsTotal(txs, f, n - 1);
      assert txs[..n][..n - 1] == txs[..n - 1];
    }
  }

  // -------------------------------------------------------- one transaction's rows

  /** Outputs `from` .. `vout` of transaction `id` that pay the address. */
  function Paying(id: int, vout: seq<TxOut>, a: Address): set<Outpoint> {
    set v | 0 <= v < |vout| && vout[v].address == Some(a) :: Outpoint(id, v)
  }

  lemma {:induction false} PayingSum(id: int, vout: seq<TxOut>, a: Address, f: Outpoint -> int)
    requires forall v :: 0 <= v < |vout| ==> f(Outpoint(id, v)) == vout[v].value
    ensures SumSet(Paying(id, vout, a), f) == PaidTo(vout, a)
  {
    if vout != [] {
      var n := |vout| - 1;
      var before := vout[..n];
      assert forall v :: 0 <= v < n ==> before[v] == vout[v];
      PayingSum(id, before, a, f);
      assert Outpoint(id, n) !in Paying(id, before, a);
      if vout[n].address == Some(a) {
        assert Paying(id, vout, a) == Paying(id, before, a) + {Outpoint(id, n)};
        SumPut(Paying(id, before, a), f, Outpoint(id, n));
      } else {
        assert Paying(id, vout, a) == Paying(id, before, a);
      }
    }
  }

  function Taking(id: int, res: seq<Resolved>, a: Address): set<Slot> {
    set k | 0 <= k < |res| && res[k].address == Some(a) :: Slot(id, k)
  }

  lemma {:induction false} TakingSum(id: int, res: seq<Resolved>, a: Address, f: Slot -> int)
    requires forall k :: 0 <= k < |res| ==> f(Slot(id, k)) == Amount(res[k])
    ensures SumSet(Taking(id, res, a), f) == SpentFrom(res, a)
  {
    if res != [] {
      var n := |res| - 1;
      var before := res[..n];
      assert forall k :: 0 <= k < n ==> before[k] == res[k];
      TakingSum(id, before, a, f);
      assert Slot(id, n) !in Taking(id, before, a);
      if res[n].address == Some(a) {
        assert Taking(id, res, a) == Taking(id, before, a) + {Slot(id, n)};
        SumPut(Taking(id, before, a), f, Slot(id, n));
      } else {
        assert Taking(id, res, a) == Taking(id, before, a);
      }
    }
  }

  // ---------------------------------------------------------- the height's rows

  /** Height `h` is exactly `txs`, with the flags of their rows and one id each. */
  ghost predicate TxsOfHeight(t: Tables, h: int, txs: seq<Mined>) {
    && AllKnown(t.transactions, txs) && Distinct(txs)
    && (forall i, j :: 0 <= i < j < |txs| ==> IdAt(t.transactions, txs, i) != IdAt(t.transactions, txs, j))
    && (forall x :: x in TxsAt(t, h) <==> Among(txs, x))
    && (forall i, f :: 0 <= i < |txs| ==> FlagsKept(t.transactions, txs[i].tx, f))
  }

  predicate FlagsKept(tr: TxTable, tx: Tx, f: Filter) {
    tx.txid in tr && (RowFits(f, tr[tx.txid]) <==> TxFits(f, tx))
  }

  ghost predicate OutsOfHeight(t: Tables, txs: seq<Mined>)
    requires AllKnown(t.transactions, txs)
  {
    forall i, v :: 0 <= i < |txs| ==>
      var o := Outpoint(IdAt(t.transactions, txs, i), v);
      (o in t.outputs <==> 0 <= v < |txs[i].tx.vout|) && (o in t.outputs ==> SameOut(t.outputs[o], txs[i].tx.vout[v]))
  }

  /** The stored input rows carry the resolution used at write time. */
  ghost predicate InsOfHeight(t: Tables, txs: seq<Mined>, res: seq<seq<Resolved>>)
    requires AllKnown(t.transactions, txs) && |res| == |txs|
  {
    forall i, k :: 0 <= i < |txs| ==>
      var s := Slot(IdAt(t.transactions, txs, i), k);
      (s in t.inputs <==> 0 <= k < |res[i]|)
      && (s in t.inputs ==> t.inputs[s].address == res[i][k].address && t.inputs[s].amount == res[i][k].amount)
  }

  ghost predicate ListedOfHeight(t: Tables, h: int, txs: seq<Mined>, res: seq<seq<Resolved>>)
    requires AllKnown(t.transactions, txs) && |res| == |txs|
  {
    forall k :: k in t.addressTxs && t.addressTxs[k] == h <==> ListedFor(t, txs, res, k)
  }

  ghost predicate ListedFor(t: Tables, txs: seq<Mined>, res: seq<seq<Resolved>>, k: AddrTx)
    requires AllKnown(t.transactions, txs) && |res| == |txs|
  {
    exists i :: 0 <= i < |txs| && k.txId == IdAt(t.transactions, txs, i) && k.address in Touched(txs[i].tx, res[i])
  }

  lemma {:induction false} IdOfHeight(t: Tables, h: int, txs: seq<Mined>, id: int)
    requires TxsOfHeight(t, h, txs)
    ensures id in IdsAt(t, h) <==> exists i :: 0 <= i < |txs| && id == IdAt(t.transactions, txs, i)
  {
    if id in IdsAt(t, h) {
      var x :| x in TxsAt(t, h) && t.transactions[x].id == id;
      var i :| 0 <= i < |txs| && txs[i].tx.txid == x;
      assert id == IdAt(t.transactions, txs, i);
    }
    if i :| 0 <= i < |txs| && id == IdAt(t.transactions, txs, i) {
      assert txs[i].tx.txid in TxsAt(t, h);
    }
  }

  lemma {:induction false} ReceivedIs(t: Tables, h: int, txs: seq<Mined>, a: Address)
    requires TxsOfHeight(t, h, txs) && OutsOfHeight(t, txs)
    ensures SumSet(OutRowsAt(t, h, a), ValueOf(t)) == PaidSum(txs, a)
  {
    var tr, n := t.transactions, |txs|;
    var rows := i => if 0 <= i < n then Paying(IdAt(tr, txs, i), txs[i].tx.vout, a) else {};
    var g := i => if 0 <= i < |txs| then PaidTo(txs[i].tx.vout, a) else 0;
    forall i | 0 <= i < n ensures SumSet(rows(i), ValueOf(t)) == g(i) {
      forall v | 0 <= v < |txs[i].tx.vout|
        ensures ValueOf(t)(Outpoint(IdAt(tr, txs, i), v)) == txs[i].tx.vout[v].value {
        assert Outpoint(IdAt(tr, txs, i), v) in t.outputs;
      }
      PayingSum(IdAt(tr, txs, i), txs[i].tx.vout, a, ValueOf(t));
    }
    forall o ensures o in OutRowsAt(t, h, a) <==> o in UnionUpTo(rows, n) {
      InUnion(rows, n, o);
      IdOfHeight(t, h, txs, o.txId);
      if o in OutRowsAt(t, h, a) {
        var i :| 0 <= i < n && o.txId == IdAt(tr, txs, i);
        assert o == Outpoint(IdAt(tr, txs, i), o.vout) && o in rows(i);
      }
    }
    assert OutRowsAt(t, h, a) == UnionUpTo(rows, n);
    SumFamily(rows, ValueOf(t), g, n);
    PaidTotal(txs, a, n);
    assert txs[..n] == txs;
  }

  lemma {:induction false} SentIs(t: Tables, h: int, txs: seq<Mined>, res: seq<seq<Resolved>>, a: Address,
                                  g: int -> int)
    requires TxsOfHeight(t, h, txs) && |res| == |txs| && InsOfHeight(t, txs, res)
    requires forall i :: 0 <= i < |txs| ==> g(i) == SpentFrom(res[i], a)
    ensures SumSet(InRowsAt(t, h, a), AmountOf(t)) == Total(g, |txs|)
  {
    var tr, n := t.transactions, |txs|;
    var rows := i => if 0 <= i < n then Taking(IdAt(tr, txs, i), res[i], a) else {};
    forall i | 0 <= i < n ensures SumSet(rows(i), AmountOf(t)) == g(i) {
      forall k | 0 <= k < |res[i]| ensures AmountOf(t)(Slot(IdAt(tr, txs, i), k)) == Amount(res[i][k]) {
        assert Slot(IdAt(tr, txs, i), k) in t.inputs;
      }
      TakingSum(IdAt(tr, txs, i), res[i], a, AmountOf(t));
    }
    forall s ensures s in InRowsAt(t, h, a) <==> s in UnionUpTo(rows, n) {
      InUnion(rows, n, s);
      IdOfHeight(t, h, txs, s.txId);
      if s in InRowsAt(t, h, a) {
        var i :| 0 <= i < n && s.txId == IdAt(tr, txs, i);
        assert s == Slot(IdAt(tr, txs, i), s.vin) && s in rows(i);
      }
    }
    assert InRowsAt(t, h, a) == UnionUpTo(rows, n);
    SumFamily(rows, AmountOf(t), g, n);
  }

  /** `x` is the key of a transaction that `g` counts. */
  ghost predicate Counted<T>(key: int -> T, g: int -> int, n: nat, x: T) {
    exists i :: 0 <= i < n && x == key(i) && g(i) == 1
  }

  /** A set with one element for each transaction that `g` counts. */
  lemma {:induction false} CountOnes<T>(s: set<T>, key: int -> T, g: int -> int, n: nat)
    requires forall i, j :: 0 <= i < j < n ==> key(i) != key(j)
    requires forall i :: g(i) == 0 || g(i) == 1
    requires forall x :: x in s <==> Counted(key, g, n, x)
    ensures |s| == Total(g, n)
  {
    var rows := i => if 0 <= i < n && g(i) == 1 then {key(i)} else {};
    forall i | 0 <= i < n ensures SumSet(rows(i), (x: T) => 1) == g(i) {
      CountIsSum(rows(i));
    }
    var all := UnionUpTo(rows, n);
    forall x | x in s ensures x in all {
      InUnion(rows, n, x);
      assert Counted(key, g, n, x);
      var i :| 0 <= i < n && x == key(i) && g(i) == 1;
      assert x in rows(i);
    }
    forall x | x in all ensures x in s {
      InUnion(rows, n, x);
      var i :| 0 <= i < n && x in rows(i);
      assert g(i) == 1 && x == key(i);
      assert Counted(key, g, n, x);
    }
    assert s == all;
    SumFamily(rows, (x: T) => 1, g, n);
    CountIsSum(s);
  }

  /** Which transactions touch the address, as 0 or 1. */
  function TouchBit(txs: seq<Mined>, res: seq<seq<Resolved>>, a: Address): int -> int
    requires |res| == |txs|
  {
    i => if 0 <= i < |txs| && a in Touched(txs[i].tx, res[i]) then 1 else 0
  }

  function KeyOf(tr: TxTable, txs: seq<Mined>): int -> int
    requires AllKnown(tr, txs)
  {
    i => if 0 <= i < |txs| then IdAt(tr, txs, i) else 0
  }

  lemma {:induction false} RowsTouch(t: Tables, txs: seq<Mined>, res: seq<seq<Resolved>>, h: int, a: Address, i: int)
    requires TxsOfHeight(t, h, txs) && OutsOfHeight(t, txs) && |res| == |txs| && InsOfHeight(t, txs, res)
             && 0 <= i < |txs|
    ensures a in Touched(txs[i].tx, res[i]) <==>
            || (exists o :: o in OutRowsAt(t, h, a) && o.txId == IdAt(t.transactions, txs, i))
            || (exists s :: s in InRowsAt(t, h, a) && s.txId == IdAt(t.transactions, txs, i))
  {
    var id := IdAt(t.transactions, txs, i);
    IdOfHeight(t, h, txs, id);
    if v :| 0 <= v < |txs[i].tx.vout| && txs[i].tx.vout[v].address == Some(a) {
      assert Outpoint(id, v) in t.outputs && Outpoint(id, v) in OutRowsAt(t, h, a);
    }
    if k :| 0 <= k < |res[i]| && res[i][k].address == Some(a) {
      assert Slot(id, k) in t.inputs && Slot(id, k) in InRowsAt(t, h, a);
    }
    if o :| o in OutRowsAt(t, h, a) && o.txId == id {
      assert o == Outpoint(id, o.vout);
      assert txs[i].tx.vout[o.vout].address == Some(a);
    }
    if s :| s in InRowsAt(t, h, a) && s.txId == id {
      assert s == Slot(id, s.vin);
      assert res[i][s.vin].address == Some(a);
    }
  }

  lemma {:induction false} TouchingIs(t: Tables, h: int, txs: seq<Mined>, res: seq<seq<Resolved>>, a: Address)
    requires TxsOfHeight(t, h, txs) && OutsOfHeight(t, txs) && |res| == |txs| && InsOfHeight(t, txs, res)
    ensures |TouchingIds(t, h, a)| == Total(TouchBit(txs, res, a), |txs|)
  {
    var key, g, n := KeyOf(t.transactions, txs), TouchBit(txs, res, a), |txs|;
    forall id ensures id in TouchingIds(t, h, a) <==> Counted(key, g, n, id) {
      TouchingId(t, h, txs, res, a, id);
    }
    CountOnes(TouchingIds(t, h, a), key, g, n);
  }

  lemma {:induction false} TouchingId(t: Tables, h: int, txs: seq<Mined>, res: seq<seq<Resolved>>, a: Address, id: int)
    requires TxsOfHeight(t, h, txs) && OutsOfHeight(t, txs) && |res| == |txs| && InsOfHeight(t, txs, res)
    ensures id in TouchingIds(t, h, a) <==> Counted(KeyOf(t.transactions, txs), TouchBit(txs, res, a), |txs|, id)
  {
    IdOfHeight(t, h, txs, id);
    if id in TouchingIds(t, h, a) {
      var i :| 0 <= i < |txs| && id == IdAt(t.transactions, txs, i);
      RowsTouch(t, txs, res, h, a, i);
      assert KeyOf(t.transactions, txs)(i) == id && TouchBit(txs, res, a)(i) == 1;
    }
    if Counted(KeyOf(t.transactions, txs), TouchBit(txs, res, a), |txs|, id) {
      var i :| 0 <= i < |txs| && id == KeyOf(t.transactions, txs)(i) && TouchBit(txs, res, a)(i) == 1;
      RowsTouch(t, txs, res, h, a, i);
    }
  }

  lemma {:induction false} ListedIs(t: Tables, h: int, txs: seq<Mined>, res: seq<seq<Resolved>>, a: Address)
    requires TxsOfHeight(t, h, txs) && |res| == |txs| && ListedOfHeight(t, h, txs, res)
    ensures |ListedAt(t, h, a)| == Total(TouchBit(txs, res, a), |txs|)
  {
    var g, n := TouchBit(txs, res, a), |txs|;
    var key := i => if 0 <= i < n then AddrTx(a, IdAt(t.transactions, txs, i)) else AddrTx(a, 0);
    forall k ensures k in ListedAt(t, h, a) <==> Counted(key, g, n, k) {
      if k in ListedAt(t, h, a) {
        assert ListedFor(t, txs, res, k);
        var i :| 0 <= i < n && k.txId == IdAt(t.transactions, txs, i) && k.address in Touched(txs[i].tx, res[i]);
        assert k == key(i) && g(i) == 1;
      }
      if Counted(key, g, n, k) {
        var i :| 0 <= i < n && k == key(i) && g(i) == 1;
        assert k.txId == IdAt(t.transactions, txs, i) && ListedFor(t, txs, res, k);
      }
    }
    CountOnes(ListedAt(t, h, a), key, g, n);
  }

  function FitBit(txs: seq<Tx>, f: Filter): int -> int {
    i => if 0 <= i < |txs| && TxFits(f, txs[i]) then 1 else 0
  }

  lemma {:induction false} FittingIs(t: Tables, h: int, txs: seq<Mined>, plain: seq<Tx>, f: Filter)
    requires TxsOfHeight(t, h, txs) && |plain| == |txs| && forall i :: 0 <= i < |txs| ==> txs[i].tx == plain[i]
    ensures |RowsWhere(t, h, f)| == CountFits(plain, f)
  {
    var g, n := FitBit(plain, f), |txs|;
    var key := i => if 0 <= i < n then txs[i].tx.txid else "";
    forall x ensures x in RowsWhere(t, h, f) <==> Counted(key, g, n, x) {
      if x in RowsWhere(t, h, f) {
        var i :| 0 <= i < n && txs[i].tx.txid == x;
        assert FlagsKept(t.transactions, txs[i].tx, f);
        assert x == key(i) && g(i) == 1;
      }
      if Counted(key, g, n, x) {
        var i :| 0 <= i < n && x == key(i) && g(i) == 1;
        assert FlagsKept(t.transactions, txs[i].tx, f) && Among(txs, x);
      }
    }
    CountOnes(RowsWhere(t, h, f), key, g, n);
    FitsTotal(plain, f, n);
    TotalSame(g, i => if 0 <= i < |plain| && TxFits(f, plain[i]) then 1 else 0, n);
    assert plain[..n] == plain;
  }

  // ------------------------------------------------------- shares equal additions

  /** The height holds block `b`: its header, transactions, outputs and listing. */
  ghost predicate HoldsBlock(t: Tables, b: Block, txs: seq<Mined>, res: seq<seq<Resolved>>) {
    && txs == MinedTxs(b) && |res| == |txs|
    && b.height in t.blocks && t.blocks[b.height].time == b.time && t.blocks[b.height].size == b.size
    && TxsOfHeight(t, b.height, txs) && OutsOfHeight(t, txs) && ListedOfHeight(t, b.height, txs, res)
  }

  /** So it does, and its inputs carry the resolution. */
  ghost predicate HeightIs(t: Tables, b: Block, txs: seq<Mined>, res: seq<seq<Resolved>>) {
    HoldsBlock(t, b, txs, res) && InsOfHeight(t, txs, res)
  }

  ghost predicate ResolvedBy(tr: TxTable, view: OutTable, rpc: Rpc, txs: seq<Mined>, res: seq<seq<Resolved>>) {
    |res| == |txs| && forall i :: 0 <= i < |txs| ==> res[i] == Resolve(tr, view, rpc, txs[i].tx)
  }

  lemma {:induction false} SumsAre(t: Tables, b: Block, txs: seq<Mined>, res: seq<seq<Resolved>>, view: OutTable,
                                   rpc: Rpc, a: Address)
    requires HeightIs(t, b, txs, res) && ResolvedBy(t.transactions, view, rpc, txs, res)
    ensures SumSet(OutRowsAt(t, b.height, a), ValueOf(t)) == Sums(t.transactions, view, rpc, txs, a, Received)
    ensures SumSet(InRowsAt(t, b.height, a), AmountOf(t)) == Sums(t.transactions, view, rpc, txs, a, Sent)
  {
    var tr, n := t.transactions, |txs|;
    var g := i => if 0 <= i < |txs| then SpentFrom(Resolve(tr, view, rpc, txs[i].tx), a) else 0;
    ReceivedIs(t, b.height, txs, a);
    SentIs(t, b.height, txs, res, a, g);
    SpentTotal(tr, view, rpc, txs, a, n);
    TotalSame(g, i => if 0 <= i < |txs| then SpentFrom(Resolve(tr, view, rpc, txs[i].tx), a) else 0, n);
    assert txs[..n] == txs;
  }

  lemma {:induction false} CountsAre(t: Tables, b: Block, txs: seq<Mined>, res: seq<seq<Resolved>>, view: OutTable,
                                     rpc: Rpc, a: Address)
    requires HeightIs(t, b, txs, res) && ResolvedBy(t.transactions, view, rpc, txs, res)
    ensures |TouchingIds(t, b.height, a)| == Sums(t.transactions, view, rpc, txs, a, TxCount)
    ensures |ListedAt(t, b.height, a)| == Sums(t.transactions, view, rpc, txs, a, TxCount)
  {
    var tr, n := t.transactions, |txs|;
    TouchingIs(t, b.height, txs, res, a);
    ListedIs(t, b.height, txs, res, a);
    TouchTotal(tr, view, rpc, txs, a, n);
    TotalSame(TouchBit(txs, res, a), i => if 0 <= i < |txs| && Touches(tr, view, rpc, txs[i], a) then 1 else 0, n);
    assert txs[..n] == txs;
  }

  lemma {:induction false} AddressShare(t: Tables, b: Block, txs: seq<Mined>, res: seq<seq<Resolved>>, view: OutTable,
                                        rpc: Rpc, k: RollupKey, total: Tally)
    requires HeightIs(t, b, txs, res) && ResolvedBy(t.transactions, view, rpc, txs, res) && HasAddress(k)
    requires total == WalkSum(t.transactions, view, rpc, txs, AddressTotal(k.address))
    ensures ShareAt(t, b.height, k) == Project(k, DayOf(b.time), total)
  {
    SumsAre(t, b, txs, res, view, rpc, k.address);
    CountsAre(t, b, txs, res, view, rpc, k.address);
    TotalRow(t.transactions, view, rpc, txs, k.address, total);
  }

  lemma {:induction false} HourShare(t: Tables, b: Block, txs: seq<Mined>, res: seq<seq<Resolved>>, hour: int,
                                     sum: Tally)
    requires HoldsBlock(t, b, txs, res) && sum == HourSum(b.txs)
    ensures ShareAt(t, b.height, HourStats(hour)) ==
            if hour == HourOf(b.time) then sum.(blocks := 1, size := b.size) else ZERO
  {
    FittingIs(t, b.height, txs, b.txs, Every);
    FittingIs(t, b.height, txs, b.txs, NormalTx);
    FittingIs(t, b.height, txs, b.txs, SpecialTx);
    FittingIs(t, b.height, txs, b.txs, CoinJoinTx);
    FittingIs(t, b.height, txs, b.txs, MultisigTx);
    HourColumn(b.txs, Every);
    HourColumn(b.txs, NormalTx);
    HourColumn(b.txs, SpecialTx);
    HourColumn(b.txs, CoinJoinTx);
    HourColumn(b.txs, MultisigTx);
  }

  lemma {:induction false} StatsOfOne(b: Block, k: RollupKey)
    ensures StatsTotal([b], k) == Plus(BlockPart(b, k), TxsTotal(b.txs, b.time, k))
  {
    assert [b][..0] == [];
    assert StatsTotal([], k) == ZERO;
    PlusLaws(Plus(BlockPart(b, k), TxsTotal(b.txs, b.time, k)), ZERO, ZERO);
  }

  lemma {:induction false} HourStatsOfOne(b: Block, hour: int, sum: Tally)
    requires sum == HourSum(b.txs)
    ensures StatsTotal([b], HourStats(hour)) ==
            if hour == HourOf(b.time) then sum.(blocks := 1, size := b.size) else ZERO
  {
    StatsOfOne(b, HourStats(hour));
    HourTotalIs(b.txs, b.time, hour);
    HourColumn(b.txs, Every);
  }

  lemma {:induction false} AddressAddition(tr: TxTable, view: OutTable, rpc: Rpc, b: Block, txs: seq<Mined>,
                                           k: RollupKey, total: Tally)
    requires HasAddress(k) && txs == MinedTxs(b) && total == WalkSum(tr, view, rpc, txs, AddressTotal(k.address))
    ensures Plus(WalkSum(tr, view, rpc, txs, k), StatsTotal([b], k)) == Project(k, DayOf(b.time), total)
  {
    WalkSumProjects(tr, view, rpc, txs, k, DayOf(b.time));
    StatsSkip([b], k);
    PlusLaws(WalkSum(tr, view, rpc, txs, k), ZERO, ZERO);
  }

  lemma {:induction false} NoWalk(tr: TxTable, view: OutTable, rpc: Rpc, txs: seq<Mined>, k: RollupKey)
    requires !HasAddress(k)
    ensures WalkSum(tr, view, rpc, txs, k) == ZERO
  {
    if txs != [] {
      var before, m := txs[..|txs| - 1], txs[|txs| - 1];
      assert txs == before + [m];
      var part := WalkPart(m, Resolve(tr, view, rpc, m.tx), k);
      NoWalk(tr, view, rpc, before, k);
      WalkSumStep(tr, view, rpc, before, m, k);
      PlusLaws(part, ZERO, ZERO);
    }
  }

  /** The hourly and type subqueries read no inputs. */
  lemma {:induction false} StatsShare(t: Tables, b: Block, txs: seq<Mined>, res: seq<seq<Resolved>>, view: OutTable,
                                      rpc: Rpc, k: RollupKey)
    requires HoldsBlock(t, b, txs, res) && !HasAddress(k)
    ensures ShareAt(t, b.height, k) == Plus(WalkSum(t.transactions, view, rpc, txs, k), StatsTotal([b], k))
  {
    NoWalk(t.transactions, view, rpc, txs, k);
    PlusLaws(StatsTotal([b], k), ZERO, ZERO);
    match k {
      case HourStats(hour) =>
        HourShare(t, b, txs, res, hour, HourSum(b.txs));
        HourStatsOfOne(b, hour, HourSum(b.txs));
      case TypeCount(ty, cj, ms) => TypeShare(t, b, txs, res, k, OfType(ty, cj, ms));
      case _ =>
    }
  }

  /** Every subquery gives exactly what the block added to the row. */
  lemma {:induction false} ShareIsAddition(t: Tables, b: Block, txs: seq<Mined>, res: seq<seq<Resolved>>,
                                           view: OutTable, rpc: Rpc, k: RollupKey)
    requires HeightIs(t, b, txs, res) && ResolvedBy(t.transactions, view, rpc, txs, res)
    ensures ShareAt(t, b.height, k) == Plus(WalkSum(t.transactions, view, rpc, txs, k), StatsTotal([b], k))
  {
    var tr := t.transactions;
    if HasAddress(k) {
      var total := WalkSum(tr, view, rpc, txs, AddressTotal(k.address));
      AddressShare(t, b, txs, res, view, rpc, k, total);
      AddressAddition(tr, view, rpc, b, txs, k, total);
    } else {
      StatsShare(t, b, txs, res, view, rpc, k);
    }
  }

  lemma {:induction false} TypeShare(t: Tables, b: Block, txs: seq<Mined>, res: seq<seq<Resolved>>, k: RollupKey,
                                     f: Filter)
    requires HoldsBlock(t, b, txs, res) && k.TypeCount? && f == OfType(k.txType, k.coinjoin, k.multisig)
    ensures ShareAt(t, b.height, k) == StatsTotal([b], k)
  {
    FittingIs(t, b.height, txs, b.txs, f);
    StatsOfOne(b, k);
    TypeTotalIs(b.txs, b.time, k, f);
    PlusLaws(TxsTotal(b.txs, b.time, k), ZERO, ZERO);
  }

  // ------------------------------------------------------------- the tip's height

  /** Rows keep the flags of their transactions. */
  ghost predicate FlagsOk(tr: TxTable, w: World) {
    forall x :: x in tr ==>
      tr[x].txType == w(x).txType && tr[x].coinjoin == CoinJoin(w(x)) && tr[x].multisig == w(x).multisig
  }

  /** Nothing of the height is stored yet. */
  ghost predicate NothingAt(t: Tables, h: int) {
    h !in t.blocks && forall x :: x in t.transactions ==> t.transactions[x].height != Some(h)
  }

  /** A good index about to get block `b` on top. */
  ghost predicate ReadyFor(t: Tables, w: World, chain: seq<Mined>, b: Block) {
    && Inv(t, w, chain) && AddressesKnown(t.outputs, t.rollups)
    && FlagsOk(t.transactions, w) && ListsConfirmed(t.transactions, t.addressTxs)
    && NothingAt(t, b.height) && b.txs != [] && Extends(w, chain, MinedTxs(b))
  }

  /** The input rows stored for the block's transactions carry the address and amount
   * that `write_batch` resolved and counted. */
  ghost predicate CarriesResolution(t: Tables, t1: Tables, rpc: Rpc, txs: seq<Mined>)
    requires AllKnown(t1.transactions, txs)
  {
    var tr, view := t1.transactions, StagedOutputs(t1.transactions, txs) + t.outputs;
    forall i, k :: 0 <= i < |txs| && 0 <= k < |txs[i].tx.vin| && Slot(IdAt(tr, txs, i), k) in t1.inputs ==>
      var row, found := t1.inputs[Slot(IdAt(tr, txs, i), k)], Lookup(tr, view, rpc, txs[i].tx.vin[k]);
      row.address == found.address && row.amount == found.amount
  }

  lemma {:induction false} OneBlock(b: Block)
    ensures Flatten([b]) == MinedTxs(b)
  {
    assert [b][..0] == [] && Flatten([]) == [];
  }

  lemma {:induction false} TipTxs(t: Tables, w: World, chain: seq<Mined>, b: Block, txs: seq<Mined>, t1: Tables)
    requires ReadyFor(t, w, chain, b) && txs == MinedTxs(b)
    requires t1.transactions == ConfirmTxs(t.transactions, t.nextTxId, txs) && AllKnown(t1.transactions, txs)
    ensures TxsOfHeight(t1, b.height, txs) && IdsOk(t1.transactions, t.nextTxId + |txs|)
  {
    var tr, tr1 := t.transactions, t1.transactions;
    TailFacts(w, chain, txs);
    ConfirmTxsRows(tr, t.nextTxId, txs);
    ConfirmTxsIds(tr, t.nextTxId, txs);
    MineFollows(tr, t.nextTxId, w, chain, txs);
    forall x ensures x in TxsAt(t1, b.height) <==> Among(txs, x) {
      if Among(txs, x) {
        var i :| 0 <= i < |txs| && txs[i].tx.txid == x;
        assert (chain + txs)[|chain| + i] == txs[i];
      }
    }
    forall i, f | 0 <= i < |txs| ensures FlagsKept(tr1, txs[i].tx, f) {
      FlagsNow(tr, t.nextTxId, w, txs, i);
    }
    forall i, j | 0 <= i < j < |txs| ensures IdAt(tr1, txs, i) != IdAt(tr1, txs, j) {
      assert txs[i] in txs && txs[j] in txs;
    }
  }

  lemma {:induction false} FlagsNow(tr: TxTable, next: int, w: World, txs: seq<Mined>, i: int)
    requires FlagsOk(tr, w) && Distinct(txs) && Named(w, txs) && 0 <= i < |txs|
    ensures var x, tr1 := txs[i].tx.txid, ConfirmTxs(tr, next, txs);
            x in tr1 && tr1[x].txType == txs[i].tx.txType && tr1[x].coinjoin == CoinJoin(txs[i].tx)
              && tr1[x].multisig == txs[i].tx.multisig
  {
    assert Among(txs, txs[i].tx.txid);
    ConfirmedRow(tr, next, txs, txs[i].tx.txid, i);
  }

  lemma {:induction false} TipOuts(t1: Tables, w: World, h: int, txs: seq<Mined>)
    requires Structure(t1, w) && Named(w, txs) && TxsOfHeight(t1, h, txs)
    ensures OutsOfHeight(t1, txs)
  {
    var tr := t1.transactions;
    forall i, v | 0 <= i < |txs|
      ensures var o := Outpoint(IdAt(tr, txs, i), v);
              (o in t1.outputs <==> 0 <= v < |txs[i].tx.vout|)
                && (o in t1.outputs ==> SameOut(t1.outputs[o], txs[i].tx.vout[v]))
    {
      var x, o := txs[i].tx.txid, Outpoint(IdAt(tr, txs, i), v);
      assert txs[i] in txs && x in tr && tr[x].id == o.txId && w(x) == txs[i].tx;
      if o in t1.outputs {
        var y :| Creates(tr, w, y, o);
        assert y == x;
      }
      if 0 <= v < |txs[i].tx.vout| {
        assert Creates(tr, w, x, o);
      }
    }
  }

  lemma {:induction false} TipIns(t: Tables, t1: Tables, w: World, h: int, rpc: Rpc, txs: seq<Mined>, view: OutTable,
                                  res: seq<seq<Resolved>>)
    requires Structure(t1, w) && Named(w, txs) && TxsOfHeight(t1, h, txs)
    requires view == StagedOutputs(t1.transactions, txs) + t.outputs && CarriesResolution(t, t1, rpc, txs)
    requires ResolvedBy(t1.transactions, view, rpc, txs, res)
    ensures InsOfHeight(t1, txs, res)
  {
    var tr := t1.transactions;
    forall i, k | 0 <= i < |txs|
      ensures var s := Slot(IdAt(tr, txs, i), k);
              && (s in t1.inputs <==> 0 <= k < |res[i]|)
              && (s in t1.inputs ==>
                  t1.inputs[s].address == res[i][k].address && t1.inputs[s].amount == res[i][k].amount)
    {
      var x, s := txs[i].tx.txid, Slot(IdAt(tr, txs, i), k);
      assert txs[i] in txs && x in tr && tr[x].id == s.txId && w(x) == txs[i].tx;
      if s in t1.inputs {
        var y :| Holds(tr, w, y, s);
        assert y == x;
      }
      if 0 <= k < |txs[i].tx.vin| {
        assert Holds(tr, w, x, s);
        assert res[i][k] == Lookup(tr, view, rpc, txs[i].tx.vin[k]);
      }
    }
  }

  lemma {:induction false} TipListing(t: Tables, t1: Tables, w: World, chain: seq<Mined>, b: Block, rpc: Rpc,
                                      txs: seq<Mined>, view: OutTable, res: seq<seq<Resolved>>)
    requires ReadyFor(t, w, chain, b) && txs == MinedTxs(b)
    requires t1.transactions == ConfirmTxs(t.transactions, t.nextTxId, txs) && TxsOfHeight(t1, b.height, txs)
    requires ResolvedBy(t1.transactions, view, rpc, txs, res)
    requires t1.addressTxs == StagedAddressTxs(t1.transactions, view, rpc, txs) + t.addressTxs
    ensures ListedOfHeight(t1, b.height, txs, res)
  {
    var tr1 := t1.transactions;
    forall k ensures k in t1.addressTxs && t1.addressTxs[k] == b.height <==> ListedFor(t1, txs, res, k) {
      StagedListing(tr1, view, rpc, txs, k);
      if k in StagedAddressTxs(tr1, view, rpc, txs) {
        StagedRowOf(tr1, view, rpc, txs, k);
      }
      ListedForIs(t1, view, rpc, txs, res, k);
      if k in t.addressTxs {
        OldListing(t, w, chain, b, txs, k);
      }
    }
  }

  lemma {:induction false} ListedForIs(t1: Tables, view: OutTable, rpc: Rpc, txs: seq<Mined>, res: seq<seq<Resolved>>,
                                       k: AddrTx)
    requires AllKnown(t1.transactions, txs) && ResolvedBy(t1.transactions, view, rpc, txs, res)
    ensures ListedFor(t1, txs, res, k) <==> exists i :: ListsAt(t1.transactions, view, rpc, txs, k, i)
  {
    if ListedFor(t1, txs, res, k) {
      var i :| 0 <= i < |txs| && k.txId == IdAt(t1.transactions, txs, i) && k.address in Touched(txs[i].tx, res[i]);
      assert ListsAt(t1.transactions, view, rpc, txs, k, i);
    }
    if i :| ListsAt(t1.transactions, view, rpc, txs, k, i) {
      assert k.address in Touched(txs[i].tx, res[i]);
    }
  }

  /** Rows that were listed before are of other heights and other transactions. */
  lemma {:induction false} OldListing(t: Tables, w: World, chain: seq<Mined>, b: Block, txs: seq<Mined>, k: AddrTx)
    requires ReadyFor(t, w, chain, b) && txs == MinedTxs(b) && k in t.addressTxs
    requires AllKnown(ConfirmTxs(t.transactions, t.nextTxId, txs), txs)
    ensures t.addressTxs[k] != b.height
    ensures forall i :: 0 <= i < |txs| ==> k.txId != IdAt(ConfirmTxs(t.transactions, t.nextTxId, txs), txs, i)
  {
    var tr, tr1 := t.transactions, ConfirmTxs(t.transactions, t.nextTxId, txs);
    TailFacts(w, chain, txs);
    ConfirmTxsRows(tr, t.nextTxId, txs);
    ConfirmTxsIds(tr, t.nextTxId, txs);
    var x :| x in tr && tr[x].id == k.txId && tr[x].height == Some(t.addressTxs[k]);
    assert Confirmed(tr, x) && Among(chain, x) && tr1[x].id == k.txId;
    forall i | 0 <= i < |txs| ensures k.txId != IdAt(tr1, txs, i) {
      assert Among(txs, txs[i].tx.txid) && txs[i] in txs;
    }
  }

  // ---------------------------------------------------------------- the reversal

  datatype RollupTable = Addresses | BalanceDeltas | Activity | WeeklyActivity | HourlyStats | TypeCounts

  function TableOf(k: RollupKey): RollupTable {
    match k
    case AddressTotal(_) => Addresses
    case AddressDay(_, _) => BalanceDeltas
    case DayActivity(_, _) => Activity
    case WeekActivity(_, _) => WeeklyActivity
    case HourStats(_) => HourlyStats
    case TypeCount(_, _, _) => TypeCounts
  }

  method SumRows<T(==)>(rows: set<T>, f: T -> int) returns (sum: int)
    ensures sum == SumSet(rows, f)
  {
    sum := 0;
    var todo := rows;
    while todo != {}
      invariant todo <= rows && sum + SumSet(todo, f) == SumSet(rows, f)
      decreases |todo|
    {
      var x :| x in todo;
      SumTake(todo, f, x);
      sum := sum + f(x);
      todo := todo - {x};
    }
  }

  /** The subquery of one UPDATE, for the row with key `k`. */
  method ShareOf(t: Tables, h: int, k: RollupKey) returns (share: Tally)
    ensures share == ShareAt(t, h, k)
  {
    match k
    case AddressTotal(a) =>
      var received := SumRows(OutRowsAt(t, h, a), ValueOf(t));
      var sent := SumRows(InRowsAt(t, h, a), AmountOf(t));
      share := ZERO.(received := received, sent := sent, txs := |TouchingIds(t, h, a)|);
    case AddressDay(a, day) =>
      share := ZERO;
      if h in t.blocks && DayOf(t.blocks[h].time) == day {
        var received := SumRows(OutRowsAt(t, h, a), ValueOf(t));
        var sent := SumRows(InRowsAt(t, h, a), AmountOf(t));
        share := ZERO.(received := received, sent := sent);
      }
    case DayActivity(day, a) =>
      share := if h in t.blocks && DayOf(t.blocks[h].time) == day then ZERO.(txs := |ListedAt(t, h, a)|) else ZERO;
    case WeekActivity(week, a) =>
      share := if h in t.blocks && WeekOf(DayOf(t.blocks[h].time)) == week
               then ZERO.(txs := |ListedAt(t, h, a)|) else ZERO;
    case HourStats(hour) =>
      share := ZERO;
      if h in t.blocks && HourOf(t.blocks[h].time) == hour {
        share := Tally(0, 0, |RowsWhere(t, h, Every)|, 1, t.blocks[h].size, |RowsWhere(t, h, NormalTx)|,
                       |RowsWhere(t, h, SpecialTx)|, |RowsWhere(t, h, CoinJoinTx)|, |RowsWhere(t, h, MultisigTx)|);
      }
    case TypeCount(ty, cj, ms) => share := ZERO.(txs := |RowsWhere(t, h, OfType(ty, cj, ms))|);
  }

  function KeysOf(r: Rollups, tables: set<RollupTable>): set<RollupKey> {
    set k | k in r && TableOf(k) in tables
  }

  /** Which rows an UPDATE has changed so far. */
  ghost predicate Subtracted(t: Tables, h: int, before: Rollups, after: Rollups, done: set<RollupKey>) {
    && after.Keys == before.Keys
    && forall k :: k in before ==> after[k] == if k in done then Minus(before[k], ShareAt(t, h, k)) else before[k]
  }

  /** One UPDATE .. FROM: the existing rows of one table. */
  method Subtract(db: Database, t: Tables, h: int, table: RollupTable)
    modifies db`rollups
    ensures Subtracted(t, h, old(db.rollups), db.rollups, KeysOf(old(db.rollups), {table}))
  {
    ghost var before := db.rollups;
    var todo := KeysOf(db.rollups, {table});
    ghost var all := todo;
    while todo != {}
      invariant todo <= all && Subtracted(t, h, before, db.rollups, all - todo)
      decreases |todo|
    {
      var k :| k in todo;
      var share := ShareOf(t, h, k);
      db.rollups := db.rollups[k := Minus(db.rollups[k], share)];
      todo := todo - {k};
    }
    assert all - {} == all;
  }

  /** All six tables, every existing row less its share. */
  ghost function Reversed(t: Tables, h: int): Rollups {
    map k | k in t.rollups :: Minus(t.rollups[k], ShareAt(t, h, k))
  }

  lemma {:induction false} OneMoreTable(t: Tables, h: int, r0: Rollups, r1: Rollups, r2: Rollups,
                                        tables: set<RollupTable>, table: RollupTable)
    requires table !in tables
    requires Subtracted(t, h, r0, r1, KeysOf(r0, tables)) && Subtracted(t, h, r1, r2, KeysOf(r1, {table}))
    ensures Subtracted(t, h, r0, r2, KeysOf(r0, tables + {table}))
  {
    forall k | k in r0
      ensures r2[k] == if k in KeysOf(r0, tables + {table}) then Minus(r0[k], ShareAt(t, h, k)) else r0[k]
    {
      assert k in r1.Keys;
    }
  }

  method SubtractNext(db: Database, t: Tables, h: int, ghost r0: Rollups, ghost tables: set<RollupTable>,
                      table: RollupTable)
    returns (ghost more: set<RollupTable>)
    requires table !in tables && Subtracted(t, h, r0, db.rollups, KeysOf(r0, tables))
    modifies db`rollups
    ensures more == tables + {table} && Subtracted(t, h, r0, db.rollups, KeysOf(r0, more))
  {
    ghost var r1 := db.rollups;
    Subtract(db, t, h, table);
    OneMoreTable(t, h, r0, r1, db.rollups, tables, table);
    more := tables + {table};
  }

  lemma {:induction false} AllTables(t: Tables, h: int, after: Rollups, tables: set<RollupTable>)
    requires forall x: RollupTable :: x in tables
    requires Subtracted(t, h, t.rollups, after, KeysOf(t.rollups, tables))
    ensures after == Reversed(t, h)
  {
    forall k | k in t.rollups ensures after[k] == Minus(t.rollups[k], ShareAt(t, h, k)) {
      assert k in KeysOf(t.rollups, tables);
    }
    assert after.Keys == Reversed(t, h).Keys;
  }

  lemma {:induction false} EveryTable(tables: set<RollupTable>)
    requires tables == {Addresses} + {BalanceDeltas} + {Activity} + {WeeklyActivity} + {HourlyStats} + {TypeCounts}
    ensures forall x: RollupTable :: x in tables
  {
    forall x: RollupTable ensures x in tables {
      match x
      case Addresses =>
      case BalanceDeltas =>
      case Activity =>
      case WeeklyActivity =>
      case HourlyStats =>
      case TypeCounts =>
    }
  }

  /** The rollup part of `delete_block_at_height`. The subqueries read only tables that
   * the six UPDATEs leave alone. */
  method ReverseRollups(db: Database, h: int)
    modifies db`rollups
    ensures db.rollups == Reversed(old(db.State()), h)
  {
    var t := db.State();
    ghost var done: set<RollupTable> := {};
    assert KeysOf(t.rollups, {}) == {};
    done := SubtractNext(db, t, h, t.rollups, done, Addresses);
    done := SubtractNext(db, t, h, t.rollups, done, BalanceDeltas);
    done := SubtractNext(db, t, h, t.rollups, done, Activity);
    done := SubtractNext(db, t, h, t.rollups, done, WeeklyActivity);
    done := SubtractNext(db, t, h, t.rollups, done, HourlyStats);
    done := SubtractNext(db, t, h, t.rollups, done, TypeCounts);
    EveryTable(done);
    AllTables(t, h, db.rollups, done);
  }

  // ------------------------------------------------------------------ main result

  lemma {:induction false} TipStage(t: Tables, w: World, chain: seq<Mined>, b: Block, rpc: Rpc, t1: Tables,
                                    txs: seq<Mined>)
    returns (view: OutTable)
    requires ReadyFor(t, w, chain, b) && txs == MinedTxs(b) && t1 == Mine(t, [b], rpc)
    ensures AllKnown(t1.transactions, txs) && t1.transactions == ConfirmTxs(t.transactions, t.nextTxId, txs)
    ensures view == StagedOutputs(t1.transactions, txs) + t.outputs && Structure(t1, w) && Named(w, txs)
    ensures t1.rollups == Merge(t.rollups, BatchDelta(t1.transactions, view, rpc, [b], txs))
    ensures t1.addressTxs == StagedAddressTxs(t1.transactions, view, rpc, txs) + t.addressTxs
  {
    OneBlock(b);
    TailFacts(w, chain, txs);
    assert MinedTxs(b) != [];
    var tr, rows := BatchRows(t, [b], rpc, t1, txs);
    view := rows + t.outputs;
    MineStructure(t, w, [b], rpc, t1, txs);
    MineRollups(t, [b], rpc, t1, tr, txs, rows);
    MinedRollupsAreDelta(t.rollups, tr, t.outputs, rows, rpc, [b], txs);
  }

  lemma {:induction false} TipRows(t: Tables, w: World, chain: seq<Mined>, b: Block, rpc: Rpc, t1: Tables,
                                   txs: seq<Mined>, view: OutTable, res: seq<seq<Resolved>>)
    requires ReadyFor(t, w, chain, b) && txs == MinedTxs(b)
    requires AllKnown(t1.transactions, txs) && t1.transactions == ConfirmTxs(t.transactions, t.nextTxId, txs)
    requires view == StagedOutputs(t1.transactions, txs) + t.outputs && Structure(t1, w) && Named(w, txs)
    requires t1.addressTxs == StagedAddressTxs(t1.transactions, view, rpc, txs) + t.addressTxs
    requires b.height in t1.blocks && t1.blocks[b.height] == BlockRow(b.time, b.size, |b.txs|)
    requires ResolvedBy(t1.transactions, view, rpc, txs, res)
    ensures HoldsBlock(t1, b, txs, res)
  {
    TipTxs(t, w, chain, b, txs, t1);
    TipOuts(t1, w, b.height, txs);
    TipListing(t, t1, w, chain, b, rpc, txs, view, res);
  }

  lemma {:induction false} TipHeight(t: Tables, w: World, chain: seq<Mined>, b: Block, rpc: Rpc, t1: Tables,
                                     txs: seq<Mined>)
    returns (view: OutTable, res: seq<seq<Resolved>>)
    requires ReadyFor(t, w, chain, b) && txs == MinedTxs(b) && t1 == Mine(t, [b], rpc)
    ensures AllKnown(t1.transactions, txs) && view == StagedOutputs(t1.transactions, txs) + t.outputs
    ensures ResolvedBy(t1.transactions, view, rpc, txs, res) && HoldsBlock(t1, b, txs, res)
    ensures t1.rollups == Merge(t.rollups, BatchDelta(t1.transactions, view, rpc, [b], txs))
    ensures Structure(t1, w) && Named(w, txs)
  {
    view := TipStage(t, w, chain, b, rpc, t1, txs);
    res := Resolutions(t1.transactions, view, rpc, txs);
    TipBlocks(t, b, rpc, t1);
    TipRows(t, w, chain, b, rpc, t1, txs, view, res);
  }

  function Resolutions(tr: TxTable, view: OutTable, rpc: Rpc, txs: seq<Mined>): (res: seq<seq<Resolved>>)
    ensures ResolvedBy(tr, view, rpc, txs, res)
  {
    seq(|txs|, i requires 0 <= i < |txs| => Resolve(tr, view, rpc, txs[i].tx))
  }

  lemma {:induction false} TipBlocks(t: Tables, b: Block, rpc: Rpc, t1: Tables)
    requires t1 == Mine(t, [b], rpc) && b.height !in t.blocks
    ensures b.height in t1.blocks && t1.blocks[b.height] == BlockRow(b.time, b.size, |b.txs|)
  {
    MineBlocks(t, [b], rpc);
    assert [b][..0] == [] && PutBlocks(t.blocks, []) == t.blocks;
  }

  lemma {:induction false} Undone(r: Rollups, delta: Rollups, r1: Rollups, k: RollupKey, share: Tally)
    requires r1 == Merge(r, delta) && At(delta, k) == share
    ensures (if k in r1 then Minus(r1[k], share) else ZERO) == At(r, k)
  {
    AtMerge(r, delta, k);
    PlusLaws(At(r, k), share, ZERO);
  }

  /** Writing the tip block and then deleting it restores every row of all six rollups,
   * absent rows counting as zero. */
  lemma {:induction false} RollbackRestores(t: Tables, w: World, chain: seq<Mined>, b: Block, rpc: Rpc, t1: Tables,
                                            k: RollupKey)
    requires ReadyFor(t, w, chain, b) && t1 == Mine(t, [b], rpc)
    requires AllKnown(t1.transactions, MinedTxs(b)) && CarriesResolution(t, t1, rpc, MinedTxs(b))
    ensures At(Reversed(t1, b.height), k) == At(t.rollups, k)
  {
    var txs := MinedTxs(b);
    var view, res := TipHeight(t, w, chain, b, rpc, t1, txs);
    TipIns(t, t1, w, b.height, rpc, txs, view, res);
    var delta := BatchDelta(t1.transactions, view, rpc, [b], txs);
    ShareIsAddition(t1, b, txs, res, view, rpc, k);
    AtBatchDelta(t1.transactions, view, rpc, [b], txs, k);
    Undone(t.rollups, delta, t1.rollups, k, ShareAt(t1, b.height, k));
  }
}
