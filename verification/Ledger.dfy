/** The index as a value, and what the two writing steps do to it.
 *
 * `Mine` is `write_batch` (a commit batch of confirmed blocks) and `See` is
 * `index_pending_transaction` (one mempool transaction), each stated phase by
 * phase on whole tables. The imperative forms, in BlockWriter, are proved equal
 * to these functions.
 */
module Ledger {
  import opened Prelude
  import opened Rollups

  // ---------------------------------------------------------------- chain data

  type Hash = string
  type Address = string

  /** An output: the address its script yields, if any, and its value in duffs. */
  datatype TxOut = TxOut(address: Option<Address>, value: int)

  datatype TxIn = Coinbase | Spend(prevHash: Hash, prevVout: int)

  /** `txType` is 0 where the source has no type. */
  datatype Tx = Tx(txid: Hash, txType: nat, multisig: bool, vin: seq<TxIn>, vout: seq<TxOut>)

  datatype Block = Block(height: int, time: int, size: int, txs: seq<Tx>)

  /** A transaction with the height and time of the block that confirmed it. */
  datatype Mined = Mined(tx: Tx, height: int, time: int)

  /** `getrawtransaction`: None is an RPC error. */
  type Rpc = Hash -> Option<Tx>

  const DENOMINATIONS: set<int> := {1_000_010_000, 100_001_000, 10_000_100, 1_000_010, 100_001}

  predicate CoinJoin(tx: Tx) {
    && 3 < |tx.vout| < 20
    && |tx.vin| == |tx.vout|
    && tx.vout[0].value in DENOMINATIONS
    && forall o | o in tx.vout :: o.value == tx.vout[0].value
  }

  function MinedTxs(b: Block): seq<Mined> {
    seq(|b.txs|, i requires 0 <= i < |b.txs| => Mined(b.txs[i], b.height, b.time))
  }

  /** Every transaction of a batch, in block order. */
  function Flatten(blocks: seq<Block>): seq<Mined> {
    if blocks == [] then [] else
      Flatten(blocks[..|blocks| - 1]) + MinedTxs(blocks[|blocks| - 1])
  }

  // -------------------------------------------------------------------- tables

  datatype BlockRow = BlockRow(time: int, size: int, txCount: nat)

  /** `height` is None while the transaction is pending. */
  datatype TxRow = TxRow(id: int, height: Option<int>, txType: nat, coinjoin: bool, multisig: bool)

  datatype Outpoint = Outpoint(txId: int, vout: int)

  datatype Slot = Slot(txId: int, vin: int)

  /** `spentBy` is (spent_by_tx_id, spent_by_vin_index). */
  datatype OutRow = OutRow(address: Option<Address>, value: int, spentBy: Option<Slot>)

  /** `source` carries prev_tx_hash and prev_vout_index, or the coinbase mark. */
  datatype InRow = InRow(source: TxIn, prevId: Option<int>, address: Option<Address>, amount: Option<int>)

  datatype Coin = Coin(address: Option<Address>, amount: int)

  datatype AddrTx = AddrTx(address: Address, txId: int)

  type TxTable = map<Hash, TxRow>
  type OutTable = map<Outpoint, OutRow>
  type InTable = map<Slot, InRow>
  type CoinTable = map<Outpoint, Coin>

  datatype Tables = Tables(
    blocks: map<int, BlockRow>,
    transactions: TxTable,
    nextTxId: int,
    outputs: OutTable,
    inputs: InTable,
    utxo: CoinTable,
    rollups: Rollups,
    addressTxs: map<AddrTx, int>)

  const EMPTY := Tables(map[], map[], 1, map[], map[], map[], map[], map[])

  // ------------------------------------------------------- phases 2 and 3: rows

  function PutBlock(blocks: map<int, BlockRow>, b: Block): map<int, BlockRow> {
    if b.height in blocks then blocks else blocks[b.height := BlockRow(b.time, b.size, |b.txs|)]
  }

  function PutBlocks(blocks: map<int, BlockRow>, bs: seq<Block>): map<int, BlockRow> {
    if bs == [] then blocks else PutBlock(PutBlocks(blocks, bs[..|bs| - 1]), bs[|bs| - 1])
  }

  function NewRow(id: int, height: Option<int>, tx: Tx): TxRow {
    TxRow(id, height, tx.txType, CoinJoin(tx), tx.multisig)
  }

  /** ON CONFLICT (hash) DO UPDATE SET block_height = COALESCE(block_height, EXCLUDED.block_height). */
  function ConfirmTx(tr: TxTable, id: int, m: Mined): TxTable {
    if m.tx.txid in tr then
      var row := tr[m.tx.txid];
      tr[m.tx.txid := row.(height := if row.height.Some? then row.height else Some(m.height))]
    else
      tr[m.tx.txid := NewRow(id, Some(m.height), m.tx)]
  }

  /** A SERIAL id is drawn for every row of the statement, conflicting or not. */
  function ConfirmTxs(tr: TxTable, next: int, txs: seq<Mined>): TxTable {
    if txs == [] then tr else
      var n := |txs| - 1;
      ConfirmTx(ConfirmTxs(tr, next, txs[..n]), next + n, txs[n])
  }

  /** Ids of the batch's own transactions (the values of tx_map). */
  function BatchIds(tr: TxTable, txs: seq<Mined>): set<int> {
    set i | 0 <= i < |txs| && txs[i].tx.txid in tr :: tr[txs[i].tx.txid].id
  }

  // --------------------------------------------------- phases 4 and 5: outputs

  function TxOutputs(id: int, vout: seq<TxOut>): OutTable {
    map v | 0 <= v < |vout| :: Outpoint(id, v) := OutRow(vout[v].address, vout[v].value, None)
  }

  /** tx_map has an id for every transaction of the batch. */
  predicate AllKnown(tr: TxTable, txs: seq<Mined>) {
    forall m | m in txs :: m.tx.txid in tr
  }

  function StagedOutputs(tr: TxTable, txs: seq<Mined>): OutTable
    requires AllKnown(tr, txs)
  {
    if txs == [] then map[] else
      var m := txs[|txs| - 1];
      StagedOutputs(tr, txs[..|txs| - 1]) + TxOutputs(tr[m.tx.txid].id, m.tx.vout)
  }

  function CoinsOf(rows: OutTable): CoinTable {
    map o | o in rows :: Coin(rows[o].address, rows[o].value)
  }

  predicate IsPendingId(tr: TxTable, id: int) {
    exists h :: h in tr && tr[h].id == id && tr[h].height.None?
  }

  /** Outpoints of the given transactions that a still pending input is linked to. */
  function PendingSpends(tr: TxTable, inputs: InTable, ids: set<int>): set<Outpoint> {
    set s | s in inputs && inputs[s].source.Spend? && inputs[s].prevId.Some?
            && inputs[s].prevId.value in ids && IsPendingId(tr, s.txId)
      :: Outpoint(inputs[s].prevId.value, inputs[s].source.prevVout)
  }

  // ------------------------------------------------ phase 6: input resolution

  /** What is recorded on an input: prev_tx_id, address_id and amount. */
  datatype Resolved = Resolved(prevId: Option<int>, address: Option<Address>, amount: Option<int>)

  function IdOf(tr: TxTable, h: Hash): Option<int> {
    if h in tr then Some(tr[h].id) else None
  }

  /** The stored output (h, v): the direct DB join. */
  function Stored(tr: TxTable, outs: OutTable, h: Hash, v: int): Option<OutRow> {
    if h in tr && Outpoint(tr[h].id, v) in outs then Some(outs[Outpoint(tr[h].id, v)]) else None
  }

  /** The output (h, v) as the RPC reports it. */
  function Fetched(rpc: Rpc, h: Hash, v: int): Option<TxOut> {
    var r := rpc(h);
    if r.Some? && 0 <= v < |r.value.vout| then Some(r.value.vout[v]) else None
  }

  predicate StoredHasAddress(tr: TxTable, outs: OutTable, h: Hash, v: int) {
    var s := Stored(tr, outs, h, v);
    s.Some? && s.value.address.Some?
  }

  /** An input's resolution without any cache: the stored output if it has an
   * address, otherwise the RPC, falling back to the stored value for the amount. */
  function Lookup(tr: TxTable, outs: OutTable, rpc: Rpc, input: TxIn): Resolved {
    match input
    case Coinbase => Resolved(None, None, None)
    case Spend(h, v) =>
      var s := Stored(tr, outs, h, v);
      if StoredHasAddress(tr, outs, h, v) then
        Resolved(IdOf(tr, h), s.value.address, Some(s.value.value))
      else
        var f := Fetched(rpc, h, v);
        Resolved(IdOf(tr, h),
                 if f.Some? then f.value.address else None,
                 if f.Some? then Some(f.value.value) else if s.Some? then Some(s.value.value) else None)
  }

  function Resolve(tr: TxTable, outs: OutTable, rpc: Rpc, tx: Tx): seq<Resolved> {
    seq(|tx.vin|, k requires 0 <= k < |tx.vin| => Lookup(tr, outs, rpc, tx.vin[k]))
  }

  // ------------------------------------------------------- phase 7: input rows

  function TxInputs(id: int, vin: seq<TxIn>, res: seq<Resolved>): InTable
    requires |vin| == |res|
  {
    map k | 0 <= k < |vin| :: Slot(id, k) := InRow(vin[k], res[k].prevId, res[k].address, res[k].amount)
  }

  function StagedInputs(tr: TxTable, outs: OutTable, rpc: Rpc, txs: seq<Mined>): InTable
    requires AllKnown(tr, txs)
  {
    if txs == [] then map[] else
      var m := txs[|txs| - 1];
      StagedInputs(tr, outs, rpc, txs[..|txs| - 1])
        + TxInputs(tr[m.tx.txid].id, m.tx.vin, Resolve(tr, outs, rpc, m.tx))
  }

  // ------------------------------------------------------- phase 7b: spenders

  datatype Mark = Mark(outpoint: Outpoint, spender: Slot)

  function MarksUpTo(tr: TxTable, id: int, vin: seq<TxIn>): seq<Mark> {
    if vin == [] then [] else
      var k := |vin| - 1;
      MarksUpTo(tr, id, vin[..k]) +
      if vin[k].Spend? && vin[k].prevHash in tr
      then [Mark(Outpoint(tr[vin[k].prevHash].id, vin[k].prevVout), Slot(id, k))] else []
  }

  function Marks(tr: TxTable, txs: seq<Mined>): seq<Mark>
    requires AllKnown(tr, txs)
  {
    if txs == [] then [] else
      var m := txs[|txs| - 1];
      Marks(tr, txs[..|txs| - 1]) + MarksUpTo(tr, tr[m.tx.txid].id, m.tx.vin)
  }

  function Targets(marks: seq<Mark>): set<Outpoint> {
    set i | 0 <= i < |marks| :: marks[i].outpoint
  }

  /** DISTINCT ON (prev_tx_id, prev_vout_index) .. ORDER BY .. spent_by_tx_id: the
   * row with the least spender id, the first staged of those. */
  function Chosen(marks: seq<Mark>, o: Outpoint): Option<Slot> {
    if marks == [] then None else
      var m := marks[|marks| - 1];
      var before := Chosen(marks[..|marks| - 1], o);
      if m.outpoint == o && (before.None? || m.spender.txId < before.value.txId)
      then Some(m.spender) else before
  }

  function Marked(row: OutRow, chosen: Option<Slot>, confirmed: bool): OutRow {
    if chosen.Some? && (confirmed || row.spentBy.None?) then row.(spentBy := chosen) else row
  }

  function MarkSpent(outs: OutTable, marks: seq<Mark>, confirmed: bool): OutTable {
    map o | o in outs :: Marked(outs[o], Chosen(marks, o), confirmed)
  }

  // ------------------------------------------------------ phases 7c, 7d: rollups

  function AddressRows(addresses: set<Address>): set<RollupKey> {
    set a | a in addresses :: AddressTotal(a)
  }

  /** `upsert_addresses_batch`: the row exists afterwards, its totals untouched. */
  function KnownAddresses(addresses: set<Address>): Rollups {
    map k | k in AddressRows(addresses) :: ZERO
  }

  function OutAddresses(vout: seq<TxOut>): set<Address> {
    set v | 0 <= v < |vout| && vout[v].address.Some? :: vout[v].address.value
  }

  function InAddresses(res: seq<Resolved>): set<Address> {
    set k | 0 <= k < |res| && res[k].address.Some? :: res[k].address.value
  }

  /** Addresses the RPC answers for inputs whose output has no stored address. */
  function RpcAddresses(tr: TxTable, outs: OutTable, rpc: Rpc, vin: seq<TxIn>): set<Address> {
    set k | 0 <= k < |vin| && vin[k].Spend? && !StoredHasAddress(tr, outs, vin[k].prevHash, vin[k].prevVout)
            && Lookup(tr, outs, rpc, vin[k]).address.Some?
      :: Lookup(tr, outs, rpc, vin[k]).address.value
  }

  function BatchOutAddresses(txs: seq<Mined>): set<Address> {
    set i, a | 0 <= i < |txs| && a in OutAddresses(txs[i].tx.vout) :: a
  }

  function BatchRpcAddresses(tr: TxTable, outs: OutTable, rpc: Rpc, txs: seq<Mined>): set<Address> {
    set i, a | 0 <= i < |txs| && a in RpcAddresses(tr, outs, rpc, txs[i].tx.vin) :: a
  }

  function Amount(r: Resolved): int {
    if r.amount.Some? then r.amount.value else 0
  }

  function FlowDelta(a: Address, day: int, flow: Tally): Rollups {
    map[AddressTotal(a) := flow, AddressDay(a, day) := flow]
  }

  function OutDelta(o: TxOut, day: int): Rollups {
    if o.address.Some? then FlowDelta(o.address.value, day, ZERO.(received := o.value)) else map[]
  }

  function InDelta(r: Resolved, day: int): Rollups {
    if r.address.Some? then FlowDelta(r.address.value, day, ZERO.(sent := Amount(r))) else map[]
  }

  function OutsDelta(vout: seq<TxOut>, day: int): Rollups {
    if vout == [] then map[] else
      Merge(OutsDelta(vout[..|vout| - 1], day), OutDelta(vout[|vout| - 1], day))
  }

  function InsDelta(res: seq<Resolved>, day: int): Rollups {
    if res == [] then map[] else
      Merge(InsDelta(res[..|res| - 1], day), InDelta(res[|res| - 1], day))
  }

  function TouchKeys(addresses: set<Address>, day: int): set<RollupKey> {
    AddressRows(addresses) + set a | a in addresses :: DayActivity(day, a)
  }

  /** One transaction counted once per address it touches, on whichever side. */
  function TouchDelta(addresses: set<Address>, day: int): Rollups {
    map k | k in TouchKeys(addresses, day) :: ONE_TX
  }

  function Touched(tx: Tx, res: seq<Resolved>): set<Address> {
    OutAddresses(tx.vout) + InAddresses(res)
  }

  /** Phase 7c for one transaction. */
  function WalkDelta(m: Mined, res: seq<Resolved>): Rollups {
    var day := DayOf(m.time);
    Merge(Merge(OutsDelta(m.tx.vout, day), InsDelta(res, day)), TouchDelta(Touched(m.tx, res), day))
  }

  function Walk(tr: TxTable, outs: OutTable, rpc: Rpc, txs: seq<Mined>): Rollups {
    if txs == [] then map[] else
      var m := txs[|txs| - 1];
      Merge(Walk(tr, outs, rpc, txs[..|txs| - 1]), WalkDelta(m, Resolve(tr, outs, rpc, m.tx)))
  }

  /** What one transaction adds to its hour. */
  function HourTally(tx: Tx): Tally {
    ZERO.(txs := 1,
          special := if tx.txType > 0 then 1 else 0,
          coinjoin := if CoinJoin(tx) then 1 else 0,
          multisig := if tx.multisig then 1 else 0,
          normal := if tx.txType == 0 && !CoinJoin(tx) && !tx.multisig then 1 else 0)
  }

  function TxStats(tx: Tx, time: int): Rollups {
    map[HourStats(HourOf(time)) := HourTally(tx), TypeCount(tx.txType, CoinJoin(tx), tx.multisig) := ONE_TX]
  }

  function TxsStats(txs: seq<Tx>, time: int): Rollups {
    if txs == [] then map[] else
      Merge(TxsStats(txs[..|txs| - 1], time), TxStats(txs[|txs| - 1], time))
  }

  /** Phase 7d for one block. */
  function BlockStats(b: Block): Rollups {
    Merge(map[HourStats(HourOf(b.time)) := ZERO.(blocks := 1, size := b.size)], TxsStats(b.txs, b.time))
  }

  function ChainStats(blocks: seq<Block>): Rollups {
    if blocks == [] then map[] else
      Merge(ChainStats(blocks[..|blocks| - 1]), BlockStats(blocks[|blocks| - 1]))
  }

  function TxAddressTxs(id: int, height: int, addresses: set<Address>): map<AddrTx, int> {
    map a | a in addresses :: AddrTx(a, id) := height
  }

  function StagedAddressTxs(tr: TxTable, outs: OutTable, rpc: Rpc, txs: seq<Mined>): map<AddrTx, int>
    requires AllKnown(tr, txs)
  {
    if txs == [] then map[] else
      var m := txs[|txs| - 1];
      StagedAddressTxs(tr, outs, rpc, txs[..|txs| - 1])
        + TxAddressTxs(tr[m.tx.txid].id, m.height, Touched(m.tx, Resolve(tr, outs, rpc, m.tx)))
  }

  // ------------------------------------------------------------- the two steps

  lemma {:induction false} ConfirmedAreKnown(tr: TxTable, next: int, txs: seq<Mined>)
    ensures forall h | h in tr :: h in ConfirmTxs(tr, next, txs)
    ensures AllKnown(ConfirmTxs(tr, next, txs), txs)
  {
    if txs != [] {
      var n := |txs| - 1;
      ConfirmedAreKnown(tr, next, txs[..n]);
      forall m | m in txs ensures m.tx.txid in ConfirmTxs(tr, next, txs) {
        assert m in txs[..n] || m == txs[n];
      }
    }
  }

  /** `write_batch`. The header rows are written even when the batch carries no
   * transaction at all, in which case nothing else is. */
  function Mine(t: Tables, blocks: seq<Block>, rpc: Rpc): Tables {
    var txs := Flatten(blocks);
    var headers := t.(blocks := PutBlocks(t.blocks, blocks));
    if txs == [] then headers else
      ConfirmedAreKnown(t.transactions, t.nextTxId, txs);
      MineTxs(headers, ConfirmTxs(t.transactions, t.nextTxId, txs), blocks, txs, rpc)
  }

  /** The UTXO table after phases 5b and 7b. */
  function MinedCoins(tr: TxTable, rows: OutTable, utxo: CoinTable, ins: InTable, txs: seq<Mined>): CoinTable
    requires AllKnown(tr, txs)
  {
    CoinsOf(rows) + utxo - PendingSpends(tr, ins, BatchIds(tr, txs)) - Targets(Marks(tr, txs))
  }

  /** The rollups after phases 4, 6c, 7c and 7d. */
  function MinedRollups(r: Rollups, tr: TxTable, outs: OutTable, rpc: Rpc, blocks: seq<Block>,
                        txs: seq<Mined>): Rollups {
    var known := Merge(Merge(r, KnownAddresses(BatchOutAddresses(txs))),
                       KnownAddresses(BatchRpcAddresses(tr, outs, rpc, txs)));
    Merge(AddWalk(known, Walk(tr, outs, rpc, txs)), ChainStats(blocks))
  }

  /** Phases 4 to 7d, once phase 3 has written the transactions table `tr`. */
  function MineTxs(t: Tables, tr: TxTable, blocks: seq<Block>, txs: seq<Mined>, rpc: Rpc): Tables
    requires AllKnown(tr, txs)
  {
    var rows := StagedOutputs(tr, txs);
    var outs := rows + t.outputs;
    Tables(t.blocks, tr, t.nextTxId + |txs|,
           MarkSpent(outs, Marks(tr, txs), true),
           StagedInputs(tr, outs, rpc, txs) + t.inputs,
           MinedCoins(tr, rows, t.utxo, t.inputs, txs),
           MinedRollups(t.rollups, tr, outs, rpc, blocks, txs),
           StagedAddressTxs(tr, outs, rpc, txs) + t.addressTxs)
  }

  function Totals(walk: Rollups): Rollups {
    map k | k in walk && k.AddressTotal? :: walk[k]
  }

  function Activity(walk: Rollups): Rollups {
    map k | k in walk && k.DayActivity? :: walk[k]
  }

  function Balances(walk: Rollups): Rollups {
    map k | k in walk && k.AddressDay? :: walk[k]
  }

  /** Transactions of an address over the seven days that start at `week`. */
  function WeekSum(r: Rollups, week: int, a: Address): int {
    At(r, DayActivity(week, a)).txs + At(r, DayActivity(week + 1, a)).txs
    + At(r, DayActivity(week + 2, a)).txs + At(r, DayActivity(week + 3, a)).txs
    + At(r, DayActivity(week + 4, a)).txs + At(r, DayActivity(week + 5, a)).txs
    + At(r, DayActivity(week + 6, a)).txs
  }

  /** SELECT date_trunc('week', day), address_id, SUM(tx_count) .. GROUP BY 1, 2 over the staged days. */
  function Weekly(walk: Rollups): Rollups {
    map w | w in (set k | k in walk && k.DayActivity? :: WeekActivity(WeekOf(k.day), k.address))
      :: ZERO.(txs := WeekSum(walk, w.week, w.address))
  }

  /** Phase 7c's writes: activity by day and by week, the address columns (an UPDATE
   * of existing rows, every other table an upsert), and the daily balance deltas. */
  function AddWalk(r: Rollups, walk: Rollups): Rollups {
    var active := Merge(Merge(r, Activity(walk)), Weekly(Activity(walk)));
    Merge(UpdateExisting(active, Totals(walk)), Balances(walk))
  }

  /** `index_pending_transaction`: false when the transaction is already known. */
  function See(t: Tables, tx: Tx, rpc: Rpc): Tables {
    if tx.txid in t.transactions then t.(nextTxId := t.nextTxId + 1) else
      var id := t.nextTxId;
      var tr := t.transactions[tx.txid := NewRow(id, None, tx)];
      var rows := TxOutputs(id, tx.vout);
      var outs := rows + t.outputs;
      var marks := MarksUpTo(tr, id, tx.vin);
      t.(transactions := tr,
         nextTxId := id + 1,
         outputs := MarkSpent(outs, marks, false),
         inputs := TxInputs(id, tx.vin, Resolve(tr, outs, rpc, tx)) + t.inputs,
         utxo := CoinsOf(rows) + t.utxo - Targets(marks),
         rollups := Merge(Merge(t.rollups, KnownAddresses(OutAddresses(tx.vout))),
                          KnownAddresses(RpcAddresses(tr, outs, rpc, tx.vin))))
  }
}
