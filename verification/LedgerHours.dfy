/** What the hourly and type rows of a run count, and what the stored flags say, in terms of the
 * mined transactions alone. */
module LedgerHours {
  import opened Rollups
  import opened Ledger
  import opened LedgerFacts
  import opened LedgerRuns
  import opened LedgerTotals
  import opened Rollback
  import opened RollbackRuns

  // ------------------------------------------------------- denomination mixing

  predicate Denomination(d: int) {
    d == 1_000_010_000 || d == 100_001_000 || d == 10_000_100 || d == 1_000_010 || d == 100_001
  }

  predicate AllWorth(vout: seq<TxOut>, d: int) {
    forall v :: 0 <= v < |vout| ==> vout[v].value == d
  }

  /** 4 to 19 outputs, as many inputs, and one of the five amounts on every output. */
  ghost predicate Mixes(tx: Tx) {
    4 <= |tx.vout| <= 19 && |tx.vin| == |tx.vout| && exists d :: Denomination(d) && AllWorth(tx.vout, d)
  }

  lemma {:induction false} MixesIff(tx: Tx)
    ensures CoinJoin(tx) <==> Mixes(tx)
  {
    if CoinJoin(tx) {
      assert Denomination(tx.vout[0].value) && AllWorth(tx.vout, tx.vout[0].value);
    }
    if Mixes(tx) {
      var d :| Denomination(d) && AllWorth(tx.vout, d);
      assert tx.vout[0].value == d;
    }
  }

  /** What keeps a transaction from mixing: outputs of two values, 3 of them, 20 of them, other
   * than as many inputs, or a value that is no denomination. */
  ghost predicate Plain(tx: Tx) {
    || (exists i, j :: 0 <= i < j < |tx.vout| && tx.vout[i].value != tx.vout[j].value)
    || |tx.vout| == 3 || |tx.vout| == 20 || |tx.vin| != |tx.vout|
    || exists v :: 0 <= v < |tx.vout| && !Denomination(tx.vout[v].value)
  }

  lemma {:induction false} PlainNeverMixes(tx: Tx)
    requires Plain(tx)
    ensures !Mixes(tx)
  {
    forall d | Denomination(d) && 4 <= |tx.vout| <= 19 && |tx.vin| == |tx.vout| ensures !AllWorth(tx.vout, d) {
      if v :| 0 <= v < |tx.vout| && !Denomination(tx.vout[v].value) {
        assert tx.vout[v].value != d;
      } else {
        var i, j :| 0 <= i < j < |tx.vout| && tx.vout[i].value != tx.vout[j].value;
        assert tx.vout[i].value != d || tx.vout[j].value != d;
      }
    }
  }

  /** In every run the flags of a stored transaction, pending or mined, are its own; one that has
   * outputs of two values, or 3 or 20 of them, is not stored as mixing. */
  lemma {:induction false} RunFlags(w: World, events: seq<Event>, t: Tables, x: Hash)
    requires ValidRun(w, [], events) && t == Run(EMPTY, events) && x in t.transactions
    ensures t.transactions[x].coinjoin <==> Mixes(w(x))
    ensures t.transactions[x].multisig == w(x).multisig && t.transactions[x].txType == w(x).txType
    ensures Plain(w(x)) ==> !t.transactions[x].coinjoin
  {
    RunKeepsFlags(w, events);
    MixesIff(w(x));
    if Plain(w(x)) {
      PlainNeverMixes(w(x));
    }
  }

  // ------------------------------------------------------------------- counting

  function IndicesWhere<T>(items: seq<T>, q: T -> bool): set<int> {
    set i | 0 <= i < |items| && q(items[i])
  }

  function CountWhere<T>(items: seq<T>, q: T -> bool): nat {
    |IndicesWhere(items, q)|
  }

  lemma {:induction false} CountNext<T>(items: seq<T>, q: T -> bool)
    requires items != []
    ensures CountWhere(items, q) ==
            CountWhere(items[..|items| - 1], q) + if q(items[|items| - 1]) then 1 else 0
  {
    var n := |items| - 1;
    var before := IndicesWhere(items[..n], q);
    assert IndicesWhere(items, q) == before + if q(items[n]) then {n} else {};
    assert n !in before;
  }

  lemma {:induction false} CountNone<T>(q: T -> bool)
    ensures CountWhere([], q) == 0
  {
    assert IndicesWhere([], q) == {};
  }

  /** Seconds of the hour. */
  predicate DuringHour(hour: int, time: int) { 3600 * hour <= time < 3600 * (hour + 1) }

  lemma {:induction false} HourIs(hour: int, time: int)
    ensures hour == HourOf(time) <==> DuringHour(hour, time)
  {
  }

  // -------------------------------------------------- the rows, block by block

  /** The transactions' part of a row, over the chain. */
  function TxsPart(chain: seq<Mined>, k: RollupKey): Tally {
    if chain == [] then ZERO else
      var m := chain[|chain| - 1];
      Plus(TxsPart(chain[..|chain| - 1], k), StatPart(m.tx, m.time, k))
  }

  function BlocksPart(history: seq<Block>, k: RollupKey): Tally {
    if history == [] then ZERO else
      Plus(BlocksPart(history[..|history| - 1], k), BlockPart(history[|history| - 1], k))
  }

  lemma {:induction false} TxsPartOf(chain: seq<Mined>, b: Block, txs: seq<Tx>, k: RollupKey)
    requires txs <= b.txs
    ensures TxsPart(chain + MinedTxs(b)[..|txs|], k) == Plus(TxsPart(chain, k), TxsTotal(txs, b.time, k))
  {
    if txs == [] {
      assert chain + MinedTxs(b)[..0] == chain;
      PlusLaws(TxsPart(chain, k), ZERO, ZERO);
    } else {
      var n := |txs| - 1;
      TxsPartOf(chain, b, txs[..n], k);
      var all := chain + MinedTxs(b)[..|txs|];
      assert all[..|all| - 1] == chain + MinedTxs(b)[..n];
      assert all[|all| - 1] == Mined(txs[n], b.height, b.time);
      PlusLaws(TxsPart(chain, k), TxsTotal(txs[..n], b.time, k), StatPart(txs[n], b.time, k));
    }
  }

  lemma {:induction false} PlusMiddle(a: Tally, b: Tally, c: Tally, d: Tally)
    ensures Plus(Plus(a, b), Plus(c, d)) == Plus(Plus(a, c), Plus(b, d))
  {
  }

  lemma {:induction false} JoinParts(total: Tally, blocks: Tally, txs: Tally, block: Tally, more: Tally)
    requires total == Plus(blocks, txs)
    ensures Plus(total, Plus(block, more)) == Plus(Plus(blocks, block), Plus(txs, more))
  {
    PlusMiddle(blocks, txs, block, more);
  }

  lemma {:induction false} TxsOfBlock(chain: seq<Mined>, b: Block, longer: seq<Mined>, k: RollupKey)
    requires longer == chain + MinedTxs(b)
    ensures TxsPart(longer, k) == Plus(TxsPart(chain, k), TxsTotal(b.txs, b.time, k))
  {
    TxsPartOf(chain, b, b.txs, k);
    assert MinedTxs(b)[..|b.txs|] == MinedTxs(b);
  }

  lemma {:induction false} StatsSplit(history: seq<Block>, k: RollupKey)
    ensures StatsTotal(history, k) == Plus(BlocksPart(history, k), TxsPart(Flatten(history), k))
  {
    if history == [] {
      PlusLaws(ZERO, ZERO, ZERO);
    } else {
      var before, b := history[..|history| - 1], history[|history| - 1];
      StatsSplit(before, k);
      TxsOfBlock(Flatten(before), b, Flatten(history), k);
      JoinParts(StatsTotal(before, k), BlocksPart(before, k), TxsPart(Flatten(before), k), BlockPart(b, k),
                TxsTotal(b.txs, b.time, k));
    }
  }

  // ------------------------------------------------------------- hourly columns

  ghost function OfHour(hour: int): Mined -> bool {
    (m: Mined) => DuringHour(hour, m.time)
  }

  ghost function SpecialOf(hour: int): Mined -> bool {
    (m: Mined) => DuringHour(hour, m.time) && m.tx.txType > 0
  }

  ghost function MixingOf(hour: int): Mined -> bool {
    (m: Mined) => DuringHour(hour, m.time) && Mixes(m.tx)
  }

  ghost function MultisigOf(hour: int): Mined -> bool {
    (m: Mined) => DuringHour(hour, m.time) && m.tx.multisig
  }

  ghost function NormalOf(hour: int): Mined -> bool {
    (m: Mined) => DuringHour(hour, m.time) && m.tx.txType == 0 && !Mixes(m.tx) && !m.tx.multisig
  }

  function BlockOfHour(hour: int): Block -> bool {
    (b: Block) => DuringHour(hour, b.time)
  }

  function SizesOf(history: seq<Block>, hour: int): int {
    if history == [] then 0 else
      var b := history[|history| - 1];
      SizesOf(history[..|history| - 1], hour) + if DuringHour(hour, b.time) then b.size else 0
  }

  lemma {:induction false} TxsColumns(chain: seq<Mined>, hour: int)
    ensures var x := TxsPart(chain, HourStats(hour));
            && x.txs == CountWhere(chain, OfHour(hour)) && x.special == CountWhere(chain, SpecialOf(hour))
            && x.coinjoin == CountWhere(chain, MixingOf(hour)) && x.multisig == CountWhere(chain, MultisigOf(hour))
            && x.normal == CountWhere(chain, NormalOf(hour)) && x.blocks == x.size == 0
  {
    if chain == [] {
      CountNone(OfHour(hour));
      CountNone(SpecialOf(hour));
      CountNone(MixingOf(hour));
      CountNone(MultisigOf(hour));
      CountNone(NormalOf(hour));
    } else {
      var m := chain[|chain| - 1];
      TxsColumns(chain[..|chain| - 1], hour);
      CountNext(chain, OfHour(hour));
      CountNext(chain, SpecialOf(hour));
      CountNext(chain, MixingOf(hour));
      CountNext(chain, MultisigOf(hour));
      CountNext(chain, NormalOf(hour));
      HourIs(hour, m.time);
      MixesIff(m.tx);
    }
  }

  lemma {:induction false} BlockColumns(history: seq<Block>, hour: int)
    ensures var x := BlocksPart(history, HourStats(hour));
            && x.blocks == CountWhere(history, BlockOfHour(hour)) && x.size == SizesOf(history, hour)
            && x.txs == x.special == x.coinjoin == x.multisig == x.normal == 0
  {
    if history == [] {
      CountNone(BlockOfHour(hour));
    } else {
      BlockColumns(history[..|history| - 1], hour);
      CountNext(history, BlockOfHour(hour));
      HourIs(hour, history[|history| - 1].time);
    }
  }

  lemma {:induction false} NoWalk(w: World, rpc: Rpc, chain: seq<Mined>, k: RollupKey)
    requires !HasAddress(k)
    ensures WalkTotal(w, rpc, chain, k) == ZERO
  {
    if chain != [] {
      NoWalk(w, rpc, chain[..|chain| - 1], k);
    }
  }

  lemma {:induction false} StatRowIs(w: World, rpc: Rpc, events: seq<Event>, t: Tables, k: RollupKey)
    requires ValidRun(w, [], events) && Mining(w, events, rpc) && t == Run(EMPTY, events) && !HasAddress(k)
    ensures At(t.rollups, k) == Plus(BlocksPart(HistoryOf(events), k), TxsPart(ChainOf(events), k))
  {
    RunAccounted(w, rpc, events, t);
    ChainIsHistory(events);
    NoWalk(w, rpc, ChainOf(events), k);
    StatsSplit(HistoryOf(events), k);
    PlusLaws(StatsTotal(HistoryOf(events), k), ZERO, ZERO);
  }

  lemma {:induction false} HourRow(history: seq<Block>, chain: seq<Mined>, hour: int, row: Tally)
    requires row == Plus(BlocksPart(history, HourStats(hour)), TxsPart(chain, HourStats(hour)))
    ensures row.txs == CountWhere(chain, OfHour(hour)) && row.special == CountWhere(chain, SpecialOf(hour))
    ensures row.coinjoin == CountWhere(chain, MixingOf(hour)) && row.multisig == CountWhere(chain, MultisigOf(hour))
    ensures row.normal == CountWhere(chain, NormalOf(hour)) && row.blocks == CountWhere(history, BlockOfHour(hour))
    ensures row.size == SizesOf(history, hour)
  {
    TxsColumns(chain, hour);
    BlockColumns(history, hour);
  }

  /** In every run an hourly row counts the mined transactions and blocks of its hour: all of
   * them, the special, the mixing, the multisig and the other ones. */
  lemma {:induction false} RunHourCounts(w: World, rpc: Rpc, events: seq<Event>, t: Tables, hour: int)
    requires ValidRun(w, [], events) && Mining(w, events, rpc) && t == Run(EMPTY, events)
    ensures var row, chain, history := At(t.rollups, HourStats(hour)), ChainOf(events), HistoryOf(events);
            && row.txs == CountWhere(chain, OfHour(hour)) && row.special == CountWhere(chain, SpecialOf(hour))
            && row.coinjoin == CountWhere(chain, MixingOf(hour)) && row.multisig == CountWhere(chain, MultisigOf(hour))
            && row.normal == CountWhere(chain, NormalOf(hour)) && row.blocks == CountWhere(history, BlockOfHour(hour))
            && row.size == SizesOf(history, hour)
  {
    StatRowIs(w, rpc, events, t, HourStats(hour));
    HourRow(HistoryOf(events), ChainOf(events), hour, At(t.rollups, HourStats(hour)));
  }

  ghost function OfType(ty: nat, mixing: bool, multisig: bool): Mined -> bool {
    (m: Mined) => m.tx.txType == ty && Mixes(m.tx) == mixing && m.tx.multisig == multisig
  }

  lemma {:induction false} TypeColumn(chain: seq<Mined>, ty: nat, mixing: bool, multisig: bool)
    ensures TxsPart(chain, TypeCount(ty, mixing, multisig)).txs == CountWhere(chain, OfType(ty, mixing, multisig))
  {
    if chain == [] {
      CountNone(OfType(ty, mixing, multisig));
    } else {
      TypeColumn(chain[..|chain| - 1], ty, mixing, multisig);
      CountNext(chain, OfType(ty, mixing, multisig));
      MixesIff(chain[|chain| - 1].tx);
    }
  }

  lemma {:induction false} NoBlockTypes(history: seq<Block>, k: RollupKey)
    requires !k.HourStats?
    ensures BlocksPart(history, k) == ZERO
  {
    if history != [] {
      NoBlockTypes(history[..|history| - 1], k);
    }
  }

  lemma {:induction false} TypeRow(history: seq<Block>, chain: seq<Mined>, ty: nat, mixing: bool, multisig: bool,
                                   row: Tally)
    requires row == Plus(BlocksPart(history, TypeCount(ty, mixing, multisig)),
                         TxsPart(chain, TypeCount(ty, mixing, multisig)))
    ensures row.txs == CountWhere(chain, OfType(ty, mixing, multisig))
  {
    NoBlockTypes(history, TypeCount(ty, mixing, multisig));
    TypeColumn(chain, ty, mixing, multisig);
  }

  /** In every run a type row counts the mined transactions with that type and those flags. */
  lemma {:induction false} RunTypeCounts(w: World, rpc: Rpc, events: seq<Event>, t: Tables, ty: nat, mixing: bool,
                                         multisig: bool)
    requires ValidRun(w, [], events) && Mining(w, events, rpc) && t == Run(EMPTY, events)
    ensures At(t.rollups, TypeCount(ty, mixing, multisig)).txs ==
            CountWhere(ChainOf(events), OfType(ty, mixing, multisig))
  {
    StatRowIs(w, rpc, events, t, TypeCount(ty, mixing, multisig));
    TypeRow(HistoryOf(events), ChainOf(events), ty, mixing, multisig, At(t.rollups, TypeCount(ty, mixing, multisig)));
  }

  /** Where no mined transaction mixes, the hour's column stays empty. */
  lemma {:induction false} RunPlainHour(w: World, rpc: Rpc, events: seq<Event>, t: Tables, hour: int)
    requires ValidRun(w, [], events) && Mining(w, events, rpc) && t == Run(EMPTY, events)
    requires forall m :: m in ChainOf(events) && DuringHour(hour, m.time) ==> Plain(m.tx)
    ensures At(t.rollups, HourStats(hour)).coinjoin == 0
  {
    RunHourCounts(w, rpc, events, t, hour);
    NoneMixes(ChainOf(events), hour);
  }

  lemma {:induction false} NoneMixes(chain: seq<Mined>, hour: int)
    requires forall m :: m in chain && DuringHour(hour, m.time) ==> Plain(m.tx)
    ensures CountWhere(chain, MixingOf(hour)) == 0
  {
    forall i | 0 <= i < |chain| ensures !MixingOf(hour)(chain[i]) {
      assert chain[i] in chain;
      if DuringHour(hour, chain[i].time) {
        PlainNeverMixes(chain[i].tx);
      }
    }
    assert IndicesWhere(chain, MixingOf(hour)) == {};
  }
}
