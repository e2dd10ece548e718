/** Whole runs: any interleaving of commit batches and mempool transactions. */
module LedgerRuns {
  import opened Prelude
  import opened Rollups
  import opened Ledger
  import opened LedgerFacts
  import opened LedgerInvariants
  import opened LedgerMine
  import opened LedgerSee

  /** Each step carries the answers its RPC fallback gets. */
  datatype Event = Batch(blocks: seq<Block>, rpc: Rpc) | Pending(tx: Tx, rpc: Rpc)

  function Step(t: Tables, e: Event): Tables {
    match e
    case Batch(blocks, rpc) => Mine(t, blocks, rpc)
    case Pending(tx, rpc) => See(t, tx, rpc)
  }

  function Run(t: Tables, events: seq<Event>): Tables {
    if events == [] then t else Step(Run(t, events[..|events| - 1]), events[|events| - 1])
  }

  function MinedBy(e: Event): seq<Mined> {
    match e
    case Batch(blocks, _) => Flatten(blocks)
    case Pending(_, _) => []
  }

  /** The chain confirmed by a run. */
  function ChainOf(events: seq<Event>): seq<Mined> {
    if events == [] then [] else ChainOf(events[..|events| - 1]) + MinedBy(events[|events| - 1])
  }

  /** Batches extend the chain; mempool transactions are arbitrary. */
  ghost predicate ValidEvent(w: World, chain: seq<Mined>, e: Event) {
    match e
    case Batch(blocks, _) => Extends(w, chain, Flatten(blocks))
    case Pending(tx, _) => tx == w(tx.txid)
  }

  ghost predicate ValidRun(w: World, chain: seq<Mined>, events: seq<Event>) {
    events == [] ||
    var before := events[..|events| - 1];
    && ValidRun(w, chain, before)
    && ValidEvent(w, chain + ChainOf(before), events[|events| - 1])
  }

  lemma {:induction false} StepKeeps(t: Tables, w: World, chain: seq<Mined>, e: Event, t': Tables, chain': seq<Mined>)
    requires Inv(t, w, chain) && ValidEvent(w, chain, e)
    requires t' == Step(t, e) && chain' == chain + MinedBy(e)
    ensures Inv(t', w, chain')
  {
    match e
    case Batch(blocks, rpc) => MineKeeps(t, w, chain, blocks, rpc, t', Flatten(blocks));
    case Pending(tx, rpc) =>
      assert chain' == chain;
      SeeKeeps(t, w, chain, tx, rpc);
  }

  lemma {:induction false} ChainOfSplit(chain: seq<Mined>, events: seq<Event>)
    requires events != []
    ensures chain + ChainOf(events) == chain + ChainOf(events[..|events| - 1]) + MinedBy(events[|events| - 1])
  {
    var before, last := ChainOf(events[..|events| - 1]), MinedBy(events[|events| - 1]);
    assert chain + (before + last) == chain + before + last;
  }

  lemma {:induction false} RunKeepsFrom(t: Tables, w: World, chain: seq<Mined>, events: seq<Event>, t': Tables,
                                        chain': seq<Mined>)
    requires Inv(t, w, chain) && ValidRun(w, chain, events)
    requires t' == Run(t, events) && chain' == chain + ChainOf(events)
    ensures Inv(t', w, chain')
  {
    if events == [] {
      assert t' == t && chain' == chain;
    } else {
      var before, e := events[..|events| - 1], events[|events| - 1];
      var mid, midChain := Run(t, before), chain + ChainOf(before);
      ChainOfSplit(chain, events);
      RunKeepsFrom(t, w, chain, before, mid, midChain);
      StepKeeps(mid, w, midChain, e, t', chain');
    }
  }

  /** Every state of every run over a valid chain satisfies the invariant. */
  lemma {:induction false} RunKeeps(t: Tables, w: World, chain: seq<Mined>, events: seq<Event>)
    requires Inv(t, w, chain) && ValidRun(w, chain, events)
    ensures Inv(Run(t, events), w, chain + ChainOf(events))
  {
    RunKeepsFrom(t, w, chain, events, Run(t, events), chain + ChainOf(events));
  }

  /** The fast UTXO table always equals its slow definition: in every reachable
   * state an outpoint is in it exactly when it is an output of an indexed
   * transaction that no indexed spender is recorded on, with that output's
   * address and value. */
  lemma {:induction false} UtxoIsUnspent(w: World, events: seq<Event>)
    requires ValidRun(w, [], events)
    ensures var t := Run(EMPTY, events);
            && (forall o :: o in t.utxo <==> o in t.outputs && t.outputs[o].spentBy.None?)
            && (forall o :: o in t.utxo ==> t.utxo[o] == Coin(t.outputs[o].address, t.outputs[o].value))
            && (forall o :: o in t.outputs <==> exists h :: Creates(t.transactions, w, h, o))
  {
    EmptyInv(w);
    RunKeeps(EMPTY, w, [], events);
    var t := Run(EMPTY, events);
    assert t.utxo == UtxoOf(t.outputs);
  }

  // -------------------------------------------------------- spender precedence

  /** From `t` to `t'`: a confirmed spender is final, and a pending one is only
   * ever replaced by a confirmed one. */
  ghost predicate Precedence(t: Tables, t': Tables) {
    && ConfirmedIdsStay(t.transactions, t'.transactions)
    && SpendersStay(t.transactions, t'.transactions, t.outputs, t'.outputs)
  }

  /** Confirmed ids stay confirmed. */
  ghost predicate ConfirmedIdsStay(tr: TxTable, tr': TxTable) {
    forall id :: IsConfirmedId(tr, id) ==> IsConfirmedId(tr', id)
  }

  /** Outputs stay, and recorded spenders take precedence. */
  ghost predicate SpendersStay(tr: TxTable, tr': TxTable, outs: OutTable, outs': OutTable) {
    && (forall o :: o in outs ==> o in outs')
    && (forall o :: o in outs && outs[o].spentBy.Some? ==>
          SpenderKept(tr, tr', outs[o].spentBy.value, outs'[o].spentBy))
  }

  ghost predicate SpenderKept(tr: TxTable, tr': TxTable, s: Slot, after: Option<Slot>) {
    && after.Some?
    && (IsConfirmedId(tr, s.txId) ==> after.value == s)
    && (after.value != s ==> IsConfirmedId(tr', after.value.txId))
  }

  lemma {:induction false} PrecedenceTransitive(a: Tables, b: Tables, c: Tables)
    requires Precedence(a, b) && Precedence(b, c)
    ensures Precedence(a, c)
  {
    forall o | o in a.outputs && a.outputs[o].spentBy.Some?
      ensures SpenderKept(a.transactions, c.transactions, a.outputs[o].spentBy.value, c.outputs[o].spentBy)
    {
      var s, r := a.outputs[o].spentBy.value, b.outputs[o].spentBy.value;
      assert SpenderKept(a.transactions, b.transactions, s, b.outputs[o].spentBy);
      assert SpenderKept(b.transactions, c.transactions, r, c.outputs[o].spentBy);
    }
  }

  lemma {:induction false} MineSpenderKept(tr: TxTable, tr': TxTable, next: int, w: World, chain: seq<Mined>,
                                           txs: seq<Mined>, outs: OutTable, outs': OutTable, ins: InTable, o: Outpoint)
    requires IdsOk(tr', next) && Advances(tr, tr', txs) && SpentAfter(tr', w, txs, outs, outs')
    requires Follows(tr, chain) && ValidChain(w, chain + txs) && InsOk(tr, w, ins) && SpendersReal(tr, outs, ins)
    requires o in outs && outs[o].spentBy.Some? && o in outs'
    ensures SpenderKept(tr, tr', outs[o].spentBy.value, outs'[o].spentBy)
  {
    var s := outs[o].spentBy.value;
    assert SpenderOf(tr, ins, s, o);
    var h :| Holds(tr, w, h, s);
    if SpentByBatch(tr', w, txs, o) {
      var r := outs'[o].spentBy.value;
      var f :| Among(txs, f) && Spends(tr', w, f, r, o);
      assert Confirmed(tr', f) && tr'[f].id == r.txId;
      if IsConfirmedId(tr, s.txId) {
        assert Among(chain, h);
        assert Spends(tr', w, h, s, o);
        AmongConcat(chain, txs);
        SameSpender(tr', next, w, chain + txs, h, s, f, r, o);
      }
    }
  }

  lemma {:induction false} MineSpendersStay(tr: TxTable, tr': TxTable, next: int, w: World, chain: seq<Mined>,
                                            txs: seq<Mined>, outs: OutTable, outs': OutTable, ins: InTable)
    requires IdsOk(tr', next) && Advances(tr, tr', txs) && SpentAfter(tr', w, txs, outs, outs')
    requires Follows(tr, chain) && ValidChain(w, chain + txs) && InsOk(tr, w, ins) && SpendersReal(tr, outs, ins)
    requires forall o :: o in outs ==> o in outs'
    ensures SpendersStay(tr, tr', outs, outs')
  {
    forall o | o in outs && outs[o].spentBy.Some?
      ensures SpenderKept(tr, tr', outs[o].spentBy.value, outs'[o].spentBy)
    {
      MineSpenderKept(tr, tr', next, w, chain, txs, outs, outs', ins, o);
    }
  }

  /** A mempool transaction leaves recorded spenders as they are. */
  lemma {:induction false} SeeSpendersStay(tr: TxTable, tr': TxTable, rows: OutTable, outs: OutTable, marks: seq<Mark>,
                                           outs': OutTable)
    requires outs' == MarkSpent(rows + outs, marks, false)
    ensures SpendersStay(tr, tr', outs, outs')
  {
    forall o | o in outs && outs[o].spentBy.Some? ensures outs'[o].spentBy == outs[o].spentBy {
      assert (rows + outs)[o] == outs[o];
    }
  }

  lemma {:induction false} MineConfirmedIds(t: Tables, blocks: seq<Block>, rpc: Rpc, t': Tables, txs: seq<Mined>)
    requires t' == Mine(t, blocks, rpc) && txs == Flatten(blocks) != []
    requires Distinct(txs) && IdsOk(t.transactions, t.nextTxId)
    ensures ConfirmedIdsStay(t.transactions, t'.transactions)
  {
    var _, _ := BatchRows(t, blocks, rpc, t', txs);
    forall id | IsConfirmedId(t.transactions, id) ensures IsConfirmedId(t'.transactions, id) {
      StillPending(t.transactions, t.nextTxId, txs, id);
    }
  }

  lemma {:induction false} SeeConfirmedIds(tr: TxTable, tr': TxTable, next: int, w: World, tx: Tx)
    requires IdsOk(tr, next) && tx == w(tx.txid) && tx.txid !in tr && tr' == tr[tx.txid := NewRow(next, None, tx)]
    ensures ConfirmedIdsStay(tr, tr')
  {
    forall id | IsConfirmedId(tr, id) ensures IsConfirmedId(tr', id) {
      SeeIds(tr, tr', next, w, tx, id);
    }
  }

  lemma {:induction false} MinePrecedence(t: Tables, w: World, chain: seq<Mined>, blocks: seq<Block>, rpc: Rpc,
                                          t': Tables)
    requires Inv(t, w, chain) && Extends(w, chain, Flatten(blocks)) && t' == Mine(t, blocks, rpc)
    ensures Precedence(t, t')
  {
    var txs := Flatten(blocks);
    if txs != [] {
      var tr, tr' := t.transactions, t'.transactions;
      TailFacts(w, chain, txs);
      MineStructure(t, w, blocks, rpc, t', txs);
      MineConfirmedIds(t, blocks, rpc, t', txs);
      MineSpendersStay(tr, tr', t'.nextTxId, w, chain, txs, t.outputs, t'.outputs, t.inputs);
    }
  }

  lemma {:induction false} SeePrecedence(t: Tables, w: World, tx: Tx, rpc: Rpc, t': Tables)
    requires Structure(t, w) && tx == w(tx.txid) && t' == See(t, tx, rpc)
    ensures Precedence(t, t')
  {
    if tx.txid !in t.transactions {
      var tr' := t.transactions[tx.txid := NewRow(t.nextTxId, None, tx)];
      var rows := TxOutputs(t.nextTxId, tx.vout);
      SeeStructure(t, w, tx, rpc, tr', rows);
      SeeTables(t, tx, rpc, tr', rows);
      SeeConfirmedIds(t.transactions, tr', t.nextTxId, w, tx);
      SeeSpendersStay(t.transactions, tr', rows, t.outputs, MarksUpTo(tr', t.nextTxId, tx.vin), t'.outputs);
    }
  }

  /** Over any continuation of any run: once a confirmed spender is recorded it
   * never changes, and a pending spender only ever gives way to a confirmed one. */
  lemma {:induction false} SpenderPrecedence(t: Tables, w: World, chain: seq<Mined>, events: seq<Event>)
    requires Inv(t, w, chain) && ValidRun(w, chain, events)
    ensures Precedence(t, Run(t, events))
  {
    if events != [] {
      var before, e := events[..|events| - 1], events[|events| - 1];
      var mid := Run(t, before);
      SpenderPrecedence(t, w, chain, before);
      RunKeeps(t, w, chain, before);
      match e {
        case Batch(blocks, rpc) => MinePrecedence(mid, w, chain + ChainOf(before), blocks, rpc, Run(t, events));
        case Pending(tx, rpc) => SeePrecedence(mid, w, tx, rpc, Run(t, events));
      }
      PrecedenceTransitive(t, mid, Run(t, events));
    }
  }

  /** Every spender recorded by a run is an indexed input that names the outpoint's
   * transaction by hash and the output by index. */
  lemma {:induction false} SpenderHasInput(w: World, events: seq<Event>, o: Outpoint)
    requires ValidRun(w, [], events)
    requires o in Run(EMPTY, events).outputs && Run(EMPTY, events).outputs[o].spentBy.Some?
    ensures var t := Run(EMPTY, events);
            var s := t.outputs[o].spentBy.value;
            exists h :: Spends(t.transactions, w, h, s, o)
  {
    EmptyInv(w);
    RunKeeps(EMPTY, w, [], events);
    var t := Run(EMPTY, events);
    var s := t.outputs[o].spentBy.value;
    assert SpenderOf(t.transactions, t.inputs, s, o);
    var h :| Holds(t.transactions, w, h, s);
    assert Spends(t.transactions, w, h, s, o);
  }

  /** How many rows a run's statements insert or try to. */
  function Drawn(events: seq<Event>): nat {
    if events == [] then 0 else
      Drawn(events[..|events| - 1])
        + match events[|events| - 1] { case Batch(blocks, _) => TxCount(blocks) case Pending(_, _) => 1 }
  }

  function TxCount(blocks: seq<Block>): nat {
    if blocks == [] then 0 else TxCount(blocks[..|blocks| - 1]) + |blocks[|blocks| - 1].txs|
  }

  lemma {:induction false} FlattenLength(blocks: seq<Block>)
    ensures |Flatten(blocks)| == TxCount(blocks)
  {
    if blocks != [] {
      FlattenLength(blocks[..|blocks| - 1]);
    }
  }

  /** The serial counter advances with every transaction a run is given, known or not. */
  lemma {:induction false} RunDrawsIds(t: Tables, events: seq<Event>)
    ensures Run(t, events).nextTxId == t.nextTxId + Drawn(events)
  {
    if events != [] {
      var before, e := events[..|events| - 1], events[|events| - 1];
      RunDrawsIds(t, before);
      StepDraws(Run(t, before), e);
    }
  }

  lemma {:induction false} StepDraws(t: Tables, e: Event)
    ensures Step(t, e).nextTxId ==
            t.nextTxId + match e { case Batch(blocks, _) => TxCount(blocks) case Pending(_, _) => 1 }
  {
    if e.Batch? {
      FlattenLength(e.blocks);
    }
  }
}
