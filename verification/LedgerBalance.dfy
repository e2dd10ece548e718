/** Coins are conserved: what an address holds is what it received less what it sent. */
module LedgerBalance {
  import opened Prelude
  import opened Rollups
  import opened Ledger
  import opened LedgerFacts
  import opened LedgerInvariants
  import opened LedgerMine
  import opened LedgerSee
  import opened LedgerRuns
  import opened LedgerDeltas
  import opened LedgerBatches
  import opened LedgerTotals

  // -------------------------------------------------------------- sums of coins

  function Weight(c: Coin, a: Address): int {
    if c.address == Some(a) then c.amount else 0
  }

  /** SELECT SUM(amount) FROM utxo WHERE address_id = a. */
  ghost function Holding(coins: CoinTable, a: Address): int {
    if coins == map[] then 0 else
      var o :| o in coins;
      Weight(coins[o], a) + Holding(coins - {o}, a)
  }

  lemma {:induction false} TakeOut(coins: CoinTable, a: Address, o: Outpoint)
    requires o in coins
    ensures Holding(coins, a) == Weight(coins[o], a) + Holding(coins - {o}, a)
    decreases |coins|
  {
    var p :| p in coins && Holding(coins, a) == Weight(coins[p], a) + Holding(coins - {p}, a);
    if p != o {
      TakeOut(coins - {p}, a, o);
      TakeOut(coins - {o}, a, p);
      assert coins - {p} - {o} == coins - {o} - {p};
    }
  }

  lemma {:induction false} PutIn(coins: CoinTable, a: Address, o: Outpoint, c: Coin)
    requires o !in coins
    ensures Holding(coins[o := c], a) == Weight(c, a) + Holding(coins, a)
  {
    TakeOut(coins[o := c], a, o);
    assert coins[o := c] - {o} == coins;
  }

  lemma {:induction false} CoinsStep(id: int, vout: seq<TxOut>)
    requires vout != []
    ensures var n := |vout| - 1;
            && Outpoint(id, n) !in CoinsOf(TxOutputs(id, vout[..n]))
            && CoinsOf(TxOutputs(id, vout)) ==
               CoinsOf(TxOutputs(id, vout[..n]))[Outpoint(id, n) := Coin(vout[n].address, vout[n].value)]
  {
  }

  lemma {:induction false} UnionUpdate(x: CoinTable, y: CoinTable, o: Outpoint, c: Coin)
    ensures x + y[o := c] == (x + y)[o := c]
  {
  }

  lemma {:induction false} PayInStep(coins: CoinTable, before: CoinTable, after: CoinTable, a: Address, o: Outpoint,
                                     c: Coin)
    requires o !in coins && o !in before && after == before[o := c]
    ensures Holding(coins + after, a) == Holding(coins + before, a) + Weight(c, a)
  {
    UnionUpdate(coins, before, o, c);
    PutIn(coins + before, a, o, c);
  }

  /** Adding a new transaction's outputs adds what it pays. */
  lemma {:induction false} PayIn(coins: CoinTable, id: int, vout: seq<TxOut>, a: Address)
    requires forall o :: o in coins ==> o.txId != id
    ensures Holding(coins + CoinsOf(TxOutputs(id, vout)), a) == Holding(coins, a) + PaidTo(vout, a)
  {
    if vout == [] {
      assert coins + CoinsOf(TxOutputs(id, vout)) == coins;
    } else {
      var n := |vout| - 1;
      var before := CoinsOf(TxOutputs(id, vout[..n]));
      var c := Coin(vout[n].address, vout[n].value);
      PayIn(coins, id, vout[..n], a);
      CoinsStep(id, vout);
      PayInStep(coins, before, CoinsOf(TxOutputs(id, vout)), a, Outpoint(id, n), c);
    }
  }

  /** What an input takes out of the coins it finds. */
  function TakenBy(coins: CoinTable, tr: TxTable, input: TxIn, a: Address): int {
    if input.Spend? && input.prevHash in tr && Outpoint(tr[input.prevHash].id, input.prevVout) in coins
    then Weight(coins[Outpoint(tr[input.prevHash].id, input.prevVout)], a) else 0
  }

  function Taken(coins: CoinTable, tr: TxTable, vin: seq<TxIn>, a: Address): int {
    if vin == [] then 0 else Taken(coins, tr, vin[..|vin| - 1], a) + TakenBy(coins, tr, vin[|vin| - 1], a)
  }

  predicate DistinctSpends(vin: seq<TxIn>) {
    forall j, k :: 0 <= j < k < |vin| && vin[j].Spend? ==> vin[j] != vin[k]
  }

  lemma {:induction false} NotYetSpent(tr: TxTable, next: int, id: int, vin: seq<TxIn>, n: nat)
    requires IdsOk(tr, next) && DistinctSpends(vin) && n < |vin| && vin[n].Spend? && vin[n].prevHash in tr
    ensures Outpoint(tr[vin[n].prevHash].id, vin[n].prevVout) !in Targets(MarksUpTo(tr, id, vin[..n]))
  {
    var o := Outpoint(tr[vin[n].prevHash].id, vin[n].prevVout);
    var marks := MarksUpTo(tr, id, vin[..n]);
    if o in Targets(marks) {
      var i :| 0 <= i < |marks| && marks[i].outpoint == o;
      MarksOfOne(tr, id, vin[..n], marks[i]);
      assert false;
    }
  }

  lemma {:induction false} TargetsStep(tr: TxTable, id: int, vin: seq<TxIn>)
    requires vin != []
    ensures var n := |vin| - 1;
            Targets(MarksUpTo(tr, id, vin)) == Targets(MarksUpTo(tr, id, vin[..n])) +
              if vin[n].Spend? && vin[n].prevHash in tr then {Outpoint(tr[vin[n].prevHash].id, vin[n].prevVout)} else {}
  {
    var n := |vin| - 1;
    var before, all := MarksUpTo(tr, id, vin[..n]), MarksUpTo(tr, id, vin);
    forall i | 0 <= i < |before| ensures all[i] == before[i] { }
    forall o | o in Targets(before) ensures o in Targets(all) {
      var i :| 0 <= i < |before| && before[i].outpoint == o;
      assert all[i].outpoint == o;
    }
    if vin[n].Spend? && vin[n].prevHash in tr {
      assert all[|before|].outpoint == Outpoint(tr[vin[n].prevHash].id, vin[n].prevVout);
    }
    forall o | o in Targets(all)
      ensures o in Targets(before)
              || (vin[n].Spend? && vin[n].prevHash in tr && o == Outpoint(tr[vin[n].prevHash].id, vin[n].prevVout))
    {
      var i :| 0 <= i < |all| && all[i].outpoint == o;
      if i < |before| { assert before[i].outpoint == o; }
    }
  }

  /** Removing a transaction's spent outpoints removes what its inputs find there. */
  lemma {:induction false} PayOut(coins: CoinTable, tr: TxTable, next: int, id: int, vin: seq<TxIn>, a: Address)
    requires IdsOk(tr, next) && DistinctSpends(vin)
    ensures Holding(coins - Targets(MarksUpTo(tr, id, vin)), a) == Holding(coins, a) - Taken(coins, tr, vin, a)
  {
    if vin == [] {
      assert coins - Targets(MarksUpTo(tr, id, vin)) == coins;
    } else {
      var n := |vin| - 1;
      assert DistinctSpends(vin[..n]);
      PayOut(coins, tr, next, id, vin[..n], a);
      TargetsStep(tr, id, vin);
      var left := coins - Targets(MarksUpTo(tr, id, vin[..n]));
      if vin[n].Spend? && vin[n].prevHash in tr {
        var o := Outpoint(tr[vin[n].prevHash].id, vin[n].prevVout);
        NotYetSpent(tr, next, id, vin, n);
        assert coins - Targets(MarksUpTo(tr, id, vin)) == left - {o};
        if o in coins {
          TakeOut(left, a, o);
        } else {
          assert left - {o} == left;
        }
      } else {
        assert coins - Targets(MarksUpTo(tr, id, vin)) == left;
      }
    }
  }

  // ----------------------------------------------------------- the chain's coins

  /** The coins left by the chain alone, one transaction at a time. */
  function ChainCoins(tr: TxTable, chain: seq<Mined>): CoinTable
    requires AllKnown(tr, chain)
  {
    if chain == [] then map[] else
      var m := chain[|chain| - 1];
      var id := tr[m.tx.txid].id;
      ChainCoins(tr, chain[..|chain| - 1]) + CoinsOf(TxOutputs(id, m.tx.vout)) - Targets(MarksUpTo(tr, id, m.tx.vin))
  }

  /** Outpoint `o` was created by the chain and never spent by it. */
  ghost predicate Left(tr: TxTable, w: World, chain: seq<Mined>, o: Outpoint) {
    CreatedBy(tr, w, chain, o) && !SpentByBatch(tr, w, chain, o)
  }

  /** Every input spends an output that an earlier transaction of the chain created. */
  ghost predicate Closed(w: World, chain: seq<Mined>) {
    forall i, k :: 0 <= i < |chain| && 0 <= k < |chain[i].tx.vin| && chain[i].tx.vin[k].Spend? ==>
      && Among(chain[..i], chain[i].tx.vin[k].prevHash)
      && 0 <= chain[i].tx.vin[k].prevVout < |w(chain[i].tx.vin[k].prevHash).vout|
  }

  lemma {:induction false} CreatedByPrefix(tr: TxTable, w: World, chain: seq<Mined>, o: Outpoint)
    requires chain != []
    ensures var before, h := chain[..|chain| - 1], chain[|chain| - 1].tx.txid;
            && (CreatedBy(tr, w, chain, o) <==> CreatedBy(tr, w, before, o) || Creates(tr, w, h, o))
            && (SpentByBatch(tr, w, chain, o) <==>
                SpentByBatch(tr, w, before, o) || exists s :: Spends(tr, w, h, s, o))
  {
    var before, h := chain[..|chain| - 1], chain[|chain| - 1].tx.txid;
    forall g ensures Among(chain, g) <==> Among(before, g) || g == h { AmongPrefix(chain, g); }
    if s :| Spends(tr, w, h, s, o) {
      assert Among(chain, h);
    }
  }

  lemma {:induction false} CoinsAreLeft(tr: TxTable, next: int, w: World, chain: seq<Mined>, o: Outpoint)
    requires IdsOk(tr, next) && AllKnown(tr, chain) && ValidChain(w, chain)
    ensures o in ChainCoins(tr, chain) <==> Left(tr, w, chain, o)
    ensures forall h :: Among(chain, h) && Creates(tr, w, h, o) && o in ChainCoins(tr, chain) ==>
              ChainCoins(tr, chain)[o] == Coin(w(h).vout[o.vout].address, w(h).vout[o.vout].value)
  {
    if chain != [] {
      var before, m := chain[..|chain| - 1], chain[|chain| - 1];
      var h, id := m.tx.txid, tr[m.tx.txid].id;
      assert chain == before + [m];
      TailFacts(w, before, [m]);
      CoinsAreLeft(tr, next, w, before, o);
      CreatedByPrefix(tr, w, chain, o);
      forall g ensures Among(chain, g) <==> Among(before, g) || g == h { AmongPrefix(chain, g); }
      SeeTarget(tr, id, w, m.tx, MarksUpTo(tr, id, m.tx.vin), o);
      assert o in TxOutputs(id, m.tx.vout) <==> Creates(tr, w, h, o) by {
        assert Creates(tr, w, h, o) ==> o == Outpoint(id, o.vout);
      }
      if Creates(tr, w, h, o) {
        OwnOutputUnspent(tr, next, w, chain, o);
      }
    }
  }

  /** No earlier transaction, nor itself, spends an output of the last one. */
  lemma {:induction false} OwnOutputUnspent(tr: TxTable, next: int, w: World, chain: seq<Mined>, o: Outpoint)
    requires IdsOk(tr, next) && ValidChain(w, chain) && chain != []
    requires Creates(tr, w, chain[|chain| - 1].tx.txid, o)
    ensures !SpentByBatch(tr, w, chain, o)
  {
    forall h, s | Among(chain, h) && Holds(tr, w, h, s) && w(h).vin[s.vin].Spend?
      ensures w(h).vin[s.vin].prevHash != chain[|chain| - 1].tx.txid
    {
      var i :| 0 <= i < |chain| && chain[i].tx.txid == h;
      assert chain[i].tx == w(h);
    }
  }

  // ------------------------------------------------------------------ conservation

  /** The RPC answers with the transaction itself, if at all. */
  ghost predicate Agrees(w: World, rpc: Rpc) {
    forall h :: rpc(h).Some? ==> rpc(h).value == w(h)
  }

  lemma {:induction false} TakenIsSpent(coins: CoinTable, tr: TxTable, w: World, rpc: Rpc, before: seq<Mined>, tx: Tx,
                                        a: Address, n: nat)
    requires Agrees(w, rpc) && n <= |tx.vin|
    requires forall k :: 0 <= k < |tx.vin| && tx.vin[k].Spend? ==> FindsCoin(coins, tr, w, before, tx.vin[k])
    ensures Taken(coins, tr, tx.vin[..n], a) == SpentFrom(ChainResolved(w, rpc, before, tx)[..n], a)
  {
    if n > 0 {
      var res := ChainResolved(w, rpc, before, tx);
      assert tx.vin[..n][..n - 1] == tx.vin[..n - 1] && res[..n][..n - 1] == res[..n - 1];
      TakenIsSpent(coins, tr, w, rpc, before, tx, a, n - 1);
      assert tx.vin[n - 1].Spend? ==> FindsCoin(coins, tr, w, before, tx.vin[n - 1]);
    }
  }

  /** The input's output is there, as its transaction made it. */
  ghost predicate FindsCoin(coins: CoinTable, tr: TxTable, w: World, before: seq<Mined>, input: TxIn)
    requires input.Spend?
  {
    && Among(before, input.prevHash) && input.prevHash in tr && 0 <= input.prevVout < |w(input.prevHash).vout|
    && var o := Outpoint(tr[input.prevHash].id, input.prevVout);
       var out := w(input.prevHash).vout[input.prevVout];
       o in coins && coins[o] == Coin(out.address, out.value)
  }

  lemma {:induction false} LastFindsCoins(tr: TxTable, next: int, w: World, before: seq<Mined>, m: Mined, k: int)
    requires IdsOk(tr, next) && AllKnown(tr, before) && AllKnown(tr, before + [m])
    requires ValidChain(w, before + [m]) && Closed(w, before + [m])
    requires 0 <= k < |m.tx.vin| && m.tx.vin[k].Spend?
    ensures FindsCoin(ChainCoins(tr, before) + CoinsOf(TxOutputs(tr[m.tx.txid].id, m.tx.vout)), tr, w, before,
                      m.tx.vin[k])
  {
    var chain, input := before + [m], m.tx.vin[k];
    var h, v := input.prevHash, input.prevVout;
    assert chain[|before|] == m && chain[..|before|] == before;
    assert m in chain && m.tx.txid in tr;
    TailFacts(w, before, [m]);
    assert Among(before, h) && 0 <= v < |w(h).vout|;
    var i :| 0 <= i < |before| && before[i].tx.txid == h;
    assert before[i] in before && h in tr;
    var o := Outpoint(tr[h].id, v);
    assert Creates(tr, w, h, o);
    assert Among([m], m.tx.txid) by { assert [m][0].tx.txid == m.tx.txid; }
    AmongConcat(before, [m]);
    assert !SpentByBatch(tr, w, before, o);
    CoinsAreLeft(tr, next, w, before, o);
    assert o !in TxOutputs(tr[m.tx.txid].id, m.tx.vout);
  }

  /** Along the chain: what an address is left with is what it received less what it sent. */
  lemma {:induction false} ChainHolds(tr: TxTable, next: int, w: World, rpc: Rpc, chain: seq<Mined>, a: Address)
    requires IdsOk(tr, next) && AllKnown(tr, chain) && ValidChain(w, chain) && Closed(w, chain) && Agrees(w, rpc)
    ensures Holding(ChainCoins(tr, chain), a) ==
            WalkTotal(w, rpc, chain, AddressTotal(a)).received - WalkTotal(w, rpc, chain, AddressTotal(a)).sent
  {
    if chain != [] {
      var before, m := chain[..|chain| - 1], chain[|chain| - 1];
      assert chain == before + [m];
      TailFacts(w, before, [m]);
      ClosedPrefix(w, before, m);
      ChainHolds(tr, next, w, rpc, before, a);
      ChainHoldsStep(tr, next, w, rpc, before, m, a);
    }
  }

  lemma {:induction false} ClosedPrefix(w: World, before: seq<Mined>, m: Mined)
    requires Closed(w, before + [m])
    ensures Closed(w, before)
  {
    var chain := before + [m];
    forall i, k | 0 <= i < |before| && 0 <= k < |before[i].tx.vin| && before[i].tx.vin[k].Spend?
      ensures Among(before[..i], before[i].tx.vin[k].prevHash)
      ensures 0 <= before[i].tx.vin[k].prevVout < |w(before[i].tx.vin[k].prevHash).vout|
    {
      assert chain[i] == before[i] && chain[..i] == before[..i];
      assert chain[i].tx.vin[k].Spend?;
    }
  }

  lemma {:induction false} ChainHoldsStep(tr: TxTable, next: int, w: World, rpc: Rpc, before: seq<Mined>, m: Mined,
                                          a: Address)
    requires IdsOk(tr, next) && AllKnown(tr, before) && AllKnown(tr, before + [m])
    requires ValidChain(w, before + [m]) && Closed(w, before + [m]) && Agrees(w, rpc)
    ensures Holding(ChainCoins(tr, before + [m]), a) == Holding(ChainCoins(tr, before), a)
              + PaidTo(m.tx.vout, a) - SpentFrom(ChainResolved(w, rpc, before, m.tx), a)
  {
    var chain := before + [m];
    assert chain[..|chain| - 1] == before && chain[|chain| - 1] == m;
    assert m in chain;
    var id := tr[m.tx.txid].id;
    var earlier, vin := ChainCoins(tr, before), m.tx.vin;
    TailFacts(w, before, [m]);
    forall o | o in earlier ensures o.txId != id {
      CoinsAreLeft(tr, next, w, before, o);
      var h :| Among(before, h) && Creates(tr, w, h, o);
      assert h != m.tx.txid by { assert [m][0].tx.txid == m.tx.txid; assert Among([m], m.tx.txid); }
    }
    PayIn(earlier, id, m.tx.vout, a);
    var coins := earlier + CoinsOf(TxOutputs(id, m.tx.vout));
    LastDistinctSpends(w, before, m);
    PayOut(coins, tr, next, id, vin, a);
    forall k | 0 <= k < |vin| && vin[k].Spend? ensures FindsCoin(coins, tr, w, before, vin[k]) {
      LastFindsCoins(tr, next, w, before, m, k);
    }
    TakenIsSpent(coins, tr, w, rpc, before, m.tx, a, |vin|);
    assert vin[..|vin|] == vin;
    assert ChainResolved(w, rpc, before, m.tx)[..|vin|] == ChainResolved(w, rpc, before, m.tx);
  }

  lemma {:induction false} LastDistinctSpends(w: World, before: seq<Mined>, m: Mined)
    requires ValidChain(w, before + [m])
    ensures DistinctSpends(m.tx.vin)
  {
    var chain := before + [m];
    assert chain[|before|] == m;
    assert Among(chain, m.tx.txid) && m.tx == w(m.tx.txid);
    forall j, k | 0 <= j < k < |m.tx.vin| && m.tx.vin[j].Spend? ensures m.tx.vin[j] != m.tx.vin[k] {
      assert w(m.tx.txid).vin[j].Spend?;
    }
  }

  /** With nothing pending, the UTXO table is exactly what the chain leaves. */
  lemma {:induction false} UtxoIsChainCoins(t: Tables, w: World, chain: seq<Mined>)
    requires Inv(t, w, chain) && forall h :: h in t.transactions ==> t.transactions[h].height.Some?
    ensures AllKnown(t.transactions, chain) && t.utxo == ChainCoins(t.transactions, chain)
  {
    var tr := t.transactions;
    forall m | m in chain ensures m.tx.txid in tr {
      var i :| 0 <= i < |chain| && chain[i] == m;
      assert chain[i].tx.txid in tr;
    }
    forall o
      ensures o in t.utxo <==> o in ChainCoins(tr, chain)
      ensures o in t.utxo ==> t.utxo[o] == ChainCoins(tr, chain)[o]
    {
      CoinsAreLeft(tr, t.nextTxId, w, chain, o);
      OutputLeft(t, w, chain, o);
    }
  }

  lemma {:induction false} OutputLeft(t: Tables, w: World, chain: seq<Mined>, o: Outpoint)
    requires Inv(t, w, chain) && forall h :: h in t.transactions ==> t.transactions[h].height.Some?
    ensures o in t.utxo <==> Left(t.transactions, w, chain, o)
    ensures o in t.utxo ==> exists h :: Among(chain, h) && Creates(t.transactions, w, h, o)
                                        && t.utxo[o] == Coin(w(h).vout[o.vout].address, w(h).vout[o.vout].value)
  {
    var tr := t.transactions;
    if o in t.outputs {
      var h :| Creates(tr, w, h, o);
      assert Confirmed(tr, h) && Among(chain, h);
      if t.outputs[o].spentBy.Some? {
        var s := t.outputs[o].spentBy.value;
        assert SpenderOf(tr, t.inputs, s, o);
        var g :| Holds(tr, w, g, s);
        assert Confirmed(tr, g) && Among(chain, g);
        assert Spends(tr, w, g, s, o);
      } else if g, s :| Among(chain, g) && Spends(tr, w, g, s, o) {
        assert Confirmed(tr, g) && Confirmed(tr, w(g).vin[s.vin].prevHash);
        assert false;
      }
    } else {
      assert !CreatedBy(tr, w, chain, o);
    }
  }

  lemma {:induction false} ClosedParts(w: World, chain: seq<Mined>, txs: seq<Mined>)
    requires Closed(w, chain + txs)
    ensures Closed(w, chain)
    ensures forall i, k :: 0 <= i < |txs| && 0 <= k < |txs[i].tx.vin| && txs[i].tx.vin[k].Spend? ==>
              Among(chain, txs[i].tx.vin[k].prevHash) || Among(txs, txs[i].tx.vin[k].prevHash)
  {
    var all := chain + txs;
    forall i, k | 0 <= i < |chain| && 0 <= k < |chain[i].tx.vin| && chain[i].tx.vin[k].Spend?
      ensures Among(chain[..i], chain[i].tx.vin[k].prevHash)
      ensures 0 <= chain[i].tx.vin[k].prevVout < |w(chain[i].tx.vin[k].prevHash).vout|
    {
      assert all[i] == chain[i] && all[..i] == chain[..i];
      assert all[i].tx.vin[k].Spend?;
    }
    forall i, k | 0 <= i < |txs| && 0 <= k < |txs[i].tx.vin| && txs[i].tx.vin[k].Spend?
      ensures Among(chain, txs[i].tx.vin[k].prevHash) || Among(txs, txs[i].tx.vin[k].prevHash)
    {
      var n, h := |chain| + i, txs[i].tx.vin[k].prevHash;
      assert all[n] == txs[i] && all[n].tx.vin[k].Spend?;
      var j :| 0 <= j < |all[..n]| && all[..n][j].tx.txid == h;
      assert if j < |chain| then chain[j].tx.txid == h else txs[j - |chain|].tx.txid == h;
    }
  }

  /** Of a chain indexed from its first block no parent is missing. */
  lemma {:induction false} ClosedIsAnswered(w: World, rpc: Rpc, events: seq<Event>)
    requires ValidRun(w, [], events) && Closed(w, ChainOf(events))
    ensures Answered(w, events, rpc)
  {
    if events != [] {
      var before, e := events[..|events| - 1], events[|events| - 1];
      ClosedParts(w, ChainOf(before), MinedBy(e));
      ClosedIsAnswered(w, rpc, before);
      ClosedStep(w, rpc, before, e);
      forall i | 0 <= i < |events| && events[i].Batch?
        ensures ParentsAnswered(Run(EMPTY, events[..i]).transactions, w, rpc, Flatten(events[i].blocks))
      {
        if i < |before| {
          assert before[i] == events[i] && before[..i] == events[..i];
        } else {
          assert events[..i] == before && events[i] == e;
        }
      }
    }
  }

  lemma {:induction false} ClosedStep(w: World, rpc: Rpc, before: seq<Event>, e: Event)
    requires ValidRun(w, [], before) && Closed(w, ChainOf(before) + MinedBy(e))
    ensures e.Batch? ==> ParentsAnswered(Run(EMPTY, before).transactions, w, rpc, Flatten(e.blocks))
  {
    ClosedParts(w, ChainOf(before), MinedBy(e));
    RunInv(w, before, Run(EMPTY, before));
  }

  /** Conservation of coins: after any run that indexed the chain from its first
   * block and left nothing pending, every address's UTXO total is its received
   * column less its sent column. */
  lemma {:induction false} CoinsConserved(w: World, rpc: Rpc, events: seq<Event>, t: Tables, a: Address)
    requires ValidRun(w, [], events) && OneRpc(events, rpc) && t == Run(EMPTY, events)
    requires Agrees(w, rpc) && Closed(w, ChainOf(events))
    requires forall h :: h in t.transactions ==> t.transactions[h].height.Some?
    ensures Holding(t.utxo, a) == At(t.rollups, AddressTotal(a)).received - At(t.rollups, AddressTotal(a)).sent
  {
    var chain := ChainOf(events);
    RunInv(w, events, t);
    UtxoIsChainCoins(t, w, chain);
    ChainHolds(t.transactions, t.nextTxId, w, rpc, chain, a);
    ClosedIsAnswered(w, rpc, events);
    AddressRow(w, rpc, events, t, a);
  }

  /** An address row is the walk over the chain. */
  lemma {:induction false} AddressRow(w: World, rpc: Rpc, events: seq<Event>, t: Tables, a: Address)
    requires ValidRun(w, [], events) && Mining(w, events, rpc) && t == Run(EMPTY, events)
    ensures At(t.rollups, AddressTotal(a)) == WalkTotal(w, rpc, ChainOf(events), AddressTotal(a))
  {
    var k, history := AddressTotal(a), HistoryOf(events);
    RunAccounted(w, rpc, events, t);
    ChainIsHistory(events);
    NoStats(history, a);
    assert At(t.rollups, k) == Recomputed(w, rpc, history, k);
    PlusLaws(WalkTotal(w, rpc, Flatten(history), k), ZERO, ZERO);
  }

  /** Block and type statistics do not touch address rows. */
  lemma {:induction false} NoStats(history: seq<Block>, a: Address)
    ensures StatsTotal(history, AddressTotal(a)) == ZERO
  {
    if history != [] {
      NoStats(history[..|history| - 1], a);
      NoTxStats(history[|history| - 1].txs, history[|history| - 1].time, a);
    }
  }

  lemma {:induction false} NoTxStats(txs: seq<Tx>, time: int, a: Address)
    ensures TxsTotal(txs, time, AddressTotal(a)) == ZERO
  {
    if txs != [] {
      NoTxStats(txs[..|txs| - 1], time, a);
    }
  }
}
