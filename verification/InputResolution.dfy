/** Phase 6 of `write_batch`: every spent outpoint is resolved from four sources in
 * turn, the batch itself, the persistent cache, the tables and the RPC, and the
 * answer is that of the direct lookup, whatever the cache holds. */
module InputResolution {
  import opened Prelude
  import opened Rollups
  import opened Ledger
  import opened LedgerFacts
  import opened LedgerInvariants
  import opened LedgerDeltas
  import opened LedgerBatches
  import opened UtxoCaching
  import opened Storage

  /** The cache agrees with the tables: ids and cached outputs are the stored ones. */
  predicate Coherent(c: Cache, tr: TxTable, outs: OutTable) {
    && (forall h :: h in c.hashToId ==> IdOf(tr, h) == Some(c.hashToId[h]))
    && (forall o :: o in c.byId ==> Agrees(outs, o, c.byId[o].address) && outs[o].value == c.byId[o].value)
  }

  predicate Agrees(outs: OutTable, o: Outpoint, a: Address) {
    o in outs && outs[o].address == Some(a)
  }

  // ------------------------------------------------- the in-memory output index

  /** output_cache and output_values hold stored outputs; whatever has an address
   * there has a value too. */
  ghost predicate SoundIndex(view: OutTable, oc: map<Outpoint, Address>, ov: map<Outpoint, int>) {
    && (forall o :: o in oc ==> Agrees(view, o, oc[o]) && o in ov)
    && (forall o :: o in ov ==> o in view && view[o].value == ov[o])
  }

  ghost predicate TxInView(view: OutTable, id: int, vout: seq<TxOut>) {
    forall v :: 0 <= v < |vout| ==> Outpoint(id, v) in view && SameOut(view[Outpoint(id, v)], vout[v])
  }

  ghost predicate OutsAgree(view: OutTable, id: int, outs: seq<CachedOut>) {
    forall i :: 0 <= i < |outs| ==>
      Agrees(view, Outpoint(id, outs[i].vout), outs[i].address)
        && view[Outpoint(id, outs[i].vout)].value == outs[i].value
  }

  lemma {:induction false} EntriesCoherent(byId: map<Outpoint, Entry>, id: int, outs: seq<CachedOut>, view: OutTable,
                                           o: Outpoint)
    requires forall p :: p in byId ==> Agrees(view, p, byId[p].address) && view[p].value == byId[p].value
    requires OutsAgree(view, id, outs) && o in PutEntries(byId, id, outs)
    ensures var e := PutEntries(byId, id, outs)[o];
            Agrees(view, o, e.address) && view[o].value == e.value
  {
    if outs != [] {
      var n := |outs| - 1;
      if o != Outpoint(id, outs[n].vout) {
        EntriesCoherent(byId, id, outs[..n], view, o);
      }
    }
  }

  lemma {:induction false} InsertCoherent(c: Cache, max: nat, h: Hash, id: int, outs: seq<CachedOut>, tr: TxTable,
                                          view: OutTable)
    requires Coherent(c, tr, view) && IdOf(tr, h) == Some(id) && OutsAgree(view, id, outs)
    ensures Coherent(Inserted(c, max, h, id, outs), tr, view)
  {
    if !Skips(c, max, outs) {
      forall o | o in PutEntries(c.byId, id, outs)
        ensures var e := PutEntries(c.byId, id, outs)[o];
                Agrees(view, o, e.address) && view[o].value == e.value
      {
        EntriesCoherent(c.byId, id, outs, view, o);
      }
    }
  }

  /** What the cache is given of a transaction: its outputs that have an address. */
  function ForCache(vout: seq<TxOut>): seq<CachedOut> {
    if vout == [] then [] else
      var j := |vout| - 1;
      ForCache(vout[..j]) +
      if vout[j].address.Some? then [CachedOut(j, vout[j].address.value, vout[j].value)] else []
  }

  /** Every output with an address, under its own index, and nothing else. */
  lemma {:induction false} ForCacheIs(vout: seq<TxOut>, c: CachedOut)
    ensures c in ForCache(vout) <==> 0 <= c.vout < |vout| && vout[c.vout] == TxOut(Some(c.address), c.value)
  {
    if vout != [] {
      ForCacheIs(vout[..|vout| - 1], c);
    }
  }

  /** The cache once all of the batch's transactions were inserted, in block order. */
  function FilledCache(c: Cache, max: nat, tr: TxTable, txs: seq<Mined>): Cache
    requires AllKnown(tr, txs)
  {
    if txs == [] then c else
      var m := txs[|txs| - 1];
      Inserted(FilledCache(c, max, tr, txs[..|txs| - 1]), max, m.tx.txid, tr[m.tx.txid].id, ForCache(m.tx.vout))
  }

  /** The index has gained `id`'s first `n` outputs, under their addresses where they have one. */
  ghost predicate Gained(view: OutTable, id: int, n: int, oc0: map<Outpoint, Address>, ov0: map<Outpoint, int>,
                         oc: map<Outpoint, Address>, ov: map<Outpoint, int>) {
    && (forall o :: o in ov <==> o in ov0 || (o.txId == id && 0 <= o.vout < n))
    && (forall o :: o in oc <==> o in oc0 || (o.txId == id && 0 <= o.vout < n && o in view && view[o].address.Some?))
  }

  function WithAddress(oc: map<Outpoint, Address>, o: Outpoint, out: TxOut): map<Outpoint, Address> {
    if out.address.Some? then oc[o := out.address.value] else oc
  }

  lemma {:induction false} IndexOne(view: OutTable, id: int, j: nat, out: TxOut, oc0: map<Outpoint, Address>,
                                    ov0: map<Outpoint, int>, oc: map<Outpoint, Address>, ov: map<Outpoint, int>)
    requires Outpoint(id, j) in view && SameOut(view[Outpoint(id, j)], out)
    requires SoundIndex(view, oc, ov) && Gained(view, id, j, oc0, ov0, oc, ov) && SoundIndex(view, oc0, ov0)
    ensures SoundIndex(view, WithAddress(oc, Outpoint(id, j), out), ov[Outpoint(id, j) := out.value])
    ensures Gained(view, id, j + 1, oc0, ov0, WithAddress(oc, Outpoint(id, j), out), ov[Outpoint(id, j) := out.value])
  {
  }

  lemma {:induction false} CacheOne(view: OutTable, id: int, j: nat, out: TxOut, outs: seq<CachedOut>)
    requires Outpoint(id, j) in view && SameOut(view[Outpoint(id, j)], out) && OutsAgree(view, id, outs)
    ensures out.address.Some? ==> OutsAgree(view, id, outs + [CachedOut(j, out.address.value, out.value)])
  {
  }

  method FillTx(tx: Tx, id: int, cache: UtxoCache, oc0: map<Outpoint, Address>, ov0: map<Outpoint, int>,
                ghost tr: TxTable, ghost view: OutTable) returns (oc: map<Outpoint, Address>, ov: map<Outpoint, int>)
    requires IdOf(tr, tx.txid) == Some(id) && TxInView(view, id, tx.vout)
    requires SoundIndex(view, oc0, ov0) && Coherent(cache.State(), tr, view)
    modifies cache
    ensures SoundIndex(view, oc, ov) && Coherent(cache.State(), tr, view)
    ensures Gained(view, id, |tx.vout|, oc0, ov0, oc, ov)
    ensures cache.State() == Inserted(old(cache.State()), cache.maxEntries, tx.txid, id, ForCache(tx.vout))
  {
    oc, ov := oc0, ov0;
    var forCache: seq<CachedOut> := [];
    for j := 0 to |tx.vout|
      invariant SoundIndex(view, oc, ov) && OutsAgree(view, id, forCache) && cache.State() == old(cache.State())
      invariant Gained(view, id, j, oc0, ov0, oc, ov) && forCache == ForCache(tx.vout[..j])
    {
      assert tx.vout[..j + 1][..j] == tx.vout[..j];
      var o := Outpoint(id, j);
      assert o in view && SameOut(view[o], tx.vout[j]);
      IndexOne(view, id, j, tx.vout[j], oc0, ov0, oc, ov);
      CacheOne(view, id, j, tx.vout[j], forCache);
      ov := ov[o := tx.vout[j].value];
      if tx.vout[j].address.Some? {
        oc := oc[o := tx.vout[j].address.value];
        forCache := forCache + [CachedOut(j, tx.vout[j].address.value, tx.vout[j].value)];
      }
    }
    assert tx.vout[..|tx.vout|] == tx.vout;
    InsertCoherent(cache.State(), cache.maxEntries, tx.txid, id, forCache, tr, view);
    cache.Insert(tx.txid, id, forCache);
  }

  ghost predicate BatchOutput(tr: TxTable, txs: seq<Mined>, o: Outpoint) {
    exists i :: 0 <= i < |txs| && OutputOf(tr, txs[i].tx, o)
  }

  predicate OutputOf(tr: TxTable, tx: Tx, o: Outpoint) {
    tx.txid in tr && o.txId == tr[tx.txid].id && 0 <= o.vout < |tx.vout|
  }

  /** The index holds the outputs of these transactions, and no others. */
  ghost predicate Indexed(tr: TxTable, txs: seq<Mined>, view: OutTable, oc: map<Outpoint, Address>,
                          ov: map<Outpoint, int>) {
    && (forall o :: o in ov <==> BatchOutput(tr, txs, o))
    && (forall o :: o in oc <==> BatchOutput(tr, txs, o) && o in view && view[o].address.Some?)
  }

  lemma {:induction false} OneMoreOutput(tr: TxTable, txs: seq<Mined>, m: Mined, more: seq<Mined>, o: Outpoint)
    requires more == txs + [m]
    ensures BatchOutput(tr, more, o) <==> BatchOutput(tr, txs, o) || OutputOf(tr, m.tx, o)
  {
    assert more[|txs|] == m;
    if i :| 0 <= i < |txs| && OutputOf(tr, txs[i].tx, o) {
      assert more[i] == txs[i];
    }
  }

  lemma {:induction false} IndexedMore(tr: TxTable, txs: seq<Mined>, m: Mined, more: seq<Mined>, view: OutTable,
                                       oc0: map<Outpoint, Address>, ov0: map<Outpoint, int>, oc: map<Outpoint, Address>,
                                       ov: map<Outpoint, int>)
    requires more == txs + [m] && m.tx.txid in tr && Indexed(tr, txs, view, oc0, ov0)
    requires Gained(view, tr[m.tx.txid].id, |m.tx.vout|, oc0, ov0, oc, ov)
    ensures Indexed(tr, more, view, oc, ov)
  {
    forall o ensures BatchOutput(tr, more, o) <==> BatchOutput(tr, txs, o) || OutputOf(tr, m.tx, o) {
      OneMoreOutput(tr, txs, m, more, o);
    }
  }

  lemma {:induction false} FilledMore(c: Cache, max: nat, tr: TxTable, txs: seq<Mined>, m: Mined, more: seq<Mined>)
    requires more == txs + [m] && AllKnown(tr, txs) && AllKnown(tr, more)
    ensures m.tx.txid in tr
    ensures FilledCache(c, max, tr, more) ==
            Inserted(FilledCache(c, max, tr, txs), max, m.tx.txid, tr[m.tx.txid].id, ForCache(m.tx.vout))
  {
    assert more[|more| - 1] == m && m in more && more[..|more| - 1] == txs;
  }

  /** tx_map has the id of each transaction of the batch. */
  ghost predicate MapsIds(txMap: map<Hash, int>, tr: TxTable, txs: seq<Mined>) {
    forall i :: 0 <= i < |txs| ==> MapsId(txMap, tr, txs[i].tx.txid)
  }

  predicate MapsId(txMap: map<Hash, int>, tr: TxTable, h: Hash) {
    h in txMap && h in tr && tr[h].id == txMap[h]
  }

  lemma {:induction false} MapHasIds(txMap: map<Hash, int>, tr: TxTable, txs: seq<Mined>)
    requires AllKnown(tr, txs) && txMap == IdMap(tr, txs)
    ensures MapsIds(txMap, tr, txs)
  {
    forall i | 0 <= i < |txs| ensures MapsId(txMap, tr, txs[i].tx.txid) {
      assert txs[i] in txs;
    }
  }

  lemma {:induction false} KnownPrefix(tr: TxTable, txs: seq<Mined>, n: nat)
    requires AllKnown(tr, txs) && n <= |txs|
    ensures AllKnown(tr, txs[..n])
  {
    forall m | m in txs[..n] ensures m.tx.txid in tr {
      assert m in txs;
    }
  }

  /** The next transaction, on an index of those before it. */
  method FillNext(ghost before: seq<Mined>, m: Mined, id: int, cache: UtxoCache, oc0: map<Outpoint, Address>,
                  ov0: map<Outpoint, int>, ghost tr: TxTable, ghost view: OutTable)
    returns (oc: map<Outpoint, Address>, ov: map<Outpoint, int>)
    requires IdOf(tr, m.tx.txid) == Some(id) && TxInView(view, id, m.tx.vout)
    requires SoundIndex(view, oc0, ov0) && Coherent(cache.State(), tr, view) && Indexed(tr, before, view, oc0, ov0)
    modifies cache
    ensures SoundIndex(view, oc, ov) && Coherent(cache.State(), tr, view) && Indexed(tr, before + [m], view, oc, ov)
    ensures cache.State() == Inserted(old(cache.State()), cache.maxEntries, m.tx.txid, id, ForCache(m.tx.vout))
  {
    oc, ov := FillTx(m.tx, id, cache, oc0, ov0, tr, view);
    IndexedMore(tr, before, m, before + [m], view, oc0, ov0, oc, ov);
  }

  /** The in-batch output index; the same walk feeds the persistent cache. */
  method FillIndex(txs: seq<Mined>, txMap: map<Hash, int>, cache: UtxoCache, ghost tr: TxTable, ghost view: OutTable)
    returns (oc: map<Outpoint, Address>, ov: map<Outpoint, int>)
    requires AllKnown(tr, txs) && MapsIds(txMap, tr, txs) && Coherent(cache.State(), tr, view)
    requires forall i :: 0 <= i < |txs| ==>
               txs[i].tx.txid in tr && TxInView(view, tr[txs[i].tx.txid].id, txs[i].tx.vout)
    modifies cache
    ensures SoundIndex(view, oc, ov) && Coherent(cache.State(), tr, view)
    ensures Indexed(tr, txs, view, oc, ov)
    ensures cache.State() == FilledCache(old(cache.State()), cache.maxEntries, tr, txs)
  {
    oc, ov := map[], map[];
    ghost var c0 := cache.State();
    for i := 0 to |txs|
      invariant SoundIndex(view, oc, ov) && Coherent(cache.State(), tr, view)
      invariant AllKnown(tr, txs[..i]) && Indexed(tr, txs[..i], view, oc, ov)
      invariant cache.State() == FilledCache(c0, cache.maxEntries, tr, txs[..i])
    {
      assert MapsId(txMap, tr, txs[i].tx.txid);
      KnownPrefix(tr, txs, i + 1);
      FilledMore(c0, cache.maxEntries, tr, txs[..i], txs[i], txs[..i + 1]);
      oc, ov := FillNext(txs[..i], txs[i], txMap[txs[i].tx.txid], cache, oc, ov, tr, view);
      assert txs[..i] + [txs[i]] == txs[..i + 1];
    }
    assert txs[..|txs|] == txs;
  }

  // ---------------------------------------------------- phase 6: which inputs

  type Needed = map<Hash, seq<int>>

  predicate Needs(needed: Needed, h: Hash, v: int) {
    h in needed && v in needed[h]
  }

  function AddNeed(needed: Needed, h: Hash, v: int): Needed {
    needed[h := (if h in needed then needed[h] else []) + [v]]
  }

  lemma {:induction false} NeedsAdded(needed: Needed, h: Hash, v: int)
    ensures forall g, u :: Needs(AddNeed(needed, h, v), g, u) <==> Needs(needed, g, u) || (g == h && u == v)
  {
    forall g, u ensures Needs(AddNeed(needed, h, v), g, u) <==> Needs(needed, g, u) || (g == h && u == v) {
      if g == h {
        assert AddNeed(needed, h, v)[h] == (if h in needed then needed[h] else []) + [v];
      }
    }
  }

  ghost predicate SpentByTx(vin: seq<TxIn>, h: Hash, v: int) {
    Spend(h, v) in vin
  }

  method CollectNeededTx(tx: Tx, needed0: Needed) returns (needed: Needed)
    ensures forall h, v :: Needs(needed, h, v) <==> Needs(needed0, h, v) || SpentByTx(tx.vin, h, v)
    ensures (forall h :: h in needed0 ==> needed0[h] != []) ==> forall h :: h in needed ==> needed[h] != []
  {
    needed := needed0;
    for k := 0 to |tx.vin|
      invariant forall h, v :: Needs(needed, h, v) <==> Needs(needed0, h, v) || SpentByTx(tx.vin[..k], h, v)
      invariant (forall h :: h in needed0 ==> needed0[h] != []) ==> forall h :: h in needed ==> needed[h] != []
    {
      assert tx.vin[..k + 1] == tx.vin[..k] + [tx.vin[k]];
      if tx.vin[k].Spend? {
        NeedsAdded(needed, tx.vin[k].prevHash, tx.vin[k].prevVout);
        needed := AddNeed(needed, tx.vin[k].prevHash, tx.vin[k].prevVout);
      }
    }
    assert tx.vin[..|tx.vin|] == tx.vin;
  }

  /** `needed`: every outpoint the batch spends, grouped by parent hash. */
  ghost predicate NeedsOf(needed: Needed, txs: seq<Mined>) {
    && (forall h :: h in needed ==> needed[h] != [])
    && (forall i, h, v :: 0 <= i < |txs| && SpentByTx(txs[i].tx.vin, h, v) ==> Needs(needed, h, v))
    && (forall h, v :: Needs(needed, h, v) ==> exists i :: 0 <= i < |txs| && SpentByTx(txs[i].tx.vin, h, v))
  }

  method CollectNeeded(txs: seq<Mined>) returns (needed: Needed)
    ensures NeedsOf(needed, txs)
  {
    needed := map[];
    for i := 0 to |txs|
      invariant NeedsOf(needed, txs[..i])
    {
      ghost var before := needed;
      needed := CollectNeededTx(txs[i].tx, needed);
      ghost var longer := txs[..i + 1];
      forall h, v | Needs(needed, h, v) ensures exists j :: 0 <= j < |longer| && SpentByTx(longer[j].tx.vin, h, v) {
        if Needs(before, h, v) {
          var j :| 0 <= j < i && SpentByTx(txs[..i][j].tx.vin, h, v);
          assert SpentByTx(longer[j].tx.vin, h, v);
        } else {
          assert SpentByTx(longer[i].tx.vin, h, v);
        }
      }
      forall j, h, v | 0 <= j < |longer| && SpentByTx(longer[j].tx.vin, h, v) ensures Needs(needed, h, v) {
        assert j < i ==> SpentByTx(txs[..i][j].tx.vin, h, v);
      }
    }
    assert txs[..|txs|] == txs;
  }

  // ------------------------------------------------- phase 6: their resolution

  /** What phase 6 has found: parent ids, and per spent outpoint address and amount. */
  datatype Found6 = Found6(prevIds: map<Hash, int>, addresses: map<Ref, Address>, amounts: map<Ref, int>)

  /** Everything found so far is what the tables hold. */
  ghost predicate Sound(tr: TxTable, view: OutTable, f: Found6) {
    && (forall h :: h in f.prevIds ==> IdOf(tr, h) == Some(f.prevIds[h]))
    && (forall r :: r in f.addresses ==>
        SoundAddress(tr, view, r, f.addresses[r]) && r.hash in f.prevIds && r in f.amounts)
    && (forall r :: r in f.amounts ==> SoundAmount(tr, view, r, f.amounts[r]))
  }

  ghost predicate SoundAddress(tr: TxTable, view: OutTable, r: Ref, a: Address) {
    var s := Stored(tr, view, r.hash, r.vout);
    s.Some? && s.value.address == Some(a)
  }

  ghost predicate SoundAmount(tr: TxTable, view: OutTable, r: Ref, x: int) {
    var s := Stored(tr, view, r.hash, r.vout);
    s.Some? && s.value.value == x
  }

  /** Every outpoint needed of `h` has its address. */
  ghost predicate Done(needed: Needed, f: Found6, h: Hash) {
    h in needed && forall v :: v in needed[h] ==> Ref(h, v) in f.addresses
  }

  ghost predicate AllDoneBut(needed: Needed, f: Found6, miss: set<Hash>) {
    && miss <= needed.Keys
    && forall h :: h in needed && h !in miss ==> Done(needed, f, h)
  }

  /** f' knows at least what f knows. */
  ghost predicate Extends6(f: Found6, f': Found6) {
    && f.prevIds.Keys <= f'.prevIds.Keys && f.addresses.Keys <= f'.addresses.Keys && f.amounts.Keys <= f'.amounts.Keys
  }

  function FromIndex(f: Found6, h: Hash, v: int, id: int, oc: map<Outpoint, Address>, ov: map<Outpoint, int>): Found6 {
    var o, r := Outpoint(id, v), Ref(h, v);
    Found6(f.prevIds,
           if o in oc then f.addresses[r := oc[o]] else f.addresses,
           if o in ov then f.amounts[r := ov[o]] else f.amounts)
  }

  lemma {:induction false} FromIndexIsSound(tr: TxTable, view: OutTable, f: Found6, h: Hash, v: int, id: int,
                                            oc: map<Outpoint, Address>, ov: map<Outpoint, int>)
    requires IdOf(tr, h) == Some(id) && SoundIndex(view, oc, ov) && Sound(tr, view, f) && h in f.prevIds
    ensures var f' := FromIndex(f, h, v, id, oc, ov);
            && Sound(tr, view, f') && Extends6(f, f') && f'.prevIds == f.prevIds
            && (Outpoint(id, v) in oc ==> Ref(h, v) in f'.addresses)
            && (IndexHas(view, oc, ov, id) ==> SettledAt(tr, view, f', h, v))
  {
  }

  /** 6a for one parent hash: from tx_map and the in-memory output index. */
  method ResolveInBatchHash(h: Hash, vouts: seq<int>, id: int, oc: map<Outpoint, Address>, ov: map<Outpoint, int>,
                            f0: Found6, ghost tr: TxTable, ghost view: OutTable) returns (f: Found6, missed: bool)
    requires IdOf(tr, h) == Some(id) && SoundIndex(view, oc, ov) && Sound(tr, view, f0)
    ensures Sound(tr, view, f) && Extends6(f0, f)
    ensures !missed ==> forall v :: v in vouts ==> Ref(h, v) in f.addresses
  {
    f := f0.(prevIds := f0.prevIds[h := id]);
    missed := false;
    for k := 0 to |vouts|
      invariant Sound(tr, view, f) && Extends6(f0, f) && h in f.prevIds
      invariant !missed ==> forall v :: v in vouts[..k] ==> Ref(h, v) in f.addresses
    {
      assert vouts[..k + 1] == vouts[..k] + [vouts[k]];
      var o, r := Outpoint(id, vouts[k]), Ref(h, vouts[k]);
      FromIndexIsSound(tr, view, f, h, vouts[k], id, oc, ov);
      ghost var before := f;
      if o in ov {
        f := f.(amounts := f.amounts[r := ov[o]]);
      }
      if o in oc {
        f := f.(addresses := f.addresses[r := oc[o]]);
      } else {
        missed := true;
      }
      assert f == FromIndex(before, h, vouts[k], id, oc, ov);
    }
    assert vouts[..|vouts|] == vouts;
  }

  method ResolveInBatch(needed: Needed, txMap: map<Hash, int>, oc: map<Outpoint, Address>, ov: map<Outpoint, int>,
                        ghost tr: TxTable, ghost view: OutTable) returns (f: Found6, miss: set<Hash>)
    requires forall h :: h in txMap ==> IdOf(tr, h) == Some(txMap[h])
    requires SoundIndex(view, oc, ov)
    ensures Sound(tr, view, f) && AllDoneBut(needed, f, miss)
  {
    f, miss := Found6(map[], map[], map[]), {};
    var todo := needed.Keys;
    while todo != {}
      invariant todo <= needed.Keys && Sound(tr, view, f) && AllDoneBut(needed, f, miss + todo)
      decreases |todo|
    {
      var h :| h in todo;
      todo := todo - {h};
      if h in txMap {
        var missed;
        ghost var before := f;
        f, missed := ResolveInBatchHash(h, needed[h], txMap[h], oc, ov, f, tr, view);
        if missed {
          miss := miss + {h};
        }
        forall g | g in needed && g !in miss + todo ensures Done(needed, f, g) {
          assert g != h ==> Done(needed, before, g);
        }
      } else {
        miss := miss + {h};
      }
    }
    assert miss + {} == miss;
  }

  /** 6a-bis for one hash: the persistent cache. */
  method ResolveCachedHash(h: Hash, vouts: seq<int>, cache: UtxoCache, f0: Found6, ghost tr: TxTable,
                           ghost view: OutTable)
    returns (f: Found6, all: bool)
    requires Coherent(cache.State(), tr, view) && Sound(tr, view, f0)
    ensures Sound(tr, view, f) && Extends6(f0, f)
    ensures all ==> forall v :: v in vouts ==> Ref(h, v) in f.addresses
  {
    f, all := f0, true;
    for k := 0 to |vouts|
      invariant Sound(tr, view, f) && Extends6(f0, f)
      invariant all ==> forall v :: v in vouts[..k] ==> Ref(h, v) in f.addresses
    {
      assert vouts[..k + 1] == vouts[..k] + [vouts[k]];
      var r := Ref(h, vouts[k]);
      if r !in f.addresses {
        var hit := cache.Lookup(h, vouts[k]);
        if hit.Some? {
          CachedIsStored(cache.State(), tr, view, h, vouts[k], hit.value);
          f := Found6(f.prevIds[h := hit.value.txId], f.addresses[r := hit.value.address],
                      f.amounts[r := hit.value.value]);
        } else {
          all := false;
        }
      }
    }
    assert vouts[..|vouts|] == vouts;
  }

  /** A cache hit is the stored output: cache and direct lookup cannot differ. */
  lemma {:induction false} CachedIsStored(c: Cache, tr: TxTable, view: OutTable, h: Hash, v: int, hit: Hit)
    requires Coherent(c, tr, view) && Found(c, h, v) == Some(hit)
    ensures IdOf(tr, h) == Some(hit.txId)
    ensures Stored(tr, view, h, v).Some? && Stored(tr, view, h, v).value.address == Some(hit.address)
    ensures Stored(tr, view, h, v).value.value == hit.value
  {
  }

  method ResolveCached(needed: Needed, miss: set<Hash>, cache: UtxoCache, f0: Found6, ghost tr: TxTable,
                       ghost view: OutTable)
    returns (f: Found6, still: set<Hash>)
    requires Coherent(cache.State(), tr, view) && Sound(tr, view, f0) && AllDoneBut(needed, f0, miss)
    ensures Sound(tr, view, f) && AllDoneBut(needed, f, still)
  {
    f, still := f0, {};
    var todo := miss;
    while todo != {}
      invariant todo <= miss && Sound(tr, view, f) && AllDoneBut(needed, f, still + todo)
      decreases |todo|
    {
      var h :| h in todo;
      todo := todo - {h};
      ghost var before := f;
      var all;
      f, all := ResolveCachedHash(h, needed[h], cache, f, tr, view);
      if !all {
        still := still + {h};
      }
      forall g | g in needed && g !in still + todo ensures Done(needed, f, g) {
        assert g != h ==> Done(needed, before, g);
      }
    }
    assert still + {} == still;
  }

  /** The direct lookup's answer has been found for everything needed of `h`. */
  ghost predicate Settled(tr: TxTable, view: OutTable, needed: Needed, f: Found6, h: Hash) {
    && (h in f.prevIds <==> h in tr)
    && (h in needed ==> forall v :: v in needed[h] ==> SettledAt(tr, view, f, h, v))
  }

  ghost predicate SettledAt(tr: TxTable, view: OutTable, f: Found6, h: Hash, v: int) {
    && (Ref(h, v) in f.addresses <==> StoredHasAddress(tr, view, h, v))
    && (Ref(h, v) in f.amounts <==> Stored(tr, view, h, v).Some?)
  }

  lemma {:induction false} DoneIsSettled(tr: TxTable, view: OutTable, needed: Needed, f: Found6, h: Hash)
    requires Sound(tr, view, f) && Done(needed, f, h) && needed[h] != []
    ensures Settled(tr, view, needed, f, h)
  {
    assert needed[h][0] in needed[h] && Ref(h, needed[h][0]) in f.addresses;
    forall v | v in needed[h] ensures SettledAt(tr, view, f, h, v) {
      assert Ref(h, v) in f.addresses;
    }
  }

  /** Every stored output of `id` is in the output index. */
  ghost predicate IndexHas(view: OutTable, oc: map<Outpoint, Address>, ov: map<Outpoint, int>, id: int) {
    forall o :: o in view && o.txId == id ==> o in ov && (view[o].address.Some? ==> o in oc)
  }

  function AddressIndex(rows: OutTable): map<Outpoint, Address> {
    map o | o in rows && rows[o].address.Some? :: rows[o].address.value
  }

  function ValueIndex(rows: OutTable): map<Outpoint, int> {
    map o | o in rows :: rows[o].value
  }

  /** 6b, the join: every known hash with a miss brings in all its stored outputs. */
  method FetchStored(miss: set<Hash>, db: Database, f0: Found6, oc0: map<Outpoint, Address>, ov0: map<Outpoint, int>)
    returns (f: Found6, oc: map<Outpoint, Address>, ov: map<Outpoint, int>)
    requires Sound(db.transactions, db.outputs, f0) && SoundIndex(db.outputs, oc0, ov0)
    ensures Sound(db.transactions, db.outputs, f) && SoundIndex(db.outputs, oc, ov) && Extends6(f0, f)
    ensures forall h :: h in miss && h in db.transactions ==>
              h in f.prevIds && IndexHas(db.outputs, oc, ov, db.transactions[h].id)
  {
    f, oc, ov := f0, oc0, ov0;
    var todo := miss;
    while todo != {}
      invariant todo <= miss
      invariant Sound(db.transactions, db.outputs, f) && SoundIndex(db.outputs, oc, ov) && Extends6(f0, f)
      invariant forall h :: h in miss - todo && h in db.transactions ==>
                  h in f.prevIds && IndexHas(db.outputs, oc, ov, db.transactions[h].id)
      decreases |todo|
    {
      var h :| h in todo;
      todo := todo - {h};
      var id, rows := db.SelectOutputs(h);
      if id.Some? {
        IndexGrows(db.outputs, oc, ov, id.value, rows);
        f := f.(prevIds := f.prevIds[h := id.value]);
        oc, ov := oc + AddressIndex(rows), ov + ValueIndex(rows);
      }
    }
  }

  lemma {:induction false} IndexGrows(view: OutTable, oc: map<Outpoint, Address>, ov: map<Outpoint, int>, id: int,
                                      rows: OutTable)
    requires SoundIndex(view, oc, ov) && rows == OutputsOf(view, id)
    ensures SoundIndex(view, oc + AddressIndex(rows), ov + ValueIndex(rows))
    ensures forall i :: i == id || IndexHas(view, oc, ov, i) ==>
              IndexHas(view, oc + AddressIndex(rows), ov + ValueIndex(rows), i)
  {
  }

  /** 6b for one hash, after the join. */
  method RefreshHash(h: Hash, vouts: seq<int>, id: int, oc: map<Outpoint, Address>, ov: map<Outpoint, int>, f0: Found6,
                     ghost tr: TxTable, ghost view: OutTable) returns (f: Found6)
    requires IdOf(tr, h) == Some(id) && SoundIndex(view, oc, ov) && Sound(tr, view, f0) && h in f0.prevIds
    ensures Sound(tr, view, f) && Extends6(f0, f) && f.prevIds == f0.prevIds
    ensures IndexHas(view, oc, ov, id) ==> forall v :: v in vouts ==> SettledAt(tr, view, f, h, v)
  {
    f := f0;
    for k := 0 to |vouts|
      invariant Sound(tr, view, f) && Extends6(f0, f) && f.prevIds == f0.prevIds
      invariant IndexHas(view, oc, ov, id) ==> forall v :: v in vouts[..k] ==> SettledAt(tr, view, f, h, v)
    {
      assert vouts[..k + 1] == vouts[..k] + [vouts[k]];
      var o, r := Outpoint(id, vouts[k]), Ref(h, vouts[k]);
      FromIndexIsSound(tr, view, f, h, vouts[k], id, oc, ov);
      ghost var before := f;
      if o in ov {
        f := f.(amounts := f.amounts[r := ov[o]]);
      }
      if o in oc {
        f := f.(addresses := f.addresses[r := oc[o]]);
      }
      assert f == FromIndex(before, h, vouts[k], id, oc, ov);
      forall v | v in vouts[..k + 1] && IndexHas(view, oc, ov, id) ensures SettledAt(tr, view, f, h, v) {
        assert v in vouts[..k] ==> SettledAt(tr, view, before, h, v);
      }
    }
    assert vouts[..|vouts|] == vouts;
  }

  method ResolveStored(needed: Needed, miss: set<Hash>, db: Database, f0: Found6, oc0: map<Outpoint, Address>,
                       ov0: map<Outpoint, int>) returns (f: Found6)
    requires forall h :: h in needed ==> needed[h] != []
    requires Sound(db.transactions, db.outputs, f0) && SoundIndex(db.outputs, oc0, ov0) && AllDoneBut(needed, f0, miss)
    ensures Sound(db.transactions, db.outputs, f)
    ensures forall h :: h in needed ==> Settled(db.transactions, db.outputs, needed, f, h)
  {
    f := f0;
    ghost var tr, view := db.transactions, db.outputs;
    if miss != {} {
      var oc, ov;
      f, oc, ov := FetchStored(miss, db, f0, oc0, ov0);
      var todo := needed.Keys;
      while todo != {}
        invariant todo <= needed.Keys
        invariant Sound(tr, view, f) && AllDoneBut(needed, f, miss)
        invariant forall h :: h in miss && h in tr ==> h in f.prevIds && IndexHas(view, oc, ov, tr[h].id)
        invariant forall h :: h in miss - todo ==> Settled(tr, view, needed, f, h)
        decreases |todo|
      {
        var h :| h in todo;
        todo := todo - {h};
        ghost var before := f;
        if h in f.prevIds {
          f := RefreshHash(h, needed[h], f.prevIds[h], oc, ov, f, tr, view);
        }
        forall g | g in needed && g !in miss ensures Done(needed, f, g) {
          assert Done(needed, before, g);
        }
        forall g | g in miss - todo ensures Settled(tr, view, needed, f, g) {
          SettledStays(tr, view, needed, before, f, g, h);
        }
      }
    }
    forall h | h in needed && h !in miss ensures Settled(tr, view, needed, f, h) {
      DoneIsSettled(tr, view, needed, f, h);
    }
  }

  lemma {:induction false} SettledStays(tr: TxTable, view: OutTable, needed: Needed, before: Found6, f: Found6, g: Hash,
                                        h: Hash)
    requires Sound(tr, view, before) && Sound(tr, view, f) && Extends6(before, f) && f.prevIds == before.prevIds
    requires g in needed
    requires g != h ==> Settled(tr, view, needed, before, g)
    requires g == h ==> (h in f.prevIds <==> h in tr)
    requires g == h && h in tr ==> forall v :: v in needed[h] ==> SettledAt(tr, view, f, h, v)
    ensures Settled(tr, view, needed, f, g)
  {
    forall v | v in needed[g] ensures SettledAt(tr, view, f, g, v) {
      if g != h {
        assert SettledAt(tr, view, before, g, v);
      }
    }
  }

  // ------------------------------------------------------ phase 6c: the RPC

  /** What has been found for an input. */
  function ReadOff(f: Found6, input: TxIn): Resolved {
    match input
    case Coinbase => Resolved(None, None, None)
    case Spend(h, v) =>
      Resolved(if h in f.prevIds then Some(f.prevIds[h]) else None,
               if Ref(h, v) in f.addresses then Some(f.addresses[Ref(h, v)]) else None,
               if Ref(h, v) in f.amounts then Some(f.amounts[Ref(h, v)]) else None)
  }

  /** `missing`: what is needed and still without an address. */
  method CollectMissing(needed: Needed, f: Found6) returns (missing: Needed)
    ensures forall h, v :: Needs(missing, h, v) <==> Needs(needed, h, v) && Ref(h, v) !in f.addresses
  {
    missing := map[];
    var todo := needed.Keys;
    while todo != {}
      invariant todo <= needed.Keys
      invariant forall h, v :: Needs(missing, h, v) <==> h !in todo && Needs(needed, h, v) && Ref(h, v) !in f.addresses
      decreases |todo|
    {
      var h :| h in todo;
      todo := todo - {h};
      var vouts := needed[h];
      for k := 0 to |vouts|
        invariant forall g, v :: Needs(missing, g, v) <==>
                    Ref(g, v) !in f.addresses &&
                    ((g !in todo && g != h && Needs(needed, g, v)) || (g == h && v in vouts[..k]))
      {
        assert vouts[..k + 1] == vouts[..k] + [vouts[k]];
        if Ref(h, vouts[k]) !in f.addresses {
          NeedsAdded(missing, h, vouts[k]);
          missing := AddNeed(missing, h, vouts[k]);
        }
      }
      assert vouts[..|vouts|] == vouts;
    }
  }

  /** The RPC's address for an outpoint, if it has one. */
  function FetchedAddress(rpc: Rpc, r: Ref): Option<Address> {
    var o := Fetched(rpc, r.hash, r.vout);
    if o.Some? then o.value.address else None
  }

  /** Amounts of the `asked` outpoints are the RPC's where it has one, others as before;
   * `keys` are the addresses it gave. */
  ghost predicate Asked(rpc: Rpc, asked: iset<Ref>, amounts0: map<Ref, int>, amounts: map<Ref, int>,
                        keys: map<Ref, Address>) {
    && (forall r :: r in keys <==> r in asked && FetchedAddress(rpc, r).Some?)
    && (forall r :: r in keys ==> FetchedAddress(rpc, r) == Some(keys[r]))
    && (forall r :: AskedAmount(rpc, r in asked, amounts0, amounts, r))
  }

  ghost predicate AskedAmount(rpc: Rpc, asked: bool, amounts0: map<Ref, int>, amounts: map<Ref, int>, r: Ref) {
    if asked && Fetched(rpc, r.hash, r.vout).Some?
    then r in amounts && amounts[r] == Fetched(rpc, r.hash, r.vout).value.value
    else (r in amounts <==> r in amounts0) && (r in amounts0 ==> amounts[r] == amounts0[r])
  }

  lemma {:induction false} NobodyAnswers(rpc: Rpc, asked: iset<Ref>, start: map<Ref, int>, amounts: map<Ref, int>,
                                         keys: map<Ref, Address>, h: Hash, vouts: seq<int>)
    requires Asked(rpc, asked, start, amounts, keys) && rpc(h).None?
    ensures Asked(rpc, asked + RefsOf(h, vouts), start, amounts, keys)
  {
    var more := asked + RefsOf(h, vouts);
    forall r ensures AskedAmount(rpc, r in more, start, amounts, r) {
      assert AskedAmount(rpc, r in asked, start, amounts, r);
      assert r in RefsOf(h, vouts) ==> Fetched(rpc, r.hash, r.vout).None?;
    }
  }

  method AskHash(h: Hash, vouts: seq<int>, rpc: Rpc, ghost asked: iset<Ref>, ghost start: map<Ref, int>,
                 amounts0: map<Ref, int>, keys0: map<Ref, Address>)
    returns (amounts: map<Ref, int>, keys: map<Ref, Address>)
    requires Asked(rpc, asked, start, amounts0, keys0)
    ensures Asked(rpc, asked + RefsOf(h, vouts), start, amounts, keys)
  {
    amounts, keys := amounts0, keys0;
    var fetched := rpc(h);
    if fetched.None? {
      NobodyAnswers(rpc, asked, start, amounts, keys, h, vouts);
      return;
    }
    for k := 0 to |vouts|
      invariant Asked(rpc, asked + RefsOf(h, vouts[..k]), start, amounts, keys)
    {
      var r := Ref(h, vouts[k]);
      assert RefsOf(h, vouts[..k + 1]) == RefsOf(h, vouts[..k]) + iset{r} by {
        assert vouts[..k + 1] == vouts[..k] + [vouts[k]];
      }
      ghost var amounts1, keys1 := amounts, keys;
      if 0 <= vouts[k] < |fetched.value.vout| {
        var o := fetched.value.vout[vouts[k]];
        amounts := amounts[r := o.value];
        if o.address.Some? {
          keys := keys[r := o.address.value];
        }
      }
      AskedOneMore(rpc, asked + RefsOf(h, vouts[..k]), start, amounts1, keys1, r, amounts, keys);
      assert asked + RefsOf(h, vouts[..k]) + iset{r} == asked + RefsOf(h, vouts[..k + 1]);
    }
    assert vouts[..|vouts|] == vouts;
  }

  lemma {:induction false} AskedOneMore(rpc: Rpc, asked: iset<Ref>, start: map<Ref, int>, amounts: map<Ref, int>,
                                        keys: map<Ref, Address>, r: Ref, amounts': map<Ref, int>,
                                        keys': map<Ref, Address>)
    requires Asked(rpc, asked, start, amounts, keys)
    requires var o := Fetched(rpc, r.hash, r.vout);
             && amounts' == (if o.Some? then amounts[r := o.value.value] else amounts)
             && keys' == (if o.Some? && o.value.address.Some? then keys[r := o.value.address.value] else keys)
    ensures Asked(rpc, asked + iset{r}, start, amounts', keys')
  {
    forall q ensures AskedAmount(rpc, q in asked + iset{r}, start, amounts', q) {
      assert AskedAmount(rpc, q in asked, start, amounts, q);
    }
  }

  ghost function RefsOf(h: Hash, vouts: seq<int>): iset<Ref> {
    iset r: Ref | r.hash == h && r.vout in vouts
  }

  ghost function Unaddressed(needed: Needed, f: Found6): iset<Ref> {
    iset r: Ref | Needs(needed, r.hash, r.vout) && r !in f.addresses
  }

  /** 6c: one call per missing hash; the answers may arrive in any order. */
  method AskRpc(missing: Needed, rpc: Rpc, amounts0: map<Ref, int>, ghost wanted: iset<Ref>)
    returns (amounts: map<Ref, int>, keys: map<Ref, Address>)
    requires forall r: Ref :: r in wanted <==> Needs(missing, r.hash, r.vout)
    ensures Asked(rpc, wanted, amounts0, amounts, keys)
  {
    amounts, keys := amounts0, map[];
    var todo := missing.Keys;
    ghost var asked: iset<Ref> := iset{};
    while todo != {}
      invariant todo <= missing.Keys && Asked(rpc, asked, amounts0, amounts, keys)
      invariant asked == iset r: Ref | r.hash !in todo && Needs(missing, r.hash, r.vout)
      decreases |todo|
    {
      var h :| h in todo;
      todo := todo - {h};
      amounts, keys := AskHash(h, missing[h], rpc, asked, amounts0, amounts, keys);
      asked := asked + RefsOf(h, missing[h]);
    }
    assert asked == wanted;
  }

  /** `f'` is `f` with the RPC's answers for everything missing. */
  ghost predicate Completed(tr: TxTable, view: OutTable, rpc: Rpc, needed: Needed, f: Found6, f': Found6,
                            keys: map<Ref, Address>) {
    && Sound(tr, view, f)
    && (forall h :: h in needed ==> Settled(tr, view, needed, f, h))
    && Asked(rpc, Unaddressed(needed, f), f.amounts, f'.amounts, keys)
    && f'.prevIds == f.prevIds && f'.addresses == f.addresses + keys
  }

  /** With the RPC's answers in, what is found for an input is the direct lookup. */
  lemma {:induction false} FoundIsLookup(tr: TxTable, view: OutTable, rpc: Rpc, needed: Needed, f: Found6, f': Found6,
                                         keys: map<Ref, Address>, h: Hash, v: int)
    requires Completed(tr, view, rpc, needed, f, f', keys) && Needs(needed, h, v)
    ensures ReadOff(f', Spend(h, v)) == Lookup(tr, view, rpc, Spend(h, v))
    ensures Ref(h, v) in keys <==> !StoredHasAddress(tr, view, h, v) && FetchedAddress(rpc, Ref(h, v)).Some?
    ensures Ref(h, v) in keys ==> FetchedAddress(rpc, Ref(h, v)) == Some(keys[Ref(h, v)])
  {
    var r := Ref(h, v);
    assert Settled(tr, view, needed, f, h) && SettledAt(tr, view, f, h, v);
    assert r in Unaddressed(needed, f) <==> r !in f.addresses;
    assert AskedAmount(rpc, r in Unaddressed(needed, f), f.amounts, f'.amounts, r);
    if StoredHasAddress(tr, view, h, v) {
      assert SoundAddress(tr, view, r, f.addresses[r]) && SoundAmount(tr, view, r, f.amounts[r]);
      assert r !in keys;
    } else if r in f.amounts {
      assert SoundAmount(tr, view, r, f.amounts[r]);
    }
  }

  /** What has been found for every input of the batch is what the direct lookup gives. */
  ghost predicate ReadsOff(tr: TxTable, view: OutTable, rpc: Rpc, f: Found6, txs: seq<Mined>) {
    forall i, k :: 0 <= i < |txs| && 0 <= k < |txs[i].tx.vin| ==>
      ReadOff(f, txs[i].tx.vin[k]) == Lookup(tr, view, rpc, txs[i].tx.vin[k])
  }

  lemma {:induction false} FoundForBatch(tr: TxTable, view: OutTable, rpc: Rpc, txs: seq<Mined>, needed: Needed,
                                         f: Found6, f': Found6, keys: map<Ref, Address>)
    requires NeedsOf(needed, txs) && Completed(tr, view, rpc, needed, f, f', keys)
    ensures ReadsOff(tr, view, rpc, f', txs)
  {
    forall i, k | 0 <= i < |txs| && 0 <= k < |txs[i].tx.vin|
      ensures ReadOff(f', txs[i].tx.vin[k]) == Lookup(tr, view, rpc, txs[i].tx.vin[k])
    {
      match txs[i].tx.vin[k]
      case Coinbase =>
      case Spend(h, v) =>
        assert SpentByTx(txs[i].tx.vin, h, v);
        FoundIsLookup(tr, view, rpc, needed, f, f', keys, h, v);
    }
  }

  lemma {:induction false} KeyIsRpcAddress(tr: TxTable, view: OutTable, rpc: Rpc, txs: seq<Mined>, needed: Needed,
                                           f: Found6, f': Found6, keys: map<Ref, Address>, r: Ref)
    requires NeedsOf(needed, txs) && Completed(tr, view, rpc, needed, f, f', keys) && r in keys
    ensures keys[r] in BatchRpcAddresses(tr, view, rpc, txs)
  {
    assert r in Unaddressed(needed, f) && Needs(needed, r.hash, r.vout);
    FoundIsLookup(tr, view, rpc, needed, f, f', keys, r.hash, r.vout);
    var i :| 0 <= i < |txs| && SpentByTx(txs[i].tx.vin, r.hash, r.vout);
    var k :| 0 <= k < |txs[i].tx.vin| && txs[i].tx.vin[k] == Spend(r.hash, r.vout);
    assert Lookup(tr, view, rpc, txs[i].tx.vin[k]).address == Some(keys[r]);
    assert keys[r] in RpcAddresses(tr, view, rpc, txs[i].tx.vin);
  }

  lemma {:induction false} RpcAddressIsKey(tr: TxTable, view: OutTable, rpc: Rpc, txs: seq<Mined>, needed: Needed,
                                           f: Found6, f': Found6, keys: map<Ref, Address>, i: int, a: Address)
    requires NeedsOf(needed, txs) && Completed(tr, view, rpc, needed, f, f', keys)
    requires 0 <= i < |txs| && a in RpcAddresses(tr, view, rpc, txs[i].tx.vin)
    ensures a in keys.Values
  {
    var vin := txs[i].tx.vin;
    var k :| 0 <= k < |vin| && vin[k].Spend? && !StoredHasAddress(tr, view, vin[k].prevHash, vin[k].prevVout)
             && Lookup(tr, view, rpc, vin[k]).address == Some(a);
    var h, v := vin[k].prevHash, vin[k].prevVout;
    assert vin[k] == Spend(h, v) && SpentByTx(vin, h, v);
    FoundIsLookup(tr, view, rpc, needed, f, f', keys, h, v);
    assert FetchedAddress(rpc, Ref(h, v)) == Some(a);
    assert keys[Ref(h, v)] == a;
  }

  lemma {:induction false} KeysAreRpcAddresses(tr: TxTable, view: OutTable, rpc: Rpc, txs: seq<Mined>, needed: Needed,
                                               f: Found6, f': Found6, keys: map<Ref, Address>)
    requires NeedsOf(needed, txs) && Completed(tr, view, rpc, needed, f, f', keys)
    ensures keys.Values == BatchRpcAddresses(tr, view, rpc, txs)
  {
    forall a | a in keys.Values ensures a in BatchRpcAddresses(tr, view, rpc, txs) {
      var r :| r in keys && keys[r] == a;
      KeyIsRpcAddress(tr, view, rpc, txs, needed, f, f', keys, r);
    }
    forall a | a in BatchRpcAddresses(tr, view, rpc, txs) ensures a in keys.Values {
      var i :| 0 <= i < |txs| && a in RpcAddresses(tr, view, rpc, txs[i].tx.vin);
      RpcAddressIsKey(tr, view, rpc, txs, needed, f, f', keys, i, a);
    }
  }

  lemma {:induction false} NoInputs(tr: TxTable, view: OutTable, rpc: Rpc, txs: seq<Mined>, needed: Needed)
    requires NeedsOf(needed, txs) && needed == map[]
    ensures ReadsOff(tr, view, rpc, Found6(map[], map[], map[]), txs)
    ensures BatchRpcAddresses(tr, view, rpc, txs) == {}
  {
    forall i, k | 0 <= i < |txs| && 0 <= k < |txs[i].tx.vin| ensures txs[i].tx.vin[k] == Coinbase {
      var input := txs[i].tx.vin[k];
      assert input.Spend? ==> SpentByTx(txs[i].tx.vin, input.prevHash, input.prevVout);
      assert input.Spend? ==> Needs(needed, input.prevHash, input.prevVout);
    }
  }

  lemma {:induction false} ReleasedCoherent(c: Cache, h: Hash, v: int, tr: TxTable, view: OutTable)
    requires Coherent(c, tr, view)
    ensures Coherent(Released(c, h, v), tr, view)
  {
  }

  /** The later cache answers nothing that the earlier one did not. */
  ghost predicate AnswersLess(c0: Cache, c: Cache) {
    forall h, v :: Found(c, h, v).Some? ==> Found(c, h, v) == Found(c0, h, v)
  }

  lemma {:induction false} ReleasedAnswers(c: Cache, h: Hash, v: int)
    ensures AnswersLess(c, Released(c, h, v)) && Found(Released(c, h, v), h, v).None?
  {
  }

  /** Every outpoint spent by the batch leaves the cache, and no answer changes. */
  method ReleaseSpent(needed: Needed, cache: UtxoCache, ghost tr: TxTable, ghost view: OutTable)
    requires Coherent(cache.State(), tr, view)
    modifies cache
    ensures Coherent(cache.State(), tr, view) && AnswersLess(old(cache.State()), cache.State())
    ensures forall h, v :: Needs(needed, h, v) ==> Found(cache.State(), h, v).None?
  {
    ghost var c0 := cache.State();
    var todo := needed.Keys;
    while todo != {}
      invariant todo <= needed.Keys && Coherent(cache.State(), tr, view) && AnswersLess(c0, cache.State())
      invariant forall h, v :: h !in todo && Needs(needed, h, v) ==> Found(cache.State(), h, v).None?
      decreases |todo|
    {
      var h :| h in todo;
      todo := todo - {h};
      var vouts := needed[h];
      ghost var c1 := cache.State();
      for k := 0 to |vouts|
        invariant Coherent(cache.State(), tr, view) && AnswersLess(c1, cache.State())
        invariant forall v :: v in vouts[..k] ==> Found(cache.State(), h, v).None?
      {
        assert vouts[..k + 1] == vouts[..k] + [vouts[k]];
        ReleasedCoherent(cache.State(), h, vouts[k], tr, view);
        ReleasedAnswers(cache.State(), h, vouts[k]);
        cache.MarkSpent(h, vouts[k]);
      }
      assert vouts[..|vouts|] == vouts;
    }
  }

  /** 6c with its writes: the RPC's addresses are upserted and join the answers. */
  method ResolveFetched(needed: Needed, rpc: Rpc, db: Database, f0: Found6, ghost txs: seq<Mined>) returns (f: Found6)
    requires NeedsOf(needed, txs) && Sound(db.transactions, db.outputs, f0)
    requires forall h :: h in needed ==> Settled(db.transactions, db.outputs, needed, f0, h)
    modifies db`rollups
    ensures ReadsOff(db.transactions, db.outputs, rpc, f, txs)
    ensures db.State() == old(db.State()).(
              rollups := Merge(old(db.rollups),
                               KnownAddresses(BatchRpcAddresses(db.transactions, db.outputs, rpc, txs))))
  {
    var missing := CollectMissing(needed, f0);
    var amounts, keys := AskRpc(missing, rpc, f0.amounts, Unaddressed(needed, f0));
    f := Found6(f0.prevIds, f0.addresses + keys, amounts);
    FoundForBatch(db.transactions, db.outputs, rpc, txs, needed, f0, f, keys);
    KeysAreRpcAddresses(db.transactions, db.outputs, rpc, txs, needed, f0, f, keys);
    var upserts := keys.Values;
    if upserts != {} {
      db.UpsertAddressesBatch(upserts);
    } else {
      MergeEmpty(db.rollups);
      assert KnownAddresses(upserts) == map[];
    }
  }

  /** Phase 6. No cache state, capacity or history shows in what it returns or writes. */
  method ResolveInputs(txs: seq<Mined>, txMap: map<Hash, int>, oc: map<Outpoint, Address>, ov: map<Outpoint, int>,
                       cache: UtxoCache, rpc: Rpc, db: Database) returns (f: Found6)
    requires forall h :: h in txMap ==> IdOf(db.transactions, h) == Some(txMap[h])
    requires SoundIndex(db.outputs, oc, ov) && Coherent(cache.State(), db.transactions, db.outputs)
    modifies cache, db`rollups
    ensures ReadsOff(db.transactions, db.outputs, rpc, f, txs)
    ensures db.State() == old(db.State()).(
              rollups := Merge(old(db.rollups),
                               KnownAddresses(BatchRpcAddresses(db.transactions, db.outputs, rpc, txs))))
    ensures Coherent(cache.State(), db.transactions, db.outputs)
  {
    ghost var tr, view := db.transactions, db.outputs;
    var needed := CollectNeeded(txs);
    if needed == map[] {
      f := Found6(map[], map[], map[]);
      NoInputs(tr, view, rpc, txs, needed);
      MergeEmpty(db.rollups);
      assert KnownAddresses({}) == map[];
      return;
    }
    var miss;
    f, miss := ResolveInBatch(needed, txMap, oc, ov, tr, view);
    f, miss := ResolveCached(needed, miss, cache, f, tr, view);
    f := ResolveStored(needed, miss, db, f, oc, ov);
    f := ResolveFetched(needed, rpc, db, f, txs);
    ReleaseSpent(needed, cache, tr, view);
  }
}
