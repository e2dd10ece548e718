/** The persistent cross-batch cache of recently inserted outputs. */
module UtxoCaching {
  import opened Prelude
  import opened Ledger

  /** An address-bearing output as the cache is given it. */
  datatype CachedOut = CachedOut(vout: int, address: Address, value: int)

  datatype Entry = Entry(address: Address, value: int)

  datatype Hit = Hit(txId: int, address: Address, value: int)

  /** The three hash maps of the cache. */
  datatype Cache = Cache(hashToId: map<Hash, int>, byId: map<Outpoint, Entry>, refcount: map<int, nat>)

  const NOTHING := Cache(map[], map[], map[])

  function PutEntries(byId: map<Outpoint, Entry>, id: int, outs: seq<CachedOut>): map<Outpoint, Entry> {
    if outs == [] then byId else
      var o := outs[|outs| - 1];
      PutEntries(byId, id, outs[..|outs| - 1])[Outpoint(id, o.vout) := Entry(o.address, o.value)]
  }

  /** Too many entries already, or nothing to insert. */
  predicate Skips(c: Cache, max: nat, outs: seq<CachedOut>) {
    outs == [] || |c.byId| + |outs| > max
  }

  function Inserted(c: Cache, max: nat, h: Hash, id: int, outs: seq<CachedOut>): Cache {
    if Skips(c, max, outs) then c else
      Cache(c.hashToId[h := id], PutEntries(c.byId, id, outs), c.refcount[id := |outs|])
  }

  function Found(c: Cache, h: Hash, v: int): Option<Hit> {
    if h in c.hashToId && Outpoint(c.hashToId[h], v) in c.byId then
      var e := c.byId[Outpoint(c.hashToId[h], v)];
      Some(Hit(c.hashToId[h], e.address, e.value))
    else None
  }

  function Released(c: Cache, h: Hash, v: int): Cache {
    if Found(c, h, v).None? then c else
      var id := c.hashToId[h];
      var byId := c.byId - {Outpoint(id, v)};
      if id !in c.refcount then c.(byId := byId)
      else
        var remaining := if c.refcount[id] > 0 then c.refcount[id] - 1 else 0;
        if remaining == 0
        then Cache(c.hashToId - {h}, byId, c.refcount - {id})
        else c.(byId := byId, refcount := c.refcount[id := remaining])
  }

  class UtxoCache {
    var hashToId: map<Hash, int>
    var byId: map<Outpoint, Entry>
    var refcount: map<int, nat>
    const maxEntries: nat

    function State(): Cache
      reads this
    {
      Cache(hashToId, byId, refcount)
    }

    constructor (maxEntries: nat)
      ensures State() == NOTHING && this.maxEntries == maxEntries
    {
      this.hashToId, this.byId, this.refcount := map[], map[], map[];
      this.maxEntries := maxEntries;
    }

    method Insert(txHash: Hash, txId: int, outputs: seq<CachedOut>)
      modifies this
      ensures State() == Inserted(old(State()), maxEntries, txHash, txId, outputs)
    {
      if outputs == [] {
        return;
      }
      if |byId| + |outputs| > maxEntries {
        return;
      }
      hashToId := hashToId[txHash := txId];
      for i := 0 to |outputs|
        invariant byId == PutEntries(old(byId), txId, outputs[..i])
        invariant hashToId == old(hashToId)[txHash := txId] && refcount == old(refcount)
      {
        assert outputs[..i + 1][..i] == outputs[..i];
        byId := byId[Outpoint(txId, outputs[i].vout) := Entry(outputs[i].address, outputs[i].value)];
      }
      assert outputs[..|outputs|] == outputs;
      refcount := refcount[txId := |outputs|];
    }

    method Lookup(prevHash: Hash, vout: int) returns (hit: Option<Hit>)
      ensures hit == Found(State(), prevHash, vout)
    {
      if prevHash !in hashToId {
        return None;
      }
      var prevTxId := hashToId[prevHash];
      if Outpoint(prevTxId, vout) !in byId {
        return None;
      }
      var e := byId[Outpoint(prevTxId, vout)];
      return Some(Hit(prevTxId, e.address, e.value));
    }

    method MarkSpent(prevHash: Hash, vout: int)
      modifies this
      ensures State() == Released(old(State()), prevHash, vout)
    {
      if prevHash !in hashToId {
        return;
      }
      var prevTxId := hashToId[prevHash];
      if Outpoint(prevTxId, vout) !in byId {
        return;
      }
      byId := byId - {Outpoint(prevTxId, vout)};
      if prevTxId in refcount {
        if refcount[prevTxId] > 0 {
          refcount := refcount[prevTxId := refcount[prevTxId] - 1];
        }
        if refcount[prevTxId] == 0 {
          refcount := refcount - {prevTxId};
          hashToId := hashToId - {prevHash};
        }
      }
    }
  }

  // ----------------------------------------------------- the cache's own laws

  /** Ids are one-to-one. */
  type Ids = Hash -> int

  ghost predicate OneToOne(ids: Ids) {
    forall g, h :: ids(g) == ids(h) ==> g == h
  }

  /** Every insertion carries its own list. */
  datatype Call = Insert(hash: Hash, outs: seq<CachedOut>) | Spent(hash: Hash, vout: int)

  predicate Lists(outs: seq<CachedOut>, v: int) {
    exists i :: 0 <= i < |outs| && outs[i].vout == v
  }

  predicate DistinctVouts(outs: seq<CachedOut>) {
    forall i, j :: 0 <= i < j < |outs| ==> outs[i].vout != outs[j].vout
  }

  ghost predicate Covers(outs: seq<CachedOut>, earlier: seq<CachedOut>) {
    forall v :: Lists(earlier, v) ==> Lists(outs, v)
  }

  /** No list repeats a vout, and a transaction inserted again comes with every vout that it
   * came with before, at whatever addresses and values: a refcount is set to the length of
   * the last list, so it counts only what that list names. */
  ghost predicate Proper(calls: seq<Call>) {
    && (forall i :: 0 <= i < |calls| && calls[i].Insert? ==> DistinctVouts(calls[i].outs))
    && (forall i, j :: 0 <= i < j < |calls| && calls[i].Insert? && calls[j].Insert? && calls[i].hash == calls[j].hash
          ==> Covers(calls[j].outs, calls[i].outs))
  }

  function After(c: Cache, max: nat, ids: Ids, call: Call): Cache {
    match call
    case Insert(h, outs) => Inserted(c, max, h, ids(h), outs)
    case Spent(h, v) => Released(c, h, v)
  }

  function Calls(max: nat, ids: Ids, calls: seq<Call>): Cache {
    if calls == [] then NOTHING else After(Calls(max, ids, calls[..|calls| - 1]), max, ids, calls[|calls| - 1])
  }

  function LiveOf(byId: map<Outpoint, Entry>, id: int): set<Outpoint> {
    set o | o in byId && o.txId == id
  }

  ghost predicate HashesCounted(c: Cache, ids: Ids) {
    && (forall h :: h in c.hashToId ==> c.hashToId[h] == ids(h) && ids(h) in c.refcount)
    && (forall id :: id in c.refcount ==> HasHash(c, ids, id))
  }

  ghost predicate HasHash(c: Cache, ids: Ids, id: int) {
    exists h :: h in c.hashToId && ids(h) == id
  }

  /** Each refcount is the number of that transaction's live entries. */
  ghost predicate CountsLive(c: Cache) {
    forall id :: id in c.refcount ==> 0 < c.refcount[id] == |LiveOf(c.byId, id)|
  }

  /** Every entry can still be reached by a hash. */
  ghost predicate NoOrphans(c: Cache) {
    forall o :: o in c.byId ==> o.txId in c.refcount
  }

  /** Refcounts count live entries, no entry is orphaned, and the cap is kept. */
  ghost predicate Consistent(c: Cache, max: nat, ids: Ids) {
    HashesCounted(c, ids) && CountsLive(c) && NoOrphans(c) && |c.byId| <= max
  }

  /** Whatever is live of a transaction, `outs` names. */
  ghost predicate NamesLive(c: Cache, id: int, outs: seq<CachedOut>) {
    forall o :: o in c.byId && o.txId == id ==> Lists(outs, o.vout)
  }

  /** Every entry was named by some insertion of its transaction. */
  ghost predicate Origins(byId: map<Outpoint, Entry>, ids: Ids, calls: seq<Call>) {
    forall o :: o in byId ==> HasOrigin(ids, calls, o)
  }

  ghost predicate HasOrigin(ids: Ids, calls: seq<Call>, o: Outpoint) {
    exists i :: 0 <= i < |calls| && calls[i].Insert? && ids(calls[i].hash) == o.txId && Lists(calls[i].outs, o.vout)
  }

  lemma {:induction false} ListsPrefix(outs: seq<CachedOut>, v: int)
    requires outs != []
    ensures Lists(outs, v) <==> Lists(outs[..|outs| - 1], v) || outs[|outs| - 1].vout == v
  {
    var n := |outs| - 1;
    if i :| 0 <= i < |outs| && outs[i].vout == v {
      assert i < n ==> outs[..n][i].vout == v;
    }
    if i :| 0 <= i < n && outs[..n][i].vout == v {
      assert outs[i].vout == v;
    }
  }

  lemma {:induction false} EntriesPut(byId: map<Outpoint, Entry>, id: int, outs: seq<CachedOut>, o: Outpoint)
    ensures o in PutEntries(byId, id, outs) <==> o in byId || (o.txId == id && Lists(outs, o.vout))
    ensures |PutEntries(byId, id, outs)| <= |byId| + |outs|
  {
    if outs != [] {
      EntriesPut(byId, id, outs[..|outs| - 1], o);
      ListsPrefix(outs, o.vout);
    }
  }

  function VoutsOf(id: int, outs: seq<CachedOut>): set<Outpoint> {
    if outs == [] then {} else VoutsOf(id, outs[..|outs| - 1]) + {Outpoint(id, outs[|outs| - 1].vout)}
  }

  lemma {:induction false} InVouts(id: int, outs: seq<CachedOut>, o: Outpoint)
    ensures o in VoutsOf(id, outs) <==> o.txId == id && Lists(outs, o.vout)
  {
    if outs != [] {
      InVouts(id, outs[..|outs| - 1], o);
      ListsPrefix(outs, o.vout);
    }
  }

  lemma {:induction false} CountVouts(id: int, outs: seq<CachedOut>)
    requires DistinctVouts(outs)
    ensures |VoutsOf(id, outs)| == |outs|
  {
    if outs != [] {
      var n := |outs| - 1;
      CountVouts(id, outs[..n]);
      InVouts(id, outs[..n], Outpoint(id, outs[n].vout));
    }
  }

  /** The entries of the inserted transaction are then exactly its outputs. */
  lemma {:induction false} LiveOwn(byId: map<Outpoint, Entry>, id: int, outs: seq<CachedOut>)
    requires DistinctVouts(outs) && forall o :: o in byId && o.txId == id ==> Lists(outs, o.vout)
    ensures |LiveOf(PutEntries(byId, id, outs), id)| == |outs|
  {
    CountVouts(id, outs);
    forall o ensures o in LiveOf(PutEntries(byId, id, outs), id) <==> o in VoutsOf(id, outs) {
      EntriesPut(byId, id, outs, o);
      InVouts(id, outs, o);
    }
    assert LiveOf(PutEntries(byId, id, outs), id) == VoutsOf(id, outs);
  }

  lemma {:induction false} LiveOther(byId: map<Outpoint, Entry>, id: int, outs: seq<CachedOut>, other: int)
    requires other != id
    ensures LiveOf(PutEntries(byId, id, outs), other) == LiveOf(byId, other)
  {
    forall o ensures o in LiveOf(PutEntries(byId, id, outs), other) <==> o in LiveOf(byId, other) {
      if o.txId == other { OthersKept(byId, id, outs, o); }
    }
  }

  lemma {:induction false} OthersKept(byId: map<Outpoint, Entry>, id: int, outs: seq<CachedOut>, o: Outpoint)
    requires o.txId != id
    ensures o in PutEntries(byId, id, outs) <==> o in byId
    ensures o in byId ==> PutEntries(byId, id, outs)[o] == byId[o]
  {
    if outs != [] {
      OthersKept(byId, id, outs[..|outs| - 1], o);
    }
  }

  lemma {:induction false} InsertCounts(c: Cache, id: int, outs: seq<CachedOut>, c': Cache)
    requires CountsLive(c) && NoOrphans(c) && NamesLive(c, id, outs) && DistinctVouts(outs) && outs != []
    requires c'.byId == PutEntries(c.byId, id, outs) && c'.refcount == c.refcount[id := |outs|]
    ensures CountsLive(c') && NoOrphans(c')
  {
    LiveOwn(c.byId, id, outs);
    forall other | other in c'.refcount ensures 0 < c'.refcount[other] == |LiveOf(c'.byId, other)| {
      if other != id { LiveOther(c.byId, id, outs, other); }
    }
    forall o | o in c'.byId ensures o.txId in c'.refcount {
      EntriesPut(c.byId, id, outs, o);
    }
  }

  lemma {:induction false} InsertHashes(c: Cache, ids: Ids, h: Hash, c': Cache, n: nat)
    requires HashesCounted(c, ids)
    requires c'.hashToId == c.hashToId[h := ids(h)] && c'.refcount == c.refcount[ids(h) := n]
    ensures HashesCounted(c', ids)
  {
    forall id | id in c'.refcount ensures HasHash(c', ids, id) {
      if id == ids(h) {
        assert h in c'.hashToId;
      } else {
        var g :| g in c.hashToId && ids(g) == id;
        assert g in c'.hashToId;
      }
    }
  }

  lemma {:induction false} InsertKeeps(c: Cache, max: nat, ids: Ids, h: Hash, outs: seq<CachedOut>)
    requires Consistent(c, max, ids) && NamesLive(c, ids(h), outs) && DistinctVouts(outs)
    ensures Consistent(After(c, max, ids, Insert(h, outs)), max, ids)
  {
    if !Skips(c, max, outs) {
      var c' := Inserted(c, max, h, ids(h), outs);
      InsertHashes(c, ids, h, c', |outs|);
      InsertCounts(c, ids(h), outs, c');
      EntriesPut(c.byId, ids(h), outs, Outpoint(0, 0));
    }
  }

  lemma {:induction false} LiveWithout(byId: map<Outpoint, Entry>, o: Outpoint, id: int)
    requires o in byId
    ensures |LiveOf(byId - {o}, id)| == |LiveOf(byId, id)| - if o.txId == id then 1 else 0
  {
    assert LiveOf(byId - {o}, id) == LiveOf(byId, id) - {o};
  }

  lemma {:induction false} SpentCounts(c: Cache, o: Outpoint, c': Cache)
    requires CountsLive(c) && NoOrphans(c) && o in c.byId && c'.byId == c.byId - {o}
    requires c'.refcount == if c.refcount[o.txId] == 1 then c.refcount - {o.txId}
                            else c.refcount[o.txId := c.refcount[o.txId] - 1]
    ensures CountsLive(c') && NoOrphans(c')
  {
    forall id | id in c'.refcount ensures 0 < c'.refcount[id] == |LiveOf(c'.byId, id)| {
      LiveWithout(c.byId, o, id);
    }
    LiveWithout(c.byId, o, o.txId);
    forall p | p in c'.byId ensures p.txId in c'.refcount {
      if p.txId == o.txId {
        assert p in LiveOf(c'.byId, o.txId);
      }
    }
  }

  lemma {:induction false} SpentHashes(c: Cache, ids: Ids, h: Hash, c': Cache)
    requires HashesCounted(c, ids) && OneToOne(ids) && h in c.hashToId
    requires (c'.hashToId == c.hashToId && c'.refcount.Keys == c.refcount.Keys)
             || (c'.hashToId == c.hashToId - {h} && c'.refcount.Keys == c.refcount.Keys - {ids(h)})
    ensures HashesCounted(c', ids)
  {
    forall id | id in c'.refcount ensures HasHash(c', ids, id) {
      var g :| g in c.hashToId && ids(g) == id;
      assert g in c'.hashToId;
    }
    forall g | g in c'.hashToId ensures c'.hashToId[g] == ids(g) && ids(g) in c'.refcount {
      assert ids(g) in c.refcount.Keys;
    }
  }

  lemma {:induction false} SpentKeeps(c: Cache, max: nat, ids: Ids, h: Hash, v: int)
    requires Consistent(c, max, ids) && OneToOne(ids)
    ensures Consistent(After(c, max, ids, Spent(h, v)), max, ids)
  {
    if Found(c, h, v).Some? {
      var c' := Released(c, h, v);
      var o := Outpoint(c.hashToId[h], v);
      assert o.txId in c.refcount;
      SpentCounts(c, o, c');
      SpentHashes(c, ids, h, c');
      assert |c'.byId| <= |c.byId|;
    }
  }

  lemma {:induction false} ProperPrefix(calls: seq<Call>)
    requires Proper(calls) && calls != []
    ensures Proper(calls[..|calls| - 1])
  {
    var before := calls[..|calls| - 1];
    assert forall i :: 0 <= i < |before| ==> before[i] == calls[i];
  }

  lemma {:induction false} OriginsGrow(byId: map<Outpoint, Entry>, ids: Ids, calls: seq<Call>, call: Call)
    requires Origins(byId, ids, calls)
    ensures Origins(byId, ids, calls + [call])
  {
    forall o | o in byId ensures HasOrigin(ids, calls + [call], o) {
      var i :| 0 <= i < |calls| && calls[i].Insert? && ids(calls[i].hash) == o.txId && Lists(calls[i].outs, o.vout);
      assert (calls + [call])[i] == calls[i];
    }
  }

  lemma {:induction false} CallsOrigins(max: nat, ids: Ids, calls: seq<Call>)
    ensures Origins(Calls(max, ids, calls).byId, ids, calls)
  {
    if calls != [] {
      var before, call := calls[..|calls| - 1], calls[|calls| - 1];
      var c := Calls(max, ids, before);
      CallsOrigins(max, ids, before);
      OriginsGrow(c.byId, ids, before, call);
      assert before + [call] == calls;
      forall o | o in After(c, max, ids, call).byId ensures HasOrigin(ids, calls, o) {
        if o !in c.byId {
          EntriesPut(c.byId, ids(call.hash), call.outs, o);
          assert calls[|calls| - 1] == call;
        }
      }
    }
  }

  /** What is inserted names whatever is live of its transaction. */
  lemma {:induction false} LiveIsNamed(max: nat, ids: Ids, calls: seq<Call>, h: Hash, outs: seq<CachedOut>)
    requires OneToOne(ids) && Proper(calls + [Insert(h, outs)])
    ensures NamesLive(Calls(max, ids, calls), ids(h), outs) && DistinctVouts(outs)
  {
    var c, all := Calls(max, ids, calls), calls + [Insert(h, outs)];
    CallsOrigins(max, ids, calls);
    assert all[|calls|] == Insert(h, outs);
    forall o | o in c.byId && o.txId == ids(h) ensures Lists(outs, o.vout) {
      assert HasOrigin(ids, calls, o);
      var i :| 0 <= i < |calls| && calls[i].Insert? && ids(calls[i].hash) == o.txId && Lists(calls[i].outs, o.vout);
      assert all[i] == calls[i] && calls[i].hash == h;
    }
  }

  /** The class invariant of the cache over any call sequence. */
  lemma {:induction false} CallsConsistent(max: nat, ids: Ids, calls: seq<Call>)
    requires OneToOne(ids) && Proper(calls)
    ensures Consistent(Calls(max, ids, calls), max, ids)
  {
    if calls != [] {
      var before, call := calls[..|calls| - 1], calls[|calls| - 1];
      ProperPrefix(calls);
      CallsConsistent(max, ids, before);
      assert before + [call] == calls;
      match call {
        case Insert(h, outs) =>
          LiveIsNamed(max, ids, before, h, outs);
          InsertKeeps(Calls(max, ids, before), max, ids, h, outs);
        case Spent(h, v) => SpentKeeps(Calls(max, ids, before), max, ids, h, v);
      }
    }
  }

  // ------------------------------------------------------------ the simple form

  datatype Ref = Ref(hash: Hash, vout: int)

  function PutRefs(m: map<Ref, Entry>, h: Hash, outs: seq<CachedOut>): map<Ref, Entry> {
    if outs == [] then m else
      var o := outs[|outs| - 1];
      PutRefs(m, h, outs[..|outs| - 1])[Ref(h, o.vout) := Entry(o.address, o.value)]
  }

  /** One insertion into a bounded map: all of the list or, past the cap, nothing. */
  function PutAll(m: map<Ref, Entry>, max: nat, h: Hash, outs: seq<CachedOut>): map<Ref, Entry> {
    if outs == [] || |m| + |outs| > max then m else PutRefs(m, h, outs)
  }

  /** A bounded map from outpoints to values: no ids, no refcounts. */
  function Simple(max: nat, calls: seq<Call>): map<Ref, Entry> {
    if calls == [] then map[] else
      var m := Simple(max, calls[..|calls| - 1]);
      match calls[|calls| - 1]
      case Insert(h, outs) => PutAll(m, max, h, outs)
      case Spent(h, v) => m - {Ref(h, v)}
  }

  /** The cache and the bounded map hold the same entries. */
  ghost predicate Mirrors(hashToId: map<Hash, int>, byId: map<Outpoint, Entry>, m: map<Ref, Entry>) {
    && (forall r :: r in m ==> r.hash in hashToId && Outpoint(hashToId[r.hash], r.vout) in byId
                               && byId[Outpoint(hashToId[r.hash], r.vout)] == m[r])
    && (forall h, v :: h in hashToId && Outpoint(hashToId[h], v) in byId ==> Ref(h, v) in m)
    && |byId| == |m|
  }

  lemma {:induction false} PutMirrors(hashToId: map<Hash, int>, byId: map<Outpoint, Entry>, m: map<Ref, Entry>, h: Hash,
                                      outs: seq<CachedOut>)
    requires Mirrors(hashToId, byId, m) && h in hashToId
    requires forall f, g :: f in hashToId && g in hashToId && hashToId[f] == hashToId[g] ==> f == g
    ensures Mirrors(hashToId, PutEntries(byId, hashToId[h], outs), PutRefs(m, h, outs))
  {
    if outs != [] {
      var n := |outs| - 1;
      PutMirrors(hashToId, byId, m, h, outs[..n]);
      PutOneMirrors(hashToId, PutEntries(byId, hashToId[h], outs[..n]), PutRefs(m, h, outs[..n]),
                    h, outs[n].vout, Entry(outs[n].address, outs[n].value));
    }
  }

  lemma {:induction false} PutOneMirrors(hashToId: map<Hash, int>, byId: map<Outpoint, Entry>, m: map<Ref, Entry>,
                                         h: Hash, v: int, e: Entry)
    requires Mirrors(hashToId, byId, m) && h in hashToId
    requires forall f, g :: f in hashToId && g in hashToId && hashToId[f] == hashToId[g] ==> f == g
    ensures Mirrors(hashToId, byId[Outpoint(hashToId[h], v) := e], m[Ref(h, v) := e])
  {
    assert Outpoint(hashToId[h], v) in byId <==> Ref(h, v) in m;
  }

  /** An entry of a transaction makes its hash known. */
  lemma {:induction false} EntryHasHash(c: Cache, ids: Ids, h: Hash, o: Outpoint)
    requires HashesCounted(c, ids) && NoOrphans(c) && OneToOne(ids) && o in c.byId && o.txId == ids(h)
    ensures h in c.hashToId
  {
    var g :| g in c.hashToId && ids(g) == o.txId;
  }

  lemma {:induction false} InsertMirrors(c: Cache, max: nat, ids: Ids, m: map<Ref, Entry>, h: Hash,
                                         outs: seq<CachedOut>)
    requires Consistent(c, max, ids) && OneToOne(ids) && Mirrors(c.hashToId, c.byId, m)
    ensures var c' := After(c, max, ids, Insert(h, outs)); Mirrors(c'.hashToId, c'.byId, PutAll(m, max, h, outs))
  {
    if !Skips(c, max, outs) {
      var hashes := c.hashToId[h := ids(h)];
      assert Mirrors(hashes, c.byId, m) by {
        forall v | Outpoint(ids(h), v) in c.byId ensures Ref(h, v) in m {
          EntryHasHash(c, ids, h, Outpoint(ids(h), v));
        }
      }
      PutMirrors(hashes, c.byId, m, h, outs);
    }
  }

  lemma {:induction false} DropMirrors(hashToId: map<Hash, int>, byId: map<Outpoint, Entry>, m: map<Ref, Entry>,
                                       h: Hash, v: int, hashes: map<Hash, int>)
    requires Mirrors(hashToId, byId, m) && h in hashToId && Outpoint(hashToId[h], v) in byId
    requires forall f, g :: f in hashToId && g in hashToId && hashToId[f] == hashToId[g] ==> f == g
    requires hashes == hashToId || (hashes == hashToId - {h} && forall u :: Outpoint(hashToId[h], u) in byId ==> u == v)
    ensures Mirrors(hashes, byId - {Outpoint(hashToId[h], v)}, m - {Ref(h, v)})
  {
    assert Ref(h, v) in m;
  }

  lemma {:induction false} ReleasedMirrors(c: Cache, max: nat, ids: Ids, m: map<Ref, Entry>, h: Hash, v: int)
    requires Consistent(c, max, ids) && OneToOne(ids) && Mirrors(c.hashToId, c.byId, m) && Found(c, h, v).Some?
    ensures Mirrors(Released(c, h, v).hashToId, Released(c, h, v).byId, m - {Ref(h, v)})
  {
    var c', id := Released(c, h, v), c.hashToId[h];
    if c'.hashToId != c.hashToId {
      forall u | Outpoint(id, u) in c.byId ensures u == v {
        SpentLast(c, h, v, u);
      }
    }
    DropMirrors(c.hashToId, c.byId, m, h, v, c'.hashToId);
  }

  lemma {:induction false} SpentMirrors(c: Cache, max: nat, ids: Ids, m: map<Ref, Entry>, h: Hash, v: int)
    requires Consistent(c, max, ids) && OneToOne(ids) && Mirrors(c.hashToId, c.byId, m)
    ensures var c' := After(c, max, ids, Spent(h, v));
            Mirrors(c'.hashToId, c'.byId, m - {Ref(h, v)})
  {
    if Found(c, h, v).Some? {
      ReleasedMirrors(c, max, ids, m, h, v);
    } else {
      assert Ref(h, v) !in m;
      assert m - {Ref(h, v)} == m;
    }
  }

  /** A hash is only dropped with its last entry. */
  lemma {:induction false} SpentLast(c: Cache, h: Hash, v: int, u: int)
    requires CountsLive(c) && h in c.hashToId && c.hashToId[h] in c.refcount && c.refcount[c.hashToId[h]] == 1
    requires Outpoint(c.hashToId[h], v) in c.byId && Outpoint(c.hashToId[h], u) in c.byId
    ensures u == v
  {
    var live, o, p := LiveOf(c.byId, c.hashToId[h]), Outpoint(c.hashToId[h], v), Outpoint(c.hashToId[h], u);
    assert o in live && p in live;
    assert |live - {o}| == 0;
    assert p != o ==> p in live - {o};
  }

  /** Refinement: over any calls, at any capacity, a lookup hits exactly when the
   * bounded map holds the outpoint, with the transaction's id and the value last
   * inserted there; and the cache never holds more than the cap. */
  lemma {:induction false} CacheIsBoundedMap(max: nat, ids: Ids, calls: seq<Call>)
    requires OneToOne(ids) && Proper(calls)
    ensures var c, m := Calls(max, ids, calls), Simple(max, calls);
            && |c.byId| == |m| <= max
            && forall h, v :: Found(c, h, v) ==
                 if Ref(h, v) in m then Some(Hit(ids(h), m[Ref(h, v)].address, m[Ref(h, v)].value)) else None
  {
    CallsConsistent(max, ids, calls);
    CallsMirror(max, ids, calls);
  }

  lemma {:induction false} CallsMirror(max: nat, ids: Ids, calls: seq<Call>)
    requires OneToOne(ids) && Proper(calls)
    ensures Mirrors(Calls(max, ids, calls).hashToId, Calls(max, ids, calls).byId, Simple(max, calls))
  {
    if calls != [] {
      var before, call := calls[..|calls| - 1], calls[|calls| - 1];
      ProperPrefix(calls);
      CallsMirror(max, ids, before);
      CallsConsistent(max, ids, before);
      match call {
        case Insert(h, outs) => InsertMirrors(Calls(max, ids, before), max, ids, Simple(max, before), h, outs);
        case Spent(h, v) => SpentMirrors(Calls(max, ids, before), max, ids, Simple(max, before), h, v);
      }
    }
  }

  lemma {:induction false} OneMore(max: nat, ids: Ids, calls: seq<Call>, call: Call, more: seq<Call>)
    requires more == calls + [call]
    ensures Calls(max, ids, more) == After(Calls(max, ids, calls), max, ids, call)
    ensures call.Insert? ==> Simple(max, more) == PutAll(Simple(max, calls), max, call.hash, call.outs)
    ensures call.Spent? ==> Simple(max, more) == Simple(max, calls) - {Ref(call.hash, call.vout)}
  {
    assert more[..|more| - 1] == calls;
  }

  lemma {:induction false} OnePut(c: Cache, max: nat, h: Hash, id: int, a: CachedOut, m: map<Ref, Entry>)
    requires |c.byId| < max && |m| < max
    ensures Inserted(c, max, h, id, [a]) ==
            Cache(c.hashToId[h := id], c.byId[Outpoint(id, a.vout) := Entry(a.address, a.value)], c.refcount[id := 1])
    ensures PutAll(m, max, h, [a]) == m[Ref(h, a.vout) := Entry(a.address, a.value)]
  {
    var outs := [a];
    assert outs[..|outs| - 1] == [] && !Skips(c, max, outs);
    assert PutEntries(c.byId, id, []) == c.byId && PutRefs(m, h, []) == m;
  }

  lemma {:induction false} SizeOfOne<K, V>(k: K, v: V)
    ensures |map[k := v]| == 1
  {
    assert map[k := v].Keys == {k};
    assert |map[k := v]| == |map[k := v].Keys|;
  }

  /** Why a transaction has to come with its earlier vouts again: inserted with one output,
   * then with another, and the second spent, the cache has lost the first, which the bounded
   * map still holds. */
  lemma {:induction false} ShorterListLoses(ids: Ids, h: Hash, a: CachedOut, b: CachedOut, max: nat)
    requires a.vout != b.vout && max >= 2
    ensures var calls := [Insert(h, [a]), Insert(h, [b]), Spent(h, b.vout)];
            Ref(h, a.vout) in Simple(max, calls) && Found(Calls(max, ids, calls), h, a.vout) == None
  {
    var one := [Insert(h, [a])];
    var two := one + [Insert(h, [b])];
    var three := two + [Spent(h, b.vout)];
    var id, entry := ids(h), Entry(a.address, a.value);
    assert one == [] + [Insert(h, [a])] && three == [Insert(h, [a]), Insert(h, [b]), Spent(h, b.vout)];
    OneMore(max, ids, [], Insert(h, [a]), one);
    OnePut(NOTHING, max, h, id, a, map[]);
    OneMore(max, ids, one, Insert(h, [b]), two);
    SizeOfOne(Outpoint(id, a.vout), entry);
    SizeOfOne(Ref(h, a.vout), entry);
    OnePut(Calls(max, ids, one), max, h, id, b, Simple(max, one));
    OneMore(max, ids, two, Spent(h, b.vout), three);
  }
}
