/** The BIP 44 gap-limit scan of an extended public key over a partial cache. Key
 * derivation is the function `path`, from index to address, of one branch. */
module XpubScan {
  import opened Prelude

  type Address = string

  const MAX_ADDRESSES := 5000
  const DERIVATION_BATCH := 100

  /** Addresses the index knows, with their ids: a used address is one with a row. */
  type Ids = map<Address, int>

  datatype BranchCache = BranchCache(derived: seq<Address>, ids: Ids)

  /** The digest stands for the key: no xpub reaches the store. */
  datatype CacheKey = CacheKey(digest: string, branch: int)

  datatype Derived = Derived(address: Address, branch: int, index: int, addressId: Option<int>)

  datatype Scanned = Scanned(branch: int, addresses: seq<Derived>, addressIds: seq<int>, firstUnused: Option<int>)

  // ------------------------------------------------------------ the naive scan

  /** Where walking one address at a time from `i`, after `run` unused ones in a row, stops. */
  function StopFrom(path: int -> Address, db: Ids, gap: nat, i: nat, run: nat): (n: nat)
    decreases MAX_ADDRESSES - i
  {
    if run < gap && i < MAX_ADDRESSES
    then StopFrom(path, db, gap, i + 1, if path(i) in db then 0 else run + 1)
    else i
  }

  function IdOf(db: Ids, a: Address): Option<int> {
    if a in db then Some(db[a]) else None
  }

  function Row(path: int -> Address, db: Ids, branch: int, i: int): Derived {
    Derived(path(i), branch, i, IdOf(db, path(i)))
  }

  function UsedIds(path: int -> Address, db: Ids, n: nat): seq<int> {
    if n == 0 then [] else UsedIds(path, db, n - 1) + if path(n - 1) in db then [db[path(n - 1)]] else []
  }

  function FirstUnused(path: int -> Address, db: Ids, n: nat): Option<int> {
    if n == 0 then None else
      var before := FirstUnused(path, db, n - 1);
      if before.None? && path(n - 1) !in db then Some(n - 1) else before
  }

  /** The scan without any cache. */
  function NaiveScan(path: int -> Address, db: Ids, branch: int, gap: nat): Scanned {
    var n := StopFrom(path, db, gap, 0, 0);
    Scanned(branch, seq(n, i => Row(path, db, branch, i)), UsedIds(path, db, n), FirstUnused(path, db, n))
  }

  /** The `gap` addresses before `n` are all unused. */
  predicate GapBefore(path: int -> Address, db: Ids, gap: nat, n: nat) {
    gap <= n && forall i :: n - gap <= i < n ==> path(i) !in db
  }

  ghost predicate RunBefore(path: int -> Address, db: Ids, i: nat, run: nat) {
    run <= i && (forall j :: i - run <= j < i ==> path(j) !in db) && (run < i ==> path(i - run - 1) in db)
  }

  lemma {:induction false} StopIsLeast(path: int -> Address, db: Ids, gap: nat, i: nat, run: nat)
    requires RunBefore(path, db, i, run) && i <= MAX_ADDRESSES && run <= gap
    requires forall m :: 0 <= m < i ==> !GapBefore(path, db, gap, m)
    ensures var n := StopFrom(path, db, gap, i, run);
            && i <= n <= MAX_ADDRESSES
            && (n == MAX_ADDRESSES || GapBefore(path, db, gap, n))
            && forall m :: 0 <= m < n ==> !GapBefore(path, db, gap, m)
    decreases MAX_ADDRESSES - i
  {
    if run < gap && i < MAX_ADDRESSES {
      assert !GapBefore(path, db, gap, i) by {
        if run < i {
          assert path(i - run - 1) in db;
        }
      }
      StopIsLeast(path, db, gap, i + 1, if path(i) in db then 0 else run + 1);
    }
  }

  /** BIP 44's address gap limit: the scan covers the shortest prefix that ends in
   * `gap` unused addresses, or the cap if no such prefix is within it. */
  lemma {:induction false} ScanEndsAtGap(path: int -> Address, db: Ids, branch: int, gap: nat)
    ensures var n := |NaiveScan(path, db, branch, gap).addresses|;
            && n <= MAX_ADDRESSES
            && (n == MAX_ADDRESSES || GapBefore(path, db, gap, n))
            && forall m :: 0 <= m < n ==> !GapBefore(path, db, gap, m)
  {
    StopIsLeast(path, db, gap, 0, 0);
  }

  lemma {:induction false} FirstUnusedIs(path: int -> Address, db: Ids, n: nat)
    ensures var first := FirstUnused(path, db, n);
            if first.None? then forall i :: 0 <= i < n ==> path(i) in db
            else 0 <= first.value < n && path(first.value) !in db && forall i :: 0 <= i < first.value ==> path(i) in db
  {
    if n > 0 {
      FirstUnusedIs(path, db, n - 1);
    }
  }

  /** A wallet that is not full always has a next unused address, the least one. */
  lemma {:induction false} NextUnused(path: int -> Address, db: Ids, branch: int, gap: nat)
    requires gap >= 1
    ensures var s := NaiveScan(path, db, branch, gap);
            && (s.firstUnused.None? ==>
                  |s.addresses| == MAX_ADDRESSES && forall i :: 0 <= i < MAX_ADDRESSES ==> path(i) in db)
            && (s.firstUnused.Some? ==>
                  && 0 <= s.firstUnused.value < |s.addresses|
                  && path(s.firstUnused.value) !in db
                  && forall i :: 0 <= i < s.firstUnused.value ==> path(i) in db)
  {
    var n := StopFrom(path, db, gap, 0, 0);
    ScanEndsAtGap(path, db, branch, gap);
    FirstUnusedIs(path, db, n);
    if n < MAX_ADDRESSES {
      assert path(n - 1) !in db;
    }
  }

  /** Row `i` is address `i` of the branch, with the id that the index has for it. */
  predicate RowIs(r: Derived, path: int -> Address, db: Ids, branch: int, i: int) {
    && r.address == path(i) && r.branch == branch && r.index == i
    && (r.addressId.Some? <==> path(i) in db)
    && (path(i) in db ==> r.addressId.value == db[path(i)])
  }

  /** The used ones among the first `n` addresses. */
  function UsedBelow(path: int -> Address, db: Ids, n: nat): set<int> {
    set i | 0 <= i < n && path(i) in db
  }

  /** One id for every used address, in the order of their indices: the id of address `i` comes
   * after as many ids as there are used addresses before it. */
  ghost predicate IdsInOrder(ids: seq<int>, path: int -> Address, db: Ids, n: nat) {
    && |ids| == |UsedBelow(path, db, n)|
    && (forall i :: 0 <= i < n && path(i) in db ==>
          |UsedBelow(path, db, i)| < |ids| && ids[|UsedBelow(path, db, i)|] == db[path(i)])
  }

  /** What a branch's scan says, without saying how it is found. */
  ghost predicate BranchIs(s: Scanned, path: int -> Address, db: Ids, branch: int, gap: nat) {
    var n := |s.addresses|;
    && s.branch == branch
    && n <= 5000 && (n == 5000 || GapBefore(path, db, gap, n))
    && (forall m :: 0 <= m < n ==> !GapBefore(path, db, gap, m))
    && (forall i :: 0 <= i < n ==> RowIs(s.addresses[i], path, db, branch, i))
    && IdsInOrder(s.addressIds, path, db, n)
    && (gap >= 1 ==> LeastUnused(path, db, s.firstUnused))
  }

  /** The least unused index, or none when all up to the cap are used. */
  predicate LeastUnused(path: int -> Address, db: Ids, next: Option<int>) {
    if next.None? then forall i :: 0 <= i < 5000 ==> path(i) in db
    else 0 <= next.value < 5000 && path(next.value) !in db && forall i :: 0 <= i < next.value ==> path(i) in db
  }

  lemma {:induction false} UsedBelowNext(path: int -> Address, db: Ids, n: nat)
    ensures |UsedBelow(path, db, n + 1)| == |UsedBelow(path, db, n)| + if path(n) in db then 1 else 0
  {
    assert UsedBelow(path, db, n + 1) == UsedBelow(path, db, n) + if path(n) in db then {n} else {};
    assert n !in UsedBelow(path, db, n);
  }

  lemma {:induction false} UsedIdsInOrder(path: int -> Address, db: Ids, n: nat)
    ensures IdsInOrder(UsedIds(path, db, n), path, db, n)
  {
    if n == 0 {
      assert UsedBelow(path, db, 0) == {};
    } else {
      UsedIdsInOrder(path, db, n - 1);
      UsedBelowNext(path, db, n - 1);
    }
  }

  /** An id is listed if and only if some row has it. */
  lemma {:induction false} ListedIffRow(s: Scanned, path: int -> Address, db: Ids, branch: int, gap: nat, x: int)
    requires BranchIs(s, path, db, branch, gap)
    ensures x in s.addressIds <==> exists i :: 0 <= i < |s.addresses| && s.addresses[i].addressId == Some(x)
  {
    var n := |s.addresses|;
    if i :| 0 <= i < n && s.addresses[i].addressId == Some(x) {
      assert RowIs(s.addresses[i], path, db, branch, i);
      assert s.addressIds[|UsedBelow(path, db, i)|] == x;
    }
    if k :| 0 <= k < |s.addressIds| && s.addressIds[k] == x {
      var i := UsedAt(path, db, n, k);
      assert RowIs(s.addresses[i], path, db, branch, i);
    }
  }

  /** The address of the `k`th id. */
  lemma {:induction false} UsedAt(path: int -> Address, db: Ids, n: nat, k: nat) returns (i: nat)
    requires k < |UsedBelow(path, db, n)|
    ensures i < n && path(i) in db && |UsedBelow(path, db, i)| == k
  {
    assert UsedBelow(path, db, 0) == {};
    UsedBelowNext(path, db, n - 1);
    if path(n - 1) in db && k == |UsedBelow(path, db, n - 1)| {
      i := n - 1;
    } else {
      i := UsedAt(path, db, n - 1, k);
    }
  }

  /** The scan's rows, ids and next unused address. */
  lemma {:induction false} ScanIs(path: int -> Address, db: Ids, branch: int, gap: nat)
    ensures BranchIs(NaiveScan(path, db, branch, gap), path, db, branch, gap)
  {
    var s := NaiveScan(path, db, branch, gap);
    ScanEndsAtGap(path, db, branch, gap);
    UsedIdsInOrder(path, db, |s.addresses|);
    if gap >= 1 {
      NextUnused(path, db, branch, gap);
    }
  }

  // --------------------------------------------------------------- the cache

  /** True derivation prefix, ids true and a subset of the used ones. */
  predicate Consistent(c: BranchCache, path: int -> Address, db: Ids) {
    && |c.derived| <= MAX_ADDRESSES
    && (forall i :: 0 <= i < |c.derived| ==> c.derived[i] == path(i))
    && (forall a :: a in c.ids ==> IdOf(db, a) == Some(c.ids[a]))
  }

  /** Caching used-ness is safe while the index only ever gains addresses. */
  lemma {:induction false} ConsistentLater(c: BranchCache, path: int -> Address, db: Ids, later: Ids)
    requires Consistent(c, path, db) && forall a :: a in db ==> IdOf(later, a) == Some(db[a])
    ensures Consistent(c, path, later)
  {
  }

  /** The shared store of branch entries; an entry may be absent at any time. */
  class BranchStore {
    var entries: map<CacheKey, BranchCache>

    constructor ()
      ensures entries == map[]
    {
      entries := map[];
    }

    method Get(key: CacheKey) returns (c: Option<BranchCache>)
      ensures c == if key in entries then Some(entries[key]) else None
    {
      c := if key in entries then Some(entries[key]) else None;
    }

    method Set(key: CacheKey, c: BranchCache)
      modifies this
      ensures entries == old(entries)[key := c]
    {
      entries := entries[key := c];
    }
  }

  // ----------------------------------------------------------- the lazy scan

  method Derive(path: int -> Address, from: nat, count: nat) returns (addresses: seq<Address>)
    ensures |addresses| == count && forall i :: 0 <= i < count ==> addresses[i] == path(from + i)
  {
    addresses := [];
    for i := 0 to count
      invariant |addresses| == i && forall j :: 0 <= j < i ==> addresses[j] == path(from + j)
    {
      addresses := addresses + [path(from + i)];
    }
  }

  method LookupIds(db: Ids, addresses: seq<Address>) returns (found: Ids)
    ensures found == map a | a in addresses && a in db :: db[a]
  {
    found := map a | a in addresses && a in db :: db[a];
  }

  function Unknown(addresses: seq<Address>, known: Ids): (r: seq<Address>)
    ensures forall a :: a in r <==> a in addresses && a !in known
  {
    if addresses == [] then [] else
      Unknown(addresses[..|addresses| - 1], known)
        + if addresses[|addresses| - 1] in known then [] else [addresses[|addresses| - 1]]
  }

  /** What is known of the index, and exactly so for the first `n` derived addresses. */
  predicate KnowsUpTo(known: Ids, db: Ids, derived: seq<Address>, n: nat) {
    && n <= |derived|
    && (forall a :: a in known ==> IdOf(db, a) == Some(known[a]))
    && (forall i :: 0 <= i < n ==> (derived[i] in known <==> derived[i] in db))
  }

  method ConfirmUpTo(index: nat, derived: seq<Address>, db: Ids, known0: Ids, checkedTo0: nat)
    returns (known: Ids, checkedTo: nat)
    requires KnowsUpTo(known0, db, derived, checkedTo0)
    ensures KnowsUpTo(known, db, derived, checkedTo)
    ensures checkedTo > index || checkedTo == |derived|
    ensures known0.Keys <= known.Keys && checkedTo0 <= checkedTo
  {
    known, checkedTo := known0, checkedTo0;
    while checkedTo <= index && checkedTo < |derived|
      invariant KnowsUpTo(known, db, derived, checkedTo)
      invariant known0.Keys <= known.Keys && checkedTo0 <= checkedTo
      decreases |derived| - checkedTo
    {
      var to := if checkedTo + DERIVATION_BATCH <= |derived| then checkedTo + DERIVATION_BATCH else |derived|;
      var slice := Unknown(derived[checkedTo..to], known);
      var found := LookupIds(db, slice);
      ghost var before := known;
      known := known + found;
      forall i | 0 <= i < to ensures derived[i] in known <==> derived[i] in db {
        if i >= checkedTo {
          assert derived[checkedTo..to][i - checkedTo] == derived[i];
        }
      }
      checkedTo := to;
    }
  }

  method Collect(derived: seq<Address>, known: Ids, n: nat, branch: int, ghost path: int -> Address, ghost db: Ids)
    returns (s: Scanned)
    requires KnowsUpTo(known, db, derived, n) && forall i :: 0 <= i < |derived| ==> derived[i] == path(i)
    ensures s == Scanned(branch, seq(n, i => Row(path, db, branch, i)), UsedIds(path, db, n), FirstUnused(path, db, n))
  {
    var addresses: seq<Derived>, addressIds: seq<int>, firstUnused: Option<int> := [], [], None;
    for i := 0 to n
      invariant addresses == seq(i, j => Row(path, db, branch, j))
      invariant addressIds == UsedIds(path, db, i) && firstUnused == FirstUnused(path, db, i)
    {
      var addressId := IdOf(known, derived[i]);
      if addressId.None? && firstUnused.None? {
        firstUnused := Some(i);
      }
      if addressId.Some? {
        addressIds := addressIds + [addressId.value];
      }
      addresses := addresses + [Derived(derived[i], branch, i, addressId)];
    }
    s := Scanned(branch, addresses, addressIds, firstUnused);
  }

  /** One step of the walk: extend the derived list if it is used up. */
  method Extend(path: int -> Address, derived0: seq<Address>, gap: nat) returns (derived: seq<Address>)
    requires gap >= 1 && |derived0| < MAX_ADDRESSES
    requires forall i :: 0 <= i < |derived0| ==> derived0[i] == path(i)
    ensures derived0 < derived && |derived| <= MAX_ADDRESSES
    ensures forall i :: 0 <= i < |derived| ==> derived[i] == path(i)
  {
    var wanted := if |derived0| < DERIVATION_BATCH then gap else DERIVATION_BATCH;
    var count := if wanted <= MAX_ADDRESSES - |derived0| then wanted else MAX_ADDRESSES - |derived0|;
    var more := Derive(path, |derived0|, count);
    derived := derived0 + more;
  }

  lemma {:induction false} StopStep(path: int -> Address, db: Ids, gap: nat, i: nat, run: nat)
    requires run < gap && i < MAX_ADDRESSES
    ensures StopFrom(path, db, gap, i, run) == StopFrom(path, db, gap, i + 1, if path(i) in db then 0 else run + 1)
  {
  }

  /** Address `index` is derived and its use known. */
  method Reach(path: int -> Address, db: Ids, gap: nat, derived0: seq<Address>, known0: Ids, checkedTo0: nat,
               index: nat)
    returns (derived: seq<Address>, known: Ids, checkedTo: nat)
    requires gap >= 1 && index < MAX_ADDRESSES && index <= |derived0| && index <= checkedTo0
    requires Consistent(BranchCache(derived0, known0), path, db) && KnowsUpTo(known0, db, derived0, checkedTo0)
    ensures Consistent(BranchCache(derived, known), path, db) && KnowsUpTo(known, db, derived, checkedTo)
    ensures derived0 <= derived && known0.Keys <= known.Keys && index < checkedTo
    ensures derived[index] in known <==> path(index) in db
  {
    derived := derived0;
    if index >= |derived| {
      derived := Extend(path, derived, gap);
    }
    known, checkedTo := ConfirmUpTo(index, derived, db, known0, checkedTo0);
  }

  /** The walk: addresses are derived and looked up only as far as it gets. */
  method Walk(path: int -> Address, db: Ids, gap: nat, derived0: seq<Address>, known0: Ids)
    returns (derived: seq<Address>, known: Ids, scannedTo: nat)
    requires Consistent(BranchCache(derived0, known0), path, db)
    ensures Consistent(BranchCache(derived, known), path, db) && derived0 <= derived && known0.Keys <= known.Keys
    ensures scannedTo == StopFrom(path, db, gap, 0, 0) && KnowsUpTo(known, db, derived, scannedTo)
  {
    derived, known, scannedTo := derived0, known0, 0;
    var checkedTo, run := 0, 0;
    while run < gap && scannedTo < MAX_ADDRESSES
      invariant 0 <= scannedTo <= |derived| && scannedTo <= checkedTo
      invariant Consistent(BranchCache(derived, known), path, db) && derived0 <= derived && known0.Keys <= known.Keys
      invariant KnowsUpTo(known, db, derived, checkedTo)
      invariant StopFrom(path, db, gap, scannedTo, run) == StopFrom(path, db, gap, 0, 0)
      decreases MAX_ADDRESSES - scannedTo
    {
      derived, known, checkedTo := Reach(path, db, gap, derived, known, checkedTo, scannedTo);
      StopStep(path, db, gap, scannedTo, run);
      run := if derived[scannedTo] in known then 0 else run + 1;
      scannedTo := scannedTo + 1;
    }
  }

  /** The entry covers the scan: its addresses and the ids of the used ones. */
  predicate Covers(c: BranchCache, s: Scanned) {
    && |s.addresses| <= |c.derived|
    && forall i :: 0 <= i < |s.addresses| && s.addresses[i].addressId.Some? ==> s.addresses[i].address in c.ids
  }

  /** `scanBranch`: for every gap limit and every consistent cache entry, or none, the
   * result is the naive scan's, and the entry left behind is consistent and covers it.
   * Only this branch's entry can change. */
  method ScanBranch(path: int -> Address, db: Ids, store: BranchStore, key: CacheKey, branch: int, gap: nat)
    returns (s: Scanned)
    requires key in store.entries ==> Consistent(store.entries[key], path, db)
    modifies store
    ensures s == NaiveScan(path, db, branch, gap) && BranchIs(s, path, db, branch, gap)
    ensures key in store.entries ==> Consistent(store.entries[key], path, db) && Covers(store.entries[key], s)
    ensures key !in store.entries ==> s.addresses == []
    ensures forall k :: k != key ==> (k in store.entries <==> k in old(store.entries))
    ensures forall k :: k != key && k in store.entries ==> store.entries[k] == old(store.entries)[k]
  {
    var cached := store.Get(key);
    var derived := if cached.Some? then cached.value.derived else [];
    var known := if cached.Some? then cached.value.ids else map[];
    ghost var before := BranchCache(derived, known);
    var cachedCount, cachedIds := |derived|, |known|;
    var scannedTo;
    derived, known, scannedTo := Walk(path, db, gap, derived, known);
    s := Collect(derived, known, scannedTo, branch, path, db);
    ScanIs(path, db, branch, gap);
    if |derived| != cachedCount || |known| != cachedIds {
      store.Set(key, BranchCache(derived, known));
    } else {
      NothingLearned(before, BranchCache(derived, known), path, db);
    }
  }

  /** An entry that has not grown has not changed. */
  lemma {:induction false} NothingLearned(a: BranchCache, b: BranchCache, path: int -> Address, db: Ids)
    requires Consistent(a, path, db) && Consistent(b, path, db) && a.derived <= b.derived && a.ids.Keys <= b.ids.Keys
    requires |a.derived| == |b.derived| && |a.ids| == |b.ids|
    ensures a == b
  {
    SameSize(a.ids, b.ids, db);
  }

  // ---------------------------------------------------------- the whole wallet

  /** Every stored entry is consistent with its own branch. */
  ghost predicate StoreOk(entries: map<CacheKey, BranchCache>, pathOf: CacheKey -> int -> Address, db: Ids) {
    forall k :: k in entries ==> Consistent(entries[k], pathOf(k), db)
  }

  /** The store stays good while the index gains addresses and entries expire. */
  lemma {:induction false} StoreLater(entries: map<CacheKey, BranchCache>, left: map<CacheKey, BranchCache>,
                                      pathOf: CacheKey -> int -> Address, db: Ids, later: Ids)
    requires StoreOk(entries, pathOf, db) && forall a :: a in db ==> IdOf(later, a) == Some(db[a])
    requires forall k :: k in left ==> k in entries && left[k] == entries[k]
    ensures StoreOk(left, pathOf, later)
  {
    forall k | k in left ensures Consistent(left[k], pathOf(k), later) {
      ConsistentLater(entries[k], pathOf(k), db, later);
    }
  }

  datatype Wallet = Wallet(addresses: seq<Derived>, addressIds: seq<int>, nextReceive: Option<int>,
                           nextChange: Option<int>)

  function NaiveWallet(pathOf: CacheKey -> int -> Address, db: Ids, digest: string, gap: nat): Wallet {
    var receive := NaiveScan(pathOf(CacheKey(digest, 0)), db, 0, gap);
    var change := NaiveScan(pathOf(CacheKey(digest, 1)), db, 1, gap);
    Wallet(receive.addresses + change.addresses, receive.addressIds + change.addressIds, receive.firstUnused,
           change.firstUnused)
  }

  /** Receive addresses, then change addresses, and the least unused one of each. */
  ghost predicate WalletIs(w: Wallet, pathOf: CacheKey -> int -> Address, db: Ids, digest: string, gap: nat) {
    exists receive, change ::
      && BranchIs(receive, pathOf(CacheKey(digest, 0)), db, 0, gap)
      && BranchIs(change, pathOf(CacheKey(digest, 1)), db, 1, gap)
      && w.addresses == receive.addresses + change.addresses
      && w.addressIds == receive.addressIds + change.addressIds
      && w.nextReceive == receive.firstUnused && w.nextChange == change.firstUnused
  }

  /** `scan`: both branches, each on its own entry. */
  method ScanWallet(pathOf: CacheKey -> int -> Address, db: Ids, store: BranchStore, digest: string, gap: nat)
    returns (w: Wallet)
    requires StoreOk(store.entries, pathOf, db)
    modifies store
    ensures w == NaiveWallet(pathOf, db, digest, gap) && WalletIs(w, pathOf, db, digest, gap)
    ensures gap >= 1 ==> LeastUnused(pathOf(CacheKey(digest, 0)), db, w.nextReceive)
                         && LeastUnused(pathOf(CacheKey(digest, 1)), db, w.nextChange)
    ensures StoreOk(store.entries, pathOf, db)
  {
    var key0, key1 := CacheKey(digest, 0), CacheKey(digest, 1);
    var receive := ScanBranch(pathOf(key0), db, store, key0, 0, gap);
    var change := ScanBranch(pathOf(key1), db, store, key1, 1, gap);
    w := Wallet(receive.addresses + change.addresses, receive.addressIds + change.addressIds, receive.firstUnused,
                change.firstUnused);
  }

  lemma {:induction false} SameSize(a: Ids, b: Ids, db: Ids)
    requires a.Keys <= b.Keys && |a| == |b|
    requires forall x :: x in a ==> IdOf(db, x) == Some(a[x])
    requires forall x :: x in b ==> IdOf(db, x) == Some(b[x])
    ensures a == b
  {
    assert |a.Keys| == |a| && |b.Keys| == |b|;
    SubsetSize(a.Keys, b.Keys);
  }

  lemma {:induction false} SubsetSize(a: set<Address>, b: set<Address>)
    requires a <= b && |a| == |b|
    ensures a == b
  {
    if x :| x in b && x !in a {
      assert |b - {x}| == |b| - 1;
      SubsetLeq(a, b - {x});
    }
  }

  lemma {:induction false} SubsetLeq(a: set<Address>, b: set<Address>)
    requires a <= b
    ensures |a| <= |b|
    decreases |a|
  {
    if a != {} {
      var x :| x in a;
      SubsetLeq(a - {x}, b - {x});
    }
  }
}
