/** Keyset pagination over the merged history of many addresses: the newest N of
 * every address, merged, cut to a page, continued from a cursor. */
module XpubHistory {
  import opened Prelude
  import opened Ledger

  /** A transaction in a listing; `height` is None while it is pending. */
  datatype Row = Row(height: Option<int>, id: int)

  /** ORDER BY block_height DESC, id DESC: NULLs sort first. */
  predicate Above(x: Row, y: Row) {
    if x.height.None? then y.height.Some? || x.id > y.id
    else y.height.Some? && (x.height.value > y.height.value || (x.height == y.height && x.id > y.id))
  }

  predicate Newest(s: set<Row>, m: Row) {
    m in s && forall x | x in s :: x == m || Above(m, x)
  }

  lemma {:induction false} HasNewest(s: set<Row>)
    requires s != {}
    ensures exists m :: Newest(s, m)
    decreases |s|
  {
    var x :| x in s;
    if s == {x} {
      assert Newest(s, x);
    } else {
      var rest := s - {x};
      assert s == rest + {x};
      HasNewest(rest);
      var m :| Newest(rest, m);
      assert Newest(s, if Above(x, m) then x else m);
    }
  }

  /** The set in listing order. */
  function Desc(s: set<Row>): seq<Row>
    decreases |s|
  {
    if s == {} then [] else
      HasNewest(s);
      var m :| Newest(s, m);
      [m] + Desc(s - {m})
  }

  function Take(rows: seq<Row>, n: nat): seq<Row> {
    if |rows| <= n then rows else rows[..n]
  }

  /** ORDER BY .. LIMIT n. */
  function Top(s: set<Row>, n: nat): seq<Row> {
    Take(Desc(s), n)
  }

  // ------------------------------------------------------------------- the page

  /** The confirmed rows of one address in address_transactions. */
  function RowsOf(at: map<AddrTx, int>, a: Address): set<Row> {
    set k | k in at && k.address == a :: Row(Some(at[k]), k.txId)
  }

  datatype Position = Position(id: int, height: int)

  /** The cursor condition, as written: the <= bounds the index range, the rest
   * discards what the boundary block already gave. */
  predicate Continues(x: Row, p: Position) {
    x.height.Some? && x.height.value <= p.height && (x.height.value < p.height || x.id < p.id)
  }

  function After(s: set<Row>, position: Option<Position>): set<Row> {
    if position.None? then s else set x | x in s && Continues(x, position.value)
  }

  /** CROSS JOIN LATERAL: the newest `n` rows of every address. */
  function Candidates(at: map<AddrTx, int>, addresses: seq<Address>, position: Option<Position>, n: nat): set<Row> {
    set i, x | 0 <= i < |addresses| && x in Top(After(RowsOf(at, addresses[i]), position), n) :: x
  }

  /** SELECT tx_id, MAX(block_height) .. GROUP BY tx_id. */
  function Grouped(s: set<Row>): set<Row> {
    set x | x in s && forall y | y in s :: y.id == x.id ==> x == y || Above(x, y)
  }

  function Ids(rows: seq<Row>): set<int> {
    set i | 0 <= i < |rows| :: rows[i].id
  }

  predicate Owns(t: Tables, addresses: seq<Address>, id: int) {
    || (exists o | o in t.outputs ::
        o.txId == id && t.outputs[o].address.Some? && t.outputs[o].address.value in addresses)
    || (exists s | s in t.inputs :: s.txId == id && t.inputs[s].address.Some? && t.inputs[s].address.value in addresses)
  }

  /** Pending transactions that pay or spend from one of the addresses. */
  function PendingIds(t: Tables, addresses: seq<Address>): set<int> {
    set h | h in t.transactions && t.transactions[h].height.None? && Owns(t, addresses, t.transactions[h].id)
      :: t.transactions[h].id
  }

  /** The outer query: the chosen ids joined with transactions. */
  function Joined(tr: TxTable, ids: set<int>): set<Row> {
    set h | h in tr && tr[h].id in ids :: Row(tr[h].height, tr[h].id)
  }

  function Filter(rows: seq<Row>, confirmed: bool): seq<Row> {
    if rows == [] then [] else
      (if rows[0].height.Some? == confirmed then [rows[0]] else []) + Filter(rows[1..], confirmed)
  }

  predicate OneHash(tr: TxTable) {
    forall g, h | g in tr && h in tr :: tr[g].id == tr[h].id ==> g == h
  }

  function HashOf(tr: TxTable, id: int): Hash
    requires OneHash(tr) && HasHash(tr, id)
  {
    var h :| h in tr && tr[h].id == id;
    h
  }

  datatype Page = Page(pending: seq<Row>, rows: seq<Row>, nextCursor: Option<Hash>)

  datatype PageError = InvalidCursor

  function PositionOf(tr: TxTable, cursor: Option<Hash>): Result<Option<Position>, PageError> {
    match cursor
    case None => Ok(None)
    case Some(h) =>
      if h in tr && tr[h].height.Some? then Ok(Some(Position(tr[h].id, tr[h].height.value)))
      else Err(InvalidCursor)
  }

  predicate HasHash(tr: TxTable, id: int) {
    exists h :: h in tr && tr[h].id == id
  }

  lemma {:induction false} JoinedHasHash(tr: TxTable, ids: set<int>)
    ensures forall x :: x in Desc(Joined(tr, ids)) ==> HasHash(tr, x.id)
  {
    DescElements(Joined(tr, ids));
  }

  /** `limit` counts confirmed rows; the cursor is the last row's hash. */
  function Cut(tr: TxTable, rows: seq<Row>, limit: nat): Page
    requires OneHash(tr) && forall x :: x in rows ==> HasHash(tr, x.id)
  {
    var pending, confirmed := Filter(rows, false), Filter(rows, true);
    var hasMore := |confirmed| > limit;
    var page := if hasMore then confirmed[..limit] else confirmed;
    FilterElements(rows, true);
    assert forall x :: x in page ==> x in confirmed;
    Page(pending, page, if hasMore && page != [] then Some(HashOf(tr, page[|page| - 1].id)) else None)
  }

  /** The ids of a page: one row more than the page itself, and on the first page
   * everything pending. */
  function PageIds(t: Tables, addresses: seq<Address>, limit: nat, position: Option<Position>): set<int> {
    Ids(Top(Grouped(Candidates(t.addressTxs, addresses, position, limit + 1)), limit + 1))
    + if position.None? then PendingIds(t, addresses) else {}
  }

  /** `getXpubTransactions`. */
  function XpubPage(t: Tables, addresses: seq<Address>, limit: nat, cursor: Option<Hash>): Result<Page, PageError>
    requires OneHash(t.transactions)
  {
    if addresses == [] then Ok(Page([], [], None)) else
      var position := PositionOf(t.transactions, cursor);
      if position.Err? then Err(position.error) else
        var ids := PageIds(t, addresses, limit, position.value);
        JoinedHasHash(t.transactions, ids);
        Ok(Cut(t.transactions, Desc(Joined(t.transactions, ids)), limit))
  }

  // ---------------------------------------------------------- listing order laws

  predicate Sorted(rows: seq<Row>) {
    forall i, j :: 0 <= i < j < |rows| ==> Above(rows[i], rows[j])
  }

  /** Newest first, pending rows on top: by height, then by id. */
  predicate NewestFirst(rows: seq<Row>) {
    forall i, j :: 0 <= i < j < |rows| ==>
      if rows[j].height.None? then rows[i].height.None? && rows[i].id > rows[j].id
      else rows[i].height.None? || rows[i].height.value > rows[j].height.value
           || (rows[i].height.value == rows[j].height.value && rows[i].id > rows[j].id)
  }

  lemma {:induction false} SortedIsNewestFirst(rows: seq<Row>)
    requires Sorted(rows)
    ensures NewestFirst(rows)
  {
    forall i, j | 0 <= i < j < |rows| ensures Above(rows[i], rows[j]) {
    }
  }

  lemma {:induction false} DescElements(s: set<Row>)
    ensures Sorted(Desc(s)) && |Desc(s)| == |s|
    ensures forall x :: x in Desc(s) <==> x in s
    decreases |s|
  {
    if s != {} {
      HasNewest(s);
      var d := Desc(s);
      var m := d[0];
      DescElements(s - {m});
      assert d == [m] + Desc(s - {m}) && Newest(s, m);
      forall j | 0 < j < |d| ensures Above(m, d[j]) {
        assert d[j] == Desc(s - {m})[j - 1] && Desc(s - {m})[j - 1] in Desc(s - {m});
      }
    }
  }

  lemma {:induction false} FilterElements(rows: seq<Row>, confirmed: bool)
    ensures forall x :: x in Filter(rows, confirmed) <==> x in rows && x.height.Some? == confirmed
    ensures Sorted(rows) ==> Sorted(Filter(rows, confirmed))
  {
    if rows != [] {
      FilterElements(rows[1..], confirmed);
      assert rows == [rows[0]] + rows[1..];
    }
  }

  lemma {:induction false} TailHolds(a: seq<Row>, x: Row)
    requires Sorted(a) && a != []
    ensures x in a[1..] <==> x in a && x != a[0]
  {
    assert a == [a[0]] + a[1..];
    if x in a[1..] {
      var i :| 0 <= i < |a[1..]| && a[1..][i] == x;
      assert Above(a[0], a[i + 1]);
    }
  }

  lemma {:induction false} SortedCard(rows: seq<Row>, s: set<Row>)
    requires Sorted(rows) && forall x :: x in rows <==> x in s
    ensures |s| == |rows|
  {
    if rows != [] {
      assert rows == [rows[0]] + rows[1..];
      assert rows[0] !in rows[1..];
      SortedCard(rows[1..], s - {rows[0]});
    }
  }

  /** A listing is determined by what it lists. */
  lemma {:induction false} SortedUnique(a: seq<Row>, b: seq<Row>)
    requires Sorted(a) && Sorted(b) && forall x :: x in a <==> x in b
    ensures a == b
  {
    var s := set x | x in a;
    SortedCard(a, s);
    SortedCard(b, s);
    if a != [] {
      assert a[0] in b && b[0] in a;
      var i, j :| 0 <= i < |b| && b[i] == a[0] && 0 <= j < |a| && a[j] == b[0];
      assert a[0] == b[0];
      forall x ensures x in a[1..] <==> x in b[1..] {
        TailHolds(a, x);
        TailHolds(b, x);
      }
      SortedUnique(a[1..], b[1..]);
    }
  }

  function Newer(s: set<Row>, x: Row): set<Row> {
    set y | y in s && Above(y, x)
  }

  lemma {:induction false} CardLeq(a: set<Row>, b: set<Row>)
    requires a <= b
    ensures |a| <= |b|
    decreases |a|
  {
    if a != {} {
      var x :| x in a;
      CardLeq(a - {x}, b - {x});
    }
  }

  /** The place of a row in the listing is the number of rows newer than it. */
  lemma {:induction false} PlaceIsRank(s: set<Row>, i: int)
    requires 0 <= i < |s|
    ensures |Desc(s)| == |s| && |Newer(s, Desc(s)[i])| == i
  {
    DescElements(s);
    var d := Desc(s);
    forall x ensures x in d[..i] <==> x in Newer(s, d[i]) {
      if x in Newer(s, d[i]) {
        var j :| 0 <= j < |d| && d[j] == x;
        assert j < i;
      }
    }
    SortedCard(d[..i], Newer(s, d[i]));
  }

  /** LIMIT n keeps exactly the rows with fewer than n newer ones. */
  lemma {:induction false} TopIsRank(s: set<Row>, n: nat, x: Row)
    ensures x in Top(s, n) <==> x in s && |Newer(s, x)| < n
  {
    DescElements(s);
    var d := Desc(s);
    if x in s {
      var i :| 0 <= i < |d| && d[i] == x;
      PlaceIsRank(s, i);
      assert i < n && i < |d| ==> Top(s, n)[i] == x;
      if x in Top(s, n) {
        var j :| 0 <= j < |Top(s, n)| && Top(s, n)[j] == x;
        PlaceIsRank(s, j);
        assert d[j] == x;
      }
    } else {
      assert forall y :: y in Top(s, n) ==> y in d;
    }
  }

  function Union(at: map<AddrTx, int>, addresses: seq<Address>, position: Option<Position>): set<Row> {
    set i, x | 0 <= i < |addresses| && x in After(RowsOf(at, addresses[i]), position) :: x
  }

  lemma {:induction false} TopOfUnionKept(at: map<AddrTx, int>, addresses: seq<Address>, position: Option<Position>,
                                          n: nat, x: Row)
    requires x in Top(Union(at, addresses, position), n)
    ensures x in Top(Candidates(at, addresses, position, n), n)
  {
    var all, some := Union(at, addresses, position), Candidates(at, addresses, position, n);
    TopIsRank(all, n, x);
    var i :| 0 <= i < |addresses| && x in After(RowsOf(at, addresses[i]), position);
    var mine := After(RowsOf(at, addresses[i]), position);
    CardLeq(Newer(mine, x), Newer(all, x));
    TopIsRank(mine, n, x);
    CandidatesWithin(at, addresses, position, n);
    CardLeq(Newer(some, x), Newer(all, x));
    TopIsRank(some, n, x);
  }

  lemma {:induction false} CandidatesWithin(at: map<AddrTx, int>, addresses: seq<Address>, position: Option<Position>,
                                            n: nat)
    ensures Candidates(at, addresses, position, n) <= Union(at, addresses, position)
  {
    forall x | x in Candidates(at, addresses, position, n) ensures x in Union(at, addresses, position) {
      var i :| 0 <= i < |addresses| && x in Top(After(RowsOf(at, addresses[i]), position), n);
      TopIsRank(After(RowsOf(at, addresses[i]), position), n, x);
    }
  }

  lemma {:induction false} TopHolds(s: set<Row>, n: nat, i: int)
    requires 0 <= i < |Desc(s)| && i < n
    ensures Desc(s)[i] in Top(s, n)
  {
    assert Top(s, n)[i] == Desc(s)[i];
  }

  /** Every row of a full top n is newer than any row outside it. */
  lemma {:induction false} TopIsAbove(s: set<Row>, n: nat, x: Row)
    requires x in s && x !in Top(s, n)
    ensures |Top(s, n)| == n && Sorted(Top(s, n))
    ensures forall y :: y in Top(s, n) ==> y in s && Above(y, x)
  {
    DescElements(s);
    var d := Desc(s);
    var i :| 0 <= i < |d| && d[i] == x;
    if i < n { TopHolds(s, n, i); }
    forall y | y in Top(s, n) ensures y in s && Above(y, x) {
      var j :| 0 <= j < |Top(s, n)| && Top(s, n)[j] == y;
      assert d[j] == y && j < i;
    }
  }

  lemma {:induction false} TopOfCandidatesKept(at: map<AddrTx, int>, addresses: seq<Address>,
                                               position: Option<Position>, n: nat, x: Row)
    requires x in Top(Candidates(at, addresses, position, n), n)
    ensures x in Top(Union(at, addresses, position), n)
  {
    var all, some := Union(at, addresses, position), Candidates(at, addresses, position, n);
    TopIsRank(some, n, x);
    CandidatesWithin(at, addresses, position, n);
    if x !in Top(all, n) {
      TopIsAbove(all, n, x);
      var top := Top(all, n);
      var kept := set y | y in top;
      forall y | y in kept ensures y in Newer(some, x) {
        TopOfUnionKept(at, addresses, position, n, y);
        TopIsRank(some, n, y);
      }
      SortedCard(top, kept);
      CardLeq(kept, Newer(some, x));
      assert false;
    }
  }

  lemma {:induction false} TopSorted(s: set<Row>, n: nat)
    ensures Sorted(Top(s, n)) && |Top(s, n)| == if |s| <= n then |s| else n
    ensures forall x :: x in Top(s, n) ==> x in s
  {
    DescElements(s);
    forall x | x in Top(s, n) ensures x in s {
      assert x in Desc(s);
    }
  }

  /** The k-way merge is exact: the top n of the union is the top n of the
   * per-address top n's. */
  lemma {:induction false} TopOfTops(at: map<AddrTx, int>, addresses: seq<Address>, position: Option<Position>, n: nat)
    ensures Top(Candidates(at, addresses, position, n), n) == Top(Union(at, addresses, position), n)
  {
    var all, some := Union(at, addresses, position), Candidates(at, addresses, position, n);
    TopSorted(all, n);
    TopSorted(some, n);
    forall x ensures x in Top(some, n) <==> x in Top(all, n) {
      if x in Top(all, n) { TopOfUnionKept(at, addresses, position, n, x); }
      if x in Top(some, n) { TopOfCandidatesKept(at, addresses, position, n, x); }
    }
    SortedUnique(Top(some, n), Top(all, n));
  }

  // ------------------------------------------------------------------- one page

  /** Ids name transactions, and every address row is a confirmed transaction's,
   * at its height. */
  ghost predicate Indexed(t: Tables) {
    OneHash(t.transactions) && forall k :: k in t.addressTxs ==> ConfirmedAt(t.transactions, k.txId, t.addressTxs[k])
  }

  predicate ConfirmedAt(tr: TxTable, id: int, height: int) {
    exists h :: h in tr && tr[h].id == id && tr[h].height == Some(height)
  }

  /** Every confirmed transaction of the addresses: the simple definition. */
  function History(t: Tables, addresses: seq<Address>): set<Row> {
    set k | k in t.addressTxs && k.address in addresses :: Row(Some(t.addressTxs[k]), k.txId)
  }

  function PendingRows(t: Tables, addresses: seq<Address>): set<Row> {
    set id | id in PendingIds(t, addresses) :: Row(None, id)
  }

  lemma {:induction false} UnionIsHistory(t: Tables, addresses: seq<Address>, position: Option<Position>)
    ensures Union(t.addressTxs, addresses, position) == After(History(t, addresses), position)
  {
    var left, right := Union(t.addressTxs, addresses, position), After(History(t, addresses), position);
    forall x | x in right ensures x in left {
      var k :| k in t.addressTxs && k.address in addresses && x == Row(Some(t.addressTxs[k]), k.txId);
      var i :| 0 <= i < |addresses| && addresses[i] == k.address;
      assert x in RowsOf(t.addressTxs, addresses[i]);
      assert x in After(RowsOf(t.addressTxs, addresses[i]), position);
    }
  }

  lemma {:induction false} HistoryConfirmed(t: Tables, addresses: seq<Address>, x: Row)
    requires Indexed(t) && x in History(t, addresses)
    ensures x.height.Some? && ConfirmedAt(t.transactions, x.id, x.height.value)
    ensures exists h :: h in t.transactions && x == Row(t.transactions[h].height, t.transactions[h].id)
  {
    var k :| k in t.addressTxs && k.address in addresses && x == Row(Some(t.addressTxs[k]), k.txId);
    assert ConfirmedAt(t.transactions, k.txId, t.addressTxs[k]);
  }

  /** One transaction has one height: grouping by id drops nothing. */
  lemma {:induction false} GroupedIsAll(t: Tables, addresses: seq<Address>, s: set<Row>)
    requires Indexed(t) && s <= History(t, addresses)
    ensures Grouped(s) == s
  {
    forall x, y | x in s && y in s && x.id == y.id ensures x == y {
      HistoryConfirmed(t, addresses, x);
      HistoryConfirmed(t, addresses, y);
    }
  }

  lemma {:induction false} JoinedIsListed(t: Tables, addresses: seq<Address>, top: seq<Row>, pending: set<int>, x: Row)
    requires Indexed(t) && (forall y :: y in top ==> y in History(t, addresses))
    requires pending <= PendingIds(t, addresses) && x in Joined(t.transactions, Ids(top) + pending)
    ensures x in top || (x.height.None? && x.id in pending)
  {
    var tr, ids := t.transactions, Ids(top) + pending;
    var h :| h in tr && tr[h].id in ids && x == Row(tr[h].height, tr[h].id);
    if x.id in Ids(top) {
      var i :| 0 <= i < |top| && top[i].id == x.id;
      assert top[i] in top;
      HistoryConfirmed(t, addresses, top[i]);
      assert x == top[i];
    } else {
      var g :| g in tr && tr[g].height.None? && Owns(t, addresses, tr[g].id) && tr[g].id == x.id;
      assert g == h;
    }
  }

  /** Joining the ids back with transactions gives back the rows. */
  lemma {:induction false} JoinedBack(t: Tables, addresses: seq<Address>, top: seq<Row>, pending: set<int>, x: Row)
    requires Indexed(t) && (forall y :: y in top ==> y in History(t, addresses))
    requires pending <= PendingIds(t, addresses)
    ensures x in Joined(t.transactions, Ids(top) + pending) <==> x in top || (x.height.None? && x.id in pending)
  {
    var tr, ids := t.transactions, Ids(top) + pending;
    if x in Joined(tr, ids) {
      JoinedIsListed(t, addresses, top, pending, x);
    }
    if x in top {
      HistoryConfirmed(t, addresses, x);
      var i :| 0 <= i < |top| && top[i] == x;
      assert x.id in Ids(top);
    }
    if x.height.None? && x.id in pending {
      var g :| g in tr && tr[g].height.None? && Owns(t, addresses, tr[g].id) && tr[g].id == x.id;
      assert x == Row(tr[g].height, tr[g].id);
    }
  }

  /** What the page query lists: the newest limit + 1 rows of the remaining history,
   * after the pending ones. */
  lemma {:induction false} QueryRows(t: Tables, addresses: seq<Address>, limit: nat, position: Option<Position>)
    requires Indexed(t)
    ensures var rows := Desc(Joined(t.transactions, PageIds(t, addresses, limit, position)));
            && Filter(rows, true) == Top(After(History(t, addresses), position), limit + 1)
            && Filter(rows, false) == if position.None? then Desc(PendingRows(t, addresses)) else []
  {
    var n, at := limit + 1, t.addressTxs;
    var candidates, remaining := Candidates(at, addresses, position, n), After(History(t, addresses), position);
    UnionIsHistory(t, addresses, position);
    CandidatesWithin(at, addresses, position, n);
    GroupedIsAll(t, addresses, candidates);
    TopOfTops(at, addresses, position, n);
    var top := Top(remaining, n);
    TopSorted(remaining, n);
    var pending := if position.None? then PendingIds(t, addresses) else {};
    assert PageIds(t, addresses, limit, position) == Ids(top) + pending;
    var joined := Joined(t.transactions, Ids(top) + pending);
    var rows := Desc(joined);
    DescElements(joined);
    FilterElements(rows, true);
    FilterElements(rows, false);
    forall x ensures x in Filter(rows, true) <==> x in top {
      JoinedBack(t, addresses, top, pending, x);
      if x in top { HistoryConfirmed(t, addresses, x); }
    }
    SortedUnique(Filter(rows, true), top);
    var listed := if position.None? then PendingRows(t, addresses) else {};
    DescElements(listed);
    forall x ensures x in Filter(rows, false) <==> x in Desc(listed) {
      JoinedBack(t, addresses, top, pending, x);
      if x in top { HistoryConfirmed(t, addresses, x); }
      assert x in listed <==> x.height.None? && x.id in pending;
    }
    SortedUnique(Filter(rows, false), Desc(listed));
  }

  /** The cursor is refused exactly when it names no confirmed transaction. */
  lemma {:induction false} CursorRefused(t: Tables, addresses: seq<Address>, limit: nat, cursor: Option<Hash>)
    requires Indexed(t) && addresses != []
    ensures XpubPage(t, addresses, limit, cursor).Err? <==>
            cursor.Some? && !(cursor.value in t.transactions && t.transactions[cursor.value].height.Some?)
  {
  }

  /** Asking for one more row than the page tells whether more remain. */
  lemma {:induction false} CutIs(t: Tables, addresses: seq<Address>, rows: seq<Row>, limit: nat, remaining: set<Row>)
    requires Indexed(t) && (forall x :: x in rows ==> HasHash(t.transactions, x.id))
    requires remaining <= History(t, addresses) && Filter(rows, true) == Top(remaining, limit + 1)
    ensures var page := Cut(t.transactions, rows, limit);
            && page.rows == Top(remaining, limit)
            && (page.nextCursor.Some? <==> 0 < limit < |remaining|)
            && (page.nextCursor.Some? ==>
                  |page.rows| == limit && page.rows[limit - 1].height.Some?
                  && PositionOf(t.transactions, page.nextCursor)
                     == Ok(Some(Position(page.rows[limit - 1].id, page.rows[limit - 1].height.value))))
  {
    DescElements(remaining);
    OneMoreThanTop(remaining, limit);
    CutAt(t.transactions, rows, Filter(rows, true), limit);
    if 0 < limit < |remaining| {
      var last := Desc(remaining)[limit - 1];
      assert last in Desc(remaining);
      CursorPoints(t, addresses, last);
    }
  }

  lemma {:induction false} CutAt(tr: TxTable, rows: seq<Row>, confirmed: seq<Row>, limit: nat)
    requires OneHash(tr) && (forall x :: x in rows ==> HasHash(tr, x.id)) && confirmed == Filter(rows, true)
    ensures Cut(tr, rows, limit).rows == if |confirmed| > limit then confirmed[..limit] else confirmed
    ensures Cut(tr, rows, limit).nextCursor.Some? <==> 0 < limit < |confirmed|
    ensures 0 < limit < |confirmed| ==> HasHash(tr, confirmed[limit - 1].id)
    ensures 0 < limit < |confirmed| ==>
              Cut(tr, rows, limit).nextCursor == Some(HashOf(tr, confirmed[limit - 1].id))
  {
    FilterElements(rows, true);
    assert 0 < limit < |confirmed| ==> confirmed[limit - 1] in confirmed;
  }

  /** The hash of a history row is a cursor at that row. */
  lemma {:induction false} CursorPoints(t: Tables, addresses: seq<Address>, last: Row)
    requires Indexed(t) && last in History(t, addresses)
    ensures HasHash(t.transactions, last.id) && last.height.Some?
    ensures PositionOf(t.transactions, Some(HashOf(t.transactions, last.id))) ==
            Ok(Some(Position(last.id, last.height.value)))
  {
    HistoryConfirmed(t, addresses, last);
  }

  lemma {:induction false} OneMoreThanTop(s: set<Row>, limit: nat)
    requires |Desc(s)| == |s|
    ensures |Top(s, limit + 1)| > limit <==> |s| > limit
    ensures (if |s| > limit then Top(s, limit + 1)[..limit] else Top(s, limit + 1)) == Top(s, limit)
    ensures 0 < limit < |s| ==> |Top(s, limit)| == limit && Top(s, limit)[limit - 1] == Desc(s)[limit - 1]
  {
  }

  /** A page is the next `limit` rows of the merged history in listing order; it has
   * a cursor, placed at its last row, exactly when more rows remain. */
  lemma {:induction false} PageIs(t: Tables, addresses: seq<Address>, limit: nat, cursor: Option<Hash>,
                                  position: Option<Position>, remaining: set<Row>) returns (page: Page)
    requires Indexed(t) && addresses != [] && PositionOf(t.transactions, cursor) == Ok(position)
    requires remaining == After(History(t, addresses), position)
    ensures XpubPage(t, addresses, limit, cursor) == Ok(page)
    ensures page.rows == Top(remaining, limit)
    ensures page.pending == if cursor.None? then Desc(PendingRows(t, addresses)) else []
    ensures page.nextCursor.Some? <==> 0 < limit < |remaining|
    ensures page.nextCursor.Some? ==>
              |page.rows| == limit && page.rows[limit - 1].height.Some?
              && PositionOf(t.transactions, page.nextCursor)
                 == Ok(Some(Position(page.rows[limit - 1].id, page.rows[limit - 1].height.value)))
  {
    QueryRows(t, addresses, limit, position);
    var ids := PageIds(t, addresses, limit, position);
    var rows := Desc(Joined(t.transactions, ids));
    JoinedHasHash(t.transactions, ids);
    page := Cut(t.transactions, rows, limit);
    CutIs(t, addresses, rows, limit, remaining);
  }

  // ------------------------------------------------------------- following pages

  lemma {:induction false} TailIsBelow(d: seq<Row>, k: nat, x: Row)
    requires Sorted(d) && 0 < k <= |d|
    ensures x in d[k..] <==> x in d && Above(d[k - 1], x)
  {
    if x in d[k..] {
      var i :| 0 <= i < |d[k..]| && d[k..][i] == x;
      assert d[k + i] == x;
    }
    if x in d && Above(d[k - 1], x) {
      var i :| 0 <= i < |d| && d[i] == x;
      assert i >= k;
      assert d[k..][i - k] == x;
    }
  }

  /** The cursor condition picks, of what was left before, the rows below the cursor. */
  lemma {:induction false} AfterIsBelow(s: set<Row>, position: Option<Position>, last: Row, next: Position, x: Row)
    requires last in After(s, position) && last.height == Some(next.height) && last.id == next.id
    requires x in s ==> x.height.Some?
    ensures x in After(s, Some(next)) <==> x in After(s, position) && Above(last, x)
  {
  }

  /** Continuing from a row leaves exactly what the listing shows below it. */
  lemma {:induction false} Continued(s: set<Row>, position: Option<Position>, k: nat, next: Position, d: seq<Row>)
    requires forall x :: x in s ==> x.height.Some?
    requires d == Desc(After(s, position)) && 0 < k <= |d|
    requires d[k - 1].height == Some(next.height) && d[k - 1].id == next.id
    ensures Desc(After(s, Some(next))) == d[k..]
    ensures |After(s, Some(next))| == |d| - k
  {
    var rest := After(s, Some(next));
    DescElements(After(s, position));
    DescElements(rest);
    assert d[k - 1] in d;
    forall x ensures x in d[k..] <==> x in Desc(rest) {
      TailIsBelow(d, k, x);
      AfterIsBelow(s, position, d[k - 1], next, x);
    }
    SortedUnique(d[k..], Desc(rest));
  }

  /** Following `nextCursor` to the end: the pages' confirmed rows, in order. Each
   * page leaves fewer rows, so this ends. */
  function Follow(t: Tables, addresses: seq<Address>, limit: nat, cursor: Option<Hash>): seq<Row>
    requires Indexed(t) && addresses != [] && PositionOf(t.transactions, cursor).Ok?
    decreases |After(History(t, addresses), PositionOf(t.transactions, cursor).value)|
  {
    var position := PositionOf(t.transactions, cursor).value;
    var page := XpubPage(t, addresses, limit, cursor).value;
    NextIsFurther(t, addresses, limit, cursor, position);
    if page.nextCursor.None? then page.rows
    else page.rows + Follow(t, addresses, limit, page.nextCursor)
  }

  lemma {:induction false} NextIsFurther(t: Tables, addresses: seq<Address>, limit: nat, cursor: Option<Hash>,
                                         position: Option<Position>)
    requires Indexed(t) && addresses != [] && PositionOf(t.transactions, cursor) == Ok(position)
    ensures XpubPage(t, addresses, limit, cursor).Ok?
    ensures var remaining, next := After(History(t, addresses), position),
            XpubPage(t, addresses, limit, cursor).value.nextCursor;
            next.Some? ==>
              && PositionOf(t.transactions, next).Ok?
              && limit < |remaining| == |Desc(remaining)|
              && var rest := After(History(t, addresses), PositionOf(t.transactions, next).value);
                 |rest| == |remaining| - limit < |remaining| && Desc(rest) == Desc(remaining)[limit..]
  {
    var history := History(t, addresses);
    var remaining := After(history, position);
    var page := PageIs(t, addresses, limit, cursor, position, remaining);
    DescElements(remaining);
    if page.nextCursor.Some? {
      var last := page.rows[limit - 1];
      Continued(history, position, limit, Position(last.id, last.height.value), Desc(remaining));
    }
  }

  lemma {:induction false} FollowFrom(t: Tables, addresses: seq<Address>, limit: nat, cursor: Option<Hash>,
                                      position: Option<Position>)
    requires Indexed(t) && addresses != [] && limit >= 1 && PositionOf(t.transactions, cursor) == Ok(position)
    ensures Follow(t, addresses, limit, cursor) == Desc(After(History(t, addresses), position))
    decreases |After(History(t, addresses), position)|
  {
    var remaining := After(History(t, addresses), position);
    var page := PageIs(t, addresses, limit, cursor, position, remaining);
    NextIsFurther(t, addresses, limit, cursor, position);
    if page.nextCursor.Some? {
      var next := PositionOf(t.transactions, page.nextCursor).value;
      FollowFrom(t, addresses, limit, page.nextCursor, next);
      TopAndRest(remaining, limit, Follow(t, addresses, limit, page.nextCursor));
    } else {
      TopIsAll(remaining, limit);
    }
  }

  lemma {:induction false} TopAndRest(s: set<Row>, limit: nat, rest: seq<Row>)
    requires |Desc(s)| == |s| && limit < |s| && rest == Desc(s)[limit..]
    ensures Top(s, limit) + rest == Desc(s)
  {
  }

  lemma {:induction false} TopIsAll(s: set<Row>, limit: nat)
    requires |s| <= limit
    ensures Top(s, limit) == Desc(s)
  {
    DescElements(s);
  }

  /** Whatever the page size, following the cursors from the first page returns every
   * confirmed transaction of the addresses exactly once, newest first. */
  lemma {:induction false} FollowIsHistory(t: Tables, addresses: seq<Address>, limit: nat)
    requires Indexed(t) && addresses != [] && limit >= 1
    ensures Follow(t, addresses, limit, None) == Desc(History(t, addresses))
    ensures Sorted(Follow(t, addresses, limit, None))
    ensures |Follow(t, addresses, limit, None)| == |History(t, addresses)|
    ensures forall x :: x in Follow(t, addresses, limit, None) <==> x in History(t, addresses)
  {
    FollowFrom(t, addresses, limit, None, None);
    DescElements(History(t, addresses));
  }
}
