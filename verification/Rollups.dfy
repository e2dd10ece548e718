/** The six incrementally kept rollups of the index.
 *
 * `addresses` (its received/sent/tx_count columns), `address_balance_deltas`,
 * `address_activity`, `address_activity_weekly`, `chain_stats_hourly` and
 * `transaction_type_counts` all work the same way: a batch is aggregated per key
 * and added onto the stored rows. They are kept here as one map whose key says
 * which table the row belongs to, so that the laws of adding are proved once.
 */
module Rollups {

  const DAY := 86400
  const HOUR := 3600

  /** Floors, as chrono's date_naive and with_minute(0) do, also before 1970. */
  function DayOf(time: int): int { time / DAY }

  function HourOf(time: int): int { time / HOUR }

  /** The Monday of the day's ISO week: day 0 (1970-01-01) is a Thursday. */
  function WeekOf(day: int): int { day - (day + 3) % 7 }

  datatype RollupKey =
    | AddressTotal(address: string)
    | AddressDay(address: string, day: int)
    | DayActivity(day: int, address: string)
    | WeekActivity(week: int, address: string)
    | HourStats(hour: int)
    | TypeCount(txType: nat, coinjoin: bool, multisig: bool)

  /** The columns of a rollup row; a table leaves the columns it lacks at zero. */
  datatype Tally = Tally(
    received: int, sent: int, txs: int,
    blocks: int, size: int,
    normal: int, special: int, coinjoin: int, multisig: int)

  const ZERO := Tally(0, 0, 0, 0, 0, 0, 0, 0, 0)

  /** One transaction. */
  const ONE_TX := ZERO.(txs := 1)

  function Plus(x: Tally, y: Tally): Tally {
    Tally(x.received + y.received, x.sent + y.sent, x.txs + y.txs,
          x.blocks + y.blocks, x.size + y.size,
          x.normal + y.normal, x.special + y.special,
          x.coinjoin + y.coinjoin, x.multisig + y.multisig)
  }

  function Minus(x: Tally, y: Tally): Tally {
    Tally(x.received - y.received, x.sent - y.sent, x.txs - y.txs,
          x.blocks - y.blocks, x.size - y.size,
          x.normal - y.normal, x.special - y.special,
          x.coinjoin - y.coinjoin, x.multisig - y.multisig)
  }

  type Rollups = map<RollupKey, Tally>

  /** The stored row, an absent one read as zero (what COALESCE(SUM(..), 0) sees). */
  function At(r: Rollups, k: RollupKey): Tally {
    if k in r then r[k] else ZERO
  }

  /** INSERT .. ON CONFLICT DO UPDATE SET col = table.col + EXCLUDED.col, for every staged row. */
  function Merge(r: Rollups, staged: Rollups): Rollups {
    map k | k in r.Keys + staged.Keys :: Plus(At(r, k), At(staged, k))
  }

  /** UPDATE .. FROM stage: only the rows that exist are changed. */
  function UpdateExisting(r: Rollups, staged: Rollups): Rollups {
    map k | k in r :: Plus(r[k], At(staged, k))
  }

  /** Merging adds pointwise, absent rows counting as zero. */
  lemma {:induction false} AtMerge(r: Rollups, staged: Rollups, k: RollupKey)
    ensures At(Merge(r, staged), k) == Plus(At(r, k), At(staged, k))
    ensures k in Merge(r, staged) <==> k in r || k in staged
  {
  }

  lemma {:induction false} PlusLaws(x: Tally, y: Tally, z: Tally)
    ensures Plus(Plus(x, y), z) == Plus(x, Plus(y, z))
    ensures Plus(x, y) == Plus(y, x)
    ensures Plus(x, ZERO) == x
    ensures Minus(Plus(x, y), y) == x
  {
  }

  /** Two tables with the same keys and the same values are the same table. */
  lemma {:induction false} SameRollups(a: Rollups, b: Rollups)
    requires forall k :: k in a <==> k in b
    requires forall k :: At(a, k) == At(b, k)
    ensures a == b
  {
    forall k | k in a ensures a[k] == b[k] {
      assert At(a, k) == At(b, k);
    }
  }

  lemma {:induction false} AtMergedTwice(a: Rollups, b: Rollups, c: Rollups, k: RollupKey)
    ensures At(Merge(Merge(a, b), c), k) == Plus(Plus(At(a, k), At(b, k)), At(c, k))
    ensures At(Merge(a, Merge(b, c)), k) == Plus(At(a, k), Plus(At(b, k), At(c, k)))
    ensures k in Merge(Merge(a, b), c) <==> k in a || k in b || k in c
    ensures k in Merge(a, Merge(b, c)) <==> k in a || k in b || k in c
  {
    AtMerge(Merge(a, b), c, k);
    AtMerge(a, b, k);
    AtMerge(a, Merge(b, c), k);
    AtMerge(b, c, k);
  }

  lemma {:induction false} MergeAssociative(a: Rollups, b: Rollups, c: Rollups)
    ensures Merge(Merge(a, b), c) == Merge(a, Merge(b, c))
  {
    var left, right := Merge(Merge(a, b), c), Merge(a, Merge(b, c));
    assert forall k :: (k in left <==> k in right) && At(left, k) == At(right, k) by {
      forall k ensures (k in left <==> k in right) && At(left, k) == At(right, k) {
        AtMergedTwice(a, b, c, k);
        PlusLaws(At(a, k), At(b, k), At(c, k));
      }
    }
    SameRollups(left, right);
  }

  lemma {:induction false} MergeCommutes(a: Rollups, b: Rollups)
    ensures Merge(a, b) == Merge(b, a)
  {
  }

  lemma {:induction false} MergeEmpty(a: Rollups)
    ensures Merge(a, map[]) == a && Merge(map[], a) == a
  {
  }

  /** (a + b) + (c + d) == (a + c) + (b + d). */
  lemma {:induction false} MergeExchange(a: Rollups, b: Rollups, c: Rollups, d: Rollups)
    ensures Merge(Merge(a, b), Merge(c, d)) == Merge(Merge(a, c), Merge(b, d))
  {
    MergeAssociative(a, b, Merge(c, d));
    MergeAssociative(b, c, d);
    MergeCommutes(b, c);
    MergeAssociative(c, b, d);
    MergeAssociative(a, c, Merge(b, d));
  }
}
