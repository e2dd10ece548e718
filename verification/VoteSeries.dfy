/** `getProposalVoteSeries`: funding votes sorted into fixed-step buckets, with running
 * totals. Times are in milliseconds. */
module VoteSeries {
  import opened Prelude

  datatype Outcome = Yes | No | Abstain | Other

  /** A vote as it is read back; `funding` says its signal starts with "funding". */
  datatype Vote = Vote(time: int, outcome: Outcome, weight: int, funding: bool)

  datatype Tally = Tally(yes: int, no: int, abstain: int)

  const NONE := Tally(0, 0, 0)

  datatype Bucket = Bucket(from: int, votes: Tally)

  /** A vote at `start` with step 0 indexes the buckets with NaN. */
  datatype VoteError = TypeError

  /** One vote added to its own column. */
  function Cast(t: Tally, v: Vote): Tally {
    match v.outcome
    case Yes => t.(yes := t.yes + v.weight)
    case No => t.(no := t.no + v.weight)
    case Abstain => t.(abstain := t.abstain + v.weight)
    case Other => t
  }

  /** The weights of the funding votes for `o` whose time satisfies `p`; an unreadable vote counts
   * for nothing. */
  function Weights(raw: seq<Option<Vote>>, p: int -> bool, o: Outcome): int {
    if raw == [] then 0 else
      var v := raw[|raw| - 1];
      Weights(raw[..|raw| - 1], p, o)
        + if v.Some? && v.value.funding && p(v.value.time) && v.value.outcome == o then v.value.weight else 0
  }

  function Sum(x: Tally, y: Tally): Tally {
    Tally(x.yes + y.yes, x.no + y.no, x.abstain + y.abstain)
  }

  /** Each column has the votes of its own outcome. */
  function Count(raw: seq<Option<Vote>>, p: int -> bool): Tally {
    Tally(Weights(raw, p, Yes), Weights(raw, p, No), Weights(raw, p, Abstain))
  }

  lemma {:induction false} CountNext(raw: seq<Option<Vote>>, p: int -> bool)
    ensures Count([], p) == NONE
    ensures raw != [] ==>
              var before, v := Count(raw[..|raw| - 1], p), raw[|raw| - 1];
              Count(raw, p) == if v.Some? && v.value.funding && p(v.value.time) then Cast(before, v.value) else before
  {
  }

  function VotesUpTo(raw: seq<Option<Vote>>, ms: int): Tally {
    Count(raw, t => t <= ms)
  }

  function VotesWithin(raw: seq<Option<Vote>>, from: int, to: int): Tally {
    Count(raw, t => from < t <= to)
  }

  lemma {:induction false} OneVote(v: Vote, p: int -> bool)
    ensures Count([Some(v)], p) == if v.funding && p(v.time) then Cast(NONE, v) else NONE
  {
    CountNext([Some(v)], p);
    assert [Some(v)][..0] == [];
  }

  lemma {:induction false} CastSum(x: Tally, y: Tally, v: Vote)
    ensures Sum(Cast(x, v), y) == Cast(Sum(x, y), v) && Sum(x, Cast(y, v)) == Cast(Sum(x, y), v)
  {
  }

  /** Counts over disjoint times add up. */
  lemma {:induction false} CountSplit(raw: seq<Option<Vote>>, p: int -> bool, q: int -> bool, whole: int -> bool)
    requires forall t :: !(p(t) && q(t)) && (whole(t) <==> p(t) || q(t))
    ensures Sum(Count(raw, p), Count(raw, q)) == Count(raw, whole)
  {
    if raw != [] {
      var before, v := raw[..|raw| - 1], raw[|raw| - 1];
      CountSplit(before, p, q, whole);
      if v.Some? {
        CastSum(Count(before, p), Count(before, q), v.value);
      }
    }
  }

  lemma {:induction false} VotesAdd(raw: seq<Option<Vote>>, from: int, to: int)
    requires from <= to
    ensures Sum(VotesUpTo(raw, from), VotesWithin(raw, from, to)) == VotesUpTo(raw, to)
  {
    CountSplit(raw, t => t <= from, t => from < t <= to, t => t <= to);
  }

  /** How many whole steps fit in the window: `for (to = start + step; to <= end; to += step)`. */
  function Buckets(start: int, end: int, step: int): nat {
    if step > 0 && start + step <= end then (end - start) / step else 0
  }

  lemma {:induction false} NextBucket(start: int, end: int, step: int, n: nat)
    requires step > 0
    ensures start + (n + 1) * step <= end <==> n < Buckets(start, end, step)
  {
    var q := (end - start) / step;
    assert end - start == q * step + (end - start) % step;
    if n < Buckets(start, end, step) {
      Times(n + 1, q, step);
    }
    if start + (n + 1) * step <= end {
      Times(1, n + 1, step);
      if q < n + 1 {
        Times(q + 1, n + 1, step);
      }
    }
  }

  lemma {:induction false} Times(a: int, b: int, step: int)
    requires a <= b && step > 0
    ensures a * step <= b * step
    ensures (b + 1) * step == b * step + step && 1 * step == step
  {
    assert (b - a) * step >= 0;
    assert b * step == a * step + (b - a) * step;
  }

  /** Math.ceil(x / step) - 1 for a positive step. */
  function IndexOf(x: int, step: int): int
    requires step > 0
  {
    -((-x) / step) - 1
  }

  /** Bucket `i` takes exactly the votes with from < time <= to; earlier ones have a
   * negative index. */
  lemma {:induction false} IndexIs(x: int, step: int, i: int)
    requires step > 0
    ensures IndexOf(x, step) == i <==> i * step < x <= (i + 1) * step
    ensures IndexOf(x, step) >= i <==> i * step < x
  {
    var q := (-x) / step;
    assert -x == q * step + (-x) % step;
    var k := IndexOf(x, step);
    assert k == -q - 1;
    assert (k + 1) * step == -(q * step) by { assert (k + 1) == -q; NegTimes(q, step); }
    assert k * step == (k + 1) * step - step by { Times(k, k, step); }
    assert k * step < x <= (k + 1) * step;
    if k < i { Times(k + 1, i, step); }
    if i < k { Times(i + 1, k, step); }
    Times(i, i, step);
  }

  lemma {:induction false} NegTimes(q: int, step: int)
    ensures (-q) * step == -(q * step)
  {
  }

  // ------------------------------------------------------------------ arithmetic

  /** The values that dividing, rounding and comparing can meet. */
  datatype Number = Fin(value: int) | PosInf | NegInf | NaN

  /** Math.ceil(x / step): for a step of zero, an infinity, or NaN if `x` is zero too. */
  function RoundedUp(x: int, step: int): Number {
    if step > 0 then Fin(-((-x) / step))
    else if step < 0 then Fin(-(x / -step))
    else if x > 0 then PosInf
    else if x < 0 then NegInf
    else NaN
  }

  function LessOne(n: Number): Number {
    match n
    case Fin(value) => Fin(value - 1)
    case _ => n
  }

  /** Comparisons with NaN are false, both ways. */
  predicate Below(n: Number, bound: int) {
    match n
    case Fin(value) => value < bound
    case NegInf => true
    case _ => false
  }

  predicate AtLeast(n: Number, bound: int) {
    match n
    case Fin(value) => value >= bound
    case PosInf => true
    case _ => false
  }

  /** An array read at anything but one of its indices is undefined. */
  function Element(buckets: seq<Bucket>, index: Number): Option<Bucket> {
    if index.Fin? && 0 <= index.value < |buckets| then Some(buckets[index.value]) else None
  }

  // -------------------------------------------------------------------- the code

  method MakeBuckets(start: int, end: int, step: int) returns (buckets: seq<Bucket>)
    ensures |buckets| == Buckets(start, end, step)
    ensures forall i :: 0 <= i < |buckets| ==> buckets[i] == Bucket(start + i * step, NONE)
  {
    buckets := [];
    if step > 0 {
      var to := start + step;
      NextBucket(start, end, step, 0);
      while to <= end
        invariant to == start + (|buckets| + 1) * step
        invariant to <= end <==> |buckets| < Buckets(start, end, step)
        invariant |buckets| <= Buckets(start, end, step)
        invariant forall i :: 0 <= i < |buckets| ==> buckets[i] == Bucket(start + i * step, NONE)
        decreases Buckets(start, end, step) - |buckets|
      {
        Times(|buckets|, |buckets|, step);
        Times(|buckets| + 1, |buckets| + 1, step);
        NextBucket(start, end, step, |buckets| + 1);
        buckets := buckets + [Bucket(to - step, NONE)];
        to := to + step;
      }
    }
  }

  function BucketVotes(raw: seq<Option<Vote>>, start: int, step: int, i: int): Tally {
    VotesWithin(raw, start + i * step, start + (i + 1) * step)
  }

  /** A funding vote that is counted, cast at exactly `ms`. */
  predicate CountedAt(v: Option<Vote>, ms: int) {
    v.Some? && v.value.funding && v.value.time == ms && !v.value.outcome.Other?
  }

  /** The buckets and the baseline hold the votes read so far. */
  ghost predicate Sorted(raw: seq<Option<Vote>>, start: int, end: int, step: int, base: Tally, buckets: seq<Bucket>) {
    && |buckets| == Buckets(start, end, step)
    && (step > 0 ==> base == VotesUpTo(raw, start))
    && forall i :: 0 <= i < |buckets| ==> buckets[i] == Bucket(start + i * step, BucketVotes(raw, start, step, i))
  }

  /** One more vote, cast where its index says. */
  lemma {:induction false} SortedStep(raw: seq<Option<Vote>>, n: nat, start: int, end: int, step: int, base: Tally,
                                      buckets: seq<Bucket>, base': Tally, buckets': seq<Bucket>)
    requires n < |raw| && Sorted(raw[..n], start, end, step, base, buckets) && |buckets'| == |buckets|
    requires forall i :: 0 <= i < |buckets| ==> buckets'[i].from == buckets[i].from
    requires step > 0 ==> base' == After(base, raw[n], t => t <= start)
    requires forall i :: 0 <= i < |buckets| ==>
               buckets'[i].votes == After(buckets[i].votes, raw[n], t => start + i * step < t <= start + (i + 1) * step)
    ensures Sorted(raw[..n + 1], start, end, step, base', buckets')
  {
    assert raw[..n + 1][..|raw[..n + 1]| - 1] == raw[..n];
  }

  function After(t: Tally, v: Option<Vote>, p: int -> bool): Tally {
    if v.Some? && v.value.funding && p(v.value.time) then Cast(t, v.value) else t
  }

  /** For a positive step the index is the bucket's; for none it is a number only away from `start`. */
  lemma {:induction false} WhereIndexed(time: int, start: int, step: int, index: Number)
    requires index == LessOne(RoundedUp(time - start, step))
    ensures index.NaN? <==> step == 0 && time == start
    ensures step > 0 ==> index == Fin(IndexOf(time - start, step)) && (index.value < 0 <==> time <= start)
    ensures step > 0 ==> forall i :: start + i * step < time <= start + (i + 1) * step <==> index.value == i
  {
    if step > 0 {
      IndexIs(time - start, step, 0);
      forall i ensures start + i * step < time <= start + (i + 1) * step <==> index.value == i {
        IndexIs(time - start, step, i);
      }
    }
  }

  /** The loop over the stored votes. Every funding vote goes to the one bucket that holds its
   * time, to the baseline if it is not after the window's start, and nowhere if it is after
   * the last bucket; the one with no index at all is looked for among the buckets. */
  method Sort(raw: seq<Option<Vote>>, start: int, end: int, step: int)
    returns (r: Result<(Tally, seq<Bucket>), VoteError>)
    ensures r.Err? <==> step == 0 && exists n :: 0 <= n < |raw| && CountedAt(raw[n], start)
    ensures r.Ok? ==> Sorted(raw, start, end, step, r.value.0, r.value.1)
  {
    var buckets := MakeBuckets(start, end, step);
    var base := NONE;
    for n := 0 to |raw|
      invariant Sorted(raw[..n], start, end, step, base, buckets)
      invariant step == 0 ==> forall m :: 0 <= m < n ==> !CountedAt(raw[m], start)
    {
      ghost var base0, buckets0 := base, buckets;
      if raw[n].Some? && raw[n].value.funding {
        var vote := raw[n].value;
        var index := LessOne(RoundedUp(vote.time - start, step));
        WhereIndexed(vote.time, start, step, index);
        if !AtLeast(index, |buckets|) {
          if Below(index, 0) {
            base := Cast(base, vote);
          } else if !vote.outcome.Other? {
            var bucket := Element(buckets, index);
            if bucket.None? {
              return Err(TypeError);
            }
            buckets := buckets[index.value := bucket.value.(votes := Cast(bucket.value.votes, vote))];
          }
        }
      }
      SortedStep(raw, n, start, end, step, base0, buckets0, base, buckets);
    }
    assert raw[..|raw|] == raw;
    r := Ok((base, buckets));
  }

  /** What the series promises at point `i`: a plain point is its bucket's own votes, a
   * running one everything cast up to its end. */
  function PointAt(raw: seq<Option<Vote>>, start: int, step: int, i: int, runningTotal: bool): Bucket {
    Bucket(start + i * step,
           if runningTotal then VotesUpTo(raw, start + (i + 1) * step) else BucketVotes(raw, start, step, i))
  }

  lemma {:induction false} RunningStep(raw: seq<Option<Vote>>, start: int, step: int, i: int)
    requires step > 0
    ensures Sum(VotesUpTo(raw, start + i * step), BucketVotes(raw, start, step, i)) ==
            VotesUpTo(raw, start + (i + 1) * step)
  {
    Times(i, i + 1, step);
    VotesAdd(raw, start + i * step, start + (i + 1) * step);
  }

  lemma {:induction false} PointStep(raw: seq<Option<Vote>>, start: int, step: int, i: int, runningTotal: bool,
                                     b: Bucket, before: Tally, after: Tally, point: Bucket)
    requires step > 0 && b == Bucket(start + i * step, BucketVotes(raw, start, step, i))
    requires before == VotesUpTo(raw, start + i * step) && after == VotesUpTo(raw, start + (i + 1) * step)
    requires point == PointAt(raw, start, step, i, runningTotal)
    ensures Sum(before, b.votes) == after && point == Bucket(b.from, if runningTotal then after else b.votes)
  {
    RunningStep(raw, start, step, i);
  }

  /** `getProposalVoteSeries`. With a step of zero there are no buckets, and a vote at exactly
   * `start` fails the request; a negative step gives no points. */
  method Series(raw: seq<Option<Vote>>, start: int, end: int, step: int, runningTotal: bool)
    returns (r: Result<seq<Bucket>, VoteError>)
    ensures r.Err? <==> step == 0 && exists n :: 0 <= n < |raw| && CountedAt(raw[n], start)
    ensures r.Ok? ==>
              && |r.value| == Buckets(start, end, step)
              && forall i :: 0 <= i < |r.value| ==> r.value[i] == PointAt(raw, start, step, i, runningTotal)
  {
    var sorted := Sort(raw, start, end, step);
    if sorted.Err? {
      return Err(sorted.error);
    }
    var (base, buckets) := sorted.value;
    ghost var wanted := seq(|buckets|, i => PointAt(raw, start, step, i, runningTotal));
    ghost var totals := seq(|buckets| + 1, i => if i == 0 then base else VotesUpTo(raw, start + i * step));
    StartOf(start, step);
    forall i | 0 <= i < |buckets|
      ensures Sum(totals[i], buckets[i].votes) == totals[i + 1]
      ensures wanted[i] == Bucket(buckets[i].from, if runningTotal then totals[i + 1] else buckets[i].votes)
    {
      PointStep(raw, start, step, i, runningTotal, buckets[i], totals[i], totals[i + 1], wanted[i]);
    }
    var points := RunTotals(base, buckets, runningTotal, totals, wanted);
    r := Ok(points);
  }

  /** A running series ends at the tally of all votes up to the window's end, whatever they
   * are, if and only if the step divides the window. */
  lemma {:induction false} EndsAtTallyIff(start: int, end: int, step: int)
    requires step > 0 && start + step <= end
    ensures (forall raw :: PointAt(raw, start, step, Buckets(start, end, step) - 1, true).votes == VotesUpTo(raw, end))
            <==> (end - start) % step == 0
  {
    var n := Buckets(start, end, step);
    assert end - start == n * step + (end - start) % step;
    if (end - start) % step != 0 {
      var late := [Some(Vote(end, Yes, 1, true))];
      OneVote(Vote(end, Yes, 1, true), t => t <= end);
      OneVote(Vote(end, Yes, 1, true), t => t <= start + n * step);
      assert VotesUpTo(late, end) == Tally(1, 0, 0) && VotesUpTo(late, start + n * step) == NONE;
      assert PointAt(late, start, step, n - 1, true).votes == VotesUpTo(late, start + n * step);
    }
  }

  lemma {:induction false} StartOf(start: int, step: int)
    ensures start + 0 * step == start
  {
  }

  /** The last loop: totals run over the buckets in order. */
  method RunTotals(base: Tally, buckets: seq<Bucket>, runningTotal: bool, ghost totals: seq<Tally>,
                   ghost wanted: seq<Bucket>)
    returns (points: seq<Bucket>)
    requires |totals| == |buckets| + 1 && totals[0] == base && |wanted| == |buckets|
    requires forall i :: 0 <= i < |buckets| ==>
               && Sum(totals[i], buckets[i].votes) == totals[i + 1]
               && wanted[i] == Bucket(buckets[i].from, if runningTotal then totals[i + 1] else buckets[i].votes)
    ensures points == wanted
  {
    var total := base;
    points := [];
    for i := 0 to |buckets|
      invariant points == wanted[..i] && (runningTotal ==> total == totals[i])
    {
      assert Sum(totals[i], buckets[i].votes) == totals[i + 1];
      assert wanted[..i + 1] == wanted[..i] + [wanted[i]];
      if runningTotal {
        total := Sum(total, buckets[i].votes);
        points := points + [Bucket(buckets[i].from, total)];
      } else {
        points := points + [Bucket(buckets[i].from, buckets[i].votes)];
      }
    }
  }

  // ----------------------------------------------------------------- the request

  datatype RequestError = BadRange | Failed(error: VoteError)

  /** The window split into `count` intervals of whole seconds, rounded up. */
  function StepFor(start: int, end: int, count: nat): int
    requires count > 0
  {
    RoundedUp(end - start, 1000 * count).value * 1000
  }

  lemma {:induction false} StepIs(start: int, end: int, count: nat)
    requires count > 0 && start <= end
    ensures StepFor(start, end, count) == 0 <==> start == end
    ensures StepFor(start, end, count) >= 0 && StepFor(start, end, count) * count >= end - start
  {
    var seconds := RoundedUp(end - start, 1000 * count).value;
    IndexIs(end - start, 1000 * count, seconds - 1);
    IndexIs(end - start, 1000 * count, -1);
    assert seconds * (1000 * count) == StepFor(start, end, count) * count;
  }

  /** The controller's request for `count` intervals: refused for a reversed window, and failing
   * if and only if the window has no length and a counted vote was cast at its instant. */
  method Requested(raw: seq<Option<Vote>>, start: int, end: int, count: nat, runningTotal: bool)
    returns (r: Result<seq<Bucket>, RequestError>)
    requires count > 0
    ensures r == Err(BadRange) <==> start > end
    ensures r == Err(Failed(TypeError)) <==> start == end && exists n :: 0 <= n < |raw| && CountedAt(raw[n], start)
    ensures r.Ok? ==>
              var step := StepFor(start, end, count);
              && |r.value| == Buckets(start, end, step)
              && forall i :: 0 <= i < |r.value| ==> r.value[i] == PointAt(raw, start, step, i, runningTotal)
  {
    if start > end {
      return Err(BadRange);
    }
    StepIs(start, end, count);
    var series := Series(raw, start, end, StepFor(start, end, count), runningTotal);
    match series
    case Ok(points) => r := Ok(points);
    case Err(TypeError) => r := Err(Failed(TypeError));
  }

  /** One vote, and a window that is its instant: the request fails. */
  method VoteAtEmptyWindow(v: Vote, count: nat, runningTotal: bool) returns (r: Result<seq<Bucket>, RequestError>)
    requires v.funding && !v.outcome.Other? && count > 0
    ensures r == Err(Failed(TypeError))
  {
    assert CountedAt([Some(v)][0], v.time);
    r := Requested([Some(v)], v.time, v.time, count, runningTotal);
  }
}
