/** The catch-up pipeline as a step system: two block streams, a merger and a batching
 * consumer, joined by bounded channels. Blocks are named by their heights. */
module CatchUp {
  import opened Prelude

  const PARALLEL_P2P_THRESHOLD := 1024

  /** `first` is the first height missing, `total` how many are. */
  datatype Config = Config(first: int, total: nat, batchSize: nat, prefetch: nat, buffer: nat)

  /** How many blocks stream A fetches; B fetches the rest. A short range has one stream. */
  function CountA(c: Config): nat {
    if c.total >= PARALLEL_P2P_THRESHOLD then c.total / 2 else c.total
  }

  function CountB(c: Config): nat { c.total - CountA(c) }

  function FirstB(c: Config): int { c.first + CountA(c) }

  /** A stream sends its heights in order, until it has sent all or fails: this is what
   * `BlockStream.StreamBlocks` proves of a peer that sends no block twice and none it was not
   * asked for, however often it leaves blocks out or hangs up. */
  datatype Stream = Stream(sent: nat, ended: bool, failed: bool)

  datatype Phase = DrainA | DrainB | Closed

  datatype Consumer = Receiving | Finished | Broken

  /** `batches` are the committed commit batches, `pending` the one being filled. */
  datatype State = State(
    a: Stream, b: Stream, queueA: seq<int>, queueB: seq<int>,
    phase: Phase, merged: seq<int>,
    last: int, pending: seq<int>, batches: seq<seq<int>>, consumer: Consumer)

  const IDLE := Stream(0, false, false)

  function Start(c: Config): State {
    State(IDLE, IDLE, [], [], DrainA, [], c.first - 1, [], [], Receiving)
  }

  datatype Action =
    | SendA | EndA | FailA
    | SendB | EndB | FailB
    | ForwardA | SwitchToB | ForwardB | CloseMerge
    | Consume | Finish | Break

  /** A stream that still runs, with blocks left to send. */
  predicate MaySend(s: Stream, count: nat) { !s.ended && s.sent < count }

  function Flushed(s: State): State {
    s.(batches := s.batches + [s.pending], pending := [])
  }

  /** One turn of the consumer loop. */
  function Received(c: Config, s: State, height: int): State
  {
    if height <= s.last then s else
      var taken := s.(pending := s.pending + [height], last := height);
      if |taken.pending| >= c.batchSize then Flushed(taken) else taken
  }

  predicate Enabled(c: Config, s: State, action: Action) {
    match action
    case SendA => MaySend(s.a, CountA(c)) && |s.queueA| < c.prefetch
    case EndA => !s.a.ended && s.a.sent == CountA(c)
    case FailA => !s.a.ended
    case SendB => MaySend(s.b, CountB(c)) && |s.queueB| < c.prefetch
    case EndB => !s.b.ended && s.b.sent == CountB(c)
    case FailB => !s.b.ended
    case ForwardA => s.phase == DrainA && s.queueA != [] && |s.merged| < c.buffer
    case SwitchToB => s.phase == DrainA && s.queueA == [] && s.a.ended
    case ForwardB => s.phase == DrainB && s.queueB != [] && |s.merged| < c.buffer
    case CloseMerge => s.phase == DrainB && s.queueB == [] && s.b.ended
    case Consume => s.consumer == Receiving && s.merged != []
    case Finish => s.consumer == Receiving && s.merged == [] && s.phase == Closed
    case Break => s.consumer == Receiving
  }

  function Act(c: Config, s: State, action: Action): State
    requires Enabled(c, s, action)
  {
    match action
    case SendA => s.(a := s.a.(sent := s.a.sent + 1), queueA := s.queueA + [c.first + s.a.sent])
    case EndA => s.(a := s.a.(ended := true))
    case FailA => s.(a := s.a.(ended := true, failed := true))
    case SendB => s.(b := s.b.(sent := s.b.sent + 1), queueB := s.queueB + [FirstB(c) + s.b.sent])
    case EndB => s.(b := s.b.(ended := true))
    case FailB => s.(b := s.b.(ended := true, failed := true))
    case ForwardA => s.(queueA := s.queueA[1..], merged := s.merged + [s.queueA[0]])
    case SwitchToB => s.(phase := DrainB)
    case ForwardB => s.(queueB := s.queueB[1..], merged := s.merged + [s.queueB[0]])
    case CloseMerge => s.(phase := Closed)
    case Consume => Received(c, s.(merged := s.merged[1..]), s.merged[0])
    case Finish => (if s.pending == [] then s else Flushed(s)).(consumer := Finished)
    case Break => s.(pending := [], consumer := Broken)
  }

  /** A run: every action enabled in its turn. */
  predicate Runs(c: Config, actions: seq<Action>) {
    actions == [] ||
    var before, last := actions[..|actions| - 1], actions[|actions| - 1];
    Runs(c, before) && Enabled(c, After(c, before), last)
  }

  function After(c: Config, actions: seq<Action>): State {
    if actions == [] then Start(c) else
      var s := After(c, actions[..|actions| - 1]);
      if Enabled(c, s, actions[|actions| - 1]) then Act(c, s, actions[|actions| - 1]) else s
  }

  function Concat(batches: seq<seq<int>>): seq<int> {
    if batches == [] then [] else Concat(batches[..|batches| - 1]) + batches[|batches| - 1]
  }

  /** The heights written, in order. */
  function Written(s: State): seq<int> { Concat(s.batches) }

  function Range(lo: int, n: nat): (r: seq<int>)
    ensures |r| == n && forall i :: 0 <= i < n ==> r[i] == lo + i
  {
    seq(n, i => lo + i)
  }

  /** Everything the streams have sent, A's blocks before B's. */
  function Sent(c: Config, s: State): seq<int> {
    Range(c.first, s.a.sent) + Range(FirstB(c), s.b.sent)
  }

  /** What the consumer has taken from the merged stream. */
  function Taken(s: State): seq<int> { Written(s) + s.pending }

  predicate StreamOk(s: Stream, count: nat) {
    s.sent <= count && (s.ended && !s.failed ==> s.sent == count) && (s.failed ==> s.ended)
  }

  /** No block is lost, doubled or overtaken between the streams and the consumer. */
  ghost predicate Ordered(c: Config, s: State, taken: seq<int>) {
    && StreamOk(s.a, CountA(c)) && StreamOk(s.b, CountB(c))
    && (s.phase == DrainA ==>
          taken + s.merged + s.queueA == Range(c.first, s.a.sent) && s.queueB == Range(FirstB(c), s.b.sent))
    && (s.phase != DrainA ==> s.a.ended && s.queueA == [] && taken + s.merged + s.queueB == Sent(c, s))
    && (s.phase == Closed ==> s.b.ended && s.queueB == [])
    && s.last == (if taken == [] then c.first - 1 else taken[|taken| - 1])
  }

  ghost predicate Inv(c: Config, s: State) {
    match s.consumer
    case Receiving => Ordered(c, s, Taken(s))
    case Finished => s.pending == [] && s.merged == [] && s.phase == Closed && Ordered(c, s, Written(s))
    case Broken =>
      && s.pending == [] && StreamOk(s.a, CountA(c)) && StreamOk(s.b, CountB(c))
      && (if s.phase == DrainA then Written(s) <= Range(c.first, s.a.sent) else s.a.ended && Written(s) <= Sent(c, s))
  }

  lemma {:induction false} FlushKeepsTaken(s: State)
    ensures Written(Flushed(s)) == Taken(s) && Taken(Flushed(s)) == Taken(s)
  {
    var batches := Flushed(s).batches;
    assert batches[..|batches| - 1] == s.batches;
  }

  lemma {:induction false} RangeGrows(lo: int, n: nat)
    ensures Range(lo, n + 1) == Range(lo, n) + [lo + n]
  {
  }

  /** The merged stream ascends, so the consumer never meets an indexed height. */
  lemma {:induction false} SentAscends(c: Config, s: State)
    requires StreamOk(s.a, CountA(c))
    ensures forall i, j :: 0 <= i < j < |Sent(c, s)| ==> Sent(c, s)[i] < Sent(c, s)[j]
    ensures forall i :: 0 <= i < |Sent(c, s)| ==> c.first <= Sent(c, s)[i]
  {
  }

  lemma {:induction false} TakenThenNext(c: Config, s: State, taken: seq<int>)
    requires Ordered(c, s, taken) && s.merged != []
    ensures s.merged[0] > s.last
    ensures Ordered(c, s.(merged := s.merged[1..], last := s.merged[0]), taken + [s.merged[0]])
  {
    SentAscends(c, s);
    var all := Sent(c, s);
    assert taken + s.merged <= all by {
      if s.phase == DrainA {
        assert taken + s.merged <= taken + s.merged + s.queueA;
      }
    }
    assert all[|taken|] == s.merged[0] && (taken != [] ==> all[|taken| - 1] == s.last);
    assert taken + [s.merged[0]] + s.merged[1..] == taken + s.merged;
  }

  lemma {:induction false} ConsumeKeeps(c: Config, s: State)
    requires Inv(c, s) && Enabled(c, s, Consume)
    ensures Inv(c, Act(c, s, Consume))
  {
    var height, rest := s.merged[0], s.(merged := s.merged[1..]);
    TakenThenNext(c, s, Taken(s));
    var taken := rest.(pending := rest.pending + [height], last := height);
    assert Taken(taken) == Taken(s) + [height];
    FlushKeepsTaken(taken);
  }

  lemma {:induction false} SendKeeps(c: Config, s: State, action: Action)
    requires Inv(c, s) && Enabled(c, s, action) && (action == SendA || action == SendB)
    ensures Inv(c, Act(c, s, action))
  {
    RangeGrows(c.first, s.a.sent);
    RangeGrows(FirstB(c), s.b.sent);
    var s' := Act(c, s, action);
    if action == SendA {
      assert Taken(s) + s.merged + s'.queueA == Taken(s) + s.merged + s.queueA + [c.first + s.a.sent];
    } else {
      assert Taken(s) + s.merged + s'.queueB == Taken(s) + s.merged + s.queueB + [FirstB(c) + s.b.sent];
      assert Sent(c, s') == Sent(c, s) + [FirstB(c) + s.b.sent];
    }
  }

  lemma {:induction false} ForwardKeeps(c: Config, s: State, action: Action)
    requires Inv(c, s) && Enabled(c, s, action) && (action == ForwardA || action == ForwardB)
    ensures Inv(c, Act(c, s, action))
  {
    if action == ForwardA {
      assert Taken(s) + (s.merged + [s.queueA[0]]) + s.queueA[1..] == Taken(s) + s.merged + s.queueA;
    } else {
      assert Taken(s) + (s.merged + [s.queueB[0]]) + s.queueB[1..] == Taken(s) + s.merged + s.queueB;
    }
  }

  lemma {:induction false} SwitchKeeps(c: Config, s: State)
    requires Inv(c, s) && Enabled(c, s, SwitchToB)
    ensures Inv(c, Act(c, s, SwitchToB))
  {
    assert Taken(s) + s.merged + s.queueA == Taken(s) + s.merged;
  }

  lemma {:induction false} FinishKeeps(c: Config, s: State)
    requires Inv(c, s) && Enabled(c, s, Finish)
    ensures Inv(c, Act(c, s, Finish))
  {
    FlushKeepsTaken(s);
    assert s.pending == [] ==> Taken(s) == Written(s);
  }

  lemma {:induction false} BreakKeeps(c: Config, s: State)
    requires Inv(c, s) && Enabled(c, s, Break)
    ensures Inv(c, Act(c, s, Break))
  {
    if s.phase == DrainA {
      assert Written(s) <= Taken(s) + s.merged + s.queueA;
    } else {
      assert Written(s) <= Taken(s) + s.merged + s.queueB;
    }
  }

  /** Every step of every interleaving keeps the order. */
  lemma {:induction false} StepKeeps(c: Config, s: State, action: Action)
    requires Inv(c, s) && Enabled(c, s, action)
    ensures Inv(c, Act(c, s, action))
  {
    match action
    case SendA => SendKeeps(c, s, action);
    case SendB => SendKeeps(c, s, action);
    case ForwardA => ForwardKeeps(c, s, action);
    case ForwardB => ForwardKeeps(c, s, action);
    case SwitchToB => SwitchKeeps(c, s);
    case Consume => ConsumeKeeps(c, s);
    case Finish => FinishKeeps(c, s);
    case Break => BreakKeeps(c, s);
    case EndA =>
    case FailA =>
    case EndB =>
    case FailB =>
    case CloseMerge =>
  }

  lemma {:induction false} RunKeeps(c: Config, actions: seq<Action>)
    requires Runs(c, actions)
    ensures Inv(c, After(c, actions))
  {
    if actions == [] {
      assert Written(Start(c)) == [] && Taken(Start(c)) == [];
    } else {
      RunKeeps(c, actions[..|actions| - 1]);
      StepKeeps(c, After(c, actions[..|actions| - 1]), actions[|actions| - 1]);
    }
  }

  // ---------------------------------------------------------------- main results

  predicate Ascending(heights: seq<int>) {
    forall i, j :: 0 <= i < j < |heights| ==> heights[i] < heights[j]
  }

  /** In every interleaving, at every moment, even if streams or the database fail: the
   * heights written ascend strictly, each at most once, within the missing range. */
  lemma {:induction false} WrittenAscends(c: Config, actions: seq<Action>)
    requires Runs(c, actions)
    ensures Ascending(Written(After(c, actions)))
    ensures forall h :: h in Written(After(c, actions)) ==> c.first <= h < c.first + c.total
  {
    var s := After(c, actions);
    RunKeeps(c, actions);
    SentAscends(c, s);
    assert Written(s) <= Sent(c, s) by {
      if s.consumer != Broken {
        if s.phase == DrainA {
          assert Written(s) <= Taken(s) + s.merged + s.queueA;
        } else {
          assert Written(s) <= Taken(s) + s.merged + s.queueB;
        }
      }
    }
  }

  /** Commit batches are full, at any moment of a run, except the last one of a finished consumer;
   * what waits for the next is less than one, and no channel holds more than its room. */
  ghost predicate WithinRoom(c: Config, s: State) {
    && |s.queueA| <= c.prefetch && |s.queueB| <= c.prefetch && |s.merged| <= c.buffer
    && (forall i :: 0 <= i < |s.batches| && !(s.consumer == Finished && i == |s.batches| - 1) ==>
          |s.batches[i]| == Full(c))
    && (s.consumer == Finished && s.batches != [] ==> 1 <= |s.batches[|s.batches| - 1]| <= Full(c))
    && |s.pending| < Full(c)
  }

  /** `pending.len() >= batch_size` after every block: a size of 0 flushes like 1. */
  function Full(c: Config): (n: nat)
    ensures n >= 1 && n >= c.batchSize && (n == 1 || n == c.batchSize)
  {
    if c.batchSize > 1 then c.batchSize else 1
  }

  lemma {:induction false} StepWithinRoom(c: Config, s: State, action: Action)
    requires WithinRoom(c, s) && Enabled(c, s, action)
    ensures WithinRoom(c, Act(c, s, action))
  {
  }

  lemma {:induction false} RunWithinRoom(c: Config, actions: seq<Action>)
    requires Runs(c, actions)
    ensures WithinRoom(c, After(c, actions))
  {
    if actions != [] {
      var before := actions[..|actions| - 1];
      RunWithinRoom(c, before);
      StepWithinRoom(c, After(c, before), actions[|actions| - 1]);
    }
  }

  /** The consumer loop over whatever arrives: any heights, in any order, any number of times. */
  function Served(c: Config, arrivals: seq<int>): State {
    if arrivals == [] then Start(c) else
      Received(c, Served(c, arrivals[..|arrivals| - 1]), arrivals[|arrivals| - 1])
  }

  /** The `i`th arrival is missing from the index and above every arrival before it. */
  predicate Tops(first: int, arrivals: seq<int>, i: int)
    requires 0 <= i < |arrivals|
  {
    first <= arrivals[i] && forall j :: 0 <= j < i ==> arrivals[j] < arrivals[i]
  }

  predicate ToppedAt(first: int, arrivals: seq<int>, h: int) {
    exists i :: 0 <= i < |arrivals| && arrivals[i] == h && Tops(first, arrivals, i)
  }

  /** The arrivals that top all before them, each once and strictly ascending. */
  ghost predicate Records(first: int, arrivals: seq<int>, taken: seq<int>) {
    Ascending(taken) && forall h :: h in taken <==> ToppedAt(first, arrivals, h)
  }

  /** `last` is the highest that was indexed or has arrived. */
  predicate Highest(first: int, arrivals: seq<int>, taken: seq<int>, last: int) {
    && (forall i :: 0 <= i < |arrivals| ==> arrivals[i] <= last)
    && last == (if taken == [] then first - 1 else taken[|taken| - 1]) && first - 1 <= last
  }

  lemma {:induction false} ToppedNext(first: int, before: seq<int>, x: int, h: int)
    ensures ToppedAt(first, before + [x], h) <==>
            ToppedAt(first, before, h) || (h == x && Tops(first, before + [x], |before|))
  {
    var all := before + [x];
    assert forall i :: 0 <= i < |before| ==> all[i] == before[i];
    if i :| 0 <= i < |before| && before[i] == h && Tops(first, before, i) {
      assert all[i] == h && Tops(first, all, i);
    }
    if i :| 0 <= i < |all| && all[i] == h && Tops(first, all, i) && i < |before| {
      assert before[i] == h && Tops(first, before, i);
    }
    assert all[|before|] == x;
  }

  lemma {:induction false} RecordsNext(first: int, before: seq<int>, taken: seq<int>, last: int, x: int)
    requires Records(first, before, taken) && Highest(first, before, taken, last)
    ensures Tops(first, before + [x], |before|) <==> x > last
    ensures x <= last ==> Records(first, before + [x], taken) && Highest(first, before + [x], taken, last)
    ensures x > last ==> Records(first, before + [x], taken + [x]) && Highest(first, before + [x], taken + [x], x)
  {
    var all := before + [x];
    assert forall i :: 0 <= i < |before| ==> all[i] == before[i];
    if taken != [] {
      assert taken[|taken| - 1] in taken && ToppedAt(first, before, last);
    }
    forall h ensures ToppedAt(first, all, h) <==> ToppedAt(first, before, h) || (h == x && x > last) {
      ToppedNext(first, before, x, h);
    }
  }

  lemma {:induction false} ReceivedTakes(c: Config, s: State, height: int)
    ensures Taken(Received(c, s, height)) == Taken(s) + if height <= s.last then [] else [height]
    ensures Received(c, s, height).last == if height <= s.last then s.last else height
    ensures Written(s) <= Written(Received(c, s, height))
  {
    if height > s.last {
      var taken := s.(pending := s.pending + [height], last := height);
      assert Written(s) + (s.pending + [height]) == Written(s) + s.pending + [height];
      FlushKeepsTaken(taken);
    }
  }

  ghost predicate Guarded(c: Config, arrivals: seq<int>, s: State) {
    Records(c.first, arrivals, Taken(s)) && Highest(c.first, arrivals, Taken(s), s.last)
  }

  lemma {:induction false} GuardKeeps(c: Config, before: seq<int>, s: State, x: int, s': State)
    requires Guarded(c, before, s) && s' == Received(c, s, x)
    ensures Guarded(c, before + [x], s')
  {
    ReceivedTakes(c, s, x);
    RecordsNext(c.first, before, Taken(s), s.last, x);
    assert Taken(s) + [] == Taken(s);
  }

  lemma {:induction false} StartGuarded(c: Config)
    ensures Guarded(c, [], Start(c))
  {
    assert Taken(Start(c)) == [];
  }

  lemma {:induction false} ServedGuarded(c: Config, arrivals: seq<int>)
    ensures Guarded(c, arrivals, Served(c, arrivals))
  {
    if arrivals == [] {
      StartGuarded(c);
    } else {
      var before, x := arrivals[..|arrivals| - 1], arrivals[|arrivals| - 1];
      ServedGuarded(c, before);
      assert before + [x] == arrivals;
      GuardKeeps(c, before, Served(c, before), x, Served(c, arrivals));
    }
  }

  /** The consumer's own guard, whatever peers and merger deliver: what is taken is the arrivals
   * that top all before them, each once and strictly ascending, and what is written is a part of
   * that from the front, all of it after the last flush. */
  lemma {:induction false} GuardAscends(c: Config, arrivals: seq<int>)
    ensures var s := Served(c, arrivals);
            && Records(c.first, arrivals, Taken(s)) && Highest(c.first, arrivals, Taken(s), s.last)
            && Written(s) <= Taken(s) && Written(Flushed(s)) == Taken(s)
  {
    ServedGuarded(c, arrivals);
    FlushKeepsTaken(Served(c, arrivals));
  }

  /** When the consumer has finished: what was written is exactly what was sent. */
  lemma {:induction false} FinishedWrote(c: Config, actions: seq<Action>)
    requires Runs(c, actions) && After(c, actions).consumer == Finished
    ensures Written(After(c, actions)) == Sent(c, After(c, actions))
  {
    var s := After(c, actions);
    RunKeeps(c, actions);
    assert Written(s) + s.merged + s.queueB == Written(s);
  }

  lemma {:induction false} RangesJoin(lo: int, a: nat, countA: nat, b: nat, countB: nat)
    requires a <= countA && b <= countB
    ensures Range(lo, a) + Range(lo + countA, b) == Range(lo, countA + countB) <==> a == countA && b == countB
    ensures Range(lo, a) + Range(lo + countA, b) == Range(lo, a + b) <==> a == countA || b == 0
  {
    var joined := Range(lo, a) + Range(lo + countA, b);
    if a < countA && b > 0 {
      assert joined[a] == lo + countA && Range(lo, a + b)[a] == lo + a;
    }
    assert |joined| == a + b && |Range(lo, countA + countB)| == countA + countB;
  }

  lemma {:induction false} StreamsAtEnd(c: Config, actions: seq<Action>)
    returns (a: Stream, b: Stream, written: seq<int>)
    requires Runs(c, actions) && After(c, actions).consumer == Finished
    ensures var s := After(c, actions); a == s.a && b == s.b && written == Written(s)
    ensures StreamOk(a, CountA(c)) && StreamOk(b, CountB(c)) && a.ended && b.ended
    ensures written == Range(c.first, a.sent) + Range(FirstB(c), b.sent)
  {
    var s := After(c, actions);
    a, b, written := s.a, s.b, Written(s);
    FinishedWrote(c, actions);
    RunKeeps(c, actions);
  }

  lemma {:induction false} CompleteStreams(c: Config, a: Stream, b: Stream, written: seq<int>)
    requires StreamOk(a, CountA(c)) && StreamOk(b, CountB(c)) && a.ended && b.ended
    requires written == Range(c.first, a.sent) + Range(FirstB(c), b.sent)
    ensures written == Range(c.first, c.total) <==> a.sent == CountA(c) && b.sent == CountB(c)
    ensures !a.failed && !b.failed ==> written == Range(c.first, c.total)
  {
    RangesJoin(c.first, a.sent, CountA(c), b.sent, CountB(c));
  }

  /** A finished catch-up wrote exactly the missing heights if and only if both streams
   * sent everything; so it did whenever neither failed. */
  lemma {:induction false} CompleteIff(c: Config, actions: seq<Action>, s: State)
    requires Runs(c, actions) && s == After(c, actions) && s.consumer == Finished
    ensures Written(s) == Range(c.first, c.total) <==> s.a.sent == CountA(c) && s.b.sent == CountB(c)
    ensures !s.a.failed && !s.b.failed ==> Written(s) == Range(c.first, c.total)
  {
    var a, b, written := StreamsAtEnd(c, actions);
    CompleteStreams(c, a, b, written);
  }

  /** No height is missing below a written one. */
  predicate Contiguous(c: Config, heights: seq<int>) {
    heights == Range(c.first, |heights|)
  }

  /** The merger drains B even after A has failed: what is written has no gap if and
   * only if A sent everything or B nothing. */
  lemma {:induction false} ContiguousIff(c: Config, actions: seq<Action>, s: State)
    requires Runs(c, actions) && s == After(c, actions) && s.consumer == Finished
    ensures Contiguous(c, Written(s)) <==> s.a.sent == CountA(c) || s.b.sent == 0
  {
    var a, b, written := StreamsAtEnd(c, actions);
    ContiguousStreams(c, a, b, written);
  }

  lemma {:induction false} ContiguousStreams(c: Config, a: Stream, b: Stream, written: seq<int>)
    requires StreamOk(a, CountA(c)) && StreamOk(b, CountB(c))
    requires written == Range(c.first, a.sent) + Range(FirstB(c), b.sent)
    ensures Contiguous(c, written) <==> a.sent == CountA(c) || b.sent == 0
  {
    RangesJoin(c.first, a.sent, CountA(c), b.sent, CountB(c));
    assert |written| == a.sent + b.sent;
  }

  lemma {:induction false} Took(c: Config, before: seq<Action>, s: State, action: Action, s': State)
    returns (after: seq<Action>)
    requires Runs(c, before) && After(c, before) == s && Enabled(c, s, action) && Act(c, s, action) == s'
    ensures Runs(c, after) && After(c, after) == s'
  {
    after := before + [action];
    assert after[..|after| - 1] == before;
  }

  /** A fails at once and B sends one block: it is written above a gap that a restart
   * from the highest indexed block never fills. */
  lemma {:induction false} GapAfterFailure(c: Config) returns (actions: seq<Action>)
    requires c.total == PARALLEL_P2P_THRESHOLD && c.batchSize == 1 && c.prefetch > 0 && c.buffer > 0
    ensures Runs(c, actions) && After(c, actions).consumer == Finished && Written(After(c, actions)) == [c.first + 512]
  {
    var h := c.first + 512;
    var s1 := Start(c).(a := Stream(0, true, true));
    var s2 := s1.(b := Stream(1, false, false), queueB := [h]);
    var s3 := s2.(b := Stream(1, true, true));
    actions := Took(c, [], Start(c), FailA, s1);
    actions := Took(c, actions, s1, SendB, s2);
    actions := Took(c, actions, s2, FailB, s3);
    actions := GapWritten(c, actions, s3, h);
  }

  lemma {:induction false} GapWritten(c: Config, before: seq<Action>, s: State, h: int) returns (actions: seq<Action>)
    requires c.batchSize == 1 && c.buffer > 0 && Runs(c, before) && After(c, before) == s && h > c.first
    requires s == Start(c).(a := Stream(0, true, true), b := Stream(1, true, true), queueB := [h])
    ensures Runs(c, actions) && After(c, actions).consumer == Finished && Written(After(c, actions)) == [h]
  {
    var s4 := s.(phase := DrainB);
    var s5 := s4.(queueB := [], merged := [h]);
    var s6 := s5.(phase := Closed);
    actions := Took(c, before, s, SwitchToB, s4);
    actions := Took(c, actions, s4, ForwardB, s5);
    actions := Took(c, actions, s5, CloseMerge, s6);
    actions := OneWritten(c, actions, s6, h);
  }

  lemma {:induction false} OneWritten(c: Config, before: seq<Action>, s: State, h: int) returns (actions: seq<Action>)
    requires c.batchSize == 1 && Runs(c, before) && After(c, before) == s && h > s.last
    requires s.merged == [h] && s.pending == [] && s.batches == [] && s.consumer == Receiving && s.phase == Closed
    ensures Runs(c, actions) && After(c, actions).consumer == Finished && Written(After(c, actions)) == [h]
  {
    var s7 := s.(merged := [], last := h, batches := [[h]]);
    assert s.merged[1..] == [] && s.pending + [h] == [h] && s.batches + [[h]] == [[h]];
    actions := Took(c, before, s, Consume, s7);
    actions := Took(c, actions, s7, Finish, s7.(consumer := Finished));
    assert [[h]][..0] == [] && Concat([[h]]) == Concat([]) + [h];
  }

  // ------------------------------------------------------------------- progress

  /** No deadlock: until the consumer is done, some step other than a failure is
   * possible, whatever the channel sizes. */
  lemma {:induction false} SomeStep(c: Config, s: State)
    requires Inv(c, s) && s.consumer == Receiving && c.prefetch > 0 && c.buffer > 0
    ensures exists action :: action !in {FailA, FailB, Break} && Enabled(c, s, action)
  {
    if s.merged != [] {
      assert Enabled(c, s, Consume);
    } else if s.phase == Closed {
      assert Enabled(c, s, Finish);
    } else if s.phase == DrainA {
      if s.queueA != [] {
        assert Enabled(c, s, ForwardA);
      } else if s.a.ended {
        assert Enabled(c, s, SwitchToB);
      } else {
        assert Enabled(c, s, SendA) || Enabled(c, s, EndA);
      }
    } else {
      if s.queueB != [] {
        assert Enabled(c, s, ForwardB);
      } else if s.b.ended {
        assert Enabled(c, s, CloseMerge);
      } else {
        assert Enabled(c, s, SendB) || Enabled(c, s, EndB);
      }
    }
  }

  /** What is left to do. */
  function Left(c: Config, s: State): int {
    4 * (CountA(c) - s.a.sent) + 4 * (CountB(c) - s.b.sent)
    + 2 * |s.queueA| + 2 * |s.queueB| + |s.merged|
    + (if s.a.ended then 0 else 1) + (if s.b.ended then 0 else 1)
    + (match s.phase case DrainA => 2 case DrainB => 1 case Closed => 0)
    + (if s.consumer == Receiving then 1 else 0)
  }

  lemma {:induction false} StreamsOk(c: Config, s: State)
    requires Inv(c, s)
    ensures StreamOk(s.a, CountA(c)) && StreamOk(s.b, CountB(c))
  {
  }

  lemma {:induction false} StepCounts(c: Config, s: State, action: Action)
    requires StreamOk(s.a, CountA(c)) && StreamOk(s.b, CountB(c)) && Enabled(c, s, action)
    ensures 0 <= Left(c, Act(c, s, action)) < Left(c, s)
  {
  }

  /** Every run ends: each step leaves strictly less to do. */
  lemma {:induction false} EveryStepCounts(c: Config, s: State, action: Action)
    requires Inv(c, s) && Enabled(c, s, action)
    ensures 0 <= Left(c, Act(c, s, action)) < Left(c, s)
  {
    StreamsOk(c, s);
    StepCounts(c, s, action);
  }

  /** No run, however the threads interleave, is longer than the work at the start. */
  lemma {:induction false} RunsAreBounded(c: Config, actions: seq<Action>)
    requires Runs(c, actions)
    ensures |actions| + Left(c, After(c, actions)) <= Left(c, Start(c))
  {
    if actions != [] {
      var before := actions[..|actions| - 1];
      RunsAreBounded(c, before);
      RunKeeps(c, before);
      EveryStepCounts(c, After(c, before), actions[|actions| - 1]);
    }
  }
}
