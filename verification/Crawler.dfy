/** One breadth-first round of the peer crawler, with visits completing in any order. */
module Crawler {
  import opened Prelude

  type Addr = string

  datatype Discovered = Discovered(addr: Addr, lastSeen: int)

  datatype CrawlConfig = CrawlConfig(maxPeers: nat, concurrency: nat)

  /** What one visit yields: whether the handshake completed, and the gossip. A visit may
   * also panic. An address is visited at most once, so its outcome is a function of it. */
  datatype Network = Network(alive: Addr -> bool, gossip: Addr -> seq<Discovered>, panics: Addr -> bool)

  datatype StoredPeer = StoredPeer(available: bool, lastSeen: int)

  predicate Distinct(s: seq<Addr>) {
    forall i, j :: 0 <= i < j < |s| ==> s[i] != s[j]
  }

  predicate Gossips(net: Network, a: Addr, b: Addr) {
    exists d :: d in net.gossip(a) && d.addr == b
  }

  /** Contains the seed, and everything its members gossip. */
  ghost predicate Closed(net: Network, seed: Addr, t: iset<Addr>) {
    seed in t && forall a, b :: a in t && Gossips(net, a, b) ==> b in t
  }

  /** In the least closed set. */
  ghost predicate Reachable(net: Network, seed: Addr, a: Addr) {
    forall t: iset<Addr> :: Closed(net, seed, t) ==> a in t
  }

  lemma {:induction false} GossipReaches(net: Network, seed: Addr, a: Addr, b: Addr)
    requires Reachable(net, seed, a) && Gossips(net, a, b)
    ensures Reachable(net, seed, b)
  {
    forall t: iset<Addr> | Closed(net, seed, t) ensures b in t {
      assert a in t;
    }
  }

  // ---------------------------------------------------------------- the round

  datatype Round = Round(visited: map<Addr, int>, frontier: seq<Discovered>, tasks: map<Addr, Discovered>,
                         results: map<Addr, StoredPeer>)

  predicate InQueue(frontier: seq<Discovered>, a: Addr) {
    exists i :: 0 <= i < |frontier| && frontier[i].addr == a
  }

  predicate OnceEach(frontier: seq<Discovered>) {
    forall i, j :: 0 <= i < j < |frontier| ==> frontier[i].addr != frontier[j].addr
  }

  lemma {:induction false} PopFront(frontier: seq<Discovered>, a: Addr)
    requires frontier != []
    ensures InQueue(frontier, a) <==> a == frontier[0].addr || InQueue(frontier[1..], a)
    ensures OnceEach(frontier) ==> OnceEach(frontier[1..]) && !InQueue(frontier[1..], frontier[0].addr)
  {
    var rest := frontier[1..];
    assert forall i :: 0 <= i < |rest| ==> rest[i] == frontier[i + 1];
    if i :| 0 <= i < |frontier| && frontier[i].addr == a {
      assert i > 0 ==> rest[i - 1].addr == a;
    }
    if i :| 0 <= i < |rest| && rest[i].addr == a {
      assert frontier[i + 1].addr == a;
    }
  }

  lemma {:induction false} PushBack(frontier: seq<Discovered>, d: Discovered, a: Addr)
    ensures InQueue(frontier + [d], a) <==> InQueue(frontier, a) || a == d.addr
    ensures OnceEach(frontier) && !InQueue(frontier, d.addr) ==> OnceEach(frontier + [d])
  {
    var longer := frontier + [d];
    if i :| 0 <= i < |frontier| && frontier[i].addr == a {
      assert longer[i].addr == a;
    }
    assert longer[|frontier|].addr == d.addr;
  }

  function Limit(cfg: CrawlConfig): nat { if cfg.maxPeers > 1 then cfg.maxPeers else 1 }

  /** Every visited address waits, is in flight, has a result or has panicked, and only
   * one of these. */
  ghost predicate Placed(net: Network, r: Round) {
    && OnceEach(r.frontier)
    && (forall a :: InQueue(r.frontier, a) ==> a in r.visited && a !in r.tasks && a !in r.results)
    && (forall a :: a in r.tasks ==> a in r.visited && r.tasks[a].addr == a && a !in r.results)
    && (forall a :: a in r.results ==> a in r.visited && r.results[a].available == net.alive(a))
    && (forall a :: a in r.visited && !InQueue(r.frontier, a) && a !in r.tasks && a !in r.results ==> net.panics(a))
  }

  /** Everything a finished visit gossiped is visited. */
  ghost predicate GossipIn(net: Network, r: Round) {
    forall a, b :: a in r.results && Gossips(net, a, b) ==> b in r.visited
  }

  /** The cap is kept and nothing is visited that the seed does not lead to. */
  ghost predicate Bounded(cfg: CrawlConfig, net: Network, seed: Addr, visited: map<Addr, int>) {
    && seed in visited && |visited| <= Limit(cfg)
    && forall a :: a in visited ==> Reachable(net, seed, a)
  }

  /** What every moment of the round satisfies; below the cap no gossip is dropped. */
  ghost predicate RoundOk(cfg: CrawlConfig, net: Network, seed: Addr, r: Round) {
    Placed(net, r) && Bounded(cfg, net, seed, r.visited) && (|r.visited| < cfg.maxPeers ==> GossipIn(net, r))
  }

  /** From `r0` to `r` only newly visited addresses have joined the queue. */
  ghost predicate Queued(r0: Round, r: Round) {
    && r.tasks == r0.tasks && r.results == r0.results && r0.visited.Keys <= r.visited.Keys
    && |r.visited| - |r0.visited| == |r.frontier| - |r0.frontier| >= 0
    && forall a :: InQueue(r.frontier, a) <==> InQueue(r0.frontier, a) || (a in r.visited && a !in r0.visited)
  }

  /** Start one visit: the front of the queue leaves it. */
  method Spawn(r0: Round, ghost net: Network) returns (r: Round)
    requires Placed(net, r0) && r0.frontier != []
    ensures Placed(net, r)
    ensures r.visited == r0.visited && r.results == r0.results
    ensures r.frontier == r0.frontier[1..] && r0.frontier[0].addr !in r0.tasks
    ensures r.tasks == r0.tasks[r0.frontier[0].addr := r0.frontier[0]]
  {
    var cand := r0.frontier[0];
    r := r0.(frontier := r0.frontier[1..], tasks := r0.tasks[cand.addr := cand]);
    forall a ensures InQueue(r0.frontier, a) <==> a == cand.addr || InQueue(r.frontier, a) {
      PopFront(r0.frontier, a);
    }
    PopFront(r0.frontier, cand.addr);
  }

  /** One discovered address: its time is refreshed, and it is queued if new. */
  function Heard(r: Round, d: Discovered): Round {
    r.(visited := r.visited[d.addr := d.lastSeen],
       frontier := if d.addr in r.visited then r.frontier else r.frontier + [d])
  }

  /** All that a visit discovered, up to the cap. */
  function Absorbed(cfg: CrawlConfig, r: Round, discovered: seq<Discovered>): Round {
    if discovered == [] then r else
      var before := Absorbed(cfg, r, discovered[..|discovered| - 1]);
      if |before.visited| >= cfg.maxPeers then before else Heard(before, discovered[|discovered| - 1])
  }

  lemma {:induction false} AbsorbsNoMore(cfg: CrawlConfig, r: Round, discovered: seq<Discovered>, i: nat)
    requires i <= |discovered| && |Absorbed(cfg, r, discovered[..i]).visited| >= cfg.maxPeers
    ensures Absorbed(cfg, r, discovered) == Absorbed(cfg, r, discovered[..i])
  {
    if i < |discovered| {
      var before := discovered[..|discovered| - 1];
      assert before[..i] == discovered[..i];
      AbsorbsNoMore(cfg, r, before, i);
    } else {
      assert discovered[..i] == discovered;
    }
  }

  /** Queue what a visit discovered, unless the cap is reached. */
  method Queue(cfg: CrawlConfig, net: Network, seed: Addr, r0: Round, discovered: seq<Discovered>) returns (r: Round)
    requires Placed(net, r0) && Bounded(cfg, net, seed, r0.visited)
    requires forall d :: d in discovered ==> Reachable(net, seed, d.addr)
    ensures Placed(net, r) && Bounded(cfg, net, seed, r.visited) && Queued(r0, r)
    ensures |r.visited| < cfg.maxPeers ==> Known(r.visited, discovered)
    ensures r == Absorbed(cfg, r0, discovered)
  {
    r := r0;
    for i := 0 to |discovered|
      invariant r == Absorbed(cfg, r0, discovered[..i])
      invariant Placed(net, r) && Bounded(cfg, net, seed, r.visited) && Queued(r0, r)
      invariant |r.visited| < cfg.maxPeers ==> Known(r.visited, discovered[..i])
    {
      if |r.visited| >= cfg.maxPeers {
        AbsorbsNoMore(cfg, r0, discovered, i);
        return;
      }
      assert discovered[..i + 1][..i] == discovered[..i] && discovered[i] in discovered;
      ghost var before := r;
      r := Discover(r, discovered[i], net);
      QueuedOn(r0, before, r);
      BoundedOn(cfg, net, seed, before.visited, discovered[i].addr, r.visited);
      KnownOn(before.visited, discovered, i, r.visited);
    }
    assert discovered[..|discovered|] == discovered;
  }

  predicate Known(visited: map<Addr, int>, discovered: seq<Discovered>) {
    forall d :: d in discovered ==> d.addr in visited
  }

  lemma {:induction false} KnownOn(visited: map<Addr, int>, discovered: seq<Discovered>, i: nat,
                                   visited': map<Addr, int>)
    requires i < |discovered| && Known(visited, discovered[..i]) && visited'.Keys == visited.Keys + {discovered[i].addr}
    ensures Known(visited', discovered[..i + 1])
  {
    forall d | d in discovered[..i + 1] ensures d.addr in visited' {
      assert d in discovered[..i] || d == discovered[i];
      assert d.addr in visited'.Keys;
    }
  }

  lemma {:induction false} BoundedOn(cfg: CrawlConfig, net: Network, seed: Addr, visited: map<Addr, int>, a: Addr,
                                     visited': map<Addr, int>)
    requires Bounded(cfg, net, seed, visited) && Reachable(net, seed, a) && |visited| < cfg.maxPeers
    requires visited'.Keys == visited.Keys + {a} && |visited'| <= |visited| + 1
    ensures Bounded(cfg, net, seed, visited')
  {
    forall b | b in visited' ensures Reachable(net, seed, b) {
      assert b in visited'.Keys;
    }
  }

  lemma {:induction false} QueuedOn(r0: Round, r1: Round, r2: Round)
    requires Queued(r0, r1) && Queued(r1, r2)
    ensures Queued(r0, r2)
  {
  }

  /** visited.insert(..).is_none(): a known address only has its time refreshed. */
  method Discover(r0: Round, d: Discovered, ghost net: Network) returns (r: Round)
    requires Placed(net, r0)
    ensures r == Heard(r0, d) && Placed(net, r)
    ensures Queued(r0, r) && r.visited.Keys == r0.visited.Keys + {d.addr}
    ensures |r.visited| == |r0.visited| + (if d.addr in r0.visited then 0 else 1)
  {
    var known := d.addr in r0.visited;
    r := r0.(visited := r0.visited[d.addr := d.lastSeen]);
    Cardinality(r0.visited, d.addr, d.lastSeen);
    if !known {
      r := r.(frontier := r.frontier + [d]);
      forall a ensures InQueue(r.frontier, a) <==> InQueue(r0.frontier, a) || a == d.addr {
        PushBack(r0.frontier, d, a);
      }
      PushBack(r0.frontier, d, d.addr);
    }
  }

  lemma {:induction false} Cardinality(m: map<Addr, int>, a: Addr, x: int)
    ensures |m[a := x]| == |m| + (if a in m then 0 else 1)
    ensures m[a := x].Keys == m.Keys + {a}
  {
    assert m[a := x].Keys == m.Keys + {a};
    assert |m[a := x]| == |m[a := x].Keys| && |m| == |m.Keys|;
  }

  lemma {:induction false} AllReachable(net: Network, seed: Addr, a: Addr)
    requires Reachable(net, seed, a)
    ensures forall d :: d in net.gossip(a) ==> Reachable(net, seed, d.addr)
  {
    forall d | d in net.gossip(a) ensures Reachable(net, seed, d.addr) {
      assert Gossips(net, a, d.addr);
      GossipReaches(net, seed, a, d.addr);
    }
  }

  lemma {:induction false} GossipKept(net: Network, r0: Round, a: Addr, r: Round)
    requires GossipIn(net, r0) && Known(r.visited, net.gossip(a)) && r0.visited.Keys <= r.visited.Keys
    requires r.results.Keys == r0.results.Keys + {a}
    ensures GossipIn(net, r)
  {
    forall b, c | b in r.results && Gossips(net, b, c) ensures c in r.visited {
      if b != a {
        assert b in r.results.Keys && b in r0.results && c in r0.visited.Keys;
      }
    }
  }

  /** The round once the visit of `a` has come back. */
  function Returned(cfg: CrawlConfig, net: Network, r: Round, a: Addr): Round
    requires a in r.tasks
  {
    var joined := r.(tasks := r.tasks - {a});
    if net.panics(a) then joined else
      Absorbed(cfg, joined.(results := r.results[a := StoredPeer(net.alive(a), r.tasks[a].lastSeen)]), net.gossip(a))
  }

  /** One visit comes back, whichever it is: its result is kept and its gossip queued. A
   * panicked one leaves nothing. */
  method Complete(cfg: CrawlConfig, net: Network, seed: Addr, r0: Round, a: Addr) returns (r: Round)
    requires RoundOk(cfg, net, seed, r0) && a in r0.tasks
    ensures RoundOk(cfg, net, seed, r)
    ensures r == Returned(cfg, net, r0, a)
    ensures r.tasks == r0.tasks - {a}
    ensures |r.visited| - |r0.visited| == |r.frontier| - |r0.frontier| >= 0
    ensures forall b :: InQueue(r.frontier, b) <==> InQueue(r0.frontier, b) || (b in r.visited && b !in r0.visited)
    ensures r0.visited.Keys <= r.visited.Keys
  {
    var cand := r0.tasks[a];
    var joined := r0.(tasks := r0.tasks - {a});
    if net.panics(a) {
      return joined;
    }
    var done := joined.(results := joined.results[a := StoredPeer(net.alive(a), cand.lastSeen)]);
    AllReachable(net, seed, a);
    r := Queue(cfg, net, seed, done, net.gossip(a));
    if |r.visited| < cfg.maxPeers {
      GossipKept(net, r0, a, r);
    }
  }

  /** What was scheduled so far: each address once, and all that no longer waits. */
  ghost predicate Scheduled(r: Round, scheduled: seq<Addr>) {
    Distinct(scheduled) && forall a :: a in scheduled <==> a in r.visited && !InQueue(r.frontier, a)
  }

  lemma {:induction false} ScheduledMore(r0: Round, scheduled: seq<Addr>, r: Round, a: Addr, net: Network)
    requires Placed(net, r0) && Scheduled(r0, scheduled) && r0.frontier != [] && a == r0.frontier[0].addr
    requires r.visited == r0.visited && r.frontier == r0.frontier[1..]
    ensures Scheduled(r, scheduled + [a])
  {
    assert InQueue(r0.frontier, a);
    forall b ensures b in scheduled + [a] <==> b in r.visited && !InQueue(r.frontier, b) {
      PopFront(r0.frontier, b);
      PopFront(r0.frontier, a);
    }
  }

  /** How many visits may be in flight. */
  function Width(cfg: CrawlConfig): (n: nat)
    ensures n >= 1 && n >= cfg.concurrency && (n == 1 || n == cfg.concurrency)
  {
    if cfg.concurrency > 1 then cfg.concurrency else 1
  }

  function Addrs(found: seq<Discovered>): (r: seq<Addr>)
    ensures |r| == |found| && forall i :: 0 <= i < |r| ==> r[i] == found[i].addr
  {
    seq(|found|, i requires 0 <= i < |found| => found[i].addr)
  }

  function Taking(tasks: map<Addr, Discovered>, found: seq<Discovered>): map<Addr, Discovered> {
    if found == [] then tasks else
      var last := found[|found| - 1];
      Taking(tasks, found[..|found| - 1])[last.addr := last]
  }

  /** The round once the first `n` of the queue were started. */
  function Started(r: Round, n: nat): Round
    requires n <= |r.frontier|
  {
    r.(frontier := r.frontier[n..], tasks := Taking(r.tasks, r.frontier[..n]))
  }

  /** The visits started since `r0` are the front of its queue, in its order. */
  ghost predicate FromFront(r0: Round, r: Round, scheduled0: seq<Addr>, scheduled: seq<Addr>) {
    var n := |r0.frontier| - |r.frontier|;
    0 <= n && r == Started(r0, n) && scheduled == scheduled0 + Addrs(r0.frontier[..n])
  }

  lemma {:induction false} StartedMore(r0: Round, mid: Round, r: Round, scheduled0: seq<Addr>, scheduled: seq<Addr>)
    requires FromFront(r0, mid, scheduled0, scheduled) && mid.frontier != [] && mid.frontier[0].addr !in mid.tasks
    requires r == mid.(frontier := mid.frontier[1..], tasks := mid.tasks[mid.frontier[0].addr := mid.frontier[0]])
    ensures FromFront(r0, r, scheduled0, scheduled + [mid.frontier[0].addr]) && |r.tasks| == |mid.tasks| + 1
  {
    var n := |r0.frontier| - |mid.frontier|;
    assert r0.frontier[..n + 1][..n] == r0.frontier[..n];
    assert mid.frontier[0] == r0.frontier[n] && mid.frontier[1..] == r0.frontier[n + 1..];
    assert Addrs(r0.frontier[..n + 1]) == Addrs(r0.frontier[..n]) + [mid.frontier[0].addr];
    TaskAdded(mid.tasks, mid.frontier[0].addr, mid.frontier[0]);
  }

  lemma {:induction false} StartedNone(r: Round, scheduled: seq<Addr>)
    ensures FromFront(r, r, scheduled, scheduled)
  {
    assert r.frontier[0..] == r.frontier && r.frontier[..0] == [];
  }

  /** Top up the visits in flight, from the front of the queue. `late` is whether the deadline
   * has passed, asked for the clock-th time. */
  method TopUp(cfg: CrawlConfig, net: Network, seed: Addr, r0: Round, late: nat -> bool, clock0: nat,
               ghost scheduled0: seq<Addr>)
    returns (r: Round, clock: nat, ghost scheduled: seq<Addr>)
    requires RoundOk(cfg, net, seed, r0) && Scheduled(r0, scheduled0)
    ensures RoundOk(cfg, net, seed, r) && Scheduled(r, scheduled)
    ensures FromFront(r0, r, scheduled0, scheduled)
    ensures r.visited == r0.visited && |r.frontier| + |r.tasks| == |r0.frontier| + |r0.tasks|
    ensures |r0.tasks| <= Width(cfg) ==> |r.tasks| <= Width(cfg)
    ensures |r.tasks| >= Width(cfg) || r.frontier == [] || late(clock) || |r.visited| >= cfg.maxPeers
  {
    r, clock, scheduled := r0, clock0, scheduled0;
    StartedNone(r0, scheduled0);
    while |r.tasks| < Width(cfg) && !late(clock) && |r.visited| < cfg.maxPeers
      invariant RoundOk(cfg, net, seed, r) && Scheduled(r, scheduled)
      invariant FromFront(r0, r, scheduled0, scheduled)
      invariant r.visited == r0.visited && |r.frontier| + |r.tasks| == |r0.frontier| + |r0.tasks|
      invariant |r0.tasks| <= Width(cfg) ==> |r.tasks| <= Width(cfg)
      decreases |r.frontier|
    {
      clock := clock + 1;
      if r.frontier == [] {
        return;
      }
      ghost var before := r;
      r := Spawn(r, net);
      StartedMore(r0, before, r, scheduled0, scheduled);
      ScheduledMore(before, scheduled, r, before.frontier[0].addr, net);
      scheduled := scheduled + [before.frontier[0].addr];
    }
  }

  lemma {:induction false} TaskAdded(m: map<Addr, Discovered>, a: Addr, d: Discovered)
    requires a !in m
    ensures |m[a := d]| == |m| + 1
  {
    assert m[a := d].Keys == m.Keys + {a};
    assert |m[a := d]| == |m[a := d].Keys| && |m| == |m.Keys|;
  }

  lemma {:induction false} TaskTaken(m: map<Addr, Discovered>, a: Addr)
    requires a in m
    ensures |m - {a}| == |m| - 1
  {
    assert (m - {a}).Keys == m.Keys - {a};
    assert |m - {a}| == |(m - {a}).Keys| && |m| == |m.Keys|;
  }

  lemma {:induction false} ScheduledStill(r0: Round, scheduled: seq<Addr>, r: Round)
    requires Scheduled(r0, scheduled) && r0.visited.Keys <= r.visited.Keys
    requires forall b :: InQueue(r.frontier, b) <==> InQueue(r0.frontier, b) || (b in r.visited && b !in r0.visited)
    ensures Scheduled(r, scheduled)
  {
    forall a ensures a in scheduled <==> a in r.visited && !InQueue(r.frontier, a) {
      assert a in r0.visited ==> a in r.visited.Keys;
    }
  }

  // --------------------------------------------------------------- what was heard

  function AddrsIn(heard: seq<Discovered>): set<Addr> {
    set i | 0 <= i < |heard| :: heard[i].addr
  }

  /** The time it came with when it was first heard of, which is when it was queued. */
  ghost predicate FirstHeard(heard: seq<Discovered>, a: Addr, time: int) {
    exists i :: 0 <= i < |heard| && heard[i] == Discovered(a, time) && forall j :: 0 <= j < i ==> heard[j].addr != a
  }

  ghost predicate LastHeard(heard: seq<Discovered>, a: Addr, time: int) {
    exists i :: 0 <= i < |heard| && heard[i] == Discovered(a, time)
                && forall j :: i < j < |heard| ==> heard[j].addr != a
  }

  /** All that the finished visits gossiped, in the order they came back. */
  function Gossiped(net: Network, finished: seq<Addr>): seq<Discovered> {
    if finished == [] then [] else
      Gossiped(net, finished[..|finished| - 1]) + net.gossip(finished[|finished| - 1])
  }

  /** Of all that was told, the part up to where the cap was met: the seed in any case. */
  ghost predicate UpToCap(cfg: CrawlConfig, heard: seq<Discovered>, told: seq<Discovered>) {
    && heard != [] && heard <= told
    && (heard == told || |AddrsIn(heard)| >= cfg.maxPeers)
    && forall n :: 1 <= n < |heard| ==> |AddrsIn(heard[..n])| < cfg.maxPeers
  }

  ghost predicate VisitedBy(visited: map<Addr, int>, heard: seq<Discovered>) {
    && visited.Keys == AddrsIn(heard) && |visited| == |AddrsIn(heard)|
    && forall a :: a in visited ==> LastHeard(heard, a, visited[a])
  }

  ghost predicate QueuedBy(frontier: seq<Discovered>, heard: seq<Discovered>) {
    forall d :: d in frontier ==> FirstHeard(heard, d.addr, d.lastSeen)
  }

  ghost predicate TasksBy(tasks: map<Addr, Discovered>, heard: seq<Discovered>) {
    forall a :: a in tasks ==> FirstHeard(heard, a, tasks[a].lastSeen)
  }

  ghost predicate ResultsBy(net: Network, results: map<Addr, StoredPeer>, heard: seq<Discovered>) {
    forall a :: a in results ==> results[a].available == net.alive(a) && FirstHeard(heard, a, results[a].lastSeen)
  }

  /** The round's times and results, by what was heard. */
  ghost predicate Recorded(net: Network, r: Round, heard: seq<Discovered>) {
    VisitedBy(r.visited, heard) && QueuedBy(r.frontier, heard) && TasksBy(r.tasks, heard)
      && ResultsBy(net, r.results, heard)
  }

  /** The visits that came back and did not panic. */
  ghost predicate Finished(net: Network, results: map<Addr, StoredPeer>, finished: seq<Addr>) {
    && Distinct(finished) && (forall a :: a in finished <==> a in results)
    && forall a :: a in finished ==> !net.panics(a)
  }

  function HeardOne(cfg: CrawlConfig, heard: seq<Discovered>, d: Discovered): seq<Discovered> {
    if |AddrsIn(heard)| >= cfg.maxPeers then heard else heard + [d]
  }

  function HeardAll(cfg: CrawlConfig, heard: seq<Discovered>, discovered: seq<Discovered>): seq<Discovered> {
    if discovered == [] then heard else
      HeardOne(cfg, HeardAll(cfg, heard, discovered[..|discovered| - 1]), discovered[|discovered| - 1])
  }

  lemma {:induction false} AddrsMore(heard: seq<Discovered>, d: Discovered)
    ensures AddrsIn(heard + [d]) == AddrsIn(heard) + {d.addr}
  {
    var longer := heard + [d];
    assert longer[|heard|] == d;
    assert forall i :: 0 <= i < |heard| ==> longer[i] == heard[i];
    forall a | a in AddrsIn(heard) ensures a in AddrsIn(longer) {
      var i :| 0 <= i < |heard| && heard[i].addr == a;
      assert longer[i].addr == a;
    }
  }

  lemma {:induction false} FirstStays(heard: seq<Discovered>, d: Discovered, a: Addr, time: int)
    requires FirstHeard(heard, a, time)
    ensures FirstHeard(heard + [d], a, time)
  {
    var i :| 0 <= i < |heard| && heard[i] == Discovered(a, time) && forall j :: 0 <= j < i ==> heard[j].addr != a;
    assert (heard + [d])[i] == Discovered(a, time);
  }

  lemma {:induction false} LastMoves(heard: seq<Discovered>, d: Discovered, a: Addr, time: int)
    requires LastHeard(heard, a, time) && a != d.addr
    ensures LastHeard(heard + [d], a, time)
  {
    var i :| 0 <= i < |heard| && heard[i] == Discovered(a, time) && forall j :: i < j < |heard| ==> heard[j].addr != a;
    assert (heard + [d])[i] == Discovered(a, time);
  }

  lemma {:induction false} NowHeard(heard: seq<Discovered>, d: Discovered)
    ensures LastHeard(heard + [d], d.addr, d.lastSeen)
    ensures d.addr !in AddrsIn(heard) ==> FirstHeard(heard + [d], d.addr, d.lastSeen)
  {
    assert (heard + [d])[|heard|] == Discovered(d.addr, d.lastSeen);
    assert d.addr !in AddrsIn(heard) ==> forall j :: 0 <= j < |heard| ==> heard[j].addr in AddrsIn(heard);
  }

  lemma {:induction false} VisitedMore(visited: map<Addr, int>, heard: seq<Discovered>, d: Discovered)
    requires VisitedBy(visited, heard)
    ensures VisitedBy(visited[d.addr := d.lastSeen], heard + [d])
  {
    var visited' := visited[d.addr := d.lastSeen];
    AddrsMore(heard, d);
    NowHeard(heard, d);
    Cardinality(visited, d.addr, d.lastSeen);
    assert |AddrsIn(heard) + {d.addr}| == |AddrsIn(heard)| + if d.addr in visited.Keys then 0 else 1 by {
      assert d.addr in visited.Keys ==> AddrsIn(heard) + {d.addr} == AddrsIn(heard);
    }
    forall a | a in visited' ensures LastHeard(heard + [d], a, visited'[a]) {
      if a != d.addr {
        LastMoves(heard, d, a, visited[a]);
      }
    }
  }

  lemma {:induction false} QueuedMore(visited: map<Addr, int>, frontier: seq<Discovered>, heard: seq<Discovered>,
                                      d: Discovered)
    requires QueuedBy(frontier, heard) && visited.Keys == AddrsIn(heard)
    ensures QueuedBy(if d.addr in visited then frontier else frontier + [d], heard + [d])
  {
    NowHeard(heard, d);
    assert d.addr in visited <==> d.addr in visited.Keys;
    forall x | x in frontier ensures FirstHeard(heard + [d], x.addr, x.lastSeen) {
      FirstStays(heard, d, x.addr, x.lastSeen);
    }
  }

  lemma {:induction false} TasksStay(tasks: map<Addr, Discovered>, heard: seq<Discovered>, d: Discovered)
    requires TasksBy(tasks, heard)
    ensures TasksBy(tasks, heard + [d])
  {
    forall a | a in tasks ensures FirstHeard(heard + [d], a, tasks[a].lastSeen) {
      FirstStays(heard, d, a, tasks[a].lastSeen);
    }
  }

  lemma {:induction false} ResultsStay(net: Network, results: map<Addr, StoredPeer>, heard: seq<Discovered>,
                                       d: Discovered)
    requires ResultsBy(net, results, heard)
    ensures ResultsBy(net, results, heard + [d])
  {
    forall a | a in results ensures FirstHeard(heard + [d], a, results[a].lastSeen) {
      FirstStays(heard, d, a, results[a].lastSeen);
    }
  }

  lemma {:induction false} HeardRecorded(net: Network, r: Round, heard: seq<Discovered>, d: Discovered, r': Round)
    requires Recorded(net, r, heard) && r' == Heard(r, d)
    ensures Recorded(net, r', heard + [d])
  {
    VisitedMore(r.visited, heard, d);
    QueuedMore(r.visited, r.frontier, heard, d);
    TasksStay(r.tasks, heard, d);
    ResultsStay(net, r.results, heard, d);
  }

  lemma {:induction false} AbsorbedRecorded(cfg: CrawlConfig, net: Network, r: Round, heard: seq<Discovered>,
                                            discovered: seq<Discovered>)
    requires Recorded(net, r, heard)
    ensures Recorded(net, Absorbed(cfg, r, discovered), HeardAll(cfg, heard, discovered))
    ensures Absorbed(cfg, r, discovered).results == r.results
  {
    if discovered != [] {
      var before, d := discovered[..|discovered| - 1], discovered[|discovered| - 1];
      AbsorbedRecorded(cfg, net, r, heard, before);
      var r1, heard1 := Absorbed(cfg, r, before), HeardAll(cfg, heard, before);
      if |AddrsIn(heard1)| < cfg.maxPeers {
        HeardRecorded(net, r1, heard1, d, Heard(r1, d));
      }
    }
  }

  lemma {:induction false} HeardOneUpToCap(cfg: CrawlConfig, heard: seq<Discovered>, told: seq<Discovered>,
                                           d: Discovered)
    requires UpToCap(cfg, heard, told)
    ensures UpToCap(cfg, HeardOne(cfg, heard, d), told + [d])
  {
    if |AddrsIn(heard)| < cfg.maxPeers {
      var longer := heard + [d];
      forall n | 1 <= n < |longer| ensures |AddrsIn(longer[..n])| < cfg.maxPeers {
        assert longer[..n] == heard[..n];
        assert heard[..|heard|] == heard;
      }
    }
  }

  lemma {:induction false} HeardAllUpToCap(cfg: CrawlConfig, heard: seq<Discovered>, told: seq<Discovered>,
                                           discovered: seq<Discovered>)
    requires UpToCap(cfg, heard, told)
    ensures UpToCap(cfg, HeardAll(cfg, heard, discovered), told + discovered)
  {
    if discovered == [] {
      assert told + [] == told;
    } else {
      var before, d := discovered[..|discovered| - 1], discovered[|discovered| - 1];
      HeardAllUpToCap(cfg, heard, told, before);
      HeardOneUpToCap(cfg, HeardAll(cfg, heard, before), told + before, d);
      assert told + discovered == told + before + [d];
    }
  }

  /** What the round has to show for the visits that came back. */
  ghost predicate Told(cfg: CrawlConfig, net: Network, seed: Discovered, r: Round, heard: seq<Discovered>,
                       finished: seq<Addr>) {
    && Recorded(net, r, heard) && Finished(net, r.results, finished)
    && UpToCap(cfg, heard, [seed] + Gossiped(net, finished))
  }

  lemma {:induction false} FinishedMore(net: Network, results: map<Addr, StoredPeer>, finished: seq<Addr>, a: Addr,
                                        p: StoredPeer)
    requires Finished(net, results, finished) && a !in results && !net.panics(a)
    ensures Finished(net, results[a := p], finished + [a])
  {
    forall b ensures b in finished + [a] <==> b in results[a := p] {
      assert b in finished + [a] <==> b in finished || b == a;
    }
  }

  lemma {:induction false} GossipedMore(net: Network, finished: seq<Addr>, a: Addr)
    ensures Gossiped(net, finished + [a]) == Gossiped(net, finished) + net.gossip(a)
  {
    assert (finished + [a])[..|finished + [a]| - 1] == finished;
  }

  lemma {:induction false} ResultRecorded(net: Network, r: Round, heard: seq<Discovered>, a: Addr, r': Round)
    requires Recorded(net, r, heard) && a in r.tasks
    requires r' == r.(tasks := r.tasks - {a}, results := r.results[a := StoredPeer(net.alive(a), r.tasks[a].lastSeen)])
    ensures Recorded(net, r', heard)
  {
    assert TasksBy(r'.tasks, heard);
    assert ResultsBy(net, r'.results, heard);
  }

  lemma {:induction false} CapAfterGossip(cfg: CrawlConfig, net: Network, seed: Discovered, heard: seq<Discovered>,
                                          finished: seq<Addr>, a: Addr)
    requires UpToCap(cfg, heard, [seed] + Gossiped(net, finished))
    ensures UpToCap(cfg, HeardAll(cfg, heard, net.gossip(a)), [seed] + Gossiped(net, finished + [a]))
  {
    HeardAllUpToCap(cfg, heard, [seed] + Gossiped(net, finished), net.gossip(a));
    GossipedMore(net, finished, a);
    assert [seed] + (Gossiped(net, finished) + net.gossip(a)) == [seed] + Gossiped(net, finished) + net.gossip(a);
  }

  /** A visit that comes back adds itself and its gossip. */
  lemma {:induction false} CameBack(cfg: CrawlConfig, net: Network, seed: Discovered, r: Round, heard: seq<Discovered>,
                                    finished: seq<Addr>, a: Addr, joined: Round)
    requires Told(cfg, net, seed, r, heard, finished) && a in r.tasks && a !in r.results && !net.panics(a)
    requires joined == r.(tasks := r.tasks - {a},
                          results := r.results[a := StoredPeer(net.alive(a), r.tasks[a].lastSeen)])
    ensures Told(cfg, net, seed, Absorbed(cfg, joined, net.gossip(a)), HeardAll(cfg, heard, net.gossip(a)),
                 finished + [a])
  {
    FinishedMore(net, r.results, finished, a, StoredPeer(net.alive(a), r.tasks[a].lastSeen));
    ResultRecorded(net, r, heard, a, joined);
    AbsorbedRecorded(cfg, net, joined, heard, net.gossip(a));
    CapAfterGossip(cfg, net, seed, heard, finished, a);
  }

  lemma {:induction false} Panicked(cfg: CrawlConfig, net: Network, seed: Discovered, r: Round, heard: seq<Discovered>,
                                    finished: seq<Addr>, a: Addr)
    requires Told(cfg, net, seed, r, heard, finished) && a in r.tasks
    ensures Told(cfg, net, seed, r.(tasks := r.tasks - {a}), heard, finished)
  {
    assert TasksBy(r.tasks - {a}, heard);
  }

  lemma {:induction false} ReturnedTold(cfg: CrawlConfig, net: Network, seed: Discovered, r: Round,
                                        heard: seq<Discovered>, finished: seq<Addr>, a: Addr)
    returns (heard': seq<Discovered>, finished': seq<Addr>)
    requires Told(cfg, net, seed, r, heard, finished) && a in r.tasks && a !in r.results
    ensures Told(cfg, net, seed, Returned(cfg, net, r, a), heard', finished')
  {
    if net.panics(a) {
      heard', finished' := heard, finished;
      Panicked(cfg, net, seed, r, heard, finished, a);
    } else {
      heard', finished' := HeardAll(cfg, heard, net.gossip(a)), finished + [a];
      var joined := r.(tasks := r.tasks - {a},
                       results := r.results[a := StoredPeer(net.alive(a), r.tasks[a].lastSeen)]);
      CameBack(cfg, net, seed, r, heard, finished, a, joined);
    }
  }

  lemma {:induction false} TakingBy(tasks: map<Addr, Discovered>, found: seq<Discovered>, heard: seq<Discovered>)
    requires TasksBy(tasks, heard) && QueuedBy(found, heard)
    ensures TasksBy(Taking(tasks, found), heard)
  {
    if found != [] {
      var before, last := found[..|found| - 1], found[|found| - 1];
      assert forall d :: d in before ==> d in found;
      TakingBy(tasks, before, heard);
      assert last in found;
    }
  }

  lemma {:induction false} StartedTold(cfg: CrawlConfig, net: Network, seed: Discovered, r: Round, n: nat,
                                       heard: seq<Discovered>, finished: seq<Addr>)
    requires Told(cfg, net, seed, r, heard, finished) && n <= |r.frontier|
    ensures Told(cfg, net, seed, Started(r, n), heard, finished)
  {
    assert forall d :: d in r.frontier[..n] ==> d in r.frontier;
    assert forall d :: d in r.frontier[n..] ==> d in r.frontier;
    TakingBy(r.tasks, r.frontier[..n], heard);
    assert QueuedBy(r.frontier[n..], heard);
  }

  lemma {:induction false} StartTold(cfg: CrawlConfig, net: Network, seed: Discovered, r: Round)
    requires r == Round(map[seed.addr := seed.lastSeen], [seed], map[], map[])
    ensures Told(cfg, net, seed, r, [seed], [])
  {
    var heard := [seed];
    assert heard[0] == Discovered(seed.addr, seed.lastSeen) && FirstHeard(heard, seed.addr, seed.lastSeen);
    assert LastHeard(heard, seed.addr, seed.lastSeen);
    assert AddrsIn(heard) == {seed.addr} && r.visited.Keys == {seed.addr} && |r.visited| == |r.visited.Keys|;
    assert heard + Gossiped(net, []) == heard;
  }

  // -------------------------------------------------------------------- the round

  /** Why a round ends: nothing waits, the deadline has passed, or the cap is reached. */
  ghost predicate Ended(cfg: CrawlConfig, r: Round, late: nat -> bool) {
    r.tasks == map[] && (r.frontier == [] || (exists i :: late(i)) || |r.visited| >= cfg.maxPeers)
  }

  ghost predicate Going(cfg: CrawlConfig, net: Network, seed: Discovered, r: Round, scheduled: seq<Addr>,
                        finished: seq<Addr>, heard: seq<Discovered>) {
    && RoundOk(cfg, net, seed.addr, r) && Scheduled(r, scheduled) && |r.tasks| <= Width(cfg)
    && Told(cfg, net, seed, r, heard, finished)
  }

  /** What is left to do: an address waits and is then in flight. */
  function Work(cfg: CrawlConfig, r: Round): int {
    2 * (Limit(cfg) - |r.visited|) + |r.frontier| + |r.tasks|
  }

  /** Only the seed waits. */
  method Begin(cfg: CrawlConfig, net: Network, seed: Discovered)
    returns (r: Round, ghost scheduled: seq<Addr>, ghost finished: seq<Addr>, ghost heard: seq<Discovered>)
    ensures Going(cfg, net, seed, r, scheduled, finished, heard)
  {
    r := Round(map[seed.addr := seed.lastSeen], [seed], map[], map[]);
    scheduled, finished, heard := [], [], [seed];
    StartOk(cfg, net, seed, r);
    StartTold(cfg, net, seed, r);
  }

  lemma {:induction false} StillGoing(cfg: CrawlConfig, net: Network, seed: Discovered, r0: Round, r: Round,
                                      scheduled0: seq<Addr>, scheduled: seq<Addr>, finished: seq<Addr>,
                                      heard: seq<Discovered>)
    requires Told(cfg, net, seed, r0, heard, finished) && FromFront(r0, r, scheduled0, scheduled)
    requires RoundOk(cfg, net, seed.addr, r) && Scheduled(r, scheduled) && |r.tasks| <= Width(cfg)
    ensures Going(cfg, net, seed, r, scheduled, finished, heard)
  {
    StartedTold(cfg, net, seed, r0, |r0.frontier| - |r.frontier|, heard, finished);
  }

  lemma {:induction false} SameWork(cfg: CrawlConfig, r0: Round, r: Round)
    requires r.visited == r0.visited && |r.frontier| + |r.tasks| == |r0.frontier| + |r0.tasks|
    ensures Work(cfg, r) == Work(cfg, r0)
  {
  }

  /** Start visits while there is room. */
  method FillUp(cfg: CrawlConfig, net: Network, seed: Discovered, r0: Round, late: nat -> bool, clock0: nat,
                ghost scheduled0: seq<Addr>, ghost finished: seq<Addr>, ghost heard: seq<Discovered>)
    returns (r: Round, clock: nat, ghost scheduled: seq<Addr>)
    requires Going(cfg, net, seed, r0, scheduled0, finished, heard)
    ensures Going(cfg, net, seed, r, scheduled, finished, heard) && Work(cfg, r) == Work(cfg, r0)
    ensures r.tasks == map[] ==> Ended(cfg, r, late)
  {
    r, clock, scheduled := TopUp(cfg, net, seed.addr, r0, late, clock0, scheduled0);
    StillGoing(cfg, net, seed, r0, r, scheduled0, scheduled, finished, heard);
    SameWork(cfg, r0, r);
  }

  /** Take in one visit. */
  method TakeIn(cfg: CrawlConfig, net: Network, seed: Discovered, r0: Round, a: Addr, ghost scheduled: seq<Addr>,
                ghost finished0: seq<Addr>, ghost heard0: seq<Discovered>)
    returns (r: Round, ghost finished: seq<Addr>, ghost heard: seq<Discovered>)
    requires Going(cfg, net, seed, r0, scheduled, finished0, heard0) && a in r0.tasks
    ensures Going(cfg, net, seed, r, scheduled, finished, heard) && 0 <= Work(cfg, r) < Work(cfg, r0)
  {
    TaskTaken(r0.tasks, a);
    heard, finished := ReturnedTold(cfg, net, seed, r0, heard0, finished0, a);
    r := Complete(cfg, net, seed.addr, r0, a);
    ScheduledStill(r0, scheduled, r);
  }

  /** One turn of the loop: start visits, then take one in, whichever comes back first. */
  method Turn(cfg: CrawlConfig, net: Network, seed: Discovered, r0: Round, late: nat -> bool, clock0: nat,
              ghost scheduled0: seq<Addr>, ghost finished0: seq<Addr>, ghost heard0: seq<Discovered>)
    returns (r: Round, clock: nat, done: bool, ghost scheduled: seq<Addr>, ghost finished: seq<Addr>,
             ghost heard: seq<Discovered>)
    requires Going(cfg, net, seed, r0, scheduled0, finished0, heard0)
    ensures Going(cfg, net, seed, r, scheduled, finished, heard)
    ensures if done then Ended(cfg, r, late) else 0 <= Work(cfg, r) < Work(cfg, r0)
  {
    finished, heard := finished0, heard0;
    r, clock, scheduled := FillUp(cfg, net, seed, r0, late, clock0, scheduled0, finished, heard);
    // With nothing in flight the top-up stopped for an empty frontier, the deadline or the
    // cap, so the loop ends: its other branch there cannot be taken.
    done := r.tasks == map[];
    if !done {
      var a :| a in r.tasks;
      r, finished, heard := TakeIn(cfg, net, seed, r, a, scheduled, finished, heard);
    }
  }

  /** The loop, whatever order visits complete in. */
  method Crawl(cfg: CrawlConfig, net: Network, seed: Discovered, late: nat -> bool)
    returns (r: Round, ghost scheduled: seq<Addr>, ghost finished: seq<Addr>, ghost heard: seq<Discovered>)
    ensures Going(cfg, net, seed, r, scheduled, finished, heard) && Ended(cfg, r, late)
  {
    var clock, done := 0, false;
    r, scheduled, finished, heard := Begin(cfg, net, seed);
    while !done
      invariant Going(cfg, net, seed, r, scheduled, finished, heard)
      invariant done ==> Ended(cfg, r, late)
      decreases !done, Work(cfg, r)
    {
      r, clock, done, scheduled, finished, heard :=
        Turn(cfg, net, seed, r, late, clock, scheduled, finished, heard);
    }
  }

  /** No deadline, no panic among the visited, and the cap was not reached. */
  ghost predicate Unlimited(cfg: CrawlConfig, net: Network, visited: set<Addr>, late: nat -> bool) {
    |visited| < cfg.maxPeers && (forall i :: !late(i)) && forall a :: a in visited ==> !net.panics(a)
  }

  /** What a round stores: exactly what was heard of, available exactly if its visit came back
   * and the peer answered, with the time it was queued with, or last heard with if no visit of
   * it came back. */
  ghost predicate StoresHeard(net: Network, stored: map<Addr, StoredPeer>, scheduled: seq<Addr>, finished: seq<Addr>,
                              heard: seq<Discovered>) {
    && stored.Keys == AddrsIn(heard)
    && (forall a :: a in finished <==> a in scheduled && !net.panics(a))
    && (forall a :: a in stored ==> stored[a].available == (a in scheduled && !net.panics(a) && net.alive(a)))
    && (forall a :: a in stored ==>
          if a in scheduled && !net.panics(a) then FirstHeard(heard, a, stored[a].lastSeen)
          else LastHeard(heard, a, stored[a].lastSeen))
  }

  /** `crawl_round`, whatever order visits complete in: no address is scheduled twice, what
   * is stored is exactly what was heard of up to the cap, at most max(1, max_peers) addresses,
   * all of them in the least closed set, available exactly if visited and alive; without limits
   * it is that set, every address probed. */
  method CrawlRound(cfg: CrawlConfig, net: Network, seed: Discovered, late: nat -> bool)
    returns (stored: map<Addr, StoredPeer>, ghost scheduled: seq<Addr>, ghost finished: seq<Addr>,
             ghost heard: seq<Discovered>)
    requires forall i, j :: 0 <= i <= j && late(i) ==> late(j)
    ensures Distinct(scheduled) && forall a :: a in scheduled ==> a in stored
    ensures seed.addr in stored && (|stored| <= cfg.maxPeers || |stored| == 1)
    ensures forall a :: a in stored ==> Reachable(net, seed.addr, a)
    ensures Distinct(finished) && UpToCap(cfg, heard, [seed] + Gossiped(net, finished))
    ensures StoresHeard(net, stored, scheduled, finished, heard)
    ensures |stored| < cfg.maxPeers && (forall i :: !late(i)) ==> forall a :: a in stored ==> a in scheduled
    ensures Unlimited(cfg, net, stored.Keys, late) ==>
              forall a :: Reachable(net, seed.addr, a) <==> a in stored
  {
    var r;
    r, scheduled, finished, heard := Crawl(cfg, net, seed, late);
    stored := map a | a in r.visited ::
      if a in r.results then r.results[a] else StoredPeer(false, r.visited[a]);
    RoundStored(cfg, net, seed.addr, r, scheduled, late, stored);
    HeardStored(cfg, net, seed, r, scheduled, finished, heard, stored);
  }

  lemma {:induction false} Resulted(net: Network, r: Round, scheduled: seq<Addr>, finished: seq<Addr>, a: Addr)
    requires Placed(net, r) && Scheduled(r, scheduled) && r.tasks == map[] && Finished(net, r.results, finished)
    ensures a in r.results <==> a in scheduled && !net.panics(a)
    ensures a in r.results <==> a in finished
  {
    assert a in r.results ==> a in r.visited && !InQueue(r.frontier, a);
  }

  lemma {:induction false} HeardStored(cfg: CrawlConfig, net: Network, seed: Discovered, r: Round, scheduled: seq<Addr>,
                                       finished: seq<Addr>, heard: seq<Discovered>, stored: map<Addr, StoredPeer>)
    requires Placed(net, r) && Scheduled(r, scheduled) && r.tasks == map[] && Told(cfg, net, seed, r, heard, finished)
    requires stored.Keys == r.visited.Keys
    requires forall a :: a in r.visited ==>
               stored[a] == if a in r.results then r.results[a] else StoredPeer(false, r.visited[a])
    ensures StoresHeard(net, stored, scheduled, finished, heard)
  {
    forall a ensures a in finished <==> a in scheduled && !net.panics(a) {
      Resulted(net, r, scheduled, finished, a);
    }
    forall a | a in stored
      ensures stored[a].available == (a in scheduled && !net.panics(a) && net.alive(a))
      ensures if a in scheduled && !net.panics(a) then FirstHeard(heard, a, stored[a].lastSeen)
              else LastHeard(heard, a, stored[a].lastSeen)
    {
      assert a in stored.Keys && a in r.visited;
      Resulted(net, r, scheduled, finished, a);
    }
  }

  /** What the round stores once it has ended, by draining the queue or at a limit. */
  lemma {:induction false} RoundStored(cfg: CrawlConfig, net: Network, seed: Addr, r: Round, scheduled: seq<Addr>,
                                       late: nat -> bool, stored: map<Addr, StoredPeer>)
    requires RoundOk(cfg, net, seed, r) && Scheduled(r, scheduled) && Ended(cfg, r, late)
    requires stored.Keys == r.visited.Keys
    ensures Distinct(scheduled) && forall a :: a in scheduled ==> a in stored
    ensures seed in stored && |stored| <= Limit(cfg)
    ensures forall a :: a in stored ==> Reachable(net, seed, a)
    ensures |stored| < cfg.maxPeers && (forall i :: !late(i)) ==> forall a :: a in stored ==> a in scheduled
    ensures Unlimited(cfg, net, stored.Keys, late) ==> forall a :: Reachable(net, seed, a) <==> a in stored
  {
    assert |stored| == |stored.Keys| && |r.visited| == |r.visited.Keys|;
    assert forall a :: a in stored <==> a in r.visited by {
      assert forall a :: a in stored.Keys <==> a in r.visited.Keys;
    }
    if |stored| < cfg.maxPeers && forall i :: !late(i) {
      forall a | a in stored ensures a in scheduled {
        assert !InQueue(r.frontier, a);
      }
    }
    if Unlimited(cfg, net, stored.Keys, late) {
      NothingLeft(cfg, net, seed, r);
    }
  }

  lemma {:induction false} StartOk(cfg: CrawlConfig, net: Network, seed: Discovered, r: Round)
    requires r == Round(map[seed.addr := seed.lastSeen], [seed], map[], map[])
    ensures RoundOk(cfg, net, seed.addr, r) && Scheduled(r, [])
  {
    assert r.frontier[0].addr == seed.addr && InQueue(r.frontier, seed.addr);
    assert |r.visited| == |r.visited.Keys| && r.visited.Keys == {seed.addr};
  }

  /** With nothing waiting or in flight and no panic, the visited set is closed. */
  lemma {:induction false} NothingLeft(cfg: CrawlConfig, net: Network, seed: Addr, r: Round)
    requires RoundOk(cfg, net, seed, r) && |r.visited| < cfg.maxPeers
    requires r.frontier == [] && r.tasks == map[] && forall a :: a in r.visited ==> !net.panics(a)
    ensures forall a :: a in r.visited ==> a in r.results
    ensures forall a :: Reachable(net, seed, a) <==> a in r.visited
  {
    forall a | a in r.visited ensures a in r.results {
      assert !InQueue(r.frontier, a);
    }
    var t := iset a | a in r.visited;
    assert Closed(net, seed, t);
    forall a | Reachable(net, seed, a) ensures a in r.visited {
      assert a in t;
    }
  }
}
