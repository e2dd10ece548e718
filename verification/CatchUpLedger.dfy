/** What the catch-up pipeline leaves in the index: the same tables in every
 * interleaving, for every batch size and channel size. */
module CatchUpLedger {
  import opened Prelude
  import opened Rollups
  import opened Ledger
  import opened LedgerFacts
  import opened LedgerInvariants
  import opened LedgerDeltas
  import LedgerBatching
  import CatchUp

  /** The blocks at the given heights. */
  function BlocksAt(blockAt: int -> Block, heights: seq<int>): seq<Block> {
    seq(|heights|, i requires 0 <= i < |heights| => blockAt(heights[i]))
  }

  function BatchesAt(blockAt: int -> Block, batches: seq<seq<int>>): seq<seq<Block>> {
    seq(|batches|, i requires 0 <= i < |batches| => BlocksAt(blockAt, batches[i]))
  }

  lemma {:induction false} ConcatAt(blockAt: int -> Block, batches: seq<seq<int>>)
    ensures LedgerBatching.Concat(BatchesAt(blockAt, batches)) == BlocksAt(blockAt, CatchUp.Concat(batches))
  {
    if batches != [] {
      var n := |batches| - 1;
      ConcatAt(blockAt, batches[..n]);
      assert BatchesAt(blockAt, batches)[..n] == BatchesAt(blockAt, batches[..n]);
    }
  }

  /** A catch-up that finished with neither stream failing leaves the tables that one
   * batch of exactly the missing blocks would leave. */
  lemma {:induction false} CatchUpIndexesChain(t: Tables, w: World, chain: seq<Mined>, rpc: Rpc, blockAt: int -> Block,
                                               c: CatchUp.Config, actions: seq<CatchUp.Action>, s: CatchUp.State)
    requires CatchUp.Runs(c, actions) && s == CatchUp.After(c, actions)
    requires s.consumer == CatchUp.Finished && !s.a.failed && !s.b.failed
    requires Inv(t, w, chain) && AddressesKnown(t.outputs, t.rollups)
    requires Extends(w, chain, Flatten(BlocksAt(blockAt, CatchUp.Range(c.first, c.total))))
    requires forall h :: c.first <= h < c.first + c.total ==> blockAt(h).txs != []
    ensures LedgerBatching.MineEach(t, BatchesAt(blockAt, s.batches), rpc) ==
            Mine(t, BlocksAt(blockAt, CatchUp.Range(c.first, c.total)), rpc)
  {
    CatchUp.CompleteIff(c, actions, s);
    ConcatAt(blockAt, s.batches);
    LedgerBatching.AnyBatching(t, w, chain, BatchesAt(blockAt, s.batches), rpc);
  }
}
