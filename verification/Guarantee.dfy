/** The engine's method and the run theorems, put together: what a caller of `Sync` may rely on. */
module Guarantee {
  import opened Results
  import opened ChainModel
  import opened Events
  import opened Recovery
  import opened Matching
  import opened Stores
  import opened Pass
  import opened ScanEngine
  import opened History

  /** Chains from one binding universe give the engine what it relies on. */
  lemma {:induction false} ValidChainIsSane(v: ScanView, u: iset<Block>, g: Block, c: seq<Block>)
    requires Binding(u) && ValidChain(u, g, c)
    ensures Sane(v, c)
  {
    FreshChain(v, c);
    FreshBlocks(v, c);
    forall i, j | 0 <= i < |c| && 0 <= j < |c| && c[i].hash == c[j].hash
      ensures c[i] == c[j]
    {
      assert c[i] in c && c[j] in c;
    }
  }

  /** Resumable stores keep every record under its own outpoint. */
  lemma ResumableIsKeyed(v: ScanView, u: iset<Block>, g: Block, p: seq<Block>, n: nat, s: State)
    requires Applied(u, g, p) && Resumable(v, p, n, s)
    ensures Keyed(s.utxos)
  {
    ChainOrdered(v, u, g, p);
    RangeEventsAt(v, p, 0, |p|);
    RangeConcat(v, p, 0, n, |p|);
    forall op | op in s.utxos
      ensures s.utxos[op].utxo.outpoint == op
    {
      CapturesFacts(ChainEvents(v, p), 0, |p|, op);
    }
  }

  /**
   A pass over a fixed index: on success the stores are the replay of the node's
   chain; on failure anywhere but between the two rollbacks they stay resumable,
   having seen a prefix of the node's chain or what they had seen before.
   */
  method SyncedOrResumable(engine: BlockScanEngine, chain: MockChainSource, blocks: MemBlockStore, utxos: MemUtxoStore,
                           ghost u: iset<Block>, ghost g: Block, ghost p: seq<Block>, ghost n: nat)
    returns (r: Result<SyncSummary, SyncError>, ghost phase: Phase, ghost now: World)
    requires engine.Valid() && Binding(u) && ValidChain(u, g, chain.chain)
    requires Applied(u, g, p) && Harmless(p, n, chain.chain)
    requires Resumable(engine.View(), p, n, State(blocks.blocks, blocks.tip, utxos.entries))
    modifies blocks, utxos`entries
    ensures now.state == State(blocks.blocks, blocks.tip, utxos.entries)
    ensures chain.reliable && blocks.reliable && utxos.reliable ==> (r.Success? <==> n <= |chain.chain|)
    ensures r.Success? ==> now.state == SyncedTo(engine.View(), chain.chain)
    ensures r.Failure? ==>
              var s := old(State(blocks.blocks, blocks.tip, utxos.entries));
              LegalPhase(s, chain.chain, phase) && now.state == InterruptedAt(engine.View(), s, chain.chain, phase)
    ensures r.Success? || phase != BetweenRollbacks ==>
              var w := World(old(State(blocks.blocks, blocks.tip, utxos.entries)), chain.chain, p, n);
              var act := if r.Success? then Complete else Abort(phase);
              && Allowed(u, g, w, act) && now == Apply(engine.View(), u, g, w, act)
              && Consistent(engine.View(), u, g, now)
  {
    ghost var v, s, c := engine.View(), State(blocks.blocks, blocks.tip, utxos.entries), chain.chain;
    ResumableIsKeyed(v, u, g, p, n, s);
    ValidChainIsSane(v, u, g, c);
    r, phase := engine.Sync(chain, blocks, utxos);
    now := World(State(blocks.blocks, blocks.tip, utxos.entries), c, p, n);
    hide Sound, RangeEvents, OrderedTxs, Txs, SyncedTo, Keyed;
    ghost var w := World(s, c, p, n);
    ghost var act := if r.Success? then Complete else Abort(phase);
    if act != Abort(BetweenRollbacks) {
      StepConsistent(v, u, g, w, act);
      now := Apply(v, u, g, w, act);
    }
  }
}
