/**
 Every run of node reorganisations, completed passes and interrupted passes.

 `SyncedTo` is the meaning of a completed pass: the stores say exactly what a
 replay of the node's chain from genesis calls for. `Resumable` is what holds
 in between, including after a pass was cut short.
 */
module History {
  import opened Results
  import opened ChainModel
  import opened Events
  import opened Recovery
  import opened Matching
  import opened Stores
  import opened Pass

  /** Stores that hold the replay of `c`, and nothing else. */
  ghost function SyncedTo(v: ScanView, c: seq<Block>): State
    requires 0 < |c|
  {
    State(StoredThrough(map[], c, 0, |c|), Some(SyncedTip(|c| - 1, c[|c| - 1].hash)), Ledger(ChainEvents(v, c)))
  }

  /**
   Stores that have seen the blocks `p`, with the cursor below block `n`: below
   the cursor everything is there, above it nothing that `p` does not call for.
   */
  ghost predicate Resumable(v: ScanView, p: seq<Block>, n: nat, s: State) {
    && n <= |p|
    && s.tip == (if n == 0 then None else Some(SyncedTip(n - 1, p[n - 1].hash)))
    && (forall h :: h in s.blocks ==> h < |p| && s.blocks[h] == StoredBlock(p[h].hash, p[h]))
    && (forall h :: 0 <= h < n ==> h in s.blocks)
    && Sound(s.utxos, RangeEvents(v, p, 0, n), RangeEvents(v, p, n, |p|))
  }

  ghost predicate Applied(u: iset<Block>, g: Block, p: seq<Block>) {
    p == [] || ValidChain(u, g, p)
  }

  /** The node's chain extends all the stores have seen, or parts with it at the cursor or below. */
  ghost predicate Harmless(p: seq<Block>, n: nat, c: seq<Block>) {
    p <= c || (0 < n <= |p| && n <= |c| && c[n - 1] != p[n - 1])
  }

  // ------------------------------------------------------------------
  // Prefixes of valid chains
  // ------------------------------------------------------------------

  lemma {:induction false} TxsPrefix(c: seq<Block>, k: nat)
    requires k <= |c|
    ensures Txs(c[..k]) <= Txs(c)
  {
    if k == |c| {
      assert c[..k] == c;
    } else {
      TxsPrefix(c[..|c| - 1], k);
      assert c[..|c| - 1][..k] == c[..k];
    }
  }

  lemma ValidPrefix(u: iset<Block>, g: Block, c: seq<Block>, k: nat)
    requires ValidChain(u, g, c) && k <= |c|
    ensures Applied(u, g, c[..k])
  {
    TxsPrefix(c, k);
    OrderedPrefix(Txs(c), |Txs(c[..k])|);
    assert Txs(c[..k]) == Txs(c)[..|Txs(c[..k])|];
  }

  lemma ChainOrdered(v: ScanView, u: iset<Block>, g: Block, p: seq<Block>)
    requires Applied(u, g, p)
    ensures WellOrdered(ChainEvents(v, p))
  {
    FreshChain(v, p);
  }

  // ------------------------------------------------------------------
  // The ancestor search
  // ------------------------------------------------------------------

  /** Below the cursor, a stored hash matches the node's exactly when the blocks do. */
  lemma MatchIsAgreement(v: ScanView, u: iset<Block>, g: Block, p: seq<Block>, n: nat, s: State, c: seq<Block>, h: nat)
    requires Binding(u) && ValidChain(u, g, p) && ValidChain(u, g, c) && Resumable(v, p, n, s) && h < n <= |c|
    ensures Matches(s.blocks, c, h) <==> p[h] == c[h]
    ensures Matches(s.blocks, c, h) ==> p[..h + 1] == c[..h + 1]
  {
    hide Sound, RangeEvents, OrderedTxs, Txs;
    assert h in s.blocks && s.blocks[h].hash == p[h].hash;
    assert p[h] in p && c[h] in c;
    if p[h].hash == c[h].hash {
      HashBindsPrefix(u, p, c, h);
    }
  }

  /** The search finds the last height of the longest common prefix of what is stored and what the node shows. */
  lemma {:induction false} AncestorIsForkPoint(v: ScanView, u: iset<Block>, g: Block, p: seq<Block>, n: nat, s: State,
                                               c: seq<Block>)
    requires Binding(u) && ValidChain(u, g, p) && ValidChain(u, g, c) && Resumable(v, p, n, s) && 0 < n <= |c|
    ensures var a := Ancestor(s.blocks, c, n - 1);
            && p[..a + 1] == c[..a + 1]
            && (forall h :: a < h < n ==> p[h] != c[h])
            && (a + 1 < n <==> p[n - 1] != c[n - 1])
  {
    var a := Ancestor(s.blocks, c, n - 1);
    MatchIsAgreement(v, u, g, p, n, s, c, a);
    MatchIsAgreement(v, u, g, p, n, s, c, n - 1);
    MatchIsAgreement(v, u, g, p, n, s, c, 0);
    hide Sound, RangeEvents, OrderedTxs, Txs, Resumable, Linked, Binding;
    forall h | a < h < n
      ensures p[h] != c[h]
    {
      MatchIsAgreement(v, u, g, p, n, s, c, h);
    }
  }

  // ------------------------------------------------------------------
  // Rolling back and scanning on
  // ------------------------------------------------------------------

  /** Both rollbacks together land on the replay of the common prefix, whatever an interrupted pass left above. */
  lemma {:induction false} RollbackLandsOnPrefix(v: ScanView, u: iset<Block>, g: Block, p: seq<Block>, n: nat,
                                                 s: State, a: nat)
    requires ValidChain(u, g, p) && Resumable(v, p, n, s) && a < n
    ensures BothRolledBack(s, a) == SyncedTo(v, p[..a + 1])
  {
    hide WellOrdered, Sound, RangeEvents, StoredThrough, OrderedTxs, Txs, Ledger, RolledBack, KeptBlocks, KeptTip;
    var q := p[..a + 1];
    BlocksRollBack(v, p, n, s, a);
    var kept, dropped, rest := RangeEvents(v, p, 0, a + 1), RangeEvents(v, p, a + 1, n), RangeEvents(v, p, n, |p|);
    ChainOrdered(v, u, g, p);
    RangeConcat(v, p, 0, a + 1, n);
    RangeConcat(v, p, a + 1, n, |p|);
    RangeConcat(v, p, 0, a + 1, |p|);
    RangeEventsAt(v, p, 0, a + 1);
    RangeEventsAt(v, p, a + 1, n);
    RangeEventsAt(v, p, n, |p|);
    RollbackIsPrefix(s.utxos, kept, dropped, rest, a, |p|);
    RangeOfPrefix(v, p, 0, a + 1, a + 1);
  }

  lemma BlocksRollBack(v: ScanView, p: seq<Block>, n: nat, s: State, a: nat)
    requires Resumable(v, p, n, s) && a < n
    ensures BothRolledBack(s, a).blocks == StoredThrough(map[], p[..a + 1], 0, a + 1)
    ensures BothRolledBack(s, a).tip == Some(SyncedTip(a, p[a].hash))
  {
    hide Sound, RangeEvents, RolledBack, KeptTip, StoredThrough;
    SameBlocks(KeptBlocks(s.blocks, a), p[..a + 1]);
    CursorRollsBack(p, n, s.blocks, a);
  }

  lemma CursorRollsBack(p: seq<Block>, n: nat, blocks: map<nat, StoredBlock>, a: nat)
    requires a < n <= |p|
    requires forall h :: 0 <= h < n ==> h in blocks && blocks[h] == StoredBlock(p[h].hash, p[h])
    ensures KeptTip(blocks, Some(SyncedTip(n - 1, p[n - 1].hash)), a) == Some(SyncedTip(a, p[a].hash))
  {
    if a + 1 < n {
      var kept := KeptBlocks(blocks, a);
      assert a in kept.Keys;
      assert Highest(kept.Keys) == a;
    }
  }

  /** Blocks stored as the chain has them, for all its heights and no others. */
  lemma SameBlocks(stored: map<nat, StoredBlock>, c: seq<Block>)
    requires forall h :: h in stored ==> h < |c| && stored[h] == StoredBlock(c[h].hash, c[h])
    requires forall h :: 0 <= h < |c| ==> h in stored
    ensures stored == StoredThrough(map[], c, 0, |c|)
  {
  }

  /** A replay is resumable with its own chain. */
  lemma SyncedIsResumable(v: ScanView, u: iset<Block>, g: Block, c: seq<Block>)
    requires ValidChain(u, g, c)
    ensures Resumable(v, c, |c|, SyncedTo(v, c))
  {
    ChainOrdered(v, u, g, c);
    RangeEventsAt(v, c, 0, |c|);
    LedgerIsSound(ChainEvents(v, c), |c|);
  }

  /** What clean passes leave: the replay of the blocks applied, or fresh stores if there are none. */
  ghost function Replayed(v: ScanView, c: seq<Block>): State {
    if c == [] then EMPTY else SyncedTo(v, c)
  }

  lemma ReplayedIsResumable(v: ScanView, u: iset<Block>, g: Block, c: seq<Block>)
    requires Applied(u, g, c)
    ensures Resumable(v, c, |c|, Replayed(v, c)) && Replayed(v, c).utxos == Ledger(ChainEvents(v, c))
  {
    if c != [] {
      SyncedIsResumable(v, u, g, c);
    } else {
      assert RangeEvents(v, [], 0, 0) == [];
    }
  }

  /** Seen through a chain that extends what was applied. */
  lemma SoundOn(v: ScanView, u: iset<Block>, g: Block, q: seq<Block>, n: nat, s: State, c: seq<Block>, k: nat)
    requires ValidChain(u, g, c) && Resumable(v, q, n, s) && q <= c && |q| <= k <= |c|
    ensures Sound(s.utxos, RangeEvents(v, c, 0, n), RangeEvents(v, c, n, k))
    ensures WellOrdered(RangeEvents(v, c, 0, n) + RangeEvents(v, c, n, k))
  {
    hide WellOrdered, Sound, RangeEvents, ValidChain;
    var before, rest, more := RangeEvents(v, c, 0, n), RangeEvents(v, c, n, |q|), RangeEvents(v, c, |q|, k);
    assert q == c[..|q|];
    RangeOfPrefix(v, c, 0, n, |q|);
    RangeOfPrefix(v, c, n, |q|, |q|);
    RangeConcat(v, c, n, |q|, k);
    OrderedOn(v, u, g, c, n, k);
    assert before + (rest + more) == before + rest + more;
    SoundExtends(s.utxos, before, rest, more);
  }

  lemma OrderedOn(v: ScanView, u: iset<Block>, g: Block, c: seq<Block>, n: nat, k: nat)
    requires ValidChain(u, g, c) && n <= k <= |c|
    ensures WellOrdered(RangeEvents(v, c, 0, n) + RangeEvents(v, c, n, k))
  {
    hide WellOrdered, RangeEvents;
    ChainOrdered(v, u, g, c);
    FreshRanges(v, c, 0, k);
    RangeConcat(v, c, 0, n, k);
  }

  /** Scanning from the cursor to the end of an extending chain completes the replay. */
  lemma ScanCompletes(v: ScanView, u: iset<Block>, g: Block, q: seq<Block>, n: nat, s: State, c: seq<Block>)
    requires ValidChain(u, g, c) && Resumable(v, q, n, s) && q <= c
    ensures Scanned(v, s, c, n, |c|).(tip := Some(SyncedTip(|c| - 1, c[|c| - 1].hash))) == SyncedTo(v, c)
  {
    hide Sound, WellOrdered, RangeEvents, OrderedTxs, Txs;
    SoundOn(v, u, g, q, n, s, c, |c|);
    RangeEventsAt(v, c, 0, n);
    RangeEventsAt(v, c, n, |c|);
    RangeConcat(v, c, 0, n, |c|);
    assert StoredThrough(s.blocks, c, n, |c|) == StoredThrough(map[], c, 0, |c|);
    hide StoredThrough;
    SoundIsRecoverable(s.utxos, RangeEvents(v, c, 0, n), RangeEvents(v, c, n, |c|), n, |c|);
  }

  /** What a pass makes of resumable stores before it scans: still resumable, on a prefix of the node's chain. */
  lemma PreparedResumable(v: ScanView, u: iset<Block>, g: Block, p: seq<Block>, n: nat, s: State, c: seq<Block>)
    requires Binding(u) && Applied(u, g, p) && ValidChain(u, g, c) && Resumable(v, p, n, s)
    requires Harmless(p, n, c) && CanStart(s, c)
    ensures var plan := Prepare(s, c);
            var q := if plan.reorgTo.Some? then c[..plan.start] else p;
            q <= c && plan.start == (if plan.reorgTo.Some? then |q| else n) && Resumable(v, q, plan.start, plan.state)
    ensures Prepare(s, c).reorgTo.Some? ==>
              && Prepare(s, c).start < n && Prepare(s, c).state == SyncedTo(v, c[..Prepare(s, c).start])
  {
    hide Sound, RangeEvents, OrderedTxs, Txs;
    if n > 0 && c[n - 1] != p[n - 1] {
      PreparedByRollback(v, u, g, p, n, s, c);
    } else if n > 0 {
      assert p <= c;
    }
  }

  lemma PreparedByRollback(v: ScanView, u: iset<Block>, g: Block, p: seq<Block>, n: nat, s: State, c: seq<Block>)
    requires Binding(u) && ValidChain(u, g, p) && ValidChain(u, g, c) && Resumable(v, p, n, s)
    requires 0 < n <= |c| && c[n - 1] != p[n - 1] && CanStart(s, c)
    ensures var plan := Prepare(s, c);
            && plan.reorgTo.Some? && 0 < plan.start < n
            && plan.state == SyncedTo(v, c[..plan.start]) && Resumable(v, c[..plan.start], plan.start, plan.state)
  {
    hide Sound, RangeEvents, ValidChain, Binding, Resumable, BothRolledBack, SyncedTo, Prepare, Ancestor;
    CursorMismatch(v, u, g, p, n, s, c);
    PrepareMismatch(s, c);
    AncestorIsForkPoint(v, u, g, p, n, s, c);
    var a := Ancestor(s.blocks, c, n - 1);
    RollbackLandsOnPrefix(v, u, g, p, n, s, a);
    ValidPrefix(u, g, c, a + 1);
    SyncedIsResumable(v, u, g, c[..a + 1]);
  }

  lemma CursorMismatch(v: ScanView, u: iset<Block>, g: Block, p: seq<Block>, n: nat, s: State, c: seq<Block>)
    requires Binding(u) && ValidChain(u, g, p) && ValidChain(u, g, c) && Resumable(v, p, n, s)
    requires 0 < n <= |c| && c[n - 1] != p[n - 1]
    ensures s.tip == Some(SyncedTip(n - 1, p[n - 1].hash)) && c[n - 1].hash != p[n - 1].hash
  {
    assert p[n - 1] in p && c[n - 1] in c;
  }

  lemma PrepareMismatch(s: State, c: seq<Block>)
    requires CanStart(s, c) && s.tip.Some? && c[s.tip.value.height].hash != s.tip.value.hash
    ensures var a := Ancestor(s.blocks, c, s.tip.value.height);
            Prepare(s, c) == Plan(BothRolledBack(s, a), a + 1, Some(a))
  {
  }

  /** A completed pass leaves the replay of the node's chain. */
  lemma {:induction false} PassCompletes(v: ScanView, u: iset<Block>, g: Block, p: seq<Block>, n: nat, s: State,
                                         c: seq<Block>)
    requires Binding(u) && Applied(u, g, p) && ValidChain(u, g, c) && Resumable(v, p, n, s)
    requires Harmless(p, n, c) && CanStart(s, c)
    ensures Passed(v, s, c) == SyncedTo(v, c)
  {
    hide Sound, RangeEvents, OrderedTxs, Txs, SyncedTo;
    PreparedResumable(v, u, g, p, n, s, c);
    var plan := Prepare(s, c);
    var q := if plan.reorgTo.Some? then c[..plan.start] else p;
    ScanCompletes(v, u, g, q, plan.start, plan.state, c);
  }

  // ------------------------------------------------------------------
  // Interrupted passes
  // ------------------------------------------------------------------

  function Max(a: nat, b: nat): nat {
    if a < b then b else a
  }

  /** How many blocks of the node's chain the stores have seen once a scan stops at `h`, `stage`. */
  function Seen(h: nat, stage: Stage): nat {
    if stage.Before? then h else h + 1
  }

  lemma {:induction false} CutKeepsResumable(v: ScanView, u: iset<Block>, g: Block, q: seq<Block>, n: nat, s: State,
                                             c: seq<Block>, h: nat, stage: Stage)
    requires ValidChain(u, g, c) && Resumable(v, q, n, s) && q <= c
    requires n <= h && Seen(h, stage) <= |c|
    ensures Resumable(v, c[..Max(|q|, Seen(h, stage))], n, CutAt(v, s, c, n, h, stage))
  {
    hide Sound, RangeEvents, OrderedTxs, Txs, Scan, Upserted, BlockEvents;
    var k := Max(|q|, Seen(h, stage));
    var p := c[..k];
    var at := CutAt(v, s, c, n, h, stage);
    CutKeepsSound(v, u, g, q, n, s, c, h, stage);
    RangeOfPrefix(v, c, 0, n, k);
    RangeOfPrefix(v, c, n, k, k);
    forall x | x in at.blocks
      ensures x < |p| && at.blocks[x] == StoredBlock(p[x].hash, p[x])
    {
    }
  }

  lemma CutKeepsSound(v: ScanView, u: iset<Block>, g: Block, q: seq<Block>, n: nat, s: State, c: seq<Block>,
                      h: nat, stage: Stage)
    requires ValidChain(u, g, c) && Resumable(v, q, n, s) && q <= c
    requires n <= h && Seen(h, stage) <= |c|
    ensures var k := Max(|q|, Seen(h, stage));
            Sound(CutAt(v, s, c, n, h, stage).utxos, RangeEvents(v, c, 0, n), RangeEvents(v, c, n, k))
  {
    hide WellOrdered, Sound, RangeEvents, BlockEvents, ValidChain, Scan, Upserted, StoredThrough;
    var k := Max(|q|, Seen(h, stage));
    SoundOn(v, u, g, q, n, s, c, k);
    RangeConcat(v, c, n, h, k);
    var before, mid := RangeEvents(v, c, 0, n), RangeEvents(v, c, n, h);
    SoundScan(s.utxos, before, mid, RangeEvents(v, c, h, k));
    if stage.CapturesWritten? {
      var block, todo := BlockEvents(v, h, c[h].txs), RangeEvents(v, c, h + 1, k);
      SingleBlockRange(v, c, h);
      RangeConcat(v, c, h, h + 1, k);
      assert (before + mid) + (block + todo) == before + (mid + (block + todo));
      SoundUpsert(Scan(s.utxos, mid), before, mid, block, todo);
    }
  }

  // ------------------------------------------------------------------
  // Runs
  // ------------------------------------------------------------------

  /** The stores, the node's chain, and (for the statement only) the blocks applied and the cursor's block count. */
  datatype World = World(state: State, chain: seq<Block>, applied: seq<Block>, synced: nat)

  datatype Action = Replace(chain: seq<Block>) | Complete | Abort(phase: Phase)

  /**
   The node may show any valid chain. A pass may run when the node's chain is
   harmless to what was applied; it may stop anywhere except between the two
   rollbacks.
   */
  ghost predicate Allowed(u: iset<Block>, g: Block, w: World, act: Action) {
    match act
    case Replace(c) => ValidChain(u, g, c)
    case Complete => Enabled(w.state, w.chain) && Harmless(w.applied, w.synced, w.chain)
    case Abort(Untouched) => true
    case Abort(BetweenRollbacks) => false
    case Abort(Reached(h, stage)) =>
      LegalPhase(w.state, w.chain, Reached(h, stage)) && Harmless(w.applied, w.synced, w.chain)
  }

  ghost function Apply(v: ScanView, u: iset<Block>, g: Block, w: World, act: Action): World
    requires Allowed(u, g, w, act)
  {
    match act
    case Replace(c) => w.(chain := c)
    case Complete => World(Passed(v, w.state, w.chain), w.chain, w.chain, |w.chain|)
    case Abort(Untouched) => w
    case Abort(Reached(h, stage)) =>
      var plan := Prepare(w.state, w.chain);
      var had := if plan.reorgTo.Some? then plan.start else |w.applied|;
      World(InterruptedAt(v, w.state, w.chain, Reached(h, stage)), w.chain,
            w.chain[..if had <= |w.chain| then Max(had, Seen(h, stage)) else 0], plan.start)
  }

  ghost predicate AllowedRun(v: ScanView, u: iset<Block>, g: Block, w: World, acts: seq<Action>)
    decreases acts
  {
    acts == [] || (Allowed(u, g, w, acts[0]) && AllowedRun(v, u, g, Apply(v, u, g, w, acts[0]), acts[1..]))
  }

  ghost function Run(v: ScanView, u: iset<Block>, g: Block, w: World, acts: seq<Action>): World
    requires AllowedRun(v, u, g, w, acts)
    decreases acts
  {
    if acts == [] then w else Run(v, u, g, Apply(v, u, g, w, acts[0]), acts[1..])
  }

  ghost predicate Consistent(v: ScanView, u: iset<Block>, g: Block, w: World) {
    && ValidChain(u, g, w.chain)
    && Applied(u, g, w.applied)
    && Resumable(v, w.applied, w.synced, w.state)
  }

  /** Fresh stores facing a node. */
  ghost function Start(c: seq<Block>): World {
    World(EMPTY, c, [], 0)
  }

  lemma StartConsistent(v: ScanView, u: iset<Block>, g: Block, c: seq<Block>)
    requires ValidChain(u, g, c)
    ensures Consistent(v, u, g, Start(c))
  {
    ReplayedIsResumable(v, u, g, []);
  }

  lemma {:induction false} StepConsistent(v: ScanView, u: iset<Block>, g: Block, w: World, act: Action)
    requires Binding(u) && Consistent(v, u, g, w) && Allowed(u, g, w, act)
    ensures Consistent(v, u, g, Apply(v, u, g, w, act))
    ensures act.Complete? ==> Apply(v, u, g, w, act).state == SyncedTo(v, w.chain)
  {
    hide Sound, RangeEvents, OrderedTxs, Txs, SyncedTo;
    match act
    case Replace(c) =>
    case Complete =>
      PassCompletes(v, u, g, w.applied, w.synced, w.state, w.chain);
      SyncedIsResumable(v, u, g, w.chain);
    case Abort(Untouched) =>
    case Abort(Reached(h, stage)) =>
      PreparedResumable(v, u, g, w.applied, w.synced, w.state, w.chain);
      var plan := Prepare(w.state, w.chain);
      var q := if plan.reorgTo.Some? then w.chain[..plan.start] else w.applied;
      CutKeepsResumable(v, u, g, q, plan.start, plan.state, w.chain, h, stage);
      ValidPrefix(u, g, w.chain, Max(|q|, Seen(h, stage)));
  }

  /** Whatever happened before, a completed pass leaves the replay of the chain the node then shows. */
  lemma {:induction false} EveryRun(v: ScanView, u: iset<Block>, g: Block, w: World, acts: seq<Action>)
    requires Binding(u) && Consistent(v, u, g, w) && AllowedRun(v, u, g, w, acts)
    ensures Consistent(v, u, g, Run(v, u, g, w, acts))
    ensures acts != [] && acts[|acts| - 1].Complete? ==>
              Run(v, u, g, w, acts).state == SyncedTo(v, Run(v, u, g, w, acts).chain)
    decreases acts
  {
    if acts != [] {
      StepConsistent(v, u, g, w, acts[0]);
      var next := Apply(v, u, g, w, acts[0]);
      EveryRun(v, u, g, next, acts[1..]);
      if |acts| > 1 {
        assert acts[1..][|acts[1..]| - 1] == acts[|acts| - 1];
      }
    }
  }

  /** Without interruptions no chain is ever harmful: every reorganisation, of any depth, is handled. */
  lemma {:induction false} EveryCleanRun(v: ScanView, u: iset<Block>, g: Block, w: World, acts: seq<Action>)
    requires Binding(u) && Consistent(v, u, g, w) && w.synced == |w.applied|
    requires CleanRun(v, u, g, w, acts)
    ensures AllowedRun(v, u, g, w, acts)
    ensures Consistent(v, u, g, Run(v, u, g, w, acts))
    ensures acts != [] && acts[|acts| - 1].Complete? ==>
              Run(v, u, g, w, acts).state == SyncedTo(v, Run(v, u, g, w, acts).chain)
    decreases acts
  {
    hide Consistent, Allowed, Passed, Enabled, SyncedTo, Harmless;
    if acts != [] {
      assert [acts[0]] + acts[1..] == acts;
      CleanStepAllowed(v, u, g, w, acts[0], acts[1..]);
      StepConsistent(v, u, g, w, acts[0]);
      var next := Apply(v, u, g, w, acts[0]);
      EveryCleanRun(v, u, g, next, acts[1..]);
      if |acts| > 1 {
        assert acts[1..][|acts[1..]| - 1] == acts[|acts| - 1];
      }
    }
  }

  /**
   From fresh stores: whatever chains the node has shown, the last completed pass
   leaves the replay of the one it shows now.
   */
  lemma {:induction false} FreshStoresCleanRun(v: ScanView, u: iset<Block>, g: Block, c: seq<Block>, acts: seq<Action>)
    requires Binding(u) && ValidChain(u, g, c) && CleanRun(v, u, g, Start(c), acts)
    ensures AllowedRun(v, u, g, Start(c), acts)
    ensures Consistent(v, u, g, Run(v, u, g, Start(c), acts))
    ensures acts != [] && acts[|acts| - 1].Complete? ==>
              Run(v, u, g, Start(c), acts).state == SyncedTo(v, Run(v, u, g, Start(c), acts).chain)
  {
    StartConsistent(v, u, g, c);
    EveryCleanRun(v, u, g, Start(c), acts);
  }

  /** Only reorganisations and completed passes; a pass completes whenever the node's tip has reached the cursor. */
  ghost predicate CleanRun(v: ScanView, u: iset<Block>, g: Block, w: World, acts: seq<Action>)
    decreases acts
  {
    acts == [] ||
    match acts[0]
    case Replace(c) => ValidChain(u, g, c) && CleanRun(v, u, g, w.(chain := c), acts[1..])
    case Complete =>
      && Enabled(w.state, w.chain)
      && CleanRun(v, u, g, World(Passed(v, w.state, w.chain), w.chain, w.chain, |w.chain|), acts[1..])
    case Abort(_) => false
  }

  lemma CleanStepAllowed(v: ScanView, u: iset<Block>, g: Block, w: World, act: Action, rest: seq<Action>)
    requires Binding(u) && Consistent(v, u, g, w) && w.synced == |w.applied|
    requires CleanRun(v, u, g, w, [act] + rest)
    ensures Allowed(u, g, w, act)
    ensures Apply(v, u, g, w, act).synced == |Apply(v, u, g, w, act).applied|
    ensures CleanRun(v, u, g, Apply(v, u, g, w, act), rest)
  {
    hide Consistent, Passed, SyncedTo;
    assert ([act] + rest)[1..] == rest;
    CleanIsHarmless(v, u, g, w);
  }

  lemma CleanIsHarmless(v: ScanView, u: iset<Block>, g: Block, w: World)
    requires Binding(u) && Consistent(v, u, g, w) && w.synced == |w.applied|
    ensures CanStart(w.state, w.chain) ==> Harmless(w.applied, w.synced, w.chain)
  {
    hide Sound, RangeEvents, OrderedTxs, Txs;
    var n := w.synced;
    if CanStart(w.state, w.chain) && n > 0 && w.chain[n - 1] == w.applied[n - 1] {
      HashBindsPrefix(u, w.applied, w.chain, n - 1);
      assert w.applied[..n] == w.applied;
    }
  }

  // ------------------------------------------------------------------
  // What a completed pass leaves
  // ------------------------------------------------------------------

  /** Stored hashes agree with the node up to the tip, nothing lies above, and spent means spent at a known height. */
  lemma {:induction false} SyncedFacts(v: ScanView, u: iset<Block>, g: Block, c: seq<Block>)
    requires ValidChain(u, g, c)
    ensures var s := SyncedTo(v, c);
            && (forall h :: 0 <= h < |c| ==> h in s.blocks && s.blocks[h] == StoredBlock(c[h].hash, c[h]))
            && (forall h :: h in s.blocks ==> h < |c|)
            && s.tip == Some(SyncedTip(|c| - 1, c[|c| - 1].hash))
            && (forall op :: op in s.utxos ==> (s.utxos[op].utxo.isSpent <==> s.utxos[op].spentHeight.Some?))
            && Keyed(s.utxos)
  {
    var es := ChainEvents(v, c);
    ChainOrdered(v, u, g, c);
    RangeEventsAt(v, c, 0, |c|);
    forall op | op in Ledger(es)
      ensures Ledger(es)[op].utxo.outpoint == op
    {
      CapturesFacts(es, 0, |c|, op);
    }
  }
}
