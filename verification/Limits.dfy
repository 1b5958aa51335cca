/** Where the replay guarantee stops, and exactly why. */
module Limits {
  import opened Results
  import opened ChainModel
  import opened Events
  import opened Recovery
  import opened Matching
  import opened Stores
  import opened Pass
  import opened History
  import opened Leftovers

  // ------------------------------------------------------------------
  // The genesis block
  // ------------------------------------------------------------------

  /** One common hash at one height is enough to share the genesis block. */
  lemma AgreementReachesGenesis(u: iset<Block>, g: Block, g': Block, c: seq<Block>, c': seq<Block>, h: nat)
    requires Binding(u) && ValidChain(u, g, c) && ValidChain(u, g', c') && h < |c| && h < |c'|
    ensures c[h].hash == c'[h].hash ==> g == g'
  {
    if c[h].hash == c'[h].hash {
      HashBindsPrefix(u, c, c', h);
      assert c[..h + 1][0] == c[0] && c'[..h + 1][0] == c'[0];
    }
  }

  /**
   From the replay of one valid chain, a pass over another reaches its replay
   exactly when the two share their genesis block: the ancestor search answers
   height 0 whether or not height 0 matches.
   */
  lemma {:induction false} SharedGenesisIff(v: ScanView, u: iset<Block>, g: Block, g': Block, c: seq<Block>,
                                            c': seq<Block>)
    requires Binding(u) && ValidChain(u, g, c) && ValidChain(u, g', c') && CanStart(SyncedTo(v, c), c')
    ensures Passed(v, SyncedTo(v, c), c') == SyncedTo(v, c') <==> g == g'
  {
    var s := SyncedTo(v, c);
    if g == g' {
      SyncedIsResumable(v, u, g, c);
      CleanIsHarmless(v, u, g, World(s, c', c, |c|));
      PassCompletes(v, u, g, c, |c|, s, c');
    } else {
      forall h: nat | h < |c|
        ensures !Matches(s.blocks, c', h)
      {
        AgreementReachesGenesis(u, g, g', c, c', h);
      }
      assert !Matches(s.blocks, c', |c| - 1) && |c| - 1 in s.blocks;
      assert Prepare(s, c').reorgTo == Some(0);
      assert 0 in Prepare(s, c').state.blocks;
      assert Passed(v, s, c').blocks[0] == StoredBlock(g.hash, g);
      assert SyncedTo(v, c').blocks[0] == StoredBlock(g'.hash, g');
    }
  }

  // ------------------------------------------------------------------
  // Re-capturing a spent record
  // ------------------------------------------------------------------

  /** The record under `op` says it is unspent and has a spend height, or the other way round. */
  ghost predicate Disagrees(m: Store, op: OutPoint) {
    op in m && m[op].utxo.isSpent != m[op].spentHeight.Some?
  }

  /**
   A pass that applied every block but failed to move its cursor is repeated from
   the old cursor. After the events `done` of the repetition a record's two spend
   fields disagree exactly when it was captured again and its spend is still to
   come; then it counts as unspent although its spend height is set.
   */
  lemma {:induction false} RescanDisagreesIff(done: seq<Event>, todo: seq<Event>, op: OutPoint)
    requires WellOrdered(done + todo)
    ensures var m := Scan(Ledger(done + todo), done);
            && (Disagrees(m, op) <==>
                op in Captures(done) && FirstSpend(done, op).None? && FirstSpend(todo, op).Some?)
            && (Disagrees(m, op) ==> op in Unspent(m) && m[op].spentHeight == FirstSpend(todo, op))
  {
    var applied := Ledger(done + todo);
    CapturesConcat(done, todo);
    FirstSpendConcat(done, todo, op);
    WellOrderedParts(done, todo);
    ScanAt(applied, done, op);
    var now := At(Scan(applied, done), op);
    assert op in Scan(applied, done) ==> now == Some(Scan(applied, done)[op]);
  }

  /** The repetition ends where it began: applying the same events twice is applying them once. */
  lemma {:induction false} RescanEndsRight(done: seq<Event>, todo: seq<Event>)
    requires WellOrdered(done + todo)
    ensures Scan(Scan(Ledger(done + todo), done), todo) == Ledger(done + todo)
  {
    var all, applied := done + todo, Ledger(done + todo);
    ScanConcat(applied, done, todo);
    forall o
      ensures At(Scan(applied, all), o) == At(applied, o)
    {
      ScanAt(applied, all, o);
      if o in Captures(all) {
        CapturedUnspent(all, o);
      }
    }
    SameEverywhere(Scan(applied, all), applied);
  }

  /** So a spent record is forgotten to be spent, with its spend height still set, until its spend is reached again. */
  lemma {:induction false} RescanForgetsSpent(done: seq<Event>, todo: seq<Event>, op: OutPoint)
    requires WellOrdered(done + todo)
    requires op in Captures(done) && FirstSpend(done, op).None? && FirstSpend(todo, op).Some?
    ensures var applied := Ledger(done + todo);
            && op in applied && op !in Unspent(applied)
            && op in Unspent(Scan(applied, done))
            && Scan(applied, done)[op].spentHeight == FirstSpend(todo, op)
            && Scan(Scan(applied, done), todo) == applied
  {
    CapturesConcat(done, todo);
    FirstSpendConcat(done, todo, op);
    RescanDisagreesIff(done, todo, op);
    RescanEndsRight(done, todo);
  }

  // ------------------------------------------------------------------
  // A wallet, a deposit, and a node that changes its mind
  // ------------------------------------------------------------------

  const WATCHED: Script := [0x51]
  const DEPOSIT := TxOut(WATCHED, [])
  const COIN := OutPoint(7, 0)
  const SECRETS := TxOutSecrets(1, 50_000, 0, 0)

  function OneScript(): Wollet {
    Wollet.Wollet("w",
           (i: nat) => if i == 0 then Some(Definite(WATCHED, [], map[])) else None,
           (i: nat) => None,
           (t: TxOut) => Some(SECRETS))
  }

  ghost function Watching(): ScanView {
    RawView(map[WATCHED := ScriptEntry(1, External, 0, 0)], [OneScript()])
  }

  const GENESIS := Block(100, 0, [])
  const PAYING := Block(101, 100, [Tx(7, [], [DEPOSIT])])
  const SILENT := Block(102, 100, [])

  const PAID := [GENESIS, PAYING]
  const UNPAID := [GENESIS, SILENT]

  ghost const BLOCKS: iset<Block> := iset{GENESIS, PAYING, SILENT}

  lemma ExampleChains()
    ensures Binding(BLOCKS) && ValidChain(BLOCKS, GENESIS, PAID) && ValidChain(BLOCKS, GENESIS, UNPAID)
    ensures ValidChain(BLOCKS, GENESIS, [GENESIS])
  {
    assert PAID[..1] == [GENESIS] && UNPAID[..1] == [GENESIS] && [GENESIS][..0] == [];
    assert Txs([]) == [] && Txs([GENESIS]) == [];
    assert Txs(PAID) == PAYING.txs && Txs(UNPAID) == [];
  }

  const DEPOSITED := CapturedUtxo(1, COIN, DEPOSIT, SECRETS, External, 0, 1, false)

  lemma ExampleBlock()
    ensures BlockEvents(Watching(), 1, PAYING.txs) == [Create(DEPOSITED)]
  {
    var v, outs, txs := Watching(), [DEPOSIT], PAYING.txs;
    assert outs[..0] == [] && txs[..0] == [];
    assert OutputEvent(v, 1, COIN, DEPOSIT) == [Create(DEPOSITED)];
    assert OutputEvents(v, 1, 7, outs) == OutputEvents(v, 1, 7, []) + OutputEvent(v, 1, COIN, DEPOSIT);
    assert BlockEvents(v, 1, txs) == BlockEvents(v, 1, []) + TxEvents(v, 1, txs[0]);
    assert InputEvents([], 1) == [];
  }

  lemma EmptyRange(v: ScanView, c: seq<Block>, h: nat)
    requires h < |c| && c[h].txs == []
    ensures RangeEvents(v, c, h, h + 1) == []
  {
    SingleBlockRange(v, c, h);
  }

  lemma ExampleEvents()
    ensures ChainEvents(Watching(), PAID) == [Create(DEPOSITED)]
    ensures ChainEvents(Watching(), UNPAID) == [] && RangeEvents(Watching(), UNPAID, 1, 2) == []
  {
    var v := Watching();
    ExampleBlock();
    EmptyRange(v, PAID, 0);
    EmptyRange(v, UNPAID, 0);
    EmptyRange(v, UNPAID, 1);
    SingleBlockRange(v, PAID, 1);
    RangeConcat(v, PAID, 0, 1, 2);
    RangeConcat(v, UNPAID, 0, 1, 2);
    hide RangeEvents, BlockEvents;
  }

  lemma ExampleLedgers()
    ensures COIN in Ledger([Create(DEPOSITED)]) && !Ledger([Create(DEPOSITED)])[COIN].utxo.isSpent
    ensures COIN !in Ledger([])
  {
    var es := [Create(DEPOSITED)];
    CapturesAre(es, COIN);
    FirstSpendIs(es, COIN);
    assert es[0].Create? && es[0].utxo.outpoint == COIN;
  }

  /**
   A failure between the two rollbacks: the block store and the cursor are back
   at the ancestor, the records are not, and the next pass keeps the orphaned deposit.
   */
  lemma {:induction false} HalfRollbackLeavesPhantom()
    ensures Binding(BLOCKS) && ValidChain(BLOCKS, GENESIS, PAID) && ValidChain(BLOCKS, GENESIS, UNPAID)
    ensures var s := SyncedTo(Watching(), PAID);
            var half := InterruptedAt(Watching(), s, UNPAID, BetweenRollbacks);
            && CanStart(s, UNPAID) && LegalPhase(s, UNPAID, BetweenRollbacks)
            && half.tip == Some(SyncedTip(0, 100))
            && CanStart(half, UNPAID)
            && COIN in Unspent(Passed(Watching(), half, UNPAID).utxos)
            && COIN !in SyncedTo(Watching(), UNPAID).utxos
  {
    var v := Watching();
    ExampleChains();
    ExampleEvents();
    ExampleLedgers();
    hide RangeEvents, Ledger, Watching, ValidChain;
    var s := SyncedTo(v, PAID);
    assert Ancestor(s.blocks, UNPAID, 1) == 0;
    var half := BlocksRolledBack(s, 0);
    assert KeptBlocks(s.blocks, 0).Keys == {0};
    assert Passed(v, half, UNPAID).utxos == Scan(s.utxos, []);
  }

  /** Fresh stores, a pass over `c` cut short right after writing the captures of block 1. */
  lemma CutAfterCaptures(v: ScanView, c: seq<Block>)
    requires |c| == 2 && c[0].txs == []
    ensures LegalPhase(EMPTY, c, Reached(1, CapturesWritten))
    ensures var cut := InterruptedAt(v, EMPTY, c, Reached(1, CapturesWritten));
            cut.tip == None && cut.utxos == Upserted(map[], Created(BlockEvents(v, 1, c[1].txs)))
  {
    EmptyRange(v, c, 0);
    hide RangeEvents, BlockEvents, Upserted, Created;
    assert Scan(map[], []) == map[];
  }

  /** An unset cursor means a pass scans everything onto whatever is there. */
  lemma PassWithoutCursor(v: ScanView, s: State, c: seq<Block>)
    requires s.tip == None && CanStart(s, c)
    ensures Passed(v, s, c).utxos == Scan(s.utxos, ChainEvents(v, c))
  {
  }

  /** The cut pass is repaired over `c` exactly when `c` is as long and captures the deposit again. */
  lemma DepositCutIff(c: seq<Block>)
    requires ValidChain(BLOCKS, GENESIS, c)
    ensures var cut := InterruptedAt(Watching(), EMPTY, PAID, Reached(1, CapturesWritten));
            && LegalPhase(EMPTY, PAID, Reached(1, CapturesWritten)) && CanStart(cut, c)
            && (Passed(Watching(), cut, c) == SyncedTo(Watching(), c) <==>
                2 <= |c| && COIN in Captures(ChainEvents(Watching(), c)))
  {
    var v, phase := Watching(), Reached(1, CapturesWritten);
    ExampleChains();
    ExampleBlock();
    EmptyRange(v, PAID, 0);
    SingleBlockRange(v, PAID, 1);
    CutAfterCaptures(v, PAID);
    hide RangeEvents, BlockEvents, Watching, ValidChain, Passed, InterruptedAt, Created, Upserted;
    assert Replayed(v, []) == EMPTY;
    InterruptedScanIff(v, BLOCKS, GENESIS, [], PAID, 1, CapturesWritten, c);
    NothingLeft(v, PAID, 0, map[]);
    OneCreation(DEPOSITED, ChainEvents(v, c));
  }

  lemma OneCreation(u: CapturedUtxo, rest: seq<Event>)
    ensures Reappear([], [], [Create(u)], rest) <==> u.outpoint in Captures(rest)
  {
    assert [Create(u)][..0] == [];
    assert Captures([Create(u)]) == map[u.outpoint := u];
  }

  /**
   A first pass cut short after writing the deposit's block, and a node that then
   drops that block: the cursor is unset, so nothing is rolled back.
   */
  lemma {:induction false} AbortThenReorgLeavesPhantom()
    ensures Binding(BLOCKS) && ValidChain(BLOCKS, GENESIS, PAID) && ValidChain(BLOCKS, GENESIS, UNPAID)
    ensures LegalPhase(EMPTY, PAID, Reached(1, CapturesWritten))
    ensures var cut := InterruptedAt(Watching(), EMPTY, PAID, Reached(1, CapturesWritten));
            && cut.tip == None && CanStart(cut, UNPAID)
            && Passed(Watching(), cut, UNPAID) != SyncedTo(Watching(), UNPAID)
            && COIN in Unspent(Passed(Watching(), cut, UNPAID).utxos)
            && COIN !in SyncedTo(Watching(), UNPAID).utxos
  {
    var v := Watching();
    ExampleChains();
    ExampleEvents();
    ExampleLedgers();
    ExampleBlock();
    CutAfterCaptures(v, PAID);
    DepositCutIff(UNPAID);
    UpsertedAt(map[], [Create(DEPOSITED)], COIN);
    CapturesAre([Create(DEPOSITED)], COIN);
    assert [Create(DEPOSITED)][0].utxo == DEPOSITED;
    hide RangeEvents, BlockEvents, Ledger, Watching, Upserted, Captures, InterruptedAt, Passed, Created, ValidChain;
    var cut := InterruptedAt(v, EMPTY, PAID, Reached(1, CapturesWritten));
    PassWithoutCursor(v, cut, UNPAID);
    assert At(cut.utxos, COIN) == Some(Entry(DEPOSITED, None));
    assert Scan(cut.utxos, []) == cut.utxos;
  }

  /**
   The same cut, and a node that then shows the genesis block only: the pass
   completes with the dropped block still stored above the node's tip.
   */
  lemma {:induction false} AbortThenShorterLeavesBlock()
    ensures Binding(BLOCKS) && ValidChain(BLOCKS, GENESIS, PAID) && ValidChain(BLOCKS, GENESIS, [GENESIS])
    ensures LegalPhase(EMPTY, PAID, Reached(1, CapturesWritten))
    ensures var cut := InterruptedAt(Watching(), EMPTY, PAID, Reached(1, CapturesWritten));
            && Enabled(cut, [GENESIS])
            && Passed(Watching(), cut, [GENESIS]) != SyncedTo(Watching(), [GENESIS])
            && Passed(Watching(), cut, [GENESIS]).tip == Some(SyncedTip(0, 100))
            && 1 in Passed(Watching(), cut, [GENESIS]).blocks
            && 1 !in SyncedTo(Watching(), [GENESIS]).blocks
  {
    hide RangeEvents, BlockEvents, Ledger, Watching, Upserted, Created, Scan;
    ExampleChains();
    CutAfterCaptures(Watching(), PAID);
    DepositCutIff([GENESIS]);
  }

  /** A node whose tip is below the cursor stops every pass before it starts. */
  lemma {:induction false} ShorterChainDisables(v: ScanView, c: seq<Block>, c': seq<Block>)
    requires 0 < |c| && 0 < |c'| <= U32_MAX
    ensures Enabled(SyncedTo(v, c), c') <==> |c| <= |c'|
  {
  }
}
