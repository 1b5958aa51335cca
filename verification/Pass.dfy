/**
 One sync pass as a function of what the stores held and what the node shows,
 and every state a pass may be cut short in.
 */
module Pass {
  import opened Results
  import opened ChainModel
  import opened Events
  import opened Recovery
  import opened Matching
  import opened Stores

  /** What the two stores hold. */
  datatype State = State(blocks: map<nat, StoredBlock>, tip: Option<SyncedTip>, utxos: Store)

  const EMPTY := State(map[], None, map[])

  /** The node can be asked for its tip and for the hash at the cursor. */
  predicate CanStart(s: State, c: seq<Block>) {
    && 0 < |c| <= U32_MAX + 1
    && (s.tip.Some? ==> s.tip.value.height < |c|)
  }

  /** ... and `tip + 1` fits a u32: exactly when a pass over working stores completes. */
  predicate Enabled(s: State, c: seq<Block>) {
    CanStart(s, c) && |c| <= U32_MAX
  }

  predicate Matches(stored: map<nat, StoredBlock>, c: seq<Block>, h: nat)
    requires h < |c|
  {
    h in stored && stored[h].hash == c[h].hash
  }

  /** The first height at or below `from`, going down, where the hashes match; 0 if none does. */
  function Ancestor(stored: map<nat, StoredBlock>, c: seq<Block>, from: nat): (a: nat)
    requires from < |c|
    ensures a <= from
    ensures Matches(stored, c, a) || a == 0
    ensures forall h :: a < h <= from ==> !Matches(stored, c, h)
  {
    if Matches(stored, c, from) || from == 0 then from else Ancestor(stored, c, from - 1)
  }

  /** Where scanning starts, after any rollback. */
  datatype Plan = Plan(state: State, start: nat, reorgTo: Option<nat>)

  ghost function BlocksRolledBack(s: State, a: nat): State {
    State(KeptBlocks(s.blocks, a), KeptTip(s.blocks, s.tip, a), s.utxos)
  }

  ghost function BothRolledBack(s: State, a: nat): State {
    BlocksRolledBack(s, a).(utxos := RolledBack(s.utxos, a))
  }

  ghost function Prepare(s: State, c: seq<Block>): Plan
    requires CanStart(s, c)
  {
    match s.tip
    case None => Plan(s, 0, None)
    case Some(t) =>
      if c[t.height].hash == t.hash then Plan(s, t.height + 1, None)
      else
        var a := Ancestor(s.blocks, c, t.height);
        Plan(BothRolledBack(s, a), a + 1, Some(a))
  }

  /** The state after scanning blocks `lo..hi`, cursor not yet moved. */
  function Scanned(v: ScanView, s: State, c: seq<Block>, lo: nat, hi: nat): State
    requires hi <= |c|
  {
    State(StoredThrough(s.blocks, c, lo, hi), s.tip, Scan(s.utxos, RangeEvents(v, c, lo, hi)))
  }

  function StoredThrough(stored: map<nat, StoredBlock>, c: seq<Block>, lo: nat, hi: nat): (r: map<nat, StoredBlock>)
    requires hi <= |c|
    ensures forall h: nat :: h in r <==> h in stored || lo <= h < hi
    ensures forall h: nat :: h in r ==> r[h] == if lo <= h < hi then StoredBlock(c[h].hash, c[h]) else stored[h]
  {
    if hi <= lo then stored
    else StoredThrough(stored, c, lo, hi - 1)[hi - 1 := StoredBlock(c[hi - 1].hash, c[hi - 1])]
  }

  /** A completed pass. */
  ghost function Passed(v: ScanView, s: State, c: seq<Block>): State
    requires CanStart(s, c)
  {
    var p := Prepare(s, c);
    Scanned(v, p.state, c, p.start, |c|).(tip := Some(SyncedTip(|c| - 1, c[|c| - 1].hash)))
  }

  /** How far a pass got: nowhere, between the two rollbacks, or into the block at `height`. */
  datatype Phase = Untouched | BetweenRollbacks | Reached(height: nat, stage: Stage)
  datatype Stage = Before | BlockStored | CapturesWritten

  ghost predicate LegalPhase(s: State, c: seq<Block>, ph: Phase) {
    match ph
    case Untouched => true
    case BetweenRollbacks => CanStart(s, c) && Prepare(s, c).reorgTo.Some?
    case Reached(h, stage) =>
      CanStart(s, c) && Prepare(s, c).start <= h && (if stage.Before? then h <= |c| else h < |c|)
  }

  ghost function InterruptedAt(v: ScanView, s: State, c: seq<Block>, ph: Phase): State
    requires LegalPhase(s, c, ph)
  {
    match ph
    case Untouched => s
    case BetweenRollbacks => BlocksRolledBack(s, Prepare(s, c).reorgTo.value)
    case Reached(h, stage) => CutAt(v, Prepare(s, c).state, c, Prepare(s, c).start, h, stage)
  }

  /** A scan from `lo` cut short in the block at `h`. */
  function CutAt(v: ScanView, s: State, c: seq<Block>, lo: nat, h: nat, stage: Stage): State
    requires if stage.Before? then h <= |c| else h < |c|
  {
    BlockCut(v, Scanned(v, s, c, lo, h), c, h, stage)
  }

  /** One block's writes, up to and including `stage`. */
  function BlockCut(v: ScanView, s: State, c: seq<Block>, h: nat, stage: Stage): State
    requires if stage.Before? then h <= |c| else h < |c|
  {
    match stage
    case Before => s
    case BlockStored => s.(blocks := s.blocks[h := StoredBlock(c[h].hash, c[h])])
    case CapturesWritten =>
      s.(blocks := s.blocks[h := StoredBlock(c[h].hash, c[h])],
         utxos := Upserted(s.utxos, Created(BlockEvents(v, h, c[h].txs))))
  }

  // ------------------------------------------------------------------
  // Accounting
  // ------------------------------------------------------------------

  /** How many spend events hit an unspent record. */
  function Hits(m: Store, es: seq<Event>): nat {
    if es == [] then 0
    else
      var init, last := es[..|es| - 1], es[|es| - 1];
      Hits(m, init) + if last.Spend? && last.outpoint in Unspent(Scan(m, init)) then 1 else 0
  }

  lemma {:induction false} HitsConcat(m: Store, a: seq<Event>, b: seq<Event>)
    ensures Hits(m, a + b) == Hits(m, a) + Hits(Scan(m, a), b)
  {
    if b == [] {
      assert a + b == a;
    } else {
      var init := b[..|b| - 1];
      assert (a + b)[..|a + b| - 1] == a + init;
      HitsConcat(m, a, init);
      ScanConcat(m, a, init);
    }
  }

  lemma {:induction false} CreatedConcat(a: seq<Event>, b: seq<Event>)
    ensures Created(a + b) == Created(a) + Created(b)
  {
    if b == [] {
      assert a + b == a;
    } else {
      assert (a + b)[..|a + b| - 1] == a + b[..|b| - 1];
      CreatedConcat(a, b[..|b| - 1]);
    }
  }

  /** Watched outputs that could not be unblinded. */
  function SkippedOutputs(v: ScanView, outs: seq<TxOut>): nat {
    if outs == [] then 0
    else SkippedOutputs(v, outs[..|outs| - 1]) + if Skipped(v, outs[|outs| - 1]) then 1 else 0
  }

  function SkippedInBlock(v: ScanView, txs: seq<Tx>): nat {
    if txs == [] then 0 else SkippedInBlock(v, txs[..|txs| - 1]) + SkippedOutputs(v, txs[|txs| - 1].outputs)
  }

  function SkippedIn(v: ScanView, c: seq<Block>, lo: nat, hi: nat): nat
    requires hi <= |c|
  {
    if hi <= lo then 0 else SkippedIn(v, c, lo, hi - 1) + SkippedInBlock(v, c[hi - 1].txs)
  }

  datatype Counts = Counts(scanned: nat, captured: nat, spent: nat, skipped: nat)

  /** What scanning blocks `lo..hi` onto the records `m` adds up to. */
  function RangeCounts(v: ScanView, m: Store, c: seq<Block>, lo: nat, hi: nat): Counts
    requires lo <= hi <= |c|
  {
    Counts(hi - lo, |Created(RangeEvents(v, c, lo, hi))|, Hits(m, RangeEvents(v, c, lo, hi)), SkippedIn(v, c, lo, hi))
  }

  function Plus(a: Counts, b: Counts): Counts {
    Counts(a.scanned + b.scanned, a.captured + b.captured, a.spent + b.spent, a.skipped + b.skipped)
  }

  lemma NothingScanned(v: ScanView, s: State, c: seq<Block>, lo: nat)
    requires lo <= |c|
    ensures Scanned(v, s, c, lo, lo) == s
    ensures RangeCounts(v, s.utxos, c, lo, lo) == Counts(0, 0, 0, 0)
  {
  }

  /** Scanning one block more, in states ... */
  lemma ScanOneMore(v: ScanView, s: State, c: seq<Block>, lo: nat, h: nat)
    requires lo <= h < |c|
    ensures Scanned(v, Scanned(v, s, c, lo, h), c, h, h + 1) == Scanned(v, s, c, lo, h + 1)
  {
    BlockDone(v, Scanned(v, s, c, lo, h), c, h);
    EventsOneMore(v, s.utxos, c, lo, h);
    StoredOneMore(s.blocks, c, lo, h);
    hide Scan, RangeEvents, BlockEvents, StoredThrough;
  }

  lemma StoredOneMore(stored: map<nat, StoredBlock>, c: seq<Block>, lo: nat, h: nat)
    requires lo <= h < |c|
    ensures StoredThrough(stored, c, lo, h)[h := StoredBlock(c[h].hash, c[h])] == StoredThrough(stored, c, lo, h + 1)
  {
  }

  /** ... and in counts. */
  lemma CountOneMore(v: ScanView, s: State, c: seq<Block>, lo: nat, h: nat)
    requires lo <= h < |c|
    ensures RangeCounts(v, s.utxos, c, lo, h + 1) ==
            Plus(RangeCounts(v, s.utxos, c, lo, h), RangeCounts(v, Scanned(v, s, c, lo, h).utxos, c, h, h + 1))
  {
    hide Scan, RangeEvents, BlockEvents, StoredThrough, Hits, Created, SkippedIn, SkippedInBlock;
    BlockDone(v, Scanned(v, s, c, lo, h), c, h);
    EventsOneMore(v, s.utxos, c, lo, h);
    SkippedOneMore(v, c, lo, h);
  }

  lemma SkippedOneMore(v: ScanView, c: seq<Block>, lo: nat, h: nat)
    requires lo <= h < |c|
    ensures SkippedIn(v, c, lo, h + 1) == SkippedIn(v, c, lo, h) + SkippedInBlock(v, c[h].txs)
  {
  }

  lemma EventsOneMore(v: ScanView, m: Store, c: seq<Block>, lo: nat, h: nat)
    requires lo <= h < |c|
    ensures Scan(m, RangeEvents(v, c, lo, h + 1)) ==
            Scan(Scan(m, RangeEvents(v, c, lo, h)), BlockEvents(v, h, c[h].txs))
    ensures Hits(m, RangeEvents(v, c, lo, h + 1)) ==
            Hits(m, RangeEvents(v, c, lo, h)) + Hits(Scan(m, RangeEvents(v, c, lo, h)), BlockEvents(v, h, c[h].txs))
    ensures Created(RangeEvents(v, c, lo, h + 1)) ==
            Created(RangeEvents(v, c, lo, h)) + Created(BlockEvents(v, h, c[h].txs))
  {
    var es, here := RangeEvents(v, c, lo, h), BlockEvents(v, h, c[h].txs);
    ScanConcat(m, es, here);
    HitsConcat(m, es, here);
    CreatedConcat(es, here);
  }

  /** The writes of a whole block amount to scanning it. */
  lemma {:induction false} BlockDone(v: ScanView, s: State, c: seq<Block>, h: nat)
    requires h < |c|
    ensures Scanned(v, s, c, h, h + 1) ==
            State(s.blocks[h := StoredBlock(c[h].hash, c[h])], s.tip, Scan(s.utxos, BlockEvents(v, h, c[h].txs)))
    ensures RangeCounts(v, s.utxos, c, h, h + 1) ==
            Counts(1, |Created(BlockEvents(v, h, c[h].txs))|, Hits(s.utxos, BlockEvents(v, h, c[h].txs)),
                   SkippedInBlock(v, c[h].txs))
  {
    SingleBlockRange(v, c, h);
    StoredOneMore(s.blocks, c, h, h);
    assert StoredThrough(s.blocks, c, h, h) == s.blocks;
    SkippedOneMore(v, c, h, h);
    hide RangeEvents, BlockEvents, StoredThrough, Scan, Hits, Created, SkippedInBlock;
  }

  // ------------------------------------------------------------------
  // Inside a block
  // ------------------------------------------------------------------

  /**
   Where the engine stands after the events `es` of the block at `h`: what it
   means to commit, and a spend index that already runs ahead of the store `m`.
   */
  ghost predicate Pending(m: Store, h: nat, es: seq<Event>, index: set<OutPoint>,
                          captured: seq<CapturedUtxo>, spent: seq<OutPoint>)
  {
    && Committed(m, captured, spent, h) == Scan(m, es)
    && index == Unspent(Scan(m, es))
    && |spent| == Hits(m, es)
    && (forall op :: op in spent ==> Mentioned(es, op))
  }

  ghost predicate Mentioned(es: seq<Event>, op: OutPoint) {
    exists p :: 0 <= p < |es| && Subject(es[p]) == op
  }

  lemma MentionedMore(es: seq<Event>, e: Event, op: OutPoint)
    requires Mentioned(es, op) || op == Subject(e)
    ensures Mentioned(es + [e], op)
  {
    if Mentioned(es, op) {
      var p :| 0 <= p < |es| && Subject(es[p]) == op;
      assert (es + [e])[p] == es[p];
    } else {
      assert (es + [e])[|es|] == e;
    }
  }

  lemma {:induction false} PendingSpend(m: Store, h: nat, es: seq<Event>, index: set<OutPoint>,
                                       captured: seq<CapturedUtxo>, spent: seq<OutPoint>, op: OutPoint)
    requires Pending(m, h, es, index, captured, spent)
    ensures op in index ==> Pending(m, h, es + [Spend(op, h)], index - {op}, captured, spent + [op])
    ensures op !in index ==> Pending(m, h, es + [Spend(op, h)], index, captured, spent)
  {
    var more := es + [Spend(op, h)];
    assert more[..|more| - 1] == es;
    if op in index {
      CommitSpend(m, captured, spent, op, h);
      UnspentStep(Scan(m, es), Spend(op, h));
    }
    forall o | o in spent + [op]
      ensures Mentioned(more, o)
    {
      MentionedMore(es, Spend(op, h), o);
    }
  }

  lemma NotYetMentioned(es: seq<Event>, u: CapturedUtxo, op: OutPoint)
    requires WellOrdered(es + [Create(u)]) && Mentioned(es, op)
    ensures op != u.outpoint
  {
    var p :| 0 <= p < |es| && Subject(es[p]) == op;
    assert (es + [Create(u)])[p] == es[p] && (es + [Create(u)])[|es|] == Create(u);
  }

  lemma {:induction false} PendingCreate(m: Store, h: nat, es: seq<Event>, index: set<OutPoint>,
                                        captured: seq<CapturedUtxo>, spent: seq<OutPoint>, u: CapturedUtxo)
    requires Pending(m, h, es, index, captured, spent)
    requires WellOrdered(es + [Create(u)])
    ensures Pending(m, h, es + [Create(u)], index + {u.outpoint}, captured + [u], spent)
  {
    var more := es + [Create(u)];
    assert more[..|more| - 1] == es;
    forall o | o in spent
      ensures o != u.outpoint
    {
      NotYetMentioned(es, u, o);
    }
    assert !u.isSpent by {
      assert more[|es|] == Create(u);
    }
    CommitCapture(m, captured, spent, u, h);
    UnspentStep(Scan(m, es), Create(u));
    forall o | o in spent
      ensures Mentioned(more, o)
    {
      MentionedMore(es, Create(u), o);
    }
  }
}
