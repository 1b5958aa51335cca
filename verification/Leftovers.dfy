/**
 What unfinished passes leave behind, and exactly when the next pass puts it right.

 A pass cut short in the scan, one cut short between its two rollbacks, and one
 whose start height was clamped all leave stores of the same kind: the cursor
 below the last blocks written. If the node still shows the cursor's block, the
 next pass does not roll back, so the blocks above it must leave no trace that
 the node's own blocks do not leave again.
 */
module Leftovers {
  import opened Results
  import opened ChainModel
  import opened Events
  import opened Recovery
  import opened Matching
  import opened Stores
  import opened Pass
  import opened History

  // ------------------------------------------------------------------
  // Exact conditions
  // ------------------------------------------------------------------

  /** The cursor names block `n - 1` of the node's chain (or is unset, with `n` zero): no rollback happens. */
  ghost predicate CursorOn(s: State, c: seq<Block>, n: nat) {
    n <= |c| && s.tip == if n == 0 then None else Some(SyncedTip(n - 1, c[n - 1].hash))
  }

  /**
   A pass whose cursor the node still shows repairs the records exactly when
   every record already present is one the scan will leave right.
   */
  lemma {:induction false} RecordsResumeIff(v: ScanView, u: iset<Block>, g: Block, s: State, c: seq<Block>, n: nat)
    requires ValidChain(u, g, c) && CursorOn(s, c, n)
    ensures Passed(v, s, c).utxos == Ledger(ChainEvents(v, c)) <==>
            Recoverable(s.utxos, RangeEvents(v, c, 0, n), RangeEvents(v, c, n, |c|))
  {
    OrderedOn(v, u, g, c, n, |c|);
    RangeEventsAt(v, c, 0, n);
    RangeEventsAt(v, c, n, |c|);
    RangeConcat(v, c, 0, n, |c|);
    ScanRecoversIff(s.utxos, RangeEvents(v, c, 0, n), RangeEvents(v, c, n, |c|), n, |c|);
  }

  /** Every block up to the cursor is stored as the node shows it, and none is stored above the node's tip. */
  ghost predicate BlocksFit(stored: map<nat, StoredBlock>, c: seq<Block>, n: nat)
    requires n <= |c|
  {
    && (forall h :: h in stored ==> h < |c|)
    && (forall h :: 0 <= h < n ==> h in stored && stored[h] == StoredBlock(c[h].hash, c[h]))
  }

  lemma BlocksFitIff(stored: map<nat, StoredBlock>, c: seq<Block>, n: nat)
    requires n <= |c|
    ensures StoredThrough(stored, c, n, |c|) == StoredThrough(map[], c, 0, |c|) <==> BlocksFit(stored, c, n)
  {
    var after, all := StoredThrough(stored, c, n, |c|), StoredThrough(map[], c, 0, |c|);
    forall h | h in stored
      ensures h in after && (h < n ==> after[h] == stored[h])
    {
    }
    if after == all {
      forall h | h in stored
        ensures h < |c|
      {
        assert h in all;
      }
      forall h: nat | h < n
        ensures h in stored && stored[h] == StoredBlock(c[h].hash, c[h])
      {
        assert h in all && all[h] == StoredBlock(c[h].hash, c[h]);
      }
    }
  }

  /** Records, blocks and cursor reach the replay exactly when the records are recoverable and the blocks fit. */
  lemma {:induction false} ResumesIff(v: ScanView, u: iset<Block>, g: Block, s: State, c: seq<Block>, n: nat)
    requires ValidChain(u, g, c) && CursorOn(s, c, n)
    ensures Passed(v, s, c) == SyncedTo(v, c) <==>
            && Recoverable(s.utxos, RangeEvents(v, c, 0, n), RangeEvents(v, c, n, |c|))
            && BlocksFit(s.blocks, c, n)
  {
    RecordsResumeIff(v, u, g, s, c, n);
    BlocksFitIff(s.blocks, c, n);
  }

  // ------------------------------------------------------------------
  // Records of blocks the node has dropped
  // ------------------------------------------------------------------

  /**
   What the dropped blocks captured, the new blocks capture again, and spend if
   the dropped ones did; what the dropped blocks spent of older outputs, the new
   blocks first spend at the same height.
   */
  ghost predicate OrphanReappears(kept: seq<Event>, dropped: seq<Event>, rest: seq<Event>, op: OutPoint) {
    && (op in Captures(dropped) ==>
          op in Captures(rest) && (FirstSpend(dropped, op).Some? ==> FirstSpend(rest, op).Some?))
    && (op in Captures(kept) && FirstSpend(kept, op).None? && FirstSpend(dropped, op).Some? ==>
          FirstSpend(rest, op) == FirstSpend(dropped, op))
  }

  ghost predicate OrphansReappear(kept: seq<Event>, dropped: seq<Event>, rest: seq<Event>) {
    forall op :: OrphanReappears(kept, dropped, rest, op)
  }

  /** ... and what was written of the block after them before its spends were marked. */
  ghost predicate Reappear(kept: seq<Event>, dropped: seq<Event>, extra: seq<Event>, rest: seq<Event>) {
    && OrphansReappear(kept, dropped, rest)
    && forall op :: op in Captures(extra) ==> op in Captures(rest)
  }

  /** The records of `kept` and `dropped`, and the captures of `extra`. */
  ghost function LeftRecords(kept: seq<Event>, dropped: seq<Event>, extra: seq<Event>): Store {
    Upserted(Ledger(kept + dropped), Created(extra))
  }

  lemma OrphanIff(kept: seq<Event>, dropped: seq<Event>, rest: seq<Event>, op: OutPoint)
    requires WellOrdered(kept + dropped) && WellOrdered(kept + rest)
    ensures OrphanReappears(kept, dropped, rest, op) <==>
            (op in Ledger(kept + dropped) ==> EntryRecoverable(Ledger(kept + dropped)[op], kept, rest, op))
  {
    CapturesConcat(kept, dropped);
    FirstSpendConcat(kept, dropped, op);
    WellOrderedParts(kept, dropped);
    if op in Captures(dropped) {
      CreatedLater(kept, dropped, op);
    }
    if op in Captures(rest) {
      CreatedLater(kept, rest, op);
    }
    if op in Captures(kept) {
      CapturedUnspent(kept, op);
    }
  }

  /** An outpoint captured by `extra` is new to what came before, so only its capture can put it right. */
  lemma ExtraIff(kept: seq<Event>, dropped: seq<Event>, extra: seq<Event>, rest: seq<Event>, op: OutPoint)
    requires WellOrdered((kept + dropped) + extra) && WellOrdered(kept + rest)
    ensures var m := LeftRecords(kept, dropped, extra);
            (op in m ==> EntryRecoverable(m[op], kept, rest, op)) <==>
            OrphanReappears(kept, dropped, rest, op) && (op in Captures(extra) ==> op in Captures(rest))
  {
    hide WellOrdered, Ledger, Upserted, Created, EntryRecoverable, OrphanReappears;
    var before, m := Ledger(kept + dropped), LeftRecords(kept, dropped, extra);
    UpsertedAt(before, extra, op);
    WellOrderedParts(kept + dropped, extra);
    OrphanIff(kept, dropped, rest, op);
    if op in Captures(extra) {
      CreatedLater(kept + dropped, extra, op);
      NewOrphan(kept, dropped, rest, op, m[op]);
    } else {
      assert At(m, op) == At(before, op);
    }
  }

  lemma NewOrphan(kept: seq<Event>, dropped: seq<Event>, rest: seq<Event>, op: OutPoint, e: Entry)
    requires op !in Captures(kept + dropped) && e.spentHeight.None?
    ensures OrphanReappears(kept, dropped, rest, op)
    ensures EntryRecoverable(e, kept, rest, op) <==> op in Captures(rest)
  {
    CapturesConcat(kept, dropped);
  }

  lemma ReappearIff(kept: seq<Event>, dropped: seq<Event>, extra: seq<Event>, rest: seq<Event>)
    requires WellOrdered((kept + dropped) + extra) && WellOrdered(kept + rest)
    ensures Recoverable(LeftRecords(kept, dropped, extra), kept, rest) <==> Reappear(kept, dropped, extra, rest)
  {
    var m := LeftRecords(kept, dropped, extra);
    forall op
      ensures (op in m ==> EntryRecoverable(m[op], kept, rest, op)) <==>
              OrphanReappears(kept, dropped, rest, op) && (op in Captures(extra) ==> op in Captures(rest))
    {
      ExtraIff(kept, dropped, extra, rest, op);
    }
    forall op | op in Captures(kept)
      ensures op in m
    {
      CapturesConcat(kept, dropped);
      UpsertedAt(Ledger(kept + dropped), extra, op);
      assert At(m, op).Some?;
    }
  }

  // ------------------------------------------------------------------
  // Stores with the cursor below the last blocks written
  // ------------------------------------------------------------------

  /**
   The cursor names block `n - 1` of `c0`; the records are those of the blocks
   below `m` and the captures of blocks `m..k`; every stored block is one of `c0`.
   */
  ghost predicate LeftOver(v: ScanView, c0: seq<Block>, n: nat, m: nat, k: nat, s: State) {
    && n <= m <= k <= |c0|
    && CursorOn(s, c0, n)
    && s.utxos == LeftRecords(RangeEvents(v, c0, 0, n), RangeEvents(v, c0, n, m), RangeEvents(v, c0, m, k))
    && (forall h :: h in s.blocks ==> h < |c0| && s.blocks[h] == StoredBlock(c0[h].hash, c0[h]))
    && (forall h :: 0 <= h < n ==> h in s.blocks)
  }

  lemma LeftRecordsSound(kept: seq<Event>, dropped: seq<Event>, extra: seq<Event>, todo: seq<Event>, n: nat, m: nat)
    requires WellOrdered((kept + dropped) + (extra + todo)) && HeightsWithin(kept, 0, n) && HeightsWithin(dropped, n, m)
    ensures Sound(LeftRecords(kept, dropped, extra), kept, dropped + (extra + todo))
  {
    hide WellOrdered, Sound, Ledger, Scan, Upserted, Created;
    var none: seq<Event>, more := [], extra + todo;
    WellOrderedParts(kept + dropped, more);
    WellOrderedParts(kept, dropped);
    assert (kept + dropped) + more == kept + (dropped + more);
    assert kept + none == kept && none + (dropped + more) == dropped + more;
    LedgerIsSound(kept, n);
    SoundExtends(Ledger(kept), kept, none, dropped + more);
    SoundScan(Ledger(kept), kept, dropped, more);
    ScanOnReplay(kept, dropped, n, m);
    SoundUpsert(Ledger(kept + dropped), kept, dropped, extra, todo);
  }

  lemma LeftOverResumable(v: ScanView, u: iset<Block>, g: Block, c0: seq<Block>, n: nat, m: nat, k: nat, s: State)
    requires ValidChain(u, g, c0) && LeftOver(v, c0, n, m, k, s)
    ensures Resumable(v, c0, n, s)
  {
    hide WellOrdered, Sound, RangeEvents, LeftRecords, ValidChain;
    RangeConcat(v, c0, n, m, |c0|);
    RangeConcat(v, c0, m, k, |c0|);
    OrderedOn(v, u, g, c0, n, |c0|);
    RangeEventsAt(v, c0, 0, n);
    RangeEventsAt(v, c0, n, m);
    var kept, dropped, extra, todo := RangeEvents(v, c0, 0, n), RangeEvents(v, c0, n, m), RangeEvents(v, c0, m, k),
        RangeEvents(v, c0, k, |c0|);
    assert (kept + dropped) + (extra + todo) == kept + (dropped + (extra + todo));
    LeftRecordsSound(kept, dropped, extra, todo, n, m);
  }

  /** While the node shows the cursor's block: no rollback, and everything above it must come again. */
  lemma LeftOverOnSameCursor(v: ScanView, u: iset<Block>, g: Block, c0: seq<Block>, n: nat, m: nat, k: nat, s: State,
                             c: seq<Block>)
    requires ValidChain(u, g, c0) && ValidChain(u, g, c) && LeftOver(v, c0, n, m, k, s)
    requires n <= |c| && c0[..n] == c[..n]
    ensures var again := Reappear(RangeEvents(v, c0, 0, n), RangeEvents(v, c0, n, m), RangeEvents(v, c0, m, k),
                                  RangeEvents(v, c, n, |c|));
            && CursorOn(s, c, n)
            && (Passed(v, s, c).utxos == Ledger(ChainEvents(v, c)) <==> again)
            && (Passed(v, s, c) == SyncedTo(v, c) <==> again && forall h :: h in s.blocks ==> h < |c|)
  {
    hide WellOrdered, RangeEvents, LeftRecords, ValidChain, Recoverable, Reappear, Ledger, Passed, SyncedTo;
    assert n > 0 ==> c0[..n][n - 1] == c[..n][n - 1];
    assert forall h :: 0 <= h < n ==> c0[..n][h] == c[..n][h];
    ResumesIff(v, u, g, s, c, n);
    RecordsResumeIff(v, u, g, s, c, n);
    RangeOfPrefix(v, c, 0, n, n);
    RangeOfPrefix(v, c0, 0, n, n);
    OrderedOn(v, u, g, c, n, |c|);
    OrderedOn(v, u, g, c0, n, k);
    RangeConcat(v, c0, n, m, k);
    var kept, dropped, extra := RangeEvents(v, c0, 0, n), RangeEvents(v, c0, n, m), RangeEvents(v, c0, m, k);
    assert kept + (dropped + extra) == (kept + dropped) + extra;
    ReappearIff(kept, dropped, extra, RangeEvents(v, c, n, |c|));
  }

  /**
   The next pass ends in the replay of the node's chain exactly when the node no
   longer shows the cursor's block, or every block left over is within its chain
   and leaves no trace above the cursor that the node's blocks do not leave again.
   */
  lemma {:induction false} LeftOverIff(v: ScanView, u: iset<Block>, g: Block, c0: seq<Block>, n: nat, m: nat, k: nat,
                                       s: State, c: seq<Block>)
    requires Binding(u) && ValidChain(u, g, c0) && ValidChain(u, g, c) && LeftOver(v, c0, n, m, k, s) && n <= |c|
    ensures var again := c0[..n] != c[..n] || Reappear(RangeEvents(v, c0, 0, n), RangeEvents(v, c0, n, m),
                                                       RangeEvents(v, c0, m, k), RangeEvents(v, c, n, |c|));
            var within := c0[..n] != c[..n] || forall h :: h in s.blocks ==> h < |c|;
            && CanStart(s, c)
            && (Passed(v, s, c).utxos == Ledger(ChainEvents(v, c)) <==> again)
            && (Passed(v, s, c) == SyncedTo(v, c) <==> again && within)
  {
    hide WellOrdered, RangeEvents, Ledger, LeftRecords, Reappear, OrderedTxs, Txs, Linked, Binding, Passed;
    if c0[..n] == c[..n] {
      LeftOverOnSameCursor(v, u, g, c0, n, m, k, s, c);
    } else {
      LeftOverResumable(v, u, g, c0, n, m, k, s);
      OtherCursor(u, g, c0, c, n);
      PassCompletes(v, u, g, c0, n, s, c);
    }
  }

  lemma OtherCursor(u: iset<Block>, g: Block, c0: seq<Block>, c: seq<Block>, n: nat)
    requires Binding(u) && ValidChain(u, g, c0) && ValidChain(u, g, c) && n <= |c0| && n <= |c| && c0[..n] != c[..n]
    ensures n > 0 && c0[n - 1] != c[n - 1]
  {
    if n > 0 && c0[n - 1] == c[n - 1] {
      HashBindsPrefix(u, c0, c, n - 1);
    }
  }

  // ------------------------------------------------------------------
  // A scan cut short
  // ------------------------------------------------------------------

  /** How many blocks a scan cut short at `h`, `stage` has written the records of. */
  function Upto(h: nat, stage: Stage): nat {
    if stage.CapturesWritten? then h + 1 else h
  }

  lemma CutRecords(v: ScanView, s: State, c: seq<Block>, n: nat, h: nat, stage: Stage)
    requires n <= h && Seen(h, stage) <= |c|
    ensures CutAt(v, s, c, n, h, stage).utxos ==
            Upserted(Scan(s.utxos, RangeEvents(v, c, n, h)), Created(RangeEvents(v, c, h, Upto(h, stage))))
    ensures CutAt(v, s, c, n, h, stage).tip == s.tip
  {
    hide RangeEvents, BlockEvents, Scan, Upserted, Created;
    if stage.CapturesWritten? {
      SingleBlockRange(v, c, h);
    } else {
      NothingLeft(v, c, h, Scan(s.utxos, RangeEvents(v, c, n, h)));
    }
  }

  lemma CutBlocks(v: ScanView, s: State, c: seq<Block>, n: nat, h: nat, stage: Stage)
    requires n <= h && Seen(h, stage) <= |c|
    requires forall x: nat :: x in s.blocks <==> x < n
    requires forall x: nat :: x < n ==> s.blocks[x] == StoredBlock(c[x].hash, c[x])
    ensures var blocks := CutAt(v, s, c, n, h, stage).blocks;
            && (forall x: nat :: x in blocks <==> x < Seen(h, stage))
            && (forall x: nat :: x in blocks ==> blocks[x] == StoredBlock(c[x].hash, c[x]))
  {
    hide RangeEvents, BlockEvents, Scan, Upserted, Created;
  }

  lemma ReplayedPrefix(v: ScanView, c: seq<Block>, n: nat)
    requires n <= |c|
    ensures var s := Replayed(v, c[..n]);
            && CursorOn(s, c, n)
            && (forall x: nat :: x in s.blocks <==> x < n)
            && (forall x: nat :: x < n ==> s.blocks[x] == StoredBlock(c[x].hash, c[x]))
            && s.utxos == Ledger(RangeEvents(v, c, 0, n))
  {
    RangeOfPrefix(v, c, 0, n, n);
    NothingLeft(v, c, 0, map[]);
    assert n > 0 ==> c[..n][n - 1] == c[n - 1];
  }

  lemma CutLeaves(v: ScanView, u: iset<Block>, g: Block, c0: seq<Block>, n: nat, h: nat, stage: Stage)
    requires ValidChain(u, g, c0) && n <= h && Seen(h, stage) <= |c0|
    ensures LeftOver(v, c0, n, h, Upto(h, stage), CutAt(v, Replayed(v, c0[..n]), c0, n, h, stage))
    ensures forall x: nat :: x in CutAt(v, Replayed(v, c0[..n]), c0, n, h, stage).blocks <==> x < Seen(h, stage)
  {
    hide WellOrdered, RangeEvents, Ledger, Scan, Upserted, Created, ValidChain, CutAt, Replayed;
    var s := Replayed(v, c0[..n]);
    ReplayedPrefix(v, c0, n);
    CutRecords(v, s, c0, n, h, stage);
    CutBlocks(v, s, c0, n, h, stage);
    OrderedOn(v, u, g, c0, n, h);
    RangeEventsAt(v, c0, 0, n);
    RangeEventsAt(v, c0, n, h);
    ScanOnReplay(RangeEvents(v, c0, 0, n), RangeEvents(v, c0, n, h), n, h);
  }

  lemma NothingLeft(v: ScanView, c: seq<Block>, h: nat, m: Store)
    requires h <= |c|
    ensures RangeEvents(v, c, h, h) == [] && Captures([]) == map[] && Upserted(m, Created([])) == m
  {
  }

  /**
   A clean pass over `c0` is cut short in the scan; the next pass over `c` ends in
   the replay exactly when the node no longer shows the block below the start, or
   it shows at least as many blocks as were written and these leave every trace
   above the start that the cut pass left there.
   */
  lemma {:induction false} InterruptedScanIff(v: ScanView, u: iset<Block>, g: Block, p: seq<Block>, c0: seq<Block>,
                                              h: nat, stage: Stage, c: seq<Block>)
    requires Binding(u) && Applied(u, g, p) && ValidChain(u, g, c0) && ValidChain(u, g, c)
    requires LegalPhase(Replayed(v, p), c0, Reached(h, stage)) && Prepare(Replayed(v, p), c0).start <= |c|
    ensures var n := Prepare(Replayed(v, p), c0).start;
            var cut := InterruptedAt(v, Replayed(v, p), c0, Reached(h, stage));
            && n <= h <= |c0| && Upto(h, stage) <= |c0| && CanStart(cut, c)
            && (Passed(v, cut, c) == SyncedTo(v, c) <==>
                || c0[..n] != c[..n]
                || (&& Seen(h, stage) <= |c|
                    && Reappear(RangeEvents(v, c0, 0, n), RangeEvents(v, c0, n, h),
                                RangeEvents(v, c0, h, Upto(h, stage)), RangeEvents(v, c, n, |c|))))
  {
    hide WellOrdered, RangeEvents, Ledger, LeftOver, Reappear, OrderedTxs, Txs, Linked, Binding, Passed, CutAt, Prepare,
         Replayed, SyncedTo, InterruptedAt;
    var s, n := Replayed(v, p), Prepare(Replayed(v, p), c0).start;
    CleanStart(v, u, g, p, c0);
    CutFromStart(v, s, c0, h, stage);
    var cut := CutAt(v, Replayed(v, c0[..n]), c0, n, h, stage);
    CutLeaves(v, u, g, c0, n, h, stage);
    assert (forall x :: x in cut.blocks ==> x < |c|) <==> Seen(h, stage) <= |c| by {
      assert Seen(h, stage) > 0 && Seen(h, stage) > |c| ==> |c| in cut.blocks;
    }
    LeftOverIff(v, u, g, c0, n, h, Upto(h, stage), cut, c);
  }

  lemma CutFromStart(v: ScanView, s: State, c: seq<Block>, h: nat, stage: Stage)
    requires LegalPhase(s, c, Reached(h, stage))
    ensures Prepare(s, c).start <= h && Seen(h, stage) <= |c|
    ensures InterruptedAt(v, s, c, Reached(h, stage)) == CutAt(v, Prepare(s, c).state, c, Prepare(s, c).start, h, stage)
  {
  }

  /** A clean pass starts to scan from the replay of the blocks below its start. */
  lemma CleanStart(v: ScanView, u: iset<Block>, g: Block, p: seq<Block>, c: seq<Block>)
    requires Binding(u) && Applied(u, g, p) && ValidChain(u, g, c) && CanStart(Replayed(v, p), c)
    ensures var plan := Prepare(Replayed(v, p), c);
            plan.start <= |c| && plan.state == Replayed(v, c[..plan.start])
  {
    hide Sound, RangeEvents, OrderedTxs, Txs, Ledger, StoredThrough;
    var s := Replayed(v, p);
    ReplayedIsResumable(v, u, g, p);
    CleanIsHarmless(v, u, g, World(s, c, p, |p|));
    PreparedResumable(v, u, g, p, |p|, s, c);
    var n := Prepare(s, c).start;
    if Prepare(s, c).reorgTo.None? {
      assert p == c[..n];
    }
  }

  /** A clean pass ends in the replay. */
  lemma CleanPassEnds(w: ScanView, u: iset<Block>, g: Block, c0: seq<Block>, c: seq<Block>)
    requires Binding(u) && Applied(u, g, c0) && ValidChain(u, g, c) && CanStart(Replayed(w, c0), c)
    ensures Passed(w, Replayed(w, c0), c) == SyncedTo(w, c) == Replayed(w, c)
  {
    hide Sound, RangeEvents, OrderedTxs, Txs, Linked, Ledger, Passed;
    ReplayedIsResumable(w, u, g, c0);
    CleanIsHarmless(w, u, g, World(Replayed(w, c0), c, c0, |c0|));
    PassCompletes(w, u, g, c0, |c0|, Replayed(w, c0), c);
  }

  // ------------------------------------------------------------------
  // A rollback cut in half
  // ------------------------------------------------------------------

  /** A replay whose rollback stopped after the block store: the cursor names the last common block, the blocks fit. */
  lemma HalfRolledBack(v: ScanView, u: iset<Block>, g: Block, c0: seq<Block>, c: seq<Block>)
    requires Binding(u) && ValidChain(u, g, c0) && ValidChain(u, g, c)
    requires LegalPhase(SyncedTo(v, c0), c, BetweenRollbacks)
    ensures var s, n := SyncedTo(v, c0), Prepare(SyncedTo(v, c0), c).start;
            var half := InterruptedAt(v, s, c, BetweenRollbacks);
            && 0 < n < |c0| && n <= |c| && c0[..n] == c[..n]
            && half.utxos == s.utxos && CursorOn(half, c, n) && BlocksFit(half.blocks, c[..n], n)
  {
    hide Sound, RangeEvents, OrderedTxs, Txs, Linked, Binding, Resumable, SyncedTo, Prepare, Ancestor, CursorOn,
         BlocksFit, StoredThrough, InterruptedAt, BlocksRolledBack, BothRolledBack;
    var s := SyncedTo(v, c0);
    RollbackPlan(v, s, c);
    SyncedIsResumable(v, u, g, c0);
    SyncedFacts(v, u, g, c0);
    AncestorIsForkPoint(v, u, g, c0, |c0|, s, c);
    var a := Ancestor(s.blocks, c, |c0| - 1);
    CursorBlocks(c0, c);
    BlocksRollBack(v, c0, |c0|, s, a);
    PrefixFits(BlocksRolledBack(s, a), c0, c, a);
  }

  /** A pass that rolls back found another hash at the cursor. */
  lemma RollbackPlan(v: ScanView, s: State, c: seq<Block>)
    requires LegalPhase(s, c, BetweenRollbacks)
    ensures s.tip.Some? && c[s.tip.value.height].hash != s.tip.value.hash
    ensures var a := Ancestor(s.blocks, c, s.tip.value.height);
            && Prepare(s, c) == Plan(BothRolledBack(s, a), a + 1, Some(a))
            && InterruptedAt(v, s, c, BetweenRollbacks) == BlocksRolledBack(s, a)
            && BothRolledBack(s, a) == BlocksRolledBack(s, a).(utxos := RolledBack(s.utxos, a))
            && BlocksRolledBack(s, a).utxos == s.utxos
  {
  }

  lemma CursorBlocks(c0: seq<Block>, c: seq<Block>)
    ensures 0 < |c0| <= |c| && c[|c0| - 1].hash != c0[|c0| - 1].hash ==> c0[|c0| - 1] != c[|c0| - 1]
  {
  }

  lemma PrefixFits(half: State, c0: seq<Block>, c: seq<Block>, a: nat)
    requires a < |c0| && a < |c| && c0[..a + 1] == c[..a + 1]
    requires half.blocks == StoredThrough(map[], c0[..a + 1], 0, a + 1) && half.tip == Some(SyncedTip(a, c0[a].hash))
    ensures CursorOn(half, c, a + 1) && BlocksFit(half.blocks, c[..a + 1], a + 1)
  {
    assert c0[..a + 1][a] == c[..a + 1][a];
    forall h: nat | h < a + 1
      ensures h in half.blocks && half.blocks[h] == StoredBlock(c[h].hash, c[h])
    {
      assert c0[..a + 1][h] == c[..a + 1][h];
    }
  }

  /** A half-done rollback leaves the records of the whole old chain over the cursor and blocks of the common prefix. */
  lemma HalfLeaves(v: ScanView, u: iset<Block>, g: Block, c0: seq<Block>, c: seq<Block>)
    requires Binding(u) && ValidChain(u, g, c0) && ValidChain(u, g, c)
    requires LegalPhase(SyncedTo(v, c0), c, BetweenRollbacks)
    ensures var n := Prepare(SyncedTo(v, c0), c).start;
            var half := InterruptedAt(v, SyncedTo(v, c0), c, BetweenRollbacks);
            && LeftOver(v, c0, n, |c0|, |c0|, half) && c0[..n] == c[..n]
            && forall h :: h in half.blocks ==> h < n
  {
    hide RangeEvents, ValidChain, Binding, Prepare, InterruptedAt, Ledger, Created;
    HalfRolledBack(v, u, g, c0, c);
    var n := Prepare(SyncedTo(v, c0), c).start;
    RangeConcat(v, c0, 0, n, |c0|);
    NothingLeft(v, c0, |c0|, Ledger(ChainEvents(v, c0)));
    assert c0[..n][n - 1] == c[..n][n - 1];
    assert forall h :: 0 <= h < n ==> c0[..n][h] == c[..n][h];
  }

  /**
   A pass over `c` is cut between the two rollbacks. The next pass, over any chain
   that reaches the cursor, ends in the replay exactly when the node no longer
   shows the cursor's block, or its blocks leave every trace above the cursor that
   the orphaned blocks left there.
   */
  lemma {:induction false} HalfRollbackIff(v: ScanView, u: iset<Block>, g: Block, c0: seq<Block>, c: seq<Block>,
                                           c': seq<Block>)
    requires Binding(u) && ValidChain(u, g, c0) && ValidChain(u, g, c) && ValidChain(u, g, c')
    requires LegalPhase(SyncedTo(v, c0), c, BetweenRollbacks) && Prepare(SyncedTo(v, c0), c).start <= |c'|
    ensures var n := Prepare(SyncedTo(v, c0), c).start;
            var half := InterruptedAt(v, SyncedTo(v, c0), c, BetweenRollbacks);
            && n <= |c0| && n <= |c| && c0[..n] == c[..n] && CanStart(half, c')
            && (Passed(v, half, c') == SyncedTo(v, c') <==>
                || c[..n] != c'[..n]
                || OrphansReappear(RangeEvents(v, c, 0, n), RangeEvents(v, c0, n, |c0|), RangeEvents(v, c', n, |c'|)))
            && (Passed(v, half, c').utxos == Ledger(ChainEvents(v, c')) <==> Passed(v, half, c') == SyncedTo(v, c'))
  {
    hide WellOrdered, RangeEvents, Ledger, LeftOver, OrphansReappear, ValidChain, Binding, Passed, InterruptedAt,
         Prepare, SyncedTo;
    HalfRolledBack(v, u, g, c0, c);
    HalfLeaves(v, u, g, c0, c);
    var n := Prepare(SyncedTo(v, c0), c).start;
    var half := InterruptedAt(v, SyncedTo(v, c0), c, BetweenRollbacks);
    RangeOfPrefix(v, c0, 0, n, n);
    RangeOfPrefix(v, c, 0, n, n);
    NothingLeft(v, c0, |c0|, map[]);
    LeftOverIff(v, u, g, c0, n, |c0|, |c0|, half, c');
  }
}
