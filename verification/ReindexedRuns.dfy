/**
 Runs in which the engine is built afresh for every pass, each with an index of its
 own: which index every record comes from, and when the stores are nevertheless
 the replay under one index.
 */
module ReindexedRuns {
  import opened Results
  import opened ChainModel
  import opened Events
  import opened Recovery
  import opened Matching
  import opened Pass
  import opened History
  import opened Leftovers
  import opened Reindexing

  // ------------------------------------------------------------------
  // A chain read under an index per block
  // ------------------------------------------------------------------

  /** The events of blocks `lo..hi`, block `h` read under `views[h]`. */
  function MixedEvents(views: seq<ScanView>, c: seq<Block>, lo: nat, hi: nat): seq<Event>
    requires hi <= |c| && hi <= |views|
  {
    if hi <= lo then []
    else MixedEvents(views, c, lo, hi - 1) + BlockEvents(views[hi - 1], hi - 1, c[hi - 1].txs)
  }

  lemma {:induction false} MixedConcat(views: seq<ScanView>, c: seq<Block>, lo: nat, mid: nat, hi: nat)
    requires lo <= mid <= hi <= |c| && hi <= |views|
    ensures MixedEvents(views, c, lo, mid) + MixedEvents(views, c, mid, hi) == MixedEvents(views, c, lo, hi)
  {
    hide BlockEvents;
    if mid < hi {
      MixedConcat(views, c, lo, mid, hi - 1);
      var here := BlockEvents(views[hi - 1], hi - 1, c[hi - 1].txs);
      assert MixedEvents(views, c, lo, mid) + (MixedEvents(views, c, mid, hi - 1) + here) ==
             (MixedEvents(views, c, lo, mid) + MixedEvents(views, c, mid, hi - 1)) + here;
    }
  }

  lemma {:induction false} MixedAt(views: seq<ScanView>, c: seq<Block>, lo: nat, hi: nat)
    requires hi <= |c| && hi <= |views|
    ensures HeightsWithin(MixedEvents(views, c, lo, hi), lo, hi)
  {
    hide BlockEvents;
    if lo < hi {
      MixedAt(views, c, lo, hi - 1);
      BlockEventsAt(views[hi - 1], hi - 1, c[hi - 1].txs);
    }
  }

  lemma {:induction false} MixedAgrees(views: seq<ScanView>, views': seq<ScanView>, c: seq<Block>, c': seq<Block>,
                                       lo: nat, hi: nat)
    requires hi <= |c| && hi <= |c'| && hi <= |views| && hi <= |views'|
    requires forall h :: lo <= h < hi ==> views[h] == views'[h] && c[h] == c'[h]
    ensures MixedEvents(views, c, lo, hi) == MixedEvents(views', c', lo, hi)
  {
    if lo < hi {
      MixedAgrees(views, views', c, c', lo, hi - 1);
    }
  }

  lemma {:induction false} MixedUnderOne(views: seq<ScanView>, w: ScanView, c: seq<Block>, lo: nat, hi: nat)
    requires hi <= |c| && hi <= |views| && forall h :: lo <= h < hi ==> views[h] == w
    ensures MixedEvents(views, c, lo, hi) == RangeEvents(w, c, lo, hi)
  {
    if lo < hi {
      MixedUnderOne(views, w, c, lo, hi - 1);
    }
  }

  /** Whatever the indexes, no event mentions an outpoint before its creation. */
  lemma {:induction false} MixedFresh(views: seq<ScanView>, c: seq<Block>, k: nat)
    requires OrderedTxs(Txs(c)) && k <= |c| && k <= |views|
    ensures WellOrdered(MixedEvents(views, c, 0, k)) && ComesFrom(MixedEvents(views, c, 0, k), Txs(c[..k]))
  {
    hide WellOrdered, ComesFrom, OrderedTxs, BlockEvents;
    TxsPrefix(c, k);
    OrderedPrefix(Txs(c), |Txs(c[..k])|);
    assert Txs(c)[..|Txs(c[..k])|] == Txs(c[..k]);
    if k == 0 {
      NothingMixed(views, c);
    } else {
      MixedFresh(views, c, k - 1);
      assert c[..k][..k - 1] == c[..k - 1];
      FreshBlock(views[k - 1], k - 1, MixedEvents(views, c, 0, k - 1), Txs(c[..k - 1]), c[k - 1].txs);
    }
  }

  lemma NothingMixed(views: seq<ScanView>, c: seq<Block>)
    ensures MixedEvents(views, c, 0, 0) == [] && WellOrdered([]) && ComesFrom([], Txs(c[..0]))
  {
  }

  lemma {:induction false} MixedSpends(views: seq<ScanView>, w: ScanView, c: seq<Block>, hi: nat, op: OutPoint)
    requires hi <= |c| && hi <= |views|
    ensures FirstSpend(MixedEvents(views, c, 0, hi), op) == FirstSpend(RangeEvents(w, c, 0, hi), op)
  {
    hide BlockEvents;
    if hi > 0 {
      MixedSpends(views, w, c, hi - 1, op);
      SameBlockSpends(views[hi - 1], w, hi - 1, c[hi - 1].txs, op);
      FirstSpendConcat(MixedEvents(views, c, 0, hi - 1), BlockEvents(views[hi - 1], hi - 1, c[hi - 1].txs), op);
      FirstSpendConcat(RangeEvents(w, c, 0, hi - 1), BlockEvents(w, hi - 1, c[hi - 1].txs), op);
    }
  }

  // ------------------------------------------------------------------
  // One pass
  // ------------------------------------------------------------------

  /** Stores that hold the blocks of `c` and the records its blocks call for, each under its own index. */
  ghost function MixedState(views: seq<ScanView>, c: seq<Block>): State
    requires |views| == |c|
  {
    if c == [] then EMPTY
    else State(StoredThrough(map[], c, 0, |c|), Some(SyncedTip(|c| - 1, c[|c| - 1].hash)),
               Ledger(MixedEvents(views, c, 0, |c|)))
  }

  /** A pass under `w` that starts at `n` reads the blocks from `n` on under `w`, and none below. */
  function Rescanned(views: seq<ScanView>, n: nat, len: nat, w: ScanView): (r: seq<ScanView>)
    ensures |r| == len
  {
    seq(len, h requires 0 <= h < len => if h < n && h < |views| then views[h] else w)
  }

  /** Where a pass starts and what it makes of blocks and cursor has nothing to do with the records. */
  lemma SamePlan(s: State, t: State, c: seq<Block>)
    requires s.blocks == t.blocks && s.tip == t.tip && CanStart(s, c)
    ensures CanStart(t, c)
    ensures var plan, other := Prepare(s, c), Prepare(t, c);
            && plan.start == other.start && plan.reorgTo == other.reorgTo
            && plan.state.blocks == other.state.blocks && plan.state.tip == other.state.tip
            && plan.state.utxos == if plan.reorgTo.Some? then RolledBack(s.utxos, plan.start - 1) else s.utxos
  {
  }

  lemma SamePass(v: ScanView, w: ScanView, s: State, t: State, c: seq<Block>)
    requires s.blocks == t.blocks && s.tip == t.tip && CanStart(s, c)
    ensures CanStart(t, c)
    ensures Passed(v, s, c).blocks == Passed(w, t, c).blocks && Passed(v, s, c).tip == Passed(w, t, c).tip
  {
    hide RangeEvents, Scan, StoredThrough, BothRolledBack, Ancestor;
    SamePlan(s, t, c);
  }

  /** The records a pass scans onto: those of the blocks below its start. */
  lemma MixedStart(views: seq<ScanView>, u: iset<Block>, g: Block, c0: seq<Block>, c: seq<Block>)
    requires Binding(u) && Applied(u, g, c0) && ValidChain(u, g, c) && |views| == |c0|
    requires CanStart(MixedState(views, c0), c)
    ensures var plan := Prepare(MixedState(views, c0), c);
            && plan.start <= |c0| && plan.start <= |c| && c0[..plan.start] == c[..plan.start]
            && plan.state.utxos == Ledger(MixedEvents(views, c0, 0, plan.start))
  {
    hide OrderedTxs, Txs, Linked, Ledger, Prepare, MixedEvents, MixedState, Replayed, Binding, RolledBack;
    var w: ScanView := RawView(map[], []);
    var s := MixedState(views, c0);
    LikeReplay(views, w, c0);
    SamePlan(s, Replayed(w, c0), c);
    StartOfReplay(w, u, g, c0, c);
    if Prepare(s, c).reorgTo.Some? {
      MixedRollback(views, u, g, c0, Prepare(s, c).start);
    }
  }

  lemma MixedRollback(views: seq<ScanView>, u: iset<Block>, g: Block, c: seq<Block>, n: nat)
    requires Applied(u, g, c) && 0 < n <= |c| == |views|
    ensures RolledBack(Ledger(MixedEvents(views, c, 0, |c|)), n - 1) == Ledger(MixedEvents(views, c, 0, n))
  {
    hide WellOrdered, Linked, Ledger, MixedEvents, RolledBack;
    MixedConcat(views, c, 0, n, |c|);
    MixedFresh(views, c, |c|);
    MixedAt(views, c, 0, n);
    MixedAt(views, c, n, |c|);
    RollbackOfLedger(MixedEvents(views, c, 0, n), MixedEvents(views, c, n, |c|), n - 1, |c|);
  }

  /** Blocks and cursor are those of a replay under any index. */
  lemma LikeReplay(views: seq<ScanView>, w: ScanView, c: seq<Block>)
    requires |views| == |c|
    ensures MixedState(views, c).blocks == Replayed(w, c).blocks && MixedState(views, c).tip == Replayed(w, c).tip
    ensures MixedState(views, c).utxos == Ledger(MixedEvents(views, c, 0, |c|))
  {
    NothingMixed(views, c);
    assert Ledger([]) == map[];
  }

  lemma StartOfReplay(w: ScanView, u: iset<Block>, g: Block, c0: seq<Block>, c: seq<Block>)
    requires Binding(u) && Applied(u, g, c0) && ValidChain(u, g, c) && CanStart(Replayed(w, c0), c)
    ensures var plan := Prepare(Replayed(w, c0), c);
            && plan.start <= |c0| && plan.start <= |c| && c0[..plan.start] == c[..plan.start]
            && (plan.reorgTo.Some? ==> 0 < plan.start) && (plan.reorgTo.None? ==> plan.start == |c0|)
  {
    hide OrderedTxs, Txs, Linked, Binding, Ancestor, Prepare, Replayed;
    var s := Replayed(w, c0);
    CursorOfReplay(w, c0);
    PlanOf(s, c);
    if c0 != [] {
      if c[|c0| - 1].hash == c0[|c0| - 1].hash {
        CursorShown(u, g, c0, c);
      } else {
        ForkOfReplay(w, u, g, c0, c);
      }
    }
  }

  lemma CursorShown(u: iset<Block>, g: Block, c0: seq<Block>, c: seq<Block>)
    requires Binding(u) && ValidChain(u, g, c0) && ValidChain(u, g, c)
    requires |c0| <= |c| && c[|c0| - 1].hash == c0[|c0| - 1].hash
    ensures c0[..|c0|] == c[..|c0|]
  {
    HashBindsPrefix(u, c0, c, |c0| - 1);
  }

  lemma ForkOfReplay(w: ScanView, u: iset<Block>, g: Block, c0: seq<Block>, c: seq<Block>)
    requires Binding(u) && ValidChain(u, g, c0) && ValidChain(u, g, c)
    requires |c0| <= |c| && c[|c0| - 1].hash != c0[|c0| - 1].hash
    ensures var a := Ancestor(SyncedTo(w, c0).blocks, c, |c0| - 1);
            c0[..a + 1] == c[..a + 1]
  {
    hide RangeEvents, OrderedTxs, Txs, Linked, Binding, Resumable, Ancestor, SyncedTo;
    SyncedIsResumable(w, u, g, c0);
    AncestorIsForkPoint(w, u, g, c0, |c0|, SyncedTo(w, c0), c);
  }

  lemma CursorOfReplay(w: ScanView, c: seq<Block>)
    ensures c != [] ==> Replayed(w, c) == SyncedTo(w, c)
    ensures Replayed(w, c).tip == if c == [] then None else Some(SyncedTip(|c| - 1, c[|c| - 1].hash))
  {
  }

  lemma PlanOf(s: State, c: seq<Block>)
    requires CanStart(s, c)
    ensures match s.tip
            case None => Prepare(s, c).reorgTo.None? && Prepare(s, c).start == 0
            case Some(t) =>
              if c[t.height].hash == t.hash then Prepare(s, c).reorgTo.None? && Prepare(s, c).start == t.height + 1
              else Prepare(s, c).reorgTo.Some? && Prepare(s, c).start == Ancestor(s.blocks, c, t.height) + 1
  {
  }

  /** A pass under `w` keeps every record below its start as the index it was read with has it, and reads the rest. */
  lemma {:induction false} MixedPass(views: seq<ScanView>, w: ScanView, u: iset<Block>, g: Block, c0: seq<Block>,
                                     c: seq<Block>)
    requires Binding(u) && Applied(u, g, c0) && ValidChain(u, g, c) && |views| == |c0|
    requires CanStart(MixedState(views, c0), c)
    ensures var n := Prepare(MixedState(views, c0), c).start;
            Passed(w, MixedState(views, c0), c) == MixedState(Rescanned(views, n, |c|, w), c)
  {
    hide OrderedTxs, Txs, Linked, Binding, Ledger, RangeEvents, Prepare, MixedEvents, Passed, MixedState, Replayed,
         SyncedTo;
    var s, n := MixedState(views, c0), Prepare(MixedState(views, c0), c).start;
    var now := Rescanned(views, n, |c|, w);
    MixedStart(views, u, g, c0, c);
    PassedRecords(w, s, c);
    assert forall h :: 0 <= h < n ==> c0[..n][h] == c[..n][h];
    MixedAgrees(views, now, c0, c, 0, n);
    MixedUnderOne(now, w, c, n, |c|);
    MixedScan(now, u, g, c, n);
    LikeReplay(views, w, c0);
    LikeReplay(now, w, c);
    CleanPassEnds(w, u, g, c0, c);
    SamePass(w, w, s, Replayed(w, c0), c);
  }

  lemma MixedScan(views: seq<ScanView>, u: iset<Block>, g: Block, c: seq<Block>, n: nat)
    requires Applied(u, g, c) && n <= |c| == |views|
    ensures Scan(Ledger(MixedEvents(views, c, 0, n)), MixedEvents(views, c, n, |c|)) ==
            Ledger(MixedEvents(views, c, 0, |c|))
  {
    hide WellOrdered, Linked, Ledger, MixedEvents, Scan;
    MixedConcat(views, c, 0, n, |c|);
    MixedFresh(views, c, |c|);
    MixedAt(views, c, 0, n);
    MixedAt(views, c, n, |c|);
    ScanOnReplay(MixedEvents(views, c, 0, n), MixedEvents(views, c, n, |c|), n, |c|);
  }

  // ------------------------------------------------------------------
  // Runs
  // ------------------------------------------------------------------

  /** The node shows another chain, or a pass completes under an index. */
  datatype Turn = Show(chain: seq<Block>) | PassUnder(view: ScanView)

  /**
   The stores, the node's chain, and (for the statement only) the chain scanned last
   and the index each of its blocks was read under.
   */
  datatype Journal = Journal(state: State, chain: seq<Block>, scanned: seq<Block>, views: seq<ScanView>)

  ghost predicate Possible(u: iset<Block>, g: Block, j: Journal, turn: Turn) {
    match turn
    case Show(c) => ValidChain(u, g, c)
    case PassUnder(_) => Enabled(j.state, j.chain)
  }

  ghost function Next(u: iset<Block>, g: Block, j: Journal, turn: Turn): Journal
    requires Possible(u, g, j, turn)
  {
    match turn
    case Show(c) => j.(chain := c)
    case PassUnder(w) =>
      Journal(Passed(w, j.state, j.chain), j.chain, j.chain,
              Rescanned(j.views, Prepare(j.state, j.chain).start, |j.chain|, w))
  }

  ghost predicate PossibleRun(u: iset<Block>, g: Block, j: Journal, turns: seq<Turn>)
    decreases |turns|
  {
    turns == [] || (Possible(u, g, j, turns[0]) && PossibleRun(u, g, Next(u, g, j, turns[0]), turns[1..]))
  }

  ghost function After(u: iset<Block>, g: Block, j: Journal, turns: seq<Turn>): Journal
    requires PossibleRun(u, g, j, turns)
    decreases |turns|
  {
    if turns == [] then j else After(u, g, Next(u, g, j, turns[0]), turns[1..])
  }

  /** Every record is there because of the index its block was read under, and of no other. */
  ghost predicate Accounted(u: iset<Block>, g: Block, j: Journal) {
    && ValidChain(u, g, j.chain)
    && Applied(u, g, j.scanned)
    && |j.views| == |j.scanned|
    && j.state == MixedState(j.views, j.scanned)
  }

  lemma TurnAccounted(u: iset<Block>, g: Block, j: Journal, turn: Turn)
    requires Binding(u) && Accounted(u, g, j) && Possible(u, g, j, turn)
    ensures Accounted(u, g, Next(u, g, j, turn))
  {
    hide ValidChain, MixedState, Passed, Rescanned, Prepare;
    match turn
    case Show(_) =>
    case PassUnder(w) => MixedPass(j.views, w, u, g, j.scanned, j.chain);
  }

  /**
   Over any run of reorganisations and passes, each pass under an index of its own,
   the stores hold the last scanned chain with every block's records as the last pass
   that read the block saw them.
   */
  lemma {:induction false} EveryReindexedRun(u: iset<Block>, g: Block, j: Journal, turns: seq<Turn>)
    requires Binding(u) && Accounted(u, g, j) && PossibleRun(u, g, j, turns)
    ensures Accounted(u, g, After(u, g, j, turns))
    decreases |turns|
  {
    hide Accounted, Possible, Next;
    if turns != [] {
      TurnAccounted(u, g, j, turns[0]);
      EveryReindexedRun(u, g, Next(u, g, j, turns[0]), turns[1..]);
    }
  }

  lemma FreshAccounted(u: iset<Block>, g: Block, c: seq<Block>)
    requires ValidChain(u, g, c)
    ensures Accounted(u, g, Journal(EMPTY, c, [], []))
  {
  }

  /** In particular from fresh stores. */
  lemma {:induction false} FreshReindexedRun(u: iset<Block>, g: Block, c: seq<Block>, turns: seq<Turn>)
    requires Binding(u) && ValidChain(u, g, c) && PossibleRun(u, g, Journal(EMPTY, c, [], []), turns)
    ensures var j := After(u, g, Journal(EMPTY, c, [], []), turns);
            |j.views| == |j.scanned| && j.state == MixedState(j.views, j.scanned)
  {
    FreshAccounted(u, g, c);
    EveryReindexedRun(u, g, Journal(EMPTY, c, [], []), turns);
  }

  // ------------------------------------------------------------------
  // When that is a replay
  // ------------------------------------------------------------------

  predicate SameCaptures(v: ScanView, w: ScanView, h: nat, txs: seq<Tx>) {
    Captures(BlockEvents(v, h, txs)) == Captures(BlockEvents(w, h, txs))
  }

  lemma CapturesSplit(a: seq<Event>, b: seq<Event>, a': seq<Event>, b': seq<Event>, n: nat)
    requires WellOrdered(a + b) && WellOrdered(a' + b')
    requires HeightsWithin(a, 0, n) && HeightsWithin(a', 0, n)
    requires HeightsWithin(b, n, n + 1) && HeightsWithin(b', n, n + 1)
    ensures Captures(a + b) == Captures(a' + b') <==> Captures(a) == Captures(a') && Captures(b) == Captures(b')
  {
    WellOrderedParts(a, b);
    WellOrderedParts(a', b');
    CapturesConcat(a, b);
    CapturesConcat(a', b');
    if Captures(a + b) == Captures(a' + b') {
      forall op
        ensures op in Captures(a) <==> op in Captures(a')
        ensures op in Captures(a) && op in Captures(a') ==> Captures(a)[op] == Captures(a')[op]
        ensures op in Captures(b) <==> op in Captures(b')
        ensures op in Captures(b) && op in Captures(b') ==> Captures(b)[op] == Captures(b')[op]
      {
        CaptureSplit(a, b, a', b', n, op);
      }
    }
  }

  lemma CaptureSplit(a: seq<Event>, b: seq<Event>, a': seq<Event>, b': seq<Event>, n: nat, op: OutPoint)
    requires WellOrdered(a + b) && WellOrdered(a' + b') && Captures(a + b) == Captures(a' + b')
    requires HeightsWithin(a, 0, n) && HeightsWithin(a', 0, n)
    requires HeightsWithin(b, n, n + 1) && HeightsWithin(b', n, n + 1)
    ensures op in Captures(a) <==> op in Captures(a')
    ensures op in Captures(a) && op in Captures(a') ==> Captures(a)[op] == Captures(a')[op]
    ensures op in Captures(b) <==> op in Captures(b')
    ensures op in Captures(b) && op in Captures(b') ==> Captures(b)[op] == Captures(b')[op]
  {
    assert op in Captures(a + b) <==> op in Captures(a' + b');
    CaptureIn(a, b, n, op);
    CaptureIn(a', b', n, op);
  }

  lemma CaptureIn(a: seq<Event>, b: seq<Event>, n: nat, op: OutPoint)
    requires WellOrdered(a + b) && HeightsWithin(a, 0, n) && HeightsWithin(b, n, n + 1)
    ensures op in Captures(a + b) <==> op in Captures(a) || op in Captures(b)
    ensures op in Captures(a) ==>
              op !in Captures(b) && Captures(a + b)[op] == Captures(a)[op] && Captures(a)[op].height < n
    ensures op in Captures(b) ==>
              op !in Captures(a) && Captures(a + b)[op] == Captures(b)[op] && Captures(b)[op].height == n
  {
    WellOrderedParts(a, b);
    CapturesConcat(a, b);
    if op in Captures(b) {
      CreatedLater(a, b, op);
      CapturesFacts(b, n, n + 1, op);
    }
    if op in Captures(a) {
      CapturesFacts(a, 0, n, op);
    }
  }

  lemma {:induction false} MixedCapturesIff(views: seq<ScanView>, w: ScanView, c: seq<Block>, k: nat)
    requires OrderedTxs(Txs(c)) && k <= |c| && k <= |views|
    ensures Captures(MixedEvents(views, c, 0, k)) == Captures(RangeEvents(w, c, 0, k)) <==>
            forall h :: 0 <= h < k ==> SameCaptures(views[h], w, h, c[h].txs)
  {
    hide OrderedTxs, Txs, WellOrdered, HeightsWithin, Captures, BlockEvents;
    if k > 0 {
      var n := k - 1;
      MixedCapturesIff(views, w, c, n);
      FreshChain(w, c);
      FreshRanges(w, c, 0, k);
      MixedFresh(views, c, k);
      MixedAt(views, c, 0, n);
      RangeEventsAt(w, c, 0, n);
      OneBlock(views[n], n, c[n].txs);
      OneBlock(w, n, c[n].txs);
      CapturesSplit(MixedEvents(views, c, 0, n), BlockEvents(views[n], n, c[n].txs),
                    RangeEvents(w, c, 0, n), BlockEvents(w, n, c[n].txs), n);
    }
  }

  lemma OneBlock(v: ScanView, h: nat, txs: seq<Tx>)
    ensures HeightsWithin(BlockEvents(v, h, txs), h, h + 1)
  {
    BlockEventsAt(v, h, txs);
  }

  /**
   After such a run the stores are the replay under one index exactly when every
   block holds the same captures under that index as under the one it was last
   read with.
   */
  lemma {:induction false} ReindexedReplayIff(u: iset<Block>, g: Block, j: Journal, w: ScanView)
    requires Accounted(u, g, j)
    ensures |j.views| == |j.scanned|
    ensures j.state == Replayed(w, j.scanned) <==>
            forall h :: 0 <= h < |j.scanned| ==> SameCaptures(j.views[h], w, h, j.scanned[h].txs)
  {
    hide BlockEvents, RangeEvents, MixedEvents, Linked, Ledger, StoredThrough, SameCaptures, Captures, WellOrdered;
    if j.scanned != [] {
      var c := j.scanned;
      MixedCapturesIff(j.views, w, c, |c|);
      MixedFresh(j.views, c, |c|);
      FreshChain(w, c);
      forall op
        ensures FirstSpend(MixedEvents(j.views, c, 0, |c|), op) == FirstSpend(ChainEvents(w, c), op)
      {
        MixedSpends(j.views, w, c, |c|, op);
      }
      var none: seq<Event> := [];
      assert MixedEvents(j.views, c, 0, |c|) + none == MixedEvents(j.views, c, 0, |c|);
      assert ChainEvents(w, c) + none == ChainEvents(w, c);
      LedgersAgreeIff(MixedEvents(j.views, c, 0, |c|), ChainEvents(w, c), none);
    }
  }
}
