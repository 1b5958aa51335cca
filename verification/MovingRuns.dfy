/**
 Runs of passes over nodes that may move during every pass, from whatever earlier
 passes have left: cut short, half rolled back, clamped, or with a cursor that names
 a block the pass never read.
 */
module MovingRuns {
  import opened Results
  import opened ChainModel
  import opened Events
  import opened Recovery
  import opened Matching
  import opened Stores
  import opened Pass
  import opened History
  import opened Leftovers
  import opened MovingNode

  /** The cursor on block `n - 1` of `c`. */
  function OwnTip(c: seq<Block>, n: nat): Option<SyncedTip>
    requires n <= |c|
  {
    if n == 0 then None else Some(SyncedTip(n - 1, c[n - 1].hash))
  }

  /** Leftovers as `LeftOver` has them, except that the cursor may name another block at its height. */
  ghost predicate Stale(v: ScanView, c0: seq<Block>, n: nat, m: nat, k: nat, s: State) {
    && n <= |c0|
    && (s.tip.None? <==> n == 0)
    && (s.tip.Some? ==> s.tip.value.height == n - 1)
    && LeftOver(v, c0, n, m, k, s.(tip := OwnTip(c0, n)))
  }

  lemma LeftOverIsStale(v: ScanView, c0: seq<Block>, n: nat, m: nat, k: nat, s: State)
    requires LeftOver(v, c0, n, m, k, s)
    ensures Stale(v, c0, n, m, k, s)
  {
    assert s == s.(tip := OwnTip(c0, n));
  }

  /** Fresh stores and replays leave nothing over. */
  lemma ReplayIsStale(v: ScanView, c: seq<Block>, n: nat)
    requires n <= |c|
    ensures Stale(v, c, n, n, n, Replayed(v, c[..n]))
  {
    hide RangeEvents, Ledger, Upserted, Created, Replayed;
    ReplayedPrefix(v, c, n);
    NothingLeft(v, c, n, Ledger(RangeEvents(v, c, 0, n)));
    RangeConcat(v, c, 0, n, n);
    LeftOverIsStale(v, c, n, n, n, Replayed(v, c[..n]));
  }

  // ------------------------------------------------------------------
  // The start of a pass
  // ------------------------------------------------------------------

  /** A rollback lands on the replay of a prefix, but for the cursor; without one nothing changes. */
  lemma StaleStart(v: ScanView, u: iset<Block>, g: Block, c0: seq<Block>, n: nat, m: nat, k: nat, s: State,
                   ans: Answers)
    requires ValidChain(u, g, c0) && Stale(v, c0, n, m, k, s) && Answered(s, g, ans)
    ensures var plan := MovedPlan(s, ans);
            && plan.start <= n
            && (plan.reorgTo.None? ==> plan.start == n && plan.state == s)
            && (plan.reorgTo.Some? ==>
                  && 0 < plan.start
                  && plan.state.blocks == SyncedTo(v, c0[..plan.start]).blocks
                  && plan.state.utxos == SyncedTo(v, c0[..plan.start]).utxos)
  {
    hide OrderedTxs, Txs, Linked, Resumable, LeftOver, SyncedTo, RolledBack, Ancestor, KeptBlocks, KeptTip;
    if s.tip.Some? && ans.atCursor != s.tip.value.hash {
      var own := s.(tip := OwnTip(c0, n));
      var a := Ancestor(s.blocks, ans.search, n - 1);
      LeftOverResumable(v, u, g, c0, n, m, k, own);
      RollbackLandsOnPrefix(v, u, g, c0, n, own, a);
      CursorApart(s, own, a);
    }
  }

  lemma CursorApart(s: State, t: State, a: nat)
    requires s.blocks == t.blocks && s.utxos == t.utxos
    ensures BothRolledBack(s, a).blocks == BothRolledBack(t, a).blocks
    ensures BothRolledBack(s, a).utxos == BothRolledBack(t, a).utxos
  {
  }

  /** What a scan makes of records and blocks has nothing to do with the cursor. */
  lemma ScanApart(v: ScanView, s: State, t: State, c: seq<Block>, lo: nat, tip: Option<SyncedTip>)
    requires s.blocks == t.blocks && s.utxos == t.utxos && lo <= |c|
    ensures Scanned(v, s, c, lo, |c|).(tip := tip) == Scanned(v, t, c, lo, |c|).(tip := tip)
  {
  }

  // ------------------------------------------------------------------
  // One pass
  // ------------------------------------------------------------------

  /** The leftovers above the start are gone, or are within the chain `read` and come again in it. */
  ghost predicate Cleared(v: ScanView, c0: seq<Block>, n: nat, m: nat, k: nat, s: State, plan: Plan, read: seq<Block>)
    requires n <= m <= k <= |c0| && n <= |read|
  {
    plan.reorgTo.Some? ||
    (&& (forall h :: h in s.blocks ==> h < |read|)
     && Reappear(RangeEvents(v, c0, 0, n), RangeEvents(v, c0, n, m), RangeEvents(v, c0, m, k),
                 RangeEvents(v, read, n, |read|)))
  }

  /** Below its start a pass stands on the blocks the stores keep. */
  ghost predicate StandsOn(c0: seq<Block>, start: nat, read: seq<Block>) {
    forall h :: 0 <= h < start && h < |read| && h < |c0| ==> read[h] == c0[h]
  }

  /**
   A pass that was not clamped and read the valid chain `read` leaves the blocks and
   records of its replay exactly when the leftovers are cleared.
   */
  lemma {:induction false} ReadIff(v: ScanView, u: iset<Block>, g: Block, c0: seq<Block>, n: nat, m: nat, k: nat,
                                   s: State, ans: Answers, read: seq<Block>)
    requires ValidChain(u, g, c0) && ValidChain(u, g, read) && Stale(v, c0, n, m, k, s) && Answered(s, g, ans)
    requires MovedPlan(s, ans).start <= |read| && StandsOn(c0, MovedPlan(s, ans).start, read)
    ensures MovedPlan(s, ans).reorgTo.None? ==> n <= |read|
    ensures MovedPass(v, s, ans, read).(tip := OwnTip(read, |read|)) == SyncedTo(v, read) <==>
            (MovedPlan(s, ans).reorgTo.None? ==> Cleared(v, c0, n, m, k, s, MovedPlan(s, ans), read))
  {
    hide OrderedTxs, Txs, Linked, LeftOver, SyncedTo, MovedPlan, Scanned, Reappear, RangeEvents;
    StaleStart(v, u, g, c0, n, m, k, s, ans);
    var plan := MovedPlan(s, ans);
    assert c0[..plan.start] == read[..plan.start];
    if plan.reorgTo.Some? {
      ScanApart(v, plan.state, SyncedTo(v, c0[..plan.start]), read, plan.start, OwnTip(read, |read|));
      ScanOnPrefix(v, u, g, read, plan.start);
    } else {
      var own := s.(tip := OwnTip(c0, n));
      LeftOverOnSameCursor(v, u, g, c0, n, m, k, own, read);
      PassFromCursor(v, own, read, n);
      ScanApart(v, s, own, read, n, OwnTip(read, |read|));
    }
  }

  lemma ScanOnPrefix(v: ScanView, u: iset<Block>, g: Block, c: seq<Block>, n: nat)
    requires ValidChain(u, g, c) && 0 < n <= |c|
    ensures Scanned(v, SyncedTo(v, c[..n]), c, n, |c|).(tip := OwnTip(c, |c|)) == SyncedTo(v, c)
  {
    hide RangeEvents, OrderedTxs, Txs, Linked, Ledger, Scanned, Resumable;
    ValidPrefix(u, g, c, n);
    SyncedIsResumable(v, u, g, c[..n]);
    ScanCompletes(v, u, g, c[..n], n, SyncedTo(v, c[..n]), c);
  }

  lemma PassFromCursor(v: ScanView, s: State, c: seq<Block>, n: nat)
    requires CursorOn(s, c, n) && 0 < |c| <= U32_MAX
    ensures CanStart(s, c) && Passed(v, s, c) == Scanned(v, s, c, n, |c|).(tip := OwnTip(c, |c|))
  {
    hide RangeEvents, Scan, StoredThrough;
  }

  /** Whatever the records: the blocks a pass leaves are those it stands on, and any it did not get down to. */
  lemma StaleBlocks(v: ScanView, u: iset<Block>, g: Block, c0: seq<Block>, n: nat, m: nat, k: nat, s: State,
                    ans: Answers, read: seq<Block>)
    requires ValidChain(u, g, c0) && Stale(v, c0, n, m, k, s) && Answered(s, g, ans) && read != []
    requires StandsOn(c0, MovedPlan(s, ans).start, read)
    ensures var now := MovedPass(v, s, ans, read);
            && (forall h :: 0 <= h < |read| ==> h in now.blocks && now.blocks[h] == StoredBlock(read[h].hash, read[h]))
            && (MovedPlan(s, ans).start > |read| ==> |read| in now.blocks)
  {
    hide OrderedTxs, Txs, Linked, RangeEvents, Ledger, LeftRecords, MovedPlan, Scan;
    StaleStart(v, u, g, c0, n, m, k, s, ans);
  }

  /**
   From any leftover state, a pass over a node that moves ends in the replay of what
   the node shows at the end, up to the tip it was told, exactly when its start was
   not clamped, the blocks fetched link up with those kept and end in the node's
   block, and a rollback or the blocks read cleared the leftovers.
   */
  lemma {:induction false} StalePassIff(v: ScanView, u: iset<Block>, g: Block, c0: seq<Block>, n: nat, m: nat, k: nat,
                                        s: State, ans: Answers, read: seq<Block>, last: seq<Block>)
    requires Binding(u) && ValidChain(u, g, c0) && ValidChain(u, g, last)
    requires Stale(v, c0, n, m, k, s) && Answered(s, g, ans) && StandsOn(c0, MovedPlan(s, ans).start, read)
    requires 0 < |read| <= |last| && ans.atTip == last[|read| - 1].hash && forall b :: b in read ==> b in u
    ensures var plan := MovedPlan(s, ans);
            && (Continuous(plan.start, read, last) && plan.reorgTo.None? ==> n <= |read|)
            && (MovedPass(v, s, ans, read) == SyncedTo(v, last[..|read|]) <==>
                && Continuous(plan.start, read, last)
                && (plan.reorgTo.None? ==> Cleared(v, c0, n, m, k, s, plan, read)))
  {
    hide OrderedTxs, Txs, Linked, Binding, LeftOver, SyncedTo, MovedPlan, Stale, MovedPass, Cleared, Continuous;
    var start := MovedPlan(s, ans).start;
    ContinuousIff(u, g, start, read, last);
    StaleBlocks(v, u, g, c0, n, m, k, s, ans, read);
    MovedCursor(v, s, ans, read);
    ValidPrefix(u, g, last, |read|);
    if start <= |read| && read <= last {
      assert read == last[..|read|];
      ReadIff(v, u, g, c0, n, m, k, s, ans, read);
    } else {
      OtherBlocks(v, MovedPass(v, s, ans, read), read, last[..|read|]);
    }
  }

  lemma MovedCursor(v: ScanView, s: State, ans: Answers, read: seq<Block>)
    requires s.tip.Some? ==> s.tip.value.height < |ans.search|
    requires read != []
    ensures MovedPass(v, s, ans, read).tip == Some(SyncedTip(|read| - 1, ans.atTip))
  {
  }

  lemma OtherBlocks(v: ScanView, now: State, read: seq<Block>, c: seq<Block>)
    requires 0 < |read| == |c|
    requires forall h :: 0 <= h < |read| ==> h in now.blocks && now.blocks[h] == StoredBlock(read[h].hash, read[h])
    ensures now == SyncedTo(v, c) ==> read == c && |read| !in now.blocks
  {
    hide RangeEvents, Ledger;
    WrongBlockShows(v, now, now, read, c, c);
  }

  // ------------------------------------------------------------------
  // Runs
  // ------------------------------------------------------------------

  /** The stores, and (for the statement only) the chain their blocks and records are of and how much of it is over. */
  datatype Sight = Sight(state: State, seen: seq<Block>, n: nat, m: nat, k: nat)

  /** A completed pass: what it heard and what it stood on. */
  datatype Turn = Turn(ans: Answers, read: seq<Block>)

  ghost predicate InSight(v: ScanView, u: iset<Block>, g: Block, w: Sight) {
    ValidChain(u, g, w.seen) && Stale(v, w.seen, w.n, w.m, w.k, w.state)
  }

  /** A clamped pass, or one that read linked blocks of a chain and cleared the leftovers. */
  ghost predicate Fair(v: ScanView, u: iset<Block>, g: Block, w: Sight, t: Turn) {
    && w.n <= w.m <= w.k <= |w.seen|
    && Answered(w.state, g, t.ans) && t.read != []
    && var plan := MovedPlan(w.state, t.ans);
       && StandsOn(w.seen, plan.start, t.read)
       && (plan.start > |t.read|
           || (&& ValidChain(u, g, t.read)
               && (plan.reorgTo.None? ==>
                     && w.n <= |t.read|
                     && Cleared(v, w.seen, w.n, w.m, w.k, w.state, plan, t.read))))
  }

  ghost function SightAfter(v: ScanView, u: iset<Block>, g: Block, w: Sight, t: Turn): Sight
    requires Fair(v, u, g, w, t)
  {
    var plan, now, len := MovedPlan(w.state, t.ans), MovedPass(v, w.state, t.ans, t.read), |t.read|;
    if plan.start <= len then Sight(now, t.read, len, len, len)
    else if plan.reorgTo.Some? then Sight(now, w.seen, len, plan.start, plan.start)
    else Sight(now, w.seen, len, w.m, w.k)
  }

  lemma ClampedState(v: ScanView, s: State, ans: Answers, read: seq<Block>)
    requires s.tip.Some? ==> s.tip.value.height < |ans.search|
    requires 0 < |read| < MovedPlan(s, ans).start
    ensures var now := MovedPass(v, s, ans, read);
            && now.blocks == MovedPlan(s, ans).state.blocks && now.utxos == MovedPlan(s, ans).state.utxos
            && now.tip == Some(SyncedTip(|read| - 1, ans.atTip))
  {
    ClampedPass(v, s, ans, read);
  }

  /** Leftovers over a lower cursor. */
  lemma LowerCursor(v: ScanView, c0: seq<Block>, n: nat, m: nat, k: nat, s: State, l: nat, t: State)
    requires Stale(v, c0, n, m, k, s) && 0 < l < n
    requires t.blocks == s.blocks && t.utxos == s.utxos && t.tip.Some? && t.tip.value.height == l - 1
    ensures Stale(v, c0, l, m, k, t)
  {
    hide RangeEvents, Ledger, Upserted, Created;
    RangeConcat(v, c0, 0, l, m);
    RangeConcat(v, c0, 0, n, m);
  }

  /** Stores that differ from a replay in the cursor's hash only. */
  lemma CursorOnly(v: ScanView, c: seq<Block>, s: State)
    requires c != [] && s.(tip := OwnTip(c, |c|)) == SyncedTo(v, c) && s.tip.Some? && s.tip.value.height == |c| - 1
    ensures Stale(v, c, |c|, |c|, |c|, s)
  {
    hide RangeEvents, Ledger, Upserted, Created;
    assert c[..|c|] == c;
    ReplayIsStale(v, c, |c|);
  }

  lemma TurnInSight(v: ScanView, u: iset<Block>, g: Block, w: Sight, t: Turn)
    requires InSight(v, u, g, w) && Fair(v, u, g, w, t)
    ensures InSight(v, u, g, SightAfter(v, u, g, w, t))
  {
    hide OrderedTxs, Txs, Linked, LeftOver, SyncedTo, MovedPlan, MovedPass, Cleared, Stale;
    var plan := MovedPlan(w.state, t.ans);
    var now := MovedPass(v, w.state, t.ans, t.read);
    StaleStart(v, u, g, w.seen, w.n, w.m, w.k, w.state, t.ans);
    MovedCursor(v, w.state, t.ans, t.read);
    if plan.start <= |t.read| {
      ReadIff(v, u, g, w.seen, w.n, w.m, w.k, w.state, t.ans, t.read);
      CursorOnly(v, t.read, now);
    } else {
      ClampedState(v, w.state, t.ans, t.read);
      if plan.reorgTo.Some? {
        ReplayIsStale(v, w.seen, plan.start);
        LowerCursor(v, w.seen, plan.start, plan.start, plan.start, SyncedTo(v, w.seen[..plan.start]), |t.read|, now);
      } else {
        LowerCursor(v, w.seen, w.n, w.m, w.k, w.state, |t.read|, now);
      }
    }
  }

  ghost predicate FairRun(v: ScanView, u: iset<Block>, g: Block, w: Sight, turns: seq<Turn>)
    decreases |turns|
  {
    turns == [] || (Fair(v, u, g, w, turns[0]) && FairRun(v, u, g, SightAfter(v, u, g, w, turns[0]), turns[1..]))
  }

  ghost function SightAfterAll(v: ScanView, u: iset<Block>, g: Block, w: Sight, turns: seq<Turn>): Sight
    requires FairRun(v, u, g, w, turns)
    decreases |turns|
  {
    if turns == [] then w else SightAfterAll(v, u, g, SightAfter(v, u, g, w, turns[0]), turns[1..])
  }

  /**
   Over any run of such passes, from any leftover state, the stores hold the blocks
   and records of what was read last, with leftovers above the cursor only while
   passes are clamped: just the hash at the cursor may be another chain's.
   */
  lemma {:induction false} EveryMovingRun(v: ScanView, u: iset<Block>, g: Block, w: Sight, turns: seq<Turn>)
    requires InSight(v, u, g, w) && FairRun(v, u, g, w, turns)
    ensures InSight(v, u, g, SightAfterAll(v, u, g, w, turns))
    decreases |turns|
  {
    hide InSight, Fair, SightAfter;
    if turns != [] {
      TurnInSight(v, u, g, w, turns[0]);
      EveryMovingRun(v, u, g, SightAfter(v, u, g, w, turns[0]), turns[1..]);
    }
  }

  /** With nothing left over they are a replay exactly when the hash at the cursor is that of the last block read. */
  lemma {:induction false} SightIsReplayIff(v: ScanView, u: iset<Block>, g: Block, w: Sight)
    requires InSight(v, u, g, w) && w.n == w.m == w.k == |w.seen|
    ensures w.state.tip.Some?
    ensures w.state == SyncedTo(v, w.seen) <==> w.state.tip.value.hash == w.seen[w.n - 1].hash
  {
    hide RangeEvents, Ledger, Upserted, Created, StoredThrough;
    var c := w.seen;
    RangeConcat(v, c, 0, w.n, w.n);
    NothingLeft(v, c, w.n, Ledger(ChainEvents(v, c)));
    SameBlocks(w.state.blocks, c);
  }

  /** Linked blocks of the universe that end in a block of a valid chain, at its height, are that chain's. */
  lemma {:induction false} LinkedIsValid(u: iset<Block>, g: Block, read: seq<Block>, shown: seq<Block>)
    requires Binding(u) && ValidChain(u, g, shown) && 0 < |read| <= |shown| && forall b :: b in read ==> b in u
    requires Linked(read) && read[|read| - 1] == shown[|read| - 1]
    ensures ValidChain(u, g, read) && read == shown[..|read|]
  {
    hide OrderedTxs, Txs;
    HashBindsPrefix(u, read, shown, |read| - 1);
    assert read[..|read|] == read;
    ValidPrefix(u, g, shown, |read|);
  }
}
