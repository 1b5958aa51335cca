/**
 A node that reorganises while a pass is running. The engine asks it for its tip,
 for the hashes at and below the cursor, for each block, and at the end for the
 hash at the tip, and each answer may come from another chain.
 */
module MovingNode {
  import opened Results
  import opened ChainModel
  import opened Events
  import opened Recovery
  import opened Matching
  import opened Stores
  import opened Pass
  import opened History
  import opened Leftovers
  import opened Limits

  /** What the node says to the three questions about hashes; `search` holds its answers for the ancestor search. */
  datatype Answers = Answers(atCursor: BlockHash, search: seq<Block>, atTip: BlockHash)

  /** The questions at and below the cursor have answers; the genesis block is never in doubt. */
  ghost predicate Answered(s: State, g: Block, ans: Answers) {
    s.tip.Some? ==> s.tip.value.height < |ans.search| && ans.search[0] == g
  }

  /** The start of a pass: the search asks again at the cursor, and may be told something else there. */
  ghost function MovedPlan(s: State, ans: Answers): Plan
    requires s.tip.Some? ==> s.tip.value.height < |ans.search|
  {
    match s.tip
    case None => Plan(s, 0, None)
    case Some(t) =>
      if ans.atCursor == t.hash then Plan(s, t.height + 1, None)
      else
        var a := Ancestor(s.blocks, ans.search, t.height);
        Plan(BothRolledBack(s, a), a + 1, Some(a))
  }

  /**
   A completed pass over such a node: `read` are the blocks it stands on up to the
   tip it was told, below the start those the stores keep, from the start on those
   it fetched.
   */
  ghost function MovedPass(v: ScanView, s: State, ans: Answers, read: seq<Block>): State
    requires s.tip.Some? ==> s.tip.value.height < |ans.search|
    requires read != []
  {
    var plan := MovedPlan(s, ans);
    var start := if plan.start > |read| then |read| else plan.start;
    Scanned(v, plan.state, read, start, |read|).(tip := Some(SyncedTip(|read| - 1, ans.atTip)))
  }

  /** The answers of a node that shows `c` all the time. */
  function Fixed(s: State, c: seq<Block>): Answers
    requires CanStart(s, c)
  {
    Answers(if s.tip.Some? then c[s.tip.value.height].hash else 0, c, c[|c| - 1].hash)
  }

  /** When every answer comes from one chain this is the pass of a fixed node. */
  lemma {:induction false} FixedNode(v: ScanView, s: State, c: seq<Block>)
    requires CanStart(s, c)
    ensures MovedPlan(s, Fixed(s, c)) == Prepare(s, c)
    ensures MovedPass(v, s, Fixed(s, c), c) == Passed(v, s, c)
  {
  }

  /** What the rollback, if any, leaves of a replay, whatever the node answered. */
  lemma PreparedKeepsPrefix(v: ScanView, u: iset<Block>, g: Block, p: seq<Block>, ans: Answers)
    requires Applied(u, g, p) && Answered(Replayed(v, p), g, ans)
    ensures var plan := MovedPlan(Replayed(v, p), ans);
            && plan.start <= |p| && plan.state == Replayed(v, p[..plan.start])
            && (p != [] ==> plan.start > 0)
  {
    hide OrderedTxs, Txs, Linked, Ledger, StoredThrough, BothRolledBack, Ancestor;
    if p == [] || ans.atCursor == p[|p| - 1].hash {
      assert p[..|p|] == p;
    } else {
      RolledBackPrefix(v, u, g, p, ans);
    }
  }

  lemma RolledBackPrefix(v: ScanView, u: iset<Block>, g: Block, p: seq<Block>, ans: Answers)
    requires ValidChain(u, g, p) && Answered(SyncedTo(v, p), g, ans) && ans.atCursor != p[|p| - 1].hash
    ensures var plan := MovedPlan(SyncedTo(v, p), ans);
            0 < plan.start <= |p| && plan.state == SyncedTo(v, p[..plan.start])
  {
    hide OrderedTxs, Txs, Linked, Resumable, BothRolledBack, Ancestor, SyncedTo;
    SyncedIsResumable(v, u, g, p);
    var a := MismatchPlan(v, p, ans);
    RollbackLandsOnPrefix(v, u, g, p, |p|, SyncedTo(v, p), a);
  }

  lemma MismatchPlan(v: ScanView, p: seq<Block>, ans: Answers) returns (a: nat)
    requires p != [] && Answered(SyncedTo(v, p), p[0], ans) && ans.atCursor != p[|p| - 1].hash
    ensures a < |p| && MovedPlan(SyncedTo(v, p), ans) == Plan(BothRolledBack(SyncedTo(v, p), a), a + 1, Some(a))
  {
    hide RangeEvents, Ledger, BothRolledBack, Ancestor;
    a := Ancestor(SyncedTo(v, p).blocks, ans.search, |p| - 1);
  }

  /** The blocks a moved pass leaves are those it stands on, and any it did not get down to. */
  lemma MovedBlocks(v: ScanView, u: iset<Block>, g: Block, p: seq<Block>, ans: Answers, read: seq<Block>)
    requires Applied(u, g, p) && Answered(Replayed(v, p), g, ans) && read != []
    requires var n := MovedPlan(Replayed(v, p), ans).start;
             forall h :: 0 <= h < n && h < |p| && h < |read| ==> read[h] == p[h]
    ensures var n := MovedPlan(Replayed(v, p), ans).start;
            var now := MovedPass(v, Replayed(v, p), ans, read);
            && (forall h: nat :: h in now.blocks <==> h < |read| || h < n)
            && (forall h :: 0 <= h < |read| ==> now.blocks[h] == StoredBlock(read[h].hash, read[h]))
  {
    hide Sound, RangeEvents, OrderedTxs, Txs, Ledger, MovedPlan, Scan;
    PreparedKeepsPrefix(v, u, g, p, ans);
  }

  /** The pass fetched linked blocks on top of what was kept, ending in the one the node shows at the end. */
  ghost predicate Continuous(start: nat, read: seq<Block>, last: seq<Block>) {
    start <= |read| <= |last| && read != [] && Linked(read) && read[|read| - 1].hash == last[|read| - 1].hash
  }

  lemma ContinuousIff(u: iset<Block>, g: Block, start: nat, read: seq<Block>, last: seq<Block>)
    requires Binding(u) && ValidChain(u, g, last) && read != [] && forall b :: b in read ==> b in u
    ensures Continuous(start, read, last) <==> start <= |read| && read <= last
  {
    if Continuous(start, read, last) {
      HashBindsPrefix(u, read, last, |read| - 1);
      assert read == last[..|read|];
    }
  }

  /**
   From fresh stores or a replay, a pass over a moving node ends in the replay of
   what the node shows at the end exactly when the start height needed no clamp,
   the blocks fetched link up with the blocks kept, and the last of them is still
   the node's.
   */
  lemma {:induction false} MovedPassIff(v: ScanView, u: iset<Block>, g: Block, p: seq<Block>, ans: Answers,
                                        read: seq<Block>, last: seq<Block>)
    requires Binding(u) && Applied(u, g, p) && ValidChain(u, g, last)
    requires Answered(Replayed(v, p), g, ans)
    requires 0 < |read| <= |last| && ans.atTip == last[|read| - 1].hash && forall b :: b in read ==> b in u
    requires var n := MovedPlan(Replayed(v, p), ans).start;
             forall h :: 0 <= h < n && h < |p| && h < |read| ==> read[h] == p[h]
    ensures MovedPass(v, Replayed(v, p), ans, read) == SyncedTo(v, last[..|read|]) <==>
            Continuous(MovedPlan(Replayed(v, p), ans).start, read, last)
  {
    hide Sound, RangeEvents, OrderedTxs, Txs, Ledger, MovedPlan, Scan, Resumable, Linked, Binding, MovedPass;
    var s, c := Replayed(v, p), last[..|read|];
    var n := MovedPlan(s, ans).start;
    var now := MovedPass(v, s, ans, read);
    ContinuousIff(u, g, n, read, last);
    ValidPrefix(u, g, last, |read|);
    if Continuous(n, read, last) {
      assert read == c;
      ContinuousEndsRight(v, u, g, p, ans, c);
    }
    if now == SyncedTo(v, c) {
      MovedBlocks(v, u, g, p, ans, read);
      assert forall h: nat :: h in SyncedTo(v, c).blocks <==> h < |c|;
      forall h | 0 <= h < |read|
        ensures read[h] == last[h]
      {
        assert SyncedTo(v, c).blocks[h] == StoredBlock(c[h].hash, c[h]);
      }
      assert |read| !in now.blocks;
      assert read == last[..|read|];
    }
  }

  lemma ContinuousEndsRight(v: ScanView, u: iset<Block>, g: Block, p: seq<Block>, ans: Answers, c: seq<Block>)
    requires Applied(u, g, p) && ValidChain(u, g, c) && Answered(Replayed(v, p), g, ans)
    requires var n := MovedPlan(Replayed(v, p), ans).start;
             n <= |c| && forall h :: 0 <= h < n && h < |p| ==> c[h] == p[h]
    requires ans.atTip == c[|c| - 1].hash
    ensures MovedPass(v, Replayed(v, p), ans, c) == SyncedTo(v, c)
  {
    hide Sound, RangeEvents, OrderedTxs, Txs, Ledger, MovedPlan, Scan, Resumable, Scanned;
    var plan := MovedPlan(Replayed(v, p), ans);
    PreparedKeepsPrefix(v, u, g, p, ans);
    assert p[..plan.start] == c[..plan.start];
    ValidPrefix(u, g, c, plan.start);
    ReplayedIsResumable(v, u, g, c[..plan.start]);
    ScanCompletes(v, u, g, c[..plan.start], plan.start, plan.state, c);
  }

  // ------------------------------------------------------------------
  // Passes after that
  // ------------------------------------------------------------------

  /** Chains the node shows from pass to pass, each extending the one before. */
  ghost predicate Growing(u: iset<Block>, g: Block, c: seq<Block>, cs: seq<seq<Block>>)
    decreases cs
  {
    cs != [] ==> ValidChain(u, g, cs[0]) && c <= cs[0] && Growing(u, g, cs[0], cs[1..])
  }

  function LastShown(c: seq<Block>, cs: seq<seq<Block>>): seq<Block>
    decreases cs
  {
    if cs == [] then c else LastShown(cs[0], cs[1..])
  }

  /** One pass over each chain, if all of them can complete. */
  ghost function PassAll(v: ScanView, s: State, cs: seq<seq<Block>>): Option<State>
    decreases cs
  {
    if cs == [] then Some(s)
    else if Enabled(s, cs[0]) then PassAll(v, Passed(v, s, cs[0]), cs[1..])
    else None
  }

  lemma PassOverGrowth(v: ScanView, u: iset<Block>, g: Block, s: State, c: seq<Block>, c': seq<Block>)
    requires ValidChain(u, g, c') && 0 < |c| && c <= c' && CursorOn(s, c, |c|)
    ensures Enabled(s, c') && Prepare(s, c').reorgTo.None? && CursorOn(Passed(v, s, c'), c', |c'|)
    ensures Passed(v, s, c') == Scanned(v, s, c', |c|, |c'|).(tip := Some(SyncedTip(|c'| - 1, c'[|c'| - 1].hash)))
  {
    hide RangeEvents, OrderedTxs, Txs, Linked, Scan, StoredThrough;
  }

  lemma ScanTwice(v: ScanView, s: State, tip: Option<SyncedTip>, c: seq<Block>, c': seq<Block>, n: nat)
    requires n <= |c| && c <= c'
    ensures Scanned(v, Scanned(v, s, c, n, |c|).(tip := tip), c', |c|, |c'|).(tip := None) ==
            Scanned(v, s, c', n, |c'|).(tip := None)
  {
    hide RangeEvents, Scan, StoredThrough;
    assert c == c'[..|c|];
    RangeOfPrefix(v, c', n, |c|, |c|);
    RangeConcat(v, c', n, |c|, |c'|);
    ScanConcat(s.utxos, RangeEvents(v, c', n, |c|), RangeEvents(v, c', |c|, |c'|));
    StoredTwice(s.blocks, c, c', n);
  }

  lemma StoredTwice(stored: map<nat, StoredBlock>, c: seq<Block>, c': seq<Block>, n: nat)
    requires n <= |c| && c <= c'
    ensures StoredThrough(StoredThrough(stored, c, n, |c|), c', |c|, |c'|) == StoredThrough(stored, c', n, |c'|)
  {
    hide StoredThrough;
    var first := StoredThrough(stored, c, n, |c|);
    var twice, once := StoredThrough(first, c', |c|, |c'|), StoredThrough(stored, c', n, |c'|);
    SameMap(twice, once);
  }

  lemma SameMap(a: map<nat, StoredBlock>, b: map<nat, StoredBlock>)
    requires forall h: nat :: h in a <==> h in b
    requires forall h: nat :: h in a && h in b ==> a[h] == b[h]
    ensures a == b
  {
  }

  /** Two passes over growing chains are one pass over the longer. */
  lemma PassTwice(v: ScanView, u: iset<Block>, g: Block, s: State, c: seq<Block>, c1: seq<Block>, c2: seq<Block>)
    requires ValidChain(u, g, c1) && ValidChain(u, g, c2) && 0 < |c| && c <= c1 <= c2 && CursorOn(s, c, |c|)
    ensures Enabled(s, c1) && Enabled(s, c2) && Enabled(Passed(v, s, c1), c2)
    ensures Passed(v, Passed(v, s, c1), c2) == Passed(v, s, c2)
  {
    hide RangeEvents, OrderedTxs, Txs, Linked, CursorOn, Scanned, Passed, Prepare;
    PassOverGrowth(v, u, g, s, c, c1);
    PassOverGrowth(v, u, g, s, c, c2);
    PassOverGrowth(v, u, g, Passed(v, s, c1), c1, c2);
    ScanTwice(v, s, Some(SyncedTip(|c1| - 1, c1[|c1| - 1].hash)), c1, c2, |c|);
  }

  lemma {:induction false} LastShownExtends(u: iset<Block>, g: Block, c: seq<Block>, cs: seq<seq<Block>>)
    requires ValidChain(u, g, c) && Growing(u, g, c, cs)
    ensures ValidChain(u, g, LastShown(c, cs)) && c <= LastShown(c, cs)
    decreases cs
  {
    hide ValidChain;
    if cs != [] {
      LastShownExtends(u, g, cs[0], cs[1..]);
    }
  }

  /** While the chain only grows, passes complete without a rollback, and amount to one pass over the last chain. */
  lemma {:induction false} PassesOverGrowth(v: ScanView, u: iset<Block>, g: Block, s: State, c: seq<Block>,
                                            cs: seq<seq<Block>>)
    requires ValidChain(u, g, c) && CursorOn(s, c, |c|) && Growing(u, g, c, cs)
    ensures var last := LastShown(c, cs);
            && ValidChain(u, g, last) && c <= last && CanStart(s, last)
            && PassAll(v, s, cs) == Some(if cs == [] then s else Passed(v, s, last))
    decreases cs
  {
    hide OrderedTxs, Txs, Linked, CursorOn, Passed, Prepare;
    LastShownExtends(u, g, c, cs);
    PassOverGrowth(v, u, g, s, c, LastShown(c, cs));
    if cs != [] {
      PassOverGrowth(v, u, g, s, c, cs[0]);
      LastShownExtends(u, g, cs[0], cs[1..]);
      PassesOverGrowth(v, u, g, Passed(v, s, cs[0]), cs[0], cs[1..]);
      PassTwice(v, u, g, s, c, cs[0], LastShown(c, cs));
    }
  }

  // ------------------------------------------------------------------
  // When passes over a growing chain repair a moved pass
  // ------------------------------------------------------------------

  /** What the clamp left above the cursor is within the chain `end` and comes again in it. */
  ghost predicate ClampRepaired(v: ScanView, p: seq<Block>, m: nat, n: nat, end: seq<Block>)
    requires n <= |p| && m <= |end|
  {
    m < n ==>
      && n <= |end|
      && OrphansReappear(RangeEvents(v, end, 0, m), RangeEvents(v, p, m, n), RangeEvents(v, end, m, |end|))
  }

  /** A clamped pass leaves all it knew over a lower cursor: a scan cut short, as far as the next pass can tell. */
  lemma ClampLeaves(v: ScanView, u: iset<Block>, g: Block, p: seq<Block>, ans: Answers, read: seq<Block>)
    requires Applied(u, g, p) && Answered(Replayed(v, p), g, ans)
    requires 0 < |read| < MovedPlan(Replayed(v, p), ans).start
    requires |read| <= |p| ==> read == p[..|read|] && ans.atTip == p[|read| - 1].hash
    ensures var n := MovedPlan(Replayed(v, p), ans).start;
            && n <= |p|
            && LeftOver(v, p, |read|, n, n, MovedPass(v, Replayed(v, p), ans, read))
            && forall h: nat :: h in MovedPass(v, Replayed(v, p), ans, read).blocks <==> h < n
  {
    hide RangeEvents, OrderedTxs, Txs, Linked, Ledger, Upserted, Created, MovedPlan, MovedPass, Replayed;
    PreparedKeepsPrefix(v, u, g, p, ans);
    ClampedPass(v, Replayed(v, p), ans, read);
    var n := MovedPlan(Replayed(v, p), ans).start;
    ReplayedPrefix(v, p, n);
    RangeConcat(v, p, 0, |read|, n);
    NothingLeft(v, p, n, Ledger(RangeEvents(v, p, 0, n)));
  }

  lemma ClampRepairedIff(v: ScanView, u: iset<Block>, g: Block, p: seq<Block>, ans: Answers, read: seq<Block>,
                         end: seq<Block>)
    requires Binding(u) && Applied(u, g, p) && ValidChain(u, g, end)
    requires Answered(Replayed(v, p), g, ans)
    requires 0 < |read| < MovedPlan(Replayed(v, p), ans).start
    requires |read| <= |p| ==> read == p[..|read|]
    requires read <= end && ans.atTip == end[|read| - 1].hash
    ensures var n, now := MovedPlan(Replayed(v, p), ans).start,
                          MovedPass(v, Replayed(v, p), ans, read);
            && n <= |p| && CanStart(now, end)
            && (Passed(v, now, end) == SyncedTo(v, end) <==> ClampRepaired(v, p, |read|, n, end))
  {
    hide RangeEvents, OrderedTxs, Txs, Linked, Ledger, LeftOver, OrphansReappear, MovedPass, MovedPlan, Replayed,
         Passed, SyncedTo;
    var m, n := |read|, MovedPlan(Replayed(v, p), ans).start;
    var now := MovedPass(v, Replayed(v, p), ans, read);
    PreparedKeepsPrefix(v, u, g, p, ans);
    assert p[..m][m - 1] == p[m - 1] && end[..m][m - 1] == end[m - 1];
    ClampLeaves(v, u, g, p, ans, read);
    LeftOverIff(v, u, g, p, m, n, n, now, end);
    RangeOfPrefix(v, p, 0, m, m);
    RangeOfPrefix(v, end, 0, m, m);
    NothingLeft(v, p, n, map[]);
    assert n > |end| ==> |end| in now.blocks;
  }

  /**
   Passes over a growing chain end in the replay after a moved pass exactly when
   the blocks the moved pass stood on are the node's and, if its start height was
   clamped, the node's chain has grown past the blocks left above the cursor and
   leaves every trace they left. Wrong blocks stay for good: the cursor names the
   node's block, so nothing is rolled back.
   */
  lemma {:induction false} MovedPassRepairedIff(v: ScanView, u: iset<Block>, g: Block, p: seq<Block>,
                                                ans: Answers, read: seq<Block>, last: seq<Block>,
                                                cs: seq<seq<Block>>)
    requires Binding(u) && Applied(u, g, p) && ValidChain(u, g, last)
    requires Answered(Replayed(v, p), g, ans)
    requires 0 < |read| <= |last| && ans.atTip == last[|read| - 1].hash && forall b :: b in read ==> b in u
    requires var n := MovedPlan(Replayed(v, p), ans).start;
             forall h :: 0 <= h < n && h < |p| && h < |read| ==> read[h] == p[h]
    requires Growing(u, g, last[..|read|], cs)
    ensures var n, c := MovedPlan(Replayed(v, p), ans).start, last[..|read|];
            var now, end := MovedPass(v, Replayed(v, p), ans, read), LastShown(c, cs);
            && n <= |p| && c <= end && PassAll(v, now, cs).Some?
            && (PassAll(v, now, cs).value == SyncedTo(v, end) <==> read == c && ClampRepaired(v, p, |read|, n, end))
            && (now == SyncedTo(v, c) <==> read == c && n <= |read|)
  {
    hide OrderedTxs, Txs, Linked, Binding, MovedPass, MovedPlan, PassAll, Growing, Replayed, SyncedTo, Passed,
         OrphansReappear;
    var n, c := MovedPlan(Replayed(v, p), ans).start, last[..|read|];
    var now, end := MovedPass(v, Replayed(v, p), ans, read), LastShown(c, cs);
    ValidPrefix(u, g, last, |read|);
    PreparedKeepsPrefix(v, u, g, p, ans);
    MovedTip(v, Replayed(v, p), ans, read);
    MovedPassIff(v, u, g, p, ans, read, last);
    ContinuousIff(u, g, n, read, last);
    MovedBlocks(v, u, g, p, ans, read);
    PassesOverGrowth(v, u, g, now, c, cs);
    assert end[|read| - 1] == last[|read| - 1];
    if read != c {
      WrongBlockStays(v, u, g, now, c, end, read);
    } else if n <= |read| {
      SyncedIsResumable(v, u, g, c);
      ReplayGrows(v, u, g, c, end);
    } else {
      assert read == p[..|read|];
      ClampRepairedIff(v, u, g, p, ans, read, end);
    }
  }

  lemma ReplayGrows(v: ScanView, u: iset<Block>, g: Block, c: seq<Block>, c': seq<Block>)
    requires Binding(u) && ValidChain(u, g, c) && ValidChain(u, g, c') && c <= c'
    ensures CanStart(SyncedTo(v, c), c') && Passed(v, SyncedTo(v, c), c') == SyncedTo(v, c')
  {
    hide RangeEvents, OrderedTxs, Txs, Linked, Ledger, Resumable, Passed;
    SyncedIsResumable(v, u, g, c);
    PassCompletes(v, u, g, c, |c|, SyncedTo(v, c), c');
  }

  lemma WrongBlockStays(v: ScanView, u: iset<Block>, g: Block, now: State, c: seq<Block>, end: seq<Block>,
                        read: seq<Block>)
    requires ValidChain(u, g, end) && 0 < |read| == |c| && c <= end && read != c && CursorOn(now, c, |c|)
    requires forall h :: 0 <= h < |read| ==> h in now.blocks && now.blocks[h] == StoredBlock(read[h].hash, read[h])
    ensures now != SyncedTo(v, end) && CanStart(now, end) && Passed(v, now, end) != SyncedTo(v, end)
  {
    hide RangeEvents, OrderedTxs, Txs, Linked, Ledger, Scan, Passed, SyncedTo;
    PassOverGrowth(v, u, g, now, c, end);
    WrongBlockShows(v, now, now, read, c, end);
    WrongBlockShows(v, now, Passed(v, now, end), read, c, end);
  }

  /** Stores that keep the blocks of `read` are not a replay of a chain with other blocks there. */
  lemma WrongBlockShows(v: ScanView, now: State, after: State, read: seq<Block>, c: seq<Block>, end: seq<Block>)
    requires 0 < |read| == |c| && c <= end
    requires forall h :: 0 <= h < |read| ==> h in now.blocks && now.blocks[h] == StoredBlock(read[h].hash, read[h])
    requires forall h :: 0 <= h < |c| && h in now.blocks ==> h in after.blocks && after.blocks[h] == now.blocks[h]
    ensures after == SyncedTo(v, end) ==> read == c
  {
    hide RangeEvents, Ledger;
    if after == SyncedTo(v, end) {
      forall h | 0 <= h < |read|
        ensures read[h] == c[h]
      {
        assert SyncedTo(v, end).blocks[h] == StoredBlock(end[h].hash, end[h]);
        assert end[h] == c[h];
      }
    }
  }

  lemma MovedTip(v: ScanView, s: State, ans: Answers, read: seq<Block>)
    requires s.tip.Some? ==> s.tip.value.height < |ans.search|
    requires read != []
    ensures MovedPass(v, s, ans, read).tip == Some(SyncedTip(|read| - 1, ans.atTip))
  {
  }

  /**
   The deposit's block is scanned, then the node drops it just before it is asked
   for the hash at the tip: the cursor names the new block over the old block's
   records, the next pass sees nothing to roll back, and the deposit stays.
   */
  lemma {:induction false} ReorgBeforeCursorLeavesPhantom()
    ensures Binding(BLOCKS) && ValidChain(BLOCKS, GENESIS, PAID) && ValidChain(BLOCKS, GENESIS, UNPAID)
    ensures var now := MovedPass(Watching(), EMPTY, Answers(0, [], SILENT.hash), PAID);
            && now.tip == Some(SyncedTip(1, SILENT.hash))
            && Enabled(now, UNPAID) && Prepare(now, UNPAID).reorgTo.None?
            && COIN in Unspent(Passed(Watching(), now, UNPAID).utxos)
            && COIN !in SyncedTo(Watching(), UNPAID).utxos
  {
    ExampleChains();
    ExampleEvents();
    ExampleLedgers();
    hide RangeEvents, Watching, ValidChain, Ledger, MovedPass, Passed, Scan, Enabled, Prepare, Unspent;
    var ans := Answers(0, [], SILENT.hash);
    var now := MovedPass(Watching(), EMPTY, ans, PAID);
    FromFresh(Watching(), ans, PAID);
    OneCreationScanned(DEPOSITED);
    NothingToScan(Watching(), now, UNPAID);
  }

  /** From fresh stores there is nothing to roll back. */
  lemma FromFresh(v: ScanView, ans: Answers, c: seq<Block>)
    requires c != []
    ensures MovedPass(v, EMPTY, ans, c).utxos == Scan(map[], ChainEvents(v, c))
    ensures MovedPass(v, EMPTY, ans, c).tip == Some(SyncedTip(|c| - 1, ans.atTip))
  {
    hide RangeEvents, Scan, StoredThrough;
  }

  lemma OneCreationScanned(u: CapturedUtxo)
    requires !u.isSpent
    ensures u.outpoint in Unspent(Scan(map[], [Create(u)]))
  {
    var es := [Create(u)];
    assert es[..0] == [] && Scan(map[], es[..0]) == map[];
    assert Scan(map[], es) == map[u.outpoint := Entry(u, None)];
  }

  /** With the cursor on the node's tip a pass leaves the records alone. */
  lemma NothingToScan(v: ScanView, s: State, c: seq<Block>)
    requires 0 < |c| <= U32_MAX && s.tip == Some(SyncedTip(|c| - 1, c[|c| - 1].hash))
    ensures Enabled(s, c) && Prepare(s, c).reorgTo.None? && Passed(v, s, c).utxos == s.utxos
  {
    assert RangeEvents(v, c, |c|, |c|) == [];
    hide StoredThrough;
  }

  /** Below the clamped start nothing is read: only the cursor moves. */
  lemma ClampedPass(v: ScanView, s: State, ans: Answers, read: seq<Block>)
    requires s.tip.Some? ==> s.tip.value.height < |ans.search|
    requires 0 < |read| <= MovedPlan(s, ans).start
    ensures MovedPass(v, s, ans, read) ==
            MovedPlan(s, ans).state.(tip := Some(SyncedTip(|read| - 1, ans.atTip)))
  {
    var blocks := MovedPlan(s, ans).state.blocks;
    assert RangeEvents(v, read, |read|, |read|) == [];
    assert StoredThrough(blocks, read, |read|, |read|) == blocks;
  }

  /**
   A clamped pass over a node that in fact never changed its blocks is not the replay
   it names, but the next pass over the whole chain puts it right ...
   */
  lemma {:induction false} ClampForgiven(v: ScanView, u: iset<Block>, g: Block, p: seq<Block>, m: nat)
    requires Binding(u) && ValidChain(u, g, p) && 0 < m < |p|
    ensures CanStart(Replayed(v, p), p)
    ensures var now := MovedPass(v, Replayed(v, p), Fixed(Replayed(v, p), p).(atTip := p[m - 1].hash), p[..m]);
            && now != SyncedTo(v, p[..m])
            && PassAll(v, now, [p]) == Some(SyncedTo(v, p))
  {
    hide OrderedTxs, Txs, Linked, Binding, MovedPass, MovedPlan, PassAll, SyncedTo, Ledger, RangeEvents;
    var c := p[..m];
    FixedStart(v, p, p[m - 1].hash);
    assert Growing(u, g, c, [p]) && LastShown(c, [p]) == p by {
      assert [p][1..] == [];
    }
    assert p[..m][m - 1] == p[m - 1];
    MovedPassRepairedIff(v, u, g, p, Fixed(Replayed(v, p), p).(atTip := p[m - 1].hash), c, p, [p]);
  }

  lemma FixedStart(v: ScanView, p: seq<Block>, tipHash: BlockHash)
    requires 0 < |p| <= U32_MAX
    ensures CanStart(Replayed(v, p), p)
    ensures var ans := Fixed(Replayed(v, p), p).(atTip := tipHash);
            Answered(Replayed(v, p), p[0], ans) && MovedPlan(Replayed(v, p), ans).start == |p|
  {
  }

  /**
   ... unless the node has dropped what lies above the cursor. It is asked for its
   tip while it shows the genesis block only, shows the longer chain again when asked
   for the hash at the cursor, so that the clamp fires and the cursor moves down
   without a rollback, and then replaces the deposit's block.
   */
  lemma {:induction false} ClampLowersCursor()
    ensures Binding(BLOCKS) && ValidChain(BLOCKS, GENESIS, PAID) && ValidChain(BLOCKS, GENESIS, UNPAID)
    ensures var s := SyncedTo(Watching(), PAID);
            var now := MovedPass(Watching(), s, Answers(PAYING.hash, PAID, GENESIS.hash), [GENESIS]);
            && MovedPlan(s, Answers(PAYING.hash, PAID, GENESIS.hash)).start > |[GENESIS]|
            && now == s.(tip := Some(SyncedTip(0, GENESIS.hash)))
            && COIN in s.utxos && s.utxos[COIN].utxo.height == 1
            && Enabled(now, UNPAID) && Passed(Watching(), now, UNPAID) != SyncedTo(Watching(), UNPAID)
  {
    hide RangeEvents, Watching, Ledger, ValidChain, Passed, MovedPass;
    var v, s := Watching(), SyncedTo(Watching(), PAID);
    ExampleChains();
    ExampleEvents();
    DepositRecord();
    var ans := Answers(PAYING.hash, PAID, GENESIS.hash);
    ClampedPass(v, s, ans, [GENESIS]);
    assert PAID[..1] == [GENESIS] && [GENESIS] <= UNPAID;
    ClampRepairedIff(v, BLOCKS, GENESIS, PAID, ans, [GENESIS], UNPAID);
    DepositLost(v);
  }

  lemma DepositLost(v: ScanView)
    requires v == Watching()
    ensures !ClampRepaired(v, PAID, 1, 2, UNPAID)
  {
    ExampleEvents();
    EmptyRange(v, PAID, 0);
    RangeConcat(v, PAID, 0, 1, 2);
    hide RangeEvents, Watching;
    assert RangeEvents(v, PAID, 1, 2) == [Create(DEPOSITED)];
    assert [Create(DEPOSITED)][..0] == [] && Captures([Create(DEPOSITED)]) == map[COIN := DEPOSITED];
    assert !OrphanReappears(RangeEvents(v, UNPAID, 0, 1), [Create(DEPOSITED)], [], COIN);
  }

  lemma DepositRecord()
    ensures COIN in Ledger([Create(DEPOSITED)]) && Ledger([Create(DEPOSITED)])[COIN].utxo.height == 1
  {
    var es := [Create(DEPOSITED)];
    CapturesAre(es, COIN);
    assert es[0].utxo == DEPOSITED && es[0].Create?;
  }
}
