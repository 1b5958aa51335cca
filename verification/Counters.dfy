/** What the summary of a completed pass reports, field by field. */
module Counters {
  import opened Results
  import opened ChainModel
  import opened Matching
  import opened Pass
  import opened ScanEngine
  import opened History
  import opened Accounts
  import opened ReindexedRuns

  // ------------------------------------------------------------------
  // Outputs that are watched but do not unblind
  // ------------------------------------------------------------------

  /** Output `n` of transaction `k` of block `h`. */
  datatype Place = Place(h: nat, k: nat, n: nat)

  predicate Foreign(v: ScanView, out: TxOut) {
    && out.scriptPubkey in v.index
    && v.wollets[v.index[out.scriptPubkey].wolletIdx].unblind(out) == None
  }

  ghost function ForeignOutputs(v: ScanView, h: nat, k: nat, outs: seq<TxOut>): set<Place> {
    set n: nat | n < |outs| && Foreign(v, outs[n]) :: Place(h, k, n)
  }

  ghost function ForeignInBlock(v: ScanView, h: nat, txs: seq<Tx>): set<Place> {
    set k: nat, n: nat | k < |txs| && n < |txs[k].outputs| && Foreign(v, txs[k].outputs[n]) :: Place(h, k, n)
  }

  ghost function ForeignIn(v: ScanView, c: seq<Block>, lo: nat, hi: nat): set<Place>
    requires hi <= |c|
  {
    set h: nat, k: nat, n: nat |
      lo <= h < hi && k < |c[h].txs| && n < |c[h].txs[k].outputs| && Foreign(v, c[h].txs[k].outputs[n])
      :: Place(h, k, n)
  }

  lemma Disjoint<T>(a: set<T>, b: set<T>, all: set<T>)
    requires a !! b && forall x :: x in all <==> x in a || x in b
    ensures |all| == |a| + |b|
  {
    assert all == a + b;
  }

  lemma {:induction false} OutputsCount(v: ScanView, h: nat, k: nat, outs: seq<TxOut>)
    ensures |ForeignOutputs(v, h, k, outs)| == SkippedOutputs(v, outs)
  {
    if outs == [] {
      assert ForeignOutputs(v, h, k, outs) == {};
    } else {
      var n := |outs| - 1;
      var here := if Foreign(v, outs[n]) then {Place(h, k, n)} else {};
      OutputsCount(v, h, k, outs[..n]);
      assert forall i :: 0 <= i < n ==> outs[..n][i] == outs[i];
      Disjoint(ForeignOutputs(v, h, k, outs[..n]), here, ForeignOutputs(v, h, k, outs));
    }
  }

  lemma BlockStep(v: ScanView, h: nat, txs: seq<Tx>, k: nat)
    requires k + 1 == |txs|
    ensures |ForeignInBlock(v, h, txs)| == |ForeignInBlock(v, h, txs[..k])| + |ForeignOutputs(v, h, k, txs[k].outputs)|
  {
    assert forall i :: 0 <= i < k ==> txs[..k][i] == txs[i];
    Disjoint(ForeignInBlock(v, h, txs[..k]), ForeignOutputs(v, h, k, txs[k].outputs), ForeignInBlock(v, h, txs));
  }

  lemma {:induction false} BlockCount(v: ScanView, h: nat, txs: seq<Tx>)
    ensures |ForeignInBlock(v, h, txs)| == SkippedInBlock(v, txs)
  {
    if txs == [] {
      assert ForeignInBlock(v, h, txs) == {};
    } else {
      var k := |txs| - 1;
      BlockCount(v, h, txs[..k]);
      BlockStep(v, h, txs, k);
      OutputsCount(v, h, k, txs[k].outputs);
    }
  }

  lemma RangeStep(v: ScanView, c: seq<Block>, lo: nat, h: nat)
    requires lo <= h < |c|
    ensures |ForeignIn(v, c, lo, h + 1)| == |ForeignIn(v, c, lo, h)| + |ForeignInBlock(v, h, c[h].txs)|
  {
    Disjoint(ForeignIn(v, c, lo, h), ForeignInBlock(v, h, c[h].txs), ForeignIn(v, c, lo, h + 1));
  }

  lemma {:induction false} SkippedMeans(v: ScanView, c: seq<Block>, lo: nat, hi: nat)
    requires hi <= |c|
    ensures |ForeignIn(v, c, lo, hi)| == SkippedIn(v, c, lo, hi)
  {
    if hi <= lo {
      assert ForeignIn(v, c, lo, hi) == {};
    } else {
      SkippedMeans(v, c, lo, hi - 1);
      RangeStep(v, c, lo, hi - 1);
      BlockCount(v, hi - 1, c[hi - 1].txs);
    }
  }

  // ------------------------------------------------------------------
  // The summary
  // ------------------------------------------------------------------

  /** For any stores: blocks from the start on, records written, unspent records spent, foreign outputs met. */
  lemma {:induction false} SummaryMeans(v: ScanView, s: State, c: seq<Block>)
    requires CanStart(s, c)
    ensures var plan, sum := Prepare(s, c), Summary(v, s, c);
            && plan.start <= |c|
            && var es := RangeEvents(v, c, plan.start, |c|);
               && sum.blocksScanned == |c| - plan.start
               && sum.utxosCaptured == CapturedSum(es, _ => 1)
               && sum.utxosSpent == SpentSum(plan.state.utxos, es, _ => 1)
               && sum.skippedUnblindable == |ForeignIn(v, c, plan.start, |c|)|
  {
    hide Prepare, RangeEvents, ForeignIn, SkippedIn;
    StartInRange(s, c);
    var plan := Prepare(s, c);
    CountersAreSums(plan.state.utxos, RangeEvents(v, c, plan.start, |c|));
    SkippedMeans(v, c, plan.start, |c|);
  }

  /**
   From fresh stores or a replay: no reorganisation is reported exactly when the node's
   chain extends the one applied; otherwise the last height at which the two agree, and
   the scan starts above it.
   */
  lemma {:induction false} ReportedFork(v: ScanView, u: iset<Block>, g: Block, c0: seq<Block>, c: seq<Block>)
    requires Binding(u) && Applied(u, g, c0) && ValidChain(u, g, c) && CanStart(Replayed(v, c0), c)
    ensures var sum := Summary(v, Replayed(v, c0), c);
            && (sum.reorgTo.None? <==> c0 <= c)
            && (sum.reorgTo.None? ==> sum.blocksScanned == |c| - |c0|)
            && (sum.reorgTo.Some? ==>
                  var a := sum.reorgTo.value;
                  && a + 1 < |c0| && a + 1 < |c| && c0[..a + 1] == c[..a + 1] && c0[a + 1] != c[a + 1]
                  && sum.blocksScanned == |c| - (a + 1))
  {
    hide OrderedTxs, Txs, Linked, Binding, Replayed, Ancestor, Summary, Prepare;
    SummaryPlan(v, Replayed(v, c0), c);
    CursorOfReplay(v, c0);
    PlanOf(Replayed(v, c0), c);
    StartOfReplay(v, u, g, c0, c);
    if c0 != [] {
      ForkReported(v, u, g, c0, c);
    }
  }

  lemma SummaryPlan(v: ScanView, s: State, c: seq<Block>)
    requires CanStart(s, c)
    ensures Prepare(s, c).start <= |c|
    ensures Summary(v, s, c).reorgTo == Prepare(s, c).reorgTo
    ensures Prepare(s, c).reorgTo.Some? ==> Prepare(s, c).start == Prepare(s, c).reorgTo.value + 1
    ensures Summary(v, s, c).blocksScanned == |c| - Prepare(s, c).start
  {
    hide Prepare, RangeEvents, Hits, SkippedIn;
    StartInRange(s, c);
    PlanFork(s, c);
  }

  lemma PlanFork(s: State, c: seq<Block>)
    requires CanStart(s, c)
    ensures Prepare(s, c).reorgTo.Some? ==> Prepare(s, c).start == Prepare(s, c).reorgTo.value + 1
  {
  }

  lemma ForkReported(v: ScanView, u: iset<Block>, g: Block, c0: seq<Block>, c: seq<Block>)
    requires Binding(u) && ValidChain(u, g, c0) && ValidChain(u, g, c) && |c0| <= |c|
    ensures c[|c0| - 1].hash == c0[|c0| - 1].hash <==> c0 <= c
    ensures c[|c0| - 1].hash != c0[|c0| - 1].hash ==>
              var a := Ancestor(Replayed(v, c0).blocks, c, |c0| - 1);
              a + 1 < |c0| && c0[..a + 1] == c[..a + 1] && c0[a + 1] != c[a + 1]
  {
    hide OrderedTxs, Txs, Linked, Binding, Ancestor, Replayed, SyncedTo;
    CursorOfReplay(v, c0);
    if c[|c0| - 1].hash == c0[|c0| - 1].hash {
      CursorShown(u, g, c0, c);
      assert c0 == c[..|c0|];
    } else {
      ForkFound(v, u, g, c0, c);
    }
  }

  lemma ForkFound(v: ScanView, u: iset<Block>, g: Block, c0: seq<Block>, c: seq<Block>)
    requires Binding(u) && ValidChain(u, g, c0) && ValidChain(u, g, c) && |c0| <= |c|
    requires c[|c0| - 1].hash != c0[|c0| - 1].hash
    ensures var a := Ancestor(SyncedTo(v, c0).blocks, c, |c0| - 1);
            a + 1 < |c0| && c0[..a + 1] == c[..a + 1] && c0[a + 1] != c[a + 1]
  {
    hide OrderedTxs, Txs, Linked, Binding, Resumable, Ancestor, SyncedTo;
    var last := |c0| - 1;
    assert c0[last] != c[last];
    SyncedIsResumable(v, u, g, c0);
    AncestorIsForkPoint(v, u, g, c0, |c0|, SyncedTo(v, c0), c);
    var a := Ancestor(SyncedTo(v, c0).blocks, c, last);
    assert a + 1 < |c0| && c0[a + 1] != c[a + 1];
  }
}
