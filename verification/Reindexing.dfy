/**
 The engine is built afresh for each pass, possibly watching more scripts than
 before. What a pass under a new script index leaves, and when that is the
 replay under the new index.
 */
module Reindexing {
  import opened ChainModel
  import opened Events
  import opened Recovery
  import opened Matching
  import opened ReplayMeaning
  import opened Pass
  import opened History
  import opened Accounts
  import opened Limits

  /** Blocks below `n` read under one index, blocks from `n` on under another: creations are still fresh. */
  lemma {:induction false} MixedOrdered(v: ScanView, w: ScanView, c: seq<Block>, n: nat, k: nat)
    requires OrderedTxs(Txs(c)) && n <= k <= |c|
    ensures WellOrdered(RangeEvents(v, c, 0, n) + RangeEvents(w, c, n, k))
    ensures ComesFrom(RangeEvents(v, c, 0, n) + RangeEvents(w, c, n, k), Txs(c[..k]))
    decreases k
  {
    hide WellOrdered, ComesFrom, OrderedTxs, BlockEvents;
    var before := RangeEvents(v, c, 0, n);
    TxsPrefix(c, k);
    OrderedPrefix(Txs(c), |Txs(c[..k])|);
    assert Txs(c)[..|Txs(c[..k])|] == Txs(c[..k]);
    if k == n {
      FreshChain(v, c[..n]);
      RangeOfPrefix(v, c, 0, n, n);
      assert before + RangeEvents(w, c, n, n) == before;
    } else {
      MixedOrdered(v, w, c, n, k - 1);
      var here := BlockEvents(w, k - 1, c[k - 1].txs);
      assert c[..k][..k - 1] == c[..k - 1];
      FreshBlock(w, k - 1, before + RangeEvents(w, c, n, k - 1), Txs(c[..k - 1]), c[k - 1].txs);
      assert before + (RangeEvents(w, c, n, k - 1) + here) == (before + RangeEvents(w, c, n, k - 1)) + here;
    }
  }

  // ------------------------------------------------------------------
  // Spends do not depend on what is watched
  // ------------------------------------------------------------------

  lemma {:induction false} OutputsSpendNothing(v: ScanView, h: nat, txid: Txid, outs: seq<TxOut>, op: OutPoint)
    ensures FirstSpend(OutputEvents(v, h, txid, outs), op).None?
  {
    OutputEventsAt(v, h, txid, outs);
    FirstSpendIs(OutputEvents(v, h, txid, outs), op);
  }

  lemma {:induction false} SameBlockSpends(v: ScanView, w: ScanView, h: nat, txs: seq<Tx>, op: OutPoint)
    ensures FirstSpend(BlockEvents(v, h, txs), op) == FirstSpend(BlockEvents(w, h, txs), op)
  {
    if txs != [] {
      var init, tx := txs[..|txs| - 1], txs[|txs| - 1];
      SameBlockSpends(v, w, h, init, op);
      OutputsSpendNothing(v, h, tx.txid, tx.outputs, op);
      OutputsSpendNothing(w, h, tx.txid, tx.outputs, op);
      FirstSpendConcat(InputEvents(tx.inputs, h), OutputEvents(v, h, tx.txid, tx.outputs), op);
      FirstSpendConcat(InputEvents(tx.inputs, h), OutputEvents(w, h, tx.txid, tx.outputs), op);
      FirstSpendConcat(BlockEvents(v, h, init), TxEvents(v, h, tx), op);
      FirstSpendConcat(BlockEvents(w, h, init), TxEvents(w, h, tx), op);
    }
  }

  lemma {:induction false} SameSpends(v: ScanView, w: ScanView, c: seq<Block>, lo: nat, hi: nat, op: OutPoint)
    requires hi <= |c|
    ensures FirstSpend(RangeEvents(v, c, lo, hi), op) == FirstSpend(RangeEvents(w, c, lo, hi), op)
  {
    if lo < hi {
      SameSpends(v, w, c, lo, hi - 1, op);
      SameBlockSpends(v, w, hi - 1, c[hi - 1].txs, op);
      FirstSpendConcat(RangeEvents(v, c, lo, hi - 1), BlockEvents(v, hi - 1, c[hi - 1].txs), op);
      FirstSpendConcat(RangeEvents(w, c, lo, hi - 1), BlockEvents(w, hi - 1, c[hi - 1].txs), op);
    }
  }

  /** Two ledgers that differ only in what came before agree exactly when the earlier captures do. */
  lemma LedgersAgreeIff(a: seq<Event>, b: seq<Event>, rest: seq<Event>)
    requires WellOrdered(a + rest) && WellOrdered(b + rest)
    requires forall op :: FirstSpend(a, op) == FirstSpend(b, op)
    ensures Ledger(a + rest) == Ledger(b + rest) <==> Captures(a) == Captures(b)
  {
    CapturesConcat(a, rest);
    CapturesConcat(b, rest);
    forall op
      ensures FirstSpend(a + rest, op) == FirstSpend(b + rest, op)
      ensures op in Captures(rest) ==> op !in Captures(a) && op !in Captures(b)
    {
      FirstSpendConcat(a, rest, op);
      FirstSpendConcat(b, rest, op);
      if op in Captures(rest) {
        CreatedLater(a, rest, op);
        CreatedLater(b, rest, op);
      }
    }
    if Ledger(a + rest) == Ledger(b + rest) {
      LedgersShowCaptures(a, b, rest);
    }
  }

  lemma LedgersShowCaptures(a: seq<Event>, b: seq<Event>, rest: seq<Event>)
    requires WellOrdered(a + rest) && WellOrdered(b + rest) && Ledger(a + rest) == Ledger(b + rest)
    ensures Captures(a) == Captures(b)
  {
    hide WellOrdered, Ledger, Captures;
    forall op
      ensures op in Captures(a) <==> op in Captures(b)
      ensures op in Captures(a) ==> Captures(a)[op] == Captures(b)[op]
    {
      SameCapture(a, b, rest, op);
    }
    assert Captures(a).Keys == Captures(b).Keys;
  }

  lemma SameCapture(a: seq<Event>, b: seq<Event>, rest: seq<Event>, op: OutPoint)
    requires WellOrdered(a + rest) && WellOrdered(b + rest) && Ledger(a + rest) == Ledger(b + rest)
    ensures op in Captures(a) <==> op in Captures(b)
    ensures op in Captures(a) ==> Captures(a)[op] == Captures(b)[op]
  {
    assert op in Ledger(a + rest) <==> op in Ledger(b + rest);
    CapturesConcat(a, rest);
    CapturesConcat(b, rest);
    WellOrderedParts(a, rest);
    WellOrderedParts(b, rest);
    if op in Captures(rest) {
      CreatedLater(a, rest, op);
      CreatedLater(b, rest, op);
    } else if op in Captures(a) {
      assert Ledger(a + rest)[op] == Ledger(b + rest)[op];
      CapturedUnspent(a, op);
      CapturedUnspent(b, op);
      assert Captures(a)[op] == Ledger(a + rest)[op].utxo.(isSpent := false);
      assert Captures(b)[op] == Ledger(b + rest)[op].utxo.(isSpent := false);
    }
  }

  // ------------------------------------------------------------------
  // A pass under another index
  // ------------------------------------------------------------------

  lemma PassedRecords(w: ScanView, s: State, c: seq<Block>)
    requires CanStart(s, c)
    ensures var plan := Prepare(s, c);
            && plan.start <= |c|
            && Passed(w, s, c).utxos == Scan(plan.state.utxos, RangeEvents(w, c, plan.start, |c|))
  {
  }

  /** Blocks below the start keep the old index's records, later ones get the new one's. */
  lemma {:induction false} PassUnderNewIndex(v: ScanView, w: ScanView, u: iset<Block>, g: Block, c0: seq<Block>,
                                             c: seq<Block>)
    requires Binding(u) && Applied(u, g, c0) && ValidChain(u, g, c) && CanStart(Replayed(v, c0), c)
    ensures var n := Prepare(Replayed(v, c0), c).start;
            && n <= |c|
            && Passed(w, Replayed(v, c0), c).utxos == Ledger(RangeEvents(v, c, 0, n) + RangeEvents(w, c, n, |c|))
  {
    hide WellOrdered, RangeEvents, Ledger, Scan, Prepare, Passed, Replayed, OrderedTxs, Txs, Linked, Binding;
    PassedRecords(w, Replayed(v, c0), c);
    ScansOntoReplay(v, u, g, c0, c);
    var n := Prepare(Replayed(v, c0), c).start;
    var before, rest := RangeEvents(v, c, 0, n), RangeEvents(w, c, n, |c|);
    MixedOrdered(v, w, c, n, |c|);
    RangeEventsAt(v, c, 0, n);
    RangeEventsAt(w, c, n, |c|);
    ScanOnReplay(before, rest, n, |c|);
  }

  /**
   A pass with a new index reaches the replay under that index exactly when the
   blocks it does not scan again hold the same captures under both: outputs paid
   earlier to a script that is watched only now are not found.
   */
  lemma {:induction false} NewIndexIff(v: ScanView, w: ScanView, u: iset<Block>, g: Block, c0: seq<Block>,
                                       c: seq<Block>)
    requires Binding(u) && Applied(u, g, c0) && ValidChain(u, g, c) && CanStart(Replayed(v, c0), c)
    ensures var n := Prepare(Replayed(v, c0), c).start;
            && n <= |c|
            && (Passed(w, Replayed(v, c0), c) == SyncedTo(w, c) <==>
                Captures(RangeEvents(v, c, 0, n)) == Captures(RangeEvents(w, c, 0, n)))
  {
    hide WellOrdered, RangeEvents, Ledger, Captures, FirstSpend, Resumable;
    var s := Replayed(v, c0);
    PassUnderNewIndex(v, w, u, g, c0, c);
    var n := Prepare(s, c).start;
    var a, b, rest := RangeEvents(v, c, 0, n), RangeEvents(w, c, 0, n), RangeEvents(w, c, n, |c|);
    MixedOrdered(v, w, c, n, |c|);
    MixedOrdered(w, w, c, n, |c|);
    RangeConcat(w, c, 0, n, |c|);
    forall op
      ensures FirstSpend(a, op) == FirstSpend(b, op)
    {
      SameSpends(v, w, c, 0, n, op);
    }
    LedgersAgreeIff(a, b, rest);
    ReplayedIsResumable(v, u, g, c0);
    CleanIsHarmless(v, u, g, World(s, c, c0, |c0|));
    PassCompletes(v, u, g, c0, |c0|, s, c);
    assert Passed(w, s, c).blocks == Passed(v, s, c).blocks && Passed(w, s, c).tip == Passed(v, s, c).tip;
  }

  /** No output belongs to a view that watches nothing. */
  lemma NothingWatched(v: ScanView, c: seq<Block>, op: OutPoint)
    requires v.index == map[] && OrderedTxs(Txs(c))
    ensures op !in Ledger(ChainEvents(v, c))
  {
    if op in Ledger(ChainEvents(v, c)) {
      LedgerHoldsOwnedOutputs(v, c, op, Ledger(ChainEvents(v, c))[op].utxo.(isSpent := false));
    }
  }

  /**
   A chain is scanned watching nothing, then a wallet is registered and a pass runs
   over the same chain: it completes, and the wallet's deposit is not found.
   */
  lemma {:induction false} EarlierDepositMissed()
    ensures Binding(BLOCKS) && ValidChain(BLOCKS, GENESIS, PAID)
    ensures var s := SyncedTo(RawView(map[], []), PAID);
            && Enabled(s, PAID)
            && COIN !in Passed(Watching(), s, PAID).utxos
            && COIN in SyncedTo(Watching(), PAID).utxos
  {
    ExampleChains();
    ExampleEvents();
    ExampleLedgers();
    NothingWatched(RawView(map[], []), PAID, COIN);
    hide Ledger, Watching;
    assert RangeEvents(Watching(), PAID, 2, 2) == [];
  }
}
