/** The ledger of a chain, read off the chain's transactions instead of its events. */
module ReplayMeaning {
  import opened Results
  import opened ChainModel
  import opened Events
  import opened Recovery
  import opened Matching

  /** Block `h` has an output `op` that the view owns and can unblind, giving the record `u`. */
  ghost predicate PaysAt(v: ScanView, c: seq<Block>, h: nat, op: OutPoint, u: CapturedUtxo) {
    && h < |c|
    && exists tx :: tx in c[h].txs && Pays(v, h, tx, op, u)
  }

  predicate Pays(v: ScanView, h: nat, tx: Tx, op: OutPoint, u: CapturedUtxo) {
    && tx.txid == op.txid
    && op.vout < |tx.outputs|
    && Capture(v, h, op, tx.outputs[op.vout]) == Some(u)
  }

  /** Some transaction of block `h` has `op` among its inputs. */
  ghost predicate SpendsAt(c: seq<Block>, h: nat, op: OutPoint) {
    && h < |c|
    && exists tx :: tx in c[h].txs && op in tx.inputs
  }

  // ------------------------------------------------------------------
  // Which events occur
  // ------------------------------------------------------------------

  lemma {:induction false} OutputOccurs(v: ScanView, h: nat, txid: Txid, outs: seq<TxOut>, e: Event)
    ensures e in OutputEvents(v, h, txid, outs) <==>
            && e.Create? && e.utxo.outpoint.txid == txid && e.utxo.outpoint.vout < |outs|
            && Capture(v, h, e.utxo.outpoint, outs[e.utxo.outpoint.vout]) == Some(e.utxo)
  {
    if outs != [] {
      var init := outs[..|outs| - 1];
      OutputOccurs(v, h, txid, init, e);
      assert e in OutputEvents(v, h, txid, outs) <==>
             e in OutputEvents(v, h, txid, init) || e in OutputEvent(v, h, OutPoint(txid, |init|), outs[|init|]);
      if e.Create? && e.utxo.outpoint.vout < |init| {
        assert outs[e.utxo.outpoint.vout] == init[e.utxo.outpoint.vout];
      }
    }
  }

  ghost predicate OccursIn(v: ScanView, h: nat, tx: Tx, e: Event) {
    match e
    case Spend(op, at) => at == h && op in tx.inputs
    case Create(u) => Pays(v, h, tx, u.outpoint, u)
  }

  lemma TxOccurs(v: ScanView, h: nat, tx: Tx, e: Event)
    ensures e in TxEvents(v, h, tx) <==> OccursIn(v, h, tx, e)
  {
    InputEventsAt(tx.inputs, h);
    OutputOccurs(v, h, tx.txid, tx.outputs, e);
    var ins := InputEvents(tx.inputs, h);
    if e.Spend? && e.height == h && e.outpoint in tx.inputs {
      var i :| 0 <= i < |tx.inputs| && tx.inputs[i] == e.outpoint;
      assert ins[i] == e;
    }
    if e in ins {
      var i :| 0 <= i < |ins| && ins[i] == e;
      assert e == Spend(tx.inputs[i], h);
    }
  }

  lemma {:induction false} BlockOccurs(v: ScanView, h: nat, txs: seq<Tx>, e: Event)
    ensures e in BlockEvents(v, h, txs) <==> exists tx :: tx in txs && OccursIn(v, h, tx, e)
  {
    if txs != [] {
      var init, last := txs[..|txs| - 1], txs[|txs| - 1];
      BlockOccurs(v, h, init, e);
      TxOccurs(v, h, last, e);
      assert forall tx :: tx in txs <==> tx in init || tx == last;
    }
  }

  lemma {:induction false} RangeOccurs(v: ScanView, c: seq<Block>, lo: nat, hi: nat, e: Event)
    requires hi <= |c|
    ensures e in RangeEvents(v, c, lo, hi) <==>
            lo <= HeightOf(e) < hi && e in BlockEvents(v, HeightOf(e), c[HeightOf(e)].txs)
  {
    hide BlockEvents;
    if lo < hi {
      RangeOccurs(v, c, lo, hi - 1, e);
      assert e in RangeEvents(v, c, lo, hi) <==>
             e in RangeEvents(v, c, lo, hi - 1) || e in BlockEvents(v, hi - 1, c[hi - 1].txs);
      BlockEventsAt(v, hi - 1, c[hi - 1].txs);
      assert forall x :: x in BlockEvents(v, hi - 1, c[hi - 1].txs) ==> HeightOf(x) == hi - 1;
    }
  }

  // ------------------------------------------------------------------
  // The ledger
  // ------------------------------------------------------------------

  /**
   One record per owned, unblindable output of the chain, carrying the height of
   its block; nothing else.
   */
  lemma {:induction false} LedgerHoldsOwnedOutputs(v: ScanView, c: seq<Block>, op: OutPoint, u: CapturedUtxo)
    requires OrderedTxs(Txs(c))
    ensures (op in Ledger(ChainEvents(v, c)) && Ledger(ChainEvents(v, c))[op].utxo.(isSpent := false) == u) <==>
            exists h: nat :: PaysAt(v, c, h, op, u)
  {
    hide WellOrdered, OrderedTxs, RangeEvents, BlockEvents, Captures, PaysAt;
    FreshChain(v, c);
    LedgerHoldsCreated(v, c, op, u);
    if h: nat :| PaysAt(v, c, h, op, u) {
      PaidIsCreated(v, c, h, op, u);
    }
    if Create(u) in ChainEvents(v, c) && u.outpoint == op {
      CreatedIsPaid(v, c, op, u);
    }
  }

  lemma LedgerHoldsCreated(v: ScanView, c: seq<Block>, op: OutPoint, u: CapturedUtxo)
    requires WellOrdered(ChainEvents(v, c))
    ensures (op in Ledger(ChainEvents(v, c)) && Ledger(ChainEvents(v, c))[op].utxo.(isSpent := false) == u) <==>
            Create(u) in ChainEvents(v, c) && u.outpoint == op
  {
    hide RangeEvents, Captures;
    var es := ChainEvents(v, c);
    CapturesAre(es, op);
    RangeEventsAt(v, c, 0, |c|);
    if op in Captures(es) {
      CapturesFacts(es, 0, |c|, op);
      var p :| 0 <= p < |es| && es[p].Create? && es[p].utxo.outpoint == op;
    }
    if Create(u) in es && u.outpoint == op {
      var p :| 0 <= p < |es| && es[p] == Create(u);
    }
  }

  lemma PaidIsCreated(v: ScanView, c: seq<Block>, h: nat, op: OutPoint, u: CapturedUtxo)
    requires PaysAt(v, c, h, op, u)
    ensures Create(u) in ChainEvents(v, c) && u.outpoint == op
  {
    hide RangeEvents, BlockEvents;
    RangeOccurs(v, c, 0, |c|, Create(u));
    BlockOccurs(v, h, c[h].txs, Create(u));
    var tx :| tx in c[h].txs && Pays(v, h, tx, op, u);
    assert OccursIn(v, h, tx, Create(u));
  }

  lemma CreatedIsPaid(v: ScanView, c: seq<Block>, op: OutPoint, u: CapturedUtxo)
    requires Create(u) in ChainEvents(v, c) && u.outpoint == op
    ensures PaysAt(v, c, u.height, op, u)
  {
    hide RangeEvents, BlockEvents;
    RangeOccurs(v, c, 0, |c|, Create(u));
    BlockOccurs(v, u.height, c[u.height].txs, Create(u));
  }

  /** The recorded spend height is the first height at which the chain spends the output. */
  lemma {:induction false} SpendHeightIsFirst(v: ScanView, c: seq<Block>, op: OutPoint)
    ensures FirstSpend(ChainEvents(v, c), op).None? <==> forall h :: 0 <= h < |c| ==> !SpendsAt(c, h, op)
    ensures FirstSpend(ChainEvents(v, c), op).Some? ==>
              var h := FirstSpend(ChainEvents(v, c), op).value;
              SpendsAt(c, h, op) && forall g :: 0 <= g < h ==> !SpendsAt(c, g, op)
  {
    var es := ChainEvents(v, c);
    FirstSpendIs(es, op);
    forall h: nat | SpendsAt(c, h, op)
      ensures FirstSpend(es, op).Some? && FirstSpend(es, op).value <= h
    {
      SpendBounds(v, c, op, h);
    }
    if FirstSpend(es, op).Some? {
      var h := FirstSpend(es, op).value;
      assert Spend(op, h) in es;
      RangeOccurs(v, c, 0, |c|, Spend(op, h));
      BlockOccurs(v, h, c[h].txs, Spend(op, h));
      assert SpendsAt(c, h, op);
    }
  }

  lemma SpendBounds(v: ScanView, c: seq<Block>, op: OutPoint, h: nat)
    requires SpendsAt(c, h, op)
    ensures FirstSpend(ChainEvents(v, c), op).Some? && FirstSpend(ChainEvents(v, c), op).value <= h
  {
    var upTo := RangeEvents(v, c, 0, h + 1);
    RangeOccurs(v, c, 0, h + 1, Spend(op, h));
    BlockOccurs(v, h, c[h].txs, Spend(op, h));
    var tx :| tx in c[h].txs && op in tx.inputs;
    assert OccursIn(v, h, tx, Spend(op, h));
    FirstSpendIs(upTo, op);
    RangeEventsAt(v, c, 0, h + 1);
    FirstSpendFacts(upTo, 0, h + 1, op);
    RangeConcat(v, c, 0, h + 1, |c|);
    FirstSpendConcat(upTo, RangeEvents(v, c, h + 1, |c|), op);
  }

  // ------------------------------------------------------------------
  // Inside a block, and back to the owner
  // ------------------------------------------------------------------

  lemma PartOfBlock(v: ScanView, c: seq<Block>, h: nat, done: seq<Event>, todo: seq<Event>)
    requires OrderedTxs(Txs(c)) && h < |c|
    requires BlockEvents(v, h, c[h].txs) == done + todo
    ensures WellOrdered(RangeEvents(v, c, 0, h) + done)
    ensures HeightsWithin(done, h, h + 1)
  {
    hide WellOrdered, OrderedTxs, RangeEvents, BlockEvents;
    var before := RangeEvents(v, c, 0, h);
    FreshChain(v, c);
    FreshRanges(v, c, 0, h + 1);
    RangeConcat(v, c, 0, h, h + 1);
    SingleBlockRange(v, c, h);
    assert before + (done + todo) == (before + done) + todo;
    WellOrderedParts(before + done, todo);
    BlockEventsAt(v, h, c[h].txs);
    assert forall p :: 0 <= p < |done| ==> done[p] == (done + todo)[p];
  }

  /**
   While block `h` is scanned on a clean store, the spend index is exactly the
   set of outputs the replay up to that event calls unspent, although the store
   itself still stands at the previous block.
   */
  lemma {:induction false} SpendIndexTracksReplay(v: ScanView, c: seq<Block>, h: nat, done: seq<Event>,
                                                  todo: seq<Event>)
    requires OrderedTxs(Txs(c)) && h < |c|
    requires BlockEvents(v, h, c[h].txs) == done + todo
    ensures Unspent(Scan(Ledger(RangeEvents(v, c, 0, h)), done)) == Unspent(Ledger(RangeEvents(v, c, 0, h) + done))
  {
    hide WellOrdered, RangeEvents, BlockEvents, OrderedTxs, Ledger, Scan, Unspent;
    var before := RangeEvents(v, c, 0, h);
    PartOfBlock(v, c, h, done, todo);
    RangeEventsAt(v, c, 0, h);
    ScanOnReplay(before, done, h, h + 1);
  }

  /**
   A captured record bears the wallet id, chain and index its script is indexed
   under, and the wollet indexed with them derives that script there and unblinds
   the output to the recorded secrets.
   */
  lemma {:induction false} CapturedIsDerivable(v: ScanView, c: seq<Block>, u: CapturedUtxo)
    requires Create(u) in ChainEvents(v, c)
    ensures u.txout.scriptPubkey in v.index
    ensures var e := v.index[u.txout.scriptPubkey];
            && e.walletId == u.walletId && e.chain == u.chain && e.wildcardIndex == u.wildcardIndex
            && e.wolletIdx < |v.wollets| && DerivesRecord(v.wollets[e.wolletIdx], u)
  {
    RangeOccurs(v, c, 0, |c|, Create(u));
    BlockOccurs(v, u.height, c[u.height].txs, Create(u));
  }

  ghost predicate DerivesRecord(w: Wollet, u: CapturedUtxo) {
    && DefiniteOn(w, u.chain, u.wildcardIndex).Some?
    && DefiniteOn(w, u.chain, u.wildcardIndex).value.scriptPubkey == u.txout.scriptPubkey
    && w.unblind(u.txout) == Some(u.secrets)
  }
}
