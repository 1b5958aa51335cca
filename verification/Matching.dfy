/**
 How the engine reads a block: which outputs it owns, and which events a block
 and a stretch of chain amount to under a given script index.
 */
module Matching {
  import opened Results
  import opened ChainModel
  import opened Events

  /** A descriptor at a concrete index: its output script and what signing it needs. */
  datatype Definite = Definite(scriptPubkey: Script, witnessScript: Script, derivation: map<Bytes, (nat, seq<nat>)>)

  /**
   A federation version's client-side wallet: its descriptor text, the two
   branches of its multipath descriptor, and unblinding, which may fail.
   */
  datatype Wollet = Wollet(
    descriptor: string,
    external: nat -> Option<Definite>,
    internal: nat -> Option<Definite>,
    unblind: TxOut -> Option<TxOutSecrets>)

  function DefiniteOn(w: Wollet, chain: Keychain, i: nat): Option<Definite> {
    match chain case External => w.external(i) case Internal => w.internal(i)
  }

  /** The script pubkey of the address at `chain`, `i`. */
  function AddressScript(w: Wollet, chain: Keychain, i: nat): Option<Script> {
    match DefiniteOn(w, chain, i) case Some(d) => Some(d.scriptPubkey) case None => None
  }

  datatype ScriptEntry = ScriptEntry(walletId: WalletId, chain: Keychain, wildcardIndex: nat, wolletIdx: nat)

  datatype RawView = RawView(index: map<Script, ScriptEntry>, wollets: seq<Wollet>)

  /** Every indexed script is what its owner derives at the recorded chain and index. */
  ghost predicate ValidIndex(index: map<Script, ScriptEntry>, wollets: seq<Wollet>) {
    forall s :: s in index ==>
      && index[s].wolletIdx < |wollets|
      && AddressScript(wollets[index[s].wolletIdx], index[s].chain, index[s].wildcardIndex) == Some(s)
  }

  ghost predicate ValidView(v: RawView) {
    ValidIndex(v.index, v.wollets)
  }

  type ScanView = v: RawView | ValidView(v) ghost witness RawView(map[], [])

  /** The record for an output, when its script is watched and its owner can unblind it. */
  function Capture(v: ScanView, h: nat, op: OutPoint, out: TxOut): Option<CapturedUtxo> {
    if out.scriptPubkey !in v.index then None
    else
      var entry := v.index[out.scriptPubkey];
      match v.wollets[entry.wolletIdx].unblind(out)
      case None => None
      case Some(secrets) =>
        Some(CapturedUtxo(entry.walletId, op, out, secrets, entry.chain, entry.wildcardIndex, h, false))
  }

  /** A watched output its owner cannot unblind. */
  predicate Skipped(v: ScanView, out: TxOut) {
    out.scriptPubkey in v.index && v.wollets[v.index[out.scriptPubkey].wolletIdx].unblind(out).None?
  }

  function OutputEvent(v: ScanView, h: nat, op: OutPoint, out: TxOut): seq<Event> {
    match Capture(v, h, op, out) case Some(u) => [Create(u)] case None => []
  }

  function InputEvents(inputs: seq<OutPoint>, h: nat): seq<Event> {
    if inputs == [] then [] else InputEvents(inputs[..|inputs| - 1], h) + [Spend(inputs[|inputs| - 1], h)]
  }

  function OutputEvents(v: ScanView, h: nat, txid: Txid, outs: seq<TxOut>): seq<Event> {
    if outs == [] then []
    else OutputEvents(v, h, txid, outs[..|outs| - 1])
         + OutputEvent(v, h, OutPoint(txid, |outs| - 1), outs[|outs| - 1])
  }

  /** Inputs come before outputs. */
  function TxEvents(v: ScanView, h: nat, tx: Tx): seq<Event> {
    InputEvents(tx.inputs, h) + OutputEvents(v, h, tx.txid, tx.outputs)
  }

  function BlockEvents(v: ScanView, h: nat, txs: seq<Tx>): seq<Event> {
    if txs == [] then [] else BlockEvents(v, h, txs[..|txs| - 1]) + TxEvents(v, h, txs[|txs| - 1])
  }

  /** The events of blocks `lo..hi` of a chain. */
  function RangeEvents(v: ScanView, c: seq<Block>, lo: nat, hi: nat): seq<Event>
    requires hi <= |c|
  {
    if hi <= lo then [] else RangeEvents(v, c, lo, hi - 1) + BlockEvents(v, hi - 1, c[hi - 1].txs)
  }

  function ChainEvents(v: ScanView, c: seq<Block>): seq<Event> {
    RangeEvents(v, c, 0, |c|)
  }

  /** No block spends an output before the transaction of that block that creates it. */
  ghost predicate OrderedBlocks(v: ScanView, c: seq<Block>) {
    forall h :: 0 <= h < |c| ==> OrderedBlock(v, c, h)
  }

  ghost predicate OrderedBlock(v: ScanView, c: seq<Block>, h: nat)
    requires h < |c|
  {
    WellOrdered(BlockEvents(v, h, c[h].txs))
  }

  // ------------------------------------------------------------------
  // Shape of the events
  // ------------------------------------------------------------------

  lemma {:induction false} RangeConcat(v: ScanView, c: seq<Block>, lo: nat, mid: nat, hi: nat)
    requires lo <= mid <= hi <= |c|
    ensures RangeEvents(v, c, lo, mid) + RangeEvents(v, c, mid, hi) == RangeEvents(v, c, lo, hi)
  {
    hide BlockEvents;
    if mid < hi {
      RangeConcat(v, c, lo, mid, hi - 1);
      var here := BlockEvents(v, hi - 1, c[hi - 1].txs);
      assert RangeEvents(v, c, lo, mid) + (RangeEvents(v, c, mid, hi - 1) + here) ==
             (RangeEvents(v, c, lo, mid) + RangeEvents(v, c, mid, hi - 1)) + here;
    }
  }

  lemma {:induction false} RangeOfPrefix(v: ScanView, c: seq<Block>, lo: nat, hi: nat, k: nat)
    requires hi <= k <= |c|
    ensures RangeEvents(v, c[..k], lo, hi) == RangeEvents(v, c, lo, hi)
  {
    if lo < hi {
      RangeOfPrefix(v, c, lo, hi - 1, k);
    }
  }

  ghost predicate EventsAt(es: seq<Event>, h: nat) {
    && HeightsWithin(es, h, h + 1)
    && CreatesUnspent(es)
  }

  lemma {:induction false} BlockEventsAt(v: ScanView, h: nat, txs: seq<Tx>)
    ensures EventsAt(BlockEvents(v, h, txs), h)
  {
    if txs != [] {
      BlockEventsAt(v, h, txs[..|txs| - 1]);
      InputEventsAt(txs[|txs| - 1].inputs, h);
      OutputEventsAt(v, h, txs[|txs| - 1].txid, txs[|txs| - 1].outputs);
    }
  }

  lemma {:induction false} InputEventsAt(inputs: seq<OutPoint>, h: nat)
    ensures |InputEvents(inputs, h)| == |inputs|
    ensures forall i :: 0 <= i < |inputs| ==> InputEvents(inputs, h)[i] == Spend(inputs[i], h)
    ensures EventsAt(InputEvents(inputs, h), h)
  {
    if inputs != [] {
      InputEventsAt(inputs[..|inputs| - 1], h);
    }
  }

  lemma {:induction false} OutputEventsAt(v: ScanView, h: nat, txid: Txid, outs: seq<TxOut>)
    ensures EventsAt(OutputEvents(v, h, txid, outs), h)
    ensures forall i :: 0 <= i < |OutputEvents(v, h, txid, outs)| ==>
                          var e := OutputEvents(v, h, txid, outs)[i];
                          e.Create? && e.utxo.outpoint.txid == txid && e.utxo.outpoint.vout < |outs|
    ensures FreshCreates(OutputEvents(v, h, txid, outs))
  {
    if outs != [] {
      OutputEventsAt(v, h, txid, outs[..|outs| - 1]);
    }
  }

  lemma {:induction false} RangeEventsAt(v: ScanView, c: seq<Block>, lo: nat, hi: nat)
    requires hi <= |c|
    ensures HeightsWithin(RangeEvents(v, c, lo, hi), lo, hi) && CreatesUnspent(RangeEvents(v, c, lo, hi))
  {
    if lo < hi {
      RangeEventsAt(v, c, lo, hi - 1);
      BlockEventsAt(v, hi - 1, c[hi - 1].txs);
    }
  }

  // ------------------------------------------------------------------
  // Unique txids and backward inputs make creations fresh
  // ------------------------------------------------------------------

  /** Every event of `es` comes from one of `txs`: a creation by its txid, a spend by its input. */
  ghost predicate ComesFrom(es: seq<Event>, txs: seq<Tx>) {
    forall p :: 0 <= p < |es| ==> EventFrom(es[p], txs)
  }

  ghost predicate EventFrom(e: Event, txs: seq<Tx>) {
    match e
    case Spend(op, _) => exists i :: 0 <= i < |txs| && op in txs[i].inputs
    case Create(u) => exists i :: 0 <= i < |txs| && txs[i].txid == u.outpoint.txid
  }

  lemma OrderedPrefix(txs: seq<Tx>, k: nat)
    requires OrderedTxs(txs) && k <= |txs|
    ensures OrderedTxs(txs[..k])
  {
  }

  /** Adding the next transaction keeps the events fresh. */
  lemma FreshTx(v: ScanView, h: nat, es: seq<Event>, txs: seq<Tx>, tx: Tx)
    requires WellOrdered(es) && ComesFrom(es, txs) && OrderedTxs(txs + [tx])
    ensures WellOrdered(es + TxEvents(v, h, tx)) && ComesFrom(es + TxEvents(v, h, tx), txs + [tx])
  {
    var ins, outs := InputEvents(tx.inputs, h), OutputEvents(v, h, tx.txid, tx.outputs);
    var all, every := es + (ins + outs), txs + [tx];
    InputEventsAt(tx.inputs, h);
    OutputEventsAt(v, h, tx.txid, tx.outputs);
    assert every[|txs|] == tx;
    forall p | 0 <= p < |all|
      ensures EventFrom(all[p], every)
    {
      if p < |es| {
        assert EventFrom(es[p], txs);
        var i :| 0 <= i < |txs| && match es[p] case Spend(op, _) => op in txs[i].inputs
                                              case Create(u) => txs[i].txid == u.outpoint.txid;
        assert every[i] == txs[i];
      }
    }
    forall p, q | 0 <= p < q < |all| && all[q].Create?
      ensures Subject(all[p]) != Subject(all[q])
    {
      if q >= |es| {
        assert all[q] == outs[q - |es| - |ins|];
        if p < |es| {
          assert EventFrom(es[p], txs);
          var i :| 0 <= i < |txs| && match es[p] case Spend(op, _) => op in txs[i].inputs
                                                case Create(u) => txs[i].txid == u.outpoint.txid;
          assert every[i] == txs[i];
        } else if p < |es| + |ins| {
          assert all[p] == Spend(tx.inputs[p - |es|], h);
          assert tx.inputs[p - |es|] in every[|txs|].inputs;
        } else {
          assert all[p] == outs[p - |es| - |ins|];
        }
      }
    }
  }

  lemma {:induction false} FreshBlock(v: ScanView, h: nat, es: seq<Event>, txs: seq<Tx>, block: seq<Tx>)
    requires WellOrdered(es) && ComesFrom(es, txs) && OrderedTxs(txs + block)
    ensures WellOrdered(es + BlockEvents(v, h, block)) && ComesFrom(es + BlockEvents(v, h, block), txs + block)
  {
    if block == [] {
      assert es + BlockEvents(v, h, block) == es && txs + block == txs;
    } else {
      var init, tx := block[..|block| - 1], block[|block| - 1];
      assert txs + block == (txs + init) + [tx] && (txs + block)[..|txs + init|] == txs + init;
      OrderedPrefix(txs + block, |txs + init|);
      FreshBlock(v, h, es, txs, init);
      FreshTx(v, h, es + BlockEvents(v, h, init), txs + init, tx);
      assert es + BlockEvents(v, h, block) == (es + BlockEvents(v, h, init)) + TxEvents(v, h, tx);
    }
  }

  lemma {:induction false} FreshChain(v: ScanView, c: seq<Block>)
    requires OrderedTxs(Txs(c))
    ensures WellOrdered(ChainEvents(v, c)) && ComesFrom(ChainEvents(v, c), Txs(c))
  {
    if c != [] {
      var init := c[..|c| - 1];
      assert Txs(c)[..|Txs(init)|] == Txs(init);
      OrderedPrefix(Txs(c), |Txs(init)|);
      FreshChain(v, init);
      FreshBlock(v, |c| - 1, ChainEvents(v, init), Txs(init), c[|c| - 1].txs);
      RangeOfPrefix(v, c, 0, |init|, |init|);
    }
  }

  /** So every stretch of such a chain is well ordered, and so is every block. */
  lemma FreshRanges(v: ScanView, c: seq<Block>, lo: nat, hi: nat)
    requires WellOrdered(ChainEvents(v, c)) && lo <= hi <= |c|
    ensures WellOrdered(RangeEvents(v, c, lo, hi))
  {
    RangeConcat(v, c, 0, hi, |c|);
    WellOrderedParts(RangeEvents(v, c, 0, hi), RangeEvents(v, c, hi, |c|));
    RangeConcat(v, c, 0, lo, hi);
    WellOrderedParts(RangeEvents(v, c, 0, lo), RangeEvents(v, c, lo, hi));
  }

  lemma SingleBlockRange(v: ScanView, c: seq<Block>, h: nat)
    requires h < |c|
    ensures RangeEvents(v, c, h, h + 1) == BlockEvents(v, h, c[h].txs)
  {
    assert RangeEvents(v, c, h, h) == [];
  }

  lemma FreshBlockAt(v: ScanView, c: seq<Block>, h: nat)
    requires WellOrdered(ChainEvents(v, c)) && h < |c|
    ensures OrderedBlock(v, c, h)
  {
    FreshRanges(v, c, h, h + 1);
    SingleBlockRange(v, c, h);
  }

  lemma FreshBlocks(v: ScanView, c: seq<Block>)
    requires WellOrdered(ChainEvents(v, c))
    ensures OrderedBlocks(v, c)
  {
    forall h | 0 <= h < |c|
      ensures OrderedBlock(v, c, h)
    {
      FreshBlockAt(v, c, h);
    }
  }
}
