/** The block-scan engine: one scan of the chain serves every registered wallet. */
module ScanEngine {
  import opened Results
  import opened ChainModel
  import opened Events
  import opened Recovery
  import opened Matching
  import opened Stores
  import opened Pass

  datatype SyncSummary = SyncSummary(
    blocksScanned: nat,
    utxosCaptured: nat,
    utxosSpent: nat,
    skippedUnblindable: nat,
    reorgTo: Option<nat>)

  /** A hash on the node's chain names one block. */
  ghost predicate HashesBind(c: seq<Block>) {
    forall i, j :: 0 <= i < |c| && 0 <= j < |c| && c[i].hash == c[j].hash ==> c[i] == c[j]
  }

  /** What the engine relies on the node for. */
  ghost predicate Sane(v: ScanView, c: seq<Block>) {
    HashesBind(c) && OrderedBlocks(v, c)
  }

  // ------------------------------------------------------------------
  // What each stage of a pass leaves, `s` being the state it began in
  // ------------------------------------------------------------------

  ghost predicate StartOutcome(s: State, c: seq<Block>, r: Result<(nat, nat, Option<nat>), SyncError>,
                               phase: Phase, now: State)
  {
    match r
    case Success((tip, start, reorgTo)) =>
      && Enabled(s, c)
      && tip == |c| - 1
      && Plan(now, start, reorgTo) == Prepare(s, c)
    case Failure(_) =>
      && LegalPhase(s, c, phase)
      && match phase
         case Untouched => now == s
         case BetweenRollbacks => now == BlocksRolledBack(s, Prepare(s, c).reorgTo.value)
         case Reached(h, stage) => now == Prepare(s, c).state && h == Prepare(s, c).start && stage.Before?
  }

  ghost predicate BlockOutcome(v: ScanView, s: State, c: seq<Block>, h: nat,
                               r: Result<(map<OutPoint, WalletId>, Counts), SyncError>, stage: Stage, now: State)
    requires h < |c|
  {
    match r
    case Success((index, counts)) =>
      && now == Scanned(v, s, c, h, h + 1)
      && index.Keys == Unspent(now.utxos)
      && counts == RangeCounts(v, s.utxos, c, h, h + 1)
    case Failure(_) => now == BlockCut(v, s, c, h, stage)
  }

  ghost predicate RangeOutcome(v: ScanView, s: State, c: seq<Block>, lo: nat, r: Result<Counts, SyncError>,
                               h: nat, stage: Stage, now: State)
    requires lo <= |c|
  {
    match r
    case Success(counts) =>
      && h == |c| && stage.Before?
      && now == Scanned(v, s, c, lo, |c|)
      && counts == RangeCounts(v, s.utxos, c, lo, |c|)
    case Failure(_) =>
      && lo <= h && (if stage.Before? then h <= |c| else h < |c|)
      && now == CutAt(v, s, c, lo, h, stage)
  }

  ghost predicate SyncOutcome(v: ScanView, s: State, c: seq<Block>, r: Result<SyncSummary, SyncError>,
                              phase: Phase, now: State)
  {
    match r
    case Success(summary) =>
      && Enabled(s, c)
      && now == Passed(v, s, c)
      && summary == Summary(v, s, c)
    case Failure(_) =>
      && LegalPhase(s, c, phase)
      && now == InterruptedAt(v, s, c, phase)
  }

  /** The summary of a completed pass. */
  ghost function Summary(v: ScanView, s: State, c: seq<Block>): SyncSummary
    requires CanStart(s, c)
  {
    StartInRange(s, c);
    var p := Prepare(s, c);
    var counts := RangeCounts(v, p.state.utxos, c, p.start, |c|);
    SyncSummary(counts.scanned, counts.captured, counts.spent, counts.skipped, p.reorgTo)
  }

  /** The clamp on the start height never changes it. */
  lemma {:induction false} StartInRange(s: State, c: seq<Block>)
    requires CanStart(s, c)
    ensures Prepare(s, c).start <= |c|
  {
  }

  type Watch = (Script, Keychain, nat)

  /** Scripts of both chains for indices `0..gap`, if every one of them derives. */
  function Watched(w: Wollet, gap: nat): Option<seq<Watch>> {
    if gap == 0 then Some([])
    else
      match (Watched(w, gap - 1), AddressScript(w, External, gap - 1), AddressScript(w, Internal, gap - 1))
      case (Some(before), Some(outer), Some(inner)) =>
        Some(before + [(outer, External, gap - 1), (inner, Internal, gap - 1)])
      case _ => None
  }

  lemma {:induction false} WatchedAre(w: Wollet, gap: nat)
    ensures Watched(w, gap).Some? <==>
            forall i :: 0 <= i < gap ==> AddressScript(w, External, i).Some? && AddressScript(w, Internal, i).Some?
    ensures Watched(w, gap).Some? ==>
              var list := Watched(w, gap).value;
              && |list| == 2 * gap
              && forall k :: 0 <= k < |list| ==>
                               && list[k].1 == (if k % 2 == 0 then External else Internal)
                               && list[k].2 == k / 2
                               && AddressScript(w, list[k].1, list[k].2) == Some(list[k].0)
  {
    if gap > 0 {
      WatchedAre(w, gap - 1);
    }
  }

  /** Later entries displace earlier ones for the same script. */
  function Indexed(index: map<Script, ScriptEntry>, list: seq<Watch>, id: WalletId, k: nat): map<Script, ScriptEntry> {
    if list == [] then index
    else
      var (spk, chain, i) := list[|list| - 1];
      Indexed(index, list[..|list| - 1], id, k)[spk := ScriptEntry(id, chain, i, k)]
  }

  datatype Registration = Registration(id: WalletId, wollet: Wollet, gap: nat)

  /** The engine's view after one more registration; a failed derivation leaves the wollet without scripts. */
  function Registered(v: RawView, r: Registration): RawView {
    RawView(match Watched(r.wollet, r.gap)
            case Some(list) => Indexed(v.index, list, r.id, |v.wollets|)
            case None => v.index,
            v.wollets + [r.wollet])
  }

  lemma IndexedStep(index: map<Script, ScriptEntry>, list: seq<Watch>, id: WalletId, n: nat, k: nat)
    requires k < |list|
    ensures Indexed(index, list[..k + 1], id, n) ==
            Indexed(index, list[..k], id, n)[list[k].0 := ScriptEntry(id, list[k].1, list[k].2, n)]
  {
    assert list[..k + 1][..k] == list[..k];
  }

  /** Indexing scripts a newly pushed wollet derives keeps the index valid. */
  lemma {:induction false} IndexedIsValid(index: map<Script, ScriptEntry>, wollets: seq<Wollet>, w: Wollet,
                                          list: seq<Watch>, id: WalletId)
    requires ValidIndex(index, wollets)
    requires forall k :: 0 <= k < |list| ==> AddressScript(w, list[k].1, list[k].2) == Some(list[k].0)
    ensures ValidIndex(Indexed(index, list, id, |wollets|), wollets + [w])
  {
    if list == [] {
      forall s | s in index
        ensures (wollets + [w])[index[s].wolletIdx] == wollets[index[s].wolletIdx]
      {
      }
    } else {
      IndexedIsValid(index, wollets, w, list[..|list| - 1], id);
    }
  }

  method WatchedScripts(w: Wollet, gap: nat) returns (r: Result<seq<Watch>, SyncError>)
    ensures r == match Watched(w, gap) case Some(list) => Success(list) case None => Failure(SyncError.Wollet)
  {
    WatchedAre(w, gap);
    var out := [];
    for i := 0 to gap
      invariant Watched(w, i) == Some(out)
    {
      WatchedAre(w, i + 1);
      var outer := AddressScript(w, External, i);
      if outer.None? {
        return Failure(SyncError.Wollet);
      }
      out := out + [(outer.value, External, i)];
      var inner := AddressScript(w, Internal, i);
      if inner.None? {
        return Failure(SyncError.Wollet);
      }
      out := out + [(inner.value, Internal, i)];
      assert out == Watched(w, i + 1).value;
    }
    return Success(out);
  }

  class BlockScanEngine {
    var index: map<Script, ScriptEntry>
    var wollets: seq<Wollet>

    /** Every indexed script is its owner's derivation; in particular no owner index is out of range. */
    ghost predicate Valid()
      reads this
    {
      ValidIndex(index, wollets)
    }

    ghost function View(): ScanView
      reads this
      requires Valid()
    {
      RawView(index, wollets)
    }

    constructor ()
      ensures Valid() && index == map[] && wollets == []
    {
      index, wollets := map[], [];
    }

    /** A wollet whose derivation fails stays registered, with no scripts. */
    method RegisterWallet(id: WalletId, wollet: Wollet, gap: nat) returns (r: Result<(), SyncError>)
      requires Valid()
      modifies this
      ensures Valid()
      ensures RawView(index, wollets) == Registered(old(RawView(index, wollets)), Registration(id, wollet, gap))
      ensures r.Success? <==> Watched(wollet, gap).Some?
    {
      var wolletIdx := |wollets|;
      wollets := wollets + [wollet];
      IndexedIsValid(old(index), old(wollets), wollet, [], id);
      var list :- WatchedScripts(wollet, gap);
      WatchedAre(wollet, gap);
      IndexedIsValid(old(index), old(wollets), wollet, list, id);
      assert list[..0] == [] && Indexed(index, [], id, wolletIdx) == index;
      hide ValidIndex, Indexed;
      for k := 0 to |list|
        invariant wollets == old(wollets) + [wollet]
        invariant index == Indexed(old(index), list[..k], id, wolletIdx)
      {
        var (spk, chain, i) := list[k];
        IndexedStep(old(index), list, id, wolletIdx, k);
        index := index[spk := ScriptEntry(id, chain, i, wolletIdx)];
      }
      assert list[..|list|] == list;
      return Success(());
    }

    /**
     The reorganisation's fork point, searched downwards. `asked` are the heights
     the node is asked for: the stored ones between the answer and `from`.
     */
    static method FindCommonAncestor(chain: MockChainSource, blocks: MemBlockStore, from: nat)
      returns (r: Result<nat, SyncError>, ghost asked: set<nat>)
      requires from < |chain.chain|
      ensures r.Success? ==> r.value == Ancestor(blocks.blocks, chain.chain, from)
      ensures chain.reliable && blocks.reliable ==> r.Success?
      ensures forall x :: x in asked ==> x in blocks.blocks && x <= from
      ensures r.Success? ==> forall x :: x in asked <==> x in blocks.blocks && r.value <= x <= from
    {
      var h: nat := from;
      asked := {};
      while true
        invariant h <= from
        invariant forall x :: x in asked <==> x in blocks.blocks && h < x <= from
        invariant Ancestor(blocks.blocks, chain.chain, from) == Ancestor(blocks.blocks, chain.chain, h)
        decreases h
      {
        var stored :- blocks.BlockHashAt(h);
        if stored.Some? {
          asked := asked + {h};
          var hash :- chain.BlockHashAt(h);
          if stored.value == hash {
            return Success(h), asked;
          }
        }
        if h == 0 {
          return Success(0), asked;
        }
        h := h - 1;
      }
    }

    /** The tip, the height to scan from and any rollback; u32 overflow is an error. */
    static method DetermineStart(chain: MockChainSource, blocks: MemBlockStore, utxos: MemUtxoStore)
      returns (r: Result<(nat, nat, Option<nat>), SyncError>, ghost phase: Phase)
      requires Keyed(utxos.entries)
      modifies blocks, utxos`entries
      ensures Keyed(utxos.entries)
      ensures StartOutcome(old(State(blocks.blocks, blocks.tip, utxos.entries)), chain.chain, r, phase,
                           State(blocks.blocks, blocks.tip, utxos.entries))
      ensures chain.reliable && blocks.reliable && utxos.reliable ==>
                (r.Success? <==> Enabled(old(State(blocks.blocks, blocks.tip, utxos.entries)), chain.chain))
    {
      ghost var s := State(blocks.blocks, blocks.tip, utxos.entries);
      hide KeptBlocks, KeptTip, RolledBack, Ancestor, Keyed;
      phase := Untouched;
      var tip :- chain.TipHeight();
      var start: int, reorgTo := 0, None;
      var cursor :- blocks.GetSyncedTip();
      match cursor {
        case None =>
        case Some(t) =>
          var hash :- chain.BlockHashAt(t.height);
          if hash == t.hash {
            if t.height == U32_MAX {
              return Failure(Overflow), phase;
            }
            start := t.height + 1;
          } else {
            var ancestor, _ :- FindCommonAncestor(chain, blocks, t.height);
            var _ :- blocks.RollbackAbove(ancestor);
            phase := BetweenRollbacks;
            var _ :- utxos.RollbackAbove(ancestor);
            reorgTo := Some(ancestor);
            start := ancestor + 1;
          }
      }
      phase := Reached(start, Before);
      StartInRange(s, chain.chain);
      if tip == U32_MAX {
        return Failure(Overflow), phase;
      }
      if start > tip + 1 {
        start := tip + 1;
      }
      return Success((tip, start, reorgTo)), phase;
    }

    /** A pass that has reached its first block without scanning it. */
    static lemma StartedHere(s: State, c: seq<Block>)
      requires CanStart(s, c)
      ensures Prepare(s, c).start <= |c|
      ensures forall v: ScanView ::
                InterruptedAt(v, s, c, Reached(Prepare(s, c).start, Before)) == Prepare(s, c).state
    {
      var p := Prepare(s, c);
      forall v: ScanView
        ensures InterruptedAt(v, s, c, Reached(p.start, Before)) == p.state
      {
        assert RangeEvents(v, c, p.start, p.start) == [];
        assert StoredThrough(p.state.blocks, c, p.start, p.start) == p.state.blocks;
      }
    }

    /** Inputs of one transaction: drop what they spend from the index. */
    method SpendInputs(inputs: seq<OutPoint>, spendIndex: map<OutPoint, WalletId>, spent: seq<OutPoint>,
                       ghost m: Store, ghost h: nat, ghost es: seq<Event>, ghost captured: seq<CapturedUtxo>)
      returns (left: map<OutPoint, WalletId>, spentNow: seq<OutPoint>)
      ensures Pending(m, h, es, spendIndex.Keys, captured, spent) ==>
                Pending(m, h, es + InputEvents(inputs, h), left.Keys, captured, spentNow)
    {
      left, spentNow := spendIndex, spent;
      ghost var ok := Pending(m, h, es, spendIndex.Keys, captured, spent);
      assert es + InputEvents([], h) == es;
      for i := 0 to |inputs|
        invariant ok ==> Pending(m, h, es + InputEvents(inputs[..i], h), left.Keys, captured, spentNow)
      {
        var prevout := inputs[i];
        ghost var done := es + InputEvents(inputs[..i], h);
        assert inputs[..i + 1][..i] == inputs[..i];
        assert es + InputEvents(inputs[..i + 1], h) == done + [Spend(prevout, h)];
        if ok {
          PendingSpend(m, h, done, left.Keys, captured, spentNow, prevout);
        }
        if prevout in left {
          assert (left - {prevout}).Keys == left.Keys - {prevout};
          left := left - {prevout};
          spentNow := spentNow + [prevout];
        }
      }
      assert inputs[..|inputs|] == inputs;
    }

    /** One output against the script index. An output blinded with a key we do not hold is skipped. */
    method MatchOutput(h: nat, outpoint: OutPoint, txout: TxOut) returns (found: Option<CapturedUtxo>, foreign: bool)
      requires Valid()
      ensures found == Capture(View(), h, outpoint, txout)
      ensures foreign == Skipped(View(), txout)
      ensures txout.scriptPubkey !in index ==> found == None && !foreign
      ensures txout.scriptPubkey in index ==>
                var e := index[txout.scriptPubkey];
                match wollets[e.wolletIdx].unblind(txout)
                case None => found == None && foreign
                case Some(secrets) =>
                  !foreign &&
                  found == Some(CapturedUtxo(e.walletId, outpoint, txout, secrets, e.chain, e.wildcardIndex, h, false))
    {
      if txout.scriptPubkey !in index {
        return None, false;
      }
      var entry := index[txout.scriptPubkey];
      var wollet := wollets[entry.wolletIdx];
      match wollet.unblind(txout) {
        case None => return None, true;
        case Some(secrets) =>
          var u := CapturedUtxo(entry.walletId, outpoint, txout, secrets, entry.chain, entry.wildcardIndex, h, false);
          return Some(u), false;
      }
    }

    static lemma PendingOutput(v: ScanView, m: Store, h: nat, es: seq<Event>, keys: set<OutPoint>,
                               captured: seq<CapturedUtxo>, spent: seq<OutPoint>, op: OutPoint, out: TxOut)
      requires Pending(m, h, es, keys, captured, spent)
      requires WellOrdered(es + OutputEvent(v, h, op, out))
      ensures match Capture(v, h, op, out)
              case None => Pending(m, h, es + OutputEvent(v, h, op, out), keys, captured, spent)
              case Some(u) => Pending(m, h, es + OutputEvent(v, h, op, out), keys + {op}, captured + [u], spent)
    {
      match Capture(v, h, op, out)
      case None => assert es + OutputEvent(v, h, op, out) == es;
      case Some(u) => PendingCreate(m, h, es, keys, captured, spent, u);
    }

    static lemma NoOutputs(v: ScanView, h: nat, txid: Txid, outs: seq<TxOut>, es: seq<Event>)
      ensures es + OutputEvents(v, h, txid, outs[..0]) == es && SkippedOutputs(v, outs[..0]) == 0
      ensures outs[..|outs|] == outs
    {
    }

    static lemma OutputsStep(v: ScanView, h: nat, txid: Txid, outs: seq<TxOut>, es: seq<Event>, k: nat)
      requires k < |outs|
      ensures var done, op := es + OutputEvents(v, h, txid, outs[..k]), OutPoint(txid, k);
              && es + OutputEvents(v, h, txid, outs[..k + 1]) == done + OutputEvent(v, h, op, outs[k])
              && Created(done + OutputEvent(v, h, op, outs[k])) ==
                 Created(done) + (match Capture(v, h, op, outs[k]) case Some(u) => [u] case None => [])
      ensures SkippedOutputs(v, outs[..k + 1]) == SkippedOutputs(v, outs[..k]) + if Skipped(v, outs[k]) then 1 else 0
    {
      assert outs[..k + 1][..k] == outs[..k];
      var done := es + OutputEvents(v, h, txid, outs[..k]);
      CreatedConcat(done, OutputEvent(v, h, OutPoint(txid, k), outs[k]));
      match Capture(v, h, OutPoint(txid, k), outs[k])
      case Some(u) => assert Created([Create(u)]) == [u];
      case None =>
    }

    /** Outputs of one transaction: match, unblind, record. */
    method MatchOutputs(h: nat, txid: Txid, outs: seq<TxOut>, spendIndex: map<OutPoint, WalletId>,
                        captured: seq<CapturedUtxo>,
                        ghost m: Store, ghost es: seq<Event>, ghost spent: seq<OutPoint>)
      returns (grown: map<OutPoint, WalletId>, capturedNow: seq<CapturedUtxo>, skipped: nat)
      requires Valid()
      ensures captured == Created(es) ==> capturedNow == Created(es + OutputEvents(View(), h, txid, outs))
      ensures skipped == SkippedOutputs(View(), outs)
      ensures Pending(m, h, es, spendIndex.Keys, captured, spent)
              && WellOrdered(es + OutputEvents(View(), h, txid, outs)) ==>
                Pending(m, h, es + OutputEvents(View(), h, txid, outs), grown.Keys, capturedNow, spent)
    {
      hide Pending, WellOrdered, ValidIndex, OutputEvents, SkippedOutputs, Capture, Skipped, Created;
      ghost var v := View();
      NoOutputs(v, h, txid, outs, es);
      grown, capturedNow, skipped := spendIndex, captured, 0;
      ghost var ok := && Pending(m, h, es, spendIndex.Keys, captured, spent)
                      && WellOrdered(es + OutputEvents(v, h, txid, outs));
      for vout := 0 to |outs|
        invariant captured == Created(es) ==> capturedNow == Created(es + OutputEvents(v, h, txid, outs[..vout]))
        invariant skipped == SkippedOutputs(v, outs[..vout])
        invariant ok ==> Pending(m, h, es + OutputEvents(v, h, txid, outs[..vout]), grown.Keys, capturedNow, spent)
      {
        var txout := outs[vout];
        ghost var done := es + OutputEvents(v, h, txid, outs[..vout]);
        OutputsStep(v, h, txid, outs, es, vout);
        var outpoint := OutPoint(txid, vout);
        var found, foreign := MatchOutput(h, outpoint, txout);
        if ok {
          OutputPrefixOrdered(v, h, txid, outs, vout + 1, es);
          PendingOutput(v, m, h, done, grown.Keys, capturedNow, spent, outpoint, txout);
        }
        if foreign {
          skipped := skipped + 1;
        }
        match found {
          case None =>
          case Some(u) =>
            capturedNow := capturedNow + [u];
            assert grown[outpoint := u.walletId].Keys == grown.Keys + {outpoint};
            grown := grown[outpoint := u.walletId];
        }
      }
    }

    static lemma {:induction false} OutputPrefixOrdered(v: ScanView, h: nat, txid: Txid, outs: seq<TxOut>, k: nat,
                                                        es: seq<Event>)
      requires k <= |outs| && WellOrdered(es + OutputEvents(v, h, txid, outs))
      ensures WellOrdered(es + OutputEvents(v, h, txid, outs[..k]))
    {
      if k == |outs| {
        assert outs[..k] == outs;
      } else {
        var init := outs[..|outs| - 1];
        assert es + OutputEvents(v, h, txid, outs) ==
               (es + OutputEvents(v, h, txid, init)) + OutputEvent(v, h, OutPoint(txid, |outs| - 1), outs[|outs| - 1]);
        WellOrderedParts(es + OutputEvents(v, h, txid, init),
                         OutputEvent(v, h, OutPoint(txid, |outs| - 1), outs[|outs| - 1]));
        OutputPrefixOrdered(v, h, txid, init, k, es);
        assert init[..k] == outs[..k];
      }
    }

    /** Match one block against the script index, without touching the stores. */
    method ScanBlock(h: nat, txs: seq<Tx>, spendIndex: map<OutPoint, WalletId>, ghost m: Store)
      returns (indexNow: map<OutPoint, WalletId>, captured: seq<CapturedUtxo>, spent: seq<OutPoint>, skipped: nat)
      requires Valid()
      ensures captured == Created(BlockEvents(View(), h, txs))
      ensures skipped == SkippedInBlock(View(), txs)
      ensures spendIndex.Keys == Unspent(m) && WellOrdered(BlockEvents(View(), h, txs)) ==>
                Pending(m, h, BlockEvents(View(), h, txs), indexNow.Keys, captured, spent)
    {
      ghost var v := View();
      NoTxs(v, h, txs, m);
      hide Pending, WellOrdered, ValidIndex, BlockEvents, SkippedInBlock, InputEvents, OutputEvents, SkippedOutputs,
           Created;
      indexNow, captured, spent, skipped := spendIndex, [], [], 0;
      ghost var ok := spendIndex.Keys == Unspent(m) && WellOrdered(BlockEvents(v, h, txs));
      for k := 0 to |txs|
        invariant captured == Created(BlockEvents(v, h, txs[..k]))
        invariant skipped == SkippedInBlock(v, txs[..k])
        invariant ok ==> Pending(m, h, BlockEvents(v, h, txs[..k]), indexNow.Keys, captured, spent)
      {
        var tx := txs[k];
        ghost var es := BlockEvents(v, h, txs[..k]);
        ghost var ins := InputEvents(tx.inputs, h);
        TxsStep(v, h, txs, k);
        if ok {
          BlockPrefixOrdered(v, h, txs, k + 1);
        }
        indexNow, spent := SpendInputs(tx.inputs, indexNow, spent, m, h, es, captured);
        var skippedHere;
        indexNow, captured, skippedHere := MatchOutputs(h, tx.txid, tx.outputs, indexNow, captured, m, es + ins, spent);
        skipped := skipped + skippedHere;
      }
    }

    static lemma NoTxs(v: ScanView, h: nat, txs: seq<Tx>, m: Store)
      ensures BlockEvents(v, h, txs[..0]) == [] && SkippedInBlock(v, txs[..0]) == 0
      ensures Created([]) == [] && Pending(m, h, [], Unspent(m), [], [])
      ensures txs[..|txs|] == txs
    {
    }

    static lemma TxsStep(v: ScanView, h: nat, txs: seq<Tx>, k: nat)
      requires k < |txs|
      ensures var es, ins := BlockEvents(v, h, txs[..k]), InputEvents(txs[k].inputs, h);
              && BlockEvents(v, h, txs[..k + 1]) == (es + ins) + OutputEvents(v, h, txs[k].txid, txs[k].outputs)
              && Created(es + ins) == Created(es)
      ensures SkippedInBlock(v, txs[..k + 1]) == SkippedInBlock(v, txs[..k]) + SkippedOutputs(v, txs[k].outputs)
    {
      hide InputEvents, OutputEvents, SkippedOutputs, Created;
      var more, es, ins := txs[..k + 1], BlockEvents(v, h, txs[..k]), InputEvents(txs[k].inputs, h);
      assert more[..k] == txs[..k] && more[k] == txs[k];
      NothingCreated(txs[k].inputs, h);
      CreatedConcat(es, ins);
      assert Created(es) + [] == Created(es);
      var outs := OutputEvents(v, h, txs[k].txid, txs[k].outputs);
      assert es + (ins + outs) == (es + ins) + outs;
    }

    static lemma {:induction false} NothingCreated(inputs: seq<OutPoint>, h: nat)
      ensures Created(InputEvents(inputs, h)) == []
    {
      if inputs != [] {
        var init := inputs[..|inputs| - 1];
        NothingCreated(init, h);
        assert InputEvents(inputs, h)[..|InputEvents(init, h)|] == InputEvents(init, h);
      }
    }

    static lemma {:induction false} BlockPrefixOrdered(v: ScanView, h: nat, txs: seq<Tx>, k: nat)
      requires k <= |txs| && WellOrdered(BlockEvents(v, h, txs))
      ensures WellOrdered(BlockEvents(v, h, txs[..k]))
    {
      if k == |txs| {
        assert txs[..k] == txs;
      } else {
        var init := txs[..|txs| - 1];
        WellOrderedParts(BlockEvents(v, h, init), TxEvents(v, h, txs[|txs| - 1]));
        BlockPrefixOrdered(v, h, init, k);
        assert init[..k] == txs[..k];
      }
    }

    /** Store a fetched block and commit what it captures and spends; `c` is a chain that has it at `h`. */
    method CommitBlock(blocks: MemBlockStore, utxos: MemUtxoStore, h: nat, hash: BlockHash, block: Block,
                       spendIndex: map<OutPoint, WalletId>, ghost c: seq<Block>)
      returns (r: Result<(map<OutPoint, WalletId>, Counts), SyncError>, ghost stage: Stage)
      requires Valid() && Keyed(utxos.entries) && h < |c|
      modifies blocks`blocks, utxos`entries
      ensures Keyed(utxos.entries)
      ensures blocks.reliable && utxos.reliable ==> r.Success?
      ensures block == c[h] && hash == block.hash && OrderedBlock(View(), c, h)
              && spendIndex.Keys == Unspent(old(utxos.entries)) ==>
                BlockOutcome(View(), old(State(blocks.blocks, blocks.tip, utxos.entries)), c, h, r, stage,
                             State(blocks.blocks, blocks.tip, utxos.entries))
    {
      hide WellOrdered, ValidIndex;
      ghost var s := State(blocks.blocks, blocks.tip, utxos.entries);
      BlockDone(View(), s, c, h);
      stage := Before;
      var _ :- blocks.StoreBlock(h, hash, block);
      stage := BlockStored;
      var indexNow, captured, spent, skipped := ScanBlock(h, block.txs, spendIndex, utxos.entries);
      if captured != [] {
        var _ :- utxos.UpsertUtxos(captured);
      }
      stage := CapturesWritten;
      if spent != [] {
        var _ :- utxos.MarkSpent(spent, h);
      }
      return Success((indexNow, Counts(1, |captured|, |spent|, skipped))), stage;
    }

    /** Fetch one block and commit it. */
    method ProcessBlock(chain: MockChainSource, blocks: MemBlockStore, utxos: MemUtxoStore, h: nat,
                        spendIndex: map<OutPoint, WalletId>)
      returns (r: Result<(map<OutPoint, WalletId>, Counts), SyncError>, ghost stage: Stage)
      requires Valid() && Keyed(utxos.entries) && h < |chain.chain|
      modifies blocks`blocks, utxos`entries
      ensures Keyed(utxos.entries)
      ensures chain.reliable && blocks.reliable && utxos.reliable ==> r.Success?
      ensures Sane(View(), chain.chain) && spendIndex.Keys == Unspent(old(utxos.entries)) ==>
                BlockOutcome(View(), old(State(blocks.blocks, blocks.tip, utxos.entries)), chain.chain, h, r, stage,
                             State(blocks.blocks, blocks.tip, utxos.entries))
    {
      hide WellOrdered, ValidIndex;
      stage := Before;
      var hash :- chain.BlockHashAt(h);
      var block :- chain.BlockWithHash(hash);
      assert Sane(View(), chain.chain) ==> block == chain.chain[h] && OrderedBlock(View(), chain.chain, h);
      r, stage := CommitBlock(blocks, utxos, h, hash, block, spendIndex, chain.chain);
    }

    /** Scan blocks `start..=tip`; `height` and `stage` say where a failed scan stopped. */
    method ScanRange(chain: MockChainSource, blocks: MemBlockStore, utxos: MemUtxoStore, start: nat, tip: nat)
      returns (r: Result<Counts, SyncError>, ghost height: nat, ghost stage: Stage)
      requires Valid() && Keyed(utxos.entries)
      requires start <= tip + 1 == |chain.chain|
      modifies blocks`blocks, utxos`entries
      ensures Keyed(utxos.entries)
      ensures chain.reliable && blocks.reliable && utxos.reliable ==> r.Success?
      ensures Sane(View(), chain.chain) ==>
                RangeOutcome(View(), old(State(blocks.blocks, blocks.tip, utxos.entries)), chain.chain, start, r,
                             height, stage, State(blocks.blocks, blocks.tip, utxos.entries))
    {
      hide WellOrdered, ValidIndex, Scanned, RangeCounts, Sane, OrderedBlocks, RangeEvents, StoredThrough;
      ghost var c, v, s := chain.chain, View(), State(blocks.blocks, blocks.tip, utxos.entries);
      ghost var sane := Sane(v, c);
      height, stage := start, Before;
      NothingScanned(v, s, c, start);
      var spendIndex :- utxos.UnspentOutpoints();
      var totals := Counts(0, 0, 0, 0);
      for h := start to tip + 1
        invariant Keyed(utxos.entries)
        invariant blocks.tip == s.tip
        invariant sane ==>
            && State(blocks.blocks, blocks.tip, utxos.entries) == Scanned(v, s, c, start, h)
            && spendIndex.Keys == Unspent(utxos.entries)
            && totals == RangeCounts(v, s.utxos, c, start, h)
      {
        height := h;
        ScanOneMore(v, s, c, start, h);
        CountOneMore(v, s, c, start, h);
        var step;
        step, stage := ProcessBlock(chain, blocks, utxos, h, spendIndex);
        var more :- step;
        spendIndex := more.0;
        totals := Plus(totals, more.1);
      }
      return Success(totals), tip + 1, Before;
    }

    /**
     One sync pass. It completes on working stores exactly when `Enabled`; it
     then leaves `Passed`. Otherwise it leaves one of the interrupted states.
     */
    method Sync(chain: MockChainSource, blocks: MemBlockStore, utxos: MemUtxoStore)
      returns (r: Result<SyncSummary, SyncError>, ghost phase: Phase)
      requires Valid() && Keyed(utxos.entries)
      modifies blocks, utxos`entries
      ensures Keyed(utxos.entries)
      ensures chain.reliable && blocks.reliable && utxos.reliable ==>
                (r.Success? <==> Enabled(old(State(blocks.blocks, blocks.tip, utxos.entries)), chain.chain))
      ensures Sane(View(), chain.chain) ==>
                SyncOutcome(View(), old(State(blocks.blocks, blocks.tip, utxos.entries)), chain.chain, r, phase,
                            State(blocks.blocks, blocks.tip, utxos.entries))
    {
      hide WellOrdered, ValidIndex, Sane, Scanned;
      ghost var s, c, v := State(blocks.blocks, blocks.tip, utxos.entries), chain.chain, View();
      var found;
      if CanStart(s, c) {
        StartedHere(s, c);
      }
      found, phase :- DetermineStart(chain, blocks, utxos);
      var (tip, start, reorgTo) := found;
      ghost var height, stage;
      var totals;
      totals, height, stage := ScanRange(chain, blocks, utxos, start, tip);
      phase := Reached(height, stage);
      var counts :- totals;
      if tip + 1 >= start {
        var tipHash :- chain.BlockHashAt(tip);
        var _ :- blocks.SetSyncedTip(SyncedTip(tip, tipHash));
      }
      return Success(SyncSummary(counts.scanned, counts.captured, counts.spent, counts.skipped, reorgTo)), phase;
    }
  }
}
