/** One scan serves many wallets: whose output is it, and would a scan for that wallet alone agree? */
module Attribution {
  import opened Results
  import opened ChainModel
  import opened Events
  import opened Matching
  import opened ReplayMeaning
  import opened Stores
  import opened ScanEngine

  function RegisterAll(regs: seq<Registration>): (v: RawView)
    ensures ValidView(v)
  {
    if regs == [] then RawView(map[], [])
    else
      var before, last := RegisterAll(regs[..|regs| - 1]), regs[|regs| - 1];
      RegisteredIsValid(before, last);
      Registered(before, last)
  }

  lemma RegisteredIsValid(v: RawView, r: Registration)
    requires ValidView(v)
    ensures ValidView(Registered(v, r))
  {
    WatchedAre(r.wollet, r.gap);
    IndexedIsValid(v.index, v.wollets, r.wollet, [], r.id);
    if Watched(r.wollet, r.gap).Some? {
      IndexedIsValid(v.index, v.wollets, r.wollet, Watched(r.wollet, r.gap).value, r.id);
    }
  }

  // ------------------------------------------------------------------
  // Who owns a script
  // ------------------------------------------------------------------

  datatype Owner = Owner(id: WalletId, chain: Keychain, i: nat, wollet: Wollet)

  function Resolve(v: ScanView, spk: Script): Option<Owner> {
    if spk in v.index then
      var e := v.index[spk];
      Some(Owner(e.walletId, e.chain, e.wildcardIndex, v.wollets[e.wolletIdx]))
    else None
  }

  /** The last place a script occurs in a list of watched scripts. */
  function LastListed(list: seq<Watch>, spk: Script): Option<(Keychain, nat)> {
    if list == [] then None
    else if list[|list| - 1].0 == spk then Some((list[|list| - 1].1, list[|list| - 1].2))
    else LastListed(list[..|list| - 1], spk)
  }

  function Listed(r: Registration, spk: Script): Option<(Keychain, nat)> {
    match Watched(r.wollet, r.gap) case Some(list) => LastListed(list, spk) case None => None
  }

  /** The last registration that lists the script owns it. */
  function LastOwner(regs: seq<Registration>, spk: Script): Option<Owner> {
    if regs == [] then None
    else
      var r := regs[|regs| - 1];
      match Listed(r, spk)
      case Some((chain, i)) => Some(Owner(r.id, chain, i, r.wollet))
      case None => LastOwner(regs[..|regs| - 1], spk)
  }

  lemma {:induction false} IndexedAt(index: map<Script, ScriptEntry>, list: seq<Watch>, id: WalletId, k: nat,
                                     spk: Script)
    ensures match LastListed(list, spk)
            case Some((chain, i)) =>
              spk in Indexed(index, list, id, k) && Indexed(index, list, id, k)[spk] == ScriptEntry(id, chain, i, k)
            case None =>
              && (spk in Indexed(index, list, id, k) <==> spk in index)
              && (spk in index ==> Indexed(index, list, id, k)[spk] == index[spk])
  {
    if list != [] {
      IndexedAt(index, list[..|list| - 1], id, k, spk);
    }
  }

  /** After any registrations, failed ones included, a script belongs to the last registration listing it. */
  lemma {:induction false} ResolvesToLast(regs: seq<Registration>, spk: Script)
    ensures Resolve(RegisterAll(regs), spk) == LastOwner(regs, spk)
  {
    if regs != [] {
      var init, r := regs[..|regs| - 1], regs[|regs| - 1];
      ResolvesToLast(init, spk);
      var before := RegisterAll(init);
      if Watched(r.wollet, r.gap).Some? {
        IndexedAt(before.index, Watched(r.wollet, r.gap).value, r.id, |before.wollets|, spk);
      }
    }
  }

  lemma {:induction false} LastOwnerRegistered(regs: seq<Registration>, spk: Script) returns (i: nat)
    requires LastOwner(regs, spk).Some?
    ensures i < |regs| && Listed(regs[i], spk).Some?
    ensures LastOwner(regs, spk).value ==
            Owner(regs[i].id, Listed(regs[i], spk).value.0, Listed(regs[i], spk).value.1, regs[i].wollet)
    ensures forall j :: i < j < |regs| ==> Listed(regs[j], spk).None?
  {
    i := |regs| - 1;
    if Listed(regs[i], spk).None? {
      i := LastOwnerRegistered(regs[..i], spk);
    }
  }

  /**
   A captured record belongs to the wallet registered last among those listing its
   script: that wallet's id is on the record, and its wollet derives the script at
   the recorded chain and index and unblinds the output to the recorded secrets.
   */
  lemma {:induction false} CapturedBelongsToOwner(regs: seq<Registration>, c: seq<Block>, u: CapturedUtxo)
    returns (i: nat)
    requires Create(u) in ChainEvents(RegisterAll(regs), c)
    ensures i < |regs| && regs[i].id == u.walletId && DerivesRecord(regs[i].wollet, u)
    ensures Listed(regs[i], u.txout.scriptPubkey) == Some((u.chain, u.wildcardIndex))
    ensures forall j :: i < j < |regs| ==> Listed(regs[j], u.txout.scriptPubkey).None?
  {
    CapturedIsDerivable(RegisterAll(regs), c, u);
    ResolvesToLast(regs, u.txout.scriptPubkey);
    i := LastOwnerRegistered(regs, u.txout.scriptPubkey);
  }

  // ------------------------------------------------------------------
  // One wallet alone
  // ------------------------------------------------------------------

  function Solo(regs: seq<Registration>, id: WalletId): seq<Registration> {
    if regs == [] then []
    else Solo(regs[..|regs| - 1], id) + if regs[|regs| - 1].id == id then [regs[|regs| - 1]] else []
  }

  predicate Lists(regs: seq<Registration>, id: WalletId, k: nat, spk: Script)
    requires k < |regs|
  {
    regs[k].id == id && Listed(regs[k], spk).Some?
  }

  /** A script the wallet lists and another wallet lists later is listed by the wallet again after that. */
  ghost predicate KeepsScript(regs: seq<Registration>, id: WalletId, spk: Script) {
    forall i, j :: 0 <= i < j < |regs| && Lists(regs, id, i, spk) && regs[j].id != id && Listed(regs[j], spk).Some? ==>
                     exists k :: j < k < |regs| && Lists(regs, id, k, spk)
  }

  ghost predicate KeepsScripts(regs: seq<Registration>, id: WalletId) {
    forall spk :: KeepsScript(regs, id, spk)
  }

  function OwnedBy(o: Option<Owner>, id: WalletId): Option<Owner> {
    if o.Some? && o.value.id == id then o else None
  }

  lemma {:induction false} SoloOwner(regs: seq<Registration>, id: WalletId, spk: Script)
    ensures LastOwner(Solo(regs, id), spk).Some? <==> exists i :: 0 <= i < |regs| && Lists(regs, id, i, spk)
    ensures OwnedBy(LastOwner(regs, spk), id).Some? ==> LastOwner(Solo(regs, id), spk) == LastOwner(regs, spk)
  {
    hide Listed, Lists;
    if regs != [] {
      var init, r := regs[..|regs| - 1], regs[|regs| - 1];
      SoloOwner(init, id, spk);
      if r.id == id {
        assert Solo(regs, id)[..|Solo(init, id)|] == Solo(init, id);
      } else {
        assert Solo(regs, id) == Solo(init, id);
      }
      ListsPrefix(regs, id, spk);
    }
  }

  lemma ListsPrefix(regs: seq<Registration>, id: WalletId, spk: Script)
    requires regs != []
    ensures var init, r := regs[..|regs| - 1], regs[|regs| - 1];
            (exists i :: 0 <= i < |regs| && Lists(regs, id, i, spk)) <==>
            (exists i :: 0 <= i < |init| && Lists(init, id, i, spk)) || (r.id == id && Listed(r, spk).Some?)
  {
    hide Listed;
    var init, r := regs[..|regs| - 1], regs[|regs| - 1];
    assert forall i :: 0 <= i < |init| ==> Lists(regs, id, i, spk) == Lists(init, id, i, spk);
    assert Lists(regs, id, |init|, spk) <==> r.id == id && Listed(r, spk).Some?;
  }

  /** Registered alone, a wallet owns a script exactly as among all the others if and only if it keeps the script. */
  lemma {:induction false} SoloOwnerIff(regs: seq<Registration>, id: WalletId, spk: Script)
    ensures LastOwner(Solo(regs, id), spk) == OwnedBy(LastOwner(regs, spk), id) <==> KeepsScript(regs, id, spk)
  {
    SoloOwner(regs, id, spk);
    if LastOwner(regs, spk).Some? {
      var last := LastOwnerRegistered(regs, spk);
      assert regs[last].id == id ==> Lists(regs, id, last, spk);
    } else {
      NobodyLists(regs, spk);
    }
  }

  lemma {:induction false} NobodyLists(regs: seq<Registration>, spk: Script)
    requires LastOwner(regs, spk).None?
    ensures forall i :: 0 <= i < |regs| ==> Listed(regs[i], spk).None?
  {
    if regs != [] {
      NobodyLists(regs[..|regs| - 1], spk);
    }
  }

  /** All spends, and the creations of one wallet. */
  function Only(es: seq<Event>, id: WalletId): seq<Event> {
    if es == [] then []
    else
      var last := es[|es| - 1];
      Only(es[..|es| - 1], id) + if last.Create? && last.utxo.walletId != id then [] else [last]
  }

  lemma {:induction false} OnlyConcat(a: seq<Event>, b: seq<Event>, id: WalletId)
    ensures Only(a + b, id) == Only(a, id) + Only(b, id)
  {
    if b == [] {
      assert a + b == a;
    } else {
      assert (a + b)[..|a + b| - 1] == a + b[..|b| - 1];
      OnlyConcat(a, b[..|b| - 1], id);
    }
  }

  /** Two views that agree on what belongs to `id`, the second knowing nothing else. */
  ghost predicate AgreeFor(all: ScanView, solo: ScanView, id: WalletId) {
    forall spk :: Resolve(solo, spk) == OwnedBy(Resolve(all, spk), id)
  }

  /** The view with everybody registered and the wallet's own view agree on its scripts exactly when it keeps them. */
  lemma {:induction false} SameOwnersIff(regs: seq<Registration>, id: WalletId)
    ensures AgreeFor(RegisterAll(regs), RegisterAll(Solo(regs, id)), id) <==> KeepsScripts(regs, id)
  {
    forall spk
      ensures Resolve(RegisterAll(Solo(regs, id)), spk) == OwnedBy(Resolve(RegisterAll(regs), spk), id) <==>
              KeepsScript(regs, id, spk)
    {
      ResolvesToLast(regs, spk);
      ResolvesToLast(Solo(regs, id), spk);
      SoloOwnerIff(regs, id, spk);
    }
  }

  lemma AgreeOutput(all: ScanView, solo: ScanView, id: WalletId, h: nat, op: OutPoint, out: TxOut)
    requires AgreeFor(all, solo, id)
    ensures Only(OutputEvent(all, h, op, out), id) == OutputEvent(solo, h, op, out)
  {
    var o, s := Resolve(all, out.scriptPubkey), Resolve(solo, out.scriptPubkey);
    assert s == OwnedBy(o, id);
    var es := OutputEvent(all, h, op, out);
    assert es != [] ==> es[..0] == [] && Only([], id) == [];
  }

  lemma {:induction false} AgreeOutputs(all: ScanView, solo: ScanView, id: WalletId, h: nat, txid: Txid,
                                        outs: seq<TxOut>)
    requires AgreeFor(all, solo, id)
    ensures Only(OutputEvents(all, h, txid, outs), id) == OutputEvents(solo, h, txid, outs)
  {
    if outs != [] {
      var init, op := outs[..|outs| - 1], OutPoint(txid, |outs| - 1);
      AgreeOutputs(all, solo, id, h, txid, init);
      AgreeOutput(all, solo, id, h, op, outs[|outs| - 1]);
      OnlyConcat(OutputEvents(all, h, txid, init), OutputEvent(all, h, op, outs[|outs| - 1]), id);
    }
  }

  lemma {:induction false} OnlyInputs(inputs: seq<OutPoint>, h: nat, id: WalletId)
    ensures Only(InputEvents(inputs, h), id) == InputEvents(inputs, h)
  {
    if inputs != [] {
      var init := inputs[..|inputs| - 1];
      OnlyInputs(init, h, id);
      assert InputEvents(inputs, h)[..|InputEvents(init, h)|] == InputEvents(init, h);
    }
  }

  lemma {:induction false} AgreeBlock(all: ScanView, solo: ScanView, id: WalletId, h: nat, txs: seq<Tx>)
    requires AgreeFor(all, solo, id)
    ensures Only(BlockEvents(all, h, txs), id) == BlockEvents(solo, h, txs)
  {
    if txs != [] {
      var init, tx := txs[..|txs| - 1], txs[|txs| - 1];
      AgreeBlock(all, solo, id, h, init);
      OnlyInputs(tx.inputs, h, id);
      AgreeOutputs(all, solo, id, h, tx.txid, tx.outputs);
      OnlyConcat(InputEvents(tx.inputs, h), OutputEvents(all, h, tx.txid, tx.outputs), id);
      OnlyConcat(BlockEvents(all, h, init), TxEvents(all, h, tx), id);
    }
  }

  lemma {:induction false} AgreeRange(all: ScanView, solo: ScanView, id: WalletId, c: seq<Block>, lo: nat, hi: nat)
    requires AgreeFor(all, solo, id) && hi <= |c|
    ensures Only(RangeEvents(all, c, lo, hi), id) == RangeEvents(solo, c, lo, hi)
  {
    if lo < hi {
      AgreeRange(all, solo, id, c, lo, hi - 1);
      AgreeBlock(all, solo, id, hi - 1, c[hi - 1].txs);
      OnlyConcat(RangeEvents(all, c, lo, hi - 1), BlockEvents(all, hi - 1, c[hi - 1].txs), id);
    }
  }

  /** Dropping other wallets' creations does not change a wallet's own records. */
  lemma {:induction false} OnlyKeepsRecords(es: seq<Event>, id: WalletId, op: OutPoint)
    requires WellOrdered(es)
    ensures FirstSpend(Only(es, id), op) == FirstSpend(es, op)
    ensures op in Captures(Only(es, id)) <==> op in Captures(es) && Captures(es)[op].walletId == id
    ensures op in Captures(Only(es, id)) ==> Captures(Only(es, id))[op] == Captures(es)[op]
  {
    if es != [] {
      var init, last := es[..|es| - 1], es[|es| - 1];
      assert es == init + [last];
      WellOrderedParts(init, [last]);
      OnlyKeepsRecords(init, id, op);
      FirstSpendConcat(init, [last], op);
      var kept := if last.Create? && last.utxo.walletId != id then [] else [last];
      assert Only(es, id) == Only(init, id) + kept;
      FirstSpendConcat(Only(init, id), kept, op);
      CapturesConcat(Only(init, id), kept);
      CapturesConcat(init, [last]);
      CapturesAre(init, op);
      assert [last][..0] == [];
    }
  }

  /**
   What a wallet can spend after one scan for everybody is what it could spend
   after a scan registering it alone, when it keeps its scripts.
   */
  lemma {:induction false} OneScanServesAll(regs: seq<Registration>, id: WalletId, c: seq<Block>)
    requires KeepsScripts(regs, id) && OrderedTxs(Txs(c))
    ensures UnspentOf(Ledger(ChainEvents(RegisterAll(regs), c)), id) ==
            UnspentOf(Ledger(ChainEvents(RegisterAll(Solo(regs, id)), c)), id)
  {
    var all, solo := RegisterAll(regs), RegisterAll(Solo(regs, id));
    SameOwnersIff(regs, id);
    AgreeRange(all, solo, id, c, 0, |c|);
    FreshChain(all, c);
    SameRecords(ChainEvents(all, c), id);
  }

  lemma SameRecords(es: seq<Event>, id: WalletId)
    requires WellOrdered(es)
    ensures UnspentOf(Ledger(es), id) == UnspentOf(Ledger(Only(es, id)), id)
  {
    forall op
      ensures op in Ledger(Only(es, id)) <==> op in Ledger(es) && Ledger(es)[op].utxo.walletId == id
      ensures op in Ledger(Only(es, id)) ==> Ledger(Only(es, id))[op] == Ledger(es)[op]
    {
      OnlyKeepsRecords(es, id, op);
    }
    var m, n := Ledger(es), Ledger(Only(es, id));
    forall u | u in UnspentOf(m, id)
      ensures u in UnspentOf(n, id)
    {
      var op :| op in m && !m[op].utxo.isSpent && m[op].utxo.walletId == id && m[op].utxo == u;
      assert op in n;
    }
    forall u | u in UnspentOf(n, id)
      ensures u in UnspentOf(m, id)
    {
      var op :| op in n && !n[op].utxo.isSpent && n[op].utxo.walletId == id && n[op].utxo == u;
      assert op in m;
    }
  }
}
