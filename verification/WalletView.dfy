/**
 What a wallet sees, read off the registrations and the chain's transactions alone:
 who owns a script, which outputs are recorded and how, and which a wallet may spend.
 */
module WalletView {
  import opened Results
  import opened ChainModel
  import opened Events
  import opened Matching
  import opened ReplayMeaning
  import opened Stores
  import opened ScanEngine
  import opened Attribution

  // ------------------------------------------------------------------
  // Owners
  // ------------------------------------------------------------------

  ghost predicate DerivesAt(r: Registration, chain: Keychain, j: nat, spk: Script) {
    && j < r.gap
    && match (if chain == External then r.wollet.external(j) else r.wollet.internal(j))
       case Some(d) => d.scriptPubkey == spk
       case None => false
  }

  /** Every address within the gap derives; otherwise registering the wallet fails and it watches nothing. */
  ghost predicate Derivable(r: Registration) {
    forall j: nat :: j < r.gap ==> r.wollet.external(j).Some? && r.wollet.internal(j).Some?
  }

  ghost predicate Watches(r: Registration, spk: Script) {
    Derivable(r) && exists chain, j: nat :: DerivesAt(r, chain, j, spk)
  }

  /** The place recorded for a script: the highest index, at equal indices the internal chain. */
  ghost predicate LastPlace(r: Registration, chain: Keychain, j: nat, spk: Script) {
    && DerivesAt(r, chain, j, spk)
    && forall other, i: nat :: DerivesAt(r, other, i, spk) ==>
         i < j || (i == j && (other == chain || chain == Internal))
  }

  /** Registration `i` is the last that watches the script, and derives it at `chain`, `j`. */
  ghost predicate Owns(regs: seq<Registration>, i: nat, chain: Keychain, j: nat, spk: Script) {
    && i < |regs| && Derivable(regs[i]) && LastPlace(regs[i], chain, j, spk)
    && forall k :: i < k < |regs| ==> !Watches(regs[k], spk)
  }

  lemma {:induction false} LastListedAt(list: seq<Watch>, spk: Script) returns (k: nat)
    ensures match LastListed(list, spk)
            case Some((chain, i)) =>
              && k < |list| && list[k] == (spk, chain, i)
              && forall n :: k < n < |list| ==> list[n].0 != spk
            case None => forall n :: 0 <= n < |list| ==> list[n].0 != spk
  {
    k := 0;
    if list != [] {
      k := |list| - 1;
      if list[k].0 != spk {
        k := LastListedAt(list[..k], spk);
      }
    }
  }

  /** Where a place stands in the list of watched scripts. */
  function Position(chain: Keychain, j: nat): nat {
    2 * j + if chain == Internal then 1 else 0
  }

  lemma ListedAt(r: Registration, chain: Keychain, j: nat, spk: Script)
    requires Derivable(r)
    ensures Watched(r.wollet, r.gap).Some?
    ensures var list := Watched(r.wollet, r.gap).value;
            && |list| == 2 * r.gap
            && (DerivesAt(r, chain, j, spk) <==>
                Position(chain, j) < |list| && list[Position(chain, j)] == (spk, chain, j))
  {
    WatchedAre(r.wollet, r.gap);
  }

  lemma DerivableIff(r: Registration)
    ensures Watched(r.wollet, r.gap).Some? <==> Derivable(r)
  {
    WatchedAre(r.wollet, r.gap);
    forall j: nat | j < r.gap
      ensures AddressScript(r.wollet, External, j).Some? <==> r.wollet.external(j).Some?
      ensures AddressScript(r.wollet, Internal, j).Some? <==> r.wollet.internal(j).Some?
    {
    }
  }

  lemma ListedIs(r: Registration, spk: Script)
    ensures Listed(r, spk).None? <==> !Watches(r, spk)
    ensures match Listed(r, spk)
            case Some((chain, j)) => Derivable(r) && LastPlace(r, chain, j, spk)
            case None => true
  {
    DerivableIff(r);
    if Derivable(r) {
      var list := Watched(r.wollet, r.gap).value;
      WatchedAre(r.wollet, r.gap);
      var k := LastListedAt(list, spk);
      forall chain, j: nat
        ensures DerivesAt(r, chain, j, spk) <==>
                Position(chain, j) < |list| && list[Position(chain, j)] == (spk, chain, j)
      {
        ListedAt(r, chain, j, spk);
      }
      if Listed(r, spk).Some? {
        var (chain, j) := Listed(r, spk).value;
        assert Position(chain, j) == k;
        assert DerivesAt(r, chain, j, spk);
      }
    }
  }

  /** A place is the last only once. */
  lemma OnePlace(r: Registration, a: Keychain, i: nat, b: Keychain, j: nat, spk: Script)
    requires LastPlace(r, a, i, spk) && LastPlace(r, b, j, spk)
    ensures a == b && i == j
  {
  }

  /** The owner the index resolves a script to, in terms of what the registered wollets derive. */
  lemma {:induction false} OwnerIff(regs: seq<Registration>, spk: Script, o: Owner)
    ensures LastOwner(regs, spk) == Some(o) <==>
            exists i: nat :: Owns(regs, i, o.chain, o.i, spk) && o.id == regs[i].id && o.wollet == regs[i].wollet
  {
    forall k | 0 <= k < |regs|
      ensures Listed(regs[k], spk).None? <==> !Watches(regs[k], spk)
    {
      ListedIs(regs[k], spk);
    }
    if LastOwner(regs, spk).Some? {
      var at := LastOwnerRegistered(regs, spk);
      ListedIs(regs[at], spk);
      var own := LastOwner(regs, spk).value;
      assert Owns(regs, at, own.chain, own.i, spk);
      if i: nat :| Owns(regs, i, o.chain, o.i, spk) && o.id == regs[i].id && o.wollet == regs[i].wollet {
        OneOwner(regs, i, o.chain, o.i, at, own.chain, own.i, spk);
      }
    } else {
      NobodyLists(regs, spk);
    }
  }

  lemma OneOwner(regs: seq<Registration>, i: nat, a: Keychain, x: nat, j: nat, b: Keychain, y: nat, spk: Script)
    requires Owns(regs, i, a, x, spk) && Owns(regs, j, b, y, spk)
    ensures i == j && a == b && x == y
  {
    assert Watches(regs[i], spk) && Watches(regs[j], spk);
    assert i == j;
    OnePlace(regs[i], a, x, b, y, spk);
  }

  /** Every registered wollet is kept, in order, also when its registration fails. */
  lemma {:induction false} WolletsAre(regs: seq<Registration>)
    ensures |RegisterAll(regs).wollets| == |regs|
    ensures forall i :: 0 <= i < |regs| ==> RegisterAll(regs).wollets[i] == regs[i].wollet
  {
    hide Watched, Indexed;
    if regs != [] {
      WolletsAre(regs[..|regs| - 1]);
    }
  }

  // ------------------------------------------------------------------
  // Records
  // ------------------------------------------------------------------

  /**
   Output `u.outpoint` of a transaction of block `h` pays to a script that
   registration `i` owns, its wollet unblinds it, and `u` says so.
   */
  ghost predicate Receives(regs: seq<Registration>, c: seq<Block>, h: nat, tx: Tx, i: nat, u: CapturedUtxo) {
    && h < |c| && tx in c[h].txs && i < |regs|
    && u.outpoint.txid == tx.txid && u.outpoint.vout < |tx.outputs|
    && var out := tx.outputs[u.outpoint.vout];
       && Owns(regs, i, u.chain, u.wildcardIndex, out.scriptPubkey)
       && regs[i].wollet.unblind(out) == Some(u.secrets)
       && u.walletId == regs[i].id && u.txout == out && u.height == h && !u.isSpent
  }

  lemma CaptureIff(regs: seq<Registration>, h: nat, op: OutPoint, out: TxOut, u: CapturedUtxo)
    ensures Capture(RegisterAll(regs), h, op, out) == Some(u) <==>
            exists i: nat ::
              && Owns(regs, i, u.chain, u.wildcardIndex, out.scriptPubkey)
              && regs[i].wollet.unblind(out) == Some(u.secrets)
              && u == CapturedUtxo(regs[i].id, op, out, u.secrets, u.chain, u.wildcardIndex, h, false)
  {
    hide Derivable, LastPlace, Watches, RegisterAll, LastOwner;
    var v := RegisterAll(regs);
    ResolvesToLast(regs, out.scriptPubkey);
    var o := Resolve(v, out.scriptPubkey);
    if o.Some? {
      OwnerIff(regs, out.scriptPubkey, o.value);
    }
    if i: nat :| Owns(regs, i, u.chain, u.wildcardIndex, out.scriptPubkey)
                 && regs[i].wollet.unblind(out) == Some(u.secrets)
                 && u == CapturedUtxo(regs[i].id, op, out, u.secrets, u.chain, u.wildcardIndex, h, false) {
      OwnerIff(regs, out.scriptPubkey, Owner(regs[i].id, u.chain, u.wildcardIndex, regs[i].wollet));
    }
  }

  lemma PaysIff(regs: seq<Registration>, c: seq<Block>, h: nat, u: CapturedUtxo)
    ensures PaysAt(RegisterAll(regs), c, h, u.outpoint, u) <==> exists tx, i: nat :: Receives(regs, c, h, tx, i, u)
  {
    hide Derivable, LastPlace, Watches, RegisterAll, Capture;
    var v := RegisterAll(regs);
    if PaysAt(v, c, h, u.outpoint, u) {
      var tx :| tx in c[h].txs && Pays(v, h, tx, u.outpoint, u);
      var out := tx.outputs[u.outpoint.vout];
      CaptureIff(regs, h, u.outpoint, out, u);
      var i: nat :| Owns(regs, i, u.chain, u.wildcardIndex, out.scriptPubkey)
                    && regs[i].wollet.unblind(out) == Some(u.secrets)
                    && u == CapturedUtxo(regs[i].id, u.outpoint, out, u.secrets, u.chain, u.wildcardIndex, h, false);
      assert Receives(regs, c, h, tx, i, u);
    }
    if tx, i: nat :| Receives(regs, c, h, tx, i, u) {
      CaptureIff(regs, h, u.outpoint, tx.outputs[u.outpoint.vout], u);
      assert Pays(v, h, tx, u.outpoint, u);
    }
  }

  /**
   Every output of the chain that pays to an owned script and that its owner's wollet
   unblinds is recorded, with the owner's id, chain and index, the secrets and the
   block's height; and nothing else is.
   */
  lemma {:induction false} RecordsAre(regs: seq<Registration>, c: seq<Block>, u: CapturedUtxo)
    requires OrderedTxs(Txs(c)) && !u.isSpent
    ensures var m := Ledger(ChainEvents(RegisterAll(regs), c));
            (u.outpoint in m && m[u.outpoint].utxo.(isSpent := false) == u) <==>
            exists h: nat, tx, i: nat :: Receives(regs, c, h, tx, i, u)
  {
    hide RegisterAll, PaysAt, Receives, Ledger, OrderedTxs, Txs;
    var v := RegisterAll(regs);
    LedgerHoldsOwnedOutputs(v, c, u.outpoint, u);
    if h: nat :| PaysAt(v, c, h, u.outpoint, u) {
      PaysIff(regs, c, h, u);
    }
    if h: nat, tx, i: nat :| Receives(regs, c, h, tx, i, u) {
      PaysIff(regs, c, h, u);
    }
  }

  /**
   What a wallet can spend after a scan: the outputs recorded under its id that no
   input of the chain names.
   */
  lemma {:induction false} WalletSees(regs: seq<Registration>, c: seq<Block>, id: WalletId, u: CapturedUtxo)
    requires OrderedTxs(Txs(c))
    ensures u in UnspentOf(Ledger(ChainEvents(RegisterAll(regs), c)), id) <==>
            && u.walletId == id
            && (exists h: nat, tx, i: nat :: Receives(regs, c, h, tx, i, u))
            && forall h, tx :: 0 <= h < |c| && tx in c[h].txs ==> u.outpoint !in tx.inputs
  {
    hide RegisterAll, Receives, RangeEvents, OrderedTxs, Txs, SpendsAt, FirstSpend;
    var v := RegisterAll(regs);
    var es := ChainEvents(v, c);
    FreshChain(v, c);
    KeyedLedger(v, c);
    SpendHeightIsFirst(v, c, u.outpoint);
    NeverSpent(c, u.outpoint);
    if !u.isSpent {
      RecordsAre(regs, c, u);
    }
    if h: nat, tx, i: nat :| Receives(regs, c, h, tx, i, u) {
      Unspends(regs, c, h, tx, i, u);
    }
  }

  lemma Unspends(regs: seq<Registration>, c: seq<Block>, h: nat, tx: Tx, i: nat, u: CapturedUtxo)
    requires Receives(regs, c, h, tx, i, u)
    ensures !u.isSpent
  {
  }

  lemma NeverSpent(c: seq<Block>, op: OutPoint)
    ensures (forall h :: 0 <= h < |c| ==> !SpendsAt(c, h, op)) <==>
            forall h, tx :: 0 <= h < |c| && tx in c[h].txs ==> op !in tx.inputs
  {
    if h: nat, tx :| h < |c| && tx in c[h].txs && op in tx.inputs {
      assert SpendsAt(c, h, op);
    }
  }

  /** In a ledger a record is under its own outpoint, and spent exactly when the chain spends it. */
  lemma KeyedLedger(v: ScanView, c: seq<Block>)
    requires WellOrdered(ChainEvents(v, c))
    ensures var m := Ledger(ChainEvents(v, c));
            && Keyed(m)
            && forall op :: op in m ==> (m[op].utxo.isSpent <==> FirstSpend(ChainEvents(v, c), op).Some?)
  {
    hide RangeEvents;
    var es := ChainEvents(v, c);
    RangeEventsAt(v, c, 0, |c|);
    forall op | op in Ledger(es)
      ensures Ledger(es)[op].utxo.outpoint == op
    {
      CapturesFacts(es, 0, |c|, op);
    }
  }
}
