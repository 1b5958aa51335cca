/** Preparing captured outputs for spending, and the fee account's chained change. */
module Spend {
  import opened Results
  import opened ChainModel
  import opened Events
  import opened Matching
  import opened ScanEngine
  import opened Attribution
  import opened Finalize

  type Branch = nat -> Option<Definite>
  type Singles = seq<Branch>

  datatype SpendError = Descriptor | Enrich | NotBlinded | Unblind

  datatype ExternalUtxo = ExternalUtxo(outpoint: OutPoint, txout: TxOut, unblinded: TxOutSecrets, maxWeight: nat)

  /** What the descriptor library answers: the single-path forms of a wollet's descriptor, and a satisfaction weight. */
  datatype Library = Library(singlesOf: Wollet -> Option<Singles>, weightOf: Definite -> Option<nat>)

  function ChainIndex(chain: Keychain): nat {
    match chain case External => 0 case Internal => 1
  }

  function DefiniteAt(singles: Singles, chain: nat, i: nat): Option<Definite> {
    if chain < |singles| then singles[chain](i) else None
  }

  function MaxWeightOf(lib: Library, singles: Singles): Option<nat> {
    if singles == [] then None
    else match singles[0](0) case None => None case Some(d) => lib.weightOf(d)
  }

  /** One input and its enrichment, its owner's descriptors derived afresh. */
  function PrepareOne(lib: Library, u: CapturedUtxo, owner: Wollet): Option<(ExternalUtxo, Definite)> {
    match lib.singlesOf(owner)
    case None => None
    case Some(singles) =>
      match (MaxWeightOf(lib, singles), DefiniteAt(singles, ChainIndex(u.chain), u.wildcardIndex))
      case (Some(w), Some(d)) => Some((ExternalUtxo(u.outpoint, u.txout, u.secrets, w), d))
      case _ => None
  }

  type Owned = (CapturedUtxo, Wollet)
  type Prepared = (seq<ExternalUtxo>, map<OutPoint, Definite>)

  /** All inputs, without any cache; a repeated outpoint keeps the last owner's descriptor. */
  function PrepareAll(lib: Library, inputs: seq<Owned>): Option<Prepared> {
    if inputs == [] then Some(([], map[]))
    else
      var last := inputs[|inputs| - 1];
      match (PrepareAll(lib, inputs[..|inputs| - 1]), PrepareOne(lib, last.0, last.1))
      case (Some(before), Some(one)) => Some((before.0 + [one.0], before.1[last.0.outpoint := one.1]))
      case _ => None
  }

  // ------------------------------------------------------------------
  // What preparing means
  // ------------------------------------------------------------------

  /**
   `ext` hands the builder the record's own output, with the weight of the owner's
   first branch at index 0; `d` is what the branch of its chain gives at its index.
   */
  ghost predicate Ready(lib: Library, u: CapturedUtxo, owner: Wollet, ext: ExternalUtxo, d: Definite) {
    match lib.singlesOf(owner)
    case None => false
    case Some(singles) =>
      && singles != []
      && singles[0](0).Some? && lib.weightOf(singles[0](0).value) == Some(ext.maxWeight)
      && ext.outpoint.txid == u.outpoint.txid && ext.outpoint.vout == u.outpoint.vout
      && ext.txout == u.txout && ext.unblinded == u.secrets
      && (u.chain == External ==> singles[0](u.wildcardIndex) == Some(d))
      && (u.chain == Internal ==> |singles| > 1 && singles[1](u.wildcardIndex) == Some(d))
  }

  lemma OneIsReady(lib: Library, u: CapturedUtxo, owner: Wollet, ext: ExternalUtxo, d: Definite)
    ensures PrepareOne(lib, u, owner) == Some((ext, d)) <==> Ready(lib, u, owner, ext, d)
  {
  }

  ghost predicate CanBeReady(lib: Library, u: CapturedUtxo, owner: Wollet) {
    exists ext, d :: Ready(lib, u, owner, ext, d)
  }

  lemma CanBeReadyIff(lib: Library, u: CapturedUtxo, owner: Wollet)
    ensures PrepareOne(lib, u, owner).Some? <==> CanBeReady(lib, u, owner)
    ensures match PrepareOne(lib, u, owner) case Some((ext, d)) => Ready(lib, u, owner, ext, d) case None => true
  {
    hide PrepareOne, Ready;
    if PrepareOne(lib, u, owner).Some? {
      var (ext, d) := PrepareOne(lib, u, owner).value;
      OneIsReady(lib, u, owner, ext, d);
    }
    if ext, d :| Ready(lib, u, owner, ext, d) {
      OneIsReady(lib, u, owner, ext, d);
    }
  }

  /** Preparing succeeds exactly when every input can be got ready. */
  lemma {:induction false} PreparesIff(lib: Library, inputs: seq<Owned>)
    ensures PrepareAll(lib, inputs).Some? <==>
            forall k :: 0 <= k < |inputs| ==> CanBeReady(lib, inputs[k].0, inputs[k].1)
  {
    hide PrepareOne, CanBeReady;
    if inputs != [] {
      var n := |inputs| - 1;
      PreparesIff(lib, inputs[..n]);
      CanBeReadyIff(lib, inputs[n].0, inputs[n].1);
      assert forall k :: 0 <= k < n ==> inputs[..n][k] == inputs[k];
    }
  }

  /** Record `k` is handed to the builder, and if no later one has its outpoint its descriptor is in the map. */
  ghost predicate Handed(lib: Library, inputs: seq<Owned>, p: Prepared, k: nat)
    requires k < |inputs| == |p.0|
  {
    var (u, owner) := inputs[k];
    && p.0[k].outpoint == u.outpoint && u.outpoint in p.1
    && (exists d :: Ready(lib, u, owner, p.0[k], d))
    && ((forall j :: k < j < |inputs| ==> inputs[j].0.outpoint != u.outpoint) ==>
          Ready(lib, u, owner, p.0[k], p.1[u.outpoint]))
  }

  /** One external input per record, in order, and a map that knows exactly their outpoints. */
  ghost predicate AllHanded(lib: Library, inputs: seq<Owned>, p: Prepared) {
    && |p.0| == |inputs|
    && (forall k :: 0 <= k < |inputs| ==> Handed(lib, inputs, p, k))
    && (forall op :: op in p.1 ==> exists k :: 0 <= k < |inputs| && inputs[k].0.outpoint == op)
  }

  lemma StillHanded(lib: Library, inputs: seq<Owned>, p: Prepared, more: Owned, ext: ExternalUtxo, d: Definite, k: nat)
    requires k < |inputs| == |p.0| && Handed(lib, inputs, p, k)
    ensures Handed(lib, inputs + [more], (p.0 + [ext], p.1[more.0.outpoint := d]), k)
  {
    hide Ready;
    var all, q := inputs + [more], (p.0 + [ext], p.1[more.0.outpoint := d]);
    assert all[k] == inputs[k] && q.0[k] == p.0[k];
    if forall j :: k < j < |all| ==> all[j].0.outpoint != inputs[k].0.outpoint {
      assert all[|inputs|] == more;
      forall j | k < j < |inputs|
        ensures inputs[j].0.outpoint != inputs[k].0.outpoint
      {
        assert all[j] == inputs[j];
      }
    }
  }

  lemma NowHanded(lib: Library, inputs: seq<Owned>, p: Prepared, more: Owned, ext: ExternalUtxo, d: Definite)
    requires |inputs| == |p.0| && Ready(lib, more.0, more.1, ext, d)
    ensures Handed(lib, inputs + [more], (p.0 + [ext], p.1[more.0.outpoint := d]), |inputs|)
  {
    ReadyOutpoint(lib, more.0, more.1, ext, d);
  }

  /**
   The builder gets one external input per record, in order, and the enrichment map
   knows exactly their outpoints, each with the descriptor of the last record that
   has it.
   */
  lemma {:induction false} PreparedMeans(lib: Library, inputs: seq<Owned>)
    requires PrepareAll(lib, inputs).Some?
    ensures AllHanded(lib, inputs, PrepareAll(lib, inputs).value)
  {
    hide PrepareOne, Ready, Handed;
    if inputs != [] {
      var n := |inputs| - 1;
      var init, last := inputs[..n], inputs[n];
      PreparedStep(lib, inputs);
      PreparedMeans(lib, init);
      CanBeReadyIff(lib, last.0, last.1);
      var (ext, d) := PrepareOne(lib, last.0, last.1).value;
      var p, known := PrepareAll(lib, inputs).value, PrepareAll(lib, init).value;
      assert inputs == init + [last] && p == (known.0 + [ext], known.1[last.0.outpoint := d]);
      NowHanded(lib, init, known, last, ext, d);
      forall k: nat | k < n
        ensures Handed(lib, inputs, p, k)
      {
        StillHanded(lib, init, known, last, ext, d, k);
      }
      forall op | op in p.1
        ensures exists k :: 0 <= k < |inputs| && inputs[k].0.outpoint == op
      {
        if op in known.1 {
          var k :| 0 <= k < |init| && init[k].0.outpoint == op;
          assert inputs[k].0.outpoint == op;
        }
      }
    }
  }

  lemma ReadyOutpoint(lib: Library, u: CapturedUtxo, owner: Wollet, ext: ExternalUtxo, d: Definite)
    requires Ready(lib, u, owner, ext, d)
    ensures ext.outpoint == u.outpoint
  {
  }

  lemma PreparedStep(lib: Library, inputs: seq<Owned>)
    requires inputs != [] && PrepareAll(lib, inputs).Some?
    ensures var n := |inputs| - 1;
            && PrepareAll(lib, inputs[..n]).Some? && PrepareOne(lib, inputs[n].0, inputs[n].1).Some?
            && var before := PrepareAll(lib, inputs[..n]).value;
               var one := PrepareOne(lib, inputs[n].0, inputs[n].1).value;
               PrepareAll(lib, inputs).value == (before.0 + [one.0], before.1[inputs[n].0.outpoint := one.1])
  {
  }

  /** Wollets with the same descriptor text have the same descriptors. */
  ghost predicate TextDetermines(lib: Library, inputs: seq<Owned>) {
    forall i, j :: 0 <= i < |inputs| && 0 <= j < |inputs| && inputs[i].1.descriptor == inputs[j].1.descriptor ==>
                     lib.singlesOf(inputs[i].1) == lib.singlesOf(inputs[j].1)
  }

  /** Every cached text belongs to an input already seen, and maps to what its owner's descriptor gives. */
  ghost predicate CacheAgrees(lib: Library, inputs: seq<Owned>, n: nat, cache: map<string, Singles>)
    requires n <= |inputs|
  {
    forall key :: key in cache ==>
                    exists i :: 0 <= i < n && inputs[i].1.descriptor == key
                                && lib.singlesOf(inputs[i].1) == Some(cache[key])
  }

  lemma {:induction false} PrepareStops(lib: Library, inputs: seq<Owned>, k: nat)
    requires k <= |inputs| && PrepareAll(lib, inputs[..k]).None?
    ensures PrepareAll(lib, inputs).None?
  {
    if k == |inputs| {
      assert inputs[..k] == inputs;
    } else {
      assert inputs[..|inputs| - 1][..k] == inputs[..k];
      PrepareStops(lib, inputs[..|inputs| - 1], k);
    }
  }

  lemma PrepareStep(lib: Library, inputs: seq<Owned>, k: nat)
    requires k < |inputs|
    ensures PrepareAll(lib, inputs[..k + 1]) ==
            match (PrepareAll(lib, inputs[..k]), PrepareOne(lib, inputs[k].0, inputs[k].1))
            case (Some(before), Some(one)) => Some((before.0 + [one.0], before.1[inputs[k].0.outpoint := one.1]))
            case _ => None
  {
    assert inputs[..k + 1][..k] == inputs[..k];
  }

  lemma NothingCached(lib: Library, inputs: seq<Owned>)
    ensures CacheAgrees(lib, inputs, 0, map[])
    ensures PrepareAll(lib, inputs[..0]) == Some(([], map[]))
  {
  }

  lemma CacheHit(lib: Library, inputs: seq<Owned>, k: nat, cache: map<string, Singles>)
    requires TextDetermines(lib, inputs) && k < |inputs| && CacheAgrees(lib, inputs, k, cache)
    requires inputs[k].1.descriptor in cache
    ensures lib.singlesOf(inputs[k].1) == Some(cache[inputs[k].1.descriptor])
    ensures CacheAgrees(lib, inputs, k + 1, cache)
  {
  }

  lemma CacheGrows(lib: Library, inputs: seq<Owned>, k: nat, cache: map<string, Singles>, found: Singles)
    requires k < |inputs| && CacheAgrees(lib, inputs, k, cache) && lib.singlesOf(inputs[k].1) == Some(found)
    ensures CacheAgrees(lib, inputs, k + 1, cache[inputs[k].1.descriptor := found])
  {
  }

  /** The cached loop of the migration builder computes what deriving every owner afresh computes. */
  method PrepareWithCache(lib: Library, inputs: seq<Owned>) returns (r: Result<Prepared, SpendError>)
    ensures TextDetermines(lib, inputs) ==>
              r == match PrepareAll(lib, inputs) case Some(p) => Success(p) case None => Failure(Descriptor)
    ensures TextDetermines(lib, inputs) ==>
              (r.Success? <==> forall k :: 0 <= k < |inputs| ==> CanBeReady(lib, inputs[k].0, inputs[k].1))
    ensures TextDetermines(lib, inputs) && r.Success? ==> AllHanded(lib, inputs, r.value)
  {
    hide TextDetermines, CacheAgrees, MaxWeightOf, DefiniteAt, CanBeReady, AllHanded;
    PreparesIff(lib, inputs);
    if PrepareAll(lib, inputs).Some? {
      PreparedMeans(lib, inputs);
    }
    ghost var ok := TextDetermines(lib, inputs);
    NothingCached(lib, inputs);
    var cache: map<string, Singles> := map[];
    var external, enrich: map<OutPoint, Definite> := [], map[];
    for k := 0 to |inputs|
      invariant ok ==> CacheAgrees(lib, inputs, k, cache)
      invariant ok ==> PrepareAll(lib, inputs[..k]) == Some((external, enrich))
    {
      var (utxo, owner) := inputs[k];
      PrepareStep(lib, inputs, k);
      if PrepareAll(lib, inputs[..k + 1]).None? {
        PrepareStops(lib, inputs, k + 1);
      }
      if owner.descriptor !in cache {
        var found := lib.singlesOf(owner);
        if found.None? {
          return Failure(Descriptor);
        }
        if ok {
          CacheGrows(lib, inputs, k, cache, found.value);
        }
        cache := cache[owner.descriptor := found.value];
      } else if ok {
        CacheHit(lib, inputs, k, cache);
      }
      var singles := cache[owner.descriptor];
      var weight := MaxWeightOf(lib, singles);
      if weight.None? {
        return Failure(Descriptor);
      }
      external := external + [ExternalUtxo(utxo.outpoint, utxo.txout, utxo.secrets, weight.value)];
      var definite := DefiniteAt(singles, ChainIndex(utxo.chain), utxo.wildcardIndex);
      if definite.None? {
        return Failure(Descriptor);
      }
      enrich := enrich[utxo.outpoint := definite.value];
    }
    assert inputs[..|inputs|] == inputs;
    return Success((external, enrich));
  }

  /** The single-wallet form derives the descriptors and the weight once. */
  method PrepareInputs(lib: Library, utxos: seq<CapturedUtxo>, owner: Wollet) returns (r: Result<Prepared, SpendError>)
    ensures r.Success? <==>
              && lib.singlesOf(owner).Some? && MaxWeightOf(lib, lib.singlesOf(owner).value).Some?
              && PrepareAll(lib, seq(|utxos|, k requires 0 <= k < |utxos| => (utxos[k], owner))).Some?
    ensures r.Success? ==>
              PrepareAll(lib, seq(|utxos|, k requires 0 <= k < |utxos| => (utxos[k], owner))) == Some(r.value)
    ensures r.Success? ==>
              AllHanded(lib, seq(|utxos|, k requires 0 <= k < |utxos| => (utxos[k], owner)), r.value)
  {
    hide AllHanded;
    ghost var inputs: seq<Owned> := seq(|utxos|, k requires 0 <= k < |utxos| => (utxos[k], owner));
    if PrepareAll(lib, inputs).Some? {
      PreparedMeans(lib, inputs);
    }
    var singles := lib.singlesOf(owner);
    if singles.None? {
      return Failure(Descriptor);
    }
    var weight := MaxWeightOf(lib, singles.value);
    if weight.None? {
      return Failure(Descriptor);
    }
    var external, enrich: map<OutPoint, Definite> := [], map[];
    for k := 0 to |utxos|
      invariant PrepareAll(lib, inputs[..k]) == Some((external, enrich))
    {
      var u := utxos[k];
      PrepareStep(lib, inputs, k);
      if PrepareAll(lib, inputs[..k + 1]).None? {
        PrepareStops(lib, inputs, k + 1);
      }
      external := external + [ExternalUtxo(u.outpoint, u.txout, u.secrets, weight.value)];
      var definite := DefiniteAt(singles.value, ChainIndex(u.chain), u.wildcardIndex);
      if definite.None? {
        return Failure(Descriptor);
      }
      enrich := enrich[u.outpoint := definite.value];
    }
    assert inputs[..|inputs|] == inputs;
    return Success((external, enrich));
  }

  // ------------------------------------------------------------------
  // Enriching the built PSET
  // ------------------------------------------------------------------

  /** The library's descriptor update of one input; it may refuse. */
  type Update = (PsetInput, Definite) -> Option<PsetInput>

  predicate Updates(update: Update, enrich: map<OutPoint, Definite>, i: PsetInput, now: PsetInput) {
    if i.previousOutput in enrich then update(i, enrich[i.previousOutput]) == Some(now) else now == i
  }

  /** Every known input gets its descriptor, unknown ones stay; then some output must carry a range proof. */
  method FinishBlinded(update: Update, pset: Pset, enrich: map<OutPoint, Definite>)
    returns (r: Result<(), SpendError>)
    modifies pset
    ensures |pset.inputs| == |old(pset.inputs)|
    ensures r.Success? <==>
              && (exists o :: o in pset.outputs && o.valueRangeproof.Some?)
              && forall k :: 0 <= k < |old(pset.inputs)| && old(pset.inputs)[k].previousOutput in enrich ==>
                               update(old(pset.inputs)[k], enrich[old(pset.inputs)[k].previousOutput]).Some?
    ensures r.Success? ==>
              forall k :: 0 <= k < |pset.inputs| ==> Updates(update, enrich, old(pset.inputs)[k], pset.inputs[k])
  {
    ghost var was := pset.inputs;
    for idx := 0 to |pset.inputs|
      invariant |pset.inputs| == |was|
      invariant forall k :: 0 <= k < idx ==> Updates(update, enrich, was[k], pset.inputs[k])
      invariant forall k :: idx <= k < |was| ==> pset.inputs[k] == was[k]
    {
      var input := pset.inputs[idx];
      if input.previousOutput in enrich {
        var updated := update(input, enrich[input.previousOutput]);
        if updated.None? {
          return Failure(Enrich);
        }
        pset.inputs := pset.inputs[idx := updated.value];
      }
    }
    assert forall k :: 0 <= k < |was| && was[k].previousOutput in enrich ==>
        Updates(update, enrich, was[k], pset.inputs[k]);
    var hasBlindedOutput := exists o :: o in pset.outputs && o.valueRangeproof.Some?;
    return if hasBlindedOutput then Success(()) else Failure(NotBlinded);
  }

  ghost predicate DistinctOutpoints(inputs: seq<Owned>) {
    forall i, j :: 0 <= i < j < |inputs| ==> inputs[i].0.outpoint != inputs[j].0.outpoint
  }

  /** With distinct outpoints the enrichment map sends each to its own owner's descriptor, and knows nothing else. */
  lemma {:induction false} EnrichIsOwn(lib: Library, inputs: seq<Owned>)
    requires DistinctOutpoints(inputs) && PrepareAll(lib, inputs).Some?
    ensures var enrich := PrepareAll(lib, inputs).value.1;
            && (forall i :: 0 <= i < |inputs| ==>
                  && PrepareOne(lib, inputs[i].0, inputs[i].1).Some?
                  && inputs[i].0.outpoint in enrich
                  && enrich[inputs[i].0.outpoint] == PrepareOne(lib, inputs[i].0, inputs[i].1).value.1)
            && (forall op :: op in enrich ==> exists i :: 0 <= i < |inputs| && inputs[i].0.outpoint == op)
  {
    if inputs != [] {
      var init := inputs[..|inputs| - 1];
      EnrichIsOwn(lib, init);
      var enrich, before := PrepareAll(lib, inputs).value.1, PrepareAll(lib, init).value.1;
      forall i | 0 <= i < |inputs|
        ensures PrepareOne(lib, inputs[i].0, inputs[i].1).Some? && inputs[i].0.outpoint in enrich
        ensures enrich[inputs[i].0.outpoint] == PrepareOne(lib, inputs[i].0, inputs[i].1).value.1
      {
        if i < |init| {
          assert inputs[i] == init[i] && inputs[i].0.outpoint != inputs[|inputs| - 1].0.outpoint;
        }
      }
      forall op | op in enrich
        ensures exists i :: 0 <= i < |inputs| && inputs[i].0.outpoint == op
      {
        if op in before {
          var i :| 0 <= i < |init| && init[i].0.outpoint == op;
          assert inputs[i] == init[i];
        } else {
          assert inputs[|inputs| - 1].0.outpoint == op;
        }
      }
    }
  }

  /**
   Wherever the builder puts an input, it is updated with the descriptor its own
   owner derives for it; inputs nobody prepared are untouched.
   */
  lemma {:induction false} EachInputItsOwner(lib: Library, update: Update, inputs: seq<Owned>, i: PsetInput,
                                             now: PsetInput)
    requires DistinctOutpoints(inputs) && PrepareAll(lib, inputs).Some?
    requires Updates(update, PrepareAll(lib, inputs).value.1, i, now)
    ensures forall k :: 0 <= k < |inputs| && inputs[k].0.outpoint == i.previousOutput ==>
                          && PrepareOne(lib, inputs[k].0, inputs[k].1).Some?
                          && update(i, PrepareOne(lib, inputs[k].0, inputs[k].1).value.1) == Some(now)
    ensures (forall k :: 0 <= k < |inputs| ==> inputs[k].0.outpoint != i.previousOutput) ==> now == i
  {
    EnrichIsOwn(lib, inputs);
  }

  /** The library splits a wollet's multipath descriptor into the branches its addresses come from. */
  ghost predicate SplitsAs(lib: Library, w: Wollet) {
    lib.singlesOf(w) == Some([w.external, w.internal])
  }

  /**
   An output captured by a scan belongs to a registered wallet, the one whose id is
   on its record; prepared with that wallet's wollet it is spent under the script
   it was paid to.
   */
  lemma {:induction false} CapturedScriptIsRebuilt(lib: Library, regs: seq<Registration>, c: seq<Block>,
                                                   u: CapturedUtxo)
    returns (i: nat)
    requires Create(u) in ChainEvents(RegisterAll(regs), c)
    requires forall r :: r in regs ==> SplitsAs(lib, r.wollet)
    ensures i < |regs| && regs[i].id == u.walletId
    ensures lib.singlesOf(regs[i].wollet).Some?
    ensures var at := DefiniteAt(lib.singlesOf(regs[i].wollet).value, ChainIndex(u.chain), u.wildcardIndex);
            at.Some? && at.value.scriptPubkey == u.txout.scriptPubkey
    ensures var one := PrepareOne(lib, u, regs[i].wollet);
            && (one.Some? <==> MaxWeightOf(lib, lib.singlesOf(regs[i].wollet).value).Some?)
            && (one.Some? ==> one.value.1.scriptPubkey == u.txout.scriptPubkey)
  {
    i := CapturedBelongsToOwner(regs, c, u);
    assert SplitsAs(lib, regs[i].wollet);
  }

  // ------------------------------------------------------------------
  // Chained fee change
  // ------------------------------------------------------------------

  /** A record for a just-broadcast output of ours, if we can unblind it. */
  function CapturedFromOutput(w: Wollet, txid: Txid, vout: nat, txout: TxOut, id: WalletId, i: nat)
    : (r: Result<CapturedUtxo, SpendError>)
    ensures r.Success? <==> w.unblind(txout).Some?
    ensures r.Success? ==>
              && r.value.outpoint.txid == txid && r.value.outpoint.vout == vout && r.value.txout == txout
              && w.unblind(txout) == Some(r.value.secrets)
              && r.value.walletId == id && r.value.chain == External && r.value.wildcardIndex == i
              && r.value.height == 0 && !r.value.isSpent
  {
    match w.unblind(txout)
    case None => Failure(Unblind)
    case Some(secrets) => Success(CapturedUtxo(id, OutPoint(txid, vout), txout, secrets, External, i, 0, false))
  }

  /**
   One migration transaction: customers' inputs and exact payments in the policy
   asset, the fee, and the change drained to the fee account.
   */
  datatype Hop = Hop(customers: seq<CapturedUtxo>, payments: seq<nat>, fee: nat, txid: Txid, vout: nat, change: TxOut)

  /** What a record holds of one asset. */
  function ValueOf(asset: AssetId, u: CapturedUtxo): nat {
    if u.secrets.asset == asset then u.secrets.value else 0
  }

  function TotalValue(asset: AssetId, us: seq<CapturedUtxo>): nat {
    if us == [] then 0 else ValueOf(asset, us[0]) + TotalValue(asset, us[1..])
  }

  function Total(ns: seq<nat>): nat {
    if ns == [] then 0 else ns[0] + Total(ns[1..])
  }

  function Fees(hops: seq<Hop>): nat {
    if hops == [] then 0 else hops[0].fee + Fees(hops[1..])
  }

  /** The fee account's record after each hop's change is captured and fed to the next. */
  function Chained(w: Wollet, id: WalletId, i: nat, account: CapturedUtxo, hops: seq<Hop>)
    : Result<CapturedUtxo, SpendError>
    decreases hops
  {
    if hops == [] then Success(account)
    else
      match CapturedFromOutput(w, hops[0].txid, hops[0].vout, hops[0].change, id, i)
      case Failure(e) => Failure(e)
      case Success(next) => Chained(w, id, i, next, hops[1..])
  }

  function Brought(asset: AssetId, hops: seq<Hop>): nat {
    if hops == [] then 0 else TotalValue(asset, hops[0].customers) + Brought(asset, hops[1..])
  }

  function Paid(hops: seq<Hop>): nat {
    if hops == [] then 0 else Total(hops[0].payments) + Paid(hops[1..])
  }

  /**
   The transaction builder balances each hop in the policy asset: inputs equal
   payments, change and fee, the change being what its owner unblinds.
   */
  ghost predicate Balanced(asset: AssetId, w: Wollet, id: WalletId, i: nat, account: CapturedUtxo, hops: seq<Hop>)
    decreases hops
  {
    hops != [] ==>
      match CapturedFromOutput(w, hops[0].txid, hops[0].vout, hops[0].change, id, i)
      case Failure(_) => true
      case Success(next) =>
        && ValueOf(asset, account) + TotalValue(asset, hops[0].customers)
           == Total(hops[0].payments) + ValueOf(asset, next) + hops[0].fee
        && Balanced(asset, w, id, i, next, hops[1..])
  }

  /**
   Over any number of hops the fee account pays the fees and whatever the customers
   are paid beyond what they brought, counted in the policy asset.
   */
  lemma {:induction false} FeeChainConserves(asset: AssetId, w: Wollet, id: WalletId, i: nat, account: CapturedUtxo,
                                             hops: seq<Hop>)
    requires Balanced(asset, w, id, i, account, hops) && Chained(w, id, i, account, hops).Success?
    ensures ValueOf(asset, account) + Brought(asset, hops) ==
            ValueOf(asset, Chained(w, id, i, account, hops).value) + Paid(hops) + Fees(hops)
    decreases hops
  {
    if hops != [] {
      var next := CapturedFromOutput(w, hops[0].txid, hops[0].vout, hops[0].change, id, i).value;
      FeeChainConserves(asset, w, id, i, next, hops[1..]);
    }
  }
}
