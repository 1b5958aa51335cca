/** P2WSH finalisation: from partial signatures to a witness the script machine accepts. */
module Finalize {
  import opened Results
  import opened ChainModel
  import opened MultisigScript

  type Fingerprint = nat
  type Path = seq<nat>

  /** The fields of a PSET input this pipeline reads or clears; map keys are public keys. */
  datatype PsetInput = PsetInput(
    previousOutput: OutPoint,
    witnessScript: Option<Bytes>,
    partialSigs: map<Bytes, Bytes>,
    bip32Derivation: map<Bytes, (Fingerprint, Path)>,
    redeemScript: Option<Bytes>,
    sighashType: Option<nat>,
    finalWitness: Option<seq<Bytes>>)

  /** What this pipeline reads of an output: a range proof shows that it is blinded. */
  datatype PsetOutput = PsetOutput(valueRangeproof: Option<Bytes>)

  class Pset {
    var inputs: seq<PsetInput>
    const outputs: seq<PsetOutput>

    constructor (inputs: seq<PsetInput>, outputs: seq<PsetOutput>)
      ensures this.inputs == inputs && this.outputs == outputs
    {
      this.inputs, this.outputs := inputs, outputs;
    }
  }

  /** The signatures present, in the order of `keys`. */
  function Collected(keys: seq<Bytes>, sigs: map<Bytes, Bytes>): seq<Bytes> {
    if keys == [] then []
    else
      var last := keys[|keys| - 1];
      Collected(keys[..|keys| - 1], sigs) + if last in sigs then [sigs[last]] else []
  }

  /** At most the script's threshold of them, the first in script order. */
  function Chosen(validKey: Bytes -> bool, script: Bytes, sigs: map<Bytes, Bytes>): seq<Bytes> {
    var all := Collected(ScriptKeys(validKey, script), sigs);
    match Threshold(script)
    case Some(m) => if |all| > m then all[..m] else all
    case None => all
  }

  /** Empty dummy, signatures, script. */
  function Witness(validKey: Bytes -> bool, script: Bytes, sigs: map<Bytes, Bytes>): seq<Bytes> {
    [[]] + Chosen(validKey, script, sigs) + [script]
  }

  /** An input after finalisation: only what identifies it, and its witness. */
  function Finalized(validKey: Bytes -> bool, i: PsetInput): PsetInput
    requires i.witnessScript.Some?
  {
    PsetInput(i.previousOutput, None, map[], map[], None, None,
              Some(Witness(validKey, i.witnessScript.value, i.partialSigs)))
  }

  datatype FinalizeError = MissingWitnessScript(index: nat)

  /** Inputs are finalised in order; the first one without a script stops it, those before it stay finalised. */
  method FinalizeP2wsh(validKey: Bytes -> bool, pset: Pset) returns (r: Result<(), FinalizeError>)
    modifies pset
    ensures |pset.inputs| == |old(pset.inputs)|
    ensures r.Success? <==> forall k :: 0 <= k < |old(pset.inputs)| ==> old(pset.inputs)[k].witnessScript.Some?
    ensures r.Failure? ==>
              && r.error.index < |pset.inputs|
              && old(pset.inputs)[r.error.index].witnessScript.None?
              && forall k :: 0 <= k < r.error.index ==> old(pset.inputs)[k].witnessScript.Some?
    ensures forall k :: 0 <= k < |pset.inputs| ==>
                          if r.Success? || k < r.error.index
                          then old(pset.inputs)[k].witnessScript.Some?
                               && pset.inputs[k] == Finalized(validKey, old(pset.inputs)[k])
                          else pset.inputs[k] == old(pset.inputs)[k]
    ensures forall k :: 0 <= k < |pset.inputs| && (r.Success? || k < r.error.index) ==>
                          && pset.inputs[k].previousOutput == old(pset.inputs)[k].previousOutput
                          && pset.inputs[k].finalWitness.Some?
                          && pset.inputs[k].witnessScript == None && pset.inputs[k].redeemScript == None
                          && pset.inputs[k].partialSigs == map[] && pset.inputs[k].bip32Derivation == map[]
                          && pset.inputs[k].sighashType == None
  {
    hide ScriptKeys, Collected, Threshold;
    ghost var was := pset.inputs;
    for idx := 0 to |pset.inputs|
      invariant |pset.inputs| == |was|
      invariant forall k :: 0 <= k < idx ==>
                              was[k].witnessScript.Some? && pset.inputs[k] == Finalized(validKey, was[k])
      invariant forall k :: idx <= k < |was| ==> pset.inputs[k] == was[k]
    {
      var input := pset.inputs[idx];
      if input.witnessScript.None? {
        return Failure(MissingWitnessScript(idx));
      }
      var witnessScript := input.witnessScript.value;
      var pubkeysInScript := ExtractPubkeys(validKey, witnessScript);
      var orderedSigs := OrderSignatures(pubkeysInScript, input.partialSigs);
      var threshold := Threshold(witnessScript);
      if threshold.Some? && |orderedSigs| > threshold.value {
        orderedSigs := orderedSigs[..threshold.value];
      }
      var final: seq<Bytes> := [[]];
      final := final + orderedSigs;
      final := final + [witnessScript];
      assert final == Witness(validKey, witnessScript, input.partialSigs);
      pset.inputs := pset.inputs[idx := PsetInput(input.previousOutput, None, map[], map[], None, None, Some(final))];
    }
    return Success(());
  }

  method OrderSignatures(keys: seq<Bytes>, sigs: map<Bytes, Bytes>) returns (ordered: seq<Bytes>)
    ensures ordered == Collected(keys, sigs)
  {
    ordered := [];
    for k := 0 to |keys|
      invariant ordered == Collected(keys[..k], sigs)
    {
      assert keys[..k + 1][..k] == keys[..k];
      if keys[k] in sigs {
        ordered := ordered + [sigs[keys[k]]];
      }
    }
    assert keys[..|keys|] == keys;
  }

  // ------------------------------------------------------------------
  // The finalised witness satisfies OP_CHECKMULTISIG
  // ------------------------------------------------------------------

  /** Every signature held for a script key verifies under it and is not empty. */
  ghost predicate ValidSigs(verify: Verify, keys: seq<Bytes>, sigs: map<Bytes, Bytes>) {
    forall k :: k in keys && k in sigs ==> verify(k, sigs[k]) && sigs[k] != []
  }

  /** `at` are increasing positions of keys with a signature, and `list` are those signatures. */
  ghost predicate TakenAt(keys: seq<Bytes>, sigs: map<Bytes, Bytes>, at: seq<nat>, list: seq<Bytes>) {
    && |at| == |list|
    && (forall i, j :: 0 <= i < j < |at| ==> at[i] < at[j])
    && (forall k :: 0 <= k < |at| ==> at[k] < |keys| && keys[at[k]] in sigs && list[k] == sigs[keys[at[k]]])
  }

  lemma TakeOne(keys: seq<Bytes>, key: Bytes, sigs: map<Bytes, Bytes>, at: seq<nat>, list: seq<Bytes>)
    requires TakenAt(keys, sigs, at, list)
    ensures TakenAt(keys + [key], sigs, at, list)
    ensures key in sigs ==> TakenAt(keys + [key], sigs, at + [|keys|], list + [sigs[key]])
  {
  }

  /** What is collected: the signatures held, in the order of the keys, none left out. */
  lemma {:induction false} CollectedMeans(keys: seq<Bytes>, sigs: map<Bytes, Bytes>) returns (at: seq<nat>)
    ensures TakenAt(keys, sigs, at, Collected(keys, sigs))
    ensures forall n :: 0 <= n < |keys| && keys[n] in sigs ==> n in at
  {
    hide TakenAt;
    at := [];
    if keys == [] {
      NothingTaken(sigs);
    } else {
      var n := |keys| - 1;
      assert keys == keys[..n] + [keys[n]];
      var before := CollectedMeans(keys[..n], sigs);
      TakeOne(keys[..n], keys[n], sigs, before, Collected(keys[..n], sigs));
      if keys[n] in sigs {
        at := before + [n];
        assert Collected(keys, sigs) == Collected(keys[..n], sigs) + [sigs[keys[n]]];
      } else {
        at := before;
        assert Collected(keys, sigs) == Collected(keys[..n], sigs);
      }
      forall i | 0 <= i < |keys| && keys[i] in sigs
        ensures i in at
      {
        if i < n {
          assert keys[..n][i] == keys[i];
        }
      }
    }
  }

  lemma NothingTaken(sigs: map<Bytes, Bytes>)
    ensures TakenAt([], sigs, [], Collected([], sigs))
  {
  }

  /**
   Of any script: an empty item, the signatures of the script's keys in their order,
   no more than the threshold where the first opcode shows one, and the script.
   */
  lemma {:induction false} WitnessMeans(validKey: Bytes -> bool, script: Bytes, sigs: map<Bytes, Bytes>)
    ensures var all, w := Collected(ScriptKeys(validKey, script), sigs), Witness(validKey, script, sigs);
            var shown := script != [] && 0x51 <= script[0] <= 0x60;
            && |w| == 2 + (if shown && script[0] - 0x50 < |all| then script[0] - 0x50 else |all|)
            && w[0] == [] && w[|w| - 1] == script
            && forall k :: 0 <= k < |w| - 2 ==> w[k + 1] == all[k]
  {
    hide ScriptKeys, Collected;
  }

  /** Any first part of the collected signatures sits under distinct keys in script order. */
  lemma {:induction false} CollectedAssigned(verify: Verify, keys: seq<Bytes>, sigs: map<Bytes, Bytes>, n: nat)
    returns (at: seq<nat>)
    requires ValidSigs(verify, keys, sigs) && n <= |Collected(keys, sigs)|
    ensures Assignment(verify, keys, Collected(keys, sigs)[..n], at)
  {
    var all := Collected(keys, sigs);
    if keys == [] {
      at := [];
    } else {
      var init, last := keys[..|keys| - 1], keys[|keys| - 1];
      var before := Collected(init, sigs);
      assert forall k :: k in init ==> k in keys;
      if n <= |before| {
        at := CollectedAssigned(verify, init, sigs, n);
        assert all[..n] == before[..n];
      } else {
        at := CollectedAssigned(verify, init, sigs, |before|);
        assert last in keys && all[..n] == before[..|before|] + [sigs[last]];
        at := at + [|keys| - 1];
      }
    }
  }

  lemma {:induction false} CollectedNonEmpty(verify: Verify, keys: seq<Bytes>, sigs: map<Bytes, Bytes>)
    requires ValidSigs(verify, keys, sigs)
    ensures |Collected(keys, sigs)| <= |keys|
    ensures forall s :: s in Collected(keys, sigs) ==> s != []
  {
    if keys != [] {
      assert forall k :: k in keys[..|keys| - 1] ==> k in keys;
      CollectedNonEmpty(verify, keys[..|keys| - 1], sigs);
      assert keys[|keys| - 1] in keys;
    }
  }

  /**
   The finalised witness of an m-of-n script is accepted exactly when at least
   m script keys have signed and, for m above 16 (where the leading opcode no
   longer shows m and nothing is truncated), no more than m.
   */
  lemma {:induction false} FinalWitnessAcceptedIff(validKey: Bytes -> bool, verify: Verify, m: nat, keys: seq<Bytes>,
                                                   sigs: map<Bytes, Bytes>)
    requires Multisig(validKey, m, keys) && ValidSigs(verify, keys, sigs)
    ensures var have := |Collected(keys, sigs)|;
            Accepts(verify, Witness(validKey, Print(m, keys), sigs)) <==> have >= m && (m <= 16 || have == m)
  {
    var all, script := Collected(keys, sigs), Print(m, keys);
    ParseInvertsPrint(validKey, m, keys);
    var chosen := Chosen(validKey, script, sigs);
    CollectedNonEmpty(verify, keys, sigs);
    assert forall s :: s in chosen ==> s in all;
    hide Accepts, Print, ScriptKeys, Threshold, TwoPointer, Multisig;
    PrintedAccepts(verify, m, keys, chosen);
    assert all[..|chosen|] == chosen;
    var at := CollectedAssigned(verify, keys, sigs, |chosen|);
    AssignmentSucceeds(verify, keys, chosen, at);
  }

  /**
   The witness has `m + 2` items exactly when at least m script keys have signed and,
   above 16, no more than m: exactly when it is accepted.
   */
  lemma {:induction false} WitnessSizeIff(validKey: Bytes -> bool, m: nat, keys: seq<Bytes>, sigs: map<Bytes, Bytes>)
    requires Multisig(validKey, m, keys)
    ensures var have := |Collected(keys, sigs)|;
            |Witness(validKey, Print(m, keys), sigs)| == m + 2 <==> have >= m && (m <= 16 || have == m)
  {
    ParseInvertsPrint(validKey, m, keys);
  }

  lemma {:induction false} CollectedAll(keys: seq<Bytes>, sigs: map<Bytes, Bytes>)
    requires forall k :: k in keys ==> k in sigs
    ensures |Collected(keys, sigs)| == |keys|
  {
    if keys != [] {
      assert keys[|keys| - 1] in keys;
      CollectedAll(keys[..|keys| - 1], sigs);
    }
  }

  function SampleKey(i: Byte): Bytes {
    seq(33, j => i)
  }

  function SampleKeys(): seq<Bytes> {
    seq(18, i requires 0 <= i < 18 => SampleKey(i))
  }

  /** A federation of 17-of-18 whose members all sign produces a witness the network rejects. */
  lemma {:induction false} EverybodySigningSeventeenOfEighteen(verify: Verify, sigs: map<Bytes, Bytes>)
    requires ValidSigs(verify, SampleKeys(), sigs) && forall k :: k in SampleKeys() ==> k in sigs
    ensures Multisig(k => true, 17, SampleKeys())
    ensures !Accepts(verify, Witness(k => true, Print(17, SampleKeys()), sigs))
  {
    CollectedAll(SampleKeys(), sigs);
    FinalWitnessAcceptedIff(k => true, verify, 17, SampleKeys(), sigs);
  }
}
