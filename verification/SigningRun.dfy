/**
 A whole signing session: any calls by members of the federation, in any order and
 with any failures in between, and then finalisation.
 */
module SigningRun {
  import opened Results
  import opened ChainModel
  import opened MultisigScript
  import opened Finalize
  import opened Coordinator
  import opened Signing

  /** A call to the coordinator: an in-process signer signs, or an external signer's PSET comes back. */
  datatype Call = SignWith(signer: SoftwareSigner, id: SignerId) | Receive(id: SignerId, returned: seq<PsetInput>)

  /** Every signature verifies for its input. */
  ghost predicate Verified(verify: Verify, sigs: map<Bytes, Bytes>) {
    forall pk :: pk in sigs ==> verify(pk, sigs[pk]) && sigs[pk] != []
  }

  /** The signer makes good signatures, and no input that lists it is a Taproot input. */
  ghost predicate GoodSigner(verify: nat -> Verify, s: SoftwareSigner, k: nat, i: PsetInput) {
    && (s.sighash(k).Taproot? ==> KeysFor(s.fingerprint, i) == {})
    && (forall pk, sig :: OwnSigOn(s, k, i, pk, sig) ==> verify(k)(pk, sig) && sig != [])
  }

  /** A signer is good whose derived keys make signatures that verify. */
  lemma {:induction false} SignerIsGood(verify: nat -> Verify, s: SoftwareSigner, k: nat, i: PsetInput)
    requires s.sighash(k).Taproot? ==> forall pk :: pk in i.bip32Derivation ==> i.bip32Derivation[pk].0 != s.fingerprint
    requires s.sighash(k).Ecdsa? ==>
               forall pk, priv: nat :: Holds(s, i, pk, priv) ==>
                 && verify(k)(pk, s.signature(priv, s.sighash(k).msg))
                 && s.signature(priv, s.sighash(k).msg) != []
    ensures GoodSigner(verify, s, k, i)
  {
    forall pk, sig | OwnSigOn(s, k, i, pk, sig)
      ensures verify(k)(pk, sig) && sig != []
    {
      LeftBehindMeans(s, k, i, pk, sig);
    }
  }

  /** What came back has a good signature of this member for every key the coordinator lists under it. */
  ghost predicate GoodReturn(verify: nat -> Verify, members: Members, sub: Submission, k: nat, i: PsetInput) {
    && (sub.id in members ==> forall pk :: pk in KeysFor(members[sub.id], i) ==> Offers(members, sub, k, pk))
    && (forall pk :: Offers(members, sub, k, pk) ==>
                       verify(k)(pk, sub.inputs[k].partialSigs[pk]) && sub.inputs[k].partialSigs[pk] != [])
  }

  /** A call made in good faith; a caller whose id is no member's may do anything. */
  ghost predicate GoodCall(verify: nat -> Verify, members: Members, inputs: seq<PsetInput>, call: Call) {
    call.id in members ==>
      match call
      case SignWith(s, id) =>
        s.fingerprint == members[id] && forall k :: 0 <= k < |inputs| ==> GoodSigner(verify, s, k, inputs[k])
      case Receive(id, returned) =>
        && |returned| <= |inputs|
        && forall k :: 0 <= k < |inputs| ==> GoodReturn(verify, members, Submission(id, returned), k, inputs[k])
  }

  /** A member's in-process signer that never fails, and that some input lists. */
  ghost predicate Working(members: Members, inputs: seq<PsetInput>, call: Call) {
    && call.SignWith? && call.id in members
    && (forall any: seq<PsetInput> :: call.signer.extractable(any))
    && (forall k :: 0 <= k < |inputs| ==> call.signer.sighash(k).Ecdsa? && Signable(call.signer, k, inputs[k]))
    && (exists k :: 0 <= k < |inputs| && KeysFor(call.signer.fingerprint, inputs[k]) != {})
  }

  function Callers(calls: seq<Call>): set<SignerId> {
    set j | 0 <= j < |calls| :: calls[j].id
  }

  // ------------------------------------------------------------------
  // What every call keeps
  // ------------------------------------------------------------------

  /** Only signatures were added to the input, all of them good, and no counted signer's is missing. */
  ghost predicate InputWhole(verify: Verify, members: Members, signed: set<SignerId>, was: PsetInput, now: PsetInput) {
    && now == was.(partialSigs := now.partialSigs)
    && Verified(verify, now.partialSigs)
    && SignedByAll(members, signed, now)
  }

  ghost predicate Whole(verify: nat -> Verify, members: Members, was: seq<PsetInput>, st: Coord) {
    && st.signed <= members.Keys
    && |st.inputs| == |was|
    && forall k :: 0 <= k < |was| ==> InputWhole(verify(k), members, st.signed, was[k], st.inputs[k])
  }

  /** A signing call that fails half way leaves good signatures of a signer that is not counted. */
  lemma SignerKeepsInput(verify: nat -> Verify, members: Members, signed: set<SignerId>, id: SignerId,
                         s: SoftwareSigner, k: nat, was: PsetInput, i: PsetInput, now: PsetInput)
    requires InputWhole(verify(k), members, signed, was, i) && OnlyOwnSigs(s, k, i, now)
    requires id in members && members[id] == s.fingerprint && GoodSigner(verify, s, k, was)
    ensures InputWhole(verify(k), members, signed, was, now)
    ensures InputSigned(s, k, i, now) ==> InputWhole(verify(k), members, signed + {id}, was, now)
  {
    forall pk | pk in now.partialSigs
      ensures verify(k)(pk, now.partialSigs[pk]) && now.partialSigs[pk] != []
    {
      assert OwnSigOn(s, k, i, pk, now.partialSigs[pk]) ==> OwnSigOn(s, k, was, pk, now.partialSigs[pk]);
    }
    assert KeysFor(s.fingerprint, i) == KeysFor(s.fingerprint, was);
    if InputSigned(s, k, i, now) && s.sighash(k).Ecdsa? {
      SoftwareSignerSignsAll(members, signed, id, s, k, i, now);
    }
  }

  lemma {:induction false} SignerKeepsWhole(verify: nat -> Verify, members: Members, was: seq<PsetInput>, st: Coord,
                                            id: SignerId, s: SoftwareSigner, now: seq<PsetInput>)
    requires Whole(verify, members, was, st) && id in members && GoodCall(verify, members, was, SignWith(s, id))
    requires OwnSigsEverywhere(s, st.inputs, now)
    ensures Whole(verify, members, was, Coord(now, st.signed))
    ensures (forall k :: 0 <= k < |now| ==> InputSigned(s, k, st.inputs[k], now[k])) ==>
              Whole(verify, members, was, Coord(now, st.signed + {id}))
  {
    hide InputWhole, InputSigned, OnlyOwnSigs, GoodSigner;
    forall k | 0 <= k < |was|
      ensures InputWhole(verify(k), members, st.signed, was[k], now[k])
      ensures InputSigned(s, k, st.inputs[k], now[k]) ==>
                InputWhole(verify(k), members, st.signed + {id}, was[k], now[k])
    {
      SignerKeepsInput(verify, members, st.signed, id, s, k, was[k], st.inputs[k], now[k]);
    }
  }

  lemma {:induction false} SomethingSigned(s: SoftwareSigner, inputs: seq<PsetInput>, n: nat, k: nat)
    requires k < n <= |inputs| && s.sighash(k).Ecdsa? && KeysFor(s.fingerprint, inputs[k]) != {}
    ensures SignatureCount(s, inputs, n) > 0
  {
    if k < n - 1 {
      SomethingSigned(s, inputs, n - 1, k);
    }
  }

  /** A working signer signs, whatever was signed before it, and makes at least one signature. */
  lemma {:induction false} WorkingSigns(verify: nat -> Verify, members: Members, was: seq<PsetInput>, st: Coord,
                                        call: Call)
    requires Whole(verify, members, was, st) && Working(members, was, call)
    ensures CanSign(call.signer, st.inputs)
    ensures SignatureCount(call.signer, st.inputs, |st.inputs|) > 0
  {
    var s := call.signer;
    forall k | 0 <= k < |was|
      ensures Signable(s, k, st.inputs[k])
      ensures KeysFor(s.fingerprint, st.inputs[k]) == KeysFor(s.fingerprint, was[k])
    {
      assert InputWhole(verify(k), members, st.signed, was[k], st.inputs[k]);
      assert Signable(s, k, was[k]);
      assert forall pk, msg :: pk in KeysFor(s.fingerprint, was[k]) ==>
          OwnSignature(s, st.inputs[k], pk, msg) == OwnSignature(s, was[k], pk, msg);
    }
    var k :| 0 <= k < |was| && KeysFor(s.fingerprint, was[k]) != {};
    SomethingSigned(s, st.inputs, |st.inputs|, k);
  }

  lemma {:induction false} ReturnKeepsWhole(verify: nat -> Verify, members: Members, was: seq<PsetInput>, st: Coord,
                                            sub: Submission)
    requires Whole(verify, members, was, st) && GoodCall(verify, members, was, Receive(sub.id, sub.inputs))
    ensures Whole(verify, members, was, Received(members, st, sub))
  {
    if sub.id in members {
      var now := Received(members, st, sub);
      MergeStep(members, st, sub);
      forall k | 0 <= k < |was|
        ensures InputWhole(verify(k), members, now.signed, was[k], now.inputs[k])
      {
        assert InputWhole(verify(k), members, st.signed, was[k], st.inputs[k]);
        assert GoodReturn(verify, members, sub, k, was[k]);
        assert forall id :: id in members ==> KeysFor(members[id], now.inputs[k]) == KeysFor(members[id], was[k]);
      }
    }
  }

  // ------------------------------------------------------------------
  // Finalisation
  // ------------------------------------------------------------------

  ghost predicate DistinctMembers(members: Members) {
    forall a, b :: a in members && b in members && a != b ==> members[a] != members[b]
  }

  /** Input `k` pays to the m-of-n script of the keys `scripts[k]`, every member holding one of them. */
  ghost predicate FederationInputs(validKey: Bytes -> bool, members: Members, m: nat, scripts: seq<seq<Bytes>>,
                                   inputs: seq<PsetInput>) {
    |scripts| == |inputs| && forall k :: 0 <= k < |inputs| ==> Enriched(validKey, members, m, scripts[k], inputs[k])
  }

  /** The script machine accepts the witness exactly if it has `m + 2` items, and up to 16 it has. */
  ghost predicate AcceptedBySize(verify: Verify, m: nat, i: PsetInput) {
    && i.finalWitness.Some?
    && (Accepts(verify, i.finalWitness.value) <==> |i.finalWitness.value| == m + 2)
    && (m <= 16 ==> |i.finalWitness.value| == m + 2)
  }

  lemma WholeInputFinalizes(validKey: Bytes -> bool, verify: Verify, members: Members, m: nat, keys: seq<Bytes>,
                            signed: set<SignerId>, was: PsetInput, now: PsetInput)
    requires InputWhole(verify, members, signed, was, now) && signed <= members.Keys && DistinctMembers(members)
    requires Enriched(validKey, members, m, keys, was)
    ensures now.witnessScript.Some?
    ensures m <= |signed| ==> AcceptedBySize(verify, m, Finalized(validKey, now))
  {
    hide Multisig, Print, Accepts, Distinct, Witness;
    if m <= |signed| {
      assert forall id :: id in members ==> KeysFor(members[id], now) == KeysFor(members[id], was);
      CompleteSigningFinalizes(validKey, verify, members, m, keys, signed, now);
    }
  }

  /** In terms of what the coordinator holds: no script is missing, and above the threshold every input ends well. */
  lemma WholeFinalizes(validKey: Bytes -> bool, verify: nat -> Verify, members: Members, m: nat,
                       scripts: seq<seq<Bytes>>, was: seq<PsetInput>, st: Coord)
    requires Whole(verify, members, was, st) && DistinctMembers(members)
    requires FederationInputs(validKey, members, m, scripts, was)
    ensures |st.inputs| == |was|
    ensures forall k :: 0 <= k < |was| ==>
              && st.inputs[k].witnessScript.Some?
              && (m <= |st.signed| ==> AcceptedBySize(verify(k), m, Finalized(validKey, st.inputs[k])))
  {
    hide Enriched, InputWhole, AcceptedBySize;
    forall k | 0 <= k < |was|
      ensures st.inputs[k].witnessScript.Some?
      ensures m <= |st.signed| ==> AcceptedBySize(verify(k), m, Finalized(validKey, st.inputs[k]))
    {
      WholeInputFinalizes(validKey, verify(k), members, m, scripts[k], st.signed, was[k], st.inputs[k]);
    }
  }

  // ------------------------------------------------------------------
  // The session
  // ------------------------------------------------------------------

  /**
   Calls in any order, failures ignored, then finalisation. Every working signer
   is counted, and nobody who did not call. Finalisation succeeds exactly
   when as many members as the threshold asks for were counted (and the library
   extracts the transaction); then every input has a witness, which the script
   machine accepts exactly if it has threshold + 2 items, and up to a threshold of
   16 it has.
   */
  method CollectAndFinalize(coordinator: SigningCoordinator, calls: seq<Call>, validKey: Bytes -> bool,
                            extractable: seq<PsetInput> -> bool, ghost verify: nat -> Verify,
                            ghost scripts: seq<seq<Bytes>>)
    returns (r: Result<(), PsetError>)
    requires DistinctMembers(coordinator.members)
    requires FederationInputs(validKey, coordinator.members, coordinator.threshold, scripts, coordinator.pset.inputs)
    requires Whole(verify, coordinator.members, coordinator.pset.inputs,
                   Coord(coordinator.pset.inputs, coordinator.signed))
    requires forall call :: call in calls ==>
                              GoodCall(verify, coordinator.members, coordinator.pset.inputs, call)
    modifies coordinator`signed, coordinator.pset
    ensures old(coordinator.signed) <= coordinator.signed <= old(coordinator.signed) + Callers(calls)
    ensures forall call :: call in calls && Working(coordinator.members, old(coordinator.pset.inputs), call) ==>
                             call.id in coordinator.signed
    ensures |coordinator.pset.inputs| == |old(coordinator.pset.inputs)|
    ensures r.Success? <==> |coordinator.signed| >= coordinator.threshold && extractable(coordinator.pset.inputs)
    ensures r == Failure(InsufficientSignatures) <==> |coordinator.signed| < coordinator.threshold
    ensures r.Success? ==>
              forall k :: 0 <= k < |coordinator.pset.inputs| ==>
                            AcceptedBySize(verify(k), coordinator.threshold, coordinator.pset.inputs[k])
  {
    ghost var was := coordinator.pset.inputs;
    hide GoodCall, Working, Whole, FederationInputs, AcceptedBySize;
    CollectSignatures(coordinator, calls, verify, was);
    ghost var st := Coord(coordinator.pset.inputs, coordinator.signed);
    WholeFinalizes(validKey, verify, coordinator.members, coordinator.threshold, scripts, was, st);
    r := coordinator.Finalize(validKey, extractable);
  }

  /** The calls, one after the other. */
  method CollectSignatures(coordinator: SigningCoordinator, calls: seq<Call>, ghost verify: nat -> Verify,
                           ghost was: seq<PsetInput>)
    requires Whole(verify, coordinator.members, was, Coord(coordinator.pset.inputs, coordinator.signed))
    requires forall call :: call in calls ==> GoodCall(verify, coordinator.members, was, call)
    modifies coordinator`signed, coordinator.pset
    ensures old(coordinator.signed) <= coordinator.signed <= old(coordinator.signed) + Callers(calls)
    ensures forall call :: call in calls && Working(coordinator.members, was, call) ==> call.id in coordinator.signed
    ensures Whole(verify, coordinator.members, was, Coord(coordinator.pset.inputs, coordinator.signed))
  {
    hide GoodCall, Working, Whole;
    for j := 0 to |calls|
      invariant old(coordinator.signed) <= coordinator.signed <= old(coordinator.signed) + Callers(calls[..j])
      invariant forall i :: 0 <= i < j && Working(coordinator.members, was, calls[i]) ==>
                              calls[i].id in coordinator.signed
      invariant Whole(verify, coordinator.members, was, Coord(coordinator.pset.inputs, coordinator.signed))
    {
      Handle(coordinator, calls[j], verify, was);
      assert Callers(calls[..j + 1]) == Callers(calls[..j]) + {calls[j].id};
    }
    assert calls[..|calls|] == calls;
  }

  /** One call, its result ignored. */
  method Handle(coordinator: SigningCoordinator, call: Call, ghost verify: nat -> Verify, ghost was: seq<PsetInput>)
    requires Whole(verify, coordinator.members, was, Coord(coordinator.pset.inputs, coordinator.signed))
    requires GoodCall(verify, coordinator.members, was, call)
    modifies coordinator`signed, coordinator.pset
    ensures Whole(verify, coordinator.members, was, Coord(coordinator.pset.inputs, coordinator.signed))
    ensures old(coordinator.signed) <= coordinator.signed <= old(coordinator.signed) + {call.id}
    ensures Working(coordinator.members, was, call) ==> call.id in coordinator.signed
  {
    ghost var st := Coord(coordinator.pset.inputs, coordinator.signed);
    if Working(coordinator.members, was, call) {
      WorkingSigns(verify, coordinator.members, was, st, call);
    }
    match call {
      case SignWith(signer, id) =>
        var _ := coordinator.SignWith(signer, id);
        if id in coordinator.members {
          SignerKeepsWhole(verify, coordinator.members, was, st, id, signer, coordinator.pset.inputs);
        }
      case Receive(id, returned) =>
        var _ := coordinator.ReceiveSignature(id, returned);
        ReturnKeepsWhole(verify, coordinator.members, was, st, Submission(id, returned));
    }
  }
}
