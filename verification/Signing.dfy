/** What collecting signatures amounts to: order does not matter, and enough complete signers make a witness whole. */
module Signing {
  import opened Results
  import opened ChainModel
  import opened MultisigScript
  import opened Finalize
  import opened Coordinator

  // ------------------------------------------------------------------
  // Order independence of receive_signature
  // ------------------------------------------------------------------

  ghost function ReceiveAll(members: Members, st: Coord, subs: seq<Submission>): Coord {
    if subs == [] then st
    else Received(members, ReceiveAll(members, st, subs[..|subs| - 1]), subs[|subs| - 1])
  }

  /** `sub` carries a signature for `pk` on input `i` that counts as its signer's. */
  predicate Offers(members: Members, sub: Submission, i: nat, pk: Bytes) {
    && sub.id in members
    && i < |sub.inputs|
    && pk in Attributable(members[sub.id], sub.inputs[i])
  }

  /** `sub` offers something the coordinator did not hold to begin with. */
  ghost predicate Contributes(members: Members, st: Coord, sub: Submission) {
    exists i, pk :: 0 <= i < |st.inputs| && Offers(members, sub, i, pk) && pk !in st.inputs[i].partialSigs
  }

  /**
   Distinct members, distinct fingerprints, derivation maps that agree on whose a
   key is, and no more inputs than the coordinator's PSET.
   */
  ghost predicate Compatible(members: Members, st: Coord, subs: seq<Submission>) {
    && (forall a, b :: a in members && b in members && a != b ==> members[a] != members[b])
    && (forall j, k :: 0 <= j < k < |subs| ==> subs[j].id != subs[k].id)
    && (forall j :: 0 <= j < |subs| ==> |subs[j].inputs| <= |st.inputs|)
    && (forall j, k, i, pk ::
          0 <= j < |subs| && 0 <= k < |subs| && 0 <= i < |subs[j].inputs| && i < |subs[k].inputs|
          && pk in subs[j].inputs[i].bip32Derivation && pk in subs[k].inputs[i].bip32Derivation ==>
            subs[j].inputs[i].bip32Derivation[pk].0 == subs[k].inputs[i].bip32Derivation[pk].0)
  }

  /** So no key on no input is offered by two of them. */
  lemma OffersDisjoint(members: Members, st: Coord, subs: seq<Submission>, j: nat, k: nat, i: nat, pk: Bytes)
    requires Compatible(members, st, subs) && j < |subs| && k < |subs| && j != k
    ensures !(Offers(members, subs[j], i, pk) && Offers(members, subs[k], i, pk))
  {
    assert subs[j].id != subs[k].id;
  }

  lemma CompatiblePrefix(members: Members, st: Coord, subs: seq<Submission>, n: nat)
    requires Compatible(members, st, subs) && n <= |subs|
    ensures Compatible(members, st, subs[..n])
  {
    var init := subs[..n];
    assert forall j :: 0 <= j < n ==> init[j] == subs[j];
    forall j, k | 0 <= j < k < n
      ensures init[j].id != init[k].id
    {
      assert subs[j].id != subs[k].id;
    }
  }

  /** What one input holds after all submissions, whatever their order. */
  ghost predicate InputAfter(members: Members, st: Coord, subs: seq<Submission>, i: nat, now: PsetInput)
    requires i < |st.inputs|
  {
    && now == st.inputs[i].(partialSigs := now.partialSigs)
    && (forall pk :: pk in now.partialSigs <==>
                       pk in st.inputs[i].partialSigs || exists sub :: sub in subs && Offers(members, sub, i, pk))
    && (forall pk :: pk in st.inputs[i].partialSigs ==>
                       pk in now.partialSigs && now.partialSigs[pk] == st.inputs[i].partialSigs[pk])
    && (forall pk, sub :: sub in subs && Offers(members, sub, i, pk) && pk !in st.inputs[i].partialSigs ==>
                            pk in now.partialSigs && now.partialSigs[pk] == sub.inputs[i].partialSigs[pk])
  }

  ghost predicate StateAfter(members: Members, st: Coord, subs: seq<Submission>, now: Coord) {
    && |now.inputs| == |st.inputs|
    && (forall i :: 0 <= i < |st.inputs| ==> InputAfter(members, st, subs, i, now.inputs[i]))
    && (forall id :: id in now.signed <==>
                       id in st.signed || exists sub :: sub in subs && sub.id == id && Contributes(members, st, sub))
  }

  /** The merge leaves every input as if the signer's new signatures had been added. */
  lemma MergeStep(members: Members, held: Coord, sub: Submission)
    requires sub.id in members ==> |sub.inputs| <= |held.inputs|
    ensures var now := Received(members, held, sub);
            && |now.inputs| == |held.inputs|
            && forall i :: 0 <= i < |held.inputs| ==>
                 && now.inputs[i] == held.inputs[i].(partialSigs := now.inputs[i].partialSigs)
                 && (forall pk :: pk in now.inputs[i].partialSigs <==>
                                    pk in held.inputs[i].partialSigs || Offers(members, sub, i, pk))
                 && (forall pk :: pk in now.inputs[i].partialSigs ==>
                       now.inputs[i].partialSigs[pk] == if pk in held.inputs[i].partialSigs
                                                        then held.inputs[i].partialSigs[pk]
                                                        else sub.inputs[i].partialSigs[pk])
  {
    if sub.id in members && !BringsNew(members[sub.id], held.inputs, sub.inputs) {
      forall i, pk | 0 <= i < |held.inputs| && Offers(members, sub, i, pk)
        ensures pk in held.inputs[i].partialSigs
      {
        assert NewSigs(members[sub.id], held.inputs[i], sub.inputs[i]) == map[];
        assert pk !in NewSigs(members[sub.id], held.inputs[i], sub.inputs[i]);
      }
    }
  }

  lemma AcceptedWhen(members: Members, held: Coord, sub: Submission)
    ensures Accepted(members, held, sub) <==>
            exists i, pk :: 0 <= i < |held.inputs| && Offers(members, sub, i, pk) && pk !in held.inputs[i].partialSigs
  {
    if Accepted(members, held, sub) {
      var i :| 0 <= i < |held.inputs| && i < |sub.inputs| &&
               NewSigs(members[sub.id], held.inputs[i], sub.inputs[i]) != map[];
      var extra := NewSigs(members[sub.id], held.inputs[i], sub.inputs[i]);
      var pk :| pk in extra;
      assert Offers(members, sub, i, pk) && pk !in held.inputs[i].partialSigs;
    }
    if i, pk :| 0 <= i < |held.inputs| && Offers(members, sub, i, pk) && pk !in held.inputs[i].partialSigs {
      assert pk in NewSigs(members[sub.id], held.inputs[i], sub.inputs[i]);
    }
  }

  /** Closed form: all submissions together, regardless of order. */
  lemma {:induction false} ReceivedState(members: Members, st: Coord, subs: seq<Submission>)
    requires Compatible(members, st, subs)
    ensures StateAfter(members, st, subs, ReceiveAll(members, st, subs))
  {
    if subs == [] {
      assert forall i :: 0 <= i < |st.inputs| ==> InputAfter(members, st, subs, i, st.inputs[i]);
    } else {
      var n := |subs| - 1;
      var init, last := subs[..n], subs[n];
      CompatiblePrefix(members, st, subs, n);
      ReceivedState(members, st, init);
      var held, now := ReceiveAll(members, st, init), ReceiveAll(members, st, subs);
      assert now == Received(members, held, last);
      MergeStep(members, held, last);
      forall i | 0 <= i < |st.inputs|
        ensures InputAfter(members, st, subs, i, now.inputs[i])
      {
        assert InputAfter(members, st, init, i, held.inputs[i]);
        OneMoreSubmission(members, st, subs, i, held, now);
      }
      SignedAfter(members, st, subs, held, now);
    }
  }

  lemma LastOrEarlier(subs: seq<Submission>)
    requires subs != []
    ensures forall sub :: sub in subs <==> sub in subs[..|subs| - 1] || sub == subs[|subs| - 1]
  {
  }

  /** An earlier submission and the last one never offer the same key. */
  lemma LastOffersFresh(members: Members, st: Coord, subs: seq<Submission>, sub: Submission, i: nat, pk: Bytes)
    requires Compatible(members, st, subs) && subs != [] && sub in subs[..|subs| - 1]
    ensures !(Offers(members, sub, i, pk) && Offers(members, subs[|subs| - 1], i, pk))
  {
    var j :| 0 <= j < |subs| - 1 && subs[j] == sub;
    OffersDisjoint(members, st, subs, j, |subs| - 1, i, pk);
  }

  lemma OneMoreSubmission(members: Members, st: Coord, subs: seq<Submission>, i: nat, held: Coord, now: Coord)
    requires Compatible(members, st, subs) && subs != [] && i < |st.inputs| == |held.inputs|
    requires InputAfter(members, st, subs[..|subs| - 1], i, held.inputs[i])
    requires now == Received(members, held, subs[|subs| - 1])
    ensures |now.inputs| == |held.inputs| && InputAfter(members, st, subs, i, now.inputs[i])
  {
    var init, last := subs[..|subs| - 1], subs[|subs| - 1];
    MergeStep(members, held, last);
    LastOrEarlier(subs);
    assert last in subs;
    forall pk, sub | sub in subs && Offers(members, sub, i, pk) && pk !in st.inputs[i].partialSigs
      ensures pk in now.inputs[i].partialSigs && now.inputs[i].partialSigs[pk] == sub.inputs[i].partialSigs[pk]
    {
      if sub in init {
        assert pk in held.inputs[i].partialSigs;
      } else {
        forall other | other in init
          ensures !Offers(members, other, i, pk)
        {
          LastOffersFresh(members, st, subs, other, i, pk);
        }
        assert pk !in held.inputs[i].partialSigs;
      }
    }
  }

  lemma SignedAfter(members: Members, st: Coord, subs: seq<Submission>, held: Coord, now: Coord)
    requires Compatible(members, st, subs) && subs != []
    requires StateAfter(members, st, subs[..|subs| - 1], held)
    requires now == Received(members, held, subs[|subs| - 1])
    ensures forall id :: id in now.signed <==>
                           id in st.signed || exists sub :: sub in subs && sub.id == id && Contributes(members, st, sub)
  {
    var init, last := subs[..|subs| - 1], subs[|subs| - 1];
    LastOrEarlier(subs);
    assert last in subs;
    AcceptedWhen(members, held, last);
    forall i, pk | 0 <= i < |st.inputs| && Offers(members, last, i, pk)
      ensures pk in held.inputs[i].partialSigs <==> pk in st.inputs[i].partialSigs
    {
      assert InputAfter(members, st, init, i, held.inputs[i]);
      forall other | other in init
        ensures !Offers(members, other, i, pk)
      {
        LastOffersFresh(members, st, subs, other, i, pk);
      }
    }
    assert Accepted(members, held, last) <==> Contributes(members, st, last);
  }

  /** Two orders of the same submissions reach the same signatures, the same signer set, hence the same witnesses. */
  lemma {:induction false} OrderDoesNotMatter(members: Members, st: Coord, a: seq<Submission>, b: seq<Submission>)
    requires Compatible(members, st, a) && Compatible(members, st, b)
    requires forall sub :: sub in a <==> sub in b
    ensures ReceiveAll(members, st, a) == ReceiveAll(members, st, b)
  {
    ReceivedState(members, st, a);
    ReceivedState(members, st, b);
    var x, y := ReceiveAll(members, st, a), ReceiveAll(members, st, b);
    forall i | 0 <= i < |st.inputs|
      ensures x.inputs[i] == y.inputs[i]
    {
      assert InputAfter(members, st, a, i, x.inputs[i]) && InputAfter(members, st, b, i, y.inputs[i]);
      SameInput(members, st, a, b, i, x.inputs[i], y.inputs[i]);
    }
    assert x.inputs == y.inputs;
    assert x.signed == y.signed;
  }

  lemma SameInput(members: Members, st: Coord, a: seq<Submission>, b: seq<Submission>, i: nat, x: PsetInput,
                  y: PsetInput)
    requires i < |st.inputs| && InputAfter(members, st, a, i, x) && InputAfter(members, st, b, i, y)
    requires forall sub :: sub in a <==> sub in b
    ensures x == y
  {
    assert x.partialSigs.Keys == y.partialSigs.Keys;
    forall pk | pk in x.partialSigs
      ensures x.partialSigs[pk] == y.partialSigs[pk]
    {
      if pk !in st.inputs[i].partialSigs {
        var sub :| sub in a && Offers(members, sub, i, pk);
      }
    }
    assert x.partialSigs == y.partialSigs;
  }

  // ------------------------------------------------------------------
  // Threshold
  // ------------------------------------------------------------------

  ghost predicate Distinct(keys: seq<Bytes>) {
    forall i, j :: 0 <= i < j < |keys| ==> keys[i] != keys[j]
  }

  /** The input carries the federation's script, and lists for every member one of the script's keys. */
  ghost predicate Enriched(validKey: Bytes -> bool, members: Members, m: nat, keys: seq<Bytes>, i: PsetInput) {
    && Multisig(validKey, m, keys) && Distinct(keys)
    && i.witnessScript == Some(Print(m, keys))
    && (forall id :: id in members ==> exists pk :: pk in keys && pk in KeysFor(members[id], i))
  }

  /** Every counted signer has signed this input with each key listing its fingerprint. */
  ghost predicate SignedByAll(members: Members, signed: set<SignerId>, i: PsetInput) {
    forall id, pk :: id in signed && id in members && pk in KeysFor(members[id], i) ==> pk in i.partialSigs
  }

  lemma {:induction false} CollectedCount(keys: seq<Bytes>, sigs: map<Bytes, Bytes>)
    requires Distinct(keys)
    ensures |Collected(keys, sigs)| == |set k | k in keys && k in sigs|
  {
    if keys == [] {
      assert (set k | k in keys && k in sigs) == {};
    } else {
      CollectedCount(keys[..|keys| - 1], sigs);
      SignedKeysGrow(keys, sigs);
    }
  }

  lemma SignedKeysGrow(keys: seq<Bytes>, sigs: map<Bytes, Bytes>)
    requires Distinct(keys) && keys != []
    ensures var init, last := keys[..|keys| - 1], keys[|keys| - 1];
            |set k | k in keys && k in sigs| == |set k | k in init && k in sigs| + if last in sigs then 1 else 0
  {
    var init, last := keys[..|keys| - 1], keys[|keys| - 1];
    assert last !in init;
    var before := set k | k in init && k in sigs;
    assert (set k | k in keys && k in sigs) == if last in sigs then before + {last} else before;
  }

  lemma {:induction false} SubsetSize<T>(a: set<T>, b: set<T>)
    requires a <= b
    ensures |a| <= |b|
  {
    assert b == a + (b - a);
  }

  /** Each counted signer has a signed script key of its own. */
  lemma {:induction false} SignersHaveKeys(validKey: Bytes -> bool, members: Members, m: nat, keys: seq<Bytes>,
                                           signed: set<SignerId>, i: PsetInput) returns (own: set<Bytes>)
    requires Enriched(validKey, members, m, keys, i) && SignedByAll(members, signed, i) && signed <= members.Keys
    requires forall a, b :: a in members && b in members && a != b ==> members[a] != members[b]
    ensures |own| == |signed|
    ensures forall pk :: pk in own ==> pk in keys && pk in i.partialSigs
                                       && exists id :: id in signed && pk in KeysFor(members[id], i)
    decreases signed
  {
    hide Multisig, Print, Distinct;
    if signed == {} {
      own := {};
    } else {
      var id :| id in signed;
      own := SignersHaveKeys(validKey, members, m, keys, signed - {id}, i);
      var pk :| pk in keys && pk in KeysFor(members[id], i);
      assert pk !in own;
      own := own + {pk};
    }
  }

  /**
   When the threshold many members are counted and each counted member has signed
   the input, the script machine accepts its finalised witness exactly if it has
   threshold + 2 items, and up to a threshold of 16 it always has.
   */
  lemma {:induction false} CompleteSigningFinalizes(validKey: Bytes -> bool, verify: Verify, members: Members, m: nat,
                                                    keys: seq<Bytes>, signed: set<SignerId>, i: PsetInput)
    requires Enriched(validKey, members, m, keys, i) && SignedByAll(members, signed, i) && signed <= members.Keys
    requires forall a, b :: a in members && b in members && a != b ==> members[a] != members[b]
    requires m <= |signed|
    ensures m <= 16 ==> |Finalized(validKey, i).finalWitness.value| == m + 2
    ensures ValidSigs(verify, keys, i.partialSigs) ==>
              (Accepts(verify, Finalized(validKey, i).finalWitness.value) <==>
               |Finalized(validKey, i).finalWitness.value| == m + 2)
  {
    var own := SignersHaveKeys(validKey, members, m, keys, signed, i);
    CollectedCount(keys, i.partialSigs);
    SubsetSize(own, set k | k in keys && k in i.partialSigs);
    WitnessSizeIff(validKey, m, keys, i.partialSigs);
    if ValidSigs(verify, keys, i.partialSigs) {
      FinalWitnessAcceptedIff(validKey, verify, m, keys, i.partialSigs);
    }
  }

  /** An in-process signer, counted under its own id, meets that condition on every input and disturbs nobody else. */
  lemma {:induction false} SoftwareSignerSignsAll(members: Members, signed: set<SignerId>, id: SignerId,
                                                  s: SoftwareSigner, k: nat, i: PsetInput, now: PsetInput)
    requires id in members && members[id] == s.fingerprint
    requires SignedByAll(members, signed, i)
    requires s.sighash(k).Ecdsa? && InputSigned(s, k, i, now)
    ensures SignedByAll(members, signed + {id}, now)
    ensures now.witnessScript == i.witnessScript && now.bip32Derivation == i.bip32Derivation
  {
  }

  // ------------------------------------------------------------------
  // Signers are counted, not signatures per input
  // ------------------------------------------------------------------

  // Two members with fingerprints 11 and 22, one key each, and a PSET of two like inputs.
  const PAIR: Members := map[1 := 11, 2 := 22]

  function PairKeys(): seq<Bytes> {
    [SampleKey(1), SampleKey(2)]
  }

  /** An input of the 2-of-2 holding the signatures `sigs`. */
  function PairInput(sigs: map<Bytes, Bytes>): PsetInput {
    PsetInput(OutPoint(0, 0), Some(Print(2, PairKeys())), sigs,
              map[SampleKey(1) := (11, []), SampleKey(2) := (22, [])], None, None, None)
  }

  function OneSig(k: Byte): map<Bytes, Bytes> {
    map[SampleKey(k) := [9]]
  }

  lemma PairSigs()
    ensures SampleKey(1) != SampleKey(2)
    ensures Attributable(11, PairInput(OneSig(1))) == OneSig(1) && Attributable(22, PairInput(OneSig(2))) == OneSig(2)
    ensures Attributable(11, PairInput(map[])) == map[] && Attributable(22, PairInput(map[])) == map[]
  {
    assert SampleKey(1)[0] != SampleKey(2)[0];
  }

  lemma MergeIntoBlank(fp: Fingerprint, sigs: map<Bytes, Bytes>)
    requires Attributable(fp, PairInput(sigs)) == sigs
    ensures NewSigs(fp, PairInput(map[]), PairInput(sigs)) == sigs
    ensures MergedInput(fp, PairInput(map[]), PairInput(sigs)) == PairInput(sigs)
  {
    hide Print;
    assert map[] + sigs == sigs;
  }

  lemma MergeBlank(fp: Fingerprint, sigs: map<Bytes, Bytes>)
    requires Attributable(fp, PairInput(map[])) == map[]
    ensures MergedInput(fp, PairInput(sigs), PairInput(map[])) == PairInput(sigs)
  {
    hide Print;
    assert sigs + map[] == sigs;
  }

  lemma PairMultisig()
    ensures Multisig(k => true, 2, PairKeys())
  {
  }

  lemma PairCollected(k: Byte)
    requires k == 1 || k == 2
    ensures |Collected(PairKeys(), OneSig(k))| == 1
  {
    PairSigs();
    hide SampleKey;
    var keys, none: seq<Bytes> := PairKeys(), [];
    assert keys[..1] == [SampleKey(1)] && [SampleKey(1)][..0] == none;
    assert Collected(none, OneSig(k)) == [];
    assert Collected(keys[..1], OneSig(k)) == if k == 1 then [[9]] else [];
  }

  lemma OneOfTwo(k: Byte)
    requires k == 1 || k == 2
    ensures |Finalized(k => true, PairInput(OneSig(k))).finalWitness.value| == 3
  {
    hide Print, ScriptKeys, Threshold, SampleKey, Collected, PairKeys;
    PairMultisig();
    ParseInvertsPrint(k => true, 2, PairKeys());
    PairCollected(k);
  }

  lemma ReceivedIs(members: Members, st: Coord, sub: Submission, i: nat, merged: seq<PsetInput>)
    requires sub.id in members && i < |st.inputs| && i < |sub.inputs|
    requires NewSigs(members[sub.id], st.inputs[i], sub.inputs[i]) != map[]
    requires Merged(members[sub.id], st.inputs, sub.inputs) == merged
    ensures Received(members, st, sub) == Coord(merged, st.signed + {sub.id})
  {
  }

  lemma ReceiveTwo(members: Members, st: Coord, a: Submission, b: Submission)
    ensures ReceiveAll(members, st, [a, b]) == Received(members, Received(members, st, a), b)
  {
    hide Received;
    assert [a, b][..1] == [a] && [a][..0] == [];
    assert ReceiveAll(members, st, []) == st;
  }

  function First(): Submission {
    Submission(1, [PairInput(OneSig(1)), PairInput(map[])])
  }

  function Second(): Submission {
    Submission(2, [PairInput(map[]), PairInput(OneSig(2))])
  }

  lemma FirstReceived()
    ensures Received(PAIR, Coord([PairInput(map[]), PairInput(map[])], {}), First()) == Coord(First().inputs, {1})
  {
    PairSigs();
    MergeIntoBlank(11, OneSig(1));
    MergeBlank(11, map[]);
    assert SampleKey(1) in OneSig(1);
    hide PairInput, Attributable, NewSigs, MergedInput, OneSig;
    ReceivedIs(PAIR, Coord([PairInput(map[]), PairInput(map[])], {}), First(), 0, First().inputs);
  }

  lemma SecondReceived()
    ensures Received(PAIR, Coord(First().inputs, {1}), Second()) ==
            Coord([PairInput(OneSig(1)), PairInput(OneSig(2))], {1, 2})
  {
    PairSigs();
    MergeIntoBlank(22, OneSig(2));
    MergeBlank(22, OneSig(1));
    assert SampleKey(2) in OneSig(2);
    hide PairInput, Attributable, NewSigs, MergedInput, OneSig;
    ReceivedIs(PAIR, Coord(First().inputs, {1}), Second(), 1, [PairInput(OneSig(1)), PairInput(OneSig(2))]);
  }

  /**
   Two members of a 2-of-2 each return a signature for a different input. Both
   calls are accepted and the threshold is met, yet each input finalises with
   one signature only: three items instead of four.
   */
  lemma {:induction false} CountedButIncomplete()
    ensures var done := ReceiveAll(PAIR, Coord([PairInput(map[]), PairInput(map[])], {}), [First(), Second()]);
            done == Coord([PairInput(OneSig(1)), PairInput(OneSig(2))], {1, 2})
    ensures |Finalized(k => true, PairInput(OneSig(1))).finalWitness.value| == 3
    ensures |Finalized(k => true, PairInput(OneSig(2))).finalWitness.value| == 3
  {
    ReceiveTwo(PAIR, Coord([PairInput(map[]), PairInput(map[])], {}), First(), Second());
    FirstReceived();
    SecondReceived();
    OneOfTwo(1);
    OneOfTwo(2);
  }
}
