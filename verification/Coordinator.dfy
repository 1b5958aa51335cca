/** The signing coordinator: who has signed, whose signatures are merged, when finalisation is allowed. */
module Coordinator {
  import opened Results
  import opened ChainModel
  import opened Finalize

  type SignerId = nat
  type Members = map<SignerId, Fingerprint>

  datatype PsetError = UnknownSigner | InvalidSignature | InsufficientSignatures | Finalization | Backend

  // ------------------------------------------------------------------
  // Merging an external signer's PSET
  // ------------------------------------------------------------------

  /** The signatures of one returned input that carry the signer's fingerprint. */
  function Attributable(fp: Fingerprint, returned: PsetInput): map<Bytes, Bytes> {
    returned.partialSigs - (returned.partialSigs.Keys - KeysFor(fp, returned))
  }

  /** Those the coordinator does not hold yet. */
  function NewSigs(fp: Fingerprint, held: PsetInput, returned: PsetInput): map<Bytes, Bytes> {
    Attributable(fp, returned) - held.partialSigs.Keys
  }

  function MergedInput(fp: Fingerprint, held: PsetInput, returned: PsetInput): PsetInput {
    held.(partialSigs := held.partialSigs + NewSigs(fp, held, returned))
  }

  function Merged(fp: Fingerprint, held: seq<PsetInput>, returned: seq<PsetInput>): seq<PsetInput> {
    seq(|held|, i requires 0 <= i < |held| => if i < |returned| then MergedInput(fp, held[i], returned[i]) else held[i])
  }

  ghost predicate BringsNew(fp: Fingerprint, held: seq<PsetInput>, returned: seq<PsetInput>) {
    exists i :: 0 <= i < |held| && i < |returned| && NewSigs(fp, held[i], returned[i]) != map[]
  }

  /** The merge indexes the coordinator's inputs: an attributable signature beyond them panics. */
  ghost predicate Fits(fp: Fingerprint, held: seq<PsetInput>, returned: seq<PsetInput>) {
    forall i :: |held| <= i < |returned| ==> Attributable(fp, returned[i]) == map[]
  }

  /** What the coordinator holds, as a value. */
  datatype Coord = Coord(inputs: seq<PsetInput>, signed: set<SignerId>)

  datatype Submission = Submission(id: SignerId, inputs: seq<PsetInput>)

  ghost predicate Accepted(members: Members, st: Coord, sub: Submission) {
    sub.id in members && BringsNew(members[sub.id], st.inputs, sub.inputs)
  }

  /** A call that brings nothing new, or names no member, changes nothing. */
  ghost function Received(members: Members, st: Coord, sub: Submission): Coord {
    if Accepted(members, st, sub)
    then Coord(Merged(members[sub.id], st.inputs, sub.inputs), st.signed + {sub.id})
    else st
  }

  /** The returned input has a signature for `pk` and lists that key under the member's fingerprint. */
  ghost predicate Brings(members: Members, sub: Submission, i: nat, pk: Bytes) {
    && sub.id in members
    && i < |sub.inputs|
    && pk in sub.inputs[i].partialSigs
    && pk in sub.inputs[i].bip32Derivation
    && sub.inputs[i].bip32Derivation[pk].0 == members[sub.id]
  }

  /** It brings some signature that is not held. */
  ghost predicate BringsUnheld(members: Members, held: seq<PsetInput>, sub: Submission) {
    exists i, pk :: 0 <= i < |held| && Brings(members, sub, i, pk) && pk !in held[i].partialSigs
  }

  /** An input after the submission: what it held, untouched, and what the submission brings for other keys. */
  ghost predicate Gains(members: Members, sub: Submission, i: nat, held: PsetInput, now: PsetInput) {
    && now == held.(partialSigs := now.partialSigs)
    && forall pk ::
         if pk in held.partialSigs then pk in now.partialSigs && now.partialSigs[pk] == held.partialSigs[pk]
         else
           && (pk in now.partialSigs <==> Brings(members, sub, i, pk))
           && (pk in now.partialSigs ==> now.partialSigs[pk] == sub.inputs[i].partialSigs[pk])
  }

  lemma BringsNewMeans(members: Members, held: seq<PsetInput>, sub: Submission)
    requires sub.id in members
    ensures BringsNew(members[sub.id], held, sub.inputs) <==> BringsUnheld(members, held, sub)
  {
    var fp := members[sub.id];
    if BringsNew(fp, held, sub.inputs) {
      var i :| 0 <= i < |held| && i < |sub.inputs| && NewSigs(fp, held[i], sub.inputs[i]) != map[];
      var extra := NewSigs(fp, held[i], sub.inputs[i]);
      var pk :| pk in extra;
      assert Brings(members, sub, i, pk) && pk !in held[i].partialSigs;
    }
    if i, pk :| 0 <= i < |held| && Brings(members, sub, i, pk) && pk !in held[i].partialSigs {
      assert pk in NewSigs(fp, held[i], sub.inputs[i]);
    }
  }

  /**
   One submission, key by key: it is accepted exactly when it brings a member's
   signature that was not held; the member is then counted. Accepted or not, each
   input holds what it held and the signatures brought for other keys.
   */
  lemma {:induction false} ReceivedMeans(members: Members, held: Coord, sub: Submission)
    ensures var now := Received(members, held, sub);
            && (Accepted(members, held, sub) <==> BringsUnheld(members, held.inputs, sub))
            && now.signed == (if BringsUnheld(members, held.inputs, sub) then held.signed + {sub.id} else held.signed)
            && |now.inputs| == |held.inputs|
            && forall i :: 0 <= i < |held.inputs| ==> Gains(members, sub, i, held.inputs[i], now.inputs[i])
  {
    var now := Received(members, held, sub);
    if sub.id in members {
      BringsNewMeans(members, held.inputs, sub);
    }
    forall i | 0 <= i < |held.inputs|
      ensures Gains(members, sub, i, held.inputs[i], now.inputs[i])
    {
      if !Accepted(members, held, sub) {
        forall pk | Brings(members, sub, i, pk)
          ensures pk in held.inputs[i].partialSigs
        {
        }
      }
    }
  }

  // ------------------------------------------------------------------
  // In-process signing
  // ------------------------------------------------------------------

  datatype Sighash = Ecdsa(msg: nat) | Taproot | SighashError

  /**
   An in-process signer. `derive` and `sighash` may fail; `signature` is the
   DER signature with its sighash byte.
   */
  datatype SoftwareSigner = SoftwareSigner(
    fingerprint: Fingerprint,
    extractable: seq<PsetInput> -> bool,
    sighash: nat -> Sighash,
    derive: Path -> Option<nat>,
    signature: (nat, nat) -> Bytes)

  /** The keys of an input that list the signer's fingerprint. */
  function KeysFor(fp: Fingerprint, i: PsetInput): set<Bytes> {
    set pk | pk in i.bip32Derivation && i.bip32Derivation[pk].0 == fp
  }

  function OwnSignature(s: SoftwareSigner, i: PsetInput, pk: Bytes, msg: nat): Option<Bytes>
    requires pk in i.bip32Derivation
  {
    match s.derive(i.bip32Derivation[pk].1)
    case None => None
    case Some(priv) => Some(s.signature(priv, msg))
  }

  /** `i` signed with the keys `done`. */
  ghost predicate SignedWith(s: SoftwareSigner, i: PsetInput, msg: nat, done: set<Bytes>, now: PsetInput)
    requires done <= KeysFor(s.fingerprint, i)
  {
    && now == i.(partialSigs := now.partialSigs)
    && now.partialSigs.Keys == i.partialSigs.Keys + done
    && forall pk :: pk in now.partialSigs ==>
                      if pk in done then Some(now.partialSigs[pk]) == OwnSignature(s, i, pk, msg)
                      else now.partialSigs[pk] == i.partialSigs[pk]
  }

  /** The input as a successful signing leaves it. */
  ghost predicate InputSigned(s: SoftwareSigner, k: nat, i: PsetInput, now: PsetInput) {
    match s.sighash(k)
    case Ecdsa(msg) => SignedWith(s, i, msg, KeysFor(s.fingerprint, i), now)
    case Taproot => now == i
    case SighashError => false
  }

  /** How many signatures signing inputs `..n` makes. */
  function SignatureCount(s: SoftwareSigner, inputs: seq<PsetInput>, n: nat): nat
    requires n <= |inputs|
  {
    if n == 0 then 0
    else SignatureCount(s, inputs, n - 1) +
         if s.sighash(n - 1).Ecdsa? then |KeysFor(s.fingerprint, inputs[n - 1])| else 0
  }

  /** How many of the inputs `..n` get a signature. */
  function SignedInputs(s: SoftwareSigner, inputs: seq<PsetInput>, n: nat): nat
    requires n <= |inputs|
  {
    if n == 0 then 0
    else SignedInputs(s, inputs, n - 1) +
         if s.sighash(n - 1).Ecdsa? && KeysFor(s.fingerprint, inputs[n - 1]) != {} then 1 else 0
  }

  /** The signer counts signatures: that is the number of inputs signed exactly when no input lists it twice. */
  lemma {:induction false} CountsInputsIff(s: SoftwareSigner, inputs: seq<PsetInput>, n: nat)
    requires n <= |inputs|
    ensures SignatureCount(s, inputs, n) == SignedInputs(s, inputs, n) <==>
            forall k :: 0 <= k < n && s.sighash(k).Ecdsa? ==> |KeysFor(s.fingerprint, inputs[k])| <= 1
    ensures SignatureCount(s, inputs, n) >= SignedInputs(s, inputs, n)
  {
    if n > 0 {
      CountsInputsIff(s, inputs, n - 1);
    }
  }

  /** One input listing two keys of the signer: two signatures counted, one input signed. */
  lemma {:induction false} TwoKeysOneInput(s: SoftwareSigner, i: PsetInput, a: Bytes, b: Bytes)
    requires a != b && i.bip32Derivation == map[a := (s.fingerprint, [0]), b := (s.fingerprint, [1])]
    requires s.sighash(0).Ecdsa?
    ensures SignatureCount(s, [i], 1) == 2 && SignedInputs(s, [i], 1) == 1
  {
    assert KeysFor(s.fingerprint, i) == {a, b};
    assert SignatureCount(s, [i], 0) == 0 && SignedInputs(s, [i], 0) == 0;
  }

  /** The sighash of input `k` exists, and every key to sign it with can be derived. */
  ghost predicate Signable(s: SoftwareSigner, k: nat, i: PsetInput) {
    match s.sighash(k)
    case Ecdsa(msg) => forall pk :: pk in KeysFor(s.fingerprint, i) ==> OwnSignature(s, i, pk, msg).Some?
    case Taproot => true
    case SighashError => false
  }

  /** Nothing but this signer's own signatures of input `k` may differ. */
  ghost predicate OnlyOwnSigs(s: SoftwareSigner, k: nat, i: PsetInput, now: PsetInput) {
    && now == i.(partialSigs := now.partialSigs)
    && (forall pk :: pk in i.partialSigs ==> pk in now.partialSigs)
    && (forall pk :: pk in now.partialSigs ==>
                       || (pk in i.partialSigs && now.partialSigs[pk] == i.partialSigs[pk])
                       || OwnSigOn(s, k, i, pk, now.partialSigs[pk]))
  }

  /** `sig` is what the signer makes on input `k` with the key it lists as `pk`. */
  ghost predicate OwnSigOn(s: SoftwareSigner, k: nat, i: PsetInput, pk: Bytes, sig: Bytes) {
    && s.sighash(k).Ecdsa? && pk in KeysFor(s.fingerprint, i)
    && OwnSignature(s, i, pk, s.sighash(k).msg) == Some(sig)
  }

  /** The transaction can be extracted and every input signed: exactly then signing succeeds. */
  ghost predicate CanSign(s: SoftwareSigner, inputs: seq<PsetInput>) {
    s.extractable(inputs) && forall k :: 0 <= k < |inputs| ==> Signable(s, k, inputs[k])
  }

  /** The key of the input is listed under the signer's fingerprint, and `priv` is what its path derives. */
  ghost predicate Holds(s: SoftwareSigner, i: PsetInput, pk: Bytes, priv: nat) {
    && pk in i.bip32Derivation
    && i.bip32Derivation[pk].0 == s.fingerprint
    && s.derive(i.bip32Derivation[pk].1) == Some(priv)
  }

  /**
   Each key an ECDSA input lists under the signer has the signature made with the
   private key its path derives on that input's message; other keys are as before.
   A Taproot input is as before.
   */
  ghost predicate SignsListedKeys(s: SoftwareSigner, k: nat, i: PsetInput, now: PsetInput) {
    match s.sighash(k)
    case SighashError => false
    case Taproot => now == i
    case Ecdsa(msg) =>
      && now == i.(partialSigs := now.partialSigs)
      && forall pk ::
           if pk in i.bip32Derivation && i.bip32Derivation[pk].0 == s.fingerprint then
             && s.derive(i.bip32Derivation[pk].1).Some? && pk in now.partialSigs
             && now.partialSigs[pk] == s.signature(s.derive(i.bip32Derivation[pk].1).value, msg)
           else
             && (pk in now.partialSigs <==> pk in i.partialSigs)
             && (pk in i.partialSigs ==> now.partialSigs[pk] == i.partialSigs[pk])
  }

  lemma {:induction false} SignedMeans(s: SoftwareSigner, k: nat, i: PsetInput, now: PsetInput)
    ensures InputSigned(s, k, i, now) <==> SignsListedKeys(s, k, i, now)
  {
    if s.sighash(k).Ecdsa? {
      forall pk
        ensures pk in KeysFor(s.fingerprint, i) <==>
                pk in i.bip32Derivation && i.bip32Derivation[pk].0 == s.fingerprint
      {
      }
      if SignsListedKeys(s, k, i, now) {
        forall pk
          ensures pk in now.partialSigs <==> pk in i.partialSigs.Keys + KeysFor(s.fingerprint, i)
        {
        }
        assert now.partialSigs.Keys == i.partialSigs.Keys + KeysFor(s.fingerprint, i);
      }
    }
  }

  /** What may differ after a failed call, too: signatures by a listed key on that input's message. */
  lemma {:induction false} LeftBehindMeans(s: SoftwareSigner, k: nat, i: PsetInput, pk: Bytes, sig: Bytes)
    ensures OwnSigOn(s, k, i, pk, sig) <==>
            s.sighash(k).Ecdsa? &&
            exists priv: nat :: Holds(s, i, pk, priv) && sig == s.signature(priv, s.sighash(k).msg)
  {
    if OwnSigOn(s, k, i, pk, sig) {
      assert Holds(s, i, pk, s.derive(i.bip32Derivation[pk].1).value);
    }
  }

  /** An input can be signed exactly when it has a sighash and, for ECDSA, every listed key derives. */
  lemma {:induction false} SignableMeans(s: SoftwareSigner, k: nat, i: PsetInput)
    ensures Signable(s, k, i) <==>
            && !s.sighash(k).SighashError?
            && (s.sighash(k).Ecdsa? ==>
                  forall pk :: pk in i.bip32Derivation && i.bip32Derivation[pk].0 == s.fingerprint ==>
                                 s.derive(i.bip32Derivation[pk].1).Some?)
  {
    if s.sighash(k).Ecdsa? {
      forall pk
        ensures pk in KeysFor(s.fingerprint, i) <==>
                pk in i.bip32Derivation && i.bip32Derivation[pk].0 == s.fingerprint
      {
      }
      forall pk | pk in KeysFor(s.fingerprint, i)
        ensures OwnSignature(s, i, pk, s.sighash(k).msg).Some? <==> s.derive(i.bip32Derivation[pk].1).Some?
      {
      }
    }
  }

  /** The inputs and keys a signing of inputs `..n` makes a signature for. */
  ghost function Made(s: SoftwareSigner, inputs: seq<PsetInput>, n: nat): set<(nat, Bytes)>
    requires n <= |inputs|
  {
    set k: nat, pk | k < n && pk in inputs[k].bip32Derivation
                     && inputs[k].bip32Derivation[pk].0 == s.fingerprint && s.sighash(k).Ecdsa? :: (k, pk)
  }

  ghost function Pairs(keys: set<Bytes>, k: nat): set<(nat, Bytes)> {
    set pk | pk in keys :: (k, pk)
  }

  lemma {:induction false} PairsCount(keys: set<Bytes>, k: nat)
    ensures |Pairs(keys, k)| == |keys|
    decreases keys
  {
    if keys != {} {
      var x :| x in keys;
      PairsCount(keys - {x}, k);
      assert Pairs(keys, k) == Pairs(keys - {x}, k) + {(k, x)};
    }
  }

  lemma MadeStep(s: SoftwareSigner, inputs: seq<PsetInput>, n: nat)
    requires n < |inputs|
    ensures var here := if s.sighash(n).Ecdsa? then Pairs(KeysFor(s.fingerprint, inputs[n]), n) else {};
            Made(s, inputs, n + 1) == Made(s, inputs, n) + here && Made(s, inputs, n) !! here
  {
    var here := if s.sighash(n).Ecdsa? then Pairs(KeysFor(s.fingerprint, inputs[n]), n) else {};
    forall x
      ensures x in Made(s, inputs, n + 1) <==> x in Made(s, inputs, n) || x in here
      ensures x in here ==> x.0 == n
    {
    }
  }

  /** The number returned is the number of signatures: one per ECDSA input and key it lists under the signer. */
  lemma {:induction false} CountMeans(s: SoftwareSigner, inputs: seq<PsetInput>, n: nat)
    requires n <= |inputs|
    ensures SignatureCount(s, inputs, n) == |Made(s, inputs, n)|
  {
    hide Pairs, KeysFor, Made;
    if n > 0 {
      CountMeans(s, inputs, n - 1);
      MadeStep(s, inputs, n - 1);
      PairsCount(KeysFor(s.fingerprint, inputs[n - 1]), n - 1);
    } else {
      NothingMade(s, inputs);
    }
  }

  lemma NothingMade(s: SoftwareSigner, inputs: seq<PsetInput>)
    ensures Made(s, inputs, 0) == {}
  {
  }

  /** Sign every input with every key listing the signer's fingerprint; a failure may leave some signatures behind. */
  method SignPset(s: SoftwareSigner, pset: Pset) returns (r: Result<nat, PsetError>)
    modifies pset
    ensures |pset.inputs| == |old(pset.inputs)|
    ensures r.Success? <==> CanSign(s, old(pset.inputs))
    ensures r.Success? ==>
              && r.value == SignatureCount(s, old(pset.inputs), |pset.inputs|)
              && forall k :: 0 <= k < |pset.inputs| ==>
                   && InputSigned(s, k, old(pset.inputs)[k], pset.inputs[k])
                   && SignsListedKeys(s, k, old(pset.inputs)[k], pset.inputs[k])
    ensures OwnSigsEverywhere(s, old(pset.inputs), pset.inputs)
  {
    NothingSigned(s, pset.inputs);
    if !s.extractable(pset.inputs) {
      return Failure(Backend);
    }
    ghost var was := pset.inputs;
    hide OnlyOwnSigs, InputSigned, KeysFor, SigningProgress, OwnSigsEverywhere, Signable, SignsListedKeys;
    var signed := 0;
    for idx := 0 to |pset.inputs|
      invariant |pset.inputs| == |was| && signed == SignatureCount(s, was, idx)
      invariant forall k :: 0 <= k < idx ==> Signable(s, k, was[k])
      invariant SigningProgress(s, was, pset.inputs, idx)
    {
      var made :- SignAt(s, pset, idx, was);
      signed := signed + made;
    }
    ProgressEnds(s, was, pset.inputs, |was|);
    return Success(signed);
  }

  /** One input of the loop. */
  method SignAt(s: SoftwareSigner, pset: Pset, idx: nat, ghost was: seq<PsetInput>) returns (r: Result<nat, PsetError>)
    requires idx < |pset.inputs| == |was| && SigningProgress(s, was, pset.inputs, idx)
    modifies pset
    ensures |pset.inputs| == |was| && OwnSigsEverywhere(s, was, pset.inputs)
    ensures r.Success? <==> Signable(s, idx, was[idx])
    ensures r.Success? ==>
              && SigningProgress(s, was, pset.inputs, idx + 1)
              && SignatureCount(s, was, idx + 1) == SignatureCount(s, was, idx) + r.value
  {
    ProgressAt(s, was, pset.inputs, idx);
    hide OnlyOwnSigs, InputSigned, KeysFor, SigningProgress, OwnSigsEverywhere;
    match s.sighash(idx) {
      case SighashError => return Failure(Backend);
      case Taproot => return Success(0);
      case Ecdsa(msg) =>
        var made := |KeysFor(s.fingerprint, pset.inputs[idx])|;
        var input, ok := SignInput(s, pset.inputs[idx], msg, idx);
        ProgressWith(s, was, pset.inputs, idx, input);
        pset.inputs := pset.inputs[idx := input];
        return if ok then Success(made) else Failure(Backend);
    }
  }

  /** Inputs below `n` are signed, the others as they were. */
  ghost predicate SigningProgress(s: SoftwareSigner, was: seq<PsetInput>, now: seq<PsetInput>, n: nat) {
    && n <= |was| == |now|
    && (forall k :: 0 <= k < n ==> InputSigned(s, k, was[k], now[k]))
    && (forall k :: n <= k < |was| ==> now[k] == was[k])
    && OwnSigsEverywhere(s, was, now)
  }

  ghost predicate OwnSigsEverywhere(s: SoftwareSigner, was: seq<PsetInput>, now: seq<PsetInput>) {
    |was| == |now| && forall k :: 0 <= k < |now| ==> OnlyOwnSigs(s, k, was[k], now[k])
  }

  lemma NothingSigned(s: SoftwareSigner, was: seq<PsetInput>)
    ensures SigningProgress(s, was, was, 0)
  {
  }

  lemma ProgressAt(s: SoftwareSigner, was: seq<PsetInput>, now: seq<PsetInput>, n: nat)
    requires SigningProgress(s, was, now, n) && n < |was|
    ensures now[n] == was[n] && OwnSigsEverywhere(s, was, now)
    ensures s.sighash(n).Taproot? ==> SigningProgress(s, was, now, n + 1)
  {
  }

  lemma ProgressWith(s: SoftwareSigner, was: seq<PsetInput>, now: seq<PsetInput>, n: nat, input: PsetInput)
    requires SigningProgress(s, was, now, n) && n < |was| && OnlyOwnSigs(s, n, was[n], input)
    ensures OwnSigsEverywhere(s, was, now[n := input])
    ensures InputSigned(s, n, was[n], input) ==> SigningProgress(s, was, now[n := input], n + 1)
  {
    hide OnlyOwnSigs, InputSigned;
  }

  lemma ProgressEnds(s: SoftwareSigner, was: seq<PsetInput>, now: seq<PsetInput>, n: nat)
    requires SigningProgress(s, was, now, n) && n == |was|
    ensures OwnSigsEverywhere(s, was, now)
    ensures forall k :: 0 <= k < |now| ==> InputSigned(s, k, was[k], now[k]) && SignsListedKeys(s, k, was[k], now[k])
  {
    hide OnlyOwnSigs, InputSigned, SignsListedKeys;
    forall k | 0 <= k < |now|
      ensures SignsListedKeys(s, k, was[k], now[k])
    {
      SignedMeans(s, k, was[k], now[k]);
    }
  }

  method SignInput(s: SoftwareSigner, input: PsetInput, msg: nat, ghost k: nat) returns (now: PsetInput, ok: bool)
    requires s.sighash(k) == Ecdsa(msg)
    ensures ok <==> Signable(s, k, input)
    ensures ok ==> InputSigned(s, k, input, now)
    ensures OnlyOwnSigs(s, k, input, now)
  {
    now := input;
    var mine := KeysFor(s.fingerprint, input);
    var todo := mine;
    while todo != {}
      invariant todo <= mine
      invariant SignedWith(s, input, msg, mine - todo, now)
    {
      var pk :| pk in todo;
      match OwnSignature(s, input, pk, msg) {
        case None => return now, false;
        case Some(sig) =>
          now := now.(partialSigs := now.partialSigs[pk := sig]);
          todo := todo - {pk};
      }
    }
    return now, true;
  }

  // ------------------------------------------------------------------
  // The coordinator
  // ------------------------------------------------------------------

  class SigningCoordinator {
    const threshold: nat
    const members: Members
    const pset: Pset
    var signed: set<SignerId>

    constructor (threshold: nat, members: Members, pset: Pset)
      ensures this.threshold == threshold && this.members == members && this.pset == pset && signed == {}
    {
      this.threshold, this.members, this.pset := threshold, members, pset;
      signed := {};
    }

    predicate IsComplete()
      reads this
    {
      |signed| >= threshold
    }

    /** A signer is counted when it made at least one signature. The id is the caller's claim. */
    method SignWith(signer: SoftwareSigner, id: SignerId) returns (r: Result<nat, PsetError>)
      modifies this`signed, pset
      ensures id !in members ==> r == Failure(UnknownSigner) && pset.inputs == old(pset.inputs)
      ensures |pset.inputs| == |old(pset.inputs)|
      ensures signed == if r.Success? && r.value > 0 then old(signed) + {id} else old(signed)
      ensures r.Success? <==> id in members && CanSign(signer, old(pset.inputs))
      ensures r.Success? ==>
                && r.value == SignatureCount(signer, old(pset.inputs), |pset.inputs|)
                && forall k :: 0 <= k < |pset.inputs| ==> InputSigned(signer, k, old(pset.inputs)[k], pset.inputs[k])
      ensures OwnSigsEverywhere(signer, old(pset.inputs), pset.inputs)
    {
      if id !in members {
        return Failure(UnknownSigner);
      }
      var n :- SignPset(signer, pset);
      if n > 0 {
        signed := signed + {id};
      }
      return Success(n);
    }

    /** Merge what an external signer returned. */
    method ReceiveSignature(id: SignerId, returned: seq<PsetInput>) returns (r: Result<(), PsetError>)
      requires id in members ==> Fits(members[id], pset.inputs, returned)
      modifies this`signed, pset
      ensures r.Success? <==> Accepted(members, old(Coord(pset.inputs, signed)), Submission(id, returned))
      ensures Coord(pset.inputs, signed) == Received(members, old(Coord(pset.inputs, signed)), Submission(id, returned))
      ensures r.Success? <==> BringsUnheld(members, old(pset.inputs), Submission(id, returned))
      ensures signed == if r.Success? then old(signed) + {id} else old(signed)
      ensures |pset.inputs| == |old(pset.inputs)|
      ensures forall i :: 0 <= i < |pset.inputs| ==>
                            Gains(members, Submission(id, returned), i, old(pset.inputs)[i], pset.inputs[i])
    {
      hide Gains, Brings, BringsUnheld;
      ReceivedMeans(members, Coord(pset.inputs, signed), Submission(id, returned));
      if id !in members {
        return Failure(UnknownSigner);
      }
      var fp := members[id];
      ghost var held := pset.inputs;
      var foundNew := false;
      for inputIdx := 0 to |returned|
        invariant signed == old(signed) && |pset.inputs| == |held|
        invariant forall k :: 0 <= k < |held| ==>
                                pset.inputs[k] == if k < inputIdx then MergedInput(fp, held[k], returned[k])
                                                  else held[k]
        invariant foundNew <==>
                  exists k :: 0 <= k < inputIdx && k < |held| && NewSigs(fp, held[k], returned[k]) != map[]
      {
        if inputIdx < |pset.inputs| {
          var newSigs := NewSigs(fp, pset.inputs[inputIdx], returned[inputIdx]);
          if newSigs != map[] {
            foundNew := true;
          }
          var input := pset.inputs[inputIdx];
          pset.inputs := pset.inputs[inputIdx := input.(partialSigs := input.partialSigs + newSigs)];
        }
      }
      if !foundNew {
        NothingMerged(fp, held, returned);
        assert pset.inputs == held;
        return Failure(InvalidSignature);
      }
      assert BringsNew(fp, held, returned);
      signed := signed + {id};
      assert pset.inputs == Merged(fp, held, returned);
      return Success(());
    }

    static lemma NothingMerged(fp: Fingerprint, held: seq<PsetInput>, returned: seq<PsetInput>)
      requires !BringsNew(fp, held, returned)
      ensures forall k :: 0 <= k < |held| && k < |returned| ==> MergedInput(fp, held[k], returned[k]) == held[k]
    {
      forall k | 0 <= k < |held| && k < |returned|
        ensures MergedInput(fp, held[k], returned[k]) == held[k]
      {
        assert NewSigs(fp, held[k], returned[k]) == map[];
      }
    }

    /**
     Refused below the threshold; otherwise every input is finalised, or the first
     one without a script is reported, and then the transaction is extracted, which
     the library may refuse.
     */
    method Finalize(validKey: Bytes -> bool, extractable: seq<PsetInput> -> bool) returns (r: Result<(), PsetError>)
      modifies pset
      ensures r == Failure(InsufficientSignatures) <==> !IsComplete()
      ensures !IsComplete() ==> pset.inputs == old(pset.inputs)
      ensures r.Success? <==>
                && IsComplete()
                && (forall k :: 0 <= k < |old(pset.inputs)| ==> old(pset.inputs)[k].witnessScript.Some?)
                && extractable(pset.inputs)
      ensures IsComplete() && (forall k :: 0 <= k < |old(pset.inputs)| ==> old(pset.inputs)[k].witnessScript.Some?) ==>
                && |pset.inputs| == |old(pset.inputs)|
                && forall k :: 0 <= k < |pset.inputs| ==>
                                 pset.inputs[k] == Finalized(validKey, old(pset.inputs)[k])
    {
      if !IsComplete() {
        return Failure(InsufficientSignatures);
      }
      var done := FinalizeP2wsh(validKey, pset);
      return if done.Success? && extractable(pset.inputs) then Success(()) else Failure(Finalization);
    }
  }
}
