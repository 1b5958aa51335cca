/**
 P2WSH multisig scripts: parsing at byte level, printing, and what the script
 machine does with a witness.

 The machine covers the fragment a `sortedmulti` script uses: data pushes,
 `OP_1`..`OP_16` and `OP_CHECKMULTISIG`, under the rules of the "Witness program"
 section of BIP 141 (the last witness item is the script, the rest is the initial
 stack, and exactly one true item must remain) and of the "Specification" section
 of BIP 147 (the dummy item must be empty).
 */
module MultisigScript {
  import opened Results
  import opened ChainModel

  datatype Instruction = PushBytes(data: Bytes) | Op(opcode: Byte) | EarlyEnd

  const OP_CHECKMULTISIG: Byte := 0xae
  const MAX_KEYS := 20

  // ------------------------------------------------------------------
  // Reading a script
  // ------------------------------------------------------------------

  function LittleEndian(s: Bytes): nat {
    if s == [] then 0 else s[0] + 256 * LittleEndian(s[1..])
  }

  /** Bytes of opcode and length prefix of the push at the front of `s`. */
  function PushHeader(s: Bytes): nat
    requires s != [] && s[0] <= 78
  {
    if s[0] <= 75 then 1 else if s[0] == 76 then 2 else if s[0] == 77 then 3 else 5
  }

  function PushSize(s: Bytes): nat
    requires s != [] && s[0] <= 78 && PushHeader(s) <= |s|
  {
    if s[0] <= 75 then s[0] else LittleEndian(s[1..PushHeader(s)])
  }

  /** The first instruction and what follows it. A push that runs past the end stops the reading. */
  function Next(s: Bytes): (r: (Instruction, Bytes))
    requires s != []
    ensures |r.1| < |s|
  {
    if s[0] > 78 then (Op(s[0]), s[1..])
    else if |s| < PushHeader(s) || |s| < PushHeader(s) + PushSize(s) then (EarlyEnd, [])
    else (PushBytes(s[PushHeader(s)..PushHeader(s) + PushSize(s)]), s[PushHeader(s) + PushSize(s)..])
  }

  function Instructions(s: Bytes): seq<Instruction>
    decreases |s|
  {
    if s == [] then [] else [Next(s).0] + Instructions(Next(s).1)
  }

  /** `n` in one, two or four bytes, the lowest first. */
  function Size1(n: nat): Bytes
    requires n < 256
  {
    [n]
  }

  function Size2(n: nat): Bytes
    requires n < 256 * 256
  {
    [n % 256, n / 256]
  }

  function Size4(n: nat): Bytes
    requires n < 256 * 256 * 256 * 256
  {
    Size2(n % 65536) + Size2(n / 65536)
  }

  lemma {:induction false} LittleEndianMore(low: Bytes, high: Bytes)
    ensures |low| == 1 ==> LittleEndian(low + high) == low[0] + 256 * LittleEndian(high)
    ensures |low| == 2 ==> LittleEndian(low + high) == low[0] + 256 * low[1] + 65536 * LittleEndian(high)
  {
    if |low| == 1 {
      assert (low + high)[1..] == high;
    } else if |low| == 2 {
      assert (low + high)[1..] == [low[1]] + high && ([low[1]] + high)[1..] == high;
    }
  }

  lemma SizesRead(n: nat)
    ensures n < 256 ==> LittleEndian(Size1(n)) == n
    ensures n < 256 * 256 ==> LittleEndian(Size2(n)) == n
    ensures n < 256 * 256 * 256 * 256 ==> LittleEndian(Size4(n)) == n
  {
    if n < 256 {
      LittleEndianMore(Size1(n), []);
      assert Size1(n) + [] == Size1(n);
    }
    if n < 256 * 256 {
      LittleEndianMore(Size2(n), []);
      assert Size2(n) + [] == Size2(n);
    }
    if n < 256 * 256 * 256 * 256 {
      LittleEndianMore(Size2(n % 65536), Size2(n / 65536));
      LittleEndianMore(Size2(n / 65536), []);
      assert Size2(n / 65536) + [] == Size2(n / 65536);
    }
  }

  /** A push in each of its encodings. */
  lemma {:induction false} NextReadsPush(data: Bytes, rest: Bytes)
    ensures |data| <= 75 ==> Next([|data|] + data + rest) == (PushBytes(data), rest)
    ensures |data| < 256 ==> Next(([76] + Size1(|data|)) + data + rest) == (PushBytes(data), rest)
    ensures |data| < 256 * 256 ==> Next(([77] + Size2(|data|)) + data + rest) == (PushBytes(data), rest)
    ensures |data| < 256 * 256 * 256 * 256 ==> Next(([78] + Size4(|data|)) + data + rest) == (PushBytes(data), rest)
  {
    hide Next, LittleEndian;
    var n := |data|;
    SizesRead(n);
    if n <= 75 {
      PushReads([n], data, rest);
    }
    if n < 256 {
      HeaderReads(76, Size1(n), data, rest);
    }
    if n < 256 * 256 {
      HeaderReads(77, Size2(n), data, rest);
    }
    if n < 256 * 256 * 256 * 256 {
      HeaderReads(78, Size4(n), data, rest);
    }
  }

  lemma HeaderReads(op: Byte, size: Bytes, data: Bytes, rest: Bytes)
    requires 76 <= op <= 78 && |size| == (if op == 76 then 1 else if op == 77 then 2 else 4)
    requires LittleEndian(size) == |data|
    ensures Next(([op] + size) + data + rest) == (PushBytes(data), rest)
  {
    hide Next, LittleEndian;
    assert ([op] + size)[1..] == size;
    PushReads([op] + size, data, rest);
  }

  /** Other opcodes, and a push the script is too short for. */
  lemma {:induction false} NextReadsOther(op: Byte, rest: Bytes)
    ensures op > 78 ==> Next([op] + rest) == (Op(op), rest)
    ensures |rest| < op <= 75 ==> Next([op] + rest) == (EarlyEnd, [])
  {
    assert ([op] + rest)[1..] == rest;
  }

  lemma PushReads(header: Bytes, data: Bytes, rest: Bytes)
    requires header != [] && header[0] <= 78 && PushHeader(header) == |header|
    requires |data| == if header[0] <= 75 then header[0] else LittleEndian(header[1..])
    ensures Next(header + data + rest) == (PushBytes(data), rest)
  {
    hide LittleEndian;
    var s := header + data + rest;
    assert s[0] == header[0] && s[1..|header|] == header[1..];
    assert s[|header|..|header| + |data|] == data && s[|header| + |data|..] == rest;
  }

  predicate IsKey(validKey: Bytes -> bool, i: Instruction) {
    i.PushBytes? && |i.data| == 33 && validKey(i.data)
  }

  function KeysOf(validKey: Bytes -> bool, code: seq<Instruction>): seq<Bytes> {
    if code == [] then []
    else (if IsKey(validKey, code[0]) then [code[0].data] else []) + KeysOf(validKey, code[1..])
  }

  /** The keys of a script: the 33-byte pushes that are valid keys, at increasing positions, none left out. */
  lemma {:induction false} KeysMean(validKey: Bytes -> bool, code: seq<Instruction>) returns (at: seq<nat>)
    ensures |at| == |KeysOf(validKey, code)|
    ensures forall i, j :: 0 <= i < j < |at| ==> at[i] < at[j]
    ensures forall k :: 0 <= k < |at| ==> at[k] < |code| && code[at[k]] == PushBytes(KeysOf(validKey, code)[k])
    ensures forall n :: 0 <= n < |code| ==>
                          (n in at <==> code[n].PushBytes? && |code[n].data| == 33 && validKey(code[n].data))
  {
    hide KeysOf;
    at := [];
    if code == [] {
      NoKeysOf(validKey);
    } else {
      var n := |code| - 1;
      var before := KeysMean(validKey, code[..n]);
      assert code == code[..n] + [code[n]];
      KeysConcat(validKey, code[..n], [code[n]]);
      OneKeyOf(validKey, code[n]);
      at := before + if IsKey(validKey, code[n]) then [n] else [];
      assert forall k :: 0 <= k < n ==> (k in at <==> k in before) && code[..n][k] == code[k];
    }
  }

  lemma NoKeysOf(validKey: Bytes -> bool)
    ensures KeysOf(validKey, []) == []
  {
  }

  lemma OneKeyOf(validKey: Bytes -> bool, i: Instruction)
    ensures KeysOf(validKey, [i]) == if IsKey(validKey, i) then [i.data] else []
  {
    assert [i][1..] == [];
  }

  /** The script's compressed public keys, in script order. */
  function ScriptKeys(validKey: Bytes -> bool, script: Bytes): seq<Bytes> {
    KeysOf(validKey, Instructions(script))
  }

  /** The `m` of a script that starts with `OP_1`..`OP_16`. */
  function Threshold(script: Bytes): Option<nat> {
    if script != [] && 0x51 <= script[0] <= 0x60 then Some(script[0] - 0x50) else None
  }

  method ExtractPubkeys(validKey: Bytes -> bool, script: Bytes) returns (pubkeys: seq<Bytes>)
    ensures pubkeys == ScriptKeys(validKey, script)
  {
    pubkeys := [];
    var rest := script;
    while rest != []
      invariant pubkeys + ScriptKeys(validKey, rest) == ScriptKeys(validKey, script)
      decreases |rest|
    {
      var (instruction, after) := Next(rest);
      assert Instructions(rest)[1..] == Instructions(after);
      if instruction.PushBytes? && |instruction.data| == 33 && validKey(instruction.data) {
        pubkeys := pubkeys + [instruction.data];
      }
      rest := after;
    }
  }

  // ------------------------------------------------------------------
  // Writing a multisig script
  // ------------------------------------------------------------------

  /** A small number: `OP_n` up to 16, a one-byte push above. */
  function PushNumber(n: nat): Bytes
    requires 0 < n < 128
  {
    if n <= 16 then [0x50 + n] else [1, n]
  }

  function PushKeys(keys: seq<Bytes>): Bytes
    requires forall k :: k in keys ==> |k| == 33
  {
    if keys == [] then [] else [33] + keys[0] + PushKeys(keys[1..])
  }

  /** A key list `sortedmulti` can carry. */
  ghost predicate Multisig(validKey: Bytes -> bool, m: nat, keys: seq<Bytes>) {
    && 0 < m <= |keys| <= MAX_KEYS
    && forall k :: k in keys ==> |k| == 33 && validKey(k)
  }

  /** `OP_m <pk1> .. <pkN> OP_n OP_CHECKMULTISIG`. */
  function Print(m: nat, keys: seq<Bytes>): Bytes
    requires 0 < m < 128 && 0 < |keys| < 128 && forall k :: k in keys ==> |k| == 33
  {
    PushNumber(m) + (PushKeys(keys) + (PushNumber(|keys|) + [OP_CHECKMULTISIG]))
  }

  function NumberInstruction(n: nat): Instruction
    requires 0 < n < 128
  {
    if n <= 16 then Op(0x50 + n) else PushBytes([n])
  }

  function KeyInstructions(keys: seq<Bytes>): seq<Instruction> {
    if keys == [] then [] else [PushBytes(keys[0])] + KeyInstructions(keys[1..])
  }

  lemma ReadNumber(n: nat, rest: Bytes)
    requires 0 < n < 128
    ensures Instructions(PushNumber(n) + rest) == [NumberInstruction(n)] + Instructions(rest)
  {
    var s := PushNumber(n) + rest;
    if n <= 16 {
      assert s[1..] == rest;
    } else {
      assert s[1..2] == [n] && s[2..] == rest;
    }
  }

  lemma ReadPush(key: Bytes, rest: Bytes)
    requires |key| == 33
    ensures Instructions([33] + key + rest) == [PushBytes(key)] + Instructions(rest)
  {
    hide LittleEndian;
    var s := [33] + key + rest;
    assert s[1..34] == key && s[34..] == rest;
  }

  lemma {:induction false} ReadKeys(keys: seq<Bytes>, rest: Bytes)
    requires forall k :: k in keys ==> |k| == 33
    ensures Instructions(PushKeys(keys) + rest) == KeyInstructions(keys) + Instructions(rest)
  {
    hide Instructions;
    if keys == [] {
      assert PushKeys(keys) + rest == rest;
    } else {
      assert keys[0] in keys;
      ReadKeys(keys[1..], rest);
      ReadPush(keys[0], PushKeys(keys[1..]) + rest);
      Reassociate([33] + keys[0], PushKeys(keys[1..]), rest);
      Reassociate([PushBytes(keys[0])], KeyInstructions(keys[1..]), Instructions(rest));
    }
  }

  lemma Reassociate<T>(a: seq<T>, b: seq<T>, c: seq<T>)
    ensures (a + b) + c == a + (b + c)
  {
  }

  lemma ReadPrinted(m: nat, keys: seq<Bytes>)
    requires 0 < m < 128 && 0 < |keys| < 128 && forall k :: k in keys ==> |k| == 33
    ensures Instructions(Print(m, keys)) ==
            [NumberInstruction(m)] + (KeyInstructions(keys) + ([NumberInstruction(|keys|)] + [Op(OP_CHECKMULTISIG)]))
  {
    var tail := PushNumber(|keys|) + [OP_CHECKMULTISIG];
    assert Instructions([OP_CHECKMULTISIG]) == [Op(OP_CHECKMULTISIG)];
    hide Instructions, KeyInstructions, PushKeys, PushNumber, NumberInstruction;
    ReadNumber(m, PushKeys(keys) + tail);
    ReadKeys(keys, tail);
    ReadNumber(|keys|, [OP_CHECKMULTISIG]);
  }

  lemma {:induction false} KeysConcat(validKey: Bytes -> bool, a: seq<Instruction>, b: seq<Instruction>)
    ensures KeysOf(validKey, a + b) == KeysOf(validKey, a) + KeysOf(validKey, b)
  {
    if a == [] {
      assert a + b == b;
    } else {
      assert (a + b)[0] == a[0] && (a + b)[1..] == a[1..] + b;
      KeysConcat(validKey, a[1..], b);
      var here := if IsKey(validKey, a[0]) then [a[0].data] else [];
      assert here + (KeysOf(validKey, a[1..]) + KeysOf(validKey, b)) ==
             here + KeysOf(validKey, a[1..]) + KeysOf(validKey, b);
    }
  }

  lemma {:induction false} KeysOfKeys(validKey: Bytes -> bool, keys: seq<Bytes>)
    requires forall k :: k in keys ==> |k| == 33 && validKey(k)
    ensures KeysOf(validKey, KeyInstructions(keys)) == keys
  {
    if keys != [] {
      assert keys[0] in keys;
      KeysOfKeys(validKey, keys[1..]);
      assert KeyInstructions(keys)[1..] == KeyInstructions(keys[1..]);
    }
  }

  lemma NumbersAreNoKeys(validKey: Bytes -> bool, n: nat)
    requires 0 < n < 128
    ensures KeysOf(validKey, [NumberInstruction(n)]) == []
  {
    assert [NumberInstruction(n)][1..] == [];
  }

  lemma KeysOfPrinted(validKey: Bytes -> bool, m: nat, keys: seq<Bytes>, rest: seq<Instruction>)
    requires Multisig(validKey, m, keys) && KeysOf(validKey, rest) == []
    ensures KeysOf(validKey, [NumberInstruction(m)] + (KeyInstructions(keys) + rest)) == keys
  {
    NumbersAreNoKeys(validKey, m);
    KeysOfKeys(validKey, keys);
    hide KeysOf, KeyInstructions, NumberInstruction;
    KeysConcat(validKey, KeyInstructions(keys), rest);
    assert keys + [] == keys;
    KeysConcat(validKey, [NumberInstruction(m)], KeyInstructions(keys) + rest);
    assert [] + keys == keys;
  }

  lemma TailHasNoKeys(validKey: Bytes -> bool, n: nat)
    requires 0 < n < 128
    ensures KeysOf(validKey, [NumberInstruction(n)] + [Op(OP_CHECKMULTISIG)]) == []
  {
    var last := [Op(OP_CHECKMULTISIG)];
    assert last[1..] == [] && KeysOf(validKey, last) == [];
    NumbersAreNoKeys(validKey, n);
    KeysConcat(validKey, [NumberInstruction(n)], last);
  }

  /** Byte-level parsing inverts the printer: the keys in script order, and the threshold up to 16. */
  lemma {:induction false} ParseInvertsPrint(validKey: Bytes -> bool, m: nat, keys: seq<Bytes>)
    requires Multisig(validKey, m, keys)
    ensures ScriptKeys(validKey, Print(m, keys)) == keys
    ensures Threshold(Print(m, keys)) == if m <= 16 then Some(m) else None
  {
    hide Instructions, KeyInstructions, NumberInstruction, PushKeys, KeysOf;
    ReadPrinted(m, keys);
    TailHasNoKeys(validKey, |keys|);
    KeysOfPrinted(validKey, m, keys, [NumberInstruction(|keys|)] + [Op(OP_CHECKMULTISIG)]);
    assert Print(m, keys)[0] == PushNumber(m)[0];
  }

  // ------------------------------------------------------------------
  // The script machine
  // ------------------------------------------------------------------

  type Verify = (Bytes, Bytes) -> bool

  /**
   The two-pointer loop of `OP_CHECKMULTISIG`, from the top of the stack down: a
   signature that matches the current key uses it up, one that does not skips it.
   */
  function TwoPointer(verify: Verify, keys: seq<Bytes>, sigs: seq<Bytes>): bool {
    if sigs == [] then true
    else if |sigs| > |keys| then false
    else
      var fewer := keys[..|keys| - 1];
      if verify(keys[|keys| - 1], sigs[|sigs| - 1])
      then TwoPointer(verify, fewer, sigs[..|sigs| - 1])
      else TwoPointer(verify, fewer, sigs)
  }

  /** Each signature under a key of its own, in the same order. */
  ghost predicate Assignment(verify: Verify, keys: seq<Bytes>, sigs: seq<Bytes>, at: seq<nat>) {
    && |at| == |sigs|
    && (forall i :: 0 <= i < |at| ==> at[i] < |keys| && verify(keys[at[i]], sigs[i]))
    && (forall i, j :: 0 <= i < j < |at| ==> at[i] < at[j])
  }

  lemma {:induction false} IncreasingFits(at: seq<nat>, n: nat)
    requires forall i :: 0 <= i < |at| ==> at[i] < n
    requires forall i, j :: 0 <= i < j < |at| ==> at[i] < at[j]
    ensures |at| <= n
  {
    if at != [] {
      IncreasingFits(at[..|at| - 1], at[|at| - 1]);
    }
  }

  /** The loop succeeds whenever an order-preserving assignment exists ... */
  lemma {:induction false} AssignmentSucceeds(verify: Verify, keys: seq<Bytes>, sigs: seq<Bytes>, at: seq<nat>)
    requires Assignment(verify, keys, sigs, at)
    ensures TwoPointer(verify, keys, sigs)
  {
    if sigs != [] {
      IncreasingFits(at, |keys|);
      var fewer, last := keys[..|keys| - 1], |sigs| - 1;
      if verify(keys[|keys| - 1], sigs[last]) {
        AssignmentSucceeds(verify, fewer, sigs[..last], at[..last]);
      } else {
        AssignmentSucceeds(verify, fewer, sigs, at);
      }
    }
  }

  /** ... and only then. */
  lemma {:induction false} SuccessHasAssignment(verify: Verify, keys: seq<Bytes>, sigs: seq<Bytes>)
    returns (at: seq<nat>)
    requires TwoPointer(verify, keys, sigs)
    ensures Assignment(verify, keys, sigs, at)
  {
    if sigs == [] {
      at := [];
    } else {
      var fewer, last := keys[..|keys| - 1], |sigs| - 1;
      if verify(keys[|keys| - 1], sigs[last]) {
        at := SuccessHasAssignment(verify, fewer, sigs[..last]);
        at := at + [|keys| - 1];
      } else {
        at := SuccessHasAssignment(verify, fewer, sigs);
      }
    }
  }

  /** Small script numbers. */
  function Number(b: Bytes): Option<nat> {
    if b == [] then Some(0) else if |b| == 1 && 0 < b[0] < 128 then Some(b[0]) else None
  }

  /** Pops a count and that many items; the items come back bottom first. */
  function PopCounted(stack: seq<Bytes>, limit: nat): Option<(seq<Bytes>, seq<Bytes>)> {
    if stack == [] then None
    else
      match Number(stack[|stack| - 1])
      case None => None
      case Some(n) =>
        if n > limit || n > |stack| - 1 then None
        else Some((stack[|stack| - 1 - n..|stack| - 1], stack[..|stack| - 1 - n]))
  }

  /** Pops the keys, the signatures and the dummy; pushes the outcome. `None` is script failure. */
  function CheckMultisig(verify: Verify, stack: seq<Bytes>): Option<seq<Bytes>> {
    match PopCounted(stack, MAX_KEYS)
    case None => None
    case Some((keys, below)) =>
      match PopCounted(below, |keys|)
      case None => None
      case Some((sigs, rest)) =>
        if rest == [] || rest[|rest| - 1] != [] then None
        else Some(rest[..|rest| - 1] + [if TwoPointer(verify, keys, sigs) then [1] else []])
  }

  function Execute(verify: Verify, code: seq<Instruction>, stack: seq<Bytes>): Option<seq<Bytes>> {
    if code == [] then Some(stack)
    else
      match code[0]
      case PushBytes(data) => Execute(verify, code[1..], stack + [data])
      case EarlyEnd => None
      case Op(op) =>
        if 0x51 <= op <= 0x60 then Execute(verify, code[1..], stack + [[op - 0x50]])
        else if op == OP_CHECKMULTISIG then
          match CheckMultisig(verify, stack)
          case None => None
          case Some(next) => Execute(verify, code[1..], next)
        else None
  }

  /** The P2WSH verdict on a witness: its last item run on the others leaves exactly one true item. */
  predicate Accepts(verify: Verify, items: seq<Bytes>) {
    && items != []
    && Execute(verify, Instructions(items[|items| - 1]), items[..|items| - 1]) == Some([[1]])
  }

  lemma {:induction false} ExecuteKeys(verify: Verify, keys: seq<Bytes>, rest: seq<Instruction>, stack: seq<Bytes>)
    ensures Execute(verify, KeyInstructions(keys) + rest, stack) == Execute(verify, rest, stack + keys)
  {
    if keys == [] {
      assert KeyInstructions(keys) + rest == rest && stack + keys == stack;
    } else {
      assert (KeyInstructions(keys) + rest)[1..] == KeyInstructions(keys[1..]) + rest;
      ExecuteKeys(verify, keys[1..], rest, stack + [keys[0]]);
      assert stack + [keys[0]] + keys[1..] == stack + keys;
    }
  }

  lemma ExecuteNumber(verify: Verify, n: nat, rest: seq<Instruction>, stack: seq<Bytes>)
    requires 0 < n < 128
    ensures Execute(verify, [NumberInstruction(n)] + rest, stack) == Execute(verify, rest, stack + [[n]])
  {
    assert ([NumberInstruction(n)] + rest)[1..] == rest;
  }

  /** A printed script hands `OP_CHECKMULTISIG` its threshold, keys and key count on top of the witness items. */
  lemma ExecutePrinted(verify: Verify, m: nat, keys: seq<Bytes>, stack: seq<Bytes>)
    requires 0 < m < 128 && 0 < |keys| < 128 && forall k :: k in keys ==> |k| == 33
    ensures Execute(verify, Instructions(Print(m, keys)), stack) ==
            CheckMultisig(verify, stack + [[m]] + keys + [[|keys|]])
  {
    var last := [Op(OP_CHECKMULTISIG)];
    var tail := [NumberInstruction(|keys|)] + last;
    ReadPrinted(m, keys);
    hide Instructions, KeyInstructions, NumberInstruction;
    ExecuteNumber(verify, m, KeyInstructions(keys) + tail, stack);
    ExecuteKeys(verify, keys, tail, stack + [[m]]);
    ExecuteNumber(verify, |keys|, last, stack + [[m]] + keys);
    assert last[1..] == [];
    hide CheckMultisig;
  }

  lemma PopExactly(below: seq<Bytes>, items: seq<Bytes>, limit: nat)
    requires 0 < |items| <= limit && |items| < 128
    ensures PopCounted(below + items + [[|items|]], limit) == Some((items, below))
  {
    var stack := below + items + [[|items|]];
    assert stack[|stack| - 1 - |items|..|stack| - 1] == items;
    assert stack[..|stack| - 1 - |items|] == below;
  }

  /** `OP_CHECKMULTISIG` on a stack of witness items, threshold, keys and key count. */
  lemma CheckItems(verify: Verify, m: nat, keys: seq<Bytes>, below: seq<Bytes>, sigs: seq<Bytes>)
    requires 0 < m == |sigs| <= |keys| <= MAX_KEYS
    ensures CheckMultisig(verify, below + sigs + [[m]] + keys + [[|keys|]]) ==
            if below == [] || below[|below| - 1] != [] then None
            else Some(below[..|below| - 1] + [if TwoPointer(verify, keys, sigs) then [1] else []])
  {
    PopExactly(below + sigs + [[m]], keys, MAX_KEYS);
    PopExactly(below, sigs, |keys|);
    hide PopCounted, TwoPointer;
  }

  lemma CheckTooFew(verify: Verify, m: nat, keys: seq<Bytes>, items: seq<Bytes>)
    requires |items| < m <= |keys| <= MAX_KEYS
    ensures CheckMultisig(verify, items + [[m]] + keys + [[|keys|]]) == None
  {
    PopExactly(items + [[m]], keys, MAX_KEYS);
    assert (items + [[m]])[|items|] == [m];
    assert PopCounted(items + [[m]], |keys|) == None;
    hide PopCounted, TwoPointer;
  }

  lemma CheckAll(verify: Verify, m: nat, keys: seq<Bytes>, sigs: seq<Bytes>)
    requires 0 < m <= |keys| <= MAX_KEYS
    requires forall s :: s in sigs ==> s != []
    ensures CheckMultisig(verify, [[]] + sigs + [[m]] + keys + [[|keys|]]) == Some([[1]]) <==>
            |sigs| == m && TwoPointer(verify, keys, sigs)
  {
    hide CheckMultisig, TwoPointer;
    var items := [[]] + sigs;
    if |items| < m {
      CheckTooFew(verify, m, keys, items);
    } else {
      var cut := |items| - m;
      var below, popped := items[..cut], items[cut..];
      assert items == below + popped;
      CheckItems(verify, m, keys, below, popped);
      if cut == 1 {
        assert popped == sigs && below == [[]] && below[..0] == [];
        var outcome: Bytes := if TwoPointer(verify, keys, sigs) then [1] else [];
        assert [] + [outcome] == [outcome];
        assert [outcome][0] == outcome;
      } else if cut > 1 {
        assert below[|below| - 1] == sigs[cut - 2] && sigs[cut - 2] in sigs;
      }
    }
  }

  /** What a printed script makes of the witness `[dummy] + sigs + [script]`. */
  lemma {:induction false} PrintedAccepts(verify: Verify, m: nat, keys: seq<Bytes>, sigs: seq<Bytes>)
    requires 0 < m <= |keys| <= MAX_KEYS && forall k :: k in keys ==> |k| == 33
    requires forall s :: s in sigs ==> s != []
    ensures Accepts(verify, [[]] + sigs + [Print(m, keys)]) <==> |sigs| == m && TwoPointer(verify, keys, sigs)
  {
    hide Execute, Instructions, CheckMultisig, TwoPointer, Print;
    var items, script := [[]] + sigs, Print(m, keys);
    assert (items + [script])[..|items|] == items && (items + [script])[|items|] == script;
    ExecutePrinted(verify, m, keys, items);
    CheckAll(verify, m, keys, sigs);
  }
}
