/** Reading a descriptor text back: everything the builder was given can be recovered from what it wrote. */
module DescriptorReading {
  import opened Results
  import opened Descriptor

  // ------------------------------------------------------------------
  // Splitting text
  // ------------------------------------------------------------------

  function Before(s: string, c: char): string {
    if s == "" || s[0] == c then "" else [s[0]] + Before(s[1..], c)
  }

  function After(s: string, c: char): (r: string)
    ensures s != "" ==> |r| < |s|
    ensures |r| <= |s|
  {
    if s == "" then "" else if s[0] == c then s[1..] else After(s[1..], c)
  }

  function SplitOn(s: string, c: char): (r: seq<string>)
    ensures r != []
    decreases |s|
  {
    if c !in s then [s] else [Before(s, c)] + SplitOn(After(s, c), c)
  }

  lemma {:induction false} CutAtFirst(a: string, c: char, b: string)
    requires c !in a
    ensures Before(a + [c] + b, c) == a && After(a + [c] + b, c) == b
  {
    var s := a + [c] + b;
    if a == "" {
      assert s == [c] + b;
    } else {
      assert s[1..] == a[1..] + [c] + b;
      CutAtFirst(a[1..], c, b);
    }
  }

  lemma {:induction false} SplitJoined(parts: seq<string>, c: char)
    requires parts != [] && forall p :: p in parts ==> c !in p
    ensures SplitOn(Join(parts, [c]), c) == parts
  {
    var s := Join(parts, [c]);
    assert parts[0] in parts;
    if |parts| > 1 {
      var rest := Join(parts[1..], [c]);
      assert s == parts[0] + [c] + rest;
      assert s[|parts[0]|] == c;
      CutAtFirst(parts[0], c, rest);
      SplitJoined(parts[1..], c);
    }
  }

  // ------------------------------------------------------------------
  // Reading numbers, paths and keys
  // ------------------------------------------------------------------

  function DigitValue(c: char): nat {
    if '0' <= c <= '9' then (c - '0') as nat else 0
  }

  function ReadDecimal(s: string): nat {
    if s == "" then 0 else 10 * ReadDecimal(s[..|s| - 1]) + DigitValue(s[|s| - 1])
  }

  lemma DigitReads(d: nat)
    requires d < 10
    ensures DigitValue(Digit(d)) == d && '0' <= Digit(d) <= '9'
  {
  }

  lemma {:induction false} DecimalReads(n: nat)
    ensures ReadDecimal(Decimal(n)) == n
    ensures Decimal(n) != "" && forall c :: c in Decimal(n) ==> '0' <= c <= '9'
  {
    DigitReads(n % 10);
    if n < 10 {
      assert Decimal(n)[..0] == "";
    } else {
      DecimalReads(n / 10);
      assert Decimal(n)[..|Decimal(n)| - 1] == Decimal(n / 10);
    }
  }

  function ReadChild(s: string): ChildNumber {
    if s != "" && s[|s| - 1] == 'h' then Hardened(ReadDecimal(s[..|s| - 1])) else Normal(ReadDecimal(s))
  }

  function ReadPath(parts: seq<string>): seq<ChildNumber> {
    if parts == [] then [] else [ReadChild(parts[0])] + ReadPath(parts[1..])
  }

  datatype KeyExpression = KeyExpression(fingerprint: string, path: seq<ChildNumber>, key: string)

  /** `[fingerprint/path]key`. */
  function ReadKey(s: string): Option<KeyExpression> {
    if s == "" || s[0] != '[' then None
    else
      var origin := SplitOn(Before(s[1..], ']'), '/');
      Some(KeyExpression(origin[0], ReadPath(origin[1..]), After(s[1..], ']')))
  }

  /** No mark a reader looks for occurs in key material. */
  ghost predicate Legible(e: KeyEntry) {
    && '/' !in e.fingerprint && ']' !in e.fingerprint && ',' !in e.fingerprint
    && ',' !in e.xpub && ',' !in e.publicKey
  }

  lemma ChildReads(cn: ChildNumber)
    ensures ReadChild(FormatChild(cn)) == cn
    ensures forall c :: c in FormatChild(cn) ==> '0' <= c <= '9' || c == 'h'
  {
    DecimalReads(cn.index);
    if cn.Hardened? {
      assert FormatChild(cn)[..|FormatChild(cn)| - 1] == Decimal(cn.index);
    } else {
      var s := FormatChild(cn);
      assert s[|s| - 1] in s;
    }
  }

  lemma {:induction false} PathReads(path: seq<ChildNumber>)
    ensures ReadPath(FormatPath(path)) == path
    ensures forall p, c :: p in FormatPath(path) && c in p ==> '0' <= c <= '9' || c == 'h'
  {
    if path != [] {
      ChildReads(path[0]);
      PathReads(path[1..]);
      assert FormatPath(path)[1..] == FormatPath(path[1..]);
    }
  }

  lemma {:induction false} JoinedChars(parts: seq<string>, c: char, mark: char)
    requires c != mark && forall p :: p in parts ==> mark !in p
    ensures mark !in Join(parts, [c])
  {
    if parts != [] {
      assert parts[0] in parts;
      JoinedChars(parts[1..], c, mark);
    }
  }

  lemma OriginIsJoined(fingerprint: string, path: seq<ChildNumber>)
    ensures FormatOrigin(fingerprint, path) == Join([fingerprint] + FormatPath(path), "/")
  {
    assert ([fingerprint] + FormatPath(path))[1..] == FormatPath(path);
  }

  lemma OriginReads(e: KeyEntry, mark: char)
    requires Legible(e) && (mark == ']' || mark == ',')
    ensures SplitOn(FormatOrigin(e.fingerprint, e.path), '/') == [e.fingerprint] + FormatPath(e.path)
    ensures mark !in FormatOrigin(e.fingerprint, e.path)
  {
    var parts := [e.fingerprint] + FormatPath(e.path);
    OriginIsJoined(e.fingerprint, e.path);
    PathReads(e.path);
    forall p | p in parts
      ensures '/' !in p && mark !in p
    {
    }
    SplitJoined(parts, '/');
    JoinedChars(parts, '/', mark);
  }

  /** The key a mode writes after the origin. */
  function KeyText(mode: KeyMode, e: KeyEntry): string {
    match mode case Fixed => e.publicKey case Ranged => e.xpub + "/0/*"
  }

  /** A formatted key reads back as the entry's fingerprint, path and key. */
  lemma {:induction false} KeyReads(mode: KeyMode, e: KeyEntry)
    requires Legible(e)
    ensures ReadKey(FormatKey(mode, e)) == Some(KeyExpression(e.fingerprint, e.path, KeyText(mode, e)))
    ensures ',' !in FormatKey(mode, e)
  {
    hide SplitOn, FormatOrigin, FormatPath;
    var origin, s := FormatOrigin(e.fingerprint, e.path), FormatKey(mode, e);
    OriginReads(e, ']');
    OriginReads(e, ',');
    PathReads(e.path);
    assert s == "[" + (origin + "]" + KeyText(mode, e));
    assert s[1..] == origin + "]" + KeyText(mode, e);
    CutAtFirst(origin, ']', KeyText(mode, e));
    assert ([e.fingerprint] + FormatPath(e.path))[1..] == FormatPath(e.path);
  }

  // ------------------------------------------------------------------
  // Reading the whole text
  // ------------------------------------------------------------------

  const OPENING := "ct(slip77("
  const MIDDLE := ",elwsh(sortedmulti("
  const CLOSING := ")))"

  function BlindingKeyOf(text: string): string
    requires |OPENING| <= |text|
  {
    Before(text[|OPENING|..], ')')
  }

  /** From the threshold on, without the closing brackets. */
  function MultisigOf(text: string): string {
    if |text| < |OPENING| then ""
    else
      var rest := After(text[|OPENING|..], ')');
      if |rest| < |MIDDLE| + |CLOSING| then "" else rest[|MIDDLE|..|rest| - |CLOSING|]
  }

  function ThresholdOf(text: string): nat {
    ReadDecimal(Before(MultisigOf(text), ','))
  }

  function KeysOf(text: string): seq<string> {
    SplitOn(After(MultisigOf(text), ','), ',')
  }

  lemma TextReads(mbkHex: string, threshold: nat, stems: seq<string>, suffix: string)
    requires ')' !in mbkHex && stems != []
    requires forall k :: k in Suffixed(stems, suffix) ==> ',' !in k
    ensures var text := Text(mbkHex, threshold, stems, suffix);
            && |OPENING| <= |text| && BlindingKeyOf(text) == mbkHex
            && ThresholdOf(text) == threshold && KeysOf(text) == Suffixed(stems, suffix)
  {
    var keys := Join(Suffixed(stems, suffix), ",");
    var inner := Decimal(threshold) + "," + keys;
    var tail := MIDDLE + inner + CLOSING;
    var text := Text(mbkHex, threshold, stems, suffix);
    hide Join, Suffixed, Decimal, SplitOn, ReadDecimal, Before, After;
    assert text == OPENING + (mbkHex + ")" + tail);
    assert text[|OPENING|..] == mbkHex + ")" + tail;
    CutAtFirst(mbkHex, ')', tail);
    assert tail[|MIDDLE|..|tail| - |CLOSING|] == inner;
    DecimalReads(threshold);
    CutAtFirst(Decimal(threshold), ',', keys);
    SuffixedLength(stems, suffix);
    SplitJoined(Suffixed(stems, suffix), ',');
  }

  /**
   A built descriptor text reads back as what the builder holds: the blinding key, the
   threshold, and one key expression per signer, in the order of their ids, with the
   signer's fingerprint, derivation path and key.
   */
  lemma {:induction false} BuiltTextReads(mbkHex: string, threshold: nat, mode: KeyMode,
                                          entries: map<SignerId, KeyEntry>)
    returns (ids: seq<SignerId>)
    requires entries != map[] && ')' !in mbkHex && forall id :: id in entries ==> Legible(entries[id])
    ensures BuiltText(mbkHex, threshold, mode, entries).Success?
    ensures var text := BuiltText(mbkHex, threshold, mode, entries).value;
            && |OPENING| <= |text| && BlindingKeyOf(text) == mbkHex && ThresholdOf(text) == threshold
            && |KeysOf(text)| == |ids| == |entries| && Increasing(ids)
            && (forall id :: id in ids <==> id in entries)
            && forall k :: 0 <= k < |ids| ==>
                 && ids[k] in entries
                 && ReadKey(KeysOf(text)[k]) ==
                    Some(KeyExpression(entries[ids[k]].fingerprint, entries[ids[k]].path,
                                       KeyText(mode, entries[ids[k]])))
  {
    hide Text, Suffixed, Stems, FormatKey, ReadKey, KeysOf, ThresholdOf, BlindingKeyOf, InOrder;
    ids := InOrderIs(entries);
    var es := InOrder(entries);
    var stems, suffix := Stems(mode, es), KeySuffix(mode);
    FormattedKeys(mode, es);
    forall k | 0 <= k < |es|
      ensures ',' !in Suffixed(stems, suffix)[k]
      ensures ReadKey(Suffixed(stems, suffix)[k]) ==
              Some(KeyExpression(entries[ids[k]].fingerprint, entries[ids[k]].path, KeyText(mode, entries[ids[k]])))
    {
      KeyReads(mode, es[k]);
    }
    TextReads(mbkHex, threshold, stems, suffix);
  }
}
