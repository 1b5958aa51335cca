/** Descriptor text: who signs, in which order, and the rewrite to multipath form. */
module Descriptor {
  import opened Results

  datatype ChildNumber = Normal(index: nat) | Hardened(index: nat)

  datatype KeyMode = Fixed | Ranged

  /** `xpub` and `publicKey` are the library's text forms, `fingerprint` is eight hex digits. */
  datatype KeyEntry = KeyEntry(fingerprint: string, path: seq<ChildNumber>, xpub: string, publicKey: string)

  function Digit(d: nat): char
    requires d < 10
  {
    "0123456789"[d]
  }

  function Decimal(n: nat): string {
    if n < 10 then [Digit(n)] else Decimal(n / 10) + [Digit(n % 10)]
  }

  function Join(parts: seq<string>, sep: string): string {
    if parts == [] then "" else if |parts| == 1 then parts[0] else parts[0] + sep + Join(parts[1..], sep)
  }

  function FormatChild(cn: ChildNumber): string {
    match cn case Normal(i) => Decimal(i) case Hardened(i) => Decimal(i) + "h"
  }

  function FormatPath(path: seq<ChildNumber>): seq<string> {
    if path == [] then [] else [FormatChild(path[0])] + FormatPath(path[1..])
  }

  function FormatOrigin(fingerprint: string, path: seq<ChildNumber>): string {
    if path == [] then fingerprint else fingerprint + "/" + Join(FormatPath(path), "/")
  }

  const RECEIVE := "/0/*"
  const MULTIPATH := "/<0;1>/*"

  /** A key without its derivation suffix. */
  function Stem(mode: KeyMode, e: KeyEntry): string {
    "[" + FormatOrigin(e.fingerprint, e.path) + "]" + match mode case Fixed => e.publicKey case Ranged => e.xpub
  }

  function FormatKey(mode: KeyMode, e: KeyEntry): string {
    Stem(mode, e) + if mode.Ranged? then RECEIVE else ""
  }

  function Suffixed(stems: seq<string>, suffix: string): seq<string> {
    if stems == [] then [] else [stems[0] + suffix] + Suffixed(stems[1..], suffix)
  }

  /** `ct(slip77(..),elwsh(sortedmulti(m,..)))` with the same suffix on every key. */
  function Text(mbkHex: string, threshold: nat, stems: seq<string>, suffix: string): string {
    "ct(slip77(" + mbkHex + "),elwsh(sortedmulti(" + Decimal(threshold) + ","
    + Join(Suffixed(stems, suffix), ",") + ")))"
  }

  // ------------------------------------------------------------------
  // The rewrite
  // ------------------------------------------------------------------

  predicate StartsWith(s: string, p: string) {
    |p| <= |s| && s[..|p|] == p
  }

  lemma StartsAt(s: string, p: string, k: nat)
    requires k < |p|
    ensures StartsWith(s, p) ==> k < |s| && s[k] == p[k]
  {
    if StartsWith(s, p) {
      assert s[..|p|][k] == s[k];
    }
  }

  /** Leftmost, non-overlapping replacement of every occurrence. */
  function ReplaceAll(s: string, from: string, to: string): string
    requires from != ""
    decreases |s|
  {
    if s == "" then ""
    else if StartsWith(s, from) then to + ReplaceAll(s[|from|..], from, to)
    else [s[0]] + ReplaceAll(s[1..], from, to)
  }

  /** What precedes the checksum mark. */
  function BodyOf(s: string): string {
    if s == "" || s[0] == '#' then "" else [s[0]] + BodyOf(s[1..])
  }

  function ToMultipath(s: string): string {
    ReplaceAll(BodyOf(s), RECEIVE, MULTIPATH)
  }

  /** The single-path descriptor of branch 0 of every `<0;1>`. */
  function Branch0(s: string): string {
    ReplaceAll(s, "<0;1>", "0")
  }

  /** No wildcard, checksum mark or branch bracket: what key material, numbers and punctuation look like. */
  ghost predicate Plain(s: string) {
    '*' !in s && '#' !in s && '<' !in s
  }

  lemma {:induction false} BodyStops(a: string, b: string)
    requires '#' !in a && (b == "" || b[0] == '#')
    ensures BodyOf(a + b) == a
  {
    if a == "" {
      assert a + b == b;
    } else {
      assert (a + b)[1..] == a[1..] + b;
      BodyStops(a[1..], b);
    }
  }

  /** Text without a wildcard is left alone. */
  lemma {:induction false} ReplacePlain(s: string)
    requires '*' !in s
    ensures ReplaceAll(s, RECEIVE, MULTIPATH) == s
  {
    if s != "" {
      StartsAt(s, RECEIVE, 3);
      assert |s| > 3 ==> s[3] in s;
      assert forall c :: c in s[1..] ==> c in s;
      ReplacePlain(s[1..]);
    }
  }

  /** The first wildcard ends `p` and the receive suffix: exactly it is rewritten, the rest follows independently. */
  lemma {:induction false} ReplaceFirstKey(p: string, rest: string)
    requires '*' !in p
    ensures ReplaceAll(p + RECEIVE + rest, RECEIVE, MULTIPATH) == p + MULTIPATH + ReplaceAll(rest, RECEIVE, MULTIPATH)
  {
    var s := p + RECEIVE + rest;
    if p == "" {
      assert s[..4] == RECEIVE && s[4..] == rest;
    } else {
      StartsAt(s, RECEIVE, 3);
      assert s[3] == if |p| > 3 then p[3] else RECEIVE[3 - |p|];
      assert s[1..] == p[1..] + RECEIVE + rest;
      ReplaceFirstKey(p[1..], rest);
      assert [p[0]] + (p[1..] + MULTIPATH + ReplaceAll(rest, RECEIVE, MULTIPATH)) ==
             p + MULTIPATH + ReplaceAll(rest, RECEIVE, MULTIPATH);
    }
  }

  /** A whole key list: one rewrite per key, whatever comes before the first and after the last. */
  lemma {:induction false} ReplaceKeys(head: string, stems: seq<string>, tail: string)
    requires '*' !in head && '*' !in tail && forall s :: s in stems ==> '*' !in s
    ensures ReplaceAll(head + Join(Suffixed(stems, RECEIVE), ",") + tail, RECEIVE, MULTIPATH) ==
            head + Join(Suffixed(stems, MULTIPATH), ",") + tail
    decreases stems
  {
    hide ReplaceAll, Join, Suffixed;
    if stems == [] {
      NothingJoined(RECEIVE);
      NothingJoined(MULTIPATH);
      assert head + "" + tail == head + tail;
      ReplacePlain(head + tail);
    } else {
      assert stems[0] in stems;
      JoinSplit(stems, RECEIVE);
      JoinSplit(stems, MULTIPATH);
      if |stems| == 1 {
        ReplacePlain(tail);
        Regroup(head, stems[0], RECEIVE, "", tail);
        Regroup(head, stems[0], MULTIPATH, "", tail);
        ReplaceKey(head, stems[0], "", "", tail);
      } else {
        var others, rewritten := Join(Suffixed(stems[1..], RECEIVE), ","), Join(Suffixed(stems[1..], MULTIPATH), ",");
        ReplaceKeys(",", stems[1..], tail);
        ReplaceKey(head, stems[0], "," + others, "," + rewritten, tail);
        Comma(stems[0] + RECEIVE, others);
        Comma(stems[0] + MULTIPATH, rewritten);
      }
    }
  }

  lemma Comma(a: string, b: string)
    ensures a + "," + b == a + ("," + b)
  {
  }

  /** One key more in front of what is known to be rewritten. */
  lemma ReplaceKey(head: string, stem: string, others: string, rewritten: string, tail: string)
    requires '*' !in head && '*' !in stem
    requires ReplaceAll(others + tail, RECEIVE, MULTIPATH) == rewritten + tail
    ensures ReplaceAll(head + (stem + RECEIVE + others) + tail, RECEIVE, MULTIPATH) ==
            head + (stem + MULTIPATH + rewritten) + tail
  {
    hide ReplaceAll;
    ReplaceFirstKey(head + stem, others + tail);
    Regroup(head, stem, RECEIVE, others, tail);
    Regroup(head, stem, MULTIPATH, rewritten, tail);
  }

  lemma Regroup(head: string, stem: string, suffix: string, others: string, tail: string)
    ensures head + (stem + suffix + others) + tail == (head + stem) + suffix + (others + tail)
    ensures others == "" ==> stem + suffix + others == stem + suffix && others + tail == tail
  {
  }

  lemma NothingJoined(suffix: string)
    ensures Join(Suffixed([], suffix), ",") == ""
  {
  }

  lemma JoinSplit(stems: seq<string>, suffix: string)
    requires stems != []
    ensures Join(Suffixed(stems, suffix), ",") ==
            if |stems| == 1 then stems[0] + suffix
            else stems[0] + suffix + "," + Join(Suffixed(stems[1..], suffix), ",")
  {
    var keys := Suffixed(stems, suffix);
    assert keys[1..] == Suffixed(stems[1..], suffix);
    SuffixedLength(stems, suffix);
  }

  lemma {:induction false} SuffixedLength(stems: seq<string>, suffix: string)
    ensures |Suffixed(stems, suffix)| == |stems|
  {
    if stems != [] {
      SuffixedLength(stems[1..], suffix);
    }
  }

  lemma {:induction false} DecimalPlain(n: nat)
    ensures Plain(Decimal(n))
  {
    if n >= 10 {
      DecimalPlain(n / 10);
    }
  }

  /**
   The rewrite of a ranged descriptor, checksum or not, is the same descriptor
   with every key's receive suffix turned into the multipath one, once per key and
   nothing else.
   */
  lemma {:induction false} RangedRewrite(mbkHex: string, threshold: nat, stems: seq<string>, checksum: string)
    requires Plain(mbkHex) && forall s :: s in stems ==> Plain(s)
    requires checksum == "" || checksum[0] == '#'
    ensures ToMultipath(Text(mbkHex, threshold, stems, RECEIVE) + checksum) == Text(mbkHex, threshold, stems, MULTIPATH)
  {
    TextBody(mbkHex, threshold, stems, RECEIVE, checksum);
    var head := "ct(slip77(" + mbkHex + "),elwsh(sortedmulti(" + Decimal(threshold) + ",";
    DecimalPlain(threshold);
    ReplaceKeys(head, stems, ")))");
  }

  /** A fixed descriptor has no wildcard and only loses its checksum. */
  lemma {:induction false} FixedRewrite(mbkHex: string, threshold: nat, stems: seq<string>, checksum: string)
    requires Plain(mbkHex) && forall s :: s in stems ==> Plain(s)
    requires checksum == "" || checksum[0] == '#'
    ensures ToMultipath(Text(mbkHex, threshold, stems, "") + checksum) == Text(mbkHex, threshold, stems, "")
  {
    TextBody(mbkHex, threshold, stems, "", checksum);
    JoinChars(stems, "");
    DecimalPlain(threshold);
    ReplacePlain(Text(mbkHex, threshold, stems, ""));
  }

  lemma TextBody(mbkHex: string, threshold: nat, stems: seq<string>, suffix: string, checksum: string)
    requires Plain(mbkHex) && (forall s :: s in stems ==> Plain(s)) && '#' !in suffix
    requires checksum == "" || checksum[0] == '#'
    ensures BodyOf(Text(mbkHex, threshold, stems, suffix) + checksum) == Text(mbkHex, threshold, stems, suffix)
  {
    JoinChars(stems, suffix);
    DecimalPlain(threshold);
    BodyStops(Text(mbkHex, threshold, stems, suffix), checksum);
  }

  /** A key list holds no character its stems and suffix do not. */
  lemma {:induction false} JoinChars(stems: seq<string>, suffix: string)
    requires forall s :: s in stems ==> Plain(s)
    ensures forall c :: c in Join(Suffixed(stems, suffix), ",") && (c == '*' || c == '#' || c == '<') ==> c in suffix
  {
    if stems != [] {
      assert stems[0] in stems;
      JoinSplit(stems, suffix);
      JoinChars(stems[1..], suffix);
    }
  }

  /** Taking branch 0 of the rewrite gives back the checksum-free body, for any text without brackets. */
  lemma {:induction false} BranchZeroUndoes(body: string)
    requires '<' !in body
    ensures Branch0(ReplaceAll(body, RECEIVE, MULTIPATH)) == body
  {
    if body != "" {
      if StartsWith(body, RECEIVE) {
        var rest := ReplaceAll(body[4..], RECEIVE, MULTIPATH);
        assert forall c :: c in body[4..] ==> c in body;
        BranchZeroUndoes(body[4..]);
        BranchOfMultipath(rest);
        assert body == RECEIVE + body[4..];
      } else {
        var rest := ReplaceAll(body[1..], RECEIVE, MULTIPATH);
        assert forall c :: c in body[1..] ==> c in body;
        BranchZeroUndoes(body[1..]);
        BranchOfChar(body[0], rest);
        assert body == [body[0]] + body[1..];
      }
    }
  }

  lemma BranchOfChar(c: char, rest: string)
    requires c != '<'
    ensures Branch0([c] + rest) == [c] + Branch0(rest)
  {
    var s := [c] + rest;
    assert s[1..] == rest;
    StartsAt(s, "<0;1>", 0);
  }

  lemma BranchOfMultipath(rest: string)
    ensures Branch0(MULTIPATH + rest) == RECEIVE + Branch0(rest)
  {
    hide Branch0;
    var afterBranch := "/*" + rest;
    assert MULTIPATH + rest == ['/'] + ("<0;1>" + afterBranch);
    BranchOfChar('/', "<0;1>" + afterBranch);
    BranchOfBracket(afterBranch);
    assert afterBranch == ['/'] + (['*'] + rest);
    BranchOfChar('/', ['*'] + rest);
    BranchOfChar('*', rest);
    assert RECEIVE + Branch0(rest) == ['/'] + ("0" + (['/'] + (['*'] + Branch0(rest))));
  }

  lemma BranchOfBracket(rest: string)
    ensures Branch0("<0;1>" + rest) == "0" + Branch0(rest)
  {
    var bracket := "<0;1>" + rest;
    assert bracket[..5] == "<0;1>" && bracket[5..] == rest;
  }

  // ------------------------------------------------------------------
  // The builder
  // ------------------------------------------------------------------

  type SignerId = nat

  datatype DescriptorError = DuplicateKey | NoSigners

  class CtDescriptorBuilder {
    var entries: map<SignerId, KeyEntry>

    constructor ()
      ensures entries == map[]
    {
      entries := map[];
    }

    /** A duplicate id is reported, but by then the new entry has displaced the old one. */
    method AddSigner(id: SignerId, entry: KeyEntry) returns (r: Result<(), DescriptorError>)
      modifies this
      ensures entries == old(entries)[id := entry]
      ensures r == if id in old(entries) then Failure(DuplicateKey) else Success(())
    {
      var taken := id in entries;
      entries := entries[id := entry];
      return if taken then Failure(DuplicateKey) else Success(());
    }
  }

  function AddAll(entries: map<SignerId, KeyEntry>, adds: seq<(SignerId, KeyEntry)>): map<SignerId, KeyEntry> {
    if adds == [] then entries else AddAll(entries, adds[..|adds| - 1])[adds[|adds| - 1].0 := adds[|adds| - 1].1]
  }

  ghost predicate DistinctIds(adds: seq<(SignerId, KeyEntry)>) {
    forall i, j :: 0 <= i < j < |adds| ==> adds[i].0 != adds[j].0
  }

  lemma {:induction false} AddedAre(adds: seq<(SignerId, KeyEntry)>, id: SignerId, e: KeyEntry)
    requires DistinctIds(adds)
    ensures id in AddAll(map[], adds) && AddAll(map[], adds)[id] == e <==> (id, e) in adds
  {
    if adds != [] {
      var init, last := adds[..|adds| - 1], adds[|adds| - 1];
      AddedAre(init, id, e);
      assert forall a :: a in adds <==> a in init || a == last;
      assert forall i :: 0 <= i < |init| ==> init[i] == adds[i] && init[i].0 != last.0;
    }
  }

  /** The keys a descriptor is built from do not depend on the order in which distinct signers were added. */
  lemma {:induction false} InsertionOrderDoesNotMatter(a: seq<(SignerId, KeyEntry)>, b: seq<(SignerId, KeyEntry)>)
    requires DistinctIds(a) && DistinctIds(b) && forall x :: x in a <==> x in b
    ensures AddAll(map[], a) == AddAll(map[], b)
  {
    var m, n := AddAll(map[], a), AddAll(map[], b);
    forall id | id in m
      ensures id in n && n[id] == m[id]
    {
      AddedAre(a, id, m[id]);
      AddedAre(b, id, m[id]);
    }
    forall id | id in n
      ensures id in m
    {
      AddedAre(a, id, n[id]);
      AddedAre(b, id, n[id]);
    }
  }

  /** Entries in the order of their ids. */
  ghost function InOrder(entries: map<SignerId, KeyEntry>): seq<KeyEntry>
    decreases |entries|
  {
    if entries == map[] then []
    else
      var id := Smallest(entries.Keys);
      [entries[id]] + InOrder(entries - {id})
  }

  ghost function Smallest(s: set<SignerId>): (x: SignerId)
    requires s != {}
    ensures x in s && forall y :: y in s ==> x <= y
  {
    var x :| x in s;
    if s == {x} then x
    else
      var y := Smallest(s - {x});
      assert forall z :: z in s ==> z == x || z in s - {x};
      if x < y then x else y
  }

  ghost predicate Increasing(ids: seq<SignerId>) {
    forall i, j :: 0 <= i < j < |ids| ==> ids[i] < ids[j]
  }

  /** `es` are the entries at `ids`, in that order. */
  ghost predicate ListedBy(entries: map<SignerId, KeyEntry>, ids: seq<SignerId>, es: seq<KeyEntry>) {
    |es| == |ids| && forall k :: 0 <= k < |ids| ==> ids[k] in entries && es[k] == entries[ids[k]]
  }

  /** Every signer's entry is listed once, by increasing id. */
  lemma {:induction false} InOrderIs(entries: map<SignerId, KeyEntry>) returns (ids: seq<SignerId>)
    ensures |ids| == |entries| && Increasing(ids)
    ensures forall id :: id in ids <==> id in entries
    ensures ListedBy(entries, ids, InOrder(entries))
    decreases |entries|
  {
    if entries == map[] {
      ids := [];
    } else {
      var id := Smallest(entries.Keys);
      var rest := InOrderIs(entries - {id});
      ids := [id] + rest;
      SmallestFirst(entries, id, rest);
      ListedFirst(entries, id, rest, InOrder(entries - {id}));
    }
  }

  lemma SmallestFirst(entries: map<SignerId, KeyEntry>, id: SignerId, rest: seq<SignerId>)
    requires id in entries && forall x :: x in entries ==> id <= x
    requires |rest| == |entries - {id}| && Increasing(rest) && forall x :: x in rest <==> x in entries - {id}
    ensures |[id] + rest| == |entries| && Increasing([id] + rest)
    ensures forall x :: x in [id] + rest <==> x in entries
  {
    assert (entries - {id}).Keys == entries.Keys - {id};
    forall j | 0 <= j < |rest|
      ensures id < rest[j]
    {
      assert rest[j] in rest;
    }
  }

  lemma ListedFirst(entries: map<SignerId, KeyEntry>, id: SignerId, rest: seq<SignerId>, es: seq<KeyEntry>)
    requires id in entries && ListedBy(entries - {id}, rest, es)
    ensures ListedBy(entries, [id] + rest, [entries[id]] + es)
  {
  }

  function Stems(mode: KeyMode, es: seq<KeyEntry>): seq<string> {
    if es == [] then [] else [Stem(mode, es[0])] + Stems(mode, es[1..])
  }

  function KeySuffix(mode: KeyMode): string {
    if mode.Ranged? then RECEIVE else ""
  }

  /** The text the builder hands to the descriptor parser. */
  ghost function BuiltText(mbkHex: string, threshold: nat, mode: KeyMode, entries: map<SignerId, KeyEntry>):
    Result<string, DescriptorError>
  {
    if entries == map[] then Failure(NoSigners)
    else Success(Text(mbkHex, threshold, Stems(mode, InOrder(entries)), KeySuffix(mode)))
  }

  lemma {:induction false} FormattedKeys(mode: KeyMode, es: seq<KeyEntry>)
    ensures |Stems(mode, es)| == |es| == |Suffixed(Stems(mode, es), KeySuffix(mode))|
    ensures forall k :: 0 <= k < |es| ==> Suffixed(Stems(mode, es), KeySuffix(mode))[k] == FormatKey(mode, es[k])
  {
    hide Stem;
    if es != [] {
      FormattedKeys(mode, es[1..]);
      var stems, suffix := Stems(mode, es), KeySuffix(mode);
      assert stems[1..] == Stems(mode, es[1..]);
      assert Suffixed(stems, suffix)[0] == FormatKey(mode, es[0]);
      assert Suffixed(stems, suffix)[1..] == Suffixed(stems[1..], suffix);
    }
  }

  ghost predicate PlainEntry(e: KeyEntry) {
    Plain(e.fingerprint) && Plain(e.xpub) && Plain(e.publicKey)
  }

  lemma {:induction false} PathPlain(path: seq<ChildNumber>)
    ensures Plain(Join(FormatPath(path), "/"))
  {
    if path != [] {
      PathPlain(path[1..]);
      DecimalPlain(path[0].index);
      assert FormatPath(path)[1..] == FormatPath(path[1..]);
    }
  }

  lemma {:induction false} StemsPlain(mode: KeyMode, es: seq<KeyEntry>)
    requires forall e :: e in es ==> PlainEntry(e)
    ensures forall s :: s in Stems(mode, es) ==> Plain(s)
  {
    if es != [] {
      assert es[0] in es;
      PathPlain(es[0].path);
      StemsPlain(mode, es[1..]);
    }
  }

  lemma {:induction false} InOrderFrom(entries: map<SignerId, KeyEntry>, e: KeyEntry)
    requires e in InOrder(entries)
    ensures exists id :: id in entries && entries[id] == e
    decreases |entries|
  {
    var id := Smallest(entries.Keys);
    if e != entries[id] {
      InOrderFrom(entries - {id}, e);
      var other :| other in entries - {id} && (entries - {id})[other] == e;
      assert other in entries;
    }
  }

  /**
   From the builder to the wollet: a built descriptor, printed with any checksum,
   is rewritten on every key in ranged mode and on none in fixed mode; branch 0
   of the result is the text that was built. The keys are those of all signers, by
   increasing id.
   */
  lemma {:induction false} BuiltDescriptorRewrites(mbkHex: string, threshold: nat, mode: KeyMode,
                                                   entries: map<SignerId, KeyEntry>, checksum: string)
    returns (ids: seq<SignerId>)
    requires entries != map[] && Plain(mbkHex) && forall id :: id in entries ==> PlainEntry(entries[id])
    requires checksum == "" || checksum[0] == '#'
    ensures var built := BuiltText(mbkHex, threshold, mode, entries).value;
            && ToMultipath(built + checksum) ==
               Text(mbkHex, threshold, Stems(mode, InOrder(entries)), if mode.Ranged? then MULTIPATH else "")
            && |ids| == |entries| == |Stems(mode, InOrder(entries))| && Increasing(ids)
            && (forall id :: id in ids <==> id in entries)
            && (forall k :: 0 <= k < |ids| ==>
                  ids[k] in entries && Stems(mode, InOrder(entries))[k] == Stem(mode, entries[ids[k]]))
            && Branch0(ToMultipath(built + checksum)) == built
  {
    hide Text, Stems, Stem, InOrder, ReplaceAll, BodyOf, Plain;
    ids := InOrderIs(entries);
    StemsAre(mode, InOrder(entries));
    var stems := Stems(mode, InOrder(entries));
    forall e | e in InOrder(entries)
      ensures PlainEntry(e)
    {
      InOrderFrom(entries, e);
    }
    StemsPlain(mode, InOrder(entries));
    match mode {
      case Ranged => RangedRewrite(mbkHex, threshold, stems, checksum);
      case Fixed => FixedRewrite(mbkHex, threshold, stems, checksum);
    }
    TextBody(mbkHex, threshold, stems, KeySuffix(mode), checksum);
    TextUnbracketed(mbkHex, threshold, stems, KeySuffix(mode));
    BranchZeroUndoes(Text(mbkHex, threshold, stems, KeySuffix(mode)));
  }

  lemma {:induction false} StemsAre(mode: KeyMode, es: seq<KeyEntry>)
    ensures |Stems(mode, es)| == |es|
    ensures forall k :: 0 <= k < |es| ==> Stems(mode, es)[k] == Stem(mode, es[k])
  {
    hide Stem;
    if es != [] {
      StemsAre(mode, es[1..]);
    }
  }

  lemma TextUnbracketed(mbkHex: string, threshold: nat, stems: seq<string>, suffix: string)
    requires Plain(mbkHex) && (forall s :: s in stems ==> Plain(s)) && '<' !in suffix
    ensures '<' !in Text(mbkHex, threshold, stems, suffix)
  {
    JoinChars(stems, suffix);
    DecimalPlain(threshold);
  }
}
