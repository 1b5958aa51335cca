/**
 What a scanned chain means, independently of how the scan proceeds.

 A chain is read as a sequence of events: an input spends an outpoint, an owned
 output is created. `Ledger` says which records those events call for; `Scan`
 is what processing them one at a time does to a store.
 */
module Events {
  import opened Results
  import opened ChainModel

  datatype Entry = Entry(utxo: CapturedUtxo, spentHeight: Option<nat>)

  type Store = map<OutPoint, Entry>

  datatype Event = Spend(outpoint: OutPoint, height: nat) | Create(utxo: CapturedUtxo)

  function Subject(e: Event): OutPoint {
    match e
    case Spend(op, _) => op
    case Create(u) => u.outpoint
  }

  function HeightOf(e: Event): nat {
    match e
    case Spend(_, h) => h
    case Create(u) => u.height
  }

  /** No event mentions an outpoint before the event that creates it. */
  ghost predicate FreshCreates(es: seq<Event>) {
    forall p, q :: 0 <= p < q < |es| && es[q].Create? ==> Subject(es[p]) != Subject(es[q])
  }

  /** A new record starts out unspent. */
  ghost predicate CreatesUnspent(es: seq<Event>) {
    forall p :: 0 <= p < |es| && es[p].Create? ==> !es[p].utxo.isSpent
  }

  ghost predicate HeightsWithin(es: seq<Event>, lo: nat, hi: nat) {
    forall p :: 0 <= p < |es| ==> lo <= HeightOf(es[p]) < hi
  }

  /** Events a scan may meet: fresh, unspent creations. */
  ghost predicate WellOrdered(es: seq<Event>) {
    FreshCreates(es) && CreatesUnspent(es)
  }

  // ------------------------------------------------------------------
  // Store operations, as functions on the store's contents
  // ------------------------------------------------------------------

  function UpsertOne(m: Store, u: CapturedUtxo): Store {
    m[u.outpoint := Entry(u, if u.outpoint in m then m[u.outpoint].spentHeight else None)]
  }

  function Upserted(m: Store, us: seq<CapturedUtxo>): Store {
    if us == [] then m else UpsertOne(Upserted(m, us[..|us| - 1]), us[|us| - 1])
  }

  function MarkOne(m: Store, op: OutPoint, h: nat): Store {
    if op in m then m[op := Entry(m[op].utxo.(isSpent := true), Some(h))] else m
  }

  function Marked(m: Store, ops: seq<OutPoint>, h: nat): Store {
    if ops == [] then m else MarkOne(Marked(m, ops[..|ops| - 1], h), ops[|ops| - 1], h)
  }

  function Unspend(e: Entry, height: nat): Entry {
    if e.spentHeight.Some? && e.spentHeight.value > height
    then Entry(e.utxo.(isSpent := false), None)
    else e
  }

  // Stores below are built entry by entry: Dafny 4.11 counts what a map comprehension
  // says outside its domain towards equality, so two of them may contradict each other.

  ghost function UnspendAll(m: Store, ops: set<OutPoint>, height: nat): (r: Store)
    requires ops <= m.Keys
    ensures r.Keys == ops && forall op :: op in ops ==> r[op] == Unspend(m[op], height)
  {
    if ops == {} then map[]
    else
      var op :| op in ops;
      UnspendAll(m, ops - {op}, height)[op := Unspend(m[op], height)]
  }

  /** Records captured above `height` go, spends above it are undone. */
  ghost function RolledBack(m: Store, height: nat): (r: Store)
    ensures forall op :: op in r <==> op in m && m[op].utxo.height <= height
    ensures forall op :: op in r ==> r[op] == Unspend(m[op], height)
  {
    UnspendAll(m, (set op | op in m && m[op].utxo.height <= height), height)
  }

  function Unspent(m: Store): set<OutPoint> {
    set op | op in m && !m[op].utxo.isSpent
  }

  /** Every record sits under its own outpoint. */
  ghost predicate Keyed(m: Store) {
    forall op :: op in m ==> m[op].utxo.outpoint == op
  }

  // ------------------------------------------------------------------
  // Processing events one at a time
  // ------------------------------------------------------------------

  function Step(m: Store, e: Event): Store {
    match e
    case Spend(op, h) => if op in m && !m[op].utxo.isSpent then MarkOne(m, op, h) else m
    case Create(u) => UpsertOne(m, u)
  }

  function Scan(m: Store, es: seq<Event>): Store {
    if es == [] then m else Step(Scan(m, es[..|es| - 1]), es[|es| - 1])
  }

  // ------------------------------------------------------------------
  // The records a sequence of events calls for
  // ------------------------------------------------------------------

  function Captures(es: seq<Event>): map<OutPoint, CapturedUtxo> {
    if es == [] then map[]
    else
      var before := Captures(es[..|es| - 1]);
      match es[|es| - 1]
      case Spend(_, _) => before
      case Create(u) => before[u.outpoint := u]
  }

  /** The height of the first event spending `op`. */
  function FirstSpend(es: seq<Event>, op: OutPoint): Option<nat> {
    if es == [] then None
    else if es[0].Spend? && es[0].outpoint == op then Some(es[0].height)
    else FirstSpend(es[1..], op)
  }

  /** The record of a created outpoint, spent at the height of its first spend, if any. */
  function EntryFor(es: seq<Event>, op: OutPoint): Entry
    requires op in Captures(es)
  {
    Entry(Captures(es)[op].(isSpent := FirstSpend(es, op).Some?), FirstSpend(es, op))
  }

  ghost function EntriesFor(es: seq<Event>, ops: set<OutPoint>): (m: Store)
    requires ops <= Captures(es).Keys
    ensures m.Keys == ops && forall op :: op in ops ==> m[op] == EntryFor(es, op)
    decreases ops
  {
    if ops == {} then map[]
    else
      var op :| op in ops;
      EntriesFor(es, ops - {op})[op := EntryFor(es, op)]
  }

  /** One record per created outpoint. */
  ghost function Ledger(es: seq<Event>): (m: Store)
    ensures m.Keys == Captures(es).Keys
    ensures forall op :: op in m ==> m[op] == EntryFor(es, op)
  {
    EntriesFor(es, Captures(es).Keys)
  }

  // ------------------------------------------------------------------
  // Concatenation
  // ------------------------------------------------------------------

  lemma {:induction false} FirstSpendConcat(a: seq<Event>, b: seq<Event>, op: OutPoint)
    ensures FirstSpend(a + b, op) == if FirstSpend(a, op).Some? then FirstSpend(a, op) else FirstSpend(b, op)
  {
    if a == [] {
      assert a + b == b;
    } else {
      assert (a + b)[1..] == a[1..] + b;
      FirstSpendConcat(a[1..], b, op);
    }
  }

  lemma {:induction false} CapturesConcat(a: seq<Event>, b: seq<Event>)
    ensures Captures(a + b) == Captures(a) + Captures(b)
  {
    if b == [] {
      assert a + b == a;
    } else {
      assert (a + b)[..|a + b| - 1] == a + b[..|b| - 1];
      CapturesConcat(a, b[..|b| - 1]);
    }
  }

  lemma {:induction false} ScanConcat(m: Store, a: seq<Event>, b: seq<Event>)
    ensures Scan(m, a + b) == Scan(Scan(m, a), b)
  {
    if b == [] {
      assert a + b == a;
    } else {
      assert (a + b)[..|a + b| - 1] == a + b[..|b| - 1];
      ScanConcat(m, a, b[..|b| - 1]);
    }
  }

  lemma WellOrderedParts(a: seq<Event>, b: seq<Event>)
    requires WellOrdered(a + b)
    ensures WellOrdered(a) && WellOrdered(b)
    ensures forall p, q :: 0 <= p < |a| && 0 <= q < |b| && b[q].Create? ==> Subject(a[p]) != Subject(b[q])
  {
    var c := a + b;
    assert forall i :: 0 <= i < |a| ==> a[i] == c[i];
    assert forall i :: 0 <= i < |b| ==> b[i] == c[|a| + i];
    forall p, q | 0 <= p < q < |b| && b[q].Create?
      ensures Subject(b[p]) != Subject(b[q])
    {
      assert c[|a| + p] == b[p] && c[|a| + q] == b[q];
    }
    forall p, q | 0 <= p < |a| && 0 <= q < |b| && b[q].Create?
      ensures Subject(a[p]) != Subject(b[q])
    {
      assert c[|a| + q] == b[q] && c[p] == a[p];
    }
  }

  // ------------------------------------------------------------------
  // What the definitions say about individual events
  // ------------------------------------------------------------------

  /** `Captures` holds exactly the created records (creations being fresh). */
  lemma {:induction false} CapturesAre(es: seq<Event>, op: OutPoint)
    requires FreshCreates(es)
    ensures op in Captures(es) <==> exists p :: 0 <= p < |es| && es[p].Create? && es[p].utxo.outpoint == op
    ensures forall p :: 0 <= p < |es| && es[p].Create? && es[p].utxo.outpoint == op ==>
                          op in Captures(es) && Captures(es)[op] == es[p].utxo
  {
    if es != [] {
      var init := es[..|es| - 1];
      CapturesAre(init, op);
      forall p | 0 <= p < |es| && es[p].Create? && es[p].utxo.outpoint == op
        ensures op in Captures(es) && Captures(es)[op] == es[p].utxo
      {
        if p < |init| {
          assert init[p] == es[p];
          assert Subject(es[p]) != Subject(es[|es| - 1]) || es[|es| - 1].Spend?;
        }
      }
      if op in Captures(init) {
        var p :| 0 <= p < |init| && init[p].Create? && init[p].utxo.outpoint == op;
        assert es[p] == init[p];
      }
    }
  }

  /** `FirstSpend` finds the first spend, and nothing else. */
  lemma {:induction false} FirstSpendIs(es: seq<Event>, op: OutPoint)
    ensures FirstSpend(es, op).None? <==> forall p :: 0 <= p < |es| && es[p].Spend? ==> es[p].outpoint != op
    ensures FirstSpend(es, op).Some? ==>
              exists q :: 0 <= q < |es| && es[q] == Spend(op, FirstSpend(es, op).value)
                          && forall p :: 0 <= p < q && es[p].Spend? ==> es[p].outpoint != op
  {
    if es != [] {
      if es[0].Spend? && es[0].outpoint == op {
        assert es[0] == Spend(op, FirstSpend(es, op).value);
      } else {
        var rest := es[1..];
        FirstSpendIs(rest, op);
        assert forall p :: 0 < p < |es| ==> es[p] == rest[p - 1];
        assert forall p :: 0 <= p < |rest| ==> rest[p] == es[p + 1];
        if FirstSpend(rest, op).Some? {
          var q :| 0 <= q < |rest| && rest[q] == Spend(op, FirstSpend(rest, op).value)
                   && forall p :: 0 <= p < q && rest[p].Spend? ==> rest[p].outpoint != op;
          assert es[q + 1] == Spend(op, FirstSpend(es, op).value);
        }
      }
    }
  }

  /** An outpoint created in `b` is neither captured nor spent in `a`. */
  lemma CreatedLater(a: seq<Event>, b: seq<Event>, op: OutPoint)
    requires WellOrdered(a + b) && op in Captures(b)
    ensures op !in Captures(a) && FirstSpend(a, op).None?
  {
    WellOrderedParts(a, b);
    CapturesAre(a, op);
    CapturesAre(b, op);
    FirstSpendIs(a, op);
    var q :| 0 <= q < |b| && b[q].Create? && b[q].utxo.outpoint == op;
  }

  lemma CapturesFacts(es: seq<Event>, lo: nat, hi: nat, op: OutPoint)
    requires WellOrdered(es) && HeightsWithin(es, lo, hi) && op in Captures(es)
    ensures Captures(es)[op].outpoint == op && !Captures(es)[op].isSpent && lo <= Captures(es)[op].height < hi
  {
    CapturesAre(es, op);
    var p :| 0 <= p < |es| && es[p].Create? && es[p].utxo.outpoint == op;
    assert lo <= HeightOf(es[p]) < hi;
  }

  lemma FirstSpendFacts(es: seq<Event>, lo: nat, hi: nat, op: OutPoint)
    requires HeightsWithin(es, lo, hi) && FirstSpend(es, op).Some?
    ensures lo <= FirstSpend(es, op).value < hi
  {
    FirstSpendIs(es, op);
    var q :| 0 <= q < |es| && es[q] == Spend(op, FirstSpend(es, op).value);
    assert lo <= HeightOf(es[q]) < hi;
  }

  // ------------------------------------------------------------------
  // A scan, one outpoint at a time
  // ------------------------------------------------------------------

  /** What scanning `es` leaves for `op`, from whatever the store held for it. */
  function After(was: Option<Entry>, es: seq<Event>, op: OutPoint): Option<Entry> {
    var first := FirstSpend(es, op);
    if op in Captures(es) then
      Some(Entry(Captures(es)[op].(isSpent := first.Some?),
                 if first.Some? then first else if was.Some? then was.value.spentHeight else None))
    else if was.Some? && !was.value.utxo.isSpent && first.Some? then
      Some(Entry(was.value.utxo.(isSpent := true), first))
    else was
  }

  function At(m: Store, op: OutPoint): Option<Entry> {
    if op in m then Some(m[op]) else None
  }

  lemma {:induction false} ScanAt(m: Store, es: seq<Event>, op: OutPoint)
    requires WellOrdered(es)
    ensures At(Scan(m, es), op) == After(At(m, op), es, op)
  {
    if es != [] {
      var init, last := es[..|es| - 1], es[|es| - 1];
      assert es == init + [last];
      WellOrderedParts(init, [last]);
      ScanAt(m, init, op);
      FirstSpendConcat(init, [last], op);
      if last.Create? && last.utxo.outpoint == op {
        CapturesAre(init, op);
        FirstSpendIs(init, op);
        assert forall p :: 0 <= p < |init| ==> Subject(init[p]) != op;
      }
      assert Captures(es) == match last
                             case Spend(_, _) => Captures(init)
                             case Create(u) => Captures(init)[u.outpoint := u];
    }
  }

  /** Two stores that answer alike at every outpoint are the same store. */
  lemma SameEverywhere(m: Store, n: Store)
    requires forall op :: At(m, op) == At(n, op)
    ensures m == n
  {
    assert forall op :: op in m <==> At(m, op).Some?;
    assert forall op :: op in n <==> At(n, op).Some?;
    assert forall op :: op in m ==> op in n && At(m, op) == Some(m[op]) && At(n, op) == Some(n[op]);
  }

}
