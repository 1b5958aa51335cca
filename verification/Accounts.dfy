/** A clean pass conserves the books: what is unspent after is what was unspent before, plus captured, minus spent. */
module Accounts {
  import opened ChainModel
  import opened Events
  import opened Recovery
  import opened Matching
  import opened Pass
  import opened History

  /** The unspent records. */
  function Live(m: Store): Store {
    m - (set op | op in m && m[op].utxo.isSpent)
  }

  /** The weight of a set of records: 1 each to count them, the value of one asset to add it up. */
  ghost function Sum(live: Store, w: CapturedUtxo -> int): int
    decreases |live|
  {
    if live == map[] then 0
    else
      var op :| op in live;
      w(live[op].utxo) + Sum(live - {op}, w)
  }

  lemma {:induction false} SumWithout(live: Store, w: CapturedUtxo -> int, op: OutPoint)
    requires op in live
    ensures Sum(live, w) == w(live[op].utxo) + Sum(live - {op}, w)
    decreases |live|
  {
    var x :| x in live && Sum(live, w) == w(live[x].utxo) + Sum(live - {x}, w);
    if x != op {
      SumWithout(live - {x}, w, op);
      SumWithout(live - {op}, w, x);
      assert live - {x} - {op} == live - {op} - {x};
    }
  }

  lemma SumWith(live: Store, w: CapturedUtxo -> int, op: OutPoint, e: Entry)
    requires op !in live
    ensures Sum(live[op := e], w) == Sum(live, w) + w(e.utxo)
  {
    SumWithout(live[op := e], w, op);
    assert live[op := e] - {op} == live;
  }

  function CapturedSum(es: seq<Event>, w: CapturedUtxo -> int): int {
    if es == [] then 0
    else CapturedSum(es[..|es| - 1], w) + match es[|es| - 1] case Spend(_, _) => 0 case Create(u) => w(u)
  }

  /** The weight of the records hit by spend events, as they were when hit. */
  function SpentSum(m: Store, es: seq<Event>, w: CapturedUtxo -> int): int {
    if es == [] then 0
    else
      var init, last := es[..|es| - 1], es[|es| - 1];
      SpentSum(m, init, w) +
      if last.Spend? && last.outpoint in Live(Scan(m, init)) then w(Scan(m, init)[last.outpoint].utxo) else 0
  }

  /** The two counters of the pass summary are the weights with every record weighing 1. */
  lemma {:induction false} CountersAreSums(m: Store, es: seq<Event>)
    ensures CapturedSum(es, _ => 1) == |Created(es)|
    ensures SpentSum(m, es, _ => 1) == Hits(m, es)
  {
    if es != [] {
      CountersAreSums(m, es[..|es| - 1]);
    }
  }

  lemma StepLive(m: Store, e: Event)
    requires e.Create? ==> !e.utxo.isSpent
    ensures Live(Step(m, e)) ==
            match e
            case Spend(op, _) => Live(m) - {op}
            case Create(u) => Live(m)[u.outpoint := Step(m, e)[u.outpoint]]
  {
  }

  /** Conservation over any run of events whose creations are new to the store. */
  lemma {:induction false} ScanConserves(m: Store, es: seq<Event>, w: CapturedUtxo -> int)
    requires WellOrdered(es)
    requires forall p :: 0 <= p < |es| && es[p].Create? ==> es[p].utxo.outpoint !in m
    ensures Sum(Live(Scan(m, es)), w) == Sum(Live(m), w) + CapturedSum(es, w) - SpentSum(m, es, w)
  {
    if es != [] {
      var init, last := es[..|es| - 1], es[|es| - 1];
      assert es == init + [last];
      WellOrderedParts(init, [last]);
      ScanConserves(m, init, w);
      var at := Scan(m, init);
      StepLive(at, last);
      match last
      case Spend(op, h) =>
        if op in Live(at) {
          SumWithout(Live(at), w, op);
        } else {
          assert Live(at) - {op} == Live(at);
        }
      case Create(u) =>
        CapturesAre(init, u.outpoint);
        ScanAt(m, init, u.outpoint);
        SumWith(Live(at), w, u.outpoint, Step(at, last)[u.outpoint]);
    }
  }

  /** A pass that starts from a replay scans onto a replay: nothing it will create is there yet. */
  lemma ScansOntoReplay(v: ScanView, u: iset<Block>, g: Block, c0: seq<Block>, c: seq<Block>)
    requires Binding(u) && Applied(u, g, c0) && ValidChain(u, g, c) && CanStart(Replayed(v, c0), c)
    ensures var plan := Prepare(Replayed(v, c0), c);
            plan.start <= |c| && plan.state.utxos == Ledger(RangeEvents(v, c, 0, plan.start))
  {
    hide Sound, RangeEvents, OrderedTxs, Txs, Ledger, Replayed;
    var s := Replayed(v, c0);
    ReplayedIsResumable(v, u, g, c0);
    CleanIsHarmless(v, u, g, World(s, c, c0, |c0|));
    PreparedResumable(v, u, g, c0, |c0|, s, c);
    var n := Prepare(s, c).start;
    if Prepare(s, c).reorgTo.None? {
      assert c0 == c[..n];
    }
    RangeOfPrefix(v, c, 0, n, n);
  }

  lemma NewToReplay(v: ScanView, u: iset<Block>, g: Block, c: seq<Block>, n: nat)
    requires ValidChain(u, g, c) && n <= |c|
    ensures var m, es := Ledger(RangeEvents(v, c, 0, n)), RangeEvents(v, c, n, |c|);
            && WellOrdered(es)
            && forall p :: 0 <= p < |es| && es[p].Create? ==> es[p].utxo.outpoint !in m
  {
    var before, es := RangeEvents(v, c, 0, n), RangeEvents(v, c, n, |c|);
    OrderedOn(v, u, g, c, n, |c|);
    WellOrderedParts(before, es);
    forall p | 0 <= p < |es| && es[p].Create?
      ensures es[p].utxo.outpoint !in Ledger(before)
    {
      CapturesAre(es, es[p].utxo.outpoint);
      CreatedLater(before, es, es[p].utxo.outpoint);
    }
  }

  /**
   From fresh stores or the replay of one chain to the replay of another: for every weight, the
   unspent total after the pass is the total after any rollback plus the weight
   captured minus the weight spent.
   */
  lemma {:induction false} CleanPassConserves(v: ScanView, u: iset<Block>, g: Block, c0: seq<Block>, c: seq<Block>,
                                              w: CapturedUtxo -> int)
    requires Binding(u) && Applied(u, g, c0) && ValidChain(u, g, c) && CanStart(Replayed(v, c0), c)
    ensures var plan := Prepare(Replayed(v, c0), c);
            plan.start <= |c| &&
            var es := RangeEvents(v, c, plan.start, |c|);
            Sum(Live(Passed(v, Replayed(v, c0), c).utxos), w) ==
            Sum(Live(plan.state.utxos), w) + CapturedSum(es, w) - SpentSum(plan.state.utxos, es, w)
  {
    ScansOntoReplay(v, u, g, c0, c);
    var plan := Prepare(Replayed(v, c0), c);
    NewToReplay(v, u, g, c, plan.start);
    ScanConserves(plan.state.utxos, RangeEvents(v, c, plan.start, |c|), w);
  }
}
