/**
 When does scanning the remaining events repair a store?

 `before` are the events up to the cursor, `rest` the events still to scan. The
 store may already hold traces of `rest`, left by a pass that was cut short.
 */
module Recovery {
  import opened Results
  import opened ChainModel
  import opened Events

  /** The two event runs come from blocks below and from blocks at or above height `n`. */
  ghost predicate SplitAt(before: seq<Event>, rest: seq<Event>, n: nat, hi: nat) {
    && WellOrdered(before + rest)
    && HeightsWithin(before, 0, n)
    && HeightsWithin(rest, n, hi)
  }

  // ------------------------------------------------------------------
  // The exact condition
  // ------------------------------------------------------------------

  /** What an entry must look like for the scan of `rest` to leave it right. */
  ghost predicate EntryRecoverable(e: Entry, before: seq<Event>, rest: seq<Event>, op: OutPoint) {
    if op in Captures(rest) then
      // overwritten by the scan, except for a spend height nothing will set
      FirstSpend(rest, op).None? ==> e.spentHeight.None?
    else
      && op in Captures(before)
      && e.utxo.(isSpent := false) == Captures(before)[op]
      && (if FirstSpend(before, op).Some? then
            e.utxo.isSpent && e.spentHeight == FirstSpend(before, op)
          else if e.utxo.isSpent then
            FirstSpend(rest, op).Some? && e.spentHeight == FirstSpend(rest, op)
          else
            FirstSpend(rest, op).None? ==> e.spentHeight.None?)
  }

  ghost predicate Recoverable(m: Store, before: seq<Event>, rest: seq<Event>) {
    && (forall op :: op in m ==> EntryRecoverable(m[op], before, rest, op))
    && (forall op :: op in Captures(before) ==> op in m)
  }

  lemma LedgerAt(before: seq<Event>, rest: seq<Event>, n: nat, hi: nat, op: OutPoint)
    requires SplitAt(before, rest, n, hi)
    ensures op in Captures(rest) ==> op !in Captures(before) && FirstSpend(before, op).None?
    ensures At(Ledger(before + rest), op) ==
            if op in Captures(rest) then
              Some(Entry(Captures(rest)[op].(isSpent := FirstSpend(rest, op).Some?), FirstSpend(rest, op)))
            else if op in Captures(before) then
              var first := if FirstSpend(before, op).Some? then FirstSpend(before, op) else FirstSpend(rest, op);
              Some(Entry(Captures(before)[op].(isSpent := first.Some?), first))
            else None
  {
    CapturesConcat(before, rest);
    FirstSpendConcat(before, rest, op);
    if op in Captures(rest) {
      CreatedLater(before, rest, op);
    }
  }

  lemma RecoveredAt(m: Store, before: seq<Event>, rest: seq<Event>, n: nat, hi: nat, op: OutPoint)
    requires SplitAt(before, rest, n, hi)
    ensures At(Scan(m, rest), op) == At(Ledger(before + rest), op) <==>
            (op in m ==> EntryRecoverable(m[op], before, rest, op)) && (op in Captures(before) ==> op in m)
  {
    WellOrderedParts(before, rest);
    ScanAt(m, rest, op);
    LedgerAt(before, rest, n, hi, op);
    if op in Captures(before) {
      CapturesFacts(before, 0, n, op);
    }
    if FirstSpend(before, op).Some? {
      FirstSpendFacts(before, 0, n, op);
    }
    if FirstSpend(rest, op).Some? {
      FirstSpendFacts(rest, n, hi, op);
    }
  }

  /** Scanning the rest yields the ledger of the whole chain exactly when the store is recoverable. */
  lemma {:induction false} ScanRecoversIff(m: Store, before: seq<Event>, rest: seq<Event>, n: nat, hi: nat)
    requires SplitAt(before, rest, n, hi)
    ensures Scan(m, rest) == Ledger(before + rest) <==> Recoverable(m, before, rest)
  {
    forall op
      ensures At(Scan(m, rest), op) == At(Ledger(before + rest), op) <==>
              (op in m ==> EntryRecoverable(m[op], before, rest, op)) && (op in Captures(before) ==> op in m)
    {
      RecoveredAt(m, before, rest, n, hi, op);
    }
    if Recoverable(m, before, rest) {
      SameEverywhere(Scan(m, rest), Ledger(before + rest));
    }
  }

  // ------------------------------------------------------------------
  // The invariant of interrupted scans
  // ------------------------------------------------------------------

  ghost predicate EntrySound(e: Entry, before: seq<Event>, all: seq<Event>, op: OutPoint) {
    && op in Captures(all)
    && e.utxo.(isSpent := false) == Captures(all)[op]
    && (e.spentHeight.Some? ==> e.spentHeight == FirstSpend(all, op))
    && (e.utxo.isSpent ==> e.spentHeight.Some?)
    && (op in Captures(before) && FirstSpend(before, op).Some? ==> e.utxo.isSpent)
  }

  /**
   The store holds nothing the chain does not call for, and everything the chain
   calls for up to the cursor.
   */
  ghost predicate Sound(m: Store, before: seq<Event>, rest: seq<Event>) {
    && (forall op :: op in m ==> EntrySound(m[op], before, before + rest, op))
    && (forall op :: op in Captures(before) ==> op in m)
  }

  lemma {:induction false} SoundIsRecoverable(m: Store, before: seq<Event>, rest: seq<Event>, n: nat, hi: nat)
    requires SplitAt(before, rest, n, hi) && Sound(m, before, rest)
    ensures Recoverable(m, before, rest)
    ensures Scan(m, rest) == Ledger(before + rest)
  {
    forall op | op in m
      ensures EntryRecoverable(m[op], before, rest, op)
    {
      CapturesConcat(before, rest);
      FirstSpendConcat(before, rest, op);
      LedgerAt(before, rest, n, hi, op);
    }
    ScanRecoversIff(m, before, rest, n, hi);
  }

  lemma LedgerIsSound(es: seq<Event>, hi: nat)
    requires WellOrdered(es) && HeightsWithin(es, 0, hi)
    ensures Sound(Ledger(es), es, [])
  {
    assert es + [] == es;
    forall op | op in Ledger(es)
      ensures EntrySound(Ledger(es)[op], es, es, op)
    {
      CapturesFacts(es, 0, hi, op);
    }
  }

  /** Blocks the store has not seen yet do not disturb soundness. */
  lemma {:induction false} SoundExtends(m: Store, before: seq<Event>, rest: seq<Event>, more: seq<Event>)
    requires Sound(m, before, rest) && WellOrdered(before + rest + more)
    ensures Sound(m, before, rest + more)
  {
    var all := before + rest;
    assert before + (rest + more) == all + more;
    forall op | op in m
      ensures EntrySound(m[op], before, all + more, op)
    {
      CapturesConcat(all, more);
      FirstSpendConcat(all, more, op);
      if op in Captures(more) {
        CreatedLater(all, more, op);
      }
    }
  }

  /** Scanning on from a replay gives the replay of both together. */
  lemma ScanOnReplay(before: seq<Event>, rest: seq<Event>, n: nat, hi: nat)
    requires SplitAt(before, rest, n, hi)
    ensures Scan(Ledger(before), rest) == Ledger(before + rest)
  {
    hide WellOrdered, Sound, Ledger, Scan;
    var none: seq<Event> := [];
    WellOrderedParts(before, rest);
    LedgerIsSound(before, n);
    assert before + none == before && none + rest == rest;
    SoundExtends(Ledger(before), before, none, rest);
    SoundIsRecoverable(Ledger(before), before, rest, n, hi);
  }

  /** Scanning part of the rest keeps the store sound for the same cursor. */
  lemma {:induction false} SoundScan(m: Store, before: seq<Event>, done: seq<Event>, todo: seq<Event>)
    requires WellOrdered(before + (done + todo)) && Sound(m, before, done + todo)
    ensures Sound(Scan(m, done), before, done + todo)
  {
    var all, next := before + (done + todo), Scan(m, done);
    assert all == (before + done) + todo;
    WellOrderedParts(before, done + todo);
    WellOrderedParts(done, todo);
    WellOrderedParts(before + done, todo);
    forall op
      ensures op in next ==> EntrySound(next[op], before, all, op)
      ensures op in Captures(before) ==> op in next
    {
      ScanAt(m, done, op);
      ConcatThree(before, done, todo, op);
      assert op in next ==> At(next, op) == Some(next[op]);
    }
  }

  /** The same facts for three consecutive runs of events. */
  lemma ConcatThree(a: seq<Event>, b: seq<Event>, c: seq<Event>, op: OutPoint)
    requires WellOrdered(a + (b + c))
    ensures Captures(a + (b + c)) == Captures(a) + (Captures(b) + Captures(c))
    ensures FirstSpend(a + (b + c), op) ==
            if FirstSpend(a, op).Some? then FirstSpend(a, op)
            else if FirstSpend(b, op).Some? then FirstSpend(b, op) else FirstSpend(c, op)
    ensures op in Captures(b) ==> op !in Captures(a) && op !in Captures(c) && FirstSpend(a, op).None?
                                  && !Captures(b)[op].isSpent
    ensures op in Captures(c) ==> op !in Captures(a) && FirstSpend(a, op).None? && FirstSpend(b, op).None?
    ensures op in Captures(a) ==> !Captures(a)[op].isSpent
  {
    hide WellOrdered, Captures, FirstSpend;
    CapturesConcat(a, b + c);
    CapturesConcat(b, c);
    FirstSpendConcat(a, b + c, op);
    FirstSpendConcat(b, c, op);
    OrderThree(a, b, c, op);
  }

  lemma OrderThree(a: seq<Event>, b: seq<Event>, c: seq<Event>, op: OutPoint)
    requires WellOrdered(a + (b + c))
    ensures op in Captures(b) ==> op !in Captures(a) && op !in Captures(c) && FirstSpend(a, op).None?
                                  && !Captures(b)[op].isSpent
    ensures op in Captures(c) ==> op !in Captures(a) && FirstSpend(a, op).None? && FirstSpend(b, op).None?
    ensures op in Captures(a) ==> !Captures(a)[op].isSpent
  {
    hide Captures, FirstSpend;
    assert a + (b + c) == (a + b) + c;
    WellOrderedParts(a, b + c);
    WellOrderedParts(b, c);
    WellOrderedParts(a + b, c);
    if op in Captures(a) { CapturedUnspent(a, op); }
    if op in Captures(b) { CapturedUnspent(b, op); }
    CapturesConcat(a, b);
    FirstSpendConcat(a, b, op);
    if op in Captures(c) {
      CreatedLater(a + b, c, op);
      CreatedLater(b, c, op);
    }
    if op in Captures(b) {
      CreatedLater(a, b, op);
    }
  }

  lemma CapturedUnspent(es: seq<Event>, op: OutPoint)
    requires WellOrdered(es) && op in Captures(es)
    ensures !Captures(es)[op].isSpent
  {
    CapturesAre(es, op);
    var p :| 0 <= p < |es| && es[p].Create? && es[p].utxo.outpoint == op;
  }

  // ------------------------------------------------------------------
  // Rollback
  // ------------------------------------------------------------------

  /**
   Rolling back to height `a` leaves exactly the ledger of the events up to `a`,
   from the full ledger and from any store an interrupted scan may have left,
   as long as `a` is below the cursor.
   */
  lemma {:induction false} RollbackIsPrefix(m: Store, kept: seq<Event>, dropped: seq<Event>, rest: seq<Event>, a: nat,
                                            hi: nat)
    requires WellOrdered(kept + (dropped + rest))
    requires HeightsWithin(kept, 0, a + 1) && HeightsWithin(dropped, a + 1, hi) && HeightsWithin(rest, a + 1, hi)
    requires Sound(m, kept + dropped, rest)
    ensures RolledBack(m, a) == Ledger(kept)
  {
    assert (kept + dropped) + rest == kept + (dropped + rest);
    WellOrderedParts(kept, dropped + rest);
    WellOrderedParts(dropped, rest);
    forall op
      ensures At(RolledBack(m, a), op) == At(Ledger(kept), op)
    {
      ConcatThree(kept, dropped, rest, op);
      CapturesConcat(kept, dropped);
      FirstSpendConcat(kept, dropped, op);
      EventBounds(kept, 0, a + 1, op);
      EventBounds(dropped, a + 1, hi, op);
      EventBounds(rest, a + 1, hi, op);
    }
    SameEverywhere(RolledBack(m, a), Ledger(kept));
  }

  lemma EventBounds(es: seq<Event>, lo: nat, hi: nat, op: OutPoint)
    requires WellOrdered(es) && HeightsWithin(es, lo, hi)
    ensures op in Captures(es) ==> !Captures(es)[op].isSpent && lo <= Captures(es)[op].height < hi
    ensures FirstSpend(es, op).Some? ==> lo <= FirstSpend(es, op).value < hi
  {
    if op in Captures(es) {
      CapturesFacts(es, lo, hi, op);
    }
    if FirstSpend(es, op).Some? {
      FirstSpendFacts(es, lo, hi, op);
    }
  }

  /** `rollback_above` on the replay of a chain is the replay of its prefix. */
  lemma {:induction false} RollbackOfLedger(kept: seq<Event>, dropped: seq<Event>, a: nat, hi: nat)
    requires SplitAt(kept, dropped, a + 1, hi) && a + 1 <= hi
    ensures RolledBack(Ledger(kept + dropped), a) == Ledger(kept)
  {
    assert HeightsWithin(kept + dropped, 0, hi);
    LedgerIsSound(kept + dropped, hi);
    assert kept + (dropped + []) == kept + dropped;
    RollbackIsPrefix(Ledger(kept + dropped), kept, dropped, [], a, hi);
  }

  // ------------------------------------------------------------------
  // One block's commit
  // ------------------------------------------------------------------

  /** What a block's two store calls do: upsert the captured, then mark the spent. */
  function Committed(m: Store, captured: seq<CapturedUtxo>, spent: seq<OutPoint>, h: nat): Store {
    Marked(Upserted(m, captured), spent, h)
  }

  /** Recording one more spend is one `Spend` step of the pending store. */
  lemma CommitSpend(m: Store, captured: seq<CapturedUtxo>, spent: seq<OutPoint>, op: OutPoint, h: nat)
    requires op in Unspent(Committed(m, captured, spent, h))
    ensures Committed(m, captured, spent + [op], h) == Step(Committed(m, captured, spent, h), Spend(op, h))
  {
    assert (spent + [op])[..|spent|] == spent;
  }

  /** Recording one more capture is one `Create` step, provided this block has not spent that outpoint. */
  lemma {:induction false} CommitCapture(m: Store, captured: seq<CapturedUtxo>, spent: seq<OutPoint>, u: CapturedUtxo,
                                         h: nat)
    requires u.outpoint !in spent
    ensures Committed(m, captured + [u], spent, h) == UpsertOne(Committed(m, captured, spent, h), u)
  {
    if spent == [] {
      assert (captured + [u])[..|captured|] == captured;
    } else {
      var init := spent[..|spent| - 1];
      CommitCapture(m, captured, init, u, h);
      MarkedKeeps(Upserted(m, captured), init, h, u.outpoint);
    }
  }

  lemma {:induction false} MarkedKeeps(m: Store, spent: seq<OutPoint>, h: nat, op: OutPoint)
    requires op !in spent
    ensures At(Marked(m, spent, h), op) == At(m, op)
  {
    if spent != [] {
      MarkedKeeps(m, spent[..|spent| - 1], h, op);
    }
  }

  /** The outpoints recorded as spent so far are those of the block's spend events that hit. */
  lemma UnspentStep(m: Store, e: Event)
    requires e.Create? ==> !e.utxo.isSpent
    ensures Unspent(Step(m, e)) == match e
                                   case Spend(op, _) => Unspent(m) - {op}
                                   case Create(u) => Unspent(m) + {u.outpoint}
  {
  }

  // ------------------------------------------------------------------
  // A block cut between its two store calls
  // ------------------------------------------------------------------

  /** The records a block's events create, in order. */
  function Created(es: seq<Event>): seq<CapturedUtxo> {
    if es == [] then []
    else match es[|es| - 1]
      case Spend(_, _) => Created(es[..|es| - 1])
      case Create(u) => Created(es[..|es| - 1]) + [u]
  }

  lemma {:induction false} UpsertedAt(m: Store, es: seq<Event>, op: OutPoint)
    ensures At(Upserted(m, Created(es)), op) ==
            if op in Captures(es)
            then Some(Entry(Captures(es)[op], if op in m then m[op].spentHeight else None))
            else At(m, op)
  {
    if es != [] {
      var init := es[..|es| - 1];
      UpsertedAt(m, init, op);
      if es[|es| - 1].Create? {
        assert Created(es)[..|Created(es)| - 1] == Created(init);
        UpsertedAt(m, init, es[|es| - 1].utxo.outpoint);
      }
    }
  }

  /** Captures written but spends not yet marked: still sound for the same cursor. */
  lemma {:induction false} SoundUpsert(m: Store, before: seq<Event>, mid: seq<Event>, block: seq<Event>,
                                       todo: seq<Event>)
    requires WellOrdered((before + mid) + (block + todo)) && Sound(m, before, mid + (block + todo))
    ensures Sound(Upserted(m, Created(block)), before, mid + (block + todo))
  {
    var all, next := before + (mid + (block + todo)), Upserted(m, Created(block));
    assert all == (before + mid) + (block + todo);
    forall op
      ensures op in next ==> EntrySound(next[op], before, all, op)
      ensures op in Captures(before) ==> op in next
    {
      UpsertedAt(m, block, op);
      ConcatThree(before + mid, block, todo, op);
      CapturesConcat(before, mid);
      assert op in next ==> At(next, op) == Some(next[op]);
    }
  }
}
