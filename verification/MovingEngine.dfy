/** The engine over a node whose chain may be another one at every call. */
module MovingEngine {
  import opened Results
  import opened ChainModel
  import opened Events
  import opened Matching
  import opened Stores
  import opened Pass
  import opened ScanEngine
  import opened History
  import opened Leftovers
  import opened MovingNode
  import opened MovingRuns
  import opened Guarantee

  /** The chain the `k`-th call is answered from: `shows[k]`, and from the end of the script on the last of them. */
  function ShownAt(shows: seq<seq<Block>>, k: nat): seq<Block> {
    if k < |shows| then shows[k] else if shows == [] then [] else shows[|shows| - 1]
  }

  /** A node that may show another chain at every call, as scripted by `shows`. */
  class MovingChainSource {
    const shows: seq<seq<Block>>
    const reliable: bool
    var calls: nat

    constructor (shows: seq<seq<Block>>, reliable: bool)
      ensures this.shows == shows && this.reliable == reliable && calls == 0
    {
      this.shows, this.reliable, calls := shows, reliable, 0;
    }

    /** The chain the next call is answered from. */
    function Shown(): seq<Block>
      reads this
    {
      ShownAt(shows, calls)
    }

    method TipHeight() returns (r: Result<nat, SyncError>)
      modifies this`calls
      ensures calls == old(calls) + 1
      ensures r.Success? ==> 0 < |old(Shown())| <= U32_MAX + 1 && r.value == |old(Shown())| - 1
      ensures reliable ==> (r.Success? <==> 0 < |old(Shown())| <= U32_MAX + 1)
    {
      var chain := Shown();
      calls := calls + 1;
      if !reliable {
        var failing: bool := *;
        if failing { return Failure(ChainSource); }
      }
      if |chain| == 0 {
        return Failure(ChainSource);
      }
      return if |chain| - 1 <= U32_MAX then Success(|chain| - 1) else Failure(ChainSource);
    }

    method BlockHashAt(height: nat) returns (r: Result<BlockHash, SyncError>)
      modifies this`calls
      ensures calls == old(calls) + 1
      ensures r.Success? ==> height < |old(Shown())| && r.value == old(Shown())[height].hash
      ensures reliable ==> (r.Success? <==> height < |old(Shown())|)
    {
      var chain := Shown();
      calls := calls + 1;
      if !reliable {
        var failing: bool := *;
        if failing { return Failure(ChainSource); }
      }
      return if height < |chain| then Success(chain[height].hash) else Failure(ChainSource);
    }

    method BlockWithHash(hash: BlockHash) returns (r: Result<Block, SyncError>)
      modifies this`calls
      ensures calls == old(calls) + 1
      ensures r.Success? ==> r.value in old(Shown()) && r.value.hash == hash
      ensures reliable ==> (r.Success? <==> exists b :: b in old(Shown()) && b.hash == hash)
    {
      var chain := Shown();
      calls := calls + 1;
      if !reliable {
        var failing: bool := *;
        if failing { return Failure(ChainSource); }
      }
      for i := 0 to |chain|
        invariant forall j :: 0 <= j < i ==> chain[j].hash != hash
      {
        if chain[i].hash == hash {
          return Success(chain[i]);
        }
      }
      return Failure(ChainSource);
    }
  }

  // ------------------------------------------------------------------
  // What the node says to a pass that begins with its call `k`
  // ------------------------------------------------------------------

  ghost predicate Honest(u: iset<Block>, g: Block, shows: seq<seq<Block>>) {
    shows != [] && forall c :: c in shows ==> ValidChain(u, g, c)
  }

  lemma ShownIsValid(u: iset<Block>, g: Block, shows: seq<seq<Block>>, k: nat)
    requires Honest(u, g, shows)
    ensures ValidChain(u, g, ShownAt(shows, k))
  {
    assert ShownAt(shows, k) in shows;
  }

  /** The block at `h` of the chain shown at call `k`; the genesis block if that chain is too short to answer. */
  function HeardAt(shows: seq<seq<Block>>, k: nat, h: nat, g: Block): Block {
    if h < |ShownAt(shows, k)| then ShownAt(shows, k)[h] else g
  }

  /** How many questions the ancestor search asks from `from` down before it comes to `x`: one per stored height. */
  function Turns(stored: map<nat, StoredBlock>, x: nat, from: nat): nat
    decreases from - x
  {
    if from <= x then 0 else Turns(stored, x + 1, from) + if x + 1 in stored then 1 else 0
  }

  /** The answer the search gets at `x` when its first question is call `k`; it asks for stored heights only. */
  function SearchHeardAt(shows: seq<seq<Block>>, k: nat, stored: map<nat, StoredBlock>, from: nat, g: Block, x: nat)
    : Block
  {
    if x in stored then HeardAt(shows, k + Turns(stored, x, from), x, g) else g
  }

  function SearchHeard(shows: seq<seq<Block>>, k: nat, stored: map<nat, StoredBlock>, from: nat, g: Block)
    : (r: seq<Block>)
    ensures |r| == from + 1
    ensures forall x :: 0 <= x <= from ==> r[x] == SearchHeardAt(shows, k, stored, from, g, x)
  {
    seq(from + 1, x requires 0 <= x <= from => SearchHeardAt(shows, k, stored, from, g, x))
  }

  /** The question at `x` is put to a chain too short to answer it. */
  ghost predicate AskedInVain(shows: seq<seq<Block>>, k: nat, stored: map<nat, StoredBlock>, from: nat, x: nat) {
    x in stored && |ShownAt(shows, k + Turns(stored, x, from))| <= x
  }

  /** Every question of the search has an answer, down to the height `a` it ends at. */
  ghost predicate SearchAnswered(shows: seq<seq<Block>>, k: nat, stored: map<nat, StoredBlock>, from: nat, a: nat) {
    forall x :: a <= x <= from ==> !AskedInVain(shows, k, stored, from, x)
  }

  /** The call after the search. */
  function AfterSearch(k: nat, stored: map<nat, StoredBlock>, a: nat, from: nat): nat {
    k + Turns(stored, a, from) + if a in stored then 1 else 0
  }

  /** The answers of the first phase: the tip at call `k`, the cursor at the next, then the search. */
  function StartHeard(shows: seq<seq<Block>>, k: nat, s: State, g: Block): Answers {
    match s.tip
    case None => Answers(0, [], 0)
    case Some(t) =>
      Answers(HeardAt(shows, k + 1, t.height, g).hash, SearchHeard(shows, k + 2, s.blocks, t.height, g), 0)
  }

  ghost predicate StartAnswered(shows: seq<seq<Block>>, k: nat, s: State, g: Block) {
    match s.tip
    case None => true
    case Some(t) =>
      && t.height < |ShownAt(shows, k + 1)|
      && var ans := StartHeard(shows, k, s, g);
         ans.atCursor == t.hash
         || SearchAnswered(shows, k + 2, s.blocks, t.height, Ancestor(s.blocks, ans.search, t.height))
  }

  /** The call after the first phase. */
  ghost function AfterStart(shows: seq<seq<Block>>, k: nat, s: State, g: Block): nat {
    match s.tip
    case None => k + 1
    case Some(t) =>
      var ans := StartHeard(shows, k, s, g);
      if ans.atCursor == t.hash then k + 2
      else AfterSearch(k + 2, s.blocks, Ancestor(s.blocks, ans.search, t.height), t.height)
  }

  /**
   The blocks a scan from `start` stands on: below the start those kept, from there
   on block `h` of the chain shown when its hash is asked for, two calls a block.
   */
  function ReadHeard(shows: seq<seq<Block>>, k: nat, kept: seq<Block>, start: nat, len: nat, g: Block): (r: seq<Block>)
    ensures |r| == len
    ensures forall h :: 0 <= h < len && h < start && h < |kept| ==> r[h] == kept[h]
    ensures forall h :: start <= h < len ==> r[h] == HeardAt(shows, k + 2 * (h - start), h, g)
  {
    seq(len, h requires 0 <= h < len =>
      if start <= h then HeardAt(shows, k + 2 * (h - start), h, g) else if h < |kept| then kept[h] else g)
  }

  /** Every height has a hash, and the chain shown at the call after that still has the block. */
  ghost predicate ReadAnswered(shows: seq<seq<Block>>, k: nat, start: nat, len: nat) {
    forall h :: start <= h < len ==> HeightAnswered(shows, k, start, h)
  }

  ghost predicate HeightAnswered(shows: seq<seq<Block>>, k: nat, start: nat, h: nat)
    requires start <= h
  {
    var at := k + 2 * (h - start);
    h < |ShownAt(shows, at)| && exists b :: b in ShownAt(shows, at + 1) && b.hash == ShownAt(shows, at)[h].hash
  }

  /** All a pass hears, what it stands on, and the call its last question is. */
  datatype Transcript = Transcript(ans: Answers, start: nat, read: seq<Block>, lastCall: nat)

  ghost function Heard(shows: seq<seq<Block>>, k: nat, s: State, kept: seq<Block>, g: Block): (r: Transcript)
    ensures |r.read| == |ShownAt(shows, k)| && r.start <= |r.read|
    ensures s.tip.Some? ==> s.tip.value.height < |r.ans.search|
  {
    var ans, len := StartHeard(shows, k, s, g), |ShownAt(shows, k)|;
    var n := MovedPlan(s, ans).start;
    var start := if n > len then len else n;
    var next := AfterStart(shows, k, s, g);
    var lastCall := next + 2 * (len - start);
    Transcript(ans.(atTip := if len == 0 then 0 else HeardAt(shows, lastCall, len - 1, g).hash), start,
               ReadHeard(shows, next, kept, start, len, g), lastCall)
  }

  /** Every question of the pass has an answer. */
  ghost predicate AllAnswered(shows: seq<seq<Block>>, k: nat, s: State, kept: seq<Block>, g: Block) {
    var t := Heard(shows, k, s, kept, g);
    && StartAnswered(shows, k, s, g)
    && ReadAnswered(shows, AfterStart(shows, k, s, g), t.start, |t.read|)
    && |t.read| <= |ShownAt(shows, t.lastCall)|
  }

  // ------------------------------------------------------------------
  // The engine
  // ------------------------------------------------------------------

  ghost predicate NoMatchAbove(stored: map<nat, StoredBlock>, c: seq<Block>, h: nat, from: nat) {
    from < |c| && forall x :: h < x <= from ==> !Matches(stored, c, x)
  }

  lemma AncestorIs(stored: map<nat, StoredBlock>, c: seq<Block>, from: nat, a: nat)
    requires a <= from && NoMatchAbove(stored, c, a, from) && (Matches(stored, c, a) || a == 0)
    ensures Ancestor(stored, c, from) == a
  {
  }

  lemma AncestorBelow(stored: map<nat, StoredBlock>, c: seq<Block>, from: nat, h: nat)
    requires h <= from && NoMatchAbove(stored, c, h, from)
    ensures Ancestor(stored, c, from) <= h
  {
  }

  lemma FirstTurn(stored: map<nat, StoredBlock>, from: nat)
    ensures Turns(stored, from, from) == 0
  {
  }

  lemma NextTurn(stored: map<nat, StoredBlock>, x: nat, from: nat)
    requires x < from
    ensures Turns(stored, x, from) == Turns(stored, x + 1, from) + if x + 1 in stored then 1 else 0
  {
  }

  /** The ancestor search: the ancestor in terms of the answers it gets, one call per stored height. */
  method FindCommonAncestor(chain: MovingChainSource, blocks: MemBlockStore, from: nat, ghost g: Block)
    returns (r: Result<nat, SyncError>)
    modifies chain`calls
    ensures var stored, k := blocks.blocks, old(chain.calls);
            var a := Ancestor(stored, SearchHeard(chain.shows, k, stored, from, g), from);
            && (r.Success? ==>
                  && r.value == a
                  && SearchAnswered(chain.shows, k, stored, from, a)
                  && chain.calls == AfterSearch(k, stored, a, from))
            && (chain.reliable && blocks.reliable ==> (r.Success? <==> SearchAnswered(chain.shows, k, stored, from, a)))
  {
    ghost var stored, k := blocks.blocks, chain.calls;
    ghost var search := SearchHeard(chain.shows, k, stored, from, g);
    hide SearchHeard, Ancestor, Turns;
    FirstTurn(stored, from);
    var h: nat := from;
    while true
      invariant h <= from && chain.calls == k + Turns(stored, h, from)
      invariant NoMatchAbove(stored, search, h, from)
      invariant forall x :: h < x <= from ==> !AskedInVain(chain.shows, k, stored, from, x)
      decreases h
    {
      AncestorBelow(stored, search, from, h);
      assert search[h] == SearchHeardAt(chain.shows, k, stored, from, g, h);
      var found :- blocks.BlockHashAt(h);
      if found.Some? {
        assert AskedInVain(chain.shows, k, stored, from, h) <==> |chain.Shown()| <= h;
        var hash :- chain.BlockHashAt(h);
        if found.value == hash {
          AncestorIs(stored, search, from, h);
          return Success(h);
        }
      }
      if h == 0 {
        AncestorIs(stored, search, from, 0);
        return Success(0);
      }
      NextTurn(stored, h - 1, from);
      h := h - 1;
    }
  }

  /** The first phase: tip, start and rollback in terms of the answers it gets. */
  method DetermineStart(chain: MovingChainSource, blocks: MemBlockStore, utxos: MemUtxoStore, ghost u: iset<Block>,
                        ghost g: Block)
    returns (r: Result<(nat, nat, Option<nat>), SyncError>)
    requires Honest(u, g, chain.shows) && Keyed(utxos.entries)
    modifies chain`calls, blocks, utxos`entries
    ensures Keyed(utxos.entries)
    ensures var s, k, shows := old(State(blocks.blocks, blocks.tip, utxos.entries)), old(chain.calls), chain.shows;
            && (r.Success? ==>
                  var plan, len := MovedPlan(s, StartHeard(shows, k, s, g)), |ShownAt(shows, k)|;
                  && StartAnswered(shows, k, s, g)
                  && chain.calls == AfterStart(shows, k, s, g)
                  && State(blocks.blocks, blocks.tip, utxos.entries) == plan.state
                  && r.value.0 + 1 == len
                  && r.value.1 == (if plan.start > len then len else plan.start)
                  && r.value.2 == plan.reorgTo)
            && (chain.reliable && blocks.reliable && utxos.reliable ==> (r.Success? <==> StartAnswered(shows, k, s, g)))
  {
    hide KeptBlocks, KeptTip, RolledBack, Ancestor, Keyed, SearchHeard, SearchAnswered, OrderedTxs, Txs, Linked;
    ghost var k := chain.calls;
    ShownIsValid(u, g, chain.shows, k);
    ShownIsValid(u, g, chain.shows, k + 1);
    var tip :- chain.TipHeight();
    var start: int, reorgTo := 0, None;
    var cursor :- blocks.GetSyncedTip();
    match cursor {
      case None =>
      case Some(t) =>
        var hash :- chain.BlockHashAt(t.height);
        if hash == t.hash {
          if t.height == U32_MAX {
            return Failure(Overflow);
          }
          start := t.height + 1;
        } else {
          var ancestor :- FindCommonAncestor(chain, blocks, t.height, g);
          var _ :- blocks.RollbackAbove(ancestor);
          var _ :- utxos.RollbackAbove(ancestor);
          reorgTo := Some(ancestor);
          start := ancestor + 1;
        }
    }
    if tip == U32_MAX {
      return Failure(Overflow);
    }
    if start > tip + 1 {
      start := tip + 1;
    }
    return Success((tip, start, reorgTo));
  }

  /** A block found by a hash that a valid chain shows at `h` is that chain's block, and in spending order. */
  lemma FoundBlock(v: ScanView, u: iset<Block>, g: Block, shown: seq<Block>, later: seq<Block>, h: nat, block: Block)
    requires Binding(u) && ValidChain(u, g, shown) && ValidChain(u, g, later)
    requires h < |shown| && block in later && block.hash == shown[h].hash
    ensures block == shown[h] && WellOrdered(BlockEvents(v, h, block.txs))
  {
    hide RangeEvents, BlockEvents, OrderedTxs, Txs, WellOrdered;
    assert shown[h] in shown;
    ChainOrdered(v, u, g, shown);
    FreshBlocks(v, shown);
    assert OrderedBlock(v, shown, h);
  }

  /** The scan: every block is the one the node shows when it is asked for the hash at that height. */
  method ScanRange(engine: BlockScanEngine, chain: MovingChainSource, blocks: MemBlockStore, utxos: MemUtxoStore,
                   start: nat, tip: nat, ghost u: iset<Block>, ghost g: Block, ghost kept: seq<Block>)
    returns (r: Result<Counts, SyncError>)
    requires engine.Valid() && Keyed(utxos.entries) && start <= tip + 1
    requires Binding(u) && Honest(u, g, chain.shows)
    modifies chain`calls, blocks`blocks, utxos`entries
    ensures Keyed(utxos.entries)
    ensures var k, shows := old(chain.calls), chain.shows;
            var read := ReadHeard(shows, k, kept, start, tip + 1, g);
            && (r.Success? ==>
                  && ReadAnswered(shows, k, start, tip + 1)
                  && chain.calls == k + 2 * (tip + 1 - start)
                  && State(blocks.blocks, blocks.tip, utxos.entries)
                     == Scanned(engine.View(), old(State(blocks.blocks, blocks.tip, utxos.entries)), read, start,
                                tip + 1)
                  && r.value == RangeCounts(engine.View(), old(utxos.entries), read, start, tip + 1))
            && (chain.reliable && blocks.reliable && utxos.reliable ==>
                  (r.Success? <==> ReadAnswered(shows, k, start, tip + 1)))
  {
    hide WellOrdered, ValidIndex, Scanned, RangeCounts, RangeEvents, BlockEvents, StoredThrough, ValidChain, Binding,
         ReadHeard;
    ghost var v, s, k := engine.View(), State(blocks.blocks, blocks.tip, utxos.entries), chain.calls;
    ghost var read := ReadHeard(chain.shows, k, kept, start, tip + 1, g);
    NothingScanned(v, s, read, start);
    var spendIndex :- utxos.UnspentOutpoints();
    var totals := Counts(0, 0, 0, 0);
    for h := start to tip + 1
      invariant Keyed(utxos.entries)
      invariant chain.calls == k + 2 * (h - start)
      invariant forall x :: start <= x < h ==> HeightAnswered(chain.shows, k, start, x)
      invariant State(blocks.blocks, blocks.tip, utxos.entries) == Scanned(v, s, read, start, h)
      invariant spendIndex.Keys == Unspent(utxos.entries)
      invariant totals == RangeCounts(v, s.utxos, read, start, h)
    {
      ghost var at := chain.calls;
      ShownIsValid(u, g, chain.shows, at);
      ShownIsValid(u, g, chain.shows, at + 1);
      assert h >= |chain.Shown()| ==> !HeightAnswered(chain.shows, k, start, h);
      var hash :- chain.BlockHashAt(h);
      assert HeightAnswered(chain.shows, k, start, h) <==> exists b :: b in chain.Shown() && b.hash == hash;
      var block :- chain.BlockWithHash(hash);
      FoundBlock(v, u, g, ShownAt(chain.shows, at), ShownAt(chain.shows, at + 1), h, block);
      assert read[h] == block;
      ScanOneMore(v, s, read, start, h);
      CountOneMore(v, s, read, start, h);
      var step, _ := engine.CommitBlock(blocks, utxos, h, hash, block, spendIndex, read);
      var more :- step;
      spendIndex := more.0;
      totals := Plus(totals, more.1);
    }
    return Success(totals);
  }

  /**
   One sync pass over a node that may show another chain at each call, the stores
   holding the blocks `kept`. On working stores it completes exactly when each of its
   questions has an answer, and it then leaves what `MovedPass` makes of the answers.
   */
  method Sync(engine: BlockScanEngine, chain: MovingChainSource, blocks: MemBlockStore, utxos: MemUtxoStore,
              ghost u: iset<Block>, ghost g: Block, ghost kept: seq<Block>)
    returns (r: Result<SyncSummary, SyncError>)
    requires engine.Valid() && Keyed(utxos.entries) && Binding(u) && Honest(u, g, chain.shows)
    modifies chain`calls, blocks, utxos`entries
    ensures Keyed(utxos.entries)
    ensures var s, k, shows := old(State(blocks.blocks, blocks.tip, utxos.entries)), old(chain.calls), chain.shows;
            var t := Heard(shows, k, s, kept, g);
            && (r.Success? ==>
                  && t.read != [] && AllAnswered(shows, k, s, kept, g) && chain.calls == t.lastCall + 1
                  && State(blocks.blocks, blocks.tip, utxos.entries) == MovedPass(engine.View(), s, t.ans, t.read)
                  && r.value.reorgTo == MovedPlan(s, t.ans).reorgTo)
            && (chain.reliable && blocks.reliable && utxos.reliable ==>
                  (r.Success? <==> AllAnswered(shows, k, s, kept, g)))
  {
    hide WellOrdered, ValidIndex, Scanned, RangeCounts, Binding, OrderedTxs, Txs, Linked, Ancestor, BothRolledBack,
         StartHeard, AfterStart, StartAnswered, ReadAnswered, ReadHeard;
    ghost var k := chain.calls;
    ShownIsValid(u, g, chain.shows, k);
    var plan :- DetermineStart(chain, blocks, utxos, u, g);
    var (tip, start, reorgTo) := plan;
    var counts :- ScanRange(engine, chain, blocks, utxos, start, tip, u, g, kept);
    if tip + 1 >= start {
      var tipHash :- chain.BlockHashAt(tip);
      var _ :- blocks.SetSyncedTip(SyncedTip(tip, tipHash));
    }
    return Success(SyncSummary(counts.scanned, counts.captured, counts.spent, counts.skipped, reorgTo));
  }

  // ------------------------------------------------------------------
  // A node that stands still
  // ------------------------------------------------------------------

  ghost predicate Steady(shows: seq<seq<Block>>, c: seq<Block>) {
    shows != [] && forall x :: x in shows ==> x == c
  }

  lemma {:induction false} AncestorAgrees(stored: map<nat, StoredBlock>, a: seq<Block>, b: seq<Block>, from: nat)
    requires from < |a| && from < |b| && forall h :: 0 <= h <= from && h in stored ==> a[h] == b[h]
    ensures Ancestor(stored, a, from) == Ancestor(stored, b, from)
  {
    if from > 0 {
      AncestorAgrees(stored, a, b, from - 1);
    }
  }

  lemma {:induction false} EventsAgree(v: ScanView, c: seq<Block>, c': seq<Block>, lo: nat, hi: nat)
    requires hi <= |c| && hi <= |c'| && forall h :: lo <= h < hi ==> c[h] == c'[h]
    ensures RangeEvents(v, c, lo, hi) == RangeEvents(v, c', lo, hi)
  {
    if lo < hi {
      EventsAgree(v, c, c', lo, hi - 1);
    }
  }

  lemma StoredAgrees(stored: map<nat, StoredBlock>, c: seq<Block>, c': seq<Block>, lo: nat, hi: nat)
    requires hi <= |c| && hi <= |c'| && forall h :: lo <= h < hi ==> c[h] == c'[h]
    ensures StoredThrough(stored, c, lo, hi) == StoredThrough(stored, c', lo, hi)
  {
    hide StoredThrough;
    SameMap(StoredThrough(stored, c, lo, hi), StoredThrough(stored, c', lo, hi));
  }

  lemma SteadyShown(shows: seq<seq<Block>>, c: seq<Block>)
    requires Steady(shows, c)
    ensures forall i: nat :: ShownAt(shows, i) == c
  {
    forall i: nat
      ensures ShownAt(shows, i) == c
    {
      assert ShownAt(shows, i) in shows;
    }
  }

  /** On a steady node the first phase is that of a fixed one. */
  lemma SteadyStart(s: State, shows: seq<seq<Block>>, c: seq<Block>, k: nat, g: Block)
    requires Steady(shows, c) && CanStart(s, c)
    ensures StartAnswered(shows, k, s, g) && MovedPlan(s, StartHeard(shows, k, s, g)) == Prepare(s, c)
  {
    hide BothRolledBack, Turns, Ancestor;
    SteadyShown(shows, c);
    if s.tip.Some? {
      var from := s.tip.value.height;
      AncestorAgrees(s.blocks, SearchHeard(shows, k + 2, s.blocks, from, g), c, from);
    }
  }

  lemma SteadyHeight(shows: seq<seq<Block>>, c: seq<Block>, k: nat, start: nat, h: nat)
    requires Steady(shows, c) && start <= h < |c|
    ensures HeightAnswered(shows, k, start, h)
  {
    SteadyShown(shows, c);
    var at: nat := k + 2 * (h - start);
    var now, next := ShownAt(shows, at), ShownAt(shows, at + 1);
    assert now == c && next == c;
    assert c[h] in next && c[h].hash == now[h].hash;
  }

  lemma SteadyRead(shows: seq<seq<Block>>, c: seq<Block>, k: nat, kept: seq<Block>, start: nat, g: Block)
    requires Steady(shows, c)
    ensures ReadAnswered(shows, k, start, |c|)
    ensures forall h :: start <= h < |c| ==> ReadHeard(shows, k, kept, start, |c|, g)[h] == c[h]
  {
    hide HeightAnswered;
    SteadyShown(shows, c);
    forall h: nat | start <= h < |c|
      ensures HeightAnswered(shows, k, start, h)
    {
      SteadyHeight(shows, c, k, start, h);
    }
  }

  lemma SteadyAnswered(s: State, shows: seq<seq<Block>>, c: seq<Block>, k: nat, kept: seq<Block>, g: Block)
    requires Steady(shows, c) && 0 < |c| <= U32_MAX
    ensures AllAnswered(shows, k, s, kept, g) <==> CanStart(s, c)
  {
    hide SearchHeard, SearchAnswered, Ancestor, Prepare, MovedPlan, ReadAnswered, ReadHeard, AfterStart;
    SteadyShown(shows, c);
    if CanStart(s, c) {
      SteadyStart(s, shows, c, k, g);
      SteadyRead(shows, c, AfterStart(shows, k, s, g), kept, Heard(shows, k, s, kept, g).start, g);
    }
  }

  lemma SteadyPass(v: ScanView, s: State, c: seq<Block>, ans: Answers, read: seq<Block>)
    requires CanStart(s, c) && (s.tip.Some? ==> s.tip.value.height < |ans.search|)
    requires MovedPlan(s, ans) == Prepare(s, c) && ans.atTip == c[|c| - 1].hash
    requires |read| == |c| && forall h :: Prepare(s, c).start <= h < |c| ==> read[h] == c[h]
    ensures MovedPass(v, s, ans, read) == Passed(v, s, c)
  {
    hide MovedPlan, Prepare, RangeEvents, Scan, StoredThrough;
    var plan := Prepare(s, c);
    StartInRange(s, c);
    EventsAgree(v, read, c, plan.start, |c|);
    StoredAgrees(plan.state.blocks, read, c, plan.start, |c|);
  }

  /**
   A node that shows one chain throughout: every question is answered exactly when a
   pass can start, and what the pass then leaves is `Passed`.
   */
  lemma {:induction false} SteadyNode(v: ScanView, s: State, shows: seq<seq<Block>>, c: seq<Block>, k: nat,
                                      kept: seq<Block>, g: Block)
    requires Steady(shows, c) && 0 < |c| <= U32_MAX
    ensures var t := Heard(shows, k, s, kept, g);
            && |t.read| == |c|
            && (AllAnswered(shows, k, s, kept, g) <==> CanStart(s, c))
            && (CanStart(s, c) ==> MovedPass(v, s, t.ans, t.read) == Passed(v, s, c))
  {
    hide AllAnswered, StartHeard, StartAnswered, AfterStart, MovedPlan, Prepare, MovedPass, Passed, ReadHeard,
         ReadAnswered;
    SteadyShown(shows, c);
    SteadyAnswered(s, shows, c, k, kept, g);
    if CanStart(s, c) {
      var t := Heard(shows, k, s, kept, g);
      SteadyStart(s, shows, c, k, g);
      StartInRange(s, c);
      SteadyRead(shows, c, AfterStart(shows, k, s, g), kept, t.start, g);
      HeardTip(shows, k, s, g);
      TipApart(s, StartHeard(shows, k, s, g), t.ans);
      SteadyPass(v, s, c, t.ans, t.read);
    }
  }

  lemma HeardTip(shows: seq<seq<Block>>, k: nat, s: State, g: Block)
    ensures s.tip.Some? ==> s.tip.value.height < |StartHeard(shows, k, s, g).search|
  {
  }

  /** The answer at the tip comes after the plan is made. */
  lemma TipApart(s: State, a: Answers, b: Answers)
    requires a.(atTip := b.atTip) == b && (s.tip.Some? ==> s.tip.value.height < |a.search|)
    ensures MovedPlan(s, a) == MovedPlan(s, b)
  {
  }

  // ------------------------------------------------------------------
  // What a caller may rely on
  // ------------------------------------------------------------------

  /**
   On a node that stands still the pass is the one of a fixed node, whatever the
   stores hold; from fresh stores or a replay it ends in the replay of the node's chain.
   */
  method SyncedOnSteadyNode(engine: BlockScanEngine, chain: MovingChainSource, blocks: MemBlockStore,
                            utxos: MemUtxoStore, ghost u: iset<Block>, ghost g: Block, ghost c: seq<Block>,
                            ghost p: seq<Block>)
    returns (r: Result<SyncSummary, SyncError>)
    requires engine.Valid() && Keyed(utxos.entries) && Binding(u) && ValidChain(u, g, c) && Steady(chain.shows, c)
    modifies chain`calls, blocks, utxos`entries
    ensures var s := old(State(blocks.blocks, blocks.tip, utxos.entries));
            && (chain.reliable && blocks.reliable && utxos.reliable ==> (r.Success? <==> Enabled(s, c)))
            && (r.Success? ==>
                  && Enabled(s, c)
                  && State(blocks.blocks, blocks.tip, utxos.entries) == Passed(engine.View(), s, c))
            && (r.Success? && Applied(u, g, p) && s == Replayed(engine.View(), p) ==>
                  State(blocks.blocks, blocks.tip, utxos.entries) == SyncedTo(engine.View(), c))
  {
    hide OrderedTxs, Txs, Linked, Binding, Passed, MovedPass, Heard, AllAnswered, Keyed, Replayed, SyncedTo;
    ghost var s, k := State(blocks.blocks, blocks.tip, utxos.entries), chain.calls;
    SteadyNode(engine.View(), s, chain.shows, c, k, [], g);
    r := Sync(engine, chain, blocks, utxos, u, g, []);
    if Applied(u, g, p) && s == Replayed(engine.View(), p) && CanStart(s, c) {
      CleanPassEnds(engine.View(), u, g, p, c);
    }
  }

  /** What a pass hears of an honest node. */
  lemma HeardFacts(u: iset<Block>, g: Block, shows: seq<seq<Block>>, k: nat, s: State, kept: seq<Block>)
    requires Honest(u, g, shows) && (forall b :: b in kept ==> b in u)
    ensures var t := Heard(shows, k, s, kept, g);
            && Answered(s, g, t.ans) && t.read != []
            && (forall b :: b in t.read ==> b in u)
            && StandsOn(kept, MovedPlan(s, t.ans).start, t.read)
            && ValidChain(u, g, ShownAt(shows, t.lastCall))
            && (AllAnswered(shows, k, s, kept, g) ==>
                  && |t.read| <= |ShownAt(shows, t.lastCall)|
                  && t.ans.atTip == ShownAt(shows, t.lastCall)[|t.read| - 1].hash)
  {
    hide OrderedTxs, Txs, Linked, Ancestor, BothRolledBack, Turns, SearchHeard;
    var t := Heard(shows, k, s, kept, g);
    forall i: nat
      ensures ValidChain(u, g, ShownAt(shows, i))
    {
      ShownIsValid(u, g, shows, i);
    }
    assert ShownAt(shows, k)[0] == g && g in ShownAt(shows, k);
    TipApart(s, StartHeard(shows, k, s, g), t.ans);
    forall h | 0 <= h < |t.read|
      ensures t.read[h] in u
    {
    }
  }

  /**
   From any leftover state, fresh stores and replays among them: a completed pass ends
   in the replay of the chain shown at its last question, up to the tip it was told at
   its first, exactly when what it heard is continuous and the leftovers are cleared.
   A fair pass leaves stores of the same kind for the next.
   */
  method SyncedOrDrifted(engine: BlockScanEngine, chain: MovingChainSource, blocks: MemBlockStore, utxos: MemUtxoStore,
                         ghost u: iset<Block>, ghost g: Block, ghost w: Sight)
    returns (r: Result<SyncSummary, SyncError>)
    requires engine.Valid() && Binding(u) && Honest(u, g, chain.shows)
    requires InSight(engine.View(), u, g, w) && w.state == State(blocks.blocks, blocks.tip, utxos.entries)
    modifies chain`calls, blocks, utxos`entries
    ensures var k, shows, v := old(chain.calls), chain.shows, engine.View();
            var t := Heard(shows, k, w.state, w.seen, g);
            var last := ShownAt(shows, t.lastCall);
            && (chain.reliable && blocks.reliable && utxos.reliable ==>
                  (r.Success? <==> AllAnswered(shows, k, w.state, w.seen, g)))
            && (r.Success? ==>
                  var plan, now := MovedPlan(w.state, t.ans), State(blocks.blocks, blocks.tip, utxos.entries);
                  && chain.calls == t.lastCall + 1 && ValidChain(u, g, last) && 0 < |t.read| <= |last|
                  && w.n <= w.m <= w.k <= |w.seen|
                  && (Continuous(plan.start, t.read, last) && plan.reorgTo.None? ==> w.n <= |t.read|)
                  && (now == SyncedTo(v, last[..|t.read|]) <==>
                      && Continuous(plan.start, t.read, last)
                      && (plan.reorgTo.None? ==> Cleared(v, w.seen, w.n, w.m, w.k, w.state, plan, t.read)))
                  && (Fair(v, u, g, w, Turn(t.ans, t.read)) ==>
                        && now == SightAfter(v, u, g, w, Turn(t.ans, t.read)).state
                        && InSight(v, u, g, SightAfter(v, u, g, w, Turn(t.ans, t.read)))))
  {
    hide OrderedTxs, Txs, Linked, Binding, LeftOver, SyncedTo, MovedPass, MovedPlan, Continuous, Cleared, Heard,
         AllAnswered, Fair, Keyed;
    ghost var v, k := engine.View(), chain.calls;
    SightIsKeyed(v, u, g, w);
    HeardFacts(u, g, chain.shows, k, w.state, w.seen);
    r := Sync(engine, chain, blocks, utxos, u, g, w.seen);
    if r.Success? {
      ghost var t := Heard(chain.shows, k, w.state, w.seen, g);
      StalePassIff(v, u, g, w.seen, w.n, w.m, w.k, w.state, t.ans, t.read, ShownAt(chain.shows, t.lastCall));
      if Fair(v, u, g, w, Turn(t.ans, t.read)) {
        TurnInSight(v, u, g, w, Turn(t.ans, t.read));
      }
    }
  }

  lemma SightIsKeyed(v: ScanView, u: iset<Block>, g: Block, w: Sight)
    requires InSight(v, u, g, w)
    ensures Keyed(w.state.utxos)
    ensures w.n <= w.m <= w.k <= |w.seen|
    ensures forall b :: b in w.seen ==> b in u
  {
    hide OrderedTxs, Txs, Linked, RangeEvents, LeftRecords, Keyed;
    var own := w.state.(tip := OwnTip(w.seen, w.n));
    LeftOverResumable(v, u, g, w.seen, w.n, w.m, w.k, own);
    ResumableIsKeyed(v, u, g, w.seen, w.n, own);
  }
}
