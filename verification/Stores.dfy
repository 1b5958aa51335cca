/**
 The in-memory stores and the scripted chain source.

 The traits let every call fail. An object that is `reliable` never injects a
 failure, which is how the in-memory fakes behave; any other implementation may
 fail at any call and then leaves its state as it was.
 */
module Stores {
  import opened Results
  import opened ChainModel
  import opened Events

  datatype SyncError = Store | ChainSource | Wollet | Overflow

  datatype StoredBlock = StoredBlock(hash: BlockHash, raw: Block)

  /** The largest height of a non-empty set. */
  ghost function Highest(s: set<nat>): (h: nat)
    requires s != {}
    ensures h in s && forall g :: g in s ==> g <= h
  {
    var x :| x in s;
    if s == {x} then x
    else
      var y := Highest(s - {x});
      assert forall g :: g in s ==> g == x || g in s - {x};
      if x < y then y else x
  }

  /** The stored blocks above `height` are dropped. */
  function KeptBlocks(blocks: map<nat, StoredBlock>, height: nat): map<nat, StoredBlock> {
    blocks - (set h | h in blocks && h > height)
  }

  /** A cursor above `height` moves to the highest block kept. */
  ghost function KeptTip(blocks: map<nat, StoredBlock>, tip: Option<SyncedTip>, height: nat): Option<SyncedTip> {
    if tip.None? || tip.value.height <= height then tip
    else
      var kept := KeptBlocks(blocks, height);
      if kept.Keys == {} then None
      else Some(SyncedTip(Highest(kept.Keys), kept[Highest(kept.Keys)].hash))
  }

  class MemUtxoStore {
    var entries: Store
    const reliable: bool

    constructor (reliable: bool)
      ensures entries == map[] && this.reliable == reliable
    {
      entries := map[];
      this.reliable := reliable;
    }

    method UpsertUtxos(utxos: seq<CapturedUtxo>) returns (r: Result<(), SyncError>)
      modifies this`entries
      ensures reliable ==> r.Success?
      ensures entries == if r.Success? then Upserted(old(entries), utxos) else old(entries)
      ensures old(Keyed(entries)) ==> Keyed(entries)
      ensures r.Success? ==> forall op :: UpsertedEntry(old(entries), utxos, op, entries)
    {
      forall op
        ensures UpsertedEntry(entries, utxos, op, Upserted(entries, utxos))
      {
        UpsertedMeans(entries, utxos, op);
      }
      if !reliable {
        var failing: bool := *;
        if failing { return Failure(SyncError.Store); }
      }
      for i := 0 to |utxos|
        invariant entries == Upserted(old(entries), utxos[..i])
        invariant old(Keyed(entries)) ==> Keyed(entries)
      {
        var u := utxos[i];
        if u.outpoint in entries {
          entries := entries[u.outpoint := entries[u.outpoint].(utxo := u)];
        } else {
          entries := entries[u.outpoint := Entry(u, None)];
        }
        assert utxos[..i + 1][..|utxos[..i + 1]| - 1] == utxos[..i];
      }
      assert utxos[..|utxos|] == utxos;
      return Success(());
    }

    method MarkSpent(outpoints: seq<OutPoint>, spentHeight: nat) returns (r: Result<(), SyncError>)
      modifies this`entries
      ensures reliable ==> r.Success?
      ensures entries == if r.Success? then Marked(old(entries), outpoints, spentHeight) else old(entries)
      ensures old(Keyed(entries)) ==> Keyed(entries)
      ensures r.Success? ==>
                && entries.Keys == old(entries).Keys
                && forall op :: op in entries ==>
                     entries[op] == if op in outpoints
                                    then Entry(old(entries)[op].utxo.(isSpent := true), Some(spentHeight))
                                    else old(entries)[op]
    {
      MarkedMeans(entries, outpoints, spentHeight);
      if !reliable {
        var failing: bool := *;
        if failing { return Failure(SyncError.Store); }
      }
      for i := 0 to |outpoints|
        invariant entries == Marked(old(entries), outpoints[..i], spentHeight)
        invariant old(Keyed(entries)) ==> Keyed(entries)
      {
        var op := outpoints[i];
        if op in entries {
          entries := entries[op := Entry(entries[op].utxo.(isSpent := true), Some(spentHeight))];
        }
        assert outpoints[..i + 1][..|outpoints[..i + 1]| - 1] == outpoints[..i];
      }
      assert outpoints[..|outpoints|] == outpoints;
      return Success(());
    }

    /** Each unspent record of `wallet` once, in no particular order. */
    method ListUnspent(wallet: WalletId) returns (r: Result<seq<CapturedUtxo>, SyncError>)
      ensures reliable ==> r.Success?
      ensures r.Success? && Keyed(entries) ==> multiset(r.value) == multiset(UnspentOf(entries, wallet))
      ensures r.Success? && Keyed(entries) ==>
                && (forall i, j :: 0 <= i < j < |r.value| ==> r.value[i] != r.value[j])
                && forall u :: u in r.value <==>
                     u.outpoint in entries && entries[u.outpoint].utxo == u && !u.isSpent && u.walletId == wallet
    {
      if !reliable {
        var failing: bool := *;
        if failing { return Failure(SyncError.Store); }
      }
      var todo, list := entries.Keys, [];
      while todo != {}
        invariant todo <= entries.Keys
        invariant Keyed(entries) ==>
            multiset(list) == multiset(UnspentOf(entries - todo, wallet))
      {
        var op :| op in todo;
        if Keyed(entries) {
          UnspentOfMore(entries, todo, op, wallet);
        }
        todo := todo - {op};
        list := list + Mine(entries[op], wallet);
      }
      assert entries - todo == entries;
      if Keyed(entries) {
        ListedOnce(entries, wallet, list);
      }
      return Success(list);
    }

    /** The unspent outpoints with their owners, as the map the engine collects them into. */
    method UnspentOutpoints() returns (r: Result<map<OutPoint, WalletId>, SyncError>)
      ensures reliable ==> r.Success?
      ensures r.Success? && Keyed(entries) ==>
                && r.value.Keys == Unspent(entries)
                && (forall op :: op in r.value <==> op in entries && !entries[op].utxo.isSpent)
                && forall op :: op in r.value ==> r.value[op] == entries[op].utxo.walletId
    {
      if !reliable {
        var failing: bool := *;
        if failing { return Failure(SyncError.Store); }
      }
      var todo := entries.Keys;
      var found: map<OutPoint, WalletId> := map[];
      while todo != {}
        invariant todo <= entries.Keys
        invariant Keyed(entries) ==>
                    && found.Keys == Unspent(entries) - todo
                    && forall op :: op in found ==> found[op] == entries[op].utxo.walletId
      {
        var op :| op in todo;
        todo := todo - {op};
        var u := entries[op].utxo;
        if !u.isSpent {
          found := found[u.outpoint := u.walletId];
        }
      }
      return Success(found);
    }

    method RollbackAbove(height: nat) returns (r: Result<(), SyncError>)
      modifies this`entries
      ensures reliable ==> r.Success?
      ensures entries == if r.Success? then RolledBack(old(entries), height) else old(entries)
      ensures old(Keyed(entries)) ==> Keyed(entries)
      ensures r.Success? ==>
                && (forall op :: op in entries <==> op in old(entries) && old(entries)[op].utxo.height <= height)
                && forall op :: op in entries ==>
                     var was := old(entries)[op];
                     if was.spentHeight.Some? && was.spentHeight.value > height
                     then entries[op] == Entry(was.utxo.(isSpent := false), None)
                     else entries[op] == was
    {
      if !reliable {
        var failing: bool := *;
        if failing { return Failure(SyncError.Store); }
      }
      // First pass: forget what the orphaned blocks created.
      entries := entries - (set op | op in entries && entries[op].utxo.height > height);
      // Second pass: undo their spends of what is left.
      var kept, todo := entries, entries.Keys;
      while todo != {}
        invariant todo <= kept.Keys == entries.Keys
        invariant forall op :: op in kept ==>
                                 entries[op] == if op in todo then kept[op] else Unspend(kept[op], height)
      {
        var op :| op in todo;
        todo := todo - {op};
        var e := entries[op];
        if e.spentHeight.Some? && e.spentHeight.value > height {
          entries := entries[op := Entry(e.utxo.(isSpent := false), None)];
        }
      }
      return Success(());
    }
  }

  /** The last record given for an outpoint replaces the one there, which leaves its spend height. */
  ghost predicate UpsertedEntry(m: Store, us: seq<CapturedUtxo>, op: OutPoint, now: Store) {
    if exists k :: 0 <= k < |us| && us[k].outpoint == op then
      op in now
      && now[op].spentHeight == (if op in m then m[op].spentHeight else None)
      && exists k :: 0 <= k < |us| && us[k].outpoint == op && now[op].utxo == us[k]
                     && forall j :: k < j < |us| ==> us[j].outpoint != op
    else
      (op in now <==> op in m) && (op in m ==> now[op] == m[op])
  }

  lemma {:induction false} UpsertedMeans(m: Store, us: seq<CapturedUtxo>, op: OutPoint)
    ensures UpsertedEntry(m, us, op, Upserted(m, us))
  {
    if us != [] {
      var n := |us| - 1;
      var init, before, now := us[..n], Upserted(m, us[..n]), Upserted(m, us);
      UpsertedMeans(m, init, op);
      assert forall k :: 0 <= k < n ==> init[k] == us[k];
      if us[n].outpoint == op {
        assert now[op] == Entry(us[n], if op in before then before[op].spentHeight else None);
      } else {
        assert op in now <==> op in before;
        if k :| 0 <= k < |us| && us[k].outpoint == op {
          assert init[k].outpoint == op;
          var last :| 0 <= last < |init| && init[last].outpoint == op && before[op].utxo == init[last]
                      && forall j :: last < j < |init| ==> init[j].outpoint != op;
          assert us[last].outpoint == op && forall j :: last < j < |us| ==> us[j].outpoint != op;
        }
      }
    }
  }

  lemma {:induction false} MarkedMeans(m: Store, ops: seq<OutPoint>, h: nat)
    ensures Marked(m, ops, h).Keys == m.Keys
    ensures forall op :: op in m ==>
                           Marked(m, ops, h)[op] ==
                           if op in ops then Entry(m[op].utxo.(isSpent := true), Some(h)) else m[op]
  {
    if ops != [] {
      MarkedMeans(m, ops[..|ops| - 1], h);
    }
  }

  lemma Twice(list: seq<CapturedUtxo>, i: nat, j: nat)
    requires i < j < |list|
    ensures list[i] == list[j] ==> multiset(list)[list[i]] > 1
  {
    assert list == list[..j] + [list[j]] + list[j + 1..];
    assert list[i] in list[..j];
  }

  lemma ListedOnce(m: Store, wallet: WalletId, list: seq<CapturedUtxo>)
    requires Keyed(m) && multiset(list) == multiset(UnspentOf(m, wallet))
    ensures forall i, j :: 0 <= i < j < |list| ==> list[i] != list[j]
    ensures forall u :: u in list <==> u.outpoint in m && m[u.outpoint].utxo == u && !u.isSpent && u.walletId == wallet
  {
    forall i, j | 0 <= i < j < |list|
      ensures list[i] != list[j]
    {
      Twice(list, i, j);
    }
    forall u
      ensures u in list <==> u in UnspentOf(m, wallet)
    {
      assert u in list <==> u in multiset(list);
    }
  }

  /** The unspent records of one wallet. */
  ghost function UnspentOf(m: Store, wallet: WalletId): set<CapturedUtxo> {
    set op | op in m && !m[op].utxo.isSpent && m[op].utxo.walletId == wallet :: m[op].utxo
  }

  /** The record under `op`, if it is one of the wallet's unspent ones. */
  function Mine(e: Entry, wallet: WalletId): seq<CapturedUtxo> {
    if !e.utxo.isSpent && e.utxo.walletId == wallet then [e.utxo] else []
  }

  lemma UnspentOfMore(m: Store, todo: set<OutPoint>, op: OutPoint, wallet: WalletId)
    requires Keyed(m) && op in todo && op in m
    ensures multiset(UnspentOf(m - (todo - {op}), wallet)) ==
            multiset(UnspentOf(m - todo, wallet)) + multiset(Mine(m[op], wallet))
  {
    var more, less, one := m - (todo - {op}), m - todo, set u | u in Mine(m[op], wallet);
    assert forall k :: k in more <==> k in less || k == op;
    forall u | u in UnspentOf(less, wallet)
      ensures u in UnspentOf(more, wallet) && u !in one
    {
      var k :| k in less && !less[k].utxo.isSpent && less[k].utxo.walletId == wallet && less[k].utxo == u;
      assert k in more && more[k] == less[k];
    }
    assert op in more && more[op] == m[op];
    assert UnspentOf(more, wallet) == UnspentOf(less, wallet) + one;
    assert multiset(one) == multiset(Mine(m[op], wallet));
  }

  class MemBlockStore {
    var blocks: map<nat, StoredBlock>
    var tip: Option<SyncedTip>
    const reliable: bool

    constructor (reliable: bool)
      ensures blocks == map[] && tip == None && this.reliable == reliable
    {
      blocks, tip := map[], None;
      this.reliable := reliable;
    }

    method StoreBlock(height: nat, hash: BlockHash, raw: Block) returns (r: Result<(), SyncError>)
      modifies this`blocks
      ensures reliable ==> r.Success?
      ensures blocks == if r.Success? then old(blocks)[height := StoredBlock(hash, raw)] else old(blocks)
    {
      if !reliable {
        var failing: bool := *;
        if failing { return Failure(SyncError.Store); }
      }
      blocks := blocks[height := StoredBlock(hash, raw)];
      return Success(());
    }

    method GetSyncedTip() returns (r: Result<Option<SyncedTip>, SyncError>)
      ensures reliable ==> r.Success?
      ensures r.Success? ==> r.value == tip
    {
      if !reliable {
        var failing: bool := *;
        if failing { return Failure(SyncError.Store); }
      }
      return Success(tip);
    }

    method SetSyncedTip(newTip: SyncedTip) returns (r: Result<(), SyncError>)
      modifies this`tip
      ensures reliable ==> r.Success?
      ensures tip == if r.Success? then Some(newTip) else old(tip)
    {
      if !reliable {
        var failing: bool := *;
        if failing { return Failure(SyncError.Store); }
      }
      tip := Some(newTip);
      return Success(());
    }

    method BlockHashAt(height: nat) returns (r: Result<Option<BlockHash>, SyncError>)
      ensures reliable ==> r.Success?
      ensures r.Success? ==> r.value == if height in blocks then Some(blocks[height].hash) else None
    {
      if !reliable {
        var failing: bool := *;
        if failing { return Failure(SyncError.Store); }
      }
      return Success(if height in blocks then Some(blocks[height].hash) else None);
    }

    method RollbackAbove(height: nat) returns (r: Result<(), SyncError>)
      modifies this
      ensures reliable ==> r.Success?
      ensures blocks == if r.Success? then KeptBlocks(old(blocks), height) else old(blocks)
      ensures tip == if r.Success? then KeptTip(old(blocks), old(tip), height) else old(tip)
      ensures r.Success? ==>
                && (forall h :: h in blocks <==> h in old(blocks) && h <= height)
                && (forall h :: h in blocks ==> blocks[h] == old(blocks)[h])
                && if old(tip).None? || old(tip).value.height <= height then tip == old(tip)
                   else if blocks == map[] then tip == None
                   else
                     && tip.Some? && tip.value.height in blocks && tip.value.hash == blocks[tip.value.height].hash
                     && forall h :: h in blocks ==> h <= tip.value.height
    {
      if !reliable {
        var failing: bool := *;
        if failing { return Failure(SyncError.Store); }
      }
      blocks := KeptBlocks(blocks, height);
      if tip.Some? && tip.value.height > height {
        var best: Option<nat> := None;
        var todo := blocks.Keys;
        while todo != {}
          invariant todo <= blocks.Keys
          invariant best.None? ==> todo == blocks.Keys
          invariant best.Some? ==> best.value in blocks && forall h :: h in blocks && h !in todo ==> h <= best.value
        {
          var h :| h in todo;
          todo := todo - {h};
          if best.None? || best.value < h {
            best := Some(h);
          }
        }
        tip := match best case Some(h) => Some(SyncedTip(h, blocks[h].hash)) case None => None;
      }
      return Success(());
    }
  }

  /** An in-memory chain; index is height. */
  class MockChainSource {
    var chain: seq<Block>
    const reliable: bool

    constructor (reliable: bool)
      ensures chain == [] && this.reliable == reliable
    {
      chain := [];
      this.reliable := reliable;
    }

    method PushBlock(block: Block)
      modifies this`chain
      ensures chain == old(chain) + [block]
    {
      chain := chain + [block];
    }

    /** Drop every block above `height`. */
    method ReorgTo(height: nat)
      modifies this`chain
      ensures chain == if height + 1 < |old(chain)| then old(chain)[..height + 1] else old(chain)
    {
      if height + 1 < |chain| {
        chain := chain[..height + 1];
      }
    }

    method TipHeight() returns (r: Result<nat, SyncError>)
      ensures r.Success? ==> 0 < |chain| <= U32_MAX + 1 && r.value == |chain| - 1
      ensures reliable ==> (r.Success? <==> 0 < |chain| <= U32_MAX + 1)
    {
      if !reliable {
        var failing: bool := *;
        if failing { return Failure(ChainSource); }
      }
      if |chain| == 0 {
        return Failure(ChainSource);
      }
      return if |chain| - 1 <= U32_MAX then Success(|chain| - 1) else Failure(ChainSource);
    }

    method BlockHashAt(height: nat) returns (r: Result<BlockHash, SyncError>)
      ensures r.Success? ==> height < |chain| && r.value == chain[height].hash
      ensures reliable ==> (r.Success? <==> height < |chain|)
    {
      if !reliable {
        var failing: bool := *;
        if failing { return Failure(ChainSource); }
      }
      return if height < |chain| then Success(chain[height].hash) else Failure(ChainSource);
    }

    /** The lowest block carrying `hash`. */
    method BlockWithHash(hash: BlockHash) returns (r: Result<Block, SyncError>)
      ensures r.Success? ==>
                exists i :: 0 <= i < |chain| && r.value == chain[i] && chain[i].hash == hash
                            && forall j :: 0 <= j < i ==> chain[j].hash != hash
      ensures reliable ==> (r.Success? <==> exists i :: 0 <= i < |chain| && chain[i].hash == hash)
    {
      if !reliable {
        var failing: bool := *;
        if failing { return Failure(ChainSource); }
      }
      for i := 0 to |chain|
        invariant forall j :: 0 <= j < i ==> chain[j].hash != hash
      {
        if chain[i].hash == hash {
          return Success(chain[i]);
        }
      }
      return Failure(ChainSource);
    }
  }
}
