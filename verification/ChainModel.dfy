/**
 The values the block-scan pipeline moves around: blocks, transactions, outputs
 and the records captured from them.
 */
module ChainModel {

  const U32_MAX := 0xFFFF_FFFF

  type Byte = b: int | 0 <= b < 256
  type Bytes = seq<Byte>
  type Script = Bytes
  type Txid = nat
  type BlockHash = nat
  type WalletId = nat
  type AssetId = nat

  datatype OutPoint = OutPoint(txid: Txid, vout: nat)

  /** An on-chain output; `commitments` stands for its asset, value, nonce and witness. */
  datatype TxOut = TxOut(scriptPubkey: Script, commitments: Bytes)

  datatype TxOutSecrets = TxOutSecrets(asset: AssetId, value: nat, assetFactor: nat, valueFactor: nat)

  datatype Tx = Tx(txid: Txid, inputs: seq<OutPoint>, outputs: seq<TxOut>)

  /** `hash` is the header hash; `prev` is the header's `prev_blockhash`. */
  datatype Block = Block(hash: BlockHash, prev: BlockHash, txs: seq<Tx>)

  datatype Keychain = External | Internal

  datatype CapturedUtxo = CapturedUtxo(
    walletId: WalletId,
    outpoint: OutPoint,
    txout: TxOut,
    secrets: TxOutSecrets,
    chain: Keychain,
    wildcardIndex: nat,
    height: nat,
    isSpent: bool)

  datatype SyncedTip = SyncedTip(height: nat, hash: BlockHash)

  /** Every block names its predecessor's hash. */
  ghost predicate Linked(c: seq<Block>) {
    forall i :: 0 < i < |c| ==> c[i].prev == c[i - 1].hash
  }

  /** Within `u`, a block hash determines the block. */
  ghost predicate Binding(u: iset<Block>) {
    forall a, b :: a in u && b in u && a.hash == b.hash ==> a == b
  }

  /** All transactions of a chain, in chain order. */
  function Txs(c: seq<Block>): seq<Tx> {
    if c == [] then [] else Txs(c[..|c| - 1]) + c[|c| - 1].txs
  }

  /** Txids are unique, and an input only names a transaction that is already there. */
  ghost predicate OrderedTxs(txs: seq<Tx>) {
    && (forall i, j :: 0 <= i < j < |txs| ==> txs[i].txid != txs[j].txid)
    && (forall i, j, op :: 0 <= i <= j < |txs| && op in txs[i].inputs ==> op.txid != txs[j].txid)
  }

  /** A chain the node may present: from genesis `g`, hash-linked, drawn from `u`, with ordered transactions. */
  ghost predicate ValidChain(u: iset<Block>, g: Block, c: seq<Block>) {
    && 0 < |c| <= U32_MAX
    && c[0] == g
    && Linked(c)
    && (forall b :: b in c ==> b in u)
    && OrderedTxs(Txs(c))
  }

  /** A matching hash at one height forces the two chains to agree up to that height. */
  lemma {:induction false} HashBindsPrefix(u: iset<Block>, a: seq<Block>, b: seq<Block>, h: nat)
    requires Binding(u) && Linked(a) && Linked(b)
    requires forall x :: x in a ==> x in u
    requires forall x :: x in b ==> x in u
    requires h < |a| && h < |b| && a[h].hash == b[h].hash
    ensures a[..h + 1] == b[..h + 1]
  {
    assert a[h] in a && b[h] in b;
    if h > 0 {
      HashBindsPrefix(u, a, b, h - 1);
      assert a[..h + 1] == a[..h] + [a[h]] && b[..h + 1] == b[..h] + [b[h]];
    }
  }
}
