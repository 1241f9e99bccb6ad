/** protocol/prefix.go: the key-prefix constants of the key-value store,
    together with the protocol constants the core uses that protocol/prefix.go
    does not define. */
module Protocol {
  import opened Types

  const PrefixNetworkConfig: string := "net:config"

  // Metadata.
  const PrefixLatestHeight: string := "m:h"
  const PrefixLatestBlockHash: string := "m:blk"
  const PrefixStaker: string := "m:staker"

  // Blocks: hash -> block, height -> hash, hash + index -> tx hash.
  const PrefixBlock: string := "blk:"
  const PrefixBlockHeight: string := "blk:h:"
  const PrefixBlockTxIdx: string := "blk:h:idx:"

  // Transactions: hash -> tx, hash -> status, hash -> block hash.
  const PrefixTx: string := "tx:"
  const PrefixTxStatus: string := "tx:stat:"
  const PrefixTxBlock: string := "tx:blk:"

  const PrefixUtxo: string := "utxo:"

  // Accounts: address -> state, tx hashes, received, sent, utxo hashes.
  const PrefixAccount: string := "acc:"
  const PrefixAccountTx: string := "acc:tx:"
  const PrefixAccountTxTo: string := "acc:tx:to:"
  const PrefixAccountTxFrom: string := "acc:tx:from:"
  const PrefixAccountUtox: string := "acc:utxo:"

  const PrefixStakerInfo: string := "acc:staker:"

  /* Prefixes that common/utils/prefix_gen.go and core/blockchain.go use but
     protocol/prefix.go does not define. The four key prefixes take the
     values written in the comments above their functions in prefix_gen.go;
     the two metadata keys take the literal keys tools/db_browser.go reads.
     The disjointness facts the key-space lemmas rely on are collected in
     UnshownPrefixFacts below. */
  const PrefixBlockByHeight: string := "blk:h:"
  const PrefixTxs: string := "tx:"
  const PrefixTxIn: string := "tx:in:"
  const PrefixTxOut: string := "tx:out:"
  const PrefixMetaHeight: string := "meta:height"
  const PrefixMetaBlockHash: string := "meta:hash"

  /** A negative integer: the sentinel that selects a whole-set record. */
  type WholeIndex = x: int | x < 0 witness -1

  /* Protocol constants whose definitions are not part of this model: their
     values are left open, with only the stated type. */
  const WholeTxIdx: WholeIndex
  const MaxTxsPerBlock: nat
  const TxTypeGeneral: uint8

  /** Neither string is a prefix of the other. */
  predicate Unrelated(a: string, b: string) {
    !(a <= b) && !(b <= a)
  }

  /** Two strings that differ at a position both have are unrelated. */
  lemma DifferAt(a: string, b: string, i: nat)
    requires i < |a| && i < |b| && a[i] != b[i]
    ensures Unrelated(a, b)
  {
    assert a[..|a|][i] != b[i];
  }

  /** The block family nests: "blk:" < "blk:h:" < "blk:h:idx:". */
  lemma BlockFamilyNests()
    ensures PrefixBlock < PrefixBlockHeight < PrefixBlockTxIdx
  {
  }

  /** "tx:stat:" and "tx:blk:" both extend "tx:" and are unrelated. */
  lemma TxFamilyNests()
    ensures PrefixTx < PrefixTxStatus && PrefixTx < PrefixTxBlock
    ensures Unrelated(PrefixTxStatus, PrefixTxBlock)
  {
    DifferAt(PrefixTxStatus, PrefixTxBlock, 3);
  }

  /** Every account prefix extends "acc:". */
  lemma AccountFamilyNests()
    ensures PrefixAccount < PrefixAccountTx < PrefixAccountTxTo
    ensures PrefixAccountTx < PrefixAccountTxFrom
    ensures Unrelated(PrefixAccountTxTo, PrefixAccountTxFrom)
    ensures PrefixAccount < PrefixAccountUtox && PrefixAccount < PrefixStakerInfo
    ensures !(PrefixAccountTx <= PrefixAccountUtox) && !(PrefixAccountTx <= PrefixStakerInfo)
  {
    DifferAt(PrefixAccountTxTo, PrefixAccountTxFrom, 7);
    DifferAt(PrefixAccountTx, PrefixAccountUtox, 4);
    DifferAt(PrefixAccountTx, PrefixStakerInfo, 4);
  }

  /** The metadata constants are pairwise unrelated, and none is related
      to the block, transaction, utxo or account families. */
  lemma MetadataDisjoint()
    ensures Unrelated(PrefixLatestHeight, PrefixLatestBlockHash)
    ensures Unrelated(PrefixLatestHeight, PrefixStaker)
    ensures Unrelated(PrefixLatestBlockHash, PrefixStaker)
    ensures forall m, f | m in {PrefixLatestHeight, PrefixLatestBlockHash, PrefixStaker}
                       && f in {PrefixBlock, PrefixTx, PrefixUtxo, PrefixAccount} :: Unrelated(m, f) && m[0] != f[0]
  {
    DifferAt(PrefixLatestHeight, PrefixLatestBlockHash, 2);
    DifferAt(PrefixLatestHeight, PrefixStaker, 2);
    DifferAt(PrefixLatestBlockHash, PrefixStaker, 2);
    forall m, f | m in {PrefixLatestHeight, PrefixLatestBlockHash, PrefixStaker}
                && f in {PrefixBlock, PrefixTx, PrefixUtxo, PrefixAccount}
      ensures Unrelated(m, f) && m[0] != f[0]
    {
      DifferAt(m, f, 0);
    }
  }

  /** The facts about the unshown prefixes that the key families rely on:
      the height prefix extends "blk:" with a character that is not a
      lowercase hex digit; the input, output, status and block prefixes of
      transactions extend "tx:" and have such a character within the next
      64 positions; the input and output prefixes are unrelated; and the
      two metadata keys are unrelated to each other and begin differently
      from every block and transaction prefix. */
  lemma UnshownPrefixFacts()
    ensures PrefixBlock < PrefixBlockByHeight && PrefixBlockByHeight[|PrefixBlock|] == 'h'
    ensures PrefixTxs < PrefixTxIn && PrefixTxIn[|PrefixTxs|] == 'i'
    ensures PrefixTxs < PrefixTxOut && PrefixTxOut[|PrefixTxs|] == 'o'
    ensures PrefixTxs < PrefixTxStatus && PrefixTxStatus[|PrefixTxs|] == 's'
    ensures PrefixTxs < PrefixTxBlock && PrefixTxBlock[|PrefixTxs| + 1] == 'l'
    ensures Unrelated(PrefixTxIn, PrefixTxOut)
    ensures Unrelated(PrefixMetaHeight, PrefixMetaBlockHash)
    ensures PrefixMetaHeight[0] == PrefixMetaBlockHash[0] == 'm'
    ensures PrefixBlock[0] == 'b' && PrefixTxs[0] == 't'
  {
    DifferAt(PrefixTxIn, PrefixTxOut, 3);
    DifferAt(PrefixMetaHeight, PrefixMetaBlockHash, 6);
  }
}
