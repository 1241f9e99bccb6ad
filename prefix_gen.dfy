/** common/utils/prefix_gen.go: the keys of blocks and transactions. Each
    key is a prefix, the 64-digit hex id and, for per-index input and
    output records, ":" and the decimal index. */
module PrefixGen {
  import opened Wrappers
  import opened Types
  import opened Hex
  import opened Decimals
  import opened Converter
  import opened Protocol
  import Prefix

  /** k is prefix followed by the hex form of h: decoding what follows
      the prefix gives back h without an error. */
  predicate IsHexKey(prefix: string, h: Hash, k: string) {
    prefix <= k && |k| == |prefix| + 2 * HashLen && StringToHash(k[|prefix|..]) == (h, None)
  }

  /** k is prefix, the hex form of h, ":" and the decimal index when the
      index is non-negative, and only prefix and hex form otherwise. */
  predicate IsIndexedKey(prefix: string, h: Hash, index: int, k: string) {
    var n := |prefix| + 2 * HashLen;
    n <= |k| && IsHexKey(prefix, h, k[..n]) &&
    (index < 0 <==> |k| == n) &&
    (index >= 0 ==> n < |k| && k[n] == ':' && AllDigits(k[n + 1..]) && DigitsValue(k[n + 1..]) == index)
  }

  function GetBlockHeightKey(height: uint64): Key {
    PrefixBlockByHeight + Decimal(height)
  }

  function GetBlockHashKey(hash: Hash): Key {
    PrefixBlock + HashToString(hash)
  }

  function GetTxHashKey(txHash: Hash): Key {
    PrefixTxs + HashToString(txHash)
  }

  function GetTxStatusKey(txHash: Hash): Key {
    PrefixTxStatus + HashToString(txHash)
  }

  function GetTxBlockHashKey(txHash: Hash): Key {
    PrefixTxBlock + HashToString(txHash)
  }

  /** The shared shape of GetTxInputKey and GetTxOutputKey: a non-negative
      index selects one record, any negative index the whole set. */
  function IndexedKey(prefix: string, txHash: Hash, index: int): Key {
    if index >= 0 then prefix + HashToString(txHash) + ":" + Decimal(index)
    else prefix + HashToString(txHash)
  }

  function GetTxInputKey(txHash: Hash, index: int): Key {
    IndexedKey(PrefixTxIn, txHash, index)
  }

  function GetTxOutputKey(txHash: Hash, index: int): Key {
    IndexedKey(PrefixTxOut, txHash, index)
  }

  /** The height key is the height prefix and the decimal height, which
      parses back to the height. */
  lemma GetBlockHeightKeyParses(height: uint64)
    ensures var k := GetBlockHeightKey(height);
            PrefixBlockByHeight <= k && ParseUint64(k[|PrefixBlockByHeight|..]) == Some(height)
  {
    ParseDecimal(height);
    assert GetBlockHeightKey(height)[|PrefixBlockByHeight|..] == Decimal(height);
  }

  /** prefix + HashToString(h) decodes back to h after the prefix. */
  lemma HexKeyDecodes(prefix: string, h: Hash)
    ensures IsHexKey(prefix, h, prefix + HashToString(h))
  {
    HashRoundTrip(h);
    assert (prefix + HashToString(h))[|prefix|..] == HashToString(h);
  }

  lemma GetBlockHashKeyDecodes(hash: Hash)
    ensures IsHexKey(PrefixBlock, hash, GetBlockHashKey(hash))
  {
    HexKeyDecodes(PrefixBlock, hash);
  }

  lemma GetTxHashKeyDecodes(txHash: Hash)
    ensures IsHexKey(PrefixTxs, txHash, GetTxHashKey(txHash))
  {
    HexKeyDecodes(PrefixTxs, txHash);
  }

  lemma GetTxStatusKeyDecodes(txHash: Hash)
    ensures IsHexKey(PrefixTxStatus, txHash, GetTxStatusKey(txHash))
  {
    HexKeyDecodes(PrefixTxStatus, txHash);
  }

  lemma GetTxBlockHashKeyDecodes(txHash: Hash)
    ensures IsHexKey(PrefixTxBlock, txHash, GetTxBlockHashKey(txHash))
  {
    HexKeyDecodes(PrefixTxBlock, txHash);
  }

  /** An indexed key decodes back to its id and, for a non-negative index,
      to the index after the ':'; a negative index leaves the bare id. */
  lemma IndexedKeyDecodes(prefix: string, h: Hash, index: int)
    ensures IsIndexedKey(prefix, h, index, IndexedKey(prefix, h, index))
  {
    var whole := prefix + HashToString(h);
    var k := IndexedKey(prefix, h, index);
    HexKeyDecodes(prefix, h);
    if index >= 0 {
      DecimalValue(index);
      assert k[..|whole|] == whole && k[|whole| + 1..] == Decimal(index);
    } else {
      assert k[..|whole|] == whole;
    }
  }

  lemma GetTxInputKeyDecodes(txHash: Hash, index: int)
    ensures IsIndexedKey(PrefixTxIn, txHash, index, GetTxInputKey(txHash, index))
  {
    IndexedKeyDecodes(PrefixTxIn, txHash, index);
  }

  lemma GetTxOutputKeyDecodes(txHash: Hash, index: int)
    ensures IsIndexedKey(PrefixTxOut, txHash, index, GetTxOutputKey(txHash, index))
  {
    IndexedKeyDecodes(PrefixTxOut, txHash, index);
  }

  /** The prefix-free block keys are the prefix-parameterised ones
      instantiated with their prefixes. */
  lemma AgreesWithPrefixed(height: uint64, hash: Hash)
    ensures GetBlockHeightKey(height) == Prefix.GetBlockHeightKey(PrefixBlockByHeight, height)
    ensures GetBlockHashKey(hash) == Prefix.GetBlockHashKey(PrefixBlock, hash)
  {
  }

  /** The height key is the height prefix and the decimal height, and
      determines the height. */
  lemma BlockHeightKeyInjective(a: uint64, b: uint64)
    ensures PrefixBlockByHeight <= GetBlockHeightKey(a) && AllDigits(GetBlockHeightKey(a)[|PrefixBlockByHeight|..])
    ensures GetBlockHeightKey(a) == GetBlockHeightKey(b) ==> a == b
  {
    if GetBlockHeightKey(a) == GetBlockHeightKey(b) {
      Prefix.HeightKeyInjective(PrefixBlockByHeight, a, b);
    }
  }

  /** The block-hash key is "blk:" and 64 hex digits, and determines the hash. */
  lemma BlockHashKeyInjective(a: Hash, b: Hash)
    ensures |GetBlockHashKey(a)| == |PrefixBlock| + 64 && PrefixBlock <= GetBlockHashKey(a)
    ensures GetBlockHashKey(a) == GetBlockHashKey(b) ==> a == b
  {
    Prefix.HashKeyInjective(PrefixBlock, a, b);
  }

  /** Each transaction key is its prefix and the 64 hex digits of the id,
      and determines the id. */
  lemma TxKeysInjective(a: Hash, b: Hash)
    ensures |GetTxHashKey(a)| == |PrefixTxs| + 64 && |GetTxStatusKey(a)| == |PrefixTxStatus| + 64
    ensures |GetTxBlockHashKey(a)| == |PrefixTxBlock| + 64
    ensures GetTxHashKey(a) == GetTxHashKey(b) ==> a == b
    ensures GetTxStatusKey(a) == GetTxStatusKey(b) ==> a == b
    ensures GetTxBlockHashKey(a) == GetTxBlockHashKey(b) ==> a == b
  {
    Prefix.HashKeyInjective(PrefixTxs, a, b);
    Prefix.HashKeyInjective(PrefixTxStatus, a, b);
    Prefix.HashKeyInjective(PrefixTxBlock, a, b);
  }

  /** A height key is never a block-hash key: after "blk:" it has 'h',
      which is not a hex digit. */
  lemma HeightKeyIsNotHashKey(height: uint64, hash: Hash)
    ensures GetBlockHeightKey(height) != GetBlockHashKey(hash)
  {
    UnshownPrefixFacts();
    Prefix.NotHexKey(PrefixBlock, PrefixBlockByHeight, |PrefixBlock|, Decimal(height), HashToString(hash));
  }

  /** No status, tx-to-block, input or output key is a transaction key. */
  lemma TxFamiliesAreNotTxKeys(a: Hash, b: Hash, index: int)
    ensures GetTxStatusKey(a) != GetTxHashKey(b)
    ensures GetTxBlockHashKey(a) != GetTxHashKey(b)
    ensures GetTxInputKey(a, index) != GetTxHashKey(b)
    ensures GetTxOutputKey(a, index) != GetTxHashKey(b)
  {
    UnshownPrefixFacts();
    var hb := HashToString(b);
    Prefix.NotHexKey(PrefixTxs, PrefixTxStatus, |PrefixTxs|, HashToString(a), hb);
    Prefix.NotHexKey(PrefixTxs, PrefixTxBlock, |PrefixTxs| + 1, HashToString(a), hb);
    var rest := if index >= 0 then HashToString(a) + ":" + Decimal(index) else HashToString(a);
    assert GetTxInputKey(a, index) == PrefixTxIn + rest;
    assert GetTxOutputKey(a, index) == PrefixTxOut + rest;
    Prefix.NotHexKey(PrefixTxs, PrefixTxIn, |PrefixTxs|, rest, hb);
    Prefix.NotHexKey(PrefixTxs, PrefixTxOut, |PrefixTxs|, rest, hb);
  }

  /** Input keys and output keys never coincide. */
  lemma InputKeysAreNotOutputKeys(a: Hash, i: int, b: Hash, j: int)
    ensures GetTxInputKey(a, i) != GetTxOutputKey(b, j)
  {
    assert GetTxInputKey(a, i)[3] == 'i';
    assert GetTxOutputKey(b, j)[3] == 'o';
  }

  /** Every negative index selects the same whole-set key, the prefix and
      the hex id. */
  lemma WholeSetKey(prefix: string, h: Hash, index: int)
    requires index < 0
    ensures IndexedKey(prefix, h, index) == IndexedKey(prefix, h, WholeTxIdx) == prefix + HashToString(h)
  {
  }

  /** The whole-set key of a transaction is a proper prefix of each of its
      per-index keys, and no whole-set key equals any per-index key. */
  lemma WholeSetKeyIsProperPrefix(prefix: string, a: Hash, b: Hash, index: nat)
    ensures IndexedKey(prefix, a, WholeTxIdx) < IndexedKey(prefix, a, index)
    ensures IndexedKey(prefix, a, WholeTxIdx) != IndexedKey(prefix, b, index)
  {
    var whole := prefix + HashToString(a);
    assert IndexedKey(prefix, a, index) == whole + (":" + Decimal(index));
    assert |IndexedKey(prefix, b, index)| > |whole|;
  }

  /** For a fixed prefix, a per-index key determines the id and the index,
      and a whole-set key determines the id. */
  lemma IndexedKeyInjective(prefix: string, a: Hash, i: nat, b: Hash, j: nat)
    ensures IndexedKey(prefix, a, i) == IndexedKey(prefix, b, j) ==> a == b && i == j
    ensures IndexedKey(prefix, a, WholeTxIdx) == IndexedKey(prefix, b, WholeTxIdx) ==> a == b
  {
    var ka, kb := IndexedKey(prefix, a, i), IndexedKey(prefix, b, j);
    var n := |prefix| + 64;
    if ka == kb {
      assert ka[|prefix|..n] == HashToString(a);
      assert kb[|prefix|..n] == HashToString(b);
      HashToStringInjective(a, b);
      assert ka[n + 1..] == Decimal(i);
      assert kb[n + 1..] == Decimal(j);
      DecimalInjective(i, j);
    }
    Prefix.HashKeyInjective(prefix, a, b);
  }
}
