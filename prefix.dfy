/** common/utils/prefix.go: the prefix-parameterised block keys. The same
    package also defines prefix-free functions of the same names in
    prefix_gen.go; those are modelled in module PrefixGen. */
module Prefix {
  import opened Types
  import opened Hex
  import opened Decimals
  import opened Wrappers
  import opened Converter

  /** The given prefix followed by the decimal height. */
  function GetBlockHeightKey(prefix: string, height: uint64): (k: Key)
    ensures prefix <= k && |k| > |prefix| && AllDigits(k[|prefix|..])
  {
    prefix + Decimal(height)
  }

  /** The given prefix followed by the 64 hex digits of the hash. */
  function GetBlockHashKey(prefix: string, hash: Hash): (k: Key)
    ensures prefix <= k && |k| == |prefix| + 2 * HashLen && IsLowerHexString(k[|prefix|..])
  {
    prefix + HashToString(hash)
  }

  /** For a fixed prefix, the height key determines the height. */
  lemma HeightKeyInjective(prefix: string, a: uint64, b: uint64)
    requires GetBlockHeightKey(prefix, a) == GetBlockHeightKey(prefix, b)
    ensures a == b
  {
    assert GetBlockHeightKey(prefix, a)[|prefix|..] == Decimal(a);
    assert GetBlockHeightKey(prefix, b)[|prefix|..] == Decimal(b);
    DecimalInjective(a, b);
  }

  /** For a fixed prefix, the hash key determines the hash, and the hash is
      read back from the key's last 64 characters. */
  lemma HashKeyInjective(prefix: string, a: Hash, b: Hash)
    ensures StringToHash(GetBlockHashKey(prefix, a)[|prefix|..]) == (a, None)
    ensures GetBlockHashKey(prefix, a) == GetBlockHashKey(prefix, b) ==> a == b
  {
    assert GetBlockHashKey(prefix, a)[|prefix|..] == HashToString(a);
    assert GetBlockHashKey(prefix, b)[|prefix|..] == HashToString(b);
    HashRoundTrip(a);
    HashRoundTrip(b);
  }

  /** A key made of q and anything after, where q extends p with a
      character that is not a lowercase hex digit at a position within the
      next |hex| characters, is never p followed by the lowercase hex
      string hex. This separates key families that share a prefix. */
  lemma NotHexKey(p: string, q: string, j: nat, x: string, hex: string)
    requires p <= q && |p| <= j < |q| && j < |p| + |hex|
    requires !IsLowerHex(q[j]) && IsLowerHexString(hex)
    ensures q + x != p + hex
  {
    assert (q + x)[j] == q[j];
    assert (p + hex)[j] == hex[j - |p|];
  }
}
