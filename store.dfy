/** The key-value store the core writes through: a map from byte-string
    keys to byte-string values, and a write batch of puts that a write
    applies left to right, so that a later put to the same key wins. */
module Store {
  import opened Types
  import opened Wrappers

  datatype KeyValue = KeyValue(key: Key, value: Bytes)

  /** The puts an operation adds to a batch, and the error it stopped on. */
  datatype Outcome = Outcome(puts: seq<KeyValue>, err: Option<Error>)

  /** Go's `[]byte(s)`. Strings of the model are byte strings (every
      character below 256); the remainder only fixes a value for the rest. */
  function StrBytes(s: string): (b: Bytes)
    ensures |b| == |s| && forall i | 0 <= i < |s| :: b[i] == s[i] as int % 0x100
  {
    seq(|s|, i requires 0 <= i < |s| => s[i] as int % 0x100)
  }

  /** Go's `string(b)`. */
  function BytesStr(b: Bytes): (s: string)
    ensures |s| == |b| && forall i | 0 <= i < |b| :: s[i] as int == b[i]
  {
    seq(|b|, i requires 0 <= i < |b| => b[i] as char)
  }

  predicate IsByteString(s: string) {
    forall i | 0 <= i < |s| :: s[i] as int < 0x100
  }

  /** The two conversions are inverse on byte strings. */
  lemma StrBytesRoundTrip(s: string, b: Bytes)
    ensures IsByteString(s) ==> BytesStr(StrBytes(s)) == s
    ensures StrBytes(BytesStr(b)) == b
  {
    if IsByteString(s) {
      assert forall i | 0 <= i < |s| :: BytesStr(StrBytes(s))[i] == s[i];
    }
    assert forall i | 0 <= i < |b| :: StrBytes(BytesStr(b))[i] == b[i];
  }

  function Lookup(data: map<Key, Bytes>, k: Key): Option<Bytes> {
    if k in data then Some(data[k]) else None
  }

  /** The store after applying the puts in order. */
  function ApplyBatch(data: map<Key, Bytes>, puts: seq<KeyValue>): map<Key, Bytes>
    decreases |puts|
  {
    if puts == [] then data
    else ApplyBatch(data[puts[0].key := puts[0].value], puts[1..])
  }

  /** Reference reading of a batch: the value of the LAST put to k, or
      the stored value when no put touches k. */
  function LookupAfter(data: map<Key, Bytes>, puts: seq<KeyValue>, k: Key): Option<Bytes>
    decreases |puts|
  {
    if puts == [] then Lookup(data, k)
    else if puts[|puts| - 1].key == k then Some(puts[|puts| - 1].value)
    else LookupAfter(data, puts[..|puts| - 1], k)
  }

  predicate Touches(puts: seq<KeyValue>, k: Key) {
    exists i | 0 <= i < |puts| :: puts[i].key == k
  }

  /** Applying p then q is applying p + q. */
  lemma {:induction false} ApplyBatchAppend(data: map<Key, Bytes>, p: seq<KeyValue>, q: seq<KeyValue>)
    ensures ApplyBatch(data, p + q) == ApplyBatch(ApplyBatch(data, p), q)
    decreases |p|
  {
    if p != [] {
      assert (p + q)[1..] == p[1..] + q;
      ApplyBatchAppend(data[p[0].key := p[0].value], p[1..], q);
    } else {
      assert p + q == q;
    }
  }

  /** The batch semantics agree with the reference reading: the last put
      to a key wins, and keys no put touches keep their stored value. */
  lemma {:induction false} ApplyBatchLookup(data: map<Key, Bytes>, puts: seq<KeyValue>, k: Key)
    ensures Lookup(ApplyBatch(data, puts), k) == LookupAfter(data, puts, k)
    ensures !Touches(puts, k) ==> Lookup(ApplyBatch(data, puts), k) == Lookup(data, k)
    decreases |puts|
  {
    if puts != [] {
      var n := |puts| - 1;
      var init := puts[..n];
      assert puts == init + [puts[n]];
      ApplyBatchAppend(data, init, [puts[n]]);
      ApplyBatchLookup(data, init, k);
      assert ApplyBatch(ApplyBatch(data, init), [puts[n]]) == ApplyBatch(data, init)[puts[n].key := puts[n].value];
      if !Touches(puts, k) {
        assert !Touches(init, k) by {
          forall i | 0 <= i < |init| ensures init[i].key != k { assert init[i] == puts[i]; }
        }
      }
    }
  }

  lemma AppendAssoc<T>(a: seq<T>, b: seq<T>, c: seq<T>)
    ensures (a + b) + c == a + (b + c)
  {
  }

  /** Extending a slice by one element. */
  lemma SnocSlice<T>(a: seq<T>, b: seq<T>, j: nat)
    requires j < |b|
    ensures a + b[..j + 1] == (a + b[..j]) + [b[j]]
  {
    assert b[..j + 1] == b[..j] + [b[j]];
  }

  lemma ApplyBatchPair(data: map<Key, Bytes>, a: KeyValue, b: KeyValue)
    ensures ApplyBatch(data, [a, b]) == data[a.key := a.value][b.key := b.value]
  {
    assert [a, b][1..] == [b];
    assert [b][1..] == [];
    var d1 := data[a.key := a.value];
    assert ApplyBatch(data, [a, b]) == ApplyBatch(d1, [b]);
    assert ApplyBatch(d1, [b]) == ApplyBatch(d1[b.key := b.value], []);
  }

  /** A write batch: puts accumulate in order. */
  class Batch {
    var puts: seq<KeyValue>

    constructor ()
      ensures puts == []
    {
      puts := [];
    }

    method Put(key: Key, value: Bytes)
      modifies this
      ensures puts == old(puts) + [KeyValue(key, value)]
    {
      puts := puts + [KeyValue(key, value)];
    }
  }

  /** The database. Whether a write fails is an outside fact, passed in. */
  class DB {
    var data: map<Key, Bytes>

    constructor (initial: map<Key, Bytes>)
      ensures data == initial
    {
      data := initial;
    }

    /** db.Write: all of the batch, or (on failure) nothing. */
    method Write(batch: Batch, fails: bool) returns (err: Option<Error>)
      modifies this
      ensures fails ==> err == Some(WriteFailed) && data == old(data)
      ensures !fails ==> err == None && data == ApplyBatch(old(data), batch.puts)
    {
      if fails {
        return Some(WriteFailed);
      }
      data := ApplyBatch(data, batch.puts);
      return None;
    }
  }
}
