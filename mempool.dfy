/** core/mempool.go: pending transactions keyed by the hex form of their id.
    The lock that serialises callers is not modelled; a single caller is. */
module Pool {
  import opened Types
  import opened Wrappers
  import opened Converter
  import opened Entities
  import opened Protocol

  function Min(a: nat, b: nat): nat {
    if a <= b then a else b
  }

  class Mempool {
    var transactions: map<string, Transaction>

    /** Every entry sits under the hex form of its own id. */
    ghost predicate Valid()
      reads this
    {
      forall k | k in transactions :: k == HashToString(transactions[k].id)
    }

    /** NewMempool. */
    constructor ()
      ensures Valid() && transactions == map[]
    {
      transactions := map[];
    }

    /** Insert, refusing an id already present. */
    method NewTranaction(tx: Transaction) returns (err: Option<Error>)
      requires Valid()
      modifies this
      ensures Valid()
      ensures err.Some? <==> HashToString(tx.id) in old(transactions)
      ensures err.Some? ==> err == Some(DuplicateTx) && transactions == old(transactions)
      ensures err.None? ==> transactions == old(transactions)[HashToString(tx.id) := tx]
    {
      var txId := HashToString(tx.id);
      if txId in transactions {
        return Some(DuplicateTx);
      }
      transactions := transactions[txId := tx];
      return None;
    }

    /** The stored transaction of the id, or nil. */
    method GetTx(txId: Hash) returns (tx: Option<Transaction>)
      requires Valid()
      ensures tx.Some? <==> HashToString(txId) in transactions
      ensures tx.Some? ==> tx.value == transactions[HashToString(txId)] && tx.value.id == txId
    {
      var strTxId := HashToString(txId);
      if strTxId in transactions {
        tx := Some(transactions[strTxId]);
        HashToStringInjective(tx.value.id, txId);
      } else {
        tx := None;
      }
    }

    /** Every pending transaction, in an unspecified order, cut to
        MaxTxsPerBlock. Nothing is removed. */
    method GetTxs() returns (txs: seq<Transaction>)
      requires Valid()
      ensures |txs| == Min(|transactions|, MaxTxsPerBlock)
      ensures forall i | 0 <= i < |txs| :: HashToString(txs[i].id) in transactions
                                          && transactions[HashToString(txs[i].id)] == txs[i]
      ensures forall i, j | 0 <= i < j < |txs| :: txs[i].id != txs[j].id
      ensures |transactions| <= MaxTxsPerBlock ==> forall k | k in transactions :: transactions[k] in txs
    {
      var all, keys := CollectAll();
      DistinctIds(keys, all);
      if |all| > MaxTxsPerBlock {
        txs := all[..MaxTxsPerBlock];
      } else {
        txs := all;
      }
      forall i | 0 <= i < |txs| ensures HashToString(txs[i].id) == keys[i] {
        assert txs[i] == all[i];
      }
    }

    /** The loop of GetTxs: every entry once, in map iteration order. */
    method CollectAll() returns (all: seq<Transaction>, ghost keys: seq<string>)
      ensures |all| == |keys| == |transactions|
      ensures forall i | 0 <= i < |keys| :: keys[i] in transactions && all[i] == transactions[keys[i]]
      ensures forall k | k in transactions :: k in keys
      ensures forall i, j | 0 <= i < j < |keys| :: keys[i] != keys[j]
    {
      all := [];
      keys := [];
      var rest := transactions.Keys;
      while rest != {}
        invariant rest <= transactions.Keys
        invariant |all| == |keys|
        invariant forall i | 0 <= i < |keys| :: keys[i] in transactions && keys[i] !in rest && all[i] == transactions[keys[i]]
        invariant forall k | k in transactions && k !in rest :: k in keys
        invariant forall i, j | 0 <= i < j < |keys| :: keys[i] != keys[j]
        invariant |keys| + |rest| == |transactions|
        decreases |rest|
      {
        var k :| k in rest;
        all := all + [transactions[k]];
        keys := keys + [k];
        rest := rest - {k};
      }
    }

    /** Entries under distinct keys have distinct ids. */
    lemma DistinctIds(keys: seq<string>, all: seq<Transaction>)
      requires Valid() && |all| == |keys|
      requires forall i | 0 <= i < |keys| :: keys[i] in transactions && all[i] == transactions[keys[i]]
      requires forall i, j | 0 <= i < j < |keys| :: keys[i] != keys[j]
      ensures forall i, j | 0 <= i < j < |all| :: all[i].id != all[j].id
    {
      forall i, j | 0 <= i < j < |all| ensures all[i].id != all[j].id {
        assert keys[i] == HashToString(all[i].id);
        assert keys[j] == HashToString(all[j].id);
      }
    }

    /** Remove the id; an absent id is a no-op. */
    method DelTx(txId: Hash)
      requires Valid()
      modifies this
      ensures Valid()
      ensures transactions == old(transactions) - {HashToString(txId)}
    {
      transactions := transactions - {HashToString(txId)};
    }

    /** Empty the pool. */
    method Clear()
      modifies this
      ensures Valid() && transactions == map[]
    {
      transactions := map[];
    }
  }

  /** Inserting a transaction makes it visible; deleting it again leaves
      nothing under its id. */
  method AddThenDelete(tx: Transaction) returns (added: Option<Error>, before: Option<Transaction>, after: Option<Transaction>)
    ensures added == None && before == Some(tx) && after == None
  {
    var pool := new Mempool();
    added := pool.NewTranaction(tx);
    before := pool.GetTx(tx.id);
    pool.DelTx(tx.id);
    after := pool.GetTx(tx.id);
  }
}
