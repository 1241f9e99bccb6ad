/** core/utxo.go: marking the UTXOs a block consumes as spent, and the
    balance of a UTXO set. The creation of UTXOs for outputs is not written
    in the source (only a comment), so outputs cause no writes here. */
module UtxoLedger {
  import opened Types
  import opened Wrappers
  import opened Entities
  import opened Store

  /** Spending one input, as the body of the inner loop of UpdateUtxo: look
      up and decode the UTXO, put it back marked spent at `height`, then
      look up and decode the owner's key set and put it back without the
      UTXO's key. Every read goes to the committed store `data`, never to
      the batch being built. A failure returns the puts issued so far. */
  function SpendInput(data: map<Key, Bytes>, ext: Externals, height: uint64, input: TxInput): Outcome {
    var utxoKey := ext.utxoKey(input.txId, input.outputIndex as int);
    if utxoKey !in data then Outcome([], Some(NotFound(utxoKey)))
    else match ext.decodeUtxo(data[utxoKey])
      case None => Outcome([], Some(DecodeFailed(utxoKey)))
      case Some(utxo) =>
        var spent := utxo.(spent := true, spentHeight := height);
        match ext.serialize(UtxoRecord(spent))
        case None => Outcome([], Some(EncodeFailed))
        case Some(utxoBytes) =>
          var first := KeyValue(utxoKey, utxoBytes);
          var listKey := ext.utxoListKey(spent.txOut.address);
          if listKey !in data then Outcome([first], Some(NotFound(listKey)))
          else match ext.decodeAddrSet(data[listKey])
            case None => Outcome([first], Some(DecodeFailed(listKey)))
            case Some(keys) =>
              match ext.serialize(AddrSetRecord(keys - {utxoKey}))
              case None => Outcome([first], Some(EncodeFailed))
              case Some(listBytes) => Outcome([first, KeyValue(listKey, listBytes)], None)
  }

  /** Spending a sequence of inputs in order, stopping at the first error. */
  function SpendAll(data: map<Key, Bytes>, ext: Externals, height: uint64, inputs: seq<TxInput>): Outcome
    decreases |inputs|
  {
    if inputs == [] then Outcome([], None)
    else
      var before := SpendAll(data, ext, height, inputs[..|inputs| - 1]);
      if before.err.Some? then before
      else
        var step := SpendInput(data, ext, height, inputs[|inputs| - 1]);
        Outcome(before.puts + step.puts, step.err)
  }

  /** The inputs of the transactions, in block order. */
  function AllInputs(txs: seq<Transaction>): seq<TxInput>
    decreases |txs|
  {
    if txs == [] then [] else AllInputs(txs[..|txs| - 1]) + txs[|txs| - 1].inputs
  }

  lemma SpendAllSnoc(data: map<Key, Bytes>, ext: Externals, height: uint64, inputs: seq<TxInput>, x: TxInput)
    ensures SpendAll(data, ext, height, inputs + [x]) ==
      (var before := SpendAll(data, ext, height, inputs);
       if before.err.Some? then before
       else Outcome(before.puts + SpendInput(data, ext, height, x).puts, SpendInput(data, ext, height, x).err))
  {
    assert (inputs + [x])[..|inputs|] == inputs;
  }

  lemma AllInputsSnoc(txs: seq<Transaction>, t: nat)
    requires t < |txs|
    ensures AllInputs(txs[..t + 1]) == AllInputs(txs[..t]) + txs[t].inputs
  {
    assert txs[..t + 1][..t] == txs[..t];
  }

  /** UpdateUtxo: the puts for every input of every transaction of the
      block are appended to the batch in order; the first failure stops it
      and is returned, with the puts issued before it left in the batch. */
  method UpdateUtxo(db: DB, batch: Batch, blk: Block, ext: Externals) returns (err: Option<Error>)
    modifies batch
    ensures var r := SpendAll(db.data, ext, blk.header.height, AllInputs(blk.transactions));
            batch.puts == old(batch.puts) + r.puts && err == r.err
  {
    var txs := blk.transactions;
    var height := blk.header.height;
    ghost var start := batch.puts;
    var t := 0;
    while t < |txs|
      invariant 0 <= t <= |txs|
      invariant SpendAll(db.data, ext, height, AllInputs(txs[..t])).err.None?
      invariant batch.puts == start + SpendAll(db.data, ext, height, AllInputs(txs[..t])).puts
    {
      ghost var done := AllInputs(txs[..t]);
      ghost var next := AllInputs(txs[..t + 1]);
      ghost var before := SpendAll(db.data, ext, height, done);
      ghost var step := SpendAll(db.data, ext, height, txs[t].inputs);
      err := SpendInputs(db, batch, height, txs[t].inputs, ext);
      AppendAssoc(start, before.puts, step.puts);
      AllInputsSnoc(txs, t);
      SpendAllAppend(db.data, ext, height, done, txs[t].inputs);
      if err.Some? {
        AllInputsPrefix(txs, t + 1);
        SpendAllStops(db.data, ext, height, next, AllInputs(txs));
        return;
      }
      t := t + 1;
    }
    assert txs[..t] == txs;
    return None;
  }

  /** The inner loop of UpdateUtxo, over the inputs of one transaction. */
  method SpendInputs(db: DB, batch: Batch, height: uint64, inputs: seq<TxInput>, ext: Externals) returns (err: Option<Error>)
    modifies batch
    ensures batch.puts == old(batch.puts) + SpendAll(db.data, ext, height, inputs).puts
    ensures err == SpendAll(db.data, ext, height, inputs).err
  {
    ghost var start := batch.puts;
    var j := 0;
    while j < |inputs|
      invariant 0 <= j <= |inputs|
      invariant SpendAll(db.data, ext, height, inputs[..j]).err.None?
      invariant batch.puts == start + SpendAll(db.data, ext, height, inputs[..j]).puts
    {
      ghost var before := SpendAll(db.data, ext, height, inputs[..j]);
      ghost var step := SpendInput(db.data, ext, height, inputs[j]);
      err := SpendOne(db, batch, height, inputs[j], ext);
      SpendAllStep(db.data, ext, height, inputs, j);
      AppendAssoc(start, before.puts, step.puts);
      if err.Some? {
        SpendAllStops(db.data, ext, height, inputs[..j + 1], inputs);
        return;
      }
      j := j + 1;
    }
    assert inputs[..j] == inputs;
    return None;
  }

  /** One more input after a successful prefix. */
  lemma SpendAllStep(data: map<Key, Bytes>, ext: Externals, height: uint64, inputs: seq<TxInput>, j: nat)
    requires j < |inputs| && SpendAll(data, ext, height, inputs[..j]).err.None?
    ensures SpendAll(data, ext, height, inputs[..j + 1]) ==
              Outcome(SpendAll(data, ext, height, inputs[..j]).puts + SpendInput(data, ext, height, inputs[j]).puts,
                      SpendInput(data, ext, height, inputs[j]).err)
  {
    assert inputs[..j + 1] == inputs[..j] + [inputs[j]];
    SpendAllSnoc(data, ext, height, inputs[..j], inputs[j]);
  }

  /** The body of the inner loop of UpdateUtxo, for one input. */
  method SpendOne(db: DB, batch: Batch, height: uint64, input: TxInput, ext: Externals) returns (err: Option<Error>)
    modifies batch
    ensures var r := SpendInput(db.data, ext, height, input);
            batch.puts == old(batch.puts) + r.puts && err == r.err
  {
    var utxoKey := ext.utxoKey(input.txId, input.outputIndex as int);
    if utxoKey !in db.data {
      return Some(NotFound(utxoKey));
    }
    var decoded := ext.decodeUtxo(db.data[utxoKey]);
    if decoded.None? {
      return Some(DecodeFailed(utxoKey));
    }
    var utxo := decoded.value;
    utxo := utxo.(spent := true, spentHeight := height);
    var utxoBytes := ext.serialize(UtxoRecord(utxo));
    if utxoBytes.None? {
      return Some(EncodeFailed);
    }
    batch.Put(utxoKey, utxoBytes.value);
    var listKey := ext.utxoListKey(utxo.txOut.address);
    if listKey !in db.data {
      return Some(NotFound(listKey));
    }
    var list := ext.decodeAddrSet(db.data[listKey]);
    if list.None? {
      return Some(DecodeFailed(listKey));
    }
    var keys := list.value - {utxoKey};
    var listBytes := ext.serialize(AddrSetRecord(keys));
    if listBytes.None? {
      return Some(EncodeFailed);
    }
    batch.Put(listKey, listBytes.value);
    return None;
  }

  /** The inputs of the first t transactions are a prefix of them all. */
  lemma {:induction false} AllInputsPrefix(txs: seq<Transaction>, t: nat)
    requires t <= |txs|
    ensures AllInputs(txs[..t]) <= AllInputs(txs)
    decreases |txs| - t
  {
    if t < |txs| {
      AllInputsSnoc(txs, t);
      AllInputsPrefix(txs, t + 1);
    } else {
      assert txs[..t] == txs;
    }
  }

  /** Spending p + q is spending p, then (unless p failed) spending q. */
  lemma {:induction false} SpendAllAppend(data: map<Key, Bytes>, ext: Externals, height: uint64, p: seq<TxInput>, q: seq<TxInput>)
    ensures SpendAll(data, ext, height, p).err.Some? ==> SpendAll(data, ext, height, p + q) == SpendAll(data, ext, height, p)
    ensures SpendAll(data, ext, height, p).err.None? ==>
              SpendAll(data, ext, height, p + q) == Outcome(SpendAll(data, ext, height, p).puts + SpendAll(data, ext, height, q).puts, SpendAll(data, ext, height, q).err)
    decreases |q|
  {
    if q == [] {
      assert p + q == p;
      assert SpendAll(data, ext, height, p).puts + [] == SpendAll(data, ext, height, p).puts;
    } else {
      var init := q[..|q| - 1];
      var last := q[|q| - 1];
      assert p + q == (p + init) + [last];
      SpendAllSnoc(data, ext, height, p + init, last);
      SpendAllAppend(data, ext, height, p, init);
      AppendAssoc(SpendAll(data, ext, height, p).puts, SpendAll(data, ext, height, init).puts, SpendInput(data, ext, height, last).puts);
    }
  }

  /** Once spending a prefix has failed, spending more changes nothing. */
  lemma {:induction false} SpendAllStops(data: map<Key, Bytes>, ext: Externals, height: uint64, p: seq<TxInput>, all: seq<TxInput>)
    requires p <= all && SpendAll(data, ext, height, p).err.Some?
    ensures SpendAll(data, ext, height, all) == SpendAll(data, ext, height, p)
    decreases |all|
  {
    if |all| > |p| {
      var init := all[..|all| - 1];
      assert p <= init;
      SpendAllStops(data, ext, height, p, init);
    } else {
      assert p == all;
    }
  }

  /** The first input whose UTXO is missing or undecodable fails the whole
      update with that error, once the inputs before it have succeeded. */
  lemma MissingUtxoFails(data: map<Key, Bytes>, ext: Externals, height: uint64, inputs: seq<TxInput>, i: nat)
    requires i < |inputs| && SpendAll(data, ext, height, inputs[..i]).err.None?
    ensures var k := ext.utxoKey(inputs[i].txId, inputs[i].outputIndex as int);
            (k !in data ==> SpendAll(data, ext, height, inputs).err == Some(NotFound(k))) &&
            (k in data && ext.decodeUtxo(data[k]).None? ==> SpendAll(data, ext, height, inputs).err == Some(DecodeFailed(k)))
  {
    assert inputs[..i + 1] == inputs[..i] + [inputs[i]];
    SpendAllSnoc(data, ext, height, inputs[..i], inputs[i]);
    if SpendInput(data, ext, height, inputs[i]).err.Some? {
      SpendAllStops(data, ext, height, inputs[..i + 1], inputs);
    }
  }

  /** A missing owner set fails the update too, after the UTXO itself has
      been put back. */
  lemma MissingOwnerSetFails(data: map<Key, Bytes>, ext: Externals, height: uint64, input: TxInput)
    requires var k := ext.utxoKey(input.txId, input.outputIndex as int);
             k in data && ext.decodeUtxo(data[k]).Some? &&
             ext.serialize(UtxoRecord(ext.decodeUtxo(data[k]).value.(spent := true, spentHeight := height))).Some? &&
             ext.utxoListKey(ext.decodeUtxo(data[k]).value.txOut.address) !in data
    ensures var k := ext.utxoKey(input.txId, input.outputIndex as int);
            var r := SpendInput(data, ext, height, input);
            r.err == Some(NotFound(ext.utxoListKey(ext.decodeUtxo(data[k]).value.txOut.address))) &&
            |r.puts| == 1 && r.puts[0].key == k
  {
  }

  /** After the puts of a successful spend, the UTXO reads back marked spent
      at the block height with every other field as stored, and the owner's
      set reads back without the UTXO's key (decoding inverts encoding, and
      the two keys differ). */
  lemma SpendMarksAndRemoves(data: map<Key, Bytes>, ext: Externals, height: uint64, input: TxInput)
    requires forall u: Utxo, b: Bytes :: ext.serialize(UtxoRecord(u)) == Some(b) ==> ext.decodeUtxo(b) == Some(u)
    requires forall ks: AddrUtxoSet, b: Bytes :: ext.serialize(AddrSetRecord(ks)) == Some(b) ==> ext.decodeAddrSet(b) == Some(ks)
    requires SpendInput(data, ext, height, input).err.None?
    ensures var k := ext.utxoKey(input.txId, input.outputIndex as int);
            var u := ext.decodeUtxo(data[k]).value;
            var listKey := ext.utxoListKey(u.txOut.address);
            var after := ApplyBatch(data, SpendInput(data, ext, height, input).puts);
            k != listKey ==>
              k in after && listKey in after &&
              ext.decodeUtxo(after[k]) == Some(u.(spent := true, spentHeight := height)) &&
              ext.decodeAddrSet(after[listKey]) == Some(ext.decodeAddrSet(data[listKey]).value - {k})
  {
    var k := ext.utxoKey(input.txId, input.outputIndex as int);
    var u := ext.decodeUtxo(data[k]).value;
    var listKey := ext.utxoListKey(u.txOut.address);
    var puts := SpendInput(data, ext, height, input).puts;
    if k != listKey {
      ApplyBatchLookup(data, puts, k);
      ApplyBatchLookup(data, puts, listKey);
      assert puts[..1] == [puts[0]];
    }
  }

  /** An already spent UTXO is not rejected: the outcome of spending it is
      the one for the same UTXO stored unspent, and its spent height is
      overwritten with the new one. */
  lemma RespendIsNotRejected(data: map<Key, Bytes>, ext: Externals, height: uint64, input: TxInput, b1: Bytes, b2: Bytes)
    requires var k := ext.utxoKey(input.txId, input.outputIndex as int);
             ext.decodeUtxo(b1).Some? && ext.decodeUtxo(b2).Some? &&
             ext.decodeUtxo(b1).value.spent && !ext.decodeUtxo(b2).value.spent &&
             ext.decodeUtxo(b1).value.(spent := false, spentHeight := 0) == ext.decodeUtxo(b2).value.(spent := false, spentHeight := 0) &&
             ext.utxoListKey(ext.decodeUtxo(b1).value.txOut.address) != k
    ensures var k := ext.utxoKey(input.txId, input.outputIndex as int);
            SpendInput(data[k := b1], ext, height, input) == SpendInput(data[k := b2], ext, height, input)
  {
    var k := ext.utxoKey(input.txId, input.outputIndex as int);
    var u1 := ext.decodeUtxo(b1).value;
    var u2 := ext.decodeUtxo(b2).value;
    assert u1.(spent := true, spentHeight := height) == u2.(spent := true, spentHeight := height) by {
      assert u1.txId == u2.txId && u1.outputIndex == u2.outputIndex && u1.txOut == u2.txOut && u1.height == u2.height;
    }
  }

  /** Reads go to the committed store, so two inputs of one owner both
      start from the stored set: the later put of the set wins, and the
      first input's key is back in it. */
  lemma LastRemovalWins(data: map<Key, Bytes>, ext: Externals, height: uint64, a: TxInput, b: TxInput)
    requires SpendAll(data, ext, height, [a, b]).err.None?
    requires var ka := ext.utxoKey(a.txId, a.outputIndex as int);
             var kb := ext.utxoKey(b.txId, b.outputIndex as int);
             ka != kb && ka in data && kb in data &&
             ext.decodeUtxo(data[ka]).Some? && ext.decodeUtxo(data[kb]).Some? &&
             ext.utxoListKey(ext.decodeUtxo(data[ka]).value.txOut.address) == ext.utxoListKey(ext.decodeUtxo(data[kb]).value.txOut.address)
    ensures var ka := ext.utxoKey(a.txId, a.outputIndex as int);
            var kb := ext.utxoKey(b.txId, b.outputIndex as int);
            var listKey := ext.utxoListKey(ext.decodeUtxo(data[kb]).value.txOut.address);
            listKey in data && ext.decodeAddrSet(data[listKey]).Some? &&
            var stored := ext.decodeAddrSet(data[listKey]).value;
            Lookup(ApplyBatch(data, SpendAll(data, ext, height, [a, b]).puts), listKey) ==
              ext.serialize(AddrSetRecord(stored - {kb})) &&
            (ka in stored ==> ka in stored - {kb})
  {
    var kb := ext.utxoKey(b.txId, b.outputIndex as int);
    var listKey := ext.utxoListKey(ext.decodeUtxo(data[kb]).value.txOut.address);
    assert [a, b] == [a] + [b];
    assert [a] == [] + [a];
    SpendAllSnoc(data, ext, height, [], a);
    SpendAllSnoc(data, ext, height, [a], b);
    var puts := SpendAll(data, ext, height, [a, b]).puts;
    ApplyBatchLookup(data, puts, listKey);
    assert |puts| == 4 && puts[3].key == listKey;
  }

  /** A successful update issues exactly two puts per input. */
  lemma {:induction false} SpendAllCount(data: map<Key, Bytes>, ext: Externals, height: uint64, inputs: seq<TxInput>)
    ensures SpendAll(data, ext, height, inputs).err.None? ==> |SpendAll(data, ext, height, inputs).puts| == 2 * |inputs|
    decreases |inputs|
  {
    if inputs != [] {
      SpendAllCount(data, ext, height, inputs[..|inputs| - 1]);
    }
  }

  /** Outputs play no part: transactions with the same inputs give the
      same update, and a block without inputs (the genesis block) writes
      nothing and succeeds. */
  lemma {:induction false} OutputsIgnored(txs: seq<Transaction>, other: seq<Transaction>)
    requires |txs| == |other| && forall i | 0 <= i < |txs| :: txs[i].inputs == other[i].inputs
    ensures AllInputs(txs) == AllInputs(other)
    ensures (forall i | 0 <= i < |txs| :: txs[i].inputs == []) ==> AllInputs(txs) == []
    decreases |txs|
  {
    if txs != [] {
      OutputsIgnored(txs[..|txs| - 1], other[..|other| - 1]);
    }
  }

  lemma NoInputsNoWrites(data: map<Key, Bytes>, ext: Externals, blk: Block)
    requires forall i | 0 <= i < |blk.transactions| :: blk.transactions[i].inputs == []
    ensures SpendAll(data, ext, blk.header.height, AllInputs(blk.transactions)) == Outcome([], None)
  {
    OutputsIgnored(blk.transactions, blk.transactions);
  }

  /** UTXOSet: the UTXOs keyed by their storage key. */
  type UtxoSet = map<Key, Utxo>

  const Wrap: nat := 0x1_0000_0000_0000_0000

  function Unspent(u: Utxo): nat {
    if u.spent then 0 else u.txOut.amount
  }

  /** The exact (unbounded) sum of the unspent amounts of a set. */
  ghost function UnspentTotal(m: UtxoSet): nat
    decreases |m|
  {
    if m == map[] then 0
    else
      var k :| k in m;
      assert |m - {k}| < |m| by { assert m.Keys == (m - {k}).Keys + {k}; }
      Unspent(m[k]) + UnspentTotal(m - {k})
  }

  /** The total does not depend on the key picked first. */
  lemma {:induction false} UnspentTotalRemove(m: UtxoSet, k: Key)
    requires k in m
    ensures UnspentTotal(m) == Unspent(m[k]) + UnspentTotal(m - {k})
    decreases |m|
  {
    var j :| j in m && UnspentTotal(m) == Unspent(m[j]) + UnspentTotal(m - {j});
    if j != k {
      assert |m - {j}| < |m| by { assert m.Keys == (m - {j}).Keys + {j}; }
      assert |m - {k}| < |m| by { assert m.Keys == (m - {k}).Keys + {k}; }
      UnspentTotalRemove(m - {j}, k);
      UnspentTotalRemove(m - {k}, j);
      assert (m - {j}) - {k} == (m - {k}) - {j};
    }
  }

  lemma ModStep(a: nat, c: nat)
    ensures (a % Wrap + c) % Wrap == (a + c) % Wrap
  {
  }

  /** CalBalanceUtxo: the sum of the unspent amounts, wrapping at 2^64 as
      Go's uint64 addition does. */
  method CalBalanceUtxo(utxos: UtxoSet) returns (amount: uint64)
    ensures amount == UnspentTotal(utxos) % Wrap
  {
    amount := 0;
    var rest := utxos.Keys;
    ghost var total: nat := 0;
    assert utxos - rest == map[];
    while rest != {}
      invariant rest <= utxos.Keys
      invariant total == UnspentTotal(utxos - rest)
      invariant amount == total % Wrap
      decreases |rest|
    {
      var k :| k in rest;
      var utxo := utxos[k];
      ghost var seen := utxos - (rest - {k});
      assert seen - {k} == utxos - rest;
      UnspentTotalRemove(seen, k);
      if !utxo.spent {
        ModStep(total, utxo.txOut.amount);
        amount := (amount + utxo.txOut.amount) % Wrap;
      }
      total := total + Unspent(utxo);
      rest := rest - {k};
    }
    assert utxos - rest == utxos;
  }

  /** An empty set has balance 0, and spent entries contribute nothing. */
  lemma SpentAddsNothing(m: UtxoSet, k: Key)
    requires k in m && m[k].spent
    ensures UnspentTotal(m) == UnspentTotal(m - {k})
    ensures UnspentTotal(map[]) == 0
  {
    UnspentTotalRemove(m, k);
  }

  /** Every unspent amount is part of the total. */
  lemma UnspentCounted(m: UtxoSet, k: Key)
    requires k in m && !m[k].spent
    ensures UnspentTotal(m) >= m[k].txOut.amount
  {
    UnspentTotalRemove(m, k);
  }

  /** A set whose every entry is spent has balance 0. */
  lemma {:induction false} AllSpentZero(m: UtxoSet)
    requires forall k | k in m :: m[k].spent
    ensures UnspentTotal(m) == 0
    decreases |m|
  {
    if m != map[] {
      var k :| k in m;
      assert |m - {k}| < |m| by { assert m.Keys == (m - {k}).Keys + {k}; }
      UnspentTotalRemove(m, k);
      AllSpentZero(m - {k});
    }
  }
}
