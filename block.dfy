/** core/block.go: assembling a block from the mempool, the batch a block
    commit writes, and reading a block back by height.

    The puts of a commit are described by a plan: the list of intended
    writes in the order the source issues them, each either a record to
    serialize or raw bytes. Executing a plan is fail-fast: the first record
    that does not serialize stops it with an error. */
module Blocks {
  import opened Types
  import opened Wrappers
  import opened Hex
  import opened Converter
  import opened Entities
  import opened Store
  import opened Protocol
  import opened PrefixGen
  import opened Pool

  /** One intended write. */
  datatype Planned = Encoded(key: Key, rec: Record) | Raw(key: Key, bytes: Bytes)

  /** Issuing one write: serialize (which may fail), then put. */
  function Step(ext: Externals, item: Planned): Outcome {
    match item
    case Raw(k, b) => Outcome([KeyValue(k, b)], None)
    case Encoded(k, r) =>
      match ext.serialize(r)
      case None => Outcome([], Some(EncodeFailed))
      case Some(b) => Outcome([KeyValue(k, b)], None)
  }

  /** Issuing the writes of a plan in order, stopping at the first failure. */
  function Execute(ext: Externals, plan: seq<Planned>): Outcome
    decreases |plan|
  {
    if plan == [] then Outcome([], None)
    else
      var before := Execute(ext, plan[..|plan| - 1]);
      if before.err.Some? then before
      else
        var step := Step(ext, plan[|plan| - 1]);
        Outcome(before.puts + step.puts, step.err)
  }

  /** saveBlockData: the block under its hash key, then the hex form of
      the hash, as bytes, under the height key. */
  function BlockPlan(blk: Block): seq<Planned> {
    [Encoded(GetBlockHashKey(blk.hash), BlockRecord(blk)),
     Raw(GetBlockHeightKey(blk.header.height), StrBytes(HashToString(blk.hash)))]
  }

  function InputItems(id: Hash, inputs: seq<TxInput>): seq<Planned> {
    seq(|inputs|, i requires 0 <= i < |inputs| => Encoded(GetTxInputKey(id, i), InputRecord(inputs[i])))
  }

  function OutputItems(id: Hash, outputs: seq<TxOutput>): seq<Planned> {
    seq(|outputs|, i requires 0 <= i < |outputs| => Encoded(GetTxOutputKey(id, i), OutputRecord(outputs[i])))
  }

  /** The four writes saveTxData issues for a transaction before its
      per-index records. */
  function TxHead(blkHash: Hash, tx: Transaction): seq<Planned> {
    [Encoded(GetTxHashKey(tx.id), TxRecord(tx)),
     Raw(GetTxBlockHashKey(tx.id), HashToBytes(blkHash)),
     Encoded(GetTxInputKey(tx.id, WholeTxIdx), InputsRecord(tx.inputs)),
     Encoded(GetTxOutputKey(tx.id, WholeTxIdx), OutputsRecord(tx.outputs))]
  }

  /** saveTxData for one transaction: the transaction, its block's hash
      (raw), its whole input and output lists, then each input and each
      output under its index. */
  function TxPlan(blkHash: Hash, tx: Transaction): seq<Planned> {
    TxHead(blkHash, tx) + InputItems(tx.id, tx.inputs) + OutputItems(tx.id, tx.outputs)
  }

  function TxsPlan(blkHash: Hash, txs: seq<Transaction>): seq<Planned>
    decreases |txs|
  {
    if txs == [] then [] else TxsPlan(blkHash, txs[..|txs| - 1]) + TxPlan(blkHash, txs[|txs| - 1])
  }

  /** The whole batch AddBlock builds. */
  function CommitPlan(blk: Block): seq<Planned> {
    BlockPlan(blk) + TxsPlan(blk.hash, blk.transactions)
  }

  lemma ExecuteSnoc(ext: Externals, plan: seq<Planned>, x: Planned)
    ensures Execute(ext, plan).err.Some? ==> Execute(ext, plan + [x]) == Execute(ext, plan)
    ensures Execute(ext, plan).err.None? ==>
              Execute(ext, plan + [x]) == Outcome(Execute(ext, plan).puts + Step(ext, x).puts, Step(ext, x).err)
  {
    assert (plan + [x])[..|plan|] == plan;
  }

  /** Once a prefix of the plan has failed, the rest changes nothing. */
  lemma {:induction false} ExecuteStops(ext: Externals, p: seq<Planned>, all: seq<Planned>)
    requires p <= all && Execute(ext, p).err.Some?
    ensures Execute(ext, all) == Execute(ext, p)
    decreases |all|
  {
    if |all| > |p| {
      var init := all[..|all| - 1];
      assert p <= init;
      ExecuteStops(ext, p, init);
    } else {
      assert p == all;
    }
  }

  /** Executing p + q is executing p, then (unless p failed) q. */
  lemma {:induction false} ExecuteAppend(ext: Externals, p: seq<Planned>, q: seq<Planned>)
    ensures Execute(ext, p).err.Some? ==> Execute(ext, p + q) == Execute(ext, p)
    ensures Execute(ext, p).err.None? ==>
              Execute(ext, p + q) == Outcome(Execute(ext, p).puts + Execute(ext, q).puts, Execute(ext, q).err)
    decreases |q|
  {
    if q == [] {
      assert p + q == p;
      assert Execute(ext, p).puts + [] == Execute(ext, p).puts;
    } else {
      var init := q[..|q| - 1];
      var last := q[|q| - 1];
      assert p + q == (p + init) + [last];
      ExecuteSnoc(ext, p + init, last);
      ExecuteAppend(ext, p, init);
      AppendAssoc(Execute(ext, p).puts, Execute(ext, init).puts, Step(ext, last).puts);
    }
  }

  /** A plan succeeds exactly when every record in it serializes; it then
      puts one entry per item, in order, under the item's key. On failure
      the error is EncodeFailed. */
  lemma {:induction false} ExecuteOkIff(ext: Externals, plan: seq<Planned>)
    ensures Execute(ext, plan).err.None? <==>
              forall i | 0 <= i < |plan| :: plan[i].Encoded? ==> ext.serialize(plan[i].rec).Some?
    ensures Execute(ext, plan).err.Some? ==> Execute(ext, plan).err == Some(EncodeFailed)
    ensures Execute(ext, plan).err.None? ==>
              |Execute(ext, plan).puts| == |plan| &&
              forall i | 0 <= i < |plan| :: Step(ext, plan[i]) == Outcome([Execute(ext, plan).puts[i]], None)
    decreases |plan|
  {
    if plan != [] {
      var n := |plan| - 1;
      var init := plan[..n];
      assert plan == init + [plan[n]];
      ExecuteOkIff(ext, init);
      ExecuteSnoc(ext, init, plan[n]);
      if Execute(ext, init).err.None? && Step(ext, plan[n]).err.None? {
        var puts := Execute(ext, plan).puts;
        forall i | 0 <= i < |plan| ensures Step(ext, plan[i]) == Outcome([puts[i]], None) {
          if i < n {
            assert plan[i] == init[i];
            assert puts[i] == Execute(ext, init).puts[i];
          }
        }
      }
      if Execute(ext, init).err.Some? {
        var i :| 0 <= i < |init| && init[i].Encoded? && ext.serialize(init[i].rec).None?;
        assert plan[i] == init[i];
      }
    }
  }

  /** saveTxData issues 4 + |inputs| + |outputs| writes per transaction. */
  lemma TxPlanCount(blkHash: Hash, tx: Transaction)
    ensures |TxPlan(blkHash, tx)| == 4 + |tx.inputs| + |tx.outputs|
    ensures forall i | 0 <= i < |tx.inputs| :: TxPlan(blkHash, tx)[4 + i] == Encoded(GetTxInputKey(tx.id, i), InputRecord(tx.inputs[i]))
    ensures forall i | 0 <= i < |tx.outputs| ::
              TxPlan(blkHash, tx)[4 + |tx.inputs| + i] == Encoded(GetTxOutputKey(tx.id, i), OutputRecord(tx.outputs[i]))
  {
    var plan := TxPlan(blkHash, tx);
    var ins := InputItems(tx.id, tx.inputs);
    var outs := OutputItems(tx.id, tx.outputs);
    assert |TxHead(blkHash, tx)| == 4;
    forall i | 0 <= i < |tx.inputs| ensures plan[4 + i] == ins[i] {
    }
    forall i | 0 <= i < |tx.outputs| ensures plan[4 + |tx.inputs| + i] == outs[i] {
    }
  }

  /** Every key a commit writes starts with "blk:" or "tx:", so none is a
      metadata key: the tip write and the block batch never touch the same
      key. */
  lemma {:induction false} CommitKeysAreNotMeta(blk: Block)
    ensures forall i | 0 <= i < |CommitPlan(blk)| ::
              var k := CommitPlan(blk)[i].key;
              |k| > 0 && (k[0] == 'b' || k[0] == 't') && !(PrefixMetaHeight <= k) && k != PrefixMetaBlockHash
  {
    TxsPlanKeys(blk.hash, blk.transactions);
    forall i | 0 <= i < |CommitPlan(blk)|
      ensures var k := CommitPlan(blk)[i].key;
              |k| > 0 && (k[0] == 'b' || k[0] == 't') && !(PrefixMetaHeight <= k) && k != PrefixMetaBlockHash
    {
      if i < |BlockPlan(blk)| {
        assert CommitPlan(blk)[i] == BlockPlan(blk)[i];
      } else {
        assert CommitPlan(blk)[i] == TxsPlan(blk.hash, blk.transactions)[i - |BlockPlan(blk)|];
      }
    }
  }

  lemma {:induction false} TxsPlanKeys(blkHash: Hash, txs: seq<Transaction>)
    ensures forall i | 0 <= i < |TxsPlan(blkHash, txs)| ::
              |TxsPlan(blkHash, txs)[i].key| > 0 && TxsPlan(blkHash, txs)[i].key[0] == 't'
    decreases |txs|
  {
    if txs != [] {
      TxsPlanKeys(blkHash, txs[..|txs| - 1]);
      var tx := txs[|txs| - 1];
      var p := TxPlan(blkHash, tx);
      assert forall i | 0 <= i < |p| :: |p[i].key| > 0 && p[i].key[0] == 't' by {
        TxPlanCount(blkHash, tx);
        forall i | 0 <= i < |p| ensures |p[i].key| > 0 && p[i].key[0] == 't' {
          if i >= 4 + |tx.inputs| {
            assert p[i] == Encoded(GetTxOutputKey(tx.id, i - 4 - |tx.inputs|), OutputRecord(tx.outputs[i - 4 - |tx.inputs|]));
          } else if i >= 4 {
            assert p[i] == Encoded(GetTxInputKey(tx.id, i - 4), InputRecord(tx.inputs[i - 4]));
          }
        }
      }
    }
  }

  /** saveBlockData. */
  method SaveBlockData(batch: Batch, blk: Block, ext: Externals) returns (err: Option<Error>)
    modifies batch
    ensures batch.puts == old(batch.puts) + Execute(ext, BlockPlan(blk)).puts
    ensures err == Execute(ext, BlockPlan(blk)).err
  {
    ghost var plan := BlockPlan(blk);
    assert plan[..1] == [plan[0]] && plan[..0] == [] && plan == plan[..1] + [plan[1]];
    ExecuteSnoc(ext, [], plan[0]);
    ExecuteSnoc(ext, plan[..1], plan[1]);
    var blkBytes := ext.serialize(BlockRecord(blk));
    if blkBytes.None? {
      return Some(EncodeFailed);
    }
    var blkHashKey := GetBlockHashKey(blk.hash);
    batch.Put(blkHashKey, blkBytes.value);
    var heightKey := GetBlockHeightKey(blk.header.height);
    batch.Put(heightKey, StrBytes(HashToString(blk.hash)));
    return None;
  }

  /** One item of a plan: the puts up to item n + 1 extend those up to n. */
  lemma ExecutePrefix(ext: Externals, plan: seq<Planned>, n: nat)
    requires n < |plan|
    ensures Execute(ext, plan[..n]).err.Some? ==> Execute(ext, plan[..n + 1]) == Execute(ext, plan[..n])
    ensures Execute(ext, plan[..n]).err.None? ==>
              Execute(ext, plan[..n + 1]) == Outcome(Execute(ext, plan[..n]).puts + Step(ext, plan[n]).puts, Step(ext, plan[n]).err)
  {
    assert plan[..n + 1] == plan[..n] + [plan[n]];
    ExecuteSnoc(ext, plan[..n], plan[n]);
  }

  /** Put one serialized record of the plan at position n, or fail. */
  method PutRecord(batch: Batch, ext: Externals, ghost plan: seq<Planned>, ghost n: nat, ghost start: seq<KeyValue>, key: Key, rec: Record)
      returns (err: Option<Error>)
    requires n < |plan| && plan[n] == Encoded(key, rec)
    requires Execute(ext, plan[..n]).err.None? && batch.puts == start + Execute(ext, plan[..n]).puts
    modifies batch
    ensures err == Execute(ext, plan[..n + 1]).err
    ensures batch.puts == start + Execute(ext, plan[..n + 1]).puts
  {
    ExecutePrefix(ext, plan, n);
    var bytes := ext.serialize(rec);
    if bytes.None? {
      return Some(EncodeFailed);
    }
    AppendAssoc(start, Execute(ext, plan[..n]).puts, [KeyValue(key, bytes.value)]);
    batch.Put(key, bytes.value);
    return None;
  }

  /** The body of saveTxData's loop, for one transaction: the four head
      writes, then the inputs, then the outputs. */
  method SaveTx(batch: Batch, blkHash: Hash, tx: Transaction, ext: Externals) returns (err: Option<Error>)
    modifies batch
    ensures batch.puts == old(batch.puts) + Execute(ext, TxPlan(blkHash, tx)).puts
    ensures err == Execute(ext, TxPlan(blkHash, tx)).err
  {
    ghost var head := TxHead(blkHash, tx);
    ghost var ins := InputItems(tx.id, tx.inputs);
    ghost var outs := OutputItems(tx.id, tx.outputs);
    ghost var start := batch.puts;
    ExecuteAppend(ext, head, ins);
    ExecuteAppend(ext, head + ins, outs);
    err := SaveTxHead(batch, blkHash, tx, ext);
    if err.Some? {
      return;
    }
    err := SaveInputs(batch, tx.id, tx.inputs, ext);
    AppendAssoc(start, Execute(ext, head).puts, Execute(ext, ins).puts);
    if err.Some? {
      return;
    }
    err := SaveOutputs(batch, tx.id, tx.outputs, ext);
    AppendAssoc(start, Execute(ext, head + ins).puts, Execute(ext, outs).puts);
  }

  /** The four head writes of a transaction. */
  method SaveTxHead(batch: Batch, blkHash: Hash, tx: Transaction, ext: Externals) returns (err: Option<Error>)
    modifies batch
    ensures batch.puts == old(batch.puts) + Execute(ext, TxHead(blkHash, tx)).puts
    ensures err == Execute(ext, TxHead(blkHash, tx)).err
  {
    ghost var plan := TxHead(blkHash, tx);
    ghost var start := batch.puts;
    assert plan[..0] == [];
    err := PutRecord(batch, ext, plan, 0, start, GetTxHashKey(tx.id), TxRecord(tx));
    if err.Some? {
      ExecuteStops(ext, plan[..1], plan);
      return;
    }
    ExecutePrefix(ext, plan, 1);
    AppendAssoc(start, Execute(ext, plan[..1]).puts, [KeyValue(GetTxBlockHashKey(tx.id), HashToBytes(blkHash))]);
    batch.Put(GetTxBlockHashKey(tx.id), HashToBytes(blkHash));
    err := PutRecord(batch, ext, plan, 2, start, GetTxInputKey(tx.id, WholeTxIdx), InputsRecord(tx.inputs));
    if err.Some? {
      ExecuteStops(ext, plan[..3], plan);
      return;
    }
    err := PutRecord(batch, ext, plan, 3, start, GetTxOutputKey(tx.id, WholeTxIdx), OutputsRecord(tx.outputs));
    assert plan[..4] == plan;
  }

  /** The loop over a transaction's inputs. */
  method SaveInputs(batch: Batch, id: Hash, inputs: seq<TxInput>, ext: Externals) returns (err: Option<Error>)
    modifies batch
    ensures batch.puts == old(batch.puts) + Execute(ext, InputItems(id, inputs)).puts
    ensures err == Execute(ext, InputItems(id, inputs)).err
  {
    ghost var plan := InputItems(id, inputs);
    ghost var start := batch.puts;
    assert plan[..0] == [];
    var idx := 0;
    while idx < |inputs|
      invariant 0 <= idx <= |inputs|
      invariant Execute(ext, plan[..idx]).err.None?
      invariant batch.puts == start + Execute(ext, plan[..idx]).puts
    {
      err := PutRecord(batch, ext, plan, idx, start, GetTxInputKey(id, idx), InputRecord(inputs[idx]));
      if err.Some? {
        ExecuteStops(ext, plan[..idx + 1], plan);
        return;
      }
      idx := idx + 1;
    }
    assert plan[..idx] == plan;
    return None;
  }

  /** The loop over a transaction's outputs. */
  method SaveOutputs(batch: Batch, id: Hash, outputs: seq<TxOutput>, ext: Externals) returns (err: Option<Error>)
    modifies batch
    ensures batch.puts == old(batch.puts) + Execute(ext, OutputItems(id, outputs)).puts
    ensures err == Execute(ext, OutputItems(id, outputs)).err
  {
    ghost var plan := OutputItems(id, outputs);
    ghost var start := batch.puts;
    assert plan[..0] == [];
    var idx := 0;
    while idx < |outputs|
      invariant 0 <= idx <= |outputs|
      invariant Execute(ext, plan[..idx]).err.None?
      invariant batch.puts == start + Execute(ext, plan[..idx]).puts
    {
      err := PutRecord(batch, ext, plan, idx, start, GetTxOutputKey(id, idx), OutputRecord(outputs[idx]));
      if err.Some? {
        ExecuteStops(ext, plan[..idx + 1], plan);
        return;
      }
      idx := idx + 1;
    }
    assert plan[..idx] == plan;
    return None;
  }

  lemma TxsPlanSnoc(blkHash: Hash, txs: seq<Transaction>, t: nat)
    requires t < |txs|
    ensures TxsPlan(blkHash, txs[..t + 1]) == TxsPlan(blkHash, txs[..t]) + TxPlan(blkHash, txs[t])
  {
    assert txs[..t + 1][..t] == txs[..t];
  }

  lemma {:induction false} TxsPlanPrefix(blkHash: Hash, txs: seq<Transaction>, t: nat)
    requires t <= |txs|
    ensures TxsPlan(blkHash, txs[..t]) <= TxsPlan(blkHash, txs)
    decreases |txs| - t
  {
    if t < |txs| {
      TxsPlanSnoc(blkHash, txs, t);
      TxsPlanPrefix(blkHash, txs, t + 1);
    } else {
      assert txs[..t] == txs;
    }
  }

  /** saveTxData. */
  method SaveTxData(batch: Batch, blk: Block, ext: Externals) returns (err: Option<Error>)
    modifies batch
    ensures batch.puts == old(batch.puts) + Execute(ext, TxsPlan(blk.hash, blk.transactions)).puts
    ensures err == Execute(ext, TxsPlan(blk.hash, blk.transactions)).err
  {
    var txs := blk.transactions;
    ghost var start := batch.puts;
    var t := 0;
    while t < |txs|
      invariant 0 <= t <= |txs|
      invariant Execute(ext, TxsPlan(blk.hash, txs[..t])).err.None?
      invariant batch.puts == start + Execute(ext, TxsPlan(blk.hash, txs[..t])).puts
    {
      ghost var before := Execute(ext, TxsPlan(blk.hash, txs[..t]));
      ghost var step := Execute(ext, TxPlan(blk.hash, txs[t]));
      err := SaveTx(batch, blk.hash, txs[t], ext);
      AppendAssoc(start, before.puts, step.puts);
      TxsPlanSnoc(blk.hash, txs, t);
      ExecuteAppend(ext, TxsPlan(blk.hash, txs[..t]), TxPlan(blk.hash, txs[t]));
      if err.Some? {
        TxsPlanPrefix(blk.hash, txs, t + 1);
        ExecuteStops(ext, TxsPlan(blk.hash, txs[..t + 1]), TxsPlan(blk.hash, txs));
        return;
      }
      t := t + 1;
    }
    assert txs[..t] == txs;
    return None;
  }

  /** setBlockHeader: the configured protocol version, the given height and
      previous hash, and the clock reading `now`. The Merkle root is left
      zero, as setBlockHeader does not set it. */
  function SetBlockHeader(cfg: Config, height: uint64, prevHash: Hash, now: int64): (h: BlockHeader)
    ensures h.version == cfg.protocolVersion && h.height == height && h.prevHash == prevHash
    ensures h.merkleRoot == ZeroHash() && forall i | 0 <= i < HashLen :: h.merkleRoot[i] == 0
    ensures h.timestamp == now
  {
    BlockHeader(cfg.protocolVersion, height, prevHash, ZeroHash(), now)
  }

  /** SetBlock: a block over the mempool's pending transactions, hashed
      while its own hash field is still zero. The mempool is not changed. */
  method SetBlock(mempool: Mempool, cfg: Config, ext: Externals, prevHash: Hash, height: uint64, now: int64) returns (blk: Block)
    requires mempool.Valid()
    ensures blk.header.version == cfg.protocolVersion && blk.header.height == height
    ensures blk.header.prevHash == prevHash && blk.header.timestamp == now
    ensures blk.header.merkleRoot == ZeroHash()
    ensures |blk.transactions| == Min(|mempool.transactions|, MaxTxsPerBlock)
    ensures forall i | 0 <= i < |blk.transactions| ::
              HashToString(blk.transactions[i].id) in mempool.transactions &&
              mempool.transactions[HashToString(blk.transactions[i].id)] == blk.transactions[i]
    ensures forall i, j | 0 <= i < j < |blk.transactions| :: blk.transactions[i].id != blk.transactions[j].id
    ensures |mempool.transactions| <= MaxTxsPerBlock ==>
              forall k | k in mempool.transactions :: mempool.transactions[k] in blk.transactions
    ensures blk.hash == ext.hash(BlockRecord(blk.(hash := ZeroHash())))
  {
    var header := SetBlockHeader(cfg, height, prevHash, now);
    var txs := mempool.GetTxs();
    blk := Block(header, ZeroHash(), txs);
    var blkHash := ext.hash(BlockRecord(blk));
    blk := blk.(hash := blkHash);
  }

  /** GetBlock as the source writes it: the bytes stored under the height
      key are the ASCII hex form of the hash (see BlockPlan), but they are
      read back with BytesToHash, which takes their first 32 bytes as the
      hash itself. Fewer than 32 bytes make the Go conversion panic; that
      is the ShortHashBytes error here. */
  function GetBlockAsWritten(data: map<Key, Bytes>, ext: Externals, height: uint64): (r: Result<Block, Error>)
    ensures GetBlockHeightKey(height) !in data ==> r == Err(NotFound(GetBlockHeightKey(height)))
    ensures r.Ok? ==> (GetBlockHeightKey(height) in data && |data[GetBlockHeightKey(height)]| >= HashLen &&
                       var key := GetBlockHashKey(BytesToHash(data[GetBlockHeightKey(height)]));
                       key in data && ext.decodeBlock(data[key]) == Some(r.value))
  {
    var heightKey := GetBlockHeightKey(height);
    if heightKey !in data then Err(NotFound(heightKey))
    else if |data[heightKey]| < HashLen then Err(ShortHashBytes(|data[heightKey]|))
    else
      var blkKey := GetBlockHashKey(BytesToHash(data[heightKey]));
      if blkKey !in data then Err(NotFound(blkKey))
      else match ext.decodeBlock(data[blkKey])
        case None => Err(DecodeFailed(blkKey))
        case Some(block) => Ok(block)
  }

  /** GetBlock as intended: the stored bytes are read as the hex string
      they are. */
  function GetBlock(data: map<Key, Bytes>, ext: Externals, height: uint64): (r: Result<Block, Error>)
    ensures GetBlockHeightKey(height) !in data ==> r == Err(NotFound(GetBlockHeightKey(height)))
    ensures r.Ok? ==> (GetBlockHeightKey(height) in data &&
                       var (h, e) := StringToHash(BytesStr(data[GetBlockHeightKey(height)]));
                       e.None? && GetBlockHashKey(h) in data && ext.decodeBlock(data[GetBlockHashKey(h)]) == Some(r.value))
  {
    var heightKey := GetBlockHeightKey(height);
    if heightKey !in data then Err(NotFound(heightKey))
    else
      var (blkHash, e) := StringToHash(BytesStr(data[heightKey]));
      if e.Some? then Err(e.value)
      else
        var blkKey := GetBlockHashKey(blkHash);
        if blkKey !in data then Err(NotFound(blkKey))
        else match ext.decodeBlock(data[blkKey])
          case None => Err(DecodeFailed(blkKey))
          case Some(block) => Ok(block)
  }

  /** The puts of a successful commit: the two block entries, then the
      transaction entries, whose keys all start with 't'. */
  lemma CommitPuts(ext: Externals, blk: Block)
    requires Execute(ext, CommitPlan(blk)).err.None?
    ensures var puts := Execute(ext, CommitPlan(blk)).puts;
            var tail := Execute(ext, TxsPlan(blk.hash, blk.transactions)).puts;
            ext.serialize(BlockRecord(blk)).Some? &&
            puts == [KeyValue(GetBlockHashKey(blk.hash), ext.serialize(BlockRecord(blk)).value),
                     KeyValue(GetBlockHeightKey(blk.header.height), StrBytes(HashToString(blk.hash)))] + tail &&
            forall i | 0 <= i < |tail| :: |tail[i].key| > 0 && tail[i].key[0] == 't'
  {
    var bp := BlockPlan(blk);
    var tp := TxsPlan(blk.hash, blk.transactions);
    ExecuteAppend(ext, bp, tp);
    ExecuteOkIff(ext, bp);
    ExecuteOkIff(ext, tp);
    TxsPlanKeys(blk.hash, blk.transactions);
    var tail := Execute(ext, tp).puts;
    forall i | 0 <= i < |tail| ensures tail[i].key == tp[i].key {
      assert Step(ext, tp[i]) == Outcome([tail[i]], None);
    }
    var bputs := Execute(ext, bp).puts;
    assert Step(ext, bp[0]) == Outcome([bputs[0]], None);
    assert Step(ext, bp[1]) == Outcome([bputs[1]], None);
    assert bputs == [bputs[0], bputs[1]];
  }

  /** Reading a block back by height after its commit, with the corrected
      reader, returns the block (given that decoding inverts encoding). */
  lemma CommitThenGetBlock(data: map<Key, Bytes>, ext: Externals, blk: Block)
    requires Execute(ext, CommitPlan(blk)).err.None?
    requires ext.serialize(BlockRecord(blk)).Some? && ext.decodeBlock(ext.serialize(BlockRecord(blk)).value) == Some(blk)
    ensures GetBlock(ApplyBatch(data, Execute(ext, CommitPlan(blk)).puts), ext, blk.header.height) == Ok(blk)
  {
    CommitBlockEntries(data, ext, blk);
    StrBytesRoundTrip(HashToString(blk.hash), []);
    HashRoundTrip(blk.hash);
  }

  /** After a successful commit the height key holds the hex text of the
      hash as bytes and the block key holds the serialized block. */
  lemma CommitBlockEntries(data: map<Key, Bytes>, ext: Externals, blk: Block)
    requires Execute(ext, CommitPlan(blk)).err.None?
    ensures var after := ApplyBatch(data, Execute(ext, CommitPlan(blk)).puts);
            ext.serialize(BlockRecord(blk)).Some? &&
            GetBlockHeightKey(blk.header.height) in after &&
            after[GetBlockHeightKey(blk.header.height)] == StrBytes(HashToString(blk.hash)) &&
            GetBlockHashKey(blk.hash) in after && after[GetBlockHashKey(blk.hash)] == ext.serialize(BlockRecord(blk)).value
  {
    CommitPuts(ext, blk);
    var hashKey := GetBlockHashKey(blk.hash);
    var heightKey := GetBlockHeightKey(blk.header.height);
    var head := [KeyValue(hashKey, ext.serialize(BlockRecord(blk)).value), KeyValue(heightKey, StrBytes(HashToString(blk.hash)))];
    var tail := Execute(ext, TxsPlan(blk.hash, blk.transactions)).puts;
    ApplyBatchAppend(data, head, tail);
    var mid := ApplyBatch(data, head);
    ApplyBatchPair(data, head[0], head[1]);
    assert !Touches(tail, heightKey) && !Touches(tail, hashKey);
    ApplyBatchLookup(mid, tail, heightKey);
    ApplyBatchLookup(mid, tail, hashKey);
    HeightKeyIsNotHashKey(blk.header.height, blk.hash);
  }

  /** A commit writes no block key but its own: every other block key is
      present afterwards exactly when it was present before. */
  lemma CommitLeavesOtherBlockKeys(data: map<Key, Bytes>, ext: Externals, blk: Block, h: Hash)
    requires Execute(ext, CommitPlan(blk)).err.None? && h != blk.hash
    ensures GetBlockHashKey(h) in ApplyBatch(data, Execute(ext, CommitPlan(blk)).puts) <==> GetBlockHashKey(h) in data
  {
    CommitPuts(ext, blk);
    var hashKey := GetBlockHashKey(blk.hash);
    var heightKey := GetBlockHeightKey(blk.header.height);
    var key := GetBlockHashKey(h);
    var head := [KeyValue(hashKey, ext.serialize(BlockRecord(blk)).value), KeyValue(heightKey, StrBytes(HashToString(blk.hash)))];
    var tail := Execute(ext, TxsPlan(blk.hash, blk.transactions)).puts;
    ApplyBatchAppend(data, head, tail);
    var mid := ApplyBatch(data, head);
    ApplyBatchPair(data, head[0], head[1]);
    assert key[0] == 'b';
    assert !Touches(tail, key);
    ApplyBatchLookup(mid, tail, key);
    HeightKeyIsNotHashKey(blk.header.height, h);
    BlockHashKeyInjective(h, blk.hash);
  }

  /** What the as-written reader finds after a commit: it looks up the
      block key of w, the hash made of the first 32 bytes of the stored hex
      text. When w is the block's own hash it finds the block; otherwise
      the commit did not write w's key, so the reader fails with NotFound
      when the store held nothing there before. */
  lemma AsWrittenLooksUpHexBytes(data: map<Key, Bytes>, ext: Externals, blk: Block)
    requires Execute(ext, CommitPlan(blk)).err.None?
    ensures var w := BytesToHash(StrBytes(HashToString(blk.hash)));
            var after := ApplyBatch(data, Execute(ext, CommitPlan(blk)).puts);
            GetBlockHashKey(blk.hash) in after &&
            (w == blk.hash && ext.serialize(BlockRecord(blk)).Some? &&
             ext.decodeBlock(ext.serialize(BlockRecord(blk)).value) == Some(blk) ==>
               GetBlockAsWritten(after, ext, blk.header.height) == Ok(blk)) &&
            (w != blk.hash && GetBlockHashKey(w) !in data ==>
               GetBlockAsWritten(after, ext, blk.header.height) == Err(NotFound(GetBlockHashKey(w))))
  {
    var w := BytesToHash(StrBytes(HashToString(blk.hash)));
    CommitBlockEntries(data, ext, blk);
    if w != blk.hash {
      CommitLeavesOtherBlockKeys(data, ext, blk, w);
    }
  }

  /** The hash whose 32 bytes are all c. */
  function Repeated(c: byte): (h: Hash)
    ensures forall i | 0 <= i < HashLen :: h[i] == c
  {
    seq(HashLen, i => c)
  }

  /** When every byte of h is b, every hex digit of h is d, and the hash
      read back from that text has every byte equal to d's code. */
  lemma UniformHexBytes(h: Hash, b: byte, d: char)
    requires forall i | 0 <= i < HashLen :: h[i] == b
    requires DigitOf(b as int / 16) == d && DigitOf(b as int % 16) == d
    ensures BytesToHash(StrBytes(HashToString(h))) == Repeated(d as int as byte)
  {
    var hex := HashToString(h);
    forall i | 0 <= i < 2 * HashLen ensures hex[i] == d {
      var j := i / 2;
      assert i == 2 * j || i == 2 * j + 1;
      assert h[j] == b;
    }
    assert IsByteString(hex);
    var w := BytesToHash(StrBytes(hex));
    forall i | 0 <= i < HashLen ensures w[i] == Repeated(d as int as byte)[i] {
      assert hex[i] == d;
    }
  }

  /** The as-written reader misses a block it has just committed: with the
      zero hash the height key holds 64 '0' characters (0x30), BytesToHash
      reads 32 bytes 0x30, and the key looked up is "blk:3030…", not the
      block's "blk:0000…". From any store without that key the read fails
      although the block's own key is present. */
  lemma AsWrittenMissesCommittedBlock(data: map<Key, Bytes>, ext: Externals, blk: Block)
    requires blk.hash == ZeroHash() && Execute(ext, CommitPlan(blk)).err.None?
    requires GetBlockHashKey(Repeated(0x30)) !in data
    ensures var after := ApplyBatch(data, Execute(ext, CommitPlan(blk)).puts);
            GetBlockHashKey(blk.hash) in after &&
            GetBlockAsWritten(after, ext, blk.header.height) == Err(NotFound(GetBlockHashKey(Repeated(0x30))))
  {
    UniformHexBytes(blk.hash, 0, '0');
    assert Repeated(0x30)[0] != blk.hash[0];
    AsWrittenLooksUpHexBytes(data, ext, blk);
  }

  /** The as-written reader does find the block whose hash bytes are all
      0x33: its hex text is 64 '3' characters, whose codes are 0x33 again. */
  lemma AsWrittenReadsFixedPoint(data: map<Key, Bytes>, ext: Externals, blk: Block)
    requires blk.hash == Repeated(0x33) && Execute(ext, CommitPlan(blk)).err.None?
    requires ext.serialize(BlockRecord(blk)).Some? && ext.decodeBlock(ext.serialize(BlockRecord(blk)).value) == Some(blk)
    ensures GetBlockAsWritten(ApplyBatch(data, Execute(ext, CommitPlan(blk)).puts), ext, blk.header.height) == Ok(blk)
  {
    UniformHexBytes(blk.hash, 0x33, '3');
    AsWrittenLooksUpHexBytes(data, ext, blk);
  }
}
