/** core/blockchain.go, with AddBlock from core/block.go: the chain tip
    (latest height and latest block hash), loaded from and written to the
    metadata keys, and the start-up that commits the genesis block on an
    empty store. Whether a store write fails is passed in; the lock that
    serialises callers is not modelled. */
module Chain {
  import opened Types
  import opened Wrappers
  import opened Decimals
  import opened Hex
  import opened Converter
  import opened Entities
  import opened Store
  import opened Protocol
  import opened Pool
  import opened Blocks
  import opened Genesis

  /** The pair (LatestHeight, LatestBlockHash). */
  datatype Tip = Tip(height: uint64, hash: string)

  /** The empty tip of a chain without blocks. */
  const NoTip: Tip := Tip(0, "")

  /** LoadChainDB, as a value: no height key gives the empty tip; a
      height that is not a decimal uint64 is an error; a missing hash key
      gives the empty hash. */
  function LoadTip(data: map<Key, Bytes>): Result<Tip, Error> {
    if PrefixMetaHeight !in data then Ok(NoTip)
    else match ParseUint64(BytesStr(data[PrefixMetaHeight]))
      case None => Err(BadHeightFormat)
      case Some(h) =>
        Ok(Tip(h, if PrefixMetaBlockHash in data then BytesStr(data[PrefixMetaBlockHash]) else ""))
  }

  /** The batch UpdateChainState writes: the decimal height and the hash
      under the two metadata keys, and the hash under the height key
      followed by the decimal height. */
  function TipPuts(height: uint64, hash: string): seq<KeyValue> {
    [KeyValue(PrefixMetaHeight, StrBytes(Decimal(height))),
     KeyValue(PrefixMetaBlockHash, StrBytes(hash)),
     KeyValue(PrefixMetaHeight + Decimal(height), StrBytes(hash))]
  }

  /** AddBlock's rule for moving the tip. */
  predicate Advances(latestHeight: uint64, blk: Block) {
    blk.header.height > latestHeight || blk.header.height == 0
  }

  class BlockChain {
    var latestHeight: uint64
    var latestBlockHash: string
    const db: DB
    const cfg: Config
    const mempool: Mempool
    const ext: Externals

    ghost predicate Valid()
      reads this, mempool
    {
      mempool.Valid()
    }

    /** The struct literal of NewChainState: an empty tip and a new mempool. */
    constructor (db: DB, cfg: Config, ext: Externals)
      ensures this.db == db && this.cfg == cfg && this.ext == ext
      ensures latestHeight == 0 && latestBlockHash == ""
      ensures fresh(mempool) && mempool.transactions == map[] && Valid()
    {
      this.db := db;
      this.cfg := cfg;
      this.ext := ext;
      latestHeight := 0;
      latestBlockHash := "";
      mempool := new Mempool();
    }

    /** LoadChainDB: the tip from the store, or an error with the tip as
        it was. */
    method LoadChainDB() returns (err: Option<Error>)
      modifies this
      ensures LoadTip(db.data).Ok? ==> err.None? && Tip(latestHeight, latestBlockHash) == LoadTip(db.data).value
      ensures LoadTip(db.data).Err? ==>
                err == Some(LoadTip(db.data).error) &&
                latestHeight == old(latestHeight) && latestBlockHash == old(latestBlockHash)
    {
      if PrefixMetaHeight !in db.data {
        latestHeight := 0;
        latestBlockHash := "";
        return None;
      }
      var heightBytes := db.data[PrefixMetaHeight];
      var height := ParseUint64(BytesStr(heightBytes));
      if height.None? {
        return Some(BadHeightFormat);
      }
      latestHeight := height.value;
      var blkHashBytes: Bytes := if PrefixMetaBlockHash in db.data then db.data[PrefixMetaBlockHash] else [];
      latestBlockHash := BytesStr(blkHashBytes);
      return None;
    }

    /** UpdateChainState: (0, "") is a no-op; otherwise the tip in memory
        is set first, and then the metadata batch is written, so a failed
        write leaves the new tip in memory only. */
    method UpdateChainState(height: uint64, blockHash: string, fails: bool) returns (err: Option<Error>)
      modifies this, db
      ensures height == 0 && blockHash == "" ==>
                err.None? && latestHeight == old(latestHeight) && latestBlockHash == old(latestBlockHash) &&
                db.data == old(db.data)
      ensures !(height == 0 && blockHash == "") ==>
                latestHeight == height && latestBlockHash == blockHash &&
                (fails ==> err == Some(WriteFailed) && db.data == old(db.data)) &&
                (!fails ==> err.None? && db.data == ApplyBatch(old(db.data), TipPuts(height, blockHash)))
    {
      if height == 0 && blockHash == "" {
        return None;
      }
      latestBlockHash := blockHash;
      latestHeight := height;
      var batch := new Batch();
      batch.Put(PrefixMetaHeight, StrBytes(Decimal(height)));
      batch.Put(PrefixMetaBlockHash, StrBytes(blockHash));
      batch.Put(PrefixMetaHeight + Decimal(height), StrBytes(blockHash));
      err := db.Write(batch, fails);
    }

    /** AddBlock: build the commit batch (any serialization failure returns
        false and writes nothing), move the tip when the block is higher or
        is the genesis block (a separate metadata write, before the batch),
        then write the batch. `metaFails` and `batchFails` say whether those
        two writes fail. */
    method AddBlock(blk: Block, metaFails: bool, batchFails: bool) returns (ok: bool, err: Option<Error>)
      modifies this, db
      ensures ok <==> err.None?
      ensures var out := Execute(ext, CommitPlan(blk));
              out.err.Some? ==>
                err == out.err && latestHeight == old(latestHeight) && latestBlockHash == old(latestBlockHash) &&
                db.data == old(db.data)
      ensures var out := Execute(ext, CommitPlan(blk));
              out.err.None? && Advances(old(latestHeight), blk) ==>
                latestHeight == blk.header.height && latestBlockHash == HashToString(blk.hash) &&
                (metaFails ==> err == Some(WriteFailed) && db.data == old(db.data)) &&
                (!metaFails && batchFails ==>
                   err == Some(WriteFailed) && db.data == ApplyBatch(old(db.data), TipPuts(blk.header.height, HashToString(blk.hash)))) &&
                (!metaFails && !batchFails ==>
                   ok && db.data == ApplyBatch(ApplyBatch(old(db.data), TipPuts(blk.header.height, HashToString(blk.hash))), out.puts))
      ensures var out := Execute(ext, CommitPlan(blk));
              out.err.None? && !Advances(old(latestHeight), blk) ==>
                latestHeight == old(latestHeight) && latestBlockHash == old(latestBlockHash) &&
                (batchFails ==> err == Some(WriteFailed) && db.data == old(db.data)) &&
                (!batchFails ==> ok && db.data == ApplyBatch(old(db.data), out.puts))
    {
      var batch;
      batch, err := BuildCommit(blk, ext);
      if err.Some? {
        return false, err;
      }
      if blk.header.height > latestHeight || blk.header.height == 0 {
        err := UpdateChainState(blk.header.height, HashToString(blk.hash), metaFails);
        if err.Some? {
          return false, err;
        }
      }
      err := db.Write(batch, batchFails);
      if err.Some? {
        return false, err;
      }
      return true, None;
    }

    /** NewChainState: load the tip; on an empty tip build the genesis
        block and commit it. The clock readings and the outcome of the two
        writes of the genesis commit are parameters. */
    static method NewChainState(db: DB, cfg: Config, ext: Externals, nowTx: int64, nowHeader: int64, metaFails: bool, batchFails: bool)
        returns (bc: BlockChain?, err: Option<Error>)
      modifies db
      ensures bc == null <==> err.Some?
      ensures bc != null ==> fresh(bc) && bc.db == db && bc.cfg == cfg && bc.ext == ext && bc.Valid()
      ensures LoadTip(old(db.data)).Err? ==> err == Some(LoadTip(old(db.data)).error) && db.data == old(db.data)
      ensures LoadTip(old(db.data)).Ok? && LoadTip(old(db.data)).value != NoTip ==>
                bc != null && Tip(bc.latestHeight, bc.latestBlockHash) == LoadTip(old(db.data)).value &&
                db.data == old(db.data)
      ensures LoadTip(old(db.data)) == Ok(NoTip) ==>
                var g := GenesisBlock(cfg, ext, nowTx, nowHeader);
                (bc != null <==> g.Ok? && Execute(ext, CommitPlan(g.value)).err.None? && !metaFails && !batchFails) &&
                (g.Err? ==> err == Some(g.error) && db.data == old(db.data)) &&
                (g.Ok? ==>
                   var out := Execute(ext, CommitPlan(g.value));
                   (out.err.Some? ==> err == out.err && db.data == old(db.data)) &&
                   (out.err.None? && metaFails ==> err == Some(WriteFailed) && db.data == old(db.data)) &&
                   (out.err.None? && !metaFails && batchFails ==>
                      err == Some(WriteFailed) && db.data == ApplyBatch(old(db.data), TipPuts(0, HashToString(g.value.hash))))) &&
                (bc != null ==>
                   Tip(bc.latestHeight, bc.latestBlockHash) == Tip(0, HashToString(g.value.hash)) &&
                   db.data == ApplyBatch(ApplyBatch(old(db.data), TipPuts(0, HashToString(g.value.hash))), Execute(ext, CommitPlan(g.value)).puts))
    {
      var chain := new BlockChain(db, cfg, ext);
      err := chain.LoadChainDB();
      if err.Some? {
        return null, err;
      }
      if chain.latestHeight == 0 && chain.latestBlockHash == "" {
        var genesisBlk := SetGenesisBlock(cfg, ext, nowTx, nowHeader);
        if genesisBlk.Err? {
          return null, Some(genesisBlk.error);
        }
        var result;
        result, err := chain.AddBlock(genesisBlk.value, metaFails, batchFails);
        if err.Some? {
          return null, err;
        }
        if !result {
          return null, Some(GenesisNotAdded);
        }
      }
      return chain, None;
    }
  }

  /** The first half of AddBlock: a new batch holding the block's and its
      transactions' entries, or the first serialization error. */
  method BuildCommit(blk: Block, ext: Externals) returns (batch: Batch, err: Option<Error>)
    ensures fresh(batch)
    ensures err == Execute(ext, CommitPlan(blk)).err
    ensures err.None? ==> batch.puts == Execute(ext, CommitPlan(blk)).puts
  {
    ghost var head := Execute(ext, BlockPlan(blk));
    ghost var tail := Execute(ext, TxsPlan(blk.hash, blk.transactions));
    ExecuteAppend(ext, BlockPlan(blk), TxsPlan(blk.hash, blk.transactions));
    batch := new Batch();
    err := SaveBlockData(batch, blk, ext);
    if err.Some? {
      return;
    }
    assert batch.puts == head.puts;
    err := SaveTxData(batch, blk, ext);
    assert batch.puts == head.puts + tail.puts;
  }

  /** GetChainStatus: a copy of the tip, or the empty tip without a chain. */
  function GetChainStatus(p: BlockChain?): (t: Tip)
    reads p
    ensures p == null ==> t == NoTip
    ensures p != null ==> t.height == p.latestHeight && t.hash == p.latestBlockHash
  {
    if p == null then NoTip else Tip(p.latestHeight, p.latestBlockHash)
  }

  /** GetLatestHeight: fails without a chain or on the empty tip. */
  function GetLatestHeight(p: BlockChain?): (r: Result<uint64, Error>)
    reads p
    ensures r.Err? <==> p == null || GetChainStatus(p) == NoTip
    ensures p == null ==> r == Err(NotInitialized)
    ensures r.Ok? ==> r.value == GetChainStatus(p).height
  {
    if p == null then Err(NotInitialized)
    else if p.latestHeight == 0 && p.latestBlockHash == "" then Err(NoBlocks)
    else Ok(p.latestHeight)
  }

  /** GetLatestBlockHash: fails without a chain or on an empty hash. */
  function GetLatestBlockHash(p: BlockChain?): (r: Result<string, Error>)
    reads p
    ensures r.Err? <==> p == null || GetChainStatus(p).hash == ""
    ensures p == null ==> r == Err(NotInitialized)
    ensures r.Ok? ==> r.value == GetChainStatus(p).hash && r.value != ""
  {
    if p == null then Err(NotInitialized)
    else if p.latestBlockHash == "" then Err(NoBlocks)
    else Ok(p.latestBlockHash)
  }

  /** A chain with a latest hash has a latest height; the converse fails
      only for a tip whose hash key was missing at load time. */
  lemma HashImpliesHeight(p: BlockChain?)
    ensures GetLatestBlockHash(p).Ok? ==> GetLatestHeight(p).Ok?
    ensures GetLatestHeight(p).Ok? && GetLatestBlockHash(p).Err? ==> p != null && p.latestHeight != 0 && p.latestBlockHash == ""
  {
  }

  /** Loading the tip after its metadata batch gives back the tip written,
      for every hash string of bytes. */
  lemma TipRoundTrip(data: map<Key, Bytes>, height: uint64, hash: string)
    requires IsByteString(hash)
    ensures LoadTip(ApplyBatch(data, TipPuts(height, hash))) == Ok(Tip(height, hash))
  {
    var puts := TipPuts(height, hash);
    var dec := Decimal(height);
    var after := ApplyBatch(data, puts);
    assert PrefixMetaHeight != PrefixMetaBlockHash by { assert PrefixMetaHeight[6] != PrefixMetaBlockHash[6]; }
    assert PrefixMetaHeight + dec != PrefixMetaBlockHash by { assert (PrefixMetaHeight + dec)[6] != PrefixMetaBlockHash[6]; }
    assert PrefixMetaHeight + dec != PrefixMetaHeight by { assert |PrefixMetaHeight + dec| != |PrefixMetaHeight|; }
    ApplyBatchLookup(data, puts, PrefixMetaHeight);
    ApplyBatchLookup(data, puts, PrefixMetaBlockHash);
    assert puts[..2][..1] == puts[..1];
    assert LookupAfter(data, puts, PrefixMetaHeight) == LookupAfter(data, puts[..2], PrefixMetaHeight);
    assert LookupAfter(data, puts[..2], PrefixMetaHeight) == LookupAfter(data, puts[..1], PrefixMetaHeight);
    assert LookupAfter(data, puts, PrefixMetaBlockHash) == LookupAfter(data, puts[..2], PrefixMetaBlockHash);
    assert Lookup(after, PrefixMetaHeight) == Some(StrBytes(dec));
    assert Lookup(after, PrefixMetaBlockHash) == Some(StrBytes(hash));
    assert IsByteString(dec);
    StrBytesRoundTrip(dec, []);
    StrBytesRoundTrip(hash, []);
    ParseDecimal(height);
  }

  /** When the genesis commit writes its tip and then loses its block
      batch, a restart loads that tip, so it neither builds the genesis
      block again nor finds the block the tip names. */
  lemma GenesisTipOutlivesLostBatch(data: map<Key, Bytes>, genesisHash: Hash)
    ensures var tipped := ApplyBatch(data, TipPuts(0, HashToString(genesisHash)));
            LoadTip(tipped) == Ok(Tip(0, HashToString(genesisHash))) && LoadTip(tipped) != Ok(NoTip)
  {
    assert IsByteString(HashToString(genesisHash));
    TipRoundTrip(data, 0, HashToString(genesisHash));
  }

  /** The block batch written after the metadata batch never touches the
      metadata keys: after a successful AddBlock that moved the tip, a
      restart loads exactly that tip. */
  lemma CommitPreservesTip(data: map<Key, Bytes>, ext: Externals, blk: Block)
    requires Execute(ext, CommitPlan(blk)).err.None?
    ensures var tipped := ApplyBatch(data, TipPuts(blk.header.height, HashToString(blk.hash)));
            LoadTip(ApplyBatch(tipped, Execute(ext, CommitPlan(blk)).puts)) == Ok(Tip(blk.header.height, HashToString(blk.hash)))
  {
    var hex := HashToString(blk.hash);
    var tipped := ApplyBatch(data, TipPuts(blk.header.height, hex));
    var plan := CommitPlan(blk);
    var puts := Execute(ext, plan).puts;
    assert IsByteString(hex);
    TipRoundTrip(data, blk.header.height, hex);
    ExecuteOkIff(ext, plan);
    CommitKeysAreNotMeta(blk);
    forall i | 0 <= i < |puts| ensures puts[i].key == plan[i].key {
      assert Step(ext, plan[i]) == Outcome([puts[i]], None);
    }
    assert PrefixMetaHeight <= PrefixMetaHeight;
    assert !Touches(puts, PrefixMetaHeight);
    assert !Touches(puts, PrefixMetaBlockHash);
    ApplyBatchLookup(tipped, puts, PrefixMetaHeight);
    ApplyBatchLookup(tipped, puts, PrefixMetaBlockHash);
    LoadTipReadsTwoKeys(tipped, ApplyBatch(tipped, puts));
  }

  /** LoadTip reads only the two metadata keys. */
  lemma LoadTipReadsTwoKeys(a: map<Key, Bytes>, b: map<Key, Bytes>)
    requires Lookup(a, PrefixMetaHeight) == Lookup(b, PrefixMetaHeight)
    requires Lookup(a, PrefixMetaBlockHash) == Lookup(b, PrefixMetaBlockHash)
    ensures LoadTip(a) == LoadTip(b)
  {
  }
}
