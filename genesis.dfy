/** core/genesis.go: the genesis block, built from the configured system
    addresses and balances. The two clock readings (transaction timestamp,
    then header timestamp) are parameters. */
module Genesis {
  import opened Types
  import opened Wrappers
  import opened Hex
  import opened Converter
  import opened Entities
  import opened Protocol

  const GenesisMemo: string := "ABCFE Chain Genesis Block"

  /** One output per configured address, in configuration order, or
      BadAddress for the first address that does not convert. */
  function GenesisOutputs(addrs: seq<string>, bals: seq<uint64>): Result<seq<TxOutput>, Error>
    requires |addrs| == |bals|
    decreases |addrs|
  {
    if addrs == [] then Ok([])
    else
      var n := |addrs| - 1;
      match GenesisOutputs(addrs[..n], bals[..n])
      case Err(e) => Err(e)
      case Ok(outs) =>
        var (addr, e) := StringToAddress(addrs[n]);
        if e.Some? then Err(BadAddress)
        else Ok(outs + [TxOutput(addr, bals[n], TxTypeGeneral)])
  }

  /** The transaction setGenesisTxs builds before its id is set. */
  function GenesisTxBody(cfg: Config, outs: seq<TxOutput>, now: int64): Transaction {
    Transaction(cfg.txVersion, ZeroHash(), now, [], outs, GenesisMemo, [])
  }

  /** setGenesisTxs, as a value. */
  function GenesisTxs(cfg: Config, ext: Externals, now: int64): Result<seq<Transaction>, Error> {
    if |cfg.systemAddresses| != |cfg.systemBalances| then Err(CountMismatch)
    else match GenesisOutputs(cfg.systemAddresses, cfg.systemBalances)
      case Err(e) => Err(e)
      case Ok(outs) =>
        var tx := GenesisTxBody(cfg, outs, now);
        Ok([tx.(id := ext.hash(TxRecord(tx)))])
  }

  /** SetGenesisBlock, as a value. */
  function GenesisBlock(cfg: Config, ext: Externals, nowTx: int64, nowHeader: int64): Result<Block, Error> {
    match GenesisTxs(cfg, ext, nowTx)
    case Err(e) => Err(e)
    case Ok(txs) =>
      var header := BlockHeader(cfg.protocolVersion, 0, ZeroHash(), ext.merkleRoot(txs), nowHeader);
      var blk := Block(header, ZeroHash(), txs);
      Ok(blk.(hash := ext.hash(BlockRecord(blk))))
  }

  function Sum(bals: seq<uint64>): nat
    decreases |bals|
  {
    if bals == [] then 0 else Sum(bals[..|bals| - 1]) + bals[|bals| - 1]
  }

  function Total(outs: seq<TxOutput>): nat
    decreases |outs|
  {
    if outs == [] then 0 else Total(outs[..|outs| - 1]) + outs[|outs| - 1].amount
  }

  /** The outputs exist exactly when every address converts; they are then
      output i to address i for balance i with the general type, and their
      amounts add up to the configured balances. */
  lemma GenesisOutputsFacts(addrs: seq<string>, bals: seq<uint64>)
    requires |addrs| == |bals|
    ensures GenesisOutputs(addrs, bals).Ok? <==> forall i | 0 <= i < |addrs| :: StringToAddress(addrs[i]).1.None?
    ensures GenesisOutputs(addrs, bals).Err? ==> GenesisOutputs(addrs, bals) == Err(BadAddress)
    ensures GenesisOutputs(addrs, bals).Ok? ==>
              var outs := GenesisOutputs(addrs, bals).value;
              |outs| == |addrs| &&
              (forall i | 0 <= i < |outs| :: outs[i] == TxOutput(StringToAddress(addrs[i]).0, bals[i], TxTypeGeneral)) &&
              Total(outs) == Sum(bals)
  {
    GenesisOutputsOkIff(addrs, bals);
    if GenesisOutputs(addrs, bals).Ok? {
      GenesisOutputsShape(addrs, bals);
    }
  }

  /** The outputs exist exactly when every address converts; the only
      error is BadAddress. */
  lemma {:induction false} GenesisOutputsOkIff(addrs: seq<string>, bals: seq<uint64>)
    requires |addrs| == |bals|
    ensures GenesisOutputs(addrs, bals).Ok? <==> forall i | 0 <= i < |addrs| :: StringToAddress(addrs[i]).1.None?
    ensures GenesisOutputs(addrs, bals).Err? ==> GenesisOutputs(addrs, bals) == Err(BadAddress)
    decreases |addrs|
  {
    if addrs != [] {
      var n := |addrs| - 1;
      var init := addrs[..n];
      GenesisOutputsOkIff(init, bals[..n]);
      assert forall i | 0 <= i < n :: init[i] == addrs[i];
      if GenesisOutputs(init, bals[..n]).Err? {
        var i :| 0 <= i < n && StringToAddress(init[i]).1.Some?;
        assert StringToAddress(addrs[i]).1.Some?;
      }
    }
  }

  /** A successful list of outputs is the successful outputs of all but
      the last address, then the last address's output. */
  lemma GenesisOutputsLast(addrs: seq<string>, bals: seq<uint64>)
    requires |addrs| == |bals| && addrs != [] && GenesisOutputs(addrs, bals).Ok?
    ensures var n := |addrs| - 1;
            GenesisOutputs(addrs[..n], bals[..n]).Ok? &&
            GenesisOutputs(addrs, bals).value ==
              GenesisOutputs(addrs[..n], bals[..n]).value + [TxOutput(StringToAddress(addrs[n]).0, bals[n], TxTypeGeneral)]
  {
  }

  lemma {:induction false} GenesisOutputsLength(addrs: seq<string>, bals: seq<uint64>)
    requires |addrs| == |bals| && GenesisOutputs(addrs, bals).Ok?
    ensures |GenesisOutputs(addrs, bals).value| == |addrs|
    decreases |addrs|
  {
    if addrs != [] {
      var n := |addrs| - 1;
      GenesisOutputsLast(addrs, bals);
      GenesisOutputsLength(addrs[..n], bals[..n]);
    }
  }

  lemma {:induction false} GenesisOutputAt(addrs: seq<string>, bals: seq<uint64>, i: nat)
    requires |addrs| == |bals| && GenesisOutputs(addrs, bals).Ok? && i < |addrs|
    ensures |GenesisOutputs(addrs, bals).value| == |addrs|
    ensures GenesisOutputs(addrs, bals).value[i] == TxOutput(StringToAddress(addrs[i]).0, bals[i], TxTypeGeneral)
    decreases |addrs|
  {
    var n := |addrs| - 1;
    var init, binit := addrs[..n], bals[..n];
    GenesisOutputsLast(addrs, bals);
    GenesisOutputsLength(init, binit);
    if i < n {
      GenesisOutputAt(init, binit, i);
      assert init[i] == addrs[i] && binit[i] == bals[i];
    }
  }

  lemma {:induction false} GenesisOutputsTotal(addrs: seq<string>, bals: seq<uint64>)
    requires |addrs| == |bals| && GenesisOutputs(addrs, bals).Ok?
    ensures Total(GenesisOutputs(addrs, bals).value) == Sum(bals)
    decreases |addrs|
  {
    if addrs != [] {
      var n := |addrs| - 1;
      var outs := GenesisOutputs(addrs[..n], bals[..n]).value;
      var all := GenesisOutputs(addrs, bals).value;
      GenesisOutputsLast(addrs, bals);
      GenesisOutputsTotal(addrs[..n], bals[..n]);
      assert all[..|all| - 1] == outs;
    }
  }

  /** Successful outputs are the configured ones, in order, and add up to
      the sum of the balances. */
  lemma GenesisOutputsShape(addrs: seq<string>, bals: seq<uint64>)
    requires |addrs| == |bals| && GenesisOutputs(addrs, bals).Ok?
    ensures var outs := GenesisOutputs(addrs, bals).value;
            |outs| == |addrs| &&
            (forall i | 0 <= i < |outs| :: outs[i] == TxOutput(StringToAddress(addrs[i]).0, bals[i], TxTypeGeneral)) &&
            Total(outs) == Sum(bals)
  {
    GenesisOutputsLength(addrs, bals);
    forall i | 0 <= i < |addrs|
      ensures GenesisOutputs(addrs, bals).value[i] == TxOutput(StringToAddress(addrs[i]).0, bals[i], TxTypeGeneral)
    {
      GenesisOutputAt(addrs, bals, i);
    }
    GenesisOutputsTotal(addrs, bals);
  }

  /** What setGenesisTxs promises: a count mismatch or an address that is
      not 40 hex digits is an error; otherwise exactly one transaction with
      no inputs, the configured outputs in order, the fixed memo, and as its
      id the hash of itself taken while the id is still zero. */
  lemma GenesisTxsFacts(cfg: Config, ext: Externals, now: int64)
    ensures var addrs, bals := cfg.systemAddresses, cfg.systemBalances;
            var r := GenesisTxs(cfg, ext, now);
            (|addrs| != |bals| ==> r == Err(CountMismatch)) &&
            (|addrs| == |bals| ==>
               (r.Ok? <==> forall i | 0 <= i < |addrs| :: |addrs[i]| == 2 * AddressLen && forall j | 0 <= j < |addrs[i]| :: NibbleOf(addrs[i][j]).Some?)) &&
            (|addrs| == |bals| && r.Err? ==> r == Err(BadAddress)) &&
            (r.Ok? ==>
               |r.value| == 1 &&
               var tx := r.value[0];
               tx.inputs == [] && tx.memo == GenesisMemo && tx.version == cfg.txVersion && tx.timestamp == now &&
               |tx.outputs| == |addrs| &&
               (forall i | 0 <= i < |addrs| :: tx.outputs[i] == TxOutput(StringToAddress(addrs[i]).0, bals[i], TxTypeGeneral)) &&
               Total(tx.outputs) == Sum(bals) &&
               tx.id == ext.hash(TxRecord(tx.(id := ZeroHash()))))
  {
    var addrs, bals := cfg.systemAddresses, cfg.systemBalances;
    if |addrs| == |bals| {
      GenesisOutputsFacts(addrs, bals);
      forall i | 0 <= i < |addrs| ensures StringToAddress(addrs[i]).1.None? <==>
          (|addrs[i]| == 2 * AddressLen && forall j | 0 <= j < |addrs[i]| :: NibbleOf(addrs[i][j]).Some?) {
        AcceptsIff(addrs[i]);
      }
    }
  }

  /** What SetGenesisBlock promises: the zero previous hash, height 0, the
      Merkle root of the genesis transactions, and as its hash the hash of
      the block taken while that field is still zero; it fails exactly when
      setGenesisTxs does. */
  lemma GenesisBlockFacts(cfg: Config, ext: Externals, nowTx: int64, nowHeader: int64)
    ensures GenesisBlock(cfg, ext, nowTx, nowHeader).Err? <==> GenesisTxs(cfg, ext, nowTx).Err?
    ensures GenesisBlock(cfg, ext, nowTx, nowHeader).Err? ==> GenesisBlock(cfg, ext, nowTx, nowHeader).error == GenesisTxs(cfg, ext, nowTx).error
    ensures GenesisBlock(cfg, ext, nowTx, nowHeader).Ok? ==>
              var b := GenesisBlock(cfg, ext, nowTx, nowHeader).value;
              var txs := GenesisTxs(cfg, ext, nowTx).value;
              (forall i | 0 <= i < HashLen :: b.header.prevHash[i] == 0) &&
              b.header.height == 0 && b.header.version == cfg.protocolVersion && b.header.timestamp == nowHeader &&
              b.header.merkleRoot == ext.merkleRoot(txs) && b.transactions == txs &&
              b.hash == ext.hash(BlockRecord(b.(hash := ZeroHash())))
  {
  }

  /** setGenesisTxs: the append loop over the configured addresses, then
      the loop that sets each transaction's id. */
  method SetGenesisTxs(cfg: Config, ext: Externals, now: int64) returns (r: Result<seq<Transaction>, Error>)
    ensures r == GenesisTxs(cfg, ext, now)
  {
    var systemAddrs := cfg.systemAddresses;
    var systemBals := cfg.systemBalances;
    if |systemAddrs| != |systemBals| {
      return Err(CountMismatch);
    }
    var txOuts: seq<TxOutput> := [];
    var i := 0;
    while i < |systemAddrs|
      invariant 0 <= i <= |systemAddrs|
      invariant GenesisOutputs(systemAddrs[..i], systemBals[..i]) == Ok(txOuts)
    {
      GenesisOutputsStep(systemAddrs, systemBals, i);
      var (addr, e) := StringToAddress(systemAddrs[i]);
      if e.Some? {
        GenesisOutputsStops(systemAddrs, systemBals, i + 1);
        return Err(BadAddress);
      }
      txOuts := txOuts + [TxOutput(addr, systemBals[i], TxTypeGeneral)];
      i := i + 1;
    }
    assert systemAddrs[..i] == systemAddrs && systemBals[..i] == systemBals;
    var txs := [GenesisTxBody(cfg, txOuts, now)];
    ghost var body := txs[0];
    var j := 0;
    while j < |txs|
      invariant 0 <= j <= |txs| == 1
      invariant body == GenesisTxBody(cfg, txOuts, now)
      invariant j == 0 ==> txs[0] == body
      invariant j == 1 ==> txs[0] == body.(id := ext.hash(TxRecord(body)))
    {
      var txHash := ext.hash(TxRecord(txs[j]));
      txs := txs[j := txs[j].(id := txHash)];
      j := j + 1;
    }
    assert txs == [body.(id := ext.hash(TxRecord(body)))];
    return Ok(txs);
  }

  /** One more address extends a successful prefix by its output. */
  lemma GenesisOutputsStep(addrs: seq<string>, bals: seq<uint64>, i: nat)
    requires |addrs| == |bals| && i < |addrs|
    ensures var (addr, e) := StringToAddress(addrs[i]);
            GenesisOutputs(addrs[..i], bals[..i]).Ok? && e.None? ==>
              GenesisOutputs(addrs[..i + 1], bals[..i + 1]) ==
                Ok(GenesisOutputs(addrs[..i], bals[..i]).value + [TxOutput(addr, bals[i], TxTypeGeneral)])
  {
    assert addrs[..i + 1][..i] == addrs[..i];
    assert bals[..i + 1][..i] == bals[..i];
  }

  /** A failing prefix of the addresses fails the whole list. */
  lemma {:induction false} GenesisOutputsStops(addrs: seq<string>, bals: seq<uint64>, n: nat)
    requires |addrs| == |bals| && n <= |addrs| && GenesisOutputs(addrs[..n], bals[..n]).Err?
    ensures GenesisOutputs(addrs, bals) == Err(BadAddress)
    decreases |addrs| - n
  {
    GenesisOutputsOkIff(addrs[..n], bals[..n]);
    if n < |addrs| {
      assert addrs[..n + 1][..n] == addrs[..n];
      assert bals[..n + 1][..n] == bals[..n];
      GenesisOutputsStops(addrs, bals, n + 1);
    } else {
      assert addrs[..n] == addrs && bals[..n] == bals;
    }
  }

  /** SetGenesisBlock: the loop that zeroes the previous-hash array, then
      the transactions, the Merkle root, the header and the hash. */
  method SetGenesisBlock(cfg: Config, ext: Externals, nowTx: int64, nowHeader: int64) returns (r: Result<Block, Error>)
    ensures r == GenesisBlock(cfg, ext, nowTx, nowHeader)
  {
    var prev := new byte[HashLen];
    for i := 0 to HashLen
      invariant forall j | 0 <= j < i :: prev[j] == 0
    {
      prev[i] := 0;
    }
    assert prev[..] == ZeroHash();
    var defaultPrevHash: Hash := prev[..];
    var txs := SetGenesisTxs(cfg, ext, nowTx);
    if txs.Err? {
      return Err(txs.error);
    }
    var merkleRoot := ext.merkleRoot(txs.value);
    var header := BlockHeader(cfg.protocolVersion, 0, defaultPrevHash, merkleRoot, nowHeader);
    var block := Block(header, ZeroHash(), txs.value);
    var blkHash := ext.hash(BlockRecord(block));
    return Ok(block.(hash := blkHash));
  }
}
