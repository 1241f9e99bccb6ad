# ABCFE node ledger core, modelled in Dafny

This project models the ledger core of the ABCFE blockchain node. The node
stores blocks, transactions and chain metadata in a key-value store (LevelDB).

- The **key space** is a family of string prefixes (`blk:`, `blk:h:`, `tx:`,
  `tx:in:`, `tx:out:`, the metadata keys, …). A height key is its prefix
  followed by the decimal height. A block or transaction key is a prefix
  followed by the 64-digit lowercase hex form of a hash; per-index input and
  output keys add `:` and a decimal index. The tip lives under the literal
  metadata keys `meta:height` and `meta:hash`; a third metadata key is
  `meta:height` followed by the decimal height.
- The **hex converters** turn the fixed-width arrays (Hash, 32 bytes;
  Address, 20; Signature, 65) into Base16 (section 8 of RFC 4648, lowercase)
  and back, checking the length.
- The **mempool** holds pending transactions keyed by the hex form of their
  id.
- A **block commit** (`AddBlock`) collects the block's and its transactions'
  entries in a write batch. It fails on the first serialization error. When
  the block is higher than the tip, or is the genesis block, it moves the chain
  tip first and then writes the batch.
- The **chain tip** is the pair (latest height, latest block hash). It is loaded
  from and written to the metadata keys. On an empty store, start-up builds and
  commits the genesis block from the configured addresses and balances.
- **UpdateUtxo** marks the UTXOs a block consumes as spent and removes them
  from their owner's key set. **CalBalanceUtxo** sums the unspent amounts of a
  UTXO set, wrapping at 2^64.

## How the model is built

- The store is a `map<Key, Bytes>`. A batch is an ordered list of puts
  applied left to right, so the last put to a key wins (`Store.ApplyBatch`, with
  `Store.LookupAfter` as its reference reading).
- Strings are byte strings. `Store.StrBytes` and `Store.BytesStr` are Go's
  `[]byte(s)` and `string(b)`.
- Code that works step by step keeps its form:
  - the mempool, the write batch, the store and the chain are classes whose
    methods change their fields;
  - the loops of `saveTxData`, `UpdateUtxo`, `GetTxs`, `setGenesisTxs`,
    `SetGenesisBlock` and `CalBalanceUtxo` are `while`/`for` loops.
- Each method is proved against a function that says what it writes. The
  write methods are proved against `Blocks.Execute` of a plan of writes, or
  against `UtxoLedger.SpendAll`. Both are fail-fast folds that return the puts
  issued and the first error.
- The lemmas about those functions carry the properties.
- Hashing (SHA-256 over gob), serialization (gob, which may fail),
  deserialization, the Merkle root and the UTXO key functions are
  uninterpreted total functions. They are the fields of `Entities.Externals`.
  The clock readings and whether a store write fails are parameters.

## Model

| member | source | states |
|---|---|---|
| Protocol.BlockFamilyNests | protocol/prefix.go:13-15 | "blk:" is a proper prefix of "blk:h:", which is a proper prefix of "blk:h:idx:" |
| Protocol.TxFamilyNests | protocol/prefix.go:18-20 | "tx:stat:" and "tx:blk:" both properly extend "tx:", and neither is a prefix of the other |
| Protocol.AccountFamilyNests | protocol/prefix.go:26-33 | every account prefix extends "acc:"; the to/from prefixes extend "acc:tx:" and are unrelated; "acc:utxo:" and "acc:staker:" do not extend "acc:tx:" |
| Protocol.MetadataDisjoint | protocol/prefix.go:8-23 | "m:h", "m:blk" and "m:staker" are pairwise non-prefix, and each differs in its first character from the blk/tx/utxo/acc prefixes |
| Protocol.UnshownPrefixFacts | common/utils/prefix_gen.go:10-64 | the prefixes the key functions use but the constants file lacks: the height prefix extends "blk:" with 'h'; the input, output, status and tx-block prefixes extend "tx:" with a non-hex character; input and output prefixes are unrelated; the two metadata keys are unrelated |
| Hex.DecodeEncode | common/utils/converter.go:11-13 | decoding the hex form of any byte string gives it back |
| Hex.DecodeSucceedsIff | common/utils/converter.go:17-20 | hex decoding succeeds exactly on even-length strings of hex digits of either case |
| Hex.EncodeDecode | common/utils/converter.go:17-28 | re-encoding what was decoded gives the input in lowercase |
| Hex.EncodeInjective | common/utils/converter.go:11-13 | different byte strings never share a hex form |
| Converter.HashToString | common/utils/converter.go:11-13 | exactly 64 lowercase hex characters, two per byte, high nibble first |
| Converter.StringToHash | common/utils/converter.go:16-30 | no error exactly when the string decodes to 32 bytes, which are the result; otherwise the zero hash and the decoder's or the length error |
| Converter.HashRoundTrip | common/utils/converter.go:11-30 | StringToHash(HashToString(h)) is (h, no error) for every hash |
| Converter.RejectsNonHex | common/utils/converter.go:17-20 | a string that is not even-length hex gives an error and the zero hash, for all three widths |
| Converter.RejectsWrongWidth | common/utils/converter.go:23-25 | a string decoding to a number of bytes other than the width gives the zero value and a length error naming both lengths |
| Converter.AcceptsIff | common/utils/converter.go:16-86 | the three parsers accept exactly the strings of 64, 40 and 130 hex digits |
| Converter.AddressToString | common/utils/converter.go:45-47 | exactly 40 lowercase hex characters |
| Converter.StringToAddress | common/utils/converter.go:50-64 | no error exactly when the string decodes to 20 bytes; otherwise the zero address and an error |
| Converter.AddressRoundTrip | common/utils/converter.go:45-64 | the address hex form parses back to the address |
| Converter.SignatureToString | common/utils/converter.go:67-69 | exactly 130 lowercase hex characters |
| Converter.StringToSignature | common/utils/converter.go:72-86 | no error exactly when the string decodes to 65 bytes; otherwise the zero signature and an error |
| Converter.SignatureRoundTrip | common/utils/converter.go:67-86 | the signature hex form parses back to the signature |
| Converter.HashToBytes | common/utils/converter.go:38-42 | a 32-byte sequence equal to the hash |
| Converter.BytesToHash | common/utils/converter.go:33-35 | requires at least 32 bytes; the hash is their first 32 |
| Converter.BytesRoundTrip | common/utils/converter.go:33-42 | BytesToHash(HashToBytes(h)) == h |
| Converter.HashToStringInjective | common/utils/converter.go:11-13 | equal hex forms mean equal hashes |
| Decimals.Decimal | common/utils/prefix_gen.go:10-14 | the decimal rendering of the height: at least one digit, no leading zero |
| Decimals.ParseDecimal | core/blockchain.go:74 | strconv.ParseUint in base 10 reads the decimal rendering of every uint64 back to it |
| Decimals.DecimalInjective | common/utils/prefix_gen.go:10-14 | distinct numbers have distinct decimal forms |
| Prefix.GetBlockHeightKey | common/utils/prefix.go:7-11 | the key begins with the given prefix, followed by a non-empty run of digits |
| Prefix.HeightKeyInjective | common/utils/prefix.go:7-11 | for a fixed prefix, equal height keys mean equal heights |
| Prefix.GetBlockHashKey | common/utils/prefix.go:13-17 | the key is the prefix followed by exactly 64 lowercase hex characters |
| Prefix.HashKeyInjective | common/utils/prefix.go:13-17 | for a fixed prefix the hash is read back from the key's tail, so the key is injective in the hash |
| PrefixGen.GetBlockHeightKeyParses | common/utils/prefix_gen.go:10-14 | the height key is the height prefix followed by text that parses back to the height |
| PrefixGen.GetBlockHashKeyDecodes | common/utils/prefix_gen.go:17-21 | the block key is "blk:" and 64 characters that decode back to the hash |
| PrefixGen.GetTxHashKeyDecodes | common/utils/prefix_gen.go:24-28 | the transaction key is "tx:" and 64 characters that decode back to the id |
| PrefixGen.GetTxStatusKeyDecodes | common/utils/prefix_gen.go:31-35 | the status key is its prefix and 64 characters that decode back to the id |
| PrefixGen.GetTxBlockHashKeyDecodes | common/utils/prefix_gen.go:38-42 | the tx-to-block key is its prefix and 64 characters that decode back to the id |
| PrefixGen.IndexedKeyDecodes | common/utils/prefix_gen.go:47-64 | an indexed key is its prefix and the id's hex form, which decodes back to the id; it ends there exactly for a negative index, and otherwise continues with ':' and digits whose value is the index |
| PrefixGen.GetTxInputKeyDecodes | common/utils/prefix_gen.go:47-53 | the input key decodes back to the id and, for a non-negative index, to the index; a negative index gives the bare whole-set key |
| PrefixGen.GetTxOutputKeyDecodes | common/utils/prefix_gen.go:58-64 | the output key decodes back to the id and, for a non-negative index, to the index; a negative index gives the bare whole-set key |
| PrefixGen.AgreesWithPrefixed | common/utils/prefix_gen.go:10-21 | the prefix-free block keys equal the prefix-parameterised ones with their prefixes |
| PrefixGen.BlockHeightKeyInjective | common/utils/prefix_gen.go:10-14 | the height key is the height prefix followed by digits, and is injective in the height |
| PrefixGen.BlockHashKeyInjective | common/utils/prefix_gen.go:17-21 | the block-hash key is "blk:" plus 64 characters, and is injective in the hash |
| PrefixGen.TxKeysInjective | common/utils/prefix_gen.go:24-42 | the tx, status and tx-block keys are their prefix plus 64 characters, each injective in the hash |
| PrefixGen.HeightKeyIsNotHashKey | common/utils/prefix_gen.go:10-21 | no height key equals a block-hash key |
| PrefixGen.TxFamiliesAreNotTxKeys | common/utils/prefix_gen.go:24-64 | no status, tx-block, input or output key equals a transaction key |
| PrefixGen.InputKeysAreNotOutputKeys | common/utils/prefix_gen.go:47-64 | input keys and output keys never coincide |
| PrefixGen.WholeSetKey | common/utils/prefix_gen.go:47-53 | every negative index gives the same whole-set key, the prefix and the hex id |
| PrefixGen.WholeSetKeyIsProperPrefix | common/utils/prefix_gen.go:47-64 | the whole-set key of a transaction is a proper prefix of each of its per-index keys and equals no per-index key |
| PrefixGen.IndexedKeyInjective | common/utils/prefix_gen.go:47-64 | per-index keys determine (hash, index); whole-set keys determine the hash |
| Store.StrBytesRoundTrip | core/blockchain.go:85 | string(b) and []byte(s) are inverse on byte strings |
| Store.ApplyBatchLookup | core/blockchain.go:144-157 | after a batch, a key holds the value of its last put, and an untouched key is unchanged |
| Store.ApplyBatchAppend | core/block.go:67-89 | applying two lists of puts in turn is applying their concatenation |
| Store.DB.Write | core/blockchain.go:157 | a write applies the whole batch, or on failure changes nothing |
| Pool.Mempool.constructor | core/mempool.go:17-21 | a new pool is empty |
| Pool.Mempool.NewTranaction | core/mempool.go:23-38 | fails exactly when the hex id is present, leaving the pool unchanged; otherwise adds exactly that entry; keeps entries keyed by their own id |
| Pool.Mempool.GetTx | core/mempool.go:40-47 | returns the stored transaction, with that id, exactly when the hex id is present; nothing otherwise |
| Pool.Mempool.GetTxs | core/mempool.go:50-67 | min(pool size, MaxTxsPerBlock) transactions, each stored in the pool under its id, no two equal ids, the whole pool when at or under the cap; nothing is removed |
| Pool.Mempool.DelTx | core/mempool.go:69-76 | removes exactly the hex id; an absent id is a no-op |
| Pool.Mempool.Clear | core/mempool.go:79-84 | the pool is empty |
| Pool.AddThenDelete | core/core_test.go:58-73 | after inserting a transaction it is found; after deleting its id it is not |
| UtxoLedger.UpdateUtxo | core/utxo.go:26-89 | the batch gains exactly the puts and error of spending every input of every transaction in block order against the committed store |
| UtxoLedger.SpendOne | core/utxo.go:29-70 | the puts and error of one input match UtxoLedger.SpendInput |
| UtxoLedger.MissingUtxoFails | core/utxo.go:30-39 | a missing UTXO key, or UTXO bytes that do not decode, fail the update with that error |
| UtxoLedger.MissingOwnerSetFails | core/utxo.go:52-56 | a missing owner set is an error, issued after the UTXO itself was put back |
| UtxoLedger.SpendMarksAndRemoves | core/utxo.go:41-70 | when decoding inverts encoding, the UTXO reads back with Spent true, SpentHeight the block height and every other field as stored, and the owner's set without that UTXO's key |
| UtxoLedger.RespendIsNotRejected | core/utxo.go:36-49 | an already spent UTXO gives the same outcome as the same UTXO unspent: re-marked, with its spent height overwritten |
| UtxoLedger.LastRemovalWins | core/utxo.go:31-70 | with two inputs of one owner, reads come from the committed store, so the last put of the set wins and the first removal is lost |
| UtxoLedger.SpendAllCount | core/utxo.go:49-70 | a successful update issues exactly two puts per input |
| UtxoLedger.OutputsIgnored | core/utxo.go:73-79 | outputs play no part: transactions with the same inputs spend the same |
| UtxoLedger.NoInputsNoWrites | core/utxo.go:73-89 | a block with no inputs writes nothing and succeeds |
| UtxoLedger.CalBalanceUtxo | core/utxo.go:114-122 | the sum of the amounts of the unspent entries, modulo 2^64 |
| UtxoLedger.UnspentTotalRemove | core/utxo.go:116-119 | the total is independent of iteration order: any entry can be taken first |
| UtxoLedger.SpentAddsNothing | core/utxo.go:117 | an empty set totals 0, and a spent entry contributes nothing |
| UtxoLedger.UnspentCounted | core/utxo.go:117-118 | every unspent amount is part of the total |
| UtxoLedger.AllSpentZero | core/utxo.go:114-122 | a set whose every entry is spent has balance 0 |
| Genesis.SetGenesisTxs | core/genesis.go:46-89 | the loops compute exactly Genesis.GenesisTxs |
| Genesis.GenesisOutputsFacts | core/genesis.go:57-69 | the outputs exist exactly when every address converts; then output i goes to address i for balance i with the general type, and the amounts add up to the balances |
| Genesis.GenesisOutputsOkIff | core/genesis.go:57-61 | the output loop succeeds exactly when every configured address converts; its only error is the address error |
| Genesis.GenesisOutputsShape | core/genesis.go:57-69 | successful outputs are one per address in configuration order, with that address's balance and the general type, adding up to the balances |
| Genesis.GenesisOutputsLength | core/genesis.go:57-69 | the output loop yields one output per configured address |
| Genesis.GenesisOutputAt | core/genesis.go:57-69 | output i goes to address i for balance i, with the general type |
| Genesis.GenesisOutputsTotal | core/genesis.go:57-69 | the output amounts add up to the configured balances |
| Genesis.GenesisOutputsStops | core/genesis.go:58-61 | an address that fails to convert fails the whole output list |
| Genesis.GenesisTxsFacts | core/genesis.go:46-89 | count mismatch and non-hex addresses are errors; otherwise one transaction with no inputs, the configured outputs in order, the fixed memo, and as id the hash taken while the id is zero |
| Genesis.SetGenesisBlock | core/genesis.go:11-44 | the zeroing loop and the assembly compute exactly Genesis.GenesisBlock |
| Genesis.GenesisBlockFacts | core/genesis.go:11-44 | all-zero previous hash, height 0, the configured version, the Merkle root of the genesis transactions, and as hash the hash taken while the hash is zero; fails exactly when setGenesisTxs does |
| Blocks.ExecuteOkIff | core/block.go:94-168 | a batch plan succeeds exactly when every record serializes; it then puts one entry per item under the item's key; otherwise the error is an encoding failure |
| Blocks.ExecuteAppend | core/block.go:69-77 | running two plans in turn is running their concatenation, and a failure in the first stops everything |
| Blocks.SaveBlockData | core/block.go:94-110 | the batch gains the puts and the error of the two-item block plan |
| Blocks.SaveTxData | core/block.go:112-168 | the batch gains the puts and the error of the plan of every transaction, in order |
| Blocks.SaveTx | core/block.go:113-164 | one transaction's puts and error match its plan |
| Blocks.TxPlanCount | core/block.go:112-165 | a transaction issues 4 + inputs + outputs writes; write 4 + i is input i under its per-index key, and the output writes follow |
| Blocks.CommitPuts | core/block.go:94-110 | a successful commit puts the block under its hash key, then the hex form of the hash under the height key, then the transaction entries |
| Blocks.CommitKeysAreNotMeta | core/block.go:94-165 | no key a commit writes is a metadata key |
| Blocks.SetBlockHeader | core/block.go:34-42 | the header has the configured protocol version, the given height and previous hash, the clock reading, and a Merkle root of all zero bytes, since setBlockHeader never sets it |
| Blocks.SetBlock | core/block.go:34-59 | the header has the configured version, the given height and previous hash, and the clock reading, and a zero Merkle root. The transactions are what GetTxs promises. The hash is the hash of the block taken while its hash field is zero |
| Blocks.GetBlockAsWritten | core/block.go:171-200 | missing height key is an error; a result was decoded from the block key named by the first 32 stored bytes taken as the hash |
| Blocks.CommitBlockEntries | core/block.go:94-110 | after a successful commit the height key holds the hash's hex text as bytes and the block key holds the serialized block |
| Blocks.CommitLeavesOtherBlockKeys | core/block.go:94-168 | a commit writes no block key except its own, so every other block key is present afterwards exactly when it was before |
| Blocks.AsWrittenLooksUpHexBytes | core/block.go:107-187 | after a commit the as-written reader looks up the block key of the hash formed by the first 32 bytes of the hex text: that finds the block when those bytes are the block's hash, and is NotFound otherwise unless the store already held that key |
| Blocks.AsWrittenMissesCommittedBlock | core/block.go:107-187 | after committing the zero-hash block to any store that has no "blk:3030…30" entry, the block's key is present but the as-written reader returns NotFound for "blk:3030…30" |
| Blocks.AsWrittenReadsFixedPoint | core/block.go:107-187 | the block whose hash bytes are all 0x33 is read back by the as-written reader, because its hex text is made of '3' characters, code 0x33 |
| Blocks.GetBlock | core/block.go:171-200 | missing height key is an error; a result was decoded from the block key named by the stored hex string read as a hash |
| Blocks.CommitThenGetBlock | core/block.go:94-200 | reading a committed block back by height with the corrected reader gives the block, when decoding inverts encoding |
| Chain.BlockChain.constructor | core/blockchain.go:23-27 | the empty tip and a fresh empty mempool |
| Chain.BlockChain.LoadChainDB | core/blockchain.go:59-88 | the tip is Chain.LoadTip of the store; on a malformed height the error is returned and the tip is unchanged |
| Chain.BlockChain.UpdateChainState | core/blockchain.go:134-158 | (0, "") changes nothing. Otherwise the in-memory tip is set, and the store gets the three metadata puts, or nothing if the write fails |
| Chain.BlockChain.AddBlock | core/block.go:62-92 | a serialization failure writes nothing and keeps the tip. The tip moves exactly when the block is higher or is the genesis block, and before the batch write. Success means both writes succeeded, and the store then holds the tip puts followed by the commit puts |
| Chain.BlockChain.NewChainState | core/blockchain.go:22-57 | a load error returns it. A non-empty tip is kept and nothing is written. An empty tip builds and commits genesis, and a chain exists exactly when the genesis block builds and both writes succeed. A genesis build error or a serialization error is returned with nothing written; a failed tip write is WriteFailed with nothing written; a failed block batch is WriteFailed with the genesis tip already in the store |
| Chain.BuildCommit | core/block.go:66-77 | a fresh batch holding the commit plan's puts, or its first serialization error |
| UtxoLedger.SpendInputs | core/utxo.go:28-71 | the batch gains the puts and error of spending one transaction's inputs in order |
| Chain.GetChainStatus | core/blockchain.go:90-102 | a copy of the tip, or the empty tip without a chain |
| Chain.GetLatestHeight | core/blockchain.go:104-117 | fails exactly without a chain or on the empty tip; otherwise the latest height |
| Chain.GetLatestBlockHash | core/blockchain.go:119-132 | fails exactly without a chain or on an empty hash; otherwise the non-empty latest hash |
| Chain.HashImpliesHeight | core/blockchain.go:104-132 | a latest hash implies a latest height; the converse fails only for a non-zero height with an empty hash |
| Chain.TipRoundTrip | core/blockchain.go:59-158 | loading the tip after its metadata batch gives the tip written, for every height and byte-string hash |
| Chain.GenesisTipOutlivesLostBatch | core/blockchain.go:29-44 | after the genesis tip is written but its block batch is lost, a restart loads that tip rather than an empty one, so genesis is not built again |
| Chain.CommitPreservesTip | core/block.go:80-89 | the block batch written after the metadata batch leaves the tip intact, so a restart loads the tip AddBlock set |

## Left out

- Store reads that fail other than with not-found are not modelled. LoadChainDB and GetBlock return such errors; everything else here treats a read as found or not found.
- The locks (`sync.RWMutex`) are not modelled: a single sequential caller is.
- Gob and JSON encoding, SHA-256 and `calculateMerkleRoot` are uninterpreted functions. The model says nothing about their values beyond what the callers pass through.
- `utils.GetUtxoKey` and `utils.GetUtxoListKey` are not part of this model; they are uninterpreted fields of `Entities.Externals`.
- `time.Now` is a parameter. Genesis reads the clock twice: the transaction timestamp first, then the header timestamp.
- Go's shared references (`*Transaction`, `*Block`) and aliasing are not modelled. Transactions, blocks and UTXOs are values, so the mempool stores copies.
- Go wraps errors in formatted messages throughout the core (LoadChainDB, UpdateChainState, AddBlock, GetBlock, UpdateUtxo, setGenesisTxs, SetGenesisBlock, NewChainState); the model keeps only which error it is.
- Converter.BytesToHash: Go panics on fewer than 32 bytes. The function requires 32, and its callers return the ShortHashBytes error instead.
- The values of `MaxTxsPerBlock`, `WholeTxIdx` and `TxTypeGeneral` are not part of this model. They are left open, with only the type (WholeTxIdx is assumed negative, which is how the key functions read it).
- The key prefixes `PrefixBlockByHeight`, `PrefixTxs`, `PrefixTxIn`, `PrefixTxOut`, `PrefixMetaHeight` and `PrefixMetaBlockHash` are used but not defined in protocol/prefix.go. The model takes:
  - "blk:h:", "tx:", "tx:in:" and "tx:out:", the values in the comments above their functions in prefix_gen.go;
  - "meta:height" and "meta:hash", the literals tools/db_browser.go reads.

  The facts the key lemmas need are stated once in Protocol.UnshownPrefixFacts.
- The block header in core/block.go has no Merkle root or hash field, but core/genesis.go sets both. The model gives the header a Merkle root. It treats the genesis hash as the block's own hash field, as block.go and the REST handler read it. SetBlock leaves the Merkle root zero, because setBlockHeader never sets it.
- UpdateUtxo has no final return statement. Normal completion is treated as returning no error.
- UpdateUtxo: the creation of UTXOs for outputs is only a comment in the source, so outputs write nothing. There is no already-spent check, so none is proved. AddBlock never calls UpdateUtxo, and neither does the model.
- The panic stubs ValidateBlock, LoadUtxoData, GetUtxos and ValidateUtxo are not behaviour and are not modelled.
- UtxoLedger.CalBalanceUtxo: Go iterates over the map in an unspecified order. The model picks an arbitrary key each step, and UtxoLedger.UnspentTotalRemove shows that the total does not depend on the order.

## Findings

| source | as written | input that shows it | evidently intended | confidence | as-written member | corrected member |
|---|---|---|---|---|---|---|
| core/block.go:107,184 | saveBlockData stores the height's block hash as its 64-character ASCII hex form. GetBlock reads it back with BytesToHash, which takes the first 32 ASCII bytes as the raw hash and so looks up the wrong block key | a block with the all-zero hash: the height key holds 64 bytes 0x30, GetBlock looks up "blk:3030…30" while the block is stored under "blk:00…00", so the freshly committed block is reported missing (Blocks.AsWrittenMissesCommittedBlock); only hashes whose first 32 hex characters spell their own bytes, such as all-0x33, read back (Blocks.AsWrittenReadsFixedPoint) | parse the stored hex string with StringToHash before building the block key | high (not executed) | Blocks.AsWrittenMissesCommittedBlock | Blocks.CommitThenGetBlock |
