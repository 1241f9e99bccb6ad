/** The entity model of the ledger core (core/transaction.go, core/block.go,
    core/utxo.go) and the collaborators the core calls but that are not part
    of this model: hashing, serialization, the Merkle root and the UTXO key
    functions. */
module Entities {
  import opened Types
  import opened Wrappers

  datatype TxInput = TxInput(
    txId: Hash,             // the transaction whose output is spent
    outputIndex: uint32,    // which output of it
    signature: Signature,
    publicKey: Bytes,
    sequence: uint32)

  datatype TxOutput = TxOutput(address: Address, amount: uint64, txType: uint8)

  datatype Transaction = Transaction(
    version: uint32,
    id: Hash,               // the hash of the transaction, taken while id is zero
    timestamp: int64,
    inputs: seq<TxInput>,
    outputs: seq<TxOutput>,
    memo: string,
    data: Bytes)

  /** The block header. core/block.go declares no MerkleRoot, while
      core/genesis.go sets one and api/rest/handler.go reads it; the model
      gives the header the field. */
  datatype BlockHeader = BlockHeader(
    version: string,
    height: uint64,
    prevHash: Hash,
    merkleRoot: Hash,
    timestamp: int64)

  /** A block: header, own hash and transactions. */
  datatype Block = Block(header: BlockHeader, hash: Hash, transactions: seq<Transaction>)

  datatype Utxo = Utxo(
    txId: Hash,
    outputIndex: uint64,
    txOut: TxOutput,
    height: uint64,          // height of the block that created it
    spent: bool,
    spentHeight: uint64)     // height of the block that spent it

  /** AddrUTXOSet: the utxo keys owned by one address (a Go map to true). */
  type AddrUtxoSet = set<Key>

  /** The values the core serializes or hashes. */
  datatype Record =
    | BlockRecord(block: Block)
    | TxRecord(tx: Transaction)
    | InputsRecord(inputs: seq<TxInput>)
    | OutputsRecord(outputs: seq<TxOutput>)
    | InputRecord(input: TxInput)
    | OutputRecord(output: TxOutput)
    | UtxoRecord(utxo: Utxo)
    | AddrSetRecord(keys: AddrUtxoSet)

  /** The collaborators, as uninterpreted total functions:
      `serialize`  SerializeData (gob), which may fail;
      `decode*`    DeserializeData (gob) into a UTXO, an address set or a block;
      `hash`       utils.Hash (SHA-256 over the gob encoding);
      `merkleRoot` calculateMerkleRoot;
      `utxoKey`, `utxoListKey`  utils.GetUtxoKey and utils.GetUtxoListKey. */
  datatype Externals = Externals(
    serialize: Record -> Option<Bytes>,
    decodeUtxo: Bytes -> Option<Utxo>,
    decodeAddrSet: Bytes -> Option<AddrUtxoSet>,
    decodeBlock: Bytes -> Option<Block>,
    hash: Record -> Hash,
    merkleRoot: seq<Transaction> -> Hash,
    utxoKey: (Hash, int) -> Key,
    utxoListKey: Address -> Key)

  /** The configuration values the core reads. */
  datatype Config = Config(
    protocolVersion: string,          // cfg.Version.Protocol
    txVersion: uint32,                // cfg.Version.Transaction
    systemAddresses: seq<string>,     // cfg.Genesis.SystemAddresses
    systemBalances: seq<uint64>)      // cfg.Genesis.SystemBalances
}
