/** Fixed-width machine integers and the fixed-size byte arrays of the
    `protocol` package (Hash, Address, Signature), plus the error kinds the
    core returns. */
module Types {

  type byte = x: int | 0 <= x < 0x100
  type uint8 = x: int | 0 <= x < 0x100
  type uint32 = x: int | 0 <= x < 0x1_0000_0000
  type uint64 = x: int | 0 <= x < 0x1_0000_0000_0000_0000
  type int64 = x: int | -0x8000_0000_0000_0000 <= x < 0x8000_0000_0000_0000

  const HashLen: nat := 32
  const AddressLen: nat := 20
  const SignatureLen: nat := 65

  type Bytes = seq<byte>

  /** Go's `[32]byte` hash array. */
  type Hash = s: Bytes | |s| == HashLen witness seq(32, i => 0)
  /** Go's `[20]byte` address array. */
  type Address = s: Bytes | |s| == AddressLen witness seq(20, i => 0)
  /** Go's `[65]byte` signature array. */
  type Signature = s: Bytes | |s| == SignatureLen witness seq(65, i => 0)

  /** The zero value of a Hash (`prt.Hash{}`). */
  function ZeroHash(): (h: Hash)
    ensures forall i | 0 <= i < |h| :: h[i] == 0
  {
    seq(HashLen, i => 0)
  }

  /** Database keys: Go byte strings, one char per byte. */
  type Key = string

  /** The error values the core returns, one kind per failure site. */
  datatype Error =
    | InvalidByte(c: char)          // encoding/hex: a non-hex character
    | OddLength                     // encoding/hex: odd number of characters
    | WrongLength(got: nat, want: nat)
    | DuplicateTx                   // the mempool already holds the id
    | NotFound(key: Key)            // a store lookup found nothing
    | DecodeFailed(key: Key)        // stored bytes did not deserialize
    | EncodeFailed                  // serialization failed
    | CountMismatch                 // genesis addresses and balances differ in number
    | BadAddress                    // a genesis address is not valid hex
    | BadHeightFormat               // the stored tip height is not a decimal uint64
    | WriteFailed                   // the store's batch write failed
    | NotInitialized                // nil chain receiver
    | NoBlocks                      // the tip is still (0, "")
    | ShortHashBytes(got: nat)      // Go panics converting fewer than 32 bytes to a Hash
    | GenesisNotAdded               // AddBlock reported false for genesis
}
