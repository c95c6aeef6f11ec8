/** Basic value types shared by the call-value resolver, the ledger and the
    argument codec: bytes, 64-bit nonces, token identifiers and the
    structured failure a transaction aborts with. */
module Types {

  newtype byte = x: int | 0 <= x < 0x100

  /** `u64` of the source: token nonces. */
  newtype u64 = x: int | 0 <= x < 0x1_0000_0000_0000_0000

  const U64_MAX: u64 := 0xFFFF_FFFF_FFFF_FFFF

  type Bytes = seq<byte>

  /** A managed token identifier: a byte buffer. The native currency has
      its own fixed representation. */
  datatype TokenIdentifier = TokenIdentifier(buffer: Bytes)

  /** The bytes "MOAX". */
  const MOAX_REPRESENTATION: Bytes := [0x4D, 0x4F, 0x41, 0x58]

  /** `TokenIdentifier::moax()`. */
  const MOAX_TOKEN_IDENTIFIER: TokenIdentifier := TokenIdentifier(MOAX_REPRESENTATION)

  /** Fungible tokens have nonce 0, every other nonce names a
      non-fungible instance. */
  datatype DctTokenType = Fungible | NonFungible

  /** The fixed messages of the framework's error table, plus the free
      text a contract may abort with. */
  datatype ErrMsg =
    | TooManyDctTransfers
    | NonPayableFuncMoax
    | NonPayableFuncDct
    | ContractMessage(text: Bytes)

  /** A transaction abort: numeric status and message. */
  datatype TxPanic = TxPanic(status: nat, message: ErrMsg)

  /** The status the call-value checks abort with. */
  const USER_ERROR_STATUS: nat := 10

  datatype Option<T> = None | Some(value: T)

  datatype Result<T, E> = Success(value: T) | Failure(error: E)

  /** The outcome of a check that either passes or aborts. */
  datatype Outcome<E> = Pass | Fail(error: E)
}
