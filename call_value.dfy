/** The call-value resolver of the mock blockchain: what the currently
    executing call was paid, read from the transaction input. Every
    accessor only reads the input; the single-transfer accessors abort
    with status 10 when more than one token transfer is attached. */
module CallValue {
  import opened Types

  /** One attached token transfer: identifier bytes, nonce, amount. */
  datatype TxInputDct = TxInputDct(tokenIdentifier: Bytes, nonce: u64, value: nat)

  /** The part of the transaction input the resolver reads. */
  datatype TxInput = TxInput(moaxValue: nat, dctValues: seq<TxInputDct>)

  const TOO_MANY_TRANSFERS: TxPanic := TxPanic(USER_ERROR_STATUS, TooManyDctTransfers)
  const NON_PAYABLE_MOAX: TxPanic := TxPanic(USER_ERROR_STATUS, NonPayableFuncMoax)
  const NON_PAYABLE_DCT: TxPanic := TxPanic(USER_ERROR_STATUS, NonPayableFuncDct)

  /** True when the call carries no value at all. */
  predicate PaysNothing(input: TxInput)
  {
    && input.moaxValue == 0
    && forall i :: 0 <= i < |input.dctValues| ==> input.dctValues[i].value == 0
  }

  function FailIfMoreThanOneDctTransfer(input: TxInput): (r: Outcome<TxPanic>)
    ensures r == Pass <==> |input.dctValues| <= 1
    ensures r != Pass ==> r == Fail(TOO_MANY_TRANSFERS)
  {
    if DctNumTransfers(input) > 1 then Fail(TOO_MANY_TRANSFERS) else Pass
  }

  /** Aborts a non-payable endpoint that was paid. The MOAX check comes
      first; the token check goes through the single-transfer accessor,
      so two or more transfers abort with the too-many message. */
  function CheckNotPayable(input: TxInput): (r: Outcome<TxPanic>)
    ensures r == Pass <==> PaysNothing(input) && |input.dctValues| <= 1
    ensures input.moaxValue > 0 ==> r == Fail(NON_PAYABLE_MOAX)
    ensures input.moaxValue == 0 && |input.dctValues| > 1 ==> r == Fail(TOO_MANY_TRANSFERS)
    ensures input.moaxValue == 0 && |input.dctValues| == 1 && input.dctValues[0].value > 0 ==>
              r == Fail(NON_PAYABLE_DCT)
  {
    if MoaxValue(input) > 0 then Fail(NON_PAYABLE_MOAX)
    else match DctValue(input)
      case Failure(e) => Fail(e)
      case Success(v) => if v > 0 then Fail(NON_PAYABLE_DCT) else Pass
  }

  /** The MOAX paid with the call. */
  function MoaxValue(input: TxInput): (r: nat)
    ensures r == input.moaxValue
  {
    input.moaxValue
  }

  /** The amount of the single attached transfer, 0 when there is none. */
  function DctValue(input: TxInput): (r: Result<nat, TxPanic>)
    ensures |input.dctValues| > 1 <==> r == Failure(TOO_MANY_TRANSFERS)
    ensures |input.dctValues| == 0 ==> r == Success(0)
    ensures |input.dctValues| == 1 ==> r == Success(input.dctValues[0].value)
  {
    match FailIfMoreThanOneDctTransfer(input)
    case Fail(e) => Failure(e)
    case Pass => Success(DctValueByIndex(input, 0))
  }

  /** The identifier of the single attached transfer, MOAX when there is none. */
  function Token(input: TxInput): (r: Result<TokenIdentifier, TxPanic>)
    ensures |input.dctValues| > 1 <==> r == Failure(TOO_MANY_TRANSFERS)
    ensures |input.dctValues| == 0 ==> r == Success(MOAX_TOKEN_IDENTIFIER)
    ensures |input.dctValues| == 1 ==> r == Success(TokenIdentifier(input.dctValues[0].tokenIdentifier))
  {
    match FailIfMoreThanOneDctTransfer(input)
    case Fail(e) => Failure(e)
    case Pass => Success(TokenByIndex(input, 0))
  }

  /** The nonce of the single attached transfer, 0 when there is none. */
  function DctTokenNonce(input: TxInput): (r: Result<u64, TxPanic>)
    ensures |input.dctValues| > 1 <==> r == Failure(TOO_MANY_TRANSFERS)
    ensures |input.dctValues| == 0 ==> r == Success(0)
    ensures |input.dctValues| == 1 ==> r == Success(input.dctValues[0].nonce)
  {
    match FailIfMoreThanOneDctTransfer(input)
    case Fail(e) => Failure(e)
    case Pass => Success(DctTokenNonceByIndex(input, 0))
  }

  /** The type of the single attached transfer: fungible when there is
      none or when its nonce is 0. */
  function DctTokenType(input: TxInput): (r: Result<DctTokenType, TxPanic>)
    ensures |input.dctValues| > 1 <==> r == Failure(TOO_MANY_TRANSFERS)
    ensures r == Success(Fungible) <==> |input.dctValues| == 0 || (|input.dctValues| == 1 && input.dctValues[0].nonce == 0)
    ensures r == Success(NonFungible) <==> |input.dctValues| == 1 && input.dctValues[0].nonce != 0
  {
    match FailIfMoreThanOneDctTransfer(input)
    case Fail(e) => Failure(e)
    case Pass => Success(DctTokenTypeByIndex(input, 0))
  }

  /** How many token transfers are attached. */
  function DctNumTransfers(input: TxInput): (r: nat)
    ensures r == |input.dctValues|
  {
    |input.dctValues|
  }

  /** The amount of the transfer at `index`, 0 past the end. */
  function DctValueByIndex(input: TxInput, index: nat): (r: nat)
    ensures index < |input.dctValues| ==> r == input.dctValues[index].value
    ensures index >= |input.dctValues| ==> r == 0
  {
    if index < |input.dctValues| then input.dctValues[index].value else 0
  }

  /** The identifier of the transfer at `index`, MOAX past the end. */
  function TokenByIndex(input: TxInput, index: nat): (r: TokenIdentifier)
    ensures index < |input.dctValues| ==> r == TokenIdentifier(input.dctValues[index].tokenIdentifier)
    ensures index >= |input.dctValues| ==> r == MOAX_TOKEN_IDENTIFIER
  {
    if index < |input.dctValues| then TokenIdentifier(input.dctValues[index].tokenIdentifier)
    else MOAX_TOKEN_IDENTIFIER
  }

  /** The nonce of the transfer at `index`, 0 past the end. */
  function DctTokenNonceByIndex(input: TxInput, index: nat): (r: u64)
    ensures index < |input.dctValues| ==> r == input.dctValues[index].nonce
    ensures index >= |input.dctValues| ==> r == 0
  {
    if index < |input.dctValues| then input.dctValues[index].nonce else 0
  }

  function DctTokenTypeByIndex(input: TxInput, index: nat): (r: DctTokenType)
    ensures r == Fungible <==> index >= |input.dctValues| || input.dctValues[index].nonce == 0
  {
    if DctTokenNonceByIndex(input, index) == 0 then Fungible else NonFungible
  }

  /** The transfer list as a contract sees it through the count and the
      indexed accessors. */
  function TransfersSeenByIndex(input: TxInput): seq<TxInputDct>
  {
    seq(DctNumTransfers(input), i requires 0 <= i =>
      TxInputDct(TokenByIndex(input, i).buffer, DctTokenNonceByIndex(input, i), DctValueByIndex(input, i)))
  }

  /** The count and the indexed accessors together give back exactly the
      attached transfers, in order. */
  lemma IndexedAccessorsRecoverTransfers(input: TxInput)
    ensures DctNumTransfers(input) == |input.dctValues|
    ensures TransfersSeenByIndex(input) == input.dctValues
  {
  }

  /** Past the end of the transfer list every indexed accessor answers
      with its default. */
  lemma IndexedAccessorsDefaults(input: TxInput, index: nat)
    requires index >= DctNumTransfers(input)
    ensures DctValueByIndex(input, index) == 0
    ensures TokenByIndex(input, index) == MOAX_TOKEN_IDENTIFIER
    ensures DctTokenNonceByIndex(input, index) == 0
    ensures DctTokenTypeByIndex(input, index) == Fungible
  {
  }

  /** When at most one transfer is attached, the single-transfer accessors
      are the index-0 accessors. */
  lemma SingleAccessorsAreIndexZero(input: TxInput)
    requires DctNumTransfers(input) <= 1
    ensures DctValue(input) == Success(DctValueByIndex(input, 0))
    ensures Token(input) == Success(TokenByIndex(input, 0))
    ensures DctTokenNonce(input) == Success(DctTokenNonceByIndex(input, 0))
    ensures DctTokenType(input) == Success(DctTokenTypeByIndex(input, 0))
  {
  }

  /** With two or more transfers every single-transfer accessor aborts
      with status 10 and the too-many message, while every indexed
      accessor still answers. */
  lemma MultiTransferAccess(input: TxInput, index: nat)
    requires DctNumTransfers(input) > 1 && index < DctNumTransfers(input)
    ensures DctValue(input) == Failure(TOO_MANY_TRANSFERS)
    ensures Token(input) == Failure(TOO_MANY_TRANSFERS)
    ensures DctTokenNonce(input) == Failure(TOO_MANY_TRANSFERS)
    ensures DctTokenType(input) == Failure(TOO_MANY_TRANSFERS)
    ensures DctValueByIndex(input, index) == input.dctValues[index].value
    ensures TokenByIndex(input, index) == TokenIdentifier(input.dctValues[index].tokenIdentifier)
    ensures DctTokenNonceByIndex(input, index) == input.dctValues[index].nonce
  {
  }
}
