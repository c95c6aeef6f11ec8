/** The behaviour the testing-framework tests pin down, replayed against
    the wrapper: each method builds a fresh ledger, performs the test's
    steps and promises, in its postcondition, the balances, nonces and
    storage values the test checks. The tested contract's endpoints are
    written here as bodies over the ledger. */
module FrameworkTests {
  import opened Types
  import opened Ledger
  import opened Executor
  import opened StateWrapper
  import CallValue

  const SC_WASM_PATH: string := "output/rust-testing-framework-tester.wasm"

  /** "COOL-123456" */
  const COOL_TOKEN: Bytes := [0x43, 0x4F, 0x4F, 0x4C, 0x2D, 0x31, 0x32, 0x33, 0x34, 0x35, 0x36]
  /** "VERYCOOL-123456" */
  const VERY_COOL_TOKEN: Bytes := [0x56, 0x45, 0x52, 0x59] + COOL_TOKEN

  /** The NFT attributes of the tests (creation epoch 666 as eight
      big-endian bytes, cool factor 101 as one), an opaque byte string to
      the ledger. */
  const NFT_ATTRIBUTES: Bytes := [0, 0, 0, 0, 0, 0, 0x02, 0x9A, 101]

  /** The big-endian, minimal encoding of an unsigned big integer, as
      the tested contract's storage holds it. */
  function EncodeBigUint(n: nat): Bytes
  {
    if n == 0 then [] else EncodeBigUint(n / 0x100) + [(n % 0x100) as byte]
  }

  function DecodeBigUint(b: Bytes): nat
  {
    if b == [] then 0 else DecodeBigUint(b[..|b| - 1]) * 0x100 + b[|b| - 1] as nat
  }

  /** "totalValue" */
  const TOTAL_VALUE_KEY: Bytes := [0x74, 0x6F, 0x74, 0x61, 0x6C, 0x56, 0x61, 0x6C, 0x75, 0x65]
  /** "valuePerCaller" */
  const VALUE_PER_CALLER_PREFIX: Bytes := [0x76, 0x61, 0x6C, 0x75, 0x65, 0x50, 0x65, 0x72, 0x43, 0x61, 0x6C, 0x6C, 0x65, 0x72]

  /** The storage key of one caller's share: the prefix and the caller. */
  function ValuePerCallerKey(caller: Address): Bytes
  {
    VALUE_PER_CALLER_PREFIX + EncodeBigUint(caller.id)
  }

  function StoredValue(s: WorldState, sc: Address, key: Bytes): nat
  {
    DecodeBigUint(StorageGet(s, sc, key))
  }

  function TotalValue(s: WorldState, sc: Address): nat
  {
    StoredValue(s, sc, TOTAL_VALUE_KEY)
  }

  function ValuePerCaller(s: WorldState, sc: Address, caller: Address): nat
  {
    StoredValue(s, sc, ValuePerCallerKey(caller))
  }

  // ---------------------------------------------------------------------
  // Endpoints of the tested contract, as transaction bodies

  /** Ends the body with `change` when `ok`, and as a failed test
      assertion otherwise. */
  function Check(ok: bool, s: WorldState, change: StateChange): BodyOutcome
  {
    if ok then Finished(s, change) else Aborted(AssertionFailed)
  }

  function Then(r: Result<WorldState, LedgerError>, change: StateChange): BodyOutcome
  {
    match r
    case Success(t) => Finished(t, change)
    case Failure(e) => Aborted(LedgerFailure(e))
  }

  /** Checks that the call was paid `expected` MOAX. */
  function ReceiveMoax(expected: nat, change: StateChange): TxBody
  {
    (s: WorldState, input: CallValue.TxInput) => Check(CallValue.MoaxValue(input) == expected, s, change)
  }

  /** Sends half of the MOAX payment back to the caller. */
  function ReceiveMoaxHalfEndpoint(s: WorldState, input: CallValue.TxInput, sc: Address, caller: Address): BodyOutcome
  {
    Then(MoaxTransfer(s, sc, caller, CallValue.MoaxValue(input) / 2), Commit)
  }

  function ReceiveMoaxHalf(sc: Address, caller: Address): TxBody
  {
    (s: WorldState, input: CallValue.TxInput) => ReceiveMoaxHalfEndpoint(s, input, sc, caller)
  }

  /** Checks the single token payment through the single-transfer accessors. */
  function ReceiveDct(token: Bytes, expected: nat, change: StateChange): TxBody
  {
    (s: WorldState, input: CallValue.TxInput) =>
      Check(CallValue.Token(input) == Success(TokenIdentifier(token)) && CallValue.DctValue(input) == Success(expected),
            s, change)
  }

  /** Checks every attached transfer through the indexed accessors. */
  function ReceiveMultiDct(expected: seq<CallValue.TxInputDct>): TxBody
  {
    (s: WorldState, input: CallValue.TxInput) => Check(CallValue.TransfersSeenByIndex(input) == expected, s, Commit)
  }

  /** Sends tokens from the contract to `to`. */
  function SendNftEndpoint(s: WorldState, sc: Address, to: Address, token: Bytes, nonce: u64, amount: nat): BodyOutcome
  {
    Then(DctTransfer(s, sc, to, token, nonce, amount), Commit)
  }

  function SendNft(sc: Address, to: Address, token: Bytes, nonce: u64, amount: nat): TxBody
  {
    (s: WorldState, input: CallValue.TxInput) => SendNftEndpoint(s, sc, to, token, nonce, amount)
  }

  /** Mints into the contract's own balance. */
  function MintDctEndpoint(s: WorldState, sc: Address, token: Bytes, nonce: u64, amount: nat): BodyOutcome
  {
    Then(LocalMint(s, sc, token, nonce, amount), Commit)
  }

  function MintDct(sc: Address, token: Bytes, nonce: u64, amount: nat): TxBody
  {
    (s: WorldState, input: CallValue.TxInput) => MintDctEndpoint(s, sc, token, nonce, amount)
  }

  /** Burns from the contract's own balance. */
  function BurnDctEndpoint(s: WorldState, sc: Address, token: Bytes, nonce: u64, amount: nat): BodyOutcome
  {
    Then(LocalBurn(s, sc, token, nonce, amount), Commit)
  }

  function BurnDct(sc: Address, token: Bytes, nonce: u64, amount: nat): TxBody
  {
    (s: WorldState, input: CallValue.TxInput) => BurnDctEndpoint(s, sc, token, nonce, amount)
  }

  /** Creates two instances and checks that they got nonces 1 and 2. */
  function CreateTwoNftsEndpoint(s: WorldState, sc: Address, token: Bytes, amount: nat, attributes: Bytes): BodyOutcome
  {
    match CreateNft(s, sc, token, amount, attributes)
    case Failure(e) => Aborted(LedgerFailure(e))
    case Success((s1, first)) =>
      match CreateNft(s1, sc, token, amount, attributes)
      case Failure(e) => Aborted(LedgerFailure(e))
      case Success((s2, second)) => Check(first == 1 && second == 2, s2, Commit)
  }

  function CreateTwoNfts(sc: Address, token: Bytes, amount: nat, attributes: Bytes): TxBody
  {
    (s: WorldState, input: CallValue.TxInput) => CreateTwoNftsEndpoint(s, sc, token, amount, attributes)
  }

  function WriteValue(s: WorldState, sc: Address, key: Bytes, value: nat): Result<WorldState, LedgerError>
  {
    StorageSet(s, sc, key, EncodeBigUint(value))
  }

  /** The contract's add: adds to the total and to the caller's share. */
  function AddValue(s: WorldState, sc: Address, caller: Address, value: nat): Result<WorldState, LedgerError>
  {
    match WriteValue(s, sc, TOTAL_VALUE_KEY, TotalValue(s, sc) + value)
    case Failure(e) => Failure(e)
    case Success(s1) => WriteValue(s1, sc, ValuePerCallerKey(caller), ValuePerCaller(s1, sc, caller) + value)
  }

  /** The storage tests' body: checks 1 and 0 before, adds 50, checks 51
      and 50 after, and ends with `change`. */
  function AddFiftyEndpoint(s: WorldState, sc: Address, caller: Address, change: StateChange): BodyOutcome
  {
    if TotalValue(s, sc) != 1 || ValuePerCaller(s, sc, caller) != 0 then Aborted(AssertionFailed)
    else match AddValue(s, sc, caller, 50)
      case Failure(e) => Aborted(LedgerFailure(e))
      case Success(t) => Check(TotalValue(t, sc) == 51 && ValuePerCaller(t, sc, caller) == 50, t, change)
  }

  function AddFifty(sc: Address, caller: Address, change: StateChange): TxBody
  {
    (s: WorldState, input: CallValue.TxInput) => AddFiftyEndpoint(s, sc, caller, change)
  }

  /** Writes the total directly. */
  function SetTotalValueEndpoint(s: WorldState, sc: Address, value: nat): BodyOutcome
  {
    Then(WriteValue(s, sc, TOTAL_VALUE_KEY, value), Commit)
  }

  function SetTotalValue(sc: Address, value: nat): TxBody
  {
    (s: WorldState, input: CallValue.TxInput) => SetTotalValueEndpoint(s, sc, value)
  }

  /** The storage-set test's body: writes both values directly. */
  function SetBothEndpoint(s: WorldState, sc: Address, caller: Address, value: nat): BodyOutcome
  {
    match WriteValue(s, sc, TOTAL_VALUE_KEY, value)
    case Failure(e) => Aborted(LedgerFailure(e))
    case Success(s1) => Then(WriteValue(s1, sc, ValuePerCallerKey(caller), value), Commit)
  }

  function SetBoth(sc: Address, caller: Address, value: nat): TxBody
  {
    (s: WorldState, input: CallValue.TxInput) => SetBothEndpoint(s, sc, caller, value)
  }

  /** The add endpoint, called by `caller`. */
  function AddEndpoint(s: WorldState, sc: Address, caller: Address, value: nat): BodyOutcome
  {
    Then(AddValue(s, sc, caller, value), Commit)
  }

  function Add(sc: Address, caller: Address, value: nat): TxBody
  {
    (s: WorldState, input: CallValue.TxInput) => AddEndpoint(s, sc, caller, value)
  }

  /** Calls `dest`'s add endpoint on the caller's context. */
  function ExecuteOnDestAddValue(sc: Address, dest: Address, value: nat): TxBody
  {
    CallThen(sc, dest, CallValue.TxInput(0, []), Add(dest, sc, value), Commit)
  }

  /** The contract's integer storage reads back what it wrote. */
  lemma {:induction false} BigUintRoundTrip(n: nat)
    ensures DecodeBigUint(EncodeBigUint(n)) == n
    decreases n
  {
    if n > 0 {
      var prefix := EncodeBigUint(n / 0x100);
      var e := EncodeBigUint(n);
      assert e == prefix + [(n % 0x100) as byte];
      assert e[..|e| - 1] == prefix;
      BigUintRoundTrip(n / 0x100);
    }
  }

  /** A write of an integer reads back as that integer, leaves every
      other key alone and changes nothing but storage. */
  lemma WriteValueEffect(s: WorldState, sc: Address, key: Bytes, value: nat)
    requires sc in s.storage
    ensures WriteValue(s, sc, key, value).Success?
    ensures var t := WriteValue(s, sc, key, value).value;
      && StoredValue(t, sc, key) == value
      && (forall key' :: key' != key ==> StorageGet(t, sc, key') == StorageGet(s, sc, key'))
      && t.(storage := s.storage) == s
      && t.storage.Keys == s.storage.Keys
  {
    BigUintRoundTrip(value);
  }

  /** The add endpoint raises the total and the caller's share by the
      value and changes nothing but the contract's storage. */
  lemma AddValueEffect(s: WorldState, sc: Address, caller: Address, value: nat)
    requires sc in s.storage
    ensures AddValue(s, sc, caller, value).Success?
    ensures var t := AddValue(s, sc, caller, value).value;
      && TotalValue(t, sc) == TotalValue(s, sc) + value
      && ValuePerCaller(t, sc, caller) == ValuePerCaller(s, sc, caller) + value
      && t.(storage := s.storage) == s
      && t.storage.Keys == s.storage.Keys
  {
    var shareKey := ValuePerCallerKey(caller);
    assert |TOTAL_VALUE_KEY| < |shareKey|;
    var total := TotalValue(s, sc) + value;
    WriteValueEffect(s, sc, TOTAL_VALUE_KEY, total);
    var s1 := WriteValue(s, sc, TOTAL_VALUE_KEY, total).value;
    assert StorageGet(s1, sc, shareKey) == StorageGet(s, sc, shareKey);
    assert ValuePerCaller(s1, sc, caller) == ValuePerCaller(s, sc, caller);
    var share := ValuePerCaller(s1, sc, caller) + value;
    WriteValueEffect(s1, sc, shareKey, share);
    var t := WriteValue(s1, sc, shareKey, share).value;
    assert AddValue(s, sc, caller, value) == Success(t);
    assert StorageGet(t, sc, TOTAL_VALUE_KEY) == StorageGet(s1, sc, TOTAL_VALUE_KEY);
    assert TotalValue(t, sc) == total;
    assert ValuePerCaller(t, sc, caller) == share;
  }

  /** The add endpoint raises the total by the value. */
  lemma AddRaisesTotal(s: WorldState, sc: Address, caller: Address, value: nat)
    requires sc in s.storage
    ensures AddValue(s, sc, caller, value).Success?
    ensures TotalValue(AddValue(s, sc, caller, value).value, sc) == TotalValue(s, sc) + value
  {
    AddValueEffect(s, sc, caller, value);
  }

  /** After init, the storage tests' body sees 1 and 0, writes 51 and
      50, and ends with its verdict; a revert drops the writes. */
  lemma AddFiftyAfterInit(s: WorldState, user: Address, sc: Address, change: StateChange)
    requires AccountExists(s, user) && AccountExists(s, sc) && sc in s.storage
    requires TotalValue(s, sc) == 1 && ValuePerCaller(s, sc, user) == 0
    ensures var r := ExecuteTx(s, user, sc, CallValue.TxInput(0, []), AddFifty(sc, user, change));
      && r.outcome == Success(change)
      && (change == Commit ==> TotalValue(r.state, sc) == 51 && ValuePerCaller(r.state, sc, user) == 50)
      && (change == Revert ==> r.state == s)
  {
    var input := CallValue.TxInput(0, []);
    var paid := ApplyPayment(s, user, sc, input);
    assert paid.Success?;
    var p := paid.value;
    assert p.storage == s.storage;
    AddValueEffect(p, sc, user, 50);
    var t := AddValue(p, sc, user, 50).value;
    assert AddFifty(sc, user, change)(p, input) ==
      Check(TotalValue(t, sc) == 51 && ValuePerCaller(t, sc, user) == 50, t, change);
  }

  /** The add endpoint's body finishes with the add committed. */
  lemma AddFinishes(s: WorldState, caller: Address, sc: Address, value: nat)
    requires sc in s.storage
    ensures AddValue(s, sc, caller, value).Success?
    ensures Add(sc, caller, value)(s, CallValue.TxInput(0, [])) == Finished(AddValue(s, sc, caller, value).value, Commit)
  {
    AddValueEffect(s, sc, caller, value);
  }

  /** A transaction into the add endpoint commits the add. */
  lemma AddCommits(s: WorldState, caller: Address, sc: Address, value: nat)
    requires AccountExists(s, caller) && AccountExists(s, sc) && sc in s.storage
    ensures AddValue(s, sc, caller, value).Success?
    ensures ExecuteTx(s, caller, sc, CallValue.TxInput(0, []), Add(sc, caller, value))
         == TxResult(AddValue(s, sc, caller, value).value, Success(Commit))
  {
    AddFinishes(s, caller, sc, value);
    UnpaidCallCommits(s, caller, sc, Add(sc, caller, value), AddValue(s, sc, caller, value).value);
  }

  /** A nested call into another contract's add endpoint, committed by
      the outer call, keeps the callee's add. */
  lemma NestedAddValue(s: WorldState, user: Address, sc: Address, other: Address, value: nat)
    requires AccountExists(s, user) && AccountExists(s, sc) && AccountExists(s, other) && other in s.storage
    ensures AddValue(s, other, sc, value).Success?
    ensures ExecuteTx(s, user, sc, CallValue.TxInput(0, []), ExecuteOnDestAddValue(sc, other, value))
         == TxResult(AddValue(s, other, sc, value).value, Success(Commit))
  {
    AddFinishes(s, sc, other, value);
    UnpaidNestedCallCommits(s, user, sc, other, Add(other, sc, value), AddValue(s, other, sc, value).value);
  }

  /** A call paid with two transfers of different instances delivers
      both, and the body sees both, in order, through the indexed
      accessors. */
  lemma MultiTransferDelivers(s: WorldState, caller: Address, sc: Address, a: CallValue.TxInputDct, b: CallValue.TxInputDct)
    requires AccountExists(s, caller) && AccountExists(s, sc) && caller != sc
    requires (a.tokenIdentifier, a.nonce) != (b.tokenIdentifier, b.nonce)
    requires a.value <= BalanceAt(s, DctKey(caller, a.tokenIdentifier, a.nonce))
    requires b.value <= BalanceAt(s, DctKey(caller, b.tokenIdentifier, b.nonce))
    ensures var r := ExecuteTx(s, caller, sc, CallValue.TxInput(0, [a, b]), ReceiveMultiDct([a, b]));
      && r.outcome == Success(Commit)
      && BalanceAt(r.state, DctKey(sc, a.tokenIdentifier, a.nonce)) == BalanceAt(s, DctKey(sc, a.tokenIdentifier, a.nonce)) + a.value
      && BalanceAt(r.state, DctKey(sc, b.tokenIdentifier, b.nonce)) == BalanceAt(s, DctKey(sc, b.tokenIdentifier, b.nonce)) + b.value
      && (DctKey(caller, b.tokenIdentifier, b.nonce) in s.attributes ==>
            AttributesAt(r.state, DctKey(sc, b.tokenIdentifier, b.nonce)) == AttributesAt(s, DctKey(caller, b.tokenIdentifier, b.nonce)))
  {
    var transfers := [a, b];
    var input := CallValue.TxInput(0, transfers);
    UnpaidCallPaysNothing(s, caller, sc);
    var first := DctTransfer(s, caller, sc, a.tokenIdentifier, a.nonce, a.value);
    DctTransferMoves(s, caller, sc, a.tokenIdentifier, a.nonce, a.value);
    var s1 := first.value;
    assert AccountExists(s1, caller) && AccountExists(s1, sc);
    var second := DctTransfer(s1, caller, sc, b.tokenIdentifier, b.nonce, b.value);
    DctTransferMoves(s1, caller, sc, b.tokenIdentifier, b.nonce, b.value);
    var s2 := second.value;
    assert transfers[1..] == [b] && [b][1..] == [];
    assert ApplyDctTransfers(s2, caller, sc, []) == second;
    assert ApplyDctTransfers(s1, caller, sc, transfers[1..]) == second;
    assert ApplyPayment(s, caller, sc, input) == second;
    CallValue.IndexedAccessorsRecoverTransfers(input);
    assert ReceiveMultiDct(transfers)(s2, input) == Finished(s2, Commit);
  }

  /** A call paid with fungible units of `token` into the endpoint that
      checks them runs to its verdict: a commit keeps the transfer, a
      revert keeps nothing. */
  lemma DctPaymentRuns(s: WorldState, caller: Address, sc: Address, token: Bytes, amount: nat, change: StateChange)
    requires AccountExists(s, caller) && AccountExists(s, sc) && caller != sc
    requires amount <= BalanceAt(s, DctKey(caller, token, 0))
    ensures var r := ExecuteTx(s, caller, sc, CallValue.TxInput(0, [CallValue.TxInputDct(token, 0, amount)]),
                               ReceiveDct(token, amount, change));
      && r.outcome == Success(change)
      && (change == Commit ==>
            && BalanceAt(r.state, DctKey(caller, token, 0)) == BalanceAt(s, DctKey(caller, token, 0)) - amount
            && BalanceAt(r.state, DctKey(sc, token, 0)) == BalanceAt(s, DctKey(sc, token, 0)) + amount)
      && (change == Revert ==> r.state == s)
  {
    var input := CallValue.TxInput(0, [CallValue.TxInputDct(token, 0, amount)]);
    SingleDctPayment(s, caller, sc, input.dctValues[0]);
    DctTransferMoves(s, caller, sc, token, 0, amount);
    var paid := ApplyPayment(s, caller, sc, input).value;
    assert ReceiveDct(token, amount, change)(paid, input) ==
      Check(CallValue.Token(input) == Success(TokenIdentifier(token)) && CallValue.DctValue(input) == Success(amount),
            paid, change);
  }

  /** The mint endpoint, with the role it needs, commits a mint of
      exactly that instance. */
  lemma MintCommits(s: WorldState, caller: Address, sc: Address, token: Bytes, nonce: u64, amount: nat)
    requires AccountExists(s, caller) && AccountExists(s, sc) && HasRole(s, sc, token, MintRole(nonce))
    ensures var r := ExecuteTx(s, caller, sc, CallValue.TxInput(0, []), MintDct(sc, token, nonce, amount));
      && r.outcome == Success(Commit)
      && BalanceAt(r.state, DctKey(sc, token, nonce)) == BalanceAt(s, DctKey(sc, token, nonce)) + amount
      && (forall k :: k != DctKey(sc, token, nonce) ==> BalanceAt(r.state, k) == BalanceAt(s, k))
      && r.state.(dct := s.dct) == s
  {
    UnpaidCallPaysNothing(s, caller, sc);
    assert MintDct(sc, token, nonce, amount)(s, CallValue.TxInput(0, [])) == Then(LocalMint(s, sc, token, nonce, amount), Commit);
  }

  /** The burn endpoint, with the role it needs and enough units, commits
      a burn of exactly that instance. */
  lemma BurnCommits(s: WorldState, caller: Address, sc: Address, token: Bytes, nonce: u64, amount: nat)
    requires AccountExists(s, caller) && AccountExists(s, sc) && HasRole(s, sc, token, BurnRole(nonce))
    requires amount <= BalanceAt(s, DctKey(sc, token, nonce))
    ensures var r := ExecuteTx(s, caller, sc, CallValue.TxInput(0, []), BurnDct(sc, token, nonce, amount));
      && r.outcome == Success(Commit)
      && BalanceAt(r.state, DctKey(sc, token, nonce)) == BalanceAt(s, DctKey(sc, token, nonce)) - amount
      && (forall k :: k != DctKey(sc, token, nonce) ==> BalanceAt(r.state, k) == BalanceAt(s, k))
      && r.state.(dct := s.dct) == s
  {
    UnpaidCallPaysNothing(s, caller, sc);
    assert BurnDct(sc, token, nonce, amount)(s, CallValue.TxInput(0, [])) == Then(LocalBurn(s, sc, token, nonce, amount), Commit);
  }

  /** On a token with no instance yet, the two creations of the NFT test
      get nonces 1 and 2, each with the amount and the attributes. */
  lemma CreateTwoNftsCommits(s: WorldState, caller: Address, sc: Address, token: Bytes, amount: nat, attributes: Bytes)
    requires AccountExists(s, caller) && AccountExists(s, sc) && HasRole(s, sc, token, NftCreate)
    requires LastNonce(s, sc, token) == 0
    ensures var r := ExecuteTx(s, caller, sc, CallValue.TxInput(0, []), CreateTwoNfts(sc, token, amount, attributes));
      && r.outcome == Success(Commit)
      && BalanceAt(r.state, DctKey(sc, token, 1)) == amount && BalanceAt(r.state, DctKey(sc, token, 2)) == amount
      && AttributesAt(r.state, DctKey(sc, token, 1)) == Some(attributes)
      && AttributesAt(r.state, DctKey(sc, token, 2)) == Some(attributes)
      && LastNonce(r.state, sc, token) == 2
      && r.state.moax == s.moax && r.state.roles == s.roles
  {
    var input := CallValue.TxInput(0, []);
    UnpaidCallPaysNothing(s, caller, sc);
    var first := CreateNft(s, sc, token, amount, attributes);
    assert first.Success? && first.value.1 == 1;
    var s1 := first.value.0;
    assert HasRole(s1, sc, token, NftCreate) && LastNonce(s1, sc, token) == 1;
    var second := CreateNft(s1, sc, token, amount, attributes);
    assert second.Success? && second.value.1 == 2;
    assert CreateTwoNfts(sc, token, amount, attributes)(s, input) == Finished(second.value.0, Commit);
  }

  /** The body that sets the total finishes with the write committed. */
  lemma SetTotalValueFinishes(s: WorldState, sc: Address, value: nat)
    requires sc in s.storage
    ensures WriteValue(s, sc, TOTAL_VALUE_KEY, value).Success?
    ensures SetTotalValue(sc, value)(s, CallValue.TxInput(0, [])) ==
      Finished(WriteValue(s, sc, TOTAL_VALUE_KEY, value).value, Commit)
  {
    WriteValueEffect(s, sc, TOTAL_VALUE_KEY, value);
  }

  /** The storage-set body, called on an existing contract, commits both
      writes. */
  lemma SetBothCommits(s: WorldState, caller: Address, sc: Address, value: nat)
    requires AccountExists(s, caller) && AccountExists(s, sc) && sc in s.storage
    ensures var r := ExecuteTx(s, caller, sc, CallValue.TxInput(0, []), SetBoth(sc, caller, value));
      && r.outcome == Success(Commit)
      && TotalValue(r.state, sc) == value && ValuePerCaller(r.state, sc, caller) == value
  {
    var shareKey := ValuePerCallerKey(caller);
    assert |TOTAL_VALUE_KEY| < |shareKey|;
    WriteValueEffect(s, sc, TOTAL_VALUE_KEY, value);
    var s1 := WriteValue(s, sc, TOTAL_VALUE_KEY, value).value;
    WriteValueEffect(s1, sc, shareKey, value);
    var t := WriteValue(s1, sc, shareKey, value).value;
    assert SetBoth(sc, caller, value)(s, CallValue.TxInput(0, [])) == Finished(t, Commit);
    UnpaidCallCommits(s, caller, sc, SetBoth(sc, caller, value), t);
  }

  /** The other contract's getter, called on the calling contract's
      context, answers with its total. */
  function CallOtherContractExecuteOnDest(other: Address): (WorldState, Address, CallValue.TxInput) -> nat
  {
    (s: WorldState, sc: Address, input: CallValue.TxInput) =>
      match ExecuteOnDestContext(s, sc, other, CallValue.TxInput(0, []), (t: WorldState, i: CallValue.TxInput) => Finished(t, Commit))
      case Success(t) => TotalValue(t, other)
      case Failure(_) => 0
  }

  /** A nested call that changes nothing leaves the callee's total
      readable as it was. */
  lemma NestedQueryReads(s: WorldState, sc: Address, other: Address)
    requires AccountExists(s, sc) && AccountExists(s, other)
    ensures CallOtherContractExecuteOnDest(other)(s, sc, CallValue.TxInput(0, [])) == TotalValue(s, other)
  {
    var getter := (t: WorldState, i: CallValue.TxInput) => Finished(t, Commit);
    UnpaidCallCommits(s, sc, other, getter, s);
  }

  // ---------------------------------------------------------------------
  // The tests

  /** A fresh ledger with a user account and a contract account holding
      the given MOAX and nothing else. */
  method NewUserAndContract(userMoax: nat, scMoax: nat, owner: bool) returns (w: BlockchainStateWrapper, user: Address, sc: Address)
    ensures fresh(w) && w.Valid()
    ensures AccountExists(w.Snapshot(), user) && AccountExists(w.Snapshot(), sc) && user != sc
    ensures MoaxOf(w.Snapshot(), user) == userMoax && MoaxOf(w.Snapshot(), sc) == scMoax
    ensures var s := w.Snapshot(); s.dct == map[] && s.attributes == map[] && s.roles == map[] && s.lastNonce == map[]
    ensures w.Snapshot().storage == map[user := map[], sc := map[]]
  {
    w := new BlockchainStateWrapper();
    user := w.CreateUserAccount(userMoax);
    sc := w.CreateScAccount(scMoax, if owner then Some(user) else None, SC_WASM_PATH);
  }

  /** A committed payment of 1000 moves it from the caller to the contract. */
  method TestScPaymentOk() returns (w: BlockchainStateWrapper, caller: Address, sc: Address)
    ensures MoaxOf(w.Snapshot(), caller) == 0 && MoaxOf(w.Snapshot(), sc) == 3000
  {
    w := new BlockchainStateWrapper();
    caller := w.CreateUserAccount(1000);
    sc := w.CreateScAccount(2000, Some(caller), SC_WASM_PATH);
    var input := CallValue.TxInput(1000, []);
    var paid := ApplyPayment(w.Snapshot(), caller, sc, input);
    assert paid.Success?;
    assert ReceiveMoax(1000, Commit)(paid.value, input) == Check(CallValue.MoaxValue(input) == 1000, paid.value, Commit);
    var r := w.ExecuteTx(caller, sc, 1000, ReceiveMoax(1000, Commit));
    assert r == Success(Commit);
  }

  /** A reverted payment leaves both balances as they were, though the
      body saw the payment. */
  method TestScPaymentReverted() returns (w: BlockchainStateWrapper, caller: Address, sc: Address)
    ensures MoaxOf(w.Snapshot(), caller) == 1000 && MoaxOf(w.Snapshot(), sc) == 2000
  {
    w := new BlockchainStateWrapper();
    caller := w.CreateUserAccount(1000);
    sc := w.CreateScAccount(2000, Some(caller), SC_WASM_PATH);
    var input := CallValue.TxInput(1000, []);
    var paid := ApplyPayment(w.Snapshot(), caller, sc, input);
    assert paid.Success?;
    assert ReceiveMoax(1000, Revert)(paid.value, input) == Check(CallValue.MoaxValue(input) == 1000, paid.value, Revert);
    var r := w.ExecuteTx(caller, sc, 1000, ReceiveMoax(1000, Revert));
    assert r == Success(Revert);
  }

  /** A transaction from `caller` paying `value` MOAX into the endpoint
      that sends half of it back. */
  method CallHalfPayment(w: BlockchainStateWrapper, caller: Address, sc: Address, value: nat)
    requires AccountExists(w.Snapshot(), caller) && AccountExists(w.Snapshot(), sc) && caller != sc
    requires value <= MoaxOf(w.Snapshot(), caller)
    modifies w
    ensures MoaxOf(w.Snapshot(), caller) == old(MoaxOf(w.Snapshot(), caller)) - value + value / 2
    ensures MoaxOf(w.Snapshot(), sc) == old(MoaxOf(w.Snapshot(), sc)) + value - value / 2
  {
    ghost var s := w.Snapshot();
    var input := CallValue.TxInput(value, []);
    MoaxPaymentMoves(s, caller, sc, value);
    ghost var paid := ApplyPayment(s, caller, sc, input).value;
    MoaxTransferMoves(paid, sc, caller, value / 2);
    ghost var t := MoaxTransfer(paid, sc, caller, value / 2).value;
    assert ReceiveMoaxHalf(sc, caller)(paid, input) == Finished(t, Commit);
    var _ := w.ExecuteTx(caller, sc, value, ReceiveMoaxHalf(sc, caller));
  }

  /** The contract sends half of the payment back. */
  method TestScHalfPayment() returns (w: BlockchainStateWrapper, caller: Address, sc: Address)
    ensures MoaxOf(w.Snapshot(), caller) == 500 && MoaxOf(w.Snapshot(), sc) == 2500
  {
    w := new BlockchainStateWrapper();
    caller := w.CreateUserAccount(1000);
    sc := w.CreateScAccount(2000, Some(caller), SC_WASM_PATH);
    CallHalfPayment(w, caller, sc, 1000);
  }

  /** A transaction from `caller` paying `amount` fungible units of
      `token` into the endpoint that checks them and ends with `change`. */
  method CallDctPayment(w: BlockchainStateWrapper, caller: Address, sc: Address, token: Bytes, amount: nat, change: StateChange)
    requires AccountExists(w.Snapshot(), caller) && AccountExists(w.Snapshot(), sc) && caller != sc
    requires amount <= BalanceAt(w.Snapshot(), DctKey(caller, token, 0))
    modifies w
    ensures change == Commit ==>
              && BalanceAt(w.Snapshot(), DctKey(caller, token, 0)) == old(BalanceAt(w.Snapshot(), DctKey(caller, token, 0))) - amount
              && BalanceAt(w.Snapshot(), DctKey(sc, token, 0)) == old(BalanceAt(w.Snapshot(), DctKey(sc, token, 0))) + amount
    ensures change == Revert ==> w.Snapshot() == old(w.Snapshot())
  {
    DctPaymentRuns(w.Snapshot(), caller, sc, token, amount, change);
    var _ := w.ExecuteDctTransfer(caller, sc, token, 0, amount, ReceiveDct(token, amount, change));
  }

  /** A token payment moves 1000 units; the body sees the token and the
      amount through the single-transfer accessors. */
  method TestDctPaymentOk() returns (w: BlockchainStateWrapper, caller: Address, sc: Address)
    ensures BalanceAt(w.Snapshot(), DctKey(caller, COOL_TOKEN, 0)) == 0
    ensures BalanceAt(w.Snapshot(), DctKey(sc, COOL_TOKEN, 0)) == 3000
  {
    w, caller, sc := NewUserAndContract(0, 0, false);
    var _ := w.SetDctBalance(caller, COOL_TOKEN, 1000);
    var _ := w.SetDctBalance(sc, COOL_TOKEN, 2000);
    CallDctPayment(w, caller, sc, COOL_TOKEN, 1000, Commit);
  }

  /** A reverted token payment leaves both balances as they were. */
  method TestDctPaymentReverted() returns (w: BlockchainStateWrapper, caller: Address, sc: Address)
    ensures BalanceAt(w.Snapshot(), DctKey(caller, COOL_TOKEN, 0)) == 1000
    ensures BalanceAt(w.Snapshot(), DctKey(sc, COOL_TOKEN, 0)) == 2000
  {
    w, caller, sc := NewUserAndContract(0, 0, false);
    var _ := w.SetDctBalance(caller, COOL_TOKEN, 1000);
    var _ := w.SetDctBalance(sc, COOL_TOKEN, 2000);
    CallDctPayment(w, caller, sc, COOL_TOKEN, 1000, Revert);
  }

  /** The contract sends 400 of its 1000 units of nonce 2 to the user;
      both hold the instance's attributes. */
  method TestScSendNftToUser() returns (w: BlockchainStateWrapper, user: Address, sc: Address)
    ensures BalanceAt(w.Snapshot(), DctKey(user, COOL_TOKEN, 2)) == 400
    ensures BalanceAt(w.Snapshot(), DctKey(sc, COOL_TOKEN, 2)) == 600
    ensures AttributesAt(w.Snapshot(), DctKey(user, COOL_TOKEN, 2)) == Some(NFT_ATTRIBUTES)
    ensures AttributesAt(w.Snapshot(), DctKey(sc, COOL_TOKEN, 2)) == Some(NFT_ATTRIBUTES)
  {
    w := new BlockchainStateWrapper();
    user := w.CreateUserAccount(0);
    sc := w.CreateScAccount(0, None, SC_WASM_PATH);
    var _ := w.SetNftBalance(sc, COOL_TOKEN, 2, 1000, NFT_ATTRIBUTES);
    var input := CallValue.TxInput(0, []);
    var paid := ApplyPayment(w.Snapshot(), user, sc, input);
    assert paid.Success?;
    var sent := DctTransfer(paid.value, sc, user, COOL_TOKEN, 2, 400);
    assert sent.Success?;
    assert SendNft(sc, user, COOL_TOKEN, 2, 400)(paid.value, input) == Then(sent, Commit);
    var r := w.ExecuteTx(user, sc, 0, SendNft(sc, user, COOL_TOKEN, 2, 400));
    assert r == Success(Commit);
  }

  /** A transaction from `caller` into the contract's mint endpoint. */
  method CallMint(w: BlockchainStateWrapper, caller: Address, sc: Address, token: Bytes, nonce: u64, amount: nat)
    requires AccountExists(w.Snapshot(), caller) && AccountExists(w.Snapshot(), sc)
    requires HasRole(w.Snapshot(), sc, token, MintRole(nonce))
    modifies w
    ensures BalanceAt(w.Snapshot(), DctKey(sc, token, nonce)) == old(BalanceAt(w.Snapshot(), DctKey(sc, token, nonce))) + amount
    ensures forall k :: k != DctKey(sc, token, nonce) ==> BalanceAt(w.Snapshot(), k) == old(BalanceAt(w.Snapshot(), k))
    ensures w.Snapshot().(dct := old(w.Snapshot()).dct) == old(w.Snapshot())
  {
    MintCommits(w.Snapshot(), caller, sc, token, nonce, amount);
    var _ := w.ExecuteTx(caller, sc, 0, MintDct(sc, token, nonce, amount));
  }

  /** A transaction from `caller` into the contract's burn endpoint. */
  method CallBurn(w: BlockchainStateWrapper, caller: Address, sc: Address, token: Bytes, nonce: u64, amount: nat)
    requires AccountExists(w.Snapshot(), caller) && AccountExists(w.Snapshot(), sc)
    requires HasRole(w.Snapshot(), sc, token, BurnRole(nonce))
    requires amount <= BalanceAt(w.Snapshot(), DctKey(sc, token, nonce))
    modifies w
    ensures BalanceAt(w.Snapshot(), DctKey(sc, token, nonce)) == old(BalanceAt(w.Snapshot(), DctKey(sc, token, nonce))) - amount
    ensures forall k :: k != DctKey(sc, token, nonce) ==> BalanceAt(w.Snapshot(), k) == old(BalanceAt(w.Snapshot(), k))
    ensures w.Snapshot().(dct := old(w.Snapshot()).dct) == old(w.Snapshot())
  {
    BurnCommits(w.Snapshot(), caller, sc, token, nonce, amount);
    var _ := w.ExecuteTx(caller, sc, 0, BurnDct(sc, token, nonce, amount));
  }

  /** Minting 400 and then burning 100 leaves 300. */
  method TestScDctMintBurn() returns (w: BlockchainStateWrapper, sc: Address, afterMint: nat)
    ensures afterMint == 400
    ensures BalanceAt(w.Snapshot(), DctKey(sc, COOL_TOKEN, 0)) == 300
  {
    var caller;
    w, caller, sc := NewUserAndContract(0, 0, false);
    var _ := w.SetDctLocalRoles(sc, COOL_TOKEN, {Mint, Burn});
    CallMint(w, caller, sc, COOL_TOKEN, 0, 400);
    afterMint := BalanceAt(w.Snapshot(), DctKey(sc, COOL_TOKEN, 0));
    CallBurn(w, caller, sc, COOL_TOKEN, 0, 100);
  }

  /** Two created instances get nonces 1 and 2 with 100 units each; a
      mint on nonce 1 and a burn on nonce 2 touch only their instance. */
  method TestScNft() returns (w: BlockchainStateWrapper, sc: Address, created: (nat, nat), minted: (nat, nat))
    ensures created == (100, 100) && minted == (200, 100)
    ensures BalanceAt(w.Snapshot(), DctKey(sc, COOL_TOKEN, 1)) == 200
    ensures BalanceAt(w.Snapshot(), DctKey(sc, COOL_TOKEN, 2)) == 50
    ensures AttributesAt(w.Snapshot(), DctKey(sc, COOL_TOKEN, 1)) == Some(NFT_ATTRIBUTES)
    ensures AttributesAt(w.Snapshot(), DctKey(sc, COOL_TOKEN, 2)) == Some(NFT_ATTRIBUTES)
  {
    var caller;
    w, caller, sc := NewUserAndContract(0, 0, false);
    var _ := w.SetDctLocalRoles(sc, COOL_TOKEN, {NftCreate, NftAddQuantity, NftBurn});
    CreateTwoNftsCommits(w.Snapshot(), caller, sc, COOL_TOKEN, 100, NFT_ATTRIBUTES);
    var _ := w.ExecuteTx(caller, sc, 0, CreateTwoNfts(sc, COOL_TOKEN, 100, NFT_ATTRIBUTES));
    created := (BalanceAt(w.Snapshot(), DctKey(sc, COOL_TOKEN, 1)), BalanceAt(w.Snapshot(), DctKey(sc, COOL_TOKEN, 2)));
    CallMint(w, caller, sc, COOL_TOKEN, 1, 100);
    minted := (BalanceAt(w.Snapshot(), DctKey(sc, COOL_TOKEN, 1)), BalanceAt(w.Snapshot(), DctKey(sc, COOL_TOKEN, 2)));
    CallBurn(w, caller, sc, COOL_TOKEN, 2, 50);
  }

  /** A transaction from `caller` paying two transfers of different
      instances into the contract's multi-transfer endpoint. */
  method CallMultiTransfer(w: BlockchainStateWrapper, caller: Address, sc: Address, a: CallValue.TxInputDct, b: CallValue.TxInputDct)
    requires AccountExists(w.Snapshot(), caller) && AccountExists(w.Snapshot(), sc) && caller != sc
    requires (a.tokenIdentifier, a.nonce) != (b.tokenIdentifier, b.nonce)
    requires a.value <= BalanceAt(w.Snapshot(), DctKey(caller, a.tokenIdentifier, a.nonce))
    requires b.value <= BalanceAt(w.Snapshot(), DctKey(caller, b.tokenIdentifier, b.nonce))
    modifies w
    ensures BalanceAt(w.Snapshot(), DctKey(sc, a.tokenIdentifier, a.nonce))
         == old(BalanceAt(w.Snapshot(), DctKey(sc, a.tokenIdentifier, a.nonce))) + a.value
    ensures BalanceAt(w.Snapshot(), DctKey(sc, b.tokenIdentifier, b.nonce))
         == old(BalanceAt(w.Snapshot(), DctKey(sc, b.tokenIdentifier, b.nonce))) + b.value
    ensures old(DctKey(caller, b.tokenIdentifier, b.nonce) in w.Snapshot().attributes) ==>
              (AttributesAt(w.Snapshot(), DctKey(sc, b.tokenIdentifier, b.nonce))
               == old(AttributesAt(w.Snapshot(), DctKey(caller, b.tokenIdentifier, b.nonce))))
  {
    MultiTransferDelivers(w.Snapshot(), caller, sc, a, b);
    var _ := w.ExecuteDctMultiTransfer(caller, sc, [a, b], ReceiveMultiDct([a, b]));
  }

  /** Two transfers in one call; the body sees both, in order, through
      the indexed accessors, and the contract receives both. */
  method TestDctMultiTransfer() returns (w: BlockchainStateWrapper, caller: Address, sc: Address)
    ensures BalanceAt(w.Snapshot(), DctKey(sc, COOL_TOKEN, 0)) == 100
    ensures BalanceAt(w.Snapshot(), DctKey(sc, VERY_COOL_TOKEN, 5)) == 1
    ensures AttributesAt(w.Snapshot(), DctKey(sc, VERY_COOL_TOKEN, 5)) == Some([])
  {
    w, caller, sc := NewUserAndContract(0, 0, false);
    var _ := w.SetDctBalance(caller, COOL_TOKEN, 100);
    var _ := w.SetNftBalance(caller, VERY_COOL_TOKEN, 5, 1, []);
    CallMultiTransfer(w, caller, sc, CallValue.TxInputDct(COOL_TOKEN, 0, 100), CallValue.TxInputDct(VERY_COOL_TOKEN, 5, 1));
  }

  /** A query sees the contract's balance. */
  method TestQuery() returns (balance: nat)
    ensures balance == 2000
  {
    var w := new BlockchainStateWrapper();
    var sc := w.CreateScAccount(2000, None, SC_WASM_PATH);
    balance := w.ExecuteQuery(sc, (s: WorldState, callee: Address, input: CallValue.TxInput) => MoaxOf(s, callee));
  }

  /** A fungible balance set by the driver is what the driver checks
      and what the contract reads: 1000. */
  method TestDctBalance() returns (checked: bool, balance: nat)
    ensures checked && balance == 1000
  {
    var w := new BlockchainStateWrapper();
    var sc := w.CreateScAccount(0, None, SC_WASM_PATH);
    var _ := w.SetDctBalance(sc, COOL_TOKEN, 1000);
    checked := w.CheckDctBalance(sc, COOL_TOKEN, 1000);
    balance := w.ExecuteQuery(sc, (s: WorldState, callee: Address, input: CallValue.TxInput) => BalanceAt(s, DctKey(callee, COOL_TOKEN, 0)));
  }

  /** An instance balance and its attributes set by the driver are what
      the driver checks; the contract reads the balance: 1000. */
  method TestNftBalance() returns (checked: bool, balance: nat)
    ensures checked && balance == 1000
  {
    var w := new BlockchainStateWrapper();
    var sc := w.CreateScAccount(0, None, SC_WASM_PATH);
    var _ := w.SetNftBalance(sc, COOL_TOKEN, 2, 1000, NFT_ATTRIBUTES);
    checked := w.CheckNftBalance(sc, COOL_TOKEN, 2, 1000, NFT_ATTRIBUTES);
    balance := w.ExecuteQuery(sc, (s: WorldState, callee: Address, input: CallValue.TxInput) => BalanceAt(s, DctKey(callee, COOL_TOKEN, 2)));
  }

  /** The deploy step of the storage tests: init sets the total to 1.
      Also the first step of the execute-on-dest tests, with 5. */
  method CallSetTotalValue(w: BlockchainStateWrapper, caller: Address, sc: Address, value: nat)
    requires AccountExists(w.Snapshot(), caller) && AccountExists(w.Snapshot(), sc) && sc in w.Snapshot().storage
    modifies w
    ensures TotalValue(w.Snapshot(), sc) == value
    ensures forall key :: key != TOTAL_VALUE_KEY ==> StorageGet(w.Snapshot(), sc, key) == old(StorageGet(w.Snapshot(), sc, key))
    ensures w.Snapshot().(storage := old(w.Snapshot()).storage) == old(w.Snapshot())
    ensures w.Snapshot().storage.Keys == old(w.Snapshot()).storage.Keys
  {
    SetTotalValueFinishes(w.Snapshot(), sc, value);
    WriteValueEffect(w.Snapshot(), sc, TOTAL_VALUE_KEY, value);
    UnpaidCallCommits(w.Snapshot(), caller, sc, SetTotalValue(sc, value), WriteValue(w.Snapshot(), sc, TOTAL_VALUE_KEY, value).value);
    var _ := w.ExecuteTx(caller, sc, 0, SetTotalValue(sc, value));
  }

  /** The deploy step followed by the storage tests' second transaction. */
  method DeployAndAddFifty(change: StateChange) returns (w: BlockchainStateWrapper, user: Address, sc: Address)
    ensures change == Commit ==> TotalValue(w.Snapshot(), sc) == 51 && ValuePerCaller(w.Snapshot(), sc, user) == 50
    ensures change == Revert ==> TotalValue(w.Snapshot(), sc) == 1 && ValuePerCaller(w.Snapshot(), sc, user) == 0
  {
    w, user, sc := NewUserAndContract(0, 0, false);
    ghost var s0 := w.Snapshot();
    assert StorageGet(s0, sc, ValuePerCallerKey(user)) == [];
    CallSetTotalValue(w, user, sc, 1);
    assert |TOTAL_VALUE_KEY| < |ValuePerCallerKey(user)|;
    assert ValuePerCaller(w.Snapshot(), sc, user) == 0;
    AddFiftyAfterInit(w.Snapshot(), user, sc, change);
    var _ := w.ExecuteTx(user, sc, 0, AddFifty(sc, user, change));
  }

  /** Storage written by a committed call persists: total 51, the
      caller's share 50. */
  method StorageCheckTest() returns (w: BlockchainStateWrapper, user: Address, sc: Address)
    ensures TotalValue(w.Snapshot(), sc) == 51 && ValuePerCaller(w.Snapshot(), sc, user) == 50
  {
    w, user, sc := DeployAndAddFifty(Commit);
  }

  /** Storage written by a reverted call is gone: total 1, the caller's
      share 0. */
  method StorageRevertTest() returns (w: BlockchainStateWrapper, user: Address, sc: Address)
    ensures TotalValue(w.Snapshot(), sc) == 1 && ValuePerCaller(w.Snapshot(), sc, user) == 0
  {
    w, user, sc := DeployAndAddFifty(Revert);
  }

  /** Values written directly by a committed body are what a later
      query reads: 50 and 50. */
  method StorageSetTest() returns (w: BlockchainStateWrapper, user: Address, sc: Address)
    ensures TotalValue(w.Snapshot(), sc) == 50 && ValuePerCaller(w.Snapshot(), sc, user) == 50
  {
    w, user, sc := NewUserAndContract(0, 0, false);
    CallSetTotalValue(w, user, sc, 1);
    SetBothCommits(w.Snapshot(), user, sc, 50);
    var _ := w.ExecuteTx(user, sc, 0, SetBoth(sc, user, 50));
  }

  /** The block context setters are what a query reads back. */
  method BlockchainStateTest() returns (seen: BlockInfo)
    ensures seen == BlockInfo(10, 20, 30)
  {
    var w := new BlockchainStateWrapper();
    var sc := w.CreateScAccount(0, None, SC_WASM_PATH);
    w.SetBlockEpoch(10);
    w.SetBlockNonce(20);
    w.SetBlockTimestamp(30);
    seen := w.ExecuteQuery(sc, (s: WorldState, callee: Address, input: CallValue.TxInput) => s.block);
  }

  /** A user, a contract and a second contract, as in the two
      execute-on-dest tests; the second contract's total is set to 5. */
  method NewTwoContracts() returns (w: BlockchainStateWrapper, user: Address, sc: Address, other: Address)
    ensures fresh(w)
    ensures AccountExists(w.Snapshot(), user) && AccountExists(w.Snapshot(), sc) && AccountExists(w.Snapshot(), other)
    ensures other in w.Snapshot().storage && TotalValue(w.Snapshot(), other) == 5
  {
    w, user, sc := NewUserAndContract(0, 0, false);
    other := w.CreateScAccount(0, None, SC_WASM_PATH);
    CallSetTotalValue(w, user, other, 5);
  }

  /** A query that calls into the other contract on its own context sees
      the total set before: 5. */
  method ExecuteOnDestContextQueryTest() returns (result: nat)
    ensures result == 5
  {
    var w, user, sc, other := NewTwoContracts();
    NestedQueryReads(w.Snapshot(), sc, other);
    result := w.ExecuteQuery(sc, CallOtherContractExecuteOnDest(other));
  }

  /** A transaction into the contract's execute-on-dest add endpoint
      ends with the callee's add committed. */
  method CallExecuteOnDestAdd(w: BlockchainStateWrapper, user: Address, sc: Address, other: Address, value: nat)
    requires AccountExists(w.Snapshot(), user) && AccountExists(w.Snapshot(), sc) && AccountExists(w.Snapshot(), other)
    requires other in w.Snapshot().storage
    modifies w
    ensures AddValue(old(w.Snapshot()), other, sc, value).Success?
    ensures w.Snapshot() == AddValue(old(w.Snapshot()), other, sc, value).value
  {
    NestedAddValue(w.Snapshot(), user, sc, other, value);
    var _ := w.ExecuteTx(user, sc, 0, ExecuteOnDestAddValue(sc, other, value));
  }

  /** A call on the caller's context into another contract's add
      endpoint is kept with the outer commit: 5 + 5. */
  method ExecuteOnDestContextChangeStateTest() returns (w: BlockchainStateWrapper, other: Address)
    ensures TotalValue(w.Snapshot(), other) == 10
  {
    var user, sc;
    w, user, sc, other := NewTwoContracts();
    ghost var s := w.Snapshot();
    CallExecuteOnDestAdd(w, user, sc, other, 5);
    AddRaisesTotal(s, other, sc, 5);
  }

}
