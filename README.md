# Mock blockchain core of the dharitri-wasm debug framework, in Dafny

This project models three parts of the Rust smart-contract framework's off-chain test support.

- **The call-value resolver** tells a running contract what it was paid: the MOAX value, the attached token (DCT) transfers, and the single-transfer and indexed accessors over them. The single-transfer accessors abort with status 10 when more than one transfer is attached. Module `CallValue`.
- **The blockchain state wrapper** is the ledger that the testing-framework tests drive.
  - It holds accounts, MOAX and token balances keyed by (address, token, nonce), NFT attributes, local roles, the last NFT nonce per (address, token), raw contract storage and the block context.
  - A transaction snapshots the ledger, pre-applies the payment and runs the contract body. On a commit it keeps the result; on a revert or an abort it restores the snapshot.
  - A nested execute-on-dest-context call is the same machine run on the caller's provisional state.
  - The ledger is a value in module `Ledger`, with supply-conservation lemmas. Module `Executor` holds the transaction semantics.
  - `StateWrapper.BlockchainStateWrapper` is a class whose map fields its methods update in place. Each method is specified against the `Ledger`/`Executor` functions applied to the state before the call.
  - Module `FrameworkTests` replays each test of the testing-framework test file against the wrapper. Each test method promises, in its postcondition, the balances, nonces, attributes and storage values that the test checks.
- **`DctTokenPaymentMultiArg`** wraps a token payment so that it travels as three positional arguments or results: token identifier, nonce, amount. Module `PaymentMultiArg` covers:
  - wrapping and unwrapping;
  - loading from the argument stream, pushing as call arguments, finishing as endpoint results;
  - managed-vector storage delegated to the inner payment.

Amounts are unbounded naturals. Nonces are `u64` (a newtype bounded by 2^64 - 1). Token identifiers, storage keys and values and NFT attributes are byte sequences.

## Model

Source paths are relative to the repository root. The ledger, executor, wrapper and test rows cite the testing-framework test file, whose calls pin down the wrapper's behaviour.

| member | source | states |
|---|---|---|
| CallValue.FailIfMoreThanOneDctTransfer | dharitri-wasm-debug/src/api/call_value_api_mock.rs:9-16 | passes exactly when at most one token transfer is attached, otherwise fails with status 10 and the too-many-transfers message |
| CallValue.CheckNotPayable | dharitri-wasm-debug/src/api/call_value_api_mock.rs:20-33 | passes iff the call pays no MOAX, pays no token value and carries at most one transfer. A MOAX payment fails first, with the non-payable-MOAX message. Two or more transfers fail through the single-value accessor with the too-many message. One transfer with a positive value fails with the non-payable-DCT message |
| CallValue.DctValue | dharitri-wasm-debug/src/api/call_value_api_mock.rs:40-44 | fails iff more than one transfer is attached; otherwise 0 for none, or the amount of the only transfer |
| CallValue.Token | dharitri-wasm-debug/src/api/call_value_api_mock.rs:46-50 | fails iff more than one transfer is attached; otherwise MOAX for none, or the identifier of the only transfer |
| CallValue.DctTokenNonce | dharitri-wasm-debug/src/api/call_value_api_mock.rs:52-56 | fails iff more than one transfer is attached; otherwise 0 for none, or the nonce of the only transfer |
| CallValue.DctTokenType | dharitri-wasm-debug/src/api/call_value_api_mock.rs:58-62 | fails iff more than one transfer is attached; Fungible iff there is no transfer or its nonce is 0; NonFungible iff its nonce is non-zero |
| CallValue.MoaxValue | dharitri-wasm-debug/src/api/call_value_api_mock.rs:36-38 | the MOAX value is the one the call carries |
| CallValue.DctNumTransfers | dharitri-wasm-debug/src/api/call_value_api_mock.rs:65-67 | the transfer count is the length of the attached list |
| CallValue.DctValueByIndex | dharitri-wasm-debug/src/api/call_value_api_mock.rs:70-76 | the amount of the transfer at the index, or 0 past the end |
| CallValue.TokenByIndex | dharitri-wasm-debug/src/api/call_value_api_mock.rs:79-87 | the identifier of the transfer at the index, or MOAX past the end |
| CallValue.DctTokenNonceByIndex | dharitri-wasm-debug/src/api/call_value_api_mock.rs:90-96 | the nonce of the transfer at the index, or 0 past the end |
| CallValue.DctTokenTypeByIndex | dharitri-wasm-debug/src/api/call_value_api_mock.rs:98-105 | Fungible iff the index is past the end or the transfer at the index has nonce 0 |
| CallValue.IndexedAccessorsRecoverTransfers | dharitri-wasm-debug/src/api/call_value_api_mock.rs:64-96 | the transfer count is the list length, and the indexed accessors over indices below it give back exactly the attached list, in order |
| CallValue.IndexedAccessorsDefaults | dharitri-wasm-debug/src/api/call_value_api_mock.rs:69-105 | past the end, the value is 0, the token is MOAX, the nonce is 0 and the type is Fungible |
| CallValue.SingleAccessorsAreIndexZero | dharitri-wasm-debug/src/api/call_value_api_mock.rs:40-62 | with at most one transfer, each single-transfer accessor answers what its index-0 accessor answers |
| CallValue.MultiTransferAccess | dharitri-wasm-debug/src/api/call_value_api_mock.rs:40-96 | with two or more transfers, all four single-transfer accessors fail with status 10 and the too-many message while the indexed accessors still answer |
| Ledger.CreateAccount | contracts/feature-tests/rust-testing-framework-tester/tests/rust_testing_framework-test.rs:75-84 | a new account is fresh, exists afterwards with the given MOAX and empty storage, is recorded as a contract iff it is one, with the given owner and code path; every other account keeps its MOAX, storage and contract record, token balances, attributes, roles, nonce counters and the block are unchanged, and the ledger invariant holds |
| Ledger.SetNftBalance | contracts/feature-tests/rust-testing-framework-tester/tests/rust_testing_framework-test.rs:243-282 | succeeds iff the account exists, otherwise reports it missing; on success the instance holds exactly the balance and the attributes, every other balance and attribute is unchanged, and nothing else in the ledger changes |
| Ledger.SetDctBalance | contracts/feature-tests/rust-testing-framework-tester/tests/rust_testing_framework-test.rs:144-165 | succeeds iff the account exists, otherwise reports it missing; on success the fungible (nonce 0) balance is exactly the amount, every other balance is unchanged, and nothing but token balances changes |
| Ledger.SetDctLocalRoles | contracts/feature-tests/rust-testing-framework-tester/tests/rust_testing_framework-test.rs:354-358 | succeeds iff the account exists, otherwise reports it missing; on success the account holds a role for the token iff the role is in the given list, the roles of every other (account, token) are unchanged, and nothing but roles changes |
| Ledger.SettersPreserveValidity | contracts/feature-tests/rust-testing-framework-tester/tests/rust_testing_framework-test.rs:144-165 | every successful driver setter keeps the ledger invariant |
| Ledger.MoaxTransfer | contracts/feature-tests/rust-testing-framework-tester/tests/rust_testing_framework-test.rs:75-96 | succeeds iff both accounts exist and the sender holds enough; otherwise names the first missing account or reports insufficient funds |
| Ledger.MoaxTransferMoves | contracts/feature-tests/rust-testing-framework-tester/tests/rust_testing_framework-test.rs:75-96 | the sender loses the amount, the receiver gains it, and nothing else changes |
| Ledger.MoaxTransferConserves | contracts/feature-tests/rust-testing-framework-tester/tests/rust_testing_framework-test.rs:75-96 | total MOAX and the ledger invariant are preserved |
| Ledger.DctTransfer | contracts/feature-tests/rust-testing-framework-tester/tests/rust_testing_framework-test.rs:168-203 | succeeds iff both accounts exist and the sender holds enough of that nonce; otherwise names the error |
| Ledger.DctTransferMoves | contracts/feature-tests/rust-testing-framework-tester/tests/rust_testing_framework-test.rs:285-340 | debits one instance and credits the receiver's; the receiver gets the sender's attributes; nothing else changes |
| Ledger.DctTransferConserves | contracts/feature-tests/rust-testing-framework-tester/tests/rust_testing_framework-test.rs:168-203 | the supply of every token nonce, total MOAX and the invariant are preserved |
| Ledger.LocalMint | contracts/feature-tests/rust-testing-framework-tester/tests/rust_testing_framework-test.rs:354-368 | succeeds iff the account exists and holds the mint role for the nonce (Mint for fungible units, NftAddQuantity for an instance); a missing role is reported |
| Ledger.LocalBurn | contracts/feature-tests/rust-testing-framework-tester/tests/rust_testing_framework-test.rs:370-378 | succeeds iff the account exists, holds the burn role for the nonce and has enough units; otherwise reports the role or the shortfall |
| Ledger.LocalMintEffect | contracts/feature-tests/rust-testing-framework-tester/tests/rust_testing_framework-test.rs:360-368 | a mint raises the instance's balance and its supply by the amount, changes no other balance or anything but token balances, and keeps the invariant |
| Ledger.LocalBurnEffect | contracts/feature-tests/rust-testing-framework-tester/tests/rust_testing_framework-test.rs:370-378 | a burn lowers the instance's balance and its supply by the amount, changes no other balance or anything but token balances, and keeps the invariant |
| Ledger.MintBurnTouchOnlyTheirInstance | contracts/feature-tests/rust-testing-framework-tester/tests/rust_testing_framework-test.rs:343-379 | a mint adds and a burn removes the amount on exactly one instance, and moves that token's supply by the amount |
| Ledger.CreateNft | contracts/feature-tests/rust-testing-framework-tester/tests/rust_testing_framework-test.rs:405-420 | succeeds iff the account exists, holds NftCreate and the counter has not reached 2^64 - 1; the nonce returned is the last one plus 1 |
| Ledger.CreateNftEffect | contracts/feature-tests/rust-testing-framework-tester/tests/rust_testing_framework-test.rs:405-438 | the new instance holds the amount and the attributes, its nonce becomes the last one, and no other balance or counter moves |
| Ledger.CreateNftNoncesIncrease | contracts/feature-tests/rust-testing-framework-tester/tests/rust_testing_framework-test.rs:405-420 | consecutive creations for one (account, token) get consecutive nonces, even with another token's creation in between |
| Ledger.StorageSet | contracts/feature-tests/rust-testing-framework-tester/tests/rust_testing_framework-test.rs:687-722 | succeeds iff the account has storage, otherwise reports the account missing; the key reads back the value; every other (account, key) reads as before, and nothing but storage changes |
| Ledger.StorageSetPreservesValidity | contracts/feature-tests/rust-testing-framework-tester/tests/rust_testing_framework-test.rs:687-722 | a storage write keeps the ledger invariant and total MOAX |
| Executor.ApplyDctTransfers | contracts/feature-tests/rust-testing-framework-tester/tests/rust_testing_framework-test.rs:516-552 | no transfers leave the ledger as it is; one transfer is exactly the ledger's token transfer; success changes only token balances and attributes; a failure is a missing account or insufficient funds |
| Executor.ApplyDctTransfersDelivers | contracts/feature-tests/rust-testing-framework-tester/tests/rust_testing_framework-test.rs:516-560 | between distinct accounts, a successful transfer list credits the receiver and debits the sender, for every token nonce, by the list's total for that nonce, and changes no other account's balance |
| Executor.ApplyDctTransfersSucceeds | contracts/feature-tests/rust-testing-framework-tester/tests/rust_testing_framework-test.rs:516-560 | between distinct accounts, a non-empty transfer list succeeds iff both accounts exist and the sender holds, of every token nonce, at least the list's total for it |
| Executor.ApplyPayment | contracts/feature-tests/rust-testing-framework-tester/tests/rust_testing_framework-test.rs:86-92 | a failing MOAX transfer fails the payment with its error; on success the MOAX balances are those of the MOAX transfer and only balances and attributes change; with no token transfers the payment is the MOAX transfer |
| Executor.ApplyDctTransfersConserves | contracts/feature-tests/rust-testing-framework-tester/tests/rust_testing_framework-test.rs:487-561 | applying a transfer list keeps every supply, the invariant and the account count |
| Executor.ApplyPaymentConserves | contracts/feature-tests/rust-testing-framework-tester/tests/rust_testing_framework-test.rs:487-561 | pre-applying a payment keeps every supply and the invariant |
| Executor.MoaxPaymentMoves | contracts/feature-tests/rust-testing-framework-tester/tests/rust_testing_framework-test.rs:86-95 | a MOAX-only payment moves exactly its value from caller to callee and changes nothing else |
| Executor.UnpaidCallPaysNothing | contracts/feature-tests/rust-testing-framework-tester/tests/rust_testing_framework-test.rs:360-366 | an unpaid call between existing accounts leaves the ledger unchanged |
| Executor.UnpaidCallCommits | contracts/feature-tests/rust-testing-framework-tester/tests/rust_testing_framework-test.rs:360-366 | an unpaid call ends in whatever state its body commits |
| Executor.SingleDctPayment | contracts/feature-tests/rust-testing-framework-tester/tests/rust_testing_framework-test.rs:181-190 | a call paid with one token transfer pays exactly that transfer |
| Executor.ExecuteTx | contracts/feature-tests/rust-testing-framework-tester/tests/rust_testing_framework-test.rs:99-119 | anything but a commit leaves the starting state; a failed payment reports its error; after a successful payment, a body that aborts fails with its failure, a body that reverts succeeds with Revert in the starting state, and a body that commits ends in the state it committed |
| Executor.RevertRestoresEverything | contracts/feature-tests/rust-testing-framework-tester/tests/rust_testing_framework-test.rs:99-119 | a body that sees the payment and reverts leaves the ledger as it was before the payment |
| Executor.ExecuteTxConserves | contracts/feature-tests/rust-testing-framework-tester/tests/rust_testing_framework-test.rs:75-241 | whatever the outcome, a transaction whose body conserves supply conserves every supply and the invariant |
| Executor.ExecuteOnDestContext | contracts/feature-tests/rust-testing-framework-tester/tests/rust_testing_framework-test.rs:755-825 | a nested call succeeds iff its transaction does; on a revert it hands back the caller's state, on a commit the callee's |
| Executor.NestedCommitIsProvisional | contracts/feature-tests/rust-testing-framework-tester/tests/rust_testing_framework-test.rs:789-825 | an outer revert discards a nested commit; an outer commit keeps it |
| Executor.UnpaidNestedCallCommits | contracts/feature-tests/rust-testing-framework-tester/tests/rust_testing_framework-test.rs:809-819 | an unpaid outer call that makes an unpaid nested call into a callee committing a state, and then commits, ends the transaction in exactly that state |
| StateWrapper.BlockchainStateWrapper.constructor | contracts/feature-tests/rust-testing-framework-tester/tests/rust_testing_framework-test.rs:76 | a new wrapper holds the empty ledger |
| StateWrapper.BlockchainStateWrapper.CreateUserAccount | contracts/feature-tests/rust-testing-framework-tester/tests/rust_testing_framework-test.rs:78 | the wrapper's new state is the ledger's account creation applied to the old state; the invariant holds |
| StateWrapper.BlockchainStateWrapper.CreateScAccount | contracts/feature-tests/rust-testing-framework-tester/tests/rust_testing_framework-test.rs:79-84 | the same, for a contract account with its owner and code path |
| StateWrapper.BlockchainStateWrapper.SetDctBalance | contracts/feature-tests/rust-testing-framework-tester/tests/rust_testing_framework-test.rs:155 | outcome and new state are those of the ledger setter, and the invariant is kept |
| StateWrapper.BlockchainStateWrapper.SetNftBalance | contracts/feature-tests/rust-testing-framework-tester/tests/rust_testing_framework-test.rs:259-265 | outcome and new state are those of the ledger setter, and the invariant is kept |
| StateWrapper.BlockchainStateWrapper.SetDctLocalRoles | contracts/feature-tests/rust-testing-framework-tester/tests/rust_testing_framework-test.rs:354-358 | outcome and new state are those of the ledger setter, and the invariant is kept |
| StateWrapper.BlockchainStateWrapper.CheckMoaxBalance | contracts/feature-tests/rust-testing-framework-tester/tests/rust_testing_framework-test.rs:94-95 | true iff the account exists and holds exactly that MOAX |
| StateWrapper.BlockchainStateWrapper.CheckDctBalance | contracts/feature-tests/rust-testing-framework-tester/tests/rust_testing_framework-test.rs:156 | true iff the account exists and holds exactly that many fungible units |
| StateWrapper.BlockchainStateWrapper.CheckNftBalance | contracts/feature-tests/rust-testing-framework-tester/tests/rust_testing_framework-test.rs:266-272 | true iff the account exists, holds exactly that many units of the instance and the instance carries exactly those attributes |
| StateWrapper.BlockchainStateWrapper.SetBlockEpoch | contracts/feature-tests/rust-testing-framework-tester/tests/rust_testing_framework-test.rs:739 | only the block epoch changes |
| StateWrapper.BlockchainStateWrapper.SetBlockNonce | contracts/feature-tests/rust-testing-framework-tester/tests/rust_testing_framework-test.rs:740 | only the block nonce changes |
| StateWrapper.BlockchainStateWrapper.SetBlockTimestamp | contracts/feature-tests/rust-testing-framework-tester/tests/rust_testing_framework-test.rs:741 | only the block timestamp changes |
| StateWrapper.BlockchainStateWrapper.TransferMoax | contracts/feature-tests/rust-testing-framework-tester/tests/rust_testing_framework-test.rs:86-92 | moves MOAX in place with the outcome and new state of the ledger's MOAX transfer, keeping the invariant |
| StateWrapper.BlockchainStateWrapper.TransferDct | contracts/feature-tests/rust-testing-framework-tester/tests/rust_testing_framework-test.rs:184-190 | moves token units in place with the outcome and new state of the ledger's token transfer, keeping the invariant |
| StateWrapper.BlockchainStateWrapper.PreApplyPayment | contracts/feature-tests/rust-testing-framework-tester/tests/rust_testing_framework-test.rs:516 | the in-place loop over the transfers has the outcome of the ledger's payment; on success the state is the paid ledger; the invariant is kept |
| StateWrapper.BlockchainStateWrapper.Restore | contracts/feature-tests/rust-testing-framework-tester/tests/rust_testing_framework-test.rs:99-119 | the wrapper's state becomes exactly the given snapshot |
| StateWrapper.BlockchainStateWrapper.ExecuteTxAny | contracts/feature-tests/rust-testing-framework-tester/tests/rust_testing_framework-test.rs:86-119 | the in-place snapshot, payment, body and restore end in the state and outcome of the executor's transaction; anything but a commit leaves the state as it was, and the invariant with it |
| StateWrapper.BlockchainStateWrapper.ExecuteTx | contracts/feature-tests/rust-testing-framework-tester/tests/rust_testing_framework-test.rs:86-92 | the in-place snapshot, payment, body and restore end in the state and outcome of the executor's transaction; anything but a commit leaves the state and the invariant as they were |
| StateWrapper.BlockchainStateWrapper.ExecuteDctTransfer | contracts/feature-tests/rust-testing-framework-tester/tests/rust_testing_framework-test.rs:181-190 | the same, for a call paid with one token transfer |
| StateWrapper.BlockchainStateWrapper.ExecuteDctMultiTransfer | contracts/feature-tests/rust-testing-framework-tester/tests/rust_testing_framework-test.rs:516-552 | the same, for a call paid with a transfer list |
| StateWrapper.BlockchainStateWrapper.ExecuteQuery | contracts/feature-tests/rust-testing-framework-tester/tests/rust_testing_framework-test.rs:568-577 | a query runs as the given contract, answers from the current ledger with an unpaid call, and changes nothing |
| FrameworkTests.BigUintRoundTrip | contracts/feature-tests/rust-testing-framework-tester/tests/rust_testing_framework-test.rs:599-630 | the contract's big-integer storage encoding decodes to the number written |
| FrameworkTests.WriteValueEffect | contracts/feature-tests/rust-testing-framework-tester/tests/rust_testing_framework-test.rs:687-722 | an integer write reads back as that integer and changes no other key and nothing but storage |
| FrameworkTests.AddValueEffect | contracts/feature-tests/rust-testing-framework-tester/tests/rust_testing_framework-test.rs:599-630 | the add endpoint raises the total and the caller's share by the value and changes nothing but storage |
| FrameworkTests.AddFiftyAfterInit | contracts/feature-tests/rust-testing-framework-tester/tests/rust_testing_framework-test.rs:599-683 | after init the storage tests' body sees 1 and 0 and ends with its verdict: a commit leaves 51 and 50, a revert leaves the ledger as it was |
| FrameworkTests.NestedAddValue | contracts/feature-tests/rust-testing-framework-tester/tests/rust_testing_framework-test.rs:809-819 | a committed outer call keeps the nested add into the other contract |
| FrameworkTests.NestedQueryReads | contracts/feature-tests/rust-testing-framework-tester/tests/rust_testing_framework-test.rs:777-785 | a nested call that changes nothing leaves the callee's total readable |
| FrameworkTests.MultiTransferDelivers | contracts/feature-tests/rust-testing-framework-tester/tests/rust_testing_framework-test.rs:500-560 | two transfers of different instances both arrive, with attributes; the body sees both, in order, through the indexed accessors |
| FrameworkTests.DctPaymentRuns | contracts/feature-tests/rust-testing-framework-tester/tests/rust_testing_framework-test.rs:168-241 | a token-paid call sees the token and the amount through the single-transfer accessors; a commit moves the units and a revert keeps nothing |
| FrameworkTests.MintCommits | contracts/feature-tests/rust-testing-framework-tester/tests/rust_testing_framework-test.rs:360-366 | the mint endpoint commits a mint of exactly one instance |
| FrameworkTests.BurnCommits | contracts/feature-tests/rust-testing-framework-tester/tests/rust_testing_framework-test.rs:370-376 | the burn endpoint commits a burn of exactly one instance |
| FrameworkTests.CreateTwoNftsCommits | contracts/feature-tests/rust-testing-framework-tester/tests/rust_testing_framework-test.rs:403-438 | the two creations get nonces 1 and 2, each with the amount and the attributes |
| FrameworkTests.SetBothCommits | contracts/feature-tests/rust-testing-framework-tester/tests/rust_testing_framework-test.rs:700-721 | writing both values directly leaves both readable as written |
| FrameworkTests.TestScPaymentOk | contracts/feature-tests/rust-testing-framework-tester/tests/rust_testing_framework-test.rs:75-96 | a committed payment of 1000 leaves the caller with 0 and the contract with 3000 |
| FrameworkTests.TestScPaymentReverted | contracts/feature-tests/rust-testing-framework-tester/tests/rust_testing_framework-test.rs:99-120 | a reverted payment leaves 1000 and 2000 |
| FrameworkTests.TestScHalfPayment | contracts/feature-tests/rust-testing-framework-tester/tests/rust_testing_framework-test.rs:123-142 | the contract sends half back: 500 and 2500 |
| FrameworkTests.TestDctBalance | contracts/feature-tests/rust-testing-framework-tester/tests/rust_testing_framework-test.rs:145-165 | a set fungible balance checks and reads as 1000 |
| FrameworkTests.TestDctPaymentOk | contracts/feature-tests/rust-testing-framework-tester/tests/rust_testing_framework-test.rs:168-203 | a committed token payment leaves 0 and 3000 |
| FrameworkTests.TestDctPaymentReverted | contracts/feature-tests/rust-testing-framework-tester/tests/rust_testing_framework-test.rs:206-241 | a reverted token payment leaves 1000 and 2000 |
| FrameworkTests.TestNftBalance | contracts/feature-tests/rust-testing-framework-tester/tests/rust_testing_framework-test.rs:244-282 | a set instance balance with attributes checks and reads as 1000 |
| FrameworkTests.TestScSendNftToUser | contracts/feature-tests/rust-testing-framework-tester/tests/rust_testing_framework-test.rs:285-340 | the contract sends 400 of its 1000 units of nonce 2: the user holds 400 and the contract 600, both with the attributes |
| FrameworkTests.TestScDctMintBurn | contracts/feature-tests/rust-testing-framework-tester/tests/rust_testing_framework-test.rs:343-379 | minting 400 reads 400; burning 100 then leaves 300 |
| FrameworkTests.TestScNft | contracts/feature-tests/rust-testing-framework-tester/tests/rust_testing_framework-test.rs:382-484 | nonces 1 and 2 hold 100 each with the attributes; a mint of 100 on nonce 1 gives 200 and leaves nonce 2 at 100; a burn of 50 on nonce 2 leaves 50 |
| FrameworkTests.TestDctMultiTransfer | contracts/feature-tests/rust-testing-framework-tester/tests/rust_testing_framework-test.rs:487-561 | after the two-transfer call the contract holds 100 fungible units and 1 unit of nonce 5 with empty attributes |
| FrameworkTests.TestQuery | contracts/feature-tests/rust-testing-framework-tester/tests/rust_testing_framework-test.rs:564-578 | a query reads the contract's balance of 2000 |
| FrameworkTests.StorageCheckTest | contracts/feature-tests/rust-testing-framework-tester/tests/rust_testing_framework-test.rs:581-631 | after a committed add of 50 the storage reads 51 and 50 |
| FrameworkTests.StorageRevertTest | contracts/feature-tests/rust-testing-framework-tester/tests/rust_testing_framework-test.rs:634-684 | after a reverted add the storage reads 1 and 0 |
| FrameworkTests.StorageSetTest | contracts/feature-tests/rust-testing-framework-tester/tests/rust_testing_framework-test.rs:687-722 | values written directly read as 50 and 50 |
| FrameworkTests.BlockchainStateTest | contracts/feature-tests/rust-testing-framework-tester/tests/rust_testing_framework-test.rs:725-752 | the block setters are what a query reads back: epoch 10, nonce 20, timestamp 30 |
| FrameworkTests.ExecuteOnDestContextQueryTest | contracts/feature-tests/rust-testing-framework-tester/tests/rust_testing_framework-test.rs:755-786 | a query that calls the other contract on its own context reads 5 |
| FrameworkTests.ExecuteOnDestContextChangeStateTest | contracts/feature-tests/rust-testing-framework-tester/tests/rust_testing_framework-test.rs:789-825 | a nested add of 5 into the other contract, kept by the outer commit, leaves its total at 10 |
| PaymentMultiArg.From | dharitri-wasm/src/types/general/dct_token_payment_multi_arg.rs:20-31 | unwrapping a wrapped payment gives the payment back |
| PaymentMultiArg.IntoDctTokenPayment | dharitri-wasm/src/types/general/dct_token_payment_multi_arg.rs:27-29 | wrapping the unwrapped payment gives the wrapper it came from |
| PaymentMultiArg.IntoThenFrom | dharitri-wasm/src/types/general/dct_token_payment_multi_arg.rs:20-31 | wrapping an unwrapped wrapper gives the wrapper back, so the two conversions are inverse |
| PaymentMultiArg.FlattenFollowsFieldOrder | dharitri-wasm/src/types/general/dct_token_payment_multi_arg.rs:12-14 | a wrapper is written as exactly three slots in the order token identifier, nonce, amount |
| PaymentMultiArg.FlattenInjective | dharitri-wasm/src/types/general/dct_token_payment_multi_arg.rs:81-85 | distinct wrappers are written differently |
| PaymentMultiArg.LoadSlot | dharitri-wasm/src/types/general/dct_token_payment_multi_arg.rs:53-55 | one field loads iff the next argument exists and is of that field's kind; a missing argument and a wrong kind each report their error |
| PaymentMultiArg.LoadPaymentConsumesThree | dharitri-wasm/src/types/general/dct_token_payment_multi_arg.rs:52-57 | a successful load consumes exactly three arguments, and they are the writing of the wrapper it returns |
| PaymentMultiArg.LoadFlattened | dharitri-wasm/src/types/general/dct_token_payment_multi_arg.rs:52-57 | three arguments that are a wrapper's writing load as that wrapper |
| PaymentMultiArg.LoadPaymentFails | dharitri-wasm/src/types/general/dct_token_payment_multi_arg.rs:52-57 | the load fails iff fewer than three arguments remain or one is not the expected field; the first failing field, in field order, decides the error |
| PaymentMultiArg.LoadAfterPush | dharitri-wasm/src/types/general/dct_token_payment_multi_arg.rs:52-85 | a wrapper's identifier, nonce and amount, pushed after any arguments, load back from where they start as that wrapper, and the load stops right after them; the wrapper here has no token-type field (see Left out) |
| PaymentMultiArg.ArgInput.constructor | dharitri-wasm/src/types/general/dct_token_payment_multi_arg.rs:52 | a loader starts at the first argument |
| PaymentMultiArg.ArgInput.NextArg | dharitri-wasm/src/types/general/dct_token_payment_multi_arg.rs:53-55 | loads one field, as the slot loader specifies, and advances past it on success |
| PaymentMultiArg.ArgOutput.PushArg | dharitri-wasm/src/types/general/dct_token_payment_multi_arg.rs:82-84 | pushing one field appends exactly that argument to the call arguments |
| PaymentMultiArg.DynLoad | dharitri-wasm/src/types/general/dct_token_payment_multi_arg.rs:52-57 | the in-place loader yields what the load specification yields, and on success ends at the position after the payment |
| PaymentMultiArg.PushDynArgRef | dharitri-wasm/src/types/general/dct_token_payment_multi_arg.rs:77-86 | appends exactly the wrapper's three slots to the call arguments, in load order |
| PaymentMultiArg.PushDynArg | dharitri-wasm/src/types/general/dct_token_payment_multi_arg.rs:88-95 | the owned form appends exactly what the borrowed form appends |
| PaymentMultiArg.FinishApi.FinishValue | dharitri-wasm/src/types/general/dct_token_payment_multi_arg.rs:71-73 | finishing one field appends exactly that value to the endpoint results |
| PaymentMultiArg.Finish | dharitri-wasm/src/types/general/dct_token_payment_multi_arg.rs:60-75 | appends exactly the wrapper's three slots to the endpoint results, in load order |
| PaymentMultiArg.PushThenLoad | dharitri-wasm/src/types/general/dct_token_payment_multi_arg.rs:52-95 | the identifier, nonce and amount of a wrapper pushed as call arguments load back as that wrapper; the wrapper here has no token-type field (see Left out) |
| PaymentMultiArg.FinishThenLoad | dharitri-wasm/src/types/general/dct_token_payment_multi_arg.rs:52-74 | the identifier, nonce and amount of a wrapper finished as results read back, as arguments, as that wrapper; the wrapper here has no token-type field (see Left out) |
| PaymentMultiArg.MultiArgItemCodec | dharitri-wasm/src/types/general/dct_token_payment_multi_arg.rs:33-46 | the wrapper's managed-vector payload size and re-serialization flag are the payment's; reading wraps the payment's reader, writing writes the inner payment |
| PaymentMultiArg.MultiArgItemCodecRoundTrips | dharitri-wasm/src/types/general/dct_token_payment_multi_arg.rs:33-46 | when the payment's managed-vector encoding reads back what it writes, so does the wrapper's |

## Left out

- The tester contract's own source is not part of this model. Its endpoints are written as transaction bodies from what the tests observe:
  - `init` is modelled as writing a total of 1;
  - storage integers use the big-endian minimal big-integer encoding;
  - the per-caller key is the prefix followed by the caller encoded the same way.
- FrameworkTests: these lemmas and helper methods are the test scenarios' setup steps and have no row of their own: `AddFinishes`, `AddCommits`, `AddRaisesTotal`, `SetTotalValueFinishes`, the `Call*` methods, `NewUserAndContract`, `DeployAndAddFifty` and `NewTwoContracts`. Each test row above rests on them.
- FrameworkTests.CallOtherContractExecuteOnDest: the value returned by the nested call is not modelled. The query reads the callee's total from the state after the nested call, which is the same value.
- The `sum` and `sum_sc_result` tests (test file lines 15-72) exercise contract arithmetic, not the mock blockchain; they are not modelled.
- The scenario generation and the multi-contract scenario test (test file lines 827-919) are left out because they write JSON scenario files.
- Error messages are symbolic constructors (`TooManyDctTransfers` and so on) rather than byte strings. Their text is defined in a module that is not part of this model.
- The driver's setters fail with `AccountNotFound` on an unknown address. The framework instead panics; the model turns the panic into a failure result.
- Panics in general become `Result` failures. Managed handles and the big-integer representation are left out; amounts are unbounded naturals.
- PaymentMultiArg: each of the three fields is one opaque argument slot, because the per-field codecs for TokenIdentifier, u64 and BigUint are not part of this model. A wrong-kind slot stands for a field that does not decode.
- PaymentMultiArg.FinishApi: `finish` clones the API handle per field. The model uses one result sink shared by the clones, which is what the clones write to.
- PaymentMultiArg.MultiArgItemCodec: the inner payment's managed-vector layout (payload size, byte reader and writer) is a parameter, because the payment's own implementation is not part of this model.
- The ABI metadata (`TypeAbi`, lines 97-108) is left out. It names the `MultiArg3` type, whose formatting is defined elsewhere.
- PaymentMultiArg.PushThenLoad, FinishThenLoad, LoadAfterPush: in the source, the load rebuilds the payment with `DctTokenPayment::new` from the three loaded values (line 56), and payment equality is derived, so it includes the token type. The source round trip therefore holds only for payments whose token type is the one `DctTokenPayment::new` sets. The model has no token-type field, so its round trip holds for every wrapper.
- The inner payment is modelled with three fields: identifier, nonce, amount. Its token-type field is not modelled and no member reads it, because `DctTokenPayment::new` is not part of this model.
- Concurrency, gas and the VM are out of scope. The execute-on-dest call is synchronous on the caller's provisional state.

## Non-payable endpoints and multiple transfers

- `check_not_payable` reads the token value through `dct_value`, which first refuses more than one transfer (call_value_api_mock.rs:27, 42, 10-15). So a non-payable endpoint called with two or more transfers aborts with the too-many-transfers message, even when every transfer carries zero. See `CallValue.CheckNotPayable`.
