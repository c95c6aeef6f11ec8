/** The transaction executor: the payment is applied before the contract
    body runs, so the body sees post-transfer balances; the body ends in
    Commit, which keeps its state, or in Revert, which restores the state
    the transaction started from, payment included. An abort anywhere
    (a failed payment, a panic, a failed assertion of the test body) is
    handled like a revert and reported. A nested execute-on-dest-context
    call is the same machine run on the enclosing call's provisional
    state. */
module Executor {
  import opened Types
  import opened Ledger
  import CallValue

  datatype StateChange = Commit | Revert

  datatype TxFailure =
    | LedgerFailure(error: LedgerError)
    | ContractPanic(panic: TxPanic)
    | AssertionFailed

  /** What a contract body ends with: its state and its verdict, or an abort. */
  datatype BodyOutcome = Finished(state: WorldState, change: StateChange) | Aborted(failure: TxFailure)

  /** A contract body: it sees the ledger after the payment and the call
      value of the transaction. */
  type TxBody = (WorldState, CallValue.TxInput) -> BodyOutcome

  datatype TxResult = TxResult(state: WorldState, outcome: Result<StateChange, TxFailure>)

  /** Applies the token transfers in list order, stopping at the first
      that fails. */
  function ApplyDctTransfers(s: WorldState, from: Address, to: Address, transfers: seq<CallValue.TxInputDct>)
    : (r: Result<WorldState, LedgerError>)
    ensures transfers == [] ==> r == Success(s)
    ensures |transfers| == 1 ==>
              r == DctTransfer(s, from, to, transfers[0].tokenIdentifier, transfers[0].nonce, transfers[0].value)
    ensures r.Success? ==> r.value.(dct := s.dct, attributes := s.attributes) == s
    ensures r.Failure? ==> r.error in {AccountNotFound(from), AccountNotFound(to), InsufficientFunds}
    decreases |transfers|
  {
    if transfers == [] then Success(s)
    else
      var t := transfers[0];
      match DctTransfer(s, from, to, t.tokenIdentifier, t.nonce, t.value)
      case Failure(e) => Failure(e)
      case Success(s1) => ApplyDctTransfers(s1, from, to, transfers[1..])
  }

  /** The units of one token nonce that a transfer list sends in total. */
  function TransferredAmount(transfers: seq<CallValue.TxInputDct>, token: Bytes, nonce: u64): nat
  {
    if transfers == [] then 0
    else
      (if transfers[0].tokenIdentifier == token && transfers[0].nonce == nonce then transfers[0].value else 0)
      + TransferredAmount(transfers[1..], token, nonce)
  }

  /** Between two distinct accounts, a successful transfer list credits
      the receiver and debits the sender, for every token nonce, by the
      sum of the list's amounts for that nonce, and leaves every other
      account's balances alone. */
  lemma {:induction false} ApplyDctTransfersDelivers(s: WorldState, from: Address, to: Address,
                                                      transfers: seq<CallValue.TxInputDct>, token: Bytes, nonce: u64)
    requires from != to && ApplyDctTransfers(s, from, to, transfers).Success?
    ensures var t := ApplyDctTransfers(s, from, to, transfers).value;
      && BalanceAt(t, DctKey(to, token, nonce)) == BalanceAt(s, DctKey(to, token, nonce)) + TransferredAmount(transfers, token, nonce)
      && BalanceAt(t, DctKey(from, token, nonce)) + TransferredAmount(transfers, token, nonce) == BalanceAt(s, DctKey(from, token, nonce))
      && (forall k: DctKey :: k.owner != from && k.owner != to ==> BalanceAt(t, k) == BalanceAt(s, k))
    decreases |transfers|
  {
    if transfers != [] {
      var x := transfers[0];
      DctTransferMoves(s, from, to, x.tokenIdentifier, x.nonce, x.value);
      var s1 := DctTransfer(s, from, to, x.tokenIdentifier, x.nonce, x.value).value;
      ApplyDctTransfersDelivers(s1, from, to, transfers[1..], token, nonce);
    }
  }

  /** Between two distinct accounts, a non-empty transfer list succeeds
      exactly when both accounts exist and the sender holds, of every
      token nonce, at least the list's total for it. */
  lemma {:induction false} ApplyDctTransfersSucceeds(s: WorldState, from: Address, to: Address,
                                                      transfers: seq<CallValue.TxInputDct>)
    requires from != to
    ensures ApplyDctTransfers(s, from, to, transfers).Success? <==>
      || transfers == []
      || (&& AccountExists(s, from) && AccountExists(s, to)
          && forall token, nonce :: TransferredAmount(transfers, token, nonce) <= BalanceAt(s, DctKey(from, token, nonce)))
    decreases |transfers|
  {
    if transfers != [] {
      var x := transfers[0];
      var rest := transfers[1..];
      var fx := DctKey(from, x.tokenIdentifier, x.nonce);
      if !AccountExists(s, from) || !AccountExists(s, to) {
      } else if x.value > BalanceAt(s, fx) {
        assert TransferredAmount(transfers, x.tokenIdentifier, x.nonce) >= x.value;
      } else {
        DctTransferMoves(s, from, to, x.tokenIdentifier, x.nonce, x.value);
        var s1 := DctTransfer(s, from, to, x.tokenIdentifier, x.nonce, x.value).value;
        ApplyDctTransfersSucceeds(s1, from, to, rest);
        assert forall token, nonce ::
          BalanceAt(s1, DctKey(from, token, nonce))
            == BalanceAt(s, DctKey(from, token, nonce)) - (if token == x.tokenIdentifier && nonce == x.nonce then x.value else 0);
        if rest == [] {
          forall token, nonce ensures TransferredAmount(transfers, token, nonce) <= BalanceAt(s, DctKey(from, token, nonce)) {
            assert TransferredAmount(rest, token, nonce) == 0;
          }
        }
      }
    }
  }

  /** The payment of a call: the MOAX value first, then every token
      transfer, from caller to callee. */
  function ApplyPayment(s: WorldState, from: Address, to: Address, input: CallValue.TxInput)
    : (r: Result<WorldState, LedgerError>)
    ensures MoaxTransfer(s, from, to, input.moaxValue).Failure? ==>
              r == Failure(MoaxTransfer(s, from, to, input.moaxValue).error)
    ensures r.Success? ==> r.value.moax == MoaxTransfer(s, from, to, input.moaxValue).value.moax
    ensures r.Success? ==> r.value.(moax := s.moax, dct := s.dct, attributes := s.attributes) == s
    ensures input.dctValues == [] ==> r == MoaxTransfer(s, from, to, input.moaxValue)
  {
    match MoaxTransfer(s, from, to, input.moaxValue)
    case Failure(e) => Failure(e)
    case Success(s1) => ApplyDctTransfers(s1, from, to, input.dctValues)
  }

  /** Applying a list of token transfers keeps the ledger invariant, the
      MOAX supply and the supply of every token nonce. */
  lemma {:induction false} ApplyDctTransfersConserves(s: WorldState, from: Address, to: Address,
                                                       transfers: seq<CallValue.TxInputDct>, token: Bytes, nonce: u64)
    requires ValidState(s) && ApplyDctTransfers(s, from, to, transfers).Success?
    ensures var t := ApplyDctTransfers(s, from, to, transfers).value;
      ValidState(t) && TotalMoax(t) == TotalMoax(s) && TokenSupply(t, token, nonce) == TokenSupply(s, token, nonce)
      && t.accountCount == s.accountCount
    decreases |transfers|
  {
    if transfers != [] {
      var x := transfers[0];
      DctTransferConserves(s, from, to, x.tokenIdentifier, x.nonce, x.value, token, nonce);
      var s1 := DctTransfer(s, from, to, x.tokenIdentifier, x.nonce, x.value).value;
      ApplyDctTransfersConserves(s1, from, to, transfers[1..], token, nonce);
    }
  }

  /** A payment keeps the ledger invariant and every supply. */
  lemma ApplyPaymentConserves(s: WorldState, from: Address, to: Address, input: CallValue.TxInput,
                              token: Bytes, nonce: u64)
    requires ValidState(s) && ApplyPayment(s, from, to, input).Success?
    ensures var t := ApplyPayment(s, from, to, input).value;
      ValidState(t) && TotalMoax(t) == TotalMoax(s) && TokenSupply(t, token, nonce) == TokenSupply(s, token, nonce)
  {
    MoaxTransferConserves(s, from, to, input.moaxValue);
    var s1 := MoaxTransfer(s, from, to, input.moaxValue).value;
    var w: nat -> nat := i => BalanceAt(s, DctKey(Address(i), token, nonce));
    SumBelowSame(w, i => BalanceAt(s1, DctKey(Address(i), token, nonce)), s.accountCount);
    ApplyDctTransfersConserves(s1, from, to, input.dctValues, token, nonce);
  }

  /** A MOAX-only payment moves exactly its value from caller to callee. */
  lemma MoaxPaymentMoves(s: WorldState, from: Address, to: Address, amount: nat)
    requires from != to && ApplyPayment(s, from, to, CallValue.TxInput(amount, [])).Success?
    ensures var t := ApplyPayment(s, from, to, CallValue.TxInput(amount, [])).value;
      && MoaxOf(t, from) == MoaxOf(s, from) - amount
      && MoaxOf(t, to) == MoaxOf(s, to) + amount
      && (forall a :: a != from && a != to ==> MoaxOf(t, a) == MoaxOf(s, a))
      && t.(moax := s.moax) == s
  {
    MoaxTransferMoves(s, from, to, amount);
  }

  /** An unpaid call between existing accounts leaves the ledger as it is. */
  lemma UnpaidCallPaysNothing(s: WorldState, from: Address, to: Address)
    requires AccountExists(s, from) && AccountExists(s, to)
    ensures MoaxTransfer(s, from, to, 0) == Success(s)
    ensures ApplyPayment(s, from, to, CallValue.TxInput(0, [])) == Success(s)
  {
    var debited := s.moax[from := s.moax[from] - 0];
    assert debited == s.moax;
    assert debited[to := debited[to] + 0] == s.moax;
  }

  /** An unpaid call between existing accounts ends with whatever its
      body commits. */
  lemma UnpaidCallCommits(s: WorldState, caller: Address, sc: Address, body: TxBody, t: WorldState)
    requires AccountExists(s, caller) && AccountExists(s, sc)
    requires body(s, CallValue.TxInput(0, [])) == Finished(t, Commit)
    ensures ExecuteTx(s, caller, sc, CallValue.TxInput(0, []), body) == TxResult(t, Success(Commit))
  {
    UnpaidCallPaysNothing(s, caller, sc);
  }

  /** A call paid with one token transfer and no MOAX pays exactly that
      transfer. */
  lemma SingleDctPayment(s: WorldState, from: Address, to: Address, t: CallValue.TxInputDct)
    requires AccountExists(s, from) && AccountExists(s, to)
    ensures ApplyPayment(s, from, to, CallValue.TxInput(0, [t])) == DctTransfer(s, from, to, t.tokenIdentifier, t.nonce, t.value)
  {
    UnpaidCallPaysNothing(s, from, to);
    assert [t][1..] == [];
    var r := DctTransfer(s, from, to, t.tokenIdentifier, t.nonce, t.value);
    if r.Success? {
      assert ApplyDctTransfers(r.value, from, to, []) == Success(r.value);
    }
  }

  /** One transaction: pre-apply the payment, run the body, keep or
      discard. */
  function ExecuteTx(s: WorldState, caller: Address, sc: Address, input: CallValue.TxInput, body: TxBody)
    : (r: TxResult)
    ensures r.outcome != Success(Commit) ==> r.state == s
    ensures ApplyPayment(s, caller, sc, input).Failure? ==>
              r.outcome == Failure(LedgerFailure(ApplyPayment(s, caller, sc, input).error))
    ensures r.outcome == Success(Commit) ==>
              && ApplyPayment(s, caller, sc, input).Success?
              && body(ApplyPayment(s, caller, sc, input).value, input) == Finished(r.state, Commit)
    ensures ApplyPayment(s, caller, sc, input).Success? ==>
              var o := body(ApplyPayment(s, caller, sc, input).value, input);
              && (o.Aborted? ==> r == TxResult(s, Failure(o.failure)))
              && (o.Finished? && o.change == Revert ==> r == TxResult(s, Success(Revert)))
              && (o.Finished? && o.change == Commit ==> r == TxResult(o.state, Success(Commit)))
  {
    match ApplyPayment(s, caller, sc, input)
    case Failure(e) => TxResult(s, Failure(LedgerFailure(e)))
    case Success(paid) =>
      match body(paid, input)
      case Finished(t, Commit) => TxResult(t, Success(Commit))
      case Finished(_, Revert) => TxResult(s, Success(Revert))
      case Aborted(f) => TxResult(s, Failure(f))
  }

  /** A body that observes the payment and reverts leaves the ledger
      exactly as it was before the payment. */
  lemma RevertRestoresEverything(s: WorldState, caller: Address, sc: Address, input: CallValue.TxInput, body: TxBody)
    requires ApplyPayment(s, caller, sc, input).Success?
    requires body(ApplyPayment(s, caller, sc, input).value, input).Finished?
    requires body(ApplyPayment(s, caller, sc, input).value, input).change == Revert
    ensures ExecuteTx(s, caller, sc, input, body) == TxResult(s, Success(Revert))
  {
  }

  /** The body's effects conserve supply at the state it ran on. */
  ghost predicate BodyConservesAt(body: TxBody, paid: WorldState, input: CallValue.TxInput, token: Bytes, nonce: u64)
  {
    body(paid, input).Finished? ==>
      var t := body(paid, input).state;
      ValidState(t) && TotalMoax(t) == TotalMoax(paid) && TokenSupply(t, token, nonce) == TokenSupply(paid, token, nonce)
  }

  /** A transaction whose body conserves supply conserves supply, whatever
      its outcome. */
  lemma ExecuteTxConserves(s: WorldState, caller: Address, sc: Address, input: CallValue.TxInput, body: TxBody,
                           token: Bytes, nonce: u64)
    requires ValidState(s)
    requires ApplyPayment(s, caller, sc, input).Success? ==>
               BodyConservesAt(body, ApplyPayment(s, caller, sc, input).value, input, token, nonce)
    ensures var t := ExecuteTx(s, caller, sc, input, body).state;
      ValidState(t) && TotalMoax(t) == TotalMoax(s) && TokenSupply(t, token, nonce) == TokenSupply(s, token, nonce)
  {
    if ApplyPayment(s, caller, sc, input).Success? {
      ApplyPaymentConserves(s, caller, sc, input, token, nonce);
    }
  }

  /** A synchronous call into `dest` on the caller's provisional state:
      a commit hands the callee's state back to the caller, a revert hands
      back the state from before the call, an abort propagates. */
  function ExecuteOnDestContext(s: WorldState, caller: Address, dest: Address, input: CallValue.TxInput, body: TxBody)
    : (r: Result<WorldState, TxFailure>)
    ensures r.Success? <==> ExecuteTx(s, caller, dest, input, body).outcome.Success?
    ensures ExecuteTx(s, caller, dest, input, body).outcome == Success(Revert) ==> r == Success(s)
    ensures ExecuteTx(s, caller, dest, input, body).outcome == Success(Commit) ==>
              r == Success(ExecuteTx(s, caller, dest, input, body).state)
  {
    var inner := ExecuteTx(s, caller, dest, input, body);
    match inner.outcome
    case Failure(f) => Failure(f)
    case Success(_) => Success(inner.state)
  }

  /** An outer body that makes a nested call and continues. */
  function CallThen(sc: Address, dest: Address, innerInput: CallValue.TxInput, innerBody: TxBody, change: StateChange)
    : TxBody
  {
    (s: WorldState, input: CallValue.TxInput) =>
      match ExecuteOnDestContext(s, sc, dest, innerInput, innerBody)
      case Failure(f) => Aborted(f)
      case Success(t) => Finished(t, change)
  }

  /** An inner commit is provisional: when the outer body reverts, the
      inner call's effects are undone with everything else. When the outer
      body commits, the inner commit stands. */
  lemma NestedCommitIsProvisional(s: WorldState, caller: Address, sc: Address, input: CallValue.TxInput,
                                  dest: Address, innerInput: CallValue.TxInput, innerBody: TxBody)
    requires ApplyPayment(s, caller, sc, input).Success?
    ensures ExecuteTx(s, caller, sc, input, CallThen(sc, dest, innerInput, innerBody, Revert)).state == s
    ensures var paid := ApplyPayment(s, caller, sc, input).value;
      var inner := ExecuteTx(paid, sc, dest, innerInput, innerBody);
      inner.outcome.Success? ==>
        ExecuteTx(s, caller, sc, input, CallThen(sc, dest, innerInput, innerBody, Commit)) == TxResult(inner.state, Success(Commit))
  {
  }

  /** An unpaid nested call into a callee that commits `t`, made by an
      unpaid outer call that commits, ends the transaction in `t`. */
  lemma UnpaidNestedCallCommits(s: WorldState, caller: Address, sc: Address, dest: Address, innerBody: TxBody,
                                t: WorldState)
    requires AccountExists(s, caller) && AccountExists(s, sc) && AccountExists(s, dest)
    requires innerBody(s, CallValue.TxInput(0, [])) == Finished(t, Commit)
    ensures ExecuteTx(s, caller, sc, CallValue.TxInput(0, []), CallThen(sc, dest, CallValue.TxInput(0, []), innerBody, Commit))
         == TxResult(t, Success(Commit))
  {
    var none := CallValue.TxInput(0, []);
    UnpaidCallCommits(s, sc, dest, innerBody, t);
    var outer := CallThen(sc, dest, none, innerBody, Commit);
    assert outer(s, none) == Finished(t, Commit);
    UnpaidCallCommits(s, caller, sc, outer, t);
  }
}
