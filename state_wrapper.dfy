/** The test driver's handle on the mock blockchain: a ledger held in
    maps that its methods update in place. A transaction takes a snapshot
    of all the maps, applies the payment in place, hands the state to the
    contract body, and then either keeps the body's state or puts the
    snapshot back. Every method is specified against the ledger and
    executor functions applied to the state before the call. */
module StateWrapper {
  import opened Types
  import opened Ledger
  import opened Executor
  import CallValue

  function OutcomeOf(r: Result<WorldState, LedgerError>): Outcome<LedgerError>
  {
    match r
    case Success(_) => Pass
    case Failure(e) => Fail(e)
  }

  /** The state after an operation: its result, or the old state when it failed. */
  function StateAfter(s: WorldState, r: Result<WorldState, LedgerError>): WorldState
  {
    match r
    case Success(t) => t
    case Failure(_) => s
  }

  class BlockchainStateWrapper {
    var accountCount: nat
    var moaxBalances: map<Address, nat>
    var dctBalances: map<DctKey, nat>
    var nftAttributes: map<DctKey, Bytes>
    var localRoles: map<TokenKey, set<DctLocalRole>>
    var lastNftNonces: map<TokenKey, u64>
    var accountStorage: map<Address, map<Bytes, Bytes>>
    var contracts: map<Address, ContractInfo>
    var block: BlockInfo

    /** The whole ledger as one value. */
    function Snapshot(): WorldState
      reads this
    {
      WorldState(accountCount, moaxBalances, dctBalances, nftAttributes, localRoles, lastNftNonces,
                 accountStorage, contracts, block)
    }

    ghost predicate Valid()
      reads this
    {
      ValidState(Snapshot())
    }

    constructor ()
      ensures Valid() && Snapshot() == EMPTY_WORLD
    {
      accountCount := 0;
      moaxBalances, dctBalances, nftAttributes := map[], map[], map[];
      localRoles, lastNftNonces, accountStorage, contracts := map[], map[], map[], map[];
      block := BlockInfo(0, 0, 0);
    }

    /** Puts a snapshot back. */
    method Restore(s: WorldState)
      modifies this
      ensures Snapshot() == s
    {
      accountCount := s.accountCount;
      moaxBalances, dctBalances, nftAttributes := s.moax, s.dct, s.attributes;
      localRoles, lastNftNonces, accountStorage, contracts := s.roles, s.lastNonce, s.storage, s.contracts;
      block := s.block;
    }

    method CreateUserAccount(balance: nat) returns (address: Address)
      requires Valid()
      modifies this
      ensures Valid()
      ensures (Snapshot(), address) == CreateAccount(old(Snapshot()), balance, None)
    {
      ghost var s := Snapshot();
      NewAccountValid(s, balance, None);
      address := Address(accountCount);
      moaxBalances := moaxBalances[address := balance];
      accountStorage := accountStorage[address := map[]];
      accountCount := accountCount + 1;
      assert Snapshot() == WithNewAccount(s, balance, None);
    }

    method CreateScAccount(balance: nat, owner: Option<Address>, codePath: string) returns (address: Address)
      requires Valid()
      modifies this
      ensures Valid()
      ensures (Snapshot(), address) == CreateAccount(old(Snapshot()), balance, Some(ContractInfo(owner, codePath)))
    {
      ghost var s := Snapshot();
      NewAccountValid(s, balance, Some(ContractInfo(owner, codePath)));
      address := Address(accountCount);
      moaxBalances := moaxBalances[address := balance];
      accountStorage := accountStorage[address := map[]];
      contracts := contracts[address := ContractInfo(owner, codePath)];
      accountCount := accountCount + 1;
      assert Snapshot() == WithNewAccount(s, balance, Some(ContractInfo(owner, codePath)));
    }

    method SetDctBalance(address: Address, token: Bytes, balance: nat) returns (r: Outcome<LedgerError>)
      modifies this
      ensures r == OutcomeOf(Ledger.SetDctBalance(old(Snapshot()), address, token, balance))
      ensures Snapshot() == StateAfter(old(Snapshot()), Ledger.SetDctBalance(old(Snapshot()), address, token, balance))
      ensures old(Valid()) ==> Valid()
    {
      ghost var s := Snapshot();
      if address !in moaxBalances {
        return Fail(AccountNotFound(address));
      }
      dctBalances := dctBalances[DctKey(address, token, 0) := balance];
      ghost var t := Ledger.SetDctBalance(s, address, token, balance).value;
      assert t.dct == dctBalances && t.(dct := s.dct) == s;
      assert Snapshot() == t;
      if ValidState(s) {
        SetDctBalanceKeepsValid(s, address, token, balance);
        assert ValidState(Snapshot());
      }
      r := Pass;
    }

    method SetNftBalance(address: Address, token: Bytes, nonce: u64, balance: nat, attributes: Bytes)
      returns (r: Outcome<LedgerError>)
      modifies this
      ensures r == OutcomeOf(Ledger.SetNftBalance(old(Snapshot()), address, token, nonce, balance, attributes))
      ensures Snapshot() ==
        StateAfter(old(Snapshot()), Ledger.SetNftBalance(old(Snapshot()), address, token, nonce, balance, attributes))
      ensures old(Valid()) ==> Valid()
    {
      ghost var s := Snapshot();
      if address !in moaxBalances {
        return Fail(AccountNotFound(address));
      }
      var k := DctKey(address, token, nonce);
      dctBalances := dctBalances[k := balance];
      nftAttributes := nftAttributes[k := attributes];
      ghost var t := Ledger.SetNftBalance(s, address, token, nonce, balance, attributes).value;
      assert t.dct == dctBalances && t.attributes == nftAttributes && t.(dct := s.dct, attributes := s.attributes) == s;
      assert Snapshot() == t;
      if ValidState(s) {
        SetNftBalanceKeepsValid(s, address, token, nonce, balance, attributes);
        assert ValidState(Snapshot());
      }
      r := Pass;
    }

    method SetDctLocalRoles(address: Address, token: Bytes, roles: set<DctLocalRole>) returns (r: Outcome<LedgerError>)
      modifies this
      ensures r == OutcomeOf(Ledger.SetDctLocalRoles(old(Snapshot()), address, token, roles))
      ensures Snapshot() == StateAfter(old(Snapshot()), Ledger.SetDctLocalRoles(old(Snapshot()), address, token, roles))
      ensures old(Valid()) ==> Valid()
    {
      ghost var s := Snapshot();
      if address !in moaxBalances {
        return Fail(AccountNotFound(address));
      }
      localRoles := localRoles[TokenKey(address, token) := roles];
      ghost var t := Ledger.SetDctLocalRoles(s, address, token, roles).value;
      assert t.roles == localRoles && t.(roles := s.roles) == s;
      assert Snapshot() == t;
      if ValidState(s) {
        SetDctLocalRolesKeepsValid(s, address, token, roles);
        assert ValidState(Snapshot());
      }
      r := Pass;
    }

    method CheckMoaxBalance(address: Address, expected: nat) returns (ok: bool)
      ensures ok <==> AccountExists(Snapshot(), address) && MoaxOf(Snapshot(), address) == expected
    {
      ok := address in moaxBalances && moaxBalances[address] == expected;
    }

    method CheckDctBalance(address: Address, token: Bytes, expected: nat) returns (ok: bool)
      ensures ok <==> AccountExists(Snapshot(), address) && BalanceAt(Snapshot(), DctKey(address, token, 0)) == expected
    {
      var k := DctKey(address, token, 0);
      ok := address in moaxBalances && (if k in dctBalances then dctBalances[k] else 0) == expected;
    }

    method CheckNftBalance(address: Address, token: Bytes, nonce: u64, expected: nat, attributes: Bytes)
      returns (ok: bool)
      ensures ok <==>
        && AccountExists(Snapshot(), address)
        && BalanceAt(Snapshot(), DctKey(address, token, nonce)) == expected
        && AttributesAt(Snapshot(), DctKey(address, token, nonce)) == Some(attributes)
    {
      var k := DctKey(address, token, nonce);
      ok := && address in moaxBalances
            && (if k in dctBalances then dctBalances[k] else 0) == expected
            && k in nftAttributes && nftAttributes[k] == attributes;
    }

    method SetBlockEpoch(epoch: u64)
      modifies this
      ensures Snapshot() == old(Snapshot()).(block := old(block).(epoch := epoch))
    {
      block := block.(epoch := epoch);
    }

    method SetBlockNonce(nonce: u64)
      modifies this
      ensures Snapshot() == old(Snapshot()).(block := old(block).(nonce := nonce))
    {
      block := block.(nonce := nonce);
    }

    method SetBlockTimestamp(timestamp: u64)
      modifies this
      ensures Snapshot() == old(Snapshot()).(block := old(block).(timestamp := timestamp))
    {
      block := block.(timestamp := timestamp);
    }

    /** Moves MOAX in place. */
    method TransferMoax(from: Address, to: Address, amount: nat) returns (r: Outcome<LedgerError>)
      modifies this
      ensures r == OutcomeOf(MoaxTransfer(old(Snapshot()), from, to, amount))
      ensures Snapshot() == StateAfter(old(Snapshot()), MoaxTransfer(old(Snapshot()), from, to, amount))
      ensures old(Valid()) ==> Valid()
    {
      ghost var s := Snapshot();
      if from !in moaxBalances {
        return Fail(AccountNotFound(from));
      }
      if to !in moaxBalances {
        return Fail(AccountNotFound(to));
      }
      if moaxBalances[from] < amount {
        return Fail(InsufficientFunds);
      }
      var debited := moaxBalances[from := moaxBalances[from] - amount];
      moaxBalances := debited[to := debited[to] + amount];
      ghost var t := MoaxTransfer(s, from, to, amount).value;
      assert t.moax == moaxBalances && t.(moax := s.moax) == s;
      assert Snapshot() == t;
      if ValidState(s) {
        MoaxTransferKeepsValid(s, from, to, amount);
        assert ValidState(Snapshot());
      }
      r := Pass;
    }

    /** Moves units of a token nonce in place, with their attributes. */
    method TransferDct(from: Address, to: Address, token: Bytes, nonce: u64, amount: nat) returns (r: Outcome<LedgerError>)
      modifies this
      ensures r == OutcomeOf(DctTransfer(old(Snapshot()), from, to, token, nonce, amount))
      ensures Snapshot() == StateAfter(old(Snapshot()), DctTransfer(old(Snapshot()), from, to, token, nonce, amount))
      ensures old(Valid()) ==> Valid()
    {
      ghost var s := Snapshot();
      var fk := DctKey(from, token, nonce);
      var tk := DctKey(to, token, nonce);
      if from !in moaxBalances {
        return Fail(AccountNotFound(from));
      }
      if to !in moaxBalances {
        return Fail(AccountNotFound(to));
      }
      if (if fk in dctBalances then dctBalances[fk] else 0) < amount {
        return Fail(InsufficientFunds);
      }
      dctBalances := MoveUnits(dctBalances, fk, tk, amount);
      nftAttributes := CopyAttributes(nftAttributes, fk, tk);
      assert Snapshot() == DctTransfer(s, from, to, token, nonce, amount).value;
      if ValidState(s) {
        DctTransferKeepsValid(s, from, to, token, nonce, amount);
        assert ValidState(Snapshot());
      }
      r := Pass;
    }

    /** Applies the payment of a call in place: MOAX, then each token
      transfer in order; on a failure the maps may be partly updated and
      the caller restores its snapshot. */
    method PreApplyPayment(from: Address, to: Address, input: CallValue.TxInput) returns (r: Outcome<LedgerError>)
      modifies this
      ensures r == OutcomeOf(ApplyPayment(old(Snapshot()), from, to, input))
      ensures r == Pass ==> Snapshot() == ApplyPayment(old(Snapshot()), from, to, input).value
      ensures old(Valid()) ==> Valid()
    {
      r := TransferMoax(from, to, input.moaxValue);
      if r != Pass {
        return;
      }
      var transfers := input.dctValues;
      var i := 0;
      while i < |transfers|
        invariant 0 <= i <= |transfers|
        invariant r == Pass
        invariant old(Valid()) ==> Valid()
        invariant ApplyPayment(old(Snapshot()), from, to, input) == ApplyDctTransfers(Snapshot(), from, to, transfers[i..])
      {
        var t := transfers[i];
        assert transfers[i..][1..] == transfers[i + 1..];
        r := TransferDct(from, to, t.tokenIdentifier, t.nonce, t.value);
        if r != Pass {
          return;
        }
        i := i + 1;
      }
      assert transfers[i..] == [];
    }

    /** execute_tx with any payment: snapshot, pre-apply, run, keep or restore. */
    method ExecuteTxAny(caller: Address, sc: Address, input: CallValue.TxInput, body: TxBody)
      returns (r: Result<StateChange, TxFailure>)
      modifies this
      ensures TxResult(Snapshot(), r) == Executor.ExecuteTx(old(Snapshot()), caller, sc, input, body)
      ensures r != Success(Commit) ==> Snapshot() == old(Snapshot())
      ensures old(Valid()) && r != Success(Commit) ==> Valid()
    {
      var snapshot := Snapshot();
      var paid := PreApplyPayment(caller, sc, input);
      if paid.Fail? {
        Restore(snapshot);
        return Failure(LedgerFailure(paid.error));
      }
      var outcome := body(Snapshot(), input);
      match outcome {
        case Finished(t, Commit) =>
          Restore(t);
          r := Success(Commit);
        case Finished(_, Revert) =>
          Restore(snapshot);
          r := Success(Revert);
        case Aborted(f) =>
          Restore(snapshot);
          r := Failure(f);
      }
    }

    /** A call paid in MOAX only. */
    method ExecuteTx(caller: Address, sc: Address, moaxPayment: nat, body: TxBody)
      returns (r: Result<StateChange, TxFailure>)
      modifies this
      ensures TxResult(Snapshot(), r) == Executor.ExecuteTx(old(Snapshot()), caller, sc, CallValue.TxInput(moaxPayment, []), body)
      ensures r != Success(Commit) ==> Snapshot() == old(Snapshot())
      ensures old(Valid()) && r != Success(Commit) ==> Valid()
    {
      r := ExecuteTxAny(caller, sc, CallValue.TxInput(moaxPayment, []), body);
    }

    /** A call paid with one token transfer. */
    method ExecuteDctTransfer(caller: Address, sc: Address, token: Bytes, nonce: u64, amount: nat, body: TxBody)
      returns (r: Result<StateChange, TxFailure>)
      modifies this
      ensures TxResult(Snapshot(), r) ==
        Executor.ExecuteTx(old(Snapshot()), caller, sc, CallValue.TxInput(0, [CallValue.TxInputDct(token, nonce, amount)]), body)
      ensures r != Success(Commit) ==> Snapshot() == old(Snapshot())
      ensures old(Valid()) && r != Success(Commit) ==> Valid()
    {
      r := ExecuteTxAny(caller, sc, CallValue.TxInput(0, [CallValue.TxInputDct(token, nonce, amount)]), body);
    }

    /** A call paid with a list of token transfers. */
    method ExecuteDctMultiTransfer(caller: Address, sc: Address, transfers: seq<CallValue.TxInputDct>, body: TxBody)
      returns (r: Result<StateChange, TxFailure>)
      modifies this
      ensures TxResult(Snapshot(), r) == Executor.ExecuteTx(old(Snapshot()), caller, sc, CallValue.TxInput(0, transfers), body)
      ensures r != Success(Commit) ==> Snapshot() == old(Snapshot())
      ensures old(Valid()) && r != Success(Commit) ==> Valid()
    {
      r := ExecuteTxAny(caller, sc, CallValue.TxInput(0, transfers), body);
    }

    /** A read-only call into contract `sc`: the query sees the ledger,
      the contract it runs as and an unpaid call, and nothing it does is
      kept. */
    method ExecuteQuery<R>(sc: Address, query: (WorldState, Address, CallValue.TxInput) -> R) returns (r: R)
      ensures r == query(Snapshot(), sc, CallValue.TxInput(0, []))
    {
      r := query(Snapshot(), sc, CallValue.TxInput(0, []));
    }
  }
}
