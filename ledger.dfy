/** The account ledger of the mock blockchain as a value: MOAX balances
    per account, token balances keyed by (address, token, nonce), NFT
    attributes, local roles, the last NFT nonce handed out per (address,
    token), raw storage per account and the block context. Every
    operation returns a new ledger or a failure and leaves the old one
    untouched, which is what makes a snapshot a plain value. */
module Ledger {
  import opened Types

  /** Accounts are numbered in creation order. */
  datatype Address = Address(id: nat)

  datatype DctLocalRole = Mint | Burn | NftCreate | NftAddQuantity | NftBurn

  datatype DctKey = DctKey(owner: Address, token: Bytes, nonce: u64)

  datatype TokenKey = TokenKey(owner: Address, token: Bytes)

  /** What is recorded for a contract account besides its balances. */
  datatype ContractInfo = ContractInfo(owner: Option<Address>, codePath: string)

  datatype BlockInfo = BlockInfo(epoch: u64, nonce: u64, timestamp: u64)

  datatype LedgerError =
    | AccountNotFound(address: Address)
    | InsufficientFunds
    | MissingRole(role: DctLocalRole)
    | NonceOverflow

  datatype WorldState = WorldState(
    accountCount: nat,
    moax: map<Address, nat>,
    dct: map<DctKey, nat>,
    attributes: map<DctKey, Bytes>,
    roles: map<TokenKey, set<DctLocalRole>>,
    lastNonce: map<TokenKey, u64>,
    storage: map<Address, map<Bytes, Bytes>>,
    contracts: map<Address, ContractInfo>,
    block: BlockInfo)

  const EMPTY_WORLD: WorldState :=
    WorldState(0, map[], map[], map[], map[], map[], map[], map[], BlockInfo(0, 0, 0))

  /** The ledger invariant: the accounts are exactly the addresses
      numbered below `accountCount`, each has a storage, and every token
      balance, attribute, role set, nonce counter and contract record
      belongs to an account. */
  ghost predicate ValidState(s: WorldState)
  {
    && (forall a: Address :: a in s.moax <==> a.id < s.accountCount)
    && s.storage.Keys == s.moax.Keys
    && (forall k :: k in s.dct ==> k.owner in s.moax)
    && (forall k :: k in s.attributes ==> k.owner in s.moax)
    && (forall k :: k in s.roles ==> k.owner in s.moax)
    && (forall k :: k in s.lastNonce ==> k.owner in s.moax)
    && s.contracts.Keys <= s.moax.Keys
  }

  predicate AccountExists(s: WorldState, a: Address)
  {
    a in s.moax
  }

  function MoaxOf(s: WorldState, a: Address): nat
  {
    if a in s.moax then s.moax[a] else 0
  }

  /** A token balance; a key never written holds 0. */
  function BalanceAt(s: WorldState, k: DctKey): nat
  {
    if k in s.dct then s.dct[k] else 0
  }

  function AttributesAt(s: WorldState, k: DctKey): Option<Bytes>
  {
    if k in s.attributes then Some(s.attributes[k]) else None
  }

  predicate HasRole(s: WorldState, a: Address, token: Bytes, role: DctLocalRole)
  {
    TokenKey(a, token) in s.roles && role in s.roles[TokenKey(a, token)]
  }

  function LastNonce(s: WorldState, a: Address, token: Bytes): u64
  {
    if TokenKey(a, token) in s.lastNonce then s.lastNonce[TokenKey(a, token)] else 0
  }

  /** A storage read; a key never written reads as the empty value. */
  function StorageGet(s: WorldState, a: Address, key: Bytes): Bytes
  {
    if a in s.storage && key in s.storage[a] then s.storage[a][key] else []
  }

  // ---------------------------------------------------------------------
  // Sums over accounts

  /** f(0) + ... + f(n - 1). */
  function SumBelow(f: nat -> nat, n: nat): nat
  {
    if n == 0 then 0 else SumBelow(f, n - 1) + f(n - 1)
  }

  /** All MOAX held by the accounts. */
  function TotalMoax(s: WorldState): nat
  {
    SumBelow(i => MoaxOf(s, Address(i)), s.accountCount)
  }

  /** All units of one token nonce held by the accounts. */
  function TokenSupply(s: WorldState, token: Bytes, nonce: u64): nat
  {
    SumBelow(i => BalanceAt(s, DctKey(Address(i), token, nonce)), s.accountCount)
  }

  /** Functions that agree everywhere below n have the same sum. */
  lemma {:induction false} SumBelowSame(f: nat -> nat, g: nat -> nat, n: nat)
    requires forall i: nat :: i < n ==> f(i) == g(i)
    ensures SumBelow(f, n) == SumBelow(g, n)
  {
    if n > 0 {
      SumBelowSame(f, g, n - 1);
    }
  }

  /** Changing one summand below n changes the sum by the same amount. */
  lemma {:induction false} SumBelowPoint(f: nat -> nat, g: nat -> nat, n: nat, a: nat)
    requires a < n
    requires forall i: nat :: i < n && i != a ==> f(i) == g(i)
    ensures SumBelow(g, n) + f(a) == SumBelow(f, n) + g(a)
  {
    if a == n - 1 {
      SumBelowSame(f, g, n - 1);
    } else {
      SumBelowPoint(f, g, n - 1, a);
    }
  }

  /** Moving value between two summands below n keeps the sum. */
  lemma SumBelowMove(f: nat -> nat, g: nat -> nat, n: nat, a: nat, b: nat)
    requires a < n && b < n && a != b
    requires forall i: nat :: i < n && i != a && i != b ==> f(i) == g(i)
    requires f(a) + f(b) == g(a) + g(b)
    ensures SumBelow(f, n) == SumBelow(g, n)
  {
    var h: nat -> nat := i => if i == a then g(a) else f(i);
    SumBelowPoint(f, h, n, a);
    SumBelowPoint(h, g, n, b);
  }

  // ---------------------------------------------------------------------
  // Accounts and the test driver's setters

  /** A new account with the next address; `contract` is present for a
      contract account. */
  function CreateAccount(s: WorldState, balance: nat, contract: Option<ContractInfo>): (r: (WorldState, Address))
    requires ValidState(s)
    ensures ValidState(r.0) && !AccountExists(s, r.1) && AccountExists(r.0, r.1)
    ensures MoaxOf(r.0, r.1) == balance && r.0.accountCount == s.accountCount + 1
    ensures forall a :: a != r.1 ==> MoaxOf(r.0, a) == MoaxOf(s, a)
    ensures forall k :: BalanceAt(r.0, k) == BalanceAt(s, k)
    ensures forall key :: StorageGet(r.0, r.1, key) == []
    ensures forall token, nonce :: AttributesAt(r.0, DctKey(r.1, token, nonce)) == None
    ensures forall token, role :: !HasRole(r.0, r.1, token, role)
    ensures forall token :: LastNonce(r.0, r.1, token) == 0
    ensures r.1 in r.0.contracts <==> contract.Some?
    ensures contract.Some? ==> r.0.contracts[r.1] == contract.value
    ensures forall b :: b != r.1 ==> (b in r.0.contracts <==> b in s.contracts)
    ensures forall b :: b != r.1 && b in s.contracts ==> r.0.contracts[b] == s.contracts[b]
    ensures forall b, key :: b != r.1 ==> StorageGet(r.0, b, key) == StorageGet(s, b, key)
    ensures r.0.(accountCount := s.accountCount, moax := s.moax, storage := s.storage, contracts := s.contracts) == s
  {
    var a := Address(s.accountCount);
    NewAccountValid(s, balance, contract);
    (WithNewAccount(s, balance, contract), a)
  }

  /** The ledger with the account numbered `accountCount` added. */
  function WithNewAccount(s: WorldState, balance: nat, contract: Option<ContractInfo>): WorldState
  {
    var a := Address(s.accountCount);
    var contracts := if contract.Some? then s.contracts[a := contract.value] else s.contracts;
    s.(accountCount := s.accountCount + 1,
       moax := s.moax[a := balance],
       storage := s.storage[a := map[]],
       contracts := contracts)
  }

  /** The account added is new, and adding it keeps the ledger invariant. */
  lemma NewAccountValid(s: WorldState, balance: nat, contract: Option<ContractInfo>)
    requires ValidState(s)
    ensures Address(s.accountCount) !in s.moax
    ensures ValidState(WithNewAccount(s, balance, contract))
  {
    var a := Address(s.accountCount);
    assert a !in s.moax;
  }

  /** Sets an instance balance and its attributes. */
  function SetNftBalance(s: WorldState, a: Address, token: Bytes, nonce: u64, balance: nat, attributes: Bytes)
    : (r: Result<WorldState, LedgerError>)
    ensures r.Success? <==> AccountExists(s, a)
    ensures r.Failure? ==> r.error == AccountNotFound(a)
    ensures r.Success? ==>
      && BalanceAt(r.value, DctKey(a, token, nonce)) == balance
      && AttributesAt(r.value, DctKey(a, token, nonce)) == Some(attributes)
      && (forall k :: k != DctKey(a, token, nonce) ==> BalanceAt(r.value, k) == BalanceAt(s, k))
      && (forall k :: k != DctKey(a, token, nonce) ==> AttributesAt(r.value, k) == AttributesAt(s, k))
      && r.value.(dct := s.dct, attributes := s.attributes) == s
  {
    if a !in s.moax then Failure(AccountNotFound(a))
    else
      var k := DctKey(a, token, nonce);
      Success(s.(dct := s.dct[k := balance], attributes := s.attributes[k := attributes]))
  }

  /** Sets a fungible balance: nonce 0, no attributes. */
  function SetDctBalance(s: WorldState, a: Address, token: Bytes, balance: nat): (r: Result<WorldState, LedgerError>)
    ensures r.Success? <==> AccountExists(s, a)
    ensures r.Failure? ==> r.error == AccountNotFound(a)
    ensures r.Success? ==>
      && BalanceAt(r.value, DctKey(a, token, 0)) == balance
      && (forall k :: k != DctKey(a, token, 0) ==> BalanceAt(r.value, k) == BalanceAt(s, k))
      && r.value.(dct := s.dct) == s
  {
    if a !in s.moax then Failure(AccountNotFound(a))
    else Success(s.(dct := s.dct[DctKey(a, token, 0) := balance]))
  }

  /** Replaces the local roles of (a, token). */
  function SetDctLocalRoles(s: WorldState, a: Address, token: Bytes, roles: set<DctLocalRole>)
    : (r: Result<WorldState, LedgerError>)
    ensures r.Success? <==> AccountExists(s, a)
    ensures r.Failure? ==> r.error == AccountNotFound(a)
    ensures r.Success? ==>
      && (forall role :: HasRole(r.value, a, token, role) <==> role in roles)
      && (forall b, token', role :: (b, token') != (a, token) ==>
            (HasRole(r.value, b, token', role) <==> HasRole(s, b, token', role)))
      && r.value.(roles := s.roles) == s
  {
    if a !in s.moax then Failure(AccountNotFound(a))
    else Success(s.(roles := s.roles[TokenKey(a, token) := roles]))
  }

  lemma SetDctBalanceKeepsValid(s: WorldState, a: Address, token: Bytes, balance: nat)
    requires ValidState(s) && SetDctBalance(s, a, token, balance).Success?
    ensures ValidState(SetDctBalance(s, a, token, balance).value)
  {
  }

  lemma SetNftBalanceKeepsValid(s: WorldState, a: Address, token: Bytes, nonce: u64, balance: nat, attributes: Bytes)
    requires ValidState(s) && SetNftBalance(s, a, token, nonce, balance, attributes).Success?
    ensures ValidState(SetNftBalance(s, a, token, nonce, balance, attributes).value)
  {
  }

  lemma SetDctLocalRolesKeepsValid(s: WorldState, a: Address, token: Bytes, roles: set<DctLocalRole>)
    requires ValidState(s) && SetDctLocalRoles(s, a, token, roles).Success?
    ensures ValidState(SetDctLocalRoles(s, a, token, roles).value)
  {
  }

  lemma SettersPreserveValidity(s: WorldState, a: Address, token: Bytes, nonce: u64, balance: nat,
                                attributes: Bytes, roles: set<DctLocalRole>)
    requires ValidState(s)
    ensures SetDctBalance(s, a, token, balance).Success? ==> ValidState(SetDctBalance(s, a, token, balance).value)
    ensures SetNftBalance(s, a, token, nonce, balance, attributes).Success? ==>
              ValidState(SetNftBalance(s, a, token, nonce, balance, attributes).value)
    ensures SetDctLocalRoles(s, a, token, roles).Success? ==> ValidState(SetDctLocalRoles(s, a, token, roles).value)
  {
    if AccountExists(s, a) {
      SetDctBalanceKeepsValid(s, a, token, balance);
      SetNftBalanceKeepsValid(s, a, token, nonce, balance, attributes);
      SetDctLocalRolesKeepsValid(s, a, token, roles);
    }
  }

  // ---------------------------------------------------------------------
  // Transfers

  /** Moves MOAX; fails when either account is missing or the sender
      holds less than `amount`. */
  function MoaxTransfer(s: WorldState, from: Address, to: Address, amount: nat): (r: Result<WorldState, LedgerError>)
    ensures r.Success? <==> AccountExists(s, from) && AccountExists(s, to) && amount <= MoaxOf(s, from)
    ensures !AccountExists(s, from) ==> r == Failure(AccountNotFound(from))
    ensures AccountExists(s, from) && !AccountExists(s, to) ==> r == Failure(AccountNotFound(to))
    ensures AccountExists(s, from) && AccountExists(s, to) && amount > MoaxOf(s, from) ==> r == Failure(InsufficientFunds)
  {
    if from !in s.moax then Failure(AccountNotFound(from))
    else if to !in s.moax then Failure(AccountNotFound(to))
    else if s.moax[from] < amount then Failure(InsufficientFunds)
    else
      var debited := s.moax[from := s.moax[from] - amount];
      Success(s.(moax := debited[to := debited[to] + amount]))
  }

  /** A committed MOAX transfer debits the sender, credits the receiver
      and changes nothing else. */
  lemma MoaxTransferMoves(s: WorldState, from: Address, to: Address, amount: nat)
    requires MoaxTransfer(s, from, to, amount).Success?
    ensures var t := MoaxTransfer(s, from, to, amount).value;
      && (from != to ==> MoaxOf(t, from) == MoaxOf(s, from) - amount && MoaxOf(t, to) == MoaxOf(s, to) + amount)
      && (from == to ==> MoaxOf(t, from) == MoaxOf(s, from))
      && (forall a :: a != from && a != to ==> MoaxOf(t, a) == MoaxOf(s, a))
      && t.(moax := s.moax) == s
  {
  }

  /** A MOAX transfer keeps the ledger invariant. */
  lemma MoaxTransferKeepsValid(s: WorldState, from: Address, to: Address, amount: nat)
    requires ValidState(s) && MoaxTransfer(s, from, to, amount).Success?
    ensures ValidState(MoaxTransfer(s, from, to, amount).value)
  {
    MoaxTransferMoves(s, from, to, amount);
  }

  /** A MOAX transfer keeps the total supply. */
  lemma MoaxTransferConserves(s: WorldState, from: Address, to: Address, amount: nat)
    requires ValidState(s) && MoaxTransfer(s, from, to, amount).Success?
    ensures ValidState(MoaxTransfer(s, from, to, amount).value)
    ensures TotalMoax(MoaxTransfer(s, from, to, amount).value) == TotalMoax(s)
  {
    var t := MoaxTransfer(s, from, to, amount).value;
    MoaxTransferMoves(s, from, to, amount);
    MoaxTransferKeepsValid(s, from, to, amount);
    var f: nat -> nat := i => MoaxOf(s, Address(i));
    var g: nat -> nat := i => MoaxOf(t, Address(i));
    if from == to {
      SumBelowSame(f, g, s.accountCount);
    } else {
      SumBelowMove(f, g, s.accountCount, from.id, to.id);
    }
  }

  /** Moves units of one token nonce; the instance attributes travel
      with them. Fails when either account is missing or the sender holds
      less than `amount`. */
  function DctTransfer(s: WorldState, from: Address, to: Address, token: Bytes, nonce: u64, amount: nat)
    : (r: Result<WorldState, LedgerError>)
    ensures r.Success? <==>
      AccountExists(s, from) && AccountExists(s, to) && amount <= BalanceAt(s, DctKey(from, token, nonce))
    ensures !AccountExists(s, from) ==> r == Failure(AccountNotFound(from))
    ensures AccountExists(s, from) && !AccountExists(s, to) ==> r == Failure(AccountNotFound(to))
    ensures AccountExists(s, from) && AccountExists(s, to) && amount > BalanceAt(s, DctKey(from, token, nonce)) ==>
              r == Failure(InsufficientFunds)
  {
    var fk := DctKey(from, token, nonce);
    var tk := DctKey(to, token, nonce);
    if from !in s.moax then Failure(AccountNotFound(from))
    else if to !in s.moax then Failure(AccountNotFound(to))
    else if BalanceAt(s, fk) < amount then Failure(InsufficientFunds)
    else Success(s.(dct := MoveUnits(s.dct, fk, tk, amount), attributes := CopyAttributes(s.attributes, fk, tk)))
  }

  /** A balance map with `amount` units moved from `fk` to `tk`. */
  function MoveUnits(m: map<DctKey, nat>, fk: DctKey, tk: DctKey, amount: nat): map<DctKey, nat>
    requires amount <= (if fk in m then m[fk] else 0)
  {
    var debited := m[fk := (if fk in m then m[fk] else 0) - amount];
    debited[tk := (if tk in debited then debited[tk] else 0) + amount]
  }

  /** An attribute map where `tk` takes the attributes of `fk`, if it has any. */
  function CopyAttributes(m: map<DctKey, Bytes>, fk: DctKey, tk: DctKey): map<DctKey, Bytes>
  {
    if fk in m then m[tk := m[fk]] else m
  }

  /** A token transfer debits the sender's instance, credits the
      receiver's, gives the receiver the sender's attributes, and leaves
      every other balance and everything else alone. */
  lemma DctTransferMoves(s: WorldState, from: Address, to: Address, token: Bytes, nonce: u64, amount: nat)
    requires DctTransfer(s, from, to, token, nonce, amount).Success?
    ensures var t := DctTransfer(s, from, to, token, nonce, amount).value;
      var fk := DctKey(from, token, nonce);
      var tk := DctKey(to, token, nonce);
      && (from != to ==> BalanceAt(t, fk) == BalanceAt(s, fk) - amount && BalanceAt(t, tk) == BalanceAt(s, tk) + amount)
      && (from == to ==> BalanceAt(t, fk) == BalanceAt(s, fk))
      && (forall k :: k != fk && k != tk ==> BalanceAt(t, k) == BalanceAt(s, k))
      && AttributesAt(t, tk) == (if fk in s.attributes then AttributesAt(s, fk) else AttributesAt(s, tk))
      && AttributesAt(t, fk) == AttributesAt(s, fk)
      && t.(dct := s.dct, attributes := s.attributes) == s
  {
  }

  /** A token transfer keeps the ledger invariant. */
  lemma DctTransferKeepsValid(s: WorldState, from: Address, to: Address, token: Bytes, nonce: u64, amount: nat)
    requires ValidState(s) && DctTransfer(s, from, to, token, nonce, amount).Success?
    ensures ValidState(DctTransfer(s, from, to, token, nonce, amount).value)
  {
    DctTransferMoves(s, from, to, token, nonce, amount);
  }

  /** A token transfer keeps the supply of every token nonce and the
      ledger invariant. */
  lemma DctTransferConserves(s: WorldState, from: Address, to: Address, token: Bytes, nonce: u64, amount: nat,
                             anyToken: Bytes, anyNonce: u64)
    requires ValidState(s) && DctTransfer(s, from, to, token, nonce, amount).Success?
    ensures ValidState(DctTransfer(s, from, to, token, nonce, amount).value)
    ensures TokenSupply(DctTransfer(s, from, to, token, nonce, amount).value, anyToken, anyNonce)
         == TokenSupply(s, anyToken, anyNonce)
    ensures TotalMoax(DctTransfer(s, from, to, token, nonce, amount).value) == TotalMoax(s)
  {
    var t := DctTransfer(s, from, to, token, nonce, amount).value;
    DctTransferMoves(s, from, to, token, nonce, amount);
    DctTransferKeepsValid(s, from, to, token, nonce, amount);
    var f: nat -> nat := i => BalanceAt(s, DctKey(Address(i), anyToken, anyNonce));
    var g: nat -> nat := i => BalanceAt(t, DctKey(Address(i), anyToken, anyNonce));
    if from == to || anyToken != token || anyNonce != nonce {
      SumBelowSame(f, g, s.accountCount);
    } else {
      SumBelowMove(f, g, s.accountCount, from.id, to.id);
    }
    SumBelowSame(i => MoaxOf(s, Address(i)), i => MoaxOf(t, Address(i)), s.accountCount);
  }

  // ---------------------------------------------------------------------
  // What a contract does to its own account

  /** The role a mint needs: Mint for fungible units, NftAddQuantity for
      an instance. */
  function MintRole(nonce: u64): DctLocalRole
  {
    if nonce == 0 then Mint else NftAddQuantity
  }

  function BurnRole(nonce: u64): DctLocalRole
  {
    if nonce == 0 then Burn else NftBurn
  }

  function LocalMint(s: WorldState, sc: Address, token: Bytes, nonce: u64, amount: nat): (r: Result<WorldState, LedgerError>)
    ensures r.Success? <==> AccountExists(s, sc) && HasRole(s, sc, token, MintRole(nonce))
    ensures AccountExists(s, sc) && !HasRole(s, sc, token, MintRole(nonce)) ==> r == Failure(MissingRole(MintRole(nonce)))
  {
    var k := DctKey(sc, token, nonce);
    if sc !in s.moax then Failure(AccountNotFound(sc))
    else if !HasRole(s, sc, token, MintRole(nonce)) then Failure(MissingRole(MintRole(nonce)))
    else Success(s.(dct := s.dct[k := BalanceAt(s, k) + amount]))
  }

  function LocalBurn(s: WorldState, sc: Address, token: Bytes, nonce: u64, amount: nat): (r: Result<WorldState, LedgerError>)
    ensures r.Success? <==>
      AccountExists(s, sc) && HasRole(s, sc, token, BurnRole(nonce)) && amount <= BalanceAt(s, DctKey(sc, token, nonce))
    ensures AccountExists(s, sc) && !HasRole(s, sc, token, BurnRole(nonce)) ==> r == Failure(MissingRole(BurnRole(nonce)))
    ensures (AccountExists(s, sc) && HasRole(s, sc, token, BurnRole(nonce)) &&
             amount > BalanceAt(s, DctKey(sc, token, nonce))) ==> r == Failure(InsufficientFunds)
  {
    var k := DctKey(sc, token, nonce);
    if sc !in s.moax then Failure(AccountNotFound(sc))
    else if !HasRole(s, sc, token, BurnRole(nonce)) then Failure(MissingRole(BurnRole(nonce)))
    else if BalanceAt(s, k) < amount then Failure(InsufficientFunds)
    else Success(s.(dct := s.dct[k := BalanceAt(s, k) - amount]))
  }

  /** A mint adds the amount to one instance and to that instance's supply. */
  lemma LocalMintEffect(s: WorldState, sc: Address, token: Bytes, nonce: u64, amount: nat)
    requires ValidState(s) && LocalMint(s, sc, token, nonce, amount).Success?
    ensures var k := DctKey(sc, token, nonce);
      var t := LocalMint(s, sc, token, nonce, amount).value;
      && ValidState(t)
      && BalanceAt(t, k) == BalanceAt(s, k) + amount
      && (forall k' :: k' != k ==> BalanceAt(t, k') == BalanceAt(s, k'))
      && TokenSupply(t, token, nonce) == TokenSupply(s, token, nonce) + amount
      && t.(dct := s.dct) == s
  {
    var t := LocalMint(s, sc, token, nonce, amount).value;
    SumBelowPoint(i => BalanceAt(s, DctKey(Address(i), token, nonce)),
                  i => BalanceAt(t, DctKey(Address(i), token, nonce)), s.accountCount, sc.id);
  }

  /** A burn removes the amount from one instance and from that instance's supply. */
  lemma LocalBurnEffect(s: WorldState, sc: Address, token: Bytes, nonce: u64, amount: nat)
    requires ValidState(s) && LocalBurn(s, sc, token, nonce, amount).Success?
    ensures var k := DctKey(sc, token, nonce);
      var t := LocalBurn(s, sc, token, nonce, amount).value;
      && ValidState(t)
      && BalanceAt(t, k) == BalanceAt(s, k) - amount
      && (forall k' :: k' != k ==> BalanceAt(t, k') == BalanceAt(s, k'))
      && TokenSupply(t, token, nonce) + amount == TokenSupply(s, token, nonce)
      && t.(dct := s.dct) == s
  {
    var t := LocalBurn(s, sc, token, nonce, amount).value;
    SumBelowPoint(i => BalanceAt(s, DctKey(Address(i), token, nonce)),
                  i => BalanceAt(t, DctKey(Address(i), token, nonce)), s.accountCount, sc.id);
  }

  /** Mint and burn touch only the named instance of the named account,
      and move that token's supply by the amount. */
  lemma MintBurnTouchOnlyTheirInstance(s: WorldState, sc: Address, token: Bytes, nonce: u64, amount: nat)
    requires ValidState(s)
    ensures var k := DctKey(sc, token, nonce);
      LocalMint(s, sc, token, nonce, amount).Success? ==>
      var t := LocalMint(s, sc, token, nonce, amount).value;
      && ValidState(t)
      && BalanceAt(t, k) == BalanceAt(s, k) + amount
      && (forall k' :: k' != k ==> BalanceAt(t, k') == BalanceAt(s, k'))
      && TokenSupply(t, token, nonce) == TokenSupply(s, token, nonce) + amount
      && t.(dct := s.dct) == s
    ensures var k := DctKey(sc, token, nonce);
      LocalBurn(s, sc, token, nonce, amount).Success? ==>
      var t := LocalBurn(s, sc, token, nonce, amount).value;
      && ValidState(t)
      && BalanceAt(t, k) == BalanceAt(s, k) - amount
      && (forall k' :: k' != k ==> BalanceAt(t, k') == BalanceAt(s, k'))
      && TokenSupply(t, token, nonce) + amount == TokenSupply(s, token, nonce)
      && t.(dct := s.dct) == s
  {
    if LocalMint(s, sc, token, nonce, amount).Success? {
      LocalMintEffect(s, sc, token, nonce, amount);
    }
    if LocalBurn(s, sc, token, nonce, amount).Success? {
      LocalBurnEffect(s, sc, token, nonce, amount);
    }
  }

  /** Creates an instance with the next unused nonce of (sc, token),
      starting at 1, and returns that nonce. */
  function CreateNft(s: WorldState, sc: Address, token: Bytes, amount: nat, attributes: Bytes)
    : (r: Result<(WorldState, u64), LedgerError>)
    ensures r.Success? <==> AccountExists(s, sc) && HasRole(s, sc, token, NftCreate) && LastNonce(s, sc, token) < U64_MAX
    ensures r.Success? ==> r.value.1 as int == LastNonce(s, sc, token) as int + 1
    ensures AccountExists(s, sc) && !HasRole(s, sc, token, NftCreate) ==> r == Failure(MissingRole(NftCreate))
  {
    var tk := TokenKey(sc, token);
    if sc !in s.moax then Failure(AccountNotFound(sc))
    else if !HasRole(s, sc, token, NftCreate) then Failure(MissingRole(NftCreate))
    else if LastNonce(s, sc, token) == U64_MAX then Failure(NonceOverflow)
    else
      var nonce := LastNonce(s, sc, token) + 1;
      var k := DctKey(sc, token, nonce);
      Success((s.(lastNonce := s.lastNonce[tk := nonce],
                  dct := s.dct[k := amount],
                  attributes := s.attributes[k := attributes]), nonce))
  }

  /** A created instance holds the amount and attributes it was created
      with; no other balance and no other token's nonce counter moves. */
  lemma CreateNftEffect(s: WorldState, sc: Address, token: Bytes, amount: nat, attributes: Bytes)
    requires ValidState(s) && CreateNft(s, sc, token, amount, attributes).Success?
    ensures var (t, nonce) := CreateNft(s, sc, token, amount, attributes).value;
      var k := DctKey(sc, token, nonce);
      && ValidState(t)
      && nonce > 0
      && LastNonce(t, sc, token) == nonce
      && BalanceAt(t, k) == amount && AttributesAt(t, k) == Some(attributes)
      && (forall k' :: k' != k ==> BalanceAt(t, k') == BalanceAt(s, k'))
      && (forall a, tok :: (a, tok) != (sc, token) ==> LastNonce(t, a, tok) == LastNonce(s, a, tok))
      && t.(dct := s.dct, attributes := s.attributes, lastNonce := s.lastNonce) == s
  {
    CreateNftKeepsValid(s, sc, token, amount, attributes);
  }

  /** Creating an instance keeps the ledger invariant. */
  lemma CreateNftKeepsValid(s: WorldState, sc: Address, token: Bytes, amount: nat, attributes: Bytes)
    requires ValidState(s) && CreateNft(s, sc, token, amount, attributes).Success?
    ensures ValidState(CreateNft(s, sc, token, amount, attributes).value.0)
  {
  }

  /** Nonces handed out for one (account, token) strictly increase, even
      when instances of other tokens are created in between. */
  lemma CreateNftNoncesIncrease(s: WorldState, sc: Address, token: Bytes, amount: nat, attributes: Bytes,
                                otherSc: Address, otherToken: Bytes, otherAmount: nat, otherAttributes: Bytes)
    requires ValidState(s) && CreateNft(s, sc, token, amount, attributes).Success?
    requires (otherSc, otherToken) != (sc, token)
    ensures var (t, first) := CreateNft(s, sc, token, amount, attributes).value;
      var u := match CreateNft(t, otherSc, otherToken, otherAmount, otherAttributes)
               case Success((u, _)) => u
               case Failure(_) => t;
      CreateNft(u, sc, token, amount, attributes).Success? ==>
        CreateNft(u, sc, token, amount, attributes).value.1 as int == first as int + 1
  {
    var (t, first) := CreateNft(s, sc, token, amount, attributes).value;
    CreateNftEffect(s, sc, token, amount, attributes);
    var o := CreateNft(t, otherSc, otherToken, otherAmount, otherAttributes);
    if o.Success? {
      CreateNftEffect(t, otherSc, otherToken, otherAmount, otherAttributes);
    }
  }

  /** A raw storage write of the account's own storage. */
  function StorageSet(s: WorldState, a: Address, key: Bytes, value: Bytes): (r: Result<WorldState, LedgerError>)
    ensures r.Success? <==> a in s.storage
    ensures r.Failure? ==> r.error == AccountNotFound(a)
    ensures r.Success? ==> StorageGet(r.value, a, key) == value
    ensures r.Success? ==> forall b, key' :: b != a || key' != key ==> StorageGet(r.value, b, key') == StorageGet(s, b, key')
    ensures r.Success? ==> r.value.storage.Keys == s.storage.Keys && r.value.(storage := s.storage) == s
  {
    if a !in s.storage then Failure(AccountNotFound(a))
    else Success(s.(storage := s.storage[a := s.storage[a][key := value]]))
  }

  lemma StorageSetPreservesValidity(s: WorldState, a: Address, key: Bytes, value: Bytes)
    requires ValidState(s) && StorageSet(s, a, key, value).Success?
    ensures ValidState(StorageSet(s, a, key, value).value)
    ensures TotalMoax(StorageSet(s, a, key, value).value) == TotalMoax(s)
  {
    var t := StorageSet(s, a, key, value).value;
    SumBelowSame(i => MoaxOf(s, Address(i)), i => MoaxOf(t, Address(i)), s.accountCount);
  }
}
