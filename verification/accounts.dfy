/** How the framework validates the accounts an instruction is given.

- A typed account (`Account<'info, T>`) must hold a record of type `T`:
  otherwise the instruction fails with AccountNotInitialized (nothing there)
  or AccountDiscriminatorMismatch (a record of another type).
- `seeds = [...]` requires the passed address to be the derived one
  (ConstraintSeeds otherwise).
- `init` with seeds requires the passed address to be the derived one and
  that no record lives there yet (AccountAlreadyInUse otherwise).
 */
module Accounts {
  import opened Results
  import opened Types

  /** The error a typed account raises when `a` does not hold the expected type. */
  function Missing(w: World, a: Address): Error {
    if a in w then AccountDiscriminatorMismatch else AccountNotInitialized
  }

  function FetchProtocolState(w: World, a: Address): (r: Result<ProtocolState, Error>)
    ensures r.Ok? <==> a in w && w[a].ProtocolStateAccount?
    ensures r.Ok? ==> w[a] == ProtocolStateAccount(r.value)
    ensures r.Err? ==> r.error == Missing(w, a)
  {
    if a in w && w[a].ProtocolStateAccount? then Ok(w[a].protocolState) else Err(Missing(w, a))
  }

  function FetchAdmin(w: World, a: Address): (r: Result<Admin, Error>)
    ensures r.Ok? <==> a in w && w[a].AdminAccount?
    ensures r.Ok? ==> w[a] == AdminAccount(r.value)
    ensures r.Err? ==> r.error == Missing(w, a)
  {
    if a in w && w[a].AdminAccount? then Ok(w[a].admin) else Err(Missing(w, a))
  }

  function FetchRegistrar(w: World, a: Address): (r: Result<Registrar, Error>)
    ensures r.Ok? <==> a in w && w[a].RegistrarAccount?
    ensures r.Ok? ==> w[a] == RegistrarAccount(r.value)
    ensures r.Err? ==> r.error == Missing(w, a)
  {
    if a in w && w[a].RegistrarAccount? then Ok(w[a].registrar) else Err(Missing(w, a))
  }

  function FetchUser(w: World, a: Address): (r: Result<User, Error>)
    ensures r.Ok? <==> a in w && w[a].UserAccount?
    ensures r.Ok? ==> w[a] == UserAccount(r.value)
    ensures r.Err? ==> r.error == Missing(w, a)
  {
    if a in w && w[a].UserAccount? then Ok(w[a].user) else Err(Missing(w, a))
  }

  function FetchTitleDeed(w: World, a: Address): (r: Result<TitleDeed, Error>)
    ensures r.Ok? <==> a in w && w[a].TitleDeedAccount?
    ensures r.Ok? ==> w[a] == TitleDeedAccount(r.value)
    ensures r.Err? ==> r.error == Missing(w, a)
  {
    if a in w && w[a].TitleDeedAccount? then Ok(w[a].deed) else Err(Missing(w, a))
  }

  function FetchTitleForSale(w: World, a: Address): (r: Result<TitleForSale, Error>)
    ensures r.Ok? <==> a in w && w[a].TitleForSaleAccount?
    ensures r.Ok? ==> w[a] == TitleForSaleAccount(r.value)
    ensures r.Err? ==> r.error == Missing(w, a)
  {
    if a in w && w[a].TitleForSaleAccount? then Ok(w[a].listing) else Err(Missing(w, a))
  }

  function FetchTitleNumberLookup(w: World, a: Address): (r: Result<TitleNumberLookup, Error>)
    ensures r.Ok? <==> a in w && w[a].TitleNumberLookupAccount?
    ensures r.Ok? ==> w[a] == TitleNumberLookupAccount(r.value)
    ensures r.Err? ==> r.error == Missing(w, a)
  {
    if a in w && w[a].TitleNumberLookupAccount? then Ok(w[a].lookup) else Err(Missing(w, a))
  }

  function FetchAgreement(w: World, a: Address): (r: Result<Agreement, Error>)
    ensures r.Ok? <==> a in w && w[a].AgreementAccount?
    ensures r.Ok? ==> w[a] == AgreementAccount(r.value)
    ensures r.Err? ==> r.error == Missing(w, a)
  {
    if a in w && w[a].AgreementAccount? then Ok(w[a].agreement) else Err(Missing(w, a))
  }

  function FetchAgreementIndex(w: World, a: Address): (r: Result<AgreementIndex, Error>)
    ensures r.Ok? <==> a in w && w[a].AgreementIndexAccount?
    ensures r.Ok? ==> w[a] == AgreementIndexAccount(r.value)
    ensures r.Err? ==> r.error == Missing(w, a)
  {
    if a in w && w[a].AgreementIndexAccount? then Ok(w[a].index) else Err(Missing(w, a))
  }

  function FetchEscrow(w: World, a: Address): (r: Result<Escrow, Error>)
    ensures r.Ok? <==> a in w && w[a].EscrowAccount?
    ensures r.Ok? ==> w[a] == EscrowAccount(r.value)
    ensures r.Err? ==> r.error == Missing(w, a)
  {
    if a in w && w[a].EscrowAccount? then Ok(w[a].escrow) else Err(Missing(w, a))
  }

  function FetchDeposit(w: World, a: Address): (r: Result<Deposit, Error>)
    ensures r.Ok? <==> a in w && w[a].DepositAccount?
    ensures r.Ok? ==> w[a] == DepositAccount(r.value)
    ensures r.Err? ==> r.error == Missing(w, a)
  {
    if a in w && w[a].DepositAccount? then Ok(w[a].deposit) else Err(Missing(w, a))
  }

  /** `seeds = [...]` on an account that must already exist. */
  function CheckSeeds(passed: Address, derived: Address): (c: Check<Error>)
    ensures c.Pass? <==> passed == derived
    ensures c.Fail? ==> c.error == ConstraintSeeds
  {
    Require(passed == derived, ConstraintSeeds)
  }

  /** `init` with `seeds = [...]`: the account is created at the derived address,
      which must still be empty. */
  function CheckInit(w: World, passed: Address, derived: Address): (c: Check<Error>)
    ensures c.Pass? <==> passed == derived && derived !in w
    ensures c.Fail? && passed != derived ==> c.error == ConstraintSeeds
    ensures c.Fail? && passed == derived ==> c.error == AccountAlreadyInUse
  {
    if passed != derived then Fail(ConstraintSeeds)
    else Require(passed !in w, AccountAlreadyInUse)
  }
}
