/** Settlement: the seller opens an escrow for an agreement (`create_escrow`),
    the buyer deposits into it (`deposit_payment_to_escrow`), and a registrar
    authorizes it (`authorize_escrow`).

As for agreements, only the account constraints are modelled: a created
Escrow or Deposit takes its contents from the `written` argument, and
authorization leaves the world unchanged.
 */
module Escrows {
  import opened Results
  import opened Types
  import opened Accounts
  import opened WellFormed

  /** The accounts of `create_escrow`. */
  datatype CreateEscrowAccounts = CreateEscrowAccounts(
    authority: Address,
    titleDeed: Address,
    agreement: Address,
    seller: Address,
    buyer: Address,
    escrow: Address)

  /** The accounts of `deposit_payment_to_escrow`. */
  datatype DepositPaymentToEscrowAccounts = DepositPaymentToEscrowAccounts(
    authority: Address,
    buyer: Address,
    seller: Address,
    escrow: Address,
    agreement: Address,
    deposit: Address)

  /** The accounts of `authorize_escrow`. The seller's wallet is unchecked. */
  datatype AuthorizeEscrowAccounts = AuthorizeEscrowAccounts(
    authority: Address,
    registrar: Address,
    escrow: Address,
    deposit: Address,
    titleDeed: Address,
    titleForSale: Address,
    agreement: Address,
    titleNumberLookup: Address,
    buyer: Address,
    seller: Address,
    sellerAuthority: Address)

  /** `create_escrow`; `written` is the Escrow the handler stores. */
  function CreateEscrow(w: World, accts: CreateEscrowAccounts, written: Escrow): (r: Result<World, Error>)
    ensures r.Ok? <==>
      && accts.titleDeed in w && w[accts.titleDeed].TitleDeedAccount?
      && accts.agreement in w && w[accts.agreement].AgreementAccount?
      && accts.seller in w && w[accts.seller].UserAccount?
      && accts.buyer in w && w[accts.buyer].UserAccount?
      && accts.escrow == EscrowAddress(accts.agreement)
      && EscrowAddress(accts.agreement) !in w
      && accts.authority == w[accts.titleDeed].deed.authority
      && w[accts.agreement].agreement.buyer.authority == w[accts.buyer].user.authority
    ensures r.Ok? ==>
      && r.value.Keys == w.Keys + {EscrowAddress(accts.agreement)}
      && (forall a | a in w :: r.value[a] == w[a])
      && r.value[EscrowAddress(accts.agreement)] == EscrowAccount(written)
  {
    var deed :- FetchTitleDeed(w, accts.titleDeed);
    var agr :- FetchAgreement(w, accts.agreement);
    var _ :- FetchUser(w, accts.seller);
    var buyer :- FetchUser(w, accts.buyer);
    :- CheckInit(w, accts.escrow, EscrowAddress(accts.agreement));
    :- Require(accts.authority == deed.authority, Unauthorized);
    :- Require(agr.buyer.authority == buyer.authority, Unauthorized);
    Ok(w[accts.escrow := EscrowAccount(written)])
  }

  /** `deposit_payment_to_escrow(amount)`; `written` is the Deposit the handler
      stores. The amount is only used by the handler. */
  function DepositPaymentToEscrow(w: World, accts: DepositPaymentToEscrowAccounts, written: Deposit): (r: Result<World, Error>)
    ensures r.Ok? <==>
      && accts.buyer in w && w[accts.buyer].UserAccount?
      && accts.seller in w && w[accts.seller].UserAccount?
      && accts.escrow in w && w[accts.escrow].EscrowAccount?
      && accts.agreement in w && w[accts.agreement].AgreementAccount?
      && accts.deposit == DepositAddress(accts.escrow)
      && DepositAddress(accts.escrow) !in w
      && accts.authority == w[accts.buyer].user.authority
      && w[accts.escrow].escrow.buyer == accts.authority
      && w[accts.escrow].escrow.agreement == accts.agreement
    ensures r.Ok? ==>
      && r.value.Keys == w.Keys + {DepositAddress(accts.escrow)}
      && (forall a | a in w :: r.value[a] == w[a])
      && r.value[DepositAddress(accts.escrow)] == DepositAccount(written)
  {
    var buyer :- FetchUser(w, accts.buyer);
    var _ :- FetchUser(w, accts.seller);
    var esc :- FetchEscrow(w, accts.escrow);
    var _ :- FetchAgreement(w, accts.agreement);
    :- CheckInit(w, accts.deposit, DepositAddress(accts.escrow));
    // the three buyer constraints: on the signer, on the buyer, on the escrow
    :- Require(&& accts.authority == buyer.authority
               && esc.buyer == accts.authority
               && esc.buyer == buyer.authority, Unauthorized);
    :- Require(esc.agreement == accts.agreement, InvalidAgreement);
    Ok(w[accts.deposit := DepositAccount(written)])
  }

  /** The nine typed accounts of `authorize_escrow` hold records of their types. */
  predicate AuthorizeAccountsPresent(w: World, accts: AuthorizeEscrowAccounts) {
    && accts.registrar in w && w[accts.registrar].RegistrarAccount?
    && accts.escrow in w && w[accts.escrow].EscrowAccount?
    && accts.deposit in w && w[accts.deposit].DepositAccount?
    && accts.titleDeed in w && w[accts.titleDeed].TitleDeedAccount?
    && accts.titleForSale in w && w[accts.titleForSale].TitleForSaleAccount?
    && accts.agreement in w && w[accts.agreement].AgreementAccount?
    && accts.titleNumberLookup in w && w[accts.titleNumberLookup].TitleNumberLookupAccount?
    && accts.buyer in w && w[accts.buyer].UserAccount?
    && accts.seller in w && w[accts.seller].UserAccount?
  }

  /** `authorize_escrow`: the account checks only. */
  function AuthorizeEscrow(w: World, accts: AuthorizeEscrowAccounts): (r: Result<World, Error>)
    ensures r.Ok? <==>
      && AuthorizeAccountsPresent(w, accts)
      && accts.registrar == RegistrarAddress(accts.authority)
      && w[accts.escrow].escrow.state == PaymentDeposited
      && accts.deposit == DepositAddress(accts.escrow)
    ensures r.Ok? ==> r.value == w
  {
    var _ :- FetchRegistrar(w, accts.registrar);
    var esc :- FetchEscrow(w, accts.escrow);
    var _ :- FetchDeposit(w, accts.deposit);
    var _ :- FetchTitleDeed(w, accts.titleDeed);
    var _ :- FetchTitleForSale(w, accts.titleForSale);
    var _ :- FetchAgreement(w, accts.agreement);
    var _ :- FetchTitleNumberLookup(w, accts.titleNumberLookup);
    var _ :- FetchUser(w, accts.buyer);
    var _ :- FetchUser(w, accts.seller);
    :- CheckSeeds(accts.registrar, RegistrarAddress(accts.authority));
    :- Require(esc.state == PaymentDeposited, EscrowNotReadyForPayment);
    :- CheckSeeds(accts.deposit, DepositAddress(accts.escrow));
    Ok(w)
  }

  /** Only the deed's current authority can open an escrow on it. */
  lemma OnlyDeedAuthorityOpensEscrow(w: World, accts: CreateEscrowAccounts, written: Escrow)
    requires CreateEscrow(w, accts, written).Ok?
    ensures accts.authority == w[accts.titleDeed].deed.authority
    ensures w[accts.agreement].agreement.buyer.authority == w[accts.buyer].user.authority
  {
  }

  /** A seller cannot substitute a counterparty: a buyer account other than the
      agreement's buyer is rejected with Unauthorized. */
  lemma EscrowBuyerMustMatchAgreement(w: World, accts: CreateEscrowAccounts, written: Escrow)
    requires accts.titleDeed in w && w[accts.titleDeed].TitleDeedAccount?
    requires accts.agreement in w && w[accts.agreement].AgreementAccount?
    requires accts.seller in w && w[accts.seller].UserAccount?
    requires accts.buyer in w && w[accts.buyer].UserAccount?
    requires accts.escrow == EscrowAddress(accts.agreement) && accts.escrow !in w
    requires accts.authority == w[accts.titleDeed].deed.authority
    requires w[accts.agreement].agreement.buyer.authority != w[accts.buyer].user.authority
    ensures CreateEscrow(w, accts, written) == Err(Unauthorized)
  {
  }

  /** One escrow per agreement. */
  lemma OneEscrowPerAgreement(w: World, accts: CreateEscrowAccounts, written: Escrow,
                              accts': CreateEscrowAccounts, written': Escrow)
    requires CreateEscrow(w, accts, written).Ok?
    requires accts'.agreement == accts.agreement
    ensures CreateEscrow(CreateEscrow(w, accts, written).value, accts', written').Err?
  {
  }

  /** Only the escrow's buyer can deposit, and only against the escrow's own
      agreement. */
  lemma DepositGuards(w: World, accts: DepositPaymentToEscrowAccounts, written: Deposit)
    requires DepositPaymentToEscrow(w, accts, written).Ok?
    ensures accts.authority == w[accts.buyer].user.authority == w[accts.escrow].escrow.buyer
    ensures w[accts.escrow].escrow.agreement == accts.agreement
  {
  }

  /** One deposit per escrow. */
  lemma OneDepositPerEscrow(w: World, accts: DepositPaymentToEscrowAccounts, written: Deposit,
                            accts': DepositPaymentToEscrowAccounts, written': Deposit)
    requires DepositPaymentToEscrow(w, accts, written).Ok?
    requires accts'.escrow == accts.escrow
    ensures DepositPaymentToEscrow(DepositPaymentToEscrow(w, accts, written).value, accts', written').Err?
  {
  }

  /** Authorization is refused with EscrowNotReadyForPayment unless the escrow
      is in the PaymentDeposited state. */
  lemma AuthorizeNeedsDepositedPayment(w: World, accts: AuthorizeEscrowAccounts)
    requires AuthorizeAccountsPresent(w, accts)
    requires accts.registrar == RegistrarAddress(accts.authority)
    requires w[accts.escrow].escrow.state != PaymentDeposited
    ensures AuthorizeEscrow(w, accts) == Err(EscrowNotReadyForPayment)
  {
  }

  /** Authorization does not look at whether the signer's registrar record is
      active: deactivating it changes nothing. */
  lemma AuthorizeIgnoresActivation(w: World, accts: AuthorizeEscrowAccounts)
    requires accts.registrar in w && w[accts.registrar].RegistrarAccount?
    ensures var w' := w[accts.registrar := RegistrarAccount(w[accts.registrar].registrar.(isActive := false))];
            AuthorizeEscrow(w', accts).Ok? <==> AuthorizeEscrow(w, accts).Ok?
  {
  }

  lemma CreateEscrowPreservesWf(w: World, accts: CreateEscrowAccounts, written: Escrow)
    requires Wf(w)
    requires CreateEscrow(w, accts, written).Ok?
    ensures Wf(CreateEscrow(w, accts, written).value)
  {
  }

  lemma DepositPreservesWf(w: World, accts: DepositPaymentToEscrowAccounts, written: Deposit)
    requires Wf(w)
    requires DepositPaymentToEscrow(w, accts, written).Ok?
    ensures Wf(DepositPaymentToEscrow(w, accts, written).value)
  {
  }

  lemma AuthorizePreservesWf(w: World, accts: AuthorizeEscrowAccounts)
    requires Wf(w)
    requires AuthorizeEscrow(w, accts).Ok?
    ensures Wf(AuthorizeEscrow(w, accts).value)
  {
  }
}
