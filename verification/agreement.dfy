/** Sale agreements: the seller drafts one (`make_agreement`), the buyer
    countersigns it (`sign_agreement`), and it can be cancelled
    (`cancel_agreement`).

Only the account constraints of these instructions are part of the model;
what their handlers write is not. A drafted Agreement record therefore takes
its contents from the `written` argument, and signing leaves the world
unchanged.
 */
module Agreements {
  import opened Results
  import opened Types
  import opened Accounts
  import opened WellFormed

  /** The accounts of `make_agreement`. The agreement index is unchecked apart
      from its seeds. */
  datatype MakeAgreementAccounts = MakeAgreementAccounts(
    authority: Address,
    titleDeed: Address,
    titleForSale: Address,
    seller: Address,
    buyer: Address,
    titleNumberLookup: Address,
    agreement: Address,
    agreementIndex: Address)

  /** The accounts of `sign_agreement`. */
  datatype SignAgreementAccounts = SignAgreementAccounts(
    authority: Address,
    titleDeed: Address,
    agreement: Address)

  /** The accounts of `cancel_agreement`: both records are closed. */
  datatype CancelAgreementAccounts = CancelAgreementAccounts(
    authority: Address,
    agreement: Address,
    agreementIndex: Address)

  /** The key at which the agreement of `make_agreement` is created. */
  function DraftKey(w: World, accts: MakeAgreementAccounts, price: u64): Address
    requires accts.buyer in w && w[accts.buyer].UserAccount?
  {
    AgreementAddress(accts.authority, w[accts.buyer].user.authority, accts.titleDeed, price)
  }

  /** The guards of `make_agreement` that concern the deed and its listing:
      the signer holds the deed, the deed is the one its title-number lookup
      names, and the signer's listing of that deed exists. */
  predicate SellerMayDraft(w: World, accts: MakeAgreementAccounts)
    requires accts.titleDeed in w && w[accts.titleDeed].TitleDeedAccount?
    requires accts.titleForSale in w && w[accts.titleForSale].TitleForSaleAccount?
    requires accts.seller in w && w[accts.seller].UserAccount?
    requires accts.titleNumberLookup in w && w[accts.titleNumberLookup].TitleNumberLookupAccount?
  {
    var deed := w[accts.titleDeed].deed;
    var listing := w[accts.titleForSale].listing;
    var lookup := w[accts.titleNumberLookup].lookup;
    && deed.authority == accts.authority
    && lookup.titleDeed == accts.titleDeed
    && accts.titleForSale == TitleForSaleAddress(accts.authority, accts.titleDeed)
    && listing.titleDeed == accts.titleDeed
    && w[accts.seller].user.authority == accts.authority
    && listing.seller.authority == accts.authority
    && accts.titleNumberLookup == TitleNumberLookupAddress(deed.titleNumber)
    && lookup.titleNumber == deed.titleNumber
  }

  /** `make_agreement(price)`; `written` is the Agreement the handler stores. */
  function MakeAgreement(w: World, accts: MakeAgreementAccounts, price: u64, written: Agreement): (r: Result<World, Error>)
    ensures r.Ok? <==>
      && accts.titleDeed in w && w[accts.titleDeed].TitleDeedAccount?
      && accts.titleForSale in w && w[accts.titleForSale].TitleForSaleAccount?
      && accts.seller in w && w[accts.seller].UserAccount?
      && accts.buyer in w && w[accts.buyer].UserAccount?
      && accts.titleNumberLookup in w && w[accts.titleNumberLookup].TitleNumberLookupAccount?
      && accts.agreement == DraftKey(w, accts, price)
      && DraftKey(w, accts, price) !in w
      && SellerMayDraft(w, accts)
      && accts.agreementIndex == AgreementIndexAddress(accts.titleDeed)
    ensures r.Ok? ==>
      && r.value.Keys == w.Keys + {accts.agreement}
      && (forall a | a in w :: r.value[a] == w[a])
      && r.value[accts.agreement] == AgreementAccount(written)
  {
    var deed :- FetchTitleDeed(w, accts.titleDeed);
    var listing :- FetchTitleForSale(w, accts.titleForSale);
    var seller :- FetchUser(w, accts.seller);
    var buyer :- FetchUser(w, accts.buyer);
    var lookup :- FetchTitleNumberLookup(w, accts.titleNumberLookup);
    :- CheckInit(w, accts.agreement, AgreementAddress(accts.authority, buyer.authority, accts.titleDeed, price));
    :- Require(deed.authority == accts.authority, Unauthorized);
    :- Require(accts.titleDeed == lookup.titleDeed, TitleNotMarkedForSale);
    :- CheckSeeds(accts.titleForSale, TitleForSaleAddress(accts.authority, accts.titleDeed));
    :- Require(listing.titleDeed == accts.titleDeed, TitleNotMarkedForSale);
    :- Require(seller.authority == accts.authority && seller.authority == listing.seller.authority, Unauthorized);
    :- CheckSeeds(accts.titleNumberLookup, TitleNumberLookupAddress(deed.titleNumber));
    :- Require(lookup.titleNumber == deed.titleNumber, TitleNotMarkedForSale);
    :- CheckSeeds(accts.agreementIndex, AgreementIndexAddress(accts.titleDeed));
    Ok(w[accts.agreement := AgreementAccount(written)])
  }

  /** `sign_agreement(price)`: the account checks only. */
  function SignAgreement(w: World, accts: SignAgreementAccounts, price: u64): (r: Result<World, Error>)
    ensures r.Ok? <==>
      && accts.titleDeed in w && w[accts.titleDeed].TitleDeedAccount?
      && accts.agreement in w && w[accts.agreement].AgreementAccount?
      && var agr := w[accts.agreement].agreement;
      && agr.titleDeed == accts.titleDeed
      && accts.agreement == AgreementAddress(agr.seller.authority, agr.buyer.authority, accts.titleDeed, price)
      && agr.buyer.authority == accts.authority
      && agr.price == price
    ensures r.Ok? ==> r.value == w
  {
    var _ :- FetchTitleDeed(w, accts.titleDeed);
    var agr :- FetchAgreement(w, accts.agreement);
    :- Require(accts.titleDeed == agr.titleDeed, InvalidTitleDeed);
    :- CheckSeeds(accts.agreement, AgreementAddress(agr.seller.authority, agr.buyer.authority, accts.titleDeed, price));
    :- Require(agr.buyer.authority == accts.authority, Unauthorized);
    :- Require(agr.price == price, InvalidTitleDeed);
    Ok(w)
  }

  /** `cancel_agreement`: close the agreement and the deed's agreement index. */
  function CancelAgreement(w: World, accts: CancelAgreementAccounts): (r: Result<World, Error>)
    ensures r.Ok? <==>
      && accts.agreement in w && w[accts.agreement].AgreementAccount?
      && accts.agreementIndex in w && w[accts.agreementIndex].AgreementIndexAccount?
      && accts.agreementIndex == AgreementIndexAddress(w[accts.agreement].agreement.titleDeed)
    ensures r.Ok? ==>
      && r.value.Keys == w.Keys - {accts.agreement, accts.agreementIndex}
      && forall a | a in r.value :: r.value[a] == w[a]
  {
    var agr :- FetchAgreement(w, accts.agreement);
    var _ :- FetchAgreementIndex(w, accts.agreementIndex);
    :- CheckSeeds(accts.agreementIndex, AgreementIndexAddress(agr.titleDeed));
    Ok(w - {accts.agreement, accts.agreementIndex})
  }

  /** A successful draft means the signer holds the deed and has listed it. */
  lemma DraftingNeedsListedDeed(w: World, accts: MakeAgreementAccounts, price: u64, written: Agreement)
    requires MakeAgreement(w, accts, price, written).Ok?
    ensures w[accts.titleDeed].deed.authority == accts.authority
    ensures TitleForSaleAddress(accts.authority, accts.titleDeed) in w
    ensures w[TitleForSaleAddress(accts.authority, accts.titleDeed)].TitleForSaleAccount?
    ensures w[TitleForSaleAddress(accts.authority, accts.titleDeed)].listing.seller.authority == accts.authority
  {
  }

  /** At most one agreement per (seller, buyer wallet, deed, price): drafting
      the same tuple again fails, through any User record of the same buyer
      wallet and whatever the second draft would store. */
  lemma OneAgreementPerTuple(w: World, accts: MakeAgreementAccounts, price: u64, written: Agreement,
                             accts': MakeAgreementAccounts, written': Agreement)
    requires MakeAgreement(w, accts, price, written).Ok?
    requires accts'.authority == accts.authority && accts'.titleDeed == accts.titleDeed
    requires var w' := MakeAgreement(w, accts, price, written).value;
      accts'.buyer in w' && w'[accts'.buyer].UserAccount? ==>
        w'[accts'.buyer].user.authority == w[accts.buyer].user.authority
    ensures MakeAgreement(MakeAgreement(w, accts, price, written).value, accts', price, written').Err?
  {
  }

  /** Only the agreement's buyer can sign it. */
  lemma OnlyBuyerSigns(w: World, accts: SignAgreementAccounts, price: u64)
    requires accts.titleDeed in w && w[accts.titleDeed].TitleDeedAccount?
    requires accts.agreement in w && w[accts.agreement].AgreementAccount?
    requires w[accts.agreement].agreement.titleDeed == accts.titleDeed
    requires accts.agreement == AgreementAddress(w[accts.agreement].agreement.seller.authority,
                                                 w[accts.agreement].agreement.buyer.authority, accts.titleDeed, price)
    requires w[accts.agreement].agreement.buyer.authority != accts.authority
    ensures SignAgreement(w, accts, price) == Err(Unauthorized)
  {
  }

  /** Signing at a price other than the stored one fails with InvalidTitleDeed
      when the record sits at the key of the signed price. */
  lemma SignAtWrongPriceFails(w: World, accts: SignAgreementAccounts, price: u64)
    requires accts.titleDeed in w && w[accts.titleDeed].TitleDeedAccount?
    requires accts.agreement in w && w[accts.agreement].AgreementAccount?
    requires w[accts.agreement].agreement.titleDeed == accts.titleDeed
    requires accts.agreement == AgreementAddress(w[accts.agreement].agreement.seller.authority,
                                                 w[accts.agreement].agreement.buyer.authority, accts.titleDeed, price)
    requires w[accts.agreement].agreement.buyer.authority == accts.authority
    requires w[accts.agreement].agreement.price != price
    ensures SignAgreement(w, accts, price) == Err(InvalidTitleDeed)
  {
  }

  /** When an agreement sits at the key of its own fields, the price check is
      never reached on a mismatch: the derivation fails first. */
  lemma PriceMismatchCaughtBySeeds(w: World, accts: SignAgreementAccounts, price: u64)
    requires accts.titleDeed in w && w[accts.titleDeed].TitleDeedAccount?
    requires accts.agreement in w && w[accts.agreement].AgreementAccount?
    requires var agr := w[accts.agreement].agreement;
      && agr.titleDeed == accts.titleDeed
      && accts.agreement == AgreementAddress(agr.seller.authority, agr.buyer.authority, agr.titleDeed, agr.price)
    requires w[accts.agreement].agreement.price != price
    ensures SignAgreement(w, accts, price) == Err(ConstraintSeeds)
  {
  }

  /** Cancelling does not look at who signs: any signer gets the same outcome. */
  lemma CancelIgnoresSigner(w: World, accts: CancelAgreementAccounts, anyone: Address)
    ensures CancelAgreement(w, accts) == CancelAgreement(w, accts.(authority := anyone))
  {
  }

  /** After a cancellation neither the agreement nor the deed's index exists,
      and every other record is still there, unchanged. */
  lemma CancelRemovesAgreementAndIndex(w: World, accts: CancelAgreementAccounts)
    requires CancelAgreement(w, accts).Ok?
    ensures accts.agreement !in CancelAgreement(w, accts).value
    ensures AgreementIndexAddress(w[accts.agreement].agreement.titleDeed) !in CancelAgreement(w, accts).value
    ensures forall a | a in w && a != accts.agreement
                       && a != AgreementIndexAddress(w[accts.agreement].agreement.titleDeed) ::
      a in CancelAgreement(w, accts).value && CancelAgreement(w, accts).value[a] == w[a]
  {
  }

  lemma MakeAgreementPreservesWf(w: World, accts: MakeAgreementAccounts, price: u64, written: Agreement)
    requires Wf(w)
    requires MakeAgreement(w, accts, price, written).Ok?
    ensures Wf(MakeAgreement(w, accts, price, written).value)
  {
  }

  lemma SignAgreementPreservesWf(w: World, accts: SignAgreementAccounts, price: u64)
    requires Wf(w)
    requires SignAgreement(w, accts, price).Ok?
    ensures Wf(SignAgreement(w, accts, price).value)
  {
  }

  lemma CancelAgreementPreservesWf(w: World, accts: CancelAgreementAccounts)
    requires Wf(w)
    requires CancelAgreement(w, accts).Ok?
    ensures Wf(CancelAgreement(w, accts).value)
  {
  }
}
