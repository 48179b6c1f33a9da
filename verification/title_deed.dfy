/** Title deeds: an active registrar assigns a deed to an owner address
    (`assign_title_deed_to_owner`), the owner lists it for sale
    (`mark_title_for_sale`), and anyone registered may look a deed up by its
    title number (`search_title_deed_by_number`). */
module TitleDeeds {
  import opened Results
  import opened Types
  import opened Accounts
  import opened WellFormed

  /** The accounts of `assign_title_deed_to_owner`. */
  datatype AssignTitleDeedToOwnerAccounts = AssignTitleDeedToOwnerAccounts(
    authority: Address,
    registrar: Address,
    titleDeed: Address,
    owner: Address)

  /** The accounts of `mark_title_for_sale`. The deed and the seller carry no
      seeds constraint. */
  datatype MarkTitleForSaleAccounts = MarkTitleForSaleAccounts(
    authority: Address,
    titleDeed: Address,
    seller: Address,
    titleForSale: Address)

  /** The accounts of `search_title_deed_by_number`. The lookup account is
      unchecked. */
  datatype SearchTitleDeedByNumberAccounts = SearchTitleDeedByNumberAccounts(
    authority: Address,
    titleDeed: Address,
    titleNumberLookup: Address,
    searchedBy: Address)

  /** A deed as the assignment handler leaves it: owner, authority and the
      sale flag are written; every other field keeps its zero value. */
  function AssignedDeed(owner: User, newOwnerAddress: Address): (d: TitleDeed)
    ensures d.owner == owner && d.authority == newOwnerAddress && !d.isForSale
  {
    TitleDeed(owner, newOwnerAddress, Blank, Blank, Blank, 0, 0, false, 0)
  }

  /** `assign_title_deed_to_owner(new_owner_address, …)`. */
  function AssignTitleDeedToOwner(w: World, accts: AssignTitleDeedToOwnerAccounts,
                                  newOwnerAddress: Address): (r: Result<World, Error>)
    ensures r.Ok? <==>
      && accts.registrar in w && w[accts.registrar].RegistrarAccount?
      && accts.owner in w && w[accts.owner].UserAccount?
      && accts.titleDeed == TitleDeedAddress(newOwnerAddress)
      && TitleDeedAddress(newOwnerAddress) !in w
      && w[accts.registrar].registrar.isActive
      && w[accts.registrar].registrar.authority == accts.authority
      && accts.registrar == RegistrarAddress(accts.authority)
    ensures r.Ok? ==>
      && r.value.Keys == w.Keys + {TitleDeedAddress(newOwnerAddress)}
      && (forall a | a in w :: r.value[a] == w[a])
      && r.value[TitleDeedAddress(newOwnerAddress)].TitleDeedAccount?
      && var deed := r.value[TitleDeedAddress(newOwnerAddress)].deed;
      && deed.owner == w[accts.owner].user
      && deed.authority == newOwnerAddress
      && !deed.isForSale
  {
    var reg :- FetchRegistrar(w, accts.registrar);
    var owner :- FetchUser(w, accts.owner);
    :- CheckInit(w, accts.titleDeed, TitleDeedAddress(newOwnerAddress));
    :- Require(reg.isActive, InvalidRegistrar);
    :- Require(reg.authority == accts.authority, InvalidRegistrar);
    :- CheckSeeds(accts.registrar, RegistrarAddress(accts.authority));
    Ok(w[accts.titleDeed := TitleDeedAccount(AssignedDeed(owner, newOwnerAddress))])
  }

  /** `mark_title_for_sale(price)`, at clock time `now`. */
  function MarkTitleForSale(w: World, accts: MarkTitleForSaleAccounts, price: u64, now: i64): (r: Result<World, Error>)
    ensures r.Ok? <==>
      && accts.titleDeed in w && w[accts.titleDeed].TitleDeedAccount?
      && accts.seller in w && w[accts.seller].UserAccount?
      && accts.titleForSale == TitleForSaleAddress(accts.authority, accts.titleDeed)
      && TitleForSaleAddress(accts.authority, accts.titleDeed) !in w
      && w[accts.titleDeed].deed.authority == accts.authority
      && w[accts.titleDeed].deed.owner.authority == accts.authority
      && w[accts.seller].user.authority == accts.authority
    ensures r.Ok? ==>
      && var listing := TitleForSaleAddress(accts.authority, accts.titleDeed);
      && r.value.Keys == w.Keys + {listing}
      && (forall a | a in w && a != accts.titleDeed :: r.value[a] == w[a])
      && r.value[accts.titleDeed] == TitleDeedAccount(w[accts.titleDeed].deed.(isForSale := true))
      && r.value[listing] == TitleForSaleAccount(TitleForSale(accts.titleDeed, w[accts.seller].user, price, now))
  {
    var deed :- FetchTitleDeed(w, accts.titleDeed);
    var seller :- FetchUser(w, accts.seller);
    :- CheckInit(w, accts.titleForSale, TitleForSaleAddress(seller.authority, accts.titleDeed));
    // the five ownership constraints, in order: on the listing, twice on the
    // deed, twice on the seller; all fail with the same error
    :- Require(&& accts.authority == deed.owner.authority
               && deed.authority == accts.authority
               && deed.owner.authority == accts.authority
               && seller.authority == accts.authority
               && seller.authority == deed.owner.authority, Unauthorized);
    Ok(w[accts.titleDeed := TitleDeedAccount(deed.(isForSale := true))]
        [accts.titleForSale := TitleForSaleAccount(TitleForSale(accts.titleDeed, seller, price, now))])
  }

  /** `search_title_deed_by_number(title_number)`: the account checks only. */
  function SearchTitleDeedByNumber(w: World, accts: SearchTitleDeedByNumberAccounts,
                                   titleNumber: string): (r: Result<World, Error>)
    ensures r.Ok? <==>
      && accts.titleDeed in w && w[accts.titleDeed].TitleDeedAccount?
      && accts.searchedBy in w && w[accts.searchedBy].UserAccount?
      && w[accts.titleDeed].deed.titleNumber == titleNumber
      && w[accts.searchedBy].user.authority == accts.authority
    ensures r.Ok? ==> r.value == w
    ensures accts.titleDeed in w && w[accts.titleDeed].TitleDeedAccount?
            && accts.searchedBy in w && w[accts.searchedBy].UserAccount? ==>
      && (w[accts.titleDeed].deed.titleNumber != titleNumber ==> r == Err(TitleAuthorityMismatch))
      && ((w[accts.titleDeed].deed.titleNumber == titleNumber && w[accts.searchedBy].user.authority != accts.authority)
            ==> r == Err(Unauthorized))
  {
    var deed :- FetchTitleDeed(w, accts.titleDeed);
    var searcher :- FetchUser(w, accts.searchedBy);
    :- Require(deed.titleNumber == titleNumber, TitleAuthorityMismatch);
    :- Require(searcher.authority == accts.authority, Unauthorized);
    Ok(w)
  }

  /** Only an active registrar signing with its own key can assign a deed;
      any other registrar record fails with InvalidRegistrar. */
  lemma AssignNeedsActiveSigningRegistrar(w: World, accts: AssignTitleDeedToOwnerAccounts, newOwnerAddress: Address)
    requires accts.registrar in w && w[accts.registrar].RegistrarAccount?
    requires accts.owner in w && w[accts.owner].UserAccount?
    requires accts.titleDeed == TitleDeedAddress(newOwnerAddress) && accts.titleDeed !in w
    requires !w[accts.registrar].registrar.isActive || w[accts.registrar].registrar.authority != accts.authority
    ensures AssignTitleDeedToOwner(w, accts, newOwnerAddress) == Err(InvalidRegistrar)
  {
  }

  /** Each owner address holds at most one deed: a second assignment to the
      same address fails, whoever assigns it. */
  lemma OneDeedPerOwnerAddress(w: World, accts: AssignTitleDeedToOwnerAccounts,
                               accts': AssignTitleDeedToOwnerAccounts, newOwnerAddress: Address)
    requires AssignTitleDeedToOwner(w, accts, newOwnerAddress).Ok?
    ensures AssignTitleDeedToOwner(AssignTitleDeedToOwner(w, accts, newOwnerAddress).value, accts', newOwnerAddress).Err?
  {
  }

  /** Nothing in the assignment ties the stored owner record to the owner
      address: the deed at the slot of `newOwnerAddress` may embed the User of
      any other wallet. */
  lemma AssignDoesNotBindOwnerToAddress(w: World, accts: AssignTitleDeedToOwnerAccounts, newOwnerAddress: Address)
    requires AssignTitleDeedToOwner(w, accts, newOwnerAddress).Ok?
    requires w[accts.owner].user.authority != newOwnerAddress
    ensures var deed := AssignTitleDeedToOwner(w, accts, newOwnerAddress).value[TitleDeedAddress(newOwnerAddress)].deed;
            deed.owner.authority != deed.authority
  {
  }

  /** Listing fails with Unauthorized unless the signer is the deed's
      authority, its owner's authority and the seller's authority. */
  lemma ListingNeedsOwner(w: World, accts: MarkTitleForSaleAccounts, price: u64, now: i64)
    requires accts.titleDeed in w && w[accts.titleDeed].TitleDeedAccount?
    requires accts.seller in w && w[accts.seller].UserAccount?
    requires accts.titleForSale == TitleForSaleAddress(w[accts.seller].user.authority, accts.titleDeed)
    requires accts.titleForSale !in w
    requires || w[accts.titleDeed].deed.authority != accts.authority
             || w[accts.titleDeed].deed.owner.authority != accts.authority
             || w[accts.seller].user.authority != accts.authority
    ensures MarkTitleForSale(w, accts, price, now) == Err(Unauthorized)
  {
  }

  /** A (seller, deed) pair is listed at most once. */
  lemma OneListingPerSellerAndDeed(w: World, accts: MarkTitleForSaleAccounts, price: u64, now: i64,
                                   accts': MarkTitleForSaleAccounts, price': u64, now': i64)
    requires MarkTitleForSale(w, accts, price, now).Ok?
    requires accts'.authority == accts.authority && accts'.titleDeed == accts.titleDeed
    ensures MarkTitleForSale(MarkTitleForSale(w, accts, price, now).value, accts', price', now').Err?
  {
  }

  /** Listing changes nothing in the deed but its sale flag. */
  lemma ListingKeepsOwnership(w: World, accts: MarkTitleForSaleAccounts, price: u64, now: i64)
    requires MarkTitleForSale(w, accts, price, now).Ok?
    ensures var deed' := MarkTitleForSale(w, accts, price, now).value[accts.titleDeed].deed;
            && deed'.owner == w[accts.titleDeed].deed.owner
            && deed'.authority == w[accts.titleDeed].deed.authority
            && deed'.titleNumber == w[accts.titleDeed].deed.titleNumber
            && deed'.totalTransfers == w[accts.titleDeed].deed.totalTransfers
            && deed'.isForSale
  {
  }

  lemma AssignPreservesWf(w: World, accts: AssignTitleDeedToOwnerAccounts, newOwnerAddress: Address)
    requires Wf(w)
    requires AssignTitleDeedToOwner(w, accts, newOwnerAddress).Ok?
    ensures Wf(AssignTitleDeedToOwner(w, accts, newOwnerAddress).value)
  {
  }

  lemma MarkPreservesWf(w: World, accts: MarkTitleForSaleAccounts, price: u64, now: i64)
    requires Wf(w)
    requires MarkTitleForSale(w, accts, price, now).Ok?
    ensures Wf(MarkTitleForSale(w, accts, price, now).value)
  {
  }

  lemma SearchPreservesWf(w: World, accts: SearchTitleDeedByNumberAccounts, titleNumber: string)
    requires Wf(w)
    requires SearchTitleDeedByNumber(w, accts, titleNumber).Ok?
    ensures Wf(SearchTitleDeedByNumber(w, accts, titleNumber).value)
  {
  }
}
