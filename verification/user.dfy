/** `create_user_account`: a wallet registers a person, together with the claim
    on that person's id number. The claim's address is derived from the id
    number alone, so an id number can be registered once system-wide. */
module Users {
  import opened Results
  import opened Types
  import opened Accounts
  import opened WellFormed

  /** The accounts of `create_user_account`: both records are created. */
  datatype CreateUserAccountAccounts = CreateUserAccountAccounts(
    authority: Address,
    user: Address,
    idNumberClaim: Address)

  function CreateUserAccount(w: World, accts: CreateUserAccountAccounts, firstName: string,
                             lastName: string, idNumber: string, phoneNumber: string): (r: Result<World, Error>)
    ensures r.Ok? <==>
      && accts.user == UserAddress(idNumber, accts.authority)
      && accts.idNumberClaim == IdNumberClaimAddress(idNumber)
      && UserAddress(idNumber, accts.authority) !in w
      && IdNumberClaimAddress(idNumber) !in w
    ensures r.Ok? ==>
      && r.value.Keys == w.Keys + {UserAddress(idNumber, accts.authority), IdNumberClaimAddress(idNumber)}
      && (forall a | a in w :: r.value[a] == w[a])
      && r.value[UserAddress(idNumber, accts.authority)] ==
         UserAccount(User(accts.authority, firstName, lastName, idNumber, phoneNumber))
      && r.value[IdNumberClaimAddress(idNumber)] ==
         IdNumberClaimAccount(IdNumberClaim(UserAddress(idNumber, accts.authority)))
    ensures r.Err? ==> r.error in {ConstraintSeeds, AccountAlreadyInUse}
  {
    var person := User(accts.authority, firstName, lastName, idNumber, phoneNumber);
    :- CheckInit(w, accts.user, UserAddress(idNumber, accts.authority));
    :- CheckInit(w, accts.idNumberClaim, IdNumberClaimAddress(idNumber));
    Ok(w[accts.user := UserAccount(person)][accts.idNumberClaim := IdNumberClaimAccount(IdNumberClaim(accts.user))])
  }

  /** Once an id number is claimed, registering it again fails for every
      wallet, and nothing is created. */
  lemma ClaimedIdNumberRejected(w: World, accts: CreateUserAccountAccounts, firstName: string,
                                lastName: string, idNumber: string, phoneNumber: string)
    requires IdNumberClaimAddress(idNumber) in w
    ensures CreateUserAccount(w, accts, firstName, lastName, idNumber, phoneNumber).Err?
    ensures accts.user == UserAddress(idNumber, accts.authority) && accts.idNumberClaim == IdNumberClaimAddress(idNumber) ==>
      CreateUserAccount(w, accts, firstName, lastName, idNumber, phoneNumber) == Err(AccountAlreadyInUse)
  {
  }

  /** Two registrations of one id number cannot both succeed, whichever wallets
      sign them. */
  lemma SecondRegistrationFails(w: World, accts: CreateUserAccountAccounts, accts': CreateUserAccountAccounts,
                                idNumber: string, f: string, l: string, p: string,
                                f': string, l': string, p': string)
    requires CreateUserAccount(w, accts, f, l, idNumber, p).Ok?
    ensures CreateUserAccount(CreateUserAccount(w, accts, f, l, idNumber, p).value, accts', f', l', idNumber, p').Err?
  {
  }

  lemma CreateUserPreservesWf(w: World, accts: CreateUserAccountAccounts, firstName: string,
                              lastName: string, idNumber: string, phoneNumber: string)
    requires Wf(w)
    requires CreateUserAccount(w, accts, firstName, lastName, idNumber, phoneNumber).Ok?
    ensures Wf(CreateUserAccount(w, accts, firstName, lastName, idNumber, phoneNumber).value)
  {
  }
}
