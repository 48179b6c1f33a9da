/** Registrars: an admin appoints one (`add_registrar`, inactive), and the
    registrar activates itself once (`confirm_registrar_account`). */
module Registrars {
  import opened Results
  import opened Types
  import opened Accounts
  import opened WellFormed
  import AdminConfirmation

  /** The accounts of `add_registrar`. The Admin account carries no constraint
      at all; only its type is checked. */
  datatype AddRegistrarAccounts = AddRegistrarAccounts(
    authority: Address,
    registrar: Address,
    admin: Address,
    protocolState: Address)

  /** The accounts of `confirm_registrar_account`. */
  datatype ConfirmRegistrarAccountAccounts = ConfirmRegistrarAccountAccounts(
    authority: Address,
    registrar: Address,
    protocolState: Address)

  /** `add_registrar(address, first_name, last_name, id_number)`. */
  function AddRegistrar(w: World, accts: AddRegistrarAccounts, address: Address,
                        firstName: string, lastName: string, idNumber: string): (r: Result<World, Error>)
    ensures r.Ok? <==>
      && accts.admin in w && w[accts.admin].AdminAccount?
      && accts.protocolState in w && w[accts.protocolState].ProtocolStateAccount?
      && accts.registrar == RegistrarAddress(address)
      && RegistrarAddress(address) !in w
      && accts.authority in w[accts.protocolState].protocolState.admins
    ensures r.Ok? ==>
      && r.value.Keys == w.Keys + {RegistrarAddress(address)}
      && (forall a | a in w :: r.value[a] == w[a])
      && r.value[RegistrarAddress(address)].RegistrarAccount?
      && var reg := r.value[RegistrarAddress(address)].registrar;
      && reg.authority == address
      && reg.addedBy == accts.authority
      && !reg.isActive
      && reg.firstName == firstName && reg.lastName == lastName && reg.idNumber == idNumber
  {
    var _ :- FetchAdmin(w, accts.admin);
    var ps :- FetchProtocolState(w, accts.protocolState);
    :- CheckInit(w, accts.registrar, RegistrarAddress(address));
    // `is_admin`: taken to be the same membership test as admin confirmation
    :- AdminConfirmation.ValidateAdmin(accts.authority, ps);
    Ok(w[accts.registrar := RegistrarAccount(Registrar(address, accts.authority, false, idNumber, firstName, lastName))])
  }

  /** `confirm_registrar_account`: activate the signer's own registrar record. */
  function ConfirmRegistrarAccount(w: World, accts: ConfirmRegistrarAccountAccounts): (r: Result<World, Error>)
    ensures r.Ok? <==>
      && accts.registrar in w && w[accts.registrar].RegistrarAccount?
      && accts.protocolState in w && w[accts.protocolState].ProtocolStateAccount?
      && accts.registrar == RegistrarAddress(accts.authority)
      && !w[accts.registrar].registrar.isActive
      && w[accts.registrar].registrar.authority == accts.authority
    ensures r.Ok? ==>
      && r.value.Keys == w.Keys
      && (forall a | a in w && a != RegistrarAddress(accts.authority) :: r.value[a] == w[a])
      && r.value[RegistrarAddress(accts.authority)] ==
         RegistrarAccount(w[RegistrarAddress(accts.authority)].registrar.(isActive := true))
    ensures !(accts.registrar in w && w[accts.registrar].RegistrarAccount?) ==>
      r == Err(Missing(w, accts.registrar))
    ensures accts.registrar in w && w[accts.registrar].RegistrarAccount?
            && accts.protocolState in w && w[accts.protocolState].ProtocolStateAccount? ==>
      && (accts.registrar != RegistrarAddress(accts.authority) ==> r == Err(ConstraintSeeds))
      && (accts.registrar == RegistrarAddress(accts.authority) && w[accts.registrar].registrar.isActive ==>
            r == Err(RegistrarAlreadyConfirmed))
      && ((accts.registrar == RegistrarAddress(accts.authority) && !w[accts.registrar].registrar.isActive
           && w[accts.registrar].registrar.authority != accts.authority)
            ==> r == Err(InvalidRegistrar))
  {
    var reg :- FetchRegistrar(w, accts.registrar);
    var _ :- FetchProtocolState(w, accts.protocolState);
    :- CheckSeeds(accts.registrar, RegistrarAddress(accts.authority));
    :- Require(!reg.isActive, RegistrarAlreadyConfirmed);
    :- Require(accts.authority == reg.authority, InvalidRegistrar);
    Ok(w[accts.registrar := RegistrarAccount(reg.(isActive := true))])
  }

  /** Adding a registrar fails with InvalidAdmin for a signer outside the admin
      list, even when it passes some Admin account. */
  lemma NonAdminCannotAddRegistrar(w: World, accts: AddRegistrarAccounts, address: Address,
                                   firstName: string, lastName: string, idNumber: string)
    requires accts.admin in w && w[accts.admin].AdminAccount?
    requires accts.protocolState in w && w[accts.protocolState].ProtocolStateAccount?
    requires accts.registrar == RegistrarAddress(address) && accts.registrar !in w
    requires accts.authority !in w[accts.protocolState].protocolState.admins
    ensures AddRegistrar(w, accts, address, firstName, lastName, idNumber) == Err(InvalidAdmin)
  {
  }

  /** Confirmation only ever touches the signer's own slot: passing another
      registrar's record fails on the address derivation. */
  lemma ConfirmTouchesOnlyOwnSlot(w: World, accts: ConfirmRegistrarAccountAccounts, other: Address)
    requires accts.registrar in w && w[accts.registrar].RegistrarAccount?
    requires accts.protocolState in w && w[accts.protocolState].ProtocolStateAccount?
    requires other != accts.authority && accts.registrar == RegistrarAddress(other)
    ensures ConfirmRegistrarAccount(w, accts) == Err(ConstraintSeeds)
  {
  }

  /** An already active registrar cannot be confirmed again. */
  lemma ConfirmActiveRegistrarFails(w: World, accts: ConfirmRegistrarAccountAccounts)
    requires accts.registrar in w && w[accts.registrar].RegistrarAccount?
    requires accts.protocolState in w && w[accts.protocolState].ProtocolStateAccount?
    requires accts.registrar == RegistrarAddress(accts.authority)
    requires w[accts.registrar].registrar.isActive
    ensures ConfirmRegistrarAccount(w, accts) == Err(RegistrarAlreadyConfirmed)
  {
  }

  /** Activation happens once: a confirmed registrar cannot confirm again. */
  lemma ConfirmRegistrarOnce(w: World, accts: ConfirmRegistrarAccountAccounts)
    requires ConfirmRegistrarAccount(w, accts).Ok?
    ensures ConfirmRegistrarAccount(ConfirmRegistrarAccount(w, accts).value, accts) == Err(RegistrarAlreadyConfirmed)
  {
  }

  /** In a well-formed world the handler's own authority check is never the one
      that fails: the address derivation has already bound the record to the
      signer. */
  lemma ConfirmRegistrarNeverInvalidRegistrar(w: World, accts: ConfirmRegistrarAccountAccounts)
    requires Wf(w)
    ensures ConfirmRegistrarAccount(w, accts) != Err(InvalidRegistrar)
  {
    if accts.registrar == RegistrarAddress(accts.authority) && accts.registrar in w
       && w[accts.registrar].RegistrarAccount? {
      RegistrarSlotBinding(w, accts.authority);
    }
  }

  /** The registrar lifecycle inactive then active, from appointment to
      confirmation by the appointed address. */
  lemma AppointThenConfirm(w: World, accts: AddRegistrarAccounts, address: Address,
                           firstName: string, lastName: string, idNumber: string, ps: Address)
    requires AddRegistrar(w, accts, address, firstName, lastName, idNumber).Ok?
    requires ps in w && w[ps].ProtocolStateAccount?
    ensures var w' := AddRegistrar(w, accts, address, firstName, lastName, idNumber).value;
            var confirm := ConfirmRegistrarAccountAccounts(address, RegistrarAddress(address), ps);
            && ConfirmRegistrarAccount(w', confirm).Ok?
            && ConfirmRegistrarAccount(w', confirm).value[RegistrarAddress(address)].registrar ==
               Registrar(address, accts.authority, true, idNumber, firstName, lastName)
  {
  }

  lemma AddRegistrarPreservesWf(w: World, accts: AddRegistrarAccounts, address: Address,
                                firstName: string, lastName: string, idNumber: string)
    requires Wf(w)
    requires AddRegistrar(w, accts, address, firstName, lastName, idNumber).Ok?
    ensures Wf(AddRegistrar(w, accts, address, firstName, lastName, idNumber).value)
  {
  }

  lemma ConfirmRegistrarPreservesWf(w: World, accts: ConfirmRegistrarAccountAccounts)
    requires Wf(w)
    requires ConfirmRegistrarAccount(w, accts).Ok?
    ensures Wf(ConfirmRegistrarAccount(w, accts).value)
  {
  }
}
