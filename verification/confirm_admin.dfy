/** `confirm_admin_account`: a listed admin creates its own Admin record, at
    the address derived from its own key. */
module AdminConfirmation {
  import opened Results
  import opened Types
  import opened Accounts
  import opened WellFormed

  /** The accounts of `confirm_admin_account`. The protocol state carries no
      seeds constraint: any ProtocolState account may be passed. */
  datatype ConfirmAdminAccountAccounts = ConfirmAdminAccountAccounts(
    authority: Address,
    admin: Address,
    protocolState: Address)

  /** `validate_admin`: the signer must be in the protocol state's admin list. */
  function ValidateAdmin(authority: Address, ps: ProtocolState): (c: Check<Error>)
    ensures c.Pass? <==> exists i :: 0 <= i < |ps.admins| && ps.admins[i] == authority
    ensures c.Fail? ==> c.error == InvalidAdmin
  {
    Require(authority in ps.admins, InvalidAdmin)
  }

  /** The Admin record a confirmation creates: only the authority is written. */
  function ConfirmedAdmin(authority: Address): (a: Admin)
    ensures a.authority == authority
    ensures a.firstName == Blank && a.lastName == Blank && a.idNumber == Blank
  {
    Admin(authority, Blank, Blank, Blank)
  }

  function ConfirmAdminAccount(w: World, accts: ConfirmAdminAccountAccounts): (r: Result<World, Error>)
    ensures r.Ok? <==>
      && accts.protocolState in w
      && w[accts.protocolState].ProtocolStateAccount?
      && accts.admin == AdminAddress(accts.authority)
      && AdminAddress(accts.authority) !in w
      && accts.authority in w[accts.protocolState].protocolState.admins
    ensures r.Ok? ==>
      && r.value.Keys == w.Keys + {AdminAddress(accts.authority)}
      && r.value[AdminAddress(accts.authority)].AdminAccount?
      && r.value[AdminAddress(accts.authority)].admin.authority == accts.authority
      && forall a | a in w :: r.value[a] == w[a]
  {
    var ps :- FetchProtocolState(w, accts.protocolState);
    :- CheckInit(w, accts.admin, AdminAddress(accts.authority));
    :- ValidateAdmin(accts.authority, ps);
    Ok(w[accts.admin := AdminAccount(ConfirmedAdmin(accts.authority))])
  }

  /** A signer outside the admin list cannot confirm: the call fails with
      InvalidAdmin and so creates no Admin record. */
  lemma UnlistedSignerRejected(w: World, accts: ConfirmAdminAccountAccounts)
    requires accts.protocolState in w && w[accts.protocolState].ProtocolStateAccount?
    requires accts.admin == AdminAddress(accts.authority) && accts.admin !in w
    requires accts.authority !in w[accts.protocolState].protocolState.admins
    ensures ConfirmAdminAccount(w, accts) == Err(InvalidAdmin)
  {
  }

  /** A signer cannot fill another identity's admin slot: the address does
      not match the signer's derivation, whatever lists the signer is in. */
  lemma CannotConfirmAnotherAdminsSlot(w: World, accts: ConfirmAdminAccountAccounts, other: Address)
    requires accts.protocolState in w && w[accts.protocolState].ProtocolStateAccount?
    requires other != accts.authority
    requires accts.admin == AdminAddress(other)
    ensures ConfirmAdminAccount(w, accts) == Err(ConstraintSeeds)
  {
  }

  /** Confirming twice fails: the second call finds the slot in use. */
  lemma ConfirmTwiceFails(w: World, accts: ConfirmAdminAccountAccounts)
    requires ConfirmAdminAccount(w, accts).Ok?
    ensures ConfirmAdminAccount(ConfirmAdminAccount(w, accts).value, accts) == Err(AccountAlreadyInUse)
  {
  }

  /** Confirmation only reads the protocol state: neither the admin list nor
      the pause flag changes. */
  lemma ConfirmLeavesProtocolState(w: World, accts: ConfirmAdminAccountAccounts)
    requires ConfirmAdminAccount(w, accts).Ok?
    ensures ProtocolStateAddress in w ==>
      ConfirmAdminAccount(w, accts).value[ProtocolStateAddress] == w[ProtocolStateAddress]
    ensures accts.protocolState in ConfirmAdminAccount(w, accts).value
    ensures ConfirmAdminAccount(w, accts).value[accts.protocolState] == w[accts.protocolState]
  {
  }

  /** In a well-formed world the protocol state consulted is the real one, so
      the new Admin record keeps the world well formed. */
  lemma ConfirmAdminPreservesWf(w: World, accts: ConfirmAdminAccountAccounts)
    requires Wf(w)
    requires ConfirmAdminAccount(w, accts).Ok?
    ensures Wf(ConfirmAdminAccount(w, accts).value)
  {
  }
}
