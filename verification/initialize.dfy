/** Bootstrapping the registry: `initialize` writes the one protocol state,
    holding the admin list, at the fixed address "protocol_state". */
module Initialization {
  import opened Results
  import opened Types
  import opened Accounts
  import opened WellFormed

  /** The accounts of `initialize`: the paying signer and the protocol state to create. */
  datatype InitializeLandRegistryAccounts = InitializeLandRegistryAccounts(
    payer: Address,
    protocolState: Address)

  /** The protocol state `initialize` writes for a given admin list. */
  function FreshProtocolState(admins: seq<Address>): ProtocolState {
    ProtocolState(admins, false)
  }

  /** `initialize(admins)`: create the protocol state, which can exist only once,
      provided the payer is among at most five admins. */
  function Initialize(w: World, accts: InitializeLandRegistryAccounts, admins: seq<Address>): (r: Result<World, Error>)
    ensures r.Ok? <==>
      && accts.protocolState == ProtocolStateAddress
      && ProtocolStateAddress !in w
      && accts.payer in admins
      && |admins| <= MaxAdmins
    ensures r.Ok? ==> r.value == w[ProtocolStateAddress := ProtocolStateAccount(ProtocolState(admins, false))]
    ensures accts.protocolState != ProtocolStateAddress ==> r == Err(ConstraintSeeds)
    ensures accts.protocolState == ProtocolStateAddress && ProtocolStateAddress in w ==> r == Err(AccountAlreadyInUse)
    ensures accts.protocolState == ProtocolStateAddress && ProtocolStateAddress !in w && r.Err? ==> r.error == InvalidAdmin
  {
    var state := FreshProtocolState(admins);
    :- CheckInit(w, accts.protocolState, ProtocolStateAddress);
    :- Require(accts.payer in admins, InvalidAdmin);
    :- Require(|admins| <= MaxAdmins, InvalidAdmin);
    // the non-emptiness check; it can never fail once the payer is in the list
    if |admins| == 0 then Err(InvalidAdmin)
    else Ok(w[accts.protocolState := ProtocolStateAccount(state)])
  }

  /** Once the protocol state exists, `initialize` always fails, whoever signs
      and whatever admin list is given. */
  lemma InitializeOnlyOnce(w: World, accts: InitializeLandRegistryAccounts, admins: seq<Address>,
                           accts': InitializeLandRegistryAccounts, admins': seq<Address>)
    requires Initialize(w, accts, admins).Ok?
    ensures Initialize(Initialize(w, accts, admins).value, accts', admins').Err?
    ensures accts'.protocolState == ProtocolStateAddress ==>
      Initialize(Initialize(w, accts, admins).value, accts', admins') == Err(AccountAlreadyInUse)
  {
  }

  /** The emptiness check never decides anything: an empty list is already
      rejected because it cannot contain the payer. */
  lemma EmptyAdminListRejected(w: World, accts: InitializeLandRegistryAccounts)
    ensures Initialize(w, accts, []).Err?
    ensures accts.protocolState == ProtocolStateAddress && ProtocolStateAddress !in w ==>
      Initialize(w, accts, []) == Err(InvalidAdmin)
  {
  }

  /** A successful `initialize` keeps the world well formed. */
  lemma InitializePreservesWf(w: World, accts: InitializeLandRegistryAccounts, admins: seq<Address>)
    requires Wf(w)
    requires Initialize(w, accts, admins).Ok?
    ensures Wf(Initialize(w, accts, admins).value)
  {
  }
}
