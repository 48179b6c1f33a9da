/** Concrete runs of the program, following the behaviours the repository's
    own test suite exercises: bootstrapping with two admins, admin
    confirmation and its two rejections, the registrar lifecycle, and a
    duplicate id-number registration. */
module Scenarios {
  import opened Results
  import opened Types
  import opened Initialization
  import opened AdminConfirmation
  import opened Registrars
  import opened Users

  const Admin1: Address := Wallet(1)
  const Admin2: Address := Wallet(2)
  const FakeAdmin: Address := Wallet(3)

  /** The world after `initialize([admin1, admin2])` paid by admin1. */
  function Bootstrapped(): (w: World)
    ensures w.Keys == {ProtocolStateAddress}
    ensures w[ProtocolStateAddress] == ProtocolStateAccount(ProtocolState([Admin1, Admin2], false))
  {
    Initialize(map[], InitializeLandRegistryAccounts(Admin1, ProtocolStateAddress), [Admin1, Admin2]).value
  }

  function ConfirmOwnSlot(who: Address): ConfirmAdminAccountAccounts {
    ConfirmAdminAccountAccounts(who, AdminAddress(who), ProtocolStateAddress)
  }

  /** Both listed admins confirm; the admin list keeps its two entries and the
      protocol is not paused. */
  lemma TwoAdminsConfirm()
    ensures var w1 := ConfirmAdminAccount(Bootstrapped(), ConfirmOwnSlot(Admin1));
      && w1.Ok?
      && w1.value[AdminAddress(Admin1)].admin.authority == Admin1
      && var w2 := ConfirmAdminAccount(w1.value, ConfirmOwnSlot(Admin2));
      && w2.Ok?
      && w2.value[ProtocolStateAddress].protocolState == ProtocolState([Admin1, Admin2], false)
  {
  }

  /** A wallet outside the list is refused with InvalidAdmin. */
  lemma FakeAdminRefused()
    ensures ConfirmAdminAccount(Bootstrapped(), ConfirmOwnSlot(FakeAdmin)) == Err(InvalidAdmin)
  {
  }

  /** Admin1 passing admin2's slot is refused on the address derivation. */
  lemma ConfirmingAnotherSlotRefused()
    ensures var w1 := ConfirmAdminAccount(Bootstrapped(), ConfirmOwnSlot(Admin1)).value;
      ConfirmAdminAccount(w1, ConfirmAdminAccountAccounts(Admin1, AdminAddress(Admin2), ProtocolStateAddress))
        == Err(ConstraintSeeds)
  {
  }

  /** Admin1 appoints registrar R with id number "123"; R confirms and becomes
      active; a second confirmation is refused. */
  lemma RegistrarLifecycle()
    ensures
      var r := Wallet(10);
      var w1 := ConfirmAdminAccount(Bootstrapped(), ConfirmOwnSlot(Admin1)).value;
      var add := AddRegistrarAccounts(Admin1, RegistrarAddress(r), AdminAddress(Admin1), ProtocolStateAddress);
      var w2 := AddRegistrar(w1, add, r, "Jane", "Doe", "123");
      && w2.Ok?
      && !w2.value[RegistrarAddress(r)].registrar.isActive
      && var confirm := ConfirmRegistrarAccountAccounts(r, RegistrarAddress(r), ProtocolStateAddress);
      && var w3 := ConfirmRegistrarAccount(w2.value, confirm);
      && w3.Ok?
      && w3.value[RegistrarAddress(r)].registrar.isActive
      && ConfirmRegistrarAccount(w3.value, confirm) == Err(RegistrarAlreadyConfirmed)
  {
  }

  /** A second wallet registering id number "111" is refused, and the first
      registration stays as it was. */
  lemma DuplicateIdNumberRefused()
    ensures
      var u1 := Wallet(20);
      var u2 := Wallet(21);
      var w1 := CreateUserAccount(map[], CreateUserAccountAccounts(u1, UserAddress("111", u1), IdNumberClaimAddress("111")),
                                  "Ann", "One", "111", "0700");
      && w1.Ok?
      && CreateUserAccount(w1.value, CreateUserAccountAccounts(u2, UserAddress("111", u2), IdNumberClaimAddress("111")),
                           "Bob", "Two", "111", "0711") == Err(AccountAlreadyInUse)
      && w1.value[UserAddress("111", u1)] == UserAccount(User(u1, "Ann", "One", "111", "0700"))
  {
  }
}
