/** The invariant every reachable world satisfies.

The protocol state, Admin, Registrar, User, id-number claim, TitleDeed and
TitleForSale records live at the address derived from their own contents (so
the address, not a field check, binds such a record to its owner). The
lookup, agreement, index, escrow and deposit records only sit at an address
of their own seed kind: their contents are written by handlers outside this
model. The identity records are linked:
- the protocol state is the single record at the fixed address, with one to
  five admins;
- every Admin record and the admin who added every Registrar appear in the
  protocol state's admin list;
- every User record has the claim of its id number pointing back at it, and
  every claim points at a User with that id number.
 */
module WellFormed {
  import opened Types

  /** `who` is in the admin list of the protocol state. */
  predicate ListedAdmin(w: World, who: Address) {
    && ProtocolStateAddress in w
    && w[ProtocolStateAddress].ProtocolStateAccount?
    && who in w[ProtocolStateAddress].protocolState.admins
  }

  /** The claim of `idNumber` exists and points at `person`. */
  predicate ClaimedBy(w: World, idNumber: string, person: Address) {
    && IdNumberClaimAddress(idNumber) in w
    && w[IdNumberClaimAddress(idNumber)] == IdNumberClaimAccount(IdNumberClaim(person))
  }

  /** The record at `a` sits where its contents say it should. */
  predicate Placed(w: World, a: Address)
    requires a in w
  {
    match w[a]
    case ProtocolStateAccount(ps) =>
      a == ProtocolStateAddress && 0 < |ps.admins| <= MaxAdmins
    case AdminAccount(x) =>
      a == AdminAddress(x.authority) && ListedAdmin(w, x.authority)
    case RegistrarAccount(x) =>
      a == RegistrarAddress(x.authority) && ListedAdmin(w, x.addedBy)
    case UserAccount(u) =>
      a == UserAddress(u.idNumber, u.authority) && ClaimedBy(w, u.idNumber, a)
    case IdNumberClaimAccount(c) =>
      && c.person in w
      && w[c.person].UserAccount?
      && a == IdNumberClaimAddress(w[c.person].user.idNumber)
    case TitleDeedAccount(d) => a == TitleDeedAddress(d.authority)
    case TitleForSaleAccount(l) => a == TitleForSaleAddress(l.seller.authority, l.titleDeed)
    case TitleNumberLookupAccount(_) => a.Pda? && a.seed.TitleNumberLookupSeed?
    case AgreementAccount(_) => a.Pda? && a.seed.AgreementSeed?
    case AgreementIndexAccount(_) => a.Pda? && a.seed.AgreementIndexSeed?
    case EscrowAccount(_) => a.Pda? && a.seed.EscrowSeed?
    case DepositAccount(_) => a.Pda? && a.seed.DepositSeed?
  }

  predicate Wf(w: World) {
    forall a | a in w :: Placed(w, a)
  }

  /** `w'` keeps every record of `w` unchanged (and may add more). */
  predicate Grows(w: World, w': World) {
    forall a | a in w :: a in w' && w'[a] == w[a]
  }

  /** Adding records never displaces the ones already placed. */
  lemma PlacedPersists(w: World, w': World, a: Address)
    requires a in w && Placed(w, a)
    requires Grows(w, w')
    ensures a in w' && Placed(w', a)
  {
  }

  /** Adding records that are themselves placed keeps the world well formed. */
  lemma GrowsWf(w: World, w': World)
    requires Wf(w) && Grows(w, w')
    requires forall a | a in w' && a !in w :: Placed(w', a)
    ensures Wf(w')
  {
  }

  /** There is at most one protocol state: any record of that type sits at
      the fixed address. */
  lemma ProtocolStateIsSingleton(w: World, a: Address)
    requires Wf(w) && a in w && w[a].ProtocolStateAccount?
    ensures a == ProtocolStateAddress
  {
    assert Placed(w, a);
  }

  /** Two users with the same id number are the same record, whatever
      wallets created them. */
  lemma OneUserPerIdNumber(w: World, a: Address, b: Address)
    requires Wf(w)
    requires a in w && w[a].UserAccount? && b in w && w[b].UserAccount?
    requires w[a].user.idNumber == w[b].user.idNumber
    ensures a == b
  {
    assert Placed(w, a) && Placed(w, b);
  }

  /** An Admin record is confirmation by its own authority, who is a listed admin. */
  lemma AdminRecordsAreSelfOwned(w: World, a: Address)
    requires Wf(w) && a in w && w[a].AdminAccount?
    ensures a == AdminAddress(w[a].admin.authority)
    ensures ListedAdmin(w, w[a].admin.authority)
  {
    assert Placed(w, a);
  }

  /** The deed stored at the slot of `owner` has `owner` as its authority, so
      a deed account passed as `TitleDeedAddress(signer)` is the signer's. */
  lemma DeedSlotBinding(w: World, owner: Address)
    requires Wf(w)
    requires TitleDeedAddress(owner) in w && w[TitleDeedAddress(owner)].TitleDeedAccount?
    ensures w[TitleDeedAddress(owner)].deed.authority == owner
  {
    assert Placed(w, TitleDeedAddress(owner));
  }

  /** The registrar stored at the slot of `signer` has `signer` as its authority. */
  lemma RegistrarSlotBinding(w: World, signer: Address)
    requires Wf(w)
    requires RegistrarAddress(signer) in w && w[RegistrarAddress(signer)].RegistrarAccount?
    ensures w[RegistrarAddress(signer)].registrar.authority == signer
    ensures ListedAdmin(w, w[RegistrarAddress(signer)].registrar.addedBy)
  {
    assert Placed(w, RegistrarAddress(signer));
  }
}
