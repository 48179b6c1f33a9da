/** Values, addresses, account records and errors of the land registry program.

Every piece of on-chain state is a record stored at an address. The program
derives the address of each of its records from a namespace tag and seed
values; two different seed tuples never give the same address. Here that
derivation is a constructor (`Pda(seed)`), which makes it injective.
 */
module Types {

  /** Rust `u64` (prices, counters). */
  newtype u64 = x: int | 0 <= x < 0x1_0000_0000_0000_0000

  /** Rust `i64`, the type of the cluster clock's `unix_timestamp`. */
  newtype i64 = x: int | -0x8000_0000_0000_0000 <= x < 0x8000_0000_0000_0000

  /** The SHA-256 digest of a string's bytes, modelled as an injective
      function: two id numbers have the same digest only if they are equal. */
  datatype Digest = Sha256(preimage: string)

  /** A public key: either a wallet's own key or a program-derived address. */
  datatype Address =
    | Wallet(key: nat)
    | Pda(seed: Seed)

  /** The seed tuple behind each program-derived address; one constructor per
      namespace tag used in the account constraints. */
  datatype Seed =
    | ProtocolStateSeed                                   // "protocol_state"
    | AdminSeed(authority: Address)                       // "admin", authority
    | RegistrarSeed(authority: Address)                   // "registrar", authority
    | UserSeed(idHash: Digest, authority: Address)        // user tag, sha256(id), authority
    | IdNumberClaimSeed(idHash: Digest)                   // "id_number_claim", sha256(id)
    | TitleDeedSeed(owner: Address)                       // "title_deed", owner address
    | TitleForSaleSeed(seller: Address, titleDeed: Address)
    | TitleNumberLookupSeed(titleNumber: string)
    | AgreementSeed(seller: Address, buyer: Address, titleDeed: Address, price: u64)
    | AgreementIndexSeed(titleDeed: Address)
    | EscrowSeed(agreement: Address)
    | DepositSeed(escrow: Address)

  const ProtocolStateAddress: Address := Pda(ProtocolStateSeed)

  function AdminAddress(authority: Address): Address { Pda(AdminSeed(authority)) }

  function RegistrarAddress(authority: Address): Address { Pda(RegistrarSeed(authority)) }

  function UserAddress(idNumber: string, authority: Address): Address {
    Pda(UserSeed(Sha256(idNumber), authority))
  }

  function IdNumberClaimAddress(idNumber: string): Address {
    Pda(IdNumberClaimSeed(Sha256(idNumber)))
  }

  function TitleDeedAddress(owner: Address): Address { Pda(TitleDeedSeed(owner)) }

  function TitleForSaleAddress(seller: Address, titleDeed: Address): Address {
    Pda(TitleForSaleSeed(seller, titleDeed))
  }

  function TitleNumberLookupAddress(titleNumber: string): Address {
    Pda(TitleNumberLookupSeed(titleNumber))
  }

  function AgreementAddress(seller: Address, buyer: Address, titleDeed: Address, price: u64): Address {
    Pda(AgreementSeed(seller, buyer, titleDeed, price))
  }

  function AgreementIndexAddress(titleDeed: Address): Address { Pda(AgreementIndexSeed(titleDeed)) }

  function EscrowAddress(agreement: Address): Address { Pda(EscrowSeed(agreement)) }

  function DepositAddress(escrow: Address): Address { Pda(DepositSeed(escrow)) }

  /** Capacity of the admin list (`max_len(5)`). */
  const MaxAdmins: nat := 5

  /** The value a fresh account's string fields hold until a handler writes them. */
  const Blank: string := ""

  datatype ProtocolState = ProtocolState(admins: seq<Address>, isPaused: bool)

  datatype Admin = Admin(authority: Address, firstName: string, lastName: string, idNumber: string)

  datatype Registrar = Registrar(
    authority: Address,
    addedBy: Address,
    isActive: bool,
    idNumber: string,
    firstName: string,
    lastName: string)

  datatype User = User(
    authority: Address,
    firstName: string,
    lastName: string,
    idNumber: string,
    phoneNumber: string)

  /** Marker whose address is derived from the id number alone. */
  datatype IdNumberClaim = IdNumberClaim(person: Address)

  /** The deed embeds a copy of its owner's User record. The floating-point
      acreage is not modelled. */
  datatype TitleDeed = TitleDeed(
    owner: User,
    authority: Address,
    titleNumber: string,
    location: string,
    districtLandRegistry: string,
    registrationDate: i64,
    registryMapsheetNumber: u64,
    isForSale: bool,
    totalTransfers: u64)

  datatype TitleForSale = TitleForSale(titleDeed: Address, seller: User, salePrice: u64, listedAt: i64)

  datatype TitleNumberLookup = TitleNumberLookup(titleNumber: string, titleDeed: Address)

  datatype Agreement = Agreement(seller: User, buyer: User, titleDeed: Address, price: u64)

  /** Only the existence of an agreement index is ever observed. */
  datatype AgreementIndex = AgreementIndex

  datatype EscrowState = Created | PaymentDeposited | Completed

  datatype Escrow = Escrow(agreement: Address, buyer: Address, state: EscrowState)

  datatype Deposit = Deposit(escrow: Address, amount: u64)

  /** What one account holds; the constructor plays the part of the
      account discriminator. */
  datatype Record =
    | ProtocolStateAccount(protocolState: ProtocolState)
    | AdminAccount(admin: Admin)
    | RegistrarAccount(registrar: Registrar)
    | UserAccount(user: User)
    | IdNumberClaimAccount(claim: IdNumberClaim)
    | TitleDeedAccount(deed: TitleDeed)
    | TitleForSaleAccount(listing: TitleForSale)
    | TitleNumberLookupAccount(lookup: TitleNumberLookup)
    | AgreementAccount(agreement: Agreement)
    | AgreementIndexAccount(index: AgreementIndex)
    | EscrowAccount(escrow: Escrow)
    | DepositAccount(deposit: Deposit)

  /** All accounts owned by the program, by address. */
  type World = map<Address, Record>

  datatype Error =
    // raised while the framework validates the accounts of an instruction
    | AccountNotInitialized          // a required account holds no record
    | AccountDiscriminatorMismatch   // it holds a record of another type
    | AccountAlreadyInUse            // an `init` account already exists
    | ConstraintSeeds                // the passed address is not the derived one
    // the program's own error codes
    | InvalidAdmin
    | RegistrarAlreadyExists
    | RegistrarAlreadyConfirmed
    | InvalidRegistrar
    | DuplicateIdNumber
    | Unauthorized
    | TitleAuthorityMismatch
    | TitleNotForSale
    | TitleNotMarkedForSale
    | AgreementAlreadyExists
    | InvalidBuyerAuthority
    | AgreementAlreadyCancelled
    | AgreementNotSignedByBuyer
    | InvalidSeller
    | InvalidBuyer
    | InvalidTitleDeed
    | InvalidTitleDeedDetails
    // used by the account constraints but missing from the error enum
    | EscrowNotReadyForPayment
    | InvalidAgreement
}
