# landlocked — a Dafny model of the land-registry program

landlocked is a Solana (Anchor) program for a land registry. Its parts:

- a fixed list of protocol admins;
- admins who confirm themselves;
- registrars that an admin appoints and that then activate themselves;
- citizens registered with a unique national id number;
- title deeds a registrar assigns to an owner, which the owner can list for sale;
- an agreement, escrow and deposit flow that settles a sale.

Every record sits at an address derived from fixed seeds. Most of the program's safety comes from these derivations and from Anchor's account constraints: `init` (the slot must be empty), `seeds` (the passed address must be the derived one), `close` (the record is removed) and `constraint = … @ E` (otherwise fail with E). The instruction handlers add a few `require!` checks and write the record fields.

The model is one sequential state machine:

- `Types.World` maps addresses to records. The record's constructor plays the part of Anchor's account discriminator.
- An address is either a wallet or a program-derived address. A program-derived address has one `Types.Seed` constructor per seed tag, so derivation is injective by construction.
- Each instruction is a pure function `World × accounts × arguments → Result<World, Error>`. It runs the checks in the order Anchor's generated code runs them:
  1. Deserialize the typed non-`init` accounts in declaration order. An address holding no program record fails with `AccountNotInitialized`; one holding a record of another type fails with `AccountDiscriminatorMismatch`.
  2. Handle each `init` account: its seeds, then "already in use", then its own constraints.
  3. Check the remaining accounts' seeds and constraints, in field order.
  4. Run the handler.
- `Program.Process` dispatches one of the 14 instructions of `lib.rs`. `Program.Commit` applies a transaction all-or-nothing. `Program.Run` folds a sequence of transactions.

Several instructions have no handler in the repository: `make_agreement`, `sign_agreement`, `cancel_agreement`, `create_escrow`, `deposit_payment_to_escrow`, `authorize_escrow` and `search_title_deed_by_number`. They are modelled at the level of their account constraints:

- A record that their `init` creates takes its contents from an argument, `written`.
- `close` removes the record.
- Otherwise the world is unchanged.

`Types.Error` contains:

- the framework errors;
- every variant of `error.rs`;
- `EscrowNotReadyForPayment` and `InvalidAgreement`, which `contexts.rs` raises but `error.rs` does not list.

`WellFormed.Wf` is the invariant of reachable worlds:

- the protocol state, Admin, Registrar, User, id-number claim, TitleDeed and TitleForSale records sit at the address their own fields derive;
- the TitleNumberLookup, Agreement, AgreementIndex, Escrow and Deposit records only sit at an address of their own seed kind, because the handlers that would write their contents are not part of this model;

- the protocol state is a singleton with 1 to 5 admins;
- every Admin record belongs to a listed admin;
- every User is bound to the id-number claim that points back at it.

Every instruction preserves `Wf`. So every world reachable from the empty ledger satisfies it, and consequences such as "one User per id number" hold for all reachable worlds.

## Model

| member | source | states |
|---|---|---|
| Results.Require | programs/landlocked/src/instructions/initialize.rs:6-13 | a `require!`: passes exactly when the condition holds, and otherwise fails with the given error |
| Accounts.CheckInit | programs/landlocked/src/contexts.rs:15-21 | an `init` account passes exactly when the passed address is the derived one and that slot is empty; a wrong address fails with ConstraintSeeds, an occupied slot with AccountAlreadyInUse |
| Accounts.FetchRegistrar | programs/landlocked/src/contexts.rs:71 | a typed account deserializes exactly when a record of that type is stored there and returns that record; otherwise it fails with AccountNotInitialized or AccountDiscriminatorMismatch |
| Accounts.FetchProtocolState | programs/landlocked/src/contexts.rs:38 | an `Account<ProtocolState>` deserializes exactly when a ProtocolState record is stored at the address and returns that record; otherwise AccountNotInitialized (no record) or AccountDiscriminatorMismatch (a record of another type) |
| Accounts.FetchAdmin | programs/landlocked/src/contexts.rs:55 | an `Account<Admin>` deserializes exactly when a Admin record is stored at the address and returns that record; otherwise AccountNotInitialized (no record) or AccountDiscriminatorMismatch (a record of another type) |
| Accounts.FetchUser | programs/landlocked/src/contexts.rs:131 | an `Account<User>` deserializes exactly when a User record is stored at the address and returns that record; otherwise AccountNotInitialized (no record) or AccountDiscriminatorMismatch (a record of another type) |
| Accounts.FetchTitleDeed | programs/landlocked/src/contexts.rs:147 | an `Account<TitleDeed>` deserializes exactly when a TitleDeed record is stored at the address and returns that record; otherwise AccountNotInitialized (no record) or AccountDiscriminatorMismatch (a record of another type) |
| Accounts.FetchTitleForSale | programs/landlocked/src/contexts.rs:217 | an `Account<TitleForSale>` deserializes exactly when a TitleForSale record is stored at the address and returns that record; otherwise AccountNotInitialized (no record) or AccountDiscriminatorMismatch (a record of another type) |
| Accounts.FetchTitleNumberLookup | programs/landlocked/src/contexts.rs:235 | an `Account<TitleNumberLookup>` deserializes exactly when a TitleNumberLookup record is stored at the address and returns that record; otherwise AccountNotInitialized (no record) or AccountDiscriminatorMismatch (a record of another type) |
| Accounts.FetchAgreement | programs/landlocked/src/contexts.rs:272 | an `Account<Agreement>` deserializes exactly when a Agreement record is stored at the address and returns that record; otherwise AccountNotInitialized (no record) or AccountDiscriminatorMismatch (a record of another type) |
| Accounts.FetchAgreementIndex | programs/landlocked/src/contexts.rs:291 | an `Account<AgreementIndex>` deserializes exactly when a AgreementIndex record is stored at the address and returns that record; otherwise AccountNotInitialized (no record) or AccountDiscriminatorMismatch (a record of another type) |
| Accounts.FetchEscrow | programs/landlocked/src/contexts.rs:342 | an `Account<Escrow>` deserializes exactly when a Escrow record is stored at the address and returns that record; otherwise AccountNotInitialized (no record) or AccountDiscriminatorMismatch (a record of another type) |
| Accounts.FetchDeposit | programs/landlocked/src/contexts.rs:378 | an `Account<Deposit>` deserializes exactly when a Deposit record is stored at the address and returns that record; otherwise AccountNotInitialized (no record) or AccountDiscriminatorMismatch (a record of another type) |
| Accounts.CheckSeeds | programs/landlocked/src/contexts.rs:64-67 | a `seeds` constraint on an existing account passes exactly when the passed address is the one derived from the seeds, and otherwise fails with ConstraintSeeds |
| Initialization.Initialize | programs/landlocked/src/instructions/initialize.rs:4-23 | succeeds exactly when the protocol-state address is the fixed one and still empty, the payer is in the admin list, and the list has at most 5 entries; on success only the protocol state is added, holding the list exactly and unpaused; names the error of each failing case |
| Initialization.InitializeOnlyOnce | programs/landlocked/src/contexts.rs:15-21 | after a successful initialization every further initialization fails, whatever the payer and admin list; at the fixed address it fails with AccountAlreadyInUse |
| Initialization.EmptyAdminListRejected | programs/landlocked/src/instructions/initialize.rs:6-13 | an empty admin list is never accepted; at the fixed, still empty address it is refused with InvalidAdmin |
| Initialization.InitializePreservesWf | programs/landlocked/src/instructions/initialize.rs:16-19 | initialization keeps the world well formed |
| AdminConfirmation.ValidateAdmin | programs/landlocked/src/instructions/confirm_admin_account.rs:20-26 | passes exactly when the signer occurs in the protocol's admin list, and otherwise fails with InvalidAdmin |
| AdminConfirmation.ConfirmAdminAccount | programs/landlocked/src/instructions/confirm_admin_account.rs:4-18 | succeeds exactly when the protocol state exists, the admin account is the signer's own empty slot, and the signer is listed; on success only that slot is added, holding an Admin whose authority is the signer |
| AdminConfirmation.ConfirmedAdmin | programs/landlocked/src/instructions/confirm_admin_account.rs:12-14 | the Admin record a confirmation stores has the signer as its authority; the handler writes no other field, so the names and id number stay empty |
| AdminConfirmation.UnlistedSignerRejected | programs/landlocked/src/instructions/confirm_admin_account.rs:7-10 | a signer outside the admin list is refused with InvalidAdmin even on its own empty slot |
| AdminConfirmation.CannotConfirmAnotherAdminsSlot | programs/landlocked/src/contexts.rs:30-36 | passing a slot other than the signer's own fails with ConstraintSeeds, so one admin cannot occupy another's record |
| AdminConfirmation.ConfirmTwiceFails | programs/landlocked/src/contexts.rs:30-36 | a second confirmation of the same admin fails with AccountAlreadyInUse |
| AdminConfirmation.ConfirmLeavesProtocolState | programs/landlocked/src/instructions/confirm_admin_account.rs:7-14 | confirmation leaves the protocol state (the admin list and pause flag) unchanged |
| AdminConfirmation.ConfirmAdminPreservesWf | programs/landlocked/src/contexts.rs:26-40 | confirmation keeps the world well formed |
| Registrars.AddRegistrar | programs/landlocked/src/instructions/registrar.rs:6-28 | succeeds exactly when the admin and protocol-state accounts hold records of their types, the registrar slot is the appointee's and empty, and the signer is a listed admin; on success only that slot is added, holding an inactive Registrar with the given names, appointee and addedBy = signer |
| Registrars.ConfirmRegistrarAccount | programs/landlocked/src/instructions/registrar.rs:30-46 | succeeds exactly when the registrar account is the signer's own slot, not yet active, with authority = signer; on success only its activation flag changes; with both typed accounts present it fails with ConstraintSeeds at another slot, RegistrarAlreadyConfirmed when the record is active, and InvalidRegistrar when it is inactive but its authority is not the signer; a missing record fails as its deserialization does |
| Registrars.NonAdminCannotAddRegistrar | programs/landlocked/src/instructions/registrar.rs:13-14 | a signer outside the admin list cannot appoint a registrar: InvalidAdmin |
| Registrars.ConfirmTouchesOnlyOwnSlot | programs/landlocked/src/contexts.rs:64-67 | a registrar can confirm only the record at its own derived address; any other address fails with ConstraintSeeds |
| Registrars.ConfirmActiveRegistrarFails | programs/landlocked/src/contexts.rs:68-69 | confirming an already active registrar fails with RegistrarAlreadyConfirmed |
| Registrars.ConfirmRegistrarOnce | programs/landlocked/src/contexts.rs:68-69 | after a successful confirmation, confirming again fails with RegistrarAlreadyConfirmed |
| Registrars.ConfirmRegistrarNeverInvalidRegistrar | programs/landlocked/src/instructions/registrar.rs:31-35 | in a well-formed world the handler's InvalidRegistrar check never fires, because the seeds already bind the slot to its authority |
| Registrars.AppointThenConfirm | programs/landlocked/src/instructions/registrar.rs:6-46 | a registrar appointed by an admin can then confirm itself, and ends up active with every other field as appointed |
| Registrars.AddRegistrarPreservesWf | programs/landlocked/src/contexts.rs:42-58 | appointment keeps the world well formed |
| Registrars.ConfirmRegistrarPreservesWf | programs/landlocked/src/contexts.rs:60-73 | confirmation keeps the world well formed |
| Users.CreateUserAccount | programs/landlocked/src/instructions/user.rs:5-28 | succeeds exactly when the user slot derived from (id-number hash, signer) and the claim slot derived from the id-number hash are the passed addresses and both are empty; on success exactly these two records are added, the User with the given fields and the claim pointing at it; every failure is ConstraintSeeds or AccountAlreadyInUse |
| Users.ClaimedIdNumberRejected | programs/landlocked/src/contexts.rs:92-102 | once an id number is claimed, registering it again fails from whichever wallet; with correctly derived addresses the error is AccountAlreadyInUse |
| Users.SecondRegistrationFails | programs/landlocked/src/contexts.rs:84-102 | after a successful registration, any registration with the same id number fails |
| Users.CreateUserPreservesWf | programs/landlocked/src/instructions/user.rs:12-25 | registration keeps the world well formed, including the claim ↔ user binding |
| TitleDeeds.AssignedDeed | programs/landlocked/src/instructions/title_deed.rs:34-36 | the deed an assignment stores has the given User as owner, the new owner address as authority, and is not for sale |
| TitleDeeds.AssignTitleDeedToOwner | programs/landlocked/src/instructions/title_deed.rs:30-45 | succeeds exactly when the registrar is active, its authority is the signer, it sits at the signer's slot, the owner account is a User, and the deed slot of the new owner address is the passed one and empty; on success only that deed is added, with owner = the User, authority = new owner address, not for sale |
| TitleDeeds.MarkTitleForSale | programs/landlocked/src/instructions/title_deed.rs:5-28 | succeeds exactly when the signer is the deed's authority, its owner's authority and the seller's authority, and the listing slot for (signer, deed) is the passed one and empty; on success the deed gains only isForSale and a listing (deed, seller, price, time) is added; nothing else changes |
| TitleDeeds.SearchTitleDeedByNumber | programs/landlocked/src/contexts.rs:170-191 | succeeds exactly when the deed's title number equals the searched one (otherwise TitleAuthorityMismatch) and the searcher's User belongs to the signer (otherwise Unauthorized); the world is unchanged |
| TitleDeeds.AssignNeedsActiveSigningRegistrar | programs/landlocked/src/contexts.rs:111-115 | an inactive registrar, or one whose authority is not the signer, fails with InvalidRegistrar |
| TitleDeeds.OneDeedPerOwnerAddress | programs/landlocked/src/contexts.rs:123-130 | a second assignment to the same owner address fails, whoever assigns it |
| TitleDeeds.AssignDoesNotBindOwnerToAddress | programs/landlocked/src/contexts.rs:122-131 | nothing ties the owner User to the new owner address: a deed can embed one wallet's User under another wallet's authority |
| TitleDeeds.ListingNeedsOwner | programs/landlocked/src/contexts.rs:140-161 | if the signer is not the deed's authority, its owner's authority and the seller's authority, listing fails with Unauthorized |
| TitleDeeds.OneListingPerSellerAndDeed | programs/landlocked/src/contexts.rs:155-163 | a (seller, deed) pair can be listed at most once |
| TitleDeeds.ListingKeepsOwnership | programs/landlocked/src/instructions/title_deed.rs:7-12 | listing keeps the deed's owner, authority, title number and transfer count, and marks it for sale |
| TitleDeeds.AssignPreservesWf | programs/landlocked/src/contexts.rs:107-133 | assignment keeps the world well formed |
| TitleDeeds.MarkPreservesWf | programs/landlocked/src/contexts.rs:135-165 | listing keeps the world well formed |
| TitleDeeds.SearchPreservesWf | programs/landlocked/src/contexts.rs:167-191 | a search keeps the world well formed |
| Agreements.MakeAgreement | programs/landlocked/src/contexts.rs:197-253 | succeeds exactly when all of these hold: the five typed accounts hold records of their types; the signer is the deed's authority; the lookup, the listing at the (signer, deed) slot, and the lookup at the deed's title-number slot all point at this deed; the seller User is the signer and the listing's seller; the index is at the deed's slot; the agreement slot for (signer, buyer, deed, price) is the passed one and empty. On success only the agreement is added |
| Agreements.SignAgreement | programs/landlocked/src/contexts.rs:255-273 | succeeds exactly when the deed is the agreement's deed, the agreement sits at the slot its own parties, deed and the given price derive, the signer is its buyer, and its price is the given price; the world is unchanged |
| Agreements.CancelAgreement | programs/landlocked/src/contexts.rs:275-293 | succeeds exactly when an agreement and an index exist and the index is at the agreement's deed slot; on success exactly those two records are removed |
| Agreements.DraftingNeedsListedDeed | programs/landlocked/src/contexts.rs:200-224 | a successful draft implies the signer owns the deed, the deed is listed by the signer, and the seller User is the signer |
| Agreements.OneAgreementPerTuple | programs/landlocked/src/contexts.rs:236-243 | the same (seller, buyer wallet, deed, price) cannot be drafted twice, through any User record of that buyer wallet |
| Agreements.OnlyBuyerSigns | programs/landlocked/src/contexts.rs:269 | a signer other than the agreement's buyer fails with Unauthorized |
| Agreements.SignAtWrongPriceFails | programs/landlocked/src/contexts.rs:265-270 | signing at a price other than the agreed one fails |
| Agreements.PriceMismatchCaughtBySeeds | programs/landlocked/src/contexts.rs:265-270 | when the agreement sits at the slot derived from its own stored price, a different signed price is caught by the seeds check (ConstraintSeeds) before the explicit price constraint is reached |
| Agreements.CancelIgnoresSigner | programs/landlocked/src/contexts.rs:275-284 | the outcome of a cancellation does not depend on who signs it |
| Agreements.CancelRemovesAgreementAndIndex | programs/landlocked/src/contexts.rs:280-291 | a successful cancellation removes the agreement and its index and keeps every other record present and unchanged |
| Agreements.MakeAgreementPreservesWf | programs/landlocked/src/contexts.rs:236-243 | drafting keeps the world well formed |
| Agreements.SignAgreementPreservesWf | programs/landlocked/src/contexts.rs:255-273 | signing keeps the world well formed |
| Agreements.CancelAgreementPreservesWf | programs/landlocked/src/contexts.rs:275-293 | cancellation keeps the world well formed |
| Escrows.CreateEscrow | programs/landlocked/src/contexts.rs:295-322 | succeeds exactly when the four typed accounts hold records of their types, the escrow slot derived from the agreement is the passed one and empty, the signer is the deed's authority, and the agreement's buyer is the buyer User's authority; on success only the escrow is added |
| Escrows.DepositPaymentToEscrow | programs/landlocked/src/contexts.rs:324-353 | succeeds exactly when the four typed accounts hold records of their types, the deposit slot derived from the escrow is the passed one and empty, the signer is the buyer User's authority and the escrow's buyer, and the escrow's agreement is the passed agreement; on success only the deposit is added |
| Escrows.AuthorizeEscrow | programs/landlocked/src/contexts.rs:355-390 | succeeds exactly when the nine typed accounts hold records of their types, the registrar is at the signer's slot, the escrow is in state PaymentDeposited, and the deposit is at the escrow's slot; the world is unchanged |
| Escrows.OnlyDeedAuthorityOpensEscrow | programs/landlocked/src/contexts.rs:297-309 | an escrow is opened only by the deed's authority, and only for the agreement's own buyer |
| Escrows.EscrowBuyerMustMatchAgreement | programs/landlocked/src/contexts.rs:306-309 | a buyer account other than the agreement's buyer fails with Unauthorized |
| Escrows.OneEscrowPerAgreement | programs/landlocked/src/contexts.rs:313-320 | a second escrow for the same agreement fails |
| Escrows.DepositGuards | programs/landlocked/src/contexts.rs:326-341 | a deposit succeeds only for the escrow's buyer and only against the escrow's own agreement |
| Escrows.OneDepositPerEscrow | programs/landlocked/src/contexts.rs:344-351 | a second deposit into the same escrow fails |
| Escrows.AuthorizeNeedsDepositedPayment | programs/landlocked/src/contexts.rs:367-371 | an escrow not in state PaymentDeposited fails with EscrowNotReadyForPayment |
| Escrows.AuthorizeIgnoresActivation | programs/landlocked/src/contexts.rs:357-366 | authorization depends only on the registrar record's address, not on whether it is active: deactivating it changes nothing |
| Escrows.CreateEscrowPreservesWf | programs/landlocked/src/contexts.rs:313-320 | opening an escrow keeps the world well formed |
| Escrows.DepositPreservesWf | programs/landlocked/src/contexts.rs:344-351 | a deposit keeps the world well formed |
| Escrows.AuthorizePreservesWf | programs/landlocked/src/contexts.rs:355-390 | authorization keeps the world well formed |
| WellFormed.ProtocolStateIsSingleton | programs/landlocked/src/contexts.rs:15-21 | in a well-formed world a protocol-state record can sit only at the one fixed address |
| WellFormed.OneUserPerIdNumber | programs/landlocked/src/contexts.rs:84-102 | in a well-formed world two User records with the same id number are the same record |
| WellFormed.AdminRecordsAreSelfOwned | programs/landlocked/src/contexts.rs:30-36 | in a well-formed world every Admin record sits at its own authority's slot, and that authority is a listed admin |
| WellFormed.DeedSlotBinding | programs/landlocked/src/contexts.rs:123-130 | in a well-formed world the deed at a wallet's slot has that wallet as its authority, since assignment derives the slot from and writes the authority as the same new-owner address (instructions/title_deed.rs:35) |
| WellFormed.RegistrarSlotBinding | programs/landlocked/src/contexts.rs:47-53 | in a well-formed world the registrar record at a wallet's slot has that wallet as its authority |
| Program.Process | programs/landlocked/src/lib.rs:16-106 | dispatches each of the 14 instructions to its model; only `cancel_agreement` removes records, every other successful instruction keeps every existing slot |
| Program.Commit | programs/landlocked/src/lib.rs:16-106 | a transaction is all or nothing: a failed instruction leaves the world unchanged, and a successful one yields exactly the instruction's result |
| Program.ProcessPreservesWf | programs/landlocked/src/lib.rs:16-106 | every instruction of the program keeps the world well formed |
| Program.RunPreservesWf | programs/landlocked/src/lib.rs:16-106 | any sequence of transactions, failed ones included, keeps the world well formed |
| Program.ReachableIsWf | programs/landlocked/src/lib.rs:16-106 | every world reachable from the empty ledger is well formed |
| Program.ReachableIdNumbersUnique | programs/landlocked/src/contexts.rs:92-102 | in every reachable world an id number belongs to at most one User |
| Program.ReachableAdminsListed | programs/landlocked/src/contexts.rs:30-38 | in every reachable world each Admin record is in its owner's slot and its owner is a listed admin |
| Program.SettledRecordsPersist | programs/landlocked/src/lib.rs:16-106 | no instruction changes or removes the protocol state, an Admin record or an id-number claim |
| Program.RegistrarOnlyActivates | programs/landlocked/src/instructions/registrar.rs:37-39 | no instruction removes a registrar or changes anything in it but its activation flag, and an active registrar stays active |
| Program.SaleFlowNeedsSaleRecords | programs/landlocked/src/contexts.rs:229-235 | in a world without lookup, index, agreement, escrow or deposit records, each of the six sale-flow instructions fails |
| Program.CommitKeepsNoSaleRecords | programs/landlocked/src/lib.rs:16-106 | no single transaction of the model creates a lookup, index, agreement, escrow or deposit record where none exists |
| Program.RunKeepsNoSaleRecords | programs/landlocked/src/lib.rs:16-106 | no sequence of transactions creates such a record where none exists |
| Program.ReachableSaleFlowFails | programs/landlocked/src/lib.rs:80-105 | from the empty ledger, every sale-flow instruction fails, because drafting needs a title-number lookup that only the search handler, not part of this model, would create |
| Scenarios.Bootstrapped | tests/landlocked.ts:60-67 | initializing with admins [A1, A2] yields exactly the protocol state holding that list, unpaused |
| Scenarios.TwoAdminsConfirm | tests/landlocked.ts:69-81 | the first listed admin confirms, as the test does, and the second admin likewise; the admin list keeps its two entries and the protocol stays unpaused |
| Scenarios.FakeAdminRefused | tests/landlocked.ts:83-103 | an unlisted wallet confirming is refused with InvalidAdmin |
| Scenarios.ConfirmingAnotherSlotRefused | tests/landlocked.ts:105-133 | an admin passing another admin's slot is refused with ConstraintSeeds |
| Scenarios.RegistrarLifecycle | programs/landlocked/src/instructions/registrar.rs:6-46 | an appointed registrar starts inactive, becomes active on confirmation, and a second confirmation is refused |
| Scenarios.DuplicateIdNumberRefused | programs/landlocked/src/contexts.rs:92-102 | a second wallet registering a taken id number fails with AccountAlreadyInUse, and the first User is untouched |

## Notes on the code

The model follows the code as written in each of these cases:

- `initialize` (`instructions/initialize.rs:6-13`) requires the payer to be in the admin list and rejects an empty list. Membership is checked first, and an empty list cannot contain the payer, so the emptiness check never fires on its own.
- `add_registrar` has no `seeds` constraint on its `admin` account (`contexts.rs:55`). Any Admin record deserializes there. The signer is checked only against the protocol's admin list.
- `initialize` writes the pause flag as `false` (`instructions/initialize.rs:18`). No account constraint in `contexts.rs` and no handler in `instructions/` reads it or sets it again. The handlers that are missing from the repository are not part of this model, so whether they read it is unknown; the model never reads it.
- `assign_title_deed_to_owner` receives a title number, location, acreage, district and mapsheet number (`lib.rs:56-74`). Its handler takes only the context and `new_owner_address` (`instructions/title_deed.rs:30`), so the source does not match its own dispatch. The handler writes only owner, authority and the sale flag (`instructions/title_deed.rs:30-45`), so a new deed's other fields keep their zero values. This includes an empty title number.
- The account constraints of `cancel_agreement` (`contexts.rs:275-293`) carry no buyer-or-seller check on the signer. The handler (`lib.rs:88-90`) is not part of this model, so whether it checks the signer is unknown; the model applies the constraints alone.
- The account constraints of `authorize_escrow` (`contexts.rs:357-366`) do not check that the signer's registrar is active. The handler is not part of this model, so whether it checks is unknown; the model applies the constraints alone.
- No modelled instruction creates a TitleNumberLookup or an AgreementIndex record; only the search and drafting handlers, which are not part of this model, would. So from the empty ledger `make_agreement` always fails, and with it `sign_agreement`, `cancel_agreement`, `create_escrow`, `deposit_payment_to_escrow` and `authorize_escrow` (`Program.ReachableSaleFlowFails`). The reachability lemmas therefore speak about the identity and deed records only; the sale-flow contracts are stated for every world.
- `sign_agreement` derives the agreement's address from the signed price (`contexts.rs:267`). If the agreement sits at the slot of its own stored price, a price mismatch fails on the seeds, before the price constraint (`contexts.rs:270`) is reached. Whether it does depends on what the drafting handler stores, which is not part of this model: an agreement drafted at price 5 whose stored price is 7 reaches the price constraint and fails with InvalidTitleDeed.

## Left out

- Lamports, rent, account sizes, bumps, the payer and the system program are left out. Addresses are derived by an injective constructor, so no bump search is needed.
- Accounts.FetchRegistrar: an address without a record of this program fails with AccountNotInitialized. Anchor raises that only for an unfunded system-owned address, and AccountOwnedByWrongProgram for any other address, such as a funded wallet. The model does not track lamports or account owners, so AccountNotInitialized stands for both. The same holds for each of the other Fetch functions, listed one by one below.
- Accounts.FetchProtocolState: an address holding no record of this program fails with AccountNotInitialized, which here also stands for AccountOwnedByWrongProgram, because lamports and account owners are not modelled.
- Accounts.FetchAdmin: an address holding no record of this program fails with AccountNotInitialized, which here also stands for AccountOwnedByWrongProgram, because lamports and account owners are not modelled.
- Accounts.FetchUser: an address holding no record of this program fails with AccountNotInitialized, which here also stands for AccountOwnedByWrongProgram, because lamports and account owners are not modelled.
- Accounts.FetchTitleDeed: an address holding no record of this program fails with AccountNotInitialized, which here also stands for AccountOwnedByWrongProgram, because lamports and account owners are not modelled.
- Accounts.FetchTitleForSale: an address holding no record of this program fails with AccountNotInitialized, which here also stands for AccountOwnedByWrongProgram, because lamports and account owners are not modelled.
- Accounts.FetchTitleNumberLookup: an address holding no record of this program fails with AccountNotInitialized, which here also stands for AccountOwnedByWrongProgram, because lamports and account owners are not modelled.
- Accounts.FetchAgreement: an address holding no record of this program fails with AccountNotInitialized, which here also stands for AccountOwnedByWrongProgram, because lamports and account owners are not modelled.
- Accounts.FetchAgreementIndex: an address holding no record of this program fails with AccountNotInitialized, which here also stands for AccountOwnedByWrongProgram, because lamports and account owners are not modelled.
- Accounts.FetchEscrow: an address holding no record of this program fails with AccountNotInitialized, which here also stands for AccountOwnedByWrongProgram, because lamports and account owners are not modelled.
- Accounts.FetchDeposit: an address holding no record of this program fails with AccountNotInitialized, which here also stands for AccountOwnedByWrongProgram, because lamports and account owners are not modelled.
- Signature verification is left out. The `authority` of each instruction is taken to be the transaction signer.
- SHA-256 of the id number is the injective `Types.Digest` constructor rather than the hash function itself.
- Registrars.AddRegistrar: `helpers.rs`, which defines `is_admin`, is not part of this model. Its check is taken to be membership in the protocol's admin list, the same test as `AdminConfirmation.ValidateAdmin`.
- `constants.rs` is not part of this model. The user seed tag is its own `Types.Seed` constructor.
- Agreements.MakeAgreement: the agreement's contents are an input, because the handler is not in the repository. The AgreementIndex checks (AgreementAlreadyExists) and its creation are handler behaviour and are not modelled, so the model does not enforce one live agreement per deed.
- Agreements.SignAgreement: leaves the world unchanged. Whatever the handler records on signing is not modelled.
- Escrows.CreateEscrow: the escrow's contents are an input, for the same reason as above.
- Escrows.DepositPaymentToEscrow: the deposited amount, PaymentAmountMismatch and the lamport transfer are handler behaviour and are not modelled. The deposit's contents are an input, and the escrow's state is not advanced.
- Escrows.AuthorizeEscrow: leaves the world unchanged. The handler's payment release, ownership transfer, deed reassignment and transfer count are not modelled.
- TitleDeeds.SearchTitleDeedByNumber: leaves the world unchanged. The handler's lazy creation of the TitleNumberLookup record is not modelled, so no instruction of the model creates a lookup.
- OwnershipHistory records and the deed's acreage are left out. No shown constraint or handler uses them, and acreage is a floating-point value.
- The numeric fields (`u64` price, `i64` time, the `u64` counters) are bounded newtypes. No modelled operation does arithmetic on them, so no wrap-around arises.
- The UI, the client services and the log messages (`msg!`) are left out.
