/** The program as a whole: its instruction set, one transaction at a time,
    and the invariants every sequence of transactions keeps.

A transaction that fails leaves the world exactly as it was; one that
succeeds replaces it with the instruction's result.
 */
module Program {
  import opened Results
  import opened Types
  import opened WellFormed
  import Initialization
  import AdminConfirmation
  import Registrars
  import Users
  import TitleDeeds
  import Agreements
  import Escrows

  /** One instruction of the program, with its accounts and arguments. The
      record contents of the last instructions stand for what their handlers
      store. */
  datatype Instruction =
    | Initialize(Initialization.InitializeLandRegistryAccounts, seq<Address>)
    | ConfirmAdminAccount(AdminConfirmation.ConfirmAdminAccountAccounts)
    | AddRegistrar(Registrars.AddRegistrarAccounts, Address, string, string, string)
    | ConfirmRegistrarAccount(Registrars.ConfirmRegistrarAccountAccounts)
    | CreateUserAccount(Users.CreateUserAccountAccounts, string, string, string, string)
    | MarkTitleForSale(TitleDeeds.MarkTitleForSaleAccounts, u64, i64)
    | AssignTitleDeedToOwner(TitleDeeds.AssignTitleDeedToOwnerAccounts, Address)
    | SearchTitleDeedByNumber(TitleDeeds.SearchTitleDeedByNumberAccounts, string)
    | MakeAgreement(Agreements.MakeAgreementAccounts, u64, Agreement)
    | SignAgreement(Agreements.SignAgreementAccounts, u64)
    | CancelAgreement(Agreements.CancelAgreementAccounts)
    | CreateEscrow(Escrows.CreateEscrowAccounts, Escrow)
    | DepositPaymentToEscrow(Escrows.DepositPaymentToEscrowAccounts, Deposit)
    | AuthorizeEscrow(Escrows.AuthorizeEscrowAccounts)

  /** Dispatch an instruction to its handler. Only `cancel_agreement` closes
      accounts; every other instruction keeps every existing record's slot. */
  function Process(w: World, ix: Instruction): (r: Result<World, Error>)
    ensures r.Ok? && !ix.CancelAgreement? ==> w.Keys <= r.value.Keys
    ensures r.Ok? && ix.CancelAgreement? ==> r.value.Keys <= w.Keys
  {
    match ix
    case Initialize(a, admins) => Initialization.Initialize(w, a, admins)
    case ConfirmAdminAccount(a) => AdminConfirmation.ConfirmAdminAccount(w, a)
    case AddRegistrar(a, address, f, l, id) => Registrars.AddRegistrar(w, a, address, f, l, id)
    case ConfirmRegistrarAccount(a) => Registrars.ConfirmRegistrarAccount(w, a)
    case CreateUserAccount(a, f, l, id, phone) => Users.CreateUserAccount(w, a, f, l, id, phone)
    case MarkTitleForSale(a, price, now) => TitleDeeds.MarkTitleForSale(w, a, price, now)
    case AssignTitleDeedToOwner(a, owner) => TitleDeeds.AssignTitleDeedToOwner(w, a, owner)
    case SearchTitleDeedByNumber(a, n) => TitleDeeds.SearchTitleDeedByNumber(w, a, n)
    case MakeAgreement(a, price, agr) => Agreements.MakeAgreement(w, a, price, agr)
    case SignAgreement(a, price) => Agreements.SignAgreement(w, a, price)
    case CancelAgreement(a) => Agreements.CancelAgreement(w, a)
    case CreateEscrow(a, e) => Escrows.CreateEscrow(w, a, e)
    case DepositPaymentToEscrow(a, d) => Escrows.DepositPaymentToEscrow(w, a, d)
    case AuthorizeEscrow(a) => Escrows.AuthorizeEscrow(w, a)
  }

  /** One transaction: all of the instruction's effects, or none of them. */
  function Commit(w: World, ix: Instruction): (c: World)
    ensures c == w || Process(w, ix) == Ok(c)
    ensures Process(w, ix).Err? ==> c == w
    ensures Process(w, ix).Ok? ==> c == Process(w, ix).value
  {
    match Process(w, ix)
    case Ok(w') => w'
    case Err(_) => w
  }

  /** A sequence of transactions, in order. */
  function Run(w: World, txs: seq<Instruction>): World
    decreases |txs|
  {
    if txs == [] then w else Run(Commit(w, txs[0]), txs[1..])
  }

  /** Every instruction keeps the world well formed. */
  lemma ProcessPreservesWf(w: World, ix: Instruction)
    requires Wf(w)
    requires Process(w, ix).Ok?
    ensures Wf(Process(w, ix).value)
  {
    match ix
    case Initialize(a, admins) => Initialization.InitializePreservesWf(w, a, admins);
    case ConfirmAdminAccount(a) => AdminConfirmation.ConfirmAdminPreservesWf(w, a);
    case AddRegistrar(a, address, f, l, id) => Registrars.AddRegistrarPreservesWf(w, a, address, f, l, id);
    case ConfirmRegistrarAccount(a) => Registrars.ConfirmRegistrarPreservesWf(w, a);
    case CreateUserAccount(a, f, l, id, phone) => Users.CreateUserPreservesWf(w, a, f, l, id, phone);
    case MarkTitleForSale(a, price, now) => TitleDeeds.MarkPreservesWf(w, a, price, now);
    case AssignTitleDeedToOwner(a, owner) => TitleDeeds.AssignPreservesWf(w, a, owner);
    case SearchTitleDeedByNumber(a, n) => TitleDeeds.SearchPreservesWf(w, a, n);
    case MakeAgreement(a, price, agr) => Agreements.MakeAgreementPreservesWf(w, a, price, agr);
    case SignAgreement(a, price) => Agreements.SignAgreementPreservesWf(w, a, price);
    case CancelAgreement(a) => Agreements.CancelAgreementPreservesWf(w, a);
    case CreateEscrow(a, e) => Escrows.CreateEscrowPreservesWf(w, a, e);
    case DepositPaymentToEscrow(a, d) => Escrows.DepositPreservesWf(w, a, d);
    case AuthorizeEscrow(a) => Escrows.AuthorizePreservesWf(w, a);
  }

  /** Any sequence of transactions keeps the world well formed. */
  lemma {:induction false} RunPreservesWf(w: World, txs: seq<Instruction>)
    requires Wf(w)
    ensures Wf(Run(w, txs))
    decreases |txs|
  {
    if txs != [] {
      if Process(w, txs[0]).Ok? {
        ProcessPreservesWf(w, txs[0]);
      }
      RunPreservesWf(Commit(w, txs[0]), txs[1..]);
    }
  }

  /** Every world reached from the empty ledger is well formed. */
  lemma ReachableIsWf(txs: seq<Instruction>)
    ensures Wf(Run(map[], txs))
  {
    RunPreservesWf(map[], txs);
  }

  /** In every reachable world an id number belongs to at most one User,
      however many wallets tried to register it. */
  lemma ReachableIdNumbersUnique(txs: seq<Instruction>, a: Address, b: Address)
    requires var w := Run(map[], txs);
      && a in w && w[a].UserAccount? && b in w && w[b].UserAccount?
      && w[a].user.idNumber == w[b].user.idNumber
    ensures a == b
  {
    ReachableIsWf(txs);
    OneUserPerIdNumber(Run(map[], txs), a, b);
  }

  /** In every reachable world each Admin record belongs to a listed admin and
      sits in that admin's own slot. */
  lemma ReachableAdminsListed(txs: seq<Instruction>, a: Address)
    requires var w := Run(map[], txs); a in w && w[a].AdminAccount?
    ensures var w := Run(map[], txs);
      && a == AdminAddress(w[a].admin.authority)
      && ListedAdmin(w, w[a].admin.authority)
  {
    ReachableIsWf(txs);
    AdminRecordsAreSelfOwned(Run(map[], txs), a);
  }

  /** The protocol state, admin records and id-number claims never change or
      disappear once written. */
  lemma SettledRecordsPersist(w: World, ix: Instruction, a: Address)
    requires a in w
    requires w[a].ProtocolStateAccount? || w[a].AdminAccount? || w[a].IdNumberClaimAccount?
    requires Process(w, ix).Ok?
    ensures a in Process(w, ix).value && Process(w, ix).value[a] == w[a]
  {
  }

  /** A registrar record keeps its identity fields, and once active it stays
      active: the lifecycle only moves from inactive to active. */
  lemma RegistrarOnlyActivates(w: World, ix: Instruction, a: Address)
    requires a in w && w[a].RegistrarAccount?
    requires Process(w, ix).Ok?
    ensures var w' := Process(w, ix).value;
      && a in w' && w'[a].RegistrarAccount?
      && w'[a].registrar == w[a].registrar.(isActive := w'[a].registrar.isActive)
      && (w[a].registrar.isActive ==> w'[a].registrar.isActive)
  {
  }

  /** No record of the sale flow: title-number lookups and agreement indexes,
      which only handlers outside this model create, and the agreements,
      escrows and deposits that depend on them. */
  predicate NoSaleRecords(w: World) {
    forall a | a in w ::
      !(|| w[a].TitleNumberLookupAccount? || w[a].AgreementIndexAccount?
        || w[a].AgreementAccount? || w[a].EscrowAccount? || w[a].DepositAccount?)
  }

  /** With no sale records present, every instruction of the sale flow fails. */
  lemma SaleFlowNeedsSaleRecords(w: World, ix: Instruction)
    requires NoSaleRecords(w)
    requires || ix.MakeAgreement? || ix.SignAgreement? || ix.CancelAgreement?
             || ix.CreateEscrow? || ix.DepositPaymentToEscrow? || ix.AuthorizeEscrow?
    ensures Process(w, ix).Err?
  {
  }

  /** No single transaction creates a sale record. */
  lemma CommitKeepsNoSaleRecords(w: World, ix: Instruction)
    requires NoSaleRecords(w)
    ensures NoSaleRecords(Commit(w, ix))
  {
  }

  lemma {:induction false} RunKeepsNoSaleRecords(w: World, txs: seq<Instruction>)
    requires NoSaleRecords(w)
    ensures NoSaleRecords(Run(w, txs))
    decreases |txs|
  {
    if txs != [] {
      CommitKeepsNoSaleRecords(w, txs[0]);
      RunKeepsNoSaleRecords(Commit(w, txs[0]), txs[1..]);
    }
  }

  /** From the empty ledger the sale flow never gets started: drafting needs a
      title-number lookup, which no modelled instruction creates, and every
      later step needs a record drafting would create. */
  lemma ReachableSaleFlowFails(txs: seq<Instruction>, ix: Instruction)
    requires || ix.MakeAgreement? || ix.SignAgreement? || ix.CancelAgreement?
             || ix.CreateEscrow? || ix.DepositPaymentToEscrow? || ix.AuthorizeEscrow?
    ensures Process(Run(map[], txs), ix).Err?
  {
    RunKeepsNoSaleRecords(map[], txs);
    SaleFlowNeedsSaleRecords(Run(map[], txs), ix);
  }
}
