/** The two parallel vocabularies of the ledger: the Spanish names the screens use
    (ingreso/egreso, venta/proveedor/…, efectivo/mercado_pago/…) and the tags stored in the
    database (INCOME/EXPENSE, SALE/PROVIDER_PAYMENT/…, CASH/MERCADO_PAGO/…), with the forward
    table used when a transaction is written and the reverse table used when it is read. */
module Vocabulary {
  import opened Outcomes

  // ---- screen vocabulary ----

  datatype UiType = Ingreso | Egreso

  datatype UiCategory =
    | Venta | Proveedor | Sueldo | RetiroChica | DepositoChica
    | RetiroFuerte | DepositoFuerte | OtroIngreso | OtroEgreso

  datatype ContainerKey = Efectivo | MercadoPago | CajaChica | CajaFuerte

  // ---- stored vocabulary ----

  datatype DbType = Income | Expense

  /** Stored categories. `ExpenseOther` and `IncomeOther` are the categories stored under the
      tags `EXPENSE` and `INCOME`, the same words the type column uses. */
  datatype DbCategory =
    | Sale | ProviderPayment | SalaryAdvance | ToPettyCash | ExpenseOther | IncomeOther
    | PettyCashDeposit | SafeDeposit | SafeWithdrawal | PettyCashWithdrawal

  /** Stored container tags. `CajaChicaTag` and `CajaFuerteTag` are the legacy spellings that
      the petty-cash screen still writes and that the balance fold accepts as aliases. */
  datatype DbContainer = Cash | MercadoPagoTag | PettyCash | Safe | CajaChicaTag | CajaFuerteTag

  /** Categories the forward table knows; `RetiroFuerte` and `DepositoFuerte` are not in it. */
  predicate IsTabled(c: UiCategory)
  {
    c != RetiroFuerte && c != DepositoFuerte
  }

  function TypeToDb(t: UiType): DbType
  {
    match t
    case Ingreso => Income
    case Egreso => Expense
  }

  /** `catMap[category] || 'SALE'`: the forward category table with its lossy default. */
  function CategoryToDb(c: UiCategory): (d: DbCategory)
    ensures IsTabled(c) ==> CategoryFromDb(d) == c
    ensures !IsTabled(c) ==> d == Sale
    ensures d !in {SafeDeposit, SafeWithdrawal, PettyCashWithdrawal}
  {
    match c
    case Venta => Sale
    case Proveedor => ProviderPayment
    case Sueldo => SalaryAdvance
    case RetiroChica => ToPettyCash
    case OtroEgreso => ExpenseOther
    case OtroIngreso => IncomeOther
    case DepositoChica => PettyCashDeposit
    case RetiroFuerte => Sale
    case DepositoFuerte => Sale
  }

  /** `contMap`: screen container names to the canonical stored tags (never the aliases). */
  function ContainerToDb(k: ContainerKey): (d: DbContainer)
    ensures ContainerFromDb(d) == Some(k)
  {
    match k
    case Efectivo => Cash
    case MercadoPago => MercadoPagoTag
    case CajaChica => PettyCash
    case CajaFuerte => Safe
  }

  /** The stored fields `mapTransactionInput` derives from the screen triple. */
  datatype MappedInput = MappedInput(
    txType: DbType, category: DbCategory, source: Option<DbContainer>, destination: Option<DbContainer>)

  /** An expense is drawn from the chosen container and credits nothing; an income credits the
      chosen container and still records `CASH` as its source. */
  function MapTransactionInput(t: UiType, c: UiCategory, k: ContainerKey): (m: MappedInput)
    ensures t == Ingreso <==> m.txType == Income
    ensures m.txType == Expense ==> m.source == Some(ContainerToDb(k)) && m.destination == None
    ensures m.txType == Income ==> m.source == Some(Cash) && m.destination == Some(ContainerToDb(k))
    ensures !IsTabled(c) ==> m.category == Sale
    ensures m.category !in {SafeDeposit, SafeWithdrawal, PettyCashWithdrawal}
  {
    var mt := TypeToDb(t);
    MappedInput(
      mt,
      CategoryToDb(c),
      if mt == Expense then Some(ContainerToDb(k)) else Some(Cash),
      if mt == Income then Some(ContainerToDb(k)) else None)
  }

  // ---- reverse tables (mapTx) ----

  /** `type === 'INCOME' ? 'ingreso' : 'egreso'`. */
  function TypeFromDb(t: DbType): (u: UiType)
    ensures TypeToDb(u) == t
  {
    match t
    case Income => Ingreso
    case Expense => Egreso
  }

  /** `reverseCatMap[category] || 'venta'`. */
  function CategoryFromDb(c: DbCategory): (u: UiCategory)
    ensures IsTabled(u)
    ensures u == Venta <==> c in {Sale, SafeDeposit, SafeWithdrawal, PettyCashWithdrawal}
  {
    match c
    case Sale => Venta
    case ProviderPayment => Proveedor
    case SalaryAdvance => Sueldo
    case ToPettyCash => RetiroChica
    case ExpenseOther => OtroEgreso
    case IncomeOther => OtroIngreso
    case PettyCashDeposit => DepositoChica
    case SafeDeposit => Venta
    case SafeWithdrawal => Venta
    case PettyCashWithdrawal => Venta
  }

  /** `reverseContMap[tag]`: the legacy aliases have no entry and read back as undefined. */
  function ContainerFromDb(c: DbContainer): (r: Option<ContainerKey>)
    ensures r.None? <==> c in {CajaChicaTag, CajaFuerteTag}
  {
    match c
    case Cash => Some(Efectivo)
    case MercadoPagoTag => Some(MercadoPago)
    case PettyCash => Some(CajaChica)
    case Safe => Some(CajaFuerte)
    case CajaChicaTag => None
    case CajaFuerteTag => None
  }

  /** `tag ? reverseContMap[tag] : undefined` for a nullable stored container. */
  function OptContainerFromDb(c: Option<DbContainer>): Option<ContainerKey>
  {
    match c
    case None => None
    case Some(tag) => ContainerFromDb(tag)
  }

  // ---- round trips ----

  lemma TypeRoundTrip(t: UiType)
    ensures TypeFromDb(TypeToDb(t)) == t
  {
  }

  /** The seven tabled categories survive a write and a read. */
  lemma CategoryRoundTrip(c: UiCategory)
    ensures IsTabled(c) <==> CategoryFromDb(CategoryToDb(c)) == c
  {
  }

  lemma ContainerRoundTrip(k: ContainerKey)
    ensures ContainerFromDb(ContainerToDb(k)) == Some(k)
  {
  }

  /** Which stored categories read back as `venta`: the sale itself and the three the
      reverse table lacks. */
  lemma UnmappedCategoriesReadAsVenta(c: DbCategory)
    ensures CategoryFromDb(c) == Venta <==> c in {Sale, SafeDeposit, SafeWithdrawal, PettyCashWithdrawal}
  {
  }

  /** Which stored containers read back as undefined: exactly the two legacy aliases. */
  lemma AliasesReadAsUndefined(c: DbContainer)
    ensures ContainerFromDb(c) == None <==> c in {CajaChicaTag, CajaFuerteTag}
  {
  }

  /** Both halves of the screen triple survive `mapTx(mapTransactionInput(..))`: the type, a
      tabled category, and the container on the side the type uses. */
  lemma MapInputRoundTrip(t: UiType, c: UiCategory, k: ContainerKey)
    requires IsTabled(c)
    ensures var m := MapTransactionInput(t, c, k);
      && TypeFromDb(m.txType) == t
      && CategoryFromDb(m.category) == c
      && (t == Egreso ==> OptContainerFromDb(m.source) == Some(k) && OptContainerFromDb(m.destination) == None)
      && (t == Ingreso ==> OptContainerFromDb(m.destination) == Some(k) && OptContainerFromDb(m.source) == Some(Efectivo))
  {
  }
}
