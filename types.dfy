/** The record shapes and closed enumerations of the bookkeeping store.
    Money is `real` (the source uses JavaScript numbers), quantities and
    stock are `int`, timestamps are `int` milliseconds, identifiers and
    free text are `string`. Optional fields of a record are `Option`s. */
module Types {

  datatype Option<+T> = None | Some(value: T) {
    function GetOr(default: T): T {
      match this
      case Some(v) => v
      case None => default
    }
  }

  /** The seven expense categories; `RefundLoss` is the one the ledger books itself. */
  datatype ExpenseCategory =
    | Marketing | Delivery | Packaging | PlatformFee | SalesLoss | RefundLoss | Other

  datatype SaleStatus = Completed | Refunded

  datatype Currency = BDT | USD

  datatype FeeType = Percentage | Fixed

  datatype Platform = Platform(id: string, name: string, feeValue: real, feeType: FeeType)

  datatype AppSettings = AppSettings(
    currency: Currency,
    currencySymbol: string,
    lowStockThreshold: int,
    allowNegativeStock: bool,
    platforms: seq<Platform>)

  datatype LocationCharge = LocationCharge(id: string, location: string, charge: real)

  datatype SkuPrefix = SkuPrefix(id: string, prefix: string, title: string)  // `label` in the source; a Dafny keyword

  datatype Product = Product(
    id: string,
    name: string,
    sku: string,
    buyingPrice: real,
    sellingPrice: real,
    stock: int,
    createdAt: int)

  datatype Sale = Sale(
    id: string,
    productId: string,
    productName: string,
    quantity: int,
    sellingPriceSnapshot: real,
    buyingCostSnapshot: real,
    revenue: real,
    totalCost: real,
    profit: real,
    platformFee: real,
    deliveryCharge: real,
    location: string,
    platform: string,
    date: int,
    status: SaleStatus,
    refundDate: Option<int>,
    deliveryPaidOnRefund: Option<bool>,
    paidByCustomer: Option<bool>,
    customerPhone: Option<string>)

  datatype Expense = Expense(
    id: string,
    category: ExpenseCategory,
    description: string,
    amount: real,
    date: int)

  datatype Supplier = Supplier(id: string, name: string, contact: string, category: string, notes: string)

  datatype Customer = Customer(id: string, name: string, phone: string, address: string, notes: string)

  /** The seven figures of the store-wide metrics projection. */
  datatype DashboardMetrics = DashboardMetrics(
    totalSales: real,
    totalProfit: real,
    totalExpenses: real,
    totalPlatformFees: real,
    netProfit: real,
    stockValue: real,
    totalRefunds: real)

  // Identity fields as functions, for the keyed-sequence operations of Seqs.
  function ProductKey(p: Product): string { p.id }
  function SaleKey(s: Sale): string { s.id }
  function ExpenseKey(e: Expense): string { e.id }
  function SupplierKey(s: Supplier): string { s.id }
  function CustomerKey(c: Customer): string { c.id }
  function PlatformKey(p: Platform): string { p.id }
  function PrefixKey(p: SkuPrefix): string { p.id }
  function ChargeKey(c: LocationCharge): string { c.id }

  /** The label each category is stored under. */
  function CategoryLabel(c: ExpenseCategory): string {
    match c
    case Marketing => "Marketing"
    case Delivery => "Delivery"
    case Packaging => "Packaging"
    case PlatformFee => "Platform Fee"
    case SalesLoss => "Sales Loss"
    case RefundLoss => "Refund Loss"
    case Other => "Other"
  }

  /** Reads a stored label back; any other text is not a category. */
  function CategoryFromLabel(s: string): (r: Option<ExpenseCategory>)
    ensures r.Some? ==> CategoryLabel(r.value) == s
  {
    if s == "Marketing" then Some(Marketing)
    else if s == "Delivery" then Some(Delivery)
    else if s == "Packaging" then Some(Packaging)
    else if s == "Platform Fee" then Some(PlatformFee)
    else if s == "Sales Loss" then Some(SalesLoss)
    else if s == "Refund Loss" then Some(RefundLoss)
    else if s == "Other" then Some(Other)
    else None
  }

  /** Every category survives a round trip through its stored label, so the
      seven labels are pairwise distinct. */
  lemma CategoryLabelRoundTrip(c: ExpenseCategory)
    ensures CategoryFromLabel(CategoryLabel(c)) == Some(c)
  {
    match c
    case Marketing =>
    case Delivery =>
    case Packaging =>
    case PlatformFee =>
    case SalesLoss =>
    case RefundLoss =>
    case Other =>
  }

  function FeeTypeFromLabel(s: string): (r: FeeType)
    ensures r == Percentage <==> s == "PERCENTAGE"
  {
    if s == "PERCENTAGE" then Percentage else Fixed
  }
}
