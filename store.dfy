/** The data store: one object holding every collection the application
    keeps, with one method per command. Each method states the whole new
    state in terms of the old one and the pure rewrites of Ledger and
    Settings, preserves the store's invariant, and, for the sale commands,
    conserves stock. Fresh identifiers and the current time are parameters. */
module DataStore {
  import opened Types
  import opened Seqs
  import opened Ledger
  import opened Settings
  import Text

  /** A product before `addProduct` gives it an id and a creation time. */
  datatype ProductDraft = ProductDraft(name: string, sku: string, buyingPrice: real, sellingPrice: real, stock: int)

  /** A supplier or customer without its id (`Omit<..., 'id'>`). */
  datatype SupplierDraft = SupplierDraft(name: string, contact: string, category: string, notes: string)
  datatype CustomerDraft = CustomerDraft(name: string, phone: string, address: string, notes: string)

  /** Why a sale command did nothing: `addSale` throws on an unknown product
      and alerts on short stock; `updateSale` returns silently on an unknown
      sale and alerts on an unknown product. */
  datatype Rejection = ProductNotFound | InsufficientStock | SaleNotFound
  datatype Outcome = Done | Rejected(reason: Rejection)

  const SaleNote: string := "Auto-created from sale"
  const UpdatedSaleNote: string := "Auto-created from updated sale"

  /** Every field of the store, as one value. */
  datatype StoreState = StoreState(
    products: seq<Product>,
    sales: seq<Sale>,
    expenses: seq<Expense>,
    suppliers: seq<Supplier>,
    customers: seq<Customer>,
    settings: AppSettings,
    skuPrefixes: seq<SkuPrefix>,
    deliveryCharges: seq<LocationCharge>)

  ghost predicate AllWellFormed(ss: seq<Sale>) {
    forall i :: 0 <= i < |ss| ==> WellFormed(ss[i])
  }

  /** What every command keeps: distinct ids in each collection the store
      gives ids to, and every sale consistent with its own snapshot and
      status. */
  ghost predicate Invariant(st: StoreState) {
    && UniqueKeys(st.products, ProductKey)
    && UniqueKeys(st.sales, SaleKey)
    && AllWellFormed(st.sales)
    && UniqueKeys(st.expenses, ExpenseKey)
    && UniqueKeys(st.suppliers, SupplierKey)
    && UniqueKeys(st.customers, CustomerKey)
    && UniqueKeys(st.skuPrefixes, PrefixKey)
    && UniqueKeys(st.deliveryCharges, ChargeKey)
  }

  /** The store a first start opens with. */
  function InitialState(): StoreState {
    StoreState([], [], [], [], [], DefaultSettings, DefaultPrefixes, [])
  }

  lemma {:induction false} InitialStateValid()
    ensures Invariant(InitialState())
    ensures SymbolMatches(InitialState().settings)
    ensures Ledger.Metrics([], [], []) == DashboardMetrics(0.0, 0.0, 0.0, 0.0, 0.0, 0.0, 0.0)
  {
  }

  /** `updateExpense`, `updateSupplier`, `updateCustomer`: the record holding
      id takes every field of the draft and keeps its id. */
  function ReplaceExpense(es: seq<Expense>, id: string, d: ExpenseDraft): (r: seq<Expense>)
    ensures |r| == |es|
    ensures forall k :: 0 <= k < |es| ==> r[k] == if es[k].id == id then WithId(id, d) else es[k]
  {
    MapWhere(es, ExpenseKey, id, (e: Expense) => WithId(e.id, d))
  }

  function ReplaceSupplier(ss: seq<Supplier>, id: string, d: SupplierDraft): (r: seq<Supplier>)
    ensures |r| == |ss|
    ensures forall k :: 0 <= k < |ss| ==>
      r[k] == if ss[k].id == id then Supplier(id, d.name, d.contact, d.category, d.notes) else ss[k]
  {
    MapWhere(ss, SupplierKey, id, (s: Supplier) => Supplier(s.id, d.name, d.contact, d.category, d.notes))
  }

  function ReplaceCustomer(cs: seq<Customer>, id: string, d: CustomerDraft): (r: seq<Customer>)
    ensures |r| == |cs|
    ensures forall k :: 0 <= k < |cs| ==>
      r[k] == if cs[k].id == id then Customer(id, d.name, d.phone, d.address, d.notes) else cs[k]
  {
    MapWhere(cs, CustomerKey, id, (c: Customer) => Customer(c.id, d.name, d.phone, d.address, d.notes))
  }

  /** `findIndex(p => p.id === id)` as the loop it performs. */
  method FindProductIndex(products: seq<Product>, id: string) returns (k: int)
    ensures k == IndexOf(products, ProductKey, id)
  {
    k := 0;
    while k < |products|
      invariant 0 <= k <= |products|
      invariant forall j :: 0 <= j < k ==> products[j].id != id
    {
      if products[k].id == id {
        return;
      }
      k := k + 1;
    }
    k := -1;
  }

  /** `updateSale`'s reconciliation on a copy of the products: the old
      product takes back a Completed sale's quantity, then the new product
      gives up the new quantity. */
  method ReconcileStock(products: seq<Product>, oldSale: Sale, newProductId: string, newQuantity: int)
    returns (updated: seq<Product>)
    ensures updated == Reconciled(products, oldSale, newProductId, newQuantity)
  {
    var restored := RestoreOldStock(products, oldSale);
    updated := DeductNewStock(restored, newProductId, newQuantity);
  }

  /** The first pass: the first product with the old sale's product id takes
      back its quantity if the sale was Completed. */
  method RestoreOldStock(products: seq<Product>, oldSale: Sale) returns (updated: seq<Product>)
    ensures updated == RestoreOld(products, oldSale)
  {
    updated := products;
    var oi := FindProductIndex(products, oldSale.productId);
    if oi != -1 && oldSale.status == Completed {
      updated := products[oi := products[oi].(stock := products[oi].stock + oldSale.quantity)];
    }
  }

  /** The second pass: the first product with the new product id gives up
      the new quantity. */
  method DeductNewStock(products: seq<Product>, newProductId: string, newQuantity: int) returns (updated: seq<Product>)
    ensures updated == DeductNew(products, newProductId, newQuantity)
  {
    updated := products;
    var ni := FindProductIndex(products, newProductId);
    if ni != -1 {
      updated := products[ni := products[ni].(stock := products[ni].stock - newQuantity)];
    }
  }

  /** A sale that is not yet recorded, put in front, keeps the sales valid. */
  lemma {:induction false} PrependSale(sale: Sale, ss: seq<Sale>)
    requires UniqueKeys(ss, SaleKey) && AllWellFormed(ss)
    requires WellFormed(sale) && !HasKey(ss, SaleKey, sale.id)
    ensures UniqueKeys([sale] + ss, SaleKey) && AllWellFormed([sale] + ss)
  {
    PrependKeepsUnique(sale, ss, SaleKey);
    var r := [sale] + ss;
    forall i | 0 <= i < |r| ensures WellFormed(r[i]) {
      if i > 0 {
        assert r[i] == ss[i - 1];
      }
    }
  }

  /** Dropping one id keeps the sales valid. */
  lemma {:induction false} WithoutSale(ss: seq<Sale>, id: string)
    requires UniqueKeys(ss, SaleKey) && AllWellFormed(ss)
    ensures UniqueKeys(Without(ss, SaleKey, id), SaleKey) && AllWellFormed(Without(ss, SaleKey, id))
  {
    WithoutKeepsUnique(ss, SaleKey, id);
    var r := Without(ss, SaleKey, id);
    forall i | 0 <= i < |r| ensures WellFormed(r[i]) {
      assert r[i] in ss;
      var j :| 0 <= j < |ss| && ss[j] == r[i];
    }
  }

  /** Auto-creating a customer under a new id keeps customer ids distinct. */
  lemma {:induction false} AutoCustomersKeepIds(cs: seq<Customer>, phone: Option<string>, id: string, note: string)
    requires UniqueKeys(cs, CustomerKey) && !HasKey(cs, CustomerKey, id)
    ensures UniqueKeys(AutoCustomers(cs, phone, id, note), CustomerKey)
  {
    if CreatesCustomer(cs, phone) {
      PrependKeepsUnique(AutoCustomer(id, Text.Trim(phone.value), note), cs, CustomerKey);
    }
  }

  /** Recomputing a sale keeps the sales valid. */
  lemma {:induction false} ReviseKeepsValid(ss: seq<Sale>, id: string, product: Product, upd: SaleUpdate, platforms: seq<Platform>)
    requires UniqueKeys(ss, SaleKey) && AllWellFormed(ss)
    ensures UniqueKeys(ReviseSales(ss, id, product, upd, platforms), SaleKey)
    ensures AllWellFormed(ReviseSales(ss, id, product, upd, platforms))
  {
    var r := ReviseSales(ss, id, product, upd, platforms);
    SameKeysUnique(ss, r, SaleKey);
  }

  /** Marking a sale Refunded keeps the sales valid. */
  lemma {:induction false} RefundKeepsValid(ss: seq<Sale>, j: int, now: int, deliveryPaid: bool)
    requires UniqueKeys(ss, SaleKey) && AllWellFormed(ss)
    requires 0 <= j < |ss|
    ensures UniqueKeys(MarkRefunded(ss, ss[j].id, now, deliveryPaid), SaleKey)
    ensures AllWellFormed(MarkRefunded(ss, ss[j].id, now, deliveryPaid))
  {
    var r := MarkRefunded(ss, ss[j].id, now, deliveryPaid);
    SameKeysUnique(ss, r, SaleKey);
  }

  /** The state `addSale` leaves when it records a sale of product k. */
  function Recorded(st: StoreState, k: int, saleId: string, input: SaleInput, customerId: string): StoreState
    requires 0 <= k < |st.products|
  {
    var p := st.products[k];
    st.(customers := AutoCustomers(st.customers, input.customerPhone, customerId, SaleNote),
        sales := [NewSale(saleId, p, input, st.settings.platforms)] + st.sales,
        products := UpdateProducts(st.products, p.id, StockPatch(p.stock - input.quantity)))
  }

  /** Recording a sale under fresh sale and customer ids keeps the invariant. */
  lemma {:induction false} RecordKeepsInvariant(st: StoreState, k: int, saleId: string, input: SaleInput, customerId: string)
    requires Invariant(st) && 0 <= k < |st.products|
    requires !HasKey(st.sales, SaleKey, saleId) && !HasKey(st.customers, CustomerKey, customerId)
    ensures Invariant(Recorded(st, k, saleId, input, customerId))
  {
    var p := st.products[k];
    AutoCustomersKeepIds(st.customers, input.customerPhone, customerId, SaleNote);
    PrependSale(NewSale(saleId, p, input, st.settings.platforms), st.sales);
    SameKeysUnique(st.products, UpdateProducts(st.products, p.id, StockPatch(p.stock - input.quantity)), ProductKey);
  }

  class Store {
    var products: seq<Product>
    var sales: seq<Sale>
    var expenses: seq<Expense>
    var suppliers: seq<Supplier>
    var customers: seq<Customer>
    var settings: AppSettings
    var skuPrefixes: seq<SkuPrefix>
    var deliveryCharges: seq<LocationCharge>

    function State(): StoreState
      reads this
    {
      StoreState(products, sales, expenses, suppliers, customers, settings, skuPrefixes, deliveryCharges)
    }

    ghost predicate Valid()
      reads this
    {
      Invariant(State())
    }

    /** The store over the collections loaded at start-up. */
    constructor (init: StoreState)
      requires Invariant(init)
      ensures Valid() && State() == init
    {
      products := init.products;
      sales := init.sales;
      expenses := init.expenses;
      suppliers := init.suppliers;
      customers := init.customers;
      settings := init.settings;
      skuPrefixes := init.skuPrefixes;
      deliveryCharges := init.deliveryCharges;
    }

    /** The dashboard metrics of the current collections. */
    function CurrentMetrics(): DashboardMetrics
      reads this
    {
      Ledger.Metrics(products, sales, expenses)
    }

    // ---------------------------------------------------------------
    // Settings, SKU prefixes, platforms, delivery charges

    method UpdateSettings(patch: SettingsPatch)
      requires Valid()
      modifies this
      ensures Valid()
      ensures State() == old(State()).(settings := MergeSettings(old(settings), patch))
    {
      settings := MergeSettings(settings, patch);
    }

    /** The prefix is stored upper-cased, at the end of the list. */
    method AddSkuPrefix(id: string, prefix: string, title: string)
      requires Valid()
      requires !HasKey(skuPrefixes, PrefixKey, id)
      modifies this
      ensures Valid()
      ensures State() == old(State()).(skuPrefixes := old(skuPrefixes) + [SkuPrefix(id, Text.ToUpper(prefix), title)])
    {
      var entry := SkuPrefix(id, Text.ToUpper(prefix), title);
      AppendKeepsUnique(skuPrefixes, entry, PrefixKey);
      skuPrefixes := skuPrefixes + [entry];
    }

    method RemoveSkuPrefix(id: string)
      requires Valid()
      modifies this
      ensures Valid()
      ensures State() == old(State()).(skuPrefixes := Without(old(skuPrefixes), PrefixKey, id))
    {
      WithoutKeepsUnique(skuPrefixes, PrefixKey, id);
      skuPrefixes := Without(skuPrefixes, PrefixKey, id);
    }

    /** A new platform goes at the end of the settings' list; without a fee
        it charges a fixed 0. */
    method AddPlatform(id: string, name: string, feeValue: real := 0.0, feeType: FeeType := Fixed)
      requires Valid()
      modifies this
      ensures Valid()
      ensures State() == old(State()).(settings := old(settings).(platforms := old(settings).platforms + [Platform(id, name, feeValue, feeType)]))
    {
      settings := settings.(platforms := settings.platforms + [Platform(id, name, feeValue, feeType)]);
    }

    method RemovePlatform(id: string)
      requires Valid()
      modifies this
      ensures Valid()
      ensures State() == old(State()).(settings := old(settings).(platforms := Without(old(settings).platforms, PlatformKey, id)))
    {
      settings := settings.(platforms := Without(settings.platforms, PlatformKey, id));
    }

    method AddLocationCharge(id: string, location: string, charge: real)
      requires Valid()
      requires !HasKey(deliveryCharges, ChargeKey, id)
      modifies this
      ensures Valid()
      ensures State() == old(State()).(deliveryCharges := old(deliveryCharges) + [LocationCharge(id, location, charge)])
    {
      var entry := LocationCharge(id, location, charge);
      AppendKeepsUnique(deliveryCharges, entry, ChargeKey);
      deliveryCharges := deliveryCharges + [entry];
    }

    method RemoveLocationCharge(id: string)
      requires Valid()
      modifies this
      ensures Valid()
      ensures State() == old(State()).(deliveryCharges := Without(old(deliveryCharges), ChargeKey, id))
    {
      WithoutKeepsUnique(deliveryCharges, ChargeKey, id);
      deliveryCharges := Without(deliveryCharges, ChargeKey, id);
    }

    // ---------------------------------------------------------------
    // Products

    /** A new product goes in front, stamped with the current time. */
    method AddProduct(id: string, d: ProductDraft, now: int)
      requires Valid()
      requires !HasKey(products, ProductKey, id)
      modifies this
      ensures Valid()
      ensures State() == old(State()).(products :=
        [Product(id, d.name, d.sku, d.buyingPrice, d.sellingPrice, d.stock, now)] + old(products))
    {
      var p := Product(id, d.name, d.sku, d.buyingPrice, d.sellingPrice, d.stock, now);
      PrependKeepsUnique(p, products, ProductKey);
      products := [p] + products;
    }

    method UpdateProduct(id: string, patch: ProductPatch)
      requires Valid()
      modifies this
      ensures Valid()
      ensures State() == old(State()).(products := UpdateProducts(old(products), id, patch))
    {
      var updated := UpdateProducts(products, id, patch);
      SameKeysUnique(products, updated, ProductKey);
      products := updated;
    }

    /** Removes the product only: sales that refer to it stay as they are. */
    method DeleteProduct(id: string)
      requires Valid()
      modifies this
      ensures Valid()
      ensures State() == old(State()).(products := Without(old(products), ProductKey, id))
    {
      WithoutKeepsUnique(products, ProductKey, id);
      products := Without(products, ProductKey, id);
    }

    // ---------------------------------------------------------------
    // Sales

    /** `addSale`: rejects an unknown product, then short stock unless
        negative stock is allowed; otherwise auto-creates the customer,
        records the sale in front and lowers the product's stock by the
        quantity sold. */
    method AddSale(saleId: string, input: SaleInput, customerId: string) returns (outcome: Outcome)
      requires Valid()
      requires !HasKey(sales, SaleKey, saleId)
      requires !HasKey(customers, CustomerKey, customerId)
      modifies this
      ensures Valid()
      ensures !HasKey(old(products), ProductKey, input.productId) ==>
        outcome == Rejected(ProductNotFound) && State() == old(State())
      ensures HasKey(old(products), ProductKey, input.productId) ==>
        var p := Find(old(products), ProductKey, input.productId).value;
        if !old(settings).allowNegativeStock && p.stock < input.quantity then
          outcome == Rejected(InsufficientStock) && State() == old(State())
        else
          && outcome == Done
          && State() == Recorded(old(State()), IndexOf(old(products), ProductKey, input.productId), saleId, input, customerId)
      ensures outcome == Done ==> StockConserved(old(products), old(sales), products, sales)
      ensures outcome == Done ==>
        CurrentMetrics().totalSales == old(CurrentMetrics()).totalSales + sales[0].revenue
        && CurrentMetrics().totalProfit == old(CurrentMetrics()).totalProfit + sales[0].profit
    {
      var found := Find(products, ProductKey, input.productId);
      if found.None? {
        return Rejected(ProductNotFound);
      }
      var product := found.value;
      if !settings.allowNegativeStock && product.stock < input.quantity {
        return Rejected(InsufficientStock);
      }
      var k := FindProductIndex(products, input.productId);
      RecordSale(saleId, k, input, customerId);
      outcome := Done;
    }

    /** The accepted half of `addSale`, for the product at position k: the
        customer is auto-created, the sale recorded in front, and the
        product's stock lowered by the quantity sold. */
    method RecordSale(saleId: string, k: int, input: SaleInput, customerId: string)
      requires Valid()
      requires 0 <= k < |products| && products[k].id == input.productId
      requires !HasKey(sales, SaleKey, saleId)
      requires !HasKey(customers, CustomerKey, customerId)
      modifies this
      ensures Valid()
      ensures State() == Recorded(old(State()), k, saleId, input, customerId)
      ensures StockConserved(old(products), old(sales), products, sales)
      ensures CurrentMetrics().totalSales == old(CurrentMetrics()).totalSales + sales[0].revenue
      ensures CurrentMetrics().totalProfit == old(CurrentMetrics()).totalProfit + sales[0].profit
    {
      var product := products[k];
      var sale := NewSale(saleId, product, input, settings.platforms);
      var after := UpdateProducts(products, product.id, StockPatch(product.stock - input.quantity));
      ghost var st := State();
      RecordKeepsInvariant(st, k, saleId, input, customerId);
      AddSaleConservesStock(products, sales, k, sale);
      AddSaleMetrics(products, sales, expenses, k, sale);
      customers := AutoCustomers(customers, input.customerPhone, customerId, SaleNote);
      sales := [sale] + sales;
      products := after;
      assert State() == Recorded(st, k, saleId, input, customerId);
    }

    /** `updateSale`: nothing for an unknown sale; otherwise the customer is
        auto-created first, then an unknown product stops the edit; else the
        stock is reconciled and the sale recomputed from the new inputs. */
    method UpdateSale(saleId: string, upd: SaleUpdate, customerId: string) returns (outcome: Outcome)
      requires Valid()
      requires !HasKey(customers, CustomerKey, customerId)
      modifies this
      ensures Valid()
      ensures !HasKey(old(sales), SaleKey, saleId) ==>
        outcome == Rejected(SaleNotFound) && State() == old(State())
      ensures HasKey(old(sales), SaleKey, saleId) ==>
        var oldSale := Find(old(sales), SaleKey, saleId).value;
        var customers' := AutoCustomers(old(customers), upd.customerPhone, customerId, UpdatedSaleNote);
        if !HasKey(old(products), ProductKey, upd.productId) then
          outcome == Rejected(ProductNotFound) && State() == old(State()).(customers := customers')
        else
          && outcome == Done
          && State() == old(State()).(
               customers := customers',
               products := Reconciled(old(products), oldSale, upd.productId, upd.quantity),
               sales := ReviseSales(old(sales), saleId, Find(old(products), ProductKey, upd.productId).value, upd, old(settings).platforms))
      ensures outcome == Done && Find(old(sales), SaleKey, saleId).value.status == Completed ==>
        StockConserved(old(products), old(sales), products, sales)
    {
      var found := Find(sales, SaleKey, saleId);
      if found.None? {
        return Rejected(SaleNotFound);
      }
      var oldSale := found.value;
      AutoCustomersKeepIds(customers, upd.customerPhone, customerId, UpdatedSaleNote);
      customers := AutoCustomers(customers, upd.customerPhone, customerId, UpdatedSaleNote);
      var np := Find(products, ProductKey, upd.productId);
      if np.None? {
        return Rejected(ProductNotFound);
      }
      ApplySaleEdit(IndexOf(sales, SaleKey, saleId), np.value, upd);
      outcome := Done;
    }

    /** The second half of `updateSale`, once both the sale (at position j)
        and the new product are known: reconcile stock, then recompute the
        sale. */
    method ApplySaleEdit(j: int, newProduct: Product, upd: SaleUpdate)
      requires Valid()
      requires 0 <= j < |sales|
      modifies this
      ensures Valid()
      ensures State() == old(State()).(
        products := Reconciled(old(products), old(sales)[j], upd.productId, upd.quantity),
        sales := ReviseSales(old(sales), old(sales)[j].id, newProduct, upd, old(settings).platforms))
      ensures old(sales)[j].status == Completed ==> StockConserved(old(products), old(sales), products, sales)
    {
      var oldSale := sales[j];
      var updated := ReconcileStock(products, oldSale, upd.productId, upd.quantity);
      var revised := ReviseSales(sales, oldSale.id, newProduct, upd, settings.platforms);
      ReviseKeepsValid(sales, oldSale.id, newProduct, upd, settings.platforms);
      SameKeysUnique(products, updated, ProductKey);
      if oldSale.status == Completed {
        UpdateConservesStock(products, sales, j, newProduct, upd, settings.platforms);
      }
      products := updated;
      sales := revised;
    }

    /** `deleteSale`: a Completed sale gives its quantity back; a Refunded
        one already did. */
    method DeleteSale(saleId: string)
      requires Valid()
      modifies this
      ensures Valid()
      ensures !HasKey(old(sales), SaleKey, saleId) ==> State() == old(State())
      ensures HasKey(old(sales), SaleKey, saleId) ==>
        var s := Find(old(sales), SaleKey, saleId).value;
        var j := IndexOf(old(sales), SaleKey, saleId);
        && sales == old(sales)[..j] + old(sales)[j + 1..]
        && State() == old(State()).(
             products := if s.status == Completed then AdjustStock(old(products), s.productId, s.quantity) else old(products),
             sales := Without(old(sales), SaleKey, saleId))
        && StockConserved(old(products), old(sales), products, sales)
    {
      var found := Find(sales, SaleKey, saleId);
      if found.None? {
        return;
      }
      var j := IndexOf(sales, SaleKey, saleId);
      WithoutUnique(sales, SaleKey, j);
      RemoveSaleAt(j);
    }

    /** Removes the sale at position j, giving its quantity back to its
        product if it was Completed. */
    method RemoveSaleAt(j: int)
      requires Valid()
      requires 0 <= j < |sales|
      modifies this
      ensures Valid()
      ensures var s := old(sales[j]);
        State() == old(State()).(
          products := if s.status == Completed then AdjustStock(old(products), s.productId, s.quantity) else old(products),
          sales := Without(old(sales), SaleKey, s.id))
      ensures StockConserved(old(products), old(sales), products, sales)
    {
      var sale := sales[j];
      DeleteConservesStock(products, sales, j);
      WithoutSale(sales, sale.id);
      if sale.status == Completed {
        var adjusted := AdjustStock(products, sale.productId, sale.quantity);
        SameKeysUnique(products, adjusted, ProductKey);
        products := adjusted;
      }
      sales := Without(sales, SaleKey, sale.id);
    }

    /** `refundSale`: nothing for an unknown or already Refunded sale;
        otherwise the sale is marked Refunded, its quantity goes back to
        its product, and an unrecovered delivery charge is booked as a
        Refund Loss expense. */
    method RefundSale(saleId: string, deliveryPaid: bool, now: int, expenseId: string)
      requires Valid()
      requires !HasKey(expenses, ExpenseKey, expenseId)
      modifies this
      ensures Valid()
      ensures var f := Find(old(sales), SaleKey, saleId);
        if f.None? || f.value.status == Refunded then State() == old(State())
        else
          && State() == old(State()).(
               sales := MarkRefunded(old(sales), saleId, now, deliveryPaid),
               products := AdjustStock(old(products), f.value.productId, f.value.quantity),
               expenses := RefundExpenses(old(expenses), f.value, deliveryPaid, now, expenseId))
          && StockConserved(old(products), old(sales), products, sales)
    {
      var found := Find(sales, SaleKey, saleId);
      if found.None? || found.value.status == Refunded {
        return;
      }
      var sale := found.value;
      var j := IndexOf(sales, SaleKey, saleId);
      RefundConservesStock(products, sales, j, now, deliveryPaid);
      RefundKeepsValid(sales, j, now, deliveryPaid);
      var marked := MarkRefunded(sales, saleId, now, deliveryPaid);
      var adjusted := AdjustStock(products, sale.productId, sale.quantity);
      SameKeysUnique(products, adjusted, ProductKey);
      sales := marked;
      products := adjusted;
      if !deliveryPaid && sale.deliveryCharge > 0.0 {
        AddExpense(expenseId, RefundLossDraft(sale, now));
      }
    }

    // ---------------------------------------------------------------
    // Expenses, suppliers, customers

    method AddExpense(id: string, d: ExpenseDraft)
      requires Valid()
      requires !HasKey(expenses, ExpenseKey, id)
      modifies this
      ensures Valid()
      ensures State() == old(State()).(expenses := [WithId(id, d)] + old(expenses))
    {
      PrependKeepsUnique(WithId(id, d), expenses, ExpenseKey);
      expenses := [WithId(id, d)] + expenses;
    }

    method UpdateExpense(id: string, d: ExpenseDraft)
      requires Valid()
      modifies this
      ensures Valid()
      ensures State() == old(State()).(expenses := ReplaceExpense(old(expenses), id, d))
    {
      var updated := ReplaceExpense(expenses, id, d);
      SameKeysUnique(expenses, updated, ExpenseKey);
      expenses := updated;
    }

    method DeleteExpense(id: string)
      requires Valid()
      modifies this
      ensures Valid()
      ensures State() == old(State()).(expenses := Without(old(expenses), ExpenseKey, id))
    {
      WithoutKeepsUnique(expenses, ExpenseKey, id);
      expenses := Without(expenses, ExpenseKey, id);
    }

    method AddSupplier(id: string, d: SupplierDraft)
      requires Valid()
      requires !HasKey(suppliers, SupplierKey, id)
      modifies this
      ensures Valid()
      ensures State() == old(State()).(suppliers := [Supplier(id, d.name, d.contact, d.category, d.notes)] + old(suppliers))
    {
      var s := Supplier(id, d.name, d.contact, d.category, d.notes);
      PrependKeepsUnique(s, suppliers, SupplierKey);
      suppliers := [s] + suppliers;
    }

    method UpdateSupplier(id: string, d: SupplierDraft)
      requires Valid()
      modifies this
      ensures Valid()
      ensures State() == old(State()).(suppliers := ReplaceSupplier(old(suppliers), id, d))
    {
      var updated := ReplaceSupplier(suppliers, id, d);
      SameKeysUnique(suppliers, updated, SupplierKey);
      suppliers := updated;
    }

    method DeleteSupplier(id: string)
      requires Valid()
      modifies this
      ensures Valid()
      ensures State() == old(State()).(suppliers := Without(old(suppliers), SupplierKey, id))
    {
      WithoutKeepsUnique(suppliers, SupplierKey, id);
      suppliers := Without(suppliers, SupplierKey, id);
    }

    method AddCustomer(id: string, d: CustomerDraft)
      requires Valid()
      requires !HasKey(customers, CustomerKey, id)
      modifies this
      ensures Valid()
      ensures State() == old(State()).(customers := [Customer(id, d.name, d.phone, d.address, d.notes)] + old(customers))
    {
      var c := Customer(id, d.name, d.phone, d.address, d.notes);
      PrependKeepsUnique(c, customers, CustomerKey);
      customers := [c] + customers;
    }

    method UpdateCustomer(id: string, d: CustomerDraft)
      requires Valid()
      modifies this
      ensures Valid()
      ensures State() == old(State()).(customers := ReplaceCustomer(old(customers), id, d))
    {
      var updated := ReplaceCustomer(customers, id, d);
      SameKeysUnique(customers, updated, CustomerKey);
      customers := updated;
    }

    method DeleteCustomer(id: string)
      requires Valid()
      modifies this
      ensures Valid()
      ensures State() == old(State()).(customers := Without(old(customers), CustomerKey, id))
    {
      WithoutKeepsUnique(customers, CustomerKey, id);
      customers := Without(customers, CustomerKey, id);
    }
  }

}
