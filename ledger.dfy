/** The pure half of the ledger engine: the platform fee rule, the
    financial snapshot of a sale, customer auto-creation keyed on the trimmed
    phone, the collection rewrites each command applies, the metrics
    projection, and the facts that tie them together (stock conservation
    over the sale lifecycle, how each command moves the metrics). */
module Ledger {
  import opened Types
  import opened Seqs
  import Text

  // ------------------------------------------------------------------
  // Command inputs

  /** What `addSale` is given: everything but the derived fields; a missing
      `unitPrice` means "use the product's selling price". */
  datatype SaleInput = SaleInput(
    productId: string,
    quantity: int,
    unitPrice: Option<real>,
    platform: string,
    deliveryCharge: real,
    location: string,
    paidByCustomer: Option<bool>,
    date: int,
    customerPhone: Option<string>)

  /** What `updateSale` is given. */
  datatype SaleUpdate = SaleUpdate(
    productId: string,
    quantity: int,
    unitPrice: real,
    platform: string,
    date: int,
    location: string,
    deliveryCharge: real,
    paidByCustomer: bool,
    customerPhone: Option<string>)

  // ------------------------------------------------------------------
  // Platform fee

  function PlatformName(p: Platform): string { p.name }

  /** The fee a named platform charges on a sale's revenue: nothing for a
      platform that is not configured, a share of the revenue for a
      percentage rule, the flat amount otherwise. The first platform with
      that name decides. */
  function CalculatePlatformFee(platforms: seq<Platform>, platformName: string, revenue: real): (fee: real)
    ensures !HasKey(platforms, PlatformName, platformName) ==> fee == 0.0
    ensures HasKey(platforms, PlatformName, platformName) ==>
      var p := platforms[IndexOf(platforms, PlatformName, platformName)];
      p.name == platformName &&
      fee == if p.feeType == Percentage then revenue * p.feeValue / 100.0 else p.feeValue
  {
    match Find(platforms, PlatformName, platformName)
    case None => 0.0
    case Some(p) =>
      if p.feeType == Percentage then (revenue * p.feeValue) / 100.0 else p.feeValue
  }

  /** A flat fee does not grow with the sale: any two revenues pay the same;
      a percentage fee is proportional: the fee on a sum is the sum of fees. */
  lemma {:induction false} FeeShape(platforms: seq<Platform>, name: string, r1: real, r2: real)
    requires HasKey(platforms, PlatformName, name)
    ensures var p := platforms[IndexOf(platforms, PlatformName, name)];
      if p.feeType == Fixed then
        CalculatePlatformFee(platforms, name, r1) == CalculatePlatformFee(platforms, name, r2)
      else
        CalculatePlatformFee(platforms, name, r1 + r2)
          == CalculatePlatformFee(platforms, name, r1) + CalculatePlatformFee(platforms, name, r2)
  {
  }

  // ------------------------------------------------------------------
  // The financial snapshot of a sale

  /** revenue, totalCost and profit agree with the snapshot prices, the quantity and the fee. */
  predicate Consistent(s: Sale) {
    && s.revenue == s.sellingPriceSnapshot * s.quantity as real
    && s.totalCost == s.buyingCostSnapshot * s.quantity as real
    && s.profit == s.revenue - s.totalCost - s.platformFee
  }

  /** The refund fields are set exactly on a refunded sale. */
  predicate RefundFieldsMatch(s: Sale) {
    && (s.status == Completed <==> s.refundDate.None?)
    && (s.refundDate.None? <==> s.deliveryPaidOnRefund.None?)
  }

  predicate WellFormed(s: Sale) {
    Consistent(s) && RefundFieldsMatch(s)
  }

  /** The sale `addSale` records: priced at the override or else the
      product's selling price, costed at its buying price, charged the
      platform's fee, Completed, with no refund fields. */
  function NewSale(id: string, product: Product, input: SaleInput, platforms: seq<Platform>): (s: Sale)
    ensures s.id == id && s.productId == input.productId && s.productName == product.name
    ensures s.quantity == input.quantity
    ensures s.sellingPriceSnapshot == (if input.unitPrice.Some? then input.unitPrice.value else product.sellingPrice)
    ensures s.buyingCostSnapshot == product.buyingPrice
    ensures s.platformFee == CalculatePlatformFee(platforms, input.platform, s.revenue)
    ensures WellFormed(s) && s.status == Completed
    ensures s.customerPhone == input.customerPhone && s.platform == input.platform && s.date == input.date
    ensures s.deliveryCharge == input.deliveryCharge && s.location == input.location
    ensures s.paidByCustomer == input.paidByCustomer
  {
    var unitPrice := input.unitPrice.GetOr(product.sellingPrice);
    var revenue := unitPrice * input.quantity as real;
    var totalCost := product.buyingPrice * input.quantity as real;
    var platformFee := CalculatePlatformFee(platforms, input.platform, revenue);
    Sale(
      id := id,
      productId := input.productId,
      productName := product.name,
      quantity := input.quantity,
      sellingPriceSnapshot := unitPrice,
      buyingCostSnapshot := product.buyingPrice,
      revenue := revenue,
      totalCost := totalCost,
      profit := revenue - totalCost - platformFee,
      platformFee := platformFee,
      deliveryCharge := input.deliveryCharge,
      location := input.location,
      platform := input.platform,
      date := input.date,
      status := Completed,
      refundDate := None,
      deliveryPaidOnRefund := None,
      paidByCustomer := input.paidByCustomer,
      customerPhone := input.customerPhone)
  }

  /** `updateSale`'s rewrite of one sale: every input and derived field is
      recomputed from the new product and inputs; id, status and the refund
      fields are the old sale's. */
  function Revised(s: Sale, product: Product, upd: SaleUpdate, platforms: seq<Platform>): (r: Sale)
    ensures r.id == s.id && r.status == s.status
    ensures r.refundDate == s.refundDate && r.deliveryPaidOnRefund == s.deliveryPaidOnRefund
    ensures r.productId == upd.productId && r.productName == product.name && r.quantity == upd.quantity
    ensures r.sellingPriceSnapshot == upd.unitPrice && r.buyingCostSnapshot == product.buyingPrice
    ensures r.platformFee == CalculatePlatformFee(platforms, upd.platform, r.revenue)
    ensures Consistent(r) && (RefundFieldsMatch(s) ==> RefundFieldsMatch(r))
    ensures r.paidByCustomer == Some(upd.paidByCustomer) && r.customerPhone == upd.customerPhone
    ensures r.platform == upd.platform && r.date == upd.date
    ensures r.location == upd.location && r.deliveryCharge == upd.deliveryCharge
  {
    var revenue := upd.unitPrice * upd.quantity as real;
    var totalCost := product.buyingPrice * upd.quantity as real;
    var platformFee := CalculatePlatformFee(platforms, upd.platform, revenue);
    s.(
      productId := upd.productId,
      productName := product.name,
      quantity := upd.quantity,
      sellingPriceSnapshot := upd.unitPrice,
      buyingCostSnapshot := product.buyingPrice,
      revenue := revenue,
      totalCost := totalCost,
      profit := revenue - totalCost - platformFee,
      platformFee := platformFee,
      platform := upd.platform,
      date := upd.date,
      location := upd.location,
      deliveryCharge := upd.deliveryCharge,
      paidByCustomer := Some(upd.paidByCustomer),
      customerPhone := upd.customerPhone)
  }

  /** `refundSale`'s rewrite of one sale. */
  function RefundedCopy(s: Sale, now: int, deliveryPaid: bool): (r: Sale)
    ensures r.status == Refunded && r.refundDate == Some(now) && r.deliveryPaidOnRefund == Some(deliveryPaid)
    ensures r == s.(status := Refunded, refundDate := Some(now), deliveryPaidOnRefund := Some(deliveryPaid))
    ensures Consistent(s) ==> WellFormed(r)
  {
    s.(status := Refunded, refundDate := Some(now), deliveryPaidOnRefund := Some(deliveryPaid))
  }

  // ------------------------------------------------------------------
  // Customer auto-creation

  function CustomerPhone(c: Customer): string { c.phone }

  /** A sale's phone asks for a customer when, trimmed, it is not empty
      (an absent or all-blank phone asks for nothing). */
  predicate NamesPhone(phone: Option<string>) {
    phone.Some? && Text.Trim(phone.value) != ""
  }

  /** The customer auto-created for a trimmed phone. */
  function AutoCustomer(id: string, phone: string, note: string): Customer {
    Customer(id, "Customer " + phone, phone, "", note)
  }

  /** A sale's phone creates a customer when it names a phone no customer has yet. */
  predicate CreatesCustomer(customers: seq<Customer>, phone: Option<string>) {
    NamesPhone(phone) && !HasKey(customers, CustomerPhone, Text.Trim(phone.value))
  }

  /** The customer list after a sale carrying `phone`: a new customer, named
      after the trimmed phone and storing the trimmed phone, goes in front
      exactly when the phone is given and no customer has it yet. */
  function AutoCustomers(customers: seq<Customer>, phone: Option<string>, id: string, note: string): (r: seq<Customer>)
    ensures CreatesCustomer(customers, phone) ==>
      r == [AutoCustomer(id, Text.Trim(phone.value), note)] + customers
    ensures !CreatesCustomer(customers, phone) ==> r == customers
    ensures NamesPhone(phone) ==> HasKey(r, CustomerPhone, Text.Trim(phone.value))
  {
    if CreatesCustomer(customers, phone) then
      var c := AutoCustomer(id, Text.Trim(phone.value), note);
      assert CustomerPhone(([c] + customers)[0]) == Text.Trim(phone.value);
      [c] + customers
    else
      customers
  }

  /** A repeated phone never creates a second customer: after one auto-creation
      the same phone creates nothing, and distinct phones stay distinct. */
  lemma {:induction false} AutoCustomersNoDuplicate(customers: seq<Customer>, phone: Option<string>, id1: string, n1: string, id2: string, n2: string)
    ensures var once := AutoCustomers(customers, phone, id1, n1);
      AutoCustomers(once, phone, id2, n2) == once
    ensures UniqueKeys(customers, CustomerPhone) ==>
      UniqueKeys(AutoCustomers(customers, phone, id1, n1), CustomerPhone)
  {
    if UniqueKeys(customers, CustomerPhone) && CreatesCustomer(customers, phone) {
      PrependKeepsUnique(AutoCustomer(id1, Text.Trim(phone.value), n1), customers, CustomerPhone);
    }
  }

  // ------------------------------------------------------------------
  // Collection rewrites

  /** `updateProduct`'s partial update: each given field replaces the old one. */
  datatype ProductPatch = ProductPatch(
    name: Option<string>,
    sku: Option<string>,
    buyingPrice: Option<real>,
    sellingPrice: Option<real>,
    stock: Option<int>)

  function StockPatch(stock: int): ProductPatch {
    ProductPatch(None, None, None, None, Some(stock))
  }

  function Patched(p: Product, patch: ProductPatch): (r: Product)
    ensures r.id == p.id && r.createdAt == p.createdAt
    ensures r.stock == patch.stock.GetOr(p.stock) && r.name == patch.name.GetOr(p.name)
    ensures r.sku == patch.sku.GetOr(p.sku)
    ensures r.buyingPrice == patch.buyingPrice.GetOr(p.buyingPrice)
    ensures r.sellingPrice == patch.sellingPrice.GetOr(p.sellingPrice)
  {
    p.(name := patch.name.GetOr(p.name),
       sku := patch.sku.GetOr(p.sku),
       buyingPrice := patch.buyingPrice.GetOr(p.buyingPrice),
       sellingPrice := patch.sellingPrice.GetOr(p.sellingPrice),
       stock := patch.stock.GetOr(p.stock))
  }

  /** `products.map(p => p.id === id ? {...p, ...patch} : p)`. */
  function UpdateProducts(products: seq<Product>, id: string, patch: ProductPatch): (r: seq<Product>)
    ensures |r| == |products|
    ensures forall k :: 0 <= k < |products| ==> r[k].id == products[k].id
    ensures forall k :: 0 <= k < |products| ==>
      r[k] == if products[k].id == id then Patched(products[k], patch) else products[k]
  {
    MapWhere(products, ProductKey, id, (p: Product) => Patched(p, patch))
  }

  /** `products.map(p => p.id === id ? {...p, stock: p.stock + delta} : p)`. */
  function AdjustStock(products: seq<Product>, id: string, delta: int): (r: seq<Product>)
    ensures |r| == |products|
    ensures forall k :: 0 <= k < |products| ==>
      r[k] == if products[k].id == id then products[k].(stock := products[k].stock + delta) else products[k]
  {
    MapWhere(products, ProductKey, id, (p: Product) => p.(stock := p.stock + delta))
  }

  /** `sales.map(s => s.id === id ? {...s, status: Refunded, ...} : s)`. */
  function MarkRefunded(sales: seq<Sale>, id: string, now: int, deliveryPaid: bool): (r: seq<Sale>)
    ensures |r| == |sales|
    ensures forall k :: 0 <= k < |sales| ==>
      r[k] == if sales[k].id == id then RefundedCopy(sales[k], now, deliveryPaid) else sales[k]
  {
    MapWhere(sales, SaleKey, id, (s: Sale) => RefundedCopy(s, now, deliveryPaid))
  }

  /** `sales.map(s => s.id === id ? {...s, ...recomputed} : s)`. */
  function ReviseSales(sales: seq<Sale>, id: string, product: Product, upd: SaleUpdate, platforms: seq<Platform>): (r: seq<Sale>)
    ensures |r| == |sales|
    ensures forall k :: 0 <= k < |sales| ==>
      r[k] == if sales[k].id == id then Revised(sales[k], product, upd, platforms) else sales[k]
  {
    MapWhere(sales, SaleKey, id, (s: Sale) => Revised(s, product, upd, platforms))
  }

  /** The first half of `updateSale`'s reconciliation: the first product
      holding the old sale's product id gets the old quantity back, if the
      sale is Completed. */
  function RestoreOld(products: seq<Product>, oldSale: Sale): (r: seq<Product>)
    ensures |r| == |products|
    ensures forall k :: 0 <= k < |products| ==> r[k].id == products[k].id
  {
    var oi := IndexOf(products, ProductKey, oldSale.productId);
    if oi != -1 && oldSale.status == Completed
    then products[oi := products[oi].(stock := products[oi].stock + oldSale.quantity)]
    else products
  }

  /** The second half: the first product holding the new product id gives up
      the new quantity, whatever the sale's status. */
  function DeductNew(products: seq<Product>, newProductId: string, newQuantity: int): (r: seq<Product>)
    ensures |r| == |products|
    ensures forall k :: 0 <= k < |products| ==> r[k].id == products[k].id
  {
    var ni := IndexOf(products, ProductKey, newProductId);
    if ni != -1
    then products[ni := products[ni].(stock := products[ni].stock - newQuantity)]
    else products
  }

  /** `updateSale`'s stock reconciliation over a copy of the products. */
  function Reconciled(products: seq<Product>, oldSale: Sale, newProductId: string, newQuantity: int): (r: seq<Product>)
    ensures |r| == |products|
    ensures forall k :: 0 <= k < |products| ==> r[k].id == products[k].id
  {
    DeductNew(RestoreOld(products, oldSale), newProductId, newQuantity)
  }

  /** With distinct ids each `map` above rewrites exactly one element. */
  lemma {:induction false} UpdateProductsAt(ps: seq<Product>, k: int, patch: ProductPatch)
    requires UniqueKeys(ps, ProductKey) && 0 <= k < |ps|
    ensures UpdateProducts(ps, ps[k].id, patch) == ps[k := Patched(ps[k], patch)]
  {
    var r := UpdateProducts(ps, ps[k].id, patch);
    forall i | 0 <= i < |ps| ensures r[i] == ps[k := Patched(ps[k], patch)][i] {
      assert i != k ==> ps[i].id != ps[k].id;
    }
  }

  lemma {:induction false} AdjustStockAt(ps: seq<Product>, k: int, delta: int)
    requires UniqueKeys(ps, ProductKey) && 0 <= k < |ps|
    ensures AdjustStock(ps, ps[k].id, delta) == ps[k := ps[k].(stock := ps[k].stock + delta)]
  {
    var r := AdjustStock(ps, ps[k].id, delta);
    forall i | 0 <= i < |ps| ensures r[i] == ps[k := ps[k].(stock := ps[k].stock + delta)][i] {
      assert i != k ==> ps[i].id != ps[k].id;
    }
  }

  lemma {:induction false} MarkRefundedAt(ss: seq<Sale>, j: int, now: int, paid: bool)
    requires UniqueKeys(ss, SaleKey) && 0 <= j < |ss|
    ensures MarkRefunded(ss, ss[j].id, now, paid) == ss[j := RefundedCopy(ss[j], now, paid)]
  {
    var r := MarkRefunded(ss, ss[j].id, now, paid);
    forall i | 0 <= i < |ss| ensures r[i] == ss[j := RefundedCopy(ss[j], now, paid)][i] {
      assert i != j ==> ss[i].id != ss[j].id;
    }
  }

  lemma {:induction false} ReviseSalesAt(ss: seq<Sale>, j: int, product: Product, upd: SaleUpdate, platforms: seq<Platform>)
    requires UniqueKeys(ss, SaleKey) && 0 <= j < |ss|
    ensures ReviseSales(ss, ss[j].id, product, upd, platforms) == ss[j := Revised(ss[j], product, upd, platforms)]
  {
    var r := ReviseSales(ss, ss[j].id, product, upd, platforms);
    forall i | 0 <= i < |ss| ensures r[i] == ss[j := Revised(ss[j], product, upd, platforms)][i] {
      assert i != j ==> ss[i].id != ss[j].id;
    }
  }

  /** An expense before `addExpense` gives it an id (`Omit<Expense, 'id'>`). */
  datatype ExpenseDraft = ExpenseDraft(category: ExpenseCategory, description: string, amount: real, date: int)

  function WithId(id: string, d: ExpenseDraft): Expense {
    Expense(id, d.category, d.description, d.amount, d.date)
  }

  /** The Refund Loss expense a refund books when the business paid the delivery. */
  function RefundLossDraft(s: Sale, now: int): ExpenseDraft {
    ExpenseDraft(RefundLoss, "Unpaid Delivery for Refund: " + s.productName + " (" + s.location + ")", s.deliveryCharge, now)
  }

  function RefundLossExpense(id: string, s: Sale, now: int): (e: Expense)
    ensures e.category == RefundLoss && e.amount == s.deliveryCharge && e.date == now && e.id == id
  {
    WithId(id, RefundLossDraft(s, now))
  }

  /** A refund loses the delivery charge when it was not recovered and was not zero. */
  predicate LosesDelivery(s: Sale, deliveryPaid: bool) {
    !deliveryPaid && s.deliveryCharge > 0.0
  }

  /** The expenses after refunding s: a refund-loss expense in front when
      the refund loses the delivery charge. */
  function RefundExpenses(expenses: seq<Expense>, s: Sale, deliveryPaid: bool, now: int, id: string): seq<Expense> {
    if LosesDelivery(s, deliveryPaid) then [RefundLossExpense(id, s, now)] + expenses else expenses
  }

  // ------------------------------------------------------------------
  // Stock reservation

  /** The quantity a sale holds back from a product: its quantity while Completed. */
  function ReservedTerm(productId: string): Sale -> int {
    (s: Sale) => if s.status == Completed && s.productId == productId then s.quantity else 0
  }

  /** Units of a product held by Completed sales. */
  function Reserved(sales: seq<Sale>, productId: string): int {
    SumI(sales, ReservedTerm(productId))
  }

  /** Stock conservation between two states: the same products in the same
      places, each with stock plus reserved units unchanged. */
  ghost predicate StockConserved(ps: seq<Product>, ss: seq<Sale>, ps': seq<Product>, ss': seq<Sale>) {
    && |ps'| == |ps|
    && forall k :: 0 <= k < |ps| ==>
         ps'[k].id == ps[k].id && ps'[k].stock + Reserved(ss', ps[k].id) == ps[k].stock + Reserved(ss, ps[k].id)
  }

  /** Recording a Completed sale of product k and lowering that product's stock
      by the sale's quantity conserves stock. */
  lemma {:induction false} AddSaleConservesStock(ps: seq<Product>, ss: seq<Sale>, k: int, sale: Sale)
    requires UniqueKeys(ps, ProductKey)
    requires 0 <= k < |ps| && sale.productId == ps[k].id && sale.status == Completed
    ensures StockConserved(ps, ss, UpdateProducts(ps, ps[k].id, StockPatch(ps[k].stock - sale.quantity)), [sale] + ss)
  {
    var ps' := UpdateProducts(ps, ps[k].id, StockPatch(ps[k].stock - sale.quantity));
    forall j | 0 <= j < |ps|
      ensures ps'[j].stock + Reserved([sale] + ss, ps[j].id) == ps[j].stock + Reserved(ss, ps[j].id)
    {
      assert ([sale] + ss)[1..] == ss;
      assert j != k ==> ps[j].id != ps[k].id;
    }
  }

  /** Refunding a Completed sale and returning its quantity to its product conserves stock. */
  lemma {:induction false} RefundConservesStock(ps: seq<Product>, ss: seq<Sale>, j: int, now: int, paid: bool)
    requires UniqueKeys(ss, SaleKey)
    requires 0 <= j < |ss| && ss[j].status == Completed
    ensures StockConserved(ps, ss, AdjustStock(ps, ss[j].productId, ss[j].quantity), MarkRefunded(ss, ss[j].id, now, paid))
  {
    var s := ss[j];
    MarkRefundedAt(ss, j, now, paid);
    forall q | q in ps
      ensures Reserved(MarkRefunded(ss, s.id, now, paid), q.id)
           == Reserved(ss, q.id) - (if s.productId == q.id then s.quantity else 0)
    {
      SumIUpdate(ss, j, RefundedCopy(s, now, paid), ReservedTerm(q.id));
    }
  }

  /** Deleting a sale releases what it reserved. */
  lemma {:induction false} ReservedAfterDelete(ss: seq<Sale>, j: int, productId: string)
    requires UniqueKeys(ss, SaleKey)
    requires 0 <= j < |ss|
    ensures Reserved(Without(ss, SaleKey, ss[j].id), productId)
      == Reserved(ss, productId) - (if ss[j].status == Completed && ss[j].productId == productId then ss[j].quantity else 0)
  {
    WithoutUnique(ss, SaleKey, j);
    SumIRemove(ss, j, ReservedTerm(productId));
  }

  /** Deleting a sale, and returning its quantity only if it was Completed, conserves stock. */
  lemma {:induction false} DeleteConservesStock(ps: seq<Product>, ss: seq<Sale>, j: int)
    requires UniqueKeys(ss, SaleKey)
    requires 0 <= j < |ss|
    ensures StockConserved(ps, ss,
      if ss[j].status == Completed then AdjustStock(ps, ss[j].productId, ss[j].quantity) else ps,
      Without(ss, SaleKey, ss[j].id))
  {
    var s := ss[j];
    var ss' := Without(ss, SaleKey, s.id);
    if s.status == Completed {
      var ps' := AdjustStock(ps, s.productId, s.quantity);
      forall k | 0 <= k < |ps|
        ensures ps'[k].id == ps[k].id && ps'[k].stock + Reserved(ss', ps[k].id) == ps[k].stock + Reserved(ss, ps[k].id)
      {
        ReservedAfterDelete(ss, j, ps[k].id);
      }
      assert StockConserved(ps, ss, ps', ss');
    } else {
      forall k | 0 <= k < |ps|
        ensures Reserved(ss', ps[k].id) == Reserved(ss, ps[k].id)
      {
        ReservedAfterDelete(ss, j, ps[k].id);
      }
      assert StockConserved(ps, ss, ps, ss');
    }
  }

  /** With distinct ids, each half of the reconciliation moves only the product holding its id. */
  lemma {:induction false} RestoreOldAt(ps: seq<Product>, o: Sale, k: int)
    requires UniqueKeys(ps, ProductKey)
    requires 0 <= k < |ps|
    ensures RestoreOld(ps, o)[k]
      == ps[k].(stock := ps[k].stock + if o.status == Completed && ps[k].id == o.productId then o.quantity else 0)
  {
    if ps[k].id == o.productId {
      FindUnique(ps, ProductKey, k);
    }
  }

  lemma {:induction false} DeductNewAt(ps: seq<Product>, np: string, nq: int, k: int)
    requires UniqueKeys(ps, ProductKey)
    requires 0 <= k < |ps|
    ensures DeductNew(ps, np, nq)[k] == ps[k].(stock := ps[k].stock - if ps[k].id == np then nq else 0)
  {
    if ps[k].id == np {
      FindUnique(ps, ProductKey, k);
    }
  }

  /** With distinct ids, the reconciliation is: the old product (if it still
      exists and the sale is Completed) gains the old quantity, the new
      product loses the new quantity, nothing else changes. */
  lemma {:induction false} ReconciledAt(ps: seq<Product>, o: Sale, np: string, nq: int, k: int)
    requires UniqueKeys(ps, ProductKey)
    requires 0 <= k < |ps|
    ensures Reconciled(ps, o, np, nq)[k].stock ==
      ps[k].stock
        + (if o.status == Completed && ps[k].id == o.productId then o.quantity else 0)
        - (if ps[k].id == np then nq else 0)
    ensures Reconciled(ps, o, np, nq)[k] == ps[k].(stock := Reconciled(ps, o, np, nq)[k].stock)
  {
    var restored := RestoreOld(ps, o);
    RestoreOldAt(ps, o, k);
    SameKeysUnique(ps, restored, ProductKey);
    DeductNewAt(restored, np, nq, k);
  }

  /** Editing a Completed sale conserves stock, on the same product or another. */
  lemma {:induction false} UpdateConservesStock(ps: seq<Product>, ss: seq<Sale>, j: int, product: Product, upd: SaleUpdate, platforms: seq<Platform>)
    requires UniqueKeys(ps, ProductKey) && UniqueKeys(ss, SaleKey)
    requires 0 <= j < |ss| && ss[j].status == Completed
    ensures StockConserved(ps, ss,
      Reconciled(ps, ss[j], upd.productId, upd.quantity),
      ReviseSales(ss, ss[j].id, product, upd, platforms))
  {
    var s := ss[j];
    var r := Revised(s, product, upd, platforms);
    ReviseSalesAt(ss, j, product, upd, platforms);
    forall k | 0 <= k < |ps|
      ensures Reconciled(ps, s, upd.productId, upd.quantity)[k].stock
        + Reserved(ReviseSales(ss, s.id, product, upd, platforms), ps[k].id)
        == ps[k].stock + Reserved(ss, ps[k].id)
    {
      ReconciledAt(ps, s, upd.productId, upd.quantity, k);
      SumIUpdate(ss, j, r, ReservedTerm(ps[k].id));
    }
  }

  /** The recorded quirk: editing a Refunded sale leaves its reservation at
      zero but still takes the new quantity from the new product, so stock
      plus reserved units drops by that quantity. */
  lemma {:induction false} UpdateRefundedSaleDeductsStock(ps: seq<Product>, ss: seq<Sale>, j: int, product: Product, upd: SaleUpdate, platforms: seq<Platform>, k: int)
    requires UniqueKeys(ps, ProductKey) && UniqueKeys(ss, SaleKey)
    requires 0 <= j < |ss| && ss[j].status == Refunded
    requires 0 <= k < |ps| && ps[k].id == upd.productId
    ensures Reconciled(ps, ss[j], upd.productId, upd.quantity)[k].stock
        + Reserved(ReviseSales(ss, ss[j].id, product, upd, platforms), ps[k].id)
        == ps[k].stock + Reserved(ss, ps[k].id) - upd.quantity
  {
    var s := ss[j];
    var r := Revised(s, product, upd, platforms);
    ReviseSalesAt(ss, j, product, upd, platforms);
    ReconciledAt(ps, s, upd.productId, upd.quantity, k);
    SumIUpdate(ss, j, r, ReservedTerm(ps[k].id));
  }

  // ------------------------------------------------------------------
  // Metrics

  function CompletedRevenue(s: Sale): real { if s.status == Completed then s.revenue else 0.0 }
  function CompletedProfit(s: Sale): real { if s.status == Completed then s.profit else 0.0 }
  function CompletedFee(s: Sale): real { if s.status == Completed then s.platformFee else 0.0 }
  function RefundedRevenue(s: Sale): real { if s.status == Refunded then s.revenue else 0.0 }
  function ExpenseAmount(e: Expense): real { e.amount }
  function HeldValue(p: Product): real { p.buyingPrice * p.stock as real }

  predicate IsCompleted(s: Sale) { s.status == Completed }
  predicate IsRefunded(s: Sale) { s.status == Refunded }
  function SaleRevenue(s: Sale): real { s.revenue }
  function SaleProfit(s: Sale): real { s.profit }

  /** `sales.filter(s => s.status === COMPLETED)`. */
  function CompletedSales(sales: seq<Sale>): (r: seq<Sale>)
    ensures forall s :: s in r <==> s in sales && s.status == Completed
  {
    Filter(sales, IsCompleted)
  }

  /** Reducing the Completed sales is summing the Completed terms of all sales. */
  lemma {:induction false} CompletedSalesSums(sales: seq<Sale>)
    ensures SumR(CompletedSales(sales), SaleRevenue) == SumR(sales, CompletedRevenue)
    ensures SumR(CompletedSales(sales), SaleProfit) == SumR(sales, CompletedProfit)
  {
    FilterSumR(sales, IsCompleted, SaleRevenue, CompletedRevenue);
    FilterSumR(sales, IsCompleted, SaleProfit, CompletedProfit);
  }

  /** The store-wide projection: Completed sales give sales, profit and fees,
      Refunded sales give refunds, every expense counts, and stock is valued
      at buying price. */
  function Metrics(products: seq<Product>, sales: seq<Sale>, expenses: seq<Expense>): (m: DashboardMetrics)
    ensures m.netProfit == m.totalProfit - m.totalExpenses
    ensures m.totalSales == SumR(sales, CompletedRevenue) && m.totalRefunds == SumR(sales, RefundedRevenue)
    ensures m.totalProfit == SumR(sales, CompletedProfit) && m.totalPlatformFees == SumR(sales, CompletedFee)
    ensures m.totalExpenses == SumR(expenses, ExpenseAmount) && m.stockValue == SumR(products, HeldValue)
  {
    var totalSales := SumR(sales, CompletedRevenue);
    var totalProfit := SumR(sales, CompletedProfit);
    var totalPlatformFees := SumR(sales, CompletedFee);
    var totalRefunds := SumR(sales, RefundedRevenue);
    var totalExpenses := SumR(expenses, ExpenseAmount);
    DashboardMetrics(
      totalSales := totalSales,
      totalProfit := totalProfit,
      totalExpenses := totalExpenses,
      totalPlatformFees := totalPlatformFees,
      netProfit := totalProfit - totalExpenses,
      stockValue := SumR(products, HeldValue),
      totalRefunds := totalRefunds)
  }

  /** Over consistent sales, total profit is total sales less their cost and fees. */
  lemma {:induction false} ProfitIdentity(sales: seq<Sale>)
    requires forall i :: 0 <= i < |sales| ==> Consistent(sales[i])
    ensures SumR(sales, CompletedProfit)
      == SumR(sales, CompletedRevenue) - SumR(sales, CompletedCost) - SumR(sales, CompletedFee)
  {
    if |sales| > 0 {
      ProfitIdentity(sales[1..]);
    }
  }

  function CompletedCost(s: Sale): real { if s.status == Completed then s.totalCost else 0.0 }

  /** How recording a sale moves the metrics: sales, profit and fees grow by
      the sale's figures and stock value falls by the cost of the units sold. */
  lemma {:induction false} AddSaleMetrics(ps: seq<Product>, ss: seq<Sale>, es: seq<Expense>, k: int, sale: Sale)
    requires UniqueKeys(ps, ProductKey)
    requires 0 <= k < |ps| && sale.status == Completed
    ensures var before := Metrics(ps, ss, es);
      var after := Metrics(UpdateProducts(ps, ps[k].id, StockPatch(ps[k].stock - sale.quantity)), [sale] + ss, es);
      && after.totalSales == before.totalSales + sale.revenue
      && after.totalProfit == before.totalProfit + sale.profit
      && after.totalPlatformFees == before.totalPlatformFees + sale.platformFee
      && after.totalRefunds == before.totalRefunds
      && after.totalExpenses == before.totalExpenses
      && after.stockValue == before.stockValue - ps[k].buyingPrice * sale.quantity as real
  {
    UpdateProductsAt(ps, k, StockPatch(ps[k].stock - sale.quantity));
    AddSalePointMetrics(ps, ss, es, k, sale);
  }

  /** The same movement, with the product sold given by position. */
  lemma {:induction false} AddSalePointMetrics(ps: seq<Product>, ss: seq<Sale>, es: seq<Expense>, k: int, sale: Sale)
    requires 0 <= k < |ps| && sale.status == Completed
    ensures var before := Metrics(ps, ss, es);
      var after := Metrics(ps[k := Patched(ps[k], StockPatch(ps[k].stock - sale.quantity))], [sale] + ss, es);
      && after.totalSales == before.totalSales + sale.revenue
      && after.totalProfit == before.totalProfit + sale.profit
      && after.totalPlatformFees == before.totalPlatformFees + sale.platformFee
      && after.totalRefunds == before.totalRefunds
      && after.totalExpenses == before.totalExpenses
      && after.stockValue == before.stockValue - ps[k].buyingPrice * sale.quantity as real
  {
    var p := ps[k];
    var p' := Patched(p, StockPatch(p.stock - sale.quantity));
    assert p' == p.(stock := p.stock + -sale.quantity);
    SumRUpdate(ps, k, p', HeldValue);
    HeldValueMore(p, -sale.quantity);
    assert ([sale] + ss)[1..] == ss;
  }

  /** How refunding a Completed sale moves the metrics: its revenue leaves
      sales and joins refunds, its profit and fee leave the totals, stock
      value regains the returned units, and expenses grow by the delivery
      charge exactly when the refund loses it. */
  lemma {:induction false} RefundMetrics(ps: seq<Product>, ss: seq<Sale>, es: seq<Expense>, j: int, k: int, now: int, paid: bool, expenseId: string)
    requires UniqueKeys(ps, ProductKey) && UniqueKeys(ss, SaleKey)
    requires 0 <= j < |ss| && ss[j].status == Completed
    requires 0 <= k < |ps| && ps[k].id == ss[j].productId
    ensures var s := ss[j];
      var before := Metrics(ps, ss, es);
      var es' := RefundExpenses(es, s, paid, now, expenseId);
      var after := Metrics(AdjustStock(ps, s.productId, s.quantity), MarkRefunded(ss, s.id, now, paid), es');
      && after.totalSales == before.totalSales - s.revenue
      && after.totalRefunds == before.totalRefunds + s.revenue
      && after.totalProfit == before.totalProfit - s.profit
      && after.totalPlatformFees == before.totalPlatformFees - s.platformFee
      && after.totalExpenses == before.totalExpenses + (if LosesDelivery(s, paid) then s.deliveryCharge else 0.0)
      && after.stockValue == before.stockValue + ps[k].buyingPrice * s.quantity as real
  {
    var s := ss[j];
    MarkRefundedAt(ss, j, now, paid);
    AdjustStockAt(ps, k, s.quantity);
    RefundPointMetrics(ps, ss, es, j, k, now, paid, expenseId);
  }

  /** The same movement, with the refunded sale and the restocked product
      given by position. */
  lemma {:induction false} RefundPointMetrics(ps: seq<Product>, ss: seq<Sale>, es: seq<Expense>, j: int, k: int, now: int, paid: bool, expenseId: string)
    requires 0 <= j < |ss| && ss[j].status == Completed
    requires 0 <= k < |ps|
    ensures var s := ss[j];
      var before := Metrics(ps, ss, es);
      var es' := RefundExpenses(es, s, paid, now, expenseId);
      var after := Metrics(ps[k := ps[k].(stock := ps[k].stock + s.quantity)], ss[j := RefundedCopy(s, now, paid)], es');
      && after.totalSales == before.totalSales - s.revenue
      && after.totalRefunds == before.totalRefunds + s.revenue
      && after.totalProfit == before.totalProfit - s.profit
      && after.totalPlatformFees == before.totalPlatformFees - s.platformFee
      && after.totalExpenses == before.totalExpenses + (if LosesDelivery(s, paid) then s.deliveryCharge else 0.0)
      && after.stockValue == before.stockValue + ps[k].buyingPrice * s.quantity as real
  {
    var s := ss[j];
    var r := RefundedCopy(s, now, paid);
    SumRUpdate(ss, j, r, CompletedRevenue);
    SumRUpdate(ss, j, r, RefundedRevenue);
    SumRUpdate(ss, j, r, CompletedProfit);
    SumRUpdate(ss, j, r, CompletedFee);
    SumRUpdate(ps, k, ps[k].(stock := ps[k].stock + s.quantity), HeldValue);
    HeldValueMore(ps[k], s.quantity);
    RefundLossMetrics(es, s, paid, now, expenseId);
  }

  /** q more units on hand are worth q times the buying price more. */
  lemma {:induction false} HeldValueMore(p: Product, q: int)
    ensures HeldValue(p.(stock := p.stock + q)) == HeldValue(p) + p.buyingPrice * q as real
  {
    assert p.buyingPrice * (p.stock + q) as real == p.buyingPrice * p.stock as real + p.buyingPrice * q as real;
  }

  /** The expense half of a refund: the expense total grows by the delivery
      charge exactly when the refund loses it. */
  lemma {:induction false} RefundLossMetrics(es: seq<Expense>, s: Sale, paid: bool, now: int, expenseId: string)
    ensures SumR(RefundExpenses(es, s, paid, now, expenseId), ExpenseAmount)
      == SumR(es, ExpenseAmount) + (if LosesDelivery(s, paid) then s.deliveryCharge else 0.0)
  {
    if LosesDelivery(s, paid) {
      var e := RefundLossExpense(expenseId, s, now);
      assert ([e] + es)[1..] == es;
    }
  }

  /** How deleting a sale moves the metrics: a Completed sale's figures leave
      the totals, a Refunded sale's revenue leaves the refunds. */
  lemma {:induction false} DeleteMetrics(ps: seq<Product>, ss: seq<Sale>, es: seq<Expense>, j: int)
    requires UniqueKeys(ss, SaleKey)
    requires 0 <= j < |ss|
    ensures var s := ss[j];
      var before := Metrics(ps, ss, es);
      var after := Metrics(ps, Without(ss, SaleKey, s.id), es);
      && after.totalSales == before.totalSales - CompletedRevenue(s)
      && after.totalProfit == before.totalProfit - CompletedProfit(s)
      && after.totalPlatformFees == before.totalPlatformFees - CompletedFee(s)
      && after.totalRefunds == before.totalRefunds - RefundedRevenue(s)
  {
    WithoutUnique(ss, SaleKey, j);
    SumRRemove(ss, j, CompletedRevenue);
    SumRRemove(ss, j, CompletedProfit);
    SumRRemove(ss, j, CompletedFee);
    SumRRemove(ss, j, RefundedRevenue);
  }

  /** The worked example: a 10% platform, 2 units at 50 costing 30 each,
      gives a fee of 10 and a profit of 30. */
  lemma {:induction false} PercentageFeeExample(product: Product, input: SaleInput)
    requires product.buyingPrice == 30.0 && product.sellingPrice == 50.0
    requires input.quantity == 2 && input.unitPrice == None && input.platform == "Store"
    ensures var s := NewSale("s1", product, input, [Platform("p1", "Store", 10.0, Percentage)]);
      s.revenue == 100.0 && s.platformFee == 10.0 && s.totalCost == 60.0 && s.profit == 30.0
  {
    var ps := [Platform("p1", "Store", 10.0, Percentage)];
    assert HasKey(ps, PlatformName, "Store") by { assert PlatformName(ps[0]) == "Store"; }
  }
}
