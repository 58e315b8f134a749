# BrandHatch bookkeeping core, modelled in Dafny

BrandHatch is a single-user bookkeeping application for a small online shop.
It keeps products with buying and selling prices and stock, sales taken on
several selling platforms (each with a fixed or percentage fee), expenses,
suppliers and customers, plus a few settings: the currency, the low-stock
threshold, whether stock may go negative, the platform list, SKU prefixes
and delivery charges by location. One data store owns all of it. Each
command of the store (add, update, delete, refund a sale, ...) rewrites
those collections, and the screens derive figures from them: the
dashboard's metrics, stock alerts, platform split and product ranking; the
report's figures for a date range; the customer's order statistics; and
the contact and inventory search and forms.

The model has these modules:

- `Types`: the records and enumerations of the application, with their
  identifying keys.
- `Settings`: the default settings and their merge, and the loading of
  stored settings. Loading migrates an old platform list that held only
  names.
- `Ledger`: the pure rules the store's commands apply, as functions on
  sequences.
  - It computes the platform fee.
  - It builds a new, revised or refunded sale record.
  - It auto-creates a customer from a sale's phone number.
  - It rewrites products and sales by id.
  - It records the delivery-loss expense of a refund.
  - It computes the dashboard metrics.
  - Its lemmas state stock conservation and how each command moves the
    metrics.
- `DataStore`: the store as a `class` whose fields are the collections.
  - It has one method per command, each with a `modifies this`.
  - Each method's contract states the whole new state through the `Ledger`
    and `Settings` functions.
  - The store invariant is distinct ids in every collection, plus every
    sale consistent with its own figures.
  - For the sale commands, the contract also states stock conservation:
    a product's stock plus the units its Completed sales hold never
    changes.
- `Tallies`, `Dashboard`, `Reports`, `Contacts`, `Inventory`: the figures
  and forms of the screens.
  - Where the screens build their result in a loop, Dafny does the same in
    a `method` with loop invariants. Examples are the per-platform tally,
    the per-product performance table and the per-name product tally.
  - Each loop's method is proved equal to a specification function. The
    properties are proved about that function.
- `Seqs`, `Sorting`, `Text`: generic sums, filters and keyed lookups over
  sequences, a descending insertion sort, and the string operations used
  (trim, case mapping, substring search, split on a character).

Amounts are `real`. Identifiers and the current time (milliseconds since
the epoch) are parameters of the commands. Each command assumes a fresh
identifier, which is what the application's random id generator is meant
to provide.

## Model

| member | source | states |
|---|---|---|
| Types.CategoryFromLabel | types.ts:2-10 | a stored label read back as a category is exactly that category's label |
| Types.CategoryLabelRoundTrip | types.ts:2-10 | every category's label is read back as that category, so no two categories have the same label |
| Types.FeeTypeFromLabel | types.ts:18 | a stored fee type is Percentage exactly when it reads "PERCENTAGE"; anything else is Fixed |
| Settings.MergeSettings | context/DataContext.tsx:155-162 | each field given in the patch replaces the old one, and the rest are kept; a currency change also sets the symbol to that currency's sign |
| Settings.MergeKeepsSymbol | context/DataContext.tsx:155-162 | the defaults have a symbol matching the currency, any merge keeps the symbol matching, and applying the same patch twice equals applying it once |
| Settings.MigratePlatforms | context/DataContext.tsx:76-84 | stored platform records are kept as they are; a legacy list of names becomes one platform per name, in order, with Fixed fee 0 and the given ids |
| Settings.MigratedPlatformsChargeNothing | context/DataContext.tsx:78-83 | no sale on a platform migrated from a legacy name is charged a fee |
| Settings.LoadSettings | context/DataContext.tsx:72-87 | without saved settings the defaults (BDT, threshold 5, no negative stock, three platforms) are used; saved settings are loaded field by field (currency, symbol, threshold, negative-stock flag), with their platforms migrated |
| DataStore.InitialStateValid | context/DataContext.tsx:52-69 | the store a first start opens with satisfies the store invariant, its symbol matches its currency, and all seven metrics are 0 |
| Ledger.CalculatePlatformFee | context/DataContext.tsx:208-217 | no fee on a platform not configured; for the first platform with that name, the fee is revenue times the percentage over 100 for Percentage, and the flat fee otherwise |
| Ledger.FeeShape | context/DataContext.tsx:212-216 | a fixed fee is the same whatever the revenue; a percentage fee on the sum of two revenues is the sum of their fees |
| Ledger.NewSale | context/DataContext.tsx:245-270 | the new sale snapshots the product's name and prices and uses the typed unit price when given; revenue, cost, fee and profit follow the snapshot (profit = revenue - cost - fee); it is Completed; the product id, quantity, platform, date, delivery charge, location, paid-by-customer flag and phone are the input's |
| Ledger.PercentageFeeExample | context/DataContext.tsx:245-250 | 2 units at 50, costing 30 each, on a platform charging 10% give revenue 100, cost 60, fee 10 and profit 30 |
| Ledger.Revised | context/DataContext.tsx:323-345 | an edited sale keeps its id, status and refund fields; it takes the new product, quantity, unit price, platform, date, location, delivery charge, paid flag and phone, with its figures recomputed consistently |
| Ledger.RefundedCopy | context/DataContext.tsx:367-374 | a refunded sale is the same record with status Refunded, the refund time, and the delivery-paid flag |
| Ledger.AutoCustomers | context/DataContext.tsx:228-243 | a phone non-empty after trimming, with no customer holding it, adds one customer in front, named "Customer" plus the trimmed phone, holding the trimmed phone and the note; otherwise the customers are unchanged; afterwards some customer holds the trimmed phone |
| Ledger.AutoCustomersNoDuplicate | context/DataContext.tsx:229-241 | a second sale with the same phone creates no second customer, and customers with distinct phones keep distinct phones |
| Ledger.Patched | context/DataContext.tsx:200-202 | a product patch overwrites the fields it gives and keeps the others and the id and creation time |
| Ledger.UpdateProducts | context/DataContext.tsx:200-202 | the product with the id is patched and every other product is unchanged, positions kept |
| Ledger.UpdateProductsAt | context/DataContext.tsx:200-202 | patching by the id at a position changes exactly that position |
| Ledger.AdjustStock | context/DataContext.tsx:376-378 | the stock of the products with the id moves by the delta, and everything else is kept |
| Ledger.AdjustStockAt | context/DataContext.tsx:376-378 | adjusting by the id at a position changes exactly that position's stock |
| Ledger.MarkRefunded | context/DataContext.tsx:367-374 | the sale with the id becomes its refunded copy, and every other sale is unchanged |
| Ledger.MarkRefundedAt | context/DataContext.tsx:367-374 | refunding by the id at a position changes exactly that position |
| Ledger.ReviseSales | context/DataContext.tsx:328-345 | the sale with the id becomes its revised copy, and every other sale is unchanged |
| Ledger.ReviseSalesAt | context/DataContext.tsx:328-345 | revising by the id at a position changes exactly that position |
| Ledger.RestoreOld | context/DataContext.tsx:305-312 | restoring the old quantity keeps every product's id and position |
| Ledger.RestoreOldAt | context/DataContext.tsx:305-312 | with distinct product ids, a product's stock rises by the old quantity exactly when it is the old sale's product and that sale was Completed; nothing else about it changes |
| Ledger.DeductNew | context/DataContext.tsx:313-319 | deducting the new quantity keeps every product's id and position |
| Ledger.DeductNewAt | context/DataContext.tsx:313-319 | with distinct product ids, a product's stock drops by the new quantity exactly when it is the new product, whatever the sale's status; nothing else about it changes |
| Ledger.Reconciled | context/DataContext.tsx:304-321 | the update's stock reconciliation keeps ids and positions |
| Ledger.ReconciledAt | context/DataContext.tsx:304-321 | with distinct product ids, each product's reconciled stock is its old stock, plus the old quantity when it is the old product of a Completed sale, minus the new quantity when it is the new product; its other fields are kept |
| Ledger.RefundLossExpense | context/DataContext.tsx:380-387 | the loss expense of a refund is in the Refund Loss category, for the sale's delivery charge, dated at the refund |
| Ledger.AddSaleConservesStock | context/DataContext.tsx:272-273 | recording a Completed sale and deducting its quantity conserves each product's stock plus its reserved units |
| Ledger.RefundConservesStock | context/DataContext.tsx:367-378 | refunding a Completed sale and returning its quantity conserves stock plus reserved units |
| Ledger.ReservedAfterDelete | context/DataContext.tsx:352-360 | removing a sale reduces a product's reserved units by that sale's quantity only when it held them |
| Ledger.DeleteConservesStock | context/DataContext.tsx:352-360 | deleting a Completed sale and returning its quantity conserves stock plus reserved units; deleting a Refunded sale changes no stock |
| Ledger.UpdateConservesStock | context/DataContext.tsx:304-345 | editing a Completed sale (restore the old quantity, deduct the new one, revise the record) conserves stock plus reserved units for every product |
| Ledger.UpdateRefundedSaleDeductsStock | context/DataContext.tsx:306-319 | editing a Refunded sale restores nothing but still deducts the new quantity from the new product |
| Ledger.CompletedSales | context/DataContext.tsx:134 | the active sales are exactly the Completed ones |
| Ledger.CompletedSalesSums | context/DataContext.tsx:134-139 | the totals over the active sales equal the sums of the Completed-only contributions over all sales |
| Ledger.Metrics | context/DataContext.tsx:133-153 | the seven figures: sales, profit and fees over Completed sales, refunds over Refunded sales, expenses over all expenses, net profit as profit minus expenses, and stock value as buying price times stock |
| Ledger.ProfitIdentity | context/DataContext.tsx:137-148 | over consistent sales, total profit equals total sales minus Completed cost minus platform fees |
| Ledger.AddSaleMetrics | context/DataContext.tsx:245-273 | adding a Completed sale adds its revenue, profit and fee to the totals, lowers stock value by the units' cost, and keeps refunds and expenses |
| Ledger.AddSalePointMetrics | context/DataContext.tsx:245-273 | the same change of the metrics, stated at the product's position |
| Ledger.RefundMetrics | context/DataContext.tsx:363-388 | refunding a Completed sale moves its revenue from sales to refunds; it removes its profit and fee, restores its units' value to stock value, and adds the delivery charge to expenses when a loss is recorded |
| Ledger.RefundPointMetrics | context/DataContext.tsx:363-388 | the same change of the metrics, stated at the sale's and product's positions |
| Ledger.HeldValueMore | context/DataContext.tsx:150 | raising a product's stock by q raises its held value by buying price times q |
| Ledger.RefundLossMetrics | context/DataContext.tsx:380-387 | the expense total grows by the delivery charge exactly when the customer did not pay delivery and the charge is positive |
| Ledger.DeleteMetrics | context/DataContext.tsx:348-361 | deleting a sale removes its contribution: revenue, profit and fee if it was Completed, revenue from the refunds if it was Refunded |
| DataStore.ReplaceExpense | context/DataContext.tsx:395-397 | the expense with the id gets the new fields and keeps its id; the others are unchanged |
| DataStore.ReplaceSupplier | context/DataContext.tsx:407-409 | the supplier with the id gets the new fields and keeps its id; the others are unchanged |
| DataStore.ReplaceCustomer | context/DataContext.tsx:419-421 | the customer with the id gets the new fields and keeps its id; the others are unchanged |
| DataStore.FindProductIndex | context/DataContext.tsx:220 | returns the position of the first product with the id, or -1 when there is none |
| DataStore.ReconcileStock | context/DataContext.tsx:304-321 | the reconciliation of an update on a copy of the products, restore then deduct, equals Reconciled |
| DataStore.RestoreOldStock | context/DataContext.tsx:305-312 | the restoring half of the reconciliation equals RestoreOld |
| DataStore.DeductNewStock | context/DataContext.tsx:313-319 | the deducting half of the reconciliation equals DeductNew |
| DataStore.PrependSale | context/DataContext.tsx:270 | a new well-formed sale with a fresh id keeps the sales' invariant |
| DataStore.WithoutSale | context/DataContext.tsx:352 | removing a sale keeps the sales' invariant |
| DataStore.AutoCustomersKeepIds | context/DataContext.tsx:234-241 | auto-creating a customer with a fresh id keeps customer ids distinct |
| DataStore.ReviseKeepsValid | context/DataContext.tsx:328-345 | revising a sale keeps sale ids distinct and every sale well formed |
| DataStore.RefundKeepsValid | context/DataContext.tsx:367-374 | refunding a Completed sale keeps sale ids distinct and every sale well formed |
| DataStore.RecordKeepsInvariant | context/DataContext.tsx:228-273 | the state after an accepted sale satisfies the store invariant |
| DataStore.Store.constructor | context/DataContext.tsx:70-131 | the store opens on a state that satisfies the invariant |
| DataStore.Store.CurrentMetrics | context/DataContext.tsx:133-153 | the metrics of the store's current collections |
| DataStore.Store.UpdateSettings | context/DataContext.tsx:155-162 | the settings become their merge with the patch, and nothing else changes |
| DataStore.Store.AddSkuPrefix | context/DataContext.tsx:164-166 | appends the prefix, upper-cased, with its title |
| DataStore.Store.RemoveSkuPrefix | context/DataContext.tsx:168-170 | removes the prefixes with the id |
| DataStore.Store.AddPlatform | context/DataContext.tsx:172-177 | appends the platform to the settings' list; the fee defaults to a fixed 0 |
| DataStore.Store.RemovePlatform | context/DataContext.tsx:179-181 | removes the platforms with the id |
| DataStore.Store.AddLocationCharge | context/DataContext.tsx:183-185 | appends the delivery charge |
| DataStore.Store.RemoveLocationCharge | context/DataContext.tsx:187-189 | removes the delivery charges with the id |
| DataStore.Store.AddProduct | context/DataContext.tsx:191-198 | puts the product with its id and creation time in front |
| DataStore.Store.UpdateProduct | context/DataContext.tsx:200-202 | patches the product with the id |
| DataStore.Store.DeleteProduct | context/DataContext.tsx:204-206 | removes the product with the id and keeps its sales |
| DataStore.Store.AddSale | context/DataContext.tsx:219-274 | an unknown product is rejected with nothing changed; short stock (unless negative stock is allowed) is rejected with nothing changed and no customer created; otherwise the customer is auto-created, the new sale goes in front and the product's stock drops by the quantity; stock is conserved, and total sales and profit grow by the sale's |
| DataStore.Store.RecordSale | context/DataContext.tsx:228-273 | the accepted half of addSale: the recorded state, stock conservation and the growth of the totals |
| DataStore.Store.UpdateSale | context/DataContext.tsx:276-346 | an unknown sale changes nothing; an unknown product changes only the customers (created before the check); otherwise the stock is reconciled and the sale revised; editing a Completed sale conserves stock |
| DataStore.Store.ApplySaleEdit | context/DataContext.tsx:303-345 | the accepted half of updateSale: the reconciled products and the revised sales |
| DataStore.Store.DeleteSale | context/DataContext.tsx:348-361 | an unknown sale changes nothing; otherwise the sale is removed, a Completed sale's quantity is returned to its product, and stock is conserved |
| DataStore.Store.RemoveSaleAt | context/DataContext.tsx:350-360 | removing the sale at a position states the same new state and conservation |
| DataStore.Store.RefundSale | context/DataContext.tsx:363-388 | anything but a Completed, known sale changes nothing, so a second refund is a no-op; otherwise the sale is marked refunded, its quantity returned, a loss expense recorded exactly when delivery was not paid and the charge is positive, and stock is conserved |
| DataStore.Store.AddExpense | context/DataContext.tsx:390-393 | puts the expense with its id in front |
| DataStore.Store.UpdateExpense | context/DataContext.tsx:395-397 | replaces the fields of the expense with the id |
| DataStore.Store.DeleteExpense | context/DataContext.tsx:399-401 | removes the expense with the id |
| DataStore.Store.AddSupplier | context/DataContext.tsx:403-405 | puts the supplier with its id in front |
| DataStore.Store.UpdateSupplier | context/DataContext.tsx:407-409 | replaces the fields of the supplier with the id |
| DataStore.Store.DeleteSupplier | context/DataContext.tsx:411-413 | removes the supplier with the id |
| DataStore.Store.AddCustomer | context/DataContext.tsx:415-417 | puts the customer with its id in front |
| DataStore.Store.UpdateCustomer | context/DataContext.tsx:419-421 | replaces the fields of the customer with the id |
| DataStore.Store.DeleteCustomer | context/DataContext.tsx:423-425 | removes the customer with the id |
| Text.Trim | context/DataContext.tsx:230 | the trimmed phone is the infix of the phone left once white space alone is cut from both ends; it has no white space at either end, and is empty exactly when the phone is all white space |
| Text.TrimIdempotent | context/DataContext.tsx:230 | trimming twice equals trimming once |
| Text.ToUpper | context/DataContext.tsx:165 | each letter a-z becomes A-Z and other characters are kept |
| Text.ToUpperIdempotent | context/DataContext.tsx:165 | an upper-cased prefix has no lower-case letter and upper-casing it again changes nothing |
| Text.Split | components/Inventory.tsx:26-28 | split on a character gives at least one piece, no piece holds the separator, there are several pieces exactly when the separator occurs, and joining them gives the string back |
| Text.SplitJoin | components/Inventory.tsx:26-28 | splitting the join of separator-free pieces gives those pieces back |
| Tallies.PlatformTally | components/Reports.tsx:52-56 | one entry per platform name that occurs, each holding the revenue on that platform; the entries sum to the revenue of the sales |
| Tallies.TalliedFacts | components/Reports.tsx:52-56 | the tally's facts (distinct names, every platform covered, only platforms seen, each entry its platform's revenue) hold of the specification function |
| Tallies.StepTotal | components/Reports.tsx:54-55 | one more sale adds its revenue to the tally's total |
| Tallies.NewPlatformHasNoRevenue | components/Reports.tsx:54-55 | a platform absent from the tally has no revenue among the sales tallied |
| Dashboard.LowStockItems | components/Dashboard.tsx:15-17 | exactly the products with positive stock below the threshold |
| Dashboard.OutOfStockItems | components/Dashboard.tsx:19-21 | exactly the products with no stock left (zero or negative) |
| Dashboard.StockAlertsDisjoint | components/Dashboard.tsx:15-21 | no product is in both lists, and together they hold no more than the products |
| Dashboard.PlatformData | components/Dashboard.tsx:23-30 | the tally of the Completed sales: every Completed sale's platform appears once, each holding its revenue, and the entries sum to the Completed revenue |
| Dashboard.PlatformDataIsTotalSales | components/Dashboard.tsx:23-30 | the platform split sums to the dashboard's total sales |
| Dashboard.TotalDeliveryLosses | components/Dashboard.tsx:32-36 | the sum of the Refund Loss expenses, which under non-negative amounts is at most total expenses |
| Dashboard.DeliveryLossOfRefund | components/Dashboard.tsx:32-36 | a refund's loss expense adds its delivery charge to the losses; an expense of another category leaves them unchanged |
| Dashboard.SeedPerformance | components/Dashboard.tsx:42-44 | the loop seeds one zero entry per product id |
| Dashboard.SeededFacts | components/Dashboard.tsx:42-44 | the seed has distinct ids, covers every product, holds only product ids, and holds zeros |
| Dashboard.SeededDistinct | components/Dashboard.tsx:42-44 | over products with distinct ids, there is exactly one seed entry per product, in order |
| Dashboard.AccumulatePerformance | components/Dashboard.tsx:46-52 | the loop adds each sale's quantity, revenue and profit to its product's entry and keeps the entries |
| Dashboard.AccumulatedSums | components/Dashboard.tsx:46-52 | each entry ends holding the sum over that product's sales |
| Dashboard.AccumulateIgnoresUnknown | components/Dashboard.tsx:47 | a sale of a deleted product changes no entry |
| Dashboard.ProductPerformance | components/Dashboard.tsx:38-55 | sorted by revenue, best first; a permutation of the accumulated entries; one entry per product; only existing products; each entry the sums over its product's Completed sales |
| Dashboard.PerformanceTransfer | components/Dashboard.tsx:38-55 | the facts of the accumulated table survive the sort |
| Dashboard.PerformanceKeys | components/Dashboard.tsx:38-55 | the sorted table keeps distinct ids and covers every product |
| Dashboard.Recommendations | components/Dashboard.tsx:127 | the first four suggestions in order, or all of them when there are fewer |
| Sorting.InsertDesc | components/Dashboard.tsx:54 | insertion keeps the sequence sorted by descending key and adds exactly the element |
| Sorting.SortDesc | components/Dashboard.tsx:54 | the result is sorted by descending key and is a permutation of the input |
| Sorting.Take | components/Reports.tsx:68 | a prefix of at most n elements, the whole sequence when it is shorter |
| Sorting.TakeSortedIsTop | components/Reports.tsx:65-68 | from a sorted sequence, every element taken ranks at least as high as every element left out |
| Reports.InRangeByDay | components/Reports.tsx:21-38 | a date is in range exactly when its day is between the start day and the end day, both included |
| Reports.RangeSales | components/Reports.tsx:27-30 | exactly the sales dated in range |
| Reports.RangeExpenses | components/Reports.tsx:32-35 | exactly the expenses dated in range |
| Reports.RefundedSales | components/Reports.tsx:43 | exactly the Refunded sales |
| Reports.RangeSummary | components/Reports.tsx:41-49 | net profit is profit minus the range's expenses |
| Reports.RangeSums | components/Reports.tsx:41-49 | the range's revenue, profit and refunds are the Completed and Refunded sums over the sales in range |
| Reports.RefundedSalesSum | components/Reports.tsx:43-47 | the refunded-sales total is the sum of Refunded revenue |
| Reports.FullRangeIsMetrics | components/Reports.tsx:41-49 | a range holding every sale and expense gives the dashboard's totals |
| Reports.NameTally | components/Reports.tsx:59-64 | one entry per product name sold, holding that name's quantity and revenue |
| Reports.NameTalliedFacts | components/Reports.tsx:59-64 | the name tally's facts hold of the specification function |
| Reports.NewNameHasNoSales | components/Reports.tsx:59-64 | a name absent from the tally has no quantity or revenue |
| Reports.RangeReport | components/Reports.tsx:21-70 | the range summary; the platform split of the range's Completed sales, which sums to the range revenue; and at most five top product names, sorted by revenue, distinct, each with its sums, none ranked below a name left out |
| Reports.TopFacts | components/Reports.tsx:65-68 | the first entries of the sorted name tally stay sorted and distinct and keep their sums |
| Contacts.GetCustomerStats | components/Contacts.tsx:63-70 | nothing for an empty phone; otherwise the sales recorded under exactly that phone (refunded ones included), their revenue, and how many were refunded, which is never more than the orders |
| Contacts.CustomerRefunds | components/Contacts.tsx:67 | the refunded sales among a customer's are the refunded sales under that phone |
| Contacts.StatsOfNewSale | components/Contacts.tsx:63-70 | a new sale under the phone adds one order and its revenue; a sale under another phone leaves the statistics unchanged |
| Contacts.UntrimmedPhoneNotCounted | components/Contacts.tsx:64 | a sale typed with spaces around the phone does not count toward the auto-created customer, who holds the trimmed phone |
| Contacts.FilterSuppliers | components/Contacts.tsx:72-74 | exactly the suppliers whose lower-cased name contains the lower-cased term |
| Contacts.FilterCustomers | components/Contacts.tsx:72-74 | exactly the customers whose lower-cased name contains the lower-cased term |
| Contacts.EmptySearchKeepsAll | components/Contacts.tsx:72-74 | an empty term keeps both lists whole, and lower-casing either side first changes no match |
| Contacts.SupplierForm | components/Contacts.tsx:22-31 | opening a supplier fills the contact and category, with no address |
| Contacts.CustomerForm | components/Contacts.tsx:22-31 | opening a customer puts the phone in the contact field, with no category |
| Contacts.SupplierPayload | components/Contacts.tsx:42-47 | an empty category is saved as "General"; the other fields are kept |
| Contacts.CustomerPayload | components/Contacts.tsx:51-56 | the contact field is saved as the phone; the other fields are kept |
| Contacts.EditRoundTrip | components/Contacts.tsx:22-56 | opening and saving unchanged writes back the same contact, except that an empty supplier category becomes "General" |
| Inventory.ComposeSku | components/Inventory.tsx:55-58 | the code alone when the prefix is empty, otherwise prefix, dash, code |
| Inventory.SplitSku | components/Inventory.tsx:26-28 | with no dash the whole SKU is the code; otherwise the prefix is what precedes the first dash and the code is the rest, later dashes included |
| Inventory.SplitRest | components/Inventory.tsx:27-28 | rejoining the pieces after the first gives exactly the SKU after the first dash |
| Inventory.ComposeSplit | components/Inventory.tsx:26-58 | opening and saving a SKU gives it back, except that a leading dash is dropped |
| Inventory.SplitCompose | components/Inventory.tsx:26-58 | saving a prefix and code and reopening gives them back exactly when the prefix is non-empty and dash-free, or it is empty and the code is dash-free |
| Inventory.DefaultFormPrefix | components/Inventory.tsx:42 | a new product starts with the first configured prefix, or none |
| Inventory.NewProductForm | components/Inventory.tsx:40-48 | a new product's form is empty except for the default prefix |
| Inventory.EditProductForm | components/Inventory.tsx:24-38 | opening a product shows its fields and its split SKU |
| Inventory.ProductPayload | components/Inventory.tsx:60-66 | the payload is the form's fields with the SKU composed |
| Inventory.EditSaveRoundTrip | components/Inventory.tsx:24-66 | saving an opened product unchanged keeps every field, and keeps the SKU exactly when it does not start with a dash |
| Inventory.NewProductSku | components/Inventory.tsx:40-58 | a new product saved with a non-empty default prefix gets that prefix, a dash, then its code |
| Inventory.FilterProducts | components/Inventory.tsx:83-86 | exactly the products whose name or SKU contains the term, case ignored |
| Inventory.EmptyProductSearch | components/Inventory.tsx:83-86 | an empty search lists every product |

## Left out

- Persistence: reading and writing browser storage (`localStorage`), the JSON encoding, and the `typeof` test that tells a legacy platform list from records. The model receives the stored value already decoded, as `StoredSettings` and `StoredPlatforms`.
- Identifiers and time: the random id generator and `new Date()` are parameters, and the commands require the id to be fresh. Dates are milliseconds since the epoch. Reports compares whole days; the local-time `setHours` adjustment of the end date and the way ISO strings are parsed by time zone are not modelled.
- Floating point: amounts are exact `real`. Rounding, `toFixed` and the currency formatting in the screens are not modelled. `platformFee || 0` is the fee itself, since every sale the store creates has one.
- Form text parsing: `parseFloat`, `parseInt` and `toString` in the forms. The forms hold the numbers already parsed.
- React: state batching, closures over stale state, `useMemo`. Each command is one atomic update of the whole store. `alert` and `throw` become the `Rejected` outcome.
- Ordering: the order of `Object.values`/`Object.entries` is modelled as order of first appearance, which differs from JavaScript's when a key looks like an integer. The sort is a stable insertion sort on a sequence, not the engine's sort.
- `resetData`, and the Analytics, ControlPanel, Sales, Layout and App screens: not part of this model. The dashboard's weekly chart data and the heuristics that produce the recommendations are left out too; only the cap of four is modelled.
- Case mapping covers the ASCII letters only.
- Contacts: the screen's one generic list is modelled as two functions, one for suppliers and one for customers, in place of its `'contact' in item` test.
- DataStore.Store.UpdateProduct: a `Partial<Product>` patch that includes `id` or `createdAt` is not modelled; the patch carries the other five fields.
- Dashboard.ProductPerformance: with duplicate product ids in the store, the entry count is not stated; the invariant keeps ids distinct.
- DataStore.Store.AddSkuPrefix: also requires the new prefix id to be fresh, which the generated id provides.
- Where the description of the application and its code differ, the model follows the code:
  - editing a Refunded sale does not restore its quantity, but still deducts the new quantity (context/DataContext.tsx:306-319);
  - addSale checks the stock before it auto-creates the customer (lines 223-229), so a rejected sale creates no customer.
