/** The contacts screen: the order statistics shown on a customer card, the
    name search over suppliers and customers, and the form that edits them
    (one form for both: its `contact` field holds a supplier's contact or a
    customer's phone). */
module Contacts {
  import opened Types
  import opened Seqs
  import Ledger
  import Text
  import DataStore

  // ---------------------------------------------------------------
  // Customer statistics

  datatype CustomerStats = CustomerStats(orders: int, total: real, refunds: int)

  /** `s.customerPhone === phone`: the untrimmed phone the sale was recorded
      with, compared exactly. */
  function PhoneIs(phone: string): Sale -> bool {
    (s: Sale) => s.customerPhone == Some(phone)
  }

  function OrderOf(phone: string): Sale -> int {
    (s: Sale) => if s.customerPhone == Some(phone) then 1 else 0
  }
  function SpentBy(phone: string): Sale -> real {
    (s: Sale) => if s.customerPhone == Some(phone) then s.revenue else 0.0
  }
  function RefundOf(phone: string): Sale -> int {
    (s: Sale) => if s.customerPhone == Some(phone) && s.status == Refunded then 1 else 0
  }

  /** `getCustomerStats`: nothing for an empty phone; otherwise the number of
      sales recorded under exactly that phone, refunded ones included, their
      revenue, refunded ones included, and how many of them were refunded. */
  function GetCustomerStats(sales: seq<Sale>, phone: string): (r: CustomerStats)
    ensures phone == "" ==> r == CustomerStats(0, 0.0, 0)
    ensures phone != "" ==>
      && r.orders == SumI(sales, OrderOf(phone))
      && r.total == SumR(sales, SpentBy(phone))
      && r.refunds == SumI(sales, RefundOf(phone))
    ensures 0 <= r.refunds <= r.orders
  {
    if phone == "" then CustomerStats(0, 0.0, 0)
    else
      var customerSales := Filter(sales, PhoneIs(phone));
      var refunded := Filter(customerSales, Ledger.IsRefunded);
      FilterCount(sales, PhoneIs(phone), OrderOf(phone));
      FilterSumR(sales, PhoneIs(phone), Ledger.SaleRevenue, SpentBy(phone));
      CustomerRefunds(sales, phone);
      CustomerStats(|customerSales|, SumR(customerSales, Ledger.SaleRevenue), |refunded|)
  }

  /** The refunded sales among a customer's are the refunded sales under
      that phone. */
  lemma {:induction false} CustomerRefunds(sales: seq<Sale>, phone: string)
    ensures |Filter(Filter(sales, PhoneIs(phone)), Ledger.IsRefunded)| == SumI(sales, RefundOf(phone))
  {
    if |sales| > 0 {
      CustomerRefunds(sales[1..], phone);
      var rest := Filter(sales[1..], PhoneIs(phone));
      if PhoneIs(phone)(sales[0]) {
        assert ([sales[0]] + rest)[1..] == rest;
      }
    }
  }

  /** A new sale under the phone is one more order and adds its revenue; a
      sale under another phone, or none, changes nothing. */
  lemma StatsOfNewSale(sales: seq<Sale>, s: Sale, phone: string)
    requires phone != ""
    ensures var before, after := GetCustomerStats(sales, phone), GetCustomerStats([s] + sales, phone);
      if s.customerPhone == Some(phone) then
        && after.orders == before.orders + 1
        && after.total == before.total + s.revenue
        && after.refunds == before.refunds + (if s.status == Refunded then 1 else 0)
      else after == before
  {
    assert ([s] + sales)[1..] == sales;
  }

  /** The customer an auto-creation makes carries the trimmed phone while the
      sale keeps the phone as typed, so a phone typed with surrounding spaces
      never counts toward that customer's orders. */
  lemma UntrimmedPhoneNotCounted(sales: seq<Sale>, s: Sale, typed: string)
    requires s.customerPhone == Some(typed)
    requires Text.Trim(typed) != typed && Text.Trim(typed) != ""
    ensures GetCustomerStats([s] + sales, Text.Trim(typed)) == GetCustomerStats(sales, Text.Trim(typed))
  {
    StatsOfNewSale(sales, s, Text.Trim(typed));
  }

  // ---------------------------------------------------------------
  // Search

  /** `x.name.toLowerCase().includes(searchTerm.toLowerCase())`. */
  function SupplierMatches(term: string): Supplier -> bool {
    (s: Supplier) => Text.IncludesIgnoringCase(s.name, term)
  }
  function CustomerMatches(term: string): Customer -> bool {
    (c: Customer) => Text.IncludesIgnoringCase(c.name, term)
  }

  /** The suppliers tab's list: exactly the suppliers whose name matches. */
  function FilterSuppliers(suppliers: seq<Supplier>, term: string): (r: seq<Supplier>)
    ensures forall s :: s in r <==> s in suppliers && Text.IncludesIgnoringCase(s.name, term)
  {
    Filter(suppliers, SupplierMatches(term))
  }

  /** The customers tab's list: exactly the customers whose name matches. */
  function FilterCustomers(customers: seq<Customer>, term: string): (r: seq<Customer>)
    ensures forall c :: c in r <==> c in customers && Text.IncludesIgnoringCase(c.name, term)
  {
    Filter(customers, CustomerMatches(term))
  }

  /** An empty search keeps both lists whole, and the search ignores the
      case of Latin letters on both sides. */
  lemma EmptySearchKeepsAll(suppliers: seq<Supplier>, customers: seq<Customer>, name: string, term: string)
    ensures FilterSuppliers(suppliers, "") == suppliers
    ensures FilterCustomers(customers, "") == customers
    ensures Text.IncludesIgnoringCase(name, term) <==> Text.IncludesIgnoringCase(Text.ToLower(name), Text.ToLower(term))
  {
    FilterAll(suppliers, SupplierMatches(""));
    FilterAll(customers, CustomerMatches(""));
    Text.ToLowerIdempotent(name);
    Text.ToLowerIdempotent(term);
  }

  // ---------------------------------------------------------------
  // The form

  datatype ContactForm = ContactForm(name: string, contact: string, category: string, address: string, notes: string)

  const EmptyForm: ContactForm := ContactForm("", "", "", "", "")

  const DefaultCategory: string := "General"

  /** `handleOpenModal` for a supplier: a supplier has no address. */
  function SupplierForm(s: Supplier): (f: ContactForm)
    ensures f.contact == s.contact && f.category == s.category && f.address == ""
  {
    ContactForm(s.name, s.contact, s.category, "", s.notes)
  }

  /** `handleOpenModal` for a customer: the phone goes in the contact field,
      and a customer has no category. */
  function CustomerForm(c: Customer): (f: ContactForm)
    ensures f.contact == c.phone && f.category == "" && f.address == c.address
  {
    ContactForm(c.name, c.phone, "", c.address, c.notes)
  }

  /** The suppliers tab's payload: an empty category becomes "General". */
  function SupplierPayload(f: ContactForm): (d: DataStore.SupplierDraft)
    ensures d.category == if f.category == "" then DefaultCategory else f.category
    ensures d.name == f.name && d.contact == f.contact && d.notes == f.notes
  {
    DataStore.SupplierDraft(f.name, f.contact, if f.category == "" then DefaultCategory else f.category, f.notes)
  }

  /** The customers tab's payload: the contact field is the phone. */
  function CustomerPayload(f: ContactForm): (d: DataStore.CustomerDraft)
    ensures d.name == f.name && d.phone == f.contact && d.address == f.address && d.notes == f.notes
  {
    DataStore.CustomerDraft(f.name, f.contact, f.address, f.notes)
  }

  /** Opening a contact and saving it unchanged writes back what it held,
      except that a supplier with no category comes back as "General". */
  lemma EditRoundTrip(s: Supplier, c: Customer)
    ensures SupplierPayload(SupplierForm(s))
      == DataStore.SupplierDraft(s.name, s.contact, if s.category == "" then DefaultCategory else s.category, s.notes)
    ensures CustomerPayload(CustomerForm(c)) == DataStore.CustomerDraft(c.name, c.phone, c.address, c.notes)
  {
  }
}
