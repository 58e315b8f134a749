/** The inventory screen: the product search, and the product form, which
    edits a SKU as a prefix and a code joined by a dash. */
module Inventory {
  import opened Types
  import opened Seqs
  import Text
  import DataStore

  // ---------------------------------------------------------------
  // SKUs

  const SkuSeparator: char := '-'

  /** The two SKU fields of the product form. */
  datatype SkuFields = SkuFields(prefix: string, code: string)

  /** The SKU the form saves: the code alone when the prefix is empty,
      otherwise prefix, dash, code. */
  function ComposeSku(f: SkuFields): (sku: string)
    ensures f.prefix == "" ==> sku == f.code
    ensures f.prefix != "" ==>
      && |sku| == |f.prefix| + 1 + |f.code|
      && sku[..|f.prefix|] == f.prefix
      && sku[|f.prefix|] == SkuSeparator
      && sku[|f.prefix| + 1..] == f.code
  {
    if f.prefix == "" then f.code else f.prefix + [SkuSeparator] + f.code
  }

  /** How the form splits a stored SKU: with no dash the whole SKU is the
      code and the prefix is empty; otherwise the prefix is what precedes
      the first dash and the code is everything after it, later dashes
      included. */
  function SplitSku(sku: string): (f: SkuFields)
    ensures SkuSeparator !in sku ==> f == SkuFields("", sku)
    ensures SkuSeparator in sku ==>
      var k := Text.IndexOfChar(sku, SkuSeparator);
      f == SkuFields(sku[..k], sku[k + 1..])
    ensures SkuSeparator !in f.prefix
  {
    var parts := Text.Split(sku, SkuSeparator);
    if |parts| > 1 then
      SplitRest(sku);
      SkuFields(parts[0], Text.Join(parts[1..], SkuSeparator))
    else SkuFields("", sku)
  }

  /** The pieces after the first of a split are the split of what follows
      the first separator. */
  lemma SplitRest(sku: string)
    requires SkuSeparator in sku
    ensures var k, parts := Text.IndexOfChar(sku, SkuSeparator), Text.Split(sku, SkuSeparator);
      && parts[0] == sku[..k]
      && Text.Join(parts[1..], SkuSeparator) == sku[k + 1..]
  {
    var k := Text.IndexOfChar(sku, SkuSeparator);
    var parts := Text.Split(sku, SkuSeparator);
    assert parts == [sku[..k]] + Text.Split(sku[k + 1..], SkuSeparator);
    assert parts[1..] == Text.Split(sku[k + 1..], SkuSeparator);
  }

  /** Opening a product and saving its SKU fields unchanged writes back the
      same SKU, except when the SKU starts with a dash: its prefix is then
      empty, so the save drops the leading dash. */
  lemma ComposeSplit(sku: string)
    ensures ComposeSku(SplitSku(sku)) == if |sku| > 0 && sku[0] == SkuSeparator then sku[1..] else sku
  {
    if SkuSeparator in sku {
      var k := Text.IndexOfChar(sku, SkuSeparator);
      if k > 0 {
        assert sku == sku[..k] + [SkuSeparator] + sku[k + 1..];
      }
    }
  }

  /** Saving a prefix and a code and opening the product again gives back
      the same two fields exactly when the prefix is a non-empty dash-free
      prefix, or the prefix is empty and the code has no dash. */
  lemma SplitCompose(f: SkuFields)
    ensures SplitSku(ComposeSku(f)) == f
      <==> (f.prefix != "" && SkuSeparator !in f.prefix) || (f.prefix == "" && SkuSeparator !in f.code)
  {
    var sku := ComposeSku(f);
    if f.prefix == "" {
      if SkuSeparator in f.code {
        assert |SplitSku(sku).code| < |f.code|;
      }
    } else if SkuSeparator !in f.prefix {
      assert sku[..|f.prefix|] == f.prefix;
      assert Text.IndexOfChar(sku, SkuSeparator) == |f.prefix|;
    } else {
      var k := Text.IndexOfChar(sku, SkuSeparator);
      var i :| 0 <= i < |f.prefix| && f.prefix[i] == SkuSeparator;
      assert sku[i] == SkuSeparator;
      assert k <= i;
      assert |SplitSku(sku).prefix| < |f.prefix|;
    }
  }

  // ---------------------------------------------------------------
  // The product form

  /** The form's fields. The prices and the stock are held as the numbers
      the form's text parses to. */
  datatype ProductForm = ProductForm(
    name: string,
    sku: SkuFields,
    buyingPrice: real,
    sellingPrice: real,
    stock: int)

  /** The prefix a new product's form starts with: the first configured
      prefix, or none when there is none. */
  function DefaultFormPrefix(prefixes: seq<SkuPrefix>): (p: string)
    ensures |prefixes| == 0 ==> p == ""
    ensures |prefixes| > 0 ==> p == prefixes[0].prefix
  {
    if |prefixes| > 0 then prefixes[0].prefix else ""
  }

  /** `handleOpenModal()` without a product: empty fields, default prefix. */
  function NewProductForm(prefixes: seq<SkuPrefix>): (f: ProductForm)
    ensures f.sku == SkuFields(DefaultFormPrefix(prefixes), "")
    ensures f.name == ""
  {
    ProductForm("", SkuFields(DefaultFormPrefix(prefixes), ""), 0.0, 0.0, 0)
  }

  /** `handleOpenModal(product)`: the product's fields, its SKU split. */
  function EditProductForm(p: Product): (f: ProductForm)
    ensures f.name == p.name && f.sku == SplitSku(p.sku)
    ensures f.buyingPrice == p.buyingPrice && f.sellingPrice == p.sellingPrice && f.stock == p.stock
  {
    ProductForm(p.name, SplitSku(p.sku), p.buyingPrice, p.sellingPrice, p.stock)
  }

  /** `handleSubmit`'s payload: the form's fields, the SKU composed. */
  function ProductPayload(f: ProductForm): (d: DataStore.ProductDraft)
    ensures d.name == f.name && d.sku == ComposeSku(f.sku)
    ensures d.buyingPrice == f.buyingPrice && d.sellingPrice == f.sellingPrice && d.stock == f.stock
  {
    DataStore.ProductDraft(f.name, ComposeSku(f.sku), f.buyingPrice, f.sellingPrice, f.stock)
  }

  /** Saving a product's form unchanged writes back every field it showed,
      and the SKU too unless the SKU starts with a dash. */
  lemma EditSaveRoundTrip(p: Product)
    ensures var d := ProductPayload(EditProductForm(p));
      && d.name == p.name && d.buyingPrice == p.buyingPrice
      && d.sellingPrice == p.sellingPrice && d.stock == p.stock
      && (d.sku == p.sku <==> !(|p.sku| > 0 && p.sku[0] == SkuSeparator))
  {
    ComposeSplit(p.sku);
    if |p.sku| > 0 && p.sku[0] == SkuSeparator {
      assert |p.sku[1..]| < |p.sku|;
    }
  }

  /** A new product saved with the default prefix gets that prefix and a
      dash in front of its code, provided a prefix is configured and it is
      not empty. */
  lemma NewProductSku(prefixes: seq<SkuPrefix>, code: string)
    requires |prefixes| > 0 && prefixes[0].prefix != ""
    ensures ProductPayload(NewProductForm(prefixes).(sku := SkuFields(DefaultFormPrefix(prefixes), code))).sku
      == prefixes[0].prefix + [SkuSeparator] + code
  {
  }

  // ---------------------------------------------------------------
  // Search

  /** A product matches when its name or its SKU includes the term, case
      ignored. */
  function ProductMatches(term: string): Product -> bool {
    (p: Product) => Text.IncludesIgnoringCase(p.name, term) || Text.IncludesIgnoringCase(p.sku, term)
  }

  /** The inventory list: exactly the products whose name or SKU matches. */
  function FilterProducts(products: seq<Product>, term: string): (r: seq<Product>)
    ensures |r| <= |products|
    ensures forall p :: p in r <==>
      p in products && (Text.IncludesIgnoringCase(p.name, term) || Text.IncludesIgnoringCase(p.sku, term))
  {
    Filter(products, ProductMatches(term))
  }

  /** An empty search lists every product. */
  lemma EmptyProductSearch(products: seq<Product>)
    ensures FilterProducts(products, "") == products
  {
    FilterAll(products, ProductMatches(""));
  }
}
