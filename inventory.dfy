/**
 * The inventory store: products grouped by category and ordered by category
 * name, the flattening of a fetched category tree, the cached fallback of a
 * single-product fetch, the insert and update payloads with their local-list
 * effects, and the variant write plans. Fetched rows, outcomes and the clock
 * are parameters; an error is its message.
 */
module Inventory {
  import opened Wrappers
  import opened Strings
  import opened Js
  import opened Lists
  import opened Sorting

  // ---------------------------------------------------------------- rows

  /** The fields of a `products` row the store handles. */
  datatype Product = Product(
    id: string,
    name: string,
    category_id: Option<string>,
    product_type: string,
    track_usage: Option<bool>,
    track_quantity: Option<bool>)

  /** A `product_categories` row with its embedded products. */
  datatype ProductCategory = ProductCategory(id: string, name: string, products: seq<Product>)

  function ProductsOf(c: ProductCategory): seq<Product> {
    c.products
  }

  function ProductWithId(id: string): Product -> bool {
    (p: Product) => p.id == id
  }

  function InCategory(id: string): Product -> bool {
    (p: Product) => p.category_id == Some(id)
  }

  /** One category of `categorizedProducts` before sorting. */
  function WithProducts(c: ProductCategory, products: seq<Product>): ProductCategory {
    c.(products := Filter(products, InCategory(c.id)))
  }

  function Attach(products: seq<Product>): ProductCategory -> ProductCategory {
    (c: ProductCategory) => WithProducts(c, products)
  }

  /**
   * The order of `a.name.localeCompare(b.name)`, stood in for by
   * code-point order (collation tables are outside the model).
   */
  predicate NameLe(a: ProductCategory, b: ProductCategory) {
    LexLe(a.name, b.name)
  }

  lemma NameOrderIsPreorder()
    ensures TotalPreorder(NameLe)
  {
    forall a: ProductCategory, b: ProductCategory
      ensures NameLe(a, b) || NameLe(b, a)
    {
      LexLeTotal(a.name, b.name);
    }
    forall a: ProductCategory, b: ProductCategory, c: ProductCategory | NameLe(a, b) && NameLe(b, c)
      ensures NameLe(a, c)
    {
      LexLeTransitive(a.name, b.name, c.name);
    }
  }

  /** The categories with their products, stably sorted by name. */
  function GroupedByName(categories: seq<ProductCategory>, products: seq<Product>): (r: seq<ProductCategory>)
    ensures SortedBy(r, NameLe)
    ensures multiset(r) == multiset(Map(categories, Attach(products)))
  {
    NameOrderIsPreorder();
    SortBy(Map(categories, Attach(products)), NameLe)
  }

  /** A category's entry holds exactly the products filed under its id. */
  lemma WithProductsMembers(c: ProductCategory, products: seq<Product>, p: Product)
    ensures p in WithProducts(c, products).products <==> p in products && p.category_id == Some(c.id)
  {
    FilterMembers(products, InCategory(c.id), p);
  }

  /** Categories with equal names keep their list order. */
  lemma GroupedByNameStable(categories: seq<ProductCategory>, products: seq<Product>, q: ProductCategory)
    ensures EquivalentTo(GroupedByName(categories, products), q, NameLe)
         == EquivalentTo(Map(categories, Attach(products)), q, NameLe)
  {
    NameOrderIsPreorder();
    SortStable(Map(categories, Attach(products)), q, NameLe);
  }

  function Emptied(c: ProductCategory): ProductCategory {
    c.(products := [])
  }

  /** Every embedded product names its own category, and category ids are distinct. */
  predicate WellFiled(data: seq<ProductCategory>) {
    && (forall i, j :: 0 <= i < j < |data| ==> data[i].id != data[j].id)
    && (forall i, k :: 0 <= i < |data| && 0 <= k < |data[i].products| ==> data[i].products[k].category_id == Some(data[i].id))
  }

  /** After `fetchProducts`, grouping the flat list into the emptied categories rebuilds the fetched tree. */
  lemma FetchedProductsRegroup(data: seq<ProductCategory>)
    requires WellFiled(data)
    ensures Map(Map(data, Emptied), Attach(FlatMap(data, ProductsOf))) == data
  {
    var r := Map(Map(data, Emptied), Attach(FlatMap(data, ProductsOf)));
    forall i | 0 <= i < |data|
      ensures r[i] == data[i]
    {
      FilterFlatMapOne(data, ProductsOf, InCategory(data[i].id), i);
    }
  }

  // ---------------------------------------------------------------- write payloads

  /** The product fields a create or update form submits. */
  datatype ProductInput = ProductInput(
    id: Option<string>,
    name: string,
    name_tr: Option<string>,
    description: Option<string>,
    brand: Option<string>,
    category_id: Option<string>,
    product_type: string,
    track_usage: Option<bool>,
    track_quantity: Option<bool>,
    unit_type: Option<string>)

  /** The row sent to `products`; the timestamps are absent on update. */
  datatype ProductRow = ProductRow(
    id: Option<string>,
    name: string,
    name_tr: Option<string>,
    description: Option<string>,
    brand: Option<string>,
    category_id: Option<string>,
    product_type: string,
    track_usage: bool,
    track_quantity: bool,
    unit_type: Option<string>,
    created_at: Option<string>,
    updated_at: Option<string>)

  /** The columns both product writes pass through unchanged. */
  predicate CopiesProduct(r: ProductRow, p: ProductInput) {
    && r.name == p.name && r.name_tr == p.name_tr && r.description == p.description
    && r.brand == p.brand && r.category_id == p.category_id && r.product_type == p.product_type
    && r.unit_type == p.unit_type
  }

  /** `x ?? false` for an optional flag. */
  function FlagOrFalse(b: Option<bool>): (r: bool)
    ensures r <==> b == Some(true)
  {
    if b.Some? then b.value else false
  }

  /** The row `createProduct` inserts: flags default to false, both timestamps are `now`. */
  function InsertRow(p: ProductInput, now: string): (r: ProductRow)
    ensures r.id.None? && CopiesProduct(r, p)
    ensures r.track_usage <==> p.track_usage == Some(true)
    ensures r.track_quantity <==> p.track_quantity == Some(true)
    ensures r.created_at == Some(now) && r.updated_at == Some(now)
  {
    ProductRow(None, p.name, p.name_tr, p.description, p.brand, p.category_id, p.product_type,
      FlagOrFalse(p.track_usage), FlagOrFalse(p.track_quantity), p.unit_type, Some(now), Some(now))
  }

  /** The row `updateProduct` sends: the id is kept, flags default to false, no timestamps. */
  function UpdateRow(p: ProductInput): (r: ProductRow)
    ensures r.id == p.id && CopiesProduct(r, p)
    ensures r.track_usage <==> p.track_usage == Some(true)
    ensures r.track_quantity <==> p.track_quantity == Some(true)
    ensures r.created_at.None? && r.updated_at.None?
  {
    ProductRow(p.id, p.name, p.name_tr, p.description, p.brand, p.category_id, p.product_type,
      FlagOrFalse(p.track_usage), FlagOrFalse(p.track_quantity), p.unit_type, None, None)
  }

  datatype ProductWrite = UpdateProduct(input: ProductInput) | CreateProduct(input: ProductInput)

  /** `createOrUpadateProduct`: an update when the input has an id, a create otherwise. */
  function CreateOrUpdateProduct(p: ProductInput): (r: ProductWrite)
    ensures r.UpdateProduct? <==> Truthy(p.id)
    ensures r.input == p
  {
    if Truthy(p.id) then UpdateProduct(p) else CreateProduct(p)
  }

  // ---------------------------------------------------------------- variants

  /** A variant as the form submits it. */
  datatype VariantInput = VariantInput(
    id: Option<string>,
    product_id: Option<string>,
    variant_name: string,
    variant_name_tr: Option<string>,
    sku: Option<string>,
    current_quantity: Option<int>,
    reorder_point: Option<int>,
    cost_price: Option<int>,
    stock_level: Option<string>)

  /** A row sent to `product_variants`. */
  datatype VariantRow = VariantRow(
    id: Option<string>,
    product_id: Option<string>,
    variant_name: string,
    variant_name_tr: Option<string>,
    sku: Option<string>,
    current_quantity: Option<int>,
    reorder_point: Option<int>,
    cost_price: Option<int>,
    stock_level: string,
    created_at: Option<string>,
    updated_at: string)

  const InStock := "in_stock"

  /** The columns both variant writes pass through unchanged, with the stock level defaulted. */
  predicate CopiesVariant(r: VariantRow, v: VariantInput) {
    && r.variant_name == v.variant_name && r.variant_name_tr == v.variant_name_tr && r.sku == v.sku
    && r.current_quantity == v.current_quantity && r.reorder_point == v.reorder_point
    && r.cost_price == v.cost_price && r.stock_level == StockLevelOf(v)
  }

  /** `stock_level ?? 'in_stock'`: only a missing level is replaced; an empty string is kept. */
  function StockLevelOf(v: VariantInput): (r: string)
    ensures v.stock_level.Some? ==> r == v.stock_level.value
    ensures v.stock_level.None? ==> r == InStock
  {
    if v.stock_level.Some? then v.stock_level.value else InStock
  }

  /** What a variant action does: return `{data: [], error: null}` without a write, or write rows. */
  datatype VariantWrite =
    | NoVariantWrite
    | InsertVariants(rows: seq<VariantRow>)
    | UpsertVariants(rows: seq<VariantRow>)

  function VariantInsertRow(now: string): VariantInput -> VariantRow {
    (v: VariantInput) => VariantRow(None, v.product_id, v.variant_name, v.variant_name_tr, v.sku, v.current_quantity,
      v.reorder_point, v.cost_price, StockLevelOf(v), Some(now), now)
  }

  function VariantUpdateRow(now: string): VariantInput -> VariantRow {
    (v: VariantInput) => VariantRow(v.id, None, v.variant_name, v.variant_name_tr, v.sku, v.current_quantity,
      v.reorder_point, v.cost_price, StockLevelOf(v), None, now)
  }

  /** `createVariants`: no write for an empty list, otherwise one insert row per variant. */
  function CreateVariants(variants: seq<VariantInput>, now: string): (r: VariantWrite)
    ensures r.NoVariantWrite? <==> |variants| == 0
    ensures r.InsertVariants? <==> |variants| > 0
    ensures r.InsertVariants? ==> |r.rows| == |variants| && forall i :: 0 <= i < |variants| ==>
      && r.rows[i].id.None? && r.rows[i].product_id == variants[i].product_id
      && CopiesVariant(r.rows[i], variants[i])
      && r.rows[i].created_at == Some(now) && r.rows[i].updated_at == now
  {
    if |variants| == 0 then NoVariantWrite else InsertVariants(Map(variants, VariantInsertRow(now)))
  }

  /** `updateVariants`: no write for an empty list, otherwise one upsert row per variant. */
  function UpdateVariants(variants: seq<VariantInput>, now: string): (r: VariantWrite)
    ensures r.NoVariantWrite? <==> |variants| == 0
    ensures r.UpsertVariants? <==> |variants| > 0
    ensures r.UpsertVariants? ==> |r.rows| == |variants| && forall i :: 0 <= i < |variants| ==>
      && r.rows[i].id == variants[i].id && r.rows[i].product_id.None?
      && CopiesVariant(r.rows[i], variants[i])
      && r.rows[i].created_at.None? && r.rows[i].updated_at == now
  {
    if |variants| == 0 then NoVariantWrite else UpsertVariants(Map(variants, VariantUpdateRow(now)))
  }

  function HasVariantId(v: VariantInput): bool {
    Truthy(v.id)
  }

  /** `createOrUpdateVariants`: no write for an empty list; an upsert once any variant has an id. */
  function CreateOrUpdateVariants(variants: seq<VariantInput>, now: string): (r: VariantWrite)
    ensures r.NoVariantWrite? <==> |variants| == 0
    ensures r.UpsertVariants? <==> exists k :: 0 <= k < |variants| && Truthy(variants[k].id)
    ensures r.InsertVariants? ==> forall k :: 0 <= k < |r.rows| ==> r.rows[k].id.None?
    ensures r.UpsertVariants? ==> r == UpdateVariants(variants, now)
    ensures r.InsertVariants? ==> r == CreateVariants(variants, now)
  {
    if |variants| == 0 then NoVariantWrite
    else if Any(variants, HasVariantId) then UpdateVariants(variants, now)
    else CreateVariants(variants, now)
  }

  /** Every variant row carries a stock level; a missing one becomes "in_stock". */
  lemma VariantRowsHaveStockLevel(variants: seq<VariantInput>, now: string)
    ensures var w := CreateOrUpdateVariants(variants, now);
      w.NoVariantWrite? || forall i :: 0 <= i < |variants| ==>
        |w.rows| == |variants| && (variants[i].stock_level.None? ==> w.rows[i].stock_level == InStock)
  {
  }

  // ---------------------------------------------------------------- store

  class InventoryStore {
    var products: seq<Product>
    var categories: seq<ProductCategory>

    constructor()
      ensures products == [] && categories == []
    {
      products := [];
      categories := [];
    }

    /** `categorizedProducts`: push each category with its products, then sort the list by name. */
    method CategorizedProducts() returns (r: seq<ProductCategory>)
      ensures r == GroupedByName(categories, products)
      ensures SortedBy(r, NameLe)
      ensures |r| == |categories|
    {
      var all := products;
      var built: seq<ProductCategory> := [];
      for i := 0 to |categories|
        invariant |built| == i
        invariant forall k :: 0 <= k < i ==> built[k] == WithProducts(categories[k], all)
      {
        built := built + [WithProducts(categories[i], all)];
      }
      assert built == Map(categories, Attach(all));
      NameOrderIsPreorder();
      r := SortBy(built, NameLe);
    }

    /** `fetchProducts`: keep the flat product list and the categories with emptied product lists. */
    method FetchProducts(response: Result<seq<ProductCategory>>) returns (r: Result<seq<ProductCategory>>)
      modifies this
      ensures response.Err? ==> r == response && products == old(products) && categories == old(categories)
      ensures response.Ok? ==>
        && products == FlatMap(response.value, ProductsOf)
        && categories == Map(response.value, Emptied)
        && r == Ok(categories)
    {
      if response.Err? {
        return response;
      }
      var data := response.value;
      products := FlatMap(data, ProductsOf);
      categories := Map(data, Emptied);
      r := Ok(categories);
    }

    /** `fetchProductById`: the fetched row, or on failure the cached product with that id. */
    method FetchProductById(id: string, response: Result<Product>) returns (r: Result<Product>)
      ensures response.Ok? ==> r == response
      ensures response.Err? ==> (r.Ok? <==> exists k :: 0 <= k < |products| && products[k].id == id)
      ensures response.Err? ==> r == FindOrFail(products, ProductWithId(id), response.error)
      ensures response.Err? && r.Ok? ==> r.value.id == id && r.value == products[FirstIndex(products, ProductWithId(id)).value]
      ensures response.Err? && r.Err? ==> r.error == response.error
    {
      if response.Err? {
        r := FindOrFail(products, ProductWithId(id), response.error);
      } else {
        r := response;
      }
    }

    /**
     * `createProduct`: insert the row and return the response. The local list
     * is only extended when `data[0]` is truthy, and the single-row object
     * returned by `.single()` has no element 0, so the list never changes.
     */
    method CreateProduct(p: ProductInput, now: string, response: Result<Product>)
      returns (row: ProductRow, r: Result<Product>)
      ensures row == InsertRow(p, now)
      ensures r == response
    {
      row := InsertRow(p, now);
      r := response;
    }

    /** `updateProduct`: send the row, then replace the product whose id the response carries. */
    method UpdateProduct(p: ProductInput, response: Result<Product>)
      returns (row: ProductRow, r: Result<Product>)
      modifies this
      ensures row == UpdateRow(p) && r == response
      ensures categories == old(categories)
      ensures response.Err? ==> products == old(products)
      ensures response.Ok? ==> products == ReplaceWhere(old(products), ProductWithId(response.value.id), response.value)
    {
      row := UpdateRow(p);
      r := response;
      if response.Ok? {
        var data := response.value;
        products := ReplaceWhere(products, ProductWithId(data.id), data);
      }
    }
  }

  /** After a successful update of a listed product, the list answers its id with the new row. */
  lemma UpdatedProductListed(products: seq<Product>, d: Product)
    requires Any(products, ProductWithId(d.id))
    ensures FindFirst(ReplaceWhere(products, ProductWithId(d.id), d), ProductWithId(d.id)) == Some(d)
  {
    FindAfterReplace(products, ProductWithId(d.id), d);
  }

  /** An update whose row is not listed leaves the list as it was. */
  lemma UpdatedProductUnlisted(products: seq<Product>, d: Product)
    requires !Any(products, ProductWithId(d.id))
    ensures ReplaceWhere(products, ProductWithId(d.id), d) == products
  {
    ReplaceWhereNone(products, ProductWithId(d.id), d);
  }
}
