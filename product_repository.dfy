/** `ProductRepository`: the derived finders and JPQL queries over the
    `products` table, each a filter on the table's rows. */
module ProductRepository {
  import opened Wrappers
  import opened Store
  import opened Ascii
  import opened ProductEntity

  type Products = map<int, ProductRow>

  /** `findByActiveTrue`: the products not soft-deleted. */
  function FindByActiveTrue(t: Products): (r: Products)
    ensures SelectionOf(r, t)
    ensures forall id :: id in t ==> (id in r <==> t[id].active)
  {
    Where(t, (p: ProductRow) => p.active)
  }

  /** `findByCategory`, active or not. */
  function FindByCategory(t: Products, category: string): (r: Products)
    ensures SelectionOf(r, t)
    ensures forall id :: id in t ==> (id in r <==> t[id].category == category)
  {
    Where(t, (p: ProductRow) => p.category == category)
  }

  /** `findByCategoryAndActiveTrue`: the rows both finders above return. */
  function FindByCategoryAndActiveTrue(t: Products, category: string): (r: Products)
    ensures SelectionOf(r, t)
    ensures forall id :: id in r <==> id in FindByCategory(t, category) && id in FindByActiveTrue(t)
  {
    Where(t, (p: ProductRow) => p.category == category && p.active)
  }

  /** `findBySupplierAndActiveTrue`. */
  function FindBySupplierAndActiveTrue(t: Products, supplier: string): (r: Products)
    ensures SelectionOf(r, t)
    ensures forall id :: id in t ==> (id in r <==> t[id].supplier == Some(supplier) && t[id].active)
  {
    Where(t, (p: ProductRow) => p.supplier == Some(supplier) && p.active)
  }

  /** `searchByKeyword`: active products whose name or description contains the
      keyword, ignoring case; a null description never matches. */
  function SearchByKeyword(t: Products, keyword: string): (r: Products)
    ensures SelectionOf(r, t)
    ensures forall id :: id in t ==> (id in r <==>
      t[id].active &&
      (ContainsIgnoringCase(Some(t[id].name), keyword) || ContainsIgnoringCase(t[id].description, keyword)))
  {
    Where(t, (p: ProductRow) =>
      p.active && (ContainsIgnoringCase(Some(p.name), keyword) || ContainsIgnoringCase(p.description, keyword)))
  }

  /** `findLowStockProducts`: active products at or below their reorder level. */
  function FindLowStockProducts(t: Products): (r: Products)
    ensures SelectionOf(r, t)
    ensures forall id :: id in t ==> (id in r <==> t[id].active && t[id].stockQuantity <= t[id].reorderLevel)
  {
    Where(t, (p: ProductRow) => p.active && p.stockQuantity <= p.reorderLevel)
  }

  /** `findOutOfStockProducts`: active products with no stock at all. */
  function FindOutOfStockProducts(t: Products): (r: Products)
    ensures SelectionOf(r, t)
    ensures forall id :: id in t ==> (id in r <==> t[id].active && t[id].stockQuantity == 0)
  {
    Where(t, (p: ProductRow) => p.active && p.stockQuantity == 0)
  }

  /** `findAllCategories`: the distinct categories of active products. */
  function FindAllCategories(t: Products): (r: set<string>)
    ensures forall c :: c in r <==> exists id :: id in t && t[id].active && t[id].category == c
  {
    set id | id in t && t[id].active :: t[id].category
  }

  /** `findAllBrands`: the distinct brands of active products, nulls excluded. */
  function FindAllBrands(t: Products): (r: set<string>)
    ensures forall b :: b in r <==> exists id :: id in t && t[id].active && t[id].brand == Some(b)
  {
    set id | id in t && t[id].active && t[id].brand.Some? :: t[id].brand.value
  }

  /** `findBySku`. */
  ghost function FindBySku(t: Products, sku: string): (r: Result<Option<int>>)
    ensures r == Ok(None) <==> forall id :: id in t ==> !(t[id].sku == sku)
    ensures r.Ok? && r.value.Some? ==>
      r.value.value in t && t[r.value.value].sku == sku && forall id :: id in t && t[id].sku == sku ==> id == r.value.value
    ensures r.Err? ==>
      r.error == NonUniqueResult && exists i, j :: i in t && j in t && i != j && t[i].sku == sku && t[j].sku == sku
  {
    FindOne(t, (p: ProductRow) => p.sku == sku)
  }

  /** `findByBarcode`: `barcode` carries no unique constraint, so this can fail. */
  ghost function FindByBarcode(t: Products, barcode: string): (r: Result<Option<int>>)
    ensures r == Ok(None) <==> forall id :: id in t ==> !(t[id].barcode == Some(barcode))
    ensures r.Ok? && r.value.Some? ==>
      r.value.value in t && t[r.value.value].barcode == Some(barcode) && forall id :: id in t && t[id].barcode == Some(barcode) ==> id == r.value.value
    ensures r.Err? ==>
      r.error == NonUniqueResult && exists i, j :: i in t && j in t && i != j && t[i].barcode == Some(barcode) && t[j].barcode == Some(barcode)
  {
    FindOne(t, (p: ProductRow) => p.barcode == Some(barcode))
  }

  /** With unique SKUs the SKU finder never fails, and it finds exactly the row
      carrying that SKU. */
  lemma FindBySkuUnique(t: Products, sku: string)
    requires SkusUnique(t)
    ensures FindBySku(t, sku).Ok?
    ensures forall id :: id in t && t[id].sku == sku ==> FindBySku(t, sku) == Ok(Some(id))
  {
  }

  /** A product out of stock is also low on stock, as long as its reorder level
      is not negative. */
  lemma OutOfStockIsLowStock(t: Products)
    requires forall id :: id in t ==> t[id].reorderLevel >= 0
    ensures SelectionOf(FindOutOfStockProducts(t), FindLowStockProducts(t))
  {
  }

  /** The empty keyword matches every active product. */
  lemma SearchEmptyKeyword(t: Products)
    ensures SearchByKeyword(t, "") == FindByActiveTrue(t)
  {
    forall id | id in t
      ensures id in SearchByKeyword(t, "") <==> id in FindByActiveTrue(t)
    {
      EmptyKeywordMatches(t[id].name);
    }
  }

  /** Every product the keyword search returns is one the active finder returns. */
  lemma SearchWithinActive(t: Products, keyword: string)
    ensures SelectionOf(SearchByKeyword(t, keyword), FindByActiveTrue(t))
  {
  }
}
