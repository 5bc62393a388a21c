/** `ProductService`: the retail catalogue of the pharmacy. The service owns the
    `products` table; creation, update, stock adjustment and soft deletion each
    run as one transaction, so a failure leaves the table as it was. */
module ProductService {
  import opened Wrappers
  import opened JavaInt
  import opened Ascii
  import opened Store
  import opened ProductEntity
  import opened ProductRepository
  import opened Stock

  /** `findBySku(sku).isPresent()` */
  predicate SkuPresent(t: Products, sku: string) {
    exists id :: id in t && t[id].sku == sku
  }

  /** `SkuPresent` is the repository finder's answer: some row has the SKU
      exactly when `FindBySku` does not come back empty. */
  lemma SkuPresentIffFound(t: Products, sku: string)
    ensures SkuPresent(t, sku) <==> FindBySku(t, sku) != Ok(None)
  {
  }

  /** The SKU `createProduct` makes up when none is given: "PRD-" and the clock
      reading in milliseconds. */
  function GeneratedSku(clock: nat): (s: string)
    ensures |s| > 4 && s[..4] == "PRD-"
  {
    "PRD-" + NatToDecimal(clock)
  }

  /** The object the builder in `createProduct` assembles from the DTO. */
  function Draft(dto: ProductData, clock: nat): (d: ProductData)
    ensures d.sku == Some(if dto.sku.Some? then dto.sku.value else GeneratedSku(clock))
    ensures d.stockQuantity == Some(dto.stockQuantity.GetOr(0))
    ensures d.reorderLevel == Some(dto.reorderLevel.GetOr(10))
    ensures d.active == Some(true)
    ensures d.taxable == Some(dto.taxable.GetOr(true))
    ensures d.(sku := dto.sku, stockQuantity := dto.stockQuantity, reorderLevel := dto.reorderLevel,
               active := dto.active, taxable := dto.taxable) == dto
  {
    dto.(sku := Some(if dto.sku.Some? then dto.sku.value else GeneratedSku(clock)),
         stockQuantity := Some(dto.stockQuantity.GetOr(0)),
         reorderLevel := Some(dto.reorderLevel.GetOr(10)),
         active := Some(true),
         taxable := Some(dto.taxable.GetOr(true)))
  }

  /** What `createProduct` stores, or why it fails: a given SKU already in use
      is a bad request; then the row is saved, which refuses a missing name,
      category or price and a generated SKU that collides. */
  function CreateOutcome(t: Products, dto: ProductData, clock: nat): (r: Result<ProductRow>)
    ensures dto.sku.Some? && SkuPresent(t, dto.sku.value) ==> r.Err? && r.error.BadRequest?
    ensures r.Ok? <==>
      !SkuPresent(t, if dto.sku.Some? then dto.sku.value else GeneratedSku(clock)) &&
      dto.name.Some? && dto.category.Some? && dto.unitPrice.Some?
    ensures r.Ok? ==>
      r.value.sku == (if dto.sku.Some? then dto.sku.value else GeneratedSku(clock)) &&
      r.value.stockQuantity == dto.stockQuantity.GetOr(0) &&
      r.value.reorderLevel == dto.reorderLevel.GetOr(10) &&
      r.value.taxable == dto.taxable.GetOr(true) &&
      r.value.active &&
      r.value.name == dto.name.value && r.value.category == dto.category.value &&
      r.value.unitPrice == dto.unitPrice.value && r.value.description == dto.description &&
      r.value.barcode == dto.barcode && r.value.brand == dto.brand
    ensures r.Ok? ==>
      r.value.subCategory == dto.subCategory && r.value.costPrice == dto.costPrice &&
      r.value.maxStockLevel == dto.maxStockLevel && r.value.unit == dto.unit &&
      r.value.supplier == dto.supplier && r.value.imageUrl == dto.imageUrl &&
      r.value.taxRate == dto.taxRate && r.value.discountPercent == dto.discountPercent
    ensures r.Ok? ==> Nullable(r.value) == WithDefaults(Draft(dto, clock))
  {
    if dto.sku.Some? && SkuPresent(t, dto.sku.value) then
      Err(BadRequest("Product with SKU already exists: " + dto.sku.value))
    else
      match ToRow(WithDefaults(Draft(dto, clock)))
      case Err(e) => Err(e)
      case Ok(row) => if SkuPresent(t, row.sku) then Err(UniqueViolation) else Ok(row)
  }

  /** What `updateProduct` makes of a stored row: sixteen columns are overwritten
      from the DTO, nulls included, and the save refuses a null where the
      column is required. */
  function UpdateOutcome(p: ProductRow, dto: ProductData): (r: Result<ProductRow>)
    ensures r.Ok? <==>
      dto.name.Some? && dto.category.Some? && dto.unitPrice.Some? &&
      dto.reorderLevel.Some? && dto.taxable.Some?
    ensures r.Err? ==> r.error == NotNullViolation
    ensures r.Ok? ==>
      r.value.sku == p.sku && r.value.stockQuantity == p.stockQuantity && r.value.active == p.active
    ensures r.Ok? ==>
      r.value == p.(name := dto.name.value, description := dto.description,
        category := dto.category.value, subCategory := dto.subCategory, brand := dto.brand,
        unitPrice := dto.unitPrice.value, costPrice := dto.costPrice,
        reorderLevel := dto.reorderLevel.value, maxStockLevel := dto.maxStockLevel,
        unit := dto.unit, barcode := dto.barcode, supplier := dto.supplier,
        imageUrl := dto.imageUrl, taxable := dto.taxable.value, taxRate := dto.taxRate,
        discountPercent := dto.discountPercent)
  {
    ToRow(Nullable(p).(name := dto.name, description := dto.description,
      category := dto.category, subCategory := dto.subCategory, brand := dto.brand,
      unitPrice := dto.unitPrice, costPrice := dto.costPrice, reorderLevel := dto.reorderLevel,
      maxStockLevel := dto.maxStockLevel, unit := dto.unit, barcode := dto.barcode,
      supplier := dto.supplier, imageUrl := dto.imageUrl, taxable := dto.taxable,
      taxRate := dto.taxRate, discountPercent := dto.discountPercent))
  }

  /** A successful creation keeps the SKUs unique. */
  lemma CreateKeepsSkusUnique(t: Products, dto: ProductData, clock: nat, id: int)
    requires SkusUnique(t) && id !in t
    requires CreateOutcome(t, dto, clock).Ok?
    ensures SkusUnique(t[id := CreateOutcome(t, dto, clock).value])
  {
    var row := CreateOutcome(t, dto, clock).value;
    assert !SkuPresent(t, row.sku);
  }

  class ProductService {
    var products: Products
    var nextId: int

    /** SKUs stay unique, and the identity column hands out keys above every
        key in use. */
    ghost predicate Valid()
      reads this
    {
      SkusUnique(products) && forall id :: id in products ==> id < nextId
    }

    constructor ()
      ensures Valid() && products == map[]
    {
      products := map[];
      nextId := 1;
    }

    /** `getAllProducts`: the active products. */
    function GetAllProducts(): (r: Products)
      reads this
      ensures SelectionOf(r, products)
      ensures forall id :: id in r <==> id in products && products[id].active
    {
      FindByActiveTrue(products)
    }

    /** `getProductById`. */
    function GetProductById(id: int): (r: Result<ProductRow>)
      reads this
      ensures r.Ok? <==> id in products
      ensures r.Ok? ==> r.value == products[id]
      ensures r.Err? ==> r.error.NotFound?
    {
      if id in products then Ok(products[id]) else Err(NotFound("Product"))
    }

    /** `getProductBySku`: the row with that SKU, or not-found. */
    method GetProductBySku(sku: string) returns (r: Result<ProductRow>)
      requires Valid()
      ensures r.Ok? <==> FindBySku(products, sku).Ok? && FindBySku(products, sku).value.Some?
      ensures r.Ok? ==> r.value == products[FindBySku(products, sku).value.value] && r.value.sku == sku
      ensures r.Err? ==> r.error.NotFound?
    {
      FindBySkuUnique(products, sku);
      if id :| id in products && products[id].sku == sku {
        r := Ok(products[id]);
      } else {
        r := Err(NotFound("Product with SKU: " + sku));
      }
    }

    /** `getProductByBarcode`: barcodes are not unique, so two products sharing
        one make the lookup fail. */
    method GetProductByBarcode(barcode: string) returns (r: Result<ProductRow>)
      ensures match FindByBarcode(products, barcode)
        case Ok(None) => r.Err? && r.error.NotFound?
        case Ok(Some(id)) => r == Ok(products[id])
        case Err(e) => r == Err(e)
    {
      if id :| id in products && products[id].barcode == Some(barcode) {
        if j :| j in products && j != id && products[j].barcode == Some(barcode) {
          r := Err(NonUniqueResult);
        } else {
          r := Ok(products[id]);
        }
      } else {
        r := Err(NotFound("Product with barcode: " + barcode));
      }
    }

    /** `getProductsByCategory`: active products of that category. */
    function GetProductsByCategory(category: string): (r: Products)
      reads this
      ensures SelectionOf(r, products)
      ensures forall id :: id in r <==> id in products && products[id].active && products[id].category == category
    {
      FindByCategoryAndActiveTrue(products, category)
    }

    /** `searchProducts`: active products whose name or description contains
        the keyword, case ignored. */
    function SearchProducts(keyword: string): (r: Products)
      reads this
      ensures SelectionOf(r, products)
      ensures forall id :: id in products ==> (id in r <==>
        products[id].active &&
        (ContainsIgnoringCase(Some(products[id].name), keyword) || ContainsIgnoringCase(products[id].description, keyword)))
      ensures SelectionOf(r, FindByActiveTrue(products))
      ensures keyword == "" ==> r == FindByActiveTrue(products)
    {
      SearchWithinActive(products, keyword);
      SearchEmptyKeyword(products);
      SearchByKeyword(products, keyword)
    }

    /** `getLowStockProducts`. */
    function GetLowStockProducts(): (r: Products)
      reads this
      ensures SelectionOf(r, products)
      ensures forall id :: id in r <==>
        id in products && products[id].active && products[id].stockQuantity <= products[id].reorderLevel
    {
      FindLowStockProducts(products)
    }

    /** `getOutOfStockProducts`. */
    function GetOutOfStockProducts(): (r: Products)
      reads this
      ensures SelectionOf(r, products)
      ensures forall id :: id in r <==> id in products && products[id].active && products[id].stockQuantity == 0
    {
      FindOutOfStockProducts(products)
    }

    /** `getAllCategories`. */
    function GetAllCategories(): (r: set<string>)
      reads this
      ensures forall id :: id in products && products[id].active ==> products[id].category in r
      ensures forall c :: c in r ==> exists id :: id in products && products[id].active && products[id].category == c
    {
      FindAllCategories(products)
    }

    /** `getAllBrands`. */
    function GetAllBrands(): (r: set<string>)
      reads this
      ensures forall id :: id in products && products[id].active && products[id].brand.Some? ==>
        products[id].brand.value in r
      ensures forall b :: b in r ==> exists id :: id in products && products[id].active && products[id].brand == Some(b)
    {
      FindAllBrands(products)
    }

    /** `createProduct`: inserts the new row under a fresh key, or changes nothing. */
    method CreateProduct(dto: ProductData, clock: nat) returns (r: Result<int>)
      requires Valid()
      modifies this
      ensures Valid()
      ensures match CreateOutcome(old(products), dto, clock)
        case Ok(row) =>
          r == Ok(old(nextId)) && old(nextId) !in old(products) &&
          products == old(products)[old(nextId) := row] && nextId == old(nextId) + 1
        case Err(e) => r == Err(e) && products == old(products) && nextId == old(nextId)
    {
      if dto.sku.Some? && SkuPresent(products, dto.sku.value) {
        return Err(BadRequest("Product with SKU already exists: " + dto.sku.value));
      }
      var product := new Product(Draft(dto, clock));
      product.OnCreate();
      match ToRow(product.Data())
      case Err(e) =>
        r := Err(e);
      case Ok(row) =>
        if SkuPresent(products, row.sku) {
          r := Err(UniqueViolation);
        } else {
          CreateKeepsSkusUnique(products, dto, clock, nextId);
          products := products[nextId := row];
          r := Ok(nextId);
          nextId := nextId + 1;
        }
    }

    /** `updateProduct`: overwrites the descriptive columns of one row. */
    method UpdateProduct(id: int, dto: ProductData) returns (r: Result<ProductRow>)
      requires Valid()
      modifies this
      ensures Valid() && nextId == old(nextId)
      ensures id !in old(products) ==> r.Err? && r.error.NotFound? && products == old(products)
      ensures id in old(products) ==> r == UpdateOutcome(old(products)[id], dto)
      ensures r.Ok? ==> products == old(products)[id := r.value]
      ensures r.Err? ==> products == old(products)
    {
      if id !in products {
        return Err(NotFound("Product"));
      }
      r := UpdateOutcome(products[id], dto);
      if r.Ok? {
        products := products[id := r.value];
      }
    }

    /** `updateStock`: adds or removes stock, refusing a negative result. */
    method UpdateStock(id: int, quantity: Int32, isAddition: bool) returns (r: Result<ProductRow>)
      requires Valid()
      modifies this
      ensures Valid() && nextId == old(nextId)
      ensures id !in old(products) ==> r.Err? && r.error.NotFound? && products == old(products)
      ensures id in old(products) ==>
        match StockAfter(old(products)[id].stockQuantity, quantity, isAddition)
        case Ok(n) =>
          r == Ok(old(products)[id].(stockQuantity := n)) && products == old(products)[id := r.value]
        case Err(e) => r == Err(e) && products == old(products)
      ensures r.Ok? ==> r.value.stockQuantity >= 0
    {
      if id !in products {
        return Err(NotFound("Product"));
      }
      var product := products[id];
      match StockAfter(product.stockQuantity, quantity, isAddition)
      case Err(e) =>
        r := Err(e);
      case Ok(newStock) =>
        r := Ok(product.(stockQuantity := newStock));
        products := products[id := r.value];
    }

    /** `deleteProduct`: a soft delete that keeps the row and clears `active`. */
    method DeleteProduct(id: int) returns (o: Outcome)
      requires Valid()
      modifies this
      ensures Valid() && nextId == old(nextId)
      ensures id !in old(products) ==> o.Fail? && o.error.NotFound? && products == old(products)
      ensures id in old(products) ==>
        o == Done && products == old(products)[id := old(products)[id].(active := false)]
    {
      if id !in products {
        return Fail(NotFound("Product"));
      }
      products := products[id := products[id].(active := false)];
      o := Done;
    }
  }
}
