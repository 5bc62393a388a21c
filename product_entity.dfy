/** The pharmacy's retail product (`products` table): the persisted row, the
    nullable shape the entity object and the DTO share, and the `@PrePersist`
    hook that fills defaults before the first insert. */
module ProductEntity {
  import opened Wrappers
  import opened JavaInt

  /** Every column as the Java object holds it: any field may be null. The
      same shape carries a `ProductDTO` into the service. */
  datatype ProductData = ProductData(
    name: Option<string>,
    sku: Option<string>,
    description: Option<string>,
    category: Option<string>,
    subCategory: Option<string>,
    brand: Option<string>,
    unitPrice: Option<real>,
    costPrice: Option<real>,
    stockQuantity: Option<Int32>,
    reorderLevel: Option<Int32>,
    maxStockLevel: Option<Int32>,
    unit: Option<string>,
    barcode: Option<string>,
    supplier: Option<string>,
    imageUrl: Option<string>,
    active: Option<bool>,
    taxable: Option<bool>,
    taxRate: Option<real>,
    discountPercent: Option<real>)

  /** A stored row: the `nullable = false` columns hold a value. */
  datatype ProductRow = ProductRow(
    name: string,
    sku: string,
    description: Option<string>,
    category: string,
    subCategory: Option<string>,
    brand: Option<string>,
    unitPrice: real,
    costPrice: Option<real>,
    stockQuantity: Int32,
    reorderLevel: Int32,
    maxStockLevel: Option<Int32>,
    unit: Option<string>,
    barcode: Option<string>,
    supplier: Option<string>,
    imageUrl: Option<string>,
    active: bool,
    taxable: bool,
    taxRate: Option<real>,
    discountPercent: Option<real>)

  /** A row read back into the nullable shape. */
  function Nullable(p: ProductRow): (d: ProductData)
    ensures d.name.Some? && d.sku.Some? && d.category.Some? && d.unitPrice.Some?
    ensures d.stockQuantity.Some? && d.reorderLevel.Some? && d.active.Some? && d.taxable.Some?
  {
    ProductData(Some(p.name), Some(p.sku), p.description, Some(p.category), p.subCategory,
      p.brand, Some(p.unitPrice), p.costPrice, Some(p.stockQuantity), Some(p.reorderLevel),
      p.maxStockLevel, p.unit, p.barcode, p.supplier, p.imageUrl, Some(p.active),
      Some(p.taxable), p.taxRate, p.discountPercent)
  }

  /** The columns declared `nullable = false` all hold a value. */
  predicate RequiredPresent(d: ProductData) {
    d.name.Some? && d.sku.Some? && d.category.Some? && d.unitPrice.Some? &&
    d.stockQuantity.Some? && d.reorderLevel.Some? && d.active.Some? && d.taxable.Some?
  }

  /** Saving the object: a null in a non-null column is refused. */
  function ToRow(d: ProductData): (r: Result<ProductRow>)
    ensures r.Ok? <==> RequiredPresent(d)
    ensures r.Err? ==> r.error == NotNullViolation
    ensures r.Ok? ==> Nullable(r.value) == d
  {
    if RequiredPresent(d) then
      Ok(ProductRow(d.name.value, d.sku.value, d.description, d.category.value, d.subCategory,
        d.brand, d.unitPrice.value, d.costPrice, d.stockQuantity.value, d.reorderLevel.value,
        d.maxStockLevel, d.unit, d.barcode, d.supplier, d.imageUrl, d.active.value,
        d.taxable.value, d.taxRate, d.discountPercent))
    else Err(NotNullViolation)
  }

  /** Reading a row back and saving it again gives the same row. */
  lemma ToRowNullable(p: ProductRow)
    ensures ToRow(Nullable(p)) == Ok(p)
  {
  }

  /** What `onCreate` leaves: `active` and `taxable` default to true, stock to 0
      and the reorder level to 10, each only where the field is null. */
  function WithDefaults(d: ProductData): (r: ProductData)
    ensures r.active == (if d.active.Some? then d.active else Some(true))
    ensures r.taxable == (if d.taxable.Some? then d.taxable else Some(true))
    ensures r.stockQuantity == (if d.stockQuantity.Some? then d.stockQuantity else Some(0))
    ensures r.reorderLevel == (if d.reorderLevel.Some? then d.reorderLevel else Some(10))
    ensures r.(active := d.active, taxable := d.taxable, stockQuantity := d.stockQuantity,
               reorderLevel := d.reorderLevel) == d
  {
    d.(active := Some(d.active.GetOr(true)), taxable := Some(d.taxable.GetOr(true)),
       stockQuantity := Some(d.stockQuantity.GetOr(0)), reorderLevel := Some(d.reorderLevel.GetOr(10)))
  }

  /** Defaults never overwrite a value, so applying them twice changes nothing more. */
  lemma WithDefaultsIdempotent(d: ProductData)
    ensures WithDefaults(WithDefaults(d)) == WithDefaults(d)
  {
  }

  /** Unique constraint on `sku`: no two rows share one. */
  predicate SkusUnique(t: map<int, ProductRow>) {
    forall i, j :: i in t && j in t && t[i].sku == t[j].sku ==> i == j
  }

  /** The Java object before its first save. */
  class Product {
    var name: Option<string>
    var sku: Option<string>
    var description: Option<string>
    var category: Option<string>
    var subCategory: Option<string>
    var brand: Option<string>
    var unitPrice: Option<real>
    var costPrice: Option<real>
    var stockQuantity: Option<Int32>
    var reorderLevel: Option<Int32>
    var maxStockLevel: Option<Int32>
    var unit: Option<string>
    var barcode: Option<string>
    var supplier: Option<string>
    var imageUrl: Option<string>
    var active: Option<bool>
    var taxable: Option<bool>
    var taxRate: Option<real>
    var discountPercent: Option<real>

    function Data(): ProductData
      reads this
    {
      ProductData(name, sku, description, category, subCategory, brand, unitPrice, costPrice,
        stockQuantity, reorderLevel, maxStockLevel, unit, barcode, supplier, imageUrl, active,
        taxable, taxRate, discountPercent)
    }

    /** The Lombok builder: every field as given. */
    constructor (d: ProductData)
      ensures Data() == d
    {
      name, sku, description, category := d.name, d.sku, d.description, d.category;
      subCategory, brand, unitPrice, costPrice := d.subCategory, d.brand, d.unitPrice, d.costPrice;
      stockQuantity, reorderLevel, maxStockLevel := d.stockQuantity, d.reorderLevel, d.maxStockLevel;
      unit, barcode, supplier, imageUrl := d.unit, d.barcode, d.supplier, d.imageUrl;
      active, taxable, taxRate, discountPercent := d.active, d.taxable, d.taxRate, d.discountPercent;
    }

    /** `@PrePersist onCreate`: fills the four defaults where null. */
    method OnCreate()
      modifies this
      ensures Data() == WithDefaults(old(Data()))
    {
      if active.None? { active := Some(true); }
      if taxable.None? { taxable := Some(true); }
      if stockQuantity.None? { stockQuantity := Some(0); }
      if reorderLevel.None? { reorderLevel := Some(10); }
    }
  }
}
