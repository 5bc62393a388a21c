/** The pharmacy's drug (`drugs` table), the row prescriptions draw stock from,
    and the DTO the drug endpoints exchange. Dates are day numbers. */
module DrugEntity {
  import opened Wrappers
  import opened JavaInt

  /** A stored drug. `name`, `unitPrice`, `stockQuantity`, `reorderLevel` and
      `requiresPrescription` are `nullable = false`; `active` may be null. */
  datatype DrugRow = DrugRow(
    name: string,
    genericName: Option<string>,
    sku: Option<string>,
    manufacturer: Option<string>,
    category: Option<string>,
    description: Option<string>,
    unitPrice: real,
    stockQuantity: Int32,
    reorderLevel: Int32,
    expiryDate: Option<int>,
    batchNumber: Option<string>,
    storageConditions: Option<string>,
    requiresPrescription: bool,
    active: Option<bool>)

  /** `DrugDTO` as it arrives; the expiry date is an ISO date text. */
  datatype DrugDto = DrugDto(
    name: Option<string>,
    genericName: Option<string>,
    manufacturer: Option<string>,
    category: Option<string>,
    unitPrice: Option<real>,
    stockQuantity: Option<Int32>,
    reorderLevel: Option<Int32>,
    expiryDate: Option<string>,
    batchNumber: Option<string>)

  /** Unique constraint on the nullable `sku`: no two rows share a non-null one. */
  predicate SkusUnique(t: map<int, DrugRow>) {
    forall i, j :: i in t && j in t && t[i].sku.Some? && t[i].sku == t[j].sku ==> i == j
  }

  /** `t2` differs from `t` at most in stock levels. */
  predicate SameExceptStock(t: map<int, DrugRow>, t2: map<int, DrugRow>) {
    t.Keys == t2.Keys &&
    forall id :: id in t ==> t2[id] == t[id].(stockQuantity := t2[id].stockQuantity)
  }

  /** Changing only stock levels keeps the SKUs unique. */
  lemma SameExceptStockKeepsSkus(t: map<int, DrugRow>, t2: map<int, DrugRow>)
    requires SkusUnique(t) && SameExceptStock(t, t2)
    ensures SkusUnique(t2)
  {
    forall i, j | i in t2 && j in t2 && t2[i].sku.Some? && t2[i].sku == t2[j].sku
      ensures i == j
    {
      assert t[i].sku == t2[i].sku && t[j].sku == t2[j].sku;
    }
  }
}
