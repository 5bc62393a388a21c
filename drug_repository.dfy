/** `DrugRepository`: derived finders and JPQL queries over the `drugs` table.
    A JPQL comparison with a null column is not true, so a drug whose `active`
    or `expiryDate` is null never passes a filter on that column. */
module DrugRepository {
  import opened Wrappers
  import opened Store
  import opened Ascii
  import opened DrugEntity

  type Drugs = map<int, DrugRow>

  /** `findBySku`. */
  ghost function FindBySku(t: Drugs, sku: string): (r: Result<Option<int>>)
    ensures r == Ok(None) <==> forall id :: id in t ==> !(t[id].sku == Some(sku))
    ensures r.Ok? && r.value.Some? ==>
      r.value.value in t && t[r.value.value].sku == Some(sku) && forall id :: id in t && t[id].sku == Some(sku) ==> id == r.value.value
    ensures r.Err? ==>
      r.error == NonUniqueResult && exists i, j :: i in t && j in t && i != j && t[i].sku == Some(sku) && t[j].sku == Some(sku)
  {
    FindOne(t, (d: DrugRow) => d.sku == Some(sku))
  }

  /** The unique SKU makes the finder unambiguous. */
  lemma FindBySkuUnique(t: Drugs, sku: string)
    requires SkusUnique(t)
    ensures FindBySku(t, sku).Ok?
  {
  }

  /** `findByCategory`. */
  function FindByCategory(t: Drugs, category: string): (r: Drugs)
    ensures SelectionOf(r, t)
    ensures forall id :: id in t ==> (id in r <==> t[id].category == Some(category))
  {
    Where(t, (d: DrugRow) => d.category == Some(category))
  }

  /** `findByManufacturer`. */
  function FindByManufacturer(t: Drugs, manufacturer: string): (r: Drugs)
    ensures SelectionOf(r, t)
    ensures forall id :: id in t ==> (id in r <==> t[id].manufacturer == Some(manufacturer))
  {
    Where(t, (d: DrugRow) => d.manufacturer == Some(manufacturer))
  }

  /** `searchByName`: name or generic name contains the text, ignoring case.
      Deleted drugs are found too: the query has no `active` condition. */
  function SearchByName(t: Drugs, name: string): (r: Drugs)
    ensures SelectionOf(r, t)
    ensures forall id :: id in t ==> (id in r <==>
      ContainsIgnoringCase(Some(t[id].name), name) || ContainsIgnoringCase(t[id].genericName, name))
  {
    Where(t, (d: DrugRow) => ContainsIgnoringCase(Some(d.name), name) || ContainsIgnoringCase(d.genericName, name))
  }

  /** `findLowStockDrugs`: active drugs at or below their reorder level. */
  function FindLowStockDrugs(t: Drugs): (r: Drugs)
    ensures SelectionOf(r, t)
    ensures forall id :: id in t ==> (id in r <==>
      t[id].stockQuantity <= t[id].reorderLevel && t[id].active == Some(true))
  {
    Where(t, (d: DrugRow) => d.stockQuantity <= d.reorderLevel && d.active == Some(true))
  }

  /** `findExpiringDrugs(date)`: active drugs expiring on or before `date`. */
  function FindExpiringDrugs(t: Drugs, date: int): (r: Drugs)
    ensures SelectionOf(r, t)
    ensures forall id :: id in t ==> (id in r <==>
      t[id].expiryDate.Some? && t[id].expiryDate.value <= date && t[id].active == Some(true))
  {
    Where(t, (d: DrugRow) => d.expiryDate.Some? && d.expiryDate.value <= date && d.active == Some(true))
  }

  /** `findByActiveTrue`: a null `active` counts as not active. */
  function FindByActiveTrue(t: Drugs): (r: Drugs)
    ensures SelectionOf(r, t)
    ensures forall id :: id in t ==> (id in r <==> t[id].active == Some(true))
  {
    Where(t, (d: DrugRow) => d.active == Some(true))
  }

  /** Looking further ahead finds every drug found before, and more. */
  lemma ExpiringMonotone(t: Drugs, d1: int, d2: int)
    requires d1 <= d2
    ensures SelectionOf(FindExpiringDrugs(t, d1), FindExpiringDrugs(t, d2))
  {
  }

  /** The low-stock and expiring lists hold only active drugs. */
  lemma FiltersWithinActive(t: Drugs, date: int)
    ensures SelectionOf(FindLowStockDrugs(t), FindByActiveTrue(t))
    ensures SelectionOf(FindExpiringDrugs(t, date), FindByActiveTrue(t))
  {
  }
}
