/** `DrugService`: the drug catalogue. It owns the `drugs` table, which the
    prescription service also reads and updates through the same repository. */
module DrugService {
  import opened Wrappers
  import opened JavaInt
  import opened Ascii
  import opened Store
  import opened Time
  import opened DrugEntity
  import opened DrugRepository
  import opened Stock

  /** The SKU `createDrug` always makes up: "SKU-" and the clock reading. */
  function GeneratedSku(clock: nat): (s: string)
    ensures |s| > 4 && s[..4] == "SKU-"
  {
    "SKU-" + NatToDecimal(clock)
  }

  /** A stored drug already carries the SKU, which the unique constraint on
      `sku` refuses at the insert. */
  predicate SkuPresent(t: Drugs, sku: string) {
    exists id :: id in t && t[id].sku == Some(sku)
  }

  /** `SkuPresent` is the repository finder's answer: some row has the SKU
      exactly when `FindBySku` does not come back empty. */
  lemma SkuPresentIffFound(t: Drugs, sku: string)
    ensures SkuPresent(t, sku) <==> FindBySku(t, sku) != Ok(None)
  {
  }

  /** What `createDrug` stores: the DTO's fields with a generated SKU, no
      prescription requirement and `active` set. The expiry date is parsed
      while the drug is built, so a text that is no date is refused before
      the insert; nothing defaults the stock or reorder level, so leaving
      either out fails the insert. */
  function CreateOutcome(t: Drugs, dto: DrugDto, clock: nat, parse: string -> Option<int>): (r: Result<DrugRow>)
    ensures ParseDate(dto.expiryDate, parse).Err? ==> r == Err(ParseDate(dto.expiryDate, parse).error)
    ensures r.Ok? <==>
      ParseDate(dto.expiryDate, parse).Ok? && dto.name.Some? && dto.unitPrice.Some? &&
      dto.stockQuantity.Some? && dto.reorderLevel.Some? && !SkuPresent(t, GeneratedSku(clock))
    ensures r.Ok? ==>
      r.value.sku == Some(GeneratedSku(clock)) && !r.value.requiresPrescription &&
      r.value.active == Some(true) && r.value.name == dto.name.value &&
      r.value.stockQuantity == dto.stockQuantity.value &&
      r.value.expiryDate == ParseDate(dto.expiryDate, parse).value
    ensures r.Ok? ==>
      r.value.genericName == dto.genericName && r.value.manufacturer == dto.manufacturer &&
      r.value.category == dto.category && r.value.unitPrice == dto.unitPrice.value &&
      r.value.reorderLevel == dto.reorderLevel.value && r.value.batchNumber == dto.batchNumber &&
      r.value.description.None? && r.value.storageConditions.None?
  {
    match ParseDate(dto.expiryDate, parse)
    case Err(e) => Err(e)
    case Ok(expiry) =>
      if dto.name.None? || dto.unitPrice.None? || dto.stockQuantity.None? || dto.reorderLevel.None? then
        Err(NotNullViolation)
      else if SkuPresent(t, GeneratedSku(clock)) then
        Err(UniqueViolation)
      else
        Ok(DrugRow(dto.name.value, dto.genericName, Some(GeneratedSku(clock)), dto.manufacturer,
          dto.category, None, dto.unitPrice.value, dto.stockQuantity.value, dto.reorderLevel.value,
          expiry, dto.batchNumber, None, false, Some(true)))
  }

  /** What `updateDrug` makes of a row: seven fields are overwritten, nulls
      included; the expiry date only when one is given, and a text that is no
      date is refused. */
  function UpdateOutcome(d: DrugRow, dto: DrugDto, parse: string -> Option<int>): (r: Result<DrugRow>)
    ensures r.Ok? <==>
      ParseDate(dto.expiryDate, parse).Ok? && dto.name.Some? && dto.unitPrice.Some? && dto.reorderLevel.Some?
    ensures r.Err? ==>
      r.error == (if ParseDate(dto.expiryDate, parse).Err? then ParseDate(dto.expiryDate, parse).error
                  else NotNullViolation)
    ensures r.Ok? ==>
      r.value.stockQuantity == d.stockQuantity && r.value.sku == d.sku && r.value.active == d.active
    ensures r.Ok? ==>
      r.value.description == d.description && r.value.storageConditions == d.storageConditions &&
      r.value.requiresPrescription == d.requiresPrescription
    ensures r.Ok? ==>
      r.value.expiryDate == (if dto.expiryDate.Some? then parse(dto.expiryDate.value) else d.expiryDate)
    ensures r.Ok? ==>
      r.value.name == dto.name.value && r.value.genericName == dto.genericName &&
      r.value.manufacturer == dto.manufacturer && r.value.category == dto.category &&
      r.value.unitPrice == dto.unitPrice.value && r.value.reorderLevel == dto.reorderLevel.value &&
      r.value.batchNumber == dto.batchNumber
  {
    match ParseDate(dto.expiryDate, parse)
    case Err(e) => Err(e)
    case Ok(expiry) =>
      if dto.name.None? || dto.unitPrice.None? || dto.reorderLevel.None? then Err(NotNullViolation)
      else
        var updated := d.(name := dto.name.value, genericName := dto.genericName,
          manufacturer := dto.manufacturer, category := dto.category, unitPrice := dto.unitPrice.value,
          reorderLevel := dto.reorderLevel.value, batchNumber := dto.batchNumber);
        Ok(if expiry.Some? then updated.(expiryDate := expiry) else updated)
  }

  class DrugService {
    var drugs: Drugs
    var nextId: int

    ghost predicate Valid()
      reads this
    {
      SkusUnique(drugs) && forall id :: id in drugs ==> id < nextId
    }

    constructor ()
      ensures Valid() && drugs == map[]
    {
      drugs := map[];
      nextId := 1;
    }

    /** `getAllDrugs`: the active drugs. */
    function GetAllDrugs(): (r: Drugs)
      reads this
      ensures SelectionOf(r, drugs)
      ensures forall id :: id in r <==> id in drugs && drugs[id].active == Some(true)
    {
      FindByActiveTrue(drugs)
    }

    /** `getDrugById`. */
    function GetDrugById(id: int): (r: Result<DrugRow>)
      reads this
      ensures r.Ok? <==> id in drugs
      ensures r.Ok? ==> r.value == drugs[id]
      ensures r.Err? ==> r.error.NotFound?
    {
      if id in drugs then Ok(drugs[id]) else Err(NotFound("Drug"))
    }

    /** `searchDrugs`: deleted drugs included. */
    function SearchDrugs(name: string): (r: Drugs)
      reads this
      ensures SelectionOf(r, drugs)
      ensures forall id :: id in drugs ==> (id in r <==>
        ContainsIgnoringCase(Some(drugs[id].name), name) || ContainsIgnoringCase(drugs[id].genericName, name))
    {
      SearchByName(drugs, name)
    }

    /** `getLowStockDrugs`. */
    function GetLowStockDrugs(): (r: Drugs)
      reads this
      ensures SelectionOf(r, GetAllDrugs())
      ensures forall id :: id in drugs ==> (id in r <==>
        drugs[id].active == Some(true) && drugs[id].stockQuantity <= drugs[id].reorderLevel)
    {
      FindLowStockDrugs(drugs)
    }

    /** `getExpiringDrugs(daysAhead)`: active drugs expiring by `today + daysAhead`. */
    function GetExpiringDrugs(today: int, daysAhead: int): (r: Drugs)
      reads this
      ensures SelectionOf(r, GetAllDrugs())
      ensures forall id :: id in drugs ==> (id in r <==>
        drugs[id].active == Some(true) && drugs[id].expiryDate.Some? &&
        drugs[id].expiryDate.value <= today + daysAhead)
    {
      FindExpiringDrugs(drugs, today + daysAhead)
    }

    /** `createDrug`. */
    method CreateDrug(dto: DrugDto, clock: nat, parse: string -> Option<int>) returns (r: Result<int>)
      requires Valid()
      modifies this
      ensures Valid()
      ensures match CreateOutcome(old(drugs), dto, clock, parse)
        case Ok(row) =>
          r == Ok(old(nextId)) && old(nextId) !in old(drugs) &&
          drugs == old(drugs)[old(nextId) := row] && nextId == old(nextId) + 1
        case Err(e) => r == Err(e) && drugs == old(drugs) && nextId == old(nextId)
    {
      match CreateOutcome(drugs, dto, clock, parse)
      case Err(e) =>
        r := Err(e);
      case Ok(row) =>
        drugs := drugs[nextId := row];
        r := Ok(nextId);
        nextId := nextId + 1;
    }

    /** `updateDrug`. */
    method UpdateDrug(id: int, dto: DrugDto, parse: string -> Option<int>) returns (r: Result<DrugRow>)
      requires Valid()
      modifies this
      ensures Valid() && nextId == old(nextId)
      ensures id !in old(drugs) ==> r.Err? && r.error.NotFound? && drugs == old(drugs)
      ensures id in old(drugs) ==> r == UpdateOutcome(old(drugs)[id], dto, parse)
      ensures r.Ok? ==> drugs == old(drugs)[id := r.value]
      ensures r.Err? ==> drugs == old(drugs)
    {
      if id !in drugs {
        return Err(NotFound("Drug"));
      }
      r := UpdateOutcome(drugs[id], dto, parse);
      if r.Ok? {
        drugs := drugs[id := r.value];
      }
    }

    /** `updateStock`: adds or removes stock, refusing a negative result. */
    method UpdateStock(id: int, quantity: Int32, isAddition: bool) returns (r: Result<DrugRow>)
      requires Valid()
      modifies this
      ensures Valid() && nextId == old(nextId)
      ensures id !in old(drugs) ==> r.Err? && r.error.NotFound? && drugs == old(drugs)
      ensures id in old(drugs) ==>
        match StockAfter(old(drugs)[id].stockQuantity, quantity, isAddition)
        case Ok(n) => r == Ok(old(drugs)[id].(stockQuantity := n)) && drugs == old(drugs)[id := r.value]
        case Err(e) => r == Err(e) && drugs == old(drugs)
      ensures r.Ok? ==> r.value.stockQuantity >= 0
    {
      if id !in drugs {
        return Err(NotFound("Drug"));
      }
      var drug := drugs[id];
      match StockAfter(drug.stockQuantity, quantity, isAddition)
      case Err(e) =>
        r := Err(e);
      case Ok(newStock) =>
        r := Ok(drug.(stockQuantity := newStock));
        drugs := drugs[id := r.value];
    }

    /** `deleteDrug`: a soft delete that keeps the row. */
    method DeleteDrug(id: int) returns (o: Outcome)
      requires Valid()
      modifies this
      ensures Valid() && nextId == old(nextId)
      ensures id !in old(drugs) ==> o.Fail? && o.error.NotFound? && drugs == old(drugs)
      ensures id in old(drugs) ==>
        o == Done && drugs == old(drugs)[id := old(drugs)[id].(active := Some(false))]
    {
      if id !in drugs {
        return Fail(NotFound("Drug"));
      }
      drugs := drugs[id := drugs[id].(active := Some(false))];
      o := Done;
    }
  }
}
