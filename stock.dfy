/** The stock adjustment shared by `ProductService.updateStock` and
    `DrugService.updateStock`: `int` arithmetic on the current quantity, then
    a refusal of any negative result. */
module Stock {
  import opened Wrappers
  import opened JavaInt
  import opened Ascii

  /** The new stock level, computed in Java `int` (so it wraps on overflow), or
      `BadRequest` when it is negative. */
  function StockAfter(current: Int32, quantity: Int32, isAddition: bool): (r: Result<Int32>)
    ensures r.Ok? ==> r.value >= 0
    ensures r.Ok? ==> r.value == Wrap32(if isAddition then current + quantity else current - quantity)
    ensures r.Err? ==> r.error == BadRequest("Insufficient stock. Available: " + IntToDecimal(current))
    ensures var exact := if isAddition then current + quantity else current - quantity;
      MIN_INT <= exact <= MAX_INT ==> (r.Ok? <==> exact >= 0) && (r.Ok? ==> r.value == exact)
  {
    var newStock := Wrap32(if isAddition then current + quantity else current - quantity);
    if newStock < 0 then Err(BadRequest("Insufficient stock. Available: " + IntToDecimal(current))) else Ok(newStock)
  }

  /** Starting from a non-negative stock, an accepted adjustment never wrapped:
      the new level is exactly the old one plus or minus the quantity. */
  lemma AcceptedIsExact(current: Int32, quantity: Int32, isAddition: bool)
    requires current >= 0
    requires StockAfter(current, quantity, isAddition).Ok?
    ensures StockAfter(current, quantity, isAddition).value ==
      if isAddition then current + quantity else current - quantity
  {
  }
}
