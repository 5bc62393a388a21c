/** `PrescriptionService`: writing prescriptions against the drug catalogue and
    dispensing them from stock. Each operation is one transaction: when it
    fails, neither the prescriptions nor the drug stock change. */
module PrescriptionService {
  import opened Wrappers
  import opened JavaInt
  import opened Store
  import opened DrugEntity
  import opened DrugRepository
  import DrugService
  import opened PrescriptionEntity
  import opened PrescriptionRepository

  /** A `PrescriptionItemDTO` as it arrives. */
  datatype ItemDto = ItemDto(
    drugId: Option<int>,
    quantity: Option<Int32>,
    dosage: Option<string>,
    frequency: Option<string>,
    durationDays: Option<Int32>,
    instructions: Option<string>)

  /** A `PrescriptionDTO` as it arrives; its status is ignored on creation. */
  datatype PrescriptionDto = PrescriptionDto(
    patientId: Option<int>,
    doctorId: Option<int>,
    doctorName: Option<string>,
    notes: Option<string>,
    items: Option<seq<ItemDto>>)

  /** One line of `createPrescription`'s loop: the drug must exist. */
  function LineDraft(line: ItemDto, drugs: Drugs): (r: Result<ItemDraft>)
    ensures r.Ok? <==> line.drugId.Some? && line.drugId.value in drugs
    ensures r.Ok? ==> r.value == ItemDraft(line.drugId.value, line.quantity, line.dosage,
      line.frequency, line.durationDays, line.instructions)
  {
    if line.drugId.None? then Err(NullValue)
    else if line.drugId.value !in drugs then Err(NotFound("Drug"))
    else Ok(ItemDraft(line.drugId.value, line.quantity, line.dosage, line.frequency,
      line.durationDays, line.instructions))
  }

  /** The whole loop: the lines in input order, or the failure of the first
      line that fails. */
  function BuildItems(lines: seq<ItemDto>, drugs: Drugs): (r: Result<seq<ItemDraft>>)
    ensures r.Ok? <==> forall k :: 0 <= k < |lines| ==> LineDraft(lines[k], drugs).Ok?
    ensures r.Ok? ==>
      |r.value| == |lines| &&
      forall k :: 0 <= k < |lines| ==> LineDraft(lines[k], drugs) == Ok(r.value[k])
    ensures r.Err? ==>
      exists k :: 0 <= k < |lines| && LineDraft(lines[k], drugs) == Err(r.error) &&
        forall j :: 0 <= j < k ==> LineDraft(lines[j], drugs).Ok?
    decreases |lines|
  {
    if lines == [] then Ok([])
    else
      var init := lines[..|lines| - 1];
      assert forall k :: 0 <= k < |init| ==> init[k] == lines[k];
      match BuildItems(init, drugs)
      case Err(e) => Err(e)
      case Ok(ds) =>
        match LineDraft(lines[|lines| - 1], drugs)
        case Err(e) => Err(e)
        case Ok(d) => Ok(ds + [d])
  }

  /** The loop's step: one more accepted line extends the list by its draft. */
  lemma BuildItemsStep(lines: seq<ItemDto>, drugs: Drugs, i: int)
    requires 0 <= i < |lines|
    requires BuildItems(lines[..i], drugs).Ok? && LineDraft(lines[i], drugs).Ok?
    ensures BuildItems(lines[..i + 1], drugs) ==
      Ok(BuildItems(lines[..i], drugs).value + [LineDraft(lines[i], drugs).value])
  {
    assert lines[..i + 1][..i] == lines[..i];
    assert lines[..i + 1][i] == lines[i];
  }

  /** The loop's exit on a failing line: that failure is the whole result. */
  lemma BuildItemsFirstError(lines: seq<ItemDto>, drugs: Drugs, i: int)
    requires 0 <= i < |lines|
    requires BuildItems(lines[..i], drugs).Ok? && LineDraft(lines[i], drugs).Err?
    ensures BuildItems(lines, drugs) == Err(LineDraft(lines[i], drugs).error)
  {
    forall j | 0 <= j < i
      ensures LineDraft(lines[j], drugs).Ok?
    {
      assert lines[..i][j] == lines[j];
    }
  }

  predicate NumberPresent(t: Prescriptions, number: string) {
    exists id :: id in t && t[id].prescriptionNumber == number
  }

  /** What `createPrescription` stores, or why it fails: `clock` is the
      millisecond clock the number is made from, `now` the instant `onCreate`
      stamps. */
  function CreateOutcome(t: Prescriptions, drugs: Drugs, dto: PrescriptionDto, clock: nat, now: int)
    : (r: Result<PrescriptionRow>)
    ensures BuildItems(dto.items.GetOr([]), drugs).Err? ==>
      r == Err(BuildItems(dto.items.GetOr([]), drugs).error)
    ensures r.Ok? <==>
      var lines := dto.items.GetOr([]);
      BuildItems(lines, drugs).Ok? && dto.patientId.Some? && dto.doctorId.Some? &&
      (forall k :: 0 <= k < |lines| ==> lines[k].quantity.Some?) &&
      !NumberPresent(t, GeneratedNumber(clock))
    ensures r.Ok? ==>
      var lines := dto.items.GetOr([]);
      r.value.status == PENDING && r.value.prescriptionNumber == GeneratedNumber(clock) &&
      Some(r.value.patientId) == dto.patientId && Some(r.value.doctorId) == dto.doctorId &&
      r.value.doctorName == dto.doctorName && r.value.notes == dto.notes &&
      r.value.prescribedAt == Some(now) && r.value.dispensedAt == None &&
      |r.value.items| == |lines| &&
      forall k :: 0 <= k < |lines| ==>
        r.value.items[k] == ItemRow(lines[k].drugId.value, lines[k].quantity.value, lines[k].dosage,
          lines[k].frequency, lines[k].durationDays, lines[k].instructions, 0, false)
  {
    match BuildItems(dto.items.GetOr([]), drugs)
    case Err(e) => Err(e)
    case Ok(drafts) =>
      match RowOf(Some(GeneratedNumber(clock)), dto.patientId, dto.doctorId, dto.doctorName,
                  drafts, Some(PENDING), dto.notes, Some(now), None)
      case Err(e) => Err(e)
      case Ok(row) => if NumberPresent(t, row.prescriptionNumber) then Err(UniqueViolation) else Ok(row)
  }

  /** The stock after `dispensePrescription`'s loop, taking the lines in order:
      each line first checks the stock its drug has left, then takes its
      quantity from it in `int` arithmetic. */
  function DispenseFrom(items: seq<ItemRow>, drugs: Drugs): (r: Result<Drugs>)
    ensures r.Ok? ==> SameExceptStock(drugs, r.value)
    decreases |items|
  {
    if items == [] then Ok(drugs)
    else
      var item := items[0];
      if item.drugId !in drugs then Err(NotFound("Drug"))
      else
        var drug := drugs[item.drugId];
        if drug.stockQuantity < item.quantity then
          Err(BadRequest("Insufficient stock for drug: " + drug.name))
        else
          DispenseFrom(items[1..],
            drugs[item.drugId := drug.(stockQuantity := Wrap32(drug.stockQuantity - item.quantity))])
  }

  /** The lines as the loop leaves them: dispensed in full. */
  function MarkDispensed(items: seq<ItemRow>): (r: seq<ItemRow>)
    ensures |r| == |items|
    ensures forall k :: 0 <= k < |items| ==>
      r[k] == items[k].(dispensed := true, dispensedQuantity := items[k].quantity)
  {
    seq(|items|, k requires 0 <= k < |items| => items[k].(dispensed := true, dispensedQuantity := items[k].quantity))
  }

  /** Total quantity the lines ask of one drug. */
  function QuantityFor(items: seq<ItemRow>, drugId: int): int
    decreases |items|
  {
    if items == [] then 0
    else (if items[0].drugId == drugId then items[0].quantity else 0) + QuantityFor(items[1..], drugId)
  }

  lemma {:induction false} QuantityForNonNegative(items: seq<ItemRow>, drugId: int)
    requires forall k :: 0 <= k < |items| ==> items[k].quantity >= 0
    ensures QuantityFor(items, drugId) >= 0
    decreases |items|
  {
    if items != [] {
      QuantityForNonNegative(items[1..], drugId);
    }
  }

  /** Every drug a line uses is known and has enough stock for all the lines
      that use it. */
  predicate Covered(items: seq<ItemRow>, drugs: Drugs) {
    forall k :: 0 <= k < |items| ==>
      items[k].drugId in drugs && QuantityFor(items, items[k].drugId) <= drugs[items[k].drugId].stockQuantity
  }

  /** With non-negative quantities, dispensing succeeds exactly when the stock
      covers, for every drug used, the sum of its lines' quantities; then each
      drug loses exactly that sum, and none used ends below zero. */
  lemma {:induction false} DispenseSucceedsIffCovered(items: seq<ItemRow>, drugs: Drugs)
    requires forall k :: 0 <= k < |items| ==> items[k].quantity >= 0
    ensures DispenseFrom(items, drugs).Ok? <==> Covered(items, drugs)
    ensures DispenseFrom(items, drugs).Ok? ==> forall id :: id in drugs ==>
      DispenseFrom(items, drugs).value[id].stockQuantity == drugs[id].stockQuantity - QuantityFor(items, id)
    decreases |items|
  {
    if items == [] {
      return;
    }
    var item, rest := items[0], items[1..];
    assert forall k :: 1 <= k < |items| ==> items[k] == rest[k - 1];
    var d, q := item.drugId, item.quantity;
    QuantityForNonNegative(rest, d);
    if d !in drugs {
      assert !Covered(items, drugs) by { assert items[0].drugId !in drugs; }
      return;
    }
    var s := drugs[d].stockQuantity;
    assert QuantityFor(items, d) == q + QuantityFor(rest, d);
    if s < q {
      assert !Covered(items, drugs) by {
        assert QuantityFor(items, items[0].drugId) > drugs[items[0].drugId].stockQuantity;
      }
      return;
    }
    var drugs' := drugs[d := drugs[d].(stockQuantity := Wrap32(s - q))];
    assert Wrap32(s - q) == s - q;
    assert DispenseFrom(items, drugs) == DispenseFrom(rest, drugs');
    DispenseSucceedsIffCovered(rest, drugs');
    forall id
      ensures id != d ==> QuantityFor(items, id) == QuantityFor(rest, id)
      ensures id in drugs <==> id in drugs'
    {
    }
    CoveredStep(items, drugs);
  }

  /** Dispensing never leaves a drug it used with negative stock. */
  lemma DispenseLeavesNoNegativeStock(items: seq<ItemRow>, drugs: Drugs)
    requires forall k :: 0 <= k < |items| ==> items[k].quantity >= 0
    ensures DispenseFrom(items, drugs).Ok? ==> forall k :: 0 <= k < |items| ==>
      items[k].drugId in DispenseFrom(items, drugs).value &&
      DispenseFrom(items, drugs).value[items[k].drugId].stockQuantity >= 0
  {
    DispenseSucceedsIffCovered(items, drugs);
    if DispenseFrom(items, drugs).Ok? {
      var after := DispenseFrom(items, drugs).value;
      forall k | 0 <= k < |items|
        ensures items[k].drugId in after && after[items[k].drugId].stockQuantity >= 0
      {
        var e := items[k].drugId;
        assert e in drugs && QuantityFor(items, e) <= drugs[e].stockQuantity;
      }
    }
  }

  /** Once the first line has taken its quantity, what is left to cover is
      the rest of the lines against the lowered stock. */
  lemma CoveredStep(items: seq<ItemRow>, drugs: Drugs)
    requires items != [] && items[0].drugId in drugs
    requires forall k :: 0 <= k < |items| ==> items[k].quantity >= 0
    requires items[0].quantity <= drugs[items[0].drugId].stockQuantity
    ensures var d := items[0].drugId;
      Covered(items, drugs) <==>
      Covered(items[1..], drugs[d := drugs[d].(stockQuantity := drugs[d].stockQuantity - items[0].quantity)])
  {
    var rest, d := items[1..], items[0].drugId;
    var drugs' := drugs[d := drugs[d].(stockQuantity := drugs[d].stockQuantity - items[0].quantity)];
    assert forall k :: 1 <= k < |items| ==> items[k] == rest[k - 1];
    QuantityForNonNegative(rest, d);
    assert QuantityFor(items, d) == items[0].quantity + QuantityFor(rest, d);
    forall id
      ensures id != d ==> QuantityFor(items, id) == QuantityFor(rest, id)
    {
    }
    if Covered(rest, drugs') {
      forall k | 0 <= k < |items|
        ensures items[k].drugId in drugs &&
          QuantityFor(items, items[k].drugId) <= drugs[items[k].drugId].stockQuantity
      {
        if k == 0 {
          if exists j :: 0 <= j < |rest| && rest[j].drugId == d {
            var j :| 0 <= j < |rest| && rest[j].drugId == d;
            assert QuantityFor(rest, rest[j].drugId) <= drugs'[rest[j].drugId].stockQuantity;
          } else {
            QuantityForAbsent(rest, d);
          }
        } else {
          assert items[k] == rest[k - 1];
          assert QuantityFor(rest, rest[k - 1].drugId) <= drugs'[rest[k - 1].drugId].stockQuantity;
        }
      }
    }
    if Covered(items, drugs) {
      forall j | 0 <= j < |rest|
        ensures rest[j].drugId in drugs' &&
          QuantityFor(rest, rest[j].drugId) <= drugs'[rest[j].drugId].stockQuantity
      {
        assert rest[j] == items[j + 1];
        assert QuantityFor(items, items[j + 1].drugId) <= drugs[items[j + 1].drugId].stockQuantity;
      }
    }
  }

  /** A drug no line uses is asked for nothing. */
  lemma {:induction false} QuantityForAbsent(items: seq<ItemRow>, drugId: int)
    requires forall k :: 0 <= k < |items| ==> items[k].drugId != drugId
    ensures QuantityFor(items, drugId) == 0
    decreases |items|
  {
    if items != [] {
      assert forall k :: 0 <= k < |items[1..]| ==> items[1..][k] == items[k + 1];
      QuantityForAbsent(items[1..], drugId);
    }
  }

  /** `dispensePrescription`'s loop over the lines: each line checks and
      lowers its drug's stock, then is marked dispensed in full; the first
      line that fails stops the loop. */
  method DispenseItems(items: seq<ItemRow>, drugs: Drugs) returns (r: Result<Drugs>, marked: seq<ItemRow>)
    ensures r == DispenseFrom(items, drugs)
    ensures r.Ok? ==> marked == MarkDispensed(items)
  {
    var stock := drugs;
    marked := [];
    var i := 0;
    while i < |items|
      invariant 0 <= i <= |items|
      invariant DispenseFrom(items[i..], stock) == DispenseFrom(items, drugs)
      invariant marked == MarkDispensed(items[..i])
    {
      var item := items[i];
      assert items[i..][0] == item && items[i..][1..] == items[i + 1..];
      if item.drugId !in stock {
        return Err(NotFound("Drug")), marked;
      }
      var drug := stock[item.drugId];
      if drug.stockQuantity < item.quantity {
        return Err(BadRequest("Insufficient stock for drug: " + drug.name)), marked;
      }
      stock := stock[item.drugId := drug.(stockQuantity := Wrap32(drug.stockQuantity - item.quantity))];
      marked := marked + [item.(dispensed := true, dispensedQuantity := item.quantity)];
      assert items[..i + 1] == items[..i] + [item];
      i := i + 1;
    }
    assert items[..i] == items && items[i..] == [];
    r := Ok(stock);
  }

  class PrescriptionService {
    var prescriptions: Prescriptions
    var nextId: int
    /** The drug table, shared with `DrugService` through the same repository. */
    const drugService: DrugService.DrugService

    ghost predicate Valid()
      reads this, drugService
    {
      drugService.Valid() && NumbersUnique(prescriptions) &&
      forall id :: id in prescriptions ==> id < nextId
    }

    constructor (drugService: DrugService.DrugService)
      requires drugService.Valid()
      ensures Valid() && this.drugService == drugService && prescriptions == map[]
    {
      this.drugService := drugService;
      prescriptions := map[];
      nextId := 1;
    }

    /** `getAllPrescriptions`. */
    function GetAllPrescriptions(): (r: Prescriptions)
      reads this
      ensures r == prescriptions
    {
      prescriptions
    }

    /** `getPrescriptionById`. */
    function GetPrescriptionById(id: int): (r: Result<PrescriptionRow>)
      reads this
      ensures r.Ok? <==> id in prescriptions
      ensures r.Ok? ==> r.value == prescriptions[id]
      ensures r.Err? ==> r.error.NotFound?
    {
      if id in prescriptions then Ok(prescriptions[id]) else Err(NotFound("Prescription"))
    }

    /** `getPrescriptionsByPatientId`. */
    function GetPrescriptionsByPatientId(patientId: int): (r: Prescriptions)
      reads this
      ensures SelectionOf(r, prescriptions)
      ensures forall id :: id in prescriptions ==> (id in r <==> prescriptions[id].patientId == patientId)
    {
      FindByPatientId(prescriptions, patientId)
    }

    /** `getPendingPrescriptions`. */
    function GetPendingPrescriptions(): (r: Prescriptions)
      reads this
      ensures SelectionOf(r, prescriptions)
      ensures forall id :: id in prescriptions ==> (id in r <==> prescriptions[id].status == PENDING)
    {
      FindByStatus(prescriptions, PENDING)
    }

    /** `createPrescription`: builds the prescription line by line, then inserts
        it with its lines. */
    method CreatePrescription(dto: PrescriptionDto, clock: nat, now: int) returns (r: Result<int>)
      requires Valid()
      modifies this
      ensures Valid()
      ensures match CreateOutcome(old(prescriptions), drugService.drugs, dto, clock, now)
        case Ok(row) =>
          r == Ok(old(nextId)) && old(nextId) !in old(prescriptions) &&
          prescriptions == old(prescriptions)[old(nextId) := row] && nextId == old(nextId) + 1
        case Err(e) => r == Err(e) && prescriptions == old(prescriptions) && nextId == old(nextId)
    {
      var prescription: Prescription := new Prescription(dto.patientId, dto.doctorId, dto.doctorName, dto.notes, Some(PENDING));
      var lines := dto.items.GetOr([]);
      var i := 0;
      while i < |lines|
        invariant 0 <= i <= |lines|
        invariant prescriptions == old(prescriptions) && nextId == old(nextId)
        invariant BuildItems(lines[..i], drugService.drugs).Ok?
        invariant prescription.Drafts() == BuildItems(lines[..i], drugService.drugs).value
        modifies prescription`items
      {
        match LineDraft(lines[i], drugService.drugs)
        case Err(e) =>
          BuildItemsFirstError(lines, drugService.drugs, i);
          return Err(e);
        case Ok(d) =>
          BuildItemsStep(lines, drugService.drugs, i);
          var item := new PrescriptionItem(d);
          prescription.AddItem(item);
          i := i + 1;
      }
      assert lines[..i] == lines;
      ghost var drafts := prescription.Drafts();
      assert BuildItems(lines, drugService.drugs) == Ok(drafts);
      prescription.OnCreate(clock, now);
      assert prescription.Row() == RowOf(Some(GeneratedNumber(clock)), dto.patientId, dto.doctorId,
        dto.doctorName, drafts, Some(PENDING), dto.notes, Some(now), None);
      match prescription.Row()
      case Err(e) =>
        r := Err(e);
      case Ok(row) =>
        if NumberPresent(prescriptions, row.prescriptionNumber) {
          r := Err(UniqueViolation);
        } else {
          prescriptions := prescriptions[nextId := row];
          r := Ok(nextId);
          nextId := nextId + 1;
        }
    }

    /** `dispensePrescription`: refuses a prescription already dispensed (and no
        other status), then takes every line's quantity from stock, marks the
        lines dispensed and the prescription DISPENSED, stamped with the
        current instant `now`. */
    method DispensePrescription(id: int, now: int) returns (r: Result<PrescriptionRow>)
      requires Valid()
      modifies this, drugService
      ensures Valid() && nextId == old(nextId) && drugService.nextId == old(drugService.nextId)
      ensures id !in old(prescriptions) ==>
        r.Err? && r.error.NotFound? &&
        prescriptions == old(prescriptions) && drugService.drugs == old(drugService.drugs)
      ensures id in old(prescriptions) && old(prescriptions)[id].status == DISPENSED ==>
        r == Err(BadRequest("Prescription already dispensed")) &&
        prescriptions == old(prescriptions) && drugService.drugs == old(drugService.drugs)
      ensures id in old(prescriptions) && old(prescriptions)[id].status != DISPENSED ==>
        var p := old(prescriptions)[id];
        match DispenseFrom(p.items, old(drugService.drugs))
        case Ok(after) =>
          drugService.drugs == after &&
          r == Ok(p.(items := MarkDispensed(p.items), status := DISPENSED, dispensedAt := Some(now))) &&
          prescriptions == old(prescriptions)[id := r.value]
        case Err(e) =>
          r == Err(e) && prescriptions == old(prescriptions) && drugService.drugs == old(drugService.drugs)
    {
      if id !in prescriptions {
        return Err(NotFound("Prescription"));
      }
      var p := prescriptions[id];
      if p.status == DISPENSED {
        return Err(BadRequest("Prescription already dispensed"));
      }
      var after, marked := DispenseItems(p.items, drugService.drugs);
      if after.Err? {
        return Err(after.error);
      }
      SameExceptStockKeepsSkus(drugService.drugs, after.value);
      drugService.drugs := after.value;
      r := Ok(p.(items := marked, status := DISPENSED, dispensedAt := Some(now)));
      prescriptions := prescriptions[id := r.value];
    }

    /** `cancelPrescription`: refused once dispensed; any other status becomes
        CANCELLED. */
    method CancelPrescription(id: int) returns (o: Outcome)
      requires Valid()
      modifies this
      ensures Valid() && nextId == old(nextId)
      ensures id !in old(prescriptions) ==> o.Fail? && o.error.NotFound? && prescriptions == old(prescriptions)
      ensures id in old(prescriptions) && old(prescriptions)[id].status == DISPENSED ==>
        o == Fail(BadRequest("Cannot cancel a dispensed prescription")) && prescriptions == old(prescriptions)
      ensures id in old(prescriptions) && old(prescriptions)[id].status != DISPENSED ==>
        o == Done && prescriptions == old(prescriptions)[id := old(prescriptions)[id].(status := CANCELLED)]
    {
      if id !in prescriptions {
        return Fail(NotFound("Prescription"));
      }
      if prescriptions[id].status == DISPENSED {
        return Fail(BadRequest("Cannot cancel a dispensed prescription"));
      }
      prescriptions := prescriptions[id := prescriptions[id].(status := CANCELLED)];
      o := Done;
    }
  }
}
