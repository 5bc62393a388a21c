/** A prescription and its lines (`prescriptions`, `prescription_items`): the
    stored rows, and the Java objects `createPrescription` assembles before the
    cascading insert, with their `@PrePersist` defaults and `addItem`. */
module PrescriptionEntity {
  import opened Wrappers
  import opened JavaInt
  import opened Ascii

  datatype Status = PENDING | DISPENSED | PARTIALLY_DISPENSED | CANCELLED | EXPIRED

  /** A stored line. The item's own `@PrePersist` gives `dispensed` false and
      `dispensedQuantity` 0 on insert, so a stored line always holds both. */
  datatype ItemRow = ItemRow(
    drugId: int,
    quantity: Int32,
    dosage: Option<string>,
    frequency: Option<string>,
    durationDays: Option<Int32>,
    instructions: Option<string>,
    dispensedQuantity: Int32,
    dispensed: bool)

  /** A stored prescription; `prescribedAt` and `dispensedAt` are instants in
      seconds, both nullable columns. */
  datatype PrescriptionRow = PrescriptionRow(
    prescriptionNumber: string,
    patientId: int,
    doctorId: int,
    doctorName: Option<string>,
    items: seq<ItemRow>,
    status: Status,
    notes: Option<string>,
    prescribedAt: Option<int>,
    dispensedAt: Option<int>)

  /** The fields a line object is built with; `quantity` may still be null. */
  datatype ItemDraft = ItemDraft(
    drugId: int,
    quantity: Option<Int32>,
    dosage: Option<string>,
    frequency: Option<string>,
    durationDays: Option<Int32>,
    instructions: Option<string>)

  /** Unique constraint on `prescriptionNumber`. */
  predicate NumbersUnique(t: map<int, PrescriptionRow>) {
    forall i, j :: i in t && j in t && t[i].prescriptionNumber == t[j].prescriptionNumber ==> i == j
  }

  /** The number `onCreate` makes up: "RX-" and the clock reading. */
  function GeneratedNumber(clock: nat): (s: string)
    ensures |s| > 3 && s[..3] == "RX-"
  {
    "RX-" + NatToDecimal(clock)
  }

  /** Inserting the lines: `quantity` is `nullable = false`; the rest of each
      line is kept, with the insert-time defaults. */
  function ItemRows(ds: seq<ItemDraft>): (r: Result<seq<ItemRow>>)
    ensures r.Ok? <==> forall k :: 0 <= k < |ds| ==> ds[k].quantity.Some?
    ensures r.Err? ==> r.error == NotNullViolation
    ensures r.Ok? ==> |r.value| == |ds| && forall k :: 0 <= k < |ds| ==>
      r.value[k] == ItemRow(ds[k].drugId, ds[k].quantity.value, ds[k].dosage, ds[k].frequency,
        ds[k].durationDays, ds[k].instructions, 0, false)
  {
    if forall k :: 0 <= k < |ds| ==> ds[k].quantity.Some? then
      Ok(seq(|ds|, k requires 0 <= k < |ds| =>
        ItemRow(ds[k].drugId, ds[k].quantity.value, ds[k].dosage, ds[k].frequency,
          ds[k].durationDays, ds[k].instructions, 0, false)))
    else Err(NotNullViolation)
  }

  /** Inserting a prescription: its number, patient, doctor and status are
      `nullable = false`, and so is each line's quantity. */
  function RowOf(number: Option<string>, patientId: Option<int>, doctorId: Option<int>,
                 doctorName: Option<string>, drafts: seq<ItemDraft>, status: Option<Status>,
                 notes: Option<string>, prescribedAt: Option<int>, dispensedAt: Option<int>)
    : (r: Result<PrescriptionRow>)
    ensures r.Ok? <==>
      number.Some? && patientId.Some? && doctorId.Some? && status.Some? && ItemRows(drafts).Ok?
    ensures r.Err? ==> r.error == NotNullViolation
    ensures r.Ok? ==>
      r.value.prescriptionNumber == number.value && r.value.patientId == patientId.value &&
      r.value.doctorId == doctorId.value && r.value.status == status.value &&
      r.value.items == ItemRows(drafts).value && r.value.doctorName == doctorName &&
      r.value.notes == notes && r.value.prescribedAt == prescribedAt && r.value.dispensedAt == dispensedAt
  {
    if number.None? || patientId.None? || doctorId.None? || status.None? then Err(NotNullViolation)
    else
      match ItemRows(drafts)
      case Err(e) => Err(e)
      case Ok(rows) => Ok(PrescriptionRow(number.value, patientId.value, doctorId.value,
        doctorName, rows, status.value, notes, prescribedAt, dispensedAt))
  }

  /** A line object before the insert. */
  class PrescriptionItem {
    const draft: ItemDraft
    var prescription: Prescription?

    constructor (d: ItemDraft)
      ensures draft == d && prescription == null
    {
      draft := d;
      prescription := null;
    }
  }

  /** A prescription object before the insert. */
  class Prescription {
    var prescriptionNumber: Option<string>
    var patientId: Option<int>
    var doctorId: Option<int>
    var doctorName: Option<string>
    var items: seq<PrescriptionItem>
    var status: Option<Status>
    var notes: Option<string>
    var prescribedAt: Option<int>
    var dispensedAt: Option<int>

    /** The line contents, in list order. */
    function Drafts(): (ds: seq<ItemDraft>)
      reads this`items
      ensures |ds| == |items| && forall k :: 0 <= k < |items| ==> ds[k] == items[k].draft
    {
      var xs := items;
      seq(|xs|, k requires 0 <= k < |xs| => xs[k].draft)
    }

    function Row(): Result<PrescriptionRow>
      reads this
    {
      RowOf(prescriptionNumber, patientId, doctorId, doctorName, Drafts(), status, notes,
        prescribedAt, dispensedAt)
    }

    /** The Lombok builder: `items` starts as an empty list; the number and
        both instants are unset. */
    constructor (patientId: Option<int>, doctorId: Option<int>, doctorName: Option<string>,
                 notes: Option<string>, status: Option<Status>)
      ensures this.patientId == patientId && this.doctorId == doctorId
      ensures this.doctorName == doctorName && this.notes == notes && this.status == status
      ensures items == [] && prescriptionNumber == None && prescribedAt == None && dispensedAt == None
    {
      this.patientId, this.doctorId, this.doctorName := patientId, doctorId, doctorName;
      this.notes, this.status := notes, status;
      items := [];
      prescriptionNumber := None;
      prescribedAt, dispensedAt := None, None;
    }

    /** `@PrePersist onCreate`: the prescription is stamped with the current
        instant `now` whatever it held; status PENDING and a number made from
        the millisecond clock `clock`, each only where still null. */
    method OnCreate(clock: nat, now: int)
      modifies this
      ensures prescribedAt == Some(now)
      ensures status == Some(old(status).GetOr(PENDING))
      ensures prescriptionNumber == Some(old(prescriptionNumber).GetOr(GeneratedNumber(clock)))
      ensures patientId == old(patientId) && doctorId == old(doctorId) && doctorName == old(doctorName)
      ensures items == old(items) && Drafts() == old(Drafts()) && notes == old(notes)
      ensures dispensedAt == old(dispensedAt)
    {
      prescribedAt := Some(now);
      if status.None? {
        status := Some(PENDING);
      }
      if prescriptionNumber.None? {
        prescriptionNumber := Some(GeneratedNumber(clock));
      }
    }

    /** `addItem`: appends the line and points it back at this prescription. */
    method AddItem(item: PrescriptionItem)
      modifies this`items, item`prescription
      ensures items == old(items) + [item] && item.prescription == this
      ensures Drafts() == old(Drafts()) + [item.draft]
    {
      items := items + [item];
      item.prescription := this;
    }
  }
}
