/** An invoice and its lines (`invoices`, `invoice_items`): the stored rows, and
    the Java objects `createInvoice` assembles before the cascading insert, with
    their builder defaults, `@PrePersist onCreate` and `addItem`. Amounts are
    `BigDecimal`s, taken as exact reals; instants are seconds. */
module InvoiceEntity {
  import opened Wrappers
  import opened JavaInt
  import opened Ascii

  datatype Status = PENDING | PARTIAL | PAID | OVERDUE | CANCELLED

  function StatusName(s: Status): (n: string)
    ensures NoLowerCase(n)
  {
    match s
    case PENDING => "PENDING"
    case PARTIAL => "PARTIAL"
    case PAID => "PAID"
    case OVERDUE => "OVERDUE"
    case CANCELLED => "CANCELLED"
  }

  /** `Status.valueOf(name.toUpperCase())`: an unknown name is refused. */
  function ParseStatus(name: string): (r: Result<Status>)
    ensures r.Ok? ==> StatusName(r.value) == UpperString(name)
    ensures r.Err? ==> r.error == InvalidEnum(name) && forall s :: StatusName(s) != UpperString(name)
  {
    var u := UpperString(name);
    if u == "PENDING" then Ok(PENDING)
    else if u == "PARTIAL" then Ok(PARTIAL)
    else if u == "PAID" then Ok(PAID)
    else if u == "OVERDUE" then Ok(OVERDUE)
    else if u == "CANCELLED" then Ok(CANCELLED)
    else Err(InvalidEnum(name))
  }

  /** A name is accepted as `s` exactly when it spells `s` in any case; in
      particular the name a status is shown with parses back to it. */
  lemma ParseStatusExactly(name: string, s: Status)
    ensures ParseStatus(name) == Ok(s) <==> UpperString(name) == StatusName(s)
    ensures ParseStatus(StatusName(s)) == Ok(s) && ParseStatus(LowerString(StatusName(s))) == Ok(s)
  {
    UpperOfName(StatusName(s));
  }

  datatype ItemType = CONSULTATION | PROCEDURE | MEDICATION | LAB_TEST | ROOM_CHARGE | OTHER

  /** A stored line. */
  datatype ItemRow = ItemRow(
    description: string,
    itemType: Option<ItemType>,
    quantity: Int32,
    unitPrice: real,
    totalPrice: real)

  /** A stored invoice. `paidAmount` is never null: the builder starts it at
      zero and only `processPayment` changes it. */
  datatype InvoiceRow = InvoiceRow(
    invoiceNumber: string,
    patientId: int,
    appointmentId: Option<int>,
    items: seq<ItemRow>,
    subtotal: Option<real>,
    taxAmount: Option<real>,
    discountAmount: Option<real>,
    totalAmount: real,
    paidAmount: real,
    status: Status,
    notes: Option<string>,
    dueDate: Option<int>,
    paidAt: Option<int>)

  /** The fields a line object is built with; `description` may still be null. */
  datatype ItemDraft = ItemDraft(
    description: Option<string>,
    quantity: Int32,
    unitPrice: real,
    totalPrice: real)

  /** Unique constraint on `invoiceNumber`. */
  predicate NumbersUnique(t: map<int, InvoiceRow>) {
    forall i, j :: i in t && j in t && t[i].invoiceNumber == t[j].invoiceNumber ==> i == j
  }

  /** The number `onCreate` makes up: "INV-" and the clock reading. */
  function GeneratedNumber(clock: nat): (s: string)
    ensures |s| > 4 && s[..4] == "INV-"
  {
    "INV-" + NatToDecimal(clock)
  }

  /** Inserting the lines: `description` is `nullable = false`. The item type
      is never set by `createInvoice`. */
  function ItemRows(ds: seq<ItemDraft>): (r: Result<seq<ItemRow>>)
    ensures r.Ok? <==> forall k :: 0 <= k < |ds| ==> ds[k].description.Some?
    ensures r.Err? ==> r.error == NotNullViolation
    ensures r.Ok? ==> |r.value| == |ds| && forall k :: 0 <= k < |ds| ==>
      r.value[k] == ItemRow(ds[k].description.value, None, ds[k].quantity, ds[k].unitPrice, ds[k].totalPrice)
  {
    if forall k :: 0 <= k < |ds| ==> ds[k].description.Some? then
      Ok(seq(|ds|, k requires 0 <= k < |ds| =>
        ItemRow(ds[k].description.value, None, ds[k].quantity, ds[k].unitPrice, ds[k].totalPrice)))
    else Err(NotNullViolation)
  }

  /** Inserting an invoice: its number, patient, total and status are
      `nullable = false`, and so is each line's description. */
  function RowOf(number: Option<string>, patientId: Option<int>, appointmentId: Option<int>,
                 drafts: seq<ItemDraft>, subtotal: Option<real>, taxAmount: Option<real>,
                 discountAmount: Option<real>, totalAmount: Option<real>, paidAmount: real,
                 status: Option<Status>, notes: Option<string>, dueDate: Option<int>,
                 paidAt: Option<int>): (r: Result<InvoiceRow>)
    ensures r.Ok? <==>
      number.Some? && patientId.Some? && totalAmount.Some? && status.Some? && ItemRows(drafts).Ok?
    ensures r.Err? ==> r.error == NotNullViolation
    ensures r.Ok? ==>
      r.value.invoiceNumber == number.value && r.value.patientId == patientId.value &&
      r.value.totalAmount == totalAmount.value && r.value.status == status.value &&
      r.value.items == ItemRows(drafts).value && r.value.appointmentId == appointmentId &&
      r.value.subtotal == subtotal && r.value.taxAmount == taxAmount &&
      r.value.discountAmount == discountAmount && r.value.paidAmount == paidAmount &&
      r.value.notes == notes && r.value.dueDate == dueDate && r.value.paidAt == paidAt
  {
    if number.None? || patientId.None? || totalAmount.None? || status.None? then Err(NotNullViolation)
    else
      match ItemRows(drafts)
      case Err(e) => Err(e)
      case Ok(rows) => Ok(InvoiceRow(number.value, patientId.value, appointmentId, rows, subtotal,
        taxAmount, discountAmount, totalAmount.value, paidAmount, status.value, notes, dueDate, paidAt))
  }

  /** A line object before the insert. */
  class InvoiceItem {
    const draft: ItemDraft
    var invoice: Invoice?

    constructor (d: ItemDraft)
      ensures draft == d && invoice == null
    {
      draft := d;
      invoice := null;
    }
  }

  /** An invoice object before the insert. */
  class Invoice {
    var invoiceNumber: Option<string>
    var patientId: Option<int>
    var appointmentId: Option<int>
    var items: seq<InvoiceItem>
    var subtotal: Option<real>
    var taxAmount: Option<real>
    var discountAmount: Option<real>
    var totalAmount: Option<real>
    var paidAmount: real
    var status: Option<Status>
    var notes: Option<string>
    var dueDate: Option<int>
    var paidAt: Option<int>

    /** The line contents, in list order. */
    function Drafts(): (ds: seq<ItemDraft>)
      reads this`items
      ensures |ds| == |items| && forall k :: 0 <= k < |items| ==> ds[k] == items[k].draft
    {
      var xs := items;
      seq(|xs|, k requires 0 <= k < |xs| => xs[k].draft)
    }

    function Row(): Result<InvoiceRow>
      reads this
    {
      RowOf(invoiceNumber, patientId, appointmentId, Drafts(), subtotal, taxAmount, discountAmount,
        totalAmount, paidAmount, status, notes, dueDate, paidAt)
    }

    /** The Lombok builder: `items` starts as an empty list and `paidAmount` at
        zero; what the builder is not given stays null. */
    constructor (patientId: Option<int>, appointmentId: Option<int>, status: Option<Status>,
                 dueDate: Option<int>)
      ensures this.patientId == patientId && this.appointmentId == appointmentId
      ensures this.status == status && this.dueDate == dueDate
      ensures items == [] && paidAmount == 0.0 && invoiceNumber == None
      ensures subtotal == None && taxAmount == None && discountAmount == None && totalAmount == None
      ensures notes == None && paidAt == None
    {
      this.patientId, this.appointmentId, this.status, this.dueDate := patientId, appointmentId, status, dueDate;
      items, paidAmount, invoiceNumber := [], 0.0, None;
      subtotal, taxAmount, discountAmount, totalAmount := None, None, None, None;
      notes, paidAt := None, None;
    }

    /** `@PrePersist onCreate`: status PENDING and a generated number, each only
        where still null. */
    method OnCreate(clock: nat)
      modifies this
      ensures status == Some(old(status).GetOr(PENDING))
      ensures invoiceNumber == Some(old(invoiceNumber).GetOr(GeneratedNumber(clock)))
      ensures Drafts() == old(Drafts())
      ensures patientId == old(patientId) && appointmentId == old(appointmentId)
      ensures items == old(items) && subtotal == old(subtotal) && taxAmount == old(taxAmount)
      ensures discountAmount == old(discountAmount) && totalAmount == old(totalAmount)
      ensures paidAmount == old(paidAmount) && notes == old(notes)
      ensures dueDate == old(dueDate) && paidAt == old(paidAt)
    {
      if status.None? {
        status := Some(PENDING);
      }
      if invoiceNumber.None? {
        invoiceNumber := Some(GeneratedNumber(clock));
      }
    }

    /** `addItem`: appends the line and points it back at this invoice. */
    method AddItem(item: InvoiceItem)
      modifies this`items, item`invoice
      ensures items == old(items) + [item] && item.invoice == this
      ensures Drafts() == old(Drafts()) + [item.draft]
    {
      items := items + [item];
      item.invoice := this;
    }
  }
}
