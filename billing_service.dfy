/** `BillingService`: invoices, payments against them and a patient's billing
    summary. Each writing operation is one transaction: when it fails, neither
    the invoices nor the payments change. The patient lookup is an input. */
module BillingService {
  import opened Wrappers
  import opened JavaInt
  import opened Store
  import opened InvoiceEntity
  import opened InvoiceRepository
  import PaymentEntity
  import opened RemotePatient
  import opened Ascii
  import opened Time

  /** A new invoice falls due this many days after creation. */
  const PAYMENT_TERM_DAYS: int := 30

  /** An `InvoiceItemDTO` as it arrives. */
  datatype ItemDto = ItemDto(description: Option<string>, quantity: Option<Int32>, unitPrice: Option<real>)

  /** The parts of an `InvoiceDTO` that `createInvoice` reads. */
  datatype InvoiceDto = InvoiceDto(patientId: Option<int>, appointmentId: Option<int>, items: Option<seq<ItemDto>>)

  /** A line of the `InvoiceDTO` the service sends back. */
  datatype ItemView = ItemView(description: string, quantity: Int32, unitPrice: real, totalPrice: real)

  /** The `InvoiceDTO` the service sends back (its timestamps are not modelled). */
  datatype InvoiceView = InvoiceView(
    id: int,
    patientId: int,
    patientName: string,
    appointmentId: Option<int>,
    items: seq<ItemView>,
    totalAmount: real,
    paidAmount: real,
    status: string,
    paidAt: Option<int>)

  /** `PatientBillingSummary`. */
  datatype Summary = Summary(patientId: int, patientName: string, totalBilled: real, totalPaid: real, outstanding: real)

  // ------------------------------------------------------------ createInvoice

  /** What a request line is charged: unit price times quantity, a missing value
      counting as 0. */
  function LineAmount(line: ItemDto): real {
    line.unitPrice.GetOr(0.0) * line.quantity.GetOr(0) as real
  }

  /** The sum of the request lines' charges. */
  function Charge(lines: seq<ItemDto>): real
    decreases |lines|
  {
    if lines == [] then 0.0 else Charge(lines[..|lines| - 1]) + LineAmount(lines[|lines| - 1])
  }

  /** One pass of `createInvoice`'s loop: multiplying a missing price or
      unboxing a missing quantity throws. */
  function LineDraft(line: ItemDto): (r: Result<ItemDraft>)
    ensures r.Ok? <==> line.unitPrice.Some? && line.quantity.Some?
    ensures r.Err? ==> r.error == NullValue
    ensures r.Ok? ==>
      r.value.description == line.description && Some(r.value.quantity) == line.quantity &&
      Some(r.value.unitPrice) == line.unitPrice && r.value.totalPrice == LineAmount(line)
  {
    if line.unitPrice.None? || line.quantity.None? then Err(NullValue)
    else Ok(ItemDraft(line.description, line.quantity.value, line.unitPrice.value,
      line.unitPrice.value * line.quantity.value as real))
  }

  /** The whole loop: the lines in input order, or the failure. */
  function BuildItems(lines: seq<ItemDto>): (r: Result<seq<ItemDraft>>)
    ensures r.Ok? <==> forall k :: 0 <= k < |lines| ==> LineDraft(lines[k]).Ok?
    ensures r.Ok? ==>
      |r.value| == |lines| && forall k :: 0 <= k < |lines| ==> LineDraft(lines[k]) == Ok(r.value[k])
    ensures r.Err? ==> r.error == NullValue
    decreases |lines|
  {
    if lines == [] then Ok([])
    else
      var init := lines[..|lines| - 1];
      assert forall k :: 0 <= k < |init| ==> init[k] == lines[k];
      match BuildItems(init)
      case Err(e) => Err(e)
      case Ok(ds) =>
        match LineDraft(lines[|lines| - 1])
        case Err(e) => Err(e)
        case Ok(d) => Ok(ds + [d])
  }

  /** The running `total`: the lines' `totalPrice`s added up in order. */
  function Sum(ds: seq<ItemDraft>): real
    decreases |ds|
  {
    if ds == [] then 0.0 else Sum(ds[..|ds| - 1]) + ds[|ds| - 1].totalPrice
  }

  /** The loop's total is the charge of the request. */
  lemma {:induction false} SumIsCharge(lines: seq<ItemDto>)
    requires BuildItems(lines).Ok?
    ensures Sum(BuildItems(lines).value) == Charge(lines)
    decreases |lines|
  {
    if lines != [] {
      var init := lines[..|lines| - 1];
      assert forall k :: 0 <= k < |init| ==> init[k] == lines[k];
      SumIsCharge(init);
      var ds := BuildItems(lines).value;
      assert ds[..|ds| - 1] == BuildItems(init).value;
    }
  }

  /** One more accepted line extends the loop's list by its draft, and the
      running total by the line's price. */
  lemma BuildItemsStep(lines: seq<ItemDto>, i: int, before: seq<ItemDraft>)
    requires 0 <= i < |lines|
    requires BuildItems(lines[..i]) == Ok(before) && LineDraft(lines[i]).Ok?
    ensures BuildItems(lines[..i + 1]) == Ok(before + [LineDraft(lines[i]).value])
    ensures Sum(before + [LineDraft(lines[i]).value]) == Sum(before) + LineDraft(lines[i]).value.totalPrice
  {
    assert lines[..i + 1][..i] == lines[..i];
    assert lines[..i + 1][i] == lines[i];
    assert (before + [LineDraft(lines[i]).value])[..|before|] == before;
  }

  /** A line the loop throws on makes the whole loop throw. */
  lemma BuildItemsFails(lines: seq<ItemDto>, i: int)
    requires 0 <= i < |lines| && LineDraft(lines[i]).Err?
    ensures BuildItems(lines) == Err(NullValue)
  {
  }

  predicate NumberPresent(t: Invoices, number: string) {
    exists id :: id in t && t[id].invoiceNumber == number
  }

  /** What `createInvoice` stores, or why it fails: a PENDING invoice due in 30
      days whose subtotal and total are both the charge of its lines, with no
      tax, no discount and nothing paid. */
  function CreateOutcome(t: Invoices, dto: InvoiceDto, now: int, clock: nat): (r: Result<InvoiceRow>)
    ensures BuildItems(dto.items.GetOr([])).Err? ==> r == Err(NullValue)
    ensures r.Ok? <==>
      BuildItems(dto.items.GetOr([])).Ok? && dto.patientId.Some? &&
      (forall k :: 0 <= k < |dto.items.GetOr([])| ==> dto.items.GetOr([])[k].description.Some?) &&
      !NumberPresent(t, GeneratedNumber(clock))
    ensures r.Ok? ==>
      var lines := dto.items.GetOr([]);
      r.value.status == PENDING && r.value.invoiceNumber == GeneratedNumber(clock) &&
      r.value.patientId == dto.patientId.value && r.value.appointmentId == dto.appointmentId &&
      r.value.totalAmount == Charge(lines) && r.value.subtotal == Some(Charge(lines)) &&
      r.value.taxAmount == Some(0.0) && r.value.discountAmount == Some(0.0) &&
      r.value.paidAmount == 0.0 && r.value.dueDate == Some(now + PAYMENT_TERM_DAYS * DAY) &&
      r.value.paidAt == None && r.value.notes == None &&
      |r.value.items| == |lines| &&
      forall k :: 0 <= k < |lines| ==>
        r.value.items[k] == ItemRow(lines[k].description.value, None, lines[k].quantity.value,
          lines[k].unitPrice.value, lines[k].unitPrice.value * lines[k].quantity.value as real)
  {
    var lines := dto.items.GetOr([]);
    match BuildItems(lines)
    case Err(e) => Err(e)
    case Ok(ds) =>
      SumIsCharge(lines);
      var total := Sum(ds);
      match RowOf(Some(GeneratedNumber(clock)), dto.patientId, dto.appointmentId, ds, Some(total),
                  Some(0.0), Some(0.0), Some(total), 0.0, Some(PENDING), None,
                  Some(now + PAYMENT_TERM_DAYS * DAY), None)
      case Err(e) => Err(e)
      case Ok(row) => if NumberPresent(t, row.invoiceNumber) then Err(UniqueViolation) else Ok(row)
  }

  // ------------------------------------------------------------ processPayment

  /** The invoice after an accepted payment: the amount is added to what was
      paid; the invoice is PAID, stamped `now`, once that reaches the total, and
      PARTIAL before. Nothing else changes. */
  function PaymentApplied(row: InvoiceRow, amount: real, now: int): (r: InvoiceRow)
    ensures r.paidAmount == row.paidAmount + amount
    ensures r.status == PAID <==> row.paidAmount + amount >= row.totalAmount
    ensures r.status != PAID ==> r.status == PARTIAL && r.paidAt == row.paidAt
    ensures r.status == PAID ==> r.paidAt == Some(now)
    ensures r.(paidAmount := row.paidAmount, status := row.status, paidAt := row.paidAt) == row
  {
    var paid := row.paidAmount + amount;
    if paid >= row.totalAmount then row.(paidAmount := paid, status := PAID, paidAt := Some(now))
    else row.(paidAmount := paid, status := PARTIAL)
  }

  /** A run of `processPayment` calls on one invoice, as far as the invoice is
      concerned: each is refused once the invoice is PAID. */
  function PayAll(row: InvoiceRow, amounts: seq<real>, now: int): Result<InvoiceRow>
    decreases |amounts|
  {
    if amounts == [] then Ok(row)
    else if row.status == PAID then Err(BadRequest("Invoice is already paid"))
    else PayAll(PaymentApplied(row, amounts[0], now), amounts[1..], now)
  }

  function SumOf(amounts: seq<real>): real
    decreases |amounts|
  {
    if amounts == [] then 0.0 else amounts[0] + SumOf(amounts[1..])
  }

  /** Paying an unpaid invoice in instalments: every instalment is accepted
      exactly when no earlier ones already covered the total; then the invoice
      holds their sum, and it is PAID exactly when that sum covers the total. */
  lemma {:induction false} PayAllAddsUp(row: InvoiceRow, amounts: seq<real>, now: int)
    requires row.status != PAID
    ensures PayAll(row, amounts, now).Ok? <==>
      forall k :: 0 < k < |amounts| ==> row.paidAmount + SumOf(amounts[..k]) < row.totalAmount
    ensures PayAll(row, amounts, now).Ok? ==>
      PayAll(row, amounts, now).value.paidAmount == row.paidAmount + SumOf(amounts)
    ensures PayAll(row, amounts, now).Ok? && amounts != [] ==>
      (PayAll(row, amounts, now).value.status == PAID <==> row.paidAmount + SumOf(amounts) >= row.totalAmount)
    decreases |amounts|
  {
    if amounts != [] {
      var next := PaymentApplied(row, amounts[0], now);
      var rest := amounts[1..];
      forall k | 0 < k <= |amounts|
        ensures SumOf(amounts[..k]) == amounts[0] + SumOf(rest[..k - 1])
      {
        assert amounts[..k][1..] == rest[..k - 1];
      }
      assert amounts[..|amounts|] == amounts;
      if next.status == PAID {
        if |amounts| > 1 {
          assert row.paidAmount + SumOf(amounts[..1]) >= row.totalAmount by {
            assert SumOf(amounts[..1]) == amounts[0] + SumOf(rest[..0]);
          }
        }
      } else {
        PayAllAddsUp(next, rest, now);
        assert PayAll(row, amounts, now) == PayAll(next, rest, now);
        assert (forall k :: 0 < k < |amounts| ==> row.paidAmount + SumOf(amounts[..k]) < row.totalAmount) <==>
          (forall j :: 0 < j < |rest| ==> next.paidAmount + SumOf(rest[..j]) < next.totalAmount) by {
          assert SumOf(amounts[..1]) == amounts[0] + SumOf(rest[..0]);
          forall j | 0 < j < |rest|
            ensures next.paidAmount + SumOf(rest[..j]) == row.paidAmount + SumOf(amounts[..j + 1])
          {
          }
        }
      }
    }
  }

  predicate TransactionPresent(payments: map<int, PaymentEntity.PaymentRow>, txn: string) {
    exists id :: id in payments && payments[id].transactionId == txn
  }

  // ------------------------------------------------------------ views

  function ItemViewOf(item: ItemRow): ItemView {
    ItemView(item.description, item.quantity, item.unitPrice, item.totalPrice)
  }

  /** `toDTO`: the stored invoice with the patient's display name and the
      status by name. */
  function ToDto(id: int, row: InvoiceRow, patient: Lookup): (v: InvoiceView)
    ensures v.id == id && v.patientId == row.patientId && v.patientName == DisplayName(patient)
    ensures v.totalAmount == row.totalAmount && v.paidAmount == row.paidAmount && v.paidAt == row.paidAt
    ensures v.appointmentId == row.appointmentId
    ensures v.status == StatusName(row.status) && ParseStatus(v.status) == Ok(row.status)
    ensures |v.items| == |row.items| && forall k :: 0 <= k < |row.items| ==>
      v.items[k].description == row.items[k].description && v.items[k].quantity == row.items[k].quantity &&
      v.items[k].unitPrice == row.items[k].unitPrice && v.items[k].totalPrice == row.items[k].totalPrice
  {
    ParseStatusExactly(StatusName(row.status), row.status);
    InvoiceView(id, row.patientId, DisplayName(patient), row.appointmentId,
      seq(|row.items|, k requires 0 <= k < |row.items| => ItemViewOf(row.items[k])),
      row.totalAmount, row.paidAmount, StatusName(row.status), row.paidAt)
  }

  /** `toDTO` over a list of invoices, each with its patient's lookup. */
  function ToDtos(t: Invoices, patients: int -> Lookup): (r: map<int, InvoiceView>)
    ensures r.Keys == t.Keys
    ensures forall id :: id in t ==> r[id] == ToDto(id, t[id], patients(t[id].patientId))
  {
    map id | id in t :: ToDto(id, t[id], patients(t[id].patientId))
  }

  // ------------------------------------------------------------ summary

  /** `getPatientBillingSummary`: a null sum is read as 0, and the outstanding
      amount is what was billed less what was paid. */
  function BillingSummary(t: Invoices, patientId: int, patient: Lookup): (s: Summary)
    ensures s.patientId == patientId && s.patientName == DisplayName(patient)
    ensures s.totalBilled == Total(BilledInvoices(t, patientId), TotalAmountOf)
    ensures s.totalPaid == Total(FindByPatientId(t, patientId), PaidAmountOf)
    ensures s.outstanding == s.totalBilled - s.totalPaid
  {
    BilledOrZero(t, patientId);
    PaidOrZero(t, patientId);
    var billed := GetTotalBilledAmount(t, patientId).GetOr(0.0);
    var paid := GetTotalPaidAmount(t, patientId).GetOr(0.0);
    Summary(patientId, DisplayName(patient), billed, paid, billed - paid)
  }

  /** Saving a new invoice that is not cancelled adds its total to its
      patient's billed amount and its paid amount to what they paid. */
  lemma SummaryAfterInsert(t: Invoices, id: int, row: InvoiceRow, patient: Lookup)
    requires id !in t && row.status != CANCELLED
    ensures var before, after := BillingSummary(t, row.patientId, patient), BillingSummary(t[id := row], row.patientId, patient);
      after.totalBilled == before.totalBilled + row.totalAmount &&
      after.totalPaid == before.totalPaid + row.paidAmount
  {
    BilledAfterInsert(t, id, row, row.patientId);
    var before, after := FindByPatientId(t, row.patientId), FindByPatientId(t[id := row], row.patientId);
    assert after == before[id := row];
    TotalInsert(before, PaidAmountOf, id, row);
  }

  /** Creating an invoice raises its patient's billed and outstanding amounts
      by its charge, and leaves what they paid alone. */
  lemma SummaryAfterCreate(t: Invoices, id: int, dto: InvoiceDto, now: int, clock: nat, patient: Lookup)
    requires id !in t && CreateOutcome(t, dto, now, clock).Ok?
    ensures var row := CreateOutcome(t, dto, now, clock).value;
      var before, after := BillingSummary(t, row.patientId, patient), BillingSummary(t[id := row], row.patientId, patient);
      after.totalBilled == before.totalBilled + Charge(dto.items.GetOr([])) &&
      after.totalPaid == before.totalPaid &&
      after.outstanding == before.outstanding + Charge(dto.items.GetOr([]))
  {
    SummaryAfterInsert(t, id, CreateOutcome(t, dto, now, clock).value, patient);
  }

  /** A payment lowers its patient's outstanding amount by the amount paid when
      the invoice was billed; paying a cancelled invoice brings it back into the
      billed sum. */
  lemma SummaryAfterPayment(t: Invoices, id: int, amount: real, now: int, patient: Lookup)
    requires id in t
    ensures var row := t[id];
      var before := BillingSummary(t, row.patientId, patient);
      var after := BillingSummary(t[id := PaymentApplied(row, amount, now)], row.patientId, patient);
      after.totalPaid == before.totalPaid + amount &&
      after.totalBilled == before.totalBilled + (if row.status == CANCELLED then row.totalAmount else 0.0) &&
      after.outstanding == before.outstanding - amount + (if row.status == CANCELLED then row.totalAmount else 0.0)
  {
    var row := t[id];
    BilledAfterUpdate(t, id, PaymentApplied(row, amount, now), row.patientId);
    PaidAfterUpdate(t, id, PaymentApplied(row, amount, now), row.patientId);
  }

  /** Cancelling an invoice takes its total out of its patient's billed and
      outstanding amounts; what was paid on it still counts as paid. */
  lemma SummaryAfterCancel(t: Invoices, id: int, patient: Lookup)
    requires id in t && t[id].status != CANCELLED
    ensures var row := t[id];
      var before := BillingSummary(t, row.patientId, patient);
      var after := BillingSummary(t[id := row.(status := CANCELLED)], row.patientId, patient);
      after.totalBilled == before.totalBilled - row.totalAmount &&
      after.totalPaid == before.totalPaid &&
      after.outstanding == before.outstanding - row.totalAmount
  {
    var row := t[id];
    BilledAfterUpdate(t, id, row.(status := CANCELLED), row.patientId);
    PaidAfterUpdate(t, id, row.(status := CANCELLED), row.patientId);
  }

  /** The object `createInvoice` has built when it saves: the builder's fields,
      the lines in order and the four amounts, subtotal and total both the
      charge of the lines. */
  ghost predicate Assembled(invoice: Invoice, dto: InvoiceDto, now: int)
    reads invoice
  {
    var lines := dto.items.GetOr([]);
    BuildItems(lines).Ok? && invoice.Drafts() == BuildItems(lines).value &&
    invoice.subtotal == Some(Charge(lines)) && invoice.totalAmount == Some(Charge(lines)) &&
    invoice.taxAmount == Some(0.0) && invoice.discountAmount == Some(0.0) &&
    invoice.patientId == dto.patientId && invoice.appointmentId == dto.appointmentId &&
    invoice.status == Some(PENDING) && invoice.dueDate == Some(now + PAYMENT_TERM_DAYS * DAY) &&
    invoice.invoiceNumber == None && invoice.paidAmount == 0.0 &&
    invoice.notes == None && invoice.paidAt == None
  }

  /** `createInvoice`'s loop: each request line becomes a line of the invoice,
      in order, and its price is added to the running total, which ends as the
      charge of the request. A line without a price or a quantity throws, and
      the lines already added stay on the object. */
  method AddLines(invoice: Invoice, lines: seq<ItemDto>) returns (r: Result<real>)
    requires invoice.items == []
    modifies invoice`items
    ensures r.Err? <==> BuildItems(lines).Err?
    ensures r.Err? ==> r.error == NullValue
    ensures r.Ok? ==> invoice.Drafts() == BuildItems(lines).value && r.value == Charge(lines)
  {
    var total := 0.0;
    var i := 0;
    ghost var ds: seq<ItemDraft> := [];
    while i < |lines|
      invariant 0 <= i <= |lines|
      invariant BuildItems(lines[..i]) == Ok(ds)
      invariant invoice.Drafts() == ds && total == Sum(ds)
      modifies invoice`items
    {
      var line := LineDraft(lines[i]);
      if line.Err? {
        BuildItemsFails(lines, i);
        return Err(line.error);
      }
      var item := new InvoiceItem(line.value);
      invoice.AddItem(item);
      BuildItemsStep(lines, i, ds);
      ds := ds + [item.draft];
      total := total + item.draft.totalPrice;
      i := i + 1;
    }
    assert lines[..i] == lines;
    SumIsCharge(lines);
    r := Ok(total);
  }

  /** `createInvoice` up to the save: the builder, the loop over the lines,
      then the amount setters. */
  method AssembleInvoice(dto: InvoiceDto, now: int) returns (r: Result<Invoice>)
    ensures r.Err? <==> BuildItems(dto.items.GetOr([])).Err?
    ensures r.Err? ==> r.error == NullValue
    ensures r.Ok? ==> fresh(r.value) && Assembled(r.value, dto, now)
  {
    var invoice: Invoice := new Invoice(dto.patientId, dto.appointmentId, Some(PENDING),
      Some(now + PAYMENT_TERM_DAYS * DAY));
    var added := AddLines(invoice, dto.items.GetOr([]));
    if added.Err? {
      return Err(added.error);
    }
    var total := added.value;
    invoice.subtotal, invoice.taxAmount, invoice.discountAmount, invoice.totalAmount :=
      Some(total), Some(0.0), Some(0.0), Some(total);
    r := Ok(invoice);
  }

  /** The constraints the two tables keep: unique invoice numbers and
      transaction ids, ids below the next one handed out, and every payment
      pointing at an invoice. */
  ghost predicate TablesValid(invoices: Invoices, nextId: int,
                              payments: map<int, PaymentEntity.PaymentRow>, nextPaymentId: int) {
    NumbersUnique(invoices) && (forall id :: id in invoices ==> id < nextId) &&
    PaymentEntity.TransactionIdsUnique(payments) &&
    (forall id :: id in payments ==> id < nextPaymentId && payments[id].invoiceId in invoices)
  }

  /** Recording a payment with a fresh transaction id against an existing
      invoice, and changing that invoice but not its number, keeps the tables
      valid. */
  lemma PaymentKeepsTablesValid(invoices: Invoices, nextId: int,
                                payments: map<int, PaymentEntity.PaymentRow>, nextPaymentId: int,
                                payment: PaymentEntity.PaymentRow, row: InvoiceRow)
    requires TablesValid(invoices, nextId, payments, nextPaymentId)
    requires payment.invoiceId in invoices && !TransactionPresent(payments, payment.transactionId)
    requires row.invoiceNumber == invoices[payment.invoiceId].invoiceNumber
    ensures TablesValid(invoices[payment.invoiceId := row], nextId,
      payments[nextPaymentId := payment], nextPaymentId + 1)
  {
    var t := invoices[payment.invoiceId := row];
    forall i, j | i in t && j in t && t[i].invoiceNumber == t[j].invoiceNumber
      ensures i == j
    {
      assert invoices[i].invoiceNumber == t[i].invoiceNumber;
      assert invoices[j].invoiceNumber == t[j].invoiceNumber;
    }
  }

  class BillingService {
    var invoices: Invoices
    var nextId: int
    var payments: map<int, PaymentEntity.PaymentRow>
    var nextPaymentId: int

    ghost predicate Valid()
      reads this
    {
      TablesValid(invoices, nextId, payments, nextPaymentId)
    }

    constructor ()
      ensures Valid() && invoices == map[] && payments == map[]
    {
      invoices, nextId := map[], 1;
      payments, nextPaymentId := map[], 1;
    }

    /** `getAllInvoices`. */
    function GetAllInvoices(patients: int -> Lookup): (r: map<int, InvoiceView>)
      reads this
      ensures r.Keys == invoices.Keys
      ensures forall id :: id in r ==> r[id] == ToDto(id, invoices[id], patients(invoices[id].patientId))
    {
      ToDtos(invoices, patients)
    }

    /** `getInvoiceById`. */
    function GetInvoiceById(id: int, patient: Lookup): (r: Result<InvoiceView>)
      reads this
      ensures r.Ok? <==> id in invoices
      ensures r.Ok? ==> r.value == ToDto(id, invoices[id], patient)
      ensures r.Err? ==> r.error.NotFound?
    {
      if id in invoices then Ok(ToDto(id, invoices[id], patient)) else Err(NotFound("Invoice"))
    }

    /** `getInvoicesByPatientId`. */
    function GetInvoicesByPatientId(patientId: int, patient: Lookup): (r: map<int, InvoiceView>)
      reads this
      ensures forall id :: id in r <==> id in invoices && invoices[id].patientId == patientId
      ensures forall id :: id in r ==> r[id] == ToDto(id, invoices[id], patient)
    {
      ToDtos(FindByPatientId(invoices, patientId), _ => patient)
    }

    /** `getInvoicesByStatus`: the status is named in any case; an unknown name
      is refused. */
    function GetInvoicesByStatus(status: string, patients: int -> Lookup): (r: Result<map<int, InvoiceView>>)
      reads this
      ensures r.Err? <==> forall s :: StatusName(s) != UpperString(status)
      ensures r.Err? ==> r.error == InvalidEnum(status)
      ensures r.Ok? ==> forall id :: id in r.value <==>
        id in invoices && StatusName(invoices[id].status) == UpperString(status)
    ensures r.Ok? ==> forall id :: id in r.value ==>
      id in invoices && r.value[id] == ToDto(id, invoices[id], patients(invoices[id].patientId))
    {
      match ParseStatus(status)
      case Err(e) => Err(e)
      case Ok(s) => Ok(ToDtos(FindByStatus(invoices, s), patients))
    }

    /** `createInvoice`: builds the invoice line by line, adding up the total,
        then inserts it with its lines. */
    method CreateInvoice(dto: InvoiceDto, now: int, clock: nat, patient: Lookup) returns (r: Result<InvoiceView>)
      requires Valid()
      modifies this
      ensures Valid() && payments == old(payments) && nextPaymentId == old(nextPaymentId)
      ensures match CreateOutcome(old(invoices), dto, now, clock)
        case Ok(row) =>
          r == Ok(ToDto(old(nextId), row, patient)) && old(nextId) !in old(invoices) &&
          invoices == old(invoices)[old(nextId) := row] && nextId == old(nextId) + 1
        case Err(e) => r == Err(e) && invoices == old(invoices) && nextId == old(nextId)
    {
      var assembled := AssembleInvoice(dto, now);
      if assembled.Err? {
        return Err(assembled.error);
      }
      var invoice := assembled.value;
      ghost var drafts := invoice.Drafts();
      invoice.OnCreate(clock);
      ghost var total := Charge(dto.items.GetOr([]));
      assert invoice.Row() == RowOf(Some(GeneratedNumber(clock)), dto.patientId, dto.appointmentId, drafts,
        Some(total), Some(0.0), Some(0.0), Some(total), 0.0, Some(PENDING), None,
        Some(now + PAYMENT_TERM_DAYS * DAY), None);
      match invoice.Row()
      case Err(e) =>
        r := Err(e);
      case Ok(row) =>
        if NumberPresent(invoices, row.invoiceNumber) {
          r := Err(UniqueViolation);
        } else {
          invoices := invoices[nextId := row];
          r := Ok(ToDto(nextId, row, patient));
          nextId := nextId + 1;
        }
    }

    /** `processPayment`: refuses a PAID invoice (and no other status), records
        a COMPLETED payment, then adds the amount to the invoice. */
    method ProcessPayment(invoiceId: int, amount: real, paymentMethod: string, now: int, clock: nat,
                          patient: Lookup) returns (r: Result<InvoiceView>)
      requires Valid()
      modifies this
      ensures Valid() && nextId == old(nextId)
      ensures r.Err? ==> invoices == old(invoices) && payments == old(payments)
      ensures invoiceId !in old(invoices) ==> r.Err? && r.error.NotFound?
      ensures invoiceId in old(invoices) && old(invoices)[invoiceId].status == PAID ==>
        r == Err(BadRequest("Invoice is already paid"))
      ensures invoiceId in old(invoices) && old(invoices)[invoiceId].status != PAID ==>
        match PaymentEntity.ParseMethod(paymentMethod)
        case Err(e) => r == Err(e)
        case Ok(m) =>
          var txn := PaymentEntity.GeneratedTransactionId(clock);
          if TransactionPresent(old(payments), txn) then r == Err(UniqueViolation)
          else
            payments == old(payments)[old(nextPaymentId) :=
              PaymentEntity.PaymentRow(txn, invoiceId, amount, m, PaymentEntity.COMPLETED)] &&
            invoices == old(invoices)[invoiceId := PaymentApplied(old(invoices)[invoiceId], amount, now)] &&
            r == Ok(ToDto(invoiceId, invoices[invoiceId], patient))
    {
      if invoiceId !in invoices {
        return Err(NotFound("Invoice"));
      }
      var invoice := invoices[invoiceId];
      if invoice.status == PAID {
        return Err(BadRequest("Invoice is already paid"));
      }
      var parsed := PaymentEntity.ParseMethod(paymentMethod);
      if parsed.Err? {
        return Err(parsed.error);
      }
      var txn := PaymentEntity.GeneratedTransactionId(clock);
      if TransactionPresent(payments, txn) {
        return Err(UniqueViolation);
      }
      payments := payments[nextPaymentId := PaymentEntity.PaymentRow(txn, invoiceId, amount, parsed.value,
        PaymentEntity.COMPLETED)];
      nextPaymentId := nextPaymentId + 1;
      var newPaidAmount := invoice.paidAmount + amount;
      if newPaidAmount >= invoice.totalAmount {
        invoice := invoice.(paidAmount := newPaidAmount, status := PAID, paidAt := Some(now));
      } else {
        invoice := invoice.(paidAmount := newPaidAmount, status := PARTIAL);
      }
      assert invoice == PaymentApplied(invoices[invoiceId], amount, now);
      PaymentKeepsTablesValid(invoices, nextId, old(payments), old(nextPaymentId), payments[old(nextPaymentId)],
        invoice);
      invoices := invoices[invoiceId := invoice];
      r := Ok(ToDto(invoiceId, invoice, patient));
    }

    /** `cancelInvoice`: refused once PAID; any other status becomes CANCELLED. */
    method CancelInvoice(id: int) returns (o: Outcome)
      requires Valid()
      modifies this
      ensures Valid() && nextId == old(nextId) && payments == old(payments)
      ensures id !in old(invoices) ==> o.Fail? && o.error.NotFound? && invoices == old(invoices)
      ensures id in old(invoices) && old(invoices)[id].status == PAID ==>
        o == Fail(BadRequest("Cannot cancel a paid invoice")) && invoices == old(invoices)
      ensures id in old(invoices) && old(invoices)[id].status != PAID ==>
        o == Done && invoices == old(invoices)[id := old(invoices)[id].(status := CANCELLED)]
    {
      if id !in invoices {
        return Fail(NotFound("Invoice"));
      }
      if invoices[id].status == PAID {
        return Fail(BadRequest("Cannot cancel a paid invoice"));
      }
      invoices := invoices[id := invoices[id].(status := CANCELLED)];
      o := Done;
    }

    /** `getPatientBillingSummary`. */
    function GetPatientBillingSummary(patientId: int, patient: Lookup): (s: Summary)
      reads this
      ensures s == BillingSummary(invoices, patientId, patient)
      ensures s.outstanding == s.totalBilled - s.totalPaid
    {
      BillingSummary(invoices, patientId, patient)
    }
  }
}
