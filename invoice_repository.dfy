/** `InvoiceRepository`: derived finders, the overdue query and the two `SUM`
    aggregates over the `invoices` table. A JPQL `SUM` over no rows is null. */
module InvoiceRepository {
  import opened Wrappers
  import opened Store
  import opened InvoiceEntity

  type Invoices = map<int, InvoiceRow>

  /** `findByInvoiceNumber`. */
  ghost function FindByInvoiceNumber(t: Invoices, number: string): (r: Result<Option<int>>)
    ensures r == Ok(None) <==> forall id :: id in t ==> !(t[id].invoiceNumber == number)
    ensures r.Ok? && r.value.Some? ==>
      r.value.value in t && t[r.value.value].invoiceNumber == number && forall id :: id in t && t[id].invoiceNumber == number ==> id == r.value.value
    ensures r.Err? ==>
      r.error == NonUniqueResult && exists i, j :: i in t && j in t && i != j && t[i].invoiceNumber == number && t[j].invoiceNumber == number
  {
    FindOne(t, (i: InvoiceRow) => i.invoiceNumber == number)
  }

  /** The unique number makes the finder unambiguous: it finds at most one invoice. */
  lemma FindByNumberUnique(t: Invoices, number: string)
    requires NumbersUnique(t)
    ensures FindByInvoiceNumber(t, number).Ok?
  {
  }

  /** `findByPatientId`. */
  function FindByPatientId(t: Invoices, patientId: int): (r: Invoices)
    ensures SelectionOf(r, t)
    ensures forall id :: id in t ==> (id in r <==> t[id].patientId == patientId)
  {
    Where(t, (i: InvoiceRow) => i.patientId == patientId)
  }

  /** `findByStatus`. */
  function FindByStatus(t: Invoices, status: Status): (r: Invoices)
    ensures SelectionOf(r, t)
    ensures forall id :: id in t ==> (id in r <==> t[id].status == status)
  {
    Where(t, (i: InvoiceRow) => i.status == status)
  }

  /** `findByAppointmentId`. */
  function FindByAppointmentId(t: Invoices, appointmentId: int): (r: Invoices)
    ensures SelectionOf(r, t)
    ensures forall id :: id in t ==> (id in r <==> t[id].appointmentId == Some(appointmentId))
  {
    Where(t, (i: InvoiceRow) => i.appointmentId == Some(appointmentId))
  }

  /** `findOverdueInvoices(now)`: PENDING invoices due strictly before `now`.
      A partly paid invoice is never overdue, nor one without a due date. */
  function FindOverdueInvoices(t: Invoices, now: int): (r: Invoices)
    ensures SelectionOf(r, t)
    ensures forall id :: id in t ==> (id in r <==>
      t[id].dueDate.Some? && t[id].dueDate.value < now && t[id].status == PENDING)
  {
    Where(t, (i: InvoiceRow) => i.dueDate.Some? && i.dueDate.value < now && i.status == PENDING)
  }

  /** The invoices `getTotalBilledAmount` adds up: the patient's, cancelled ones left out. */
  function BilledInvoices(t: Invoices, patientId: int): (r: Invoices)
    ensures SelectionOf(r, t)
    ensures forall id :: id in t ==> (id in r <==> t[id].patientId == patientId && t[id].status != CANCELLED)
  {
    Where(t, (i: InvoiceRow) => i.patientId == patientId && i.status != CANCELLED)
  }

  function TotalAmountOf(i: InvoiceRow): real {
    i.totalAmount
  }

  function PaidAmountOf(i: InvoiceRow): real {
    i.paidAmount
  }

  /** `getTotalBilledAmount`: null when the patient has no invoice that is not
      cancelled, else the sum of their totals. */
  function GetTotalBilledAmount(t: Invoices, patientId: int): (r: Option<real>)
    ensures r.None? <==> forall id :: id in t ==> !(t[id].patientId == patientId && t[id].status != CANCELLED)
    ensures r.Some? ==> r.value == Total(BilledInvoices(t, patientId), TotalAmountOf)
  {
    var billed := BilledInvoices(t, patientId);
    if billed == map[] then None
    else
      assert billed.Keys != {};
      Some(Total(billed, TotalAmountOf))
  }

  /** `getTotalPaidAmount`: null when the patient has no invoice at all, else
      the sum of what was paid on all of them, cancelled ones included. */
  function GetTotalPaidAmount(t: Invoices, patientId: int): (r: Option<real>)
    ensures r.None? <==> forall id :: id in t ==> t[id].patientId != patientId
    ensures r.Some? ==> r.value == Total(FindByPatientId(t, patientId), PaidAmountOf)
  {
    var mine := FindByPatientId(t, patientId);
    if mine == map[] then None
    else
      assert mine.Keys != {};
      Some(Total(mine, PaidAmountOf))
  }

  /** A new invoice joins its patient's billed sum unless it is cancelled, and
      leaves every other patient's sums alone. */
  lemma BilledAfterInsert(t: Invoices, id: int, row: InvoiceRow, patientId: int)
    requires id !in t
    ensures Total(BilledInvoices(t[id := row], patientId), TotalAmountOf) ==
      Total(BilledInvoices(t, patientId), TotalAmountOf) +
      (if row.patientId == patientId && row.status != CANCELLED then row.totalAmount else 0.0)
  {
    var before, after := BilledInvoices(t, patientId), BilledInvoices(t[id := row], patientId);
    if row.patientId == patientId && row.status != CANCELLED {
      assert after == before[id := row];
      TotalInsert(before, TotalAmountOf, id, row);
    } else {
      assert after == before;
    }
  }

  /** Changing one invoice moves its patient's paid sum by the change in its
      paid amount, and no other patient's. */
  lemma PaidAfterUpdate(t: Invoices, id: int, row: InvoiceRow, patientId: int)
    requires id in t && row.patientId == t[id].patientId
    ensures Total(FindByPatientId(t[id := row], patientId), PaidAmountOf) ==
      Total(FindByPatientId(t, patientId), PaidAmountOf) +
      (if row.patientId == patientId then row.paidAmount - t[id].paidAmount else 0.0)
  {
    var before, after := FindByPatientId(t, patientId), FindByPatientId(t[id := row], patientId);
    if row.patientId == patientId {
      assert after == before[id := row];
      TotalUpdate(before, PaidAmountOf, id, row);
    } else {
      assert after == before;
    }
  }

  /** Read as 0 when null, the billed amount is the plain sum: an empty sum is 0. */
  lemma BilledOrZero(t: Invoices, patientId: int)
    ensures GetTotalBilledAmount(t, patientId).GetOr(0.0) == Total(BilledInvoices(t, patientId), TotalAmountOf)
  {
  }

  /** Read as 0 when null, the paid amount is the plain sum: an empty sum is 0. */
  lemma PaidOrZero(t: Invoices, patientId: int)
    ensures GetTotalPaidAmount(t, patientId).GetOr(0.0) == Total(FindByPatientId(t, patientId), PaidAmountOf)
  {
  }

  /** Changing one invoice of a patient moves that patient's billed sum by the
      change in what the invoice contributes: its total while not cancelled. */
  lemma BilledAfterUpdate(t: Invoices, id: int, row: InvoiceRow, patientId: int)
    requires id in t
    ensures Total(BilledInvoices(t[id := row], patientId), TotalAmountOf) ==
      Total(BilledInvoices(t, patientId), TotalAmountOf)
      - (if t[id].patientId == patientId && t[id].status != CANCELLED then t[id].totalAmount else 0.0)
      + (if row.patientId == patientId && row.status != CANCELLED then row.totalAmount else 0.0)
  {
    var before, after := BilledInvoices(t, patientId), BilledInvoices(t[id := row], patientId);
    var wasIn, isIn := id in before, row.patientId == patientId && row.status != CANCELLED;
    if wasIn && isIn {
      assert after == before[id := row];
      TotalUpdate(before, TotalAmountOf, id, row);
    } else if isIn {
      assert after == before[id := row];
      TotalInsert(before, TotalAmountOf, id, row);
    } else if wasIn {
      assert after == before - {id};
      TotalRemove(before, TotalAmountOf, id);
    } else {
      assert after == before;
    }
  }
}
