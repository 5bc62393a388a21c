/** The invoice form of the portal: a list of line items kept in a form array,
    the subtotal and total shown beside it, and the request sent on submit.
    Numbers are reals: JavaScript's floating-point rounding is not
    modelled. A number input left empty holds null, and `value || 0` reads
    null as 0. Dates are day numbers, printed by a `format` input. */
module InvoiceForm {
  import opened Wrappers

  /** One line of the `items` form array. `amount` is the read-only control
      the form keeps up to date. */
  datatype ItemGroup = ItemGroup(
    description: string,
    category: string,
    quantity: Option<real>,
    unitPrice: Option<real>,
    amount: real)

  /** `createItem`: an empty consultation line of one unit at price 0. */
  function DefaultItem(): (g: ItemGroup)
    ensures g.quantity == Some(1.0) && g.unitPrice == Some(0.0) && g.amount == 0.0
    ensures g.category == "CONSULTATION" && g.description == ""
  {
    ItemGroup("", "CONSULTATION", Some(1.0), Some(0.0), 0.0)
  }

  /** `quantity × unitPrice` with a missing value read as 0. */
  function LineAmount(g: ItemGroup): (a: real)
    ensures g.quantity.None? || g.unitPrice.None? ==> a == 0.0
    ensures g.quantity.Some? && g.unitPrice.Some? ==> a == g.quantity.value * g.unitPrice.value
  {
    g.quantity.GetOr(0.0) * g.unitPrice.GetOr(0.0)
  }

  /** `calculateSubtotal`: the sum of the line amounts. */
  function Subtotal(items: seq<ItemGroup>): real
  {
    if items == [] then 0.0
    else Subtotal(items[..|items| - 1]) + LineAmount(items[|items| - 1])
  }

  /** `calculateTotal`: the subtotal less the discount, a missing discount
      being 0. A discount above the subtotal gives a negative total. */
  function Total(items: seq<ItemGroup>, discount: Option<real>): (t: real)
    ensures t + discount.GetOr(0.0) == Subtotal(items)
  {
    Subtotal(items) - discount.GetOr(0.0)
  }

  /** The subtotal of two lists one after the other is the sum of theirs. */
  lemma {:induction false} SubtotalAppend(xs: seq<ItemGroup>, ys: seq<ItemGroup>)
    ensures Subtotal(xs + ys) == Subtotal(xs) + Subtotal(ys)
    decreases |ys|
  {
    if ys == [] {
      assert xs + ys == xs;
    } else {
      var last := ys[|ys| - 1];
      assert (xs + ys)[..|xs + ys| - 1] == xs + ys[..|ys| - 1];
      SubtotalAppend(xs, ys[..|ys| - 1]);
    }
  }

  /** Removing line `i` takes its amount off the subtotal. */
  lemma SubtotalRemove(items: seq<ItemGroup>, i: int)
    requires 0 <= i < |items|
    ensures Subtotal(items[..i] + items[i + 1..]) == Subtotal(items) - LineAmount(items[i])
  {
    var before, line, after := items[..i], [items[i]], items[i + 1..];
    assert items == before + line + after;
    SubtotalAppend(before + line, after);
    SubtotalAppend(before, line);
    SubtotalAppend(before, after);
    assert Subtotal(line) == LineAmount(items[i]) by {
      assert line[..0] == [];
    }
  }

  /** Changing the read-only amount of a line leaves the subtotal alone: it is
      computed from quantities and prices only. */
  lemma {:induction false} SubtotalIgnoresAmount(items: seq<ItemGroup>, i: int, amount: real)
    requires 0 <= i < |items|
    ensures Subtotal(items[i := items[i].(amount := amount)]) == Subtotal(items)
    decreases |items|
  {
    var items' := items[i := items[i].(amount := amount)];
    if i < |items| - 1 {
      assert items'[..|items'| - 1] == items[..|items| - 1][i := items[i].(amount := amount)];
      SubtotalIgnoresAmount(items[..|items| - 1], i, amount);
    } else {
      assert items'[..|items'| - 1] == items[..|items| - 1];
    }
  }

  /** The validators: a quantity of at least 1 and a price of at least 0, both
      required, and a description and category. */
  predicate ItemValid(g: ItemGroup) {
    g.description != "" && g.category != "" &&
    g.quantity.Some? && g.quantity.value >= 1.0 && g.unitPrice.Some? && g.unitPrice.value >= 0.0
  }

  /** A form whose lines all pass their validators has a subtotal of at
      least 0. */
  lemma {:induction false} ValidItemsSubtotalNonNegative(items: seq<ItemGroup>)
    requires forall i :: 0 <= i < |items| ==> ItemValid(items[i])
    ensures Subtotal(items) >= 0.0
    decreases |items|
  {
    if items != [] {
      var last := items[|items| - 1];
      assert ItemValid(last);
      ValidItemsSubtotalNonNegative(items[..|items| - 1]);
    }
  }

  /** One line of the submitted request: its amount recomputed. */
  datatype ItemRequest = ItemRequest(description: string, category: string, quantity: real, unitPrice: real, amount: real)

  /** The request `onSubmit` sends. The patient and the due date are required
      controls, so a valid form has both. */
  datatype InvoiceRequest = InvoiceRequest(
    patientId: int,
    dueDate: string,
    discountAmount: Option<real>,
    notes: string,
    items: seq<ItemRequest>)

  function ItemRequestOf(g: ItemGroup): (r: ItemRequest)
    requires ItemValid(g)
    ensures r.amount == LineAmount(g)
    ensures r.quantity == g.quantity.value && r.unitPrice == g.unitPrice.value
    ensures r.description == g.description && r.category == g.category
  {
    ItemRequest(g.description, g.category, g.quantity.value, g.unitPrice.value,
      g.quantity.value * g.unitPrice.value)
  }

  function ItemRequests(items: seq<ItemGroup>): (rs: seq<ItemRequest>)
    requires forall i :: 0 <= i < |items| ==> ItemValid(items[i])
    ensures |rs| == |items|
    ensures forall i :: 0 <= i < |items| ==> rs[i] == ItemRequestOf(items[i])
  {
    if items == [] then [] else ItemRequests(items[..|items| - 1]) + [ItemRequestOf(items[|items| - 1])]
  }

  function AmountSum(rs: seq<ItemRequest>): real {
    if rs == [] then 0.0 else AmountSum(rs[..|rs| - 1]) + rs[|rs| - 1].amount
  }

  /** The amounts sent add up to the subtotal the form showed. */
  lemma {:induction false} RequestAddsUpToSubtotal(items: seq<ItemGroup>)
    requires forall i :: 0 <= i < |items| ==> ItemValid(items[i])
    ensures AmountSum(ItemRequests(items)) == Subtotal(items)
    decreases |items|
  {
    if items != [] {
      var rs := ItemRequests(items);
      assert rs[..|rs| - 1] == ItemRequests(items[..|items| - 1]);
      RequestAddsUpToSubtotal(items[..|items| - 1]);
    }
  }

  class InvoiceFormComponent {
    var patientId: Option<int>
    var dueDate: Option<int>
    var discountAmount: Option<real>
    var notes: string
    var items: seq<ItemGroup>
    var isLoading: bool
    /** The day the form was opened: `new Date()`, taken once. */
    const minDate: int

    /** The validators of the whole form: patient and due date required, the
        due date not before `minDate` (the picker compares days), and every
        line valid. */
    predicate FormValid()
      reads this
    {
      patientId.Some? && dueDate.Some? && dueDate.value >= minDate &&
      forall i :: 0 <= i < |items| ==> ItemValid(items[i])
    }

    /** The constructor builds the form with one default line. */
    constructor (today: int)
      ensures items == [DefaultItem()] && discountAmount == Some(0.0) && notes == ""
      ensures patientId.None? && dueDate.None? && !isLoading && minDate == today
    {
      minDate := today;
      patientId, dueDate, discountAmount, notes := None, None, Some(0.0), "";
      items := [DefaultItem()];
      isLoading := false;
    }

    /** `addItem`: one default line appended; the subtotal does not move. */
    method AddItem()
      modifies this
      ensures items == old(items) + [DefaultItem()]
      ensures Subtotal(items) == Subtotal(old(items))
      ensures patientId == old(patientId) && dueDate == old(dueDate) && discountAmount == old(discountAmount)
      ensures notes == old(notes) && isLoading == old(isLoading)
    {
      SubtotalAppend(items, [DefaultItem()]);
      assert [DefaultItem()][..0] == [];
      items := items + [DefaultItem()];
    }

    /** The remove button is shown only beside a list of more than one line. */
    predicate RemoveOffered()
      reads this
    {
      |items| > 1
    }

    /** `removeItem`: only line `index` goes, so removing through the button
        never leaves the form without a line. */
    method RemoveItem(index: int)
      requires 0 <= index < |items|
      modifies this
      ensures items == old(items[..index] + items[index + 1..])
      ensures old(RemoveOffered()) ==> items != []
      ensures Subtotal(items) == Subtotal(old(items)) - LineAmount(old(items[index]))
      ensures patientId == old(patientId) && dueDate == old(dueDate) && discountAmount == old(discountAmount)
      ensures notes == old(notes) && isLoading == old(isLoading)
    {
      SubtotalRemove(items, index);
      items := items[..index] + items[index + 1..];
    }

    /** `calculateItemAmount`: line `index` shows its amount; nothing else
        changes, the subtotal included. */
    method CalculateItemAmount(index: int)
      requires 0 <= index < |items|
      modifies this
      ensures items == old(items)[index := old(items)[index].(amount := LineAmount(old(items)[index]))]
      ensures items[index].amount == LineAmount(items[index])
      ensures Subtotal(items) == Subtotal(old(items))
      ensures patientId == old(patientId) && dueDate == old(dueDate) && discountAmount == old(discountAmount)
      ensures notes == old(notes) && isLoading == old(isLoading)
    {
      SubtotalIgnoresAmount(items, index, LineAmount(items[index]));
      items := items[index := items[index].(amount := LineAmount(items[index]))];
    }

    /** `onSubmit`: an invalid form (a due date before the day the form was
        opened included) sends nothing and changes nothing; a valid
        one starts loading and sends every line with its amount recomputed,
        which together add up to the subtotal shown. */
    method OnSubmit(format: int -> string) returns (sent: Option<InvoiceRequest>)
      modifies this
      ensures items == old(items) && patientId == old(patientId) && dueDate == old(dueDate)
      ensures discountAmount == old(discountAmount) && notes == old(notes)
      ensures !old(FormValid()) ==> sent.None? && isLoading == old(isLoading)
      ensures old(FormValid()) ==> (isLoading && sent.Some? &&
        sent.value == InvoiceRequest(patientId.value, format(dueDate.value), discountAmount, notes, ItemRequests(items)))
      ensures old(FormValid()) ==> AmountSum(sent.value.items) == Subtotal(items)
      ensures dueDate.Some? && dueDate.value < minDate ==> sent.None?
    {
      if !FormValid() {
        return None;
      }
      isLoading := true;
      RequestAddsUpToSubtotal(items);
      sent := Some(InvoiceRequest(patientId.value, format(dueDate.value), discountAmount, notes, ItemRequests(items)));
    }

    /** The success callback: a snack bar confirms the invoice and the portal
        goes to the billing list; loading is left on. */
    method OnSubmitSuccess() returns (message: string, navigateTo: string)
      ensures message == "Invoice created successfully" && navigateTo == "/billing"
    {
      message := "Invoice created successfully";
      navigateTo := "/billing";
    }

    /** The error callback: loading stops, a snack bar asks the user to try
        again, and the form is kept as filled in. */
    method OnSubmitError() returns (message: string)
      modifies this
      ensures !isLoading && message == "An error occurred. Please try again."
      ensures items == old(items) && patientId == old(patientId) && dueDate == old(dueDate)
      ensures discountAmount == old(discountAmount) && notes == old(notes)
    {
      isLoading := false;
      message := "An error occurred. Please try again.";
    }
  }
}
