/** A payment (`payments`): one row per accepted `processPayment`, with its
    generated transaction id. */
module PaymentEntity {
  import opened Wrappers
  import opened Ascii

  datatype Method = CASH | CREDIT_CARD | DEBIT_CARD | INSURANCE | BANK_TRANSFER | CHECK

  datatype Status = PENDING | COMPLETED | FAILED | REFUNDED

  datatype PaymentRow = PaymentRow(
    transactionId: string,
    invoiceId: int,
    amount: real,
    paymentMethod: Method,
    status: Status)

  function MethodName(m: Method): (n: string)
    ensures NoLowerCase(n)
  {
    match m
    case CASH => "CASH"
    case CREDIT_CARD => "CREDIT_CARD"
    case DEBIT_CARD => "DEBIT_CARD"
    case INSURANCE => "INSURANCE"
    case BANK_TRANSFER => "BANK_TRANSFER"
    case CHECK => "CHECK"
  }

  /** `PaymentMethod.valueOf(name.toUpperCase())`: an unknown name is refused. */
  function ParseMethod(name: string): (r: Result<Method>)
    ensures r.Ok? ==> MethodName(r.value) == UpperString(name)
    ensures r.Err? ==> r.error == InvalidEnum(name) && forall m :: MethodName(m) != UpperString(name)
  {
    var u := UpperString(name);
    if u == "CASH" then Ok(CASH)
    else if u == "CREDIT_CARD" then Ok(CREDIT_CARD)
    else if u == "DEBIT_CARD" then Ok(DEBIT_CARD)
    else if u == "INSURANCE" then Ok(INSURANCE)
    else if u == "BANK_TRANSFER" then Ok(BANK_TRANSFER)
    else if u == "CHECK" then Ok(CHECK)
    else Err(InvalidEnum(name))
  }

  /** A name is accepted as `m` exactly when it spells `m` in any case. */
  lemma ParseMethodExactly(name: string, m: Method)
    ensures ParseMethod(name) == Ok(m) <==> UpperString(name) == MethodName(m)
    ensures ParseMethod(LowerString(MethodName(m))) == Ok(m)
  {
    UpperOfName(MethodName(m));
  }

  /** Unique constraint on `transactionId`. */
  predicate TransactionIdsUnique(t: map<int, PaymentRow>) {
    forall i, j :: i in t && j in t && t[i].transactionId == t[j].transactionId ==> i == j
  }

  /** The transaction id `onCreate` makes up: "TXN-" and the clock reading. */
  function GeneratedTransactionId(clock: nat): (s: string)
    ensures |s| > 4 && s[..4] == "TXN-"
  {
    "TXN-" + NatToDecimal(clock)
  }
}
