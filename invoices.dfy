/** Invoices: the charge owed for a cargo, its statuses, the overdue rule and the
    amount and due date an arrival invoice gets. */
module Invoices {
  import opened Common

  datatype InvoiceStatus = Pending | Paid | Overdue | Cancelled

  /** A new invoice starts out pending. */
  const DefaultStatus: InvoiceStatus := Pending

  /** An invoice row; money in cents, the due date as a day number. */
  datatype Invoice = Invoice(
    cargo: nat,
    controlNumber: string,
    amount: int,
    currency: string,
    dueDate: int,
    status: InvoiceStatus,
    paymentMethod: Option<string>,
    createdBy: Option<nat>)

  /** Both invoice-creating paths give seven days to pay. */
  const PaymentTermDays: int := 7

  /** Is the invoice overdue on day `today`? Only a pending invoice whose due date lies in the
      past is; an invoice already marked overdue, a paid one and a cancelled one are not. */
  predicate IsOverdue(inv: Invoice, today: int)
    ensures IsOverdue(inv, today) ==> inv.status == Pending && today > inv.dueDate
    ensures inv.status in {Paid, Cancelled, Overdue} ==> !IsOverdue(inv, today)
    ensures inv.status == Pending && inv.dueDate < today ==> IsOverdue(inv, today)
  {
    inv.status == Pending && inv.dueDate < today
  }

  /** n / 10 rounded to the nearest integer, ties to the even neighbour (the rounding of
      Python's default Decimal context), for any sign of n. */
  function TenthHalfEven(n: int): (r: int)
    ensures -5 <= 10 * r - n <= 5
    ensures (10 * r - n == 5 || 10 * r - n == -5) ==> r % 2 == 0
  {
    var q, rem := n / 10, n % 10;
    if rem > 5 || (rem == 5 && q % 2 == 1) then q + 1 else q
  }

  /** The amount of the invoice raised on arrival: 30% of the cargo value, in cents. */
  function ArrivalAmount(cargoValue: int): (r: int)
    ensures -5 <= 10 * r - 3 * cargoValue <= 5
    ensures cargoValue % 10 == 0 ==> 10 * r == 3 * cargoValue
    ensures 0 <= cargoValue ==> 0 <= r <= cargoValue
  {
    TenthHalfEven(3 * cargoValue)
  }

  /** The two postconditions of TenthHalfEven pin its result down: nearest, ties to even. */
  lemma TenthHalfEvenUnique(n: int, r: int)
    requires -5 <= 10 * r - n <= 5
    requires (10 * r - n == 5 || 10 * r - n == -5) ==> r % 2 == 0
    ensures r == TenthHalfEven(n)
  {
    var t := TenthHalfEven(n);
    assert -10 <= 10 * (r - t) <= 10;
  }
}
