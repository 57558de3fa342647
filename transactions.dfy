/** The transaction record shared by the dashboard, the home page and the store,
    with the calendar dates and amounts it carries. */
module Transactions {

  datatype Option<T> = None | Some(value: T)

  /** A calendar date with no time component. */
  datatype Date = Date(year: int, month: int, day: int)

  /** Chronological order of calendar dates: by year, then month, then day.
      For dates written as "YYYY-MM-DD" this is also the order of the strings. */
  predicate DateLe(a: Date, b: Date)
  {
    || a.year < b.year
    || (a.year == b.year && a.month < b.month)
    || (a.year == b.year && a.month == b.month && a.day <= b.day)
  }

  /** Strictly earlier. */
  predicate DateLt(a: Date, b: Date)
  {
    !DateLe(b, a)
  }

  /** "pagar" (money owed by the user) or "receber" (money owed to the user). */
  datatype Kind = Pagar | Receber

  type Id = string

  /** One transaction. `value` is a signed amount in cents: negative for
      payables, positive for receivables, when created through the add form. */
  datatype Item = Item(
    id: Id,
    name: string,
    date: Date,
    description: string,
    category: string,
    paymentMethod: string,
    installment: string,
    paid: bool,
    value: int,
    kind: Kind)

  /** Math.abs on amounts. */
  function Abs(v: int): (r: nat)
    ensures r == v || r == -v
  {
    if v < 0 then -v else v
  }
}
