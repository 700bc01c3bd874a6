/**
  The stock schema of models/stock-model.js: one record per (date, tyre size,
  status) entry of the stock collection, with the schema's defaults and its
  status enum.
 */
module StockModel {
  import opened Wrappers

  /** The status enum. There are exactly three states; none of them is a closing stock. */
  datatype Status = OpenStock | ExistingStock | OpenStockDay

  /** The string the schema stores for each status. */
  function StatusName(s: Status): string {
    match s
    case OpenStock => "open-stock"
    case ExistingStock => "existing-stock"
    case OpenStockDay => "open-stock-day"
  }

  /**
    Casting a status value given to the schema: an absent status takes the
    default "open-stock", a string outside the enum is a validation error.
   */
  function CastStatus(given: Option<string>): (r: Option<Status>)
    ensures given.None? ==> r == Some(OpenStock)
    ensures given.Some? && r.Some? ==> StatusName(r.value) == given.value
    ensures given.Some? && r.None? ==> forall s: Status :: StatusName(s) != given.value
  {
    match given
    case None => Some(OpenStock)
    case Some(name) =>
      if name == "open-stock" then Some(OpenStock)
      else if name == "existing-stock" then Some(ExistingStock)
      else if name == "open-stock-day" then Some(OpenStockDay)
      else None
  }

  /** Every status survives the round trip through its stored name. */
  lemma StatusNameRoundTrip(s: Status)
    ensures CastStatus(Some(StatusName(s))) == Some(s)
  {
  }

  /** A stored stock document. Dates are day numbers; amounts are integers. */
  datatype StockRecord = StockRecord(
    date: int,
    comment: Option<string>,
    tyreSize: string,
    quantity: int,
    SSP: string,
    totalAmount: int,
    pricePerUnit: int,
    location: string,
    status: Status)

  /** The fields handed to the schema when a document is built; any of the defaulted ones may be missing. */
  datatype StockInput = StockInput(
    date: Option<int>,
    comment: Option<string>,
    tyreSize: string,
    quantity: Option<int>,
    SSP: string,
    totalAmount: Option<int>,
    pricePerUnit: Option<int>,
    location: string,
    status: Option<string>)

  /**
    Building a document from `input` at time `now`: missing numbers default
    to 0, a missing date to `now`, a missing status to open-stock, and a
    status outside the enum is refused.
   */
  function NewStock(input: StockInput, now: int): (r: Option<StockRecord>)
    ensures r.Some? <==> CastStatus(input.status).Some?
    ensures input.status == Some("closing-stock") ==> r.None?
    ensures r.Some? ==> input.status.None? ==> r.value.status == OpenStock
    ensures r.Some? ==> Some(r.value.status) == CastStatus(input.status)
    ensures r.Some? ==> input.quantity.Some? ==> r.value.quantity == input.quantity.value
    ensures r.Some? ==> input.quantity.None? ==> r.value.quantity == 0
    ensures r.Some? ==> input.totalAmount.Some? ==> r.value.totalAmount == input.totalAmount.value
    ensures r.Some? ==> input.totalAmount.None? ==> r.value.totalAmount == 0
    ensures r.Some? ==> input.pricePerUnit.Some? ==> r.value.pricePerUnit == input.pricePerUnit.value
    ensures r.Some? ==> input.pricePerUnit.None? ==> r.value.pricePerUnit == 0
    ensures r.Some? ==> r.value.date == (if input.date.Some? then input.date.value else now)
    ensures r.Some? ==> r.value.tyreSize == input.tyreSize && r.value.SSP == input.SSP
                        && r.value.location == input.location && r.value.comment == input.comment
  {
    match CastStatus(input.status)
    case None => None
    case Some(status) =>
      Some(StockRecord(
        input.date.GetOr(now),
        input.comment,
        input.tyreSize,
        input.quantity.GetOr(0),
        input.SSP,
        input.totalAmount.GetOr(0),
        input.pricePerUnit.GetOr(0),
        input.location,
        status))
  }
}
