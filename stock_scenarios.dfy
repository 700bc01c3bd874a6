/**
  Walks through the handlers on a fresh ledger, using their contracts and
  the definitions of the lookups.
 */
module StockScenarios {
  import opened Wrappers
  import opened StockModel
  import opened StockStore
  import opened StockController

  /** The entry the walk-throughs open day 1 with: 10 tyres of one size at 100 each. */
  function Opening(): StockEntry {
    StockEntry(1, 10, "185/65R15", "", 1000, 100, "A")
  }

  /**
    Opening day 1 on a fresh ledger and selling 3 of its tyres: the day's
    existing stock drops to 7 worth 700 and the sale is worth 300.
   */
  method OpenAndSell() returns (ledger: Ledger, opening: Outcome, sold: Outcome)
    ensures fresh(ledger)
    ensures opening == Created && sold == Created
    ensures ledger.stocks == [Opening().Record(OpenStock), Added(Opening().Record(ExistingStock), -3, -300)]
    ensures |ledger.sales| == 1 && ledger.sales[0].totalAmount == 300
  {
    ledger := new Ledger();
    var entry := Opening();
    opening := ledger.AddStock("owner", entry);
    var open, existing := entry.Record(OpenStock), entry.Record(ExistingStock);
    assert ledger.stocks == [open, existing];
    assert [open, existing][1..] == [existing];
    sold := ledger.RecordSale("worker", "w1", SaleRequest(Some(1), 3, "C", "P", "", "185/65R15", 100), 1);
  }

  /**
    Asking for day 2's open stock after `OpenAndSell`: day 2 has none, so
    day 1's existing stock is copied into it.
   */
  method RollIntoDayTwo(ledger: Ledger)
    requires ledger.stocks == [Opening().Record(OpenStock), Added(Opening().Record(ExistingStock), -3, -300)]
    modifies ledger
    ensures ledger.stocks == old(ledger.stocks) + [Rolled(Added(Opening().Record(ExistingStock), -3, -300), 2)]
    ensures ledger.sales == old(ledger.sales)
  {
    var open, left := Opening().Record(OpenStock), Added(Opening().Record(ExistingStock), -3, -300);
    assert [open, left][1..] == [left];
    assert Find(ledger.stocks, OnDay(1, ExistingStock)) == [left];
    FindNone(ledger.stocks, OnDay(2, OpenStock));
    assert RollForward([left], 2) == [Rolled(left, 2)];
    var rolled := ledger.GetOpenStock(2);
  }

  /**
    Opening 10 tyres of one size at 100 each, selling 3, and asking the next
    day for the existing stock: the next day shows the 7 that were left,
    rolled forward as its open stock, and the sale is worth 300.
   */
  method OpenSellAndRoll() returns (opening: Outcome, sold: Outcome, saleTotal: int, nextDay: seq<StockRecord>)
    ensures opening == Created && sold == Created
    ensures saleTotal == 300
    ensures |nextDay| == 1 && nextDay[0].date == 2 && nextDay[0].status == OpenStock
    ensures nextDay[0].quantity == 7 && nextDay[0].totalAmount == 700
  {
    var ledger;
    ledger, opening, sold := OpenAndSell();
    saleTotal := ledger.sales[0].totalAmount;
    RollIntoDayTwo(ledger);
    var open, left := Opening().Record(OpenStock), Added(Opening().Record(ExistingStock), -3, -300);
    var day2 := OnDay(2, OpenStock);
    assert ledger.stocks == [open, left] + [Rolled(left, 2)];
    FindNone(ledger.stocks, OnDay(2, ExistingStock));
    FindNone([open, left], day2);
    FindAppend([open, left], [Rolled(left, 2)], day2);
    assert Find([Rolled(left, 2)], day2) == [Rolled(left, 2)];
    nextDay := ledger.GetExistingStock(2);
    assert nextDay == [Rolled(left, 2)];
  }

  /** Opening the same day twice for one tyre size: the second opening is refused and changes nothing. */
  method ReopenRefused() returns (first: Outcome, again: Outcome, records: nat)
    ensures first == Created && again == OpenStockExists && records == 2
  {
    var ledger := new Ledger();
    var entry := Opening();
    first := ledger.AddStock("owner", entry);
    assert ledger.stocks == [entry.Record(OpenStock), entry.Record(ExistingStock)];
    again := ledger.AddStock("worker", entry);
    records := |ledger.stocks|;
  }

  /**
    The open-stock guard only sees open stock: opening day 2 twice adds both
    entries to day 1's existing stock, since that path saves no open stock
    for day 2.
   */
  method RepeatedCarryForward() returns (nextDay: Outcome, nextDayAgain: Outcome, carried: int)
    ensures nextDay == Created && nextDayAgain == Created
    ensures carried == 20
  {
    var ledger := new Ledger();
    var entry := Opening();
    var first := ledger.AddStock("owner", entry);
    var open, existing := entry.Record(OpenStock), entry.Record(ExistingStock);
    assert ledger.stocks == [open, existing];
    var later := StockEntry(2, 5, "185/65R15", "", 500, 100, "A");
    assert [open, existing][1..] == [existing];
    assert FirstMatch(ledger.stocks, Key(2, "185/65R15", OpenStock)) == None;
    assert FirstMatch(ledger.stocks, Key(1, "185/65R15", ExistingStock)) == Some(1);
    nextDay := ledger.AddStock("owner", later);
    var once := Added(existing, 5, 500);
    assert ledger.stocks == [open, once];
    assert [open, once][1..] == [once];
    assert FirstMatch(ledger.stocks, Key(2, "185/65R15", OpenStock)) == None;
    assert FirstMatch(ledger.stocks, Key(1, "185/65R15", ExistingStock)) == Some(1);
    nextDayAgain := ledger.AddStock("owner", later);
    carried := ledger.stocks[1].quantity;
  }
}
