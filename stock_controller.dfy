/**
  The stock controller of controllers/stock-controller.js: a ledger of stock
  documents and a log of sales, and the request handlers that open a day's
  stock, restock it, record a sale and roll stock forward into a new day.
  Dates are day numbers, so the day before `d` is `d - 1`; the current date
  is a parameter; every lookup filters on date, tyre size and status only.
 */
module StockController {
  import opened Wrappers
  import opened StockModel
  import opened StockStore

  /** What a handler answers; the HTTP status the source sends is noted on each. */
  datatype Outcome =
    | Created            // 201
    | Updated            // 200
    | Forbidden          // 403: role is neither owner nor worker
    | OpenStockExists    // 400: open stock already exists for this tyre size
    | OpenStockNotFound  // 404: open stock not found for this tyre size and date
    | ItemNotFound       // 404: item not found in stock
    | InsufficientStock  // 400: insufficient stock quantity

  /** The roles allowed to change stock. */
  predicate Permitted(role: string) {
    role == "owner" || role == "worker"
  }

  /** The body of an add-stock or update-open-stock request. */
  datatype StockEntry = StockEntry(
    date: int,
    quantity: int,
    tyreSize: string,
    SSP: string,
    totalAmount: int,
    pricePerUnit: int,
    location: string)
  {
    /** The document these fields make under the given status. */
    function Record(status: Status): StockRecord {
      StockRecord(date, None, tyreSize, quantity, SSP, totalAmount, pricePerUnit, location, status)
    }
  }

  /** A sale as the controller builds it. */
  datatype SaleRecord = SaleRecord(
    date: int,
    quantity: int,
    totalAmount: int,
    customerName: string,
    phoneNumber: string,
    comment: string,
    tyreSize: string,
    user: string)

  /** The body of a sale request; an absent date means the current day. */
  datatype SaleRequest = SaleRequest(
    date: Option<int>,
    quantity: int,
    customerName: string,
    phoneNumber: string,
    comment: string,
    tyreSize: string,
    pricePerUnit: int)

  /** A document with `quantity` and `totalAmount` added to its running figures. */
  function Added(r: StockRecord, quantity: int, totalAmount: int): StockRecord {
    r.(quantity := r.quantity + quantity, totalAmount := r.totalAmount + totalAmount)
  }

  /** Today's open-stock copy of an earlier document; the comment is not carried. */
  function Rolled(r: StockRecord, today: int): StockRecord {
    StockRecord(today, None, r.tyreSize, r.quantity, r.SSP, r.totalAmount, r.pricePerUnit, r.location, OpenStock)
  }

  /** The documents `addStock` creates on its second and third paths are what the schema builds from the entry's fields. */
  lemma EntryIsSchemaDocument(e: StockEntry, status: Status, now: int)
    ensures NewStock(StockInput(Some(e.date), None, e.tyreSize, Some(e.quantity), e.SSP, Some(e.totalAmount),
                                Some(e.pricePerUnit), e.location, Some(StatusName(status))), now)
            == Some(e.Record(status))
  {
  }

  /** The copies `getOpenStock` saves are what the schema builds from the copied fields. */
  lemma RolledIsSchemaDocument(r: StockRecord, today: int, now: int)
    ensures NewStock(StockInput(Some(today), None, r.tyreSize, Some(r.quantity), r.SSP, Some(r.totalAmount),
                                Some(r.pricePerUnit), r.location, Some(StatusName(OpenStock))), now)
            == Some(Rolled(r, today))
  {
  }

  /** The copies the lazy roll-forward saves, one per earlier document, in the same order. */
  function RollForward(previous: seq<StockRecord>, today: int): (r: seq<StockRecord>)
    ensures |r| == |previous|
    ensures forall k :: 0 <= k < |r| ==> r[k] == Rolled(previous[k], today)
    ensures forall x :: x in r ==> x.date == today && x.status == OpenStock
  {
    if |previous| == 0 then [] else [Rolled(previous[0], today)] + RollForward(previous[1..], today)
  }

  /** Rolling one more document forward appends exactly its copy. */
  lemma RollForwardSnoc(previous: seq<StockRecord>, i: nat, today: int)
    requires i < |previous|
    ensures RollForward(previous[..i + 1], today) == RollForward(previous[..i], today) + [Rolled(previous[i], today)]
  {
    var longer, shorter := RollForward(previous[..i + 1], today), RollForward(previous[..i], today);
    assert forall k :: 0 <= k < i ==> longer[k] == shorter[k];
  }

  /** Today's open-stock scan finds exactly the copies. */
  lemma {:induction false} RollForwardFound(previous: seq<StockRecord>, today: int)
    ensures Find(RollForward(previous, today), OnDay(today, OpenStock)) == RollForward(previous, today)
  {
    if |previous| > 0 {
      var r := RollForward(previous, today);
      assert r[1..] == RollForward(previous[1..], today);
      RollForwardFound(previous[1..], today);
    }
  }

  /**
    Carry-forward: for every tyre size, the copies hold today as open stock
    exactly the quantity the earlier documents held on their day.
   */
  lemma {:induction false} RollForwardStock(previous: seq<StockRecord>, day: int, status: Status, today: int, tyreSize: string)
    requires forall j :: 0 <= j < |previous| ==> previous[j].date == day && previous[j].status == status
    ensures StockOf(RollForward(previous, today), Key(today, tyreSize, OpenStock)) == StockOf(previous, Key(day, tyreSize, status))
  {
    if |previous| > 0 {
      var r := RollForward(previous, today);
      assert r[1..] == RollForward(previous[1..], today);
      RollForwardStock(previous[1..], day, status, today, tyreSize);
    }
  }

  class Ledger {
    /** The stock collection, in insertion order. */
    var stocks: seq<StockRecord>
    /** The sales collection, in insertion order. */
    var sales: seq<SaleRecord>

    constructor ()
      ensures stocks == [] && sales == []
    {
      stocks := [];
      sales := [];
    }

    /** `getOpenStockDays`: every open-stock-day document, as often as it is stored. */
    function GetOpenStockDays(): (r: seq<StockRecord>)
      reads this
      ensures forall x :: x in r <==> x in stocks && x.status == OpenStockDay
      ensures forall x :: multiset(r)[x] == if x.status == OpenStockDay then multiset(stocks)[x] else 0
    {
      FindCount(stocks, Query(None, None, OpenStockDay));
      Find(stocks, Query(None, None, OpenStockDay))
    }

    /** `getSalesRecords`: a plain read of the whole sales log. */
    function GetSalesRecords(): seq<SaleRecord>
      reads this
    {
      sales
    }

    /**
      `getExistingStock`: today's existing-stock documents, or today's
      open-stock documents when there are none.
     */
    function GetExistingStock(today: int): (r: seq<StockRecord>)
      reads this
      ensures (exists x :: x in stocks && x.date == today && x.status == ExistingStock) ==>
                forall x :: x in r <==> x in stocks && x.date == today && x.status == ExistingStock
      ensures (forall x :: x in stocks && x.date == today ==> x.status != ExistingStock) ==>
                forall x :: x in r <==> x in stocks && x.date == today && x.status == OpenStock
      ensures (exists x :: x in stocks && x.date == today && x.status == ExistingStock) ==>
                forall x :: multiset(r)[x] == if x.date == today && x.status == ExistingStock then multiset(stocks)[x] else 0
      ensures (forall x :: x in stocks && x.date == today ==> x.status != ExistingStock) ==>
                forall x :: multiset(r)[x] == if x.date == today && x.status == OpenStock then multiset(stocks)[x] else 0
    {
      var existing := Find(stocks, OnDay(today, ExistingStock));
      FindCount(stocks, OnDay(today, ExistingStock));
      FindCount(stocks, OnDay(today, OpenStock));
      if |existing| == 0 then Find(stocks, OnDay(today, OpenStock))
      else assert existing[0] in existing; existing
    }

    /**
      `addStock`: refuses a second open stock for the day; otherwise adds the
      entry to yesterday's existing stock if there is one, or else saves it as
      today's open stock if yesterday had open stock, or else saves it as both
      today's open and existing stock.
     */
    method AddStock(role: string, e: StockEntry) returns (o: Outcome)
      modifies this
      ensures sales == old(sales)
      ensures !Permitted(role) ==> o == Forbidden && stocks == old(stocks)
      ensures Permitted(role) && FirstMatch(old(stocks), Key(e.date, e.tyreSize, OpenStock)).Some? ==>
                o == OpenStockExists && stocks == old(stocks)
      ensures o == Created <==> Permitted(role) && FirstMatch(old(stocks), Key(e.date, e.tyreSize, OpenStock)).None?
      ensures o == Created ==>
                match FirstMatch(old(stocks), Key(e.date - 1, e.tyreSize, ExistingStock))
                case Some(i) =>
                  && stocks == old(stocks)[i := Added(old(stocks)[i], e.quantity, e.totalAmount)]
                  && StockOf(stocks, Key(e.date - 1, e.tyreSize, ExistingStock))
                     == old(StockOf(stocks, Key(e.date - 1, e.tyreSize, ExistingStock))) + e.quantity
                case None =>
                  if FirstMatch(old(stocks), Key(e.date - 1, e.tyreSize, OpenStock)).Some?
                  then stocks == old(stocks) + [e.Record(OpenStock)]
                  else stocks == old(stocks) + [e.Record(OpenStock), e.Record(ExistingStock)]
    {
      if !Permitted(role) {
        return Forbidden;
      }
      if FirstMatch(stocks, Key(e.date, e.tyreSize, OpenStock)).Some? {
        return OpenStockExists;
      }
      var previous := FirstMatch(stocks, Key(e.date - 1, e.tyreSize, ExistingStock));
      if previous.Some? {
        var i := previous.value;
        var key := Key(e.date - 1, e.tyreSize, ExistingStock);
        var v := Added(stocks[i], e.quantity, e.totalAmount);
        StockOfUpdate(stocks, i, v, key);
        stocks := stocks[i := v];
      } else if FirstMatch(stocks, Key(e.date - 1, e.tyreSize, OpenStock)).Some? {
        stocks := stocks + [e.Record(OpenStock)];
      } else {
        var created := [e.Record(OpenStock), e.Record(ExistingStock)];
        stocks := stocks + created;
      }
      o := Created;
    }

    /**
      `updateOpenStock`: restocks a day that has open stock. Without an
      existing stock for the day it saves one holding the open stock plus the
      entry; with one, it adds the entry to it.
     */
    method UpdateOpenStock(role: string, e: StockEntry) returns (o: Outcome)
      modifies this
      ensures sales == old(sales)
      ensures !Permitted(role) ==> o == Forbidden && stocks == old(stocks)
      ensures Permitted(role) && FirstMatch(old(stocks), Key(e.date, e.tyreSize, OpenStock)).None? ==>
                o == OpenStockNotFound && stocks == old(stocks)
      ensures o == Updated <==> Permitted(role) && FirstMatch(old(stocks), Key(e.date, e.tyreSize, OpenStock)).Some?
      ensures o == Updated ==>
                var open := old(stocks)[FirstMatch(old(stocks), Key(e.date, e.tyreSize, OpenStock)).value];
                match FirstMatch(old(stocks), Key(e.date, e.tyreSize, ExistingStock))
                case None =>
                  stocks == old(stocks) + [Added(e.Record(ExistingStock), open.quantity, open.totalAmount)]
                case Some(i) =>
                  stocks == old(stocks)[i := Added(old(stocks)[i], e.quantity, e.totalAmount)]
      ensures o == Updated ==>
                var open := old(stocks)[FirstMatch(old(stocks), Key(e.date, e.tyreSize, OpenStock)).value];
                var before := FirstMatch(old(stocks), Key(e.date, e.tyreSize, ExistingStock));
                var after := FirstMatch(stocks, Key(e.date, e.tyreSize, ExistingStock));
                && after.Some?
                && stocks[after.value].quantity
                   == e.quantity + (if before.Some? then old(stocks)[before.value].quantity else open.quantity)
    {
      if !Permitted(role) {
        return Forbidden;
      }
      var openAt := FirstMatch(stocks, Key(e.date, e.tyreSize, OpenStock));
      if openAt.None? {
        return OpenStockNotFound;
      }
      var key := Key(e.date, e.tyreSize, ExistingStock);
      var open := stocks[openAt.value];
      var existingAt := FirstMatch(stocks, key);
      if existingAt.None? {
        var created := Added(e.Record(ExistingStock), open.quantity, open.totalAmount);
        stocks := stocks + [created];
        assert Hit(key, stocks[|stocks| - 1]);
      } else {
        var i := existingAt.value;
        var v := Added(stocks[i], e.quantity, e.totalAmount);
        stocks := stocks[i := v];
        assert Hit(key, stocks[i]);
      }
      o := Updated;
    }

    /**
      `recordSale`: debits the day's existing stock by the sold quantity and
      its price, then logs the sale. Refuses when the day has no existing
      stock for the tyre size or when it holds less than is sold.
     */
    method RecordSale(role: string, user: string, request: SaleRequest, today: int) returns (o: Outcome)
      modifies this
      ensures o != Created ==> stocks == old(stocks) && sales == old(sales)
      ensures !Permitted(role) ==> o == Forbidden
      ensures var day := request.date.GetOr(today);
              var at := FirstMatch(old(stocks), Key(day, request.tyreSize, ExistingStock));
              && (Permitted(role) && at.None? ==> o == ItemNotFound)
              && (Permitted(role) && at.Some? && old(stocks)[at.value].quantity < request.quantity ==> o == InsufficientStock)
              && (o == Created <==> Permitted(role) && at.Some? && request.quantity <= old(stocks)[at.value].quantity)
      ensures o == Created ==>
                var day := request.date.GetOr(today);
                var key := Key(day, request.tyreSize, ExistingStock);
                var i := FirstMatch(old(stocks), key).value;
                var amount := request.quantity * request.pricePerUnit;
                && stocks == old(stocks)[i := Added(old(stocks)[i], -request.quantity, -amount)]
                && stocks[i].quantity == old(stocks)[i].quantity - request.quantity >= 0
                && stocks[i].totalAmount == old(stocks)[i].totalAmount - amount
                && StockOf(stocks, key) == old(StockOf(stocks, key)) - request.quantity
                && sales == old(sales) + [SaleRecord(day, request.quantity, amount, request.customerName,
                                                      request.phoneNumber, request.comment, request.tyreSize, user)]
    {
      if !Permitted(role) {
        return Forbidden;
      }
      var day := request.date.GetOr(today);
      var key := Key(day, request.tyreSize, ExistingStock);
      var existingAt := FirstMatch(stocks, key);
      if existingAt.None? {
        return ItemNotFound;
      }
      var i := existingAt.value;
      var amount := request.quantity * request.pricePerUnit;
      if stocks[i].quantity < request.quantity {
        return InsufficientStock;
      }
      var v := Added(stocks[i], -request.quantity, -amount);
      StockOfUpdate(stocks, i, v, key);
      stocks := stocks[i := v];
      sales := sales + [SaleRecord(day, request.quantity, amount, request.customerName,
                                   request.phoneNumber, request.comment, request.tyreSize, user)];
      o := Created;
    }

    /** Saves today's open-stock copy of each earlier document, one at a time. */
    method SaveRolled(previous: seq<StockRecord>, today: int)
      modifies this
      ensures stocks == old(stocks) + RollForward(previous, today)
      ensures sales == old(sales)
    {
      var i := 0;
      while i < |previous|
        invariant 0 <= i <= |previous|
        invariant stocks == old(stocks) + RollForward(previous[..i], today)
        invariant sales == old(sales)
      {
        RollForwardSnoc(previous, i, today);
        stocks := stocks + [Rolled(previous[i], today)];
        i := i + 1;
      }
      assert previous[..i] == previous;
    }

    /**
      `getOpenStock`: today's open stock. When today has none yet, it is first
      rolled forward from yesterday's existing stock, or, when yesterday had
      no existing stock, from yesterday's open stock.
     */
    method GetOpenStock(today: int) returns (openStock: seq<StockRecord>)
      modifies this
      ensures sales == old(sales)
      ensures openStock == Find(stocks, OnDay(today, OpenStock))
      ensures |Find(old(stocks), OnDay(today, OpenStock))| > 0 ==>
                stocks == old(stocks) && openStock == Find(old(stocks), OnDay(today, OpenStock))
      ensures |Find(old(stocks), OnDay(today, OpenStock))| == 0 ==>
                var existing := Find(old(stocks), OnDay(today - 1, ExistingStock));
                var source := if |existing| > 0 then existing else Find(old(stocks), OnDay(today - 1, OpenStock));
                && stocks == old(stocks) + RollForward(source, today)
                && openStock == RollForward(source, today)
    {
      openStock := Find(stocks, OnDay(today, OpenStock));
      if |openStock| == 0 {
        ghost var before := stocks;
        ghost var status := ExistingStock;
        var previous := Find(stocks, OnDay(today - 1, ExistingStock));
        if |previous| == 0 {
          previous := Find(stocks, OnDay(today - 1, OpenStock));
          status := OpenStock;
        }
        if |previous| > 0 {
          SaveRolled(previous, today);
          openStock := Find(stocks, OnDay(today, OpenStock));
        }
        CarriedForward(before, previous, today, status);
      }
    }
  }

  /**
    After rolling `previous` (the day before's documents of one status) into
    a ledger with no open stock for today, today's open-stock scan returns
    exactly the copies, and each tyre size holds the quantity it held the day
    before under that status.
   */
  lemma CarriedForward(before: seq<StockRecord>, previous: seq<StockRecord>, today: int, status: Status)
    requires Find(before, OnDay(today, OpenStock)) == []
    requires previous == Find(before, OnDay(today - 1, status))
    ensures Find(before + RollForward(previous, today), OnDay(today, OpenStock)) == RollForward(previous, today)
    ensures forall t: string :: StockOf(before + RollForward(previous, today), Key(today, t, OpenStock))
                                == StockOf(before, Key(today - 1, t, status))
  {
    FindAppend(before, RollForward(previous, today), OnDay(today, OpenStock));
    RollForwardFound(previous, today);
    forall t: string
      ensures StockOf(before + RollForward(previous, today), Key(today, t, OpenStock))
              == StockOf(before, Key(today - 1, t, status))
    {
      CarriedForwardOf(before, previous, today, status, t);
    }
  }

  /** The carry-forward of `CarriedForward` for one tyre size. */
  lemma CarriedForwardOf(before: seq<StockRecord>, previous: seq<StockRecord>, today: int, status: Status, tyreSize: string)
    requires Find(before, OnDay(today, OpenStock)) == []
    requires previous == Find(before, OnDay(today - 1, status))
    ensures StockOf(before + RollForward(previous, today), Key(today, tyreSize, OpenStock))
            == StockOf(before, Key(today - 1, tyreSize, status))
  {
    var key := Key(today, tyreSize, OpenStock);
    StockOfAppend(before, RollForward(previous, today), key);
    forall j | 0 <= j < |before| ensures !Hit(key, before[j]) {
      assert before[j] in before;
    }
    StockOfNone(before, key);
    forall j | 0 <= j < |previous| ensures previous[j].date == today - 1 && previous[j].status == status {
      assert previous[j] in previous;
    }
    RollForwardStock(previous, today - 1, status, today, tyreSize);
    StockOfFind(before, OnDay(today - 1, status), Key(today - 1, tyreSize, status));
  }
}
