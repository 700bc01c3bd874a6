# Tyre stock ledger

A Dafny model of the stock controller of a tyre shop's back end. The shop
keeps a collection of stock documents. Each document is identified by a date,
a tyre size and a status: `open-stock`, `existing-stock` or `open-stock-day`.
It also keeps a log of sales. Four handlers change the collection. Only
owners and workers may call the first three; `getOpenStock` is open to any
caller:

- `addStock` opens a day for a tyre size.
- `updateOpenStock` restocks an opened day.
- `recordSale` debits the day's existing stock and logs the sale.
- `getOpenStock` returns today's open stock. When today has none yet, it first
  rolls yesterday's stock forward into it.

Three handlers only read: `getExistingStock`, `getOpenStockDays` and
`getSalesRecords`. `getSalesRecords` returns the whole sales log as stored,
so the model's `GetSalesRecords` is a plain read of `sales`.

The model has four modules:

- `StockModel` (`stock_model.dfy`) is the stock schema. It holds the `Status`
  enum, the `StockRecord` document, and the schema's defaults and enum
  validation (`NewStock`, `CastStatus`).
- `StockStore` (`stock_store.dfy`) models the collection queries the
  controller uses, as functions over the documents in insertion order:
  - `findOne` is `FirstMatch`, the position of the first matching document.
  - `find` is `Find`.
  - `StockOf` totals the quantity a filter selects. The lemmas about it show
    how each kind of write moves that total.
- `StockController` (`stock_controller.dfy`) holds the `Ledger` class. Its
  fields `stocks` and `sales` are the two collections. Its methods are the
  handlers that write, plus `SaveRolled`, the copy loop inside `getOpenStock`.
  Its `reads this` functions are the handlers that only read.
- `StockScenarios` (`stock_scenarios.dfy`) holds client walk-throughs on a
  fresh ledger. They rely on the handlers' contracts and on the definitions
  of the lookup functions (`Find`, `FirstMatch`, `GetExistingStock`).

Conventions of the model:

- Dates are integer day numbers, so the day before `d` is `d - 1`.
- "Today" is a parameter.
- Quantities and amounts are mathematical integers.
- The caller's role is a string. `addStock`, `updateOpenStock` and
  `recordSale` answer `Forbidden`, and change nothing, unless the role is
  `"owner"` or `"worker"`. `getOpenStock` has no role check, so any caller
  triggers its roll-forward; the model's `GetOpenStock` takes no role.
- Every lookup filters on date, tyre size and status only, as the code does.
  Location is stored but never filtered on.
- The code has no closing-stock status and no closing-stock operation, so the
  model has neither.

The model follows the code as written:

- `addStock` adds a carried-forward entry to *yesterday's* existing-stock
  document. It creates nothing dated today
  (controllers/stock-controller.js:45-49).
- Because of that, the duplicate-open guard only fires once an open-stock
  document exists for the date. Opening the same next day twice adds both
  entries to yesterday's document. `StockScenarios.RepeatedCarryForward`
  exhibits this.
- `recordSale` looks only for the day's existing-stock document. It does not
  fall back to yesterday's existing stock or to today's open stock.
- `findOne` returns the first match. It does not report duplicates.

## Model

| member | source | states |
|---|---|---|
| `StockModel.CastStatus` | models/stock-model.js:12-16 | A missing status becomes open-stock. An accepted status is exactly one of the three enum names. Any other string, including "closing-stock", is refused. |
| `StockModel.StatusNameRoundTrip` | models/stock-model.js:14 | Each of the three statuses is accepted back from the name the schema stores for it. |
| `StockModel.NewStock` | models/stock-model.js:3-17 | A missing quantity, totalAmount or pricePerUnit defaults to 0. A missing date defaults to the current time. A missing status defaults to open-stock. A status outside the enum fails validation. Every given field is kept: the stored status is the one the given name casts to, and a given date, quantity, totalAmount or pricePerUnit is stored as given. |
| `StockStore.FirstMatch` | controllers/stock-controller.js:23-27 | `findOne` returns the first document the filter selects, and no document before it matches. It returns nothing only when no document matches. |
| `StockStore.Find` | controllers/stock-controller.js:255-258 | `find` returns exactly the documents the filter selects, and never more documents than the collection holds. |
| `StockStore.FindCount` | controllers/stock-controller.js:255-258 | `find` returns each selected document as many times as the collection stores it, and no other document. |
| `StockStore.FindAppend` | controllers/stock-controller.js:282-289 | Scanning after appending documents returns the old matches followed by the new ones. |
| `StockStore.StockOfUpdate` | controllers/stock-controller.js:213-215 | Rewriting one document in place moves a filter's total quantity by exactly the change in what that document contributes. |
| `StockStore.StockOfFind` | controllers/stock-controller.js:264-267 | A narrower filter totalled over a day's scan equals the same total taken over the whole collection. |
| `StockController.Ledger.AddStock` | controllers/stock-controller.js:5-106 | Answers Forbidden, or OpenStockExists when the date already has open stock for the tyre size, and in both cases changes nothing. Otherwise it answers Created and does one of three things. With yesterday's existing stock, it adds exactly the entry's quantity and totalAmount to that one document and changes nothing else; yesterday's existing total for the size rises by exactly the quantity. Failing that, with yesterday's open stock, it appends exactly one open-stock document. With neither, it appends exactly one open-stock and one existing-stock document, both holding the entry. Sales never change. |
| `StockController.Ledger.UpdateOpenStock` | controllers/stock-controller.js:108-169 | Answers Forbidden, or OpenStockNotFound when the date has no open stock for the tyre size, and in both cases changes nothing. Otherwise it answers Updated. Without an existing-stock document it appends one holding the open stock's quantity and totalAmount plus the entry's. With one, it adds the entry to that document only. Either way, the next existing-stock lookup finds the new quantity. |
| `StockController.Ledger.RecordSale` | controllers/stock-controller.js:171-248 | Every refusal leaves stocks and sales unchanged. The refusals are Forbidden, ItemNotFound (no existing stock for the day and size) and InsufficientStock (less stock than the sale needs). The day is the request's date, or today. A sale succeeds exactly when the role is allowed, the document exists and it holds enough. On success, that document's quantity drops by exactly the sold quantity and stays non-negative. Its totalAmount drops by quantity times price, nothing else changes, and exactly one sale worth quantity times price is appended. |
| `StockController.Ledger.SaveRolled` | controllers/stock-controller.js:271-283 | Saving the copies one at a time appends exactly today's open-stock copy of each earlier document, in order. |
| `StockController.Ledger.GetOpenStock` | controllers/stock-controller.js:251-327 | When today already has open stock, it writes nothing and returns it. Otherwise it appends one open-stock copy, dated today, of each of yesterday's existing-stock documents. When there are none, it copies each of yesterday's open-stock documents instead. It returns exactly today's open stock afterwards. Sales never change. |
| `StockController.EntryIsSchemaDocument` | controllers/stock-controller.js:71-94 | The open-stock and existing-stock documents `addStock` creates when yesterday has no existing stock are exactly what the schema makes of the entry's fields under that status name. |
| `StockController.RolledIsSchemaDocument` | controllers/stock-controller.js:272-281 | Each roll-forward copy is exactly what the schema makes of the copied fields under "open-stock", dated today. |
| `StockController.RollForward` | controllers/stock-controller.js:272-281 | Each copy keeps the earlier document's tyre size, quantity, SSP, totalAmount, pricePerUnit and location. Each is dated today with status open-stock, and there is one per earlier document, in order. |
| `StockController.RollForwardFound` | controllers/stock-controller.js:285-289 | Today's open-stock scan over the copies returns exactly the copies. |
| `StockController.RollForwardStock` | controllers/stock-controller.js:271-283 | For every tyre size, the copies hold as today's open stock exactly the quantity the earlier documents held. |
| `StockController.CarriedForward` | controllers/stock-controller.js:261-289 | After a roll-forward into a day with no open stock, today's scan returns exactly the copies. For every tyre size, today's open-stock quantity equals yesterday's quantity under the status rolled from. |
| `StockController.CarriedForwardOf` | controllers/stock-controller.js:261-283 | The same carry-forward, for one tyre size. |
| `StockController.Ledger.GetExistingStock` | controllers/stock-controller.js:329-351 | Returns exactly today's existing-stock documents when there are any, and otherwise exactly today's open-stock documents, each as many times as it is stored. It never writes. |
| `StockController.Ledger.GetOpenStockDays` | controllers/stock-controller.js:353-363 | Returns exactly the open-stock-day documents, whatever their date, each as many times as it is stored. |
| `StockScenarios.OpenSellAndRoll` | controllers/stock-controller.js:70-351 | Opening 10 tyres at 100 on an empty ledger, selling 3, and reading the next day's stock shows 7 tyres worth 700, rolled forward as open stock. The sale is worth 300. |
| `StockScenarios.ReopenRefused` | controllers/stock-controller.js:22-34 | Opening the same day twice is refused the second time, and the ledger keeps its two documents. |
| `StockScenarios.RepeatedCarryForward` | controllers/stock-controller.js:36-49 | Opening the next day twice succeeds both times. Each time, yesterday's existing stock grows by the entry: 10 + 5 + 5 = 20. |

## Left out

- The email notification sent after a sale (controllers/stock-controller.js:231-238) is external I/O. The mailer module is not part of this model.
- `StockController.Ledger.RecordSale` treats the debit and the logged sale as one atomic step that answers `Created`. The code saves them one after the other (controllers/stock-controller.js:215, 228) and then sends the email (:238). If the sale's save fails, the debit stays applied and the handler answers 400. If the email fails, both writes stay and the handler still answers 400 (:242-246). Neither partial outcome is modelled.
- Persistence is left out: Mongoose's `save`, `find` and `findOne` as I/O, the connection, and `server.js`. The collections are in-memory sequences. `findOne` and `find` are assumed to return documents in insertion order.
- A storage failure, which the handlers turn into a 500 or 400 response, is not modelled. HTTP responses are the `Outcome` constructors, with their status codes noted in comments.
- The wall clock is a parameter. The code reads it when `recordSale` gets no date, and in `getOpenStock` and `getExistingStock`.
- Dates are day numbers. `addStock` normalises its date to a `YYYY-MM-DD` string, while `updateOpenStock` uses the request's date as given. The server's time zone can shift a computed "previous day". None of these string and time-zone effects is modelled.
- Amounts are integers, not JavaScript floating-point numbers. Request fields are assumed present and numeric. A missing or string `quantity`, which JavaScript's `+=` would turn into `NaN` or a concatenation, is not modelled.
- Concurrency is left out: races between a lookup and the save that follows it. The model is sequential.
- The sale is modelled as the controller builds it. models/sales-model.js declares no `totalAmount`, `phoneNumber` or `comment` field (it has `comments`), and it declares a `pricePerUnit` that the controller never sets. Under Mongoose's default strict mode, the stored sale would lose those fields. The sales schema is not part of this model.
- `StockController.Ledger.AddStock`, `UpdateOpenStock`, `RecordSale` and `GetOpenStock` do not state that open-stock-day documents are untouched. This follows from their full new-state equations, since each writes only open-stock or existing-stock documents.
- Authentication and everything outside the stock controller are not part of this model: the JWT middleware, owner and worker signup and login, user CRUD, special orders, routing, and the other schemas.
