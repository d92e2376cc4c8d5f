# Farm inventory ledger: stock moves and production records

A Dafny model of the core of a mealworm farm's inventory backend. It has two parts:

- **The `/stock` routes** (`items_stock.py`). Items are master data, and stock moves form an append-only ledger of `in` and `out` quantities per item. An item's quantity is never stored. It is derived from the moves every time it is read. `POST /stock/moves` is a guarded append: an `out` larger than the item's current quantity is refused, and nothing is written.
- **The production record** (`ui_production_record`). It validates the calendar day before any write. Then it stages, as one transaction, the production task, a feed event and an `out` move for every pallet and selected feed, and an optional output record. If any staged write fails, the state is returned exactly as it was (rollback) with an error outcome. On success every staged write is kept (commit).

Everything is a pure function over an immutable `Db` value, which holds the items, moves, tasks, feed events and output records plus a clock. A write route (`CreateItem`, `CreateStockMove`, `RecordProduction`) returns `Reply(db, result)`: the state its session holds afterwards and an `Ok`/`Err` outcome. The read routes return plain values: a list of items or moves, or a quantity report.

Modules:

- `Outcomes`: `Option`, `Result` and the error taxonomy, with the user-facing messages.
- `Calendar`: the `full-date` format of RFC 3339 (sections 5.6 and 5.7) and the Gregorian leap-year rule (appendix C).
- `Store`: the entities and the database state.
- `Sorting`: insertion sort by a total preorder, and lexicographic string order.
- `Ledger`: the `/stock` routes.
- `Production`: the production-record transaction.
- `Scenarios`: the fixture of the integration tests (two pallets with 10 and 8 trays, one feed item, a 100 kg seed purchase) and the outcomes the tests expect.

## Model

| member | source | states |
|---|---|---|
| `Ledger.StockQtyIsNet` | tenebrio_farm/backend/app/routers/items_stock.py:40-42 | An item's quantity, sum(in) − sum(out), equals the ledger read front to back as a running signed balance. |
| `Ledger.StockQtyOrderIndependent` | tenebrio_farm/backend/app/routers/items_stock.py:40-42 | Any two ledgers holding the same moves, in any order, give every item the same quantity. |
| `Ledger.StockQtyWithoutMoves` | tenebrio_farm/backend/app/routers/items_stock.py:40-42 | An item that no move mentions has quantity 0. |
| `Ledger.GetItemStock` | tenebrio_farm/backend/app/routers/items_stock.py:40-42 | Echoes the requested item id and reports the running balance of that item's moves. It returns only a report, so the state cannot change. With `StockQtyWithoutMoves`, an item without moves reports 0. |
| `Ledger.CreateItem` | tenebrio_farm/backend/app/routers/items_stock.py:9-15 | Appends exactly one item whose fields are the payload's. Its id differs from every existing item's. Moves, tasks, feed events and outputs are unchanged, and the ledger stays well formed. |
| `Ledger.ListItems` | tenebrio_farm/backend/app/routers/items_stock.py:18-20 | Returns a permutation of all items, ordered by category and then by name. |
| `Ledger.CreateStockMove` | tenebrio_farm/backend/app/routers/items_stock.py:23-32 | Refused exactly when the move is an `out` and the item's quantity is strictly below the requested quantity. An `in` is never checked. A refusal leaves the state unchanged and reports the current quantity. An acceptance appends exactly one move, carrying the payload, stamped newer than every earlier move. Nothing else changes. |
| `Ledger.CreateStockMoveShiftsOnlyItsItem` | tenebrio_farm/backend/app/routers/items_stock.py:31-32 | After an accepted move of q kg, its item's quantity has changed by exactly +q (`in`) or −q (`out`). Every other item's quantity is unchanged. |
| `Ledger.CreateStockMoveKeepsStockNonNegative` | tenebrio_farm/backend/app/routers/items_stock.py:26-32 | If no item's quantity is negative before the call, none is negative after it, whether the move is accepted or refused. |
| `Ledger.ExactOutEmptiesStock` | tenebrio_farm/backend/app/routers/items_stock.py:28 | The guard is strict: an `out` of exactly the current quantity is accepted and leaves the item at 0. |
| `Ledger.ListStockMoves` | tenebrio_farm/backend/app/routers/items_stock.py:35-37 | Returns a permutation of all moves, in non-increasing `created_at` order. |
| `Ledger.ListStockMovesNewestFirst` | tenebrio_farm/backend/app/routers/items_stock.py:35-37 | In a well-formed ledger, the listing is exactly the moves in reverse order of writing, most recent first. |
| `Sorting.SortBy` | tenebrio_farm/backend/app/routers/items_stock.py:20 | For any total preorder, the result is a permutation of the input, and every earlier element is ordered before every later one. |
| `Calendar.DaysInMonth` | tenebrio_farm/backend/tests/test_production_integration.py:67 | Every month has 28 to 31 days. It has 29 exactly for February of a leap year, 30 exactly for months 4, 6, 9 and 11, and 31 exactly for months 1, 3, 5, 7, 8, 10 and 12, so February of a common year has 28. |
| `Calendar.ParseDate` | tenebrio_farm/backend/tests/test_production_integration.py:66-84 | Yields only valid dates, and a date read from a string formats back to that same string. |
| `Calendar.ParseFormatRoundTrip` | tenebrio_farm/backend/tests/test_production_integration.py:118 | Every valid date, once formatted, reads back as itself. With `ParseDate`'s contract, parsing succeeds exactly on the `full-date` strings of real dates. |
| `Production.ApplyWrite` | tenebrio_farm/backend/app/routers/items_stock.py:26-32 | A staged write fails exactly when it is an `out` move the balance guard refuses. Otherwise it adds just that row. |
| `Production.Stage` | tenebrio_farm/backend/tests/test_production_integration.py:136-139 | A staged sequence that succeeds holds all its writes together: every task, feed event and output appended in order, every move payload appended after the untouched earlier moves, and items unchanged. |
| `Production.RecordProduction` | tenebrio_farm/backend/tests/test_production_integration.py:62-139 | An invalid day gives `InvalidDate` with the state untouched, whatever fault was planned. Any error leaves the state exactly as before the call, and after a valid day the error is a rolled-back production failure. A success commits every write of the plan and returns the new task's id. |
| `Production.StageFailsOnFault` | tenebrio_farm/backend/tests/test_production_integration.py:109-113 | A write that raises at any position of the staged sequence fails the whole sequence. |
| `Production.FaultRollsBack` | tenebrio_farm/backend/tests/test_production_integration.py:134-139 | A write raising anywhere in the plan of a valid record yields a production-failure outcome, and the state equals the pre-call state. |
| `Production.StageSucceedsIffStockCovers` | tenebrio_farm/backend/app/routers/items_stock.py:26-29 | With no fault and only `out` moves, a sequence commits exactly when, for every item, the current quantity covers the total it takes. |
| `Production.RecordProductionSucceedsIffStockCovers` | tenebrio_farm/backend/app/routers/items_stock.py:26-29 | Under the modelled per-leg guard, a valid production record without a fault commits exactly when every feed's stock covers what the record consumes. |
| `Production.RecordProductionKeepsInvariants` | tenebrio_farm/backend/app/routers/items_stock.py:26-32 | Under the modelled per-leg guard, a production record, whether committed or rolled back, keeps every quantity non-negative and the ledger well formed. |
| `Scenarios.InvalidDayWritesNothing` | tenebrio_farm/backend/tests/test_production_integration.py:62-85 | For day 2026-02-31, the outcome is `InvalidDate`, carrying the "Fecha inválida" message. The state is untouched and no task was added. |
| `Scenarios.SecondStockMoveFailureRollsBack` | tenebrio_farm/backend/tests/test_production_integration.py:87-139 | The 2026-02-10 feeding record has at least two stock-move writes, and write 4 is the second of them. When it raises, the outcome is an error whose message begins "PRO falló". No task and no feed event exist, and only the seed `in` move remains. |
| `Scenarios.FeedingRecordCommits` | tenebrio_farm/backend/tests/test_production_integration.py:87-132 | With the fault removed, the same record commits: one task, feed events of 10 and 8 kg, three moves in all, and 82 kg of the feed left. |

## Left out

- HTTP transport: FastAPI routing, `Depends`, `HTTPException`, status codes 303 and 400, and the percent-encoded redirect URLs. Outcomes are `Ok`/`Err` values, and `Message` gives the text a redirect would carry.
- The persistence engine: SQLAlchemy sessions, flush and refresh, and SQLite files. Commit returns the staged state and rollback returns the original state.
- `crud.get_stock_qty` and `crud.add_stock_move` are not part of this model. The quantity is taken to be sum(in) − sum(out) over the item's moves, and a write is a plain append.
- `app/routers/production.py` is not part of this model. The plan of staged writes is: the task, then for each selected feed and each pallet a feed event followed by an `out` move of per-tray quantity × tray count, then an output record when frass or larvae totals are given. This plan shape is a modelling assumption. Every general property (`FaultRollsBack`, `RecordProductionKeepsInvariants`, the `Stage` contract) holds for any write sequence, not only for this plan.
- Production.ApplyWrite: whether the production flow checks the balance before each `out` leg is decided in `app/routers/production.py`, outside this model. The model runs the same guard as `POST /stock/moves` on every staged `out` move, and a refusal rolls back the whole record.
- Float semantics of `qty_kg`: quantities are exact reals, and a type keeps them non-negative (`Kg`). The request schema that would enforce this, `schemas.StockMoveCreate`, is not part of this model. Rendering of the current quantity inside the "Not enough stock" detail is left out; the error value carries the number instead.
- `created_at` generation: one counter (`Db.clock`) stamps moves and numbers items and tasks, and it grows by one per written row. Ties in `created_at` cannot arise in a well-formed ledger.
- `CreateStockMove` does not check that the item exists, and neither does the route (items_stock.py:23-32). The store's models are not part of this model, so whether it would reject an unknown `item_id` is not modelled.
- Form parsing: the lenient parse-or-default of `minutes` and of the numeric form fields, and the lookup of pallet ids. A request carries already-parsed numbers and resolved pallets (id and tray count). The task keeps its pallets as a list of ids. Rooms and batch months are left out.
- Calendar.ParseDate: follows RFC 3339 `full-date` strictly, so year 0000 is accepted. Python's `date` type would reject it. Alternative ISO 8601 spellings that Python's `date.fromisoformat` accepts are refused.
- Concurrency between the balance read and the write is out of scope: every operation runs on one state value.
- The `python-multipart` stub and the `patch`/`print` scaffolding of the tests. The injected failure is an explicit parameter: the position in the plan of the write that raises.
