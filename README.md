# OrdersService order pipeline, modelled in Dafny

This project models the order ingestion-and-lookup pipeline of OrdersService, a Go service. The service reads orders from a Kafka topic, writes them to Postgres, mirrors them in an in-memory cache, and serves `GET /order/{order_uid}` from the cache, falling back to the database.

Modules, one per Go package of the core:

- `Orders` (orders.dfy): the order entity (delivery, payment, items), Go's zero `Order{}` and the error values.
- `Wrappers` (wrappers.dfy): `Option` and `Result`, standing for Go's nil pointers and `(T, error)` pairs.
- `Cache` (cache.dfy): `OrderCache`, a class over the `orders` map, with `Set`, `Get`, `GetAll` and `RestoreFromDB`. `Restored` specifies a bulk restore.
- `Repository` (repository.dfy): `FormatQuery`, `FindOne` and `FindAll`.
  - The database client is an oracle: a `Client` value says what each query answers.
  - A `QueryRow` on a UID with no row answers `ErrNoRows`, as pgx does.
  - A cursor (`Rows`) is the outcome of each row's `Scan`, followed by what `rows.Err()` reports.
  - `FindOneSpec` and `FindAllSpec` specify the two methods.
- `Kafka` (kafka.dfy): the `Consumer` class, with `ProcessOrder`, one pass of the `consumeMessages` loop (`ConsumeOnce`), the loop over a finite script of passes (`ConsumeMessages`), `Start` and `Stop`.
  - Each pass's oracle outcomes (fetch, decode, `CreateOrder`) are inputs.
  - The consumer logs every `CreateOrder` call (`writes`) and every commit (`committed`).
  - `Next` and `Run` specify the loop on values.
- `Handlers` (handlers.dfy): `GetOrderByUID` over an abstract `FindOne` reply. `Respond` specifies its four-way decision.

Where the code does something other than what a reader of the service would expect, the model follows the code:

- A message that does not decode, or that decodes to an order with an empty UID, is **not committed**: the `continue` comes before the commit. Such messages are not committed themselves; the next commit on the same partition moves the group offset past them, so they come back only after a restart or rebalance that happens before such a commit.
- A UID that is in neither the cache nor the database gets **500, not 404**. `FindOne` turns a missing row into an error and never returns a nil order, so the handler's 404 branch is unreachable with this repository (`Handlers.NotFoundUnreachable`).
- `Stop` is **not idempotent**: a second close of the stop channel is a Go runtime panic, and `Start` already closes it.
- `CreateOrder` is unimplemented in the code (it panics). Here it is an abstract write that succeeds or fails.

## Model

| member | source | states |
|---|---|---|
| `Cache.OrderCache.constructor` | internal/cache/cache.go:15-19 | a new cache has no entries |
| `Cache.OrderCache.Set` | internal/cache/cache.go:21-25 | the entry for `o.OrderUID` becomes `o`; the key set grows by that UID only; every other key keeps its value, so a repeated Set gives the same map |
| `Cache.OrderCache.Get` | internal/cache/cache.go:27-32 | `ok` holds exactly when the UID is cached; a hit returns the cached order; a miss returns the zero order; the map is not modified; in a valid cache a hit carries the requested UID, since every order is filed under its own UID (lines 24 and 53) |
| `Cache.OrderCache.GetAll` | internal/cache/cache.go:34-42 | the snapshot has one element per entry, each the value of a distinct key, and every key is visited, in an unspecified order |
| `Cache.OrderCache.RestoreFromDB` | internal/cache/cache.go:44-57 | a loader error is returned and the map is unchanged; on success the loaded orders are written in list order (`Restored`) |
| `Cache.LastIndexOf` | internal/cache/cache.go:52-54 | finds the last list position carrying a UID, or reports that no position carries it |
| `Cache.RestoredAt` | internal/cache/cache.go:50-56 | after a restore, each loaded UID maps to the last loaded order with that UID; any other key keeps its old entry or stays absent |
| `Cache.RestoredKeys` | internal/cache/cache.go:52-54 | the restored keys are the old keys plus the loaded UIDs, so duplicates collapse |
| `Cache.RestoredKeyedByUid` | internal/cache/cache.go:52-54 | restoring keeps every entry filed under its own order's UID |
| `Repository.Strip` | internal/repository/repository.go:31 | the result contains exactly the input's characters other than the removed one |
| `Repository.StripCounts` | internal/repository/repository.go:31 | the removed character is gone; every other character keeps its count; the length drops by its occurrences |
| `Repository.FormatQuery` | internal/repository/repository.go:30-32 | the result contains exactly the query's characters other than tab and newline |
| `Repository.FormatQueryCounts` | internal/repository/repository.go:30-32 | no tab or newline remains; other characters keep their counts; the length is the input length minus the tabs and newlines |
| `Repository.FormatQueryKeepsOrder` | internal/repository/repository.go:30-32 | each character is dropped (tab, newline) or kept in place between what the text before and after it becomes |
| `Repository.FormatQueryIdempotent` | internal/repository/repository.go:30-32 | formatting twice equals formatting once |
| `Repository.Collect` | internal/repository/repository.go:172-192 | the item loop succeeds exactly when every row scans, and then yields every scanned value in row order |
| `Repository.CollectFirstError` | internal/repository/repository.go:188-190 | the loop's error is the one of the first row whose scan fails |
| `Repository.ItemsOf` | internal/repository/repository.go:165-198 | the items lookup succeeds exactly when the query, every row's scan and `rows.Err()` succeed, and then returns the scanned rows in row order; on failure the query's error comes first, then the first failing scan's, then `rows.Err()` |
| `Repository.FindOneSpec` | internal/repository/repository.go:70-201 | FindOne's pointer is never nil, and on any error it points to the empty order |
| `Repository.FindOneSucceeds` | internal/repository/repository.go:83-200 | FindOne succeeds exactly when all four lookups do; the order is then `Assemble` of the scanned order row, delivery, payment and items, which copies every scanned column into the field of the same name, items in row order |
| `Repository.FindOneKeepsUid` | internal/repository/repository.go:79-95 | with rows selected by `WHERE order_uid = $1`, a found order carries the requested UID |
| `Repository.MissingOrderIsNoRows` | internal/repository/repository.go:83-99 | a UID with no order row yields the empty order plus ErrNoRows, never a nil order |
| `Repository.FindOne` | internal/repository/repository.go:70-201 | the lookups run in order; the first failure returns its own error with the empty order; no later lookup is issued; success issues all four |
| `Repository.CollectOrders` | internal/repository/repository.go:49-64 | the UID loop succeeds exactly when every UID scans and every FindOne succeeds, and then holds FindOne's order for each row, in row order |
| `Repository.CollectOrdersFirstError` | internal/repository/repository.go:49-64 | the UID loop's error is that of the first failing UID row: its scan error, or else the error FindOne returns for it |
| `Repository.FindAllSpec` | internal/repository/repository.go:38-68 | FindAll succeeds exactly when the UID query, the loop and the cursor all succeed, and then returns the whole row-by-row collection, never a partial list; the query's error comes first, then the loop's, then the cursor's |
| `Repository.FindAllAsWritten` | internal/repository/repository.go:38-68 | FindAll as written: it succeeds exactly when the UID query and the loop do, whatever the cursor's final error, and then returns FindOne's order for each UID row read, in row order; a query error, or the loop's first error, is returned as is |
| `Repository.FindAllAsWrittenLosesCursorError` | internal/repository/repository.go:49-67 | exhibit: a cursor that fails after one row makes the code as written return exactly the order FindOne gives for the row read, and no error, while the corrected FindAll returns the cursor's error |
| `Repository.FindAll` | internal/repository/repository.go:38-68 | the result is `FindAllSpec`'s (with the `rows.Err()` check, see Findings): one order per UID row in row order, or a nil list plus the query's error, the first failing row's error, or the cursor's error |
| `Kafka.PassEffects` | internal/kafka/consumer.go:65-88 | fetch, decode or empty-UID failures cause no write, no cache update, no commit; a valid order is written and committed whether or not the write fails, and is cached only on success |
| `Kafka.RunWritesThrough` | internal/kafka/consumer.go:82-98 | over any run, the cache equals the old cache plus exactly the successfully written orders, in order; a failed write never reaches the cache |
| `Kafka.RunCommits` | internal/kafka/consumer.go:72-88 | over any run, the commits are exactly the messages that decoded to an order with a UID, in order |
| `Kafka.NothingBlocksTheNextOrder` | internal/kafka/consumer.go:65-88 | whatever the previous message was, a following valid order whose write succeeds is cached |
| `Kafka.ProcessingTwiceIsProcessingOnce` | internal/kafka/consumer.go:98 | processing the same valid order twice with successful writes leaves the cache of processing it once |
| `Kafka.Consumer.constructor` | internal/kafka/consumer.go:24-41 | a new consumer has an open stop channel and reader and has written and committed nothing |
| `Kafka.Consumer.ProcessOrder` | internal/kafka/consumer.go:93-101 | the store write comes first; on failure its error is returned and the cache is unchanged; on success the order is set into the cache and nil is returned |
| `Kafka.Consumer.ConsumeOnce` | internal/kafka/consumer.go:64-88 | one pass changes the cache, the writes and the commits exactly as `Next` says |
| `Kafka.Consumer.ConsumeMessages` | internal/kafka/consumer.go:59-91 | the stop channel is checked before every fetch; if it is closed nothing is fetched; otherwise the passes run in order as `Run` says |
| `Kafka.Consumer.Stop` | internal/kafka/consumer.go:51-57 | closes the stop channel then the reader; closing an already closed channel panics and leaves the reader as it was |
| `Kafka.Consumer.Start` | internal/kafka/consumer.go:43-49 | as written: does what Stop does and never runs the loop |
| `Kafka.StartThenStop` | internal/kafka/consumer.go:43-57 | exhibit: after Start the loop caches nothing and a later Stop panics |
| `Kafka.Consumer.StartConsuming` | internal/kafka/consumer.go:43-49 | corrected Start: runs the loop over the script exactly as `Run` does, keeps the cache valid, leaves the stop channel open and the reader as it was |
| `Kafka.StartConsumingThenStop` | internal/kafka/consumer.go:43-91 | with the corrected Start the script is ingested and Stop does not panic |
| `Handlers.Respond` | internal/handlers/handler.go:31-60 | status is 200, 404 or 500; 200 exactly on a hit or a store order without error; a hit is served from the cache unchanged; on a miss, a store order without error is served with 200 and set in the cache under its own UID; a store error gives 500, a nil order without error 404, each with an error body and the cache unchanged |
| `Handlers.HitIgnoresStore` | internal/handlers/handler.go:36-40 | on a hit the answer does not depend on what the store would return |
| `Handlers.MissFailuresKeepCache` | internal/handlers/handler.go:43-54 | on a miss, a store error is 500 and a nil order is 404, both with the cache unchanged |
| `Handlers.WriteBackThenHit` | internal/handlers/handler.go:56-59 | after a miss served from the store, the next lookup of that UID is a hit with the same order |
| `Handlers.NotFoundUnreachable` | internal/handlers/handler.go:43-54 | against this FindOne the 404 branch is unreachable, and a UID with no order row gets 500 with the cache unchanged |
| `Handlers.StoreLookupThenHit` | internal/handlers/handler.go:57-59 | a miss served by FindOne from a consistent database is followed by a hit on the same UID |
| `Handlers.GetOrderByUID` | internal/handlers/handler.go:31-60 | the response and the cache afterwards are those `Respond` gives: cache first, then the store reply, setting a found order before serving it; the store is consulted exactly when the UID is not cached |

## Findings

| source | as written | input that shows it | evidently intended | confidence | as-written member | corrected member |
|---|---|---|---|---|---|---|
| internal/repository/repository.go:49-67 | FindAll never calls `rows.Err()` after its `rows.Next()` loop. A UID cursor that stops early with an error yields the orders read so far and a nil error. | `BrokenCursor`: the UID cursor delivers `"A"`, then fails with "connection reset" | check `rows.Err()` as FindOne does at line 194, and return a nil list plus the error | not executed; high | `Repository.FindAllAsWritten`, `Repository.FindAllAsWrittenLosesCursorError` | `Repository.FindAll`, `Repository.FindAllSpec` |
| internal/kafka/consumer.go:43-49 | Start closes the stop channel and the reader and never starts `consumeMessages`. A later Stop closes the closed channel, which panics. | a new consumer; Start, then Stop | Start runs `consumeMessages` and leaves the channel open for Stop | not executed; high | `Kafka.Consumer.Start`, `Kafka.StartThenStop` | `Kafka.Consumer.StartConsuming`, `Kafka.StartConsumingThenStop` |

## Left out

- The cache's `sync.RWMutex`: the model is single-threaded, so concurrent readers and writers are not modelled.
- Kafka's reader, `json.Unmarshal`, the SQL text, pgx's `Scan` and `CreateOrder`: they are foreign code. Their outcomes are inputs to the model (`Poll`, `Client`).
- `Kafka.Consumer.ConsumeMessages`: runs over a finite script of passes instead of forever. Nothing inside the loop closes the stop channel, so a closed channel stops the loop before the first fetch, and an open one lets every pass run.
- Commit and `reader.Close` errors are only logged by the code. The model records the commit attempt and ignores the error.
- Logging, `context` deadlines and cancellation are not modelled.
- `respondWithJSON`, `respondWithError` and `GetIndex` are HTTP plumbing. A response is modelled as a status plus a body value.
- Bootstrap in cmd/main/app.go (`RestoreFromDB` with `FindAll`, fatal on error) is not modelled. Its parts are covered by `RestoreFromDB` and `FindAll`.
- The configuration loader and the browser script are not modelled.
- The order package (internal/order) is not part of this model. Scalar field types follow the columns' meaning, and only the UID is ever inspected.
- Go's nil versus empty item slice is not modelled: an order without item rows has `items == []`.
- Whether the database client lets FindAll issue FindOne queries while its UID cursor is still open depends on the client, and is not modelled.
