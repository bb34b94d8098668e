# Kafka CDC order consumer — a Dafny model

This project models the order consumer of a change-data-capture demo. The
consumer reads row-change events for an `orders` table from a Kafka topic. For
each event it computes a result record (`total = quantity * price`). It upserts
the record into a PostgreSQL `results` table. It writes the record to a Redis
hash `order:{id}` and pushes it onto the capped Redis list `recent_orders`.
The message offset is committed only after all of that returned normally.

The model has five modules, one per layer of `consumer/main.py`:

- `Values` (values.dfy): decoded JSON values. It defines Python truthiness,
  `dict.get` with a default, and Python's `*` on those values.
- `Transform` (transform.dfy): the pure first half of `process_order`. It reads
  the fields with their defaults, drops events whose `id` is falsy, and builds
  the result record.
- `Sinks` (sinks.dfy): the two stores. `Database` and `Cache` are classes with
  map and sequence fields that the consumer updates in place. The pure
  functions `Upserted`, `HashMerged` and `Trimmed` state the write policies:
  the SQL upsert, `HSET`, and `LTRIM`.
- `Process` (process.dfy): `process_order` as a method. It writes to the sinks
  in the source's order. Which sink call raises, if any, is an input (`Fault`).
  `ProcessSpec` is the specification of the method, stated declaratively by
  which calls completed.
- `Consumer` (consumer.dfy): the poll loop of `main` as a method over a finite
  sequence of poll results. It is specified by the function `Run`.

Points where the code behaves differently from what a reader might expect of
such a consumer; the model follows the code:

- An undecodable message is logged and **not** committed. A consumer that
  skipped malformed messages would commit them; here the JSON handler only
  logs (`UndecodableNotCommitted`).
- Commits store a position, not single offsets. `consumer.commit(msg)` stores
  the offset after `msg`, and a message whose processing raised is only
  logged. Once a later message commits, the failed one lies behind the
  committed position, so a restart does not deliver it again: delivery is
  at-least-once only for the failures that are not followed by a commit
  (`LaterCommitSkipsFailed`).
- The order id is read from the event key `id`, not `order_id`.
- The defaults (quantity 0, price 0.0, status `PENDING`) apply only to absent
  keys. A `quantity` present as `null` reaches `*`, which raises a TypeError
  (`NullQuantityRaises`).
- `HSET` merges fields into an existing hash rather than replacing it. When
  only this consumer writes the hash, the effect is the same
  (`HashIsLastRecord`).
- The cap of 100 on `recent_orders` can be exceeded: each call whose `LTRIM`
  raises after its `LPUSH` succeeded leaves one more entry, until the next
  successful trim (`RecentCapKept`, `PushAllBounded`).

## Model

| member | source | states |
|---|---|---|
| `Values.Truthy` | consumer/main.py:72 | `not order_id`: a number is false exactly when it is zero, a string or list exactly when it is empty |
| `Values.Lookup` | consumer/main.py:65-70 | `dict.get`: the stored value when the key is present (even null), the default only when it is absent |
| `Values.Mul` | consumer/main.py:77 | `quantity * price` raises exactly for operand types Python refuses, for an int too large to convert to float times a float (OverflowError), and for repetitions that do not fit sys.maxsize; on numbers it is their product (exact, see Left out), an int for two integers and a float when either operand is one; a sequence times a count is that sequence repeated `count` times |
| `Values.Repeat` | consumer/main.py:77 | Python's sequence-times-count gives `n` copies of the sequence one after another: length `|s| * n` (empty for `n <= 0`), starting with the sequence and repeating with its period |
| `Transform.Prepare` | consumer/main.py:65-89 | a non-object raises, a falsy `id` leads to the early return, `*` raising gives the operand error (each in both directions); a built record has a truthy id, the given processing time and `total` equal to `quantity * price` |
| `Transform.Fields` | consumer/main.py:80-89 | the result dict, under the source's field names |
| `Transform.FieldsNamed` | consumer/main.py:80-89 | the record written to the cache has exactly the eight result fields |
| `Transform.ReadyFieldsFromEvent` | consumer/main.py:65-89 | in every built record, id, customer, product, quantity, price and status come from the event (with defaults) and `total` is Python's `quantity * price` on them, whatever their kinds |
| `Transform.TotalIsProduct` | consumer/main.py:65-89 | with numeric quantity and price, the record is built exactly when Python can multiply them (not an over-large int times a float); its fields come from the event and `total` equals quantity times price |
| `Transform.HugeIntTimesFloatRaises` | consumer/main.py:68-77 | an int quantity of 2^1024 - 2^970 or more times a float price raises OverflowError before any sink is touched |
| `Transform.StringQuantityRepeats` | consumer/main.py:68-77 | a string quantity times an integer price that fits sys.maxsize builds a record whose total is the string repeated that many times |
| `Transform.DefaultsWhenAbsent` | consumer/main.py:68-70 | absent quantity, price and status become 0, 0.0 and `PENDING`, so total is 0.0 |
| `Transform.StringQuantityTimesFloatRaises` | consumer/main.py:68-77 | a quantity given as a string times a float price raises a TypeError |
| `Transform.HugeCountRaises` | consumer/main.py:68-77 | a string quantity times an integer price beyond sys.maxsize raises instead of repeating |
| `Transform.NullQuantityRaises` | consumer/main.py:68 | a quantity present as null is not defaulted, and the multiplication raises |
| `Sinks.Merge` | consumer/main.py:99-102 | on conflict the first-written columns are kept, and status and processed_at take the new values |
| `Sinks.Upserted` | consumer/main.py:95-109 | the table gains the record's key and nothing else; other rows are unchanged; a new key gets the whole record; an existing key keeps its first-written columns; rows stay under their own id |
| `Sinks.HashMerged` | consumer/main.py:115-116 | after HSET the hash holds every given field with its value, keeps fields not given, and no other hash changes |
| `Sinks.Trimmed` | consumer/main.py:120 | LTRIM keeps exactly the elements from `start` to `stop` inclusive, in order |
| `Sinks.PushedAndTrimmed` | consumer/main.py:119-120 | LPUSH then LTRIM 0 99: the new entry first, the old list's entries behind it in order, length `min(old + 1, 100)` |
| `Sinks.PushNewestFirst` | consumer/main.py:119-120 | after a push and trim, the list starts with the new entry, followed by the old list in order, with length `min(old + 1, 100)` |
| `Sinks.PushAllBounded` | consumer/main.py:119-120 | after any number (at least one) of pushes and trims, the list length is `min(old + pushes, 100)` and the newest entries come first |
| `Sinks.UpsertIdempotent` | consumer/main.py:95-108 | applying the same record twice leaves the table as applying it once |
| `Sinks.UpsertAbsorbs` | consumer/main.py:95-108 | an upsert after one with the same first-written columns gives the same table as the later upsert alone |
| `Sinks.FirstWriteWins` | consumer/main.py:95-108 | over repeated deliveries of one order, the row keeps the first version's columns and the last version's status and processed_at |
| `Sinks.Database.Upsert` | consumer/main.py:95-109 | the committed table is the upsert of the record (insert, or update of status and processed_at) |
| `Sinks.Cache.HSet` | consumer/main.py:116 | the hashes become the HSET merge; the list is unchanged |
| `Sinks.Cache.LPush` | consumer/main.py:119 | the record is put in front of the list; the hashes are unchanged |
| `Sinks.Cache.LTrim` | consumer/main.py:120 | the list becomes its trimmed range; the hashes are unchanged |
| `Process.OutcomeOf` | consumer/main.py:61-126 | process_order returns normally exactly for a falsy id, or for a built record when no sink call raised; a sink error names the call that raised |
| `Process.Persist` | consumer/main.py:91-120 | a failure up to the commit changes nothing; once the commit completed the table is the upsert of the record; the hashes change only once HSET completed, and then are exactly the HSET merge of the record's fields; the list is unchanged before the push, is `[record] + old` after the push alone, and is capped once the trim completed |
| `Process.ProcessSpec` | consumer/main.py:61-126 | the outcome does not depend on the stores, and a call that raises before persisting or returns early leaves the stores unchanged |
| `Process.ProcessOrder` | consumer/main.py:61-126 | the stores after the call are those of `ProcessSpec`, and the call raises exactly as `OutcomeOf` says |
| `Process.PersistOrder` | consumer/main.py:91-126 | each sink effect happens exactly when its call completed, in the order upsert/commit, HSET, LPUSH, LTRIM; any failure is raised |
| `Process.MissingIdLeavesStores` | consumer/main.py:72-74 | a falsy or absent id returns normally and changes no store, whatever sink would have failed |
| `Process.SuccessWritesEverySink` | consumer/main.py:91-122 | a call with a record returns normally exactly when no sink call raised; then the row is upserted, the hashes are exactly the HSET merge of the record (every field under `order:{id}`, other fields and hashes kept), and the list is pushed newest first and capped |
| `Process.HashIsLastRecord` | consumer/main.py:115-116 | a cache hash only ever written by the consumer equals the last record's eight fields |
| `Process.DatabaseFailureWritesNothing` | consumer/main.py:92-109 | a failure in connecting, executing or committing raises and leaves every store unchanged |
| `Process.CacheFailureKeepsRow` | consumer/main.py:109-126 | a failure after the commit raises, yet the table already holds the upserted row; a failure up to HSET leaves the cache untouched, one at LPUSH leaves only the hash merged, one at LTRIM leaves the record pushed but the list untrimmed |
| `Process.RecentCapKept` | consumer/main.py:119-120 | from a list of at most 100, one call keeps the cap unless its LTRIM raises after a successful LPUSH, which leaves one entry more |
| `Process.RetryMatchesSingleAttempt` | consumer/main.py:95-109 | a retry after a failed attempt of the same event leaves the table as one successful attempt would |
| `Consumer.Commits` | consumer/main.py:157-171 | only decoded messages reach commit, and a decoded order with a record reaches it exactly when no sink call raised |
| `Consumer.Handle` | consumer/main.py:146-171 | a poll result other than a decoded order with a record leaves the stores unchanged |
| `Consumer.Committed` | consumer/main.py:157-171 | the offsets passed to commit: at most one per poll result, and none unless some poll result commits |
| `Consumer.Run` | consumer/main.py:143-171 | the commits of the run are exactly `Committed` of the poll results, whatever the stores |
| `Consumer.Consume` | consumer/main.py:143-171 | the loop leaves the stores and commits given by `Run`, and the committed position is just past the last committed offset (or the resume point) |
| `Consumer.InCommittedIff` | consumer/main.py:157-171 | by induction over the poll results, an offset is in `Committed` if and only if a message at that offset commits |
| `Consumer.CommittedIffReturned` | consumer/main.py:157-171 | an offset is passed to commit if and only if a message at that offset was decoded and `process_order` returned normally |
| `Consumer.PositionPastCommit` | consumer/main.py:163-166 | with offsets growing along the partition, once a message commits the committed position stays past it |
| `Consumer.LaterCommitSkipsFailed` | consumer/main.py:163-171 | a message whose processing raised is not passed to commit, yet a later commit moves the position past it, so a restart does not redeliver it |
| `Consumer.CommitsIndependentOfStores` | consumer/main.py:157-171 | for the same poll results (decode results and sink-call outcomes included), which offsets are committed does not depend on the contents of the stores |
| `Consumer.NoCommitKeepsPosition` | consumer/main.py:146-171 | empty polls, partition EOF, broker errors, decode errors and processing exceptions leave the committed position unchanged |
| `Consumer.Position` | consumer/main.py:166 | the committed position: the resume point while nothing was committed, else one past the last offset passed to `commit(msg)` |
| `Consumer.CommitMovesPosition` | consumer/main.py:163-166 | a committed message moves the position to the offset after it |
| `Consumer.MissingIdCommitted` | consumer/main.py:72-74 | an event without a truthy id is committed and writes nothing |
| `Consumer.UndecodableNotCommitted` | consumer/main.py:157-171 | an undecodable or value-less message is not committed and writes nothing |
| `Consumer.SinkFailureNotCommitted` | consumer/main.py:124-126 | an order whose persist raised at any step is not committed |
| `Consumer.CommitImpliesRowWritten` | consumer/main.py:109-166 | a committed order's row is in the table, with this message's status and processing time |
| `Consumer.RedeliveryAfterFailure` | consumer/main.py:95-171 | a failed delivery followed by a successful redelivery commits the offset once and leaves the table as a single success would |

## Left out

- Connection setup and configuration (`get_postgres_connection`, `get_redis_connection`, environment variables, the Kafka consumer configuration and subscription): environment plumbing. A failed connection is a `Fault` input.
- The SQL engine, the Redis client and the Kafka client are foreign libraries. Their effects are modelled from the SQL text and the standard HSET, LPUSH and LTRIM semantics. Executing and committing the upsert is one atomic change, made at commit.
- The clients' own value checks are not derived from the data. An example is redis-py refusing `None` or `bool` hash values. Any such error is represented by the `Fault` input.
- `datetime.now()`: the processing time is an input.
- `json.loads` and `json.dumps`: the decode result is part of each poll result. `recent_orders` holds the records themselves, not their JSON text.
- Floating point: numbers are exact, with no claim about rounding. NaN and infinity are not modelled.
- The `results` table is keyed by the decoded id value. PostgreSQL compares the typed `order_id` column, so `5` and `"5"` may be one row there, or a non-numeric id may make the statement fail; neither is modelled beyond the `Fault` input.
- The Redis key `order:{id}` is modelled by indexing the hashes with the id value itself. Two ids with the same text (such as `5` and `"5"`) would share one Redis key; that sharing is not modelled.
- `Process.Persist`: a sink call that raises after the server already applied it (a reply lost after `pg_conn.commit()`, `hset` or `lpush` reached the server) is modelled as not applied; the model's failure at a step always means that step had no effect, so `DatabaseFailureWritesNothing` and the untouched-cache part of `CacheFailureKeepsRow` hold only under that assumption.
- `Values.Mul`: the product is exact rather than rounded to a float, because float rounding is out of scope; a float product beyond the float range is not turned into infinity. A repetition that fits sys.maxsize but not in memory (a MemoryError) is modelled as succeeding.
- `consumer.commit(msg)` is asynchronous by default. The model records the commit request and its position. A commit that the broker later rejects is not modelled.
- Logging, the 10-second startup delay, the `KeyboardInterrupt` shutdown and `consumer.close()`: no effect on the stores or offsets. The infinite loop is modelled over a finite sequence of poll results.
- Several partitions and concurrent processing: the code is one sequential loop, so offsets are those of a single partition.
