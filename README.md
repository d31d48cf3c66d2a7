# PriorityQueue engine, modelled in Dafny

This project models the queue engine of `PriorityQueueAbstract`. It is a priority
queue whose documents live in a MongoDB collection. Producers `insert` a string
payload with an integer priority. Consumers take payloads out with `extract`, or
walk the queue with PHP's `\Iterator` protocol (`valid`, `current`, `next`, `key`,
`rewind`). Each take is one atomic `findAndModify`. It picks the unclaimed
document with the highest `priority`, and the oldest `created` among equal
priorities. It sets that document's `iterated` flag and returns its payload.
Claimed documents stay in the collection.

The model keeps the collection in memory as a `seq<Record>`. The three storage
calls (`insert`, `findAndModify`, `count`) act on that sequence directly.

- `wrappers.dfy`: `Option` (PHP `null` or a value) and `Result`.
- `php_values.dfy`: the dynamically typed PHP values the public methods receive, and PHP's `empty()`.
- `queue_config.dfy`: the configuration check `checkInheritanceIsCorrect`.
- `queue_records.dfy`: the document, the claim order, the selection and claim of `findAndModify`, and the unclaimed count.
- `drain.dfy`: what repeated claims do. They visit every unclaimed document exactly once, by priority and then by age.
- `insertion.dfy`: argument validation of `insert`, and how the storage reply and the error hook decide its outcome.
- `priority_queue.dfy`: the class `PriorityQueue`. It holds the collection, the cursor `_current` and the clock that stamps `created`. It has the methods `Insert`, `Extract`, `Next`, `Current`, `Key` and `Rewind`, and the functions `Count`, `IsEmpty`, `IsValid` and the getters. `Open` runs the configuration check and then builds a queue.
- `iteration.dfy`: PHP's `foreach` over the queue. It calls `rewind`, then `valid`, `current`, the loop body and `next` until `valid` is false.
- `scenarios.dfy`: the test suite's scenarios, restated as methods on a fresh queue configured like the tests (collection `test_queue`, default priority 7).

Names: the class's `IsValid()` is PHP's `valid()`. The object invariant is
`Consistent()`: every stamp in the collection is older than the next stamp the
clock hands out, and the collection name is one the configuration check lets
through (neither "" nor "0"), which `NameOfCollection` relies on.

## Model

| member | source | states |
|---|---|---|
| `QueueConfig.CheckInheritance` | src/PriorityQueueAbstract.php:59-71 | passes iff the default priority is an int, the iterated field is a non-empty string, and the collection name is a string other than "" and "0"; each failure is reported only when every earlier case passed |
| `QueueConfig.FailureOrder` | src/PriorityQueueAbstract.php:60-69 | concrete definitions: the default priority is reported first; a non-string field name fails; "0" and an int are refused as collection names |
| `QueueConfig.ShippedDefinitionsPass` | tests/ImplementationQueue.php:14-16 | the test queue and the e-mail queue pass the check |
| `PriorityQueueEngine.Open` | src/PriorityQueueAbstract.php:87-113 | a failing definition yields its configuration error and no queue; otherwise a fresh queue over the existing documents, with a null cursor, whose getters return the definition's default priority and collection name |
| `PriorityQueueEngine.StampBound` | src/PriorityQueueAbstract.php:157 | the first stamp handed out is newer than every `created` already in the collection |
| `QueueRecords.NewRecord` | src/PriorityQueueAbstract.php:155-164 | the built document reads back the given value, priority and description; it is unclaimed and carries the stamp; an empty description is never stored |
| `Insertion.Validate` | src/PriorityQueueAbstract.php:140-150 | accepted iff the value is a string and the priority is null or an int; a non-string value is reported whatever the priority; a null priority becomes the default, an int is kept |
| `Insertion.TestSuiteArguments` | tests/PriorityQueueTest.php:46-125 | every bad value and bad priority of the data providers, the non-empty arrays included, is refused with its own error; every accepted value/priority pair, up to `PHP_INT_MAX`, keeps its priority or takes the default 7 (descriptions play no part in validation) |
| `Insertion.Finish` | src/PriorityQueueAbstract.php:166-182 | returns true iff `ok` is identical to the float 1.0; returns false iff the logging hook handles an error; with the base hook, a caught `MongoException` raises `ErrorException`, while an acknowledgment whose `ok` is not 1.0 hands the hook an array, and `new \ErrorException(<array>)` fails (an `Error` on PHP 7, a `TypeError` on PHP 8); a non-Mongo storage exception reaches the caller |
| `Insertion.FinishAsWritten` | src/PriorityQueueAbstract.php:166-182 | the code as written: returns true iff no `MongoException` was caught and no acknowledgment failed, so also when a non-Mongo exception was in flight; returns false iff the logging hook handles an error; the base hook raises `ErrorException` for a caught `MongoException` and a failed constructor call (`Error` on PHP 7, `TypeError` on PHP 8) for a failed acknowledgment; never lets a storage exception through |
| `Insertion.FinishAsWrittenSwallowsException` | src/PriorityQueueAbstract.php:176-182 | as written, a non-Mongo exception from the storage call makes `insert` return true although the write was not acknowledged |
| `Insertion.FinishAgreesAsWritten` | src/PriorityQueueAbstract.php:166-182 | the corrected outcome differs from the code as written exactly when the storage call throws a non-Mongo exception |
| `Insertion.ThrowingHookNeverReturnsFalse` | src/PriorityQueueAbstract.php:44-52 | in the corrected outcome `Finish`, with the base class's hook `insert` never returns false: every storage failure raises |
| `Insertion.IntegerOkIsFailure` | src/PriorityQueueAbstract.php:169 | an `ok` of int 1 or of `true` is not identical to 1.0, so it counts as a failure |
| `PriorityQueueEngine.PriorityQueue.Insert` | src/PriorityQueueAbstract.php:139-183 | a rejected argument raises `InvalidArgumentException` with the source's message, and the collection and clock are unchanged; otherwise exactly one unclaimed document, newer than all others, is appended when the write lands; the outcome is `Finish` of the reply; a true outcome of a coherent reply raises the count by exactly 1 |
| `QueueRecords.Best` | src/PriorityQueueAbstract.php:192-205 | among the first n documents, the result is None iff all are claimed; otherwise it is an unclaimed document that is claimed before every other unclaimed one |
| `QueueRecords.NextIndex` | src/PriorityQueueAbstract.php:192-207 | the document `findAndModify` selects: None iff every document is claimed; otherwise the top of the order (priority descending, then `created` ascending) |
| `QueueRecords.NextIndexIsTop` | src/PriorityQueueAbstract.php:200-205 | the top is unique: whichever document is the top, the selection takes that one |
| `QueueRecords.Claim` | src/PriorityQueueAbstract.php:195-199 | sets `iterated` on the claimed document only; every other document, and every other field, is unchanged |
| `QueueRecords.CountUnclaimed` | src/PriorityQueueAbstract.php:249 | the unclaimed count never exceeds the number of documents |
| `QueueRecords.CountZeroIff` | src/PriorityQueueAbstract.php:248-259 | the unclaimed count is 0 iff every document is claimed |
| `QueueRecords.CountAppend` | src/PriorityQueueAbstract.php:249 | appending an unclaimed document raises the count by one; appending a claimed one leaves it |
| `QueueRecords.CountClaim` | src/PriorityQueueAbstract.php:195-199 | claiming an unclaimed document lowers the count by exactly one |
| `PriorityQueueEngine.PriorityQueue.Extract` | src/PriorityQueueAbstract.php:190-212 | when a document is unclaimed, returns the top document's payload, stores it in `_current`, flags only that document, and lowers the count by one; otherwise returns null, sets `_current` to null and leaves the collection unchanged |
| `PriorityQueueEngine.PriorityQueue.Next` | src/PriorityQueueAbstract.php:224-228 | always claims, whatever the cursor holds; the same result and state as `Extract` |
| `PriorityQueueEngine.PriorityQueue.Current` | src/PriorityQueueAbstract.php:235-241 | a non-null cursor is returned with no state change; a null cursor is refilled by one claim, even after the queue ran dry |
| `PriorityQueueEngine.PriorityQueue.Count` | src/PriorityQueueAbstract.php:248-250 | the number of documents with `iterated` false; 0 iff every document is claimed; reads only |
| `PriorityQueueEngine.PriorityQueue.IsEmpty` | src/PriorityQueueAbstract.php:257-259 | true iff every document in the collection is claimed; reads only |
| `PriorityQueueEngine.PriorityQueue.IsValid` | src/PriorityQueueAbstract.php:120-123 | true iff some document is unclaimed or the cursor holds a payload; reads only |
| `PriorityQueueEngine.PriorityQueue.NameOfCollection` | src/PriorityQueueAbstract.php:102-104 | returns the configured collection name, which the construction check guarantees is non-empty and not "0" |
| `PriorityQueueEngine.PriorityQueue.DefaultPriority` | src/PriorityQueueAbstract.php:111-113 | returns the priority that an `insert` with a null priority gives its document |
| `PriorityQueueEngine.PriorityQueue.Key` | src/PriorityQueueAbstract.php:264 | always null, changing nothing |
| `PriorityQueueEngine.PriorityQueue.Rewind` | src/PriorityQueueAbstract.php:267-269 | changes nothing: no `modifies` clause, so the collection, the cursor and the clock stay as they were, and no second pass is possible |
| `Drain.DrainSorted` | src/PriorityQueueAbstract.php:200-207 | successive claims visit every unclaimed document exactly once, as many as the unclaimed count, and each is taken before all that follow it in the order |
| `Drain.DrainMembers` | src/PriorityQueueAbstract.php:192-207 | there are exactly as many successive claims as unclaimed documents, and each claim takes an unclaimed document |
| `Drain.DrainCovers` | src/PriorityQueueAbstract.php:192-207 | every unclaimed document is claimed at some point |
| `Drain.OrderedCons` | src/PriorityQueueAbstract.php:200-205 | putting the top document in front of an ordered list of the other unclaimed documents keeps the list ordered |
| `Drain.DrainOrdered` | src/PriorityQueueAbstract.php:200-205 | each claimed document comes before every document claimed after it |
| `Drain.DrainOrderMatches` | src/PriorityQueueAbstract.php:209-211 | the payloads successive `extract` calls return are those of the documents in claim order |
| `Drain.PriorityNonIncreasing` | tests/PriorityQueueTest.php:390-413 | payloads come out in non-increasing priority |
| `Drain.FifoWithinPriority` | src/PriorityQueueAbstract.php:203 | of two unclaimed documents of equal priority, the one created earlier is claimed earlier |
| `Iteration.Round` | src/PriorityQueueAbstract.php:224-241 | once `valid` holds, `current` then `next` hand the loop body the first pending payload and leave the rest pending |
| `Iteration.Foreach` | src/PriorityQueueAbstract.php:120-123 | `foreach` yields the payload the cursor held, if any, then every unclaimed payload in claim order; afterwards `valid` is false, the count is 0, the cursor is null, only `iterated` flags changed, and the clock is untouched |
| `Scenarios.PriorityLogicByExtract` | tests/PriorityQueueTest.php:390-413 | priorities 7, 8, 9, 10 are extracted as "fourth", "third", "second", "first", then null |
| `Scenarios.FourPrioritiesDrain` | tests/PriorityQueueTest.php:367-372 | the claim order of those four documents is "fourth", "third", "second", "first" |
| `Scenarios.PriorityLogicByIteration` | tests/PriorityQueueTest.php:361-383 | `foreach` yields the same order; afterwards `valid` is false and `current` and `next` return null |
| `Scenarios.CurrentReturnsFirstInserted` | tests/PriorityQueueTest.php:268-276 | at equal priority, both `current` and `next` on a fresh cursor return the first payload inserted |
| `Scenarios.EmptyQueue` | tests/PriorityQueueTest.php:182-206 | an empty queue counts 0, is empty and is not valid; `current` and `next` return null |
| `Scenarios.CountsAndEmptiness` | tests/PriorityQueueTest.php:163-199 | three inserts count 3; the queue is not empty after one extract and is empty after three, while the collection still holds 3 documents |
| `Scenarios.NextThenCurrent` | tests/PriorityQueueTest.php:331-356 | after each `next`, `current` returns the same value; the fourth `next` on three payloads returns null |
| `Scenarios.DuplicatePayloads` | tests/PriorityQueueTest.php:254-258 | inserting the same payload twice stores two documents, and two extracts return it twice |
| `Scenarios.InsertRejects` | tests/PriorityQueueTest.php:435-467 | a bad value or a bad priority raises its own message and stores nothing |
| `Scenarios.InsertStoresDescription` | tests/PriorityQueueTest.php:46-62 | an accepted insert returns true, takes the default priority when none is given, and stores a description only when it is non-empty |
| `Scenarios.FailedAcknowledgment` | examples/PriorityQueueTrait.php:33-41 | an `ok` of int 1 makes the logging hook's `insert` return false; a Mongo exception makes the base hook's `insert` raise |

## Left out

- Connecting to MongoDB is not modelled: the server, the database, the `journal` option and collection selection. The constructor is modelled as the configuration check (`Open`) plus the collection's current documents.
- Concurrency across consumer processes is not modelled. The model is single-threaded, and each `findAndModify` is one atomic method call. Exactly-once delivery is stated for one consumer (`Drain.DrainSorted`).
- The encodings `MongoBinData` and `MongoDate` are not modelled. The payload is stored and read back unchanged. `created` comes from a counter that strictly increases with each insert that passes validation. Payloads are Dafny strings, so a PHP byte string that is not valid text has no counterpart in the model.
- `PriorityQueueEngine.PriorityQueue.Insert`: two real `MongoDate` stamps taken within the same millisecond compare equal. The counter does not capture that tie. When the order and `created` both tie, the model takes the earlier storage position; MongoDB leaves that order unspecified.
- Storage failures inside `extract` and `count` are not modelled. The source does not catch them, so they reach the caller.
- The logger is not modelled. The error hook is a choice between the base class's hook, which throws, and the logging trait's hook, which returns so that `insert` returns false. When the base hook is handed an acknowledgment array, the model has one outcome, `HookConstructionFailed`. PHP 8 throws a `TypeError` there, PHP 7 a plain `Error`, and PHP 5 stops with a fatal error; that difference between PHP versions is not modelled.
- PHP enforces the `array` type of `$description` through the method signature. The model's `description` is always a PHP array (a sequence of key/value entries).
- A fetched document that has no `value` field would make `extract` return null. Every document the model stores has a `value`.
- Integers are unbounded. Priorities up to `PHP_INT_MAX` are accepted as plain integers; no arithmetic on them can overflow in the engine.
- The PHPUnit set-up and tear-down (dropping the collection) are not modelled. `EmailsQueue::send` is only a wrapper and is not modelled.

How the source behaves in three places the comments leave open:

- With the base class, a caught `MongoException` or a failed acknowledgment raises, because `insertErrorOccurred` always throws (src/PriorityQueueAbstract.php:44-52). A non-Mongo exception is swallowed (see "## Findings"). Only the logging trait's hook returns, so only then does `insert` return false (examples/PriorityQueueTrait.php:33-41).
- Of the field-name constants, only `ITERATED_FIELD` is checked at construction (src/PriorityQueueAbstract.php:11-15, 64-65).
- `insert` does not check the type of `$description` itself. The `array` type in its signature does (src/PriorityQueueAbstract.php:139).

## Findings

| source | as written | input that shows it | evidently intended | confidence | as-written member | corrected member |
|---|---|---|---|---|---|---|
| src/PriorityQueueAbstract.php:176-182 | `return ! $errorOccurred;` sits inside `finally`, and PHP discards an exception that is in flight when `finally` returns | the storage call throws an exception that is not a `MongoException` (for example an `ErrorException` raised by a warning handler); `$errorOccurred` is still false | the exception reaches the caller, or is treated as a failed insertion; it must not be reported as a success | medium, not executed | `Insertion.FinishAsWrittenSwallowsException` (about `Insertion.FinishAsWritten`) | `Insertion.Finish`, used by `PriorityQueue.Insert` |
