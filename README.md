# MongoDB sink client: bulk-write error reconciliation

This project models how the firehose MongoDB sink client processes one
request, `MongoSinkClient.processRequest`, and proves properties about it in
Dafny. The client sends a batch of replace-one write operations to a
collection as one bulk write. Then one of two things happens:

- The write returns a result normally. The client hands nothing back. In
  update-only mode, a result with zero inserted and zero modified documents
  logs the aggregate warning "Bulk request failed count: {}". Its count is
  the batch size.
- The write raises a bulk-write failure that carries per-operation errors.
  The client checks each error's status code against the retry blacklist.
  - A blacklisted error is dropped. Each one makes a warning log, an info log
    and an increment of `firehose_sink_messages_drop_total` tagged
    `cause=<message>`.
  - Every other error is returned to the caller, in the order the store
    reported it.
  - When the error list is not empty, the aggregate warning is logged once.
    Its count is the total number of errors.

The source file of the production class `MongoSinkClient` is not among
the modelled files. The behaviour of its `processRequest` is taken from what
its unit tests assert,
`src/test/java/io/odpf/firehose/sink/mongodb/client/MongoSinkClientTest.java`.
Each `@Test` method becomes a Dafny method in `MongoSinkClientTest` with the
same name, capitalised. Each one calls `ProcessRequest`, and its `ensures` says
what the test asserts.

Modules:

- `BulkWrite` (`bulk_write.dfy`): the write operation, the per-operation error,
  the test's result mock with its derived counts, and the two ways a bulk
  write can end (`Returned`, `BulkWriteFailure`). The mock's modified-count
  getter is the constructor field `modifiedCount` itself.
- `Instrumentation` (`instrumentation.dfy`): each telemetry call as a value of
  `Event`. A mock's "called n times" becomes the number of times a value
  occurs in the event sequence.
- `MongoSinkClient` (`mongo_sink_client.dfy`): the client configuration (the
  blacklist and the update-only flag). It holds the functions that specify
  the result and the telemetry, the looping method `ProcessRequest`, and the
  lemmas.
- `MongoSinkClientTest` (`mongo_sink_client_test.dfy`): the fixture and the
  test scenarios.

The bulk write is the one call into the store. It becomes a parameter of
`ProcessRequest`: the outcome the store gives for this request. The telemetry
backend becomes an output: the sequence of calls made.

## Model

| member | source | states |
|---|---|---|
| `MongoSinkClient.ProcessRequest` | src/test/java/io/odpf/firehose/sink/mongodb/client/MongoSinkClientTest.java:70-198 | For a bulk-write failure, it returns exactly the order-preserving filter of non-blacklisted errors. For every outcome, it emits exactly the specified telemetry trace. A normal return outside the update-only zero-write case returns no errors. |
| `MongoSinkClient.WalkErrors` | src/test/java/io/odpf/firehose/sink/mongodb/client/MongoSinkClientTest.java:108-162 | The loop over the reported errors keeps exactly the non-blacklisted errors in reporting order. It emits exactly the three drop calls per blacklisted error, in order. |
| `MongoSinkClient.Telemetry` | src/test/java/io/odpf/firehose/sink/mongodb/client/MongoSinkClientTest.java:108-198 | The whole trace of telemetry calls for one request. For a normal return it is empty, or the single aggregate warning carrying the batch size exactly in the update-only zero-write case. For a bulk-write failure it opens with the aggregate warning carrying the total error count when there is any error, followed by three calls per dropped error. |
| `MongoSinkClient.DropTelemetry` | src/test/java/io/odpf/firehose/sink/mongodb/client/MongoSinkClientTest.java:108-136 | Walking the error list makes exactly three calls per blacklisted error and none for the others. |
| `MongoSinkClient.NonBlacklisted` | src/test/java/io/odpf/firehose/sink/mongodb/client/MongoSinkClientTest.java:139-162 | The returned errors are never more than were reported, and none of them has a blacklisted code. |
| `MongoSinkClient.Dropped` | src/test/java/io/odpf/firehose/sink/mongodb/client/MongoSinkClientTest.java:139-162 | The dropped errors are never more than were reported, and every one has a blacklisted code. |
| `MongoSinkClient.NonBlacklistedAppend` | src/test/java/io/odpf/firehose/sink/mongodb/client/MongoSinkClientTest.java:139-162 | Filtering keeps reporting order: the filter of a concatenation is the concatenation of the filters. |
| `MongoSinkClient.NonBlacklistedMembership` | src/test/java/io/odpf/firehose/sink/mongodb/client/MongoSinkClientTest.java:139-162 | An error is returned if and only if it was reported and its code is not blacklisted. |
| `MongoSinkClient.Partition` | src/test/java/io/odpf/firehose/sink/mongodb/client/MongoSinkClientTest.java:139-162 | Returned and dropped errors together are exactly the reported errors as a multiset. No error is lost or duplicated, and the two counts add up to the total. |
| `MongoSinkClient.NonBlacklistedIdentity` | src/test/java/io/odpf/firehose/sink/mongodb/client/MongoSinkClientTest.java:94-106 | The error list comes back unchanged, element by element and in order, if and only if none of its codes is blacklisted. |
| `MongoSinkClient.EmptyBlacklistReturnsAll` | src/test/java/io/odpf/firehose/sink/mongodb/client/MongoSinkClientTest.java:80-92 | With an empty blacklist every reported error is returned unchanged and in order. |
| `MongoSinkClient.DropTelemetryCodeCounts` | src/test/java/io/odpf/firehose/sink/mongodb/client/MongoSinkClientTest.java:108-121 | For a blacklisted code c, the warning and the info log carrying c are each emitted once per reported error with code c, with no deduplication. For any other code they are never emitted. |
| `MongoSinkClient.DropTelemetryCauseCounts` | src/test/java/io/odpf/firehose/sink/mongodb/client/MongoSinkClientTest.java:108-121 | The drop counter tagged with message m is incremented once per dropped error carrying m. |
| `MongoSinkClient.DropTelemetryTotals` | src/test/java/io/odpf/firehose/sink/mongodb/client/MongoSinkClientTest.java:139-162 | Walking the errors increments the drop counter once per blacklisted error. It never logs the aggregate warning. |
| `MongoSinkClient.FailedCountLoggedOnce` | src/test/java/io/odpf/firehose/sink/mongodb/client/MongoSinkClientTest.java:164-186 | For a bulk-write failure, the aggregate warning with count k is emitted once if the error list is non-empty and k is its total length (dropped plus returned). Otherwise it is emitted zero times. |
| `MongoSinkClient.DropTelemetryOnlyForBlacklisted` | src/test/java/io/odpf/firehose/sink/mongodb/client/MongoSinkClientTest.java:123-162 | For a bulk-write failure, the number of drop-counter increments is the number of dropped errors, which is the reported count minus the returned count. The per-code and per-cause call counts follow only the blacklisted errors. |
| `MongoSinkClient.ReturnedTelemetry` | src/test/java/io/odpf/firehose/sink/mongodb/client/MongoSinkClientTest.java:188-198 | A normal return never increments the drop counter. It logs the aggregate warning, once and with the batch size as count, if and only if the sink is in update-only mode and nothing was inserted or modified. |
| `Instrumentation.DropCounterTotal` | src/test/java/io/odpf/firehose/sink/mongodb/client/MongoSinkClientTest.java:158 | The number of drop-counter increments, whatever the tag, is at most the number of calls. It is zero if and only if no call is an increment. |
| `BulkWrite.BulkWriteResultMock.MatchedCount` | src/test/java/io/odpf/firehose/sink/mongodb/client/MongoSinkClientTest.java:227-245 | The matched count getter (227-230) returns the modified count, which is also what the modified-count getter (242-245) returns. The relation this fixes is proved in `ResultMockCountsAgree`. |
| `BulkWrite.BulkWriteResultMock.DeletedCount` | src/test/java/io/odpf/firehose/sink/mongodb/client/MongoSinkClientTest.java:232-235 | The deleted-count getter is the constant 0. |
| `BulkWrite.BulkWriteResultMock.IsModifiedCountAvailable` | src/test/java/io/odpf/firehose/sink/mongodb/client/MongoSinkClientTest.java:237-240 | The availability getter is the constant true. |
| `BulkWrite.BulkWriteResultMock.Upserts` | src/test/java/io/odpf/firehose/sink/mongodb/client/MongoSinkClientTest.java:247-250 | There is one upsert entry per inserted document, each a copy of the mocked entry. A negative inserted count is rejected. |
| `BulkWrite.ResultMockCountsAgree` | src/test/java/io/odpf/firehose/sink/mongodb/client/MongoSinkClientTest.java:200-251 | The count relations the result mock fixes: deleted is 0, modified is at most matched (they are equal), and the upsert list has one entry per inserted document. A result that wrote nothing also matched nothing and has no upserts. |
| `MongoSinkClientTest.SetUp` | src/test/java/io/odpf/firehose/sink/mongodb/client/MongoSinkClientTest.java:52-68 | The fixture is built by appending: blacklist [11000, 502], and a request of an upsert replace followed by a plain replace. |
| `MongoSinkClientTest.ShouldReturnEmptyArrayListWhenBulkResponseExecutedSuccessfully` | src/test/java/io/odpf/firehose/sink/mongodb/client/MongoSinkClientTest.java:70-77 | A normal result (acknowledged, 1 inserted, 1 modified) outside update-only mode returns no errors. |
| `MongoSinkClientTest.ShouldReturnNonBlacklistedErrorsWhenBulkResponseHasFailuresAndEmptyBlacklist` | src/test/java/io/odpf/firehose/sink/mongodb/client/MongoSinkClientTest.java:80-92 | With an empty blacklist, both 400 errors come back at positions 0 and 1. |
| `MongoSinkClientTest.ShouldReturnNonBlacklistedErrorsIfNoneOfTheFailuresBelongToBlacklist` | src/test/java/io/odpf/firehose/sink/mongodb/client/MongoSinkClientTest.java:94-106 | With blacklist {11000, 502}, both 400 errors come back at positions 0 and 1. |
| `MongoSinkClientTest.ShouldReportTelemetryIfTheResponsesBelongToBlacklistStatusCode` | src/test/java/io/odpf/firehose/sink/mongodb/client/MongoSinkClientTest.java:108-121 | Two 11000 errors at the same index each give a warning, an info log and a counter increment with cause "Duplicate Key Error": each call is made twice. |
| `MongoSinkClientTest.ShouldReportTelemetryIfSomeOfTheFailuresDontBelongToBlacklist` | src/test/java/io/odpf/firehose/sink/mongodb/client/MongoSinkClientTest.java:123-136 | Of [400, 11000], only the 11000 error is reported as dropped: each call is made once. |
| `MongoSinkClientTest.ShouldReturnNonBlacklistedErrorsIfSomeOfTheFailuresDontBelongToBlacklist` | src/test/java/io/odpf/firehose/sink/mongodb/client/MongoSinkClientTest.java:138-162 | Of [11000, 400, 502], the result is exactly [the 400 error], and the drop counter is incremented twice. |
| `MongoSinkClientTest.ShouldLogBulkRequestFailedWhenBulkResponsesHasFailures` | src/test/java/io/odpf/firehose/sink/mongodb/client/MongoSinkClientTest.java:164-174 | Two reported errors give exactly one aggregate warning with count 2. |
| `MongoSinkClientTest.ShouldNotLogBulkRequestFailedWhenBulkResponsesHasNoFailures` | src/test/java/io/odpf/firehose/sink/mongodb/client/MongoSinkClientTest.java:176-186 | A failure with an empty error list gives no aggregate warning with count 2. |
| `MongoSinkClientTest.ShouldLogBulkRequestFailedWhenPrimaryKeyNotFound` | src/test/java/io/odpf/firehose/sink/mongodb/client/MongoSinkClientTest.java:188-198 | In update-only mode, a normal result with 0 inserted and 0 modified gives exactly one aggregate warning, with the batch size 2 as count. |

## Left out

- MongoSinkClient.ProcessRequest: the returned list for an update-only request that inserted and modified nothing is left unconstrained. No behaviour is fixed for that case; the body returns an empty list only so that it has a value.
- MongoSinkClient.Telemetry: the order of the calls is a modelling choice. The aggregate warning comes first, then three calls per dropped error in reporting order. Only the number of each call is stated as a property.
- MongoSinkClient.Telemetry: the result's acknowledged flag is not consulted, and a normal return outside the update-only zero-write case makes no telemetry calls.
- Transport and connection failures other than the bulk-write failure are not modelled. The client does not classify them; they propagate to the caller.
- The MongoDB driver types are reduced to what the logic reads. Write operations keep only the upsert flag. Errors keep code, message and index, without the details document.
- Log and metric strings are not formatted. Each call is an `Event` value carrying the code, the message or the count. The templates are named in the doc comments of `Instrumentation.Event`.
- The mocking and test framework: mocks, `verify(..., times(n))` and the expected-exception rule. Call counts are multiplicities in the event sequence. The drop-counter count with any tag is `DropCounterTotal`.
- Counts and sizes are unbounded integers, not 32-bit Java `int`. No batch or error list in this model comes near that bound.
- Concurrent use of one client from several threads is not modelled. Each call depends only on its arguments and the immutable configuration.
