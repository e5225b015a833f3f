/** The scenarios that pin down the client's request processing: each method
    builds the fixture, runs ProcessRequest against a scripted store
    response, and promises in its ensures what the scenario checks. */
module MongoSinkClientTest {
  import opened BulkWrite
  import opened Instrumentation
  import opened MongoSinkClient

  const DbNotFound0 := BulkWriteError(400, "DB not found", 0)
  const DbNotFound1 := BulkWriteError(400, "DB not found", 1)
  const DuplicateKey := BulkWriteError(11000, "Duplicate Key Error", 0)

  /** The shared fixture: a blacklist of 11000 and 502, and a request of two
      replace operations (the first one an upsert), both built by appending. */
  method SetUp() returns (blacklist: seq<int>, request: seq<WriteModel>)
    ensures blacklist == [11000, 502]
    ensures request == [ReplaceOneModel(true), ReplaceOneModel(false)]
  {
    blacklist := [];
    blacklist := blacklist + [11000];
    blacklist := blacklist + [502];
    request := [];
    request := request + [ReplaceOneModel(true)];
    request := request + [ReplaceOneModel(false)];
  }

  /** A write that returns normally, outside update-only mode, leaves
      nothing to handle. */
  method ShouldReturnEmptyArrayListWhenBulkResponseExecutedSuccessfully()
    returns (nonBlacklistedErrors: seq<BulkWriteError>)
    ensures |nonBlacklistedErrors| == 0
  {
    var blacklist, request := SetUp();
    var telemetry;
    nonBlacklistedErrors, telemetry :=
      ProcessRequest(SinkClient(blacklist, false), request, Returned(BulkWriteResultMock(true, 1, 1)));
  }

  /** With an empty blacklist both reported errors come back, in order. */
  method ShouldReturnNonBlacklistedErrorsWhenBulkResponseHasFailuresAndEmptyBlacklist()
    returns (nonBlacklistedErrors: seq<BulkWriteError>)
    ensures |nonBlacklistedErrors| >= 2
    ensures nonBlacklistedErrors[0] == DbNotFound0 && nonBlacklistedErrors[1] == DbNotFound1
  {
    var _, request := SetUp();
    var writeErrors := [DbNotFound0, DbNotFound1];
    var telemetry;
    nonBlacklistedErrors, telemetry :=
      ProcessRequest(SinkClient([], false), request, BulkWriteFailure(BulkWriteResultMock(false, 0, 0), writeErrors));
    EmptyBlacklistReturnsAll(writeErrors);
  }

  /** When no reported code is blacklisted both errors come back, in order. */
  method ShouldReturnNonBlacklistedErrorsIfNoneOfTheFailuresBelongToBlacklist()
    returns (nonBlacklistedErrors: seq<BulkWriteError>)
    ensures |nonBlacklistedErrors| >= 2
    ensures nonBlacklistedErrors[0] == DbNotFound0 && nonBlacklistedErrors[1] == DbNotFound1
  {
    var blacklist, request := SetUp();
    var writeErrors := [DbNotFound0, DbNotFound1];
    var telemetry;
    nonBlacklistedErrors, telemetry :=
      ProcessRequest(SinkClient(blacklist, false), request, BulkWriteFailure(BulkWriteResultMock(false, 0, 0), writeErrors));
    NonBlacklistedIdentity(writeErrors, blacklist);
  }

  /** Two blacklisted errors with the same code and index: each is reported
      separately, twice in all. */
  method ShouldReportTelemetryIfTheResponsesBelongToBlacklistStatusCode()
    returns (telemetry: seq<Event>)
    ensures Times(telemetry, WarnBlacklisted(11000)) == 2
    ensures Times(telemetry, InfoDropped(11000)) == 2
    ensures Times(telemetry, DropCounter("Duplicate Key Error")) == 2
  {
    var blacklist, request := SetUp();
    var writeErrors := [DuplicateKey, DuplicateKey];
    var nonBlacklistedErrors;
    nonBlacklistedErrors, telemetry :=
      ProcessRequest(SinkClient(blacklist, false), request, BulkWriteFailure(BulkWriteResultMock(false, 0, 0), writeErrors));
    var first := writeErrors[..1];
    assert first == [DuplicateKey];
    assert CountCode(writeErrors, 11000) == 2;
    assert Dropped(first, blacklist) == [DuplicateKey];
    assert Dropped(writeErrors, blacklist) == [DuplicateKey, DuplicateKey];
    assert CountMessage([DuplicateKey, DuplicateKey][..1], DuplicateKey.message) == 1;
    DropTelemetryOnlyForBlacklisted(SinkClient(blacklist, false), |request|, BulkWriteResultMock(false, 0, 0),
                                    writeErrors, 11000, DuplicateKey.message);
  }

  /** Of a 400 error and an 11000 error, only the 11000 one is reported as
      dropped, once. */
  method ShouldReportTelemetryIfSomeOfTheFailuresDontBelongToBlacklist()
    returns (telemetry: seq<Event>)
    ensures Times(telemetry, WarnBlacklisted(11000)) == 1
    ensures Times(telemetry, InfoDropped(11000)) == 1
    ensures Times(telemetry, DropCounter("Duplicate Key Error")) == 1
  {
    var blacklist, request := SetUp();
    var writeErrors := [BulkWriteError(400, "Duplicate Key Error", 0), DuplicateKey];
    var nonBlacklistedErrors;
    nonBlacklistedErrors, telemetry :=
      ProcessRequest(SinkClient(blacklist, false), request, BulkWriteFailure(BulkWriteResultMock(false, 0, 0), writeErrors));
    var first := writeErrors[..1];
    assert first == [BulkWriteError(400, "Duplicate Key Error", 0)];
    assert CountCode(writeErrors, 11000) == 1;
    assert Dropped(first, blacklist) == [];
    assert Dropped(writeErrors, blacklist) == [DuplicateKey];
    DropTelemetryOnlyForBlacklisted(SinkClient(blacklist, false), |request|, BulkWriteResultMock(false, 0, 0),
                                    writeErrors, 11000, DuplicateKey.message);
  }

  /** Of errors 11000, 400 and 502 only the 400 one comes back, and the drop
      counter is incremented twice. The request has a third operation. */
  method ShouldReturnNonBlacklistedErrorsIfSomeOfTheFailuresDontBelongToBlacklist()
    returns (nonBlacklistedErrors: seq<BulkWriteError>, telemetry: seq<Event>)
    ensures DropCounterTotal(telemetry) == 2
    ensures |nonBlacklistedErrors| == 1
    ensures nonBlacklistedErrors[0] == BulkWriteError(400, "DB not found", 0)
  {
    var blacklist, request := SetUp();
    var writeErrors := [DuplicateKey, BulkWriteError(400, "DB not found", 0), BulkWriteError(502, "Collection not found", 0)];
    request := request + [ReplaceOneModel(true)];
    nonBlacklistedErrors, telemetry :=
      ProcessRequest(SinkClient(blacklist, false), request, BulkWriteFailure(BulkWriteResultMock(false, 0, 0), writeErrors));
    var first, firstTwo := writeErrors[..1], writeErrors[..2];
    assert first == [DuplicateKey] && firstTwo[..1] == first;
    assert NonBlacklisted(first, blacklist) == [];
    assert NonBlacklisted(firstTwo, blacklist) == [BulkWriteError(400, "DB not found", 0)];
    assert NonBlacklisted(writeErrors, blacklist) == [BulkWriteError(400, "DB not found", 0)];
    DropTelemetryOnlyForBlacklisted(SinkClient(blacklist, false), |request|, BulkWriteResultMock(false, 0, 0), writeErrors, 0, []);
  }

  /** Two reported errors give one aggregate warning carrying the count 2. */
  method ShouldLogBulkRequestFailedWhenBulkResponsesHasFailures()
    returns (telemetry: seq<Event>)
    ensures Times(telemetry, WarnFailedCount(2)) == 1
  {
    var blacklist, request := SetUp();
    var writeErrors := [DuplicateKey, DuplicateKey];
    var nonBlacklistedErrors;
    nonBlacklistedErrors, telemetry :=
      ProcessRequest(SinkClient(blacklist, false), request, BulkWriteFailure(BulkWriteResultMock(false, 0, 0), writeErrors));
    FailedCountLoggedOnce(SinkClient(blacklist, false), |request|, BulkWriteResultMock(false, 0, 0), writeErrors, 2);
  }

  /** A failure that carries no errors gives no aggregate warning. */
  method ShouldNotLogBulkRequestFailedWhenBulkResponsesHasNoFailures()
    returns (telemetry: seq<Event>)
    ensures Times(telemetry, WarnFailedCount(2)) == 0
  {
    var blacklist, request := SetUp();
    var writeErrors: seq<BulkWriteError> := [];
    var nonBlacklistedErrors;
    nonBlacklistedErrors, telemetry :=
      ProcessRequest(SinkClient(blacklist, false), request, BulkWriteFailure(BulkWriteResultMock(false, 0, 0), writeErrors));
  }

  /** In update-only mode a normal return that inserted and modified nothing
      gives one aggregate warning carrying the batch size, 2. */
  method ShouldLogBulkRequestFailedWhenPrimaryKeyNotFound()
    returns (telemetry: seq<Event>)
    ensures Times(telemetry, WarnFailedCount(2)) == 1
  {
    var blacklist, request := SetUp();
    var nonBlacklistedErrors;
    nonBlacklistedErrors, telemetry :=
      ProcessRequest(SinkClient(blacklist, true), request, Returned(BulkWriteResultMock(true, 0, 0)));
  }
}
