/** The batch-write reconciliation of the MongoDB sink client: submit a batch,
    and when the store reports per-operation errors, drop (with telemetry) the
    ones whose status code is in the retry blacklist and hand every other one
    back to the caller, in the order the store reported them. */
module MongoSinkClient {
  import opened BulkWrite
  import opened Instrumentation

  /** The configuration a client is built with: the status codes that must
      never be retried, and whether the sink runs in update-only mode (missing
      documents are never created). Neither changes during a call. */
  datatype SinkClient = SinkClient(retryStatusCodeBlacklist: seq<int>, updateOnlyMode: bool)

  /** The errors handed back to the caller: those whose code is not
      blacklisted, in reporting order. */
  function NonBlacklisted(errors: seq<BulkWriteError>, blacklist: seq<int>): (r: seq<BulkWriteError>)
    ensures |r| <= |errors|
    ensures forall i :: 0 <= i < |r| ==> r[i].code !in blacklist
  {
    if errors == [] then []
    else
      var last := errors[|errors| - 1];
      NonBlacklisted(errors[..|errors| - 1], blacklist) + (if last.code in blacklist then [] else [last])
  }

  /** The errors that are dropped: those whose code is blacklisted, in
      reporting order. */
  function Dropped(errors: seq<BulkWriteError>, blacklist: seq<int>): (r: seq<BulkWriteError>)
    ensures |r| <= |errors|
    ensures forall i :: 0 <= i < |r| ==> r[i].code in blacklist
  {
    if errors == [] then []
    else
      var last := errors[|errors| - 1];
      Dropped(errors[..|errors| - 1], blacklist) + (if last.code in blacklist then [last] else [])
  }

  /** The three calls made for one dropped error. */
  function DropEvents(e: BulkWriteError): seq<Event>
  {
    [WarnBlacklisted(e.code), InfoDropped(e.code), DropCounter(e.message)]
  }

  /** The calls made while walking an error list: three per blacklisted
      error, none for the others. */
  function DropTelemetry(errors: seq<BulkWriteError>, blacklist: seq<int>): (r: seq<Event>)
    ensures |r| == 3 * |Dropped(errors, blacklist)|
  {
    if errors == [] then []
    else
      var last := errors[|errors| - 1];
      DropTelemetry(errors[..|errors| - 1], blacklist) + (if last.code in blacklist then DropEvents(last) else [])
  }

  /** A normal result that, in update-only mode, neither inserted nor
      modified anything: every target document was missing. */
  predicate UpdateOnlyNothingWritten(client: SinkClient, result: BulkWriteResultMock)
  {
    client.updateOnlyMode && result.NothingWritten()
  }

  /** Every telemetry call of one request of `batchSize` operations, in
      order: the aggregate failure warning (if any) first, then the calls for
      each dropped error. */
  function Telemetry(client: SinkClient, batchSize: nat, response: BulkWriteOutcome): (t: seq<Event>)
    ensures response.Returned? ==>
              |t| <= 1 && (t != [] <==> UpdateOnlyNothingWritten(client, response.result))
    ensures response.Returned? && t != [] ==> t[0] == WarnFailedCount(batchSize)
    ensures response.BulkWriteFailure? ==>
              |t| == (if response.writeErrors == [] then 0 else 1)
                     + 3 * |Dropped(response.writeErrors, client.retryStatusCodeBlacklist)|
    ensures response.BulkWriteFailure? && response.writeErrors != [] ==>
              t[0] == WarnFailedCount(|response.writeErrors|)
  {
    match response
    case Returned(result) =>
      if UpdateOnlyNothingWritten(client, result) then [WarnFailedCount(batchSize)] else []
    case BulkWriteFailure(_, errors) =>
      (if |errors| > 0 then [WarnFailedCount(|errors|)] else [])
      + DropTelemetry(errors, client.retryStatusCodeBlacklist)
  }

  /** Walks the reported errors in order: a blacklisted error is dropped
      with its three telemetry calls, every other one is kept for the caller. */
  method WalkErrors(errors: seq<BulkWriteError>, blacklist: seq<int>)
    returns (nonBlacklistedErrors: seq<BulkWriteError>, drops: seq<Event>)
    ensures nonBlacklistedErrors == NonBlacklisted(errors, blacklist)
    ensures drops == DropTelemetry(errors, blacklist)
  {
    nonBlacklistedErrors, drops := [], [];
    var i := 0;
    while i < |errors|
      invariant 0 <= i <= |errors|
      invariant nonBlacklistedErrors == NonBlacklisted(errors[..i], blacklist)
      invariant drops == DropTelemetry(errors[..i], blacklist)
    {
      var error := errors[i];
      assert errors[..i + 1][..i] == errors[..i];
      if error.code in blacklist {
        drops := drops + [WarnBlacklisted(error.code), InfoDropped(error.code), DropCounter(error.message)];
      } else {
        nonBlacklistedErrors := nonBlacklistedErrors + [error];
      }
      i := i + 1;
    }
    assert errors[..i] == errors;
  }

  /** Submits `request`, whose submission ends as `response`, and returns the
      errors the caller must still handle together with the telemetry calls
      made. The result of an update-only request that wrote nothing is left
      open: no behaviour is fixed for it. */
  method ProcessRequest(client: SinkClient, request: seq<WriteModel>, response: BulkWriteOutcome)
    returns (nonBlacklistedErrors: seq<BulkWriteError>, telemetry: seq<Event>)
    ensures telemetry == Telemetry(client, |request|, response)
    ensures response.BulkWriteFailure? ==>
              nonBlacklistedErrors == NonBlacklisted(response.writeErrors, client.retryStatusCodeBlacklist)
    ensures response.Returned? && !UpdateOnlyNothingWritten(client, response.result) ==>
              nonBlacklistedErrors == []
  {
    match response
    case Returned(result) =>
      nonBlacklistedErrors := [];
      telemetry := [];
      if client.updateOnlyMode && result.insertedCount == 0 && result.modifiedCount == 0 {
        telemetry := telemetry + [WarnFailedCount(|request|)];
      }
    case BulkWriteFailure(_, errors) =>
      telemetry := [];
      if |errors| > 0 {
        telemetry := telemetry + [WarnFailedCount(|errors|)];
      }
      var drops;
      nonBlacklistedErrors, drops := WalkErrors(errors, client.retryStatusCodeBlacklist);
      telemetry := telemetry + drops;
  }

  // ---------------------------------------------------------------------
  // The returned errors: an order-preserving filter

  /** Filtering a concatenation filters each part: the relative order of the
      reported errors is kept. */
  lemma {:induction false} NonBlacklistedAppend(a: seq<BulkWriteError>, b: seq<BulkWriteError>, blacklist: seq<int>)
    ensures NonBlacklisted(a + b, blacklist) == NonBlacklisted(a, blacklist) + NonBlacklisted(b, blacklist)
    decreases |b|
  {
    if b == [] {
      assert a + b == a;
    } else {
      var b' := b[..|b| - 1];
      assert (a + b)[..|a + b| - 1] == a + b';
      NonBlacklistedAppend(a, b', blacklist);
    }
  }

  /** An error is returned exactly when it was reported and its code is not
      blacklisted. */
  lemma {:induction false} NonBlacklistedMembership(errors: seq<BulkWriteError>, blacklist: seq<int>, e: BulkWriteError)
    ensures e in NonBlacklisted(errors, blacklist) <==> e in errors && e.code !in blacklist
  {
    if errors != [] {
      var init := errors[..|errors| - 1];
      assert errors == init + [errors[|errors| - 1]];
      NonBlacklistedMembership(init, blacklist, e);
    }
  }

  /** Every reported error is either returned or dropped, never both and
      never lost, and no error is counted twice. */
  lemma {:induction false} Partition(errors: seq<BulkWriteError>, blacklist: seq<int>)
    ensures multiset(NonBlacklisted(errors, blacklist)) + multiset(Dropped(errors, blacklist)) == multiset(errors)
    ensures |NonBlacklisted(errors, blacklist)| + |Dropped(errors, blacklist)| == |errors|
  {
    if errors != [] {
      var init := errors[..|errors| - 1];
      assert errors == init + [errors[|errors| - 1]];
      Partition(init, blacklist);
    }
    calc {
      |NonBlacklisted(errors, blacklist)| + |Dropped(errors, blacklist)|;
      |multiset(NonBlacklisted(errors, blacklist)) + multiset(Dropped(errors, blacklist))|;
      |errors|;
    }
  }

  /** The error list comes back unchanged, element by element and in order,
      exactly when none of its codes is blacklisted. */
  lemma {:induction false} NonBlacklistedIdentity(errors: seq<BulkWriteError>, blacklist: seq<int>)
    ensures NonBlacklisted(errors, blacklist) == errors <==>
              forall i :: 0 <= i < |errors| ==> errors[i].code !in blacklist
  {
    if forall i :: 0 <= i < |errors| ==> errors[i].code !in blacklist {
      if errors != [] {
        var init := errors[..|errors| - 1];
        NonBlacklistedIdentity(init, blacklist);
        assert errors == init + [errors[|errors| - 1]];
      }
    }
    if NonBlacklisted(errors, blacklist) == errors {
      forall i | 0 <= i < |errors| ensures errors[i].code !in blacklist {
        assert NonBlacklisted(errors, blacklist)[i] == errors[i];
      }
    }
  }

  /** With an empty blacklist every reported error is returned unchanged. */
  lemma {:induction false} EmptyBlacklistReturnsAll(errors: seq<BulkWriteError>)
    ensures NonBlacklisted(errors, []) == errors
  {
    NonBlacklistedIdentity(errors, []);
  }

  // ---------------------------------------------------------------------
  // Telemetry counts

  /** How many reported errors carry status code `c`. */
  function CountCode(errors: seq<BulkWriteError>, c: int): (n: nat)
    ensures n <= |errors|
  {
    if errors == [] then 0
    else CountCode(errors[..|errors| - 1], c) + (if errors[|errors| - 1].code == c then 1 else 0)
  }

  /** How many errors carry message `m`. */
  function CountMessage(errors: seq<BulkWriteError>, m: string): (n: nat)
    ensures n <= |errors|
  {
    if errors == [] then 0
    else CountMessage(errors[..|errors| - 1], m) + (if errors[|errors| - 1].message == m then 1 else 0)
  }

  /** Walking the error list makes, per blacklisted error, one warning and
      one info log carrying its code, with no deduplication, and none for an
      error whose code is not blacklisted. */
  lemma {:induction false} DropTelemetryCodeCounts(errors: seq<BulkWriteError>, blacklist: seq<int>, c: int)
    ensures Times(DropTelemetry(errors, blacklist), WarnBlacklisted(c)) == if c in blacklist then CountCode(errors, c) else 0
    ensures Times(DropTelemetry(errors, blacklist), InfoDropped(c)) == if c in blacklist then CountCode(errors, c) else 0
  {
    if errors != [] {
      var init := errors[..|errors| - 1];
      DropTelemetryCodeCounts(init, blacklist, c);
    }
  }

  /** Walking the error list makes one drop-counter increment tagged with
      the message of each blacklisted error, with no deduplication. */
  lemma {:induction false} DropTelemetryCauseCounts(errors: seq<BulkWriteError>, blacklist: seq<int>, m: string)
    ensures Times(DropTelemetry(errors, blacklist), DropCounter(m)) == CountMessage(Dropped(errors, blacklist), m)
  {
    if errors != [] {
      var init := errors[..|errors| - 1];
      DropTelemetryCauseCounts(init, blacklist, m);
      var last := errors[|errors| - 1];
      var d := Dropped(errors, blacklist);
      if last.code in blacklist {
        assert d == Dropped(init, blacklist) + [last];
        assert d[..|d| - 1] == Dropped(init, blacklist);
      } else {
        assert d == Dropped(init, blacklist);
        assert DropTelemetry(errors, blacklist) == DropTelemetry(init, blacklist);
      }
    }
  }

  /** Walking the error list increments the drop counter once per
      blacklisted error and never logs the aggregate warning. */
  lemma {:induction false} DropTelemetryTotals(errors: seq<BulkWriteError>, blacklist: seq<int>, k: int)
    ensures Times(DropTelemetry(errors, blacklist), WarnFailedCount(k)) == 0
    ensures DropCounterTotal(DropTelemetry(errors, blacklist)) == |Dropped(errors, blacklist)|
  {
    if errors != [] {
      var init := errors[..|errors| - 1];
      var last := errors[|errors| - 1];
      DropTelemetryTotals(init, blacklist, k);
      var step := if last.code in blacklist then DropEvents(last) else [];
      assert DropTelemetry(errors, blacklist) == DropTelemetry(init, blacklist) + step;
      assert Dropped(errors, blacklist) == Dropped(init, blacklist) + (if last.code in blacklist then [last] else []);
      DropCounterTotalAppend(DropTelemetry(init, blacklist), step);
      if last.code in blacklist {
        DropEventsCountOnce(last);
      }
    }
  }

  /** The calls for one dropped error hold exactly one counter increment. */
  lemma DropEventsCountOnce(e: BulkWriteError)
    ensures DropCounterTotal(DropEvents(e)) == 1
  {
    var step := DropEvents(e);
    assert step[..2] == [WarnBlacklisted(e.code), InfoDropped(e.code)];
    assert step[..2][..1] == [WarnBlacklisted(e.code)];
  }

  /** For a partially failed write, the aggregate failure warning is logged
      exactly once, carrying the total number of reported errors (dropped and
      returned), when there is at least one error, and never otherwise. */
  lemma {:induction false} FailedCountLoggedOnce(client: SinkClient, batchSize: nat, result: BulkWriteResultMock,
                              errors: seq<BulkWriteError>, k: int)
    ensures Times(Telemetry(client, batchSize, BulkWriteFailure(result, errors)), WarnFailedCount(k)) ==
              if |errors| > 0 && k == |errors| then 1 else 0
  {
    DropTelemetryTotals(errors, client.retryStatusCodeBlacklist, k);
  }

  /** For a partially failed write, drop telemetry is made only for the
      blacklisted errors: the number of drop-counter increments is the number
      of blacklisted errors, and each blacklisted code gets one warning and
      one info log per error carrying it. */
  lemma {:induction false} DropTelemetryOnlyForBlacklisted(client: SinkClient, batchSize: nat, result: BulkWriteResultMock,
                                        errors: seq<BulkWriteError>, c: int, m: string)
    ensures var t := Telemetry(client, batchSize, BulkWriteFailure(result, errors));
            var blacklist := client.retryStatusCodeBlacklist;
            && DropCounterTotal(t) == |Dropped(errors, blacklist)| == |errors| - |NonBlacklisted(errors, blacklist)|
            && Times(t, WarnBlacklisted(c)) == Times(t, InfoDropped(c)) == (if c in blacklist then CountCode(errors, c) else 0)
            && Times(t, DropCounter(m)) == CountMessage(Dropped(errors, blacklist), m)
  {
    var blacklist := client.retryStatusCodeBlacklist;
    var head: seq<Event> := if |errors| > 0 then [WarnFailedCount(|errors|)] else [];
    DropTelemetryCodeCounts(errors, blacklist, c);
    DropTelemetryCauseCounts(errors, blacklist, m);
    DropTelemetryTotals(errors, blacklist, 0);
    DropCounterTotalAppend(head, DropTelemetry(errors, blacklist));
    assert DropCounterTotal(head) == 0 by {
      if |errors| > 0 { assert head[..0] == []; }
    }
    Partition(errors, blacklist);
  }

  /** A normal return makes no drop telemetry; it logs the aggregate failure
      warning, once and with the batch size as the count, exactly when the
      sink is in update-only mode and nothing was inserted or modified. */
  lemma ReturnedTelemetry(client: SinkClient, batchSize: nat, result: BulkWriteResultMock, k: int)
    ensures var t := Telemetry(client, batchSize, Returned(result));
            && DropCounterTotal(t) == 0
            && Times(t, WarnFailedCount(k)) ==
                 (if client.updateOnlyMode && result.insertedCount == 0 && result.modifiedCount == 0 && k == batchSize
                  then 1 else 0)
            && forall i :: 0 <= i < |t| ==> t[i].WarnFailedCount?
  {
  }
}
