/** Values exchanged with the document store during one bulk write: the
    write operations of a batch, the per-operation errors the store reports,
    the counts of a normal result, and the two ways a submission can end. */
module BulkWrite {

  datatype Option<+T> = None | Some(value: T)

  /** One replace-one write operation of a batch. Its filter and replacement
      documents play no part in the reconciliation, so only whether it may
      create a missing document is kept. */
  datatype WriteModel = ReplaceOneModel(upsert: bool)

  /** One per-operation error of a partially failed bulk write: the store's
      status code, its message, and the index of the operation in the batch.
      The error details document is not modelled. Two errors are equal when
      all three parts are. */
  datatype BulkWriteError = BulkWriteError(code: int, message: string, index: int)

  /** An upsert entry of a result; the result mock hands out copies of one
      mocked entry, so its contents are immaterial. */
  datatype BulkWriteUpsert = UpsertMock

  /** The counts a normal (non-throwing) bulk write reports, as the test's
      result mock fixes them: three constructor arguments, and every other
      count derived from them. */
  datatype BulkWriteResultMock = BulkWriteResultMock(wasAcknowledged: bool, insertedCount: int, modifiedCount: int)
  {
    /** Documents matched by the filters. The mock reports the modified count
        here, which is also what its modified-count getter returns, so a
        result never modified more documents than it matched. */
    function MatchedCount(): (n: int)
      ensures n == modifiedCount
    {
      modifiedCount
    }

    /** No operation of a replace batch deletes anything. */
    function DeletedCount(): (n: int)
      ensures n == 0
    {
      0
    }

    function IsModifiedCountAvailable(): (b: bool)
      ensures b
    {
      true
    }

    /** One upsert entry per inserted document. A negative inserted count
        makes the list constructor reject its argument, modelled as None. */
    function Upserts(): (r: Option<seq<BulkWriteUpsert>>)
      ensures r.Some? <==> insertedCount >= 0
      ensures r.Some? ==> |r.value| == insertedCount
      ensures r.Some? ==> forall i :: 0 <= i < |r.value| ==> r.value[i] == UpsertMock
    {
      if insertedCount < 0 then None else Some(seq(insertedCount, _ => UpsertMock))
    }

    /** Nothing was created and nothing was modified. */
    predicate NothingWritten()
    {
      insertedCount == 0 && modifiedCount == 0
    }
  }

  /** How the submission of a batch ends: it returns a result normally, or it
      raises the bulk-write failure that carries a result and the list of
      per-operation errors in the order the store reported them. Transport
      failures are not part of this model. */
  datatype BulkWriteOutcome =
    | Returned(result: BulkWriteResultMock)
    | BulkWriteFailure(result: BulkWriteResultMock, writeErrors: seq<BulkWriteError>)

  /** The counts of a result agree with each other: a replace batch deletes
      nothing, every modified document was matched, and there is one upsert
      entry per inserted document. */
  lemma ResultMockCountsAgree(r: BulkWriteResultMock)
    requires r.insertedCount >= 0
    ensures r.DeletedCount() == 0
    ensures r.modifiedCount <= r.MatchedCount()
    ensures r.Upserts().Some? && |r.Upserts().value| == r.insertedCount
    ensures r.NothingWritten() ==> r.MatchedCount() == 0 && r.Upserts().value == []
  {
  }
}
