/** `app/main.py`: the batch handler writing five-column rows into
    `bucket_events`. */
module BucketEvents {
  import opened Outcomes
  import opened Json
  import opened MinioEvent
  import opened Table
  import opened Ingest

  /** A row of `bucket_events`: four columns copied from the event and the
      event's JSON in `data`. Size and eTag have no column of their own. */
  datatype BucketEventRow = BucketEventRow(
    eventName: string,
    bucketName: string,
    objectKey: string,
    sequencer: string,
    data: Json)

  /** The parameters `process_event` passes to its INSERT. The `data` column
      holds the whole event, so nothing of it is lost, and the four copied
      columns agree with it. */
  function RowOf(e: MinioEventData): (row: BucketEventRow)
    ensures FromJson(row.data) == Some(e)
    ensures row.eventName == e.eventName && row.bucketName == e.bucketName
    ensures row.objectKey == e.objectKey && row.sequencer == e.sequencer
  {
    ToJsonRoundTrip(e);
    BucketEventRow(e.eventName, e.bucketName, e.objectKey, e.sequencer, ToJson(e))
  }

  /** `handle_event` of main.py against a `bucket_events` table. Rows already
      in the table stay where they are, and every row the request adds is the
      row of one of the events it passed to `process_event`, carrying that
      whole event in its `data` column. */
  function HandleEvent(body: Json, accept: nat -> bool, table: seq<BucketEventRow>): (run: Run<BucketEventRow>)
    ensures table <= run.table
    ensures |run.table| <= |table| + |run.calls|
    ensures forall i :: |table| <= i < |run.table| ==>
              && FromJson(run.table[i].data).Some?
              && FromJson(run.table[i].data).value in run.calls
              && run.table[i] == RowOf(FromJson(run.table[i].data).value)
  {
    AddedRowsComeFromCalls(body, RowOf, accept, table);
    HandleBatch(body, RowOf, accept, table)
  }

  /** A request carrying the single record for `e`. */
  function SingleRecordBody(e: MinioEventData): Json {
    JObject([("Records", JArray([RecordOf(e)]))])
  }

  /** Delivering the same notification twice stores it twice: the second
      request appends an identical row next to the first instead of
      replacing it, because the INSERT has no conflict clause. */
  lemma DeliveredTwiceIsStoredTwice(e: MinioEventData, accept: nat -> bool)
    requires forall k :: accept(k)
    ensures var first := HandleEvent(SingleRecordBody(e), accept, []);
            var second := HandleEvent(SingleRecordBody(e), accept, first.table);
            && first.table == [RowOf(e)]
            && second.table == [RowOf(e), RowOf(e)]
  {
    var body := SingleRecordBody(e);
    ExtractRecordOf(e);
    LookupAt(body.fields, "Records", 0);
    var records := [RecordOf(e)];
    BatchOfList(body, records, RowOf, accept, []);
    CleanBatchStoresEveryRecord(records, Extract, [e], RowOf, accept, []);
    assert Rows(RowOf, [e]) == [RowOf(e)];
    ResubmissionAppendsAgain(body, RowOf, accept, accept, []);
  }

  /** An `s3:ObjectCreated:Put` of `b1/f1.txt`, delivered twice, leaves two
      identical rows. */
  lemma PutDeliveredTwiceIsStoredTwice(accept: nat -> bool)
    requires forall k :: accept(k)
    ensures var put := MinioEventData("s3:ObjectCreated:Put", "b1", "f1.txt", 10, "abc", "1");
            var first := HandleEvent(SingleRecordBody(put), accept, []);
            HandleEvent(SingleRecordBody(put), accept, first.table).table == [RowOf(put), RowOf(put)]
  {
    DeliveredTwiceIsStoredTwice(MinioEventData("s3:ObjectCreated:Put", "b1", "f1.txt", 10, "abc", "1"), accept);
  }
}
