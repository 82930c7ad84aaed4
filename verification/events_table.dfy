/** `app/main-2.py`: the same batch handler as main.py, writing seven-column
    rows into `events`. */
module EventsTable {
  import opened Outcomes
  import opened Json
  import opened MinioEvent
  import opened Table
  import opened Ingest

  /** A row of `events`: all six event fields as columns, plus the event's
      JSON in `data`. */
  datatype EventRow = EventRow(
    eventName: string,
    bucketName: string,
    objectKey: string,
    size: int,
    eTag: string,
    sequencer: string,
    data: Json)

  /** The event the six plain columns of a row describe. */
  function ColumnsOf(row: EventRow): MinioEventData {
    MinioEventData(row.eventName, row.bucketName, row.objectKey, row.size, row.eTag, row.sequencer)
  }

  /** The parameters `process_event` passes to its INSERT: the columns hold
      the event, and the `data` column holds the same event again. */
  function RowOf(e: MinioEventData): (row: EventRow)
    ensures ColumnsOf(row) == e
    ensures FromJson(row.data) == Some(ColumnsOf(row))
  {
    ToJsonRoundTrip(e);
    EventRow(e.eventName, e.bucketName, e.objectKey, e.size, e.eTag, e.sequencer, ToJson(e))
  }

  /** `handle_event` of main-2.py against an `events` table. Rows already in
      the table stay, and every row the request adds holds, in its columns
      and again in `data`, one of the events passed to `process_event`. */
  function HandleEvent(body: Json, accept: nat -> bool, table: seq<EventRow>): (run: Run<EventRow>)
    ensures table <= run.table
    ensures |run.table| <= |table| + |run.calls|
    ensures forall i :: |table| <= i < |run.table| ==>
              && ColumnsOf(run.table[i]) in run.calls
              && FromJson(run.table[i].data) == Some(ColumnsOf(run.table[i]))
  {
    AddedRowsComeFromCalls(body, RowOf, accept, table);
    HandleBatch(body, RowOf, accept, table)
  }

  /** With every insert accepted, a batch of well-formed records adds one
      row per record, in record order, each row holding its record's fields. */
  lemma {:induction false} AcceptedBatchStoresEveryRecord(events: seq<MinioEventData>, accept: nat -> bool, table: seq<EventRow>)
    requires forall k :: accept(k)
    ensures var body := JObject([("Records", JArray(seq(|events|, j requires 0 <= j < |events| => RecordOf(events[j]))))]);
            var run := HandleEvent(body, accept, table);
            && run.response == EventProcessed
            && |run.table| == |table| + |events|
            && forall j :: 0 <= j < |events| ==> ColumnsOf(run.table[|table| + j]) == events[j]
  {
    var records := seq(|events|, j requires 0 <= j < |events| => RecordOf(events[j]));
    var body := JObject([("Records", JArray(records))]);
    LookupAt(body.fields, "Records", 0);
    forall j | 0 <= j < |events|
      ensures Extract(records[j]) == Success(events[j])
    {
      ExtractRecordOf(events[j]);
    }
    BatchOfList(body, records, RowOf, accept, table);
    CleanBatchStoresEveryRecord(records, Extract, events, RowOf, accept, table);
    forall j | 0 <= j < |events|
      ensures ColumnsOf(HandleEvent(body, accept, table).table[|table| + j]) == events[j]
    {
      RowsAt(RowOf, events, j);
    }
  }
}
