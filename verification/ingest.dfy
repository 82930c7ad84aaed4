/** The batch loop shared by both `handle_event` handlers: take the body's
    `Records`, and for each record in order extract an event and hand it to
    `process_event`, which runs one INSERT with its own commit or rollback.
    The two handlers differ only in the row they build from an event, so the
    loop is generic in `rowOf`. */
module Ingest {
  import opened Outcomes
  import opened Json
  import opened MinioEvent
  import opened Table

  /** What the handler returns: the "Event processed" string, or an exception
      that escapes it (which Flask turns into an internal server error). */
  datatype Response = EventProcessed | Raised(error: Exception)

  /** The outcome of one request: the response, the events passed to
      `process_event` in call order, and the table afterwards. */
  datatype Run<R> = Run(response: Response, calls: seq<MinioEventData>, table: seq<R>)

  /** The rows `process_event` tries to insert for a sequence of events. */
  function Rows<R>(rowOf: MinioEventData -> R, events: seq<MinioEventData>): (rows: seq<R>)
    ensures |rows| == |events|
    decreases |events|
  {
    if events == [] then [] else [rowOf(events[0])] + Rows(rowOf, events[1..])
  }

  /** Row `j` is the row of event `j`. */
  lemma {:induction false} RowsAt<R>(rowOf: MinioEventData -> R, events: seq<MinioEventData>, j: nat)
    requires j < |events|
    ensures Rows(rowOf, events)[j] == rowOf(events[j])
    decreases j
  {
    if j > 0 {
      RowsAt(rowOf, events[1..], j - 1);
    }
  }

  lemma RowsCons<R>(rowOf: MinioEventData -> R, e: MinioEventData, events: seq<MinioEventData>)
    ensures Rows(rowOf, [e] + events) == [rowOf(e)] + Rows(rowOf, events)
  {
    assert ([e] + events)[1..] == events;
  }

  /** The calls made for the records after the first, shifted by the first. */
  lemma CallsCons(records: seq<Json>, extract: Json -> Result<MinioEventData>, e: MinioEventData, calls: seq<MinioEventData>)
    requires records != [] && extract(records[0]) == Success(e)
    requires |calls| <= |records| - 1
    requires forall j :: 0 <= j < |calls| ==> extract(records[1..][j]) == Success(calls[j])
    ensures forall j :: 0 <= j < |[e] + calls| ==> extract(records[j]) == Success(([e] + calls)[j])
  {
    assert forall j :: 1 <= j < |[e] + calls| ==> records[j] == records[1..][j - 1] && ([e] + calls)[j] == calls[j - 1];
  }

  /** The `for` loop over the records, `done` attempts into the request;
      `extract` is the per-record step before `process_event` (Extract in
      both handlers). Extraction failures are not caught: they end the loop,
      and the rows committed so far stay. Insert failures are caught inside
      `process_event`: the statement is rolled back and the loop goes on. */
  function IngestRecords<R>(records: seq<Json>, extract: Json -> Result<MinioEventData>,
                            rowOf: MinioEventData -> R, accept: nat -> bool, done: nat, table: seq<R>): (run: Run<R>)
    ensures |run.calls| <= |records|
    ensures forall j :: 0 <= j < |run.calls| ==> extract(records[j]) == Success(run.calls[j])
    ensures run.response.EventProcessed? <==> |run.calls| == |records|
    ensures run.response.Raised? ==> extract(records[|run.calls|]) == Failure(run.response.error)
    ensures run.table == table + Committed(Rows(rowOf, run.calls), accept, done)
    decreases |records|
  {
    if records == [] then Run(EventProcessed, [], table)
    else match extract(records[0])
      case Failure(err) => Run(Raised(err), [], table)
      case Success(e) =>
        var rest := IngestRecords(records[1..], extract, rowOf, accept, done + 1, Insert(table, rowOf(e), accept(done)));
        RowsCons(rowOf, e, rest.calls);
        CommitStep(table, rowOf(e), Rows(rowOf, rest.calls), accept, done);
        CallsCons(records, extract, e, rest.calls);
        assert rest.response.Raised? ==> records[1..][|rest.calls|] == records[1 + |rest.calls|];
        Run(rest.response, [e] + rest.calls, rest.table)
  }

  /** The handler: `event_data['Records']` is indexed first, then iterated;
      an exception from either happens before any write. */
  function HandleBatch<R>(body: Json, rowOf: MinioEventData -> R, accept: nat -> bool, table: seq<R>): (run: Run<R>)
    ensures body.JObject? && Lookup(body.fields, "Records").None? ==> run == Run(Raised(KeyError("Records")), [], table)
    ensures !body.JObject? ==> run == Run(Raised(TypeError), [], table)
    ensures At(body, ["Records"]) == Some(JArray([])) ==> run == Run(EventProcessed, [], table)
    ensures table <= run.table
    ensures |run.table| <= |table| + |run.calls|
  {
    match Index(body, "Records")
    case Failure(err) => Run(Raised(err), [], table)
    case Success(records) =>
      match Iterate(records)
      case Failure(err) => Run(Raised(err), [], table)
      case Success(items) => IngestRecords(items, Extract, rowOf, accept, 0, table)
  }

  /** A body whose `Records` is a list is processed record by record. */
  lemma BatchOfList<R>(body: Json, records: seq<Json>, rowOf: MinioEventData -> R, accept: nat -> bool, table: seq<R>)
    requires body.JObject? && Lookup(body.fields, "Records") == Some(JArray(records))
    ensures HandleBatch(body, rowOf, accept, table) == IngestRecords(records, Extract, rowOf, accept, 0, table)
  {
  }

  /** When every record yields an event and every insert is accepted, the
      loop calls `process_event` once per record, in order, and the table
      gains one row per record, in the same order. */
  lemma {:induction false} CleanBatchStoresEveryRecord<R>(records: seq<Json>, extract: Json -> Result<MinioEventData>,
                                                         events: seq<MinioEventData>, rowOf: MinioEventData -> R,
                                                         accept: nat -> bool, table: seq<R>)
    requires |events| == |records|
    requires forall j :: 0 <= j < |records| ==> extract(records[j]) == Success(events[j])
    requires forall k :: accept(k)
    ensures IngestRecords(records, extract, rowOf, accept, 0, table) == Run(EventProcessed, events, table + Rows(rowOf, events))
  {
    var run := IngestRecords(records, extract, rowOf, accept, 0, table);
    if |run.calls| < |records| {
      // The loop would have stopped at a record that failed to extract,
      // but every record extracts by the second requires.
      assert false;
    }
    assert run.calls == events;
    CommittedAllAccepted(Rows(rowOf, events), accept, 0);
  }

  /** Every row a request adds is the row of one of its calls. */
  lemma AddedRowsComeFromCalls<R>(body: Json, rowOf: MinioEventData -> R, accept: nat -> bool, table: seq<R>)
    ensures var run := HandleBatch(body, rowOf, accept, table);
            forall i :: |table| <= i < |run.table| ==> exists j :: 0 <= j < |run.calls| && run.table[i] == rowOf(run.calls[j])
  {
    var run := HandleBatch(body, rowOf, accept, table);
    if run.table != table {
      var items := Iterate(Index(body, "Records").value).value;
      assert run == IngestRecords(items, Extract, rowOf, accept, 0, table);
      var rows := Rows(rowOf, run.calls);
      CommittedFromAttempts(rows, accept, 0);
      RowsMembers(rowOf, run.calls);
      forall i | |table| <= i < |run.table|
        ensures exists j :: 0 <= j < |run.calls| && run.table[i] == rowOf(run.calls[j])
      {
        assert run.table[i] == Committed(rows, accept, 0)[i - |table|];
        assert run.table[i] in rows;
      }
    }
  }

  /** Every row attempted is the row of some event. */
  lemma {:induction false} RowsMembers<R>(rowOf: MinioEventData -> R, events: seq<MinioEventData>)
    ensures forall row :: row in Rows(rowOf, events) ==> exists j :: 0 <= j < |events| && row == rowOf(events[j])
  {
    forall row | row in Rows(rowOf, events)
      ensures exists j :: 0 <= j < |events| && row == rowOf(events[j])
    {
      var j :| 0 <= j < |events| && Rows(rowOf, events)[j] == row;
      RowsAt(rowOf, events, j);
    }
  }

  /** Which events reach `process_event`, and the response, depend only on
      the records: no verdict of the database and no table contents change
      them, because an insert failure is caught inside `process_event`. */
  lemma {:induction false} CallsIgnoreDatabase<R>(records: seq<Json>, extract: Json -> Result<MinioEventData>, rowOf: MinioEventData -> R,
                                                 accept: nat -> bool, accept': nat -> bool,
                                                 done: nat, done': nat, table: seq<R>, table': seq<R>)
    ensures IngestRecords(records, extract, rowOf, accept, done, table).calls
            == IngestRecords(records, extract, rowOf, accept', done', table').calls
    ensures IngestRecords(records, extract, rowOf, accept, done, table).response
            == IngestRecords(records, extract, rowOf, accept', done', table').response
  {
    // Both runs stop at the first record that does not extract, so the
    // ensures of IngestRecords pin down the same calls for each.
  }

  /** A batch whose records all extract up to record `i`, which does not,
      calls `process_event` for exactly the first `i` records, in order,
      never touches the records after `i`, keeps every row committed before
      the failure, and lets the exception out. */
  lemma ExtractionFailureStopsBatch<R>(records: seq<Json>, extract: Json -> Result<MinioEventData>, rowOf: MinioEventData -> R, accept: nat -> bool,
                                       done: nat, table: seq<R>, i: nat)
    requires i < |records|
    requires forall j :: 0 <= j < i ==> extract(records[j]).Success?
    requires extract(records[i]).Failure?
    ensures var run := IngestRecords(records, extract, rowOf, accept, done, table);
            && run.response == Raised(extract(records[i]).error)
            && |run.calls| == i
            && (forall j :: 0 <= j < i ==> run.calls[j] == extract(records[j]).value)
            && run.table == table + Committed(Rows(rowOf, run.calls), accept, done)
  {
    // Follows from the ensures of IngestRecords: the calls are a prefix of
    // successful extractions that ends exactly at the first failure.
  }

  /** A refused insert costs only its own row: the same batch with the
      verdict for attempt `k` turned from accept to refuse makes the same
      calls and gives the same response, and its table lacks exactly the row
      of call `k`: both tables share the rows `before` and `after` it. */
  lemma RefusedInsertLosesOnlyItsRow<R>(records: seq<Json>, extract: Json -> Result<MinioEventData>, rowOf: MinioEventData -> R,
                                       accept: nat -> bool, accept': nat -> bool, table: seq<R>, k: nat)
    returns (before: seq<R>, after: seq<R>)
    requires k < |IngestRecords(records, extract, rowOf, accept, 0, table).calls|
    requires accept(k) && !accept'(k)
    requires forall m :: m != k ==> accept(m) == accept'(m)
    ensures var run := IngestRecords(records, extract, rowOf, accept, 0, table);
            var run' := IngestRecords(records, extract, rowOf, accept', 0, table);
            && run'.calls == run.calls
            && run'.response == run.response
            && run.table == table + before + [rowOf(run.calls[k])] + after
            && run'.table == table + before + after
  {
    var run := IngestRecords(records, extract, rowOf, accept, 0, table);
    var run' := IngestRecords(records, extract, rowOf, accept', 0, table);
    CallsIgnoreDatabase(records, extract, rowOf, accept, accept', 0, 0, table, table);
    var rows := Rows(rowOf, run.calls);
    var pre, post := rows[..k], rows[k + 1..];
    SplitAround(rows, k);
    RowsAt(rowOf, run.calls, k);
    Table.RefusalLosesOnlyItsRow(pre, rows[k], post, accept, accept', 0);
    before := Committed(pre, accept, 0);
    after := Committed(post, accept, k + 1);
    AppendAssoc(table, before, [rows[k]] + after);
    AppendAssoc(table, before, after);
    AppendAssoc(before, [rows[k]], after);
    AppendAssoc(table + before, [rows[k]], after);
  }

  /** When the database refuses every insert, a request leaves the table as
      it was, whatever calls it makes: each failure is rolled back. */
  lemma AllRefusedLeavesTableUnchanged<R>(body: Json, rowOf: MinioEventData -> R, accept: nat -> bool, table: seq<R>)
    requires forall k :: !accept(k)
    ensures HandleBatch(body, rowOf, accept, table).table == table
  {
    var run := HandleBatch(body, rowOf, accept, table);
    match Index(body, "Records")
    case Failure(_) =>
    case Success(records) =>
      match Iterate(records)
      case Failure(_) =>
      case Success(items) =>
        CommittedNoneAccepted(Rows(rowOf, run.calls), accept, 0);
  }

  /** Re-submitting a batch is another round of plain INSERTs, never a
      replacement: the second request makes the same calls, keeps every row
      the first one left, and, when the database accepts its inserts, appends
      one more row per call, so each of them is now stored a second time. */
  lemma ResubmissionAppendsAgain<R>(body: Json, rowOf: MinioEventData -> R,
                                    accept: nat -> bool, accept': nat -> bool, table: seq<R>)
    requires forall k :: accept'(k)
    ensures var first := HandleBatch(body, rowOf, accept, table);
            var second := HandleBatch(body, rowOf, accept', first.table);
            && second.calls == first.calls
            && second.response == first.response
            && second.table == first.table + Rows(rowOf, first.calls)
  {
    var first := HandleBatch(body, rowOf, accept, table);
    var second := HandleBatch(body, rowOf, accept', first.table);
    match Index(body, "Records")
    case Failure(_) =>
    case Success(records) =>
      match Iterate(records)
      case Failure(_) =>
      case Success(items) =>
        CallsIgnoreDatabase(items, Extract, rowOf, accept, accept', 0, 0, table, first.table);
        CommittedAllAccepted(Rows(rowOf, second.calls), accept', 0);
  }
}
