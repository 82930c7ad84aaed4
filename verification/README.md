# MinIO bucket-notification ingest, modelled in Dafny

The modelled service is a small Flask application. It receives MinIO bucket
notifications on `POST /event` and stores them in PostgreSQL. There are three
variants of the handler:

- `app/main.py` walks the body's `Records` list. For each record it extracts
  the six fields of a `MinioEventData`: event name, bucket name, object key,
  size, eTag and sequencer. The first three are required paths. The last
  three are read with `.get` defaults: `0`, `""` and `""`. It then calls
  `process_event`, which runs one plain `INSERT` into `bucket_events`. The
  row has four copied columns and the event's JSON in `data`. The statement
  is committed, or rolled back when it fails; the failure is swallowed.
- `app/main-2.py` is the same loop, writing seven-column rows into `events`:
  all six fields, plus the JSON.
- `app/old-main.py` is the predecessor. The whole body is one
  `Event(event_type, data)`, and it inserts `(event_type, json(data))`.

## Modules

- `Outcomes` (outcomes.dfy) holds `Option`, `Result` and the Python
  exceptions that can escape a handler:
  - `KeyError`
  - `TypeError`
  - pydantic's `ValidationError`

  It also has `AttributeError`, raised by `Json.Get` (`.get`) on a value
  that is not a dict. The handlers never raise it: they call `.get` only on
  `record['s3']['object']`, after `['key']` has been read from it, so that
  value is a dict (`MinioEvent.LocateRaisesOnlyLookupErrors`).
- `Json` (json.dfy) holds the decoded request body and Python's operations
  on it:
  - `x[k]`, which raises `TypeError` or `KeyError`;
  - `x.get(k, d)`;
  - iteration with `for`: a list gives its items, a dict its keys, a string
    its characters, and anything else raises `TypeError`.

  Objects are kept as association lists. A duplicated key resolves to its
  last binding on lookup, as `json.loads` does. Iteration visits it once per
  occurrence, where a Python dict holds it once. The handlers cannot observe
  this: the first key visited already fails extraction with a TypeError.
- `MinioEvent` (minio_event.dfy) holds the per-record extraction, the
  `MinioEventData` model and the `event.json()` serialisation.
- `Table` (table.dfy) models one `INSERT` plus commit or rollback as
  append-or-unchanged. The database's verdict on each attempt is an oracle
  `accept: nat -> bool`, indexed by attempt number.
- `Ingest` (ingest.dfy) holds the batch loop shared by main.py and
  main-2.py. It is generic in the row built from an event.
- `BucketEvents`, `EventsTable` and `SingleEvent` are the three handlers.

Behaviours of the code worth stating plainly:

- **No deduplication.** The `INSERT` at main.py:112 (main-2.py:93) has no
  conflict clause. A re-delivered notification is therefore stored again
  beside the first copy (`BucketEvents.DeliveredTwiceIsStoredTwice`).
- **A bad record stops the batch.** Extraction at main.py:94-101 sits
  outside any `try`. An exception there leaves the loop: the records after
  it are never processed, and the rows already committed stay
  (`Ingest.ExtractionFailureStopsBatch`).
- **Missing `Records` is a server error.** `event_data['Records']` at
  main.py:93 raises an uncaught `KeyError`, which Flask answers with a
  server error, not a client error.
- **One behaviour only.** There is no configuration switch: every request
  takes the single path described above.

## Model

| member | source | states |
|---|---|---|
| Json.LookupNone | flask-pydantic-event-notifications/app/main.py:95-97 | A dict lookup finds nothing exactly when no member of the object carries the key. |
| Json.LookupAt | flask-pydantic-event-notifications/app/main.py:95-97 | A lookup yields the value of the last member carrying the key, as in the dict the JSON decoder builds. |
| Json.IndexAgreesWithAt | flask-pydantic-event-notifications/app/main.py:95-97 | `x[k]` succeeds exactly when the key is present in a dict, and yields its value. Otherwise it raises KeyError(k) on a dict and TypeError on anything else. |
| Json.GetAgreesWithAt | flask-pydantic-event-notifications/app/main.py:98-100 | `x.get(k, d)` on a dict yields the value at k, or d when k is absent. On anything else it raises AttributeError. |
| Json.Iterate | flask-pydantic-event-notifications/app/main.py:93 | `for r in x` visits a list's items, a dict's keys as strings, or a string's characters. Any other value raises TypeError. |
| MinioEvent.Locate | flask-pydantic-event-notifications/app/main.py:94-101 | A record that is not a dict raises TypeError. A dict without `eventName` raises KeyError("eventName"), since that is the first lookup made. The exception for each later missing step is stated by `MinioEvent.ExtractRaisesAtFirstGap`. |
| MinioEvent.LocateAgreesWithAt | flask-pydantic-event-notifications/app/main.py:95-100 | Reading the arguments succeeds exactly when `eventName`, `s3.bucket.name` and `s3.object.key` are all present. Those values are the ones at the paths. size, eTag and sequencer are the values under `s3.object` when present, and the defaults 0, "" and "" when absent. |
| MinioEvent.Validate | flask-pydantic-event-notifications/app/main.py:23-29 | The constructor succeeds exactly when all six arguments have their declared JSON type: strings, and an integer for `size`. The event then carries exactly those values. A rejection is a ValidationError naming at least one field. |
| MinioEvent.ValidateNamesBadFields | flask-pydantic-event-notifications/app/main.py:23-29 | A ValidationError names a field exactly when that field's argument has the wrong type. |
| MinioEvent.Extract | flask-pydantic-event-notifications/app/main.py:94-101 | A non-dict record raises TypeError. A missing `eventName` raises KeyError("eventName"). Once every path has been read, a failure can only be a ValidationError naming at least one field. AttributeError never escapes. |
| MinioEvent.ExtractMatchesReference | flask-pydantic-event-notifications/app/main.py:94-101 | Extraction succeeds if and only if the record satisfies an independent path-based predicate. The six fields then equal the path values, with defaults for the optional three. |
| MinioEvent.DefaultsWhenAbsent | flask-pydantic-event-notifications/app/main.py:98-100 | A record that extracts and whose `s3.object` lacks size, eTag and sequencer yields size 0 and empty eTag and sequencer. |
| MinioEvent.RequiredFieldsAreRequired | flask-pydantic-event-notifications/app/main.py:95-97 | A record missing `eventName`, the bucket name or the object key never yields an event. The exception is the KeyError or TypeError of a hard index, never a ValidationError. |
| MinioEvent.ExtractRaisesAtFirstGap | flask-pydantic-event-notifications/app/main.py:95-97 | The required lookups run in the order `eventName`, `s3`, `bucket`, `name`, `object`, `key`. The first one that cannot be made decides the exception. It is KeyError naming that key when the level above is a dict, and TypeError when that level is not a dict. |
| MinioEvent.LocateRaisesOnlyLookupErrors | flask-pydantic-event-notifications/app/main.py:96-100 | Reading the arguments raises only KeyError or TypeError. `.get` runs only on the `object` member after `['key']` was read from it, so AttributeError cannot arise. |
| MinioEvent.ToJsonRoundTrip | flask-pydantic-event-notifications/app/main.py:107 | Reading the six fields back from `event.json()` gives the event: nothing is lost in the `data` column. |
| MinioEvent.ToJsonInjective | flask-pydantic-event-notifications/app/main.py:107 | Distinct events serialise to distinct JSON. |
| MinioEvent.ExtractRecordOf | flask-pydantic-event-notifications/app/main.py:94-101 | The canonical MinIO record built from an event extracts back to exactly that event. |
| MinioEvent.ToJson | flask-pydantic-event-notifications/app/main.py:107 | `event.json()` is an object of six members with pairwise distinct names. `MinioEvent.ToJsonRoundTrip` reads the event back from it. |
| Table.Insert | flask-pydantic-event-notifications/app/main.py:110-117 | One INSERT with commit or rollback keeps every existing row in place. It adds exactly one row, at the end, when committed, and nothing when rolled back. |
| Table.RefusalLosesOnlyItsRow | flask-pydantic-event-notifications/app/main.py:110-117 | Turning one attempt's verdict from commit to rollback removes exactly that attempt's row. Rows committed before and after it are unchanged. |
| Ingest.IngestRecords | flask-pydantic-event-notifications/app/main.py:93-102 | Records are processed in order, with one `process_event` call per record that extracts. The loop stops at the first failing record and raises that record's error. It answers "Event processed" exactly when every record extracted. The table is the old table plus the committed rows of the calls, in call order. |
| Ingest.HandleBatch | flask-pydantic-event-notifications/app/main.py:91-103 | A missing `Records` raises KeyError("Records"), and a non-dict body raises TypeError; both happen before any write. An empty `Records` list answers "Event processed" with no calls. Existing rows are never changed or removed. The table grows by at most one row per call. |
| Ingest.CleanBatchStoresEveryRecord | flask-pydantic-event-notifications/app/main.py:93-114 | When every record extracts and every insert commits, each record gives one call and one row, in record order. |
| Ingest.AddedRowsComeFromCalls | flask-pydantic-event-notifications/app/main.py:106-114 | Every row a request adds is the row of one of its `process_event` calls. |
| Ingest.CallsIgnoreDatabase | flask-pydantic-event-notifications/app/main.py:110-117 | The calls made and the response do not depend on the database's verdicts or on the table contents, because insert failures are caught. This holds while the rollback itself succeeds; see "## Left out". |
| Ingest.ExtractionFailureStopsBatch | flask-pydantic-event-notifications/app/main.py:93-102 | If record i is the first that fails to extract, exactly records 0..i-1 are processed. The error of record i escapes. The rows committed before it stay. |
| Ingest.RefusedInsertLosesOnlyItsRow | flask-pydantic-event-notifications/app/main.py:110-117 | A rollback of call k leaves the calls and the response unchanged. The resulting table lacks exactly the row of call k. |
| Ingest.AllRefusedLeavesTableUnchanged | flask-pydantic-event-notifications/app/main.py:110-117 | When the database refuses every insert, each is rolled back and the request leaves the table as it was. |
| Ingest.ResubmissionAppendsAgain | flask-pydantic-event-notifications/app/main.py:112-114 | Re-sending a body makes the same calls and gives the same response. With the inserts accepted, it appends every call's row again after the rows already stored, with no replacement. |
| BucketEvents.RowOf | flask-pydantic-event-notifications/app/main.py:112-113 | The `bucket_events` row's four columns equal the event's fields. Its `data` column decodes back to the whole event. |
| BucketEvents.HandleEvent | flask-pydantic-event-notifications/app/main.py:91-117 | Existing rows stay, and the table grows by at most one row per call. Every added row holds in `data` an event that was passed to `process_event`, and it is exactly that event's row. |
| BucketEvents.DeliveredTwiceIsStoredTwice | flask-pydantic-event-notifications/app/main.py:112-114 | With every insert accepted, the same one-record notification delivered twice into an empty table leaves two identical rows. |
| BucketEvents.PutDeliveredTwiceIsStoredTwice | flask-pydantic-event-notifications/app/main.py:112-114 | With every insert accepted, the same holds for the concrete `s3:ObjectCreated:Put` of `b1/f1.txt`. |
| EventsTable.RowOf | flask-pydantic-event-notifications/app/main-2.py:93-94 | The seven-column `events` row's six plain columns are the event. Its `data` column decodes to the same event. |
| EventsTable.HandleEvent | flask-pydantic-event-notifications/app/main-2.py:72-98 | Existing rows stay, and the table grows by at most one row per call. Every added row's columns are one of the events passed to `process_event`, and its `data` agrees with its columns. |
| EventsTable.AcceptedBatchStoresEveryRecord | flask-pydantic-event-notifications/app/main-2.py:74-95 | Take a body of well-formed records with every insert accepted. The response is "Event processed", the table gains one row per record, and row j's columns are record j's fields. |
| SingleEvent.ParseEvent | flask-pydantic-event-notifications/app/old-main.py:22-24 | `Event(**body)` succeeds if and only if `event_type` is a string and `data` is a dict, and then carries those values. A non-dict body raises TypeError. Any other failure is a ValidationError that names `event_type` exactly when it is not a string and `data` exactly when it is not a dict. |
| SingleEvent.ParseBodyOf | flask-pydantic-event-notifications/app/old-main.py:22-24 | A body built from an event parses back to that event. |
| SingleEvent.ExtraMembersIgnored | flask-pydantic-event-notifications/app/old-main.py:22-24 | A member other than `event_type` and `data`, at any position in the body, does not change the parse. |
| SingleEvent.HandleEvent | flask-pydantic-event-notifications/app/old-main.py:50-70 | "Event processed" is returned exactly when the body parses, and the one insert is attempted exactly then. The attempt appends `(event_type, data)` when accepted and leaves the table unchanged otherwise. A parse error escapes with nothing written. |
| SingleEvent.StoredRowHoldsPayloadOnly | flask-pydantic-event-notifications/app/old-main.py:59-66 | The stored row is the event type plus the `data` object alone. A refused insert still answers "Event processed". |

## Left out

- **Outside the ingest loop.**
  - Flask routing, `/hello`, `/minio-webhook`, its log file and `app/debug.py`.
  - The MinIO client and the configuration models: they hold constants that the ingest never reads.
  - The HTTP status mapping: an escaping exception is shown as `Raised`, not as a 500 response.
- Ingest.CallsIgnoreDatabase: holds only while `pg_conn.rollback()` succeeds. The model does not cover a rollback that itself raises (main.py:116, main-2.py:97, old-main.py:69), for example on a closed connection. Such an exception would escape `process_event` and end the batch. The verdict oracle has only commit and roll-back-cleanly.
- Table.Insert: models a failed INSERT as a clean rollback that leaves the table unchanged. It does not model a rollback that raises, for the reason above.
- MinioEvent.Validate: the contract states which fields a ValidationError names, but not their order. `BadFields` builds the list in declaration order.
- **The database.**
  - The PostgreSQL connection is an oracle `accept`, so why an insert fails is not modelled.
  - The single global connection, and concurrent requests sharing it, are not modelled.
  - Database-side constraints are not modelled.
- **Request bodies.**
  - `request.json` on a body that is not JSON, or has the wrong content type, is not modelled. The model starts from a decoded JSON value.
  - JSON floats are not modelled: `Json` has integers only.
- **Stored JSON.**
  - The `data` column is kept as a JSON value, not as text. Its key order and spacing are not modelled; only its content is.
  - Consistent with that, old-main.py's `json.dumps(event.data)` is kept as the `data` object itself.
- **Logging.** Logging with `print` is left out.
- **Import-time side effect.** old-main.py also inserts a simulated event when imported. That is a one-off side effect, not request handling.
- **Pydantic type coercion.** Coercion is not modelled. `MinioEvent.Validate` and `SingleEvent.ParseEvent` accept exactly JSON strings for `str` fields, integers for `int` and objects for `dict`. Pydantic may also coerce values: a numeric string to `int`, a boolean to `int`, or, in version 1, a number to `str`. Those bodies are rejected here.
- **Not in the code.** The code has no deduplication, no upsert, no configurable strictness and no per-record skipping, so the model has none of them.
