/** `app/old-main.py`: the single-event predecessor. The whole body is one
    `Event(event_type, data)`, inserted as `(event_type, json(data))` into
    `events`; an insert failure is rolled back and swallowed. */
module SingleEvent {
  import opened Outcomes
  import opened Json
  import opened Table
  import opened Ingest

  /** The pydantic model `Event`: a string and a dict. */
  datatype Event = Event(eventType: string, data: seq<(string, Json)>)

  /** A row of `events`: the type and the JSON of `data` only. */
  datatype EventRow = EventRow(eventType: string, data: Json)

  /** One request: the response, whether `process_event` ran its INSERT,
      and the table afterwards. */
  datatype SingleRun = SingleRun(response: Response, attempted: bool, table: seq<EventRow>)

  /** `Event(**event_data)`: unpacking needs a dict, which is TypeError
      otherwise; the model then checks both fields and ignores any others,
      raising a ValidationError naming each missing or mistyped one. */
  function ParseEvent(body: Json): (r: Result<Event>)
    ensures r.Success? <==> StrAt(body, ["event_type"]).Some? && At(body, ["data"]).Some? && At(body, ["data"]).value.JObject?
    ensures r.Success? ==> Some(r.value.eventType) == StrAt(body, ["event_type"]) && At(body, ["data"]) == Some(JObject(r.value.data))
    ensures !body.JObject? ==> r == Failure(TypeError)
    ensures body.JObject? && r.Failure? ==> r.error.ValidationError? && |r.error.fields| > 0
    ensures body.JObject? && r.Failure? ==> ("event_type" in r.error.fields <==> StrAt(body, ["event_type"]).None?)
    ensures body.JObject? && r.Failure? ==> ("data" in r.error.fields <==> !(At(body, ["data"]).Some? && At(body, ["data"]).value.JObject?))
  {
    match body
    case JObject(fields) =>
      var eventType := Lookup(fields, "event_type");
      var data := Lookup(fields, "data");
      var typeOk := eventType.Some? && eventType.value.JString?;
      var dataOk := data.Some? && data.value.JObject?;
      if typeOk && dataOk then Success(Event(eventType.value.s, data.value.fields))
      else Failure(ValidationError((if typeOk then [] else ["event_type"]) + (if dataOk then [] else ["data"])))
    case _ => Failure(TypeError)
  }

  /** The body a client would send for an event. */
  function BodyOf(ev: Event): Json {
    JObject([("event_type", JString(ev.eventType)), ("data", JObject(ev.data))])
  }

  /** Parsing recovers the event a body was built from. */
  lemma ParseBodyOf(ev: Event)
    ensures ParseEvent(BodyOf(ev)) == Success(ev)
  {
    LookupAt(BodyOf(ev).fields, "event_type", 0);
    LookupAt(BodyOf(ev).fields, "data", 1);
  }

  /** A member under another name, wherever it sits, is never looked up by
      that key. */
  lemma {:induction false} LookupSkipsOtherKey(pre: seq<(string, Json)>, extra: string, v: Json, post: seq<(string, Json)>, key: string)
    requires extra != key
    ensures Lookup(pre + [(extra, v)] + post, key) == Lookup(pre + post, key)
    decreases |pre|
  {
    if pre == [] {
      assert pre + [(extra, v)] + post == [(extra, v)] + post;
      assert ([(extra, v)] + post)[1..] == post;
      assert pre + post == post;
    } else {
      assert (pre + [(extra, v)] + post)[1..] == pre[1..] + [(extra, v)] + post;
      assert (pre + post)[1..] == pre[1..] + post;
      LookupSkipsOtherKey(pre[1..], extra, v, post, key);
    }
  }

  /** Members other than `event_type` and `data` do not affect parsing,
      wherever in the body they appear. */
  lemma ExtraMembersIgnored(pre: seq<(string, Json)>, extra: string, v: Json, post: seq<(string, Json)>)
    requires extra != "event_type" && extra != "data"
    ensures ParseEvent(JObject(pre + [(extra, v)] + post)) == ParseEvent(JObject(pre + post))
  {
    LookupSkipsOtherKey(pre, extra, v, post, "event_type");
    LookupSkipsOtherKey(pre, extra, v, post, "data");
  }

  /** `handle_event` and `process_event`: a body that parses gets exactly one
      INSERT attempt, which appends the row `(event_type, json(data))` when
      the database accepts it and leaves the table as it was otherwise. The
      response is "Event processed" whether the insert succeeded or not; a
      body that does not parse escapes as an exception with nothing written. */
  function HandleEvent(body: Json, accepted: bool, table: seq<EventRow>): (run: SingleRun)
    ensures run.response == EventProcessed <==> ParseEvent(body).Success?
    ensures run.response.Raised? ==> run.response.error == ParseEvent(body).error
    ensures run.attempted <==> run.response == EventProcessed
    ensures run.attempted && accepted ==>
              run.table == table + [EventRow(StrAt(body, ["event_type"]).value, At(body, ["data"]).value)]
    ensures !(run.attempted && accepted) ==> run.table == table
  {
    match ParseEvent(body)
    case Failure(err) => SingleRun(Raised(err), false, table)
    case Success(ev) => SingleRun(EventProcessed, true, Insert(table, EventRow(ev.eventType, JObject(ev.data)), accepted))
  }

  /** The stored row keeps only the payload: the event's type goes in its own
      column and the `data` column is the body's `data` object, nothing more. */
  lemma StoredRowHoldsPayloadOnly(ev: Event, table: seq<EventRow>)
    ensures HandleEvent(BodyOf(ev), true, table).table == table + [EventRow(ev.eventType, JObject(ev.data))]
    ensures HandleEvent(BodyOf(ev), false, table).table == table
    ensures HandleEvent(BodyOf(ev), false, table).response == EventProcessed
  {
    ParseBodyOf(ev);
  }
}
