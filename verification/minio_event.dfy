/** The six-field event both batch handlers build from one notification
    record, and its JSON form (pydantic's `.json()`), which is what the
    `data` column stores. */
module MinioEvent {
  import opened Outcomes
  import opened Json

  datatype MinioEventData = MinioEventData(
    eventName: string,
    bucketName: string,
    objectKey: string,
    size: int,
    eTag: string,
    sequencer: string)

  const EventNamePath: seq<string> := ["eventName"]
  const BucketNamePath: seq<string> := ["s3", "bucket", "name"]
  const ObjectKeyPath: seq<string> := ["s3", "object", "key"]
  const SizePath: seq<string> := ["s3", "object", "size"]
  const ETagPath: seq<string> := ["s3", "object", "eTag"]
  const SequencerPath: seq<string> := ["s3", "object", "sequencer"]

  /** Reference condition for a record to yield an event: the three required
      strings are present, and each optional field is absent or of its type. */
  predicate Extractable(record: Json) {
    && StrAt(record, EventNamePath).Some?
    && StrAt(record, BucketNamePath).Some?
    && StrAt(record, ObjectKeyPath).Some?
    && OptIntAt(record, SizePath, 0).Some?
    && OptStrAt(record, ETagPath, "").Some?
    && OptStrAt(record, SequencerPath, "").Some?
  }

  /** The six keyword-argument values `handle_event` passes to the model
      constructor, before any type check. */
  datatype Arguments = Arguments(name: Json, bucketName: Json, objectKey: Json, size: Json, eTag: Json, sequencer: Json)

  /** The value found at `path`, or `default` when nothing is there. */
  function AtOr(record: Json, path: seq<string>, default: Json): Json {
    match At(record, path)
    case Some(v) => v
    case None => default
  }

  /** Evaluation of the keyword arguments, left to right: hard indexing for
      the three required fields, `.get` with a default for the optional ones.
      The first exception raised propagates. */
  function Locate(record: Json): (r: Result<Arguments>)
    ensures !record.JObject? ==> r == Failure(TypeError)
    ensures record.JObject? && At(record, EventNamePath).None? ==> r == Failure(KeyError("eventName"))
  {
    var name :- Index(record, "eventName");
    var s3 :- Index(record, "s3");
    var bucket :- Index(s3, "bucket");
    var bucketName :- Index(bucket, "name");
    var obj :- Index(s3, "object");
    var key :- Index(obj, "key");
    var size :- Get(obj, "size", JInt(0));
    var eTag :- Get(obj, "eTag", JString(""));
    var sequencer :- Get(obj, "sequencer", JString(""));
    Success(Arguments(name, bucketName, key, size, eTag, sequencer))
  }

  /** Argument evaluation raises only what a hard index raises: `.get` is
      applied only to the `object` member once `['key']` has been read from
      it, so that member is a dict and AttributeError cannot arise. */
  lemma LocateRaisesOnlyLookupErrors(record: Json)
    ensures Locate(record).Failure? ==> Locate(record).error.KeyError? || Locate(record).error == TypeError
  {
  }

  /** Argument evaluation succeeds exactly when the three required paths
      lead somewhere, and picks up the values found along them, with the
      `.get` defaults for the optional fields. */
  lemma LocateAgreesWithAt(record: Json)
    ensures Locate(record).Success?
            <==> At(record, EventNamePath).Some? && At(record, BucketNamePath).Some? && At(record, ObjectKeyPath).Some?
    ensures Locate(record).Success? ==> Locate(record).value == Arguments(
              AtOr(record, EventNamePath, JNull),
              AtOr(record, BucketNamePath, JNull),
              AtOr(record, ObjectKeyPath, JNull),
              AtOr(record, SizePath, JInt(0)),
              AtOr(record, ETagPath, JString("")),
              AtOr(record, SequencerPath, JString("")))
  {
    if Index(record, "s3").Success? {
      var s3 := Index(record, "s3").value;
      BucketAt(record, s3);
      ObjectAt(record, s3);
    } else {
      assert At(record, BucketNamePath).None?;
    }
  }

  /** The bucket name is reached through the `s3` member. */
  lemma BucketAt(record: Json, s3: Json)
    requires Index(record, "s3") == Success(s3)
    ensures At(record, BucketNamePath).Some?
            <==> Index(s3, "bucket").Success? && Index(Index(s3, "bucket").value, "name").Success?
    ensures At(record, BucketNamePath).Some? ==> At(record, BucketNamePath).value == Index(Index(s3, "bucket").value, "name").value
  {
    AtStep(record, "s3", ["bucket", "name"]);
    if Index(s3, "bucket").Success? {
      AtStep(s3, "bucket", ["name"]);
    }
  }

  /** The object's key and optional fields are reached through `s3`. */
  lemma ObjectAt(record: Json, s3: Json)
    requires Index(record, "s3") == Success(s3)
    ensures At(record, ObjectKeyPath).Some?
            <==> Index(s3, "object").Success? && Index(Index(s3, "object").value, "key").Success?
    ensures Index(s3, "object").Success? ==>
              var obj := Index(s3, "object").value;
              && (At(record, ObjectKeyPath).Some? ==> At(record, ObjectKeyPath).value == Index(obj, "key").value)
              && (obj.JObject? ==> Get(obj, "size", JInt(0)) == Success(AtOr(record, SizePath, JInt(0))))
              && (obj.JObject? ==> Get(obj, "eTag", JString("")) == Success(AtOr(record, ETagPath, JString(""))))
              && (obj.JObject? ==> Get(obj, "sequencer", JString("")) == Success(AtOr(record, SequencerPath, JString(""))))
  {
    AtStep(record, "s3", ["object", "key"]);
    AtStep(record, "s3", ["object", "size"]);
    AtStep(record, "s3", ["object", "eTag"]);
    AtStep(record, "s3", ["object", "sequencer"]);
    if Index(s3, "object").Success? {
      var obj := Index(s3, "object").value;
      AtStep(s3, "object", ["key"]);
      AtStep(s3, "object", ["size"]);
      AtStep(s3, "object", ["eTag"]);
      AtStep(s3, "object", ["sequencer"]);
    }
  }

  /** The pydantic constructor `MinioEventData(...)`: every field is checked,
      and a ValidationError names exactly the fields of the wrong type. A
      well-typed argument set yields the event whose JSON values they are. */
  function Validate(a: Arguments): (r: Result<MinioEventData>)
    ensures r.Success? <==> && a.name.JString? && a.bucketName.JString? && a.objectKey.JString?
                            && a.size.JInt? && a.eTag.JString? && a.sequencer.JString?
    ensures r.Success? ==> a == Arguments(JString(r.value.eventName), JString(r.value.bucketName), JString(r.value.objectKey),
                                          JInt(r.value.size), JString(r.value.eTag), JString(r.value.sequencer))
    ensures r.Failure? ==> r.error.ValidationError? && |r.error.fields| > 0
  {
    if a.name.JString? && a.bucketName.JString? && a.objectKey.JString?
       && a.size.JInt? && a.eTag.JString? && a.sequencer.JString?
    then
      Success(MinioEventData(a.name.s, a.bucketName.s, a.objectKey.s, a.size.n, a.eTag.s, a.sequencer.s))
    else
      Failure(ValidationError(BadFields(a)))
  }

  /** The names of the ill-typed arguments, in declaration order. */
  function BadFields(a: Arguments): seq<string> {
      Flag(!a.name.JString?, "event_name")
    + Flag(!a.bucketName.JString?, "bucket_name")
    + Flag(!a.objectKey.JString?, "object_key")
    + Flag(!a.size.JInt?, "size")
    + Flag(!a.eTag.JString?, "eTag")
    + Flag(!a.sequencer.JString?, "sequencer")
  }

  function Flag(bad: bool, name: string): seq<string> {
    if bad then [name] else []
  }

  /** A name is among six flagged names exactly when it is flagged at one of
      the places that carry it. */
  lemma InFlags(x: string, b0: bool, n0: string, b1: bool, n1: string, b2: bool, n2: string,
                b3: bool, n3: string, b4: bool, n4: string, b5: bool, n5: string)
    ensures x in Flag(b0, n0) + Flag(b1, n1) + Flag(b2, n2) + Flag(b3, n3) + Flag(b4, n4) + Flag(b5, n5)
            <==> (b0 && x == n0) || (b1 && x == n1) || (b2 && x == n2) || (b3 && x == n3) || (b4 && x == n4) || (b5 && x == n5)
  {
    var s1 := Flag(b0, n0) + Flag(b1, n1);
    assert x in s1 <==> (b0 && x == n0) || (b1 && x == n1);
    var s2 := s1 + Flag(b2, n2);
    assert x in s2 <==> x in s1 || (b2 && x == n2);
    var s3 := s2 + Flag(b3, n3);
    assert x in s3 <==> x in s2 || (b3 && x == n3);
    var s4 := s3 + Flag(b4, n4);
    assert x in s4 <==> x in s3 || (b4 && x == n4);
    assert x in s4 + Flag(b5, n5) <==> x in s4 || (b5 && x == n5);
  }

  /** A ValidationError names a field exactly when its argument has the
      wrong JSON type. */
  lemma ValidateNamesBadFields(a: Arguments)
    requires Validate(a).Failure?
    ensures "event_name" in Validate(a).error.fields <==> !a.name.JString?
    ensures "bucket_name" in Validate(a).error.fields <==> !a.bucketName.JString?
    ensures "object_key" in Validate(a).error.fields <==> !a.objectKey.JString?
    ensures "size" in Validate(a).error.fields <==> !a.size.JInt?
    ensures "eTag" in Validate(a).error.fields <==> !a.eTag.JString?
    ensures "sequencer" in Validate(a).error.fields <==> !a.sequencer.JString?
  {
    // The six names are pairwise distinct: they differ in length or in their first letter.
    assert |"event_name"| == 10 && |"bucket_name"| == 11 && |"object_key"| == 10;
    assert |"size"| == 4 && |"eTag"| == 4 && |"sequencer"| == 9;
    assert "event_name"[0] == 'e' && "object_key"[0] == 'o' && "size"[0] == 's' && "eTag"[0] == 'e';
    InFlags("event_name", !a.name.JString?, "event_name", !a.bucketName.JString?, "bucket_name", !a.objectKey.JString?, "object_key",
            !a.size.JInt?, "size", !a.eTag.JString?, "eTag", !a.sequencer.JString?, "sequencer");
    InFlags("bucket_name", !a.name.JString?, "event_name", !a.bucketName.JString?, "bucket_name", !a.objectKey.JString?, "object_key",
            !a.size.JInt?, "size", !a.eTag.JString?, "eTag", !a.sequencer.JString?, "sequencer");
    InFlags("object_key", !a.name.JString?, "event_name", !a.bucketName.JString?, "bucket_name", !a.objectKey.JString?, "object_key",
            !a.size.JInt?, "size", !a.eTag.JString?, "eTag", !a.sequencer.JString?, "sequencer");
    InFlags("size", !a.name.JString?, "event_name", !a.bucketName.JString?, "bucket_name", !a.objectKey.JString?, "object_key",
            !a.size.JInt?, "size", !a.eTag.JString?, "eTag", !a.sequencer.JString?, "sequencer");
    InFlags("eTag", !a.name.JString?, "event_name", !a.bucketName.JString?, "bucket_name", !a.objectKey.JString?, "object_key",
            !a.size.JInt?, "size", !a.eTag.JString?, "eTag", !a.sequencer.JString?, "sequencer");
    InFlags("sequencer", !a.name.JString?, "event_name", !a.bucketName.JString?, "bucket_name", !a.objectKey.JString?, "object_key",
            !a.size.JInt?, "size", !a.eTag.JString?, "eTag", !a.sequencer.JString?, "sequencer");
  }

  /** The body of the loop in `handle_event` up to the `process_event` call:
      evaluate the arguments, then construct the model. Any exception
      propagates out of the loop. */
  function Extract(record: Json): (r: Result<MinioEventData>)
    ensures !record.JObject? ==> r == Failure(TypeError)
    ensures record.JObject? && At(record, EventNamePath).None? ==> r == Failure(KeyError("eventName"))
    ensures r.Failure? && Locate(record).Success? ==> r.error.ValidationError? && |r.error.fields| > 0
    ensures r != Failure(AttributeError)
  {
    LocateRaisesOnlyLookupErrors(record);
    var a :- Locate(record);
    Validate(a)
  }

  /** Extraction against the reference view of a record: it succeeds exactly
      when the record is extractable, and then every field is the value at
      its path, the optional ones defaulting to 0, "" and "". */
  lemma ExtractMatchesReference(record: Json)
    ensures Extract(record).Success? <==> Extractable(record)
    ensures Extract(record).Success? ==>
              && Some(Extract(record).value.eventName) == StrAt(record, EventNamePath)
              && Some(Extract(record).value.bucketName) == StrAt(record, BucketNamePath)
              && Some(Extract(record).value.objectKey) == StrAt(record, ObjectKeyPath)
              && Some(Extract(record).value.size) == OptIntAt(record, SizePath, 0)
              && Some(Extract(record).value.eTag) == OptStrAt(record, ETagPath, "")
              && Some(Extract(record).value.sequencer) == OptStrAt(record, SequencerPath, "")
  {
    LocateAgreesWithAt(record);
  }

  /** The JSON document pydantic's `.json()` produces: the six fields under
      their declared names, in declaration order. */
  function ToJson(e: MinioEventData): (j: Json)
    ensures j.JObject? && |j.fields| == 6
    ensures forall i, k :: 0 <= i < k < |j.fields| ==> j.fields[i].0 != j.fields[k].0
  {
    JObject([
      ("event_name", JString(e.eventName)),
      ("bucket_name", JString(e.bucketName)),
      ("object_key", JString(e.objectKey)),
      ("size", JInt(e.size)),
      ("eTag", JString(e.eTag)),
      ("sequencer", JString(e.sequencer))])
  }

  /** Reads an event back from its JSON form. */
  function FromJson(j: Json): Option<MinioEventData> {
    match j
    case JObject(fs) =>
      (match (Lookup(fs, "event_name"), Lookup(fs, "bucket_name"), Lookup(fs, "object_key"),
              Lookup(fs, "size"), Lookup(fs, "eTag"), Lookup(fs, "sequencer"))
       case (Some(JString(n)), Some(JString(b)), Some(JString(k)), Some(JInt(z)), Some(JString(t)), Some(JString(q))) =>
         Some(MinioEventData(n, b, k, z, t, q))
       case _ => None)
    case _ => None
  }

  /** The stored JSON keeps all six fields: reading it back gives the event. */
  lemma ToJsonRoundTrip(e: MinioEventData)
    ensures FromJson(ToJson(e)) == Some(e)
  {
    ToJsonNames(e);
    ToJsonObject(e);
  }

  lemma ToJsonNames(e: MinioEventData)
    ensures Lookup(ToJson(e).fields, "event_name") == Some(JString(e.eventName))
    ensures Lookup(ToJson(e).fields, "bucket_name") == Some(JString(e.bucketName))
    ensures Lookup(ToJson(e).fields, "object_key") == Some(JString(e.objectKey))
  {
    var fs := ToJson(e).fields;
    LookupAt(fs, "event_name", 0);
    LookupAt(fs, "bucket_name", 1);
    LookupAt(fs, "object_key", 2);
  }

  lemma ToJsonObject(e: MinioEventData)
    ensures Lookup(ToJson(e).fields, "size") == Some(JInt(e.size))
    ensures Lookup(ToJson(e).fields, "eTag") == Some(JString(e.eTag))
    ensures Lookup(ToJson(e).fields, "sequencer") == Some(JString(e.sequencer))
  {
    var fs := ToJson(e).fields;
    LookupAt(fs, "size", 3);
    LookupAt(fs, "eTag", 4);
    LookupAt(fs, "sequencer", 5);
  }

  /** Distinct events are stored as distinct JSON documents. */
  lemma ToJsonInjective(e1: MinioEventData, e2: MinioEventData)
    requires ToJson(e1) == ToJson(e2)
    ensures e1 == e2
  {
    ToJsonRoundTrip(e1);
    ToJsonRoundTrip(e2);
  }

  /** A MinIO notification record carrying exactly the given event. */
  function RecordOf(e: MinioEventData): Json {
    JObject([
      ("eventName", JString(e.eventName)),
      ("s3", JObject([
        ("bucket", JObject([("name", JString(e.bucketName))])),
        ("object", JObject([
          ("key", JString(e.objectKey)),
          ("size", JInt(e.size)),
          ("eTag", JString(e.eTag)),
          ("sequencer", JString(e.sequencer))]))]))])
  }

  /** Extraction recovers every field of a well-formed record. */
  lemma ExtractRecordOf(e: MinioEventData)
    ensures Extract(RecordOf(e)) == Success(e)
  {
    var record := RecordOf(e);
    var s3 := record.fields[1].1;
    var bucket := s3.fields[0].1;
    var obj := s3.fields[1].1;
    LookupAt(record.fields, "eventName", 0);
    LookupAt(record.fields, "s3", 1);
    LookupAt(s3.fields, "bucket", 0);
    LookupAt(s3.fields, "object", 1);
    LookupAt(bucket.fields, "name", 0);
    LookupAt(obj.fields, "key", 0);
    LookupAt(obj.fields, "size", 1);
    LookupAt(obj.fields, "eTag", 2);
    LookupAt(obj.fields, "sequencer", 3);
  }

  /** A record whose object has none of the optional fields gets size 0 and
      empty eTag and sequencer, whatever else it carries. */
  lemma DefaultsWhenAbsent(record: Json)
    requires Extract(record).Success?
    requires At(record, SizePath).None? && At(record, ETagPath).None? && At(record, SequencerPath).None?
    ensures Extract(record).value.size == 0
    ensures Extract(record).value.eTag == ""
    ensures Extract(record).value.sequencer == ""
  {
    ExtractMatchesReference(record);
  }

  /** A record lacking any one of the three required fields never yields an
      event, whatever the other fields hold: the hard index that misses
      raises a KeyError or a TypeError before the model is constructed. */
  lemma RequiredFieldsAreRequired(record: Json)
    requires At(record, EventNamePath).None? || At(record, BucketNamePath).None? || At(record, ObjectKeyPath).None?
    ensures Extract(record).Failure?
    ensures Extract(record).error.KeyError? || Extract(record).error == TypeError
  {
    LocateAgreesWithAt(record);
    LocateRaisesOnlyLookupErrors(record);
  }

  /** The exception Python's `x[key]` raises when `key` cannot be read:
      KeyError naming the key on a dict without it, TypeError on anything
      that is not a dict. */
  function MissingStep(x: Json, key: string): Exception {
    if x.JObject? then KeyError(key) else TypeError
  }

  /** The required lookups run in the order `eventName`, `s3`, `bucket`,
      `name`, `object`, `key`; the first one that cannot be made decides the
      exception, which names that key when its parent is a dict and is a
      TypeError when the parent is not a dict. */
  lemma ExtractRaisesAtFirstGap(record: Json)
    ensures At(record, ["eventName"]).None?
            ==> Extract(record) == Failure(MissingStep(record, "eventName"))
    ensures At(record, ["eventName"]).Some? && At(record, ["s3"]).None?
            ==> Extract(record) == Failure(MissingStep(record, "s3"))
    ensures At(record, ["eventName"]).Some? && At(record, ["s3"]).Some? && At(record, ["s3", "bucket"]).None?
            ==> Extract(record) == Failure(MissingStep(At(record, ["s3"]).value, "bucket"))
    ensures At(record, ["eventName"]).Some? && At(record, ["s3", "bucket"]).Some? && At(record, BucketNamePath).None?
            ==> Extract(record) == Failure(MissingStep(At(record, ["s3", "bucket"]).value, "name"))
    ensures At(record, ["eventName"]).Some? && At(record, ["s3"]).Some? && At(record, BucketNamePath).Some? && At(record, ["s3", "object"]).None?
            ==> Extract(record) == Failure(MissingStep(At(record, ["s3"]).value, "object"))
    ensures At(record, ["eventName"]).Some? && At(record, BucketNamePath).Some? && At(record, ["s3", "object"]).Some? && At(record, ObjectKeyPath).None?
            ==> Extract(record) == Failure(MissingStep(At(record, ["s3", "object"]).value, "key"))
  {
    IndexAgreesWithAt(record, "eventName");
    IndexAgreesWithAt(record, "s3");
    if Index(record, "s3").Success? {
      var s3 := Index(record, "s3").value;
      AtStep(record, "s3", ["bucket"]);
      AtStep(record, "s3", ["object"]);
      BucketAt(record, s3);
      ObjectAt(record, s3);
      IndexAgreesWithAt(s3, "bucket");
      IndexAgreesWithAt(s3, "object");
    }
  }
}
