/** JSON values as the Flask handlers see them after `request.json`, and the
    Python operations the handlers apply to them: indexing `x[k]`,
    `x.get(k, d)` and iteration `for r in x`. */
module Json {
  import opened Outcomes

  /** A decoded JSON document. An object keeps its members in document order;
      looking a key up agrees with the dict the JSON decoder builds (see
      Lookup), iterating it visits every occurrence (see Iterate). Numbers
      are integers. */
  datatype Json =
    | JNull
    | JBool(b: bool)
    | JInt(n: int)
    | JString(s: string)
    | JArray(items: seq<Json>)
    | JObject(fields: seq<(string, Json)>)

  /** The value bound to `key` in an object's members. When a key is repeated
      the last occurrence wins, as in the dict the JSON decoder builds. */
  function Lookup(fields: seq<(string, Json)>, key: string): Option<Json>
    decreases |fields|
  {
    if fields == [] then None
    else match Lookup(fields[1..], key)
      case Some(v) => Some(v)
      case None => if fields[0].0 == key then Some(fields[0].1) else None
  }

  /** A key is missing exactly when no member carries it. */
  lemma {:induction false} LookupNone(fields: seq<(string, Json)>, key: string)
    ensures Lookup(fields, key).None? <==> forall i :: 0 <= i < |fields| ==> fields[i].0 != key
    decreases |fields|
  {
    if fields != [] {
      LookupNone(fields[1..], key);
      assert forall i :: 1 <= i < |fields| ==> fields[1..][i - 1] == fields[i];
    }
  }

  /** A key bound at position `i` and never rebound later is looked up to
      that position's value. */
  lemma {:induction false} LookupAt(fields: seq<(string, Json)>, key: string, i: nat)
    requires i < |fields| && fields[i].0 == key
    requires forall j :: i < j < |fields| ==> fields[j].0 != key
    ensures Lookup(fields, key) == Some(fields[i].1)
    decreases |fields|
  {
    if i == 0 {
      assert forall j :: 0 <= j < |fields[1..]| ==> fields[1..][j] == fields[j + 1];
      LookupNone(fields[1..], key);
    } else {
      LookupAt(fields[1..], key, i - 1);
    }
  }

  /** Python `x[key]` with a string key: a dict yields the bound value or
      raises KeyError; every other JSON value raises TypeError. */
  function Index(x: Json, key: string): Result<Json> {
    match x
    case JObject(fields) =>
      (match Lookup(fields, key)
       case Some(v) => Success(v)
       case None => Failure(KeyError(key)))
    case _ => Failure(TypeError)
  }

  /** Python `x.get(key, default)`: only dicts have `get`. */
  function Get(x: Json, key: string, default: Json): Result<Json> {
    match x
    case JObject(fields) =>
      (match Lookup(fields, key)
       case Some(v) => Success(v)
       case None => Success(default))
    case _ => Failure(AttributeError)
  }

  /** What `for r in x` visits: a list's items, a dict's keys, a string's
      one-character strings; numbers, booleans and None are not iterable.
      A key repeated in the document is visited once per occurrence, where
      Python's dict holds it once; the handlers cannot tell, since the first
      key visited already fails extraction with a TypeError. */
  function Iterate(x: Json): (r: Result<seq<Json>>)
    ensures r.Success? <==> x.JArray? || x.JObject? || x.JString?
    ensures r.Failure? ==> r.error == TypeError
    ensures x.JArray? ==> r.value == x.items
    ensures x.JObject? ==> |r.value| == |x.fields|
                           && forall i :: 0 <= i < |x.fields| ==> r.value[i] == JString(x.fields[i].0)
    ensures x.JString? ==> |r.value| == |x.s| && forall i :: 0 <= i < |x.s| ==> r.value[i] == JString([x.s[i]])
  {
    match x
    case JArray(items) => Success(items)
    case JObject(fields) => Success(seq(|fields|, i requires 0 <= i < |fields| => JString(fields[i].0)))
    case JString(s) => Success(seq(|s|, i requires 0 <= i < |s| => JString([s[i]])))
    case _ => Failure(TypeError)
  }

  /** Reference view of nested access: the value reached by following `path`
      through nested objects, or None when some step is missing or is not an
      object. */
  function At(x: Json, path: seq<string>): Option<Json>
    decreases |path|
  {
    if path == [] then Some(x)
    else match x
      case JObject(fields) =>
        (match Lookup(fields, path[0])
         case Some(child) => At(child, path[1..])
         case None => None)
      case _ => None
  }

  /** The string at `path`, if there is one. */
  function StrAt(x: Json, path: seq<string>): Option<string> {
    match At(x, path)
    case Some(JString(s)) => Some(s)
    case _ => None
  }

  /** A field that is optional in the record: absent means `default`,
      present means it must be a string. */
  function OptStrAt(x: Json, path: seq<string>, default: string): Option<string> {
    match At(x, path)
    case None => Some(default)
    case Some(JString(s)) => Some(s)
    case Some(_) => None
  }

  /** As OptStrAt, for an integer field. */
  function OptIntAt(x: Json, path: seq<string>, default: int): Option<int> {
    match At(x, path)
    case None => Some(default)
    case Some(JInt(n)) => Some(n)
    case Some(_) => None
  }

  /** Indexing succeeds exactly where the reference view finds a value,
      and yields that value. */
  lemma IndexAgreesWithAt(x: Json, key: string)
    ensures Index(x, key).Success? <==> At(x, [key]).Some?
    ensures Index(x, key).Success? ==> At(x, [key]) == Some(Index(x, key).value)
    ensures Index(x, key).Failure? ==> Index(x, key).error == (if x.JObject? then KeyError(key) else TypeError)
  {
  }

  /** `.get` on a dict yields the value the reference view finds, or the
      default when there is none; on anything else it raises AttributeError. */
  lemma GetAgreesWithAt(x: Json, key: string, default: Json)
    ensures x.JObject? ==> Get(x, key, default) == Success(if At(x, [key]).Some? then At(x, [key]).value else default)
    ensures !x.JObject? ==> Get(x, key, default) == Failure(AttributeError)
  {
    if x.JObject? {
      assert [key][1..] == [];
    }
  }

  /** Following a path one step at a time is following the whole path. */
  lemma {:induction false} AtStep(x: Json, key: string, rest: seq<string>)
    requires Index(x, key).Success?
    ensures At(x, [key] + rest) == At(Index(x, key).value, rest)
  {
    assert ([key] + rest)[1..] == rest;
  }
}
