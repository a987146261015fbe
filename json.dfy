/**
 * JSON values as the collector sees them after `response.json()`, and a
 * mutable dictionary for the Python `dict` objects that are updated in place.
 */
module Json {
  import opened Wrappers
  import Text

  /** A decoded JSON document. Floating-point numbers are not modelled. */
  datatype Json =
    | JNull
    | JBool(b: bool)
    | JInt(i: int)
    | JStr(s: string)
    | JList(items: seq<Json>)
    | JObject(fields: map<string, Json>)

  /** A Python dictionary from string keys to JSON values, shared by reference. */
  type Record = map<string, Json>

  /**
   * Python's `str(v)` as an f-string renders it. Scalars are exact; lists and
   * dictionaries are rendered as fixed placeholders.
   */
  function Str(v: Json): (r: string)
    ensures v.JStr? ==> r == v.s
    ensures v.JInt? ==> Text.IsIntText(r) && Text.ParseInt(r) == v.i
    ensures v.JInt? ==> (v.i < 0 <==> r[0] == '-')
    ensures v.JBool? ==> r == if v.b then "True" else "False"
    ensures v.JNull? ==> r == "None"
  {
    match v
    case JNull => "None"
    case JBool(b) => if b then "True" else "False"
    case JInt(i) => Text.IntToStringRoundTrip(i); Text.IntToString(i)
    case JStr(s) => s
    case JList(_) => "[...]"
    case JObject(_) => "{...}"
  }

  /** A Python `Optional[str]` stored as a JSON value: `None` becomes null. */
  function OfOption(o: Option<string>): (r: Json)
    ensures r.JNull? <==> o.None?
    ensures o.Some? ==> r == JStr(o.value)
  {
    match o
    case None => JNull
    case Some(s) => JStr(s)
  }

  /** A Python `Optional[str]` inside an f-string: `None` renders as "None". */
  function OptStr(o: Option<string>): string {
    match o
    case None => "None"
    case Some(s) => s
  }

  /** A dictionary object that callers share and update in place. */
  class JsonDict {
    var entries: Record

    constructor (init: Record)
      ensures entries == init
    {
      entries := init;
    }
  }
}
