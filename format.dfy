/**
 * The aggregator: `Enphase._format_data`, which merges the summary, events and
 * alarms payloads into the record forwarded to the local sink. Any Python
 * exception the formatter would raise (a missing key, a payload of the wrong
 * shape) is `None` here.
 */
module Format {
  import opened Wrappers
  import opened Json
  import Text

  /** The separator of the rendered alarm and event lists. */
  const Separator := " | "

  /** The summary fields copied verbatim, in the source's order. */
  const SummaryKeys: seq<string> := [
    "system_id", "current_power", "energy_lifetime", "energy_today",
    "last_interval_end_at", "last_report_at", "modules", "operational_at",
    "size_w", "status", "summary_date"
  ]

  /** The keys of a formatted record. */
  const RecordKeys: set<string> := {
    "system_id", "current_power", "energy_lifetime", "energy_today",
    "last_interval_end_at", "last_report_at", "modules", "operational_at",
    "size_w", "status", "summary_date", "events", "alarms"
  }

  /**
   * What `for item in payload.get(key, [])` iterates over. A payload that is
   * not a dictionary has no `get`; an absent key gives the empty list; a null
   * or scalar value cannot be iterated; a non-empty string or dictionary yields
   * string items, on which the item lookup raises, so only their empty forms
   * iterate without error.
   */
  function ItemsOf(payload: Json, key: string): (r: Option<seq<Json>>)
    ensures payload.JObject? && key !in payload.fields ==> r == Some([])
    ensures payload.JObject? && key in payload.fields && payload.fields[key].JList? ==>
              r == Some(payload.fields[key].items)
    ensures !payload.JObject? ==> r.None?
    ensures payload.JObject? && key in payload.fields && !payload.fields[key].JList? ==>
              (r.Some? <==> payload.fields[key] == JStr("") || payload.fields[key] == JObject(map[]))
              && (r.Some? ==> r == Some([]))
  {
    match payload
    case JObject(fields) =>
      if key !in fields then Some([])
      else (
        match fields[key]
        case JList(items) => Some(items)
        case JStr(s) => if s == "" then Some([]) else None
        case JObject(m) => if m == map[] then Some([]) else None
        case _ => None)
    case _ => None
  }

  /** `item[key]` on an item that must be a dictionary holding `key`. */
  function Lookup(item: Json, key: string): Option<Json> {
    if item.JObject? && key in item.fields then Some(item.fields[key]) else None
  }

  /** `f"id: {a['id']}, cleared: {str(a['cleared']).lower()}, severity: {a['severity']}"`. */
  function AlarmLine(item: Json): (r: Option<string>)
    ensures r.Some? <==> item.JObject? && "id" in item.fields && "cleared" in item.fields && "severity" in item.fields
    ensures r.Some? ==>
              r.value == "id: " + Str(item.fields["id"]) + ", cleared: " + Text.Lower(Str(item.fields["cleared"]))
                         + ", severity: " + Str(item.fields["severity"])
  {
    match (Lookup(item, "id"), Lookup(item, "cleared"), Lookup(item, "severity"))
    case (Some(id), Some(cleared), Some(severity)) =>
      Some("id: " + Str(id) + ", cleared: " + Text.Lower(Str(cleared)) + ", severity: " + Str(severity))
    case _ => None
  }

  /** `f"status: {e['status']}, event_type_id: {e['event_type_id']}"`. */
  function EventLine(item: Json): (r: Option<string>)
    ensures r.Some? <==> item.JObject? && "status" in item.fields && "event_type_id" in item.fields
    ensures r.Some? ==>
              r.value == "status: " + Str(item.fields["status"]) + ", event_type_id: " + Str(item.fields["event_type_id"])
  {
    match (Lookup(item, "status"), Lookup(item, "event_type_id"))
    case (Some(status), Some(id)) => Some("status: " + Str(status) + ", event_type_id: " + Str(id))
    case _ => None
  }

  /**
   * Renders each item in order with `line`; fails as soon as one item fails,
   * as the generator inside `join` does.
   */
  function RenderAll(items: seq<Json>, line: Json -> Option<string>): (r: Option<seq<string>>)
    ensures r.Some? <==> forall i :: 0 <= i < |items| ==> line(items[i]).Some?
    ensures r.Some? ==> |r.value| == |items|
    ensures r.Some? ==> forall i :: 0 <= i < |items| ==> r.value[i] == line(items[i]).value
    decreases |items|
  {
    if |items| == 0 then Some([])
    else
      match (line(items[0]), RenderAll(items[1..], line))
      case (Some(first), Some(rest)) =>
        assert forall i :: 1 <= i < |items| ==> items[i] == items[1..][i - 1];
        Some([first] + rest)
      case (None, _) => None
      case (_, None) =>
        assert forall i :: 0 <= i < |items| - 1 ==> items[1..][i] == items[i + 1];
        None
  }

  /** The `" | "` join of the rendered items of `payload[key]`, if every item renders. */
  function Joined(payload: Json, key: string, line: Json -> Option<string>): (r: Option<string>)
    ensures r.Some? <==> ItemsOf(payload, key).Some? && RenderAll(ItemsOf(payload, key).value, line).Some?
    ensures r.Some? ==> r.value == Text.Join(Separator, RenderAll(ItemsOf(payload, key).value, line).value)
  {
    match ItemsOf(payload, key)
    case None => None
    case Some(items) =>
      match RenderAll(items, line)
      case None => None
      case Some(lines) => Some(Text.Join(Separator, lines))
  }

  predicate HasSummaryFields(summary: Json) {
    summary.JObject? && forall k :: k in SummaryKeys ==> k in summary.fields
  }

  /** `Enphase._format_data(summary_data, event_data, alarm_data)`. */
  function FormatData(summary: Json, events: Json, alarms: Json): (r: Option<Record>)
    ensures r.Some? <==>
              HasSummaryFields(summary)
              && Joined(events, "events", EventLine).Some?
              && Joined(alarms, "alarms", AlarmLine).Some?
    ensures r.Some? ==> r.value.Keys == RecordKeys
    ensures r.Some? ==> forall k :: k in SummaryKeys ==> r.value[k] == summary.fields[k]
    ensures r.Some? ==> r.value["events"] == JStr(Joined(events, "events", EventLine).value)
    ensures r.Some? ==> r.value["alarms"] == JStr(Joined(alarms, "alarms", AlarmLine).value)
  {
    var alarmText := Joined(alarms, "alarms", AlarmLine);
    var eventText := Joined(events, "events", EventLine);
    if alarmText.Some? && eventText.Some? && HasSummaryFields(summary) then
      var copied := map k | k in SummaryKeys :: summary.fields[k];
      SummaryKeysExcludeLists();
      Some(copied["events" := JStr(eventText.value)]["alarms" := JStr(alarmText.value)])
    else
      None
  }

  /** The copied summary fields never collide with the two rendered lists. */
  lemma SummaryKeysExcludeLists()
    ensures "events" !in SummaryKeys && "alarms" !in SummaryKeys
  {
  }

  /** A formatted record has exactly thirteen keys. */
  lemma RecordHasThirteenKeys()
    ensures |RecordKeys| == 13
  {
  }

  /**
   * An absent or empty alarm or event list renders as the empty string, and a
   * list of n items renders as the n lines, in input order, joined so that the
   * result has exactly n - 1 separators when no line contains a bar.
   */
  lemma {:induction false} JoinedLayout(payload: Json, key: string, line: Json -> Option<string>)
    requires payload.JObject?
    ensures key !in payload.fields ==> Joined(payload, key, line) == Some("")
    ensures key in payload.fields && payload.fields[key] == JList([]) ==> Joined(payload, key, line) == Some("")
    ensures Joined(payload, key, line).Some? && key in payload.fields && payload.fields[key].JList? ==>
              var items := payload.fields[key].items;
              var lines := RenderAll(items, line).value;
              && |lines| == |items|
              && (forall i :: 0 <= i < |items| ==> lines[i] == line(items[i]).value)
              && Joined(payload, key, line) == Some(Text.Join(Separator, lines))
              && ((forall i :: 0 <= i < |lines| ==> Text.Count('|', lines[i]) == 0) ==>
                    Text.Count('|', Joined(payload, key, line).value) == if |items| == 0 then 0 else |items| - 1)
  {
    if key in payload.fields && payload.fields[key].JList? && Joined(payload, key, line).Some? {
      var lines := RenderAll(payload.fields[key].items, line).value;
      if forall i :: 0 <= i < |lines| ==> Text.Count('|', lines[i]) == 0 {
        Text.BarJoinSeparators(lines);
      }
    }
  }

  /** `str(True).lower()` and `str(False).lower()` are "true" and "false". */
  lemma ClearedRendersLowercase(b: bool)
    ensures Text.Lower(Str(JBool(b))) == if b then "true" else "false"
  {
  }
}
