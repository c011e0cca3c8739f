/**
 * The event log standing in for a SIEM (`SIEMIntegration` in
 * modules/siem_integration.py): an append-only journal with an equality
 * filter query over the `type` and `severity` members of each payload.
 */
module SiemIntegration {
  import opened Domain
  import opened Ordering

  datatype SiemEvent = SiemEvent(timestamp: Timestamp, source: string, data: Json)

  datatype Log = Log(events: seq<SiemEvent>)

  /** The tag every journal entry carries. */
  const SourceTag := "CentinelaBot"

  datatype Receipt =
    | Sent(eventId: nat, message: string)
    | SendError(message: string)

  datatype Sending = Sending(log: Log, receipt: Receipt)

  /**
   * `send_event`. The entry is appended before the payload is logged; for a
   * payload that is not a dict, that logging raises, so the entry stays in
   * the journal and the caller gets the error status.
   */
  function SendEvent(log: Log, payload: Json, now: Timestamp): (s: Sending)
    ensures s.log.events == log.events + [SiemEvent(now, SourceTag, payload)]
    ensures payload.Object? ==>
      s.receipt == Sent(|s.log.events|, "Evento enviado correctamente")
    ensures payload.NonObject? ==> s.receipt == SendError(NoGetMessage(payload.typeName))
  {
    var events := log.events + [SiemEvent(now, SourceTag, payload)];
    match payload
    case Object(_) => Sending(Log(events), Sent(|events|, "Evento enviado correctamente"))
    case NonObject(t, _) => Sending(Log(events), SendError(NoGetMessage(t)))
  }

  /** Sent receipts number the entries 1, 2, 3, ... in the order they were sent. */
  lemma SentIdIsPosition(log: Log, payload: Json, now: Timestamp)
    requires payload.Object?
    ensures var s := SendEvent(log, payload, now);
      s.receipt.Sent? && s.log.events[s.receipt.eventId - 1].data == payload
  {
  }

  /** The entry's payload has member `key` equal to `value`. */
  predicate HasField(e: SiemEvent, key: string, value: string) {
    e.data.Object? && e.data.event.Get(key) == Some(value)
  }

  /**
   * `[e for e in events if e['data'].get(key) == value]`: raises on the first
   * entry whose payload is not a dict.
   */
  function FilterBy(events: seq<SiemEvent>, key: string, value: string)
    : (r: Result<seq<SiemEvent>>)
    ensures r.Ok? <==> forall i :: 0 <= i < |events| ==> events[i].data.Object?
    ensures r.Ok? ==> r.value == Select(events, FieldFilter(key, value))
    decreases |events|
  {
    if |events| == 0 then Ok([])
    else match events[0].data
      case NonObject(t, _) => Failed(NoGetMessage(t))
      case Object(ev) =>
        match FilterBy(events[1..], key, value)
        case Failed(m) => Failed(m)
        case Ok(rest) =>
          Ok((if ev.Get(key) == Some(value) then [events[0]] else []) + rest)
  }

  /** The entry passes the `type` filter, if one is given. */
  predicate TypeOk(filters: map<string, string>, e: SiemEvent) {
    "type" in filters ==> HasField(e, "type", filters["type"])
  }

  /** The entry passes the `severity` filter, if one is given. */
  predicate SeverityOk(filters: map<string, string>, e: SiemEvent) {
    "severity" in filters ==> HasField(e, "severity", filters["severity"])
  }

  /** The conjunction of the filters the query understands; other keys impose nothing. */
  predicate MatchesAll(filters: map<string, string>, e: SiemEvent) {
    TypeOk(filters, e) && SeverityOk(filters, e)
  }

  function FieldFilter(key: string, value: string): SiemEvent -> bool {
    e => HasField(e, key, value)
  }

  function TypeFilter(filters: map<string, string>): SiemEvent -> bool {
    e => TypeOk(filters, e)
  }

  function SeverityFilter(filters: map<string, string>): SiemEvent -> bool {
    e => SeverityOk(filters, e)
  }

  /** The whole query as one predicate. */
  function QueryFilter(filters: map<string, string>): SiemEvent -> bool {
    e => MatchesAll(filters, e)
  }

  predicate AllObjects(events: seq<SiemEvent>) {
    forall i :: 0 <= i < |events| ==> events[i].data.Object?
  }

  /** Some entry of the log has a payload that is not a dict. */
  predicate HasNonObject(log: Log) {
    exists i :: 0 <= i < |log.events| && log.events[i].data.NonObject?
  }

  /** `filters` asks for at least one of the understood keys. */
  predicate Filtering(filters: map<string, string>) {
    "type" in filters || "severity" in filters
  }

  /** One stage of the query: filter on `key` when the filters name it. */
  function Stage(events: seq<SiemEvent>, filters: map<string, string>, key: string)
    : (r: Result<seq<SiemEvent>>)
    requires key == "type" || key == "severity"
    ensures r.Ok? <==> key !in filters || AllObjects(events)
    ensures r.Ok? && key == "type" ==> r.value == Select(events, TypeFilter(filters))
    ensures r.Ok? && key == "severity" ==> r.value == Select(events, SeverityFilter(filters))
  {
    if key in filters then
      var r := FilterBy(events, key, filters[key]);
      if key == "type" then
        SelectExt(events, FieldFilter(key, filters[key]), TypeFilter(filters));
        r
      else
        SelectExt(events, FieldFilter(key, filters[key]), SeverityFilter(filters));
        r
    else if key == "type" then
      SelectAll(events, TypeFilter(filters));
      Ok(events)
    else
      SelectAll(events, SeverityFilter(filters));
      Ok(events)
  }

  /**
   * `query_events(filters)`. No filters (or `None`, modelled as the empty
   * map) returns the whole journal; otherwise the `type` filter runs first,
   * then the `severity` filter on what is left.
   */
  function QueryEvents(log: Log, filters: map<string, string>): (r: Result<seq<SiemEvent>>)
    ensures |filters| == 0 ==> r == Ok(log.events)
    ensures r.Failed? <==> Filtering(filters) && HasNonObject(log)
    ensures r.Ok? ==> r.value == Select(log.events, QueryFilter(filters))
    ensures r.Ok? ==> forall e :: e in r.value ==> e in log.events && MatchesAll(filters, e)
  {
    var all := log.events;
    assert HasNonObject(log) <==> !AllObjects(all);
    if |filters| == 0 then
      SelectAll(all, QueryFilter(filters));
      Ok(all)
    else
      match Stage(all, filters, "type")
      case Failed(m) => Failed(m)
      case Ok(filtered) =>
        SelectObjects(all, TypeFilter(filters));
        SelectSelect(all, TypeFilter(filters), SeverityFilter(filters));
        SelectExt(all, Both(TypeFilter(filters), SeverityFilter(filters)), QueryFilter(filters));
        Stage(filtered, filters, "severity")
  }

  lemma SelectObjects(events: seq<SiemEvent>, p: SiemEvent -> bool)
    ensures AllObjects(events) ==> AllObjects(Select(events, p))
  {
    var r := Select(events, p);
    if AllObjects(events) {
      forall i | 0 <= i < |r| ensures r[i].data.Object? {
        assert r[i] in events;
      }
    }
  }

  /** The filters restricted to the keys the query understands. */
  function Understood(filters: map<string, string>): (u: map<string, string>)
    ensures forall k :: k in u <==> k in filters && (k == "type" || k == "severity")
    ensures forall k :: k in u ==> u[k] == filters[k]
  {
    map k | k in filters && (k == "type" || k == "severity") :: filters[k]
  }

  /** Filter keys other than `type` and `severity` change nothing. */
  lemma QueryIgnoresUnknownKeys(log: Log, filters: map<string, string>)
    ensures QueryEvents(log, filters) == QueryEvents(log, Understood(filters))
  {
    var u := Understood(filters);
    if |u| == 0 {
      assert !Filtering(filters);
      SelectAll(log.events, QueryFilter(filters));
    } else {
      assert |filters| != 0 by {
        var k :| k in u;
        assert k in filters;
      }
      assert Stage(log.events, filters, "type") == Stage(log.events, u, "type");
      match Stage(log.events, filters, "type")
      case Failed(_) =>
      case Ok(filtered) =>
        assert Stage(filtered, filters, "severity") == Stage(filtered, u, "severity");
    }
  }

  /** A query result keeps the journal's order: it is a subsequence of the log. */
  lemma QueryPreservesOrder(log: Log, filters: map<string, string>)
    requires QueryEvents(log, filters).Ok?
    ensures IsSubsequence(QueryEvents(log, filters).value, log.events)
  {
    SelectIsSubsequence(log.events, QueryFilter(filters));
  }

  /** A `type` query on a journal of dicts returns exactly the entries of that type, in order. */
  lemma TypeQuery(log: Log, t: string)
    requires !HasNonObject(log)
    ensures var r := QueryEvents(log, map["type" := t]);
      && r.Ok?
      && (forall e :: e in r.value ==> e.data.event.Get("type") == Some(t))
      && (forall e :: e in log.events && e.data.event.Get("type") == Some(t) ==> e in r.value)
  {
    var r := QueryEvents(log, map["type" := t]);
    forall e | e in log.events && e.data.event.Get("type") == Some(t) ensures e in r.value {
      assert QueryFilter(map["type" := t])(e);
    }
  }
}
