# CentinelaBot event classification and alert escalation, in Dafny

This project models the core of CentinelaBot, a small security-monitoring web
backend. Four in-memory components sit behind its HTTP endpoints:

- the **severity classifier** (`AIAnalyzer`): it asks a remote language model for an
  assessment and takes the severity from the reply with an ordered
  case-insensitive keyword search (critical, then high, then medium, else
  low). When the model is unavailable, it uses a fixed table from event type
  to severity.
- the **alert store** (`AlertManager`): two seeded sample alerts; `create_alert`
  appends `ALT-%03d` alerts; `get_active_alerts` lists active alerts newest
  first.
- the **threat store** (`ThreatDetector`): five seeded sample threats; `detect_threat`
  searches the serialised event for the first of five keywords;
  `get_recent_threats` lists the newest threats.
- the **event log** (`SIEMIntegration`): an append-only journal with a
  conjunctive equality query on `type` and `severity`.

The `POST /api/analyze` handler ties them together. It refuses a falsy
body with 400, classifies the event, and turns a high or critical result
into exactly one alert.

Every store operation is a pure function from the old store to the new
store. Clock readings, random draws, the model's reply and Python's
`str(event)` text are parameters. Files:

| file | contents |
|---|---|
| `domain.dfy` | severities, statuses, timestamps, JSON events, `Option`/`Result` |
| `text.dfy` | ASCII case folding, Python's `in` on strings, decimal formatting and parsing |
| `ordering.dfy` | list filtering, a stable descending sort, Python's `[:limit]` |
| `ai_analyzer.dfy` | the classifier |
| `alert_manager.dfy` | the alert store |
| `threat_detector.dfy` | the threat store |
| `siem_integration.dfy` | the event log |
| `app.dfy` | start-up state and the `analyze_event` handler |

Modelling choices:

- **Timestamps** are integers. The source sorts on ISO-8601 strings of one
  format, and those order like the instants they denote.
- **JSON values**: an object is a map from member names to strings. Any other
  value is represented only by its Python type name and its truthiness. A
  JSON `null` body is `NonObject("NoneType", false)`. `get_json()` raising
  is `Unreadable`: a malformed body, an empty body, and (depending on the
  Flask version) a request without a JSON content type.
- **The model's reply** is `Option<string>`. `None` stands for any exception
  from the call, and also for a reply with no content, because
  `_extract_severity` then raises inside the same `try`.
- **Key configuration**: the analyzer counts as enabled whenever
  `OPENAI_API_KEY` is set. It builds a client only for a non-empty key, so an
  empty key always falls back to the table, after a caught exception.
- **Non-dict inputs**: `.get` on a non-dict payload raises `AttributeError`.
  - In `analyze_event` this surfaces as a 500.
  - In `send_event` the entry has already been appended, so the journal keeps it while the caller gets `status: error`.
  - In `query_events` with a `type` or `severity` filter, the exception propagates to the caller.
  - In `detect_threat` it would raise only after a pattern matched, before the append; `DetectThreat` takes an `Event`, so that case is left out (see below).


## Model

| member | source | states |
|---|---|---|
| Text.ContainsIffOccurs | modules/ai_analyzer.py:86-90 | Python's `pat in text` (the recursive `Contains`) holds exactly when `pat` occurs at some offset of `text` |
| Text.PadDecimalFacts | modules/alert_manager.py:61 | `%03d` formatting yields only digits, at least 3 of them, zero-padded on the left, ending in the plain decimal, and parsing back to the number |
| AiAnalyzer.ExtractSeverity | modules/ai_analyzer.py:83-93 | the result is the most severe of critical/high/medium whose label occurs in the lower-cased text, else low; critical iff "critical" occurs; high iff "high" occurs and "critical" does not; medium iff "medium" occurs and neither other does; low iff none occurs |
| AiAnalyzer.ExtractSeverityIgnoresCase | modules/ai_analyzer.py:85 | a text, its lower-cased and its upper-cased form give the same severity |
| AiAnalyzer.CriticalDominates | modules/ai_analyzer.py:85-87 | a text mentioning "critical" in any case stays critical whatever is prepended or appended |
| AiAnalyzer.FallbackSeverity | modules/ai_analyzer.py:97-105 | malware→high, intrusion→critical, anomaly→medium, scan→low, any type outside the table→medium |
| AiAnalyzer.FallbackEscalatesOnlyIntrusionAndMalware | modules/ai_analyzer.py:97-105 | without the AI, exactly the intrusion and malware types reach the high/critical threshold |
| AiAnalyzer.FallbackAnalysis | modules/ai_analyzer.py:95-113 | offline result is not AI-powered, carries the event's `id` or "unknown", the table severity of its `type` (medium when absent), the templated text and the given time |
| AiAnalyzer.AnalyzeSecurityEvent | modules/ai_analyzer.py:18-66 | disabled, client-less or failed calls give exactly the fallback result; the result is AI-powered iff a client exists and the call answered, and then its severity is the keyword extraction of the reply and its text is the reply |
| AiAnalyzer.AnalysisSeverityOrigin | modules/ai_analyzer.py:38-66 | every analysis' severity is either the reply's extracted severity (AI-powered) or the table severity of the event type |
| AlertManager.AlertIdNumber | modules/alert_manager.py:61 | the id made from count n is at least 7 characters and its digits after "ALT-" parse back to n |
| AlertManager.AlertIdInjective | modules/alert_manager.py:61 | different counts give different alert ids |
| AlertManager.Init | modules/alert_manager.py:20-56 | start-up holds exactly two alerts, the first high and active, the second medium and investigating, numbered ALT-001 and ALT-002 |
| AlertManager.NewAlert | modules/alert_manager.py:60-68 | the built alert has id ALT-(count+1), status active, the request's severity or "medium", title "Amenaza " + upper-cased severity + " detectada", the analysis text or "Sin descripción", and the request's event id |
| AlertManager.CreateAlert | modules/alert_manager.py:58-77 | the list grows by exactly the returned alert at the end, earlier alerts unchanged; the alert carries the next id, status active, the request's severity (or "medium"), analysis text (or "Sin descripción") and event id; an e-mail is attempted iff e-mail is configured and the severity is high or critical, and that outcome does not affect the alert or the list |
| AlertManager.CreatePreservesNumbering | modules/alert_manager.py:58-70 | if the i-th alert is numbered i+1 before creation, that still holds after it |
| AlertManager.WellNumberedIdsUnique | modules/alert_manager.py:61 | in such a list, alert ids are pairwise distinct |
| AlertManager.WellNumberedIdsIncrease | modules/alert_manager.py:61 | in such a list, the numbers behind the ids strictly increase with position (as strings they need not: "ALT-1000" sorts before "ALT-999") |
| AlertManager.GetActiveAlerts | modules/alert_manager.py:79-85 | only active alerts are listed, every active alert is listed, the listing is a permutation of the active sublist, sorted non-increasing by timestamp, and `total` is its length |
| AlertManager.ActiveAlertsStable | modules/alert_manager.py:84 | alerts with equal timestamps keep their store order in the listing |
| AlertManager.InitialActiveAlerts | modules/alert_manager.py:38-56 | right after start-up the active listing has total 1 and holds ALT-001 |
| Ordering.SortDesc | modules/alert_manager.py:84 | `sorted(..., reverse=True)` yields a non-increasing permutation of its input |
| Ordering.SortDescStable | modules/threat_detector.py:48 | for every key value, the elements with that key keep their relative order through the sort |
| Ordering.Take | modules/threat_detector.py:48 | `[:limit]` is a prefix of length min(limit, n) for a non-negative limit and max(0, n+limit) for a negative one |
| Ordering.SelectSelect | modules/siem_integration.py:69-73 | filtering by one predicate and then another equals filtering once by their conjunction |
| Ordering.SelectIsSubsequence | modules/siem_integration.py:67-75 | a list-comprehension filter keeps the order of the elements it keeps |
| ThreatDetector.ThreatIdInjective | modules/threat_detector.py:60 | different numbers give different `THR-` ids |
| ThreatDetector.Init | modules/threat_detector.py:22-42 | seeding yields exactly five threats numbered THR-1000.. in order, with the templates' types and severities and the drawn timestamps and statuses |
| ThreatDetector.SampleKinds | modules/threat_detector.py:24-30 | the five seeds are malware/high, intrusion/critical, anomaly/medium, scan/low, phishing/high, in that order |
| ThreatDetector.FirstMatch | modules/threat_detector.py:54-58 | no index iff no pattern occurs; otherwise the index of a pattern that occurs, with no earlier pattern occurring |
| ThreatDetector.DetectThreat | modules/threat_detector.py:51-71 | nothing is detected and the store is unchanged iff no pattern occurs in the lower-cased text; otherwise exactly one threat is appended, typed by the first occurring pattern in declared order, high, active, sourced from the event's `source` or "unknown", id THR-(len+1000), description capitalised pattern + " detectado" |
| ThreatDetector.DetectPreservesNumbering | modules/threat_detector.py:59-68 | if the i-th threat is THR-(1000+i) before detection, that still holds after it |
| ThreatDetector.WellNumberedIdsUnique | modules/threat_detector.py:60 | in such a list threat ids are pairwise distinct |
| ThreatDetector.ExploitIsDetected | modules/threat_detector.py:54-69 | text containing "exploit" in any case is always detected and adds exactly one threat |
| ThreatDetector.GetRecentThreats | modules/threat_detector.py:44-49 | `total` is the full store size; the listing has min(limit, total) entries for a non-negative limit, is sorted newest first, draws only from the store, no omitted threat is newer than the oldest listed one, and among threats of equal timestamp the listing holds the earliest ones in store order |
| ThreatDetector.RecentKeepsEarliest | modules/threat_detector.py:48 | since the sort is stable and the cut is a prefix, for every timestamp the listed threats with it are a prefix of the store's threats with it |
| Ordering.WithKeyAppend | modules/threat_detector.py:48 | the elements with a given key of a concatenation are those of the first part followed by those of the second |
| Ordering.PrefixKeepsEarliest | modules/threat_detector.py:48 | a prefix keeps, for every key value, the earliest elements carrying it |
| ThreatDetector.DefaultLimitListsAll | modules/threat_detector.py:44-49 | with the default limit 20 and at most 20 threats, the listing is a permutation of the whole store |
| SiemIntegration.SendEvent | modules/siem_integration.py:21-52 | exactly one entry tagged "CentinelaBot" with the payload is appended; a dict payload gets status success with event id equal to the new length, a non-dict one the `AttributeError` message |
| SiemIntegration.SentIdIsPosition | modules/siem_integration.py:38-45 | the returned event id points (1-based) at the entry just appended |
| SiemIntegration.FilterBy | modules/siem_integration.py:70 | one filter stage succeeds iff every entry is a dict, and then keeps exactly the entries whose member equals the value, in order |
| SiemIntegration.QueryEvents | modules/siem_integration.py:54-75 | empty filters return the whole journal; the query fails iff it filters on type or severity and some entry is not a dict; otherwise it returns exactly the entries meeting every understood filter, in journal order |
| SiemIntegration.QueryIgnoresUnknownKeys | modules/siem_integration.py:64-75 | filter keys other than `type` and `severity` do not change the result |
| SiemIntegration.QueryPreservesOrder | modules/siem_integration.py:67-75 | a successful query is an order-preserving subsequence of the journal |
| SiemIntegration.TypeQuery | modules/siem_integration.py:69-70 | on a journal of dicts, a `type` query returns exactly the entries of that type |
| App.Startup | app.py:50-53 | the loaded application holds two numbered alerts, five numbered threats and an empty journal |
| App.Classify | app.py:108-114 | a truthy object body is answered with exactly the classifier's analysis, and the threat store and the journal are untouched |
| App.AnalyzeEvent | app.py:100-117 | 400 iff the body is falsy, with nothing changed; 500 iff the body is unreadable or a truthy non-object, with nothing changed and the exception's message; otherwise the response is the classifier's analysis; the threat store and the journal are never touched |
| App.EscalationCreatesOneAlert | app.py:110-112 | a high or critical analysis appends exactly one alert built from it (next id, its severity label, active, its event id and text); any other outcome leaves the alert store as it was |
| App.EmailOnlyOnEscalation | app.py:111-112 | an e-mail is attempted iff an escalated analysis was stored while e-mail is configured |
| App.HandlingPreservesAlertNumbering | app.py:111-112 | handling any request keeps alert ids ALT-001, ALT-002, ... in store order |
| App.EmptyObjectIsRefused | app.py:104-106 | the body `{}` gets 400 and changes nothing |
| App.ScanWithoutKey | app.py:108-114 | without a usable API key (unset or empty), `{"type": "scan"}` gets severity low, not AI-powered, and no alert |
| App.IntrusionWithoutKeyEscalates | app.py:108-112 | without a usable API key (unset or empty), an intrusion event gets severity critical and adds one critical alert |

## Left out

- The remote chat-completion call and its prompt (`_build_prompt`, model name, temperature) are out of scope. The reply is an input.
- SMTP/MIME sending (`_send_email_alert`) is out of scope. Only the condition for attempting it is modelled, and a failed send is caught in the source anyway. `_check_email_config` is a boolean input.
- Flask routing, CORS, logging, dotenv loading, and the `index`, `health_check`, dashboard, threats and alerts routes are glue around the core. `is_healthy` always returns true.
- modules/dashboard_data.py produces random mock statistics and has no logic worth modelling.
- `datetime.now()` readings and the random values drawn while seeding threats are parameters. That covers the hour offsets, the source-address octet and the status.
- Python's `str(dict)` text is a parameter of `DetectThreat`, and its relation to the event's members is not modelled.
- ThreatDetector.DetectThreat: a non-dict event is not modelled. In the source it raises `AttributeError` at `event.get('source', ...)` once a pattern has matched, before anything is appended, and returns `None` when none matches.
- `lower`, `upper` and `capitalize` fold only ASCII letters. Python folds all of Unicode.
- JSON member values other than strings are not modelled. This includes a `null`, numeric or list `id`/`type`/`source`, and an unhashable `type`, which makes the table lookup raise.
- Concurrent requests are not modelled: a single sequential caller is assumed. `query_events` returning the store's own list object, so that a caller can mutate it, is not modelled either, because values here are immutable.
