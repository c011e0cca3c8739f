/**
 * The `POST /api/analyze` handler of app.py: classify the posted event,
 * escalate high and critical results into the alert store, and answer with
 * the analysis. The process-wide module instances become one `State`
 * value threaded through the handler.
 */
module App {
  import opened Domain
  import opened AiAnalyzer
  import AlertManager
  import ThreatDetector
  import SiemIntegration

  datatype State = State(
    config: Config,
    alerts: AlertManager.Store,
    threats: ThreatDetector.Store,
    siem: SiemIntegration.Log)

  /**
   * The module instances created when app.py is loaded: the analyzer's key,
   * the two stores with their samples, and an empty journal.
   */
  function Startup(apiKey: Option<string>, emailEnabled: bool, t1: Timestamp, t2: Timestamp,
                   draws: seq<ThreatDetector.Draw>): (s: State)
    requires |draws| == |ThreatDetector.SampleTemplates|
    ensures s.config.Enabled() <==> apiKey.Some?
    ensures |s.alerts.alerts| == 2 && AlertManager.WellNumbered(s.alerts.alerts)
    ensures |s.threats.threats| == 5 && ThreatDetector.WellNumbered(s.threats.threats)
    ensures s.siem.events == []
  {
    State(Config(apiKey), AlertManager.Init(emailEnabled, t1, t2), ThreatDetector.Init(draws),
          SiemIntegration.Log([]))
  }

  /** The request body as `request.get_json()` sees it: decoded, or rejected with an exception. */
  datatype Body = Parsed(json: Json) | Unreadable(message: string)

  /** What the handler learns from outside: the AI reply (if a call is made) and two clock readings. */
  datatype Environment = Environment(reply: Option<string>, analysisTime: Timestamp, alertTime: Timestamp)

  datatype Response =
    | Analyzed(analysis: Analysis)
    | BadRequest(error: string)
    | ServerError(error: string)
  {
    function HttpStatus(): nat {
      match this
      case Analyzed(_) => 200
      case BadRequest(_) => 400
      case ServerError(_) => 500
    }
  }

  datatype Handled = Handled(state: State, response: Response, emailAttempted: bool)

  const NoDataMessage := "No se proporcionaron datos"

  /** The dictionary `create_alert` receives on escalation: every key present. */
  function AlertRequestOf(a: Analysis): (r: AlertManager.AlertRequest)
    ensures r.severity == Some(a.severity.Label())
    ensures r.analysis == Some(a.analysis)
    ensures r.eventId == Some(a.eventId)
  {
    AlertManager.AlertRequest(Some(a.severity.Label()), Some(a.analysis), Some(a.eventId))
  }

  /** Steps taken for a truthy JSON object: classify, then escalate when warranted. */
  function Classify(state: State, event: Event, env: Environment): (h: Handled)
    ensures h.response == Analyzed(AnalyzeSecurityEvent(state.config, env.reply, event, env.analysisTime))
    ensures h.state.config == state.config
    ensures h.state.threats == state.threats && h.state.siem == state.siem
  {
    var analysis := AnalyzeSecurityEvent(state.config, env.reply, event, env.analysisTime);
    if analysis.severity.Escalates() then
      var created := AlertManager.CreateAlert(state.alerts, AlertRequestOf(analysis), env.alertTime);
      Handled(state.(alerts := created.store), Analyzed(analysis), created.emailAttempted)
    else
      Handled(state, Analyzed(analysis), false)
  }

  /**
   * `analyze_event`. A falsy body is refused with 400. A truthy body that is
   * not an object makes the analyzer's `.get` raise, and any exception ends
   * in a 500 carrying its message. Otherwise the analysis is returned, and
   * a high or critical one first raises exactly one alert.
   */
  function AnalyzeEvent(state: State, body: Body, env: Environment): (h: Handled)
    ensures h.response.BadRequest? <==> body.Parsed? && !body.json.Truthy()
    ensures h.response.ServerError? <==>
      body.Unreadable? || (body.json.NonObject? && body.json.truthy)
    ensures h.response.BadRequest? ==> h.response.error == NoDataMessage
    ensures !h.response.Analyzed? ==> h.state == state && !h.emailAttempted
    ensures body.Unreadable? ==> h.response == ServerError(body.message)
    ensures h.response.ServerError? && body.Parsed? ==>
      h.response.error == NoGetMessage(body.json.typeName)
    ensures h.response.Analyzed? ==>
      h.response.analysis == AnalyzeSecurityEvent(state.config, env.reply, body.json.event, env.analysisTime)
    ensures h.state.config == state.config
    ensures h.state.threats == state.threats && h.state.siem == state.siem
  {
    match body
    case Unreadable(message) => Handled(state, ServerError(message), false)
    case Parsed(json) =>
      if !json.Truthy() then Handled(state, BadRequest(NoDataMessage), false)
      else match json
        case NonObject(typeName, _) => Handled(state, ServerError(NoGetMessage(typeName)), false)
        case Object(event) => Classify(state, event, env)
  }

  /**
   * Escalation: a successful high or critical analysis appends exactly one
   * alert, built from that analysis; any other outcome leaves the alert
   * store as it was.
   */
  lemma EscalationCreatesOneAlert(state: State, body: Body, env: Environment)
    ensures var h := AnalyzeEvent(state, body, env);
      if h.response.Analyzed? && h.response.analysis.severity.Escalates() then
        var before := state.alerts.alerts;
        var a := h.response.analysis;
        && |h.state.alerts.alerts| == |before| + 1
        && h.state.alerts.alerts[..|before|] == before
        && var alert := h.state.alerts.alerts[|before|];
          && alert.id == AlertManager.AlertId(|before| + 1)
          && alert.severity == a.severity.Label()
          && alert.status == Active
          && alert.eventId == Some(a.eventId)
          && alert.description == a.analysis
          && alert.timestamp == env.alertTime
      else
        h.state.alerts == state.alerts
  {
    var h := AnalyzeEvent(state, body, env);
    if h.response.Analyzed? && h.response.analysis.severity.Escalates() {
      var before := state.alerts.alerts;
      assert h.state.alerts.alerts == before + [h.state.alerts.alerts[|before|]];
    }
  }

  /** An e-mail is attempted only for an escalated analysis while SMTP is configured. */
  lemma EmailOnlyOnEscalation(state: State, body: Body, env: Environment)
    ensures var h := AnalyzeEvent(state, body, env);
      h.emailAttempted <==>
        h.response.Analyzed? && h.response.analysis.severity.Escalates() && state.alerts.emailEnabled
  {
  }

  /** Handling keeps alert ids numbered ALT-001, ALT-002, ... in store order. */
  lemma HandlingPreservesAlertNumbering(state: State, body: Body, env: Environment)
    requires AlertManager.WellNumbered(state.alerts.alerts)
    ensures AlertManager.WellNumbered(AnalyzeEvent(state, body, env).state.alerts.alerts)
  {
    match body
    case Unreadable(_) =>
    case Parsed(json) =>
      if json.Truthy() && json.Object? {
        var a := AnalyzeSecurityEvent(state.config, env.reply, json.event, env.analysisTime);
        if a.severity.Escalates() {
          AlertManager.CreatePreservesNumbering(state.alerts, AlertRequestOf(a), env.alertTime);
        }
      }
  }

  /** `{}` is refused with 400 and touches nothing. */
  lemma EmptyObjectIsRefused(state: State, env: Environment)
    ensures var h := AnalyzeEvent(state, Parsed(Object(Event(map[]))), env);
      h.response.HttpStatus() == 400 && h.state == state
  {
  }

  /** Without a usable API key (unset or empty), `{"type": "scan"}` is answered with severity low and no alert. */
  lemma ScanWithoutKey(state: State, env: Environment)
    requires !state.config.HasClient()
    ensures var h := AnalyzeEvent(state, Parsed(Object(Event(map["type" := "scan"]))), env);
      && h.response.Analyzed?
      && h.response.analysis.severity == Low
      && !h.response.analysis.aiPowered
      && h.state == state
  {
    assert "scan" in FallbackTable;
  }

  /** Without a usable API key (unset or empty), an intrusion event always raises a critical alert. */
  lemma IntrusionWithoutKeyEscalates(state: State, env: Environment)
    requires !state.config.HasClient()
    ensures var h := AnalyzeEvent(state, Parsed(Object(Event(map["type" := "intrusion"]))), env);
      && h.response.Analyzed?
      && h.response.analysis.severity == Critical
      && |h.state.alerts.alerts| == |state.alerts.alerts| + 1
      && h.state.alerts.alerts[|state.alerts.alerts|].severity == "critical"
  {
    assert "intrusion" in FallbackTable;
  }
}
