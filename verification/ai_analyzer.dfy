/**
 * The severity classifier (`AIAnalyzer` in modules/ai_analyzer.py).
 *
 * The remote chat-completion call is not modelled: its outcome is an input,
 * `Some(reply text)` when it answered and `None` when it raised. What
 * remains is the keyword extraction over the reply, the offline lookup
 * table, and the rule choosing between them.
 */
module AiAnalyzer {
  import opened Domain
  import opened Text

  /** The classifier's output record. */
  datatype Analysis = Analysis(
    eventId: string,
    timestamp: Timestamp,
    analysis: string,
    severity: Severity,
    aiPowered: bool)

  /**
   * The analyzer's configuration: the value of `OPENAI_API_KEY`, if set.
   * The analyzer counts as enabled whenever the variable is set, but only
   * builds a client when the value is non-empty.
   */
  datatype Config = Config(apiKey: Option<string>) {
    predicate Enabled() { apiKey.Some? }
    predicate HasClient() { apiKey.Some? && apiKey.value != "" }
  }

  /** The reply text names severity `s`, in any letter case. */
  predicate Mentions(text: string, s: Severity) {
    Contains(Lower(text), s.Label())
  }

  /**
   * `_extract_severity`: ordered case-insensitive keyword search, critical
   * before high before medium, low when none occurs.
   */
  function ExtractSeverity(text: string): (r: Severity)
    // the most severe label mentioned wins; "low" is the default, never searched for
    ensures r != Low ==> Mentions(text, r)
    ensures forall s: Severity :: s != Low && Mentions(text, s) ==> s.Rank() <= r.Rank()
    // the same rule, case by case
    ensures r == Critical <==> Mentions(text, Critical)
    ensures r == High <==> Mentions(text, High) && !Mentions(text, Critical)
    ensures r == Medium <==>
      Mentions(text, Medium) && !Mentions(text, High) && !Mentions(text, Critical)
    ensures r == Low <==>
      !Mentions(text, Medium) && !Mentions(text, High) && !Mentions(text, Critical)
  {
    var lowered := Lower(text);
    if Contains(lowered, "critical") then Critical
    else if Contains(lowered, "high") then High
    else if Contains(lowered, "medium") then Medium
    else Low
  }

  lemma LowerOfUpper(s: string)
    ensures Lower(Upper(s)) == Lower(s)
  {
    forall i | 0 <= i < |s| ensures Lower(Upper(s))[i] == Lower(s)[i] {
      var c := s[i];
      if IsLower(c) {
        assert UpperChar(c) as int == c as int - 32;
      }
    }
  }

  /** Letter case never changes the extracted severity. */
  lemma ExtractSeverityIgnoresCase(text: string)
    ensures ExtractSeverity(Lower(text)) == ExtractSeverity(text)
    ensures ExtractSeverity(Upper(text)) == ExtractSeverity(text)
  {
    LowerIdempotent(text);
    LowerOfUpper(text);
  }

  /** A reply that mentions "critical" is critical, whatever else it says. */
  lemma CriticalDominates(text: string, extra: string)
    requires Contains(Lower(text), "critical")
    ensures ExtractSeverity(text + extra) == Critical
    ensures ExtractSeverity(extra + text) == Critical
  {
    ContainsIffOccurs(Lower(text), "critical");
    var i: nat :| OccursAt(Lower(text), "critical", i);
    var front := Lower(text + extra);
    var back := Lower(extra + text);
    assert front[i..i + 8] == Lower(text)[i..i + 8];
    assert OccursAt(front, "critical", i);
    assert back[|extra| + i..|extra| + i + 8] == Lower(text)[i..i + 8];
    assert OccursAt(back, "critical", |extra| + i);
    ContainsIffOccurs(front, "critical");
    ContainsIffOccurs(back, "critical");
  }

  /** The offline lookup table of `_fallback_analysis`. */
  const FallbackTable: map<string, Severity> :=
    map["malware" := High, "intrusion" := Critical, "anomaly" := Medium, "scan" := Low]

  /** `severity_map.get(event_type, 'medium')`. */
  function FallbackSeverity(eventType: string): (r: Severity)
    ensures eventType == "malware" ==> r == High
    ensures eventType == "intrusion" ==> r == Critical
    ensures eventType == "anomaly" ==> r == Medium
    ensures eventType == "scan" ==> r == Low
    ensures eventType !in FallbackTable ==> r == Medium
  {
    if eventType in FallbackTable then FallbackTable[eventType] else Medium
  }

  /** Only an intrusion or malware event escalates without the AI. */
  lemma FallbackEscalatesOnlyIntrusionAndMalware(eventType: string)
    ensures FallbackSeverity(eventType).Escalates() <==>
      eventType == "intrusion" || eventType == "malware"
  {
  }

  /** The templated description the offline path attaches. */
  function FallbackText(eventType: string): string {
    "Evento de tipo " + eventType + " detectado. Análisis básico sin IA."
  }

  /** `_fallback_analysis`: the event's id (or "unknown") and the table's severity for its type. */
  function FallbackAnalysis(event: Event, now: Timestamp): (a: Analysis)
    ensures !a.aiPowered
    ensures a.timestamp == now
    ensures "id" in event.fields ==> a.eventId == event.fields["id"]
    ensures "id" !in event.fields ==> a.eventId == "unknown"
    ensures "type" !in event.fields ==> a.severity == Medium
    ensures "type" in event.fields ==> a.severity == FallbackSeverity(event.fields["type"])
    ensures a.analysis == FallbackText(event.GetOr("type", "unknown"))
  {
    var eventType := event.GetOr("type", "unknown");
    Analysis(event.GetOr("id", "unknown"), now, FallbackText(eventType), FallbackSeverity(eventType), false)
  }

  /**
   * `analyze_security_event`. `reply` is what the remote call would answer
   * (`None` when it raises or returns no content); it is consulted only when
   * a client exists. Every failure degrades to the offline analysis.
   */
  function AnalyzeSecurityEvent(config: Config, reply: Option<string>, event: Event, now: Timestamp)
    : (a: Analysis)
    ensures !config.Enabled() ==> a == FallbackAnalysis(event, now)
    ensures !config.HasClient() || reply.None? ==> a == FallbackAnalysis(event, now)
    ensures a.aiPowered <==> config.HasClient() && reply.Some?
    ensures a.aiPowered ==>
      && a.severity == ExtractSeverity(reply.value)
      && a.analysis == reply.value
      && a.eventId == event.GetOr("id", "unknown")
      && a.timestamp == now
  {
    if !config.Enabled() then FallbackAnalysis(event, now)
    // an empty key leaves the client unset, so the call raises and is caught
    else if !config.HasClient() then FallbackAnalysis(event, now)
    else match reply
      case None => FallbackAnalysis(event, now)
      case Some(text) =>
        Analysis(event.GetOr("id", "unknown"), now, text, ExtractSeverity(text), true)
  }

  /** The analysis is AI-powered or has the fallback's severity; nothing else. */
  lemma AnalysisSeverityOrigin(config: Config, reply: Option<string>, event: Event, now: Timestamp)
    ensures var a := AnalyzeSecurityEvent(config, reply, event, now);
      if a.aiPowered then a.severity == ExtractSeverity(reply.value)
      else a.severity == FallbackSeverity(event.GetOr("type", "unknown"))
  {
  }
}
