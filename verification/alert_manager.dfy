/**
 * The alert store (`AlertManager` in modules/alert_manager.py): an
 * in-memory list seeded with two sample alerts, appended to by escalation,
 * and listed as "active alerts, newest first".
 *
 * Every operation is a pure function from the old store to the new one.
 * Sending the e-mail is not modelled; `CreateAlert` reports whether it
 * would be attempted.
 */
module AlertManager {
  import opened Domain
  import opened Text
  import opened Ordering

  datatype Alert = Alert(
    id: string,
    timestamp: Timestamp,
    severity: string,
    title: string,
    description: string,
    status: Status,
    eventId: Option<string>)

  /** The store: its alert list and whether SMTP settings are complete. */
  datatype Store = Store(alerts: seq<Alert>, emailEnabled: bool)

  /**
   * The dictionary `create_alert` reads: each key may be absent. The
   * escalation path passes a classifier `Analysis`, which has all three.
   */
  datatype AlertRequest = AlertRequest(
    severity: Option<string>,
    analysis: Option<string>,
    eventId: Option<string>)

  /** `f'ALT-{n:03d}'`. */
  function AlertId(n: nat): string {
    "ALT-" + PadDecimal(n, 3)
  }

  /** The number an alert id was made from. */
  lemma AlertIdNumber(n: nat)
    ensures |AlertId(n)| >= 7
    ensures AllDigits(AlertId(n)[4..])
    ensures ParseDecimal(AlertId(n)[4..]) == n
  {
    PadDecimalFacts(n, 3);
    assert AlertId(n)[4..] == PadDecimal(n, 3);
  }

  /** Distinct counts give distinct ids. */
  lemma AlertIdInjective(m: nat, n: nat)
    ensures AlertId(m) == AlertId(n) ==> m == n
  {
    AlertIdNumber(m);
    AlertIdNumber(n);
  }

  /** `_generate_sample_alerts`; each sample reads the clock once. */
  function SampleAlerts(t1: Timestamp, t2: Timestamp): seq<Alert> {
    [ Alert("ALT-001", t1, "high", "Acceso no autorizado detectado",
            "Se detectó un intento de acceso no autorizado desde IP sospechosa",
            Active, None),
      Alert("ALT-002", t2, "medium", "Anomalía en tráfico de red",
            "Tráfico de red inusual detectado en el segmento 192.168.1.0/24",
            Investigating, None) ]
  }

  /** The sample ids are the ones the counter would give. */
  lemma SampleIds()
    ensures AlertId(1) == "ALT-001" && AlertId(2) == "ALT-002"
  {
    assert Decimal(1) == "1" && Decimal(2) == "2";
    assert ['0'] + "1" == "01" && ['0'] + "01" == "001";
    assert ['0'] + "2" == "02" && ['0'] + "02" == "002";
    assert ZeroPad("1", 3) == ZeroPad("01", 3) == ZeroPad("001", 3) == "001";
    assert ZeroPad("2", 3) == ZeroPad("02", 3) == ZeroPad("002", 3) == "002";
  }

  lemma SampleAlertsNumbered(t1: Timestamp, t2: Timestamp)
    ensures WellNumbered(SampleAlerts(t1, t2))
  {
    var alerts := SampleAlerts(t1, t2);
    SampleIds();
    assert alerts[0].id == AlertId(1) && alerts[1].id == AlertId(2);
  }

  /** `AlertManager()`: an empty list extended with the two samples. */
  function Init(emailEnabled: bool, t1: Timestamp, t2: Timestamp): (s: Store)
    ensures |s.alerts| == 2
    ensures s.emailEnabled == emailEnabled
    ensures s.alerts[0].severity == "high" && s.alerts[0].status == Active
    ensures s.alerts[1].severity == "medium" && s.alerts[1].status == Investigating
    ensures WellNumbered(s.alerts)
  {
    SampleAlertsNumbered(t1, t2);
    Store(SampleAlerts(t1, t2), emailEnabled)
  }

  /** The i-th alert (from 0) carries the id of count i + 1. */
  ghost predicate WellNumbered(alerts: seq<Alert>) {
    forall i :: 0 <= i < |alerts| ==> alerts[i].id == AlertId(i + 1)
  }

  /** The alert `create_alert` builds when the store already holds `count` alerts. */
  function NewAlert(count: nat, request: AlertRequest, now: Timestamp): (a: Alert)
    ensures a.id == AlertId(count + 1)
    ensures a.timestamp == now
    ensures a.status == Active
    ensures a.severity == request.severity.GetOr("medium")
    ensures a.title == "Amenaza " + Upper(a.severity) + " detectada"
    ensures a.description == request.analysis.GetOr("Sin descripción")
    ensures a.eventId == request.eventId
  {
    var severity := request.severity.GetOr("medium");
    Alert(AlertId(count + 1), now, severity, "Amenaza " + Upper(severity) + " detectada",
          request.analysis.GetOr("Sin descripción"), Active, request.eventId)
  }

  /** Whether `create_alert` calls `_send_email_alert` for an alert of this severity. */
  predicate SendsEmail(store: Store, severity: string) {
    store.emailEnabled && (severity == "high" || severity == "critical")
  }

  datatype Created = Created(store: Store, alert: Alert, emailAttempted: bool)

  /**
   * `create_alert`: appends one alert and returns it. Whether an e-mail is
   * attempted does not influence the alert or the list, since a failed
   * send is caught and only logged.
   */
  function CreateAlert(store: Store, request: AlertRequest, now: Timestamp): (c: Created)
    ensures c.store.alerts == store.alerts + [c.alert]
    ensures c.store.emailEnabled == store.emailEnabled
    ensures c.alert.id == AlertId(|store.alerts| + 1)
    ensures c.alert.status == Active && c.alert.timestamp == now
    ensures c.alert.severity == request.severity.GetOr("medium")
    ensures c.alert.title == "Amenaza " + Upper(c.alert.severity) + " detectada"
    ensures c.alert.description == request.analysis.GetOr("Sin descripción")
    ensures c.alert.eventId == request.eventId
    ensures c.emailAttempted <==>
      store.emailEnabled && (c.alert.severity == "high" || c.alert.severity == "critical")
  {
    var alert := NewAlert(|store.alerts|, request, now);
    Created(Store(store.alerts + [alert], store.emailEnabled), alert, SendsEmail(store, alert.severity))
  }

  /** Creation keeps the i-th alert numbered i + 1, so the numbering holds over any run. */
  lemma CreatePreservesNumbering(store: Store, request: AlertRequest, now: Timestamp)
    requires WellNumbered(store.alerts)
    ensures WellNumbered(CreateAlert(store, request, now).store.alerts)
  {
  }

  /** In a well-numbered list, ids are pairwise distinct. */
  lemma {:induction false} WellNumberedIdsUnique(alerts: seq<Alert>, i: nat, j: nat)
    requires WellNumbered(alerts)
    requires i < j < |alerts|
    ensures alerts[i].id != alerts[j].id
  {
    AlertIdInjective(i + 1, j + 1);
  }

  /**
   * Over any run the numbers behind the ids strictly increase with position.
   * As strings they need not: "ALT-1000" sorts before "ALT-999".
   */
  lemma WellNumberedIdsIncrease(alerts: seq<Alert>, i: nat, j: nat)
    requires WellNumbered(alerts)
    requires i < j < |alerts|
    ensures |alerts[i].id| >= 4 && |alerts[j].id| >= 4
    ensures AllDigits(alerts[i].id[4..]) && AllDigits(alerts[j].id[4..])
    ensures ParseDecimal(alerts[i].id[4..]) < ParseDecimal(alerts[j].id[4..])
  {
    AlertIdNumber(i + 1);
    AlertIdNumber(j + 1);
  }

  function AlertTime(a: Alert): int { a.timestamp }

  predicate IsActive(a: Alert) { a.status == Active }

  datatype ActiveList = ActiveList(total: nat, alerts: seq<Alert>)

  /**
   * `get_active_alerts`: the active alerts, newest first; equal timestamps
   * keep their order in the store.
   */
  function GetActiveAlerts(store: Store): (r: ActiveList)
    ensures r.total == |r.alerts|
    ensures forall a :: a in r.alerts ==> a.status == Active
    ensures forall a :: a in store.alerts && a.status == Active ==> a in r.alerts
    ensures multiset(r.alerts) == multiset(Select(store.alerts, IsActive))
    ensures SortedDesc(r.alerts, AlertTime)
  {
    var active := Select(store.alerts, IsActive);
    var sorted := SortDesc(active, AlertTime);
    SortDescMembers(active, AlertTime);
    ActiveList(|sorted|, sorted)
  }

  /** The listing is a stable reordering of the active alerts. */
  lemma ActiveAlertsStable(store: Store)
    ensures StablyReordered(GetActiveAlerts(store).alerts, Select(store.alerts, IsActive), AlertTime)
  {
    SortDescStable(Select(store.alerts, IsActive), AlertTime);
  }

  /** Right after start-up exactly one alert (ALT-001) is active. */
  lemma InitialActiveAlerts(emailEnabled: bool, t1: Timestamp, t2: Timestamp)
    ensures GetActiveAlerts(Init(emailEnabled, t1, t2)).total == 1
    ensures GetActiveAlerts(Init(emailEnabled, t1, t2)).alerts[0].id == "ALT-001"
  {
    var alerts := Init(emailEnabled, t1, t2).alerts;
    var a0 := alerts[0];
    assert alerts[1..][1..] == [];
    assert Select(alerts[1..][1..], IsActive) == [];
    assert !IsActive(alerts[1]);
    assert Select(alerts[1..], IsActive) == [];
    assert IsActive(a0);
    assert Select(alerts, IsActive) == [a0];
    assert [a0][1..] == [];
    assert SortDesc([a0], AlertTime) == Insert(a0, [], AlertTime) == [a0];
  }
}
