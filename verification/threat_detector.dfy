/**
 * The threat store (`ThreatDetector` in modules/threat_detector.py): five
 * seeded sample threats, keyword detection over a serialised event, and a
 * "most recent first" listing.
 *
 * The random parts of seeding (timestamps, source addresses, statuses) and
 * the clock are inputs; Python's `str(event)` is an input too, since its
 * exact text is not modelled.
 */
module ThreatDetector {
  import opened Domain
  import opened Text
  import opened Ordering

  datatype Threat = Threat(
    id: string,
    timestamp: Timestamp,
    kind: string,
    severity: Severity,
    description: string,
    source: string,
    status: Status)

  datatype Store = Store(threats: seq<Threat>)

  /** `f'THR-{n}'`. */
  function ThreatId(n: nat): string {
    "THR-" + Decimal(n)
  }

  lemma ThreatIdInjective(m: nat, n: nat)
    ensures ThreatId(m) == ThreatId(n) ==> m == n
  {
    assert ThreatId(m)[4..] == Decimal(m);
    assert ThreatId(n)[4..] == Decimal(n);
    ParseDecimalOfDecimal(m);
    ParseDecimalOfDecimal(n);
  }

  /** The fixed part of one sample threat. */
  datatype Template = Template(kind: string, severity: Severity, description: string)

  const SampleTemplates: seq<Template> := [
    Template("malware", High, "Posible malware detectado en endpoint"),
    Template("intrusion", Critical, "Intento de acceso no autorizado detectado"),
    Template("anomaly", Medium, "Comportamiento anómalo en tráfico de red"),
    Template("scan", Low, "Escaneo de puertos detectado"),
    Template("phishing", High, "Email de phishing detectado")
  ]

  /**
   * The values seeding draws at random for one sample: its timestamp (some
   * hours before start-up), the last octet of its 192.168.1.x source
   * address, and its status.
   */
  datatype Draw = Draw(timestamp: Timestamp, hostOctet: nat, status: Status)

  /** The i-th sample threat. */
  function SampleThreat(i: nat, draw: Draw): Threat
    requires i < |SampleTemplates|
  {
    var template := SampleTemplates[i];
    Threat(ThreatId(1000 + i), draw.timestamp, template.kind, template.severity,
           template.description, "192.168.1." + Decimal(draw.hostOctet), draw.status)
  }

  /** The i-th threat (from 0) carries id THR-(1000 + i). */
  ghost predicate WellNumbered(threats: seq<Threat>) {
    forall i :: 0 <= i < |threats| ==> threats[i].id == ThreatId(1000 + i)
  }

  /** `_generate_sample_threats`: one threat per template, in declared order. */
  function Init(draws: seq<Draw>): (s: Store)
    requires |draws| == |SampleTemplates|
    ensures |s.threats| == 5
    ensures WellNumbered(s.threats)
    ensures forall i :: 0 <= i < 5 ==>
      && s.threats[i].kind == SampleTemplates[i].kind
      && s.threats[i].severity == SampleTemplates[i].severity
      && s.threats[i].timestamp == draws[i].timestamp
      && s.threats[i].status == draws[i].status
  {
    Store(seq(|SampleTemplates|, i requires 0 <= i < |SampleTemplates| => SampleThreat(i, draws[i])))
  }

  /** The seeded kinds and severities, spelled out. */
  lemma SampleKinds(draws: seq<Draw>)
    requires |draws| == |SampleTemplates|
    ensures var t := Init(draws).threats;
      && t[0].kind == "malware" && t[0].severity == High
      && t[1].kind == "intrusion" && t[1].severity == Critical
      && t[2].kind == "anomaly" && t[2].severity == Medium
      && t[3].kind == "scan" && t[3].severity == Low
      && t[4].kind == "phishing" && t[4].severity == High
  {
  }

  /** `suspicious_patterns`, in the order they are tried. */
  const Patterns: seq<string> := ["malware", "intrusion", "attack", "breach", "exploit"]

  /** Index of the first pattern occurring in `text`, if any. */
  function FirstMatch(patterns: seq<string>, text: string): (r: Option<nat>)
    ensures r.None? <==> forall j :: 0 <= j < |patterns| ==> !Contains(text, patterns[j])
    ensures r.Some? ==>
      && r.value < |patterns|
      && Contains(text, patterns[r.value])
      && forall j :: 0 <= j < r.value ==> !Contains(text, patterns[j])
    decreases |patterns|
  {
    if |patterns| == 0 then None
    else if Contains(text, patterns[0]) then Some(0)
    else match FirstMatch(patterns[1..], text)
      case None => None
      case Some(k) => Some(k + 1)
  }

  datatype Detection = Detection(store: Store, threat: Option<Threat>)

  /**
   * `detect_threat`. `serialized` is the text of `str(event)`; the pattern
   * search runs over its lower-cased form.
   */
  function DetectThreat(store: Store, event: Event, serialized: string, now: Timestamp)
    : (d: Detection)
    ensures d.threat.None? <==>
      forall j :: 0 <= j < |Patterns| ==> !Contains(Lower(serialized), Patterns[j])
    ensures d.threat.None? ==> d.store == store
    ensures d.threat.Some? ==>
      var t := d.threat.value;
      && d.store.threats == store.threats + [t]
      && t.id == ThreatId(|store.threats| + 1000)
      && t.timestamp == now
      && t.severity == High
      && t.status == Active
      && t.source == event.GetOr("source", "unknown")
      && t.description == Capitalize(t.kind) + " detectado"
      && exists i :: 0 <= i < |Patterns| && Patterns[i] == t.kind
           && Contains(Lower(serialized), t.kind)
           && forall j :: 0 <= j < i ==> !Contains(Lower(serialized), Patterns[j])
  {
    match FirstMatch(Patterns, Lower(serialized))
    case None => Detection(store, None)
    case Some(i) =>
      var kind := Patterns[i];
      var threat := Threat(ThreatId(|store.threats| + 1000), now, kind, High,
                           Capitalize(kind) + " detectado", event.GetOr("source", "unknown"), Active);
      Detection(Store(store.threats + [threat]), Some(threat))
  }

  /** Detection keeps the numbering, so ids stay distinct over any run. */
  lemma DetectPreservesNumbering(store: Store, event: Event, serialized: string, now: Timestamp)
    requires WellNumbered(store.threats)
    ensures WellNumbered(DetectThreat(store, event, serialized, now).store.threats)
  {
    var d := DetectThreat(store, event, serialized, now);
    if d.threat.Some? {
      var ts := d.store.threats;
      forall i | 0 <= i < |ts| ensures ts[i].id == ThreatId(1000 + i) {
        if i < |store.threats| {
          assert ts[i] == store.threats[i];
        }
      }
    }
  }

  lemma WellNumberedIdsUnique(threats: seq<Threat>, i: nat, j: nat)
    requires WellNumbered(threats)
    requires i < j < |threats|
    ensures threats[i].id != threats[j].id
  {
    ThreatIdInjective(1000 + i, 1000 + j);
  }

  /** An event whose text mentions "exploit" in any case is always detected. */
  lemma ExploitIsDetected(store: Store, event: Event, serialized: string, now: Timestamp)
    requires Contains(Lower(serialized), "exploit")
    ensures DetectThreat(store, event, serialized, now).threat.Some?
    ensures |DetectThreat(store, event, serialized, now).store.threats| == |store.threats| + 1
  {
    assert Patterns[4] == "exploit";
  }

  function ThreatTime(t: Threat): int { t.timestamp }

  datatype Recent = Recent(total: nat, threats: seq<Threat>)

  /**
   * `get_recent_threats(limit)`: the newest `limit` threats, newest first
   * (Python slice semantics for `limit`); `total` counts the whole store.
   */
  function GetRecentThreats(store: Store, limit: int): (r: Recent)
    ensures r.total == |store.threats|
    ensures limit >= 0 ==>
      |r.threats| == (if limit < |store.threats| then limit else |store.threats|)
    ensures SortedDesc(r.threats, ThreatTime)
    ensures multiset(r.threats) <= multiset(store.threats)
    // no threat left out is newer than the oldest one listed
    ensures Newest(r.threats, store.threats)
    // among threats of equal timestamp, the earliest in the store are listed, in store order
    ensures forall k :: WithKey(r.threats, ThreatTime, k) <= WithKey(store.threats, ThreatTime, k)
  {
    RecentFacts(store.threats, limit);
    RecentKeepsEarliest(store.threats, limit);
    Recent(|store.threats|, Take(SortDesc(store.threats, ThreatTime), limit))
  }

  /** No threat of `all` that `listed` leaves out is newer than the last one listed. */
  ghost predicate Newest(listed: seq<Threat>, all: seq<Threat>) {
    |listed| > 0 ==> forall t :: t in all && t !in listed ==>
      t.timestamp <= listed[|listed| - 1].timestamp
  }

  lemma RecentFacts(all: seq<Threat>, limit: int)
    ensures var r := Take(SortDesc(all, ThreatTime), limit);
      && (limit >= 0 ==> |r| == (if limit < |all| then limit else |all|))
      && SortedDesc(r, ThreatTime)
      && multiset(r) <= multiset(all)
      && Newest(r, all)
  {
    var sorted := SortDesc(all, ThreatTime);
    var r := Take(sorted, limit);
    assert sorted == r + sorted[|r|..];
    PrefixMultiset(sorted, |r|);
    PrefixNewest(sorted, |r|, all);
  }

  /** The sort is stable and the cut is a prefix, so ties are resolved by store order. */
  lemma RecentKeepsEarliest(all: seq<Threat>, limit: int)
    ensures forall k ::
      WithKey(Take(SortDesc(all, ThreatTime), limit), ThreatTime, k) <= WithKey(all, ThreatTime, k)
  {
    var sorted := SortDesc(all, ThreatTime);
    var r := Take(sorted, limit);
    SortDescStable(all, ThreatTime);
    assert r == sorted[..|r|];
    PrefixKeepsEarliest(sorted, |r|, ThreatTime);
  }

  lemma PrefixMultiset(s: seq<Threat>, k: nat)
    requires k <= |s|
    ensures multiset(s[..k]) <= multiset(s)
  {
    assert s == s[..k] + s[k..];
  }

  lemma PrefixNewest(sorted: seq<Threat>, k: nat, all: seq<Threat>)
    requires sorted == SortDesc(all, ThreatTime)
    requires k <= |sorted|
    ensures Newest(sorted[..k], all)
  {
    var r := sorted[..k];
    if k > 0 {
      SortDescMembers(all, ThreatTime);
      forall t | t in all && t !in r ensures t.timestamp <= r[k - 1].timestamp {
        var j :| 0 <= j < |sorted| && sorted[j] == t;
        assert ThreatTime(sorted[k - 1]) >= ThreatTime(sorted[j]);
      }
    }
  }

  /** With the default limit of 20 the listing holds every threat while there are at most 20. */
  lemma DefaultLimitListsAll(store: Store)
    requires |store.threats| <= 20
    ensures multiset(GetRecentThreats(store, 20).threats) == multiset(store.threats)
  {
  }
}
