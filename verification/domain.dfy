/**
 * Values shared by all components: severity labels, record statuses,
 * caller-supplied timestamps, and the JSON event objects that arrive at the
 * analysis endpoint.
 */
module Domain {

  /**
   * A point in time. The source stamps records with
   * `datetime.now().isoformat()` and sorts by that string; strings of one
   * ISO format order like the instants they denote, so an integer stands in.
   */
  type Timestamp = int

  /** Ordinal risk classification of an event. */
  datatype Severity = Low | Medium | High | Critical {

    /** The label the JSON payloads carry. */
    function Label(): string {
      match this
      case Low => "low"
      case Medium => "medium"
      case High => "high"
      case Critical => "critical"
    }

    /** Position in the order low < medium < high < critical. */
    function Rank(): nat {
      match this
      case Low => 0
      case Medium => 1
      case High => 2
      case Critical => 3
    }

    /** The escalation threshold: only these severities raise an alert. */
    predicate Escalates() {
      this == High || this == Critical
    }
  }

  /** Record status of an alert or a threat. */
  datatype Status = Active | Investigating | Resolved

  /**
   * A JSON object posted as an event. Only string-valued members are
   * modelled; a missing key is a key not in `fields`.
   */
  datatype Event = Event(fields: map<string, string>) {

    /** Python's `event.get(key)`. */
    function Get(key: string): Option<string> {
      if key in fields then Some(fields[key]) else None
    }

    /** Python's `event.get(key, default)`. */
    function GetOr(key: string, default: string): (r: string)
      ensures key in fields ==> r == fields[key]
      ensures key !in fields ==> r == default
    {
      if key in fields then fields[key] else default
    }

    /** A dict is falsy in Python exactly when it is empty. */
    predicate IsFalsy() {
      |fields| == 0
    }
  }

  /**
   * A decoded JSON value: an object, or any other value, of which only its
   * Python type name and truthiness matter (`None` for a missing or `null`
   * body is `NonObject("NoneType", false)`).
   */
  datatype Json = Object(event: Event) | NonObject(typeName: string, truthy: bool) {
    predicate Truthy() {
      match this
      case Object(e) => !e.IsFalsy()
      case NonObject(_, t) => t
    }
  }

  datatype Option<+T> = None | Some(value: T) {
    function GetOr(default: T): T {
      match this
      case Some(v) => v
      case None => default
    }
  }

  /** The outcome of a step that may raise: a value, or the exception's message. */
  datatype Result<+T> = Ok(value: T) | Failed(error: string)

  /** The message of the `AttributeError` raised by `.get` on a non-dict value. */
  function NoGetMessage(typeName: string): string {
    "'" + typeName + "' object has no attribute 'get'"
  }
}
