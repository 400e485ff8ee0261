/** The entities the listeners receive, produce and fail with. */
module Events {
  import opened Wrappers

  /** A Keycloak event type, represented by the name of its enum constant. */
  datatype EventType = EventType(name: string)

  /** The one event type that is recorded and checked. */
  const Login := EventType("LOGIN")

  /** Keycloak's admin operation types. */
  datatype OperationType = Create | Update | Delete | Action {
    /** `toString()` of the enum constant. */
    function Name(): string {
      match this
      case Create => "CREATE"
      case Update => "UPDATE"
      case Delete => "DELETE"
      case Action => "ACTION"
    }
  }

  /** `OperationType.valueOf`: the constant with that exact name, or nothing (the Java call throws). */
  function OperationTypeOf(s: string): (r: Option<OperationType>)
    ensures r.Some? ==> r.value.Name() == s
  {
    if s == "CREATE" then Some(Create)
    else if s == "UPDATE" then Some(Update)
    else if s == "DELETE" then Some(Delete)
    else if s == "ACTION" then Some(Action)
    else None
  }

  /** valueOf inverts toString on every operation type. */
  lemma OperationTypeOfName(op: OperationType)
    ensures OperationTypeOf(op.Name()) == Some(op)
  {
  }

  /** The event's details map, in iteration order. */
  type Details = seq<(string, string)>

  /** `Map.get` on the details: the value bound to `key`, if any. */
  function Lookup(d: Details, key: string): (r: Option<string>)
    ensures r.Some? <==> exists i :: 0 <= i < |d| && d[i].0 == key
    ensures r.Some? ==> exists i :: 0 <= i < |d| && d[i] == (key, r.value)
  {
    if d == [] then None
    else if d[0].0 == key then Some(d[0].1)
    else
      var r := Lookup(d[1..], key);
      assert forall i :: 1 <= i < |d| ==> d[i] == d[1..][i - 1];
      r
  }

  /** An authentication event as Keycloak delivers it; `None` is Java's null. */
  datatype AuthEvent = AuthEvent(
    eventType: EventType,
    realmId: string,
    clientId: Option<string>,
    userId: Option<string>,
    ipAddress: Option<string>,
    time: int,
    error: Option<string>,
    details: Option<Details>)

  /** Who performed an admin action. */
  datatype AuthDetails = AuthDetails(
    clientId: Option<string>,
    userId: Option<string>,
    ipAddress: Option<string>)

  /** An administrative event; `resourceType` is the name of its enum constant. */
  datatype AdminEvent = AdminEvent(
    operationType: OperationType,
    resourceType: Option<string>,
    realmId: string,
    authDetails: AuthDetails,
    resourcePath: Option<string>,
    representation: Option<string>,
    time: int,
    error: Option<string>)

  /** What the user directory returns for the event's user. */
  datatype User = User(username: string, email: Option<string>)

  /** A message handed to the mail transport. */
  datatype Email = Email(to: string, subject: string, text: string, html: string)

  /** The unchecked exceptions that escape a listener method. */
  datatype Fault =
    | NullIpAddress            // NullPointerException: the address is dereferenced for the lookup
    | NoRowsReturned           // JSONException: the query result has no series
    | IndexOutOfBounds         // IndexOutOfBoundsException: locationList.get(1) on a shorter list
    | NullUser                 // NullPointerException: the user directory returned null
    | NoSuchConstant(name: string) // IllegalArgumentException from Enum.valueOf

  /** How a listener method ended: normally, or by throwing. */
  datatype Outcome = Completed | Crashed(fault: Fault)

  /** The listener state the location check changes, and how the check ended. */
  datatype CheckState = CheckState(locationList: seq<string>, outbox: seq<Email>, outcome: Outcome)

  /** What the location check decides once it has read the history. */
  datatype Verdict = Quiet | Alert | Fails(fault: Fault)
}
