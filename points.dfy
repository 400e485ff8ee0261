/**
 * Normalisation of raw events into store points: `toInfluxDB` in the
 * InfluxDBEventListenerProvider and `insertDataIntoInfluxDB` in the
 * IPEventListenerProvider, whose point construction is the same expression chain.
 */
module Points {
  import opened Wrappers
  import opened Text
  import opened Events
  import opened Store

  /** Default for an absent attribute. */
  const Unknown := "unknown"

  /** Location recorded when the lookup gives nothing. */
  const UnknownLocation := "unknown/localhost"

  function OrUnknown(o: Option<string>): string {
    o.GetOr(Unknown)
  }

  /**
   * `ipToLocation`: the lookup's answer is only logged and never returned, so the
   * result is null for every address.
   */
  function IpToLocation(ip: string): (r: Option<string>)
    ensures r.None?
  {
    None
  }

  /** The `location` field: the address itself when the lookup answers, the marker otherwise. */
  function LocationField(ip: string): string {
    if IpToLocation(ip).Some? then ip else UnknownLocation
  }

  /** One `"key":"value"` pair of the details JSON (escaping is not modelled). */
  function Entry(kv: (string, string)): (r: string)
    ensures |r| > 0 && r[0] == '"'
  {
    "\"" + kv.0 + "\":\"" + kv.1 + "\""
  }

  function Entries(d: Details): (r: string)
    ensures d == [] <==> r == []
  {
    if d == [] then "" else Entry(d[0]) + (if |d| > 1 then "," else "") + Entries(d[1..])
  }

  /** Jackson's `writeValueAsString` of the details map. */
  function SerializeDetails(d: Details): (json: string)
    ensures |json| >= 2 && json[0] == '{' && json[|json| - 1] == '}'
  {
    "{" + Entries(d) + "}"
  }

  /** The serialised details are `{}` exactly when the map is empty. */
  lemma SerializeDetailsEmpty(d: Details)
    ensures SerializeDetails(d) == "{}" <==> d == []
  {
    if d != [] {
      assert |SerializeDetails(d)| > 2;
    }
  }

  /** The optional `error` field. */
  function WithError(f: map<string, string>, error: Option<string>): (r: map<string, string>)
    ensures forall k :: k in f && k != "error" ==> k in r && r[k] == f[k]
  {
    if error.Some? then f["error" := error.value] else f
  }

  /** The optional `username` and `details` fields, added only when details are present. */
  function WithDetails(f: map<string, string>, details: Option<Details>): (r: map<string, string>)
    ensures forall k :: k in f && k != "username" && k != "details" ==> k in r && r[k] == f[k]
  {
    match details
    case None => f
    case Some(d) =>
      var username := Lookup(d, "username");
      var f' := if username.Some? then f["username" := username.value] else f;
      var json := SerializeDetails(d);
      if !EqualsIgnoreCase("{}", json) then f'["details" := json] else f'
  }

  /** The tag set and field set of an authentication event. */
  function EventPoint(e: AuthEvent): (r: Result<Point, Fault>)
    ensures r.Err? <==> e.ipAddress.None?
    ensures r.Err? ==> r.error == NullIpAddress
    ensures r.Ok? ==>
      var p := r.value;
      && p.measurement == "event" && p.time == e.time
      && p.tags.Keys == {"type", "realmId", "clientId"}
      && p.tags["type"] == e.eventType.name && p.tags["realmId"] == e.realmId
      && p.tags["clientId"] == OrUnknown(e.clientId)
      && "userId" in p.fields && "ipAddress" in p.fields && "location" in p.fields
      && p.fields["userId"] == OrUnknown(e.userId)
      && p.fields["ipAddress"] == OrUnknown(e.ipAddress) == e.ipAddress.value
      && p.fields["location"] == UnknownLocation
  {
    match e.ipAddress
    case None => Err(NullIpAddress)
    case Some(ip) =>
      var tags := map["type" := e.eventType.name, "realmId" := e.realmId, "clientId" := OrUnknown(e.clientId)];
      var fields := map["userId" := OrUnknown(e.userId), "ipAddress" := OrUnknown(e.ipAddress), "location" := LocationField(ip)];
      Ok(Point("event", tags, WithDetails(WithError(fields, e.error), e.details), e.time))
  }

  /**
   * Which optional fields an event point carries: `error` iff the event has an error,
   * `username` iff the details hold that key, `details` iff the details are present and
   * do not serialise to `{}`; no other field besides the three mandatory ones.
   */
  lemma EventPointOptionalFields(e: AuthEvent)
    requires e.ipAddress.Some?
    ensures var f := EventPoint(e).value.fields;
      && f.Keys == {"userId", "ipAddress", "location"}
                   + (if e.error.Some? then {"error"} else {})
                   + (if e.details.Some? && Lookup(e.details.value, "username").Some? then {"username"} else {})
                   + (if e.details.Some? && e.details.value != [] then {"details"} else {})
      && (e.error.Some? ==> f["error"] == e.error.value)
      && (e.details.Some? && Lookup(e.details.value, "username").Some? ==> f["username"] == Lookup(e.details.value, "username").value)
      && (e.details.Some? && e.details.value != [] ==> f["details"] == SerializeDetails(e.details.value))
  {
    if e.details.Some? {
      SerializeDetailsEmpty(e.details.value);
      BracesMatchOnlyThemselves(SerializeDetails(e.details.value));
    }
  }

  /**
   * The point of a LOGIN with a user id is found by that user's history query exactly
   * when it was written under the retention policy the query reads.
   */
  lemma EventPointFoundByQuery(e: AuthEvent, database: string, retention: string)
    requires e.ipAddress.Some? && e.userId.Some?
    ensures Matches(StoredPoint(database, retention, EventPoint(e).value), database, e.userId.value)
            <==> retention == QueryRetention
  {
  }

  /**
   * The history query for a null user id looks for the id "null", which the event's
   * own point (recorded with "unknown") never carries.
   */
  lemma NullUserPointNotFound(e: AuthEvent, database: string, retention: string)
    requires e.ipAddress.Some? && e.userId.None?
    ensures !Matches(StoredPoint(database, retention, EventPoint(e).value), database, JavaString(e.userId))
  {
  }

  /** The tag set and field set of an admin event. */
  function AdminPoint(e: AdminEvent): (p: Point)
    ensures p.measurement == "adminEvent" && p.time == e.time
    ensures p.tags.Keys == {"operationType", "resourceType", "realmId", "clientId"}
    ensures p.tags["operationType"] == e.operationType.Name() && p.tags["realmId"] == e.realmId
    ensures p.tags["resourceType"] == OrUnknown(e.resourceType)
    ensures p.tags["clientId"] == OrUnknown(e.authDetails.clientId)
    ensures p.fields.Keys == {"userId", "ipAddress", "resourcePath", "representation"} + (if e.error.Some? then {"error"} else {})
    ensures p.fields["userId"] == OrUnknown(e.authDetails.userId)
    ensures p.fields["ipAddress"] == OrUnknown(e.authDetails.ipAddress)
    ensures p.fields["resourcePath"] == OrUnknown(e.resourcePath)
    ensures p.fields["representation"] == OrUnknown(e.representation)
    ensures e.error.Some? ==> p.fields["error"] == e.error.value
  {
    var tags := map[
      "operationType" := e.operationType.Name(),
      "resourceType" := OrUnknown(e.resourceType),
      "realmId" := e.realmId,
      "clientId" := OrUnknown(e.authDetails.clientId)];
    var fields := map[
      "userId" := OrUnknown(e.authDetails.userId),
      "ipAddress" := OrUnknown(e.authDetails.ipAddress),
      "resourcePath" := OrUnknown(e.resourcePath),
      "representation" := OrUnknown(e.representation)];
    Point("adminEvent", tags, WithError(fields, e.error), e.time)
  }

  /** Reading unresolved rows into an unresolved list leaves it unresolved. */
  lemma UnresolvedAfterCheck(list: seq<string>, rows: seq<Row>)
    requires forall k :: 0 <= k < |rows| ==> rows[k].location == Some(UnknownLocation)
    requires forall k :: 0 <= k < |list| ==> list[k] == UnknownLocation
    ensures var list' := list + ParsedLocations(rows);
            forall k :: 0 <= k < |list'| ==> list'[k] == UnknownLocation
  {
    var list' := list + ParsedLocations(rows);
    forall k | 0 <= k < |list'| ensures list'[k] == UnknownLocation {
      if k >= |list| {
        assert list'[k] == ParsedLocations(rows)[k - |list|];
      }
    }
  }
}
