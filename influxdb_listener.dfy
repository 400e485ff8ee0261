/**
 * The InfluxDBEventListenerProvider: records LOGIN and admin events and checks the
 * location of each recorded login against the locations read so far.
 */
module InfluxDBEventListenerProvider {
  import opened Wrappers
  import opened Text
  import opened Events
  import opened Store
  import opened Points
  import opened Alerts

  /** The paragraph of this provider's HTML message. */
  const Notice := "<p>This is an automated message to notify you that we detected a login attemp with a valid password to your account from an unrecognized location.</p>"

  /**
   * What the check decides from the location list after a query that returned `rowCount` rows:
   * no rows throw before the list is touched, a list shorter than two throws on `get(1)`,
   * and otherwise an alert is due when entries 0 and 1 differ ignoring case.
   */
  function Decide(list: seq<string>, rowCount: nat): (v: Verdict)
    ensures v == Fails(NoRowsReturned) <==> rowCount == 0
    ensures v == Fails(IndexOutOfBounds) <==> rowCount > 0 && |list| < 2
    ensures v.Fails? ==> v.fault.NoRowsReturned? || v.fault.IndexOutOfBounds?
    ensures v == Alert <==> rowCount > 0 && |list| >= 2 && !EqualsIgnoreCase(list[0], list[1])
  {
    if rowCount == 0 then Fails(NoRowsReturned)
    else if |list| < 2 then Fails(IndexOutOfBounds)
    else if EqualsIgnoreCase(list[0], list[1]) then Quiet
    else Alert
  }

  /** `sendEmail`: a null user throws; a user without an address gets nothing. */
  function Notify(outbox: seq<Email>, e: AuthEvent, user: Option<User>, location: string): (r: (seq<Email>, Outcome))
    ensures r.1 == (if user.None? then Crashed(NullUser) else Completed)
    ensures !(user.Some? && user.value.email.Some?) ==> r.0 == outbox
    ensures user.Some? && user.value.email.Some? ==>
      |r.0| == |outbox| + 1 && r.0[..|outbox|] == outbox
      && r.0[|outbox|].to == user.value.email.value && r.0[|outbox|].subject == Subject
      && Mentions(r.0[|outbox|].html, location) && Mentions(r.0[|outbox|].html, JavaString(e.ipAddress))
  {
    match user
    case None => (outbox, Crashed(NullUser))
    case Some(u) => (if u.email.Some? then outbox + [AlertEmail(u, e, Notice, location)] else outbox, Completed)
  }

  /** `checkUserLocation` on the list and outbox it starts from and the rows it reads. */
  function Check(list: seq<string>, outbox: seq<Email>, rows: seq<Row>, e: AuthEvent, user: Option<User>): (c: CheckState)
    ensures c.locationList == list + ParsedLocations(rows)
    ensures c.outcome == Crashed(NoRowsReturned) <==> |rows| == 0
    ensures c.outcome == Crashed(IndexOutOfBounds) <==> |rows| > 0 && |c.locationList| < 2
    ensures c.outcome == Crashed(NullUser) <==>
      |rows| > 0 && |c.locationList| >= 2 && !EqualsIgnoreCase(c.locationList[0], c.locationList[1]) && user.None?
    ensures c.outcome.Crashed? ==> c.outbox == outbox
    ensures c.outcome.Crashed? ==> c.outcome.fault in {NoRowsReturned, IndexOutOfBounds, NullUser}
  {
    var list' := list + ParsedLocations(rows);
    match Decide(list', |rows|)
    case Quiet => CheckState(list', outbox, Completed)
    case Fails(f) => CheckState(list', outbox, Crashed(f))
    case Alert =>
      var (outbox', o) := Notify(outbox, e, user, list'[0]);
      CheckState(list', outbox', o)
  }

  /**
   * The check only appends to the list and to the outbox, and sends at most one message:
   * exactly when the first two entries of the list differ ignoring case and the user has an
   * address; that message is addressed to the user and names entry 0 and the login's IP.
   */
  lemma CheckSendsAtMostOne(list: seq<string>, outbox: seq<Email>, rows: seq<Row>, e: AuthEvent, user: Option<User>)
    ensures var c := Check(list, outbox, rows, e, user);
      && (|c.outbox| == |outbox| || |c.outbox| == |outbox| + 1)
      && c.outbox[..|outbox|] == outbox
      && (|c.outbox| == |outbox| + 1 <==>
            |rows| > 0 && |c.locationList| >= 2 && !EqualsIgnoreCase(c.locationList[0], c.locationList[1])
            && user.Some? && user.value.email.Some?)
      && (|c.outbox| == |outbox| + 1 ==>
            var m := c.outbox[|outbox|];
            m.to == user.value.email.value && m.subject == Subject
            && Mentions(m.html, c.locationList[0]) && Mentions(m.html, JavaString(e.ipAddress)))
  {
  }

  /**
   * The list is never cleared: once it holds two entries, every later check takes the same
   * decision, whatever rows it reads, and names the same entry 0.
   */
  lemma CheckComparesOldestEntries(list: seq<string>, outbox: seq<Email>, rows: seq<Row>, e: AuthEvent, user: Option<User>)
    requires |list| >= 2 && |rows| > 0
    ensures var c := Check(list, outbox, rows, e, user);
      c.outbox == (if EqualsIgnoreCase(list[0], list[1]) then outbox else Notify(outbox, e, user, list[0]).0)
  {
  }

  /**
   * A fresh provider compares the two newest logins when the query returns at least two located rows.
   */
  lemma FreshCheckComparesNewestTwo(outbox: seq<Email>, rows: seq<Row>, e: AuthEvent, user: Option<User>)
    requires |rows| >= 2 && rows[0].location.Some? && rows[1].location.Some?
    ensures var c := Check([], outbox, rows, e, user);
      c.outbox == (if EqualsIgnoreCase(rows[0].location.value, rows[1].location.value) then outbox
                   else Notify(outbox, e, user, rows[0].location.value).0)
  {
    assert ParsedLocations(rows)[..2] == [rows[0].location.value, rows[1].location.value];
  }

  /** The first login of a fresh provider throws on `get(1)` when the query finds one row. */
  lemma FirstLoginThrows(outbox: seq<Email>, rows: seq<Row>, e: AuthEvent, user: Option<User>)
    requires |rows| == 1
    ensures Check([], outbox, rows, e, user) == CheckState(ParsedLocations(rows), outbox, Crashed(IndexOutOfBounds))
  {
  }

  /**
   * While every row read and every list entry is the unresolved marker, a check keeps the
   * list unresolved and sends nothing.
   */
  lemma UnresolvedCheckSendsNothing(list: seq<string>, outbox: seq<Email>, rows: seq<Row>, e: AuthEvent, user: Option<User>)
    requires forall k :: 0 <= k < |rows| ==> rows[k].location == Some(UnknownLocation)
    requires forall k :: 0 <= k < |list| ==> list[k] == UnknownLocation
    ensures var c := Check(list, outbox, rows, e, user);
      c.outbox == outbox && forall k :: 0 <= k < |c.locationList| ==> c.locationList[k] == UnknownLocation
  {
    var list' := list + ParsedLocations(rows);
    UnresolvedAfterCheck(list, rows);
    if |list'| >= 2 {
      assert list'[0] == list'[1];
    }
    EqualEntriesSendNothing(list, outbox, rows, e, user);
  }

  /** When entries 0 and 1 of the list are equal after reading, the check sends nothing. */
  lemma EqualEntriesSendNothing(list: seq<string>, outbox: seq<Email>, rows: seq<Row>, e: AuthEvent, user: Option<User>)
    requires var l := list + ParsedLocations(rows); |l| >= 2 ==> l[0] == l[1]
    ensures Check(list, outbox, rows, e, user).outbox == outbox
  {
    var l := list + ParsedLocations(rows);
    if |l| >= 2 {
      EqualsIgnoreCaseReflexive(l[0]);
    }
  }

  class Provider {
    const excludedEvents: Option<set<EventType>>
    const excludedAdminOperations: Option<set<OperationType>>
    const influxDB: Database
    const influxDBName: string
    const influxDBRetention: string
    /** Every location read by every check so far, in reading order. */
    var locationList: seq<string>
    /** The messages handed to the mail transport. */
    var outbox: seq<Email>

    constructor (excludedEvents: Option<set<EventType>>, excludedAdminOperations: Option<set<OperationType>>,
                 influxDB: Database, influxDBName: string, influxDBRetention: string)
      ensures this.excludedEvents == excludedEvents && this.excludedAdminOperations == excludedAdminOperations
      ensures this.influxDB == influxDB && this.influxDBName == influxDBName && this.influxDBRetention == influxDBRetention
      ensures locationList == [] && outbox == []
    {
      this.excludedEvents := excludedEvents;
      this.excludedAdminOperations := excludedAdminOperations;
      this.influxDB := influxDB;
      this.influxDBName := influxDBName;
      this.influxDBRetention := influxDBRetention;
      locationList := [];
      outbox := [];
    }

    predicate IsExcluded(t: EventType) {
      excludedEvents.Some? && t in excludedEvents.value
    }

    predicate IsExcludedOperation(op: OperationType) {
      excludedAdminOperations.Some? && op in excludedAdminOperations.value
    }

    /** The rows the check reads for event `e`. */
    function History(e: AuthEvent): seq<Row>
      reads influxDB
    {
      RecentLogins(influxDB.points, influxDBName, JavaString(e.userId))
    }

    /**
     * Every event point in the store and every entry of the list is the unresolved marker.
     * Since `ipToLocation` never answers, the provider keeps this once it holds.
     */
    ghost predicate Unresolved()
      reads this, influxDB
    {
      (forall sp :: sp in influxDB.points && sp.point.measurement == QueryMeasurement ==> Field(sp.point, "location") == Some(UnknownLocation))
      && forall k :: 0 <= k < |locationList| ==> locationList[k] == UnknownLocation
    }

    /**
     * `onEvent(Event)`: an excluded type or a type other than LOGIN changes nothing; a LOGIN
     * with a null address throws before anything is written; any other LOGIN appends
     * exactly one event point and then runs the location check on the user's history,
     * which then includes that point.
     */
    method OnEvent(e: AuthEvent, user: Option<User>) returns (o: Outcome)
      modifies this, influxDB
      ensures IsExcluded(e.eventType) || e.eventType != Login ==>
        o == Completed && influxDB.points == old(influxDB.points)
        && locationList == old(locationList) && outbox == old(outbox)
      ensures !IsExcluded(e.eventType) && e.eventType == Login && e.ipAddress.None? ==>
        o == Crashed(NullIpAddress) && influxDB.points == old(influxDB.points)
        && locationList == old(locationList) && outbox == old(outbox)
      ensures !IsExcluded(e.eventType) && e.eventType == Login && e.ipAddress.Some? ==>
        influxDB.points == old(influxDB.points) + [StoredPoint(influxDBName, influxDBRetention, EventPoint(e).value)]
        && CheckState(locationList, outbox, o) == Check(old(locationList), old(outbox), History(e), e, user)
      ensures old(Unresolved()) ==> Unresolved() && outbox == old(outbox)
    {
      if IsExcluded(e.eventType) {
        return Completed;
      } else if e.eventType == Login {
        o := ToInfluxDB(e);
        if o.Crashed? {
          return;
        }
        o := CheckUserLocation(e, user);
      } else {
        o := Completed;
      }
    }

    /** `onEvent(AdminEvent, boolean)`: one admin point unless the operation is excluded. */
    method OnAdminEvent(e: AdminEvent, includeRepresentation: bool)
      modifies influxDB
      ensures IsExcludedOperation(e.operationType) ==> influxDB.points == old(influxDB.points)
      ensures !IsExcludedOperation(e.operationType) ==>
        influxDB.points == old(influxDB.points) + [StoredPoint(influxDBName, influxDBRetention, AdminPoint(e))]
      ensures old(Unresolved()) ==> Unresolved()
    {
      if !IsExcludedOperation(e.operationType) {
        ToInfluxDBAdmin(e);
      }
    }

    /** `toInfluxDB(Event)`: builds the point and writes it; a null address throws first. */
    method ToInfluxDB(e: AuthEvent) returns (o: Outcome)
      modifies influxDB
      ensures e.ipAddress.None? ==> o == Crashed(NullIpAddress) && influxDB.points == old(influxDB.points)
      ensures e.ipAddress.Some? ==>
        o == Completed
        && influxDB.points == old(influxDB.points) + [StoredPoint(influxDBName, influxDBRetention, EventPoint(e).value)]
      ensures old(Unresolved()) ==> Unresolved()
    {
      var r := EventPoint(e);
      match r
      case Err(f) =>
        o := Crashed(f);
      case Ok(p) =>
        influxDB.Write(influxDBName, influxDBRetention, p);
        o := Completed;
    }

    /** `toInfluxDB(AdminEvent)`. */
    method ToInfluxDBAdmin(e: AdminEvent)
      modifies influxDB
      ensures influxDB.points == old(influxDB.points) + [StoredPoint(influxDBName, influxDBRetention, AdminPoint(e))]
      ensures old(Unresolved()) ==> Unresolved()
    {
      influxDB.Write(influxDBName, influxDBRetention, AdminPoint(e));
    }

    /**
     * `checkUserLocation`: appends the location of each row read (newest first) to the list,
     * then decides on entries 0 and 1 of the whole list.
     */
    method CheckUserLocation(e: AuthEvent, user: Option<User>) returns (o: Outcome)
      modifies this
      ensures CheckState(locationList, outbox, o) == Check(old(locationList), old(outbox), old(History(e)), e, user)
      ensures old(Unresolved()) ==> Unresolved() && outbox == old(outbox)
    {
      ghost var unresolved := Unresolved();
      var rows := History(e);
      if unresolved {
        UnresolvedHistory(e, user);
      }
      ghost var c := Check(locationList, outbox, rows, e, user);
      if |rows| == 0 {
        assert c == CheckState(locationList, outbox, Crashed(NoRowsReturned));
        return Crashed(NoRowsReturned);
      }
      ReadLocations(rows);
      assert locationList == c.locationList;
      if |locationList| < 2 {
        assert c == CheckState(locationList, outbox, Crashed(IndexOutOfBounds));
        return Crashed(IndexOutOfBounds);
      }
      if !EqualsIgnoreCase(locationList[0], locationList[1]) {
        assert Decide(locationList, |rows|) == Alert;
        o := SendEmail(e, user);
      } else {
        assert c == CheckState(locationList, outbox, Completed);
        o := Completed;
      }
    }

    /** An unresolved provider's check sends nothing and leaves the provider unresolved. */
    lemma UnresolvedHistory(e: AuthEvent, user: Option<User>)
      requires Unresolved()
      ensures var c := Check(locationList, outbox, History(e), e, user);
        c.outbox == outbox && forall k :: 0 <= k < |c.locationList| ==> c.locationList[k] == UnknownLocation
    {
      RecentLoginsLocations(influxDB.points, influxDBName, JavaString(e.userId), UnknownLocation);
      UnresolvedCheckSendsNothing(locationList, outbox, History(e), e, user);
    }

    /** The loop of `checkUserLocation`: appends each row's location until one is not a string. */
    method ReadLocations(rows: seq<Row>)
      modifies this`locationList
      ensures locationList == old(locationList) + ParsedLocations(rows)
    {
      var i := 0;
      while i < |rows|
        invariant 0 <= i <= |rows|
        invariant old(locationList) + ParsedLocations(rows) == locationList + ParsedLocations(rows[i..])
      {
        if rows[i].location.None? {
          break;
        }
        assert rows[i..][1..] == rows[i + 1..];
        locationList := locationList + [rows[i].location.value];
        i := i + 1;
      }
    }

    /** `sendEmail`: the message names entry 0 of the list. */
    method SendEmail(e: AuthEvent, user: Option<User>) returns (o: Outcome)
      requires |locationList| > 0
      modifies this`outbox
      ensures (outbox, o) == Notify(old(outbox), e, user, locationList[0])
    {
      match user
      case None =>
        o := Crashed(NullUser);
      case Some(u) =>
        if u.email.Some? {
          outbox := outbox + [AlertEmail(u, e, Notice, locationList[0])];
        }
        o := Completed;
    }
  }
}
