/**
 * The time-series store: an append-only log of points, and the one query the listeners
 * issue against it ("ipAddress", "userId" and "location" of the user's last three
 * events, newest first).
 */
module Store {
  import opened Wrappers

  /** A point as written: measurement name, tag set, field set and time in milliseconds. */
  datatype Point = Point(measurement: string, tags: map<string, string>, fields: map<string, string>, time: int)

  /** A point together with the database and retention policy it was written to. */
  datatype StoredPoint = StoredPoint(database: string, retention: string, point: Point)

  /** One row of the query result: the time column and the three selected columns. */
  datatype Row = Row(time: int, ipAddress: Option<string>, userId: Option<string>, location: Option<string>)

  /** The query reads the retention policy "14d" whatever the configured one is. */
  const QueryRetention := "14d"
  const QueryMeasurement := "event"
  const QueryLimit := 3

  /** The value of a field, or null when the point does not carry it. */
  function Field(p: Point, name: string): Option<string> {
    if name in p.fields then Some(p.fields[name]) else None
  }

  /**
   * The query's FROM and WHERE clauses: the configured database, the retention policy
   * written into the query, the `event` measurement, and a `userId` field equal to the id.
   */
  function Matches(sp: StoredPoint, database: string, userId: string): (r: bool)
    ensures r <==> sp.database == database && sp.retention == "14d" && sp.point.measurement == "event"
                   && "userId" in sp.point.fields && sp.point.fields["userId"] == userId
  {
    sp.database == database && sp.retention == QueryRetention
    && sp.point.measurement == QueryMeasurement && Field(sp.point, "userId") == Some(userId)
  }

  /** The matching points, in the order they were written. */
  function Matching(ps: seq<StoredPoint>, database: string, userId: string): (m: seq<StoredPoint>)
    ensures |m| <= |ps|
    ensures forall sp :: sp in m <==> sp in ps && Matches(sp, database, userId)
  {
    if ps == [] then []
    else
      var init := ps[..|ps| - 1];
      assert ps == init + [ps[|ps| - 1]];
      Matching(init, database, userId) + (if Matches(ps[|ps| - 1], database, userId) then [ps[|ps| - 1]] else [])
  }

  lemma MatchingAppend(ps: seq<StoredPoint>, sp: StoredPoint, database: string, userId: string)
    ensures Matching(ps + [sp], database, userId)
         == Matching(ps, database, userId) + (if Matches(sp, database, userId) then [sp] else [])
  {
    assert (ps + [sp])[..|ps|] == ps;
  }

  /** Later points come no later than earlier ones: ORDER BY time DESC. */
  predicate NewestFirst(s: seq<StoredPoint>) {
    forall i, j :: 0 <= i < j < |s| ==> s[i].point.time >= s[j].point.time
  }

  /** Puts `x` before the first point that is not newer than it. */
  function Insert(x: StoredPoint, s: seq<StoredPoint>): seq<StoredPoint> {
    if s == [] || x.point.time >= s[0].point.time then [x] + s
    else [s[0]] + Insert(x, s[1..])
  }

  lemma {:induction false} InsertPermutes(x: StoredPoint, s: seq<StoredPoint>)
    ensures multiset(Insert(x, s)) == multiset(s) + multiset{x}
  {
    if s != [] && x.point.time < s[0].point.time {
      InsertPermutes(x, s[1..]);
      assert s == [s[0]] + s[1..];
    }
  }

  lemma {:induction false} InsertKeepsOrder(x: StoredPoint, s: seq<StoredPoint>)
    requires NewestFirst(s)
    ensures NewestFirst(Insert(x, s))
  {
    if s != [] && x.point.time < s[0].point.time {
      var rest := Insert(x, s[1..]);
      InsertKeepsOrder(x, s[1..]);
      InsertPermutes(x, s[1..]);
      forall j | 0 <= j < |rest| ensures s[0].point.time >= rest[j].point.time {
        assert rest[j] in multiset(rest);
        if rest[j] != x {
          assert rest[j] in multiset(s[1..]);
          var i :| 0 <= i < |s[1..]| && s[1..][i] == rest[j];
          assert s[i + 1] == rest[j];
        }
      }
    }
  }

  /** A stable sort, newest first; of two points with the same time the later write comes first. */
  function SortNewestFirst(s: seq<StoredPoint>): seq<StoredPoint> {
    if s == [] then [] else Insert(s[|s| - 1], SortNewestFirst(s[..|s| - 1]))
  }

  /** The sort returns a permutation of its input, newest first. */
  lemma {:induction false} SortNewestFirstCorrect(s: seq<StoredPoint>)
    ensures multiset(SortNewestFirst(s)) == multiset(s)
    ensures NewestFirst(SortNewestFirst(s))
  {
    if s != [] {
      var init := s[..|s| - 1];
      SortNewestFirstCorrect(init);
      InsertPermutes(s[|s| - 1], SortNewestFirst(init));
      InsertKeepsOrder(s[|s| - 1], SortNewestFirst(init));
      assert s == init + [s[|s| - 1]];
    }
  }

  /** The row the store returns for a point. */
  function RowOf(sp: StoredPoint): Row {
    Row(sp.point.time, Field(sp.point, "ipAddress"), Field(sp.point, "userId"), Field(sp.point, "location"))
  }

  function Rows(s: seq<StoredPoint>): (r: seq<Row>)
    ensures |r| == |s| && forall k :: 0 <= k < |s| ==> r[k] == RowOf(s[k])
  {
    seq(|s|, k requires 0 <= k < |s| => RowOf(s[k]))
  }

  /** The first three points of a newest-first permutation of `m` are three of `m`'s newest. */
  lemma TopOfSorted(s: seq<StoredPoint>, m: seq<StoredPoint>)
    requires multiset(s) == multiset(m) && NewestFirst(s)
    ensures var n := if |s| <= QueryLimit then s else s[..QueryLimit];
            && |n| == (if |m| < QueryLimit then |m| else QueryLimit)
            && NewestFirst(n)
            && forall k :: 0 <= k < |n| ==> n[k] in m
  {
    assert |s| == |multiset(s)| == |multiset(m)| == |m|;
    forall k | 0 <= k < |s| ensures s[k] in m {
      assert s[k] in multiset(s);
    }
  }

  /**
   * The newest matching points, at most three, newest first: the first three of the
   * matching points sorted newest first.
   */
  function Newest(ps: seq<StoredPoint>, database: string, userId: string): (n: seq<StoredPoint>)
    ensures |n| == if |Matching(ps, database, userId)| < QueryLimit then |Matching(ps, database, userId)| else QueryLimit
    ensures NewestFirst(n)
    ensures forall k :: 0 <= k < |n| ==> n[k] in Matching(ps, database, userId)
    ensures exists s :: multiset(s) == multiset(Matching(ps, database, userId)) && NewestFirst(s)
                        && n == (if |s| <= QueryLimit then s else s[..QueryLimit])
  {
    var m := Matching(ps, database, userId);
    var sorted := SortNewestFirst(m);
    SortNewestFirstCorrect(m);
    TopOfSorted(sorted, m);
    if |sorted| <= QueryLimit then sorted else sorted[..QueryLimit]
  }

  /** The rows of the query for `userId` in `database`. */
  function RecentLogins(ps: seq<StoredPoint>, database: string, userId: string): (rows: seq<Row>)
    ensures |rows| <= QueryLimit
  {
    Rows(Newest(ps, database, userId))
  }

  /**
   * The query returns min(3, n) rows of the n matching points, all of them the user's and
   * newest first; row 0 is no older than any matching point, and every row is a matching point's.
   * More precisely, the rows are those of the first three points of the matching points
   * sorted newest first, so no point is read twice and rows 1 and 2 are the next newest.
   */
  lemma RecentLoginsShape(ps: seq<StoredPoint>, database: string, userId: string)
    ensures var m := Matching(ps, database, userId);
            var rows := RecentLogins(ps, database, userId);
            && |rows| == (if |m| < QueryLimit then |m| else QueryLimit)
            && (forall k :: 0 <= k < |rows| ==> rows[k].userId == Some(userId))
            && (forall i, j :: 0 <= i < j < |rows| ==> rows[i].time >= rows[j].time)
            && (forall k :: 0 <= k < |rows| ==> exists sp :: sp in m && rows[k] == RowOf(sp))
            && (|rows| > 0 ==> forall sp :: sp in m ==> sp.point.time <= rows[0].time)
            && exists s :: multiset(s) == multiset(m) && NewestFirst(s)
                           && rows == Rows(if |s| <= QueryLimit then s else s[..QueryLimit])
  {
    var m := Matching(ps, database, userId);
    var sorted := SortNewestFirst(m);
    var newest := Newest(ps, database, userId);
    SortNewestFirstCorrect(m);
    assert newest == (if |sorted| <= QueryLimit then sorted else sorted[..QueryLimit]);
    var rows := RecentLogins(ps, database, userId);
    assert rows == Rows(newest);
    forall k | 0 <= k < |rows| ensures exists sp :: sp in m && rows[k] == RowOf(sp) {
      assert newest[k] in m && rows[k] == RowOf(newest[k]);
    }
    if |newest| > 0 {
      SortedHeadIsNewest(sorted, m);
      assert newest[0] == sorted[0];
    }
  }

  /** The head of a newest-first permutation of `m` is no older than any point of `m`. */
  lemma SortedHeadIsNewest(s: seq<StoredPoint>, m: seq<StoredPoint>)
    requires multiset(s) == multiset(m) && NewestFirst(s) && |s| > 0
    ensures forall sp :: sp in m ==> sp.point.time <= s[0].point.time
  {
    forall sp | sp in m ensures sp.point.time <= s[0].point.time {
      assert sp in multiset(s);
      var j :| 0 <= j < |s| && s[j] == sp;
    }
  }

  /**
   * Read-after-write: once a matching point newer than (or as new as) every other matching
   * point is written, it is the first row of the query.
   */
  lemma RecentLoginsSeeOwnWrite(ps: seq<StoredPoint>, sp: StoredPoint, database: string, userId: string)
    requires Matches(sp, database, userId)
    requires forall q :: q in Matching(ps, database, userId) ==> q.point.time <= sp.point.time
    ensures RecentLogins(ps + [sp], database, userId) != []
    ensures RecentLogins(ps + [sp], database, userId)[0] == RowOf(sp)
  {
    MatchingAppend(ps, sp, database, userId);
    var m := Matching(ps, database, userId);
    var m' := Matching(ps + [sp], database, userId);
    assert m' == m + [sp];
    assert m'[..|m'| - 1] == m;
    var sorted := SortNewestFirst(m);
    SortNewestFirstCorrect(m);
    assert SortNewestFirst(m') == Insert(sp, sorted);
    if sorted != [] {
      assert sorted[0] in multiset(m);
    }
    assert Insert(sp, sorted)[0] == sp;
  }

  /** A point written under any retention policy other than "14d" is invisible to the query. */
  lemma RecentLoginsIgnoreOtherRetention(ps: seq<StoredPoint>, sp: StoredPoint, database: string, userId: string)
    requires sp.retention != QueryRetention
    ensures RecentLogins(ps + [sp], database, userId) == RecentLogins(ps, database, userId)
  {
    MatchingAppend(ps, sp, database, userId);
    assert Matching(ps + [sp], database, userId) == Matching(ps, database, userId);
  }

  /** When every event point carries location `loc`, every row of the query does too. */
  lemma RecentLoginsLocations(ps: seq<StoredPoint>, database: string, userId: string, loc: string)
    requires forall sp :: sp in ps && sp.point.measurement == QueryMeasurement ==> Field(sp.point, "location") == Some(loc)
    ensures forall k :: 0 <= k < |RecentLogins(ps, database, userId)| ==> RecentLogins(ps, database, userId)[k].location == Some(loc)
  {
    RecentLoginsShape(ps, database, userId);
  }

  /**
   * The locations the listeners' parsing loop reads from the rows, in order: the loop
   * stops at the first row whose location column is not a string (the JSONException is
   * caught around the whole loop).
   */
  function ParsedLocations(rows: seq<Row>): (locs: seq<string>)
    ensures |locs| <= |rows|
    ensures forall k :: 0 <= k < |locs| ==> rows[k].location == Some(locs[k])
    ensures |locs| < |rows| ==> rows[|locs|].location.None?
  {
    if rows == [] || rows[0].location.None? then []
    else [rows[0].location.value] + ParsedLocations(rows[1..])
  }

  /** When every row has a location, all of them are read. */
  lemma ParsedLocationsComplete(rows: seq<Row>)
    requires forall k :: 0 <= k < |rows| ==> rows[k].location.Some?
    ensures |ParsedLocations(rows)| == |rows|
  {
  }

  /** The store connection: writes append to the log. */
  class Database {
    var points: seq<StoredPoint>

    constructor ()
      ensures points == []
    {
      points := [];
    }

    /** `influxDB.write(database, retention, point)`. */
    method Write(database: string, retention: string, p: Point)
      modifies this
      ensures points == old(points) + [StoredPoint(database, retention, p)]
    {
      points := points + [StoredPoint(database, retention, p)];
    }
  }
}
