/** The sensor tables `distance1` and `distance2` and `DistanceModel`'s operations on them:
    validation, append, newest-first queries, the merged query, latest reading, statistics and
    retention. Times are seconds; `now` stands for the database's NOW(). */
module DistanceModel {
  import opened Js

  datatype Sensor = One | Two

  /** `distance${sensorType}`. */
  function TableName(sensor: Sensor): string
  {
    if sensor == One then "distance1" else "distance2"
  }

  /** The `sensorType` string the routes pass: "1" or "2". */
  function SensorType(sensor: Sensor): string
  {
    if sensor == One then "1" else "2"
  }

  /** One row of a sensor table. */
  datatype Reading = Reading(id: nat, distances: real, status: string, timestamp: int)

  /** One row of the merged query: the row and the name of the table it came from. */
  datatype Tagged = Tagged(source: string, reading: Reading)

  function Timestamp(r: Reading): int { r.timestamp }

  function TaggedTimestamp(t: Tagged): int { t.reading.timestamp }

  // The messages are written in pieces so that proofs can point at the marker inside each.
  const MissingFields := "Missing required fields" + ": distances and status"
  const DistancesNotNumber := "distances " + "must be" + " a number"
  const StatusNotString := "status " + "must be" + " a string"
  const DistancesNegative := "distances " + "must be" + " a positive number"
  const StatusInvalid := "status " + "must be" + " one of: online, offline, 1, 0, true, false"
  const ValidStatuses: seq<string> := ["online", "offline", "1", "0", "true", "false"]

  /** `validateDistanceData`: presence, then types, then range, then the status list, compared
      after lower-casing. */
  function ValidateDistanceData(distances: Value, status: Value): (o: Outcome<()>)
    ensures o.Done? <==> distances.Num? && distances.x >= 0.0 && status.Str? && ToLower(status.s) in ValidStatuses
    ensures o == Thrown(MissingFields) <==> distances == Undefined || status == Undefined
    ensures o.Thrown? ==> o.message in {MissingFields, DistancesNotNumber, StatusNotString, DistancesNegative, StatusInvalid}
    ensures distances != Undefined && status != Undefined && !distances.Num? ==> o == Thrown(DistancesNotNumber)
    ensures distances.Num? && status != Undefined && !status.Str? ==> o == Thrown(StatusNotString)
    ensures distances.Num? && status.Str? && distances.x < 0.0 ==> o == Thrown(DistancesNegative)
    ensures distances.Num? && distances.x >= 0.0 && status.Str? && ToLower(status.s) !in ValidStatuses ==> o == Thrown(StatusInvalid)
  {
    if distances == Undefined || status == Undefined then Thrown(MissingFields)
    else if !distances.Num? then Thrown(DistancesNotNumber)
    else if !status.Str? then Thrown(StatusNotString)
    else if distances.x < 0.0 then Thrown(DistancesNegative)
    else if ToLower(status.s) !in ValidStatuses then Thrown(StatusInvalid)
    else Done(())
  }

  /** `s` is ordered by `key`, largest first (ORDER BY ... DESC). */
  ghost predicate NewestFirst<T>(s: seq<T>, key: T -> int)
  {
    forall i, j :: 0 <= i < j < |s| ==> key(s[i]) >= key(s[j])
  }

  /** A row no older than anything in a newest-first sequence can go in front of it. */
  lemma PrependNewest<T>(h: T, s: seq<T>, key: T -> int)
    requires NewestFirst(s, key)
    requires forall k :: 0 <= k < |s| ==> key(s[k]) <= key(h)
    ensures NewestFirst([h] + s, key)
  {
    var r := [h] + s;
    forall i, j | 0 <= i < j < |r| ensures key(r[i]) >= key(r[j]) {
      if i > 0 {
        assert r[i] == s[i - 1] && r[j] == s[j - 1];
      } else {
        assert r[j] == s[j - 1];
      }
    }
  }

  /** When `x` is older than the head, the head is no older than anything `x` was inserted among. */
  lemma HeadBoundsInsertion<T>(x: T, s: seq<T>, rest: seq<T>, key: T -> int)
    requires NewestFirst(s, key) && s != [] && key(x) < key(s[0])
    requires multiset(rest) == multiset(s[1..]) + multiset{x}
    ensures forall k :: 0 <= k < |rest| ==> key(rest[k]) <= key(s[0])
  {
    forall k | 0 <= k < |rest| ensures key(rest[k]) <= key(s[0]) {
      assert rest[k] in multiset(rest);
      if rest[k] != x {
        assert rest[k] in s[1..];
        var j :| 0 <= j < |s[1..]| && s[1..][j] == rest[k];
        assert s[j + 1] == rest[k];
      }
    }
  }

  /** Places `x` into a newest-first sequence. */
  function InsertNewestFirst<T(==)>(x: T, s: seq<T>, key: T -> int): (r: seq<T>)
    requires NewestFirst(s, key)
    ensures NewestFirst(r, key)
    ensures multiset(r) == multiset(s) + multiset{x}
    ensures |r| == |s| + 1
  {
    if s == [] || key(x) >= key(s[0]) then
      PrependNewest(x, s, key);
      [x] + s
    else
      assert s == [s[0]] + s[1..];
      var rest := InsertNewestFirst(x, s[1..], key);
      HeadBoundsInsertion(x, s, rest, key);
      PrependNewest(s[0], rest, key);
      [s[0]] + rest
  }

  /** ORDER BY key DESC over a whole table; ties are left in an order the database may also pick. */
  function SortNewestFirst<T(==)>(s: seq<T>, key: T -> int): (r: seq<T>)
    ensures NewestFirst(r, key)
    ensures multiset(r) == multiset(s)
    ensures |r| == |s|
  {
    if s == [] then []
    else
      assert s == [s[0]] + s[1..];
      InsertNewestFirst(s[0], SortNewestFirst(s[1..], key), key)
  }

  /** LIMIT n. */
  function Take<T>(s: seq<T>, n: nat): (r: seq<T>)
    ensures |r| == if n <= |s| then n else |s|
    ensures r == s[..|r|]
  {
    if n <= |s| then s[..n] else s
  }

  /** The first `n` of a newest-first sequence are its newest rows: whatever is cut off is no
      newer than anything kept. */
  lemma {:induction false} TakeKeepsNewest<T>(s: seq<T>, n: nat, key: T -> int)
    requires NewestFirst(s, key)
    ensures NewestFirst(Take(s, n), key)
    ensures multiset(Take(s, n)) <= multiset(s)
    ensures forall x, y :: x in multiset(s) - multiset(Take(s, n)) && y in Take(s, n) ==> key(x) <= key(y)
  {
    var t := Take(s, n);
    var rest := s[|t|..];
    assert s == t + rest;
    assert multiset(s) == multiset(t) + multiset(rest);
    forall x, y | x in multiset(s) - multiset(t) && y in t ensures key(x) <= key(y) {
      assert x in rest;
      var j :| 0 <= j < |rest| && rest[j] == x;
      var i :| 0 <= i < |t| && t[i] == y;
      assert s[i] == y && s[|t| + j] == x;
    }
  }

  /** The rows of `rows` tagged with the table they came from. */
  function Tag(source: string, rows: seq<Reading>): (r: seq<Tagged>)
    ensures |r| == |rows|
    ensures forall i :: 0 <= i < |r| ==> r[i] == Tagged(source, rows[i])
  {
    seq(|rows|, i requires 0 <= i < |rows| => Tagged(source, rows[i]))
  }

  /** The rows with `timestamp >= cutoff`, in their table order; DELETE ... WHERE timestamp < cutoff
      leaves exactly these. */
  function Retained(rows: seq<Reading>, cutoff: int): (r: seq<Reading>)
    ensures forall x :: x in r <==> x in rows && x.timestamp >= cutoff
    ensures forall x :: multiset(r)[x] == if x.timestamp >= cutoff then multiset(rows)[x] else 0
    ensures |r| <= |rows|
  {
    if rows == [] then []
    else
      assert rows == [rows[0]] + rows[1..];
      var rest := Retained(rows[1..], cutoff);
      assert forall x :: x in rows <==> x == rows[0] || x in rows[1..];
      if rows[0].timestamp >= cutoff then [rows[0]] + rest else rest
  }

  /** MIN(distances) over a non-empty set of rows. */
  function MinDistance(rows: seq<Reading>): (m: real)
    requires rows != []
    ensures exists i :: 0 <= i < |rows| && rows[i].distances == m
    ensures forall i :: 0 <= i < |rows| ==> m <= rows[i].distances
  {
    if |rows| == 1 then rows[0].distances
    else
      var rest := MinDistance(rows[1..]);
      assert forall i :: 1 <= i < |rows| ==> rows[i] == rows[1..][i - 1];
      if rows[0].distances <= rest then rows[0].distances else rest
  }

  /** MAX(distances) over a non-empty set of rows. */
  function MaxDistance(rows: seq<Reading>): (m: real)
    requires rows != []
    ensures exists i :: 0 <= i < |rows| && rows[i].distances == m
    ensures forall i :: 0 <= i < |rows| ==> rows[i].distances <= m
  {
    if |rows| == 1 then rows[0].distances
    else
      var rest := MaxDistance(rows[1..]);
      assert forall i :: 1 <= i < |rows| ==> rows[i] == rows[1..][i - 1];
      if rows[0].distances >= rest then rows[0].distances else rest
  }

  /** The time window is empty exactly when every row is older than the cutoff. */
  lemma RetainedEmpty(rows: seq<Reading>, cutoff: int)
    ensures Retained(rows, cutoff) == [] <==> forall x :: x in rows ==> x.timestamp < cutoff
  {
    var window := Retained(rows, cutoff);
    if window != [] {
      assert window[0] in window;
    }
  }

  /** `lo` and `hi` are the smallest and largest `distances` among the rows at or after `cutoff`. */
  ghost predicate WindowExtremes(rows: seq<Reading>, cutoff: int, lo: real, hi: real)
  {
    && (exists x :: x in rows && x.timestamp >= cutoff && x.distances == lo)
    && (exists x :: x in rows && x.timestamp >= cutoff && x.distances == hi)
    && (forall x :: x in rows && x.timestamp >= cutoff ==> lo <= x.distances <= hi)
  }

  /** MIN and MAX over the retained rows are the extremes of the time window. */
  lemma WindowMinMax(rows: seq<Reading>, cutoff: int)
    requires Retained(rows, cutoff) != []
    ensures WindowExtremes(rows, cutoff, MinDistance(Retained(rows, cutoff)), MaxDistance(Retained(rows, cutoff)))
  {
    var window := Retained(rows, cutoff);
    var lo, hi := MinDistance(window), MaxDistance(window);
    var i :| 0 <= i < |window| && window[i].distances == lo;
    var j :| 0 <= j < |window| && window[j].distances == hi;
    assert window[i] in window && window[j] in window;
    forall x | x in rows && x.timestamp >= cutoff ensures lo <= x.distances <= hi {
      var k :| 0 <= k < |window| && window[k] == x;
    }
  }

  /** The reply of `insertDistanceData`. */
  datatype Inserted = Inserted(message: string, id: nat, distances: real, status: string, timestamp: int, sensorType: string)

  /** The integer part of the reply of `getDistanceStatistics`. */
  datatype Statistics = Statistics(sensor: string, periodHours: int, totalReadings: nat, minDistance: real, maxDistance: real)

  /** The reply of `cleanupOldData`. */
  datatype Cleaned = Cleaned(message: string, deletedRecords: nat, sensor: string, daysKept: int)

  /** DATE_SUB(now, INTERVAL hours HOUR). */
  function HoursBefore(now: int, hours: int): int { now - hours * 3600 }

  /** DATE_SUB(now, INTERVAL days DAY). */
  function DaysBefore(now: int, days: int): int { now - days * 86400 }

  /** The two sensor tables with their AUTO_INCREMENT counters. */
  class DistanceTables {
    var distance1: seq<Reading>
    var distance2: seq<Reading>
    var nextId1: nat
    var nextId2: nat

    constructor Load(rows1: seq<Reading>, rows2: seq<Reading>, next1: nat, next2: nat)
      ensures distance1 == rows1 && distance2 == rows2 && nextId1 == next1 && nextId2 == next2
    {
      distance1, distance2, nextId1, nextId2 := rows1, rows2, next1, next2;
    }

    function Rows(sensor: Sensor): seq<Reading>
      reads this
    {
      if sensor == One then distance1 else distance2
    }

    function NextId(sensor: Sensor): nat
      reads this
    {
      if sensor == One then nextId1 else nextId2
    }

    /** `insertDistanceData`: validation before any write, then one row appended and echoed;
        the status is stored as sent, not lower-cased. */
    method InsertDistanceData(sensor: Sensor, distances: Value, status: Value, now: int) returns (o: Outcome<Inserted>)
      modifies this
      ensures ValidateDistanceData(distances, status).Thrown? ==>
        && o == Thrown(ValidateDistanceData(distances, status).message)
        && distance1 == old(distance1) && distance2 == old(distance2)
        && nextId1 == old(nextId1) && nextId2 == old(nextId2)
      ensures ValidateDistanceData(distances, status).Done? ==>
        && distances.Num? && status.Str?
        && var row := Reading(old(NextId(sensor)), distances.x, status.s, now);
        && Rows(sensor) == old(Rows(sensor)) + [row]
        && NextId(sensor) == old(NextId(sensor)) + 1
        && o == Done(Inserted((if sensor == One then "Distance1" else "Distance2") + " data inserted successfully",
                              row.id, row.distances, row.status, now, SensorType(sensor)))
      ensures sensor == One ==> distance2 == old(distance2) && nextId2 == old(nextId2)
      ensures sensor == Two ==> distance1 == old(distance1) && nextId1 == old(nextId1)
    {
      var check := ValidateDistanceData(distances, status);
      if check.Thrown? {
        return Thrown(check.message);
      }
      var row := Reading(NextId(sensor), distances.x, status.s, now);
      if sensor == One {
        distance1 := distance1 + [row];
        nextId1 := nextId1 + 1;
      } else {
        distance2 := distance2 + [row];
        nextId2 := nextId2 + 1;
      }
      o := Done(Inserted((if sensor == One then "Distance1" else "Distance2") + " data inserted successfully",
                         row.id, row.distances, row.status, now, SensorType(sensor)));
    }

    /** `getDistanceData`: at most `limit` rows of one table, newest first, and no row left out
        is newer than a row returned. */
    function GetDistanceData(sensor: Sensor, limit: nat): (r: seq<Reading>)
      reads this
      ensures |r| == if limit <= |Rows(sensor)| then limit else |Rows(sensor)|
      ensures NewestFirst(r, Timestamp)
      ensures multiset(r) <= multiset(Rows(sensor))
      ensures forall x, y :: x in multiset(Rows(sensor)) - multiset(r) && y in r ==> x.timestamp <= y.timestamp
    {
      var sorted := SortNewestFirst(Rows(sensor), Timestamp);
      TakeKeepsNewest(sorted, limit, Timestamp);
      Take(sorted, limit)
    }

    /** Both tables tagged with their names, as the UNION ALL yields them. */
    function Union(): (u: seq<Tagged>)
      reads this
      ensures |u| == |distance1| + |distance2|
      ensures forall t :: t in u ==>
        (t.source == "distance1" && t.reading in distance1) || (t.source == "distance2" && t.reading in distance2)
      ensures multiset(u) == multiset(Tag("distance1", distance1)) + multiset(Tag("distance2", distance2))
      ensures forall x :: x in distance1 ==> Tagged("distance1", x) in u
      ensures forall x :: x in distance2 ==> Tagged("distance2", x) in u
    {
      var u := Tag("distance1", distance1) + Tag("distance2", distance2);
      assert forall k :: 0 <= k < |u| ==>
        (k < |distance1| && u[k] == Tagged("distance1", distance1[k])) ||
        (k >= |distance1| && u[k] == Tagged("distance2", distance2[k - |distance1|]));
      u
    }

    /** `getAllDistanceData`: at most `limit` rows from both tables, each tagged with its table,
        newest first, and no row left out is newer than a row returned. */
    function GetAllDistanceData(limit: nat): (r: seq<Tagged>)
      reads this
      ensures |r| == if limit <= |distance1| + |distance2| then limit else |distance1| + |distance2|
      ensures NewestFirst(r, TaggedTimestamp)
      ensures multiset(r) <= multiset(Union())
      ensures forall t :: t in r ==>
        (t.source == "distance1" && t.reading in distance1) || (t.source == "distance2" && t.reading in distance2)
      ensures forall x, y :: x in multiset(Union()) - multiset(r) && y in r ==> x.reading.timestamp <= y.reading.timestamp
    {
      var u := Union();
      var sorted := SortNewestFirst(u, TaggedTimestamp);
      TakeKeepsNewest(sorted, limit, TaggedTimestamp);
      var r := Take(sorted, limit);
      assert forall t :: t in r ==> t in multiset(u);
      r
    }

    /** `getLatestReading`: null exactly when the table is empty, otherwise a row no other row is newer than. */
    function GetLatestReading(sensor: Sensor): (r: Option<Reading>)
      reads this
      ensures r.None? <==> Rows(sensor) == []
      ensures r.Some? ==> r.value in Rows(sensor)
      ensures r.Some? ==> forall x :: x in Rows(sensor) ==> x.timestamp <= r.value.timestamp
    {
      var sorted := SortNewestFirst(Rows(sensor), Timestamp);
      if sorted == [] then None
      else
        assert sorted[0] in multiset(Rows(sensor));
        assert forall x :: x in Rows(sensor) ==> x.timestamp <= sorted[0].timestamp by {
          forall x | x in Rows(sensor) ensures x.timestamp <= sorted[0].timestamp {
            assert x in multiset(sorted);
            var k :| 0 <= k < |sorted| && sorted[k] == x;
          }
        }
        Some(sorted[0])
    }

    /** COUNT, MIN and MAX of `distances` over the rows of the last `hours` hours, 0 for an empty window. */
    function GetDistanceStatistics(sensor: Sensor, hours: int, now: int): (s: Statistics)
      reads this
      ensures var cutoff := HoursBefore(now, hours);
        && s.sensor == SensorType(sensor) && s.periodHours == hours
        && s.totalReadings == |Retained(Rows(sensor), cutoff)|
        && (s.totalReadings == 0 <==> forall x :: x in Rows(sensor) ==> x.timestamp < cutoff)
        && (s.totalReadings == 0 ==> s.minDistance == 0.0 && s.maxDistance == 0.0)
        && (s.totalReadings > 0 ==> WindowExtremes(Rows(sensor), cutoff, s.minDistance, s.maxDistance))
    {
      var cutoff := HoursBefore(now, hours);
      var window := Retained(Rows(sensor), cutoff);
      RetainedEmpty(Rows(sensor), cutoff);
      if window == [] then
        Statistics(SensorType(sensor), hours, 0, 0.0, 0.0)
      else
        WindowMinMax(Rows(sensor), cutoff);
        Statistics(SensorType(sensor), hours, |window|, MinDistance(window), MaxDistance(window))
    }

    /** `cleanupOldData`: deletes the rows older than `days` days and reports how many went. */
    method CleanupOldData(sensor: Sensor, days: int, now: int) returns (r: Cleaned)
      modifies this
      ensures Rows(sensor) == Retained(old(Rows(sensor)), DaysBefore(now, days))
      ensures r == Cleaned("Cleaned up old data from " + TableName(sensor), |old(Rows(sensor))| - |Rows(sensor)|,
                           SensorType(sensor), days)
      ensures sensor == One ==> distance2 == old(distance2)
      ensures sensor == Two ==> distance1 == old(distance1)
      ensures nextId1 == old(nextId1) && nextId2 == old(nextId2)
    {
      var before := Rows(sensor);
      var kept := Retained(before, DaysBefore(now, days));
      if sensor == One {
        distance1 := kept;
      } else {
        distance2 := kept;
      }
      r := Cleaned("Cleaned up old data from " + TableName(sensor), |before| - |kept|, SensorType(sensor), days);
    }
  }
}
