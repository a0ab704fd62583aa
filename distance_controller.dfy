/** The distance handlers: query defaults, the sensor-type guard, and the mapping of each
    `DistanceModel` outcome to 200/201/400/404/500. */
module DistanceController {
  import opened Js
  import opened Http
  import opened DistanceModel

  /** `parseInt(req.query.limit) || 20`, the limit of `/1` and `/2`. */
  function ListLimit(parsed: Option<int>): (limit: int)
    ensures parsed.None? || parsed.value == 0 ==> limit == 20
    ensures parsed.Some? && parsed.value != 0 ==> limit == parsed.value
  {
    OrDefault(parsed, 20)
  }

  /** `parseInt(req.query.limit) || 10`, the limit of `/all`. */
  function AllLimit(parsed: Option<int>): (limit: int)
    ensures parsed.None? || parsed.value == 0 ==> limit == 10
    ensures parsed.Some? && parsed.value != 0 ==> limit == parsed.value
  {
    OrDefault(parsed, 10)
  }

  /** `parseInt(req.query.hours) || 24`. */
  function StatisticsHours(parsed: Option<int>): (hours: int)
    ensures parsed.None? || parsed.value == 0 ==> hours == 24
    ensures parsed.Some? && parsed.value != 0 ==> hours == parsed.value
  {
    OrDefault(parsed, 24)
  }

  /** `parseInt(req.query.days) || 30`. */
  function CleanupDays(parsed: Option<int>): (days: int)
    ensures parsed.None? || parsed.value == 0 ==> days == 30
    ensures parsed.Some? && parsed.value != 0 ==> days == parsed.value
  {
    OrDefault(parsed, 30)
  }

  const InvalidSensor := "Invalid sensor type. Must be '1' or '2'"

  /** `["1", "2"].includes(sensorType)`, read back as the table it names. */
  function ParseSensor(param: string): (s: Option<Sensor>)
    ensures s.Some? <==> param == "1" || param == "2"
    ensures s.Some? ==> SensorType(s.value) == param
  {
    if param == "1" then Some(One) else if param == "2" then Some(Two) else None
  }

  /** `getDistance1` / `getDistance2`. */
  function ListReply(sensor: Sensor, o: Outcome<seq<Reading>>, development: bool): (r: Response<seq<Reading>>)
    ensures o.Done? ==> r == Json(200, o.value)
    ensures o.Thrown? ==> r == Failure(500, "Failed to retrieve " + TableName(sensor) + " data", Detail(development, o.message))
  {
    match o
    case Done(rows) => Json(200, rows)
    case Thrown(m) => Failure(500, "Failed to retrieve " + TableName(sensor) + " data", Detail(development, m))
  }

  /** `getAllDistances`. */
  function AllReply(o: Outcome<seq<Tagged>>, development: bool): (r: Response<seq<Tagged>>)
    ensures o.Done? ==> r == Json(200, o.value)
    ensures o.Thrown? ==> r == Failure(500, "Failed to retrieve distance data", Detail(development, o.message))
  {
    match o
    case Done(rows) => Json(200, rows)
    case Thrown(m) => Failure(500, "Failed to retrieve distance data", Detail(development, m))
  }

  /** The substrings that mark an insert error as the client's fault. */
  predicate IsValidationMessage(m: string)
  {
    Includes(m, "Missing required fields") || Includes(m, "must be")
  }

  /** `postDistance1` / `postDistance2`: 201 with the model's reply, 400 for a validation message, else 500. */
  function PostReply(sensor: Sensor, o: Outcome<Inserted>, development: bool): (r: Response<Inserted>)
    ensures o.Done? ==> r == Json(201, o.value)
    ensures o.Thrown? && IsValidationMessage(o.message) ==> r == Message(400, o.message)
    ensures o.Thrown? && !IsValidationMessage(o.message) ==>
      r == Failure(500, "Failed to insert " + TableName(sensor) + " data", Detail(development, o.message))
  {
    match o
    case Done(v) => Json(201, v)
    case Thrown(m) =>
      if IsValidationMessage(m) then Message(400, m)
      else Failure(500, "Failed to insert " + TableName(sensor) + " data", Detail(development, m))
  }

  /** A marker written between two pieces is found at the length of the first. */
  lemma MarkerBetween(p: string, marker: string, q: string)
    requires marker == "Missing required fields" || marker == "must be"
    ensures IsValidationMessage(p + marker + q)
  {
    assert IsAt(p + marker + q, marker, |p|);
  }

  /** Each of the five validation messages contains one of the two marker substrings. */
  lemma ValidationMessagesAreMarked()
    ensures IsValidationMessage(MissingFields) && IsValidationMessage(DistancesNotNumber)
    ensures IsValidationMessage(StatusNotString) && IsValidationMessage(DistancesNegative)
    ensures IsValidationMessage(StatusInvalid)
  {
    assert IsAt(MissingFields, "Missing required fields", 0);
    MarkerBetween("distances ", "must be", " a number");
    MarkerBetween("status ", "must be", " a string");
    MarkerBetween("distances ", "must be", " a positive number");
    MarkerBetween("status ", "must be", " one of: online, offline, 1, 0, true, false");
  }

  /** Every message `validateDistanceData` throws lands in the 400 branch. */
  lemma {:induction false} ValidationErrorsAre400(sensor: Sensor, distances: Value, status: Value, development: bool)
    requires ValidateDistanceData(distances, status).Thrown?
    ensures var m := ValidateDistanceData(distances, status).message;
      PostReply(sensor, Thrown(m), development) == Message(400, m)
  {
    ValidationMessagesAreMarked();
  }

  /** `getLatestReading`: the guard first, then 404 for no row, 200 with the row, 500 on error. */
  function LatestReply(param: string, o: Outcome<Option<Reading>>, development: bool): (r: Response<Reading>)
    ensures ParseSensor(param).None? ==> r == Message(400, InvalidSensor)
    ensures ParseSensor(param).Some? && o == Done(None) ==> r == Message(404, "No data found for sensor " + param)
    ensures ParseSensor(param).Some? && o.Done? && o.value.Some? ==> r == Json(200, o.value.value)
    ensures ParseSensor(param).Some? && o.Thrown? ==>
      r == Failure(500, "Failed to retrieve latest reading", Detail(development, o.message))
  {
    if ParseSensor(param).None? then Message(400, InvalidSensor)
    else match o
      case Thrown(m) => Failure(500, "Failed to retrieve latest reading", Detail(development, m))
      case Done(None) => Message(404, "No data found for sensor " + param)
      case Done(Some(row)) => Json(200, row)
  }

  /** `getStatistics`: the guard first, then the model's reply or 500. */
  function StatisticsReply(param: string, o: Outcome<Statistics>, development: bool): (r: Response<Statistics>)
    ensures ParseSensor(param).None? ==> r == Message(400, InvalidSensor)
    ensures ParseSensor(param).Some? && o.Done? ==> r == Json(200, o.value)
    ensures ParseSensor(param).Some? && o.Thrown? ==>
      r == Failure(500, "Failed to retrieve statistics", Detail(development, o.message))
  {
    if ParseSensor(param).None? then Message(400, InvalidSensor)
    else match o
      case Thrown(m) => Failure(500, "Failed to retrieve statistics", Detail(development, m))
      case Done(stats) => Json(200, stats)
  }

  /** `cleanupOldData`: the guard first, then the model's reply or 500. */
  function CleanupReply(param: string, o: Outcome<Cleaned>, development: bool): (r: Response<Cleaned>)
    ensures ParseSensor(param).None? ==> r == Message(400, InvalidSensor)
    ensures ParseSensor(param).Some? && o.Done? ==> r == Json(200, o.value)
    ensures ParseSensor(param).Some? && o.Thrown? ==>
      r == Failure(500, "Failed to cleanup old data", Detail(development, o.message))
  {
    if ParseSensor(param).None? then Message(400, InvalidSensor)
    else match o
      case Thrown(m) => Failure(500, "Failed to cleanup old data", Detail(development, m))
      case Done(v) => Json(200, v)
  }

  /** A device post end to end: invalid data is a 400 and writes nothing; valid data is a 201
      echoing the one row appended to the posted table. */
  method PostRequest(rows1: seq<Reading>, rows2: seq<Reading>, next1: nat, next2: nat, sensor: Sensor,
                     distances: Value, status: Value, now: int, development: bool)
    returns (reply: Response<Inserted>, after1: seq<Reading>, after2: seq<Reading>)
    ensures ValidateDistanceData(distances, status).Thrown? ==>
      reply.Message? && reply.status == 400 && after1 == rows1 && after2 == rows2
    ensures ValidateDistanceData(distances, status).Done? ==>
      && reply.Json? && reply.status == 201 && distances.Num? && status.Str?
      && var row := Reading(if sensor == One then next1 else next2, distances.x, status.s, now);
      && (sensor == One ==> after1 == rows1 + [row] && after2 == rows2)
      && (sensor == Two ==> after2 == rows2 + [row] && after1 == rows1)
      && reply.body == Inserted((if sensor == One then "Distance1" else "Distance2") + " data inserted successfully",
                                row.id, row.distances, row.status, now, SensorType(sensor))
      && reply.body.id == row.id && reply.body.status == status.s
  {
    var tables := new DistanceTables.Load(rows1, rows2, next1, next2);
    var o := tables.InsertDistanceData(sensor, distances, status, now);
    if o.Thrown? {
      ValidationErrorsAre400(sensor, distances, status, development);
    }
    reply := PostReply(sensor, o, development);
    after1, after2 := tables.distance1, tables.distance2;
  }

  /** The latest-reading request end to end: 400 for an unknown sensor, 404 exactly when the
      named table is empty, otherwise 200 with a row no other row of that table is newer than. */
  method LatestRequest(rows1: seq<Reading>, rows2: seq<Reading>, param: string, development: bool)
    returns (reply: Response<Reading>)
    ensures param != "1" && param != "2" ==> reply == Message(400, InvalidSensor)
    ensures param == "1" || param == "2" ==>
      var rows := if param == "1" then rows1 else rows2;
      && (reply.Message? <==> rows == [])
      && (rows == [] ==> reply == Message(404, "No data found for sensor " + param))
      && (rows != [] ==> reply.Json? && reply.status == 200 && reply.body in rows
                         && forall x :: x in rows ==> x.timestamp <= reply.body.timestamp)
  {
    var tables := new DistanceTables.Load(rows1, rows2, 0, 0);
    var sensor := ParseSensor(param);
    if sensor.None? {
      // The guard answers before any model call, as at distance.controller.js:111-115.
      return Message(400, InvalidSensor);
    }
    var latest := tables.GetLatestReading(sensor.value);
    reply := LatestReply(param, Done(latest), development);
  }
}
