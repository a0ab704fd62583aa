/** The control handlers: each makes one `ControlModel` call and turns its outcome into a reply. */
module SwitchController {
  import opened Js
  import opened Http
  import opened ControlModel

  /** The 500 reply every handler shares, with the error detail only in development. */
  function ServerError<T>(message: string, o: Outcome<T>, development: bool): (r: Response<T>)
    requires o.Thrown?
    ensures r.Failure? && r.status == 500 && r.message == message
    ensures r.error == Detail(development, o.message)
  {
    Failure(500, message, Detail(development, o.message))
  }

  /** The substrings that mark an update error as the client's fault. */
  predicate IsValidationMessage(m: string)
  {
    Includes(m, "is required") || Includes(m, "must be")
  }

  /** `getControlStatus` handler. */
  function GetControlStatusReply(o: Outcome<int>, development: bool): (r: Response<int>)
    ensures o.Done? ==> r == Json(200, o.value)
    ensures o.Thrown? ==> r == Failure(500, "Failed to retrieve control status", Detail(development, o.message))
  {
    if o.Done? then Json(200, o.value) else ServerError("Failed to retrieve control status", o, development)
  }

  /** `updateControlStatus` handler: 400 for a validation message, 500 for anything else. */
  function UpdateControlStatusReply(o: Outcome<Updated>, development: bool): (r: Response<Updated>)
    ensures o.Done? ==> r == Json(200, o.value)
    ensures o.Thrown? && IsValidationMessage(o.message) ==> r == Message(400, o.message)
    ensures o.Thrown? && !IsValidationMessage(o.message) ==>
      r == Failure(500, "Failed to update control status", Detail(development, o.message))
  {
    match o
    case Done(v) => Json(200, v)
    case Thrown(m) =>
      if IsValidationMessage(m) then Message(400, m)
      else ServerError("Failed to update control status", o, development)
  }

  /** Both messages `validateControlData` throws land in the 400 branch. */
  lemma {:induction false} ValidationErrorsAre400(tv: Value, development: bool)
    requires ValidateControlData(tv).Thrown?
    ensures UpdateControlStatusReply(Thrown(ValidateControlData(tv).message), development) == Message(400, ValidateControlData(tv).message)
  {
    if tv == Undefined {
      assert RequiredMessage == "TV control value " + "is required";
      assert IsAt(RequiredMessage, "is required", 17);
    } else {
      assert MustBeMessage == "TV value " + "must be" + " 0, 1, true, or false";
      assert IsAt(MustBeMessage, "must be", 9);
    }
  }

  /** `toggleTVStatus` handler: any error is a 500. */
  function ToggleReply(o: Outcome<Toggled>, development: bool): (r: Response<Toggled>)
    ensures o.Done? ==> r == Json(200, o.value)
    ensures o.Thrown? ==> r == Failure(500, "Failed to toggle TV status", Detail(development, o.message))
  {
    if o.Done? then Json(200, o.value) else ServerError("Failed to toggle TV status", o, development)
  }

  /** `getDeviceStatusSummary` handler: any error is a 500. */
  function SummaryReply(o: Outcome<Summary>, development: bool): (r: Response<Summary>)
    ensures o.Done? ==> r == Json(200, o.value)
    ensures o.Thrown? ==> r == Failure(500, "Failed to retrieve device status summary", Detail(development, o.message))
  {
    if o.Done? then Json(200, o.value) else ServerError("Failed to retrieve device status summary", o, development)
  }

  /** The limit `getControlHistory` passes on: `parseInt(limit) || 50`. */
  function HistoryLimit(parsed: Option<int>): (limit: int)
    ensures parsed.None? || parsed.value == 0 ==> limit == 50
    ensures parsed.Some? && parsed.value != 0 ==> limit == parsed.value
  {
    OrDefault(parsed, 50)
  }

  /** `getControlHistory` handler. */
  function HistoryReply(o: Outcome<seq<HistoryRow>>, development: bool): (r: Response<seq<HistoryRow>>)
    ensures o.Done? ==> r == Json(200, o.value)
    ensures o.Thrown? ==> r == Failure(500, "Failed to retrieve control history", Detail(development, o.message))
  {
    if o.Done? then Json(200, o.value) else ServerError("Failed to retrieve control history", o, development)
  }

  /** `initializeControlStatus` handler. */
  function InitializeReply(o: Outcome<Initialized>, development: bool): (r: Response<Initialized>)
    ensures o.Done? ==> r == Json(200, o.value)
    ensures o.Thrown? ==> r == Failure(500, "Failed to initialize control status", Detail(development, o.message))
  {
    if o.Done? then Json(200, o.value) else ServerError("Failed to initialize control status", o, development)
  }

  /** An update request end to end: a rejected value is a 400 and leaves the row alone; an accepted
      one is a 200 whose body carries the value line 63 stored. */
  method UpdateRequest(current: Option<SwitchRow>, tv: Value, now: int, development: bool)
    returns (reply: Response<Updated>, after: Option<SwitchRow>)
    ensures ValidateControlData(tv).Thrown? ==> reply.Message? && reply.status == 400 && after == current
    ensures ValidateControlData(tv).Done? ==>
      && reply.Json? && reply.status == 200 && reply.body.tv == StoredValue(tv)
      && after.Some? && after.value.tv == StoredValue(tv)
  {
    var table := new SwitchTable.Load(current);
    var o := table.UpdateControlStatus(tv, now);
    if o.Thrown? {
      ValidationErrorsAre400(tv, development);
    }
    reply := UpdateControlStatusReply(o, development);
    after := table.row;
  }
}
