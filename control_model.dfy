/** The single row (id 1) of `switch_condition` that holds the TV switch, and `ControlModel`'s
    operations on it: validation, a read that creates the default row, update, toggle and summary. */
module ControlModel {
  import opened Js

  /** Row 1 of `switch_condition`. Times are the values NOW() had. */
  datatype SwitchRow = SwitchRow(tv: int, createdAt: int, updatedAt: int)

  const RequiredMessage := "TV control value is required"
  const MustBeMessage := "TV value must be 0, 1, true, or false"
  const InvalidControlMessage := "Invalid control value. Must be boolean, 0, or 1"

  /** The list `[0, 1, "0", "1", true, false]` that validation searches with `includes`. */
  const AcceptedValues: seq<Value> := [Num(0.0), Num(1.0), Str("0"), Str("1"), Bool(true), Bool(false)]

  /** `validateControlData`: a missing value, then a value outside the accepted list, is thrown. */
  function ValidateControlData(tv: Value): (o: Outcome<()>)
    ensures o == Thrown(RequiredMessage) <==> tv == Undefined
    ensures o == Thrown(MustBeMessage) <==> tv != Undefined && tv !in AcceptedValues
    ensures o.Done? <==> tv == Num(0.0) || tv == Num(1.0) || tv == Str("0") || tv == Str("1") || tv.Bool?
  {
    if tv == Undefined then Thrown(RequiredMessage)
    else if tv !in AcceptedValues then Thrown(MustBeMessage)
    else Done(())
  }

  /** Line 63's conversion, `TV === true || TV === "1" ? 1 : 0`. */
  function StoredValue(tv: Value): (v: int)
    ensures v == 0 || v == 1
    ensures v == 1 <==> tv == Bool(true) || tv == Str("1")
  {
    if tv == Bool(true) || tv == Str("1") then 1 else 0
  }

  /** `sanitizeControlValue`: the lenient converter, which does map the number 1 to 1. */
  function SanitizeControlValue(v: Value): (o: Outcome<int>)
    ensures o.Done? ==> o.value == 0 || o.value == 1
    ensures o.Done? && o.value == 1 <==> v in {Bool(true), Str("true"), Str("1"), Num(1.0)}
    ensures o.Done? && o.value == 0 <==> v in {Bool(false), Str("false"), Str("0"), Num(0.0)}
    ensures o.Thrown? ==> o.message == InvalidControlMessage
  {
    if v == Bool(true) || v == Str("true") || v == Str("1") || v == Num(1.0) then Done(1)
    else if v == Bool(false) || v == Str("false") || v == Str("0") || v == Num(0.0) then Done(0)
    else Thrown(InvalidControlMessage)
  }

  /** Over what validation accepts, line 63 agrees with `sanitizeControlValue` except on the number 1,
      which it stores as 0; and validation refuses "true"/"false", which the sanitiser takes. */
  lemma StoredValueDisagreesOnlyOnNumberOne(tv: Value)
    ensures ValidateControlData(tv).Done? ==> SanitizeControlValue(tv).Done?
    ensures ValidateControlData(tv).Done? ==> (StoredValue(tv) == SanitizeControlValue(tv).value <==> tv != Num(1.0))
    ensures tv in {Str("true"), Str("false")} ==> ValidateControlData(tv).Thrown? && SanitizeControlValue(tv).Done?
  {
  }

  /** The reply of `initializeControlStatus`. */
  datatype Initialized = Initialized(message: string, tv: int, initialized: bool)
  /** The reply of `updateControlStatus` (`affected_rows` is not modelled). */
  datatype Updated = Updated(message: string, tv: int, updatedAt: int)
  /** The reply of `toggleTVStatus`: the update's reply with its message replaced and two fields added. */
  datatype Toggled = Toggled(message: string, tv: int, updatedAt: int, previousValue: int, newValue: int)
  /** The reply of `getDeviceStatusSummary`. */
  datatype Summary = Summary(status: string, value: int, lastUpdated: Option<int>,
                             totalDevices: int, activeDevices: int, summary: string)
  /** One row of `SELECT TV, updated_at FROM switch_condition WHERE id=1`. */
  datatype HistoryRow = HistoryRow(tv: int, updatedAt: int)

  /** The summary built from a status read; the read selects only `TV`, so `updated_at` is
      always undefined and `last_updated` always null. */
  function Summarize(tv: int): (s: Summary)
    ensures s.status == "ON" <==> tv == 1
    ensures s.status == "OFF" <==> tv != 1
    ensures s.activeDevices == (if tv == 1 then 1 else 0) && s.totalDevices == 1
    ensures s.value == tv && s.lastUpdated == None
    ensures s.summary == (if tv == 1 then "1 of 1 devices are currently ON" else "0 of 1 devices are currently ON")
  {
    var on := tv == 1;
    Summary(if on then "ON" else "OFF", tv, None, 1, if on then 1 else 0,
            if on then "1 of 1 devices are currently ON" else "0 of 1 devices are currently ON")
  }

  /** `switch_condition`, of which only the row with id 1 is used. */
  class SwitchTable {
    var row: Option<SwitchRow>

    constructor Load(row0: Option<SwitchRow>)
      ensures row == row0
    {
      row := row0;
    }

    /** `initializeControlStatus`: INSERT of (1, 0) or, when the row exists, only a new
        `updated_at`. The reply always says TV 0, whatever the row holds. */
    method InitializeControlStatus(now: int) returns (r: Initialized)
      modifies this
      ensures old(row).None? ==> row == Some(SwitchRow(0, now, now))
      ensures old(row).Some? ==> row == Some(old(row).value.(updatedAt := now))
      ensures r == Initialized("Control status initialized", 0, true)
    {
      if row.None? {
        row := Some(SwitchRow(0, now, now));
      } else {
        row := Some(row.value.(updatedAt := now));
      }
      r := Initialized("Control status initialized", 0, true);
    }

    /** `getControlStatus`: the stored TV, or, when there is no row, the default row is created
        and 0 reported. */
    method GetControlStatus(now: int) returns (tv: int)
      modifies this
      ensures old(row).Some? ==> tv == old(row).value.tv && row == old(row)
      ensures old(row).None? ==> tv == 0 && row == Some(SwitchRow(0, now, now))
      ensures row.Some?
    {
      if row.None? {
        var _ := InitializeControlStatus(now);
        return 0;
      }
      tv := row.value.tv;
    }

    /** `updateControlStatus`: validation before anything is touched, then line 63's conversion,
        a status read (which may create the row), then the UPDATE. */
    method UpdateControlStatus(tv: Value, now: int) returns (o: Outcome<Updated>)
      modifies this
      ensures ValidateControlData(tv).Thrown? ==> o == Thrown(ValidateControlData(tv).message) && row == old(row)
      ensures ValidateControlData(tv).Done? ==>
        && o == Done(Updated("TV control updated successfully", StoredValue(tv), now))
        && row.Some? && row.value.tv == StoredValue(tv) && row.value.updatedAt == now
        && row.value.createdAt == (if old(row).Some? then old(row).value.createdAt else now)
    {
      var check := ValidateControlData(tv);
      if check.Thrown? {
        return Thrown(check.message);
      }
      var value := StoredValue(tv);
      var _ := GetControlStatus(now);
      row := Some(row.value.(tv := value, updatedAt := now));
      o := Done(Updated("TV control updated successfully", value, now));
    }

    /** `getControlHistory`: the current row with its time, whatever the limit; it does not create the row. */
    function GetControlHistory(limit: int): (h: seq<HistoryRow>)
      reads this
      ensures |h| <= 1
      ensures h == [] <==> row.None?
      ensures row.Some? ==> h[0].tv == row.value.tv && h[0].updatedAt == row.value.updatedAt
    {
      if row.None? then [] else [HistoryRow(row.value.tv, row.value.updatedAt)]
    }

    /** `toggleTVStatus`: reads the status, computes the flipped value and passes it as a number
        to `updateControlStatus`, whose line 63 stores every number as 0. */
    method ToggleTVStatus(now: int) returns (r: Toggled)
      modifies this
      ensures var previous := if old(row).Some? then old(row).value.tv else 0;
        && r.previousValue == previous
        && r.newValue == (if previous == 1 then 0 else 1)
        && r.message == (if r.newValue == 1 then "TV turned ON" else "TV turned OFF")
        && r.tv == 0 && r.updatedAt == now
      ensures row.Some? && row.value.tv == 0 && row.value.updatedAt == now
      ensures row.value.createdAt == (if old(row).Some? then old(row).value.createdAt else now)
    {
      var current := GetControlStatus(now);
      var flipped := if current == 1 then 0 else 1;
      var result := UpdateControlStatus(Num(flipped as real), now);
      r := Toggled(if flipped == 1 then "TV turned ON" else "TV turned OFF",
                   result.value.tv, result.value.updatedAt, current, flipped);
    }

    /** `getDeviceStatusSummary`: a status read (which may create the row) summarised. */
    method GetDeviceStatusSummary(now: int) returns (s: Summary)
      modifies this
      ensures old(row).Some? ==> row == old(row)
      ensures old(row).None? ==> row == Some(SwitchRow(0, now, now))
      ensures s == Summarize(if old(row).Some? then old(row).value.tv else 0)
    {
      var tv := GetControlStatus(now);
      s := Summarize(tv);
    }
  }

  /** From an OFF switch, a toggle reports turning it ON but leaves it OFF. */
  method ToggleFromOffStaysOff(createdAt: int, updatedAt: int, now: int) returns (r: Toggled, after: SwitchRow)
    ensures r.previousValue == 0 && r.newValue == 1 && r.message == "TV turned ON"
    ensures after.tv == 0
  {
    var table := new SwitchTable.Load(Some(SwitchRow(0, createdAt, updatedAt)));
    r := table.ToggleTVStatus(now);
    after := table.row.value;
  }

  /** The number 1, which validation accepts, is stored as 0 and reported as 0. */
  method NumberOneStoredAsZero(current: Option<SwitchRow>, now: int) returns (o: Outcome<Updated>, after: SwitchRow)
    ensures ValidateControlData(Num(1.0)).Done?
    ensures o.Done? && o.value.tv == 0 && after.tv == 0
  {
    var table := new SwitchTable.Load(current);
    o := table.UpdateControlStatus(Num(1.0), now);
    after := table.row.value;
  }
}
