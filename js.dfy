/** The few JavaScript and Express notions the handlers depend on: JSON values,
    truthiness, `String.prototype.includes`, `toLowerCase` and `parseInt(x) || d`. */
module Js {

  datatype Option<+T> = None | Some(value: T)

  /** A promise that either resolves with a value or rejects (or throws) with an error message. */
  datatype Outcome<+T> = Done(value: T) | Thrown(message: string)

  /** A field of a parsed JSON request body, as the validators tell the cases apart.
      `Undefined` is a missing field; `Compound` is an array or an object. */
  datatype Value =
    | Undefined
    | Null
    | Bool(b: bool)
    | Num(x: real)
    | Str(s: string)
    | Compound

  /** `!v` in JavaScript for a string field that may be missing: undefined and "" are falsy. */
  predicate Blank(v: Option<string>)
  {
    v.None? || v.value == ""
  }

  /** `a || b` over optional strings: the first truthy operand, else the second. */
  function OrElse(a: Option<string>, b: Option<string>): (r: Option<string>)
    ensures !Blank(a) ==> r == a
    ensures Blank(a) ==> r == b
  {
    if Blank(a) then b else a
  }

  /** `t` occurs in `s` starting at position `i`. */
  predicate IsAt(s: string, t: string, i: int)
  {
    0 <= i && i + |t| <= |s| && s[i..i + |t|] == t
  }

  /** `s.includes(t)`. */
  predicate Includes(s: string, t: string)
  {
    exists i | 0 <= i <= |s| :: IsAt(s, t, i)
  }

  /** `toLowerCase` on one character, for the ASCII letters. */
  function LowerChar(c: char): char
  {
    if 'A' <= c <= 'Z' then (c as int + 32) as char else c
  }

  /** `s.toLowerCase()` restricted to ASCII: every other character is kept. */
  function ToLower(s: string): (r: string)
    ensures |r| == |s|
    ensures forall i :: 0 <= i < |s| ==> r[i] == LowerChar(s[i])
  {
    seq(|s|, i requires 0 <= i < |s| => LowerChar(s[i]))
  }

  /** `parseInt(q) || d`, given what `parseInt(q)` produced (None for NaN):
      NaN and 0 are both falsy, so both fall back to `d`. */
  function OrDefault(parsed: Option<int>, d: int): (r: int)
    ensures r == d || (parsed.Some? && r == parsed.value)
    ensures parsed.None? || parsed.value == 0 ==> r == d
    ensures parsed.Some? && parsed.value != 0 ==> r == parsed.value
  {
    if parsed.None? || parsed.value == 0 then d else parsed.value
  }
}

/** The shapes of the JSON responses the handlers write. */
module Http {
  import opened Js

  datatype Response<+T> =
    | Json(status: int, body: T)                                   // res.status(status).json(body); res.json is status 200
    | Message(status: int, message: string)                        // { message }
    | Failure(status: int, message: string, error: Option<string>) // { message, error }, error set only in development
    | RawError(status: int, driverError: string)                   // { error: err }, the database driver's error
    | NoResponse                                                   // the handler never answers the request

  /** Error detail in a 500 body: the message in development, `undefined` otherwise. */
  function Detail(development: bool, message: string): (r: Option<string>)
    ensures r.Some? <==> development
    ensures r.Some? ==> r.value == message
  {
    if development then Some(message) else None
  }
}
