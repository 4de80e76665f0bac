/** Values shared by every part of the model: optional values, handler outcomes and the
    JSON values that arrive in request bodies. */
module Prelude {

  /** A value that may be missing: JavaScript's `undefined`/`null`, or SQL's NULL. */
  datatype Option<+T> = None | Some(value: T) {
    function GetOr(default: T): T {
      match this
      case Some(v) => v
      case None => default
    }
  }

  /** What an Express handler answers: the body of a 2xx response, or the status code and
      message of the error response it sends instead. */
  datatype Outcome<+T> = Ok(value: T) | Fail(status: int, message: string)

  /** What a page's own validation decides before any request: the value it goes on
      with, or the message of the alert it shows instead. */
  datatype Checked<+T> = Accepted(value: T) | Refused(message: string)

  const BadRequest: int := 400
  const NotFound: int := 404
  const ServerError: int := 500

  /** A JSON value as it arrives in a request body (arrays and objects are modelled where
      they occur, as sequences or as records). JSON cannot carry NaN or Infinity. */
  datatype JsVal = JsUndefined | JsNull | JsBool(b: bool) | JsNum(n: real) | JsStr(s: string)

  /** JavaScript truthiness: `undefined`, `null`, `false`, `0` and `""` are falsy. */
  predicate Truthy(v: JsVal) {
    match v
    case JsUndefined => false
    case JsNull => false
    case JsBool(b) => b
    case JsNum(n) => n != 0.0
    case JsStr(s) => s != ""
  }

  /** A text field that JavaScript treats as truthy: present and not the empty string. */
  predicate Present(s: Option<string>) {
    s.Some? && s.value != ""
  }

  /** JavaScript `a || b` on optional text: the first truthy operand, else `b`. */
  function OrElse(a: Option<string>, b: Option<string>): (r: Option<string>)
    ensures Present(a) ==> r == a
    ensures !Present(a) ==> r == b
  {
    if Present(a) then a else b
  }

  /** `x || null` on text: the empty string is stored as NULL. */
  function NullIfEmpty(s: Option<string>): (r: Option<string>)
    ensures r.Some? <==> Present(s)
    ensures r.Some? ==> r == s
  {
    if Present(s) then s else None
  }

  /** JavaScript `a ?? b`: only a missing value falls through (the empty string does not). */
  function Coalesce<T>(a: Option<T>, b: Option<T>): (r: Option<T>)
    ensures a.Some? ==> r == a
    ensures a.None? ==> r == b
  {
    if a.Some? then a else b
  }

  /** A part of a `multipart/form-data` body: a text field, or a file under a field name. */
  datatype Part = Field(name: string, value: string) | FilePart(name: string, fileName: string)

  /** An uploaded file as multer's storage receives it. */
  datatype Upload = Upload(originalName: string)
}
