/** Failure-compatible wrappers and the exception shapes the services raise. */
module Common {

  datatype Option<+T> = None | Some(value: T)

  /** Either a value or the error a call raised. */
  datatype Result<+T, +E> = Ok(value: T) | Err(error: E)

  /** The HTTP exceptions of the backend services (NestJS exception classes). */
  datatype HttpErrorKind = BadRequest | Unauthorized | Forbidden | NotFound | Conflict

  datatype HttpError = HttpError(kind: HttpErrorKind, message: string)

  /** `value || fallback` for an optional string: absent and "" are falsy. */
  function StringOr(s: Option<string>, fallback: string): (r: string)
    ensures s.Some? && s.value != "" ==> r == s.value
    ensures s.None? || s.value == "" ==> r == fallback
  {
    if s.Some? && s.value != "" then s.value else fallback
  }

  /** JavaScript truthiness of an optional string. */
  predicate TruthyString(s: Option<string>) {
    s.Some? && s.value != ""
  }

  /** JavaScript truthiness of an optional integer number (0 is falsy). */
  predicate TruthyInt(n: Option<int>) {
    n.Some? && n.value != 0
  }

  /** `list && list.length > 0` for an optional array. */
  predicate NonEmptyList<T>(s: Option<seq<T>>) {
    s.Some? && |s.value| > 0
  }
}

/** A JSON value as `JSON.parse` produces it. */
module Json {
  import opened Common

  datatype JsonValue =
    | JNull
    | JBool(b: bool)
    | JNumber(n: real)
    | JString(s: string)
    | JArray(items: seq<JsonValue>)
    | JObject(fields: map<string, JsonValue>)

  /** JavaScript truthiness of a parsed JSON value. */
  predicate Truthy(v: JsonValue) {
    match v
    case JNull => false
    case JBool(b) => b
    case JNumber(n) => n != 0.0
    case JString(s) => s != ""
    case JArray(_) => true
    case JObject(_) => true
  }

  /** `obj[key]`, where a missing key reads as absent. */
  function Field(fields: map<string, JsonValue>, key: string): Option<JsonValue> {
    if key in fields then Some(fields[key]) else None
  }

  /** `typeof obj[key] === 'number'`. */
  predicate IsNumberField(fields: map<string, JsonValue>, key: string) {
    key in fields && fields[key].JNumber?
  }

  /** `Array.isArray(obj[key])`. */
  predicate IsArrayField(fields: map<string, JsonValue>, key: string) {
    key in fields && fields[key].JArray?
  }

  /** `!!obj[key]`. */
  predicate IsTruthyField(fields: map<string, JsonValue>, key: string) {
    key in fields && Truthy(fields[key])
  }
}
