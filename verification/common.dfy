/** Values shared by every part of the model: optional values, JavaScript
    truthiness of optional strings, JSON objects as string maps, and the HTTP
    status codes the server answers with. */
module Common {

  datatype Option<+T> = None | Some(value: T)

  datatype Result<+T, +E> = Ok(value: T) | Err(error: E)

  /** A JSON object whose values are strings (request bodies, the client's user record). */
  type JsonObject = map<string, string>

  /** Identifiers are opaque; the model numbers them. */
  type UserId = nat
  type EntryId = nat

  /** The status codes the controllers use. */
  const OK: int := 200
  const CREATED: int := 201
  const BAD_REQUEST: int := 400
  const UNAUTHORIZED: int := 401
  const NOT_FOUND: int := 404
  const SERVER_ERROR: int := 500

  /** A string field of a request or a record is truthy in JavaScript when it is present and not empty. */
  predicate Truthy(s: Option<string>) {
    s.Some? && s.value != ""
  }

  /** JavaScript's `a || b` on two optional strings. */
  function Or(a: Option<string>, b: Option<string>): (r: Option<string>)
    ensures Truthy(a) ==> r == a
    ensures !Truthy(a) ==> r == b
  {
    if Truthy(a) then a else b
  }

  /** `a || fallback` where the fallback is a plain string. */
  function OrElse(a: Option<string>, fallback: string): (r: string)
    ensures Truthy(a) ==> r == a.value
    ensures !Truthy(a) ==> r == fallback
  {
    if Truthy(a) then a.value else fallback
  }

  /** `obj.key` read from a JSON object: absent keys read as undefined. */
  function Get(obj: JsonObject, key: string): (r: Option<string>)
    ensures r.Some? <==> key in obj
    ensures key in obj ==> r.value == obj[key]
  {
    if key in obj then Some(obj[key]) else None
  }
}
