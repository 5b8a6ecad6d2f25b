/**
 * Values exchanged with the monitoring server's JSON-RPC API, as the two
 * client libraries see them, and the outcome of one attempt at the
 * transport level.
 */
module Rpc {

  datatype Option<+T> = None | Some(value: T)

  /**
   * A value handed to or returned by the API helpers: Python's None, bool,
   * int, text string, list and dict, as JSON decodes them.  A decoded
   * string is `JStr` (`unicode` in Python 2, `str` in Python 3).  Python 2
   * has two more kinds that `isinstance` tells apart: the byte string
   * `str` (`JBytes`) and the wide integer `long` (`JLong`).
   */
  datatype Json =
    | JNull
    | JBool(b: bool)
    | JInt(i: int)
    | JLong(n: int)
    | JStr(s: string)
    | JBytes(s: string)
    | JList(items: seq<Json>)
    | JObj(fields: map<string, Json>)

  /** Python truthiness of a decoded value. */
  predicate Truthy(j: Json) {
    match j
    case JNull => false
    case JBool(b) => b
    case JInt(i) => i != 0
    case JLong(n) => n != 0
    case JStr(s) => s != ""
    case JBytes(s) => s != ""
    case JList(items) => items != []
    case JObj(fields) => fields != map[]
  }

  /** `isinstance(x, int)`: Python's bool is a subclass of int; Python 2's `long` is not. */
  predicate IsPyInt(j: Json) {
    j.JInt? || j.JBool?
  }

  /** The keyword arguments of a builder, or the parameter object of a request. */
  type Params = map<string, Json>

  const Extend := JStr("extend")

  /** `p[k] == v` for a key that is present. */
  predicate Maps(p: Params, k: string, v: Json) {
    k in p && p[k] == v
  }

  /** One JSON-RPC call: method name and parameter object. */
  datatype Request = Request(methodName: string, params: Json)

  /**
   * What one attempt at the transport does: the login or post raised an
   * exception, or it returned a decoded response.
   */
  datatype Attempt = Raised | Returned(response: Json)

  /**
   * A login session: the server URL and user it was opened for.  The
   * session token itself is kept by the API client object.
   */
  datatype Session = Session(url: string, user: string)

  /**
   * A get builder selects the host by id when it is given an int, by
   * technical name otherwise, and never both.
   */
  predicate TargetsHost(p: Params, host: Json) {
    if IsPyInt(host) then "hostids" in p && p["hostids"] == host && "host" !in p
    else "host" in p && p["host"] == host && "hostids" !in p
  }
}
