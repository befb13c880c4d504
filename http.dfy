/**
 * What the two API routes see of Next.js: a parsed JSON request body, the
 * request method, and a response object that the handler mutates in place
 * with `setHeader`, `status`, `json` and `end`.
 */
module Http {
  import opened Wrappers

  /** A parsed JSON value. JSON has no NaN, so every number is a real. */
  datatype Json =
    | JNull
    | JBool(b: bool)
    | JNum(n: real)
    | JStr(s: string)
    | JArr(items: seq<Json>)
    | JObj(fields: map<string, Json>)

  /**
   * JavaScript falsiness of an optional JSON value (`None` is `undefined`):
   * exactly `undefined`, `null`, `false`, `0` and `""`.
   */
  function Falsy(v: Option<Json>): (b: bool)
    ensures b <==> v in {None, Some(JNull), Some(JBool(false)), Some(JNum(0.0)), Some(JStr(""))}
  {
    match v
    case None => true
    case Some(JNull) => true
    case Some(JBool(b)) => !b
    case Some(JNum(n)) => n == 0.0
    case Some(JStr(s)) => s == []
    case Some(_) => false
  }

  /**
   * Property lookup `body.p` as object destructuring performs it:
   * `Threw` when the body is `undefined` or `null` (destructuring throws a
   * TypeError), `undefined` for any other non-object and for a missing key.
   */
  datatype Lookup = Threw | Found(value: Option<Json>)

  function Property(body: Option<Json>, p: string): (r: Lookup)
    ensures r.Threw? <==> body == None || body == Some(JNull)
    ensures body.Some? && body.value.JObj? && p in body.value.fields ==> r == Found(Some(body.value.fields[p]))
    ensures r.Found? && r.value.Some? ==>
              body.Some? && body.value.JObj? && p in body.value.fields && r.value.value == body.value.fields[p]
  {
    match body
    case None => Threw
    case Some(JNull) => Threw
    case Some(JObj(fields)) => Found(if p in fields then Some(fields[p]) else None)
    case Some(_) => Found(None)
  }

  /** An incoming request: its method name (`verb`) and its parsed body (`None` is `undefined`). */
  datatype Request = Request(verb: string, body: Option<Json>)

  /** A finished reply as the client sees it; `body == None` is `res.end()` or `res.json(undefined)`. */
  datatype Reply = Reply(status: int, body: Option<Json>)

  /** The object literal `{ key: value }`. */
  function Obj1(key: string, value: Json): Json {
    JObj(map[key := value])
  }

  /** Next.js's response object. */
  class ServerResponse {
    var statusCode: int
    var headers: map<string, string>
    var body: Option<Json>
    var finished: bool

    constructor ()
      ensures statusCode == 200 && headers == map[] && body == None && !finished
    {
      statusCode := 200;
      headers := map[];
      body := None;
      finished := false;
    }

    /** `res.setHeader(name, value)`: a later value for the same name replaces the earlier one. */
    method SetHeader(name: string, value: string)
      modifies this
      ensures headers == old(headers)[name := value]
      ensures statusCode == old(statusCode) && body == old(body) && finished == old(finished)
    {
      headers := headers[name := value];
    }

    /** `res.status(code)`. */
    method Status(code: int)
      modifies this
      ensures statusCode == code
      ensures headers == old(headers) && body == old(body) && finished == old(finished)
    {
      statusCode := code;
    }

    /** `res.json(value)`: sends `value` and finishes the response. */
    method SendJson(value: Option<Json>)
      modifies this
      ensures body == value && finished
      ensures statusCode == old(statusCode) && headers == old(headers)
    {
      body := value;
      finished := true;
    }

    /** `res.end()`: finishes the response without a body. */
    method End()
      modifies this
      ensures body == None && finished
      ensures statusCode == old(statusCode) && headers == old(headers)
    {
      body := None;
      finished := true;
    }

    /** The reply the client receives. */
    function Sent(): Reply
      reads this
    {
      Reply(statusCode, body)
    }
  }
}
