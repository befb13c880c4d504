/**
 * The `/api/webhook-proxy` route: answers CORS preflight, refuses methods
 * other than POST, forwards a POST body to the downstream webhook and relays
 * the downstream's answer.
 */
module WebhookProxy {
  import opened Wrappers
  import opened Http

  /**
   * What `axios.post` to the downstream webhook produced: a response
   * (`response.status`, `response.data`), an axios error with or without a
   * response, or any other thrown value.
   */
  datatype Downstream =
    | Ok(response: Reply)
    | AxiosErr(errorResponse: Option<Reply>)
    | OtherErr

  /** Whether the downstream is contacted, and with what body. */
  datatype Forward = NotContacted | Posted(payload: Option<Json>)

  /** The four CORS headers set before anything else. */
  const CorsHeaders: map<string, string> := map[
    "Access-Control-Allow-Credentials" := "true",
    "Access-Control-Allow-Origin" := "*",
    "Access-Control-Allow-Methods" := "GET,POST,OPTIONS",
    "Access-Control-Allow-Headers" := "Content-Type, Accept"
  ]

  const MethodNotAllowed := Obj1("message", JStr("Method not allowed"))
  const InternalError := Obj1("message", JStr("Internal server error"))

  /** Only a POST reaches the downstream, and it forwards the request body unchanged. */
  function Forwarding(req: Request): (f: Forward)
    ensures f.Posted? <==> req.verb == "POST"
    ensures f.Posted? ==> f.payload == req.body
  {
    if req.verb == "OPTIONS" then NotContacted
    else if req.verb != "POST" then NotContacted
    else Posted(req.body)
  }

  /** `error.response?.status || 500`: a missing or zero (falsy) status becomes 500. */
  function ErrorStatus(errorResponse: Option<Reply>): (s: int)
    ensures errorResponse.Some? && errorResponse.value.status != 0 ==> s == errorResponse.value.status
    ensures errorResponse.None? || errorResponse.value.status == 0 ==> s == 500
  {
    match errorResponse
    case Some(r) => if r.status == 0 then 500 else r.status
    case None => 500
  }

  /** The reply the client receives, given what the downstream would produce. */
  function ProxyReply(req: Request, d: Downstream): (r: Reply)
    ensures req.verb == "OPTIONS" ==> r == Reply(200, None)
    ensures req.verb != "OPTIONS" && req.verb != "POST" ==> r == Reply(405, Some(MethodNotAllowed))
    ensures req.verb == "POST" && d.Ok? ==> r == d.response
    ensures req.verb == "POST" && d.AxiosErr? ==>
              r.status == ErrorStatus(d.errorResponse) &&
              r.body == (if d.errorResponse.Some? then d.errorResponse.value.body else None)
    ensures req.verb == "POST" && d.OtherErr? ==> r == Reply(500, Some(InternalError))
  {
    if req.verb == "OPTIONS" then Reply(200, None)
    else if req.verb != "POST" then Reply(405, Some(MethodNotAllowed))
    else
      match d
      case Ok(response) => Reply(response.status, response.body)
      case AxiosErr(errorResponse) =>
        Reply(ErrorStatus(errorResponse), match errorResponse case Some(er) => er.body case None => None)
      case OtherErr => Reply(500, Some(InternalError))
  }

  /** A request that does not reach the downstream gets a reply that does not depend on it. */
  lemma ReplyIgnoresDownstreamUnlessForwarded(req: Request, d1: Downstream, d2: Downstream)
    requires Forwarding(req) == NotContacted
    ensures ProxyReply(req, d1) == ProxyReply(req, d2)
  {
  }

  /**
   * The proxy is transparent to downstream replies: a reply with a non-zero
   * status reaches the client unchanged whether axios resolved it or rejected it.
   */
  lemma RelayIsVerbatim(req: Request, downstream: Reply)
    requires req.verb == "POST" && downstream.status != 0
    ensures ProxyReply(req, Ok(downstream)) == downstream
    ensures ProxyReply(req, AxiosErr(Some(downstream))) == downstream
  {
  }

  /** An OPTIONS preflight receives 200 whatever the downstream would do. */
  lemma PreflightAlwaysOk(req: Request, d: Downstream)
    requires req.verb == "OPTIONS"
    ensures ProxyReply(req, d).status == 200
  {
  }

  /** Setting the four headers one after another adds exactly `CorsHeaders`. */
  lemma SetCorsHeaders(h: map<string, string>)
    ensures h["Access-Control-Allow-Credentials" := "true"]
             ["Access-Control-Allow-Origin" := "*"]
             ["Access-Control-Allow-Methods" := "GET,POST,OPTIONS"]
             ["Access-Control-Allow-Headers" := "Content-Type, Accept"] == h + CorsHeaders
  {
  }

  /**
   * `handler(req, res)`: sets the CORS headers, then finishes `res` with
   * `ProxyReply`. `d` is what the downstream answers if it is contacted; the
   * result says whether it was, and with what body.
   */
  method Handle(req: Request, d: Downstream, res: ServerResponse) returns (sent: Forward)
    modifies res
    ensures res.headers == old(res.headers) + CorsHeaders
    ensures res.Sent() == ProxyReply(req, d) && res.finished
    ensures sent == Forwarding(req)
  {
    res.SetHeader("Access-Control-Allow-Credentials", "true");
    res.SetHeader("Access-Control-Allow-Origin", "*");
    res.SetHeader("Access-Control-Allow-Methods", "GET,POST,OPTIONS");
    res.SetHeader("Access-Control-Allow-Headers", "Content-Type, Accept");
    SetCorsHeaders(old(res.headers));
    assert res.headers == old(res.headers) + CorsHeaders;

    if req.verb == "OPTIONS" {
      res.Status(200);
      res.End();
      return NotContacted;
    }

    if req.verb != "POST" {
      res.Status(405);
      res.SendJson(Some(MethodNotAllowed));
      return NotContacted;
    }

    sent := Posted(req.body);
    match d
    case Ok(response) =>
      res.Status(response.status);
      res.SendJson(response.body);
    case AxiosErr(errorResponse) =>
      res.Status(ErrorStatus(errorResponse));
      res.SendJson(match errorResponse case Some(er) => er.body case None => None);
    case OtherErr =>
      res.Status(500);
      res.SendJson(Some(InternalError));
  }
}
