/**
 * The result store behind `/api/receive-result`: one module-level slot,
 * `messageOutput`, overwritten by POST and read by GET.
 */
module ReceiveResult {
  import opened Wrappers
  import opened Http

  const ContentRequired := Obj1("error", JStr("Content is required"))
  const InternalError := Obj1("error", JStr("Internal server error"))
  const MethodNotAllowed := Obj1("message", JStr("Method not allowed"))

  /** `{ message: "Success", content }`. */
  function SuccessBody(content: Json): Json {
    JObj(map["message" := JStr("Success"), "content" := content])
  }

  /** The content a request would store: that of a POST whose body carries a truthy `content`. */
  function Stored(req: Request): (c: Option<Json>)
    ensures c.Some? ==> req.verb == "POST" && !Falsy(c)
    ensures c.Some? ==> Property(req.body, "content") == Found(c)
    ensures req.verb == "POST" && Property(req.body, "content").Found? && !Falsy(Property(req.body, "content").value) ==>
              c == Property(req.body, "content").value
  {
    if req.verb != "POST" then None
    else
      match Property(req.body, "content")
      case Threw => None
      case Found(content) => if Falsy(content) then None else content
  }

  /** No stored value is falsy: the slot is empty or holds a truthy value. */
  ghost predicate SlotOk(slot: Option<Json>) {
    slot == None || !Falsy(slot)
  }

  /** The reply to a request and the slot afterwards. */
  datatype Handled = Handled(reply: Reply, slot: Option<Json>)

  /** The handler as a function of the slot before the request. */
  function Answer(slot: Option<Json>, req: Request): (h: Handled)
    ensures h.slot == if Stored(req).Some? then Stored(req) else slot
    ensures h.reply.status == 201 <==> Stored(req).Some?
    ensures Stored(req).Some? ==> h.reply.body == Some(SuccessBody(Stored(req).value))
    ensures req.verb == "POST" && Stored(req) == None ==>
              h.reply == (if Property(req.body, "content").Threw? then Reply(500, Some(InternalError))
                          else Reply(400, Some(ContentRequired)))
    ensures req.verb == "GET" ==>
              h.reply == (if slot == None || Falsy(slot) then Reply(204, None) else Reply(200, Some(Obj1("result", slot.value))))
    ensures req.verb != "POST" && req.verb != "GET" ==> h.reply == Reply(405, Some(MethodNotAllowed))
    ensures SlotOk(slot) ==> SlotOk(h.slot)
  {
    if req.verb == "POST" then
      match Property(req.body, "content")
      case Threw => Handled(Reply(500, Some(InternalError)), slot)
      case Found(content) =>
        if Falsy(content) then Handled(Reply(400, Some(ContentRequired)), slot)
        else Handled(Reply(201, Some(SuccessBody(content.value))), content)
    else if req.verb == "GET" then
      if Falsy(slot) then Handled(Reply(204, None), slot)
      else Handled(Reply(200, Some(Obj1("result", slot.value))), slot)
    else Handled(Reply(405, Some(MethodNotAllowed)), slot)
  }

  /** The slot after a sequence of requests, handled in order. */
  function Run(slot: Option<Json>, reqs: seq<Request>): Option<Json>
    decreases |reqs|
  {
    if reqs == [] then slot else Run(Answer(slot, reqs[0]).slot, reqs[1..])
  }

  /** The content of the last storing request, if any. */
  function LastStored(reqs: seq<Request>): Option<Json>
    decreases |reqs|
  {
    if reqs == [] then None
    else if Stored(reqs[|reqs| - 1]).Some? then Stored(reqs[|reqs| - 1])
    else LastStored(reqs[..|reqs| - 1])
  }

  /** Handling `a + b` is handling `a`, then `b`. */
  lemma {:induction false} RunAppend(slot: Option<Json>, a: seq<Request>, b: seq<Request>)
    ensures Run(slot, a + b) == Run(Run(slot, a), b)
    decreases |a|
  {
    if a != [] {
      assert (a + b)[1..] == a[1..] + b;
      RunAppend(Answer(slot, a[0]).slot, a[1..], b);
    } else {
      assert a + b == b;
    }
  }

  /** Last write wins: after any sequence of requests the slot holds the last stored content, or its old value. */
  lemma {:induction false} RunIsLastWrite(slot: Option<Json>, reqs: seq<Request>)
    ensures Run(slot, reqs) == if LastStored(reqs).Some? then LastStored(reqs) else slot
    decreases |reqs|
  {
    if reqs != [] {
      var init, last := reqs[..|reqs| - 1], reqs[|reqs| - 1];
      assert reqs == init + [last];
      RunAppend(slot, init, [last]);
      RunIsLastWrite(slot, init);
    }
  }

  /** `POST { content: x }`. */
  function PostContent(x: Json): Request {
    Request("POST", Some(Obj1("content", x)))
  }

  const GetRequest := Request("GET", None)

  /** Round trip: after POST x, a GET returns `{ result: x }`, whatever the slot held before. */
  lemma PostThenGet(slot: Option<Json>, x: Json)
    requires !Falsy(Some(x))
    ensures Answer(Answer(slot, PostContent(x)).slot, GetRequest).reply == Reply(200, Some(Obj1("result", x)))
  {
  }

  /** Overwrite, not accumulate: POST x, POST y, GET returns y. */
  lemma PostPostThenGet(slot: Option<Json>, x: Json, y: Json)
    requires !Falsy(Some(x)) && !Falsy(Some(y))
    ensures Answer(Answer(Answer(slot, PostContent(x)).slot, PostContent(y)).slot, GetRequest).reply
            == Reply(200, Some(Obj1("result", y)))
  {
  }

  /** A GET does not consume the slot: two GETs in a row give the same reply. */
  lemma GetIsStable(slot: Option<Json>)
    ensures Answer(slot, GetRequest).slot == slot
    ensures Answer(Answer(slot, GetRequest).slot, GetRequest).reply == Answer(slot, GetRequest).reply
  {
  }

  /** The module-level slot and the route handler that reads and writes it. */
  class ResultStore {
    var messageOutput: Option<Json>

    ghost predicate Valid()
      reads this
    {
      SlotOk(messageOutput)
    }

    /** `let messageOutput = null` at module load. */
    constructor ()
      ensures Valid() && messageOutput == None
    {
      messageOutput := None;
    }

    /** `handler(req, res)`: updates the slot and finishes `res` as `Answer` says; sets no header. */
    method Handle(req: Request, res: ServerResponse)
      requires Valid()
      modifies this, res
      ensures Valid()
      ensures messageOutput == Answer(old(messageOutput), req).slot
      ensures res.Sent() == Answer(old(messageOutput), req).reply && res.finished
      ensures res.headers == old(res.headers)
    {
      if req.verb == "POST" {
        match Property(req.body, "content")
        case Threw =>
          res.Status(500);
          res.SendJson(Some(InternalError));
        case Found(content) =>
          if Falsy(content) {
            res.Status(400);
            res.SendJson(Some(ContentRequired));
            return;
          }
          messageOutput := content;
          res.Status(201);
          res.SendJson(Some(SuccessBody(content.value)));
      } else if req.verb == "GET" {
        if Falsy(messageOutput) {
          res.Status(204);
          res.End();
          return;
        }
        res.Status(200);
        res.SendJson(Some(Obj1("result", messageOutput.value)));
      } else {
        res.Status(405);
        res.SendJson(Some(MethodNotAllowed));
      }
    }
  }
}
