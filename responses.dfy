/** The uniform result of every connector call: the envelope, the mapping
    from an upstream HTTP response to it, and its rendering as the PHP array
    the connectors return. */
module Responses {
  import opened Php

  /** Response headers: each name with its list of values. */
  type Headers = map<string, seq<string>>

  /** The envelope. A success has no message, a failure has no headers. */
  datatype Envelope =
    | Success(status: int, data: Assoc, headers: Headers)
    | Failure(message: string, status: int, data: Assoc)

  /** What the HTTP client hands back: the status code, the body as
      `json_decode(..., true)` reads it (None for `null` or an undecodable
      body) and the headers. */
  datatype HttpResponse = HttpResponse(statusCode: int, body: Option<Assoc>, headers: Headers)

  /** The outcome of one transport call: a response, or an exception thrown
      in place of one. `Raised` is the one exception class the connectors'
      catch clause names (Symfony's BadRequestException); `Thrown` is any
      other, such as the HTTP client's own connection errors, which no
      catch clause in the connectors names. */
  datatype Reply =
    | Answered(response: HttpResponse)
    | Raised(message: string, code: int)
    | Thrown(error: string)

  /** A call that either returns an envelope or ends in an uncaught error. */
  datatype Outcome = Returned(envelope: Envelope) | Fatal(error: string)

  function StrList(vs: seq<string>): seq<Value> {
    seq(|vs|, i requires 0 <= i < |vs| => Str(vs[i]))
  }

  function HeadersValue(h: Headers): Value {
    Arr(map k | k in h :: List(StrList(h[k])))
  }

  /** The envelope as the PHP array the connectors return. */
  function ToArray(e: Envelope): (a: Assoc)
    ensures "success" in a && "status" in a && "data" in a
    ensures a["success"] == Bool(e.Success?) && a["status"] == Int(e.status) && a["data"] == Arr(e.data)
    ensures "message" in a <==> e.Failure?
    ensures "headers" in a <==> e.Success?
    ensures |a.Keys| == 4
  {
    match e
    case Success(status, data, headers) =>
      map["success" := Bool(true), "status" := Int(status), "data" := Arr(data), "headers" := HeadersValue(headers)]
    case Failure(message, status, data) =>
      map["success" := Bool(false), "message" := Str(message), "status" := Int(status), "data" := Arr(data)]
  }

  lemma StrListInjective(vs: seq<string>, ws: seq<string>)
    requires StrList(vs) == StrList(ws)
    ensures vs == ws
  {
    assert |vs| == |StrList(vs)|;
    forall i | 0 <= i < |vs| ensures vs[i] == ws[i] {
      assert StrList(vs)[i] == Str(vs[i]);
      assert StrList(ws)[i] == Str(ws[i]);
    }
  }

  /** The PHP array determines the envelope: the datatype abstracts nothing away. */
  lemma ToArrayInjective(e1: Envelope, e2: Envelope)
    requires ToArray(e1) == ToArray(e2)
    ensures e1 == e2
  {
    if e1.Success? && e2.Success? {
      var m1 := HeadersValue(e1.headers).entries;
      var m2 := HeadersValue(e2.headers).entries;
      assert m1 == m2 by {
        assert ToArray(e1)["headers"] == ToArray(e2)["headers"];
      }
      assert e1.headers.Keys == m1.Keys;
      forall k | k in e1.headers ensures e1.headers[k] == e2.headers[k] {
        assert m1[k] == List(StrList(e1.headers[k]));
        assert m2[k] == List(StrList(e2.headers[k]));
        StrListInjective(e1.headers[k], e2.headers[k]);
      }
    } else if e1.Failure? && e2.Failure? {
      assert ToArray(e1)["message"] == ToArray(e2)["message"];
    }
  }

  /** successResponse: the body and headers it is given, reported with
      status 200 whatever the upstream status was. */
  function SuccessResponse(body: Assoc, headers: Headers): (r: Envelope)
    ensures ToArray(r) == map["success" := Bool(true), "status" := Int(200), "data" := Arr(body),
                              "headers" := HeadersValue(headers)]
  {
    Success(200, body, headers)
  }

  /** failedResponse: its message, status and data unchanged, under
      success = false; status 200 and empty data unless given. */
  function FailedResponse(message: string, status: int := 200, data: Assoc := map[]): (r: Envelope)
    ensures ToArray(r) == map["success" := Bool(false), "message" := Str(message), "status" := Int(status),
                              "data" := Arr(data)]
  {
    Failure(message, status, data)
  }

  /** `$body['message'] ?? ''` passed to a `string` parameter: an absent or
      null entry gives '', a string is itself, an int its decimal digits and a
      bool "1" or ''. */
  function MessageOf(body: Assoc): (m: string)
    ensures "message" !in body ==> m == ""
    ensures "message" in body && body["message"].Str? ==> m == body["message"].s
    ensures "message" in body && body["message"].Null? ==> m == ""
    ensures "message" in body && body["message"].Int? ==> m == IntToString(body["message"].i)
    ensures "message" in body && body["message"].Bool? ==> m == (if body["message"].b then "1" else "")
  {
    if "message" !in body then ""
    else
      match body["message"]
      case Str(s) => s
      case Int(i) => IntToString(i)
      case Bool(b) => if b then "1" else ""
      case _ => ""
  }

  /** response(): 200 and 201 succeed and are both reported as 200; any
      other status fails with the upstream status, the body's message and
      the body. A null body reads as the empty array either way. */
  function Response(resp: HttpResponse): (r: Envelope)
    ensures r.Success? <==> resp.statusCode == 200 || resp.statusCode == 201
    ensures r.Success? ==> r == Success(200, resp.body.GetOr(map[]), resp.headers)
    ensures r.Failure? ==> r.status == resp.statusCode && r.data == resp.body.GetOr(map[])
    ensures r.Failure? ==> r.message == MessageOf(resp.body.GetOr(map[]))
  {
    if resp.statusCode == 200 || resp.statusCode == 201 then
      SuccessResponse(resp.body.GetOr(map[]), resp.headers)
    else
      var body := resp.body.GetOr(map[]);
      FailedResponse(MessageOf(body), resp.statusCode, body)
  }

  /** The envelope cannot tell 201 Created from 200 OK. */
  lemma CreatedReadsAsOk(resp: HttpResponse)
    requires resp.statusCode == 201
    ensures Response(resp) == Response(resp.(statusCode := 200))
  {
  }

  /** get/put/post as written: when the client raises the caught exception,
      the catch branch reads the response variable, which was never
      assigned, and the call dies with an error instead of returning; any
      other exception passes through uncaught. */
  function ExchangeAsWritten(reply: Reply): (o: Outcome)
    ensures reply.Answered? <==> o.Returned?
    ensures reply.Answered? ==> o == Returned(Response(reply.response))
    ensures reply.Thrown? ==> o == Fatal(reply.error)
  {
    match reply
    case Answered(resp) => Returned(Response(resp))
    case Raised(_, _) => Fatal("Call to a member function getBody() on null")
    case Thrown(error) => Fatal(error)
  }

  /** get/put/post as intended: the caught exception becomes a failure with
      its message and code and no response data; any other exception still
      passes through uncaught. */
  function Exchange(reply: Reply): (o: Outcome)
    ensures reply.Raised? ==> o == Returned(FailedResponse(reply.message, reply.code, map[]))
    ensures reply.Answered? ==> o == Returned(Response(reply.response))
    ensures reply.Thrown? ==> o == Fatal(reply.error)
    ensures o.Returned? && o.envelope.Success? ==> reply.Answered? && reply.response.statusCode in {200, 201}
  {
    match reply
    case Answered(resp) => Returned(Response(resp))
    case Raised(message, code) => Returned(FailedResponse(message, code))
    case Thrown(error) => Fatal(error)
  }

  /** The two differ exactly on the caught exception: the correction touches
      nothing but the catch branch. */
  lemma ExchangeCorrectsCatchBranch(reply: Reply)
    ensures reply.Raised? <==> ExchangeAsWritten(reply) != Exchange(reply)
  {
  }
}
