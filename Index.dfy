/**
 * The hello-world endpoint: inside one try block, CORS headers for GET, then OPTIONS / 405 / 200;
 * an exception anywhere in the block answers 500.
 */
module Index {
  import opened JsValues
  import opened Http
  import Cors

  const Methods := Text("GET")

  /**
   * The reply for a request with the given HTTP method `verb`. `fault` stands for an exception thrown inside
   * the try block (by the header writes, the only host calls before a response is sent).
   */
  function Decide(verb: string, fault: bool): (r: Reply)
    ensures r.status == 200 || r.status == 405 || r.status == 500
    ensures r.status == 500 <==> fault
    ensures r.body == Empty <==> !fault && verb == "OPTIONS"
    ensures r.status == 405 <==> !fault && verb != "OPTIONS" && verb != "GET"
    ensures r.status == 405 ==> r.body == Json(ErrorObject("Method Not Allowed"))
    ensures r.status == 500 ==> r.body == Json(ErrorObject("Internal Server Error"))
  {
    if fault then Reply(500, Json(ErrorObject("Internal Server Error")))
    else if verb == "OPTIONS" then Reply(200, Empty)
    else if verb != "GET" then Reply(405, Json(ErrorObject("Method Not Allowed")))
    else Reply(200, Json(Obj(map["message" := Str("Hello, World!")])))
  }

  /** A GET that does not fault is answered with the greeting. */
  lemma GetGreets()
    ensures Decide("GET", false) == Reply(200, Json(Obj(map["message" := Str("Hello, World!")])))
  {
  }

  /** The handler: headers set first (unless the fault is raised by them), then exactly one response. */
  method Handle(verb: string, res: ServerResponse, fault: bool)
    modifies res
    ensures res.headers == if fault then old(res.headers) else Cors.WithCors(old(res.headers), Methods)
    ensures res.sent == old(res.sent) + [Decide(verb, fault)]
  {
    if fault {
      // console.error('Error in api/index.ts:', error) is host logging and not modelled
      res.Status(500);
      res.SendJson(ErrorObject("Internal Server Error"));
      return;
    }
    Cors.SetCorsHeaders(res, Methods);
    if verb == "OPTIONS" {
      res.Status(200);
      res.End();
      return;
    }
    if verb != "GET" {
      res.Status(405);
      res.SendJson(ErrorObject("Method Not Allowed"));
      return;
    }
    res.Status(200);
    res.SendJson(Obj(map["message" := Str("Hello, World!")]));
  }
}
