/**
 * The TypeScript compile endpoint: CORS headers, then OPTIONS / 405 / 400 / transpile dispatch.
 * The TypeScript compiler's `transpileModule` is a parameter that returns output text or throws.
 */
module Compile {
  import opened JsValues
  import opened Http
  import Cors

  /** The parts of a request the handler reads. */
  datatype Request = Request(verb: string, body: JsValue)

  /** What `transpileModule(code, { module: CommonJS })` does with the request's code. */
  datatype Transpiled = Output(outputText: string) | Threw(message: string)

  /** The methods announced in `Access-Control-Allow-Methods`. */
  const Methods := List(["POST", "OPTIONS"])

  /** The body check `!req.body || !req.body.code` fails. */
  predicate MissingCode(body: JsValue) {
    !Truthy(body) || !Truthy(Prop(body, "code").value)
  }

  /** The reply the handler sends for a request. */
  function Decide(req: Request, transpile: JsValue -> Transpiled): (r: Reply)
    ensures r.status == 200 || r.status == 400 || r.status == 405 || r.status == 500
    ensures r.body == Empty <==> req.verb == "OPTIONS"
    ensures r.status == 405 <==> req.verb != "OPTIONS" && req.verb != "POST"
    ensures r.status == 405 ==> r.body == Json(ErrorObject("Method Not Allowed"))
    ensures r.status == 400 <==> req.verb == "POST" && MissingCode(req.body)
    ensures r.status == 400 ==> r.body == Json(ErrorObject("Bad Request: \"code\" is required"))
    ensures r.status == 500 <==> req.verb == "POST" && !MissingCode(req.body) && transpile(Prop(req.body, "code").value).Threw?
  {
    if req.verb == "OPTIONS" then
      Reply(200, Empty)
    else if req.verb != "POST" then
      Reply(405, Json(ErrorObject("Method Not Allowed")))
    else if MissingCode(req.body) then
      Reply(400, Json(ErrorObject("Bad Request: \"code\" is required")))
    else
      match transpile(Prop(req.body, "code").value)
      case Output(text) => Reply(200, Json(Obj(map["jsCode" := Str(text)])))
      case Threw(message) =>
        Reply(500, Json(Obj(map["error" := Str("Internal Server Error"), "details" := Str(message)])))
  }

  /** The transpiler is consulted only for a POST that carries code: nothing else depends on it. */
  lemma TranspileOnlyForValidPost(req: Request, t1: JsValue -> Transpiled, t2: JsValue -> Transpiled)
    requires req.verb != "POST" || MissingCode(req.body)
    ensures Decide(req, t1) == Decide(req, t2)
  {
  }

  /** A valid POST answers 200 with the transpiler's output text, or 500 with its error, and nothing else. */
  lemma ValidPostReply(req: Request, transpile: JsValue -> Transpiled)
    requires req.verb == "POST" && !MissingCode(req.body)
    ensures var out := transpile(Prop(req.body, "code").value);
      Decide(req, transpile) ==
        if out.Output? then Reply(200, Json(Obj(map["jsCode" := Str(out.outputText)])))
        else Reply(500, Json(Obj(map["error" := Str("Internal Server Error"), "details" := Str(out.message)])))
  {
  }

  /** The endpoint handler: CORS headers first on every request, then exactly one response. */
  method Handle(req: Request, res: ServerResponse, transpile: JsValue -> Transpiled)
    modifies res
    ensures res.headers == Cors.WithCors(old(res.headers), Methods)
    ensures res.sent == old(res.sent) + [Decide(req, transpile)]
  {
    Cors.SetCorsHeaders(res, Methods);
    if req.verb == "OPTIONS" {
      res.Status(200);
      res.End();
      return;
    }
    if req.verb != "POST" {
      res.Status(405);
      res.SendJson(ErrorObject("Method Not Allowed"));
      return;
    }
    if !Truthy(req.body) || !Truthy(Prop(req.body, "code").value) {
      res.Status(400);
      res.SendJson(ErrorObject("Bad Request: \"code\" is required"));
      return;
    }
    var tsCode := Prop(req.body, "code").value;
    match transpile(tsCode) {
      case Output(text) =>
        res.Status(200);
        res.SendJson(Obj(map["jsCode" := Str(text)]));
      case Threw(message) =>
        res.Status(500);
        res.SendJson(Obj(map["error" := Str("Internal Server Error"), "details" := Str(message)]));
    }
  }
}
