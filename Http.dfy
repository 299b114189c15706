/**
 * The serverless response object the backend handlers write to: a header map, a status code set
 * by `res.status(...)`, and the responses sent with `res.json(...)` or `res.end()`.
 */
module Http {
  import opened JsValues

  /** A header value: `setHeader` accepts a string or an array of strings. */
  datatype HeaderValue = Text(text: string) | List(items: seq<string>)

  /** The body of a sent response: nothing (`end()`) or a JSON value (`json(...)`). */
  datatype Body = Empty | Json(value: JsValue)

  /** One sent response: its status code and its body. */
  datatype Reply = Reply(status: int, body: Body)

  class ServerResponse {
    var headers: map<string, HeaderValue>
    var statusCode: int
    /** Every response sent so far, in order. */
    var sent: seq<Reply>

    constructor ()
      ensures headers == map[] && statusCode == 200 && sent == []
    {
      headers := map[];
      statusCode := 200;
      sent := [];
    }

    /** `res.setHeader(name, value)`: writes one header, replacing an earlier value. */
    method SetHeader(name: string, value: HeaderValue)
      modifies this
      ensures headers == old(headers)[name := value]
      ensures statusCode == old(statusCode) && sent == old(sent)
    {
      headers := headers[name := value];
    }

    /** `res.status(code)`: sets the status of the response to be sent. */
    method Status(code: int)
      modifies this
      ensures statusCode == code
      ensures headers == old(headers) && sent == old(sent)
    {
      statusCode := code;
    }

    /** `res.json(value)`: sends the value with the current status. */
    method SendJson(value: JsValue)
      modifies this
      ensures sent == old(sent) + [Reply(old(statusCode), Json(value))]
      ensures headers == old(headers) && statusCode == old(statusCode)
    {
      sent := sent + [Reply(statusCode, Json(value))];
    }

    /** `res.end()`: sends an empty body with the current status. */
    method End()
      modifies this
      ensures sent == old(sent) + [Reply(old(statusCode), Empty)]
      ensures headers == old(headers) && statusCode == old(statusCode)
    {
      sent := sent + [Reply(statusCode, Empty)];
    }
  }
}
