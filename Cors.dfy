/** `setCorsHeaders`: three successive header writes on a response. */
module Cors {
  import opened Http

  const AllowOrigin := "Access-Control-Allow-Origin"
  const AllowMethods := "Access-Control-Allow-Methods"
  const AllowHeaders := "Access-Control-Allow-Headers"

  /** The header map after the three writes of `setCorsHeaders(res, methods)` on headers `h`. */
  function WithCors(h: map<string, HeaderValue>, methods: HeaderValue): (r: map<string, HeaderValue>)
    ensures AllowOrigin in r && r[AllowOrigin] == Text("*")
    ensures AllowMethods in r && r[AllowMethods] == methods
    ensures AllowHeaders in r && r[AllowHeaders] == Text("Content-Type")
    ensures r.Keys == h.Keys + {AllowOrigin, AllowMethods, AllowHeaders}
    ensures forall k :: k in h && k != AllowOrigin && k != AllowMethods && k != AllowHeaders ==> r[k] == h[k]
  {
    h[AllowOrigin := Text("*")][AllowMethods := methods][AllowHeaders := Text("Content-Type")]
  }

  /** The writes overwrite: a second call decides the header map alone, so calling twice with the same methods is calling once. */
  lemma LaterCallWins(h: map<string, HeaderValue>, m1: HeaderValue, m2: HeaderValue)
    ensures WithCors(WithCors(h, m1), m2) == WithCors(h, m2)
    ensures WithCors(WithCors(h, m1), m1) == WithCors(h, m1)
  {
  }

  method SetCorsHeaders(res: ServerResponse, methods: HeaderValue)
    modifies res
    ensures res.headers == WithCors(old(res.headers), methods)
    ensures res.statusCode == old(res.statusCode) && res.sent == old(res.sent)
  {
    res.SetHeader(AllowOrigin, Text("*"));
    res.SetHeader(AllowMethods, methods);
    res.SetHeader(AllowHeaders, Text("Content-Type"));
  }
}
