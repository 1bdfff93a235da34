/** The cross-origin middleware every request passes through before
    routing. */
module Cors {
  type Headers = map<string, string>

  const AllowOrigin := "Access-Control-Allow-Origin"
  const AllowCredentials := "Access-Control-Allow-Credentials"
  const AllowHeaders := "Access-Control-Allow-Headers"
  const AllowMethods := "Access-Control-Allow-Methods"

  /** The development and the deployed frontend. */
  const AllowedOrigins: set<string> := {"http://localhost:5173", "https://crypto-wallet-woad.vercel.app"}

  const HeaderList := "Content-Type, Authorization, Content-Length, X-Requested-With"
  const MethodList := "GET, POST, PUT, PATCH, DELETE, OPTIONS"

  /** A preflight ends the request with 204 No Content; any other request
      goes on to the router. */
  datatype Outcome = Abort(status: int) | Next

  datatype Passed = Passed(headers: Headers, outcome: Outcome)

  /** The middleware on a request with `verb` and `Origin` header
      `origin` (empty when absent), given the response headers set so
      far. */
  function Middleware(verb: string, origin: string, headers: Headers): (r: Passed)
    ensures AllowOrigin in r.headers && origin in AllowedOrigins ==> r.headers[AllowOrigin] == origin
    ensures origin !in AllowedOrigins ==> (AllowOrigin in r.headers <==> AllowOrigin in headers)
    ensures origin !in AllowedOrigins && AllowOrigin in headers ==> r.headers[AllowOrigin] == headers[AllowOrigin]
    ensures origin in AllowedOrigins ==> AllowOrigin in r.headers
    ensures AllowCredentials in r.headers && r.headers[AllowCredentials] == "true"
    ensures AllowHeaders in r.headers && r.headers[AllowHeaders] == HeaderList
    ensures AllowMethods in r.headers && r.headers[AllowMethods] == MethodList
    ensures forall k :: k in headers && k !in {AllowOrigin, AllowCredentials, AllowHeaders, AllowMethods} ==>
      k in r.headers && r.headers[k] == headers[k]
    ensures r.headers.Keys == headers.Keys + {AllowCredentials, AllowHeaders, AllowMethods}
                              + (if origin in AllowedOrigins then {AllowOrigin} else {})
    ensures r.outcome == Abort(204) <==> verb == "OPTIONS"
    ensures r.outcome.Next? <==> verb != "OPTIONS"
  {
    var echoed := if origin in AllowedOrigins then headers[AllowOrigin := origin] else headers;
    var set3 := echoed[AllowCredentials := "true"][AllowHeaders := HeaderList][AllowMethods := MethodList];
    Passed(set3, if verb == "OPTIONS" then Abort(204) else Next)
  }

  /** The headers do not depend on the verb, and whether the request is
      stopped does not depend on the origin: a preflight from an unknown
      origin is answered 204 all the same, only without the allow-origin
      header. */
  lemma Independence(m1: string, m2: string, o1: string, o2: string, headers: Headers)
    ensures Middleware(m1, o1, headers).headers == Middleware(m2, o1, headers).headers
    ensures Middleware(m1, o1, headers).outcome == Middleware(m1, o2, headers).outcome
  {
  }

  /** Running the middleware twice sets the same headers as running it
      once. */
  lemma Idempotent(verb: string, origin: string, headers: Headers)
    ensures var once := Middleware(verb, origin, headers);
      Middleware(verb, origin, once.headers) == once
  {
    var once := Middleware(verb, origin, headers);
    var twice := Middleware(verb, origin, once.headers);
    assert twice.headers.Keys == once.headers.Keys;
  }
}
