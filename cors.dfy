/** The hand-written CORS middleware that runs before every route: it echoes
    the caller's origin only when that origin is on a fixed list, always adds
    the method, header and credential headers, and answers pre-flight
    `OPTIONS` requests itself with an empty 200. */
module Cors {
  import opened Types

  const AllowedOrigins: seq<string> :=
    ["https://isothermica.com.br", "https://isothermica-backend.vercel.app"]

  const AllowOrigin := "Access-Control-Allow-Origin"
  const AllowMethods := "Access-Control-Allow-Methods"
  const AllowHeaders := "Access-Control-Allow-Headers"
  const AllowCredentials := "Access-Control-Allow-Credentials"

  /** What the middleware does after setting its headers. */
  datatype Continuation = EndWith(status: nat) | Next

  datatype Gate = Gate(headers: map<string, string>, after: Continuation)

  /** `allowedOrigins.includes(origin)`; an absent `Origin` header is never listed. */
  predicate Listed(origin: Option<string>)
  {
    origin.Some? && origin.value in AllowedOrigins
  }

  /** Runs the middleware on a request with the given method and `Origin`
      header, starting from the response headers already set. */
  function CorsGate(httpMethod: string, origin: Option<string>, headers: map<string, string>): (g: Gate)
    // the allow-origin header is written exactly for listed origins, and then echoes the origin
    ensures Listed(origin) ==> AllowOrigin in g.headers && g.headers[AllowOrigin] == origin.value
    ensures !Listed(origin) ==> (AllowOrigin in g.headers <==> AllowOrigin in headers)
    ensures !Listed(origin) && AllowOrigin in headers ==> g.headers[AllowOrigin] == headers[AllowOrigin]
    // the other three headers are set on every request
    ensures AllowMethods in g.headers && g.headers[AllowMethods] == "GET, POST, OPTIONS"
    ensures AllowHeaders in g.headers && g.headers[AllowHeaders] == "Content-Type, Authorization"
    ensures AllowCredentials in g.headers && g.headers[AllowCredentials] == "true"
    // no other header is touched
    ensures g.headers.Keys == headers.Keys + {AllowMethods, AllowHeaders, AllowCredentials}
                              + (if Listed(origin) then {AllowOrigin} else {})
    ensures forall h :: h in headers && h !in {AllowOrigin, AllowMethods, AllowHeaders, AllowCredentials}
                        ==> g.headers[h] == headers[h]
    // pre-flight requests stop here with 200; everything else continues down the chain
    ensures g.after == (if httpMethod == "OPTIONS" then EndWith(200) else Next)
  {
    var withOrigin := if Listed(origin) then headers[AllowOrigin := origin.value] else headers;
    var all := withOrigin[AllowMethods := "GET, POST, OPTIONS"]
                         [AllowHeaders := "Content-Type, Authorization"]
                         [AllowCredentials := "true"];
    Gate(all, if httpMethod == "OPTIONS" then EndWith(200) else Next)
  }

  /** This middleware echoes back only the two listed origins. (The `cors`
      package that runs after it on other methods reflects a longer list.) */
  lemma EchoedOriginIsListed(httpMethod: string, origin: Option<string>)
    ensures AllowOrigin in CorsGate(httpMethod, origin, map[]).headers
            ==> CorsGate(httpMethod, origin, map[]).headers[AllowOrigin] in AllowedOrigins
  {
  }
}
