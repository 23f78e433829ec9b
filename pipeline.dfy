/** The order in which the application runs the pieces for one request:
    the CORS gate, then the connection middleware, then sanitisation, then
    the route. Helmet, the `cors` package, the rate limiter and the body
    parsers sit between them and are not modelled. */
module Pipeline {
  import opened Types
  import Cors
  import Connection
  import Sanitize
  import Contact
  import Health

  /** Everything outside the program that one request depends on. */
  datatype World = World(
    attempt: Connection.Attempt,
    strip: string -> string,
    isEmail: string -> bool,
    createdAt: int,
    updatedAt: int,
    insertOk: bool,
    ping: Health.Probe<()>,
    stats: Health.Probe<Health.Stats>,
    now: string,
    nodeEnv: Option<string>)

  /** The two modelled handlers, and everything else the router reaches
      (`/test-mongodb`, `/`, the 404 catch-all). */
  datatype Route = PostContact | GetHealth | OtherRoute

  /** `app.post("/contact")` and `app.get("/health")`; Express also answers
      `HEAD` with a `GET` handler. */
  function Dispatch(httpMethod: string, path: string): (r: Route)
    ensures r == PostContact <==> httpMethod == "POST" && path == "/contact"
    ensures r == GetHealth <==> (httpMethod == "GET" || httpMethod == "HEAD") && path == "/health"
  {
    if httpMethod == "POST" && path == "/contact" then PostContact
    else if (httpMethod == "GET" || httpMethod == "HEAD") && path == "/health" then GetHealth
    else OtherRoute
  }

  datatype Served =
    | Preflight(headers: map<string, string>)
    | ContactServed(headers: map<string, string>, submission: Contact.Submission)
    | HealthServed(headers: map<string, string>, reply: Health.HealthReply)
    | OtherServed(headers: map<string, string>)

  /** The body the route sees: the sanitised one. */
  function SanitizedBody(body: Option<Body>, strip: string -> string): Option<Body>
  {
    if body.Some? then Some(Sanitize.SanitizeBody(body.value, strip)) else None
  }

  /** One request through the chain. */
  method Serve(cache: Connection.ConnectionCache, req: Request, httpMethod: string, path: string,
               origin: Option<string>, w: World)
    returns (served: Served)
    modifies cache, req
    // a pre-flight request is answered by the CORS gate: no connection is attempted
    ensures httpMethod == "OPTIONS" ==>
              served == Preflight(Cors.CorsGate(httpMethod, origin, map[]).headers)
              && cache.State() == old(cache.State())
              && req.body == old(req.body) && req.db == old(req.db) && req.ip == old(req.ip)
    // every other request goes through the connection cache exactly once, whatever its route
    ensures httpMethod != "OPTIONS" ==>
              cache.State() == Connection.Connect(old(cache.State()), w.attempt).next
              && req.db == Connection.RequestDb(old(cache.State()), w.attempt)
              && req.body == SanitizedBody(old(req.body), w.strip)
              && req.ip == old(req.ip)
    ensures httpMethod != "OPTIONS" && Dispatch(httpMethod, path) == PostContact ==>
              served.ContactServed?
              && served.submission == Contact.Submit(SanitizedBody(old(req.body), w.strip),
                                                     Connection.RequestDb(old(cache.State()), w.attempt),
                                                     old(req.ip), w.createdAt, w.updatedAt, w.insertOk, w.isEmail)
    // the health route always answers 200 "OK", and reports the db the middleware attached
    ensures httpMethod != "OPTIONS" && Dispatch(httpMethod, path) == GetHealth ==>
              served.HealthServed?
              && served.reply.httpStatus == 200 && served.reply.status == "OK"
              && (Connection.RequestDb(old(cache.State()), w.attempt).None? <==>
                  served.reply.database == "disconnected")
              && (Connection.RequestDb(old(cache.State()), w.attempt).Some? && w.ping.Resolves? && w.stats.Resolves? ==>
                  served.reply.database == "connected")
    ensures httpMethod != "OPTIONS" && Dispatch(httpMethod, path) == OtherRoute ==> served.OtherServed?
  {
    var gate := Cors.CorsGate(httpMethod, origin, map[]);
    if gate.after.EndWith? {
      return Preflight(gate.headers);
    }
    cache.AttachDb(req, w.attempt);
    Sanitize.SanitizeRequest(req, w.strip);
    match Dispatch(httpMethod, path)
    case PostContact =>
      var submission := Contact.Submit(req.body, req.db, req.ip, w.createdAt, w.updatedAt, w.insertOk, w.isEmail);
      served := ContactServed(gate.headers, submission);
    case GetHealth =>
      var reply := Health.CheckHealth(req.db, w.ping, w.stats, w.now, w.nodeEnv);
      served := HealthServed(gate.headers, reply);
    case OtherRoute =>
      served := OtherServed(gate.headers);
  }

  /** Every schema key names one field. */
  lemma SchemaKeyField(k: string) returns (f: Contact.Field)
    requires k in Contact.SchemaKeys
    ensures Contact.Key(f) == k
  {
    if k == "name" { f := Contact.Name; }
    else if k == "email" { f := Contact.Email; }
    else if k == "phone" { f := Contact.Phone; }
    else if k == "service" { f := Contact.Service; }
    else { f := Contact.Message; }
  }

  /** Markup never reaches the store: every value that a submitted body
      contributes to an inserted document was a string in the request and is
      stored in its stripped form. Non-string values never get that far. */
  lemma StoredFieldsAreStripped(body: Body, db: Option<Db>, ip: string, createdAt: int, updatedAt: int,
                                insertOk: bool, strip: string -> string, isEmail: string -> bool,
                                i: nat, k: string)
    requires i < |Contact.Submit(SanitizedBody(Some(body), strip), db, ip, createdAt, updatedAt, insertOk, isEmail).inserts|
    requires k in body
    ensures body[k].Str?
    ensures Contact.Submit(SanitizedBody(Some(body), strip), db, ip, createdAt, updatedAt, insertOk, isEmail)
              .inserts[i].document[k] == Str(strip(body[k].s))
  {
    var clean := Sanitize.SanitizeBody(body, strip);
    assert Contact.Accepts(Some(clean), isEmail);
    var f := SchemaKeyField(k);
    assert Contact.FieldOk(f, Contact.Lookup(clean, f), isEmail);
    assert Contact.Lookup(clean, f) == Some(clean[k]);
  }
}
