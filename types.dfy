/** Values that travel through the contact-form API: the JavaScript values a
    request body or a stored document holds, the opaque driver handles, and
    the request object that the middleware chain updates in place. */
module Types {

  datatype Option<+T> = None | Some(value: T)

  /** A JavaScript value as it appears in a parsed request body or in a
      document handed to the driver. Numbers are abstracted to integers;
      `Date` is a server-side timestamp (milliseconds), never client-supplied. */
  datatype Value =
    | Str(s: string)
    | Num(n: int)
    | Bool(b: bool)
    | Null
    | Arr(items: seq<Value>)
    | Obj(fields: map<string, Value>)
    | Date(millis: int)

  /** A parsed body: the own enumerable keys of `req.body` and their values. */
  type Body = map<string, Value>

  /** Opaque handles returned by the MongoDB driver. Only their identity matters. */
  datatype Client = Client(id: nat)
  datatype Db = Db(id: nat)

  /** The Express request as far as the core reads and writes it:
      `req.body` (rewritten by the sanitising middleware), `req.db` (set by the
      connection middleware) and `req.ip`. `body` is `None` when `req.body` is
      undefined. */
  class Request {
    var body: Option<Body>
    var db: Option<Db>
    var ip: string

    constructor (body: Option<Body>, ip: string)
      ensures this.body == body && this.db == None && this.ip == ip
    {
      this.body := body;
      this.db := None;
      this.ip := ip;
    }
  }
}
