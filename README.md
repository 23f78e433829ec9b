# Isothermica contact-form API — a Dafny model of its request-handling core

The service is an Express application that takes contact-form submissions
(name, email, phone, service, message) and stores them in MongoDB. It also
answers a health check. This project models the parts of `src/index.js` that
make decisions:

- **CORS gate** (`Cors`): the hand-written middleware. It echoes the `Origin`
  header only for the two listed origins and always sets the method, header
  and credential headers. It answers `OPTIONS` with an empty 200.
- **Connection cache** (`Connection`): `connectToDatabase` over the two
  process-wide variables `cachedClient` / `cachedDb`, as a class with those two
  fields. A pure function `Connect` gives the same step, and lemmas cover runs
  of calls. The per-request middleware sets `req.db` to the cached database,
  or to `null` when connecting fails.
- **Sanitiser** (`Sanitize`): `sanitizeInput` and the middleware that rewrites
  every top-level key of `req.body` in place.
- **Submission** (`Contact`): the Joi schema with `abortEarly: false`, made
  explicit. The route then picks one of four outcomes: 400 with every
  violation, 200 "offline", one `insertOne` followed by 200, or 500.
- **Health** (`Health`): `/health`'s step-by-step computation of `dbStatus` /
  `dbDetails`.
- **Pipeline** (`Pipeline`): the order in which these run for one request,
  and end-to-end consequences of that order.

Foreign code is never given a meaning. `sanitize-html` with no allowed tags is
a function parameter `strip: string -> string`. Joi's email grammar is a
parameter `isEmail: string -> bool`. Everything proved holds for every such
function. The driver's behaviour is an input: whether `MONGODB_URI` is set,
whether `new MongoClient` accepts it, whether `connect` and `ping` succeed, whether `insertOne` resolves, and what
`ping` and `stats` return. So are `req.ip`, `NODE_ENV`, the ISO timestamp and
the two `new Date()` readings.

The Joi schema is modelled the way Joi v17 checks each key:

1. A missing required key gives `any.required`. `phone` is optional.
2. A value outside `.valid(...)` gives `any.only`, and checking goes on.
3. A non-string gives `string.base`, and `""` gives `string.empty`. Either one
   ends that key's checks. `phone`'s `.allow("")` accepts `""` first.
4. Otherwise every rule is checked: `min`, `max` and `email`.

Keys the schema does not declare are reported as `object.unknown`. They are
kept as a set, because a Dafny map has no insertion order.

Behaviour a reader might expect of such a service that the code does not have:

- The code never deduplicates concurrent first connections. Calls to the
  cache are modelled one after another.
- A valid submission with no database gets 200 with a note. It is not rejected as "service unavailable", so the client cannot tell that nothing was stored.
- `email` is not lower-cased.
- There is no `/contacts` listing and no key check.
- `/health` does not open a connection itself. But the database middleware
  runs before every route, so a `/health` request does call
  `connectToDatabase` (`Pipeline.Serve`).

## Model

| member | source | states |
|---|---|---|
| `Cors.CorsGate` | src/index.js:25-43 | Allow-Origin is set to the request's origin exactly when that origin is one of the two listed. Methods, Headers and Credentials are always set to their fixed values. No other header changes. `OPTIONS` ends with 200 and every other method continues. |
| `Cors.EchoedOriginIsListed` | src/index.js:26-34 | This middleware echoes back an origin only when it is one of its two listed origins. |
| `Connection.Connect` | src/index.js:78-117 | A filled cache (both handles set) returns its pair, stays as it is and never calls `connect`. On a miss, the call resolves exactly when the URI is set, `new MongoClient` accepts it, and `connect` and `ping` both succeed. It then caches and returns the same new pair. Any failure empties both fields and reports the first failing step: missing URI, malformed URI, connect or ping. `connect` is called exactly on a miss with a URI the client accepts. The cache afterwards holds both handles or neither. |
| `Connection.RequestDb` | src/index.js:120-130 | `req.db` is the cached db on a hit, the new db on a successful fresh attempt, and `null` exactly when `connectToDatabase` rejects. |
| `Connection.FilledCacheIsStable` | src/index.js:79-82 | Once the cache is filled, every later call returns the same pair, leaves the cache unchanged and opens nothing, whatever the driver would do. |
| `Connection.AtMostOneConnection` | src/index.js:78-110 | Over any sequence of calls, at most one call connects, pings and caches a pair. From a filled cache, none does. Calls whose ping fails after `connect` resolved are not bounded. |
| `Connection.RunEndsInAfter` | src/index.js:75-117 | The cache after a sequence of calls is the cache left by the last call of that sequence. |
| `Connection.FailureResetsRun` | src/index.js:111-116 | After a failed call, every later sequence of calls behaves as it would from a fresh process. |
| `Connection.RunKeepsCacheConsistent` | src/index.js:75-117 | If the cache starts with both fields null or both set, that holds after any number of calls. |
| `Connection.ConnectionCache.constructor` | src/index.js:75-76 | Both cache variables start null. |
| `Connection.ConnectionCache.ConnectToDatabase` | src/index.js:78-117 | The method's result, its new fields and whether it called `connect` are exactly those given by `Connect` on the old fields. |
| `Connection.ConnectionCache.AttachDb` | src/index.js:120-130 | The middleware updates the cache as `Connect` does and sets `req.db` to `RequestDb`. It leaves `req.body` and `req.ip` unchanged. It returns normally in every case, so the request always continues. |
| `Sanitize.SanitizeInput` | src/index.js:137-145 | A string becomes `strip` of that string. Any other value is returned unchanged. |
| `Sanitize.SanitizeBody` | src/index.js:147-154 | The set of keys is unchanged. Each string value is replaced by its stripped form. Each non-string value is kept identically. |
| `Sanitize.NoTopLevelStringsUnchanged` | src/index.js:137-154 | Sanitising is shallow: a body with no top-level string is returned unchanged, even when it holds nested strings. |
| `Sanitize.SanitizeRequest` | src/index.js:147-154 | The in-place loop over the keys leaves `req.body` equal to `SanitizeBody` of the old body, whatever order the keys are visited in. An undefined body stays undefined. `req.db` and `req.ip` are unchanged. |
| `Contact.FieldViolations` | src/index.js:158-166 | For one key, Joi reports no error exactly when the value meets that key's rule, stated positively in `FieldOk`. Every error it reports is about that key. |
| `Contact.Collect` | src/index.js:168 | The errors collected over a list of keys are empty exactly when every listed key meets its rule. They are exactly the per-key errors of the listed keys. |
| `Contact.Validate` | src/index.js:158-175 | No violation and no unknown key exactly when the body meets the whole schema: name 3-50 characters; email non-empty and `isEmail`; phone absent or any string; service one of the five literals; message at least 10 characters; no other key. An undefined body passes. |
| `Contact.ValidateReportsEveryBrokenKey` | src/index.js:168-174 | With `abortEarly: false`, every key that breaks its rule appears in the details, not only the first one. |
| `Contact.ValidateReportsOnlyBrokenKeys` | src/index.js:168-174 | Every reported violation concerns a key that breaks its rule, and is one of the errors Joi raises for that value. |
| `Contact.NewContact` | src/index.js:189-194 | The document is the body's keys plus `ipAddress`, `createdAt` and `updatedAt`. The server fields hold the caller's address and the two clock readings. Every other key keeps its body value. |
| `Contact.Submit` | src/index.js:157-210 | A body the schema rejects gets 400 with its violations and no insert, and 400 only then. With an accepted body and no database: the 200 "offline" reply with no insert, or 500 when the body is undefined. With a database: exactly one insert of `NewContact` into `contatos`. Then 200 if it resolves and the body is defined. It is 500 `success: false` if the insert throws, or if the body is undefined, because the log line after the insert reads `req.body.email`. Success is reported only for a defined body the schema accepted. |
| `Contact.InsertedContactsAreValid` | src/index.js:168-196 | Every inserted document meets the schema on all five fields, has no keys other than the schema's and the three server fields, and carries the server's timestamps. |
| `Contact.UndefinedBodyStoresServerFieldsOnly` | src/index.js:168-208 | With an undefined body and a database, one record holding only `ipAddress`, `createdAt` and `updatedAt` is stored and the reply is 500, whether or not the insert resolved. |
| `Contact.ValidExampleIsStored` | src/index.js:157-202 | A well-formed submission ("Ana Silva", an empty phone, service `dutos`) is inserted once with the server fields added, and the reply is 200. |
| `Contact.InvalidExampleReportsAll` | src/index.js:158-174 | A submission that breaks four rules at once (name "Al", email "bad", service "invalid-service", message "hi") gets exactly four errors, in schema order: name too short, email invalid, service not listed, message too short. |
| `Health.Environment` | src/index.js:241 | `NODE_ENV` is reported when it is set and non-empty, and `"development"` otherwise. |
| `Health.CheckHealth` | src/index.js:213-252 | Always HTTP 200 with `status: "OK"` and version `"2.0"`. The database is `"disconnected"` with no details when there is no db. It is `"connected"` with the three statistics when ping and stats both resolve. It is `"ping_failed"` with the message of whichever call threw first. |
| `Pipeline.Dispatch` | src/index.js:157-213 | A request reaches the submission handler exactly when it is `POST /contact`, and the health handler exactly when it is `GET` or `HEAD /health`. Every other request goes to another route. |
| `Pipeline.Serve` | src/index.js:25-254 | An `OPTIONS` request is answered by the CORS gate. It touches neither the cache nor any field of the request. Every other request that the rate limiter and the body parsers let through, whatever its route, passes through `connectToDatabase` once and then through sanitisation, and keeps its `ip`. `POST /contact` then sees the sanitised body and the middleware's `req.db`. `GET /health` answers 200 "OK". It reports "disconnected" exactly when the middleware attached no db, and "connected" when there is a db and ping and stats resolve. |
| `Pipeline.StoredFieldsAreStripped` | src/index.js:147-196 | Every value that a submitted body contributes to an inserted document was a string in the request and is stored in its stripped form. Markup is removed before validation and before storage. |

## Left out

- Express routing and middleware plumbing, helmet, the `cors` package, `app.options('*', cors())` and the rate limiter. These are library configuration. On requests other than `OPTIONS` the `cors` package runs after the hand-written gate. It also reflects `https://www.isothermica.com.br`, `https://isothermica-backend-api-v2.vercel.app` and `https://landing-page-six-delta-69.vercel.app`. So the headers in `Pipeline.Served` are the gate's, not the final response's. A request the limiter refuses gets 429 before the connection middleware runs, and `Pipeline.Serve` does not model it.
- body-parser, including its 10 kB limits, its failures (malformed JSON or an oversized body skips sanitisation and the route and ends in the terminal handler with 500), URL-encoded parsing and JSON bodies that are arrays or scalars. The body is modelled as a key-to-value map or as undefined.
- MongoDB driver internals: `MongoClient` options, pooling, `client.db()`, `insertOne`, `stats`, `listDatabases` and `close`. Their results are inputs. A client whose ping fails after `connect` resolved is dropped without being closed, so it stays open. The model does not track driver resources.
- The internals of `sanitize-html` and of Joi's email grammar. They are the uninterpreted parameters `strip` and `isEmail`.
- Joi's message texts. `details` is modelled as a list of (key, error kind) pairs.
- Unknown keys. They are a set, so their order among themselves is not modelled.
- Joi's type coercion and its other options.
- Contact.FieldViolations: lengths count Dafny characters (Unicode scalar values), while Joi counts UTF-16 code units, so the two differ on characters outside the Basic Multilingual Plane.
- JSON numbers are modelled as integers, not floating point.
- Contact.InsertedContactsAreValid: requires a defined `req.body`. With an undefined body Joi's object schema passes, and the insert would carry only the three server fields. With body-parser 1.x, which sets `req.body` to `{}`, this case does not arise. With body-parser 2.x, a POST with no body or another Content-Type leaves `req.body` undefined. The code then stores a record holding only the three server fields and answers 500, as `Contact.Submit` states. The source does not pin the version.
- Health.CheckHealth: the outer `catch` that answers 500 is not modelled. Nothing the model runs inside that `try` can throw.
- Header names are compared as written. Express treats them case-insensitively.
- Logging, the real clock and ISO formatting are left out: timestamps are inputs. `process.env` reads are boolean or option inputs.
- The SIGTERM handler that closes the cached client.
- `/test-mongodb`, `/`, the 404 catch-all and the terminal error handler. These are fixed responses or foreign calls. `Pipeline.Serve` sends such requests to `OtherServed` without modelling the reply.
- Pipeline.Dispatch: paths are compared exactly, as the pathname without its query string. Express's case-insensitive matching and its optional trailing slash are not modelled.
- Concurrent requests and async interleaving. Every call to the cache is modelled as finishing before the next one starts.
