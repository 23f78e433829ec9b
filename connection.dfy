/** The process-wide MongoDB connection cache (`cachedClient`, `cachedDb`) and
    the middleware that puts its database handle on every request.

    The driver is not modelled: one call's driver behaviour is an `Attempt`,
    which says whether `MONGODB_URI` is set, whether `new MongoClient`
    accepts it (a malformed URI makes the constructor throw), which client it
    builds, whether `client.connect()` succeeds, which handle
    `client.db()` gives and whether the admin `ping` succeeds. Calls are
    sequential; the model has no interleaving of concurrent first calls. */
module Connection {
  import opened Types

  datatype Attempt = Attempt(uriSet: bool, parseOk: bool, client: Client, connectOk: bool, db: Db, pingOk: bool)

  /** The error `connectToDatabase` rethrows. */
  datatype ConnError = MissingUri | MalformedUri | ConnectFailed | PingFailed

  /** The `{ client, db }` pair it resolves with. */
  datatype Handle = Handle(client: Client, db: Db)

  datatype Outcome = Resolved(handle: Handle) | Rejected(error: ConnError)

  /** The two module-level variables. */
  datatype CacheState = CacheState(client: Option<Client>, db: Option<Db>) {
    /** `cachedClient && cachedDb`: both handles are objects. */
    predicate Hit() { client.Some? && db.Some? }
    /** The cache holds both handles or neither. */
    predicate Consistent() { client.Some? <==> db.Some? }
  }

  const Empty := CacheState(None, None)

  /** One call of `connectToDatabase`: what it resolves or rejects with, the
      cache afterwards, and whether it called `client.connect()`. */
  datatype Step = Step(outcome: Outcome, next: CacheState, connected: bool)

  /** The driver behaviour under which a fresh attempt succeeds. */
  predicate Succeeds(a: Attempt)
  {
    a.uriSet && a.parseOk && a.connectOk && a.pingOk
  }

  /** `connectToDatabase` as a function of the cache and the driver's behaviour. */
  function Connect(s: CacheState, a: Attempt): (r: Step)
    // a filled cache is returned as it is and nothing is opened
    ensures s.Hit() ==> r.next == s && !r.connected
                        && r.outcome == Resolved(Handle(s.client.value, s.db.value))
    // otherwise the call resolves exactly when the URI is set and well-formed and connect and ping succeed ...
    ensures !s.Hit() ==> (r.outcome.Resolved? <==> Succeeds(a))
    // ... with the pair the driver produced, which is the pair now cached
    ensures !s.Hit() && r.outcome.Resolved? ==>
              r.outcome.handle == Handle(a.client, a.db)
              && r.next == CacheState(Some(a.client), Some(a.db))
    // every failure empties the cache and reports the first step that failed
    ensures !s.Hit() && r.outcome.Rejected? ==>
              r.next == Empty
              && r.outcome.error == (if !a.uriSet then MissingUri
                                     else if !a.parseOk then MalformedUri
                                     else if !a.connectOk then ConnectFailed
                                     else PingFailed)
    // `client.connect()` is called exactly on a miss with a URI the client accepts
    ensures r.connected <==> !s.Hit() && a.uriSet && a.parseOk
    ensures r.next.Consistent()
  {
    if s.Hit() then
      Step(Resolved(Handle(s.client.value, s.db.value)), s, false)
    else if !a.uriSet then
      Step(Rejected(MissingUri), Empty, false)
    else if !a.parseOk then
      Step(Rejected(MalformedUri), Empty, false)
    else if !a.connectOk then
      Step(Rejected(ConnectFailed), Empty, true)
    else if !a.pingOk then
      Step(Rejected(PingFailed), Empty, true)
    else
      Step(Resolved(Handle(a.client, a.db)), CacheState(Some(a.client), Some(a.db)), true)
  }

  /** What the connection middleware assigns to `req.db`. */
  function RequestDb(s: CacheState, a: Attempt): (db: Option<Db>)
    ensures s.Hit() ==> db == s.db
    ensures !s.Hit() ==> db == (if Succeeds(a) then Some(a.db) else None)
    ensures db.Some? <==> Connect(s, a).outcome.Resolved?
  {
    match Connect(s, a).outcome
    case Resolved(h) => Some(h.db)
    case Rejected(_) => None
  }

  /** A sequence of calls, one driver behaviour per call. */
  function Run(s: CacheState, attempts: seq<Attempt>): (steps: seq<Step>)
    ensures |steps| == |attempts|
    decreases |attempts|
  {
    if attempts == [] then []
    else
      var first := Connect(s, attempts[0]);
      [first] + Run(first.next, attempts[1..])
  }

  /** The cache after a sequence of calls. */
  function After(s: CacheState, attempts: seq<Attempt>): CacheState
    decreases |attempts|
  {
    if attempts == [] then s else After(Connect(s, attempts[0]).next, attempts[1..])
  }

  /** How many calls established a new connection (connected and pinged). */
  function Established(steps: seq<Step>): nat
  {
    if steps == [] then 0
    else (if steps[0].connected && steps[0].outcome.Resolved? then 1 else 0) + Established(steps[1..])
  }

  /** `After` is the cache left by the last step of `Run`. */
  lemma {:induction false} RunEndsInAfter(s: CacheState, attempts: seq<Attempt>)
    requires attempts != []
    ensures After(s, attempts) == Run(s, attempts)[|attempts| - 1].next
    decreases |attempts|
  {
    var first := Connect(s, attempts[0]);
    assert Run(s, attempts) == [first] + Run(first.next, attempts[1..]);
    if attempts[1..] != [] {
      RunEndsInAfter(first.next, attempts[1..]);
    }
  }

  /** Once the cache is filled, every later call returns the same pair, leaves
      the cache alone and opens nothing, whatever the driver would do. */
  lemma {:induction false} FilledCacheIsStable(s: CacheState, attempts: seq<Attempt>)
    requires s.Hit()
    ensures forall i :: 0 <= i < |attempts| ==>
              Run(s, attempts)[i] == Step(Resolved(Handle(s.client.value, s.db.value)), s, false)
    ensures After(s, attempts) == s
  {
    if attempts != [] {
      FilledCacheIsStable(s, attempts[1..]);
    }
  }

  /** Over any sequence of calls at most one call connects, pings and caches
      a pair: after the first success the cache answers every call. Calls
      whose ping fails after connecting are not bounded. */
  lemma {:induction false} AtMostOneConnection(s: CacheState, attempts: seq<Attempt>)
    ensures Established(Run(s, attempts)) <= 1
    ensures s.Hit() ==> Established(Run(s, attempts)) == 0
    decreases |attempts|
  {
    if attempts != [] {
      var first := Connect(s, attempts[0]);
      var rest := Run(first.next, attempts[1..]);
      assert Run(s, attempts) == [first] + rest;
      assert ([first] + rest)[1..] == rest;
      AtMostOneConnection(first.next, attempts[1..]);
      if first.connected && first.outcome.Resolved? {
        assert first.next.Hit();
      }
    }
  }

  /** A failed call leaves nothing behind: the next call starts from scratch,
      exactly as the very first call of the process would. */
  lemma {:induction false} FailureResetsRun(s: CacheState, a: Attempt, later: seq<Attempt>)
    requires Connect(s, a).outcome.Rejected?
    ensures Run(Connect(s, a).next, later) == Run(Empty, later)
  {
  }

  /** The cache, seen from every point of a run, holds both handles or neither. */
  lemma {:induction false} RunKeepsCacheConsistent(s: CacheState, attempts: seq<Attempt>)
    requires s.Consistent()
    ensures After(s, attempts).Consistent()
    decreases |attempts|
  {
    if attempts != [] {
      RunKeepsCacheConsistent(Connect(s, attempts[0]).next, attempts[1..]);
    }
  }

  /** The module-level `cachedClient` / `cachedDb` pair. */
  class ConnectionCache {
    var cachedClient: Option<Client>
    var cachedDb: Option<Db>

    function State(): CacheState
      reads this
    {
      CacheState(cachedClient, cachedDb)
    }

    /** Both variables start as `null`. */
    constructor ()
      ensures State() == Empty
    {
      cachedClient := None;
      cachedDb := None;
    }

    /** `connectToDatabase()`. */
    method ConnectToDatabase(a: Attempt) returns (outcome: Outcome, connected: bool)
      modifies this
      ensures Step(outcome, State(), connected) == Connect(old(State()), a)
    {
      if cachedClient.Some? && cachedDb.Some? {
        return Resolved(Handle(cachedClient.value, cachedDb.value)), false;
      }
      connected := false;
      // try
      if !a.uriSet {
        outcome := Rejected(MissingUri);
      } else if !a.parseOk {
        // `new MongoClient` throws on a URI it cannot parse
        outcome := Rejected(MalformedUri);
      } else {
        var client := a.client;
        connected := true;
        if !a.connectOk {
          outcome := Rejected(ConnectFailed);
        } else {
          var db := a.db;
          if !a.pingOk {
            outcome := Rejected(PingFailed);
          } else {
            cachedClient := Some(client);
            cachedDb := Some(db);
            return Resolved(Handle(client, db)), connected;
          }
        }
      }
      // catch: clear both variables and rethrow
      cachedClient := None;
      cachedDb := None;
    }

    /** The per-request middleware: on success `req.db` is the handle's
        database, on failure `null`; either way the request goes on to `next`. */
    method AttachDb(req: Request, a: Attempt)
      modifies this, req
      ensures State() == Connect(old(State()), a).next
      ensures req.db == RequestDb(old(State()), a)
      ensures req.body == old(req.body) && req.ip == old(req.ip)
    {
      var outcome, _ := ConnectToDatabase(a);
      match outcome
      case Resolved(h) => req.db := Some(h.db);
      case Rejected(_) => req.db := None;
    }
  }
}
