/** `GET /health`: reports the state of `req.db` without opening a
    connection. The admin `ping` and `db.stats()` calls are inputs: each
    either resolves or throws with a message. */
module Health {
  import opened Types

  datatype Probe<T> = Resolves(value: T) | Throws(message: string)

  datatype Stats = Stats(collections: int, objects: int, dataSize: int)

  /** `database_details`: `{}`, the three statistics, or `{ error }`. */
  datatype Details = NoDetails | StatsDetails(collections: int, objects: int, dataSize: int) | ErrorDetails(error: string)

  datatype HealthReply = HealthReply(
    httpStatus: nat,
    status: string,
    database: string,
    details: Details,
    timestamp: string,
    environment: string,
    version: string)

  /** `process.env.NODE_ENV || 'development'`: an unset or empty variable
      falls back to the default. */
  function Environment(nodeEnv: Option<string>): (e: string)
    ensures nodeEnv.Some? && nodeEnv.value != "" ==> e == nodeEnv.value
    ensures nodeEnv.None? || nodeEnv.value == "" ==> e == "development"
  {
    if nodeEnv.Some? && nodeEnv.value != "" then nodeEnv.value else "development"
  }

  /** The route handler. `now` is `new Date().toISOString()`. */
  method CheckHealth(db: Option<Db>, ping: Probe<()>, stats: Probe<Stats>, now: string, nodeEnv: Option<string>)
    returns (reply: HealthReply)
    // always 200 with status "OK", whatever the database does
    ensures reply.httpStatus == 200 && reply.status == "OK" && reply.version == "2.0"
    ensures reply.timestamp == now && reply.environment == Environment(nodeEnv)
    // no database: "disconnected" with no details
    ensures db.None? ==> reply.database == "disconnected" && reply.details == NoDetails
    // ping and stats both resolve: "connected" with the statistics
    ensures db.Some? && ping.Resolves? && stats.Resolves? ==>
              reply.database == "connected"
              && reply.details == StatsDetails(stats.value.collections, stats.value.objects, stats.value.dataSize)
    // either throws: "ping_failed" with the message of the first call that threw
    ensures db.Some? && ping.Throws? ==>
              reply.database == "ping_failed" && reply.details == ErrorDetails(ping.message)
    ensures db.Some? && ping.Resolves? && stats.Throws? ==>
              reply.database == "ping_failed" && reply.details == ErrorDetails(stats.message)
    ensures reply.database in {"disconnected", "connected", "ping_failed"}
  {
    var dbStatus := "disconnected";
    var dbDetails := NoDetails;
    if db.Some? {
      // try
      if ping.Throws? {
        dbStatus, dbDetails := "ping_failed", ErrorDetails(ping.message);
      } else {
        dbStatus := "connected";
        if stats.Throws? {
          dbStatus, dbDetails := "ping_failed", ErrorDetails(stats.message);
        } else {
          var st := stats.value;
          dbDetails := StatsDetails(st.collections, st.objects, st.dataSize);
        }
      }
    }
    reply := HealthReply(200, "OK", dbStatus, dbDetails, now, Environment(nodeEnv), "2.0");
  }
}
