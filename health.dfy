/** The `/ping` route: a health report whose HTTP status is derived from the
    outcome of a trivial database query. */
module Health {

  /** Outcome of the `SELECT 1` probe: it succeeds or raises with some message. */
  datatype Probe = Reachable | Failed(message: string)

  /** The two entries of the health report, in dictionary order. */
  datatype HealthReport = HealthReport(server: string, database: string)

  datatype PingResponse = PingResponse(report: HealthReport, status: int)

  /** The values the report counts as healthy. */
  const HealthyValues: seq<string> := ["online", "connected"]

  predicate AllHealthy(report: HealthReport)
  {
    report.server in HealthyValues && report.database in HealthyValues
  }

  /** The database entry after the probe: "connected", or the exception text prefixed by "error: ". */
  function DatabaseEntry(p: Probe): string
  {
    match p
    case Reachable => "connected"
    case Failed(message) => "error: " + message
  }

  /** No exception text can make an error entry look healthy. */
  lemma ErrorEntryUnhealthy(message: string)
    ensures "error: " + message !in HealthyValues
  {
    var e := "error: " + message;
    assert e[0] == 'e';
    assert HealthyValues[0][0] == 'o' && HealthyValues[1][0] == 'c';
  }

  /** ping: the server entry is always "online"; the status is 200 exactly
      when the probe succeeded and 503 otherwise. */
  function Ping(p: Probe): (r: PingResponse)
    ensures r.report.server == "online"
    ensures r.status == 200 <==> p.Reachable?
    ensures r.status == 503 <==> p.Failed?
    ensures p.Reachable? ==> r.report.database == "connected"
    ensures p.Failed? ==> r.report.database == "error: " + p.message
  {
    var report := HealthReport("online", DatabaseEntry(p));
    var response := PingResponse(report, if AllHealthy(report) then 200 else 503);
    match p
    case Reachable => response
    case Failed(message) => ErrorEntryUnhealthy(message); response
  }
}
