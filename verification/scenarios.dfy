/** End-to-end readings of both views for the situations an operator meets. */
module Scenarios {
  import opened Outcomes
  import opened Json
  import opened Probes
  import opened Readiness
  import opened Liveness

  /** Everything up: 200, status `ready`, all flags true, no `errors` key. */
  lemma AllUp<Row>(row: Row, workers: Workers)
    requires |workers| > 0
    ensures ReadinessCheck(Ok(row), Fetched(Some(CacheValue)), Ok(Some(workers))).ToResponse()
            == Response(Object([("status", Str("ready")), ("checks", Checks(true, true, true).ToJson())]), 200)
  {
    assert workers != map[];
    var rep := ReadinessCheck(Ok(row), Fetched(Some(CacheValue)), Ok(Some(workers)));
    assert rep.checks == Checks(true, true, true) && !rep.hasErrorsKey;
    var fields := [("status", Str("ready")), ("checks", rep.checks.ToJson())];
    assert fields + [] == fields;
  }

  /** The database unreachable, the rest healthy: 503, only the postgres flag
      false, one error naming postgres. */
  lemma DatabaseDown(msg: string, workers: Workers)
    requires |workers| > 0
    ensures var rep := ReadinessCheck<()>(Raised(msg), Fetched(Some(CacheValue)), Ok(Some(workers)));
            && rep.code == 503
            && rep.status == "not_ready"
            && rep.checks == Checks(false, true, true)
            && rep.errors == ["postgres: " + msg]
  {
    assert workers != map[];
  }

  /** Everything down, in whatever way each dependency fails: readiness
      answers 503 with one error per dependency in probe order, while
      liveness still answers 200 `alive`. */
  lemma EverythingDown<Row>(pg: Outcome<Row>, cache: CacheOutcome, inspect: Outcome<Option<Workers>>)
    requires pg.Raised? && !RedisProbe(cache).Passed? && !CeleryProbe(inspect).Passed?
    ensures var rep := ReadinessCheck(pg, cache, inspect);
            && rep.code == 503
            && rep.status == "not_ready"
            && rep.hasErrorsKey
            && rep.checks == Unchecked
            && |rep.errors| == 3
            && rep.errors[0] == "postgres: " + pg.msg
            && Redis.Label() <= rep.errors[1]
            && CeleryWorkers.Label() <= rep.errors[2]
            && LivenessCheck().status == 200
            && Lookup(LivenessCheck().body.fields, "status") == Some(Str("alive"))
  {
    var p, r, c := PostgresProbe(pg), RedisProbe(cache), CeleryProbe(inspect);
    ErrorsCarryLabel(p);
    ErrorsCarryLabel(r);
    ErrorsCarryLabel(c);
    var rep := ReadinessCheck(pg, cache, inspect);
    assert rep.errors == [p.Errors()[0], r.Errors()[0], c.Errors()[0]];
  }
}
