/** The liveness view: a constant answer that touches no dependency. */
module Liveness {
  import opened Outcomes
  import opened Json

  const ServiceName := "cgm-django-api"

  /** The liveness view. It takes no dependency outcome, so its answer is the
      same whatever state the database, cache and workers are in. */
  function LivenessCheck(): (r: Response)
    ensures r.status == DefaultStatus == 200
    ensures r.body.Object? && Keys(r.body.fields) == ["status", "service"]
    ensures Lookup(r.body.fields, "status") == Some(Str("alive"))
    ensures Lookup(r.body.fields, "service") == Some(Str(ServiceName))
  {
    assert "service"[1] != "status"[1];
    Response(Object([("status", Str("alive")), ("service", Str(ServiceName))]), DefaultStatus)
  }
}
