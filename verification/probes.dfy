/** The three dependency probes of the readiness view. Each probe catches
    every `Exception` its collaborator raises and turns the outcome into a
    `CheckResult`, so no such exception in one probe can abort another. */
module Probes {
  import opened Outcomes

  /** The dependencies, in the order the readiness view probes them. */
  datatype CheckName = Postgres | Redis | CeleryWorkers {

    /** The key of this dependency in the `checks` object. */
    function Key(): string {
      match this
      case Postgres => "postgres"
      case Redis => "redis"
      case CeleryWorkers => "celery_workers"
    }

    /** The prefix of every error this dependency contributes: its key
        followed by a colon and a space. */
    function Label(): (l: string)
      ensures l == Key() + ": "
    {
      match this
      case Postgres => "postgres: "
      case Redis => "redis: "
      case CeleryWorkers => "celery_workers: "
    }
  }

  /** Different dependencies have different keys. */
  lemma KeysDistinct(n: CheckName, m: CheckName)
    ensures n.Key() == m.Key() <==> n == m
  {
    if n != m {
      assert n.Key()[0] != m.Key()[0];
    }
  }

  /** What one probe found: healthy, or failed with the message of the
      exception it caught. The error message is present iff the probe failed. */
  datatype CheckResult = Passed(name: CheckName) | Failed(name: CheckName, cause: string) {

    /** The entries this probe appends to the `errors` list. */
    function Errors(): seq<string> {
      match this
      case Passed(_) => []
      case Failed(n, cause) => [n.Label() + cause]
    }
  }

  /** Probe 1: open a cursor, run `SELECT 1`, fetch one row. `roundTrip` is
      `Ok(row)` when none of those steps raised; the row is never looked at. */
  function PostgresProbe<Row>(roundTrip: Outcome<Row>): (r: CheckResult)
    ensures r.name == Postgres
    ensures r.Passed? <==> roundTrip.Ok?
    ensures roundTrip.Ok? ==> r == Passed(Postgres)
    ensures roundTrip.Raised? ==> r.Errors() == ["postgres: " + roundTrip.msg]
  {
    match roundTrip
    case Ok(_) => Passed(Postgres)
    case Raised(msg) => Failed(Postgres, msg)
  }

  /** The fixed key and value the cache probe writes. */
  const CacheKey := "health_check"
  const CacheValue := "ok"

  /** The message of the `ValueError` raised when the read-back differs. */
  const CacheMismatch := "Cache verification failed"

  /** What the cache round trip did: the `set` raised (the `get` is then never
      issued), the `get` raised, or the `get` returned a value (`None` when the
      key is absent). */
  datatype CacheOutcome = SetRaised(msg: string) | GetRaised(msg: string) | Fetched(value: Option<string>)

  /** Probe 2: write `CacheKey`, read it back, compare with `CacheValue`. */
  function RedisProbe(cache: CacheOutcome): (r: CheckResult)
    ensures r.name == Redis
    ensures r.Passed? <==> cache == Fetched(Some(CacheValue))
    ensures cache.SetRaised? || cache.GetRaised? ==> r.Errors() == ["redis: " + cache.msg]
    ensures cache.Fetched? && cache.value != Some(CacheValue) ==>
              r.Errors() == ["redis: " + CacheMismatch]
  {
    match cache
    case SetRaised(msg) => Failed(Redis, msg)
    case GetRaised(msg) => Failed(Redis, msg)
    case Fetched(v) =>
      if v == Some(CacheValue) then Passed(Redis) else Failed(Redis, CacheMismatch)
  }

  /** The cache as a store of string values. */
  type Store = map<string, string>

  /** The outcome of the cache round trip against a store that neither fails
      nor changes between the `set` and the `get`. */
  function FaithfulRoundTrip(store: Store): (cache: CacheOutcome)
    ensures cache.Fetched?
  {
    var written := store[CacheKey := CacheValue];
    Fetched(if CacheKey in written then Some(written[CacheKey]) else None)
  }

  /** A cache that stores what it is given always passes, whatever it held. */
  lemma FaithfulCacheIsHealthy(store: Store)
    ensures RedisProbe(FaithfulRoundTrip(store)).Passed?
  {
  }

  /** A transport error and a failed read-back yield the same entry exactly
      when the exception's message is the read-back message itself. */
  lemma CacheErrorsDistinct(msg: string, v: Option<string>)
    requires v != Some(CacheValue)
    ensures RedisProbe(GetRaised(msg)).Errors() == RedisProbe(Fetched(v)).Errors() <==> msg == CacheMismatch
    ensures RedisProbe(SetRaised(msg)).Errors() == RedisProbe(Fetched(v)).Errors() <==> msg == CacheMismatch
  {
    var t := "redis: " + msg;
    var m := "redis: " + CacheMismatch;
    if t == m {
      assert msg == t[|"redis: "|..] == m[|"redis: "|..] == CacheMismatch;
    }
  }

  /** What `inspect().active()` returns: worker name to its active tasks. */
  type Workers = map<string, seq<string>>

  /** The message of the `ValueError` raised when no worker answers. */
  const NoWorkers := "No active Celery workers found"

  /** Probe 3: ask the control plane for the active workers. `inspect` covers
      both `inspect()` and `.active()`; either may raise, and `None` means no
      worker replied. Healthy iff at least one worker is listed; a worker with
      no running task still counts. */
  function CeleryProbe(inspect: Outcome<Option<Workers>>): (r: CheckResult)
    ensures r.name == CeleryWorkers
    ensures r.Passed? <==> inspect.Ok? && inspect.value.Some? && |inspect.value.value| > 0
    ensures inspect.Raised? ==> r.Errors() == ["celery_workers: " + inspect.msg]
    ensures inspect.Ok? && !r.Passed? ==> r.Errors() == ["celery_workers: " + NoWorkers]
  {
    match inspect
    case Raised(msg) => Failed(CeleryWorkers, msg)
    case Ok(active) =>
      if Truthy(active) && |active.value| > 0 then Passed(CeleryWorkers)
      else Failed(CeleryWorkers, NoWorkers)
  }

  /** Python truthiness of an optional dict: present and non-empty. */
  predicate Truthy(active: Option<Workers>) {
    active.Some? && active.value != map[]
  }

  /** Every probe result carries the error list its name promises: none when
      it passed, one entry starting with its label when it failed. */
  lemma ErrorsCarryLabel(r: CheckResult)
    ensures r.Passed? <==> r.Errors() == []
    ensures r.Failed? ==> |r.Errors()| == 1 && r.name.Label() <= r.Errors()[0]
  {
  }

  /** No label is a prefix of a string that starts with another label, so an
      error entry names exactly one dependency. */
  lemma LabelsExclusive(n: CheckName, m: CheckName, s: string)
    requires n.Label() <= s && m.Label() <= s
    ensures n == m
  {
    assert n.Label()[0] == s[0] == m.Label()[0];
  }
}
