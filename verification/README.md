# Health probes of the CGM API, modelled in Dafny

The CGM API service has two health endpoints for its orchestrator:

- **liveness** (`liveness_check`) answers `{"status": "alive", "service": "cgm-django-api"}` with HTTP 200 and touches nothing;
- **readiness** (`readiness_check`) probes PostgreSQL (`SELECT 1`), Redis (write `health_check = "ok"`, read it back) and the Celery control plane (`inspect().active()`). Every probe sits in its own `try`/`except Exception`. A pass sets the probe's flag in a three-key `checks` object, initialised to all false. A failure appends `"<name>: <message>"` to an ordered `errors` list. The view then answers `ready`/200 when all three flags are true and `not_ready`/503 otherwise. The `errors` key is present only when the list is non-empty.

The model replaces each collaborator call by an abstract input: what the call returned, or the message of the exception it raised (`Outcomes.Outcome`, `Probes.CacheOutcome`). Each probe then becomes a pure function to a `CheckResult`. The view is the left fold `Readiness.RecordAll` of those results, in evaluation order, over the two accumulators `checks` and `errors`, followed by the reduction to status, code and body.

Files:

- `outcomes.dfy`: `Option` and `Outcome` (returned value or raised message).
- `json.dfy`: JSON values, field keys and lookup, and the `Response` (body plus status; 200 by default).
- `probes.dfy`: dependency names and labels, `CheckResult`, the three probes and their constants.
- `readiness.dfy`: the `checks` flags, the fold, the `Report` and the readiness view (`Readiness`), plus the properties relating its parts and several runs (`ReadinessFacts`).
- `liveness.dfy`: the liveness view.
- `scenarios.dfy`: whole-view readings for all up, database down and everything down.

Points of the code's behaviour worth knowing:

- The database probe never inspects the fetched row: any round trip that does not raise passes (`Probes.PostgresProbe`).
- A transport error whose message is `Cache verification failed` gives the same entry as a failed read-back (`Probes.CacheErrorsDistinct`).
- The view sets no timeout of its own. The cache client's socket timeouts surface as raised exceptions. The worker inspection uses the control plane's default reply window; when no worker replies in time, `active()` returns `None` rather than raising, and the view reports `No active Celery workers found` (modelled as `Ok(None)`). No database connect or statement timeout is configured.

Two evaluations of the readiness view on the same dependency outcomes give the same report, because `ReadinessCheck` is a function of those outcomes alone and keeps no state between requests.

## Model

| member | source | states |
|---|---|---|
| `Liveness.LivenessCheck` | cgm-api/health/views.py:11-19 | Liveness answers the default status 200 with exactly the keys `status` then `service`, set to `alive` and `cgm-django-api`. It has no dependency input, so no outage can change it. |
| `Probes.PostgresProbe` | cgm-api/health/views.py:37-45 | Postgres passes iff the cursor round trip did not raise. The fetched row has no effect. A failure's single error is `"postgres: " + message`. |
| `Probes.RedisProbe` | cgm-api/health/views.py:47-58 | Redis passes iff neither set nor get raised and the read-back is `Some("ok")`. A raised set or get gives `"redis: " + message`. Any other read-back, including an absent key, gives exactly `"redis: Cache verification failed"`. |
| `Probes.FaithfulCacheIsHealthy` | cgm-api/health/views.py:50-53 | Against a cache that stores what is written and does not fail, the probe passes whatever the cache held before. |
| `Probes.CacheErrorsDistinct` | cgm-api/health/views.py:50-58 | A transport error (set or get) and a failed read-back produce the same entry iff the exception's message is the read-back message. |
| `Probes.CeleryProbe` | cgm-api/health/views.py:60-72 | Celery passes iff inspection did not raise and returned a present, non-empty worker map, of any size. A raised inspection gives `"celery_workers: " + message`. A `None` or empty map gives exactly `"celery_workers: No active Celery workers found"`. |
| `Probes.ErrorsCarryLabel` | cgm-api/health/views.py:42-72 | A probe result contributes no error iff it passed. A failed result contributes exactly one entry, starting with its dependency's label. |
| `Probes.LabelsExclusive` | cgm-api/health/views.py:45-72 | No string starts with two different labels, so each error entry names exactly one dependency. |
| `Probes.KeysDistinct` | cgm-api/health/views.py:30-34 | The three `checks` keys are pairwise different. |
| `ReadinessFacts.ChecksLookup` | cgm-api/health/views.py:30-34 | In the body's `checks` object, each dependency's key holds exactly that dependency's flag. |
| `Readiness.All` | cgm-api/health/views.py:75 | `all(values)` is true iff every entry is true. |
| `Readiness.CountFalse` | cgm-api/health/views.py:75 | The number of false flags is zero iff `all` holds, and equals the length iff every flag is false. |
| `Readiness.Record` | cgm-api/health/views.py:37-72 | One `try`/`except` step: a pass sets only its own flag and appends nothing. A failure appends exactly its own entry and changes no flag. |
| `Readiness.RecordAll` | cgm-api/health/views.py:30-72 | Running the probes in order appends each failing probe's entry in order. A flag ends true iff it started true or some probe of that name passed. |
| `Readiness.ReadinessCheck` | cgm-api/health/views.py:22-86 | Each flag equals its own probe's pass. `errors` is postgres's, then redis's, then celery's entries. Code is 200 iff all three flags hold, else 503. Status is `ready` iff the code is 200 and `not_ready` iff it is 503. The number of errors equals the number of false flags. The `errors` key is present iff the status is `not_ready`. |
| `ReadinessFacts.ErrorsForProbe` | cgm-api/health/views.py:45-72 | Filtering a probe's entries by a dependency's label keeps them all for its own name and none for any other name. |
| `ReadinessFacts.ErrorsFollowFailingChecks` | cgm-api/health/views.py:37-72 | `errors` has one entry per false flag, in the fixed order postgres, redis, celery_workers restricted to the failing ones. Entry k starts with the label of the k-th failing dependency. |
| `ReadinessFacts.FailingAreFalse` | cgm-api/health/views.py:30-72 | Every dependency listed as failing has a false flag. |
| `ReadinessFacts.OwnEntries` | cgm-api/health/views.py:37-72 | The entries under each dependency's label are exactly that dependency's probe entries. |
| `ReadinessFacts.PostgresIsolated` | cgm-api/health/views.py:38-45 | Whatever the cache and the control plane do, the postgres flag and the postgres entries stay the same. |
| `ReadinessFacts.RedisIsolated` | cgm-api/health/views.py:48-58 | Whatever the database and the control plane do, the redis flag and the redis entries stay the same. |
| `ReadinessFacts.CeleryIsolated` | cgm-api/health/views.py:61-72 | Whatever the database and the cache do, the celery_workers flag and its entries stay the same. |
| `ReadinessFacts.ConsistentResponse` | cgm-api/health/views.py:78-86 | For any report whose code is 200 or 503, whose status matches the code and whose `errors` key appears exactly on 503: the body keys are `status`, `checks`, plus `errors` exactly on 503. `status` reads `ready` or `not_ready` to match. `checks` holds the report's flags. On 503, `errors` holds the report's error list. |
| `ReadinessFacts.ResponseShape` | cgm-api/health/views.py:74-86 | The response's status is the report's code. The body keys are `status`, `checks`, plus `errors` exactly on 503. `status` reads `ready` or `not_ready` to match the code. `checks` holds the flags, under exactly the keys postgres, redis, celery_workers. On 503, `errors` holds the error list itself. |
| `Scenarios.AllUp` | cgm-api/health/views.py:22-86 | With every dependency healthy, the response is exactly 200 with `status: ready`, all three flags true and no `errors` key. |
| `Scenarios.DatabaseDown` | cgm-api/health/views.py:38-86 | With only the database failing, the response is 503 `not_ready` with flags (false, true, true) and errors `["postgres: " + message]`. |
| `Scenarios.EverythingDown` | cgm-api/health/views.py:11-86 | For any outcomes in which the database raised and the cache and worker probes fail in any way, readiness answers 503 `not_ready` with an `errors` key, all flags false and exactly three errors labelled postgres, redis and celery_workers in that order, the first being `"postgres: " + message`. Liveness still answers 200 `alive`. |

## Left out

- `cgm-api/config/settings.py`: environment-driven configuration with no decision logic. Its Redis connect and read timeouts are enforced by the client library, and they reach the view only as a raised exception.
- `cgm-api/health/tasks.py`: Celery task bodies. They return a wall-clock timestamp or just sleep, and the views do not call them.
- `cgm-api/health/urls.py`: the routing table (`live`, `ready`), with no logic.
- The calls into Django's database connection, Django's cache and Celery's control plane are abstract inputs, not code. In particular, the 10-second expiry of the probe key is not modelled: the read-back follows the write immediately.
- `logger.error` calls: they are side effects with no effect on the answer.
- Serialisation of the JSON body to bytes by `JsonResponse`: the model stops at the JSON value.
- Exception types: for an `Exception`, only its `str()` reaches the answer, so such an exception is modelled by its message.
- Raises outside `Exception`: each probe catches only `Exception`. A `BaseException` that is not an `Exception` (`KeyboardInterrupt`, `SystemExit`, `GeneratorExit`, gevent's `Timeout`) aborts the whole view, skips the later probes and produces no report. The model does not represent that abort; every outcome it takes is either a returned value or a caught `Exception`.
- The race between concurrent requests on the fixed `health_check` key, and any concurrency or timeout behaviour: these belong to the collaborators. The model covers the single-request outcome that such a race produces, through an arbitrary read-back value.
- Cached values other than strings: the read-back is `Option<string>`. A non-string value compares unequal to `"ok"` in the source, exactly as a string other than `"ok"` does in the model.
- `Probes.CeleryProbe`: `inspect()` and `.active()` are merged into one outcome, because both sit in the same `try` and share one handler. The model takes the reply to be a dict of worker name to tasks, or `None`.
