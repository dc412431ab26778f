/** The readiness view: run the three probes in a fixed order, record each
    one's result in the `checks` flags or the `errors` list, and reduce the
    flags to a status string and an HTTP status code. */
module Readiness {
  import opened Outcomes
  import opened Json
  import opened Probes

  /** The `checks` object: one flag per dependency, in insertion order
      postgres, redis, celery_workers. */
  datatype Checks = Checks(postgres: bool, redis: bool, celeryWorkers: bool) {

    function Get(n: CheckName): bool {
      match n
      case Postgres => postgres
      case Redis => redis
      case CeleryWorkers => celeryWorkers
    }

    /** `checks[n] = b`. */
    function Set(n: CheckName, b: bool): (c: Checks)
      ensures c.Get(n) == b
      ensures forall m :: m != n ==> c.Get(m) == Get(m)
    {
      match n
      case Postgres => this.(postgres := b)
      case Redis => this.(redis := b)
      case CeleryWorkers => this.(celeryWorkers := b)
    }

    /** `checks.values()`, in insertion order. */
    function Values(): (vs: seq<bool>)
      ensures |vs| == |Order|
      ensures forall i :: 0 <= i < |Order| ==> vs[i] == Get(Order[i])
    {
      [postgres, redis, celeryWorkers]
    }

    /** The flags as the JSON object the response carries. */
    function ToJson(): (j: Json)
      ensures j.Object? && |j.fields| == |Order|
      ensures forall i :: 0 <= i < |Order| ==> j.fields[i] == (Order[i].Key(), Bool(Get(Order[i])))
    {
      Object([(Postgres.Key(), Bool(postgres)),
              (Redis.Key(), Bool(redis)),
              (CeleryWorkers.Key(), Bool(celeryWorkers))])
    }
  }

  /** The order in which the view probes the dependencies. */
  const Order: seq<CheckName> := [Postgres, Redis, CeleryWorkers]

  /** Every flag starts out false. */
  const Unchecked := Checks(false, false, false)

  /** Python's `all`. */
  function All(bs: seq<bool>): (r: bool)
    ensures r <==> forall i :: 0 <= i < |bs| ==> bs[i]
  {
    bs == [] || (bs[0] && All(bs[1..]))
  }

  /** How many entries of `bs` are false. */
  function CountFalse(bs: seq<bool>): (n: nat)
    ensures n <= |bs|
    ensures n == 0 <==> All(bs)
    ensures n == |bs| <==> forall i :: 0 <= i < |bs| ==> !bs[i]
  {
    if bs == [] then 0 else (if bs[0] then 0 else 1) + CountFalse(bs[1..])
  }

  /** The view's two accumulators: the `checks` flags and the `errors` list. */
  datatype Tally = Tally(checks: Checks, errors: seq<string>)

  /** One probe's `try`/`except`: a pass sets its flag, a failure appends its
      error and leaves its flag alone. */
  function Record(t: Tally, r: CheckResult): (u: Tally)
    ensures u.errors == t.errors + r.Errors()
    ensures u.checks.Get(r.name) == (t.checks.Get(r.name) || r.Passed?)
    ensures forall n :: n != r.name ==> u.checks.Get(n) == t.checks.Get(n)
  {
    match r
    case Passed(n) => Tally(t.checks.Set(n, true), t.errors)
    case Failed(n, cause) => Tally(t.checks, t.errors + [n.Label() + cause])
  }

  /** The errors of a run of probes: each failing probe's entry, in order. */
  function ErrorsOf(rs: seq<CheckResult>): seq<string> {
    if rs == [] then [] else rs[0].Errors() + ErrorsOf(rs[1..])
  }

  /** True if some probe in `rs` passed under the name `n`. */
  predicate SomePassed(rs: seq<CheckResult>, n: CheckName) {
    Passed(n) in rs
  }

  /** The probes' results recorded one after the other, first to last. */
  function RecordAll(t: Tally, rs: seq<CheckResult>): (u: Tally)
    ensures u.errors == t.errors + ErrorsOf(rs)
    ensures forall n :: u.checks.Get(n) == (t.checks.Get(n) || SomePassed(rs, n))
    decreases |rs|
  {
    if rs == [] then t
    else
      var u := RecordAll(Record(t, rs[0]), rs[1..]);
      RecordFirst(t, rs, u);
      u
  }

  /** Recording the first result and then, as `u`, the rest, accounts for
      the whole run. */
  lemma RecordFirst(t: Tally, rs: seq<CheckResult>, u: Tally)
    requires rs != []
    requires u.errors == Record(t, rs[0]).errors + ErrorsOf(rs[1..])
    requires forall n :: u.checks.Get(n) == (Record(t, rs[0]).checks.Get(n) || SomePassed(rs[1..], n))
    ensures u.errors == t.errors + ErrorsOf(rs)
    ensures forall n :: u.checks.Get(n) == (t.checks.Get(n) || SomePassed(rs, n))
  {
    var before, first, rest := t.errors, rs[0].Errors(), ErrorsOf(rs[1..]);
    assert Record(t, rs[0]).errors == before + first;
    assert ErrorsOf(rs) == first + rest;
    ConcatAssoc(before, first, rest);
    forall n ensures u.checks.Get(n) == (t.checks.Get(n) || SomePassed(rs, n)) {
      SomePassedCons(rs, n);
    }
  }

  /** Sequence concatenation is associative; stated once so that proofs
      over error lists can use it by name. */
  lemma ConcatAssoc<T>(a: seq<T>, b: seq<T>, c: seq<T>)
    ensures (a + b) + c == a + (b + c)
  {
  }

  /** A probe passed under `n` in a non-empty run iff the first one did or one
      of the rest did. */
  lemma SomePassedCons(rs: seq<CheckResult>, n: CheckName)
    requires rs != []
    ensures SomePassed(rs, n) <==> rs[0] == Passed(n) || SomePassed(rs[1..], n)
  {
    assert rs == [rs[0]] + rs[1..];
  }

  const Ready := "ready"
  const NotReady := "not_ready"

  /** The readiness answer: the flags, the errors, the status string, the HTTP
      status code and whether the body carries an `errors` key. */
  datatype Report = Report(checks: Checks, errors: seq<string>, status: string, code: int, hasErrorsKey: bool) {

    /** The response body: `status`, then `checks`, then `errors` if present. */
    function Body(): Json {
      Object([("status", Str(status)), ("checks", checks.ToJson())]
             + (if hasErrorsKey then [("errors", Strings(errors))] else []))
    }

    function ToResponse(): Response {
      Response(Body(), code)
    }
  }

  /** The three probes' results, in evaluation order. */
  function Probe<Row>(pg: Outcome<Row>, cache: CacheOutcome, inspect: Outcome<Option<Workers>>): seq<CheckResult> {
    [PostgresProbe(pg), RedisProbe(cache), CeleryProbe(inspect)]
  }

  /** Recording three results named postgres, redis and celery_workers from
      the initial state leaves each flag equal to its own result's pass and
      the three results' errors in order. */
  lemma RecordThree(p: CheckResult, r: CheckResult, c: CheckResult)
    requires p.name == Postgres && r.name == Redis && c.name == CeleryWorkers
    ensures RecordAll(Tally(Unchecked, []), [p, r, c])
            == Tally(Checks(p.Passed?, r.Passed?, c.Passed?), p.Errors() + r.Errors() + c.Errors())
  {
    var rs := [p, r, c];
    var t := RecordAll(Tally(Unchecked, []), rs);
    assert rs[1..] == [r, c] && rs[1..][1..] == [c] && [c][1..] == [];
    assert ErrorsOf([c]) == c.Errors() + ErrorsOf([]);
    assert ErrorsOf([r, c]) == r.Errors() + ErrorsOf([c]);
    assert ErrorsOf(rs) == p.Errors() + ErrorsOf([r, c]);
    ConcatAssoc(p.Errors(), r.Errors(), c.Errors());
    assert t.checks.Get(Postgres) == p.Passed?;
    assert t.checks.Get(Redis) == r.Passed?;
    assert t.checks.Get(CeleryWorkers) == c.Passed?;
  }

  /** The readiness view, given what each collaborator did. */
  function ReadinessCheck<Row>(pg: Outcome<Row>, cache: CacheOutcome, inspect: Outcome<Option<Workers>>): (rep: Report)
    ensures rep.checks == Checks(PostgresProbe(pg).Passed?, RedisProbe(cache).Passed?, CeleryProbe(inspect).Passed?)
    ensures rep.errors == PostgresProbe(pg).Errors() + RedisProbe(cache).Errors() + CeleryProbe(inspect).Errors()
    ensures rep.code == 200 <==> rep.checks.postgres && rep.checks.redis && rep.checks.celeryWorkers
    ensures rep.code == 200 || rep.code == 503
    ensures rep.status == Ready <==> rep.code == 200
    ensures rep.status == NotReady <==> rep.code == 503
    ensures |rep.errors| == CountFalse(rep.checks.Values())
    ensures rep.hasErrorsKey <==> rep.status == NotReady
  {
    var rs := Probe(pg, cache, inspect);
    var t := RecordAll(Tally(Unchecked, []), rs);
    RecordThree(rs[0], rs[1], rs[2]);
    var allHealthy := All(t.checks.Values());
    Report(t.checks, t.errors,
           if allHealthy then Ready else NotReady,
           if allHealthy then 200 else 503,
           t.errors != [])
  }
}

/** Properties of the readiness view that relate its parts or several runs. */
module ReadinessFacts {
  import opened Outcomes
  import opened Json
  import opened Probes
  import opened Readiness

  /** The dependencies among `ns` whose flag is false, in the order of `ns`. */
  function Failing(c: Checks, ns: seq<CheckName>): seq<CheckName> {
    if ns == [] then [] else (if c.Get(ns[0]) then [] else [ns[0]]) + Failing(c, ns[1..])
  }

  /** The entries of `es` that start with `n`'s label. */
  function ErrorsFor(es: seq<string>, n: CheckName): seq<string> {
    if es == [] then [] else (if n.Label() <= es[0] then [es[0]] else []) + ErrorsFor(es[1..], n)
  }

  lemma {:induction false} ErrorsForAppend(a: seq<string>, b: seq<string>, n: CheckName)
    ensures ErrorsFor(a + b, n) == ErrorsFor(a, n) + ErrorsFor(b, n)
    decreases |a|
  {
    if a == [] {
      assert a + b == b;
    } else {
      assert (a + b)[1..] == a[1..] + b;
      ErrorsForAppend(a[1..], b, n);
    }
  }

  /** A probe's entries are found under its own name and under no other. */
  lemma ErrorsForProbe(r: CheckResult, n: CheckName)
    ensures ErrorsFor(r.Errors(), n) == (if r.name == n then r.Errors() else [])
  {
    if r.Failed? {
      var e := r.name.Label() + r.cause;
      assert r.Errors() == [e] && [e][1..] == [];
      assert r.name.Label() <= e;
      if n.Label() <= e {
        LabelsExclusive(n, r.name, e);
      }
    }
  }

  /** `es` holds one entry per name in `ns`, each starting with that
      name's label. */
  predicate Labelled(es: seq<string>, ns: seq<CheckName>) {
    |es| == |ns| && forall k :: 0 <= k < |ns| ==> ns[k].Label() <= es[k]
  }

  lemma LabelledAppend(es1: seq<string>, ns1: seq<CheckName>, es2: seq<string>, ns2: seq<CheckName>)
    requires Labelled(es1, ns1) && Labelled(es2, ns2)
    ensures Labelled(es1 + es2, ns1 + ns2)
  {
    forall k | 0 <= k < |ns1 + ns2|
      ensures (ns1 + ns2)[k].Label() <= (es1 + es2)[k]
    {
      if k >= |ns1| {
        assert (ns1 + ns2)[k] == ns2[k - |ns1|] && (es1 + es2)[k] == es2[k - |es1|];
      }
    }
  }

  /** A probe's entries are labelled with its name when it failed. */
  lemma ProbeLabelled(r: CheckResult)
    ensures Labelled(r.Errors(), if r.Passed? then [] else [r.name])
  {
    ErrorsCarryLabel(r);
  }

  /** The failing dependencies, in probe order. */
  lemma FailingInOrder(c: Checks)
    ensures Failing(c, Order) == (if c.postgres then [] else [Postgres])
                                 + (if c.redis then [] else [Redis])
                                 + (if c.celeryWorkers then [] else [CeleryWorkers])
  {
    var o1, o2 := [Redis, CeleryWorkers], [CeleryWorkers];
    assert Order[1..] == o1 && o1[1..] == o2 && o2[1..] == [];
    assert Failing(c, o2) == (if c.celeryWorkers then [] else [CeleryWorkers]) + Failing(c, []);
    assert Failing(c, o1) == (if c.redis then [] else [Redis]) + Failing(c, o2);
  }

  /** Every name `Failing` returns has a false flag. */
  lemma {:induction false} FailingAreFalse(c: Checks, ns: seq<CheckName>)
    ensures forall k :: 0 <= k < |Failing(c, ns)| ==> !c.Get(Failing(c, ns)[k])
    decreases |ns|
  {
    if ns != [] {
      FailingAreFalse(c, ns[1..]);
      var head := if c.Get(ns[0]) then [] else [ns[0]];
      var f := Failing(c, ns);
      assert f == head + Failing(c, ns[1..]);
      forall k | 0 <= k < |f| ensures !c.Get(f[k]) {
        if k >= |head| {
          assert f[k] == Failing(c, ns[1..])[k - |head|];
        }
      }
    }
  }

  /** The `errors` list holds one entry per false flag, in the order
      postgres, redis, celery_workers, each starting with its dependency's
      label. */
  lemma ErrorsFollowFailingChecks<Row>(pg: Outcome<Row>, cache: CacheOutcome, inspect: Outcome<Option<Workers>>)
    ensures var rep := ReadinessCheck(pg, cache, inspect);
            var f := Failing(rep.checks, Order);
            && |rep.errors| == |f|
            && forall k :: 0 <= k < |f| ==> !rep.checks.Get(f[k]) && f[k].Label() <= rep.errors[k]
  {
    var rep := ReadinessCheck(pg, cache, inspect);
    var p, r, c := PostgresProbe(pg), RedisProbe(cache), CeleryProbe(inspect);
    var np := if p.Passed? then [] else [Postgres];
    var nr := if r.Passed? then [] else [Redis];
    var nc := if c.Passed? then [] else [CeleryWorkers];
    ProbeLabelled(p);
    ProbeLabelled(r);
    ProbeLabelled(c);
    LabelledAppend(p.Errors(), np, r.Errors(), nr);
    LabelledAppend(p.Errors() + r.Errors(), np + nr, c.Errors(), nc);
    assert rep.errors == p.Errors() + r.Errors() + c.Errors();
    assert rep.checks == Checks(p.Passed?, r.Passed?, c.Passed?);
    FailingInOrder(rep.checks);
    FailingAreFalse(rep.checks, Order);
  }

  /** Of three results named postgres, redis and celery_workers, the
      entries under `n`'s label are those of the result named `n`. */
  lemma ErrorsForThree(p: CheckResult, r: CheckResult, c: CheckResult, n: CheckName)
    requires p.name == Postgres && r.name == Redis && c.name == CeleryWorkers
    ensures ErrorsFor(p.Errors() + r.Errors() + c.Errors(), n)
            == (match n case Postgres => p.Errors() case Redis => r.Errors() case CeleryWorkers => c.Errors())
  {
    ErrorsForAppend(p.Errors() + r.Errors(), c.Errors(), n);
    ErrorsForAppend(p.Errors(), r.Errors(), n);
    ErrorsForProbe(p, n);
    ErrorsForProbe(r, n);
    ErrorsForProbe(c, n);
  }

  /** The entries under each dependency's label are exactly that
      dependency's own probe entries. */
  lemma OwnEntries<Row>(pg: Outcome<Row>, cache: CacheOutcome, inspect: Outcome<Option<Workers>>)
    ensures var es := ReadinessCheck(pg, cache, inspect).errors;
            && ErrorsFor(es, Postgres) == PostgresProbe(pg).Errors()
            && ErrorsFor(es, Redis) == RedisProbe(cache).Errors()
            && ErrorsFor(es, CeleryWorkers) == CeleryProbe(inspect).Errors()
  {
    var p, r, c := PostgresProbe(pg), RedisProbe(cache), CeleryProbe(inspect);
    ErrorsForThree(p, r, c, Postgres);
    ErrorsForThree(p, r, c, Redis);
    ErrorsForThree(p, r, c, CeleryWorkers);
  }

  /** Failure isolation: what the cache and the control plane do never changes
      the postgres flag or the postgres entries. */
  lemma PostgresIsolated<Row>(pg: Outcome<Row>, cache1: CacheOutcome, inspect1: Outcome<Option<Workers>>,
                              cache2: CacheOutcome, inspect2: Outcome<Option<Workers>>)
    ensures var a, b := ReadinessCheck(pg, cache1, inspect1), ReadinessCheck(pg, cache2, inspect2);
            a.checks.postgres == b.checks.postgres
            && ErrorsFor(a.errors, Postgres) == ErrorsFor(b.errors, Postgres)
  {
    OwnEntries(pg, cache1, inspect1);
    OwnEntries(pg, cache2, inspect2);
  }

  /** Failure isolation for the cache probe. */
  lemma RedisIsolated<Row>(cache: CacheOutcome, pg1: Outcome<Row>, inspect1: Outcome<Option<Workers>>,
                           pg2: Outcome<Row>, inspect2: Outcome<Option<Workers>>)
    ensures var a, b := ReadinessCheck(pg1, cache, inspect1), ReadinessCheck(pg2, cache, inspect2);
            a.checks.redis == b.checks.redis
            && ErrorsFor(a.errors, Redis) == ErrorsFor(b.errors, Redis)
  {
    OwnEntries(pg1, cache, inspect1);
    OwnEntries(pg2, cache, inspect2);
  }

  /** Failure isolation for the worker probe. */
  lemma CeleryIsolated<Row>(inspect: Outcome<Option<Workers>>, pg1: Outcome<Row>, cache1: CacheOutcome,
                            pg2: Outcome<Row>, cache2: CacheOutcome)
    ensures var a, b := ReadinessCheck(pg1, cache1, inspect), ReadinessCheck(pg2, cache2, inspect);
            a.checks.celeryWorkers == b.checks.celeryWorkers
            && ErrorsFor(a.errors, CeleryWorkers) == ErrorsFor(b.errors, CeleryWorkers)
  {
    OwnEntries(pg1, cache1, inspect);
    OwnEntries(pg2, cache2, inspect);
  }

  /** The body of any report: `status`, then `checks`, then `errors` exactly
      when the report says so. */
  lemma BodyShape(rep: Report)
    ensures rep.Body().Object?
    ensures Keys(rep.Body().fields) == ["status", "checks"] + (if rep.hasErrorsKey then ["errors"] else [])
    ensures Lookup(rep.Body().fields, "status") == Some(Str(rep.status))
    ensures Lookup(rep.Body().fields, "checks") == Some(rep.checks.ToJson())
    ensures rep.hasErrorsKey ==> Lookup(rep.Body().fields, "errors") == Some(Strings(rep.errors))
  {
    var fs := rep.Body().fields;
    assert "status"[1] != "checks"[1];
    assert "status"[0] != "errors"[0] && "checks"[0] != "errors"[0];
    assert fs[0] == ("status", Str(rep.status)) && fs[1] == ("checks", rep.checks.ToJson());
    assert fs[1..][0] == fs[1];
    if rep.hasErrorsKey {
      assert fs[1..][1..][0] == ("errors", Strings(rep.errors));
      assert Lookup(fs, "errors") == Lookup(fs[1..], "errors") == Lookup(fs[1..][1..], "errors");
    }
  }

  /** In the `checks` object, each dependency's key holds its own flag. */
  lemma ChecksLookup(c: Checks, n: CheckName)
    ensures Lookup(c.ToJson().fields, n.Key()) == Some(Bool(c.Get(n)))
  {
    var fs := c.ToJson().fields;
    KeysDistinct(n, Postgres);
    KeysDistinct(n, Redis);
    assert fs[0] == (Postgres.Key(), Bool(c.postgres));
    assert fs[1..][0] == (Redis.Key(), Bool(c.redis));
    assert fs[1..][1..][0] == (CeleryWorkers.Key(), Bool(c.celeryWorkers));
    if n != Postgres {
      assert Lookup(fs, n.Key()) == Lookup(fs[1..], n.Key());
      if n != Redis {
        assert Lookup(fs[1..], n.Key()) == Lookup(fs[1..][1..], n.Key());
      }
    }
  }

  /** The `checks` object always has exactly the three keys, in order. */
  lemma ChecksKeys(c: Checks)
    ensures Keys(c.ToJson().fields) == ["postgres", "redis", "celery_workers"]
  {
    var fs := c.ToJson().fields;
    assert fs[1..][1..][1..] == [];
  }

  /** The response of a report whose status, code and `errors` key agree:
      200 with keys `status` and `checks`, or 503 with `errors` as well,
      holding the report's error list. */
  lemma ConsistentResponse(rep: Report)
    requires rep.code == 200 || rep.code == 503
    requires rep.status == (if rep.code == 200 then Ready else NotReady)
    requires rep.hasErrorsKey <==> rep.code == 503
    ensures var resp := rep.ToResponse();
            && resp.status == rep.code
            && resp.body.Object?
            && Keys(resp.body.fields) == (if resp.status == 200 then ["status", "checks"] else ["status", "checks", "errors"])
            && (HasKey(resp.body, "errors") <==> resp.status == 503)
            && Lookup(resp.body.fields, "status") == Some(Str(if resp.status == 200 then "ready" else "not_ready"))
            && Lookup(resp.body.fields, "checks") == Some(rep.checks.ToJson())
            && (resp.status == 503 ==> Lookup(resp.body.fields, "errors") == Some(Strings(rep.errors)))
  {
    BodyShape(rep);
    assert "status"[0] != "errors"[0] && "checks"[0] != "errors"[0];
    assert ["status", "checks"] + [] == ["status", "checks"];
    assert ["status", "checks"] + ["errors"] == ["status", "checks", "errors"];
  }

  /** The readiness response: 200 with keys `status` and `checks`, or 503
      with an `errors` key as well, holding the error list; `checks` always
      has exactly the three keys. */
  lemma ResponseShape<Row>(pg: Outcome<Row>, cache: CacheOutcome, inspect: Outcome<Option<Workers>>)
    ensures var rep := ReadinessCheck(pg, cache, inspect);
            var resp := rep.ToResponse();
            && resp.status == rep.code
            && resp.body.Object?
            && Keys(resp.body.fields) == (if resp.status == 200 then ["status", "checks"] else ["status", "checks", "errors"])
            && (HasKey(resp.body, "errors") <==> resp.status == 503)
            && Lookup(resp.body.fields, "status") == Some(Str(if resp.status == 200 then "ready" else "not_ready"))
            && Lookup(resp.body.fields, "checks") == Some(rep.checks.ToJson())
            && (resp.status == 503 ==> Lookup(resp.body.fields, "errors") == Some(Strings(rep.errors)))
            && Keys(rep.checks.ToJson().fields) == ["postgres", "redis", "celery_workers"]
  {
    var rep := ReadinessCheck(pg, cache, inspect);
    ConsistentResponse(rep);
    ChecksKeys(rep.checks);
  }
}
