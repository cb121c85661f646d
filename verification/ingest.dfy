/** The nozzle's ingest loop: each firehose envelope updates the five
    dimension tallies and, for a log message, the per-app tally through the
    identity cache. The lock around each update is not modelled: a record's
    whole update is one atomic `Step`. */
module Ingest {
  import opened Wrappers
  import opened Tally
  import opened AppCache

  /** The parts of an envelope the loop reads: event type name, origin, job,
      deployment and IP, and the app id of its log message when it carries
      one (`None` when `GetLogMessage()` is nil). */
  datatype Record = Record(
    eventType: string,
    origin: string,
    job: string,
    deployment: string,
    ip: string,
    logAppId: Option<string>)

  /** The six tallies `eventTypes`, `origins`, `jobs`, `deployments`, `ips`
      and `apps`. */
  datatype Tallies = Tallies(
    eventTypes: Tally,
    origins: Tally,
    jobs: Tally,
    deployments: Tally,
    ips: Tally,
    apps: Tally)

  /** The shared state behind the lock: tallies and identity cache, plus the
      trace of guids the external lookup has been called with. */
  datatype State = State(tallies: Tallies, cache: Cache, calls: seq<string>)

  /** The state at start-up: every map empty, no call made. */
  const Initial := State(Tallies(map[], map[], map[], map[], map[], map[]), map[], [])

  /** The five dimensions every record is counted in. */
  datatype Dimension = EventType | Origin | Job | Deployment | Ip

  function TallyOf(t: Tallies, d: Dimension): (tally: Tally)
  {
    match d
    case EventType => t.eventTypes
    case Origin => t.origins
    case Job => t.jobs
    case Deployment => t.deployments
    case Ip => t.ips
  }

  function KeyOf(rec: Record, d: Dimension): (key: string)
  {
    match d
    case EventType => rec.eventType
    case Origin => rec.origin
    case Job => rec.job
    case Deployment => rec.deployment
    case Ip => rec.ip
  }

  /** The composite key `org/space/app` of the per-app tally. */
  function AppKey(info: AppInfo): (key: string)
  {
    info.orgName + "/" + info.spaceName + "/" + info.appName
  }

  /** Every tally holds only keys that were observed at least once. */
  ghost predicate AllPositive(t: Tallies)
  {
    && Positive(t.eventTypes) && Positive(t.origins) && Positive(t.jobs)
    && Positive(t.deployments) && Positive(t.ips) && Positive(t.apps)
  }

  /** State invariant: positive tallies and a cache keyed by app guid. */
  ghost predicate Valid(s: State)
  {
    AllPositive(s.tallies) && WellKeyed(s.cache)
  }

  /** From `before` to `after` no tally lost a key or a count, and the cache
      lost or changed no entry. */
  ghost predicate Monotone(before: State, after: State)
  {
    && Grows(before.tallies.eventTypes, after.tallies.eventTypes)
    && Grows(before.tallies.origins, after.tallies.origins)
    && Grows(before.tallies.jobs, after.tallies.jobs)
    && Grows(before.tallies.deployments, after.tallies.deployments)
    && Grows(before.tallies.ips, after.tallies.ips)
    && Grows(before.tallies.apps, after.tallies.apps)
    && Extends(before.cache, after.cache)
  }

  /** One record resolves to an app identity: it is a log message and its
      app id is cached or the lookup answers successfully. */
  predicate Resolves(s: State, rec: Record, answer: LookupAnswer)
  {
    rec.logAppId.Some? && (rec.logAppId.value in s.cache || answer.Success?)
  }

  /** The app part of one iteration: the app tally, cache and call trace
      after resolving the record's app id, if it has one. */
  datatype AppUpdate = AppUpdate(apps: Tally, cache: Cache, calls: seq<string>)

  function UpdateApps(s: State, rec: Record, answer: LookupAnswer): (u: AppUpdate)
    ensures !Resolves(s, rec, answer) ==> u.apps == s.tallies.apps
    ensures Resolves(s, rec, answer) ==>
      var g := rec.logAppId.value;
      && g in u.cache
      && u.apps == Increment(s.tallies.apps, AppKey(u.cache[g]))
    ensures rec.logAppId.None? ==> u.cache == s.cache && u.calls == s.calls
    ensures rec.logAppId.Some? ==>
      var g := rec.logAppId.value;
      u.calls == if g in s.cache then s.calls else s.calls + [g]
    ensures !Resolves(s, rec, answer) ==> u.cache == s.cache
    ensures Extends(s.cache, u.cache)
    // a cache hit leaves the cache alone; a fresh successful lookup adds
    // only the record's own guid, holding the identity built from the answer
    ensures rec.logAppId.Some? && rec.logAppId.value in s.cache ==> u.cache == s.cache
    ensures rec.logAppId.Some? && rec.logAppId.value !in s.cache && answer.Success? ==>
      var g := rec.logAppId.value;
      && u.cache.Keys == s.cache.Keys + {g}
      && BuiltFrom(u.cache[g], g, answer.value)
    ensures WellKeyed(s.cache) ==> WellKeyed(u.cache)
  {
    match rec.logAppId
    case None => AppUpdate(s.tallies.apps, s.cache, s.calls)
    case Some(g) =>
      var res := Resolve(s.cache, g, answer);
      var apps := if res.err.None? then Increment(s.tallies.apps, AppKey(res.info)) else s.tallies.apps;
      AppUpdate(apps, res.cache, if res.called then s.calls + [g] else s.calls)
  }

  /** One iteration of the ingest loop, under the lock: resolve the log
      message's app id (if any) and count the app on success, then count the
      record in each of the five dimensions. `answer` is what the external
      lookup would return if it were called for this record. */
  function Step(s: State, rec: Record, answer: LookupAnswer): (r: State)
    // the app tally moves exactly when the record resolves
    ensures !Resolves(s, rec, answer) ==> r.tallies.apps == s.tallies.apps
    ensures Resolves(s, rec, answer) ==>
      var g := rec.logAppId.value;
      && g in r.cache
      && r.tallies.apps == Increment(s.tallies.apps, AppKey(r.cache[g]))
    // a record that is not a log message leaves cache and call trace alone
    ensures rec.logAppId.None? ==> r.cache == s.cache && r.calls == s.calls
    // a log message calls the lookup exactly when its app id is not cached
    ensures rec.logAppId.Some? ==>
      var g := rec.logAppId.value;
      r.calls == if g in s.cache then s.calls else s.calls + [g]
    // a failed lookup is not cached; otherwise the cache only grows
    ensures !Resolves(s, rec, answer) ==> r.cache == s.cache
    ensures Extends(s.cache, r.cache)
    // a cache hit leaves the cache alone; a fresh successful lookup adds
    // only the record's own guid, holding the identity built from the answer
    ensures rec.logAppId.Some? && rec.logAppId.value in s.cache ==> r.cache == s.cache
    ensures rec.logAppId.Some? && rec.logAppId.value !in s.cache && answer.Success? ==>
      var g := rec.logAppId.value;
      && r.cache.Keys == s.cache.Keys + {g}
      && BuiltFrom(r.cache[g], g, answer.value)
  {
    var u := UpdateApps(s, rec, answer);
    var t := s.tallies;
    var t' := Tallies(
      Increment(t.eventTypes, rec.eventType),
      Increment(t.origins, rec.origin),
      Increment(t.jobs, rec.job),
      Increment(t.deployments, rec.deployment),
      Increment(t.ips, rec.ip),
      u.apps);
    State(t', u.cache, u.calls)
  }

  /** Each dimension counts the record once, under the record's own key.
      This is the per-`Dimension` form that `RunCounts` uses; `StepBumps`
      states the property itself, through `Bumped`. */
  lemma StepDimension(s: State, rec: Record, answer: LookupAnswer, d: Dimension)
    ensures TallyOf(Step(s, rec, answer).tallies, d) == Increment(TallyOf(s.tallies, d), KeyOf(rec, d))
  {
  }

  /** Per record: each dimension tally gains exactly one observation at the
      record's key (the empty string included) and no other key changes; the
      app tally gains one at `org/space/app` exactly when the record
      resolves, and is otherwise untouched. */
  lemma StepBumps(s: State, rec: Record, answer: LookupAnswer)
    ensures var r := Step(s, rec, answer);
            && (forall d :: Bumped(TallyOf(s.tallies, d), TallyOf(r.tallies, d), KeyOf(rec, d)))
            && (Resolves(s, rec, answer) ==>
                  Bumped(s.tallies.apps, r.tallies.apps, AppKey(r.cache[rec.logAppId.value])))
            && (!Resolves(s, rec, answer) ==> r.tallies.apps == s.tallies.apps)
  {
    forall d | true
      ensures Bumped(TallyOf(s.tallies, d), TallyOf(Step(s, rec, answer).tallies, d), KeyOf(rec, d))
    {
      StepDimension(s, rec, answer, d);
      IncrementBumps(TallyOf(s.tallies, d), KeyOf(rec, d));
    }
    if Resolves(s, rec, answer) {
      var r := Step(s, rec, answer);
      IncrementBumps(s.tallies.apps, AppKey(r.cache[rec.logAppId.value]));
    }
  }

  /** No step lowers a count, drops a key or touches a cached entry. */
  lemma StepMonotone(s: State, rec: Record, answer: LookupAnswer)
    ensures Monotone(s, Step(s, rec, answer))
  {
    var r := Step(s, rec, answer);
    var t := s.tallies;
    IncrementBumps(t.eventTypes, rec.eventType);
    IncrementBumps(t.origins, rec.origin);
    IncrementBumps(t.jobs, rec.job);
    IncrementBumps(t.deployments, rec.deployment);
    IncrementBumps(t.ips, rec.ip);
    if Resolves(s, rec, answer) {
      IncrementBumps(t.apps, AppKey(r.cache[rec.logAppId.value]));
    }
  }

  /** Every step keeps the state invariant. */
  lemma StepValid(s: State, rec: Record, answer: LookupAnswer)
    requires Valid(s)
    ensures Valid(Step(s, rec, answer))
  {
    var t := s.tallies;
    IncrementBumps(t.eventTypes, rec.eventType);
    IncrementBumps(t.origins, rec.origin);
    IncrementBumps(t.jobs, rec.job);
    IncrementBumps(t.deployments, rec.deployment);
    IncrementBumps(t.ips, rec.ip);
    if Resolves(s, rec, answer) {
      IncrementBumps(t.apps, AppKey(Step(s, rec, answer).cache[rec.logAppId.value]));
    }
  }

  /** The loop over the firehose, in arrival order; `answers[i]` is what the
      external lookup would return while record `i` is processed. */
  function Run(s: State, recs: seq<Record>, answers: seq<LookupAnswer>): (r: State)
    requires |answers| == |recs|
    decreases |recs|
  {
    if recs == [] then s
    else Run(Step(s, recs[0], answers[0]), recs[1..], answers[1..])
  }

  /** The counting invariant: each record adds exactly one to the sum of every
      dimension tally. */
  lemma {:induction false} RunCounts(s: State, recs: seq<Record>, answers: seq<LookupAnswer>, d: Dimension)
    requires |answers| == |recs|
    ensures Sum(TallyOf(Run(s, recs, answers).tallies, d)) == Sum(TallyOf(s.tallies, d)) + |recs|
    decreases |recs|
  {
    if recs != [] {
      var s' := Step(s, recs[0], answers[0]);
      SumIncrement(TallyOf(s.tallies, d), KeyOf(recs[0], d));
      StepDimension(s, recs[0], answers[0], d);
      RunCounts(s', recs[1..], answers[1..], d);
    }
  }

  /** The app tally gains at most one observation per record. */
  lemma {:induction false} RunAppsBounded(s: State, recs: seq<Record>, answers: seq<LookupAnswer>)
    requires |answers| == |recs|
    ensures Sum(Run(s, recs, answers).tallies.apps) <= Sum(s.tallies.apps) + |recs|
    decreases |recs|
  {
    if recs != [] {
      var s' := Step(s, recs[0], answers[0]);
      if s'.tallies.apps != s.tallies.apps {
        var g := recs[0].logAppId.value;
        SumIncrement(s.tallies.apps, AppKey(s'.cache[g]));
        assert s'.tallies.apps == Increment(s.tallies.apps, AppKey(s'.cache[g]));
      }
      RunAppsBounded(s', recs[1..], answers[1..]);
    }
  }

  /** After N records from start-up, each dimension tally sums to N. */
  lemma CountingInvariant(recs: seq<Record>, answers: seq<LookupAnswer>)
    requires |answers| == |recs|
    ensures forall d :: Sum(TallyOf(Run(Initial, recs, answers).tallies, d)) == |recs|
  {
    forall d | true
      ensures Sum(TallyOf(Run(Initial, recs, answers).tallies, d)) == |recs|
    {
      RunCounts(Initial, recs, answers, d);
    }
  }

  lemma MonotoneTransitive(a: State, b: State, c: State)
    requires Monotone(a, b) && Monotone(b, c)
    ensures Monotone(a, c)
  {
  }

  /** Over any run no count decreases, no key disappears, and the cache only
      grows; the state invariant is kept. */
  lemma {:induction false} RunMonotone(s: State, recs: seq<Record>, answers: seq<LookupAnswer>)
    requires |answers| == |recs|
    ensures Monotone(s, Run(s, recs, answers))
    ensures Valid(s) ==> Valid(Run(s, recs, answers))
    decreases |recs|
  {
    if recs != [] {
      var s' := Step(s, recs[0], answers[0]);
      StepMonotone(s, recs[0], answers[0]);
      if Valid(s) {
        StepValid(s, recs[0], answers[0]);
      }
      RunMonotone(s', recs[1..], answers[1..]);
      MonotoneTransitive(s, s', Run(s', recs[1..], answers[1..]));
    }
  }

  /** `after` is the call trace `before` followed only by calls for guids
      other than `g`. */
  ghost predicate TraceExtendsWithout(before: seq<string>, after: seq<string>, g: string)
  {
    && |before| <= |after|
    && after[..|before|] == before
    && forall i :: |before| <= i < |after| ==> after[i] != g
  }

  lemma TraceExtendsWithoutTransitive(a: seq<string>, b: seq<string>, c: seq<string>, g: string)
    requires TraceExtendsWithout(a, b, g) && TraceExtendsWithout(b, c, g)
    ensures TraceExtendsWithout(a, c, g)
  {
    assert c[..|a|] == c[..|b|][..|a|];
  }

  /** A record whose app id is not the cached `g` never calls the lookup
      for `g`, and `g` stays cached. */
  lemma StepKeepsCached(s: State, rec: Record, answer: LookupAnswer, g: string)
    requires g in s.cache
    ensures g in Step(s, rec, answer).cache
    ensures TraceExtendsWithout(s.calls, Step(s, rec, answer).calls, g)
  {
    var r := Step(s, rec, answer);
    assert r.calls[..|s.calls|] == s.calls;
  }

  /** Once a guid is cached, no later record calls the external lookup for it
      again: the call trace only grows, and only with other guids. */
  lemma {:induction false} RunNoRepeatLookup(s: State, recs: seq<Record>, answers: seq<LookupAnswer>, g: string)
    requires |answers| == |recs|
    requires g in s.cache
    ensures TraceExtendsWithout(s.calls, Run(s, recs, answers).calls, g)
    decreases |recs|
  {
    if recs == [] {
      assert s.calls[..|s.calls|] == s.calls;
    } else {
      var s' := Step(s, recs[0], answers[0]);
      StepKeepsCached(s, recs[0], answers[0], g);
      RunNoRepeatLookup(s', recs[1..], answers[1..], g);
      TraceExtendsWithoutTransitive(s.calls, s'.calls, Run(s', recs[1..], answers[1..]).calls, g);
    }
  }

  /** A record can add to the cache only the guid of its own log message. */
  lemma StepAddsOnlyOwnGuid(s: State, rec: Record, answer: LookupAnswer)
    ensures forall h :: h in Step(s, rec, answer).cache && h !in s.cache ==> rec.logAppId == Some(h)
  {
  }

  /** A guid that is not cached stays uncached over a run in which no
      record is a log message for it. */
  lemma {:induction false} RunKeepsUncached(s: State, recs: seq<Record>, answers: seq<LookupAnswer>, g: string)
    requires |answers| == |recs|
    requires g !in s.cache
    requires forall i :: 0 <= i < |recs| ==> recs[i].logAppId != Some(g)
    ensures g !in Run(s, recs, answers).cache
    decreases |recs|
  {
    if recs != [] {
      var s' := Step(s, recs[0], answers[0]);
      assert recs[0].logAppId != Some(g);
      assert forall i :: 0 <= i < |recs[1..]| ==> recs[1..][i] == recs[i + 1];
      RunKeepsUncached(s', recs[1..], answers[1..], g);
    }
  }

  /** No negative caching: a log message whose lookup fails still makes its
      call and leaves its guid uncached, so the next log message with the
      same app id — after any records for other app ids in between — calls
      the external lookup again. */
  lemma RetriesAfterFailure(s: State, rec: Record, answer: LookupAnswer,
                            gap: seq<Record>, gapAnswers: seq<LookupAnswer>,
                            next: Record, answer': LookupAnswer)
    requires rec.logAppId.Some? && !Resolves(s, rec, answer)
    requires |gapAnswers| == |gap|
    requires forall i :: 0 <= i < |gap| ==> gap[i].logAppId != rec.logAppId
    requires next.logAppId == rec.logAppId
    ensures var s1 := Step(s, rec, answer);
            var s2 := Run(s1, gap, gapAnswers);
            var g := rec.logAppId.value;
            && s1.calls == s.calls + [g]
            && Step(s2, next, answer').calls == s2.calls + [g]
  {
    var s1 := Step(s, rec, answer);
    RunKeepsUncached(s1, gap, gapAnswers, rec.logAppId.value);
  }

  /** Three records of event types A, A, B from origins x, y, x, none of
      them a log message: whatever the lookup would answer, the event-type
      tally is {A: 2, B: 1}, the origin tally {x: 2, y: 1}, the app tally
      stays empty and the lookup is never called. */
  lemma ThreeRecordScenario(answers: seq<LookupAnswer>)
    requires |answers| == 3
    ensures var recs := [Record("A", "x", "", "", "", None),
                         Record("A", "y", "", "", "", None),
                         Record("B", "x", "", "", "", None)];
            var r := Run(Initial, recs, answers);
            && r.tallies.eventTypes == map["A" := 2, "B" := 1]
            && r.tallies.origins == map["x" := 2, "y" := 1]
            && r.tallies.jobs == map["" := 3]
            && r.tallies.apps == map[]
            && r.calls == []
  {
    var recs := [Record("A", "x", "", "", "", None),
                 Record("A", "y", "", "", "", None),
                 Record("B", "x", "", "", "", None)];
    var s1 := Step(Initial, recs[0], answers[0]);
    var s2 := Step(s1, recs[1], answers[1]);
    var s3 := Step(s2, recs[2], answers[2]);
    assert Run(Initial, recs, answers) == Run(s1, recs[1..], answers[1..]);
    assert Run(s1, recs[1..], answers[1..]) == Run(s2, recs[2..], answers[2..]);
    assert Run(s2, recs[2..], answers[2..]) == Run(s3, recs[3..], answers[3..]);
    assert s3.tallies.eventTypes == map["A" := 2, "B" := 1];
    assert s3.tallies.origins == map["x" := 2, "y" := 1];
  }

  /** In `head + "/" + tail` with a slash-free head, the first slash sits
      right after the head. */
  lemma FirstSlash(a: string, x: string)
    requires '/' !in a
    ensures (a + "/" + x)[|a|] == '/'
    ensures forall i :: 0 <= i < |a| ==> (a + "/" + x)[i] != '/'
  {
    forall i | 0 <= i < |a|
      ensures (a + "/" + x)[i] != '/'
    {
      assert (a + "/" + x)[i] == a[i];
    }
  }

  /** Splitting at the first slash: a slash-free head is recovered from
      `head + "/" + tail`. */
  lemma SlashSplit(a: string, x: string, b: string, y: string)
    requires '/' !in a && '/' !in b
    requires a + "/" + x == b + "/" + y
    ensures a == b && x == y
  {
    var w := a + "/" + x;
    FirstSlash(a, x);
    FirstSlash(b, y);
    assert |a| == |b|;
    assert a == w[..|a|];
    assert b == (b + "/" + y)[..|b|];
    assert x == w[|a| + 1..];
    assert y == (b + "/" + y)[|b| + 1..];
  }

  /** While org and space names carry no slash, two identities share an
      `org/space/app` key only when org, space and app names all agree. */
  lemma AppKeyInjective(i: AppInfo, j: AppInfo)
    requires '/' !in i.orgName && '/' !in i.spaceName
    requires '/' !in j.orgName && '/' !in j.spaceName
    requires AppKey(i) == AppKey(j)
    ensures i.orgName == j.orgName && i.spaceName == j.spaceName && i.appName == j.appName
  {
    assert AppKey(i) == i.orgName + "/" + (i.spaceName + "/" + i.appName);
    assert AppKey(j) == j.orgName + "/" + (j.spaceName + "/" + j.appName);
    SlashSplit(i.orgName, i.spaceName + "/" + i.appName, j.orgName, j.spaceName + "/" + j.appName);
    SlashSplit(i.spaceName, i.appName, j.spaceName, j.appName);
  }

  /** With a slash inside a name, distinct identities are counted under one
      app key: org "a/b", space "c" and org "a", space "b/c" both give
      "a/b/c/d" for app "d". */
  lemma AppKeyCollision()
    ensures var i := AppInfo("d", "g1", "c", "s1", "a/b", "o1");
            var j := AppInfo("d", "g2", "b/c", "s2", "a", "o2");
            AppKey(i) == AppKey(j) && i.orgName != j.orgName
  {
    assert "a/b" + "/" + "c" + "/" + "d" == "a/b/c/d";
    assert "a" + "/" + "b/c" + "/" + "d" == "a/b/c/d";
  }

  /** The ingest loop as the program writes it: a loop over the records,
      applying one update per record in arrival order, computes the fold
      `Run` from the start-up state. */
  method IngestAll(recs: seq<Record>, answers: seq<LookupAnswer>) returns (s: State)
    requires |answers| == |recs|
    ensures s == Run(Initial, recs, answers)
  {
    s := Initial;
    var i := 0;
    while i < |recs|
      invariant 0 <= i <= |recs|
      invariant Run(s, recs[i..], answers[i..]) == Run(Initial, recs, answers)
    {
      assert recs[i..][1..] == recs[i + 1..];
      assert answers[i..][1..] == answers[i + 1..];
      s := Step(s, recs[i], answers[i]);
      i := i + 1;
    }
  }
}
