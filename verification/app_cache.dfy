/** The application-identity memo cache of the nozzle (`appinfoCache` and
    `getAppInfoForGuid`). The external call `GetAppByGuidNoInlineCall` is not
    executed by the model: its answer for the current call is a parameter. */
module AppCache {
  import opened Wrappers

  /** The resolved identity `AppSpaceOrg{appName, appId, spaceName, spaceId,
      orgName, orgId}`. */
  datatype AppInfo = AppInfo(
    appName: string,
    appId: string,
    spaceName: string,
    spaceId: string,
    orgName: string,
    orgId: string)

  /** The fields of the platform's app record that the resolver reads: the
      app name and its space's and org's names and guids. */
  datatype CfApp = CfApp(
    name: string,
    spaceName: string,
    spaceGuid: string,
    orgName: string,
    orgGuid: string)

  /** What the external lookup answers for one call: the app record, or the
      error message it failed with. */
  type LookupAnswer = Result<CfApp, string>

  /** The cache, keyed by app guid. */
  type Cache = map<string, AppInfo>

  /** Go's zero value `AppSpaceOrg{}`, returned beside an error. */
  const EmptyAppInfo := AppInfo("", "", "", "", "", "")

  /** The outcome of one resolution: Go's `(AppSpaceOrg, error)` pair, the
      cache afterwards, and whether the external lookup was called. */
  datatype Resolution = Resolution(
    info: AppInfo,
    err: Option<string>,
    cache: Cache,
    called: bool)

  /** Every cached entry is stored under its own app guid. */
  ghost predicate WellKeyed(cache: Cache)
  {
    forall g :: g in cache ==> cache[g].appId == g
  }

  /** `after` keeps every entry of `before` unchanged: nothing is evicted
      and nothing is overwritten. */
  ghost predicate Extends(before: Cache, after: Cache)
  {
    && before.Keys <= after.Keys
    && forall g :: g in before ==> after[g] == before[g]
  }

  /** `info` is the identity built from a successful lookup of `guid`: the
      app id is the guid that was asked for, the names and the space and
      org ids are the app record's. */
  ghost predicate BuiltFrom(info: AppInfo, guid: string, app: CfApp)
  {
    && info.appId == guid
    && info.appName == app.name
    && info.spaceName == app.spaceName
    && info.spaceId == app.spaceGuid
    && info.orgName == app.orgName
    && info.orgId == app.orgGuid
  }

  /** `getAppInfoForGuid`: answer from the cache on a hit; otherwise call the
      external lookup once (its answer is `answer`), store and return the
      identity on success, return the error and cache nothing on failure. */
  function Resolve(cache: Cache, guid: string, answer: LookupAnswer): (r: Resolution)
    // hit: the stored entry, no call, cache unchanged
    ensures guid in cache ==>
      r == Resolution(cache[guid], None, cache, false)
    // miss: exactly one call
    ensures guid !in cache ==> r.called
    // miss and failure: error with the zero identity, nothing cached
    ensures guid !in cache && answer.Failure? ==>
      r.err == Some(answer.error) && r.info == EmptyAppInfo && r.cache == cache
    // miss and success: the new entry is keyed by, and carries, the guid
    ensures guid !in cache && answer.Success? ==>
      && r.err == None
      && BuiltFrom(r.info, guid, answer.value)
      && r.cache.Keys == cache.Keys + {guid}
      && r.cache[guid] == r.info
    // in every case the cache only grows
    ensures Extends(cache, r.cache)
    // a successful answer is what the cache now holds for the guid
    ensures r.err.None? <==> guid in r.cache
    ensures r.err.None? ==> r.cache[guid] == r.info
    ensures WellKeyed(cache) ==> WellKeyed(r.cache)
  {
    if guid in cache then
      Resolution(cache[guid], None, cache, false)
    else
      match answer
      case Failure(e) => Resolution(EmptyAppInfo, Some(e), cache, true)
      case Success(app) =>
        var info := AppInfo(app.name, guid, app.spaceName, app.spaceGuid, app.orgName, app.orgGuid);
        Resolution(info, None, cache[guid := info], true)
  }

  /** Once a guid has been resolved, resolving it again — whatever the
      external service would now answer — makes no call, returns the same
      identity and leaves the cache alone. */
  lemma ResolveMemoized(cache: Cache, guid: string, first: LookupAnswer, later: LookupAnswer)
    requires Resolve(cache, guid, first).err.None?
    ensures var r1 := Resolve(cache, guid, first);
            var r2 := Resolve(r1.cache, guid, later);
            && !r2.called
            && r2.err.None?
            && r2.info == r1.info
            && r2.cache == r1.cache
  {
  }

  /** No negative caching: after a failed resolution the next resolution of
      the same guid calls the external lookup again and adopts its answer. */
  lemma ResolveRetriesAfterFailure(cache: Cache, guid: string, first: LookupAnswer, later: LookupAnswer)
    requires Resolve(cache, guid, first).err.Some?
    ensures var r1 := Resolve(cache, guid, first);
            var r2 := Resolve(r1.cache, guid, later);
            && r2.called
            && (r2.err.None? <==> later.Success?)
  {
  }
}
