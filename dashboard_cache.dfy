/** The wallet dashboard's cache: the `@Cacheable("dashboardData", key =
    userId)` read-through around `getDashboard`, and `DashboardEventHandler`,
    which on every login evicts the user's entry and rebuilds it. The
    Redis cache manager is a map from cache name to that cache's entries;
    time-to-live is not modelled. Asynchronous dispatch runs in line. */
module DashboardCache {
  import opened Wrappers
  import opened Dashboard

  const DASHBOARD_CACHE := "dashboardData"

  type Caches = map<string, map<string, DashboardResponse>>

  /** The value a read returns and the caches after it. */
  datatype CacheRead = CacheRead(value: Option<DashboardResponse>, caches: Caches)

  /** `@Cacheable` around `getDashboard(userId)`, given what building the
      dashboard would give: a missing cache fails the call ("Cannot find
      cache"); a hit returns the stored view; a miss builds, stores and
      returns the view, and a failed build stores nothing. */
  function ReadThrough(caches: Caches, userId: string, built: Option<DashboardResponse>): (r: CacheRead)
  {
    if DASHBOARD_CACHE !in caches then CacheRead(None, caches)
    else if userId in caches[DASHBOARD_CACHE] then CacheRead(Some(caches[DASHBOARD_CACHE][userId]), caches)
    else if built.None? then CacheRead(None, caches)
    else CacheRead(built, caches[DASHBOARD_CACHE := caches[DASHBOARD_CACHE][userId := built.value]])
  }

  /** A hit returns the stored view and changes nothing. */
  lemma HitReturnsStored(caches: Caches, userId: string, built: Option<DashboardResponse>)
    requires DASHBOARD_CACHE in caches && userId in caches[DASHBOARD_CACHE]
    ensures ReadThrough(caches, userId, built) == CacheRead(Some(caches[DASHBOARD_CACHE][userId]), caches)
  {
  }

  /** Reading twice is reading once: after a read that produced a view,
      the next read returns that view from the cache and changes nothing. */
  lemma ReadThroughIdempotent(caches: Caches, userId: string, built: Option<DashboardResponse>)
    requires ReadThrough(caches, userId, built).value.Some?
    ensures var first := ReadThrough(caches, userId, built);
            ReadThrough(first.caches, userId, built) == first
  {
  }

  /** A failed read leaves the caches as they were, so the key stays absent
      rather than holding a partial view. */
  lemma FailedReadStoresNothing(caches: Caches, userId: string, built: Option<DashboardResponse>)
    requires ReadThrough(caches, userId, built).value.None?
    ensures ReadThrough(caches, userId, built).caches == caches
    ensures DASHBOARD_CACHE in caches ==> userId !in caches[DASHBOARD_CACHE] && built.None?
  {
  }

  /** The caches after a login event for `userId`: the user's entry is
      evicted from "dashboardData" (when that cache exists and the evict
      does not fail), then the pre-warm reads the dashboard through the
      cache. Failures of either step are swallowed. */
  function AfterLogin(caches: Caches, userId: string, evictFails: bool, built: Option<DashboardResponse>): Caches {
    var evicted := if DASHBOARD_CACHE in caches && !evictFails
                   then caches[DASHBOARD_CACHE := caches[DASHBOARD_CACHE] - {userId}]
                   else caches;
    ReadThrough(evicted, userId, built).caches
  }

  /** A login touches only the user's key, and only in "dashboardData":
      the same caches exist afterwards, every other cache is unchanged, and
      every other user's entry is unchanged. */
  lemma LoginTouchesOnlyUserKey(caches: Caches, userId: string, evictFails: bool, built: Option<DashboardResponse>)
    ensures var after := AfterLogin(caches, userId, evictFails, built);
            && after.Keys == caches.Keys
            && (forall name :: name in caches && name != DASHBOARD_CACHE ==> after[name] == caches[name])
            && (DASHBOARD_CACHE in caches ==>
                  forall k :: k != userId ==>
                    (k in after[DASHBOARD_CACHE] <==> k in caches[DASHBOARD_CACHE])
                    && (k in caches[DASHBOARD_CACHE] ==> after[DASHBOARD_CACHE][k] == caches[DASHBOARD_CACHE][k]))
  {
  }

  /** After a login whose evict went through, the user's entry is the
      freshly built view, or absent when the build failed; it never keeps
      the stale view. */
  lemma LoginRefreshesEntry(caches: Caches, userId: string, built: Option<DashboardResponse>)
    requires DASHBOARD_CACHE in caches
    ensures var after := AfterLogin(caches, userId, false, built);
            && (built.Some? ==> userId in after[DASHBOARD_CACHE] && after[DASHBOARD_CACHE][userId] == built.value)
            && (built.None? ==> userId !in after[DASHBOARD_CACHE])
  {
  }

  /** Without a "dashboardData" cache nothing is evicted, nothing is stored
      and no error escapes. */
  lemma LoginWithoutCacheChangesNothing(caches: Caches, userId: string, evictFails: bool, built: Option<DashboardResponse>)
    requires DASHBOARD_CACHE !in caches
    ensures AfterLogin(caches, userId, evictFails, built) == caches
  {
  }

  /** The Redis cache manager: `getCache(name)` is null for a name it does
      not hold. */
  class CacheManager {
    var caches: Caches

    constructor(initial: Caches)
      ensures caches == initial
    {
      caches := initial;
    }
  }

  /** `DashboardServiceImpl` with its cache. */
  class DashboardService {
    const sources: Sources
    const cacheManager: CacheManager

    constructor(sources: Sources, cacheManager: CacheManager)
      ensures this.sources == sources && this.cacheManager == cacheManager
    {
      this.sources := sources;
      this.cacheManager := cacheManager;
    }

    /** `getDashboard(userId)` through the cache; `None` is a call that
        throws. */
    method GetDashboard(userId: string) returns (r: Option<DashboardResponse>)
      modifies cacheManager
      ensures var read := ReadThrough(old(cacheManager.caches), userId, BuildDashboard(sources, userId));
              r == read.value && cacheManager.caches == read.caches
    {
      var caches := cacheManager.caches;
      if DASHBOARD_CACHE !in caches {
        r := None;
      } else if userId in caches[DASHBOARD_CACHE] {
        r := Some(caches[DASHBOARD_CACHE][userId]);
      } else {
        r := BuildDashboard(sources, userId);
        if r.Some? {
          cacheManager.caches := caches[DASHBOARD_CACHE := caches[DASHBOARD_CACHE][userId := r.value]];
        }
      }
    }
  }

  /** A user logged in. */
  datatype UserLoggedInEvent = UserLoggedInEvent(userId: string)

  /** The cache operations the handler issues, in order. */
  datatype Step = LookupCache(name: string) | Evict(name: string, key: string) | PreWarm(userId: string)

  class DashboardEventHandler {
    const cacheManager: CacheManager
    const dashboardService: DashboardService
    /** The operations issued so far. */
    var trace: seq<Step>

    predicate Valid()
      reads this
    {
      dashboardService.cacheManager == cacheManager
    }

    constructor(cacheManager: CacheManager, dashboardService: DashboardService)
      requires dashboardService.cacheManager == cacheManager
      ensures Valid() && this.cacheManager == cacheManager && this.dashboardService == dashboardService
      ensures trace == []
    {
      this.cacheManager := cacheManager;
      this.dashboardService := dashboardService;
      trace := [];
    }

    /** `evictUserCache`: evicts the user's key when the cache exists;
        `evictFails` is the cache store throwing, which is logged and
        swallowed. */
    method EvictUserCache(userId: string, evictFails: bool)
      requires Valid()
      modifies this, cacheManager
      ensures Valid()
      ensures var c := old(cacheManager.caches);
              cacheManager.caches == (if DASHBOARD_CACHE in c && !evictFails
                                      then c[DASHBOARD_CACHE := c[DASHBOARD_CACHE] - {userId}] else c)
      ensures trace == old(trace) + [LookupCache(DASHBOARD_CACHE)]
                       + (if DASHBOARD_CACHE in old(cacheManager.caches) then [Evict(DASHBOARD_CACHE, userId)] else [])
    {
      trace := trace + [LookupCache(DASHBOARD_CACHE)];
      if DASHBOARD_CACHE in cacheManager.caches {
        trace := trace + [Evict(DASHBOARD_CACHE, userId)];
        if !evictFails {
          cacheManager.caches := cacheManager.caches[DASHBOARD_CACHE := cacheManager.caches[DASHBOARD_CACHE] - {userId}];
        }
      }
    }

    /** `handleUserLoggedIn`: evict, then pre-warm with one `getDashboard`
        call whose result and failure are both dropped. */
    method HandleUserLoggedIn(event: UserLoggedInEvent, evictFails: bool)
      requires Valid()
      modifies this, cacheManager
      ensures Valid()
      ensures cacheManager.caches ==
                AfterLogin(old(cacheManager.caches), event.userId, evictFails,
                           BuildDashboard(dashboardService.sources, event.userId))
      ensures trace == old(trace) + [LookupCache(DASHBOARD_CACHE)]
                       + (if DASHBOARD_CACHE in old(cacheManager.caches) then [Evict(DASHBOARD_CACHE, event.userId)] else [])
                       + [PreWarm(event.userId)]
    {
      EvictUserCache(event.userId, evictFails);
      trace := trace + [PreWarm(event.userId)];
      var _ := dashboardService.GetDashboard(event.userId);
    }
  }
}
