/**
 * The server's request handling around its single in-memory cache of enriched
 * records: `GET /api/servers` (cache hit, placeholder records, refresh, fallback
 * to stale data on an upstream error, HTTP 500), the cache-clearing admin route,
 * the counts reported by the two debug routes, and the join-URL template.
 *
 * The clock (`Date.now()`) is a parameter `now` in milliseconds. The upstream
 * Steam call is a parameter too: the answer it would give if it were asked.
 */
module ServerApi {
  import opened JsText
  import opened Seqs
  import opened Enrichment

  /** Five minutes, in milliseconds. */
  const CacheExpiration: int := 5 * 60 * 1000

  /** The contents of `serverCache`; `data == None` is `null`. An empty list is still data. */
  datatype CacheState = CacheState(data: Option<seq<ServerRecord>>, timestamp: int, isMockData: bool)

  /** The cache at start-up and after it is cleared. */
  const EmptyCache := CacheState(None, 0, false)

  /** What the upstream server-list call gives. `Unavailable` is a thrown error (network
      failure, non-2xx status); `Reply(None)` is a reply in which `data`, `data.response`
      or `data.response.servers` is missing. */
  datatype UpstreamReply =
    | Unavailable(message: string)
    | Reply(servers: Option<seq<RawServer>>)

  /** The reply lists no server: the handler then serves the placeholders. */
  predicate ListsNoServer(reply: UpstreamReply) {
    reply.Reply? && (reply.servers.None? || reply.servers.value == [])
  }

  /** The JSON body of a `/api/servers` answer. An absent `isMockData`, `cacheAge` or
      `requestId` is `None`; an absent `isErrorFallback` is `false`. `cacheAge` is the
      number of seconds its text starts with. */
  datatype Response =
    | Ok(servers: seq<ServerRecord>, isMockData: Option<bool>, fromCache: bool,
         cacheAge: Option<int>, isErrorFallback: bool, requestId: Option<nat>)
    | Failure(message: string, error: string)

  function StatusCode(r: Response): int {
    if r.Ok? then 200 else 500
  }

  /** The answer, the cache afterwards, and whether the upstream was asked. */
  datatype Handled = Handled(response: Response, cache: CacheState, queriedUpstream: bool)

  /** `Math.round(ms / 1000)` for a whole number of milliseconds. */
  function RoundedAgeSeconds(ms: int): int {
    (ms + 500) / 1000
  }

  /** The rounding is to the nearest second, halves upwards, also for negative ages. */
  lemma RoundedAgeIsNearest(ms: int)
    ensures 1000 * RoundedAgeSeconds(ms) - 500 <= ms < 1000 * RoundedAgeSeconds(ms) + 500
  {
  }

  /** The cache-hit condition of the handler. */
  predicate IsCacheHit(c: CacheState, forceRefresh: bool, now: int) {
    !forceRefresh && c.data.Some? && now - c.timestamp < CacheExpiration
  }

  /** One `/api/servers` request, given the cache before it, `refresh === 'true'`, the clock,
      the request id and the upstream's answer. */
  function HandleServers(c: CacheState, forceRefresh: bool, now: int, requestId: nat, reply: UpstreamReply): (h: Handled)
    ensures !h.queriedUpstream ==> h.cache == c
    ensures h.cache == c || h.cache.timestamp == now
    ensures h.cache.data.None? ==> h.cache == c
    ensures h.response.Failure? ==> h.cache == c && c.data.None? && StatusCode(h.response) == 500
    ensures h.response.Ok? ==> h.cache.data == Some(h.response.servers)
  {
    if IsCacheHit(c, forceRefresh, now) then
      Handled(Ok(c.data.value, Some(c.isMockData), true, Some(RoundedAgeSeconds(now - c.timestamp)), false, Some(requestId)),
              c, false)
    else match reply
      case Unavailable(message) =>
        if c.data.Some? then Handled(Ok(c.data.value, Some(c.isMockData), true, None, true, None), c, true)
        else Handled(Failure("Error fetching servers", message), c, true)
      case Reply(servers) =>
        if ListsNoServer(reply) then
          Handled(Ok(MockServers, Some(true), false, None, false, None), CacheState(Some(MockServers), now, true), true)
        else
          var records := EnrichAll(servers.value);
          Handled(Ok(records, None, false, None, false, None), CacheState(Some(records), now, false), true)
  }

  // ---------------------------------------------------------------------------
  // The branches of the handler, one lemma each.
  // ---------------------------------------------------------------------------

  /** The upstream is left alone exactly on a cache hit, and the hit serves the cache as it is. */
  lemma CacheHitExactly(c: CacheState, forceRefresh: bool, now: int, requestId: nat, reply: UpstreamReply)
    ensures var h := HandleServers(c, forceRefresh, now, requestId, reply);
            (!h.queriedUpstream <==> !forceRefresh && c.data.Some? && now - c.timestamp < 300000)
            && (!h.queriedUpstream ==>
                  h.cache == c
                  && h.response == Ok(c.data.value, Some(c.isMockData), true,
                                      Some(RoundedAgeSeconds(now - c.timestamp)), false, Some(requestId)))
  {
  }

  /** On a cache hit the upstream's answer plays no part. */
  lemma CacheHitIgnoresUpstream(c: CacheState, now: int, requestId: nat, reply1: UpstreamReply, reply2: UpstreamReply)
    requires IsCacheHit(c, false, now)
    ensures HandleServers(c, false, now, requestId, reply1) == HandleServers(c, false, now, requestId, reply2)
  {
  }

  /** `?refresh=true` always asks the upstream. */
  lemma ForcedRefreshQueries(c: CacheState, now: int, requestId: nat, reply: UpstreamReply)
    ensures HandleServers(c, true, now, requestId, reply).queriedUpstream
  {
  }

  /** A reply that lists no server is answered with the three placeholders, which become the
      cache, marked as mock data. */
  lemma EmptyUpstreamServesMock(c: CacheState, forceRefresh: bool, now: int, requestId: nat, reply: UpstreamReply)
    requires !IsCacheHit(c, forceRefresh, now) && ListsNoServer(reply)
    ensures var h := HandleServers(c, forceRefresh, now, requestId, reply);
            h.response == Ok(MockServers, Some(true), false, None, false, None)
            && h.cache == CacheState(Some(MockServers), now, true)
            && |h.response.servers| == 3
  {
    MockServersPopulated();
  }

  /** A reply that lists servers is answered with the records of its entries that have a valid
      address, in upstream order; they become the cache, marked as real data. */
  lemma RealRefresh(c: CacheState, forceRefresh: bool, now: int, requestId: nat, raws: seq<RawServer>)
    requires !IsCacheHit(c, forceRefresh, now) && raws != []
    ensures var h := HandleServers(c, forceRefresh, now, requestId, Reply(Some(raws)));
            var kept := KeepIf(raws, HasValidAddr);
            (forall i :: 0 <= i < |kept| ==> HasValidAddr(kept[i]))
            && h.response == Ok(BuildAll(kept), None, false, None, false, None)
            && h.cache == CacheState(Some(BuildAll(kept)), now, false)
  {
    var records := EnrichAll(raws);
    assert HandleServers(c, forceRefresh, now, requestId, Reply(Some(raws)))
           == Handled(Ok(records, None, false, None, false, None), CacheState(Some(records), now, false), true);
    EnrichAllKeepsValidInOrder(raws);
  }

  /** An upstream error leaves the cache as it is and falls back to its data, or fails with a
      500 when it holds none. */
  lemma UpstreamFailure(c: CacheState, forceRefresh: bool, now: int, requestId: nat, message: string)
    requires !IsCacheHit(c, forceRefresh, now)
    ensures var h := HandleServers(c, forceRefresh, now, requestId, Unavailable(message));
            h.cache == c
            && (c.data.Some? ==> h.response == Ok(c.data.value, Some(c.isMockData), true, None, true, None))
            && (c.data.None? ==> h.response == Failure("Error fetching servers", message)
                                 && StatusCode(h.response) == 500)
  {
  }

  /** A 500 happens exactly when the upstream fails while the cache holds no data. */
  lemma FailureExactly(c: CacheState, forceRefresh: bool, now: int, requestId: nat, reply: UpstreamReply)
    ensures HandleServers(c, forceRefresh, now, requestId, reply).response.Failure?
            <==> !IsCacheHit(c, forceRefresh, now) && reply.Unavailable? && c.data.None?
  {
  }

  /** `fromCache` is set exactly on a hit and on the error fallback. */
  lemma FromCacheExactly(c: CacheState, forceRefresh: bool, now: int, requestId: nat, reply: UpstreamReply)
    ensures var h := HandleServers(c, forceRefresh, now, requestId, reply);
            h.response.Ok? ==> (h.response.fromCache <==> !h.queriedUpstream || h.response.isErrorFallback)
  {
  }

  // ---------------------------------------------------------------------------
  // What a request's cache means for the requests after it.
  // ---------------------------------------------------------------------------

  /** A cache a request refreshed (placeholders or real records) serves every non-forced request
      of the next five minutes, with the same records. */
  lemma RefreshServesNextRequests(c: CacheState, forceRefresh: bool, now: int, requestId: nat, reply: UpstreamReply,
                                  later: int, laterId: nat, laterReply: UpstreamReply)
    requires reply.Reply? && !IsCacheHit(c, forceRefresh, now)
    requires now <= later < now + CacheExpiration
    ensures var h := HandleServers(c, forceRefresh, now, requestId, reply);
            var next := HandleServers(h.cache, false, later, laterId, laterReply);
            !next.queriedUpstream && next.cache == h.cache
            && next.response.Ok? && next.response.servers == h.response.servers
            && next.response.fromCache && next.response.cacheAge == Some(RoundedAgeSeconds(later - now))
  {
  }

  /** Once five minutes have passed since a refresh, the next request asks the upstream again. */
  lemma RefreshExpires(c: CacheState, forceRefresh: bool, now: int, requestId: nat, reply: UpstreamReply,
                       later: int, laterId: nat, laterReply: UpstreamReply)
    requires reply.Reply? && !IsCacheHit(c, forceRefresh, now)
    requires later >= now + CacheExpiration
    ensures var h := HandleServers(c, forceRefresh, now, requestId, reply);
            HandleServers(h.cache, false, later, laterId, laterReply).queriedUpstream
  {
  }

  /** A refresh in which every entry is malformed caches an empty list, and an empty list is
      data: the following requests are hits that serve no server. */
  lemma AllMalformedIsCachedEmpty(c: CacheState, now: int, requestId: nat, raws: seq<RawServer>,
                                  later: int, laterId: nat, laterReply: UpstreamReply)
    requires !IsCacheHit(c, false, now) && raws != []
    requires forall i :: 0 <= i < |raws| ==> !HasValidAddr(raws[i])
    requires now <= later < now + CacheExpiration
    ensures var h := HandleServers(c, false, now, requestId, Reply(Some(raws)));
            h.cache.data == Some([])
            && HandleServers(h.cache, false, later, laterId, laterReply).response.servers == []
            && !HandleServers(h.cache, false, later, laterId, laterReply).queriedUpstream
  {
    EnrichAllKeepsValidInOrder(raws);
    KeepIfNone(raws, HasValidAddr);
  }

  // ---------------------------------------------------------------------------
  // The debug routes' reports.
  // ---------------------------------------------------------------------------

  /** `cacheStatus` of `GET /api/debug/requests`. */
  datatype CacheStatus = CacheStatus(cacheExists: bool, age: Option<int>, serverCount: nat)

  datatype RequestsReport = RequestsReport(totalRequests: nat, cacheStatus: CacheStatus)

  /** `GET /api/debug/cache`; the timestamp is reported as the number of milliseconds. */
  datatype CacheReport = CacheReport(cacheExists: bool, cacheAge: Option<int>, isMockData: bool,
                                     serverCount: nat, timestamp: int)

  function CacheStatusOf(c: CacheState, now: int): (s: CacheStatus)
    ensures s.cacheExists <==> c.data.Some?
    ensures s.age.Some? <==> c.data.Some?
    ensures s.serverCount == if c.data.Some? then |c.data.value| else 0
  {
    if c.data.Some? then CacheStatus(true, Some(RoundedAgeSeconds(now - c.timestamp)), |c.data.value|)
    else CacheStatus(false, None, 0)
  }

  function CacheReportOf(c: CacheState, now: int): (r: CacheReport)
    ensures var s := CacheStatusOf(c, now);
            r.cacheExists == s.cacheExists && r.cacheAge == s.age && r.serverCount == s.serverCount
    ensures r.isMockData == c.isMockData && r.timestamp == c.timestamp
  {
    if c.data.Some? then CacheReport(true, Some(RoundedAgeSeconds(now - c.timestamp)), c.isMockData, |c.data.value|, c.timestamp)
    else CacheReport(false, None, c.isMockData, 0, c.timestamp)
  }

  /** After the cache is cleared both debug routes report no cache and no server. */
  lemma ClearedCacheReports(now: int)
    ensures CacheStatusOf(EmptyCache, now) == CacheStatus(false, None, 0)
    ensures CacheReportOf(EmptyCache, now) == CacheReport(false, None, false, 0, 0)
  {
  }

  /** The count the debug routes report after a request is the number of records it served. */
  lemma ServerCountAfterRequest(c: CacheState, forceRefresh: bool, now: int, requestId: nat, reply: UpstreamReply, later: int)
    ensures var h := HandleServers(c, forceRefresh, now, requestId, reply);
            h.response.Ok? ==> CacheStatusOf(h.cache, later).serverCount == |h.response.servers|
  {
  }

  // ---------------------------------------------------------------------------
  // The mutable state: the cache object and the request counter.
  // ---------------------------------------------------------------------------

  class ServerCache {
    var data: Option<seq<ServerRecord>>
    var timestamp: int
    var isMockData: bool

    function State(): CacheState
      reads this
    {
      CacheState(data, timestamp, isMockData)
    }

    constructor()
      ensures State() == EmptyCache
    {
      data := None;
      timestamp := 0;
      isMockData := false;
    }
  }

  class Backend {
    var serverCache: ServerCache
    var requestCounter: nat

    constructor()
      ensures serverCache.State() == EmptyCache && requestCounter == 0
    {
      serverCache := new ServerCache();
      requestCounter := 0;
    }

    /** `GET /api/servers`: `refresh` is the query parameter, `reply` what the upstream
        answers if it is asked. The cache object is updated in place. */
    method GetServers(refresh: Option<string>, now: int, reply: UpstreamReply) returns (response: Response, queried: bool)
      modifies this, serverCache
      ensures requestCounter == old(requestCounter) + 1
      ensures serverCache == old(serverCache)
      ensures var h := HandleServers(old(serverCache.State()), refresh == Some("true"), now, requestCounter, reply);
              response == h.response && queried == h.queriedUpstream && serverCache.State() == h.cache
    {
      requestCounter := requestCounter + 1;
      var requestId := requestCounter;
      var forceRefresh := refresh == Some("true");
      if !forceRefresh && serverCache.data.Some? && now - serverCache.timestamp < CacheExpiration {
        response := Ok(serverCache.data.value, Some(serverCache.isMockData), true,
                       Some(RoundedAgeSeconds(now - serverCache.timestamp)), false, Some(requestId));
        queried := false;
        return;
      }
      queried := true;
      match reply {
        case Unavailable(message) =>
          if serverCache.data.Some? {
            response := Ok(serverCache.data.value, Some(serverCache.isMockData), true, None, true, None);
          } else {
            response := Failure("Error fetching servers", message);
          }
        case Reply(servers) =>
          if servers.None? || servers.value == [] {
            serverCache.data := Some(MockServers);
            serverCache.timestamp := now;
            serverCache.isMockData := true;
            response := Ok(MockServers, Some(true), false, None, false, None);
          } else {
            var serverDetails := EnrichAll(servers.value);
            serverCache.data := Some(serverDetails);
            serverCache.timestamp := now;
            serverCache.isMockData := false;
            response := Ok(serverDetails, None, false, None, false, None);
          }
      }
    }

    /** `DELETE /api/debug/cache`: a fresh, empty cache object replaces the old one. */
    method ClearCache() returns (message: string)
      modifies this
      ensures fresh(serverCache) && serverCache.State() == EmptyCache
      ensures requestCounter == old(requestCounter)
      ensures message == "Cache cleared successfully"
    {
      serverCache := new ServerCache();
      message := "Cache cleared successfully";
    }

    /** `GET /api/debug/requests`. */
    method DebugRequests(now: int) returns (report: RequestsReport)
      ensures report.totalRequests == requestCounter
      ensures report.cacheStatus == CacheStatusOf(serverCache.State(), now)
    {
      var status: CacheStatus;
      if serverCache.data.Some? {
        status := CacheStatus(true, Some(RoundedAgeSeconds(now - serverCache.timestamp)), |serverCache.data.value|);
      } else {
        status := CacheStatus(false, None, 0);
      }
      report := RequestsReport(requestCounter, status);
    }

    /** `GET /api/debug/cache`. */
    method DebugCache(now: int) returns (report: CacheReport)
      ensures report == CacheReportOf(serverCache.State(), now)
    {
      var present := serverCache.data.Some?;
      report := CacheReport(present,
                            if present then Some(RoundedAgeSeconds(now - serverCache.timestamp)) else None,
                            serverCache.isMockData,
                            if present then |serverCache.data.value| else 0,
                            serverCache.timestamp);
    }
  }

  // ---------------------------------------------------------------------------
  // `GET /api/join/:address`.
  // ---------------------------------------------------------------------------

  const JoinPrefix := "steam://connect/"
  const JoinSuffix := "/?appid=440"

  /** The Steam client URL that joins the server at `address` (TF2 is app 440). */
  function JoinUrl(address: string): (url: string)
    ensures |url| == |JoinPrefix| + |address| + |JoinSuffix|
    ensures url[..|JoinPrefix|] == JoinPrefix && url[|url| - |JoinSuffix|..] == JoinSuffix
  {
    JoinPrefix + address + JoinSuffix
  }

  /** The address a join URL was made for, when the text has the join-URL shape. */
  function AddressOfJoinUrl(url: string): (address: Option<string>)
    ensures address.Some? ==> |url| >= |JoinPrefix| + |JoinSuffix|
  {
    if |url| >= |JoinPrefix| + |JoinSuffix| && url[..|JoinPrefix|] == JoinPrefix && url[|url| - |JoinSuffix|..] == JoinSuffix
    then Some(url[|JoinPrefix|..|url| - |JoinSuffix|])
    else None
  }

  /** The URL determines the address: reading it back gives the address it was made for. */
  lemma JoinUrlRoundTrip(address: string)
    ensures AddressOfJoinUrl(JoinUrl(address)) == Some(address)
  {
    var url := JoinUrl(address);
    assert url[|JoinPrefix|..|url| - |JoinSuffix|] == address;
  }

  /** Every text of the join-URL shape is the URL of the address read from it. */
  lemma JoinUrlOfAddress(url: string)
    requires AddressOfJoinUrl(url).Some?
    ensures JoinUrl(AddressOfJoinUrl(url).value) == url
  {
    var address := AddressOfJoinUrl(url).value;
    assert url == url[..|JoinPrefix|] + address + url[|url| - |JoinSuffix|..];
  }
}
