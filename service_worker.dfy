/** service-worker.js: the offline layer. Install precaches the app shell;
    activate deletes every cache but the current core and CDN caches; fetch
    leaves non-GET requests alone, serves CDN libraries cache-first, and
    serves everything else stale-while-revalidate. Cache Storage is a map
    from cache name to a map from request URL to response; the network is a
    parameter giving the response, or `None` when the fetch fails. */
module ServiceWorker {

  import opened Wrappers
  import Text

  const CacheName: string := "thay-ai-core-v3"
  const CdnCacheName: string := "thay-ai-cdn-v1"

  /** The assets install stores. */
  const PrecacheAssets: seq<string> := ["/", "/index.html", "/manifest.json"]

  /** The host fragments whose requests are served cache-first. */
  const CdnHosts: seq<string> := [
    "aistudiocdn.com", "cdn.tailwindcss.com", "esm.sh", "fonts.googleapis.com", "gstatic.com"
  ]

  datatype Response = Response(status: int, body: string)

  /** The response a failed CDN fetch is answered with. */
  const TimeoutResponse := Response(408, "")

  /** A request: HTTP method, URL (the cache key) and the URL's host name. */
  datatype Request = Request(verb: string, url: string, hostname: string)

  type Cache = map<string, Response>
  type Caches = map<string, Cache>

  // ---------------------------------------------------------------------
  // Routing

  function AnyHostIncluded(hosts: seq<string>, hostname: string): (r: bool)
    ensures r <==> exists h :: h in hosts && Text.Includes(hostname, h)
  {
    if hosts == [] then false
    else if Text.Includes(hostname, hosts[0]) then
      assert hosts[0] in hosts;
      true
    else
      var rest := AnyHostIncluded(hosts[1..], hostname);
      assert forall h :: h in hosts ==> h == hosts[0] || h in hosts[1..];
      assert forall h :: h in hosts[1..] ==> h in hosts;
      rest
  }

  /** The CDN test on the host name. */
  predicate IsCdnHost(hostname: string) {
    AnyHostIncluded(CdnHosts, hostname)
  }

  datatype Route = PassThrough | CdnCacheFirst | AppShell

  /** Which strategy handles a request. */
  function RouteOf(req: Request): (r: Route)
    ensures r == PassThrough <==> req.verb != "GET"
    ensures r == CdnCacheFirst <==> req.verb == "GET" && exists h :: h in CdnHosts && Text.Includes(req.hostname, h)
  {
    if req.verb != "GET" then PassThrough
    else if IsCdnHost(req.hostname) then CdnCacheFirst
    else AppShell
  }

  /** Any host under one of the listed domains is served cache-first. */
  lemma SubdomainIsCdn(req: Request, prefix: string)
    requires req.verb == "GET" && req.hostname == prefix + "gstatic.com"
    ensures RouteOf(req) == CdnCacheFirst
  {
    var h := CdnHosts[4];
    assert h in CdnHosts;
    Text.IncludesIffOccurs(req.hostname, h);
    assert Text.OccursAt(req.hostname, h, |prefix|);
  }

  // ---------------------------------------------------------------------
  // Cache Storage operations

  /** `caches.open(name)`: the named cache, created empty if absent. */
  function Opened(caches: Caches, name: string): (r: Caches)
    ensures name in r && r.Keys == caches.Keys + {name}
    ensures forall k :: k in caches ==> r[k] == caches[k]
    ensures name !in caches ==> r[name] == map[]
  {
    if name in caches then caches else caches[name := map[]]
  }

  /** `cache.put(url, response)` on the named cache. */
  function Put(caches: Caches, name: string, url: string, resp: Response): (r: Caches)
    requires name in caches
    ensures r.Keys == caches.Keys
    ensures r[name] == caches[name][url := resp]
    ensures forall k :: k in caches && k != name ==> r[k] == caches[k]
  {
    caches[name := caches[name][url := resp]]
  }

  /** Every shell asset comes back with an ok (2xx) status. */
  predicate AllAssetsOk(network: string -> Option<Response>) {
    forall a :: a in PrecacheAssets ==> network(a).Some? && 200 <= network(a).value.status < 300
  }

  /** `cache.addAll(PRECACHE_ASSETS)`: every asset must come back with an ok
      status, or nothing is stored. */
  function Installed(caches: Caches, network: string -> Option<Response>): (r: Caches)
    ensures CacheName in r
    ensures AllAssetsOk(network) ==>
              r[CacheName].Keys == Opened(caches, CacheName)[CacheName].Keys + {"/", "/index.html", "/manifest.json"}
              && forall a :: a in PrecacheAssets ==> r[CacheName][a] == network(a).value
    ensures !AllAssetsOk(network) ==>
              r == Opened(caches, CacheName)
  {
    var store := Opened(caches, CacheName);
    if AllAssetsOk(network) then
      var c := store[CacheName];
      store[CacheName := c["/" := network("/").value]["/index.html" := network("/index.html").value]
                           ["/manifest.json" := network("/manifest.json").value]]
    else store
  }

  /** A first install stores exactly the three shell assets. */
  lemma FirstInstallPrecachesShell(network: string -> Option<Response>)
    requires forall a :: a in PrecacheAssets ==> network(a).Some? && network(a).value.status == 200
    ensures Installed(map[], network)[CacheName].Keys == {"/", "/index.html", "/manifest.json"}
  {
  }

  /** The activate cleanup: keep the core and CDN caches, delete the rest. */
  function Activated(caches: Caches): (r: Caches)
    ensures forall k :: k in r <==> k in caches && (k == CacheName || k == CdnCacheName)
    ensures forall k :: k in r ==> r[k] == caches[k]
  {
    map k | k in caches && (k == CacheName || k == CdnCacheName) :: caches[k]
  }

  /** Activating twice is activating once, and an old core version is gone. */
  lemma ActivateIdempotent(caches: Caches)
    ensures Activated(Activated(caches)) == Activated(caches)
    ensures "thay-ai-core-v2" !in Activated(caches)
  {
  }

  // ---------------------------------------------------------------------
  // Fetch strategies

  /** Cache first for CDN requests: a hit is answered from the cache with no
      fetch; a miss is fetched and stored if the status is 200; a failed fetch
      is answered with 408. */
  function CdnFetched(caches: Caches, url: string, network: Option<Response>): (r: (Caches, Response))
    ensures CdnCacheName in r.0
    ensures url in Opened(caches, CdnCacheName)[CdnCacheName] ==>
              r == (Opened(caches, CdnCacheName), Opened(caches, CdnCacheName)[CdnCacheName][url])
    ensures url !in Opened(caches, CdnCacheName)[CdnCacheName] && network.None? ==>
              r == (Opened(caches, CdnCacheName), TimeoutResponse)
    ensures url !in Opened(caches, CdnCacheName)[CdnCacheName] && network.Some? ==>
              r.1 == network.value
              && r.0 == if network.value.status == 200
                        then Put(Opened(caches, CdnCacheName), CdnCacheName, url, network.value)
                        else Opened(caches, CdnCacheName)
  {
    var store := Opened(caches, CdnCacheName);
    if url in store[CdnCacheName] then (store, store[CdnCacheName][url])
    else match network
      case None => (store, TimeoutResponse)
      case Some(resp) =>
        if resp.status == 200 then (Put(store, CdnCacheName, url, resp), resp)
        else (store, resp)
  }

  /** A cached CDN response is served whatever the network would do. */
  lemma CdnHitIgnoresNetwork(caches: Caches, url: string, n1: Option<Response>, n2: Option<Response>)
    requires CdnCacheName in caches && url in caches[CdnCacheName]
    ensures CdnFetched(caches, url, n1) == CdnFetched(caches, url, n2) == (caches, caches[CdnCacheName][url])
  {
  }

  /** After a successful CDN fetch the next request for it is a hit. */
  lemma CdnSecondFetchHits(caches: Caches, url: string, resp: Response, later: Option<Response>)
    requires resp.status == 200
    ensures var c1 := CdnFetched(caches, url, Some(resp)).0;
            CdnFetched(c1, url, later) == (c1, CdnFetched(caches, url, Some(resp)).1)
  {
  }

  /** Stale-while-revalidate for everything else: answer with the cached
      response if there is one, else with the network's (nothing when the
      fetch fails); a 200 from the network always refreshes the cache. */
  function ShellFetched(caches: Caches, url: string, network: Option<Response>): (r: (Caches, Option<Response>))
    ensures CacheName in r.0
    ensures url in Opened(caches, CacheName)[CacheName] ==> r.1 == Some(Opened(caches, CacheName)[CacheName][url])
    ensures url !in Opened(caches, CacheName)[CacheName] ==> r.1 == network
    ensures network.Some? && network.value.status == 200 ==>
              r.0 == Put(Opened(caches, CacheName), CacheName, url, network.value)
    ensures !(network.Some? && network.value.status == 200) ==> r.0 == Opened(caches, CacheName)
  {
    var store := Opened(caches, CacheName);
    var cached := if url in store[CacheName] then Some(store[CacheName][url]) else None;
    var updated := if network.Some? && network.value.status == 200
                   then Put(store, CacheName, url, network.value) else store;
    (updated, if cached.Some? then cached else network)
  }

  /** A shell request serves the old copy but leaves the new one for next
      time. */
  lemma ShellServesStaleThenFresh(caches: Caches, url: string, update: Response, later: Option<Response>)
    requires CacheName in caches && url in caches[CacheName] && update.status == 200
    ensures ShellFetched(caches, url, Some(update)).1 == Some(caches[CacheName][url])
    ensures ShellFetched(ShellFetched(caches, url, Some(update)).0, url, later).1 == Some(update)
  {
  }

  /** What the fetch listener does with a request. */
  datatype Outcome = NotIntercepted | Answered(response: Option<Response>)

  /** The fetch listener on the pure state. */
  function Fetched(caches: Caches, req: Request, network: Option<Response>): (r: (Caches, Outcome))
    ensures req.verb != "GET" ==> r == (caches, NotIntercepted)
    ensures req.verb == "GET" ==> r.1.Answered?
  {
    match RouteOf(req)
    case PassThrough => (caches, NotIntercepted)
    case CdnCacheFirst =>
      var (c, resp) := CdnFetched(caches, req.url, network);
      (c, Answered(Some(resp)))
    case AppShell =>
      var (c, resp) := ShellFetched(caches, req.url, network);
      (c, Answered(resp))
  }

  /** Fetches never delete a cache and never touch a cache other than the
      one their strategy uses. */
  lemma FetchOnlyTouchesItsCache(caches: Caches, req: Request, network: Option<Response>)
    ensures caches.Keys <= Fetched(caches, req, network).0.Keys
    ensures forall k :: k in caches && k != CacheName && k != CdnCacheName ==>
              Fetched(caches, req, network).0[k] == caches[k]
  {
  }

  // ---------------------------------------------------------------------

  /** The worker's view of Cache Storage. */
  class Worker {
    var caches: Caches

    constructor(initial: Caches)
      ensures caches == initial
    {
      caches := initial;
    }

    /** The install listener. */
    method Install(network: string -> Option<Response>)
      modifies this
      ensures caches == Installed(old(caches), network)
    {
      caches := Opened(caches, CacheName);
      var ok := true;
      var i := 0;
      while i < |PrecacheAssets|
        invariant 0 <= i <= |PrecacheAssets|
        invariant ok <==> forall j :: 0 <= j < i ==>
                    network(PrecacheAssets[j]).Some? && 200 <= network(PrecacheAssets[j]).value.status < 300
      {
        var resp := network(PrecacheAssets[i]);
        if resp.None? || !(200 <= resp.value.status < 300) {
          ok := false;
        }
        i := i + 1;
      }
      assert PrecacheAssets[0] == "/" && PrecacheAssets[1] == "/index.html" && PrecacheAssets[2] == "/manifest.json";
      if ok {
        var c := caches[CacheName];
        caches := caches[CacheName := c["/" := network("/").value]["/index.html" := network("/index.html").value]
                                       ["/manifest.json" := network("/manifest.json").value]];
      }
    }

    /** The activate listener: delete each cache that is neither current
        cache. */
    method Activate()
      modifies this
      ensures caches == Activated(old(caches))
    {
      var names := caches.Keys;
      while names != {}
        invariant names <= caches.Keys
        invariant forall k :: k in caches <==> k in old(caches) && (k in names || k == CacheName || k == CdnCacheName)
        invariant forall k :: k in caches ==> caches[k] == old(caches)[k]
        decreases names
      {
        var name :| name in names;
        if name != CacheName && name != CdnCacheName {
          caches := caches - {name};
        }
        names := names - {name};
      }
    }

    /** The fetch listener. */
    method Fetch(req: Request, network: Option<Response>) returns (outcome: Outcome)
      modifies this
      ensures (caches, outcome) == Fetched(old(caches), req, network)
    {
      if req.verb != "GET" {
        return NotIntercepted;
      }
      if IsCdnHost(req.hostname) {
        caches := Opened(caches, CdnCacheName);
        if req.url in caches[CdnCacheName] {
          return Answered(Some(caches[CdnCacheName][req.url]));
        }
        match network {
          case None =>
            return Answered(Some(TimeoutResponse));
          case Some(resp) =>
            if resp.status == 200 {
              caches := Put(caches, CdnCacheName, req.url, resp);
            }
            return Answered(Some(resp));
        }
      }
      caches := Opened(caches, CacheName);
      var cached := if req.url in caches[CacheName] then Some(caches[CacheName][req.url]) else None;
      if network.Some? && network.value.status == 200 {
        caches := Put(caches, CacheName, req.url, network.value);
      }
      return Answered(if cached.Some? then cached else network);
    }
  }
}
