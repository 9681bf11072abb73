/** The service worker's request routing and caching decisions. Cache Storage
    is an object holding the named caches in creation order; the network is
    a given outcome per request. */
module ServiceWorker {
  import opened Common

  const CacheName: string := "foxai-v1.0.0"
  const StaticCache: string := "foxai-static-v1.0.0"
  const DynamicCache: string := "foxai-dynamic-v1.0.0"

  const StaticAssets: seq<string> := [
    "/static/",
    "/static/index.html",
    "/static/css/style.css",
    "/static/js/main.js",
    "/static/manifest.json",
    "/static/icons/icon-192x192.png",
    "/static/icons/icon-512x512.png"
  ]

  const NetworkFirstPatterns: seq<string> := ["/static/js/", "/api/", "http://10.20200108.xyz"]

  const StaticExtensions: seq<string> := [".css", ".js", ".png", ".jpg", ".svg"]

  const PartialContent: int := 206
  const OfflinePage: string := "/static/index.html"
  const CacheFirstOfflineBody: string := "离线状态，资源不可用"
  const NetworkFirstOfflineBody: string := "网络错误，资源不可用"

  /** `isNetworkFirst`: some network-first pattern occurs in the URL. */
  predicate IsNetworkFirst(url: string)
    ensures Contains(url, "/api/") ==> IsNetworkFirst(url)
  {
    assert NetworkFirstPatterns[1] == "/api/";
    exists k :: 0 <= k < |NetworkFirstPatterns| && Contains(url, NetworkFirstPatterns[k])
  }

  /** `isStaticAsset`: some static asset path or one of five extensions
      occurs anywhere in the URL. */
  predicate IsStaticAsset(url: string)
    ensures Contains(url, ".js") || Contains(url, ".css") ==> IsStaticAsset(url)
  {
    assert StaticExtensions[0] == ".css" && StaticExtensions[1] == ".js";
    || (exists k :: 0 <= k < |StaticAssets| && Contains(url, StaticAssets[k]))
    || (exists k :: 0 <= k < |StaticExtensions| && Contains(url, StaticExtensions[k]))
  }

  datatype Strategy = NotIntercepted | NetworkFirst | CacheFirst

  /** The decision of the `fetch` handler. */
  function Route(url: string): (r: Strategy)
    ensures r == CacheFirst ==> IsStaticAsset(url)
    ensures StartsWith(url, "http") && IsNetworkFirst(url) ==> r == NetworkFirst
  {
    if !StartsWith(url, "http") then NotIntercepted
    else if IsNetworkFirst(url) then NetworkFirst
    else if IsStaticAsset(url) then CacheFirst
    else NetworkFirst
  }

  /** Only `http` and `https` requests are intercepted; network-first takes
      precedence over static, and everything that is neither goes
      network-first too: cache-first is used exactly for the static URLs
      that match no network-first pattern. */
  lemma RoutePartition(url: string)
    ensures Route(url) == NotIntercepted <==> !StartsWith(url, "http")
    ensures Route(url) == CacheFirst <==>
      StartsWith(url, "http") && !IsNetworkFirst(url) && IsStaticAsset(url)
    ensures Route(url) == NetworkFirst <==>
      StartsWith(url, "http") && (IsNetworkFirst(url) || !IsStaticAsset(url))
  {
  }

  /** The application's own script is a static asset, yet it is served
      network-first, because `/static/js/` is a network-first pattern. */
  lemma MainScriptIsNetworkFirst(origin: string)
    requires StartsWith(origin, "http")
    ensures IsStaticAsset(origin + "/static/js/main.js")
    ensures Route(origin + "/static/js/main.js") == NetworkFirst
  {
    var url := origin + "/static/js/main.js";
    assert url[..4] == origin[..4];
    assert url[|origin|..|origin| + |"/static/js/main.js"|] == "/static/js/main.js";
    assert OccursAt(url, StaticAssets[3], |origin|);
    assert url[|origin|..|origin| + |"/static/js/"|] == "/static/js/";
    assert OccursAt(url, NetworkFirstPatterns[0], |origin|);
  }

  /** A request: its URL, its HTTP method (`verb`) and its destination (`"document"`
      for a page navigation). */
  datatype Request = Request(url: string, verb: string, destination: string)

  /** A response; `ok` is a status in 200..299. */
  datatype Response = Response(status: int, body: string) {
    predicate Ok() { 200 <= status <= 299 }
  }

  /** What `fetch` does for one request: resolve with a response (of any
      status) or reject. */
  datatype NetworkOutcome = Fetched(response: Response) | NetworkFailure

  datatype NamedCache = NamedCache(name: string, entries: map<string, Response>)

  /** The cache names, in creation order. */
  function NamesOf(cs: seq<NamedCache>): (r: seq<string>)
    ensures |r| == |cs| && forall k :: 0 <= k < |cs| ==> r[k] == cs[k].name
  {
    if cs == [] then [] else [cs[0].name] + NamesOf(cs[1..])
  }

  /** `caches.match(url)`: the entry of the first cache, in creation order,
      that holds the URL. */
  function MatchIn(cs: seq<NamedCache>, url: string): (r: Option<Response>)
    ensures r.Some? <==> exists k :: 0 <= k < |cs| && url in cs[k].entries
    ensures r.Some? ==>
      exists k :: 0 <= k < |cs| && url in cs[k].entries && cs[k].entries[url] == r.value
                  && forall j :: 0 <= j < k ==> url !in cs[j].entries
  {
    if cs == [] then None
    else if url in cs[0].entries then Some(cs[0].entries[url])
    else MatchIn(cs[1..], url)
  }

  /** `caches.match(request)`: the match of the request's URL, except that a
      request whose method is not GET matches nothing. */
  function Cached(cs: seq<NamedCache>, req: Request): (r: Option<Response>)
    ensures r.Some? ==> req.verb == "GET"
    ensures req.verb == "GET" ==> r == MatchIn(cs, req.url)
  {
    if req.verb == "GET" then MatchIn(cs, req.url) else None
  }

  /** `caches.open(name)` followed by `cache.put(url, response)`: the cache is
      created at the end when it does not exist yet. */
  function PutIn(cs: seq<NamedCache>, name: string, url: string, resp: Response): (r: seq<NamedCache>)
    ensures NamesOf(r) == if name in NamesOf(cs) then NamesOf(cs) else NamesOf(cs) + [name]
  {
    if cs == [] then [NamedCache(name, map[url := resp])]
    else if cs[0].name == name then [NamedCache(name, cs[0].entries[url := resp])] + cs[1..]
    else [cs[0]] + PutIn(cs[1..], name, url, resp)
  }

  /** After a miss, storing a response makes the next match find exactly it. */
  lemma {:induction false} MatchAfterPut(cs: seq<NamedCache>, name: string, url: string, resp: Response)
    requires MatchIn(cs, url) == None
    ensures MatchIn(PutIn(cs, name, url, resp), url) == Some(resp)
  {
    if cs != [] && cs[0].name != name {
      MatchAfterPut(cs[1..], name, url, resp);
    }
  }

  /** Storing under one URL leaves the match of every other URL alone. */
  lemma {:induction false} MatchOtherAfterPut(cs: seq<NamedCache>, name: string, url: string, resp: Response, other: string)
    requires other != url
    ensures MatchIn(PutIn(cs, name, url, resp), other) == MatchIn(cs, other)
  {
    if cs != [] && cs[0].name != name {
      MatchOtherAfterPut(cs[1..], name, url, resp, other);
    }
  }

  /** `caches.open(name)` alone: the cache is created empty, at the end,
      when it does not exist yet. */
  function OpenIn(cs: seq<NamedCache>, name: string): (r: seq<NamedCache>)
    ensures NamesOf(r) == if name in NamesOf(cs) then NamesOf(cs) else NamesOf(cs) + [name]
  {
    if cs == [] then [NamedCache(name, map[])]
    else if cs[0].name == name then cs
    else [cs[0]] + OpenIn(cs[1..], name)
  }

  /** Opening a cache changes what no URL matches. */
  lemma {:induction false} MatchAfterOpen(cs: seq<NamedCache>, name: string, url: string)
    ensures MatchIn(OpenIn(cs, name), url) == MatchIn(cs, url)
  {
    if cs != [] && cs[0].name != name {
      MatchAfterOpen(cs[1..], name, url);
    }
  }

  /** `cache.put` accepts the response: a GET answered with an ok status
      other than 206 Partial Content. */
  predicate Storable(req: Request, r: Response) {
    req.verb == "GET" && r.Ok() && r.status != PartialContent
  }

  /** What an ok network answer leaves: the cache is opened (and so
      created when missing) and the response stored only when `cache.put`
      accepts it; a rejected put is not awaited and changes nothing. */
  function OpenAndPut(cs: seq<NamedCache>, name: string, req: Request, r: Response): (after: seq<NamedCache>)
    ensures name in NamesOf(after)
  {
    var ready := OpenIn(cs, name);
    if Storable(req, r) then PutIn(ready, name, req.url, r) else ready
  }

  /** `caches.delete(name)`. */
  function Without(cs: seq<NamedCache>, name: string): (r: seq<NamedCache>)
    ensures forall c :: c in r <==> c in cs && c.name != name
  {
    if cs == [] then []
    else if cs[0].name == name then Without(cs[1..], name)
    else [cs[0]] + Without(cs[1..], name)
  }

  /** The activate handler's filter: a cache survives when it is the static
      or the dynamic cache of this version. */
  predicate Kept(name: string)
    ensures Kept(name) ==> name != CacheName
  {
    name == StaticCache || name == DynamicCache
  }

  /** The names the activate handler deletes, in order. */
  function ToDelete(names: seq<string>): (r: seq<string>)
    ensures forall n :: n in r <==> n in names && !Kept(n)
  {
    if names == [] then []
    else if Kept(names[0]) then ToDelete(names[1..])
    else [names[0]] + ToDelete(names[1..])
  }

  /** The unused `CACHE_NAME` is neither kept cache, so it is deleted on
      activation whenever it exists. */
  lemma LegacyCacheDeleted(names: seq<string>)
    requires CacheName in names
    ensures CacheName in ToDelete(names)
  {
  }

  class CacheStorage {
    var caches: seq<NamedCache>

    constructor (initial: seq<NamedCache>)
      ensures caches == initial
    {
      caches := initial;
    }

    function Match(url: string): Option<Response>
      reads this
    {
      MatchIn(caches, url)
    }

    function MatchRequest(req: Request): Option<Response>
      reads this
    {
      Cached(caches, req)
    }

    method Put(name: string, url: string, resp: Response)
      modifies this
      ensures caches == PutIn(old(caches), name, url, resp)
    {
      caches := PutIn(caches, name, url, resp);
    }

    method Open(name: string)
      modifies this
      ensures caches == OpenIn(old(caches), name)
    {
      caches := OpenIn(caches, name);
    }

    method Delete(name: string)
      modifies this
      ensures caches == Without(old(caches), name)
    {
      caches := Without(caches, name);
    }
  }

  /** What `cacheFirst` answers and leaves in the caches: a hit is answered
      from the cache and the network is not consulted; on a miss the network
      response is returned; when it is ok the static cache is opened and
      the response stored in it when `cache.put` accepts it; a network
      failure gives 503. */
  predicate CacheFirstEffect(before: seq<NamedCache>, req: Request, net: NetworkOutcome,
                             resp: Response, after: seq<NamedCache>)
  {
    match Cached(before, req)
    case Some(hit) => resp == hit && after == before
    case None =>
      match net
      case Fetched(r) =>
        resp == r
        && after == (if r.Ok() then OpenAndPut(before, StaticCache, req, r) else before)
      case NetworkFailure =>
        resp == Response(503, CacheFirstOfflineBody) && after == before
  }

  /** What `networkFirst` answers and leaves in the caches: the network
      answer is returned; when it is ok the dynamic cache is opened and the
      answer stored in it when `cache.put` accepts it; when the network fails the cached entry is returned, else the
      offline page for a document request (which may itself be missing: no
      response), else 503. */
  predicate NetworkFirstEffect(before: seq<NamedCache>, req: Request, net: NetworkOutcome, origin: string,
                               resp: Option<Response>, after: seq<NamedCache>)
  {
    match net
    case Fetched(r) =>
      resp == Some(r)
      && after == (if r.Ok() then OpenAndPut(before, DynamicCache, req, r) else before)
    case NetworkFailure =>
      after == before
      && resp == (if Cached(before, req).Some? then Cached(before, req)
                  else if req.destination == "document" then MatchIn(before, origin + OfflinePage)
                  else Some(Response(503, NetworkFirstOfflineBody)))
  }

  /** Both strategies change the caches only for an ok network answer,
      each in its own cache; and what any URL matches changes only for an
      answer `cache.put` accepts, and then only for the request's URL. */
  lemma OnlyOkGetStored(before: seq<NamedCache>, req: Request, net: NetworkOutcome, origin: string,
                        resp: Response, resp2: Option<Response>, after: seq<NamedCache>)
    requires CacheFirstEffect(before, req, net, resp, after) || NetworkFirstEffect(before, req, net, origin, resp2, after)
    ensures after == before
         || (net.Fetched? && net.response.Ok()
             && (after == OpenAndPut(before, StaticCache, req, net.response)
                 || after == OpenAndPut(before, DynamicCache, req, net.response)))
    ensures forall url :: MatchIn(after, url) != MatchIn(before, url) ==>
      net.Fetched? && Storable(req, net.response) && url == req.url
  {
    forall url | MatchIn(after, url) != MatchIn(before, url)
      ensures net.Fetched? && Storable(req, net.response) && url == req.url
    {
      if after != before {
        var name := if after == OpenAndPut(before, StaticCache, req, net.response) then StaticCache else DynamicCache;
        MatchAfterOpen(before, name, url);
        if Storable(req, net.response) && url != req.url {
          MatchOtherAfterPut(OpenIn(before, name), name, req.url, net.response, url);
        }
      }
    }
  }

  /** A request that is not a GET, such as the POST of a chat message to the
      API pool, is never answered from the cache: when the network fails,
      the answer is the 503 (or the offline page for a document). */
  lemma NonGetNeverFromCache(before: seq<NamedCache>, req: Request, origin: string,
                             resp: Option<Response>, after: seq<NamedCache>)
    requires req.verb != "GET" && req.destination != "document"
    requires NetworkFirstEffect(before, req, NetworkFailure, origin, resp, after)
    ensures resp == Some(Response(503, NetworkFirstOfflineBody)) && after == before
  {
  }

  /** Network-first keeps the last good answer: after a response that
      `cache.put` accepts, for a URL no cache held, a later network failure for the same request is
      answered with that response, and the caches stay as they are. */
  lemma {:induction false} NetworkFirstFallsBack(c0: seq<NamedCache>, req: Request, r: Response, origin: string,
                                                 c1: seq<NamedCache>, resp: Option<Response>, c2: seq<NamedCache>)
    requires Storable(req, r) && MatchIn(c0, req.url).None?
    requires NetworkFirstEffect(c0, req, Fetched(r), origin, Some(r), c1)
    requires NetworkFirstEffect(c1, req, NetworkFailure, origin, resp, c2)
    ensures resp == Some(r) && c2 == c1
  {
    MatchAfterOpen(c0, DynamicCache, req.url);
    MatchAfterPut(OpenIn(c0, DynamicCache), DynamicCache, req.url, r);
  }

  /** A 206 Partial Content answer is never stored: after it, a network
      failure for the same request gets what the caches held before. */
  lemma PartialNeverStored(c0: seq<NamedCache>, req: Request, r: Response, origin: string,
                           c1: seq<NamedCache>, resp: Option<Response>, c2: seq<NamedCache>)
    requires r.status == PartialContent
    requires NetworkFirstEffect(c0, req, Fetched(r), origin, Some(r), c1)
    requires NetworkFirstEffect(c1, req, NetworkFailure, origin, resp, c2)
    requires MatchIn(c0, req.url).None? && req.destination != "document"
    ensures resp == Some(Response(503, NetworkFirstOfflineBody))
  {
    MatchAfterOpen(c0, DynamicCache, req.url);
  }

  /** `cacheFirst`, on the storage object. */
  method CacheFirstStrategy(storage: CacheStorage, req: Request, net: NetworkOutcome) returns (resp: Response)
    modifies storage
    ensures CacheFirstEffect(old(storage.caches), req, net, resp, storage.caches)
  {
    var cached := storage.MatchRequest(req);
    if cached.Some? {
      return cached.value;
    }
    match net {
      case Fetched(r) =>
        if r.Ok() {
          storage.Open(StaticCache);
          if Storable(req, r) {
            storage.Put(StaticCache, req.url, r);
          }
        }
        resp := r;
      case NetworkFailure =>
        resp := Response(503, CacheFirstOfflineBody);
    }
  }

  /** `networkFirst`, on the storage object. The offline page is looked up
      by its URL string, which is a GET. */
  method NetworkFirstStrategy(storage: CacheStorage, req: Request, net: NetworkOutcome, origin: string)
    returns (resp: Option<Response>)
    modifies storage
    ensures NetworkFirstEffect(old(storage.caches), req, net, origin, resp, storage.caches)
  {
    match net {
      case Fetched(r) =>
        if r.Ok() {
          storage.Open(DynamicCache);
          if Storable(req, r) {
            storage.Put(DynamicCache, req.url, r);
          }
        }
        resp := Some(r);
      case NetworkFailure =>
        var cached := storage.MatchRequest(req);
        if cached.Some? {
          resp := cached;
        } else if req.destination == "document" {
          resp := storage.Match(origin + OfflinePage);
        } else {
          resp := Some(Response(503, NetworkFirstOfflineBody));
        }
    }
  }

  datatype FetchHandling = PassThrough | Responded(response: Option<Response>)

  /** The `fetch` event handler: route, then apply the chosen strategy. */
  method HandleFetch(storage: CacheStorage, req: Request, net: NetworkOutcome, origin: string)
    returns (h: FetchHandling)
    modifies storage
    ensures h.PassThrough? <==> !StartsWith(req.url, "http")
    ensures h.PassThrough? ==> storage.caches == old(storage.caches)
    ensures Route(req.url) == CacheFirst ==>
      h.Responded? && h.response.Some?
      && CacheFirstEffect(old(storage.caches), req, net, h.response.value, storage.caches)
    ensures Route(req.url) == NetworkFirst ==>
      h.Responded? && NetworkFirstEffect(old(storage.caches), req, net, origin, h.response, storage.caches)
  {
    match Route(req.url) {
      case NotIntercepted =>
        h := PassThrough;
      case NetworkFirst =>
        var r := NetworkFirstStrategy(storage, req, net, origin);
        h := Responded(r);
      case CacheFirst =>
        var r := CacheFirstStrategy(storage, req, net);
        h := Responded(Some(r));
    }
  }

  /** The `activate` handler: delete every cache whose name is neither the
      static nor the dynamic cache. */
  method Activate(storage: CacheStorage)
    modifies storage
    ensures forall c :: c in storage.caches <==> c in old(storage.caches) && c.name !in ToDelete(NamesOf(old(storage.caches)))
  {
    var names := NamesOf(storage.caches);
    var i := 0;
    while i < |names|
      invariant 0 <= i <= |names|
      invariant forall c :: c in storage.caches <==>
        c in old(storage.caches) && !(c.name in names[..i] && !Kept(c.name))
    {
      if !Kept(names[i]) {
        storage.Delete(names[i]);
      }
      assert names[..i + 1] == names[..i] + [names[i]];
      i := i + 1;
    }
    forall c | c in old(storage.caches) ensures c.name in names {
      var k :| 0 <= k < |old(storage.caches)| && old(storage.caches)[k] == c;
      assert names[k] == c.name;
    }
    assert names[..i] == names;
  }
}
