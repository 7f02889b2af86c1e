/** The request handling of the service worker in public/sw.js: which handler serves a
    request, the cache-first handlers for map tiles and static assets, the network-first
    handlers for the API and for navigation, the clean-up of old caches at activation,
    and the pre-caching of the reserve's map tiles. The browser's cache storage is a
    field of named caches, each a map from request URL to response; what the network
    answers is an input. */
module ServiceWorker {
  import opened Common
  import opened TilePlan

  /** The cache of the application shell, static assets and API fallbacks. */
  const CacheName: string := "dalmore-reserve-v1"

  /** The cache of map tiles. */
  const MapTileCache: string := "dalmore-map-tiles-v1"

  /** The parts of a request the worker looks at. */
  datatype Request = Request(href: string, hostname: string, pathname: string,
                             destination: string, httpMethod: string)

  datatype Response = Response(status: int, body: string)

  /** `response.ok`. */
  predicate Ok(r: Response)
  {
    200 <= r.status <= 299
  }

  type Cache = map<string, Response>

  // ---------------------------------------------------------------------------
  // Routing
  // ---------------------------------------------------------------------------

  predicate IsMapTileRequest(req: Request)
  {
    Contains(req.hostname, "tile.openstreetmap.org") || Contains(req.hostname, "tiles") ||
    Contains(req.pathname, "/tile/")
  }

  predicate IsApiRequest(req: Request)
  {
    Contains(req.hostname, "supabase") || Contains(req.hostname, "cloudinary") ||
    Contains(req.pathname, "/api/")
  }

  predicate IsStaticAssetRequest(req: Request)
  {
    req.destination == "script" || req.destination == "style" ||
    req.destination == "image" || req.destination == "font"
  }

  datatype Handler = MapTile | Api | StaticAsset | Navigation

  /** The fetch listener tries the tests in order: tile, API, static asset, and
      hands everything else to the navigation handler. */
  function Route(req: Request): (h: Handler)
    ensures h == MapTile <==> IsMapTileRequest(req)
    ensures h == Api <==> !IsMapTileRequest(req) && IsApiRequest(req)
    ensures h == StaticAsset <==> !IsMapTileRequest(req) && !IsApiRequest(req) && IsStaticAssetRequest(req)
    ensures h == Navigation <==> !IsMapTileRequest(req) && !IsApiRequest(req) && !IsStaticAssetRequest(req)
  {
    if IsMapTileRequest(req) then MapTile
    else if IsApiRequest(req) then Api
    else if IsStaticAssetRequest(req) then StaticAsset
    else Navigation
  }

  lemma ContainsItself(s: string)
    ensures Contains(s, s)
  {
    assert OccursAt(s, s, 0);
  }

  /** The tiles pre-cached at install are served by the handler that reads the tile
      cache, whatever their destination. */
  lemma PrecachedTilesUseTileHandler(req: Request)
    requires req.hostname == "tile.openstreetmap.org"
    ensures Route(req) == MapTile
  {
    ContainsItself(req.hostname);
  }

  // ---------------------------------------------------------------------------
  // Caches
  // ---------------------------------------------------------------------------

  /** `cache.match(request)`: only GET requests are looked up. */
  function Match(cache: Cache, req: Request): (r: Option<Response>)
    ensures r.Some? <==> req.httpMethod == "GET" && req.href in cache
  {
    if req.httpMethod == "GET" && req.href in cache then Some(cache[req.href]) else None
  }

  /** `cache.put(request, response)`: a request other than GET is refused and
      nothing is stored. */
  function Put(cache: Cache, req: Request, resp: Response): Cache
  {
    if req.httpMethod == "GET" then cache[req.href := resp] else cache
  }

  /** What a put stores is what the next match of the same request finds, and no
      other URL's entry changes. */
  lemma MatchAfterPut(cache: Cache, req: Request, resp: Response, other: Request)
    ensures Match(Put(cache, req, resp), req) == if req.httpMethod == "GET" then Some(resp) else None
    ensures other.href != req.href ==> Match(Put(cache, req, resp), other) == Match(cache, other)
  {
  }

  /** The named cache, as `caches.open` gives it: empty when it did not exist. */
  function CacheOf(caches: map<string, Cache>, name: string): (c: Cache)
    ensures name !in caches ==> c == map[]
    ensures name in caches ==> c == caches[name]
  {
    if name in caches then caches[name] else map[]
  }

  /** The caches left by activation: those two of this version, unchanged. */
  function CleanedUp(caches: map<string, Cache>): (r: map<string, Cache>)
    ensures forall name :: name in r <==> name in caches && (name == CacheName || name == MapTileCache)
    ensures forall name :: name in r ==> r[name] == caches[name]
  {
    map name | name in caches && (name == CacheName || name == MapTileCache) :: caches[name]
  }

  /** A second activation deletes nothing more. */
  lemma CleanUpIdempotent(caches: map<string, Cache>)
    ensures CleanedUp(CleanedUp(caches)) == CleanedUp(caches)
  {
  }

  /** The JSON body of the API handler's offline answer. */
  function OfflineBody(timestamp: string): string
  {
    "{\"error\":\"Network unavailable\",\"offline\":true,\"timestamp\":\"" + timestamp + "\"}"
  }

  /** The answer a fetch handler gives the page. */
  datatype Outcome = Served(response: Response) | NetworkError

  /** The answer for `url` stored by the tile pre-cache: an ok response, if any. */
  function OkAnswer(network: string -> Option<Response>, url: string): Option<Response>
  {
    if network(url).Some? && Ok(network(url).value) then network(url) else None
  }

  /** The tile cache after fetching `urls`: each URL answered ok is stored. */
  function StoreOk(cache: Cache, urls: seq<string>, network: string -> Option<Response>): Cache
  {
    if urls == [] then cache
    else
      var c := StoreOk(cache, urls[..|urls| - 1], network);
      var u := urls[|urls| - 1];
      if OkAnswer(network, u).Some? then c[u := OkAnswer(network, u).value] else c
  }

  /** Storing two runs of URLs one after the other is storing their concatenation. */
  lemma {:induction false} StoreOkAppend(cache: Cache, a: seq<string>, b: seq<string>,
                                         network: string -> Option<Response>)
    ensures StoreOk(StoreOk(cache, a, network), b, network) == StoreOk(cache, a + b, network)
    decreases |b|
  {
    if b != [] {
      StoreOkAppend(cache, a, b[..|b| - 1], network);
      assert (a + b)[..|a + b| - 1] == a + b[..|b| - 1];
      assert (a + b)[|a + b| - 1] == b[|b| - 1];
    } else {
      assert a + b == a;
    }
  }

  /** After the pre-cache, a URL answered ok holds its answer; every other entry is
      as it was. */
  lemma {:induction false} StoreOkSpec(cache: Cache, urls: seq<string>, network: string -> Option<Response>)
    ensures forall u :: u in urls && OkAnswer(network, u).Some? ==>
              u in StoreOk(cache, urls, network) && StoreOk(cache, urls, network)[u] == OkAnswer(network, u).value
    ensures forall u :: u !in urls || OkAnswer(network, u).None? ==>
              (u in StoreOk(cache, urls, network) <==> u in cache) &&
              (u in cache ==> StoreOk(cache, urls, network)[u] == cache[u])
  {
    if urls != [] {
      StoreOkSpec(cache, urls[..|urls| - 1], network);
      assert urls == urls[..|urls| - 1] + [urls[|urls| - 1]];
    }
  }

  class CacheStorage {
    var caches: map<string, Cache>

    constructor (initial: map<string, Cache>)
      ensures caches == initial
    {
      caches := initial;
    }

    /** `caches.open(name)`: creates the cache when it does not exist. */
    method Open(name: string) returns (cache: Cache)
      modifies this
      ensures cache == CacheOf(old(caches), name)
      ensures caches == old(caches)[name := cache]
    {
      cache := CacheOf(caches, name);
      caches := caches[name := cache];
    }

    /** handleMapTileRequest: a cached tile is answered without fetching; otherwise
        the network's answer is returned and stored when ok, and a failed fetch is
        answered with an empty 204. */
    method HandleMapTileRequest(req: Request, network: Option<Response>) returns (out: Outcome, fetched: bool)
      modifies this
      ensures var cache := CacheOf(old(caches), MapTileCache);
              match Match(cache, req)
              case Some(hit) => out == Served(hit) && !fetched && caches == old(caches)[MapTileCache := cache]
              case None =>
                fetched &&
                match network
                case None => out == Served(Response(204, "")) && caches == old(caches)[MapTileCache := cache]
                case Some(resp) =>
                  out == Served(resp) &&
                  caches == old(caches)[MapTileCache := if Ok(resp) then Put(cache, req, resp) else cache]
    {
      var cache := Open(MapTileCache);
      var cached := Match(cache, req);
      if cached.Some? {
        return Served(cached.value), false;
      }
      fetched := true;
      if network.None? {
        return Served(Response(204, "")), fetched;
      }
      var resp := network.value;
      if Ok(resp) {
        caches := caches[MapTileCache := Put(cache, req, resp)];
      }
      out := Served(resp);
    }

    /** handleApiRequest: the network first, whatever its status; when the fetch
        fails, a GET is answered from the cache if it can be, and otherwise (and for
        every other HTTP method) with a 503 whose body says the app is offline. */
    method HandleApiRequest(req: Request, network: Option<Response>, timestamp: string) returns (out: Outcome)
      modifies this
      ensures network.Some? ==> out == Served(network.value) && caches == old(caches)
      ensures network.None? && req.httpMethod == "GET" ==>
                var cache := CacheOf(old(caches), CacheName);
                caches == old(caches)[CacheName := cache] &&
                out == Served(match Match(cache, req)
                              case Some(hit) => hit
                              case None => Response(503, OfflineBody(timestamp)))
      ensures network.None? && req.httpMethod != "GET" ==>
                out == Served(Response(503, OfflineBody(timestamp))) && caches == old(caches)
    {
      if network.Some? {
        return Served(network.value);
      }
      if req.httpMethod == "GET" {
        var cache := Open(CacheName);
        var cached := Match(cache, req);
        if cached.Some? {
          return Served(cached.value);
        }
      }
      out := Served(Response(503, OfflineBody(timestamp)));
    }

    /** handleStaticAssetRequest: cache first; the network's answer is stored when
        ok, and a failed fetch fails the request. */
    method HandleStaticAssetRequest(req: Request, network: Option<Response>) returns (out: Outcome, fetched: bool)
      modifies this
      ensures var cache := CacheOf(old(caches), CacheName);
              match Match(cache, req)
              case Some(hit) => out == Served(hit) && !fetched && caches == old(caches)[CacheName := cache]
              case None =>
                fetched &&
                match network
                case None => out == NetworkError && caches == old(caches)[CacheName := cache]
                case Some(resp) =>
                  out == Served(resp) &&
                  caches == old(caches)[CacheName := if Ok(resp) then Put(cache, req, resp) else cache]
    {
      var cache := Open(CacheName);
      var cached := Match(cache, req);
      if cached.Some? {
        return Served(cached.value), false;
      }
      fetched := true;
      if network.None? {
        return NetworkError, fetched;
      }
      var resp := network.value;
      if Ok(resp) {
        caches := caches[CacheName := Put(cache, req, resp)];
      }
      out := Served(resp);
    }

    /** handleNavigationRequest: the network first; offline, the cached application
        shell at `origin/index.html`, or a 503 "Offline" when it is not cached. */
    method HandleNavigationRequest(req: Request, network: Option<Response>, origin: string) returns (out: Outcome)
      modifies this
      ensures network.Some? ==> out == Served(network.value) && caches == old(caches)
      ensures network.None? ==>
                var cache := CacheOf(old(caches), CacheName);
                var shell := origin + "/index.html";
                caches == old(caches)[CacheName := cache] &&
                out == Served(if shell in cache then cache[shell] else Response(503, "Offline"))
    {
      if network.Some? {
        return Served(network.value);
      }
      var cache := Open(CacheName);
      var shell := origin + "/index.html";
      out := Served(if shell in cache then cache[shell] else Response(503, "Offline"));
    }

    /** The activate listener: every cache but this version's two is deleted. */
    method Activate()
      modifies this
      ensures caches == CleanedUp(old(caches))
    {
      caches := map name | name in caches && (name == CacheName || name == MapTileCache) :: caches[name];
    }

    /** One batch: its URLs are fetched together and each ok answer is stored. */
    method StoreBatch(batch: seq<string>, network: string -> Option<Response>)
      modifies this
      ensures caches == old(caches)[MapTileCache := StoreOk(CacheOf(old(caches), MapTileCache), batch, network)]
    {
      caches := caches[MapTileCache := StoreOk(CacheOf(caches, MapTileCache), batch, network)];
    }

    /** cacheMapTiles: lists the tile URLs, then fetches them in batches of ten and
        stores every ok answer in the tile cache. */
    method CacheMapTiles(ranges: seq<TileRange>, network: string -> Option<Response>)
      returns (ghost batches: seq<seq<string>>)
      requires |ranges| == |Zooms|
      modifies this
      ensures var urls := Urls(Tiles(ranges));
              |batches| == BatchCount(|urls|) &&
              (forall j :: 0 <= j < |batches| ==> 10 * j < |urls| && batches[j] == BatchAt(urls, j)) &&
              caches == old(caches)[MapTileCache := StoreOk(CacheOf(old(caches), MapTileCache), urls, network)]
    {
      var start := Open(MapTileCache);
      var urls := TileUrls(ranges);
      batches := FetchInBatches(urls, network);
    }

    /** The batch loop of cacheMapTiles, on a tile cache that exists. */
    method FetchInBatches(urls: seq<string>, network: string -> Option<Response>)
      returns (ghost batches: seq<seq<string>>)
      requires MapTileCache in caches
      modifies this
      ensures |batches| == BatchCount(|urls|)
      ensures forall j :: 0 <= j < |batches| ==> 10 * j < |urls| && batches[j] == BatchAt(urls, j)
      ensures caches == old(caches)[MapTileCache := StoreOk(old(caches)[MapTileCache], urls, network)]
    {
      ghost var start := caches[MapTileCache];
      batches := [];
      var i := 0;
      while i < |urls|
        invariant i == 10 * |batches|
        invariant forall j :: 0 <= j < |batches| ==> 10 * j < |urls| && batches[j] == BatchAt(urls, j)
        invariant 10 * (|batches| - 1) < |urls| || batches == []
        invariant caches == old(caches)[MapTileCache := StoreOk(start, urls[..Min(i, |urls|)], network)]
        decreases |urls| - i
      {
        var batch := urls[i..Min(i + BatchSize, |urls|)];
        assert caches[MapTileCache] == StoreOk(start, urls[..i], network);
        StoreBatch(batch, network);
        assert caches == old(caches)[MapTileCache := StoreOk(StoreOk(start, urls[..i], network), batch, network)];
        StoreOkAppend(start, urls[..i], batch, network);
        NextBatch(urls, i);
        assert caches == old(caches)[MapTileCache := StoreOk(start, urls[..Min(i + BatchSize, |urls|)], network)];
        BatchesStep(urls, batches, i);
        batches := batches + [batch];
        i := i + BatchSize;
      }
      BatchCountOf(|urls|, |batches|);
      assert urls[..Min(i, |urls|)] == urls;
    }
  }

  /** The tile URLs in the order of the nested loops of cacheMapTiles. */
  method TileUrls(ranges: seq<TileRange>) returns (urls: seq<string>)
    requires |ranges| == |Zooms|
    ensures urls == Urls(Tiles(ranges))
  {
    urls := [];
    for k := 0 to |ranges|
      invariant urls == Urls(TilesUpTo(ranges, k))
    {
      urls := PushZoom(urls, Zooms[k], ranges[k]);
      UrlsStep([], TilesUpTo(ranges, k), ZoomTiles(Zooms[k], ranges[k]));
    }
  }

  /** The loop over x for one zoom level. */
  method PushZoom(urls: seq<string>, z: nat, r: TileRange) returns (out: seq<string>)
    ensures out == urls + Urls(ZoomTiles(z, r))
  {
    out := urls;
    var x := r.minX;
    while x <= r.maxX
      invariant r.minX <= x && (x <= r.maxX + 1 || x == r.minX)
      invariant out == urls + Urls(Columns(z, r, x))
      decreases r.maxX + 1 - x
    {
      out := PushColumn(out, z, x, r.minY, r.maxY);
      UrlsStep(urls, Columns(z, r, x), Column(z, x, r.minY, r.maxY + 1));
      x := x + 1;
    }
    assert Columns(z, r, x) == Columns(z, r, r.maxX + 1);
  }

  /** The loop over y for one column. */
  method PushColumn(urls: seq<string>, z: nat, x: nat, minY: nat, maxY: nat) returns (out: seq<string>)
    ensures out == urls + Urls(Column(z, x, minY, maxY + 1))
  {
    out := urls;
    var y := minY;
    while y <= maxY
      invariant minY <= y && (y <= maxY + 1 || y == minY)
      invariant out == urls + Urls(Column(z, x, minY, y))
      decreases maxY + 1 - y
    {
      UrlsStep(urls, Column(z, x, minY, y), [Tile(z, x, y)]);
      out := out + [TileUrl(Tile(z, x, y))];
      y := y + 1;
    }
    assert Column(z, x, minY, y) == Column(z, x, minY, maxY + 1);
  }
}
