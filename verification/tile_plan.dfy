/** The map tiles the service worker of public/sw.js pre-caches at install: for each
    zoom level of the reserve, every tile of an inclusive rectangle of tile indices,
    as an OpenStreetMap tile URL, and the batches of ten in which they are fetched.
    The rectangle of each zoom level comes from a Web Mercator formula over the
    reserve's corner coordinates; the model takes the resulting integer bounds. */
module TilePlan {
  import opened Common

  /** The zoom levels pre-cached, in the order they are visited. */
  const Zooms: seq<nat> := [16, 17, 18, 19, 20]

  /** Tiles are fetched this many at a time. */
  const BatchSize: nat := 10

  const TilePrefix: string := "https://tile.openstreetmap.org/"

  datatype Tile = Tile(z: nat, x: nat, y: nat)

  /** The inclusive tile rectangle of one zoom level. */
  datatype TileRange = TileRange(minX: nat, maxX: nat, minY: nat, maxY: nat)

  predicate InRange(r: TileRange, x: nat, y: nat)
  {
    r.minX <= x <= r.maxX && r.minY <= y <= r.maxY
  }

  // ---------------------------------------------------------------------------
  // Tile URLs
  // ---------------------------------------------------------------------------

  /** `https://tile.openstreetmap.org/${z}/${x}/${y}.png`. */
  function TileUrl(t: Tile): string
  {
    TilePrefix + ZxyPath(t)
  }

  function ZxyPath(t: Tile): string
  {
    Decimal(t.z) + "/" + XyPath(t)
  }

  function XyPath(t: Tile): string
  {
    Decimal(t.x) + "/" + YFile(t)
  }

  function YFile(t: Tile): string
  {
    Decimal(t.y) + ".png"
  }

  lemma NoSlashInDecimal(n: nat)
    ensures '/' !in Decimal(n)
  {
    var d := Decimal(n);
    forall i | 0 <= i < |d|
      ensures d[i] != '/'
    {
      assert IsDigit(d[i], 10);
    }
  }

  /** A text cut at its first slash: the parts before and after are determined. */
  lemma FirstSlash(a: string, r: string, b: string, s: string)
    requires '/' !in a && '/' !in b
    requires a + "/" + r == b + "/" + s
    ensures a == b && r == s
  {
    var u := a + "/" + r;
    assert u[|a|] == '/' && u[|b|] == '/';
    assert |a| == |b|;
    assert a == u[..|a|] == b;
    assert r == u[|a| + 1..] == s;
  }

  /** Different tiles have different URLs, so a list of distinct tiles gives a list
      of distinct URLs. */
  lemma TileUrlInjective(s: Tile, t: Tile)
    requires TileUrl(s) == TileUrl(t)
    ensures s == t
  {
    assert ZxyPath(s) == TileUrl(s)[|TilePrefix|..];
    assert ZxyPath(t) == TileUrl(t)[|TilePrefix|..];
    NoSlashInDecimal(s.z);
    NoSlashInDecimal(t.z);
    FirstSlash(Decimal(s.z), XyPath(s), Decimal(t.z), XyPath(t));
    NoSlashInDecimal(s.x);
    NoSlashInDecimal(t.x);
    FirstSlash(Decimal(s.x), YFile(s), Decimal(t.x), YFile(t));
    assert Decimal(s.y) == YFile(s)[..|YFile(s)| - 4];
    assert Decimal(t.y) == YFile(t)[..|YFile(t)| - 4];
    DecimalInjective(s.z, t.z);
    DecimalInjective(s.x, t.x);
    DecimalInjective(s.y, t.y);
  }

  /** The map layer asks for `https://{s}.tile.openstreetmap.org/{z}/{x}/{y}.png`, with
      `{s}` one of Leaflet's default subdomain letters. */
  function MapTileUrl(sub: char, t: Tile): string
  {
    "https://" + [sub] + ".tile.openstreetmap.org/" + ZxyPath(t)
  }

  /** No pre-cached URL is a URL the map layer requests: they differ right after the
      scheme, so a lookup by URL never finds a pre-cached tile for the map. */
  lemma PrecachedUrlsNeverRequested(sub: char, s: Tile, t: Tile)
    requires sub in "abc"
    ensures TileUrl(s) != MapTileUrl(sub, t)
  {
    assert TileUrl(s)[8] == 't';
    assert MapTileUrl(sub, t)[8] == sub;
  }

  /** The URLs of a list of tiles, in the same order. */
  function Urls(ts: seq<Tile>): (r: seq<string>)
    ensures |r| == |ts| && forall i :: 0 <= i < |ts| ==> r[i] == TileUrl(ts[i])
  {
    seq(|ts|, i requires 0 <= i < |ts| => TileUrl(ts[i]))
  }

  /** Appending the URLs of `b` after those of `a` gives the URLs of `a + b`. */
  lemma UrlsStep(prefix: seq<string>, a: seq<Tile>, b: seq<Tile>)
    ensures (prefix + Urls(a)) + Urls(b) == prefix + Urls(a + b)
  {
    assert Urls(a + b) == Urls(a) + Urls(b);
  }

  // ---------------------------------------------------------------------------
  // The enumeration order: zoom, then x, then y
  // ---------------------------------------------------------------------------

  /** Column `x` of zoom `z`, rows `lo` up to but not including `hi`. */
  function Column(z: nat, x: nat, lo: nat, hi: nat): seq<Tile>
    decreases hi
  {
    if hi <= lo then [] else Column(z, x, lo, hi - 1) + [Tile(z, x, hi - 1)]
  }

  /** The columns of zoom `z` from `r.minX` up to but not including `hi`. */
  function Columns(z: nat, r: TileRange, hi: nat): seq<Tile>
    decreases hi
  {
    if hi <= r.minX then [] else Columns(z, r, hi - 1) + Column(z, hi - 1, r.minY, r.maxY + 1)
  }

  /** Every tile of one zoom level's rectangle. */
  function ZoomTiles(z: nat, r: TileRange): seq<Tile>
  {
    Columns(z, r, r.maxX + 1)
  }

  lemma {:induction false} ColumnMembers(z: nat, x: nat, lo: nat, hi: nat)
    ensures forall t :: t in Column(z, x, lo, hi) <==> t.z == z && t.x == x && lo <= t.y < hi
    decreases hi
  {
    if lo < hi {
      ColumnMembers(z, x, lo, hi - 1);
    }
  }

  lemma {:induction false} ColumnsMembers(z: nat, r: TileRange, hi: nat)
    ensures forall t :: t in Columns(z, r, hi) <==> t.z == z && r.minX <= t.x < hi && r.minY <= t.y <= r.maxY
    decreases hi
  {
    if r.minX < hi {
      ColumnsMembers(z, r, hi - 1);
      ColumnMembers(z, hi - 1, r.minY, r.maxY + 1);
    }
  }

  /** A tile is in a zoom level's list exactly when it lies in the rectangle. */
  lemma ZoomMembers(z: nat, r: TileRange)
    ensures forall t :: t in ZoomTiles(z, r) <==> t.z == z && InRange(r, t.x, t.y)
  {
    ColumnsMembers(z, r, r.maxX + 1);
  }

  /** The tiles of the first `k` zoom levels. */
  function TilesUpTo(ranges: seq<TileRange>, k: nat): (ts: seq<Tile>)
    requires |ranges| == |Zooms| && k <= |ranges|
  {
    if k == 0 then [] else TilesUpTo(ranges, k - 1) + ZoomTiles(Zooms[k - 1], ranges[k - 1])
  }

  /** Every tile to pre-cache. */
  function Tiles(ranges: seq<TileRange>): seq<Tile>
    requires |ranges| == |Zooms|
  {
    TilesUpTo(ranges, |ranges|)
  }

  /** Zoom first, then x, then y. */
  predicate TileBefore(s: Tile, t: Tile)
  {
    s.z < t.z || (s.z == t.z && (s.x < t.x || (s.x == t.x && s.y < t.y)))
  }

  predicate Ascending(ts: seq<Tile>)
  {
    forall i, j :: 0 <= i < j < |ts| ==> TileBefore(ts[i], ts[j])
  }

  lemma AscendingAppend(a: seq<Tile>, b: seq<Tile>)
    requires Ascending(a) && Ascending(b)
    requires forall s, t :: s in a && t in b ==> TileBefore(s, t)
    ensures Ascending(a + b)
  {
    forall i, j | 0 <= i < j < |a + b|
      ensures TileBefore((a + b)[i], (a + b)[j])
    {
      if j < |a| {
        assert (a + b)[i] == a[i] && (a + b)[j] == a[j];
      } else if i < |a| {
        assert (a + b)[i] in a && (a + b)[j] in b;
      } else {
        assert (a + b)[i] == b[i - |a|] && (a + b)[j] == b[j - |a|];
      }
    }
  }

  lemma {:induction false} ColumnAscending(z: nat, x: nat, lo: nat, hi: nat)
    ensures Ascending(Column(z, x, lo, hi))
    decreases hi
  {
    if lo < hi {
      ColumnAscending(z, x, lo, hi - 1);
      ColumnMembers(z, x, lo, hi - 1);
      AscendingAppend(Column(z, x, lo, hi - 1), [Tile(z, x, hi - 1)]);
    }
  }

  lemma {:induction false} ColumnsAscending(z: nat, r: TileRange, hi: nat)
    ensures Ascending(Columns(z, r, hi))
    decreases hi
  {
    if r.minX < hi {
      ColumnsAscending(z, r, hi - 1);
      ColumnAscending(z, hi - 1, r.minY, r.maxY + 1);
      ColumnsMembers(z, r, hi - 1);
      ColumnMembers(z, hi - 1, r.minY, r.maxY + 1);
      AscendingAppend(Columns(z, r, hi - 1), Column(z, hi - 1, r.minY, r.maxY + 1));
    }
  }

  /** The pre-cache list visits zoom levels in increasing order, and inside each the
      columns left to right and each column top to bottom. */
  lemma {:induction false} TilesAscending(ranges: seq<TileRange>, k: nat)
    requires |ranges| == |Zooms| && k <= |ranges|
    ensures Ascending(TilesUpTo(ranges, k))
    ensures forall t :: t in TilesUpTo(ranges, k) ==> exists i :: 0 <= i < k && t.z == Zooms[i]
  {
    if k > 0 {
      TilesAscending(ranges, k - 1);
      ColumnsAscending(Zooms[k - 1], ranges[k - 1], ranges[k - 1].maxX + 1);
      var done := TilesUpTo(ranges, k - 1);
      var next := ZoomTiles(Zooms[k - 1], ranges[k - 1]);
      ZoomMembers(Zooms[k - 1], ranges[k - 1]);
      forall s, t | s in done && t in next
        ensures TileBefore(s, t)
      {
        var i :| 0 <= i < k - 1 && s.z == Zooms[i];
      }
      AscendingAppend(done, next);
    }
  }

  /** A tile is pre-cached exactly when it lies in the rectangle of its zoom level. */
  lemma {:induction false} TilesMembers(ranges: seq<TileRange>, k: nat)
    requires |ranges| == |Zooms| && k <= |ranges|
    ensures forall t :: t in TilesUpTo(ranges, k) <==>
              exists i :: 0 <= i < k && t.z == Zooms[i] && InRange(ranges[i], t.x, t.y)
  {
    if k > 0 {
      TilesMembers(ranges, k - 1);
      ZoomMembers(Zooms[k - 1], ranges[k - 1]);
    }
  }

  /** The whole pre-cache list: exactly the tiles of the rectangles, each once, in
      zoom, x, y order, and no URL twice. */
  lemma TilesExactlyOnce(ranges: seq<TileRange>)
    requires |ranges| == |Zooms|
    ensures var ts := Tiles(ranges);
            Ascending(ts) &&
            (forall t :: t in ts <==>
               exists i :: 0 <= i < |Zooms| && t.z == Zooms[i] && InRange(ranges[i], t.x, t.y)) &&
            (forall i, j :: 0 <= i < j < |ts| ==> Urls(ts)[i] != Urls(ts)[j])
  {
    TilesAscending(ranges, |ranges|);
    TilesMembers(ranges, |ranges|);
    var ts := Tiles(ranges);
    forall i, j | 0 <= i < j < |ts|
      ensures Urls(ts)[i] != Urls(ts)[j]
    {
      if Urls(ts)[i] == Urls(ts)[j] {
        TileUrlInjective(ts[i], ts[j]);
      }
    }
  }

  // ---------------------------------------------------------------------------
  // Batches
  // ---------------------------------------------------------------------------

  function Min(a: nat, b: nat): nat
  {
    if a < b then a else b
  }

  /** `urls.slice(i, i + batchSize)` for the `j`-th batch. */
  function BatchAt<T>(urls: seq<T>, j: nat): (b: seq<T>)
    requires 10 * j < |urls|
    ensures 1 <= |b| <= BatchSize
  {
    urls[10 * j..Min(10 * j + BatchSize, |urls|)]
  }

  /** The number of batches the loop makes. */
  function BatchCount(n: nat): (c: nat)
    ensures 10 * c >= n && (c == 0 || 10 * (c - 1) < n)
  {
    (n + 9) / 10
  }

  /** The URLs before a batch and the batch are the URLs before the next one. */
  lemma NextBatch<T>(urls: seq<T>, i: nat)
    requires i < |urls|
    ensures urls[..i] + urls[i..Min(i + BatchSize, |urls|)] == urls[..Min(i + BatchSize, |urls|)]
  {
  }

  /** The loop's count of batches is the count of the batch slices. */
  lemma BatchCountOf(n: nat, c: nat)
    requires 10 * c >= n && (c == 0 || 10 * (c - 1) < n)
    ensures c == BatchCount(n)
  {
  }

  /** Slicing the next batch keeps the batches so far in step with the URLs. */
  lemma BatchesStep<T>(urls: seq<T>, bs: seq<seq<T>>, i: nat)
    requires i == 10 * |bs| && i < |urls|
    requires forall j :: 0 <= j < |bs| ==> 10 * j < |urls| && bs[j] == BatchAt(urls, j)
    ensures var next := bs + [urls[i..Min(i + BatchSize, |urls|)]];
            forall j :: 0 <= j < |next| ==> 10 * j < |urls| && next[j] == BatchAt(urls, j)
  {
  }

  function Flatten<T>(bs: seq<seq<T>>): seq<T>
  {
    if bs == [] then [] else Flatten(bs[..|bs| - 1]) + bs[|bs| - 1]
  }

  /** The first `n` batches, laid end to end, are the first `10 n` URLs. */
  lemma {:induction false} BatchesFlatten<T>(urls: seq<T>, bs: seq<seq<T>>)
    requires 10 * (|bs| - 1) < |urls| || bs == []
    requires forall j :: 0 <= j < |bs| ==> 10 * j < |urls| && bs[j] == BatchAt(urls, j)
    ensures Flatten(bs) == urls[..Min(10 * |bs|, |urls|)]
  {
    if bs != [] {
      var n := |bs| - 1;
      BatchesFlatten(urls, bs[..n]);
      var m := Min(10 * |bs|, |urls|);
      assert Min(10 * n, |urls|) == 10 * n <= m <= |urls|;
      assert bs[n] == urls[10 * n..m];
      assert urls[..m] == urls[..10 * n] + urls[10 * n..m];
    }
  }

  /** Every batch but the last is full, and the batches hold every URL once, in
      order. */
  lemma Batching<T>(urls: seq<T>, bs: seq<seq<T>>)
    requires |bs| == BatchCount(|urls|)
    requires forall j :: 0 <= j < |bs| ==> 10 * j < |urls| && bs[j] == BatchAt(urls, j)
    ensures Flatten(bs) == urls
    ensures forall j :: 0 <= j < |bs| - 1 ==> |bs[j]| == BatchSize
    ensures forall j :: 0 <= j < |bs| ==> 1 <= |bs[j]| <= BatchSize
  {
    BatchesFlatten(urls, bs);
    assert urls[..|urls|] == urls;
  }
}
