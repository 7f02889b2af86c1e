/** The administrator's tab of src/components/tabs/AdminTab.tsx: the GPX export of
    all tracks, the CSV export of all weed patches, and the guards around deleting a
    user and changing a role. Fetching, dialogs and the file download are outside the
    model: the fetched rows and the answers to the dialogs are inputs, and the text a
    Number or a date prints as is a parameter. */
module AdminTab {
  import opened Common
  import opened Types

  // ---------------------------------------------------------------------------
  // Concatenating the text of every element
  // ---------------------------------------------------------------------------

  /** The texts of `xs[lo..hi]`, one after the other. */
  function ConcatRange<T>(xs: seq<T>, f: T -> string, lo: nat, hi: nat): string
    requires lo <= hi <= |xs|
    decreases hi - lo
  {
    if lo == hi then "" else ConcatRange(xs, f, lo, hi - 1) + f(xs[hi - 1])
  }

  /** The texts of all of `xs`, one after the other. */
  function ConcatMap<T>(xs: seq<T>, f: T -> string): string
  {
    ConcatRange(xs, f, 0, |xs|)
  }

  lemma {:induction false} ConcatRangeSplit<T>(xs: seq<T>, f: T -> string, lo: nat, mid: nat, hi: nat)
    requires lo <= mid <= hi <= |xs|
    ensures ConcatRange(xs, f, lo, hi) == ConcatRange(xs, f, lo, mid) + ConcatRange(xs, f, mid, hi)
    decreases hi - mid
  {
    if mid < hi {
      ConcatRangeSplit(xs, f, lo, mid, hi - 1);
      AppendAssoc(ConcatRange(xs, f, lo, mid), ConcatRange(xs, f, mid, hi - 1), f(xs[hi - 1]));
    }
  }

  /** The text of the `k`-th element sits right after the text of the first `k`. */
  lemma ConcatMapAt<T>(xs: seq<T>, f: T -> string, k: nat)
    requires k < |xs|
    ensures ConcatMap(xs, f) == ConcatRange(xs, f, 0, k) + f(xs[k]) + ConcatRange(xs, f, k + 1, |xs|)
  {
    ConcatRangeSplit(xs, f, 0, k + 1, |xs|);
  }

  lemma AppendAssoc(a: string, b: string, c: string)
    ensures a + b + c == a + (b + c)
  {
  }

  // ---------------------------------------------------------------------------
  // GPX 1.1 export (exportTracks)
  // ---------------------------------------------------------------------------

  const XmlDeclaration: string := "<?xml version=\"1.0\" encoding=\"UTF-8\"?>\n"
  const GpxRoot: string := "<gpx version=\"1.1\" creator=\"Dalmore Reserve Management\">\n"
  const GpxClose: string := "</gpx>"
  const TrkClose: string := "    </trkseg>\n  </trk>\n"

  /** The declaration, the root element and the metadata block stamped with `now`. */
  function GpxHeader(now: string): string
  {
    XmlDeclaration + GpxRoot + Metadata(now)
  }

  function Metadata(now: string): string
  {
    "  <metadata>\n    <name>Dalmore Reserve Tracks</name>\n" +
    "    <desc>Exported tracks from Dalmore Reserve Management System</desc>\n" +
    "    <time>" + now + "</time>\n  </metadata>\n"
  }

  /** `${track.profile?.full_name}`: a track without a profile prints "undefined". */
  function CreatorName(profile: Option<Profile>): string
  {
    match profile
    case None => "undefined"
    case Some(p) => p.fullName
  }

  const TrkNameOpen: string := "  <trk>\n    <name>"

  /** The opening of one track: its name as stored, its creator and date, the segment. */
  function TrkOpen(t: Track, localDate: string -> string): string
  {
    TrkNameOpen + t.name + TrkDesc(t, localDate)
  }

  function TrkDesc(t: Track, localDate: string -> string): string
  {
    "</name>\n    <desc>Created by " + CreatorName(t.profile) +
    " on " + localDate(t.createdAt) + "</desc>\n    <trkseg>\n"
  }

  const TrkPtLat: string := "      <trkpt lat=\""
  const TrkPtLon: string := "\" lon=\""
  const TrkPtEnd: string := "\"></trkpt>\n"

  /** One track point; `num` is the text a Number prints as. */
  function TrkPt(c: Position, num: real -> string): string
  {
    TrkPtLat + num(c.lat) + TrkPtLon + num(c.lng) + TrkPtEnd
  }

  function PointText(num: real -> string): Position -> string
  {
    c => TrkPt(c, num)
  }

  function PointsXml(cs: seq<Position>, num: real -> string): string
  {
    ConcatMap(cs, PointText(num))
  }

  function TrackXml(t: Track, num: real -> string, localDate: string -> string): string
  {
    TrkOpen(t, localDate) + PointsXml(t.coordinates, num) + TrkClose
  }

  function TrackText(num: real -> string, localDate: string -> string): Track -> string
  {
    t => TrackXml(t, num, localDate)
  }

  function TracksXml(ts: seq<Track>, num: real -> string, localDate: string -> string): string
  {
    ConcatMap(ts, TrackText(num, localDate))
  }

  /** The whole document for the fetched tracks. */
  function Gpx(now: string, ts: seq<Track>, num: real -> string, localDate: string -> string): string
  {
    GpxHeader(now) + TracksXml(ts, num, localDate) + GpxClose
  }

  /** exportTracks: a failed fetch exports nothing; otherwise the document grows by
      one `trk` per track and, inside it, one `trkpt` per coordinate. */
  method ExportTracks(fetched: Option<seq<Track>>, now: string, num: real -> string,
                      localDate: string -> string)
    returns (gpx: Option<string>)
    ensures fetched.None? ==> gpx.None?
    ensures fetched.Some? ==> gpx == Some(Gpx(now, fetched.value, num, localDate))
  {
    if fetched.None? {
      return None;
    }
    var data := fetched.value;
    var content := GpxHeader(now);
    var i := 0;
    while i < |data|
      invariant 0 <= i <= |data|
      invariant content == GpxHeader(now) + ConcatRange(data, TrackText(num, localDate), 0, i)
    {
      var trk := AppendTrack(content, data[i], num, localDate);
      AppendAssoc(GpxHeader(now), ConcatRange(data, TrackText(num, localDate), 0, i), TrackXml(data[i], num, localDate));
      content := trk;
      i := i + 1;
    }
    gpx := Some(content + GpxClose);
  }

  /** The body of exportTracks' loop: `content` followed by one track's element, its
      points appended one coordinate at a time. */
  method AppendTrack(content: string, track: Track, num: real -> string, localDate: string -> string)
    returns (r: string)
    ensures r == content + TrackXml(track, num, localDate)
  {
    var cs := track.coordinates;
    r := content + TrkOpen(track, localDate);
    ghost var started := r;
    var j := 0;
    while j < |cs|
      invariant 0 <= j <= |cs|
      invariant r == started + ConcatRange(cs, PointText(num), 0, j)
    {
      AppendAssoc(started, ConcatRange(cs, PointText(num), 0, j), TrkPt(cs[j], num));
      r := r + TrkPt(cs[j], num);
      j := j + 1;
    }
    ghost var points := PointsXml(cs, num);
    AppendAssoc(content, TrkOpen(track, localDate), points);
    r := r + TrkClose;
    AppendAssoc(content, TrkOpen(track, localDate) + points, TrkClose);
  }

  lemma Front(a: string, b: string)
    ensures (a + b)[..|a|] == a
  {
  }

  lemma Back(a: string, b: string)
    ensures (a + b)[|a|..] == b
  {
  }

  lemma Middle(a: string, x: string, b: string)
    ensures |a| + |x| <= |a + x + b| && (a + x + b)[|a|..|a| + |x|] == x
  {
  }

  lemma Regroup(a: string, b: string, x: string, c: string, d: string)
    ensures a + (b + x + c) + d == (a + b) + x + (c + d)
  {
  }

  lemma Regroup4(a: string, b: string, c: string, d: string)
    ensures a + b + c + d == a + (b + c + d)
  {
  }

  lemma PrefixOfPrefix(g: string, h: string, p: string)
    requires |p| <= |h| <= |g| && g[..|h|] == h && h[..|p|] == p
    ensures g[..|p|] == p
  {
    assert g[..|p|] == g[..|h|][..|p|];
  }

  /** The header opens with the XML declaration and the GPX 1.1 root. */
  lemma GpxHeaderStart(now: string)
    ensures var h := GpxHeader(now);
            |XmlDeclaration + GpxRoot| <= |h| && h[..|XmlDeclaration + GpxRoot|] == XmlDeclaration + GpxRoot
  {
    Front(XmlDeclaration + GpxRoot, Metadata(now));
  }

  /** The document opens with the XML declaration, the GPX 1.1 root and the metadata
      block, and closes with the root's end tag. */
  lemma GpxFrame(now: string, ts: seq<Track>, num: real -> string, localDate: string -> string)
    ensures var g := Gpx(now, ts, num, localDate);
            var h := GpxHeader(now);
            |h| + |GpxClose| <= |g| &&
            g[..|XmlDeclaration + GpxRoot|] == XmlDeclaration + GpxRoot &&
            g[..|h|] == h &&
            g[|g| - |GpxClose|..] == GpxClose
  {
    var h := GpxHeader(now);
    var body := TracksXml(ts, num, localDate);
    AppendAssoc(h, body, GpxClose);
    Front(h, body + GpxClose);
    Back(h + body, GpxClose);
    GpxHeaderStart(now);
    PrefixOfPrefix(Gpx(now, ts, num, localDate), h, XmlDeclaration + GpxRoot);
  }

  /** With no tracks the document is the header and the closing tag. */
  lemma GpxNoTracks(now: string, num: real -> string, localDate: string -> string)
    ensures Gpx(now, [], num, localDate) == GpxHeader(now) + GpxClose
  {
  }

  /** The `k`-th track's element follows those of the tracks before it: one `trk` per
      fetched track, in fetched order. */
  lemma GpxTrackAt(now: string, ts: seq<Track>, num: real -> string, localDate: string -> string, k: nat)
    requires k < |ts|
    ensures var g := Gpx(now, ts, num, localDate);
            var at := |GpxHeader(now)| + |ConcatRange(ts, TrackText(num, localDate), 0, k)|;
            var x := TrackXml(ts[k], num, localDate);
            at + |x| <= |g| && g[at..at + |x|] == x
  {
    var h := GpxHeader(now);
    var before := ConcatRange(ts, TrackText(num, localDate), 0, k);
    var x := TrackXml(ts[k], num, localDate);
    var after := ConcatRange(ts, TrackText(num, localDate), k + 1, |ts|);
    assert TracksXml(ts, num, localDate) == before + x + after by {
      ConcatMapAt(ts, TrackText(num, localDate), k);
    }
    Regroup(h, before, x, after, GpxClose);
    Middle(h + before, x, after + GpxClose);
  }

  /** Each track element is the track's opening (starting with `<trk>` and the name
      exactly as stored, with nothing escaped), its points and the closing tags. */
  lemma TrackXmlShape(t: Track, num: real -> string, localDate: string -> string)
    ensures var x := TrackXml(t, num, localDate);
            var n := |TrkNameOpen|;
            n + |t.name| <= |x| &&
            x[..n] == TrkNameOpen && x[n..n + |t.name|] == t.name &&
            x[|x| - |TrkClose|..] == TrkClose
  {
    var desc, points := TrkDesc(t, localDate), PointsXml(t.coordinates, num);
    var rest := desc + points + TrkClose;
    Regroup4(TrkNameOpen + t.name, desc, points, TrkClose);
    Middle(TrkNameOpen, t.name, rest);
    AppendAssoc(TrkNameOpen, t.name, rest);
    Front(TrkNameOpen, t.name + rest);
    Back(TrkOpen(t, localDate) + points, TrkClose);
  }

  /** Inside a track's segment the `k`-th coordinate's point follows the points of the
      coordinates before it: one `trkpt` per coordinate, in order. */
  lemma TrackPointAt(t: Track, num: real -> string, localDate: string -> string, k: nat)
    requires k < |t.coordinates|
    ensures var x := TrackXml(t, num, localDate);
            var at := |TrkOpen(t, localDate)| + |ConcatRange(t.coordinates, PointText(num), 0, k)|;
            var p := TrkPt(t.coordinates[k], num);
            at + |p| <= |x| && x[at..at + |p|] == p
  {
    var cs := t.coordinates;
    var o := TrkOpen(t, localDate);
    var before := ConcatRange(cs, PointText(num), 0, k);
    var p := TrkPt(cs[k], num);
    var after := ConcatRange(cs, PointText(num), k + 1, |cs|);
    assert PointsXml(cs, num) == before + p + after by {
      ConcatMapAt(cs, PointText(num), k);
    }
    Regroup(o, before, p, after, TrkClose);
    Middle(o + before, p, after + TrkClose);
  }

  /** A point's `lat` attribute holds the latitude and its `lon` attribute holds the
      longitude (the position's `lng`). */
  lemma TrkPtAttributes(c: Position, num: real -> string)
    ensures var p := TrkPt(c, num);
            var a := |TrkPtLat|;
            var b := a + |num(c.lat)| + |TrkPtLon|;
            b + |num(c.lng)| <= |p| &&
            p[..a] == TrkPtLat && p[a..a + |num(c.lat)|] == num(c.lat) &&
            p[a + |num(c.lat)|..b] == TrkPtLon && p[b..b + |num(c.lng)|] == num(c.lng)
  {
    var lat, lng := num(c.lat), num(c.lng);
    var p := TrkPt(c, num);
    Front(TrkPtLat, lat + TrkPtLon + lng + TrkPtEnd);
    assert p == TrkPtLat + (lat + TrkPtLon + lng + TrkPtEnd);
    Middle(TrkPtLat, lat, TrkPtLon + lng + TrkPtEnd);
    assert p == TrkPtLat + lat + (TrkPtLon + lng + TrkPtEnd);
    Middle(TrkPtLat + lat, TrkPtLon, lng + TrkPtEnd);
    assert p == TrkPtLat + lat + TrkPtLon + (lng + TrkPtEnd);
    Middle(TrkPtLat + lat + TrkPtLon, lng, TrkPtEnd);
  }

  // ---------------------------------------------------------------------------
  // Joining and splitting on one separator (Array.prototype.join, String.split)
  // ---------------------------------------------------------------------------

  /** `xs.join(sep)`: empty for no element, the elements separated by `sep` otherwise. */
  function Join(xs: seq<string>, sep: char): string
    decreases |xs|
  {
    if xs == [] then ""
    else if |xs| == 1 then xs[0]
    else xs[0] + [sep] + Join(xs[1..], sep)
  }

  /** `s.split(sep)`: the pieces between separators; always at least one. */
  function Split(s: string, sep: char): (r: seq<string>)
    ensures |r| >= 1
    decreases |s|
  {
    if s == [] then [""]
    else
      var rest := Split(s[1..], sep);
      if s[0] == sep then [""] + rest else [[s[0]] + rest[0]] + rest[1..]
  }

  lemma {:induction false} SplitNoSeparator(w: string, sep: char)
    requires sep !in w
    ensures Split(w, sep) == [w]
    decreases |w|
  {
    if w != [] {
      SplitNoSeparator(w[1..], sep);
      assert [w[0]] + w[1..] == w;
    }
  }

  lemma {:induction false} SplitAfterPiece(w: string, rest: string, sep: char)
    requires sep !in w
    ensures Split(w + [sep] + rest, sep) == [w] + Split(rest, sep)
    decreases |w|
  {
    var s := w + [sep] + rest;
    if w == [] {
      assert s[1..] == rest;
    } else {
      assert s[1..] == w[1..] + [sep] + rest;
      SplitAfterPiece(w[1..], rest, sep);
      assert [w[0]] + w[1..] == w;
    }
  }

  /** Splitting a join gives the pieces back when no piece holds the separator. */
  lemma {:induction false} SplitJoin(xs: seq<string>, sep: char)
    requires |xs| >= 1
    requires forall i :: 0 <= i < |xs| ==> sep !in xs[i]
    ensures Split(Join(xs, sep), sep) == xs
    decreases |xs|
  {
    if |xs| == 1 {
      SplitNoSeparator(xs[0], sep);
    } else {
      SplitJoin(xs[1..], sep);
      SplitAfterPiece(xs[0], Join(xs[1..], sep), sep);
      assert [xs[0]] + xs[1..] == xs;
    }
  }

  // ---------------------------------------------------------------------------
  // Quoted CSV fields (RFC 4180, section 2)
  // ---------------------------------------------------------------------------

  /** The source's quoting: the text between two double quotes, as is. */
  function QuoteAsWritten(s: string): string
  {
    "\"" + s + "\""
  }

  /** Every double quote written twice, as rule 7 of section 2 of RFC 4180 asks. */
  function EscapeQuotes(s: string): string
    decreases |s|
  {
    if s == [] then ""
    else (if s[0] == '"' then "\"\"" else [s[0]]) + EscapeQuotes(s[1..])
  }

  function Quote(s: string): string
  {
    "\"" + EscapeQuotes(s) + "\""
  }

  /** The body of a quoted field as a reader of RFC 4180 decodes it: a doubled quote
      stands for one quote, and a lone quote cannot occur inside the field. */
  function Unescape(body: string): (r: Option<string>)
    ensures r.Some? ==> |r.value| <= |body|
    ensures r.Some? && |r.value| == |body| ==> '"' !in body
    decreases |body|
  {
    if body == [] then Some("")
    else if body[0] != '"' then
      match Unescape(body[1..])
      case None => None
      case Some(rest) => Some([body[0]] + rest)
    else if |body| >= 2 && body[1] == '"' then
      match Unescape(body[2..])
      case None => None
      case Some(rest) => Some("\"" + rest)
    else None
  }

  /** Reads a field written between double quotes. */
  function ParseQuoted(field: string): Option<string>
  {
    if |field| >= 2 && field[0] == '"' && field[|field| - 1] == '"' then Unescape(field[1..|field| - 1])
    else None
  }

  lemma {:induction false} UnescapeEscape(s: string)
    ensures Unescape(EscapeQuotes(s)) == Some(s)
    decreases |s|
  {
    if s != [] {
      UnescapeEscape(s[1..]);
      var e := EscapeQuotes(s);
      if s[0] == '"' {
        assert e[2..] == EscapeQuotes(s[1..]);
      } else {
        assert e[1..] == EscapeQuotes(s[1..]);
      }
      assert [s[0]] + s[1..] == s;
    }
  }

  /** A quoted field reads back as the text it was made from. */
  lemma QuoteRoundTrip(s: string)
    ensures ParseQuoted(Quote(s)) == Some(s)
  {
    var q := Quote(s);
    assert q[1..|q| - 1] == EscapeQuotes(s);
    UnescapeEscape(s);
  }

  lemma {:induction false} EscapeWithoutQuotes(s: string)
    requires '"' !in s
    ensures EscapeQuotes(s) == s
    decreases |s|
  {
    if s != [] {
      EscapeWithoutQuotes(s[1..]);
      assert [s[0]] + s[1..] == s;
    }
  }

  /** The two quotings agree on every text without a double quote. */
  lemma QuotingsAgree(s: string)
    requires '"' !in s
    ensures Quote(s) == QuoteAsWritten(s)
  {
    EscapeWithoutQuotes(s);
  }

  /** The source's quoting reads back wrongly exactly when the text holds a double quote. */
  lemma QuoteAsWrittenRoundTrip(s: string)
    ensures ParseQuoted(QuoteAsWritten(s)) == Some(s) <==> '"' !in s
  {
    var q := QuoteAsWritten(s);
    assert q[1..|q| - 1] == s;
    if '"' !in s {
      QuotingsAgree(s);
      QuoteRoundTrip(s);
    }
  }

  /** The smallest case: the notes `a"b` come back as no field at all. */
  lemma QuoteAsWrittenExample()
    ensures ParseQuoted(QuoteAsWritten("a\"b")) == None
  {
    var q := QuoteAsWritten("a\"b");
    assert q[1..|q| - 1] == "a\"b";
    assert "a\"b"[1..] == "\"b";
  }

  // ---------------------------------------------------------------------------
  // CSV export (exportWeedPatches)
  // ---------------------------------------------------------------------------

  /** The header line: nine column names and a line break. */
  const CsvHeader: string :=
    "ID,Created By,Latitude,Longitude,Diameter (m),Status,Notes,Created Date,Updated Date\n"

  /** `x || ''` on an optional text: a missing or empty text becomes empty. */
  function OrEmpty(s: Option<string>): string
  {
    match s
    case None => ""
    case Some(t) => t
  }

  function FullNameOf(profile: Option<Profile>): string
  {
    match profile
    case None => ""
    case Some(p) => p.fullName
  }

  /** How a text field is put between double quotes: as the export writes it, or with
      its double quotes doubled as RFC 4180 asks. */
  datatype Quoting = AsWritten | Doubled

  function QuoteWith(q: Quoting, s: string): (r: string)
    ensures q == Doubled ==> ParseQuoted(r) == Some(s)
    ensures q == AsWritten ==> (ParseQuoted(r) == Some(s) <==> '"' !in s)
  {
    match q
    case AsWritten => QuoteAsWrittenRoundTrip(s); QuoteAsWritten(s)
    case Doubled => QuoteRoundTrip(s); Quote(s)
  }

  /** The nine fields of a patch's row, in header order; `num` and `iso` give the text
      of a Number and of a date. exportWeedPatches uses `AsWritten`. */
  function CsvFields(p: WeedPatch, q: Quoting, num: real -> string, iso: string -> string): (r: seq<string>)
    ensures |r| == 9
    ensures r[0] == p.id && r[1] == QuoteWith(q, FullNameOf(p.profile))
    ensures r[2] == num(p.centerLat) && r[3] == num(p.centerLng) && r[4] == num(p.diameter)
    ensures r[5] == StatusName(p.status) && r[6] == QuoteWith(q, OrEmpty(p.notes))
    ensures r[7] == iso(p.createdAt) && r[8] == iso(p.updatedAt)
  {
    [p.id, QuoteWith(q, FullNameOf(p.profile)), num(p.centerLat), num(p.centerLng), num(p.diameter),
     StatusName(p.status), QuoteWith(q, OrEmpty(p.notes)), iso(p.createdAt), iso(p.updatedAt)]
  }

  function CsvRow(p: WeedPatch, q: Quoting, num: real -> string, iso: string -> string): string
  {
    Join(CsvFields(p, q, num, iso), ',')
  }

  function CsvRows(ps: seq<WeedPatch>, q: Quoting, num: real -> string, iso: string -> string): (r: seq<string>)
    ensures |r| == |ps|
    ensures forall k :: 0 <= k < |ps| ==> r[k] == CsvRow(ps[k], q, num, iso)
  {
    seq(|ps|, k requires 0 <= k < |ps| => CsvRow(ps[k], q, num, iso))
  }

  /** The file: the header line, then the rows separated by line breaks. */
  function Csv(ps: seq<WeedPatch>, q: Quoting, num: real -> string, iso: string -> string): string
  {
    CsvHeader + Join(CsvRows(ps, q, num, iso), '\n')
  }

  /** With no patches the file is the header line alone. */
  lemma CsvNoPatches(q: Quoting, num: real -> string, iso: string -> string)
    ensures Csv([], q, num, iso) == CsvHeader
  {
  }

  /** When no field holds a comma or a line break, the lines after the header are the
      patches' rows, one per patch in order, and each row splits into its nine fields. */
  lemma CsvReadBack(ps: seq<WeedPatch>, q: Quoting, num: real -> string, iso: string -> string)
    requires ps != []
    requires forall k, i :: 0 <= k < |ps| && 0 <= i < 9 ==>
               ',' !in CsvFields(ps[k], q, num, iso)[i] && '\n' !in CsvFields(ps[k], q, num, iso)[i]
    ensures var c := Csv(ps, q, num, iso);
            c[..|CsvHeader|] == CsvHeader &&
            Split(c[|CsvHeader|..], '\n') == CsvRows(ps, q, num, iso)
    ensures forall k :: 0 <= k < |ps| ==>
              Split(CsvRow(ps[k], q, num, iso), ',') == CsvFields(ps[k], q, num, iso)
  {
    var rows := CsvRows(ps, q, num, iso);
    forall k | 0 <= k < |ps|
      ensures '\n' !in rows[k]
      ensures Split(CsvRow(ps[k], q, num, iso), ',') == CsvFields(ps[k], q, num, iso)
    {
      var fs := CsvFields(ps[k], q, num, iso);
      SplitJoin(fs, ',');
      JoinAvoids(fs, ',', '\n');
    }
    SplitJoin(rows, '\n');
    var c := Csv(ps, q, num, iso);
    assert c[|CsvHeader|..] == Join(rows, '\n');
  }

  /** The name and notes columns of the exported file read back as the patch's name and
      notes exactly when neither holds a double quote; with doubled quotes they always
      do. */
  lemma CsvTextColumns(p: WeedPatch, num: real -> string, iso: string -> string)
    ensures var f := CsvFields(p, AsWritten, num, iso);
            ParseQuoted(f[1]) == Some(FullNameOf(p.profile)) && ParseQuoted(f[6]) == Some(OrEmpty(p.notes))
            <==> '"' !in FullNameOf(p.profile) && '"' !in OrEmpty(p.notes)
    ensures var f := CsvFields(p, Doubled, num, iso);
            ParseQuoted(f[1]) == Some(FullNameOf(p.profile)) && ParseQuoted(f[6]) == Some(OrEmpty(p.notes))
  {
  }

  /** The exported file and the one with doubled quotes are the same file whenever no
      name or note holds a double quote. */
  lemma CsvQuotingsAgree(ps: seq<WeedPatch>, num: real -> string, iso: string -> string)
    requires forall k :: 0 <= k < |ps| ==> '"' !in FullNameOf(ps[k].profile) && '"' !in OrEmpty(ps[k].notes)
    ensures Csv(ps, AsWritten, num, iso) == Csv(ps, Doubled, num, iso)
  {
    forall k | 0 <= k < |ps|
      ensures CsvRow(ps[k], AsWritten, num, iso) == CsvRow(ps[k], Doubled, num, iso)
    {
      QuotingsAgree(FullNameOf(ps[k].profile));
      QuotingsAgree(OrEmpty(ps[k].notes));
      assert CsvFields(ps[k], AsWritten, num, iso) == CsvFields(ps[k], Doubled, num, iso);
    }
    assert CsvRows(ps, AsWritten, num, iso) == CsvRows(ps, Doubled, num, iso);
  }

  /** A join holds a character other than the separator only if some piece does. */
  lemma {:induction false} JoinAvoids(xs: seq<string>, sep: char, c: char)
    requires c != sep
    requires forall i :: 0 <= i < |xs| ==> c !in xs[i]
    ensures c !in Join(xs, sep)
    decreases |xs|
  {
    if |xs| > 1 {
      JoinAvoids(xs[1..], sep, c);
    }
  }

  // ---------------------------------------------------------------------------
  // Users
  // ---------------------------------------------------------------------------

  /** The writes the tab can send to the `profiles` table. */
  datatype ProfileWrite = DeleteProfile(userId: string) | SetRole(userId: string, role: Role, updatedAt: string)

  /** deleteUser: never the signed-in user's own account; otherwise only after both
      confirmations. */
  function DeleteUser(currentUser: Option<string>, userId: string, confirmed: bool, confirmedAgain: bool)
    : (r: Option<ProfileWrite>)
    ensures currentUser == Some(userId) ==> r.None?
    ensures r.Some? <==> currentUser != Some(userId) && confirmed && confirmedAgain
    ensures r.Some? ==> r.value == DeleteProfile(userId)
  {
    if currentUser == Some(userId) then None
    else if !confirmed || !confirmedAgain then None
    else Some(DeleteProfile(userId))
  }

  /** The delete button is shown for every profile but the signed-in user's own. */
  predicate DeleteButtonShown(currentUser: Option<string>, profileId: string)
  {
    currentUser != Some(profileId)
  }

  lemma DeleteButtonMatchesGuard(currentUser: Option<string>, profileId: string)
    ensures DeleteButtonShown(currentUser, profileId) <==>
            DeleteUser(currentUser, profileId, true, true) == Some(DeleteProfile(profileId))
  {
  }

  /** updateUserRole: after confirmation, exactly the chosen role is written, stamped
      with `now`, the ISO text of the current time. */
  function UpdateUserRole(userId: string, newRole: Role, confirmed: bool, now: string): (r: Option<ProfileWrite>)
    ensures r.Some? <==> confirmed
    ensures r.Some? ==> r.value.userId == userId && r.value == SetRole(userId, newRole, now)
  {
    if confirmed then Some(SetRole(userId, newRole, now)) else None
  }

  /** The role each profile's button offers: editors are offered Admin, others Editor. */
  function OfferedRole(current: Role): (r: Role)
    ensures r != current
  {
    if current == Editor then Admin else Editor
  }

  /** Pressing the role button twice gives the profile its original role back. */
  lemma OfferedRoleToggles(userId: string, current: Role, now: string)
    ensures OfferedRole(OfferedRole(current)) == current
    ensures UpdateUserRole(userId, OfferedRole(current), true, now) == Some(SetRole(userId, OfferedRole(current), now))
  {
  }
}
