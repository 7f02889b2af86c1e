/** Recording a track in src/components/tabs/TracksTab.tsx: the name field, the
    buffer of positions being recorded, and saving it either to the backend or,
    offline, to the queue. Loading the list of saved tracks is a backend read and is
    outside the model; the position, the random colour and the offline id are inputs. */
module TracksTab {
  import opened Common
  import opened Types
  import opened Remote
  import opened OfflineStorage

  // ---------------------------------------------------------------------------
  // String.prototype.trim
  // ---------------------------------------------------------------------------

  /** The characters ECMAScript's trim removes: WhiteSpace and LineTerminator. */
  predicate IsJsSpace(c: char)
  {
    c == '\t' || c == '\n' || c == '\U{000B}' || c == '\U{000C}' || c == '\r' || c == ' ' ||
    c == '\U{00A0}' || c == '\U{1680}' || '\U{2000}' <= c <= '\U{200A}' ||
    c == '\U{2028}' || c == '\U{2029}' || c == '\U{202F}' || c == '\U{205F}' || c == '\U{3000}' ||
    c == '\U{FEFF}'
  }

  /** Empty or made of whitespace only: the names `!name.trim()` refuses. */
  predicate Blank(s: string)
  {
    forall k :: 0 <= k < |s| ==> IsJsSpace(s[k])
  }

  /** The number of whitespace characters `s` starts with. */
  function LeadingSpaces(s: string): (n: nat)
    ensures n <= |s|
    ensures forall k :: 0 <= k < n ==> IsJsSpace(s[k])
    ensures n < |s| ==> !IsJsSpace(s[n])
    decreases |s|
  {
    if s != [] && IsJsSpace(s[0]) then 1 + LeadingSpaces(s[1..]) else 0
  }

  /** The number of whitespace characters `s` ends with. */
  function TrailingSpaces(s: string): (n: nat)
    ensures n <= |s|
    ensures forall k :: |s| - n <= k < |s| ==> IsJsSpace(s[k])
    ensures n < |s| ==> !IsJsSpace(s[|s| - n - 1])
    decreases |s|
  {
    if s != [] && IsJsSpace(s[|s| - 1]) then 1 + TrailingSpaces(s[..|s| - 1]) else 0
  }

  /** `s.trim()`: the text between the leading and the trailing whitespace. */
  function Trim(s: string): string
  {
    var rest := s[LeadingSpaces(s)..];
    rest[..|rest| - TrailingSpaces(rest)]
  }

  /** Trimming removes whitespace only, from both ends, and leaves text that neither
      starts nor ends with whitespace; it is empty exactly for a blank text. */
  lemma TrimSpec(s: string)
    ensures var t := Trim(s);
            var i := LeadingSpaces(s);
            i + |t| <= |s| && t == s[i..i + |t|] &&
            (forall k :: 0 <= k < i ==> IsJsSpace(s[k])) &&
            (forall k :: i + |t| <= k < |s| ==> IsJsSpace(s[k])) &&
            (t != [] ==> !IsJsSpace(t[0]) && !IsJsSpace(t[|t| - 1]))
    ensures Trim(s) == [] <==> Blank(s)
  {
    var i := LeadingSpaces(s);
    var rest := s[i..];
    var t := Trim(s);
    assert t == s[i..i + |t|];
    forall k | i + |t| <= k < |s|
      ensures IsJsSpace(s[k])
    {
      assert s[k] == rest[k - i];
    }
    if t != [] {
      var n := TrailingSpaces(rest);
      assert i < |s| && t[0] == rest[0] == s[i];
      assert n < |rest| && t[|t| - 1] == rest[|rest| - n - 1];
    }
  }

  /** Trimming twice is trimming once. */
  lemma TrimIdempotent(s: string)
    ensures Trim(Trim(s)) == Trim(s)
  {
    var t := Trim(s);
    TrimSpec(s);
    if t == [] {
    } else {
      assert LeadingSpaces(t) == 0;
      assert TrailingSpaces(t) == 0;
    }
  }

  // ---------------------------------------------------------------------------
  // The random track colour
  // ---------------------------------------------------------------------------

  /** `Math.floor(Math.random() * 16777215)`: the value the random draw can give. */
  const ColorRange: nat := 16777215

  /** A CSS colour of exactly six hexadecimal digits. */
  predicate IsHexColor6(s: string)
  {
    |s| == 7 && s[0] == '#' && forall i :: 1 <= i < 7 ==> IsDigit(s[i], 16)
  }

  /** The source's colour: `#` and the number in hexadecimal, without padding. */
  function TrackColorAsWritten(r: nat): string
  {
    "#" + ToBase(r, 16)
  }

  /** The colour padded to six digits, as a CSS colour needs. */
  function TrackColor(r: nat): (c: string)
    requires r < ColorRange
    ensures IsHexColor6(c)
  {
    HexDigitsBound(r, 6);
    var h := ToBase(r, 16);
    "#" + Zeros(6 - |h|) + h
  }

  /** A number below 16^k needs at most k hexadecimal digits. */
  lemma {:induction false} HexDigitsBound(n: nat, k: nat)
    requires k >= 1 && n < Pow16(k)
    ensures |ToBase(n, 16)| <= k
    decreases k
  {
    if n >= 16 {
      DivFacts(n, 16);
      assert Pow16(k) == 16 * Pow16(k - 1) && Pow16(0) == 1;
      assert n / 16 < Pow16(k - 1);
      HexDigitsBound(n / 16, k - 1);
    }
  }

  function Pow16(k: nat): (r: nat)
    ensures r >= 1
  {
    if k == 0 then 1 else 16 * Pow16(k - 1)
  }

  /** The padded colour reads back as the drawn number. */
  lemma TrackColorRoundTrip(r: nat)
    requires r < ColorRange
    ensures ParseBase(TrackColor(r)[1..], 16) == r
  {
    HexDigitsBound(r, 6);
    var h := ToBase(r, 16);
    assert TrackColor(r)[1..] == Zeros(6 - |h|) + h;
    ParseLeadingZeros(6 - |h|, h, 16);
    ParseToBase(r, 16);
  }

  /** Both colours agree whenever the draw needs all six digits. */
  lemma TrackColorsAgree(r: nat)
    requires Pow16(5) <= r < ColorRange
    ensures TrackColor(r) == TrackColorAsWritten(r)
  {
    HexDigitsBound(r, 6);
    var h := ToBase(r, 16);
    if |h| < 6 {
      HexDigitsAtLeast(r, |h|);
    }
    assert Zeros(0) == "";
  }

  /** A number with k hexadecimal digits is below 16^k. */
  lemma {:induction false} HexDigitsAtLeast(n: nat, k: nat)
    requires |ToBase(n, 16)| <= k
    ensures n < Pow16(k)
    decreases n
  {
    if n >= 16 {
      DivFacts(n, 16);
      HexDigitsAtLeast(n / 16, k - 1);
    } else {
      assert Pow16(k) == 16 * Pow16(k - 1);
    }
  }

  /** Every draw below 16^5 gives the source's colour five digits or fewer, which is
      not a six-digit colour. */
  lemma TrackColorAsWrittenShort(r: nat)
    requires r < Pow16(5)
    ensures !IsHexColor6(TrackColorAsWritten(r))
  {
    HexDigitsBound(r, 5);
  }

  /** For instance the draw 0xABCDE gives `#abcde` as written and `#0abcde` padded. */
  lemma TrackColorAsWrittenExample()
    ensures TrackColorAsWritten(0xABCDE) == "#abcde"
    ensures TrackColor(0xABCDE) == "#0abcde"
    ensures !IsHexColor6(TrackColorAsWritten(0xABCDE))
    ensures IsHexColor6(TrackColor(0xABCDE))
  {
    assert 0xABCDE / 16 == 0xABCD && 0xABCDE % 16 == 0xE;
    assert 0xABCD / 16 == 0xABC && 0xABCD % 16 == 0xD;
    assert 0xABC / 16 == 0xAB && 0xABC % 16 == 0xC;
    assert 0xAB / 16 == 0xA && 0xAB % 16 == 0xB;
    assert ToBase(0xABCDE, 16) == "abcde";
    TrackColorAsWrittenShort(0xABCDE);
  }

  // ---------------------------------------------------------------------------
  // The recorder
  // ---------------------------------------------------------------------------

  /** The track being recorded: its name, the positions so far and its colour. */
  datatype Draft = Draft(name: string, coordinates: seq<Position>, color: string)

  /** The queued record for a draft saved offline. */
  function QueuedTrack(d: Draft, offlineId: string, timestamp: string): OfflineTrack
  {
    OfflineTrack(offlineId, d.name, d.coordinates, d.color, timestamp)
  }

  /** The positions a fix contributes: the fix itself, or none when there is none. */
  function FixPoints(fix: Option<Position>): (r: seq<Position>)
    ensures fix.Some? ==> r == [fix.value]
    ensures fix.None? ==> r == []
  {
    if fix.Some? then [fix.value] else []
  }

  class Recorder {
    var isRecording: bool
    var currentTrack: Option<Draft>
    var trackName: string
    var online: bool
    /** The geolocation hook's `position`: the last fix it received, kept until the
        next one. */
    var lastPosition: Option<Position>
    const store: OfflineStore

    /** A recording always has a draft, and a draft always has a trimmed, non-blank
        name and a six-digit colour. */
    ghost predicate Valid()
      reads this
    {
      && (isRecording ==> currentTrack.Some?)
      && (currentTrack.Some? ==>
            var d := currentTrack.value;
            d.name != [] && Trim(d.name) == d.name && IsHexColor6(d.color))
    }

    constructor (store: OfflineStore, navigatorOnline: bool)
      ensures this.store == store && online == navigatorOnline
      ensures !isRecording && currentTrack.None? && trackName == "" && lastPosition.None?
      ensures Valid()
    {
      this.store := store;
      online := navigatorOnline;
      lastPosition := None;
      isRecording := false;
      currentTrack := None;
      trackName := "";
    }

    method SetTrackName(name: string)
      modifies this
      requires Valid()
      ensures trackName == name
      ensures isRecording == old(isRecording) && currentTrack == old(currentTrack) && online == old(online)
      ensures lastPosition == old(lastPosition)
      ensures Valid()
    {
      trackName := name;
    }

    method SetOnline(isOnline: bool)
      modifies this
      requires Valid()
      ensures online == isOnline
      ensures isRecording == old(isRecording) && currentTrack == old(currentTrack)
      ensures trackName == old(trackName) && lastPosition == old(lastPosition)
      ensures Valid()
    {
      online := isOnline;
    }

    /** A fresh draft named after the trimmed name field. */
    function NewDraft(coordinates: seq<Position>, colorDraw: nat): (d: Draft)
      requires colorDraw < ColorRange
      reads this
      ensures d.name == Trim(trackName) && d.coordinates == coordinates
      ensures IsHexColor6(d.color)
    {
      Draft(Trim(trackName), coordinates, TrackColor(colorDraw))
    }

    /** startRecording: a blank name is refused; otherwise an empty draft named after
        the trimmed name starts recording. When the recording flag goes up, the waypoint
        effect runs at once and appends the last known position, if there is one. */
    method StartRecording(colorDraw: nat) returns (started: bool)
      requires colorDraw < ColorRange
      requires Valid()
      modifies this
      ensures started <==> !Blank(trackName)
      ensures started && !old(isRecording) ==> currentTrack == Some(NewDraft(FixPoints(lastPosition), colorDraw))
      ensures started && old(isRecording) ==> currentTrack == Some(NewDraft([], colorDraw))
      ensures started ==> isRecording
      ensures !started ==> isRecording == old(isRecording) && currentTrack == old(currentTrack)
      ensures trackName == old(trackName) && online == old(online) && lastPosition == old(lastPosition)
      ensures Valid()
    {
      TrimSpec(trackName);
      if Trim(trackName) == [] {
        return false;
      }
      TrimIdempotent(trackName);
      var wasRecording := isRecording;
      currentTrack := Some(NewDraft([], colorDraw));
      isRecording := true;
      if !wasRecording {
        WaypointEffect();
        assert [] + FixPoints(lastPosition) == FixPoints(lastPosition);
      }
      started := true;
    }

    /** The waypoint effect, run when `position` or `isRecording` changed: while
        recording, the last known position is appended to the draft. */
    method WaypointEffect()
      requires Valid()
      modifies this
      ensures if old(isRecording) && old(lastPosition).Some? then
                currentTrack == Some(old(currentTrack).value.(coordinates :=
                                       old(currentTrack).value.coordinates + [old(lastPosition).value]))
              else currentTrack == old(currentTrack)
      ensures isRecording == old(isRecording) && trackName == old(trackName) && online == old(online)
      ensures lastPosition == old(lastPosition)
      ensures Valid()
    {
      if isRecording && lastPosition.Some? && currentTrack.Some? {
        var d := currentTrack.value;
        currentTrack := Some(d.(coordinates := d.coordinates + [lastPosition.value]));
      }
    }

    /** stopRecording: only the recording flag changes; the positions stay. */
    method StopRecording()
      requires Valid()
      modifies this
      ensures !isRecording
      ensures currentTrack == old(currentTrack) && trackName == old(trackName) && online == old(online)
      ensures lastPosition == old(lastPosition)
      ensures Valid()
    {
      isRecording := false;
    }

    /** A fix from the watch: the hook keeps it as its position, and the waypoint effect
        appends it while recording. */
    method OnPosition(fix: Position)
      requires Valid()
      modifies this
      ensures lastPosition == Some(fix)
      ensures if old(isRecording) then
                currentTrack == Some(old(currentTrack).value.(coordinates :=
                                       old(currentTrack).value.coordinates + [fix]))
              else currentTrack == old(currentTrack)
      ensures isRecording == old(isRecording) && trackName == old(trackName) && online == old(online)
      ensures Valid()
    {
      lastPosition := Some(fix);
      WaypointEffect();
    }

    /** addWaypoint: with no position nothing changes; with no draft a non-blank name
        starts a draft holding just this position; otherwise it is appended. The fix
        also becomes the hook's position, so while recording the waypoint effect appends
        it as well and the draft gains it twice. */
    method AddWaypoint(position: Option<Position>, colorDraw: nat) returns (added: bool)
      requires colorDraw < ColorRange
      requires Valid()
      modifies this
      ensures added <==> position.Some? && (old(currentTrack).Some? || !Blank(trackName))
      ensures lastPosition == if position.Some? then position else old(lastPosition)
      ensures added && old(currentTrack).None? ==> currentTrack == Some(NewDraft([position.value], colorDraw))
      ensures added && old(currentTrack).Some? && !old(isRecording) ==>
                currentTrack == Some(old(currentTrack).value.(coordinates :=
                                       old(currentTrack).value.coordinates + [position.value]))
      ensures added && old(isRecording) ==>
                currentTrack == Some(old(currentTrack).value.(coordinates :=
                                       old(currentTrack).value.coordinates + [position.value, position.value]))
      ensures !added ==> currentTrack == old(currentTrack)
      ensures isRecording == old(isRecording) && trackName == old(trackName) && online == old(online)
      ensures Valid()
    {
      if position.None? {
        return false;
      }
      lastPosition := position;
      WaypointEffect();
      if currentTrack.None? {
        TrimSpec(trackName);
        if Trim(trackName) == [] {
          return false;
        }
        TrimIdempotent(trackName);
        currentTrack := Some(NewDraft([position.value], colorDraw));
      } else {
        var d := currentTrack.value;
        currentTrack := Some(d.(coordinates := d.coordinates + [position.value]));
        assert old(isRecording) ==>
                 d.coordinates + [position.value] == old(currentTrack).value.coordinates + [position.value, position.value];
      }
      added := true;
    }

    /** Whether saveTrack gets past its guard. */
    predicate CanSave(userId: Option<string>)
      reads this
    {
      currentTrack.Some? && |currentTrack.value.coordinates| > 0 && userId.Some?
    }

    /** saveTrack: online, one insert and nothing queued; offline, exactly one queued
        record and no remote call. A success clears the draft, the name and the
        recording flag; a failed insert leaves all three as they were. */
    method SaveTrack(userId: Option<string>, backend: Backend, offlineId: string, timestamp: string)
      returns (calls: seq<Call>, saved: bool)
      requires Valid()
      modifies this, store
      ensures !old(CanSave(userId)) ==> calls == [] && !saved
      ensures old(CanSave(userId)) && old(online) ==>
                var d := old(currentTrack).value;
                var row := TrackRow(userId.value, d.name, d.coordinates, d.color);
                calls == [InsertTrack(row)] && saved == backend.insertTrack(row)
      ensures old(CanSave(userId)) && !old(online) ==> calls == [] && saved
      ensures old(CanSave(userId)) && !old(online) ==>
                store.offlineTracks == old(store.offlineTracks) + [QueuedTrack(old(currentTrack).value, offlineId, timestamp)] &&
                store.localStorage == old(store.localStorage)[TracksKey := TrackList(store.offlineTracks)]
      ensures old(online) || !old(CanSave(userId)) ==>
                store.Contents() == old(store.Contents()) && store.localStorage == old(store.localStorage)
      ensures store.offlinePhotos == old(store.offlinePhotos)
      ensures store.offlineWeedPatches == old(store.offlineWeedPatches)
      ensures old(store.Mirrored()) ==> store.Mirrored()
      ensures saved ==> currentTrack.None? && trackName == "" && !isRecording
      ensures !saved ==> currentTrack == old(currentTrack) && trackName == old(trackName) &&
                         isRecording == old(isRecording)
      ensures online == old(online) && lastPosition == old(lastPosition)
      ensures Valid()
    {
      if currentTrack.None? || |currentTrack.value.coordinates| == 0 || userId.None? {
        return [], false;
      }
      var d := currentTrack.value;
      if online {
        var row := TrackRow(userId.value, d.name, d.coordinates, d.color);
        calls := [InsertTrack(row)];
        saved := backend.insertTrack(row);
        if !saved {
          return;
        }
      } else {
        store.SaveOfflineTrack(QueuedTrack(d, offlineId, timestamp));
        calls := [];
        saved := true;
      }
      currentTrack := None;
      trackName := "";
      isRecording := false;
    }

    /** cancelTrack: the draft, the name and the recording flag are cleared. */
    method CancelTrack()
      requires Valid()
      modifies this
      ensures currentTrack.None? && trackName == "" && !isRecording && online == old(online)
      ensures lastPosition == old(lastPosition)
      ensures Valid()
    {
      currentTrack := None;
      trackName := "";
      isRecording := false;
    }
  }
}
