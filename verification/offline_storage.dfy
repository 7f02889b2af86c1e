/** The offline queue store of src/hooks/useOfflineStorage.ts: three lists of records
    captured while offline, each mirrored into its own local-storage key. */
module OfflineStorage {
  import opened Common
  import opened Types
  import opened Remote

  datatype OfflinePhoto = OfflinePhoto(id: string, file: PhotoFile, lat: real, lng: real,
                                       timestamp: string)

  datatype OfflineTrack = OfflineTrack(id: string, name: string, coordinates: seq<Position>,
                                       color: string, timestamp: string)

  datatype OfflineWeedPatch = OfflineWeedPatch(id: string, centerLat: real, centerLng: real,
                                               diameter: real, species: string, status: Status,
                                               notes: Option<string>, timestamp: string)

  function PhotoId(p: OfflinePhoto): string { p.id }
  function TrackId(t: OfflineTrack): string { t.id }
  function PatchId(w: OfflineWeedPatch): string { w.id }

  /** What a local-storage slot holds once its JSON text is parsed; `Unparsable`
      stands for text on which JSON.parse throws. */
  datatype Stored = PhotoList(photos: seq<OfflinePhoto>)
                  | TrackList(tracks: seq<OfflineTrack>)
                  | PatchList(patches: seq<OfflineWeedPatch>)
                  | Unparsable

  const PhotosKey: string := "offline_photos"
  const TracksKey: string := "offline_tracks"
  const PatchesKey: string := "offline_weed_patches"

  datatype Queues = Queues(photos: seq<OfflinePhoto>, tracks: seq<OfflineTrack>,
                           patches: seq<OfflineWeedPatch>)

  // ---------------------------------------------------------------------------
  // Removing by id
  // ---------------------------------------------------------------------------

  /** `list.filter(r => r.id !== id)`. */
  function WithoutId<T>(s: seq<T>, idOf: T -> string, id: string): seq<T>
    decreases |s|
  {
    if s == [] then []
    else if idOf(s[0]) == id then WithoutId(s[1..], idOf, id)
    else [s[0]] + WithoutId(s[1..], idOf, id)
  }

  lemma {:induction false} WithoutIdIsFilter<T(!new)>(s: seq<T>, idOf: T -> string, id: string)
    ensures WithoutId(s, idOf, id) == Filter(s, x => idOf(x) != id)
    decreases |s|
  {
    if s != [] {
      WithoutIdIsFilter(s[1..], idOf, id);
    }
  }

  /** The records whose id is not in `ids`, in their original order. */
  function WithoutIds<T(==,!new)>(s: seq<T>, idOf: T -> string, ids: set<string>): seq<T>
  {
    Filter(s, x => idOf(x) !in ids)
  }

  function IdsOf<T>(s: seq<T>, idOf: T -> string): set<string>
  {
    set i | 0 <= i < |s| :: idOf(s[i])
  }

  ghost predicate DistinctIds<T>(s: seq<T>, idOf: T -> string)
  {
    forall i, j :: 0 <= i < j < |s| ==> idOf(s[i]) != idOf(s[j])
  }

  /** Removing an id drops every record with that id, keeps every other record with
      its multiplicity, and keeps their order. */
  lemma WithoutIdSpec<T(!new)>(s: seq<T>, idOf: T -> string, id: string)
    ensures IsSubsequence(WithoutId(s, idOf, id), s)
    ensures forall x :: x in WithoutId(s, idOf, id) ==> idOf(x) != id
    ensures forall x :: idOf(x) != id ==> multiset(WithoutId(s, idOf, id))[x] == multiset(s)[x]
  {
    WithoutIdIsFilter(s, idOf, id);
    FilterSubsequence(s, x => idOf(x) != id);
    FilterMembers(s, x => idOf(x) != id);
  }

  /** Removing an id that is not queued changes nothing. */
  lemma WithoutAbsentId<T(!new)>(s: seq<T>, idOf: T -> string, id: string)
    requires id !in IdsOf(s, idOf)
    ensures WithoutId(s, idOf, id) == s
  {
    forall i | 0 <= i < |s| ensures idOf(s[i]) != id {
      assert idOf(s[i]) in IdsOf(s, idOf);
    }
    WithoutIdIsFilter(s, idOf, id);
    FilterKeepsAll(s, x => idOf(x) != id);
  }

  /** Removing the same id twice is removing it once. */
  lemma WithoutIdTwice<T(!new)>(s: seq<T>, idOf: T -> string, id: string)
    ensures WithoutId(WithoutId(s, idOf, id), idOf, id) == WithoutId(s, idOf, id)
  {
    var k := x => idOf(x) != id;
    WithoutIdIsFilter(s, idOf, id);
    WithoutIdIsFilter(WithoutId(s, idOf, id), idOf, id);
    FilterCompose(s, k, k, k);
  }

  /** Saving a record with a fresh id and then removing that id gives back the list. */
  lemma SaveThenRemove<T(!new)>(s: seq<T>, idOf: T -> string, r: T)
    requires idOf(r) !in IdsOf(s, idOf)
    ensures WithoutId(s + [r], idOf, idOf(r)) == s
  {
    var k := x => idOf(x) != idOf(r);
    WithoutIdIsFilter(s + [r], idOf, idOf(r));
    WithoutIdIsFilter(s, idOf, idOf(r));
    FilterAppend(s, [r], k);
    WithoutAbsentId(s, idOf, idOf(r));
    assert Filter([r], k) == [];
  }

  /** Removing one more id extends the set of removed ids. */
  lemma WithoutIdsStep<T(!new)>(s: seq<T>, idOf: T -> string, ids: set<string>, id: string)
    ensures WithoutId(WithoutIds(s, idOf, ids), idOf, id) == WithoutIds(s, idOf, ids + {id})
  {
    WithoutIdIsFilter(WithoutIds(s, idOf, ids), idOf, id);
    FilterCompose(s, x => idOf(x) !in ids, x => idOf(x) != id, x => idOf(x) !in ids + {id});
  }

  lemma WithoutNoIds<T(!new)>(s: seq<T>, idOf: T -> string)
    ensures WithoutIds(s, idOf, {}) == s
  {
    var ids: set<string> := {};
    FilterKeepsAll(s, x => idOf(x) !in ids);
  }

  /** With distinct ids, removing the ids of the first k records leaves the rest. */
  lemma WithoutPrefixIds<T(!new)>(s: seq<T>, idOf: T -> string, k: nat)
    requires k <= |s| && DistinctIds(s, idOf)
    ensures WithoutIds(s, idOf, IdsOf(s[..k], idOf)) == s[k..]
  {
    var ids := IdsOf(s[..k], idOf);
    var keep := x => idOf(x) !in ids;
    assert s == s[..k] + s[k..];
    FilterAppend(s[..k], s[k..], keep);
    forall i | 0 <= i < k ensures !keep(s[..k][i]) {
      assert idOf(s[..k][i]) in ids;
    }
    FilterDropsAll(s[..k], keep);
    assert forall i :: 0 <= i < |s[k..]| ==> keep(s[k..][i]);
    FilterKeepsAll(s[k..], keep);
  }

  // ---------------------------------------------------------------------------
  // Loading
  // ---------------------------------------------------------------------------

  /** `JSON.parse(localStorage.getItem(key) || '[]')` for each kind: a missing key
      reads as the empty list, a slot of another shape fails to parse. */
  function ReadPhotos(storage: map<string, Stored>): Option<seq<OfflinePhoto>>
  {
    if PhotosKey !in storage then Some([])
    else match storage[PhotosKey]
      case PhotoList(l) => Some(l)
      case _ => None
  }

  function ReadTracks(storage: map<string, Stored>): Option<seq<OfflineTrack>>
  {
    if TracksKey !in storage then Some([])
    else match storage[TracksKey]
      case TrackList(l) => Some(l)
      case _ => None
  }

  function ReadPatches(storage: map<string, Stored>): Option<seq<OfflineWeedPatch>>
  {
    if PatchesKey !in storage then Some([])
    else match storage[PatchesKey]
      case PatchList(l) => Some(l)
      case _ => None
  }

  /** loadOfflineData parses all three slots before it sets anything, so one bad
      slot leaves every list as it was. */
  function Loaded(storage: map<string, Stored>): Option<Queues>
  {
    match (ReadPhotos(storage), ReadTracks(storage), ReadPatches(storage))
    case (Some(p), Some(t), Some(w)) => Some(Queues(p, t, w))
    case _ => None
  }

  /** Every slot holds exactly its list, or is absent and the list is empty. */
  ghost predicate Mirrors(storage: map<string, Stored>, q: Queues)
  {
    && (if PhotosKey in storage then storage[PhotosKey] == PhotoList(q.photos) else q.photos == [])
    && (if TracksKey in storage then storage[TracksKey] == TrackList(q.tracks) else q.tracks == [])
    && (if PatchesKey in storage then storage[PatchesKey] == PatchList(q.patches) else q.patches == [])
  }

  /** What is mirrored is what a reload gives back. */
  lemma ReloadRestores(storage: map<string, Stored>, q: Queues)
    requires Mirrors(storage, q)
    ensures Loaded(storage) == Some(q)
  {
  }

  /** After the three keys are removed, a reload gives three empty lists. */
  lemma LoadAfterClear(storage: map<string, Stored>)
    ensures Loaded(storage - {PhotosKey, TracksKey, PatchesKey}) == Some(Queues([], [], []))
  {
  }

  // ---------------------------------------------------------------------------
  // The store
  // ---------------------------------------------------------------------------

  /** One store object; the source gives every component its own copy of this state,
      synchronised only through local storage when the copy is mounted. */
  class OfflineStore {
    var offlinePhotos: seq<OfflinePhoto>
    var offlineTracks: seq<OfflineTrack>
    var offlineWeedPatches: seq<OfflineWeedPatch>
    /** The browser's local storage, as parsed slots; other keys belong to others. */
    var localStorage: map<string, Stored>

    function Contents(): Queues
      reads this
    {
      Queues(offlinePhotos, offlineTracks, offlineWeedPatches)
    }

    ghost predicate Mirrored()
      reads this
    {
      Mirrors(localStorage, Contents())
    }

    /** Mounting: the lists start empty and loadOfflineData runs once. */
    constructor (storage: map<string, Stored>)
      ensures localStorage == storage
      ensures Contents() == match Loaded(storage)
                            case Some(q) => q
                            case None => Queues([], [], [])
    {
      localStorage := storage;
      match Loaded(storage)
      case Some(q) =>
        offlinePhotos, offlineTracks, offlineWeedPatches := q.photos, q.tracks, q.patches;
      case None =>
        offlinePhotos, offlineTracks, offlineWeedPatches := [], [], [];
    }

    method LoadOfflineData()
      modifies this
      ensures localStorage == old(localStorage)
      ensures Contents() == match Loaded(localStorage)
                            case Some(q) => q
                            case None => old(Contents())
    {
      match Loaded(localStorage)
      case Some(q) =>
        offlinePhotos, offlineTracks, offlineWeedPatches := q.photos, q.tracks, q.patches;
      case None =>
    }

    method SaveOfflinePhoto(photo: OfflinePhoto)
      modifies this
      ensures offlinePhotos == old(offlinePhotos) + [photo]
      ensures offlineTracks == old(offlineTracks) && offlineWeedPatches == old(offlineWeedPatches)
      ensures localStorage == old(localStorage)[PhotosKey := PhotoList(offlinePhotos)]
      ensures old(Mirrored()) ==> Mirrored()
    {
      offlinePhotos := offlinePhotos + [photo];
      localStorage := localStorage[PhotosKey := PhotoList(offlinePhotos)];
    }

    method SaveOfflineTrack(track: OfflineTrack)
      modifies this
      ensures offlineTracks == old(offlineTracks) + [track]
      ensures offlinePhotos == old(offlinePhotos) && offlineWeedPatches == old(offlineWeedPatches)
      ensures localStorage == old(localStorage)[TracksKey := TrackList(offlineTracks)]
      ensures old(Mirrored()) ==> Mirrored()
    {
      offlineTracks := offlineTracks + [track];
      localStorage := localStorage[TracksKey := TrackList(offlineTracks)];
    }

    method SaveOfflineWeedPatch(patch: OfflineWeedPatch)
      modifies this
      ensures offlineWeedPatches == old(offlineWeedPatches) + [patch]
      ensures offlinePhotos == old(offlinePhotos) && offlineTracks == old(offlineTracks)
      ensures localStorage == old(localStorage)[PatchesKey := PatchList(offlineWeedPatches)]
      ensures old(Mirrored()) ==> Mirrored()
    {
      offlineWeedPatches := offlineWeedPatches + [patch];
      localStorage := localStorage[PatchesKey := PatchList(offlineWeedPatches)];
    }

    method RemoveOfflinePhoto(id: string)
      modifies this
      ensures offlinePhotos == WithoutId(old(offlinePhotos), PhotoId, id)
      ensures offlineTracks == old(offlineTracks) && offlineWeedPatches == old(offlineWeedPatches)
      ensures localStorage == old(localStorage)[PhotosKey := PhotoList(offlinePhotos)]
      ensures old(Mirrored()) ==> Mirrored()
    {
      offlinePhotos := WithoutId(offlinePhotos, PhotoId, id);
      localStorage := localStorage[PhotosKey := PhotoList(offlinePhotos)];
    }

    method RemoveOfflineTrack(id: string)
      modifies this
      ensures offlineTracks == WithoutId(old(offlineTracks), TrackId, id)
      ensures offlinePhotos == old(offlinePhotos) && offlineWeedPatches == old(offlineWeedPatches)
      ensures localStorage == old(localStorage)[TracksKey := TrackList(offlineTracks)]
      ensures old(Mirrored()) ==> Mirrored()
    {
      offlineTracks := WithoutId(offlineTracks, TrackId, id);
      localStorage := localStorage[TracksKey := TrackList(offlineTracks)];
    }

    method RemoveOfflineWeedPatch(id: string)
      modifies this
      ensures offlineWeedPatches == WithoutId(old(offlineWeedPatches), PatchId, id)
      ensures offlinePhotos == old(offlinePhotos) && offlineTracks == old(offlineTracks)
      ensures localStorage == old(localStorage)[PatchesKey := PatchList(offlineWeedPatches)]
      ensures old(Mirrored()) ==> Mirrored()
    {
      offlineWeedPatches := WithoutId(offlineWeedPatches, PatchId, id);
      localStorage := localStorage[PatchesKey := PatchList(offlineWeedPatches)];
    }

    method ClearAllOfflineData()
      modifies this
      ensures Contents() == Queues([], [], [])
      ensures localStorage == old(localStorage) - {PhotosKey, TracksKey, PatchesKey}
      ensures Mirrored() && !HasOfflineData()
    {
      offlinePhotos, offlineTracks, offlineWeedPatches := [], [], [];
      localStorage := localStorage - {PhotosKey, TracksKey, PatchesKey};
    }

    /** Whether any record waits to be uploaded. */
    function HasOfflineData(): (r: bool)
      reads this
      ensures r <==> Contents() != Queues([], [], [])
    {
      |offlinePhotos| > 0 || |offlineTracks| > 0 || |offlineWeedPatches| > 0
    }
  }
}
