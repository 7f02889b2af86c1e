/** Taking a photo in src/components/tabs/PhotosTab.tsx: the upload to the media CDN
    and the insert of its row when online, or one queued record when offline; and
    who may delete a photo. The file picker, the gallery and loading the list of
    photos are outside the model; the file, the position and the user are inputs. */
module PhotosTab {
  import opened Common
  import opened Types
  import opened Remote
  import opened OfflineStorage
  import OfflineSync

  /** The record an offline upload queues. */
  function QueuedPhoto(file: PhotoFile, position: Position, offlineId: string, timestamp: string)
    : (p: OfflinePhoto)
    ensures p.file == file && p.lat == position.lat && p.lng == position.lng
    ensures p.id == offlineId && p.timestamp == timestamp
  {
    OfflinePhoto(offlineId, file, position.lat, position.lng, timestamp)
  }

  /** The delete control is shown to the photo's owner only. */
  function CanDeletePhoto(userId: Option<string>, photo: Photo): (r: bool)
    ensures r <==> userId == Some(photo.userId)
  {
    userId.Some? && userId.value == photo.userId
  }

  /** deletePhoto: the photo's id goes to the backend only after confirmation. */
  function DeletePhoto(id: string, confirmed: bool): (r: Option<string>)
    ensures r.Some? <==> confirmed
    ensures r.Some? ==> r.value == id
  {
    if confirmed then Some(id) else None
  }

  class PhotoUploader {
    var online: bool
    const store: OfflineStore

    constructor (store: OfflineStore, navigatorOnline: bool)
      ensures this.store == store && online == navigatorOnline
    {
      this.store := store;
      online := navigatorOnline;
    }

    method SetOnline(isOnline: bool)
      modifies this
      ensures online == isOnline
    {
      online := isOnline;
    }

    /** handlePhotoUpload: without a user or a position nothing happens. Online, the
        file is uploaded first and its row inserted only when the upload answered,
        exactly the calls the sync would make for the same photo queued; offline,
        exactly one record is queued and no remote call is made. */
    method HandlePhotoUpload(file: PhotoFile, userId: Option<string>, position: Option<Position>,
                             cloudName: string, backend: Backend, offlineId: string, timestamp: string)
      returns (calls: seq<Call>, ok: bool)
      modifies store
      ensures userId.None? || position.None? ==> calls == [] && !ok
      ensures userId.Some? && position.Some? && online ==>
                var queued := QueuedPhoto(file, position.value, offlineId, timestamp);
                OfflineSync.Attempt(calls, ok) == OfflineSync.PhotoAttempt(userId.value, cloudName, backend, queued)
      ensures userId.Some? && position.Some? && online ==>
                calls[0] == Upload(file) &&
                match backend.upload(file)
                case None => calls == [Upload(file)] && !ok
                case Some(r) =>
                  var row := PhotoRowFor(userId.value, cloudName, r, position.value.lat, position.value.lng);
                  calls == [Upload(file), InsertPhoto(row)] && ok == backend.insertPhoto(row)
      ensures userId.Some? && position.Some? && !online ==>
                calls == [] && ok &&
                store.offlinePhotos == old(store.offlinePhotos) + [QueuedPhoto(file, position.value, offlineId, timestamp)] &&
                store.localStorage == old(store.localStorage)[PhotosKey := PhotoList(store.offlinePhotos)]
      ensures online || userId.None? || position.None? ==>
                store.Contents() == old(store.Contents()) && store.localStorage == old(store.localStorage)
      ensures store.offlineTracks == old(store.offlineTracks)
      ensures store.offlineWeedPatches == old(store.offlineWeedPatches)
      ensures old(store.Mirrored()) ==> store.Mirrored()
    {
      if userId.None? || position.None? {
        return [], false;
      }
      var pos := position.value;
      if online {
        var response := backend.upload(file);
        calls := [Upload(file)];
        if response.None? {
          return calls, false;
        }
        var row := PhotoRowFor(userId.value, cloudName, response.value, pos.lat, pos.lng);
        calls := calls + [InsertPhoto(row)];
        ok := backend.insertPhoto(row);
      } else {
        store.SaveOfflinePhoto(QueuedPhoto(file, pos, offlineId, timestamp));
        calls := [];
        ok := true;
      }
    }
  }

  /** The thumbnail stored with an uploaded photo names the public id the CDN answered. */
  lemma InsertedThumbnailNamesUpload(userId: string, cloudName: string, r: UploadResponse, lat: real, lng: real)
    ensures var row := PhotoRowFor(userId, cloudName, r, lat, lng);
            ThumbnailPublicId(cloudName, row.thumbnailUrl) == Some(r.publicId) &&
            row.cloudinaryUrl == r.secureUrl && row.lat == lat && row.lng == lng
  {
    ThumbnailRoundTrip(cloudName, r.publicId);
  }
}
