/** What the app sends to its hosted backend and media CDN, and the answers it gets
    back. The services themselves are outside the model: each call's outcome is an
    input (an oracle), and every call made is recorded in a log. */
module Remote {
  import opened Common
  import opened Types

  /** A picture file chosen by the user; its bytes are not modelled. */
  datatype PhotoFile = PhotoFile(name: string)

  /** The media CDN's answer to an upload. */
  datatype UploadResponse = UploadResponse(secureUrl: string, publicId: string)

  /** The rows inserted into the `photos`, `tracks` and `weed_patches` tables. */
  datatype PhotoRow = PhotoRow(userId: string, cloudinaryUrl: string, thumbnailUrl: string,
                               lat: real, lng: real)
  datatype TrackRow = TrackRow(userId: string, name: string, coordinates: seq<Position>,
                               color: string)
  datatype PatchRow = PatchRow(userId: string, centerLat: real, centerLng: real,
                               diameter: real, species: string, status: Status,
                               color: string, notes: Option<string>)

  /** The outcome of every remote call: an upload yields a response or nothing
      (the CDN helper answers null on any failure), an insert succeeds or fails. */
  datatype Backend = Backend(upload: PhotoFile -> Option<UploadResponse>,
                             insertPhoto: PhotoRow -> bool,
                             insertTrack: TrackRow -> bool,
                             insertPatch: PatchRow -> bool)

  datatype Call = Upload(file: PhotoFile)
                | InsertPhoto(photo: PhotoRow)
                | InsertTrack(track: TrackRow)
                | InsertPatch(patch: PatchRow)

  const ThumbnailPrefix: string := "https://res.cloudinary.com/"
  const ThumbnailPath: string := "/image/upload/w_150,h_150,c_fill/"

  /** The 150x150 cropped rendition of an uploaded image. */
  function ThumbnailUrl(cloudName: string, publicId: string): string
  {
    ThumbnailPrefix + cloudName + ThumbnailPath + publicId
  }

  /** Reads the public identifier back out of a thumbnail address of `cloudName`. */
  function ThumbnailPublicId(cloudName: string, url: string): Option<string>
  {
    var head := ThumbnailPrefix + cloudName + ThumbnailPath;
    if |head| <= |url| && url[..|head|] == head then Some(url[|head|..]) else None
  }

  lemma ThumbnailRoundTrip(cloudName: string, publicId: string)
    ensures ThumbnailPublicId(cloudName, ThumbnailUrl(cloudName, publicId)) == Some(publicId)
  {
    var head := ThumbnailPrefix + cloudName + ThumbnailPath;
    var url := ThumbnailUrl(cloudName, publicId);
    assert url == head + publicId;
    assert url[..|head|] == head;
    assert url[|head|..] == publicId;
  }

  /** The row inserted for an uploaded photo taken at (lat, lng). */
  function PhotoRowFor(userId: string, cloudName: string, r: UploadResponse, lat: real, lng: real): PhotoRow
  {
    PhotoRow(userId, r.secureUrl, ThumbnailUrl(cloudName, r.publicId), lat, lng)
  }
}
