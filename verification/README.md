# Dalmore Reserve field app — a verified model of its core

The Dalmore Reserve management app is a mobile web app. Volunteers use it to record
GPS tracks, weed patches and photos on the reserve. It works offline:

- records captured without a connection are queued in the browser's local storage;
- the queue is replayed against the hosted backend when the connection returns;
- a service worker answers requests from its caches and pre-caches the map tiles of
  the reserve.

This project models the parts of the app that make decisions, in Dafny, and proves
what they promise:

- the offline queue store (`OfflineStorage`), a class over three lists mirrored
  into one storage slot per kind;
- the sync run (`OfflineSync`): photos, then tracks, then weed patches, each in
  queue order, removing an item only after its insert succeeded and stopping at the
  first failure. The backend is an oracle argument (`Remote.Backend`);
- the capture screens:
  - track recording (`TracksTab.Recorder`);
  - the weed-patch form (`WeedsTab.WeedForm`);
  - photo upload (`PhotosTab.PhotoUploader`);

  each with its validation guard, its online/offline branch and its draft reset;
- the species colour hash with ECMAScript's 32-bit `<<` (`Types`);
- the map's species filter and toggles (`WeedPatchLayer`, `DalmoreMap`);
- the per-species count (`LayerControls`);
- the GPS accuracy bands (`GpsAccuracy`);
- the administrator's GPX and CSV exports and the user-management guards
  (`AdminTab`);
- the service worker (`ServiceWorker`, with `TilePlan` for the tile list):
  - request routing;
  - the cache-first and network-first handlers;
  - cache clean-up on activation;
  - tile enumeration and batched pre-caching.

Every service the app talks to is an argument of the model:

- the backend;
- the media CDN;
- the tile server;
- the clock;
- the random draws;
- the geolocation API.

Numbers are `real` where they are coordinates or accuracies, and `nat` where the
source only ever has integers (tile indices, counts).

## Model

| member | source | states |
|---|---|---|
| Common.Contains | public/sw.js:84-86 | `String.prototype.includes`: true exactly when the needle occurs at some position of the text |
| Common.ToBase | src/components/tabs/TracksTab.tsx:81 | `Number.prototype.toString(base)` of a natural number: at least one digit, every character a digit of the base, no leading zero |
| Common.ParseToBase | src/types/index.ts:124 | reading back the digits written by `ToBase` gives the number, so the text is a faithful rendering |
| Common.DecimalInjective | public/sw.js:204 | two different numbers never print to the same decimal text |
| Common.FilterSubsequence | src/hooks/useOfflineStorage.ts:79 | `Array.prototype.filter` only deletes: its result is a subsequence of its input |
| Common.FilterMembers | src/components/map/WeedPatchLayer.tsx:57 | a filter keeps every occurrence of a kept element and none of a dropped one; an element is in the result iff it is in the input and kept |
| Types.MapZoomWithinLimits | src/types/index.ts:77-79 | the initial zoom 17 lies within the limits 16 and 20 |
| Types.WeedSpeciesList | src/types/index.ts:96-107 | ten species names, pairwise distinct, "Unknown" first |
| Types.ToInt32 | src/types/index.ts:119 | ECMAScript ToInt32: the result is in [-2^31, 2^31), congruent to the input modulo 2^32, and equal to the input when it already fits |
| Types.Hue | src/types/index.ts:123 | `Math.abs(hash) % 360` is a hue in [0, 360) |
| Types.GetSpeciesColor | src/types/index.ts:112-125 | the character loop of `getSpeciesColor` returns exactly `SpeciesColor`: the fixed blue for "Unknown", otherwise `hsl(` + hue + `, 65%, 45%)` of the folded hash |
| Types.SpeciesColorOfUnknown | src/types/index.ts:114 | "Unknown" is coloured `#3B82F6` |
| Types.SpeciesColorShape | src/types/index.ts:123-124 | every other name is coloured `hsl(H, 65%, 45%)` for some decimal H with 0 <= H < 360 |
| Types.HueReadBack | src/types/index.ts:123-124 | the hue can be parsed back out of the colour text and equals the hash's hue |
| Types.SpeciesColorOfEmpty | src/types/index.ts:117-124 | the empty name hashes to 0 and is coloured `hsl(0, 65%, 45%)` |
| Types.HashBound | src/types/index.ts:117-120 | each character moves the hash by at most 2^31 + 0x110000 |
| Types.HashIsExactInDoubles | src/types/index.ts:117-120 | for names shorter than 2^21 characters the hash stays below 2^53, so the source's double arithmetic computes it exactly |
| Remote.ThumbnailRoundTrip | src/hooks/useOfflineSync.ts:90 | the thumbnail address `https://res.cloudinary.com/<cloud>/image/upload/w_150,h_150,c_fill/<public_id>` gives its public id back |
| OfflineStorage.WithoutIdIsFilter | src/hooks/useOfflineStorage.ts:79 | removal by id is the filter `r.id !== id` |
| OfflineStorage.WithoutIdSpec | src/hooks/useOfflineStorage.ts:78-94 | removing an id keeps the other records in order (a subsequence), drops every record with that id and keeps every other one as often as it was queued |
| OfflineStorage.WithoutAbsentId | src/hooks/useOfflineStorage.ts:78-94 | removing an id that is not queued changes nothing |
| OfflineStorage.WithoutIdTwice | src/hooks/useOfflineStorage.ts:78-94 | removing the same id twice equals removing it once |
| OfflineStorage.SaveThenRemove | src/hooks/useOfflineStorage.ts:60-94 | saving a record with a fresh id and then removing that id gives back the original list |
| OfflineStorage.WithoutIdsStep | src/hooks/useOfflineStorage.ts:78-94 | successive removals add up to one removal of all their ids |
| OfflineStorage.WithoutNoIds | src/hooks/useOfflineStorage.ts:78-94 | removing no id leaves the list as it is |
| OfflineStorage.WithoutPrefixIds | src/hooks/useOfflineStorage.ts:78-94 | with distinct ids, removing the ids of the first k records leaves exactly the records after them |
| OfflineStorage.ReloadRestores | src/hooks/useOfflineStorage.ts:46-58 | whatever the store mirrored into local storage, a reload gives back the same three lists |
| OfflineStorage.LoadAfterClear | src/hooks/useOfflineStorage.ts:48-54 | a missing key reads as `[]`, so a load after the three keys are removed gives three empty lists |
| OfflineStorage.OfflineStore.constructor | src/hooks/useOfflineStorage.ts:37-44 | on mount the store holds what loading the current storage gives, or empty lists if a slot does not parse |
| OfflineStorage.OfflineStore.LoadOfflineData | src/hooks/useOfflineStorage.ts:46-58 | loading sets all three lists from their slots, or none of them when one slot does not parse; storage is unchanged |
| OfflineStorage.OfflineStore.SaveOfflinePhoto | src/hooks/useOfflineStorage.ts:60-64 | the photo is appended to its list; the other two lists are unchanged; the photo slot is rewritten with the new list; the mirror invariant is kept |
| OfflineStorage.OfflineStore.SaveOfflineTrack | src/hooks/useOfflineStorage.ts:66-70 | the track is appended to its list; the other two lists are unchanged; its slot is rewritten with the new list; the mirror invariant is kept |
| OfflineStorage.OfflineStore.SaveOfflineWeedPatch | src/hooks/useOfflineStorage.ts:72-76 | the weed patch is appended to its list; the other two lists are unchanged; its slot is rewritten with the new list; the mirror invariant is kept |
| OfflineStorage.OfflineStore.RemoveOfflinePhoto | src/hooks/useOfflineStorage.ts:78-82 | the photo list becomes its filter by id; the other lists are unchanged; the slot is rewritten with the new list |
| OfflineStorage.OfflineStore.RemoveOfflineTrack | src/hooks/useOfflineStorage.ts:84-88 | the track list becomes its filter by id; the other lists are unchanged; the slot is rewritten with the new list |
| OfflineStorage.OfflineStore.RemoveOfflineWeedPatch | src/hooks/useOfflineStorage.ts:90-94 | the weed-patch list becomes its filter by id; the other lists are unchanged; the slot is rewritten with the new list |
| OfflineStorage.OfflineStore.ClearAllOfflineData | src/hooks/useOfflineStorage.ts:96-103 | all three lists are empty, the three keys are gone from storage (other keys kept), the mirror holds and `HasOfflineData` is false |
| OfflineStorage.OfflineStore.HasOfflineData | src/hooks/useOfflineStorage.ts:105-107 | true exactly when at least one of the three lists is non-empty |
| OfflineSync.PhotoAttempt | src/hooks/useOfflineSync.ts:79-111 | the upload is always the first call; a null upload response ends the attempt before any insert; otherwise the calls are the upload and the insert of the row built from the response, and the attempt succeeds exactly when that insert succeeds |
| OfflineSync.PhotoAttemptsSpec | src/hooks/useOfflineSync.ts:54-56 | the k-th photo attempt of a run is the attempt of the k-th queued photo |
| OfflineSync.TrackAttemptsSpec | src/hooks/useOfflineSync.ts:59-61 | the k-th track attempt of a run is the attempt of the k-th queued track |
| OfflineSync.PatchAttemptsSpec | src/hooks/useOfflineSync.ts:64-66 | the k-th weed-patch attempt of a run is the attempt of the k-th queued weed patch |
| OfflineSync.FirstFailureSpec | src/hooks/useOfflineSync.ts:54-73 | every attempt before the first failure succeeded, and the one at it failed |
| OfflineSync.RunAt | src/hooks/useOfflineSync.ts:54-66 | a loop that stops at a failure makes the calls of every attempt up to and including the failing one, and no more |
| OfflineSync.RemainingWithoutIds | src/hooks/useOfflineSync.ts:103-158 | removing each synced id in turn from the current list leaves the queue without all synced ids (corrected removal, see Findings) |
| OfflineSync.RemainingSubsequence | src/hooks/useOfflineSync.ts:103-106 | what remains of a queue is a subsequence of it |
| OfflineSync.SyncOnlyDeletes | src/hooks/useOfflineSync.ts:54-66 | a run never adds or reorders queued records: each queue ends as a subsequence of where it started |
| OfflineSync.SyncCallsOrdered | src/hooks/useOfflineSync.ts:54-66 | every photo call precedes every track call, which precedes every weed-patch call |
| OfflineSync.SyncFailsIffSomeAttemptFails | src/hooks/useOfflineSync.ts:52-73 | a run reports success exactly when every queued record of every kind goes through |
| OfflineSync.PhotoFailureSkipsLaterKinds | src/hooks/useOfflineSync.ts:54-73 | a failing photo ends the run: no track or weed patch is attempted, both queues are untouched, and the run fails |
| OfflineSync.TrackFailureSkipsPatches | src/hooks/useOfflineSync.ts:59-73 | a failing track, after all photos went through, ends the run with no weed patch attempted and the weed-patch queue untouched |
| OfflineSync.SyncKeepsUnsyncedSuffix | src/hooks/useOfflineSync.ts:103-158 | with distinct ids, each queue keeps exactly its records from the first failing one on; a failing record is never removed |
| OfflineSync.RemainingAll | src/hooks/useOfflineSync.ts:54-66 | once every record of a queue went through, nothing of it remains (corrected removal, see Findings) |
| OfflineSync.SuccessfulSyncEmptiesQueues | src/hooks/useOfflineSync.ts:54-68 | a run with no failure leaves all three queues empty (corrected removal, see Findings) |
| OfflineSync.AutoSyncAfterOffline | src/hooks/useOfflineSync.ts:27-33 | see Findings: after an offline period the handler as written never syncs; the corrected one syncs exactly when signed in, not syncing and data is queued |
| OfflineSync.StaleRemoveResurrects | src/hooks/useOfflineSync.ts:16-23 | see Findings: with two or more records synced, removing from the list captured at render puts the first one back |
| OfflineSync.StaleRemoveExample | src/hooks/useOfflineSync.ts:54-56 | see Findings: two queued photos both uploaded, yet one is still queued |
| OfflineSync.AfterRemovals | src/hooks/useOfflineStorage.ts:78-94 | after a loop of removals over one kind, that kind's slot holds the remaining list once anything was removed, and every other key is untouched |
| OfflineSync.SyncStorage | src/hooks/useOfflineSync.ts:46-77 | a run writes only the three queue slots (every other key keeps its value and no key appears or disappears), and storage that mirrored the queues before the run mirrors the queues it leaves |
| OfflineSync.PhotoLoopEnds | src/hooks/useOfflineSync.ts:54-56 | when the photo loop stops, it has made exactly the run of its attempts, its queue is the corrected remainder, local storage has the photo slot rewritten with it exactly when a record synced, and the mirror is kept |
| OfflineSync.TrackLoopEnds | src/hooks/useOfflineSync.ts:59-61 | when the track loop stops, it has made exactly the run of its attempts, its queue is the corrected remainder, local storage has the track slot rewritten with it exactly when a record synced, and the mirror is kept |
| OfflineSync.PatchLoopEnds | src/hooks/useOfflineSync.ts:64-66 | when the weed-patch loop stops, it has made exactly the run of its attempts, its queue is the corrected remainder, local storage has the weed-patch slot rewritten with it exactly when a record synced, and the mirror is kept |
| OfflineSync.SyncHook.constructor | src/hooks/useOfflineSync.ts:9-11 | a new hook is not syncing, has an empty status and takes `navigator.onLine` |
| OfflineSync.SyncHook.PendingCount | src/hooks/useOfflineSync.ts:171 | the sum of the three queue lengths: zero exactly when nothing is queued, and at least each queue's length |
| OfflineSync.SyncHook.SyncPhoto | src/hooks/useOfflineSync.ts:79-111 | the calls are those of the photo's attempt; the record is removed (and its slot rewritten) only when the attempt went through; other queues are unchanged |
| OfflineSync.SyncHook.SyncTrack | src/hooks/useOfflineSync.ts:113-134 | one insert with the queued name, points and colour; the record is removed only when it succeeded |
| OfflineSync.SyncHook.SyncWeedPatch | src/hooks/useOfflineSync.ts:136-163 | one insert carrying the species colour; the record is removed only when it succeeded |
| OfflineSync.SyncHook.SyncPhotoAt | src/hooks/useOfflineSync.ts:54-56 | one pass of the photo loop advances the loop state by one record, or marks the failure (corrected removal, see Findings) |
| OfflineSync.SyncHook.SyncPhotos | src/hooks/useOfflineSync.ts:54-56 | the photo loop makes exactly the run of the photo attempts, the photo queue ends as the records not synced, and local storage is unchanged when no photo synced and otherwise has only the photo slot rewritten with that queue (corrected removal, see Findings) |
| OfflineSync.SyncHook.SyncTrackAt | src/hooks/useOfflineSync.ts:59-61 | one pass of the track loop advances the loop state by one record, or marks the failure (corrected removal, see Findings) |
| OfflineSync.SyncHook.SyncTracks | src/hooks/useOfflineSync.ts:59-61 | the track loop makes exactly the run of the track attempts, the track queue ends as the records not synced, and local storage is unchanged when no track synced and otherwise has only the track slot rewritten with that queue (corrected removal, see Findings) |
| OfflineSync.SyncHook.SyncWeedPatchAt | src/hooks/useOfflineSync.ts:64-66 | one pass of the weed-patch loop advances the loop state by one record, or marks the failure (corrected removal, see Findings) |
| OfflineSync.SyncHook.SyncWeedPatches | src/hooks/useOfflineSync.ts:64-66 | the weed-patch loop makes exactly the run of the weed-patch attempts, the patch queue ends as the records not synced, and local storage is unchanged when no patch synced and otherwise has only the weed-patch slot rewritten with that queue (corrected removal, see Findings) |
| OfflineSync.SyncHook.SyncOfflineData | src/hooks/useOfflineSync.ts:46-77 | with no user, a run in progress or offline, nothing happens; otherwise the calls are those of `SyncPlan`, the final queues are its corrected remainders (see Findings), `isSyncing` is false afterwards and the status names success or failure, and local storage is `SyncStorage` of the queues and storage it started from |
| OfflineSync.SyncHook.HandleOnline | src/hooks/useOfflineSync.ts:27-33 | the corrected online handler: `online` becomes true and a run happens exactly when the auto-sync condition holds; without one the queues and local storage are unchanged, with one the calls, queues and local storage are those of `SyncPlan` and `SyncStorage` |
| OfflineSync.SyncHook.HandleOnlineAsWritten | src/hooks/useOfflineSync.ts:27-47 | the handler as written: `online` becomes true, but the guard reads the value from before the event, so after an offline period no call is made and the queues stay; otherwise the calls and queues are those of `SyncPlan` and local storage is `SyncStorage` of the queues and storage before the event |
| OfflineSync.SyncHook.HandleOffline | src/hooks/useOfflineSync.ts:35 | `online` becomes false and nothing else changes |
| AdminTab.ExportTracks | src/components/tabs/AdminTab.tsx:112-162 | a failed fetch exports nothing; otherwise the document built track by track and point by point equals `Gpx` of the fetched tracks |
| AdminTab.AppendTrack | src/components/tabs/AdminTab.tsx:133-146 | one pass of the track loop appends exactly that track's `<trk>` element |
| AdminTab.GpxHeaderStart | src/components/tabs/AdminTab.tsx:124-125 | the header starts with the XML declaration and the GPX 1.1 root naming the creator |
| AdminTab.GpxFrame | src/components/tabs/AdminTab.tsx:124-148 | the document starts with the header and metadata block stamped with the export time, and ends with `</gpx>` |
| AdminTab.GpxNoTracks | src/components/tabs/AdminTab.tsx:124-148 | with no tracks, the document is the header followed by `</gpx>` |
| AdminTab.GpxTrackAt | src/components/tabs/AdminTab.tsx:133-146 | the k-th track's element follows the elements of the tracks before it: one `<trk>` per track, in fetched order |
| AdminTab.TrackXmlShape | src/components/tabs/AdminTab.tsx:134-145 | a track element opens with `<trk>` and its name written verbatim, then one `<trkseg>`, and closes the segment and the track |
| AdminTab.TrackPointAt | src/components/tabs/AdminTab.tsx:139-142 | inside the segment, the k-th coordinate's `<trkpt>` follows those of the coordinates before it |
| AdminTab.TrkPtAttributes | src/components/tabs/AdminTab.tsx:140 | the `lat` attribute holds the latitude and the `lon` attribute holds the longitude (`lng`) |
| AdminTab.SplitJoin | src/components/tabs/AdminTab.tsx:188-189 | splitting a join gives the pieces back when no piece holds the separator |
| AdminTab.Unescape | src/components/tabs/AdminTab.tsx:180-185 | an RFC 4180 reader of a quoted field's body never lengthens it, and leaves it as long only when it holds no quote |
| AdminTab.UnescapeEscape | src/components/tabs/AdminTab.tsx:180-185 | doubling every quote and then reading back gives the text |
| AdminTab.QuoteRoundTrip | src/components/tabs/AdminTab.tsx:180-185 | the corrected quoting reads back as the text it was made from, for every text |
| AdminTab.EscapeWithoutQuotes | src/components/tabs/AdminTab.tsx:180-185 | doubling quotes changes nothing in a text without quotes |
| AdminTab.QuotingsAgree | src/components/tabs/AdminTab.tsx:180-185 | the written and the corrected quoting agree on every text without a double quote |
| AdminTab.QuoteWith | src/components/tabs/AdminTab.tsx:180-185 | a text quoted as the export writes it reads back exactly when it holds no double quote; with quotes doubled it always reads back |
| AdminTab.QuoteAsWrittenRoundTrip | src/components/tabs/AdminTab.tsx:180-185 | see Findings: the written quoting reads back correctly exactly when the text holds no double quote |
| AdminTab.QuoteAsWrittenExample | src/components/tabs/AdminTab.tsx:185 | see Findings: the notes `a"b` do not read back as a field |
| AdminTab.CsvFields | src/components/tabs/AdminTab.tsx:178-188 | the nine fields in header order: the id, the quoted full name (empty when there is no profile), latitude, longitude and diameter as printed Numbers, the status, the quoted notes (empty when missing), and the creation and update dates in ISO form |
| AdminTab.CsvRows | src/components/tabs/AdminTab.tsx:177-189 | one row per patch, the k-th row made from the k-th patch under the given quoting (the export's own quoting is `AsWritten`) |
| AdminTab.CsvNoPatches | src/components/tabs/AdminTab.tsx:176-192 | with no patches the file is the header line alone |
| AdminTab.CsvReadBack | src/components/tabs/AdminTab.tsx:176-192 | for either quoting, the export's included: when no field holds a comma or a line break, the file is the header followed by one line per patch, in order, each splitting into exactly that patch's nine fields |
| AdminTab.CsvTextColumns | src/components/tabs/AdminTab.tsx:180-185 | in the exported row the name and notes columns read back as the patch's name and notes exactly when neither holds a double quote; with doubled quotes they always do |
| AdminTab.CsvQuotingsAgree | src/components/tabs/AdminTab.tsx:176-189 | when no name or note holds a double quote, the exported file is the same file as the one with doubled quotes |
| AdminTab.JoinAvoids | src/components/tabs/AdminTab.tsx:188-189 | a join holds a character other than its separator only if some piece does |
| AdminTab.DeleteUser | src/components/tabs/AdminTab.tsx:78-111 | the signed-in user's own id never produces a delete; another id produces exactly the delete of that profile, and only after both confirmations |
| AdminTab.DeleteButtonMatchesGuard | src/components/tabs/AdminTab.tsx:367 | the delete button is shown exactly for the profiles the delete guard lets through |
| AdminTab.UpdateUserRole | src/components/tabs/AdminTab.tsx:59-66 | after confirmation exactly the chosen role is written for that user, stamped with the current time given as ISO text; without it nothing is written |
| AdminTab.OfferedRole | src/components/tabs/AdminTab.tsx:346-364 | editors are offered Admin and every other role is offered Editor; the offer always differs from the current role |
| AdminTab.OfferedRoleToggles | src/components/tabs/AdminTab.tsx:346-364 | pressing the role button twice restores the original role, and a confirmed press writes the offered role |
| TracksTab.LeadingSpaces | src/components/tabs/TracksTab.tsx:73-79 | the length of the whitespace run that `trim` removes at the start: all whitespace, followed by a non-space |
| TracksTab.TrailingSpaces | src/components/tabs/TracksTab.tsx:73-79 | the length of the whitespace run that `trim` removes at the end: all whitespace, preceded by a non-space |
| TracksTab.TrimSpec | src/components/tabs/TracksTab.tsx:73-79 | `trim` removes whitespace only, from both ends; the result neither starts nor ends with whitespace; it is empty exactly when the name is blank |
| TracksTab.TrimIdempotent | src/components/tabs/TracksTab.tsx:79 | trimming a trimmed name changes nothing |
| TracksTab.TrackColor | src/components/tabs/TracksTab.tsx:81 | the corrected colour: `#` and exactly six hexadecimal digits for every draw |
| TracksTab.HexDigitsBound | src/components/tabs/TracksTab.tsx:81 | a number below 16^k needs at most k hexadecimal digits |
| TracksTab.TrackColorRoundTrip | src/components/tabs/TracksTab.tsx:81 | the corrected colour's digits read back as the drawn number |
| TracksTab.TrackColorsAgree | src/components/tabs/TracksTab.tsx:81 | the two colours agree for every draw that needs all six digits |
| TracksTab.HexDigitsAtLeast | src/components/tabs/TracksTab.tsx:81 | a number with k hexadecimal digits is below 16^k |
| TracksTab.TrackColorAsWrittenShort | src/components/tabs/TracksTab.tsx:81 | see Findings: every draw below 16^5 gives a colour that is not six hex digits |
| TracksTab.TrackColorAsWrittenExample | src/components/tabs/TracksTab.tsx:81 | see Findings: the draw 0xABCDE gives `#abcde` as written, `#0abcde` corrected |
| TracksTab.Recorder.constructor | src/components/tabs/TracksTab.tsx:14-22 | not recording, no current track, an empty name and no known position |
| TracksTab.Recorder.SetTrackName | src/components/tabs/TracksTab.tsx:199 | the name field takes the typed text; nothing else changes |
| TracksTab.Recorder.SetOnline | src/components/tabs/TracksTab.tsx:26-37 | the online flag follows the browser's events; nothing else changes |
| TracksTab.Recorder.NewDraft | src/components/tabs/TracksTab.tsx:78-82 | a new track is named after the trimmed name field, holds the given points and has a six-digit colour (corrected colour, see Findings) |
| TracksTab.Recorder.StartRecording | src/components/tabs/TracksTab.tsx:72-84 | a blank name is refused with nothing changed; otherwise a track named after the trimmed name is started and recording is on; when recording was off, the waypoint effect runs at once, so the track starts holding the last known position if there is one and empty otherwise |
| TracksTab.Recorder.StopRecording | src/components/tabs/TracksTab.tsx:86-88 | only the recording flag is cleared; the track and its points stay |
| TracksTab.Recorder.WaypointEffect | src/components/tabs/TracksTab.tsx:44-51 | while recording with a known position, that position is appended to the track; otherwise nothing changes |
| TracksTab.Recorder.OnPosition | src/components/tabs/TracksTab.tsx:44-51 | a fix from the watch becomes the last known position and, while recording, is appended at the end of the track's points; otherwise the track is unchanged |
| TracksTab.Recorder.AddWaypoint | src/components/tabs/TracksTab.tsx:90-116 | no position changes nothing; the fix becomes the last known position; with no track a non-blank name starts a track holding exactly that point; with a track that is not recording the point is appended once; while recording the waypoint effect appends it too, so it is appended twice |
| TracksTab.Recorder.SaveTrack | src/components/tabs/TracksTab.tsx:118-165 | refused (no call, nothing queued) without a track, with zero points or without a user. Online: one insert with the track's name, points and colour, and nothing queued. Offline: exactly one queued track and no call. Success clears the track, the name and recording; failure keeps all three |
| TracksTab.Recorder.CancelTrack | src/components/tabs/TracksTab.tsx:167-171 | the track, the name and the recording flag are cleared |
| WeedsTab.NotesOrNull | src/components/tabs/WeedsTab.tsx:101 | empty notes are sent as null; other notes as typed |
| WeedsTab.CreatedRow | src/components/tabs/WeedsTab.tsx:86-102 | the inserted row carries the draft's centre, species, diameter and status, the user, `getSpeciesColor(species)` and the notes or null |
| WeedsTab.QueuedPatch | src/components/tabs/WeedsTab.tsx:110-119 | the queued record carries the draft's centre, diameter, species, status and notes, the id and the timestamp, and no colour |
| WeedsTab.QueuedPatchSyncsSameRow | src/components/tabs/WeedsTab.tsx:86-119 | a patch queued offline is later inserted with the same fields and colour as an online create; only empty notes differ (`""` against null) |
| WeedsTab.UpdateColor | src/components/tabs/WeedsTab.tsx:145 | the update colour is the species' colour, or "Unknown"'s when the species is empty |
| WeedsTab.UpdateColorOfEmptySpecies | src/components/tabs/WeedsTab.tsx:145 | a cleared species and "Unknown" both get `#3B82F6` |
| WeedsTab.UpdateFor | src/components/tabs/WeedsTab.tsx:144-158 | the update writes the patch's species, diameter, status and notes, the recomputed colour and the time, for that patch's id |
| WeedsTab.CanEdit | src/components/tabs/WeedsTab.tsx:190-192 | true exactly when the user is an administrator or owns the patch |
| WeedsTab.SignedOutEditsNothing | src/components/tabs/WeedsTab.tsx:190-192 | a signed-out visitor who is not an administrator may edit no patch |
| WeedsTab.WeedForm.constructor | src/components/tabs/WeedsTab.tsx:12-22 | the draft is (0, 0, "Unknown", 10, NEEDS_WEEDING, "") and the form is closed |
| WeedsTab.WeedForm.SetOnline | src/components/tabs/WeedsTab.tsx:29-40 | the online flag follows the browser's events; nothing else changes |
| WeedsTab.WeedForm.EditDraft | src/components/tabs/WeedsTab.tsx:247-305 | a field edit replaces the draft; nothing else changes |
| WeedsTab.WeedForm.CaptureCurrentLocation | src/components/tabs/WeedsTab.tsx:65-78 | no position changes nothing; otherwise only the draft's centre is set and the form opens |
| WeedsTab.WeedForm.CreateWeedPatch | src/components/tabs/WeedsTab.tsx:80-142 | refused without a user or with a coordinate exactly 0. Online: one insert of `CreatedRow`. Offline: exactly one queued record and no call. Success resets the draft and closes the form; failure keeps both |
| WeedsTab.WeedForm.StartEditing | src/components/tabs/WeedsTab.tsx:468-470 | editing starts exactly when `canEdit` allows it |
| WeedsTab.WeedForm.UpdateWeedPatch | src/components/tabs/WeedsTab.tsx:144-169 | the update sent is `UpdateFor(patch)`; success closes the editor, failure keeps it open |
| WeedsTab.WeedForm.CancelCreate | src/components/tabs/WeedsTab.tsx:194-204 | the form closes and the draft is reset |
| WeedsTab.EmptyDraftRefused | src/components/tabs/WeedsTab.tsx:81-132 | a reset draft never passes the create guard |
| PhotosTab.QueuedPhoto | src/components/tabs/PhotosTab.tsx:111-117 | the queued record holds the file, the captured latitude and longitude, the id and the time |
| PhotosTab.CanDeletePhoto | src/components/tabs/PhotosTab.tsx:243 | the delete control is shown exactly to the photo's owner |
| PhotosTab.DeletePhoto | src/components/tabs/PhotosTab.tsx:132-133 | the photo's id goes to the backend only after confirmation |
| PhotosTab.PhotoUploader.constructor | src/components/tabs/PhotosTab.tsx:14 | the online flag starts as `navigator.onLine` |
| PhotosTab.PhotoUploader.SetOnline | src/components/tabs/PhotosTab.tsx:22-33 | the online flag follows the browser's events |
| PhotosTab.PhotoUploader.HandlePhotoUpload | src/components/tabs/PhotosTab.tsx:72-130 | no user or no position: no call and nothing queued. Online: the upload first; a null response stops before any insert; otherwise one insert with the captured position. These are the same calls the sync makes for that photo queued. Offline: exactly one queued photo and no call |
| PhotosTab.InsertedThumbnailNamesUpload | src/components/tabs/PhotosTab.tsx:93-103 | the inserted row's thumbnail names the public id the CDN answered, and its position is the captured one |
| LayerControls.SpeciesKey | src/components/map/LayerControls.tsx:36 | a missing or empty species counts as "Unknown"; any other counts under itself |
| LayerControls.Keys | src/components/map/LayerControls.tsx:35-38 | one key per fetched row, in order |
| LayerControls.StrLessIrreflexive | src/components/map/LayerControls.tsx:42 | no name sorts before itself |
| LayerControls.StrLessTotal | src/components/map/LayerControls.tsx:42 | of two different names, one sorts before the other |
| LayerControls.StrLessTransitive | src/components/map/LayerControls.tsx:42 | the name order is transitive |
| LayerControls.Insert | src/components/map/LayerControls.tsx:42 | inserting adds exactly one entry, keeping the others |
| LayerControls.InsertSorted | src/components/map/LayerControls.tsx:42 | inserting a new name into a sorted list keeps it sorted |
| LayerControls.SortBySpecies | src/components/map/LayerControls.tsx:40-42 | sorting is a permutation of the entries |
| LayerControls.SortBySpeciesSorted | src/components/map/LayerControls.tsx:40-42 | entries with distinct names come out strictly ascending by name |
| LayerControls.SumOfMultiplicities | src/components/map/LayerControls.tsx:34-41 | when each entry counts its name's occurrences, the counts add up to the number of rows |
| LayerControls.TallyStep | src/components/map/LayerControls.tsx:35-38 | counting one more row keeps the count map equal to the keys' multiplicities |
| LayerControls.EntriesOfTally | src/components/map/LayerControls.tsx:40-41 | the entries of a finished count list each key once, with its count |
| LayerControls.CountsOfPermutation | src/components/map/LayerControls.tsx:40-42 | sorting the entries keeps each name's count |
| LayerControls.SortedIsDistinct | src/components/map/LayerControls.tsx:42 | a strictly sorted list names each species once |
| LayerControls.TallyList | src/components/map/LayerControls.tsx:34-42 | the sorted entries of a finished count: ascending, the keys' counts, and each count at least 1 |
| LayerControls.LoadAvailableSpecies | src/components/map/LayerControls.tsx:25-50 | a failed fetch leaves the list empty. Otherwise the list is ascending by name, names each key once with its number of rows, every count is at least 1, the counts sum to the number of rows, and it is empty exactly when no row was fetched |
| LayerControls.Rendered | src/components/map/LayerControls.tsx:52 | nothing is rendered while loading or with an empty list |
| LayerControls.SpeciesOf | src/components/map/LayerControls.tsx:64-80 | the set of listed names: every entry's name, and only those |
| LayerControls.SpeciesOfSize | src/components/map/LayerControls.tsx:64-80 | with distinct names, the set of names is as large as the list |
| LayerControls.HideAllIffEverySpeciesVisible | src/components/map/LayerControls.tsx:80 | when the visible species are among the listed ones, the label reads "Hide All" exactly when every listed species is visible |
| WeedPatchLayer.SpeciesLabel | src/components/map/WeedPatchLayer.tsx:57-64 | `species \|\| 'Unknown'`: never empty, and any non-empty species is kept |
| WeedPatchLayer.FilteredPatches | src/components/map/WeedPatchLayer.tsx:56-58 | the filter never adds patches |
| WeedPatchLayer.NoFilterShowsAll | src/components/map/WeedPatchLayer.tsx:56-58 | with an empty visible set every patch is drawn |
| WeedPatchLayer.FilterShowsVisible | src/components/map/WeedPatchLayer.tsx:56-58 | with a non-empty set, exactly the patches whose label is in the set are drawn, as often as fetched, in fetched order |
| WeedPatchLayer.FilteredIsSubsequence | src/components/map/WeedPatchLayer.tsx:57 | the drawn patches are always a subsequence of the fetched ones |
| WeedPatchLayer.StatusOpacity | src/components/map/WeedPatchLayer.tsx:65 | the opacity is a fraction in (0, 1] |
| WeedPatchLayer.PatchCircle | src/components/map/WeedPatchLayer.tsx:64-76 | the circle is centred on the patch, its radius is half the diameter, its outline and fill are the label's species colour, and its fill opacity is 0.3 of the status opacity |
| WeedPatchLayer.PatchCircleContrast | src/components/map/WeedPatchLayer.tsx:64-75 | a patch to be weeded has twice the opacity of a weeded one and a denser fill; a patch with no species is drawn `#3B82F6` |
| DalmoreMap.Toggle | src/components/map/DalmoreMap.tsx:111-121 | the toggled species flips membership and every other species keeps it |
| DalmoreMap.ToggleTwice | src/components/map/DalmoreMap.tsx:111-121 | toggling the same species twice restores the set |
| DalmoreMap.TogglesCommute | src/components/map/DalmoreMap.tsx:111-121 | toggles of two species can be made in either order |
| DalmoreMap.SpeciesVisibility.constructor | src/components/map/DalmoreMap.tsx:76 | the visible set starts empty |
| DalmoreMap.SpeciesVisibility.HandleSpeciesToggle | src/components/map/DalmoreMap.tsx:111-121 | the set becomes its toggle by the species |
| DalmoreMap.SpeciesVisibility.HandleToggleAllSpecies | src/components/map/DalmoreMap.tsx:123-126 | the set becomes empty, whatever the label said |
| DalmoreMap.ToggleAllShowsEverything | src/components/map/DalmoreMap.tsx:123-126 | after toggle-all, even from "Hide All", every patch is drawn |
| DalmoreMap.AgreesWithBadge | src/components/map/DalmoreMap.tsx:128-138 | the map's accuracy line uses the badge's thresholds: the same text, and a colour class that begins the badge's classes |
| GpsAccuracy.RatingOf | src/components/map/GPSAccuracyIndicator.tsx:11-21 | acc <= 5 is Excellent, 5 < acc <= 10 is Good, acc > 10 is Poor, each an if-and-only-if |
| GpsAccuracy.ColorAndTextAgree | src/components/map/GPSAccuracyIndicator.tsx:11-21 | the colour classes and the text always name the same rating: green with Excellent, yellow with Good, red with Poor |
| GpsAccuracy.RatingMonotone | src/components/map/GPSAccuracyIndicator.tsx:11-21 | a larger accuracy radius never rates better |
| ServiceWorker.Route | public/sw.js:71-79 | tile first, then API, then static asset, then navigation: each handler is chosen exactly when its test holds and no earlier one does |
| ServiceWorker.PrecachedTilesUseTileHandler | public/sw.js:83-87 | a request to the host of the pre-cached tiles is served by the tile handler |
| TilePlan.PrecachedUrlsNeverRequested | public/sw.js:204 | no pre-cached tile URL equals a URL the map layer requests on the subdomains a, b or c, so a lookup by URL never answers a map request with a pre-cached tile |
| ServiceWorker.Match | public/sw.js:107 | `cache.match` finds an entry only for a GET whose address is stored |
| ServiceWorker.MatchAfterPut | public/sw.js:116 | after a put, the same GET finds the stored response and other addresses find what they found before |
| ServiceWorker.CacheOf | public/sw.js:106 | `caches.open` gives the named cache, or a new empty one |
| ServiceWorker.CleanedUp | public/sw.js:49-57 | activation keeps exactly the caches named "dalmore-reserve-v1" and "dalmore-map-tiles-v1", each unchanged |
| ServiceWorker.CleanUpIdempotent | public/sw.js:49-57 | cleaning up twice equals cleaning up once |
| ServiceWorker.StoreOkAppend | public/sw.js:211-228 | storing one batch after another equals storing their concatenation |
| ServiceWorker.StoreOkSpec | public/sw.js:213-224 | after storing, every listed address whose fetch answered ok holds that answer, and every other address is unchanged |
| ServiceWorker.CacheStorage.constructor | public/sw.js:49 | the worker starts with the browser's caches |
| ServiceWorker.CacheStorage.Open | public/sw.js:106 | opening returns the named cache, or a new empty one, which then exists |
| ServiceWorker.CacheStorage.HandleMapTileRequest | public/sw.js:105-123 | a cached tile is served without fetching; otherwise the network answer is served and stored only when ok; a failed fetch is served an empty 204 |
| ServiceWorker.CacheStorage.HandleApiRequest | public/sw.js:126-155 | the network's answer is served whatever its status; when the fetch fails, a GET is served from the cache if present, and otherwise (and for every other method) a 503 whose body says `offline: true` |
| ServiceWorker.CacheStorage.HandleStaticAssetRequest | public/sw.js:158-176 | a cached asset is served without fetching; otherwise the network answer is served and stored only when ok; a failed fetch fails the request |
| ServiceWorker.CacheStorage.HandleNavigationRequest | public/sw.js:179-188 | the network first; offline, the cached `/index.html`, or a 503 "Offline" |
| ServiceWorker.CacheStorage.Activate | public/sw.js:45-59 | the caches become their clean-up |
| ServiceWorker.CacheStorage.StoreBatch | public/sw.js:213-224 | one batch stores every ok answer into the tile cache and changes nothing else |
| ServiceWorker.CacheStorage.CacheMapTiles | public/sw.js:191-231 | the tile list is `Tiles` of the ranges; it is split into `BatchCount` batches of 10, and the tile cache ends holding every ok answer |
| ServiceWorker.CacheStorage.FetchInBatches | public/sw.js:210-228 | the loop slices the URLs into consecutive batches of 10 and stores every ok answer |
| ServiceWorker.TileUrls | public/sw.js:193-207 | the loops push exactly the URLs of `Tiles(ranges)`, in order |
| ServiceWorker.PushZoom | public/sw.js:202-206 | one zoom's loops append the URLs of that zoom's rectangle, column by column |
| ServiceWorker.PushColumn | public/sw.js:203-205 | the inner loop appends the URLs of one column, y ascending |
| TilePlan.NoSlashInDecimal | public/sw.js:204 | a number's decimal text holds no `/` |
| TilePlan.FirstSlash | public/sw.js:204 | the first `/` after a number marks where its digits end |
| TilePlan.TileUrlInjective | public/sw.js:204 | different tiles have different URLs |
| TilePlan.Urls | public/sw.js:204 | one URL per tile, the k-th of the k-th tile |
| TilePlan.UrlsStep | public/sw.js:204 | pushing the URLs of two lists one after the other equals pushing those of their concatenation |
| TilePlan.ColumnMembers | public/sw.js:203-205 | a column holds exactly the tiles of its zoom and x with y in range |
| TilePlan.ColumnsMembers | public/sw.js:202-206 | the columns hold exactly the tiles of their zoom in the rectangle |
| TilePlan.ZoomMembers | public/sw.js:196-207 | one zoom's tiles are exactly those of its rectangle |
| TilePlan.AscendingAppend | public/sw.js:196-207 | two ascending lists whose join is ascending concatenate into an ascending list |
| TilePlan.ColumnAscending | public/sw.js:203-205 | a column is in ascending y order |
| TilePlan.ColumnsAscending | public/sw.js:202-206 | the columns are in ascending (x, y) order |
| TilePlan.TilesAscending | public/sw.js:196-207 | the whole list is in ascending (z, x, y) order |
| TilePlan.TilesMembers | public/sw.js:196-207 | a tile is listed exactly when its zoom is one of the five and it lies in that zoom's rectangle |
| TilePlan.TilesExactlyOnce | public/sw.js:196-207 | the list holds every tile of the rectangles exactly once, in (z, x, y) order, and no URL twice |
| TilePlan.BatchAt | public/sw.js:212 | batch j is `slice(10 j, 10 j + 10)`: between 1 and 10 URLs |
| TilePlan.BatchCount | public/sw.js:211 | the loop makes the least number of batches of 10 that covers the list |
| TilePlan.NextBatch | public/sw.js:211-212 | the URLs before a batch, then the batch, are the URLs before the next batch |
| TilePlan.BatchCountOf | public/sw.js:211 | any count meeting the loop's exit condition is `BatchCount` |
| TilePlan.BatchesStep | public/sw.js:211-212 | slicing the next batch keeps the batches so far in step with the URLs |
| TilePlan.BatchesFlatten | public/sw.js:211-212 | the first n batches, end to end, are the first 10 n URLs |
| TilePlan.Batching | public/sw.js:210-213 | the batches hold every URL once, in order; every batch but the last is full, and each holds 1 to 10 URLs |

## Left out

- One shared store. Every component in the source calls `useOfflineStorage()` and
  gets its own React copy of the lists, loaded once at mount. The model gives the
  tabs and the sync one shared `OfflineStore`, so a record queued by a tab is seen by
  the sync without a reload. In the source the sync's copy does not see it, and in
  the other direction a tab's save appends to its own copy (`[...offlineTracks,
  track]`) and writes back records the sync has already removed. The shared store
  shows neither.
- React rendering, effects' scheduling, `alert`/`confirm` dialogs (confirmations are
  boolean arguments) and the status timers (`setTimeout` clearing the sync status)
  are not modelled.
- Remote calls (backend inserts, selects, updates, deletes, realtime subscriptions,
  the CDN upload, tile fetches) are oracle arguments. Their concurrency
  (`Promise.all` over one batch of tiles) is modelled as a sequential fold in batch
  order.
- `deleteWeedPatch` and `deletePhoto`'s backend request are modelled only as their
  confirmation guard (`PhotosTab.DeletePhoto`); the list reloads after every write are
  not modelled.
- Random and clock values (offline ids, timestamps, the role update's `updated_at`,
  the colour draw) are arguments.
  How a Number prints in the GPX and CSV exports, and `toLocaleDateString` and
  `toISOString`, are function arguments.
- `localeCompare` is modelled as code-point lexicographic order. Locale collation
  is outside the model.
- Characters are Dafny characters (Unicode scalar values) standing for UTF-16 code
  units; strings with characters outside the Basic Multilingual Plane hash
  differently in the source.
- Object keys that `Object.prototype` already defines (a species called
  `constructor`, say) behave differently in the source's plain-object count; the
  model's count is a true map.
- Floating point: coordinates, diameters, opacities and accuracies are reals, so
  `0.8 * 0.3` is exact in the model. `parseInt` of the diameter field (NaN on empty
  input) is not modelled; the draft holds a number.
- The tile bounds come from `log`/`tan` of the reserve's corners. The model takes
  each zoom's integer bounds as an argument and assumes them non-negative.
- The service worker's install step (`cache.addAll` of the static shell),
  `skipWaiting`, `clients.claim`, the background-sync and push handlers, the 100 ms
  pause between tile batches, and the response headers and status texts are not
  modelled.
- OfflineSync.SyncHook.HandleOnline: models the handler as intended (see
  Findings); the written handler is `OfflineSync.SyncHook.HandleOnlineAsWritten`.
- TracksTab.Recorder.NewDraft: gives the corrected six-digit colour (see Findings); the
  written colour is `TracksTab.TrackColorAsWritten`.
- TracksTab.Recorder.AddWaypoint: a track it starts has the corrected colour of
  `TracksTab.Recorder.NewDraft`.
- TracksTab.Recorder.StartRecording: like `TracksTab.Recorder.AddWaypoint`, uses the
  corrected six-digit colour (see Findings); the written colour is
  `TracksTab.TrackColorAsWritten`.
- OfflineSync.SyncHook.SyncPhoto: like `SyncTrack` and `SyncWeedPatch`, removes from the
  current list (corrected, see Findings); the written removal is
  `OfflineSync.StaleRemaining`.
- OfflineSync.RemainingWithoutIds: states the corrected removal. As written, each
  removal filters the list captured at render, so the stored queue after a run is
  `OfflineSync.StaleRemaining`.
- OfflineSync.RemainingAll: holds for the corrected removal only; as written, a queue
  whose every record (two or more) went through keeps every record but the last.
- OfflineSync.SuccessfulSyncEmptiesQueues: holds for the corrected removal only; as
  written, two photos that both upload leave `[p1]` stored (`OfflineSync.StaleRemoveExample`).
- OfflineSync.SyncHook.SyncPhotoAt: the loop state's queue is the corrected removal's.
- OfflineSync.SyncHook.SyncPhotos: the photo queue ends as the corrected remainder, not
  `OfflineSync.StaleRemaining`.
- OfflineSync.SyncHook.SyncTrackAt: the loop state's queue is the corrected removal's.
- OfflineSync.SyncHook.SyncTracks: the track queue ends as the corrected remainder, not
  `OfflineSync.StaleRemaining`.
- OfflineSync.SyncHook.SyncWeedPatchAt: the loop state's queue is the corrected removal's.
- OfflineSync.SyncHook.SyncWeedPatches: the patch queue ends as the corrected remainder,
  not `OfflineSync.StaleRemaining`.
- OfflineSync.SyncHook.SyncOfflineData: the final queues are `SyncPlan`'s corrected
  remainders, not the written ones (see Findings).
- AdminTab.CsvRows: the export is `Csv` with the source's quoting (`AsWritten`), so a
  name or note holding a double quote does not read back (`AdminTab.CsvTextColumns`).
  The doubled quoting (`Doubled`, see Findings) is the corrected form; `AdminTab.CsvReadBack`
  holds for both.
- OfflineStorage.ReloadRestores: queued records are values, so a reload gives back the
  same photos. In the source `JSON.stringify` turns a queued photo's `File` into `{}`
  (src/hooks/useOfflineStorage.ts:63). After a reload, that photo's upload fails at
  `URL.createObjectURL` (src/hooks/useCloudinary.ts:44), `syncPhoto` throws, and every
  later run stops at that photo, so the tracks and patches queued behind it never sync.
  The model does not capture this loss.
- OfflineStorage.OfflineStore.LoadOfflineData: reads photos back with their file
  contents; the source reads `{}` in place of each file (see the line above).
- OfflineSync.SyncHook.SyncOfflineData: a run is one atomic step. In the source a second
  run can start during the awaits before `isSyncing` is seen as true, and another tab
  writing the same local-storage keys can overwrite the lists. Neither is modelled.
- OfflineStorage.OfflineStore.SaveOfflinePhoto: like `SaveOfflineTrack` and
  `SaveOfflineWeedPatch`, always writes its slot. In the source the list state is set
  first and `localStorage.setItem` is called after it
  (src/hooks/useOfflineStorage.ts:60-76); a full or blocked storage throws there, so
  the in-memory list holds the record while storage does not.
- OfflineStorage.OfflineStore.SaveOfflineTrack: see the line above.
- OfflineStorage.OfflineStore.SaveOfflineWeedPatch: see the line above.
- OfflineStorage.OfflineStore.RemoveOfflinePhoto: like `RemoveOfflineTrack` and
  `RemoveOfflineWeedPatch`, always writes its slot; in the source a throwing
  `setItem` leaves the removed record in storage after the list state dropped it
  (src/hooks/useOfflineStorage.ts:78-94).
- OfflineStorage.OfflineStore.RemoveOfflineTrack: see the line above.
- OfflineStorage.OfflineStore.RemoveOfflineWeedPatch: see the line above.
- TracksTab.Recorder.SaveTrack: offline, the track is always queued and the draft
  cleared. In the source a throwing `setItem` is caught
  (src/components/tabs/TracksTab.tsx:157-163): it alerts "Error saving track offline"
  and keeps the draft, the name and the recording flag, while the hook's list state
  already holds the track.
- WeedsTab.WeedForm.CreateWeedPatch: offline, the patch is always queued and the form
  reset. In the source a throwing `setItem` is caught
  (src/components/tabs/WeedsTab.tsx:134-140): it alerts "Error saving weed patch
  offline" and keeps the form open with its fields.
- PhotosTab.PhotoUploader.HandlePhotoUpload: offline, the photo is always queued. In
  the source a throwing `setItem` is caught (src/components/tabs/PhotosTab.tsx:122-128)
  and alerts "Error saving photo offline", while the hook's list state already holds
  the photo.
- OfflineSync.SyncHook.SyncPhoto: like `SyncTrack` and `SyncWeedPatch`, treats a record
  whose insert succeeded as synced. In the source a throwing `setItem` in the removal
  is rethrown (src/hooks/useOfflineSync.ts:106-108), so the run stops there and reports
  "Sync failed" (src/hooks/useOfflineSync.ts:70-72) although the record reached the
  backend; it stays in storage and is sent again on the next run.
- OfflineSync.SyncHook.SyncTrack: see the line above.
- OfflineSync.SyncHook.SyncWeedPatch: see the line above.
- OfflineSync.SyncStorage: with it, `SyncOfflineData`, `HandleOnline` and
  `HandleOnlineAsWritten` assume every storage write succeeds (see the lines above).
- Tabs and sections the core does not decide (map centring, markers for tracks and
  photos, the install prompt, authentication) are not part of this model.

## Findings

| source | as written | input that shows it | evidently intended | confidence | as-written member | corrected member |
|---|---|---|---|---|---|---|
| src/hooks/useOfflineSync.ts:54-56 | each `removeOffline*` inside a run filters the list captured when the hook rendered, so the second removal writes back the first record | two queued photos p1, p2, both uploaded: the stored list ends as [p1], and p1 is uploaded again on the next run | each removal applies to the current list, leaving the records not yet synced | not executed | OfflineSync.StaleRemoveExample | OfflineSync.SyncKeepsUnsyncedSuffix |
| src/hooks/useOfflineSync.ts:27-47 | `handleOnline` calls `syncOfflineData` from a closure made while `online` was still false, so the guard refuses (`OfflineSync.SyncHook.HandleOnlineAsWritten`) | with records queued in an earlier session (loaded at mount), go offline and come back online: no sync starts | the auto-sync runs when signed in, not syncing and data is queued | not executed | OfflineSync.AutoSyncAfterOffline | OfflineSync.SyncHook.HandleOnline |
| src/components/tabs/AdminTab.tsx:180-185 | the full name and the notes are wrapped in double quotes without doubling embedded quotes (section 2, rule 7 of RFC 4180) | notes `a"b` give the field `"a"b"`, which does not read back | every embedded quote is doubled | not executed | AdminTab.QuoteAsWrittenExample | AdminTab.QuoteRoundTrip |
| src/components/tabs/TracksTab.tsx:81 | the colour is `#` and the draw in hexadecimal without padding | the draw 0xABCDE gives `#abcde`, five digits, not a valid six-digit CSS colour | pad to six digits | not executed | TracksTab.TrackColorAsWrittenExample | TracksTab.TrackColorRoundTrip |
