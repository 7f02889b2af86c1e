/** Recording and editing weed patches in src/components/tabs/WeedsTab.tsx: the draft
    of a new patch, its creation online or into the offline queue, the colour sent
    with an update, and who may edit. Loading the list of patches is a backend read
    and is outside the model; the position, the offline id and the time are inputs. */
module WeedsTab {
  import opened Common
  import opened Types
  import opened Remote
  import opened OfflineStorage
  import OfflineSync

  /** The new-patch form. */
  datatype PatchDraft = PatchDraft(centerLat: real, centerLng: real, species: string,
                                   diameter: real, status: Status, notes: string)

  /** The form as it starts and as every reset leaves it. */
  const EmptyDraft: PatchDraft := PatchDraft(0.0, 0.0, "Unknown", 10.0, NeedsWeeding, "")

  /** `notes || null`: empty notes are sent as null. */
  function NotesOrNull(notes: string): (r: Option<string>)
    ensures r.None? <==> notes == ""
    ensures r.Some? ==> r.value == notes
  {
    if notes == "" then None else Some(notes)
  }

  /** The row an online create inserts. */
  function CreatedRow(userId: string, d: PatchDraft): (r: PatchRow)
    ensures r.color == SpeciesColor(d.species) && r.notes == NotesOrNull(d.notes)
    ensures r.centerLat == d.centerLat && r.centerLng == d.centerLng && r.diameter == d.diameter
    ensures r.species == d.species && r.status == d.status && r.userId == userId
  {
    PatchRow(userId, d.centerLat, d.centerLng, d.diameter, d.species, d.status,
             SpeciesColor(d.species), NotesOrNull(d.notes))
  }

  /** The record an offline create queues: no colour, the notes as typed. */
  function QueuedPatch(d: PatchDraft, offlineId: string, timestamp: string): (w: OfflineWeedPatch)
    ensures w.id == offlineId && w.timestamp == timestamp && w.notes == Some(d.notes)
    ensures w.centerLat == d.centerLat && w.centerLng == d.centerLng && w.diameter == d.diameter
    ensures w.species == d.species && w.status == d.status
  {
    OfflineWeedPatch(offlineId, d.centerLat, d.centerLng, d.diameter, d.species, d.status,
                     Some(d.notes), timestamp)
  }

  /** A patch created offline is inserted at sync with the row an online create would
      have sent, except that empty notes arrive as an empty text instead of null. */
  lemma QueuedPatchSyncsSameRow(userId: string, d: PatchDraft, offlineId: string, timestamp: string)
    ensures var synced := OfflineSync.PatchRowFor(userId, QueuedPatch(d, offlineId, timestamp));
            synced.(notes := NotesOrNull(d.notes)) == CreatedRow(userId, d) &&
            (synced == CreatedRow(userId, d) <==> d.notes != "")
  {
    var synced := OfflineSync.PatchRowFor(userId, QueuedPatch(d, offlineId, timestamp));
    assert synced.notes == Some(d.notes);
  }

  /** The colour sent with an update: the species' colour, "Unknown"'s when empty. */
  function UpdateColor(species: string): (c: string)
    ensures species == "" ==> c == UnknownColor
    ensures species != "" ==> c == SpeciesColor(species)
  {
    SpeciesColor(if species == "" then "Unknown" else species)
  }

  /** An update whose species was cleared gets the same colour as an "Unknown" one. */
  lemma UpdateColorOfEmptySpecies()
    ensures UpdateColor("") == UpdateColor("Unknown") == "#3B82F6"
  {
    SpeciesColorOfUnknown();
  }

  /** The fields updateWeedPatch writes for a patch. */
  datatype PatchUpdate = PatchUpdate(id: string, species: string, diameter: real, status: Status,
                                     color: string, notes: Option<string>, updatedAt: string)

  function UpdateFor(patch: WeedPatch, now: string): (u: PatchUpdate)
    ensures u.id == patch.id && u.color == UpdateColor(patch.species)
    ensures u.species == patch.species && u.diameter == patch.diameter
    ensures u.status == patch.status && u.notes == patch.notes && u.updatedAt == now
  {
    PatchUpdate(patch.id, patch.species, patch.diameter, patch.status,
                UpdateColor(patch.species), patch.notes, now)
  }

  /** canEdit: administrators may edit every patch, others only their own. */
  function CanEdit(isAdmin: bool, userId: Option<string>, patch: WeedPatch): (r: bool)
    ensures r <==> isAdmin || userId == Some(patch.userId)
  {
    isAdmin || (userId.Some? && patch.userId == userId.value)
  }

  /** A signed-out visitor who is not an administrator may edit nothing. */
  lemma SignedOutEditsNothing(patch: WeedPatch)
    ensures !CanEdit(false, None, patch)
  {
  }

  class WeedForm {
    var newPatch: PatchDraft
    var isCreating: bool
    var editingPatch: Option<WeedPatch>
    var online: bool
    const store: OfflineStore

    constructor (store: OfflineStore, navigatorOnline: bool)
      ensures this.store == store && online == navigatorOnline
      ensures newPatch == EmptyDraft && !isCreating && editingPatch.None?
    {
      this.store := store;
      online := navigatorOnline;
      newPatch := EmptyDraft;
      isCreating := false;
      editingPatch := None;
    }

    method SetOnline(isOnline: bool)
      modifies this
      ensures online == isOnline
      ensures newPatch == old(newPatch) && isCreating == old(isCreating) && editingPatch == old(editingPatch)
    {
      online := isOnline;
    }

    /** A change made in one of the form's fields. */
    method EditDraft(d: PatchDraft)
      modifies this
      ensures newPatch == d
      ensures isCreating == old(isCreating) && editingPatch == old(editingPatch) && online == old(online)
    {
      newPatch := d;
    }

    /** captureCurrentLocation: without a position nothing changes; otherwise the
        position becomes the draft's centre and the form opens. */
    method CaptureCurrentLocation(position: Option<Position>)
      modifies this
      ensures position.None? ==> newPatch == old(newPatch) && isCreating == old(isCreating)
      ensures position.Some? ==>
                newPatch == old(newPatch).(centerLat := position.value.lat, centerLng := position.value.lng) &&
                isCreating
      ensures editingPatch == old(editingPatch) && online == old(online)
    {
      if position.None? {
        return;
      }
      newPatch := newPatch.(centerLat := position.value.lat, centerLng := position.value.lng);
      isCreating := true;
    }

    /** Whether createWeedPatch gets past its guard: a user, and neither coordinate
        exactly zero. */
    predicate CanCreate(userId: Option<string>)
      reads this
    {
      userId.Some? && newPatch.centerLat != 0.0 && newPatch.centerLng != 0.0
    }

    /** createWeedPatch: online, one insert carrying the species colour; offline,
        exactly one queued record and no remote call. A success resets the draft and
        closes the form; a failed insert leaves both as they were. */
    method CreateWeedPatch(userId: Option<string>, backend: Backend, offlineId: string, timestamp: string)
      returns (calls: seq<Call>, created: bool)
      modifies this, store
      ensures !old(CanCreate(userId)) ==> calls == [] && !created
      ensures old(CanCreate(userId)) && old(online) ==>
                var row := CreatedRow(userId.value, old(newPatch));
                calls == [InsertPatch(row)] && created == backend.insertPatch(row)
      ensures old(CanCreate(userId)) && !old(online) ==>
                calls == [] && created &&
                store.offlineWeedPatches == old(store.offlineWeedPatches) + [QueuedPatch(old(newPatch), offlineId, timestamp)] &&
                store.localStorage == old(store.localStorage)[PatchesKey := PatchList(store.offlineWeedPatches)]
      ensures old(online) || !old(CanCreate(userId)) ==>
                store.Contents() == old(store.Contents()) && store.localStorage == old(store.localStorage)
      ensures store.offlinePhotos == old(store.offlinePhotos) && store.offlineTracks == old(store.offlineTracks)
      ensures old(store.Mirrored()) ==> store.Mirrored()
      ensures created ==> newPatch == EmptyDraft && !isCreating
      ensures !created ==> newPatch == old(newPatch) && isCreating == old(isCreating)
      ensures editingPatch == old(editingPatch) && online == old(online)
    {
      if userId.None? || newPatch.centerLat == 0.0 || newPatch.centerLng == 0.0 {
        return [], false;
      }
      if online {
        var row := CreatedRow(userId.value, newPatch);
        calls := [InsertPatch(row)];
        created := backend.insertPatch(row);
        if !created {
          return;
        }
      } else {
        store.SaveOfflineWeedPatch(QueuedPatch(newPatch, offlineId, timestamp));
        calls := [];
        created := true;
      }
      newPatch := EmptyDraft;
      isCreating := false;
    }

    /** The edit button, shown only for patches the user may edit. */
    method StartEditing(isAdmin: bool, userId: Option<string>, patch: WeedPatch) returns (started: bool)
      modifies this
      ensures started <==> CanEdit(isAdmin, userId, patch)
      ensures editingPatch == if started then Some(patch) else old(editingPatch)
      ensures newPatch == old(newPatch) && isCreating == old(isCreating) && online == old(online)
    {
      started := CanEdit(isAdmin, userId, patch);
      if started {
        editingPatch := Some(patch);
      }
    }

    /** updateWeedPatch: sends the patch's fields with the recomputed colour; the
        editor closes only when the update succeeds. */
    method UpdateWeedPatch(patch: WeedPatch, now: string, update: PatchUpdate -> bool)
      returns (sent: PatchUpdate, ok: bool)
      modifies this
      ensures sent == UpdateFor(patch, now) && ok == update(sent)
      ensures editingPatch == if ok then None else old(editingPatch)
      ensures newPatch == old(newPatch) && isCreating == old(isCreating) && online == old(online)
    {
      sent := UpdateFor(patch, now);
      ok := update(sent);
      if ok {
        editingPatch := None;
      }
    }

    /** cancelCreate: the form closes and the draft is reset. */
    method CancelCreate()
      modifies this
      ensures newPatch == EmptyDraft && !isCreating
      ensures editingPatch == old(editingPatch) && online == old(online)
    {
      isCreating := false;
      newPatch := EmptyDraft;
    }
  }

  /** A reset draft never passes the create guard, so a second press after a
      successful create inserts nothing. */
  lemma EmptyDraftRefused(f: WeedForm, userId: Option<string>)
    requires f.newPatch == EmptyDraft
    ensures !f.CanCreate(userId)
  {
  }
}
