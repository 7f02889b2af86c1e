/** The replay of queued records of src/hooks/useOfflineSync.ts: photos first, then
    tracks, then weed patches, each kind in queue order, a record leaving the queue
    only once its insert succeeded, and the first failure ending the run. */
module OfflineSync {
  import opened Common
  import opened Types
  import opened Remote
  import opened OfflineStorage

  const SyncingStatus: string := "Syncing offline data..."
  const SyncDoneStatus: string := "Sync completed successfully"
  const SyncFailedStatus: string := "Sync failed - will retry later"

  // ---------------------------------------------------------------------------
  // One record
  // ---------------------------------------------------------------------------

  /** The remote calls made for one record, and whether the record went through. */
  datatype Attempt = Attempt(calls: seq<Call>, ok: bool)

  /** syncPhoto: the upload comes first; a null response throws before any insert. */
  function PhotoAttempt(userId: string, cloudName: string, backend: Backend, p: OfflinePhoto): (a: Attempt)
    ensures |a.calls| >= 1 && a.calls[0] == Upload(p.file)
    ensures backend.upload(p.file).None? ==> a == Attempt([Upload(p.file)], false)
    ensures a.ok <==> backend.upload(p.file).Some? &&
                      backend.insertPhoto(PhotoRowFor(userId, cloudName, backend.upload(p.file).value, p.lat, p.lng))
    ensures backend.upload(p.file).Some? ==>
              a.calls == [Upload(p.file), InsertPhoto(PhotoRowFor(userId, cloudName, backend.upload(p.file).value, p.lat, p.lng))]
  {
    match backend.upload(p.file)
    case None => Attempt([Upload(p.file)], false)
    case Some(r) =>
      var row := PhotoRowFor(userId, cloudName, r, p.lat, p.lng);
      Attempt([Upload(p.file), InsertPhoto(row)], backend.insertPhoto(row))
  }

  function TrackRowFor(userId: string, t: OfflineTrack): TrackRow
  {
    TrackRow(userId, t.name, t.coordinates, t.color)
  }

  /** syncWeedPatch: the colour is recomputed from the species; the notes go as queued. */
  function PatchRowFor(userId: string, w: OfflineWeedPatch): PatchRow
  {
    PatchRow(userId, w.centerLat, w.centerLng, w.diameter, w.species, w.status,
             SpeciesColor(w.species), w.notes)
  }

  function TrackAttempt(userId: string, backend: Backend, t: OfflineTrack): Attempt
  {
    var row := TrackRowFor(userId, t);
    Attempt([InsertTrack(row)], backend.insertTrack(row))
  }

  function PatchAttempt(userId: string, backend: Backend, w: OfflineWeedPatch): Attempt
  {
    var row := PatchRowFor(userId, w);
    Attempt([InsertPatch(row)], backend.insertPatch(row))
  }

  /** The attempt each queued record would make, in queue order. */
  function PhotoAttempts(userId: string, cloudName: string, backend: Backend, ps: seq<OfflinePhoto>): (r: seq<Attempt>)
    ensures |r| == |ps|
    decreases |ps|
  {
    if ps == [] then []
    else [PhotoAttempt(userId, cloudName, backend, ps[0])] + PhotoAttempts(userId, cloudName, backend, ps[1..])
  }

  /** The `k`-th attempt is the one of the `k`-th queued record. */
  lemma {:induction false} PhotoAttemptsSpec(userId: string, cloudName: string, backend: Backend, ps: seq<OfflinePhoto>)
    ensures forall k :: 0 <= k < |ps| ==> PhotoAttempts(userId, cloudName, backend, ps)[k] == PhotoAttempt(userId, cloudName, backend, ps[k])
    decreases |ps|
  {
    if ps != [] {
      PhotoAttemptsSpec(userId, cloudName, backend, ps[1..]);
    }
  }

  function TrackAttempts(userId: string, backend: Backend, ts: seq<OfflineTrack>): (r: seq<Attempt>)
    ensures |r| == |ts|
    decreases |ts|
  {
    if ts == [] then []
    else [TrackAttempt(userId, backend, ts[0])] + TrackAttempts(userId, backend, ts[1..])
  }

  /** The `k`-th attempt is the one of the `k`-th queued record. */
  lemma {:induction false} TrackAttemptsSpec(userId: string, backend: Backend, ts: seq<OfflineTrack>)
    ensures forall k :: 0 <= k < |ts| ==> TrackAttempts(userId, backend, ts)[k] == TrackAttempt(userId, backend, ts[k])
    decreases |ts|
  {
    if ts != [] {
      TrackAttemptsSpec(userId, backend, ts[1..]);
    }
  }

  function PatchAttempts(userId: string, backend: Backend, ws: seq<OfflineWeedPatch>): (r: seq<Attempt>)
    ensures |r| == |ws|
    decreases |ws|
  {
    if ws == [] then []
    else [PatchAttempt(userId, backend, ws[0])] + PatchAttempts(userId, backend, ws[1..])
  }

  /** The `k`-th attempt is the one of the `k`-th queued record. */
  lemma {:induction false} PatchAttemptsSpec(userId: string, backend: Backend, ws: seq<OfflineWeedPatch>)
    ensures forall k :: 0 <= k < |ws| ==> PatchAttempts(userId, backend, ws)[k] == PatchAttempt(userId, backend, ws[k])
    decreases |ws|
  {
    if ws != [] {
      PatchAttemptsSpec(userId, backend, ws[1..]);
    }
  }

  // ---------------------------------------------------------------------------
  // One kind: a `for ... of` loop that stops at the first throw
  // ---------------------------------------------------------------------------

  /** The position of the first attempt that does not go through, or |attempts|. */
  function FirstFailure(attempts: seq<Attempt>): (k: nat)
    ensures k <= |attempts|
    decreases |attempts|
  {
    if attempts == [] || !attempts[0].ok then 0
    else 1 + FirstFailure(attempts[1..])
  }

  /** Every attempt before the first failure went through, and the one at it did not. */
  lemma {:induction false} FirstFailureSpec(attempts: seq<Attempt>)
    ensures var k := FirstFailure(attempts);
            (forall i :: 0 <= i < k ==> attempts[i].ok) && (k < |attempts| ==> !attempts[k].ok)
    decreases |attempts|
  {
    if attempts != [] && attempts[0].ok {
      FirstFailureSpec(attempts[1..]);
    }
  }

  /** The calls of the first `k` attempts, one after the other. */
  function CallsOf(attempts: seq<Attempt>, k: nat): seq<Call>
    requires k <= |attempts|
    decreases k
  {
    if k == 0 then [] else CallsOf(attempts, k - 1) + attempts[k - 1].calls
  }

  /** The outcome of one kind's loop: the calls made, how many records went through,
      and whether a record failed. */
  datatype Run = Run(calls: seq<Call>, synced: nat, failed: bool)

  /** The loop runs the attempts up to and including the first failure. */
  function RunOf(attempts: seq<Attempt>): Run
  {
    var k := FirstFailure(attempts);
    Run(CallsOf(attempts, k) + (if k < |attempts| then attempts[k].calls else []),
        k, k < |attempts|)
  }

  /** Any position with only successes before it and a failure (or the end) at it is
      the first failure, and determines the run. */
  lemma {:induction false} RunAt(attempts: seq<Attempt>, k: nat)
    requires k <= |attempts|
    requires forall i :: 0 <= i < k ==> attempts[i].ok
    requires k < |attempts| ==> !attempts[k].ok
    ensures FirstFailure(attempts) == k
    ensures RunOf(attempts) == Run(CallsOf(attempts, k) + (if k < |attempts| then attempts[k].calls else []),
                                   k, k < |attempts|)
    decreases k
  {
    if k > 0 {
      RunAt(attempts[1..], k - 1);
    }
  }

  /** The records that stay queued once the first `synced` went through, each
      removal applied to the list the previous one left. */
  function Remaining<T(==,!new)>(items: seq<T>, idOf: T -> string, synced: nat): seq<T>
    requires synced <= |items|
    decreases synced
  {
    if synced == 0 then items
    else WithoutId(Remaining(items, idOf, synced - 1), idOf, idOf(items[synced - 1]))
  }

  /** The removals add up to removing every synced id at once. */
  lemma {:induction false} RemainingWithoutIds<T(!new)>(items: seq<T>, idOf: T -> string, synced: nat)
    requires synced <= |items|
    ensures Remaining(items, idOf, synced) == WithoutIds(items, idOf, IdsOf(items[..synced], idOf))
    decreases synced
  {
    if synced == 0 {
      assert IdsOf(items[..0], idOf) == {};
      WithoutNoIds(items, idOf);
    } else {
      var k := synced - 1;
      RemainingWithoutIds(items, idOf, k);
      assert items[..k + 1] == items[..k] + [items[k]];
      assert IdsOf(items[..k + 1], idOf) == IdsOf(items[..k], idOf) + {idOf(items[k])};
      WithoutIdsStep(items, idOf, IdsOf(items[..k], idOf), idOf(items[k]));
    }
  }

  /** The state of one kind's loop after `i` records went through: the calls made so
      far (including the failing record's when `failed`) and the list left queued. */
  ghost predicate RunSoFar<T(!new)>(attempts: seq<Attempt>, items: seq<T>, idOf: T -> string,
                              i: nat, calls: seq<Call>, failed: bool, list: seq<T>)
  {
    && |attempts| == |items| && i <= |items|
    && (forall j :: 0 <= j < i ==> attempts[j].ok)
    && list == Remaining(items, idOf, i)
    && if failed then i < |items| && !attempts[i].ok && calls == CallsOf(attempts, i + 1)
       else calls == CallsOf(attempts, i)
  }

  /** A loop that stopped at a failure or at the end has made exactly the run. */
  lemma RunEnds<T(!new)>(attempts: seq<Attempt>, items: seq<T>, idOf: T -> string,
                         i: nat, calls: seq<Call>, failed: bool, list: seq<T>)
    requires RunSoFar(attempts, items, idOf, i, calls, failed, list)
    requires failed || i == |items|
    ensures var r := RunOf(attempts);
            calls == r.calls && failed == r.failed && r.synced == i && list == Remaining(items, idOf, r.synced)
  {
    RunAt(attempts, i);
  }

  // ---------------------------------------------------------------------------
  // A whole run
  // ---------------------------------------------------------------------------

  datatype Outcome = Outcome(calls: seq<Call>, remaining: Queues, failed: bool)

  /** syncOfflineData once its guard passed, over the queues `q` it starts from. */
  function SyncPlan(userId: string, cloudName: string, backend: Backend, q: Queues): Outcome
  {
    var p := RunOf(PhotoAttempts(userId, cloudName, backend, q.photos));
    var photos := Remaining(q.photos, PhotoId, p.synced);
    if p.failed then Outcome(p.calls, Queues(photos, q.tracks, q.patches), true)
    else
      var t := RunOf(TrackAttempts(userId, backend, q.tracks));
      var tracks := Remaining(q.tracks, TrackId, t.synced);
      if t.failed then Outcome(p.calls + t.calls, Queues(photos, tracks, q.patches), true)
      else
        var w := RunOf(PatchAttempts(userId, backend, q.patches));
        Outcome(p.calls + t.calls + w.calls,
                Queues(photos, tracks, Remaining(q.patches, PatchId, w.synced)), w.failed)
  }

  /** The storage after one kind's loop: each removal rewrites that kind's slot, so the
      slot holds the remaining list from the first removal on and nothing else changes. */
  function AfterRemovals(s: map<string, Stored>, key: string, removed: nat, list: Stored): (r: map<string, Stored>)
    ensures forall k :: k != key ==> (k in r <==> k in s) && (k in s ==> r[k] == s[k])
    ensures removed > 0 ==> key in r && r[key] == list
    ensures removed == 0 ==> r == s
  {
    if removed == 0 then s else s[key := list]
  }

  /** The local storage after a run over queues `q` and storage `s0`, once its guard
      passed: the slot of each kind the run reached is rewritten after each removal.
      A run writes only the three queue slots, and storage that mirrored the queues
      before it mirrors the queues it leaves. */
  function SyncStorage(userId: string, cloudName: string, backend: Backend, q: Queues,
                       s0: map<string, Stored>): (r: map<string, Stored>)
    ensures forall k :: k != PhotosKey && k != TracksKey && k != PatchesKey ==>
              (k in r <==> k in s0) && (k in s0 ==> r[k] == s0[k])
    ensures Mirrors(s0, q) ==> Mirrors(r, SyncPlan(userId, cloudName, backend, q).remaining)
  {
    var o := SyncPlan(userId, cloudName, backend, q);
    var p := RunOf(PhotoAttempts(userId, cloudName, backend, q.photos));
    var s1 := AfterRemovals(s0, PhotosKey, p.synced, PhotoList(o.remaining.photos));
    if p.failed then s1
    else
      var t := RunOf(TrackAttempts(userId, backend, q.tracks));
      var s2 := AfterRemovals(s1, TracksKey, t.synced, TrackList(o.remaining.tracks));
      if t.failed then s2
      else
        var w := RunOf(PatchAttempts(userId, backend, q.patches));
        AfterRemovals(s2, PatchesKey, w.synced, PatchList(o.remaining.patches))
  }

  lemma RemainingSubsequence<T(!new)>(items: seq<T>, idOf: T -> string, synced: nat)
    requires synced <= |items|
    ensures IsSubsequence(Remaining(items, idOf, synced), items)
  {
    RemainingWithoutIds(items, idOf, synced);
    var ids := IdsOf(items[..synced], idOf);
    FilterSubsequence(items, x => idOf(x) !in ids);
  }

  /** A run only ever deletes queued records: each queue ends as a subsequence of
      what it held, with nothing added and nothing reordered. */
  lemma SyncOnlyDeletes(userId: string, cloudName: string, backend: Backend, q: Queues)
    ensures var o := SyncPlan(userId, cloudName, backend, q);
            IsSubsequence(o.remaining.photos, q.photos) &&
            IsSubsequence(o.remaining.tracks, q.tracks) &&
            IsSubsequence(o.remaining.patches, q.patches)
  {
    var p := RunOf(PhotoAttempts(userId, cloudName, backend, q.photos));
    var t := RunOf(TrackAttempts(userId, backend, q.tracks));
    var w := RunOf(PatchAttempts(userId, backend, q.patches));
    RemainingSubsequence(q.photos, PhotoId, p.synced);
    RemainingSubsequence(q.tracks, TrackId, t.synced);
    RemainingSubsequence(q.patches, PatchId, w.synced);
    SubsequenceOfSelf(q.tracks);
    SubsequenceOfSelf(q.patches);
  }

  /** Photos' calls come first, then tracks', then weed patches'. */
  function KindOf(c: Call): nat
  {
    match c
    case Upload(_) => 0
    case InsertPhoto(_) => 0
    case InsertTrack(_) => 1
    case InsertPatch(_) => 2
  }

  ghost predicate AllOfKind(calls: seq<Call>, kind: nat)
  {
    forall i :: 0 <= i < |calls| ==> KindOf(calls[i]) == kind
  }

  lemma {:induction false} CallsOfKind(attempts: seq<Attempt>, k: nat, kind: nat)
    requires k <= |attempts|
    requires forall i :: 0 <= i < |attempts| ==> AllOfKind(attempts[i].calls, kind)
    ensures AllOfKind(CallsOf(attempts, k), kind)
    decreases k
  {
    if k > 0 {
      CallsOfKind(attempts, k - 1, kind);
    }
  }

  lemma RunOfKind(attempts: seq<Attempt>, kind: nat)
    requires forall i :: 0 <= i < |attempts| ==> AllOfKind(attempts[i].calls, kind)
    ensures AllOfKind(RunOf(attempts).calls, kind)
  {
    CallsOfKind(attempts, FirstFailure(attempts), kind);
  }

  ghost predicate KindOrdered(calls: seq<Call>)
  {
    forall i, j :: 0 <= i < j < |calls| ==> KindOf(calls[i]) <= KindOf(calls[j])
  }

  lemma ConcatKindOrdered(a: seq<Call>, b: seq<Call>, c: seq<Call>)
    requires AllOfKind(a, 0) && AllOfKind(b, 1) && AllOfKind(c, 2)
    ensures KindOrdered(a) && KindOrdered(a + b) && KindOrdered(a + b + c)
  {
    var all := a + b + c;
    assert forall i :: 0 <= i < |a + b| ==> (a + b)[i] == all[i];
    forall i | 0 <= i < |all|
      ensures KindOf(all[i]) == if i < |a| then 0 else if i < |a| + |b| then 1 else 2
    {
      if i < |a| {
        assert all[i] == a[i];
      } else if i < |a| + |b| {
        assert all[i] == b[i - |a|];
      } else {
        assert all[i] == c[i - |a| - |b|];
      }
    }
  }

  /** Every photo call precedes every track call, which precedes every patch call. */
  lemma SyncCallsOrdered(userId: string, cloudName: string, backend: Backend, q: Queues)
    ensures KindOrdered(SyncPlan(userId, cloudName, backend, q).calls)
  {
    var ap := PhotoAttempts(userId, cloudName, backend, q.photos);
    var at := TrackAttempts(userId, backend, q.tracks);
    var aw := PatchAttempts(userId, backend, q.patches);
    PhotoAttemptsSpec(userId, cloudName, backend, q.photos);
    TrackAttemptsSpec(userId, backend, q.tracks);
    PatchAttemptsSpec(userId, backend, q.patches);
    RunOfKind(ap, 0);
    RunOfKind(at, 1);
    RunOfKind(aw, 2);
    ConcatKindOrdered(RunOf(ap).calls, RunOf(at).calls, RunOf(aw).calls);
  }

  /** A run fails exactly when some record of some kind does not go through. */
  lemma SyncFailsIffSomeAttemptFails(userId: string, cloudName: string, backend: Backend, q: Queues)
    ensures !SyncPlan(userId, cloudName, backend, q).failed <==>
            (forall i :: 0 <= i < |q.photos| ==> PhotoAttempt(userId, cloudName, backend, q.photos[i]).ok) &&
            (forall i :: 0 <= i < |q.tracks| ==> TrackAttempt(userId, backend, q.tracks[i]).ok) &&
            (forall i :: 0 <= i < |q.patches| ==> PatchAttempt(userId, backend, q.patches[i]).ok)
  {
    var ap := PhotoAttempts(userId, cloudName, backend, q.photos);
    var at := TrackAttempts(userId, backend, q.tracks);
    var aw := PatchAttempts(userId, backend, q.patches);
    var kp, kt, kw := FirstFailure(ap), FirstFailure(at), FirstFailure(aw);
    PhotoAttemptsSpec(userId, cloudName, backend, q.photos);
    TrackAttemptsSpec(userId, backend, q.tracks);
    PatchAttemptsSpec(userId, backend, q.patches);
    FirstFailureSpec(ap);
    FirstFailureSpec(at);
    FirstFailureSpec(aw);
    if kp < |q.photos| {
      assert !ap[kp].ok;
    } else if kt < |q.tracks| {
      assert !at[kt].ok;
    } else if kw < |q.patches| {
      assert !aw[kw].ok;
    }
  }

  /** A failing photo ends the run: no track or patch is attempted and both of those
      queues stay as they were. */
  lemma PhotoFailureSkipsLaterKinds(userId: string, cloudName: string, backend: Backend, q: Queues)
    requires exists i :: 0 <= i < |q.photos| && !PhotoAttempt(userId, cloudName, backend, q.photos[i]).ok
    ensures var o := SyncPlan(userId, cloudName, backend, q);
            o.failed && AllOfKind(o.calls, 0) &&
            o.remaining.tracks == q.tracks && o.remaining.patches == q.patches
  {
    var ap := PhotoAttempts(userId, cloudName, backend, q.photos);
    var i :| 0 <= i < |q.photos| && !PhotoAttempt(userId, cloudName, backend, q.photos[i]).ok;
    PhotoAttemptsSpec(userId, cloudName, backend, q.photos);
    assert !ap[i].ok;
    FirstFailureSpec(ap);
    RunOfKind(ap, 0);
  }

  /** A failing track ends the run after every photo went through: no patch is
      attempted and the patch queue stays as it was. */
  lemma TrackFailureSkipsPatches(userId: string, cloudName: string, backend: Backend, q: Queues)
    requires exists i :: 0 <= i < |q.tracks| && !TrackAttempt(userId, backend, q.tracks[i]).ok
    ensures var o := SyncPlan(userId, cloudName, backend, q);
            o.failed && o.remaining.patches == q.patches &&
            forall i :: 0 <= i < |o.calls| ==> KindOf(o.calls[i]) < 2
  {
    var ap := PhotoAttempts(userId, cloudName, backend, q.photos);
    var at := TrackAttempts(userId, backend, q.tracks);
    var i :| 0 <= i < |q.tracks| && !TrackAttempt(userId, backend, q.tracks[i]).ok;
    PhotoAttemptsSpec(userId, cloudName, backend, q.photos);
    TrackAttemptsSpec(userId, backend, q.tracks);
    assert !at[i].ok;
    FirstFailureSpec(at);
    var p, t := RunOf(ap), RunOf(at);
    RunOfKind(ap, 0);
    RunOfKind(at, 1);
    var o := SyncPlan(userId, cloudName, backend, q);
    if !p.failed {
      assert o.calls == p.calls + t.calls;
      forall j | 0 <= j < |o.calls| ensures KindOf(o.calls[j]) < 2 {
        if j < |p.calls| { assert o.calls[j] == p.calls[j]; }
        else { assert o.calls[j] == t.calls[j - |p.calls|]; }
      }
    }
  }

  /** With distinct ids, each queue keeps exactly the records from its first failure
      on, so the record that failed stays queued and everything after it too. */
  lemma SyncKeepsUnsyncedSuffix(userId: string, cloudName: string, backend: Backend, q: Queues)
    requires DistinctIds(q.photos, PhotoId) && DistinctIds(q.tracks, TrackId) && DistinctIds(q.patches, PatchId)
    ensures var o := SyncPlan(userId, cloudName, backend, q);
            var kp := FirstFailure(PhotoAttempts(userId, cloudName, backend, q.photos));
            var kt := FirstFailure(TrackAttempts(userId, backend, q.tracks));
            var kw := FirstFailure(PatchAttempts(userId, backend, q.patches));
            o.remaining.photos == q.photos[kp..] &&
            o.remaining.tracks == (if kp < |q.photos| then q.tracks else q.tracks[kt..]) &&
            o.remaining.patches == (if kp < |q.photos| || kt < |q.tracks| then q.patches else q.patches[kw..])
  {
    var kp := FirstFailure(PhotoAttempts(userId, cloudName, backend, q.photos));
    var kt := FirstFailure(TrackAttempts(userId, backend, q.tracks));
    var kw := FirstFailure(PatchAttempts(userId, backend, q.patches));
    RemainingWithoutIds(q.photos, PhotoId, kp);
    RemainingWithoutIds(q.tracks, TrackId, kt);
    RemainingWithoutIds(q.patches, PatchId, kw);
    WithoutPrefixIds(q.photos, PhotoId, kp);
    WithoutPrefixIds(q.tracks, TrackId, kt);
    WithoutPrefixIds(q.patches, PatchId, kw);
  }

  /** Removing the ids of a whole list leaves nothing of it. */
  lemma RemainingAll<T(!new)>(items: seq<T>, idOf: T -> string)
    ensures Remaining(items, idOf, |items|) == []
  {
    RemainingWithoutIds(items, idOf, |items|);
    var ids := IdsOf(items[..|items|], idOf);
    assert items[..|items|] == items;
    forall i | 0 <= i < |items| ensures !(idOf(items[i]) !in ids) {
      assert idOf(items[..|items|][i]) in ids;
    }
    FilterDropsAll(items, x => idOf(x) !in ids);
  }

  /** A run with no failure leaves all three queues empty. */
  lemma SuccessfulSyncEmptiesQueues(userId: string, cloudName: string, backend: Backend, q: Queues)
    requires !SyncPlan(userId, cloudName, backend, q).failed
    ensures SyncPlan(userId, cloudName, backend, q).remaining == Queues([], [], [])
  {
    var p := RunOf(PhotoAttempts(userId, cloudName, backend, q.photos));
    var t := RunOf(TrackAttempts(userId, backend, q.tracks));
    var w := RunOf(PatchAttempts(userId, backend, q.patches));
    assert !p.failed && !t.failed && !w.failed;
    assert p.synced == |q.photos| && t.synced == |q.tracks| && w.synced == |q.patches|;
    RemainingAll(q.photos, PhotoId);
    RemainingAll(q.tracks, TrackId);
    RemainingAll(q.patches, PatchId);
  }

  // ---------------------------------------------------------------------------
  // The hook's guard and the online event
  // ---------------------------------------------------------------------------

  /** The run starts only with a signed-in user, no run in progress, and online. */
  predicate SyncGuard(user: Option<string>, isSyncing: bool, online: bool)
  {
    user.Some? && !isSyncing && online
  }

  /** handleOnline as written: its closure was made while the hook still held the
      `online` value from before the event, and that is what the guard reads. */
  predicate AutoSyncAsWritten(user: Option<string>, isSyncing: bool, onlineBefore: bool, hasData: bool)
  {
    hasData && SyncGuard(user, isSyncing, onlineBefore)
  }

  /** handleOnline as intended: the guard reads the state the event just set. */
  predicate AutoSync(user: Option<string>, isSyncing: bool, hasData: bool)
  {
    hasData && SyncGuard(user, isSyncing, true)
  }

  /** After an offline period the written handler never syncs; the intended one
      syncs exactly when a user is signed in, no run is active and data is queued. */
  lemma AutoSyncAfterOffline(user: Option<string>, isSyncing: bool, hasData: bool)
    ensures !AutoSyncAsWritten(user, isSyncing, false, hasData)
    ensures AutoSync(user, isSyncing, hasData) <==> user.Some? && !isSyncing && hasData
  {
  }

  /** The remove functions used by a run filter the list captured when the run's
      closure was made, so the last removal decides the stored list. */
  function StaleRemaining<T(==,!new)>(captured: seq<T>, idOf: T -> string, synced: nat): seq<T>
    requires synced <= |captured|
  {
    if synced == 0 then captured else WithoutId(captured, idOf, idOf(captured[synced - 1]))
  }

  /** With two or more records synced, the written code puts the first one back in the
      queue (to be uploaded again next time); the intended removal drops it. */
  lemma StaleRemoveResurrects<T(!new)>(captured: seq<T>, idOf: T -> string, synced: nat)
    requires 2 <= synced <= |captured| && DistinctIds(captured, idOf)
    ensures captured[0] in StaleRemaining(captured, idOf, synced)
    ensures captured[0] !in Remaining(captured, idOf, synced)
  {
    var last := idOf(captured[synced - 1]);
    FilterMembers(captured, x => idOf(x) != last);
    var ids := IdsOf(captured[..synced], idOf);
    RemainingWithoutIds(captured, idOf, synced);
    assert captured[..synced][0] == captured[0];
    FilterMembers(captured, x => idOf(x) !in ids);
  }

  /** The smallest instance: two queued photos, both uploaded, one still queued. */
  lemma StaleRemoveExample()
    ensures var p1 := OfflinePhoto("offline-1", PhotoFile("a.jpg"), 0.0, 0.0, "t1");
            var p2 := OfflinePhoto("offline-2", PhotoFile("b.jpg"), 0.0, 0.0, "t2");
            StaleRemaining([p1, p2], PhotoId, 2) == [p1] && Remaining([p1, p2], PhotoId, 2) == []
  {
    var p1 := OfflinePhoto("offline-1", PhotoFile("a.jpg"), 0.0, 0.0, "t1");
    var p2 := OfflinePhoto("offline-2", PhotoFile("b.jpg"), 0.0, 0.0, "t2");
    var s := [p1, p2];
    assert s[1..] == [p2] && [p2][1..] == [];
    assert s == [p1] + [p2] && p2.id !in IdsOf([p1], PhotoId);
    SaveThenRemove([p1], PhotoId, p2);
    RemainingAll(s, PhotoId);
  }

  /** The photo loop after `i` records went through, started from queues `q0` and
      storage `s0`: only the photos queue and its storage slot have changed, and the slot
      is written from the first removal on. */
  ghost predicate PhotoLoop(userId: string, cloudName: string, backend: Backend, q0: Queues, s0: map<string, Stored>,
                            i: nat, calls: seq<Call>, failed: bool, q: Queues, s: map<string, Stored>)
  {
    && RunSoFar(PhotoAttempts(userId, cloudName, backend, q0.photos), q0.photos, PhotoId, i, calls, failed, q.photos)
    && q.tracks == q0.tracks && q.patches == q0.patches
    && s == if i == 0 then s0 else s0[PhotosKey := PhotoList(q.photos)]
  }

  /** When the photo loop stops it has made the run of its attempts, and a store that
      mirrored its storage still does. */
  lemma PhotoLoopEnds(userId: string, cloudName: string, backend: Backend, q0: Queues, s0: map<string, Stored>,
                      i: nat, calls: seq<Call>, failed: bool, q: Queues, s: map<string, Stored>)
    requires PhotoLoop(userId, cloudName, backend, q0, s0, i, calls, failed, q, s)
    requires failed || i == |q0.photos|
    ensures var r := RunOf(PhotoAttempts(userId, cloudName, backend, q0.photos));
            calls == r.calls && failed == r.failed &&
            q == q0.(photos := Remaining(q0.photos, PhotoId, r.synced)) &&
            s == AfterRemovals(s0, PhotosKey, r.synced, PhotoList(q.photos))
    ensures Mirrors(s0, q0) ==> Mirrors(s, q)
  {
    RunEnds(PhotoAttempts(userId, cloudName, backend, q0.photos), q0.photos, PhotoId, i, calls, failed, q.photos);
  }

  /** The track loop after `i` records went through, started from queues `q0` and
      storage `s0`: only the tracks queue and its storage slot have changed, and the slot
      is written from the first removal on. */
  ghost predicate TrackLoop(userId: string, backend: Backend, q0: Queues, s0: map<string, Stored>,
                            i: nat, calls: seq<Call>, failed: bool, q: Queues, s: map<string, Stored>)
  {
    && RunSoFar(TrackAttempts(userId, backend, q0.tracks), q0.tracks, TrackId, i, calls, failed, q.tracks)
    && q.photos == q0.photos && q.patches == q0.patches
    && s == if i == 0 then s0 else s0[TracksKey := TrackList(q.tracks)]
  }

  /** When the track loop stops it has made the run of its attempts, and a store that
      mirrored its storage still does. */
  lemma TrackLoopEnds(userId: string, backend: Backend, q0: Queues, s0: map<string, Stored>,
                      i: nat, calls: seq<Call>, failed: bool, q: Queues, s: map<string, Stored>)
    requires TrackLoop(userId, backend, q0, s0, i, calls, failed, q, s)
    requires failed || i == |q0.tracks|
    ensures var r := RunOf(TrackAttempts(userId, backend, q0.tracks));
            calls == r.calls && failed == r.failed &&
            q == q0.(tracks := Remaining(q0.tracks, TrackId, r.synced)) &&
            s == AfterRemovals(s0, TracksKey, r.synced, TrackList(q.tracks))
    ensures Mirrors(s0, q0) ==> Mirrors(s, q)
  {
    RunEnds(TrackAttempts(userId, backend, q0.tracks), q0.tracks, TrackId, i, calls, failed, q.tracks);
  }

  /** The weed-patch loop after `i` records went through, started from queues `q0` and
      storage `s0`: only the patches queue and its storage slot have changed, and the slot
      is written from the first removal on. */
  ghost predicate PatchLoop(userId: string, backend: Backend, q0: Queues, s0: map<string, Stored>,
                            i: nat, calls: seq<Call>, failed: bool, q: Queues, s: map<string, Stored>)
  {
    && RunSoFar(PatchAttempts(userId, backend, q0.patches), q0.patches, PatchId, i, calls, failed, q.patches)
    && q.photos == q0.photos && q.tracks == q0.tracks
    && s == if i == 0 then s0 else s0[PatchesKey := PatchList(q.patches)]
  }

  /** When the weed-patch loop stops it has made the run of its attempts, and a store that
      mirrored its storage still does. */
  lemma PatchLoopEnds(userId: string, backend: Backend, q0: Queues, s0: map<string, Stored>,
                      i: nat, calls: seq<Call>, failed: bool, q: Queues, s: map<string, Stored>)
    requires PatchLoop(userId, backend, q0, s0, i, calls, failed, q, s)
    requires failed || i == |q0.patches|
    ensures var r := RunOf(PatchAttempts(userId, backend, q0.patches));
            calls == r.calls && failed == r.failed &&
            q == q0.(patches := Remaining(q0.patches, PatchId, r.synced)) &&
            s == AfterRemovals(s0, PatchesKey, r.synced, PatchList(q.patches))
    ensures Mirrors(s0, q0) ==> Mirrors(s, q)
  {
    RunEnds(PatchAttempts(userId, backend, q0.patches), q0.patches, PatchId, i, calls, failed, q.patches);
  }

  // ---------------------------------------------------------------------------
  // The hook
  // ---------------------------------------------------------------------------

  /** useOfflineSync over one shared store. */
  class SyncHook {
    var isSyncing: bool
    var syncStatus: string
    var online: bool
    const store: OfflineStore

    constructor (store: OfflineStore, navigatorOnline: bool)
      ensures this.store == store
      ensures !isSyncing && syncStatus == "" && online == navigatorOnline
    {
      this.store := store;
      isSyncing := false;
      syncStatus := "";
      online := navigatorOnline;
    }

    /** The number of queued records, zero exactly when nothing is queued. */
    function PendingCount(): (n: nat)
      reads store
      ensures n == 0 <==> !store.HasOfflineData()
      ensures n >= |store.offlinePhotos| && n >= |store.offlineTracks| && n >= |store.offlineWeedPatches|
    {
      |store.offlinePhotos| + |store.offlineTracks| + |store.offlineWeedPatches|
    }

    /** syncPhoto: upload, insert, and remove the record once both succeeded. */
    method SyncPhoto(userId: string, cloudName: string, backend: Backend, photo: OfflinePhoto)
      returns (calls: seq<Call>, ok: bool)
      modifies store
      ensures Attempt(calls, ok) == PhotoAttempt(userId, cloudName, backend, photo)
      ensures store.offlinePhotos == if ok then WithoutId(old(store.offlinePhotos), PhotoId, photo.id)
                                     else old(store.offlinePhotos)
      ensures store.offlineTracks == old(store.offlineTracks)
      ensures store.offlineWeedPatches == old(store.offlineWeedPatches)
      ensures store.localStorage == if ok then old(store.localStorage)[PhotosKey := PhotoList(store.offlinePhotos)]
                                    else old(store.localStorage)
    {
      var response := backend.upload(photo.file);
      calls := [Upload(photo.file)];
      if response.None? {
        return calls, false;
      }
      var thumbnailUrl := ThumbnailUrl(cloudName, response.value.publicId);
      var row := PhotoRow(userId, response.value.secureUrl, thumbnailUrl, photo.lat, photo.lng);
      calls := calls + [InsertPhoto(row)];
      ok := backend.insertPhoto(row);
      if ok {
        store.RemoveOfflinePhoto(photo.id);
      }
    }

    method SyncTrack(userId: string, backend: Backend, track: OfflineTrack)
      returns (calls: seq<Call>, ok: bool)
      modifies store
      ensures Attempt(calls, ok) == TrackAttempt(userId, backend, track)
      ensures store.offlineTracks == if ok then WithoutId(old(store.offlineTracks), TrackId, track.id)
                                     else old(store.offlineTracks)
      ensures store.offlinePhotos == old(store.offlinePhotos)
      ensures store.offlineWeedPatches == old(store.offlineWeedPatches)
      ensures store.localStorage == if ok then old(store.localStorage)[TracksKey := TrackList(store.offlineTracks)]
                                    else old(store.localStorage)
    {
      var row := TrackRow(userId, track.name, track.coordinates, track.color);
      calls := [InsertTrack(row)];
      ok := backend.insertTrack(row);
      if ok {
        store.RemoveOfflineTrack(track.id);
      }
    }

    method SyncWeedPatch(userId: string, backend: Backend, patch: OfflineWeedPatch)
      returns (calls: seq<Call>, ok: bool)
      modifies store
      ensures Attempt(calls, ok) == PatchAttempt(userId, backend, patch)
      ensures store.offlineWeedPatches == if ok then WithoutId(old(store.offlineWeedPatches), PatchId, patch.id)
                                          else old(store.offlineWeedPatches)
      ensures store.offlinePhotos == old(store.offlinePhotos)
      ensures store.offlineTracks == old(store.offlineTracks)
      ensures store.localStorage == if ok then old(store.localStorage)[PatchesKey := PatchList(store.offlineWeedPatches)]
                                    else old(store.localStorage)
    {
      var speciesColor := GetSpeciesColor(patch.species);
      var row := PatchRow(userId, patch.centerLat, patch.centerLng, patch.diameter, patch.species,
                          patch.status, speciesColor, patch.notes);
      calls := [InsertPatch(row)];
      ok := backend.insertPatch(row);
      if ok {
        store.RemoveOfflineWeedPatch(patch.id);
      }
    }

    /** One pass of the photo loop: the `i`-th queued record is attempted, its calls
        join those made before, and it leaves the queue once it went through. */
    method SyncPhotoAt(userId: string, cloudName: string, backend: Backend, ghost q0: Queues, ghost s0: map<string, Stored>,
                     i: nat, photo: OfflinePhoto, before: seq<Call>)
      returns (calls: seq<Call>, ok: bool)
      requires i < |q0.photos| && photo == q0.photos[i]
      requires PhotoLoop(userId, cloudName, backend, q0, s0, i, before, false, store.Contents(), store.localStorage)
      modifies store
      ensures ok ==> PhotoLoop(userId, cloudName, backend, q0, s0, i + 1, calls, false, store.Contents(), store.localStorage)
      ensures !ok ==> PhotoLoop(userId, cloudName, backend, q0, s0, i, calls, true, store.Contents(), store.localStorage)
    {
      var c;
      c, ok := SyncPhoto(userId, cloudName, backend, photo);
      assert PhotoAttempts(userId, cloudName, backend, q0.photos)[i] == Attempt(c, ok) by {
        PhotoAttemptsSpec(userId, cloudName, backend, q0.photos);
      }
      calls := before + c;
    }

    /** The photo loop of syncOfflineData. */
    method SyncPhotos(userId: string, cloudName: string, backend: Backend)
      returns (calls: seq<Call>, failed: bool)
      modifies store
      ensures var r := RunOf(PhotoAttempts(userId, cloudName, backend, old(store.offlinePhotos)));
              calls == r.calls && failed == r.failed &&
              store.Contents() == old(store.Contents()).(photos := Remaining(old(store.offlinePhotos), PhotoId, r.synced)) &&
              store.localStorage == AfterRemovals(old(store.localStorage), PhotosKey, r.synced, PhotoList(store.offlinePhotos))
      ensures old(store.Mirrored()) ==> store.Mirrored()
    {
      ghost var q0, s0 := store.Contents(), store.localStorage;
      var items := store.offlinePhotos;
      calls, failed := [], false;
      var i := 0;
      while i < |items|
        invariant items == q0.photos
        invariant PhotoLoop(userId, cloudName, backend, q0, s0, i, calls, false, store.Contents(), store.localStorage)
      {
        var ok;
        calls, ok := SyncPhotoAt(userId, cloudName, backend, q0, s0, i, items[i], calls);
        if !ok {
          failed := true;
          break;
        }
        i := i + 1;
      }
      PhotoLoopEnds(userId, cloudName, backend, q0, s0, i, calls, failed, store.Contents(), store.localStorage);
    }

    /** One pass of the track loop: the `i`-th queued record is attempted, its calls
        join those made before, and it leaves the queue once it went through. */
    method SyncTrackAt(userId: string, backend: Backend, ghost q0: Queues, ghost s0: map<string, Stored>,
                     i: nat, track: OfflineTrack, before: seq<Call>)
      returns (calls: seq<Call>, ok: bool)
      requires i < |q0.tracks| && track == q0.tracks[i]
      requires TrackLoop(userId, backend, q0, s0, i, before, false, store.Contents(), store.localStorage)
      modifies store
      ensures ok ==> TrackLoop(userId, backend, q0, s0, i + 1, calls, false, store.Contents(), store.localStorage)
      ensures !ok ==> TrackLoop(userId, backend, q0, s0, i, calls, true, store.Contents(), store.localStorage)
    {
      var c;
      c, ok := SyncTrack(userId, backend, track);
      assert TrackAttempts(userId, backend, q0.tracks)[i] == Attempt(c, ok) by {
        TrackAttemptsSpec(userId, backend, q0.tracks);
      }
      calls := before + c;
    }

    /** The track loop of syncOfflineData. */
    method SyncTracks(userId: string, backend: Backend)
      returns (calls: seq<Call>, failed: bool)
      modifies store
      ensures var r := RunOf(TrackAttempts(userId, backend, old(store.offlineTracks)));
              calls == r.calls && failed == r.failed &&
              store.Contents() == old(store.Contents()).(tracks := Remaining(old(store.offlineTracks), TrackId, r.synced)) &&
              store.localStorage == AfterRemovals(old(store.localStorage), TracksKey, r.synced, TrackList(store.offlineTracks))
      ensures old(store.Mirrored()) ==> store.Mirrored()
    {
      ghost var q0, s0 := store.Contents(), store.localStorage;
      var items := store.offlineTracks;
      calls, failed := [], false;
      var i := 0;
      while i < |items|
        invariant items == q0.tracks
        invariant TrackLoop(userId, backend, q0, s0, i, calls, false, store.Contents(), store.localStorage)
      {
        var ok;
        calls, ok := SyncTrackAt(userId, backend, q0, s0, i, items[i], calls);
        if !ok {
          failed := true;
          break;
        }
        i := i + 1;
      }
      TrackLoopEnds(userId, backend, q0, s0, i, calls, failed, store.Contents(), store.localStorage);
    }

    /** One pass of the weed-patch loop: the `i`-th queued record is attempted, its calls
        join those made before, and it leaves the queue once it went through. */
    method SyncWeedPatchAt(userId: string, backend: Backend, ghost q0: Queues, ghost s0: map<string, Stored>,
                     i: nat, patch: OfflineWeedPatch, before: seq<Call>)
      returns (calls: seq<Call>, ok: bool)
      requires i < |q0.patches| && patch == q0.patches[i]
      requires PatchLoop(userId, backend, q0, s0, i, before, false, store.Contents(), store.localStorage)
      modifies store
      ensures ok ==> PatchLoop(userId, backend, q0, s0, i + 1, calls, false, store.Contents(), store.localStorage)
      ensures !ok ==> PatchLoop(userId, backend, q0, s0, i, calls, true, store.Contents(), store.localStorage)
    {
      var c;
      c, ok := SyncWeedPatch(userId, backend, patch);
      assert PatchAttempts(userId, backend, q0.patches)[i] == Attempt(c, ok) by {
        PatchAttemptsSpec(userId, backend, q0.patches);
      }
      calls := before + c;
    }

    /** The weed-patch loop of syncOfflineData. */
    method SyncWeedPatches(userId: string, backend: Backend)
      returns (calls: seq<Call>, failed: bool)
      modifies store
      ensures var r := RunOf(PatchAttempts(userId, backend, old(store.offlineWeedPatches)));
              calls == r.calls && failed == r.failed &&
              store.Contents() == old(store.Contents()).(patches := Remaining(old(store.offlineWeedPatches), PatchId, r.synced)) &&
              store.localStorage == AfterRemovals(old(store.localStorage), PatchesKey, r.synced, PatchList(store.offlineWeedPatches))
      ensures old(store.Mirrored()) ==> store.Mirrored()
    {
      ghost var q0, s0 := store.Contents(), store.localStorage;
      var items := store.offlineWeedPatches;
      calls, failed := [], false;
      var i := 0;
      while i < |items|
        invariant items == q0.patches
        invariant PatchLoop(userId, backend, q0, s0, i, calls, false, store.Contents(), store.localStorage)
      {
        var ok;
        calls, ok := SyncWeedPatchAt(userId, backend, q0, s0, i, items[i], calls);
        if !ok {
          failed := true;
          break;
        }
        i := i + 1;
      }
      PatchLoopEnds(userId, backend, q0, s0, i, calls, failed, store.Contents(), store.localStorage);
    }

    /** syncOfflineData: nothing happens unless the guard passes; otherwise the three
        loops run in order until one fails, `isSyncing` is raised for the run and
        lowered after it, and the status reports the outcome. */
    method SyncOfflineData(user: Option<string>, backend: Backend, cloudName: string)
      returns (calls: seq<Call>)
      modifies this, store
      ensures online == old(online)
      ensures !SyncGuard(user, old(isSyncing), old(online)) ==>
                calls == [] && isSyncing == old(isSyncing) && syncStatus == old(syncStatus) &&
                store.Contents() == old(store.Contents()) && store.localStorage == old(store.localStorage)
      ensures SyncGuard(user, old(isSyncing), old(online)) ==>
                var o := SyncPlan(user.value, cloudName, backend, old(store.Contents()));
                calls == o.calls && store.Contents() == o.remaining && !isSyncing &&
                syncStatus == (if o.failed then SyncFailedStatus else SyncDoneStatus) &&
                store.localStorage == SyncStorage(user.value, cloudName, backend, old(store.Contents()), old(store.localStorage))
      ensures old(store.Mirrored()) ==> store.Mirrored()
    {
      if !SyncGuard(user, isSyncing, online) {
        return [];
      }
      var userId := user.value;
      isSyncing := true;
      syncStatus := SyncingStatus;
      var failed;
      calls, failed := SyncPhotos(userId, cloudName, backend);
      if !failed {
        var c;
        c, failed := SyncTracks(userId, backend);
        calls := calls + c;
        if !failed {
          c, failed := SyncWeedPatches(userId, backend);
          calls := calls + c;
        }
      }
      syncStatus := if failed then SyncFailedStatus else SyncDoneStatus;
      isSyncing := false;
    }

    /** The `online` event, with the guard reading the state the event set. */
    method HandleOnline(user: Option<string>, backend: Backend, cloudName: string)
      returns (calls: seq<Call>)
      modifies this, store
      ensures online
      ensures !AutoSync(user, old(isSyncing), old(store.HasOfflineData())) ==>
                calls == [] && isSyncing == old(isSyncing) && syncStatus == old(syncStatus) &&
                store.Contents() == old(store.Contents()) && store.localStorage == old(store.localStorage)
      ensures AutoSync(user, old(isSyncing), old(store.HasOfflineData())) ==>
                var o := SyncPlan(user.value, cloudName, backend, old(store.Contents()));
                calls == o.calls && store.Contents() == o.remaining && !isSyncing &&
                syncStatus == (if o.failed then SyncFailedStatus else SyncDoneStatus) &&
                store.localStorage == SyncStorage(user.value, cloudName, backend, old(store.Contents()), old(store.localStorage))
      ensures old(store.Mirrored()) ==> store.Mirrored()
    {
      online := true;
      calls := [];
      if store.HasOfflineData() {
        calls := SyncOfflineData(user, backend, cloudName);
      }
    }

    /** The `online` event as written: the handler's closure reads `online` as it was
        before the event, so after an offline period no run starts. */
    method HandleOnlineAsWritten(user: Option<string>, backend: Backend, cloudName: string)
      returns (calls: seq<Call>)
      modifies this, store
      ensures online
      ensures !AutoSyncAsWritten(user, old(isSyncing), old(online), old(store.HasOfflineData())) ==>
                calls == [] && isSyncing == old(isSyncing) && syncStatus == old(syncStatus) &&
                store.Contents() == old(store.Contents()) && store.localStorage == old(store.localStorage)
      ensures !old(online) ==> calls == [] && store.Contents() == old(store.Contents())
      ensures AutoSyncAsWritten(user, old(isSyncing), old(online), old(store.HasOfflineData())) ==>
                var o := SyncPlan(user.value, cloudName, backend, old(store.Contents()));
                calls == o.calls && store.Contents() == o.remaining && !isSyncing &&
                syncStatus == (if o.failed then SyncFailedStatus else SyncDoneStatus) &&
                store.localStorage == SyncStorage(user.value, cloudName, backend, old(store.Contents()), old(store.localStorage))
      ensures old(store.Mirrored()) ==> store.Mirrored()
    {
      var onlineInClosure := online;
      online := true;
      calls := [];
      if store.HasOfflineData() && onlineInClosure {
        calls := SyncOfflineData(user, backend, cloudName);
      }
    }

    /** The `offline` event. */
    method HandleOffline()
      modifies this
      ensures !online && isSyncing == old(isSyncing) && syncStatus == old(syncStatus)
    {
      online := false;
    }
  }
}
