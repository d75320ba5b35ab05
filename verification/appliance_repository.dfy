/** `SwiftDataApplianceRepository` as an in-memory store: a sequence of records in
    insertion order, with counters for fresh handles and fresh UUIDs. The listing is
    ordered by timestamp, newest first. */
module Repository {
  import opened Wrappers
  import opened ApplianceModel
  import opened ApplianceDto

  /** Why a store operation failed: the handle names no record (code 404,
      "Appliance not found"), or the underlying storage refused to fetch or save.
      Whether the storage fetches and saves is a parameter (`fetchOk`, `commitOk`);
      its refusal is always reported as `StorageFailure`, so `NotFound` comes only
      from the handle check. */
  datatype StoreError = NotFound | StorageFailure

  // ---------------------------------------------------------------------------
  // The listing order: timestamp, newest first

  predicate NewestFirst(s: seq<ApplianceDTO>) {
    forall i, j :: 0 <= i < j < |s| ==> s[i].timestamp >= s[j].timestamp
  }

  /** Places `d` before the first element that is no newer than it. */
  function InsertNewestFirst(d: ApplianceDTO, s: seq<ApplianceDTO>): (r: seq<ApplianceDTO>)
    ensures multiset(r) == multiset(s) + multiset{d}
    decreases |s|
  {
    if s == [] || d.timestamp >= s[0].timestamp then [d] + s
    else
      assert s == [s[0]] + s[1..];
      [s[0]] + InsertNewestFirst(d, s[1..])
  }

  /** Inserting into a listing ordered newest first keeps it ordered. */
  lemma {:induction false} InsertKeepsOrder(d: ApplianceDTO, s: seq<ApplianceDTO>)
    requires NewestFirst(s)
    ensures NewestFirst(InsertNewestFirst(d, s))
    decreases |s|
  {
    if s != [] && d.timestamp < s[0].timestamp {
      InsertKeepsOrder(d, s[1..]);
      var rest := InsertNewestFirst(d, s[1..]);
      forall j | 0 <= j < |rest| ensures rest[j].timestamp <= s[0].timestamp {
        assert rest[j] in multiset(rest);
        assert rest[j] == d || rest[j] in multiset(s[1..]);
      }
    }
  }

  /** The fetch's `SortDescriptor(\.timestamp, order: .reverse)`: records in
      insertion order, each placed before the older ones, so among equal
      timestamps the later insertion comes first. */
  function SortNewestFirst(s: seq<ApplianceDTO>): (r: seq<ApplianceDTO>)
    ensures NewestFirst(r)
    ensures multiset(r) == multiset(s)
    decreases |s|
  {
    if s == [] then []
    else
      assert s == s[..|s| - 1] + [s[|s| - 1]];
      InsertKeepsOrder(s[|s| - 1], SortNewestFirst(s[..|s| - 1]));
      InsertNewestFirst(s[|s| - 1], SortNewestFirst(s[..|s| - 1]))
  }

  /** The snapshot of every record, in store order. */
  function Snapshots(models: seq<PersistedAppliance>): seq<ApplianceDTO> {
    seq(|models|, i requires 0 <= i < |models| => ApplianceDTO.From(models[i]))
  }

  /** What the `appliances` getter reports: a snapshot of every stored record and
      nothing else, newest first. */
  function Listing(models: seq<PersistedAppliance>): (r: seq<ApplianceDTO>)
    ensures NewestFirst(r)
    ensures multiset(r) == multiset(Snapshots(models))
    ensures |r| == |models|
  {
    var r := SortNewestFirst(Snapshots(models));
    assert |multiset(r)| == |multiset(Snapshots(models))|;
    r
  }

  /** Every entry of the listing is the snapshot of a stored record. */
  lemma ListedAreStored(models: seq<PersistedAppliance>, k: int)
    requires 0 <= k < |Listing(models)|
    ensures exists i :: 0 <= i < |models| && Listing(models)[k] == ApplianceDTO.From(models[i])
  {
    var l := Listing(models);
    assert l[k] in multiset(Snapshots(models));
    var i :| 0 <= i < |models| && Snapshots(models)[i] == l[k];
  }

  /** After a record is appended, the listing is the old listing with its snapshot
      inserted at its place in time: one more entry, including that snapshot. */
  lemma ListingAfterSave(models: seq<PersistedAppliance>, p: PersistedAppliance)
    ensures Listing(models + [p]) == InsertNewestFirst(ApplianceDTO.From(p), Listing(models))
    ensures |Listing(models + [p])| == |Listing(models)| + 1
    ensures ApplianceDTO.From(p) in Listing(models + [p])
  {
    var s := Snapshots(models + [p]);
    assert s[..|s| - 1] == Snapshots(models);
    assert ApplianceDTO.From(p) in multiset(Listing(models + [p]));
  }

  /** A record at least as new as every stored one is listed first, ahead of the
      unchanged old listing. */
  lemma NewestSaveListedFirst(models: seq<PersistedAppliance>, p: PersistedAppliance)
    requires forall i :: 0 <= i < |models| ==> models[i].model.timestamp <= p.model.timestamp
    ensures Listing(models + [p]) == [ApplianceDTO.From(p)] + Listing(models)
  {
    ListingAfterSave(models, p);
    if |models| > 0 {
      ListedAreStored(models, 0);
    }
  }

  // ---------------------------------------------------------------------------
  // Handles and removal

  /** Appending a record newer in handle and UUID than every stored one keeps the
      store ordered. */
  lemma AppendKeepsOrder(models: seq<PersistedAppliance>, p: PersistedAppliance)
    requires Ordered(models)
    requires forall i :: 0 <= i < |models| ==>
      models[i].persistentModelID.value < p.persistentModelID.value && models[i].model.id.value < p.model.id.value
    ensures Ordered(models + [p])
  {
    var s := models + [p];
    forall i, j | 0 <= i < j < |s|
      ensures s[i].persistentModelID.value < s[j].persistentModelID.value && s[i].model.id.value < s[j].model.id.value
    {
      if j == |models| {
        assert s[i] == models[i];
      } else {
        assert s[i] == models[i] && s[j] == models[j];
      }
    }
  }

  /** Some record has handle `h`. */
  predicate Stored(models: seq<PersistedAppliance>, h: PersistentIdentifier) {
    exists i :: 0 <= i < |models| && models[i].persistentModelID == h
  }

  /** Handles and UUIDs grow strictly along the store, so both are unique. */
  predicate Ordered(models: seq<PersistedAppliance>) {
    forall i, j :: 0 <= i < j < |models| ==>
      models[i].persistentModelID.value < models[j].persistentModelID.value &&
      models[i].model.id.value < models[j].model.id.value
  }

  /** `modelContext.model(for:)`: the position of the record with handle `h`. */
  function Find(models: seq<PersistedAppliance>, h: PersistentIdentifier): (r: Option<nat>)
    ensures r.Some? ==> r.value < |models| && models[r.value].persistentModelID == h
    ensures r.None? <==> !Stored(models, h)
    decreases |models|
  {
    if models == [] then None
    else if models[0].persistentModelID == h then Some(0)
    else
      var r := Find(models[1..], h);
      assert forall i :: 1 <= i < |models| ==> models[i] == models[1..][i - 1];
      if r.Some? then Some(r.value + 1) else None
  }

  /** A record stored after the first position is stored. */
  lemma StoredTail(models: seq<PersistedAppliance>, h: PersistentIdentifier)
    requires models != []
    ensures Stored(models, h) <==> models[0].persistentModelID == h || Stored(models[1..], h)
  {
    if Stored(models[1..], h) {
      var i :| 0 <= i < |models[1..]| && models[1..][i].persistentModelID == h;
      assert models[i + 1].persistentModelID == h;
    }
    if Stored(models, h) && models[0].persistentModelID != h {
      var i :| 0 <= i < |models| && models[i].persistentModelID == h;
      assert models[1..][i - 1].persistentModelID == h;
    }
  }

  /** The store without the record(s) with handle `h`, the rest in order. */
  function Without(models: seq<PersistedAppliance>, h: PersistentIdentifier): (r: seq<PersistedAppliance>)
    ensures |r| <= |models|
    decreases |models|
  {
    if models == [] then []
    else if models[0].persistentModelID == h then Without(models[1..], h)
    else [models[0]] + Without(models[1..], h)
  }

  /** The listing without the snapshot(s) with handle `h`, the rest in order. */
  function WithoutSnapshot(ds: seq<ApplianceDTO>, h: PersistentIdentifier): (r: seq<ApplianceDTO>)
    ensures |r| <= |ds|
    decreases |ds|
  {
    if ds == [] then []
    else if ds[0].persistentID == h then WithoutSnapshot(ds[1..], h)
    else [ds[0]] + WithoutSnapshot(ds[1..], h)
  }

  /** Removal keeps exactly the records with other handles. */
  lemma {:induction false} WithoutMembers(models: seq<PersistedAppliance>, h: PersistentIdentifier, p: PersistedAppliance)
    ensures p in Without(models, h) <==> p in models && p.persistentModelID != h
    decreases |models|
  {
    if models != [] {
      WithoutMembers(models[1..], h, p);
      assert p in models <==> p == models[0] || p in models[1..];
    }
  }

  /** Removal keeps exactly the snapshots with other handles. */
  lemma {:induction false} WithoutSnapshotMembers(ds: seq<ApplianceDTO>, h: PersistentIdentifier, d: ApplianceDTO)
    ensures d in WithoutSnapshot(ds, h) <==> d in ds && d.persistentID != h
    decreases |ds|
  {
    if ds != [] {
      WithoutSnapshotMembers(ds[1..], h, d);
      assert d in ds <==> d == ds[0] || d in ds[1..];
    }
  }

  /** Removing an absent handle changes nothing. */
  lemma {:induction false} WithoutAbsent(models: seq<PersistedAppliance>, h: PersistentIdentifier)
    requires !Stored(models, h)
    ensures Without(models, h) == models
    decreases |models|
  {
    if models != [] {
      StoredTail(models, h);
      WithoutAbsent(models[1..], h);
      assert models == [models[0]] + models[1..];
    }
  }

  /** With unique handles, removing the handle of position `i` removes exactly that
      record and keeps the others in order. */
  lemma {:induction false} WithoutRemovesOne(models: seq<PersistedAppliance>, h: PersistentIdentifier, i: int)
    requires Ordered(models)
    requires 0 <= i < |models| && models[i].persistentModelID == h
    ensures Without(models, h) == models[..i] + models[i + 1..]
    decreases i
  {
    assert Ordered(models[1..]);
    if i == 0 {
      assert !Stored(models[1..], h);
      WithoutAbsent(models[1..], h);
    } else {
      assert models[0].persistentModelID != h by {
        assert models[0].persistentModelID.value < models[i].persistentModelID.value;
      }
      WithoutRemovesOne(models[1..], h, i - 1);
      assert models[1..][..i - 1] + models[1..][i..] == models[1..i] + models[i + 1..];
      assert models[..i] == [models[0]] + models[1..i];
    }
  }

  /** Removal keeps the store ordered. */
  lemma {:induction false} WithoutKeepsOrder(models: seq<PersistedAppliance>, h: PersistentIdentifier)
    requires Ordered(models)
    ensures Ordered(Without(models, h))
    decreases |models|
  {
    if models != [] {
      WithoutKeepsOrder(models[1..], h);
      var rest := Without(models[1..], h);
      if models[0].persistentModelID != h {
        forall j | 0 <= j < |rest|
          ensures models[0].persistentModelID.value < rest[j].persistentModelID.value
          ensures models[0].model.id.value < rest[j].model.id.value
        {
          WithoutMembers(models[1..], h, rest[j]);
        }
      }
    }
  }

  /** Taking snapshots commutes with removal. */
  lemma {:induction false} SnapshotsWithout(models: seq<PersistedAppliance>, h: PersistentIdentifier)
    ensures Snapshots(Without(models, h)) == WithoutSnapshot(Snapshots(models), h)
    decreases |models|
  {
    if models != [] {
      SnapshotsWithout(models[1..], h);
      assert Snapshots(models)[1..] == Snapshots(models[1..]);
      if models[0].persistentModelID != h {
        assert Snapshots([models[0]] + Without(models[1..], h))
            == [ApplianceDTO.From(models[0])] + Snapshots(Without(models[1..], h));
      }
    }
  }

  lemma {:induction false} WithoutSnapshotAppend(a: seq<ApplianceDTO>, b: seq<ApplianceDTO>, h: PersistentIdentifier)
    ensures WithoutSnapshot(a + b, h) == WithoutSnapshot(a, h) + WithoutSnapshot(b, h)
    decreases |a|
  {
    if a != [] {
      assert (a + b)[1..] == a[1..] + b;
      WithoutSnapshotAppend(a[1..], b, h);
    } else {
      assert a + b == b;
    }
  }

  /** In a listing ordered newest first, removing a handle commutes with inserting
      a snapshot: the inserted snapshot goes if it has that handle, and lands at
      the same place in time otherwise. */
  lemma {:induction false} WithoutInsert(d: ApplianceDTO, u: seq<ApplianceDTO>, h: PersistentIdentifier)
    requires NewestFirst(u)
    ensures WithoutSnapshot(InsertNewestFirst(d, u), h) ==
      if d.persistentID == h then WithoutSnapshot(u, h) else InsertNewestFirst(d, WithoutSnapshot(u, h))
    decreases |u|
  {
    if u == [] || d.timestamp >= u[0].timestamp {
      assert InsertNewestFirst(d, u) == [d] + u;
      assert ([d] + u)[1..] == u;
      var w := WithoutSnapshot(u, h);
      if d.persistentID != h && w != [] {
        WithoutSnapshotMembers(u, h, w[0]);
      }
    } else {
      WithoutInsert(d, u[1..], h);
    }
  }

  /** Sorting commutes with removing a handle. */
  lemma {:induction false} SortWithout(s: seq<ApplianceDTO>, h: PersistentIdentifier)
    ensures SortNewestFirst(WithoutSnapshot(s, h)) == WithoutSnapshot(SortNewestFirst(s), h)
    decreases |s|
  {
    if s != [] {
      var init, last := s[..|s| - 1], s[|s| - 1];
      assert s == init + [last];
      SortWithout(init, h);
      WithoutSnapshotAppend(init, [last], h);
      WithoutInsert(last, SortNewestFirst(init), h);
      var w := WithoutSnapshot(init, h);
      if last.persistentID != h {
        assert WithoutSnapshot([last], h) == [last];
        assert (w + [last])[..|w + [last]| - 1] == w;
      } else {
        assert WithoutSnapshot([last], h) == [];
        assert w + [] == w;
      }
    }
  }

  /** After a removal, the listing is the old listing without that handle's
      snapshot, every other entry in place. */
  lemma ListingAfterDelete(models: seq<PersistedAppliance>, h: PersistentIdentifier)
    ensures Listing(Without(models, h)) == WithoutSnapshot(Listing(models), h)
  {
    SnapshotsWithout(models, h);
    SortWithout(Snapshots(models), h);
  }

  /** Removing the record at position `i` of an ordered store, whose handle is `h`:
      the result is the store without `h`, one record shorter, still ordered and
      within the counters, and listed as the old listing without `h`. */
  lemma RemoveAt(models: seq<PersistedAppliance>, h: PersistentIdentifier, i: int, nextHandle: nat, nextUuid: nat)
    requires Ordered(models)
    requires forall k :: 0 <= k < |models| ==>
      models[k].persistentModelID.value < nextHandle && models[k].model.id.value < nextUuid
    requires 0 <= i < |models| && models[i].persistentModelID == h
    ensures var rest := models[..i] + models[i + 1..];
      rest == Without(models, h) && |rest| == |models| - 1 && !Stored(rest, h) && Ordered(rest) &&
      (forall k :: 0 <= k < |rest| ==>
        rest[k].persistentModelID.value < nextHandle && rest[k].model.id.value < nextUuid) &&
      Listing(rest) == WithoutSnapshot(Listing(models), h)
  {
    WithoutRemovesOne(models, h, i);
    WithoutKeepsOrder(models, h);
    ListingAfterDelete(models, h);
    RemoveAtKeepsBounds(models, h, i, nextHandle, nextUuid);
  }

  lemma RemoveAtKeepsBounds(models: seq<PersistedAppliance>, h: PersistentIdentifier, i: int, nextHandle: nat, nextUuid: nat)
    requires Ordered(models)
    requires forall k :: 0 <= k < |models| ==>
      models[k].persistentModelID.value < nextHandle && models[k].model.id.value < nextUuid
    requires 0 <= i < |models| && models[i].persistentModelID == h
    ensures var rest := models[..i] + models[i + 1..];
      !Stored(rest, h) &&
      forall k :: 0 <= k < |rest| ==>
        rest[k].persistentModelID.value < nextHandle && rest[k].model.id.value < nextUuid
  {
    var rest := models[..i] + models[i + 1..];
    forall k | 0 <= k < |rest|
      ensures rest[k].persistentModelID != h
      ensures rest[k].persistentModelID.value < nextHandle && rest[k].model.id.value < nextUuid
    {
      var j := if k < i then k else k + 1;
      assert rest[k] == models[j];
      assert j != i;
      assert models[j].persistentModelID.value != models[i].persistentModelID.value;
    }
  }

  /** The snapshot a draft becomes: the draft's fields, a UUID and a handle. */
  predicate SnapshotOf(d: ApplianceDTO, data: ApplianceCreationData) {
    d.name == data.name && d.category == data.category &&
    d.estimatedWattage == data.estimatedWattage && d.confidence == data.confidence &&
    d.timestamp == data.timestamp && d.imageData == data.imageData
  }

  // ---------------------------------------------------------------------------
  // The store

  class ApplianceStore {
    /** The records, in insertion order. */
    var models: seq<PersistedAppliance>
    /** The next fresh storage handle. */
    var nextHandle: nat
    /** The next fresh UUID (`UUID()` in the record's initialiser). */
    var nextUuid: nat

    /** Handles and UUIDs are unique and below the counters. */
    ghost predicate Valid()
      reads this
    {
      Ordered(models) &&
      forall i :: 0 <= i < |models| ==>
        models[i].persistentModelID.value < nextHandle && models[i].model.id.value < nextUuid
    }

    /** An empty store. */
    constructor ()
      ensures Valid() && models == []
    {
      models := [];
      nextHandle := 0;
      nextUuid := 0;
    }

    /** The `appliances` getter: a failed fetch is reported as a storage failure;
        otherwise every stored record's snapshot, newest first. */
    method Appliances(fetchOk: bool) returns (r: Result<seq<ApplianceDTO>, StoreError>)
      ensures !fetchOk ==> r == Failure(StorageFailure)
      ensures fetchOk ==> r == Success(Listing(models))
      ensures r.Success? ==> NewestFirst(r.value) && multiset(r.value) == multiset(Snapshots(models))
    {
      if !fetchOk {
        return Failure(StorageFailure);
      }
      r := Success(Listing(models));
    }

    /** `saveAppliance`: builds a record from the draft with a fresh UUID, inserts it
        under a fresh handle and commits. A failed commit is reported and leaves the
        store as it was. On success the snapshot returned is the new record's,
        whose handle and UUID are newer than every stored one's,
        carrying the draft's fields (by ListingAfterSave, the listing gains exactly
        that snapshot at its place in time). */
    method SaveAppliance(data: ApplianceCreationData, commitOk: bool)
      returns (r: Result<ApplianceDTO, StoreError>)
      requires Valid()
      modifies this
      ensures Valid()
      ensures !commitOk ==> r == Failure(StorageFailure)
      ensures !commitOk ==> unchanged(this)
      ensures commitOk ==> r.Success? && SnapshotOf(r.value, data)
      ensures commitOk ==>
        r.value.id == Uuid(old(nextUuid)) && r.value.persistentID == PersistentIdentifier(old(nextHandle))
      ensures commitOk ==>
        models == old(models) + [Record(r.value)] &&
        nextHandle == old(nextHandle) + 1 && nextUuid == old(nextUuid) + 1
      ensures commitOk ==> forall i :: 0 <= i < |old(models)| ==>
        old(models)[i].persistentModelID.value < r.value.persistentID.value &&
        old(models)[i].model.id.value < r.value.id.value
    {
      var appliance := Appliance(Uuid(nextUuid), data.name, data.category, data.estimatedWattage,
                                 data.confidence, data.timestamp, data.imageData);
      var persisted := PersistedAppliance(PersistentIdentifier(nextHandle), appliance);
      if !commitOk {
        return Failure(StorageFailure);
      }
      SnapshotRoundTrip(persisted, persisted);
      AppendKeepsOrder(models, persisted);
      models := models + [persisted];
      nextHandle := nextHandle + 1;
      nextUuid := nextUuid + 1;
      r := Success(ApplianceDTO.From(persisted));
    }

    /** `deleteAppliance`: a handle that names no record fails with "not found" and
        changes nothing; otherwise exactly that record is removed, all others
        remain in order, and a failed commit is reported as a storage failure with
        the store as it was. So "not found" means exactly that the handle names no
        record. After a removal the handle is gone, so deleting it again fails. */
    method DeleteAppliance(id: PersistentIdentifier, commitOk: bool)
      returns (r: Outcome<StoreError>)
      requires Valid()
      modifies this
      ensures Valid()
      ensures nextHandle == old(nextHandle) && nextUuid == old(nextUuid)
      ensures !Stored(old(models), id) ==> r == Fail(NotFound) && models == old(models)
      ensures Stored(old(models), id) && !commitOk ==> r == Fail(StorageFailure) && models == old(models)
      ensures Stored(old(models), id) && commitOk ==>
        r == Pass && models == Without(old(models), id) && |models| == |old(models)| - 1
      ensures r == Fail(NotFound) <==> !Stored(old(models), id)
      ensures r.Pass? ==> !Stored(models, id)
      ensures r.Pass? ==> Listing(models) == WithoutSnapshot(Listing(old(models)), id)
    {
      var found := Find(models, id);
      if found.None? {
        return Fail(NotFound);
      }
      if !commitOk {
        return Fail(StorageFailure);
      }
      var i := found.value;
      RemoveAt(models, id, i, nextHandle, nextUuid);
      models := models[..i] + models[i + 1..];
      r := Pass;
    }
  }

  // ---------------------------------------------------------------------------
  // Store clients

  /** A single record is listed on its own. */
  lemma ListingOfOne(p1: PersistedAppliance)
    ensures Listing([p1]) == [ApplianceDTO.From(p1)]
  {
    NewestSaveListedFirst([], p1);
    assert [] + [p1] == [p1];
  }

  /** Two records stored in time order are listed in the reverse order. */
  lemma ListingOfTwo(p1: PersistedAppliance, p2: PersistedAppliance)
    requires p1.model.timestamp <= p2.model.timestamp
    ensures Listing([p1, p2]) == [ApplianceDTO.From(p2), ApplianceDTO.From(p1)]
  {
    ListingOfOne(p1);
    NewestSaveListedFirst([p1], p2);
    assert [p1] + [p2] == [p1, p2];
  }

  /** Three records stored in time order are listed in the reverse order; a record
      saved at the same time as an earlier one is listed before it. */
  lemma ListingOfThree(p1: PersistedAppliance, p2: PersistedAppliance, p3: PersistedAppliance)
    requires p1.model.timestamp <= p2.model.timestamp <= p3.model.timestamp
    ensures Listing([p1, p2, p3]) == [ApplianceDTO.From(p3), ApplianceDTO.From(p2), ApplianceDTO.From(p1)]
  {
    ListingOfTwo(p1, p2);
    NewestSaveListedFirst([p1, p2], p3);
    assert [p1, p2] + [p3] == [p1, p2, p3];
  }

  /** Three drafts saved in time order into an empty store are listed newest
      first, each as the snapshot its save returned. */
  method SaveThreeListNewestFirst(d1: ApplianceCreationData, d2: ApplianceCreationData, d3: ApplianceCreationData)
    returns (listing: seq<ApplianceDTO>, s1: ApplianceDTO, s2: ApplianceDTO, s3: ApplianceDTO)
    requires d1.timestamp <= d2.timestamp <= d3.timestamp
    ensures listing == [s3, s2, s1]
    ensures SnapshotOf(s1, d1) && SnapshotOf(s2, d2) && SnapshotOf(s3, d3)
  {
    var store := new ApplianceStore();
    var r1 := store.SaveAppliance(d1, true);
    var r2 := store.SaveAppliance(d2, true);
    var r3 := store.SaveAppliance(d3, true);
    s1, s2, s3 := r1.value, r2.value, r3.value;
    assert store.models == [Record(s1), Record(s2), Record(s3)];
    ListingOfThree(Record(s1), Record(s2), Record(s3));
    RecordRoundTrip(s1);
    RecordRoundTrip(s2);
    RecordRoundTrip(s3);
    var fetched := store.Appliances(true);
    listing := fetched.value;
  }

  /** Deleting the same record twice: the second attempt finds nothing. */
  method DeleteTwice(data: ApplianceCreationData) returns (first: Outcome<StoreError>, second: Outcome<StoreError>)
    ensures first == Pass && second == Fail(NotFound)
  {
    var store := new ApplianceStore();
    var saved := store.SaveAppliance(data, true);
    assert store.models[|store.models| - 1].persistentModelID == saved.value.persistentID;
    first := store.DeleteAppliance(saved.value.persistentID, true);
    second := store.DeleteAppliance(saved.value.persistentID, true);
  }
}
