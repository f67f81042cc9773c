/** The crop handlers of the newer backend: an owner-checked crop collection
    (401 for a requester who does not own the crop), notes and health issues
    appended to a loaded crop and saved through the save hook, and the
    filtered, paginated listing. */
module CropController {
  import opened Common
  import opened RecordStore
  import opened CropModel

  /** The crop collection: records owned by their `user`, a 401 guard, the schema validators. */
  ghost predicate IsCropStore(store: OwnedStore<CropRecord>)
    reads store
  {
    && store.Valid()
    && store.denied == Unauthorized
    && (forall r :: store.accepts(r) == ValidCrop(r))
    && (forall r :: store.ownerOf(r) == r.user)
  }

  /** `doc.save()`: the validators on the document as it stands, then the
      hook in place, then the write. A rejected document is not written. */
  method SaveCrop(store: OwnedStore<CropRecord>, id: nat, doc: CropDocument) returns (status: Status)
    requires IsCropStore(store) && id in store.rows
    modifies store, doc
    ensures IsCropStore(store) && store.nextId == old(store.nextId)
    ensures ValidCrop(old(doc.Snapshot())) ==>
              status == Ok && doc.Snapshot() == AfterSave(old(doc.Snapshot()))
              && store.rows == old(store.rows)[id := AfterSave(old(doc.Snapshot()))]
    ensures !ValidCrop(old(doc.Snapshot())) ==> status == Error && store.rows == old(store.rows)
  {
    if !store.accepts(doc.Snapshot()) {
      return Error;
    }
    doc.PreSave();
    store.Put(id, doc.Snapshot());
    status := Ok;
  }

  /** `getCrop`. */
  method GetCrop(store: OwnedStore<CropRecord>, id: nat, requester: UserId) returns (status: Status, crop: Option<CropRecord>)
    requires IsCropStore(store)
    ensures id !in store.rows ==> status == NotFound && crop.None?
    ensures id in store.rows && store.rows[id].user != requester ==> status == Unauthorized && crop.None?
    ensures id in store.rows && store.rows[id].user == requester ==> status == Ok && crop == Some(store.rows[id])
  {
    status, crop := store.Get(id, requester);
  }

  /** `createCrop`: the owner is the requester whatever the body says; the
      validators run, then the save hook, then the insert. */
  method CreateCrop(store: OwnedStore<CropRecord>, requester: UserId, body: CropRecord) returns (status: Status, crop: Option<CropRecord>)
    requires IsCropStore(store)
    modifies store
    ensures IsCropStore(store)
    ensures ValidCrop(body.(user := requester)) ==>
              status == Created && crop == Some(AfterSave(body.(user := requester)))
              && crop.value.user == requester
              && store.rows == old(store.rows)[old(store.nextId) := crop.value] && store.nextId == old(store.nextId) + 1
    ensures !ValidCrop(body.(user := requester)) ==>
              status == Error && crop.None? && store.rows == old(store.rows) && store.nextId == old(store.nextId)
  {
    var record := body.(user := requester);
    if !store.accepts(record) {
      return Error, None;
    }
    var doc := new CropDocument(record);
    doc.PreSave();
    var saved := doc.Snapshot();
    var id := store.Insert(saved);
    status, crop := Created, Some(saved);
  }

  /** `updateCrop`: the guard, then `findByIdAndUpdate` with the body's
      fields (`change`) and the validators; the save hook does not run. */
  method UpdateCrop(store: OwnedStore<CropRecord>, id: nat, requester: UserId, change: CropRecord -> CropRecord)
    returns (status: Status, crop: Option<CropRecord>)
    requires IsCropStore(store)
    modifies store
    ensures IsCropStore(store)
    ensures id !in old(store.rows) ==> status == NotFound && store.rows == old(store.rows)
    ensures id in old(store.rows) && old(store.rows)[id].user != requester ==>
              status == Unauthorized && store.rows == old(store.rows)
    ensures id in old(store.rows) && old(store.rows)[id].user == requester ==>
              var changed := change(old(store.rows)[id]);
              (ValidCrop(changed) ==> status == Ok && crop == Some(changed) && store.rows == old(store.rows)[id := changed])
              && (!ValidCrop(changed) ==> status == Error && store.rows == old(store.rows))
  {
    status, crop := store.Update(id, requester, change);
  }

  /** `deleteCrop`. */
  method DeleteCrop(store: OwnedStore<CropRecord>, id: nat, requester: UserId) returns (status: Status)
    requires IsCropStore(store)
    modifies store
    ensures IsCropStore(store)
    ensures id !in old(store.rows) ==> status == NotFound && store.rows == old(store.rows)
    ensures id in old(store.rows) && old(store.rows)[id].user != requester ==>
              status == Unauthorized && store.rows == old(store.rows)
    ensures id in old(store.rows) && old(store.rows)[id].user == requester ==>
              status == Ok && store.rows == old(store.rows) - {id}
  {
    status := store.Delete(id, requester);
  }

  /** A deleted crop is gone: fetching it afterwards answers 404. */
  method DeleteThenGet(store: OwnedStore<CropRecord>, id: nat, requester: UserId) returns (deleted: Status, fetched: Status)
    requires IsCropStore(store)
    modifies store
    ensures deleted == Ok ==> fetched == NotFound
  {
    deleted := DeleteCrop(store, id, requester);
    var crop;
    fetched, crop := GetCrop(store, id, requester);
  }

  /** `addNote`: after the guard, one note with the given content and the
      current time goes after the existing ones, and the crop is saved. */
  method AddNote(store: OwnedStore<CropRecord>, id: nat, requester: UserId, content: Option<string>, now: int)
    returns (status: Status, crop: Option<CropRecord>)
    requires IsCropStore(store)
    modifies store
    ensures IsCropStore(store)
    ensures id !in old(store.rows) ==> status == NotFound && store.rows == old(store.rows)
    ensures id in old(store.rows) && old(store.rows)[id].user != requester ==>
              status == Unauthorized && store.rows == old(store.rows)
    ensures id in old(store.rows) && old(store.rows)[id].user == requester ==>
              var before := old(store.rows)[id];
              var noted := before.(notes := before.notes + [Note(content, now)]);
              (ValidCrop(before) ==> status == Ok && crop == Some(AfterSave(noted)) && store.rows == old(store.rows)[id := AfterSave(noted)]
                                     && store.rows[id].notes == before.notes + [Note(content, now)])
              && (!ValidCrop(before) ==> status == Error && store.rows == old(store.rows))
  {
    var found;
    status, found := store.Get(id, requester);
    if status != Ok {
      return status, None;
    }
    var doc := new CropDocument(found.value);
    doc.PushNote(content, now);
    status := SaveCrop(store, id, doc);
    crop := if status == Ok then Some(doc.Snapshot()) else None;
  }

  /** `addHealthIssue`: after the guard, the body (with its schema defaults)
      goes after the existing issues, and the crop is saved. */
  method AddHealthIssue(store: OwnedStore<CropRecord>, id: nat, requester: UserId, body: IssueBody, now: int)
    returns (status: Status, crop: Option<CropRecord>)
    requires IsCropStore(store)
    modifies store
    ensures IsCropStore(store)
    ensures id !in old(store.rows) ==> status == NotFound && store.rows == old(store.rows)
    ensures id in old(store.rows) && old(store.rows)[id].user != requester ==>
              status == Unauthorized && store.rows == old(store.rows)
    ensures id in old(store.rows) && old(store.rows)[id].user == requester ==>
              var before := old(store.rows)[id];
              var reported := before.(issues := before.issues + [IssueFrom(body, now)]);
              (ValidCrop(reported) ==> status == Ok && crop == Some(AfterSave(reported))
                                       && store.rows == old(store.rows)[id := AfterSave(reported)]
                                       && store.rows[id].issues == before.issues + [IssueFrom(body, now)])
              && (!ValidCrop(reported) ==> status == Error && store.rows == old(store.rows))
  {
    var found;
    status, found := store.Get(id, requester);
    if status != Ok {
      return status, None;
    }
    var doc := new CropDocument(found.value);
    doc.PushIssue(body, now);
    status := SaveCrop(store, id, doc);
    crop := if status == Ok then Some(doc.Snapshot()) else None;
  }

  predicate CropMatches(r: CropRecord, status: Option<string>, season: Option<string>, category: Option<string>)
  {
    (!Given(status) || r.status == status.value)
    && (!Given(season) || r.season == season.value)
    && (!Given(category) || r.category == category.value)
  }

  function CropFilter(status: Option<string>, season: Option<string>, category: Option<string>): CropRecord -> bool
  {
    r => CropMatches(r, status, season, category)
  }

  /** `getCrops`: the requester's crops that pass the given filters, newest
      first, one page of them, with the count of all of them. */
  method GetCrops(store: OwnedStore<CropRecord>, requester: UserId, status: Option<string>, season: Option<string>,
                  category: Option<string>, page: Option<int>, limit: Option<nat>)
    returns (result: Status, listing: Option<Page<CropRecord>>)
    requires IsCropStore(store)
    ensures result == Error <==> Skip(PageParam(page), LimitParam(limit)) < 0
    ensures result == Ok ==>
              listing.Some?
              && listing.value.total == |store.Listing(requester, CropFilter(status, season, category))|
              && listing.value.pages == PageCount(listing.value.total, LimitParam(limit))
              && listing.value.data == PageOf(store.RowsOf(store.Listing(requester, CropFilter(status, season, category))), PageParam(page), LimitParam(limit)).value
              && listing.value.count == |listing.value.data|
              && (forall k :: 0 <= k < |listing.value.data| ==>
                    listing.value.data[k].user == requester && CropMatches(listing.value.data[k], status, season, category))
  {
    result, listing := FindPage(store, requester, CropFilter(status, season, category), PageParam(page), LimitParam(limit));
  }
}
