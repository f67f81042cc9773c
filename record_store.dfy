/** The owner-checked record store behind every CRUD controller of the
    backend: a collection of records keyed by id, each owned by a user.
    Every handler first looks the record up (404 when absent), then compares
    its owner with the requester (401 in the newer controllers, 403 in the
    legacy ones), and only then reads, changes or deletes it. */
module RecordStore {
  import opened Common

  type UserId = nat

  /** A collection. Ids are handed out in creation order, so the newest
      record has the largest id (the `createdAt` order of the listings). */
  class OwnedStore<R> {
    var rows: map<nat, R>
    var nextId: nat
    /** The `user` field of a record. */
    const ownerOf: R -> UserId
    /** The answer to a requester who does not own the record. */
    const denied: Status
    /** The schema validators run before a record is written. */
    const accepts: R -> bool

    ghost predicate Valid()
      reads this
    {
      (forall id :: id in rows ==> id < nextId) && denied in {Unauthorized, Forbidden}
    }

    constructor (ownerOf: R -> UserId, denied: Status, accepts: R -> bool)
      requires denied in {Unauthorized, Forbidden}
      ensures Valid() && rows == map[] && nextId == 0
      ensures this.ownerOf == ownerOf && this.denied == denied && this.accepts == accepts
    {
      rows, nextId := map[], 0;
      this.ownerOf, this.denied, this.accepts := ownerOf, denied, accepts;
    }

    /** The guard of every handler: 404 before the owner check, the owner check before any action. */
    function Access(id: nat, requester: UserId): (s: Status)
      reads this
      requires Valid()
      ensures s == NotFound <==> id !in rows
      ensures s == denied <==> id in rows && ownerOf(rows[id]) != requester
      ensures s == Ok <==> id in rows && ownerOf(rows[id]) == requester
    {
      if id !in rows then NotFound else if ownerOf(rows[id]) != requester then denied else Ok
    }

    /** `findById` followed by the guard. */
    method Get(id: nat, requester: UserId) returns (status: Status, record: Option<R>)
      requires Valid()
      ensures status == Access(id, requester)
      ensures record.Some? <==> status == Ok
      ensures record.Some? ==> id in rows && record.value == rows[id] && ownerOf(record.value) == requester
    {
      status := Access(id, requester);
      record := if status == Ok then Some(rows[id]) else None;
    }

    /** Writes a new record under the next id, without validation. */
    method Insert(r: R) returns (id: nat)
      requires Valid()
      modifies this
      ensures Valid()
      ensures id == old(nextId) && id !in old(rows)
      ensures rows == old(rows)[id := r] && nextId == old(nextId) + 1
    {
      id := nextId;
      rows := rows[id := r];
      nextId := nextId + 1;
    }

    /** `Model.create(body)`: validation first; a rejected record leaves the store as it was. */
    method Create(r: R) returns (status: Status, id: Option<nat>)
      requires Valid()
      modifies this
      ensures Valid()
      ensures accepts(r) ==> status == Created && id == Some(old(nextId))
                             && rows == old(rows)[old(nextId) := r] && nextId == old(nextId) + 1
      ensures !accepts(r) ==> status == Error && id.None? && rows == old(rows) && nextId == old(nextId)
    {
      if !accepts(r) {
        return Error, None;
      }
      var newId := Insert(r);
      status, id := Created, Some(newId);
    }

    /** `doc.save()` on a loaded record: validation, then the write. */
    method Save(id: nat, r: R) returns (status: Status)
      requires Valid() && id in rows
      modifies this
      ensures Valid() && nextId == old(nextId)
      ensures accepts(r) ==> status == Ok && rows == old(rows)[id := r]
      ensures !accepts(r) ==> status == Error && rows == old(rows)
    {
      if !accepts(r) {
        return Error;
      }
      rows := rows[id := r];
      status := Ok;
    }

    /** Writes a record under an existing id, once its validation has passed. */
    method Put(id: nat, r: R)
      requires Valid() && id in rows
      modifies this
      ensures Valid() && nextId == old(nextId)
      ensures rows == old(rows)[id := r]
    {
      rows := rows[id := r];
    }

    /** The guard, then `findByIdAndUpdate(id, body, { runValidators: true })`:
        the body's fields replace the record's (`change`), no save hook runs,
        and a record the validators reject is not written. */
    method Update(id: nat, requester: UserId, change: R -> R) returns (status: Status, record: Option<R>)
      requires Valid()
      modifies this
      ensures Valid() && nextId == old(nextId)
      ensures old(Access(id, requester)) != Ok ==> status == old(Access(id, requester)) && record.None? && rows == old(rows)
      ensures old(Access(id, requester)) == Ok && !accepts(change(old(rows)[id])) ==>
                status == Error && record.None? && rows == old(rows)
      ensures old(Access(id, requester)) == Ok && accepts(change(old(rows)[id])) ==>
                status == Ok && record == Some(change(old(rows)[id])) && rows == old(rows)[id := change(old(rows)[id])]
    {
      status := Access(id, requester);
      if status != Ok {
        return status, None;
      }
      var changed := change(rows[id]);
      if !accepts(changed) {
        return Error, None;
      }
      rows := rows[id := changed];
      status, record := Ok, Some(changed);
    }

    /** The guard, then `deleteOne`. */
    method Delete(id: nat, requester: UserId) returns (status: Status)
      requires Valid()
      modifies this
      ensures Valid() && nextId == old(nextId)
      ensures status == old(Access(id, requester))
      ensures status == Ok ==> rows == old(rows) - {id}
      ensures status != Ok ==> rows == old(rows)
    {
      status := Access(id, requester);
      if status == Ok {
        rows := rows - {id};
      }
    }

    /** Ids below `bound` of the requester's records that pass the filter, newest first. */
    function OwnedBelow(requester: UserId, matches: R -> bool, bound: nat): (ids: seq<nat>)
      reads this
      ensures forall i, j :: 0 <= i < j < |ids| ==> ids[i] > ids[j]
      ensures forall id :: id in ids <==>
                id < bound && id in rows && ownerOf(rows[id]) == requester && matches(rows[id])
    {
      if bound == 0 then []
      else
        var id := bound - 1;
        var rest := OwnedBelow(requester, matches, id);
        if id in rows && ownerOf(rows[id]) == requester && matches(rows[id]) then
          assert forall k :: 0 <= k < |rest| ==> rest[k] < id by {
            forall k | 0 <= k < |rest|
              ensures rest[k] < id
            {
              assert rest[k] in rest;
            }
          }
          [id] + rest
        else rest
    }

    /** `find({ user, ...filters }).sort({ createdAt: -1 })`: the ids of the
        requester's matching records, newest first. */
    function Listing(requester: UserId, matches: R -> bool): (ids: seq<nat>)
      reads this
      requires Valid()
      ensures forall i, j :: 0 <= i < j < |ids| ==> ids[i] > ids[j]
      ensures forall id :: id in ids <==> id in rows && ownerOf(rows[id]) == requester && matches(rows[id])
    {
      OwnedBelow(requester, matches, nextId)
    }

    /** The records of a list of ids. */
    function RowsOf(ids: seq<nat>): (r: seq<R>)
      reads this
      requires forall i :: 0 <= i < |ids| ==> ids[i] in rows
      ensures |r| == |ids|
      ensures forall i :: 0 <= i < |ids| ==> r[i] == rows[ids[i]]
    {
      if ids == [] then [] else [rows[ids[0]]] + RowsOf(ids[1..])
    }
  }

  /** `find({ user, ...filters }).sort({ createdAt: -1 }).limit(limit).skip((page - 1) * limit)`
      with `countDocuments`: one page of the requester's matching records, newest first. */
  method FindPage<R>(store: OwnedStore<R>, requester: UserId, matches: R -> bool, page: int, limit: nat)
    returns (result: Status, listing: Option<Page<R>>)
    requires store.Valid()
    ensures result == Error <==> Skip(page, limit) < 0
    ensures result == Ok ==>
              listing.Some?
              && listing.value.total == |store.Listing(requester, matches)|
              && listing.value.pages == PageCount(listing.value.total, limit)
              && listing.value.data == PageOf(store.RowsOf(store.Listing(requester, matches)), page, limit).value
              && listing.value.count == |listing.value.data| <= |store.Listing(requester, matches)|
              && (forall k :: 0 <= k < |listing.value.data| ==>
                    store.ownerOf(listing.value.data[k]) == requester && matches(listing.value.data[k]))
    ensures result != Ok ==> result == Error && listing.None?
  {
    var ids := store.Listing(requester, matches);
    var matching := store.RowsOf(ids);
    forall k | 0 <= k < |matching|
      ensures store.ownerOf(matching[k]) == requester && matches(matching[k])
    {
      assert ids[k] in ids;
    }
    var answer := Paginate(matching, page, limit);
    result, listing := answer.0, answer.1;
    if result == Ok {
      var data := listing.value.data;
      var from := Skip(page, limit);
      forall k | 0 <= k < |data|
        ensures store.ownerOf(data[k]) == requester && matches(data[k])
      {
        assert data[k] == matching[from + k];
      }
    }
  }

  /** `find({ user, ...filters }).sort({ createdAt: -1 })` without paging:
      all of the requester's matching records, newest first, and no other. */
  method FindAll<R>(store: OwnedStore<R>, requester: UserId, matches: R -> bool) returns (data: seq<R>)
    requires store.Valid()
    ensures data == store.RowsOf(store.Listing(requester, matches))
    ensures forall k :: 0 <= k < |data| ==> store.ownerOf(data[k]) == requester && matches(data[k])
    ensures forall id :: id in store.rows && store.ownerOf(store.rows[id]) == requester && matches(store.rows[id]) ==>
              store.rows[id] in data
  {
    var ids := store.Listing(requester, matches);
    data := store.RowsOf(ids);
    forall k | 0 <= k < |data|
      ensures store.ownerOf(data[k]) == requester && matches(data[k])
    {
      assert ids[k] in ids;
    }
    forall id | id in store.rows && store.ownerOf(store.rows[id]) == requester && matches(store.rows[id])
      ensures store.rows[id] in data
    {
      var k :| 0 <= k < |ids| && ids[k] == id;
      assert data[k] == store.rows[id];
    }
  }

  /** The answer of a paginated listing. */
  datatype Page<R> = Page(count: nat, total: nat, pages: Option<nat>, data: seq<R>)

  /** `find(query).sort(...).limit(limit).skip((page - 1) * limit)` with
      `countDocuments(query)`; a negative skip is refused by the database. */
  function Paginate<R>(matching: seq<R>, page: int, limit: nat): (r: (Status, Option<Page<R>>))
    ensures r.0 == Error <==> Skip(page, limit) < 0
    ensures r.0 == Ok ==> r.1.Some? && r.1.value.total == |matching|
                          && r.1.value.pages == PageCount(|matching|, limit)
                          && r.1.value.data == PageOf(matching, page, limit).value
                          && r.1.value.count == |r.1.value.data|
    ensures r.0 != Ok ==> r.1.None?
  {
    var rows := PageOf(matching, page, limit);
    if rows.None? then (Error, None)
    else (Ok, Some(Page(|rows.value|, |matching|, PageCount(|matching|, limit), rows.value)))
  }
}
