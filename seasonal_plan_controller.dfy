/** The seasonal plan handlers: an owner-checked plan collection (401 for a
    requester who does not own the plan), milestones and notes added to a
    loaded plan and saved through the save hook, a milestone patched by its
    sub-document id, and the filtered, paginated listing. */
module SeasonalPlanController {
  import opened Common
  import opened RecordStore
  import opened SeasonalPlanModel

  /** The plan collection: records owned by their `user`, a 401 guard, the schema validators. */
  ghost predicate IsPlanStore(store: OwnedStore<PlanRecord>)
    reads store
  {
    && store.Valid()
    && store.denied == Unauthorized
    && (forall r :: store.accepts(r) == ValidPlan(r))
    && (forall r :: store.ownerOf(r) == r.user)
  }

  /** A milestone as a request body gives it. */
  datatype MilestoneBody = MilestoneBody(title: Option<string>, description: Option<string>, targetDate: Option<int>,
                                         completed: Option<bool>, completedDate: Option<int>)

  /** The milestone `milestones.push(body)` adds: a new sub-document id and `completed` false unless given. */
  function MilestoneFrom(body: MilestoneBody, id: nat): (m: Milestone)
    ensures m.id == id && m.title == body.title && m.description == body.description
    ensures m.targetDate == body.targetDate && m.completedDate == body.completedDate
    ensures m.completed <==> body.completed == Some(true)
  {
    Milestone(id, body.title, body.description, body.targetDate,
              if body.completed.Some? then body.completed.value else false, body.completedDate)
  }

  /** `Object.assign(milestone, body)`: every field the body gives replaces the milestone's. */
  function Patched(m: Milestone, body: MilestoneBody): (p: Milestone)
    ensures p.id == m.id
    ensures p.title == (if body.title.Some? then body.title else m.title)
    ensures p.description == (if body.description.Some? then body.description else m.description)
    ensures p.targetDate == (if body.targetDate.Some? then body.targetDate else m.targetDate)
    ensures p.completed == (if body.completed.Some? then body.completed.value else m.completed)
    ensures p.completedDate == (if body.completedDate.Some? then body.completedDate else m.completedDate)
  {
    m.(title := if body.title.Some? then body.title else m.title,
       description := if body.description.Some? then body.description else m.description,
       targetDate := if body.targetDate.Some? then body.targetDate else m.targetDate,
       completed := if body.completed.Some? then body.completed.value else m.completed,
       completedDate := if body.completedDate.Some? then body.completedDate else m.completedDate)
  }

  /** `milestones.id(milestoneId)`: the position of the first milestone with that id. */
  function FindMilestone(ms: seq<Milestone>, milestoneId: nat): (i: Option<nat>)
    ensures i.None? <==> forall k :: 0 <= k < |ms| ==> ms[k].id != milestoneId
    ensures i.Some? ==> i.value < |ms| && ms[i.value].id == milestoneId
                        && forall k :: 0 <= k < i.value ==> ms[k].id != milestoneId
  {
    if |ms| == 0 then None
    else if ms[0].id == milestoneId then Some(0)
    else
      var rest := FindMilestone(ms[1..], milestoneId);
      assert forall k :: 1 <= k < |ms| ==> ms[k] == ms[1..][k - 1];
      if rest.None? then None else Some(rest.value + 1)
  }

  /** `plan.save()`: the validators on the document as it stands, then the
      hook in place, then the write. A rejected document is not written. */
  method SavePlan(store: OwnedStore<PlanRecord>, id: nat, doc: PlanDocument) returns (status: Status)
    requires IsPlanStore(store) && id in store.rows
    modifies store, doc
    ensures IsPlanStore(store) && store.nextId == old(store.nextId)
    ensures ValidPlan(old(doc.Snapshot())) ==>
              status == Ok && doc.Snapshot() == PlanAfterSave(old(doc.Snapshot()))
              && store.rows == old(store.rows)[id := PlanAfterSave(old(doc.Snapshot()))]
    ensures !ValidPlan(old(doc.Snapshot())) ==> status == Error && store.rows == old(store.rows)
  {
    if !store.accepts(doc.Snapshot()) {
      return Error;
    }
    doc.PreSave();
    store.Put(id, doc.Snapshot());
    status := Ok;
  }

  /** `getPlan`. */
  method GetPlan(store: OwnedStore<PlanRecord>, id: nat, requester: UserId) returns (status: Status, plan: Option<PlanRecord>)
    requires IsPlanStore(store)
    ensures id !in store.rows ==> status == NotFound && plan.None?
    ensures id in store.rows && store.rows[id].user != requester ==> status == Unauthorized && plan.None?
    ensures id in store.rows && store.rows[id].user == requester ==> status == Ok && plan == Some(store.rows[id])
  {
    status, plan := store.Get(id, requester);
  }

  /** `createPlan`: the owner is the requester; the validators run, then the save hook, then the insert. */
  method CreatePlan(store: OwnedStore<PlanRecord>, requester: UserId, body: PlanRecord) returns (status: Status, plan: Option<PlanRecord>)
    requires IsPlanStore(store)
    modifies store
    ensures IsPlanStore(store)
    ensures ValidPlan(body.(user := requester)) ==>
              status == Created && plan == Some(PlanAfterSave(body.(user := requester)))
              && plan.value.user == requester
              && store.rows == old(store.rows)[old(store.nextId) := plan.value] && store.nextId == old(store.nextId) + 1
    ensures !ValidPlan(body.(user := requester)) ==>
              status == Error && plan.None? && store.rows == old(store.rows) && store.nextId == old(store.nextId)
  {
    var record := body.(user := requester);
    if !store.accepts(record) {
      return Error, None;
    }
    var doc := new PlanDocument(record);
    doc.PreSave();
    var saved := doc.Snapshot();
    var id := store.Insert(saved);
    status, plan := Created, Some(saved);
  }

  /** `updatePlan`: the guard, then `findByIdAndUpdate` with the body's
      fields and the validators; the roll-ups are not recomputed. */
  method UpdatePlan(store: OwnedStore<PlanRecord>, id: nat, requester: UserId, change: PlanRecord -> PlanRecord)
    returns (status: Status, plan: Option<PlanRecord>)
    requires IsPlanStore(store)
    modifies store
    ensures IsPlanStore(store)
    ensures id !in old(store.rows) ==> status == NotFound && store.rows == old(store.rows)
    ensures id in old(store.rows) && old(store.rows)[id].user != requester ==>
              status == Unauthorized && store.rows == old(store.rows)
    ensures id in old(store.rows) && old(store.rows)[id].user == requester ==>
              var changed := change(old(store.rows)[id]);
              (ValidPlan(changed) ==> status == Ok && plan == Some(changed) && store.rows == old(store.rows)[id := changed])
              && (!ValidPlan(changed) ==> status == Error && store.rows == old(store.rows))
  {
    status, plan := store.Update(id, requester, change);
  }

  /** `deletePlan`. */
  method DeletePlan(store: OwnedStore<PlanRecord>, id: nat, requester: UserId) returns (status: Status)
    requires IsPlanStore(store)
    modifies store
    ensures IsPlanStore(store)
    ensures id !in old(store.rows) ==> status == NotFound && store.rows == old(store.rows)
    ensures id in old(store.rows) && old(store.rows)[id].user != requester ==>
              status == Unauthorized && store.rows == old(store.rows)
    ensures id in old(store.rows) && old(store.rows)[id].user == requester ==>
              status == Ok && store.rows == old(store.rows) - {id}
  {
    status := store.Delete(id, requester);
  }

  /** `addMilestone`: after the guard, the milestone goes after the existing
      ones and the plan is saved, so the hook recomputes progress. */
  method AddMilestone(store: OwnedStore<PlanRecord>, id: nat, requester: UserId, body: MilestoneBody, milestoneId: nat)
    returns (status: Status, plan: Option<PlanRecord>)
    requires IsPlanStore(store)
    modifies store
    ensures IsPlanStore(store)
    ensures id !in old(store.rows) ==> status == NotFound && store.rows == old(store.rows)
    ensures id in old(store.rows) && old(store.rows)[id].user != requester ==>
              status == Unauthorized && store.rows == old(store.rows)
    ensures id in old(store.rows) && old(store.rows)[id].user == requester ==>
              var before := old(store.rows)[id];
              var extended := before.(milestones := before.milestones + [MilestoneFrom(body, milestoneId)]);
              (ValidPlan(before) ==>
                 status == Ok && plan == Some(PlanAfterSave(extended))
                 && store.rows == old(store.rows)[id := PlanAfterSave(extended)]
                 && store.rows[id].progress
                    == Progress(CompletedCount(extended.milestones), |extended.milestones|) as real)
              && (!ValidPlan(before) ==> status == Error && store.rows == old(store.rows))
  {
    var found;
    status, found := store.Get(id, requester);
    if status != Ok {
      return status, None;
    }
    var doc := new PlanDocument(found.value);
    doc.PushMilestone(MilestoneFrom(body, milestoneId));
    status := SavePlan(store, id, doc);
    plan := if status == Ok then Some(doc.Snapshot()) else None;
  }

  /** `updateMilestone`: after the guard, 404 for an unknown milestone id;
      otherwise the body's fields are merged into that milestone alone and the
      plan is saved. */
  method UpdateMilestone(store: OwnedStore<PlanRecord>, id: nat, requester: UserId, milestoneId: nat, body: MilestoneBody)
    returns (status: Status, plan: Option<PlanRecord>)
    requires IsPlanStore(store)
    modifies store
    ensures IsPlanStore(store)
    ensures id !in old(store.rows) ==> status == NotFound && store.rows == old(store.rows)
    ensures id in old(store.rows) && old(store.rows)[id].user != requester ==>
              status == Unauthorized && store.rows == old(store.rows)
    ensures id in old(store.rows) && old(store.rows)[id].user == requester
            && FindMilestone(old(store.rows)[id].milestones, milestoneId).None? ==>
              status == NotFound && plan.None? && store.rows == old(store.rows)
    ensures id in old(store.rows) && old(store.rows)[id].user == requester
            && FindMilestone(old(store.rows)[id].milestones, milestoneId).Some? ==>
              var before := old(store.rows)[id];
              var i := FindMilestone(before.milestones, milestoneId).value;
              var edited := before.(milestones := before.milestones[i := Patched(before.milestones[i], body)]);
              (ValidPlan(before) ==>
                 status == Ok && plan == Some(PlanAfterSave(edited))
                 && store.rows == old(store.rows)[id := PlanAfterSave(edited)]
                 && (forall k :: 0 <= k < |before.milestones| && k != i ==>
                       store.rows[id].milestones[k] == before.milestones[k]))
              && (!ValidPlan(before) ==> status == Error && store.rows == old(store.rows))
  {
    var found;
    status, found := store.Get(id, requester);
    if status != Ok {
      return status, None;
    }
    var i := FindMilestone(found.value.milestones, milestoneId);
    if i.None? {
      return NotFound, None;
    }
    var doc := new PlanDocument(found.value);
    doc.AssignMilestone(i.value, m => Patched(m, body));
    status := SavePlan(store, id, doc);
    plan := if status == Ok then Some(doc.Snapshot()) else None;
  }

  /** `addNote`: after the guard, a note with the content, the requester as
      author and the current time goes after the existing ones, and the plan is saved. */
  method AddNote(store: OwnedStore<PlanRecord>, id: nat, requester: UserId, content: Option<string>, now: int)
    returns (status: Status, plan: Option<PlanRecord>)
    requires IsPlanStore(store)
    modifies store
    ensures IsPlanStore(store)
    ensures id !in old(store.rows) ==> status == NotFound && store.rows == old(store.rows)
    ensures id in old(store.rows) && old(store.rows)[id].user != requester ==>
              status == Unauthorized && store.rows == old(store.rows)
    ensures id in old(store.rows) && old(store.rows)[id].user == requester ==>
              var before := old(store.rows)[id];
              var noted := before.(notes := before.notes + [PlanNote(content, now, requester)]);
              (ValidPlan(before) ==> status == Ok && plan == Some(PlanAfterSave(noted))
                                     && store.rows == old(store.rows)[id := PlanAfterSave(noted)]
                                     && store.rows[id].notes == before.notes + [PlanNote(content, now, requester)])
              && (!ValidPlan(before) ==> status == Error && store.rows == old(store.rows))
  {
    var found;
    status, found := store.Get(id, requester);
    if status != Ok {
      return status, None;
    }
    var doc := new PlanDocument(found.value);
    doc.PushNote(PlanNote(content, now, requester));
    status := SavePlan(store, id, doc);
    plan := if status == Ok then Some(doc.Snapshot()) else None;
  }

  /** `status`, `season` and `year` filters; `year` is the parsed query value when one is given. */
  predicate PlanMatches(r: PlanRecord, status: Option<string>, season: Option<string>, year: Option<int>)
  {
    (!Given(status) || r.status == status.value)
    && (!Given(season) || r.season == season.value)
    && (year.None? || r.year == year.value)
  }

  function PlanFilter(status: Option<string>, season: Option<string>, year: Option<int>): PlanRecord -> bool
  {
    r => PlanMatches(r, status, season, year)
  }

  /** `getPlans`: the requester's plans that pass the given filters, newest
      first, one page of them, with the count of all of them. */
  method GetPlans(store: OwnedStore<PlanRecord>, requester: UserId, status: Option<string>, season: Option<string>,
                  year: Option<int>, page: Option<int>, limit: Option<nat>)
    returns (result: Status, listing: Option<Page<PlanRecord>>)
    requires IsPlanStore(store)
    ensures result == Error <==> Skip(PageParam(page), LimitParam(limit)) < 0
    ensures result == Ok ==>
              listing.Some?
              && listing.value.total == |store.Listing(requester, PlanFilter(status, season, year))|
              && listing.value.pages == PageCount(listing.value.total, LimitParam(limit))
              && listing.value.data == PageOf(store.RowsOf(store.Listing(requester, PlanFilter(status, season, year))), PageParam(page), LimitParam(limit)).value
              && listing.value.count == |listing.value.data|
              && (forall k :: 0 <= k < |listing.value.data| ==>
                    listing.value.data[k].user == requester && PlanMatches(listing.value.data[k], status, season, year))
  {
    result, listing := FindPage(store, requester, PlanFilter(status, season, year), PageParam(page), LimitParam(limit));
  }
}
