/** The crop handlers of the older backend: an owner-checked crop collection
    that answers 403 to a requester who does not own a crop, the filtered
    listing, and the total-area summary. */
module LegacyCropController {
  import opened Common
  import opened RecordStore
  import opened Grouping

  const CropTypes: set<string> := {"Cereal", "Vegetable", "Fruit", "Pulse", "Oilseed", "Cash Crop", "Fodder", "Other"}
  const CropStatuses: set<string> := {"Planning", "Planted", "Growing", "Harvested", "Failed"}
  const CropSeasons: set<string> := {"Kharif", "Rabi", "Zaid", "Summer", "Winter", "Spring", "Fall", "Year-round"}
  const IrrigationTypes: set<string> := {"Drip", "Sprinkler", "Surface", "Manual", "Rainfed"}

  /** A crop of the older schema, with the fields its handlers read or check. */
  datatype LegacyCrop = LegacyCrop(user: nat, cropName: string, cropType: string, variety: Option<string>,
                                   plantingDate: int, area: real, status: string, season: Option<string>,
                                   irrigationType: Option<string>)

  /** The schema validators: a name, an enumerated type and status, and an
      enumerated season and irrigation type when given. */
  predicate ValidLegacyCrop(c: LegacyCrop)
  {
    && c.cropName != ""
    && c.cropType in CropTypes
    && c.status in CropStatuses
    && OptionalIn(c.season, CropSeasons)
    && OptionalIn(c.irrigationType, IrrigationTypes)
  }

  /** A create body with the schema default status ('Planning') filled in and the requester as owner. */
  function NewLegacyCrop(requester: UserId, cropName: string, cropType: string, variety: Option<string>,
                         plantingDate: int, area: real, status: Option<string>, season: Option<string>,
                         irrigationType: Option<string>): (c: LegacyCrop)
    ensures c.user == requester && c.cropName == cropName && c.cropType == cropType && c.area == area
    ensures c.status == (if status.Some? then status.value else "Planning") && c.season == season
    ensures c.irrigationType == irrigationType
  {
    LegacyCrop(requester, cropName, cropType, variety, plantingDate, area,
               if status.Some? then status.value else "Planning", season, irrigationType)
  }

  /** The crop collection: records owned by their `user`, a 403 guard, the schema validators. */
  ghost predicate IsLegacyCropStore(store: OwnedStore<LegacyCrop>)
    reads store
  {
    && store.Valid()
    && store.denied == Forbidden
    && (forall r :: store.accepts(r) == ValidLegacyCrop(r))
    && (forall r :: store.ownerOf(r) == r.user)
  }

  /** `getCrop`. */
  method GetLegacyCrop(store: OwnedStore<LegacyCrop>, id: nat, requester: UserId) returns (status: Status, crop: Option<LegacyCrop>)
    requires IsLegacyCropStore(store)
    ensures id !in store.rows ==> status == NotFound && crop.None?
    ensures id in store.rows && store.rows[id].user != requester ==> status == Forbidden && crop.None?
    ensures id in store.rows && store.rows[id].user == requester ==> status == Ok && crop == Some(store.rows[id])
  {
    status, crop := store.Get(id, requester);
  }

  /** `createCrop`: the owner is the requester whatever the body says, then the validators and the insert. */
  method CreateLegacyCrop(store: OwnedStore<LegacyCrop>, requester: UserId, cropName: string, cropType: string,
                          variety: Option<string>, plantingDate: int, area: real, status: Option<string>,
                          season: Option<string>, irrigationType: Option<string>)
    returns (result: Status, crop: Option<LegacyCrop>)
    requires IsLegacyCropStore(store)
    modifies store
    ensures IsLegacyCropStore(store)
    ensures var c := NewLegacyCrop(requester, cropName, cropType, variety, plantingDate, area, status, season, irrigationType);
            (ValidLegacyCrop(c) ==> result == Created && crop == Some(c) && store.rows == old(store.rows)[old(store.nextId) := c])
            && (!ValidLegacyCrop(c) ==> result == Error && crop.None? && store.rows == old(store.rows))
  {
    var c := NewLegacyCrop(requester, cropName, cropType, variety, plantingDate, area, status, season, irrigationType);
    var id;
    result, id := store.Create(c);
    crop := if result == Created then Some(c) else None;
  }

  /** `updateCrop`: the guard, then `findByIdAndUpdate` with the validators. */
  method UpdateLegacyCrop(store: OwnedStore<LegacyCrop>, id: nat, requester: UserId, change: LegacyCrop -> LegacyCrop)
    returns (status: Status, crop: Option<LegacyCrop>)
    requires IsLegacyCropStore(store)
    modifies store
    ensures IsLegacyCropStore(store)
    ensures id !in old(store.rows) ==> status == NotFound && store.rows == old(store.rows)
    ensures id in old(store.rows) && old(store.rows)[id].user != requester ==>
              status == Forbidden && store.rows == old(store.rows)
    ensures id in old(store.rows) && old(store.rows)[id].user == requester ==>
              var changed := change(old(store.rows)[id]);
              (ValidLegacyCrop(changed) ==> status == Ok && crop == Some(changed) && store.rows == old(store.rows)[id := changed])
              && (!ValidLegacyCrop(changed) ==> status == Error && store.rows == old(store.rows))
  {
    status, crop := store.Update(id, requester, change);
  }

  /** `deleteCrop`. */
  method DeleteLegacyCrop(store: OwnedStore<LegacyCrop>, id: nat, requester: UserId) returns (status: Status)
    requires IsLegacyCropStore(store)
    modifies store
    ensures IsLegacyCropStore(store)
    ensures id !in old(store.rows) ==> status == NotFound && store.rows == old(store.rows)
    ensures id in old(store.rows) && old(store.rows)[id].user != requester ==>
              status == Forbidden && store.rows == old(store.rows)
    ensures id in old(store.rows) && old(store.rows)[id].user == requester ==>
              status == Ok && store.rows == old(store.rows) - {id}
  {
    status := store.Delete(id, requester);
  }

  /** A deleted crop is gone: fetching it afterwards answers 404. */
  method DeleteThenGetLegacy(store: OwnedStore<LegacyCrop>, id: nat, requester: UserId) returns (deleted: Status, fetched: Status)
    requires IsLegacyCropStore(store)
    modifies store
    ensures deleted == Ok ==> fetched == NotFound
  {
    deleted := DeleteLegacyCrop(store, id, requester);
    var crop;
    fetched, crop := GetLegacyCrop(store, id, requester);
  }

  predicate LegacyCropMatches(c: LegacyCrop, status: Option<string>, season: Option<string>, cropType: Option<string>)
  {
    (!Given(status) || c.status == status.value)
    && (!Given(season) || c.season == Some(season.value))
    && (!Given(cropType) || c.cropType == cropType.value)
  }

  function LegacyCropFilter(status: Option<string>, season: Option<string>, cropType: Option<string>): LegacyCrop -> bool
  {
    c => LegacyCropMatches(c, status, season, cropType)
  }

  /** `getCrops`: every crop of the requester that passes the given filters, newest first. */
  method GetLegacyCrops(store: OwnedStore<LegacyCrop>, requester: UserId, status: Option<string>, season: Option<string>,
                        cropType: Option<string>)
    returns (count: nat, data: seq<LegacyCrop>)
    requires IsLegacyCropStore(store)
    ensures count == |data| == |store.Listing(requester, LegacyCropFilter(status, season, cropType))|
    ensures data == store.RowsOf(store.Listing(requester, LegacyCropFilter(status, season, cropType)))
    ensures forall k :: 0 <= k < |data| ==> data[k].user == requester && LegacyCropMatches(data[k], status, season, cropType)
    ensures forall id :: (id in store.rows && store.rows[id].user == requester
                          && LegacyCropMatches(store.rows[id], status, season, cropType)) ==> store.rows[id] in data
  {
    data := FindAll(store, requester, LegacyCropFilter(status, season, cropType));
    count := |data|;
  }

  /** The areas of a list of crops. */
  function Areas(crops: seq<LegacyCrop>): (areas: seq<real>)
    ensures |areas| == |crops| && forall i :: 0 <= i < |crops| ==> areas[i] == crops[i].area
  {
    seq(|crops|, i requires 0 <= i < |crops| => crops[i].area)
  }

  /** `totalArea[0]?.total || 0`: the grouped sum of the areas, or 0 when
      the group is missing because the requester has no crops. */
  function AreaSummary(crops: seq<LegacyCrop>): (total: real)
  {
    if |crops| == 0 then 0.0 else var t := Total(Areas(crops)); if t != 0.0 then t else 0.0
  }

  /** The fallback agrees with the sum: the summary is the plain total of
      the areas, not negative when no area is, and additive over crop lists. */
  lemma AreaSummaryIsTotal(crops: seq<LegacyCrop>, more: seq<LegacyCrop>)
    ensures AreaSummary(crops) == Total(Areas(crops))
    ensures (forall i :: 0 <= i < |crops| ==> crops[i].area >= 0.0) ==> AreaSummary(crops) >= 0.0
    ensures AreaSummary(crops + more) == AreaSummary(crops) + AreaSummary(more)
  {
    assert Areas([]) == [];
    assert Areas(crops + more) == Areas(crops) + Areas(more);
    TotalAppend(Areas(crops), Areas(more));
    if forall i :: 0 <= i < |crops| ==> crops[i].area >= 0.0 {
      TotalNonNegative(Areas(crops));
    }
  }

  /** One `$group` row of `getCropStats`: a status, how many crops have it and their summed area. */
  datatype StatusSummary = StatusSummary(status: string, count: nat, totalArea: real)

  function StatusOf(c: LegacyCrop): string
  {
    c.status
  }

  /** The group of one status: `{ _id: status, count: { $sum: 1 }, totalArea: { $sum: '$area' } }`. */
  function SummaryOf(crops: seq<LegacyCrop>, status: string): StatusSummary
  {
    var group := ItemsOn(crops, StatusOf, status);
    StatusSummary(status, |group|, Total(Areas(group)))
  }

  function Summaries(crops: seq<LegacyCrop>, statuses: seq<string>): seq<StatusSummary>
  {
    if |statuses| == 0 then [] else Summaries(crops, statuses[..|statuses| - 1]) + [SummaryOf(crops, statuses[|statuses| - 1])]
  }

  /** The `$group` by `$status`: one summary per status the crops carry, in the order the statuses first appear. */
  function ByStatus(crops: seq<LegacyCrop>): seq<StatusSummary>
  {
    Summaries(crops, DayKeys(crops, StatusOf))
  }

  function CountSum(groups: seq<StatusSummary>): int
  {
    if |groups| == 0 then 0 else CountSum(groups[..|groups| - 1]) + groups[|groups| - 1].count
  }

  function AreaSum(groups: seq<StatusSummary>): real
  {
    if |groups| == 0 then 0.0 else AreaSum(groups[..|groups| - 1]) + groups[|groups| - 1].totalArea
  }

  lemma SumsSnoc(groups: seq<StatusSummary>, g: StatusSummary)
    ensures CountSum(groups + [g]) == CountSum(groups) + g.count
    ensures AreaSum(groups + [g]) == AreaSum(groups) + g.totalArea
  {
    assert (groups + [g])[..|groups|] == groups;
  }

  /** One more crop adds one to the count and its area to the area of its own status's summary only. */
  lemma SummaryStep(crops: seq<LegacyCrop>, x: LegacyCrop, status: string)
    ensures SummaryOf(crops + [x], status).count
            == SummaryOf(crops, status).count + (if x.status == status then 1 else 0)
    ensures SummaryOf(crops + [x], status).totalArea
            == SummaryOf(crops, status).totalArea + (if x.status == status then x.area else 0.0)
  {
    assert (crops + [x])[..|crops|] == crops;
    var before := ItemsOn(crops, StatusOf, status);
    if x.status == status {
      assert ItemsOn(crops + [x], StatusOf, status) == before + [x];
      assert Areas(before + [x]) == Areas(before) + [x.area];
      assert (Areas(before) + [x.area])[..|before|] == Areas(before);
    } else {
      assert ItemsOn(crops + [x], StatusOf, status) == before;
    }
  }

  /** Over distinct statuses, one more crop is counted once, in its own status's summary, if listed. */
  lemma {:induction false} SummariesCountStep(crops: seq<LegacyCrop>, x: LegacyCrop, statuses: seq<string>)
    requires forall i, j :: 0 <= i < j < |statuses| ==> statuses[i] != statuses[j]
    ensures CountSum(Summaries(crops + [x], statuses))
            == CountSum(Summaries(crops, statuses)) + (if x.status in statuses then 1 else 0)
  {
    if |statuses| > 0 {
      var front, last := statuses[..|statuses| - 1], statuses[|statuses| - 1];
      SummariesCountStep(crops, x, front);
      SumsSnoc(Summaries(crops + [x], front), SummaryOf(crops + [x], last));
      SumsSnoc(Summaries(crops, front), SummaryOf(crops, last));
      SummaryStep(crops, x, last);
      assert statuses == front + [last];
    }
  }

  /** Over distinct statuses, one more crop's area is added once, to its own status's summary, if listed. */
  lemma {:induction false} SummariesAreaStep(crops: seq<LegacyCrop>, x: LegacyCrop, statuses: seq<string>)
    requires forall i, j :: 0 <= i < j < |statuses| ==> statuses[i] != statuses[j]
    ensures AreaSum(Summaries(crops + [x], statuses))
            == AreaSum(Summaries(crops, statuses)) + (if x.status in statuses then x.area else 0.0)
  {
    if |statuses| > 0 {
      var front, last := statuses[..|statuses| - 1], statuses[|statuses| - 1];
      SummariesAreaStep(crops, x, front);
      SumsSnoc(Summaries(crops + [x], front), SummaryOf(crops + [x], last));
      SumsSnoc(Summaries(crops, front), SummaryOf(crops, last));
      SummaryStep(crops, x, last);
      assert statuses == front + [last];
    }
  }

  lemma StatusesSnoc(crops: seq<LegacyCrop>, x: LegacyCrop)
    ensures DayKeys(crops + [x], StatusOf)
            == if x.status in DayKeys(crops, StatusOf) then DayKeys(crops, StatusOf) else DayKeys(crops, StatusOf) + [x.status]
  {
    assert (crops + [x])[..|crops|] == crops;
  }

  lemma AreaTotalSnoc(crops: seq<LegacyCrop>, x: LegacyCrop)
    ensures Total(Areas(crops + [x])) == Total(Areas(crops)) + x.area
  {
    assert Areas(crops + [x]) == Areas(crops) + [x.area];
    assert (Areas(crops) + [x.area])[..|crops|] == Areas(crops);
  }

  /** A status no earlier crop carries gets a new summary holding just the new crop. */
  lemma NewStatusSummary(crops: seq<LegacyCrop>, x: LegacyCrop)
    requires x.status !in DayKeys(crops, StatusOf)
    ensures SummaryOf(crops + [x], x.status) == StatusSummary(x.status, 1, x.area)
  {
    ItemsOnNonEmpty(crops, StatusOf, x.status);
    SummaryStep(crops, x, x.status);
    assert Total(Areas([])) == 0.0;
  }

  /** The partition is kept when one more crop is added. */
  lemma CoversStep(crops: seq<LegacyCrop>, x: LegacyCrop)
    requires CountSum(ByStatus(crops)) == |crops|
    requires AreaSum(ByStatus(crops)) == Total(Areas(crops))
    ensures CountSum(ByStatus(crops + [x])) == |crops| + 1
    ensures AreaSum(ByStatus(crops + [x])) == Total(Areas(crops)) + x.area
  {
    var statuses := DayKeys(crops, StatusOf);
    StatusesSnoc(crops, x);
    SummariesCountStep(crops, x, statuses);
    SummariesAreaStep(crops, x, statuses);
    if x.status !in statuses {
      NewStatusSummary(crops, x);
      assert Summaries(crops + [x], statuses + [x.status])
             == Summaries(crops + [x], statuses) + [SummaryOf(crops + [x], x.status)];
      SumsSnoc(Summaries(crops + [x], statuses), SummaryOf(crops + [x], x.status));
    }
  }

  /** The groups partition the crops: their counts add up to the number of
      crops and their areas to the total area. */
  lemma {:induction false} ByStatusCovers(crops: seq<LegacyCrop>)
    ensures CountSum(ByStatus(crops)) == |crops|
    ensures AreaSum(ByStatus(crops)) == Total(Areas(crops))
  {
    if |crops| > 0 {
      var prefix, x := crops[..|crops| - 1], crops[|crops| - 1];
      assert crops == prefix + [x];
      ByStatusCovers(prefix);
      AreaTotalSnoc(prefix, x);
      CoversStep(prefix, x);
    }
  }

  /** Summary i is the summary of status i. */
  lemma {:induction false} SummariesAt(crops: seq<LegacyCrop>, statuses: seq<string>)
    ensures |Summaries(crops, statuses)| == |statuses|
    ensures forall i :: 0 <= i < |statuses| ==> Summaries(crops, statuses)[i] == SummaryOf(crops, statuses[i])
  {
    if |statuses| > 0 {
      SummariesAt(crops, statuses[..|statuses| - 1]);
    }
  }

  /** Each status the crops carry has exactly one group, and each group is non-empty. */
  lemma ByStatusDistinct(crops: seq<LegacyCrop>)
    ensures forall i, j :: 0 <= i < j < |ByStatus(crops)| ==> ByStatus(crops)[i].status != ByStatus(crops)[j].status
    ensures forall k :: 0 <= k < |crops| ==> exists i :: 0 <= i < |ByStatus(crops)| && ByStatus(crops)[i].status == crops[k].status
    ensures forall i :: 0 <= i < |ByStatus(crops)| ==> ByStatus(crops)[i].count > 0
  {
    var statuses := DayKeys(crops, StatusOf);
    SummariesAt(crops, statuses);
    forall k | 0 <= k < |crops|
      ensures exists i :: 0 <= i < |ByStatus(crops)| && ByStatus(crops)[i].status == crops[k].status
    {
      assert StatusOf(crops[k]) in statuses;
      var i :| 0 <= i < |statuses| && statuses[i] == crops[k].status;
      assert ByStatus(crops)[i].status == crops[k].status;
    }
    forall i | 0 <= i < |statuses|
      ensures ByStatus(crops)[i].count > 0
    {
      ItemsOnNonEmpty(crops, StatusOf, statuses[i]);
    }
  }

  /** `getCropStats`: the number of the requester's crops, their total area
      (`|| 0`), and the per-status groups. */
  method GetLegacyCropStats(store: OwnedStore<LegacyCrop>, requester: UserId)
    returns (totalCrops: nat, totalArea: real, byStatus: seq<StatusSummary>)
    requires IsLegacyCropStore(store)
    ensures totalCrops == |store.Listing(requester, LegacyCropFilter(None, None, None))|
    ensures totalCrops == 0 ==> totalArea == 0.0
    ensures totalArea == Total(Areas(store.RowsOf(store.Listing(requester, LegacyCropFilter(None, None, None)))))
    ensures byStatus == ByStatus(store.RowsOf(store.Listing(requester, LegacyCropFilter(None, None, None))))
    ensures CountSum(byStatus) == totalCrops && AreaSum(byStatus) == totalArea
  {
    var crops := FindAll(store, requester, LegacyCropFilter(None, None, None));
    totalCrops := |crops|;
    totalArea := AreaSummary(crops);
    AreaSummaryIsTotal(crops, []);
    byStatus := ByStatus(crops);
    ByStatusCovers(crops);
  }
}
