/** The fertilizer handlers of the older backend: a request is checked for a
    crop name and a full N-P-K soil test, the fertilizer calculator's plan is
    stored with the request, and the owner-checked store answers 403 to a
    requester who does not own a recommendation. */
module LegacyFertilizerController {
  import opened Common
  import opened RecordStore
  import opened FertilizerLogic

  const ProductKinds: set<string> := {"Organic", "Inorganic", "Bio-fertilizer"}
  const ProductUnits: set<string> := {"kg", "liters", "tons"}
  const ProductMethods: set<string> := {"Broadcasting", "Drilling", "Foliar", "Fertigation", "Side-dressing"}

  /** A stored recommendation: the request, the calculator's plan, and whether it has been applied. */
  datatype LegacyFertilizerRecord = LegacyFertilizerRecord(
    user: nat, crop: Option<nat>, cropName: string, soilData: SoilData, plan: FertilizerPlan,
    applied: bool, appliedDate: Option<int>)

  predicate ValidProduct(item: FertilizerItem)
  {
    item.kind in ProductKinds && item.unit in ProductUnits && item.applicationMethod in ProductMethods
  }

  /** The schema validators: a crop name, and products with an enumerated kind, unit and method. */
  predicate ValidLegacyFertilizer(r: LegacyFertilizerRecord)
  {
    r.cropName != "" && forall i :: 0 <= i < |r.plan.recommendations| ==> ValidProduct(r.plan.recommendations[i])
  }

  /** A soil test as the request carries it: any reading may be missing. */
  datatype SoilInput = SoilInput(nitrogen: Option<real>, phosphorus: Option<real>, potassium: Option<real>, pH: Option<real>)

  /** A JavaScript truthiness test on a number: present and not zero. */
  predicate Truthy(x: Option<real>)
  {
    x.Some? && x.value != 0.0
  }

  /** The 400 check of `generateRecommendation`: a non-empty crop name and a
      soil test whose nitrogen, phosphorus and potassium are present and not zero. */
  predicate CompleteRequest(cropName: Option<string>, soilData: Option<SoilInput>)
  {
    Given(cropName) && soilData.Some?
    && Truthy(soilData.value.nitrogen) && Truthy(soilData.value.phosphorus) && Truthy(soilData.value.potassium)
  }

  /** Every product the calculator can suggest passes the schema checks. */
  lemma ProductsValid(cropName: string, soil: SoilData)
    ensures forall i :: 0 <= i < |Products(cropName, soil)| ==> ValidProduct(Products(cropName, soil)[i])
  {
    var (nDef, pDef, kDef) := Deficiencies(cropName, soil);
    var a, b, c, e := ComplexPart(nDef, pDef, kDef), UreaPart(nDef), PotashPart(kDef), CorrectivePart(soil);
    assert forall i :: 0 <= i < |a| ==> ValidProduct(a[i]);
    assert forall i :: 0 <= i < |b| ==> ValidProduct(b[i]);
    assert forall i :: 0 <= i < |c| ==> ValidProduct(c[i]);
    assert forall i :: 0 <= i < |e| ==> ValidProduct(e[i]);
    assert ValidProduct(FarmYardManure);
    var all := a + b + c + [FarmYardManure] + e;
    assert Products(cropName, soil) == all;
    forall i | 0 <= i < |all| ensures ValidProduct(all[i]) {
      if i < |a| {
        assert all[i] == a[i];
      } else if i < |a| + |b| {
        assert all[i] == b[i - |a|];
      } else if i < |a| + |b| + |c| {
        assert all[i] == c[i - |a| - |b|];
      } else if i == |a| + |b| + |c| {
        assert all[i] == FarmYardManure;
      } else {
        assert all[i] == e[i - |a| - |b| - |c| - 1];
      }
    }
  }

  /** The fertilizer collection: records owned by their `user`, a 403 guard, the schema validators. */
  ghost predicate IsLegacyFertilizerStore(store: OwnedStore<LegacyFertilizerRecord>)
    reads store
  {
    && store.Valid()
    && store.denied == Forbidden
    && (forall r :: store.accepts(r) == ValidLegacyFertilizer(r))
    && (forall r :: store.ownerOf(r) == r.user)
  }

  /** The soil test as it is handed to the calculator and stored. */
  function SoilOf(input: SoilInput): SoilData
    requires Truthy(input.nitrogen) && Truthy(input.phosphorus) && Truthy(input.potassium)
  {
    SoilData(input.nitrogen.value, input.phosphorus.value, input.potassium.value, input.pH)
  }

  /** `generateRecommendation`: 400 for an incomplete request; otherwise the
      calculator's plan is stored with the requester, the crop id (or none),
      the crop name and the soil test, and the answer is 201. */
  method GenerateRecommendation(store: OwnedStore<LegacyFertilizerRecord>, requester: UserId, cropId: Option<nat>,
                                cropName: Option<string>, soilData: Option<SoilInput>, numberText: real -> string)
    returns (status: Status, recommendation: Option<LegacyFertilizerRecord>)
    requires IsLegacyFertilizerStore(store)
    modifies store
    ensures IsLegacyFertilizerStore(store)
    ensures !CompleteRequest(cropName, soilData) ==>
              status == BadRequest && recommendation.None? && store.rows == old(store.rows)
    ensures CompleteRequest(cropName, soilData) ==>
              var soil := SoilOf(soilData.value);
              status == Created && recommendation.Some?
              && recommendation.value.user == requester && recommendation.value.crop == cropId
              && recommendation.value.cropName == cropName.value && recommendation.value.soilData == soil
              && recommendation.value.plan.recommendations == Products(cropName.value, soil)
              && recommendation.value.plan.totalEstimatedCost == CostOf(Products(cropName.value, soil))
              && recommendation.value.plan.applicationSchedule == Schedule(RequirementsFor(cropName.value).stages)
              && recommendation.value.plan.customAdvice == CustomAdvice(cropName.value, soil, numberText)
              && !recommendation.value.applied && recommendation.value.appliedDate.None?
              && store.rows == old(store.rows)[old(store.nextId) := recommendation.value]
  {
    if !CompleteRequest(cropName, soilData) {
      return BadRequest, None;
    }
    var soil := SoilOf(soilData.value);
    var plan := GenerateFertilizerRecommendation(cropName.value, soil, numberText);
    var record := LegacyFertilizerRecord(requester, cropId, cropName.value, soil, plan, false, None);
    ProductsValid(cropName.value, soil);
    var created, id := store.Create(record);
    status, recommendation := created, Some(record);
  }

  /** `getFertilizerRecommendation`. */
  method GetLegacyFertilizer(store: OwnedStore<LegacyFertilizerRecord>, id: nat, requester: UserId)
    returns (status: Status, recommendation: Option<LegacyFertilizerRecord>)
    requires IsLegacyFertilizerStore(store)
    ensures id !in store.rows ==> status == NotFound && recommendation.None?
    ensures id in store.rows && store.rows[id].user != requester ==> status == Forbidden && recommendation.None?
    ensures id in store.rows && store.rows[id].user == requester ==> status == Ok && recommendation == Some(store.rows[id])
  {
    status, recommendation := store.Get(id, requester);
  }

  /** `updateRecommendation`: the guard, then `findByIdAndUpdate` with the validators. */
  method UpdateLegacyFertilizer(store: OwnedStore<LegacyFertilizerRecord>, id: nat, requester: UserId,
                                change: LegacyFertilizerRecord -> LegacyFertilizerRecord)
    returns (status: Status, recommendation: Option<LegacyFertilizerRecord>)
    requires IsLegacyFertilizerStore(store)
    modifies store
    ensures IsLegacyFertilizerStore(store)
    ensures id !in old(store.rows) ==> status == NotFound && store.rows == old(store.rows)
    ensures id in old(store.rows) && old(store.rows)[id].user != requester ==>
              status == Forbidden && store.rows == old(store.rows)
    ensures id in old(store.rows) && old(store.rows)[id].user == requester ==>
              var changed := change(old(store.rows)[id]);
              (ValidLegacyFertilizer(changed) ==> status == Ok && recommendation == Some(changed)
                                                  && store.rows == old(store.rows)[id := changed])
              && (!ValidLegacyFertilizer(changed) ==> status == Error && store.rows == old(store.rows))
  {
    status, recommendation := store.Update(id, requester, change);
  }

  /** `deleteRecommendation`. */
  method DeleteLegacyFertilizer(store: OwnedStore<LegacyFertilizerRecord>, id: nat, requester: UserId) returns (status: Status)
    requires IsLegacyFertilizerStore(store)
    modifies store
    ensures IsLegacyFertilizerStore(store)
    ensures id !in old(store.rows) ==> status == NotFound && store.rows == old(store.rows)
    ensures id in old(store.rows) && old(store.rows)[id].user != requester ==>
              status == Forbidden && store.rows == old(store.rows)
    ensures id in old(store.rows) && old(store.rows)[id].user == requester ==>
              status == Ok && store.rows == old(store.rows) - {id}
  {
    status := store.Delete(id, requester);
  }

  /** `markAsApplied`: after the guard, the loaded record gets `applied` set
      and the current time as `appliedDate`, and is saved; nothing else changes. */
  method MarkAsApplied(store: OwnedStore<LegacyFertilizerRecord>, id: nat, requester: UserId, now: int)
    returns (status: Status, recommendation: Option<LegacyFertilizerRecord>)
    requires IsLegacyFertilizerStore(store)
    modifies store
    ensures IsLegacyFertilizerStore(store)
    ensures id !in old(store.rows) ==> status == NotFound && store.rows == old(store.rows)
    ensures id in old(store.rows) && old(store.rows)[id].user != requester ==>
              status == Forbidden && store.rows == old(store.rows)
    ensures id in old(store.rows) && old(store.rows)[id].user == requester ==>
              var before := old(store.rows)[id];
              var after := before.(applied := true, appliedDate := Some(now));
              (ValidLegacyFertilizer(before) ==> status == Ok && recommendation == Some(after)
                                                 && store.rows == old(store.rows)[id := after])
              && (!ValidLegacyFertilizer(before) ==> status == Error && store.rows == old(store.rows))
  {
    var found;
    status, found := store.Get(id, requester);
    if status != Ok {
      return status, None;
    }
    var after := found.value.(applied := true, appliedDate := Some(now));
    status := store.Save(id, after);
    recommendation := if status == Ok then Some(after) else None;
  }

  function Everything(): LegacyFertilizerRecord -> bool
  {
    r => true
  }

  /** `getFertilizerRecommendations`: every recommendation of the requester, newest first. */
  method GetLegacyFertilizers(store: OwnedStore<LegacyFertilizerRecord>, requester: UserId)
    returns (count: nat, data: seq<LegacyFertilizerRecord>)
    requires IsLegacyFertilizerStore(store)
    ensures count == |data| == |store.Listing(requester, Everything())|
    ensures data == store.RowsOf(store.Listing(requester, Everything()))
    ensures forall k :: 0 <= k < |data| ==> data[k].user == requester
    ensures forall id :: id in store.rows && store.rows[id].user == requester ==> store.rows[id] in data
  {
    data := FindAll(store, requester, Everything());
    count := |data|;
  }
}
