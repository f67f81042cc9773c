/** A crop document of the newer backend: the fields its handlers and its
    save hook touch, the schema checks that guard a write, and the save hook
    that recomputes the cost total and the profit in place. */
module CropModel {
  import opened Common

  const Categories: set<string> := {"cereals", "pulses", "vegetables", "fruits", "oilseeds", "cash_crops", "spices", "other"}
  const Seasons: set<string> := {"kharif", "rabi", "zaid", "perennial"}
  const Statuses: set<string> := {"planned", "planted", "growing", "harvested", "failed"}
  const IssueKinds: set<string> := {"pest", "disease", "nutrient_deficiency", "weather", "other"}
  const Severities: set<string> := {"low", "medium", "high"}
  const SoilTypes: set<string> := {"clay", "sandy", "loamy", "silt", "peaty", "chalky"}
  const IrrigationMethods: set<string> := {"drip", "sprinkler", "flood", "rainfed", "other"}
  const GrowthStages: set<string> := {"germination", "seedling", "vegetative", "flowering", "fruiting", "maturity", "harvest"}
  const HealthStatuses: set<string> := {"excellent", "good", "fair", "poor", "critical"}

  datatype Note = Note(content: Option<string>, date: int)

  /** An entry of `health.issues`; `identifiedDate` and `resolved` carry their schema defaults. */
  datatype HealthIssue = HealthIssue(kind: Option<string>, description: Option<string>, severity: Option<string>,
                                     identifiedDate: int, resolved: bool)

  /** A health issue as a request body gives it. */
  datatype IssueBody = IssueBody(kind: Option<string>, description: Option<string>, severity: Option<string>,
                                 identifiedDate: Option<int>, resolved: Option<bool>)

  /** The nested `costTracking` path. A nested path of a Mongoose document is
      always an object, so only its leaves may be missing. */
  datatype CostTracking = CostTracking(seeds: Option<real>, fertilizers: Option<real>, pesticides: Option<real>,
                                       labor: Option<real>, irrigation: Option<real>, other: Option<real>,
                                       total: Option<real>)

  /** The nested `revenue` path, always an object like `costTracking`. */
  datatype Revenue = Revenue(sellingPrice: Option<real>, totalRevenue: Option<real>, profit: Option<real>)

  /** A crop as stored, with the schema defaults (`status`, `health.status`)
      already filled in; the dates are timestamps. */
  datatype CropRecord = CropRecord(user: nat, name: string, category: string, season: string, status: string,
                                   area: real, plantingDate: Option<int>, expectedHarvestDate: Option<int>,
                                   soilType: Option<string>, irrigationMethod: Option<string>,
                                   growthStage: Option<string>, healthStatus: string,
                                   costTracking: CostTracking, revenue: Revenue,
                                   notes: seq<Note>, issues: seq<HealthIssue>)

  /** The schema defaults of a pushed health issue, with `now` as `Date.now`. */
  function IssueFrom(body: IssueBody, now: int): (issue: HealthIssue)
    ensures issue.kind == body.kind && issue.description == body.description && issue.severity == body.severity
    ensures issue.identifiedDate == (if body.identifiedDate.Some? then body.identifiedDate.value else now)
    ensures issue.resolved <==> body.resolved == Some(true)
  {
    HealthIssue(body.kind, body.description, body.severity,
                if body.identifiedDate.Some? then body.identifiedDate.value else now,
                if body.resolved.Some? then body.resolved.value else false)
  }

  predicate ValidIssue(issue: HealthIssue)
  {
    OptionalIn(issue.kind, IssueKinds) && OptionalIn(issue.severity, Severities)
  }

  /** The schema validators: a name, the two required dates, enumerated
      category, season, status and health status, a non-negative area,
      enumerated soil type, irrigation method and growth stage when given,
      and enumerated health-issue kinds and severities. */
  predicate ValidCrop(r: CropRecord)
  {
    && r.name != ""
    && r.category in Categories
    && r.plantingDate.Some?
    && r.expectedHarvestDate.Some?
    && r.area >= 0.0
    && r.season in Seasons
    && OptionalIn(r.soilType, SoilTypes)
    && OptionalIn(r.irrigationMethod, IrrigationMethods)
    && r.status in Statuses
    && OptionalIn(r.growthStage, GrowthStages)
    && r.healthStatus in HealthStatuses
    && forall i :: 0 <= i < |r.issues| ==> ValidIssue(r.issues[i])
  }

  /** The six cost components, each read with `|| 0`. */
  function CostSum(ct: CostTracking): real
  {
    OrZero(ct.seeds) + OrZero(ct.fertilizers) + OrZero(ct.pesticides)
    + OrZero(ct.labor) + OrZero(ct.irrigation) + OrZero(ct.other)
  }

  predicate NonNegative(x: Option<real>)
  {
    x.None? || x.value >= 0.0
  }

  /** With no negative component the total is never negative. */
  lemma CostSumNonNegative(ct: CostTracking)
    requires NonNegative(ct.seeds) && NonNegative(ct.fertilizers) && NonNegative(ct.pesticides)
    requires NonNegative(ct.labor) && NonNegative(ct.irrigation) && NonNegative(ct.other)
    ensures CostSum(ct) >= 0.0
  {
  }

  /** The hook's profit guard `this.revenue && this.revenue.totalRevenue &&
      this.costTracking`: the two nested paths are always objects, so it
      holds exactly when the total revenue is present and not zero. */
  predicate ProfitRecomputed(r: CropRecord)
  {
    r.revenue.totalRevenue.Some? && r.revenue.totalRevenue.value != 0.0
  }

  /** The record a save writes: the cost total is always the sum of the six
      components; the profit is the revenue less that total when the revenue
      is non-zero, and is kept otherwise; nothing else changes. */
  function AfterSave(r: CropRecord): (s: CropRecord)
    ensures s.costTracking.total == Some(CostSum(r.costTracking))
    ensures ProfitRecomputed(r) ==> s.revenue.profit == Some(r.revenue.totalRevenue.value - CostSum(r.costTracking))
    ensures !ProfitRecomputed(r) ==> s.revenue == r.revenue
    ensures s == r.(costTracking := r.costTracking.(total := s.costTracking.total),
                    revenue := r.revenue.(profit := s.revenue.profit))
  {
    var withTotal := r.(costTracking := r.costTracking.(total := Some(CostSum(r.costTracking))));
    if OrZero(withTotal.revenue.totalRevenue) != 0.0 then
      var rev := withTotal.revenue;
      withTotal.(revenue := rev.(profit := Some(rev.totalRevenue.value - withTotal.costTracking.total.value)))
    else withTotal
  }

  /** A crop with revenue and no cost recorded: the total is 0 and the whole
      revenue is profit. */
  lemma RevenueWithoutCosts(r: CropRecord)
    requires r.costTracking == CostTracking(None, None, None, None, None, None, None)
    requires r.revenue.totalRevenue == Some(1000.0)
    ensures AfterSave(r).costTracking.total == Some(0.0)
    ensures AfterSave(r).revenue.profit == Some(1000.0)
  {
  }

  /** The derived fields are never inputs of the hook, so a second save changes nothing. */
  lemma SaveIdempotent(r: CropRecord)
    ensures AfterSave(AfterSave(r)) == AfterSave(r)
  {
    assert CostSum(AfterSave(r).costTracking) == CostSum(r.costTracking);
  }

  /** The hook never touches a validated field, so it keeps a record valid or invalid. */
  lemma SaveKeepsValidity(r: CropRecord)
    ensures ValidCrop(AfterSave(r)) <==> ValidCrop(r)
  {
  }

  /** A crop document held in memory between a load and a save. */
  class CropDocument {
    var user: nat
    var name: string
    var category: string
    var season: string
    var status: string
    var area: real
    var plantingDate: Option<int>
    var expectedHarvestDate: Option<int>
    var soilType: Option<string>
    var irrigationMethod: Option<string>
    var growthStage: Option<string>
    var healthStatus: string
    var costTracking: CostTracking
    var revenue: Revenue
    var notes: seq<Note>
    var issues: seq<HealthIssue>

    function Snapshot(): CropRecord
      reads this
    {
      CropRecord(user, name, category, season, status, area, plantingDate, expectedHarvestDate,
                 soilType, irrigationMethod, growthStage, healthStatus, costTracking, revenue, notes, issues)
    }

    constructor (r: CropRecord)
      ensures Snapshot() == r
    {
      user, name, category, season, status, area := r.user, r.name, r.category, r.season, r.status, r.area;
      plantingDate, expectedHarvestDate := r.plantingDate, r.expectedHarvestDate;
      soilType, irrigationMethod, growthStage, healthStatus := r.soilType, r.irrigationMethod, r.growthStage, r.healthStatus;
      costTracking, revenue, notes, issues := r.costTracking, r.revenue, r.notes, r.issues;
    }

    /** The `pre('save')` hook: the cost total first, then the profit from that total. */
    method PreSave()
      modifies this
      ensures Snapshot() == AfterSave(old(Snapshot()))
    {
      var ct := costTracking;
      costTracking := ct.(total := Some(OrZero(ct.seeds) + OrZero(ct.fertilizers) + OrZero(ct.pesticides)
                                        + OrZero(ct.labor) + OrZero(ct.irrigation) + OrZero(ct.other)));
      if OrZero(revenue.totalRevenue) != 0.0 {
        revenue := revenue.(profit := Some(revenue.totalRevenue.value - costTracking.total.value));
      }
    }

    /** `notes.push({ content, date })`. */
    method PushNote(content: Option<string>, now: int)
      modifies this
      ensures Snapshot() == old(Snapshot()).(notes := old(notes) + [Note(content, now)])
    {
      notes := notes + [Note(content, now)];
    }

    /** `health.issues.push(body)`. */
    method PushIssue(body: IssueBody, now: int)
      modifies this
      ensures Snapshot() == old(Snapshot()).(issues := old(issues) + [IssueFrom(body, now)])
    {
      issues := issues + [IssueFrom(body, now)];
    }
  }
}
