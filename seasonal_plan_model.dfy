/** A seasonal plan document: the crops it allocates, its financial roll-up,
    its milestones and the progress derived from them, its notes, the schema
    checks that guard a write and the save hook that recomputes the roll-ups
    in place. */
module SeasonalPlanModel {
  import opened Common

  const PlanSeasons: set<string> := {"kharif", "rabi", "zaid", "annual"}
  const PlanStatuses: set<string> := {"draft", "active", "completed", "cancelled"}
  const Priorities: set<string> := {"high", "medium", "low"}
  const CropStatuses: set<string> := {"planned", "in_progress", "completed", "cancelled"}
  const RotationStrategies: set<string> := {"monocropping", "crop_rotation", "intercropping", "mixed_cropping"}
  const RiskKinds: set<string> := {"weather", "pest", "disease", "market", "financial", "other"}
  const RiskSeverities: set<string> := {"low", "medium", "high"}

  /** An entry of `crops`; `priority` and `status` carry their schema defaults. */
  datatype PlannedCrop = PlannedCrop(cropName: Option<string>, allocatedArea: Option<real>, expectedYield: Option<real>,
                                     estimatedCost: Option<real>, expectedRevenue: Option<real>,
                                     priority: string, status: string)

  datatype Financials = Financials(totalBudget: Option<real>, totalEstimatedCost: Option<real>,
                                   totalExpectedRevenue: Option<real>, totalExpectedProfit: Option<real>,
                                   actualCost: Option<real>, actualRevenue: Option<real>, actualProfit: Option<real>)

  /** An entry of `milestones`, with its sub-document id; `completed` defaults to false. */
  datatype Milestone = Milestone(id: nat, title: Option<string>, description: Option<string>,
                                 targetDate: Option<int>, completed: bool, completedDate: Option<int>)

  datatype PlanNote = PlanNote(content: Option<string>, date: int, author: nat)

  /** An entry of `risks`. */
  datatype Risk = Risk(kind: Option<string>, description: Option<string>, severity: Option<string>,
                       mitigationStrategy: Option<string>)

  /** A plan as stored, with the schema defaults (`status`, `progress`)
      already filled in; the dates are timestamps. */
  datatype PlanRecord = PlanRecord(user: nat, year: int, season: string, planName: string,
                                   startDate: Option<int>, endDate: Option<int>, totalArea: real,
                                   crops: seq<PlannedCrop>, rotationStrategy: Option<string>, financials: Financials,
                                   milestones: seq<Milestone>, risks: seq<Risk>,
                                   status: string, progress: real, notes: seq<PlanNote>)

  predicate ValidRisk(risk: Risk)
  {
    OptionalIn(risk.kind, RiskKinds) && OptionalIn(risk.severity, RiskSeverities)
  }

  /** The schema validators: an enumerated season, a plan name, the two
      required dates, enumerated crop entries, an enumerated rotation strategy
      when given, enumerated risks, an enumerated status, and a progress
      between 0 and 100. */
  predicate ValidPlan(r: PlanRecord)
  {
    && r.season in PlanSeasons
    && r.planName != ""
    && r.startDate.Some?
    && r.endDate.Some?
    && (forall i :: 0 <= i < |r.crops| ==> r.crops[i].priority in Priorities && r.crops[i].status in CropStatuses)
    && OptionalIn(r.rotationStrategy, RotationStrategies)
    && (forall i :: 0 <= i < |r.risks| ==> ValidRisk(r.risks[i]))
    && r.status in PlanStatuses
    && 0.0 <= r.progress <= 100.0
  }

  /** `crops.reduce((total, crop) => total + (crop.estimatedCost || 0), 0)`. */
  function EstimatedCosts(crops: seq<PlannedCrop>): (costs: seq<real>)
    ensures |costs| == |crops|
    ensures forall i :: 0 <= i < |crops| ==> costs[i] == OrZero(crops[i].estimatedCost)
  {
    seq(|crops|, i requires 0 <= i < |crops| => OrZero(crops[i].estimatedCost))
  }

  /** `crops.reduce((total, crop) => total + (crop.expectedRevenue || 0), 0)`. */
  function ExpectedRevenues(crops: seq<PlannedCrop>): (revenues: seq<real>)
    ensures |revenues| == |crops|
    ensures forall i :: 0 <= i < |crops| ==> revenues[i] == OrZero(crops[i].expectedRevenue)
  {
    seq(|crops|, i requires 0 <= i < |crops| => OrZero(crops[i].expectedRevenue))
  }

  /** `milestones.filter((m) => m.completed).length`. */
  function CompletedCount(milestones: seq<Milestone>): (c: nat)
    ensures c <= |milestones|
    ensures c == 0 <==> forall i :: 0 <= i < |milestones| ==> !milestones[i].completed
    ensures c == |milestones| <==> forall i :: 0 <= i < |milestones| ==> milestones[i].completed
  {
    if |milestones| == 0 then 0
    else
      var rest := CompletedCount(milestones[1..]);
      assert forall i :: 1 <= i < |milestones| ==> milestones[i] == milestones[1..][i - 1];
      (if milestones[0].completed then 1 else 0) + rest
  }

  /** `Math.round((completed / total) * 100)`, in whole percent. */
  function Progress(completed: nat, total: nat): (p: int)
    requires 0 < total && completed <= total
    ensures 0 <= p <= 100
    ensures p as real - 0.5 <= (completed as real / total as real) * 100.0 < p as real + 0.5
  {
    ShareBounds(completed, total);
    JsRound((completed as real / total as real) * 100.0)
  }

  lemma ShareBounds(c: nat, t: nat)
    requires 0 < t && c <= t
    ensures 0.0 <= c as real / t as real <= 1.0
  {
    assert (c as real / t as real) * t as real == c as real;
  }

  lemma ShareMonotone(c1: nat, c2: nat, t: nat)
    requires 0 < t && c1 <= c2
    ensures c1 as real / t as real <= c2 as real / t as real
  {
    assert (c2 as real / t as real) - (c1 as real / t as real) == (c2 - c1) as real / t as real;
  }

  /** Every milestone done is 100, none done is 0. */
  lemma ProgressExtremes(t: nat)
    requires t > 0
    ensures Progress(t, t) == 100 && Progress(0, t) == 0
  {
    assert t as real / t as real == 1.0;
  }

  /** Completing more milestones never lowers progress. */
  lemma ProgressMonotone(c1: nat, c2: nat, t: nat)
    requires 0 < t && c1 <= c2 <= t
    ensures Progress(c1, t) <= Progress(c2, t)
  {
    ShareMonotone(c1, c2, t);
  }

  /** Half-up rounding of the exact percentage is the integer quotient of `200c + t` by `2t`. */
  lemma ProgressAsIntegers(c: nat, t: nat)
    requires 0 < t && c <= t
    ensures Progress(c, t) == (200 * c + t) / (2 * t)
  {
    var p := Progress(c, t);
    var x := (c as real / t as real) * 100.0;
    assert x * t as real == 100.0 * c as real by {
      assert (c as real / t as real) * t as real == c as real;
    }
    ScaledBelow(x, c as real, t as real, p as real);
    ScaledAbove(x, c as real, t as real, p as real);
    CastProduct(2 * p - 1, t);
    CastProduct(2 * p + 1, t);
    assert (2 * p - 1) * t <= 200 * c < (2 * p + 1) * t;
    QuotientUnique(p, 200 * c + t, 2 * t);
  }

  /** p - 1/2 <= x with x = 100 c / t, scaled by 2t. */
  lemma ScaledBelow(x: real, c: real, t: real, p: real)
    requires 0.0 < t && x * t == 100.0 * c && p - 0.5 <= x
    ensures (2.0 * p - 1.0) * t <= 200.0 * c
  {
    var u := (p - 0.5) * t;
    var v := x * t;
    ScaleReal(p - 0.5, x, t);
    assert u <= v;
    assert (2.0 * p - 1.0) * t == 2.0 * u;
    assert 200.0 * c == 2.0 * v;
  }

  /** x < p + 1/2 with x = 100 c / t, scaled by 2t. */
  lemma ScaledAbove(x: real, c: real, t: real, p: real)
    requires 0.0 < t && x * t == 100.0 * c && x < p + 0.5
    ensures 200.0 * c < (2.0 * p + 1.0) * t
  {
    var u := (p + 0.5) * t;
    var v := x * t;
    ScaleRealStrict(x, p + 0.5, t);
    assert v < u;
    assert (2.0 * p + 1.0) * t == 2.0 * u;
    assert 200.0 * c == 2.0 * v;
  }

  lemma ScaleReal(a: real, b: real, k: real)
    requires a <= b && 0.0 < k
    ensures a * k <= b * k
  {
  }

  lemma ScaleRealStrict(a: real, b: real, k: real)
    requires a < b && 0.0 < k
    ensures a * k < b * k
  {
  }

  lemma CastProduct(a: int, b: int)
    ensures (a * b) as real == a as real * b as real
  {
  }

  lemma QuotientUnique(q: int, n: int, d: int)
    requires 0 < d && q * d <= n < (q + 1) * d
    ensures n / d == q
  {
    var r := n / d;
    assert r * d <= n < (r + 1) * d;
    if r < q {
      MulLe(r + 1, q, d);
    } else if r > q {
      MulLe(q + 1, r, d);
    }
  }

  /** The record a save writes. With crops, the two totals are the sums over
      the crops and the profit their difference; with milestones, progress is
      the rounded completed share. Everything else is as it was. */
  function PlanAfterSave(r: PlanRecord): (s: PlanRecord)
    ensures |r.crops| > 0 ==>
              && s.financials.totalEstimatedCost == Some(Total(EstimatedCosts(r.crops)))
              && s.financials.totalExpectedRevenue == Some(Total(ExpectedRevenues(r.crops)))
              && s.financials.totalExpectedProfit == Some(Total(ExpectedRevenues(r.crops)) - Total(EstimatedCosts(r.crops)))
              && s.financials == r.financials.(totalEstimatedCost := s.financials.totalEstimatedCost,
                                               totalExpectedRevenue := s.financials.totalExpectedRevenue,
                                               totalExpectedProfit := s.financials.totalExpectedProfit)
    ensures |r.crops| == 0 ==> s.financials == r.financials
    ensures |r.milestones| > 0 ==>
              s.progress == Progress(CompletedCount(r.milestones), |r.milestones|) as real && 0.0 <= s.progress <= 100.0
    ensures |r.milestones| == 0 ==> s.progress == r.progress
    ensures s == r.(financials := s.financials, progress := s.progress)
  {
    var withTotals :=
      if |r.crops| > 0 then
        var cost := Total(EstimatedCosts(r.crops));
        var revenue := Total(ExpectedRevenues(r.crops));
        r.(financials := r.financials.(totalEstimatedCost := Some(cost), totalExpectedRevenue := Some(revenue),
                                       totalExpectedProfit := Some(revenue - cost)))
      else r;
    if |r.milestones| > 0 then
      withTotals.(progress := Progress(CompletedCount(r.milestones), |r.milestones|) as real)
    else withTotals
  }

  /** The roll-ups are never inputs of the hook, so a second save changes nothing. */
  lemma PlanSaveIdempotent(r: PlanRecord)
    ensures PlanAfterSave(PlanAfterSave(r)) == PlanAfterSave(r)
  {
  }

  /** The hook puts progress back in range and touches no other validated
      field, so a valid plan stays valid. */
  lemma PlanSaveKeepsValidity(r: PlanRecord)
    requires ValidPlan(r)
    ensures ValidPlan(PlanAfterSave(r))
  {
  }

  /** A seasonal plan document held in memory between a load and a save. */
  class PlanDocument {
    var user: nat
    var year: int
    var season: string
    var planName: string
    var startDate: Option<int>
    var endDate: Option<int>
    var totalArea: real
    var crops: seq<PlannedCrop>
    var rotationStrategy: Option<string>
    var financials: Financials
    var milestones: seq<Milestone>
    var risks: seq<Risk>
    var status: string
    var progress: real
    var notes: seq<PlanNote>

    function Snapshot(): PlanRecord
      reads this
    {
      PlanRecord(user, year, season, planName, startDate, endDate, totalArea, crops, rotationStrategy, financials,
                 milestones, risks, status, progress, notes)
    }

    constructor (r: PlanRecord)
      ensures Snapshot() == r
    {
      user, year, season, planName, totalArea := r.user, r.year, r.season, r.planName, r.totalArea;
      startDate, endDate, rotationStrategy, risks := r.startDate, r.endDate, r.rotationStrategy, r.risks;
      crops, financials, milestones, status, progress, notes := r.crops, r.financials, r.milestones, r.status, r.progress, r.notes;
    }

    /** The `pre('save')` hook: the financial totals when there are crops,
        then progress when there are milestones. */
    method PreSave()
      modifies this
      ensures Snapshot() == PlanAfterSave(old(Snapshot()))
    {
      if |crops| > 0 {
        var cost := Total(EstimatedCosts(crops));
        var revenue := Total(ExpectedRevenues(crops));
        financials := financials.(totalEstimatedCost := Some(cost), totalExpectedRevenue := Some(revenue));
        financials := financials.(totalExpectedProfit := Some(financials.totalExpectedRevenue.value - financials.totalEstimatedCost.value));
      }
      if |milestones| > 0 {
        var completed := CompletedCount(milestones);
        progress := JsRound((completed as real / |milestones| as real) * 100.0) as real;
      }
    }

    /** `milestones.push(body)`. */
    method PushMilestone(m: Milestone)
      modifies this
      ensures Snapshot() == old(Snapshot()).(milestones := old(milestones) + [m])
    {
      milestones := milestones + [m];
    }

    /** `notes.push({ content, author, date })`. */
    method PushNote(note: PlanNote)
      modifies this
      ensures Snapshot() == old(Snapshot()).(notes := old(notes) + [note])
    {
      notes := notes + [note];
    }

    /** `Object.assign(milestones[i], body)`: the given fields replace that milestone's. */
    method AssignMilestone(i: nat, patch: Milestone -> Milestone)
      requires i < |milestones|
      modifies this
      ensures Snapshot() == old(Snapshot()).(milestones := old(milestones)[i := patch(old(milestones)[i])])
    {
      milestones := milestones[i := patch(milestones[i])];
    }
  }
}
