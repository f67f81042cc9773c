# cropsuit backend core, modelled in Dafny

cropsuit is a farm-management web application. Its JavaScript backend
answers crop, fertilizer, weather and planning requests for a logged-in
farmer. Two generations of the backend live side by side:

- the newer one under `backend/src/`, with 401 ownership guards and paginated listings;
- the older one under `backend/controllers` and `backend/utils`, with 403 guards and plain listings.

This project models the deterministic core of both:

- **Rule engines:**
  - the ten-row crop suitability table (`cropRecommendation.js`);
  - the per-season crop tables of the newer recommendation helper;
  - the N-P-K deficiency calculator (`fertilizerLogic.js`) and the threshold table of the newer fertilizer helper.
- **Weather logic:**
  - the priority-ordered advice chains of the Farmonaut service, the OpenWeatherMap service and the legacy weather controller;
  - the day-by-day forecast grouping;
  - the agricultural derivations: growing degree days, frost and heat flags, soil-moisture bucket.
- **Mongoose save hooks**, which recompute derived fields in place:
  - crop cost total and profit;
  - seasonal plan financials and milestone progress;
  - fertilizer cost total;
  - the descending sort of crop suggestions.
- **The owner-checked record store** behind every CRUD handler:
  - 404 for an unknown id;
  - 401 or 403 for a requester who is not the owner;
  - otherwise read, update, delete or append to a sub-list, with the schema validators guarding each write.

Layout:

- `record_store.dfy`: a generic class `OwnedStore<R>`, a map from id to record.
  - Each controller module fixes its owner function, its denial status and its validator with an `IsXStore` predicate.
  - Each handler is a method that states the whole new store.
- **Documents:** each Mongoose document with a save hook is a class with the schema's fields.
  - Its `PreSave` method is proved to produce `XAfterSave(old(Snapshot()))`.
  - The pure function `XAfterSave` carries the lemmas: idempotence, validity kept, sums.
- **Loops:** loops in the source stay loops. Examples are the scoring loop, the push chains, the forecast `forEach` grouping and the reduce in a save hook. Each such method is proved equal to a reference function over the inputs.

JavaScript numbers are exact `real`s (or `int`s for scores and counts). `Math.round` is `Common.JsRound` (halves round up). A value read with `x || d` is an `Option`, and `Some(0)` counts as missing.

## Model

| member | source | states |
|---|---|---|
| Common.JsRound | backend/utils/weatherAPI.js:107-110 | `Math.round` gives the integer within half a unit of its argument, halves going up |
| Common.NatToString | backend/utils/fertilizerLogic.js:170-175 | the decimal text of a quantity in a template string: non-empty and made of digits only |
| Common.MaxOf | backend/utils/weatherAPI.js:106 | `Math.max(...xs)` on a non-empty list is an element of the list and no element exceeds it |
| Common.MinOf | backend/utils/weatherAPI.js:105 | `Math.min(...xs)` on a non-empty list is an element of the list and no element is below it |
| Common.TotalNonNegative | backend/src/models/Crop.js:157-165 | a left-to-right sum of non-negative numbers is non-negative |
| Common.TotalAppend | backend/src/models/FertilizerRecommendation.js:115-117 | the reduce-sum of a concatenation is the sum of the two sums |
| Common.PageCount | backend/src/controllers/cropController.js:28 | `Math.ceil(count / limit)` is the least page count covering all records; a zero limit has no page count |
| Common.PageOf | backend/src/controllers/cropController.js:17-20 | `limit(limit).skip((page-1)*limit)` fails on a negative skip, is empty past the end, else is the slice of at most `limit` rows starting at the skip |
| Common.PagesCoverRows | backend/src/controllers/cropController.js:17-28 | pages 1 to the reported page count are non-empty and no larger than the limit; later pages are empty |
| Sorting.Insert | backend/src/models/CropRecommendation.js:155 | inserting into a list adds exactly that element (multiset) |
| Sorting.InsertKeepsSorted | backend/src/models/CropRecommendation.js:155 | inserting into a non-increasing list keeps it non-increasing |
| Sorting.SortDesc | backend/utils/cropRecommendation.js:141 | the descending comparator sort is a permutation of its input |
| Sorting.SortDescSorted | backend/utils/cropRecommendation.js:141 | the sort's result is non-increasing by key and a permutation of the input |
| Sorting.SortDescOfSorted | backend/src/models/CropRecommendation.js:153-156 | an already ordered list is left exactly as it is (stability) |
| Sorting.SortDescIdempotent | backend/src/models/CropRecommendation.js:153-156 | sorting twice equals sorting once |
| Sorting.SortDescSameElements | backend/src/models/CropRecommendation.js:155 | an element is in the sorted list iff it is in the input |
| CropSuitability.EstimatesFallBack | backend/utils/cropRecommendation.js:150-184 | names outside the tables get yield 20, cost 20000 and revenue 35000; names in the tables get their table entry |
| CropSuitability.ScoreBounds | backend/utils/cropRecommendation.js:95-124 | the score lies in 0..90, is at most 30 without soil and season match, and the percentage `min(score, 100)` equals the score |
| CropSuitability.YearRoundEarnsSeasonPoints | backend/utils/cropRecommendation.js:102 | a Year-round crop scores the same whatever season is asked for |
| CropSuitability.QualifyingAboveForty | backend/utils/cropRecommendation.js:119-137 | every pushed recommendation scores above 40 and no more rows than the table are pushed |
| CropSuitability.UnmatchedNeverRecommended | backend/utils/cropRecommendation.js:96-120 | a crop matching neither soil nor season is never among the pushed recommendations |
| CropSuitability.ScoreCrop | backend/utils/cropRecommendation.js:92-117 | the accumulating loop body yields the four-part additive score and the reasons list |
| CropSuitability.GenerateCropRecommendations | backend/utils/cropRecommendation.js:86-147 | the answer is the first 10 of the qualifying rows sorted by score, non-increasing, each above 40; `totalRecommendations` counts all of them before truncation; the parameters are echoed |
| FertilizerLogic.Deficiency | backend/utils/fertilizerLogic.js:67-69 | `max(0, optimal - measured)` is never negative, and is 0 exactly when the measurement reaches the optimum |
| FertilizerLogic.CostOfAppend | backend/utils/fertilizerLogic.js:73-167 | the running cost total is additive over the pushed products |
| FertilizerLogic.Schedule | backend/utils/fertilizerLogic.js:170-175 | one schedule entry per crop stage |
| FertilizerLogic.AddInorganic | backend/utils/fertilizerLogic.js:73-122 | the push-and-add steps yield the NPK complex, urea and potash parts in that order, with the running total equal to their summed cost |
| FertilizerLogic.CorrectPh | backend/utils/fertilizerLogic.js:137-167 | the pH step appends lime for pH below 5.5, gypsum above 8 and nothing otherwise, adds its cost and sets the matching advice |
| FertilizerLogic.GenerateFertilizerRecommendation | backend/utils/fertilizerLogic.js:61-186 | the plan's products are the deficiency-driven list, its total is their summed cost, its schedule follows the crop's stages, and the advice is the pH line, the crop's moisture line and the soil-test sentence with N, P and K |
| FertilizerLogic.PhLineDecidesOpening | backend/utils/fertilizerLogic.js:138-156 | the lime line opens the text iff the soil is acidic, the gypsum line iff alkaline, and soil that is neutral or has no pH reading adds no line |
| FertilizerLogic.AdviceOpensWithPhLine | backend/utils/fertilizerLogic.js:138-178 | the advice opens with the lime line iff the soil is acidic, with the gypsum line iff alkaline, else with the crop's moisture line; it always ends with the soil-test sentence |
| FertilizerLogic.NamedAppend | backend/utils/fertilizerLogic.js:73-167 | selecting a product by name distributes over the pushes |
| FertilizerLogic.NamedInProducts | backend/utils/fertilizerLogic.js:73-167 | the products of a name are exactly those contributed by each step |
| FertilizerLogic.ComplexIffDeficient | backend/utils/fertilizerLogic.js:76-90 | the NPK complex is present iff some deficiency is positive, with quantity `round(max(n/0.12, p/0.32, k/0.16))` |
| FertilizerLogic.UreaIffNitrogenShort | backend/utils/fertilizerLogic.js:92-106 | urea is present iff the nitrogen deficiency exceeds 50, with quantity `round(nDef)` |
| FertilizerLogic.PotashIffPotassiumShort | backend/utils/fertilizerLogic.js:108-122 | muriate of potash is present iff the potassium deficiency exceeds 30, with quantity `round(kDef * 1.67)` |
| FertilizerLogic.ManureAlwaysPresent | backend/utils/fertilizerLogic.js:124-135 | farm yard manure is always present, exactly once |
| FertilizerLogic.CorrectiveByPh | backend/utils/fertilizerLogic.js:139-167 | lime iff pH below 5.5, gypsum iff above 8, never both, none for 5.5..8 |
| FertilizerLogic.PlanCost | backend/utils/fertilizerLogic.js:73-184 | the total equals the sum of each present product's cost |
| FertilizerLogic.UnknownCropIsWheat | backend/utils/fertilizerLogic.js:64 | a crop missing from the table gets Wheat's products and schedule |
| FertilizerLogic.ScheduleFollowsStages | backend/utils/fertilizerLogic.js:170-175 | entry i carries stage i's name and days and the dose `<npk> @ <quantity> kg/acre`; entry 0 says 'Apply with soil preparation', the others 'Apply as top dressing' |
| CropRecommendationController.SeasonalCrops | backend/src/controllers/cropRecommendationController.js:253 | a known season gets its own table; any other season gets none |
| CropRecommendationController.SuitabilityScore | backend/src/controllers/cropRecommendationController.js:267-277 | 50, +20 for the first listed soil, +15 for a high-water crop with irrigation, +10 for a low-water crop; always within 50..85 so the cap at 100 never applies |
| CropRecommendationController.Suggest | backend/src/controllers/cropRecommendationController.js:282-320 | a suggestion carries the row's name, variety, category and water need, its score, 'moderate' labour, and the season's growth days, sowing and harvest windows |
| CropRecommendationController.Suggestions | backend/src/controllers/cropRecommendationController.js:255-273 | the helper never suggests more crops than the table has |
| CropRecommendationController.KeptPositions | backend/src/controllers/cropRecommendationController.js:257-265 | the kept positions are increasing and are exactly the rows that pass the soil and irrigation check |
| CropRecommendationController.SuggestionsFollowTable | backend/src/controllers/cropRecommendationController.js:255-273 | suggestion k is the suggestion of the k-th kept row, so the output keeps table order with no sorting |
| CropRecommendationController.SuggestionBounds | backend/src/controllers/cropRecommendationController.js:257-277 | every suggestion scores 50..85 and, without irrigation, is a low-water crop |
| CropRecommendationController.SuggestionsValid | backend/src/models/CropRecommendation.js:49-110 | every generated suggestion passes the schema checks, including the 0..100 score bound |
| CropRecommendationController.GenerateCropRecommendations | backend/src/controllers/cropRecommendationController.js:162-326 | the forEach/push loop returns exactly the reference suggestions of the season's table |
| CropRecommendationController.CreateRecommendation | backend/src/controllers/cropRecommendationController.js:67-86 | the requester is the owner and 'ai' the origin whatever the body says; the generated suggestions are stored sorted by the save hook; an invalid record changes nothing |
| CropRecommendationController.CreateAcceptance | backend/src/models/CropRecommendation.js:10-28 | a created recommendation is accepted iff its season and soil type are enumerated values (and a given status is too) |
| CropRecommendationController.GetRecommendation | backend/src/controllers/cropRecommendationController.js:36-62 | 404 for an unknown id, 401 for another owner, else the record |
| CropRecommendationController.UpdateRecommendation | backend/src/controllers/cropRecommendationController.js:91-126 | 404 or 401 leave the store unchanged; the owner's valid update replaces only that record; an invalid one changes nothing |
| CropRecommendationController.DeleteRecommendation | backend/src/controllers/cropRecommendationController.js:131-159 | 404 or 401 leave the store unchanged; the owner's delete removes only that id |
| CropRecommendationController.GetRecommendations | backend/src/controllers/cropRecommendationController.js:6-31 | the data is exactly the `(page-1)*limit` slice of the requester's records matching the given status and season, newest first, with its count, the total and the page count |
| CropRecommendationModel.WithDefaults | backend/src/models/CropRecommendation.js:42-145 | irrigation defaults to false, origin to 'ai', status to 'active' and expiry to creation time plus 7,776,000,000 ms |
| CropRecommendationModel.RecommendationAfterSave | backend/src/models/CropRecommendation.js:153-158 | after save the suggestions are non-increasing by score and a permutation of the old ones; an empty list and every other field are untouched |
| CropRecommendationModel.SortKeepsValidity | backend/src/models/CropRecommendation.js:153-158 | saving keeps a valid recommendation valid |
| CropRecommendationModel.RecommendationSaveIdempotent | backend/src/models/CropRecommendation.js:153-158 | a second save changes nothing |
| CropRecommendationModel.RecommendationDocument.PreSave | backend/src/models/CropRecommendation.js:153-158 | the in-place hook leaves the document equal to the reference after-save record |
| CropRecommendationModel.RecommendationDocument.constructor | backend/src/controllers/cropRecommendationController.js:77 | the new document holds exactly the given record |
| FertilizerRecommendationController.GenerateFertilizerRecommendations | backend/src/controllers/fertilizerController.js:169-282 | the push chain gives urea, SSP, MOP for the low nutrients in that order, then vermicompost last; 1 to 4 entries; pH, crop name and soil type do not matter |
| FertilizerRecommendationController.PlanFollowsDeficiencies | backend/src/controllers/fertilizerController.js:176-279 | urea iff nitrogen < 280, SSP iff phosphorus < 11, MOP iff potassium < 110, vermicompost always |
| FertilizerRecommendationController.PlanCost | backend/src/controllers/fertilizerController.js:176-279 | the plan's estimated costs total 1500, 1200 and 800 for the present minerals plus 2500, so 2500..6000 |
| FertilizerRecommendationController.PlanValid | backend/src/models/FertilizerRecommendation.js:43-70 | every suggested application has an enumerated kind and method |
| FertilizerRecommendationController.CreateFertilizerRecommendation | backend/src/controllers/fertilizerController.js:70-93 | without a soil test the request fails; otherwise the requester owns the record, the helper's plan is stored with its cost total and 'ai' origin, or nothing changes when the record is invalid |
| FertilizerRecommendationController.CreateAcceptance | backend/src/models/FertilizerRecommendation.js:14-105 | a created record is accepted iff it has a crop name, an enumerated soil type, a pH in 0..14 when given, and an enumerated season and status when given |
| FertilizerRecommendationController.GetFertilizerRecommendation | backend/src/controllers/fertilizerController.js:36-65 | 404 for an unknown id, 401 for another owner, else the record |
| FertilizerRecommendationController.UpdateFertilizerRecommendation | backend/src/controllers/fertilizerController.js:98-133 | 404 or 401 leave the store unchanged; the owner's valid update replaces only that record |
| FertilizerRecommendationController.DeleteFertilizerRecommendation | backend/src/controllers/fertilizerController.js:138-166 | 404 or 401 leave the store unchanged; the owner's delete removes only that id |
| FertilizerRecommendationController.GetFertilizerRecommendations | backend/src/controllers/fertilizerController.js:6-31 | the data is exactly the `(page-1)*limit` slice of the requester's records with the given status, newest first, with its count, the total and `ceil(total/limit)` pages |
| FertilizerRecommendationModel.FertilizerWithDefaults | backend/src/models/FertilizerRecommendation.js:80-105 | total cost defaults to 0, status to 'pending' and origin to 'ai' |
| FertilizerRecommendationModel.Costs | backend/src/models/FertilizerRecommendation.js:115-117 | each application contributes its estimated cost, a missing one 0 |
| FertilizerRecommendationModel.CostTotalAppend | backend/src/models/FertilizerRecommendation.js:115-117 | appending applications raises the total by exactly their costs |
| FertilizerRecommendationModel.CostTotalNonNegative | backend/src/models/FertilizerRecommendation.js:115-117 | with no negative estimate the total is not negative |
| FertilizerRecommendationModel.FertilizerAfterSave | backend/src/models/FertilizerRecommendation.js:113-120 | with applications the total becomes their summed cost; with none the record is unchanged; no other field changes |
| FertilizerRecommendationModel.FertilizerSaveIdempotent | backend/src/models/FertilizerRecommendation.js:113-120 | a second save changes nothing |
| FertilizerRecommendationModel.FertilizerSaveKeepsValidity | backend/src/models/FertilizerRecommendation.js:36-120 | saving keeps a valid record valid, pH bounds included |
| FertilizerRecommendationModel.FertilizerDocument.PreSave | backend/src/models/FertilizerRecommendation.js:113-120 | the reduce loop leaves the document equal to the reference after-save record |
| FertilizerRecommendationModel.FertilizerDocument.constructor | backend/src/controllers/fertilizerController.js:83 | the new document holds exactly the given record |
| LegacyRecommendationController.GetCropRecommendations | backend/controllers/recommendationController.js:7-34 | 400 iff the soil type or season is missing; otherwise the parameters echo the query (climate defaulting to location), the total counts the qualifying crops and the list is the first ten of them sorted by score, highest first |
| LegacyRecommendationController.LineAreas | backend/controllers/recommendationController.js:100 | each line contributes its area, a missing one 0 |
| LegacyRecommendationController.LineCosts | backend/controllers/recommendationController.js:101 | each line contributes its estimated cost, a missing one 0 |
| LegacyRecommendationController.LineRevenues | backend/controllers/recommendationController.js:102-104 | each line contributes its estimated revenue, a missing one 0 |
| LegacyRecommendationController.LineProfits | backend/controllers/recommendationController.js:102-104 | each line contributes revenue minus cost |
| LegacyRecommendationController.ProfitIsRevenueMinusBudget | backend/controllers/recommendationController.js:101-104 | the expected profit equals the summed revenue minus the budget |
| LegacyRecommendationController.TotalsNonNegative | backend/controllers/recommendationController.js:100-101 | with no negative area or cost, the area and budget totals are not negative |
| LegacyRecommendationController.WithLines | backend/controllers/recommendationController.js:99-105 | the lines replace the crops and the three totals are their sums; nothing else changes |
| LegacyRecommendationController.NewCropPlan | backend/controllers/recommendationController.js:94-116 | the requester owns the plan, status defaults to 'Draft', and the totals are recomputed only when a crops array is given |
| LegacyRecommendationController.CreateCropPlan | backend/controllers/recommendationController.js:94-116 | the built plan is inserted when it passes the validators; otherwise nothing changes |
| LegacyRecommendationController.UpdateCropPlan | backend/controllers/recommendationController.js:121-161 | 404 or 403 leave the store unchanged; the owner's update recomputes the totals only when crops are given |
| LegacyRecommendationController.GetCropPlan | backend/controllers/recommendationController.js:63-89 | 404 for an unknown id, 403 for another owner, else the plan |
| LegacyRecommendationController.DeleteCropPlan | backend/controllers/recommendationController.js:166-195 | 404 or 403 leave the store unchanged; the owner's delete removes only that id |
| LegacyRecommendationController.GetCropPlans | backend/controllers/recommendationController.js:39-58 | exactly the requester's plans matching the given season, year and status, newest first, with their count |
| LegacyRecommendationController.CurrentSeason | backend/controllers/recommendationController.js:228-233 | months 6-9 are Kharif, 10-12 and 1-3 Rabi, 4-5 Zaid, each iff |
| LegacyRecommendationController.SeasonLookups | backend/controllers/recommendationController.js:235-276 | the three seasons have crops, a weather note and tips; any other key gets an empty list, the default note and no tips |
| LegacyRecommendationController.AsWrittenIgnoresCurrentSeason | backend/controllers/recommendationController.js:211-215 | with no season in the request, the code as written reports the current season but answers with the default lookups |
| LegacyRecommendationController.SeasonalRecommendations | backend/controllers/recommendationController.js:200-225 | corrected handler: the lookups use the season it reports (the requested one, else the current one); the year defaults to the current year |
| LegacyRecommendationController.SeasonalRecommendationsAgree | backend/controllers/recommendationController.js:200-225 | the corrected handler agrees with the code whenever a season is named, and always gives crops when none is |
| LegacyCropController.NewLegacyCrop | backend/controllers/cropController.js:61-74 | the requester owns the crop whatever the body says; status defaults to 'Planning'; season and irrigation type are the body's |
| LegacyCropController.GetLegacyCrop | backend/controllers/cropController.js:30-56 | 404 for an unknown id, 403 for another owner, else the crop |
| LegacyCropController.CreateLegacyCrop | backend/controllers/cropController.js:61-74 | a crop passing the schema (name, type, status, and season and irrigation type when given, each enumerated) is inserted owned by the requester; an invalid one changes nothing |
| LegacyCropController.UpdateLegacyCrop | backend/controllers/cropController.js:79-110 | 404 or 403 leave the store unchanged; the owner's update that passes the schema, irrigation type included, replaces only that crop |
| LegacyCropController.DeleteLegacyCrop | backend/controllers/cropController.js:115-144 | 404 or 403 leave the store unchanged; the owner's delete removes only that id |
| LegacyCropController.DeleteThenGetLegacy | backend/controllers/cropController.js:30-144 | after a successful delete, getting the same id answers 404 |
| LegacyCropController.GetLegacyCrops | backend/controllers/cropController.js:6-25 | the data is exactly the requester's crops matching the given status, season and type, newest first, with their count |
| LegacyCropController.Areas | backend/controllers/cropController.js:163-172 | the areas of the crops, one per crop |
| LegacyCropController.AreaSummaryIsTotal | backend/controllers/cropController.js:163-172 | the `|| 0` summary equals the summed area, 0 for no crops, non-negative for non-negative areas, and additive |
| LegacyCropController.GetLegacyCropStats | backend/controllers/cropController.js:149-179 | the crop count and summed area of the requester's crops (0 when there are none), and the per-status groups, whose counts add up to the crop count and whose areas add up to the total area |
| LegacyCropController.SummaryStep | backend/controllers/cropController.js:151-160 | one more crop adds 1 to the count and its area to the area of its own status's group, and changes no other group |
| LegacyCropController.SummariesCountStep | backend/controllers/cropController.js:151-160 | over distinct statuses, one more crop is counted once if its status is listed, else not at all |
| LegacyCropController.SummariesAreaStep | backend/controllers/cropController.js:151-160 | over distinct statuses, one more crop's area is added once if its status is listed, else not at all |
| LegacyCropController.NewStatusSummary | backend/controllers/cropController.js:151-160 | a status no earlier crop has gets a group of count 1 holding the new crop's area |
| LegacyCropController.CoversStep | backend/controllers/cropController.js:151-160 | adding a crop keeps the group counts equal to the crop count and the group areas equal to the total area |
| LegacyCropController.ByStatusCovers | backend/controllers/cropController.js:151-172 | the groups partition the crops: counts add up to the crop count and areas to the summed area |
| LegacyCropController.ByStatusDistinct | backend/controllers/cropController.js:151-160 | one group per status: no status twice, every crop's status has a group, and no group is empty |
| LegacyFertilizerController.ProductsValid | backend/models/FertilizerRecommendation.js:3-85 | every product the calculator suggests has an enumerated kind, unit and method |
| LegacyFertilizerController.GenerateRecommendation | backend/controllers/fertilizerController.js:61-91 | 400 iff the crop name or soil test is missing or N, P or K is falsy (0 included); otherwise the calculator's plan (products, cost, schedule and advice) is stored with the requester, crop id, crop name and soil test, not applied |
| LegacyFertilizerController.GetLegacyFertilizer | backend/controllers/fertilizerController.js:29-56 | 404 for an unknown id, 403 for another owner, else the record |
| LegacyFertilizerController.UpdateLegacyFertilizer | backend/controllers/fertilizerController.js:96-128 | 404 or 403 leave the store unchanged; the owner's valid update replaces only that record |
| LegacyFertilizerController.DeleteLegacyFertilizer | backend/controllers/fertilizerController.js:133-162 | 404 or 403 leave the store unchanged; the owner's delete removes only that id |
| LegacyFertilizerController.MarkAsApplied | backend/controllers/fertilizerController.js:167-197 | 404 or 403 leave the store unchanged; otherwise only `applied` (true) and `appliedDate` (now) change |
| LegacyFertilizerController.GetLegacyFertilizers | backend/controllers/fertilizerController.js:8-24 | the data is exactly the requester's recommendations, newest first, with their count |
| FarmonautService.IrrigationAdvice | backend/src/services/farmonautService.js:292-306 | exactly one of four messages, by the chain rain > 10, then hot and dry, then temp > 30, else normal |
| FarmonautService.PlantingAdvice | backend/src/services/farmonautService.js:311-324 | exactly one of four messages, by the chain rain > 20, then temp < 15, then temp > 35, else good |
| FarmonautService.HarvestingAdvice | backend/src/services/farmonautService.js:329-340 | exactly one of three messages, by the chain rain > 5, then humidity > 80, else suitable |
| FarmonautService.EmptyReadingAdvice | backend/src/services/farmonautService.js:292-340 | a reading with missing or zero fields gets normal irrigation, good planting and suitable harvesting |
| FarmonautService.PrimaryNameWins | backend/src/services/farmonautService.js:293-295 | a present non-zero primary field wins over its alternative name |
| FarmonautService.FormatWeatherData | backend/src/services/farmonautService.js:153-174 | the advice fields are the three advice functions of the raw reading; the forecast defaults to empty |
| FarmonautService.FallbackWeatherData | backend/src/services/farmonautService.js:238-259 | a fixed 28 degree, 65% reading with no forecast, marked as fallback |
| FarmonautService.FallbackCropRecommendations | backend/src/services/farmonautService.js:196-233 | an absent season is kharif and an absent soil loamy; each list has five crops |
| FarmonautService.UnknownSeasonIsKharif | backend/src/services/farmonautService.js:227 | any season other than rabi and zaid gets the kharif list |
| FarmonautService.FormatCropRecommendations | backend/src/services/farmonautService.js:132-148 | the remote list is passed through when present, else the season's fallback with the default soil |
| FarmonautService.FormatFertilizerRecommendations | backend/src/services/farmonautService.js:179-191 | missing lists default to empty, an absent or empty ratio to null, the dosage passes through |
| FarmonautService.FallbackFertilizerRecommendations | backend/src/services/farmonautService.js:264-287 | three fixed products, dosage 100/50/50, the crop type echoed |
| FarmonautService.FallbackIgnoresCrop | backend/src/services/farmonautService.js:264-287 | the crop type changes nothing but the echoed metadata |
| WeatherService.CurrentRainfall | backend/src/services/weatherService.js:84 | `rain['1h']` when present, else 0 |
| WeatherService.FormatCurrentWeather | backend/src/services/weatherService.js:68-90 | the reading re-shaped, coordinates as (lon, lat), rainfall as above |
| WeatherService.DailyFromItems | backend/src/services/weatherService.js:96-137 | a day's minimum is at most its maximum, and its description and icon are its first item's |
| WeatherService.FoldedEntry | backend/src/services/weatherService.js:96-116 | folding a day's items into its entry collects exactly their temperatures, humidities, winds and rains |
| WeatherService.FormatForecast | backend/src/services/weatherService.js:93-139 | one daily entry per distinct day key in first-seen order, each the reference summary of that day's items |
| WeatherService.DayTakesFirstItem | backend/src/services/weatherService.js:96-110 | a day's description and icon come from the first item with that key |
| WeatherService.DryDayHasNoRain | backend/src/services/weatherService.js:114 | a day with no rain objects reports 0 rain |
| WeatherService.IrrigationAdvice | backend/src/services/weatherService.js:155-165 | exactly one of five messages, by the chain rain > 10, rain > 5, temp > 35, humidity < 40, else normal (each iff) |
| WeatherService.PestAdvice | backend/src/services/weatherService.js:168-174 | humid mild weather first, then any rain, else routine (each iff) |
| WeatherService.HarvestAdvice | backend/src/services/weatherService.js:177-183 | rain > 5 avoid, dry still air good, else monitor (each iff) |
| WeatherService.GeneralAdvice | backend/src/services/weatherService.js:186-192 | above 40 extreme heat, below 10 cold, else favourable (each iff) |
| WeatherService.GenerateAgriculturalAdvice | backend/src/services/weatherService.js:142-195 | the four fields are the four chains of the current reading, none empty |
| WeatherService.RainDominates | backend/src/services/weatherService.js:84-183 | rain above 5 decides irrigation and harvest advice whatever the other readings |
| OpenWeather.RainOf | backend/utils/weatherAPI.js:94-96 | `rain['3h'] || 0` for an item, 0 without a rain object |
| Grouping.DayKeys | backend/utils/weatherAPI.js:70-102 | the keys of the day dictionary are distinct, cover every item, and come only from items |
| Grouping.ItemsOn | backend/utils/weatherAPI.js:88-99 | a day's items all carry that day's key |
| Grouping.ItemsOnNonEmpty | backend/utils/weatherAPI.js:74-86 | a key has items iff it is one of the dictionary's keys |
| Grouping.ItemsOnStartsWithFirst | backend/utils/weatherAPI.js:74-86 | a day's group starts with the first item carrying that key |
| Grouping.ItemsOnEmptyWithout | backend/utils/weatherAPI.js:74 | a key no item carries has no items |
| Grouping.GroupStep | backend/utils/weatherAPI.js:70-100 | one more item changes only its own day's group: a new entry if first, else one more fold |
| Grouping.GroupBy | backend/utils/weatherAPI.js:68-100 | the `forEach` leaves one entry per distinct key in first-seen order, each the fold of that key's items |
| WeatherApi.PeakPop | backend/utils/weatherAPI.js:97-109 | the day's probability is the largest `pop * 100` among its items, 0 when none carries one |
| WeatherApi.DayFromItems | backend/utils/weatherAPI.js:102-113 | the reference day summary; its minimum is at most its maximum |
| WeatherApi.FoldedDay | backend/utils/weatherAPI.js:88-99 | folding a day's items collects exactly their readings, rain sum and peak probability |
| WeatherApi.SummaryOfDay | backend/utils/weatherAPI.js:102-113 | the summary built from the folded entry is the reference summary |
| WeatherApi.ProcessForecastData | backend/utils/weatherAPI.js:67-114 | one summary per distinct date key in first-seen order, each the reference summary of that day's items |
| WeatherApi.DailyFacts | backend/utils/weatherAPI.js:102-113 | each summary has minimum at most maximum, the summed 3-hour rain, the peak probability and the middle item's description and icon |
| WeatherApi.OneSummaryPerDay | backend/utils/weatherAPI.js:102 | no two summaries come from the same day |
| WeatherApi.DegreeDaysNonNegative | backend/utils/weatherAPI.js:118-126 | growing degree days are never negative and each day adds its excess over 10 |
| WeatherApi.SoilMoisture | backend/utils/weatherAPI.js:130 | 80 iff humidity above 70, 30 iff below 40, 60 iff within 40..70 |
| WeatherApi.CalculateAgriculturalData | backend/utils/weatherAPI.js:116-163 | the degree-day loop gives the rounded sum; soil temperature, moisture, frost and heat flags and the message list follow their rules |
| WeatherApi.AdviceIffConditions | backend/utils/weatherAPI.js:140-152 | each message is present iff its condition holds, at most once each, at most four |
| WeatherController.ResolveCoordinates | backend/controllers/weatherController.js:14-25 | the query coordinates when both are given, else the profile's, else none (the 400 case) |
| WeatherController.WeatherCache.constructor | backend/controllers/weatherController.js:28-33 | the weather collection starts with the given records |
| WeatherController.FindSince | backend/controllers/weatherController.js:28-33 | the first record at those coordinates updated since the cut-off, or none iff there is no such record |
| WeatherController.Newest | backend/controllers/weatherController.js:135-138 | a most recently updated record at the coordinates, or none iff none is stored there |
| WeatherController.GenerateAgriculturalRecommendations | backend/controllers/weatherController.js:203-223 | the pushes give exactly the reference list: heat, dry-air, rain and frost messages in that order, each only when its condition holds |
| WeatherController.RecommendationsIffConditions | backend/controllers/weatherController.js:205-221 | each message is present iff its condition holds, at most four; a missing record part suppresses its messages |
| WeatherController.WeatherCache.GetCurrentWeather | backend/controllers/weatherController.js:7-53 | 400 without coordinates; a record fresh within 30 minutes is reused, else a fetched one is stored and returned |
| WeatherController.WeatherCache.GetWeatherForecast | backend/controllers/weatherController.js:58-111 | refetch when no record was updated within the hour or the one found has an empty forecast; such a found record gets only its forecast and update time replaced, otherwise a new record is stored |
| WeatherController.WeatherCache.WeatherAlerts | backend/controllers/weatherController.js:116-150 | 400 without coordinates; the newest record's alerts, or none |
| WeatherController.WeatherCache.GetAgriculturalInsights | backend/controllers/weatherController.js:155-200 | 400 without coordinates, 404 when no record is stored there, else the newest record's current and agricultural parts with exactly the reference recommendation list |
| WeatherController.SecondRequestHitsCache | backend/controllers/weatherController.js:28-44 | a second current-weather request within the window finds the record the first one stored |
| CropModel.IssueFrom | backend/src/models/Crop.js:92-110 | a pushed issue keeps the body's fields; the identified date defaults to now and `resolved` to false |
| CropModel.CostSumNonNegative | backend/src/models/Crop.js:157-165 | with no negative component the cost total is non-negative |
| CropModel.AfterSave | backend/src/models/Crop.js:156-173 | the cost total is always set to the `|| 0` sum of six components; the profit is set to revenue minus that total iff the total revenue is non-zero; nothing else changes |
| CropModel.RevenueWithoutCosts | backend/src/models/Crop.js:156-173 | with revenue 1000 and no costs recorded, the save sets the cost total to 0 and the profit to 1000 |
| CropModel.SaveIdempotent | backend/src/models/Crop.js:156-173 | a second save changes nothing |
| CropModel.SaveKeepsValidity | backend/src/models/Crop.js:44-173 | the hook keeps a record valid, area bound included, or invalid |
| CropModel.CropDocument.PreSave | backend/src/models/Crop.js:156-173 | the in-place hook leaves the document equal to the reference after-save record |
| CropModel.CropDocument.constructor | backend/src/controllers/cropController.js:75 | the document `Crop.create` builds holds exactly the given record |
| CropModel.CropDocument.PushNote | backend/src/controllers/cropController.js:177-182 | exactly one note appended, nothing else changed |
| CropModel.CropDocument.PushIssue | backend/src/controllers/cropController.js:215 | exactly one issue appended, nothing else changed |
| CropController.SaveCrop | backend/src/models/Crop.js:156-173 | a save validates (name, category, both dates, non-negative area, season, status, health and the optional enums), runs the hook and writes only that record |
| CropController.GetCrop | backend/src/controllers/cropController.js:39-65 | 404 for an unknown id, 401 for another owner, else the crop |
| CropController.CreateCrop | backend/src/controllers/cropController.js:70-84 | the requester owns the crop whatever the body says; a body passing the schema (required dates and every enum) is stored after the hook, an invalid one changes nothing |
| CropController.UpdateCrop | backend/src/controllers/cropController.js:89-120 | 404 or 401 leave the store unchanged; the owner's update that passes the schema (required dates and every enum) replaces only that crop, with no hook run |
| CropController.DeleteCrop | backend/src/controllers/cropController.js:125-153 | 404 or 401 leave the store unchanged; the owner's delete removes only that id |
| CropController.DeleteThenGet | backend/src/controllers/cropController.js:39-153 | after a successful delete, getting the same id answers 404 |
| CropController.AddNote | backend/src/controllers/cropController.js:158-191 | 404 or 401 leave the store unchanged; otherwise one note appended and the crop saved |
| CropController.AddHealthIssue | backend/src/controllers/cropController.js:196-225 | 404 or 401 leave the store unchanged; otherwise the body appended to the issues and the crop saved |
| CropController.GetCrops | backend/src/controllers/cropController.js:6-34 | the data is exactly the `(page-1)*limit` slice of the requester's crops matching the given status, season and category, newest first, with its count, the total and the page count |
| SeasonalPlanModel.EstimatedCosts | backend/src/models/SeasonalPlan.js:157-160 | each crop contributes its estimated cost, a missing one 0 |
| SeasonalPlanModel.ExpectedRevenues | backend/src/models/SeasonalPlan.js:161-164 | each crop contributes its expected revenue, a missing one 0 |
| SeasonalPlanModel.CompletedCount | backend/src/models/SeasonalPlan.js:171 | the completed count is at most the total, 0 iff none is done, the total iff all are |
| SeasonalPlanModel.Progress | backend/src/models/SeasonalPlan.js:129-172 | progress is the half-up rounding of the completed percentage and lies in 0..100 |
| SeasonalPlanModel.ShareBounds | backend/src/models/SeasonalPlan.js:172 | the completed share lies in 0..1 |
| SeasonalPlanModel.ShareMonotone | backend/src/models/SeasonalPlan.js:172 | more completed milestones give a larger share |
| SeasonalPlanModel.ProgressExtremes | backend/src/models/SeasonalPlan.js:171-172 | all done is 100, none done is 0 |
| SeasonalPlanModel.ProgressMonotone | backend/src/models/SeasonalPlan.js:171-172 | completing more milestones never lowers progress |
| SeasonalPlanModel.ProgressAsIntegers | backend/src/models/SeasonalPlan.js:172 | progress equals `(200c + t) / (2t)` in integer division |
| SeasonalPlanModel.PlanAfterSave | backend/src/models/SeasonalPlan.js:155-176 | with crops the financials are the sums and their difference; with milestones progress is recomputed; otherwise each is kept; nothing else changes |
| SeasonalPlanModel.PlanSaveIdempotent | backend/src/models/SeasonalPlan.js:155-176 | a second save changes nothing |
| SeasonalPlanModel.PlanSaveKeepsValidity | backend/src/models/SeasonalPlan.js:129-176 | saving keeps a valid plan valid, progress bound included |
| SeasonalPlanModel.PlanDocument.PreSave | backend/src/models/SeasonalPlan.js:155-176 | the in-place hook leaves the document equal to the reference after-save record |
| SeasonalPlanModel.PlanDocument.constructor | backend/src/controllers/seasonalPlanController.js:76 | the document `SeasonalPlan.create` builds holds exactly the given record |
| SeasonalPlanModel.PlanDocument.PushMilestone | backend/src/controllers/seasonalPlanController.js:178 | exactly one milestone appended, nothing else changed |
| SeasonalPlanModel.PlanDocument.PushNote | backend/src/controllers/seasonalPlanController.js:254-258 | exactly one note appended, nothing else changed |
| SeasonalPlanModel.PlanDocument.AssignMilestone | backend/src/controllers/seasonalPlanController.js:220 | only the chosen milestone is patched |
| SeasonalPlanController.MilestoneFrom | backend/src/models/SeasonalPlan.js:85-96 | a pushed milestone keeps the body's fields, gets its sub-document id and is not completed unless the body says so |
| SeasonalPlanController.Patched | backend/src/controllers/seasonalPlanController.js:220 | every field the body gives replaces the milestone's; the id and the rest are kept |
| SeasonalPlanController.FindMilestone | backend/src/controllers/seasonalPlanController.js:212 | the position of a milestone with that id, or none iff no milestone has it |
| SeasonalPlanController.SavePlan | backend/src/models/SeasonalPlan.js:155-176 | a save validates, runs the hook and writes only that plan |
| SeasonalPlanController.GetPlan | backend/src/controllers/seasonalPlanController.js:38-67 | 404 for an unknown id, 401 for another owner, else the plan |
| SeasonalPlanController.CreatePlan | backend/src/controllers/seasonalPlanController.js:72-85 | the requester owns the plan; a plan passing the schema (both dates, the rotation strategy and risk enums) is stored after the hook, an invalid one changes nothing |
| SeasonalPlanController.UpdatePlan | backend/src/controllers/seasonalPlanController.js:90-121 | 404 or 401 leave the store unchanged; the owner's update that passes the schema (both dates, the rotation strategy and risk enums) replaces only that plan, with no hook run |
| SeasonalPlanController.DeletePlan | backend/src/controllers/seasonalPlanController.js:126-154 | 404 or 401 leave the store unchanged; the owner's delete removes only that id |
| SeasonalPlanController.AddMilestone | backend/src/controllers/seasonalPlanController.js:159-188 | 404 or 401 leave the store unchanged; otherwise one milestone appended and the plan saved, so progress is recomputed |
| SeasonalPlanController.UpdateMilestone | backend/src/controllers/seasonalPlanController.js:193-230 | 404 or 401, then 404 for an unknown milestone, leave the store unchanged; otherwise only that milestone is patched and the plan saved |
| SeasonalPlanController.AddNote | backend/src/controllers/seasonalPlanController.js:235-268 | 404 or 401 leave the store unchanged; otherwise a note by the requester at now is appended and the plan saved |
| SeasonalPlanController.GetPlans | backend/src/controllers/seasonalPlanController.js:6-33 | the data is exactly the `(page-1)*limit` slice of the requester's plans matching the given status, season and year, newest first, with its count, the total and the page count |
| RecordStore.OwnedStore.Access | backend/src/controllers/cropController.js:41-56 | 404 for an unknown id, the denial status for another owner, else OK |
| RecordStore.OwnedStore.constructor | backend/src/controllers/cropController.js:75 | an empty collection with the given owner field, denial status and validators |
| RecordStore.OwnedStore.Get | backend/src/controllers/cropController.js:41-62 | the record exactly when access is OK |
| RecordStore.OwnedStore.Insert | backend/src/controllers/cropController.js:75 | a fresh id is added with the record; nothing else changes |
| RecordStore.OwnedStore.Create | backend/src/controllers/cropController.js:75 | a record that passes the validators is inserted, else nothing changes |
| RecordStore.OwnedStore.Save | backend/src/controllers/cropController.js:182 | a valid record replaces the one at its id, else nothing changes |
| RecordStore.OwnedStore.Put | backend/src/controllers/cropController.js:182 | the record at that id is replaced; nothing else changes |
| RecordStore.OwnedStore.Update | backend/src/controllers/cropController.js:89-120 | the guard first; the owner's change replaces only that record when it passes the validators |
| RecordStore.OwnedStore.Delete | backend/src/controllers/cropController.js:125-153 | the guard first; the owner's delete removes only that id |
| RecordStore.OwnedStore.Listing | backend/src/controllers/cropController.js:17-18 | the ids of the requester's matching records, newest first |
| RecordStore.OwnedStore.OwnedBelow | backend/src/controllers/cropController.js:17-18 | the requester's matching ids below a bound, strictly decreasing |
| RecordStore.OwnedStore.RowsOf | backend/src/controllers/cropController.js:17 | the records of a list of ids, in that order |
| RecordStore.FindPage | backend/src/controllers/cropController.js:17-28 | the data is exactly the `(page-1)*limit` slice of the newest-first listing, with the total and the page count |
| RecordStore.FindAll | backend/controllers/cropController.js:12 | every matching record of the requester, newest first, and no other |
| RecordStore.Paginate | backend/src/controllers/cropController.js:17-28 | a negative skip fails; otherwise the page, the total and `ceil(total/limit)` |

## Left out

- HTTP fetching from the OpenWeatherMap and Farmonaut APIs is not modelled. A fetched payload is a parameter.
- `Math.random` fields are not modelled: the estimated yield, income, market demand and risk level of a crop suggestion, and the mock weather data.
- `Date.now`, `new Date` and locale formatting are not modelled:
  - the current time is a parameter (`now`);
  - the forecast day key is a function parameter, standing for `toISOString().split('T')[0]` or `toDateString()`;
  - the month of `getCurrentSeason` is a parameter.
- Evapotranspiration (`calculateET`) is not modelled, because its value only feeds a rounded output field.
- Floating-point rounding error is not modelled, because numbers are exact reals. For example, a JavaScript `23 / 40 * 100` is 57.49999999999999 and rounds to 57, where the exact model gives 58.
- NaN is not modelled: a non-numeric query string or a NaN reading is outside the model, and so is the falsiness of NaN.
- Name trimming and character case are not modelled. Matching is exact string equality, as in the source.
- Inherited-property keys are not modelled. In JavaScript, a season key such as `constructor` finds an inherited property in an object-literal lookup; the model treats it as an unknown key.
- Authentication is not modelled. The requester id is a parameter.
- Mongoose internals are not modelled:
  - `populate`;
  - the `aggregate` pipelines of the newer backend's stats handlers (the per-status grouping of `getCropStats` and `getPlanStats`);
  - indexes and TTL expiry;
  - ObjectId generation: store ids come from a counter and milestone sub-document ids are a parameter.
- Mongoose update validators in the model check the whole updated record. Mongoose checks only the updated paths, so a stored record that was invalid before an update could be rejected here but accepted by the source.
- Document fields that no modelled operation reads are left out of the record datatypes. The validators of both crop schemas and of the seasonal-plan schema still check the required dates and the enumerated fields, including the optional ones.
- The `day` weekday label of a forecast summary is not modelled, because it comes from `toLocaleDateString`, which is locale formatting.
- Number-to-text conversion inside template literals is not modelled. The fertilizer advice takes it as a parameter, `numberText`.
- Required fields of fixed type are always present in the model: soil nitrogen, phosphorus and potassium; crop area; the older crop's planting date; plan year and total area; the crop recommendation's available area. A missing one is a Mongoose validation error, the same `Error` status as other validator failures.
- Errors passed to the Express error handler are the single status `Error`. The handler is not part of this model.
- The query `year` is modelled as an already-parsed `Option<int>`. The seasonal answer's `year || currentYear` keeps the string form in the source.
- The weather and Farmonaut controllers of the newer backend are not modelled. They are thin parameter parsing over the services modelled here.
- The `Promise.all` fan-out is not modelled, because it is concurrency.
- Frontend pages are not modelled, because they are UI rendering.
- The hard-coded API key is not modelled, because it is configuration.
- The `soilType` and `season` arguments of `getEstimatedYield` are not modelled, because the source never reads them.
- A negative `limit` query is not modelled: `limit` is a natural number. The source passes it to `.limit(limit * 1)` and to `Math.ceil(count / limit)`, where MongoDB and JavaScript give it their own meanings.
- `LegacyCropController.GetLegacyCropStats`: MongoDB's `$group` promises no order for its output. The model lists the groups in the order their status first appears in the newest-first listing.
- `WeatherController.WeatherCache.GetWeatherForecast`: the `days` query is passed to the fetcher in the source. Here the fetched payload is a parameter, so `days` does not appear.

## Findings

| source | as written | input that shows it | evidently intended | confidence | as-written member | corrected member |
|---|---|---|---|---|---|---|
| backend/controllers/recommendationController.js:211-215 | with no `season` query, the reported season is `getCurrentSeason()`, but the crop, weather and tip lookups are called with the missing `season` and so return `[]`, the default weather note and `[]` | `GET` seasonal recommendations with no `season` in July (month 7): reports Kharif with no crops and no tips | the lookups use the season being reported, giving Kharif's crops, weather note and tips | not executed | LegacyRecommendationController.AsWrittenIgnoresCurrentSeason | LegacyRecommendationController.SeasonalRecommendations |
