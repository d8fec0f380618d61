# ProLinkHub HVAC consultation service — a Dafny model

ProLinkHub runs an HVAC consultation as a short state machine over one
consultation record:

1. A homeowner opens a session.
2. They answer a fixed questionnaire, checked against the stored question
   catalogue.
3. They get a Good-Better-Best price estimate.
4. They upload up to five photos to object storage.
5. The photos go through OCR and a language model that pulls out the
   equipment's brand, model and serial number.

This project models that core in Dafny. Its modules:

- `Outcomes` and `Text`: Option/Result, and the Python string operations the code relies on.
- `Bson`: JSON-like documents with ObjectIds, dict get/set, Python `in`, and `serialize_mongo_doc`.
- `Models`: `MongoBaseModel.from_mongo` and `dict`, and the field defaults of `QuizQuestion` and `Consultation`.
- `Pricing`: the pricing service:
  - tonnage buckets;
  - row lookup;
  - the truncating ×1.85 multiplier;
  - the digit heuristic for the system count;
  - a `PricingService` class whose matrix is mutable, because `calculate_estimate` writes into it.
- `Quiz`: the eleven-question catalogue, seed-once, and the listing sorted by `order`.
- `Storage`: the object key and URL built on upload, and the key recovered from the URL before download.
- `Analyzer`: the OCR aggregation loop, the per-image result, code-fence stripping, and filling in the required fields of the model's reply.
- `Images`: file validation, extension mapping, per-category bucketing, the progress→status rule, and the category registry.
- `Categories`: category seeding by upsert, the update endpoint, and listing.
- `Consultation`: the consultation router:
  - answer validation and formatting;
  - the answer scan used for pricing;
  - the upload and analysis guards;
  - a `ConsultationStore` class holding the records keyed by session id.

External services are parameters:

- the database's generated ids;
- UUIDs;
- the storage call's success;
- the storage download;
- the vision and chat calls;
- JSON parsing;
- the `float()` syntax check;
- image decoding.

Behaviour worth noting:

- The upload handler caps a consultation at 5 images (`app/routers/consultation.py:182`).
- That handler takes no category or sub-category.
- No code path applies or totals discounts.

Tonnage is written in tenths of a ton (25, 35, 40, 50). The ×1.85 truncation is `x * 185 / 100`. It agrees with `int(x * 1.85)` on the shipped prices and on their first few multiplications; the limits of that agreement are listed under "## Left out".

## Model

| member | source | states |
|---|---|---|
| Text.Lower | app/routers/consultation.py:336 | lower-casing keeps the length and maps each character through ASCII lower-casing |
| Text.LowerOfPart | app/routers/consultation.py:336-340 | the lowered text contains the lowered form of any part of it |
| Text.LowerMissingChar | app/services/pricing_service.py:39 | a lower-case letter absent from a string in both cases is absent from its lowered form |
| Text.StripEmptyIff | app/services/consultation_analyzer.py:129 | `strip()` gives "" exactly when every character is white space |
| Text.BeforeFirst | app/routers/consultation.py:283 | `split("?")[0]` is the longest prefix without `?`, and the cut is at the first `?` |
| Text.Basename | app/routers/consultation.py:283 | `os.path.basename` is the suffix after the last `/`, and contains no `/` |
| Text.BeforeFirstAbsent | app/routers/consultation.py:283 | without a `?` the split leaves the string whole |
| Text.BasenameAfterSlash | app/routers/consultation.py:283 | the basename of `p + "/" + f` is `f` when `f` has no `/` |
| Text.NatToString | app/routers/consultation.py:204 | `str(n)` is a non-empty string of decimal digits, two or more exactly when n ≥ 10 |
| Text.NatToStringInjective | app/routers/consultation.py:204 | distinct image numbers print differently |
| Bson.Get | app/routers/consultation.py:333-334 | `d.get(k)` finds a value exactly when the key is present, and returns the first entry's value |
| Bson.Set | app/routers/consultation.py:121 | `d[k] = v` overwrites an existing key in place, or appends a new key last |
| Bson.SetGet | app/routers/consultation.py:121 | after `d[k] = v`, `d[k]` is v and every other key reads as before |
| Bson.PyContains | app/services/consultation_analyzer.py:224 | `in` is defined on strings, lists and dicts; on anything else it raises |
| Bson.SerializeField | app/routers/consultation.py:30-32 | a dict value is never left an ObjectId |
| Bson.Serialize | app/routers/consultation.py:26-37 | a dict stays a dict and a list stays a list |
| Bson.SerializeShape | app/routers/consultation.py:26-37 | keys are kept in order, ObjectId dict values become their hex string, lists keep their length, ObjectId list elements and scalars are unchanged |
| Bson.SerializeRemovesOidFields | app/routers/consultation.py:26-37 | no dict anywhere in the result holds an ObjectId value |
| Bson.SerializeIdempotent | app/routers/consultation.py:26-37 | serialising twice equals serialising once |
| Models.StringifyId | app/models/models.py:54-55 | only `_id` changes, an ObjectId `_id` becomes its string, and keys keep their order |
| Models.FilterFieldsSpec | app/models/models.py:57-63 | the filter keeps exactly the entries keyed by a model field or `_id`, values unchanged |
| Models.FromMongo | app/models/models.py:48-65 | `None` gives `None`; otherwise the caller's dict is rewritten in place first, then filtered |
| Models.Instance.Dict | app/models/models.py:39-45 | unless `by_alias=False`, a truthy ObjectId id is stringified on the instance; other fields are unchanged |
| Models.OptStrField | app/models/models.py:37 | an `Optional[str]` field: absent or None gives None, a string gives itself, any other value is a validation error |
| Models.BuildQuizQuestion | app/models/models.py:67-72 | `order` is mandatory, `is_required` defaults to false and `options` to None; `_id` must be a string or None |
| Models.BuildConsultation | app/models/models.py:88-103 | `session_id` is mandatory; status defaults to "pending", answers to {}, images to [], user to None; `_id` and `user_id` must be strings or None; every image validates as a `ConsultationImage` |
| Models.WrittenImageRejected | app/models/models.py:88-91 | an image entry as the upload endpoint writes it (number, URL, filename, timestamp) is not a valid `ConsultationImage` |
| Models.CreateSessionMatchesDefaults | app/models/models.py:97-103 | the document `create_session` inserts builds the same model as the defaults |
| Models.BuildFromFields | app/models/models.py:97-103 | a document with an id and a session id, and no user or images, builds the default model: no user, no answers, no images, status "pending" |
| Pricing.DetermineTonnage | app/services/pricing_service.py:37-49 | the tonnage is always one of 2.5, 3.5, 4.0, 5.0 |
| Pricing.DetermineTonnageFirstMatch | app/services/pricing_service.py:37-49 | the first matching label test decides the bucket |
| Pricing.DetermineTonnageDefault | app/services/pricing_service.py:47-49 | a label matching no test gives 3.5 |
| Pricing.SmallLabelTonnage | app/services/pricing_service.py:39-40 | "Under 1,500 sq ft" gives 2.5 |
| Pricing.MidLabelTonnage | app/services/pricing_service.py:41-42 | "1,500 - 2,200 sq ft" gives 3.5 |
| Pricing.LargeLabelTonnage | app/services/pricing_service.py:43-44 | "2,200 - 3,000 sq ft" gives 4.0 |
| Pricing.LargestLabelTonnage | app/services/pricing_service.py:45-46 | "Over 3,000 sq ft" gives 5.0 |
| Pricing.SkipsSmall | app/services/pricing_service.py:39-40 | a label without a "u" in either case fails both tests for the smallest bucket |
| Pricing.SkipsBucket | app/services/pricing_service.py:41-44 | a label without a "5" fails both tests for the 1,500-2,200 bucket, and one without a "2" fails both tests for the 2,200-3,000 bucket |
| Pricing.TonnageOf | app/services/pricing_service.py:37-49 | a string answer gets its bucket; any value that gets a tonnage gets a bucket tonnage; other values raise |
| Pricing.NearestFrom | app/services/pricing_service.py:57-59 | `min` by distance: no later row is closer, and no earlier row is as close |
| Pricing.RowFor | app/services/pricing_service.py:51-59 | the first row of equal tonnage if any, else the first nearest row |
| Pricing.PricingRowUnique | app/services/pricing_service.py:51-59 | the lookup determines a single row |
| Pricing.ScaleStrictlyMonotone | app/services/pricing_service.py:66-67 | the truncating ×1.85 keeps strict order between prices |
| Pricing.ScaleMonotone | app/services/pricing_service.py:66-67 | the truncating ×1.85 keeps non-strict order |
| Pricing.ApplyMultiplier | app/services/pricing_service.py:61-69 | the multiplier leaves the row's tonnage alone |
| Pricing.MultiplierKeepsOrder | app/services/pricing_service.py:61-69 | a row with ordered, non-overlapping tiers stays so after the multiplier |
| Pricing.BaseMatrixFacts | app/services/pricing_service.py:10-35 | 4 rows, strictly increasing tonnage equal to the buckets, and in every row min < max with good < better < best |
| Pricing.ExtractSystemCount | app/services/pricing_service.py:71-85 | a falsy answer gives 1; a number or boolean raises; otherwise the first of "1", "2", "3", "4" that Python's `in` finds (substring, list element or dict key) decides, and 1 when none is found |
| Pricing.EstimateFromRow | app/services/pricing_service.py:104-126 | the fixed tier labels, the row's prices, the given tonnage and system count |
| Pricing.IntendedEstimateSpec | app/services/pricing_service.py:87-126 | on the shipped table: the label's tonnage, the matching row scaled for the system count, strictly increasing prices |
| Pricing.MidSizeEstimate | app/services/pricing_service.py:18-21 | 1,500-2,200 sq ft with 1 system gives 3.5 tons and good 9500–11500; with 2 systems good starts at 17575 |
| Pricing.PricingService.constructor | app/services/pricing_service.py:8-35 | a new service holds the base table |
| Pricing.PricingService.GetPricingForTonnage | app/services/pricing_service.py:51-59 | the loop returns the row `RowFor` specifies |
| Pricing.PricingService.ApplyMultiSystemMultiplier | app/services/pricing_service.py:61-69 | the shared matrix row is scaled in place and nothing else changes |
| Pricing.PricingService.CalculateEstimate | app/services/pricing_service.py:87-126 | the matrix row found for the tonnage is overwritten by its scaled copy, and the estimate reads the scaled row; non-string labels raise with the matrix unchanged |
| Pricing.FreshServiceAgrees | app/services/pricing_service.py:87-126 | a new `PricingService` gives the intended estimate on its first call, and its table is left as shipped exactly when that call was for one system |
| Pricing.MultipliedRowChanges | app/services/pricing_service.py:61-67 | applying the multiplier to a shipped row changes the table exactly when two or more systems are asked for |
| Pricing.AliasingDrift | app/services/pricing_service.py:101 | as written, one 2-system estimate makes a later 1-system estimate cost 17575 and a later 2-system one 32513 |
| Quiz.CatalogueOrders | app/routers/quiz.py:28-124 | 11 questions with orders 1..11, pairwise distinct |
| Quiz.CatalogueOptions | app/routers/quiz.py:57-121 | exactly the radio and checkbox questions have options, all non-empty |
| Quiz.CatalogueRequired | app/routers/quiz.py:30-122 | only the order-9 question is optional |
| Quiz.SquareFootageOptionsTonnage | app/routers/quiz.py:66 | the four square-footage options map to 2.5, 3.5, 4.0 and 5.0, pairwise distinct |
| Quiz.SystemCountOptionsCount | app/routers/quiz.py:73 | the options "1".."4" map to system counts 1..4 |
| Quiz.PricingQuestionsInCatalogue | app/routers/quiz.py:64-114 | the three pricing questions sit at orders 6, 7 and 11 |
| Quiz.SquareFootageTextMatches | app/routers/quiz.py:64 | the lowered text contains "square footage" |
| Quiz.SystemCountTextMatches | app/routers/quiz.py:71 | the lowered text contains "how many separate systems" |
| Quiz.ProjectGoalTextMatches | app/routers/quiz.py:114 | the lowered text contains "which of these sounds most like you" |
| Quiz.Stamp | app/routers/quiz.py:127 | each inserted question keeps its catalogue entry and gets its generated id |
| Quiz.SeedOnce | app/routers/quiz.py:23-25 | seeding an empty collection inserts 11 questions; a non-empty one is left alone; seeding twice equals seeding once |
| Quiz.InsertElements | app/routers/quiz.py:11 | insertion keeps every element |
| Quiz.InsertSorted | app/routers/quiz.py:11 | insertion keeps the sequence sorted by order |
| Quiz.SortByOrderSpec | app/routers/quiz.py:11 | the sort is ascending by order and a permutation |
| Quiz.Take | app/routers/quiz.py:12 | `to_list(1000)` keeps at most 1000 |
| Quiz.BuildStoredDoc | app/routers/quiz.py:14-17 | a stored question with a string id builds its model |
| Quiz.BuildFromFields | app/routers/quiz.py:14-17 | a document whose fields read back as a question's builds that question's model |
| Quiz.OptionsReadBack | app/routers/quiz.py:14-17 | a stored list of option strings reads back as those options |
| Quiz.QuestionCollection.BuildListed | app/routers/quiz.py:14-17 | a stored document, its id stringified, builds its model |
| Quiz.ListingSpec | app/routers/quiz.py:9-17 | at most 1000, ascending by order, each from a stored question with its id as string, all of them when under the limit |
| Quiz.ListingFromDocs | app/routers/quiz.py:14-17 | every listed question comes from a stored one |
| Quiz.ListingCovers | app/routers/quiz.py:11-17 | under the limit every stored question is listed |
| Quiz.QuestionCollection.constructor | app/routers/quiz.py:23-25 | a new collection is empty, so its first seed inserts |
| Quiz.QuestionCollection.Seed | app/routers/quiz.py:20-128 | the collection becomes the seed result, and the reply says whether it seeded |
| Quiz.QuestionCollection.GetQuestions | app/routers/quiz.py:9-17 | the reply is the sorted listing |
| Storage.ObjectUrl | app/services/s3_service.py:51 | the URL ends with "/" + key |
| Storage.KeyNameFromUrl | app/routers/consultation.py:283 | the recovered name has no `/` and no `?` |
| Storage.ImageFilenameClean | app/routers/consultation.py:204 | "image_n" has no `/` and no `?` |
| Storage.UrlRoundTrip | app/services/s3_service.py:23 | a clean name survives upload key → URL → basename, and the download key equals the upload key |
| Storage.ImageUrlRoundTrip | app/routers/consultation.py:200-204 | image_n comes back out of its own URL |
| Storage.ImageKeysDistinct | app/routers/consultation.py:200-204 | two image numbers share a key exactly when they are equal |
| Analyzer.AnalyzeImage | app/services/consultation_analyzer.py:36-89 | success exactly when the call answered 200 with non-empty text; failures carry "" |
| Analyzer.ResultsFollowDownloads | app/services/consultation_analyzer.py:96-110 | one result per downloaded key, in order, analysing that key's bytes |
| Analyzer.DownloadedKeysSpec | app/services/consultation_analyzer.py:96-100 | a key is analysed exactly when its download returned content |
| Analyzer.SuccessTextsSpec | app/services/consultation_analyzer.py:104-106 | the combined texts are empty exactly when no image succeeded |
| Analyzer.ReplaceAllLeading | app/services/consultation_analyzer.py:212 | `replace` rewrites a leading occurrence and carries on |
| Analyzer.ReplaceAllSkips | app/services/consultation_analyzer.py:212 | `replace` skips text that cannot start the pattern |
| Analyzer.ClosingFenceRemoved | app/services/consultation_analyzer.py:212-214 | a trailing fence is removed |
| Analyzer.JsonFenceRoundTrip | app/services/consultation_analyzer.py:211-212 | a "```json" fenced body comes back stripped |
| Analyzer.PlainFenceRoundTrip | app/services/consultation_analyzer.py:213-214 | a plain fenced body comes back stripped |
| Analyzer.UnfencedUntouched | app/services/consultation_analyzer.py:211-214 | a reply without a fence is left alone |
| Analyzer.FillFromDict | app/services/consultation_analyzer.py:222-225 | after filling, all required fields are present; existing values are kept; only required fields are added, as None |
| Analyzer.FillFromOther | app/services/consultation_analyzer.py:222-225 | a non-dict reply is returned as is, or raises when `in` does |
| Analyzer.BlankTextSkipsModel | app/services/consultation_analyzer.py:128-138 | blank text succeeds with four None fields, whatever the chat model would say |
| Analyzer.OpenAiOutcomeCases | app/services/consultation_analyzer.py:125-257 | a failed call raises; a parse failure gives success False with None fields; a dict reply succeeds with the required fields filled |
| Analyzer.EnsureRequiredFields | app/services/consultation_analyzer.py:222-225 | the fill loop computes `FillFrom` |
| Analyzer.AnalyzeWithOpenAI | app/services/consultation_analyzer.py:125-257 | the method computes `OpenAiOutcome` |
| Analyzer.AnalyzeConsultationImages | app/services/consultation_analyzer.py:91-123 | the loop computes `AnalysisOutcome` |
| Analyzer.AnalysisSpec | app/services/consultation_analyzer.py:107-123 | the total is the number of downloaded images; with no OCR success the text is "" and the model is skipped |
| Images.ValidateFile | app/services/image_service.py:229-242 | valid exactly when the size is at most 10 MiB, the type is allowed and the image decodes |
| Images.ValidateFileBoundary | app/services/image_service.py:24-32 | 10485760 bytes pass, 10485761 bytes fail, and a non-"image/" type fails |
| Images.FileExtension | app/services/image_service.py:244-252 | one of .jpg/.png/.webp, and .jpg for unknown types |
| Images.FileExtensionFollowsSubtype | app/services/image_service.py:244-252 | an allowed type's extension is its sub-type, with jpeg → jpg |
| Images.UrlNamesWrittenFile | app/services/image_service.py:56-73 | the stored URL is "/" + the path the file was written to |
| Images.ImageService.constructor | app/services/image_service.py:21-32 | no files and no records; the consultations keep their status |
| Images.ImageService.UploadImage | app/services/image_service.py:35-106 | invalid files change nothing; valid ones write the file, append a pending record and return its URL, and an existing consultation is set to images_uploaded with images_completed true |
| Images.ForConsultation | app/services/image_service.py:116-118 | only images of that consultation, each a stored one |
| Images.ForConsultationKeepsLast | app/services/image_service.py:116-118 | a record just stored is the last image of its consultation |
| Images.StoredRecordRejected | app/services/image_service.py:69-85 | a stored record has no image_type and an ObjectId `_id`, so it is not a valid `ConsultationImage` |
| Images.InCategorySpec | app/services/image_service.py:123-134 | a bucket holds exactly the images of its category, with their multiplicity |
| Images.BucketsCoverAll | app/services/image_service.py:123-134 | the buckets plus the dropped images account for every image |
| Images.StoredImagesAsWritten | app/services/image_service.py:108-143 | a result is only ever the empty buckets of an existing consultation |
| Images.AsWrittenDropsStoredImages | app/services/image_service.py:123-143 | as written, a result exists exactly when the consultation exists and has no images |
| Images.UploadLeavesNoProgress | app/services/image_service.py:183-187 | after an upload, reading the images back gives no progress report |
| Images.GetConsultationImages | app/services/image_service.py:108-143 | as intended: no consultation gives None; otherwise the loop builds the buckets |
| Images.AllTrue | app/services/image_service.py:273 | `all(...)` holds exactly when every flag holds |
| Images.ProgressStatusUpdate | app/services/image_service.py:272-275 | status is images_uploaded or answers_submitted, matching images_completed |
| Images.ProgressStatusSpec | app/services/image_service.py:186-187 | images_uploaded exactly when every flag is true; an empty progress gives images_uploaded |
| Images.RegistryFacts | app/services/image_service.py:285-375 | 5 categories in order, with distinct keys and discounts 150/50/25/500/200 |
| Images.SubCategoryKeysListed | app/services/image_service.py:285-375 | the seven sub-category keys, listed category by category |
| Images.SubCategoryKeysDistinct | app/services/image_service.py:285-375 | no sub-category key is used twice, across all categories |
| Images.RequiredCountsMatchRegistry | app/services/image_service.py:196-221 | the required counts equal each category's number of sub-categories |
| Categories.FirstMatch | app/routers/hvac_categories.py:136 | the first document with that category key, or none |
| Categories.SetFieldsHeld | app/routers/hvac_categories.py:137 | `$set` of values already held changes nothing |
| Categories.SetFieldsOther | app/routers/hvac_categories.py:137 | `$set` leaves fields it does not name alone |
| Categories.SetFieldsHolds | app/routers/hvac_categories.py:137 | after `$set` every named field has its new value |
| Categories.SetFieldsIdempotent | app/routers/hvac_categories.py:137 | `$set` twice equals `$set` once |
| Categories.UpsertSettles | app/routers/hvac_categories.py:135-139 | after the upsert the category's document holds the seed |
| Categories.UpsertKeepsSettled | app/routers/hvac_categories.py:134-139 | upserting another category keeps a settled one settled |
| Categories.UpsertSettledNoop | app/routers/hvac_categories.py:135-139 | a settled category matches one document and modifies none |
| Categories.UpsertOthersUntouched | app/routers/hvac_categories.py:135-139 | documents of other categories are untouched |
| Categories.SeedAllSettles | app/routers/hvac_categories.py:134-139 | after the loop every seeded category holds its seed |
| Categories.SeedAllSettledNoop | app/routers/hvac_categories.py:134-139 | seeding already-settled categories changes nothing |
| Categories.SeedIdempotent | app/routers/hvac_categories.py:134-139 | seeding twice equals seeding once |
| Categories.SeedOthersUntouched | app/routers/hvac_categories.py:134-139 | documents of categories not seeded are untouched |
| Categories.SeedDataIsRegistry | app/routers/hvac_categories.py:42-130 | the seed data is the service registry, entry by entry |
| Categories.CategoryDocKeys | app/routers/hvac_categories.py:42-130 | every seed carries its own category key |
| Categories.SeedDataWellFormed | app/routers/hvac_categories.py:42-130 | the seeds have distinct keys, in registry order |
| Categories.SeedAt | app/routers/hvac_categories.py:42-130 | the i-th seed stores the i-th registry key under "category", with no key repeated |
| Categories.CategorySeedingIdempotent | app/routers/hvac_categories.py:132-139 | seeding the shipped data twice equals seeding it once |
| Categories.CategorySeedingOthersUntouched | app/routers/hvac_categories.py:134-139 | a document whose category is none of the five keeps its place and content |
| Categories.FillCategory | app/routers/hvac_categories.py:177-179 | the path key is added only when the body has no "category" |
| Categories.UpdateCategoryOutcome | app/routers/hvac_categories.py:176-204 | a match that changes nothing surfaces as 500 with nothing stored; no match inserts and reports upserted |
| Categories.UpdateCategoryStoredKey | app/routers/hvac_categories.py:177-185 | the stored document's category is the body's own, so a different body value renames it |
| Categories.CategoryCollection.constructor | app/routers/hvac_categories.py:27 | the collection holds the given documents |
| Categories.CategoryCollection.UpdateOne | app/routers/hvac_categories.py:135-139 | the documents and the result are `Upsert`'s |
| Categories.CategoryCollection.UpsertEach | app/routers/hvac_categories.py:134-139 | the loop computes `SeedAll` |
| Categories.CategoryCollection.Seed | app/routers/hvac_categories.py:39-151 | the documents become the seed result; the reply has 5 categories and the seed data |
| Categories.CategoryCollection.UpdateCategory | app/routers/hvac_categories.py:170-204 | the documents and the reply are `UpdateCategorySpec`'s |
| Categories.ListCategories | app/routers/hvac_categories.py:23-36 | [] for an empty collection, otherwise each document serialised, at most 1000 |
| Categories.ListingIsJsonSafe | app/routers/hvac_categories.py:31 | every listed document keeps its keys, and no dict field in it holds an ObjectId |
| Categories.AdminListCategories | app/routers/hvac_categories.py:154-167 | the count equals the listed documents |
| Consultation.NewConsultation | app/routers/consultation.py:42-48 | status "pending", no answers, no images, no estimate, no analysis |
| Consultation.LookupQuestion | app/routers/consultation.py:73 | an id is found exactly when some listed question has it |
| Consultation.FirstMissing | app/routers/consultation.py:76-81 | the first required listed question without an answer, or none |
| Consultation.NotAmong | app/routers/consultation.py:130 | exactly the submitted items that are not option strings |
| Consultation.ErrorFor | app/routers/consultation.py:87-135 | an answer passes only when its id names a listed question |
| Consultation.Formatted | app/routers/consultation.py:121-126 | one entry per submitted id, same ids, same order |
| Consultation.Passes | app/routers/consultation.py:87-92 | a passing answer names a listed question |
| Consultation.FormatAnswersAccepts | app/routers/consultation.py:87-135 | the loop accepts exactly when every answer passes |
| Consultation.FormatAnswersFirstError | app/routers/consultation.py:87-135 | a rejection reports the first failing answer's error |
| Consultation.FormatAnswersStores | app/routers/consultation.py:121-126 | accepted answers are stored as each id → {question_text, input_type, order, answer}, in submission order |
| Consultation.FormatAnswersErrPersists | app/routers/consultation.py:87-135 | once an answer fails, later answers do not matter |
| Consultation.FormatAnswersLoop | app/routers/consultation.py:84-135 | the loop computes `FormatAnswers` |
| Consultation.SubmitRefusals | app/routers/consultation.py:76-149 | a missing required answer is reported first; an update that changes nothing is refused, which happens only at "answers_submitted" |
| Consultation.SubmitAccepted | app/routers/consultation.py:137-149 | acceptance means every required question is answered and every answer passes; answers are replaced wholesale and status becomes "answers_submitted" |
| Consultation.ScanFails | app/routers/consultation.py:332-334 | the scan raises exactly when some stored answer is malformed |
| Consultation.ScanLastMatchWins | app/routers/consultation.py:332-341 | each of the three answers comes from the last entry whose question matches it |
| Consultation.ScanNoMatch | app/routers/consultation.py:327-329 | an answer no question matches stays None |
| Consultation.ScanAnswers | app/routers/consultation.py:332-341 | the loop computes `Scan` |
| Consultation.ScanNonePersists | app/routers/consultation.py:332-341 | once an entry raises, the scan raises |
| Consultation.Values | app/routers/consultation.py:332 | `quiz_answers.values()` in order |
| Consultation.FormattedAnswersScan | app/routers/consultation.py:121-126 | answers stored by an accepted submission never make the scan raise |
| Consultation.PricingOutcomeSpec | app/routers/consultation.py:343-378 | on the shipped table: 1..4 systems, a bucket tonnage, string answers priced as intended, a missing answer priced at 3.5 tons, fallback only for a non-string answer |
| Consultation.UploadOutcomeSpec | app/routers/consultation.py:174-231 | an upload appends one image numbered one past the last, keeps estimate_ready or sets images_uploaded, keeps at most 5 images, and refuses pending records |
| Consultation.ImageKeys | app/routers/consultation.py:282-285 | one key per image |
| Consultation.ImageKeysRoundTrip | app/routers/consultation.py:282-291 | the recovered keys are image_1..image_n and download exactly the uploaded objects |
| Consultation.AnalyzeOutcomeSpec | app/routers/consultation.py:273-302 | analysis needs an analysable status and an image, stores the analysis and changes no status; "completed" is never written |
| Consultation.AnalysisKeepsInvariant | app/routers/consultation.py:295-302 | storing an analysis keeps the record invariant (status and numbered images untouched) |
| Consultation.ConsultationStore.constructor | app/routers/consultation.py:14-17 | no records, and the one shared pricing service |
| Consultation.ConsultationStore.CreateSession | app/routers/consultation.py:39-52 | the new record is stored under its session id |
| Consultation.ConsultationStore.SubmitAnswers | app/routers/consultation.py:54-156 | unknown session is 404; otherwise the record and reply follow `SubmitOutcome` |
| Consultation.ConsultationStore.UploadImage | app/routers/consultation.py:158-237 | unknown session is 404; otherwise the record and reply follow `UploadOutcome` |
| Consultation.ConsultationStore.CalculatePricingEstimate | app/routers/consultation.py:323-378 | the estimate and the shared matrix afterwards are `PricingOutcome`'s |
| Consultation.ConsultationStore.GenerateEstimate | app/routers/consultation.py:380-427 | 404, then 400 without answers, 500 when pricing raises; otherwise the estimate is stored and status becomes estimate_ready |
| Consultation.ConsultationStore.AnalyzeAll | app/routers/consultation.py:258-321 | unknown session is 404; otherwise the record and reply follow `AnalyzeOutcome` on the analyser's result |

## Left out

- Timestamps are not modelled: `created_at`, `uploaded_at`, `estimate_generated_at`, `analysis_completed_at`.
- Uuids, ObjectIds and the clock are parameters.
- Error detail strings are not modelled: failures are datatype constructors with their HTTP status codes.
- Floating point is not modelled:
  - tonnage is in tenths;
  - the ×1.85 multiplier is integer arithmetic;
  - a float-valued quiz answer is not a value of the document type.
- `float()` syntax is an oracle `floatText`.
- PIL image decoding is the `decodes` parameter.
- Object storage, the vision API, the chat model and JSON parsing are oracle functions. So is the success of the storage call, which the upload's 500 path depends on.
- The upload's copy through a temporary file is I/O and is left out.
- A database failure inside the upload or analysis `try` blocks, or inside `generate_pricing_estimate` (`app/routers/consultation.py:390-427`, where a failing `find_one` or `update_one` becomes a 500), is not modelled. `Consultation.ConsultationStore.GenerateEstimate` models only the 500 raised by pricing.
- `ConsultationStore.CreateSession` requires a session id not already stored, as a fresh uuid4 is in practice.
- `to_list(1000)` is modelled for the question and category listings. The required-question loop uses the same listing.
- Mongo `$set` with dotted paths or an `_id` field is left out. Upserts set top-level fields only.
- `get_consultation_details`, `list_consultations`, `get_consultation`, `delete_consultation` and the admin login are plain reads or deletes, or depend on auth code that is not part of this model.
- `app/models/database.py`, `app/main.py` and `app/models/schemas.py` hold connection setup, router wiring and pydantic declarations. They have no behaviour to state.
- `ConsultationImages`, `HVACImageCategory`, `ImageUploadResponse` and `update_completion_status` are imported by `app/services/image_service.py` but are not part of this model.
  - Bucketing is modelled on the category string, in `GetConsultationImages`. That is the intended behaviour: as written the conversion fails first (see "## Findings").
  - The completion flags are a parameter.
  - No discount total is computed.
- Images.ImageService.UploadImage: writes the status the code as written produces (see "## Findings"). The intended status would follow the completion flags of `update_completion_status`, which is not part of this model.
- `_update_consultation_images`, `get_image_by_id` and `delete_image` in the image service are database bookkeeping and are not modelled.
- The image service and the category router are not registered by `app/main.py`. Their logic is modelled on its own.
- Text.Lower: lowers ASCII capitals only. Python's `str.lower` is Unicode-aware, so it also maps the Kelvin sign U+212A to "k" and U+0130 to two characters. A question text containing such characters matches the phrase searches of `app/routers/consultation.py:336-340` in Python but not in the model.
- Consultation.ParsesAsFloat: treats every integer answer as convertible. `float()` of an integer of magnitude about 2^1024 or more raises `OverflowError`. The `except (ValueError, TypeError)` at `app/routers/consultation.py:98-100` does not catch it, so the source answers 500, not a validation error.
- Analyzer.AnalyzeImage: the OCR result's `confidence` (the float the vision response reports, `app/services/consultation_analyzer.py:63-69`) is not modelled, though the source stores it in the analysis results.
- Pricing.PricingService.ApplyMultiSystemMultiplier: prices are unbounded integers scaled exactly by `x * 185 / 100`. The source multiplies floats. Because the shared row drifts, after about 43 two-system requests the prices pass 2^53 and `int(x * 1.85)` stops agreeing with the exact product. After about 1,140 requests `x * 1.85` overflows to infinity and `int()` raises `OverflowError`.
- Pricing.PricingService.CalculateEstimate: never fails on a string answer. The source fails once the drifting row overflows (see the line above), and `app/routers/consultation.py:347-357` then returns its fallback estimate.
- Models.BuildQuizQuestion: accepts only an integer `order` and a boolean `is_required`. Pydantic's lax mode also coerces numeric strings such as "3" and the integers 0/1.
- Models.BuildConsultation: the images' `uploaded_at` (a datetime defaulting to now) and `created_at` are not modelled. Pydantic's lax coercions of the other fields are not modelled either.
- Quiz.SortByOrderSpec: states sortedness and permutation but not the relative order of ties. The unique index on `order` (`app/models/database.py:25`) rules ties out.
- The registry's float discounts (150.0, 50.0, 25.0, 500.0, 200.0) are integers in the model.

## Findings

| source | as written | input that shows it | evidently intended | confidence | as-written member | corrected member |
|---|---|---|---|---|---|---|
| app/services/image_service.py:124 | `ConsultationImage(**image)` validates against `app/models/models.py:88-93`. That model requires `image_type` and a string-or-None `_id`, and it has no `category`. Every record `upload_image` stores lacks `image_type` and has an ObjectId `_id`, so the `except` returns None | a consultation with one uploaded image: `get_consultation_images` gives None, the progress report is `{}`, and the upload sets status images_uploaded with images_completed true | the images bucketed by category, and the status following the completion flags | not executed | Images.StoredImagesAsWritten | Images.GetConsultationImages |
| app/services/pricing_service.py:101 | `base_pricing.copy()` is a shallow copy, so the multiplier at lines 66-67 scales the shared matrix row of the process-wide service | a 2-system "1,500 - 2,200 sq ft" estimate, then a 1-system one: good.minPrice 17575 instead of 9500; a second 2-system one: 32513 instead of 17575 | every estimate priced from the unmodified table | not executed | Pricing.AliasingDrift | Pricing.IntendedEstimateSpec |
