# MediTrack core in Dafny

MediTrack predicts how well a patient will keep to a medication regimen.
This project models the deterministic core behind that prediction and
proves what that core promises.

The modelled core has these parts:

- **The adherence scorer** (`predictor.dfy`, for model/predictor-2.py):
  - the feature encoder, producing either the nine-value simple vector or the one-hot gender record reordered to the recorded column names;
  - the rule-based fallback score, a running score updated step by step and then clipped to [0, 100];
  - the 80/60 risk tiers and the model-path confidence formula;
  - the fixed-order recommendation list;
  - the `AdherencePredictor` object with its `model`, `uses_gender_dummies` and `feature_names` fields.

  The fitted ensemble and the fitted scaler are opaque functions.
- **The drug-interaction checker** (`drugs.dfy`): keyword severity, the all-pairs `i < j` lookup in both directions over a table of normalised rows, drug search and the per-severity summary.
- **The medicine table** (`medicine_db.dfy`):
  - prefix search, topped up by an abstract fuzzy matcher, with duplicates removed and a limit applied;
  - exact-name lookup, with the column-extraction loops;
  - side effects, substitutes, batch lookup and the habit-forming flag.
- **The prescription reader** (`prescription.dfy`): the demonstration record, the overlay of parsed fields onto it, the fallbacks of `extract_data`, and validation. The regular-expression match lists are inputs.
- **Text-recognition post-processing** (`ocr.dfy`): text cleaning, the medicine-name filter, the digit suggestions, and the shape of the `extract_text` and `process_prescription` results.
- **The training-label rule** (`data_generator.dfy`): one score and label per sample, with the random draws as inputs, and the sample loop.
- **The request rules of app.py** (`app.py` → `app.dfy`):
  - the upload extension check;
  - field defaults, `int` conversion and 0/1 flags for a prediction request;
  - the under-two-medicines short-circuit;
  - the analytics tier counts and mean;
  - the search route's limit and short-query rule.
- **The prediction page** (`selection.dfy`, for static/js/predict_enhanced.js):
  - the selected-medicine list as a class, kept lowercased and duplicate-free, with the medication count kept equal to its length;
  - the search gate;
  - the text-recognition quality badge.
- **The patient list page** (`patients.dfy`, for static/js/patients.js): the name and tier filter, delete, and the colour maps.
- **Shared string helpers** (`text.dfy`): ASCII case mapping, Python and JavaScript whitespace stripping, substring search, split and join. `wrappers.dfy` holds `Option` and `Result`.

In app.py, `predict_adherence` calls the scorer in `model.predictor`. This model takes that scorer to be the one in model/predictor-2.py.

## Model

| member | source | states |
|---|---|---|
| Predictor.ClassifyRisk | model/predictor-2.py:220-228 | Low exactly when the score is at least 80, Medium exactly on [60, 80), High exactly below 60 |
| Predictor.ClassifyRiskMonotone | model/predictor-2.py:274-282 | a higher score never gives a more severe tier |
| Predictor.Clip | model/predictor-2.py:217 | `np.clip`: the result lies in [lo, hi], equals x inside the range, and equals the nearer bound outside it |
| Predictor.Rank | model/predictor-2.py:298-340 | every trigger has a test step below 7, and the step holds that trigger |
| Predictor.AdviceInjective | model/predictor-2.py:299-345 | different triggers append different records |
| Predictor.AdviceFor | model/predictor-2.py:296-347 | one record per trigger, in the order of the triggers |
| Predictor.FiredUpToFacts | model/predictor-2.py:298-345 | the first n tests note each firing trigger exactly once, in increasing step order, and at most n of them |
| Predictor.GenerateRecommendations | model/predictor-2.py:294-347 | the loop that tests the triggers in order and appends records builds exactly the recommendation list |
| Predictor.RecommendationsPerTrigger | model/predictor-2.py:294-347 | at most seven records, and a trigger's record is present exactly when that trigger fires |
| Predictor.RecommendationsInTestingOrder | model/predictor-2.py:294-347 | the records follow the testing order, not their priority |
| Predictor.RecommendationsEmptyIff | model/predictor-2.py:298-340 | the list is empty exactly when the reminder is on, missed ≤ 5, medications ≤ 5, no side effects, cost ≤ 3, frequency ≤ 3 and score ≥ 60 |
| Predictor.RulePrediction | model/predictor-2.py:246-291 | the fallback score lies in [0, 100], equals the raw additive score when that score is in range, 0 when it is below and 100 when it is above, has confidence 75, has the shared tier and its colour, and carries the recommendations for that score |
| Predictor.RulePredictionIgnoresGender | model/predictor-2.py:244-292 | the rule-based path gives the same result whatever the gender value, a list included |
| Predictor.RuleBasedPrediction | model/predictor-2.py:244-292 | the step-by-step score update equals the additive rule prediction: score in [0, 100], confidence 75 |
| Predictor.AllRiskFactorsExample | model/predictor-2.py:246-291 | an elderly patient with every risk factor is clipped to 0, rated High, and gets all seven recommendations |
| Predictor.GenderCode | model/predictor-2.py:43-44 | for a value the lookup can hash: Male 0, Female 1, anything else 2 |
| Predictor.OneHotValues | model/predictor-2.py:46-58 | the one-hot record has one value per column name |
| Predictor.OneHotGenderExactlyOne | model/predictor-2.py:55-57 | exactly one gender indicator is set: the one for the gender's code, and `gender_2` for an unknown gender |
| Predictor.ColumnIndex | model/predictor-2.py:64 | none exactly when the name is not a column; otherwise the first position holding that name |
| Predictor.SelectColumns | model/predictor-2.py:63-65 | fails exactly when a wanted name is not a column; otherwise the wanted values in the wanted order; the error names a missing column |
| Predictor.SimpleLayout | model/predictor-2.py:67-98 | the simple vector has nine values: age/100, the gender code, then the seven fields in fixed order |
| Predictor.Encode | model/predictor-2.py:38-98 | fails with the gender error exactly when the gender is a list; otherwise fails exactly when dummies are used and a recorded feature name is not a one-hot column; a vector has 9 values, 11, or one per recorded name |
| Predictor.SelectOwnOrder | model/predictor-2.py:63-64 | selecting a record's own distinct columns in their own order returns the record unchanged |
| Predictor.TrainingOrderIsIdentity | model/predictor-2.py:46-65 | with the training column order the one-hot record is returned as built |
| Predictor.ModelConfidenceRange | model/predictor-2.py:234 | for a score in [0, 100] the confidence is 70 + score/5, so it lies in [70, 90] and the cap of 95 never binds |
| Predictor.FromModelOutput | model/predictor-2.py:217-242 | a regressor output becomes its score clipped to [0, 100] (the output when in range, 0 below, 100 above), with confidence exactly `70 + score/5` (so in [70, 90], the 95 cap never applies), the shared tier and colour, and the recommendations for that score |
| Predictor.ModelPredictionAsWritten | model/predictor-2.py:213-242 | as written: fails exactly when the encoding fails, with its error; otherwise the regressor applied to the unscaled vector, clipped to [0, 100] (0 below, 100 above), with confidence exactly `70 + score/5`, the shared tier and colour and the recommendations for the score |
| Predictor.ModelPrediction | model/predictor-2.py:213-242 | corrected: the same promises, confidence `70 + score/5` included, for the regressor applied to the scaled vector |
| Predictor.UnhashableGenderFailsModelPath | model/predictor-2.py:43-44 | a list as the gender makes the model path fail with the gender error, in either layout |
| Predictor.ModelPredictionTotalForTrainingOrder | model/predictor-2.py:46-65 | with the column order recorded at training time and a gender the lookup can hash, neither model path fails |
| Predictor.ScalerSkippedChangesScore | model/predictor-2.py:216 | there is a scaler and regressor for which the unscaled call gives 70 and the scaled call gives 1 |
| Predictor.AdherencePredictor.Untrained | model/predictor-2.py:21-36 | without a saved model, there is no model, no dummies and no feature names |
| Predictor.AdherencePredictor.Loaded | model/predictor-2.py:363-373 | the loaded model, scaler and recorded metadata are stored |
| Predictor.AdherencePredictor.PrepareFeatures | model/predictor-2.py:38-98 | the appending and reordering code returns exactly the encoding of the patient for the loaded layout and column names |
| Predictor.AdherencePredictor.Predict | model/predictor-2.py:206-242 | without a model, exactly the rule-based result, with confidence 75; with one, the path as written, with the unscaled features and confidence `70 + score/5`; a result has its score in [0, 100], its tier and the recommendations for its score |
| DrugInteractions.AnyKeyword | utils/drug_interaction_checker.py:103-105 | true exactly when some keyword occurs in the text |
| DrugInteractions.ClassifySeverity | utils/drug_interaction_checker.py:83-108 | high exactly when a high keyword occurs in the lowercased text; medium exactly when none does and a medium keyword does; low exactly when neither does |
| DrugInteractions.SeverityIgnoresCase | utils/drug_interaction_checker.py:93 | classifying the lowercased description gives the same level |
| DrugInteractions.FirstRowFacts | utils/drug_interaction_checker.py:55-58 | finds nothing exactly when no row links the pair; otherwise finds the first such row (`iloc[0]`) |
| DrugInteractions.LookupFacts | utils/drug_interaction_checker.py:55-79 | a record exactly when a row links the pair in either direction; the forward row wins; the caller's own names are reported, with the row's description |
| DrugInteractions.NormalizeAll | utils/drug_interaction_checker.py:46 | one name per medication, at the same position: the medication lowercased and stripped |
| DrugInteractions.RowPairsFacts | utils/drug_interaction_checker.py:50 | row i's pairs are exactly (i, j) for i < j < m, by increasing j |
| DrugInteractions.PairsBeforeLength | utils/drug_interaction_checker.py:49-50 | i·(2n − i − 1)/2 pairs come before row i |
| DrugInteractions.PairsBeforeMembers | utils/drug_interaction_checker.py:49-50 | the pairs before row i are exactly those (r, j) with r < i and r < j < n |
| DrugInteractions.PairsBeforeSorted | utils/drug_interaction_checker.py:49-50 | the loop visits pairs in lexicographic order |
| DrugInteractions.AllPairsFacts | utils/drug_interaction_checker.py:49-50 | every pair i < j < n exactly once, in lexicographic order: n(n−1)/2 pairs |
| DrugInteractions.CollectHits | utils/drug_interaction_checker.py:66-79 | each record belongs, in order, to the next pair that has one |
| DrugInteractions.HitsMembers | utils/drug_interaction_checker.py:66-79 | the pairs with a record are exactly the visited pairs whose lookup succeeds |
| DrugInteractions.HitsSorted | utils/drug_interaction_checker.py:49-79 | keeping some of the sorted pairs keeps them sorted |
| DrugInteractions.RowRecordsCollect | utils/drug_interaction_checker.py:50-79 | the inner loop's records are the records of row i's pairs |
| DrugInteractions.CollectNextRow | utils/drug_interaction_checker.py:49-50 | the outer loop's records so far, followed by row i's, are the records before row i + 1 |
| DrugInteractions.CollectNoRows | utils/drug_interaction_checker.py:40-41 | an empty table finds nothing for any pairs |
| DrugInteractions.Interactions | utils/drug_interaction_checker.py:30-81 | the records `check_interactions` returns, in pair order; none for an empty table |
| DrugInteractions.InteractionsBound | utils/drug_interaction_checker.py:49-79 | at most n(n−1)/2 records |
| DrugInteractions.InteractionsInPairOrder | utils/drug_interaction_checker.py:49-79 | the records come from distinct pairs i < j, in (i, j) order |
| DrugInteractions.InteractionsComplete | utils/drug_interaction_checker.py:49-79 | every pair i < j with a matching row is reported |
| DrugInteractions.SearchHitsFacts | utils/drug_interaction_checker.py:126-138 | one hit per row with the drug on either side, no more; each names the other side of its row, with that row's description |
| DrugInteractions.InvolvedRows | utils/drug_interaction_checker.py:126-138 | the positions of exactly the rows that name the drug on either side, in increasing order |
| DrugInteractions.SearchHitsRows | utils/drug_interaction_checker.py:126-138 | the k-th hit comes from the k-th row that names the drug: it reports the other side of that row and its description, so the hits keep table order |
| DrugInteractions.SeverityCountsAddUp | utils/drug_interaction_checker.py:156-158 | the high, medium and low counts add up to the number of records |
| DrugInteractions.DrugInteractionChecker.Load | utils/drug_interaction_checker.py:18-21 | both drug columns are lowercased and stripped, row by row |
| DrugInteractions.DrugInteractionChecker.Missing | utils/drug_interaction_checker.py:23-28 | a missing or unreadable file gives an empty table |
| DrugInteractions.DrugInteractionChecker.CheckInteractions | utils/drug_interaction_checker.py:30-81 | the empty-table early return, then the nested loops, return exactly the all-pairs records |
| DrugInteractions.DrugInteractionChecker.CheckPairs | utils/drug_interaction_checker.py:49-79 | the outer loop over rows returns the records of every pair i < j, in pair order |
| DrugInteractions.DrugInteractionChecker.CheckRow | utils/drug_interaction_checker.py:50-79 | the inner loop appends exactly the records of row i's pairs |
| DrugInteractions.DrugInteractionChecker.SearchDrug | utils/drug_interaction_checker.py:110-140 | the loop returns one hit per row naming the normalised drug, in table order |
| DrugInteractions.DrugInteractionChecker.GetInteractionSummary | utils/drug_interaction_checker.py:142-162 | the records, their total, and per-severity counts that add up to the total |
| MedicineDb.PresentFacts | utils/medicine_db.py:91-109 | at most one entry per column read; each entry is the non-empty text of its cell; every filled cell is kept |
| MedicineDb.FilledColumns | utils/medicine_db.py:91-109 | the columns read whose cells are present, not missing and not empty, each once, in increasing order |
| MedicineDb.PresentColumns | utils/medicine_db.py:91-109 | the k-th entry is the text of the k-th such column, so the entries follow column order |
| MedicineDb.FirstNamed | utils/medicine_db.py:81-88 | none exactly when no row's lowercased name matches; otherwise the first matching row |
| MedicineDb.InfoFound | utils/medicine_db.py:75-121 | a record exactly when some row's lowercased name equals the lowercased, stripped query, taken from the first such row |
| MedicineDb.InfoBounds | utils/medicine_db.py:91-109 | a record has at most 5 substitutes, 42 side effects and 5 uses, all non-empty |
| MedicineDb.SliceTo | utils/medicine_db.py:63 | `xs[:limit]`, with Python's reading of a negative limit |
| MedicineDb.PrefixMatchesFacts | utils/medicine_db.py:53 | the prefix matches are exactly the names that start with the query |
| MedicineDb.PrefixMatchesAppend | utils/medicine_db.py:53 | the prefix matches of two name lists joined are those of the first followed by those of the second, so matches keep table order |
| MedicineDb.DedupFacts | utils/medicine_db.py:59 | removing duplicates keeps each element once and nothing else |
| MedicineDb.DedupOrder | utils/medicine_db.py:59 | the kept elements appear in the order of their first occurrence in the input |
| MedicineDb.DedupPrefix | utils/medicine_db.py:59 | deduplicating `a + b` starts with deduplicated `a` |
| MedicineDb.Search | utils/medicine_db.py:36-63 | `search_medicine`: no results from an empty table, and never more than a non-negative `limit` |
| MedicineDb.SearchEnoughPrefixMatches | utils/medicine_db.py:53-63 | with at least `limit` prefix matches, the first `limit` of them in table order |
| MedicineDb.SearchTopsUpWithFuzzy | utils/medicine_db.py:56-63 | otherwise the distinct prefix matches come first; the results hold no repeats and nothing but prefix and fuzzy matches, in the order they first appear among the prefix matches followed by the fuzzy matches; a prefix or fuzzy match is missing only when the results already fill the limit and every result comes before it in that order, so the results are the first `limit` distinct names of the prefix matches followed by the fuzzy matches |
| MedicineDb.BatchFacts | utils/medicine_db.py:163-168 | the keys are exactly the listed names that have a record, each mapped to its record |
| MedicineDb.MedicineDatabase.Load | utils/medicine_db.py:24-27 | the table and its lowercased non-missing names |
| MedicineDb.MedicineDatabase.Missing | utils/medicine_db.py:29-34 | a missing or unreadable file gives an empty table and no names |
| MedicineDb.MedicineDatabase.SearchMedicine | utils/medicine_db.py:36-63 | the search over the loaded table and names: none from an empty table, never more than a non-negative limit |
| MedicineDb.MedicineDatabase.ExtractFilled | utils/medicine_db.py:91-109 | the extraction loop returns the kept cells in column order |
| MedicineDb.MedicineDatabase.GetMedicineInfo | utils/medicine_db.py:65-121 | returns the record of the first matching row, or none |
| MedicineDb.MedicineDatabase.GetMedicineSideEffects | utils/medicine_db.py:123-136 | the record's side effects (at most 42), or none without a record |
| MedicineDb.MedicineDatabase.GetMedicineSubstitutes | utils/medicine_db.py:138-151 | the record's substitutes (at most 5), or none without a record |
| MedicineDb.MedicineDatabase.BatchSearch | utils/medicine_db.py:153-168 | the loop builds exactly the batch map |
| MedicineDb.MedicineDatabase.CheckHabitForming | utils/medicine_db.py:192-205 | false without a record; otherwise whether the lowercased flag is yes, true or 1, failing on a non-text flag |
| Prescription.Take | utils/prescription_reader.py:58 | `xs[:n]`: the first n elements, or all of them |
| Prescription.ParsePrescriptionText | utils/prescription_reader.py:50-80 | the field-by-field overwrite of the demonstration record gives the parsed record |
| Prescription.ParsedKeepsMock | utils/prescription_reader.py:52-78 | a field group without a match keeps its demonstration value; with no match at all the record is the demonstration record |
| Prescription.ParsedMedications | utils/prescription_reader.py:57-59 | the first three names at most, while the count is the number of all matches |
| Prescription.ParsedDosageFrequency | utils/prescription_reader.py:70-72 | the dose frequency is the number in the first frequency match, and the text starts with it |
| Prescription.ExtractDataFallbacks | utils/prescription_reader.py:13-33 | a missing file or a failure gives exactly the demonstration record; without a recogniser only the quality and the note differ, the quality being Good exactly when both sides exceed 800 |
| Prescription.ValidatePrescription | utils/prescription_reader.py:115-131 | valid exactly when the three keys are present; the issues are those of the record |
| Prescription.IssuesFacts | utils/prescription_reader.py:120-126 | each issue appears exactly when its field is falsy, at most once, in field order |
| Prescription.PresentButEmptyIsValidWithIssue | utils/prescription_reader.py:117-126 | a present but empty dosage is valid and still reported |
| Prescription.ExtractDataValidates | utils/prescription_reader.py:13-33 | whatever happens to the upload, the result is valid with no issues |
| Ocr.CollapseSpaces | utils/ocr_processor.py:59 | the only whitespace left is the plain space |
| Ocr.CollapseSpacesFacts | utils/ocr_processor.py:59 | whitespace is left only as plain spaces, no two whitespace characters are adjacent, the non-whitespace characters are those of the input in their order, the result starts with whitespace exactly when the input does, and it is never longer |
| Ocr.CollapseAppend | utils/ocr_processor.py:59 | a non-whitespace character separates the collapsing: text before it and text from it on are collapsed independently |
| Ocr.CollapseAtChar | utils/ocr_processor.py:59 | a non-whitespace character is kept as it is |
| Ocr.CollapseRun | utils/ocr_processor.py:59 | a non-empty run of whitespace becomes exactly one space; with the two rows above this fixes the result for every input |
| Ocr.KeepAllowed | utils/ocr_processor.py:62 | only kept characters remain, all from the input; text made only of kept characters is unchanged |
| Ocr.KeepAllowedAppend | utils/ocr_processor.py:62 | filtering two texts joined gives the filtered texts joined, so every kept character survives, in order |
| Ocr.CapitalizeSegment | utils/ocr_processor.py:66 | a stripped piece of filtered text, capitalised, is a clean segment: upper first letter, no upper letter after it |
| Ocr.CleanSegmentsFacts | utils/ocr_processor.py:66 | every surviving segment is a clean segment |
| Ocr.FilteredIsClean | utils/ocr_processor.py:59-62 | the filtered text has only clean characters |
| Ocr.PartsClean | utils/ocr_processor.py:65 | the pieces between full stops hold only clean characters |
| Ocr.TextSegmentsClean | utils/ocr_processor.py:59-66 | every segment of the cleaned text is clean |
| Ocr.JoinClean | utils/ocr_processor.py:68 | joining clean segments with ". " gives clean characters only |
| Ocr.CleanText | utils/ocr_processor.py:56-68 | cleaned text has only word characters, plain spaces and `. , : - ( )` |
| Ocr.CleanTextEnds | utils/ocr_processor.py:65-68 | cleaned text neither starts nor ends with whitespace, and is empty exactly when no segment survives |
| Ocr.SuggestionMessage | utils/ocr_processor.py:127 | the message names its digit |
| Ocr.Messages | utils/ocr_processor.py:125-127 | one message per listed table entry, in order |
| Ocr.FoundUpToFacts | utils/ocr_processor.py:125-127 | the entries found are exactly those whose digit occurs, in ascending order |
| Ocr.SuggestionAtInjective | utils/ocr_processor.py:118-127 | different table entries give different messages |
| Ocr.SuggestionsMembers | utils/ocr_processor.py:113-129 | at most four suggestions, one exactly for each table digit in the text |
| Ocr.SuggestionsEmptyIff | utils/ocr_processor.py:113-129 | no suggestion exactly when none of 0, 1, 5 and 8 occurs |
| Ocr.SuggestionsInTableOrder | utils/ocr_processor.py:118-127 | the suggestions follow the table order |
| Ocr.GetSuggestions | utils/ocr_processor.py:113-129 | the loop returns exactly the suggestion list |
| Ocr.StripAll | utils/ocr_processor.py:87-90 | every candidate stripped, in order |
| Ocr.LongDistinctFacts | utils/ocr_processor.py:90 | each text once, and exactly the texts longer than two characters |
| Ocr.MedicinesFacts | utils/ocr_processor.py:84-90 | the medicines are exactly the stripped candidates longer than two characters, each once and already stripped |
| Ocr.ExtractMedicines | utils/ocr_processor.py:70-92 | returns exactly the medicine list of the candidates |
| Ocr.KeepLongDistinct | utils/ocr_processor.py:90 | the filtering loop keeps exactly the long distinct texts |
| Ocr.ExtractText | utils/ocr_processor.py:17-54 | a failure gives success false, the message, empty texts and no medicines; otherwise the raw text, its cleaned text and the medicines |
| Ocr.ProcessPrescription | utils/ocr_processor.py:94-111 | success exactly when the text was read; then the editable text is the cleaned text and the suggestions are computed from it; on failure neither key is added |
| DataGenerator.GenderCode | utils/data_generator.py:69 | Male 0, Female 1, Other 2 |
| DataGenerator.SampleOf | utils/data_generator.py:33-83 | the score lies in [10, 100], and the label is 1 exactly when the score is at least 80 |
| DataGenerator.GenerateSample | utils/data_generator.py:33-71 | the step-by-step score update gives the sample of the draw |
| DataGenerator.GenerateSampleData | utils/data_generator.py:5-93 | fails with `NoAdherentColumn` exactly when `num_samples` is zero or less (the table built from no rows has no `adherent` column to summarise); otherwise exactly `num_samples` rows, row k from draw k |
| DataGenerator.GenerateDefaultSampleData | utils/data_generator.py:5 | with the default count, as every caller uses it: exactly 1000 rows, row k from draw k |
| DataGenerator.ClipMonotone | utils/data_generator.py:63 | clipping keeps the order of its inputs |
| DataGenerator.ReminderOnlyRaises | utils/data_generator.py:46-47 | with draws in range, the reminder raises the raw score by at least 10 and never lowers the label score |
| DataGenerator.AgeMattersOnlyAtTheEnds | utils/data_generator.py:36-39 | ages 30 to 70 give the same score; above 70 the penalty is subtracted |
| App.LastDot | app.py:32 | none exactly when there is no '.', otherwise the position of the last one |
| App.AllowedFile | app.py:31-32 | true exactly when there is a '.' and the lowercased text after the last one is png, jpg, jpeg or pdf |
| App.LastDotUnique | app.py:32 | a name has only one last '.' |
| App.AllowedFileAccepts | app.py:31-32 | `scan.PNG` and `report.v2.pdf` are accepted |
| App.AllowedFileRejects | app.py:31-32 | `scan.png.exe` and `pdf` are rejected |
| App.Decimal | app.py:60 | the numeral of a natural number is a run of digits |
| App.DecimalValue | app.py:60 | a numeral reads back as its number |
| App.ParseDigits | app.py:60 | `int` of a run of digits is its value, and with a '-' in front, its negation |
| App.ParseIntShow | app.py:60-68 | `int` of a written integer gives the integer, the same as the integer itself |
| App.GenderOf | app.py:61 | a string names a gender, a list is unhashable, and any other value is hashable but unlisted |
| App.Flag | app.py:64-67 | 0 or 1, and 1 exactly when the key is present with a truthy value |
| App.PatientFromRequest | app.py:60-68 | each integer field is converted or takes its default (age 0, medications 1, frequency 1, missed 0, comorbidities 0, cost 1); gender is passed on as received and defaults to Other; flags are 0/1 by truthiness |
| App.PatientFromRequestFails | app.py:56-92 | the request fails exactly when one of the six integer fields holds a value `int` rejects |
| App.EmptyRequestDefaults | app.py:60-68 | an empty body gives the defaults, which the fallback scores 85 (Low) |
| App.PredictAdherence | app.py:54-92 | a bad field or encoding fails; without a model, the rule-based result; with one, the unscaled path as written; the answer carries the score, tier name, recommendations and confidence, without a colour |
| App.Characters | utils/drug_interaction_checker.py:46 | iterating a string gives one one-character name per character |
| App.CheckDrugInteractions | app.py:282-308 | a falsy value, or a string or list shorter than two, gives the all-zero summary; a number or `True` fails; a string is checked per character; a list of strings gets the checker's records; with a non-empty table a list holding a non-string fails on the first one; counts are consistent |
| App.ShortCircuitAgrees | app.py:289-299 | the short-circuit agrees with the checker, which finds nothing for fewer than two medications |
| App.CountLevel | app.py:172-174 | the count is the number of positions whose tier is exactly the given name, so never more than the number of patients |
| App.LevelCountsBounded | app.py:171-174 | three different tier names count at most all patients together |
| App.SumScoresBounds | app.py:176 | scores within [lo, hi] sum to within n times those bounds |
| App.MeanBounds | app.py:176 | a mean of values in [lo, hi] lies in [lo, hi] |
| App.AnalyticsOverview | app.py:160-188 | total is the number of patients; high, medium and low are the exact-name counts of "High", "Medium" and "Low", together at most total; the average is 0 with no patients, otherwise the sum of scores (0 for a missing one) over the count, and in [0, 100] for scores in [0, 100] |
| App.LowercaseTierUncounted | app.py:172-174 | a lowercase tier name is in no count |
| App.LimitArg | app.py:248 | 10 without the argument; otherwise it succeeds exactly when `int` accepts the text, giving that number |
| App.ExplicitDefaultLimit | app.py:248 | `limit=10` is the same as leaving the limit out |
| App.SearchRoute | app.py:243-261 | a bad limit fails; a missing or one-character query gives no results; otherwise the database search |
| App.SearchRouteBound | app.py:248-253 | never more results than a non-negative limit |
| Selection.Without | static/js/predict_enhanced.js:154 | the entries other than the name, in order, and no entry equal to it |
| Selection.WithoutAppend | static/js/predict_enhanced.js:154 | removing a name from two lists joined gives the two filtered lists joined, so the entries kept stay in order |
| Selection.WithoutFacts | static/js/predict_enhanced.js:154 | on a duplicate-free list, removal keeps it duplicate-free and drops one entry exactly when the name is listed |
| Selection.WithoutUndoesAppend | static/js/predict_enhanced.js:116-154 | removing a name just appended restores the list |
| Selection.WithoutAbsent | static/js/predict_enhanced.js:154 | removing an absent name changes nothing |
| Selection.AppendKeepsDistinct | static/js/predict_enhanced.js:111-116 | appending an unlisted name keeps the list duplicate-free |
| Selection.AppendKeepsLowered | static/js/predict_enhanced.js:116 | appending a lowercased name keeps every entry lowercased |
| Selection.MedicineSelection.constructor | static/js/predict_enhanced.js:132-137 | an empty list with count 0 |
| Selection.MedicineSelection.UpdateMedicineChips | static/js/predict_enhanced.js:132-150 | the list is unchanged and the count field is its length |
| Selection.MedicineSelection.AddMedicine | static/js/predict_enhanced.js:102-129 | an empty trimmed name and an already listed name leave the list unchanged; otherwise the lowercased name is appended and a check is requested exactly when two or more are listed; the list stays valid |
| Selection.MedicineSelection.RemoveMedicine | static/js/predict_enhanced.js:153-162 | every equal entry is dropped and the others keep their order; a check is requested exactly when two or more remain |
| Selection.MedicineSelection.ResetForm | static/js/predict_enhanced.js:547-557 | an empty list with count 0 |
| Selection.AddThenRemove | static/js/predict_enhanced.js:102-162 | adding a new name and removing it restores the list |
| Selection.GateAgreesWithServer | static/js/predict_enhanced.js:58-73 | a query the page sends always passes the server's short-query rule and reaches the database search |
| Selection.CountLetters | static/js/predict_enhanced.js:328 | the count is the number of positions holding an ASCII letter, so never more than the length |
| Selection.ShowQualityIndicator | static/js/predict_enhanced.js:306-341 | garbled text gives the low-quality badge whatever the verdict; otherwise poor, moderate, or good |
| Selection.AllLettersNotGarbled | static/js/predict_enhanced.js:328 | text made only of letters is garbled exactly when it is shorter than 20 |
| Patients.ByNameSound | static/js/patients.js:195-199 | the name filter keeps only listed patients whose name contains the term, and no more of them |
| Patients.ByRiskSound | static/js/patients.js:201-205 | the tier filter keeps only listed patients of that tier, and no more of them |
| Patients.FilterPatients | static/js/patients.js:189-208 | every shown patient is listed and passes both tests, and no more are shown than listed |
| Patients.KeptIndices | static/js/patients.js:193-205 | increasing positions, each of a kept patient, and every kept patient's position |
| Patients.Pick | static/js/patients.js:193-205 | the entries at the given positions |
| Patients.TwoFiltersAreOne | static/js/patients.js:195-205 | the name filter, then the tier filter, keeps exactly the patients both tests accept |
| Patients.ByNameIsKeeps | static/js/patients.js:195-199 | the name filter keeps the patients whose lowercased name contains the term, with a missing name read as '' |
| Patients.ByRiskIsKeeps | static/js/patients.js:201-205 | the tier filter keeps exact tier matches |
| Patients.AllIndicesKept | static/js/patients.js:193 | with no criteria every position is kept, in order |
| Patients.FilterIsKeptSubsequence | static/js/patients.js:189-208 | the result is the order-preserving subsequence of `allPatients` at the kept positions |
| Patients.NoCriteriaShowsAll | static/js/patients.js:193 | with no term and no tier every patient is shown, in order |
| Patients.SpliceOne | static/js/patients.js:217 | `splice(index, 1)`, including negative and out-of-range indices |
| Patients.RemoveAtShape | static/js/patients.js:217 | removing position i shortens the list by one, keeps the entries before i, and shifts the later ones down |
| Patients.PatientsPage.constructor | static/js/patients.js:3-15 | the page's list is the loaded list |
| Patients.PatientsPage.DeletePatient | static/js/patients.js:214-221 | once confirmed, the entry at the row index is removed from `allPatients` |
| Patients.PatientsPage.DeleteShownPatient | static/js/patients.js:214-221 | once confirmed, the patient shown in the clicked row is removed and no other |
| Patients.FilteredDeleteRemovesWrongPatient | static/js/patients.js:189-217 | with Ann and Bob listed and "bob" typed, Bob is row 0, and deleting row 0 removes Ann |
| Patients.UnfilteredIndicesAreIdentity | static/js/patients.js:44-75 | with no criteria the row index is the list position |
| Patients.ScoreColor | static/js/patients.js:232-236 | success exactly from 80, warning exactly on [60, 80), danger exactly below 60 |
| Patients.RiskColor | static/js/patients.js:223-230 | secondary exactly for an unknown tier name |
| Patients.PriorityColor | static/js/patients.js:238-245 | secondary exactly for an unknown priority |
| Patients.ColoursMatchServer | static/js/patients.js:223-236 | the score and tier colours use the server's 80/60 thresholds and tier colours |
| Patients.AdvicePrioritiesColoured | static/js/patients.js:238-245 | every recommendation the scorer emits is coloured danger or warning |
| Text.Lower | utils/drug_interaction_checker.py:93 | same length, each character mapped to lower case |
| Text.LowerIsLowerCase | static/js/predict_enhanced.js:111-116 | lowercased text has no upper-case letter and is its own lower case |
| Text.Strip | utils/medicine_db.py:50 | a slice of the input with no whitespace at either end, everything cut being whitespace |
| Text.StripIdempotent | utils/ocr_processor.py:87-90 | stripping twice strips nothing more |
| Text.StripKeeps | utils/ocr_processor.py:66 | text without whitespace at its ends is its own strip |
| Text.StripEmptyIff | utils/ocr_processor.py:66 | the strip is empty exactly when the text is all whitespace |
| Text.Contains | static/js/patients.js:197 | true exactly when the pattern occurs at some position |
| Text.HasChar | utils/ocr_processor.py:126 | true exactly when the character occurs |
| Text.Split | utils/ocr_processor.py:65 | at least one piece; no piece holds the separator; each character comes from the input |
| Text.SplitJoin | utils/ocr_processor.py:65 | joining the pieces with the separator gives the input back |
| Text.JoinEnds | utils/ocr_processor.py:68 | a join of non-empty parts starts with the first part's first character and ends with the last part's last |
| Text.DigitsValueAppend | utils/prescription_reader.py:72 | `int` reads digits as a decimal numeral |

## Left out

- Training (model/predictor-2.py:100-204): sklearn fitting, cross-validation and metrics are foreign numerics. The fitted ensemble and the fitted scaler are opaque functions.
- Persistence: `save_model`, and the joblib I/O of `load_model`. `load_model`'s effect is the `Loaded` constructor; a failed load is the `Untrained` state.
- DataGenerator.GenerateSampleData: creating the `data` directory, writing `data/training_data.csv` and the three summary prints (utils/data_generator.py:88-94) are I/O and are not modelled; on a count of zero or less the source writes an empty file before it fails, which the model does not capture.
- Table loading: CSV reading is I/O. The tables are sequences, and the `Load`/`Missing` constructors give the states loading leaves.
- JSON files: the patient and reminder files of app.py are I/O. The analytics overview takes the stored patients as a sequence.
- Regular expressions and recognition: pytesseract, cv2 and PIL are foreign calls, and the regex engines are left out too. Their results are inputs: the match lists, the recognised text, and the image size.
- Fuzzy matching: `difflib.get_close_matches` is an abstract `CloseMatcher`.
- Random draws: numpy sampling and seeding are inputs, one `Draw` per sample. `InRange` states the draws' ranges.
- Flask plumbing: routing, uploads, timestamps and HTTP status codes. An error response is `Err`.
- The upload route (app.py:94-123) is I/O apart from `allowed_file`.
- The batch route (app.py:310-317) only forwards its list, so `MedicineDatabase.BatchSearch` covers it.
- Unshown files:
  - the `model.predictor` module that app.py imports is not part of this model;
  - static/js/predict.js, static/js/dashboard.js and static/js/analytics.js are not part of this model;
  - no medicine-impact adjustment exists in the files modelled.
- `get_medicines_by_therapeutic_class` and `get_statistics` (utils/medicine_db.py:170-222) are left out. They are pandas substring and aggregate queries over columns this model does not keep.
- `viewPatientDetails` (static/js/patients.js:84-187) only renders. It shares the row-index error of `deletePatient`.
- The voice-input path of predict_enhanced.js, the DOM, fetch and Chart.js are left out as UI.
- Floating point: scores, confidences, age/100 and the mean are reals, so rounding error is not modelled.
- Rounding: `round(x, 2)` is left out throughout. This covers the predict response, the analytics average and the stored training score.
- DataGenerator.SampleOf: the stored score is not rounded to two places. The label is computed from the unrounded score, as in the source.
- App.PatientFromRequest, App.CheckDrugInteractions: JSON values cover null, booleans, integers, strings and lists, but not floats or objects. A body that is not an object (where `data.get` raises) is not modelled either.
- App.ParseInt: Python's `int` also accepts underscores between digits and non-ASCII digits. This model does not.
- Text.Lower, Selection.GateAgreesWithServer: case mapping is ASCII only, and so is `\w`. JavaScript's `toLowerCase` is Unicode-wide. JavaScript also measures lengths, such as the two-character search gate, in UTF-16 units, while the model counts characters.
- Ocr.ExtractMedicines: `list(set(...))` has no defined order. The model returns the first occurrences in input order, which is one of the orders the source may produce. Only the membership and the absence of repeats are promised by the source.
- Selection.ShowQualityIndicator: `letters < length * 0.4` is stated exactly as `5 * letters < 2 * length`. Floating-point rounding of the product is not modelled.

## Findings

| source | as written | input that shows it | evidently intended | confidence | as-written member | corrected member |
|---|---|---|---|---|---|---|
| model/predictor-2.py:216 | `predict` passes the unscaled feature vector to a model fitted on scaler-transformed vectors (lines 128, 162) | a standard scaler centring age on 50 with spread 20, and a regressor reading the first feature: a 70-year-old scores 70 unscaled, against 1 on the scaled input it was trained on | scale the features with the fitted scaler before predicting | not executed | Predictor.ModelPredictionAsWritten, which Predictor.AdherencePredictor.Predict computes, shown by Predictor.ScalerSkippedChangesScore | Predictor.ModelPrediction |
| static/js/patients.js:75, 217 | the delete button passes the row index of the filtered list, and `deletePatient` splices `allPatients` at that index | Ann and Bob listed and "bob" in the search box: Bob is the only row, at index 0, and deleting it removes Ann | delete the patient shown in the clicked row | not executed | Patients.PatientsPage.DeletePatient, shown by Patients.FilteredDeleteRemovesWrongPatient | Patients.PatientsPage.DeleteShownPatient |
