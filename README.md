# Visa processing time estimator: the rule layer

This project models the deterministic rules around the machine-learning
model of the Indian visa processing-time estimator, and proves properties of
them. There are six parts:

- **Prediction service** (`PredictionService`, prediction_service.dfy):
  - the October–March peak-season test;
  - the additive risk score with its defaults for absent keys;
  - the risk-level and approval-likelihood classification;
  - the hard-coded category-to-code tables with their fallback codes;
  - the integer feature vector and the echoed `factors`.
- **Training-time features** (`FeatureEngineering`, feature_engineering.dfy):
  - the season flag;
  - age-group binning;
  - the row risk score, built column by column;
  - the processing-efficiency category.

  Each step mutates a data frame in place.
- **Preprocessing** (`DataPreprocessing`, data_preprocessing.dfy):
  - null filling on a copy;
  - sorted label encoding;
  - the ordinal education codes;
  - one-hot visa-type dummies;
  - the integer cast and the status codes of the target labels.
- **Request validation** (`BackendApp`, backend_app.dfy):
  - the `VisaApplication` bounds and defaults;
  - the 422, 503 and 500 answers of `POST /api/predict`.
- **Page logic** (`Frontend`, frontend.dfy):
  - the `|| default` form coercion;
  - the risk gauge and the CSS classes;
  - the key-factor rows.
- **Synthetic records** (`SyntheticData`, synthetic_data.dfy): the rule that
  turns one record's random draws into a record, and the loop that builds
  the data set.

Shared definitions sit in three modules:

- `Util` (util.dfy): Option and Result, string order and sorting, decimal text and `zfill`.
- `Frames` (frames.dfy): a data frame as a map from column name to cells, and a `DataFrame` class.
- `CrossChecks` (cross_checks.dfy): lemmas that the files agree. Examples are the two risk-score formulas, the code tables and label encoding, and the page and server thresholds and defaults.

Modelling choices:

- A pandas cell is `Null`, a number (an exact `real`), a string or a boolean.
- A JavaScript number is an exact `real` or NaN.
- A Python `dict.get(key, default)` reads an `Option` field, where `None` means the key is absent.
- The random number generator is replaced by a `Draws` record of the values one record consumes. A predicate says each draw lies in the range of its `randint` or `choice` call.
- The median and the mode of a column are parameters.
- Text conversion of numbers (`str`, JavaScript number display) is a parameter.

Observations:

- `calculate_risk_score` treats an absent `has_sponsor` as sponsored. The feature vector and `factors` of `predict` treat it as not sponsored (prediction_service.py:108 against 148 and 199). Requests that pass validation always carry the key, so the endpoint is not affected.
- The unclamped approval probability of a synthetic record is never below 0.57, so its lower clamp at 0.50 never applies (`SyntheticData.ApprovalRange`).
- The page sends an entered financial proof of 0 as 15000. The server would accept 0 (`CrossChecks.PageDefaultsWithinServerBounds`).

## Model

| member | source | states |
|---|---|---|
| PredictionService.IsPeakSeason | webapp/backend/prediction_service.py:90-93 | the result is 1 exactly for months 1–3 and 10–12 and 0 for every other month |
| PredictionService.CalculateRiskScore | webapp/backend/prediction_service.py:95-119 | the running total equals the weighted sum 2·[documents incomplete] + [no visits] + [no sponsor] + [financial proof < 10000] + [Research or Employment], and lies in 0..6 |
| PredictionService.RiskScoreRange | webapp/backend/prediction_service.py:95-119 | the score lies in 0..6; it is 6 exactly when all five factors hold and 0 exactly when none holds |
| PredictionService.RiskScoreOfEmptyApplication | webapp/backend/prediction_service.py:100-117 | with no keys the documents and sponsor count as present, visits as 0 and the proof as 20000, so the score is exactly 1 |
| PredictionService.RiskScoreMonotone | webapp/backend/prediction_service.py:95-119 | an application with a superset of the risk factors never scores lower |
| PredictionService.RiskLevel | webapp/backend/prediction_service.py:191 | Low exactly for scores ≤ 1, Medium exactly for 2..3, High exactly from 4 |
| PredictionService.ApprovalFor | webapp/backend/prediction_service.py:176-184 | High/85 exactly for scores ≤ 1, Medium/70 exactly for 2..3, Low/50 exactly from 4 |
| PredictionService.ApprovalMirrorsRisk | webapp/backend/prediction_service.py:176-191 | the approval likelihood is the mirror image of the risk level, in both directions |
| PredictionService.ApprovalPercentageNonIncreasing | webapp/backend/prediction_service.py:176-184 | a higher risk score never gives a higher approval percentage |
| PredictionService.EducationTableInOrder | webapp/backend/prediction_service.py:49-52 | the education table numbers 10th Pass .. Doctorate as 0..4 and has no other key |
| PredictionService.VisaTypeTableInOrder | webapp/backend/prediction_service.py:55-58 | the visa-type table numbers its eight names 0..7 in the listed order and has no other key |
| PredictionService.VisaTypeNamesSorted | webapp/backend/prediction_service.py:55-58 | the visa-type names are listed in strictly increasing string order |
| PredictionService.NationalityTableInOrder | webapp/backend/prediction_service.py:61-67 | the nationality table numbers its twenty names 0..19 in the listed order and has no other key |
| PredictionService.NationalityNamesSorted | webapp/backend/prediction_service.py:61-67 | the nationality names are listed in strictly increasing string order |
| PredictionService.OccupationTableInOrder | webapp/backend/prediction_service.py:70-74 | the occupation table numbers its eight names 0..7 in the listed order and has no other key |
| PredictionService.OccupationNamesSorted | webapp/backend/prediction_service.py:70-74 | the occupation names are listed in strictly increasing string order |
| PredictionService.EducationFallback | webapp/backend/prediction_service.py:152-153 | a known education name gets its code, an unknown one the code of Graduate (2); the code lies in 0..4 |
| PredictionService.VisaTypeFallback | webapp/backend/prediction_service.py:154 | a known visa type gets its code, an unknown one the code of Tourist (7); the code lies in 0..7 |
| PredictionService.NationalityFallback | webapp/backend/prediction_service.py:155 | a known nationality gets its code, an unknown one the code of USA (19); the code lies in 0..19 |
| PredictionService.OccupationFallback | webapp/backend/prediction_service.py:156-157 | a known occupation gets its code, an unknown one the code of Professional (4); the code lies in 0..7 |
| PredictionService.FactorsMatchFeatures | webapp/backend/prediction_service.py:197-202 | the four echoed factors show the same documents, sponsor, express and visits values, with the same defaults, as the feature vector |
| PredictionService.VisaPredictionService.constructor | webapp/backend/prediction_service.py:15-20 | a new service starts with empty maps and then holds exactly the four encoding tables |
| PredictionService.VisaPredictionService.SetupEncodings | webapp/backend/prediction_service.py:45-74 | the encoding maps gain the education, visa-type, nationality and occupation tables, other entries kept |
| PredictionService.VisaPredictionService.Predict | webapp/backend/prediction_service.py:121-203 | the answer carries the risk score (in 0..6), the feature vector with the defaults and fallback codes, the level and approval of that score, the peak flag of the month (default 1), and the factors |
| FeatureEngineering.SeasonOf | src/feature_engineering.py:34-39 | a cell is Peak exactly when it is a number among the months 10, 11, 12, 1, 2, 3, and Off-Peak otherwise |
| FeatureEngineering.SeasonalColumns | src/feature_engineering.py:37-42 | only `season` and `is_peak_season` are added; per row the flag is 1 iff the season is Peak, iff the month is a peak month, and is always 0 or 1 |
| FeatureEngineering.CreateSeasonalFeature | src/feature_engineering.py:25-52 | succeeds iff both `application_month` and `processing_time_days` are present; with the month the frame becomes the seasonal columns (also when the days are missing), and without it stays unchanged |
| FeatureEngineering.AgeGroupOf | src/feature_engineering.py:113-117 | right-inclusive bins: Young iff 0 < age ≤ 25, Adult iff 25 < age ≤ 35, Middle-Aged iff 35 < age ≤ 50, Senior iff 50 < age ≤ 100, no group outside (0, 100] |
| FeatureEngineering.AgeGroupCodeMonotone | src/feature_engineering.py:113-121 | an older applicant never gets a lower age-group code |
| FeatureEngineering.AgeGroupColumns | src/feature_engineering.py:117-121 | only `age_group` and `age_group_encoded` are added; a row has a group and a code iff its age lies in (0, 100], and they are its bin's label and code |
| FeatureEngineering.CreateAgeGroupFeature | src/feature_engineering.py:105-131 | succeeds iff `applicant_age` is present; the frame then becomes the age-group columns, and otherwise stays unchanged |
| FeatureEngineering.FactorsPresent | src/feature_engineering.py:146-159 | the first k factor columns are present and, for k < 5, the k-th is missing: where the repeated additions stop |
| FeatureEngineering.RowRiskScore | src/feature_engineering.py:143-159 | the row score lies in 0..6 and is 6 exactly when documents are 0, the previous visa is No, the sponsor is 0, the proof is below 10000 and the visa is Research or Employment |
| FeatureEngineering.ScoreColumnIsRowRiskScore | src/feature_engineering.py:143-159 | with all five factor columns present, each row's accumulated score is its row risk score |
| FeatureEngineering.ScoreColumnStep | src/feature_engineering.py:146-159 | adding factor k's points column to the score after k factors gives the score after k + 1 factors |
| FeatureEngineering.AddFactor | src/feature_engineering.py:146-159 | one `+=` step: if the factor's column is present the score column advances by one factor, and otherwise the step fails with the frame unchanged |
| FeatureEngineering.CreateRiskScoreFeature | src/feature_engineering.py:134-174 | succeeds iff all five factor columns and `processing_time_days` are present; `risk_score` is set to the score after the factors present, and no other column changes |
| FeatureEngineering.EfficiencyByCrossMultiplication | src/feature_engineering.py:194-199 | for a positive expected time: Fast iff 0 < days and 5·days ≤ 4·expected, Normal iff 4·expected < 5·days ≤ 6·expected, Slow iff 5·days > 6·expected, no category iff days ≤ 0 |
| FeatureEngineering.ExpectedColumns | src/feature_engineering.py:185-191 | only `expected_processing_time` is added, one cell per row; a row's cell is present iff its visa type is a listed string, and is then that type's table entry |
| FeatureEngineering.EfficiencyColumns | src/feature_engineering.py:185-199 | only the three efficiency columns are added; per row the expected time is the table entry of the visa type (missing iff the type is unlisted), the ratio is days over it, and the category is the ratio's bin |
| FeatureEngineering.CreateProcessingEfficiencyFeature | src/feature_engineering.py:177-199 | succeeds iff `visa_type` and `processing_time_days` are present; without the days only the expected time has been added, and without the type nothing changes |
| DataPreprocessing.Unique | src/data_preprocessing.py:85 | the distinct values, each once, and no value not in the series |
| DataPreprocessing.SortedValues | src/data_preprocessing.py:86 | the distinct values in strictly increasing order |
| DataPreprocessing.LabelEncodeColumn | src/data_preprocessing.py:83-87 | the mapping has exactly the series' values as keys; the codes have the series' length and each is its value's mapping entry |
| DataPreprocessing.LabelMappingNumbersSortedValues | src/data_preprocessing.py:86 | the i-th sorted value gets code i |
| DataPreprocessing.LabelCodesAreRange | src/data_preprocessing.py:85-86 | the k distinct values receive exactly the codes 0..k-1 |
| DataPreprocessing.LabelMappingOrderPreserving | src/data_preprocessing.py:86 | a < b iff code(a) < code(b); distinct values get distinct codes |
| DataPreprocessing.LabelMappingOfSortedNames | src/data_preprocessing.py:86 | for any series whose values are a given sorted list, the mapping numbers that list 0..n-1 |
| DataPreprocessing.LabelEncodeRoundTrip | src/data_preprocessing.py:87 | decoding each code through the inverse mapping gives back the original value, row by row |
| DataPreprocessing.FillNa | src/data_preprocessing.py:68 | same length; present cells kept, missing cells become the fill value, and no null remains for a non-null fill |
| DataPreprocessing.FillListsDistinct | src/data_preprocessing.py:57-61 | the two column lists have no repeats and no column in common |
| DataPreprocessing.FillListedStep | src/data_preprocessing.py:64-77 | one loop iteration fills the next listed column exactly when it is present and has a null |
| DataPreprocessing.FillColumns | src/data_preprocessing.py:64-77 | the loop succeeds iff every listed present column with a null has a statistic, and then leaves the frame's columns as the fill specification of the listed columns; the row count is kept |
| DataPreprocessing.HandleMissingValues | src/data_preprocessing.py:47-80 | fails iff a categorical column is entirely missing (its mode does not exist); otherwise a fresh frame with the same rows holding the numeric columns filled with their median and the categorical ones with their mode; the input is untouched |
| DataPreprocessing.CleanedListedColumnsHaveNoNulls | src/data_preprocessing.py:64-77 | when cleaning succeeds, a listed column that is present has no nulls afterwards, given a non-null median and mode |
| DataPreprocessing.StatsExistStep | src/data_preprocessing.py:64-77 | the statistics exist for the first k + 1 listed columns iff they exist for the first k and for column k when it is present with a null |
| DataPreprocessing.AllMissingCategoricalFails | src/data_preprocessing.py:72-75 | a non-empty, entirely missing categorical column makes cleaning fail; if no categorical column has a null, cleaning succeeds |
| DataPreprocessing.CleanedChangesOnlyNulls | src/data_preprocessing.py:54-77 | the same columns and rows; no present cell changes; unlisted columns and columns without nulls are unchanged |
| DataPreprocessing.EducationOrderInOrder | src/data_preprocessing.py:101 | the ordinal codes number 10th Pass .. Doctorate as 0..4 |
| DataPreprocessing.MapCells | src/data_preprocessing.py:103 | a row's code is present iff its cell is a listed string, and is then that string's table entry |
| DataPreprocessing.LabelEncodedCells | src/data_preprocessing.py:113-114 | every row's code is the sorted-mapping entry of the row's text |
| DataPreprocessing.LabelColsWellFormed | src/data_preprocessing.py:108-109 | the label columns have no repeats, no `_encoded` name collides with a label column, and the education columns are not among them |
| DataPreprocessing.LabelStepAdds | src/data_preprocessing.py:112-114 | one turn adds the `_encoded` column of a present column, holding its codes, and changes nothing else |
| DataPreprocessing.LabelStepRecords | src/data_preprocessing.py:112-115 | one turn records the mapping of a present column and keeps every other recorded mapping |
| DataPreprocessing.LabelStepsAdds | src/data_preprocessing.py:111-115 | the loop adds exactly the `_encoded` columns of the present label columns; no other column changes |
| DataPreprocessing.LabelStepsCodes | src/data_preprocessing.py:111-115 | after the loop each present label column's `_encoded` column holds that column's codes |
| DataPreprocessing.LabelStepsRecordKeys | src/data_preprocessing.py:111-116 | the loop records a mapping for exactly the present label columns, on top of those already recorded |
| DataPreprocessing.LabelStepsEncodings | src/data_preprocessing.py:111-116 | the loop adds for each present label column its mapping and keeps the other encodings |
| DataPreprocessing.DummiesOneHot | src/data_preprocessing.py:119-121 | each dummy column has one cell per row, and on each row exactly the dummy of that row's visa type is true; none for a missing type |
| DataPreprocessing.EducationStepKeeps | src/data_preprocessing.py:101-105 | the ordinal step adds only `education_encoded` (when the education column is present) and leaves the label columns as they were |
| DataPreprocessing.LabelStepsAfterEducation | src/data_preprocessing.py:101-116 | after the ordinal step and the loop, the added columns are the ordinal column and the `_encoded` columns of the input's present label columns, each holding the input column's codes |
| DataPreprocessing.LabelledColumns | src/data_preprocessing.py:100-116 | before the one-hot step only the ordinal column and the `_encoded` columns have been added |
| DataPreprocessing.VisaTypeNotAdded | src/data_preprocessing.py:101-116 | neither the ordinal step nor the loop adds a column named `visa_type` |
| DataPreprocessing.OneHotAfter | src/data_preprocessing.py:119-121 | on a frame that kept the input's visa type column, the one-hot step appends the dummies of the input's visa types |
| DataPreprocessing.EncodedIsLabelledPlusDummies | src/data_preprocessing.py:100-121 | the encoded frame is the labelled frame with the visa type dummies of the input appended |
| DataPreprocessing.EncodedColumns | src/data_preprocessing.py:100-125 | the encoded frame is the input plus exactly the added columns; no input column changes; the dummy columns hold the dummies |
| DataPreprocessing.EducationEncodedColumn | src/data_preprocessing.py:101-104 | with an education column, `education_encoded` holds its ordinal codes |
| DataPreprocessing.LabelEncodedColumns | src/data_preprocessing.py:111-121 | each present label column's codes are in the result, unless a dummy has the same name (pandas then keeps both columns; the model keeps the dummy) |
| DataPreprocessing.EncodedMappings | src/data_preprocessing.py:98-116 | the encodings hold the ordinal table for education and the sorted mapping of each present label column, and nothing else |
| DataPreprocessing.MappingsAfterEducation | src/data_preprocessing.py:101-116 | the recorded mappings are the ordinal table under `education_level` when that column is present, and each present listed column's mapping, and nothing else |
| DataPreprocessing.LabelEncodeColumns | src/data_preprocessing.py:111-116 | the frame and encodings after the loop are the loop's specification applied to those before it; the row count is kept |
| DataPreprocessing.EncodeCategoricalVariables | src/data_preprocessing.py:90-125 | a fresh frame and encodings equal to the encoding of the input; the input is untouched |
| DataPreprocessing.StatusMapInOrder | src/data_preprocessing.py:145 | Rejected 0, Pending 1, Approved 2, and no other key |
| DataPreprocessing.Truncate | src/data_preprocessing.py:138 | truncation toward zero: the result is within one of the input on the side of zero |
| DataPreprocessing.TargetLabels | src/data_preprocessing.py:128-155 | succeeds iff the days column is present and castable and the status column is present; adds only `visa_status_encoded`; the cast days are whole and truncated toward zero; a status code is present iff the status is known, and is then its table code |
| Frontend.OrDefault | webapp/frontend/app.js:33-39 | the parsed number unless it is NaN or 0, else the default; never 0 for a non-zero default |
| Frontend.CollectFormData | webapp/frontend/app.js:27-40 | the age is sent as parsed; duration, visits, proof and month fall back to 30, 0, 15000 and 1; the texts and checkboxes are copied |
| Frontend.ZeroFieldsFallBack | webapp/frontend/app.js:34-35 | an entered proof of 0 is sent as 15000, an entered 0 visits as 0 |
| Frontend.GaugePercentage | webapp/frontend/app.js:106 | at most 100; at least 0 for a non-negative score; 100 from 5 on; 20·score up to 5 |
| Frontend.GaugeClass | webapp/frontend/app.js:110-117 | low iff score ≤ 1, medium iff 1 < score ≤ 3, high iff score > 3 |
| Frontend.RiskGauge.UpdateRiskGauge | webapp/frontend/app.js:103-118 | the width becomes the percentage; the colour classes are removed and exactly the score's class added, other classes kept |
| Frontend.RiskClass | webapp/frontend/app.js:150-154 | success iff Low, warning iff Medium, danger for anything else |
| Frontend.ApprovalClass | webapp/frontend/app.js:156-160 | success iff High, warning iff Medium, danger for anything else |
| Frontend.SpaceUnderscores | webapp/frontend/app.js:137 | same length; every `_` becomes a space and every other character is kept |
| Frontend.FactorLabel | webapp/frontend/app.js:127-137 | the table's label for a listed key, otherwise the key with spaces for underscores |
| Frontend.FactorElements | webapp/frontend/app.js:136-146 | one element per entry, in entry order |
| Frontend.FactorsContainer.DisplayFactors | webapp/frontend/app.js:121-147 | the container ends empty for absent factors and otherwise holds exactly one element per entry, in order |
| Frontend.FactorElementsShowBooleansAsYesNo | webapp/frontend/app.js:137-144 | a boolean shows as Yes or No, an unlisted key's label has no underscore, and every element has class `factor` |
| BackendApp.IntField | webapp/backend/app.py:46-57 | accepted iff absent with a default, or a whole number within the bounds; the value is the default or the number; Missing iff absent without a default |
| BackendApp.FloatField | webapp/backend/app.py:53 | accepted iff absent or a number at least the bound; the value is the default or the number |
| BackendApp.StrField | webapp/backend/app.py:47-50 | accepted iff absent with a default or a string; the value is the default or the string |
| BackendApp.BoolField | webapp/backend/app.py:54-56 | accepted iff absent or a boolean; the value is the default or the boolean |
| BackendApp.Validate | webapp/backend/app.py:44-57 | accepted iff the age, nationality and visa type are given and every given field has its declared kind and bounds (age 18..100, duration 1..365, visits ≥ 0, proof ≥ 0, month 1..12, whole numbers for the `int` fields); each accepted value is the one given, or the field's default (Professional, Graduate, 30, 0, 15000, false, true, false, 1) when absent; a rejection lists at least one error |
| BackendApp.ValidateDefaults | webapp/backend/app.py:44-57 | a body with only age, nationality and visa type is accepted with every other field at its declared default |
| BackendApp.AgeBounds | webapp/backend/app.py:46 | an accepted body carries the age as a whole number that becomes the application's age |
| BackendApp.OutOfBoundsRejected | webapp/backend/app.py:46-57 | an out-of-bounds age, duration or month is rejected with an error naming that field and the violated bound |
| BackendApp.NegativeAmountsRejected | webapp/backend/app.py:52-53 | a negative visit count or financial proof is rejected with a too-small error naming that field |
| BackendApp.PredictProcessingTime | webapp/backend/app.py:82-103 | 422 with the field errors for an invalid body; then 503 for a missing service; then 500 with the error text for a model failure; otherwise the service's answer to the validated application: its risk score, feature vector, level, approval, factors, and a peak flag set iff the month is 10..12 or 1..3 |
| SyntheticData.Clamp | src/generate_synthetic_data.py:189 | the result lies within the bounds and equals the input when the input is already within them |
| SyntheticData.VisaTypesHaveBaseDays | src/generate_synthetic_data.py:162-167 | every visa type has base days, at least 3 |
| SyntheticData.StatusFor | src/generate_synthetic_data.py:207-213 | Approved iff the draw is below the probability, Rejected iff at least the probability plus 0.05, Pending in between |
| SyntheticData.ProcessingDays | src/generate_synthetic_data.py:162-189 | the step-by-step days equal the clamp to [2, 45] of the base (or its express start) plus each delay that applies |
| SyntheticData.ApprovalProbability | src/generate_synthetic_data.py:192-205 | the step-by-step probability equals the clamp to [50, 95] hundredths of 82 plus each adjustment that applies |
| SyntheticData.GenerateRecord | src/generate_synthetic_data.py:57-237 | the record follows the rules for its number and draws, including its application ID |
| SyntheticData.GenerateVisaDataset | src/generate_synthetic_data.py:53-239 | exactly `num_records` records in order, each following the rules for its number, no two with the same ID |
| SyntheticData.AppendRecord | src/generate_synthetic_data.py:57-60 | appending the next record keeps every ID of the form `IND`+year+number and all IDs distinct |
| SyntheticData.RecordInvariants | src/generate_synthetic_data.py:68-134 | the days lie in [2, 45]; a No previous visa has 0 visits and a Yes has 1..8; a Student visa has occupation Student and age 17..35; the status is one of three |
| SyntheticData.ExpressStart | src/generate_synthetic_data.py:170-171 | express processing starts from max(2, base − 3), three days off any base of at least 5, and no express keeps the base |
| SyntheticData.PeakDelayOnlyForTouristsInPeak | src/generate_synthetic_data.py:184-185 | the peak delay draw changes the days only for a Tourist visa in months 10..12 or 1..3 |
| SyntheticData.ApprovalRange | src/generate_synthetic_data.py:192-205 | the unclamped probability lies in 57..98 hundredths, so the clamped one lies in 57..95 and only the upper clamp can apply |
| SyntheticData.ApplicationIdShape | src/generate_synthetic_data.py:59-60 | the ID is `IND`, the four digits of the year, then digits reading i + 1; it has 14 characters while i + 1 < 10^7 |
| SyntheticData.YearDigits | src/generate_synthetic_data.py:59 | a year in 2020..2024 is four digits reading back as the year |
| SyntheticData.PaddedDigits | src/generate_synthetic_data.py:60 | `str(n).zfill(w)` is at least w digits reading back as n, exactly w while n < 10^w |
| SyntheticData.ApplicationIdInjective | src/generate_synthetic_data.py:60 | different record numbers give different IDs, whatever the years |
| Util.ZFillShape | src/generate_synthetic_data.py:60 | `zfill` pads with zeros on the left up to the width and never shortens |
| CrossChecks.RiskScoresAgree | src/feature_engineering.py:143-159 | the training row score equals the service's score for the same applicant when "No" previous visa coincides with 0 visits |
| CrossChecks.GeneratedRecordsAgreeOnFirstVisit | src/generate_synthetic_data.py:131-134 | every generated record has a No previous visa exactly when it has 0 visits |
| CrossChecks.PeakTestsAgree | webapp/backend/prediction_service.py:90-93 | the service's peak test, the training season and the generator's peak months pick the same months |
| CrossChecks.VisaTypeTableIsLabelEncoding | webapp/backend/prediction_service.py:55-58 | label encoding any series of the generator's visa types gives exactly the service's visa-type table |
| CrossChecks.NationalityTableIsLabelEncoding | webapp/backend/prediction_service.py:61-67 | label encoding any series of the generator's countries gives exactly the service's nationality table |
| CrossChecks.OccupationTableIsLabelEncoding | webapp/backend/prediction_service.py:70-74 | label encoding any series of the generator's occupations gives exactly the service's occupation table |
| CrossChecks.EducationTablesAgree | webapp/backend/prediction_service.py:49-52 | the service's education table is the training ordinal table, which numbers the generator's levels in order |
| CrossChecks.ExpectedTimesAreBaseDays | src/feature_engineering.py:185-188 | the efficiency feature's expected times are the generator's base days |
| CrossChecks.PageClassesFollowLevels | webapp/frontend/app.js:110-117 | the risk and approval classes agree for every score, and the gauge class follows the risk level on whole scores |
| CrossChecks.PageDefaultsWithinServerBounds | webapp/frontend/app.js:33-39 | the page's fallbacks lie within the server's bounds and equal the defaults the server's validation gives an absent field, and an entered 0 proof is sent as 15000 where the server accepts 0 |

## Left out

- The machine-learning model, the scaler and their loading are foreign numeric code. The model's failure is an input (`modelError`) of `BackendApp.PredictProcessingTime`.
- The predicted days, the confidence margin and every `round(..., 1)` output are floating point and model output.
- The country and visa-type historical averages, `get_statistics` and every other pandas group mean or statistic are left out. The median and mode of the null filling are parameters.
- Floating point is not modelled. Cells and JavaScript numbers are exact reals, and the generator's approval probability is exact integer hundredths. The model therefore does not capture rounding in comparisons such as `0.82 - 0.25 < rand_val`.
- Text cells in numeric comparisons are modelled as absent. pandas' comparison of a string with a number is left out: a number test on a text cell is false in the model.
- Python's and JavaScript's number-to-text conversion is a parameter. It is used for `astype(str)` of numeric cells and for showing numeric factor values.
- FastAPI routing, CORS, static files and the startup hook are HTTP framework code. The uninitialised service is a null argument.
- Pydantic's lax coercions are only partly modelled, because pydantic's coercion tables are library behaviour. A whole-valued float such as 30.0 is accepted for an `int` field and 30.5 is rejected, as in pydantic. The model rejects every value that is not a JSON value of the field's own kind, where pydantic's lax mode accepts some of them: a numeric string "42" for a number field, a boolean for an `int` field, and 0/1 or "true" for a `bool` field.
- Only JSON numbers, strings, booleans and null are modelled in the request body.
- DOM access, `fetch`, alerts, loading toggles and `displayResults` are browser I/O. The gauge and the factor container are modelled by the fields these functions write.
- `Object.entries` order is modelled as the given order of the entries. JavaScript's reordering of integer-like keys is left out.
- `factorLabels[key]` for inherited prototype keys such as `constructor` is left out.
- `Frontend.DisplayValue`: a factor value that is not a boolean, number or string (an object or null) is not modelled.
- The random number generator itself is left out; its values are the `Draws` inputs. So are `introduce_missing_values`, CSV input and output, and the encoding-mapping file.
- The weighted choices (`np.random.choice` with `p=`) are modelled as a choice index. The weights only affect the distribution.
- Plotting, reports, EDA, model training and the demo script are left out.
- Column order in data frames is not modelled: a frame is a map from column name to cells. So the position of columns added by `pd.concat` is left out.
- `DataPreprocessing.TargetLabels`: `astype(int)` on a column with a missing cell raises in pandas. The model returns an error for such a column rather than a partially converted frame.
- `DataPreprocessing.TargetLabels`: pandas converts a text cell of digits such as "12" with `astype(int)`. The model rejects every text cell, so it fails where pandas would succeed for such a column.
- `FeatureEngineering.CreateRiskScoreFeature`: a missing factor column, or a missing `processing_time_days` in the final report, raises `KeyError` in pandas. The model reports failure and keeps the additions made up to that point, without modelling the exception.
- `FeatureEngineering.CreateSeasonalFeature`: a missing `processing_time_days` raises `KeyError` in the report after the two columns are added. The model reports failure and keeps the two columns.
- `FeatureEngineering.CreateProcessingEfficiencyFeature`: a missing `processing_time_days` raises `KeyError` in pandas after `expected_processing_time` is added. The model reports failure and keeps that column.
- `DataPreprocessing.HandleMissingValues`: `mode()[0]` on an entirely missing categorical column raises in pandas; the model reports failure (`ok` false) instead of the exception. The model also takes the chained `df_clean[col].fillna(..., inplace=True)` to update `df_clean`, as it does without pandas Copy-on-Write; under Copy-on-Write the fill changes only a temporary copy, and that behaviour is not modelled.
- `Frames.DataFrame.Concat`: `pd.concat(axis=1)` keeps both columns when a dummy's name equals an existing column (a visa type named `encoded` makes `visa_type_encoded`). A frame here is a map from names, so duplicate column labels are not modelled; the dummy column replaces the other one.
- `SyntheticData.GenerateVisaDataset`: the default `num_records=2000` is not modelled; the count is always a parameter.
