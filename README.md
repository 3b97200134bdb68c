# ModelWhiz frontend logic, modelled in Dafny

ModelWhiz is a Next.js front end for uploading machine-learning models, evaluating them on a
dataset and comparing the results. This project models the logic under its pages and
components, and proves properties about that model:

- the form validators and the sign-up checks;
- the error normalisation pipeline from an HTTP failure to a toast;
- the environment configuration;
- the upload wizard, the dashboard's filtering, best model and statistics;
- the evaluation history page;
- the metric grading and chart-data builders;
- the model comparison;
- the model card;
- the memoisation and timing utilities.

There is one module per source file, plus `Common`. `Common` holds:

- the JavaScript notions the components rely on: truthiness of strings, `||` fallbacks,
  `trim` with the ECMAScript whitespace set, `.length` in UTF-16 code units, ASCII lower-casing,
  `includes`, `filter` and `map`;
- metric values, modelled as a finite number, NaN or null, with an absent key being a key not
  in the map;
- the `Model` record;
- `Collect`, which models a run of `push` calls on one array, with the lemmas that turn such a
  run into a filter followed by a map.

How each kind of source code is modelled:

- **Pure helpers** are functions with lemmas about them.
- **Code that builds a local array by `push`** is a method with the array as an out-parameter,
  proved equal to a specification function.
- **Component state that handlers update** (`useState` setters) is a class whose methods
  change its fields. Network calls, the clock and `JSON.stringify` become parameters or opaque
  outcome values.

## Model

| member | source | states |
|---|---|---|
| Common.OrElse | src/lib/errorHandler.ts:28-29 | `a \|\| fallback` on an optional string: `a` when it is present and non-empty, else the fallback |
| Common.TrimStartShape | src/utils/validation.ts:11 | `trimStart` removes exactly a whitespace prefix, and what remains does not start with whitespace |
| Common.TrimEndShape | src/utils/validation.ts:11 | `trimEnd` removes exactly a whitespace suffix, and what remains does not end with whitespace |
| Common.TrimShape | src/utils/validation.ts:11 | `trim` leaves a slice of the input between an all-whitespace prefix and suffix; the slice neither starts nor ends with whitespace |
| Common.TrimEmptyIffAllSpace | src/utils/validation.ts:11 | a string trims to empty exactly when every character is whitespace, which is what `!s.trim()` tests |
| Common.TrimIdempotent | src/utils/validation.ts:55 | trimming twice gives the same string as trimming once |
| Common.JsLength | src/utils/validation.ts:29 | `.length` is at least the number of code points, and equal to it when no character lies outside the Basic Multilingual Plane |
| Common.ToLower | src/utils/validation.ts:91 | `toLowerCase` keeps the length and maps each character by ASCII lower-casing |
| Common.NatToString | src/components/UploadContent.tsx:90 | the decimal form of a job id is a non-empty string of digits |
| Common.Filter | src/components/CompareClient.tsx:162 | `filter` keeps only elements that satisfy the predicate, and keeps every element that does |
| Common.FilterAppend | src/components/CompareClient.tsx:162 | filtering distributes over concatenation, so it keeps the input's order |
| Common.MapSeq | src/components/ModelComparisonChart.tsx:54 | `map` gives one result per element, the i-th being `f` of the i-th element |
| Common.CollectIsFilterMap | src/components/CurrentMetricsChart.tsx:183-194 | a run of calls that each push `f(k)` when `p(k)` holds, and nothing otherwise, leaves `map(f)` of the keys satisfying `p`, in order |
| Common.CollectEmptyIff | src/components/CurrentMetricsChart.tsx:280 | a run of pushes leaves an empty array exactly when no call pushes anything |
| Common.CollectLength | src/components/CurrentMetricsChart.tsx:196-206 | calls that push at most one item each leave at most one item per call |
| Common.NumberOrZero | src/components/ModelComparisonChart.tsx:59-60 | a valid number passes through; NaN, null or an absent value becomes 0 |
| Common.ComparedMetrics | src/components/CompareClient.tsx:166-169 | the compared keys are [rmse, r2_score] for regression and [accuracy, f1_score, auc] otherwise |
| Validation.IndexOf | src/utils/validation.ts:13 | the first position of a character, or none when it does not occur |
| Validation.EmailPatternCorrect | src/utils/validation.ts:13 | the executable matcher accepts exactly the strings the email regular expression matches: no `@` or whitespace before one `@`, then text containing a `.` with text after it |
| Validation.EmailPatternSound | src/utils/validation.ts:13 | every string the matcher accepts has the regular expression's three-segment shape |
| Validation.EmailPatternComplete | src/utils/validation.ts:13 | every split of the regular expression's shape is accepted by the matcher |
| Validation.ValidateEmail | src/utils/validation.ts:8-21 | at most one error; a blank email gives exactly "Email is required"; a non-blank email is valid iff the untrimmed text matches the pattern; valid iff there are no errors |
| Validation.ValidatePassword | src/utils/validation.ts:23-50 | the empty password gives only "Password is required"; otherwise the failing checks' messages in order, at most five; valid iff all five checks pass |
| Validation.FailingMembers | src/utils/validation.ts:29-43 | every failed check contributes its message, and every message comes from a failed check |
| Validation.FailingEmptyIff | src/utils/validation.ts:29-43 | no message at all exactly when every check passes |
| Validation.FailingLength | src/utils/validation.ts:29-43 | at most one message per check |
| Validation.ValidateModelName | src/utils/validation.ts:52-67 | at most one error; valid iff the trimmed length is between 2 and 100 inclusive; blank gives the required message; a trimmed length of 1 gives the too-short message; over 100 gives the too-long message |
| Validation.ValidateTargetColumn | src/utils/validation.ts:69-82 | at most one error; valid iff the trimmed name is a letter or `_` followed by letters, digits or `_`; blank gives the required message and anything else invalid gives the format message |
| Validation.LastSegment | src/utils/validation.ts:91 | `split('.').pop()` is the suffix after the last dot, itself free of dots |
| Validation.LastSegmentOfDotted | src/utils/validation.ts:91 | a name `base.ext` with a dot-free `ext` has `ext` as its last segment |
| Validation.ExtensionOf | src/utils/validation.ts:91 | the extension is `.` plus the lower-cased last segment, and the whole name when it has no dot |
| Validation.ValidateFile | src/utils/validation.ts:84-107 | no file gives only "File is required"; otherwise the type error comes before the size error, and both can occur; valid iff the file is present, its type is accepted and its size is within the limit |
| Validation.DefaultSizeLimit | src/utils/validation.ts:84-97 | the default limit is 10 × 1024 × 1024 bytes |
| Validation.ValidateForm | src/utils/validation.ts:109-115 | valid iff every input has no errors, iff the combined list is empty |
| Validation.AllErrorsEmpty | src/utils/validation.ts:110 | the flattened error list is empty exactly when every input's list is empty |
| Validation.ValidateFormAppend | src/utils/validation.ts:110 | the combined errors are the inputs' errors concatenated in order |
| ErrorHandler.HandleApiError | src/lib/errorHandler.ts:24-47 | with a response, the status code is the response status, the message is detail, then message, then "Server error occurred", and the code is the server's or "SERVER_ERROR"; a request without a response gives NETWORK_ERROR with status 0; otherwise UNKNOWN_ERROR with no status; every result has a non-empty message and code |
| ErrorHandler.ServerAndClientExclusive | src/lib/errorHandler.ts:63-69 | no error is both a server and a client error, and neither holds without a non-zero status |
| ErrorHandler.ResponseClassification | src/lib/errorHandler.ts:24-32 | for a response, server iff status ≥ 500, client iff 400 ≤ status < 500, network iff status 0 or a server-sent NETWORK_ERROR code |
| ErrorHandler.NoResponseClassification | src/lib/errorHandler.ts:33-46 | without a response, the result is a network error exactly when a request was sent, and it is never a server or client error |
| ErrorHandler.NetworkCodeWithServerStatus | src/lib/errorHandler.ts:27-32 | a 503 response whose body sets code NETWORK_ERROR is a network error and a server error at once |
| UseErrorHandler.Normalize | src/hooks/useErrorHandler.ts:12-24 | an input with a truthy message and a truthy code or status passes through unchanged; an `Error` keeps its message with UNKNOWN_ERROR; anything else gets the generic message with UNKNOWN_ERROR |
| UseErrorHandler.ToastFor | src/hooks/useErrorHandler.ts:27-38 | network first (Connection Error, warning), then server (Server Error, error), then client (Request Error, warning), else Error with status error |
| UseErrorHandler.HandleError | src/hooks/useErrorHandler.ts:7-44 | the toast's title and status follow the chain applied to the normalised error, and its description is always that error's message |
| UseErrorHandler.ApiErrorsPassThrough | src/hooks/useErrorHandler.ts:12-13 | an error produced by `handleApiError` is passed through unchanged |
| UseErrorHandler.ToastForApiErrors | src/hooks/useErrorHandler.ts:27-38 | the toast chosen for each kind of failed request: no response gives Connection Error; no request gives Error; responses are classified by status |
| Environment.GetValidatedEnv | src/config/environment.ts:12-50 | fails only in production; a built configuration carries the resolved mode |
| Environment.UnsetNodeEnvIsDevelopment | src/config/environment.ts:14 | an unset or empty NODE_ENV is development, and never fails |
| Environment.ProductionRequiresBothUrls | src/config/environment.ts:32-39 | in production a missing API URL fails first, then a missing asset URL; it succeeds iff both are given |
| Environment.UrlResolution | src/config/environment.ts:19-20 | outside production a missing URL gets the localhost default in development and "" in any other mode, and a given URL is used as it is |
| Environment.ProvidedUrlsVerbatim | src/config/environment.ts:41-48 | a given non-empty URL is used verbatim |
| Environment.ModeFlags | src/config/environment.ts:45-47 | each flag holds iff the mode equals its literal, so at most one holds |
| Signup.GetPasswordStrength | src/app/signup/page.tsx:54-62 | the score is the number of satisfied criteria among length ≥ 8, lower, upper, digit and non-alphanumeric; 5 iff all hold and 0 iff none does |
| Signup.CountTrue | src/app/signup/page.tsx:55-61 | a count of satisfied criteria never exceeds the number of criteria |
| Signup.StrengthMatchesValidator | src/app/signup/page.tsx:54-62 | for a non-empty password, the strength plus the number of `validatePassword` errors is 5 |
| Signup.CountTruePlusFailing | src/app/signup/page.tsx:54-62 | passed checks plus failed-check messages add up to the number of checks |
| Signup.StrengthBuckets | src/app/signup/page.tsx:65-66 | strength ≤ 2 is red/Weak, 3 orange/Fair, 4 yellow/Good, 5 green/Strong |
| Signup.FullNameError | src/app/signup/page.tsx:72-76 | the full name errors iff its trimmed length is below 2 |
| Signup.EmailErrorMeaning | src/app/signup/page.tsx:78-82 | the email errors iff it is blank or does not match the pattern; blank gives "Email is required" |
| Signup.PasswordError | src/app/signup/page.tsx:84-90 | a password is accepted iff it is non-empty, has length ≥ 8 and strength ≥ 3 |
| Signup.ConfirmError | src/app/signup/page.tsx:92-96 | the confirmation errors iff it is empty or differs from the password |
| Signup.SignupErrors | src/app/signup/page.tsx:69-100 | at most one message per field, each present exactly when that field's check fails |
| Signup.SignupAccepted | src/app/signup/page.tsx:98-99 | the error map is empty iff all four fields pass |
| Signup.CheckFullName | src/app/signup/page.tsx:72-76 | the full-name step adds its message, or nothing |
| Signup.CheckEmail | src/app/signup/page.tsx:78-82 | the email step adds its message, or nothing |
| Signup.CheckPassword | src/app/signup/page.tsx:84-90 | the password step adds its message, or nothing |
| Signup.CheckConfirmPassword | src/app/signup/page.tsx:92-96 | the confirmation step adds its message, or nothing |
| Signup.SignupPage.constructor | src/app/signup/page.tsx:35-42 | empty fields, no errors, not loading, nothing sent |
| Signup.SignupPage.ValidateForm | src/app/signup/page.tsx:69-100 | stores the error map and returns true iff it is empty |
| Signup.SignupPage.HandleSignup | src/app/signup/page.tsx:102-140 | a failing form sends nothing and changes nothing else; a passing form sends one sign-up request, shows the outcome's toast, routes to /login only on success, and ends not loading |
| Signup.SignupPage.Submit | src/app/signup/page.tsx:105-139 | the submission after a passing form: one request, the outcome's toast, /login only on success, and loading off at the end |
| Signup.SignupToast | src/app/signup/page.tsx:119-136 | a success toast exactly on success, with the "Account created successfully!" title and the verify-your-email description; a failure is an error toast titled "Signup failed" whose description is the error's message, or "Something went wrong. Please try again." when it has none; the description is never empty |
| Upload.CanProceedToStep2 | src/components/UploadContent.tsx:118-121 | holds iff a model file is set, the trimmed name is non-empty, the preprocessor question is answered, and "yes" comes with a preprocessor file |
| Upload.CanStartEvaluation | src/components/UploadContent.tsx:123-125 | holds iff a dataset file is set and the trimmed target column is non-empty |
| Upload.UploadErrorMessage | src/components/UploadContent.tsx:94-102 | detail when present, else the error's message, else a thrown string itself, else the default text |
| Upload.UploadWizard.constructor | src/components/UploadContent.tsx:46-56 | step 1, nothing chosen, empty name and target column, splitting on, no error |
| Upload.UploadWizard.HandleStep1Next | src/components/UploadContent.tsx:127-131 | moves to step 2 exactly when step 1 is complete, else leaves the step; the step stays in {1, 2} |
| Upload.UploadWizard.HandleStep2Back | src/components/UploadContent.tsx:133-135 | returns to step 1 |
| Upload.UploadWizard.ChooseNoPreprocessor | src/components/UploadContent.tsx:286 | answering "No" clears the preprocessor file |
| Upload.UploadWizard.ChooseYesPreprocessor | src/components/UploadContent.tsx:296 | answering "Yes" records the choice |
| Upload.UploadFailedToast | src/components/UploadContent.tsx:106-112 | the failure toast is an error toast titled "❌ Upload Failed" whose description is the message shown on the page |
| Upload.UploadWizard.HandleUpload | src/components/UploadContent.tsx:63-116 | a missing user id, model file or dataset file sets the error and sends nothing and shows no toast; otherwise one request with the trimmed fields, then the job's route and the "🚀 Evaluation Started!" toast on success, or the error message on the page and in the "❌ Upload Failed" toast on failure; uploading is off on every path |
| Compare.ValueOf | src/components/CompareClient.tsx:298-299 | `?? 0`: a missing model, a missing metrics object, a missing key or a null value is 0; a number is kept, NaN included |
| Compare.MetricWinner | src/components/CompareClient.tsx:300-303 | A iff A beats B, B iff B beats A, else Tie; lower wins for rmse and higher for every other metric |
| Compare.WinnerSwap | src/components/CompareClient.tsx:298-303 | swapping the two values swaps the winner |
| Compare.TieCases | src/components/CompareClient.tsx:300-303 | equal values tie, and any comparison with NaN ties |
| Compare.Tally | src/components/CompareClient.tsx:325-338 | the loop counts each side's metric wins, and the two counts add up to at most the number of metrics |
| Compare.Overall | src/components/CompareClient.tsx:340 | A iff A has more wins, and a tie iff the counts are equal |
| Compare.WinsSwap | src/components/CompareClient.tsx:325-338 | swapping the models swaps the two counts |
| Compare.OverallSwap | src/components/CompareClient.tsx:325-340 | swapping the models swaps the overall winner |
| Compare.SelfComparisonTies | src/components/CompareClient.tsx:325-338 | a model compared with itself wins nothing on either side |
| Compare.SelectableModels | src/components/CompareClient.tsx:162 | exactly the models of the active task type |
| Compare.SelectableModelsAppend | src/components/CompareClient.tsx:162 | the selection keeps the list's order |
| Compare.ComparePage.constructor | src/components/CompareClient.tsx:142-146 | the initial models, the classification tab and no selection |
| Compare.ComparePage.MetricConfig | src/components/CompareClient.tsx:166-169 | the keys compared for the active tab |
| Compare.ComparePage.SwitchTaskType | src/components/CompareClient.tsx:164 | switching the tab clears both selections |
| Compare.FindById | src/components/CompareClient.tsx:210 | `models.find(...) \|\| null`: none exactly when no model has the id, otherwise the first model that has it |
| Compare.ChosenId | src/components/CompareClient.tsx:207-215 | the placeholder's value `""` is read as `Number("") == 0`; a model's option gives its id |
| Compare.ChoosingSelectableModel | src/components/CompareClient.tsx:162-215 | with distinct ids, the option of a selectable model selects that very model, so the selection has the active task type even though the lookup searches all models |
| Compare.PlaceholderClears | src/components/CompareClient.tsx:207-210 | choosing the placeholder clears the selection exactly when no model has id 0 |
| Compare.ComparePage.SelectModelA | src/components/CompareClient.tsx:207-215 | model A becomes the first model, of all models, with the chosen id, or none; with distinct ids an option from the list selects a model of the active task type; the placeholder clears the selection when no model has id 0 |
| Compare.ComparePage.SelectModelB | src/components/CompareClient.tsx:217-225 | model B becomes the first model, of all models, with the chosen id, or none; with distinct ids an option from the list selects a model of the active task type; the placeholder clears the selection when no model has id 0 |
| Compare.ComparePage.OverallWinner | src/components/CompareClient.tsx:325-340 | the overall card is the overall winner of the tally over the active tab's keys |
| Dashboard.TaskFilteredModels | src/components/DashboardContent.tsx:110-115 | a sub-list that keeps exactly the models of the active type whose name contains the search term case-insensitively |
| Dashboard.TaskFilteredModelsAppend | src/components/DashboardContent.tsx:110-115 | filtering keeps the list's order |
| Dashboard.EmptySearchKeepsNamed | src/components/DashboardContent.tsx:114 | an empty search keeps every model with a non-empty name |
| Dashboard.Score | src/components/DashboardContent.tsx:123-125 | accuracy for classification and r2_score for regression, with anything invalid or missing counting as 0 |
| Dashboard.BestModelIsFirstMaximum | src/components/DashboardContent.tsx:130-139 | the best model is in the list, scores at least as high as every other, and beats every earlier model strictly, so ties go to the earliest |
| Dashboard.BestScoreIsMaximum | src/components/DashboardContent.tsx:130-139 | no model scores above the best model |
| Dashboard.BestFromInvariant | src/components/DashboardContent.tsx:130-139 | the reduce keeps the invariant that its accumulator is the first maximum of the prefix seen so far |
| Dashboard.DashboardStats | src/components/DashboardContent.tsx:118-142 | an empty list gives 0, 0 and no best model; otherwise the count, the mean score and the best model |
| Dashboard.AverageAtMostBest | src/components/DashboardContent.tsx:128-139 | the average score never exceeds the best model's score |
| Dashboard.SumAtMost | src/components/DashboardContent.tsx:122-127 | a sum of scores that are each at most `b` is at most n·b |
| Dashboard.ModelsOf | src/components/DashboardContent.tsx:79-86 | `items` when it is an array, else the body when it is an array, else the empty list |
| Dashboard.FetchErrorMessage | src/components/DashboardContent.tsx:87-96 | the response's detail, else the error's message, else "An unexpected error occurred." |
| Dashboard.DashboardState.constructor | src/components/DashboardContent.tsx:61-65 | initial models when they are an array, else empty; regression tab, empty search |
| Dashboard.EffectiveUserId | src/components/DashboardContent.tsx:68 | the id passed in when it is non-empty, else the signed-in user's; there is an id exactly when either is non-empty |
| Dashboard.DashboardState.FetchModels | src/components/DashboardContent.tsx:68-100 | when neither the passed nor the signed-in user id is non-empty, only the error is set and nothing is requested; otherwise one request for the effective id, which is the passed one whenever it is non-empty, then the response's models and no error, or an empty list and the error message; loading is off on every path |
| Dashboard.DashboardState.CurrentStats | src/components/DashboardContent.tsx:118-142 | the statistics count the filtered models and are all zero when none match |
| Evaluations.WithStatus | src/app/dashboard/evaluations/page.tsx:185-189 | exactly the jobs with the given status |
| Evaluations.Counts | src/app/dashboard/evaluations/page.tsx:185-189 | each counter is at most the total |
| Evaluations.CountsAddUp | src/app/dashboard/evaluations/page.tsx:49 | the four status counters add up to the total, since a job has one of exactly four statuses |
| Evaluations.SuccessRate | src/app/dashboard/evaluations/page.tsx:190 | 0 without jobs, and always between 0 and 100 |
| Evaluations.StatusBadge | src/app/dashboard/evaluations/page.tsx:54-81 | each status gets its colour scheme and icon, and the `.50`/`.200` shades of that scheme |
| Evaluations.BadgesDistinct | src/app/dashboard/evaluations/page.tsx:54-81 | different statuses never share a colour scheme or an icon |
| Evaluations.RenderContent | src/app/dashboard/evaluations/page.tsx:211-265 | the first matching case wins: loading, then an error, then an empty list, then the table |
| Evaluations.EvaluationsPage.constructor | src/app/dashboard/evaluations/page.tsx:158-160 | the page starts loading with no jobs, so it shows the skeleton |
| Evaluations.EvaluationsPage.FetchJobs | src/app/dashboard/evaluations/page.tsx:163-180 | without a user id the error is set and nothing is requested; otherwise one request whose jobs or error message are stored; loading is off on every path |
| Evaluations.EvaluationsPage.Content | src/app/dashboard/evaluations/page.tsx:211-265 | a finished load with an error shows that error |
| Evaluations.FailedFetchShowsError | src/app/dashboard/evaluations/page.tsx:174-176 | after a failed or refused fetch the page shows the error card with that message |
| MetricsChart.PerformanceLevel | src/components/CurrentMetricsChart.tsx:118-149 | classification bands 0.9/0.8/0.7; r2 bands 0.95/0.85/0.7; rmse, mae and mse graded lower-is-better on their own thresholds; names lower-cased; unknown exactly for an unrecognised regression metric; the colour follows the level |
| MetricsChart.HigherIsBetter | src/components/CurrentMetricsChart.tsx:121-125 | for classification and r2 a higher value never gets a worse level |
| MetricsChart.LowerIsBetter | src/components/CurrentMetricsChart.tsx:126-140 | for rmse, mae and mse a larger value never gets a better level |
| MetricsChart.CaseInsensitive | src/components/CurrentMetricsChart.tsx:120 | grading a name is grading its lower-cased form |
| MetricsChart.IsRegression | src/components/CurrentMetricsChart.tsx:173-176 | regression iff the metrics exist and have an `rmse` key |
| MetricsChart.ChartKeys | src/components/CurrentMetricsChart.tsx:196-206 | four keys starting with rmse for regression, five for classification |
| MetricsChart.PointForMeaning | src/components/CurrentMetricsChart.tsx:183-194 | a present key's point shows a valid value as it is and anything else as 0, graded on its metric's scale |
| MetricsChart.PointsArePresentKeys | src/components/CurrentMetricsChart.tsx:183-206 | the chart holds the points of exactly the present keys, in key order, at most one per key |
| MetricsChart.PointsEmptyIff | src/components/CurrentMetricsChart.tsx:183-206 | no point exactly when none of the keys is present |
| MetricsChart.AddMetric | src/components/CurrentMetricsChart.tsx:183-194 | appends a valid value, 0 for a present invalid value, and nothing for an absent key |
| MetricsChart.ChartData | src/components/CurrentMetricsChart.tsx:178-208 | nothing without metrics, otherwise the points of the task's key list in order |
| MetricsChart.RegressionChartStartsWithRmse | src/components/CurrentMetricsChart.tsx:196-200 | a regression chart starts with its RMSE bar |
| MetricsChart.Render | src/components/CurrentMetricsChart.tsx:275-293 | null metrics render nothing, and an empty chart the disabled "No Metrics Available" button |
| MetricsChart.NoMetricsButtonIff | src/components/CurrentMetricsChart.tsx:280-293 | the disabled button appears exactly when none of the task's keys is present |
| MetricsChart.Clamp | src/components/CurrentMetricsChart.tsx:232 | the radar r2 value is clamped into [0, 1] and kept when it is already inside |
| MetricsChart.RadarKeys | src/components/CurrentMetricsChart.tsx:231-241 | regression: r2 clamped, then rmse and mae inverted; classification: five values as they are |
| MetricsChart.RadarPointsAreValidKeys | src/components/CurrentMetricsChart.tsx:221-230 | the radar shows exactly the keys with a valid number, in order, each with its normalised and original value |
| MetricsChart.RegressionRadarInUnit | src/components/CurrentMetricsChart.tsx:232-234 | every exact value on a regression radar lies in [0, 1] |
| MetricsChart.AddRadarMetric | src/components/CurrentMetricsChart.tsx:221-230 | appends the normalised point for a valid number and nothing otherwise |
| MetricsChart.RadarData | src/components/CurrentMetricsChart.tsx:216-243 | nothing without metrics, otherwise the radar points of the task's key list |
| MetricsInline.InlineKeys | src/components/CurrentMetricsInline.tsx:69-76 | [rmse, r2_score] for regression and [accuracy, f1_score, auc] otherwise |
| MetricsInline.PointsAreValidKeys | src/components/CurrentMetricsInline.tsx:60-76 | the chart holds the points of exactly the keys with a non-NaN number, in key order |
| MetricsInline.PointsHoldStoredValues | src/components/CurrentMetricsInline.tsx:60-67 | every point carries a value stored under one of the keys, with that key's name and colour; invalid values are skipped, never zeroed |
| MetricsInline.PointsEmptyIff | src/components/CurrentMetricsInline.tsx:57-78 | no point exactly when none of the keys holds a valid number |
| MetricsInline.AddMetric | src/components/CurrentMetricsInline.tsx:60-67 | appends a valid number and nothing otherwise |
| MetricsInline.ChartData | src/components/CurrentMetricsInline.tsx:55-78 | the points of the key list chosen by the `rmse` key, at most one per key |
| MetricsInline.Render | src/components/CurrentMetricsInline.tsx:44-94 | null metrics give "No metrics available", an empty chart the "No valid metrics" error, else the chart titled by task |
| MetricsInline.NoValidMetricsIff | src/components/CurrentMetricsInline.tsx:80-89 | the error branch appears exactly when none of the task's keys holds a valid number |
| PairCharts.ChartIsRegression | src/components/ModelComparisonChart.tsx:45 | regression is decided by the first model's task type alone |
| PairCharts.Validated | src/components/ModelComparisonChart.tsx:59-60 | a non-NaN number passes through, and anything else, an absent value included, becomes 0 |
| PairCharts.Rows | src/components/ModelComparisonChart.tsx:53-72 | one row per compared metric, in order, with its label and both models' validated values |
| PairCharts.RowCaptions | src/components/ModelRadarChart.tsx:44-47 | the rows are RMSE and R² Score for regression, and Accuracy, F1 Score and AUC otherwise |
| PairCharts.RowsSwap | src/components/ModelRadarChart.tsx:50-69 | exchanging two models of the same task type exchanges the two values of every row |
| PairCharts.RowsAgreeWithTable | src/components/ModelRadarChart.tsx:56-57 | outside NaN the charted value is the one the comparison table compares; a NaN is charted at 0 while the table calls that metric a tie |
| PairCharts.Render | src/components/ModelComparisonChart.tsx:74-78 | the fallback appears exactly when there are no rows |
| PairCharts.FallbackNeverShown | src/components/ModelRadarChart.tsx:71-75 | there are always at least two rows, so the fallback never appears |
| ModelCard.IsRegression | src/components/ModelCard.tsx:87-89 | regression iff the metrics have an `rmse` key or the task type is regression |
| ModelCard.CardRegressionCoversChart | src/components/ModelCard.tsx:87-89 | the card counts a model as regression whenever its metrics chart does |
| ModelCard.CardAndChartCanDisagree | src/components/ModelCard.tsx:87-89 | a regression model without `rmse` gets a regression card and a classification chart |
| ModelCard.PerformanceScore | src/components/ModelCard.tsx:92-97 | r2_score for regression and accuracy otherwise, a missing or falsy value giving 0 |
| ModelCard.PerformanceColor | src/components/ModelCard.tsx:100-105 | green from 0.9, blue from 0.8, orange from 0.7, else red |
| ModelCard.PerformanceColorMonotone | src/components/ModelCard.tsx:100-105 | a higher score never gets a worse colour |
| ModelCard.ModelCardState.constructor | src/components/ModelCard.tsx:82-83 | not deleting and the dialog closed |
| ModelCard.ModelCardState.OpenDialog | src/components/ModelCard.tsx:268 | the delete icon opens the dialog |
| ModelCard.ModelCardState.CloseDialog | src/components/ModelCard.tsx:412 | Cancel closes the dialog |
| ModelCard.ModelCardState.HandleDelete | src/components/ModelCard.tsx:177-205 | one delete request; the list is refreshed only on success; the success or failure toast is shown; deleting stops and the dialog closes on every path |
| Performance.KeyFor | src/lib/performance.ts:107 | the key is `getKey(args)` when a key function is given, else the serialised arguments |
| Performance.Memo | src/lib/performance.ts:106-116 | a hit returns the stored result and keeps the cache; a miss returns `func(args)` and adds exactly its key; no stored entry changes |
| Performance.MemoRepeat | src/lib/performance.ts:109-111 | after a call, any call with an equal key returns the same result and leaves the cache as it is |
| Performance.MemoFaithful | src/lib/performance.ts:106-116 | when the key function tells arguments apart, a memoised call returns exactly `func(args)` and the cache stays faithful to `func` |
| Performance.Memoized.constructor | src/lib/performance.ts:100-104 | the wrapper starts with an empty cache |
| Performance.Memoized.Call | src/lib/performance.ts:106-116 | `func` runs only on a miss, once, and its result is stored under the key |
| Performance.PerformanceMonitor.StartTimer | src/lib/performance.ts:143-145 | the timer captures the label and the start time |
| Performance.PerformanceMonitor.Stop | src/lib/performance.ts:145-156 | exactly one duration is appended to the timer's label, every other label is unchanged, and a duration over 100 ms is reported slow |
| Performance.Min | src/lib/performance.ts:167 | the least element of a non-empty list |
| Performance.Max | src/lib/performance.ts:168 | the greatest element of a non-empty list |
| Performance.PerformanceMonitor.constructor | src/lib/performance.ts:134 | a new monitor has no labels |
| Performance.Summarize | src/lib/performance.ts:159-171 | all zeros for no durations; otherwise the count, a minimum and a maximum taken from the list with min ≤ max, and the mean |
| Performance.PerformanceMonitor.GetMetrics | src/lib/performance.ts:159-163 | an unknown or empty label gives all zeros, and the count is the label's number of durations |
| Performance.PerformanceMonitor.ClearMetrics | src/lib/performance.ts:173-175 | every label is forgotten, so every summary is zero |
| Performance.MonitorRegistry.GetInstance | src/lib/performance.ts:136-141 | the stored monitor is returned, and it is created empty only on the first call |
| Performance.MonitorRegistry.GetInstanceTwice | src/lib/performance.ts:136-141 | two calls return the same monitor |
| Performance.ShouldComponentUpdate | src/lib/performance.ts:195-201 | true iff some listed key differs between the two props, and false for an empty key list |
| Performance.SameListedPropsNoUpdate | src/lib/performance.ts:195-201 | props that agree on every listed key never ask for an update |

## Left out

- Rendering is not modelled: JSX, Chakra UI, recharts, framer-motion, routing beyond the route each handler sets, and the colour-mode lookup tables of the model card.
- Network and authentication calls are opaque outcome values passed to the handlers: the axios client, the sign-up call, model deletion and evaluation start.
- The axios response interceptor (src/lib/apiClient.ts) is not part of this model. It rejects with a plain `AppError` object, so the dashboard's `instanceof` checks never recognise an API failure. `Dashboard.FetchErrorMessage` models the catch block as written, over a thrown value that is already classified.
- Toasts are recorded as `Common.Toast` values, and the error hook returns its toast's title, status and description. Their duration, position and closability are not modelled.
- Console warnings are not modelled.
- Timers are not modelled: debounce, throttle and the simulated chart loading delay.
- Browser and DOM APIs are not modelled: IntersectionObserver, `caches`, image lazy loading and navigation timing.
- Dates are not modelled: formatDate, formatUploadTime and the recent-jobs list depend on the clock and the locale.
- Numbers are exact reals, not IEEE-754 doubles. Averages and the success rate are exact quotients, and `toFixed` output is not modelled.
- MetricsChart.RadarValue: the radar's `1 / (1 + x)` is kept symbolic rather than evaluated.
- Performance.Summarize: the mean is an exact quotient, and nothing is proved about where it lies.
- `toLowerCase` is modelled for ASCII letters only, so no other script is case-folded.
- Common.MetricValue: a metric value that is a string or a boolean is modelled as null. The checks `typeof v === 'number'` do reject such a value, but the source keeps a non-empty string or `true` under `|| 0` and under `?? 0` and compares it after coercion to a number, where the model counts 0.
- ErrorHandler.ResponseData: the response body's `detail`, `message` and `code` are optional strings, while the source reads them from an untyped body. A list-valued `detail`, such as a list of validation errors, is truthy even when empty and is passed on as the message; the model cannot express it, and `HandleApiError`'s non-empty message rests on this narrowing.
- Validation.ValidateFile: `maxSizeMB` is a natural number, while the source takes any number, so fractional and negative limits are not modelled.
- Performance.ShouldComponentUpdate: `!==` is modelled as inequality of values. Object identity and `NaN !== NaN` are not modelled.
- Performance.Memoized: `JSON.stringify` is a function passed to the constructor. The arguments are one value rather than a rest list.
- Performance.MonitorRegistry: the static `instance` field is an object the caller holds.
- The upload wizard's training-file picker and its field are not modelled, since `handleUpload` never sends them.
- Signup error-map keys are the `Signup.Field` datatype, not the source's strings.
- The page shells and React glue are not modelled: the mock auth context, error boundaries, navigation and the loading components.
- The results poller is not part of this model.
- A null response body in `fetchModels` is not modelled: `ModelsOf` takes an array or an object.
- ErrorHandler.NetworkCodeWithServerStatus: "every NETWORK_ERROR result is neither a server nor a client error" does not hold when a server sends that code with a 5xx status. `NoResponseClassification` proves it for the requests that got no response.
