# Employee performance prediction: a verified model of the backend validator, the batch-job table and the mock API

This project models, in Dafny, the decision logic of an employee-performance
prediction service:

- the Flask backend (`backend/app/routes.py`):
  - the request validator: `validate_date`, `validate_numeric` and the
    field-by-field `validate_input`;
  - the feature encoding `prepare_model_input`;
  - the three-band classifier `get_productivity_category`;
  - the batch-job table, a dictionary from batch id to job. `create_batch`
    inserts a queued job, `process_batch` runs it, and
    `get_batch_status` and `download_batch_result` answer from the table.
- the Next.js development mock (`frontend/app/api/mock/route.ts`):
  - the synthetic score `calculateMockProductivity`;
  - the four-band classifier `getProductivityCategory`;
  - the batch status read off the id;
  - the path dispatch of `GET` and `POST`.

Modules, one per concern:

| file | module | what it holds |
|---|---|---|
| `wrappers.dfy` | `Wrappers` | `Option` |
| `strings.dfy` | `Strings` | prefix, suffix and substring tests, `split(" ")`, `'; '.join`, the last path segment, decimal digits |
| `py_runtime.dfy` | `PyRuntime` | the values a field can hold, Python exceptions as results (`Outcome`), `float(...)`, `int(...)` of a float and of a string |
| `dates.dfy` | `Dates` | `datetime.strptime(s, "%Y-%m-%d")`, date order, `weekday()` |
| `validation.dfy` | `Validation` | `validate_date`, `validate_numeric`, `validate_input` |
| `model_input.dfy` | `ModelInput` | `prepare_model_input`, `get_productivity_category` |
| `batch_jobs.dfy` | `BatchJobs` | the row loop of `process_batch`, and the class `JobTable` for `batch_jobs` |
| `mock_route.dfy` | `MockRoute` | the mock route handlers and helpers |

Python exceptions that no local handler catches are modelled as
values (`Outcome.Raise`) so that their effect can be stated. There are four:
- `strptime` of a value that is not a string raises `TypeError`;
- `float(None)` raises `TypeError`;
- `.startswith` on a non-string team raises `AttributeError`;
- `int(...)` of a team suffix that is not a number raises `ValueError`.

In `process_batch` such an exception ends the whole batch as failed, with the
exception's message. A CSV file with at least one row and no `date` column
makes the batch fail (`BatchJobs.MissingDateColumnFails`), because pandas gives `None`
for the missing cell.

`validate_input` is written as the source writes it: eleven blocks, each
appending one message or storing one value (`Validation.ValidateInput`). It is
proved equal to a fold over the eleven field checks (`Validation.Validate`),
and the properties are proved about the fold. The row loop of `process_batch`
is a `while` loop (`BatchJobs.ProcessRows`), proved equal to a recursive
definition that its lemmas describe. The job table is a class whose methods
update maps; its invariant `Valid` ties each job's optional keys to its
status.

The environment is passed in as parameters:
- the clock (`date.today()`, `datetime.now()`);
- the uuid of a new batch and the path its upload is saved under;
- the model (`model.predict(...)[0]`, a function from feature rows to a real);
- the URL `url_for` builds, or the message of the exception it raises;
- the failure message when writing a file raises;
- `Math.random()`: a draw in [0, 1) for the score, and the id suffix for a mock batch.

Notes on the behaviour modelled:
- The backend and the mock classify differently. The backend has three bands
  with inclusive upper bounds 0.3 and 0.8. The mock has four bands with
  strict bounds 0.3, 0.6 and 0.8. Both are modelled as written, and
  `MockRoute.ClassifiersDisagree` shows they differ at 0.3 and at 0.8.
- `create_batch` answers `"status": "processing"` with code 202, while the
  job it stores is `queued` until `process_batch` runs.
- The quarter feature is `month // 3 + 1`, so it is 5 for December. It is
  kept as written.
- The mock's random factor is `0.9 + Math.random() * 0.2`, with
  `Math.random()` in [0, 1), so the factor lies in [0.9, 1.1) and the worked
  example (three hours of overtime, full target) ends in [0.648, 0.792).
- `process_batch` writes the results sheet before it calls `url_for`. It runs
  in a worker thread under an application context without a request, and
  `backend/app/app.py` configures no `SERVER_NAME`. In that setting Flask's
  `url_for` raises `RuntimeError`, which is outside this model. So the model
  takes whether `url_for` raises as a parameter (`urlFailure`). When it
  raises, the job ends failed while its sheet is already in the results
  folder (`BatchJobs.RunBatch`, `BatchJobs.JobTable.ProcessBatch`).

## Model

| member | source | states |
|---|---|---|
| Dates.ParseIsoDate | backend/app/routes.py:39 | strptime with `%Y-%m-%d` accepts only real calendar dates (years 1 to 9999), and only strings of 8 to 10 characters |
| Dates.ParseIsoDateSpells | backend/app/routes.py:39 | a string strptime accepts is a spelling of the date it returns: four year digits, '-', a two-digit or (before October) one-digit month, '-', and a two-digit day or, for days 1 to 9, one digit alone or after a space, with nothing after it |
| Dates.SpellingParses | backend/app/routes.py:39 | every such spelling of a valid date is read as that date |
| Dates.TrailingDataRejected | backend/app/routes.py:39 | text after a full YYYY-MM-DD date is rejected (unconverted data) |
| Dates.ParseIsoFormat | backend/app/routes.py:39 | every date written YYYY-MM-DD is read back as itself |
| Dates.Weekday | backend/app/routes.py:271 | `weekday()` lies in 0..6 |
| Dates.NextDay | backend/app/routes.py:271 | the day after a valid date (up to 9999-12-30) is a valid date, and later |
| Dates.OrdinalNextDay | backend/app/routes.py:271 | the next day, also across month and year ends of leap and common years, has the next ordinal and the next weekday |
| Dates.NewYear | backend/app/routes.py:271 | 31 December and the next 1 January have consecutive ordinals |
| Dates.DaysBeforeDecember | backend/app/routes.py:271 | the days before December are 334, or 335 in a leap year |
| Dates.YearDays | backend/app/routes.py:271 | the days before year y+1 exceed those before year y by 366 in a leap year and 365 otherwise |
| Dates.WeekdayAnchor | backend/app/routes.py:271 | 2024-01-01 is a Monday (weekday 0) |
| PyRuntime.Float | backend/app/routes.py:49 | `float` keeps a number, reads a string as the decimal it writes and raises ValueError on any other string, and raises TypeError exactly on None |
| PyRuntime.Trunc | backend/app/routes.py:151 | `int(x)` truncates toward zero: within one of `x`, on the side of zero |
| PyRuntime.IntValueShowInt | backend/app/routes.py:274 | `int(str(i)) == i` |
| PyRuntime.IntValue | backend/app/routes.py:274 | `int(s)` of a string reads only a non-empty string; a leading '-' gives a value at most 0, any other start a value at least 0 |
| PyRuntime.DecimalValue | backend/app/routes.py:49 | `float(s)` of a string reads only a non-empty string; a leading '-' gives a value at most 0, any other start a value at least 0 |
| PyRuntime.DecimalValueShowInt | backend/app/routes.py:49 | `float(str(i)) == i` |
| Validation.ValidateDate | backend/app/routes.py:37-45 | an unparseable string gives the format message; a parsed date after today gives "Date cannot be in the future"; a parsed date on or before today is accepted as that date; an accepted date parses and is not after today; a non-string raises, and only TypeError, which the `except ValueError` does not catch |
| Validation.ValidateIsoDate | backend/app/routes.py:37-45 | a date written YYYY-MM-DD is accepted exactly when it is not after today |
| Validation.ValidateNumeric | backend/app/routes.py:47-59 | below the minimum gives "must be at least"; otherwise above the maximum gives "cannot exceed"; otherwise the value `float(v)` is accepted; a non-number gives "must be a number"; an accepted value is `float(v)` and lies within both bounds; None raises |
| Validation.ValidateNumericBounds | backend/app/routes.py:47-59 | any value `float` can read (a real number or a decimal string) is accepted, as that number, exactly when the number lies within the bounds, and is rejected otherwise |
| Validation.ValidateNumericIntString | backend/app/routes.py:47-59 | a whole number is judged the same whether it arrives as a number or as its decimal string |
| Validation.CheckChoice | backend/app/routes.py:76-84 | a choice is accepted exactly when it is a string in the list, and is stored unchanged |
| Validation.CheckTeam | backend/app/routes.py:86-94 | a team is accepted exactly when it starts with "Team "; a non-string raises |
| Validation.CheckField | backend/app/routes.py:66-173 | a check raises only on a present key, with AttributeError for the team and TypeError for every other field; a ValueError never escapes |
| Validation.CheckFieldAccepted | backend/app/routes.py:61-175 | every accepted value has its field's kind and lies within its field's bounds |
| Validation.CheckFieldMissing | backend/app/routes.py:72-73 | a missing field is rejected with its "… is required" message |
| Validation.Validate | backend/app/routes.py:61-175 | valid iff no errors; errors plus stored values number exactly eleven; at most eleven errors; a valid result holds all eleven fields, well formed |
| Validation.CollectReturns | backend/app/routes.py:61-175 | the field run ends without an exception iff no check raised |
| Validation.CollectCount | backend/app/routes.py:61-175 | each field leaves exactly one message or one value, and only field names are stored |
| Validation.CollectField | backend/app/routes.py:61-175 | a field is stored iff its check accepted it, with the accepted value; otherwise its message is in the errors |
| Validation.RaisePersists | backend/app/routes.py:61-175 | once a field check raises, the validator ends with that exception |
| Validation.ValidateField | backend/app/routes.py:61-175 | field by field: stored iff accepted, with the accepted value, else its message is among the errors |
| Validation.ValidateRaises | backend/app/routes.py:61-175 | validate_input raises exactly when some field check raises |
| Validation.MissingFieldRequired | backend/app/routes.py:72-73 | a missing key yields its "… is required" error and no stored value |
| Validation.DepartmentAccepted | backend/app/routes.py:78 | department is stored iff it is one of Sewing, Finishing, Cutting, QC |
| Validation.IncentiveAccepted | backend/app/routes.py:128 | incentive level is stored iff it is one of None, Low, Standard, High |
| Validation.TeamAccepted | backend/app/routes.py:88 | team is stored iff it is a string starting with "Team " |
| Validation.NumericBounds | backend/app/routes.py:96-171 | stored targeted productivity is in [0,150], overtime in [0,8], SMV and idle time at least 0, idle men and style changes at least 0, workers at least 1 |
| Validation.DateAccepted | backend/app/routes.py:66-73 | the date is stored iff it parses and is not after today |
| Validation.ValidateInput | backend/app/routes.py:61-175 | the eleven blocks in order compute exactly the fold `Validate` |
| Validation.DateBlock | backend/app/routes.py:65-73 | the date block takes the date field's turn |
| Validation.ChoiceBlock | backend/app/routes.py:75-84 | the department and incentive blocks take their field's turn |
| Validation.TeamBlock | backend/app/routes.py:85-94 | the team block takes the team field's turn |
| Validation.NumericBlock | backend/app/routes.py:95-104 | each validate_numeric block takes its field's turn, storing `int(value)` for the three counts |
| ModelInput.DepartmentCode | backend/app/routes.py:267-268 | Finishing is 0 and every other department 1 |
| ModelInput.IncentiveCode | backend/app/routes.py:277-278 | a listed level maps to its position None 0, Low 1, Standard 2, High 3; any other maps to 2 |
| ModelInput.TeamNumber | backend/app/routes.py:274 | the team number is an integer or the ValueError of `int(...)` |
| ModelInput.PrepareModelInput | backend/app/routes.py:258-297 | one row of thirteen features; it raises (ValueError) exactly when the team number does not parse |
| ModelInput.FeatureEncoding | backend/app/routes.py:263-295 | quarter is `month // 3 + 1`; department and incentive codes as trained; day is weekday+1 in 1..7; team is `TeamNumber` of the team; overtime is `int(hours)`, whole hours in 0..8; targeted productivity, SMV, idle time, idle men, style changes and workers are the validated values; month in 1..12 |
| ModelInput.QuarterBands | backend/app/routes.py:263 | the quarter is 1 for January–February, 2 for March–May, 3 for June–August, 4 for September–November and 5 for December |
| ModelInput.TeamNumberShowInt | backend/app/routes.py:274 | "Team n", possibly followed by a space and more words, encodes as n |
| ModelInput.TeamWithoutNumber | backend/app/routes.py:274 | a team whose second word is not an integer makes the encoding raise ValueError |
| ModelInput.ProductivityCategory | backend/app/routes.py:299-306 | p ≤ 0.3 is below average, 0.3 < p ≤ 0.8 medium, p > 0.8 high, each band iff its condition |
| ModelInput.CategoryMonotone | backend/app/routes.py:299-306 | a higher prediction never falls in a lower band |
| BatchJobs.RowData | backend/app/routes.py:326-338 | exactly the eleven keys, each the row's cell or None |
| BatchJobs.ProcessRow | backend/app/routes.py:324-360 | a result row keeps its input row; no prediction iff category "Invalid input data" iff errors are present |
| BatchJobs.InvalidRowReported | backend/app/routes.py:354-360 | an invalid row gets no prediction, category "Invalid input data", and its errors (at least one) joined with "; " |
| BatchJobs.ValidRowPredicted | backend/app/routes.py:343-353 | a valid row gets the model's prediction and that prediction's category |
| BatchJobs.MissingDateColumnRaises | backend/app/routes.py:326-341 | a row without a date cell raises TypeError in validation |
| BatchJobs.RunRows | backend/app/routes.py:324-361 | a finished row loop has one result per row; only a non-empty file can raise |
| BatchJobs.RunRowsOnePerRow | backend/app/routes.py:324-360 | exactly one result row per input row, in order, each the result of its own row |
| BatchJobs.RunRowsRaises | backend/app/routes.py:324-360 | the row loop raises exactly when some row raises |
| BatchJobs.RunRowsFirstRaise | backend/app/routes.py:324-360 | a raising row loop raises the exception of a row before which every row returned |
| BatchJobs.RunRowsStep | backend/app/routes.py:324-361 | the loop over one more row is the loop so far followed by that row's outcome |
| BatchJobs.ProcessOneRow | backend/app/routes.py:325-361 | the loop body (record, validation, then prediction or joined errors) computes the row's outcome |
| BatchJobs.ProcessRows | backend/app/routes.py:324-360 | the `for` loop over rows computes the row-loop definition |
| BatchJobs.RunBatch | backend/app/routes.py:313-377 | a run completes iff the file reads, no row raises, the sheet saves and `url_for` does not raise; otherwise it crashes with the message: the reader's, the first raising row's, or the save failure's when the rows ran and writing the sheet raised; the sheet is saved iff the rows ran and writing did not raise, so a raising `url_for` leaves a saved sheet |
| BatchJobs.RunUpload | backend/app/routes.py:313-368 | the body of the `try` computes `RunBatch` |
| BatchJobs.RunBatchOnePerRow | backend/app/routes.py:324-367 | a saved sheet holds one result row per CSV row |
| BatchJobs.MissingDateColumnFails | backend/app/routes.py:324-377 | a file with a row lacking the date column makes the batch fail, with no sheet saved |
| BatchJobs.Finished | backend/app/routes.py:370-377 | completed sets `results_url`; failed sets `error`; the path and creation time are kept |
| BatchJobs.CreateReply | backend/app/routes.py:429-480 | 500 without a model, 400 with no file, no file name or no `.csv` suffix, 500 when saving fails, otherwise 202 "processing"; accepted iff all checks pass |
| BatchJobs.JobTable.constructor | backend/app/routes.py:34 | the table starts empty, and consistent |
| BatchJobs.JobTable.CreateBatch | backend/app/routes.py:429-480 | on acceptance exactly one queued job is inserted and the upload saved; otherwise nothing changes; consistency is kept |
| BatchJobs.JobTable.Uploaded | backend/app/routes.py:318 | a saved upload reads as its content, a missing file as an error |
| BatchJobs.JobTable.ProcessBatch | backend/app/routes.py:308-377 | the job ends completed (with its URL and saved sheet) or failed (with the message); the results folder gains the sheet whenever it was written, failed or not; nothing else in the table changes; consistency is kept |
| BatchJobs.JobTable.GetBatchStatus | backend/app/routes.py:482-503 | 404 iff unknown; otherwise the id and status; `results_url` only when completed, `error` only when failed |
| BatchJobs.JobTable.DownloadBatchResult | backend/app/routes.py:505-526 | 404 when unknown, 400 unless completed, 404 "Results file not found" when completed but not saved, the file iff completed and saved, under `employee_performance_batch_<id>.xlsx` |
| BatchJobs.JobTable.StatusReportsOutcome | backend/app/routes.py:496-501 | in a consistent table a completed job reports its URL, a failed one its error, others neither |
| BatchJobs.JobTable.CompletedDownloads | backend/app/routes.py:508-514 | in a consistent table every completed job can be downloaded |
| MockRoute.RandomFactor | frontend/app/api/mock/route.ts:106 | the random factor lies in [0.9, 1.1) |
| MockRoute.Clamp01 | frontend/app/api/mock/route.ts:109 | the clamp lies in [0,1] and keeps values already there |
| MockRoute.MockProductivity | frontend/app/api/mock/route.ts:92-110 | the mock score lies in [0,1] |
| MockRoute.CalculateMockProductivity | frontend/app/api/mock/route.ts:92-110 | the `*=` steps compute the mock score, which lies in [0,1] |
| MockRoute.Adjusted | frontend/app/api/mock/route.ts:97-103 | before the random factor the score has the target's sign: a positive target gives a positive score, any other target a score of at most 0 |
| MockRoute.AdjustedScales | frontend/app/api/mock/route.ts:97-104 | before the random factor the score is the target times a positive multiplier |
| MockRoute.OvertimePenalty | frontend/app/api/mock/route.ts:100 | overtime lowers the score iff it exceeds 2 hours, and then by the factor 0.9 |
| MockRoute.IdlePenalty | frontend/app/api/mock/route.ts:101 | idle time lowers the score iff it exceeds 60 minutes, and then by the factor 0.85 |
| MockRoute.StylePenalty | frontend/app/api/mock/route.ts:102 | style changes lower the score iff there are more than 3, and then by the factor 0.9 |
| MockRoute.IncentiveBonus | frontend/app/api/mock/route.ts:103 | the incentive raises the score iff it is "High", and then by the factor 1.15 |
| MockRoute.AdjustedMonotone | frontend/app/api/mock/route.ts:97-104 | before the random factor a higher target never lowers the score |
| MockRoute.MockMonotone | frontend/app/api/mock/route.ts:92-110 | a higher target never lowers the mock score for the same draw |
| MockRoute.MockZero | frontend/app/api/mock/route.ts:92-110 | the mock score is 0 iff the target is not positive |
| MockRoute.OvertimeExample | frontend/app/api/mock/route.ts:92-110 | full target with three hours of overtime gives a score in [0.648, 0.792) |
| MockRoute.MockCategory | frontend/app/api/mock/route.ts:113-118 | below 0.3 low, [0.3,0.6) medium, [0.6,0.8) productive, from 0.8 highly productive, each band iff its condition |
| MockRoute.MockCategoryMonotone | frontend/app/api/mock/route.ts:113-118 | a higher score never falls in a lower band |
| MockRoute.ClassifiersDisagree | frontend/app/api/mock/route.ts:114-117 | at 0.3 and 0.8 the backend puts a score in the lower band and the mock in the upper |
| MockRoute.MockStatus | frontend/app/api/mock/route.ts:30-34 | completed iff the id contains "completed"; failed iff it contains "failed" but not "completed"; else processing |
| MockRoute.Get | frontend/app/api/mock/route.ts:6-45 | departments path gives the four departments; 404 iff no route matches; a path containing "/api/batch/" that ends with no earlier route gets a batch status; a batch status carries the path's last segment as id and that id's mock status, with a results URL iff completed |
| MockRoute.GetTeams | frontend/app/api/mock/route.ts:16-18 | the teams path gives the three mock teams |
| MockRoute.GetHealth | frontend/app/api/mock/route.ts:20-23 | a path ending with "/health" gets the empty 200 reply |
| MockRoute.GetBatch | frontend/app/api/mock/route.ts:26-41 | `/api/batch/<id>`, for every slash-free id but "health" (which the health check answers), gives the id's mock status and a URL iff completed |
| MockRoute.BatchPathNotRoutes | frontend/app/api/mock/route.ts:11-23 | a batch path ends with neither metadata route, nor with "/health" unless its id is "health" |
| MockRoute.Post | frontend/app/api/mock/route.ts:48-89 | 404 iff neither route matches; on the predict path a parsed body gives a prediction and an unreadable one 400 "Invalid request data"; the batch path gives a created batch; a prediction carries the mock score, its category and four placeholder charts |
| MockRoute.PostBatch | frontend/app/api/mock/route.ts:80-85 | a batch upload gets status "processing" and an id starting "mock-batch-id-" |
| Strings.TeamSecondField | backend/app/routes.py:274 | for a team starting "Team ", `split(" ")[1]` is the text up to the next space |
| Strings.Join | backend/app/routes.py:360 | `sep.join` of one part is that part; of two or more, the first part, the separator, then the join of the rest; joining parts of which one is non-empty gives a non-empty string |
| Strings.SplitSpace | backend/app/routes.py:274 | `split(" ")` gives at least one field, the first being the text before the first space |
| Strings.LastSegment | frontend/app/api/mock/route.ts:27 | `split("/").pop()` is a slash-free suffix of the path, preceded by a slash |

## Left out

- `predict` and `health_check`: these routes are not modelled.
  The prediction route adds plotting to the same validation and encoding.
- `generate_visualizations`: matplotlib plotting and base64 image encoding are not modelled.
- `list_departments` and `list_teams`: constant responses, not modelled.
- The model: loading the pickled model and `model.predict` are a foreign ML model, passed in as a function.
- The clock, `uuid4` and `Math.random`: passed in as parameters.
  One `today` serves a whole batch, so a run that crosses midnight is not modelled.
- pandas: reading the CSV is abstracted as a list of rows (a map from column to cell) or the reader's error message.
  pandas' NA parsing is not modelled: from pandas 2.0, `read_csv` by default reads cells such as "None", "NA" and "null" as NaN,
  so a CSV `incentive_level` of "None" becomes NaN and is reported "Invalid incentive level" on the batch path,
  where the JSON path accepts it; the rows are a parameter, so the model states no contract about that conversion.
  Writing the Excel sheet is a stored list of result rows, plus an optional failure message.
- `secure_filename`, `os.path`, `url_for` and `send_from_directory`: the upload path and the results URL are opaque parameters.
  Whether `url_for` raises is a parameter too; Flask's URL building is not modelled.
  The folders are maps.
- `threading.Thread`: `process_batch` runs sequentially on the table.
  Interleavings with status requests are not modelled.
- Floats and NaN: numbers are real numbers, with no IEEE rounding, infinities or NaN.
  A NaN cell that pandas reads for an empty CSV cell is not modelled. It passes every bound check in the source,
  because every comparison with NaN is false. The `int(value)` of a count (backend/app/routes.py:151, 161 and 171) and the
  `int(over_time_hours)` of `prepare_model_input` then raise ValueError on NaN, so an empty count or overtime
  cell fails the whole batch; an empty cell of another numeric field reaches the model as NaN.
- JSON values other than strings, numbers and null: booleans, lists and objects are not modelled.
- PyRuntime.Float: reads only an optional sign and a plain decimal.
  It does not model exponents, surrounding whitespace, underscores, "inf"/"nan" or non-ASCII digits, which CPython accepts.
- PyRuntime.IntValue: reads only an optional sign and ASCII digits.
  It does not model the surrounding whitespace, underscores or non-ASCII decimal digits that `int()` accepts.
- Dates.ParseIsoDate: the `\d` of strptime's pattern is read as an ASCII digit.
  Python's `\d` also matches other Unicode decimal digits, which are not modelled.
- Exception messages follow CPython's wording; they are not guaranteed character for character.
- ModelInput.PrepareModelInput: requires validated, well-formed data, which is all its callers pass.
  The `hasattr`/`isinstance` fallbacks (quarter 1, the current month, day 1, team 1) are therefore not reachable and not modelled.
- BatchJobs.JobTable.ProcessBatch: requires the job to exist, as `create_batch` guarantees.
  The model does not capture the `KeyError` that an unknown id would raise from the `except` clause.
- MockRoute.PredictionInput: fields missing from the JSON body, which JavaScript turns into `undefined` and `NaN`, are not modelled.
  A body that fails to parse is the `None` case.
- MockRoute.Post: the id suffix `Math.random().toString(36).substring(2, 10)` is an opaque parameter.
- frontend `lib/api.ts` and the React components: network fetch wrappers and UI, not part of this model.
