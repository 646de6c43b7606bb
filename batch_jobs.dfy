/**
 * The batch-job routes of backend/app/routes.py. The module-level dictionary
 * `batch_jobs` is a table of jobs keyed by batch id; `create_batch` inserts a
 * queued job, `process_batch` runs it to completed or failed, and
 * `get_batch_status` and `download_batch_result` answer from the table.
 * The upload and results folders are maps from path (or batch id) to content,
 * the model is a function from feature rows to a prediction, and the clock,
 * the id generator and the URL builder are parameters.
 */
module BatchJobs {
  import opened Wrappers
  import opened Strings
  import opened PyRuntime
  import opened Dates
  import opened Validation
  import opened ModelInput

  datatype JobStatus = Queued | Processing | Completed | Failed

  /** The `status` string stored in a job. */
  function StatusName(s: JobStatus): string
  {
    match s
    case Queued => "queued"
    case Processing => "processing"
    case Completed => "completed"
    case Failed => "failed"
  }

  /** One entry of `batch_jobs`; `results_url` and `error` are keys that may be absent. */
  datatype Job = Job(status: JobStatus, filePath: string, createdAt: string,
                     resultsUrl: Option<string>, error: Option<string>)

  /** A CSV row: the cell under each column the file has. */
  type Row = map<string, Value>

  /** What `pd.read_csv` gives for a file: its rows, or the message of the exception it raises. */
  datatype CsvContent = Table(rows: seq<Row>) | Unreadable(message: string)

  /** An uploaded file: `file.filename` and what the file holds. */
  datatype Upload = Upload(filename: string, content: CsvContent)

  /** A row of the results sheet: the input row with the columns process_batch adds. */
  datatype ResultRow = ResultRow(row: Row, actualProductivity: Option<real>, category: string, errors: Option<string>)

  /** An HTTP response of the batch routes. */
  datatype Reply =
    | ErrorReply(code: int, message: string)
    | BatchAccepted(batchId: string, status: string)
    | StatusReply(batchId: string, status: string, resultsUrl: Option<string>, error: Option<string>)
    | FileReply(rows: seq<ResultRow>, downloadName: string)

  function Code(r: Reply): int
  {
    match r
    case ErrorReply(code, _) => code
    case BatchAccepted(_, _) => 202
    case _ => 200
  }

  const InvalidCategory := "Invalid input data"

  /** The record process_batch builds from a row: `row.get(key)` for each of the eleven keys. */
  function RowData(row: Row): (data: map<string, Value>)
    ensures forall k :: 0 <= k < NumFields ==> FieldNames[k] in data
    ensures forall key :: key in data ==> key in FieldNames
    ensures forall key :: key in data && key in row ==> data[key] == row[key]
    ensures forall key :: key in data && key !in row ==> data[key] == Null
  {
    map key | key in FieldNames :: if key in row then row[key] else Null
  }

  /**
   * One turn of the row loop: a valid row gets the prediction and its
   * category, an invalid one the category "Invalid input data" and its
   * messages joined with "; "; an exception ends the batch.
   */
  function ProcessRow(row: Row, today: Date, predict: seq<seq<real>> -> real): (r: Outcome<ResultRow>)
    ensures r.Return? ==> r.value.row == row
    ensures r.Return? ==> (r.value.actualProductivity.None? <==> r.value.category == InvalidCategory)
    ensures r.Return? ==> (r.value.errors.Some? <==> r.value.category == InvalidCategory)
  {
    match Validate(RowData(row), today)
    case Raise(e) => Raise(e)
    case Return(v) =>
      if v.isValid then
        match PrepareModelInput(v.validated)
        case Raise(e) => Raise(e)
        case Return(features) =>
          var productivity := predict(features);
          Return(ResultRow(row, Some(productivity), ProductivityCategory(productivity), None))
      else
        Return(ResultRow(row, None, InvalidCategory, Some(Join(v.errors, "; "))))
  }

  /** An invalid row is kept with its messages and no prediction. */
  lemma InvalidRowReported(row: Row, today: Date, predict: seq<seq<real>> -> real)
    requires Validate(RowData(row), today).Return? && !Validate(RowData(row), today).value.isValid
    ensures var v := Validate(RowData(row), today).value;
      ProcessRow(row, today, predict) == Return(ResultRow(row, None, InvalidCategory, Some(Join(v.errors, "; "))))
    ensures |Validate(RowData(row), today).value.errors| >= 1
  {
  }

  /** A valid row whose features encode is kept with the model's prediction and its band. */
  lemma ValidRowPredicted(row: Row, today: Date, predict: seq<seq<real>> -> real)
    requires Validate(RowData(row), today).Return? && Validate(RowData(row), today).value.isValid
    requires PrepareModelInput(Validate(RowData(row), today).value.validated).Return?
    ensures var p := predict(PrepareModelInput(Validate(RowData(row), today).value.validated).value);
      && ProcessRow(row, today, predict) == Return(ResultRow(row, Some(p), ProductivityCategory(p), None))
      && ProcessRow(row, today, predict).value.category != InvalidCategory
  {
  }

  /** A row without a `date` column gives `strptime(None, ...)`, whose TypeError ends the batch. */
  lemma MissingDateColumnRaises(row: Row, today: Date, predict: seq<seq<real>> -> real)
    requires "date" !in row
    ensures ProcessRow(row, today, predict).Raise?
    ensures ProcessRow(row, today, predict).error.TypeError?
  {
    var data := RowData(row);
    assert data["date"] == Null;
    assert CheckField(0, data, today).Raise? && CheckField(0, data, today).error.TypeError?;
    var checks := FieldChecks(data, today);
    FieldNamesDistinct();
    assert Collect(FieldNames, checks, 1) == Raise(CheckField(0, data, today).error);
    RaisePersists(FieldNames, checks, 1, NumFields);
    assert Validate(data, today) == Raise(CheckField(0, data, today).error);
  }

  /** The row loop: the result rows in order, or the first exception. */
  function RunRows(rows: seq<Row>, today: Date, predict: seq<seq<real>> -> real): (r: Outcome<seq<ResultRow>>)
    ensures r.Return? ==> |r.value| == |rows|
    ensures r.Raise? ==> rows != []
    decreases |rows|
  {
    if rows == [] then Return([])
    else
      match RunRows(rows[..|rows| - 1], today, predict)
      case Raise(e) => Raise(e)
      case Return(done) =>
        match ProcessRow(rows[|rows| - 1], today, predict)
        case Raise(e) => Raise(e)
        case Return(r) => Return(done + [r])
  }

  /** Exactly one result row per input row, each the result of its own row. */
  lemma {:induction false} RunRowsOnePerRow(rows: seq<Row>, today: Date, predict: seq<seq<real>> -> real)
    requires RunRows(rows, today, predict).Return?
    ensures var out := RunRows(rows, today, predict).value;
      && |out| == |rows|
      && forall i :: 0 <= i < |rows| ==> ProcessRow(rows[i], today, predict) == Return(out[i])
    decreases |rows|
  {
    if rows != [] {
      var init := rows[..|rows| - 1];
      RunRowsOnePerRow(init, today, predict);
      var out := RunRows(rows, today, predict).value;
      var done := RunRows(init, today, predict).value;
      var last := ProcessRow(rows[|rows| - 1], today, predict);
      assert last.Return? && out == done + [last.value];
      ExtendResults(rows, today, predict, done, last.value);
    }
  }

  /** Appending the last row's result to the results of the rows before it. */
  lemma ExtendResults(rows: seq<Row>, today: Date, predict: seq<seq<real>> -> real, done: seq<ResultRow>, last: ResultRow)
    requires |rows| == |done| + 1
    requires forall i :: 0 <= i < |done| ==> ProcessRow(rows[..|rows| - 1][i], today, predict) == Return(done[i])
    requires ProcessRow(rows[|rows| - 1], today, predict) == Return(last)
    ensures forall i :: 0 <= i < |rows| ==> ProcessRow(rows[i], today, predict) == Return((done + [last])[i])
  {
    forall i | 0 <= i < |rows|
      ensures ProcessRow(rows[i], today, predict) == Return((done + [last])[i]) {
      if i < |done| {
        assert rows[i] == rows[..|rows| - 1][i];
      }
    }
  }

  /** The loop raises exactly when some row raises. */
  lemma {:induction false} RunRowsRaises(rows: seq<Row>, today: Date, predict: seq<seq<real>> -> real)
    ensures RunRows(rows, today, predict).Raise? <==>
      exists i :: 0 <= i < |rows| && ProcessRow(rows[i], today, predict).Raise?
    decreases |rows|
  {
    if rows != [] {
      var init := rows[..|rows| - 1];
      RunRowsRaises(init, today, predict);
      if exists i :: 0 <= i < |init| && ProcessRow(init[i], today, predict).Raise? {
        var i :| 0 <= i < |init| && ProcessRow(init[i], today, predict).Raise?;
        assert rows[i] == init[i];
      }
      if exists i :: 0 <= i < |rows| && ProcessRow(rows[i], today, predict).Raise? {
        var i :| 0 <= i < |rows| && ProcessRow(rows[i], today, predict).Raise?;
        if i < |rows| - 1 {
          assert init[i] == rows[i];
        }
      }
    }
  }

  /** Row `i` raises `e` and every row before it returns. */
  predicate FirstRaiseAt(rows: seq<Row>, i: int, e: PyError, today: Date, predict: seq<seq<real>> -> real)
  {
    && 0 <= i < |rows| && ProcessRow(rows[i], today, predict) == Raise(e)
    && forall j :: 0 <= j < i ==> ProcessRow(rows[j], today, predict).Return?
  }

  /** A raising loop raises the exception of its first raising row. */
  lemma {:induction false} RunRowsFirstRaise(rows: seq<Row>, today: Date, predict: seq<seq<real>> -> real)
    requires RunRows(rows, today, predict).Raise?
    ensures exists i :: FirstRaiseAt(rows, i, RunRows(rows, today, predict).error, today, predict)
    decreases |rows|
  {
    var n := |rows| - 1;
    var init := rows[..n];
    var e := RunRows(rows, today, predict).error;
    RunRowsStep(rows, n, today, predict);
    assert rows[..n + 1] == rows;
    if RunRows(init, today, predict).Raise? {
      assert RunRows(init, today, predict).error == e;
      RunRowsFirstRaise(init, today, predict);
      var i :| FirstRaiseAt(init, i, e, today, predict);
      FirstRaiseExtends(rows, init, i, e, today, predict);
    } else {
      assert ProcessRow(rows[n], today, predict) == Raise(e);
      RunRowsOnePerRow(init, today, predict);
      FirstRaiseExtends(rows, init, n, e, today, predict);
    }
  }

  /** Rows shared with a prefix keep their results. */
  lemma FirstRaiseExtends(rows: seq<Row>, init: seq<Row>, i: int, e: PyError, today: Date, predict: seq<seq<real>> -> real)
    requires |init| < |rows| && init == rows[..|init|] && 0 <= i <= |init|
    requires forall j :: 0 <= j < i ==> ProcessRow(init[j], today, predict).Return?
    requires i < |init| ==> ProcessRow(init[i], today, predict) == Raise(e)
    requires i == |init| ==> ProcessRow(rows[i], today, predict) == Raise(e)
    ensures FirstRaiseAt(rows, i, e, today, predict)
  {
    assert forall j :: 0 <= j < |init| ==> rows[j] == init[j];
  }

  /** Once a prefix of the rows raises, the whole loop ends with that exception. */
  lemma {:induction false} RunRowsPrefixRaise(rows: seq<Row>, n: nat, today: Date, predict: seq<seq<real>> -> real)
    requires n <= |rows| && RunRows(rows[..n], today, predict).Raise?
    ensures RunRows(rows, today, predict) == RunRows(rows[..n], today, predict)
    decreases |rows| - n
  {
    if n < |rows| {
      assert rows[..n + 1][..n] == rows[..n];
      RunRowsPrefixRaise(rows, n + 1, today, predict);
    } else {
      assert rows[..n] == rows;
    }
  }

  /** One more row: the loop over `rows[..i + 1]` is the loop over `rows[..i]` followed by row `i`. */
  lemma RunRowsStep(rows: seq<Row>, i: nat, today: Date, predict: seq<seq<real>> -> real)
    requires i < |rows|
    ensures RunRows(rows[..i + 1], today, predict) ==
      match RunRows(rows[..i], today, predict)
      case Raise(e) => Raise(e)
      case Return(done) =>
        match ProcessRow(rows[i], today, predict)
        case Raise(e) => Raise(e)
        case Return(r) => Return(done + [r])
  {
    assert rows[..i + 1][..i] == rows[..i] && rows[..i + 1][i] == rows[i];
  }

  /** The body of the row loop: build the record, validate it, then predict or report the errors. */
  method ProcessOneRow(row: Row, today: Date, predict: seq<seq<real>> -> real) returns (o: Outcome<ResultRow>)
    ensures o == ProcessRow(row, today, predict)
  {
    var v := ValidateInput(RowData(row), today);
    if v.Raise? {
      return Raise(v.error);
    }
    if v.value.isValid {
      var modelInput := PrepareModelInput(v.value.validated);
      if modelInput.Raise? {
        return Raise(modelInput.error);
      }
      var productivity := predict(modelInput.value);
      o := Return(ResultRow(row, Some(productivity), ProductivityCategory(productivity), None));
    } else {
      o := Return(ResultRow(row, None, InvalidCategory, Some(Join(v.value.errors, "; "))));
    }
  }

  /** The row loop of process_batch, over the rows of the file. */
  method ProcessRows(rows: seq<Row>, today: Date, predict: seq<seq<real>> -> real) returns (r: Outcome<seq<ResultRow>>)
    ensures r == RunRows(rows, today, predict)
  {
    var results: seq<ResultRow> := [];
    var i := 0;
    while i < |rows|
      invariant 0 <= i <= |rows|
      invariant RunRows(rows[..i], today, predict) == Return(results)
    {
      var o := ProcessOneRow(rows[i], today, predict);
      RunRowsStep(rows, i, today, predict);
      if o.Raise? {
        RunRowsPrefixRaise(rows, i + 1, today, predict);
        return Raise(o.error);
      }
      results := results + [o.value];
      i := i + 1;
    }
    assert rows[..i] == rows;
    return Return(results);
  }

  /**
   * How a run of process_batch ends: the saved rows, or the message of the
   * exception together with the sheet when it was saved before the exception.
   */
  datatype RunResult = Done(rows: seq<ResultRow>) | Crashed(message: string, saved: Option<seq<ResultRow>>)

  /** The sheet a run left in the results folder, if any. */
  function SavedSheet(run: RunResult): Option<seq<ResultRow>>
  {
    match run
    case Done(rows) => Some(rows)
    case Crashed(_, saved) => saved
  }

  /**
   * The body of process_batch's `try`: read the file, run the rows, save the
   * sheet, then build the results URL. `saveFailure` is the message when
   * writing the sheet raises, and `urlFailure` the message when `url_for`
   * raises (after the sheet is already written).
   */
  function RunBatch(content: CsvContent, today: Date, predict: seq<seq<real>> -> real,
                    saveFailure: Option<string>, urlFailure: Option<string>): (r: RunResult)
    ensures r.Done? <==> content.Table? && RunRows(content.rows, today, predict).Return? && saveFailure.None? && urlFailure.None?
    ensures r.Done? ==> RunRows(content.rows, today, predict) == Return(r.rows)
    ensures content.Unreadable? ==> r == Crashed(content.message, None)
    ensures content.Table? && RunRows(content.rows, today, predict).Raise? ==>
      r == Crashed(RunRows(content.rows, today, predict).error.message, None)
    ensures saveFailure.Some? ==> r.Crashed? && r.saved.None?
    ensures content.Table? && RunRows(content.rows, today, predict).Return? && saveFailure.Some? ==>
      r == Crashed(saveFailure.value, None)
    ensures SavedSheet(r).Some? <==> content.Table? && RunRows(content.rows, today, predict).Return? && saveFailure.None?
    ensures SavedSheet(r).Some? ==> RunRows(content.rows, today, predict) == Return(SavedSheet(r).value)
    ensures r.Crashed? && r.saved.Some? ==> urlFailure == Some(r.message)
  {
    match content
    case Unreadable(m) => Crashed(m, None)
    case Table(rows) =>
      match RunRows(rows, today, predict)
      case Raise(e) => Crashed(e.message, None)
      case Return(out) =>
        if saveFailure.Some? then Crashed(saveFailure.value, None)
        else if urlFailure.Some? then Crashed(urlFailure.value, Some(out))
        else Done(out)
  }

  /** A completed run saved one result row per CSV row. */
  lemma RunBatchOnePerRow(content: CsvContent, today: Date, predict: seq<seq<real>> -> real, saveFailure: Option<string>,
                          urlFailure: Option<string>)
    requires SavedSheet(RunBatch(content, today, predict, saveFailure, urlFailure)).Some?
    ensures |SavedSheet(RunBatch(content, today, predict, saveFailure, urlFailure)).value| == |content.rows|
  {
    RunRowsOnePerRow(content.rows, today, predict);
  }

  /** A file with a row that has no `date` column makes the whole batch fail, with no sheet saved. */
  lemma MissingDateColumnFails(content: CsvContent, i: nat, today: Date, predict: seq<seq<real>> -> real,
                               saveFailure: Option<string>, urlFailure: Option<string>)
    requires content.Table? && i < |content.rows| && "date" !in content.rows[i]
    ensures RunBatch(content, today, predict, saveFailure, urlFailure).Crashed?
    ensures SavedSheet(RunBatch(content, today, predict, saveFailure, urlFailure)).None?
  {
    MissingDateColumnRaises(content.rows[i], today, predict);
    RunRowsRaises(content.rows, today, predict);
  }

  /** The body of process_batch's `try`, up to and including building the results URL. */
  method RunUpload(content: CsvContent, today: Date, predict: seq<seq<real>> -> real, saveFailure: Option<string>,
                   urlFailure: Option<string>)
    returns (run: RunResult)
    ensures run == RunBatch(content, today, predict, saveFailure, urlFailure)
  {
    if content.Unreadable? {
      return Crashed(content.message, None);
    }
    var out := ProcessRows(content.rows, today, predict);
    if out.Raise? {
      return Crashed(out.error.message, None);
    }
    if saveFailure.Some? {
      return Crashed(saveFailure.value, None);
    }
    // the sheet is written here; `url_for` comes after it
    if urlFailure.Some? {
      return Crashed(urlFailure.value, Some(out.value));
    }
    return Done(out.value);
  }

  /** The job as the `except` or the end of the `try` leaves it. */
  function Finished(job: Job, run: RunResult, url: string): (j: Job)
    ensures j.filePath == job.filePath && j.createdAt == job.createdAt
    ensures run.Done? ==> j.status == Completed && j.resultsUrl == Some(url) && j.error == job.error
    ensures run.Crashed? ==> j.status == Failed && j.error == Some(run.message) && j.resultsUrl == job.resultsUrl
  {
    match run
    case Done(_) => job.(status := Completed, resultsUrl := Some(url))
    case Crashed(m, _) => job.(status := Failed, error := Some(m))
  }

  /** A finished job is consistent whenever a completed run left its sheet saved. */
  lemma FinishedConsistent(job: Job, run: RunResult, url: string, saved: bool)
    requires run.Done? ==> saved
    ensures Consistent(Finished(job, run, url), saved)
  {
  }

  /** What a job's keys may be, given its status and whether its results file exists. */
  predicate Consistent(job: Job, saved: bool)
  {
    match job.status
    case Completed => job.resultsUrl.Some? && saved
    case Failed => job.error.Some?
    case _ => job.resultsUrl.None? && job.error.None?
  }

  /** The error replies of create_batch, in the order it checks them, and the 202 that starts a job. */
  function CreateReply(modelLoaded: bool, file: Option<Upload>, batchId: string, saveFailure: Option<string>): (r: Reply)
    ensures r.BatchAccepted? <==>
      modelLoaded && file.Some? && file.value.filename != "" && EndsWith(file.value.filename, ".csv") && saveFailure.None?
    ensures r.BatchAccepted? ==> r == BatchAccepted(batchId, "processing") && Code(r) == 202
    ensures !modelLoaded ==> r == ErrorReply(500, "ML model not loaded")
    ensures modelLoaded && file.None? ==> r == ErrorReply(400, "No file provided")
    ensures modelLoaded && file.Some? && file.value.filename == "" ==> r == ErrorReply(400, "No file selected")
    ensures modelLoaded && file.Some? && file.value.filename != "" && !EndsWith(file.value.filename, ".csv") ==>
      r == ErrorReply(400, "Only CSV files are allowed")
    ensures (modelLoaded && file.Some? && file.value.filename != "" && EndsWith(file.value.filename, ".csv")
      && saveFailure.Some?) ==> r == ErrorReply(500, "Batch creation error: " + saveFailure.value)
  {
    if !modelLoaded then ErrorReply(500, "ML model not loaded")
    else if file.None? then ErrorReply(400, "No file provided")
    else if file.value.filename == "" then ErrorReply(400, "No file selected")
    else if !EndsWith(file.value.filename, ".csv") then ErrorReply(400, "Only CSV files are allowed")
    else if saveFailure.Some? then ErrorReply(500, "Batch creation error: " + saveFailure.value)
    else BatchAccepted(batchId, "processing")
  }

  /** `batch_jobs`, with the upload folder and the results folder it refers to. */
  class JobTable {
    var jobs: map<string, Job>
    /** The results folder: the sheet saved as `<batch_id>.xlsx`. */
    var results: map<string, seq<ResultRow>>
    /** The upload folder: what was saved under each path. */
    var uploads: map<string, CsvContent>

    /** Every job's keys agree with its status. */
    ghost predicate Valid()
      reads this
    {
      forall id :: id in jobs ==> Consistent(jobs[id], id in results)
    }

    /** The table as the module starts: no jobs, empty folders. */
    constructor ()
      ensures Valid()
      ensures jobs == map[] && results == map[] && uploads == map[]
    {
      jobs := map[];
      results := map[];
      uploads := map[];
    }

    /** What `pd.read_csv(file_path)` gives for a path of the upload folder. */
    function Uploaded(path: string): (c: CsvContent)
      reads this
      ensures path in uploads ==> c == uploads[path]
      ensures path !in uploads ==> c.Unreadable?
    {
      if path in uploads then uploads[path] else Unreadable("[Errno 2] No such file or directory: '" + path + "'")
    }

    /**
     * `create_batch`: the checks in order, then the file is saved and a queued
     * job is inserted. `batchId` is the fresh uuid, `filePath` where the file
     * is saved, `createdAt` the time stamp, and `saveFailure` the message when
     * saving raises.
     */
    method CreateBatch(modelLoaded: bool, file: Option<Upload>, batchId: string, filePath: string, createdAt: string,
                       saveFailure: Option<string>) returns (reply: Reply)
      requires Valid()
      modifies this
      ensures Valid()
      ensures reply == CreateReply(modelLoaded, file, batchId, saveFailure)
      ensures reply.BatchAccepted? ==>
        && jobs == old(jobs)[batchId := Job(Queued, filePath, createdAt, None, None)]
        && uploads == old(uploads)[filePath := file.value.content]
      ensures !reply.BatchAccepted? ==> jobs == old(jobs) && uploads == old(uploads)
      ensures results == old(results)
    {
      if !modelLoaded {
        return ErrorReply(500, "ML model not loaded");
      }
      if file.None? {
        return ErrorReply(400, "No file provided");
      }
      var upload := file.value;
      if upload.filename == "" {
        return ErrorReply(400, "No file selected");
      }
      if !EndsWith(upload.filename, ".csv") {
        return ErrorReply(400, "Only CSV files are allowed");
      }
      if saveFailure.Some? {
        return ErrorReply(500, "Batch creation error: " + saveFailure.value);
      }
      uploads := uploads[filePath := upload.content];
      jobs := jobs[batchId := Job(Queued, filePath, createdAt, None, None)];
      return BatchAccepted(batchId, "processing");
    }

    /**
     * `process_batch`: the job goes to processing, the rows are run, and it
     * ends completed with its results URL and saved sheet, or failed with the
     * exception's message. `url` is what `url_for` returns when it succeeds and
     * `urlFailure` the message when it raises; the sheet is saved before that.
     */
    method ProcessBatch(batchId: string, today: Date, predict: seq<seq<real>> -> real, saveFailure: Option<string>,
                        urlFailure: Option<string>, url: string)
      requires Valid() && batchId in jobs
      modifies this
      ensures Valid()
      ensures batchId in jobs
      ensures jobs == old(jobs)[batchId := Finished(old(jobs[batchId]).(status := Processing),
        RunBatch(old(Uploaded(jobs[batchId].filePath)), today, predict, saveFailure, urlFailure), url)]
      ensures var run := RunBatch(old(Uploaded(jobs[batchId].filePath)), today, predict, saveFailure, urlFailure);
        results == (if SavedSheet(run).Some? then old(results)[batchId := SavedSheet(run).value] else old(results))
      ensures jobs[batchId].status == Completed || jobs[batchId].status == Failed
      ensures jobs[batchId].status == Completed ==> jobs[batchId].resultsUrl == Some(url) && batchId in results
      ensures uploads == old(uploads)
    {
      var job := jobs[batchId];
      ghost var content := Uploaded(job.filePath);
      jobs := jobs[batchId := job.(status := Processing)];
      var run := RunUpload(Uploaded(job.filePath), today, predict, saveFailure, urlFailure);
      assert run == RunBatch(content, today, predict, saveFailure, urlFailure);
      var sheet := SavedSheet(run);
      if sheet.Some? {
        results := results[batchId := sheet.value];
      }
      // the end of the `try`, or the `except` clause
      FinishedConsistent(jobs[batchId], run, url, batchId in results);
      jobs := jobs[batchId := Finished(jobs[batchId], run, url)];
      forall id | id in jobs && id != batchId
        ensures Consistent(jobs[id], id in results) {
        assert old(Consistent(jobs[id], id in results));
      }
      assert jobs[batchId].filePath == job.filePath && old(Uploaded(jobs[batchId].filePath)) == content;
    }

    /** `get_batch_status`. */
    function GetBatchStatus(batchId: string): (r: Reply)
      reads this
      ensures batchId !in jobs <==> r == ErrorReply(404, "Batch job not found")
      ensures batchId in jobs ==> r.StatusReply? && r.batchId == batchId && r.status == StatusName(jobs[batchId].status)
      ensures r.StatusReply? && r.resultsUrl.Some? ==>
        jobs[batchId].status == Completed && jobs[batchId].resultsUrl == r.resultsUrl
      ensures r.StatusReply? && r.error.Some? ==> jobs[batchId].status == Failed && jobs[batchId].error == r.error
    {
      if batchId !in jobs then ErrorReply(404, "Batch job not found")
      else
        var job := jobs[batchId];
        StatusReply(batchId, StatusName(job.status),
                    if job.status == Completed && job.resultsUrl.Some? then job.resultsUrl else None,
                    if job.status == Failed && job.error.Some? then job.error else None)
    }

    /** `download_batch_result`. */
    function DownloadBatchResult(batchId: string): (r: Reply)
      reads this
      ensures batchId !in jobs ==> r == ErrorReply(404, "Batch job not found")
      ensures batchId in jobs && jobs[batchId].status != Completed ==> r == ErrorReply(400, "Batch job not completed")
      ensures r.FileReply? <==> batchId in jobs && jobs[batchId].status == Completed && batchId in results
      ensures batchId in jobs && jobs[batchId].status == Completed && batchId !in results ==>
        r == ErrorReply(404, "Results file not found")
      ensures r.FileReply? ==>
        r.rows == results[batchId] && r.downloadName == "employee_performance_batch_" + batchId + ".xlsx"
    {
      if batchId !in jobs then ErrorReply(404, "Batch job not found")
      else if jobs[batchId].status != Completed then ErrorReply(400, "Batch job not completed")
      else if batchId !in results then ErrorReply(404, "Results file not found")
      else FileReply(results[batchId], "employee_performance_batch_" + batchId + ".xlsx")
    }

    /** In a consistent table a completed job reports its results URL and a failed one its error. */
    lemma StatusReportsOutcome(batchId: string)
      requires Valid() && batchId in jobs
      ensures jobs[batchId].status == Completed ==> GetBatchStatus(batchId).resultsUrl.Some?
      ensures jobs[batchId].status == Failed ==> GetBatchStatus(batchId).error.Some?
      ensures jobs[batchId].status != Completed && jobs[batchId].status != Failed ==>
        GetBatchStatus(batchId).resultsUrl.None? && GetBatchStatus(batchId).error.None?
    {
    }

    /** In a consistent table the sheet of every completed job can be downloaded. */
    lemma CompletedDownloads(batchId: string)
      requires Valid() && batchId in jobs && jobs[batchId].status == Completed
      ensures DownloadBatchResult(batchId).FileReply?
    {
    }
  }

}
