/** `PipelineRunner`: extracts three batches, stores them raw, validates and masks each, stores the
    valid ones processed, and loads those into the warehouse, keeping run statistics. */
module Pipeline {
  import opened Wrappers
  import opened Frames
  import opened Schema
  import opened ValidationLog
  import opened Validator
  import opened Masking
  import Settings

  /** What `get_table_info()` returns. */
  type TableInfo = map<string, string>

  /** The external systems the runner calls. Each call either returns or raises; a raise is an
      `Err` carrying `str(e)`.
      - `extract(source, n)`: the extractor of `source` asked for `n` records;
      - `upload(df, dataType, source)`: stores `df` and returns the timestamp its file name carries;
      - `download(filename)`: reads a stored file back;
      - `load(filename, source)`: starts a warehouse load job and returns its id;
      - `tableInfo`: the table description, or the error looking it up raises. */
  datatype Services = Services(
    extract: (string, nat) -> Result<Frame>,
    upload: (Frame, string, string) -> Result<string>,
    download: string -> Result<Frame>,
    load: (string, string) -> Result<string>,
    tableInfo: Result<TableInfo>)

  /** `pipeline_stats`. `duration`, `error` and `validation_summary` are keys the runner adds later;
      `None` stands for a key not yet present. Times are clock readings in seconds. */
  datatype Stats = Stats(
    startTime: Option<int>,
    endTime: Option<int>,
    sourcesProcessed: nat,
    totalRawRecords: nat,
    totalValidRecords: nat,
    totalErrors: nat,
    filesUploaded: seq<string>,
    validationSummary: Option<Summary>,
    duration: Option<int>,
    error: Option<string>)

  /** The statistics `__init__` sets up. */
  const FreshStats := Stats(None, None, 0, 0, 0, 0, [], None, None, None)

  /** What `_get_pipeline_summary()` returns. */
  datatype PipelineSummary = PipelineSummary(pipelineStats: Stats, validationSummary: Summary, bigqueryInfo: Option<TableInfo>)

  /** The sources, in the order `_extract_data` calls them, and the records asked of each. */
  const Sources := ["faker", "api", "csv"]
  const RecordsPerSource: nat := 50

  /** The object name `upload_data` returns: `"{data_type}/{source_name}_{timestamp}.parquet"`. */
  function FileName(dataType: string, source: string, timestamp: string): string {
    dataType + "/" + source + "_" + timestamp + ".parquet"
  }

  function SourcesOf<T>(entries: seq<(string, T)>): (names: seq<string>)
    ensures |names| == |entries|
    ensures forall k :: 0 <= k < |entries| ==> names[k] == entries[k].0
  {
    seq(|entries|, k requires 0 <= k < |entries| => entries[k].0)
  }

  predicate Distinct(names: seq<string>) {
    forall a, b :: 0 <= a < b < |names| ==> names[a] != names[b]
  }

  // ----- extraction -----

  /** `_extract_data()`: the three batches in order, or the first extractor error. */
  function Extract(svc: Services): Result<seq<(string, Frame)>> {
    match svc.extract("faker", RecordsPerSource)
    case Err(e) => Err(e)
    case Ok(faker) =>
      match svc.extract("api", RecordsPerSource)
      case Err(e) => Err(e)
      case Ok(api) =>
        match svc.extract("csv", RecordsPerSource)
        case Err(e) => Err(e)
        case Ok(csv) => Ok([("faker", faker), ("api", api), ("csv", csv)])
  }

  /** `sum(len(df) for df in dataframes.values())`. */
  function TotalRows(dfs: seq<(string, Frame)>): nat {
    if dfs == [] then 0 else TotalRows(dfs[..|dfs| - 1]) + |dfs[|dfs| - 1].1.rows|
  }

  /** Extraction asks each source for 50 records, in the order faker, api, csv; it succeeds when
      all three do and then yields their batches under their names, and otherwise fails with the
      first error. */
  lemma ExtractInOrder(svc: Services)
    ensures Extract(svc).Ok? <==> forall k :: 0 <= k < |Sources| ==> svc.extract(Sources[k], RecordsPerSource).Ok?
    ensures Extract(svc).Ok? ==>
      SourcesOf(Extract(svc).value) == Sources &&
      forall k :: 0 <= k < |Sources| ==> Extract(svc).value[k].1 == svc.extract(Sources[k], RecordsPerSource).value
    ensures Extract(svc).Err? ==>
      exists k :: 0 <= k < |Sources| && svc.extract(Sources[k], RecordsPerSource) == Err(Extract(svc).msg) &&
        forall j :: 0 <= j < k ==> svc.extract(Sources[j], RecordsPerSource).Ok?
  {
    var r := Extract(svc);
    if r.Ok? {
      assert SourcesOf(r.value) == Sources;
    } else if svc.extract("faker", RecordsPerSource).Err? {
      assert svc.extract(Sources[0], RecordsPerSource) == Err(r.msg);
    } else if svc.extract("api", RecordsPerSource).Err? {
      assert svc.extract(Sources[1], RecordsPerSource) == Err(r.msg);
    } else {
      assert svc.extract(Sources[2], RecordsPerSource) == Err(r.msg);
    }
  }

  lemma TotalRowsOfThree(dfs: seq<(string, Frame)>)
    requires |dfs| == 3
    ensures TotalRows(dfs) == |dfs[0].1.rows| + |dfs[1].1.rows| + |dfs[2].1.rows|
  {
    var two := dfs[..2];
    var one := two[..1];
    assert dfs[..|dfs| - 1] == two && two[..|two| - 1] == one && one[..|one| - 1] == [];
    assert TotalRows(one) == |dfs[0].1.rows|;
    assert TotalRows(two) == |dfs[0].1.rows| + |dfs[1].1.rows|;
  }

  // ----- the loops over sources -----

  /** How far a loop over the sources got: the `(source, filename)` pairs it recorded, the entries
      it appended to `files_uploaded`, the records it counted, and the error that ended it. */
  datatype Progress = Progress(files: seq<(string, string)>, entries: seq<string>, records: nat, error: Option<string>)

  const NoProgress := Progress([], [], 0, None)

  /** What a stage method returns: its dictionary, or the error it re-raises. */
  function Outcome(p: Progress): Result<seq<(string, string)>> {
    if p.error.Some? then Err(p.error.value) else Ok(p.files)
  }

  /** `_upload_raw_data(dataframes)`. */
  function UploadRaw(svc: Services, dfs: seq<(string, Frame)>): Progress {
    if dfs == [] then NoProgress
    else
      var p := UploadRaw(svc, dfs[..|dfs| - 1]);
      var source := dfs[|dfs| - 1].0;
      if p.error.Some? then p
      else
        match svc.upload(dfs[|dfs| - 1].1, "raw", source)
        case Err(e) => p.(error := Some(e))
        case Ok(ts) =>
          var name := FileName("raw", source, ts);
          p.(files := p.files + [(source, name)], entries := p.entries + ["raw/" + name])
  }

  /** One iteration of `_process_data`: the raw file is read back and validated; a rejected batch
      is replaced by an empty frame and skipped (`Ok(None)`); an accepted one is masked and stored,
      giving the processed file name and the masked record count. */
  ghost function ProcessSource(svc: Services, m: DataMasker, source: string, filename: string, now: int): Result<Option<(string, nat)>> {
    match svc.download(filename)
    case Err(e) => Err(e)
    case Ok(raw) => StoreValidated(svc, m, source, Validated(raw, now), now)
  }

  /** `df_raw` when the validator accepts it, otherwise `pd.DataFrame()`. The validator accepts
      exactly the schema-valid batches (`Validator.ValidIffSchemaValid`). */
  ghost function Validated(raw: Frame, now: int): Frame {
    if SchemaValid(raw, now) then raw else Frame([], [])
  }

  /** The `if not df_validated.empty` block: mask the batch and store it as processed. */
  function StoreValidated(svc: Services, m: DataMasker, source: string, validated: Frame, now: int): Result<Option<(string, nat)>> {
    if IsEmpty(validated) then Ok(None)
    else
      match m.MaskFrame(validated, now)
      case Err(e) => Err(e)
      case Ok(masked) =>
        match svc.upload(masked, "processed", source)
        case Err(e) => Err(e)
        case Ok(ts) => Ok(Some((FileName("processed", source, ts), |masked.rows|)))
  }

  /** What the body of the `_process_data` loop gives for each raw file, in order. */
  ghost function SourceOutcomes(svc: Services, m: DataMasker, raw: seq<(string, string)>, now: int): (outs: seq<Result<Option<(string, nat)>>>)
    ensures |outs| == |raw|
  {
    if raw == [] then []
    else
      var (source, filename) := raw[|raw| - 1];
      SourceOutcomes(svc, m, raw[..|raw| - 1], now) + [ProcessSource(svc, m, source, filename, now)]
  }

  lemma {:induction false} SourceOutcomesAt(svc: Services, m: DataMasker, raw: seq<(string, string)>, now: int, k: nat)
    requires k < |raw|
    ensures SourceOutcomes(svc, m, raw, now)[k] == ProcessSource(svc, m, raw[k].0, raw[k].1, now)
  {
    if k < |raw| - 1 {
      SourceOutcomesAt(svc, m, raw[..|raw| - 1], now, k);
    }
  }

  /** One turn of the `_process_data` loop given its outcome: a processed file is recorded, a
      skipped batch leaves nothing, an error ends the loop, and nothing runs after an error. */
  function Advance(p: Progress, source: string, out: Result<Option<(string, nat)>>): Progress {
    if p.error.Some? then p
    else
      match out
      case Err(e) => p.(error := Some(e))
      case Ok(None) => p
      case Ok(Some((name, n))) =>
        p.(files := p.files + [(source, name)], entries := p.entries + ["processed/" + name], records := p.records + n)
  }

  /** The loop of `_process_data` over given per-source outcomes. */
  function Collect(raw: seq<(string, string)>, outs: seq<Result<Option<(string, nat)>>>): Progress
    requires |outs| == |raw|
  {
    if raw == [] then NoProgress
    else Advance(Collect(raw[..|raw| - 1], outs[..|raw| - 1]), raw[|raw| - 1].0, outs[|raw| - 1])
  }

  lemma CollectStep(raw: seq<(string, string)>, outs: seq<Result<Option<(string, nat)>>>, i: nat)
    requires |outs| == |raw| && i < |raw|
    ensures Collect(raw[..i + 1], outs[..i + 1]) == Advance(Collect(raw[..i], outs[..i]), raw[i].0, outs[i])
  {
    assert raw[..i + 1][..i] == raw[..i] && outs[..i + 1][..i] == outs[..i];
  }

  /** The loop of `_process_data(raw_files)`. */
  ghost function Process(svc: Services, m: DataMasker, raw: seq<(string, string)>, now: int): Progress {
    Collect(raw, SourceOutcomes(svc, m, raw, now))
  }

  /** The job ids `_load_to_bigquery` started and the error that ended it, if any. */
  datatype Loads = Loads(jobs: seq<string>, error: Option<string>)

  /** The loop of `_load_to_bigquery(processed_files)`. */
  function LoadAll(svc: Services, files: seq<(string, string)>): Loads {
    if files == [] then Loads([], None)
    else
      var l := LoadAll(svc, files[..|files| - 1]);
      var (source, filename) := files[|files| - 1];
      if l.error.Some? then l
      else
        match svc.load(filename, source)
        case Err(e) => l.(error := Some(e))
        case Ok(job) => l.(jobs := l.jobs + [job])
  }

  // ----- statistics -----

  /** The statistics after `_extract_data`: the two counters are assigned, not accumulated. */
  function AfterExtract(s: Stats, r: Result<seq<(string, Frame)>>): Stats {
    if r.Ok? then s.(sourcesProcessed := |r.value|, totalRawRecords := TotalRows(r.value)) else s
  }

  /** The statistics after `_process_data`: uploads and valid records accumulate; after a loop
      that completes, the error count and the summary are taken from the validator's log. */
  function AfterProcess(s: Stats, p: Progress, log: seq<ErrorEntry>): Stats {
    var s1 := s.(filesUploaded := s.filesUploaded + p.entries, totalValidRecords := s.totalValidRecords + p.records);
    if p.error.Some? then s1
    else s1.(totalErrors := SummaryOf(log).totalErrors, validationSummary := Some(SummaryOf(log)))
  }

  /** The `except` branch of `run_full_pipeline`: the end time and the error are recorded and the
      error re-raised. */
  function Fail(s: Stats, e: string, end: int): (Stats, Option<string>) {
    (s.(endTime := Some(end), error := Some(e)), Some(e))
  }

  /** `run_full_pipeline()`: the statistics it leaves and the error it raises, if any. `check` is
      the outcome of `settings.validate_settings()`, `log` the validator's error log, `start` and
      `end` the two clock readings, `now` the time validation and masking see. */
  ghost function Run(svc: Services, m: DataMasker, check: Result<()>, log: seq<ErrorEntry>, s0: Stats,
               start: int, end: int, now: int): (Stats, Option<string>) {
    var s1 := s0.(startTime := Some(start));
    if check.Err? then Fail(s1, check.msg, end)
    else
      match Extract(svc)
      case Err(e) => Fail(s1, e, end)
      case Ok(dfs) =>
        var s2 := AfterExtract(s1, Ok(dfs));
        var u := UploadRaw(svc, dfs);
        var s3 := s2.(filesUploaded := s2.filesUploaded + u.entries);
        if u.error.Some? then Fail(s3, u.error.value, end)
        else
          var p := Process(svc, m, u.files, now);
          var s4 := AfterProcess(s3, p, log);
          if p.error.Some? then Fail(s4, p.error.value, end)
          else
            var l := LoadAll(svc, p.files);
            if l.error.Some? then Fail(s4, l.error.value, end)
            else (s4.(endTime := Some(end), duration := Some(end - start)), None)
  }

  function ErrorOf<T>(r: Result<T>): Option<string> {
    if r.Err? then Some(r.msg) else None
  }

  /** `bigquery_info`: `None` when the table lookup raises. */
  function InfoOf(r: Result<TableInfo>): Option<TableInfo> {
    if r.Ok? then Some(r.value) else None
  }

  // ----- an error ends each loop -----

  lemma {:induction false} UploadRawErrorSticks(svc: Services, dfs: seq<(string, Frame)>, n: nat)
    requires n <= |dfs| && UploadRaw(svc, dfs[..n]).error.Some?
    ensures UploadRaw(svc, dfs) == UploadRaw(svc, dfs[..n])
  {
    if n < |dfs| {
      var init := dfs[..|dfs| - 1];
      assert init[..n] == dfs[..n];
      UploadRawErrorSticks(svc, init, n);
    } else {
      assert dfs[..n] == dfs;
    }
  }

  lemma {:induction false} CollectErrorSticks(raw: seq<(string, string)>, outs: seq<Result<Option<(string, nat)>>>, n: nat)
    requires |outs| == |raw| && n <= |raw| && Collect(raw[..n], outs[..n]).error.Some?
    ensures Collect(raw, outs) == Collect(raw[..n], outs[..n])
  {
    if n < |raw| {
      var init := raw[..|raw| - 1];
      var before := outs[..|raw| - 1];
      assert init[..n] == raw[..n] && before[..n] == outs[..n];
      CollectErrorSticks(init, before, n);
    } else {
      assert raw[..n] == raw && outs[..n] == outs;
    }
  }

  lemma {:induction false} LoadAllErrorSticks(svc: Services, files: seq<(string, string)>, n: nat)
    requires n <= |files| && LoadAll(svc, files[..n]).error.Some?
    ensures LoadAll(svc, files) == LoadAll(svc, files[..n])
  {
    if n < |files| {
      var init := files[..|files| - 1];
      assert init[..n] == files[..n];
      LoadAllErrorSticks(svc, init, n);
    } else {
      assert files[..n] == files;
    }
  }

  // ----- what each stage does -----

  /** The raw upload visits the batches in order: each recorded file is the upload of the batch at
      the same position, named after its source and appended to `files_uploaded` as `raw/…`;
      it stops at the first upload that raises, with that error. */
  lemma {:induction false} UploadRawShape(svc: Services, dfs: seq<(string, Frame)>)
    ensures var u := UploadRaw(svc, dfs);
      |u.files| == |u.entries| <= |dfs| && u.records == 0 &&
      forall k :: 0 <= k < |u.files| ==>
        svc.upload(dfs[k].1, "raw", dfs[k].0).Ok? &&
        u.files[k] == (dfs[k].0, FileName("raw", dfs[k].0, svc.upload(dfs[k].1, "raw", dfs[k].0).value)) &&
        u.entries[k] == "raw/" + u.files[k].1
    ensures var u := UploadRaw(svc, dfs);
      u.error.None? ==> |u.files| == |dfs|
    ensures var u := UploadRaw(svc, dfs);
      u.error.Some? ==> (|u.files| < |dfs| &&
                         svc.upload(dfs[|u.files|].1, "raw", dfs[|u.files|].0) == Err(u.error.value))
  {
    if dfs != [] {
      var n := |dfs| - 1;
      var init := dfs[..n];
      UploadRawShape(svc, init);
      assert forall k :: 0 <= k < n ==> init[k] == dfs[k];
    }
  }

  /** Each turn of the processing loop, by what the validator and the uploads do:
      - a download that raises ends the loop with its error;
      - a batch that is not schema-valid is skipped: nothing is uploaded and nothing counted;
      - a schema-valid batch always masks, and is then stored as processed, counting exactly
        its raw records; an upload that raises ends the loop with its error. */
  lemma ProcessSourceCases(svc: Services, m: DataMasker, source: string, filename: string, now: int)
    ensures var r := ProcessSource(svc, m, source, filename, now);
      svc.download(filename).Err? ==> r == Err(svc.download(filename).msg)
    ensures var r := ProcessSource(svc, m, source, filename, now);
      svc.download(filename).Ok? && !SchemaValid(svc.download(filename).value, now) ==> r == Ok(None)
    ensures var r := ProcessSource(svc, m, source, filename, now);
      svc.download(filename).Ok? && SchemaValid(svc.download(filename).value, now) ==>
        var df := svc.download(filename).value;
        m.MaskFrame(df, now).Ok? &&
        r == match svc.upload(m.MaskFrame(df, now).value, "processed", source)
             case Err(e) => Err(e)
             case Ok(ts) => Ok(Some((FileName("processed", source, ts), |df.rows|)))
  {
    var d := svc.download(filename);
    if d.Ok? {
      if SchemaValid(d.value, now) {
        ValidBatchMasks(m, d.value, now, now);
      }
    }
  }

  /** A batch is skipped exactly when it is read back and the validator rejects it. */
  lemma SkippedIffRejected(svc: Services, m: DataMasker, source: string, filename: string, now: int)
    ensures ProcessSource(svc, m, source, filename, now) == Ok(None) <==>
      svc.download(filename).Ok? && !SchemaValid(svc.download(filename).value, now)
  {
    ProcessSourceCases(svc, m, source, filename, now);
  }

  /** How many turns stored a processed file. */
  function Accepted(outs: seq<Result<Option<(string, nat)>>>): nat {
    if outs == [] then 0
    else Accepted(outs[..|outs| - 1]) + (if outs[|outs| - 1].Ok? && outs[|outs| - 1].value.Some? then 1 else 0)
  }

  /** The records of the processed files, summed. */
  function AcceptedRecords(outs: seq<Result<Option<(string, nat)>>>): nat {
    if outs == [] then 0
    else
      var last := outs[|outs| - 1];
      AcceptedRecords(outs[..|outs| - 1]) + (if last.Ok? && last.value.Some? then last.value.value.1 else 0)
  }

  /** The processing loop records one `processed/…` entry per stored file. A loop that completes
      has met no error, stored one file per accepted batch and counted exactly their records; a
      loop that fails stopped at the first turn that raised, with its error. */
  lemma {:induction false} CollectShape(raw: seq<(string, string)>, outs: seq<Result<Option<(string, nat)>>>)
    requires |outs| == |raw|
    ensures var p := Collect(raw, outs);
      |p.entries| == |p.files| && forall k :: 0 <= k < |p.files| ==> p.entries[k] == "processed/" + p.files[k].1
    ensures var p := Collect(raw, outs);
      p.error.None? ==>
        |p.files| == Accepted(outs) && p.records == AcceptedRecords(outs) && forall j :: 0 <= j < |outs| ==> outs[j].Ok?
    ensures var p := Collect(raw, outs);
      p.error.Some? ==> exists j :: 0 <= j < |outs| && outs[j] == Err(p.error.value) && forall i :: 0 <= i < j ==> outs[i].Ok?
  {
    if raw != [] {
      var n := |raw| - 1;
      var q := Collect(raw[..n], outs[..n]);
      CollectShape(raw[..n], outs[..n]);
      assert forall j :: 0 <= j < n ==> outs[..n][j] == outs[j];
      var p := Collect(raw, outs);
      if q.error.None? && outs[n].Err? {
        assert outs[n] == Err(p.error.value);
      }
    }
  }

  /** `file` is the processed file of an accepted turn over a raw file of the same source. */
  predicate FromAccepted(raw: seq<(string, string)>, outs: seq<Result<Option<(string, nat)>>>, file: (string, string))
    requires |outs| == |raw|
  {
    exists j :: 0 <= j < |raw| && raw[j].0 == file.0 && outs[j].Ok? && outs[j].value.Some? && outs[j].value.value.0 == file.1
  }

  /** Every processed file comes from an accepted turn over a raw file of the same source, and a
      loop that completes stores the file of every accepted turn. */
  lemma {:induction false} CollectSources(raw: seq<(string, string)>, outs: seq<Result<Option<(string, nat)>>>)
    requires |outs| == |raw|
    ensures var p := Collect(raw, outs);
      forall k :: 0 <= k < |p.files| ==> FromAccepted(raw, outs, p.files[k])
    ensures var p := Collect(raw, outs);
      p.error.None? ==> forall j :: 0 <= j < |raw| && outs[j].Ok? && outs[j].value.Some? ==>
        (raw[j].0, outs[j].value.value.0) in p.files
  {
    if raw != [] {
      var n := |raw| - 1;
      var q := Collect(raw[..n], outs[..n]);
      CollectSources(raw[..n], outs[..n]);
      var p := Collect(raw, outs);
      forall k | 0 <= k < |p.files| ensures FromAccepted(raw, outs, p.files[k]) {
        if k < |q.files| {
          var j :| 0 <= j < n && raw[..n][j].0 == q.files[k].0 &&
            outs[..n][j].Ok? && outs[..n][j].value.Some? && outs[..n][j].value.value.0 == q.files[k].1;
          assert raw[j] == raw[..n][j] && outs[j] == outs[..n][j];
          assert p.files[k] == q.files[k];
        } else {
          assert p.files[k] == (raw[n].0, outs[n].value.value.0);
        }
      }
      if p.error.None? {
        forall j | 0 <= j < |raw| && outs[j].Ok? && outs[j].value.Some?
          ensures (raw[j].0, outs[j].value.value.0) in p.files
        {
          if j < n {
            assert raw[..n][j] == raw[j] && outs[..n][j] == outs[j];
            assert (raw[j].0, outs[j].value.value.0) in q.files;
          }
        }
      }
    }
  }

  /** With distinct sources, a skipped source gets no processed file: the later sources are
      processed without it. */
  lemma CollectSkips(raw: seq<(string, string)>, outs: seq<Result<Option<(string, nat)>>>, j: nat)
    requires |outs| == |raw| && Distinct(SourcesOf(raw)) && j < |raw| && outs[j] == Ok(None)
    ensures forall k :: 0 <= k < |Collect(raw, outs).files| ==> Collect(raw, outs).files[k].0 != raw[j].0
  {
    CollectSources(raw, outs);
    var p := Collect(raw, outs);
    forall k | 0 <= k < |p.files| ensures p.files[k].0 != raw[j].0 {
      assert FromAccepted(raw, outs, p.files[k]);
      var i :| 0 <= i < |raw| && raw[i].0 == p.files[k].0 &&
        outs[i].Ok? && outs[i].value.Some? && outs[i].value.value.0 == p.files[k].1;
      assert SourcesOf(raw)[i] == raw[i].0 && SourcesOf(raw)[j] == raw[j].0;
    }
  }

  /** The loads run in the order of the processed files, one job per file, and stop at the first
      load that raises, with its error: no later load is attempted. */
  lemma {:induction false} LoadAllShape(svc: Services, files: seq<(string, string)>)
    ensures var l := LoadAll(svc, files);
      |l.jobs| <= |files| && forall k :: 0 <= k < |l.jobs| ==> svc.load(files[k].1, files[k].0) == Ok(l.jobs[k])
    ensures var l := LoadAll(svc, files);
      l.error.None? ==> |l.jobs| == |files|
    ensures var l := LoadAll(svc, files);
      l.error.Some? ==> |l.jobs| < |files| && svc.load(files[|l.jobs|].1, files[|l.jobs|].0) == Err(l.error.value)
  {
    if files != [] {
      var n := |files| - 1;
      LoadAllShape(svc, files[..n]);
      assert forall k :: 0 <= k < n ==> files[..n][k] == files[k];
    }
  }

  // ----- what a run leaves -----

  /** A run that raises has recorded its start, its end and the error, and has not set a
      duration. */
  lemma RunFailure(svc: Services, m: DataMasker, check: Result<()>, log: seq<ErrorEntry>, s0: Stats,
                   start: int, end: int, now: int)
    ensures var (s, e) := Run(svc, m, check, log, s0, start, end, now);
      e.Some? ==> s.startTime == Some(start) && s.endTime == Some(end) && s.error == e && s.duration == s0.duration
  {
  }

  /** Runs accumulate: `files_uploaded` only grows and `total_valid_records` never drops, while
      `sources_processed` is assigned, never added to. */
  lemma RunAccumulates(svc: Services, m: DataMasker, check: Result<()>, log: seq<ErrorEntry>, s0: Stats,
                       start: int, end: int, now: int)
    ensures var s := Run(svc, m, check, log, s0, start, end, now).0;
      s0.filesUploaded <= s.filesUploaded && s0.totalValidRecords <= s.totalValidRecords &&
      (s.sourcesProcessed == s0.sourcesProcessed || s.sourcesProcessed == |Sources|)
  {
    if check.Ok? && Extract(svc).Ok? {
      ExtractInOrder(svc);
      var dfs := Extract(svc).value;
      var u := UploadRaw(svc, dfs);
      assert s0.filesUploaded <= s0.filesUploaded + u.entries;
      if u.error.None? {
        var p := Process(svc, m, u.files, now);
        assert s0.filesUploaded + u.entries <= s0.filesUploaded + u.entries + p.entries;
      }
    }
  }

  /** A run that completes from fresh statistics with the validator's empty log: all three
      sources were extracted and stored raw, one processed file counted per accepted batch, the
      valid records are those of the accepted batches, no error is counted, and the duration is
      the time between the two clock readings. */
  lemma FreshRunSucceeded(svc: Services, m: DataMasker, check: Result<()>, start: int, end: int, now: int)
    requires Run(svc, m, check, [], FreshStats, start, end, now).1.None?
    ensures check.Ok? && Extract(svc).Ok?
    ensures var dfs := Extract(svc).value;
      var u := UploadRaw(svc, dfs);
      var outs := SourceOutcomes(svc, m, u.files, now);
      var s := Run(svc, m, check, [], FreshStats, start, end, now).0;
      s.startTime == Some(start) && s.endTime == Some(end) && s.duration == Some(end - start) && s.error.None? &&
      s.sourcesProcessed == 3 && s.totalRawRecords == |dfs[0].1.rows| + |dfs[1].1.rows| + |dfs[2].1.rows| &&
      |s.filesUploaded| == 3 + Accepted(outs) && s.filesUploaded[..3] == u.entries &&
      s.totalValidRecords == AcceptedRecords(outs) &&
      (forall j :: 0 <= j < |outs| ==> outs[j].Ok?) &&
      s.totalErrors == 0 && s.validationSummary == Some(Summary(0, map[], []))
  {
    ExtractInOrder(svc);
    var dfs := Extract(svc).value;
    var u := UploadRaw(svc, dfs);
    UploadRawShape(svc, dfs);
    var outs := SourceOutcomes(svc, m, u.files, now);
    CollectShape(u.files, outs);
    EmptyLogSummary();
    TotalRowsOfThree(dfs);
    var s := Run(svc, m, check, [], FreshStats, start, end, now).0;
    assert s.filesUploaded == u.entries + Process(svc, m, u.files, now).entries;
  }

  /** With `validate_settings` as written, every run fails before extracting anything, whatever the
      environment: only the start, the end and the `AttributeError` are recorded. */
  lemma RunAsWrittenAlwaysFails(svc: Services, m: DataMasker, env: Settings.Environment, log: seq<ErrorEntry>,
                                s0: Stats, start: int, end: int, now: int)
    ensures var e := "type object 'Settings' has no attribute 'GCS_BUCKET_RAW'";
      Run(svc, m, Settings.ValidateSettingsAsWritten(env), log, s0, start, end, now) ==
        (s0.(startTime := Some(start), endTime := Some(end), error := Some(e)), Some(e))
  {
    Settings.AsWrittenAlwaysFails(env);
  }

  /** With the corrected check, a run gets past the settings step exactly when every required
      variable is set and not empty; otherwise it fails before extracting anything. */
  lemma RunChecksSettingsFirst(svc: Services, m: DataMasker, env: Settings.Environment, log: seq<ErrorEntry>,
                               s0: Stats, start: int, end: int, now: int)
    ensures var (s, e) := Run(svc, m, Settings.ValidateSettings(env), log, s0, start, end, now);
      (exists n :: n in Settings.RequiredSettings && (n !in env || env[n] == "")) ==>
        e.Some? && s == s0.(startTime := Some(start), endTime := Some(end), error := e)
    ensures (forall n :: n in Settings.RequiredSettings ==> n in env && env[n] != "") ==>
      Run(svc, m, Settings.ValidateSettings(env), log, s0, start, end, now) ==
        Run(svc, m, Ok(()), log, s0, start, end, now)
  {
    Settings.ValidateSettingsOkIff(env);
    if Settings.ValidateSettings(env).Ok? {
      assert Settings.ValidateSettings(env) == Ok(());
    }
  }

  // ----- the runner -----

  /** `PipelineRunner`: its collaborators are fixed at construction; `pipeline_stats` is the
      state its methods update. */
  class PipelineRunner {
    const services: Services
    const validator: DataValidator
    const masker: DataMasker
    var stats: Stats

    /** The validator checks the model's required fields, and its error log stays empty: no
        method of the runner or the validator appends to it. */
    ghost predicate Valid()
      reads this, validator
    {
      validator.requiredFields == RequiredFieldNames() && validator.validationErrors == []
    }

    /** `__init__`. The extractors, uploader and loader are `services`; `hash` is SHA-256. */
    constructor (services: Services, hash: string -> HexDigest)
      ensures Valid()
      ensures this.services == services && masker == DataMasker(DefaultSalt, hash)
      ensures stats == FreshStats
    {
      this.services := services;
      validator := new DataValidator();
      masker := DataMasker(DefaultSalt, hash);
      stats := FreshStats;
    }

    /** `_extract_data()`. */
    method ExtractData() returns (r: Result<seq<(string, Frame)>>)
      modifies this
      ensures r == Extract(services)
      ensures stats == AfterExtract(old(stats), r)
    {
      var faker := services.extract("faker", RecordsPerSource);
      if faker.Err? {
        return Err(faker.msg);
      }
      var api := services.extract("api", RecordsPerSource);
      if api.Err? {
        return Err(api.msg);
      }
      var csv := services.extract("csv", RecordsPerSource);
      if csv.Err? {
        return Err(csv.msg);
      }
      var dataframes := [("faker", faker.value), ("api", api.value), ("csv", csv.value)];
      stats := stats.(sourcesProcessed := |dataframes|, totalRawRecords := TotalRows(dataframes));
      return Ok(dataframes);
    }

    /** `_upload_raw_data(dataframes)`. */
    method UploadRawData(dfs: seq<(string, Frame)>) returns (r: Result<seq<(string, string)>>)
      modifies this
      ensures r == Outcome(UploadRaw(services, dfs))
      ensures stats == old(stats).(filesUploaded := old(stats).filesUploaded + UploadRaw(services, dfs).entries)
    {
      var rawFiles: seq<(string, string)> := [];
      ghost var appended: seq<string> := [];
      var i := 0;
      while i < |dfs|
        invariant 0 <= i <= |dfs|
        invariant UploadRaw(services, dfs[..i]) == Progress(rawFiles, appended, 0, None)
        invariant stats == old(stats).(filesUploaded := old(stats).filesUploaded + appended)
      {
        assert dfs[..i + 1][..i] == dfs[..i];
        var source := dfs[i].0;
        var uploaded := services.upload(dfs[i].1, "raw", source);
        if uploaded.Err? {
          UploadRawErrorSticks(services, dfs, i + 1);
          return Err(uploaded.msg);
        }
        var filename := FileName("raw", source, uploaded.value);
        rawFiles := rawFiles + [(source, filename)];
        stats := stats.(filesUploaded := stats.filesUploaded + ["raw/" + filename]);
        appended := appended + ["raw/" + filename];
        i := i + 1;
      }
      assert dfs[..i] == dfs;
      return Ok(rawFiles);
    }

    /** `_process_data(raw_files)`: the loop, then the error statistics from the validator. */
    method ProcessData(raw: seq<(string, string)>, now: int) returns (r: Result<seq<(string, string)>>)
      requires Valid()
      modifies this
      ensures r == Outcome(Process(services, masker, raw, now))
      ensures stats == AfterProcess(old(stats), Process(services, masker, raw, now), validator.validationErrors)
    {
      r := ProcessSources(raw, now);
      if r.Err? {
        return;
      }
      var summary := validator.GetValidationSummary();
      stats := stats.(totalErrors := summary.totalErrors, validationSummary := Some(summary));
    }

    /** The `for source_name, filename in raw_files.items()` loop of `_process_data`. */
    method ProcessSources(raw: seq<(string, string)>, now: int) returns (r: Result<seq<(string, string)>>)
      requires Valid()
      modifies this
      ensures r == Outcome(Process(services, masker, raw, now))
      ensures stats == old(stats).(filesUploaded := old(stats).filesUploaded + Process(services, masker, raw, now).entries,
                                   totalValidRecords := old(stats).totalValidRecords + Process(services, masker, raw, now).records)
    {
      var processedFiles: seq<(string, string)> := [];
      ghost var appended: seq<string> := [];
      ghost var records: nat := 0;
      ghost var outs := SourceOutcomes(services, masker, raw, now);
      var i := 0;
      while i < |raw|
        invariant 0 <= i <= |raw|
        invariant Collect(raw[..i], outs[..i]) == Progress(processedFiles, appended, records, None)
        invariant stats.filesUploaded == old(stats).filesUploaded + appended
        invariant stats.totalValidRecords == old(stats).totalValidRecords + records
        invariant stats == old(stats).(filesUploaded := stats.filesUploaded, totalValidRecords := stats.totalValidRecords)
      {
        var source := raw[i].0;
        var outcome := ProcessSourceData(raw, i, now);
        CollectStep(raw, outs, i);
        if outcome.Err? {
          CollectErrorSticks(raw, outs, i + 1);
          return Err(outcome.msg);
        }
        if outcome.value.Some? {
          var (filename, n) := outcome.value.value;
          processedFiles := processedFiles + [(source, filename)];
          stats := stats.(filesUploaded := stats.filesUploaded + ["processed/" + filename],
                          totalValidRecords := stats.totalValidRecords + n);
          appended := appended + ["processed/" + filename];
          records := records + n;
        }
        i := i + 1;
      }
      assert raw[..i] == raw && outs[..i] == outs;
      return Ok(processedFiles);
    }

    /** The body of the `_process_data` loop for `raw_files[i]` up to the processed upload: the
        processed file name and the masked record count, `None` for a rejected batch, or the
        error raised. */
    method ProcessSourceData(raw: seq<(string, string)>, i: nat, now: int) returns (r: Result<Option<(string, nat)>>)
      requires Valid() && i < |raw|
      ensures r == SourceOutcomes(services, masker, raw, now)[i]
    {
      var (source, filename) := raw[i];
      SourceOutcomesAt(services, masker, raw, now, i);
      var downloaded := services.download(filename);
      if downloaded.Err? {
        return Err(downloaded.msg);
      }
      var isValid, issues := validator.ValidateFrame(downloaded.value, now);
      var validated := if isValid then downloaded.value else Frame([], []);
      ValidIffSchemaValid(downloaded.value, now);
      r := StoreValidatedData(source, validated, now);
    }

    /** The `if not df_validated.empty` block of the `_process_data` loop. */
    method StoreValidatedData(source: string, validated: Frame, now: int) returns (r: Result<Option<(string, nat)>>)
      ensures r == StoreValidated(services, masker, source, validated, now)
    {
      if IsEmpty(validated) {
        return Ok(None);
      }
      var masked := masker.MaskSensitiveData(validated, now);
      if masked.Err? {
        return Err(masked.msg);
      }
      var uploaded := services.upload(masked.value, "processed", source);
      if uploaded.Err? {
        return Err(uploaded.msg);
      }
      return Ok(Some((FileName("processed", source, uploaded.value), |masked.value.rows|)));
    }

    /** `_load_to_bigquery(processed_files)`; `jobs` are the ids of the load jobs started. */
    method LoadToBigQuery(files: seq<(string, string)>) returns (r: Result<()>, jobs: seq<string>)
      ensures jobs == LoadAll(services, files).jobs
      ensures r.Err? <==> LoadAll(services, files).error.Some?
      ensures r.Err? ==> r.msg == LoadAll(services, files).error.value
    {
      jobs := [];
      var i := 0;
      while i < |files|
        invariant 0 <= i <= |files|
        invariant LoadAll(services, files[..i]) == Loads(jobs, None)
      {
        assert files[..i + 1][..i] == files[..i];
        var job := services.load(files[i].1, files[i].0);
        if job.Err? {
          LoadAllErrorSticks(services, files, i + 1);
          return Err(job.msg), jobs;
        }
        jobs := jobs + [job.value];
        i := i + 1;
      }
      assert files[..i] == files;
      return Ok(()), jobs;
    }

    /** `_get_pipeline_summary()`. */
    method GetPipelineSummary() returns (s: PipelineSummary)
      ensures s == PipelineSummary(stats, SummaryOf(validator.validationErrors), InfoOf(services.tableInfo))
    {
      var validation := validator.GetValidationSummary();
      var info: Option<TableInfo> := None;
      if services.tableInfo.Ok? {
        info := Some(services.tableInfo.value);
      }
      s := PipelineSummary(stats, validation, info);
    }

    /** The `except` branch of `run_full_pipeline`. */
    method RecordFailure(e: string, end: int) returns (r: Result<PipelineSummary>)
      modifies this
      ensures (stats, ErrorOf(r)) == Fail(old(stats), e, end)
    {
      stats := stats.(endTime := Some(end), error := Some(e));
      return Err(e);
    }

    /** `run_full_pipeline()`. `settingsCheck` is what `settings.validate_settings()` did; `start`
        and `end` are the clock readings at the start and at the end. */
    method RunFullPipeline(settingsCheck: Result<()>, start: int, end: int, now: int) returns (r: Result<PipelineSummary>)
      requires Valid()
      modifies this
      ensures Valid()
      ensures (stats, ErrorOf(r)) == Run(services, masker, settingsCheck, validator.validationErrors, old(stats), start, end, now)
      ensures r.Ok? ==> r.value == PipelineSummary(stats, SummaryOf(validator.validationErrors), InfoOf(services.tableInfo))
    {
      stats := stats.(startTime := Some(start));
      if settingsCheck.Err? {
        r := RecordFailure(settingsCheck.msg, end);
        return;
      }
      var dataframes := ExtractData();
      if dataframes.Err? {
        r := RecordFailure(dataframes.msg, end);
        return;
      }
      var rawFiles := UploadRawData(dataframes.value);
      if rawFiles.Err? {
        r := RecordFailure(rawFiles.msg, end);
        return;
      }
      var processedFiles := ProcessData(rawFiles.value, now);
      if processedFiles.Err? {
        r := RecordFailure(processedFiles.msg, end);
        return;
      }
      var loaded, jobs := LoadToBigQuery(processedFiles.value);
      if loaded.Err? {
        r := RecordFailure(loaded.msg, end);
        return;
      }
      stats := stats.(endTime := Some(end), duration := Some(end - start));
      var summary := GetPipelineSummary();
      return Ok(summary);
    }
  }
}
